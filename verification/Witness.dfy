// Why the recorded history is linearizable: commands take effect in the order of their
// first occurrence in the committed log, reads between the entries they saw. This module
// has the bookkeeping that ties a history to a committed log, and reads a linearization
// off it.
module Witness {
  import opened Prelude
  import opened KvStore
  import opened RaftTypes
  import opened Histories
  import opened World
  import V = NodeViews

  // The committed log so far; which row each command belongs to; for every completed row
  // the place where it took effect (2k + 1: as entry k of the log; 2p: as a read between
  // entries p - 1 and p); the reads at each place, in order of completion; and the length
  // of the committed log when each row was invoked.
  datatype Aux = Aux(
    glog: Log,
    owner: map<KvStore.Command, nat>,
    place: map<nat, nat>,
    served: seq<seq<nat>>,
    born: seq<nat>)

  const NOBODY := Aux([], map[], map[], [[]], [])

  predicate LogOp(su: Setup, c: KvStore.Command) {
    !(su.readIndex && c.op == Get)
  }

  // ---- the bookkeeping --------------------------------------------------------

  ghost predicate RowsOk(w: World, x: Aux, bound: nat) {
    && |x.born| == |w.rows|
    && (forall i | 0 <= i < |w.rows| :: RowOk(w, x, i, bound))
    && (forall c | c in x.owner :: x.owner[c] < |w.rows| && w.rows[x.owner[c]].command == c)
  }

  ghost predicate RowOk(w: World, x: Aux, i: nat, bound: nat)
    requires i < |w.rows| && |x.born| == |w.rows|
  {
    var r := w.rows[i];
    && Structured(r.command) && r.command.client < |w.nextReq|
    && r.command in x.owner && x.owner[r.command] == i
    && r.invoked < bound && x.born[i] <= |x.glog|
    && (r.returned.Some? ==> r.invoked <= r.returned.value < bound)
    && (r.returned.Some? <==> i in x.place)
    && r.command.req <= w.nextReq[r.command.client]
    && (r.returned.Some? ==> r.command.req < w.nextReq[r.command.client])
    && (r.returned.None? ==> Unfinished(w, r.command, i))
  }

  predicate Unfinished(w: World, c: KvStore.Command, i: nat) {
    && c in w.waiting && w.waiting[c] == i && c.client in w.outstanding && w.outstanding[c.client] == c
    && 0 <= c.client < |w.nextReq| && c.req == w.nextReq[c.client]
  }

  // A client's operations never overlap.
  ghost predicate Sequential(w: World) {
    forall i, j | 0 <= i < j < |w.rows| && w.rows[i].command.client == w.rows[j].command.client ::
      w.rows[i].command.req < w.rows[j].command.req && Precedes(w.rows[i], w.rows[j])
  }

  ghost predicate WaitingOk(w: World) {
    && (forall c | c in w.waiting :: w.waiting[c] < |w.rows| && w.rows[w.waiting[c]].command == c && w.rows[w.waiting[c]].returned.None?)
    && (forall c | c in w.outstanding :: w.outstanding[c] in w.waiting && w.outstanding[c].client == c)
  }

  // Every client entry of the committed log belongs to a completed row invoked before it.
  ghost predicate EntriesOk(su: Setup, w: World, x: Aux) {
    forall k | 0 <= k < |x.glog| && x.glog[k].payload.Client? :: EntryOk(su, w, x, k)
  }

  ghost predicate EntryOk(su: Setup, w: World, x: Aux, k: nat)
    requires k < |x.glog| && x.glog[k].payload.Client?
  {
    var c := x.glog[k].payload.command;
    && LogOp(su, c) && c in x.owner && x.owner[c] in x.place && x.owner[c] < |x.born|
    && x.born[x.owner[c]] <= k && x.place[x.owner[c]] % 2 == 1 && x.place[x.owner[c]] <= 2 * k + 1
  }

  // What a place means.
  ghost predicate PlaceOk(su: Setup, w: World, x: Aux, i: nat)
    requires i in x.place
  {
    && i < |w.rows| && |x.born| == |w.rows| && |x.served| == |x.glog| + 1
    && var p := x.place[i];
    && 2 * x.born[i] <= p && p / 2 <= |x.glog|
    && w.rows[i].observed == Execute(StateAfter(x.glog[..p / 2]).store, w.rows[i].command).1
    && (if p % 2 == 1 then LogOp(su, w.rows[i].command) && p / 2 < |x.glog| && x.glog[p / 2].payload == Client(w.rows[i].command)
        else !LogOp(su, w.rows[i].command) && i in x.served[p / 2])
  }

  ghost predicate PlacesOk(su: Setup, w: World, x: Aux) {
    forall i | i in x.place :: PlaceOk(su, w, x, i)
  }

  ghost predicate ServedOk(w: World, x: Aux) {
    && |x.served| == |x.glog| + 1
    && (forall p, j | 0 <= p < |x.served| && 0 <= j < |x.served[p]| :: x.served[p][j] in x.place && x.place[x.served[p][j]] == 2 * p)
    && (forall p, j, k | 0 <= p < |x.served| && 0 <= j < k < |x.served[p]| :: Before(w, x.served[p][j], x.served[p][k]))
  }

  predicate Before(w: World, a: nat, b: nat) {
    && a != b && a < |w.rows| && b < |w.rows|
    && w.rows[a].returned.Some? && w.rows[b].returned.Some? && w.rows[a].returned.value <= w.rows[b].returned.value
  }

  // Whatever returned before an invocation took effect within the log as it was then.
  ghost predicate TimesOk(w: World, x: Aux) {
    |x.born| == |w.rows| &&
    forall a, b | a in x.place && a < |w.rows| && 0 <= b < |w.rows| && Precedes(w.rows[a], w.rows[b]) ::
      x.place[a] <= 2 * x.born[b]
  }

  ghost predicate Booked(su: Setup, w: World, x: Aux, bound: nat) {
    && RowsOk(w, x, bound) && Sequential(w) && WaitingOk(w)
    && EntriesOk(su, w, x) && PlacesOk(su, w, x) && ServedOk(w, x) && TimesOk(w, x)
  }

  // ---- first occurrences ------------------------------------------------------

  // Entry k is where its command took effect.
  ghost predicate FirstAt(w: World, x: Aux, k: nat)
    requires k < |x.glog|
  {
    x.glog[k].payload.Client? &&
    var c := x.glog[k].payload.command;
    c in x.owner && x.owner[c] in x.place && x.place[x.owner[c]] == 2 * k + 1
  }

  // A command takes effect exactly where it is a record high of its client.
  lemma FirstIsFresh(su: Setup, w: World, x: Aux, bound: nat, k: nat)
    requires Booked(su, w, x, bound) && k < |x.glog|
    ensures FirstAt(w, x, k) <==> KvStore.Fresh(Commands(x.glog), k)
  {
    var cmds := Commands(x.glog);
    if x.glog[k].payload.Client? {
      var c := x.glog[k].payload.command;
      assert EntryOk(su, w, x, k);
      var i := x.owner[c];
      assert PlaceOk(su, w, x, i) && RowOk(w, x, i, bound);
      var f := x.place[i] / 2;
      if f < k {
        HighestAtLeast(cmds[..k], f);
      } else {
        assert f == k;
        forall y | 0 <= y < k
          ensures Structured(cmds[y]) && cmds[y].client == c.client ==> cmds[y].req < c.req
        {
          EarlierIsLower(su, w, x, bound, y, k);
        }
        HighestBelow(cmds[..k], c);
      }
    }
  }

  lemma EarlierIsLower(su: Setup, w: World, x: Aux, bound: nat, y: nat, k: nat)
    requires Booked(su, w, x, bound) && y < k < |x.glog| && FirstAt(w, x, k)
    ensures var a, c := CommandOf(x.glog[y].payload), CommandOf(x.glog[k].payload);
            Structured(a) && a.client == c.client ==> a.req < c.req
  {
    hide RowOk, RowsOk, PlacesOk, ServedOk, TimesOk, Sequential, WaitingOk, EntriesOk, Booked;
    var a, c := CommandOf(x.glog[y].payload), CommandOf(x.glog[k].payload);
    if Structured(a) && a.client == c.client {
      EntryFacts(su, w, x, bound, y);
      EntryFacts(su, w, x, bound, k);
      InvokedLater(su, w, x, bound, x.owner[c], x.owner[a]);
      InvokedLater(su, w, x, bound, x.owner[a], x.owner[c]);
    }
  }

  lemma EntryFacts(su: Setup, w: World, x: Aux, bound: nat, k: nat)
    requires Booked(su, w, x, bound) && k < |x.glog| && x.glog[k].payload.Client?
    ensures EntryOk(su, w, x, k)
    ensures var i := x.owner[x.glog[k].payload.command];
            i < |w.rows| && w.rows[i].command == x.glog[k].payload.command
  {
    hide RowOk, PlacesOk, ServedOk, TimesOk, Sequential, WaitingOk;
  }

  // Of two operations of one client, the one with the smaller row was done, request id
  // and place included, when the other was invoked.
  lemma InvokedLater(su: Setup, w: World, x: Aux, bound: nat, i: nat, j: nat)
    requires Booked(su, w, x, bound) && i in x.place && i < |w.rows| && j < |w.rows|
    ensures |x.born| == |w.rows|
    ensures i < j && w.rows[i].command.client == w.rows[j].command.client ==>
              w.rows[i].command.req < w.rows[j].command.req && x.place[i] <= 2 * x.born[j]
  {
    hide RowOk, PlacesOk, ServedOk, EntriesOk, WaitingOk;
  }

  lemma {:induction false} HighestAtLeast(cmds: seq<KvStore.Command>, f: nat)
    requires f < |cmds| && Structured(cmds[f])
    ensures Highest(cmds, cmds[f].client).Some? && Highest(cmds, cmds[f].client).value >= cmds[f].req
  {
    var n := |cmds| - 1;
    if f < n {
      HighestAtLeast(cmds[..n], f);
    }
  }

  lemma {:induction false} HighestBelow(cmds: seq<KvStore.Command>, c: KvStore.Command)
    requires Structured(c)
    requires forall y | 0 <= y < |cmds| :: Structured(cmds[y]) && cmds[y].client == c.client ==> cmds[y].req < c.req
    ensures Highest(cmds, c.client).Some? ==> Highest(cmds, c.client).value < c.req
  {
    if cmds != [] {
      HighestBelow(cmds[..|cmds| - 1], c);
    }
  }

  // ---- the linearization ------------------------------------------------------

  // The row that takes effect as entry k, if one does.
  ghost function RowAt(w: World, x: Aux, k: nat): seq<nat>
    requires k < |x.glog|
  {
    if FirstAt(w, x, k) then [x.owner[x.glog[k].payload.command]] else []
  }

  // Everything that takes effect up to place 2n.
  ghost function Order(w: World, x: Aux, n: nat): seq<nat>
    requires n <= |x.glog| && |x.served| == |x.glog| + 1
  {
    if n == 0 then x.served[0] else Order(w, x, n - 1) + RowAt(w, x, n - 1) + x.served[n]
  }

  ghost predicate Placed(w: World, x: Aux, order: seq<nat>, hi: nat) {
    && Indices(w.rows, order)
    && (forall k | 0 <= k < |order| :: order[k] in x.place && x.place[order[k]] <= hi)
    && (forall i, j | 0 <= i < j < |order| :: InTurn(w, x, order[i], order[j]))
    && (forall i | i in x.place && x.place[i] <= hi :: i in order)
  }

  ghost predicate InTurn(w: World, x: Aux, a: nat, b: nat) {
    a in x.place && b in x.place && (x.place[a] < x.place[b] || (x.place[a] == x.place[b] && Before(w, a, b)))
  }

  lemma ServedPlaced(su: Setup, w: World, x: Aux, bound: nat, p: nat)
    requires Booked(su, w, x, bound) && p <= |x.glog|
    ensures forall j | 0 <= j < |x.served[p]| :: x.served[p][j] < |w.rows| && x.served[p][j] in x.place && x.place[x.served[p][j]] == 2 * p
    ensures forall i, j | 0 <= i < j < |x.served[p]| :: InTurn(w, x, x.served[p][i], x.served[p][j])
    ensures forall i | i in x.place && x.place[i] == 2 * p :: i in x.served[p]
  {
    hide RowsOk, RowOk, PlacesOk, TimesOk, Sequential, WaitingOk, EntriesOk, StateAfter, Execute;
    forall i | i in x.place && x.place[i] == 2 * p
      ensures i in x.served[p]
    {
      PlaceFacts(su, w, x, bound, i);
    }
    forall j | 0 <= j < |x.served[p]|
      ensures x.served[p][j] < |w.rows|
    {
      PlaceFacts(su, w, x, bound, x.served[p][j]);
    }
  }

  lemma RowPlaced(su: Setup, w: World, x: Aux, bound: nat, k: nat)
    requires Booked(su, w, x, bound) && k < |x.glog|
    ensures forall j | 0 <= j < |RowAt(w, x, k)| :: RowAt(w, x, k)[j] < |w.rows| && RowAt(w, x, k)[j] in x.place && x.place[RowAt(w, x, k)[j]] == 2 * k + 1
    ensures forall i | i in x.place && x.place[i] == 2 * k + 1 :: i in RowAt(w, x, k)
    ensures |RowAt(w, x, k)| <= 1
  {
    hide RowsOk, PlacesOk, ServedOk, TimesOk, Sequential, WaitingOk, EntriesOk, Booked, StateAfter, Execute;
    forall i | i in x.place && x.place[i] == 2 * k + 1
      ensures i in RowAt(w, x, k)
    {
      PlaceFacts(su, w, x, bound, i);
    }
    if FirstAt(w, x, k) {
      PlaceFacts(su, w, x, bound, x.owner[x.glog[k].payload.command]);
    }
  }

  lemma PlaceFacts(su: Setup, w: World, x: Aux, bound: nat, i: nat)
    requires Booked(su, w, x, bound) && i in x.place
    ensures PlaceOk(su, w, x, i) && RowOk(w, x, i, bound) && w.rows[i].returned.Some?
  {
    hide ServedOk, TimesOk, Sequential, WaitingOk, EntriesOk, StateAfter, Execute;
    assert PlaceOk(su, w, x, i);
    assert RowOk(w, x, i, bound);
  }

  lemma PlacedMore(w: World, x: Aux, a: seq<nat>, b: seq<nat>, hi: nat)
    requires Placed(w, x, a, hi)
    requires forall j | 0 <= j < |b| :: b[j] < |w.rows| && b[j] in x.place && x.place[b[j]] == hi + 1
    requires forall i, j | 0 <= i < j < |b| :: InTurn(w, x, b[i], b[j])
    requires forall i | i in x.place && x.place[i] == hi + 1 :: i in b
    ensures Placed(w, x, a + b, hi + 1)
  {
    forall i, j | 0 <= i < j < |a + b|
      ensures InTurn(w, x, (a + b)[i], (a + b)[j])
    {
      if j < |a| {
        assert InTurn(w, x, a[i], a[j]);
      } else if i >= |a| {
        assert InTurn(w, x, b[i - |a|], b[j - |a|]);
      }
    }
    forall i | i in x.place && x.place[i] <= hi + 1
      ensures i in a + b
    {
      assert i in a || i in b;
    }
  }

  lemma {:induction false} OrderPlaced(su: Setup, w: World, x: Aux, bound: nat, n: nat)
    requires Booked(su, w, x, bound) && n <= |x.glog|
    ensures Placed(w, x, Order(w, x, n), 2 * n)
  {
    hide Booked, Placed, InTurn, RowAt;
    BookedShape(su, w, x, bound);
    ServedPlaced(su, w, x, bound, n);
    if n == 0 {
      FirstPlaced(w, x, x.served[0]);
    } else {
      OrderPlaced(su, w, x, bound, n - 1);
      RowPlaced(su, w, x, bound, n - 1);
      var before := Order(w, x, n - 1);
      PlacedMore(w, x, before, RowAt(w, x, n - 1), 2 * (n - 1));
      PlacedMore(w, x, before + RowAt(w, x, n - 1), x.served[n], 2 * n - 1);
    }
  }

  lemma BookedShape(su: Setup, w: World, x: Aux, bound: nat)
    requires Booked(su, w, x, bound)
    ensures |x.served| == |x.glog| + 1 && |x.born| == |w.rows|
  {
  }

  lemma FirstPlaced(w: World, x: Aux, b: seq<nat>)
    requires forall j | 0 <= j < |b| :: b[j] < |w.rows| && b[j] in x.place && x.place[b[j]] == 0
    requires forall i, j | 0 <= i < j < |b| :: InTurn(w, x, b[i], b[j])
    requires forall i | i in x.place && x.place[i] == 0 :: i in b
    ensures Placed(w, x, b, 0)
  {
  }

  // ---- running the linearization is applying the log --------------------------

  lemma {:induction false} ReadsChangeNothing(cmds: seq<KvStore.Command>, gets: seq<KvStore.Command>)
    requires forall k | 0 <= k < |gets| :: gets[k].op == Get
    ensures RunAll(cmds + gets) == RunAll(cmds)
  {
    if gets == [] {
      assert cmds + gets == cmds;
    } else {
      var n := |gets| - 1;
      ReadsChangeNothing(cmds, gets[..n]);
      assert (cmds + gets)[..|cmds| + n] == cmds + gets[..n];
    }
  }

  lemma IssuedAppend(rows: seq<Row>, a: seq<nat>, b: seq<nat>)
    requires Indices(rows, a) && Indices(rows, b)
    ensures Indices(rows, a + b) && Issued(rows, a + b) == Issued(rows, a) + Issued(rows, b)
  {
  }

  // After everything up to place 2n the plain store is what the log's first n entries give.
  lemma {:induction false} OrderRuns(su: Setup, w: World, x: Aux, bound: nat, n: nat)
    requires Booked(su, w, x, bound) && n <= |x.glog| && |x.served| == |x.glog| + 1
    ensures Indices(w.rows, Order(w, x, n))
    ensures RunAll(Issued(w.rows, Order(w, x, n))) == StateAfter(x.glog[..n]).store
  {
    hide Booked, RowAt, Execute, Apply, RunAll, Issued, StateAfter, Legal;
    ServedReads(su, w, x, bound, n);
    if n == 0 {
      NothingLegal(w.rows, x.glog);
      StoreAfterReads(w.rows, [], x.served[0]);
      assert [] + x.served[0] == x.served[0];
    } else {
      OrderRuns(su, w, x, bound, n - 1);
      EntryRuns(su, w, x, bound, n - 1, Order(w, x, n - 1));
      StoreAfterReads(w.rows, Order(w, x, n - 1) + RowAt(w, x, n - 1), x.served[n]);
    }
  }

  lemma ServedReads(su: Setup, w: World, x: Aux, bound: nat, p: nat)
    requires Booked(su, w, x, bound) && p <= |x.glog|
    ensures |x.served| == |x.glog| + 1 && Indices(w.rows, x.served[p])
    ensures forall j | 0 <= j < |x.served[p]| :: w.rows[x.served[p][j]].command.op == Get
  {
    hide RowsOk, RowOk, PlacesOk, TimesOk, Sequential, WaitingOk, EntriesOk, StateAfter, Execute;
    forall j | 0 <= j < |x.served[p]|
      ensures x.served[p][j] < |w.rows| && w.rows[x.served[p][j]].command.op == Get
    {
      PlaceFacts(su, w, x, bound, x.served[p][j]);
    }
  }

  lemma EntryRuns(su: Setup, w: World, x: Aux, bound: nat, k: nat, before: seq<nat>)
    requires Booked(su, w, x, bound) && k < |x.glog| && Indices(w.rows, before)
    requires RunAll(Issued(w.rows, before)) == StateAfter(x.glog[..k]).store
    ensures Indices(w.rows, before + RowAt(w, x, k))
    ensures RunAll(Issued(w.rows, before + RowAt(w, x, k))) == StateAfter(x.glog[..k + 1]).store
  {
    hide Execute;
    var cmds := Commands(x.glog);
    FirstIsFresh(su, w, x, bound, k);
    FreshMeansNew(cmds, k);
    assert cmds[..k] == Commands(x.glog[..k]);
    V.StateAfterSnoc(x.glog, k);
    RowPlaced(su, w, x, bound, k);
    IssuedAppend(w.rows, before, RowAt(w, x, k));
    if FirstAt(w, x, k) {
      var i := x.owner[x.glog[k].payload.command];
      assert PlaceOk(su, w, x, i);
      RunAllSnoc(Issued(w.rows, before), w.rows[i].command);
      assert Issued(w.rows, [i]) == [w.rows[i].command];
    } else {
      assert before + RowAt(w, x, k) == before;
    }
  }

  lemma LegalMore(rows: seq<Row>, a: seq<nat>, i: nat)
    requires Indices(rows, a) && Legal(rows, a) && i < |rows|
    requires rows[i].observed == Execute(RunAll(Issued(rows, a)), rows[i].command).1
    ensures Indices(rows, a + [i]) && Legal(rows, a + [i])
  {
    hide Execute, RunAll;
    var b := a + [i];
    forall k | 0 <= k < |b|
      ensures rows[b[k]].observed == Execute(StoreAt(rows, b, k), rows[b[k]].command).1
    {
      assert Issued(rows, b)[..k] == Issued(rows, a)[..k];
      if k == |a| {
        assert Issued(rows, a)[..k] == Issued(rows, a);
      } else {
        assert rows[a[k]].observed == Execute(StoreAt(rows, a, k), rows[a[k]].command).1;
      }
    }
  }

  lemma {:induction false} LegalReads(rows: seq<Row>, a: seq<nat>, gets: seq<nat>, store: Store)
    requires Indices(rows, a) && Legal(rows, a) && Indices(rows, gets) && RunAll(Issued(rows, a)) == store
    requires forall j | 0 <= j < |gets| :: rows[gets[j]].command.op == Get && rows[gets[j]].observed == Execute(store, rows[gets[j]].command).1
    ensures Indices(rows, a + gets) && Legal(rows, a + gets)
  {
    hide Execute, RunAll, Legal, Issued;
    if gets == [] {
      assert a + gets == a;
    } else {
      var n := |gets| - 1;
      LegalReads(rows, a, gets[..n], store);
      StoreAfterReads(rows, a, gets[..n]);
      LegalMore(rows, a + gets[..n], gets[n]);
      assert a + gets[..n] + [gets[n]] == a + gets;
    }
  }

  lemma StoreAfterReads(rows: seq<Row>, a: seq<nat>, gets: seq<nat>)
    requires Indices(rows, a) && Indices(rows, gets)
    requires forall j | 0 <= j < |gets| :: rows[gets[j]].command.op == Get
    ensures Indices(rows, a + gets) && RunAll(Issued(rows, a + gets)) == RunAll(Issued(rows, a))
  {
    hide RunAll;
    IssuedAppend(rows, a, gets);
    ReadsChangeNothing(Issued(rows, a), Issued(rows, gets));
  }

  lemma ServedSaw(su: Setup, w: World, x: Aux, bound: nat, p: nat)
    requires Booked(su, w, x, bound) && p <= |x.glog|
    ensures |x.served| == |x.glog| + 1 && Indices(w.rows, x.served[p])
    ensures forall j | 0 <= j < |x.served[p]| ::
              w.rows[x.served[p][j]].observed == Execute(StateAfter(x.glog[..p]).store, w.rows[x.served[p][j]].command).1
  {
    hide Execute, StateAfter;
    ServedReads(su, w, x, bound, p);
    forall j | 0 <= j < |x.served[p]|
      ensures w.rows[x.served[p][j]].observed == Execute(StateAfter(x.glog[..p]).store, w.rows[x.served[p][j]].command).1
    {
      assert PlaceOk(su, w, x, x.served[p][j]);
    }
  }

  lemma {:induction false} OrderLegal(su: Setup, w: World, x: Aux, bound: nat, n: nat)
    requires Booked(su, w, x, bound) && n <= |x.glog| && |x.served| == |x.glog| + 1
    ensures Indices(w.rows, Order(w, x, n)) && Legal(w.rows, Order(w, x, n))
  {
    hide Booked, Execute, RunAll, StateAfter, Legal, RowAt;
    ServedReads(su, w, x, bound, n);
    ServedSaw(su, w, x, bound, n);
    if n == 0 {
      NothingLegal(w.rows, x.glog);
      LegalReads(w.rows, [], x.served[0], StateAfter(x.glog[..0]).store);
      assert [] + x.served[0] == x.served[0];
    } else {
      OrderLegal(su, w, x, bound, n - 1);
      OrderRuns(su, w, x, bound, n - 1);
      EntryRuns(su, w, x, bound, n - 1, Order(w, x, n - 1));
      EntryLegal(su, w, x, bound, n - 1, Order(w, x, n - 1));
      LegalReads(w.rows, Order(w, x, n - 1) + RowAt(w, x, n - 1), x.served[n], StateAfter(x.glog[..n]).store);
    }
  }

  lemma NothingLegal(rows: seq<Row>, glog: Log)
    ensures Indices(rows, []) && Legal(rows, []) && RunAll(Issued(rows, [])) == StateAfter(glog[..0]).store
  {
    assert Commands(glog[..0]) == [];
  }

  lemma EntryLegal(su: Setup, w: World, x: Aux, bound: nat, k: nat, before: seq<nat>)
    requires Booked(su, w, x, bound) && k < |x.glog| && Indices(w.rows, before) && Legal(w.rows, before)
    requires RunAll(Issued(w.rows, before)) == StateAfter(x.glog[..k]).store
    ensures Indices(w.rows, before + RowAt(w, x, k)) && Legal(w.rows, before + RowAt(w, x, k))
  {
    hide Execute, RunAll, StateAfter, Legal;
    if FirstAt(w, x, k) {
      var i := x.owner[x.glog[k].payload.command];
      assert PlaceOk(su, w, x, i);
      assert x.place[i] / 2 == k;
      LegalMore(w.rows, before, i);
    } else {
      assert before + RowAt(w, x, k) == before;
    }
  }

  // ---- the theorem about books ------------------------------------------------

  lemma PlacedRealTime(su: Setup, w: World, x: Aux, bound: nat, order: seq<nat>, hi: nat)
    requires Booked(su, w, x, bound) && Placed(w, x, order, hi)
    ensures RealTime(w.rows, order) && Distinct(order)
    ensures forall k | 0 <= k < |order| :: Completed(w.rows[order[k]])
  {
    forall i, j | 0 <= i < j < |order|
      ensures !Precedes(w.rows[order[j]], w.rows[order[i]]) && order[i] != order[j]
    {
      assert InTurn(w, x, order[i], order[j]);
      TurnRealTime(su, w, x, bound, order[i], order[j]);
    }
    forall k | 0 <= k < |order|
      ensures Completed(w.rows[order[k]])
    {
      assert RowOk(w, x, order[k], bound);
    }
  }

  lemma TurnRealTime(su: Setup, w: World, x: Aux, bound: nat, a: nat, b: nat)
    requires Booked(su, w, x, bound) && InTurn(w, x, a, b) && a < |w.rows| && b < |w.rows|
    ensures !Precedes(w.rows[b], w.rows[a]) && a != b
  {
    assert PlaceOk(su, w, x, a) && RowOk(w, x, a, bound) && RowOk(w, x, b, bound);
  }

  // A booked history is linearizable.
  lemma BookedLinearizable(su: Setup, w: World, x: Aux, bound: nat)
    requires Booked(su, w, x, bound)
    ensures Linearizable(w.rows)
  {
    hide Booked, Legal, RealTime, Placed, Order;
    BookedShape(su, w, x, bound);
    var n := |x.glog|;
    var order := Order(w, x, n);
    OrderPlaced(su, w, x, bound, n);
    PlacedRealTime(su, w, x, bound, order, 2 * n);
    OrderLegal(su, w, x, bound, n);
    PlacedCovers(su, w, x, bound, order);
    assert Linearization(w.rows, order);
  }

  lemma PlacedCovers(su: Setup, w: World, x: Aux, bound: nat, order: seq<nat>)
    requires Booked(su, w, x, bound) && Placed(w, x, order, 2 * |x.glog|)
    requires Distinct(order) && forall k | 0 <= k < |order| :: order[k] < |w.rows| && Completed(w.rows[order[k]])
    ensures Indices(w.rows, order) && Covers(w.rows, order)
  {
    forall i | 0 <= i < |w.rows| && Completed(w.rows[i])
      ensures i in order
    {
      assert RowOk(w, x, i, bound);
      assert PlaceOk(su, w, x, i);
    }
  }
}
