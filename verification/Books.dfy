// Keeping the books: an invocation, an entry newly committed and applied, and a read served
// each leave a history tied to its committed log. An entry completes the operation it
// belongs to if that operation is still waiting, and changes nothing otherwise: it is a
// duplicate the session table answers, or its client has moved on. A read completes its
// operation at the place in the log whose state it was served from.
module Books {
  import opened Prelude
  import opened KvStore
  import opened RaftTypes
  import opened Histories
  import opened World
  import opened Witness
  import V = NodeViews

  // ---- invocation -------------------------------------------------------------

  function Invoked(w: World, x: Aux, c: KvStore.Command): Aux {
    x.(owner := x.owner[c := |w.rows|], born := x.born + [|x.glog|])
  }

  ghost predicate Idle(w: World, c: KvStore.Command) {
    Structured(c) && c.client < |w.nextReq| && c.client !in w.outstanding && c.req == w.nextReq[c.client]
  }

  lemma NewCommand(su: Setup, w: World, x: Aux, bound: nat, c: KvStore.Command)
    requires Booked(su, w, x, bound) && Idle(w, c)
    ensures c !in x.owner && c !in w.waiting
    ensures forall i | 0 <= i < |w.rows| && w.rows[i].command.client == c.client ::
              w.rows[i].returned.Some? && w.rows[i].command.req < c.req
  {
    hide EntriesOk, PlacesOk, ServedOk, TimesOk, Sequential;
    forall i | 0 <= i < |w.rows| && w.rows[i].command.client == c.client
      ensures w.rows[i].returned.Some? && w.rows[i].command.req < c.req
    {
      assert RowOk(w, x, i, bound);
    }
    WaitersOwned(su, w, x, bound);
  }

  lemma WaitersOwned(su: Setup, w: World, x: Aux, bound: nat)
    requires Booked(su, w, x, bound)
    ensures forall c | c in w.waiting :: w.waiting[c] < |w.rows| && c in x.owner && x.owner[c] == w.waiting[c] && w.waiting[c] !in x.place
    ensures forall c | c in x.owner :: x.owner[c] < |w.rows| && w.rows[x.owner[c]].command == c && Structured(c)
  {
    hide EntriesOk, PlacesOk, ServedOk, TimesOk, Sequential;
    forall c | c in w.waiting
      ensures w.waiting[c] < |w.rows| && c in x.owner && x.owner[c] == w.waiting[c] && w.waiting[c] !in x.place
    {
      assert RowOk(w, x, w.waiting[c], bound);
    }
    forall c | c in x.owner
      ensures x.owner[c] < |w.rows| && w.rows[x.owner[c]].command == c && Structured(c)
    {
      assert RowOk(w, x, x.owner[c], bound);
    }
  }

  lemma InvokeRows(su: Setup, w: World, x: Aux, c: KvStore.Command)
    requires Booked(su, w, x, w.now) && Idle(w, c)
    ensures RowsOk(Invoke(w, c), Invoked(w, x, c), w.now + 1)
  {
    hide EntriesOk, PlacesOk, ServedOk, TimesOk, Sequential;
    NewCommand(su, w, x, w.now, c);
    var w2, x2 := Invoke(w, c), Invoked(w, x, c);
    PlacesAreRows(su, w, x, w.now);
    var bound := w.now + 1;
    forall i | 0 <= i < |w2.rows|
      ensures RowOk(w2, x2, i, bound)
    {
      if i < |w.rows| {
        assert RowOk(w, x, i, w.now);
      }
    }
  }

  lemma PlacesAreRows(su: Setup, w: World, x: Aux, bound: nat)
    requires Booked(su, w, x, bound)
    ensures forall i | i in x.place :: i < |w.rows| && x.place[i] <= 2 * |x.glog|
  {
    forall i | i in x.place
      ensures i < |w.rows| && x.place[i] <= 2 * |x.glog|
    {
      PlaceFacts(su, w, x, bound, i);
    }
  }

  lemma InvokeTimes(su: Setup, w: World, x: Aux, c: KvStore.Command)
    requires Booked(su, w, x, w.now) && Idle(w, c)
    ensures Sequential(Invoke(w, c)) && TimesOk(Invoke(w, c), Invoked(w, x, c))
  {
    hide EntriesOk, PlacesOk, ServedOk;
    NewCommand(su, w, x, w.now, c);
    PlacesAreRows(su, w, x, w.now);
    var w2 := Invoke(w, c);
    forall i, j | 0 <= i < j < |w2.rows| && w2.rows[i].command.client == w2.rows[j].command.client
      ensures w2.rows[i].command.req < w2.rows[j].command.req && Precedes(w2.rows[i], w2.rows[j])
    {
      assert RowOk(w, x, i, w.now);
    }
  }

  lemma InvokePlaces(su: Setup, w: World, x: Aux, c: KvStore.Command)
    requires Booked(su, w, x, w.now) && Idle(w, c)
    ensures var w2, x2 := Invoke(w, c), Invoked(w, x, c);
            WaitingOk(w2) && EntriesOk(su, w2, x2) && PlacesOk(su, w2, x2) && ServedOk(w2, x2)
  {
    hide TimesOk, Sequential, StateAfter, Execute, PlaceOk;
    NewCommand(su, w, x, w.now, c);
    PlacesAreRows(su, w, x, w.now);
    var w2, x2 := Invoke(w, c), Invoked(w, x, c);
    forall k | 0 <= k < |x2.glog| && x2.glog[k].payload.Client?
      ensures EntryOk(su, w2, x2, k)
    {
      assert EntryOk(su, w, x, k);
    }
    forall i | i in x2.place
      ensures PlaceOk(su, w2, x2, i)
    {
      InvokePlace(su, w, x, c, i);
    }
    forall p, j, k | 0 <= p < |x2.served| && 0 <= j < k < |x2.served[p]|
      ensures Before(w2, x2.served[p][j], x2.served[p][k])
    {
      assert Before(w, x.served[p][j], x.served[p][k]);
    }
  }

  lemma InvokePlace(su: Setup, w: World, x: Aux, c: KvStore.Command, i: nat)
    requires i in x.place && PlaceOk(su, w, x, i)
    ensures PlaceOk(su, Invoke(w, c), Invoked(w, x, c), i)
  {
    hide StateAfter, Execute;
  }

  lemma BookInvoke(su: Setup, w: World, x: Aux, c: KvStore.Command)
    requires Booked(su, w, x, w.now) && Idle(w, c)
    ensures Booked(su, Invoke(w, c), Invoked(w, x, c), w.now + 1)
  {
    hide RowsOk, TimesOk, Sequential, EntriesOk, PlacesOk, ServedOk, WaitingOk;
    InvokeRows(su, w, x, c);
    InvokeTimes(su, w, x, c);
    InvokePlaces(su, w, x, c);
  }

  lemma BookWait(su: Setup, w: World, x: Aux, bound: nat)
    requires Booked(su, w, x, bound)
    ensures Booked(su, w, x, bound + 1)
  {
    hide TimesOk, Sequential, EntriesOk, PlacesOk, ServedOk, WaitingOk;
    var later := bound + 1;
    forall i | 0 <= i < |w.rows|
      ensures RowOk(w, x, i, later)
    {
      assert RowOk(w, x, i, bound);
    }
  }

  // ---- reports that change nothing --------------------------------------------

  lemma BookOld(su: Setup, w: World, x: Aux, bound: nat, c: KvStore.Command, result: string)
    requires Booked(su, w, x, bound)
    requires Structured(c) ==> c in x.owner && x.owner[c] in x.place
    ensures OnApply(w, Applied(c, result)) == w
  {
    hide TimesOk, Sequential, EntriesOk, ServedOk;
    if Structured(c) {
      WaitersOwned(su, w, x, bound);
    }
  }

  // ---- the log grows ----------------------------------------------------------

  // Growth of the committed log by an entry that completes nothing.
  function Longer(x: Aux, e: Entry): Aux {
    x.(glog := x.glog + [e], served := x.served + [[]])
  }

  lemma LongerPlaces(su: Setup, w: World, x: Aux, bound: nat, e: Entry)
    requires Booked(su, w, x, bound)
    ensures PlacesOk(su, w, Longer(x, e)) && ServedOk(w, Longer(x, e))
  {
    hide TimesOk, Sequential, EntriesOk, WaitingOk, RowsOk, StateAfter, Execute;
    var x2 := Longer(x, e);
    forall i | i in x2.place
      ensures PlaceOk(su, w, x2, i)
    {
      assert PlaceOk(su, w, x, i);
      assert x2.glog[..x.place[i] / 2] == x.glog[..x.place[i] / 2];
    }
  }

  lemma LongerEntries(su: Setup, w: World, x: Aux, bound: nat, e: Entry)
    requires Booked(su, w, x, bound)
    requires e.payload.Client? ==> e.payload.command in x.owner && LogOp(su, e.payload.command)
    requires e.payload.Client? ==> x.owner[e.payload.command] in x.place
    ensures EntriesOk(su, w, Longer(x, e))
  {
    hide TimesOk, Sequential, WaitingOk, ServedOk, StateAfter, Execute;
    var x2 := Longer(x, e);
    forall k | 0 <= k < |x2.glog| && x2.glog[k].payload.Client?
      ensures EntryOk(su, w, x2, k)
    {
      if k < |x.glog| {
        assert EntryOk(su, w, x, k);
      } else {
        PlaceFacts(su, w, x, bound, x.owner[e.payload.command]);
      }
    }
  }

  lemma BookLonger(su: Setup, w: World, x: Aux, bound: nat, e: Entry)
    requires Booked(su, w, x, bound)
    requires e.payload.Client? ==> e.payload.command in x.owner && LogOp(su, e.payload.command)
    requires e.payload.Client? ==> x.owner[e.payload.command] in x.place
    ensures Booked(su, w, Longer(x, e), bound)
  {
    hide PlacesOk, ServedOk, EntriesOk, StateAfter, Execute, WaitingOk, Sequential;
    LongerPlaces(su, w, x, bound, e);
    LongerEntries(su, w, x, bound, e);
    forall i | 0 <= i < |w.rows|
      ensures RowOk(w, Longer(x, e), i, bound)
    {
      assert RowOk(w, x, i, bound);
    }
  }

  // ---- an operation completes -------------------------------------------------

  // Row i completes now, with this result.
  function Completes(w: World, i: nat, result: string): World
    requires i < |w.rows|
  {
    OnApply(w, Applied(w.rows[i].command, result))
  }

  lemma CompletesIs(su: Setup, w: World, x: Aux, bound: nat, i: nat, result: string)
    requires Booked(su, w, x, bound) && i < |w.rows| && i !in x.place
    ensures var c := w.rows[i].command;
            && c in w.waiting && w.waiting[c] == i && 0 <= c.client < |w.nextReq| && c.req == w.nextReq[c.client]
            && Completes(w, i, result)
               == w.(outstanding := w.outstanding - {c.client},
                  nextReq := w.nextReq[c.client := w.nextReq[c.client] + 1],
                  waiting := w.waiting - {c},
                  rows := w.rows[i := w.rows[i].(returned := Some(w.now), observed := result)])
  {
    hide PlacesOk, ServedOk, EntriesOk, TimesOk, Sequential;
    assert RowOk(w, x, i, bound);
  }

  // Adding a place for a row that had none.
  lemma CompleteRows(su: Setup, w: World, x: Aux, i: nat, result: string, x2: Aux)
    requires Booked(su, w, x, w.now + 1) && i < |w.rows| && i !in x.place
    requires x2.owner == x.owner && x2.born == x.born && |x2.glog| >= |x.glog|
    requires i in x2.place && x2.place.Keys == x.place.Keys + {i}
    ensures RowsOk(Completes(w, i, result), x2, w.now + 1)
  {
    hide PlacesOk, ServedOk, EntriesOk, TimesOk, Sequential, OnApply;
    CompletesIs(su, w, x, w.now + 1, i, result);
    var w2, bound := Completes(w, i, result), w.now + 1;
    assert RowOk(w, x, i, bound);
    forall j | 0 <= j < |w2.rows|
      ensures RowOk(w2, x2, j, bound)
    {
      assert RowOk(w, x, j, w.now + 1);
    }
  }

  lemma CompleteTimes(su: Setup, w: World, x: Aux, i: nat, result: string, x2: Aux)
    requires Booked(su, w, x, w.now + 1) && i < |w.rows| && i !in x.place
    requires x2.born == x.born && x2.place.Keys == x.place.Keys + {i}
    requires forall j | j in x.place :: x2.place[j] == x.place[j]
    ensures Sequential(Completes(w, i, result)) && TimesOk(Completes(w, i, result), x2) && WaitingOk(Completes(w, i, result))
  {
    hide PlacesOk, ServedOk, EntriesOk, OnApply;
    CompletesIs(su, w, x, w.now + 1, i, result);
    var w2 := Completes(w, i, result);
    assert RowOk(w, x, i, w.now + 1);
    PlacesAreRows(su, w, x, w.now + 1);
    forall a, b | 0 <= a < b < |w2.rows| && w2.rows[a].command.client == w2.rows[b].command.client
      ensures w2.rows[a].command.req < w2.rows[b].command.req && Precedes(w2.rows[a], w2.rows[b])
    {
      assert Precedes(w.rows[a], w.rows[b]);
    }
    forall a, b | a in x2.place && a < |w2.rows| && 0 <= b < |w2.rows| && Precedes(w2.rows[a], w2.rows[b])
      ensures x2.place[a] <= 2 * x2.born[b]
    {
      assert RowOk(w, x, b, w.now + 1);
      assert a != i;
    }
  }

  // ---- an entry takes effect --------------------------------------------------

  function TookEffect(x: Aux, e: Entry, i: nat): Aux {
    x.(glog := x.glog + [e], served := x.served + [[]], place := x.place[i := 2 * |x.glog| + 1])
  }

  // Its client has no entry with as large a request id yet, so the session table lets it run.
  lemma NotDuplicate(su: Setup, w: World, x: Aux, bound: nat, i: nat)
    requires Booked(su, w, x, bound) && i < |w.rows| && i !in x.place
    ensures Structured(w.rows[i].command) && !Duplicate(StateAfter(x.glog), w.rows[i].command)
  {
    hide PlacesOk, ServedOk, TimesOk, Sequential, WaitingOk;
    var c := w.rows[i].command;
    assert RowOk(w, x, i, bound);
    var cmds := Commands(x.glog);
    forall y | 0 <= y < |cmds|
      ensures Structured(cmds[y]) && cmds[y].client == c.client ==> cmds[y].req < c.req
    {
      if x.glog[y].payload.Client? {
        EntryFacts(su, w, x, bound, y);
        assert RowOk(w, x, x.owner[x.glog[y].payload.command], bound);
      }
    }
    HighestBelow(cmds, c);
    SessionsTrackHighest(cmds, c.client);
  }

  lemma EffectPlaces(su: Setup, w: World, x: Aux, i: nat, e: Entry, result: string)
    requires Booked(su, w, x, w.now + 1) && i < |w.rows| && i !in x.place
    requires e.payload == Client(w.rows[i].command) && LogOp(su, w.rows[i].command)
    requires result == Execute(StateAfter(x.glog).store, w.rows[i].command).1
    ensures PlacesOk(su, Completes(w, i, result), TookEffect(x, e, i)) && ServedOk(Completes(w, i, result), TookEffect(x, e, i))
  {
    hide TimesOk, Sequential, EntriesOk, WaitingOk, StateAfter, Execute, OnApply, Completes, ServedOk;
    CompletesIs(su, w, x, w.now + 1, i, result);
    assert RowOk(w, x, i, w.now + 1);
    var w2, x2 := Completes(w, i, result), TookEffect(x, e, i);
    forall j | j in x2.place
      ensures PlaceOk(su, w2, x2, j)
    {
      if j != i {
        EffectPlace(su, w, x, i, e, result, j);
      } else {
        assert |x.served| == |x.glog| + 1 by { ServedShape(su, w, x, w.now + 1); }
        assert x2.place[j] / 2 == |x.glog|;
        assert x2.glog[..|x.glog|] == x.glog;
      }
    }
    EffectServed(su, w, x, i, e, result);
  }

  lemma ServedShape(su: Setup, w: World, x: Aux, bound: nat)
    requires Booked(su, w, x, bound)
    ensures |x.served| == |x.glog| + 1
  {
    hide TimesOk, Sequential, EntriesOk, WaitingOk, PlacesOk, RowsOk;
  }

  lemma EffectServed(su: Setup, w: World, x: Aux, i: nat, e: Entry, result: string)
    requires Booked(su, w, x, w.now + 1) && i < |w.rows| && i !in x.place
    ensures ServedOk(Completes(w, i, result), TookEffect(x, e, i))
  {
    hide TimesOk, Sequential, EntriesOk, WaitingOk, PlacesOk, RowsOk, StateAfter, Execute, OnApply, Completes;
    CompletesIs(su, w, x, w.now + 1, i, result);
    var w2, x2 := Completes(w, i, result), TookEffect(x, e, i);
    forall p, j, k | 0 <= p < |x2.served| && 0 <= j < k < |x2.served[p]|
      ensures Before(w2, x2.served[p][j], x2.served[p][k])
    {
      assert Before(w, x.served[p][j], x.served[p][k]);
    }
  }

  lemma EffectPlace(su: Setup, w: World, x: Aux, i: nat, e: Entry, result: string, j: nat)
    requires Booked(su, w, x, w.now + 1) && i < |w.rows| && i !in x.place && j in x.place
    ensures PlaceOk(su, Completes(w, i, result), TookEffect(x, e, i), j)
  {
    hide TimesOk, Sequential, EntriesOk, WaitingOk, ServedOk, RowsOk, StateAfter, Execute, OnApply;
    CompletesIs(su, w, x, w.now + 1, i, result);
    assert PlaceOk(su, w, x, j);
    assert TookEffect(x, e, i).glog[..x.place[j] / 2] == x.glog[..x.place[j] / 2];
  }

  lemma ServePlace(su: Setup, w: World, x: Aux, i: nat, p: nat, result: string, j: nat)
    requires Booked(su, w, x, w.now + 1) && i < |w.rows| && i !in x.place && j in x.place && p < |x.served|
    ensures PlaceOk(su, Completes(w, i, result), Served(x, i, p), j)
  {
    hide TimesOk, Sequential, EntriesOk, WaitingOk, ServedOk, RowsOk, StateAfter, Execute, OnApply;
    CompletesIs(su, w, x, w.now + 1, i, result);
    assert PlaceOk(su, w, x, j);
    assert x.place[j] % 2 == 0 ==> j in x.served[x.place[j] / 2];
  }

  lemma EffectEntries(su: Setup, w: World, x: Aux, i: nat, e: Entry, result: string)
    requires Booked(su, w, x, w.now + 1) && i < |w.rows| && i !in x.place
    requires e.payload == Client(w.rows[i].command) && LogOp(su, w.rows[i].command)
    ensures EntriesOk(su, Completes(w, i, result), TookEffect(x, e, i))
  {
    hide TimesOk, Sequential, PlacesOk, ServedOk, WaitingOk;
    assert RowOk(w, x, i, w.now + 1);
    var x2 := TookEffect(x, e, i);
    forall k | 0 <= k < |x2.glog| && x2.glog[k].payload.Client?
      ensures EntryOk(su, Completes(w, i, result), x2, k)
    {
      if k < |x.glog| {
        assert EntryOk(su, w, x, k);
      }
    }
  }

  lemma BookEffect(su: Setup, w: World, x: Aux, i: nat, e: Entry)
    requires Booked(su, w, x, w.now + 1) && i < |w.rows| && i !in x.place
    requires e.payload == Client(w.rows[i].command) && LogOp(su, w.rows[i].command)
    ensures Booked(su, Completes(w, i, Apply(StateAfter(x.glog), w.rows[i].command).1), TookEffect(x, e, i), w.now + 1)
  {
    hide RowsOk, TimesOk, Sequential, EntriesOk, PlacesOk, ServedOk, WaitingOk, Completes, StateAfter, Execute, Duplicate;
    NotDuplicate(su, w, x, w.now + 1, i);
    var result := Execute(StateAfter(x.glog).store, w.rows[i].command).1;
    CompleteRows(su, w, x, i, result, TookEffect(x, e, i));
    CompleteTimes(su, w, x, i, result, TookEffect(x, e, i));
    EffectPlaces(su, w, x, i, e, result);
    EffectEntries(su, w, x, i, e, result);
  }

  // The committed log grows by one entry, which is applied and reported.
  lemma BookEntry(su: Setup, w: World, x: Aux, e: Entry) returns (x2: Aux)
    requires Booked(su, w, x, w.now + 1)
    requires e.payload.Client? ==> e.payload.command in x.owner && LogOp(su, e.payload.command)
    ensures Booked(su, OnApply(w, Applied(CommandOf(e.payload), Apply(StateAfter(x.glog), CommandOf(e.payload)).1)), x2, w.now + 1)
    ensures x2.glog == x.glog + [e] && x2.owner == x.owner && x2.born == x.born
  {
    hide Booked, OnApply, Apply, StateAfter;
    var c := CommandOf(e.payload);
    if e.payload.Client? && x.owner[c] !in x.place {
      OwnerFacts(su, w, x, w.now + 1, c);
      x2 := TookEffect(x, e, x.owner[c]);
      BookEffect(su, w, x, x.owner[c], e);
    } else {
      x2 := Longer(x, e);
      BookLonger(su, w, x, w.now + 1, e);
      BookOld(su, w, x, w.now + 1, c, Apply(StateAfter(x.glog), c).1);
    }
  }

  lemma OwnerFacts(su: Setup, w: World, x: Aux, bound: nat, c: KvStore.Command)
    requires Booked(su, w, x, bound) && c in x.owner
    ensures x.owner[c] < |w.rows| && w.rows[x.owner[c]].command == c && Structured(c)
  {
    hide EntriesOk, PlacesOk, ServedOk, TimesOk, Sequential, WaitingOk;
    assert RowOk(w, x, x.owner[c], bound);
  }

  // ---- a read is served -------------------------------------------------------

  function Served(x: Aux, i: nat, p: nat): Aux
    requires p < |x.served|
  {
    x.(served := x.served[p := x.served[p] + [i]], place := x.place[i := 2 * p])
  }

  lemma ServePlaces(su: Setup, w: World, x: Aux, i: nat, p: nat, result: string)
    requires Booked(su, w, x, w.now + 1) && i < |w.rows| && i !in x.place && p <= |x.glog| && p < |x.served|
    requires !LogOp(su, w.rows[i].command) && i < |x.born| && x.born[i] <= p
    requires result == Execute(StateAfter(x.glog[..p]).store, w.rows[i].command).1
    ensures PlacesOk(su, Completes(w, i, result), Served(x, i, p)) && ServedOk(Completes(w, i, result), Served(x, i, p))
  {
    hide TimesOk, Sequential, EntriesOk, WaitingOk, StateAfter, Execute, OnApply, Completes, ServedOk;
    CompletesIs(su, w, x, w.now + 1, i, result);
    ServedShape(su, w, x, w.now + 1);
    assert RowOk(w, x, i, w.now + 1);
    var w2, x2 := Completes(w, i, result), Served(x, i, p);
    forall j | j in x2.place
      ensures PlaceOk(su, w2, x2, j)
    {
      if j != i {
        ServePlace(su, w, x, i, p, result, j);
      } else {
        assert x2.served[p][|x.served[p]|] == i;
        assert x2.place[j] / 2 == p;
      }
    }
    ServeServed(su, w, x, i, p, result);
  }

  lemma ServeServed(su: Setup, w: World, x: Aux, i: nat, p: nat, result: string)
    requires Booked(su, w, x, w.now + 1) && i < |w.rows| && i !in x.place && p < |x.served|
    ensures ServedOk(Completes(w, i, result), Served(x, i, p))
  {
    hide TimesOk, Sequential, EntriesOk, WaitingOk, PlacesOk, RowsOk, StateAfter, Execute, OnApply, Completes;
    CompletesIs(su, w, x, w.now + 1, i, result);
    var w2, x2 := Completes(w, i, result), Served(x, i, p);
    forall q, j, k | 0 <= q < |x2.served| && 0 <= j < k < |x2.served[q]|
      ensures Before(w2, x2.served[q][j], x2.served[q][k])
    {
      if q == p && k == |x.served[p]| {
        PlaceFacts(su, w, x, w.now + 1, x.served[q][j]);
      } else {
        assert Before(w, x.served[q][j], x.served[q][k]);
      }
    }
  }

  lemma ServeEntries(su: Setup, w: World, x: Aux, i: nat, p: nat, result: string)
    requires Booked(su, w, x, w.now + 1) && i < |w.rows| && i !in x.place && p < |x.served|
    ensures EntriesOk(su, Completes(w, i, result), Served(x, i, p))
  {
    hide TimesOk, Sequential, PlacesOk, ServedOk, WaitingOk, RowsOk;
    forall k | 0 <= k < |x.glog| && x.glog[k].payload.Client?
      ensures EntryOk(su, Completes(w, i, result), Served(x, i, p), k)
    {
      assert EntryOk(su, w, x, k);
    }
  }

  // A read reports the state of the first p entries, p being no less than the length of the
  // committed log when it was invoked.
  lemma BookRead(su: Setup, w: World, x: Aux, c: KvStore.Command, p: nat) returns (x2: Aux)
    requires Booked(su, w, x, w.now + 1) && c in x.owner && !LogOp(su, c) && p <= |x.glog|
    requires x.owner[c] < |x.born| && x.born[x.owner[c]] <= p
    ensures Booked(su, OnApply(w, Applied(c, Read(StateAfter(x.glog[..p]).store, c))), x2, w.now + 1)
    ensures x2.glog == x.glog && x2.owner == x.owner && x2.born == x.born
  {
    hide OnApply, StateAfter, RowsOk, TimesOk, Sequential, EntriesOk, PlacesOk, ServedOk, WaitingOk;
    var i := x.owner[c];
    OwnerFacts(su, w, x, w.now + 1, c);
    BookedShape(su, w, x, w.now + 1);
    if i !in x.place {
      x2 := Served(x, i, p);
      var result := Read(StateAfter(x.glog[..p]).store, c);
      CompleteRows(su, w, x, i, result, x2);
      CompleteTimes(su, w, x, i, result, x2);
      ServePlaces(su, w, x, i, p, result);
      ServeEntries(su, w, x, i, p, result);
    } else {
      x2 := x;
      BookOld(su, w, x, w.now + 1, c, Read(StateAfter(x.glog[..p]).store, c));
    }
  }

  // ---- a stretch of a log is applied ------------------------------------------

  function Further(a: Log, b: Log): Log {
    if |a| < |b| then b else a
  }

  ghost predicate Owned(su: Setup, x: Aux, log: Log) {
    forall k | 0 <= k < |log| && log[k].payload.Client? ::
      log[k].payload.command in x.owner && LogOp(su, log[k].payload.command)
  }

  // Applying entries from+1 .. upto of a log whose first `from` entries are committed.
  lemma {:induction false} BookRange(su: Setup, w: World, x: Aux, log: Log, from: nat, upto: nat) returns (x2: Aux)
    requires Booked(su, w, x, w.now + 1) && Owned(su, x, log)
    requires from <= upto <= |log| && log[..from] <= x.glog
    requires log[..upto] <= x.glog || x.glog <= log[..upto]
    ensures Booked(su, Reported(w, ApplyRange(log, from, upto)), x2, w.now + 1)
    ensures x2.glog == Further(x.glog, log[..upto]) && x2.owner == x.owner && x2.born == x.born
    decreases upto - from
  {
    hide Booked, OnApply, Apply, StateAfter;
    if from == upto {
      x2 := x;
    } else {
      var e := log[from];
      var report := Applied(CommandOf(e.payload), Apply(StateAfter(log[..from]), CommandOf(e.payload)).1);
      var w1, x1 := OnApply(w, report), x;
      if from < |x.glog| {
        assert x.glog[from] == e;
        OldEntry(su, w, x, from, report.result);
      } else {
        assert log[..from] == x.glog;
        x1 := BookEntry(su, w, x, e);
      }
      OnApplyNow(w, report);
      assert log[..from + 1] <= x1.glog by { assert log[..from + 1] == log[..from] + [e]; }
      x2 := BookRange(su, w1, x1, log, from + 1, upto);
      var rest := ApplyRange(log, from + 1, upto);
      assert ApplyRange(log, from, upto) == [report] + rest;
      assert ([report] + rest)[1..] == rest;
    }
  }

  lemma OldEntry(su: Setup, w: World, x: Aux, k: nat, result: string)
    requires Booked(su, w, x, w.now + 1) && k < |x.glog|
    ensures OnApply(w, Applied(CommandOf(x.glog[k].payload), result)) == w
  {
    hide OnApply, RowsOk, TimesOk, Sequential, PlacesOk, ServedOk, WaitingOk;
    if x.glog[k].payload.Client? {
      assert EntryOk(su, w, x, k);
    }
    BookOld(su, w, x, w.now + 1, CommandOf(x.glog[k].payload), result);
  }

  lemma OnApplyNow(w: World, a: Applied)
    ensures OnApply(w, a).now == w.now && OnApply(w, a).sys == w.sys
    ensures |OnApply(w, a).nextReq| == |w.nextReq|
  {
  }
}
