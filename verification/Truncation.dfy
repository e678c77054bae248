// Cutting a history to its earliest operations: exactly the clean cuts are sound.
module Truncation {
  import opened Prelude
  import opened KvStore
  import opened Histories
  import opened OracleCheck
  import O = Oracle

  // Contrary to the claim made for cutting, a non-linearizable cut does not prove the whole
  // history non-linearizable: a kept read may observe a concurrent write that was cut off.

  // Every operation kept had returned when any operation cut off was invoked.
  ghost predicate Clean(history: seq<Row>, sorted: seq<nat>, k: nat)
    requires Indices(history, sorted)
  {
    forall i, j | 0 <= i < k <= j < |sorted| :: Precedes(history[sorted[i]], history[sorted[j]])
  }

  // No operation returns before it was invoked.
  ghost predicate WellTimed(history: seq<Row>) {
    forall i | 0 <= i < |history| && Completed(history[i]) :: history[i].invoked <= history[i].returned.value
  }

  // The same clients at the same moments, whatever they did and saw.
  ghost predicate SameShape(a: seq<Row>, b: seq<Row>) {
    |a| == |b| && forall i | 0 <= i < |a| ::
      && a[i].invoked == b[i].invoked && a[i].returned == b[i].returned
      && a[i].command.client == b[i].command.client && a[i].command.req == b[i].command.req
  }

  // ---- clean cuts are sound ---------------------------------------------------

  // Every linearization places the kept operations first.
  lemma KeptFirst(history: seq<Row>, sorted: seq<nat>, k: nat, order: seq<nat>)
    requires Operations(history, sorted) && k <= |sorted| && Clean(history, sorted, k)
    requires LinearizationOf(history, sorted, order)
    ensures k <= |order| && forall q: nat :: q in order[..k] <==> q in sorted[..k]
  {
    var kept, cut := sorted[..k], sorted[k..];
    assert sorted == kept + cut;
    O.DistinctSame(order, sorted);
    forall i, j | 0 <= i < j < |order| && order[i] in cut
      ensures order[j] !in kept
    {
      KeptPrecedes(history, sorted, k, order[j], order[i]);
    }
    PrefixByCount(order, kept, cut);
  }

  lemma KeptPrecedes(history: seq<Row>, sorted: seq<nat>, k: nat, x: nat, y: nat)
    requires Indices(history, sorted) && k <= |sorted| && Clean(history, sorted, k) && x < |history| && y < |history|
    ensures x in sorted[..k] && y in sorted[k..] ==> Precedes(history[x], history[y])
  {
    if x in sorted[..k] && y in sorted[k..] {
      var a :| 0 <= a < k && sorted[..k][a] == x;
      var b :| 0 <= b < |sorted[k..]| && sorted[k..][b] == y;
      assert sorted[a] == x && sorted[k + b] == y;
    }
  }

  // A list in which no member of `cut` comes before a member of `kept`.
  lemma {:induction false} PrefixByCount(order: seq<nat>, kept: seq<nat>, cut: seq<nat>)
    requires Distinct(order) && Distinct(kept + cut)
    requires forall q: nat :: q in order <==> q in kept || q in cut
    requires forall i, j | 0 <= i < j < |order| && order[i] in cut :: order[j] !in kept
    ensures |kept| <= |order| && forall q: nat :: q in order[..|kept|] <==> q in kept
  {
    var d := Boundary(order, cut);
    forall q: nat
      ensures q in order[..d] <==> q in kept
    {
      Apart(kept, cut, q);
      if q in kept {
        var i :| 0 <= i < |order| && order[i] == q;
        BelowBoundary(order, kept, cut, d, i);
        assert order[..d][i] == q;
      }
    }
    assert Distinct(kept) by {
      assert forall i | 0 <= i < |kept| :: kept[i] == (kept + cut)[i];
    }
    O.DistinctSame(order[..d], kept);
  }

  lemma BelowBoundary(order: seq<nat>, kept: seq<nat>, cut: seq<nat>, d: nat, i: nat)
    requires i < |order| && order[i] in kept && order[i] !in cut && (d < |order| ==> order[d] in cut)
    requires forall i, j | 0 <= i < j < |order| && order[i] in cut :: order[j] !in kept
    ensures i < d
  {
  }

  lemma Apart(kept: seq<nat>, cut: seq<nat>, q: nat)
    requires Distinct(kept + cut)
    ensures !(q in kept && q in cut)
  {
    forall i, j | 0 <= i < |kept| && 0 <= j < |cut|
      ensures kept[i] != cut[j]
    {
      assert (kept + cut)[i] == kept[i] && (kept + cut)[|kept| + j] == cut[j];
    }
  }

  // Where the first member of `cut` is.
  lemma {:induction false} Boundary(order: seq<nat>, cut: seq<nat>) returns (d: nat)
    ensures d <= |order| && forall i | 0 <= i < d :: order[i] !in cut
    ensures d < |order| ==> order[d] in cut
    decreases |order|
  {
    if order == [] || order[0] in cut {
      d := 0;
    } else {
      d := Boundary(order[1..], cut);
      forall i | 0 <= i < d + 1
        ensures order[i] !in cut
      {
        assert i > 0 ==> order[i] == order[1..][i - 1];
      }
      d := d + 1;
    }
  }

  lemma CutLinearization(history: seq<Row>, sorted: seq<nat>, k: nat, order: seq<nat>)
    requires Operations(history, sorted) && k <= |sorted| && Clean(history, sorted, k)
    requires LinearizationOf(history, sorted, order)
    ensures k <= |order| && LinearizationOf(history, sorted[..k], order[..k])
  {
    hide RunAll, Execute;
    KeptFirst(history, sorted, k, order);
    forall j | 0 <= j < k
      ensures history[order[..k][j]].observed == Execute(StoreAt(history, order[..k], j), history[order[..k][j]].command).1
    {
      assert Issued(history, order[..k])[..j] == Issued(history, order)[..j];
      assert history[order[j]].observed == Execute(StoreAt(history, order, j), history[order[j]].command).1;
    }
  }

  // ---- any other cut is not ---------------------------------------------------

  const WRITTEN := "v"

  // Row i reads what row j writes; all others read a key nobody writes.
  function Rewritten(history: seq<Row>, i: nat, j: nat): (r: seq<Row>)
    ensures |r| == |history|
  {
    seq(|history|, k requires 0 <= k < |history| => RewrittenRow(history[k], k, i, j))
  }

  function RewrittenRow(row: Row, k: nat, i: nat, j: nat): Row {
    var c := row.command;
    if k == i then row.(command := Command(c.client, c.req, Get, "x", "", ""), observed := WRITTEN)
    else if k == j then row.(command := Command(c.client, c.req, Put, "x", WRITTEN, ""), observed := "ok")
    else row.(command := Command(c.client, c.req, Get, "y", "", ""), observed := "")
  }

  predicate Writes(c: Command) {
    c.op == Put && c.key == "x" && c.value == WRITTEN
  }

  // The store of a log of reads and writes of one value to one key.
  lemma {:induction false} OneKeyStore(cmds: seq<Command>)
    requires forall k | 0 <= k < |cmds| :: cmds[k].op == Get || Writes(cmds[k])
    ensures RunAll(cmds) == if exists k :: 0 <= k < |cmds| && Writes(cmds[k]) then map["x" := WRITTEN] else map[]
  {
    if cmds != [] {
      var n := |cmds| - 1;
      OneKeyStore(cmds[..n]);
      if Writes(cmds[n]) {
        assert map["x" := WRITTEN]["x" := WRITTEN] == map["x" := WRITTEN];
      } else {
        assert cmds[n].op == Get;
        if k :| 0 <= k < |cmds| && Writes(cmds[k]) {
          assert cmds[..n][k] == cmds[k];
        }
      }
    }
  }

  // a moved to just after position j.
  function MovedAfter(s: seq<nat>, i: nat, j: nat): seq<nat>
    requires i < j < |s|
  {
    s[..i] + s[i + 1..j + 1] + [s[i]] + s[j + 1..]
  }

  // Position in the original list of what is at position p after the move.
  function Origin(i: nat, j: nat, p: nat): nat
    requires i < j
  {
    if p < i || p > j then p else if p == j then i else p + 1
  }

  lemma MovedAt(s: seq<nat>, i: nat, j: nat, p: nat)
    requires i < j < |s| && p < |s|
    ensures |MovedAfter(s, i, j)| == |s| && Origin(i, j, p) < |s| && MovedAfter(s, i, j)[p] == s[Origin(i, j, p)]
  {
  }

  lemma MovedOperations(history: seq<Row>, s: seq<nat>, i: nat, j: nat)
    requires Operations(history, s) && i < j < |s|
    ensures Operations(history, MovedAfter(s, i, j))
    ensures forall q: nat :: q in MovedAfter(s, i, j) <==> q in s
  {
    var m := MovedAfter(s, i, j);
    forall p | 0 <= p < |m|
      ensures m[p] < |history| && Completed(history[m[p]])
    {
      MovedAt(s, i, j, p);
    }
    forall p, q | 0 <= p < q < |m|
      ensures m[p] != m[q]
    {
      MovedAt(s, i, j, p);
      MovedAt(s, i, j, q);
    }
    forall q: nat
      ensures q in m <==> q in s
    {
      assert s == s[..i] + [s[i]] + s[i + 1..j + 1] + s[j + 1..];
    }
  }

  // Moving a later is fine with real time, because b was invoked before a returned.
  lemma MovedRealTime(history: seq<Row>, s: seq<nat>, i: nat, j: nat)
    requires Operations(history, s) && Ordered(history, s) && WellTimed(history) && i < j < |s|
    requires !Precedes(history[s[i]], history[s[j]])
    ensures Indices(history, MovedAfter(s, i, j)) && RealTime(history, MovedAfter(s, i, j))
  {
    var m := MovedAfter(s, i, j);
    MovedOperations(history, s, i, j);
    forall p, q | 0 <= p < q < |m|
      ensures !Precedes(history[m[q]], history[m[p]])
    {
      MovedAt(s, i, j, p);
      MovedAt(s, i, j, q);
      var x, y := Origin(i, j, p), Origin(i, j, q);
      if x < y {
        assert KeyLeq(history[s[x]], history[s[y]]);
      } else {
        assert x == j || KeyLeq(history[s[x]], history[s[j]]);
      }
    }
  }

  lemma RewrittenLegal(history: seq<Row>, s: seq<nat>, i: nat, j: nat)
    requires Operations(history, s) && i < j < |s|
    ensures var h2, m := Rewritten(history, s[i], s[j]), MovedAfter(s, i, j);
            Indices(h2, m) && Legal(h2, m)
  {
    var h2, m := Rewritten(history, s[i], s[j]), MovedAfter(s, i, j);
    MovedOperations(history, s, i, j);
    forall k | 0 <= k < |m|
      ensures h2[m[k]].observed == Execute(StoreAt(h2, m, k), h2[m[k]].command).1
    {
      var cmds := Issued(h2, m)[..k];
      OneKeyStore(cmds);
      MovedAt(s, i, j, k);
      MovedAt(s, i, j, j - 1);
      if k == j {
        assert Writes(cmds[j - 1]);
      }
    }
  }

  // The prefix holds the reader and not the writer, so nothing explains what it read.
  lemma ReaderStuck(history: seq<Row>, s: seq<nat>, k: nat, i: nat, j: nat, order: seq<nat>, p: nat)
    requires Operations(history, s) && i < k <= j < |s|
    requires Indices(history, order) && (forall q: nat :: q in order <==> q in s[..k])
    requires p < |order| && order[p] == s[i] && Distinct(order)
    ensures var h2 := Rewritten(history, s[i], s[j]);
            h2[order[p]].observed != Execute(StoreAt(h2, order, p), h2[order[p]].command).1
  {
    var h2 := Rewritten(history, s[i], s[j]);
    var cmds := Issued(h2, order)[..p];
    forall q | 0 <= q < p
      ensures cmds[q].op == Get
    {
      assert order[q] in order;
      assert order[q] in s[..k];
      assert s[j] !in s[..k];
    }
    OneKeyStore(cmds);
  }

  lemma PrefixIllegal(history: seq<Row>, s: seq<nat>, k: nat, i: nat, j: nat)
    requires Operations(history, s) && i < k <= j < |s|
    ensures !LinearizableOf(Rewritten(history, s[i], s[j]), s[..k])
  {
    forall order: seq<nat>
      ensures !LinearizationOf(Rewritten(history, s[i], s[j]), s[..k], order)
    {
      if Indices(history, order) && Distinct(order) && (forall q: nat :: q in order <==> q in s[..k]) {
        assert s[..k][i] == s[i];
        assert s[i] in order;
        var p :| 0 <= p < |order| && order[p] == s[i];
        ReaderStuck(history, s, k, i, j, order, p);
      }
    }
  }

  // ---- the sort only looks at the shape ---------------------------------------

  lemma {:induction false} SameCompleted(a: seq<Row>, b: seq<Row>)
    requires SameShape(a, b)
    ensures CompletedOps(a) == CompletedOps(b)
  {
    if a != [] {
      SameCompleted(a[..|a| - 1], b[..|b| - 1]);
    }
  }

  lemma {:induction false} SameInsert(a: seq<Row>, b: seq<Row>, sorted: seq<nat>, i: nat)
    requires SameShape(a, b) && i < |a| && Indices(a, sorted)
    ensures Insert(a, sorted, i) == Insert(b, sorted, i)
  {
    if sorted != [] && !KeyLeq(a[sorted[|sorted| - 1]], a[i]) {
      SameInsert(a, b, sorted[..|sorted| - 1], i);
    }
  }

  lemma {:induction false} SameSort(a: seq<Row>, b: seq<Row>, ops: seq<nat>)
    requires SameShape(a, b) && Indices(a, ops)
    ensures Sort(a, ops) == Sort(b, ops)
  {
    if ops != [] {
      var n := |ops| - 1;
      SameSort(a, b, ops[..n]);
      SameInsert(a, b, Sort(a, ops[..n]), ops[n]);
    }
  }

  lemma SameSorted(a: seq<Row>, b: seq<Row>)
    requires SameShape(a, b)
    ensures SortedOps(a) == SortedOps(b)
  {
    SameCompleted(a, b);
    SortedEnumerates(a);
    SameSort(a, b, CompletedOps(a));
  }

  // ---- exactly when a cut proves something ------------------------------------

  ghost predicate CutSound(history: seq<Row>, k: nat) {
    Linearizable(history) ==> LinearizableOf(history, Kept(history, Some(k)))
  }

  lemma CleanCutSound(history: seq<Row>, k: nat)
    requires k <= |SortedOps(history)|
    requires Operations(history, SortedOps(history)) && Clean(history, SortedOps(history), k)
    ensures CutSound(history, k)
  {
    hide Legal, RealTime;
    if Linearizable(history) {
      var order :| Linearization(history, order);
      WholeHistory(history, order);
      CutLinearization(history, SortedOps(history), k, order);
    }
  }

  lemma WitnessedLinearizable(history: seq<Row>, order: seq<nat>)
    requires Linearization(history, order)
    ensures Linearizable(history)
  {
  }

  lemma RewrittenShape(history: seq<Row>, i: nat, j: nat)
    requires WellTimed(history)
    ensures SameShape(history, Rewritten(history, i, j)) && WellTimed(Rewritten(history, i, j))
  {
  }

  lemma UncleanCutUnsound(history: seq<Row>, k: nat, i: nat, j: nat) returns (h2: seq<Row>)
    requires WellTimed(history) && Operations(history, SortedOps(history))
    requires i < k <= j < |SortedOps(history)|
    requires !Precedes(history[SortedOps(history)[i]], history[SortedOps(history)[j]])
    ensures SameShape(history, h2) && !CutSound(h2, k)
  {
    hide Legal, RealTime, CompletedOps, Rewritten, MovedAfter, Linearization, LinearizationOf, LinearizableOf, Linearizable, Sort;
    var s := SortedOps(history);
    h2 := Rewritten(history, s[i], s[j]);
    RewrittenShape(history, s[i], s[j]);
    SameSorted(history, h2);
    SortedEnumerates(history);
    RewrittenLinearization(history, s, i, j);
    WholeHistory(h2, MovedAfter(s, i, j));
    WitnessedLinearizable(h2, MovedAfter(s, i, j));
    PrefixIllegal(history, s, k, i, j);
  }

  lemma RewrittenLinearization(history: seq<Row>, s: seq<nat>, i: nat, j: nat)
    requires WellTimed(history) && Operations(history, s) && Ordered(history, s)
    requires i < j < |s| && !Precedes(history[s[i]], history[s[j]])
    ensures LinearizationOf(Rewritten(history, s[i], s[j]), s, MovedAfter(s, i, j))
  {
    hide Legal, RealTime, Rewritten, MovedAfter, KeyLeq;
    var h2, m := Rewritten(history, s[i], s[j]), MovedAfter(s, i, j);
    RewrittenShape(history, s[i], s[j]);
    OrderedShape(history, h2, s);
    MovedOperations(h2, s, i, j);
    RewrittenLegal(history, s, i, j);
    MovedRealTime(h2, s, i, j);
  }

  lemma OrderedShape(a: seq<Row>, b: seq<Row>, s: seq<nat>)
    requires SameShape(a, b) && Operations(a, s) && Ordered(a, s)
    ensures Operations(b, s) && Ordered(b, s)
  {
    forall i, j | 0 <= i < j < |s|
      ensures KeyLeq(b[s[i]], b[s[j]])
    {
      assert KeyLeq(a[s[i]], a[s[j]]);
    }
  }

  // A cut can be trusted, whatever the clients did and saw at those moments, exactly when
  // it is clean.
  lemma CutSoundExactly(history: seq<Row>, k: nat)
    requires WellTimed(history) && k <= |SortedOps(history)|
    ensures Operations(history, SortedOps(history))
    ensures Clean(history, SortedOps(history), k) <==> forall h2 | SameShape(history, h2) :: CutSound(h2, k)
  {
    hide CutSound;
    SortedEnumerates(history);
    var s := SortedOps(history);
    if Clean(history, s, k) {
      forall h2 | SameShape(history, h2)
        ensures CutSound(h2, k)
      {
        SameSorted(history, h2);
        CleanCutSound(h2, k);
      }
    } else {
      var i, j :| 0 <= i < k <= j < |s| && !Precedes(history[s[i]], history[s[j]]);
      var h2 := UncleanCutUnsound(history, k, i, j);
    }
  }

  const READ := Row(Command(0, 0, Get, "k", "", ""), 0, Some(5), "v")
  const WRITE := Row(Command(1, 0, Put, "k", "v", ""), 1, Some(3), "ok")

  // The smallest case: a read and the concurrent, later-invoked write it observed.
  lemma CutExample()
    ensures Linearization([READ, WRITE], [1, 0])
    ensures Kept([READ, WRITE], Some(1)) == [0] && !LinearizableOf([READ, WRITE], Kept([READ, WRITE], Some(1)))
  {
    ExampleLinear();
    ExampleKept();
    ExampleCut();
  }

  lemma ExampleLinear()
    ensures Linearization([READ, WRITE], [1, 0])
  {
    var history := [READ, WRITE];
    assert Issued(history, [1, 0])[..0] == [] && Issued(history, [1, 0])[..1] == [WRITE.command];
    assert [WRITE.command][..0] == [];
  }

  lemma ExampleKept()
    ensures Kept([READ, WRITE], Some(1)) == [0]
  {
    var history := [READ, WRITE];
    assert history[..1] == [READ] && [READ][..0] == [];
    assert CompletedOps([READ]) == [0] && CompletedOps(history) == [0, 1];
    assert [0, 1][..1] == [0] && [0][..0] == [];
    assert Sort(history, [0]) == [0];
    assert Insert(history, [0], 1) == [0, 1];
  }

  lemma ExampleCut()
    ensures !LinearizableOf([READ, WRITE], [0])
  {
    var kept: seq<nat> := [0];
    var history := [READ, WRITE];
    forall order: seq<nat>
      ensures !LinearizationOf(history, kept, order)
    {
      OnlyZero(kept, order);
      if order == kept {
        assert StoreAt(history, order, 0) == map[];
      }
    }
  }

  lemma OnlyZero(kept: seq<nat>, order: seq<nat>)
    requires kept == [0]
    ensures Distinct(order) && (forall q: nat :: q in order <==> q in kept) ==> order == kept
  {
    if Distinct(order) && forall q: nat :: q in order <==> q in kept {
      assert kept[0] in order;
      forall k | 0 <= k < |order|
        ensures order[k] == 0
      {
        assert order[k] in order;
      }
      O.DistinctSame(order, kept);
    }
  }
}
