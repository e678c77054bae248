// The oracle's entry point: keep the completed operations of a client history, sort them,
// optionally cut to the earliest few, search, and report in terms of the history.
module OracleCheck {
  import opened Prelude
  import opened KvStore
  import opened Histories
  import O = Oracle

  // ---- which operations, in which order ---------------------------------------

  function CompletedOps(history: seq<Row>): (r: seq<nat>)
    ensures Distinct(r) && forall q: nat :: q in r <==> q < |history| && Completed(history[q])
  {
    if history == [] then []
    else
      var n := |history| - 1;
      var before := CompletedOps(history[..n]);
      assert forall q: nat :: q in before ==> q < n;
      assert forall q: nat :: q in before + [n] <==> q in before || q == n;
      assert forall k | 0 <= k < |before| :: before[k] in before;
      if Completed(history[n]) then before + [n] else before
  }

  // (invoke step, return step, client, request), compared lexicographically.
  predicate KeyLeq(a: Row, b: Row) {
    var x, y := if a.returned.Some? then a.returned.value else 0, if b.returned.Some? then b.returned.value else 0;
    a.invoked < b.invoked || (a.invoked == b.invoked &&
    (x < y || (x == y &&
    (a.command.client < b.command.client || (a.command.client == b.command.client &&
    a.command.req <= b.command.req)))))
  }

  // A stable sort, one operation at a time.
  function Insert(history: seq<Row>, sorted: seq<nat>, i: nat): (r: seq<nat>)
    requires i < |history| && Indices(history, sorted)
    ensures |r| == |sorted| + 1 && Indices(history, r)
  {
    if sorted == [] || KeyLeq(history[sorted[|sorted| - 1]], history[i]) then sorted + [i]
    else Insert(history, sorted[..|sorted| - 1], i) + [sorted[|sorted| - 1]]
  }

  function Sort(history: seq<Row>, ops: seq<nat>): (r: seq<nat>)
    requires Indices(history, ops)
    ensures |r| == |ops| && Indices(history, r)
  {
    if ops == [] then [] else Insert(history, Sort(history, ops[..|ops| - 1]), ops[|ops| - 1])
  }

  ghost predicate Ordered(history: seq<Row>, s: seq<nat>)
    requires Indices(history, s)
  {
    forall i, j | 0 <= i < j < |s| :: KeyLeq(history[s[i]], history[s[j]])
  }

  lemma {:induction false} InsertKeeps(history: seq<Row>, sorted: seq<nat>, i: nat)
    requires i < |history| && Indices(history, sorted)
    ensures multiset(Insert(history, sorted, i)) == multiset(sorted) + multiset{i}
    decreases |sorted|
  {
    hide KeyLeq;
    if sorted != [] && !KeyLeq(history[sorted[|sorted| - 1]], history[i]) {
      var n := |sorted| - 1;
      InsertKeeps(history, sorted[..n], i);
      assert sorted == sorted[..n] + [sorted[n]];
    }
  }

  // Whatever is inserted or already there comes from the one or the other.
  lemma InsertFrom(history: seq<Row>, sorted: seq<nat>, i: nat, k: nat)
    requires i < |history| && Indices(history, sorted) && k <= |sorted|
    ensures Insert(history, sorted, i)[k] == i || exists j :: 0 <= j < |sorted| && sorted[j] == Insert(history, sorted, i)[k]
  {
    var r := Insert(history, sorted, i);
    InsertKeeps(history, sorted, i);
    assert r[k] in multiset(r);
    assert r[k] in multiset(sorted) ==> r[k] in sorted;
  }

  lemma {:induction false} InsertSorts(history: seq<Row>, sorted: seq<nat>, i: nat)
    requires i < |history| && Indices(history, sorted) && Ordered(history, sorted)
    ensures Ordered(history, Insert(history, sorted, i))
    decreases |sorted|
  {
    hide KeyLeq;
    var n := |sorted| - 1;
    if sorted == [] || KeyLeq(history[sorted[n]], history[i]) {
      InsertLast(history, sorted, i);
    } else {
      var inner := Insert(history, sorted[..n], i);
      InsertSorts(history, sorted[..n], i);
      KeyTotal(history[sorted[n]], history[i]);
      forall k | 0 <= k < |inner|
        ensures KeyLeq(history[inner[k]], history[sorted[n]])
      {
        InsertFrom(history, sorted[..n], i, k);
      }
    }
  }

  lemma InsertLast(history: seq<Row>, sorted: seq<nat>, i: nat)
    requires i < |history| && Indices(history, sorted) && Ordered(history, sorted)
    requires sorted == [] || KeyLeq(history[sorted[|sorted| - 1]], history[i])
    ensures Ordered(history, sorted + [i])
  {
    hide KeyLeq;
    forall k | 0 <= k < |sorted|
      ensures KeyLeq(history[sorted[k]], history[i])
    {
      KeyTransitive(history[sorted[k]], history[sorted[|sorted| - 1]], history[i]);
    }
  }

  lemma KeyTotal(a: Row, b: Row)
    ensures KeyLeq(a, b) || KeyLeq(b, a)
  {
  }

  lemma KeyTransitive(a: Row, b: Row, c: Row)
    ensures KeyLeq(a, b) && KeyLeq(b, c) ==> KeyLeq(a, c)
    ensures KeyLeq(a, a)
  {
  }

  lemma {:induction false} SortSorts(history: seq<Row>, ops: seq<nat>)
    requires Indices(history, ops)
    ensures Ordered(history, Sort(history, ops)) && multiset(Sort(history, ops)) == multiset(ops)
  {
    if ops != [] {
      var n := |ops| - 1;
      SortSorts(history, ops[..n]);
      assert ops == ops[..n] + [ops[n]];
      InsertSorts(history, Sort(history, ops[..n]), ops[n]);
      InsertKeeps(history, Sort(history, ops[..n]), ops[n]);
    }
  }

  lemma SameElements(a: seq<nat>, b: seq<nat>)
    requires multiset(a) == multiset(b) && Distinct(a)
    ensures Distinct(b) && forall q: nat :: q in b <==> q in a
  {
    forall i, j | 0 <= i < j < |b|
      ensures b[i] != b[j]
    {
      if b[i] == b[j] {
        assert b == b[..i] + [b[i]] + b[i + 1..j] + [b[j]] + b[j + 1..];
        assert multiset(a)[b[i]] >= 2;
        DistinctOnce(a, b[i]);
      }
    }
    forall q: nat
      ensures q in b <==> q in a
    {
      assert q in b <==> q in multiset(b);
    }
  }

  lemma {:induction false} DistinctOnce(s: seq<nat>, q: nat)
    requires Distinct(s)
    ensures multiset(s)[q] <= 1
    decreases |s|
  {
    if s != [] {
      var n := |s| - 1;
      assert s == s[..n] + [s[n]];
      DistinctOnce(s[..n], q);
      assert s[n] !in s[..n];
      assert s[n] !in multiset(s[..n]);
    }
  }

  // ---- which operations a check is about --------------------------------------

  function SortedOps(history: seq<Row>): (r: seq<nat>) {
    SortedEnumerates(history);
    Sort(history, CompletedOps(history))
  }

  // All completed operations in sorted order, or only the earliest maxOps of them.
  function Kept(history: seq<Row>, maxOps: Option<nat>): seq<nat> {
    if maxOps.None? then SortedOps(history) else Take(SortedOps(history), maxOps.value)
  }

  // A linearization of just these operations of the history.
  ghost predicate LinearizationOf(history: seq<Row>, kept: seq<nat>, order: seq<nat>) {
    && Indices(history, order) && Distinct(order)
    && (forall q: nat :: q in order <==> q in kept)
    && RealTime(history, order) && Legal(history, order)
  }

  ghost predicate LinearizableOf(history: seq<Row>, kept: seq<nat>) {
    exists order :: LinearizationOf(history, kept, order)
  }

  ghost predicate Operations(history: seq<Row>, kept: seq<nat>) {
    && Indices(history, kept) && Distinct(kept)
    && forall k | 0 <= k < |kept| :: Completed(history[kept[k]])
  }

  lemma SortedEnumerates(history: seq<Row>)
    ensures Indices(history, CompletedOps(history))
    ensures Operations(history, Sort(history, CompletedOps(history)))
    ensures forall q: nat :: q in Sort(history, CompletedOps(history)) <==> q < |history| && Completed(history[q])
    ensures Ordered(history, Sort(history, CompletedOps(history)))
  {
    var ops := CompletedOps(history);
    forall k | 0 <= k < |ops|
      ensures ops[k] < |history|
    {
      assert ops[k] in ops;
    }
    SortSorts(history, ops);
    var sorted := Sort(history, ops);
    SameElements(ops, sorted);
    forall k | 0 <= k < |sorted|
      ensures Completed(history[sorted[k]])
    {
      assert sorted[k] in sorted;
    }
  }

  lemma KeptOperations(history: seq<Row>, maxOps: Option<nat>)
    ensures Operations(history, Kept(history, maxOps))
  {
    SortedEnumerates(history);
  }

  // Without a cut this is linearizability of the history.
  lemma WholeHistory(history: seq<Row>, order: seq<nat>)
    ensures LinearizationOf(history, SortedOps(history), order) <==> Linearization(history, order)
    ensures LinearizableOf(history, SortedOps(history)) <==> Linearizable(history)
  {
    hide Legal, RealTime;
    SortedEnumerates(history);
    forall o
      ensures LinearizationOf(history, SortedOps(history), o) <==> Linearization(history, o)
    {
      WholeOrder(history, o);
    }
  }

  lemma WholeOrder(history: seq<Row>, order: seq<nat>)
    ensures LinearizationOf(history, SortedOps(history), order) <==> Linearization(history, order)
  {
    hide Legal, RealTime;
    SortedEnumerates(history);
    var sorted := SortedOps(history);
    if LinearizationOf(history, sorted, order) {
      forall k | 0 <= k < |order|
        ensures Completed(history[order[k]])
      {
        assert order[k] in sorted;
      }
    }
    if Linearization(history, order) {
      forall q: nat
        ensures q in order <==> q in sorted
      {
      }
    }
  }

  // ---- the search works on a list of rows -------------------------------------

  function Rows(history: seq<Row>, perm: seq<nat>): (r: seq<Row>)
    requires Indices(history, perm)
    ensures |r| == |perm| && forall k | 0 <= k < |perm| :: r[k] == history[perm[k]]
  {
    seq(|perm|, k requires 0 <= k < |perm| => history[perm[k]])
  }

  function Through(perm: seq<nat>, s: seq<nat>): (r: seq<nat>)
    requires forall k | 0 <= k < |s| :: s[k] < |perm|
    ensures |r| == |s| && forall k | 0 <= k < |s| :: r[k] == perm[s[k]]
  {
    seq(|s|, k requires 0 <= k < |s| => perm[s[k]])
  }

  lemma LegalThrough(history: seq<Row>, perm: seq<nat>, s: seq<nat>)
    requires Indices(history, perm) && Indices(Rows(history, perm), s)
    ensures Indices(history, Through(perm, s))
    ensures Legal(Rows(history, perm), s) <==> Legal(history, Through(perm, s))
  {
    hide RunAll, Execute;
    var rows, order := Rows(history, perm), Through(perm, s);
    assert Issued(rows, s) == Issued(history, order);
    forall k | 0 <= k < |s|
      ensures rows[s[k]] == history[order[k]] && StoreAt(rows, s, k) == StoreAt(history, order, k)
    {
    }
    if Legal(history, order) {
      forall k | 0 <= k < |s|
        ensures rows[s[k]].observed == Execute(StoreAt(rows, s, k), rows[s[k]].command).1
      {
        assert history[order[k]].observed == Execute(StoreAt(history, order, k), history[order[k]].command).1;
      }
    }
  }

  lemma RealTimeThrough(history: seq<Row>, perm: seq<nat>, s: seq<nat>)
    requires Indices(history, perm) && Indices(Rows(history, perm), s)
    ensures Indices(history, Through(perm, s))
    ensures RealTime(Rows(history, perm), s) <==> RealTime(history, Through(perm, s))
  {
    var rows, order := Rows(history, perm), Through(perm, s);
    forall i, j | 0 <= i < j < |s|
      ensures Precedes(rows[s[j]], rows[s[i]]) <==> Precedes(history[order[j]], history[order[i]])
    {
    }
    if RealTime(history, order) {
      forall i, j | 0 <= i < j < |s|
        ensures !Precedes(rows[s[j]], rows[s[i]])
      {
        assert !Precedes(history[order[j]], history[order[i]]);
      }
    }
  }

  lemma CoversThrough(history: seq<Row>, perm: seq<nat>, s: seq<nat>)
    requires Operations(history, perm) && Indices(Rows(history, perm), s)
    ensures Covers(Rows(history, perm), s)
            <==> Distinct(Through(perm, s)) && forall q: nat :: q in Through(perm, s) <==> q in perm
  {
    var rows, order := Rows(history, perm), Through(perm, s);
    if Covers(rows, s) {
      forall q: nat
        ensures q in order <==> q in perm
      {
        if q in perm {
          var k :| 0 <= k < |perm| && perm[k] == q;
          assert Completed(rows[k]) && k in s;
          var j :| 0 <= j < |s| && s[j] == k;
          assert order[j] == q;
        }
      }
    }
    if Distinct(order) && forall q: nat :: q in order <==> q in perm {
      forall k | 0 <= k < |rows|
        ensures k in s
      {
        assert perm[k] in perm;
        assert perm[k] in order;
        var j :| 0 <= j < |order| && order[j] == perm[k];
        assert s[j] == k;
      }
      forall i, j | 0 <= i < j < |s|
        ensures s[i] != s[j]
      {
        assert order[i] != order[j];
      }
    }
  }

  lemma LinearizationThrough(history: seq<Row>, perm: seq<nat>, s: seq<nat>)
    requires Operations(history, perm) && Indices(Rows(history, perm), s)
    ensures Linearization(Rows(history, perm), s) <==> LinearizationOf(history, perm, Through(perm, s))
  {
    hide Legal, RealTime, Covers;
    LegalThrough(history, perm, s);
    RealTimeThrough(history, perm, s);
    CoversThrough(history, perm, s);
  }

  // Every order of completed rows is some order of the permutation.
  lemma {:induction false} Backward(perm: seq<nat>, order: seq<nat>) returns (s: seq<nat>)
    requires forall k | 0 <= k < |order| :: order[k] in perm
    ensures |s| == |order| && forall k | 0 <= k < |s| :: s[k] < |perm|
    ensures Through(perm, s) == order
    decreases |order|
  {
    if order == [] {
      s := [];
    } else {
      var n := |order| - 1;
      forall k | 0 <= k < n
        ensures order[..n][k] in perm
      {
        assert order[..n][k] == order[k];
      }
      s := Backward(perm, order[..n]);
      var j :| 0 <= j < |perm| && perm[j] == order[n];
      s := s + [j];
    }
  }

  lemma SameVerdict(history: seq<Row>, perm: seq<nat>)
    requires Operations(history, perm)
    ensures Linearizable(Rows(history, perm)) <==> LinearizableOf(history, perm)
  {
    hide Legal, RealTime;
    if Linearizable(Rows(history, perm)) {
      var s :| Linearization(Rows(history, perm), s);
      LinearizationThrough(history, perm, s);
    }
    if LinearizableOf(history, perm) {
      var order :| LinearizationOf(history, perm, order);
      forall k | 0 <= k < |order|
        ensures order[k] in perm
      {
        assert order[k] in order;
      }
      var s := Backward(perm, order);
      LinearizationThrough(history, perm, s);
    }
  }

  // ---- the check --------------------------------------------------------------

  // linearization and stuck list positions in the history; both are None when the budget
  // ran out.
  datatype CheckResult = CheckResult(
    linearizable: bool, linearization: Option<seq<nat>>, stuck: Option<seq<nat>>, checkedOps: nat)

  // out lists the operations not placed, in order, eight at most.
  ghost predicate Unplaced(n: nat, placed: seq<nat>, out: seq<nat>) {
    && |out| <= 8
    && (forall j, k | 0 <= j < k < |out| :: out[j] < out[k])
    && (forall k | 0 <= k < |out| :: out[k] < n && out[k] !in placed)
    && (forall q: nat | q < n && q !in placed :: q in out || (|out| == 8 && out[7] < q))
  }

  // The frontier: what a longest legal order of some of the operations, with nothing outside
  // it forced before any of them, left out.
  ghost predicate StuckAt(history: seq<Row>, kept: seq<nat>, stuck: seq<nat>) {
    && Indices(history, kept)
    && exists deepest, out ::
         && O.Deepest(Rows(history, kept), deepest) && Unplaced(|kept|, deepest, out) && out != []
         && stuck == Through(kept, out)
  }

  method Frontier(n: nat, placed: seq<nat>) returns (out: seq<nat>)
    requires Distinct(placed) && |placed| < n && forall k | 0 <= k < |placed| :: placed[k] < n
    ensures Unplaced(n, placed, out) && out != []
  {
    var all: seq<nat> := [];
    for i := 0 to n
      invariant forall k | 0 <= k < |all| :: all[k] < i && all[k] !in placed
      invariant forall q: nat | q < i && q !in placed :: q in all
      invariant forall j, k | 0 <= j < k < |all| :: all[j] < all[k]
    {
      if i !in placed {
        assert forall q: nat :: q in all + [i] <==> q in all || q == i;
        all := all + [i];
      }
    }
    SomeUnplaced(placed, n);
    FirstEight(n, placed, all);
    out := if |all| <= 8 then all else all[..8];
  }

  lemma SomeUnplaced(placed: seq<nat>, n: nat)
    requires Distinct(placed) && |placed| < n
    ensures exists q: nat :: q < n && q !in placed
  {
    if forall q: nat | q < n :: q in placed {
      CardinalityOfSubset(O.Naturals(n), O.Elements(placed));
    }
  }

  lemma FirstEight(n: nat, placed: seq<nat>, all: seq<nat>)
    requires forall k | 0 <= k < |all| :: all[k] < n && all[k] !in placed
    requires forall q: nat | q < n && q !in placed :: q in all
    requires forall j, k | 0 <= j < k < |all| :: all[j] < all[k]
    ensures Unplaced(n, placed, if |all| <= 8 then all else all[..8])
  {
    if |all| > 8 {
      forall q: nat | q < n && q !in placed
        ensures q in all[..8] || all[..8][7] < q
      {
        var k :| 0 <= k < |all| && all[k] == q;
        if k < 8 {
          assert all[..8][k] == q;
        }
      }
    }
  }

  // Yes comes with a linearization of the operations checked, no with a frontier means
  // there is none, and a bare no only ever means the budget ran out.
  method Check(history: seq<Row>, maxOps: Option<nat>, budget: nat) returns (r: CheckResult)
    ensures r.checkedOps == |Kept(history, maxOps)|
    ensures r.linearizable ==> r.linearization.Some? && LinearizationOf(history, Kept(history, maxOps), r.linearization.value)
    ensures r.stuck.Some? ==> !r.linearizable && !LinearizableOf(history, Kept(history, maxOps))
    ensures r.stuck.Some? ==> StuckAt(history, Kept(history, maxOps), r.stuck.value)
    ensures !r.linearizable && r.stuck.None? ==> O.BudgetSpent(Rows(history, Kept(history, maxOps)), budget)
    ensures maxOps.None? && r.linearizable ==> Linearization(history, r.linearization.value)
    ensures maxOps.None? && r.stuck.Some? ==> !Linearizable(history)
  {
    hide Linearization, Linearizable, LinearizationOf, LinearizableOf, O.Deepest, O.BudgetSpent, Kept, Rows, Through, Unplaced;
    var perm := Kept(history, maxOps);
    KeptOperations(history, maxOps);
    r := CheckOps(history, perm, budget);
    SameVerdict(history, perm);
    if r.linearizable {
      var s := r.linearization.value;
      Opened(Rows(history, perm), s);
      LinearizationThrough(history, perm, s);
      r := r.(linearization := Some(Through(perm, s)));
    } else if r.stuck.Some? {
      r := r.(stuck := Some(Through(perm, r.stuck.value)));
    }
    WholeCheck(history, maxOps, if r.linearizable then r.linearization.value else []);
  }

  lemma WholeCheck(history: seq<Row>, maxOps: Option<nat>, order: seq<nat>)
    ensures maxOps.None? ==> (LinearizationOf(history, Kept(history, maxOps), order) <==> Linearization(history, order))
    ensures maxOps.None? ==> (LinearizableOf(history, Kept(history, maxOps)) <==> Linearizable(history))
  {
    WholeHistory(history, order);
  }

  lemma Opened(rows: seq<Row>, s: seq<nat>)
    requires Linearization(rows, s)
    ensures Indices(rows, s)
  {
  }

  // The search over given operations, reported by their positions in perm.
  method CheckOps(history: seq<Row>, perm: seq<nat>, budget: nat) returns (r: CheckResult)
    requires Operations(history, perm)
    ensures r.checkedOps == |perm|
    ensures r.linearizable ==> r.stuck.None? && r.linearization.Some? && Linearization(Rows(history, perm), r.linearization.value)
    ensures !r.linearizable && r.stuck.Some? ==> !Linearizable(Rows(history, perm))
    ensures r.stuck.Some? ==> forall k | 0 <= k < |r.stuck.value| :: r.stuck.value[k] < |perm|
    ensures r.stuck.Some? ==> exists deepest :: O.Deepest(Rows(history, perm), deepest) && Unplaced(|perm|, deepest, r.stuck.value) && r.stuck.value != []
    ensures r.stuck.Some? ==> !r.linearizable
    ensures !r.linearizable && r.stuck.None? ==> O.BudgetSpent(Rows(history, perm), budget)
  {
    hide Linearization, Linearizable;
    var ops := Rows(history, perm);
    if |ops| == 0 {
      EmptyHistory(ops);
      return CheckResult(true, Some([]), None, 0);
    }
    var verdict := O.Search(ops, budget);
    match verdict
    case Linear(order) =>
      return CheckResult(true, Some(order), None, |ops|);
    case NotLinear(deepest) =>
      var frontier := Frontier(|ops|, deepest);
      return CheckResult(false, None, Some(frontier), |ops|);
    case Undetermined =>
      return CheckResult(false, None, None, |ops|);
  }

  lemma EmptyHistory(rows: seq<Row>)
    requires rows == []
    ensures Linearization(rows, [])
  {
  }
}
