// Counterexample shrinking: delta debugging over the fault ordinals, then a binary search
// over the step budget, against an arbitrary (deterministic, possibly non-monotone) notion
// of what still fails.
module Shrink {
  import opened Prelude
  import opened Histories

  // ---- lists ------------------------------------------------------------------

  // The members of s that are in `keep`, in the order of s.
  function Only(s: seq<int>, keep: seq<int>): (r: seq<int>)
    ensures forall e: int :: e in r <==> e in s && e in keep
    ensures |r| <= |s|
  {
    if s == [] then []
    else
      assert s == [s[0]] + s[1..];
      if s[0] in keep then [s[0]] + Only(s[1..], keep) else Only(s[1..], keep)
  }

  function Without(s: seq<int>, drop: seq<int>): (r: seq<int>)
    ensures forall e: int :: e in r <==> e in s && e !in drop
    ensures |r| <= |s|
    ensures (exists e :: e in s && e in drop) ==> |r| < |s|
  {
    if s == [] then []
    else
      assert s == [s[0]] + s[1..];
      if s[0] in drop then Without(s[1..], drop) else [s[0]] + Without(s[1..], drop)
  }

  lemma OnlyCons(s: seq<int>, keep: seq<int>)
    requires s != []
    ensures Only(s, keep) == if s[0] in keep then [s[0]] + Only(s[1..], keep) else Only(s[1..], keep)
  {
  }

  lemma WithoutCons(s: seq<int>, drop: seq<int>)
    requires s != []
    ensures Without(s, drop) == if s[0] in drop then Without(s[1..], drop) else [s[0]] + Without(s[1..], drop)
  {
  }

  // kept[i : i + chunk] for i in steps of chunk.
  function Chunks(kept: seq<int>, chunk: nat): (r: seq<seq<int>>)
    requires chunk > 0
    ensures forall sub | sub in r :: sub != [] && forall e | e in sub :: e in kept
    decreases |kept|
  {
    if kept == [] then []
    else if |kept| <= chunk then [kept]
    else
      assert kept == kept[..chunk] + kept[chunk..];
      [kept[..chunk]] + Chunks(kept[chunk..], chunk)
  }

  lemma {:induction false} SingleChunks(kept: seq<int>)
    ensures |Chunks(kept, 1)| == |kept|
    ensures forall k | 0 <= k < |kept| :: Chunks(kept, 1)[k] == [kept[k]]
    decreases |kept|
  {
    if |kept| > 1 {
      SingleChunks(kept[1..]);
      assert kept[..1] == [kept[0]];
      assert Chunks(kept, 1) == [kept[..1]] + Chunks(kept[1..], 1);
      forall k | 0 <= k < |kept|
        ensures Chunks(kept, 1)[k] == [kept[k]]
      {
        assert k > 0 ==> Chunks(kept, 1)[k] == Chunks(kept[1..], 1)[k - 1];
      }
    } else if |kept| == 1 {
      assert Chunks(kept, 1) == [kept];
    }
  }

  // Filtering a filtered list is filtering the original.
  lemma {:induction false} OnlyWithout(s: seq<int>, keep: seq<int>, drop: seq<int>, left: seq<int>)
    requires forall k | 0 <= k < |s| :: s[k] in left <==> s[k] in keep && s[k] !in drop
    ensures Without(Only(s, keep), drop) == Only(s, left)
    decreases |s|
  {
    if s != [] {
      OnlyWithout(s[1..], keep, drop, left);
      OnlyCons(s, keep);
      OnlyCons(s, left);
      if s[0] in keep {
        var kept := Only(s, keep);
        assert kept[0] == s[0] && kept[1..] == Only(s[1..], keep);
        WithoutCons(kept, drop);
      }
    }
  }

  lemma {:induction false} OnlyAll(s: seq<int>, keep: seq<int>)
    requires forall k | 0 <= k < |s| :: s[k] in keep
    ensures Only(s, keep) == s
    decreases |s|
  {
    if s != [] {
      assert s == [s[0]] + s[1..];
      OnlyAll(s[1..], keep);
      OnlyCons(s, keep);
    }
  }

  // Dropping one value from a list without repetitions drops one place.
  lemma {:induction false} WithoutOne(s: seq<int>, k: nat)
    requires Distinct(s) && k < |s|
    ensures Without(s, [s[k]]) == s[..k] + s[k + 1..]
    decreases |s|
  {
    WithoutCons(s, [s[k]]);
    if k == 0 {
      WithoutNone(s[1..], [s[0]]);
    } else {
      WithoutOne(s[1..], k - 1);
      assert [s[0]] + (s[1..][..k - 1] + s[1..][k..]) == s[..k] + s[k + 1..];
    }
  }

  lemma {:induction false} WithoutNone(s: seq<int>, drop: seq<int>)
    requires forall k | 0 <= k < |s| :: s[k] !in drop
    ensures Without(s, drop) == s
    decreases |s|
  {
    if s != [] {
      assert s == [s[0]] + s[1..];
      WithoutNone(s[1..], drop);
      WithoutCons(s, drop);
    }
  }

  // ---- delta debugging --------------------------------------------------------

  // No single element can be left out.
  ghost predicate OneMinimal(kept: seq<int>, reproduces: seq<int> -> bool) {
    forall k | 0 <= k < |kept| :: !reproduces(kept[..k] + kept[k + 1..])
  }

  // Leaving this chunk out keeps something, and it still reproduces.
  predicate Reduces(kept: seq<int>, sub: seq<int>, reproduces: seq<int> -> bool) {
    Without(kept, sub) != [] && reproduces(Without(kept, sub))
  }

  // One pass over the chunks: the first complement that still reproduces, if any.
  method FirstReproducing(kept: seq<int>, chunk: nat, reproduces: seq<int> -> bool) returns (found: Option<seq<int>>)
    requires chunk > 0
    ensures found.Some? ==> exists i ::
              && 0 <= i < |Chunks(kept, chunk)| && found.value == Without(kept, Chunks(kept, chunk)[i])
              && Reduces(kept, Chunks(kept, chunk)[i], reproduces)
              && forall k | 0 <= k < i :: !Reduces(kept, Chunks(kept, chunk)[k], reproduces)
    ensures found.Some? ==> |found.value| < |kept|
    ensures found.None? ==> forall sub | sub in Chunks(kept, chunk) :: !Reduces(kept, sub, reproduces)
  {
    var subsets := Chunks(kept, chunk);
    for i := 0 to |subsets|
      invariant forall k | 0 <= k < i :: !Reduces(kept, subsets[k], reproduces)
    {
      var complement := Without(kept, subsets[i]);
      if complement != [] && reproduces(complement) {
        assert subsets[i] in subsets && subsets[i][0] in subsets[i];
        assert Reduces(kept, subsets[i], reproduces);
        return Some(complement);
      }
    }
    return None;
  }

  lemma ExitMinimal(kept: seq<int>, reproduces: seq<int> -> bool)
    requires Distinct(kept) && |kept| >= 2
    requires forall sub | sub in Chunks(kept, 1) :: !Reduces(kept, sub, reproduces)
    ensures OneMinimal(kept, reproduces)
  {
    SingleChunks(kept);
    forall k | 0 <= k < |kept|
      ensures !reproduces(kept[..k] + kept[k + 1..])
    {
      WithoutOne(kept, k);
      assert Chunks(kept, 1)[k] in Chunks(kept, 1);
    }
  }

  lemma {:induction false} OnlyDistinct(s: seq<int>, keep: seq<int>)
    requires Distinct(s)
    ensures Distinct(Only(s, keep))
    decreases |s|
  {
    if s != [] {
      assert s == [s[0]] + s[1..];
      OnlyDistinct(s[1..], keep);
      assert s[0] !in s[1..];
      var rest := Only(s[1..], keep);
      forall i, j | 0 <= i < j < |[s[0]] + rest|
        ensures ([s[0]] + rest)[i] != ([s[0]] + rest)[j]
      {
        assert ([s[0]] + rest)[j] == rest[j - 1] && rest[j - 1] in rest;
      }
    }
  }

  // Some complement of a chunk of the whole list reproduces, at one of the granularities
  // tried before anything is left out: n, 2n, 4n, ... chunks.
  predicate Reducible(elements: seq<int>, n: nat, reproduces: seq<int> -> bool)
    requires n >= 2
    decreases |elements| - n
  {
    |elements| >= 2 &&
    ((exists sub | sub in Chunks(elements, Max(1, |elements| / n)) :: Reduces(elements, sub, reproduces))
     || (n < |elements| && Reducible(elements, Min(|elements|, n * 2), reproduces)))
  }

  // A reproducing list is there to be found: the whole, nothing, or a first complement.
  predicate Reachable(elements: seq<int>, reproduces: seq<int> -> bool) {
    reproduces(elements) || reproduces([]) || Reducible(elements, 2, reproduces)
  }

  // What remains is part of the list, in its order, and without repetitions in the list it
  // is minimal: no single element can be left out. It reproduces exactly if a reproducing
  // list was there to be found, and only then can it be shorter than the list.
  method DDMin(elements: seq<int>, reproduces: seq<int> -> bool) returns (kept: seq<int>)
    ensures kept == Only(elements, kept)
    ensures Distinct(elements) ==> OneMinimal(kept, reproduces)
    ensures reproduces(kept) <==> Reachable(elements, reproduces)
    ensures kept != elements ==> reproduces(kept)
    ensures reproduces([]) ==> kept == []
  {
    if reproduces([]) {
      OnlyNothing(elements);
      return [];
    }
    kept := elements;
    OnlyAll(elements, elements);
    var n := 2;
    while |kept| >= 2
      invariant kept == Only(elements, kept) && n >= 2
      invariant kept != elements ==> reproduces(kept) && Reachable(elements, reproduces)
      invariant kept == elements ==> Reducible(elements, n, reproduces) == Reducible(elements, 2, reproduces)
      decreases |kept|, |kept| - n
    {
      var chunk := Max(1, |kept| / n);
      var found := FirstReproducing(kept, chunk, reproduces);
      if found.Some? {
        ghost var i :| 0 <= i < |Chunks(kept, chunk)| && found.value == Without(kept, Chunks(kept, chunk)[i])
                       && Reduces(kept, Chunks(kept, chunk)[i], reproduces);
        OnlyWithout(elements, kept, Chunks(kept, chunk)[i], found.value);
        kept := found.value;
        n := Max(n - 1, 2);
      } else {
        if n >= |kept| {
          SmallChunk(|kept|, n);
          OnlyDistinctIf(elements, kept);
          if Distinct(kept) {
            ExitMinimal(kept, reproduces);
          }
          return;
        }
        n := Min(|kept|, n * 2);
      }
    }
    assert |kept| == 1 ==> kept[..0] + kept[1..] == [];
  }

  lemma SmallChunk(size: nat, n: nat)
    requires n >= size && n >= 2
    ensures Max(1, size / n) == 1
  {
    if size == n {
      assert size / n == 1;
    } else {
      assert size / n == 0;
    }
  }

  lemma OnlyDistinctIf(elements: seq<int>, kept: seq<int>)
    requires kept == Only(elements, kept)
    ensures Distinct(elements) ==> Distinct(kept)
  {
    if Distinct(elements) {
      OnlyDistinct(elements, kept);
    }
  }

  lemma {:induction false} OnlyNothing(s: seq<int>)
    ensures Only(s, []) == []
    decreases |s|
  {
    if s != [] {
      OnlyNothing(s[1..]);
    }
  }

  // ---- the step budget --------------------------------------------------------

  ghost predicate Monotone(fails: nat -> bool) {
    forall a: nat, b: nat {:trigger fails(a), fails(b)} | a <= b && fails(a) :: fails(b)
  }

  // A budget the search looks at fails, starting between lo and hi.
  predicate Probed(fails: nat -> bool, lo: nat, hi: nat)
    decreases hi - lo
  {
    lo < hi && (fails((lo + hi) / 2) || Probed(fails, (lo + hi) / 2 + 1, hi))
  }

  // Binary search: the budget found fails, if the given one does or one the search comes
  // by, and the one before it does not; if failures persist as the budget grows it is the
  // least positive budget that fails.
  method MinSteps(fails: nat -> bool, steps: nat) returns (r: nat)
    ensures steps > 0 ==> 1 <= r <= steps
    ensures steps > 0 ==> (fails(r) <==> fails(steps) || Probed(fails, 1, steps))
    ensures r == 1 || (r > 0 && !fails(r - 1))
    ensures steps > 0 && fails(steps) && Monotone(fails) ==> forall k | 0 < k < r :: !fails(k)
  {
    var lo: nat, hi: nat := 1, steps;
    while lo < hi
      invariant 1 <= lo && (steps > 0 ==> lo <= hi <= steps)
      invariant hi == steps || (fails(hi) && Probed(fails, 1, steps))
      invariant hi == steps ==> Probed(fails, lo, steps) == Probed(fails, 1, steps)
      invariant lo == 1 || !fails(lo - 1)
      decreases hi - lo
    {
      var mid := (lo + hi) / 2;
      if fails(mid) {
        hi := mid;
      } else {
        lo := mid + 1;
      }
    }
    r := lo;
    if steps > 0 && fails(steps) && Monotone(fails) {
      forall k | 0 < k < r
        ensures !fails(k)
      {
        assert r > 1 ==> !fails(r - 1);
      }
    }
  }

  // ---- shrinking a scenario ---------------------------------------------------

  // Everything about a run that shrinking leaves alone is one opaque value.
  datatype Scenario<T> = Scenario(setup: T, steps: nat, suppressed: set<int>)

  datatype Counterexample<T> = Counterexample(scenario: Scenario<T>, signature: string, originalFaults: nat, originalSteps: nat)

  function Ordinals(n: nat): (r: seq<int>)
    ensures |r| == n && forall k | 0 <= k < n :: r[k] == k
  {
    seq(n, k requires 0 <= k < n => k)
  }

  function Elements(s: seq<int>): (r: set<int>)
    ensures forall e: int :: e in r <==> e in s
  {
    set e | e in s
  }

  function Masked<T>(scenario: Scenario<T>, universe: seq<int>, kept: seq<int>): Scenario<T> {
    scenario.(suppressed := Elements(universe) - Elements(kept))
  }

  predicate Wanted(target: Option<string>, signature: string) {
    target.None? || target.value == "" || target.value == signature
  }

  // The question put to the delta debugger: with only these faults injected, does the
  // scenario fail this way?
  function Asks<T>(failure: Scenario<T> -> Option<string>, scenario: Scenario<T>, faults: nat, signature: string): seq<int> -> bool {
    (kept: seq<int>) => failure(Masked(scenario, Ordinals(faults), kept)) == Some(signature)
  }

  // Suppressing any fault that is still injected, at the original budget, loses the failure.
  ghost predicate NoneToSpare<T>(failure: Scenario<T> -> Option<string>, scenario: Scenario<T>, faults: nat, mask: set<int>, signature: string) {
    && mask <= Elements(Ordinals(faults))
    && forall k | k in Elements(Ordinals(faults)) && k !in mask ::
         failure(scenario.(suppressed := mask + {k})) != Some(signature)
  }

  // The failure is there to be found once the old mask is thrown away: with every fault
  // injected, with none, or with a first complement the delta debugger tries.
  predicate Recovers<T>(failure: Scenario<T> -> Option<string>, scenario: Scenario<T>, faults: nat, signature: string) {
    Reachable(Ordinals(faults), Asks(failure, scenario, faults, signature))
  }

  // A scenario that suppresses nothing, or fails the same way when it does not, recovers.
  lemma UnmaskedRecovers<T>(failure: Scenario<T> -> Option<string>, scenario: Scenario<T>, faults: nat, signature: string)
    requires failure(scenario.(suppressed := {})) == Some(signature)
    ensures Recovers(failure, scenario, faults, signature)
  {
    NothingMasked(scenario, Ordinals(faults));
  }

  // The question put to the budget search.
  function Budgets<T>(failure: Scenario<T> -> Option<string>, masked: Scenario<T>, signature: string): nat -> bool {
    (steps: nat) => failure(masked.(steps := steps)) == Some(signature)
  }

  // Nothing, exactly when the scenario does not fail as wanted. Otherwise a mask that has no
  // fault to spare, under which the scenario fails the same way exactly if it recovers; and
  // a budget at which it fails, if it does at the original one or at one the search comes
  // by, while one step less is not enough.
  method Shrink<T>(scenario: Scenario<T>, target: Option<string>,
                   failure: Scenario<T> -> Option<string>, faultCount: Scenario<T> -> nat)
    returns (r: Option<Counterexample<T>>)
    ensures r.None? <==> failure(scenario).None? || !Wanted(target, failure(scenario).value)
    ensures r.Some? ==>
              && r.value.signature == failure(scenario).value
              && r.value.originalSteps == scenario.steps && r.value.originalFaults == faultCount(scenario)
              && r.value.scenario.setup == scenario.setup
    ensures r.Some? ==> NoneToSpare(failure, scenario, faultCount(scenario), r.value.scenario.suppressed, r.value.signature)
    ensures r.Some? ==> (failure(scenario.(suppressed := r.value.scenario.suppressed)) == Some(r.value.signature)
                         <==> Recovers(failure, scenario, faultCount(scenario), r.value.signature))
    ensures r.Some? && scenario.steps > 0 ==>
              && 1 <= r.value.scenario.steps <= scenario.steps
              && (failure(r.value.scenario) == Some(r.value.signature)
                  <==> || Recovers(failure, scenario, faultCount(scenario), r.value.signature)
                       || Probed(Budgets(failure, scenario.(suppressed := r.value.scenario.suppressed), r.value.signature), 1, scenario.steps))
    ensures r.Some? ==> r.value.scenario.steps == 1
                        || (r.value.scenario.steps > 0
                            && failure(r.value.scenario.(steps := r.value.scenario.steps - 1)) != Some(r.value.signature))
    ensures r.Some? && scenario.steps > 0 && Recovers(failure, scenario, faultCount(scenario), r.value.signature)
            && Monotone(Budgets(failure, scenario.(suppressed := r.value.scenario.suppressed), r.value.signature)) ==>
              forall k | 0 < k < r.value.scenario.steps :: failure(r.value.scenario.(steps := k)) != Some(r.value.signature)
  {
    hide Reachable, Only, Elements, Ordinals, Probed;
    var signature := failure(scenario);
    if signature.None? || !Wanted(target, signature.value) {
      return None;
    }
    var wanted := signature.value;
    var total := faultCount(scenario);
    var universe := Ordinals(total);
    var reproduces := Asks(failure, scenario, total, wanted);
    var minimal := [];
    if total > 0 {
      minimal := DDMin(universe, reproduces);
    } else {
      NoFaults(reproduces);
    }
    var reduced := Masked(scenario, universe, minimal);
    NoFaultSpare(failure, scenario, total, minimal, wanted);
    var steps := MinSteps(Budgets(failure, reduced, wanted), scenario.steps);
    assert reduced.(steps := scenario.steps) == reduced == scenario.(suppressed := reduced.suppressed);
    var least := reduced.(steps := steps);
    assert forall k: nat :: least.(steps := k) == reduced.(steps := k);
    assert forall k: nat :: Budgets(failure, reduced, wanted)(k) == (failure(reduced.(steps := k)) == Some(wanted));
    return Some(Counterexample(least, wanted, total, scenario.steps));
  }

  lemma NothingMasked<T>(scenario: Scenario<T>, universe: seq<int>)
    ensures Masked(scenario, universe, universe) == scenario.(suppressed := {})
  {
  }

  lemma NoFaults(reproduces: seq<int> -> bool)
    ensures Ordinals(0) == [] == Only(Ordinals(0), [])
    ensures reproduces([]) <==> Reachable(Ordinals(0), reproduces)
  {
  }

  lemma NoFaultSpare<T>(failure: Scenario<T> -> Option<string>, scenario: Scenario<T>, total: nat, minimal: seq<int>, wanted: string)
    requires minimal == Only(Ordinals(total), minimal) && OneMinimal(minimal, Asks(failure, scenario, total, wanted))
    ensures NoneToSpare(failure, scenario, total, Masked(scenario, Ordinals(total), minimal).suppressed, wanted)
  {
    hide Only, Elements, Ordinals;
    var universe := Ordinals(total);
    var all := Elements(universe);
    var mask := Masked(scenario, universe, minimal).suppressed;
    OnlyDistinct(universe, minimal);
    forall k | k in all && k !in mask
      ensures failure(scenario.(suppressed := mask + {k})) != Some(wanted)
    {
      var i :| 0 <= i < |minimal| && minimal[i] == k;
      OneLess(universe, minimal, i);
      assert !Asks(failure, scenario, total, wanted)(minimal[..i] + minimal[i + 1..]);
      assert Masked(scenario, universe, minimal[..i] + minimal[i + 1..]) == scenario.(suppressed := mask + {k});
    }
  }

  lemma OneLess(universe: seq<int>, minimal: seq<int>, i: nat)
    requires Distinct(minimal) && i < |minimal| && minimal[i] in universe
    ensures Elements(universe) - Elements(minimal[..i] + minimal[i + 1..]) == Elements(universe) - Elements(minimal) + {minimal[i]}
  {
    OthersStay(minimal, i);
  }

  lemma OthersStay(s: seq<int>, i: nat)
    requires Distinct(s) && i < |s|
    ensures forall e: int :: e in s[..i] + s[i + 1..] <==> e in s && e != s[i]
  {
    assert s == s[..i] + [s[i]] + s[i + 1..];
  }

  // ---- a mask that is lost ----------------------------------------------------

  // Four faults are reached, and the run fails exactly when the first and the third are
  // suppressed; what is suppressed beyond the fourth makes no difference.
  const STUCK := Scenario((), 3, {0, 2})

  function StuckFailure(s: Scenario<()>): Option<string> {
    if s.suppressed * {0, 1, 2, 3} == {0, 2} then Some("stuck") else None
  }

  // Neither all the faults nor any complement tried is the first and third left out, so the
  // shrunk scenario does not fail at all.
  method MaskedExample() returns (r: Option<Counterexample<()>>)
    ensures StuckFailure(STUCK) == Some("stuck") && !Recovers(StuckFailure, STUCK, 4, "stuck")
    ensures r.Some? && StuckFailure(STUCK.(suppressed := r.value.scenario.suppressed)) == None
    ensures StuckFailure(r.value.scenario) == None
  {
    hide Recovers, Probed;
    NeverTried();
    r := Shrink(STUCK, None, StuckFailure, _ => 4);
    NeverProbed(Budgets(StuckFailure, STUCK.(suppressed := r.value.scenario.suppressed), "stuck"), 1, 3);
  }

  lemma {:induction false} NeverProbed(fails: nat -> bool, lo: nat, hi: nat)
    requires forall s: nat :: !fails(s)
    ensures !Probed(fails, lo, hi)
    decreases hi - lo
  {
    if lo < hi {
      NeverProbed(fails, (lo + hi) / 2 + 1, hi);
    }
  }

  lemma NeverTried()
    ensures !Recovers(StuckFailure, STUCK, 4, "stuck")
  {
    var u, asks := Ordinals(4), Asks(StuckFailure, STUCK, 4, "stuck");
    assert u == [0, 1, 2, 3];
    KeptBoth(u);
    KeptBoth([]);
    assert u[..2] == [0, 1] && u[2..] == [2, 3];
    assert Chunks([2, 3], 2) == [[2, 3]];
    assert Chunks(u, 2) == [[0, 1]] + [[2, 3]];
    SingleChunks(u);
    forall sub | sub in Chunks(u, 2) || sub in Chunks(u, 1)
      ensures !Reduces(u, sub, asks)
    {
      KeptBoth(Without(u, sub));
    }
    assert !Reducible(u, 4, asks);
  }

  // Only keeping just the second and the fourth would do.
  lemma KeptBoth(kept: seq<int>)
    ensures Asks(StuckFailure, STUCK, 4, "stuck")(kept) <==> 0 !in kept && 1 in kept && 2 !in kept && 3 in kept
  {
    var mask := Masked(STUCK, Ordinals(4), kept).suppressed;
    assert forall e: int :: e in Ordinals(4) <==> 0 <= e < 4 by {
      forall e: int | 0 <= e < 4
        ensures e in Ordinals(4)
      {
        assert Ordinals(4)[e] == e;
      }
    }
    var seen := mask * {0, 1, 2, 3};
    assert forall e: int :: e in seen <==> 0 <= e < 4 && e !in kept;
    assert Asks(StuckFailure, STUCK, 4, "stuck")(kept) <==> seen == {0, 2} by {
      assert StuckFailure(Masked(STUCK, Ordinals(4), kept)) == if seen == {0, 2} then Some("stuck") else None;
    }
    if seen == {0, 2} {
      assert 0 in seen && 1 !in seen && 2 in seen && 3 !in seen;
    }
  }
}
