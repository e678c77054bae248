// The linearizability oracle: linearize-and-remove search with an explicit stack, memoised
// dead ends and a budget. It answers yes with a linearization, no only when there is none.
module Oracle {
  import opened Prelude
  import opened KvStore
  import opened Histories

  // ---- the search space -------------------------------------------------------

  ghost predicate Within(ops: seq<Row>, s: seq<nat>) {
    forall k | 0 <= k < |s| :: s[k] < |ops|
  }

  // The store after running s from a given one.
  ghost function RunFrom(ops: seq<Row>, store: Store, s: seq<nat>): Store
    requires Within(ops, s)
  {
    if s == [] then store else Execute(RunFrom(ops, store, s[..|s| - 1]), ops[s[|s| - 1]].command).0
  }

  ghost predicate LegalFrom(ops: seq<Row>, store: Store, s: seq<nat>)
    requires Within(ops, s)
    decreases |s|
  {
    s == [] ||
    (ops[s[0]].observed == Execute(store, ops[s[0]].command).1 &&
     LegalFrom(ops, Execute(store, ops[s[0]].command).0, s[1..]))
  }

  ghost predicate InOrder(ops: seq<Row>, s: seq<nat>)
    requires Within(ops, s)
  {
    forall i, j | 0 <= i < j < |s| :: !Precedes(ops[s[j]], ops[s[i]])
  }

  // s finishes the job: all of pending, once each, in a legal order.
  ghost predicate Completion(ops: seq<Row>, store: Store, pending: seq<nat>, s: seq<nat>) {
    && Within(ops, s) && Distinct(s)
    && (forall q: nat :: q in s <==> q in pending)
    && InOrder(ops, s) && LegalFrom(ops, store, s)
  }

  // s goes on from here: some of pending, once each, in a legal order, with nothing left
  // pending that had to come before any of them.
  ghost predicate Continuation(ops: seq<Row>, store: Store, pending: seq<nat>, s: seq<nat>) {
    && Within(ops, s) && Distinct(s)
    && (forall q | q in s :: q in pending)
    && InOrder(ops, s) && LegalFrom(ops, store, s)
    && forall q, j | q in pending && q !in s && q < |ops| && 0 <= j < |s| :: !Precedes(ops[q], ops[s[j]])
  }

  // No way on from here places more than d operations in all.
  ghost predicate Shallow(ops: seq<Row>, store: Store, pending: seq<nat>, d: nat) {
    forall s | Continuation(ops, store, pending, s) :: |ops| - |pending| + |s| <= d
  }

  lemma ShallowMore(ops: seq<Row>, store: Store, pending: seq<nat>, d: nat, d2: nat)
    requires Shallow(ops, store, pending, d) && d <= d2
    ensures Shallow(ops, store, pending, d2)
  {
  }

  // No other pending operation had returned when p was invoked.
  ghost predicate First(ops: seq<Row>, pending: seq<nat>, p: nat)
    requires Within(ops, pending) && p < |ops|
  {
    forall q | q in pending && q != p :: !Precedes(ops[q], ops[p])
  }

  function Without(s: seq<nat>, x: nat): (r: seq<nat>)
    ensures forall q: nat :: q in r <==> q in s && q != x
    ensures Distinct(s) ==> Distinct(r)
    ensures Distinct(s) && x in s ==> |r| == |s| - 1
    ensures x !in s ==> r == s
    decreases |s|
  {
    if s == [] then []
    else
      assert s == [s[0]] + s[1..];
      assert Distinct(s) ==> Distinct(s[1..]) && s[0] !in s[1..];
      var rest := Without(s[1..], x);
      assert Distinct(s) ==> s[0] !in rest;
      if s[0] == x then rest else [s[0]] + rest
  }

  // The choices the search has at a state: every pending operation that may come next.
  ghost predicate Choices(ops: seq<Row>, pending: seq<nat>, cands: seq<nat>)
    requires Within(ops, pending)
  {
    && Within(ops, cands)
    && (forall c | c in cands :: c in pending)
    && (forall c | c in pending :: First(ops, pending, c) <==> c in cands)
  }

  // Choosing c cannot lead to more than d operations placed.
  ghost predicate Refuted(ops: seq<Row>, store: Store, pending: seq<nat>, c: nat, d: nat)
    requires c < |ops|
  {
    || ops[c].observed != Execute(store, ops[c].command).1
    || Shallow(ops, Execute(store, ops[c].command).0, Without(pending, c), d)
  }

  // When every choice is refuted so is the state.
  lemma AllRefuted(ops: seq<Row>, store: Store, pending: seq<nat>, cands: seq<nat>, d: nat)
    requires Within(ops, pending) && Distinct(pending) && Choices(ops, pending, cands) && |ops| - |pending| <= d
    requires forall c | c in cands :: c < |ops| && Refuted(ops, store, pending, c, d)
    ensures Shallow(ops, store, pending, d)
  {
    hide Continuation;
    forall s | Continuation(ops, store, pending, s)
      ensures |ops| - |pending| + |s| <= d
    {
      if s != [] {
        FirstIsChoice(ops, store, pending, cands, s);
      }
    }
  }

  // A continuation starts with a choice that matches, and goes on from there.
  lemma FirstIsChoice(ops: seq<Row>, store: Store, pending: seq<nat>, cands: seq<nat>, s: seq<nat>)
    requires Within(ops, pending) && Choices(ops, pending, cands)
    requires Continuation(ops, store, pending, s) && s != []
    ensures s[0] in cands && s[0] in pending && s[0] < |ops| && ops[s[0]].observed == Execute(store, ops[s[0]].command).1
    ensures Continuation(ops, Execute(store, ops[s[0]].command).0, Without(pending, s[0]), s[1..])
  {
    var c := s[0];
    assert c in s;
    forall q | q in pending && q != c
      ensures !Precedes(ops[q], ops[c])
    {
      if q in s {
        var j :| 0 <= j < |s| && s[j] == q;
      }
    }
    var rest := s[1..];
    forall q: nat
      ensures q in s <==> q == c || q in rest
    {
    }
    forall q | q in rest
      ensures q in Without(pending, c)
    {
      assert q in s;
    }
  }

  // ---- growing a partial linearization ----------------------------------------

  lemma {:induction false} LegalSnoc(ops: seq<Row>, store: Store, s: seq<nat>, x: nat)
    requires Within(ops, s) && x < |ops|
    ensures LegalFrom(ops, store, s + [x])
            <==> LegalFrom(ops, store, s) && ops[x].observed == Execute(RunFrom(ops, store, s), ops[x].command).1
    decreases |s|
  {
    if s == [] {
      assert s + [x] == [x];
    } else {
      var next := Execute(store, ops[s[0]].command).0;
      LegalSnoc(ops, next, s[1..], x);
      assert (s + [x])[1..] == s[1..] + [x];
      RunFromCons(ops, store, s);
    }
  }

  lemma RunSnoc(ops: seq<Row>, store: Store, s: seq<nat>, x: nat)
    requires Within(ops, s) && x < |ops|
    ensures RunFrom(ops, store, s + [x]) == Execute(RunFrom(ops, store, s), ops[x].command).0
  {
    assert (s + [x])[..|s|] == s;
  }

  lemma {:induction false} RunFromCons(ops: seq<Row>, store: Store, s: seq<nat>)
    requires Within(ops, s) && s != []
    ensures RunFrom(ops, store, s) == RunFrom(ops, Execute(store, ops[s[0]].command).0, s[1..])
    decreases |s|
  {
    if |s| > 1 {
      var n := |s| - 1;
      RunFromCons(ops, store, s[..n]);
      assert s[..n][1..] == s[1..][..n - 1];
    }
  }

  // A partial linearization that nothing outside it had to precede.
  ghost predicate Partial(ops: seq<Row>, path: seq<nat>) {
    && Within(ops, path) && Distinct(path)
    && InOrder(ops, path) && LegalFrom(ops, map[], path)
    && forall q, j | 0 <= q < |ops| && q !in path && 0 <= j < |path| :: !Precedes(ops[q], ops[path[j]])
  }

  lemma PartialGrows(ops: seq<Row>, path: seq<nat>, pending: seq<nat>, c: nat)
    requires Partial(ops, path) && Within(ops, pending)
    requires forall q: nat :: q in pending <==> q < |ops| && q !in path
    requires c in pending && First(ops, pending, c)
    requires ops[c].observed == Execute(RunFrom(ops, map[], path), ops[c].command).1
    ensures Partial(ops, path + [c])
    ensures RunFrom(ops, map[], path + [c]) == Execute(RunFrom(ops, map[], path), ops[c].command).0
  {
    hide RunFrom, LegalFrom, Execute;
    LegalSnoc(ops, map[], path, c);
    RunSnoc(ops, map[], path, c);
  }

  // ---- the two definitions of a legal order agree -----------------------------

  lemma {:induction false} RunFromIsStoreAt(ops: seq<Row>, s: seq<nat>, k: nat)
    requires Indices(ops, s) && k <= |s|
    ensures RunFrom(ops, map[], s[..k]) == StoreAt(ops, s, k)
  {
    var cmds := Issued(ops, s);
    if k > 0 {
      RunFromIsStoreAt(ops, s, k - 1);
      assert s[..k][..k - 1] == s[..k - 1];
      assert cmds[..k][..k - 1] == cmds[..k - 1];
    }
  }

  lemma LegalLast(ops: seq<Row>, s: seq<nat>)
    requires Indices(ops, s) && s != []
    ensures var n := |s| - 1;
            Legal(ops, s) <==> Legal(ops, s[..n]) && ops[s[n]].observed == Execute(StoreAt(ops, s, n), ops[s[n]].command).1
  {
    hide Execute, RunAll;
    var n := |s| - 1;
    forall k | 0 <= k < n
      ensures StoreAt(ops, s[..n], k) == StoreAt(ops, s, k) && s[..n][k] == s[k]
    {
      assert Issued(ops, s[..n])[..k] == Issued(ops, s)[..k];
    }
    if Legal(ops, s) {
      forall k | 0 <= k < n
        ensures ops[s[..n][k]].observed == Execute(StoreAt(ops, s[..n], k), ops[s[..n][k]].command).1
      {
        assert ops[s[k]].observed == Execute(StoreAt(ops, s, k), ops[s[k]].command).1;
      }
    }
  }

  lemma {:induction false} LegalFromIsLegal(ops: seq<Row>, s: seq<nat>)
    requires Indices(ops, s)
    ensures LegalFrom(ops, map[], s) <==> Legal(ops, s)
    decreases |s|
  {
    if s != [] {
      var n := |s| - 1;
      LegalFromIsLegal(ops, s[..n]);
      LegalSnoc(ops, map[], s[..n], s[n]);
      assert s[..n] + [s[n]] == s;
      RunFromIsStoreAt(ops, s, n);
      LegalLast(ops, s);
    }
  }

  ghost predicate AllDone(ops: seq<Row>) {
    forall i | 0 <= i < |ops| :: Completed(ops[i])
  }

  lemma CompletionIsLinearization(ops: seq<Row>, pending: seq<nat>, s: seq<nat>)
    requires AllDone(ops) && forall q: nat :: q in pending <==> q < |ops|
    ensures Completion(ops, map[], pending, s) <==> Linearization(ops, s)
  {
    if Indices(ops, s) {
      LegalFromIsLegal(ops, s);
      if Covers(ops, s) {
        forall q: nat
          ensures q in s <==> q in pending
        {
          if q < |ops| {
            assert Completed(ops[q]);
          }
        }
      }
    }
  }

  lemma FullPathIsLinearization(ops: seq<Row>, path: seq<nat>)
    requires AllDone(ops) && Partial(ops, path) && forall q | 0 <= q < |ops| :: q in path
    ensures Linearization(ops, path)
  {
    LegalFromIsLegal(ops, path);
  }

  // ---- the search -------------------------------------------------------------

  datatype Frame = Frame(store: Store, pending: seq<nat>, cands: Option<seq<nat>>, ci: nat, path: seq<nat>)

  type Key = (Store, seq<nat>)

  datatype Verdict =
    | Linear(order: seq<nat>)
    | NotLinear(deepest: seq<nat>)
    | Undetermined

  ghost predicate FrameOk(ops: seq<Row>, f: Frame) {
    && Partial(ops, f.path)
    && f.store == RunFrom(ops, map[], f.path)
    && Within(ops, f.pending) && Distinct(f.pending)
    && (forall q: nat :: q in f.pending <==> q < |ops| && q !in f.path)
    && (f.cands == None ==> f.ci == 0)
    && (f.cands.Some? ==> Choices(ops, f.pending, f.cands.value) && f.ci <= |f.cands.value|)
  }

  ghost predicate Tried(ops: seq<Row>, f: Frame, upto: int, d: nat) {
    FrameOk(ops, f) && (f.cands.Some? ==> upto <= |f.cands.value| && |ops| - |f.pending| <= d) &&
    forall j | 0 <= j < upto && f.cands.Some? :: f.cands.value[j] < |ops| && Refuted(ops, f.store, f.pending, f.cands.value[j], d)
  }

  // Frame g explores the choice frame f made last.
  ghost predicate ChildOf(ops: seq<Row>, f: Frame, g: Frame) {
    && FrameOk(ops, f) && f.cands.Some? && 0 < f.ci && f.pending != []
    && var c := f.cands.value[f.ci - 1];
    && c in f.pending
    && g.store == Execute(f.store, ops[c].command).0
    && g.pending == Without(f.pending, c)
  }

  ghost predicate StackOk(ops: seq<Row>, stack: seq<Frame>, d: nat) {
    && (forall k | 0 <= k < |stack| :: FrameOk(ops, stack[k]) && |stack[k].pending| == |ops| - k)
    && (forall k | 0 <= k < |stack| - 1 :: ChildOf(ops, stack[k], stack[k + 1]) && Tried(ops, stack[k], stack[k].ci - 1, d))
    && (stack != [] ==> Tried(ops, stack[|stack| - 1], stack[|stack| - 1].ci, d))
  }

  // Every memoised state leads no deeper than d or is being explored.
  ghost predicate MemoOk(ops: seq<Row>, stack: seq<Frame>, memo: set<Key>, d: nat) {
    forall k | k in memo :: Shallow(ops, k.0, k.1, d) || OnStack(stack, k)
  }

  ghost predicate OnStack(stack: seq<Frame>, k: Key) {
    exists d | 0 <= d < |stack| :: stack[d].store == k.0 && stack[d].pending == k.1
  }

  // What is left to do on a stack: bounds the iterations between two pushes.
  ghost function Left(n: nat, stack: seq<Frame>): nat {
    if stack == [] then 0
    else
      var f := stack[|stack| - 1];
      Left(n, stack[..|stack| - 1]) + 1 + if f.cands == None then n + 1 else Max(0, |f.cands.value| - f.ci)
  }

  // A memo hit below the current frame leads no deeper: everything on the stack has
  // more operations pending.
  lemma MemoHit(ops: seq<Row>, stack: seq<Frame>, memo: set<Key>, key: Key, d: nat)
    requires StackOk(ops, stack, d) && MemoOk(ops, stack, memo, d) && key in memo
    requires stack != [] && |key.1| < |stack[|stack| - 1].pending|
    ensures Shallow(ops, key.0, key.1, d)
  {
    forall m | 0 <= m < |stack|
      ensures stack[m].pending != key.1
    {
      assert |stack[m].pending| >= |stack[|stack| - 1].pending|;
    }
  }

  // Popping an exhausted frame: nothing deeper is below it, so its parent's last choice is refuted.
  lemma PopStack(ops: seq<Row>, stack: seq<Frame>, d: nat)
    requires StackOk(ops, stack, d) && stack != []
    requires var f := stack[|stack| - 1]; f.pending != [] && f.cands.Some? && f.ci == |f.cands.value|
    ensures StackOk(ops, stack[..|stack| - 1], d)
    ensures Shallow(ops, stack[|stack| - 1].store, stack[|stack| - 1].pending, d)
  {
    hide Shallow, ChildOf, Partial, Choices, Refuted, RunFrom, Distinct;
    var n := |stack| - 1;
    var f, rest := stack[n], stack[..n];
    Exhausted(ops, f, d);
    if n > 0 {
      ParentTried(ops, stack[n - 1], f, d);
      assert ChildOf(ops, stack[n - 1], stack[n - 1 + 1]);
    }
  }

  lemma Exhausted(ops: seq<Row>, f: Frame, d: nat)
    requires f.pending != [] && f.cands.Some? && f.ci == |f.cands.value| && Tried(ops, f, f.ci, d)
    ensures Shallow(ops, f.store, f.pending, d)
  {
    AllRefuted(ops, f.store, f.pending, f.cands.value, d);
  }

  lemma ParentTried(ops: seq<Row>, p: Frame, f: Frame, d: nat)
    requires ChildOf(ops, p, f) && Tried(ops, p, p.ci - 1, d) && Shallow(ops, f.store, f.pending, d)
    ensures Tried(ops, p, p.ci, d)
  {
    hide Shallow, Partial, Choices, RunFrom, Distinct;
  }

  lemma PopMemo(ops: seq<Row>, stack: seq<Frame>, memo: set<Key>, d: nat)
    requires MemoOk(ops, stack, memo, d) && stack != []
    requires Shallow(ops, stack[|stack| - 1].store, stack[|stack| - 1].pending, d)
    ensures MemoOk(ops, stack[..|stack| - 1], memo, d)
  {
    var n := |stack| - 1;
    forall k | k in memo
      ensures Shallow(ops, k.0, k.1, d) || OnStack(stack[..n], k)
    {
      if !Shallow(ops, k.0, k.1, d) {
        var m :| 0 <= m < |stack| && stack[m].store == k.0 && stack[m].pending == k.1;
        assert stack[..n][m] == stack[m];
      }
    }
  }

  // ---- one iteration on the top frame -----------------------------------------

  lemma LeftTop(n: nat, stack: seq<Frame>, f: Frame)
    requires stack != []
    ensures Left(n, stack[|stack| - 1 := f])
            == Left(n, stack[..|stack| - 1]) + 1 + if f.cands == None then n + 1 else Max(0, |f.cands.value| - f.ci)
  {
    assert stack[|stack| - 1 := f][..|stack| - 1] == stack[..|stack| - 1];
  }

  lemma ChildSame(ops: seq<Row>, f: Frame, g1: Frame, g2: Frame)
    requires ChildOf(ops, f, g1) && g1.store == g2.store && g1.pending == g2.pending
    ensures ChildOf(ops, f, g2) && 0 < f.ci
  {
    hide FrameOk;
  }

  // Replacing the top frame by one at the same state, with more choices tried.
  lemma ReplaceTop(ops: seq<Row>, stack: seq<Frame>, memo: set<Key>, f: Frame, d: nat)
    requires StackOk(ops, stack, d) && MemoOk(ops, stack, memo, d) && stack != []
    requires f.store == stack[|stack| - 1].store && f.pending == stack[|stack| - 1].pending
    requires FrameOk(ops, f) && Tried(ops, f, f.ci, d)
    ensures StackOk(ops, stack[|stack| - 1 := f], d) && MemoOk(ops, stack[|stack| - 1 := f], memo, d)
  {
    hide Shallow, FrameOk, Tried, ChildOf;
    var n := |stack| - 1;
    var s2 := stack[n := f];
    forall m | 0 <= m < |s2| - 1
      ensures ChildOf(ops, s2[m], s2[m + 1]) && Tried(ops, s2[m], s2[m].ci - 1, d)
    {
      ChildSame(ops, stack[m], stack[m + 1], s2[m + 1]);
    }
    forall k | k in memo
      ensures Shallow(ops, k.0, k.1, d) || OnStack(s2, k)
    {
      if !Shallow(ops, k.0, k.1, d) {
        var m :| 0 <= m < |stack| && stack[m].store == k.0 && stack[m].pending == k.1;
        assert s2[m].store == k.0 && s2[m].pending == k.1;
      }
    }
  }

  // Pushing the frame of the choice just made. `f` is the top frame with that choice
  // counted but not yet refuted.
  lemma PushFrame(ops: seq<Row>, stack: seq<Frame>, memo: set<Key>, f: Frame, g: Frame, d: nat)
    requires StackOk(ops, stack, d) && MemoOk(ops, stack, memo, d) && stack != [] && 0 < f.ci
    requires f.store == stack[|stack| - 1].store && f.pending == stack[|stack| - 1].pending
    requires FrameOk(ops, f) && ChildOf(ops, f, g) && Tried(ops, f, f.ci - 1, d)
    requires FrameOk(ops, g) && Tried(ops, g, g.ci, d) && |g.pending| == |f.pending| - 1
    ensures StackOk(ops, stack[|stack| - 1 := f] + [g], d)
    ensures MemoOk(ops, stack[|stack| - 1 := f] + [g], memo + {(g.store, g.pending)}, d)
  {
    hide Shallow, FrameOk, Tried, ChildOf;
    var n := |stack| - 1;
    var s2 := stack[n := f] + [g];
    forall m | 0 <= m < |s2| - 1
      ensures ChildOf(ops, s2[m], s2[m + 1]) && Tried(ops, s2[m], s2[m].ci - 1, d)
    {
      if m < n {
        ChildSame(ops, stack[m], stack[m + 1], s2[m + 1]);
      }
    }
    forall k | k in memo + {(g.store, g.pending)}
      ensures Shallow(ops, k.0, k.1, d) || OnStack(s2, k)
    {
      if k == (g.store, g.pending) {
        assert s2[n + 1].store == k.0 && s2[n + 1].pending == k.1;
      } else if !Shallow(ops, k.0, k.1, d) {
        var m :| 0 <= m < |stack| && stack[m].store == k.0 && stack[m].pending == k.1;
        assert s2[m].store == k.0 && s2[m].pending == k.1;
      }
    }
  }

  // The child of a frame by its next choice, when the observed result matches.
  function Child(ops: seq<Row>, f: Frame, c: nat): Frame
    requires c < |ops|
  {
    Frame(Execute(f.store, ops[c].command).0, Without(f.pending, c), None, 0, f.path + [c])
  }

  lemma ChildFrame(ops: seq<Row>, f: Frame, c: nat, d: nat)
    requires FrameOk(ops, f) && f.cands.Some? && c in f.cands.value && c < |ops|
    requires ops[c].observed == Execute(f.store, ops[c].command).1
    ensures FrameOk(ops, Child(ops, f, c)) && Tried(ops, Child(ops, f, c), 0, d)
    ensures c in f.pending && |Without(f.pending, c)| == |f.pending| - 1
  {
    hide RunFrom, Execute, Partial, First;
    PartialGrows(ops, f.path, f.pending, c);
    forall q: nat
      ensures q in f.path + [c] <==> q in f.path || q == c
    {
    }
    var g := Child(ops, f, c);
    forall k | 0 <= k < |g.pending|
      ensures g.pending[k] < |ops|
    {
      assert g.pending[k] in g.pending;
    }
    assert FrameOk(ops, g);
  }

  lemma NextChild(ops: seq<Row>, f: Frame)
    requires FrameOk(ops, f) && f.cands.Some? && f.ci < |f.cands.value| && f.cands.value[f.ci] < |ops|
    requires f.cands.value[f.ci] in f.pending
    ensures FrameOk(ops, f.(ci := f.ci + 1)) && ChildOf(ops, f.(ci := f.ci + 1), Child(ops, f, f.cands.value[f.ci]))
  {
    hide RunFrom, Execute, Partial, Choices;
  }

  // Facts about the top frame.
  lemma TopFacts(ops: seq<Row>, stack: seq<Frame>, d: nat)
    requires StackOk(ops, stack, d) && stack != []
    ensures var f := stack[|stack| - 1];
            && FrameOk(ops, f) && Tried(ops, f, f.ci, d)
            && Within(ops, f.pending) && Distinct(f.pending) && |f.pending| <= |ops|
            && (f.cands == None ==> f.ci == 0)
            && (f.cands.Some? ==> f.ci <= |f.cands.value| && forall c | c in f.cands.value :: c < |ops| && c in f.pending)
  {
    hide Partial, RunFrom, ChildOf, Refuted;
    assert FrameOk(ops, stack[|stack| - 1]);
  }

  lemma WithChoices(ops: seq<Row>, f: Frame, cands: seq<nat>, d: nat)
    requires FrameOk(ops, f) && f.cands == None && Within(ops, f.pending) && Choices(ops, f.pending, cands) && |ops| - |f.pending| <= d
    ensures FrameOk(ops, f.(cands := Some(cands))) && Tried(ops, f.(cands := Some(cands)), 0, d) && f.ci == 0
    ensures forall c | c in cands :: c < |ops| && c in f.pending
  {
    hide Partial, RunFrom;
  }

  lemma OneMoreTried(ops: seq<Row>, f: Frame, d: nat)
    requires FrameOk(ops, f) && Tried(ops, f, f.ci, d) && f.cands.Some? && f.ci < |f.cands.value|
    requires f.cands.value[f.ci] < |ops| && Refuted(ops, f.store, f.pending, f.cands.value[f.ci], d)
    ensures FrameOk(ops, f.(ci := f.ci + 1)) && Tried(ops, f.(ci := f.ci + 1), f.ci + 1, d)
  {
    hide Partial, RunFrom, Refuted, Choices;
  }

  lemma FirstFrame(ops: seq<Row>, all: seq<nat>, d: nat)
    requires Distinct(all) && |all| == |ops| && forall q: nat :: q in all <==> q < |ops|
    ensures StackOk(ops, [Frame(map[], all, None, 0, [])], d) && MemoOk(ops, [Frame(map[], all, None, 0, [])], {}, d)
    ensures Partial(ops, [])
  {
    forall k | 0 <= k < |all|
      ensures all[k] < |ops|
    {
      assert all[k] in all;
    }
    assert FrameOk(ops, Frame(map[], all, None, 0, []));
  }

  lemma Finished(ops: seq<Row>, f: Frame)
    requires AllDone(ops) && FrameOk(ops, f) && f.pending == []
    ensures Linearization(ops, f.path)
  {
    FullPathIsLinearization(ops, f.path);
  }

  lemma DeepestPath(ops: seq<Row>, f: Frame)
    requires FrameOk(ops, f)
    ensures Partial(ops, f.path) && |f.path| == |ops| - |f.pending|
  {
    hide RunFrom, LegalFrom, InOrder, Choices;
    var placed, left, all := Elements(f.path), Elements(f.pending), Naturals(|ops|);
    assert placed !! left && placed + left == all;
  }

  // What has been found stays found as the deepest path grows.
  lemma Deepen(ops: seq<Row>, stack: seq<Frame>, memo: set<Key>, d: nat, d2: nat)
    requires StackOk(ops, stack, d) && MemoOk(ops, stack, memo, d) && d <= d2
    ensures StackOk(ops, stack, d2) && MemoOk(ops, stack, memo, d2)
  {
    hide FrameOk, ChildOf, Shallow, OnStack, Refuted;
    forall k, upto | 0 <= k < |stack| && Tried(ops, stack[k], upto, d)
      ensures Tried(ops, stack[k], upto, d2)
    {
      TriedDeeper(ops, stack[k], upto, d, d2);
    }
    forall k | k in memo && Shallow(ops, k.0, k.1, d)
      ensures Shallow(ops, k.0, k.1, d2)
    {
      ShallowMore(ops, k.0, k.1, d, d2);
    }
  }

  lemma TriedDeeper(ops: seq<Row>, f: Frame, upto: int, d: nat, d2: nat)
    requires Tried(ops, f, upto, d) && d <= d2
    ensures Tried(ops, f, upto, d2)
  {
    hide FrameOk, Continuation;
  }

  // A state the search can get to.
  ghost predicate Reachable(ops: seq<Row>, k: Key) {
    exists f: Frame :: FrameOk(ops, f) && f.store == k.0 && f.pending == k.1
  }

  // More search states than the budget can be reached at all.
  ghost predicate BudgetSpent(ops: seq<Row>, budget: nat) {
    exists seen: set<Key> :: |seen| > budget && forall k | k in seen :: Reachable(ops, k)
  }

  function Ret(ops: seq<Row>, p: nat): nat {
    if p < |ops| && ops[p].returned.Some? then ops[p].returned.value else 0
  }

  // Operations none of the other pending ones must precede: one pass for the two earliest
  // returns, one to filter.
  method Minimal(ops: seq<Row>, pending: seq<nat>) returns (out: seq<nat>)
    requires Within(ops, pending) && Distinct(pending) && pending != [] && AllDone(ops)
    ensures Choices(ops, pending, out)
    ensures |out| <= |pending|
  {
    if |pending| == 1 {
      assert pending == [pending[0]];
      assert First(ops, pending, pending[0]);
      return [pending[0]];
    }
    var min1, min2 := TwoEarliest(ops, pending);
    out := [];
    for i := 0 to |pending|
      invariant |out| <= i && Within(ops, out)
      invariant forall c | c in out :: c in pending[..i]
      invariant forall c | c in pending[..i] :: First(ops, pending, c) <==> c in out
    {
      var p := pending[i];
      assert pending[..i + 1] == pending[..i] + [p];
      assert p !in pending[..i];
      var earliest := if p == min1 then min2 else min1;
      assert First(ops, pending, p) <==> !Precedes(ops[earliest], ops[p]);
      if ops[p].invoked <= Ret(ops, earliest) {
        out := out + [p];
      }
    }
    assert pending[..|pending|] == pending;
    assert Choices(ops, pending, out);
  }

  // The smallest and second-smallest return step among the pending operations.
  method TwoEarliest(ops: seq<Row>, pending: seq<nat>) returns (m1: nat, m2: nat)
    requires Within(ops, pending) && Distinct(pending) && |pending| >= 2
    ensures m1 in pending && m2 in pending && m1 != m2
    ensures forall q | q in pending :: Ret(ops, m1) <= Ret(ops, q)
    ensures forall q | q in pending && q != m1 :: Ret(ops, m2) <= Ret(ops, q)
  {
    var min1, min2 := None, None;
    for i := 0 to |pending|
      invariant min1.None? <==> i == 0
      invariant min2.None? <==> i < 2
      invariant min1.Some? ==> min1.value in pending[..i] && forall q | q in pending[..i] :: Ret(ops, min1.value) <= Ret(ops, q)
      invariant min2.Some? ==> min2.value in pending[..i] && min2.value != min1.value
      invariant min2.Some? ==> forall q | q in pending[..i] && q != min1.value :: Ret(ops, min2.value) <= Ret(ops, q)
    {
      var p := pending[i];
      assert pending[..i + 1] == pending[..i] + [p];
      assert p !in pending[..i];
      if min1.None? || Ret(ops, p) < Ret(ops, min1.value) {
        min2, min1 := min1, Some(p);
      } else if min2.None? || Ret(ops, p) < Ret(ops, min2.value) {
        min2 := Some(p);
      }
    }
    assert pending[..|pending|] == pending;
    m1, m2 := min1.value, min2.value;
  }

  function Range(n: nat): (r: seq<nat>)
    ensures |r| == n && forall k | 0 <= k < n :: r[k] == k
  {
    seq(n, i requires 0 <= i < n => i)
  }

  lemma RangeHas(n: nat)
    ensures Distinct(Range(n)) && forall q: nat :: q in Range(n) <==> q < n
  {
    var r := Range(n);
    forall q: nat
      ensures q in r <==> q < n
    {
      if q < n {
        assert r[q] == q;
      }
    }
  }

  // No partial linearization places more.
  ghost predicate Deepest(ops: seq<Row>, path: seq<nat>) {
    Partial(ops, path) && forall p | Partial(ops, p) :: |p| <= |path|
  }

  // Decide whether the operations can be put in a legal order; if not, the deepest path is
  // as long as any.
  method Search(ops: seq<Row>, budget: nat) returns (v: Verdict)
    requires AllDone(ops)
    ensures v.Linear? ==> Linearization(ops, v.order)
    ensures v.NotLinear? ==> !Linearizable(ops) && Deepest(ops, v.deepest) && |v.deepest| < |ops|
    ensures v.Undetermined? ==> BudgetSpent(ops, budget)
  {
    hide FrameOk, StackOk, MemoOk, Tried, ChildOf, Shallow, Choices, Partial, Linearization, Linearizable, Left, Reachable, Execute, AllDone, RunFrom, First, OnStack, Refuted, Range, Without, Distinct;
    var n := |ops|;
    var memo: set<Key> := {};
    var deepest: seq<nat> := [];
    var explored := 0;
    var all := Range(n);
    RangeHas(n);
    var stack := [Frame(map[], all, None, 0, [])];
    FirstFrame(ops, all, 0);
    while stack != []
      invariant StackOk(ops, stack, |deepest|) && MemoOk(ops, stack, memo, |deepest|)
      invariant explored == |memo| <= budget && forall k | k in memo :: Reachable(ops, k)
      invariant if stack == [] then Shallow(ops, map[], all, |deepest|) && n > 0 else stack[0].store == map[] && stack[0].pending == all
      invariant Partial(ops, deepest) && (n > 0 ==> |deepest| < n)
      decreases budget - explored, Left(n, stack)
    {
      var top := |stack| - 1;
      var frame := stack[top];
      TopFacts(ops, stack, |deepest|);
      if frame.pending == [] {
        Finished(ops, frame);
        return Linear(frame.path);
      }
      ghost var before := Left(n, stack);
      LeftTop(n, stack, frame);
      assert stack[top := frame] == stack;
      if frame.cands.None? {
        var cands := Minimal(ops, frame.pending);
        DeepestPath(ops, frame);
        if |frame.path| > |deepest| {
          Deepen(ops, stack, memo, |deepest|, |frame.path|);
          deepest := frame.path;
        }
        WithChoices(ops, frame, cands, |deepest|);
        frame := frame.(cands := Some(cands));
        ReplaceTop(ops, stack, memo, frame, |deepest|);
        LeftTop(n, stack, frame);
        stack := stack[top := frame];
      }
      assert stack[..top] == stack[top := frame][..top];
      LeftTop(n, stack, frame);
      assert stack[top := frame] == stack && Left(n, stack) <= before;
      if frame.ci >= |frame.cands.value| {
        PopStack(ops, stack, |deepest|);
        PopMemo(ops, stack, memo, |deepest|);
        stack := stack[..top];
        continue;
      }
      var c := frame.cands.value[frame.ci];
      assert c in frame.cands.value;
      var next := frame.(ci := frame.ci + 1);
      LeftTop(n, stack, next);
      var newStore := Execute(frame.store, ops[c].command).0;
      var result := Execute(frame.store, ops[c].command).1;
      if result != ops[c].observed {
        NoMatch(ops, frame, c, |deepest|);
        OneMoreTried(ops, frame, |deepest|);
        ReplaceTop(ops, stack, memo, next, |deepest|);
        stack := stack[top := next];
        continue;
      }
      ChildFrame(ops, frame, c, |deepest|);
      var newPending := Without(frame.pending, c);
      var key := (newStore, newPending);
      if key in memo {
        MemoHit(ops, stack, memo, key, |deepest|);
        DeadChild(ops, frame, c, |deepest|);
        OneMoreTried(ops, frame, |deepest|);
        ReplaceTop(ops, stack, memo, next, |deepest|);
        stack := stack[top := next];
        continue;
      }
      var child := Child(ops, frame, c);
      NextChild(ops, frame);
      TriedBefore(ops, frame, |deepest|);
      PushFrame(ops, stack, memo, next, child, |deepest|);
      ReachableChild(ops, child);
      memo := memo + {key};
      explored := explored + 1;
      if explored > budget {
        return Undetermined;
      }
      stack := stack[top := next] + [child];
    }
    NothingDeeper(ops, all, deepest);
    return NotLinear(deepest);
  }

  lemma NoMatch(ops: seq<Row>, f: Frame, c: nat, d: nat)
    requires c < |ops| && ops[c].observed != Execute(f.store, ops[c].command).1
    ensures Refuted(ops, f.store, f.pending, c, d)
  {
  }

  lemma DeadChild(ops: seq<Row>, f: Frame, c: nat, d: nat)
    requires c < |ops| && Shallow(ops, Execute(f.store, ops[c].command).0, Without(f.pending, c), d)
    ensures Refuted(ops, f.store, f.pending, c, d)
  {
  }

  lemma TriedBefore(ops: seq<Row>, f: Frame, d: nat)
    requires Tried(ops, f, f.ci, d) && f.cands.Some? && f.ci < |f.cands.value| && FrameOk(ops, f.(ci := f.ci + 1))
    ensures Tried(ops, f.(ci := f.ci + 1), f.ci, d)
  {
    hide Partial, RunFrom, Refuted, Choices;
  }

  lemma ReachableChild(ops: seq<Row>, f: Frame)
    requires FrameOk(ops, f)
    ensures Reachable(ops, (f.store, f.pending))
  {
  }

  function Naturals(n: nat): (r: set<nat>)
    ensures |r| == n && forall q: nat :: q in r <==> q < n
  {
    if n == 0 then {} else Naturals(n - 1) + {n - 1}
  }

  function Elements(s: seq<nat>): (r: set<nat>)
    ensures forall q: nat :: q in r <==> q in s
    ensures Distinct(s) ==> |r| == |s|
  {
    if s == [] then {}
    else
      assert s == s[..|s| - 1] + [s[|s| - 1]];
      Elements(s[..|s| - 1]) + {s[|s| - 1]}
  }

  lemma DistinctSmall(s: seq<nat>, n: nat)
    requires Distinct(s) && forall q | q in s :: q < n
    ensures |s| <= n
    ensures |s| == n ==> forall q: nat | q < n :: q in s
  {
    var elems, all := Elements(s), Naturals(n);
    CardinalityOfSubset(elems, all);
    if |s| == n {
      forall q: nat | q < n
        ensures q in s
      {
        if q !in s {
          CardinalityOfSubset(elems + {q}, all);
        }
      }
    }
  }

  lemma DistinctSame(a: seq<nat>, b: seq<nat>)
    requires Distinct(a) && Distinct(b) && forall q: nat :: q in a <==> q in b
    ensures |a| == |b|
  {
    assert Elements(a) == Elements(b);
  }

  // Every partial linearization is a way on from the start, and a linearization is one that
  // places everything.
  lemma NothingDeeper(ops: seq<Row>, all: seq<nat>, deepest: seq<nat>)
    requires AllDone(ops) && Shallow(ops, map[], all, |deepest|) && |all| == |ops| && forall q: nat :: q in all <==> q < |ops|
    requires Partial(ops, deepest) && |deepest| < |ops|
    ensures Deepest(ops, deepest) && !Linearizable(ops)
  {
    hide RunFrom, LegalFrom, InOrder;
    forall p | Partial(ops, p)
      ensures |p| <= |deepest|
    {
      assert Continuation(ops, map[], all, p);
    }
    forall s
      ensures !Linearization(ops, s)
    {
      if Linearization(ops, s) {
        LinearizationIsPartial(ops, all, s);
      }
    }
  }

  lemma LinearizationIsPartial(ops: seq<Row>, all: seq<nat>, s: seq<nat>)
    requires AllDone(ops) && Linearization(ops, s) && |all| == |ops| && forall q: nat :: q in all <==> q < |ops|
    ensures Partial(ops, s) && |s| == |ops|
  {
    hide RunFrom, LegalFrom;
    CompletionIsLinearization(ops, all, s);
    var placed, everything := Elements(s), Naturals(|ops|);
    assert placed == everything;
  }
}
