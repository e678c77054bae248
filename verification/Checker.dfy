// What each check of the invariant checker is about, in terms of what servers expose.
// Module CheckerObject proves that it fires exactly when that fails.
module Checker {
  import opened Prelude
  import opened RaftTypes

  // What a server exposes: the physical log above the compaction base, and progress.
  datatype View = View(
    leader: bool,
    term: nat,
    live: Physical,
    commit: nat,
    applied: seq<Payload>,
    version: nat,
    incarnation: nat,
    voters: set<Id>)

  datatype Physical = Physical(log: Log, base: nat) {
    function Last(): nat {
      base + |log|
    }

    function EntryAt(i: nat): Entry
      requires base < i <= Last()
    {
      log[i - base - 1]
    }
  }

  datatype Violation =
    | ElectionSafety | LeaderAppendOnly | LogMatching | CommitIndexMonotonic
    | StateMachineSafety | CommitQuorum | LeaderCompleteness

  // ---- Log Matching -----------------------------------------------------------

  function Lo(a: Physical, b: Physical): nat {
    Max(a.base, b.base) + 1
  }

  function Hi(a: Physical, b: Physical): nat {
    Min(a.Last(), b.Last())
  }

  // On the part both logs still hold: the same term at an index means the same entries up
  // to it.
  ghost predicate Matching(a: Physical, b: Physical) {
    forall i, j | Lo(a, b) <= j <= i <= Hi(a, b) && a.EntryAt(i).term == b.EntryAt(i).term ::
      a.EntryAt(j) == b.EntryAt(j)
  }

  lemma MatchingSymmetric(a: Physical, b: Physical)
    requires Matching(a, b)
    ensures Matching(b, a)
  {
  }

  // Scan down to the highest index with equal terms, then compare everything up to it.
  method ScanPair(a: Physical, b: Physical) returns (ok: bool)
    ensures ok <==> Matching(a, b)
  {
    var lo, hi := Lo(a, b), Hi(a, b);
    var top: nat := 0;
    var i: int := hi;
    while i >= lo && top == 0
      invariant i <= hi && (top > 0 ==> lo <= top <= hi && a.EntryAt(top).term == b.EntryAt(top).term)
      invariant i >= lo - 1 || i == hi
      invariant top == 0 ==> forall k: nat | i < k <= hi && lo <= k :: a.EntryAt(k).term != b.EntryAt(k).term
      invariant top > 0 ==> forall k: nat | top < k <= hi :: a.EntryAt(k).term != b.EntryAt(k).term
      decreases i - lo + 1, top == 0
    {
      if a.EntryAt(i).term == b.EntryAt(i).term {
        top := i;
      } else {
        i := i - 1;
      }
    }
    var j := lo;
    while j <= top
      invariant lo <= j && (j <= top + 1 || j == lo)
      invariant forall k: nat | lo <= k < j && k <= top :: a.EntryAt(k) == b.EntryAt(k)
    {
      if a.EntryAt(j) != b.EntryAt(j) {
        return false;
      }
      j := j + 1;
    }
    return true;
  }

  // ---- Leader Append-Only -----------------------------------------------------

  // On the part both still hold, the new log is shorter or differs.
  ghost predicate Mutated(was: Physical, now: Physical) {
    || now.Last() < was.Last()
    || exists i: nat :: Lo(was, now) <= i <= was.Last() && i <= now.Last() && was.EntryAt(i) != now.EntryAt(i)
  }

  method Compare(was: Physical, now: Physical) returns (mutated: bool)
    ensures mutated <==> Mutated(was, now)
  {
    if now.Last() < was.Last() {
      return true;
    }
    var i := Lo(was, now);
    while i <= was.Last()
      invariant Lo(was, now) <= i
      invariant forall k: nat | Lo(was, now) <= k < i && k <= was.Last() :: was.EntryAt(k) == now.EntryAt(k)
    {
      if was.EntryAt(i) != now.EntryAt(i) {
        return true;
      }
      i := i + 1;
    }
    return false;
  }

  lemma NeverMutatedItself(a: Physical)
    ensures !Mutated(a, a)
  {
  }

  // ---- Leader Completeness ----------------------------------------------------

  datatype Observed = Observed(entry: Entry, term: nat)

  // The entry is in the live log, or folded into the snapshot.
  predicate Holds(p: Physical, i: nat, e: Entry) {
    i <= p.base || (i <= p.Last() && p.EntryAt(i) == e)
  }

  ghost predicate Complete(p: Physical, term: nat, committed: map<nat, Observed>) {
    forall i | i in committed && committed[i].term <= term :: Holds(p, i, committed[i].entry)
  }

  method ScanCommitted(p: Physical, term: nat, committed: map<nat, Observed>) returns (ok: bool)
    ensures ok <==> Complete(p, term, committed)
  {
    var rest := committed.Keys;
    while rest != {}
      invariant rest <= committed.Keys
      invariant forall i | i in committed && i !in rest && committed[i].term <= term :: Holds(p, i, committed[i].entry)
      decreases |rest|
    {
      var i :| i in rest;
      if committed[i].term <= term && i > p.base && !(p.Last() >= i && p.EntryAt(i) == committed[i].entry) {
        return false;
      }
      rest := rest - {i};
    }
    return true;
  }

  // ---- the ids in order -------------------------------------------------------

  lemma {:induction false} Least(s: set<Id>) returns (m: Id)
    requires s != {}
    ensures m in s && forall x: Id | x in s :: m <= x
    decreases |s|
  {
    m :| m in s;
    var rest := s - {m};
    if rest != {} {
      var y := Least(rest);
      if y < m {
        m := y;
      }
    }
    forall x: Id | x in s
      ensures m <= x
    {
      assert x in rest || s - rest == {x};
    }
  }

  method Sorted(s: set<Id>) returns (ids: seq<Id>)
    ensures forall i: Id :: i in ids <==> i in s
    ensures forall j, k | 0 <= j < k < |ids| :: ids[j] < ids[k]
  {
    ids := [];
    var rest := s;
    while rest != {}
      invariant rest <= s && forall i: Id :: i in ids <==> i in s && i !in rest
      invariant forall j, k | 0 <= j < k < |ids| :: ids[j] < ids[k]
      invariant forall k, x | 0 <= k < |ids| && x in rest :: ids[k] < x
      decreases |rest|
    {
      ghost var least := Least(rest);
      var m :| m in rest && forall x: Id | x in rest :: m <= x;
      ids, rest := ids + [m], rest - {m};
    }
  }

  // ---- commits and applied commands -------------------------------------------

  predicate WellFormed(v: View) {
    v.live.base <= v.commit <= v.live.Last() && v.live.base + |v.applied| <= v.live.Last()
  }

  // Servers of this one's configuration that hold an entry.
  function HoldersOf(nodes: map<Id, View>, v: View, i: nat, e: Entry): set<Id> {
    set x | x in v.voters && x in nodes && Holds(nodes[x].live, i, e)
  }

  // This server newly exposes index k as committed.
  predicate NewAt(v: View, prev: nat, k: nat) {
    Max(prev, v.live.base) < k <= v.commit && k <= v.live.Last()
  }

  // And entry e there.
  predicate Exposes(v: View, prev: nat, k: nat, e: Entry) {
    NewAt(v, prev, k) && v.live.EntryAt(k) == e
  }

  function Prev(prevCommit: map<Id, nat>, i: Id): nat {
    if i in prevCommit then prevCommit[i] else 0
  }

  ghost predicate CommitsMonotone(nodes: map<Id, View>, prev: map<Id, nat>) {
    forall i | i in nodes :: Prev(prev, i) <= nodes[i].commit
  }

  // What is newly exposed agrees with what was observed, and among itself.
  ghost predicate CommitsAgree(nodes: map<Id, View>, prev: map<Id, nat>, committed: map<nat, Observed>) {
    && (forall i, k: nat, e | i in nodes && Exposes(nodes[i], Prev(prev, i), k, e) && k in committed :: committed[k].entry == e)
    && (forall i, j, k: nat, e, f | i in nodes && j in nodes
          && Exposes(nodes[i], Prev(prev, i), k, e) && Exposes(nodes[j], Prev(prev, j), k, f) :: e == f)
  }

  // Every index above the ceiling that a server exposes is held by a majority of its
  // configuration.
  predicate Backed(nodes: map<Id, View>, v: View, k: nat, e: Entry) {
    2 * |HoldersOf(nodes, v, k, e)| > |v.voters|
  }

  ghost predicate CommitsBacked(nodes: map<Id, View>, prev: map<Id, nat>, ceiling: nat) {
    forall i, k: nat, e | i in nodes && Exposes(nodes[i], Prev(prev, i), k, e) && k > ceiling :: Backed(nodes, nodes[i], k, e)
  }

  // No server with a smaller id has committed index k.
  predicate Unreached(nodes: map<Id, View>, i: Id, k: nat) {
    forall x | x in nodes && x < i :: nodes[x].commit < k
  }

  // The same, judged on the first server, in the order of ids, to reach each such index: the
  // ceiling rises as servers are looked at.
  ghost predicate FirstBacked(nodes: map<Id, View>, prev: map<Id, nat>, ceiling: nat) {
    forall i, k: nat, e | i in nodes && Exposes(nodes[i], Prev(prev, i), k, e) && k > ceiling && Unreached(nodes, i, k) ::
      Backed(nodes, nodes[i], k, e)
  }

  // This is the first server, in the order of ids, to newly expose index k, and o what it shows.
  predicate FirstShows(nodes: map<Id, View>, prev: map<Id, nat>, i: Id, k: nat, o: Observed)
    requires i in nodes
  {
    && Exposes(nodes[i], Prev(prev, i), k, o.entry) && o.term == nodes[i].term
    && forall x | x in nodes && x < i :: !NewAt(nodes[x], Prev(prev, x), k)
  }

  // The record with everything newly exposed on it, each entry with the term of the server
  // that showed it first.
  ghost predicate Logged(now: map<nat, Observed>, was: map<nat, Observed>, nodes: map<Id, View>, prev: map<Id, nat>) {
    && (forall k | k in was :: k in now && now[k] == was[k])
    && (forall i, k: nat, e | i in nodes && Exposes(nodes[i], Prev(prev, i), k, e) :: k in now && now[k].entry == e)
    && (forall k | k in now && k !in was :: exists i :: i in nodes && FirstShows(nodes, prev, i, k, now[k]))
  }

  // There is only one such record.
  lemma LoggedOnce(a: map<nat, Observed>, b: map<nat, Observed>, was: map<nat, Observed>, nodes: map<Id, View>, prev: map<Id, nat>)
    requires Logged(a, was, nodes, prev) && Logged(b, was, nodes, prev)
    ensures a == b
  {
    forall k | k in a
      ensures k in b && b[k] == a[k]
    {
      LoggedAt(a, b, was, nodes, prev, k);
    }
    forall k | k in b
      ensures k in a
    {
      LoggedAt(b, a, was, nodes, prev, k);
    }
  }

  lemma LoggedAt(a: map<nat, Observed>, b: map<nat, Observed>, was: map<nat, Observed>, nodes: map<Id, View>, prev: map<Id, nat>, k: nat)
    requires Logged(a, was, nodes, prev) && Logged(b, was, nodes, prev) && k in a
    ensures k in b && b[k] == a[k]
  {
    if k !in was {
      var i :| i in nodes && FirstShows(nodes, prev, i, k, a[k]);
      assert Exposes(nodes[i], Prev(prev, i), k, a[k].entry);
      var j :| j in nodes && FirstShows(nodes, prev, j, k, b[k]);
      assert NewAt(nodes[i], Prev(prev, i), k) && NewAt(nodes[j], Prev(prev, j), k);
    }
  }

  // o is what this server shows at index k.
  predicate Shows(v: View, k: nat, o: Observed) {
    v.live.base < k <= v.commit && k <= v.live.Last() && o == Observed(v.live.EntryAt(k), v.term)
  }

  // ---- applied commands -------------------------------------------------------

  // This server shows payload p applied at index k.
  predicate ShowsApplied(v: View, k: nat, p: Payload) {
    v.live.base < k <= v.live.base + |v.applied| && v.applied[k - v.live.base - 1] == p
  }

  ghost predicate AppliedAgree(nodes: map<Id, View>, appliedAt: map<nat, Payload>) {
    && (forall i, k: nat, p | i in nodes && ShowsApplied(nodes[i], k, p) && k in appliedAt :: appliedAt[k] == p)
    && (forall i, j, k: nat, p, q | i in nodes && j in nodes && ShowsApplied(nodes[i], k, p) && ShowsApplied(nodes[j], k, q) :: p == q)
  }

  // It shows it above what was already looked at.
  predicate ShowsNew(v: View, seen: nat, k: nat, p: Payload) {
    k > seen && ShowsApplied(v, k, p)
  }

  // What is newly shown agrees with the record, and among itself.
  ghost predicate NewlyAgree(nodes: map<Id, View>, seen: map<Id, nat>, appliedAt: map<nat, Payload>) {
    && (forall i, k: nat, p | i in nodes && ShowsNew(nodes[i], Prev(seen, i), k, p) && k in appliedAt :: appliedAt[k] == p)
    && (forall i, j, k: nat, p, q | i in nodes && j in nodes
          && ShowsNew(nodes[i], Prev(seen, i), k, p) && ShowsNew(nodes[j], Prev(seen, j), k, q) :: p == q)
  }

  lemma AgreeNewly(nodes: map<Id, View>, seen: map<Id, nat>, appliedAt: map<nat, Payload>)
    requires AppliedAgree(nodes, appliedAt)
    ensures NewlyAgree(nodes, seen, appliedAt)
  {
  }

  // The record with everything newly shown on it.
  ghost predicate AppliedLogged(now: map<nat, Payload>, was: map<nat, Payload>, nodes: map<Id, View>, seen: map<Id, nat>) {
    && (forall k | k in was :: k in now && now[k] == was[k])
    && (forall i, k: nat, p | i in nodes && ShowsNew(nodes[i], Prev(seen, i), k, p) :: k in now && now[k] == p)
    && (forall k | k in now && k !in was :: exists i :: i in nodes && ShowsNew(nodes[i], Prev(seen, i), k, now[k]))
  }
}
