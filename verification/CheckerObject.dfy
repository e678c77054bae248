// The checker object with its caches. A check skipped because a log's version has not
// changed since it last passed would have passed again, so each check is decided by what the
// servers show and what the checker remembers, never by what it skipped. The verdict of all
// of them together is the first that fails, in the program's order; a silent check leaves
// the records of leaders, commits and applied commands with exactly what was shown added.
module CheckerObject {
  import opened Prelude
  import opened RaftTypes
  import opened Checker

  type Views = map<Id, View>

  datatype LeaderSnapshot = LeaderSnapshot(term: nat, version: nat, live: Physical)

  class InvariantChecker {
    var leadersByTerm: map<nat, Id>
    var committed: map<nat, Observed>
    var appliedAt: map<nat, Payload>
    var maxCommit: nat
    var prevCommit: map<Id, nat>
    var appliedSeen: map<Id, nat>
    var lastIncarnation: map<Id, nat>
    var leaderSnapshots: map<Id, LeaderSnapshot>
    var pairChecked: map<(Id, Id), (nat, nat)>
    var completenessChecked: map<Id, (nat, nat, nat)>

    // what log each version of each server stood for
    ghost var meaning: map<(Id, nat), Physical>

    // A version never names two different logs of a server.
    ghost predicate Consistent(nodes: Views)
      reads `meaning
    {
      forall i | i in nodes && (i, nodes[i].version) in meaning :: meaning[(i, nodes[i].version)] == nodes[i].live
    }

    ghost predicate Recorded(nodes: Views)
      reads `meaning
    {
      forall i | i in nodes :: (i, nodes[i].version) in meaning && meaning[(i, nodes[i].version)] == nodes[i].live
    }

    ghost predicate PairsOk()
      reads `pairChecked, `meaning
    {
      forall p | p in pairChecked ::
        && (p.0, pairChecked[p].0) in meaning && (p.1, pairChecked[p].1) in meaning
        && Matching(meaning[(p.0, pairChecked[p].0)], meaning[(p.1, pairChecked[p].1)])
    }

    ghost predicate SnapshotsOk()
      reads `leaderSnapshots, `meaning
    {
      forall i | i in leaderSnapshots ::
        (i, leaderSnapshots[i].version) in meaning && meaning[(i, leaderSnapshots[i].version)] == leaderSnapshots[i].live
    }

    // The commit record only grows, so its size says whether it has changed.
    ghost predicate CompletenessOk()
      reads `completenessChecked, `committed, `meaning
    {
      forall i | i in completenessChecked ::
        var (term, version, size) := completenessChecked[i];
        && (i, version) in meaning && size <= |committed|
        && (size == |committed| ==> Complete(meaning[(i, version)], term, committed))
    }

    ghost predicate Valid()
      reads `pairChecked, `leaderSnapshots, `completenessChecked, `committed, `meaning
    {
      PairsOk() && SnapshotsOk() && CompletenessOk()
    }

    constructor ()
      ensures Valid() && meaning == map[]
      ensures leadersByTerm == map[] && committed == map[] && appliedAt == map[] && maxCommit == 0
      ensures prevCommit == map[] && appliedSeen == map[] && lastIncarnation == map[] && leaderSnapshots == map[]
    {
      leadersByTerm, committed, appliedAt, maxCommit := map[], map[], map[], 0;
      prevCommit, appliedSeen, lastIncarnation, leaderSnapshots := map[], map[], map[], map[];
      pairChecked, completenessChecked, meaning := map[], map[], map[];
    }

    // ---- Log Matching ---------------------------------------------------------

    // Silent exactly when every two live logs match, whatever was skipped.
    method CheckLogMatching(nodes: Views, ids: seq<Id>) returns (bad: bool)
      requires Valid() && Recorded(nodes) && forall i: Id :: i in ids <==> i in nodes
      modifies `pairChecked
      ensures Valid()
      ensures !bad <==> forall i, j | i in nodes && j in nodes :: Matching(nodes[i].live, nodes[j].live)
    {
      bad := false;
      for ai := 0 to |ids|
        invariant PairsOk()
        invariant forall x, y | 0 <= x < ai && x < y < |ids| :: Matching(nodes[ids[x]].live, nodes[ids[y]].live)
      {
        var ok := CheckAgainst(nodes, ids, ai);
        if !ok {
          return true;
        }
      }
      forall i, j | i in nodes && j in nodes
        ensures Matching(nodes[i].live, nodes[j].live)
      {
        var x :| 0 <= x < |ids| && ids[x] == i;
        var y :| 0 <= y < |ids| && ids[y] == j;
        if x < y {
        } else if y < x {
          MatchingSymmetric(nodes[j].live, nodes[i].live);
        }
      }
    }

    // One server against the ones after it.
    method CheckAgainst(nodes: Views, ids: seq<Id>, ai: nat) returns (ok: bool)
      requires PairsOk() && Recorded(nodes) && ai < |ids| && forall k | 0 <= k < |ids| :: ids[k] in nodes
      modifies `pairChecked
      ensures PairsOk()
      ensures ok ==> forall y | ai < y < |ids| :: Matching(nodes[ids[ai]].live, nodes[ids[y]].live)
      ensures !ok ==> exists y :: ai < y < |ids| && !Matching(nodes[ids[ai]].live, nodes[ids[y]].live)
    {
      var a := nodes[ids[ai]];
      for bi := ai + 1 to |ids|
        invariant PairsOk()
        invariant forall y | ai < y < bi :: Matching(a.live, nodes[ids[y]].live)
      {
        var b := nodes[ids[bi]];
        var key, versions := (ids[ai], ids[bi]), (a.version, b.version);
        if key in pairChecked && pairChecked[key] == versions {
          continue;
        }
        var matches := ScanPair(a.live, b.live);
        if !matches {
          return false;
        }
        pairChecked := pairChecked[key := versions];
      }
      return true;
    }

    // ---- Leader Append-Only ---------------------------------------------------

    // Fires exactly when a server that led this term when last seen has since shortened or
    // changed its log, and remembers the leaders of now.
    method CheckLeaderAppendOnly(nodes: Views, ids: seq<Id>) returns (bad: bool)
      requires Valid() && Recorded(nodes) && forall i: Id :: i in ids <==> i in nodes
      requires forall j, k | 0 <= j < k < |ids| :: ids[j] < ids[k]
      modifies `leaderSnapshots
      ensures Valid()
      ensures bad <==> exists i :: i in nodes && Rewrote(old(leaderSnapshots), i, nodes[i])
      ensures !bad ==> Remembered(leaderSnapshots, old(leaderSnapshots), nodes)
    {
      hide Rewrote, Remembers;
      ghost var before := leaderSnapshots;
      for k := 0 to |ids|
        invariant SnapshotsOk()
        invariant forall j | 0 <= j < k :: !Rewrote(before, ids[j], nodes[ids[j]]) && Remembers(leaderSnapshots, ids[j], nodes[ids[j]])
        invariant forall j | k <= j < |ids| :: SameAt(leaderSnapshots, before, ids[j])
        invariant forall i: Id | i !in nodes :: SameAt(leaderSnapshots, before, i)
      {
        ghost var now := leaderSnapshots;
        var mutated := CheckLeader(ids[k], nodes[ids[k]]);
        RewroteSame(now, before, ids[k], nodes[ids[k]]);
        if mutated {
          return true;
        }
        forall j | 0 <= j < k
          ensures Remembers(leaderSnapshots, ids[j], nodes[ids[j]])
        {
          RemembersSame(now, leaderSnapshots, ids[j], nodes[ids[j]]);
        }
        forall j | k < j < |ids|
          ensures SameAt(leaderSnapshots, before, ids[j])
        {
          assert SameAt(leaderSnapshots, now, ids[j]) && SameAt(now, before, ids[j]);
        }
        forall i: Id | i !in nodes
          ensures SameAt(leaderSnapshots, before, i)
        {
          assert SameAt(leaderSnapshots, now, i) && SameAt(now, before, i);
        }
      }
      AllOf(nodes, ids);
      return false;
    }

    method CheckLeader(i: Id, n: View) returns (mutated: bool)
      requires SnapshotsOk() && (i, n.version) in meaning && meaning[(i, n.version)] == n.live
      modifies `leaderSnapshots
      ensures SnapshotsOk() && mutated == Rewrote(old(leaderSnapshots), i, n)
      ensures !mutated ==> Remembers(leaderSnapshots, i, n)
      ensures forall j: Id | j != i :: SameAt(leaderSnapshots, old(leaderSnapshots), j)
    {
      if !n.leader {
        leaderSnapshots := leaderSnapshots - {i};
        return false;
      }
      var now := LeaderSnapshot(n.term, n.version, n.live);
      if i !in leaderSnapshots || leaderSnapshots[i].term != n.term {
        leaderSnapshots := leaderSnapshots[i := now];
        return false;
      }
      if leaderSnapshots[i].version == n.version {
        NeverMutatedItself(n.live);
        return false;
      }
      mutated := Compare(leaderSnapshots[i].live, n.live);
      if !mutated {
        leaderSnapshots := leaderSnapshots[i := now];
      }
    }

    // ---- Leader Completeness --------------------------------------------------

    // Silent exactly when every leader holds every committed entry of its term or earlier.
    method CheckLeaderCompleteness(nodes: Views, ids: seq<Id>) returns (bad: bool)
      requires Valid() && Recorded(nodes) && forall i: Id :: i in ids <==> i in nodes
      modifies `completenessChecked
      ensures Valid()
      ensures !bad <==> forall i | i in nodes && nodes[i].leader :: Complete(nodes[i].live, nodes[i].term, committed)
    {
      for k := 0 to |ids|
        invariant CompletenessOk()
        invariant forall j | 0 <= j < k :: nodes[ids[j]].leader ==> Complete(nodes[ids[j]].live, nodes[ids[j]].term, committed)
      {
        var i, n := ids[k], nodes[ids[k]];
        if !n.leader {
          completenessChecked := completenessChecked - {i};
          continue;
        }
        var state := (n.term, n.version, |committed|);
        if i in completenessChecked && completenessChecked[i] == state {
          continue;
        }
        var ok := ScanCommitted(n.live, n.term, committed);
        if !ok {
          return true;
        }
        completenessChecked := completenessChecked[i := state];
      }
      forall i | i in nodes && nodes[i].leader
        ensures Complete(nodes[i].live, nodes[i].term, committed)
      {
        var j :| 0 <= j < |ids| && ids[j] == i;
      }
      return false;
    }

    // ---- Election Safety ------------------------------------------------------

    // Fires exactly when some leader's term is already another server's.
    method CheckElectionSafety(nodes: Views, ids: seq<Id>) returns (bad: bool)
      requires forall i: Id :: i in ids <==> i in nodes
      modifies `leadersByTerm
      ensures !bad <==> OneLeaderEach(old(leadersByTerm), nodes)
      ensures !bad ==> forall t :: t in leadersByTerm <==> t in old(leadersByTerm) || exists i :: i in nodes && nodes[i].leader && nodes[i].term == t
      ensures !bad ==> forall t | t in leadersByTerm :: KnownLeader(leadersByTerm[t], t, old(leadersByTerm), nodes)
    {
      ghost var before := leadersByTerm;
      for k := 0 to |ids|
        invariant forall t | t in before :: t in leadersByTerm && leadersByTerm[t] == before[t]
        invariant forall t | t in leadersByTerm :: KnownLeader(leadersByTerm[t], t, before, nodes)
        invariant forall j | 0 <= j < k && nodes[ids[j]].leader ::
          nodes[ids[j]].term in leadersByTerm && leadersByTerm[nodes[ids[j]].term] == ids[j]
      {
        var i, n := ids[k], nodes[ids[k]];
        if n.leader {
          if n.term !in leadersByTerm {
            leadersByTerm := leadersByTerm[n.term := i];
          }
          if leadersByTerm[n.term] != i {
            return true;
          }
        }
      }
      forall i | i in nodes && nodes[i].leader
        ensures nodes[i].term in leadersByTerm && leadersByTerm[nodes[i].term] == i
      {
        var j :| 0 <= j < |ids| && ids[j] == i;
      }
      return false;
    }

    // ---- commits --------------------------------------------------------------

    // One server's newly exposed commits, put on record unless one of them disagrees with
    // what was observed, or is new to everybody and not held by a majority.
    method ObserveServer(nodes: Views, i: Id) returns (bad: Option<Violation>)
      requires i in nodes && WellFormed(nodes[i])
      modifies `committed, `maxCommit, `prevCommit
      ensures bad.None? ==> Prev(old(prevCommit), i) <= nodes[i].commit
      ensures bad.None? ==> prevCommit == old(prevCommit)[i := nodes[i].commit] && maxCommit == Max(old(maxCommit), nodes[i].commit)
      ensures bad.None? ==> OnRecord(committed, old(committed), nodes[i], Prev(old(prevCommit), i), nodes[i].commit)
      ensures bad.None? ==> AllBacked(nodes, i, Prev(old(prevCommit), i), old(maxCommit), nodes[i].commit)
      ensures bad.Some? ==> Reason(nodes, i, old(prevCommit), old(committed), old(maxCommit), bad.value)
    {
      var n, prev := nodes[i], Prev(prevCommit, i);
      if n.commit < prev {
        return Some(CommitIndexMonotonic);
      }
      var k := Max(prev, n.live.base) + 1;
      while k <= n.commit
        invariant Max(prev, n.live.base) < k <= n.commit + 1
        invariant OnRecord(committed, old(committed), n, prev, k - 1) && AllBacked(nodes, i, prev, maxCommit, k - 1)
        invariant prevCommit == old(prevCommit) && maxCommit == old(maxCommit)
      {
        var entry := n.live.EntryAt(k);
        assert Exposes(n, prev, k, entry);
        if k !in committed {
          committed := committed[k := Observed(entry, n.term)];
        } else if committed[k].entry != entry {
          return Some(StateMachineSafety);
        }
        if k > maxCommit {
          if |HoldersOf(nodes, n, k, entry)| * 2 <= |n.voters| {
            return Some(CommitQuorum);
          }
        }
        k := k + 1;
      }
      maxCommit := Max(maxCommit, n.commit);
      prevCommit := prevCommit[i := n.commit];
      return None;
    }

    // Silent exactly when nothing regressed, everything newly exposed agrees, and each index
    // new to everybody is backed on the first server that shows it. When silent, all of it
    // is on record; when not, what is reported is wrong.
    method ObserveCommits(nodes: Views, ids: seq<Id>) returns (bad: Option<Violation>)
      requires forall i: Id :: i in ids <==> i in nodes
      requires forall j, k | 0 <= j < k < |ids| :: ids[j] < ids[k]
      requires forall i | i in nodes :: WellFormed(nodes[i])
      modifies `committed, `maxCommit, `prevCommit
      ensures bad.None? <==> CommitsWell(nodes, old(prevCommit), old(committed), old(maxCommit))
      ensures bad.Some? ==> Blamed(nodes, old(prevCommit), old(committed), old(maxCommit), bad.value)
      ensures bad.None? ==> Logged(committed, old(committed), nodes, old(prevCommit))
      ensures bad.None? ==> forall i | i in nodes :: i in prevCommit && prevCommit[i] == nodes[i].commit <= maxCommit
      ensures bad.None? ==> old(maxCommit) <= maxCommit
    {
      hide Exposes, Logged, Listed, BackedSoFar, FirstBacked, CommitsMonotone, CommitsAgree, OnRecord, AllBacked, Reason, CommitsWell, Blamed, Reached;
      ghost var was, prev, ceiling := committed, prevCommit, maxCommit;
      NothingListed(nodes, ids, prev, was, ceiling);
      for k := 0 to |ids|
        invariant forall j | 0 <= j < k :: ids[j] in prevCommit && prevCommit[ids[j]] == nodes[ids[j]].commit <= maxCommit
        invariant forall j | 0 <= j < k :: Prev(prev, ids[j]) <= nodes[ids[j]].commit
        invariant forall j | k <= j < |ids| :: Prev(prevCommit, ids[j]) == Prev(prev, ids[j])
        invariant Reached(nodes, ids, ceiling, maxCommit, k)
        invariant Listed(nodes, ids, prev, was, committed, k) && BackedSoFar(nodes, ids, prev, ceiling, k)
      {
        ghost var now, top, before := committed, maxCommit, prevCommit;
        bad := ObserveServer(nodes, ids[k]);
        if bad.Some? {
          ReasonHolds(nodes, ids, prev, was, ceiling, now, top, before, k, bad.value);
          return;
        }
        ListedMore(nodes, ids, prev, was, now, committed, k);
        BackedMore(nodes, ids, prev, ceiling, top, k);
      }
      AllListed(nodes, ids, prev, was, committed, ceiling);
      assert ceiling <= maxCommit by { CeilingKept(nodes, ids, ceiling, maxCommit, |ids|); }
      return None;
    }

    // ---- applied commands -----------------------------------------------------

    // Silent exactly when the commands not looked at before agree with those first seen at
    // their indices; when silent, they are all on record and count as looked at.
    method CheckApplied(nodes: Views, ids: seq<Id>) returns (bad: bool)
      requires forall i: Id :: i in ids <==> i in nodes
      requires forall j, k | 0 <= j < k < |ids| :: ids[j] < ids[k]
      modifies `appliedAt, `appliedSeen
      ensures !bad <==> NewlyAgree(nodes, old(appliedSeen), old(appliedAt))
      ensures !bad ==> AppliedLogged(appliedAt, old(appliedAt), nodes, old(appliedSeen))
      ensures !bad ==> forall i | i in nodes :: i in appliedSeen && appliedSeen[i] == LookedAt(nodes[i], Prev(old(appliedSeen), i))
    {
      hide NewlyAgree, ShowsNew, AppliedListed, AppliedOnRecord, AppliedLogged, LookedAt;
      ghost var was, seen := appliedAt, appliedSeen;
      NoneAppliedListed(nodes, ids, seen, was);
      for k := 0 to |ids|
        invariant AppliedListed(nodes, ids, seen, was, appliedAt, k)
        invariant forall j | 0 <= j < k :: ids[j] in appliedSeen && appliedSeen[ids[j]] == LookedAt(nodes[ids[j]], Prev(seen, ids[j]))
        invariant forall j | k <= j < |ids| :: Prev(appliedSeen, ids[j]) == Prev(seen, ids[j])
      {
        ghost var now := appliedAt;
        bad := CheckAppliedBy(nodes[ids[k]], ids[k]);
        if bad {
          AppliedClash(nodes, ids, seen, was, now, k);
          return;
        }
        AppliedListedMore(nodes, ids, seen, was, now, appliedAt, k);
      }
      AllAppliedListed(nodes, ids, seen, was, appliedAt);
      return false;
    }

    // One server's newly shown commands, put on record unless one of them disagrees with it.
    method CheckAppliedBy(n: View, i: Id) returns (bad: bool)
      modifies `appliedAt, `appliedSeen
      ensures bad ==> Clashes(n, Prev(old(appliedSeen), i), old(appliedAt))
      ensures !bad ==> AppliedOnRecord(appliedAt, old(appliedAt), n, Prev(old(appliedSeen), i), n.live.base + |n.applied|)
      ensures !bad ==> appliedSeen == old(appliedSeen)[i := LookedAt(n, Prev(old(appliedSeen), i))]
    {
      var seen := Prev(appliedSeen, i);
      var top := n.live.base + |n.applied|;
      var k := Max(seen, n.live.base) + 1;
      while k <= top
        invariant Max(seen, n.live.base) < k
        invariant AppliedOnRecord(appliedAt, old(appliedAt), n, seen, k - 1)
        invariant appliedSeen == old(appliedSeen)
      {
        var p := n.applied[k - n.live.base - 1];
        assert ShowsNew(n, seen, k, p);
        if k !in appliedAt {
          appliedAt := appliedAt[k := p];
        }
        if appliedAt[k] != p {
          return true;
        }
        k := k + 1;
      }
      appliedSeen := appliedSeen[i := Max(seen, top)];
      return false;
    }

    // ---- crash rebasing -------------------------------------------------------

    // A restart may reset commit and apply progress: take the fresh values as the baseline.
    method HandleRestarts(nodes: Views, ids: seq<Id>)
      requires forall i: Id :: i in ids <==> i in nodes
      requires forall j, k | 0 <= j < k < |ids| :: ids[j] < ids[k]
      modifies `lastIncarnation, `prevCommit, `appliedSeen
      ensures forall i | i in nodes :: i in lastIncarnation && lastIncarnation[i] == nodes[i].incarnation
      ensures forall i | i in nodes :: Prev(prevCommit, i) == Baseline(old(lastIncarnation), old(prevCommit), i, nodes[i])
      ensures forall i | i in nodes :: Prev(appliedSeen, i) == SeenBaseline(old(lastIncarnation), old(appliedSeen), i, nodes[i])
    {
      hide Prev;
      for k := 0 to |ids|
        invariant forall j | 0 <= j < k :: ids[j] in lastIncarnation && lastIncarnation[ids[j]] == nodes[ids[j]].incarnation
        invariant forall j | 0 <= j < k :: Prev(prevCommit, ids[j]) == Baseline(old(lastIncarnation), old(prevCommit), ids[j], nodes[ids[j]])
        invariant forall j | 0 <= j < k :: Prev(appliedSeen, ids[j]) == SeenBaseline(old(lastIncarnation), old(appliedSeen), ids[j], nodes[ids[j]])
        invariant forall j | k <= j < |ids| :: Prev(prevCommit, ids[j]) == Prev(old(prevCommit), ids[j])
        invariant forall j | k <= j < |ids| :: Prev(appliedSeen, ids[j]) == Prev(old(appliedSeen), ids[j])
        invariant forall j | k <= j < |ids| :: SameIncarnation(lastIncarnation, old(lastIncarnation), ids[j])
      {
        assert ids[k] in nodes;
        NoteIncarnation(ids[k], nodes[ids[k]]);
      }
      AllOf(nodes, ids);
    }

    method NoteIncarnation(i: Id, n: View)
      modifies `lastIncarnation, `prevCommit, `appliedSeen
      ensures lastIncarnation == old(lastIncarnation)[i := n.incarnation]
      ensures Prev(prevCommit, i) == Baseline(old(lastIncarnation), old(prevCommit), i, n)
      ensures Prev(appliedSeen, i) == SeenBaseline(old(lastIncarnation), old(appliedSeen), i, n)
      ensures forall j: Id | j != i :: Prev(prevCommit, j) == Prev(old(prevCommit), j) && Prev(appliedSeen, j) == Prev(old(appliedSeen), j)
    {
      var restarted := i in lastIncarnation && lastIncarnation[i] != n.incarnation;
      lastIncarnation := lastIncarnation[i := n.incarnation];
      if restarted {
        prevCommit := prevCommit[i := n.commit];
        appliedSeen := appliedSeen[i := n.live.base + |n.applied|];
      }
    }

    // ---- all of them ----------------------------------------------------------

    // Everything Check compares the servers with.
    ghost function Records(): Memory
      reads this
    {
      Memory(leadersByTerm, leaderSnapshots, committed, maxCommit, prevCommit, lastIncarnation, appliedAt, appliedSeen)
    }

    // The checks in the program's order: the verdict is the first that fails, if any does,
    // and a silent check leaves the records up to date.
    method Check(nodes: Views) returns (v: Option<Violation>)
      requires Valid() && Consistent(nodes) && forall i | i in nodes :: WellFormed(nodes[i])
      modifies this
      ensures meaning == Named(old(meaning), nodes)
      ensures Verdict(old(Records()), nodes, v)
      ensures v.None? ==> Valid() && Updated(old(Records()), Records(), nodes)
    {
      hide OneLeaderEach, LeadersQuiet, LogsMatch, CommitsWell, Blamed, AllComplete, NewlyAgree, Remembered, Logged, WellFormed, KnownLeaders, AppliedLogged, Rebased, SeenRebased, Baseline, SeenBaseline, LookedAt, Named, Prev, Valid, Consistent, Recorded;
      var ids := Sorted(nodes.Keys);
      NameLogs(nodes);
      HandleRestarts(nodes, ids);
      ghost var was := old(Records());
      SameBaseline(nodes, prevCommit, was);
      SameSeen(nodes, appliedSeen, was);
      v := CheckLogs(nodes, ids);
      if v.Some? {
        return;
      }
      v := CheckCommits(nodes, ids);
    }

    // Elections and logs.
    method CheckLogs(nodes: Views, ids: seq<Id>) returns (v: Option<Violation>)
      requires Valid() && Recorded(nodes) && forall i: Id :: i in ids <==> i in nodes
      requires forall j, k | 0 <= j < k < |ids| :: ids[j] < ids[k]
      modifies `leadersByTerm, `leaderSnapshots, `pairChecked
      ensures v == (if !OneLeaderEach(old(leadersByTerm), nodes) then Some(ElectionSafety)
                    else if !LeadersQuiet(old(leaderSnapshots), nodes) then Some(LeaderAppendOnly)
                    else if !LogsMatch(nodes) then Some(LogMatching) else None)
      ensures v.None? ==> Valid() && KnownLeaders(leadersByTerm, old(leadersByTerm), nodes)
      ensures v.None? ==> Remembered(leaderSnapshots, old(leaderSnapshots), nodes)
    {
      hide OneLeaderEach, Matching, Remembered, KnownLeader, Rewrote;
      var bad := CheckElectionSafety(nodes, ids);
      if bad {
        return Some(ElectionSafety);
      }
      bad := CheckLeaderAppendOnly(nodes, ids);
      if bad {
        return Some(LeaderAppendOnly);
      }
      bad := CheckLogMatching(nodes, ids);
      if bad {
        return Some(LogMatching);
      }
      return None;
    }

    // Commits, leaders' possession of them, and applied commands.
    method CheckCommits(nodes: Views, ids: seq<Id>) returns (v: Option<Violation>)
      requires Valid() && Recorded(nodes) && forall i: Id :: i in ids <==> i in nodes
      requires forall j, k | 0 <= j < k < |ids| :: ids[j] < ids[k]
      requires forall i | i in nodes :: WellFormed(nodes[i])
      modifies `committed, `maxCommit, `prevCommit, `completenessChecked, `appliedAt, `appliedSeen
      ensures LaterVerdict(nodes, old(prevCommit), old(committed), old(maxCommit), old(appliedSeen), old(appliedAt), v)
      ensures v.None? ==> Valid() && Logged(committed, old(committed), nodes, old(prevCommit)) && old(maxCommit) <= maxCommit
      ensures v.None? ==> forall i | i in nodes :: i in prevCommit && prevCommit[i] == nodes[i].commit <= maxCommit
      ensures v.None? ==> AppliedLogged(appliedAt, old(appliedAt), nodes, old(appliedSeen))
      ensures v.None? ==> forall i | i in nodes :: i in appliedSeen && appliedSeen[i] == LookedAt(nodes[i], Prev(old(appliedSeen), i))
    {
      hide CommitsWell, Blamed, Complete, NewlyAgree, Logged, WellFormed, AppliedLogged, LookedAt;
      ghost var prev, was := prevCommit, committed;
      v := ObserveAll(nodes, ids);
      if v.Some? {
        return;
      }
      OneRecord(committed, was, nodes, prev);
      var bad := CheckLeaderCompleteness(nodes, ids);
      if bad {
        return Some(LeaderCompleteness);
      }
      bad := CheckApplied(nodes, ids);
      if bad {
        return Some(StateMachineSafety);
      }
      return None;
    }

    // Commits only ever add to the record, so what passed for its old size need not pass
    // for the new one, and is not assumed to.
    method ObserveAll(nodes: Views, ids: seq<Id>) returns (v: Option<Violation>)
      requires Valid() && forall i: Id :: i in ids <==> i in nodes
      requires forall j, k | 0 <= j < k < |ids| :: ids[j] < ids[k]
      requires forall i | i in nodes :: WellFormed(nodes[i])
      modifies `committed, `maxCommit, `prevCommit
      ensures v.None? ==> Valid()
      ensures v.Some? ==> PairsOk() && SnapshotsOk()
      ensures v.None? <==> CommitsWell(nodes, old(prevCommit), old(committed), old(maxCommit))
      ensures v.Some? ==> Blamed(nodes, old(prevCommit), old(committed), old(maxCommit), v.value)
      ensures v.None? ==> Logged(committed, old(committed), nodes, old(prevCommit)) && old(maxCommit) <= maxCommit
      ensures v.None? ==> forall i | i in nodes :: i in prevCommit && prevCommit[i] == nodes[i].commit <= maxCommit
    {
      hide CommitsWell, Blamed;
      ghost var was := committed;
      v := ObserveCommits(nodes, ids);
      if v.None? {
        GrowthShows(was, committed);
      }
    }

    // Ghost only: note what log each version stands for.
    ghost method NameLogs(nodes: Views)
      requires Valid() && Consistent(nodes)
      modifies `meaning
      ensures Valid() && Recorded(nodes) && meaning == Named(old(meaning), nodes)
    {
      meaning := Named(meaning, nodes);
    }
  }

  // What the checker remembers between calls.
  datatype Memory = Memory(
    leadersByTerm: map<nat, Id>,
    leaderSnapshots: map<Id, LeaderSnapshot>,
    committed: map<nat, Observed>,
    maxCommit: nat,
    prevCommit: map<Id, nat>,
    lastIncarnation: map<Id, nat>,
    appliedAt: map<nat, Payload>,
    appliedSeen: map<Id, nat>)

  ghost function Named(meaning: map<(Id, nat), Physical>, nodes: Views): map<(Id, nat), Physical> {
    meaning + map i | i in nodes :: (i, nodes[i].version) := nodes[i].live
  }

  // ---- the verdict ------------------------------------------------------------

  // The baselines after restarts have been noticed.
  function Rebased(m: Memory, nodes: Views): map<Id, nat> {
    map i | i in nodes :: Baseline(m.lastIncarnation, m.prevCommit, i, nodes[i])
  }

  function SeenRebased(m: Memory, nodes: Views): map<Id, nat> {
    map i | i in nodes :: SeenBaseline(m.lastIncarnation, m.appliedSeen, i, nodes[i])
  }

  // How far a server's applied commands have been looked at, after looking.
  function LookedAt(n: View, seen: nat): nat {
    Max(seen, n.live.base + |n.applied|)
  }

  // No leader has rewritten its log.
  ghost predicate LeadersQuiet(before: map<Id, LeaderSnapshot>, nodes: Views) {
    forall i | i in nodes :: !Rewrote(before, i, nodes[i])
  }

  ghost predicate LogsMatch(nodes: Views) {
    forall i, j | i in nodes && j in nodes :: Matching(nodes[i].live, nodes[j].live)
  }

  ghost predicate CommitsWell(nodes: Views, prev: map<Id, nat>, committed: map<nat, Observed>, ceiling: nat) {
    CommitsMonotone(nodes, prev) && CommitsAgree(nodes, prev, committed) && FirstBacked(nodes, prev, ceiling)
  }

  // What a violation found while observing commits says is so.
  ghost predicate Blamed(nodes: Views, prev: map<Id, nat>, committed: map<nat, Observed>, ceiling: nat, v: Violation) {
    match v
    case CommitIndexMonotonic => !CommitsMonotone(nodes, prev)
    case StateMachineSafety => !CommitsAgree(nodes, prev, committed)
    case CommitQuorum => !FirstBacked(nodes, prev, ceiling)
    case _ => false
  }

  ghost predicate LeadersComplete(committed: map<nat, Observed>, nodes: Views) {
    forall i | i in nodes && nodes[i].leader :: Complete(nodes[i].live, nodes[i].term, committed)
  }

  // Leaders hold what is on record once the new commits are.
  ghost predicate AllComplete(was: map<nat, Observed>, nodes: Views, prev: map<Id, nat>) {
    forall c | Logged(c, was, nodes, prev) :: LeadersComplete(c, nodes)
  }

  lemma OneRecord(now: map<nat, Observed>, was: map<nat, Observed>, nodes: Views, prev: map<Id, nat>)
    requires Logged(now, was, nodes, prev)
    ensures AllComplete(was, nodes, prev) <==> LeadersComplete(now, nodes)
  {
    hide Logged, LeadersComplete;
    if LeadersComplete(now, nodes) {
      forall c | Logged(c, was, nodes, prev)
        ensures LeadersComplete(c, nodes)
      {
        LoggedOnce(c, now, was, nodes, prev);
      }
    }
  }

  // The first check that fails, in the program's order.
  ghost predicate Verdict(m: Memory, nodes: Views, v: Option<Violation>) {
    if !OneLeaderEach(m.leadersByTerm, nodes) then v == Some(ElectionSafety)
    else if !LeadersQuiet(m.leaderSnapshots, nodes) then v == Some(LeaderAppendOnly)
    else if !LogsMatch(nodes) then v == Some(LogMatching)
    else LaterVerdict(nodes, Rebased(m, nodes), m.committed, m.maxCommit, SeenRebased(m, nodes), m.appliedAt, v)
  }

  ghost predicate LaterVerdict(nodes: Views, prev: map<Id, nat>, committed: map<nat, Observed>, ceiling: nat,
                               seen: map<Id, nat>, appliedAt: map<nat, Payload>, v: Option<Violation>) {
    if !CommitsWell(nodes, prev, committed, ceiling) then v.Some? && Blamed(nodes, prev, committed, ceiling, v.value)
    else if !AllComplete(committed, nodes, prev) then v == Some(LeaderCompleteness)
    else if !NewlyAgree(nodes, seen, appliedAt) then v == Some(StateMachineSafety)
    else v == None
  }

  // Predicates on baselines depend only on what they say of the servers present.
  lemma SameBaseline(nodes: Views, prev: map<Id, nat>, m: Memory)
    requires forall i | i in nodes :: Prev(prev, i) == Baseline(m.lastIncarnation, m.prevCommit, i, nodes[i])
    ensures CommitsWell(nodes, prev, m.committed, m.maxCommit) == CommitsWell(nodes, Rebased(m, nodes), m.committed, m.maxCommit)
    ensures forall v :: Blamed(nodes, prev, m.committed, m.maxCommit, v) == Blamed(nodes, Rebased(m, nodes), m.committed, m.maxCommit, v)
    ensures AllComplete(m.committed, nodes, prev) == AllComplete(m.committed, nodes, Rebased(m, nodes))
    ensures forall c :: Logged(c, m.committed, nodes, prev) == Logged(c, m.committed, nodes, Rebased(m, nodes))
  {
    hide LeadersComplete, Exposes, Backed, Logged;
    var base := Rebased(m, nodes);
    forall i | i in nodes
      ensures Prev(prev, i) == Prev(base, i)
    {
    }
    forall c: map<nat, Observed>
      ensures Logged(c, m.committed, nodes, prev) == Logged(c, m.committed, nodes, base)
    {
      SameLogged(c, m.committed, nodes, prev, base);
      SameLogged(c, m.committed, nodes, base, prev);
    }
  }

  lemma SameLogged(c: map<nat, Observed>, was: map<nat, Observed>, nodes: Views, p: map<Id, nat>, q: map<Id, nat>)
    requires forall i | i in nodes :: Prev(p, i) == Prev(q, i)
    ensures Logged(c, was, nodes, p) ==> Logged(c, was, nodes, q)
  {
    hide Exposes, NewAt;
    if Logged(c, was, nodes, p) {
      forall k | k in c && k !in was
        ensures exists i :: i in nodes && FirstShows(nodes, q, i, k, c[k])
      {
        var i :| i in nodes && FirstShows(nodes, p, i, k, c[k]);
        assert FirstShows(nodes, q, i, k, c[k]);
      }
    }
  }

  lemma SameSeen(nodes: Views, seen: map<Id, nat>, m: Memory)
    requires forall i | i in nodes :: Prev(seen, i) == SeenBaseline(m.lastIncarnation, m.appliedSeen, i, nodes[i])
    ensures NewlyAgree(nodes, seen, m.appliedAt) == NewlyAgree(nodes, SeenRebased(m, nodes), m.appliedAt)
    ensures forall c :: AppliedLogged(c, m.appliedAt, nodes, seen) == AppliedLogged(c, m.appliedAt, nodes, SeenRebased(m, nodes))
    ensures forall i | i in nodes :: LookedAt(nodes[i], Prev(seen, i)) == LookedAt(nodes[i], Prev(SeenRebased(m, nodes), i))
  {
    hide ShowsNew;
    forall i | i in nodes
      ensures Prev(seen, i) == Prev(SeenRebased(m, nodes), i)
    {
    }
  }

  // Leaders hold whatever is or becomes committed.
  ghost predicate LeadersHold(committed: map<nat, Observed>, nodes: Views) {
    forall c, i | Grown(c, committed, nodes) && i in nodes && nodes[i].leader :: Complete(nodes[i].live, nodes[i].term, c)
  }

  ghost predicate KnownLeaders(now: map<nat, Id>, was: map<nat, Id>, nodes: Views) {
    forall t | t in now :: KnownLeader(now[t], t, was, nodes)
  }

  ghost predicate AppliedFrom(now: map<nat, Payload>, was: map<nat, Payload>, nodes: Views) {
    forall k | k in now :: (k in was && now[k] == was[k]) || exists i :: i in nodes && ShowsApplied(nodes[i], k, now[k])
  }

  // Nothing for any check to find.
  ghost predicate AllWell(m: Memory, nodes: Views) {
    && OneLeaderEach(m.leadersByTerm, nodes) && LeadersQuiet(m.leaderSnapshots, nodes) && LogsMatch(nodes)
    && CommitsMonotone(nodes, Rebased(m, nodes)) && CommitsAgree(nodes, Rebased(m, nodes), m.committed)
    && CommitsBacked(nodes, Rebased(m, nodes), m.maxCommit)
    && LeadersHold(m.committed, nodes) && AppliedAgree(nodes, m.appliedAt)
  }

  // Then the verdict is silence.
  lemma WellIsSilent(m: Memory, nodes: Views, v: Option<Violation>)
    requires AllWell(m, nodes) && Verdict(m, nodes, v)
    ensures v == None
  {
    hide OneLeaderEach, LeadersQuiet, LogsMatch, CommitsMonotone, CommitsAgree, Complete, AppliedAgree, NewlyAgree, Logged, Grown, Exposes, Backed, Rebased;
    AgreeNewly(nodes, SeenRebased(m, nodes), m.appliedAt);
    forall c | Logged(c, m.committed, nodes, Rebased(m, nodes))
      ensures LeadersComplete(c, nodes)
    {
      LoggedGrows(c, m.committed, nodes, Rebased(m, nodes));
    }
  }

  lemma LoggedGrows(now: map<nat, Observed>, was: map<nat, Observed>, nodes: Views, prev: map<Id, nat>)
    requires Logged(now, was, nodes, prev)
    ensures Grown(now, was, nodes)
  {
    forall k | k in now && k !in was
      ensures exists i :: i in nodes && Shows(nodes[i], k, now[k])
    {
      var i :| i in nodes && FirstShows(nodes, prev, i, k, now[k]);
      assert Shows(nodes[i], k, now[k]);
    }
  }

  // What the checker remembers after a silent check.
  ghost predicate Updated(m: Memory, m2: Memory, nodes: Views) {
    && KnownLeaders(m2.leadersByTerm, m.leadersByTerm, nodes)
    && Remembered(m2.leaderSnapshots, m.leaderSnapshots, nodes)
    && Logged(m2.committed, m.committed, nodes, Rebased(m, nodes))
    && m.maxCommit <= m2.maxCommit
    && (forall i | i in nodes :: i in m2.prevCommit && m2.prevCommit[i] == nodes[i].commit <= m2.maxCommit)
    && (forall i | i in nodes :: i in m2.lastIncarnation && m2.lastIncarnation[i] == nodes[i].incarnation)
    && AppliedLogged(m2.appliedAt, m.appliedAt, nodes, SeenRebased(m, nodes))
    && (forall i | i in nodes :: i in m2.appliedSeen && m2.appliedSeen[i] == LookedAt(nodes[i], Prev(SeenRebased(m, nodes), i)))
  }

  // The records only grow, by what servers show.
  lemma UpdatedGrows(m: Memory, m2: Memory, nodes: Views)
    requires Updated(m, m2, nodes)
    ensures Grown(m2.committed, m.committed, nodes) && AppliedFrom(m2.appliedAt, m.appliedAt, nodes)
  {
    hide Logged, KnownLeaders, Remembered, Rebased, SeenRebased;
    LoggedGrows(m2.committed, m.committed, nodes, Rebased(m, nodes));
    forall k | k in m2.appliedAt
      ensures (k in m.appliedAt && m2.appliedAt[k] == m.appliedAt[k]) || exists i :: i in nodes && ShowsApplied(nodes[i], k, m2.appliedAt[k])
    {
      if k !in m.appliedAt {
        var i :| i in nodes && ShowsNew(nodes[i], Prev(SeenRebased(m, nodes), i), k, m2.appliedAt[k]);
      }
    }
  }

  // If a record has not grown it has not changed.
  lemma GrowthShows(was: map<nat, Observed>, now: map<nat, Observed>)
    requires forall k | k in was :: k in now && now[k] == was[k]
    ensures |was| <= |now| && (|was| == |now| ==> was == now)
  {
    assert was.Keys <= now.Keys;
    CardinalityOfSubset(was.Keys, now.Keys);
    if |was| == |now| && was.Keys != now.Keys {
      var k :| k in now.Keys && k !in was.Keys;
      CardinalityOfSubset(was.Keys + {k}, now.Keys);
    }
  }

  // The commit index later ones are compared with: a restarted server starts over.
  function Baseline(incarnations: map<Id, nat>, prev: map<Id, nat>, i: Id, n: View): nat {
    if i in incarnations && incarnations[i] != n.incarnation then n.commit else Prev(prev, i)
  }

  // And how far its applied commands count as looked at.
  function SeenBaseline(incarnations: map<Id, nat>, seen: map<Id, nat>, i: Id, n: View): nat {
    if i in incarnations && incarnations[i] != n.incarnation then n.live.base + |n.applied| else Prev(seen, i)
  }

  predicate SameIncarnation(now: map<Id, nat>, was: map<Id, nat>, i: Id) {
    (i in now <==> i in was) && (i in now ==> now[i] == was[i])
  }

  // ---- what the checks are about ----------------------------------------------

  lemma AllOf(nodes: Views, ids: seq<Id>)
    requires forall i: Id :: i in ids <==> i in nodes
    ensures forall i | i in nodes :: exists j :: 0 <= j < |ids| && ids[j] == i
  {
  }

  // A leader that was already leading this term has mutated its log.
  ghost predicate Rewrote(before: map<Id, LeaderSnapshot>, i: Id, n: View) {
    n.leader && i in before && before[i].term == n.term && Mutated(before[i].live, n.live)
  }

  ghost predicate Remembers(now: map<Id, LeaderSnapshot>, i: Id, n: View) {
    if n.leader then i in now && now[i] == LeaderSnapshot(n.term, n.version, n.live) else i !in now
  }

  predicate SameAt(now: map<Id, LeaderSnapshot>, before: map<Id, LeaderSnapshot>, i: Id) {
    (i in now <==> i in before) && (i in now ==> now[i] == before[i])
  }

  ghost predicate Remembered(now: map<Id, LeaderSnapshot>, before: map<Id, LeaderSnapshot>, nodes: Views) {
    (forall i | i in nodes :: Remembers(now, i, nodes[i])) && (forall i | i !in nodes :: SameAt(now, before, i))
  }

  lemma RewroteSame(now: map<Id, LeaderSnapshot>, before: map<Id, LeaderSnapshot>, i: Id, n: View)
    requires SameAt(now, before, i)
    ensures Rewrote(now, i, n) == Rewrote(before, i, n)
  {
  }

  lemma RemembersSame(now: map<Id, LeaderSnapshot>, after: map<Id, LeaderSnapshot>, i: Id, n: View)
    requires Remembers(now, i, n) && SameAt(after, now, i)
    ensures Remembers(after, i, n)
  {
  }

  // At most one leader per term, among these and those already known.
  ghost predicate OneLeaderEach(before: map<nat, Id>, nodes: Views) {
    && (forall i | i in nodes && nodes[i].leader && nodes[i].term in before :: before[nodes[i].term] == i)
    && (forall i, j | i in nodes && j in nodes && nodes[i].leader && nodes[j].leader && nodes[i].term == nodes[j].term :: i == j)
  }

  ghost predicate KnownLeader(i: Id, t: nat, before: map<nat, Id>, nodes: Views) {
    (t in before && before[t] == i) || (i in nodes && nodes[i].leader && nodes[i].term == t)
  }

  // ---- the commit record ------------------------------------------------------

  // What this server newly exposes up to an index is on record; nothing else changed.
  ghost predicate OnRecord(now: map<nat, Observed>, was: map<nat, Observed>, n: View, prev: nat, upto: nat) {
    && (forall k | k in was :: k in now && now[k] == was[k])
    && (forall k: nat, e | Exposes(n, prev, k, e) && k <= upto :: k in now && now[k].entry == e)
    && (forall k | k in now && k !in was :: Exposes(n, prev, k, now[k].entry) && k <= upto && now[k].term == n.term)
  }

  // Everything above the ceiling this server newly exposes up to an index is backed.
  ghost predicate AllBacked(nodes: Views, i: Id, prev: nat, ceiling: nat, upto: nat)
    requires i in nodes
  {
    forall k: nat, e | Exposes(nodes[i], prev, k, e) && ceiling < k <= upto :: Backed(nodes, nodes[i], k, e)
  }

  // Why observing a server fails.
  ghost predicate Reason(nodes: Views, i: Id, prev: map<Id, nat>, committed: map<nat, Observed>, ceiling: nat, v: Violation)
    requires i in nodes
  {
    var n, p := nodes[i], Prev(prev, i);
    || (v == CommitIndexMonotonic && n.commit < p)
    || (v == StateMachineSafety && exists k: nat, e :: Exposes(n, p, k, e) && k in committed && committed[k].entry != e)
    || (v == CommitQuorum && exists k: nat, e :: Exposes(n, p, k, e) && k > ceiling && !Backed(nodes, n, k, e))
  }

  predicate Within(nodes: Views, ids: seq<Id>, k: nat) {
    k <= |ids| && forall j | 0 <= j < |ids| :: ids[j] in nodes
  }

  // The j-th server is the first to newly expose index x, and o what it shows.
  predicate FirstListed(nodes: Views, ids: seq<Id>, prev: map<Id, nat>, j: nat, x: nat, o: Observed)
    requires Within(nodes, ids, j) && j < |ids|
  {
    && Exposes(nodes[ids[j]], Prev(prev, ids[j]), x, o.entry) && o.term == nodes[ids[j]].term
    && forall y | 0 <= y < j :: !NewAt(nodes[ids[y]], Prev(prev, ids[y]), x)
  }

  // The record after the first k servers.
  ghost predicate Listed(nodes: Views, ids: seq<Id>, prev: map<Id, nat>, was: map<nat, Observed>, now: map<nat, Observed>, k: nat)
    requires Within(nodes, ids, k)
  {
    && (forall x | x in was :: x in now && now[x] == was[x])
    && (forall j, x: nat, e | 0 <= j < k && Exposes(nodes[ids[j]], Prev(prev, ids[j]), x, e) :: x in now && now[x].entry == e)
    && (forall x | x in now && x !in was :: exists j :: 0 <= j < k && FirstListed(nodes, ids, prev, j, x, now[x]))
  }

  // The ceiling after the first k servers.
  ghost predicate Reached(nodes: Views, ids: seq<Id>, ceiling: nat, top: nat, k: nat)
    requires Within(nodes, ids, k)
  {
    && ceiling <= top && (forall j | 0 <= j < k :: nodes[ids[j]].commit <= top)
    && (top == ceiling || exists j :: 0 <= j < k && nodes[ids[j]].commit == top)
  }

  ghost predicate BackedSoFar(nodes: Views, ids: seq<Id>, prev: map<Id, nat>, ceiling: nat, k: nat)
    requires Within(nodes, ids, k)
  {
    forall j, x: nat, e | 0 <= j < k && Exposes(nodes[ids[j]], Prev(prev, ids[j]), x, e) && x > ceiling
                          && (forall y | 0 <= y < j :: nodes[ids[y]].commit < x) ::
      Backed(nodes, nodes[ids[j]], x, e)
  }

  lemma NothingListed(nodes: Views, ids: seq<Id>, prev: map<Id, nat>, was: map<nat, Observed>, ceiling: nat)
    requires Within(nodes, ids, 0)
    ensures Listed(nodes, ids, prev, was, was, 0) && Reached(nodes, ids, ceiling, ceiling, 0) && BackedSoFar(nodes, ids, prev, ceiling, 0)
  {
  }

  lemma CeilingKept(nodes: Views, ids: seq<Id>, ceiling: nat, top: nat, k: nat)
    requires Within(nodes, ids, k) && Reached(nodes, ids, ceiling, top, k)
    ensures ceiling <= top
  {
  }

  lemma ListedMore(nodes: Views, ids: seq<Id>, prev: map<Id, nat>, was: map<nat, Observed>, now: map<nat, Observed>, after: map<nat, Observed>, k: nat)
    requires Within(nodes, ids, k) && k < |ids| && Listed(nodes, ids, prev, was, now, k) && WellFormed(nodes[ids[k]])
    requires OnRecord(after, now, nodes[ids[k]], Prev(prev, ids[k]), nodes[ids[k]].commit)
    ensures Listed(nodes, ids, prev, was, after, k + 1)
  {
    var n, p := nodes[ids[k]], Prev(prev, ids[k]);
    forall x: nat, e | Exposes(n, p, x, e)
      ensures x in after && after[x].entry == e
    {
      assert x <= n.commit;
    }
    forall x | x in after && x !in was
      ensures exists j :: 0 <= j < k + 1 && FirstListed(nodes, ids, prev, j, x, after[x])
    {
      if x in now {
        var j :| 0 <= j < k && FirstListed(nodes, ids, prev, j, x, now[x]);
      } else {
        forall y | 0 <= y < k
          ensures !NewAt(nodes[ids[y]], Prev(prev, ids[y]), x)
        {
          if NewAt(nodes[ids[y]], Prev(prev, ids[y]), x) {
            assert Exposes(nodes[ids[y]], Prev(prev, ids[y]), x, nodes[ids[y]].live.EntryAt(x));
          }
        }
        assert FirstListed(nodes, ids, prev, k, x, after[x]);
      }
    }
  }

  lemma BackedMore(nodes: Views, ids: seq<Id>, prev: map<Id, nat>, ceiling: nat, top: nat, k: nat)
    requires Within(nodes, ids, k) && k < |ids| && WellFormed(nodes[ids[k]])
    requires Reached(nodes, ids, ceiling, top, k) && BackedSoFar(nodes, ids, prev, ceiling, k)
    requires AllBacked(nodes, ids[k], Prev(prev, ids[k]), top, nodes[ids[k]].commit)
    ensures Reached(nodes, ids, ceiling, Max(top, nodes[ids[k]].commit), k + 1) && BackedSoFar(nodes, ids, prev, ceiling, k + 1)
  {
    hide Backed;
    forall x: nat, e | Exposes(nodes[ids[k]], Prev(prev, ids[k]), x, e) && x > ceiling && (forall y | 0 <= y < k :: nodes[ids[y]].commit < x)
      ensures Backed(nodes, nodes[ids[k]], x, e)
    {
      assert top < x <= nodes[ids[k]].commit;
    }
  }

  // Observations only grow, by what servers show.
  ghost predicate Grown(now: map<nat, Observed>, was: map<nat, Observed>, nodes: Views) {
    && (forall k | k in was :: k in now && now[k] == was[k])
    && (forall k | k in now && k !in was :: exists i :: i in nodes && Shows(nodes[i], k, now[k]))
  }

  lemma AllListed(nodes: Views, ids: seq<Id>, prev: map<Id, nat>, was: map<nat, Observed>, now: map<nat, Observed>, ceiling: nat)
    requires forall i: Id :: i in ids <==> i in nodes
    requires forall j, k | 0 <= j < k < |ids| :: ids[j] < ids[k]
    requires Listed(nodes, ids, prev, was, now, |ids|) && BackedSoFar(nodes, ids, prev, ceiling, |ids|)
    requires forall j | 0 <= j < |ids| :: Prev(prev, ids[j]) <= nodes[ids[j]].commit
    ensures CommitsWell(nodes, prev, was, ceiling) && Logged(now, was, nodes, prev)
  {
    hide Backed, Listed, BackedSoFar, FirstBacked, Logged, CommitsAgree;
    AllOf(nodes, ids);
    AllLogged(nodes, ids, prev, was, now);
    LoggedAgree(nodes, prev, was, now);
    AllFirstBacked(nodes, ids, prev, ceiling);
  }

  lemma AllLogged(nodes: Views, ids: seq<Id>, prev: map<Id, nat>, was: map<nat, Observed>, now: map<nat, Observed>)
    requires forall i: Id :: i in ids <==> i in nodes
    requires forall j, k | 0 <= j < k < |ids| :: ids[j] < ids[k]
    requires Listed(nodes, ids, prev, was, now, |ids|)
    ensures Logged(now, was, nodes, prev)
  {
    hide Exposes, NewAt;
    forall i, k: nat, e | i in nodes && Exposes(nodes[i], Prev(prev, i), k, e)
      ensures k in now && now[k].entry == e
    {
      var j :| 0 <= j < |ids| && ids[j] == i;
      assert Exposes(nodes[ids[j]], Prev(prev, ids[j]), k, e);
    }
    forall k | k in now && k !in was
      ensures exists i :: i in nodes && FirstShows(nodes, prev, i, k, now[k])
    {
      var j :| 0 <= j < |ids| && FirstListed(nodes, ids, prev, j, k, now[k]);
      forall x | x in nodes && x < ids[j]
        ensures !NewAt(nodes[x], Prev(prev, x), k)
      {
        var y :| 0 <= y < |ids| && ids[y] == x;
        assert y < j;
      }
      assert FirstShows(nodes, prev, ids[j], k, now[k]);
    }
  }

  lemma LoggedAgree(nodes: Views, prev: map<Id, nat>, was: map<nat, Observed>, now: map<nat, Observed>)
    requires Logged(now, was, nodes, prev)
    ensures CommitsAgree(nodes, prev, was)
  {
    hide Exposes, FirstShows;
  }

  lemma AllFirstBacked(nodes: Views, ids: seq<Id>, prev: map<Id, nat>, ceiling: nat)
    requires forall i: Id :: i in ids <==> i in nodes
    requires forall j, k | 0 <= j < k < |ids| :: ids[j] < ids[k]
    requires BackedSoFar(nodes, ids, prev, ceiling, |ids|)
    ensures FirstBacked(nodes, prev, ceiling)
  {
    hide Exposes, Backed;
    forall i, k: nat, e | i in nodes && Exposes(nodes[i], Prev(prev, i), k, e) && k > ceiling && Unreached(nodes, i, k)
      ensures Backed(nodes, nodes[i], k, e)
    {
      var j :| 0 <= j < |ids| && ids[j] == i;
      forall y | 0 <= y < j
        ensures nodes[ids[y]].commit < k
      {
        assert ids[y] in nodes && ids[y] < i;
      }
      assert Exposes(nodes[ids[j]], Prev(prev, ids[j]), k, e);
    }
  }

  // A failure on the way means something regressed, disagrees or is not backed.
  lemma ReasonHolds(nodes: Views, ids: seq<Id>, prev: map<Id, nat>, was: map<nat, Observed>, ceiling: nat,
                    now: map<nat, Observed>, top: nat, before: map<Id, nat>, k: nat, v: Violation)
    requires forall i: Id :: i in ids <==> i in nodes
    requires forall j, k | 0 <= j < k < |ids| :: ids[j] < ids[k]
    requires k < |ids| && Listed(nodes, ids, prev, was, now, k) && Reached(nodes, ids, ceiling, top, k)
    requires Prev(before, ids[k]) == Prev(prev, ids[k]) && Reason(nodes, ids[k], before, now, top, v)
    ensures !CommitsWell(nodes, prev, was, ceiling) && Blamed(nodes, prev, was, ceiling, v)
  {
    hide Exposes, Backed, NewAt, CommitsAgree, FirstBacked, Listed, Reached;
    var i := ids[k];
    var p := Prev(prev, i);
    if v == StateMachineSafety {
      var x: nat, e :| Exposes(nodes[i], p, x, e) && x in now && now[x].entry != e;
      Disagreement(nodes, ids, prev, was, now, k, x, e);
    } else if v == CommitQuorum {
      var x: nat, e :| Exposes(nodes[i], p, x, e) && x > top && !Backed(nodes, nodes[i], x, e);
      Unbacked(nodes, ids, prev, ceiling, top, k, x, e);
    }
  }

  lemma Disagreement(nodes: Views, ids: seq<Id>, prev: map<Id, nat>, was: map<nat, Observed>, now: map<nat, Observed>, k: nat, x: nat, e: Entry)
    requires Within(nodes, ids, k) && k < |ids| && Listed(nodes, ids, prev, was, now, k)
    requires Exposes(nodes[ids[k]], Prev(prev, ids[k]), x, e) && x in now && now[x].entry != e
    ensures !CommitsAgree(nodes, prev, was)
  {
    hide Exposes, NewAt;
    if x !in was {
      var j :| 0 <= j < k && FirstListed(nodes, ids, prev, j, x, now[x]);
      assert Exposes(nodes[ids[j]], Prev(prev, ids[j]), x, now[x].entry);
    }
  }

  lemma Unbacked(nodes: Views, ids: seq<Id>, prev: map<Id, nat>, ceiling: nat, top: nat, k: nat, x: nat, e: Entry)
    requires forall i: Id :: i in ids <==> i in nodes
    requires forall j, k | 0 <= j < k < |ids| :: ids[j] < ids[k]
    requires k < |ids| && Reached(nodes, ids, ceiling, top, k) && x > top
    requires Exposes(nodes[ids[k]], Prev(prev, ids[k]), x, e) && !Backed(nodes, nodes[ids[k]], x, e)
    ensures !FirstBacked(nodes, prev, ceiling)
  {
    hide Exposes, Backed, NewAt;
    forall y | y in nodes && y < ids[k]
      ensures nodes[y].commit < x
    {
      var j :| 0 <= j < |ids| && ids[j] == y;
      assert j < k;
    }
    assert Unreached(nodes, ids[k], x);
  }

  // ---- the apply record -------------------------------------------------------

  // What this server newly shows up to an index is on record; nothing else changed.
  ghost predicate AppliedOnRecord(now: map<nat, Payload>, was: map<nat, Payload>, n: View, seen: nat, upto: nat) {
    && (forall k | k in was :: k in now && now[k] == was[k])
    && (forall k: nat, p | ShowsNew(n, seen, k, p) && k <= upto :: k in now && now[k] == p)
    && (forall k | k in now && k !in was :: ShowsNew(n, seen, k, now[k]) && k <= upto)
  }

  // Something it newly shows disagrees with the record.
  ghost predicate Clashes(n: View, seen: nat, was: map<nat, Payload>) {
    exists k: nat, p :: ShowsNew(n, seen, k, p) && k in was && was[k] != p
  }

  ghost predicate AppliedListed(nodes: Views, ids: seq<Id>, seen: map<Id, nat>, was: map<nat, Payload>, now: map<nat, Payload>, k: nat)
    requires Within(nodes, ids, k)
  {
    && (forall x | x in was :: x in now && now[x] == was[x])
    && (forall j, x: nat, p | 0 <= j < k && ShowsNew(nodes[ids[j]], Prev(seen, ids[j]), x, p) :: x in now && now[x] == p)
    && (forall x | x in now && x !in was :: exists j :: 0 <= j < k && ShowsNew(nodes[ids[j]], Prev(seen, ids[j]), x, now[x]))
  }

  lemma NoneAppliedListed(nodes: Views, ids: seq<Id>, seen: map<Id, nat>, was: map<nat, Payload>)
    requires Within(nodes, ids, 0)
    ensures AppliedListed(nodes, ids, seen, was, was, 0)
  {
  }

  lemma AppliedListedMore(nodes: Views, ids: seq<Id>, seen: map<Id, nat>, was: map<nat, Payload>, now: map<nat, Payload>, after: map<nat, Payload>, k: nat)
    requires Within(nodes, ids, k) && k < |ids| && AppliedListed(nodes, ids, seen, was, now, k)
    requires AppliedOnRecord(after, now, nodes[ids[k]], Prev(seen, ids[k]), nodes[ids[k]].live.base + |nodes[ids[k]].applied|)
    ensures AppliedListed(nodes, ids, seen, was, after, k + 1)
  {
    var n := nodes[ids[k]];
    forall x: nat, p | ShowsNew(n, Prev(seen, ids[k]), x, p)
      ensures x in after && after[x] == p
    {
      assert x <= n.live.base + |n.applied|;
    }
    forall x | x in after && x !in was
      ensures exists j :: 0 <= j < k + 1 && ShowsNew(nodes[ids[j]], Prev(seen, ids[j]), x, after[x])
    {
      if x in now {
        var j :| 0 <= j < k && ShowsNew(nodes[ids[j]], Prev(seen, ids[j]), x, now[x]);
      } else {
        assert ShowsNew(nodes[ids[k]], Prev(seen, ids[k]), x, after[x]);
      }
    }
  }

  lemma AppliedClash(nodes: Views, ids: seq<Id>, seen: map<Id, nat>, was: map<nat, Payload>, now: map<nat, Payload>, k: nat)
    requires Within(nodes, ids, k) && k < |ids| && AppliedListed(nodes, ids, seen, was, now, k)
    requires Clashes(nodes[ids[k]], Prev(seen, ids[k]), now)
    ensures !NewlyAgree(nodes, seen, was)
  {
    hide ShowsNew;
    var x: nat, p :| ShowsNew(nodes[ids[k]], Prev(seen, ids[k]), x, p) && x in now && now[x] != p;
    if x !in was {
      var j :| 0 <= j < k && ShowsNew(nodes[ids[j]], Prev(seen, ids[j]), x, now[x]);
    }
  }

  lemma AllAppliedListed(nodes: Views, ids: seq<Id>, seen: map<Id, nat>, was: map<nat, Payload>, now: map<nat, Payload>)
    requires forall i: Id :: i in ids <==> i in nodes
    requires AppliedListed(nodes, ids, seen, was, now, |ids|)
    ensures NewlyAgree(nodes, seen, was) && AppliedLogged(now, was, nodes, seen)
  {
    hide ShowsNew;
    forall i, k: nat, p | i in nodes && ShowsNew(nodes[i], Prev(seen, i), k, p)
      ensures k in now && now[k] == p
    {
      var j :| 0 <= j < |ids| && ids[j] == i;
      assert ShowsNew(nodes[ids[j]], Prev(seen, ids[j]), k, p);
    }
    forall k | k in now && k !in was
      ensures exists i :: i in nodes && ShowsNew(nodes[i], Prev(seen, i), k, now[k])
    {
      var j :| 0 <= j < |ids| && ShowsNew(nodes[ids[j]], Prev(seen, ids[j]), k, now[k]);
    }
  }
}
