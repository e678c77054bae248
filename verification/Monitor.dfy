// The invariant checker beside the cluster: over every run, looking after every step and as
// often as it likes within a step (as the program does just before a server compacts), it
// never raises an alarm. So an alarm always means the servers left the protocol.
//
// A watched run is a run with the moments at which the checker looks and what it is shown of
// each server then: its version, incarnation and applied commands beside the protocol state.
module Monitor {
  import opened Prelude
  import opened RaftTypes
  import opened RaftSpec
  import opened NodeViews
  import opened Safety
  import opened Checker
  import opened CheckerObject

  // What the counters of a server showed, and where its live log began.
  datatype Tag = Tag(version: nat, incarnation: nat, base: nat)

  // One look at the whole cluster, at a moment of the run.
  datatype Look = Look(at: nat, tags: map<Id, Tag>)

  datatype Watch = Watch(run: Run, looks: seq<Look>)

  function Shown(n: Node, base: nat): Physical {
    Physical(Drop(n.log, base), base)
  }

  function ViewOf(par: Params, n: Node, t: Tag): View {
    View(n.role == Leader, n.term, Shown(n, t.base), n.commit, Payloads(Drop(Take(n.log, n.commit), t.base)),
         t.version, t.incarnation, Voters(par, n))
  }

  // How often a server crashed.
  function Crashes(labels: seq<Label>, a: Id): nat {
    if labels == [] then 0
    else Crashes(labels[..|labels| - 1], a) + if labels[|labels| - 1] == Label(a, Pause) then 1 else 0
  }

  // The moment of the latest of the first k looks.
  function At(w: Watch, k: nat): nat
    requires k <= |w.looks|
  {
    if k == 0 then 0 else w.looks[k - 1].at
  }

  predicate TagOk(w: Watch, k: nat, a: Id)
    requires k < |w.looks| && w.looks[k].at < |w.run.states| && a in w.run.states[w.looks[k].at].nodes
  {
    && a in w.looks[k].tags && |w.run.states| == |w.run.labels| + 1
    && w.looks[k].tags[a].base <= w.run.states[w.looks[k].at].nodes[a].commit
    && w.looks[k].tags[a].incarnation == Crashes(w.run.labels[..w.looks[k].at], a)
  }

  // Looking at every step, at logs shown from at most the commit index on; a crash counts as
  // a new incarnation, and the version moves whenever what is shown of the log does.
  ghost predicate Watched(par: Params, w: Watch) {
    && IsRun(par, w.run)
    && (forall k | 0 <= k < |w.looks| :: w.looks[k].at < |w.run.states| && At(w, k) <= w.looks[k].at <= At(w, k) + 1)
    && (forall k, a | 0 <= k < |w.looks| && a in w.run.states[w.looks[k].at].nodes :: TagOk(w, k, a))
    && (forall k, a | 0 <= k < |w.looks| - 1 && a in par.servers :: Versioned(w, k, a))
  }

  predicate Versioned(w: Watch, k: nat, a: Id) {
    k + 1 < |w.looks| && Visible(w, k, a) && Visible(w, k + 1, a)
    ==> && w.looks[k].tags[a].version <= w.looks[k + 1].tags[a].version
        && (w.looks[k].tags[a].version == w.looks[k + 1].tags[a].version ==> ShownAt(w, k, a) == ShownAt(w, k + 1, a))
  }

  predicate Visible(w: Watch, k: nat, a: Id)
    requires k < |w.looks|
  {
    w.looks[k].at < |w.run.states| && a in w.run.states[w.looks[k].at].nodes && a in w.looks[k].tags
  }

  function NodeAt(w: Watch, k: nat, a: Id): Node
    requires k < |w.looks| && Visible(w, k, a)
  {
    w.run.states[w.looks[k].at].nodes[a]
  }

  function ShownAt(w: Watch, k: nat, a: Id): Physical
    requires k < |w.looks| && Visible(w, k, a)
  {
    Shown(NodeAt(w, k, a), w.looks[k].tags[a].base)
  }

  // What the checker is given at look k.
  function ViewsAt(par: Params, w: Watch, k: nat): Views
    requires k < |w.looks| && w.looks[k].at < |w.run.states|
  {
    map a | a in w.run.states[w.looks[k].at].nodes && a in w.looks[k].tags ::
      ViewOf(par, w.run.states[w.looks[k].at].nodes[a], w.looks[k].tags[a])
  }

  // ---- states of the run ------------------------------------------------------

  lemma {:induction false} SameServers(par: Params, r: Run, i: nat)
    requires IsRun(par, r) && i < |r.states|
    ensures r.states[i].nodes.Keys == par.servers
    decreases i
  {
    hide React;
    if i > 0 {
      SameServers(par, r, i - 1);
    }
  }

  lemma Bounds(par: Params, r: Run, i: nat, a: Id)
    requires IsRun(par, r) && i < |r.states| && a in r.states[i].nodes
    ensures r.states[i].nodes[a].base <= r.states[i].nodes[a].commit <= |r.states[i].nodes[a].log|
  {
    Safety.StateMachineSafety(par, r, i, a, i, a, r.states[i].nodes[a].commit);
    var hs := Telling(par, r);
    Safety.NodeAt(par, r, hs, i, a);
  }

  // Without a crash in between, the commit index does not fall.
  lemma {:induction false} CommitRises(par: Params, r: Run, i: nat, j: nat, a: Id)
    requires IsRun(par, r) && |r.labels| + 1 == |r.states|
    requires i <= j < |r.states| && a in r.states[i].nodes && a in r.states[j].nodes
    requires Crashes(r.labels[..i], a) == Crashes(r.labels[..j], a)
    ensures r.states[i].nodes[a].commit <= r.states[j].nodes[a].commit
    decreases j - i
  {
    hide IsRun;
    if i < j {
      SameServers(par, r, i);
      SameServers(par, r, j - 1);
      CrashesRise(r.labels, i, j - 1, a);
      assert r.labels[..j][..j - 1] == r.labels[..j - 1];
      CommitRises(par, r, i, j - 1, a);
      CommittedPrefixStays(par, r, j - 1, a);
    }
  }

  lemma {:induction false} CrashesRise(labels: seq<Label>, i: nat, j: nat, a: Id)
    requires i <= j <= |labels|
    ensures Crashes(labels[..i], a) <= Crashes(labels[..j], a)
    decreases j - i
  {
    if i < j {
      CrashesRise(labels, i, j - 1, a);
      assert labels[..j][..j - 1] == labels[..j - 1];
    }
  }

  // ---- versions name logs -----------------------------------------------------

  lemma Seen(par: Params, w: Watch, k: nat, a: Id)
    requires Watched(par, w) && k < |w.looks| && a in par.servers
    ensures Visible(w, k, a) && TagOk(w, k, a) && a in ViewsAt(par, w, k)
    ensures ViewsAt(par, w, k)[a] == ViewOf(par, NodeAt(w, k, a), w.looks[k].tags[a])
    ensures NodeAt(w, k, a).base <= NodeAt(w, k, a).commit <= |NodeAt(w, k, a).log|
    ensures ViewsAt(par, w, k).Keys == par.servers
  {
    hide IsRun, ViewOf, TagOk;
    SameServers(par, w.run, w.looks[k].at);
    assert forall b | b in par.servers :: TagOk(w, k, b);
    assert TagOk(w, k, a);
    AllTagged(par, w, k);
    Bounds(par, w.run, w.looks[k].at, a);
  }

  lemma AllTagged(par: Params, w: Watch, k: nat)
    requires Watched(par, w) && k < |w.looks| && w.run.states[w.looks[k].at].nodes.Keys == par.servers
    ensures forall a | a in par.servers :: a in w.looks[k].tags
    ensures ViewsAt(par, w, k).Keys == par.servers
  {
    hide IsRun, ViewOf, Versioned;
    forall a | a in par.servers
      ensures a in w.looks[k].tags
    {
      assert TagOk(w, k, a);
    }
  }

  lemma VersionStep(par: Params, w: Watch, k: nat, a: Id)
    requires Watched(par, w) && k + 1 < |w.looks| && a in par.servers
    ensures Visible(w, k, a) && Visible(w, k + 1, a) && w.looks[k].tags[a].version <= w.looks[k + 1].tags[a].version
    ensures w.looks[k].tags[a].version == w.looks[k + 1].tags[a].version ==> ShownAt(w, k, a) == ShownAt(w, k + 1, a)
  {
    hide IsRun, ViewsAt, ShownAt, TagOk, Visible;
    Seen(par, w, k, a);
    Seen(par, w, k + 1, a);
    assert Versioned(w, k, a);
  }

  lemma {:induction false} VersionRises(par: Params, w: Watch, j: nat, k: nat, a: Id)
    requires Watched(par, w) && j <= k < |w.looks| && a in par.servers
    ensures Visible(w, j, a) && Visible(w, k, a) && w.looks[j].tags[a].version <= w.looks[k].tags[a].version
    decreases k - j
  {
    hide Watched, ViewsAt, ShownAt, TagOk, Visible;
    Seen(par, w, j, a);
    if j < k {
      VersionRises(par, w, j, k - 1, a);
      VersionStep(par, w, k - 1, a);
    }
  }

  lemma {:induction false} VersionNames(par: Params, w: Watch, j: nat, k: nat, a: Id)
    requires Watched(par, w) && j <= k < |w.looks| && a in par.servers
    ensures Visible(w, j, a) && Visible(w, k, a)
    ensures w.looks[j].tags[a].version == w.looks[k].tags[a].version ==> ShownAt(w, j, a) == ShownAt(w, k, a)
    decreases k - j
  {
    hide Watched, ViewsAt, ShownAt, TagOk, Visible;
    VersionRises(par, w, j, k, a);
    if j < k {
      VersionRises(par, w, j, k - 1, a);
      VersionStep(par, w, k - 1, a);
      VersionNames(par, w, j, k - 1, a);
    }
  }

  // ---- where the checker's records come from ----------------------------------

  ghost predicate LedBy(par: Params, w: Watch, j: nat, t: nat, a: Id) {
    j < |w.looks| && Visible(w, j, a) && NodeAt(w, j, a).role == Leader && NodeAt(w, j, a).term == t
  }

  ghost predicate ShownBy(w: Watch, j: nat, a: Id, s: LeaderSnapshot) {
    && j < |w.looks| && Visible(w, j, a) && NodeAt(w, j, a).role == Leader
    && s == LeaderSnapshot(NodeAt(w, j, a).term, w.looks[j].tags[a].version, ShownAt(w, j, a))
  }

  ghost predicate CommittedBy(w: Watch, j: nat, a: Id, k: nat, o: Observed) {
    && j < |w.looks| && Visible(w, j, a)
    && 0 < k <= NodeAt(w, j, a).commit && k <= |NodeAt(w, j, a).log|
    && o == Observed(NodeAt(w, j, a).log[k - 1], NodeAt(w, j, a).term)
  }

  ghost predicate AppliedBy(w: Watch, j: nat, a: Id, k: nat, p: Payload) {
    && j < |w.looks| && Visible(w, j, a)
    && 0 < k <= NodeAt(w, j, a).commit && k <= |NodeAt(w, j, a).log| && p == NodeAt(w, j, a).log[k - 1].payload
  }

  ghost predicate LeadersFrom(par: Params, w: Watch, n: nat, known: map<nat, Id>) {
    forall t | t in known :: exists j: nat :: j < n && LedBy(par, w, j, t, known[t])
  }

  ghost predicate SnapshotsFrom(w: Watch, n: nat, snapshots: map<Id, LeaderSnapshot>) {
    forall a | a in snapshots :: exists j: nat :: j < n && ShownBy(w, j, a, snapshots[a])
  }

  ghost predicate CommitsFrom(w: Watch, n: nat, committed: map<nat, Observed>) {
    forall k | k in committed :: exists j: nat, a :: j < n && CommittedBy(w, j, a, k, committed[k])
  }

  ghost predicate AppliesFrom(w: Watch, n: nat, appliedAt: map<nat, Payload>) {
    forall k | k in appliedAt :: exists j: nat, a :: j < n && AppliedBy(w, j, a, k, appliedAt[k])
  }

  ghost predicate MeaningFrom(w: Watch, n: nat, meaning: map<(Id, nat), Physical>) {
    forall v | v in meaning :: exists j: nat :: j < n && j < |w.looks| && NamedBy(w, j, v, meaning[v])
  }

  ghost predicate NamedBy(w: Watch, j: nat, v: (Id, nat), p: Physical)
    requires j < |w.looks|
  {
    Visible(w, j, v.0) && w.looks[j].tags[v.0].version == v.1 && ShownAt(w, j, v.0) == p
  }

  // The commit index and incarnation of every server are those of the latest look.
  ghost predicate ProgressFrom(par: Params, w: Watch, n: nat, prev: map<Id, nat>, incarnations: map<Id, nat>)
    requires n <= |w.looks|
  {
    var i := At(w, n);
    && i < |w.run.states| && i <= |w.run.labels|
    && (forall a | a in par.servers && a in w.run.states[i].nodes :: Prev(prev, a) == w.run.states[i].nodes[a].commit)
    && (forall a | a in incarnations && a in par.servers :: incarnations[a] == Crashes(w.run.labels[..i], a))
    && (n > 0 ==> par.servers <= incarnations.Keys)
  }

  // What the checker remembers after the first n looks.
  ghost predicate Recalled(par: Params, w: Watch, n: nat, m: Memory)
    requires n <= |w.looks|
  {
    && LeadersFrom(par, w, n, m.leadersByTerm)
    && SnapshotsFrom(w, n, m.leaderSnapshots)
    && CommitsFrom(w, n, m.committed)
    && AppliesFrom(w, n, m.appliedAt)
    && ProgressFrom(par, w, n, m.prevCommit, m.lastIncarnation)
    && At(w, n) < |w.run.states| && Ceiling(w.run, At(w, n), m.maxCommit)
  }

  // ---- nothing to find --------------------------------------------------------

  lemma ElectionsQuiet(par: Params, w: Watch, n: nat, known: map<nat, Id>)
    requires Watched(par, w) && n < |w.looks| && LeadersFrom(par, w, n, known)
    ensures OneLeaderEach(known, ViewsAt(par, w, n))
  {
    hide IsRun, Versioned, TagOk;
    var nodes := ViewsAt(par, w, n);
    forall i | i in nodes && nodes[i].leader && nodes[i].term in known
      ensures known[nodes[i].term] == i
    {
      var t := nodes[i].term;
      var j: nat :| j < n && LedBy(par, w, j, t, known[t]);
      Safety.ElectionSafety(par, w.run, w.looks[j].at, known[t], w.looks[n].at, i);
    }
    forall i, j | i in nodes && j in nodes && nodes[i].leader && nodes[j].leader && nodes[i].term == nodes[j].term
      ensures i == j
    {
      Safety.ElectionSafety(par, w.run, w.looks[n].at, i, w.looks[n].at, j);
    }
  }

  lemma {:induction false} AtRises(par: Params, w: Watch, j: nat, k: nat)
    requires Watched(par, w) && j <= k < |w.looks|
    ensures w.looks[j].at <= w.looks[k].at
    decreases k - j
  {
    hide IsRun, TagOk, Versioned;
    if j < k {
      AtRises(par, w, j, k - 1);
      assert At(w, k) <= w.looks[k].at;
    }
  }

  // Entries shown of a log are its entries.
  lemma ShownEntry(n: Node, base: nat, k: nat)
    requires base < k <= |n.log|
    ensures Shown(n, base).Last() == |n.log| && Shown(n, base).EntryAt(k) == n.log[k - 1]
  {
  }

  lemma LeadersStay(par: Params, w: Watch, n: nat, snapshots: map<Id, LeaderSnapshot>)
    requires Watched(par, w) && n < |w.looks| && SnapshotsFrom(w, n, snapshots)
    ensures LeadersQuiet(snapshots, ViewsAt(par, w, n))
  {
    hide Watched, ViewsAt, Mutated, ShownAt, Shown;
    Servers(par, w, n);
    var nodes := ViewsAt(par, w, n);
    forall i | i in nodes && nodes[i].leader && i in snapshots && snapshots[i].term == nodes[i].term
      ensures !Mutated(snapshots[i].live, nodes[i].live)
    {
      var j: nat :| j < n && ShownBy(w, j, i, snapshots[i]);
      Seen(par, w, n, i);
      LeaderStays(par, w, j, n, i);
      ShownIs(par, w, n, i);
    }
  }

  lemma Servers(par: Params, w: Watch, n: nat)
    requires Watched(par, w) && n < |w.looks|
    ensures w.looks[n].at < |w.run.states| && ViewsAt(par, w, n).Keys == par.servers
  {
    hide IsRun, Versioned, TagOk, ViewOf;
    SameServers(par, w.run, w.looks[n].at);
    AllTagged(par, w, n);
  }

  lemma ShownIs(par: Params, w: Watch, n: nat, i: Id)
    requires n < |w.looks| && Visible(w, n, i)
    ensures i in ViewsAt(par, w, n) && ViewsAt(par, w, n)[i].live == ShownAt(w, n, i)
  {
  }

  lemma LeaderStays(par: Params, w: Watch, j: nat, n: nat, i: Id)
    requires Watched(par, w) && j <= n < |w.looks| && i in par.servers && Visible(w, j, i) && Visible(w, n, i)
    requires NodeAt(w, j, i).role == Leader && NodeAt(w, n, i).role == Leader && NodeAt(w, j, i).term == NodeAt(w, n, i).term
    ensures !Mutated(ShownAt(w, j, i), ShownAt(w, n, i))
  {
    hide Watched, ViewsAt, Mutated, IsRun, Shown;
    WatchedRun(par, w);
    AtRises(par, w, j, n);
    Seen(par, w, j, i);
    Seen(par, w, n, i);
    Safety.LeaderAppendOnly(par, w.run, w.looks[j].at, w.looks[n].at, i);
    ExtensionQuiet(NodeAt(w, j, i), w.looks[j].tags[i].base, NodeAt(w, n, i), w.looks[n].tags[i].base);
  }

  lemma ExtensionQuiet(x: Node, b: nat, y: Node, c: nat)
    requires x.log <= y.log && b <= |x.log| && c <= |y.log|
    ensures !Mutated(Shown(x, b), Shown(y, c))
  {
    forall i: nat | Lo(Shown(x, b), Shown(y, c)) <= i <= Shown(x, b).Last() && i <= Shown(y, c).Last()
      ensures Shown(x, b).EntryAt(i) == Shown(y, c).EntryAt(i)
    {
      ShownEntry(x, b, i);
      ShownEntry(y, c, i);
    }
  }

  lemma LogsQuiet(par: Params, w: Watch, n: nat)
    requires Watched(par, w) && n < |w.looks|
    ensures LogsMatch(ViewsAt(par, w, n))
  {
    hide IsRun, Versioned, TagOk, Matching;
    var nodes := ViewsAt(par, w, n);
    SameServers(par, w.run, w.looks[n].at);
    forall a, b | a in nodes && b in nodes
      ensures Matching(nodes[a].live, nodes[b].live)
    {
      PairQuiet(par, w, n, a, b);
    }
  }

  lemma PairQuiet(par: Params, w: Watch, n: nat, a: Id, b: Id)
    requires Watched(par, w) && n < |w.looks| && a in par.servers && b in par.servers
    ensures a in ViewsAt(par, w, n) && b in ViewsAt(par, w, n)
    ensures Matching(ViewsAt(par, w, n)[a].live, ViewsAt(par, w, n)[b].live)
  {
    hide IsRun, Versioned, TagOk, Watched, ViewsAt;
    Seen(par, w, n, a);
    Seen(par, w, n, b);
    WatchedRun(par, w);
    var x, y := NodeAt(w, n, a), NodeAt(w, n, b);
    var p, q := ViewsAt(par, w, n)[a].live, ViewsAt(par, w, n)[b].live;
    forall i: nat, j: nat | Lo(p, q) <= j <= i <= Hi(p, q) && p.EntryAt(i).term == q.EntryAt(i).term
      ensures p.EntryAt(j) == q.EntryAt(j)
    {
      ShownEntry(x, w.looks[n].tags[a].base, i);
      ShownEntry(x, w.looks[n].tags[a].base, j);
      ShownEntry(y, w.looks[n].tags[b].base, i);
      ShownEntry(y, w.looks[n].tags[b].base, j);
      Safety.LogMatching(par, w.run, w.looks[n].at, a, w.looks[n].at, b, i);
      assert x.log[..i][j - 1] == y.log[..i][j - 1];
    }
  }

  lemma WatchedRun(par: Params, w: Watch)
    requires Watched(par, w)
    ensures IsRun(par, w.run)
  {
  }

  lemma IndexNeverFalls(par: Params, w: Watch, n: nat, m: Memory)
    requires Watched(par, w) && n < |w.looks| && Recalled(par, w, n, m)
    ensures CommitsMonotone(ViewsAt(par, w, n), Rebased(m, ViewsAt(par, w, n)))
  {
    hide Watched, ViewsAt, Recalled;
    Servers(par, w, n);
    var nodes := ViewsAt(par, w, n);
    forall i | i in nodes
      ensures Prev(Rebased(m, nodes), i) <= nodes[i].commit
    {
      BaselineHolds(par, w, n, m, i);
    }
  }

  lemma BaselineHolds(par: Params, w: Watch, n: nat, m: Memory, i: Id)
    requires Watched(par, w) && n < |w.looks| && Recalled(par, w, n, m) && i in par.servers && i in ViewsAt(par, w, n)
    ensures Baseline(m.lastIncarnation, m.prevCommit, i, ViewsAt(par, w, n)[i]) <= ViewsAt(par, w, n)[i].commit
  {
    hide ViewsAt, Versioned, Shown, Voters, IsRun, LeadersFrom, SnapshotsFrom, CommitsFrom, AppliesFrom, Ceiling;
    Seen(par, w, n, i);
    WatchedRun(par, w);
    SameServers(par, w.run, At(w, n));
    if i in m.lastIncarnation {
      if m.lastIncarnation[i] == w.looks[n].tags[i].incarnation {
        CommitRises(par, w.run, At(w, n), w.looks[n].at, i);
      }
    } else {
      StartsAtZero(par, w.run, i);
    }
  }

  lemma StartsAtZero(par: Params, r: Run, i: Id)
    requires IsRun(par, r) && i in r.states[0].nodes
    ensures r.states[0].nodes[i].commit == 0
  {
  }

  // What a server exposes as committed is its committed log.
  lemma ExposedIs(par: Params, w: Watch, n: nat, i: Id, prev: nat, k: nat, e: Entry)
    requires Watched(par, w) && n < |w.looks| && i in par.servers && i in ViewsAt(par, w, n)
    requires Exposes(ViewsAt(par, w, n)[i], prev, k, e)
    ensures CommittedBy(w, n, i, k, Observed(e, ViewsAt(par, w, n)[i].term))
  {
    hide ViewsAt, Watched, Voters;
    Seen(par, w, n, i);
    ShownEntry(NodeAt(w, n, i), w.looks[n].tags[i].base, k);
  }

  lemma SameCommitted(par: Params, w: Watch, i: nat, a: Id, j: nat, b: Id, k: nat, o: Observed, p: Observed)
    requires Watched(par, w) && CommittedBy(w, i, a, k, o) && CommittedBy(w, j, b, k, p)
    ensures o.entry == p.entry
  {
    hide Watched, IsRun;
    WatchedRun(par, w);
    Safety.StateMachineSafety(par, w.run, w.looks[i].at, a, w.looks[j].at, b, k);
    assert NodeAt(w, i, a).log[..k][k - 1] == NodeAt(w, j, b).log[..k][k - 1];
  }

  lemma CommitsQuiet(par: Params, w: Watch, n: nat, prev: map<Id, nat>, committed: map<nat, Observed>)
    requires Watched(par, w) && n < |w.looks| && CommitsFrom(w, n, committed)
    ensures CommitsAgree(ViewsAt(par, w, n), prev, committed)
  {
    hide Watched, ViewsAt, Exposes, CommittedBy;
    Servers(par, w, n);
    var nodes := ViewsAt(par, w, n);
    forall i, k: nat, e | i in nodes && Exposes(nodes[i], Prev(prev, i), k, e) && k in committed
      ensures committed[k].entry == e
    {
      var j: nat, a: Id :| j < n && CommittedBy(w, j, a, k, committed[k]);
      ExposedIs(par, w, n, i, Prev(prev, i), k, e);
      SameCommitted(par, w, j, a, n, i, k, committed[k], Observed(e, nodes[i].term));
    }
    forall i, j, k: nat, e, f | i in nodes && j in nodes && Exposes(nodes[i], Prev(prev, i), k, e) && Exposes(nodes[j], Prev(prev, j), k, f)
      ensures e == f
    {
      ExposedIs(par, w, n, i, Prev(prev, i), k, e);
      ExposedIs(par, w, n, j, Prev(prev, j), k, f);
      SameCommitted(par, w, n, i, n, j, k, Observed(e, nodes[i].term), Observed(f, nodes[j].term));
    }
  }

  lemma QuorumsQuiet(par: Params, w: Watch, n: nat, prev: map<Id, nat>, ceiling: nat)
    requires Watched(par, w) && n < |w.looks| && At(w, n) < |w.run.states| && Ceiling(w.run, At(w, n), ceiling)
    ensures CommitsBacked(ViewsAt(par, w, n), prev, ceiling)
  {
    hide Watched, ViewsAt, Exposes, Backed, Ceiling;
    Servers(par, w, n);
    var nodes := ViewsAt(par, w, n);
    forall i, k: nat, e | i in nodes && Exposes(nodes[i], Prev(prev, i), k, e) && k > ceiling
      ensures Backed(nodes, nodes[i], k, e)
    {
      ExposedIs(par, w, n, i, Prev(prev, i), k, e);
      QuorumHolds(par, w, n, i, k, e, nodes[i].term, ceiling);
    }
  }

  lemma QuorumHolds(par: Params, w: Watch, n: nat, i: Id, k: nat, e: Entry, t: nat, ceiling: nat)
    requires Watched(par, w) && n < |w.looks| && At(w, n) < |w.run.states| && Ceiling(w.run, At(w, n), ceiling)
    requires i in par.servers && i in ViewsAt(par, w, n) && CommittedBy(w, n, i, k, Observed(e, t)) && k > ceiling
    ensures Backed(ViewsAt(par, w, n), ViewsAt(par, w, n)[i], k, e)
  {
    hide ViewsAt, Versioned, TagOk, IsRun, Shown, Voters, Ceiling;
    var at, x := w.looks[n].at, NodeAt(w, n, i);
    WatchedRun(par, w);
    assert at == At(w, n) + 1 by {
      if at == At(w, n) {
        UnderCeiling(w.run, at, i, ceiling);
      }
    }
    RunLength(par, w.run);
    Seen(par, w, n, i);
    Safety.CommitQuorum(par, w.run, at - 1, i, ceiling);
    HoldersShow(par, w, n, i, k, e);
  }

  lemma UnderCeiling(r: Run, i: nat, a: Id, g: nat)
    requires i < |r.states| && a in r.states[i].nodes && Ceiling(r, i, g)
    ensures r.states[i].nodes[a].commit <= g
  {
  }

  lemma RunLength(par: Params, r: Run)
    requires IsRun(par, r)
    ensures |r.states| == |r.labels| + 1
  {
  }

  // Whoever holds the log up to the commit index shows each entry of it, or has folded it.
  lemma HoldersShow(par: Params, w: Watch, n: nat, i: Id, k: nat, e: Entry)
    requires Watched(par, w) && n < |w.looks| && i in par.servers && Visible(w, n, i) && i in ViewsAt(par, w, n)
    requires 0 < k <= NodeAt(w, n, i).commit <= |NodeAt(w, n, i).log| && e == NodeAt(w, n, i).log[k - 1]
    requires Majority(Safety.HoldersOf(par, w.run.states[w.looks[n].at], i, NodeAt(w, n, i).commit), Voters(par, NodeAt(w, n, i)))
    ensures Backed(ViewsAt(par, w, n), ViewsAt(par, w, n)[i], k, e)
  {
    hide ViewsAt, Watched, Shown, Voters, Holds;
    var nodes, x := ViewsAt(par, w, n), NodeAt(w, n, i);
    var q, c := Safety.HoldersOf(par, w.run.states[w.looks[n].at], i, x.commit), Voters(par, x);
    Seen(par, w, n, i);
    forall v | v in q * c
      ensures v in Checker.HoldersOf(nodes, nodes[i], k, e)
    {
      SameServersAt(par, w, n);
      Seen(par, w, n, v);
      HolderShows(x, NodeAt(w, n, v), w.looks[n].tags[v].base, k);
    }
    CardinalityOfSubset(q * c, Checker.HoldersOf(nodes, nodes[i], k, e));
  }

  lemma SameServersAt(par: Params, w: Watch, n: nat)
    requires Watched(par, w) && n < |w.looks|
    ensures w.looks[n].at < |w.run.states| && w.run.states[w.looks[n].at].nodes.Keys == par.servers
  {
    hide IsRun, Versioned, TagOk;
    SameServers(par, w.run, w.looks[n].at);
  }

  lemma HolderShows(x: Node, y: Node, base: nat, k: nat)
    requires 0 < k <= x.commit <= |x.log| && Take(x.log, x.commit) <= y.log && base <= |y.log|
    ensures Holds(Shown(y, base), k, x.log[k - 1])
  {
    assert Take(x.log, x.commit)[k - 1] == y.log[k - 1];
    if base < k {
      ShownEntry(y, base, k);
    }
  }

  // ---- leaders hold what is committed -----------------------------------------

  lemma LeadersComplete(par: Params, w: Watch, n: nat, committed: map<nat, Observed>)
    requires Watched(par, w) && n < |w.looks| && CommitsFrom(w, n, committed)
    ensures LeadersHold(committed, ViewsAt(par, w, n))
  {
    hide Watched, ViewsAt, CommittedBy, Holds, CommitsFrom;
    Servers(par, w, n);
    var nodes := ViewsAt(par, w, n);
    forall c: map<nat, Observed>, i | CheckerObject.Grown(c, committed, nodes) && i in nodes && nodes[i].leader
      ensures Checker.Complete(nodes[i].live, nodes[i].term, c)
    {
      forall k: nat | k in c && c[k].term <= nodes[i].term
        ensures Holds(nodes[i].live, k, c[k].entry)
      {
        var j, a := CommittedSomewhere(par, w, n, committed, c, k);
        CommittedHeldBy(par, w, n, i, j, a, k, c[k]);
      }
    }
  }

  lemma CommittedSomewhere(par: Params, w: Watch, n: nat, committed: map<nat, Observed>, c: map<nat, Observed>, k: nat) returns (j: nat, a: Id)
    requires Watched(par, w) && n < |w.looks| && CommitsFrom(w, n, committed)
    requires CheckerObject.Grown(c, committed, ViewsAt(par, w, n)) && k in c
    ensures j <= n && CommittedBy(w, j, a, k, c[k])
  {
    hide Watched, ViewsAt, CommittedBy, Shows;
    Servers(par, w, n);
    if k in committed {
      j, a :| j < n && CommittedBy(w, j, a, k, committed[k]);
    } else {
      var i :| i in ViewsAt(par, w, n) && Shows(ViewsAt(par, w, n)[i], k, c[k]);
      j, a := n, i;
      ShowsIs(par, w, n, i, k, c[k]);
    }
  }

  lemma ShowsIs(par: Params, w: Watch, n: nat, i: Id, k: nat, o: Observed)
    requires Watched(par, w) && n < |w.looks| && i in par.servers && i in ViewsAt(par, w, n)
    requires Shows(ViewsAt(par, w, n)[i], k, o)
    ensures CommittedBy(w, n, i, k, o)
  {
    hide ViewsAt, Watched;
    ExposedIs(par, w, n, i, 0, k, o.entry);
  }

  lemma CommittedHeldBy(par: Params, w: Watch, n: nat, i: Id, j: nat, a: Id, k: nat, o: Observed)
    requires Watched(par, w) && n < |w.looks| && i in par.servers && i in ViewsAt(par, w, n)
    requires j <= n && CommittedBy(w, j, a, k, o) && ViewsAt(par, w, n)[i].leader && o.term <= ViewsAt(par, w, n)[i].term
    ensures Holds(ViewsAt(par, w, n)[i].live, k, o.entry)
  {
    hide ViewsAt, Watched, IsRun, Shown, Voters, Holds;
    Seen(par, w, n, i);
    WatchedRun(par, w);
    AtRises(par, w, j, n);
    Safety.LeaderHolds(par, w.run, w.looks[j].at, a, w.looks[n].at, i);
    HolderShows(NodeAt(w, j, a), NodeAt(w, n, i), w.looks[n].tags[i].base, k);
  }

  // ---- applied commands -------------------------------------------------------

  lemma AppliedIs(par: Params, w: Watch, n: nat, i: Id, k: nat, p: Payload)
    requires Watched(par, w) && n < |w.looks| && i in par.servers && i in ViewsAt(par, w, n)
    requires ShowsApplied(ViewsAt(par, w, n)[i], k, p)
    ensures AppliedBy(w, n, i, k, p)
  {
    hide ViewsAt, Watched, Voters;
    Seen(par, w, n, i);
    TagBase(par, w, n, i);
    var x, base := NodeAt(w, n, i), w.looks[n].tags[i].base;
    assert Drop(Take(x.log, x.commit), base)[k - base - 1] == x.log[k - 1];
  }

  lemma TagBase(par: Params, w: Watch, n: nat, i: Id)
    requires Watched(par, w) && n < |w.looks| && i in par.servers && Visible(w, n, i)
    ensures w.looks[n].tags[i].base <= NodeAt(w, n, i).commit
  {
    hide IsRun, Versioned;
    assert TagOk(w, n, i);
  }

  lemma SameApplied(par: Params, w: Watch, i: nat, a: Id, j: nat, b: Id, k: nat, p: Payload, q: Payload)
    requires Watched(par, w) && AppliedBy(w, i, a, k, p) && AppliedBy(w, j, b, k, q)
    ensures p == q
  {
    hide Watched;
    SameCommitted(par, w, i, a, j, b, k, Observed(NodeAt(w, i, a).log[k - 1], NodeAt(w, i, a).term),
                  Observed(NodeAt(w, j, b).log[k - 1], NodeAt(w, j, b).term));
  }

  lemma AppliesQuiet(par: Params, w: Watch, n: nat, appliedAt: map<nat, Payload>)
    requires Watched(par, w) && n < |w.looks| && AppliesFrom(w, n, appliedAt)
    ensures AppliedAgree(ViewsAt(par, w, n), appliedAt)
  {
    hide Watched, ViewsAt, ShowsApplied, AppliedBy;
    Servers(par, w, n);
    var nodes := ViewsAt(par, w, n);
    forall i, k: nat, p | i in nodes && ShowsApplied(nodes[i], k, p) && k in appliedAt
      ensures appliedAt[k] == p
    {
      var j: nat, a: Id :| j < n && AppliedBy(w, j, a, k, appliedAt[k]);
      AppliedIs(par, w, n, i, k, p);
      SameApplied(par, w, j, a, n, i, k, appliedAt[k], p);
    }
    forall i, j, k: nat, p, q | i in nodes && j in nodes && ShowsApplied(nodes[i], k, p) && ShowsApplied(nodes[j], k, q)
      ensures p == q
    {
      AppliedIs(par, w, n, i, k, p);
      AppliedIs(par, w, n, j, k, q);
      SameApplied(par, w, n, i, n, j, k, p, q);
    }
  }

  // ---- all at once ------------------------------------------------------------

  lemma NothingToFind(par: Params, w: Watch, n: nat, m: Memory)
    requires Watched(par, w) && n < |w.looks| && Recalled(par, w, n, m)
    ensures AllWell(m, ViewsAt(par, w, n))
  {
    hide Watched, ViewsAt, LeadersFrom, SnapshotsFrom, CommitsFrom, AppliesFrom, ProgressFrom, Ceiling;
    hide OneLeaderEach, LeadersQuiet, LogsMatch, CommitsMonotone, CommitsAgree, CommitsBacked, LeadersHold, AppliedAgree;
    Servers(par, w, n);
    ElectionsQuiet(par, w, n, m.leadersByTerm);
    LeadersStay(par, w, n, m.leaderSnapshots);
    LogsQuiet(par, w, n);
    IndexNeverFalls(par, w, n, m);
    CommitsQuiet(par, w, n, Rebased(m, ViewsAt(par, w, n)), m.committed);
    QuorumsQuiet(par, w, n, Rebased(m, ViewsAt(par, w, n)), m.maxCommit);
    LeadersComplete(par, w, n, m.committed);
    AppliesQuiet(par, w, n, m.appliedAt);
  }

  // ---- what a silent check leaves behind --------------------------------------

  lemma LedNow(par: Params, w: Watch, n: nat, was: map<nat, Id>, now: map<nat, Id>)
    requires Watched(par, w) && n < |w.looks| && LeadersFrom(par, w, n, was) && KnownLeaders(now, was, ViewsAt(par, w, n))
    ensures LeadersFrom(par, w, n + 1, now)
  {
    hide Watched, IsRun;
    Servers(par, w, n);
    forall t | t in now
      ensures exists j: nat :: j < n + 1 && LedBy(par, w, j, t, now[t])
    {
      assert KnownLeader(now[t], t, was, ViewsAt(par, w, n));
      if t in was && was[t] == now[t] {
        var j: nat :| j < n && LedBy(par, w, j, t, was[t]);
      } else {
        assert LedBy(par, w, n, t, now[t]);
      }
    }
  }

  lemma SnapshotsNow(par: Params, w: Watch, n: nat, was: map<Id, LeaderSnapshot>, now: map<Id, LeaderSnapshot>)
    requires Watched(par, w) && n < |w.looks| && SnapshotsFrom(w, n, was)
    requires CheckerObject.Remembered(now, was, ViewsAt(par, w, n))
    ensures SnapshotsFrom(w, n + 1, now)
  {
    hide Watched, Shown, Voters;
    Servers(par, w, n);
    forall a | a in now
      ensures exists j: nat :: j < n + 1 && ShownBy(w, j, a, now[a])
    {
      if a in ViewsAt(par, w, n) {
        assert Remembers(now, a, ViewsAt(par, w, n)[a]);
        assert ShownBy(w, n, a, now[a]);
      } else {
        assert SameAt(now, was, a);
        var j: nat :| j < n && ShownBy(w, j, a, was[a]);
      }
    }
  }

  lemma CommitsNow(par: Params, w: Watch, n: nat, was: map<nat, Observed>, now: map<nat, Observed>)
    requires Watched(par, w) && n < |w.looks| && CommitsFrom(w, n, was)
    requires CheckerObject.Grown(now, was, ViewsAt(par, w, n))
    ensures CommitsFrom(w, n + 1, now)
  {
    hide Watched, ViewsAt, CommittedBy, CheckerObject.Grown;
    forall k | k in now
      ensures exists j: nat, a :: j < n + 1 && CommittedBy(w, j, a, k, now[k])
    {
      var j, a := CommittedSomewhere(par, w, n, was, now, k);
    }
  }

  lemma AppliesNow(par: Params, w: Watch, n: nat, was: map<nat, Payload>, now: map<nat, Payload>)
    requires Watched(par, w) && n < |w.looks| && AppliesFrom(w, n, was) && AppliedFrom(now, was, ViewsAt(par, w, n))
    ensures AppliesFrom(w, n + 1, now)
  {
    hide Watched, ViewsAt, AppliedBy, ShowsApplied;
    Servers(par, w, n);
    forall k | k in now
      ensures exists j: nat, a :: j < n + 1 && AppliedBy(w, j, a, k, now[k])
    {
      if k in was && now[k] == was[k] {
        var j: nat, a: Id :| j < n && AppliedBy(w, j, a, k, was[k]);
      } else {
        var i :| i in ViewsAt(par, w, n) && ShowsApplied(ViewsAt(par, w, n)[i], k, now[k]);
        AppliedIs(par, w, n, i, k, now[k]);
      }
    }
  }

  lemma ProgressNow(par: Params, w: Watch, n: nat, m: Memory, m2: Memory)
    requires Watched(par, w) && n < |w.looks| && Recalled(par, w, n, m) && Updated(m, m2, ViewsAt(par, w, n))
    ensures ProgressFrom(par, w, n + 1, m2.prevCommit, m2.lastIncarnation)
    ensures At(w, n + 1) < |w.run.states| && Ceiling(w.run, At(w, n + 1), m2.maxCommit)
  {
    hide Watched, ViewsAt, Voters, Shown, IsRun, Ceiling, LeadersFrom, SnapshotsFrom, CommitsFrom, AppliesFrom;
    hide KnownLeaders, CheckerObject.Remembered, CheckerObject.Grown, AppliedFrom;
    Servers(par, w, n);
    WatchedRun(par, w);
    RunLength(par, w.run);
    SameServersAt(par, w, n);
    forall a | a in par.servers
      ensures a in m2.prevCommit && m2.prevCommit[a] == w.run.states[w.looks[n].at].nodes[a].commit <= m2.maxCommit
      ensures a in m2.lastIncarnation && m2.lastIncarnation[a] == Crashes(w.run.labels[..w.looks[n].at], a)
    {
      Seen(par, w, n, a);
    }
    NextMoment(par, w, n);
    CeilingNow(w.run, At(w, n), w.looks[n].at, m.maxCommit, m2.maxCommit);
  }

  lemma CeilingNow(r: Run, i: nat, j: nat, g: nat, g2: nat)
    requires i <= j <= i + 1 && j < |r.states| && Ceiling(r, i, g) && g <= g2
    requires forall a | a in r.states[j].nodes :: r.states[j].nodes[a].commit <= g2
    ensures Ceiling(r, j, g2)
  {
    forall k, b | 0 <= k <= j && b in r.states[k].nodes
      ensures r.states[k].nodes[b].commit <= g2
    {
      if k <= i {
        assert r.states[k].nodes[b].commit <= g;
      }
    }
  }

  lemma NextMoment(par: Params, w: Watch, n: nat)
    requires Watched(par, w) && n < |w.looks|
    ensures At(w, n) <= w.looks[n].at <= At(w, n) + 1
  {
    hide IsRun, TagOk, Versioned;
  }

  lemma RecalledNow(par: Params, w: Watch, n: nat, m: Memory, m2: Memory)
    requires Watched(par, w) && n < |w.looks| && Recalled(par, w, n, m) && Updated(m, m2, ViewsAt(par, w, n))
    ensures Recalled(par, w, n + 1, m2)
  {
    hide Watched, ViewsAt, LeadersFrom, SnapshotsFrom, CommitsFrom, AppliesFrom, ProgressFrom, Ceiling, KnownLeaders, CheckerObject.Remembered, CheckerObject.Grown, AppliedFrom;
    ProgressNow(par, w, n, m, m2);
    UpdatedGrows(m, m2, ViewsAt(par, w, n));
    Servers(par, w, n);
    LedNow(par, w, n, m.leadersByTerm, m2.leadersByTerm);
    SnapshotsNow(par, w, n, m.leaderSnapshots, m2.leaderSnapshots);
    CommitsNow(par, w, n, m.committed, m2.committed);
    AppliesNow(par, w, n, m.appliedAt, m2.appliedAt);
  }

  lemma MeaningNow(par: Params, w: Watch, n: nat, was: map<(Id, nat), Physical>)
    requires Watched(par, w) && n < |w.looks| && MeaningFrom(w, n, was)
    ensures MeaningFrom(w, n + 1, Named(was, ViewsAt(par, w, n)))
  {
    hide Watched, Voters, Shown, ViewsAt, ShownAt;
    Servers(par, w, n);
    var now := Named(was, ViewsAt(par, w, n));
    forall v | v in now
      ensures exists j: nat :: j < n + 1 && j < |w.looks| && NamedBy(w, j, v, now[v])
    {
      if v.0 in ViewsAt(par, w, n) && v.1 == ViewsAt(par, w, n)[v.0].version {
        NamedNow(par, w, n, v.0);
        assert NamedBy(w, n, v, now[v]);
      } else {
        var j: nat :| j < n && j < |w.looks| && NamedBy(w, j, v, was[v]);
      }
    }
  }

  lemma NamedNow(par: Params, w: Watch, n: nat, i: Id)
    requires Watched(par, w) && n < |w.looks| && i in par.servers && i in ViewsAt(par, w, n)
    ensures NamedBy(w, n, (i, ViewsAt(par, w, n)[i].version), ViewsAt(par, w, n)[i].live)
  {
    hide Watched, Voters, ViewsAt, Shown;
    Seen(par, w, n, i);
  }

  // No version names two logs.
  lemma MeaningHolds(par: Params, w: Watch, n: nat, was: map<(Id, nat), Physical>, i: Id)
    requires Watched(par, w) && n < |w.looks| && MeaningFrom(w, n, was) && i in par.servers && i in ViewsAt(par, w, n)
    requires (i, ViewsAt(par, w, n)[i].version) in was
    ensures was[(i, ViewsAt(par, w, n)[i].version)] == ViewsAt(par, w, n)[i].live
  {
    hide Watched, Voters, Shown, ViewsAt;
    Seen(par, w, n, i);
    var v := (i, ViewsAt(par, w, n)[i].version);
    var j: nat :| j < n && j < |w.looks| && NamedBy(w, j, v, was[v]);
    VersionNames(par, w, j, n, i);
  }

  lemma ShapesHold(par: Params, w: Watch, n: nat, i: Id)
    requires Watched(par, w) && n < |w.looks| && i in par.servers && i in ViewsAt(par, w, n)
    ensures WellFormed(ViewsAt(par, w, n)[i])
  {
    hide Watched, Voters, ViewsAt;
    Seen(par, w, n, i);
    TagBase(par, w, n, i);
  }

  lemma NothingYet(par: Params, w: Watch, m: Memory)
    requires Watched(par, w)
    requires m.leadersByTerm == map[] && m.committed == map[] && m.appliedAt == map[] && m.maxCommit == 0
    requires m.prevCommit == map[] && m.lastIncarnation == map[] && m.leaderSnapshots == map[]
    ensures Recalled(par, w, 0, m) && MeaningFrom(w, 0, map[])
  {
    hide Versioned, TagOk, React;
  }

  // ---- the theorem ------------------------------------------------------------

  // However long it watches, the checker is never given a reason to raise.
  method WatchRun(par: Params, w: Watch) returns (v: Option<Violation>)
    requires Watched(par, w)
    ensures v.None?
  {
    hide Watched, Recalled, MeaningFrom, AllWell, Verdict, Updated, ViewsAt, WellFormed, Named;
    var checker := new InvariantChecker();
    NothingYet(par, w, checker.Records());
    for n := 0 to |w.looks|
      invariant checker.Valid() && fresh(checker)
      invariant Recalled(par, w, n, checker.Records()) && MeaningFrom(w, n, checker.meaning)
    {
      Servers(par, w, n);
      var views := ViewsAt(par, w, n);
      ghost var before := checker.Records();
      Ready(par, w, n, checker.meaning);
      NothingToFind(par, w, n, before);
      v := checker.Check(views);
      WellIsSilent(before, views, v);
      RecalledNow(par, w, n, before, checker.Records());
    }
    return None;
  }

  lemma Ready(par: Params, w: Watch, n: nat, meaning: map<(Id, nat), Physical>)
    requires Watched(par, w) && n < |w.looks| && MeaningFrom(w, n, meaning)
    ensures forall i | i in ViewsAt(par, w, n) :: WellFormed(ViewsAt(par, w, n)[i])
    ensures forall i | i in ViewsAt(par, w, n) && (i, ViewsAt(par, w, n)[i].version) in meaning ::
              meaning[(i, ViewsAt(par, w, n)[i].version)] == ViewsAt(par, w, n)[i].live
    ensures MeaningFrom(w, n + 1, Named(meaning, ViewsAt(par, w, n)))
  {
    hide Watched, ViewsAt, MeaningFrom, Named, WellFormed;
    Servers(par, w, n);
    forall i | i in ViewsAt(par, w, n)
      ensures WellFormed(ViewsAt(par, w, n)[i])
      ensures (i, ViewsAt(par, w, n)[i].version) in meaning ==> meaning[(i, ViewsAt(par, w, n)[i].version)] == ViewsAt(par, w, n)[i].live
    {
      ShapesHold(par, w, n, i);
      if (i, ViewsAt(par, w, n)[i].version) in meaning {
        MeaningHolds(par, w, n, meaning, i);
      }
    }
    MeaningNow(par, w, n, meaning);
  }
}
