// The cluster with its invariant checker: after every step of the cluster object the checker
// looks at the server objects, and it never raises. The watch the checker has kept so far is
// a ghost: it goes on by one step and one look at a time, the versions and incarnations it
// shows are the counters of the objects, and what the checker remembers of the looks so far
// stays true as it goes on.
module MonitoredCluster {
  import opened Prelude
  import opened RaftTypes
  import opened RaftSpec
  import opened NodeViews
  import opened RaftServer
  import opened Safety
  import opened Monitor
  import KvStore
  import M = World
  import K = Checker
  import O = CheckerObject
  import C = ClusterObject

  // ---- the watch goes on ------------------------------------------------------

  function TagsOf(counts: map<Id, C.Count>): map<Id, Tag> {
    map i | i in counts :: Tag(counts[i].version, counts[i].incarnation, counts[i].base)
  }

  // The counters are those of servers in this state.
  predicate Fit(s: Sys, counts: map<Id, C.Count>) {
    counts.Keys == s.nodes.Keys &&
    forall i | i in s.nodes ::
      && s.nodes[i].base == counts[i].base <= s.nodes[i].commit
      && Shown(s.nodes[i], counts[i].base) == K.Physical(counts[i].log, counts[i].base)
  }

  // The watch has come to this state, and its latest look showed these counters.
  ghost predicate Current(par: Params, w: Watch, s: Sys, counts: map<Id, C.Count>) {
    && Watched(par, w) && |w.run.states| == |w.run.labels| + 1 && w.run.states[|w.run.labels|] == s
    && At(w, |w.looks|) == |w.run.labels| && s.nodes.Keys == par.servers && Fit(s, counts)
    && (forall i | i in par.servers :: counts[i].incarnation == Crashes(w.run.labels, i))
    && (w.looks != [] ==> w.looks[|w.looks| - 1] == Look(|w.run.labels|, TagsOf(counts)))
  }

  // One more step, and a look at what it led to.
  function Further(w: Watch, l: Label, s: Sys, counts: map<Id, C.Count>): Watch {
    Watch(Run(w.run.states + [s], w.run.labels + [l]), w.looks + [Look(|w.run.labels| + 1, TagsOf(counts))])
  }

  lemma BeginningCurrent(par: Params, s: Sys, counts: map<Id, C.Count>)
    requires Init(par, s) && Fit(s, counts) && forall i | i in counts :: counts[i].incarnation == 0
    ensures Current(par, Watch(Run([s], []), []), s, counts)
  {
  }

  lemma FurtherRun(par: Params, w: Watch, s: Sys, counts: map<Id, C.Count>, l: Label, counts2: map<Id, C.Count>)
    requires Current(par, w, s, counts) && l.who in s.nodes && Enabled(par, s, l)
    ensures IsRun(par, Further(w, l, After(par, s, l), counts2).run)
  {
    hide Init, After, React, Fit, TagOk, Versioned;
    var n, r2 := |w.run.labels|, Further(w, l, After(par, s, l), counts2).run;
    forall i | 0 <= i < |r2.labels|
      ensures Enabled(par, r2.states[i], r2.labels[i]) && r2.states[i + 1] == After(par, r2.states[i], r2.labels[i])
    {
      if i < n {
        assert r2.states[i] == w.run.states[i] && r2.labels[i] == w.run.labels[i] && r2.states[i + 1] == w.run.states[i + 1];
      }
    }
  }

  lemma FurtherTags(par: Params, w: Watch, s: Sys, counts: map<Id, C.Count>, l: Label, s2: Sys, counts2: map<Id, C.Count>)
    requires Current(par, w, s, counts) && C.AllCounted(counts, counts2, l) && Fit(s2, counts2) && s2.nodes.Keys == par.servers
    ensures var w2 := Further(w, l, s2, counts2);
            && (forall k, a | 0 <= k < |w2.looks| :: w2.looks[k].at < |w2.run.states| && (a in w2.run.states[w2.looks[k].at].nodes ==> TagOk(w2, k, a)))
    ensures forall i | i in par.servers :: counts2[i].incarnation == Crashes(w.run.labels + [l], i)
  {
    hide IsRun, Versioned, TagOk, C.AllCounted, Shown, Crashes;
    assert counts.Keys == par.servers && forall k | 0 <= k < |w.looks| :: w.looks[k].at < |w.run.states|;
    hide Fit, Watched;
    var w2 := Further(w, l, s2, counts2);
    CrashesFurther(w.run.labels, l, counts, counts2, par.servers);
    forall k, a | 0 <= k < |w2.looks|
      ensures w2.looks[k].at < |w2.run.states| && (a in w2.run.states[w2.looks[k].at].nodes ==> TagOk(w2, k, a))
    {
      if k < |w.looks| {
        if a in w.run.states[w.looks[k].at].nodes {
          assert TagOk(w, k, a);
          SameTag(w, l, s2, counts2, k, a);
        }
      } else if a in s2.nodes {
        NewTag(w, l, s2, counts2, a);
      }
    }
  }

  lemma CrashesFurther(labels: seq<Label>, l: Label, counts: map<Id, C.Count>, counts2: map<Id, C.Count>, servers: set<Id>)
    requires C.AllCounted(counts, counts2, l) && counts.Keys == servers
    requires forall i | i in servers :: counts[i].incarnation == Crashes(labels, i)
    ensures forall i | i in servers :: counts2[i].incarnation == Crashes(labels + [l], i)
  {
    assert (labels + [l])[..|labels|] == labels;
  }

  lemma SameTag(w: Watch, l: Label, s2: Sys, counts2: map<Id, C.Count>, k: nat, a: Id)
    requires k < |w.looks| && w.looks[k].at < |w.run.states| && |w.run.states| == |w.run.labels| + 1
    requires a in w.run.states[w.looks[k].at].nodes && TagOk(w, k, a)
    ensures TagOk(Further(w, l, s2, counts2), k, a)
  {
    var w2 := Further(w, l, s2, counts2);
    assert w2.run.labels[..w2.looks[k].at] == w.run.labels[..w.looks[k].at];
  }

  lemma NewTag(w: Watch, l: Label, s2: Sys, counts2: map<Id, C.Count>, a: Id)
    requires |w.run.states| == |w.run.labels| + 1 && Fit(s2, counts2) && a in s2.nodes
    requires counts2[a].incarnation == Crashes(w.run.labels + [l], a)
    ensures TagOk(Further(w, l, s2, counts2), |w.looks|, a)
  {
    hide Crashes, Shown;
    var w2 := Further(w, l, s2, counts2);
    assert w2.run.labels[..|w2.run.labels|] == w2.run.labels;
  }

  lemma FurtherVersions(par: Params, w: Watch, s: Sys, counts: map<Id, C.Count>, l: Label, s2: Sys, counts2: map<Id, C.Count>, k: nat, a: Id)
    requires Current(par, w, s, counts) && C.AllCounted(counts, counts2, l) && Fit(s2, counts2) && s2.nodes.Keys == par.servers
    requires k < |w.looks| && a in par.servers
    ensures Versioned(Further(w, l, s2, counts2), k, a)
  {
    hide IsRun, TagOk, Crashes, Shown, Versioned;
    var w2 := Further(w, l, s2, counts2);
    if k + 1 < |w.looks| {
      assert Versioned(w, k, a);
      SameVersions(w, w2, k, a);
    } else {
      NewVersion(w, s, counts, l, s2, counts2, a);
    }
  }

  lemma SameVersions(w: Watch, w2: Watch, k: nat, a: Id)
    requires GoesOn(w, w2) && k + 1 < |w.looks| && Versioned(w, k, a)
    ensures Versioned(w2, k, a)
  {
    hide GoesOn, Visible, ShownAt;
    SameAt(w, w2, k, a);
    SameAt(w, w2, k + 1, a);
  }

  lemma NewVersion(w: Watch, s: Sys, counts: map<Id, C.Count>, l: Label, s2: Sys, counts2: map<Id, C.Count>, a: Id)
    requires w.looks != [] && |w.run.states| == |w.run.labels| + 1 && w.run.states[|w.run.labels|] == s
    requires w.looks[|w.looks| - 1] == Look(|w.run.labels|, TagsOf(counts))
    requires Fit(s, counts) && Fit(s2, counts2) && C.AllCounted(counts, counts2, l)
    ensures Versioned(Further(w, l, s2, counts2), |w.looks| - 1, a)
  {
    hide Shown;
  }

  lemma FurtherCurrent(par: Params, w: Watch, s: Sys, counts: map<Id, C.Count>, l: Label, counts2: map<Id, C.Count>)
    requires Current(par, w, s, counts) && l.who in s.nodes && Enabled(par, s, l) && C.AllCounted(counts, counts2, l) && Fit(After(par, s, l), counts2)
    ensures Current(par, Further(w, l, After(par, s, l), counts2), After(par, s, l), counts2)
  {
    hide IsRun, TagOk, Versioned, Fit, Enabled, React, C.AllCounted;
    var s2 := After(par, s, l);
    var w2 := Further(w, l, s2, counts2);
    KeysStay(par, s, l);
    FurtherRun(par, w, s, counts, l, counts2);
    FurtherTags(par, w, s, counts, l, s2, counts2);
    forall k, a | 0 <= k < |w2.looks| - 1 && a in par.servers
      ensures Versioned(w2, k, a)
    {
      FurtherVersions(par, w, s, counts, l, s2, counts2, k, a);
    }
    FurtherLooks(w, l, s2, counts2);
  }

  lemma KeysStay(par: Params, s: Sys, l: Label)
    requires l.who in s.nodes && Enabled(par, s, l)
    ensures After(par, s, l).nodes.Keys == s.nodes.Keys
  {
    hide React;
  }

  lemma FurtherLooks(w: Watch, l: Label, s2: Sys, counts2: map<Id, C.Count>)
    requires At(w, |w.looks|) == |w.run.labels|
    requires forall k | 0 <= k < |w.looks| :: At(w, k) <= w.looks[k].at <= At(w, k) + 1
    ensures var w2 := Further(w, l, s2, counts2);
            && At(w2, |w2.looks|) == |w2.run.labels|
            && forall k | 0 <= k < |w2.looks| :: At(w2, k) <= w2.looks[k].at <= At(w2, k) + 1
  {
    var w2 := Further(w, l, s2, counts2);
    forall k | 0 <= k < |w2.looks|
      ensures At(w2, k) <= w2.looks[k].at <= At(w2, k) + 1
    {
      assert At(w2, k) == At(w, k);
    }
  }

  // ---- what was remembered still is -------------------------------------------

  // The same looks and states, as far as w goes.
  ghost predicate GoesOn(w: Watch, w2: Watch) {
    w.looks <= w2.looks && w.run.states <= w2.run.states && w.run.labels <= w2.run.labels
    && |w.run.states| == |w.run.labels| + 1 && forall k | 0 <= k < |w.looks| :: w.looks[k].at < |w.run.states|
  }

  lemma SameAt(w: Watch, w2: Watch, j: nat, a: Id)
    requires GoesOn(w, w2) && j < |w.looks|
    ensures w2.looks[j] == w.looks[j] && Visible(w2, j, a) == Visible(w, j, a)
    ensures Visible(w, j, a) ==> Monitor.NodeAt(w2, j, a) == Monitor.NodeAt(w, j, a) && ShownAt(w2, j, a) == ShownAt(w, j, a)
  {
    hide Shown;
  }

  lemma LeadersStill(par: Params, w: Watch, w2: Watch, n: nat, known: map<nat, Id>, snapshots: map<Id, O.LeaderSnapshot>)
    requires GoesOn(w, w2) && n <= |w.looks| && LeadersFrom(par, w, n, known) && SnapshotsFrom(w, n, snapshots)
    ensures LeadersFrom(par, w2, n, known) && SnapshotsFrom(w2, n, snapshots)
  {
    hide GoesOn, Monitor.NodeAt, ShownAt, Visible;
    forall t | t in known
      ensures exists j: nat :: j < n && LedBy(par, w2, j, t, known[t])
    {
      var j: nat :| j < n && LedBy(par, w, j, t, known[t]);
      SameAt(w, w2, j, known[t]);
      assert LedBy(par, w2, j, t, known[t]) by { LooksGrow(w, w2); }
    }
    forall a | a in snapshots
      ensures exists j: nat :: j < n && ShownBy(w2, j, a, snapshots[a])
    {
      var j: nat :| j < n && ShownBy(w, j, a, snapshots[a]);
      SameAt(w, w2, j, a);
      assert ShownBy(w2, j, a, snapshots[a]) by { LooksGrow(w, w2); }
    }
  }

  lemma LooksGrow(w: Watch, w2: Watch)
    requires GoesOn(w, w2)
    ensures |w.looks| <= |w2.looks|
  {
  }

  lemma CommitsStill(w: Watch, w2: Watch, n: nat, committed: map<nat, K.Observed>, appliedAt: map<nat, Payload>)
    requires GoesOn(w, w2) && n <= |w.looks| && CommitsFrom(w, n, committed) && AppliesFrom(w, n, appliedAt)
    ensures CommitsFrom(w2, n, committed) && AppliesFrom(w2, n, appliedAt)
  {
    hide GoesOn, Monitor.NodeAt, ShownAt, Visible;
    forall k | k in committed
      ensures exists j: nat, a: Id :: j < n && CommittedBy(w2, j, a, k, committed[k])
    {
      var j: nat, a: Id :| j < n && CommittedBy(w, j, a, k, committed[k]);
      SameAt(w, w2, j, a);
      assert CommittedBy(w2, j, a, k, committed[k]) by { LooksGrow(w, w2); }
    }
    forall k | k in appliedAt
      ensures exists j: nat, a: Id :: j < n && AppliedBy(w2, j, a, k, appliedAt[k])
    {
      var j: nat, a: Id :| j < n && AppliedBy(w, j, a, k, appliedAt[k]);
      SameAt(w, w2, j, a);
      assert AppliedBy(w2, j, a, k, appliedAt[k]) by { LooksGrow(w, w2); }
    }
  }

  lemma MeaningStill(w: Watch, w2: Watch, n: nat, meaning: map<(Id, nat), K.Physical>)
    requires GoesOn(w, w2) && n <= |w.looks| && MeaningFrom(w, n, meaning)
    ensures MeaningFrom(w2, n, meaning)
  {
    hide GoesOn, Monitor.NodeAt, ShownAt, Visible;
    forall v | v in meaning
      ensures exists j: nat :: j < n && j < |w2.looks| && NamedBy(w2, j, v, meaning[v])
    {
      var j: nat :| j < n && j < |w.looks| && NamedBy(w, j, v, meaning[v]);
      SameAt(w, w2, j, v.0);
      LooksGrow(w, w2);
      assert NamedBy(w2, j, v, meaning[v]);
    }
  }

  lemma ProgressStill(par: Params, w: Watch, w2: Watch, n: nat, m: O.Memory)
    requires GoesOn(w, w2) && n <= |w.looks| && ProgressFrom(par, w, n, m.prevCommit, m.lastIncarnation)
    requires At(w, n) < |w.run.states| && Ceiling(w.run, At(w, n), m.maxCommit)
    ensures ProgressFrom(par, w2, n, m.prevCommit, m.lastIncarnation)
    ensures At(w2, n) < |w2.run.states| && Ceiling(w2.run, At(w2, n), m.maxCommit)
  {
    var i := At(w, n);
    assert At(w2, n) == i;
    assert w2.run.labels[..i] == w.run.labels[..i];
    forall j, b | 0 <= j <= i && b in w2.run.states[j].nodes
      ensures w2.run.states[j].nodes[b].commit <= m.maxCommit
    {
      assert w2.run.states[j] == w.run.states[j];
    }
  }

  lemma RecalledStill(par: Params, w: Watch, w2: Watch, n: nat, m: O.Memory)
    requires GoesOn(w, w2) && n <= |w.looks| && Recalled(par, w, n, m)
    ensures n <= |w2.looks| && Recalled(par, w2, n, m)
  {
    hide GoesOn, LeadersFrom, SnapshotsFrom, CommitsFrom, AppliesFrom, ProgressFrom, Ceiling;
    LooksGrow(w, w2);
    LeadersStill(par, w, w2, n, m.leadersByTerm, m.leaderSnapshots);
    CommitsStill(w, w2, n, m.committed, m.appliedAt);
    ProgressStill(par, w, w2, n, m);
  }

  // ---- the objects ------------------------------------------------------------

  class Monitored {
    const cluster: C.Cluster
    const checker: O.InvariantChecker

    // the run so far, and every look at it
    ghost var watch: Watch

    ghost predicate Valid()
      reads this, cluster, cluster.objects, checker
    {
      && cluster.Valid() && this !in cluster.objects && checker !in cluster.objects
      && Current(cluster.su.par, watch, cluster.sys, cluster.Counts())
      && Remembers(watch)
    }

    // The checker's records are of the looks so far.
    ghost predicate Remembers(w: Watch)
      reads checker
    {
      && checker.Valid()
      && Recalled(cluster.su.par, w, |w.looks|, checker.Records()) && MeaningFrom(w, |w.looks|, checker.meaning)
    }

    constructor (su: M.Setup, clients: nat, workload: (nat, nat) -> KvStore.Command)
      requires su.par.initial <= su.par.servers && clients > 0
      requires forall c: nat, r: nat :: KvStore.Structured(workload(c, r)) && workload(c, r).client == c && workload(c, r).req == r
      ensures Valid() && fresh(cluster) && fresh(cluster.objects) && fresh(checker) && M.Beginning(su, cluster.Abs())
    {
      hide Current, Recalled, MeaningFrom, Watched, C.Cluster.Valid;
      cluster := new C.Cluster(su, clients, workload);
      checker := new O.InvariantChecker();
      new;
      watch := Watch(Run([cluster.sys], []), []);
      CountsFit(cluster);
      BeginningCurrent(su.par, cluster.sys, cluster.Counts());
      CurrentWatched(su.par, watch, cluster.sys, cluster.Counts());
      Monitor.NothingYet(su.par, watch, checker.Records());
    }

    // A message is delivered, and the checker looks.
    method Deliver(p: Packet<Image>) returns (v: Option<K.Violation>)
      requires Valid() && p in cluster.inFlight
      modifies this, cluster, cluster.objects, checker
      ensures Valid() && fresh(cluster.objects - old(cluster.objects)) && v.None?
    {
      hide Current, Remembers, M.Moved, M.MayMove, M.LabelOf, C.AllCounted, C.Cluster.Valid, C.Cluster.Counts, After, Enabled;
      ghost var w, s, counts := cluster.Abs(), cluster.sys, cluster.Counts();
      ghost var m := cluster.Deliver(p);
      MoveIs(cluster.su, w, m);
      v := Observe(s, counts, M.LabelOf(cluster.su, m));
    }

    // A timer fires, a server crashes or restarts, or a membership change is proposed.
    method Happen(i: Id, act: C.Act) returns (v: Option<K.Violation>)
      requires Valid() && i in cluster.nodes && !act.Submit? && !act.Read?
      requires act.Reconfigure? ==> act.voters <= cluster.su.par.servers
      modifies this, cluster, cluster.objects, checker
      ensures Valid() && fresh(cluster.objects - old(cluster.objects)) && v.None?
    {
      hide Current, Remembers, M.Moved, M.MayMove, M.LabelOf, C.AllCounted, C.Cluster.Valid, C.Cluster.Counts, After, Enabled;
      ghost var w, s, counts := cluster.Abs(), cluster.sys, cluster.Counts();
      ghost var m := cluster.Happen(i, act);
      MoveIs(cluster.su, w, m);
      v := Observe(s, counts, M.LabelOf(cluster.su, m));
    }

    // A client acts.
    method ClientTick(target: Id) returns (v: Option<K.Violation>)
      requires Valid() && target in cluster.nodes
      modifies this, cluster, cluster.objects, checker
      ensures Valid() && fresh(cluster.objects - old(cluster.objects)) && v.None?
    {
      hide Current, Remembers, M.Moved, M.MayMove, M.LabelOf, C.AllCounted, C.Cluster.Valid, C.Cluster.Counts, After, Enabled;
      ghost var w, s, counts := cluster.Abs(), cluster.sys, cluster.Counts();
      ghost var m := cluster.ClientTick(target);
      MoveIs(cluster.su, w, m);
      v := Observe(s, counts, M.LabelOf(cluster.su, m));
    }

    // ---- looking ----------------------------------------------------------------

    // The checker looks at the cluster after a step, and has nothing to raise.
    method Observe(ghost s: Sys, ghost counts: map<Id, C.Count>, ghost l: Label) returns (v: Option<K.Violation>)
      requires cluster.Valid() && this !in cluster.objects && checker !in cluster.objects
      requires Current(cluster.su.par, watch, s, counts) && Remembers(watch)
      requires l.who in s.nodes && Enabled(cluster.su.par, s, l) && cluster.sys == After(cluster.su.par, s, l) && C.AllCounted(counts, cluster.Counts(), l)
      modifies this, checker
      ensures Valid() && v.None?
    {
      hide Current, Watched, Recalled, MeaningFrom, C.Cluster.Valid, C.Cluster.Counts, O.InvariantChecker.Valid, O.AllWell, O.Verdict, O.Updated, ViewsAt, Enabled, After, C.AllCounted, GoesOn, Further, Fit, K.WellFormed, O.Named;
      ghost var par, n, before := cluster.su.par, |watch.looks|, checker.Records();
      ghost var w2 := Further(watch, l, cluster.sys, cluster.Counts());
      CountsFit(cluster);
      FurtherCurrent(par, watch, s, counts, l, cluster.Counts());
      CurrentWatched(par, w2, cluster.sys, cluster.Counts());
      FurtherGoes(par, watch, s, counts, l, cluster.sys, cluster.Counts());
      RecalledStill(par, watch, w2, n, before);
      MeaningStill(watch, w2, n, checker.meaning);
      Monitor.Servers(par, w2, n);
      var views := Seen();
      SeenIs(par, w2, cluster.Counts());
      Monitor.Ready(par, w2, n, checker.meaning);
      Monitor.NothingToFind(par, w2, n, before);
      v := checker.Check(views);
      O.WellIsSilent(before, views, v);
      Monitor.RecalledNow(par, w2, n, before, checker.Records());
      watch := w2;
    }

    // What the server objects expose.
    function Seen(): map<Id, K.View>
      reads cluster`nodes, set i | i in cluster.nodes :: cluster.nodes[i]
    {
      map i | i in cluster.nodes :: SeenOf(cluster.nodes[i])
    }

    static function SeenOf(o: RaftNode): K.View
      reads o
    {
      K.View(o.role == Leader, o.term, K.Physical(o.log, o.baseIndex), o.commitIndex, o.applied, o.logVersion, o.incarnation, o.voters)
    }

    // It is the view of the protocol state they represent.
    lemma SeenIs(par: Params, w: Watch, counts: map<Id, C.Count>)
      requires cluster.Valid() && par == cluster.su.par && counts == cluster.Counts() && Current(par, w, cluster.sys, counts) && w.looks != []
      ensures w.looks[|w.looks| - 1].at < |w.run.states| && Seen() == ViewsAt(par, w, |w.looks| - 1)
    {
      hide C.Cluster.Valid, C.Cluster.Represents, Watched, Fit, ViewOf, SeenOf;
      cluster.AllHere();
      forall i | i in cluster.nodes
        ensures i in cluster.sys.nodes && SeenOf(cluster.nodes[i]) == ViewOf(par, cluster.sys.nodes[i], TagsOf(counts)[i])
      {
        cluster.Here(i);
        NodeFits(par, cluster.nodes[i], i, cluster.sys.nodes[i]);
      }
    }

    static lemma CountsFit(cluster: C.Cluster)
      requires cluster.Valid()
      ensures Fit(cluster.sys, cluster.Counts())
    {
      hide C.Cluster.Valid, C.Cluster.Represents, Shown;
      cluster.AllHere();
      forall i | i in cluster.sys.nodes
        ensures var o, n := cluster.nodes[i], cluster.sys.nodes[i];
                n.base == o.baseIndex <= n.commit && Shown(n, o.baseIndex) == K.Physical(o.log, o.baseIndex)
      {
        cluster.Here(i);
        NodeFits(cluster.su.par, cluster.nodes[i], i, cluster.sys.nodes[i]);
      }
    }

    // A server object exposes what its protocol state does.
    static lemma NodeFits(par: Params, o: RaftNode, i: Id, n: Node)
      requires C.Cluster.Represents(par, o, i, n)
      ensures n.base == o.baseIndex <= n.commit && Shown(n, o.baseIndex) == K.Physical(o.log, o.baseIndex)
      ensures SeenOf(o) == ViewOf(par, n, Tag(o.logVersion, o.incarnation, o.baseIndex))
    {
      hide StateAfter, ConfigOf, SnapshotView, LeaderView, ConfigsWithin, IndexView;
      assert Drop(Take(n.log, n.commit), n.base) == n.log[n.base..n.commit];
    }
  }

  lemma MoveIs(su: M.Setup, w: M.World, m: M.Move)
    requires M.MayMove(su, w, m)
    ensures M.LabelOf(su, m).who in w.sys.nodes && Enabled(su.par, w.sys, M.LabelOf(su, m))
    ensures M.Moved(su, w, m).sys == After(su.par, w.sys, M.LabelOf(su, m))
  {
    hide M.Moved, React;
    C.Cluster.MovedSys(su, w, m);
    C.Cluster.LabelEnabled(su, w, m);
  }

  lemma CurrentWatched(par: Params, w: Watch, s: Sys, counts: map<Id, C.Count>)
    requires Current(par, w, s, counts)
    ensures Watched(par, w)
  {
  }

  lemma FurtherGoes(par: Params, w: Watch, s: Sys, counts: map<Id, C.Count>, l: Label, s2: Sys, counts2: map<Id, C.Count>)
    requires Current(par, w, s, counts)
    ensures GoesOn(w, Further(w, l, s2, counts2)) && |Further(w, l, s2, counts2).looks| == |w.looks| + 1
  {
    hide IsRun, TagOk, Versioned;
  }
}
