// The cluster as a state machine, and Raft's safety properties over every run of it.
module Safety {
  import opened Prelude
  import opened RaftTypes
  import opened RaftSpec
  import opened History
  import opened Completeness
  import opened Invariant
  import opened Moves
  import opened Handlers
  import opened Reads
  import KvStore

  // The network keeps every message ever sent and may deliver it any number of times, in any
  // order, or never; servers crash and restart at will; clients and the membership driver
  // may act on any server at any time.
  datatype Sys = Sys(nodes: map<Id, Node>, net: set<Packet<Log>>)

  datatype Label = Label(who: Id, event: Event)

  predicate Init(par: Params, s: Sys) {
    && par.initial <= par.servers
    && s.nodes.Keys == par.servers
    && (forall i | i in s.nodes :: s.nodes[i] == Start())
    && s.net == {}
  }

  // Only sent messages arrive; configurations name existing servers; client commands are
  // not configurations.
  predicate Enabled(par: Params, s: Sys, l: Label) {
    && l.who in s.nodes
    && match l.event
       case Receive(m) => Packet(l.who, m) in s.net
       case Command(p) => !p.Config?
       case Change(voters) => voters <= par.servers
       case _ => true
  }

  function Outcome(par: Params, s: Sys, l: Label): Out
    requires l.who in s.nodes
  {
    React(par, l.who, s.nodes[l.who], l.event)
  }

  function After(par: Params, s: Sys, l: Label): Sys
    requires l.who in s.nodes
  {
    var o := Outcome(par, s, l);
    Sys(s.nodes[l.who := o.node], s.net + o.sends)
  }

  datatype Run = Run(states: seq<Sys>, labels: seq<Label>)

  ghost predicate IsRun(par: Params, r: Run) {
    && |r.states| == |r.labels| + 1
    && Init(par, r.states[0])
    && forall i | 0 <= i < |r.labels| :: Enabled(par, r.states[i], r.labels[i]) && r.states[i + 1] == After(par, r.states[i], r.labels[i])
  }

  // ---- the invariant ----------------------------------------------------------

  ghost predicate Inv(par: Params, s: Sys, h: Hist) {
    && HistOk(par, h)
    && s.nodes.Keys == par.servers
    && (forall i {:trigger NodeOk(par, h, i, s.nodes[i])} | i in s.nodes :: NodeOk(par, h, i, s.nodes[i]))
    && SendsOk(h, s.net)
  }

  // What one step adds to the history.
  ghost predicate Extends(par: Params, s: Sys, l: Label, h1: Hist, h2: Hist)
    requires l.who in s.nodes
  {
    && Grows(h1, h2, l.who)
    && CommitsBy(h1, h2, Outcome(par, s, l).node)
    && ReignsBy(h1, h2, Outcome(par, s, l).node)
    && (Accepted(s.nodes[l.who], l.event) ==> h2 == Marked(h1, l.who, s.nodes[l.who], l.event.command))
  }

  lemma InitInv(par: Params, s: Sys)
    requires Init(par, s)
    ensures Inv(par, s, NOTHING)
  {
    forall i | i in s.nodes
      ensures NodeOk(par, NOTHING, i, s.nodes[i])
    {
    }
  }

  lemma StepInv(par: Params, s: Sys, h: Hist, l: Label) returns (h2: Hist)
    requires Inv(par, s, h) && Enabled(par, s, l)
    ensures Inv(par, After(par, s, l), h2) && Extends(par, s, l, h, h2)
  {
    hide HistOk, NodeOk, MsgOk, Marked, React, CommitsBy;
    var n := s.nodes[l.who];
    assert NodeOk(par, h, l.who, s.nodes[l.who]);
    assert Fair(par, h, l.who, l.event) by {
      match l.event
      case Receive(m) => assert MsgOk(h, Packet(l.who, m));
      case _ =>
    }
    h2 := ReactKeeps(par, h, l.who, n, l.event);
    var o, s2 := Outcome(par, s, l), After(par, s, l);
    forall i | i in s2.nodes
      ensures NodeOk(par, h2, i, s2.nodes[i])
    {
      if i != l.who {
        assert NodeOk(par, h, i, s.nodes[i]);
        NodeLater(par, h, h2, l.who, i, s.nodes[i]);
      }
    }
    SendsLater(par, h, h2, s.net);
  }

  // Every run has a history.
  ghost predicate Told(par: Params, r: Run, hs: seq<Hist>) {
    && |hs| == |r.states| == |r.labels| + 1
    && hs[0] == NOTHING
    && (forall i {:trigger Inv(par, r.states[i], hs[i])} | 0 <= i < |hs| :: Inv(par, r.states[i], hs[i]))
    && (forall i | 0 <= i < |r.labels| :: r.labels[i].who in r.states[i].nodes && Extends(par, r.states[i], r.labels[i], hs[i], hs[i + 1]))
  }

  lemma {:induction false} Telling(par: Params, r: Run) returns (hs: seq<Hist>)
    requires IsRun(par, r)
    ensures Told(par, r, hs)
    decreases |r.labels|
  {
    hide HistOk, NodeOk, SendsOk, After, Extends, Init;
    if |r.labels| == 0 {
      InitInv(par, r.states[0]);
      hs := [NOTHING];
    } else {
      var n := |r.labels| - 1;
      var before := Run(r.states[..n + 1], r.labels[..n]);
      hs := Telling(par, before);
      assert Inv(par, before.states[n], hs[n]);
      var h2 := StepInv(par, r.states[n], hs[n], r.labels[n]);
      ToldMore(par, r, before, hs, h2);
      hs := hs + [h2];
    }
  }

  lemma ToldMore(par: Params, r: Run, before: Run, hs: seq<Hist>, h2: Hist)
    requires |r.labels| > 0 && |r.states| == |r.labels| + 1
    requires var n := |r.labels| - 1; before == Run(r.states[..n + 1], r.labels[..n])
    requires Told(par, before, hs) && r.labels[|r.labels| - 1].who in r.states[|r.labels| - 1].nodes
    requires Inv(par, r.states[|r.labels|], h2)
    requires Extends(par, r.states[|r.labels| - 1], r.labels[|r.labels| - 1], hs[|r.labels| - 1], h2)
    ensures Told(par, r, hs + [h2])
  {
    hide Inv, Extends;
    var n, all := |r.labels| - 1, hs + [h2];
    forall i | 0 <= i < |all|
      ensures Inv(par, r.states[i], all[i])
    {
      if i <= n {
        assert Inv(par, before.states[i], hs[i]);
      }
    }
    forall i | 0 <= i < |r.labels|
      ensures r.labels[i].who in r.states[i].nodes && Extends(par, r.states[i], r.labels[i], all[i], all[i + 1])
    {
      if i < n {
        assert before.labels[i].who in before.states[i].nodes;
        assert Extends(par, before.states[i], before.labels[i], hs[i], hs[i + 1]);
      }
    }
  }

  lemma {:induction false} ToldLater(par: Params, r: Run, hs: seq<Hist>, i: nat, j: nat)
    requires Told(par, r, hs) && i <= j < |hs|
    ensures Later(hs[i], hs[j])
    decreases j - i
  {
    hide Inv;
    if i < j {
      ToldLater(par, r, hs, i + 1, j);
      assert Grows(hs[i], hs[i + 1], r.labels[i].who);
    }
  }

  // ---- the history seen from two moments --------------------------------------

  lemma NodeAt(par: Params, r: Run, hs: seq<Hist>, i: nat, a: Id)
    requires Told(par, r, hs) && i < |hs| && a in r.states[i].nodes
    ensures HistOk(par, hs[i]) && NodeOk(par, hs[i], a, r.states[i].nodes[a])
  {
    hide HistOk, NodeOk, Extends;
    assert Inv(par, r.states[i], hs[i]);
    assert NodeOk(par, hs[i], a, r.states[i].nodes[a]);
  }

  lemma HistAt(par: Params, r: Run, hs: seq<Hist>, i: nat)
    requires Told(par, r, hs) && i < |hs|
    ensures HistOk(par, hs[i])
  {
    hide HistOk, NodeOk, Extends;
    assert Inv(par, r.states[i], hs[i]);
  }

  // A node's log, commit index and leadership at moment i, in terms of a later history.
  ghost predicate Seen(par: Params, h: Hist, id: Id, n: Node) {
    && LogOk(h, n)
    && (n.role == Leader ==>
          && n.term in h.reigns && h.reigns[n.term].leader == id
          && h.reigns[n.term].start <= n.log <= h.reigns[n.term].log)
  }

  lemma SeenFrom(par: Params, r: Run, hs: seq<Hist>, i: nat, j: nat, a: Id)
    requires Told(par, r, hs) && i <= j < |hs| && a in r.states[i].nodes
    ensures Seen(par, hs[j], a, r.states[i].nodes[a]) && HistOk(par, hs[j])
  {
    hide Inv, NodeOk, Extends;
    var n := r.states[i].nodes[a];
    NodeAt(par, r, hs, i, a);
    HistAt(par, r, hs, j);
    ToldLater(par, r, hs, i, j);
    Parts(par, hs[i], a, n);
    LogLater(hs[i], hs[j], n);
    if n.role == Leader {
      assert ReignOk(par, hs[i], n.term, hs[i].reigns[n.term]);
      assert Continues(hs[i].reigns[n.term], hs[j].reigns[n.term]);
    }
  }

  // ---- the safety properties --------------------------------------------------

  // Election Safety: one leader per term, over the whole run.
  lemma ElectionSafety(par: Params, r: Run, i: nat, a: Id, j: nat, b: Id)
    requires IsRun(par, r) && i < |r.states| && j < |r.states|
    requires a in r.states[i].nodes && b in r.states[j].nodes
    requires r.states[i].nodes[a].role == Leader && r.states[j].nodes[b].role == Leader
    requires r.states[i].nodes[a].term == r.states[j].nodes[b].term
    ensures a == b
  {
    var hs := Telling(par, r);
    SeenFrom(par, r, hs, i, Max(i, j), a);
    SeenFrom(par, r, hs, j, Max(i, j), b);
  }

  // Log Matching: the same term at the same index means the same entries up to there, in
  // any two logs at any two moments.
  lemma LogMatching(par: Params, r: Run, i: nat, a: Id, j: nat, b: Id, k: nat)
    requires IsRun(par, r) && i < |r.states| && j < |r.states|
    requires a in r.states[i].nodes && b in r.states[j].nodes
    requires 0 < k <= |r.states[i].nodes[a].log| && k <= |r.states[j].nodes[b].log|
    requires TermAt(r.states[i].nodes[a].log, k) == TermAt(r.states[j].nodes[b].log, k)
    ensures r.states[i].nodes[a].log[..k] == r.states[j].nodes[b].log[..k]
  {
    var hs := Telling(par, r);
    SeenFrom(par, r, hs, i, Max(i, j), a);
    SeenFrom(par, r, hs, j, Max(i, j), b);
    Matching(hs[Max(i, j)], r.states[i].nodes[a].log, r.states[j].nodes[b].log, k - 1);
  }

  // Leader Append-Only: while it leads one term, a server only ever extends its log.
  lemma LeaderAppendOnly(par: Params, r: Run, i: nat, j: nat, a: Id)
    requires IsRun(par, r) && i <= j < |r.states|
    requires a in r.states[i].nodes && a in r.states[j].nodes
    requires r.states[i].nodes[a].role == Leader && r.states[j].nodes[a].role == Leader
    requires r.states[i].nodes[a].term == r.states[j].nodes[a].term
    ensures r.states[i].nodes[a].log <= r.states[j].nodes[a].log
  {
    var hs := Telling(par, r);
    SeenFrom(par, r, hs, i, j, a);
    NodeAt(par, r, hs, j, a);
    Parts(par, hs[j], a, r.states[j].nodes[a]);
  }

  // Leader Completeness: what any server ever knew committed, in whatever term, is in the
  // log of every leader of a later term, whenever that leader is looked at.
  lemma LeaderCompleteness(par: Params, r: Run, i: nat, a: Id, j: nat, b: Id)
    requires IsRun(par, r) && i < |r.states| && j < |r.states|
    requires a in r.states[i].nodes && b in r.states[j].nodes
    requires r.states[j].nodes[b].role == Leader && r.states[i].nodes[a].term < r.states[j].nodes[b].term
    ensures r.states[i].nodes[a].commit <= |r.states[i].nodes[a].log|
    ensures r.states[i].nodes[a].log[..r.states[i].nodes[a].commit] <= r.states[j].nodes[b].log
  {
    var hs := Telling(par, r);
    var h := hs[Max(i, j)];
    var x, y := r.states[i].nodes[a], r.states[j].nodes[b];
    SeenFrom(par, r, hs, i, Max(i, j), a);
    SeenFrom(par, r, hs, j, Max(i, j), b);
    DecidedEarlier(par, h, x.term, x.log[..x.commit], y.term);
  }

  lemma DecidedEarlier(par: Params, h: Hist, s: nat, p: Log, t: nat)
    requires HistOk(par, h) && Decided(h, s, p) && t in h.reigns && s < t
    ensures p <= h.reigns[t].start
  {
    if p != [] {
      var c :| c in h.commits && c.term <= s && p <= Done(c);
      assert Carried(c, h.reigns[t]);
    }
  }

  // And a leader of the same term holds it too, from then on.
  lemma LeaderHolds(par: Params, r: Run, i: nat, a: Id, j: nat, b: Id)
    requires IsRun(par, r) && i <= j < |r.states|
    requires a in r.states[i].nodes && b in r.states[j].nodes
    requires r.states[j].nodes[b].role == Leader && r.states[i].nodes[a].term <= r.states[j].nodes[b].term
    ensures r.states[i].nodes[a].commit <= |r.states[i].nodes[a].log|
    ensures r.states[i].nodes[a].log[..r.states[i].nodes[a].commit] <= r.states[j].nodes[b].log
  {
    var hs := Telling(par, r);
    var x, y := r.states[i].nodes[a], r.states[j].nodes[b];
    SeenFrom(par, r, hs, i, j, a);
    NodeAt(par, r, hs, j, b);
    Parts(par, hs[j], b, y);
    DecidedHeld(par, hs[j], x.term, x.log[..x.commit], y.term);
  }

  // State Machine Safety: the committed logs of any two servers, at any two moments, agree
  // as far as both go, so both applied the same commands and reached the same states.
  lemma StateMachineSafety(par: Params, r: Run, i: nat, a: Id, j: nat, b: Id, k: nat)
    requires IsRun(par, r) && i < |r.states| && j < |r.states|
    requires a in r.states[i].nodes && b in r.states[j].nodes
    requires k <= r.states[i].nodes[a].commit && k <= r.states[j].nodes[b].commit
    ensures k <= |r.states[i].nodes[a].log| && k <= |r.states[j].nodes[b].log|
    ensures r.states[i].nodes[a].log[..k] == r.states[j].nodes[b].log[..k]
    ensures StateAfter(r.states[i].nodes[a].log[..k]) == StateAfter(r.states[j].nodes[b].log[..k])
  {
    var hs := Telling(par, r);
    var h := hs[Max(i, j)];
    var x, y := r.states[i].nodes[a], r.states[j].nodes[b];
    SeenFrom(par, r, hs, i, Max(i, j), a);
    SeenFrom(par, r, hs, j, Max(i, j), b);
    DecidedAgree(par, h, x.term, x.log[..x.commit], y.term, y.log[..y.commit]);
    assert x.log[..k] == x.log[..x.commit][..k] && y.log[..k] == y.log[..y.commit][..k];
  }

  lemma DecidedAgree(par: Params, h: Hist, s: nat, p: Log, t: nat, q: Log)
    requires HistOk(par, h) && Decided(h, s, p) && Decided(h, t, q)
    ensures p <= q || q <= p
  {
    if p != [] && q != [] {
      var c :| c in h.commits && c.term <= s && p <= Done(c);
      var d :| d in h.commits && d.term <= t && q <= Done(d);
      CommitsAgree(par, h, Max(c.term, d.term) + 1, c, d);
    }
  }

  // ---- what traffic and crashes cannot harm -----------------------------------

  // Short of a crash, a step never lowers the commit index and never touches the log at or
  // below it; and no step ever does harm to the snapshot boundary.
  lemma CommittedPrefixStays(par: Params, r: Run, i: nat, a: Id)
    requires IsRun(par, r) && i < |r.labels| && a in r.states[i].nodes
    ensures a in r.states[i + 1].nodes
    ensures var x, y := r.states[i].nodes[a], r.states[i + 1].nodes[a];
            && x.base <= x.commit <= |x.log| && y.base <= y.commit <= |y.log|
            && x.base <= y.base && x.term <= y.term
            && (r.labels[i] != Label(a, Pause) ==> x.commit <= y.commit)
            && x.log[..x.commit] <= y.log
  {
    var hs := Telling(par, r);
    var x, y := r.states[i].nodes[a], r.states[i + 1].nodes[a];
    NodeAt(par, r, hs, i, a);
    NodeAt(par, r, hs, i + 1, a);
    Parts(par, hs[i], a, x);
    Parts(par, hs[i + 1], a, y);
    if r.labels[i].who == a {
      assert Inv(par, r.states[i], hs[i]);
      EventFair(par, r.states[i], hs[i], r.labels[i]);
      ReactStays(par, hs[i], a, x, r.labels[i].event);
    }
  }

  lemma EventFair(par: Params, s: Sys, h: Hist, l: Label)
    requires Inv(par, s, h) && Enabled(par, s, l)
    ensures Fair(par, h, l.who, l.event)
  {
    hide HistOk, NodeOk, MsgOk;
    match l.event
    case Receive(m) => assert MsgOk(h, Packet(l.who, m));
    case _ =>
  }

  ghost predicate Stays(x: Node, y: Node) {
    x.base <= y.base && x.term <= y.term && x.commit <= y.commit && x.commit <= |x.log| && x.log[..x.commit] <= y.log
  }

  lemma ReactStays(par: Params, h: Hist, id: Id, n: Node, ev: Event)
    requires HistOk(par, h) && NodeOk(par, h, id, n) && Fair(par, h, id, ev)
    ensures ev != Pause ==> Stays(n, React(par, id, n, ev).node)
    ensures ev == Pause ==> React(par, id, n, ev).node.log == n.log && React(par, id, n, ev).node.base == n.base
    ensures ev == Pause ==> React(par, id, n, ev).node.term == n.term
  {
    hide HistOk, MsgOk, Heartbeats, StateAfter, ApplyRange, OnRequestVote, OnVoteReply, OnAppendReply, OnReadHeartbeat, OnReadAck, OnAppendEntries, OnInstallSnapshot, ClientIndex, Decided, Grounded, VotesOk, AcksOk, CandidateOk, LeaderOk, ReadsOk;
    Parts(par, h, id, n);
    if ev.Receive? && n.alive {
      match ev.msg
      case AppendEntries(_, _, _, _, _, _) => AppendEntriesStays(par, h, id, n, ev.msg);
      case InstallSnapshot(_, _, _, _, _) => InstallSnapshotStays(par, h, id, n, ev.msg);
      case _ =>
        OtherMessagesStay(par, id, n, ev.msg);
    }
  }

  lemma OtherMessagesStay(par: Params, id: Id, n: Node, m: Message<Log>)
    requires n.base <= n.commit <= |n.log| && n.alive && !m.AppendEntries? && !m.InstallSnapshot?
    ensures Stays(n, Handle(par, id, n, m).node)
  {
    hide Stays;
    if m.AppendReply? {
      ReplyStays(par, id, n, m);
    } else {
      VotesAndReadsStay(par, id, n, m);
    }
  }

  lemma VotesAndReadsStay(par: Params, id: Id, n: Node, m: Message<Log>)
    requires n.base <= n.commit <= |n.log| && n.alive
    requires !m.AppendEntries? && !m.InstallSnapshot? && !m.AppendReply?
    ensures Stays(n, Handle(par, id, n, m).node)
  {
    hide Heartbeats, StateAfter, ClientIndex, Grants, OnAppendEntries, OnAppendReply, OnInstallSnapshot, Majority, MaybeWin;
    match m
    case VoteReply(_, _, _) => WinStays(par, id, n.(votes := n.votes + {m.voter}));
    case _ =>
  }

  lemma WinStays(par: Params, id: Id, n: Node)
    requires n.base <= n.commit <= |n.log|
    ensures Stays(n, MaybeWin(par, id, n).node)
  {
    hide Heartbeats, ClientIndex, Majority;
  }

  lemma ReplyStays(par: Params, id: Id, n: Node, m: Message<Log>)
    requires n.base <= n.commit <= |n.log| && m.AppendReply?
    ensures Stays(n, OnAppendReply(par, id, n, m).node)
  {
    hide AdvanceCommit, AppendFor, NextFor, MatchFor;
    if m.term == n.term && n.role == Leader && m.success {
      AdvanceStays(par, n.(
        matched := n.matched[m.follower := Max(MatchFor(n, m.follower), m.matchIndex)],
        next := n.next[m.follower := Max(NextFor(n, m.follower), m.matchIndex + 1)]));
    }
  }

  lemma AdvanceStays(par: Params, n: Node)
    requires n.base <= n.commit <= |n.log|
    ensures Stays(n, AdvanceCommit(par, n).node)
  {
    hide StateAfter, ApplyRange, Replicated;
    ScanFinds(par, n, |n.log|);
  }

  lemma AppendEntriesStays(par: Params, h: Hist, id: Id, n: Node, m: Message<Log>)
    requires HistOk(par, h) && NodeOk(par, h, id, n) && MsgOk(h, Packet(id, m)) && m.AppendEntries?
    ensures Stays(n, OnAppendEntries(par, id, n, m).node)
  {
    hide HistOk, NodeOk, Accept, Consistent, MsgOk;
    Parts(par, h, id, n);
    if m.term >= n.term {
      var f := Heard(n, m.term);
      HeardKeeps(par, h, id, n, m.term);
      if Consistent(f, m) {
        AcceptStays(par, h, id, f, m);
      }
    }
  }

  lemma AcceptStays(par: Params, h: Hist, id: Id, f: Node, m: Message<Log>)
    requires HistOk(par, h) && NodeOk(par, h, id, f) && MsgOk(h, Packet(id, m)) && m.AppendEntries?
    requires f.term == m.term && Consistent(f, m)
    ensures Stays(f, Accept(par, id, f, m).node)
  {
    hide HistOk, NodeOk, Accept, Consistent, SetCommit, Merge, PrevIndex, PrevTerm, Covered, Stored, Grounded;
    var b := Brought(h, m);
    Parts(par, h, id, f);
    AppendEntriesStores(par, h, id, f, m);
    BroughtGrounded(par, h, m);
    StoredLog(par, h, f, b);
    AcceptIs(par, id, f, m, b);
    RaisedStays(par, f, Stored(f.log, b), Min(m.leaderCommit, |b|));
  }

  lemma RaisedStays(par: Params, f: Node, x: Log, k: nat)
    requires f.base <= f.commit <= |f.log| && f.log[..f.commit] <= x
    ensures var o := SetCommit(par, f.(log := x), k).node;
            o.term == f.term && Stays(f, o)
  {
    hide ApplyRange;
  }

  lemma InstallSnapshotStays(par: Params, h: Hist, id: Id, n: Node, m: Message<Log>)
    requires HistOk(par, h) && NodeOk(par, h, id, n) && MsgOk(h, Packet(id, m)) && m.InstallSnapshot?
    ensures Stays(n, OnInstallSnapshot(par, id, n, m).node)
  {
    hide HistOk, NodeOk, Stored, VotesOk, AcksOk, CandidateOk, LeaderOk, ReadsOk, Install;
    Parts(par, h, id, n);
    if m.term >= n.term {
      var f := Heard(n, m.term);
      HeardKeeps(par, h, id, n, m.term);
      Parts(par, h, id, f);
      if m.lastIndex > f.commit {
        SnapshotStores(par, h, id, f, m);
        StoredLog(par, h, f, m.image);
      }
    }
  }

  // On a leader, replication progress stays within its log.
  lemma ProgressWithinLog(par: Params, r: Run, i: nat, a: Id, p: Id)
    requires IsRun(par, r) && i < |r.states| && a in r.states[i].nodes && r.states[i].nodes[a].role == Leader
    ensures MatchFor(r.states[i].nodes[a], p) <= |r.states[i].nodes[a].log|
    ensures 1 <= NextFor(r.states[i].nodes[a], p) <= |r.states[i].nodes[a].log| + 1
    ensures p in par.servers && p != a ==> p in r.states[i].nodes[a].next
  {
    var hs := Telling(par, r);
    NodeAt(par, r, hs, i, a);
    Parts(par, hs[i], a, r.states[i].nodes[a]);
  }

  // ---- commit quorum ----------------------------------------------------------

  // The highest commit index any server has had up to moment i.
  ghost predicate Ceiling(r: Run, i: nat, g: nat)
    requires i < |r.states|
  {
    forall j, b | 0 <= j <= i && b in r.states[j].nodes :: r.states[j].nodes[b].commit <= g
  }

  lemma {:induction false} CommitsUnderCeiling(par: Params, r: Run, hs: seq<Hist>, i: nat, g: nat, c: Commit)
    requires Told(par, r, hs) && IsRun(par, r) && i < |hs| && Ceiling(r, i, g) && c in hs[i].commits
    ensures c.index <= g
    decreases i
  {
    hide Inv, Grows, Marked, React, NodeOk;
    if i > 0 {
      if c in hs[i - 1].commits {
        CommitsUnderCeiling(par, r, hs, i - 1, g, c);
      } else {
        assert Extends(par, r.states[i - 1], r.labels[i - 1], hs[i - 1], hs[i]);
        assert r.states[i].nodes[r.labels[i - 1].who].commit <= g;
      }
    }
  }

  // Servers of the leader's configuration that hold its log up to k right now.
  ghost function HoldersOf(par: Params, s: Sys, a: Id, k: nat): set<Id>
    requires a in s.nodes
  {
    set v | v in Voters(par, s.nodes[a]) && v in s.nodes && Take(s.nodes[a].log, k) <= s.nodes[v].log
  }

  // A commit index no server ever reached before is reached first by a leader, and a
  // majority of its voting set holds the entries at that very moment, wherever their terms
  // have moved on to.
  lemma CommitQuorum(par: Params, r: Run, i: nat, a: Id, g: nat)
    requires IsRun(par, r) && i < |r.labels| && Ceiling(r, i, g)
    requires a in r.states[i + 1].nodes && r.states[i + 1].nodes[a].commit > g
    ensures r.states[i + 1].nodes[a].role == Leader
    ensures Majority(HoldersOf(par, r.states[i + 1], a, r.states[i + 1].nodes[a].commit), Voters(par, r.states[i + 1].nodes[a]))
  {
    hide Marked, React;
    var hs := Telling(par, r);
    var n, h := r.states[i + 1].nodes[a], hs[i + 1];
    NodeAt(par, r, hs, i + 1, a);
    Parts(par, h, a, n);
    var c :| c in h.commits && c.term <= n.term && n.log[..n.commit] <= Done(c);
    assert CommitOk(par, h, c);
    if c in hs[i].commits {
      CommitsUnderCeiling(par, r, hs, i, g, c);
    }
    assert Extends(par, r.states[i], r.labels[i], hs[i], h);
    OthersUntouched(par, r, i, a);
    BackersHold(par, r, hs, i + 1, a, c);
  }

  lemma OthersUntouched(par: Params, r: Run, i: nat, a: Id)
    requires IsRun(par, r) && i < |r.labels| && a in r.states[i + 1].nodes
    ensures a in r.states[i].nodes
    ensures r.labels[i].who != a ==> r.states[i + 1].nodes[a] == r.states[i].nodes[a]
  {
    hide React;
  }

  lemma BackersHold(par: Params, r: Run, hs: seq<Hist>, i: nat, a: Id, c: Commit)
    requires Told(par, r, hs) && i < |hs| && a in r.states[i].nodes && c in hs[i].commits
    requires r.states[i].nodes[a].log == c.log && c.index <= |c.log|
    ensures Majority(HoldersOf(par, r.states[i], a, c.index), ConfigOf(par.initial, c.log))
  {
    hide NodeOk, Extends;
    var h, s := hs[i], r.states[i];
    var config := ConfigOf(par.initial, c.log);
    assert Inv(par, s, h);
    HistRecords(par, h);
    assert CommitOk(par, h, c);
    ConfigWithin(par, h, c.log, c);
    forall v | v in Backers(par, h, c)
      ensures v in HoldersOf(par, s, a, c.index)
    {
      assert NodeOk(par, h, v, s.nodes[v]);
      Parts(par, h, v, s.nodes[v]);
      StillHolds(par, h, v, s.nodes[v], c);
    }
    CardinalityOfSubset(Backers(par, h, c) * config, HoldersOf(par, s, a, c.index) * config);
  }

  lemma StillHolds(par: Params, h: Hist, v: Id, n: Node, c: Commit)
    requires HistOk(par, h) && AcksOk(h, v, n) && c in h.commits && Acked(h, v, c.term, Done(c))
    ensures Done(c) <= n.log
  {
    var a :| a in h.acks && a.voter == v && a.term == c.term && Done(c) <= a.log;
    assert KeptByNode(h, n, a);
    assert a.log[..|Done(c)|] == Done(c);
    forall u | u in h.reigns && a.term < u <= n.term
      ensures Done(c) <= h.reigns[u].start
    {
      assert Carried(c, h.reigns[u]);
    }
  }

  // Configurations only ever name existing servers.
  lemma ConfigWithin(par: Params, h: Hist, x: Log, c: Commit)
    requires HistOk(par, h) && c in h.commits && x == c.log
    ensures ConfigOf(par.initial, x) <= par.servers
  {
    CommitFacts(par, h, c);
    ConfigNamesServers(par, h, x);
  }

  lemma ConfigNamesServers(par: Params, h: Hist, x: Log)
    requires Records(par, h) && Grounded(h, x)
    ensures ConfigOf(par.initial, x) <= par.servers
  {
    var j := LatestConfig(par.initial, x, 0);
    if j.Some? {
      EntryGuard(par, h, x, j.value);
    } else {
      assert x[..0] == [];
    }
  }

  // ---- linearizable reads -----------------------------------------------------

  // A read requested at moment i and served at moment j reports the state of a committed
  // log that includes everything any server knew committed at moment i.
  lemma ReadIndexSafety(par: Params, r: Run, i: nat, j: nat, a: Id, x: Id)
    requires IsRun(par, r) && i < j < |r.labels|
    requires a in r.states[i].nodes && a in r.states[j].nodes && x in r.states[i].nodes
    requires r.labels[i].who == a && Accepted(r.states[i].nodes[a], r.labels[i].event)
    requires r.labels[j].who == a && r.labels[j].event.Receive? && r.labels[j].event.msg.ReadAck?
    requires r.labels[j].event.msg.readId == r.states[i].nodes[a].nextRead
    requires Outcome(par, r.states[j], r.labels[j]).applied != []
    ensures var n := r.states[j].nodes[a];
            && n.commit <= |n.log|
            && Outcome(par, r.states[j], r.labels[j]).applied
               == [Applied(r.labels[i].event.command, KvStore.Read(StateAfter(n.log[..n.commit]).store, r.labels[i].event.command))]
            && r.states[i].nodes[x].commit <= n.commit
            && r.states[i].nodes[x].commit <= |r.states[i].nodes[x].log|
            && r.states[i].nodes[x].log[..r.states[i].nodes[x].commit] <= n.log[..n.commit]
  {
    hide HistOk, NodeOk, React, StateAfter, Extends, Marked;
    var hs := Telling(par, r);
    var rid := r.states[i].nodes[a].nextRead;
    MarkAt(par, r, hs, i, j, a);
    var h, n, m := hs[j], r.states[j].nodes[a], r.labels[j].event.msg;
    NodeAt(par, r, hs, j, a);
    assert Inv(par, r.states[j], h);
    assert MsgOk(h, Packet(a, m));
    ServedRead(par, h, a, n, m);
    SeenFrom(par, r, hs, i, j, x);
    var y := r.states[i].nodes[x];
    NodeAt(par, r, hs, i, x);
    Parts(par, hs[i], x, y);
    Parts(par, h, a, n);
    if y.commit > 0 {
      var c :| c in hs[i].commits && c.term <= y.term && y.log[..y.commit] <= Done(c);
      assert c in h.marks[(a, rid)].commits;
    }
    DecidedAgree(par, h, y.term, y.log[..y.commit], n.term, n.log[..n.commit]);
  }

  lemma MarkAt(par: Params, r: Run, hs: seq<Hist>, i: nat, j: nat, a: Id)
    requires Told(par, r, hs) && i < j < |hs| && a in r.states[i].nodes
    requires r.labels[i].who == a && Accepted(r.states[i].nodes[a], r.labels[i].event)
    ensures (a, r.states[i].nodes[a].nextRead) in hs[j].marks
    ensures hs[j].marks[(a, r.states[i].nodes[a].nextRead)].commits == hs[i].commits
    ensures hs[j].marks[(a, r.states[i].nodes[a].nextRead)].command == r.labels[i].event.command
  {
    hide Inv;
    assert Extends(par, r.states[i], r.labels[i], hs[i], hs[i + 1]);
    ToldLater(par, r, hs, i + 1, j);
  }

  // What a server reports when an acknowledgement completes a read.
  lemma ServedRead(par: Params, h: Hist, id: Id, n: Node, m: Message<Log>)
    requires HistOk(par, h) && NodeOk(par, h, id, n) && MsgOk(h, Packet(id, m)) && m.ReadAck?
    requires React(par, id, n, Receive(m)).applied != []
    ensures (id, m.readId) in h.marks && n.commit <= |n.log|
    ensures React(par, id, n, Receive(m)).applied
            == [Applied(h.marks[(id, m.readId)].command, KvStore.Read(StateAfter(n.log[..n.commit]).store, h.marks[(id, m.readId)].command))]
    ensures forall c | c in h.marks[(id, m.readId)].commits :: c.index <= n.commit
  {
    hide HistOk, MsgOk, StateAfter;
    Parts(par, h, id, n);
    var r := n.pending[m.readId];
    var o := n.(pending := n.pending[m.readId := r.(acks := r.acks + {m.follower})]);
    AckNoted(par, h, id, n, m);
    forall c | c in h.marks[(id, m.readId)].commits
      ensures c.index <= n.commit
    {
      ReadIndexCovers(par, h, id, o, m.readId, c);
    }
  }
}
