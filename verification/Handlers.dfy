// Every handler keeps the invariant: from a good history, server and incoming message it
// leads to a longer good history, a good server and good outgoing messages.
//
// The part that takes thought is replication: passing a check of one term makes receiver and
// leader agree on a whole prefix, also when a snapshot covers part of it, so that what is
// stored and acknowledged is the leader's.
module Handlers {
  import opened Prelude
  import opened RaftTypes
  import opened RaftSpec
  import opened History
  import opened Completeness
  import opened Invariant
  import opened Moves
  import KvStore

  ghost predicate Kept(par: Params, h1: Hist, h2: Hist, id: Id, o: Out) {
    Moved(par, h1, h2, id, o.node) && SendsOk(h2, o.sends)
  }

  lemma MovedTwice(par: Params, h1: Hist, h2: Hist, h3: Hist, id: Id, n2: Node, n3: Node)
    requires Moved(par, h1, h2, id, n2) && Moved(par, h2, h3, id, n3) && n2.role != Leader
    ensures Moved(par, h1, h3, id, n3)
  {
    GrowsTransitive(h1, h2, h3, id);
  }

  lemma ReplyKeeps(par: Params, h1: Hist, h2: Hist, id: Id, n: Node, dst: Id, m: Message<Log>)
    requires Moved(par, h1, h2, id, n) && MsgOk(h2, Packet(dst, m))
    ensures Kept(par, h1, h2, id, Reply(n, dst, m))
  {
  }

  // ---- what a leader sends ----------------------------------------------------

  // Entries or the snapshot, the message describes the leader's log as it is.
  lemma AppendForOk(par: Params, h: Hist, id: Id, n: Node, peer: Id)
    requires LogOk(h, n) && LeaderOk(par, h, id, n) && n.role == Leader
    ensures MsgOk(h, AppendFor(id, n, peer))
  {
    var prev := if NextFor(n, peer) > 0 then NextFor(n, peer) - 1 else 0;
    if prev < n.base {
      DecidedPrefix(h, n.term, n.log[..n.commit], n.base);
      assert n.log[..n.commit][..n.base] == n.log[..n.base];
    } else {
      assert n.log[prev..] == n.log[prev..prev + |n.log[prev..]|];
    }
  }

  lemma HeartbeatsOk(par: Params, h: Hist, id: Id, n: Node)
    requires LogOk(h, n) && LeaderOk(par, h, id, n) && n.role == Leader
    ensures SendsOk(h, Heartbeats(par, id, n))
  {
    forall p | p in Heartbeats(par, id, n)
      ensures MsgOk(h, p)
    {
      var v :| v in OtherVoters(par, id, n) && p == AppendFor(id, n, v);
      AppendForOk(par, h, id, n, v);
    }
  }

  // ---- elections --------------------------------------------------------------

  lemma MaybeWinKeeps(par: Params, h: Hist, id: Id, n: Node) returns (h2: Hist)
    requires HistOk(par, h) && NodeOk(par, h, id, n) && id in par.servers
    ensures Kept(par, h, h2, id, MaybeWin(par, id, n))
  {
    hide HistOk, NodeOk, LogOk, VotesOk, AcksOk, CandidateOk, LeaderOk, ReadsOk, MsgOk, Heartbeats, GuardOk;
    h2 := h;
    if n.role == Candidate && Majority(n.votes, Voters(par, n)) {
      h2 := Crown(par, h, id, n);
      Parts(par, h2, id, BecomeLeader(par, id, n));
      HeartbeatsOk(par, h2, id, BecomeLeader(par, id, n));
    }
  }

  lemma StartElectionKeeps(par: Params, h: Hist, id: Id, n: Node) returns (h2: Hist)
    requires HistOk(par, h) && NodeOk(par, h, id, n) && id in par.servers && n.role != Leader
    ensures Kept(par, h, h2, id, StartElection(par, id, n))
  {
    h2 := h;
    if id in Voters(par, n) {
      var c := Standing(id, n);
      var h1 := Stand(par, h, id, n);
      h2 := MaybeWinKeeps(par, h1, id, c);
      MovedTwice(par, h, h1, h2, id, c, MaybeWin(par, id, c).node);
      var req: Message<Log> := RequestVote(c.term, id, |c.log|, TermAt(c.log, |c.log|));
      forall v | v in OtherVoters(par, id, n)
        ensures MsgOk(h2, Packet(v, req))
      {
        MsgLater(par, h1, h2, Packet(v, req));
      }
    }
  }

  lemma GrantKeeps(par: Params, h: Hist, id: Id, f: Node, m: Message<Log>) returns (h2: Hist)
    requires HistOk(par, h) && NodeOk(par, h, id, f) && MsgOk(h, Packet(id, m)) && m.RequestVote? && Grants(f, m)
    ensures Moved(par, h, h2, id, f.(votedFor := Some(m.candidate)))
    ensures (id, f.term) in h2.votes && h2.votes[(id, f.term)].candidate == m.candidate
  {
    hide HistOk, NodeOk;
    h2 := h;
    Parts(par, h, id, f);
    if f.votedFor == None {
      h2 := Vouch(par, h, id, f, m.candidate);
    } else {
      assert f.(votedFor := Some(m.candidate)) == f;
    }
  }

  lemma RequestVoteKeeps(par: Params, h: Hist, id: Id, n: Node, m: Message<Log>) returns (h2: Hist)
    requires HistOk(par, h) && NodeOk(par, h, id, n) && MsgOk(h, Packet(id, m)) && m.RequestVote?
    ensures Kept(par, h, h2, id, OnRequestVote(id, n, m))
  {
    hide HistOk, NodeOk, UpToDate;
    var f := if m.term > n.term then BecomeFollower(n, m.term) else n;
    if m.term > n.term {
      StepDown(par, h, id, n, m.term);
    }
    h2 := h;
    if Grants(f, m) {
      h2 := GrantKeeps(par, h, id, f, m);
    }
  }

  lemma VoteReplyKeeps(par: Params, h: Hist, id: Id, n: Node, m: Message<Log>) returns (h2: Hist)
    requires HistOk(par, h) && NodeOk(par, h, id, n) && id in par.servers
    requires MsgOk(h, Packet(id, m)) && m.VoteReply?
    ensures Kept(par, h, h2, id, OnVoteReply(par, id, n, m))
  {
    h2 := h;
    if m.term > n.term {
      StepDown(par, h, id, n, m.term);
    } else if n.role == Candidate && m.term == n.term && m.granted {
      var c := n.(votes := n.votes + {m.voter});
      AcksWider(h, id, n, c);
      assert NodeOk(par, h, id, c);
      h2 := MaybeWinKeeps(par, h, id, c);
    }
  }

  // ---- commands and membership ------------------------------------------------

  lemma ClientCommandKeeps(par: Params, h: Hist, id: Id, n: Node, p: Payload) returns (h2: Hist)
    requires HistOk(par, h) && NodeOk(par, h, id, n) && !p.Config?
    ensures Kept(par, h, h2, id, ClientCommand(par, id, n, p))
  {
    hide HistOk, NodeOk, LogOk, VotesOk, AcksOk, CandidateOk, LeaderOk, ReadsOk, MsgOk, GuardOk, Heartbeats;
    h2 := h;
    var c := CommandOf(p);
    if n.role == Leader && n.alive && !(KvStore.Structured(c) && c.req <= IndexFor(n.clientIndex, c.client)) {
      var noted := if KvStore.Structured(c) then n.clientIndex[c.client := c.req] else n.clientIndex;
      h2 := LeaderExtends(par, h, id, n, noted, Entry(n.term, p));
      Parts(par, h2, id, Extend(n.(clientIndex := noted), id, Entry(n.term, p)));
      HeartbeatsOk(par, h2, id, Extend(n.(clientIndex := noted), id, Entry(n.term, p)));
    }
  }

  // The guards of change_config are exactly what the safety argument asks for.
  lemma MayChangeGuards(par: Params, h: Hist, id: Id, n: Node, voters: set<Id>)
    requires HistOk(par, h) && LogOk(h, n) && LeaderOk(par, h, id, n)
    requires MayChange(par, id, n, voters) && voters <= par.servers
    ensures GuardOk(par, h, n.term, n.log, voters)
  {
    var c :| c in h.commits && c.term == n.term;
    assert CommitOk(par, h, c);
    var q := ConfigIndex(n.log);
    if q > 0 {
      var k :| k in h.commits && k.term <= n.term && n.log[..n.commit] <= Done(k);
      assert CommitOk(par, h, k);
      assert n.log[..q] <= n.log[..n.commit];
    }
  }

  lemma ChangeConfigKeeps(par: Params, h: Hist, id: Id, n: Node, voters: set<Id>) returns (h2: Hist)
    requires HistOk(par, h) && NodeOk(par, h, id, n) && voters <= par.servers
    ensures Kept(par, h, h2, id, ChangeConfig(par, id, n, voters))
  {
    hide HistOk, NodeOk, LogOk, VotesOk, AcksOk, CandidateOk, LeaderOk, ReadsOk, MsgOk, GuardOk, Heartbeats;
    h2 := h;
    if MayChange(par, id, n, voters) {
      Parts(par, h, id, n);
      MayChangeGuards(par, h, id, n, voters);
      h2 := LeaderExtends(par, h, id, n, n.clientIndex, Entry(n.term, Config(voters)));
      assert n.(clientIndex := n.clientIndex) == n;
      Parts(par, h2, id, Extend(n, id, Entry(n.term, Config(voters))));
      HeartbeatsOk(par, h2, id, Extend(n, id, Entry(n.term, Config(voters))));
    }
  }

  // ---- replication ------------------------------------------------------------

  lemma HeardKeeps(par: Params, h: Hist, id: Id, n: Node, t: nat)
    requires NodeOk(par, h, id, n) && t >= n.term
    ensures NodeOk(par, h, id, Heard(n, t)) && Heard(n, t).role == Follower && Heard(n, t).term == t
    ensures Heard(n, t).log == n.log && Heard(n, t).base == n.base && Heard(n, t).commit == n.commit
  {
    StepDown(par, h, id, n, t);
  }

  // The leader's prefix a message brings.
  ghost function Brought(h: Hist, m: Message<Log>): Log
    requires m.AppendEntries? && m.term in h.reigns && m.prevIndex + |m.entries| <= |h.reigns[m.term].log|
  {
    h.reigns[m.term].log[..m.prevIndex + |m.entries|]
  }

  // Passing the consistency check, the receiver agrees with the leader up to the point
  // where the new entries start, although only one term was compared.
  lemma Agreement(par: Params, h: Hist, id: Id, f: Node, m: Message<Log>)
    requires HistOk(par, h) && NodeOk(par, h, id, f) && MsgOk(h, Packet(id, m)) && m.AppendEntries?
    requires f.term == m.term && Consistent(f, m)
    ensures PrevIndex(f, m) <= |f.log| && PrevIndex(f, m) <= |Brought(h, m)|
    ensures f.log[..PrevIndex(f, m)] == Brought(h, m)[..PrevIndex(f, m)]
    ensures m.entries[Covered(f, m)..] == Brought(h, m)[PrevIndex(f, m)..]
  {
    hide HistOk, NodeOk, AllKept, Complete, MarkOk, VotesOk, AcksOk, CandidateOk, LeaderOk, ReadsOk, ReignOk, CandOk, Decided;
    hide Covered, PrevIndex, PrevTerm, Grounded;
    var l, p := h.reigns[m.term].log, PrevIndex(f, m);
    HistRecords(par, h);
    Parts(par, h, id, f);
    ReignGrounded(par, h, m.term);
    CommittedHeld(par, h, f, m.term);
    Aligned(f, l, m);
    if p >= Max(1, f.base) {
      Matching(h, f.log, l, p - 1);
    } else if p > 0 {
      assert f.log[..p] == f.log[..f.commit][..p] == l[..p];
    }
    assert l[..p] == Brought(h, m)[..p];
  }

  // What is left of a slice of the leader's log once the covered entries are skipped.
  lemma Aligned(f: Node, l: Log, m: Message<Log>)
    requires m.AppendEntries? && m.prevIndex + |m.entries| <= |l|
    requires m.entries == l[m.prevIndex..m.prevIndex + |m.entries|] && m.prevTerm == TermAt(l, m.prevIndex)
    ensures PrevIndex(f, m) <= m.prevIndex + |m.entries| && PrevTerm(f, m) == TermAt(l, PrevIndex(f, m))
    ensures m.entries[Covered(f, m)..] == l[..m.prevIndex + |m.entries|][PrevIndex(f, m)..]
  {
  }

  lemma BroughtGrounded(par: Params, h: Hist, m: Message<Log>)
    requires HistOk(par, h) && m.AppendEntries? && m.term in h.reigns
    requires m.prevIndex + |m.entries| <= |h.reigns[m.term].log|
    ensures Grounded(h, Brought(h, m)) && Brought(h, m) <= h.reigns[m.term].log
  {
    ReignGrounded(par, h, m.term);
    GroundedPrefix(h, h.reigns[m.term].log, m.prevIndex + |m.entries|);
  }

  // So the truncate-and-append loop leaves the follower with its own log, if it holds the
  // leader's prefix already, or with exactly that prefix.
  lemma AppendEntriesStores(par: Params, h: Hist, id: Id, f: Node, m: Message<Log>)
    requires HistOk(par, h) && NodeOk(par, h, id, f) && MsgOk(h, Packet(id, m)) && m.AppendEntries?
    requires f.term == m.term && Consistent(f, m)
    ensures Merge(f.log, PrevIndex(f, m), m.entries[Covered(f, m)..]) == Stored(f.log, Brought(h, m))
    ensures PrevIndex(f, m) + |m.entries[Covered(f, m)..]| == |Brought(h, m)|
  {
    Agreement(par, h, id, f, m);
    BroughtGrounded(par, h, m);
    MergeIs(h, f.log, Brought(h, m), PrevIndex(f, m));
  }

  // The leader's commit index, as far as the stored prefix goes, is safe to adopt.
  lemma AdoptCommit(par: Params, h: Hist, h2: Hist, id: Id, g: Node, m: Message<Log>)
    requires MsgOk(h, Packet(id, m)) && m.AppendEntries? && Later(h, h2) && h2.reigns == h.reigns
    requires NodeOk(par, h2, id, g) && g.term == m.term && Brought(h, m) <= g.log
    ensures NodeOk(par, h2, id, SetCommit(par, g, Min(m.leaderCommit, |Brought(h, m)|)).node)
  {
    var b, l := Brought(h, m), h.reigns[m.term].log;
    var k := Min(m.leaderCommit, |b|);
    if k > g.commit {
      DecidedPrefix(h, m.term, l[..m.leaderCommit], k);
      assert l[..m.leaderCommit][..k] == b[..k] == g.log[..k];
      DecidedLater(h, h2, m.term, m.term, g.log[..k]);
      Raise(par, h2, id, g, k);
    }
  }

  lemma AcceptKeeps(par: Params, h: Hist, id: Id, f: Node, m: Message<Log>) returns (h2: Hist)
    requires HistOk(par, h) && NodeOk(par, h, id, f) && MsgOk(h, Packet(id, m)) && m.AppendEntries?
    requires f.term == m.term && f.role == Follower && Consistent(f, m)
    ensures Kept(par, h, h2, id, Accept(par, id, f, m))
  {
    hide HistOk, NodeOk, LogOk, VotesOk, AcksOk, CandidateOk, LeaderOk, ReadsOk, Accept, Consistent, SetCommit, Merge, Covered, PrevIndex, PrevTerm, GuardOk;
    var b := Brought(h, m);
    AppendEntriesStores(par, h, id, f, m);
    BroughtGrounded(par, h, m);
    h2 := Store(par, h, id, f, b);
    AdoptCommit(par, h, h2, id, f.(log := Stored(f.log, b)), m);
    AckReplyOk(h2, f, id, m.leader, b);
    AcceptIs(par, id, f, m, b);
  }

  lemma AckReplyOk(h: Hist, f: Node, id: Id, dst: Id, b: Log)
    requires f.term in h.reigns && b <= h.reigns[f.term].log && Acked(h, id, f.term, b)
    ensures MsgOk(h, Packet(dst, AppendReply(f.term, id, true, |b|)))
  {
    assert h.reigns[f.term].log[..|b|] == b;
  }

  lemma AcceptIs(par: Params, id: Id, f: Node, m: Message<Log>, b: Log)
    requires m.AppendEntries?
    requires Merge(f.log, PrevIndex(f, m), m.entries[Covered(f, m)..]) == Stored(f.log, b)
    requires PrevIndex(f, m) + |m.entries[Covered(f, m)..]| == |b|
    ensures Accept(par, id, f, m) ==
            SetCommit(par, f.(log := Stored(f.log, b)), Min(m.leaderCommit, |b|)).(
            sends := {Packet(m.leader, AppendReply(f.term, id, true, |b|))})
  {
  }

  lemma AppendEntriesKeeps(par: Params, h: Hist, id: Id, n: Node, m: Message<Log>) returns (h2: Hist)
    requires HistOk(par, h) && NodeOk(par, h, id, n) && MsgOk(h, Packet(id, m)) && m.AppendEntries?
    ensures Kept(par, h, h2, id, OnAppendEntries(par, id, n, m))
  {
    hide HistOk, NodeOk, LogOk, VotesOk, AcksOk, CandidateOk, LeaderOk, ReadsOk, Accept, Consistent, Covered, PrevIndex, PrevTerm;
    h2 := h;
    if m.term >= n.term {
      var f := Heard(n, m.term);
      HeardKeeps(par, h, id, n, m.term);
      if Consistent(f, m) {
        h2 := AcceptKeeps(par, h, id, f, m);
      }
    }
  }

  // ---- the commit scan --------------------------------------------------------

  lemma ScanFinds(par: Params, n: Node, from: nat)
    requires from <= |n.log|
    ensures CommitScan(par, n, from).Some? ==>
              var k := CommitScan(par, n, from).value;
              n.commit < k <= from && TermAt(n.log, k) == n.term && Replicated(par, n, k)
  {
  }

  lemma AdvanceKeeps(par: Params, h: Hist, id: Id, n: Node) returns (h2: Hist)
    requires HistOk(par, h) && NodeOk(par, h, id, n) && n.role == Leader
    ensures Kept(par, h, h2, id, AdvanceCommit(par, n))
  {
    h2 := h;
    ScanFinds(par, n, |n.log|);
    match CommitScan(par, n, |n.log|)
    case None =>
    case Some(k) =>
      h2 := Decree(par, h, id, n, k);
  }

  lemma SuccessNoted(par: Params, h: Hist, id: Id, n: Node, m: Message<Log>)
    requires NodeOk(par, h, id, n) && MsgOk(h, Packet(id, m)) && m.AppendReply? && m.success
    requires n.role == Leader && m.term == n.term
    ensures NodeOk(par, h, id, n.(
      matched := n.matched[m.follower := Max(MatchFor(n, m.follower), m.matchIndex)],
      next := n.next[m.follower := Max(NextFor(n, m.follower), m.matchIndex + 1)]))
  {
    var o := n.(
      matched := n.matched[m.follower := Max(MatchFor(n, m.follower), m.matchIndex)],
      next := n.next[m.follower := Max(NextFor(n, m.follower), m.matchIndex + 1)]);
    AcksWider(h, id, n, o);
    forall p | p in o.matched && o.matched[p] > 0
      ensures Acked(h, p, o.term, Take(o.log, o.matched[p]))
    {
      if p == m.follower && o.matched[p] == m.matchIndex {
        assert Take(o.log, m.matchIndex) == h.reigns[m.term].log[..m.matchIndex];
      } else {
        assert o.matched[p] == n.matched[p];
      }
    }
    assert ProgressOk(par, h, id, o);
    assert ReadsOk(h, id, o);
  }

  lemma FailureNoted(par: Params, h: Hist, id: Id, n: Node, peer: Id)
    requires NodeOk(par, h, id, n) && n.role == Leader
    ensures NodeOk(par, h, id, n.(next := n.next[peer := Max(1, NextFor(n, peer) - 1)]))
  {
    var l := n.(next := n.next[peer := Max(1, NextFor(n, peer) - 1)]);
    AcksWider(h, id, n, l);
    assert ProgressOk(par, h, id, l);
    assert ReadsOk(h, id, l);
  }

  lemma AppendReplyKeeps(par: Params, h: Hist, id: Id, n: Node, m: Message<Log>) returns (h2: Hist)
    requires HistOk(par, h) && NodeOk(par, h, id, n) && MsgOk(h, Packet(id, m)) && m.AppendReply?
    ensures Kept(par, h, h2, id, OnAppendReply(par, id, n, m))
  {
    hide HistOk, NodeOk, LogOk, LeaderOk, MsgOk, AdvanceCommit, AppendFor;
    h2 := h;
    if m.term > n.term {
      StepDown(par, h, id, n, m.term);
    } else if n.role == Leader && m.term == n.term {
      if m.success {
        SuccessNoted(par, h, id, n, m);
        h2 := AdvanceKeeps(par, h, id, n.(
          matched := n.matched[m.follower := Max(MatchFor(n, m.follower), m.matchIndex)],
          next := n.next[m.follower := Max(NextFor(n, m.follower), m.matchIndex + 1)]));
      } else {
        var l := n.(next := n.next[m.follower := Max(1, NextFor(n, m.follower) - 1)]);
        FailureNoted(par, h, id, n, m.follower);
        Parts(par, h, id, l);
        AppendForOk(par, h, id, l, m.follower);
      }
    }
  }

  // ---- snapshots --------------------------------------------------------------

  // Keeping the tail on a term match, or discarding the log, both store the snapshot's
  // prefix and nothing else.
  lemma SnapshotStores(par: Params, h: Hist, id: Id, f: Node, m: Message<Log>)
    requires HistOk(par, h) && NodeOk(par, h, id, f) && MsgOk(h, Packet(id, m)) && m.InstallSnapshot?
    requires f.term == m.term
    ensures Install(f, m) == f.(log := Stored(f.log, m.image), base := m.lastIndex, commit := m.lastIndex)
  {
    var l := h.reigns[m.term].log;
    ReignGrounded(par, h, m.term);
    assert m.image == l[..m.lastIndex];
    if |f.log| >= m.lastIndex && TermAt(f.log, m.lastIndex) == m.lastTerm {
      Matching(h, f.log, l, m.lastIndex - 1);
      assert f.log == m.image + f.log[m.lastIndex..];
    }
  }

  lemma SnapshotInstalled(par: Params, h: Hist, id: Id, g: Node, k: nat)
    requires NodeOk(par, h, id, g) && g.role == Follower && g.commit < k <= |g.log| && Decided(h, g.term, g.log[..k])
    ensures NodeOk(par, h, id, g.(base := k, commit := k))
  {
    AcksWider(h, id, g, g.(base := k, commit := k));
  }

  // The commit index only moves up: what was committed is inside the image.
  lemma ImageFits(par: Params, h: Hist, f: Node, m: Message<Log>, id: Id)
    requires HistOk(par, h) && LogOk(h, f) && MsgOk(h, Packet(id, m)) && m.InstallSnapshot?
    requires f.term == m.term && m.lastIndex > f.commit
    ensures m.image <= h.reigns[m.term].log && m.image <= Stored(f.log, m.image)
    ensures Stored(f.log, m.image)[..m.lastIndex] == m.image && |m.image| == m.lastIndex
    ensures Decided(h, m.term, m.image)
  {
  }

  lemma InstallKeeps(par: Params, h: Hist, id: Id, f: Node, m: Message<Log>) returns (h2: Hist)
    requires HistOk(par, h) && NodeOk(par, h, id, f) && MsgOk(h, Packet(id, m)) && m.InstallSnapshot?
    requires f.term == m.term && f.role == Follower && m.lastIndex > f.commit
    ensures Moved(par, h, h2, id, Install(f, m))
    ensures Acked(h2, id, m.term, m.image) && h2.reigns == h.reigns
  {
    hide HistOk, NodeOk, LogOk, Install, CandidateOk, ReadsOk, VotesOk, AcksOk, LeaderOk;
    SnapshotStores(par, h, id, f, m);
    Parts(par, h, id, f);
    ImageFits(par, h, f, m, id);
    h2 := Store(par, h, id, f, m.image);
    var g := f.(log := Stored(f.log, m.image));
    DecidedLater(h, h2, m.term, m.term, m.image);
    SnapshotInstalled(par, h2, id, g, m.lastIndex);
    assert Install(f, m) == g.(base := m.lastIndex, commit := m.lastIndex);
  }

  // A snapshot the server is already past: it reports its own committed prefix, which the
  // leader is sure to hold.
  lemma StaleSnapshotKeeps(par: Params, h: Hist, id: Id, f: Node, t: nat) returns (h2: Hist)
    requires HistOk(par, h) && NodeOk(par, h, id, f) && f.term == t && f.role == Follower && t in h.reigns
    ensures Moved(par, h, h2, id, f) && h2.reigns == h.reigns
    ensures f.log[..f.commit] <= h.reigns[t].log && Acked(h2, id, t, f.log[..f.commit])
  {
    CommittedHeld(par, h, f, t);
    h2 := Store(par, h, id, f, f.log[..f.commit]);
    assert f.(log := Stored(f.log, f.log[..f.commit])) == f;
  }

  lemma InstallSnapshotKeeps(par: Params, h: Hist, id: Id, n: Node, m: Message<Log>) returns (h2: Hist)
    requires HistOk(par, h) && NodeOk(par, h, id, n) && MsgOk(h, Packet(id, m)) && m.InstallSnapshot?
    ensures Kept(par, h, h2, id, OnInstallSnapshot(par, id, n, m))
  {
    hide HistOk, NodeOk, LogOk, VotesOk, AcksOk, CandidateOk, LeaderOk, ReadsOk, Install;
    if m.term < n.term {
      h2 := h;
      ReplyKeeps(par, h, h2, id, n, m.leader, AppendReply(n.term, id, false, 0));
      return;
    }
    var f := Heard(n, m.term);
    HeardKeeps(par, h, id, n, m.term);
    h2 := CurrentSnapshotKeeps(par, h, id, f, m);
  }

  lemma CurrentSnapshotKeeps(par: Params, h: Hist, id: Id, f: Node, m: Message<Log>) returns (h2: Hist)
    requires HistOk(par, h) && NodeOk(par, h, id, f) && MsgOk(h, Packet(id, m)) && m.InstallSnapshot?
    requires f.term == m.term && f.role == Follower
    ensures Kept(par, h, h2, id,
                 if m.lastIndex <= f.commit then Reply(f, m.leader, AppendReply(f.term, id, true, f.commit))
                 else Reply(Install(f, m), m.leader, AppendReply(f.term, id, true, m.lastIndex)))
  {
    hide HistOk, VotesOk, AcksOk, CandidateOk, LeaderOk, ReadsOk, Install, Grows;
    var l := h.reigns[m.term].log;
    if m.lastIndex <= f.commit {
      h2 := StaleSnapshotKeeps(par, h, id, f, m.term);
      assert l[..f.commit] == f.log[..f.commit];
      ReplyKeeps(par, h, h2, id, f, m.leader, AppendReply(f.term, id, true, f.commit));
    } else {
      h2 := InstallKeeps(par, h, id, f, m);
      assert l[..m.lastIndex] == m.image;
      ReplyKeeps(par, h, h2, id, Install(f, m), m.leader, AppendReply(f.term, id, true, m.lastIndex));
    }
  }

  // ---- reads ------------------------------------------------------------------

  lemma ServeKeeps(par: Params, h: Hist, id: Id, n: Node, rid: nat)
    requires NodeOk(par, h, id, n)
    ensures NodeOk(par, h, id, TryServe(par, n, rid).node) && TryServe(par, n, rid).sends == {}
    ensures var o := TryServe(par, n, rid).node;
            o.role == n.role && o.term == n.term && o.log == n.log && o.commit == n.commit
  {
    var o := TryServe(par, n, rid).node;
    assert o == n.(pending := o.pending);
    AcksWider(h, id, n, o);
    LeaderSame(par, h, h, id, n, o);
    assert ReadsOk(h, id, o);
  }

  lemma RequestReadKeeps(par: Params, h: Hist, id: Id, n: Node, c: KvStore.Command) returns (h2: Hist)
    requires HistOk(par, h) && NodeOk(par, h, id, n)
    ensures Kept(par, h, h2, id, RequestRead(par, id, n, c))
    ensures n.role == Leader && n.alive && n.confirmed ==> h2 == Marked(h, id, n, c)
  {
    hide HistOk, NodeOk, TryServe, ReadRound;
    h2 := h;
    if n.role == Leader && n.alive && n.confirmed {
      h2 := Mark(par, h, id, n, c);
      var r := Asking(n, id, c);
      AnnouncedOk(par, h2, id, n);
      ServeSends(par, h, h2, id, r, n.nextRead, ReadRound(par, id, n));
    }
  }

  lemma ServeSends(par: Params, h: Hist, h2: Hist, id: Id, r: Node, rid: nat, sends: set<Packet<Log>>)
    requires Moved(par, h, h2, id, r) && SendsOk(h2, sends)
    ensures Kept(par, h, h2, id, TryServe(par, r, rid).(sends := sends))
  {
    hide HistOk, NodeOk, TryServe, Grows;
    ServeKeeps(par, h2, id, r, rid);
  }

  lemma AnnouncedOk(par: Params, h: Hist, id: Id, n: Node)
    requires (id, n.nextRead) in h.marks
    ensures SendsOk(h, ReadRound(par, id, n))
  {
  }

  lemma ReadAckOk(par: Params, h: Hist, id: Id, f: Node, m: Message<Log>)
    requires HistOk(par, h) && NodeOk(par, h, id, f) && MsgOk(h, Packet(id, m)) && m.ReadHeartbeat?
    ensures MsgOk(h, Packet(m.leader, ReadAck(f.term, id, m.readId)))
  {
    hide HistOk, NodeOk;
    var mark := h.marks[(m.leader, m.readId)];
    Parts(par, h, id, f);
    if mark.term == f.term {
      StillLoyal(par, h, id, f, mark);
    }
  }

  lemma ReadHeartbeatKeeps(par: Params, h: Hist, id: Id, n: Node, m: Message<Log>)
    requires HistOk(par, h) && NodeOk(par, h, id, n) && MsgOk(h, Packet(id, m)) && m.ReadHeartbeat?
    ensures Kept(par, h, h, id, OnReadHeartbeat(id, n, m))
  {
    hide HistOk, NodeOk, MsgOk;
    var f := if m.term > n.term then BecomeFollower(n, m.term) else n;
    if m.term > n.term {
      StepDown(par, h, id, n, m.term);
    }
    ReadAckOk(par, h, id, f, m);
    ReplyKeeps(par, h, h, id, f, m.leader, ReadAck(f.term, id, m.readId));
  }

  lemma AckNoted(par: Params, h: Hist, id: Id, n: Node, m: Message<Log>)
    requires NodeOk(par, h, id, n) && MsgOk(h, Packet(id, m)) && m.ReadAck?
    requires m.readId in n.pending && m.term == n.term && n.role == Leader
    ensures var r := n.pending[m.readId];
            NodeOk(par, h, id, n.(pending := n.pending[m.readId := r.(acks := r.acks + {m.follower})]))
  {
    var r := n.pending[m.readId];
    var o := n.(pending := n.pending[m.readId := r.(acks := r.acks + {m.follower})]);
    AcksWider(h, id, n, o);
    LeaderSame(par, h, h, id, n, o);
    assert ReadsOk(h, id, o);
  }

  lemma ReadAckKeeps(par: Params, h: Hist, id: Id, n: Node, m: Message<Log>)
    requires HistOk(par, h) && NodeOk(par, h, id, n) && MsgOk(h, Packet(id, m)) && m.ReadAck?
    ensures Kept(par, h, h, id, OnReadAck(par, n, m))
  {
    hide HistOk, NodeOk, MsgOk, TryServe;
    if m.term > n.term {
      StepDown(par, h, id, n, m.term);
    } else if m.readId in n.pending && m.term == n.term && n.role == Leader {
      var r := n.pending[m.readId];
      AckNoted(par, h, id, n, m);
      ServeKeeps(par, h, id, n.(pending := n.pending[m.readId := r.(acks := r.acks + {m.follower})]), m.readId);
    }
  }

  // ---- every event ------------------------------------------------------------

  // What the environment may do: deliver messages that were sent, propose configurations
  // of existing servers, and submit commands that are not configurations.
  ghost predicate Fair(par: Params, h: Hist, id: Id, ev: Event) {
    match ev
    case Receive(m) => MsgOk(h, Packet(id, m))
    case Command(p) => !p.Config?
    case Change(voters) => voters <= par.servers
    case _ => true
  }

  // A read request this server takes on.
  predicate Accepted(n: Node, ev: Event) {
    ev.ReadRequest? && n.role == Leader && n.alive && n.confirmed
  }

  lemma ReactKeeps(par: Params, h: Hist, id: Id, n: Node, ev: Event) returns (h2: Hist)
    requires HistOk(par, h) && NodeOk(par, h, id, n) && id in par.servers && Fair(par, h, id, ev)
    ensures Kept(par, h, h2, id, React(par, id, n, ev))
    ensures Accepted(n, ev) ==> h2 == Marked(h, id, n, ev.command)
  {
    hide HistOk, NodeOk, LogOk, VotesOk, AcksOk, CandidateOk, LeaderOk, ReadsOk, MsgOk, StartElection, Heartbeats, OnRequestVote, OnVoteReply, OnAppendEntries, OnAppendReply, OnInstallSnapshot, OnReadHeartbeat, OnReadAck, ClientCommand, ChangeConfig, RequestRead, Marked;
    h2 := h;
    match ev
    case ElectionTimeout =>
      if n.alive && n.role != Leader {
        h2 := StartElectionKeeps(par, h, id, n);
      }
    case HeartbeatTimeout =>
      if n.alive && n.role == Leader {
        Parts(par, h, id, n);
        HeartbeatsOk(par, h, id, n);
      }
    case Receive(m) =>
      if n.alive {
        h2 := ReceiveKeeps(par, h, id, n, m);
      }
    case Command(p) =>
      h2 := ClientCommandKeeps(par, h, id, n, p);
    case Change(voters) =>
      h2 := ChangeConfigKeeps(par, h, id, n, voters);
    case ReadRequest(c) =>
      h2 := RequestReadKeeps(par, h, id, n, c);
    case Pause =>
      CrashKeeps(par, h, id, n);
    case Restart =>
      ResumeKeeps(par, h, id, n);
  }

  lemma ReceiveKeeps(par: Params, h: Hist, id: Id, n: Node, m: Message<Log>) returns (h2: Hist)
    requires HistOk(par, h) && NodeOk(par, h, id, n) && id in par.servers && n.alive && MsgOk(h, Packet(id, m))
    ensures Kept(par, h, h2, id, Handle(par, id, n, m))
  {
    hide HistOk, NodeOk, LogOk, VotesOk, AcksOk, CandidateOk, LeaderOk, ReadsOk, MsgOk, OnRequestVote, OnVoteReply, OnAppendEntries, OnAppendReply, OnInstallSnapshot, OnReadHeartbeat, OnReadAck;
    h2 := h;
    match m
    case RequestVote(_, _, _, _) => h2 := RequestVoteKeeps(par, h, id, n, m);
    case VoteReply(_, _, _) => h2 := VoteReplyKeeps(par, h, id, n, m);
    case AppendEntries(_, _, _, _, _, _) => h2 := AppendEntriesKeeps(par, h, id, n, m);
    case AppendReply(_, _, _, _) => h2 := AppendReplyKeeps(par, h, id, n, m);
    case InstallSnapshot(_, _, _, _, _) => h2 := InstallSnapshotKeeps(par, h, id, n, m);
    case ReadHeartbeat(_, _, _) => ReadHeartbeatKeeps(par, h, id, n, m);
    case ReadAck(_, _, _) => ReadAckKeeps(par, h, id, n, m);
  }
}
