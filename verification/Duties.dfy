// What each operation must do, and not only what it may: votes that are due are given,
// commits that are possible are made, commands that are new are appended and sent.
module Duties {
  import opened Prelude
  import opened RaftTypes
  import opened RaftSpec
  import opened History
  import opened Invariant
  import opened Moves
  import opened Handlers
  import opened Safety
  import S = Sessions
  import KvStore

  // ---- votes ------------------------------------------------------------------

  function LastTerm(log: Log): nat {
    if log == [] then 0 else log[|log| - 1].term
  }

  // A log whose last entry has this term and index is at least as up to date.
  predicate AtLeast(lastTerm: nat, lastIndex: nat, log: Log) {
    lastTerm > LastTerm(log) || (lastTerm == LastTerm(log) && lastIndex >= |log|)
  }

  // The vote is due: the request is not of an older term, no other candidate has the vote of
  // that term, and the candidate's log is at least as up to date.
  predicate Due(n: Node, m: Message<Log>)
    requires m.RequestVote?
  {
    && m.term >= n.term
    && (m.term > n.term || n.votedFor.None? || n.votedFor.value == m.candidate)
    && AtLeast(m.lastTerm, m.lastIndex, n.log)
  }

  // A live server answers every request, with its vote exactly when that is due.
  lemma VoteExactly(par: Params, id: Id, n: Node, m: Message<Log>)
    requires n.alive && m.RequestVote?
    ensures var o := React(par, id, n, Receive(m));
            && o.sends == {Packet(m.candidate, VoteReply(Max(n.term, m.term), id, Due(n, m)))} && o.applied == []
            && o.node.term == Max(n.term, m.term) && o.node.log == n.log && o.node.commit == n.commit
            && o.node.votedFor == (if Due(n, m) then Some(m.candidate) else if m.term > n.term then None else n.votedFor)
            && o.node.role == (if m.term > n.term then Follower else n.role) && o.node.alive && o.node.base == n.base
  {
  }

  // In a run, a candidate whose log extends the voter's gets the vote of a voter that is free
  // in that term.
  lemma LongerLogGetsVote(par: Params, r: Run, i: nat, v: Id, m: Message<Log>, j: nat)
    requires IsRun(par, r) && j <= i < |r.states| && v in r.states[i].nodes && m.RequestVote?
    requires Packet(v, m) in r.states[i].net && m.candidate in r.states[j].nodes
    requires r.states[j].nodes[m.candidate].role == Candidate && r.states[j].nodes[m.candidate].term == m.term
    requires var n := r.states[i].nodes[v];
             && n.alive && n.log <= r.states[j].nodes[m.candidate].log
             && (n.term < m.term || (n.term == m.term && (n.votedFor.None? || n.votedFor.value == m.candidate)))
    ensures var o := Outcome(par, r.states[i], Label(v, Receive(m)));
            && o.sends == {Packet(m.candidate, VoteReply(m.term, v, true))} && o.node.votedFor == Some(m.candidate)
  {
    hide HistOk, NodeOk, MsgOk, React;
    var hs := Telling(par, r);
    var n, c := r.states[i].nodes[v], r.states[j].nodes[m.candidate];
    CandidateLog(par, r, hs, j, i, m.candidate);
    RequestNames(par, r, hs, i, v, m);
    NodeAt(par, r, hs, i, v);
    LastOfExtension(par, hs[i], v, n, c.log);
    assert Due(n, m);
    VoteExactly(par, v, n, m);
  }

  lemma CandidateLog(par: Params, r: Run, hs: seq<Hist>, j: nat, i: nat, c: Id)
    requires Told(par, r, hs) && j <= i < |hs| && c in r.states[j].nodes && r.states[j].nodes[c].role == Candidate
    ensures var n := r.states[j].nodes[c];
            && (c, n.term) in hs[i].cands && hs[i].cands[(c, n.term)] == n.log && Grounded(hs[i], n.log) && HistOk(par, hs[i])
  {
    hide Inv, NodeOk, Extends, LogOk, HistOk;
    var n := r.states[j].nodes[c];
    NodeAt(par, r, hs, j, c);
    Parts(par, hs[j], c, n);
    ToldLater(par, r, hs, j, i);
    SeenFrom(par, r, hs, j, i, c);
    SeenGrounded(par, hs[i], c, n);
  }

  lemma SeenGrounded(par: Params, h: Hist, c: Id, n: Node)
    requires Seen(par, h, c, n)
    ensures Grounded(h, n.log)
  {
  }

  lemma RequestNames(par: Params, r: Run, hs: seq<Hist>, i: nat, v: Id, m: Message<Log>)
    requires Told(par, r, hs) && i < |hs| && Packet(v, m) in r.states[i].net && m.RequestVote?
    ensures (m.candidate, m.term) in hs[i].cands
    ensures m.lastIndex == |hs[i].cands[(m.candidate, m.term)]| && m.lastTerm == LastTerm(hs[i].cands[(m.candidate, m.term)])
  {
    hide HistOk, NodeOk, Extends;
    assert Inv(par, r.states[i], hs[i]);
    assert MsgOk(hs[i], Packet(v, m));
  }

  // Terms do not fall along a log, so an extension is at least as up to date.
  lemma LastOfExtension(par: Params, h: Hist, v: Id, n: Node, x: Log)
    requires HistOk(par, h) && Grounded(h, x) && n.log <= x
    ensures AtLeast(LastTerm(x), |x|, n.log)
  {
    hide AllKept, Complete, MarkOk;
    HistRecords(par, h);
    if n.log != [] {
      Sorted(par, h, x, |n.log| - 1, |x| - 1);
    }
  }

  // ---- elections --------------------------------------------------------------

  // A live server that does not lead campaigns when its timer fires, if its configuration
  // has it: the next term, its own vote, and a request to every other voter.
  lemma CampaignExactly(par: Params, id: Id, n: Node)
    requires n.alive && n.role != Leader
    ensures var o := React(par, id, n, ElectionTimeout);
            if id !in Voters(par, n) then o == Quiet(n)
            else
              && o.node.term == n.term + 1 && o.node.votedFor == Some(id) && o.node.log == n.log && o.node.base == n.base
              && o.node.alive && o.node.commit == n.commit
              && (forall v | v in Voters(par, n) && v != id :: Packet(v, RequestVote(n.term + 1, id, |n.log|, LastTerm(n.log))) in o.sends)
              && (if |Voters(par, n)| < 2 then o.node.role == Leader else o.node.role == Candidate && o.node.votes == {id})
  {
    hide Heartbeats, ClientIndex, ConfigOf;
    if id in Voters(par, n) {
      assert {id} * Voters(par, n) == {id};
      CardinalityOfSubset({id}, Voters(par, n));
    }
  }

  // A granted vote of its term makes a candidate leader exactly when it completes a majority
  // of its configuration; then every other voter hears from it at once.
  lemma VoteCounts(par: Params, id: Id, n: Node, m: Message<Log>)
    requires n.alive && n.role == Candidate && m.VoteReply? && m.granted && m.term == n.term
    ensures var o := React(par, id, n, Receive(m));
            && o.node.term == n.term && o.node.log == n.log && o.node.base == n.base && o.node.commit == n.commit && o.node.alive
            && o.applied == [] && o.node.votedFor == n.votedFor
            && (if 2 * |(n.votes + {m.voter}) * Voters(par, n)| > |Voters(par, n)| then
                  && o.node.role == Leader && o.sends == Heartbeats(par, id, o.node) && !o.node.confirmed
                  && (forall p | p in par.servers && p != id :: NextFor(o.node, p) == |n.log| + 1)
                  && MatchFor(o.node, id) == |n.log| && o.node.clientIndex == ClientIndex(Drop(n.log, n.base))
                else o.node.role == Candidate && o.node.votes == n.votes + {m.voter} && o.sends == {})
  {
    hide Heartbeats, ClientIndex, ConfigOf;
  }

  // ---- what a leader sends ----------------------------------------------------

  // The message brings this peer to the end of the leader's log from its next index, or to
  // the end of the snapshot when that index lies at or below it.
  ghost predicate BringsUp(id: Id, n: Node, peer: Id, p: Packet<Log>) {
    && p.dst == peer && p.msg.term == n.term
    && (if NextFor(n, peer) > n.base then
          && p.msg.AppendEntries? && p.msg.leader == id && p.msg.leaderCommit == n.commit
          && p.msg.prevIndex == NextFor(n, peer) - 1 && p.msg.prevIndex <= |n.log| && p.msg.prevTerm == LastTerm(n.log[..p.msg.prevIndex])
          && n.log == n.log[..p.msg.prevIndex] + p.msg.entries
        else
          && p.msg.InstallSnapshot? && p.msg.leader == id && 0 < p.msg.lastIndex == n.base <= |n.log|
          && p.msg.image == n.log[..n.base] && p.msg.lastTerm == LastTerm(n.log[..n.base]))
  }

  lemma SendsBringUp(id: Id, n: Node, peer: Id)
    requires 1 <= NextFor(n, peer) <= |n.log| + 1 && n.base <= |n.log|
    ensures BringsUp(id, n, peer, AppendFor(id, n, peer))
  {
  }

  // A round is one such message for every other voter, and nothing else.
  lemma RoundExactly(par: Params, id: Id, n: Node)
    requires n.base <= |n.log| && forall v | v in Voters(par, n) && v != id :: 1 <= NextFor(n, v) <= |n.log| + 1
    ensures forall v | v in Voters(par, n) && v != id :: BringsUp(id, n, v, AppendFor(id, n, v)) && AppendFor(id, n, v) in Heartbeats(par, id, n)
    ensures forall p | p in Heartbeats(par, id, n) :: p.dst in Voters(par, n) && p.dst != id && p == AppendFor(id, n, p.dst)
  {
    hide BringsUp, Voters, AppendFor, NextFor;
    forall v | v in Voters(par, n) && v != id
      ensures BringsUp(id, n, v, AppendFor(id, n, v)) && AppendFor(id, n, v) in Heartbeats(par, id, n)
    {
      SendsBringUp(id, n, v);
    }
    forall p | p in Heartbeats(par, id, n)
      ensures p.dst in Voters(par, n) && p.dst != id && p == AppendFor(id, n, p.dst)
    {
      var v :| v in OtherVoters(par, id, n) && p == AppendFor(id, n, v);
      GoesToPeer(id, n, v);
    }
  }

  lemma GoesToPeer(id: Id, n: Node, v: Id)
    ensures AppendFor(id, n, v).dst == v
  {
  }

  // ---- commits ----------------------------------------------------------------

  predicate FromHereOn(log: Log, k: nat, t: nat) {
    forall j | 0 <= j < |log| && j + 1 >= k :: log[j].term == t
  }

  // Everything from k on is of the leader's term, and a majority is known to hold it.
  ghost predicate Committable(par: Params, n: Node, k: nat) {
    && n.commit < k <= |n.log|
    && FromHereOn(n.log, k, n.term)
    && 2 * |set v | v in Voters(par, n) && MatchFor(n, v) >= k| > |Voters(par, n)|
  }

  lemma {:induction false} ScanFindsGreatest(par: Params, n: Node, from: nat)
    requires from <= |n.log| && FromHereOn(n.log, from + 1, n.term)
    ensures CommitScan(par, n, from).Some? ==>
              && Committable(par, n, CommitScan(par, n, from).value) && CommitScan(par, n, from).value <= from
              && forall j: nat | CommitScan(par, n, from).value < j <= from :: !Committable(par, n, j)
    ensures CommitScan(par, n, from).None? ==> forall j: nat | j <= from :: !Committable(par, n, j)
    decreases from
  {
    hide ConfigOf, MatchFor;
    if from > n.commit && TermAt(n.log, from) == n.term {
      var holders := set v | v in Voters(par, n) && MatchFor(n, v) >= from;
      assert Holders(par, n, from) == holders && holders * Voters(par, n) == holders;
      if !Replicated(par, n, from) {
        ScanFindsGreatest(par, n, from - 1);
      }
    }
  }

  // The commit rule commits up to the greatest index it may, if there is one, and afterwards
  // nothing more can be committed.
  lemma CommitsGreatest(par: Params, n: Node)
    requires n.base <= n.commit <= |n.log|
    ensures var o := AdvanceCommit(par, n);
            && o.node.log == n.log && o.sends == {} && o.applied == ApplyRange(n.log, n.commit, o.node.commit)
            && (forall k: nat | Committable(par, n, k) :: k <= o.node.commit)
            && (if o.node.commit == n.commit then o.node == n else Committable(par, n, o.node.commit) && o.node.confirmed)
            && forall k: nat :: !Committable(par, o.node, k)
  {
    hide ApplyRange, Replicated, ConfigOf, Committable;
    ScanFindsGreatest(par, n, |n.log|);
    ScanFinds(par, n, |n.log|);
    NothingApplies(n.log, n.commit);
    var o := AdvanceCommit(par, n).node;
    forall k: nat
      ensures Committable(par, n, k) ==> k <= |n.log| && k > n.commit
      ensures Committable(par, o, k) ==> Committable(par, n, k) && k > o.commit
    {
      LessCommittable(par, n, o, k);
    }
  }

  lemma LessCommittable(par: Params, n: Node, o: Node, k: nat)
    requires o.log == n.log && o.term == n.term && o.matched == n.matched && o.commit >= n.commit
    ensures Committable(par, n, k) ==> k <= |n.log| && k > n.commit
    ensures Committable(par, o, k) ==> Committable(par, n, k) && k > o.commit
  {
    hide ConfigOf, MatchFor;
    forall v
      ensures MatchFor(o, v) == MatchFor(n, v)
    {
      SameMatch(n, o, v);
    }
    assert (set v | v in Voters(par, o) && MatchFor(o, v) >= k) == (set v | v in Voters(par, n) && MatchFor(n, v) >= k);
  }

  lemma SameMatch(n: Node, o: Node, v: Id)
    requires o.matched == n.matched
    ensures MatchFor(o, v) == MatchFor(n, v)
    ensures o.next == n.next ==> NextFor(o, v) == NextFor(n, v)
  {
  }

  lemma NothingApplies(log: Log, k: nat)
    ensures ApplyRange(log, k, k) == []
  {
  }

  // An acknowledgement raises what the leader knows of the follower, and commits whatever
  // that makes possible.
  lemma SuccessExactly(par: Params, id: Id, n: Node, m: Message<Log>)
    requires n.alive && n.role == Leader && m.AppendReply? && m.success && m.term == n.term && n.base <= n.commit <= |n.log|
    ensures var o := React(par, id, n, Receive(m));
            && o.node.role == Leader && o.node.term == n.term && o.node.alive && o.node.log == n.log && o.sends == {} && o.node.clientIndex == n.clientIndex
            && (forall p :: MatchFor(o.node, p) == if p == m.follower then Max(MatchFor(n, p), m.matchIndex) else MatchFor(n, p))
            && (forall p :: NextFor(o.node, p) == if p == m.follower then Max(NextFor(n, p), m.matchIndex + 1) else NextFor(n, p))
            && n.commit <= o.node.commit <= |n.log| && o.applied == ApplyRange(n.log, n.commit, o.node.commit)
            && (if o.node.commit == n.commit then o.node.confirmed == n.confirmed
                else o.node.confirmed && n.log[o.node.commit - 1].term == n.term)
            && n.base <= o.node.base <= o.node.commit && o.node.votedFor == n.votedFor
            && forall k: nat :: !Committable(par, o.node, k)
  {
    hide ApplyRange, React, AdvanceCommit, ConfigOf, Committable, MatchFor, NextFor;
    var n2 := Raised(n, m);
    ReactRaises(par, id, n, m);
    RaisedProgress(n, m);
    CommitsGreatest(par, n2);
    AdvanceLeaves(par, n2);
    var o := AdvanceCommit(par, n2);
    forall p
      ensures MatchFor(o.node, p) == MatchFor(n2, p) && NextFor(o.node, p) == NextFor(n2, p)
    {
      SameMatch(n2, o.node, p);
    }
    if o.node.commit > n.commit {
      OwnTermAt(par, n2, o.node.commit);
    }
  }

  function Raised(n: Node, m: Message<Log>): Node
    requires m.AppendReply?
  {
    n.(matched := n.matched[m.follower := Max(MatchFor(n, m.follower), m.matchIndex)],
    next := n.next[m.follower := Max(NextFor(n, m.follower), m.matchIndex + 1)])
  }

  lemma ReactRaises(par: Params, id: Id, n: Node, m: Message<Log>)
    requires n.alive && n.role == Leader && m.AppendReply? && m.success && m.term == n.term
    ensures React(par, id, n, Receive(m)) == AdvanceCommit(par, Raised(n, m))
  {
    hide AdvanceCommit, MatchFor, NextFor;
  }

  lemma RaisedProgress(n: Node, m: Message<Log>)
    requires m.AppendReply?
    ensures forall p :: MatchFor(Raised(n, m), p) == if p == m.follower then Max(MatchFor(n, p), m.matchIndex) else MatchFor(n, p)
    ensures forall p :: NextFor(Raised(n, m), p) == if p == m.follower then Max(NextFor(n, p), m.matchIndex + 1) else NextFor(n, p)
  {
  }

  lemma AdvanceLeaves(par: Params, n: Node)
    requires n.base <= n.commit <= |n.log|
    ensures var o := AdvanceCommit(par, n).node;
            && o.(commit := n.commit, base := n.base, confirmed := n.confirmed) == n && n.base <= o.base <= o.commit
            && n.commit <= o.commit <= |n.log|
  {
    hide ApplyRange, Replicated, ConfigOf;
    ScanFinds(par, n, |n.log|);
  }

  lemma OwnTermAt(par: Params, n: Node, k: nat)
    requires Committable(par, n, k)
    ensures 0 < k <= |n.log| && n.log[k - 1].term == n.term
  {
    hide ConfigOf, MatchFor;
  }

  // A refusal makes the leader try one entry earlier, at once.
  lemma RefusalExactly(par: Params, id: Id, n: Node, m: Message<Log>)
    requires n.alive && n.role == Leader && m.AppendReply? && !m.success && m.term == n.term
    requires 1 <= NextFor(n, m.follower) <= |n.log| + 1 && n.base <= |n.log|
    ensures var o := React(par, id, n, Receive(m));
            && o.node == n.(next := n.next[m.follower := Max(1, NextFor(n, m.follower) - 1)]) && o.applied == []
            && exists p :: o.sends == {p} && BringsUp(id, o.node, m.follower, p)
  {
    var o := React(par, id, n, Receive(m));
    SendsBringUp(id, o.node, m.follower);
  }

  // In a run terms do not fall along a log, so only the term at k matters.
  lemma CommittableOnRun(par: Params, r: Run, i: nat, a: Id, k: nat)
    requires IsRun(par, r) && i < |r.states| && a in r.states[i].nodes && r.states[i].nodes[a].role == Leader
    ensures var n := r.states[i].nodes[a];
            Committable(par, n, k) <==>
              n.commit < k <= |n.log| && n.log[k - 1].term == n.term
              && 2 * |set v | v in Voters(par, n) && MatchFor(n, v) >= k| > |Voters(par, n)|
  {
    hide HistOk, NodeOk, ConfigOf, MatchFor;
    var hs := Telling(par, r);
    var n := r.states[i].nodes[a];
    NodeAt(par, r, hs, i, a);
    OwnTermToTheEnd(par, hs[i], a, n, k);
  }

  lemma OwnTermToTheEnd(par: Params, h: Hist, a: Id, n: Node, k: nat)
    requires HistOk(par, h) && NodeOk(par, h, a, n)
    ensures 0 < k <= |n.log| && n.log[k - 1].term == n.term ==> FromHereOn(n.log, k, n.term)
  {
    hide AllKept, Complete, MarkOk, VotesOk, AcksOk, CandidateOk, LeaderOk, ReadsOk;
    HistRecords(par, h);
    if 0 < k <= |n.log| && n.log[k - 1].term == n.term {
      forall j | 0 <= j < |n.log| && j + 1 >= k
        ensures n.log[j].term == n.term
      {
        Sorted(par, h, n.log, k - 1, j);
      }
    }
  }

  // ---- compaction -------------------------------------------------------------

  // Raising the commit index compacts exactly when the threshold is reached, and then
  // everything committed.
  lemma CompactsExactly(par: Params, n: Node, k: nat)
    requires k > n.commit >= n.base
    ensures var o := SetCommit(par, n, k).node;
            && o.commit == k && o.log == n.log
            && o.base == if par.threshold > 0 && k - n.base >= par.threshold then k else n.base
  {
    hide ApplyRange;
  }
}
