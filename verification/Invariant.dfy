// What holds of every server and every message in every reachable state, relative to a
// history, and how those facts survive while the history grows.
//
// Facts about a record of the history, a server or a message only ever mention other records,
// which stay; so each of them needs to be looked at once, for growth by any single step.
module Invariant {
  import opened Prelude
  import opened RaftTypes
  import opened RaftSpec
  import opened History
  import opened Completeness

  // ---- one server -------------------------------------------------------------

  ghost predicate LogOk(h: Hist, n: Node) {
    && Grounded(h, n.log)
    && (forall i | 0 <= i < |n.log| :: n.log[i].term <= n.term)
    && n.base <= n.commit <= |n.log|
    && Decided(h, n.term, n.log[..n.commit])
  }

  // Nothing is recorded for this server in terms it has not reached; its vote is the
  // recorded one.
  ghost predicate VotesOk(h: Hist, id: Id, n: Node) {
    && (forall k | k in h.votes && k.0 == id :: k.1 <= n.term)
    && (forall k | k in h.cands && k.0 == id :: k.1 <= n.term)
    && (forall t | t in h.reigns && h.reigns[t].leader == id :: t <= n.term)
    && n.votedFor == (if (id, n.term) in h.votes then Some(h.votes[(id, n.term)].candidate) else None)
  }

  ghost predicate KeptByNode(h: Hist, n: Node, a: Ack) {
    && a.term <= n.term
    && forall k | 0 <= k <= |a.log| :: a.log[..k] <= n.log || Missing(h, a.term, n.term, a.log[..k])
  }

  ghost predicate AcksOk(h: Hist, id: Id, n: Node) {
    forall a {:trigger KeptByNode(h, n, a)} | a in h.acks && a.voter == id :: KeptByNode(h, n, a)
  }

  ghost predicate CandidateOk(h: Hist, id: Id, n: Node) {
    n.role == Candidate ==>
      && (id, n.term) in h.cands && h.cands[(id, n.term)] == n.log
      && (forall v | v in n.votes :: (v, n.term) in h.votes && h.votes[(v, n.term)].candidate == id)
      && (n.term in h.reigns ==> h.reigns[n.term].leader != id)
  }

  ghost predicate LeaderOk(par: Params, h: Hist, id: Id, n: Node) {
    n.role == Leader ==>
      && n.term in h.reigns && h.reigns[n.term].leader == id && h.reigns[n.term].log == n.log
      && ProgressOk(par, h, id, n)
      && (n.confirmed ==> exists c | c in h.commits :: c.term == n.term)
      && (forall c | c in h.commits && c.term == n.term :: c.index <= n.commit)
  }

  // Replication progress never points past the log, and is always backed by a stored copy.
  ghost predicate ProgressOk(par: Params, h: Hist, id: Id, n: Node) {
    && par.servers - {id} <= n.next.Keys
    && (forall p | p in n.next :: 1 <= n.next[p] <= |n.log| + 1)
    && (forall p | p in n.matched :: n.matched[p] <= |n.log|)
    && (forall p | p in n.matched && n.matched[p] > 0 :: Acked(h, p, n.term, Take(n.log, n.matched[p])))
  }

  // The server acknowledged the read before voting for any leader elected by then.
  ghost predicate Loyal(h: Hist, m: ReadMark, f: Id) {
    forall u | u in m.terms && u in h.reigns && u > m.term :: f !in h.reigns[u].quorum
  }

  ghost predicate ReadsOk(h: Hist, id: Id, n: Node) {
    && (n.role != Leader ==> n.pending == map[])
    && (forall r | r in n.pending ::
          && (id, r) in h.marks
          && var m := h.marks[(id, r)];
          && m.term == n.term && m.command == n.pending[r].command && m.index == n.pending[r].index <= n.commit
          && forall f | f in n.pending[r].acks :: Loyal(h, m, f))
    && (forall k | k in h.marks && k.0 == id :: k.1 < n.nextRead)
  }

  ghost predicate NodeOk(par: Params, h: Hist, id: Id, n: Node) {
    && LogOk(h, n)
    && VotesOk(h, id, n)
    && AcksOk(h, id, n)
    && CandidateOk(h, id, n)
    && LeaderOk(par, h, id, n)
    && ReadsOk(h, id, n)
  }

  lemma Parts(par: Params, h: Hist, id: Id, n: Node)
    requires NodeOk(par, h, id, n)
    ensures LogOk(h, n) && VotesOk(h, id, n) && AcksOk(h, id, n)
    ensures CandidateOk(h, id, n) && LeaderOk(par, h, id, n) && ReadsOk(h, id, n)
  {
  }

  lemma Whole(par: Params, h: Hist, id: Id, n: Node)
    requires LogOk(h, n) && VotesOk(h, id, n) && AcksOk(h, id, n)
    requires CandidateOk(h, id, n) && LeaderOk(par, h, id, n) && ReadsOk(h, id, n)
    ensures NodeOk(par, h, id, n)
  {
  }

  // ---- one message ------------------------------------------------------------

  ghost predicate MsgOk(h: Hist, p: Packet<Log>) {
    match p.msg
    case RequestVote(t, c, li, lt) =>
      (c, t) in h.cands && li == |h.cands[(c, t)]| && lt == TermAt(h.cands[(c, t)], li)
    case VoteReply(t, v, granted) =>
      granted ==> (v, t) in h.votes && h.votes[(v, t)].candidate == p.dst
    case AppendEntries(t, _, prev, pt, es, lc) =>
      && t in h.reigns
      && prev + |es| <= |h.reigns[t].log| && es == h.reigns[t].log[prev..prev + |es|]
      && pt == TermAt(h.reigns[t].log, prev)
      && lc <= |h.reigns[t].log| && Decided(h, t, h.reigns[t].log[..lc])
    case AppendReply(t, f, success, k) =>
      success && k > 0 ==> t in h.reigns && k <= |h.reigns[t].log| && Acked(h, f, t, h.reigns[t].log[..k])
    case InstallSnapshot(t, _, li, lt, image) =>
      && t in h.reigns && image <= h.reigns[t].log
      && |image| == li > 0 && lt == image[li - 1].term
      && Decided(h, t, image)
    case ReadHeartbeat(_, l, r) =>
      (l, r) in h.marks
    case ReadAck(t, f, r) =>
      (p.dst, r) in h.marks && (h.marks[(p.dst, r)].term == t ==> Loyal(h, h.marks[(p.dst, r)], f))
  }

  ghost predicate SendsOk(h: Hist, ps: set<Packet<Log>>) {
    forall p {:trigger MsgOk(h, p)} | p in ps :: MsgOk(h, p)
  }

  // ---- survival under growth --------------------------------------------------

  lemma CandLater(h1: Hist, h2: Hist, t: nat, log: Log)
    requires Later(h1, h2) && CandOk(h1, t, log)
    ensures CandOk(h2, t, log)
  {
    GroundedLater(h1, h2, log);
  }

  lemma VoteLater(h1: Hist, h2: Hist, t: nat, v: Vote)
    requires Later(h1, h2) && VoteOk(h1, t, v)
    ensures VoteOk(h2, t, v)
  {
    GroundedLater(h1, h2, v.log);
  }

  lemma GuardLater(par: Params, h1: Hist, h2: Hist, t: nat, before: Log, voters: set<Id>)
    requires Later(h1, h2) && GuardOk(par, h1, t, before, voters)
    ensures GuardOk(par, h2, t, before, voters)
  {
    var c :| c in h1.commits && c.term == t && c.log <= before;
    assert c in h2.commits;
    if ConfigIndex(before) > 0 {
      var c2 :| c2 in h1.commits && c2.term <= t && before[..ConfigIndex(before)] <= Done(c2) && (c2.term == t ==> c2.log <= before);
      assert c2 in h2.commits;
    }
  }

  lemma ReignLater(par: Params, h1: Hist, h2: Hist, t: nat, r: Reign)
    requires Later(h1, h2) && ReignOk(par, h1, t, r)
    ensures ReignOk(par, h2, t, r)
  {
    forall j | |r.start| <= j < |r.log| && r.log[j].payload.Config?
      ensures GuardOk(par, h2, t, r.log[..j], r.log[j].payload.voters)
    {
      GuardLater(par, h1, h2, t, r.log[..j], r.log[j].payload.voters);
    }
  }

  lemma CommitLater(par: Params, h1: Hist, h2: Hist, c: Commit)
    requires Later(h1, h2) && CommitOk(par, h1, c)
    ensures CommitOk(par, h2, c)
  {
    assert Continues(h1.reigns[c.term], h2.reigns[c.term]);
    var config := ConfigOf(par.initial, c.log);
    forall v | v in Backers(par, h1, c)
      ensures v in Backers(par, h2, c)
    {
      AckedLater(h1, h2, v, c.term, Done(c));
    }
    CardinalityOfSubset(Backers(par, h1, c) * config, Backers(par, h2, c) * config);
  }

  lemma KeptLater(h1: Hist, h2: Hist, t: nat, voter: Id, vote: Vote, a: Ack)
    requires Later(h1, h2) && KeptByVote(h1, t, voter, vote, a)
    ensures KeptByVote(h2, t, voter, vote, a)
  {
    if a.voter == voter && a.term < t {
      forall k | 0 <= k <= |a.log|
        ensures || a.log[..k] <= vote.log
                || Missing(h2, a.term, t - 1, a.log[..k])
                || (t in h2.reigns && voter !in h2.reigns[t].quorum && !(a.log[..k] <= h2.reigns[t].start))
      {
        if Missing(h1, a.term, t - 1, a.log[..k]) {
          MissingLater(h1, h2, a.term, t - 1, a.log[..k]);
        }
      }
    }
  }

  lemma MarkLater(h1: Hist, h2: Hist, m: ReadMark)
    requires Later(h1, h2) && MarkOk(h1, m)
    ensures MarkOk(h2, m)
  {
  }

  lemma LoyalLater(h1: Hist, h2: Hist, m: ReadMark, f: Id)
    requires Later(h1, h2) && MarkOk(h1, m) && Loyal(h1, m, f)
    ensures Loyal(h2, m, f)
  {
    forall u | u in m.terms && u in h2.reigns && u > m.term
      ensures f !in h2.reigns[u].quorum
    {
      assert Continues(h1.reigns[u], h2.reigns[u]);
    }
  }

  // A longer history is good if what it adds is good.
  ghost predicate NewRecords(par: Params, h1: Hist, h2: Hist) {
    && (forall k | k in h2.cands && k !in h1.cands :: CandOk(h2, k.1, h2.cands[k]))
    && (forall k | k in h2.votes && k !in h1.votes :: VoteOk(h2, k.1, h2.votes[k]))
    && (forall t | t in h2.reigns :: (t in h1.reigns && h1.reigns[t] == h2.reigns[t]) || ReignOk(par, h2, t, h2.reigns[t]))
    && (forall a | a in h2.acks && a !in h1.acks :: AckOk(h2, a))
    && (forall c | c in h2.commits && c !in h1.commits :: CommitOk(par, h2, c))
    && (forall k, a | k in h2.votes && a in h2.acks && (k !in h1.votes || a !in h1.acks) ::
          KeptByVote(h2, k.1, k.0, h2.votes[k], a))
    && (forall k | k in h2.marks && k !in h1.marks :: MarkOk(h2, h2.marks[k]))
  }

  ghost predicate NewCarried(h1: Hist, h2: Hist) {
    forall c, t | c in h2.commits && t in h2.reigns && c.term < t && (c !in h1.commits || t !in h1.reigns) ::
      Carried(c, h2.reigns[t])
  }

  lemma RecordsLater(par: Params, h1: Hist, h2: Hist)
    requires Records(par, h1) && Later(h1, h2) && NewRecords(par, h1, h2)
    ensures Records(par, h2)
  {
    forall k | k in h2.cands
      ensures CandOk(h2, k.1, h2.cands[k])
    {
      if k in h1.cands {
        CandLater(h1, h2, k.1, h1.cands[k]);
      }
    }
    forall k | k in h2.votes
      ensures VoteOk(h2, k.1, h2.votes[k])
    {
      if k in h1.votes {
        VoteLater(h1, h2, k.1, h1.votes[k]);
      }
    }
    forall t | t in h2.reigns
      ensures ReignOk(par, h2, t, h2.reigns[t])
    {
      if t in h1.reigns && h1.reigns[t] == h2.reigns[t] {
        ReignLater(par, h1, h2, t, h1.reigns[t]);
      }
    }
    forall a | a in h2.acks
      ensures AckOk(h2, a)
    {
      if a in h1.acks {
        assert AckOk(h1, a);
        assert Continues(h1.reigns[a.term], h2.reigns[a.term]);
      }
    }
    forall c | c in h2.commits
      ensures CommitOk(par, h2, c)
    {
      if c in h1.commits {
        CommitLater(par, h1, h2, c);
      }
    }
  }

  lemma AllKeptLater(par: Params, h1: Hist, h2: Hist)
    requires AllKept(h1) && Later(h1, h2) && NewRecords(par, h1, h2)
    ensures AllKept(h2)
  {
    forall k, a | k in h2.votes && a in h2.acks
      ensures KeptByVote(h2, k.1, k.0, h2.votes[k], a)
    {
      if k in h1.votes && a in h1.acks {
        assert KeptByVote(h1, k.1, k.0, h1.votes[k], a);
        KeptLater(h1, h2, k.1, k.0, h1.votes[k], a);
      }
    }
  }

  lemma HistLater(par: Params, h1: Hist, h2: Hist)
    requires HistOk(par, h1) && Later(h1, h2) && NewRecords(par, h1, h2) && NewCarried(h1, h2)
    ensures HistOk(par, h2)
  {
    RecordsLater(par, h1, h2);
    AllKeptLater(par, h1, h2);
    forall c, t | c in h2.commits && t in h2.reigns && c.term < t
      ensures Carried(c, h2.reigns[t])
    {
      if c in h1.commits && t in h1.reigns {
        assert Carried(c, h1.reigns[t]);
        assert Continues(h1.reigns[t], h2.reigns[t]);
      }
    }
    forall k | k in h2.marks
      ensures MarkOk(h2, h2.marks[k])
    {
      if k in h1.marks {
        MarkLater(h1, h2, h1.marks[k]);
      }
    }
  }

  lemma MsgLater(par: Params, h1: Hist, h2: Hist, p: Packet<Log>)
    requires HistOk(par, h1) && Later(h1, h2) && MsgOk(h1, p)
    ensures MsgOk(h2, p)
  {
    match p.msg
    case RequestVote(_, _, _, _) =>
    case VoteReply(_, _, _) =>
    case AppendEntries(t, _, prev, _, es, lc) =>
      var l1, l2 := h1.reigns[t].log, h2.reigns[t].log;
      assert Continues(h1.reigns[t], h2.reigns[t]);
      assert l1[prev..prev + |es|] == l2[prev..prev + |es|] && l1[..lc] == l2[..lc];
      DecidedLater(h1, h2, t, t, l1[..lc]);
    case AppendReply(t, f, success, k) =>
      if success && k > 0 {
        assert Continues(h1.reigns[t], h2.reigns[t]);
        assert h1.reigns[t].log[..k] == h2.reigns[t].log[..k];
        AckedLater(h1, h2, f, t, h1.reigns[t].log[..k]);
      }
    case InstallSnapshot(t, _, _, _, image) =>
      assert Continues(h1.reigns[t], h2.reigns[t]);
      DecidedLater(h1, h2, t, t, image);
    case ReadHeartbeat(_, _, _) =>
    case ReadAck(_, f, r) =>
      var m := h1.marks[(p.dst, r)];
      assert MarkOk(h1, h1.marks[(p.dst, r)]);
      if m.term == p.msg.term {
        LoyalLater(h1, h2, m, f);
      }
  }

  lemma AcksLater(h1: Hist, h2: Hist, n: Node, a: Ack)
    requires Later(h1, h2) && KeptByNode(h1, n, a)
    ensures KeptByNode(h2, n, a)
  {
    forall k | 0 <= k <= |a.log|
      ensures a.log[..k] <= n.log || Missing(h2, a.term, n.term, a.log[..k])
    {
      if Missing(h1, a.term, n.term, a.log[..k]) {
        MissingLater(h1, h2, a.term, n.term, a.log[..k]);
      }
    }
  }

  lemma LogLater(h1: Hist, h2: Hist, n: Node)
    requires Later(h1, h2) && LogOk(h1, n)
    ensures LogOk(h2, n)
  {
    GroundedLater(h1, h2, n.log);
    DecidedLater(h1, h2, n.term, n.term, n.log[..n.commit]);
  }

  lemma ProgressLater(par: Params, h1: Hist, h2: Hist, id: Id, n: Node)
    requires Later(h1, h2) && ProgressOk(par, h1, id, n)
    ensures ProgressOk(par, h2, id, n)
  {
    forall p | p in n.matched && n.matched[p] > 0
      ensures Acked(h2, p, n.term, Take(n.log, n.matched[p]))
    {
      AckedLater(h1, h2, p, n.term, Take(n.log, n.matched[p]));
    }
  }

  lemma ReadsLater(par: Params, h1: Hist, h2: Hist, id: Id, n: Node)
    requires HistOk(par, h1) && Later(h1, h2) && ReadsOk(h1, id, n)
    requires forall k | k in h2.marks && k.0 == id :: k.1 < n.nextRead
    ensures ReadsOk(h2, id, n)
  {
    forall r, f | r in n.pending && f in n.pending[r].acks
      ensures Loyal(h2, h2.marks[(id, r)], f)
    {
      assert MarkOk(h1, h1.marks[(id, r)]);
      LoyalLater(h1, h2, h1.marks[(id, r)], f);
    }
  }

  // A server's facts are not disturbed by what other servers do.
  lemma NodeLater(par: Params, h1: Hist, h2: Hist, who: Id, id: Id, n: Node)
    requires HistOk(par, h1) && Grows(h1, h2, who) && NodeOk(par, h1, id, n) && id != who
    ensures NodeOk(par, h2, id, n)
  {
    LogLater(h1, h2, n);
    forall a | a in h2.acks && a.voter == id
      ensures KeptByNode(h2, n, a)
    {
      assert KeptByNode(h1, n, a);
      AcksLater(h1, h2, n, a);
    }
    if n.role == Leader {
      ProgressLater(par, h1, h2, id, n);
    }
    ReadsLater(par, h1, h2, id, n);
  }

  lemma GrowsTransitive(h1: Hist, h2: Hist, h3: Hist, who: Id)
    requires Grows(h1, h2, who) && Grows(h2, h3, who)
    ensures Grows(h1, h3, who)
  {
  }

  lemma SendsLater(par: Params, h1: Hist, h2: Hist, ps: set<Packet<Log>>)
    requires HistOk(par, h1) && Later(h1, h2) && SendsOk(h1, ps)
    ensures SendsOk(h2, ps)
  {
    forall p | p in ps
      ensures MsgOk(h2, p)
    {
      assert MsgOk(h1, p);
      MsgLater(par, h1, h2, p);
    }
  }
}
