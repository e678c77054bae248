// The elementary moves every handler is made of, each shown to keep the invariant: step
// down, stand for election, vote, win, append as leader, store as follower, commit, compact,
// crash, mark a read. A move takes a history to a longer one. For each there is the new
// history, a lemma that its records are good, and a lemma that the server that moved is
// still good in it; what the other servers and the messages need is shown once and for all
// where growth is defined.
module Moves {
  import opened Prelude
  import opened RaftTypes
  import opened RaftSpec
  import opened History
  import opened Completeness
  import opened Invariant
  import KvStore

  // The server's own facts after a move, over a history it was free to extend.
  ghost predicate Moved(par: Params, h1: Hist, h2: Hist, id: Id, n2: Node) {
    HistOk(par, h2) && Grows(h1, h2, id) && NodeOk(par, h2, id, n2) && CommitsBy(h1, h2, n2) && ReignsBy(h1, h2, n2)
  }

  // Whatever is newly committed was committed by this server, leading, just now.
  ghost predicate CommitsBy(h1: Hist, h2: Hist, n2: Node) {
    forall c | c in h2.commits && c !in h1.commits ::
      n2.role == Leader && c.term == n2.term && c.log == n2.log && c.index == n2.commit
  }

  // Whatever a leader's log newly holds, this server holds, leading.
  ghost predicate ReignsBy(h1: Hist, h2: Hist, n2: Node) {
    forall t | t in h2.reigns ::
      || (t in h1.reigns && h2.reigns[t].log == h1.reigns[t].log)
      || (n2.role == Leader && h2.reigns[t].log == n2.log)
  }

  lemma KeptWider(h: Hist, n1: Node, n2: Node, a: Ack)
    requires KeptByNode(h, n1, a) && n1.log == n2.log && n1.term <= n2.term
    ensures KeptByNode(h, n2, a)
  {
    forall k | 0 <= k <= |a.log|
      ensures a.log[..k] <= n2.log || Missing(h, a.term, n2.term, a.log[..k])
    {
      if Missing(h, a.term, n1.term, a.log[..k]) {
        var u :| u in h.reigns && a.term < u <= n1.term && !(a.log[..k] <= h.reigns[u].start);
      }
    }
  }

  lemma AcksWider(h: Hist, id: Id, n1: Node, n2: Node)
    requires AcksOk(h, id, n1) && n1.log == n2.log && n1.term <= n2.term
    ensures AcksOk(h, id, n2)
  {
    forall a | a in h.acks && a.voter == id
      ensures KeptByNode(h, n2, a)
    {
      assert KeptByNode(h, n1, a);
      KeptWider(h, n1, n2, a);
    }
  }

  // ---- moves that record nothing ----------------------------------------------

  lemma StepDown(par: Params, h: Hist, id: Id, n: Node, t: nat)
    requires NodeOk(par, h, id, n) && t >= n.term
    ensures NodeOk(par, h, id, BecomeFollower(n, t))
  {
    var f := BecomeFollower(n, t);
    AcksWider(h, id, n, f);
    DecidedLater(h, h, n.term, t, n.log[..n.commit]);
  }

  lemma CrashKeeps(par: Params, h: Hist, id: Id, n: Node)
    requires NodeOk(par, h, id, n)
    ensures NodeOk(par, h, id, Crash(n))
  {
    AcksWider(h, id, n, Crash(n));
    DecidedPrefix(h, n.term, n.log[..n.commit], n.base);
    assert n.log[..n.commit][..n.base] == n.log[..n.base];
  }

  lemma ResumeKeeps(par: Params, h: Hist, id: Id, n: Node)
    requires NodeOk(par, h, id, n)
    ensures NodeOk(par, h, id, Resume(n))
  {
    AcksWider(h, id, n, Resume(n));
  }

  // Raising the commit index over a decided prefix, with the compaction that may follow.
  lemma Raise(par: Params, h: Hist, id: Id, n: Node, k: nat)
    requires NodeOk(par, h, id, n) && n.commit < k <= |n.log| && Decided(h, n.term, n.log[..k])
    ensures NodeOk(par, h, id, MaybeCompact(par, n.(commit := k)))
  {
    var o := MaybeCompact(par, n.(commit := k));
    assert o == n.(commit := k, base := o.base);
    assert LogOk(h, o);
    AcksWider(h, id, n, o);
    assert ReadsOk(h, id, o);
    assert LeaderOk(par, h, id, o) by {
      if n.role == Leader {
        assert ProgressOk(par, h, id, o);
      }
    }
  }

  // ---- elections --------------------------------------------------------------

  // A candidacy and the candidate's vote for itself.
  function Standing(id: Id, n: Node): Node {
    n.(term := n.term + 1, role := Candidate, votedFor := Some(id), votes := {id})
  }

  function Stood(h: Hist, id: Id, n: Node): Hist {
    h.(cands := h.cands[(id, n.term + 1) := n.log], votes := h.votes[(id, n.term + 1) := Vote(id, n.log)])
  }

  lemma StoodRecords(par: Params, h: Hist, id: Id, n: Node)
    requires HistOk(par, h) && NodeOk(par, h, id, n)
    ensures HistOk(par, Stood(h, id, n)) && Grows(h, Stood(h, id, n), id)
  {
    hide HistOk, NodeOk, Grows, NewRecords, Grounded;
    var t, h2 := n.term + 1, Stood(h, id, n);
    StoodGrows(par, h, id, n);
    StoodKept(par, h, id, n);
    Parts(par, h, id, n);
    GroundedLater(h, h2, n.log);
    StoodNew(par, h, id, n);
    HistLater(par, h, h2);
  }

  lemma StoodGrows(par: Params, h: Hist, id: Id, n: Node)
    requires NodeOk(par, h, id, n)
    ensures Later(h, Stood(h, id, n)) && Grows(h, Stood(h, id, n), id)
  {
    hide LogOk, AcksOk, CandidateOk, LeaderOk, ReadsOk;
  }

  lemma StoodNew(par: Params, h: Hist, id: Id, n: Node)
    requires LogOk(h, n) && Grounded(Stood(h, id, n), n.log)
    requires forall a | a in h.acks :: KeptByVote(Stood(h, id, n), n.term + 1, id, Vote(id, n.log), a)
    ensures NewRecords(par, h, Stood(h, id, n))
  {
    hide Grounded, Decided, KeptByVote, MarkOk, CommitOk, AckOk, ReignOk;
    var t, h2 := n.term + 1, Stood(h, id, n);
    assert CandOk(h2, t, n.log);
    assert VoteOk(h2, t, Vote(id, n.log));
  }

  lemma StoodKept(par: Params, h: Hist, id: Id, n: Node)
    requires NodeOk(par, h, id, n) && Later(h, Stood(h, id, n))
    ensures forall a | a in h.acks :: KeptByVote(Stood(h, id, n), n.term + 1, id, Vote(id, n.log), a)
  {
    hide Later, LogOk, VotesOk, CandidateOk, LeaderOk, ReadsOk;
    forall a | a in h.acks
      ensures KeptByVote(Stood(h, id, n), n.term + 1, id, Vote(id, n.log), a)
    {
      if a.voter == id {
        assert KeptByNode(h, n, a);
        AcksLater(h, Stood(h, id, n), n, a);
      }
    }
  }

  lemma Stand(par: Params, h: Hist, id: Id, n: Node) returns (h2: Hist)
    requires HistOk(par, h) && NodeOk(par, h, id, n) && n.role != Leader
    ensures Moved(par, h, h2, id, Standing(id, n))
    ensures (id, n.term + 1) in h2.cands && h2.cands[(id, n.term + 1)] == n.log
  {
    hide HistOk, NodeOk, Standing;
    var c := Standing(id, n);
    h2 := Stood(h, id, n);
    StoodRecords(par, h, id, n);
    StoodNode(par, h, id, n);
  }

  lemma StoodNode(par: Params, h: Hist, id: Id, n: Node)
    requires HistOk(par, h) && NodeOk(par, h, id, n) && n.role != Leader && Later(h, Stood(h, id, n))
    ensures NodeOk(par, Stood(h, id, n), id, Standing(id, n))
  {
    hide HistOk, Records, Grounded, Decided, MarkOk;
    var h2, c := Stood(h, id, n), Standing(id, n);
    LogLater(h, h2, n);
    DecidedLater(h2, h2, n.term, c.term, n.log[..n.commit]);
    AcksOwn(h, h2, id, n);
    AcksWider(h2, id, n, c);
    ReadsLater(par, h, h2, id, n);
  }

  lemma AcksOwn(h1: Hist, h2: Hist, id: Id, n: Node)
    requires AcksOk(h1, id, n) && Later(h1, h2) && h1.acks == h2.acks
    ensures AcksOk(h2, id, n)
  {
    forall a | a in h2.acks && a.voter == id
      ensures KeptByNode(h2, n, a)
    {
      assert KeptByNode(h1, n, a);
      AcksLater(h1, h2, n, a);
    }
  }

  function Vouched(h: Hist, id: Id, n: Node, candidate: Id): Hist {
    h.(votes := h.votes[(id, n.term) := Vote(candidate, n.log)])
  }

  // The candidate's log is recorded and at least as up to date as the voter's.
  ghost predicate Eligible(h: Hist, n: Node, candidate: Id) {
    (candidate, n.term) in h.cands &&
    var c := h.cands[(candidate, n.term)];
    UpToDate(TermAt(c, |c|), |c|, n.log)
  }

  lemma VouchedRecords(par: Params, h: Hist, id: Id, n: Node, candidate: Id)
    requires HistOk(par, h) && NodeOk(par, h, id, n) && n.votedFor == None && Eligible(h, n, candidate)
    ensures HistOk(par, Vouched(h, id, n, candidate)) && Grows(h, Vouched(h, id, n, candidate), id)
  {
    var vote, h2 := Vote(candidate, n.log), Vouched(h, id, n, candidate);
    assert Later(h, h2);
    GroundedLater(h, h2, n.log);
    forall a | a in h2.acks
      ensures KeptByVote(h2, n.term, id, vote, a)
    {
      if a.voter == id && a.term < n.term {
        assert KeptByNode(h, n, a);
        VouchKept(par, h, id, n, a);
        KeptLater(h, h2, n.term, id, vote, a);
      }
    }
    HistLater(par, h, h2);
  }

  lemma Vouch(par: Params, h: Hist, id: Id, n: Node, candidate: Id) returns (h2: Hist)
    requires HistOk(par, h) && NodeOk(par, h, id, n) && n.votedFor == None && Eligible(h, n, candidate)
    ensures Moved(par, h, h2, id, n.(votedFor := Some(candidate)))
    ensures (id, n.term) in h2.votes && h2.votes[(id, n.term)].candidate == candidate
  {
    hide HistOk, NodeOk, Eligible;
    h2 := Vouched(h, id, n, candidate);
    VouchedRecords(par, h, id, n, candidate);
    VouchedNode(par, h, id, n, candidate);
  }

  lemma VouchedNode(par: Params, h: Hist, id: Id, n: Node, candidate: Id)
    requires HistOk(par, h) && NodeOk(par, h, id, n) && n.votedFor == None && Later(h, Vouched(h, id, n, candidate))
    ensures NodeOk(par, Vouched(h, id, n, candidate), id, n.(votedFor := Some(candidate)))
  {
    hide HistOk, Records, Grounded, Decided, MarkOk;
    var h2, g := Vouched(h, id, n, candidate), n.(votedFor := Some(candidate));
    LogLater(h, h2, n);
    AcksOwn(h, h2, id, n);
    AcksWider(h2, id, n, g);
    ReadsLater(par, h, h2, id, n);
    LeaderSame(par, h, h2, id, n, g);
  }

  lemma LeaderSame(par: Params, h1: Hist, h2: Hist, id: Id, n1: Node, n2: Node)
    requires LeaderOk(par, h1, id, n1) && Later(h1, h2) && h1.reigns == h2.reigns && h1.commits == h2.commits
    requires n2.role == n1.role && n2.term == n1.term && n2.log == n1.log && n2.commit == n1.commit
    requires n2.next == n1.next && n2.matched == n1.matched && n2.confirmed == n1.confirmed
    ensures LeaderOk(par, h2, id, n2)
  {
    if n1.role == Leader {
      ProgressLater(par, h1, h2, id, n1);
    }
  }

  // A vote cast after someone already won this term is not among the winner's.
  lemma VouchKept(par: Params, h: Hist, id: Id, n: Node, a: Ack)
    requires HistOk(par, h) && VotesOk(h, id, n) && n.votedFor == None
    requires a.voter == id && a.term < n.term && KeptByNode(h, n, a)
    ensures forall candidate :: KeptByVote(h, n.term, id, Vote(candidate, n.log), a)
  {
    var t := n.term;
    forall candidate, k | 0 <= k <= |a.log|
      ensures || a.log[..k] <= Vote(candidate, n.log).log
              || Missing(h, a.term, t - 1, a.log[..k])
              || (t in h.reigns && id !in h.reigns[t].quorum && !(a.log[..k] <= h.reigns[t].start))
    {
      if Missing(h, a.term, t, a.log[..k]) && !Missing(h, a.term, t - 1, a.log[..k]) {
        var u :| u in h.reigns && a.term < u <= t && !(a.log[..k] <= h.reigns[u].start);
        assert ReignOk(par, h, t, h.reigns[t]);
      }
    }
  }

  // Election Safety, as the candidate meets it: nobody has won this term yet.
  lemma FirstToWin(par: Params, h: Hist, id: Id, n: Node)
    requires HistOk(par, h) && NodeOk(par, h, id, n) && n.role == Candidate
    requires Majority(n.votes, ConfigOf(par.initial, n.log))
    ensures n.term !in h.reigns
    ensures forall c | c in h.commits && c.term < n.term :: Done(c) <= n.log
  {
    var t := n.term;
    assert Won(par, h, t, id, n.log, n.votes);
    assert CompleteBelow(h, t) && Rivals(h, t, n.votes);
    forall c | c in h.commits && c.term < t
      ensures Done(c) <= n.log
    {
      WinnerComplete(par, h, t, id, n.log, n.votes, c);
    }
    if t in h.reigns {
      var r := h.reigns[t];
      assert ReignOk(par, h, t, h.reigns[t]);
      forall c | c in h.commits && c.term < t
        ensures Done(c) <= r.start
      {
        assert Carried(c, h.reigns[t]);
      }
      WinnersMeet(par, h, t, r.leader, r.start, r.quorum, id, n.log, n.votes);
    }
  }

  function Crowned(h: Hist, id: Id, n: Node): Hist {
    h.(reigns := h.reigns[n.term := Reign(id, n.log, n.log, n.votes)], acks := h.acks + {Ack(id, n.term, n.log)})
  }

  lemma CrownedNew(par: Params, h: Hist, id: Id, n: Node)
    requires Won(par, h, n.term, id, n.log, n.votes) && n.term !in h.reigns
    requires VotesOk(h, id, n)
    ensures NewRecords(par, h, Crowned(h, id, n))
  {
    var t, h2 := n.term, Crowned(h, id, n);
    assert ReignOk(par, h2, t, h2.reigns[t]);
    forall k, a | k in h2.votes && a in h2.acks && a !in h.acks
      ensures KeptByVote(h2, k.1, k.0, h2.votes[k], a)
    {
    }
  }

  lemma CrownedRecords(par: Params, h: Hist, id: Id, n: Node)
    requires HistOk(par, h) && NodeOk(par, h, id, n) && n.role == Candidate
    requires Majority(n.votes, ConfigOf(par.initial, n.log))
    ensures n.term !in h.reigns && Later(h, Crowned(h, id, n))
    ensures HistOk(par, Crowned(h, id, n)) && Grows(h, Crowned(h, id, n), id)
  {
    hide HistOk, NodeOk, NewRecords, NewCarried, Grows, Later, Crowned, LogOk, AcksOk, ReadsOk, LeaderOk, VotesOk;
    FirstToWin(par, h, id, n);
    Parts(par, h, id, n);
    CrownedNew(par, h, id, n);
    CrownedGrows(h, id, n);
    HistLater(par, h, Crowned(h, id, n));
  }

  lemma CrownedGrows(h: Hist, id: Id, n: Node)
    requires n.term !in h.reigns && forall c | c in h.commits && c.term < n.term :: Done(c) <= n.log
    ensures Grows(h, Crowned(h, id, n), id) && Later(h, Crowned(h, id, n))
    ensures NewCarried(h, Crowned(h, id, n))
  {
    assert Crowned(h, id, n).reigns[n.term].start == n.log;
  }

  lemma CrownedLeader(par: Params, h: Hist, id: Id, n: Node)
    requires Records(par, h) && n.term !in h.reigns && id in par.servers
    ensures LeaderOk(par, Crowned(h, id, n), id, BecomeLeader(par, id, n))
  {
    var t, l, h2 := n.term, BecomeLeader(par, id, n), Crowned(h, id, n);
    assert Ack(id, t, n.log) in h2.acks;
    assert Acked(h2, id, t, Take(n.log, |n.log|));
    assert ProgressOk(par, h2, id, l);
    forall c | c in h2.commits
      ensures c.term != t
    {
      assert CommitOk(par, h, c);
    }
  }

  lemma Crown(par: Params, h: Hist, id: Id, n: Node) returns (h2: Hist)
    requires HistOk(par, h) && NodeOk(par, h, id, n) && n.role == Candidate
    requires Majority(n.votes, ConfigOf(par.initial, n.log)) && id in par.servers
    ensures Moved(par, h, h2, id, BecomeLeader(par, id, n))
  {
    hide HistOk, NodeOk, Records, LogOk, VotesOk, AcksOk, LeaderOk, ReadsOk, CandidateOk, BecomeLeader, Grows;
    h2 := Crowned(h, id, n);
    CrownedRecords(par, h, id, n);
    HistRecords(par, h);
    Parts(par, h, id, n);
    CrownedLeader(par, h, id, n);
    CrownedRest(par, h, id, n);
    Whole(par, h2, id, BecomeLeader(par, id, n));
    CrownedReigns(par, h, id, n);
  }

  lemma CrownedReigns(par: Params, h: Hist, id: Id, n: Node)
    ensures ReignsBy(h, Crowned(h, id, n), BecomeLeader(par, id, n))
  {
  }

  lemma HistRecords(par: Params, h: Hist)
    requires HistOk(par, h)
    ensures Records(par, h) && AllKept(h) && Complete(h)
  {
  }

  lemma CrownedRest(par: Params, h: Hist, id: Id, n: Node)
    requires HistOk(par, h) && NodeOk(par, h, id, n) && n.role == Candidate
    requires Later(h, Crowned(h, id, n)) && n.term !in h.reigns
    ensures var h2, l := Crowned(h, id, n), BecomeLeader(par, id, n);
            LogOk(h2, l) && VotesOk(h2, id, l) && AcksOk(h2, id, l) && CandidateOk(h2, id, l) && ReadsOk(h2, id, l)
  {
    hide HistOk, Records, Grounded, Decided, MarkOk, ProgressOk;
    var h2, l := Crowned(h, id, n), BecomeLeader(par, id, n);
    LogLater(h, h2, n);
    OwnAckKept(h, h2, id, n, Ack(id, n.term, n.log));
    AcksWider(h2, id, n, l);
    ReadsLater(par, h, h2, id, n);
  }

  // Acknowledging a prefix of the log just stored adds nothing the log does not have.
  lemma OwnAckKept(h1: Hist, h2: Hist, id: Id, n: Node, mine: Ack)
    requires AcksOk(h1, id, n) && Later(h1, h2) && h2.acks == h1.acks + {mine}
    requires mine.voter == id && mine.term == n.term && mine.log <= n.log
    ensures AcksOk(h2, id, n)
  {
    forall a | a in h2.acks && a.voter == id
      ensures KeptByNode(h2, n, a)
    {
      if a in h1.acks {
        assert KeptByNode(h1, n, a);
        AcksLater(h1, h2, n, a);
      }
    }
  }

  // ---- a leader appends -------------------------------------------------------

  function Extended(h: Hist, id: Id, n: Node, e: Entry): Hist
    requires n.term in h.reigns
  {
    h.(reigns := h.reigns[n.term := h.reigns[n.term].(log := n.log + [e])], acks := h.acks + {Ack(id, n.term, n.log + [e])})
  }

  lemma ExtendedGuard(par: Params, h: Hist, h2: Hist, n: Node, e: Entry, j: nat)
    requires Later(h, h2) && n.term in h.reigns && h.reigns[n.term].log == n.log
    requires Guarded(par, h, n.term, h.reigns[n.term])
    requires e.payload.Config? ==> GuardOk(par, h, n.term, n.log, e.payload.voters)
    requires |h.reigns[n.term].start| <= j <= |n.log| && (n.log + [e])[j].payload.Config?
    ensures GuardOk(par, h2, n.term, (n.log + [e])[..j], (n.log + [e])[j].payload.voters)
  {
    hide GuardOk;
    assert (n.log + [e])[..j] == n.log[..j];
    if j == |n.log| {
      assert n.log[..j] == n.log;
    }
    GuardLater(par, h, h2, n.term, n.log[..j], (n.log + [e])[j].payload.voters);
  }

  lemma ExtendedReign(par: Params, h: Hist, id: Id, n: Node, e: Entry)
    requires Records(par, h) && n.term in h.reigns && h.reigns[n.term].log == n.log && e.term == n.term
    requires e.payload.Config? ==> GuardOk(par, h, n.term, n.log, e.payload.voters)
    ensures Later(h, Extended(h, id, n, e))
    ensures ReignOk(par, Extended(h, id, n, e), n.term, Extended(h, id, n, e).reigns[n.term])
  {
    hide GuardOk;
    var t, h2 := n.term, Extended(h, id, n, e);
    var r := h2.reigns[t];
    assert ReignOk(par, h, t, h.reigns[t]);
    forall j | |r.start| <= j < |r.log| && r.log[j].payload.Config?
      ensures GuardOk(par, h2, t, r.log[..j], r.log[j].payload.voters)
    {
      ExtendedGuard(par, h, h2, n, e, j);
    }
  }

  lemma ExtendedNew(par: Params, h: Hist, id: Id, n: Node, e: Entry)
    requires Records(par, h) && VotesOk(h, id, n) && n.term in h.reigns && h.reigns[n.term].log == n.log && e.term == n.term
    requires e.payload.Config? ==> GuardOk(par, h, n.term, n.log, e.payload.voters)
    ensures NewRecords(par, h, Extended(h, id, n, e))
  {
    var h2 := Extended(h, id, n, e);
    ExtendedReign(par, h, id, n, e);
    forall k, a | k in h2.votes && a in h2.acks && a !in h.acks
      ensures KeptByVote(h2, k.1, k.0, h2.votes[k], a)
    {
    }
  }

  lemma ExtendedGrows(h: Hist, id: Id, n: Node, e: Entry)
    requires n.term in h.reigns && h.reigns[n.term].log == n.log && h.reigns[n.term].leader == id
    ensures Grows(h, Extended(h, id, n, e), id) && Later(h, Extended(h, id, n, e))
    ensures NewCarried(h, Extended(h, id, n, e))
  {
  }

  lemma ExtendedRecords(par: Params, h: Hist, id: Id, n: Node, e: Entry)
    requires HistOk(par, h) && NodeOk(par, h, id, n) && n.role == Leader && e.term == n.term
    requires e.payload.Config? ==> GuardOk(par, h, n.term, n.log, e.payload.voters)
    ensures HistOk(par, Extended(h, id, n, e)) && Grows(h, Extended(h, id, n, e), id) && Later(h, Extended(h, id, n, e))
  {
    hide HistOk, NodeOk, Records, AllKept, Complete, LogOk, VotesOk, AcksOk, ReadsOk, CandidateOk, ProgressOk, GuardOk, NewRecords, NewCarried, Grows, Later, Extended;
    Parts(par, h, id, n);
    HistRecords(par, h);
    ExtendedGrows(h, id, n, e);
    ExtendedNew(par, h, id, n, e);
    HistLater(par, h, Extended(h, id, n, e));
  }

  lemma ExtendedLog(par: Params, h: Hist, id: Id, n: Node, e: Entry)
    requires NodeOk(par, h, id, n) && n.role == Leader && e.term == n.term
    requires Later(h, Extended(h, id, n, e))
    ensures LogOk(Extended(h, id, n, e), n.(log := n.log + [e]))
    ensures AcksOk(Extended(h, id, n, e), id, n.(log := n.log + [e]))
  {
    var t, h2, x := n.term, Extended(h, id, n, e), n.log + [e];
    LogLater(h, h2, n);
    forall i | 0 <= i < |x|
      ensures x[i].term in h2.reigns && x[..i + 1] <= h2.reigns[x[i].term].log
    {
      if i < |n.log| {
        assert x[..i + 1] == n.log[..i + 1];
      }
    }
    assert x[..n.commit] == n.log[..n.commit];
    forall a | a in h2.acks && a.voter == id
      ensures KeptByNode(h2, n.(log := x), a)
    {
      if a in h.acks {
        assert KeptByNode(h, n, a);
        AcksLater(h, h2, n, a);
      }
    }
  }

  lemma LeaderExtends(par: Params, h: Hist, id: Id, n: Node, index: map<int, int>, e: Entry) returns (h2: Hist)
    requires HistOk(par, h) && NodeOk(par, h, id, n) && n.role == Leader && e.term == n.term
    requires e.payload.Config? ==> GuardOk(par, h, n.term, n.log, e.payload.voters)
    ensures Moved(par, h, h2, id, Extend(n.(clientIndex := index), id, e))
  {
    hide HistOk, Records, GuardOk, Grounded, Decided, ProgressOk;
    var l := Extend(n.(clientIndex := index), id, e);
    h2 := Extended(h, id, n, e);
    ExtendedRecords(par, h, id, n, e);
    ExtendedLog(par, h, id, n, e);
    assert l.log == n.log + [e];
    AcksWider(h2, id, n.(log := l.log), l);
    assert ReadsOk(h2, id, l) by { ReadsLater(par, h, h2, id, n); }
    assert VotesOk(h2, id, l);
    ExtendedProgress(par, h, id, n, index, e);
  }

  lemma ExtendedProgress(par: Params, h: Hist, id: Id, n: Node, index: map<int, int>, e: Entry)
    requires LeaderOk(par, h, id, n) && n.role == Leader && e.term == n.term && Later(h, Extended(h, id, n, e))
    ensures LeaderOk(par, Extended(h, id, n, e), id, Extend(n.(clientIndex := index), id, e))
  {
    var l, h2 := Extend(n.(clientIndex := index), id, e), Extended(h, id, n, e);
    forall p | p in l.matched && l.matched[p] > 0
      ensures Acked(h2, p, l.term, Take(l.log, l.matched[p]))
    {
      if p == id {
        assert Ack(id, n.term, l.log) in h2.acks;
      } else {
        AckedLater(h, h2, p, n.term, Take(n.log, n.matched[p]));
        assert Take(n.log, n.matched[p]) == Take(l.log, l.matched[p]);
      }
    }
    assert ProgressOk(par, h2, id, l);
  }

  // ---- a follower stores ------------------------------------------------------

  // What merging a stretch of a leader's log amounts to: nothing if it is there already,
  // otherwise exactly the leader's prefix. The comparison by term alone is enough.
  lemma {:induction false} MergeIs(h: Hist, x: Log, m: Log, at: nat)
    requires Grounded(h, x) && Grounded(h, m)
    requires at <= |x| && at <= |m| && x[..at] == m[..at]
    ensures Merge(x, at, m[at..]) == if m <= x then x else m
    decreases |m| - at
  {
    if at < |m| {
      if at < |x| && x[at].term == m[at].term {
        Matching(h, x, m, at);
        assert m[at..][1..] == m[at + 1..];
        MergeIs(h, x, m, at + 1);
      } else {
        assert x[..at] + m[at..] == m;
      }
    } else {
      assert m[..at] == m;
    }
  }

  // Everything a server knows committed is in the log of the leader of its term.
  lemma CommittedHeld(par: Params, h: Hist, n: Node, t: nat)
    requires HistOk(par, h) && LogOk(h, n) && t in h.reigns && n.term <= t
    ensures n.log[..n.commit] <= h.reigns[t].log
  {
    DecidedHeld(par, h, n.term, n.log[..n.commit], t);
  }

  lemma DecidedHeld(par: Params, h: Hist, s: nat, p: Log, t: nat)
    requires HistOk(par, h) && Decided(h, s, p) && t in h.reigns && s <= t
    ensures p <= h.reigns[t].log
  {
    if p != [] {
      var c :| c in h.commits && c.term <= s && p <= Done(c);
      CommitFacts(par, h, c);
      assert ReignOk(par, h, t, h.reigns[t]);
      if c.term < t {
        assert Carried(c, h.reigns[t]);
      }
    }
  }

  // The log after storing m, a prefix of this term's leader's log.
  function Stored(x: Log, m: Log): Log {
    if m <= x then x else m
  }

  lemma StoredKeeps(x: Log, m: Log, l: Log, p: Log)
    requires m <= l && p <= l && p <= x
    ensures p <= Stored(x, m)
  {
  }

  lemma StoredLog(par: Params, h: Hist, n: Node, m: Log)
    requires HistOk(par, h) && LogOk(h, n) && n.term in h.reigns && m <= h.reigns[n.term].log
    ensures LogOk(h, n.(log := Stored(n.log, m)))
    ensures n.log[..n.commit] <= Stored(n.log, m)
  {
    var l := h.reigns[n.term].log;
    ReignGrounded(par, h, n.term);
    CommittedHeld(par, h, n, n.term);
    StoredKeeps(n.log, m, l, n.log[..n.commit]);
    assert Stored(n.log, m)[..n.commit] == n.log[..n.commit];
    if !(m <= n.log) {
      GroundedPrefix(h, l, |m|);
      assert l[..|m|] == m;
    }
  }

  lemma StoredAcks(par: Params, h: Hist, id: Id, n: Node, m: Log)
    requires HistOk(par, h) && AcksOk(h, id, n) && n.term in h.reigns && m <= h.reigns[n.term].log
    ensures AcksOk(h, id, n.(log := Stored(n.log, m)))
  {
    var l, g := h.reigns[n.term].log, n.(log := Stored(n.log, m));
    assert ReignOk(par, h, n.term, h.reigns[n.term]);
    forall a | a in h.acks && a.voter == id
      ensures KeptByNode(h, g, a)
    {
      assert KeptByNode(h, n, a);
      assert AckOk(h, a);
      forall k | 0 <= k <= |a.log|
        ensures a.log[..k] <= g.log || Missing(h, a.term, g.term, a.log[..k])
      {
        if !Missing(h, a.term, n.term, a.log[..k]) {
          StoredKeeps(n.log, m, l, a.log[..k]);
        }
      }
    }
  }

  function Acknowledged(h: Hist, a: Ack): Hist {
    h.(acks := h.acks + {a})
  }

  lemma AcknowledgedNew(par: Params, h: Hist, id: Id, n: Node, a: Ack)
    requires VotesOk(h, id, n) && a.voter == id && a.term == n.term && AckOk(h, a)
    ensures NewRecords(par, h, Acknowledged(h, a)) && NewCarried(h, Acknowledged(h, a))
    ensures Grows(h, Acknowledged(h, a), id) && Later(h, Acknowledged(h, a))
  {
    var h2 := Acknowledged(h, a);
    forall k, b | k in h2.votes && b in h2.acks && b !in h.acks
      ensures KeptByVote(h2, k.1, k.0, h2.votes[k], b)
    {
    }
  }

  lemma AcknowledgedRecords(par: Params, h: Hist, id: Id, n: Node, a: Ack)
    requires HistOk(par, h) && VotesOk(h, id, n) && a.voter == id && a.term == n.term && AckOk(h, a)
    ensures HistOk(par, Acknowledged(h, a)) && Grows(h, Acknowledged(h, a), id)
  {
    hide HistOk, VotesOk, NewRecords, NewCarried, Grows, Later, Acknowledged, AckOk;
    AcknowledgedNew(par, h, id, n, a);
    HistLater(par, h, Acknowledged(h, a));
  }

  // A follower stores a prefix of its leader's log and may say so.
  lemma Store(par: Params, h: Hist, id: Id, n: Node, m: Log) returns (h2: Hist)
    requires HistOk(par, h) && NodeOk(par, h, id, n) && n.role == Follower
    requires n.term in h.reigns && m <= h.reigns[n.term].log
    ensures Moved(par, h, h2, id, n.(log := Stored(n.log, m)))
    ensures Acked(h2, id, n.term, m) && h2.reigns == h.reigns && h2.commits == h.commits
  {
    var a, g := Ack(id, n.term, m), n.(log := Stored(n.log, m));
    h2 := Acknowledged(h, a);
    AcknowledgedRecords(par, h, id, n, a);
    StoredLog(par, h, n, m);
    StoredAcks(par, h, id, n, m);
    LogLater(h, h2, g);
    OwnAckKept(h, h2, id, g, a);
    assert ReadsOk(h2, id, g) by { ReadsLater(par, h, h2, id, n); }
    assert VotesOk(h2, id, g);
    assert a in h2.acks;
  }

  // ---- a leader commits -------------------------------------------------------

  function Decreed(h: Hist, c: Commit): Hist {
    h.(commits := h.commits + {c})
  }

  // A new commit is in the log of every later leader there already is.
  lemma {:induction false} CommitCarried(par: Params, h: Hist, c: Commit, t: nat)
    requires HistOk(par, h) && Records(par, Decreed(h, c)) && AllKept(Decreed(h, c))
    requires t in h.reigns && c.term < t
    ensures Carried(c, h.reigns[t])
    decreases t
  {
    var h2 := Decreed(h, c);
    forall k, u | k in h2.commits && u in h2.reigns && k.term < u < t
      ensures Carried(k, h2.reigns[u])
    {
      if k == c {
        CommitCarried(par, h, c, u);
      }
    }
    var r := h2.reigns[t];
    assert ReignOk(par, h2, t, h2.reigns[t]);
    WinnerComplete(par, h2, t, r.leader, r.start, r.quorum, c);
  }

  // The scan counted a majority of stored copies.
  lemma ReplicatedCommit(par: Params, h: Hist, id: Id, n: Node, k: nat)
    requires Records(par, h) && LeaderOk(par, h, id, n) && n.role == Leader
    requires 0 < k <= |n.log| && TermAt(n.log, k) == n.term && Replicated(par, n, k)
    ensures CommitOk(par, h, Commit(n.term, n.log, k))
  {
    var c := Commit(n.term, n.log, k);
    assert ReignOk(par, h, n.term, h.reigns[n.term]);
    var config := Voters(par, n);
    forall v | v in Holders(par, n, k)
      ensures v in Backers(par, h, c)
    {
      assert Acked(h, v, n.term, Take(n.log, n.matched[v]));
      assert Done(c) <= Take(n.log, n.matched[v]);
    }
    CardinalityOfSubset(Holders(par, n, k) * config, Backers(par, h, c) * config);
  }

  lemma DecreedNew(par: Params, h: Hist, id: Id, c: Commit)
    requires CommitOk(par, h, c) && h.reigns[c.term].leader == id
    ensures NewRecords(par, h, Decreed(h, c)) && Grows(h, Decreed(h, c), id) && Later(h, Decreed(h, c))
  {
    CommitLater(par, h, Decreed(h, c), c);
  }

  lemma DecreedRecords(par: Params, h: Hist, id: Id, n: Node, k: nat)
    requires HistOk(par, h) && LeaderOk(par, h, id, n) && n.role == Leader
    requires 0 < k <= |n.log| && TermAt(n.log, k) == n.term && Replicated(par, n, k)
    ensures HistOk(par, Decreed(h, Commit(n.term, n.log, k)))
    ensures Grows(h, Decreed(h, Commit(n.term, n.log, k)), id)
  {
    hide HistOk, Records, AllKept, NewRecords, Grows, Later, CommitOk, ProgressOk, Replicated, Complete;
    var c := Commit(n.term, n.log, k);
    var h2 := Decreed(h, c);
    HistRecords(par, h);
    ReplicatedCommit(par, h, id, n, k);
    DecreedNew(par, h, id, c);
    RecordsLater(par, h, h2);
    AllKeptLater(par, h, h2);
    forall k, t | k in h2.commits && t in h2.reigns && k.term < t && (k !in h.commits || t !in h.reigns)
      ensures Carried(k, h2.reigns[t])
    {
      CommitCarried(par, h, c, t);
    }
    HistLater(par, h, h2);
  }

  lemma DecreedLeader(par: Params, h: Hist, id: Id, n: Node, k: nat, o: Node)
    requires LeaderOk(par, h, id, n) && n.role == Leader && n.commit < k
    requires exists b: nat :: o == n.(commit := k, base := b, confirmed := true)
    ensures LeaderOk(par, Decreed(h, Commit(n.term, n.log, k)), id, o)
  {
    var h2 := Decreed(h, Commit(n.term, n.log, k));
    ProgressLater(par, h, h2, id, n);
    assert ProgressOk(par, h2, id, o);
    assert Commit(n.term, n.log, k) in h2.commits;
  }

  lemma DecreedLog(h: Hist, n: Node, k: nat, o: Node)
    requires LogOk(h, n) && n.commit < k <= |n.log|
    requires o.term == n.term && o.log == n.log && o.commit == k && o.base <= k
    ensures LogOk(Decreed(h, Commit(n.term, n.log, k)), o)
  {
    var c := Commit(n.term, n.log, k);
    LogLater(h, Decreed(h, c), n);
    assert c in Decreed(h, c).commits && n.log[..k] <= Done(c);
  }

  lemma DecreedNode(par: Params, h: Hist, id: Id, n: Node, k: nat, o: Node)
    requires HistOk(par, h) && NodeOk(par, h, id, n) && n.role == Leader && n.commit < k <= |n.log|
    requires exists b: nat :: b <= k && o == n.(commit := k, base := b, confirmed := true)
    ensures NodeOk(par, Decreed(h, Commit(n.term, n.log, k)), id, o)
  {
    var h2 := Decreed(h, Commit(n.term, n.log, k));
    DecreedLeader(par, h, id, n, k, o);
    DecreedLog(h, n, k, o);
    AcksOwn(h, h2, id, n);
    AcksWider(h2, id, n, o);
    ReadsLater(par, h, h2, id, n);
  }

  lemma Decree(par: Params, h: Hist, id: Id, n: Node, k: nat) returns (h2: Hist)
    requires HistOk(par, h) && NodeOk(par, h, id, n) && n.role == Leader
    requires n.commit < k <= |n.log| && TermAt(n.log, k) == n.term && Replicated(par, n, k)
    ensures Moved(par, h, h2, id, MaybeCompact(par, n.(commit := k)).(confirmed := true))
    ensures h2 == Decreed(h, Commit(n.term, n.log, k))
  {
    h2 := Decreed(h, Commit(n.term, n.log, k));
    DecreedRecords(par, h, id, n, k);
    var o := MaybeCompact(par, n.(commit := k)).(confirmed := true);
    assert o == n.(commit := k, base := o.base, confirmed := true);
    DecreedNode(par, h, id, n, k, o);
  }

  // ---- reads ------------------------------------------------------------------

  function Marked(h: Hist, id: Id, n: Node, cmd: KvStore.Command): Hist {
    h.(marks := h.marks[(id, n.nextRead) := ReadMark(cmd, n.term, n.commit, h.commits, h.reigns.Keys)])
  }

  // A server is loyal to a read while it has not moved past the reader's term.
  lemma StillLoyal(par: Params, h: Hist, id: Id, n: Node, m: ReadMark)
    requires HistOk(par, h) && VotesOk(h, id, n) && n.term == m.term
    ensures Loyal(h, m, id)
  {
    forall u | u in m.terms && u in h.reigns && u > m.term
      ensures id !in h.reigns[u].quorum
    {
      assert ReignOk(par, h, u, h.reigns[u]);
      assert id in h.reigns[u].quorum ==> (id, u) in h.votes;
    }
  }

  lemma MarkedRecords(par: Params, h: Hist, id: Id, n: Node, cmd: KvStore.Command)
    requires HistOk(par, h) && NodeOk(par, h, id, n) && n.role == Leader && n.confirmed
    ensures HistOk(par, Marked(h, id, n, cmd)) && Grows(h, Marked(h, id, n, cmd), id)
  {
    var h2 := Marked(h, id, n, cmd);
    var m := h2.marks[(id, n.nextRead)];
    forall t, i | t in m.terms && t in h2.reigns && 0 <= i < |h2.reigns[t].start|
      ensures h2.reigns[t].start[i].term in m.terms
    {
      ReignGrounded(par, h, t);
    }
    forall c | c in m.commits
      ensures c.term in m.terms
    {
      assert CommitOk(par, h, c);
    }
    assert MarkOk(h2, m);
    assert (id, n.nextRead) !in h.marks;
    HistLater(par, h, h2);
  }

  function Asking(n: Node, id: Id, cmd: KvStore.Command): Node {
    n.(nextRead := n.nextRead + 1, pending := n.pending[n.nextRead := PendingRead(cmd, n.commit, {id})])
  }

  lemma MarkedNode(par: Params, h: Hist, id: Id, n: Node, cmd: KvStore.Command)
    requires HistOk(par, h) && NodeOk(par, h, id, n) && n.role == Leader
    requires HistOk(par, Marked(h, id, n, cmd)) && Later(h, Marked(h, id, n, cmd))
    ensures NodeOk(par, Marked(h, id, n, cmd), id, Asking(n, id, cmd))
  {
    hide HistOk, Records, Grounded, Decided, MarkOk, ProgressOk;
    var h2, r := Marked(h, id, n, cmd), Asking(n, id, cmd);
    LogLater(h, h2, n);
    AcksOwn(h, h2, id, n);
    AcksWider(h2, id, n, r);
    assert VotesOk(h2, id, r);
    LeaderSame(par, h, h2, id, n, r);
    StillLoyal(par, h2, id, r, h2.marks[(id, n.nextRead)]);
    ReadsOwn(par, h, h2, id, n, r, cmd);
  }

  lemma Mark(par: Params, h: Hist, id: Id, n: Node, cmd: KvStore.Command) returns (h2: Hist)
    requires HistOk(par, h) && NodeOk(par, h, id, n) && n.role == Leader && n.confirmed
    ensures Moved(par, h, h2, id, Asking(n, id, cmd))
    ensures h2 == Marked(h, id, n, cmd)
  {
    hide HistOk, NodeOk, Asking, Grows;
    h2 := Marked(h, id, n, cmd);
    MarkedRecords(par, h, id, n, cmd);
    MarkedNode(par, h, id, n, cmd);
  }

  lemma ReadsOwn(par: Params, h: Hist, h2: Hist, id: Id, n: Node, r: Node, cmd: KvStore.Command)
    requires HistOk(par, h) && ReadsOk(h, id, n) && Later(h, h2) && h2 == Marked(h, id, n, cmd) && n.role == Leader
    requires r.nextRead == n.nextRead + 1 && r.role == Leader && r.term == n.term && r.commit == n.commit
    requires r.pending.Keys == n.pending.Keys + {n.nextRead}
    requires forall k | k in n.pending :: r.pending[k] == n.pending[k]
    requires r.pending[n.nextRead] == PendingRead(cmd, n.commit, {id})
    requires Loyal(h2, h2.marks[(id, n.nextRead)], id)
    ensures ReadsOk(h2, id, r)
  {
    forall k, f | k in n.pending && f in n.pending[k].acks
      ensures Loyal(h2, h2.marks[(id, k)], f)
    {
      assert MarkOk(h, h.marks[(id, k)]);
      LoyalLater(h, h2, h.marks[(id, k)], f);
    }
  }
}
