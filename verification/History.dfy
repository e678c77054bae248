// History variables of a run and what must hold of them. None of this exists in the
// running system: it records what was voted, won, acknowledged and committed, so that the
// safety argument can speak about it after messages are lost and servers move on.
module History {
  import opened Prelude
  import opened RaftTypes
  import opened RaftSpec
  import KvStore

  // A vote, with the voter's log when it was cast.
  datatype Vote = Vote(candidate: Id, log: Log)

  // The leadership of one term: the log it was won with, the log as it has grown since, and
  // the voters whose votes were counted.
  datatype Reign = Reign(leader: Id, start: Log, log: Log, quorum: set<Id>)

  // A server stored this log while in this term and said so.
  datatype Ack = Ack(voter: Id, term: nat, log: Log)

  // A leader of this term, holding this log, committed everything up to index.
  datatype Commit = Commit(term: nat, log: Log, index: nat)

  // What had happened when a read was requested.
  datatype ReadMark = ReadMark(command: KvStore.Command, term: nat, index: nat, commits: set<Commit>, terms: set<nat>)

  datatype Hist = Hist(
    cands: map<(Id, nat), Log>,
    votes: map<(Id, nat), Vote>,
    reigns: map<nat, Reign>,
    acks: set<Ack>,
    commits: set<Commit>,
    marks: map<(Id, nat), ReadMark>)

  const NOTHING := Hist(map[], map[], map[], {}, {}, map[])

  // The committed prefix.
  function Done(c: Commit): Log {
    Take(c.log, c.index)
  }

  // Every entry of x was created by the leader of its term, on top of the same prefix.
  ghost predicate Grounded(h: Hist, x: Log) {
    forall i | 0 <= i < |x| :: x[i].term in h.reigns && x[..i + 1] <= h.reigns[x[i].term].log
  }

  predicate Below(x: Log, t: nat) {
    forall i | 0 <= i < |x| :: x[i].term < t
  }

  ghost predicate Acked(h: Hist, v: Id, t: nat, p: Log) {
    exists a | a in h.acks :: a.voter == v && a.term == t && p <= a.log
  }

  // Some leader elected after lo, up to hi, was elected without p.
  ghost predicate Missing(h: Hist, lo: nat, hi: nat, p: Log) {
    exists u | u in h.reigns :: lo < u <= hi && !(p <= h.reigns[u].start)
  }

  // p is covered by a commit of term t or earlier.
  ghost predicate Decided(h: Hist, t: nat, p: Log) {
    p == [] || exists c | c in h.commits :: c.term <= t && p <= Done(c)
  }

  // ---- what is true of each record --------------------------------------------

  ghost predicate CandOk(h: Hist, t: nat, log: Log) {
    t > 0 && Grounded(h, log) && Below(log, t)
  }

  ghost predicate VoteOk(h: Hist, t: nat, v: Vote) {
    && (v.candidate, t) in h.cands
    && var c := h.cands[(v.candidate, t)];
    && UpToDate(TermAt(c, |c|), |c|, v.log)
    && Grounded(h, v.log)
  }

  // Votes by a majority of the configuration in the log the candidate stood with.
  ghost predicate Won(par: Params, h: Hist, t: nat, leader: Id, log: Log, quorum: set<Id>) {
    && (leader, t) in h.cands && h.cands[(leader, t)] == log
    && Majority(quorum, ConfigOf(par.initial, log))
    && forall v | v in quorum :: (v, t) in h.votes && h.votes[(v, t)].candidate == leader
  }

  ghost predicate ReignOk(par: Params, h: Hist, t: nat, r: Reign) {
    && Won(par, h, t, r.leader, r.start, r.quorum)
    && Grown(t, r)
    && Guarded(par, h, t, r)
  }

  // The leader only ever appended entries of its own term.
  predicate Grown(t: nat, r: Reign) {
    && r.start <= r.log
    && forall j | |r.start| <= j < |r.log| :: r.log[j].term == t
  }

  ghost predicate Guarded(par: Params, h: Hist, t: nat, r: Reign) {
    r.start <= r.log &&
    (forall j | |r.start| <= j < |r.log| && r.log[j].payload.Config? ::
          GuardOk(par, h, t, r.log[..j], r.log[j].payload.voters))
  }

  // The two guards of a membership change, as facts about the commits made before it.
  ghost predicate GuardOk(par: Params, h: Hist, t: nat, before: Log, voters: set<Id>) {
    && OneApart(voters, ConfigOf(par.initial, before))
    && voters <= par.servers
    && (exists c | c in h.commits :: c.term == t && c.log <= before)
    && (ConfigIndex(before) > 0 ==> Settled(h, t, before))
  }

  ghost predicate Settled(h: Hist, t: nat, before: Log) {
    exists c | c in h.commits ::
      c.term <= t && before[..ConfigIndex(before)] <= Done(c) && (c.term == t ==> c.log <= before)
  }

  ghost predicate AckOk(h: Hist, a: Ack) {
    a.term in h.reigns && a.log <= h.reigns[a.term].log
  }

  ghost function Backers(par: Params, h: Hist, c: Commit): set<Id> {
    set v | v in ConfigOf(par.initial, c.log) && Acked(h, v, c.term, Done(c))
  }

  ghost predicate CommitOk(par: Params, h: Hist, c: Commit) {
    && c.term in h.reigns
    && 0 < c.index <= |c.log|
    && h.reigns[c.term].start <= c.log <= h.reigns[c.term].log
    && c.log[c.index - 1].term == c.term
    && Majority(Backers(par, h, c), ConfigOf(par.initial, c.log))
  }

  // Whoever acknowledged a log and later voted still had every prefix of it when voting,
  // unless a leader elected in between lacked that prefix.
  ghost predicate KeptByVote(h: Hist, t: nat, voter: Id, vote: Vote, a: Ack) {
    a.voter == voter && a.term < t ==>
      forall k | 0 <= k <= |a.log| ::
        || a.log[..k] <= vote.log
        || Missing(h, a.term, t - 1, a.log[..k])
        || (t in h.reigns && voter !in h.reigns[t].quorum && !(a.log[..k] <= h.reigns[t].start))
  }

  ghost predicate Elections(par: Params, h: Hist) {
    && (forall k {:trigger CandOk(h, k.1, h.cands[k])} | k in h.cands :: CandOk(h, k.1, h.cands[k]))
    && (forall t {:trigger ReignOk(par, h, t, h.reigns[t])} | t in h.reigns :: ReignOk(par, h, t, h.reigns[t]))
  }

  ghost predicate Records(par: Params, h: Hist) {
    && par.initial <= par.servers
    && Elections(par, h)
    && (forall k {:trigger VoteOk(h, k.1, h.votes[k])} | k in h.votes :: VoteOk(h, k.1, h.votes[k]))
    && (forall a {:trigger AckOk(h, a)} | a in h.acks :: AckOk(h, a))
    && (forall c {:trigger CommitOk(par, h, c)} | c in h.commits :: CommitOk(par, h, c))
  }

  ghost predicate AllKept(h: Hist) {
    forall k, a {:trigger KeptByVote(h, k.1, k.0, h.votes[k], a)} | k in h.votes && a in h.acks ::
      KeptByVote(h, k.1, k.0, h.votes[k], a)
  }

  // The leader was elected with everything this commit covers.
  predicate Carried(c: Commit, r: Reign) {
    Done(c) <= r.start
  }

  // Leader Completeness, over the history.
  ghost predicate Complete(h: Hist) {
    forall c, t {:trigger Carried(c, h.reigns[t])} | c in h.commits && t in h.reigns && c.term < t ::
      Carried(c, h.reigns[t])
  }

  // A read was requested by a leader that had committed in its own term, and whose commit
  // index covered all commits of that term.
  ghost predicate MarkOk(h: Hist, m: ReadMark) {
    && m.term in m.terms
    && (forall t | t in m.terms :: t in h.reigns)
    && (forall t, i | t in m.terms && t in h.reigns && 0 <= i < |h.reigns[t].start| :: h.reigns[t].start[i].term in m.terms)
    && m.commits <= h.commits
    && (forall c | c in m.commits :: c.term in m.terms && (c.term == m.term ==> c.index <= m.index))
    && (exists c | c in m.commits :: c.term == m.term)
  }

  ghost predicate HistOk(par: Params, h: Hist) {
    && Records(par, h) && AllKept(h) && Complete(h)
    && (forall k {:trigger MarkOk(h, h.marks[k])} | k in h.marks :: MarkOk(h, h.marks[k]))
  }

  // ---- Log Matching -----------------------------------------------------------

  lemma Matching(h: Hist, x: Log, y: Log, i: nat)
    requires Grounded(h, x) && Grounded(h, y)
    requires i < |x| && i < |y| && x[i].term == y[i].term
    ensures x[..i + 1] == y[..i + 1]
  {
    var l := h.reigns[x[i].term].log;
    assert x[..i + 1] == l[..i + 1] == y[..i + 1];
  }

  lemma ReignGrounded(par: Params, h: Hist, t: nat)
    requires Elections(par, h) && t in h.reigns
    ensures Grounded(h, h.reigns[t].log)
    ensures forall i | 0 <= i < |h.reigns[t].log| :: h.reigns[t].log[i].term <= t
    ensures Below(h.reigns[t].start, t) && Grounded(h, h.reigns[t].start) && t > 0
  {
    var r := h.reigns[t];
    assert Grown(t, r) && Won(par, h, t, r.leader, r.start, r.quorum) by { assert ReignOk(par, h, t, r); }
    assert CandOk(h, t, r.start);
    forall i | 0 <= i < |r.log|
      ensures r.log[i].term in h.reigns && r.log[..i + 1] <= h.reigns[r.log[i].term].log && r.log[i].term <= t
    {
      if i < |r.start| {
        assert r.log[i] == r.start[i];
        assert r.log[..i + 1] == r.start[..i + 1];
      }
    }
  }

  // Terms never decrease along a grounded log.
  lemma Sorted(par: Params, h: Hist, x: Log, i: nat, j: nat)
    requires Elections(par, h) && Grounded(h, x) && i <= j < |x|
    ensures x[i].term <= x[j].term
  {
    var t := x[j].term;
    ReignGrounded(par, h, t);
    assert x[..j + 1] <= h.reigns[t].log;
    assert x[i] == x[..j + 1][i] == h.reigns[t].log[i];
  }

  lemma GroundedPrefix(h: Hist, x: Log, k: nat)
    requires Grounded(h, x) && k <= |x|
    ensures Grounded(h, x[..k])
  {
    forall i | 0 <= i < k
      ensures x[..k][i].term in h.reigns && x[..k][..i + 1] <= h.reigns[x[..k][i].term].log
    {
      assert x[..k][..i + 1] == x[..i + 1];
    }
  }

  // A grounded log whose last entry is of term t is a prefix of that leader's log.
  lemma LastTermPrefix(h: Hist, x: Log)
    requires Grounded(h, x) && x != []
    ensures x[|x| - 1].term in h.reigns && x <= h.reigns[x[|x| - 1].term].log
  {
    assert x[..|x| - 1 + 1] == x;
  }

  // Two prefixes of one log agree as far as both go.
  lemma Comparable<T>(a: seq<T>, b: seq<T>, x: seq<T>)
    requires a <= x && b <= x
    ensures a <= b || b <= a
    ensures |a| <= |b| ==> a <= b
  {
  }

  // ---- growth -----------------------------------------------------------------

  // h2 extends h1, and every record about a server other than `who` is already in h1.
  ghost predicate Grows(h1: Hist, h2: Hist, who: Id) {
    && (forall k | k in h1.cands :: k in h2.cands && h2.cands[k] == h1.cands[k])
    && (forall k | k in h2.cands :: k in h1.cands || k.0 == who)
    && (forall k | k in h1.votes :: k in h2.votes && h2.votes[k] == h1.votes[k])
    && (forall k | k in h2.votes :: k in h1.votes || k.0 == who)
    && (forall t | t in h1.reigns :: t in h2.reigns && Continues(h1.reigns[t], h2.reigns[t]))
    && (forall t | t in h2.reigns :: (t in h1.reigns && h1.reigns[t] == h2.reigns[t]) || h2.reigns[t].leader == who)
    && h1.acks <= h2.acks
    && (forall a | a in h2.acks :: a in h1.acks || a.voter == who)
    && h1.commits <= h2.commits
    && (forall c | c in h2.commits :: c in h1.commits || (c.term in h2.reigns && h2.reigns[c.term].leader == who))
    && (forall k | k in h1.marks :: k in h2.marks && h2.marks[k] == h1.marks[k])
    && (forall k | k in h2.marks :: k in h1.marks || k.0 == who)
  }

  predicate Continues(r1: Reign, r2: Reign) {
    r1.leader == r2.leader && r1.start == r2.start && r1.quorum == r2.quorum && r1.log <= r2.log
  }

  // The part of growth that facts about records depend on.
  ghost predicate Later(h1: Hist, h2: Hist) {
    && (forall k | k in h1.cands :: k in h2.cands && h2.cands[k] == h1.cands[k])
    && (forall k | k in h1.votes :: k in h2.votes && h2.votes[k] == h1.votes[k])
    && (forall t | t in h1.reigns :: t in h2.reigns && Continues(h1.reigns[t], h2.reigns[t]))
    && h1.acks <= h2.acks
    && h1.commits <= h2.commits
    && (forall k | k in h1.marks :: k in h2.marks && h2.marks[k] == h1.marks[k])
  }

  lemma GroundedLater(h1: Hist, h2: Hist, x: Log)
    requires Later(h1, h2) && Grounded(h1, x)
    ensures Grounded(h2, x)
  {
    forall i | 0 <= i < |x|
      ensures x[i].term in h2.reigns && x[..i + 1] <= h2.reigns[x[i].term].log
    {
      assert Continues(h1.reigns[x[i].term], h2.reigns[x[i].term]);
    }
  }

  lemma AckedLater(h1: Hist, h2: Hist, v: Id, t: nat, p: Log)
    requires Later(h1, h2) && Acked(h1, v, t, p)
    ensures Acked(h2, v, t, p)
  {
    var a :| a in h1.acks && a.voter == v && a.term == t && p <= a.log;
    assert a in h2.acks;
  }

  lemma MissingLater(h1: Hist, h2: Hist, lo: nat, hi: nat, p: Log)
    requires Later(h1, h2) && Missing(h1, lo, hi, p)
    ensures Missing(h2, lo, hi, p)
  {
    var u :| u in h1.reigns && lo < u <= hi && !(p <= h1.reigns[u].start);
    assert u in h2.reigns && h2.reigns[u].start == h1.reigns[u].start;
  }

  lemma DecidedLater(h1: Hist, h2: Hist, t1: nat, t2: nat, p: Log)
    requires Later(h1, h2) && Decided(h1, t1, p) && t1 <= t2
    ensures Decided(h2, t2, p)
  {
  }

  lemma DecidedPrefix(h: Hist, t: nat, p: Log, k: nat)
    requires Decided(h, t, p) && k <= |p|
    ensures Decided(h, t, p[..k])
  {
    if p != [] {
      var c :| c in h.commits && c.term <= t && p <= Done(c);
      assert p[..k] <= Done(c);
    }
  }
}
