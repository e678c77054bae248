// The heart of the safety argument, as facts about a history alone:
//   - two leaders of one term are the same server (Election Safety);
//   - a leader's log holds everything committed in earlier terms (Leader Completeness);
// with the voting set changing one server at a time, effective on append.
module Completeness {
  import opened Prelude
  import opened RaftTypes
  import opened RaftSpec
  import opened History

  // ---- configurations along two logs that fork --------------------------------

  lemma {:induction false} ConfigOfPrefix(initial: set<Id>, x: Log, k: nat)
    requires k <= |x| && forall j | k <= j < |x| :: !x[j].payload.Config?
    ensures ConfigOf(initial, x) == ConfigOf(initial, x[..k])
  {
    if k < |x| {
      ConfigOfPrefix(initial, x[..|x| - 1], k);
      assert x[..|x| - 1][..k] == x[..k];
    } else {
      assert x[..k] == x;
    }
  }

  // The commit was made before entry j of x was created.
  predicate Precedes(k: Commit, x: Log, j: nat)
    requires j < |x|
  {
    k.term < x[j].term || (k.term == x[j].term && k.log <= x[..j])
  }

  // No commit made before a configuration entry at or above d reaches past d.
  ghost predicate TailOk(h: Hist, x: Log, d: nat) {
    forall k, j {:trigger Precedes(k, x, j)} | k in h.commits && d <= j < |x| && x[j].payload.Config? && Precedes(k, x, j) ::
      !(x[..d + 1] <= Done(k))
  }

  lemma PrefixAt<T>(a: seq<T>, b: seq<T>, j: nat)
    requires a <= b
    ensures j < |a| ==> a[j] == b[j]
  {
  }

  lemma PrefixStep<T>(x: seq<T>, z: seq<T>, d: nat)
    requires d < |x|
    ensures x[..d + 1] <= z ==> d < |z| && z[d] == x[d]
  {
    if x[..d + 1] <= z {
      assert z[d] == x[..d + 1][d];
    }
  }

  // What the guards say of a configuration entry in any log.
  lemma EntryGuard(par: Params, h: Hist, x: Log, j: nat)
    requires Elections(par, h) && Grounded(h, x) && j < |x| && x[j].payload.Config?
    ensures GuardOk(par, h, x[j].term, x[..j], x[j].payload.voters)
  {
    var t := x[j].term;
    var r := h.reigns[t];
    ReignGrounded(par, h, t);
    assert x[..j + 1] <= r.log;
    assert x[..j + 1][j] == r.log[j] == x[j];
    assert ReignOk(par, h, t, h.reigns[t]);
    PrefixAt(r.start, r.log, j);
    assert x[..j] == r.log[..j];
  }

  // The commit in its own term that a leader needs before it may append a configuration.
  lemma OwnCommit(par: Params, h: Hist, x: Log, j: nat) returns (c: Commit)
    requires Records(par, h) && Grounded(h, x) && j < |x| && x[j].payload.Config?
    ensures c in h.commits && c.term == x[j].term && c.log <= x[..j]
    ensures 0 < c.index <= j && Done(c) == x[..c.index] && x[c.index - 1].term == c.term
  {
    EntryGuard(par, h, x, j);
    c :| c in h.commits && c.term == x[j].term && c.log <= x[..j];
    assert CommitOk(par, h, c);
    assert c.log[c.index - 1] == x[..j][c.index - 1] == x[c.index - 1];
    assert Done(c) == x[..j][..c.index] == x[..c.index];
  }

  // The leader that appended it had committed in its own term, at or below the fork.
  lemma TailTerm(par: Params, h: Hist, x: Log, d: nat, j: nat)
    requires Records(par, h) && Grounded(h, x) && TailOk(h, x, d)
    requires d <= j < |x| && x[j].payload.Config?
    ensures d >= 1 && x[d - 1].term == x[j].term == x[d].term
  {
    var c := OwnCommit(par, h, x, j);
    assert Precedes(c, x, j);
    Sorted(par, h, x, c.index - 1, d - 1);
    Sorted(par, h, x, d - 1, d);
    Sorted(par, h, x, d, j);
  }

  // One change in flight: there is no second configuration entry above the fork.
  lemma TailSingle(par: Params, h: Hist, x: Log, d: nat, j1: nat, j2: nat)
    requires Records(par, h) && Grounded(h, x) && TailOk(h, x, d)
    requires d <= j1 < j2 < |x| && x[j2].payload.Config?
    ensures !x[j1].payload.Config?
  {
    if x[j1].payload.Config? {
      var c := EarlierSettled(par, h, x, j1, j2);
    }
  }

  // A configuration entry was committed before the next one was appended.
  lemma EarlierSettled(par: Params, h: Hist, x: Log, j1: nat, j2: nat) returns (c: Commit)
    requires Records(par, h) && Grounded(h, x) && j1 < j2 < |x|
    requires x[j1].payload.Config? && x[j2].payload.Config?
    ensures c in h.commits && Precedes(c, x, j2) && x[..j1 + 1] <= Done(c)
  {
    EntryGuard(par, h, x, j2);
    var before := x[..j2];
    var q := ConfigIndex(before);
    assert before[j1] == x[j1];
    c :| c in h.commits && c.term <= x[j2].term && before[..q] <= Done(c) && (c.term == x[j2].term ==> c.log <= before);
    assert x[..j1 + 1] <= before[..q];
  }

  // So above the fork the configuration changes at most once, and only under a leader
  // whose entries reach below the fork.
  lemma TailNear(par: Params, h: Hist, x: Log, d: nat)
    requires Records(par, h) && Grounded(h, x) && TailOk(h, x, d) && d <= |x|
    ensures Near(ConfigOf(par.initial, x), ConfigOf(par.initial, x[..d]))
  {
    var j := LatestConfig(par.initial, x, d);
    if j.Some? {
      TailOne(par, h, x, d, j.value);
    }
  }

  lemma TailChange(par: Params, h: Hist, x: Log, d: nat)
    requires Records(par, h) && Grounded(h, x) && TailOk(h, x, d) && d <= |x|
    ensures ConfigOf(par.initial, x) == ConfigOf(par.initial, x[..d]) || (1 <= d < |x| && x[d - 1].term == x[d].term)
  {
    var j := LatestConfig(par.initial, x, d);
    if j.Some? {
      TailOne(par, h, x, d, j.value);
    }
  }

  // Where the configuration of x comes from, if not from below d.
  lemma LatestConfig(initial: set<Id>, x: Log, d: nat) returns (j: Option<nat>)
    requires d <= |x|
    ensures j == None ==> ConfigOf(initial, x) == ConfigOf(initial, x[..d])
    ensures j.Some? ==> d <= j.value < |x| && x[j.value].payload.Config?
    ensures j.Some? ==> ConfigOf(initial, x) == x[j.value].payload.voters
  {
    var q := ConfigIndex(x);
    ConfigOfPrefix(initial, x, Max(q, d));
    j := if q > d then Some(q - 1) else None;
  }

  lemma TailOne(par: Params, h: Hist, x: Log, d: nat, j: nat)
    requires Records(par, h) && Grounded(h, x) && TailOk(h, x, d)
    requires d <= j < |x| && x[j].payload.Config?
    ensures Near(x[j].payload.voters, ConfigOf(par.initial, x[..d]))
    ensures d >= 1 && x[d - 1].term == x[d].term
  {
    TailTerm(par, h, x, d, j);
    forall i | d <= i < j
      ensures !x[i].payload.Config?
    {
      TailSingle(par, h, x, d, i, j);
    }
    ConfigAtEntry(par.initial, x, d, j);
    assert OneApart(x[j].payload.voters, ConfigOf(par.initial, x[..j])) by { EntryGuard(par, h, x, j); }
  }

  // The configuration at an entry, and the one it replaced.
  lemma ConfigAtEntry(initial: set<Id>, x: Log, d: nat, j: nat)
    requires d <= j < |x| && x[j].payload.Config?
    requires forall i | d <= i < j :: !x[i].payload.Config?
    ensures ConfigOf(initial, x[..j + 1]) == x[j].payload.voters
    ensures ConfigOf(initial, x[..j]) == ConfigOf(initial, x[..d])
  {
    ConfigOfPrefix(initial, x[..j], d);
    assert x[..j][..d] == x[..d];
  }

  lemma MatchingEntry(h: Hist, x: Log, y: Log, i: nat)
    requires Grounded(h, x) && Grounded(h, y) && i < |x| && i < |y|
    ensures x[i].term == y[i].term ==> x[i] == y[i]
  {
    if x[i].term == y[i].term {
      Matching(h, x, y, i);
      assert x[..i + 1][i] == y[..i + 1][i];
    }
  }

  // Two forked logs name configurations that differ by at most one server.
  lemma ForkNear(par: Params, h: Hist, x: Log, y: Log)
    requires Records(par, h) && Grounded(h, x) && Grounded(h, y)
    requires TailOk(h, x, Split(x, y)) && TailOk(h, y, Split(x, y))
    ensures Near(ConfigOf(par.initial, x), ConfigOf(par.initial, y))
  {
    var d := Split(x, y);
    TailNear(par, h, x, d);
    TailNear(par, h, y, d);
    TailChange(par, h, x, d);
    TailChange(par, h, y, d);
    assert x[..d] == y[..d];
    if 1 <= d < |x| && d < |y| {
      assert x[d - 1] == x[..d][d - 1] == y[..d][d - 1] == y[d - 1];
      MatchingEntry(h, x, y, d);
    }
    NearSymmetric(ConfigOf(par.initial, x), ConfigOf(par.initial, y));
  }

  lemma NearSymmetric<T>(a: set<T>, b: set<T>)
    requires Near(a, b)
    ensures Near(b, a)
  {
    assert (a - b) + (b - a) == (b - a) + (a - b);
  }

  // ---- Leader Completeness ----------------------------------------------------

  // A vote carries the committed prefix over: an up-to-date candidate that got the vote of
  // a server holding p has p too.
  lemma UpToDateHas(par: Params, h: Hist, t: nat, log: Log, seen: Log, p: Log, since: nat)
    requires Records(par, h) && CandOk(h, t, log) && Grounded(h, seen)
    requires UpToDate(TermAt(log, |log|), |log|, seen)
    requires p != [] && p <= seen && p[|p| - 1].term == since
    requires since in h.reigns && p <= h.reigns[since].log
    requires forall u | u in h.reigns && since < u < t :: p <= h.reigns[u].start
    ensures p <= log
  {
    assert seen[|p| - 1].term == since;
    Sorted(par, h, seen, |p| - 1, |seen| - 1);
    LastTermPrefix(h, seen);
    var w := seen[|seen| - 1].term;
    ReignGrounded(par, h, w);
    assert log != [];
    LastTermPrefix(h, log);
    var u := log[|log| - 1].term;
    if u == w {
      Comparable(seen, log, h.reigns[w].log);
    } else {
      var r := h.reigns[u];
      assert ReignOk(par, h, u, h.reigns[u]);
      ReignGrounded(par, h, u);
      PrefixAt(r.start, r.log, |log| - 1);
      Comparable(r.start, log, r.log);
    }
  }

  // A prefix of y cannot follow x past the fork.
  lemma NoSharedStep(x: Log, y: Log, z: Log)
    requires Split(x, y) < |x| && z <= y
    ensures !(x[..Split(x, y) + 1] <= z)
  {
    var d := Split(x, y);
    PrefixStep(x, z, d);
  }

  lemma AgreeBelowSplit(x: Log, y: Log, k: nat)
    requires k <= |x|
    ensures k <= Split(x, y) ==> x[..k] <= y
  {
    if k <= Split(x, y) {
      assert x[..k] == x[..Split(x, y)][..k] == y[..Split(x, y)][..k];
    }
  }

  lemma CommitFacts(par: Params, h: Hist, c: Commit)
    requires Records(par, h) && c in h.commits
    ensures CommitOk(par, h, c)
    ensures Grounded(h, c.log) && Done(c) != [] && Done(c)[|Done(c)| - 1].term == c.term
    ensures Done(c) <= c.log && Grounded(h, Done(c)) && |Done(c)| == c.index
    ensures c.term in h.reigns && Done(c) <= h.reigns[c.term].log
    ensures |h.reigns[c.term].start| < c.index && h.reigns[c.term].start <= Done(c)
  {
    assert CommitOk(par, h, c);
    var r := h.reigns[c.term];
    ReignGrounded(par, h, c.term);
    forall i | 0 <= i < |c.log|
      ensures c.log[i].term in h.reigns && c.log[..i + 1] <= h.reigns[c.log[i].term].log
    {
      assert c.log[i] == r.log[i];
      assert c.log[..i + 1] == r.log[..i + 1];
    }
    GroundedPrefix(h, c.log, c.index);
    PrefixAt(r.start, c.log, c.index - 1);
  }

  // What a commit of an earlier term implies for a log y that extends the start of its
  // leader's term, given Leader Completeness below t.
  ghost predicate CompleteBelow(h: Hist, t: nat) {
    forall c, u {:trigger Carried(c, h.reigns[u])} | c in h.commits && u in h.reigns && c.term < u < t ::
      Carried(c, h.reigns[u])
  }

  // Someone else already won t, and holds everything committed before.
  ghost predicate Rivals(h: Hist, t: nat, quorum: set<Id>) {
    t in h.reigns && h.reigns[t].quorum != quorum ==>
      forall k {:trigger Carried(k, h.reigns[t])} | k in h.commits && k.term < t :: Carried(k, h.reigns[t])
  }

  // A candidate that won term t holds everything committed in earlier terms.
  lemma {:induction false} WinnerComplete(par: Params, h: Hist, t: nat, leader: Id, log: Log, quorum: set<Id>, c: Commit)
    requires Records(par, h) && AllKept(h) && CompleteBelow(h, t) && Rivals(h, t, quorum)
    requires Won(par, h, t, leader, log, quorum)
    requires c in h.commits && c.term < t
    ensures Done(c) <= log
    decreases c.term, |c.log|, 1
  {
    if !(Done(c) <= log) {
      CommitTail(par, h, t, leader, log, quorum, c);
      WinnerTail(par, h, t, leader, log, quorum, c);
      assert Grounded(h, log) by { assert CandOk(h, t, h.cands[(leader, t)]); }
      CommitFacts(par, h, c);
      ForkNear(par, h, c.log, log);
      QuorumCarries(par, h, t, leader, log, quorum, c);
    }
  }

  // When the two configurations overlap, a shared voter carries the commit over.
  lemma QuorumCarries(par: Params, h: Hist, t: nat, leader: Id, log: Log, quorum: set<Id>, c: Commit)
    requires Records(par, h) && AllKept(h) && CompleteBelow(h, t) && Rivals(h, t, quorum)
    requires Won(par, h, t, leader, log, quorum)
    requires c in h.commits && c.term < t
    requires Near(ConfigOf(par.initial, c.log), ConfigOf(par.initial, log))
    ensures Done(c) <= log
  {
    var p := Done(c);
    CommitFacts(par, h, c);
    var v := MajoritiesMeet(Backers(par, h, c), ConfigOf(par.initial, c.log), quorum, ConfigOf(par.initial, log));
    assert (v, t) in h.votes;
    var vote := h.votes[(v, t)];
    assert VoteOk(h, (v, t).1, h.votes[(v, t)]);
    assert CandOk(h, (leader, t).1, h.cands[(leader, t)]);
    forall u | u in h.reigns && c.term < u < t
      ensures p <= h.reigns[u].start
    {
      assert Carried(c, h.reigns[u]);
    }
    VoterHas(h, t, v, quorum, c);
    UpToDateHas(par, h, t, log, vote.log, p, c.term);
  }

  lemma VoterHas(h: Hist, t: nat, v: Id, quorum: set<Id>, c: Commit)
    requires AllKept(h) && Rivals(h, t, quorum) && v in quorum && (v, t) in h.votes
    requires c in h.commits && c.term < t && Acked(h, v, c.term, Done(c))
    requires forall u | u in h.reigns && c.term < u < t :: Done(c) <= h.reigns[u].start
    ensures Done(c) <= h.votes[(v, t)].log
  {
    var p := Done(c);
    var a :| a in h.acks && a.voter == v && a.term == c.term && p <= a.log;
    assert KeptByVote(h, (v, t).1, (v, t).0, h.votes[(v, t)], a);
    assert a.log[..|p|] == p;
    assert !Missing(h, a.term, t - 1, p);
    if t in h.reigns && v !in h.reigns[t].quorum {
      assert Carried(c, h.reigns[t]);
    }
  }

  // Along the committing leader's log: anything committed before one of its configuration
  // entries is in the winner's log, so cannot reach past the fork.
  lemma {:induction false} CommitTail(par: Params, h: Hist, t: nat, leader: Id, log: Log, quorum: set<Id>, c: Commit)
    requires Records(par, h) && AllKept(h) && CompleteBelow(h, t) && Rivals(h, t, quorum)
    requires Won(par, h, t, leader, log, quorum)
    requires c in h.commits && c.term < t
    ensures TailOk(h, c.log, Split(c.log, log))
    decreases c.term, |c.log|, 0
  {
    var x, d := c.log, Split(c.log, log);
    forall k, j | k in h.commits && d <= j < |x| && x[j].payload.Config? && Precedes(k, x, j)
      ensures !(x[..d + 1] <= Done(k))
    {
      LogTermBound(par, h, c, j);
      WinnerComplete(par, h, t, leader, log, quorum, k);
      NoSharedStep(x, log, Done(k));
    }
  }

  lemma LogTermBound(par: Params, h: Hist, c: Commit, j: nat)
    requires Records(par, h) && c in h.commits && j < |c.log|
    ensures c.log[j].term <= c.term
  {
    CommitFacts(par, h, c);
    ReignGrounded(par, h, c.term);
    assert c.log[j] == h.reigns[c.term].log[j];
  }

  // Along the winner's log: whatever was committed before one of its configuration entries
  // is on one branch with c, so cannot reach past the fork either.
  lemma WinnerTail(par: Params, h: Hist, t: nat, leader: Id, log: Log, quorum: set<Id>, c: Commit)
    requires Records(par, h) && CompleteBelow(h, t)
    requires Won(par, h, t, leader, log, quorum)
    requires c in h.commits && c.term < t && !(Done(c) <= log)
    ensures TailOk(h, log, Split(c.log, log))
  {
    var d := Split(c.log, log);
    CommitFacts(par, h, c);
    assert CandOk(h, (leader, t).1, h.cands[(leader, t)]);
    AgreeBelowSplit(c.log, log, c.index);
    forall k, j | k in h.commits && d <= j < |log| && log[j].payload.Config? && Precedes(k, log, j)
      ensures !(log[..d + 1] <= Done(k))
    {
      CommitsAgree(par, h, t, c, k);
      PrefixStep(log, Done(k), d);
    }
  }

  // Two commits of terms below t are on one branch.
  lemma CommitsAgree(par: Params, h: Hist, t: nat, c: Commit, k: Commit)
    requires Records(par, h) && CompleteBelow(h, t)
    requires c in h.commits && k in h.commits && c.term < t && k.term < t
    ensures Done(c) <= Done(k) || Done(k) <= Done(c)
  {
    CommitFacts(par, h, c);
    CommitFacts(par, h, k);
    if c.term == k.term {
      Comparable(Done(c), Done(k), h.reigns[c.term].log);
    } else if c.term < k.term {
      assert Carried(c, h.reigns[k.term]);
    } else {
      assert Carried(k, h.reigns[c.term]);
    }
  }

  // ---- Election Safety --------------------------------------------------------

  lemma SharedTail(h: Hist, t: nat, x: Log, y: Log)
    requires Below(x, t)
    requires forall k | k in h.commits && k.term < t :: Done(k) <= y
    ensures TailOk(h, x, Split(x, y))
  {
    var d := Split(x, y);
    forall k, j | k in h.commits && d <= j < |x| && x[j].payload.Config? && Precedes(k, x, j)
      ensures !(x[..d + 1] <= Done(k))
    {
      NoSharedStep(x, y, Done(k));
    }
  }

  // Two winners of one term share a voter, so they are one server.
  lemma WinnersMeet(par: Params, h: Hist, t: nat, l1: Id, log1: Log, q1: set<Id>, l2: Id, log2: Log, q2: set<Id>)
    requires Records(par, h)
    requires Won(par, h, t, l1, log1, q1) && Won(par, h, t, l2, log2, q2)
    requires forall k | k in h.commits && k.term < t :: Done(k) <= log1 && Done(k) <= log2
    ensures l1 == l2
  {
    assert CandOk(h, (l1, t).1, h.cands[(l1, t)]) && CandOk(h, (l2, t).1, h.cands[(l2, t)]);
    SplitSymmetric(log1, log2);
    SharedTail(h, t, log1, log2);
    SharedTail(h, t, log2, log1);
    ForkNear(par, h, log1, log2);
    var v := MajoritiesMeet(q1, ConfigOf(par.initial, log1), q2, ConfigOf(par.initial, log2));
  }

  lemma SplitSymmetric<T>(a: seq<T>, b: seq<T>)
    ensures Split(a, b) == Split(b, a)
  {
  }
}
