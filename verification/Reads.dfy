// ReadIndex: a read is served only if its reader was still the newest leader, among those
// elected by then, when the read was requested.
module Reads {
  import opened Prelude
  import opened RaftTypes
  import opened RaftSpec
  import opened History
  import opened Completeness
  import opened Invariant
  import opened Moves
  import opened Handlers
  import KvStore

  // The condition under which a pending read is served.
  predicate Serves(par: Params, n: Node, rid: nat) {
    rid in n.pending && Majority(n.pending[rid].acks, Voters(par, n)) && n.commit >= n.pending[rid].index
  }

  // Any earlier-elected leader of a later term would share a voter with the acknowledgers.
  // By induction on that term: below u no such leader exists.
  lemma {:induction false} NoNewerLeader(par: Params, h: Hist, id: Id, n: Node, rid: nat, u: nat)
    requires HistOk(par, h) && NodeOk(par, h, id, n) && Serves(par, n, rid)
    requires u in h.marks[(id, rid)].terms
    ensures u <= n.term
    decreases u
  {
    var m := h.marks[(id, rid)];
    assert MarkOk(h, h.marks[(id, rid)]);
    var y := h.reigns[u].start;
    forall i | 0 <= i < |y|
      ensures y[i].term <= n.term
    {
      ReignGrounded(par, h, u);
      NoNewerLeader(par, h, id, n, rid, y[i].term);
    }
    Parts(par, h, id, n);
    NewerDisjoint(par, h, id, n, m, n.pending[rid].acks, u);
  }

  // The acknowledgers of a read and the voters of a newer leader cannot both be majorities.
  lemma NewerDisjoint(par: Params, h: Hist, id: Id, n: Node, m: ReadMark, acks: set<Id>, u: nat)
    requires HistOk(par, h) && LogOk(h, n) && LeaderOk(par, h, id, n) && n.role == Leader
    requires u in m.terms && u in h.reigns && n.term == m.term
    requires forall i | 0 <= i < |h.reigns[u].start| :: h.reigns[u].start[i].term <= n.term
    requires Majority(acks, Voters(par, n)) && forall f | f in acks :: Loyal(h, m, f)
    ensures u <= n.term
  {
    if u > n.term {
      var r := h.reigns[u];
      ReignGrounded(par, h, u);
      assert ReignOk(par, h, u, h.reigns[u]);
      LeaderTail(par, h, id, n, u);
      NewerTail(par, h, id, n, u);
      ForkNear(par, h, n.log, r.start);
      var v := MajoritiesMeet(acks, Voters(par, n), r.quorum, ConfigOf(par.initial, r.start));
    }
  }

  lemma LeaderTail(par: Params, h: Hist, id: Id, n: Node, u: nat)
    requires HistOk(par, h) && LogOk(h, n) && u in h.reigns && u > n.term
    ensures TailOk(h, n.log, Split(n.log, h.reigns[u].start))
  {
    var x, y := n.log, h.reigns[u].start;
    var d := Split(x, y);
    forall k, j | k in h.commits && d <= j < |x| && x[j].payload.Config? && Precedes(k, x, j)
      ensures !(x[..d + 1] <= Done(k))
    {
      assert Carried(k, h.reigns[u]);
      NoSharedStep(x, y, Done(k));
    }
  }

  lemma NewerTail(par: Params, h: Hist, id: Id, n: Node, u: nat)
    requires HistOk(par, h) && LeaderOk(par, h, id, n) && n.role == Leader && u in h.reigns && u > n.term
    requires forall i | 0 <= i < |h.reigns[u].start| :: h.reigns[u].start[i].term <= n.term
    ensures TailOk(h, h.reigns[u].start, Split(n.log, h.reigns[u].start))
  {
    var x, y := n.log, h.reigns[u].start;
    SplitSymmetric(x, y);
    var d := Split(y, x);
    forall k, j | k in h.commits && d <= j < |y| && y[j].payload.Config? && Precedes(k, y, j)
      ensures !(y[..d + 1] <= Done(k))
    {
      CommitFacts(par, h, k);
      assert ReignOk(par, h, n.term, h.reigns[n.term]);
      if k.term < n.term {
        assert Carried(k, h.reigns[n.term]);
      }
      NoSharedStep(y, x, Done(k));
    }
  }

  // So no commit made before the request reaches past the recorded index.
  lemma ReadIndexCovers(par: Params, h: Hist, id: Id, n: Node, rid: nat, c: Commit)
    requires HistOk(par, h) && NodeOk(par, h, id, n) && Serves(par, n, rid)
    requires c in h.marks[(id, rid)].commits
    ensures c.index <= n.pending[rid].index
  {
    var m := h.marks[(id, rid)];
    assert MarkOk(h, h.marks[(id, rid)]);
    NoNewerLeader(par, h, id, n, rid, c.term);
    if c.term < n.term {
      var own :| own in m.commits && own.term == m.term;
      CommitFacts(par, h, own);
      CommitFacts(par, h, c);
      assert Carried(c, h.reigns[n.term]);
    }
  }
}
