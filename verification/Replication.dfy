// The follower's side of replication, exactly: when entries are taken and what the log and
// the commit index are then, and what an installed snapshot leaves.
module Replication {
  import opened Prelude
  import opened RaftTypes
  import opened RaftSpec
  import opened History
  import opened Completeness
  import opened Invariant
  import opened Moves
  import opened Handlers
  import opened Safety
  import opened Duties

  // The consistency check compares one term, at an index that depends on the receiver's
  // snapshot. It passes exactly if the receiver holds all the leader has before the entries.
  lemma ConsistentExactly(par: Params, h: Hist, id: Id, f: Node, m: Message<Log>)
    requires HistOk(par, h) && NodeOk(par, h, id, f) && MsgOk(h, Packet(id, m)) && m.AppendEntries? && f.term == m.term
    ensures Consistent(f, m) <==> h.reigns[m.term].log[..m.prevIndex] <= f.log
  {
    hide HistOk, NodeOk, AllKept, Complete, MarkOk, VotesOk, AcksOk, CandidateOk, LeaderOk, ReadsOk, ReignOk, CandOk, Decided, Grounded, PrevTerm;
    var l := h.reigns[m.term].log;
    HistRecords(par, h);
    Parts(par, h, id, f);
    CommittedHeld(par, h, f, m.term);
    Aligned(f, l, m);
    if m.prevIndex <= f.base {
      assert f.log[..f.commit][..m.prevIndex] == l[..m.prevIndex];
      assert f.log[..f.commit][..f.base] == l[..f.base];
    } else {
      if Consistent(f, m) {
        Agreement(par, h, id, f, m);
        assert f.log[..m.prevIndex] == l[..m.prevIndex];
      } else {
        assert TermAt(l[..m.prevIndex], m.prevIndex) == TermAt(l, m.prevIndex);
      }
    }
  }

  // What a live follower makes of entries from a leader whose log was l at the end of them.
  ghost predicate TakesEntries(par: Params, id: Id, n: Node, m: Message<Log>, l: Log, o: Out)
    requires m.AppendEntries? && m.prevIndex + |m.entries| <= |l|
  {
    && o.node.role == Follower && o.node.term == m.term && o.node.alive
    && o.node.votedFor == (if m.term > n.term then None else n.votedFor)
    && var upto := l[..m.prevIndex + |m.entries|];
    if l[..m.prevIndex] <= n.log then
      && o.sends == {Packet(m.leader, AppendReply(m.term, id, true, |upto|))}
      && o.node.log == (if upto <= n.log then n.log else upto)
      && o.node.commit == Max(n.commit, Min(m.leaderCommit, |upto|))
      && o.applied == ApplyRange(o.node.log, n.commit, o.node.commit)
      && n.base <= o.node.base <= o.node.commit
    else
      && o.sends == {Packet(m.leader, AppendReply(m.term, id, false, 0))}
      && o.node.log == n.log && o.node.commit == n.commit && o.applied == [] && o.node.base == n.base
  }

  lemma EntriesExactly(par: Params, h: Hist, id: Id, n: Node, m: Message<Log>)
    requires HistOk(par, h) && NodeOk(par, h, id, n) && MsgOk(h, Packet(id, m)) && m.AppendEntries? && m.term >= n.term && n.alive
    ensures TakesEntries(par, id, n, m, h.reigns[m.term].log, React(par, id, n, Receive(m)))
  {
    hide HistOk, NodeOk, MsgOk, Accept, Consistent, ApplyRange;
    var f := Heard(n, m.term);
    HeardKeeps(par, h, id, n, m.term);
    MsgParts(h, id, m);
    ConsistentExactly(par, h, id, f, m);
    if Consistent(f, m) {
      AcceptedExactly(par, h, id, f, m);
    }
  }

  lemma MsgParts(h: Hist, id: Id, m: Message<Log>)
    requires MsgOk(h, Packet(id, m)) && m.AppendEntries?
    ensures m.term in h.reigns && m.prevIndex + |m.entries| <= |h.reigns[m.term].log|
    ensures m.entries == h.reigns[m.term].log[m.prevIndex..m.prevIndex + |m.entries|]
  {
  }

  lemma AcceptedExactly(par: Params, h: Hist, id: Id, f: Node, m: Message<Log>)
    requires HistOk(par, h) && NodeOk(par, h, id, f) && MsgOk(h, Packet(id, m)) && m.AppendEntries?
    requires f.term == m.term && Consistent(f, m) && f.alive
    ensures var o, b := Accept(par, id, f, m), Brought(h, m);
            && o.sends == {Packet(m.leader, AppendReply(m.term, id, true, |b|))}
            && o.node.log == Stored(f.log, b)
            && o.node.commit == Max(f.commit, Min(m.leaderCommit, |b|)) && f.base <= o.node.base <= o.node.commit
            && o.applied == ApplyRange(o.node.log, f.commit, o.node.commit)
            && o.node.role == f.role && o.node.term == f.term && o.node.alive && o.node.votedFor == f.votedFor
  {
    hide HistOk, NodeOk, MsgOk, Accept, Consistent, ApplyRange, Merge, PrevIndex, Covered, Stored, SetCommit, VotesOk, AcksOk, ReadsOk, LeaderOk, CandidateOk;
    MsgParts(h, id, m);
    var b := Brought(h, m);
    Parts(par, h, id, f);
    AppendEntriesStores(par, h, id, f, m);
    AcceptIs(par, id, f, m, b);
    RaisesExactly(par, f.(log := Stored(f.log, b)), Min(m.leaderCommit, |b|));
  }

  lemma RaisesExactly(par: Params, g: Node, k: nat)
    requires g.base <= g.commit
    ensures var o := SetCommit(par, g, k);
            && o.node.(base := g.base) == g.(commit := Max(g.commit, k)) && g.base <= o.node.base <= o.node.commit
            && o.applied == ApplyRange(g.log, g.commit, o.node.commit)
  {
    hide ApplyRange;
    NothingApplies(g.log, g.commit);
  }

  // In every run: entries from any leader of that term, whose log at some earlier moment was
  // at least as long.
  lemma ReplicationExactly(par: Params, r: Run, i: nat, f: Id, m: Message<Log>, j: nat, b: Id)
    requires IsRun(par, r) && j <= i < |r.states| && f in r.states[i].nodes && b in r.states[j].nodes
    requires m.AppendEntries? && Packet(f, m) in r.states[i].net
    requires r.states[j].nodes[b].role == Leader && r.states[j].nodes[b].term == m.term
    requires m.prevIndex + |m.entries| <= |r.states[j].nodes[b].log|
    ensures var n, l, o := r.states[i].nodes[f], r.states[j].nodes[b].log, Outcome(par, r.states[i], Label(f, Receive(m)));
            && m.entries == l[m.prevIndex..m.prevIndex + |m.entries|]
            && (n.alive && m.term >= n.term ==> TakesEntries(par, f, n, m, l, o))
            && (n.alive && m.term < n.term ==> o == Out(n, {Packet(m.leader, AppendReply(n.term, f, false, 0))}, []))
  {
    hide HistOk, NodeOk, MsgOk, TakesEntries, HearAppend, ApplyRange;
    var hs := Telling(par, r);
    var n := r.states[i].nodes[f];
    NodeAt(par, r, hs, i, f);
    SeenFrom(par, r, hs, j, i, b);
    assert Inv(par, r.states[i], hs[i]);
    assert MsgOk(hs[i], Packet(f, m));
    MsgParts(hs[i], f, m);
    var l, l2, k := r.states[j].nodes[b].log, hs[i].reigns[m.term].log, m.prevIndex + |m.entries|;
    assert l <= l2;
    if n.alive && m.term >= n.term {
      EntriesExactly(par, hs[i], f, n, m);
      SamePrefix(par, f, n, m, l, l2, React(par, f, n, Receive(m)));
    }
    assert m.entries == l2[m.prevIndex..k] == l[m.prevIndex..k];
  }

  lemma SamePrefix(par: Params, id: Id, n: Node, m: Message<Log>, l: Log, l2: Log, o: Out)
    requires m.AppendEntries? && m.prevIndex + |m.entries| <= |l| && l <= l2 && TakesEntries(par, id, n, m, l2, o)
    ensures TakesEntries(par, id, n, m, l, o)
  {
    hide ApplyRange;
    assert l[..m.prevIndex] == l2[..m.prevIndex] && l[..m.prevIndex + |m.entries|] == l2[..m.prevIndex + |m.entries|];
  }

  // ---- snapshots --------------------------------------------------------------

  // A live server that receives a snapshot not older than its term takes it if it reaches
  // beyond its commit index, keeping what it has if the image is a prefix of that.
  lemma SnapshotExactly(par: Params, r: Run, i: nat, f: Id, m: Message<Log>)
    requires IsRun(par, r) && i < |r.states| && f in r.states[i].nodes
    requires m.InstallSnapshot? && Packet(f, m) in r.states[i].net
    ensures var n, o := r.states[i].nodes[f], Outcome(par, r.states[i], Label(f, Receive(m)));
            n.alive && m.term >= n.term ==>
              && o.node.role == Follower && o.node.term == m.term && o.node.alive && o.applied == []
              && m.lastIndex == |m.image|
              && o.sends == {Packet(m.leader, AppendReply(m.term, f, true, Max(n.commit, |m.image|)))}
              && o.node.commit == Max(n.commit, |m.image|) && m.image <= o.node.log
              && (if |m.image| <= n.commit then o.node.log == n.log && o.node.base == n.base
                  else o.node.log == (if m.image <= n.log then n.log else m.image) && o.node.base == |m.image|)
  {
    hide HistOk, NodeOk, MsgOk, Install, Stored, VotesOk, AcksOk, LeaderOk, CandidateOk, ReadsOk, Decided, Grounded;
    var hs := Telling(par, r);
    var n, h := r.states[i].nodes[f], hs[i];
    NodeAt(par, r, hs, i, f);
    assert Inv(par, r.states[i], h);
    assert MsgOk(h, Packet(f, m));
    if n.alive && m.term >= n.term {
      var g := Heard(n, m.term);
      HeardKeeps(par, h, f, n, m.term);
      Parts(par, h, f, g);
      ImageParts(h, f, m);
      SnapshotStores(par, h, f, g, m);
      CommittedHeld(par, h, g, m.term);
      ImageStored(n.log, m.image, n.commit, h.reigns[m.term].log);
    }
  }

  lemma ImageParts(h: Hist, f: Id, m: Message<Log>)
    requires MsgOk(h, Packet(f, m)) && m.InstallSnapshot?
    ensures m.term in h.reigns && m.image <= h.reigns[m.term].log && m.lastIndex == |m.image|
  {
  }

  lemma ImageStored(x: Log, image: Log, k: nat, l: Log)
    requires k <= |x| && x[..k] <= l && image <= l
    ensures Stored(x, image) == if image <= x then x else image
    ensures |image| <= k ==> image <= x
  {
    assert |image| <= k ==> image == x[..k][..|image|];
  }
}
