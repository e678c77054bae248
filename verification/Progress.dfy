// The protocol cannot get stuck: what can still be reached from every reachable state.
module Progress {
  import opened Prelude
  import opened RaftTypes
  import opened RaftSpec
  import opened Safety
  import opened Duties
  import opened Replication
  import opened Offices
  import KvStore

  // ---- continuations ----------------------------------------------------------

  // The state a run has come to.
  function Now(r: Run): Sys {
    if r.states == [] then Sys(map[], {}) else r.states[|r.states| - 1]
  }

  // What happens by itself: no crash, no client, no membership change.
  predicate Calm(ev: Event) {
    ev.ElectionTimeout? || ev.HeartbeatTimeout? || ev.Restart? || ev.Receive?
  }

  // A longer run, in which from r on only the servers of q act, calmly or as asked.
  ghost predicate Onward(par: Params, r: Run, r2: Run, q: set<Id>, asked: set<Label>) {
    && IsRun(par, r2) && |r.states| > 0
    && r.states <= r2.states && r.labels <= r2.labels
    && forall i | |r.labels| <= i < |r2.labels| :: r2.labels[i] in asked || (r2.labels[i].who in q && Calm(r2.labels[i].event))
  }

  lemma OnwardTransitive(par: Params, r1: Run, r2: Run, r3: Run, q: set<Id>, asked: set<Label>)
    requires Onward(par, r1, r2, q, asked) && Onward(par, r2, r3, q, asked)
    ensures Onward(par, r1, r3, q, asked)
  {
  }

  lemma NoStep(par: Params, r: Run, q: set<Id>, asked: set<Label>)
    requires IsRun(par, r)
    ensures Onward(par, r, r, q, asked)
  {
  }

  lemma Goes(par: Params, r: Run, l: Label, q: set<Id>, asked: set<Label>) returns (r2: Run)
    requires IsRun(par, r) && Enabled(par, Now(r), l) && (l in asked || (l.who in q && Calm(l.event)))
    ensures Onward(par, r, r2, q, asked) && Now(r2) == After(par, Now(r), l)
    ensures Now(r2).nodes.Keys == Now(r).nodes.Keys && Now(r).net <= Now(r2).net
    ensures r2 == Run(r.states + [Now(r2)], r.labels + [l])
  {
    hide React;
    r2 := Run(r.states + [After(par, Now(r), l)], r.labels + [l]);
  }

  // The servers outside `who` are as they were.
  ghost predicate OthersStay(r: Run, r2: Run, who: set<Id>) {
    && Now(r2).nodes.Keys == Now(r).nodes.Keys
    && forall a | a in Now(r).nodes && a !in who :: Now(r2).nodes[a] == Now(r).nodes[a]
  }

  // ---- bringing one follower up to date ---------------------------------------

  // c leads in its present term, and v, one of its other voters, is live and not ahead of
  // it in terms.
  ghost predicate Ready(par: Params, r: Run, q: set<Id>, c: Id, v: Id) {
    && IsRun(par, r) && c in q && v in q && c != v && c in Now(r).nodes && v in Now(r).nodes
    && var n, x := Now(r).nodes[c], Now(r).nodes[v];
    && n.role == Leader && v in Voters(par, n) && x.alive && x.term <= n.term
  }

  // It still leads with the same log, and knows at least as much of v, and the same of others.
  ghost predicate StillLeads(n: Node, n2: Node, v: Id) {
    && n2.role == Leader && n2.term == n.term && n2.alive && n2.log == n.log
    && n2.commit >= n.commit && n2.base >= n.base && n2.clientIndex == n.clientIndex
    && MatchFor(n2, v) >= MatchFor(n, v)
    && forall p | p != v :: MatchFor(n2, p) == MatchFor(n, p) && NextFor(n2, p) == NextFor(n, p)
  }

  lemma Started(par: Params, r: Run)
    requires IsRun(par, r)
    ensures |r.states| > 0
  {
  }

  lemma LeaderFacts(par: Params, r: Run, c: Id)
    requires IsRun(par, r) && c in Now(r).nodes && Now(r).nodes[c].role == Leader
    ensures var n := Now(r).nodes[c];
            && n.alive && n.base <= n.commit <= |n.log| && MatchFor(n, c) == |n.log|
            && forall p :: MatchFor(n, p) <= |n.log| && 1 <= NextFor(n, p) <= |n.log| + 1
  {
    hide React, IsRun, NextFor, MatchFor, Indexed;
    Started(par, r);
    var i := |r.states| - 1;
    var n := Now(r).nodes[c];
    var e := OfficeSince(par, r, i, c);
    KeptInOffice(par, r, e, i, c);
    BoundsAt(par, r, i, c);
    forall p
      ensures MatchFor(n, p) <= |n.log| && 1 <= NextFor(n, p) <= |n.log| + 1
    {
      ProgressWithinLog(par, r, i, c, p);
    }
  }

  // The leader's timer fires, and the message for v is on its way.
  lemma Sends(par: Params, r: Run, q: set<Id>, c: Id, v: Id) returns (r2: Run)
    requires Ready(par, r, q, c, v)
    ensures Onward(par, r, r2, q, {}) && Now(r2).nodes == Now(r).nodes
    ensures AppendFor(c, Now(r).nodes[c], v) in Now(r2).net && BringsUp(c, Now(r).nodes[c], v, AppendFor(c, Now(r).nodes[c], v))
  {
    hide IsRun, AppendFor, NextFor, BringsUp, ConfigOf;
    var n := Now(r).nodes[c];
    LeaderFacts(par, r, c);
    r2 := Goes(par, r, Label(c, HeartbeatTimeout), q, {});
    RoundExactly(par, c, n);
    assert Now(r).nodes[c := n] == Now(r).nodes;
  }

  // One message in flight is delivered.
  lemma Delivers(par: Params, r: Run, q: set<Id>, v: Id, m: Message<Log>) returns (r2: Run)
    requires IsRun(par, r) && v in q && v in Now(r).nodes && Packet(v, m) in Now(r).net
    ensures Onward(par, r, r2, q, {}) && OthersStay(r, r2, {v})
    ensures var o := Outcome(par, Now(r), Label(v, Receive(m)));
            Now(r2).nodes[v] == o.node && o.sends <= Now(r2).net && Now(r).net <= Now(r2).net
    ensures r2 == Run(r.states + [Now(r2)], r.labels + [Label(v, Receive(m))])
  {
    hide IsRun, React;
    r2 := Goes(par, r, Label(v, Receive(m)), q, {});
  }

  // ---- one round of entries ---------------------------------------------------

  // What the follower has after entries from its next index: the log, if it had all before
  // them; and the commit index the leader told.
  ghost predicate Follows(n: Node, x: Node, x2: Node) {
    x2.alive && x2.term == n.term && n.log <= x2.log && x2.commit == Max(x.commit, Min(n.commit, |n.log|))
  }

  lemma EntriesArrive(par: Params, r: Run, q: set<Id>, c: Id, v: Id, m: Message<Log>) returns (r2: Run)
    requires Ready(par, r, q, c, v) && Packet(v, m) in Now(r).net && NextFor(Now(r).nodes[c], v) > Now(r).nodes[c].base
    requires BringsUp(c, Now(r).nodes[c], v, Packet(v, m))
    ensures Onward(par, r, r2, q, {}) && OthersStay(r, r2, {v})
    ensures var n, x, x2 := Now(r).nodes[c], Now(r).nodes[v], Now(r2).nodes[v];
            NextFor(n, v) <= |n.log| + 1 &&
            if n.log[..NextFor(n, v) - 1] <= x.log then
              Follows(n, x, x2) && Packet(c, AppendReply(n.term, v, true, |n.log|)) in Now(r2).net
            else
              x2.alive && x2.term == n.term && x2.log == x.log && Packet(c, AppendReply(n.term, v, false, 0)) in Now(r2).net
  {
    hide IsRun, NextFor, ConfigOf, ApplyRange, React, MatchFor;
    Started(par, r);
    LeaderFacts(par, r, c);
    var i, n, x := |r.states| - 1, Now(r).nodes[c], Now(r).nodes[v];
    assert n.log[..m.prevIndex + |m.entries|] == n.log;
    ReplicationExactly(par, r, i, v, m, i, c);
    r2 := Delivers(par, r, q, v, m);
    assert TakesEntries(par, v, x, m, n.log, Outcome(par, Now(r), Label(v, Receive(m))));
  }

  // The follower's answer reaches the leader.
  lemma SuccessArrives(par: Params, r: Run, q: set<Id>, c: Id, v: Id, k: nat) returns (r2: Run)
    requires Ready(par, r, q, c, v) && Packet(c, AppendReply(Now(r).nodes[c].term, v, true, k)) in Now(r).net
    ensures Onward(par, r, r2, q, {}) && OthersStay(r, r2, {c})
    ensures var n, n2 := Now(r).nodes[c], Now(r2).nodes[c];
            && StillLeads(n, n2, v) && MatchFor(n2, v) == Max(MatchFor(n, v), k) && NextFor(n2, v) == Max(NextFor(n, v), k + 1)
            && forall j: nat :: !Committable(par, n2, j)
  {
    hide IsRun, React, NextFor, MatchFor, Committable, ApplyRange, ConfigOf;
    LeaderFacts(par, r, c);
    SuccessExactly(par, c, Now(r).nodes[c], AppendReply(Now(r).nodes[c].term, v, true, k));
    r2 := Delivers(par, r, q, c, AppendReply(Now(r).nodes[c].term, v, true, k));
  }

  lemma RefusalArrives(par: Params, r: Run, q: set<Id>, c: Id, v: Id) returns (r2: Run)
    requires Ready(par, r, q, c, v) && Packet(c, AppendReply(Now(r).nodes[c].term, v, false, 0)) in Now(r).net
    ensures Onward(par, r, r2, q, {}) && OthersStay(r, r2, {c})
    ensures var n, n2 := Now(r).nodes[c], Now(r2).nodes[c];
            StillLeads(n, n2, v) && n2.base == n.base && NextFor(n2, v) == Max(1, NextFor(n, v) - 1)
  {
    hide IsRun, React, MatchFor, ConfigOf, BringsUp;
    LeaderFacts(par, r, c);
    var n, m: Message<Log> := Now(r).nodes[c], AppendReply(Now(r).nodes[c].term, v, false, 0);
    RefusalExactly(par, c, n, m);
    r2 := Delivers(par, r, q, c, m);
    SameMatches(n, Now(r2).nodes[c]);
  }

  lemma SameMatches(n: Node, n2: Node)
    requires n2.matched == n.matched
    ensures forall p :: MatchFor(n2, p) == MatchFor(n, p)
  {
  }

  // The log of one round: either the follower has the leader's log, and the leader knows
  // and has committed all it can, or the leader will try one entry earlier.
  lemma AppendRound(par: Params, r: Run, q: set<Id>, c: Id, v: Id) returns (r2: Run)
    requires Ready(par, r, q, c, v) && NextFor(Now(r).nodes[c], v) > Now(r).nodes[c].base
    ensures Onward(par, r, r2, q, {}) && OthersStay(r, r2, {c, v}) && Ready(par, r2, q, c, v)
    ensures var n, n2, x, x2 := Now(r).nodes[c], Now(r2).nodes[c], Now(r).nodes[v], Now(r2).nodes[v];
            NextFor(n, v) <= |n.log| + 1 && StillLeads(n, n2, v) &&
            if n.log[..NextFor(n, v) - 1] <= x.log then
              && Follows(n, x, x2) && MatchFor(n2, v) == |n.log| && NextFor(n2, v) == |n.log| + 1
              && forall j: nat :: !Committable(par, n2, j)
            else x2.log == x.log && n2.base == n.base && 1 <= NextFor(n2, v) == NextFor(n, v) - 1
  {
    hide IsRun, NextFor, MatchFor, ConfigOf, Committable, AppendFor, Follows, BringsUp;
    LeaderFacts(par, r, c);
    var n, x := Now(r).nodes[c], Now(r).nodes[v];
    var r1 := Sends(par, r, q, c, v);
    GoesToPeer(c, n, v);
    var m := AppendFor(c, n, v).msg;
    var r3 := EntriesArrive(par, r1, q, c, v, m);
    if n.log[..NextFor(n, v) - 1] <= x.log {
      assert Follows(n, x, Now(r3).nodes[v]);
      FollowsTerm(n, x, Now(r3).nodes[v]);
      r2 := SuccessArrives(par, r3, q, c, v, |n.log|);
      LeaderFacts(par, r2, c);
    } else {
      r2 := RefusalArrives(par, r3, q, c, v);
    }
    OnwardTransitive(par, r, r1, r3, q, {});
    OnwardTransitive(par, r, r3, r2, q, {});
  }

  lemma FollowsTerm(n: Node, x: Node, x2: Node)
    requires Follows(n, x, x2)
    ensures x2.alive && x2.term == n.term
  {
  }

  // ---- one round of a snapshot ------------------------------------------------

  lemma ImageArrives(par: Params, r: Run, q: set<Id>, c: Id, v: Id, m: Message<Log>) returns (r2: Run)
    requires Ready(par, r, q, c, v) && Packet(v, m) in Now(r).net && NextFor(Now(r).nodes[c], v) <= Now(r).nodes[c].base
    requires BringsUp(c, Now(r).nodes[c], v, Packet(v, m))
    ensures Onward(par, r, r2, q, {}) && OthersStay(r, r2, {v})
    ensures var n, x2 := Now(r).nodes[c], Now(r2).nodes[v];
            && x2.alive && x2.term == n.term && n.base <= x2.commit
            && Packet(c, AppendReply(n.term, v, true, x2.commit)) in Now(r2).net
  {
    hide IsRun, NextFor, ConfigOf, React, MatchFor;
    Started(par, r);
    SnapshotExactly(par, r, |r.states| - 1, v, m);
    r2 := Delivers(par, r, q, v, m);
  }

  // After a snapshot the follower holds all that comes before what it is sent next.
  lemma SnapshotRound(par: Params, r: Run, q: set<Id>, c: Id, v: Id) returns (r2: Run)
    requires Ready(par, r, q, c, v) && NextFor(Now(r).nodes[c], v) <= Now(r).nodes[c].base
    ensures Onward(par, r, r2, q, {}) && OthersStay(r, r2, {c, v}) && Ready(par, r2, q, c, v)
    ensures var n, n2, x2 := Now(r).nodes[c], Now(r2).nodes[c], Now(r2).nodes[v];
            && StillLeads(n, n2, v) && n.base < NextFor(n2, v) <= |n2.log| + 1
            && n2.log[..NextFor(n2, v) - 1] <= x2.log
  {
    hide IsRun, NextFor, MatchFor, ConfigOf, Committable, AppendFor, BringsUp;
    LeaderFacts(par, r, c);
    var n := Now(r).nodes[c];
    var r1 := Sends(par, r, q, c, v);
    GoesToPeer(c, n, v);
    var r3 := ImageArrives(par, r1, q, c, v, AppendFor(c, n, v).msg);
    var x2 := Now(r3).nodes[v];
    r2 := SuccessArrives(par, r3, q, c, v, x2.commit);
    OnwardTransitive(par, r, r1, r3, q, {});
    OnwardTransitive(par, r, r3, r2, q, {});
    LeaderFacts(par, r2, c);
    CommittedWithLeader(par, r2, c, v);
  }

  lemma CommittedWithLeader(par: Params, r: Run, c: Id, v: Id)
    requires IsRun(par, r) && c in Now(r).nodes && v in Now(r).nodes
    requires Now(r).nodes[c].role == Leader && Now(r).nodes[v].term <= Now(r).nodes[c].term
    ensures var n, x := Now(r).nodes[c], Now(r).nodes[v];
            x.commit <= |x.log| && x.log[..x.commit] <= n.log && (x.commit <= |n.log| ==> n.log[..x.commit] <= x.log)
  {
    hide IsRun;
    Started(par, r);
    var i := |r.states| - 1;
    LeaderHolds(par, r, i, v, i, c);
    var n, x := Now(r).nodes[c], Now(r).nodes[v];
    assert n.log[..x.commit] == x.log[..x.commit];
  }

  // ---- catching up ------------------------------------------------------------

  // How far replication to v has to go: rounds that end in a refusal lower the next index,
  // a snapshot lifts it above the base and settles the prefix, and only then may the base
  // have moved, towards the end of the log.
  ghost function Distance(n: Node, x: Node, v: Id): nat {
    if NextFor(n, v) <= n.base then 1
    else if NextFor(n, v) <= |n.log| + 1 && n.log[..NextFor(n, v) - 1] <= x.log then 0
    else 1 + NextFor(n, v)
  }

  // v ends with the leader's log, and the leader knows it and has committed all it can.
  lemma {:induction false} CatchesUp(par: Params, r: Run, q: set<Id>, c: Id, v: Id) returns (r2: Run)
    requires Ready(par, r, q, c, v)
    ensures Onward(par, r, r2, q, {}) && OthersStay(r, r2, {c, v}) && Ready(par, r2, q, c, v)
    ensures var n, n2, x2 := Now(r).nodes[c], Now(r2).nodes[c], Now(r2).nodes[v];
            && StillLeads(n, n2, v) && n.log <= x2.log && MatchFor(n2, v) == |n.log| && NextFor(n2, v) == |n.log| + 1
            && forall j: nat :: !Committable(par, n2, j)
    decreases |Now(r).nodes[c].log| - Now(r).nodes[c].base, Distance(Now(r).nodes[c], Now(r).nodes[v], v)
  {
    hide IsRun, NextFor, MatchFor, ConfigOf, Committable;
    LeaderFacts(par, r, c);
    var n, x := Now(r).nodes[c], Now(r).nodes[v];
    var r1: Run;
    if NextFor(n, v) <= n.base {
      r1 := SnapshotRound(par, r, q, c, v);
    } else {
      r1 := AppendRound(par, r, q, c, v);
      if n.log[..NextFor(n, v) - 1] <= x.log {
        return r1;
      }
    }
    LeaderFacts(par, r1, c);
    r2 := CatchesUp(par, r1, q, c, v);
    OnwardTransitive(par, r, r1, r2, q, {});
  }

  // ---- a whole majority -------------------------------------------------------

  // c leads, and q is a set of its voters, itself among them, all live and none ahead of it.
  ghost predicate Followed(par: Params, r: Run, q: set<Id>, c: Id) {
    && IsRun(par, r) && c in q && q <= Now(r).nodes.Keys
    && Now(r).nodes[c].role == Leader && q <= Voters(par, Now(r).nodes[c])
    && forall v | v in q :: Now(r).nodes[v].alive && Now(r).nodes[v].term <= Now(r).nodes[c].term
  }

  ghost predicate UpToEnd(n: Node, x: Node, v: Id) {
    n.log <= x.log && MatchFor(n, v) == |n.log| && NextFor(n, v) == |n.log| + 1
  }

  ghost predicate SameLeader(n: Node, n2: Node) {
    && n2.role == Leader && n2.term == n.term && n2.alive && n2.log == n.log && n2.commit >= n.commit && n2.base >= n.base
    && n2.clientIndex == n.clientIndex
  }

  ghost predicate Abreast(r: Run, c: Id, done: set<Id>) {
    c in Now(r).nodes && forall v | v in done :: v in Now(r).nodes && UpToEnd(Now(r).nodes[c], Now(r).nodes[v], v)
  }

  lemma OneCatchesUp(par: Params, r: Run, q: set<Id>, c: Id, done: set<Id>, v: Id) returns (r1: Run)
    requires Followed(par, r, q, c) && done <= q - {c} && Abreast(r, c, done) && v in q && v != c
    ensures Onward(par, r, r1, q, {}) && Followed(par, r1, q, c) && OthersStay(r, r1, {c, v})
    ensures SameLeader(Now(r).nodes[c], Now(r1).nodes[c]) && Abreast(r1, c, done + {v})
    ensures forall j: nat :: !Committable(par, Now(r1).nodes[c], j)
  {
    hide IsRun, NextFor, MatchFor, ConfigOf, Committable;
    r1 := CatchesUp(par, r, q, c, v);
    var n, n1 := Now(r).nodes[c], Now(r1).nodes[c];
    forall u | u in done + {v}
      ensures u in Now(r1).nodes && UpToEnd(n1, Now(r1).nodes[u], u)
    {
      if u != v {
        assert UpToEnd(n, Now(r).nodes[u], u);
      }
    }
  }

  // All the others of q, one after the other.
  lemma {:induction false} AllCatchUp(par: Params, r: Run, q: set<Id>, c: Id, done: set<Id>) returns (r2: Run)
    requires Followed(par, r, q, c) && done <= q - {c} && q != {c} && Abreast(r, c, done)
    requires done == {} || forall j: nat :: !Committable(par, Now(r).nodes[c], j)
    ensures Onward(par, r, r2, q, {}) && Followed(par, r2, q, c) && OthersStay(r, r2, q)
    ensures SameLeader(Now(r).nodes[c], Now(r2).nodes[c]) && Abreast(r2, c, q - {c})
    ensures forall j: nat :: !Committable(par, Now(r2).nodes[c], j)
    decreases |q - {c} - done|
  {
    hide IsRun, Committable, Onward, Followed, OthersStay, SameLeader, Abreast;
    FollowedHas(par, r, q, c);
    if done == q - {c} {
      NothingDone(par, r, q, c);
      r2 := r;
    } else {
      var v := OneOf(q - {c}, done);
      var r1 := OneCatchesUp(par, r, q, c, done, v);
      r2 := AllCatchUp(par, r1, q, c, done + {v});
      OnwardTransitive(par, r, r1, r2, q, {});
      StepsTogether(r, r1, r2, q, {c, v}, c);
    }
  }

  lemma OneOf(all: set<Id>, done: set<Id>) returns (v: Id)
    requires done <= all && done != all
    ensures v in all && v !in done && |all - (done + {v})| < |all - done|
  {
    assert !(all <= done);
    v :| v in all && v !in done;
    assert all - done == (all - (done + {v})) + {v};
  }

  lemma FollowedHas(par: Params, r: Run, q: set<Id>, c: Id)
    requires Followed(par, r, q, c)
    ensures c in Now(r).nodes && c in q && q <= Now(r).nodes.Keys
  {
  }

  lemma NothingDone(par: Params, r: Run, q: set<Id>, c: Id)
    requires Followed(par, r, q, c)
    ensures Onward(par, r, r, q, {}) && OthersStay(r, r, q) && SameLeader(Now(r).nodes[c], Now(r).nodes[c])
  {
  }

  lemma StepsTogether(r: Run, r1: Run, r2: Run, q: set<Id>, who: set<Id>, c: Id)
    requires OthersStay(r, r1, who) && OthersStay(r1, r2, q) && who <= q && c in Now(r).nodes
    ensures OthersStay(r, r2, q) && c in Now(r1).nodes && c in Now(r2).nodes
    ensures SameLeader(Now(r).nodes[c], Now(r1).nodes[c]) && SameLeader(Now(r1).nodes[c], Now(r2).nodes[c]) ==>
              SameLeader(Now(r).nodes[c], Now(r2).nodes[c])
  {
  }

  // ---- committing -------------------------------------------------------------

  // With a majority of its configuration, and its last entry of its own term, a leader gets
  // its whole log committed.
  lemma Commits(par: Params, r: Run, q: set<Id>, c: Id) returns (r2: Run)
    requires Followed(par, r, q, c) && Majority(q, Voters(par, Now(r).nodes[c])) && |Voters(par, Now(r).nodes[c])| > 1
    requires LastTerm(Now(r).nodes[c].log) == Now(r).nodes[c].term && Now(r).nodes[c].log != []
    ensures Onward(par, r, r2, q, {}) && Followed(par, r2, q, c) && OthersStay(r, r2, q)
    ensures SameLeader(Now(r).nodes[c], Now(r2).nodes[c]) && Abreast(r2, c, q - {c})
    ensures Now(r2).nodes[c].commit == |Now(r2).nodes[c].log|
  {
    hide IsRun, Committable, Onward, OthersStay, ConfigOf, UpToEnd;
    var n := Now(r).nodes[c];
    NotAlone(q, c, Voters(par, n));
    FollowedHas(par, r, q, c);
    assert Abreast(r, c, {});
    r2 := AllCatchUp(par, r, q, c, {});
    LeaderFacts(par, r2, c);
    if Now(r2).nodes[c].commit < |n.log| {
      AllMatched(par, r2, q, c);
    }
  }

  lemma NotAlone(q: set<Id>, c: Id, config: set<Id>)
    requires Majority(q, config) && |config| > 1
    ensures q != {c}
  {
    CardinalityOfSubset(q * config, q);
    assert |{c}| == 1;
  }

  // What a majority is known to hold, of the leader's term at its end, is committable.
  lemma AllMatched(par: Params, r: Run, q: set<Id>, c: Id)
    requires Followed(par, r, q, c) && Abreast(r, c, q - {c}) && Majority(q, Voters(par, Now(r).nodes[c]))
    requires var n := Now(r).nodes[c]; n.log != [] && LastTerm(n.log) == n.term && n.commit < |n.log|
    ensures Committable(par, Now(r).nodes[c], |Now(r).nodes[c].log|)
  {
    hide IsRun, ConfigOf, MatchFor, NextFor;
    var n := Now(r).nodes[c];
    var holders := set v | v in Voters(par, n) && MatchFor(n, v) >= |n.log|;
    LeaderFacts(par, r, c);
    forall v | v in q * Voters(par, n)
      ensures v in holders
    {
      if v != c {
        assert UpToEnd(n, Now(r).nodes[v], v);
      }
    }
    CardinalityOfSubset(q * Voters(par, n), holders);
  }

  // ---- restarting -------------------------------------------------------------

  // The same servers, live.
  ghost predicate Revived(r: Run, r2: Run, q: set<Id>) {
    && OthersStay(r, r2, q)
    && forall v | v in q && v in Now(r).nodes :: Now(r2).nodes[v] == Resume(Now(r).nodes[v])
  }

  lemma {:induction false} Restarts(par: Params, r: Run, q: set<Id>, done: set<Id>) returns (r2: Run)
    requires IsRun(par, r) && q <= Now(r).nodes.Keys && done <= q
    ensures Onward(par, r, r2, q, {}) && Revived(r, r2, q - done)
    decreases |q - done|
  {
    hide IsRun, Onward, Revived;
    if done == q {
      NoStep(par, r, q, {});
      r2 := r;
      NoneRevived(r);
      assert q - done == {};
    } else {
      var v := OneOf(q, done);
      var r1 := Goes(par, r, Label(v, Restart), q, {});
      GoneOn(par, r, r1, q, {});
      r2 := Restarts(par, r1, q, done + {v});
      OnwardTransitive(par, r, r1, r2, q, {});
      OneRevived(r, r1, r2, v, q - (done + {v}));
      assert q - (done + {v}) + {v} == q - done;
    }
  }

  lemma NoneRevived(r: Run)
    ensures Revived(r, r, {})
  {
  }

  lemma OneRevived(r: Run, r1: Run, r2: Run, v: Id, rest: set<Id>)
    requires v in Now(r).nodes && Now(r1).nodes == Now(r).nodes[v := Resume(Now(r).nodes[v])]
    requires Revived(r1, r2, rest) && v !in rest
    ensures Revived(r, r2, rest + {v})
  {
  }

  // ---- standing for election --------------------------------------------------

  // c stands in its present term with no vote but its own, and has asked all other voters.
  ghost predicate Stands(par: Params, r: Run, c: Id) {
    && c in Now(r).nodes
    && var n := Now(r).nodes[c];
    && n.role == Candidate && n.alive && c in Voters(par, n) && !Majority(n.votes, Voters(par, n))
    && forall v | v in Voters(par, n) && v != c :: Packet(v, RequestVote(n.term, c, |n.log|, LastTerm(n.log))) in Now(r).net
  }

  // It may have to stand several times, to overtake a term.
  lemma {:induction false} Campaigns(par: Params, r: Run, q: set<Id>, c: Id, t: nat) returns (r2: Run)
    requires IsRun(par, r) && c in q && c in Now(r).nodes
    requires var n := Now(r).nodes[c]; n.alive && n.role != Leader && c in Voters(par, n) && |Voters(par, n)| > 1
    ensures Onward(par, r, r2, q, {}) && OthersStay(r, r2, {c}) && Stands(par, r2, c)
    ensures var n, n2 := Now(r).nodes[c], Now(r2).nodes[c];
            n2.log == n.log && n2.votes == {c} && n2.term > t && n2.term > n.term
    decreases t - Now(r).nodes[c].term
  {
    hide IsRun, React, ConfigOf;
    var n := Now(r).nodes[c];
    CampaignExactly(par, c, n);
    r2 := Goes(par, r, Label(c, ElectionTimeout), q, {});
    AloneIsMajority(c, Voters(par, n));
    assert |{c}| == 1;
    if n.term + 1 <= t {
      var r1 := r2;
      r2 := Campaigns(par, r1, q, c, t);
      OnwardTransitive(par, r, r1, r2, q, {});
    }
  }

  // A leader that a voter has overtaken hears of it from its next round and steps down.
  lemma StepsDown(par: Params, r: Run, q: set<Id>, c: Id, v: Id) returns (r2: Run)
    requires IsRun(par, r) && c in q && v in q && c != v && c in Now(r).nodes && v in Now(r).nodes
    requires var n, x := Now(r).nodes[c], Now(r).nodes[v];
             n.role == Leader && v in Voters(par, n) && x.alive && x.term > n.term
    ensures Onward(par, r, r2, q, {}) && OthersStay(r, r2, {c})
    ensures var n, n2 := Now(r).nodes[c], Now(r2).nodes[c];
            n2.alive && n2.role == Follower && n2.log == n.log
  {
    hide IsRun, React, ConfigOf, NextFor;
    LeaderFacts(par, r, c);
    var n, x := Now(r).nodes[c], Now(r).nodes[v];
    RoundExactly(par, c, n);
    var r1 := Goes(par, r, Label(c, HeartbeatTimeout), q, {});
    HeartbeatSends(par, c, n);
    var p := AppendFor(c, n, v);
    StaleRefused(par, v, x, p.msg);
    var r3 := Delivers(par, r1, q, v, p.msg);
    OvertakenStepsDown(par, c, n, AppendReply(x.term, v, false, 0));
    r2 := Delivers(par, r3, q, c, AppendReply(x.term, v, false, 0));
    OnwardTransitive(par, r, r1, r3, q, {});
    OnwardTransitive(par, r, r3, r2, q, {});
  }

  lemma HeartbeatSends(par: Params, id: Id, n: Node)
    ensures n.alive && n.role == Leader ==> React(par, id, n, HeartbeatTimeout) == Out(n, Heartbeats(par, id, n), [])
  {
  }

  lemma StaleRefused(par: Params, id: Id, n: Node, m: Message<Log>)
    requires n.alive && m.term < n.term && (m.AppendEntries? || m.InstallSnapshot?)
    ensures React(par, id, n, Receive(m)) == Out(n, {Packet(m.leader, AppendReply(n.term, id, false, 0))}, [])
  {
  }

  lemma OvertakenStepsDown(par: Params, id: Id, n: Node, m: Message<Log>)
    requires n.alive && m.AppendReply? && m.term > n.term
    ensures var o := React(par, id, n, Receive(m)); o.node.alive && o.node.role == Follower && o.node.log == n.log
  {
  }

  // ---- winning ----------------------------------------------------------------

  // A live voter behind in terms, with a log the candidate's is at least as up to date as.
  ghost predicate WillVote(n: Node, x: Node) {
    x.alive && x.term < n.term && AtLeast(LastTerm(n.log), |n.log|, x.log)
  }

  // Those of q that were asked have voted, the others will.
  ghost predicate Polled(par: Params, r: Run, q: set<Id>, c: Id, done: set<Id>) {
    && IsRun(par, r) && c in q && q <= Now(r).nodes.Keys && done <= q - {c} && Stands(par, r, c)
    && var n := Now(r).nodes[c];
    && q <= Voters(par, n) && done + {c} <= n.votes
    && (forall v | v in q - {c} - done :: WillVote(n, Now(r).nodes[v]))
    && (forall v | v in done :: Now(r).nodes[v].alive && Now(r).nodes[v].term <= n.term)
  }

  // One more votes, and its vote arrives: the candidate leads, or goes on.
  lemma OneVotes(par: Params, r: Run, q: set<Id>, c: Id, done: set<Id>, v: Id) returns (r2: Run)
    requires Polled(par, r, q, c, done) && v in q - {c} - done
    ensures Onward(par, r, r2, q, {}) && OthersStay(r, r2, {c, v}) && c in Now(r).nodes && c in Now(r2).nodes
    ensures Now(r2).nodes[c].log == Now(r).nodes[c].log && Now(r2).nodes[c].term == Now(r).nodes[c].term
    ensures if Now(r2).nodes[c].role == Leader then Now(r2).nodes[v].alive && Now(r2).nodes[v].term == Now(r2).nodes[c].term
            else Polled(par, r2, q, c, done + {v})
  {
    hide IsRun, React, ConfigOf;
    var n, x := Now(r).nodes[c], Now(r).nodes[v];
    assert WillVote(n, x);
    var ask: Message<Log> := RequestVote(n.term, c, |n.log|, LastTerm(n.log));
    VoteExactly(par, v, x, ask);
    var r1 := Delivers(par, r, q, v, ask);
    VoteCounts(par, c, n, VoteReply(n.term, v, true));
    r2 := Delivers(par, r1, q, c, VoteReply(n.term, v, true));
    OnwardTransitive(par, r, r1, r2, q, {});
  }

  lemma {:induction false} Wins(par: Params, r: Run, q: set<Id>, c: Id, done: set<Id>) returns (r2: Run)
    requires Polled(par, r, q, c, done) && Majority(q, Voters(par, Now(r).nodes[c]))
    ensures Onward(par, r, r2, q, {}) && OthersStay(r, r2, q) && Followed(par, r2, q, c)
    ensures Now(r2).nodes[c].log == Now(r).nodes[c].log
    decreases |q - {c} - done|
  {
    hide IsRun, ConfigOf, Majority, Polled, Onward, Followed, OthersStay;
    PolledHas(par, r, q, c, done);
    VotesShort(q, Now(r).nodes[c].votes, Voters(par, Now(r).nodes[c]), c, done);
    var v := OneOf(q - {c}, done);
    var r1 := OneVotes(par, r, q, c, done, v);
    GoneOn(par, r, r1, q, {});
    if Now(r1).nodes[c].role == Leader {
      WinnerFollowed(par, r, r1, q, c, done, v);
      r2 := r1;
    } else {
      r2 := Wins(par, r1, q, c, done + {v});
      OnwardTransitive(par, r, r1, r2, q, {});
    }
    OthersTogether(r, r1, r2, {c, v}, q);
  }

  lemma PolledHas(par: Params, r: Run, q: set<Id>, c: Id, done: set<Id>)
    requires Polled(par, r, q, c, done)
    ensures c in q && q <= Now(r).nodes.Keys && done <= q - {c} && done + {c} <= Now(r).nodes[c].votes
    ensures !Majority(Now(r).nodes[c].votes, Voters(par, Now(r).nodes[c]))
  {
    hide IsRun, ConfigOf, Majority;
  }

  lemma GoneOn(par: Params, r: Run, r2: Run, q: set<Id>, asked: set<Label>)
    requires Onward(par, r, r2, q, asked)
    ensures IsRun(par, r2)
  {
  }

  lemma OthersTogether(r: Run, r1: Run, r2: Run, who: set<Id>, q: set<Id>)
    requires OthersStay(r, r1, who) && who <= q
    ensures OthersStay(r, r1, q)
    ensures OthersStay(r1, r2, q) ==> OthersStay(r, r2, q)
  {
  }

  // A candidate without a majority of votes lacks the vote of one of any majority.
  lemma VotesShort(q: set<Id>, votes: set<Id>, config: set<Id>, c: Id, done: set<Id>)
    requires Majority(q, config) && !Majority(votes, config) && done <= q - {c} && done + {c} <= votes
    ensures done != q - {c}
  {
    if q <= votes {
      CardinalityOfSubset(q * config, votes * config);
    }
  }

  lemma WinnerFollowed(par: Params, r: Run, r1: Run, q: set<Id>, c: Id, done: set<Id>, v: Id)
    requires Polled(par, r, q, c, done) && v in q - {c} - done && IsRun(par, r1) && OthersStay(r, r1, {c, v})
    requires Now(r1).nodes[c].log == Now(r).nodes[c].log && Now(r1).nodes[c].term == Now(r).nodes[c].term
    requires Now(r1).nodes[c].role == Leader && Now(r1).nodes[v].alive && Now(r1).nodes[v].term == Now(r1).nodes[c].term
    ensures Followed(par, r1, q, c)
  {
    hide IsRun, ConfigOf;
    LeaderFacts(par, r1, c);
    var n := Now(r1).nodes[c];
    forall u | u in q
      ensures Now(r1).nodes[u].alive && Now(r1).nodes[u].term <= n.term
    {
      if u != c && u != v && u !in done {
        assert WillVote(Now(r).nodes[c], Now(r).nodes[u]);
      }
    }
  }

  lemma {:induction false} LargestTerm(s: Sys, q: set<Id>) returns (t: nat)
    requires q <= s.nodes.Keys
    ensures forall v | v in q :: s.nodes[v].term <= t
    decreases |q|
  {
    if q == {} {
      t := 0;
    } else {
      var v :| v in q;
      t := LargestTerm(s, q - {v});
      t := Max(t, s.nodes[v].term);
    }
  }

  // ---- elections --------------------------------------------------------------

  // A majority of a server's configuration, all live, none with a more up-to-date log.
  ghost predicate Backs(par: Params, r: Run, q: set<Id>, c: Id) {
    && IsRun(par, r) && c in q && q <= Now(r).nodes.Keys
    && var n := Now(r).nodes[c];
    && q <= Voters(par, n) && Majority(q, Voters(par, n)) && |Voters(par, n)| > 1
    && forall v | v in q :: Now(r).nodes[v].alive && AtLeast(LastTerm(n.log), |n.log|, Now(r).nodes[v].log)
  }

  // Then it gets to lead, by itself, with the log it has.
  lemma GetsElected(par: Params, r: Run, q: set<Id>, c: Id) returns (r2: Run)
    requires Backs(par, r, q, c)
    ensures Onward(par, r, r2, q, {}) && OthersStay(r, r2, q) && Followed(par, r2, q, c)
    ensures Now(r2).nodes[c].log == Now(r).nodes[c].log
  {
    hide IsRun, ConfigOf, AtLeast, Majority;
    var n := Now(r).nodes[c];
    if n.role != Leader {
      r2 := StandsAndWins(par, r, q, c);
    } else if v :| v in q && Now(r).nodes[v].term > n.term {
      var r1 := StepsDown(par, r, q, c, v);
      r2 := StandsAndWins(par, r1, q, c);
      OnwardTransitive(par, r, r1, r2, q, {});
    } else {
      NoStep(par, r, q, {});
      r2 := r;
    }
  }

  lemma StandsAndWins(par: Params, r: Run, q: set<Id>, c: Id) returns (r2: Run)
    requires Backs(par, r, q, c) && Now(r).nodes[c].role != Leader
    ensures Onward(par, r, r2, q, {}) && OthersStay(r, r2, q) && Followed(par, r2, q, c)
    ensures Now(r2).nodes[c].log == Now(r).nodes[c].log
  {
    hide IsRun, ConfigOf, AtLeast;
    var t := LargestTerm(Now(r), q);
    var r1 := Campaigns(par, r, q, c, t);
    r2 := Wins(par, r1, q, c, {});
    OnwardTransitive(par, r, r1, r2, q, {});
  }

  // ---- commands ---------------------------------------------------------------

  lemma AppendsCommand(par: Params, r: Run, q: set<Id>, c: Id, p: Payload) returns (r2: Run)
    requires Followed(par, r, q, c) && !p.Config? && IsNew(Now(r).nodes[c].log, 0, CommandOf(p))
    ensures Onward(par, r, r2, q, {Label(c, Command(p))}) && OthersStay(r, r2, {c}) && Followed(par, r2, q, c)
    ensures Voters(par, Now(r2).nodes[c]) == Voters(par, Now(r).nodes[c])
    ensures var n, n2 := Now(r).nodes[c], Now(r2).nodes[c];
            n2.log == n.log + [Entry(n2.term, p)] && n2.commit <= |n.log|
  {
    hide IsRun, React, Superseded, NextFor, MatchFor, ConfigOf, BringsUp, Indexed;
    Started(par, r);
    var i, n := |r.states| - 1, Now(r).nodes[c];
    var e := OfficeSince(par, r, i, c);
    var b := r.states[e - 1].nodes[c].base;
    if KvStore.Structured(CommandOf(p)) {
      FewerSeen(n.log, b, CommandOf(p).client, CommandOf(p).req);
    }
    LeaderFacts(par, r, c);
    CommandExactly(par, r, e, i, c, p);
    r2 := Goes(par, r, Label(c, Command(p)), q, {Label(c, Command(p))});
    SameConfig(par, n.log, Entry(n.term, p));
  }

  lemma FewerSeen(log: Log, b: nat, client: int, req: int)
    ensures Superseded(log, b, client, req) ==> Superseded(log, 0, client, req)
  {
  }

  lemma SameConfig(par: Params, log: Log, e: Entry)
    requires !e.payload.Config?
    ensures ConfigOf(par.initial, log + [e]) == ConfigOf(par.initial, log)
  {
    assert (log + [e])[..|log|] == log;
  }

  lemma AskedToo(par: Params, r: Run, r2: Run, q: set<Id>, asked: set<Label>)
    requires Onward(par, r, r2, q, {})
    ensures Onward(par, r, r2, q, asked)
  {
  }

  // ---- everyone applies it ----------------------------------------------------

  // This server has committed, and so applied, the whole log of the leader.
  ghost predicate Applies(n: Node, x: Node) {
    n.log <= x.log && x.commit >= |n.log|
  }

  ghost predicate Settled(par: Params, r: Run, q: set<Id>, c: Id, done: set<Id>) {
    && Followed(par, r, q, c) && done <= q - {c} && Abreast(r, c, q - {c})
    && Now(r).nodes[c].commit == |Now(r).nodes[c].log|
    && forall v | v in done :: Applies(Now(r).nodes[c], Now(r).nodes[v])
  }

  // One more round to one more server tells it the commit index.
  lemma OneApplies(par: Params, r: Run, q: set<Id>, c: Id, done: set<Id>, v: Id) returns (r2: Run)
    requires Settled(par, r, q, c, done) && v in q - {c}
    ensures Onward(par, r, r2, q, {}) && OthersStay(r, r2, {c, v}) && Settled(par, r2, q, c, done + {v})
    ensures SameLeader(Now(r).nodes[c], Now(r2).nodes[c])
  {
    hide IsRun, NextFor, MatchFor, ConfigOf, Committable;
    LeaderFacts(par, r, c);
    var n, x := Now(r).nodes[c], Now(r).nodes[v];
    assert UpToEnd(n, x, v);
    assert n.log[..NextFor(n, v) - 1] == n.log;
    r2 := AppendRound(par, r, q, c, v);
    LeaderFacts(par, r2, c);
    var n2 := Now(r2).nodes[c];
    forall u | u in q - {c}
      ensures UpToEnd(n2, Now(r2).nodes[u], u)
    {
      assert UpToEnd(n, Now(r).nodes[u], u);
    }
    forall u | u in done + {v}
      ensures Applies(n2, Now(r2).nodes[u])
    {
      if u != v {
        assert Applies(n, Now(r).nodes[u]);
      }
    }
  }

  lemma {:induction false} AllApply(par: Params, r: Run, q: set<Id>, c: Id, done: set<Id>) returns (r2: Run)
    requires Settled(par, r, q, c, done) && c in Now(r).nodes
    ensures Onward(par, r, r2, q, {}) && OthersStay(r, r2, q) && Settled(par, r2, q, c, q - {c}) && c in Now(r2).nodes
    ensures SameLeader(Now(r).nodes[c], Now(r2).nodes[c])
    decreases |q - {c} - done|
  {
    hide IsRun, Onward, Followed, OthersStay, SameLeader, Settled;
    SettledHas(par, r, q, c, done);
    if done == q - {c} {
      NothingDone(par, r, q, c);
      r2 := r;
    } else {
      var v := OneOf(q - {c}, done);
      var r1 := OneApplies(par, r, q, c, done, v);
      SettledHas(par, r1, q, c, done + {v});
      r2 := AllApply(par, r1, q, c, done + {v});
      OnwardTransitive(par, r, r1, r2, q, {});
      StepsTogether(r, r1, r2, q, {c, v}, c);
    }
  }

  lemma SettledHas(par: Params, r: Run, q: set<Id>, c: Id, done: set<Id>)
    requires Settled(par, r, q, c, done)
    ensures Followed(par, r, q, c) && c in Now(r).nodes && c in q && done <= q - {c}
  {
  }

  // ---- the theorems -----------------------------------------------------------

  // At c and at the others of q the command is the last of a fully committed log, which is
  // the log c had with only this command added.
  ghost predicate Done(r: Run, r2: Run, q: set<Id>, c: Id, p: Payload) {
    && c in q && q <= Now(r).nodes.Keys && q <= Now(r2).nodes.Keys
    && var n, n2 := Now(r).nodes[c], Now(r2).nodes[c];
    && n2.role == Leader && n2.log == n.log + [Entry(n2.term, p)] && n2.commit == |n2.log|
    && forall v | v in q :: Applies(n2, Now(r2).nodes[v])
  }

  // A leader with an entry of its own term last gets everything committed and applied.
  lemma Finishes(par: Params, r: Run, q: set<Id>, c: Id) returns (r2: Run)
    requires Followed(par, r, q, c) && Majority(q, Voters(par, Now(r).nodes[c])) && |Voters(par, Now(r).nodes[c])| > 1
    requires LastTerm(Now(r).nodes[c].log) == Now(r).nodes[c].term && Now(r).nodes[c].log != []
    ensures Onward(par, r, r2, q, {}) && Followed(par, r2, q, c) && c in Now(r).nodes && c in Now(r2).nodes && q <= Now(r2).nodes.Keys
    ensures SameLeader(Now(r).nodes[c], Now(r2).nodes[c]) && Now(r2).nodes[c].commit == |Now(r2).nodes[c].log|
    ensures forall v | v in q :: Applies(Now(r2).nodes[c], Now(r2).nodes[v])
  {
    hide IsRun, Onward, Followed, Settled, Majority, ConfigOf, Abreast, OthersStay, Applies;
    FollowedHas(par, r, q, c);
    var r1 := Commits(par, r, q, c);
    FollowedHas(par, r1, q, c);
    NowSettled(par, r1, q, c);
    r2 := AllApply(par, r1, q, c, {});
    OnwardTransitive(par, r, r1, r2, q, {});
    SettledHas(par, r2, q, c, q - {c});
    SettledAll(par, r2, q, c);
  }

  // A server backed by a majority of its configuration gets any new command committed, and
  // applied by all of them.
  lemma CommandPossible(par: Params, r: Run, q: set<Id>, c: Id, p: Payload) returns (r2: Run)
    requires Backs(par, r, q, c) && !p.Config? && IsNew(Now(r).nodes[c].log, 0, CommandOf(p))
    ensures Onward(par, r, r2, q, {Label(c, Command(p))}) && Done(r, r2, q, c, p) && Followed(par, r2, q, c)
  {
    hide IsRun, Onward, IsNew, Backs, Followed, Majority, ConfigOf, Applies, OthersStay;
    var asked := {Label(c, Command(p))};
    BacksHas(par, r, q, c);
    var r1 := GetsElected(par, r, q, c);
    FollowedHas(par, r1, q, c);
    var ra := AppendsCommand(par, r1, q, c, p);
    FollowedHas(par, ra, q, c);
    assert Now(ra).nodes[c].log != [] && LastTerm(Now(ra).nodes[c].log) == Now(ra).nodes[c].term;
    r2 := Finishes(par, ra, q, c);
    AskedToo(par, r, r1, q, asked);
    AskedToo(par, ra, r2, q, asked);
    OnwardTransitive(par, r, r1, ra, q, asked);
    OnwardTransitive(par, r, ra, r2, q, asked);
  }

  lemma BacksHas(par: Params, r: Run, q: set<Id>, c: Id)
    requires Backs(par, r, q, c)
    ensures IsRun(par, r) && c in q && q <= Now(r).nodes.Keys
    ensures Majority(q, Voters(par, Now(r).nodes[c])) && |Voters(par, Now(r).nodes[c])| > 1
  {
  }

  lemma NowSettled(par: Params, r: Run, q: set<Id>, c: Id)
    requires Followed(par, r, q, c) && Abreast(r, c, q - {c}) && Now(r).nodes[c].commit == |Now(r).nodes[c].log|
    ensures Settled(par, r, q, c, {})
  {
  }

  lemma SettledAll(par: Params, r: Run, q: set<Id>, c: Id)
    requires Settled(par, r, q, c, q - {c})
    ensures q <= Now(r).nodes.Keys && c in q && Now(r).nodes[c].role == Leader && Now(r).nodes[c].commit == |Now(r).nodes[c].log|
    ensures forall v | v in q :: Applies(Now(r).nodes[c], Now(r).nodes[v])
  {
  }

  // Of the logs of some servers one is at least as up to date as all.
  lemma {:induction false} MostUpToDate(s: Sys, q: set<Id>) returns (c: Id)
    requires q <= s.nodes.Keys && q != {}
    ensures c in q && forall v | v in q :: AtLeast(LastTerm(s.nodes[c].log), |s.nodes[c].log|, s.nodes[v].log)
    decreases |q|
  {
    var v :| v in q;
    c := v;
    if q != {v} {
      assert q - {v} != {} by {
        assert q == (q - {v}) + {v};
      }
      var d := MostUpToDate(s, q - {v});
      if AtLeast(LastTerm(s.nodes[d].log), |s.nodes[d].log|, s.nodes[v].log) {
        c := d;
      }
    }
  }

  // From every reachable state, whatever was lost, crashed or changed before: a majority that
  // agrees on its configuration, of two servers or more, can get any new command committed
  // and applied, with one request to one of them and otherwise by itself, its members
  // restarted if they were down.
  lemma NeverStuck(par: Params, r: Run, q: set<Id>, config: set<Id>, p: Payload) returns (r2: Run, c: Id)
    requires IsRun(par, r) && q <= Now(r).nodes.Keys && q <= config && Majority(q, config) && |config| > 1
    requires forall v | v in q :: Voters(par, Now(r).nodes[v]) == config
    requires !p.Config? && forall v | v in q :: IsNew(Now(r).nodes[v].log, 0, CommandOf(p))
    ensures Onward(par, r, r2, q, {Label(c, Command(p))}) && Done(r, r2, q, c, p) && Followed(par, r2, q, c)
  {
    hide IsRun, Onward, IsNew, AtLeast, ConfigOf, Applies;
    CardinalityOfSubset(q * config, q);
    var r1 := Restarts(par, r, q, {});
    GoneOn(par, r, r1, q, {});
    c := MostUpToDate(Now(r1), q);
    r2 := CommandPossible(par, r1, q, c, p);
    AskedToo(par, r, r1, q, {Label(c, Command(p))});
    OnwardTransitive(par, r, r1, r2, q, {Label(c, Command(p))});
  }

  // ---- a cluster of one -------------------------------------------------------

  ghost predicate NothingMoves(par: Params, s: Sys) {
    && s.net == {}
    && forall a | a in s.nodes :: s.nodes[a].commit == 0 && !s.nodes[a].confirmed && Voters(par, s.nodes[a]) == par.initial && (s.nodes[a].role == Leader ==> a in par.initial)
  }

  // Two servers are needed: a cluster configured with one commits nothing, because commits
  // are only looked for when an answer comes in.
  lemma {:induction false} LoneVoterNeverCommits(par: Params, r: Run, i: nat, a: Id)
    requires IsRun(par, r) && |par.initial| <= 1 && i < |r.states| && a in r.states[i].nodes
    ensures r.states[i].nodes[a].commit == 0
  {
    hide React;
    MovesNothing(par, r, i);
  }

  lemma {:induction false} MovesNothing(par: Params, r: Run, i: nat)
    requires IsRun(par, r) && |par.initial| <= 1 && i < |r.states|
    ensures NothingMoves(par, r.states[i])
    decreases i
  {
    hide React, Voters;
    if i == 0 {
      StartsStill(par, r.states[0]);
    } else {
      MovesNothing(par, r, i - 1);
      var s, l := r.states[i - 1], r.labels[i - 1];
      BoundsAt(par, r, i - 1, l.who);
      StandsStill(par, l.who, s.nodes[l.who], l.event);
    }
  }

  lemma StartsStill(par: Params, s: Sys)
    requires Init(par, s)
    ensures NothingMoves(par, s)
  {
  }

  lemma StandsStill(par: Params, id: Id, n: Node, ev: Event)
    requires |par.initial| <= 1 && n.commit == 0 && n.base == 0 && !n.confirmed && Voters(par, n) == par.initial && !ev.Receive?
    requires (ev.Command? ==> !ev.payload.Config?) && (n.role == Leader ==> id in par.initial)
    ensures var o := React(par, id, n, ev);
            && o.sends == {} && o.node.commit == 0 && !o.node.confirmed && Voters(par, o.node) == par.initial
            && (o.node.role == Leader ==> id in par.initial)
  {
    hide ConfigOf, ClientIndex, AppendFor, Majority;
    SameConfig(par, n.log, Entry(n.term, if ev.Command? && !ev.payload.Config? then ev.payload else Opaque("")));
    if id in par.initial {
      assert par.initial == {id} + (par.initial - {id});
      assert par.initial - {id} == {};
    }
  }

  // ---- membership changes -----------------------------------------------------

  // A server at the end of whose log everything is committed, with an entry of its own term
  // last, gets any change of one other server adopted and committed by a set of servers
  // that is a majority both before and after.
  lemma ChangePossible(par: Params, r: Run, q: set<Id>, c: Id, voters: set<Id>) returns (r2: Run)
    requires Followed(par, r, q, c) && q <= voters <= par.servers && Majority(q, voters) && |voters| > 1
    requires var n := Now(r).nodes[c];
             && OneApart(voters, Voters(par, n))
             && n.commit == |n.log| > 0 && LastTerm(n.log) == n.term
    ensures Onward(par, r, r2, q, {Label(c, Change(voters))}) && Done(r, r2, q, c, Config(voters))
    ensures forall v | v in q && |Now(r2).nodes[v].log| == |Now(r2).nodes[c].log| :: Voters(par, Now(r2).nodes[v]) == voters
  {
    hide IsRun, React, Followed, ConfigOf, Majority, OneApart, Onward, Applies;
    var asked := {Label(c, Change(voters))};
    FollowedHas(par, r, q, c);
    var r1 := Adopts(par, r, q, c, voters);
    FollowedHas(par, r1, q, c);
    r2 := Finishes(par, r1, q, c);
    AskedToo(par, r1, r2, q, asked);
    OnwardTransitive(par, r, r1, r2, q, asked);
    SameVoters(par, r2, q, c);
  }

  lemma Adopts(par: Params, r: Run, q: set<Id>, c: Id, voters: set<Id>) returns (r2: Run)
    requires Followed(par, r, q, c) && q <= voters <= par.servers && OneApart(voters, Voters(par, Now(r).nodes[c]))
    requires var n := Now(r).nodes[c]; n.commit == |n.log| > 0 && LastTerm(n.log) == n.term
    ensures Onward(par, r, r2, q, {Label(c, Change(voters))}) && Followed(par, r2, q, c)
    ensures var n, n2 := Now(r).nodes[c], Now(r2).nodes[c];
            n2.log == n.log + [Entry(n.term, Config(voters))] && n2.term == n.term && n2.role == Leader && Voters(par, n2) == voters
  {
    hide IsRun, React, NextFor, MatchFor, Voters, BringsUp, OneApart;
    Started(par, r);
    LeaderFacts(par, r, c);
    ChangeExactly(par, r, |r.states| - 1, c, voters);
    assert ChangeDue(par, c, Now(r).nodes[c], voters);
    r2 := Goes(par, r, Label(c, Change(voters)), q, {Label(c, Change(voters))});
  }

  lemma SameVoters(par: Params, r: Run, q: set<Id>, c: Id)
    requires q <= Now(r).nodes.Keys && c in q && forall v | v in q :: Applies(Now(r).nodes[c], Now(r).nodes[v])
    ensures forall v | v in q && |Now(r).nodes[v].log| == |Now(r).nodes[c].log| :: Voters(par, Now(r).nodes[v]) == Voters(par, Now(r).nodes[c])
  {
    hide ConfigOf;
    forall v | v in q && |Now(r).nodes[v].log| == |Now(r).nodes[c].log|
      ensures Now(r).nodes[v].log == Now(r).nodes[c].log
    {
      assert Applies(Now(r).nodes[c], Now(r).nodes[v]);
    }
  }

  // ---- reads ------------------------------------------------------------------

  // The last step answered this read from this state.
  ghost predicate Answered(par: Params, r: Run, c: Id, command: KvStore.Command, store: KvStore.Store) {
    && |r.states| == |r.labels| + 1 && r.labels != []
    && var i := |r.labels| - 1;
    && r.labels[i].who == c && c in r.states[i].nodes
    && Outcome(par, r.states[i], r.labels[i]).applied == [Applied(command, KvStore.Read(store, command))]
  }

  // The read is pending; those of q that confirmed are no majority yet, the others are asked.
  ghost predicate Asking(par: Params, r: Run, q: set<Id>, c: Id, rid: nat, command: KvStore.Command, done: set<Id>) {
    && Followed(par, r, q, c) && done <= q - {c}
    && var n := Now(r).nodes[c];
    && rid in n.pending && n.pending[rid].command == command && done + {c} <= n.pending[rid].acks
    && !Majority(n.pending[rid].acks, Voters(par, n))
    && forall v | v in q - {c} :: Packet(v, ReadHeartbeat(n.term, c, rid)) in Now(r).net
  }

  // A voter's confirmation is on its way to the leader.
  lemma AskedConfirms(par: Params, r: Run, q: set<Id>, c: Id, rid: nat, command: KvStore.Command, done: set<Id>, v: Id)
    returns (r2: Run)
    requires Asking(par, r, q, c, rid, command, done) && v in q - {c}
    ensures Onward(par, r, r2, q, {}) && Asking(par, r2, q, c, rid, command, done) && c in Now(r).nodes && c in Now(r2).nodes
    ensures Now(r2).nodes[c] == Now(r).nodes[c] && Packet(c, ReadAck(Now(r).nodes[c].term, v, rid)) in Now(r2).net
  {
    hide IsRun, React, ConfigOf, Majority;
    var n, x := Now(r).nodes[c], Now(r).nodes[v];
    ReadHeartbeatAnswered(par, v, x, ReadHeartbeat(n.term, c, rid));
    r2 := Delivers(par, r, q, v, ReadHeartbeat(n.term, c, rid));
  }

  lemma OneConfirms(par: Params, r: Run, q: set<Id>, c: Id, rid: nat, command: KvStore.Command, done: set<Id>, v: Id)
    returns (r2: Run, answered: bool)
    requires Asking(par, r, q, c, rid, command, done) && v in q - {c} - done && c in Now(r).nodes
    requires Packet(c, ReadAck(Now(r).nodes[c].term, v, rid)) in Now(r).net
    ensures Onward(par, r, r2, q, {}) && c in Now(r2).nodes
    ensures Now(r2).nodes[c].log == Now(r).nodes[c].log && Now(r2).nodes[c].commit == Now(r).nodes[c].commit
    ensures if answered then Answered(par, r2, c, command, StateAfter(Take(Now(r).nodes[c].log, Now(r).nodes[c].commit)).store)
            else Asking(par, r2, q, c, rid, command, done + {v})
  {
    hide IsRun, React, ConfigOf, StateAfter, Followed;
    FollowedHas(par, r, q, c);
    var n, m: Message<Log> := Now(r).nodes[c], ReadAck(Now(r).nodes[c].term, v, rid);
    FollowedLeads(par, r, q, c);
    ReadServedExactly(par, r, |r.states| - 1, c, m);
    r2 := Delivers(par, r, q, c, m);
    StillFollowed(par, r, r2, q, c);
    var acks := n.pending[rid].acks + {v};
    answered := 2 * |acks * Voters(par, n)| > |Voters(par, n)|;
    assert r2.states[|r2.labels| - 1] == Now(r);
  }

  lemma FollowedLeads(par: Params, r: Run, q: set<Id>, c: Id)
    requires Followed(par, r, q, c)
    ensures IsRun(par, r) && |r.states| == |r.labels| + 1 && c in Now(r).nodes && Now(r).nodes[c].role == Leader
  {
  }

  lemma StillFollowed(par: Params, r: Run, r2: Run, q: set<Id>, c: Id)
    requires Followed(par, r, q, c) && IsRun(par, r2) && OthersStay(r, r2, {c})
    requires var n, n2 := Now(r).nodes[c], Now(r2).nodes[c];
             n2.role == n.role && n2.log == n.log && n2.term == n.term && n2.alive == n.alive
    ensures Followed(par, r2, q, c)
  {
    hide IsRun, ConfigOf;
  }

  // Majority by majority of confirmations, the read is answered.
  lemma {:induction false} GetsAnswer(par: Params, r: Run, q: set<Id>, c: Id, rid: nat, command: KvStore.Command, done: set<Id>)
    returns (r2: Run)
    requires Asking(par, r, q, c, rid, command, done) && c in Now(r).nodes && Majority(q, Voters(par, Now(r).nodes[c]))
    ensures Onward(par, r, r2, q, {})
    ensures Answered(par, r2, c, command, StateAfter(Take(Now(r).nodes[c].log, Now(r).nodes[c].commit)).store)
    decreases |q - {c} - done|
  {
    hide IsRun, ConfigOf, StateAfter, Majority, Asking, Answered, Onward;
    var n := Now(r).nodes[c];
    AskingHas(par, r, q, c, rid, command, done);
    VotesShort(q, n.pending[rid].acks, Voters(par, n), c, done);
    var v := OneOf(q - {c}, done);
    var r1 := AskedConfirms(par, r, q, c, rid, command, done, v);
    var answered;
    r2, answered := OneConfirms(par, r1, q, c, rid, command, done, v);
    OnwardTransitive(par, r, r1, r2, q, {});
    if !answered {
      var ra := r2;
      r2 := GetsAnswer(par, ra, q, c, rid, command, done + {v});
      OnwardTransitive(par, r, ra, r2, q, {});
    }
  }

  lemma AskingHas(par: Params, r: Run, q: set<Id>, c: Id, rid: nat, command: KvStore.Command, done: set<Id>)
    requires Asking(par, r, q, c, rid, command, done)
    ensures c in Now(r).nodes && done <= q - {c} && rid in Now(r).nodes[c].pending && done + {c} <= Now(r).nodes[c].pending[rid].acks
    ensures !Majority(Now(r).nodes[c].pending[rid].acks, Voters(par, Now(r).nodes[c]))
  {
  }

  // A leader that has committed in its own term gets any read answered, from the state
  // everything it has committed leads to.
  lemma ReadPossible(par: Params, r: Run, q: set<Id>, c: Id, command: KvStore.Command) returns (r2: Run)
    requires Followed(par, r, q, c) && Majority(q, Voters(par, Now(r).nodes[c])) && OwnCommitted(Now(r).nodes[c])
    ensures Onward(par, r, r2, q, {Label(c, ReadRequest(command))})
    ensures Answered(par, r2, c, command, StateAfter(Take(Now(r).nodes[c].log, Now(r).nodes[c].commit)).store)
  {
    hide IsRun, React, ConfigOf, StateAfter;
    var n, asked := Now(r).nodes[c], {Label(c, ReadRequest(command))};
    FollowedLeads(par, r, q, c);
    ReadTakenExactly(par, r, |r.states| - 1, c, command);
    r2 := Goes(par, r, Label(c, ReadRequest(command)), q, asked);
    assert r2.states[|r2.labels| - 1] == Now(r);
    AloneIsMajority(c, Voters(par, n));
    if Voters(par, n) != {c} {
      var r1 := r2;
      StillFollowed(par, r, r1, q, c);
      assert Asking(par, r1, q, c, n.nextRead, command, {});
      r2 := GetsAnswer(par, r1, q, c, n.nextRead, command, {});
      AskedToo(par, r1, r2, q, asked);
      OnwardTransitive(par, r, r1, r2, q, asked);
    }
  }
}
