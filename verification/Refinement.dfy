// What the server class asks of the messages it handles holds of every message in flight:
// entries continue a log the server can merge them into without touching what it committed,
// acknowledgements never point past a leader's log, and images are committed prefixes whose
// configurations name existing servers. And messages go, and are answered, only where there
// is a server, so a step always has somebody to deliver to.
module Refinement {
  import opened Prelude
  import opened RaftTypes
  import opened RaftSpec
  import opened History
  import opened Completeness
  import opened Invariant
  import opened Moves
  import opened NodeViews
  import opened Safety

  // Configurations in a leader's log name existing servers.
  lemma ReignConfigs(par: Params, h: Hist, t: nat)
    requires Elections(par, h) && t in h.reigns
    ensures ConfigsWithin(par.servers, h.reigns[t].log)
  {
    hide GuardOk;
    var l := h.reigns[t].log;
    ReignGrounded(par, h, t);
    forall i | 0 <= i < |l| && l[i].payload.Config?
      ensures l[i].payload.voters <= par.servers
    {
      EntryGuard(par, h, l, i);
      GuardServers(par, h, l[i].term, l[..i], l[i].payload.voters);
    }
  }

  lemma GuardServers(par: Params, h: Hist, t: nat, before: Log, voters: set<Id>)
    requires GuardOk(par, h, t, before, voters)
    ensures voters <= par.servers
  {
  }

  lemma WithinPart(servers: set<Id>, l: Log, i: nat, j: nat)
    requires ConfigsWithin(servers, l) && i <= j <= |l|
    ensures ConfigsWithin(servers, l[i..j])
  {
    forall k | 0 <= k < j - i && l[i..j][k].payload.Config?
      ensures l[i..j][k].payload.voters <= servers
    {
      assert l[i..j][k] == l[i + k];
    }
  }

  lemma AppendFits(par: Params, h: Hist, id: Id, n: Node, m: Message<Log>)
    requires HistOk(par, h) && LogOk(h, n) && MsgOk(h, Packet(id, m)) && m.AppendEntries?
    ensures Fits(par, n, m)
  {
    hide HistOk, Grounded, Decided;
    if m.term >= n.term {
      var l := h.reigns[m.term].log;
      HistRecords(par, h);
      ReignConfigs(par, h, m.term);
      WithinPart(par.servers, l, m.prevIndex, m.prevIndex + |m.entries|);
      CommittedHeld(par, h, n, m.term);
      var at, es := PrevIndex(n, m), m.entries[RaftSpec.Covered(n, m)..];
      forall i | 0 <= i < |es| && at + i < n.commit && at + i < |n.log|
        ensures n.log[at + i].term == es[i].term
      {
        assert n.log[at + i] == n.log[..n.commit][at + i] == l[at + i];
      }
    }
  }

  lemma ImageFits(par: Params, h: Hist, id: Id, n: Node, m: Message<Log>)
    requires HistOk(par, h) && MsgOk(h, Packet(id, m)) && m.InstallSnapshot?
    ensures Fits(par, n, m)
  {
    hide HistOk, Grounded, Decided;
    HistRecords(par, h);
    ReignConfigs(par, h, m.term);
    WithinPart(par.servers, h.reigns[m.term].log, 0, |m.image|);
    assert h.reigns[m.term].log[0..|m.image|] == m.image;
  }

  lemma InFlightFits(par: Params, h: Hist, id: Id, n: Node, m: Message<Log>)
    requires HistOk(par, h) && NodeOk(par, h, id, n) && MsgOk(h, Packet(id, m))
    ensures Fits(par, n, m)
  {
    hide HistOk, NodeOk;
    Parts(par, h, id, n);
    match m
    case AppendEntries(_, _, _, _, _, _) => AppendFits(par, h, id, n, m);
    case InstallSnapshot(_, _, _, _, _) => ImageFits(par, h, id, n, m);
    case _ =>
  }

  // ---- every message has an existing sender and receiver ----------------------

  function From(m: Message<Log>): Id {
    match m
    case RequestVote(_, c, _, _) => c
    case VoteReply(_, v, _) => v
    case AppendEntries(_, l, _, _, _, _) => l
    case AppendReply(_, f, _, _) => f
    case InstallSnapshot(_, l, _, _, _) => l
    case ReadHeartbeat(_, l, _) => l
    case ReadAck(_, f, _) => f
  }

  ghost predicate Addressed(par: Params, s: Sys) {
    forall p | p in s.net :: p.dst in par.servers && From(p.msg) in par.servers
  }

  // A server writes to voters of its configuration, or answers.
  ghost predicate WritesTo(id: Id, vs: set<Id>, sends: set<Packet<Log>>) {
    forall p | p in sends :: From(p.msg) == id && p.dst in vs
  }

  lemma HeartbeatsGo(par: Params, id: Id, n: Node)
    ensures WritesTo(id, Voters(par, n), Heartbeats(par, id, n))
    ensures forall v :: From(AppendFor(id, n, v).msg) == id && AppendFor(id, n, v).dst == v
  {
    hide ConfigOf;
  }

  lemma WinGoes(par: Params, id: Id, n: Node)
    ensures WritesTo(id, Voters(par, n), MaybeWin(par, id, n).sends)
  {
    hide Heartbeats, Majority, ClientIndex, ConfigOf;
    HeartbeatsGo(par, id, BecomeLeader(par, id, n));
  }

  lemma HandleGoes(par: Params, id: Id, n: Node, m: Message<Log>)
    ensures WritesTo(id, Voters(par, n) + {From(m)}, Handle(par, id, n, m).sends)
  {
    hide OnRequestVote, OnVoteReply, OnAppendEntries, OnAppendReply, OnInstallSnapshot, OnReadHeartbeat, OnReadAck, ConfigOf;
    match m
    case RequestVote(_, _, _, _) => VotesGo(par, id, n, m);
    case VoteReply(_, _, _) => VotesGo(par, id, n, m);
    case AppendEntries(_, _, _, _, _, _) => AppendGoes(par, id, n, m);
    case AppendReply(_, _, _, _) => ReplyGoes(par, id, n, m);
    case InstallSnapshot(_, _, _, _, _) => AppendGoes(par, id, n, m);
    case ReadHeartbeat(_, _, _) => ReadsGo(par, id, n, m);
    case ReadAck(_, _, _) => ReadsGo(par, id, n, m);
  }

  lemma VotesGo(par: Params, id: Id, n: Node, m: Message<Log>)
    ensures m.RequestVote? ==> WritesTo(id, {From(m)}, OnRequestVote(id, n, m).sends)
    ensures m.VoteReply? ==> WritesTo(id, Voters(par, n), OnVoteReply(par, id, n, m).sends)
  {
    hide MaybeWin, Grants, ConfigOf;
    if m.VoteReply? {
      WinGoes(par, id, n.(votes := n.votes + {m.voter}));
    }
  }

  lemma AppendGoes(par: Params, id: Id, n: Node, m: Message<Log>)
    ensures m.AppendEntries? ==> WritesTo(id, {From(m)}, OnAppendEntries(par, id, n, m).sends)
    ensures m.InstallSnapshot? ==> WritesTo(id, {From(m)}, OnInstallSnapshot(par, id, n, m).sends)
  {
    hide Consistent, SetCommit, Merge, PrevIndex, RaftSpec.Covered, Install;
  }

  lemma ReplyGoes(par: Params, id: Id, n: Node, m: Message<Log>)
    ensures m.AppendReply? ==> WritesTo(id, {From(m)}, OnAppendReply(par, id, n, m).sends)
  {
    hide ApplyRange, CommitScan, AppendFor, NextFor, MatchFor;
    if m.AppendReply? {
      HeartbeatsGo(par, id, n.(next := n.next[m.follower := Max(1, NextFor(n, m.follower) - 1)]));
    }
  }

  lemma ReadsGo(par: Params, id: Id, n: Node, m: Message<Log>)
    ensures m.ReadHeartbeat? ==> WritesTo(id, {From(m)}, OnReadHeartbeat(id, n, m).sends)
    ensures m.ReadAck? ==> OnReadAck(par, n, m).sends == {}
  {
    hide Majority, ConfigOf, StateAfter;
  }

  lemma ReactGoes(par: Params, id: Id, n: Node, ev: Event)
    ensures var vs := Voters(par, n) + Voters(par, React(par, id, n, ev).node) + if ev.Receive? then {From(ev.msg)} else {};
            WritesTo(id, vs, React(par, id, n, ev).sends)
  {
    hide Heartbeats, ConfigOf, MaybeWin, Handle, StateAfter, Majority;
    match ev
    case ElectionTimeout =>
      WinGoes(par, id, n.(term := n.term + 1, role := Candidate, votedFor := Some(id), votes := {id}));
    case HeartbeatTimeout => HeartbeatsGo(par, id, n);
    case Receive(m) => HandleGoes(par, id, n, m);
    case Command(p) => HeartbeatsGo(par, id, ClientCommand(par, id, n, p).node);
    case Change(voters) => HeartbeatsGo(par, id, ChangeConfig(par, id, n, voters).node);
    case _ =>
  }

  lemma VotersExist(par: Params, h: Hist, id: Id, n: Node)
    requires HistOk(par, h) && NodeOk(par, h, id, n)
    ensures Voters(par, n) <= par.servers
  {
    hide HistOk, NodeOk;
    Parts(par, h, id, n);
    HistRecords(par, h);
    ConfigNamesServers(par, h, n.log);
  }

  lemma StepAddressed(par: Params, s: Sys, h: Hist, l: Label, h2: Hist)
    requires Inv(par, s, h) && Enabled(par, s, l) && Inv(par, After(par, s, l), h2) && Addressed(par, s)
    ensures Addressed(par, After(par, s, l))
  {
    hide HistOk, NodeOk, SendsOk, React, ConfigOf;
    var n, s2 := s.nodes[l.who], After(par, s, l);
    assert NodeOk(par, h, l.who, s.nodes[l.who]);
    assert NodeOk(par, h2, l.who, s2.nodes[l.who]);
    VotersExist(par, h, l.who, n);
    VotersExist(par, h2, l.who, s2.nodes[l.who]);
    ReactGoes(par, l.who, n, l.event);
    if l.event.Receive? {
      assert Packet(l.who, l.event.msg) in s.net;
    }
  }
}
