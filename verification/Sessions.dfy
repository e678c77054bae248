// Leader-side deduplication: without compaction no log of any server ever holds two
// entries of one client out of order, so none holds a request twice, however many servers
// believe they lead.
module Sessions {
  import opened Prelude
  import opened RaftTypes
  import opened RaftSpec
  import opened History
  import opened Invariant
  import opened Moves
  import opened Handlers
  import opened Safety
  import KvStore

  // ---- what a leader's log can become in one step -----------------------------

  predicate OwnEntry(n: Node, ev: Event, e: Entry) {
    e.term == n.term && ((ev.Command? && e.payload == ev.payload) || (ev.Change? && e.payload == Config(ev.voters)))
  }

  // A server that leads after a step has the log it had, or that log and one new entry,
  // the one the event asked for.
  lemma LeaderLogStep(par: Params, id: Id, n: Node, ev: Event)
    ensures var n2 := React(par, id, n, ev).node;
            n2.role == Leader ==> n2.log == n.log || (exists e :: OwnEntry(n, ev, e) && n2.log == n.log + [e])
  {
    hide Heartbeats, StateAfter, ApplyRange, ClientIndex, Replicated, Majority, AppendFor, Merge, ConfigOf, Take;
    match ev
    case Command(p) =>
      assert OwnEntry(n, ev, Entry(n.term, p)) || true;
      CommandLog(par, id, n, p);
    case Change(voters) =>
      ChangeLog(par, id, n, voters);
    case Receive(m) =>
      ReceiveLog(par, id, n, m);
    case _ =>
  }

  lemma CommandLog(par: Params, id: Id, n: Node, p: Payload)
    ensures var n2 := ClientCommand(par, id, n, p).node;
            n2.log == n.log || (OwnEntry(n, Command(p), Entry(n.term, p)) && n2.log == n.log + [Entry(n.term, p)])
  {
    hide Heartbeats;
  }

  lemma ChangeLog(par: Params, id: Id, n: Node, voters: set<Id>)
    ensures var n2, e := ChangeConfig(par, id, n, voters).node, Entry(n.term, Config(voters));
            n2.log == n.log || (OwnEntry(n, Change(voters), e) && n2.log == n.log + [e])
  {
    hide Heartbeats, ConfigOf;
  }

  // No message changes the log of a server that leads afterwards.
  lemma ReceiveLog(par: Params, id: Id, n: Node, m: Message<Log>)
    ensures Handle(par, id, n, m).node.role == Leader ==> Handle(par, id, n, m).node.log == n.log
  {
    hide OnRequestVote, OnVoteReply, OnAppendEntries, OnAppendReply, OnInstallSnapshot, OnReadHeartbeat, OnReadAck;
    match m
    case RequestVote(_, _, _, _) => VotesLog(par, id, n, m);
    case VoteReply(_, _, _) => VotesLog(par, id, n, m);
    case AppendEntries(_, _, _, _, _, _) => FollowerLog(par, id, n, m);
    case AppendReply(_, _, _, _) => ReplyLog(par, id, n, m);
    case InstallSnapshot(_, _, _, _, _) => FollowerLog(par, id, n, m);
    case ReadHeartbeat(_, _, _) => ReadsLog(par, id, n, m);
    case ReadAck(_, _, _) => ReadsLog(par, id, n, m);
  }

  lemma VotesLog(par: Params, id: Id, n: Node, m: Message<Log>)
    ensures m.RequestVote? ==> OnRequestVote(id, n, m).node.log == n.log
    ensures m.VoteReply? ==> OnVoteReply(par, id, n, m).node.log == n.log
  {
    hide Heartbeats, ClientIndex, Majority, ConfigOf, UpToDate;
  }

  lemma ReadsLog(par: Params, id: Id, n: Node, m: Message<Log>)
    ensures m.ReadHeartbeat? ==> OnReadHeartbeat(id, n, m).node.log == n.log
    ensures m.ReadAck? ==> OnReadAck(par, n, m).node.log == n.log
  {
    hide StateAfter, Majority, ConfigOf;
  }

  lemma ReplyLog(par: Params, id: Id, n: Node, m: Message<Log>)
    ensures m.AppendReply? ==> OnAppendReply(par, id, n, m).node.log == n.log
  {
    hide ApplyRange, CommitScan, AppendFor, NextFor, MatchFor;
  }

  // Hearing from a leader of the term makes a follower, whatever the log becomes.
  lemma FollowerLog(par: Params, id: Id, n: Node, m: Message<Log>)
    ensures m.AppendEntries? ==> OnAppendEntries(par, id, n, m).node == n || OnAppendEntries(par, id, n, m).node.role == Follower
    ensures m.InstallSnapshot? ==> OnInstallSnapshot(par, id, n, m).node == n || OnInstallSnapshot(par, id, n, m).node.role == Follower
  {
    hide Accept, Consistent, TermAt;
    if m.AppendEntries? {
      AcceptFollows(par, id, Heard(n, m.term), m);
    }
  }

  lemma AcceptFollows(par: Params, id: Id, f: Node, m: Message<Log>)
    requires m.AppendEntries?
    ensures Accept(par, id, f, m).node.role == f.role
    ensures par.threshold == 0 ==> Accept(par, id, f, m).node.base == f.base
    ensures forall p | p in Accept(par, id, f, m).sends :: p.msg.AppendReply?
  {
    hide ApplyRange, Merge, Covered, PrevIndex;
  }

  // ---- increasing request ids -------------------------------------------------

  // Later entries of a client carry larger request ids.
  ghost predicate Increasing(log: Log) {
    forall x, y | 0 <= x < y < |log| :: Ascends(CommandOf(log[x].payload), CommandOf(log[y].payload))
  }

  predicate Ascends(a: KvStore.Command, b: KvStore.Command) {
    KvStore.Structured(a) && KvStore.Structured(b) && a.client == b.client ==> a.req < b.req
  }

  lemma {:induction false} IndexBounds(log: Log, x: nat)
    requires x < |log| && KvStore.Structured(CommandOf(log[x].payload))
    ensures CommandOf(log[x].payload).req <= IndexFor(ClientIndex(log), CommandOf(log[x].payload).client)
  {
    var n := |log| - 1;
    if x < n {
      IndexBounds(log[..n], x);
    }
  }

  lemma IncreasingMore(log: Log, e: Entry)
    requires Increasing(log)
    requires var c := CommandOf(e.payload); KvStore.Structured(c) ==> c.req > IndexFor(ClientIndex(log), c.client)
    ensures Increasing(log + [e])
  {
    forall x, y | 0 <= x < y < |log + [e]|
      ensures Ascends(CommandOf((log + [e])[x].payload), CommandOf((log + [e])[y].payload))
    {
      if y == |log| && KvStore.Structured(CommandOf(log[x].payload)) {
        IndexBounds(log, x);
      }
    }
  }

  // What holds of every server when nothing is ever compacted.
  ghost predicate Uncompacted(s: Sys) {
    && (forall i | i in s.nodes :: s.nodes[i].base == 0 && (s.nodes[i].role == Leader ==> s.nodes[i].clientIndex == ClientIndex(s.nodes[i].log)))
    && (forall p | p in s.net :: !p.msg.InstallSnapshot?)
  }

  ghost predicate ReignsIncrease(h: Hist) {
    forall t | t in h.reigns :: Increasing(h.reigns[t].log)
  }

  lemma GroundedIncreases(h: Hist, x: Log)
    requires ReignsIncrease(h) && Grounded(h, x)
    ensures Increasing(x)
  {
    if x != [] {
      LastTermPrefix(h, x);
      var l := h.reigns[x[|x| - 1].term].log;
      assert Increasing(l);
      forall i, j | 0 <= i < j < |x|
        ensures Ascends(CommandOf(x[i].payload), CommandOf(x[j].payload))
      {
        assert x[i] == l[i] && x[j] == l[j];
        assert Ascends(CommandOf(l[i].payload), CommandOf(l[j].payload));
      }
    }
  }

  // ---- one step ---------------------------------------------------------------

  lemma StepUncompacted(par: Params, id: Id, n: Node, ev: Event)
    requires par.threshold == 0 && n.base == 0 && (n.role == Leader ==> n.clientIndex == ClientIndex(n.log))
    requires ev.Receive? ==> !ev.msg.InstallSnapshot?
    ensures var o := React(par, id, n, ev);
            && o.node.base == 0 && (o.node.role == Leader ==> o.node.clientIndex == ClientIndex(o.node.log))
            && forall p | p in o.sends :: !p.msg.InstallSnapshot?
  {
    hide StateAfter, ApplyRange, Replicated, Majority, Merge, ConfigOf, Take, Consistent, Install, CommitScan, ClientIndex, Handle, ClientCommand, ChangeConfig, StartElection;
    match ev
    case ElectionTimeout => ElectionUncompacted(par, id, n);
    case HeartbeatTimeout => HeartbeatsUncompacted(par, id, n);
    case Command(p) => CommandUncompacted(par, id, n, p);
    case Change(voters) => ChangeUncompacted(par, id, n, voters);
    case Receive(m) => HandleUncompacted(par, id, n, m);
    case ReadRequest(c) =>
    case Pause =>
    case Restart =>
  }

  lemma HeartbeatsUncompacted(par: Params, id: Id, n: Node)
    requires n.base == 0
    ensures forall p | p in Heartbeats(par, id, n) :: !p.msg.InstallSnapshot?
    ensures forall v :: !AppendFor(id, n, v).msg.InstallSnapshot?
  {
  }

  lemma WinUncompacted(par: Params, id: Id, n: Node)
    requires n.base == 0 && (n.role == Leader ==> n.clientIndex == ClientIndex(n.log))
    ensures var o := MaybeWin(par, id, n);
            && o.node.base == 0 && (o.node.role == Leader ==> o.node.clientIndex == ClientIndex(o.node.log))
            && forall p | p in o.sends :: !p.msg.InstallSnapshot?
  {
    hide Heartbeats, ClientIndex, Majority, ConfigOf;
    assert Drop(n.log, 0) == n.log;
    HeartbeatsUncompacted(par, id, BecomeLeader(par, id, n));
  }

  lemma ElectionUncompacted(par: Params, id: Id, n: Node)
    requires n.base == 0 && (n.role == Leader ==> n.clientIndex == ClientIndex(n.log))
    ensures var o := React(par, id, n, ElectionTimeout);
            && o.node.base == 0 && (o.node.role == Leader ==> o.node.clientIndex == ClientIndex(o.node.log))
            && forall p | p in o.sends :: !p.msg.InstallSnapshot?
  {
    hide MaybeWin, ClientIndex, ConfigOf;
    WinUncompacted(par, id, n.(term := n.term + 1, role := Candidate, votedFor := Some(id), votes := {id}));
  }

  lemma IndexMore(n: Node, e: Entry)
    ensures ClientIndex(n.log + [e]) == Noted(ClientIndex(n.log), CommandOf(e.payload))
  {
    assert (n.log + [e])[..|n.log|] == n.log;
  }

  lemma CommandUncompacted(par: Params, id: Id, n: Node, p: Payload)
    requires n.base == 0 && (n.role == Leader ==> n.clientIndex == ClientIndex(n.log))
    ensures var o := ClientCommand(par, id, n, p);
            && o.node.base == 0 && (o.node.role == Leader ==> o.node.clientIndex == ClientIndex(o.node.log))
            && forall p | p in o.sends :: !p.msg.InstallSnapshot?
  {
    hide Heartbeats, ClientIndex;
    IndexMore(n, Entry(n.term, p));
    HeartbeatsUncompacted(par, id, ClientCommand(par, id, n, p).node);
  }

  lemma ChangeUncompacted(par: Params, id: Id, n: Node, voters: set<Id>)
    requires n.base == 0 && (n.role == Leader ==> n.clientIndex == ClientIndex(n.log))
    ensures var o := ChangeConfig(par, id, n, voters);
            && o.node.base == 0 && (o.node.role == Leader ==> o.node.clientIndex == ClientIndex(o.node.log))
            && forall p | p in o.sends :: !p.msg.InstallSnapshot?
  {
    hide Heartbeats, ClientIndex, ConfigOf, MayChange;
    IndexMore(n, Entry(n.term, Config(voters)));
    HeartbeatsUncompacted(par, id, ChangeConfig(par, id, n, voters).node);
  }

  lemma HandleUncompacted(par: Params, id: Id, n: Node, m: Message<Log>)
    requires par.threshold == 0 && n.base == 0 && (n.role == Leader ==> n.clientIndex == ClientIndex(n.log))
    requires !m.InstallSnapshot?
    ensures var o := Handle(par, id, n, m);
            && o.node.base == 0 && (o.node.role == Leader ==> o.node.clientIndex == ClientIndex(o.node.log))
            && forall p | p in o.sends :: !p.msg.InstallSnapshot?
  {
    hide OnRequestVote, OnVoteReply, OnAppendEntries, OnAppendReply, OnInstallSnapshot, OnReadHeartbeat, OnReadAck, ClientIndex;
    match m
    case RequestVote(_, _, _, _) => VotesUncompacted(par, id, n, m);
    case VoteReply(_, _, _) => VotesUncompacted(par, id, n, m);
    case AppendEntries(_, _, _, _, _, _) => AppendUncompacted(par, id, n, m);
    case AppendReply(_, _, _, _) => ReplyUncompacted(par, id, n, m);
    case ReadHeartbeat(_, _, _) => ReadUncompacted(id, n, m);
    case ReadAck(_, _, _) => ReadAckUncompacted(par, n, m);
  }

  ghost predicate Compactless(o: Out) {
    && o.node.base == 0 && (o.node.role == Leader ==> o.node.clientIndex == ClientIndex(o.node.log))
    && forall p | p in o.sends :: !p.msg.InstallSnapshot?
  }

  lemma VotesUncompacted(par: Params, id: Id, n: Node, m: Message<Log>)
    requires n.base == 0 && (n.role == Leader ==> n.clientIndex == ClientIndex(n.log))
    ensures m.RequestVote? ==> Compactless(OnRequestVote(id, n, m))
    ensures m.VoteReply? ==> Compactless(OnVoteReply(par, id, n, m))
  {
    hide MaybeWin, ClientIndex, Grants;
    if m.VoteReply? {
      WinUncompacted(par, id, n.(votes := n.votes + {m.voter}));
    }
  }

  lemma AppendUncompacted(par: Params, id: Id, n: Node, m: Message<Log>)
    requires par.threshold == 0 && n.base == 0 && (n.role == Leader ==> n.clientIndex == ClientIndex(n.log))
    ensures m.AppendEntries? ==> Compactless(OnAppendEntries(par, id, n, m))
  {
    hide Accept, Consistent, ClientIndex;
    if m.AppendEntries? {
      AcceptFollows(par, id, Heard(n, m.term), m);
    }
  }

  lemma ReplyUncompacted(par: Params, id: Id, n: Node, m: Message<Log>)
    requires par.threshold == 0 && n.base == 0 && (n.role == Leader ==> n.clientIndex == ClientIndex(n.log))
    ensures m.AppendReply? ==> Compactless(OnAppendReply(par, id, n, m))
  {
    hide ApplyRange, CommitScan, AppendFor, NextFor, MatchFor, ClientIndex;
    if m.AppendReply? {
      HeartbeatsUncompacted(par, id, n.(next := n.next[m.follower := Max(1, NextFor(n, m.follower) - 1)]));
    }
  }

  lemma ReadUncompacted(id: Id, n: Node, m: Message<Log>)
    requires n.base == 0 && (n.role == Leader ==> n.clientIndex == ClientIndex(n.log))
    ensures m.ReadHeartbeat? ==> Compactless(OnReadHeartbeat(id, n, m))
  {
    hide ClientIndex;
  }

  lemma ReadAckUncompacted(par: Params, n: Node, m: Message<Log>)
    requires m.ReadAck?
    ensures var o := OnReadAck(par, n, m);
            o.node.base == n.base && (o.node.role == Leader ==> n.role == Leader) && o.node.clientIndex == n.clientIndex
            && o.node.log == n.log && o.sends == {}
  {
    hide StateAfter, Majority, ConfigOf;
  }

  // A leader's log keeps ascending: what it appends is above all it has seen.
  lemma StepIncreases(par: Params, h: Hist, id: Id, n: Node, ev: Event)
    requires ReignsIncrease(h) && Grounded(h, n.log)
    requires n.role == Leader ==> n.clientIndex == ClientIndex(n.log)
    ensures var n2 := React(par, id, n, ev).node; n2.role == Leader ==> Increasing(n2.log)
  {
    hide Increasing, React, Heartbeats, Grounded, ClientIndex;
    var n2 := React(par, id, n, ev).node;
    GroundedIncreases(h, n.log);
    LeaderLogStep(par, id, n, ev);
    if n2.role == Leader && n2.log != n.log {
      var e :| OwnEntry(n, ev, e) && n2.log == n.log + [e];
      AppendedAbove(par, id, n, ev, e);
      IncreasingMore(n.log, e);
    }
  }

  lemma AppendedAbove(par: Params, id: Id, n: Node, ev: Event, e: Entry)
    requires n.role == Leader ==> n.clientIndex == ClientIndex(n.log)
    requires OwnEntry(n, ev, e) && React(par, id, n, ev).node.log == n.log + [e]
    ensures var c := CommandOf(e.payload); KvStore.Structured(c) ==> c.req > IndexFor(ClientIndex(n.log), c.client)
  {
    hide Heartbeats, ClientIndex, ChangeConfig;
    assert |n.log + [e]| == |n.log| + 1;
  }

  lemma ReignsStep(par: Params, s: Sys, h: Hist, l: Label, h2: Hist)
    requires Inv(par, s, h) && Enabled(par, s, l) && Extends(par, s, l, h, h2)
    requires Uncompacted(s) && ReignsIncrease(h)
    ensures ReignsIncrease(h2)
  {
    hide HistOk, NodeOk, SendsOk, React, Marked, Increasing, Grows, CommitsBy, ClientIndex, LogOk, VotesOk, AcksOk, CandidateOk, LeaderOk, ReadsOk;
    var n := s.nodes[l.who];
    assert NodeOk(par, h, l.who, s.nodes[l.who]);
    Parts(par, h, l.who, n);
    LogGrounded(h, n);
    StepIncreases(par, h, l.who, n, l.event);
  }

  lemma LogGrounded(h: Hist, n: Node)
    requires LogOk(h, n)
    ensures Grounded(h, n.log)
  {
  }

  lemma SysStep(par: Params, s: Sys, l: Label)
    requires par.threshold == 0 && Uncompacted(s) && Enabled(par, s, l)
    ensures Uncompacted(After(par, s, l))
  {
    hide React, ClientIndex;
    if l.event.Receive? {
      assert Packet(l.who, l.event.msg) in s.net;
    }
    StepUncompacted(par, l.who, s.nodes[l.who], l.event);
  }

  lemma {:induction false} RunIncreases(par: Params, r: Run, hs: seq<Hist>, i: nat)
    requires IsRun(par, r) && Told(par, r, hs) && i < |hs| && par.threshold == 0
    ensures Uncompacted(r.states[i]) && ReignsIncrease(hs[i])
    decreases i
  {
    hide Inv, Extends, Enabled, After, React;
    if i > 0 {
      RunIncreases(par, r, hs, i - 1);
      assert Inv(par, r.states[i - 1], hs[i - 1]);
      assert Extends(par, r.states[i - 1], r.labels[i - 1], hs[i - 1], hs[i]);
      SysStep(par, r.states[i - 1], r.labels[i - 1]);
      ReignsStep(par, r.states[i - 1], hs[i - 1], r.labels[i - 1], hs[i]);
    }
  }

  // In every run without compaction, the request ids of a client strictly increase along
  // the log of every server.
  lemma RequestsIncrease(par: Params, r: Run, i: nat, a: Id)
    requires IsRun(par, r) && i < |r.states| && par.threshold == 0 && a in r.states[i].nodes
    ensures Increasing(r.states[i].nodes[a].log)
  {
    hide IsRun, Increasing;
    var hs := Telling(par, r);
    RunIncreases(par, r, hs, i);
    NodeAt(par, r, hs, i, a);
    Parts(par, hs[i], a, r.states[i].nodes[a]);
    GroundedIncreases(hs[i], r.states[i].nodes[a].log);
  }

  // So every structured entry is a record high, and applying the log runs all of them: no
  // command is ever skipped as a duplicate.
  lemma NothingSkipped(par: Params, r: Run, i: nat, a: Id, k: nat)
    requires IsRun(par, r) && i < |r.states| && par.threshold == 0 && a in r.states[i].nodes
    requires k < |r.states[i].nodes[a].log|
    requires KvStore.Structured(CommandOf(r.states[i].nodes[a].log[k].payload))
    ensures KvStore.Fresh(Commands(r.states[i].nodes[a].log), k)
  {
    hide IsRun;
    RequestsIncrease(par, r, i, a);
    var cmds := Commands(r.states[i].nodes[a].log);
    HighestBelow(cmds[..k], cmds[k]);
  }

  lemma {:induction false} HighestBelow(cmds: seq<KvStore.Command>, c: KvStore.Command)
    requires forall x | 0 <= x < |cmds| :: Ascends(cmds[x], c)
    requires KvStore.Structured(c)
    ensures KvStore.Highest(cmds, c.client).Some? ==> KvStore.Highest(cmds, c.client).value < c.req
  {
    if cmds != [] {
      var n := |cmds| - 1;
      HighestBelow(cmds[..n], c);
      assert Ascends(cmds[n], c);
    }
  }
}
