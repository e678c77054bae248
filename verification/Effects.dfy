// What one step of a server shows the outside: the results it reports, the snapshots it
// sends and the reads it takes on. A step reports the entries its commit index has moved
// over, in order and with the results the committed log gives them; or one read, with the
// value of the committed log; or nothing. The snapshots it sends are prefixes of its own
// committed log, and the reads it holds afterwards are those it held or one new one.
module Effects {
  import opened Prelude
  import opened RaftTypes
  import opened RaftSpec
  import opened History
  import opened Invariant
  import opened Moves
  import opened Handlers
  import opened Reads
  import opened Safety
  import KvStore

  // ---- snapshots sent ---------------------------------------------------------

  // A snapshot message carries the compacted prefix of its sender's own log.
  ghost predicate OwnImages(o: Out) {
    forall p | p in o.sends && p.msg.InstallSnapshot? :: p.msg.image == Take(o.node.log, o.node.base)
  }

  lemma HeartbeatImages(par: Params, id: Id, n: Node)
    ensures forall p | p in Heartbeats(par, id, n) && p.msg.InstallSnapshot? :: p.msg.image == Take(n.log, n.base)
    ensures forall v :: AppendFor(id, n, v).msg.InstallSnapshot? ==> AppendFor(id, n, v).msg.image == Take(n.log, n.base)
  {
    hide ConfigOf, Take;
  }

  lemma WinImages(par: Params, id: Id, n: Node)
    ensures OwnImages(MaybeWin(par, id, n))
  {
    hide Heartbeats, Majority, ClientIndex, ConfigOf, Take;
    HeartbeatImages(par, id, BecomeLeader(par, id, n));
  }

  lemma SentImages(par: Params, id: Id, n: Node, ev: Event)
    ensures OwnImages(React(par, id, n, ev))
  {
    hide Heartbeats, ConfigOf, Take, MaybeWin, ClientCommand, ChangeConfig, RequestRead, Handle;
    match ev
    case ElectionTimeout =>
      WinImages(par, id, n.(term := n.term + 1, role := Candidate, votedFor := Some(id), votes := {id}));
    case HeartbeatTimeout => HeartbeatImages(par, id, n);
    case Receive(m) => HandleImages(par, id, n, m);
    case Command(p) => ExtendImages(par, id, n, p, {});
    case Change(voters) => ExtendImages(par, id, n, Opaque(""), voters);
    case ReadRequest(c) => ReadImages(par, id, n, c);
    case Pause =>
    case Restart =>
  }

  lemma ExtendImages(par: Params, id: Id, n: Node, p: Payload, voters: set<Id>)
    ensures OwnImages(ClientCommand(par, id, n, p)) && OwnImages(ChangeConfig(par, id, n, voters))
  {
    hide Heartbeats, ConfigOf, Take;
    HeartbeatImages(par, id, ClientCommand(par, id, n, p).node);
    HeartbeatImages(par, id, ChangeConfig(par, id, n, voters).node);
  }

  lemma ReadImages(par: Params, id: Id, n: Node, c: KvStore.Command)
    ensures OwnImages(RequestRead(par, id, n, c))
  {
    hide ConfigOf, Take, TryServe;
  }

  lemma HandleImages(par: Params, id: Id, n: Node, m: Message<Log>)
    ensures OwnImages(Handle(par, id, n, m))
  {
    hide OnRequestVote, OnVoteReply, OnAppendEntries, OnAppendReply, OnInstallSnapshot, OnReadHeartbeat, OnReadAck;
    match m
    case RequestVote(_, _, _, _) => VoteImages(par, id, n, m);
    case VoteReply(_, _, _) => VoteImages(par, id, n, m);
    case AppendEntries(_, _, _, _, _, _) => AppendImages(par, id, n, m);
    case AppendReply(_, _, _, _) => ReplyImages(par, id, n, m);
    case InstallSnapshot(_, _, _, _, _) => InstallImages(par, id, n, m);
    case ReadHeartbeat(_, _, _) => AckImages(par, id, n, m);
    case ReadAck(_, _, _) => AckImages(par, id, n, m);
  }

  lemma VoteImages(par: Params, id: Id, n: Node, m: Message<Log>)
    ensures m.RequestVote? ==> OwnImages(OnRequestVote(id, n, m))
    ensures m.VoteReply? ==> OwnImages(OnVoteReply(par, id, n, m))
  {
    hide MaybeWin, Grants, Take;
    if m.VoteReply? {
      WinImages(par, id, n.(votes := n.votes + {m.voter}));
    }
  }

  lemma AppendImages(par: Params, id: Id, n: Node, m: Message<Log>)
    ensures m.AppendEntries? ==> OwnImages(OnAppendEntries(par, id, n, m))
  {
    hide Consistent, SetCommit, Merge, PrevIndex, Covered, Take;
  }

  lemma ReplyImages(par: Params, id: Id, n: Node, m: Message<Log>)
    ensures m.AppendReply? ==> OwnImages(OnAppendReply(par, id, n, m))
  {
    hide ApplyRange, CommitScan, AppendFor, NextFor, MatchFor, Take;
    if m.AppendReply? {
      HeartbeatImages(par, id, n.(next := n.next[m.follower := Max(1, NextFor(n, m.follower) - 1)]));
    }
  }

  lemma InstallImages(par: Params, id: Id, n: Node, m: Message<Log>)
    ensures m.InstallSnapshot? ==> OwnImages(OnInstallSnapshot(par, id, n, m))
  {
    hide Install, Take;
  }

  lemma AckImages(par: Params, id: Id, n: Node, m: Message<Log>)
    ensures m.ReadHeartbeat? ==> OwnImages(OnReadHeartbeat(id, n, m))
    ensures m.ReadAck? ==> OwnImages(OnReadAck(par, n, m))
  {
    hide TryServe, Take;
    if m.ReadAck? && m.readId in n.pending {
      var r := n.pending[m.readId];
      ServeSilent(par, n.(pending := n.pending[m.readId := r.(acks := r.acks + {m.follower})]), m.readId);
    }
  }

  lemma ServeSilent(par: Params, n: Node, rid: nat)
    ensures TryServe(par, n, rid).sends == {}
  {
    hide Majority, ConfigOf;
  }

  // ---- reads taken on ---------------------------------------------------------

  // A pending read was pending before, or is the one just asked for.
  ghost predicate PendingFrom(id: Id, n: Node, ev: Event, n2: Node) {
    forall r | r in n2.pending ::
      || (r in n.pending && n2.pending[r].command == n.pending[r].command)
      || (Accepted(n, ev) && r == n.nextRead && n2.pending[r].command == ev.command)
  }

  lemma PendingStep(par: Params, id: Id, n: Node, ev: Event)
    ensures PendingFrom(id, n, ev, React(par, id, n, ev).node)
  {
    hide Heartbeats, ConfigOf, Handle, ClientIndex, Majority, StateAfter;
    if ev.Receive? {
      PendingHandled(par, id, n, ev.msg);
    }
  }

  lemma PendingHandled(par: Params, id: Id, n: Node, m: Message<Log>)
    ensures PendingFrom(id, n, Receive(m), Handle(par, id, n, m).node)
  {
    hide OnRequestVote, OnVoteReply, OnAppendEntries, OnAppendReply, OnInstallSnapshot, OnReadHeartbeat, OnReadAck;
    PendingVotes(par, id, n, m);
    PendingAppend(par, id, n, m);
    PendingReply(par, id, n, m);
    PendingReads(par, id, n, m);
  }

  lemma PendingVotes(par: Params, id: Id, n: Node, m: Message<Log>)
    ensures m.RequestVote? ==> PendingFrom(id, n, Receive(m), OnRequestVote(id, n, m).node)
    ensures m.VoteReply? ==> PendingFrom(id, n, Receive(m), OnVoteReply(par, id, n, m).node)
  {
    hide Heartbeats, ClientIndex, Majority, ConfigOf, Grants;
  }

  lemma PendingAppend(par: Params, id: Id, n: Node, m: Message<Log>)
    ensures m.AppendEntries? ==> PendingFrom(id, n, Receive(m), OnAppendEntries(par, id, n, m).node)
    ensures m.InstallSnapshot? ==> PendingFrom(id, n, Receive(m), OnInstallSnapshot(par, id, n, m).node)
  {
    hide OnAppendEntries, OnInstallSnapshot, Accepted;
    if m.AppendEntries? {
      AppendKeepsPending(par, id, n, m);
    } else if m.InstallSnapshot? {
      InstallKeepsPending(par, id, n, m);
    }
  }

  lemma AppendKeepsPending(par: Params, id: Id, n: Node, m: Message<Log>)
    requires m.AppendEntries?
    ensures OnAppendEntries(par, id, n, m).node.pending in {n.pending, map[]}
  {
    hide Accept, Consistent;
    AcceptPending(par, id, Heard(n, m.term), m);
  }

  lemma InstallKeepsPending(par: Params, id: Id, n: Node, m: Message<Log>)
    requires m.InstallSnapshot?
    ensures OnInstallSnapshot(par, id, n, m).node.pending in {n.pending, map[]}
  {
    hide TermAt;
  }

  lemma AcceptPending(par: Params, id: Id, f: Node, m: Message<Log>)
    requires m.AppendEntries?
    ensures Accept(par, id, f, m).node.pending == f.pending
  {
    hide Merge, ApplyRange, Covered, PrevIndex;
  }

  lemma PendingReply(par: Params, id: Id, n: Node, m: Message<Log>)
    ensures m.AppendReply? ==> PendingFrom(id, n, Receive(m), OnAppendReply(par, id, n, m).node)
  {
    hide ApplyRange, CommitScan, AppendFor, NextFor, MatchFor;
  }

  lemma PendingReads(par: Params, id: Id, n: Node, m: Message<Log>)
    ensures m.ReadHeartbeat? ==> PendingFrom(id, n, Receive(m), OnReadHeartbeat(id, n, m).node)
    ensures m.ReadAck? ==> PendingFrom(id, n, Receive(m), OnReadAck(par, n, m).node)
  {
    hide Majority, ConfigOf, StateAfter;
  }

  // ---- results reported -------------------------------------------------------

  // The server applied the entries it newly knows committed, over what it had.
  ghost predicate Applies(n: Node, o: Out) {
    && n.commit <= o.node.commit <= |o.node.log| && n.commit <= |n.log|
    && n.log[..n.commit] <= o.node.log
    && o.applied == ApplyRange(o.node.log, n.commit, o.node.commit)
  }

  // It fell back, or took over a snapshot, and reported nothing.
  ghost predicate Resets(n: Node, ev: Event, o: Out) {
    && o.applied == [] && o.node.commit <= |o.node.log|
    && (|| (n.commit <= |n.log| && o.node.log[..o.node.commit] <= n.log[..n.commit])
        || (ev.Receive? && ev.msg.InstallSnapshot? && o.node.log[..o.node.commit] == ev.msg.image))
  }

  // It served one read from its committed prefix.
  ghost predicate ServesRead(n: Node, o: Out, c: KvStore.Command) {
    && n.commit <= |n.log| && o.node.log == n.log && o.node.commit == n.commit
    && o.applied == [Applied(c, KvStore.Read(StateAfter(n.log[..n.commit]).store, c))]
  }

  lemma AppliedStep(par: Params, h: Hist, id: Id, n: Node, ev: Event)
    requires HistOk(par, h) && NodeOk(par, h, id, n) && Fair(par, h, id, ev) && id in par.servers
    requires !ev.ReadRequest? && !(ev.Receive? && ev.msg.ReadAck?)
    ensures Applies(n, React(par, id, n, ev)) || Resets(n, ev, React(par, id, n, ev))
  {
    hide HistOk, NodeOk, React, Handle, StateAfter, ApplyRange;
    Parts(par, h, id, n);
    Committed(h, n);
    ReactStays(par, h, id, n, ev);
    var h2 := ReactKeeps(par, h, id, n, ev);
    Parts(par, h2, id, React(par, id, n, ev).node);
    Committed(h2, React(par, id, n, ev).node);
    match ev
    case Receive(m) => ReceiveApplies(par, h, id, n, m);
    case Pause => PauseResets(par, id, n);
    case _ => QuietApplies(par, id, n, ev);
  }

  lemma Committed(h: Hist, n: Node)
    requires LogOk(h, n)
    ensures n.base <= n.commit <= |n.log|
  {
  }

  lemma PauseResets(par: Params, id: Id, n: Node)
    requires n.base <= n.commit <= |n.log|
    ensures Resets(n, Pause, React(par, id, n, Pause))
  {
  }

  lemma NothingToApply(log: Log, k: nat)
    ensures ApplyRange(log, k, k) == []
  {
  }

  lemma QuietApplies(par: Params, id: Id, n: Node, ev: Event)
    requires n.base <= n.commit <= |n.log| && Stays(n, React(par, id, n, ev).node)
    requires !ev.Receive? && !ev.Pause? && !ev.ReadRequest?
    ensures Applies(n, React(par, id, n, ev))
  {
    hide Heartbeats, Majority, ConfigOf, ClientIndex, ApplyRange;
    NothingToApply(React(par, id, n, ev).node.log, n.commit);
  }

  lemma ReceiveApplies(par: Params, h: Hist, id: Id, n: Node, m: Message<Log>)
    requires HistOk(par, h) && NodeOk(par, h, id, n) && MsgOk(h, Packet(id, m)) && !m.ReadAck?
    requires n.base <= n.commit <= |n.log| && Stays(n, React(par, id, n, Receive(m)).node)
    requires React(par, id, n, Receive(m)).node.commit <= |React(par, id, n, Receive(m)).node.log|
    ensures Applies(n, React(par, id, n, Receive(m))) || Resets(n, Receive(m), React(par, id, n, Receive(m)))
  {
    hide HistOk, NodeOk, MsgOk, OnRequestVote, OnVoteReply, OnAppendEntries, OnAppendReply, OnInstallSnapshot, OnReadHeartbeat, OnReadAck, ApplyRange, Applies, Resets;
    if !n.alive {
      QuietIs(n);
    } else {
      match m
      case AppendEntries(_, _, _, _, _, _) => AppendApplies(par, id, n, m);
      case AppendReply(_, _, _, _) => ReplyApplies(par, id, n, m);
      case InstallSnapshot(_, _, _, _, _) => InstallApplies(par, h, id, n, m);
      case _ => VotesApply(par, id, n, m);
    }
  }

  lemma QuietIs(n: Node)
    requires n.commit <= |n.log|
    ensures Applies(n, Quiet(n))
  {
  }

  lemma VotesApply(par: Params, id: Id, n: Node, m: Message<Log>)
    requires n.base <= n.commit <= |n.log|
    ensures m.RequestVote? ==> Applies(n, OnRequestVote(id, n, m))
    ensures m.VoteReply? ==> Applies(n, OnVoteReply(par, id, n, m))
    ensures m.ReadHeartbeat? ==> Applies(n, OnReadHeartbeat(id, n, m))
  {
    hide OnRequestVote, OnVoteReply, OnReadHeartbeat, Applies, Silent;
    VotesKeepLog(par, id, n, m);
    match m
    case RequestVote(_, _, _, _) => SameApplies(n, OnRequestVote(id, n, m));
    case VoteReply(_, _, _) => SameApplies(n, OnVoteReply(par, id, n, m));
    case ReadHeartbeat(_, _, _) => SameApplies(n, OnReadHeartbeat(id, n, m));
    case _ =>
  }

  // A step that reports nothing and leaves log and commit index alone.
  predicate Silent(n: Node, o: Out) {
    o.node.log == n.log && o.node.commit == n.commit && o.applied == []
  }

  lemma SameApplies(n: Node, o: Out)
    requires n.commit <= |n.log| && Silent(n, o)
    ensures Applies(n, o)
  {
    NothingToApply(n.log, n.commit);
  }

  lemma VotesKeepLog(par: Params, id: Id, n: Node, m: Message<Log>)
    ensures m.RequestVote? ==> Silent(n, OnRequestVote(id, n, m))
    ensures m.VoteReply? ==> Silent(n, OnVoteReply(par, id, n, m))
    ensures m.ReadHeartbeat? ==> Silent(n, OnReadHeartbeat(id, n, m))
  {
    hide Heartbeats, Majority, ConfigOf, ClientIndex, Grants;
  }

  lemma SetCommitApplies(par: Params, n: Node, g: Node, k: nat)
    requires n.commit <= |n.log| && g.commit == n.commit && n.log[..n.commit] <= g.log && k <= |g.log|
    ensures Applies(n, SetCommit(par, g, k))
  {
    NothingToApply(g.log, g.commit);
    hide ApplyRange;
  }

  lemma ReplyApplies(par: Params, id: Id, n: Node, m: Message<Log>)
    requires n.base <= n.commit <= |n.log| && m.AppendReply?
    ensures Applies(n, OnAppendReply(par, id, n, m))
  {
    hide ApplyRange, SetCommit, AppendFor, NextFor, MatchFor, CommitScan;
    NothingToApply(n.log, n.commit);
    if m.term == n.term && n.role == Leader && m.success {
      var o := n.(
      matched := n.matched[m.follower := Max(MatchFor(n, m.follower), m.matchIndex)],
      next := n.next[m.follower := Max(NextFor(n, m.follower), m.matchIndex + 1)]);
      ScanFinds(par, o, |o.log|);
      if CommitScan(par, o, |o.log|).Some? {
        SetCommitApplies(par, n, o, CommitScan(par, o, |o.log|).value);
      }
    }
  }

  lemma AppendApplies(par: Params, id: Id, n: Node, m: Message<Log>)
    requires n.base <= n.commit <= |n.log| && m.AppendEntries? && Stays(n, OnAppendEntries(par, id, n, m).node)
    requires OnAppendEntries(par, id, n, m).node.commit <= |OnAppendEntries(par, id, n, m).node.log|
    ensures Applies(n, OnAppendEntries(par, id, n, m)) || Resets(n, Receive(m), OnAppendEntries(par, id, n, m))
  {
    hide ApplyRange, Consistent, Accept;
    NothingToApply(n.log, n.commit);
    if m.term >= n.term && Consistent(Heard(n, m.term), m) {
      AcceptApplies(par, id, Heard(n, m.term), m);
    }
  }

  lemma AcceptApplies(par: Params, id: Id, f: Node, m: Message<Log>)
    requires m.AppendEntries?
    ensures var o := Accept(par, id, f, m);
            o.applied == ApplyRange(o.node.log, f.commit, o.node.commit)
  {
    hide ApplyRange, Merge, Covered, PrevIndex;
    NothingToApply(Accept(par, id, f, m).node.log, f.commit);
  }

  lemma InstallApplies(par: Params, h: Hist, id: Id, n: Node, m: Message<Log>)
    requires HistOk(par, h) && NodeOk(par, h, id, n) && MsgOk(h, Packet(id, m)) && m.InstallSnapshot?
    requires n.base <= n.commit <= |n.log|
    ensures Applies(n, OnInstallSnapshot(par, id, n, m)) || Resets(n, Receive(m), OnInstallSnapshot(par, id, n, m))
  {
    hide HistOk, NodeOk, ApplyRange, TermAt, Grounded, Decided;
    NothingToApply(n.log, n.commit);
  }

  // ---- reads served -----------------------------------------------------------

  // A read requested and served at once, by a server that is its own majority.
  lemma ServedAtOnce(par: Params, h: Hist, id: Id, n: Node, c: KvStore.Command)
    requires HistOk(par, h) && NodeOk(par, h, id, n)
    requires React(par, id, n, ReadRequest(c)).applied != []
    ensures Accepted(n, ReadRequest(c))
    ensures ServesRead(n, React(par, id, n, ReadRequest(c)), c)
    ensures forall k | k in h.commits :: k.index <= n.commit
  {
    hide HistOk, StateAfter;
    Parts(par, h, id, n);
    var h2 := Mark(par, h, id, n, c);
    var r := Asking(n, id, c);
    forall k | k in h.commits
      ensures k.index <= n.commit
    {
      ReadIndexCovers(par, h2, id, r, n.nextRead, k);
    }
  }

  lemma ReadRequestShape(par: Params, id: Id, n: Node, c: KvStore.Command)
    requires n.commit <= |n.log| && React(par, id, n, ReadRequest(c)).applied == []
    ensures Applies(n, React(par, id, n, ReadRequest(c)))
  {
    hide StateAfter, ApplyRange, Majority, ConfigOf;
    NothingToApply(n.log, n.commit);
  }

  lemma ReadAckShape(par: Params, id: Id, n: Node, m: Message<Log>)
    requires n.commit <= |n.log| && m.ReadAck? && React(par, id, n, Receive(m)).applied == []
    ensures Applies(n, React(par, id, n, Receive(m)))
  {
    hide StateAfter, ApplyRange, Majority, ConfigOf;
    NothingToApply(n.log, n.commit);
  }

  lemma ReadAckServes(par: Params, h: Hist, id: Id, n: Node, m: Message<Log>)
    requires HistOk(par, h) && NodeOk(par, h, id, n) && MsgOk(h, Packet(id, m)) && m.ReadAck?
    requires React(par, id, n, Receive(m)).applied != []
    ensures m.readId in n.pending && (id, m.readId) in h.marks
    ensures ServesRead(n, React(par, id, n, Receive(m)), h.marks[(id, m.readId)].command)
    ensures forall c | c in h.marks[(id, m.readId)].commits :: c.index <= n.commit
  {
    hide HistOk, NodeOk, MsgOk, StateAfter, Majority, ConfigOf;
    ServedRead(par, h, id, n, m);
  }
}
