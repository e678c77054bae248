// One atomic step of one server, as a function: every handler and role transition of the
// node. Each takes the node's id and state and yields its new state, the messages it sends
// and the results it reports.
module RaftSpec {
  import opened Prelude
  import opened KvStore
  import opened RaftTypes

  function Voters(par: Params, n: Node): set<Id> {
    ConfigOf(par.initial, n.log)
  }

  function OtherVoters(par: Params, id: Id, n: Node): set<Id> {
    Voters(par, n) - {id}
  }

  function Start(): Node {
    Node(0, None, [], 0, Follower, 0, true, {}, map[], map[], map[], map[], 0, false)
  }

  function Quiet(n: Node): Out {
    Out(n, {}, [])
  }

  function Reply(n: Node, dst: Id, m: Message<Log>): Out {
    Out(n, {Packet(dst, m)}, [])
  }

  // ---- crash and restart ------------------------------------------------------

  // Term, vote, log and snapshot survive; the rest is lost and the commit index falls
  // back to the snapshot.
  function Crash(n: Node): Node {
    n.(alive := false, role := Follower, commit := n.base, votes := {}, next := map[], matched := map[],
    clientIndex := map[], pending := map[], confirmed := false)
  }

  function Resume(n: Node): Node {
    n.(alive := true)
  }

  // ---- role transitions -------------------------------------------------------

  function BecomeFollower(n: Node, term: nat): Node {
    n.(term := term, votedFor := if term > n.term then None else n.votedFor, role := Follower, pending := map[])
  }

  function StartElection(par: Params, id: Id, n: Node): Out {
    if id !in Voters(par, n) then Quiet(n)
    else
      var c := n.(term := n.term + 1, role := Candidate, votedFor := Some(id), votes := {id});
      var req: Message<Log> := RequestVote(c.term, id, |c.log|, TermAt(c.log, |c.log|));
      var won := MaybeWin(par, id, c);
      won.(sends := won.sends + set v | v in OtherVoters(par, id, n) :: Packet(v, req))
  }

  function MaybeWin(par: Params, id: Id, n: Node): Out {
    if n.role == Candidate && Majority(n.votes, Voters(par, n)) then
      var l := BecomeLeader(par, id, n);
      Out(l, Heartbeats(par, id, l), [])
    else Quiet(n)
  }

  function BecomeLeader(par: Params, id: Id, n: Node): Node {
    n.(role := Leader,
    next := map p | p in par.servers && p != id :: |n.log| + 1,
    matched := map p | p in par.servers + {id} :: if p == id then |n.log| else 0,
    confirmed := false,
    clientIndex := ClientIndex(Drop(n.log, n.base)))
  }

  // ---- replication ------------------------------------------------------------

  function NextFor(n: Node, peer: Id): nat {
    if peer in n.next then n.next[peer] else 1
  }

  function MatchFor(n: Node, peer: Id): nat {
    if peer in n.matched then n.matched[peer] else 0
  }

  // The next message for a peer: entries, or the snapshot when the peer is behind it.
  function AppendFor(id: Id, n: Node, peer: Id): Packet<Log> {
    var prev := if NextFor(n, peer) > 0 then NextFor(n, peer) - 1 else 0;
    if prev < n.base then
      Packet(peer, InstallSnapshot(n.term, id, n.base, TermAt(n.log, n.base), Take(n.log, n.base)))
    else
      Packet(peer, AppendEntries(n.term, id, prev, TermAt(n.log, prev), Drop(n.log, prev), n.commit))
  }

  function Heartbeats(par: Params, id: Id, n: Node): set<Packet<Log>> {
    set v | v in OtherVoters(par, id, n) :: AppendFor(id, n, v)
  }

  function Heartbeat(par: Params, id: Id, n: Node): Out {
    Out(n, Heartbeats(par, id, n), [])
  }

  // Servers of the current configuration known to hold index k.
  function Holders(par: Params, n: Node, k: nat): set<Id> {
    set v | v in Voters(par, n) && MatchFor(n, v) >= k
  }

  predicate Replicated(par: Params, n: Node, k: nat) {
    Majority(Holders(par, n, k), Voters(par, n))
  }

  // The downward commit scan: the first k at or below `from`, still above the commit
  // index, that a majority holds; it stops at the first entry of an older term.
  function CommitScan(par: Params, n: Node, from: nat): Option<nat>
    decreases from
  {
    if from <= n.commit || TermAt(n.log, from) != n.term then None
    else if Replicated(par, n, from) then Some(from)
    else CommitScan(par, n, from - 1)
  }

  function AdvanceCommit(par: Params, n: Node): Out {
    match CommitScan(par, n, |n.log|)
    case None => Quiet(n)
    case Some(k) =>
      var o := SetCommit(par, n, k);
      o.(node := o.node.(confirmed := true))
  }

  // Raise the commit index, apply what it newly covers, then compact if due.
  function SetCommit(par: Params, n: Node, k: nat): Out {
    if k <= n.commit then Quiet(n)
    else Out(MaybeCompact(par, n.(commit := k)), {}, ApplyRange(n.log, n.commit, k))
  }

  function MaybeCompact(par: Params, n: Node): Node {
    if par.threshold == 0 || n.commit < n.base + par.threshold then n else n.(base := n.commit)
  }

  // ---- client interface -------------------------------------------------------

  function Extend(n: Node, id: Id, e: Entry): Node {
    n.(log := n.log + [e], matched := n.matched[id := |n.log| + 1])
  }

  function ClientCommand(par: Params, id: Id, n: Node, p: Payload): Out {
    if n.role != Leader || !n.alive then Quiet(n)
    else
      var c := CommandOf(p);
      if Structured(c) && c.req <= IndexFor(n.clientIndex, c.client) then Quiet(n)
      else
        var noted := if Structured(c) then n.clientIndex[c.client := c.req] else n.clientIndex;
        Heartbeat(par, id, Extend(n.(clientIndex := noted), id, Entry(n.term, p)))
  }

  // Both guards of a membership change: no change in flight, and a commit in this term.
  predicate MayChange(par: Params, id: Id, n: Node, voters: set<Id>) {
    && n.role == Leader && n.alive
    && OneApart(voters, Voters(par, n))
    && id in voters
    && ConfigIndex(n.log) <= n.commit
    && n.confirmed
  }

  function ChangeConfig(par: Params, id: Id, n: Node, voters: set<Id>): Out {
    if !MayChange(par, id, n, voters) then Quiet(n)
    else Heartbeat(par, id, Extend(n, id, Entry(n.term, Config(voters))))
  }

  // ---- linearizable reads -----------------------------------------------------

  function RequestRead(par: Params, id: Id, n: Node, c: Command): Out {
    if n.role != Leader || !n.alive || !n.confirmed then Quiet(n)
    else
      var rid := n.nextRead;
      var r := n.(nextRead := rid + 1, pending := n.pending[rid := PendingRead(c, n.commit, {id})]);
      TryServe(par, r, rid).(sends := ReadRound(par, id, n))
  }

  // The heartbeat round that confirms leadership for the read about to be numbered.
  function ReadRound(par: Params, id: Id, n: Node): set<Packet<Log>> {
    set v | v in OtherVoters(par, id, n) :: Packet(v, ReadHeartbeat(n.term, id, n.nextRead))
  }

  function TryServe(par: Params, n: Node, rid: nat): Out {
    if rid !in n.pending then Quiet(n)
    else
      var r := n.pending[rid];
      if Majority(r.acks, Voters(par, n)) && n.commit >= r.index then
        Out(n.(pending := n.pending - {rid}), {}, [Applied(r.command, Read(StateAfter(Take(n.log, n.commit)).store, r.command))])
      else Quiet(n)
  }

  function OnReadHeartbeat(id: Id, n: Node, m: Message<Log>): Out
    requires m.ReadHeartbeat?
  {
    var f := if m.term > n.term then BecomeFollower(n, m.term) else n;
    Reply(f, m.leader, ReadAck(f.term, id, m.readId))
  }

  function OnReadAck(par: Params, n: Node, m: Message<Log>): Out
    requires m.ReadAck?
  {
    if m.term > n.term then Quiet(BecomeFollower(n, m.term))
    else if m.readId !in n.pending || m.term != n.term || n.role != Leader then Quiet(n)
    else
      var r := n.pending[m.readId];
      TryServe(par, n.(pending := n.pending[m.readId := r.(acks := r.acks + {m.follower})]), m.readId)
  }

  // ---- votes ------------------------------------------------------------------

  // (term, index) at least as large as the log's own last (term, index).
  predicate UpToDate(lastTerm: nat, lastIndex: nat, log: Log) {
    || lastTerm > TermAt(log, |log|)
    || (lastTerm == TermAt(log, |log|) && lastIndex >= |log|)
  }

  predicate Grants(n: Node, m: Message<Log>)
    requires m.RequestVote?
  {
    && m.term == n.term
    && (n.votedFor == None || n.votedFor == Some(m.candidate))
    && UpToDate(m.lastTerm, m.lastIndex, n.log)
  }

  function OnRequestVote(id: Id, n: Node, m: Message<Log>): Out
    requires m.RequestVote?
  {
    var f := if m.term > n.term then BecomeFollower(n, m.term) else n;
    var g := if Grants(f, m) then f.(votedFor := Some(m.candidate)) else f;
    Reply(g, m.candidate, VoteReply(g.term, id, Grants(f, m)))
  }

  function OnVoteReply(par: Params, id: Id, n: Node, m: Message<Log>): Out
    requires m.VoteReply?
  {
    if m.term > n.term then Quiet(BecomeFollower(n, m.term))
    else if n.role != Candidate || m.term < n.term || !m.granted then Quiet(n)
    else MaybeWin(par, id, n.(votes := n.votes + {m.voter}))
  }

  // ---- log replication, receiver ----------------------------------------------

  // Entries already covered by the snapshot are skipped, not compared.
  function Covered(n: Node, m: Message<Log>): nat
    requires m.AppendEntries?
  {
    if m.prevIndex < n.base then Min(|m.entries|, n.base - m.prevIndex) else 0
  }

  function PrevIndex(n: Node, m: Message<Log>): nat
    requires m.AppendEntries?
  {
    m.prevIndex + Covered(n, m)
  }

  function PrevTerm(n: Node, m: Message<Log>): nat
    requires m.AppendEntries?
  {
    if Covered(n, m) > 0 then m.entries[Covered(n, m) - 1].term else m.prevTerm
  }

  predicate Consistent(n: Node, m: Message<Log>)
    requires m.AppendEntries?
  {
    PrevIndex(n, m) >= Max(1, n.base) ==>
      PrevIndex(n, m) <= |n.log| && TermAt(n.log, PrevIndex(n, m)) == PrevTerm(n, m)
  }

  // Keep what matches by term, cut at the first conflict, append the rest. `at` entries
  // of the log come before es.
  function Merge(log: Log, at: nat, es: Log): Log
    decreases |es|
  {
    if es == [] then log
    else if at < |log| && log[at].term == es[0].term then Merge(log, at + 1, es[1..])
    else Take(log, at) + es
  }

  function OnAppendEntries(par: Params, id: Id, n: Node, m: Message<Log>): Out
    requires m.AppendEntries?
  {
    if m.term < n.term then Reply(n, m.leader, AppendReply(n.term, id, false, 0))
    else
      HearAppend(par, id, Heard(n, m.term), m)
  }

  // The server after hearing from a leader of term t, not older than its own.
  function Heard(n: Node, t: nat): Node {
    if t > n.term || n.role != Follower then BecomeFollower(n, t) else n
  }

  function HearAppend(par: Params, id: Id, f: Node, m: Message<Log>): Out
    requires m.AppendEntries?
  {
    if !Consistent(f, m) then Reply(f, m.leader, AppendReply(f.term, id, false, 0)) else Accept(par, id, f, m)
  }

  function Accept(par: Params, id: Id, f: Node, m: Message<Log>): Out
    requires m.AppendEntries?
  {
    var prev := PrevIndex(f, m);
    var entries := m.entries[Covered(f, m)..];
    var g := f.(log := Merge(f.log, prev, entries));
    var matchIndex := prev + |entries|;
    var o := SetCommit(par, g, Min(m.leaderCommit, matchIndex));
    o.(sends := {Packet(m.leader, AppendReply(f.term, id, true, matchIndex))})
  }

  function OnAppendReply(par: Params, id: Id, n: Node, m: Message<Log>): Out
    requires m.AppendReply?
  {
    if m.term > n.term then Quiet(BecomeFollower(n, m.term))
    else if n.role != Leader || m.term < n.term then Quiet(n)
    else if m.success then
      AdvanceCommit(par, n.(
        matched := n.matched[m.follower := Max(MatchFor(n, m.follower), m.matchIndex)],
        next := n.next[m.follower := Max(NextFor(n, m.follower), m.matchIndex + 1)]))
    else
      var l := n.(next := n.next[m.follower := Max(1, NextFor(n, m.follower) - 1)]);
      Out(l, {AppendFor(id, l, m.follower)}, [])
  }

  // ---- snapshots, receiver ----------------------------------------------------

  function OnInstallSnapshot(par: Params, id: Id, n: Node, m: Message<Log>): Out
    requires m.InstallSnapshot?
  {
    if m.term < n.term then Reply(n, m.leader, AppendReply(n.term, id, false, 0))
    else
      var f := Heard(n, m.term);
      if m.lastIndex <= f.commit then Reply(f, m.leader, AppendReply(f.term, id, true, f.commit))
      else Reply(Install(f, m), m.leader, AppendReply(f.term, id, true, m.lastIndex))
  }

  // Take the image; keep the log beyond it only if the log agrees where the image ends.
  function Install(f: Node, m: Message<Log>): Node
    requires m.InstallSnapshot?
  {
    var keep := |f.log| >= m.lastIndex && TermAt(f.log, m.lastIndex) == m.lastTerm;
    f.(log := if keep then m.image + f.log[m.lastIndex..] else m.image, base := m.lastIndex, commit := m.lastIndex)
  }

  // ---- dispatch ---------------------------------------------------------------

  function Handle(par: Params, id: Id, n: Node, m: Message<Log>): Out {
    if !n.alive then Quiet(n)
    else
      match m
      case RequestVote(_, _, _, _) => OnRequestVote(id, n, m)
      case VoteReply(_, _, _) => OnVoteReply(par, id, n, m)
      case AppendEntries(_, _, _, _, _, _) => OnAppendEntries(par, id, n, m)
      case AppendReply(_, _, _, _) => OnAppendReply(par, id, n, m)
      case InstallSnapshot(_, _, _, _, _) => OnInstallSnapshot(par, id, n, m)
      case ReadHeartbeat(_, _, _) => OnReadHeartbeat(id, n, m)
      case ReadAck(_, _, _) => OnReadAck(par, n, m)
  }

  // Everything that can happen to one server, besides receiving a message.
  datatype Event =
    | ElectionTimeout
    | HeartbeatTimeout
    | Receive(msg: Message<Log>)
    | Command(payload: Payload)
    | Change(voters: set<Id>)
    | ReadRequest(command: KvStore.Command)
    | Pause
    | Restart

  function React(par: Params, id: Id, n: Node, ev: Event): Out {
    match ev
    case ElectionTimeout => if n.alive && n.role != Leader then StartElection(par, id, n) else Quiet(n)
    case HeartbeatTimeout => if n.alive && n.role == Leader then Heartbeat(par, id, n) else Quiet(n)
    case Receive(m) => Handle(par, id, n, m)
    case Command(p) => ClientCommand(par, id, n, p)
    case Change(voters) => ChangeConfig(par, id, n, voters)
    case ReadRequest(c) => RequestRead(par, id, n, c)
    case Pause => Quiet(Crash(n))
    case Restart => Quiet(Resume(n))
  }
}
