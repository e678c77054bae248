// The vocabulary of the protocol: log entries, messages, and one server's state.
//
// A node's `log` here is the whole logical log, from index 1, with `base` marking how much
// of it has been folded into a snapshot. The class RaftNode stores only the part above
// `base`; its abstraction to this type is the claim that compaction loses nothing.
module RaftTypes {
  import opened Prelude
  import opened KvStore

  type Id = nat

  // Log entries as the layers above read them: a configuration (adopted on append), a
  // client command, or some other text, which the state machine ignores.
  datatype Payload = Config(voters: set<Id>) | Client(command: Command) | Opaque(text: string)

  datatype Entry = Entry(term: nat, payload: Payload)

  type Log = seq<Entry>

  // S is what a snapshot message carries: the compacted log prefix itself in the protocol,
  // the state-machine image built from it in the implementation.
  datatype Message<+S> =
    | RequestVote(term: nat, candidate: Id, lastIndex: nat, lastTerm: nat)
    | VoteReply(term: nat, voter: Id, granted: bool)
    | AppendEntries(term: nat, leader: Id, prevIndex: nat, prevTerm: nat, entries: Log, leaderCommit: nat)
    | AppendReply(term: nat, follower: Id, success: bool, matchIndex: nat)
    | InstallSnapshot(term: nat, leader: Id, lastIndex: nat, lastTerm: nat, image: S)
    | ReadHeartbeat(term: nat, leader: Id, readId: nat)
    | ReadAck(term: nat, follower: Id, readId: nat)

  datatype Packet<+S> = Packet(dst: Id, msg: Message<S>)

  datatype Role = Follower | Candidate | Leader

  datatype PendingRead = PendingRead(command: Command, index: nat, acks: set<Id>)

  datatype Node = Node(
    // persistent
    term: nat,
    votedFor: Option<Id>,
    log: Log,
    base: nat,
    // volatile
    role: Role,
    commit: nat,
    alive: bool,
    votes: set<Id>,
    next: map<Id, nat>,
    matched: map<Id, nat>,
    clientIndex: map<int, int>,
    pending: map<nat, PendingRead>,
    nextRead: nat,
    confirmed: bool)  // has committed an entry of its own term

  // What never changes: the servers, the initial configuration, the compaction threshold.
  datatype Params = Params(servers: set<Id>, initial: set<Id>, threshold: nat)

  // A command reported to the client layer together with its result.
  datatype Applied = Applied(command: Command, result: string)

  // The effect of one atomic step of one server.
  datatype Out = Out(node: Node, sends: set<Packet<Log>>, applied: seq<Applied>)

  // ---- reading a log ----------------------------------------------------------

  // Term at a 1-based index; 0 for index 0 and past the end.
  function TermAt(log: Log, i: nat): nat {
    if 0 < i <= |log| then log[i - 1].term else 0
  }

  // The configuration in force: the latest configuration entry, else the initial one.
  function ConfigOf(initial: set<Id>, log: Log): set<Id> {
    if log == [] then initial
    else if log[|log| - 1].payload.Config? then log[|log| - 1].payload.voters
    else ConfigOf(initial, log[..|log| - 1])
  }

  // 1-based index of that entry; 0 when there is none.
  function ConfigIndex(log: Log): (i: nat)
    ensures i <= |log|
    ensures i > 0 ==> log[i - 1].payload.Config?
    ensures forall j | i <= j < |log| :: !log[j].payload.Config?
  {
    if log == [] then 0
    else if log[|log| - 1].payload.Config? then |log|
    else ConfigIndex(log[..|log| - 1])
  }

  function CommandOf(p: Payload): Command {
    if p.Client? then p.command else NOOP
  }

  function Commands(log: Log): (r: seq<Command>)
    ensures |r| == |log|
    ensures forall i | 0 <= i < |log| :: r[i] == CommandOf(log[i].payload)
  {
    seq(|log|, i requires 0 <= i < |log| => CommandOf(log[i].payload))
  }

  // The replicated state after a log.
  function StateAfter(log: Log): State {
    Fold(Commands(log))
  }

  // Results reported while applying indices from+1 .. upto.
  function ApplyRange(log: Log, from: nat, upto: nat): seq<Applied>
    decreases upto - from
  {
    if from >= upto || from >= |log| then []
    else
      var c := CommandOf(log[from].payload);
      [Applied(c, KvStore.Apply(StateAfter(log[..from]), c).1)] + ApplyRange(log, from + 1, upto)
  }

  // Highest request id per client in a log, as a fresh leader records it.
  function ClientIndex(log: Log): map<int, int> {
    if log == [] then map[]
    else Noted(ClientIndex(log[..|log| - 1]), CommandOf(log[|log| - 1].payload))
  }

  function Noted(index: map<int, int>, c: Command): map<int, int> {
    if Structured(c) && c.req > IndexFor(index, c.client) then index[c.client := c.req] else index
  }

  function IndexFor(index: map<int, int>, client: int): int {
    if client in index then index[client] else -1
  }
}
