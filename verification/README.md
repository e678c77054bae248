# deterministic_raft, verified

A Dafny model of a deterministic Raft simulator: the protocol of `deterministic_raft/node.py` with
membership changes, compaction, snapshot installation and ReadIndex reads; the replicated key-value
machine with its exactly-once sessions; the client driver of the cluster; the linearizability oracle;
the invariant checker with its caches; and the counterexample shrinker. The program samples these
properties over random seeds; here they hold for every run.

## What is proved

**The protocol.** A run is any sequence of steps of any servers. The network keeps every message ever
sent and may deliver it any number of times, in any order, or never; servers crash and restart at any
moment; timers fire whenever they like; clients and the membership driver act on any server. In every
such run, with configurations changing one server at a time and effective on append, compaction at any
threshold, and snapshots installed over the network:

- one leader per term; leaders only append; equal terms at an index mean equal prefixes;
- whatever any server ever knew committed is in the log of every later leader;
- committed logs of any two servers at any two moments agree, so the replicated states do;
- no traffic lowers a commit index or touches the log at or below it;
- a commit index no server had before is first reached by a leader, and a majority of its voting set
  holds the log up to it at that moment;
- a ReadIndex read returns the state of a committed log at least as long as any server's committed log
  when the read was requested;
- replication progress on a leader stays within its log;
- without compaction, no log ever holds two entries of a client out of request order.

What each step must do is proved beside what it may do, without naming the code's own functions: a vote
is given exactly when it is due (`Duties`); a leader commits the greatest index a majority is known to
hold, and nothing that could be committed is left; a follower takes entries exactly if it holds all that
comes before them (`Replication`); a command is appended and sent on exactly if no entry above what was
compacted when the leader took office supersedes it, a membership change is made exactly when it is due, a read is
answered exactly when its confirmations are a majority (`Offices`).

The protocol cannot get stuck (`Progress`). From every reachable state, whatever was lost, crashed or
changed before, any majority that agrees on a configuration of two servers or more can elect a leader by
timers, restarts and messages among its own members alone, and then any new command is committed and
applied by all of them, any read answered, any due change of membership committed. Two servers are needed:
a cluster configured with one never commits, because commits are only looked for when a reply comes in.
This is possibility, not a promise of liveness under faults.

ReadIndex safety is proved together with membership changes, not only on a fixed voting set.

The proof introduces a history of a run (candidacies, votes with the voter's log, leaderships,
acknowledgements with the log acknowledged, commits, reads) and an invariant that ties every server and
every message to it. Leader Completeness is carried through configuration changes by two facts about two
logs that fork: their configurations at the fork differ by at most one server, and the two guards of a
membership change are commits made before it.

**The server as it is written.** `RaftServer.RaftNode` is a class with the program's own fields: the
physical log above `baseIndex`, the snapshot, incrementally maintained voters, the state machine object.
Its methods keep the program's loops. Each is proved to do to the logical log, kept as a ghost field,
exactly what the step function of module `RaftSpec` says. So compaction, snapshots and the incremental
configuration lose nothing, and every access to the physical log is in range for any message that can
be in flight (`Refinement`).

**The clients.** `ClusterObject.Cluster` holds server objects, the messages in flight, and the client
driver. Every method is one move of the client model, and the history recorded at any moment of any
sequence of moves is linearizable, with gets going through the log or served by ReadIndex. Commands take
effect in the order of their first occurrence in the committed log; reads go between the entries they saw.
A move completes exactly the operations its step reports first, with the results reported, and frees
exactly their clients (`Replies`). What a result means is stated by what gets answer: a put or a
successful compare-and-set is seen by the gets that follow, and by no others (`KvStore.GetsSeeLastWrite`).

**The tools around it.** The oracle's search is sound and complete below its budget and says so
otherwise; the delta debugger's result is 1-minimal and reproduces exactly when a reproducing choice was
there to be found; the step search finds a budget that fails while one less does not. The verdict of the
invariant checker is the first of its checks whose property fails for what it looks at, whatever its
version caches skip; and beside the cluster objects, looking after every step, it never raises an alarm
(`MonitoredCluster`).

## Where the program's documentation and its code part

The code is modelled; these claims made for it do not hold in general.

- Truncated checks. `linearizability.py:75-77` says that a non-linearizable prefix of the operations
  proves the history non-linearizable. A kept read may have observed a concurrent write, invoked later,
  that was cut off (`Truncation.CutExample`). Exactly the clean cuts are sound: those where every kept
  operation had returned when any operation cut off was invoked (`Truncation.CutSoundExactly`).
- Old retries. A request older than its client's latest gets the latest cached result, not its own
  (`KvStore.OlderRetryExample`). For every choice of operations a retry repeats its own answer exactly if
  its client has made no request with a larger id since (`KvStore.RetryAnswersExactly`). Clients here retry
  only their latest request, and a late duplicate of an older one completes nothing.
- Total inverse. `decode` undoes `encode` exactly for the no-op and for operations none of whose text
  fields contains the separator (`Codec.RoundTrip`); the empty configuration does not read back
  (`Codec.ConfigRoundTrip`).
- Shrinking a scenario that already suppresses faults throws that mask away, and the result need not fail
  (`Shrink.MaskedExample`: four faults, of which the first and third must stay suppressed). Its mask has no
  fault to spare in any case, and fails the same way exactly if the scenario does with nothing suppressed,
  with everything suppressed, or with a first complement the delta debugger tries (`Shrink.Shrink`).

## Layout

From the bottom up: `Prelude`, `KvStore` (what commands and sessions mean), `KvMachine`, `RaftTypes`,
`RaftSpec` (one step of one server as a function); `History`, `Completeness`, `Invariant`, `Moves`,
`Handlers`, `Reads` (the invariant and why steps keep it); `Safety` (runs, and the theorems); `Sessions`;
`Duties`, `Replication`, `Offices` (what each step must do); `Progress` (what can always be reached);
`NodeViews`, `RaftNode` (the server class), `Refinement`; `Histories`, `World`, `Witness`, `Books`,
`Effects`, `Clients`, `Replies`, `Cluster` (clients and linearizability); `Oracle`, `OracleCheck`, `Truncation`;
`Checker`, `CheckerObject`, `Monitor`, `MonitoredCluster`; `Shrink`; `Codec`.

`dafny verify dfyconfig.toml` checks everything.

## Model

| member | source | states |
|---|---|---|
| Safety.ElectionSafety | deterministic_raft/node.py:370-420 | two servers that lead the same term, at any two moments of any run, are the same server |
| Safety.LeaderCompleteness | deterministic_raft/node.py:553-570 | everything a server knew committed in some term is a prefix of the log of every leader of a later term, whenever either is looked at |
| Safety.LeaderHolds | deterministic_raft/node.py:732-743 | from the moment something is known committed, every leader of that term or a later one has it as a prefix of its log |
| Safety.StateMachineSafety | deterministic_raft/node.py:745-782 | committed logs of any two servers at any two moments agree as far as both go, and so do the replicated states after them, across crashes, compaction and snapshots |
| Safety.LogMatching | deterministic_raft/node.py:595-638 | equal terms at one index of any two logs at any two moments mean equal logs up to it, although the receiver compares one term only |
| Safety.LeaderAppendOnly | deterministic_raft/node.py:436-438 | while it leads a term, a server's earlier log is a prefix of its later one |
| Safety.CommittedPrefixStays | deterministic_raft/node.py:595-647 | in every step of a run base <= commit <= last index before and after, terms and bases never fall, the commit index falls only by a crash, and the log up to the commit index is never touched |
| Safety.CommitQuorum | deterministic_raft/invariants.py:219-232 | a commit index above every earlier one is reached by a leader, and a majority of its configuration holds its log up to that index right then |
| Safety.ReadIndexSafety | deterministic_raft/node.py:504-549 | a read served reports the value in a committed log that extends every server's committed log of the moment the read was requested |
| Safety.ProgressWithinLog | deterministic_raft/node.py:649-665 | on every leader of every run the match index is at most the last index, the next index is between 1 and one past it, and every other server has one |
| Safety.StepInv | deterministic_raft/node.py:484-500 | any step any server can take leads from a state with a good history to one with a longer good history |
| Safety.Telling | deterministic_raft/sim.py:158-199 | every run with messages lost, repeated, delayed and reordered has a history all its states agree with |
| Prelude.MajoritiesMeet | deterministic_raft/node.py:463-466 | majorities of two voting sets that differ by at most one server share a member of both sets |
| Completeness.WinnerComplete | deterministic_raft/node.py:446-480 | a candidate elected in a term holds everything committed in earlier terms, under single-server changes effective on append |
| Completeness.WinnersMeet | deterministic_raft/node.py:414-418 | two candidates that won one term, possibly under different configurations, are one server |
| Completeness.ForkNear | deterministic_raft/node.py:463-472 | two logs that fork name configurations that differ by at most one server, when what each adds after the fork was preceded by the commits the two guards demand |
| Completeness.CommitsAgree | deterministic_raft/node.py:738-743 | what two leaders committed is on one branch |
| Handlers.ReactKeeps | deterministic_raft/node.py:484-500 | every handler, timer, client request, crash and restart keeps the invariant and sends only messages the history backs |
| Handlers.MayChangeGuards | deterministic_raft/node.py:463-472 | the guards tested by a leader are facts about commits already made: the previous configuration is committed, and so is an entry of this term |
| Handlers.Agreement | deterministic_raft/node.py:601-622 | passing the consistency check makes receiver and leader agree on the whole prefix, also when entries covered by the snapshot are skipped |
| Handlers.AppendEntriesStores | deterministic_raft/node.py:624-639 | after truncate-and-append the follower has its own log, if it already held the leader's prefix, or exactly that prefix |
| Handlers.StaleSnapshotKeeps | deterministic_raft/node.py:677-687 | answering a stale snapshot with the commit index vouches only for what the follower really holds |
| Handlers.SnapshotStores | deterministic_raft/node.py:688-707 | installing an image yields the leader's prefix, with a tail only if the tail belongs to it |
| Reads.ReadIndexCovers | deterministic_raft/node.py:538-549 | when a read has its majority, no commit made before it was requested lies above its recorded index |
| Effects.AppliedStep | deterministic_raft/node.py:745-758 | a step other than a read reports exactly the newly committed part of the log, in order and with the results the committed log gives; a crash or an installed snapshot reports nothing |
| Effects.ServedAtOnce | deterministic_raft/node.py:504-518 | a read served on request, by a server that is its own majority, sees every commit made so far |
| Sessions.RequestsIncrease | deterministic_raft/node.py:404-444 | without compaction, later entries of a client carry larger request ids in every log of every state |
| Sessions.NothingSkipped | deterministic_raft/kv.py:97-105 | so applying such a log executes every structured entry, none as a duplicate |
| Sessions.LeaderLogStep | deterministic_raft/node.py:422-480 | a server that leads after a step has its old log, or that log and the one entry asked for |
| Progress.NeverStuck | deterministic_raft/node.py:336-444 | from every reachable state, a majority that agrees on a configuration of two servers or more gets any new command to the end of the fully committed log of one of them, and committed by all, with one request and otherwise only restarts, timers and messages of its own members |
| Progress.CommandPossible | deterministic_raft/node.py:422-444 | the same for a given server, live with a majority of its configuration none of whose logs is more up to date |
| Progress.GetsElected | deterministic_raft/node.py:370-418 | such a server gets to lead in a term as large as any of theirs, with its log unchanged, also if it has to step down or stand several times first |
| Progress.CatchesUp | deterministic_raft/node.py:649-726 | a live voter not ahead in terms ends up with the whole log of the leader, through refusals, snapshots and compaction meanwhile, and the leader knows it and has committed all it may |
| Progress.Commits | deterministic_raft/node.py:732-743 | a leader with an entry of its term last and a live majority gets its whole log committed |
| Progress.ChangePossible | deterministic_raft/node.py:446-480 | a change of one other server gets adopted and committed by servers that are a majority before and after |
| Progress.ReadPossible | deterministic_raft/node.py:504-549 | a leader that has committed in its term gets any read answered, from the state after all it has committed, by the confirmations of a majority |
| Progress.LoneVoterNeverCommits | deterministic_raft/node.py:649-665 | in every run of a cluster configured with at most one server, no commit index ever leaves zero |
| Duties.VoteExactly | deterministic_raft/node.py:553-570 | a live server answers every request for its vote, with a grant exactly when the term asked for is not older than its own, no other candidate has its vote of that term, and the last term and index named are, lexicographically, at least those of its log; and what it then remembers |
| Duties.LongerLogGetsVote | deterministic_raft/node.py:553-570 | in every run, a candidate whose log extends the voter's gets the vote of a live voter that is free in that term |
| Duties.CampaignExactly | deterministic_raft/node.py:340-389 | when its timer fires, a live server that does not lead takes the next term, votes for itself and asks every other voter, naming the end of its log; it leads at once exactly if it is alone; outside its configuration it does nothing |
| Duties.VoteCounts | deterministic_raft/node.py:414-418 | a granted vote of its term makes a candidate leader exactly when it completes a majority of its configuration |
| Duties.RoundExactly | deterministic_raft/node.py:711-730 | a round is one message for every other voter and nothing else: all of the log from the peer's next index, or the snapshot when that index lies at or below it |
| Duties.ScanFindsGreatest | deterministic_raft/node.py:738-743 | the scan finds the greatest index above the commit index that a majority is known to hold and from which on all entries are of the leader's term, or none exists |
| Duties.CommitsGreatest | deterministic_raft/node.py:732-743 | afterwards no index may be committed that is not; the commit index has moved exactly if there was one, to the greatest |
| Duties.CommittableOnRun | deterministic_raft/node.py:732-743 | in a run only the entry at the index has to be of the leader's term |
| Duties.SuccessExactly | deterministic_raft/node.py:649-661 | an acknowledgement raises what the leader knows of this follower only, never lowers it, and leaves nothing uncommitted that may be committed |
| Duties.RefusalExactly | deterministic_raft/node.py:662-665 | a refusal lowers the next index by one, not below one, and the follower is sent the log from there at once |
| Duties.CompactsExactly | deterministic_raft/node.py:760-782 | a raised commit index is compacted up to exactly when it is the threshold or more beyond the base |
| Replication.ConsistentExactly | deterministic_raft/node.py:601-622 | the check of one term, at an index that depends on the receiver's snapshot, passes exactly if the receiver holds all of the leader's log before the entries |
| Replication.ReplicationExactly | deterministic_raft/node.py:583-647 | in every run, entries are acknowledged exactly if all before them is held; then the log is what it was, if it holds them already, or else the leader's up to their end, and the commit index the larger of its own and what the leader told, as far as the entries go |
| Replication.SnapshotExactly | deterministic_raft/node.py:669-707 | a snapshot is taken exactly if it reaches beyond the commit index; the log is then what it was, if the image is a prefix of it, or else the image |
| Offices.CommandExactly | deterministic_raft/node.py:422-444 | at every moment since a server took office: a command is appended at its end, counted, and sent to every other voter, exactly if no entry above what was compacted then has its client and an id at least as large; else nothing happens |
| Offices.CommandExactlyUncompacted | deterministic_raft/node.py:404-444 | without compaction: exactly if no entry of its log has |
| Offices.KeptInOffice | deterministic_raft/node.py:404-412 | a leader's request index names exactly the requests above what was compacted when it took office, it knows itself to hold its whole log, and whether an entry of its own term is committed |
| Offices.ChangeExactly | deterministic_raft/node.py:446-480 | in every run a leader adopts a change on the spot, and sends it to the other new voters, exactly if it is of one server and not itself, no configuration entry of its log is uncommitted, and an entry of its own term is committed; else nothing happens |
| Offices.ReadTakenExactly | deterministic_raft/node.py:504-518 | in every run a read is taken on exactly by a leader with a committed entry of its own term, asks every other voter, and is answered at once exactly if there is none |
| Offices.ReadServedExactly | deterministic_raft/node.py:528-549 | a confirmation in the leader's term is counted, and the read answered from the committed state exactly when the confirmations are a majority of the current voters |
| Offices.ReadHeartbeatAnswered | deterministic_raft/node.py:520-526 | every live server confirms, with the larger of the two terms, and steps down if its own was smaller |
| RaftServer.RaftNode.constructor | deterministic_raft/node.py:147-222 | a new server represents the protocol's initial state |
| RaftServer.RaftNode.LogicalAccess | deterministic_raft/node.py:224-245 | length, term, entry and suffix read from the physical log are those of the logical log, for every index at or above the base |
| RaftServer.RaftNode.RebuildConfig | deterministic_raft/node.py:259-271 | the configuration rebuilt from log and snapshot is the one the whole logical log determines |
| RaftServer.RaftNode.ConfigAt | deterministic_raft/node.py:273-282 | the configuration recorded in a snapshot is the one in force in the logical log at its boundary |
| RaftServer.RaftNode.Pause | deterministic_raft/node.py:289-328 | a crash keeps term, vote, log and snapshot, loses the rest, falls back to the snapshot's state and starts a new incarnation |
| RaftServer.RaftNode.Resume | deterministic_raft/node.py:297-302 | a restart only makes the server live again |
| RaftServer.RaftNode.OnElectionTimeout | deterministic_raft/node.py:340-344 | only a live server that does not lead campaigns |
| RaftServer.RaftNode.OnHeartbeat | deterministic_raft/node.py:351-355 | a live leader sends every other voter what it lacks, and changes nothing |
| RaftServer.RaftNode.BecomeFollower | deterministic_raft/node.py:359-368 | stepping down forgets the vote only in a new term, and drops pending reads |
| RaftServer.RaftNode.StartElection | deterministic_raft/node.py:370-389 | a campaign is a new term, a vote for itself and a request to every other voter, or nothing outside its own configuration |
| RaftServer.RaftNode.BecomeLeader | deterministic_raft/node.py:391-402 | taking office resets progress and the request index and sends a round to every other voter |
| RaftServer.RaftNode.RebuildClientIndex | deterministic_raft/node.py:404-412 | the loop finds the highest request id of every client in the uncompacted log |
| RaftServer.RaftNode.MaybeWin | deterministic_raft/node.py:414-418 | a candidate leads exactly when a majority of its current configuration voted for it |
| RaftServer.RaftNode.ClientCommand | deterministic_raft/node.py:422-444 | a believed leader accepts; state and messages are those of the protocol step, whose appends `Offices.CommandExactly` determines |
| RaftServer.RaftNode.ChangeConfig | deterministic_raft/node.py:446-480 | a change is accepted exactly under the two guards, for one server other than the leader, and then adopted on append |
| RaftServer.RaftNode.Handle | deterministic_raft/node.py:484-500 | for every message that can be in flight: the state, messages and reports of the protocol step, the version moving with the log |
| RaftServer.RaftNode.RequestRead | deterministic_raft/node.py:504-518 | a read is taken on only by a live leader that committed in its term; it records the commit index and asks every other voter |
| RaftServer.RaftNode.OnReadHeartbeat | deterministic_raft/node.py:520-526 | a confirmation carries the receiver's own, possibly newer, term |
| RaftServer.RaftNode.OnReadAck | deterministic_raft/node.py:528-536 | only confirmations of the current term count towards a pending read |
| RaftServer.RaftNode.TryServeRead | deterministic_raft/node.py:538-549 | a read is served once, with a majority of the current voters and the state machine at its index |
| RaftServer.RaftNode.OnRequestVote | deterministic_raft/node.py:553-570 | state and answer of the protocol step, which `Duties.VoteExactly` determines: a vote is granted exactly when it is due |
| RaftServer.RaftNode.OnVoteReply | deterministic_raft/node.py:572-579 | granted votes of the current term are counted and may win |
| RaftServer.RaftNode.OnAppendEntries | deterministic_raft/node.py:583-647 | state, reply and applied results of the protocol step, with the physical log only ever read above its base |
| RaftServer.RaftNode.MergeEntries | deterministic_raft/node.py:624-639 | the loop over the entries turns the logical log into its merge with them, and keeps voters in step |
| RaftServer.RaftNode.OnAppendReply | deterministic_raft/node.py:649-665 | success raises progress and may commit; failure backs off by one, not below one, and resends |
| RaftServer.RaftNode.OnInstallSnapshot | deterministic_raft/node.py:669-707 | stale images are refused, current ones replace the prefix and keep a consistent tail, with the configuration that results |
| RaftServer.RaftNode.SendAppendEntries | deterministic_raft/node.py:711-726 | a peer is sent the entries from its next index, or the image when that lies at or below the base |
| RaftServer.RaftNode.BroadcastHeartbeats | deterministic_raft/node.py:728-730 | exactly one such message for every other voter |
| RaftServer.RaftNode.ScanCommit | deterministic_raft/node.py:738-743 | the downward loop finds what the commit rule finds, which `Duties.ScanFindsGreatest` shows to be the greatest index that may be committed, or that there is none |
| RaftServer.RaftNode.AdvanceCommit | deterministic_raft/node.py:732-743 | the commit rule, with what it applies and compacts; `Duties.CommitsGreatest` says what it commits |
| RaftServer.RaftNode.ApplyCommitted | deterministic_raft/node.py:750-757 | the apply loop reports exactly the newly committed commands with their results, and leaves the state machine at the fold of the committed log |
| RaftServer.RaftNode.MaybeCompact | deterministic_raft/node.py:760-782 | compaction changes nothing but the base: log, configuration and state stay represented |
| Refinement.InFlightFits | deterministic_raft/node.py:677-704 | every message sent in a run meets the precondition of the server's handlers, so no handler reads or cuts outside its physical log |
| Refinement.StepAddressed | deterministic_raft/sim.py:158-199 | in every step messages go, and can be answered, to existing servers only |
| NodeViews.ConfigKept | deterministic_raft/node.py:626-631 | cutting the log anywhere at or above its governing configuration entry leaves the voters those of the log, so rebuilding is needed only below it |
| ClusterObject.Cluster.constructor | deterministic_raft/cluster.py:81-178 | a new cluster is at the beginning of the client model |
| ClusterObject.Cluster.Deliver | deterministic_raft/cluster.py:190-191 | delivering any message in flight is one move of the model |
| ClusterObject.Cluster.ClientTick | deterministic_raft/cluster.py:195-237 | clients take turns, one after the other; the turn, a new operation of the workload or a retry of the pending one on any server, is one move of the model |
| ClusterObject.Cluster.Invoke | deterministic_raft/cluster.py:239-249 | an invocation adds one unfinished row and makes the command outstanding |
| ClusterObject.Cluster.OnApply | deterministic_raft/cluster.py:251-267 | the first report of an operation completes its row and frees its client; later ones change nothing |
| ClusterObject.Cluster.Happen | deterministic_raft/cluster.py:419-430 | timers, crashes, restarts and membership proposals are moves of the model |
| ClusterObject.Cluster.HistoryLinearizable | deterministic_raft/cluster.py:195-267 | the history a cluster object has recorded is linearizable, at any moment |
| ClusterObject.Cluster.Judge | deterministic_raft/linearizability.py:67-155 | the oracle never finds a violation in it |
| Clients.ObservedLinearizable | deterministic_raft/cluster.py:195-267 | at every moment of every run the completed operations have an order that respects real time and in which every observed result is the sequential store's |
| Clients.OracleAgrees | deterministic_raft/linearizability.py:67-155 | on such a history the oracle answers with a linearization, or its budget really was too small |
| Clients.MoveKeeps | deterministic_raft/cluster.py:195-267 | every move of servers and clients keeps the history tied to the committed log |
| Replies.RepliesExactly | deterministic_raft/cluster.py:239-267 | in every run a move adds the row of the operation invoked, completes exactly the unfinished operations its step reports, with the result first reported and the time of the move, changes no other row, and frees exactly their clients for their next request |
| Witness.BookedLinearizable | deterministic_raft/cluster.py:195-267 | a history so tied is linearized by first occurrence in the committed log |
| Witness.FirstIsFresh | deterministic_raft/kv.py:97-105 | the first occurrence of an operation in the committed log is the one the session table lets execute |
| Books.BookEntry | deterministic_raft/cluster.py:251-267 | applying the next committed entry keeps the books, whether it completes an operation or is a duplicate |
| Books.BookRead | deterministic_raft/node.py:538-549 | serving a read from a state at or after its invocation keeps the books |
| KvStore.ExactlyOnce | deterministic_raft/kv.py:76-105 | the store after any log is the one after plainly executing, once each, the requests that were their client's highest |
| KvStore.SessionsTrackHighest | deterministic_raft/kv.py:92-105 | the session table holds every client's highest request id |
| KvStore.FreshMeansNew | deterministic_raft/kv.py:92-95 | a request executes exactly when it is its client's highest so far |
| KvStore.FreshResult | deterministic_raft/kv.py:97-105 | a request that executes reports what plain execution reports |
| KvStore.ExecuteObeys | deterministic_raft/kv.py:107-125 | in terms of what gets answer: a put is seen and touches no other key; a compare-and-set does and answers ok exactly if a get just before answered its expected value, else it answers fail and changes nothing; a get changes nothing |
| KvStore.GetsSeeLastWrite | deterministic_raft/kv.py:114-125 | after any run of operations a get is answered with the value last written to its key, or nothing if none was |
| KvStore.FreshObeys | deterministic_raft/kv.py:97-105 | a request a log executes obeys these laws on the replicated store, any other changes nothing |
| KvStore.RetryAnswersExactly | deterministic_raft/kv.py:97-105 | for every choice of operations with the same clients and request ids, a retry gets the answer the request got, if and only if its client has made no request with a larger id since |
| KvStore.RetryAnswersAlike | deterministic_raft/kv.py:97-105 | retrying a client's latest request changes nothing and repeats its answer, however often it was retried already and whatever happened in between |
| KvStore.OvertakenAnswersWrong | deterministic_raft/kv.py:101-102 | after a larger request of the client there are operations for which the retry is answered with another request's result |
| KvStore.OlderRetryExample | deterministic_raft/kv.py:101-102 | an older retry gets the latest cached answer instead of its own |
| KvMachine.KVStateMachine.Apply | deterministic_raft/kv.py:97-105 | a fresh operation is run on the dictionary: a put writes its value and answers ok, a get answers what is there, a compare-and-set writes and answers ok exactly if its expected value is there and else answers fail and writes nothing; a known request repeats the remembered answer and changes nothing; state and answer are those of the specification |
| KvMachine.KVStateMachine.Restore | deterministic_raft/kv.py:135-138 | restoring makes the state exactly the image |
| Codec.RoundTrip | deterministic_raft/kv.py:49-70 | a command reads back from its text if and only if it is the no-op, or an operation with no separator in its fields |
| Codec.EncodeInjective | deterministic_raft/kv.py:49-55 | different such commands have different texts |
| Codec.ConfigRoundTrip | deterministic_raft/node.py:43-55 | a configuration reads back from its text if and only if it has a voter |
| Codec.ConfigIsNoop | deterministic_raft/node.py:37-41 | no text is both a configuration and a command |
| Codec.PayloadCommand | deterministic_raft/node.py:753-755 | the state machine reads from an entry's text the command the model's entry carries |
| Codec.CommandPayload | deterministic_raft/kv.py:49-55 | the text of a clean client command is read as that command by the protocol and the state machine |
| Codec.ConfigPayload | deterministic_raft/node.py:43-55 | the text of a configuration with a voter is read as the set of its voters |
| Codec.WorkloadGood | deterministic_raft/cluster.py:50-60 | every command of the workload names its client and request, is well formed and survives the log |
| OracleCheck.Check | deterministic_raft/linearizability.py:67-155 | yes comes with a linearization of the operations checked; no with a frontier means there is none, and the frontier is what a legal partial order of the greatest possible length left out; a bare no means more states than the budget are reachable |
| Oracle.Search | deterministic_raft/linearizability.py:111-148 | the stack search with memoised dead ends terminates, and decides linearizability whenever it does not run out of budget; with a no, the path reported is a legal partial order no other is longer than |
| Oracle.Minimal | deterministic_raft/linearizability.py:92-109 | the candidates are exactly the operations no other pending operation precedes |
| Oracle.FirstIsChoice | deterministic_raft/linearizability.py:92-109 | every legal continuation of what is placed starts with one of them |
| OracleCheck.SameVerdict | deterministic_raft/linearizability.py:80-83 | sorting the operations does not change whether they can be linearized |
| Truncation.CutSoundExactly | deterministic_raft/linearizability.py:75-83 | keeping the first k operations proves violations of the whole for every behaviour with these times if and only if every kept operation returned before any dropped one was invoked |
| Truncation.CleanCutSound | deterministic_raft/linearizability.py:75-83 | after such a cut a violation among the kept operations is one of the history |
| Truncation.UncleanCutUnsound | deterministic_raft/linearizability.py:75-83 | otherwise some linearizable history with the same times has a non-linearizable cut |
| Truncation.CutExample | deterministic_raft/linearizability.py:75-77 | a linearizable read and concurrent write whose first operation alone is not linearizable |
| Shrink.DDMin | deterministic_raft/shrink.py:70-91 | a subsequence from which no single element can be left out, for any deterministic predicate, monotone or not; it reproduces if and only if the list does, or nothing does, or a complement tried on the whole list does |
| Shrink.FirstReproducing | deterministic_raft/shrink.py:79-86 | the complement of the first chunk whose complement is not empty and reproduces, or there is no such chunk |
| Shrink.MinSteps | deterministic_raft/shrink.py:132-141 | a budget that fails, if and only if the given one does or one the search comes by, while one step less does not; the least one if failures persist |
| Shrink.Shrink | deterministic_raft/shrink.py:144-178 | nothing exactly when the scenario does not fail as wanted; else a mask no fault can be added to at the original budget, under which the scenario fails the same way if and only if it recovers from losing its old mask, and a budget one step less than which does not fail |
| Shrink.UnmaskedRecovers | deterministic_raft/shrink.py:155-163 | it recovers if it fails the same way with nothing suppressed, so always if it suppressed nothing |
| Shrink.MaskedExample | deterministic_raft/shrink.py:155-163 | a scenario of four faults that suppresses two of them, for which the result does not fail at all |
| Checker.ScanPair | deterministic_raft/invariants.py:174-190 | finding the highest equal term and comparing below it decides Log Matching on the part both logs still hold |
| Checker.Compare | deterministic_raft/invariants.py:152-159 | the comparison decides whether a leader's log was shortened or changed where both snapshots of it still show it |
| Checker.ScanCommitted | deterministic_raft/invariants.py:248-258 | the scan decides whether a leader holds every observed commit of its term or earlier |
| CheckerObject.InvariantChecker.CheckLogMatching | deterministic_raft/invariants.py:167-190 | with the version cache, fires exactly when some two live logs do not match |
| CheckerObject.InvariantChecker.CheckLeaderAppendOnly | deterministic_raft/invariants.py:134-163 | with the version cache, fires exactly when a leader remembered in this term rewrote its log |
| CheckerObject.InvariantChecker.CheckLeaderCompleteness | deterministic_raft/invariants.py:238-259 | with the version cache, fires exactly when a leader misses an observed commit |
| CheckerObject.InvariantChecker.CheckElectionSafety | deterministic_raft/invariants.py:121-130 | fires exactly when a term has a second leader, now or since it was first seen |
| CheckerObject.InvariantChecker.ObserveCommits | deterministic_raft/invariants.py:201-234 | silent exactly when no commit index fell, newly shown commits agree with the record and each other, and each index new to everybody is held by a majority of the first server to show it; then all are on record, with the term of the first to show them; otherwise what it reports is so |
| CheckerObject.InvariantChecker.CheckApplied | deterministic_raft/invariants.py:263-277 | silent exactly when the applied commands not looked at before agree with the record and each other; then all are on record and count as looked at |
| CheckerObject.InvariantChecker.HandleRestarts | deterministic_raft/invariants.py:105-117 | after a restart a server's commit and apply baselines are what it shows now, and nobody else's move |
| CheckerObject.InvariantChecker.Check | deterministic_raft/invariants.py:89-101 | the verdict is the first check, in the program's order, whose property fails for what servers show and what is remembered, and silence exactly when none does; a silent check leaves the records up to date |
| Monitor.WatchRun | deterministic_raft/cluster.py:433-447 | on any run, looking after every step and within steps, the checker never raises |
| MonitoredCluster.Monitored.constructor | deterministic_raft/cluster.py:81-178 | a new cluster with a new checker is at the beginning |
| MonitoredCluster.Monitored.Deliver | deterministic_raft/cluster.py:433-438 | after delivering any message in flight the checker, given the server objects, does not raise |
| MonitoredCluster.Monitored.Happen | deterministic_raft/cluster.py:433-438 | nor after a timer, crash, restart or membership proposal |
| MonitoredCluster.Monitored.ClientTick | deterministic_raft/cluster.py:433-438 | nor after a client's turn |
| Monitor.VersionNames | deterministic_raft/invariants.py:16-18 | if the version moves whenever the log shown does, equal versions mean equal logs at any distance |
| Monitor.CommitRises | deterministic_raft/invariants.py:105-117 | between two moments without a crash of a server in between, its commit index does not fall |

## Left out

- Timers, virtual time, the event heap and the random generator: a timer may fire, and a message may arrive, at any moment.
- Loss, duplication, delay, partitions and broken links (`deterministic_raft/sim.py`): all are covered by a network that delivers any sent message any number of times or never.
- Armed bug flags (`deterministic_raft/bugs.py`), including stale local reads: all flags are off.
- Trace records, digests, statistics, reports, timelines, the command line and nemesis files.
- `leader_id`, which no decision depends on.
- Liveness: what can always be reached is proved (module `Progress`), not that it will be; timers are not timed.
- Order of sending: a handler returns the messages it sends as a list tied to a set of protocol messages, and reports results by returning them instead of calling back.
- Voter tuples: configurations are sets, so their order and repeated ids in a hand-written configuration entry are not kept.
- Entries in the protocol carry decoded commands and configurations; module `Codec` relates these to the program's strings.
- Negative ids in a configuration string, and the blanks and digits beyond ASCII that the host language's integer parser also accepts.
- A snapshot message carries the compacted log prefix in the protocol and its image in the class; the image is proved to be that of the prefix.
- The check run just before a server compacts: module `Monitor` covers it as a look within a step, while the objects of module `MonitoredCluster` are looked at after steps.
- Switching off history recording.
- Negative `max_ops`, which drops operations from the end.
- Failure signatures and fault counts are arbitrary functions of a scenario; the fault events and injection count of a counterexample are not modelled.
- RaftServer.RaftNode.ClientCommand: a client command whose text is a configuration is excluded, because the program appends it without adopting it, after which the voters are no longer those the log determines.
- RaftServer.RaftNode.ChangeConfig: a configuration naming a server that is neither the leader nor a peer is excluded; the program appends it and then fails when it looks up that server's next index.
- Sessions.RequestsIncrease: only without compaction, because a new leader rebuilds its request index from the live log alone and may then append a request its snapshot already covers; the session table still executes it once (KvStore.ExactlyOnce).
