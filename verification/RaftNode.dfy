// One server as the program keeps it: mutable fields, a physical log cut off at the
// compaction base, and a state machine object fed one command at a time. Every method is
// tied to the step function of RaftSpec that it implements, over the ghost logical log.
//
// Accessors come first, then crash and restart, the role transitions, the client interface,
// the handlers in the order of the message types, and at the end replication, commits and
// compaction. Handlers return the messages they send and the results they report.
module RaftServer {
  import opened Prelude
  import opened KvStore
  import opened RaftTypes
  import opened RaftSpec
  import opened NodeViews
  import opened KvMachine
  import C = Completeness

  class RaftNode {
    const id: Id
    const peers: set<Id>
    const initialVoters: set<Id>
    const threshold: nat

    // persistent
    var term: nat
    var votedFor: Option<Id>
    var log: Log
    var baseIndex: nat
    var baseTerm: nat
    var snapshot: Option<Snapshot>

    // derived
    var voters: set<Id>
    var configIndex: nat

    // volatile
    var role: Role
    var commitIndex: nat
    var lastApplied: nat
    var applied: seq<Payload>
    var kv: KVStateMachine
    var alive: bool
    var logVersion: nat
    var incarnation: nat
    var nextIndex: map<Id, nat>
    var matchIndex: map<Id, nat>
    var votes: set<Id>
    var clientIndex: map<int, int>
    var pendingReads: map<nat, PendingRead>
    var nextReadId: nat
    var committedThisTerm: bool

    // the logical log, compacted prefix included
    ghost var full: Log

    ghost function Par(): Params {
      Params(peers + {id}, initialVoters, threshold)
    }

    ghost function Abs(): Node
      reads `term, `votedFor, `full, `baseIndex, `role, `commitIndex, `alive, `votes, `nextIndex, `matchIndex
      reads `clientIndex, `pendingReads, `nextReadId, `committedThisTerm
    {
      Node(term, votedFor, full, baseIndex, role, commitIndex, alive, votes, nextIndex, matchIndex,
           clientIndex, pendingReads, nextReadId, committedThisTerm)
    }

    ghost predicate Valid()
      reads `log, `baseIndex, `baseTerm, `snapshot, `voters, `configIndex, `role, `commitIndex, `lastApplied, `applied
      reads `nextIndex, `full, `kv, kv
    {
      && id !in peers && initialVoters <= peers + {id}
      && LogView(full, log, baseIndex, baseTerm)
      && SnapshotView(initialVoters, full, baseIndex, snapshot)
      && ConfigView(initialVoters, full, baseIndex, voters, configIndex)
      && AppliedView(full, baseIndex, commitIndex, lastApplied, applied, kv.Value())
      && LeaderView(peers + {id}, id, role, full, nextIndex)
      && ConfigsWithin(peers + {id}, full)
    }

    // A list of messages is the wire form of a set of protocol messages.
    ghost predicate Wires(sends: seq<Packet<Image>>, abstractSends: set<Packet<Log>>) {
      Sent(sends) == PicturedAll(initialVoters, abstractSends)
    }

    static function Sent(ms: seq<Packet<Image>>): set<Packet<Image>> {
      set m | m in ms
    }

    lemma NoWires()
      ensures Wires([], {})
    {
      PicturedNone(initialVoters);
    }

    lemma OneWire(dst: Id, m: Message<Image>, a: Message<Log>)
      requires m == Pictured(initialVoters, a)
      ensures Wires([Packet(dst, m)], {Packet(dst, a)})
    {
      PicturedOne(initialVoters, Packet(dst, a));
    }

    lemma MoreWires(x: seq<Packet<Image>>, y: seq<Packet<Image>>, a: set<Packet<Log>>, b: set<Packet<Log>>)
      requires Wires(x, a) && Wires(y, b)
      ensures Wires(x + y, a + b)
    {
      hide PicturedAll;
      PicturedUnion(initialVoters, a, b);
    }

    // The version counter moves whenever the physical log does.
    twostate predicate Versioned()
      reads this
    {
      && old(logVersion) <= logVersion
      && (logVersion == old(logVersion) ==> log == old(log) && baseIndex == old(baseIndex) && baseTerm == old(baseTerm))
    }

    constructor (id: Id, peers: set<Id>, initialVoters: set<Id>, threshold: nat)
      requires id !in peers && initialVoters <= peers + {id}
      ensures this.id == id && this.peers == peers && this.initialVoters == initialVoters && this.threshold == threshold
      ensures Valid() && fresh(kv) && Abs() == Start()
      ensures logVersion == 0 && incarnation == 0
    {
      this.id, this.peers, this.initialVoters, this.threshold := id, peers, initialVoters, threshold;
      term, votedFor, log, baseIndex, baseTerm, snapshot := 0, None, [], 0, 0, None;
      voters, configIndex := initialVoters, 0;
      role, commitIndex, lastApplied, applied := Follower, 0, 0, [];
      kv := new KVStateMachine();
      alive, logVersion, incarnation := true, 0, 0;
      nextIndex, matchIndex, votes, clientIndex := map[], map[], {}, map[];
      pendingReads, nextReadId, committedThisTerm := map[], 0, false;
      full := [];
    }

    // ---- log helpers: logical indices in, physical offsets inside ----------------

    function LastLogIndex(): nat
      reads this`baseIndex, this`log
    {
      baseIndex + |log|
    }

    function TermAtIndex(i: nat): nat
      requires i <= LastLogIndex()
      reads this`baseIndex, this`log, this`baseTerm
    {
      if i <= baseIndex then baseTerm else log[i - baseIndex - 1].term
    }

    function EntryAt(i: nat): Entry
      requires baseIndex < i <= LastLogIndex()
      reads this`baseIndex, this`log
    {
      log[i - baseIndex - 1]
    }

    function LogSuffix(from: nat): Log
      requires from <= LastLogIndex() + 1
      reads this`baseIndex, this`log
    {
      log[Max(0, from - baseIndex - 1)..]
    }

    lemma LogicalAccess(i: nat)
      requires LogView(full, log, baseIndex, baseTerm)
      ensures LastLogIndex() == |full|
      ensures baseIndex <= i <= |full| ==> TermAtIndex(i) == TermAt(full, i)
      ensures baseIndex < i <= |full| ==> EntryAt(i) == full[i - 1]
      ensures baseIndex < i <= |full| + 1 ==> LogSuffix(i) == full[i - 1..]
    {
      if baseIndex < i <= |full| + 1 {
        assert full[baseIndex..][i - 1 - baseIndex..] == full[i - 1..];
      }
    }

    // ---- configuration helpers --------------------------------------------------

    method AdoptConfig(newVoters: set<Id>, index: nat)
      modifies `voters, `configIndex
      ensures voters == newVoters && configIndex == index
    {
      voters, configIndex := newVoters, index;
    }

    // The latest configuration entry in the log governs; below the log, the snapshot's;
    // below that, the initial configuration.
    method RebuildConfig()
      requires LogView(full, log, baseIndex, baseTerm) && SnapshotView(initialVoters, full, baseIndex, snapshot)
      modifies `voters, `configIndex
      ensures ConfigView(initialVoters, full, baseIndex, voters, configIndex)
    {
      hide StateAfter, ConfigOf, SnapshotView, ImageOf, TermAt;
      SnapshotFacts(initialVoters, full, baseIndex, snapshot);
      LogicalAccess(0);
      var found: set<Id>, index: nat := initialVoters, 0;
      if snapshot.Some? {
        found, index := snapshot.value.image.voters, snapshot.value.lastIndex;
      }
      found, index := LatestConfig(log, baseIndex, found, index, initialVoters, full);
      AdoptConfig(found, index);
    }

    // Go through the log; the last configuration entry wins over what lies below.
    static method LatestConfig(log: Log, base: nat, below: set<Id>, belowIndex: nat, ghost initial: set<Id>, ghost full: Log)
      returns (found: set<Id>, index: nat)
      requires base <= |full| && log == full[base..] && below == ConfigOf(initial, full[..base]) && belowIndex <= base
      ensures ConfigView(initial, full, base, found, index)
    {
      hide ConfigOf;
      found, index := below, belowIndex;
      assert full[..base + 0] == full[..base];
      for i := 0 to |log|
        invariant found == ConfigOf(initial, full[..base + i])
        invariant IndexView(full[..base + i], base, index)
      {
        ConfigSnoc(initial, full, base + i);
        assert log[i] == full[base + i];
        if log[i].payload.Config? {
          found, index := log[i].payload.voters, base + i + 1;
        }
      }
      assert full[..base + |log|] == full;
    }

    // The configuration in force at a logical index, which a snapshot up to it records.
    method ConfigAt(upto: nat) returns (r: set<Id>)
      requires LogView(full, log, baseIndex, baseTerm) && SnapshotView(initialVoters, full, baseIndex, snapshot)
      requires baseIndex <= upto <= |full|
      ensures r == ConfigOf(initialVoters, full[..upto])
    {
      hide StateAfter, ConfigOf, SnapshotView;
      SnapshotFacts(initialVoters, full, baseIndex, snapshot);
      var i := upto - baseIndex;
      while i > 0
        invariant 0 <= i <= upto - baseIndex
        invariant ConfigOf(initialVoters, full[..upto]) == ConfigOf(initialVoters, full[..baseIndex + i])
      {
        ConfigSnoc(initialVoters, full, baseIndex + i - 1);
        assert log[i - 1] == full[baseIndex + i - 1];
        if log[i - 1].payload.Config? {
          return log[i - 1].payload.voters;
        }
        i := i - 1;
      }
      if snapshot.Some? {
        return snapshot.value.image.voters;
      }
      return initialVoters;
    }

    // ---- crash and restart ------------------------------------------------------

    method Pause()
      requires Valid()
      modifies `alive, `role, `kv, `commitIndex, `lastApplied, `applied, `nextIndex, `matchIndex, `votes, `clientIndex
      modifies `pendingReads, `committedThisTerm, `voters, `configIndex, `incarnation
      ensures Valid() && fresh(kv) && Abs() == Crash(old(Abs())) && incarnation == old(incarnation) + 1
    {
      hide PicturedAll, Sent, PicturedPacket, Pictured;
      alive := false;
      ResetVolatile();
    }

    // Everything volatile is lost; the state machine comes back from the snapshot and the
    // configuration from the log.
    method ResetVolatile()
      requires Valid() && !alive
      modifies `role, `kv, `commitIndex, `lastApplied, `applied, `nextIndex, `matchIndex, `votes, `clientIndex
      modifies `pendingReads, `committedThisTerm, `voters, `configIndex, `incarnation
      ensures Valid() && fresh(kv) && Abs() == Crash(old(Abs())) && incarnation == old(incarnation) + 1
    {
      hide LogView, SnapshotView, ConfigView, AppliedView, ConfigsWithin, LeaderView, StateAfter, ConfigOf;
      RestoreSnapshot();
      applied := [];
      ClearVolatile();
      CrashedView(full, baseIndex);
      NotLeading(Follower);
      RebuildConfig();
      incarnation := incarnation + 1;
    }

    method ClearVolatile()
      modifies `role, `nextIndex, `matchIndex, `votes, `clientIndex, `pendingReads, `committedThisTerm
      ensures role == Follower && nextIndex == map[] && matchIndex == map[] && votes == {}
      ensures clientIndex == map[] && pendingReads == map[] && !committedThisTerm
    {
      role := Follower;
      nextIndex, matchIndex, votes := map[], map[], {};
      clientIndex, pendingReads, committedThisTerm := map[], map[], false;
    }

    // Start over from the persisted snapshot, if there is one.
    method RestoreSnapshot()
      requires SnapshotView(initialVoters, full, baseIndex, snapshot)
      modifies `kv, `commitIndex, `lastApplied
      ensures fresh(kv) && kv.Value() == StateAfter(full[..baseIndex]) && commitIndex == lastApplied == baseIndex <= |full|
    {
      hide StateAfter, ConfigOf, SnapshotView;
      SnapshotFacts(initialVoters, full, baseIndex, snapshot);
      kv := new KVStateMachine();
      if snapshot.Some? {
        kv.Restore(State(snapshot.value.image.store, snapshot.value.image.sessions));
        commitIndex, lastApplied := snapshot.value.lastIndex, snapshot.value.lastIndex;
      } else {
        commitIndex, lastApplied := 0, 0;
      }
    }

    static lemma CrashedView(full: Log, base: nat)
      requires base <= |full|
      ensures AppliedView(full, base, base, base, [], StateAfter(full[..base]))
    {
    }

    method Resume()
      requires Valid()
      modifies `alive
      ensures Valid() && Abs() == RaftSpec.Resume(old(Abs()))
    {
      alive := true;
    }

    // ---- sending ----------------------------------------------------------------

    method SendAppendEntries(peer: Id) returns (p: Packet<Image>)
      requires Valid() && role == Leader && peer in nextIndex
      ensures p == PicturedPacket(initialVoters, AppendFor(id, Abs(), peer))
    {
      hide AppliedView, ConfigView, ConfigsWithin, StateAfter, ConfigOf, AppendFor, PicturedPacket, Pictured;
      var prev := nextIndex[peer] - 1;
      AppendForIs(initialVoters, id, Abs(), peer);
      if prev < baseIndex {
        p := SendInstallSnapshot(peer);
        return;
      }
      LogicalAccess(prev);
      LogicalAccess(prev + 1);
      return Packet(peer, AppendEntries(term, id, prev, TermAtIndex(prev), LogSuffix(prev + 1), commitIndex));
    }

    // The wire form of what a peer is sent next.
    static lemma AppendForIs(initial: set<Id>, id: Id, n: Node, peer: Id)
      requires peer in n.next && n.next[peer] > 0
      ensures var prev: nat := n.next[peer] - 1;
              && (prev < n.base ==> AppendFor(id, n, peer)
                                    == Packet(peer, InstallSnapshot(n.term, id, n.base, TermAt(n.log, n.base), Take(n.log, n.base))))
              && (prev >= n.base ==> PicturedPacket(initial, AppendFor(id, n, peer))
                                     == Packet(peer, AppendEntries(n.term, id, prev, TermAt(n.log, prev), Drop(n.log, prev), n.commit)))
    {
      hide TermAt, Take, Drop;
    }

    method SendInstallSnapshot(peer: Id) returns (p: Packet<Image>)
      requires SnapshotView(initialVoters, full, baseIndex, snapshot) && baseIndex > 0
      ensures p == PicturedPacket(initialVoters,
                                  Packet(peer, InstallSnapshot(term, id, baseIndex, TermAt(full, baseIndex), Take(full, baseIndex))))
    {
      hide StateAfter, ConfigOf;
      var snap := snapshot.value;
      return Packet(peer, InstallSnapshot(term, id, snap.lastIndex, snap.lastTerm, snap.image));
    }

    // The servers this one campaigns to and replicates to.
    method OtherVoters() returns (vs: seq<Id>)
      ensures forall v: Id :: v in vs <==> v in voters && v != id
    {
      vs := [];
      var rest := voters - {id};
      while rest != {}
        invariant rest <= voters - {id}
        invariant forall v: Id :: v in vs <==> v in voters && v != id && v !in rest
        decreases |rest|
      {
        var p :| p in rest;
        vs, rest := vs + [p], rest - {p};
      }
    }

    method BroadcastHeartbeats() returns (sends: seq<Packet<Image>>)
      requires Valid() && role == Leader
      ensures Wires(sends, Heartbeats(Par(), id, Abs()))
    {
      hide LogView, SnapshotView, ConfigsWithin, LeaderView, AppliedView, ConfigView, AppendFor, AppendsTo, Heartbeats, ConfigOf, Wires;
      VotersWithin();
      CurrentVoters();
      NoWires();
      var vs := OtherVoters();
      HeartbeatsAre(Par(), id, Abs(), vs);
      NothingYet(id, Abs(), vs, ReadHeartbeat(0, 0, 0));
      sends := [];
      for i := 0 to |vs|
        invariant Wires(sends, AppendsTo(id, Abs(), vs[..i]))
      {
        assert vs[i] in vs;
        HasProgress(vs[i]);
        var p := SendAppendEntries(vs[i]);
        AppendsMore(id, Abs(), vs, i);
        PacketWire(p, AppendFor(id, Abs(), vs[i]));
        MoreWires(sends, [p], AppendsTo(id, Abs(), vs[..i]), {AppendFor(id, Abs(), vs[i])});
        sends := sends + [p];
      }
      assert vs[..|vs|] == vs;
    }

    lemma PacketWire(p: Packet<Image>, a: Packet<Log>)
      requires p == PicturedPacket(initialVoters, a)
      ensures Wires([p], {a})
    {
      PicturedOne(initialVoters, a);
    }

    lemma HasProgress(p: Id)
      requires Valid() && role == Leader && p in peers + {id} && p != id
      ensures p in nextIndex
    {
    }

    lemma VotersWithin()
      requires Valid()
      ensures voters <= peers + {id}
    {
      ConfigInServers(initialVoters, peers + {id}, full);
    }

    // ---- role transitions -------------------------------------------------------

    method BecomeFollower(newTerm: nat)
      requires Valid()
      modifies `term, `votedFor, `role, `pendingReads
      ensures Valid() && Abs() == RaftSpec.BecomeFollower(old(Abs()), newTerm)
    {
      hide AppliedView, ConfigView, ConfigsWithin, LogView, SnapshotView;
      var changed := newTerm > term;
      term := newTerm;
      if changed {
        votedFor := None;
      }
      if role != Follower || changed {
        role := Follower;
      }
      pendingReads := map[];
    }

    method OnElectionTimeout() returns (sends: seq<Packet<Image>>)
      requires Valid()
      modifies `term, `votedFor, `votes, `role, `nextIndex, `matchIndex, `committedThisTerm, `clientIndex
      ensures Valid() && Abs() == React(Par(), id, old(Abs()), ElectionTimeout).node
      ensures Wires(sends, React(Par(), id, old(Abs()), ElectionTimeout).sends)
    {
      hide LogView, SnapshotView, ConfigsWithin, LeaderView, AppliedView, ConfigView, RaftSpec.StartElection, Wires;
      NoWires();
      if !alive || role == Leader {
        return [];
      }
      sends := StartElection();
    }

    method StartElection() returns (sends: seq<Packet<Image>>)
      requires Valid()
      modifies `term, `votedFor, `votes, `role, `nextIndex, `matchIndex, `committedThisTerm, `clientIndex
      ensures Valid() && Abs() == RaftSpec.StartElection(Par(), id, old(Abs())).node
      ensures Wires(sends, RaftSpec.StartElection(Par(), id, old(Abs())).sends)
    {
      hide LogView, SnapshotView, ConfigsWithin, LeaderView, AppliedView, ConfigView, RaftSpec.MaybeWin, RaftSpec.StartElection, ToEach, ConfigOf, Wires;
      NoWires();
      CurrentVoters();
      if id !in voters {
        NoCampaign(Par(), id, Abs());
        return [];
      }
      Stand();
      ghost var c := Abs();
      ghost var request, vs;
      sends, request, vs := SolicitVotes();
      var more := MaybeWin();
      MoreWires(more, sends, RaftSpec.MaybeWin(Par(), id, c).sends, ToEach(vs, request));
      Campaign(Par(), id, old(Abs()), c, request, vs);
      sends := more + sends;
    }

    // Become a candidate in the next term, with one's own vote.
    method Stand()
      requires Valid()
      modifies `term, `votedFor, `votes, `role
      ensures Valid() && Abs() == old(Abs()).(term := old(term) + 1, role := Candidate, votedFor := Some(id), votes := {id})
    {
      hide LogView, SnapshotView, ConfigsWithin, LeaderView, AppliedView, ConfigView;
      NotLeading(Candidate);
      term := term + 1;
      role := Candidate;
      votedFor := Some(id);
      votes := {id};
    }

    method SolicitVotes() returns (sends: seq<Packet<Image>>, ghost request: Message<Log>, ghost vs: seq<Id>)
      requires Valid()
      ensures request == RequestVote(Abs().term, id, |Abs().log|, TermAt(Abs().log, |Abs().log|))
      ensures Wires(sends, ToEach(vs, request)) && forall v: Id :: v in vs <==> v in voters && v != id
    {
      hide LogView, SnapshotView, ConfigsWithin, LeaderView, AppliedView, ConfigView, ToEach, Wires;
      LogicalAccess(LastLogIndex());
      LogicalAccess(0);
      request := RequestVote(term, id, |full|, TermAt(full, |full|));
      sends, vs := SendToVoters(RequestVote(term, id, LastLogIndex(), TermAtIndex(LastLogIndex())), request);
    }

    static lemma NoCampaign(par: Params, id: Id, n: Node)
      requires id !in Voters(par, n)
      ensures RaftSpec.StartElection(par, id, n) == Quiet(n)
    {
    }

    static lemma Campaign(par: Params, id: Id, n: Node, c: Node, request: Message<Log>, vs: seq<Id>)
      requires forall v: Id :: v in vs <==> v in Voters(par, n) && v != id
      requires id in Voters(par, n) && request == RequestVote(c.term, id, |c.log|, TermAt(c.log, |c.log|))
      requires c == n.(term := n.term + 1, role := Candidate, votedFor := Some(id), votes := {id})
      ensures RaftSpec.StartElection(par, id, n)
              == RaftSpec.MaybeWin(par, id, c).(sends := RaftSpec.MaybeWin(par, id, c).sends + ToEach(vs, request))
    {
      hide RaftSpec.MaybeWin, ConfigOf;
      ToEachSet(vs, request);
    }

    lemma NotLeading(r: Role)
      requires r != Leader
      ensures forall next :: LeaderView(peers + {id}, id, r, full, next)
    {
    }

    // The same message to every other voter.
    method SendToVoters(m: Message<Image>, ghost a: Message<Log>) returns (sends: seq<Packet<Image>>, ghost vs: seq<Id>)
      requires m == Pictured(initialVoters, a)
      ensures Wires(sends, ToEach(vs, a)) && forall v: Id :: v in vs <==> v in voters && v != id
    {
      hide ToEach, Wires, Pictured;
      NoWires();
      var others := OtherVoters();
      NothingYet(id, Abs(), others, a);
      sends := [];
      for i := 0 to |others|
        invariant Wires(sends, ToEach(others[..i], a))
      {
        ToEachMore(others, a, i);
        OneWire(others[i], m, a);
        MoreWires(sends, [Packet(others[i], m)], ToEach(others[..i], a), {Packet(others[i], a)});
        sends := sends + [Packet(others[i], m)];
      }
      assert others[..|others|] == others;
      vs := others;
    }

    method MaybeWin() returns (sends: seq<Packet<Image>>)
      requires Valid()
      modifies `role, `nextIndex, `matchIndex, `committedThisTerm, `clientIndex
      ensures Valid() && Abs() == RaftSpec.MaybeWin(Par(), id, old(Abs())).node
      ensures Wires(sends, RaftSpec.MaybeWin(Par(), id, old(Abs())).sends)
    {
      hide LogView, SnapshotView, ConfigsWithin, LeaderView, AppliedView, ConfigView, RaftSpec.BecomeLeader, Heartbeats, Wires, ConfigOf;
      NoWires();
      CurrentVoters();
      var count := |set v | v in votes && v in voters|;
      assert (set v | v in votes && v in voters) == votes * voters;
      if role == Candidate && count * 2 > |voters| {
        sends := BecomeLeader();
      } else {
        sends := [];
      }
    }

    method BecomeLeader() returns (sends: seq<Packet<Image>>)
      requires Valid()
      modifies `role, `nextIndex, `matchIndex, `committedThisTerm, `clientIndex
      ensures Valid() && Abs() == RaftSpec.BecomeLeader(Par(), id, old(Abs()))
      ensures Wires(sends, Heartbeats(Par(), id, Abs()))
    {
      hide LogView, SnapshotView, ConfigsWithin, LeaderView, AppliedView, ConfigView, RaftSpec.BecomeLeader, Heartbeats, Wires, ConfigOf;
      TakeOffice();
      sends := BroadcastHeartbeats();
    }

    // Progress starts over: everyone is expected to have everything, nobody is known to.
    method TakeOffice()
      requires Valid()
      modifies `role, `nextIndex, `matchIndex, `committedThisTerm, `clientIndex
      ensures Valid() && role == Leader && Abs() == RaftSpec.BecomeLeader(Par(), id, old(Abs()))
    {
      hide LogView, SnapshotView, ConfigsWithin, LeaderView, AppliedView, ConfigView, ClientIndex, FreshNext, FreshMatch, RaftSpec.BecomeLeader;
      LogicalAccess(0);
      NewLeader(Par(), id, peers, Abs());
      RebuildClientIndex();
      ResetProgress(LastLogIndex());
    }

    method ResetProgress(last: nat)
      modifies `role, `nextIndex, `matchIndex, `committedThisTerm
      ensures role == Leader && nextIndex == FreshNext(peers, last) && matchIndex == FreshMatch(peers, id, last)
      ensures !committedThisTerm
    {
      hide FreshNext, FreshMatch;
      role := Leader;
      nextIndex := FreshNext(peers, last);
      matchIndex := FreshMatch(peers, id, last);
      committedThisTerm := false;
    }

    // Highest request id per client in the uncompacted log.
    method RebuildClientIndex()
      requires LogView(full, log, baseIndex, baseTerm)
      modifies `clientIndex
      ensures clientIndex == ClientIndex(Drop(full, baseIndex))
    {
      var index: map<int, int> := map[];
      for i := 0 to |log|
        invariant index == ClientIndex(log[..i])
      {
        assert log[..i + 1][..i] == log[..i];
        var c := CommandOf(log[i].payload);
        if Structured(c) && c.req > IndexFor(index, c.client) {
          index := index[c.client := c.req];
        }
      }
      assert log[..|log|] == log;
      clientIndex := index;
    }

    // ---- committing and applying ------------------------------------------------

    // The highest index a majority of the current configuration holds, if its entry is of
    // the current term.
    method AdvanceCommit() returns (reported: seq<Applied>)
      requires Valid() && role == Leader
      modifies `commitIndex, `lastApplied, `applied, `log, `baseIndex, `baseTerm, `snapshot, `logVersion, `committedThisTerm, kv
      ensures Valid() && Versioned()
      ensures Abs() == RaftSpec.AdvanceCommit(Par(), old(Abs())).node && RaftSpec.AdvanceCommit(Par(), old(Abs())).sends == {}
      ensures reported == RaftSpec.AdvanceCommit(Par(), old(Abs())).applied
    {
      hide LogView, SnapshotView, ConfigsWithin, LeaderView, AppliedView, ConfigView, CommitScan, RaftSpec.MaybeCompact, ApplyRange;
      LogicalLength();
      CurrentVoters();
      var found, n := ScanCommit();
      if found {
        reported := SetCommitIndex(n);
        committedThisTerm := true;
      } else {
        reported := [];
      }
    }

    function MatchAt(peer: Id): nat
      reads this`matchIndex
    {
      if peer in matchIndex then matchIndex[peer] else 0
    }

    lemma CountHolders(n: nat, holders: set<Id>)
      requires voters == ConfigOf(initialVoters, full) && holders == set v | v in voters && MatchAt(v) >= n
      ensures Replicated(Par(), Abs(), n) <==> |holders| * 2 > |voters|
    {
      assert holders == Holders(Par(), Abs(), n);
      assert holders * voters == holders;
    }

    // Downwards from the last index; entries of older terms never commit by counting.
    method ScanCommit() returns (found: bool, n: nat)
      requires LogView(full, log, baseIndex, baseTerm) && baseIndex <= commitIndex <= |full|
      requires voters == ConfigOf(initialVoters, full)
      ensures CommitScan(Par(), Abs(), |full|) == if found then Some(n) else None
      ensures found ==> commitIndex < n <= |full|
    {
      hide LogView, ConfigOf, Replicated;
      LogicalAccess(0);
      n := LastLogIndex();
      while n > commitIndex
        invariant commitIndex <= n <= |full|
        invariant CommitScan(Par(), Abs(), |full|) == CommitScan(Par(), Abs(), n)
      {
        LogicalAccess(n);
        if TermAtIndex(n) != term {
          return false, n;
        }
        var holders := set v | v in voters && MatchAt(v) >= n;
        CountHolders(n, holders);
        if |holders| * 2 > |voters| {
          return true, n;
        }
        n := n - 1;
      }
      return false, n;
    }

    method SetCommitIndex(index: nat) returns (reported: seq<Applied>)
      requires Valid() && index <= |full|
      modifies `commitIndex, `lastApplied, `applied, `log, `baseIndex, `baseTerm, `snapshot, `logVersion, kv
      ensures Valid() && Versioned()
      ensures Abs() == SetCommit(Par(), old(Abs()), index).node
      ensures reported == SetCommit(Par(), old(Abs()), index).applied
    {
      hide LogView, SnapshotView, ConfigsWithin, LeaderView, AppliedView, ConfigView, ApplyRange, StateAfter, RaftSpec.MaybeCompact;
      if index <= commitIndex {
        return [];
      }
      reported := RaiseCommit(index);
      MaybeCompact();
    }

    method RaiseCommit(index: nat) returns (reported: seq<Applied>)
      requires Valid() && commitIndex < index <= |full|
      modifies `commitIndex, `lastApplied, `applied, kv
      ensures Valid() && Abs() == old(Abs()).(commit := index)
      ensures reported == ApplyRange(full, old(commitIndex), index)
    {
      hide LogView, SnapshotView, ConfigsWithin, LeaderView, AppliedView, ConfigView, ApplyRange, StateAfter;
      LogicalLength();
      ghost var from := commitIndex;
      commitIndex := index;
      reported := ApplyCommitted(from);
    }

    static lemma NothingApplied(full: Log, from: nat)
      ensures ApplyRange(full, from, from) == []
    {
    }

    lemma LogicalLength()
      requires LogView(full, log, baseIndex, baseTerm)
      requires AppliedView(full, baseIndex, commitIndex, lastApplied, applied, kv.Value())
      ensures baseIndex <= lastApplied == commitIndex <= |full| == LastLogIndex()
    {
    }

    lemma CurrentVoters()
      requires ConfigView(initialVoters, full, baseIndex, voters, configIndex)
      ensures voters == ConfigOf(initialVoters, full) == RaftSpec.Voters(Par(), Abs())
    {
    }

    // Apply everything up to the commit index, one entry at a time.
    method ApplyCommitted(ghost from: nat) returns (reported: seq<Applied>)
      requires LogView(full, log, baseIndex, baseTerm) && from <= commitIndex <= |full|
      requires lastApplied == from && AppliedView(full, baseIndex, from, from, applied, kv.Value())
      modifies `lastApplied, `applied, kv
      ensures AppliedView(full, baseIndex, commitIndex, lastApplied, applied, kv.Value())
      ensures reported == ApplyRange(full, from, commitIndex)
    {
      hide StateAfter, Apply, ApplyRange, AppliedView, LogView;
      NothingApplied(full, from);
      reported := [];
      while lastApplied < commitIndex
        invariant from <= lastApplied <= commitIndex
        invariant AppliedView(full, baseIndex, lastApplied, lastApplied, applied, kv.Value())
        invariant reported == ApplyRange(full, from, lastApplied)
      {
        ghost var k := lastApplied;
        LogicalAccess(k + 1);
        AppliedSnoc(full, baseIndex, k, applied, kv.Value());
        AppliedSmall(full, baseIndex, k, applied, kv.Value());
        ApplyRangeSnoc(full, from, k);
        lastApplied := lastApplied + 1;
        var payload := EntryAt(lastApplied).payload;
        applied := applied + [payload];
        var result := kv.Apply(CommandOf(payload));
        reported := reported + [Applied(CommandOf(payload), result)];
      }
    }

    lemma BaseFacts()
      requires AppliedView(full, baseIndex, commitIndex, lastApplied, applied, kv.Value())
      ensures baseIndex <= lastApplied == commitIndex <= |full| && |applied| == commitIndex - baseIndex
      ensures kv.Value() == StateAfter(full[..commitIndex])
    {
    }

    // Fold the applied prefix into a snapshot once enough of it has piled up.
    method MaybeCompact()
      requires Valid()
      modifies `log, `applied, `baseIndex, `baseTerm, `snapshot, `logVersion
      ensures Valid() && Versioned() && Abs() == RaftSpec.MaybeCompact(Par(), old(Abs()))
    {
      hide LogView, SnapshotView, ConfigsWithin, LeaderView, AppliedView, ConfigView, StateAfter;
      BaseFacts();
      if threshold <= 0 || lastApplied - baseIndex < threshold {
        return;
      }
      Compact();
    }

    method Compact()
      requires Valid() && baseIndex < commitIndex
      modifies `log, `applied, `baseIndex, `baseTerm, `snapshot, `logVersion
      ensures Valid() && logVersion == old(logVersion) + 1 && Abs() == old(Abs()).(base := old(commitIndex))
    {
      hide LogView, SnapshotView, ConfigsWithin, LeaderView, AppliedView, ConfigView, StateAfter, ConfigOf, ImageOf, TermAt;
      LogicalLength();
      BaseFacts();
      var upto := lastApplied;
      LogicalAccess(upto);
      var lastTerm := TermAtIndex(upto);
      var image := kv.Capture();
      var snapVoters := ConfigAt(upto);
      CompactLog(full, log, baseIndex, baseTerm, upto);
      CompactApplied(full, baseIndex, upto, applied, kv.Value());
      CompactConfig(initialVoters, full, baseIndex, voters, configIndex, upto);
      CompactSnapshot(initialVoters, full, upto, kv.Value());
      DropPrefix(upto, lastTerm, Image(image.store, image.sessions, snapVoters));
    }

    method DropPrefix(upto: nat, lastTerm: nat, image: Image)
      requires baseIndex <= upto && upto - baseIndex <= |log| && upto - baseIndex <= |applied|
      modifies `log, `applied, `baseIndex, `baseTerm, `snapshot, `logVersion
      ensures log == old(log)[upto - old(baseIndex)..] && applied == old(applied)[upto - old(baseIndex)..]
      ensures baseIndex == upto && baseTerm == lastTerm && snapshot == Some(Snapshot(upto, lastTerm, image))
      ensures logVersion == old(logVersion) + 1
    {
      log := log[upto - baseIndex..];
      applied := applied[upto - baseIndex..];
      baseIndex := upto;
      baseTerm := lastTerm;
      snapshot := Some(Snapshot(upto, lastTerm, image));
      logVersion := logVersion + 1;
    }

    // ---- appending and truncating -----------------------------------------------

    method AppendEntry(e: Entry)
      requires Valid() && (e.payload.Config? ==> e.payload.voters <= peers + {id})
      modifies `log, `logVersion, `voters, `configIndex, `full
      ensures Valid() && Versioned() && logVersion == old(logVersion) + 1 && full == old(full) + [e]
      ensures log == old(log) + [e]
    {
      hide StateAfter, ConfigOf;
      GrownView(full, log, baseIndex, baseTerm, e);
      CutSnapshot(initialVoters, full, baseIndex, snapshot, full + [e]);
      CutApplied(full, baseIndex, commitIndex, lastApplied, applied, kv.Value(), full + [e]);
      ConfigGrown(initialVoters, full, baseIndex, voters, configIndex, e);
      log := log + [e];
      full := full + [e];
      logVersion := logVersion + 1;
      if e.payload.Config? {
        AdoptConfig(e.payload.voters, LastLogIndex());
      }
    }

    // Delete everything from a logical index on, above what is committed.
    method TruncateFrom(index: nat)
      requires Valid() && role != Leader && commitIndex < index <= |full|
      modifies `log, `logVersion, `voters, `configIndex, `full
      ensures Valid() && Versioned() && logVersion == old(logVersion) + 1 && full == old(full)[..index - 1]
    {
      hide StateAfter, ConfigOf;
      var k := index - 1;
      CutView(full, log, baseIndex, baseTerm, k);
      CutSnapshot(initialVoters, full, baseIndex, snapshot, full[..k]);
      CutApplied(full, baseIndex, commitIndex, lastApplied, applied, kv.Value(), full[..k]);
      if configIndex < index {
        ConfigKept(initialVoters, full, baseIndex, voters, configIndex, k);
      }
      log := log[..k - baseIndex];
      full := full[..k];
      logVersion := logVersion + 1;
      if configIndex >= index {
        RebuildConfig();
      }
    }

    // A leader appends an entry of its own and replicates it at once.
    method ExtendLog(e: Entry) returns (sends: seq<Packet<Image>>)
      requires Valid() && role == Leader && (e.payload.Config? ==> e.payload.voters <= peers + {id})
      modifies `log, `logVersion, `voters, `configIndex, `full, `matchIndex
      ensures Valid() && Versioned() && Abs() == Extend(old(Abs()), id, e)
      ensures Wires(sends, Heartbeats(Par(), id, Abs()))
    {
      hide LogView, SnapshotView, ConfigsWithin, LeaderView, AppliedView, ConfigView, Heartbeats, Wires, Extend;
      AppendOwn(e);
      sends := BroadcastHeartbeats();
    }

    method AppendOwn(e: Entry)
      requires Valid() && (e.payload.Config? ==> e.payload.voters <= peers + {id})
      modifies `log, `logVersion, `voters, `configIndex, `full, `matchIndex
      ensures Valid() && Versioned() && Abs() == Extend(old(Abs()), id, e)
    {
      hide LogView, SnapshotView, ConfigsWithin, LeaderView, AppliedView, ConfigView;
      AppendEntry(e);
      LogicalAccess(0);
      matchIndex := matchIndex[id := LastLogIndex()];
    }

    // ---- client interface -------------------------------------------------------

    method ClientCommand(p: Payload) returns (accepted: bool, sends: seq<Packet<Image>>)
      requires Valid() && !p.Config?
      modifies `clientIndex, `log, `logVersion, `voters, `configIndex, `full, `matchIndex
      ensures Valid() && Versioned() && Abs() == RaftSpec.ClientCommand(Par(), id, old(Abs()), p).node
      ensures Wires(sends, RaftSpec.ClientCommand(Par(), id, old(Abs()), p).sends)
      ensures accepted <==> old(alive && role == Leader)
    {
      hide LogView, SnapshotView, ConfigsWithin, LeaderView, AppliedView, ConfigView, Heartbeats, Wires;
      NoWires();
      if role != Leader || !alive {
        return false, [];
      }
      var c := CommandOf(p);
      if Structured(c) {
        if c.req <= IndexFor(clientIndex, c.client) {
          return true, [];
        }
        clientIndex := clientIndex[c.client := c.req];
      }
      sends := ExtendLog(Entry(term, p));
      accepted := true;
    }

    method ChangeConfig(newVoters: set<Id>) returns (accepted: bool, sends: seq<Packet<Image>>)
      requires Valid() && newVoters <= peers + {id}
      modifies `log, `logVersion, `voters, `configIndex, `full, `matchIndex
      ensures Valid() && Versioned() && Abs() == RaftSpec.ChangeConfig(Par(), id, old(Abs()), newVoters).node
      ensures Wires(sends, RaftSpec.ChangeConfig(Par(), id, old(Abs()), newVoters).sends)
      ensures accepted <==> MayChange(Par(), id, old(Abs()), newVoters)
    {
      hide LogView, SnapshotView, ConfigsWithin, LeaderView, StateAfter, Heartbeats, Wires;
      NoWires();
      if role != Leader || !alive {
        return false, [];
      }
      if |(newVoters - voters) + (voters - newVoters)| != 1 {
        return false, [];
      }
      if id !in newVoters {
        return false, [];
      }
      if configIndex > commitIndex {
        return false, [];
      }
      if !committedThisTerm {
        return false, [];
      }
      sends := ExtendLog(Entry(term, Config(newVoters)));
      accepted := true;
    }

    // ---- timers -----------------------------------------------------------------

    method OnHeartbeat() returns (sends: seq<Packet<Image>>)
      requires Valid()
      ensures Wires(sends, React(Par(), id, Abs(), HeartbeatTimeout).sends)
    {
      hide LogView, SnapshotView, ConfigsWithin, LeaderView, AppliedView, ConfigView, Heartbeats, Wires;
      NoWires();
      if !alive || role != Leader {
        return [];
      }
      sends := BroadcastHeartbeats();
    }

    // ---- linearizable reads -----------------------------------------------------

    // Record the commit index and ask every other voter to confirm our leadership.
    method RequestRead(c: Command) returns (accepted: bool, sends: seq<Packet<Image>>, reported: seq<Applied>)
      requires Valid()
      modifies `nextReadId, `pendingReads
      ensures Valid() && Abs() == RaftSpec.RequestRead(Par(), id, old(Abs()), c).node
      ensures Wires(sends, RaftSpec.RequestRead(Par(), id, old(Abs()), c).sends)
      ensures reported == RaftSpec.RequestRead(Par(), id, old(Abs()), c).applied
      ensures accepted <==> old(alive && role == Leader && committedThisTerm)
    {
      hide LogView, SnapshotView, ConfigsWithin, LeaderView, AppliedView, ConfigView, ConfigOf, StateAfter, ReadRound, ToEach, TryServe, Wires;
      NoWires();
      if role != Leader || !alive || !committedThisTerm {
        return false, [], [];
      }
      var rid := nextReadId;
      ghost var n := Abs();
      ghost var vs;
      NoteRead(c);
      sends, vs := SendToVoters(ReadHeartbeat(term, id, rid), ReadHeartbeat(term, id, rid));
      CurrentVoters();
      ReadRoundIs(Par(), id, n, vs);
      reported := TryServeRead(rid);
      accepted := true;
    }

    method NoteRead(c: Command)
      requires Valid()
      modifies `nextReadId, `pendingReads
      ensures Valid()
      ensures var n := old(Abs());
              Abs() == n.(nextRead := n.nextRead + 1, pending := n.pending[n.nextRead := PendingRead(c, n.commit, {id})])
    {
      hide LogView, SnapshotView, ConfigsWithin, LeaderView, AppliedView, ConfigView;
      pendingReads := pendingReads[nextReadId := PendingRead(c, commitIndex, {id})];
      nextReadId := nextReadId + 1;
    }

    static lemma ReadRoundIs(par: Params, id: Id, n: Node, vs: seq<Id>)
      requires forall v: Id :: v in vs <==> v in RaftSpec.Voters(par, n) && v != id
      ensures ReadRound(par, id, n) == ToEach(vs, ReadHeartbeat(n.term, id, n.nextRead))
    {
      hide ConfigOf;
      ToEachSet(vs, ReadHeartbeat(n.term, id, n.nextRead));
    }

    // Served once a majority of the current voters confirmed and the state machine has
    // reached the recorded index.
    method TryServeRead(rid: nat) returns (reported: seq<Applied>)
      requires Valid()
      modifies `pendingReads
      ensures Valid() && Abs() == TryServe(Par(), old(Abs()), rid).node
      ensures reported == TryServe(Par(), old(Abs()), rid).applied && TryServe(Par(), old(Abs()), rid).sends == {}
    {
      hide LogView, SnapshotView, ConfigsWithin, LeaderView, AppliedView, ConfigView, ConfigOf, StateAfter;
      if rid !in pendingReads {
        return [];
      }
      CurrentVoters();
      ServedValue(full, baseIndex, commitIndex, lastApplied, applied, kv.Value());
      var r := pendingReads[rid];
      var confirmed := |set a | a in r.acks && a in voters|;
      assert (set a | a in r.acks && a in voters) == r.acks * voters;
      if confirmed * 2 > |voters| && lastApplied >= r.index {
        pendingReads := pendingReads - {rid};
        var result := kv.ApplyRead(r.command);
        return [Applied(r.command, result)];
      }
      return [];
    }

    method OnReadHeartbeat(m: Message<Image>, ghost a: Message<Log>) returns (sends: seq<Packet<Image>>)
      requires Valid() && m == Pictured(initialVoters, a) && m.ReadHeartbeat?
      modifies `term, `votedFor, `role, `pendingReads
      ensures Valid() && Abs() == RaftSpec.OnReadHeartbeat(id, old(Abs()), a).node
      ensures Wires(sends, RaftSpec.OnReadHeartbeat(id, old(Abs()), a).sends)
    {
      hide LogView, SnapshotView, ConfigsWithin, LeaderView, AppliedView, ConfigView, Wires;
      if m.term > term {
        BecomeFollower(m.term);
      }
      OneWire(m.leader, ReadAck(term, id, m.readId), ReadAck(term, id, m.readId));
      return [Packet(m.leader, ReadAck(term, id, m.readId))];
    }

    method OnReadAck(m: Message<Image>, ghost a: Message<Log>) returns (reported: seq<Applied>)
      requires Valid() && m == Pictured(initialVoters, a) && m.ReadAck?
      modifies `term, `votedFor, `role, `pendingReads
      ensures Valid() && Abs() == RaftSpec.OnReadAck(Par(), old(Abs()), a).node
      ensures reported == RaftSpec.OnReadAck(Par(), old(Abs()), a).applied && RaftSpec.OnReadAck(Par(), old(Abs()), a).sends == {}
    {
      hide LogView, SnapshotView, ConfigsWithin, LeaderView, AppliedView, ConfigView, TryServe;
      if m.term > term {
        BecomeFollower(m.term);
        return [];
      }
      if m.readId !in pendingReads || m.term != term || role != Leader {
        return [];
      }
      var r := pendingReads[m.readId];
      pendingReads := pendingReads[m.readId := r.(acks := r.acks + {m.follower})];
      reported := TryServeRead(m.readId);
    }

    // ---- dispatch ---------------------------------------------------------------

    // A crashed server hears nothing.
    method Handle(m: Message<Image>, ghost a: Message<Log>) returns (sends: seq<Packet<Image>>, reported: seq<Applied>)
      requires Valid() && m == Pictured(initialVoters, a) && Fits(Par(), Abs(), a)
      modifies this, kv
      ensures Valid() && Versioned() && incarnation == old(incarnation) && (kv == old(kv) || fresh(kv))
      ensures Abs() == RaftSpec.Handle(Par(), id, old(Abs()), a).node
      ensures Wires(sends, RaftSpec.Handle(Par(), id, old(Abs()), a).sends)
      ensures reported == RaftSpec.Handle(Par(), id, old(Abs()), a).applied
    {
      hide LogView, SnapshotView, ConfigsWithin, LeaderView, AppliedView, ConfigView, Wires, Pictured, Fits, RaftSpec.Handle, RaftSpec.OnRequestVote, RaftSpec.OnVoteReply, RaftSpec.OnAppendEntries, RaftSpec.OnAppendReply, RaftSpec.OnInstallSnapshot, RaftSpec.OnReadHeartbeat, RaftSpec.OnReadAck;
      NoWires();
      HandleIs(Par(), id, Abs(), a);
      sends, reported := [], [];
      if !alive {
        return;
      }
      if m.AppendEntries? || m.AppendReply? || m.InstallSnapshot? {
        sends, reported := HandleReplication(m, a);
      } else {
        sends, reported := HandleVotesAndReads(m, a);
      }
    }

    method HandleReplication(m: Message<Image>, ghost a: Message<Log>) returns (sends: seq<Packet<Image>>, reported: seq<Applied>)
      requires Valid() && m == Pictured(initialVoters, a) && Fits(Par(), Abs(), a) && alive
      requires m.AppendEntries? || m.AppendReply? || m.InstallSnapshot?
      modifies this, kv
      ensures Valid() && Versioned() && incarnation == old(incarnation) && (kv == old(kv) || fresh(kv))
      ensures Abs() == RaftSpec.Handle(Par(), id, old(Abs()), a).node
      ensures Wires(sends, RaftSpec.Handle(Par(), id, old(Abs()), a).sends)
      ensures reported == RaftSpec.Handle(Par(), id, old(Abs()), a).applied
    {
      hide LogView, SnapshotView, ConfigsWithin, LeaderView, AppliedView, ConfigView, Wires, Pictured, Fits, RaftSpec.Handle, RaftSpec.OnRequestVote, RaftSpec.OnVoteReply, RaftSpec.OnAppendEntries, RaftSpec.OnAppendReply, RaftSpec.OnInstallSnapshot, RaftSpec.OnReadHeartbeat, RaftSpec.OnReadAck;
      SameKind(initialVoters, a);
      HandleIs(Par(), id, Abs(), a);
      match m
      case AppendEntries(_, _, _, _, _, _) => sends, reported := OnAppendEntries(m, a);
      case AppendReply(_, _, _, _) => sends, reported := OnAppendReply(m, a);
      case InstallSnapshot(_, _, _, _, _) =>
        sends := OnInstallSnapshot(m, a);
        reported := [];
    }

    method HandleVotesAndReads(m: Message<Image>, ghost a: Message<Log>) returns (sends: seq<Packet<Image>>, reported: seq<Applied>)
      requires Valid() && m == Pictured(initialVoters, a) && alive
      requires !m.AppendEntries? && !m.AppendReply? && !m.InstallSnapshot?
      modifies `term, `votedFor, `pendingReads, `votes, `role, `nextIndex, `matchIndex, `committedThisTerm, `clientIndex
      ensures Valid() && Abs() == RaftSpec.Handle(Par(), id, old(Abs()), a).node
      ensures Wires(sends, RaftSpec.Handle(Par(), id, old(Abs()), a).sends)
      ensures reported == RaftSpec.Handle(Par(), id, old(Abs()), a).applied
    {
      hide LogView, SnapshotView, ConfigsWithin, LeaderView, AppliedView, ConfigView, Wires, Pictured, Fits, RaftSpec.Handle, RaftSpec.OnRequestVote, RaftSpec.OnVoteReply, RaftSpec.OnAppendEntries, RaftSpec.OnAppendReply, RaftSpec.OnInstallSnapshot, RaftSpec.OnReadHeartbeat, RaftSpec.OnReadAck;
      NoWires();
      SameKind(initialVoters, a);
      HandleIs(Par(), id, Abs(), a);
      sends, reported := [], [];
      match m
      case RequestVote(_, _, _, _) => sends := OnRequestVote(m, a);
      case VoteReply(_, _, _) => sends := OnVoteReply(m, a);
      case ReadHeartbeat(_, _, _) => sends := OnReadHeartbeat(m, a);
      case ReadAck(_, _, _) => reported := OnReadAck(m, a);
    }

    // ---- votes ------------------------------------------------------------------

    method OnRequestVote(m: Message<Image>, ghost a: Message<Log>) returns (sends: seq<Packet<Image>>)
      requires Valid() && m == Pictured(initialVoters, a) && m.RequestVote?
      modifies `term, `votedFor, `role, `pendingReads
      ensures Valid() && Abs() == RaftSpec.OnRequestVote(id, old(Abs()), a).node
      ensures Wires(sends, RaftSpec.OnRequestVote(id, old(Abs()), a).sends)
    {
      hide LogView, SnapshotView, ConfigsWithin, LeaderView, AppliedView, ConfigView, Wires, Grants, RaftSpec.BecomeFollower;
      if m.term > term {
        BecomeFollower(m.term);
      }
      var granted := Consider(m, a);
      OneWire(m.candidate, VoteReply(term, id, granted), VoteReply(term, id, granted));
      return [Packet(m.candidate, VoteReply(term, id, granted))];
    }

    // Vote for a candidate of this term whose log is at least as up to date, if still free.
    method Consider(m: Message<Image>, ghost a: Message<Log>) returns (granted: bool)
      requires Valid() && m == Pictured(initialVoters, a) && m.RequestVote?
      modifies `votedFor
      ensures Valid() && granted == Grants(old(Abs()), a)
      ensures Abs() == if granted then old(Abs()).(votedFor := Some(m.candidate)) else old(Abs())
    {
      hide LogView, SnapshotView, ConfigsWithin, LeaderView, AppliedView, ConfigView;
      granted := false;
      LogicalAccess(0);
      LogicalAccess(LastLogIndex());
      if m.term == term && (votedFor == None || votedFor == Some(m.candidate)) {
        var myLastTerm := TermAtIndex(LastLogIndex());
        if m.lastTerm > myLastTerm || (m.lastTerm == myLastTerm && m.lastIndex >= LastLogIndex()) {
          granted := true;
          votedFor := Some(m.candidate);
        }
      }
    }

    method OnVoteReply(m: Message<Image>, ghost a: Message<Log>) returns (sends: seq<Packet<Image>>)
      requires Valid() && m == Pictured(initialVoters, a) && m.VoteReply?
      modifies `term, `votedFor, `pendingReads, `votes, `role, `nextIndex, `matchIndex, `committedThisTerm, `clientIndex
      ensures Valid() && Abs() == RaftSpec.OnVoteReply(Par(), id, old(Abs()), a).node
      ensures Wires(sends, RaftSpec.OnVoteReply(Par(), id, old(Abs()), a).sends)
    {
      hide LogView, SnapshotView, ConfigsWithin, LeaderView, AppliedView, ConfigView, RaftSpec.MaybeWin, Wires;
      NoWires();
      if m.term > term {
        BecomeFollower(m.term);
        return [];
      }
      if role != Candidate || m.term < term || !m.granted {
        return [];
      }
      votes := votes + {m.voter};
      sends := MaybeWin();
    }

    // ---- log replication, receiver ----------------------------------------------

    method OnAppendEntries(m: Message<Image>, ghost a: Message<Log>) returns (sends: seq<Packet<Image>>, reported: seq<Applied>)
      requires Valid() && m == Pictured(initialVoters, a) && m.AppendEntries? && Fits(Par(), Abs(), a)
      modifies `term, `votedFor, `role, `pendingReads, `voters, `configIndex, `full
      modifies `commitIndex, `lastApplied, `applied, `log, `baseIndex, `baseTerm, `snapshot, `logVersion, kv
      ensures Valid() && Versioned() && Abs() == RaftSpec.OnAppendEntries(Par(), id, old(Abs()), a).node
      ensures Wires(sends, RaftSpec.OnAppendEntries(Par(), id, old(Abs()), a).sends)
      ensures reported == RaftSpec.OnAppendEntries(Par(), id, old(Abs()), a).applied
    {
      hide LogView, SnapshotView, ConfigsWithin, LeaderView, AppliedView, ConfigView, HearAppend, Merge, Fits, NoConflict, Wires;
      if m.term > term {
        BecomeFollower(m.term);
      }
      if m.term < term {
        OneWire(m.leader, AppendReply(term, id, false, 0), AppendReply(term, id, false, 0));
        return [Packet(m.leader, AppendReply(term, id, false, 0))], [];
      }
      if role != Follower {
        BecomeFollower(m.term);
      }
      FitsAccept(Par(), old(Abs()), Abs(), a);
      sends, reported := AppendFromLeader(m, a);
    }

    // From the leader of this term: check consistency at the point where entries begin.
    method AppendFromLeader(m: Message<Image>, ghost a: Message<Log>) returns (sends: seq<Packet<Image>>, reported: seq<Applied>)
      requires Valid() && m == Pictured(initialVoters, a) && m.AppendEntries? && role == Follower
      requires NoConflict(full, commitIndex, PrevIndex(Abs(), a), a.entries[Covered(Abs(), a)..])
      requires ConfigsWithin(peers + {id}, a.entries[Covered(Abs(), a)..])
      modifies `voters, `configIndex, `full
      modifies `commitIndex, `lastApplied, `applied, `log, `baseIndex, `baseTerm, `snapshot, `logVersion, kv
      ensures Valid() && Versioned() && Abs() == HearAppend(Par(), id, old(Abs()), a).node
      ensures Wires(sends, HearAppend(Par(), id, old(Abs()), a).sends)
      ensures reported == HearAppend(Par(), id, old(Abs()), a).applied
    {
      hide LogView, SnapshotView, ConfigsWithin, LeaderView, AppliedView, ConfigView, Accept, NoConflict, Wires;
      var prevIndex, prevTerm, entries := UncoveredPart(m, a);
      LogicalAccess(0);
      LogicalAccess(prevIndex);
      var tooShort := LastLogIndex() < prevIndex;
      var termMismatch := !tooShort && TermAtIndex(prevIndex) != prevTerm;
      if prevIndex >= Max(1, baseIndex) && (tooShort || termMismatch) {
        OneWire(m.leader, AppendReply(term, id, false, 0), AppendReply(term, id, false, 0));
        return [Packet(m.leader, AppendReply(term, id, false, 0))], [];
      }
      sends, reported := AcceptEntries(m, a, prevIndex, entries);
    }

    // Entries the snapshot already covers are skipped.
    method UncoveredPart(m: Message<Image>, ghost a: Message<Log>) returns (prevIndex: nat, prevTerm: nat, entries: Log)
      requires m == Pictured(initialVoters, a) && m.AppendEntries?
      ensures prevIndex == PrevIndex(Abs(), a) && prevTerm == PrevTerm(Abs(), a) && entries == a.entries[Covered(Abs(), a)..]
      ensures entries != [] ==> prevIndex >= baseIndex
    {
      prevIndex, prevTerm, entries := m.prevIndex, m.prevTerm, m.entries;
      if prevIndex < baseIndex {
        var covered := Min(|entries|, baseIndex - prevIndex);
        if covered > 0 {
          prevIndex := prevIndex + covered;
          prevTerm := entries[covered - 1].term;
          entries := entries[covered..];
        }
      }
    }

    method AcceptEntries(m: Message<Image>, ghost a: Message<Log>, prevIndex: nat, entries: Log)
      returns (sends: seq<Packet<Image>>, reported: seq<Applied>)
      requires Valid() && m == Pictured(initialVoters, a) && m.AppendEntries? && role == Follower
      requires prevIndex == PrevIndex(Abs(), a) && entries == a.entries[Covered(Abs(), a)..]
      requires prevIndex <= |full| && (entries != [] ==> prevIndex >= baseIndex)
      requires NoConflict(full, commitIndex, prevIndex, entries) && ConfigsWithin(peers + {id}, entries)
      modifies `voters, `configIndex, `full
      modifies `commitIndex, `lastApplied, `applied, `log, `baseIndex, `baseTerm, `snapshot, `logVersion, kv
      ensures Valid() && Versioned() && Abs() == Accept(Par(), id, old(Abs()), a).node
      ensures Wires(sends, Accept(Par(), id, old(Abs()), a).sends)
      ensures reported == Accept(Par(), id, old(Abs()), a).applied
    {
      hide LogView, SnapshotView, ConfigsWithin, LeaderView, AppliedView, ConfigView, SetCommit, Merge, NoConflict, Wires;
      MergeLog(prevIndex, entries);
      var matched := prevIndex + |entries|;
      reported := AdoptCommit(m.leaderCommit, matched);
      OneWire(m.leader, AppendReply(term, id, true, matched), AppendReply(term, id, true, matched));
      sends := [Packet(m.leader, AppendReply(term, id, true, matched))];
    }

    // The leader's commit index, as far as the log is known to agree, and never downwards.
    method AdoptCommit(leaderCommit: nat, matched: nat) returns (reported: seq<Applied>)
      requires Valid() && matched <= |full|
      modifies `commitIndex, `lastApplied, `applied, `log, `baseIndex, `baseTerm, `snapshot, `logVersion, kv
      ensures Valid() && Versioned() && Abs() == SetCommit(Par(), old(Abs()), Min(leaderCommit, matched)).node
      ensures reported == SetCommit(Par(), old(Abs()), Min(leaderCommit, matched)).applied
    {
      hide LogView, SnapshotView, ConfigsWithin, LeaderView, AppliedView, ConfigView, RaftSpec.MaybeCompact, ApplyRange;
      LogicalLength();
      if leaderCommit > commitIndex {
        reported := SetCommitIndex(Max(commitIndex, Min(leaderCommit, matched)));
      } else {
        reported := [];
      }
    }

    method MergeLog(prevIndex: nat, entries: Log)
      requires Valid() && role == Follower && prevIndex <= |full| && (entries != [] ==> prevIndex >= baseIndex)
      requires NoConflict(full, commitIndex, prevIndex, entries) && ConfigsWithin(peers + {id}, entries)
      modifies `log, `logVersion, `voters, `configIndex, `full
      ensures Valid() && Versioned() && prevIndex + |entries| <= |full|
      ensures Abs() == old(Abs()).(log := Merge(old(full), prevIndex, entries))
    {
      hide LogView, SnapshotView, ConfigsWithin, LeaderView, AppliedView, ConfigView, Merge, NoConflict;
      MergeEntries(prevIndex, entries);
    }

    // Walk the entries: skip those already held, cut the log at the first conflict, append
    // the rest.
    method MergeEntries(prevIndex: nat, entries: Log)
      requires Valid() && role == Follower && prevIndex <= |full| && (entries != [] ==> prevIndex >= baseIndex)
      requires NoConflict(full, commitIndex, prevIndex, entries) && ConfigsWithin(peers + {id}, entries)
      modifies `log, `logVersion, `voters, `configIndex, `full
      ensures Valid() && Versioned() && full == Merge(old(full), prevIndex, entries)
      ensures prevIndex + |entries| <= |full|
    {
      hide LogView, SnapshotView, ConfigsWithin, LeaderView, AppliedView, ConfigView, Merge, NoConflict;
      LogicalLength();
      assert entries[0..] == entries;
      var index := prevIndex;
      for i := 0 to |entries|
        invariant Valid() && Versioned() && index == prevIndex + i <= |full|
        invariant Merge(old(full), prevIndex, entries) == Merge(full, index, entries[i..])
        invariant NoConflict(full, commitIndex, index, entries[i..])
      {
        ghost var es := entries[i..];
        assert es[0] == entries[i] && es[1..] == entries[i + 1..];
        index := index + 1;
        LogicalLength();
        LogicalAccess(index);
        ConfigsAt(peers + {id}, entries, i);
        if LastLogIndex() >= index {
          NoConflictFirst(full, commitIndex, index - 1, es);
          if TermAtIndex(index) != entries[i].term {
            MergeStore(full, index - 1, es);
            NoConflictStep(full, commitIndex, index - 1, es, full[..index - 1] + [es[0]]);
            TruncateFrom(index);
          } else {
            MergeMatch(full, index - 1, es);
            NoConflictStep(full, commitIndex, index - 1, es, full);
            continue;
          }
        } else {
          assert full[..index - 1] == full;
          MergeStore(full, index - 1, es);
          NoConflictStep(full, commitIndex, index - 1, es, full[..index - 1] + [es[0]]);
        }
        AppendEntry(entries[i]);
      }
      assert entries[|entries|..] == [];
      MergeDone(full, index);
    }

    // ---- log replication, sender ------------------------------------------------

    method OnAppendReply(m: Message<Image>, ghost a: Message<Log>) returns (sends: seq<Packet<Image>>, reported: seq<Applied>)
      requires Valid() && m == Pictured(initialVoters, a) && m.AppendReply? && Fits(Par(), Abs(), a)
      modifies `term, `votedFor, `role, `pendingReads, `matchIndex, `nextIndex, `committedThisTerm
      modifies `commitIndex, `lastApplied, `applied, `log, `baseIndex, `baseTerm, `snapshot, `logVersion, kv
      ensures Valid() && Versioned() && Abs() == RaftSpec.OnAppendReply(Par(), id, old(Abs()), a).node
      ensures Wires(sends, RaftSpec.OnAppendReply(Par(), id, old(Abs()), a).sends)
      ensures reported == RaftSpec.OnAppendReply(Par(), id, old(Abs()), a).applied
    {
      hide LogView, SnapshotView, ConfigsWithin, LeaderView, AppliedView, ConfigView, RaftSpec.AdvanceCommit, AppendFor, Fits, MatchFor, NextFor, Wires;
      NoWires();
      if m.term > term {
        BecomeFollower(m.term);
        return [], [];
      }
      if role != Leader || m.term < term {
        return [], [];
      }
      AckFits(a);
      if m.success {
        NoteSuccess(m.follower, m.matchIndex);
        reported := AdvanceCommit();
        sends := [];
      } else {
        NoteFailure(m.follower);
        var p := SendAppendEntries(m.follower);
        PacketWire(p, AppendFor(id, Abs(), m.follower));
        sends, reported := [p], [];
      }
    }

    function NextAt(peer: Id): nat
      reads `nextIndex
    {
      if peer in nextIndex then nextIndex[peer] else 1
    }

    // Late or duplicated replies never move progress backwards.
    method NoteSuccess(follower: Id, k: nat)
      requires Valid() && role == Leader && k <= |full|
      modifies `matchIndex, `nextIndex
      ensures Valid()
      ensures var n := old(Abs());
              Abs() == n.(matched := n.matched[follower := Max(MatchFor(n, follower), k)],
              next := n.next[follower := Max(NextFor(n, follower), k + 1)])
    {
      hide LogView, SnapshotView, ConfigsWithin, AppliedView, ConfigView;
      matchIndex := matchIndex[follower := Max(MatchAt(follower), k)];
      nextIndex := nextIndex[follower := Max(NextAt(follower), k + 1)];
    }

    // Back off by one, never below the first index.
    method NoteFailure(follower: Id)
      requires Valid() && role == Leader
      modifies `nextIndex
      ensures Valid() && follower in nextIndex
      ensures var n := old(Abs());
              Abs() == n.(next := n.next[follower := Max(1, NextFor(n, follower) - 1)])
    {
      hide LogView, SnapshotView, ConfigsWithin, AppliedView, ConfigView;
      nextIndex := nextIndex[follower := Max(1, NextAt(follower) - 1)];
    }

    lemma AckFits(a: Message<Log>)
      requires a.AppendReply? && Fits(Par(), Abs(), a)
      ensures role == Leader && a.term == term && a.success ==> a.matchIndex <= |full|
    {
    }

    // ---- snapshots, receiver ----------------------------------------------------

    method OnInstallSnapshot(m: Message<Image>, ghost a: Message<Log>) returns (sends: seq<Packet<Image>>)
      requires Valid() && m == Pictured(initialVoters, a) && m.InstallSnapshot? && Fits(Par(), Abs(), a)
      modifies `term, `votedFor, `role, `pendingReads, `voters, `configIndex, `full, `kv
      modifies `commitIndex, `lastApplied, `applied, `log, `baseIndex, `baseTerm, `snapshot, `logVersion
      ensures Valid() && Versioned() && (kv == old(kv) || fresh(kv))
      ensures Abs() == RaftSpec.OnInstallSnapshot(Par(), id, old(Abs()), a).node
      ensures Wires(sends, RaftSpec.OnInstallSnapshot(Par(), id, old(Abs()), a).sends)
    {
      hide LogView, SnapshotView, ConfigsWithin, LeaderView, AppliedView, ConfigView, Install, ImageWithin, ImageOf, Wires;
      if m.term < term {
        OneWire(m.leader, AppendReply(term, id, false, 0), AppendReply(term, id, false, 0));
        return [Packet(m.leader, AppendReply(term, id, false, 0))];
      }
      if m.term > term || role != Follower {
        BecomeFollower(m.term);
      }
      var matched := TakeSnapshot(m, a);
      OneWire(m.leader, AppendReply(term, id, true, matched), AppendReply(term, id, true, matched));
      return [Packet(m.leader, AppendReply(term, id, true, matched))];
    }

    // Install the image unless everything it covers is already committed here; report the
    // committed prefix, which is all that is sure to match.
    method TakeSnapshot(m: Message<Image>, ghost a: Message<Log>) returns (matched: nat)
      requires Valid() && m == Pictured(initialVoters, a) && m.InstallSnapshot? && a.InstallSnapshot? && role == Follower
      requires ImageWithin(Par(), a.lastIndex, a.lastTerm, a.image)
      modifies `voters, `configIndex, `full, `kv
      modifies `commitIndex, `lastApplied, `applied, `log, `baseIndex, `baseTerm, `snapshot, `logVersion
      ensures Valid() && Versioned() && (kv == old(kv) || fresh(kv))
      ensures Abs() == if m.lastIndex <= old(commitIndex) then old(Abs()) else Install(old(Abs()), a)
      ensures matched == if m.lastIndex <= old(commitIndex) then old(commitIndex) else m.lastIndex
    {
      hide LogView, SnapshotView, ConfigsWithin, LeaderView, AppliedView, ConfigView, Install, ImageWithin, Pictured;
      if m.lastIndex <= commitIndex {
        return commitIndex;
      }
      InstallImage(m, a);
      return m.lastIndex;
    }

    // Take over the image; keep the log beyond it only where it agrees with the image's end.
    method InstallImage(m: Message<Image>, ghost a: Message<Log>)
      requires Valid() && m == Pictured(initialVoters, a) && m.InstallSnapshot? && a.InstallSnapshot? && role == Follower
      requires ImageWithin(Par(), a.lastIndex, a.lastTerm, a.image) && m.lastIndex > commitIndex
      modifies `voters, `configIndex, `full, `kv
      modifies `commitIndex, `lastApplied, `applied, `log, `baseIndex, `baseTerm, `snapshot, `logVersion
      ensures Valid() && logVersion > old(logVersion) && fresh(kv)
      ensures Abs() == Install(old(Abs()), a)
    {
      hide LogView, SnapshotView, ConfigsWithin, LeaderView, AppliedView, ConfigView, Pictured, ImageOf, ImageWithin, ConfigOf, StateAfter, Install, Installed, Tail, TermAt;
      LogicalLength();
      LogicalAccess(m.lastIndex);
      var keepTail := LastLogIndex() >= m.lastIndex && TermAtIndex(m.lastIndex) == m.lastTerm;
      InstallFacts(Par(), Abs(), log, baseTerm, a, m, keepTail);
      Replace(Tail(log, m.lastIndex - baseIndex, keepTail), Installed(full, a.image, keepTail), m.lastIndex, m.lastTerm, m.image);
    }

    method Replace(newLog: Log, ghost newFull: Log, lastIndex: nat, lastTerm: nat, image: Image)
      requires Valid() && role == Follower
      requires LogView(newFull, newLog, lastIndex, lastTerm) && ConfigsWithin(peers + {id}, newFull)
      requires SnapshotView(initialVoters, newFull, lastIndex, Some(Snapshot(lastIndex, lastTerm, image)))
      requires AppliedView(newFull, lastIndex, lastIndex, lastIndex, [], State(image.store, image.sessions))
      modifies `voters, `configIndex, `full, `kv
      modifies `commitIndex, `lastApplied, `applied, `log, `baseIndex, `baseTerm, `snapshot, `logVersion
      ensures Valid() && logVersion == old(logVersion) + 1 && fresh(kv)
      ensures Abs() == old(Abs()).(log := newFull, base := lastIndex, commit := lastIndex)
    {
      hide LogView, SnapshotView, ConfigsWithin, LeaderView, AppliedView, ConfigView;
      ReplaceLog(newLog, newFull, lastIndex, lastTerm, image);
      ReplaceState(lastIndex, image);
      NotLeading(Follower);
    }

    method ReplaceLog(newLog: Log, ghost newFull: Log, lastIndex: nat, lastTerm: nat, image: Image)
      requires LogView(newFull, newLog, lastIndex, lastTerm)
      requires SnapshotView(initialVoters, newFull, lastIndex, Some(Snapshot(lastIndex, lastTerm, image)))
      modifies `voters, `configIndex, `full, `log, `baseIndex, `baseTerm, `snapshot, `logVersion
      ensures full == newFull && baseIndex == lastIndex && logVersion == old(logVersion) + 1
      ensures LogView(full, log, baseIndex, baseTerm) && SnapshotView(initialVoters, full, baseIndex, snapshot)
      ensures ConfigView(initialVoters, full, baseIndex, voters, configIndex)
    {
      hide LogView, SnapshotView, ConfigsWithin, LeaderView, AppliedView, ConfigView;
      log, full := newLog, newFull;
      snapshot := Some(Snapshot(lastIndex, lastTerm, image));
      baseIndex, baseTerm := lastIndex, lastTerm;
      logVersion := logVersion + 1;
      RebuildConfig();
    }

    method ReplaceState(lastIndex: nat, image: Image)
      modifies `kv, `commitIndex, `lastApplied, `applied
      ensures fresh(kv) && kv.Value() == State(image.store, image.sessions)
      ensures commitIndex == lastApplied == lastIndex && applied == []
    {
      kv := new KVStateMachine();
      kv.Restore(State(image.store, image.sessions));
      commitIndex, lastApplied := lastIndex, lastIndex;
      applied := [];
    }
  }
}
