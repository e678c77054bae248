// How a server's physical fields represent its logical log: the refinement relation of the
// class RaftNode, as predicates on values, and how each field update preserves it. The
// physical log is a suffix of the logical one, the snapshot is the image of the rest, the
// voters are those of the latest configuration entry, and the state machine is the fold of
// what is committed. Messages have a wire form too: a snapshot travels as its image.
module NodeViews {
  import opened Prelude
  import opened KvStore
  import opened RaftTypes
  import opened RaftSpec
  import C = Completeness

  // What travels in a snapshot message and what is persisted.
  datatype Image = Image(store: Store, sessions: map<int, Session>, voters: set<Id>)

  datatype Snapshot = Snapshot(lastIndex: nat, lastTerm: nat, image: Image)

  function ImageOf(initial: set<Id>, prefix: Log): Image {
    Image(StateAfter(prefix).store, StateAfter(prefix).sessions, ConfigOf(initial, prefix))
  }

  // A protocol message as it goes over the wire: the compacted prefix becomes its image.
  function Pictured(initial: set<Id>, m: Message<Log>): Message<Image> {
    match m
    case RequestVote(t, c, li, lt) => RequestVote(t, c, li, lt)
    case VoteReply(t, v, g) => VoteReply(t, v, g)
    case AppendEntries(t, l, pi, pt, es, lc) => AppendEntries(t, l, pi, pt, es, lc)
    case AppendReply(t, f, s, mi) => AppendReply(t, f, s, mi)
    case InstallSnapshot(t, l, li, lt, prefix) => InstallSnapshot(t, l, li, lt, ImageOf(initial, prefix))
    case ReadHeartbeat(t, l, r) => ReadHeartbeat(t, l, r)
    case ReadAck(t, f, r) => ReadAck(t, f, r)
  }

  function PicturedPacket(initial: set<Id>, p: Packet<Log>): Packet<Image> {
    Packet(p.dst, Pictured(initial, p.msg))
  }

  function PicturedAll(initial: set<Id>, ps: set<Packet<Log>>): set<Packet<Image>> {
    set p | p in ps :: PicturedPacket(initial, p)
  }

  lemma PicturedUnion(initial: set<Id>, a: set<Packet<Log>>, b: set<Packet<Log>>)
    ensures PicturedAll(initial, a + b) == PicturedAll(initial, a) + PicturedAll(initial, b)
  {
  }

  lemma PicturedFrom(initial: set<Id>, ps: set<Packet<Log>>, p: Packet<Image>) returns (q: Packet<Log>)
    requires p in PicturedAll(initial, ps)
    ensures q in ps && PicturedPacket(initial, q) == p
  {
    q :| q in ps && PicturedPacket(initial, q) == p;
  }

  lemma PicturedNone(initial: set<Id>)
    ensures PicturedAll(initial, {}) == {}
  {
  }

  lemma PicturedOne(initial: set<Id>, p: Packet<Log>)
    ensures PicturedAll(initial, {p}) == {PicturedPacket(initial, p)}
  {
    forall q | q in PicturedAll(initial, {p})
      ensures q == PicturedPacket(initial, p)
    {
    }
  }

  // The next append to each of a list of peers, and one message to each.
  function AppendsTo(id: Id, n: Node, vs: seq<Id>): set<Packet<Log>> {
    if vs == [] then {} else AppendsTo(id, n, vs[..|vs| - 1]) + {AppendFor(id, n, vs[|vs| - 1])}
  }

  function ToEach(vs: seq<Id>, m: Message<Log>): set<Packet<Log>> {
    if vs == [] then {} else ToEach(vs[..|vs| - 1], m) + {Packet(vs[|vs| - 1], m)}
  }

  lemma NothingYet(id: Id, n: Node, vs: seq<Id>, m: Message<Log>)
    ensures AppendsTo(id, n, vs[..0]) == {} && ToEach(vs[..0], m) == {}
  {
  }

  lemma AppendsMore(id: Id, n: Node, vs: seq<Id>, k: nat)
    requires k < |vs|
    ensures AppendsTo(id, n, vs[..k + 1]) == AppendsTo(id, n, vs[..k]) + {AppendFor(id, n, vs[k])}
  {
    assert vs[..k + 1][..k] == vs[..k];
  }

  lemma ToEachMore(vs: seq<Id>, m: Message<Log>, k: nat)
    requires k < |vs|
    ensures ToEach(vs[..k + 1], m) == ToEach(vs[..k], m) + {Packet(vs[k], m)}
  {
    assert vs[..k + 1][..k] == vs[..k];
  }

  lemma {:induction false} AppendsToSet(id: Id, n: Node, vs: seq<Id>)
    ensures AppendsTo(id, n, vs) == set v | v in vs :: AppendFor(id, n, v)
  {
    if vs != [] {
      AppendsToSet(id, n, vs[..|vs| - 1]);
      assert vs == vs[..|vs| - 1] + [vs[|vs| - 1]];
    }
  }

  lemma {:induction false} ToEachSet(vs: seq<Id>, m: Message<Log>)
    ensures ToEach(vs, m) == set v | v in vs :: Packet(v, m)
  {
    if vs != [] {
      ToEachSet(vs[..|vs| - 1], m);
      assert vs == vs[..|vs| - 1] + [vs[|vs| - 1]];
    }
  }

  lemma HeartbeatsAre(par: Params, id: Id, n: Node, vs: seq<Id>)
    requires forall v: Id :: v in vs <==> v in ConfigOf(par.initial, n.log) && v != id
    ensures Heartbeats(par, id, n) == AppendsTo(id, n, vs)
  {
    hide AppendFor;
    AppendsToSet(id, n, vs);
  }

  // A new leader's progress tables, by peer.
  function FreshNext(peers: set<Id>, last: nat): map<Id, nat> {
    map p | p in peers :: last + 1
  }

  function FreshMatch(peers: set<Id>, id: Id, last: nat): map<Id, nat> {
    (map p | p in peers :: 0)[id := last]
  }

  lemma NewLeader(par: Params, id: Id, peers: set<Id>, n: Node)
    requires id !in peers && par.servers == peers + {id}
    ensures BecomeLeader(par, id, n)
            == n.(role := Leader, next := FreshNext(peers, |n.log|), matched := FreshMatch(peers, id, |n.log|),
               confirmed := false, clientIndex := ClientIndex(Drop(n.log, n.base)))
    ensures LeaderView(par.servers, id, Leader, n.log, FreshNext(peers, |n.log|))
  {
    hide ClientIndex;
    var l := BecomeLeader(par, id, n);
    assert l.next == FreshNext(peers, |n.log|);
    assert l.matched == FreshMatch(peers, id, |n.log|);
  }

  // ---- the views --------------------------------------------------------------

  // The physical log is the logical one above the base.
  ghost predicate LogView(full: Log, log: Log, base: nat, baseTerm: nat) {
    base <= |full| && log == full[base..] && baseTerm == TermAt(full, base)
  }

  ghost predicate SnapshotView(initial: set<Id>, full: Log, base: nat, snapshot: Option<Snapshot>) {
    && base <= |full|
    && (snapshot.None? <==> base == 0)
    && (snapshot.Some? ==> snapshot.value == Snapshot(base, TermAt(full, base), ImageOf(initial, full[..base])))
  }

  // The cached configuration is the derived one; its cached index may be stale only where
  // it no longer matters, at or below the base.
  ghost predicate ConfigView(initial: set<Id>, full: Log, base: nat, voters: set<Id>, configIndex: nat) {
    && voters == ConfigOf(initial, full)
    && IndexView(full, base, configIndex)
  }

  ghost predicate IndexView(full: Log, base: nat, configIndex: nat) {
    configIndex == ConfigIndex(full) || (configIndex <= base && ConfigIndex(full) <= base)
  }

  function Payloads(log: Log): (r: seq<Payload>)
    ensures |r| == |log| && forall i | 0 <= i < |log| :: r[i] == log[i].payload
  {
    seq(|log|, i requires 0 <= i < |log| => log[i].payload)
  }

  // The state machine is the committed log, applied.
  ghost predicate AppliedView(full: Log, base: nat, commit: nat, lastApplied: nat, applied: seq<Payload>, state: State) {
    && base <= lastApplied == commit <= |full|
    && applied == Payloads(full[base..commit])
    && state == StateAfter(full[..commit])
  }

  ghost predicate LeaderView(servers: set<Id>, id: Id, role: Role, full: Log, next: map<Id, nat>) {
    role == Leader ==>
      && servers - {id} <= next.Keys
      && forall p | p in next :: 1 <= next[p] <= |full| + 1
  }

  ghost predicate ConfigsWithin(servers: set<Id>, log: Log) {
    forall i | 0 <= i < |log| && log[i].payload.Config? :: log[i].payload.voters <= servers
  }

  // ---- one entry at a time ----------------------------------------------------

  lemma StateAfterSnoc(log: Log, k: nat)
    requires k < |log|
    ensures StateAfter(log[..k + 1]) == Apply(StateAfter(log[..k]), CommandOf(log[k].payload)).0
  {
    var cs := Commands(log[..k + 1]);
    assert cs[..k] == Commands(log[..k]);
  }

  lemma AppliedSnoc(full: Log, base: nat, k: nat, applied: seq<Payload>, state: State)
    requires AppliedView(full, base, k, k, applied, state) && k < |full|
    ensures AppliedView(full, base, k + 1, k + 1, applied + [full[k].payload], Apply(state, CommandOf(full[k].payload)).0)
  {
    hide StateAfter, Apply;
    StateAfterSnoc(full, k);
    assert full[base..k + 1] == full[base..k] + [full[k]];
  }

  lemma AppliedSmall(full: Log, base: nat, k: nat, applied: seq<Payload>, state: State)
    requires AppliedView(full, base, k, k, applied, state)
    ensures base <= k <= |full| && state == StateAfter(full[..k])
  {
  }

  lemma SnapshotFacts(initial: set<Id>, full: Log, base: nat, snapshot: Option<Snapshot>)
    requires SnapshotView(initial, full, base, snapshot)
    ensures base <= |full| && (snapshot.None? ==> base == 0)
    ensures snapshot.Some? ==> snapshot.value.lastIndex == base > 0 && snapshot.value.image.voters == ConfigOf(initial, full[..base])
    ensures snapshot.Some? ==> State(snapshot.value.image.store, snapshot.value.image.sessions) == StateAfter(full[..base])
    ensures snapshot.None? ==> ConfigOf(initial, full[..base]) == initial && StateAfter(full[..base]) == EMPTY
  {
    assert Commands(full[..0]) == [];
  }

  lemma {:induction false} ApplyRangeSnoc(log: Log, from: nat, k: nat)
    requires from <= k < |log|
    ensures ApplyRange(log, from, k + 1)
            == ApplyRange(log, from, k) + [Applied(CommandOf(log[k].payload), Apply(StateAfter(log[..k]), CommandOf(log[k].payload)).1)]
    decreases k - from
  {
    hide StateAfter, Apply;
    if from < k {
      ApplyRangeSnoc(log, from + 1, k);
    } else {
      assert ApplyRange(log, k + 1, k + 1) == [];
    }
  }

  lemma ConfigSnoc(initial: set<Id>, log: Log, k: nat)
    requires k < |log|
    ensures ConfigOf(initial, log[..k + 1]) == if log[k].payload.Config? then log[k].payload.voters else ConfigOf(initial, log[..k])
    ensures ConfigIndex(log[..k + 1]) == if log[k].payload.Config? then k + 1 else ConfigIndex(log[..k])
  {
    assert log[..k + 1][..k] == log[..k];
  }

  lemma {:induction false} ConfigInServers(initial: set<Id>, servers: set<Id>, log: Log)
    requires initial <= servers && ConfigsWithin(servers, log)
    ensures ConfigOf(initial, log) <= servers
  {
    if log != [] {
      var n := |log| - 1;
      ConfigInServers(initial, servers, log[..n]);
    }
  }

  lemma {:induction false} ConfigIndexPrefix(log: Log, k: nat)
    requires k <= |log| && ConfigIndex(log) <= k
    ensures ConfigIndex(log[..k]) == ConfigIndex(log)
  {
    if k < |log| {
      ConfigIndexPrefix(log[..|log| - 1], k);
      assert log[..|log| - 1][..k] == log[..k];
    } else {
      assert log[..k] == log;
    }
  }

  // ---- truncating and appending -----------------------------------------------

  // Cutting the log above the base, where no configuration entry is lost.
  lemma ConfigKept(initial: set<Id>, full: Log, base: nat, voters: set<Id>, configIndex: nat, k: nat)
    requires ConfigView(initial, full, base, voters, configIndex)
    requires base <= k <= |full| && configIndex <= k
    ensures ConfigView(initial, full[..k], base, voters, configIndex)
  {
    ConfigIndexPrefix(full, k);
    C.ConfigOfPrefix(initial, full, k);
  }

  lemma CutView(full: Log, log: Log, base: nat, baseTerm: nat, k: nat)
    requires LogView(full, log, base, baseTerm) && base <= k <= |full|
    ensures LogView(full[..k], log[..k - base], base, baseTerm)
  {
  }

  lemma CutSnapshot(initial: set<Id>, full: Log, base: nat, snapshot: Option<Snapshot>, x: Log)
    requires SnapshotView(initial, full, base, snapshot) && base <= |x| && x[..base] == full[..base]
    ensures SnapshotView(initial, x, base, snapshot)
  {
    if base > 0 {
      assert x[base - 1] == x[..base][base - 1] == full[..base][base - 1] == full[base - 1];
    }
  }

  lemma CutApplied(full: Log, base: nat, commit: nat, lastApplied: nat, applied: seq<Payload>, state: State, x: Log)
    requires AppliedView(full, base, commit, lastApplied, applied, state)
    requires commit <= |x| && x[..commit] == full[..commit]
    ensures AppliedView(x, base, commit, lastApplied, applied, state)
  {
    assert x[base..commit] == x[..commit][base..] == full[..commit][base..] == full[base..commit];
  }

  lemma GrownView(full: Log, log: Log, base: nat, baseTerm: nat, e: Entry)
    requires LogView(full, log, base, baseTerm)
    ensures LogView(full + [e], log + [e], base, baseTerm)
  {
    assert (full + [e])[base..] == full[base..] + [e];
  }

  lemma ConfigGrown(initial: set<Id>, full: Log, base: nat, voters: set<Id>, configIndex: nat, e: Entry)
    requires ConfigView(initial, full, base, voters, configIndex)
    ensures ConfigView(initial, full + [e], base,
                       if e.payload.Config? then e.payload.voters else voters,
                       if e.payload.Config? then |full| + 1 else configIndex)
  {
    ConfigSnoc(initial, full + [e], |full|);
    assert (full + [e])[..|full|] == full && (full + [e])[..|full| + 1] == full + [e];
  }

  // ---- merging one entry at a time --------------------------------------------

  lemma MergeMatch(full: Log, at: nat, es: Log)
    requires es != [] && at < |full| && full[at].term == es[0].term
    ensures Merge(full, at, es) == Merge(full, at + 1, es[1..])
  {
  }

  lemma MergeStore(full: Log, at: nat, es: Log)
    requires es != [] && at <= |full| && !(at < |full| && full[at].term == es[0].term)
    ensures Merge(full, at, es) == Merge(full[..at] + [es[0]], at + 1, es[1..])
  {
    var x := full[..at] + [es[0]];
    if es[1..] == [] {
      assert es == [es[0]];
      assert Merge(x, at + 1, []) == x;
    } else {
      assert Take(x, at + 1) == x;
      assert full[..at] + es == x + es[1..];
    }
  }

  // No entry a message brings conflicts with the log at or below the commit index.
  ghost predicate NoConflict(full: Log, commit: nat, at: nat, es: Log) {
    forall i | 0 <= i < |es| && at + i < commit && at + i < |full| :: full[at + i].term == es[i].term
  }

  // ---- compacting -------------------------------------------------------------

  lemma CompactLog(full: Log, log: Log, base: nat, baseTerm: nat, k: nat)
    requires LogView(full, log, base, baseTerm) && base <= k <= |full|
    ensures LogView(full, log[k - base..], k, TermAt(full, k))
  {
  }

  lemma CompactApplied(full: Log, base: nat, commit: nat, applied: seq<Payload>, state: State)
    requires AppliedView(full, base, commit, commit, applied, state)
    ensures AppliedView(full, commit, commit, commit, applied[commit - base..], state)
  {
  }

  lemma CompactSnapshot(initial: set<Id>, full: Log, k: nat, state: State)
    requires 0 < k <= |full| && state == StateAfter(full[..k])
    ensures SnapshotView(initial, full, k,
                         Some(Snapshot(k, TermAt(full, k), Image(state.store, state.sessions, ConfigOf(initial, full[..k])))))
  {
  }

  lemma CompactConfig(initial: set<Id>, full: Log, base: nat, voters: set<Id>, configIndex: nat, k: nat)
    requires ConfigView(initial, full, base, voters, configIndex) && base <= k
    ensures ConfigView(initial, full, k, voters, configIndex)
  {
  }

  // ---- what a message must bring for the handlers to be safe to run -----------

  // True of every message in flight (module Refinement): entries agree with what is
  // committed, acknowledgements and snapshots stay within the sender's log.
  ghost predicate Fits(par: Params, n: Node, m: Message<Log>) {
    match m
    case AppendEntries(t, _, _, _, es, _) =>
      t >= n.term ==> ConfigsWithin(par.servers, es) && NoConflict(n.log, n.commit, PrevIndex(n, m), es[Covered(n, m)..])
    case AppendReply(t, _, success, k) =>
      n.role == Leader && t == n.term && success ==> k <= |n.log|
    case InstallSnapshot(t, _, li, lt, image) =>
      t >= n.term ==> ImageWithin(par, li, lt, image)
    case _ => true
  }

  ghost predicate ImageWithin(par: Params, lastIndex: nat, lastTerm: nat, image: Log) {
    |image| == lastIndex > 0 && lastTerm == image[lastIndex - 1].term && ConfigsWithin(par.servers, image)
  }

  // The part of an accepted message that is compared with the log.
  lemma FitsAccept(par: Params, n: Node, f: Node, m: Message<Log>)
    requires m.AppendEntries? && m.term >= n.term && Fits(par, n, m)
    requires f.log == n.log && f.base == n.base && f.commit == n.commit
    ensures NoConflict(f.log, f.commit, PrevIndex(f, m), m.entries[Covered(f, m)..])
    ensures ConfigsWithin(par.servers, m.entries[Covered(f, m)..])
  {
    forall i | 0 <= i < |m.entries[Covered(f, m)..]| && m.entries[Covered(f, m)..][i].payload.Config?
      ensures m.entries[Covered(f, m)..][i].payload.voters <= par.servers
    {
      assert m.entries[Covered(f, m)..][i] == m.entries[Covered(f, m) + i];
    }
  }

  lemma ConfigsAt(servers: set<Id>, es: Log, i: nat)
    requires ConfigsWithin(servers, es) && i < |es|
    ensures es[i].payload.Config? ==> es[i].payload.voters <= servers
  {
  }

  lemma MergeDone(full: Log, at: nat)
    ensures Merge(full, at, []) == full
  {
  }

  lemma NoConflictStep(full: Log, commit: nat, at: nat, es: Log, x: Log)
    requires NoConflict(full, commit, at, es) && es != [] && commit <= |full| && commit <= |x| && x[..commit] == full[..commit]
    ensures NoConflict(x, commit, at + 1, es[1..])
  {
    forall i | 0 <= i < |es[1..]| && at + 1 + i < commit && at + 1 + i < |x|
      ensures x[at + 1 + i].term == es[1..][i].term
    {
      assert x[at + 1 + i] == x[..commit][at + 1 + i] == full[at + (i + 1)];
    }
  }

  lemma NoConflictFirst(full: Log, commit: nat, at: nat, es: Log)
    requires NoConflict(full, commit, at, es) && es != [] && at < |full|
    ensures at < commit ==> full[at].term == es[0].term
  {
    if at < commit {
      assert full[at + 0].term == es[0].term;
    }
  }

  // ---- what a pictured snapshot carries ---------------------------------------

  lemma SnapshotPictured(initial: set<Id>, a: Message<Log>)
    requires a.InstallSnapshot?
    ensures var m := Pictured(initial, a);
            && m.InstallSnapshot? && m.term == a.term && m.leader == a.leader
            && m.lastIndex == a.lastIndex && m.lastTerm == a.lastTerm && m.image == ImageOf(initial, a.image)
            && State(m.image.store, m.image.sessions) == StateAfter(a.image)
  {
    hide StateAfter, ConfigOf;
  }

  lemma ImageFacts(par: Params, lastIndex: nat, lastTerm: nat, image: Log)
    requires ImageWithin(par, lastIndex, lastTerm, image)
    ensures |image| == lastIndex > 0 && lastTerm == image[lastIndex - 1].term && ConfigsWithin(par.servers, image)
  {
  }

  // ---- installing an image ----------------------------------------------------

  // The logical and physical log once an image is installed.
  ghost function Installed(full: Log, image: Log, keep: bool): Log
    requires keep ==> |image| <= |full|
  {
    if keep then image + full[|image|..] else image
  }

  function Tail(log: Log, k: nat, keep: bool): Log
    requires keep ==> k <= |log|
  {
    if keep then log[k..] else []
  }

  lemma InstallIs(f: Node, m: Message<Log>, keep: bool)
    requires m.InstallSnapshot? && |m.image| == m.lastIndex
    requires keep == (|f.log| >= m.lastIndex && TermAt(f.log, m.lastIndex) == m.lastTerm)
    ensures Install(f, m) == f.(log := Installed(f.log, m.image, keep), base := m.lastIndex, commit := m.lastIndex)
  {
  }

  lemma InstallViews(initial: set<Id>, servers: set<Id>, full: Log, log: Log, base: nat, baseTerm: nat, image: Log, keep: bool)
    requires LogView(full, log, base, baseTerm) && image != [] && base <= |image|
    requires keep ==> |image| <= |full|
    requires ConfigsWithin(servers, full) && ConfigsWithin(servers, image)
    ensures keep ==> |image| - base <= |log|
    ensures var x, li := Installed(full, image, keep), |image|;
            && LogView(x, Tail(log, li - base, keep), li, image[li - 1].term)
            && SnapshotView(initial, x, li, Some(Snapshot(li, image[li - 1].term, ImageOf(initial, image))))
            && AppliedView(x, li, li, li, [], StateAfter(image))
            && ConfigsWithin(servers, x)
  {
    hide StateAfter, ConfigOf;
    var x, li := Installed(full, image, keep), |image|;
    assert x[..li] == image;
    if keep {
      assert x[li..] == full[li..] == full[base..][li - base..];
    }
  }

  lemma ServedValue(full: Log, base: nat, commit: nat, lastApplied: nat, applied: seq<Payload>, state: State)
    requires AppliedView(full, base, commit, lastApplied, applied, state)
    ensures Take(full, commit) == full[..commit] && state == StateAfter(full[..commit]) && lastApplied == commit
  {
  }

  // Everything installing a snapshot message needs, from what the message fits.
  lemma InstallFacts(par: Params, f: Node, log: Log, baseTerm: nat, a: Message<Log>, m: Message<Image>, keep: bool)
    requires a.InstallSnapshot? && m == Pictured(par.initial, a) && ImageWithin(par, a.lastIndex, a.lastTerm, a.image)
    requires LogView(f.log, log, f.base, baseTerm) && f.base <= m.lastIndex && ConfigsWithin(par.servers, f.log)
    requires m.InstallSnapshot? && keep == (|f.log| >= m.lastIndex && TermAt(f.log, m.lastIndex) == m.lastTerm)
    ensures keep ==> m.lastIndex <= |f.log| && m.lastIndex - f.base <= |log| && |a.image| <= |f.log|
    ensures var x := Installed(f.log, a.image, keep);
            && Install(f, a) == f.(log := x, base := m.lastIndex, commit := m.lastIndex)
            && LogView(x, Tail(log, m.lastIndex - f.base, keep), m.lastIndex, m.lastTerm)
            && SnapshotView(par.initial, x, m.lastIndex, Some(Snapshot(m.lastIndex, m.lastTerm, m.image)))
            && AppliedView(x, m.lastIndex, m.lastIndex, m.lastIndex, [], State(m.image.store, m.image.sessions))
            && ConfigsWithin(par.servers, x)
  {
    hide LogView, SnapshotView, AppliedView, ConfigsWithin, Pictured, ImageOf, ConfigOf, StateAfter, Installed, Tail, TermAt, Install;
    SnapshotPictured(par.initial, a);
    ImageFacts(par, a.lastIndex, a.lastTerm, a.image);
    InstallViews(par.initial, par.servers, f.log, log, f.base, baseTerm, a.image, keep);
    InstallIs(f, a, keep);
    LogViewLength(f.log, log, f.base, baseTerm);
  }

  lemma LogViewLength(full: Log, log: Log, base: nat, baseTerm: nat)
    requires LogView(full, log, base, baseTerm)
    ensures |full| == base + |log|
  {
  }

  // ---- dispatch ---------------------------------------------------------------

  lemma SameKind(initial: set<Id>, a: Message<Log>)
    ensures var m := Pictured(initial, a);
            && (m.RequestVote? <==> a.RequestVote?) && (m.VoteReply? <==> a.VoteReply?)
            && (m.AppendEntries? <==> a.AppendEntries?) && (m.AppendReply? <==> a.AppendReply?)
            && (m.InstallSnapshot? <==> a.InstallSnapshot?) && (m.ReadHeartbeat? <==> a.ReadHeartbeat?)
            && (m.ReadAck? <==> a.ReadAck?)
  {
    hide StateAfter, ConfigOf;
  }

  // Only replies to appends, appended entries and read acknowledgements report anything.
  lemma HandleIs(par: Params, id: Id, n: Node, m: Message<Log>)
    ensures !n.alive ==> Handle(par, id, n, m) == Quiet(n)
    ensures n.alive && m.RequestVote? ==> Handle(par, id, n, m) == OnRequestVote(id, n, m) && Handle(par, id, n, m).applied == []
    ensures n.alive && m.VoteReply? ==> Handle(par, id, n, m) == OnVoteReply(par, id, n, m) && Handle(par, id, n, m).applied == []
    ensures n.alive && m.AppendEntries? ==> Handle(par, id, n, m) == OnAppendEntries(par, id, n, m)
    ensures n.alive && m.AppendReply? ==> Handle(par, id, n, m) == OnAppendReply(par, id, n, m)
    ensures n.alive && m.InstallSnapshot? ==> Handle(par, id, n, m) == OnInstallSnapshot(par, id, n, m) && Handle(par, id, n, m).applied == []
    ensures n.alive && m.ReadHeartbeat? ==> Handle(par, id, n, m) == OnReadHeartbeat(id, n, m) && Handle(par, id, n, m).applied == []
    ensures n.alive && m.ReadAck? ==> Handle(par, id, n, m) == OnReadAck(par, n, m)
  {
    hide MaybeWin, OnAppendEntries, OnAppendReply, Install, Grants, OnReadAck;
    WinsQuietly(par, id, if m.VoteReply? then n.(votes := n.votes + {m.voter}) else n);
  }

  lemma WinsQuietly(par: Params, id: Id, n: Node)
    ensures MaybeWin(par, id, n).applied == []
  {
    hide Heartbeats, Majority, BecomeLeader;
  }
}
