// What clients observe is linearizable, in every run: with operations going through the
// log, and with gets served by ReadIndex, through crashes, message loss and reordering,
// compaction and membership changes.
module Clients {
  import opened Prelude
  import opened KvStore
  import opened RaftTypes
  import opened RaftSpec
  import opened History
  import opened Invariant
  import opened Safety
  import opened Histories
  import opened World
  import opened Witness
  import opened Books
  import Moves
  import H = Handlers
  import E = Effects
  import S = Sessions
  import O = Oracle
  import OC = OracleCheck

  // ---- the committed log, the servers and the messages -------------------------

  // Everything committed is known; snapshots carry committed prefixes; client entries
  // belong to operations that were invoked; so do pending reads, which started when at
  // least the log of their invocation was committed.
  ghost predicate Known(x: Aux, n: Node) {
    n.commit <= |n.log| && n.log[..n.commit] <= x.glog
  }

  ghost predicate AllKnown(s: Sys, x: Aux) {
    && (forall i | i in s.nodes :: Known(x, s.nodes[i]))
    && (forall p | p in s.net && p.msg.InstallSnapshot? :: p.msg.image <= x.glog)
  }

  ghost predicate Backed(h: Hist, p: Log) {
    p == [] || exists c | c in h.commits :: p <= Done(c)
  }

  ghost predicate LogsOwned(su: Setup, x: Aux, h: Hist) {
    forall t | t in h.reigns :: Owned(su, x, h.reigns[t].log)
  }

  ghost predicate Covered(h: Hist, commits: set<Commit>, k: nat) {
    k == 0 || exists c | c in commits :: k <= c.index
  }

  ghost predicate ReadOwned(su: Setup, x: Aux, h: Hist, m: ReadMark) {
    && m.command in x.owner && !LogOp(su, m.command)
    && x.owner[m.command] < |x.born| && Covered(h, m.commits, x.born[x.owner[m.command]])
  }

  ghost predicate PendingOwned(su: Setup, x: Aux, h: Hist, id: Id, n: Node) {
    forall r | r in n.pending :: (id, r) in h.marks && ReadOwned(su, x, h, h.marks[(id, r)])
  }

  ghost predicate ReadsOwned(su: Setup, x: Aux, s: Sys, h: Hist) {
    forall i | i in s.nodes :: PendingOwned(su, x, h, i, s.nodes[i])
  }

  ghost predicate Joined(su: Setup, s: Sys, x: Aux, h: Hist) {
    && Inv(su.par, s, h)
    && AllKnown(s, x) && Backed(h, x.glog)
    && LogsOwned(su, x, h) && ReadsOwned(su, x, s, h)
  }

  ghost predicate WorldInv(su: Setup, w: World, x: Aux, h: Hist) {
    Booked(su, w, x, w.now) && Joined(su, w.sys, x, h)
  }

  // ---- ownership --------------------------------------------------------------

  // More operations invoked, more of the log committed.
  ghost predicate Wider(x1: Aux, x2: Aux) {
    && (forall c | c in x1.owner :: c in x2.owner && x2.owner[c] == x1.owner[c])
    && x1.born <= x2.born && x1.glog <= x2.glog
  }

  lemma OwnedWider(su: Setup, x1: Aux, x2: Aux, log: Log)
    requires Wider(x1, x2) && Owned(su, x1, log)
    ensures Owned(su, x2, log)
  {
  }

  lemma OwnedGrounded(su: Setup, x: Aux, h: Hist, log: Log)
    requires LogsOwned(su, x, h) && Grounded(h, log)
    ensures Owned(su, x, log)
  {
    if log != [] {
      LastTermPrefix(h, log);
      var l := h.reigns[log[|log| - 1].term].log;
      assert Owned(su, x, l);
      forall k | 0 <= k < |log| && log[k].payload.Client?
        ensures log[k].payload.command in x.owner && LogOp(su, log[k].payload.command)
      {
        assert log[k] == l[k];
      }
    }
  }

  lemma OwnedMore(su: Setup, x: Aux, log: Log, e: Entry)
    requires Owned(su, x, log) && (e.payload.Client? ==> e.payload.command in x.owner && LogOp(su, e.payload.command))
    ensures Owned(su, x, log + [e])
  {
  }

  // What the event brings to a log is owned.
  ghost predicate EventOwned(su: Setup, x: Aux, ev: Event) {
    && (ev.Command? && ev.payload.Client? ==> ev.payload.command in x.owner && LogOp(su, ev.payload.command))
    && (ev.ReadRequest? ==> ev.command in x.owner && !LogOp(su, ev.command) && x.owner[ev.command] < |x.born|
                            && x.born[x.owner[ev.command]] <= |x.glog|)
  }

  lemma StepLogsOwned(su: Setup, s: Sys, x: Aux, h: Hist, l: Label, h2: Hist)
    requires Inv(su.par, s, h) && Enabled(su.par, s, l) && Extends(su.par, s, l, h, h2)
    requires LogsOwned(su, x, h) && EventOwned(su, x, l.event)
    ensures LogsOwned(su, x, h2)
  {
    hide HistOk, NodeOk, SendsOk, React, Moves.Marked, Owned, Grows, Moves.CommitsBy, LogOk, VotesOk, AcksOk, CandidateOk, LeaderOk, ReadsOk;
    var n := s.nodes[l.who];
    assert NodeOk(su.par, h, l.who, s.nodes[l.who]);
    Parts(su.par, h, l.who, n);
    S.LogGrounded(h, n);
    OwnedGrounded(su, x, h, n.log);
    S.LeaderLogStep(su.par, l.who, n, l.event);
    var n2 := Outcome(su.par, s, l).node;
    if n2.role == Leader && n2.log != n.log {
      var e :| S.OwnEntry(n, l.event, e) && n2.log == n.log + [e];
      OwnedMore(su, x, n.log, e);
    }
  }

  // ---- pending reads ----------------------------------------------------------

  lemma ReadOwnedLater(su: Setup, x1: Aux, x2: Aux, h1: Hist, h2: Hist, m: ReadMark)
    requires Wider(x1, x2) && ReadOwned(su, x1, h1, m)
    ensures ReadOwned(su, x2, h2, m)
  {
  }

  lemma PendingOwnedLater(su: Setup, x1: Aux, x2: Aux, h1: Hist, h2: Hist, id: Id, n: Node)
    requires Wider(x1, x2) && Later(h1, h2) && PendingOwned(su, x1, h1, id, n)
    ensures PendingOwned(su, x2, h2, id, n)
  {
    forall r | r in n.pending
      ensures (id, r) in h2.marks && ReadOwned(su, x2, h2, h2.marks[(id, r)])
    {
      ReadOwnedLater(su, x1, x2, h1, h2, h1.marks[(id, r)]);
    }
  }

  // A read just taken on starts when everything committed so far is committed.
  lemma NewReadOwned(su: Setup, x: Aux, h: Hist, id: Id, n: Node, c: KvStore.Command)
    requires Backed(h, x.glog) && EventOwned(su, x, ReadRequest(c))
    ensures ReadOwned(su, x, Moves.Marked(h, id, n, c), Moves.Marked(h, id, n, c).marks[(id, n.nextRead)])
  {
    if x.glog != [] {
      var k :| k in h.commits && x.glog <= Done(k);
      assert |x.glog| <= k.index;
    }
  }

  lemma StepReadsOwned(su: Setup, s: Sys, x: Aux, h: Hist, l: Label, h2: Hist)
    requires Enabled(su.par, s, l) && Extends(su.par, s, l, h, h2) && Later(h, h2)
    requires Backed(h, x.glog) && ReadsOwned(su, x, s, h) && EventOwned(su, x, l.event)
    ensures ReadsOwned(su, x, After(su.par, s, l), h2)
  {
    hide React, ReadOwned, Backed, Moves.Marked, Moves.CommitsBy, Moves.ReignsBy, EventOwned;
    var s2, n := After(su.par, s, l), s.nodes[l.who];
    E.PendingStep(su.par, l.who, n, l.event);
    forall i | i in s2.nodes
      ensures PendingOwned(su, x, h2, i, s2.nodes[i])
    {
      assert PendingOwned(su, x, h, i, s.nodes[i]);
      if i != l.who {
        PendingOwnedLater(su, x, x, h, h2, i, s.nodes[i]);
      } else {
        OwnReadsOwned(su, x, h, l.who, n, l.event, s2.nodes[i], h2);
      }
    }
  }

  lemma OwnReadsOwned(su: Setup, x: Aux, h: Hist, id: Id, n: Node, ev: Event, n2: Node, h2: Hist)
    requires Later(h, h2) && PendingOwned(su, x, h, id, n) && E.PendingFrom(id, n, ev, n2)
    requires H.Accepted(n, ev) ==> h2 == Moves.Marked(h, id, n, ev.command)
    requires Backed(h, x.glog) && EventOwned(su, x, ev)
    ensures PendingOwned(su, x, h2, id, n2)
  {
    hide ReadOwned, Backed, EventOwned;
    forall r | r in n2.pending
      ensures (id, r) in h2.marks && ReadOwned(su, x, h2, h2.marks[(id, r)])
    {
      if r in n.pending && n2.pending[r].command == n.pending[r].command {
        ReadOwnedLater(su, x, x, h, h2, h.marks[(id, r)]);
      } else {
        NewReadOwned(su, x, h, id, n, ev.command);
        assert (id, n.nextRead) in Moves.Marked(h, id, n, ev.command).marks;
      }
    }
  }

  // ---- the committed log after a step -----------------------------------------

  // One server's committed prefix and the known committed log are on one branch.
  lemma OneBranch(par: Params, h: Hist, id: Id, n: Node, p: Log)
    requires HistOk(par, h) && NodeOk(par, h, id, n) && Backed(h, p)
    ensures n.commit <= |n.log| && (n.log[..n.commit] <= p || p <= n.log[..n.commit])
    ensures Backed(h, n.log[..n.commit])
  {
    hide HistOk, VotesOk, AcksOk, CandidateOk, LeaderOk, ReadsOk, Grounded;
    Parts(par, h, id, n);
    if p != [] {
      var c :| c in h.commits && p <= Done(c);
      DecidedAgree(par, h, n.term, n.log[..n.commit], c.term, p);
    }
  }

  lemma StepKnown(par: Params, s: Sys, x: Aux, l: Label, x2: Aux)
    requires l.who in s.nodes && AllKnown(s, x) && x.glog <= x2.glog
    requires var n2 := Outcome(par, s, l).node; Known(x2, n2) && n2.base <= n2.commit
    ensures AllKnown(After(par, s, l), x2)
  {
    hide React;
    var o, s2 := Outcome(par, s, l), After(par, s, l);
    E.SentImages(par, l.who, s.nodes[l.who], l.event);
    forall p | p in s2.net && p.msg.InstallSnapshot?
      ensures p.msg.image <= x2.glog
    {
      if p in o.sends {
        assert p.msg.image == o.node.log[..o.node.commit][..o.node.base];
      }
    }
    forall i | i in s2.nodes
      ensures Known(x2, s2.nodes[i])
    {
      if i != l.who {
        assert Known(x, s.nodes[i]);
      }
    }
  }

  // ---- what is reported keeps the books ---------------------------------------

  // The books do not depend on the servers or the clock.
  lemma BookedSame(su: Setup, w: World, w2: World, x: Aux, bound: nat)
    requires w2.rows == w.rows && w2.outstanding == w.outstanding && w2.nextReq == w.nextReq && w2.waiting == w.waiting
    requires Booked(su, w, x, bound)
    ensures Booked(su, w2, x, bound)
  {
    SameRows(w, w2, x, bound);
    SamePlaces(su, w, w2, x);
    assert Sequential(w2) && WaitingOk(w2) && TimesOk(w2, x);
  }

  lemma SameRows(w: World, w2: World, x: Aux, bound: nat)
    requires w2.rows == w.rows && w2.outstanding == w.outstanding && w2.nextReq == w.nextReq && w2.waiting == w.waiting
    requires RowsOk(w, x, bound)
    ensures RowsOk(w2, x, bound)
  {
    forall i | 0 <= i < |w2.rows|
      ensures RowOk(w2, x, i, bound)
    {
      assert RowOk(w, x, i, bound);
    }
  }

  lemma SamePlaces(su: Setup, w: World, w2: World, x: Aux)
    requires w2.rows == w.rows && EntriesOk(su, w, x) && PlacesOk(su, w, x) && ServedOk(w, x)
    ensures EntriesOk(su, w2, x) && PlacesOk(su, w2, x) && ServedOk(w2, x)
  {
    hide StateAfter, Execute;
    forall i | i in x.place
      ensures PlaceOk(su, w2, x, i)
    {
      assert PlaceOk(su, w, x, i);
    }
    forall k | 0 <= k < |x.glog| && x.glog[k].payload.Client?
      ensures EntryOk(su, w2, x, k)
    {
      assert EntryOk(su, w, x, k);
    }
    forall p, j, k | 0 <= p < |x.served| && 0 <= j < k < |x.served[p]|
      ensures Before(w2, x.served[p][j], x.served[p][k])
    {
      assert Before(w, x.served[p][j], x.served[p][k]);
    }
  }

  // The step's node after it, its reports, and the grown log.
  lemma StepBooked(su: Setup, w: World, s: Sys, x: Aux, h: Hist, l: Label, h2: Hist) returns (x2: Aux)
    requires Booked(su, w, x, w.now + 1) && Joined(su, s, x, h) && Enabled(su.par, s, l)
    requires Inv(su.par, After(su.par, s, l), h2) && Extends(su.par, s, l, h, h2)
    requires EventOwned(su, x, l.event) && LogsOwned(su, x, h2) && Later(h, h2)
    ensures Booked(su, Reported(w, Outcome(su.par, s, l).applied), x2, w.now + 1)
    ensures Wider(x, x2) && Known(x2, Outcome(su.par, s, l).node) && Backed(h2, x2.glog)
  {
    hide Booked, HistOk, NodeOk, SendsOk, React, Extends, Reported, StateAfter, Backed, LogsOwned, Owned;
    var n, o := s.nodes[l.who], Outcome(su.par, s, l);
    assert NodeOk(su.par, h, l.who, s.nodes[l.who]);
    assert NodeOk(su.par, h2, l.who, After(su.par, s, l).nodes[l.who]);
    EventFair(su.par, s, h, l);
    assert Known(x, n);
    BackedLater(h, h2, x.glog);
    OneBranch(su.par, h2, l.who, o.node, x.glog);
    NodeOwned(su, x, h2, l.who, o.node);
    if ReadEvent(l.event) && o.applied != [] {
      x2 := ServeBooked(su, w, s, x, h, l);
    } else {
      StepShape(su.par, h, l.who, n, l.event);
      if E.Applies(n, o) {
        AppliesFrom(x, n, o);
        x2 := BookRange(su, w, x, o.node.log, n.commit, o.node.commit);
        FurtherBacked(h2, x, o.node);
      } else {
        ResetKnown(s, x, l, n, o);
        x2 := x;
        NothingReported(w);
      }
    }
  }

  predicate ReadEvent(ev: Event) {
    ev.ReadRequest? || (ev.Receive? && ev.msg.ReadAck?)
  }

  lemma NothingReported(w: World)
    ensures Reported(w, []) == w
  {
  }

  lemma BackedLater(h1: Hist, h2: Hist, p: Log)
    requires Later(h1, h2) && Backed(h1, p)
    ensures Backed(h2, p)
  {
  }

  lemma NodeOwned(su: Setup, x: Aux, h: Hist, id: Id, n: Node)
    requires NodeOk(su.par, h, id, n) && LogsOwned(su, x, h)
    ensures Owned(su, x, n.log)
  {
    hide Owned, LogsOwned;
    Parts(su.par, h, id, n);
    OwnedGrounded(su, x, h, n.log);
  }

  lemma AppliesFrom(x: Aux, n: Node, o: Out)
    requires Known(x, n) && E.Applies(n, o)
    ensures o.node.log[..n.commit] <= x.glog && n.commit <= o.node.commit <= |o.node.log|
    ensures o.applied == ApplyRange(o.node.log, n.commit, o.node.commit)
  {
    assert o.node.log[..n.commit] == n.log[..n.commit];
  }

  lemma FurtherBacked(h: Hist, x: Aux, n: Node)
    requires n.commit <= |n.log| && Backed(h, x.glog) && Backed(h, n.log[..n.commit])
    requires n.log[..n.commit] <= x.glog || x.glog <= n.log[..n.commit]
    ensures var g := Further(x.glog, n.log[..n.commit]);
            Backed(h, g) && x.glog <= g && n.log[..n.commit] <= g
  {
  }

  lemma ResetKnown(s: Sys, x: Aux, l: Label, n: Node, o: Out)
    requires AllKnown(s, x) && Known(x, n) && E.Resets(n, l.event, o)
    requires l.event.Receive? ==> Packet(l.who, l.event.msg) in s.net
    ensures Known(x, o.node) && o.applied == []
  {
  }

  // Every step that serves no read applies entries or resets.
  lemma StepShape(par: Params, h: Hist, id: Id, n: Node, ev: Event)
    requires HistOk(par, h) && NodeOk(par, h, id, n) && H.Fair(par, h, id, ev) && id in par.servers
    requires ReadEvent(ev) ==> React(par, id, n, ev).applied == []
    ensures E.Applies(n, React(par, id, n, ev)) || E.Resets(n, ev, React(par, id, n, ev))
  {
    hide HistOk, NodeOk, React;
    Parts(par, h, id, n);
    E.Committed(h, n);
    match ev
    case ReadRequest(c) => E.ReadRequestShape(par, id, n, c);
    case Receive(m) =>
      if m.ReadAck? {
        E.ReadAckShape(par, id, n, m);
      } else {
        E.AppliedStep(par, h, id, n, ev);
      }
    case _ => E.AppliedStep(par, h, id, n, ev);
  }

  // A served read belongs to an operation whose invocation saw no more than was served.
  lemma ServeBooked(su: Setup, w: World, s: Sys, x: Aux, h: Hist, l: Label) returns (x2: Aux)
    requires Booked(su, w, x, w.now + 1) && Joined(su, s, x, h) && Enabled(su.par, s, l)
    requires EventOwned(su, x, l.event) && ReadEvent(l.event) && Outcome(su.par, s, l).applied != []
    ensures Booked(su, Reported(w, Outcome(su.par, s, l).applied), x2, w.now + 1)
    ensures x2.glog == x.glog && x2.owner == x.owner && x2.born == x.born && Known(x, Outcome(su.par, s, l).node)
  {
    hide Booked, HistOk, NodeOk, SendsOk, React, Reported, StateAfter, LogsOwned, EventOwned, Read;
    var n, o := s.nodes[l.who], Outcome(su.par, s, l);
    var c := ReadFound(su, s, x, h, l);
    x2 := BookRead(su, w, x, c, n.commit);
    assert Known(x, n);
    assert x.glog[..n.commit] == n.log[..n.commit];
    OneReport(w, o.applied[0]);
    assert o.applied == [o.applied[0]];
  }

  lemma OneReport(w: World, a: Applied)
    ensures Reported(w, [a]) == OnApply(w, a)
  {
    assert [a][1..] == [];
  }

  lemma ReadFound(su: Setup, s: Sys, x: Aux, h: Hist, l: Label) returns (c: KvStore.Command)
    requires Joined(su, s, x, h) && Enabled(su.par, s, l)
    requires EventOwned(su, x, l.event) && ReadEvent(l.event) && Outcome(su.par, s, l).applied != []
    ensures E.ServesRead(s.nodes[l.who], Outcome(su.par, s, l), c)
    ensures c in x.owner && !LogOp(su, c) && x.owner[c] < |x.born| && x.born[x.owner[c]] <= s.nodes[l.who].commit
  {
    hide HistOk, NodeOk, React, StateAfter, LogsOwned, LogOp;
    var n := s.nodes[l.who];
    assert NodeOk(su.par, h, l.who, s.nodes[l.who]);
    if l.event.ReadRequest? {
      c := l.event.command;
      E.ServedAtOnce(su.par, h, l.who, n, c);
      if x.glog != [] {
        var k :| k in h.commits && x.glog <= Done(k);
        assert |x.glog| <= k.index;
      }
    } else {
      assert MsgOk(h, Packet(l.who, l.event.msg));
      E.ReadAckServes(su.par, h, l.who, n, l.event.msg);
      var m := h.marks[(l.who, l.event.msg.readId)];
      c := m.command;
      assert PendingOwned(su, x, h, l.who, s.nodes[l.who]);
      assert ReadOwned(su, x, h, m);
    }
  }

  // ---- one move ---------------------------------------------------------------

  lemma JoinedWider(su: Setup, s: Sys, x1: Aux, x2: Aux, h: Hist)
    requires Joined(su, s, x1, h) && Wider(x1, x2) && x1.glog == x2.glog
    ensures Joined(su, s, x2, h)
  {
    hide Inv;
    forall t | t in h.reigns
      ensures Owned(su, x2, h.reigns[t].log)
    {
      OwnedWider(su, x1, x2, h.reigns[t].log);
    }
    forall i | i in s.nodes
      ensures PendingOwned(su, x2, h, i, s.nodes[i])
    {
      PendingOwnedLater(su, x1, x2, h, h, i, s.nodes[i]);
    }
  }

  // Before the server reacts: the operation, if new, is invoked and booked.
  lemma ReadyBooked(su: Setup, w: World, x: Aux, h: Hist, m: Move) returns (x1: Aux)
    requires WorldInv(su, w, x, h) && MayMove(su, w, m)
    ensures Booked(su, Ready(w, m), x1, w.now + 1) && Joined(su, w.sys, x1, h)
    ensures EventOwned(su, x1, LabelOf(su, m).event) && Ready(w, m).now == w.now
    ensures Enabled(su.par, w.sys, LabelOf(su, m))
  {
    hide Joined, Inv;
    if m.Tick? && m.client !in w.outstanding {
      x1 := Invoked(w, x, m.command);
      BookInvoke(su, w, x, m.command);
      NewCommand(su, w, x, w.now, m.command);
      JoinedWider(su, w.sys, x, x1, h);
    } else {
      x1 := x;
      BookWait(su, w, x, w.now);
    }
    if m.Tick? {
      CommandOwned(su, Ready(w, m), x1, w.now + 1, m.client, m.command);
    }
  }

  lemma CommandOwned(su: Setup, w: World, x: Aux, bound: nat, client: nat, c: KvStore.Command)
    requires Booked(su, w, x, bound) && client in w.outstanding && w.outstanding[client] == c
    ensures EventOwned(su, x, Attempt(su, c))
  {
    hide EntriesOk, PlacesOk, ServedOk, TimesOk, Sequential;
    var i := w.waiting[c];
    assert RowOk(w, x, i, bound);
  }

  lemma MoveKeeps(su: Setup, w: World, x: Aux, h: Hist, m: Move) returns (x2: Aux, h2: Hist)
    requires WorldInv(su, w, x, h) && MayMove(su, w, m)
    ensures WorldInv(su, Moved(su, w, m), x2, h2)
  {
    hide Booked, Inv, Extends, After, React, Reported, Backed, LogsOwned, ReadsOwned, AllKnown;
    var l := LabelOf(su, m);
    var x1 := ReadyBooked(su, w, x, h, m);
    h2 := StepInv(su.par, w.sys, h, l);
    LaterFrom(su.par, w.sys, l, h, h2);
    StepLogsOwned(su, w.sys, x1, h, l, h2);
    var s2, w1 := After(su.par, w.sys, l), Ready(w, m);
    BookedSame(su, w1, w1.(sys := s2), x1, w.now + 1);
    x2 := StepBooked(su, w1.(sys := s2), w.sys, x1, h, l, h2);
    CommitWithin(su.par, w.sys, l, h2);
    StepKnown(su.par, w.sys, x1, l, x2);
    StepReadsOwned(su, w.sys, x1, h, l, h2);
    WiderOwned(su, s2, x1, x2, h2);
    ReportedSys(w1.(sys := s2), Outcome(su.par, w.sys, l).applied);
    var w3 := Reported(w1.(sys := s2), Outcome(su.par, w.sys, l).applied);
    BookedSame(su, w3, w3.(now := w.now + 1), x2, w.now + 1);
  }

  lemma LaterFrom(par: Params, s: Sys, l: Label, h: Hist, h2: Hist)
    requires l.who in s.nodes && Extends(par, s, l, h, h2)
    ensures Later(h, h2)
  {
    hide React, Moves.Marked, Moves.CommitsBy, Moves.ReignsBy;
  }

  lemma CommitWithin(par: Params, s: Sys, l: Label, h2: Hist)
    requires l.who in s.nodes && Inv(par, After(par, s, l), h2)
    ensures var n2 := Outcome(par, s, l).node; n2.base <= n2.commit
  {
    hide HistOk, NodeOk, SendsOk, React;
    var s2 := After(par, s, l);
    assert NodeOk(par, h2, l.who, s2.nodes[l.who]);
    Parts(par, h2, l.who, s2.nodes[l.who]);
    E.Committed(h2, s2.nodes[l.who]);
  }

  lemma WiderOwned(su: Setup, s: Sys, x1: Aux, x2: Aux, h: Hist)
    requires Wider(x1, x2) && LogsOwned(su, x1, h) && ReadsOwned(su, x1, s, h)
    ensures LogsOwned(su, x2, h) && ReadsOwned(su, x2, s, h)
  {
    forall t | t in h.reigns
      ensures Owned(su, x2, h.reigns[t].log)
    {
      OwnedWider(su, x1, x2, h.reigns[t].log);
    }
    forall i | i in s.nodes
      ensures PendingOwned(su, x2, h, i, s.nodes[i])
    {
      PendingOwnedLater(su, x1, x2, h, h, i, s.nodes[i]);
    }
  }

  lemma {:induction false} ReportedSys(w: World, reports: seq<Applied>)
    ensures Reported(w, reports).sys == w.sys
    decreases |reports|
  {
    if reports != [] {
      OnApplyNow(w, reports[0]);
      ReportedSys(OnApply(w, reports[0]), reports[1..]);
    }
  }

  lemma FreshInv(su: Setup, w: World)
    requires Beginning(su, w)
    ensures WorldInv(su, w, NOBODY, NOTHING)
  {
    InitInv(su.par, w.sys);
  }

  // Every moment of every story has its books.
  lemma {:induction false} StoryBooked(su: Setup, ws: seq<World>, ms: seq<Move>, i: nat) returns (x: Aux, h: Hist)
    requires IsStory(su, ws, ms) && i < |ws|
    ensures WorldInv(su, ws[i], x, h)
    decreases i
  {
    hide WorldInv, Beginning, Moved, MayMove;
    if i == 0 {
      FreshInv(su, ws[0]);
      x, h := NOBODY, NOTHING;
    } else {
      x, h := StoryBooked(su, ws, ms, i - 1);
      x, h := MoveKeeps(su, ws[i - 1], x, h, ms[i - 1]);
    }
  }

  // ---- the theorem ------------------------------------------------------------

  // At every moment of every run, the history the clients have observed is linearizable.
  lemma ObservedLinearizable(su: Setup, ws: seq<World>, ms: seq<Move>, i: nat)
    requires IsStory(su, ws, ms) && i < |ws|
    ensures Linearizable(ws[i].rows)
  {
    hide IsStory;
    var x, h := StoryBooked(su, ws, ms, i);
    BookedLinearizable(su, ws[i], x, ws[i].now);
  }

  // So the oracle, run on the history of any run, finds a linearization or runs out of
  // budget: it never reports a violation.
  method OracleAgrees(su: Setup, ghost ws: seq<World>, ghost ms: seq<Move>, ghost i: nat, rows: seq<Row>, budget: nat)
    returns (r: OC.CheckResult)
    requires IsStory(su, ws, ms) && i < |ws| && rows == ws[i].rows
    ensures r.stuck.None?
    ensures r.linearizable ==> r.linearization.Some? && Linearization(rows, r.linearization.value)
    ensures !r.linearizable ==> O.BudgetSpent(OC.Rows(rows, OC.Kept(rows, None)), budget)
  {
    hide IsStory, O.BudgetSpent, Linearization, Linearizable;
    ObservedLinearizable(su, ws, ms, i);
    r := OC.Check(rows, None, budget);
  }
}
