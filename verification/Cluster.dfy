// The cluster object: server objects, the messages in flight, and the client driver with
// its history. Each of its methods is one move of the protocol and client model, so the
// recorded history is one the theorem of module Clients speaks about.
//
// The ghost fields hold the protocol state the server objects represent. Whatever happens to
// one server is done by one method on it; the others are untouched, which is what most of
// the helper methods here establish.
module ClusterObject {
  import opened Prelude
  import opened KvStore
  import opened RaftTypes
  import opened RaftSpec
  import opened NodeViews
  import opened RaftServer
  import opened Safety
  import opened Histories
  import M = World
  import opened History
  import W = Witness
  import C = Clients
  import R = Refinement
  import I = Invariant
  import OC = OracleCheck

  class Cluster {
    const su: M.Setup
    const workload: (nat, nat) -> KvStore.Command

    var nodes: map<Id, RaftNode>
    var inFlight: set<Packet<Image>>
    var steps: nat
    var outstanding: map<int, KvStore.Command>
    var nextReq: seq<nat>
    var clientTurn: nat
    var history: seq<Row>
    var pending: map<KvStore.Command, nat>

    // the servers and messages in protocol terms, and the objects they are made of
    ghost var sys: Sys
    ghost var objects: set<object>

    ghost function Abs(): M.World
      reads `sys, `steps, `outstanding, `nextReq, `history, `pending
    {
      M.World(sys, steps, outstanding, nextReq, history, pending)
    }

    // A client's r-th command names the client and r, whatever it does.
    ghost predicate GoodWorkload() {
      forall c: nat, r: nat :: Structured(workload(c, r)) && workload(c, r).client == c && workload(c, r).req == r
    }

    // The object o is server i in state n.
    static ghost predicate Represents(par: Params, o: RaftNode, i: Id, n: Node)
      reads o, o.kv
    {
      o.id == i && o.Par() == par && o.initialVoters == par.initial && o.Valid() && o.Abs() == n
    }

    // Every server is there, as an object of its own.
    ghost predicate Owns()
      reads `nodes, `objects, objects
    {
      && (forall i | i in nodes :: nodes[i] in objects && nodes[i].kv in objects)
      && forall i, j | i in nodes && j in nodes && i != j :: nodes[i] != nodes[j] && nodes[i].kv != nodes[j].kv
    }

    ghost predicate Relates(s: Sys)
      reads `nodes, `objects, objects
    {
      && nodes.Keys == s.nodes.Keys && Owns()
      && forall i | i in nodes :: Represents(su.par, nodes[i], i, s.nodes[i])
    }

    ghost predicate Valid()
      reads this, objects
    {
      && this !in objects && Relates(sys)
      && inFlight == PicturedAll(su.par.initial, sys.net)
      && R.Addressed(su.par, sys) && GoodWorkload() && |nextReq| > 0
      && exists x, h :: C.WorldInv(su, Abs(), x, h)
    }

    constructor (su: M.Setup, clients: nat, workload: (nat, nat) -> KvStore.Command)
      requires su.par.initial <= su.par.servers && clients > 0
      requires forall c: nat, r: nat :: Structured(workload(c, r)) && workload(c, r).client == c && workload(c, r).req == r
      ensures Valid() && fresh(objects) && M.Beginning(su, Abs()) && this.su == su && |nextReq| == clients
      ensures forall i | i in nodes :: nodes[i].incarnation == 0
    {
      hide Represents, Relates, Owns, R.Addressed, C.WorldInv;
      this.su, this.workload := su, workload;
      nodes, inFlight, steps := map[], {}, 0;
      outstanding, nextReq, clientTurn := map[], seq(clients, _ => 0), 0;
      history, pending := [], map[];
      sys, objects := Sys(map[], {}), {};
      new;
      Populate();
      StartsWell(su, Abs());
      PicturedNone(su.par.initial);
    }

    // These servers exist, in their initial states, and nothing was ever sent.
    ghost predicate Made(done: set<Id>)
      reads `nodes, `sys, `objects, objects
    {
      && Relates(sys) && this !in objects && sys.nodes.Keys == done && sys.net == {}
      && (forall i | i in sys.nodes :: sys.nodes[i] == Start())
      && forall i | i in nodes :: nodes[i].incarnation == 0
    }

    // Create every server.
    method Populate()
      requires nodes == map[] && sys == Sys(map[], {}) && objects == {} && su.par.initial <= su.par.servers
      modifies `nodes, `sys, `objects
      ensures Made(su.par.servers) && fresh(objects)
    {
      hide Made;
      var rest := su.par.servers;
      ghost var done := {};
      NobodyYet();
      while rest != {}
        invariant rest <= su.par.servers && done == su.par.servers - rest && Made(done) && fresh(objects)
        decreases |rest|
      {
        var i :| i in rest;
        AddNode(i, done);
        rest, done := rest - {i}, done + {i};
      }
      assert done == su.par.servers;
    }

    static method NewNode(par: Params, i: Id) returns (o: RaftNode)
      requires i in par.servers && par.initial <= par.servers
      ensures fresh(o) && fresh(o.kv) && Represents(par, o, i, Start()) && o.incarnation == 0
    {
      assert par.servers - {i} + {i} == par.servers;
      o := new RaftNode(i, par.servers - {i}, par.initial, par.threshold);
    }

    // One more server, in its initial state.
    method AddNode(i: Id, ghost done: set<Id>)
      requires i in su.par.servers && i !in done && Made(done) && su.par.initial <= su.par.servers
      modifies `nodes, `sys, `objects
      ensures Made(done + {i}) && fresh(objects - old(objects))
    {
      hide Made, Represents;
      var o := NewNode(su.par, i);
      Enlist(i, o, done);
    }

    method Enlist(i: Id, o: RaftNode, ghost done: set<Id>)
      requires i !in done && Made(done) && o !in objects && o.kv !in objects && Represents(su.par, o, i, Start()) && o.incarnation == 0
      modifies `nodes, `sys, `objects
      ensures Made(done + {i}) && objects == old(objects) + {o, o.kv}
    {
      hide Represents, Start;
      ghost var before := nodes;
      nodes := nodes[i := o];
      sys := sys.(nodes := sys.nodes[i := Start()]);
      objects := objects + {o, o.kv};
      forall j | j in before
        ensures Represents(su.par, before[j], j, Start())
      {
        assert before[j] in old(objects) && before[j].kv in old(objects);
        assert old(Represents(su.par, before[j], j, sys.nodes[j]));
      }
      assert Owns();
    }

    lemma NobodyYet()
      requires nodes == map[] && sys == Sys(map[], {}) && objects == {}
      ensures Made({})
    {
    }

    static lemma StartsWell(su: M.Setup, w: M.World)
      requires M.Beginning(su, w)
      ensures R.Addressed(su.par, w.sys)
      ensures exists x, h :: C.WorldInv(su, w, x, h)
    {
      C.FreshInv(su, w);
    }

    // ---- client bookkeeping ---------------------------------------------------

    method Invoke(c: KvStore.Command)
      modifies `outstanding, `history, `pending
      ensures Abs() == M.Invoke(old(Abs()), c)
    {
      outstanding := outstanding[c.client := c];
      pending := pending[c := |history|];
      history := history + [Row(c, steps, None, "")];
    }

    // The first report of a command lets its client move on and completes its row.
    method OnApply(a: Applied)
      modifies `outstanding, `nextReq, `history, `pending
      ensures Abs() == M.OnApply(old(Abs()), a)
    {
      var c := a.command;
      if !Structured(c) {
        return;
      }
      if c.client in outstanding && outstanding[c.client] == c && 0 <= c.client < |nextReq| {
        outstanding := outstanding - {c.client};
        nextReq := nextReq[c.client := nextReq[c.client] + 1];
      }
      if c in pending && pending[c] < |history| {
        var i := pending[c];
        pending := pending - {c};
        history := history[i := history[i].(returned := Some(steps), observed := a.result)];
      }
    }

    method ReportAll(reports: seq<Applied>)
      modifies `outstanding, `nextReq, `history, `pending
      ensures Abs() == M.Reported(old(Abs()), reports)
    {
      for i := 0 to |reports|
        invariant M.Reported(old(Abs()), reports) == M.Reported(Abs(), reports[i..])
      {
        assert reports[i..][0] == reports[i] && reports[i..][1..] == reports[i + 1..];
        OnApply(reports[i]);
      }
      assert reports[|reports|..] == [];
    }

    // ---- one move -------------------------------------------------------------

    // These are the messages and reports of a step.
    static ghost predicate Shows(par: Params, s: Sys, l: Label, sends: seq<Packet<Image>>, reported: seq<Applied>)
      requires l.who in s.nodes
    {
      && RaftNode.Sent(sends) == PicturedAll(par.initial, Outcome(par, s, l).sends)
      && reported == Outcome(par, s, l).applied
    }

    // What the checker watches besides the protocol state.
    static ghost function CountOf(o: RaftNode): Count
      reads o`logVersion, o`incarnation, o`log, o`baseIndex
    {
      Count(o.logVersion, o.incarnation, o.log, o.baseIndex)
    }

    ghost function Counts(): map<Id, Count>
      reads `nodes, set i | i in nodes :: nodes[i]
    {
      map i | i in nodes :: CountOf(nodes[i])
    }

    // Only this server's counters moved.
    lemma OneCounted(before: map<Id, Count>, i: Id, l: Label)
      requires before.Keys == nodes.Keys && i in nodes && l.who == i
      requires Counted(before[i], CountOf(nodes[i]), l.event == RaftSpec.Pause)
      requires forall j | j in nodes && j != i :: before[j] == CountOf(nodes[j])
      ensures AllCounted(before, Counts(), l)
    {
    }

    lemma NodesApart(i: Id)
      requires Owns() && i in nodes
      ensures forall j | j in nodes && j != i :: nodes[j] != nodes[i]
    {
    }

    // What a server sent and reported reaches the network and the clients.
    method Finish(sends: seq<Packet<Image>>, reported: seq<Applied>, ghost w: M.World, ghost m: M.Move)
      requires M.MayMove(su, w, m) && Abs() == M.Ready(w, m) && inFlight == PicturedAll(su.par.initial, sys.net)
      requires Shows(su.par, w.sys, M.LabelOf(su, m), sends, reported)
      modifies `inFlight, `sys, `steps, `outstanding, `nextReq, `history, `pending
      ensures Abs() == M.Moved(su, w, m) && inFlight == PicturedAll(su.par.initial, sys.net)
      ensures sys == After(su.par, w.sys, M.LabelOf(su, m)) && |nextReq| == old(|nextReq|)
    {
      PicturedUnion(su.par.initial, sys.net, Outcome(su.par, w.sys, M.LabelOf(su, m)).sends);
      inFlight := inFlight + set p | p in sends;
      sys := After(su.par, sys, M.LabelOf(su, m));
      ReportedSize(Abs(), reported);
      ReportAll(reported);
      steps := steps + 1;
    }

    static lemma {:induction false} ReportedSize(w: M.World, reports: seq<Applied>)
      ensures |M.Reported(w, reports).nextReq| == |w.nextReq| && M.Reported(w, reports).sys == w.sys
      ensures M.Reported(w, reports).now == w.now
      decreases |reports|
    {
      if reports != [] {
        ReportedSize(M.OnApply(w, reports[0]), reports[1..]);
      }
    }

    // A move keeps what the theorems need.
    static lemma MoveStays(su: M.Setup, w: M.World, m: M.Move)
      requires (exists x, h :: C.WorldInv(su, w, x, h)) && R.Addressed(su.par, w.sys) && M.MayMove(su, w, m)
      ensures exists x, h :: C.WorldInv(su, M.Moved(su, w, m), x, h)
      ensures R.Addressed(su.par, After(su.par, w.sys, M.LabelOf(su, m)))
    {
      hide M.Moved, Inv, W.Booked, R.Addressed, M.MayMove, After;
      var x, h :| C.WorldInv(su, w, x, h);
      var x2, h2 := C.MoveKeeps(su, w, x, h, m);
      MovedSys(su, w, m);
      LabelEnabled(su, w, m);
      R.StepAddressed(su.par, w.sys, h, M.LabelOf(su, m), h2);
    }

    static lemma MovedSys(su: M.Setup, w: M.World, m: M.Move)
      requires M.MayMove(su, w, m)
      ensures M.Moved(su, w, m).sys == After(su.par, w.sys, M.LabelOf(su, m))
    {
      var l := M.LabelOf(su, m);
      ReportedSize(M.Ready(w, m).(sys := After(su.par, w.sys, l)), Outcome(su.par, w.sys, l).applied);
    }

    static lemma LabelEnabled(su: M.Setup, w: M.World, m: M.Move)
      requires M.MayMove(su, w, m)
      ensures Enabled(su.par, w.sys, M.LabelOf(su, m))
    {
    }

    // Any message in flight can be handled by the server it is for.
    lemma DeliveryFits(q: Packet<Log>)
      requires Valid() && q in sys.net
      ensures q.dst in nodes && q.dst in sys.nodes && Fits(su.par, sys.nodes[q.dst], q.msg)
      ensures nodes[q.dst] in objects && nodes[q.dst].kv in objects
    {
      hide W.Booked, Fits;
      var x, h :| C.WorldInv(su, Abs(), x, h);
      InvFacts(su.par, sys, h, q);
    }

    static lemma InvFacts(par: Params, s: Sys, h: Hist, q: Packet<Log>)
      requires Inv(par, s, h) && R.Addressed(par, s) && q in s.net
      ensures q.dst in s.nodes && Fits(par, s.nodes[q.dst], q.msg)
    {
      hide HistOk, I.NodeOk, I.MsgOk, Fits;
      assert q.dst in par.servers;
      assert I.NodeOk(par, h, q.dst, s.nodes[q.dst]);
      assert I.MsgOk(h, q);
      assert Packet(q.dst, q.msg) == q;
      R.InFlightFits(par, h, q.dst, s.nodes[q.dst], q.msg);
    }

    // A server handles a message as its protocol state does.
    static method HandleBy(ghost par: Params, o: RaftNode, ghost i: Id, ghost n: Node, m: Message<Image>, ghost a: Message<Log>)
      returns (sends: seq<Packet<Image>>, reported: seq<Applied>)
      requires Represents(par, o, i, n) && m == Pictured(par.initial, a) && Fits(par, n, a)
      modifies o, o.kv
      ensures Represents(par, o, i, React(par, i, n, Receive(a)).node) && (o.kv == old(o.kv) || fresh(o.kv))
      ensures RaftNode.Sent(sends) == PicturedAll(par.initial, React(par, i, n, Receive(a)).sends)
      ensures reported == React(par, i, n, Receive(a)).applied
      ensures Counted(old(CountOf(o)), CountOf(o), false)
    {
      hide Fits, RaftSpec.Handle, Pictured, PicturedAll, RaftNode.Sent;
      sends, reported := o.Handle(m, a);
    }

    // A server moved on its own objects; the others are what they were.
    lemma Reassemble(i: Id, s: Sys, n2: Node, net: set<Packet<Log>>)
      requires i in nodes && nodes.Keys == s.nodes.Keys && Owns()
      requires Represents(su.par, nodes[i], i, n2)
      requires forall j | j in nodes && j != i :: Represents(su.par, nodes[j], j, s.nodes[j])
      ensures Relates(Sys(s.nodes[i := n2], net))
    {
      hide Represents, Owns;
    }

    method HandleAt(p: Packet<Image>, ghost q: Packet<Log>) returns (sends: seq<Packet<Image>>, reported: seq<Applied>)
      requires Relates(sys) && p.dst in nodes && p.dst in sys.nodes && p == PicturedPacket(su.par.initial, q) && Fits(su.par, sys.nodes[p.dst], q.msg)
      modifies `objects, nodes[p.dst], nodes[p.dst].kv
      ensures Relates(After(su.par, sys, Label(p.dst, Receive(q.msg)))) && fresh(objects - old(objects))
      ensures Shows(su.par, sys, Label(p.dst, Receive(q.msg)), sends, reported)
      ensures Counted(old(CountOf(nodes[p.dst])), CountOf(nodes[p.dst]), false)
    {
      hide Fits, React, Represents, Pictured, PicturedAll, RaftNode.Sent, CountOf, Counted;
      var i := p.dst;
      ghost var l := Label(i, Receive(q.msg));
      sends, reported := HandleBy(su.par, nodes[i], i, sys.nodes[i], p.msg, q.msg);
      objects := objects + {nodes[i].kv};
      Reassemble(i, sys, Outcome(su.par, sys, l).node, sys.net + Outcome(su.par, sys, l).sends);
    }

    method HandleCounted(p: Packet<Image>, ghost q: Packet<Log>, ghost l: Label) returns (sends: seq<Packet<Image>>, reported: seq<Applied>)
      requires Relates(sys) && p.dst in nodes && p.dst in sys.nodes && p == PicturedPacket(su.par.initial, q) && Fits(su.par, sys.nodes[p.dst], q.msg)
      requires l == Label(p.dst, Receive(q.msg))
      modifies `objects, nodes[p.dst], nodes[p.dst].kv
      ensures Relates(After(su.par, sys, l)) && fresh(objects - old(objects))
      ensures Shows(su.par, sys, l, sends, reported) && AllCounted(old(Counts()), Counts(), l)
    {
      hide Fits, After, Represents, Pictured, PicturedAll, RaftNode.Sent, Counted, Shows, AllCounted;
      ghost var before := Counts();
      NodesApart(p.dst);
      sends, reported := HandleAt(p, q);
      OneCounted(before, p.dst, l);
    }

    static lemma ServerMove(su: M.Setup, w: M.World, l: Label)
      requires Enabled(su.par, w.sys, l) && !M.ClientEvent(l.event)
      ensures M.MayMove(su, w, M.Server(l)) && M.LabelOf(su, M.Server(l)) == l && M.Ready(w, M.Server(l)) == w
    {
    }

    // What is left of validity once a move is finished.
    lemma Restored(w: M.World, m: M.Move)
      requires this !in objects && Relates(sys) && inFlight == PicturedAll(su.par.initial, sys.net)
      requires GoodWorkload() && |nextReq| > 0 && M.MayMove(su, w, m) && Abs() == M.Moved(su, w, m)
      requires sys == After(su.par, w.sys, M.LabelOf(su, m))
      requires (exists x, h :: C.WorldInv(su, w, x, h)) && R.Addressed(su.par, w.sys)
      ensures Valid()
    {
      hide Relates, GoodWorkload, M.MayMove, M.Moved, C.WorldInv, R.Addressed, After, PicturedAll;
      MoveStays(su, w, m);
    }

    // The network delivers a message it may well deliver again.
    method Deliver(p: Packet<Image>) returns (ghost m: M.Move)
      requires Valid() && p in inFlight
      modifies this, objects
      ensures Valid() && fresh(objects - old(objects))
      ensures M.MayMove(su, old(Abs()), m) && Abs() == M.Moved(su, old(Abs()), m)
      ensures nodes == old(nodes) && AllCounted(old(Counts()), Counts(), M.LabelOf(su, m))
      ensures m.Server? && m.act.who == p.dst && m.act.event.Receive? && Pictured(su.par.initial, m.act.event.msg) == p.msg
    {
      hide M.Moved, M.MayMove, M.Ready, M.LabelOf, After, Outcome, Represents, Relates, Owns, C.WorldInv, PicturedAll, R.Addressed, Fits, RaftNode.Sent, Shows, AllCounted;
      ghost var w := Abs();
      ghost var q := PicturedFrom(su.par.initial, sys.net, p);
      DeliveryFits(q);
      ghost var l := Label(q.dst, Receive(q.msg));
      m := M.Server(l);
      ServerMove(su, w, l);
      var sends, reported := HandleCounted(p, q, l);
      Finish(sends, reported, w, m);
      Restored(w, m);
    }

    // ---- timers, crashes, reconfiguration -------------------------------------

    // One thing happens to one server.
    static method ActBy(ghost par: Params, o: RaftNode, ghost i: Id, ghost n: Node, act: Act)
      returns (sends: seq<Packet<Image>>, reported: seq<Applied>)
      requires Represents(par, o, i, n) && (act.Reconfigure? ==> act.voters <= par.servers)
      modifies o, o.kv
      ensures Represents(par, o, i, React(par, i, n, EventOf(act)).node) && (o.kv == old(o.kv) || fresh(o.kv))
      ensures RaftNode.Sent(sends) == PicturedAll(par.initial, React(par, i, n, EventOf(act)).sends)
      ensures reported == React(par, i, n, EventOf(act)).applied
      ensures Counted(old(CountOf(o)), CountOf(o), act.Crash?)
    {
      hide React, Represents, PicturedAll, RaftNode.Sent, EventOf;
      if act.Timeout? || act.Beat? || act.Crash? || act.Recover? {
        sends := FaultBy(par, o, i, n, act);
        reported := [];
      } else {
        sends, reported := RequestBy(par, o, i, n, act);
      }
    }

    static method FaultBy(ghost par: Params, o: RaftNode, ghost i: Id, ghost n: Node, act: Act) returns (sends: seq<Packet<Image>>)
      requires Represents(par, o, i, n) && (act.Timeout? || act.Beat? || act.Crash? || act.Recover?)
      modifies o
      ensures Represents(par, o, i, React(par, i, n, EventOf(act)).node) && (o.kv == old(o.kv) || fresh(o.kv))
      ensures RaftNode.Sent(sends) == PicturedAll(par.initial, React(par, i, n, EventOf(act)).sends)
      ensures React(par, i, n, EventOf(act)).applied == []
      ensures Counted(old(CountOf(o)), CountOf(o), act.Crash?)
    {
      hide RaftNode.Valid, RaftNode.Abs, RaftSpec.StartElection, RaftSpec.ClientCommand, RaftSpec.ChangeConfig, RaftSpec.RequestRead, Heartbeats, PicturedAll, RaftNode.Sent, React;
      o.NoWires();
      ReactIs(par, i, n, EventOf(act));
      sends := [];
      match act
      case Timeout => sends := o.OnElectionTimeout();
      case Beat => sends := o.OnHeartbeat();
      case Crash => o.Pause();
      case Recover => o.Resume();
    }

    static method RequestBy(ghost par: Params, o: RaftNode, ghost i: Id, ghost n: Node, act: Act)
      returns (sends: seq<Packet<Image>>, reported: seq<Applied>)
      requires Represents(par, o, i, n) && (act.Reconfigure? || act.Submit? || act.Read?)
      requires act.Reconfigure? ==> act.voters <= par.servers
      modifies o
      ensures Represents(par, o, i, React(par, i, n, EventOf(act)).node) && o.kv == old(o.kv)
      ensures RaftNode.Sent(sends) == PicturedAll(par.initial, React(par, i, n, EventOf(act)).sends)
      ensures reported == React(par, i, n, EventOf(act)).applied
      ensures Counted(old(CountOf(o)), CountOf(o), false)
    {
      hide RaftNode.Valid, RaftNode.Abs, RaftSpec.StartElection, RaftSpec.ClientCommand, RaftSpec.ChangeConfig, RaftSpec.RequestRead, Heartbeats, PicturedAll, RaftNode.Sent, React;
      ReactIs(par, i, n, EventOf(act));
      reported := [];
      var accepted;
      match act
      case Reconfigure(voters) => accepted, sends := o.ChangeConfig(voters);
      case Submit(c) => accepted, sends := o.ClientCommand(Client(c));
      case Read(c) => accepted, sends, reported := o.RequestRead(c);
    }

    // What each event is; only messages and reads make a server report results.
    static lemma ReactIs(par: Params, id: Id, n: Node, ev: Event)
      ensures !ev.Receive? && !ev.ReadRequest? ==> React(par, id, n, ev).applied == []
      ensures ev.HeartbeatTimeout? ==> React(par, id, n, ev).node == n
      ensures ev.Command? ==> React(par, id, n, ev) == RaftSpec.ClientCommand(par, id, n, ev.payload)
      ensures ev.Change? ==> React(par, id, n, ev) == RaftSpec.ChangeConfig(par, id, n, ev.voters)
      ensures ev.ReadRequest? ==> React(par, id, n, ev) == RaftSpec.RequestRead(par, id, n, ev.command)
      ensures ev.Pause? ==> React(par, id, n, ev) == Quiet(RaftSpec.Crash(n))
      ensures ev.Restart? ==> React(par, id, n, ev) == Quiet(RaftSpec.Resume(n))
    {
      hide Heartbeats, Majority, ConfigOf, RaftSpec.BecomeLeader, RaftSpec.Handle, RaftSpec.RequestRead;
    }

    static lemma CrashIs(act: Act)
      ensures act.Crash? <==> EventOf(act) == RaftSpec.Pause
    {
    }

    method ActAt(i: Id, act: Act, ghost s: Sys, ghost l: Label) returns (sends: seq<Packet<Image>>, reported: seq<Applied>)
      requires Relates(s) && i in nodes && i in s.nodes && (act.Reconfigure? ==> act.voters <= su.par.servers)
      requires l.who == i && l.event == EventOf(act)
      modifies `objects, nodes[i], nodes[i].kv
      ensures Relates(After(su.par, s, l)) && fresh(objects - old(objects))
      ensures Shows(su.par, s, l, sends, reported)
      ensures Counted(old(CountOf(nodes[i])), CountOf(nodes[i]), act.Crash?)
    {
      hide React, Represents, Pictured, PicturedAll, RaftNode.Sent, EventOf, CountOf, Counted;
      sends, reported := ActBy(su.par, nodes[i], i, s.nodes[i], act);
      objects := objects + {nodes[i].kv};
      Reassemble(i, s, Outcome(su.par, s, l).node, s.net + Outcome(su.par, s, l).sends);
    }

    method ActCounted(i: Id, act: Act, ghost s: Sys, ghost l: Label) returns (sends: seq<Packet<Image>>, reported: seq<Applied>)
      requires Relates(s) && i in nodes && i in s.nodes && (act.Reconfigure? ==> act.voters <= su.par.servers)
      requires l.who == i && l.event == EventOf(act)
      modifies `objects, nodes[i], nodes[i].kv
      ensures Relates(After(su.par, s, l)) && fresh(objects - old(objects))
      ensures Shows(su.par, s, l, sends, reported) && AllCounted(old(Counts()), Counts(), l)
    {
      hide After, Represents, RaftNode.Sent, Counted, Shows, AllCounted, EventOf;
      ghost var before := Counts();
      NodesApart(i);
      CrashIs(act);
      sends, reported := ActAt(i, act, s, l);
      OneCounted(before, i, l);
    }

    lemma NodeHere(i: Id)
      requires Relates(sys) && i in nodes
      ensures i in sys.nodes && nodes[i] in objects && nodes[i].kv in objects
      ensures sys.nodes[i].alive == nodes[i].alive && sys.nodes[i].role == nodes[i].role
    {
      assert Represents(su.par, nodes[i], i, sys.nodes[i]);
    }

    // The server objects and the states they represent.
    lemma Here(i: Id)
      requires Valid() && i in nodes
      ensures i in sys.nodes && nodes[i] in objects && nodes[i].kv in objects && Represents(su.par, nodes[i], i, sys.nodes[i])
    {
      hide Represents, C.WorldInv, R.Addressed, PicturedAll, GoodWorkload;
    }

    lemma AllHere()
      requires Valid()
      ensures nodes.Keys == sys.nodes.Keys
    {
      hide Represents, Owns, C.WorldInv, R.Addressed, PicturedAll, GoodWorkload;
    }

    // A timer fires, a server crashes or restarts, or the membership driver proposes a
    // configuration of existing servers.
    method Happen(i: Id, act: Act) returns (ghost m: M.Move)
      requires Valid() && i in nodes && !act.Submit? && !act.Read?
      requires act.Reconfigure? ==> act.voters <= su.par.servers
      modifies this, objects
      ensures Valid() && fresh(objects - old(objects)) && m == M.Server(Label(i, EventOf(act)))
      ensures M.MayMove(su, old(Abs()), m) && Abs() == M.Moved(su, old(Abs()), m)
      ensures nodes == old(nodes) && AllCounted(old(Counts()), Counts(), M.LabelOf(su, m))
    {
      hide M.Moved, M.MayMove, M.Ready, M.LabelOf, After, Outcome, Represents, Relates, Owns, C.WorldInv, PicturedAll, R.Addressed, RaftNode.Sent, Shows, AllCounted;
      ghost var w := Abs();
      NodeHere(i);
      ghost var l := Label(i, EventOf(act));
      m := M.Server(l);
      ServerMove(su, w, l);
      var sends, reported := ActCounted(i, act, sys, l);
      Finish(sends, reported, w, m);
      Restored(w, m);
    }

    // ---- the client driver ----------------------------------------------------

    // One client acts, in turn: it invokes its next operation if it has none outstanding,
    // else retries; the attempt only counts on a server that believes it leads. The turn moves on
    // by one client each time.
    method ClientTick(target: Id) returns (ghost m: M.Move)
      requires Valid() && target in nodes
      modifies this, objects
      ensures Valid() && fresh(objects - old(objects)) && m.Tick? && m.target == target
      ensures m.client == old(clientTurn) % old(|nextReq|) && clientTurn == old(clientTurn) + 1 && |nextReq| == old(|nextReq|)
      ensures m.command == if m.client in old(outstanding) then old(outstanding)[m.client] else workload(m.client, old(nextReq)[m.client])
      ensures M.MayMove(su, old(Abs()), m) && Abs() == M.Moved(su, old(Abs()), m)
      ensures nodes == old(nodes) && AllCounted(old(Counts()), Counts(), M.LabelOf(su, m))
    {
      hide M.Moved, M.MayMove, M.Ready, M.LabelOf, After, Outcome, Represents, Relates, Owns, C.WorldInv, PicturedAll, R.Addressed, RaftNode.Sent, Shows, M.Invoke, M.Attempt, AllCounted, CountOf, GoodWorkload;
      ghost var w := Abs();
      var client := clientTurn % |nextReq|;
      var c := if client in outstanding then outstanding[client] else workload(client, nextReq[client]);
      m := M.Tick(client, c, target);
      NodeHere(target);
      TickMove(client, c, target);
      clientTurn := clientTurn + 1;
      if client !in outstanding {
        Invoke(c);
      }
      var sends, reported := Attempt(target, c);
      Finish(sends, reported, w, m);
      Restored(w, m);
    }

    // The operation is handed to a server, which takes it only if it believes it leads.
    method Attempt(target: Id, c: KvStore.Command) returns (sends: seq<Packet<Image>>, reported: seq<Applied>)
      requires Relates(sys) && target in nodes && target in sys.nodes
      modifies `objects, nodes[target], nodes[target].kv
      ensures Relates(After(su.par, sys, Label(target, M.Attempt(su, c)))) && fresh(objects - old(objects))
      ensures Shows(su.par, sys, Label(target, M.Attempt(su, c)), sends, reported)
      ensures AllCounted(old(Counts()), Counts(), Label(target, M.Attempt(su, c)))
    {
      hide React, After, Outcome, PicturedAll, Represents, Owns, Relates, CountOf, AllCounted;
      NodeHere(target);
      if nodes[target].alive && nodes[target].role == Leader {
        sends, reported := ActCounted(target, if su.readIndex && c.op == Get then Read(c) else Submit(c), sys, Label(target, M.Attempt(su, c)));
      } else {
        NotLed(su, sys, target, c);
        PicturedNone(su.par.initial);
        NothingCounted(Label(target, M.Attempt(su, c)));
        sends, reported := [], [];
      }
    }

    lemma NothingCounted(l: Label)
      requires l.event != RaftSpec.Pause
      ensures AllCounted(Counts(), Counts(), l)
    {
    }

    // ---- what the clients have observed ---------------------------------------

    // The recorded history is linearizable, whatever has happened so far.
    lemma HistoryLinearizable()
      requires Valid()
      ensures Linearizable(history)
    {
      hide Relates, C.Joined, W.Booked, Linearizable;
      var x, h :| C.WorldInv(su, Abs(), x, h);
      W.BookedLinearizable(su, Abs(), x, steps);
    }

    // So the oracle never reports a violation of it.
    method Judge(budget: nat) returns (r: OC.CheckResult)
      requires Valid()
      ensures r.stuck.None? && (r.linearizable ==> r.linearization.Some? && Linearization(history, r.linearization.value))
    {
      hide Linearizable, Linearization;
      HistoryLinearizable();
      r := OC.Check(history, None, budget);
    }

    lemma TickMove(client: nat, c: KvStore.Command, target: Id)
      requires GoodWorkload() && client < |nextReq| && target in sys.nodes
      requires c == if client in outstanding then outstanding[client] else workload(client, nextReq[client])
      ensures var m := M.Tick(client, c, target);
              && M.MayMove(su, Abs(), m) && M.LabelOf(su, m) == Label(target, M.Attempt(su, c))
              && M.Ready(Abs(), m) == if client in outstanding then Abs() else M.Invoke(Abs(), c)
    {
    }

    // On any other server an attempt changes nothing.
    static lemma NotLed(su: M.Setup, s: Sys, target: Id, c: KvStore.Command)
      requires target in s.nodes && !(s.nodes[target].alive && s.nodes[target].role == Leader)
      ensures After(su.par, s, Label(target, M.Attempt(su, c))) == s
      ensures Outcome(su.par, s, Label(target, M.Attempt(su, c))) == Quiet(s.nodes[target])
    {
      assert s.nodes[target := s.nodes[target]] == s.nodes;
    }
  }

  // A server's counters, and the part of its log the version counter stands for.
  datatype Count = Count(version: nat, incarnation: nat, log: Log, base: nat)

  // A crash is a new incarnation; the version moves whenever the physical log does.
  predicate Counted(a: Count, b: Count, crashed: bool) {
    && b.incarnation == a.incarnation + (if crashed then 1 else 0)
    && a.version <= b.version && (a.version == b.version ==> a.log == b.log && a.base == b.base)
  }

  ghost predicate AllCounted(a: map<Id, Count>, b: map<Id, Count>, l: Label) {
    a.Keys == b.Keys && forall i | i in a :: Counted(a[i], b[i], l == Label(i, RaftSpec.Pause))
  }

  // What the environment does to a server, short of delivering a message.
  datatype Act =
    | Timeout | Beat | Crash | Recover
    | Reconfigure(voters: set<Id>) | Submit(command: KvStore.Command) | Read(command: KvStore.Command)

  function EventOf(a: Act): Event {
    match a
    case Timeout => ElectionTimeout
    case Beat => HeartbeatTimeout
    case Crash => RaftSpec.Pause
    case Recover => Restart
    case Reconfigure(voters) => Change(voters)
    case Submit(c) => Event.Command(Client(c))
    case Read(c) => ReadRequest(c)
  }
}
