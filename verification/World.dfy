// The cluster together with its clients: each client keeps one operation outstanding,
// retries it on any server until the first report that it was applied, and the cluster
// records what every client saw and when.
module World {
  import opened Prelude
  import opened KvStore
  import opened RaftTypes
  import opened RaftSpec
  import opened Safety
  import opened Histories

  // readIndex: whether gets are served by the ReadIndex protocol instead of the log.
  datatype Setup = Setup(par: Params, readIndex: bool)

  datatype World = World(
    sys: Sys,
    now: nat,
    outstanding: map<int, KvStore.Command>,
    nextReq: seq<nat>,
    rows: seq<Row>,
    waiting: map<KvStore.Command, nat>)  // unfinished operations and their rows

  // ---- client bookkeeping -----------------------------------------------------

  // A command is invoked: its client now has it outstanding, and the history has its row.
  function Invoke(w: World, c: KvStore.Command): World {
    w.(outstanding := w.outstanding[c.client := c],
    rows := w.rows + [Row(c, w.now, None, "")],
    waiting := w.waiting[c := |w.rows|])
  }

  // A server reports a command applied. The first report completes the operation; any other
  // report of it changes nothing.
  function OnApply(w: World, a: Applied): World {
    var c := a.command;
    if !Structured(c) then w
    else
      var w1 := if c.client in w.outstanding && w.outstanding[c.client] == c && 0 <= c.client < |w.nextReq|
                then w.(outstanding := w.outstanding - {c.client}, nextReq := w.nextReq[c.client := w.nextReq[c.client] + 1])
                else w;
      if c in w.waiting && w.waiting[c] < |w.rows| then
        w1.(waiting := w.waiting - {c},
        rows := w.rows[w.waiting[c] := w.rows[w.waiting[c]].(returned := Some(w.now), observed := a.result)])
      else w1
  }

  function Reported(w: World, reports: seq<Applied>): World
    decreases |reports|
  {
    if reports == [] then w else Reported(OnApply(w, reports[0]), reports[1..])
  }

  // ---- moves ------------------------------------------------------------------

  // Something happens to a server, or a client acts: it invokes a new operation if idle,
  // otherwise retries, on some server.
  datatype Move = Server(act: Label) | Tick(client: nat, command: KvStore.Command, target: Id)

  predicate MayMove(su: Setup, w: World, m: Move) {
    match m
    case Server(l) => Enabled(su.par, w.sys, l) && !ClientEvent(l.event)
    case Tick(c, cmd, target) =>
      && c < |w.nextReq| && target in w.sys.nodes
      && if c in w.outstanding then cmd == w.outstanding[c]
         else Structured(cmd) && cmd.client == c && cmd.req == w.nextReq[c]
  }

  // Client operations reach servers only through client ticks.
  predicate ClientEvent(ev: Event) {
    ev.ReadRequest? || (ev.Command? && ev.payload.Client?)
  }

  function Attempt(su: Setup, c: KvStore.Command): Event {
    if su.readIndex && c.op == Get then ReadRequest(c) else Event.Command(Client(c))
  }

  function Ready(w: World, m: Move): World {
    if m.Tick? && m.client !in w.outstanding then Invoke(w, m.command) else w
  }

  function LabelOf(su: Setup, m: Move): Label {
    match m
    case Server(l) => l
    case Tick(_, cmd, target) => Label(target, Attempt(su, cmd))
  }

  function Moved(su: Setup, w: World, m: Move): World
    requires MayMove(su, w, m)
  {
    var l := LabelOf(su, m);
    var w1 := Ready(w, m);
    Reported(w1.(sys := After(su.par, w.sys, l)), Outcome(su.par, w.sys, l).applied).(now := w.now + 1)
  }

  predicate Beginning(su: Setup, w: World) {
    && Init(su.par, w.sys)
    && w.outstanding == map[] && w.rows == [] && w.waiting == map[]
    && forall c | 0 <= c < |w.nextReq| :: w.nextReq[c] == 0
  }

  ghost predicate IsStory(su: Setup, ws: seq<World>, ms: seq<Move>) {
    && |ws| == |ms| + 1
    && Beginning(su, ws[0])
    && forall i | 0 <= i < |ms| :: MayMove(su, ws[i], ms[i]) && ws[i + 1] == Moved(su, ws[i], ms[i])
  }
}
