// The replicated state machine: a string store with exactly-once client sessions.
// Functions on values; module KvMachine holds the object the node owns.
module KvStore {
  import opened Prelude

  datatype Op = Put | Get | Cas | Noop

  datatype Command = Command(client: int, req: int, op: Op, key: string, value: string, expected: string)

  // What decoding yields for anything that is not a client command.
  const NOOP := Command(-1, -1, Noop, "", "", "")

  predicate Structured(c: Command) {
    c.client >= 0 && c.op != Noop
  }

  type Store = map<string, string>

  datatype Session = Session(req: int, result: string)

  // The whole replicated state; also what a snapshot carries.
  datatype State = State(store: Store, sessions: map<int, Session>)

  const EMPTY := State(map[], map[])

  function Lookup(store: Store, key: string): string {
    if key in store then store[key] else ""
  }

  // One operation on a plain store, without sessions: the sequential specification.
  function Execute(store: Store, c: Command): (Store, string) {
    match c.op
    case Put => (store[c.key := c.value], "ok")
    case Get => (store, Lookup(store, c.key))
    case Cas => if Lookup(store, c.key) == c.expected then (store[c.key := c.value], "ok") else (store, "fail")
    case Noop => (store, "")
  }

  predicate Duplicate(st: State, c: Command) {
    c.client in st.sessions && c.req <= st.sessions[c.client].req
  }

  function Apply(st: State, c: Command): (State, string) {
    if !Structured(c) then (st, "")
    else if Duplicate(st, c) then (st, st.sessions[c.client].result)
    else
      var (store, result) := Execute(st.store, c);
      (State(store, st.sessions[c.client := Session(c.req, result)]), result)
  }

  function Read(store: Store, c: Command): string {
    if c.op == Get then Lookup(store, c.key) else ""
  }

  // ---- what the operations mean to a client -----------------------------------

  // What a get of this key is answered.
  function Asked(store: Store, key: string): string {
    Execute(store, Command(0, 0, Get, key, "", "")).1
  }

  // Every other key answers as before.
  ghost predicate OthersSame(before: Store, after: Store, key: string) {
    forall k | k != key :: Asked(after, k) == Asked(before, k)
  }

  // After a put, gets of its key answer its value. A compare-and-set does the same and is
  // answered "ok" exactly if a get just before would have answered what it expects; if not
  // it is answered "fail" and changes nothing. A get changes nothing, whoever asks.
  ghost predicate Obeys(before: Store, c: Command, after: Store, result: string) {
    match c.op
    case Put => result == "ok" && Asked(after, c.key) == c.value && OthersSame(before, after, c.key)
    case Get => result == Asked(before, c.key) && after == before
    case Cas =>
      if Asked(before, c.key) == c.expected then result == "ok" && Asked(after, c.key) == c.value && OthersSame(before, after, c.key)
      else result == "fail" && after == before
    case Noop => result == "" && after == before
  }

  lemma ExecuteObeys(store: Store, c: Command)
    ensures Obeys(store, c, Execute(store, c).0, Execute(store, c).1)
    ensures Asked(map[], c.key) == ""
    ensures Read(store, c) == if c.op == Get then Asked(store, c.key) else ""
  {
  }

  // This command, executed on this store, writes the key.
  predicate WritesKey(store: Store, c: Command, key: string) {
    c.key == key && (c.op == Put || (c.op == Cas && Asked(store, key) == c.expected))
  }

  // The value last written to a key by a run of commands, if any wrote it.
  function LastWritten(cmds: seq<Command>, key: string): Option<string> {
    if cmds == [] then None
    else
      var before, c := cmds[..|cmds| - 1], cmds[|cmds| - 1];
      if WritesKey(RunAll(before), c, key) then Some(c.value) else LastWritten(before, key)
  }

  // A get is answered with the last value written, and nothing if there was none.
  lemma {:induction false} GetsSeeLastWrite(cmds: seq<Command>, key: string)
    ensures Asked(RunAll(cmds), key) == match LastWritten(cmds, key) case Some(v) => v case None => ""
  {
    if cmds != [] {
      var before, c := cmds[..|cmds| - 1], cmds[|cmds| - 1];
      GetsSeeLastWrite(before, key);
      ExecuteObeys(RunAll(before), c);
    }
  }

  // A request that executes in a log obeys the same laws on the replicated store, and any
  // other changes nothing.
  lemma FreshObeys(log: seq<Command>, i: nat)
    requires i < |log|
    ensures var before, after := Fold(log[..i]), Fold(log[..i + 1]);
            if Fresh(log, i) then Obeys(before.store, log[i], after.store, Apply(before, log[i]).1)
            else after == before
  {
    assert log[..i + 1][..i] == log[..i];
    FreshMeansNew(log, i);
    ExecuteObeys(Fold(log[..i]).store, log[i]);
  }

  // The state after applying a whole command log.
  function Fold(log: seq<Command>): State {
    if log == [] then EMPTY else Apply(Fold(log[..|log| - 1]), log[|log| - 1]).0
  }

  // ---- sessions: what the log means ------------------------------------------

  // Highest request id of a client in a log, or -1 below all of them.
  function Highest(log: seq<Command>, client: int): Option<int> {
    if log == [] then None
    else
      var last := log[|log| - 1];
      var before := Highest(log[..|log| - 1], client);
      if !Structured(last) || last.client != client then before
      else if before.Some? && last.req <= before.value then before
      else Some(last.req)
  }

  // Position i is a record high: no earlier command of the same client has an id as large.
  predicate Fresh(log: seq<Command>, i: nat)
    requires i < |log|
  {
    Structured(log[i]) &&
    var h := Highest(log[..i], log[i].client);
    h.None? || h.value < log[i].req
  }

  // The commands that actually execute, in order.
  function FreshOnly(log: seq<Command>): seq<Command> {
    if log == [] then []
    else
      var before := FreshOnly(log[..|log| - 1]);
      if Fresh(log, |log| - 1) then before + [log[|log| - 1]] else before
  }

  // Plain sequential execution with no sessions at all.
  function RunAll(cmds: seq<Command>): Store {
    if cmds == [] then map[] else Execute(RunAll(cmds[..|cmds| - 1]), cmds[|cmds| - 1]).0
  }

  lemma {:induction false} SessionsTrackHighest(log: seq<Command>, client: int)
    ensures client in Fold(log).sessions <==> Highest(log, client).Some?
    ensures client in Fold(log).sessions ==> Fold(log).sessions[client].req == Highest(log, client).value
  {
    if log != [] {
      SessionsTrackHighest(log[..|log| - 1], client);
      SessionsTrackHighest(log[..|log| - 1], log[|log| - 1].client);
    }
  }

  lemma RunAllSnoc(cmds: seq<Command>, c: Command)
    ensures RunAll(cmds + [c]) == Execute(RunAll(cmds), c).0
  {
    assert (cmds + [c])[..|cmds|] == cmds;
  }

  // Whether a command executes is decided by the record-high rule.
  lemma FreshMeansNew(log: seq<Command>, i: nat)
    requires i < |log|
    ensures Fresh(log, i) <==> Structured(log[i]) && !Duplicate(Fold(log[..i]), log[i])
  {
    SessionsTrackHighest(log[..i], log[i].client);
  }

  // Exactly once: the store after any log is the store after executing, once each and
  // with no session table, only the record-high requests of every client.
  lemma {:induction false} ExactlyOnce(log: seq<Command>)
    ensures Fold(log).store == RunAll(FreshOnly(log))
  {
    if log != [] {
      var n := |log| - 1;
      ExactlyOnce(log[..n]);
      FreshMeansNew(log, n);
      RunAllSnoc(FreshOnly(log[..n]), log[n]);
    }
  }

  // A fresh request reports what executing it on the current store reports.
  lemma FreshResult(log: seq<Command>, i: nat)
    requires i < |log| && Fresh(log, i)
    ensures Apply(Fold(log[..i]), log[i]).1 == Execute(RunAll(FreshOnly(log[..i])), log[i]).1
  {
    ExactlyOnce(log[..i]);
    FreshMeansNew(log, i);
  }

  // No later command of this one's client has a larger request id.
  predicate Latest(log: seq<Command>, i: nat)
    requires i < |log|
  {
    forall k | i < k < |log| && Structured(log[k]) && log[k].client == log[i].client :: log[k].req <= log[i].req
  }

  // Retrying the latest request of a client changes nothing and repeats the answer, however
  // often it was retried already and whatever other clients did in between.
  lemma {:induction false} RetryAnswersAlike(log: seq<Command>, i: nat)
    requires i < |log| && Fresh(log, i) && Latest(log, i)
    ensures Apply(Fold(log), log[i]) == (Fold(log), Apply(Fold(log[..i]), log[i]).1)
    decreases |log|
  {
    var n := |log| - 1;
    if n == i {
      FreshMeansNew(log, i);
    } else {
      assert log[..n][..i] == log[..i];
      RetryAnswersAlike(log[..n], i);
    }
  }

  // ---- exactly when a retry repeats its answer ----------------------------------

  // The same requests of the same clients, whatever they do.
  predicate SameRequests(a: seq<Command>, b: seq<Command>) {
    |a| == |b| && forall k | 0 <= k < |a| ::
      && Structured(a[k]) == Structured(b[k])
      && (Structured(a[k]) ==> a[k].client == b[k].client && a[k].req == b[k].req)
  }

  // Retried now, the request executed at i gets the answer it got then.
  predicate RepeatsAnswer(log: seq<Command>, i: nat)
    requires i < |log|
  {
    Apply(Fold(log), log[i]).1 == Apply(Fold(log[..i]), log[i]).1
  }

  lemma {:induction false} SameHighest(a: seq<Command>, b: seq<Command>, client: int)
    requires SameRequests(a, b)
    ensures Highest(a, client) == Highest(b, client)
    decreases |a|
  {
    if a != [] {
      SameHighest(a[..|a| - 1], b[..|b| - 1], client);
    }
  }

  lemma SameFresh(a: seq<Command>, b: seq<Command>, i: nat)
    requires SameRequests(a, b) && i < |a|
    ensures Fresh(a, i) == Fresh(b, i)
  {
    SameHighest(a[..i], b[..i], a[i].client);
  }

  // Where a client's highest request executed.
  lemma {:induction false} HighestAt(log: seq<Command>, client: int) returns (j: nat)
    requires Highest(log, client).Some?
    ensures j < |log| && log[j].client == client && Fresh(log, j) && Latest(log, j)
    ensures Highest(log, client) == Some(log[j].req)
    decreases |log|
  {
    var n := |log| - 1;
    var before := log[..n];
    if Structured(log[n]) && log[n].client == client && Highest(log, client) != Highest(before, client) {
      j := n;
    } else {
      j := HighestAt(before, client);
      assert before[..j] == log[..j];
    }
  }

  // No structured request is above the highest of its client.
  lemma {:induction false} BelowHighest(log: seq<Command>, k: nat)
    requires k < |log| && Structured(log[k])
    ensures Highest(log, log[k].client).Some? && log[k].req <= Highest(log, log[k].client).value
    decreases |log|
  {
    if k < |log| - 1 {
      BelowHighest(log[..|log| - 1], k);
    }
  }

  // Every other operation writes one key; the one at j reads another.
  function Rewritten(log: seq<Command>, j: nat): (r: seq<Command>)
    ensures |r| == |log| && forall k | 0 <= k < |log| :: r[k] == RewrittenCommand(log[k], k == j)
  {
    seq(|log|, k requires 0 <= k < |log| => RewrittenCommand(log[k], k == j))
  }

  function RewrittenCommand(c: Command, asks: bool): Command {
    if !Structured(c) then c
    else if asks then Command(c.client, c.req, Get, "unwritten", "", "")
    else Command(c.client, c.req, Put, "written", "", "")
  }

  lemma {:induction false} NeverWritten(log: seq<Command>, j: nat, k: nat)
    requires k <= |log|
    ensures "unwritten" !in Fold(Rewritten(log, j)[..k]).store
    decreases k
  {
    if k > 0 {
      NeverWritten(log, j, k - 1);
      var r := Rewritten(log, j);
      assert r[..k][..k - 1] == r[..k - 1] && r[..k][k - 1] == r[k - 1];
    }
  }

  // A request above it in between, and for some choice of operations the retry is answered
  // with what that one was answered.
  lemma OvertakenAnswersWrong(log: seq<Command>, i: nat) returns (other: seq<Command>)
    requires i < |log| && Fresh(log, i) && !Latest(log, i)
    ensures SameRequests(log, other) && !RepeatsAnswer(other, i)
  {
    var k :| i < k < |log| && Structured(log[k]) && log[k].client == log[i].client && log[k].req > log[i].req;
    BelowHighest(log, k);
    var j := HighestAt(log, log[i].client);
    other := Rewritten(log, j);
    SameFresh(log, other, i);
    SameFresh(log, other, j);
    assert Latest(other, j);
    RetryAnswersAlike(other, j);
    NeverWritten(log, j, j);
    FreshMeansNew(other, i);
    FreshMeansNew(other, j);
    SameHighest(log, other, log[i].client);
    SessionsTrackHighest(other, log[i].client);
  }

  // So for every choice of operations a retry repeats its own answer, exactly if its client
  // has made no request above it since.
  lemma RetryAnswersExactly(log: seq<Command>, i: nat)
    requires i < |log| && Fresh(log, i)
    ensures Latest(log, i) <==> forall other | SameRequests(log, other) :: RepeatsAnswer(other, i)
  {
    if Latest(log, i) {
      forall other | SameRequests(log, other)
        ensures RepeatsAnswer(other, i)
      {
        SameFresh(log, other, i);
        assert Latest(other, i);
        RetryAnswersAlike(other, i);
      }
    } else {
      var other := OvertakenAnswersWrong(log, i);
    }
  }

  // The limit of that: a retry older than the client's latest request is answered with
  // the latest cached result, not with the one it had itself.
  lemma OlderRetryExample()
    ensures
      var a := Command(0, 0, Get, "k", "", "");
      var b := Command(0, 1, Put, "k", "v", "");
      Apply(Fold([a, b]), a).1 == "ok" && Apply(EMPTY, a).1 == ""
  {
    var a := Command(0, 0, Get, "k", "", "");
    var b := Command(0, 1, Put, "k", "v", "");
    assert [a, b][..1] == [a] && [a][..0] == [];
    assert Fold([a]).sessions[0] == Session(0, "");
  }
}
