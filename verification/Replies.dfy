// What one move does to the history the clients have seen, exactly.
module Replies {
  import opened Prelude
  import opened KvStore
  import opened RaftTypes
  import opened RaftSpec
  import opened Safety
  import opened Histories
  import opened World
  import opened Witness
  import C = Clients

  // Each client either has one unfinished row, its outstanding operation, or is idle.
  ghost predicate Orderly(w: World) {
    && WaitingOk(w)
    && (forall i | 0 <= i < |w.rows| && w.rows[i].returned.None? :: Structured(w.rows[i].command) && Unfinished(w, w.rows[i].command, i))
    && (forall c | c in w.outstanding :: 0 <= c < |w.nextReq|)
  }

  // The result first reported for a command.
  function FirstReport(reports: seq<Applied>, c: KvStore.Command): Option<string> {
    if reports == [] then None
    else if reports[0].command == c then Some(reports[0].result)
    else FirstReport(reports[1..], c)
  }

  // An unfinished operation is completed by the first report of it; nothing else changes.
  function Answer(row: Row, now: nat, report: Option<string>): Row {
    if row.returned.None? && report.Some? then row.(returned := Some(now), observed := report.value) else row
  }

  function AnswerTo(row: Row, now: nat, reports: seq<Applied>): Row {
    Answer(row, now, FirstReport(reports, row.command))
  }

  ghost predicate AllAnswered(rows: seq<Row>, rows2: seq<Row>, now: nat, reports: seq<Applied>) {
    |rows2| == |rows| && forall i | 0 <= i < |rows| :: rows2[i] == AnswerTo(rows[i], now, reports)
  }

  ghost predicate RowsAnswered(w: World, w2: World, reports: seq<Applied>) {
    AllAnswered(w.rows, w2.rows, w.now, reports) && w2.now == w.now && w2.sys == w.sys
  }

  // A client whose operation was reported is free, its next request one higher.
  ghost predicate ClientsFreed(w: World, w2: World, reports: seq<Applied>) {
    && |w2.nextReq| == |w.nextReq|
    && forall c | 0 <= c < |w.nextReq| :: Freed(w, w2, reports, c)
  }

  predicate Freed(w: World, w2: World, reports: seq<Applied>, c: nat)
    requires c < |w.nextReq| == |w2.nextReq|
  {
    if c in w.outstanding && FirstReport(reports, w.outstanding[c]).Some? then
      c !in w2.outstanding && w2.nextReq[c] == w.nextReq[c] + 1
    else
      && (c in w2.outstanding <==> c in w.outstanding) && (c in w.outstanding ==> w2.outstanding[c] == w.outstanding[c])
      && w2.nextReq[c] == w.nextReq[c]
  }

  lemma OneReport(w: World, a: Applied)
    requires Orderly(w)
    ensures RowsAnswered(w, OnApply(w, a), [a]) && ClientsFreed(w, OnApply(w, a), [a])
  {
    hide OnApply, Freed, Answer;
    ReportIs(w, a);
    forall c: KvStore.Command
      ensures FirstReport([a], c) == if a.command == c then Some(a.result) else None
    {
      assert [a][1..] == [];
    }
    forall i | 0 <= i < |w.rows|
      ensures OnApply(w, a).rows[i] == Answer(w.rows[i], w.now, FirstReport([a], w.rows[i].command))
    {
      RowAnswered(w, a, i);
    }
    forall c | 0 <= c < |w.nextReq|
      ensures Freed(w, OnApply(w, a), [a], c)
    {
      ClientFreed(w, a, c);
    }
  }

  lemma ReportIs(w: World, a: Applied)
    ensures var w2 := OnApply(w, a); |w2.rows| == |w.rows| && w2.now == w.now && w2.sys == w.sys && |w2.nextReq| == |w.nextReq|
  {
  }

  lemma RowAnswered(w: World, a: Applied, i: nat)
    requires Orderly(w) && i < |w.rows|
    ensures OnApply(w, a).rows[i] == Answer(w.rows[i], w.now, if a.command == w.rows[i].command then Some(a.result) else None)
  {
  }

  lemma ClientFreed(w: World, a: Applied, c: nat)
    requires Orderly(w) && c < |w.nextReq| && forall x: KvStore.Command :: FirstReport([a], x) == if a.command == x then Some(a.result) else None
    ensures Freed(w, OnApply(w, a), [a], c)
  {
    if c in w.outstanding {
      assert w.rows[w.waiting[w.outstanding[c]]].command == w.outstanding[c];
    }
  }

  lemma OrderlyAfter(w: World, a: Applied)
    requires Orderly(w)
    ensures Orderly(OnApply(w, a))
  {
  }

  lemma {:induction false} ReportsExactly(w: World, reports: seq<Applied>)
    requires Orderly(w)
    ensures RowsAnswered(w, Reported(w, reports), reports) && ClientsFreed(w, Reported(w, reports), reports)
    decreases |reports|
  {
    if reports != [] {
      var w1, rest := OnApply(w, reports[0]), reports[1..];
      OneReport(w, reports[0]);
      OrderlyAfter(w, reports[0]);
      ReportsExactly(w1, rest);
      assert reports == [reports[0]] + rest;
      OneThenRest(w, w1, Reported(w1, rest), reports[0], rest);
    }
  }

  lemma OneThenRest(w: World, w1: World, w2: World, a: Applied, rest: seq<Applied>)
    requires RowsAnswered(w, w1, [a]) && ClientsFreed(w, w1, [a])
    requires RowsAnswered(w1, w2, rest) && ClientsFreed(w1, w2, rest)
    ensures RowsAnswered(w, w2, [a] + rest) && ClientsFreed(w, w2, [a] + rest)
  {
    hide Freed, Answer;
    forall c: KvStore.Command
      ensures FirstReport([a] + rest, c) == if a.command == c then Some(a.result) else FirstReport(rest, c)
      ensures FirstReport([a], c) == if a.command == c then Some(a.result) else None
    {
      assert ([a] + rest)[1..] == rest && [a][1..] == [];
    }
    forall i | 0 <= i < |w.rows|
      ensures w2.rows[i] == Answer(w.rows[i], w.now, FirstReport([a] + rest, w.rows[i].command))
    {
      AnswerTwice(w.rows[i], w.now, FirstReport([a], w.rows[i].command), FirstReport(rest, w.rows[i].command));
    }
    forall c | 0 <= c < |w.nextReq|
      ensures Freed(w, w2, [a] + rest, c)
    {
      assert Freed(w, w1, [a], c) && Freed(w1, w2, rest, c);
      FreedTwice(w, w1, w2, a, rest, c);
    }
  }

  lemma AnswerTwice(row: Row, now: nat, first: Option<string>, second: Option<string>)
    ensures Answer(Answer(row, now, first), now, second) == Answer(row, now, if first.Some? then first else second)
    ensures Answer(row, now, first).command == row.command
  {
  }

  lemma FreedTwice(w: World, w1: World, w2: World, a: Applied, rest: seq<Applied>, c: nat)
    requires c < |w.nextReq| == |w1.nextReq| == |w2.nextReq| && Freed(w, w1, [a], c) && Freed(w1, w2, rest, c)
    requires forall x: KvStore.Command :: FirstReport([a] + rest, x) == if a.command == x then Some(a.result) else FirstReport(rest, x)
    requires forall x: KvStore.Command :: FirstReport([a], x) == if a.command == x then Some(a.result) else None
    ensures Freed(w, w2, [a] + rest, c)
  {
  }

  // ---- in a story -------------------------------------------------------------

  lemma BooksOrderly(su: Setup, w: World, x: Aux, bound: nat)
    requires Booked(su, w, x, bound)
    ensures Orderly(w)
  {
    hide EntriesOk, PlacesOk, ServedOk, TimesOk, Sequential;
    forall i | 0 <= i < |w.rows| && w.rows[i].returned.None?
      ensures Structured(w.rows[i].command) && Unfinished(w, w.rows[i].command, i)
    {
      assert RowOk(w, x, i, bound);
    }
    forall c | c in w.outstanding
      ensures 0 <= c < |w.nextReq|
    {
      var k := w.waiting[w.outstanding[c]];
      assert RowOk(w, x, k, bound);
      assert w.rows[k].command == w.outstanding[c];
    }
  }

  // The row a move adds: a client's turn adds one, if the client is idle.
  function Asked(w: World, m: Move): seq<Row> {
    if m.Tick? && m.client !in w.outstanding then [Row(m.command, w.now, None, "")] else []
  }

  // Every move adds the row of the operation invoked, if any; completes exactly the
  // unfinished operations its step reports, with the result first reported; and frees
  // exactly their clients.
  lemma RepliesExactly(su: Setup, ws: seq<World>, ms: seq<Move>, i: nat)
    requires IsStory(su, ws, ms) && i < |ms|
    ensures var w, w2, reports := ws[i], ws[i + 1], Outcome(su.par, ws[i].sys, LabelOf(su, ms[i])).applied;
            && AllAnswered(w.rows + Asked(w, ms[i]), w2.rows, w.now, reports) && w2.now == w.now + 1
            && ClientsFreed(Ready(w, ms[i]), w2, reports)
  {
    hide Booked, Orderly, RowsAnswered, ClientsFreed, C.Joined, Outcome, After, Reported, C.WorldInv, MayMove;
    var x, h := C.StoryBooked(su, ws, ms, i);
    var w, m, l := ws[i], ms[i], LabelOf(su, ms[i]);
    var x1 := C.ReadyBooked(su, w, x, h, m);
    var w1 := Ready(w, m);
    BooksOrderly(su, w1, x1, w.now + 1);
    var s := After(su.par, w.sys, l);
    SysApart(w1, s);
    ReportsExactly(w1.(sys := s), Outcome(su.par, w.sys, l).applied);
    MovedExactly(w, m, w1, s, Outcome(su.par, w.sys, l).applied);
  }

  lemma SysApart(w: World, s: Sys)
    ensures Orderly(w.(sys := s)) <==> Orderly(w)
  {
  }

  lemma MovedExactly(w: World, m: Move, w1: World, s: Sys, reports: seq<Applied>)
    requires w1 == Ready(w, m)
    requires var w3 := Reported(w1.(sys := s), reports); RowsAnswered(w1.(sys := s), w3, reports) && ClientsFreed(w1.(sys := s), w3, reports)
    ensures var w2, rows := Reported(w1.(sys := s), reports).(now := w.now + 1), w.rows + Asked(w, m);
            && AllAnswered(rows, w2.rows, w.now, reports)
            && ClientsFreed(w1, w2, reports)
  {
    hide Reported, Answer;
    var w3 := Reported(w1.(sys := s), reports);
    assert w1.rows == w.rows + Asked(w, m) && w1.now == w.now;
    var w2 := w3.(now := w.now + 1);
    forall c | 0 <= c < |w1.nextReq|
      ensures Freed(w1, w2, reports, c)
    {
      assert Freed(w1.(sys := s), w3, reports, c);
    }
  }
}
