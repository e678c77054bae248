// The text form of log entries, and what reading it back gives.
module Codec {
  import opened Prelude
  import opened KvStore
  import opened RaftTypes
  import H = Histories

  // ---- decimal numbers --------------------------------------------------------

  predicate IsDigit(c: char) {
    '0' <= c <= '9'
  }

  function Digits(n: nat): (r: string)
    ensures r != [] && forall k | 0 <= k < |r| :: IsDigit(r[k])
  {
    if n < 10 then [DigitChar(n)] else Digits(n / 10) + [DigitChar(n % 10)]
  }

  function DigitChar(d: nat): (c: char)
    requires d < 10
    ensures IsDigit(c) && c as int - '0' as int == d
  {
    ('0' as int + d) as char
  }

  function DigitValue(c: char): (d: nat)
    requires IsDigit(c)
    ensures d < 10
  {
    c as int - '0' as int
  }

  function Text(n: int): string {
    if n < 0 then "-" + Digits(-n) else Digits(n)
  }

  // Digits, with single underscores allowed between them.
  function Unsigned(s: string): Option<nat> {
    if s == [] then None
    else if |s| == 1 then if IsDigit(s[0]) then Some(DigitValue(s[0])) else None
    else
      var n := |s| - 1;
      if !IsDigit(s[n]) then None
      else
        var front := if s[n - 1] == '_' then Unsigned(s[..n - 1]) else Unsigned(s[..n]);
        if front.None? then None else Some(front.value * 10 + DigitValue(s[n]))
  }

  predicate IsSpace(c: char) {
    c == ' ' || c == '\t' || c == '\n' || c == '\r' || c == '\U{b}' || c == '\U{c}'
  }

  function Strip(s: string): string {
    if s != [] && IsSpace(s[0]) then Strip(s[1..])
    else if s != [] && IsSpace(s[|s| - 1]) then Strip(s[..|s| - 1])
    else s
  }

  // An optional sign and digits, surrounded by white space: what the program's number
  // parser takes.
  function IntOf(text: string): Option<int> {
    var s := Strip(text);
    if s != [] && s[0] == '-' then
      var n := Unsigned(s[1..]);
      if n.None? then None else var v: int := n.value; Some(-v)
    else
      var n := Unsigned(if s != [] && s[0] == '+' then s[1..] else s);
      if n.None? then None else Some(n.value)
  }

  lemma {:induction false} UnsignedDigits(n: nat)
    ensures Unsigned(Digits(n)) == Some(n)
  {
    if n >= 10 {
      UnsignedDigits(n / 10);
      var front := Digits(n / 10);
      assert Digits(n)[..|front|] == front;
      assert Digits(n)[|front| - 1] == front[|front| - 1];
    }
  }

  lemma StripDigits(s: string)
    requires s != [] && !IsSpace(s[0]) && !IsSpace(s[|s| - 1])
    ensures Strip(s) == s
  {
  }

  lemma IntOfText(n: int)
    ensures IntOf(Text(n)) == Some(n)
  {
    var d := Digits(if n < 0 then -n else n);
    UnsignedDigits(if n < 0 then -n else n);
    StripDigits(Text(n));
    if n < 0 {
      assert Text(n)[1..] == d;
    }
  }

  // A number's text has none of the separators.
  lemma TextPlain(n: int)
    ensures ':' !in Text(n) && ',' !in Text(n)
  {
  }

  // What the parser accepts has none of them either.
  lemma {:induction false} UnsignedPlain(s: string)
    requires Unsigned(s).Some?
    ensures ':' !in s && ',' !in s
    decreases |s|
  {
    if |s| > 1 {
      var n := |s| - 1;
      if s[n - 1] == '_' {
        UnsignedPlain(s[..n - 1]);
        assert s == s[..n - 1] + ['_', s[n]];
      } else {
        UnsignedPlain(s[..n]);
        assert s == s[..n] + [s[n]];
      }
    }
  }

  lemma {:induction false} StripPlain(s: string, c: char)
    requires !IsSpace(c)
    ensures c in s ==> c in Strip(s)
    decreases |s|
  {
    if s != [] && IsSpace(s[0]) {
      assert s == [s[0]] + s[1..];
      StripPlain(s[1..], c);
    } else if s != [] && IsSpace(s[|s| - 1]) {
      assert s == s[..|s| - 1] + [s[|s| - 1]];
      StripPlain(s[..|s| - 1], c);
    }
  }

  lemma IntOfPlain(text: string)
    requires IntOf(text).Some?
    ensures ':' !in text && ',' !in text
  {
    var s := Strip(text);
    StripPlain(text, ':');
    StripPlain(text, ',');
    if s[0] == '-' || s[0] == '+' {
      UnsignedPlain(s[1..]);
      assert s == [s[0]] + s[1..];
    } else {
      UnsignedPlain(s);
    }
  }

  // ---- splitting and joining --------------------------------------------------

  function Join(parts: seq<string>, sep: char): string
    requires parts != []
  {
    if |parts| == 1 then parts[0] else parts[0] + [sep] + Join(parts[1..], sep)
  }

  function Split(s: string, sep: char): (r: seq<string>)
    ensures r != []
  {
    if s == [] then [[]]
    else
      var rest := Split(s[1..], sep);
      if s[0] == sep then [[]] + rest else [[s[0]] + rest[0]] + rest[1..]
  }

  function Count(s: string, c: char): nat {
    if s == [] then 0 else (if s[0] == c then 1 else 0) + Count(s[1..], c)
  }

  lemma {:induction false} SplitCount(s: string, sep: char)
    ensures |Split(s, sep)| == Count(s, sep) + 1
  {
    if s != [] {
      SplitCount(s[1..], sep);
    }
  }

  lemma {:induction false} CountAppend(a: string, b: string, c: char)
    ensures Count(a + b, c) == Count(a, c) + Count(b, c)
  {
    if a == [] {
      assert a + b == b;
    } else {
      assert (a + b)[1..] == a[1..] + b;
      CountAppend(a[1..], b, c);
    }
  }

  lemma {:induction false} CountAbsent(s: string, c: char)
    ensures Count(s, c) == 0 <==> c !in s
  {
    if s != [] {
      assert s == [s[0]] + s[1..];
      CountAbsent(s[1..], c);
    }
  }

  // A part without separators in front splits off whole.
  lemma {:induction false} SplitFirst(a: string, b: string, sep: char)
    requires sep !in a
    ensures Split(a + [sep] + b, sep) == [a] + Split(b, sep)
  {
    var s := a + [sep] + b;
    if a == [] {
      assert s[1..] == b;
    } else {
      assert a == [a[0]] + a[1..];
      assert s[1..] == a[1..] + [sep] + b;
      SplitFirst(a[1..], b, sep);
    }
  }

  lemma {:induction false} SplitWhole(a: string, sep: char)
    requires sep !in a
    ensures Split(a, sep) == [a]
  {
    if a != [] {
      assert a == [a[0]] + a[1..];
      SplitWhole(a[1..], sep);
    }
  }

  lemma {:induction false} SplitJoin(parts: seq<string>, sep: char)
    requires parts != [] && forall k | 0 <= k < |parts| :: sep !in parts[k]
    ensures Split(Join(parts, sep), sep) == parts
    decreases |parts|
  {
    if |parts| == 1 {
      SplitWhole(parts[0], sep);
    } else {
      SplitJoin(parts[1..], sep);
      SplitFirst(parts[0], Join(parts[1..], sep), sep);
    }
  }

  // Joining writes one separator between parts, on top of those the parts contain.
  lemma {:induction false} JoinCount(parts: seq<string>, sep: char, k: nat)
    requires k < |parts|
    ensures Count(Join(parts, sep), sep) >= |parts| - 1 + Count(parts[k], sep)
    decreases |parts|
  {
    if |parts| > 1 {
      CountAppend(parts[0] + [sep], Join(parts[1..], sep), sep);
      CountAppend(parts[0], [sep], sep);
      assert [sep][1..] == [];
      JoinCount(parts[1..], sep, if k > 0 then k - 1 else 0);
      assert k > 0 ==> parts[1..][k - 1] == parts[k];
    }
  }

  // ---- commands ---------------------------------------------------------------

  function OpText(op: Op): string {
    match op
    case Put => "put"
    case Get => "get"
    case Cas => "cas"
    case Noop => "noop"
  }

  function OpOf(s: string): Option<Op> {
    if s == "put" then Some(Put) else if s == "get" then Some(Get) else if s == "cas" then Some(Cas) else None
  }

  function Fields(c: KvStore.Command): seq<string> {
    [Text(c.client), Text(c.req), OpText(c.op), c.key, c.value, c.expected]
  }

  function Encode(c: KvStore.Command): string {
    Join(Fields(c), ':')
  }

  // Total: anything that is not a well-formed command reads as the no-op.
  function Decode(s: string): KvStore.Command {
    var parts := Split(s, ':');
    if |parts| != 6 then NOOP
    else
      var client, req, op := IntOf(parts[0]), IntOf(parts[1]), OpOf(parts[2]);
      if client.None? || req.None? || op.None? then NOOP
      else KvStore.Command(client.value, req.value, op.value, parts[3], parts[4], parts[5])
  }

  predicate Clean(c: KvStore.Command) {
    ':' !in c.key && ':' !in c.value && ':' !in c.expected
  }

  lemma FieldsPlain(c: KvStore.Command)
    ensures Clean(c) ==> forall k | 0 <= k < |Fields(c)| :: ':' !in Fields(c)[k]
    ensures !Clean(c) ==> exists k :: 3 <= k < 6 && ':' in Fields(c)[k]
  {
    TextPlain(c.client);
    TextPlain(c.req);
    assert Fields(c)[3] == c.key && Fields(c)[4] == c.value && Fields(c)[5] == c.expected;
  }

  lemma DecodeClean(c: KvStore.Command)
    requires Clean(c)
    ensures Decode(Encode(c)) == if c.op == Noop then NOOP else c
  {
    FieldsPlain(c);
    SplitJoin(Fields(c), ':');
    IntOfText(c.client);
    IntOfText(c.req);
  }

  lemma DecodeUnclean(c: KvStore.Command)
    requires !Clean(c)
    ensures Decode(Encode(c)) == NOOP
  {
    FieldsPlain(c);
    var k :| 3 <= k < 6 && ':' in Fields(c)[k];
    CountAbsent(Fields(c)[k], ':');
    JoinCount(Fields(c), ':', k);
    SplitCount(Encode(c), ':');
  }

  // A command survives being written and read exactly when it is a real operation none of
  // whose fields contains the separator (or is the no-op itself).
  lemma RoundTrip(c: KvStore.Command)
    ensures Decode(Encode(c)) == c <==> c == NOOP || (c.op != Noop && Clean(c))
  {
    if Clean(c) {
      DecodeClean(c);
    } else {
      DecodeUnclean(c);
    }
  }

  // Different clean commands have different texts, so the text identifies the command.
  lemma EncodeInjective(a: KvStore.Command, b: KvStore.Command)
    requires Clean(a) && Clean(b) && a.op != Noop && b.op != Noop && Encode(a) == Encode(b)
    ensures a == b
  {
    DecodeClean(a);
    DecodeClean(b);
  }

  // ---- configurations ---------------------------------------------------------

  const PREFIX := "cfg:"

  function Texts(voters: seq<Id>): (r: seq<string>)
    ensures |r| == |voters| && forall k | 0 <= k < |voters| :: r[k] == Text(voters[k])
  {
    seq(|voters|, k requires 0 <= k < |voters| => Text(voters[k]))
  }

  // The voters' ids, which the program lists in increasing order.
  function EncodeConfig(voters: seq<Id>): string {
    PREFIX + if voters == [] then "" else Join(Texts(voters), ',')
  }

  function AllInts(parts: seq<string>): Option<seq<int>> {
    if parts == [] then Some([])
    else
      var first, rest := IntOf(parts[0]), AllInts(parts[1..]);
      if first.None? || rest.None? then None else Some([first.value] + rest.value)
  }

  function DecodeConfig(s: string): Option<seq<int>> {
    if PREFIX <= s then AllInts(Split(s[|PREFIX|..], ',')) else None
  }

  lemma {:induction false} AllIntsTexts(voters: seq<Id>)
    ensures AllInts(Texts(voters)) == Some(voters)
    decreases |voters|
  {
    if voters != [] {
      IntOfText(voters[0]);
      assert Texts(voters)[1..] == Texts(voters[1..]);
      AllIntsTexts(voters[1..]);
      assert voters == [voters[0]] + voters[1..];
    }
  }

  // A configuration reads back exactly when it names somebody.
  lemma ConfigRoundTrip(voters: seq<Id>)
    ensures DecodeConfig(EncodeConfig(voters)) == Some(voters) <==> voters != []
    ensures voters == [] ==> DecodeConfig(EncodeConfig(voters)) == None
  {
    var s := EncodeConfig(voters);
    assert PREFIX <= s;
    if voters == [] {
      assert s[|PREFIX|..] == "";
      assert Split("", ',') == [""];
      assert AllInts([""]) == None;
    } else {
      assert s[|PREFIX|..] == Join(Texts(voters), ',');
      forall k | 0 <= k < |voters|
        ensures ',' !in Texts(voters)[k]
      {
        TextPlain(voters[k]);
      }
      SplitJoin(Texts(voters), ',');
      AllIntsTexts(voters);
    }
  }

  lemma {:induction false} AllIntsPlain(parts: seq<string>, k: nat)
    requires AllInts(parts).Some? && k < |parts|
    ensures ':' !in parts[k]
  {
    if k == 0 {
      IntOfPlain(parts[0]);
    } else {
      AllIntsPlain(parts[1..], k - 1);
    }
  }

  lemma {:induction false} SplitCovers(s: string, sep: char, c: char)
    requires c in s && c != sep
    ensures exists k :: 0 <= k < |Split(s, sep)| && c in Split(s, sep)[k]
  {
    var parts, rest := Split(s, sep), Split(s[1..], sep);
    assert s == [s[0]] + s[1..];
    if s[0] == c {
      assert c in parts[0];
    } else {
      SplitCovers(s[1..], sep, c);
      var k :| 0 <= k < |rest| && c in rest[k];
      if s[0] == sep {
        assert parts[k + 1] == rest[k];
      } else {
        assert k > 0 ==> parts[k] == rest[k];
        assert k == 0 ==> c in parts[0];
      }
    }
  }

  // To the state machine every configuration entry is a no-op, however it is spelled.
  lemma ConfigIsNoop(s: string)
    requires DecodeConfig(s).Some?
    ensures Decode(s) == NOOP
  {
    var rest := s[|PREFIX|..];
    assert s == PREFIX + rest;
    if ':' in rest {
      SplitCovers(rest, ',', ':');
      var k :| 0 <= k < |Split(rest, ',')| && ':' in Split(rest, ',')[k];
      AllIntsPlain(Split(rest, ','), k);
    }
    SplitFirst("cfg", rest, ':');
    assert s == "cfg" + [':'] + rest;
    CountAbsent(rest, ':');
    SplitCount(rest, ':');
  }

  // ---- entries ----------------------------------------------------------------

  // How the layers above read an entry's text.
  function PayloadOf(s: string): Payload {
    var config := DecodeConfig(s);
    if config.Some? then Config(set v: nat | v in config.value)
    else if Decode(s).op != Noop then Client(Decode(s))
    else Opaque(s)
  }

  // The state machine reads from the text what the model's entries carry.
  lemma PayloadCommand(s: string)
    ensures CommandOf(PayloadOf(s)) == Decode(s)
  {
    if DecodeConfig(s).Some? {
      ConfigIsNoop(s);
    }
  }

  // A clean client command appended as text is that command to every layer.
  lemma CommandPayload(c: KvStore.Command)
    requires Clean(c) && Structured(c)
    ensures PayloadOf(Encode(c)) == Client(c)
  {
    DecodeClean(c);
    if DecodeConfig(Encode(c)).Some? {
      ConfigIsNoop(Encode(c));
    }
  }

  // And an encoded configuration is the set of its voters.
  lemma ConfigPayload(voters: seq<Id>)
    requires voters != []
    ensures PayloadOf(EncodeConfig(voters)) == Config(set v | v in voters)
  {
    ConfigRoundTrip(voters);
    assert (set v: nat | v in DecodeConfig(EncodeConfig(voters)).value) == set v | v in voters;
  }

  // ---- the workload -----------------------------------------------------------

  const WORKLOAD_CLIENTS := 3
  const WORKLOAD_KEYS := ["k0", "k1", "k2"]
  const WORKLOAD_OPS := [Put, Put, Get, Cas]

  // The req-th command of a client; a pure function, so a retry has the same text.
  function Workload(client: nat, req: nat): KvStore.Command {
    var n := req * WORKLOAD_CLIENTS + client;
    var key, op := WORKLOAD_KEYS[n % 3], WORKLOAD_OPS[n % 4];
    if op == Get then KvStore.Command(client, req, Get, key, "", "")
    else if op == Cas then KvStore.Command(client, req, Cas, key, "v" + Text(n), if n > 0 then "v" + Text(n - 1) else "")
    else KvStore.Command(client, req, Put, key, "v" + Text(n), "")
  }

  // Every command of the workload is one a cluster can be driven with, and survives the log.
  lemma WorkloadGood(client: nat, req: nat)
    ensures var c := Workload(client, req);
            && Structured(c) && c.client == client && c.req == req && Clean(c)
            && PayloadOf(Encode(c)) == Client(c)
  {
    var n := req * WORKLOAD_CLIENTS + client;
    TextPlain(n);
    TextPlain(n - 1);
    assert ':' !in "k0" && ':' !in "k1" && ':' !in "k2";
    CommandPayload(Workload(client, req));
  }
}
