/** sse.go against cmd/sse-client/main.go: the event framing and the line scan that undoes it
    (section 9.2 of the WHATWG HTML Living Standard). Characters stand for bytes. */
module Sse {
  import opened Common

  /** What the handler's select produced: a change already marshalled, or a heartbeat tick. */
  datatype Frame = Event(json: string) | Ping

  const PREAMBLE := ": connected\n\n"
  const DATA := "data: "

  /** bufio.MaxScanTokenSize: a line of this many bytes or more ends the scan. */
  const MAX_LINE := 65536

  function FrameBytes(f: Frame): string {
    match f
    case Event(json) => DATA + json + "\n\n"
    case Ping => ": ping\n\n"
  }

  function Body(fs: seq<Frame>): string {
    if fs == [] then "" else FrameBytes(fs[0]) + Body(fs[1..])
  }

  function Payloads(fs: seq<Frame>): seq<string> {
    if fs == [] then []
    else (if fs[0].Event? then [fs[0].json] else []) + Payloads(fs[1..])
  }

  lemma {:induction false} BodyAppend(fs: seq<Frame>, f: Frame)
    ensures Body(fs + [f]) == Body(fs) + FrameBytes(f)
  {
    if fs == [] {
      assert fs + [f] == [f];
    } else {
      assert (fs + [f])[1..] == fs[1..] + [f];
      BodyAppend(fs[1..], f);
    }
  }

  lemma NoFrames()
    ensures Body([]) == ""
  {
  }

  /** The /events handler's writes. */
  method ServeEvents(fs: seq<Frame>) returns (bytes: string)
    ensures bytes == PREAMBLE + Body(fs)
  {
    hide Body;
    NoFrames();
    assert fs[..0] == [];
    bytes := PREAMBLE;
    var i := 0;
    while i < |fs|
      invariant i <= |fs|
      invariant bytes == PREAMBLE + Body(fs[..i])
    {
      assert fs[..i + 1] == fs[..i] + [fs[i]];
      BodyAppend(fs[..i], fs[i]);
      match fs[i] {
        case Event(json) => bytes := bytes + ("data: " + json + "\n\n");
        case Ping => bytes := bytes + ": ping\n\n";
      }
      i := i + 1;
    }
    assert fs[..i] == fs;
  }

  // ---- the client's scan ----

  function NewlineAt(s: string): (n: nat)
    ensures n <= |s|
    ensures forall i :: 0 <= i < n ==> s[i] != '\n'
    ensures n < |s| ==> s[n] == '\n'
  {
    if s == "" || s[0] == '\n' then 0 else 1 + NewlineAt(s[1..])
  }

  function DropCR(line: string): string {
    if line != "" && line[|line| - 1] == '\r' then line[..|line| - 1] else line
  }

  predicate HasData(line: string) {
    |line| >= 6 && line[..6] == DATA
  }

  /** What a scanned line contributes to the client's output. */
  function LineOutput(raw: string): seq<string> {
    if HasData(DropCR(raw)) then [DropCR(raw)[6..]] else []
  }

  /** Everything the client prints for a byte stream. */
  function Listened(s: string): seq<string>
    decreases |s|
  {
    if s == "" then []
    else
      var n := NewlineAt(s);
      if n >= MAX_LINE then []
      else if n == |s| then LineOutput(s)
      else LineOutput(s[..n]) + Listened(s[n + 1..])
  }

  /** The scan meets a line it has no room for. */
  function Overflows(s: string): bool
    decreases |s|
  {
    var n := NewlineAt(s);
    n >= MAX_LINE || (n < |s| && Overflows(s[n + 1..]))
  }

  ghost predicate Unbroken(s: string, i: nat) {
    i + 65536 <= |s| && '\n' !in s[i..i + 65536]
  }

  /** A window either lies behind the first line break or would contain it. */
  lemma WindowMoves(s: string, n: nat, i: nat)
    requires n < |s| && n < MAX_LINE && s[n] == '\n'
    ensures Unbroken(s, i) <==> i > n && Unbroken(s[n + 1..], i - n - 1)
  {
    if i <= n && i + MAX_LINE <= |s| {
      assert s[i..i + MAX_LINE][n - i] == '\n';
    } else if n < i && i + MAX_LINE <= |s| {
      assert s[n + 1..][i - n - 1..i - n - 1 + MAX_LINE] == s[i..i + MAX_LINE];
    }
  }

  lemma StartUnbroken(s: string)
    requires NewlineAt(s) >= MAX_LINE
    ensures Unbroken(s, 0)
  {
    hide NewlineAt;
  }

  /** The scanner gives up exactly when some 65536 bytes in a row hold no line break. */
  lemma {:induction false} OverflowIffUnbroken(s: string)
    ensures Overflows(s) <==> exists i: nat :: Unbroken(s, i)
    decreases |s|
  {
    hide NewlineAt, Unbroken;
    var n := NewlineAt(s);
    if n >= MAX_LINE {
      StartUnbroken(s);
    } else if n < |s| {
      var rest := s[n + 1..];
      OverflowIffUnbroken(rest);
      if i: nat :| Unbroken(s, i) {
        WindowMoves(s, n, i);
      }
      if i: nat :| Unbroken(rest, i) {
        WindowMoves(s, n, i + n + 1);
      }
    } else {
      if i: nat :| Unbroken(s, i) {
        ShortUnbroken(s, i);
      }
    }
  }

  lemma ShortUnbroken(s: string, i: nat)
    requires Unbroken(s, i)
    ensures |s| >= MAX_LINE
  {
  }

  /** The client's loop; tooLong is the scanner's error. */
  method Listen(s: string) returns (out: seq<string>, tooLong: bool)
    ensures out == Listened(s)
    ensures tooLong == Overflows(s)
  {
    hide Listened, NewlineAt, DropCR;
    out, tooLong := [], false;
    assert s[0..] == s;
    var pos := 0;
    while pos < |s|
      invariant pos <= |s|
      invariant Listened(s) == out + Listened(s[pos..])
      invariant Overflows(s) == Overflows(s[pos..]) && !tooLong
    {
      var rest := s[pos..];
      var n := NewlineAt(rest);
      ListenedFront(rest);
      if n >= MAX_LINE {
        return out, true;
      }
      var line := DropCR(rest[..n]);
      if HasData(line) {
        out := out + [line[6..]];
      }
      if n == |rest| {
        assert rest[..n] == rest;
        return out, false;
      }
      assert s[pos + n + 1..] == rest[n + 1..];
      pos := pos + n + 1;
    }
    assert s[pos..] == "";
    ListenedFront("");
  }

  lemma ListenedFront(s: string)
    ensures s == "" ==> Listened(s) == []
    ensures s != "" ==> var n := NewlineAt(s);
      Listened(s) ==
        if n >= MAX_LINE then []
        else if n == |s| then LineOutput(s)
        else LineOutput(s[..n]) + Listened(s[n + 1..])
  {
    hide NewlineAt, LineOutput;
  }

  lemma {:induction false} NewlineFound(a: string, rest: string)
    requires '\n' !in a
    ensures NewlineAt(a + "\n" + rest) == |a|
  {
    if a == "" {
      assert (a + "\n" + rest)[0] == '\n';
    } else {
      assert (a + "\n" + rest)[1..] == a[1..] + "\n" + rest;
      NewlineFound(a[1..], rest);
    }
  }

  /** The scan takes one terminated line off the front. */
  lemma TakesLine(a: string, rest: string)
    requires '\n' !in a && |a| < MAX_LINE
    ensures Listened(a + "\n" + rest) == LineOutput(a) + Listened(rest)
  {
    var s := a + "\n" + rest;
    NewlineFound(a, rest);
    assert s[..|a|] == a && s[|a| + 1..] == rest;
  }

  /** An unterminated last line counts as a line. */
  lemma TakesRest(a: string)
    requires '\n' !in a && |a| < MAX_LINE
    ensures Listened(a) == LineOutput(a)
  {
  }

  /** A payload that survives: one line, no trailing carriage return, within the scanner's limit. */
  predicate Good(json: string) {
    '\n' !in json && (json != "" ==> json[|json| - 1] != '\r') && |json| + 6 < 65536
  }

  ghost predicate AllGood(fs: seq<Frame>) {
    forall f <- fs :: f.Event? ==> Good(f.json)
  }

  lemma DataLine(x: string)
    ensures x != "" ==> (DATA + x)[|DATA + x| - 1] == x[|x| - 1]
    ensures LineOutput(DATA + x) == [DropCR(x)]
  {
    assert DropCR(DATA + x) == DATA + DropCR(x);
  }

  /** A line and the blank one that ends the event. */
  lemma TakesEvent(a: string, rest: string)
    requires '\n' !in a && |a| < MAX_LINE
    ensures Listened(a + "\n\n" + rest) == LineOutput(a) + Listened(rest)
  {
    hide Listened;
    assert a + "\n\n" + rest == a + "\n" + ("" + "\n" + rest);
    TakesLine(a, "" + "\n" + rest);
    TakesLine("", rest);
    assert LineOutput("") == [];
    assert [] + Listened(rest) == Listened(rest);
  }

  lemma GoodFrame(json: string, rest: string)
    requires Good(json)
    ensures Listened(FrameBytes(Event(json)) + rest) == [json] + Listened(rest)
  {
    hide Listened, LineOutput;
    assert '\n' !in DATA;
    TakesEvent(DATA + json, rest);
    DataLine(json);
  }

  lemma CommentLine(a: string, rest: string)
    requires a == ": connected" || a == ": ping"
    ensures Listened(a + "\n\n" + rest) == Listened(rest)
  {
    hide Listened;
    assert '\n' !in a;
    TakesEvent(a, rest);
    CommentPrints(a);
    assert [] + Listened(rest) == Listened(rest);
  }

  lemma PingFrame(rest: string)
    ensures Listened(FrameBytes(Ping) + rest) == Listened(rest)
  {
    CommentLine(": ping", rest);
    assert FrameBytes(Ping) == ": ping" + "\n\n";
  }

  /** Any other payload is lost, cut or altered. */
  lemma BadFrame(json: string, rest: string)
    requires !Good(json)
    ensures var out := Listened(FrameBytes(Event(json)) + rest); out == [] || out[0] != json
  {
    if '\n' !in json {
      BadLine(json, rest);
    } else {
      SplitPayload(json, rest);
    }
  }

  lemma BadLine(json: string, rest: string)
    requires !Good(json) && '\n' !in json
    ensures var out := Listened(FrameBytes(Event(json)) + rest); out == [] || out[0] != json
  {
    hide LineOutput, NewlineAt;
    var s := FrameBytes(Event(json)) + rest;
    assert s == (DATA + json) + "\n" + ("\n" + rest);
    NewlineFound(DATA + json, "\n" + rest);
    if |json| + 6 < MAX_LINE {
      TakesLine(DATA + json, "\n" + rest);
      DataLine(json);
    }
  }

  /** A line break inside the payload ends its first line early. */
  lemma SplitPayload(json: string, rest: string)
    requires '\n' in json
    ensures var out := Listened(FrameBytes(Event(json)) + rest); out == [] || out[0] != json
  {
    hide Listened, NewlineAt;
    var k := NewlineAt(json);
    assert k < |json| && '\n' !in json[..k];
    assert json == json[..k] + "\n" + json[k + 1..];
    var tail := json[k + 1..] + "\n\n" + rest;
    assert FrameBytes(Event(json)) + rest == (DATA + json[..k]) + "\n" + tail;
    FirstLineOnly(json[..k], tail);
  }

  lemma FirstLineOnly(a: string, tail: string)
    requires '\n' !in a
    ensures var out := Listened((DATA + a) + "\n" + tail); out == [] || |out[0]| <= |a|
  {
    hide LineOutput, NewlineAt, Listened;
    var line := DATA + a;
    assert '\n' !in line;
    if |line| < MAX_LINE {
      TakesLine(line, tail);
      DataLine(a);
    } else {
      NewlineFound(line, tail);
      ListenedFront(line + "\n" + tail);
    }
  }

  lemma {:induction false} BodyRoundTrip(fs: seq<Frame>)
    ensures Listened(Body(fs)) == Payloads(fs) <==> AllGood(fs)
  {
    if fs != [] {
      var rest := Body(fs[1..]);
      BodyRoundTrip(fs[1..]);
      assert AllGood(fs) <==> (fs[0].Event? ==> Good(fs[0].json)) && AllGood(fs[1..]) by {
        assert fs == [fs[0]] + fs[1..];
      }
      match fs[0] {
        case Ping => PingFrame(rest);
        case Event(json) =>
          if Good(json) {
            GoodFrame(json, rest);
            assert ([json] + Listened(rest))[1..] == Listened(rest);
            assert ([json] + Payloads(fs[1..]))[1..] == Payloads(fs[1..]);
          } else {
            BadFrame(json, rest);
          }
      }
    }
  }

  /** The client prints exactly the served payloads, in order, whatever pings lie between, if and only if every
      payload is a single line without a trailing carriage return that fits the scanner. */
  lemma RoundTrip(fs: seq<Frame>)
    ensures Listened(PREAMBLE + Body(fs)) == Payloads(fs) <==> AllGood(fs)
  {
    assert PREAMBLE + Body(fs) == ": connected" + "\n\n" + Body(fs);
    CommentLine(": connected", Body(fs));
    BodyRoundTrip(fs);
  }

  // ---- a connection cut anywhere ----

  /** out is what a prefix of the stream can give: the first payloads intact, the last possibly cut short. */
  ghost predicate CutOf(out: seq<string>, ps: seq<string>) {
    && |out| <= |ps|
    && (forall i :: 0 <= i < |out| - 1 ==> out[i] == ps[i])
    && (out != [] ==> out[|out| - 1] <= ps[|out| - 1])
  }

  lemma CutInEvent(json: string, n: nat)
    requires Good(json) && n < |FrameBytes(Event(json))|
    ensures var out := Listened(FrameBytes(Event(json))[..n]); out == [] || (|out| == 1 && out[0] <= json)
  {
    var f := FrameBytes(Event(json));
    if n < 6 {
      assert f[..n] == DATA[..n];
      TakesRest(DATA[..n]);
    } else if n <= 6 + |json| {
      assert f[..n] == DATA + json[..n - 6];
      assert '\n' !in DATA + json[..n - 6];
      TakesRest(DATA + json[..n - 6]);
      DataLine(json[..n - 6]);
    } else {
      assert f[..n] == (DATA + json) + "\n" + "";
      TakesLine(DATA + json, "");
      DataLine(json);
    }
  }

  lemma CutInComment(a: string, n: nat)
    requires (a == ": connected" || a == ": ping") && n < |a| + 2
    ensures Listened((a + "\n\n")[..n]) == []
  {
    hide Listened, LineOutput;
    var s := a + "\n\n";
    assert '\n' !in a;
    if n <= |a| {
      assert s[..n] == a[..n];
      TakesRest(a[..n]);
      CommentPrints(a[..n]);
    } else {
      assert s[..n] == a + "\n" + "";
      TakesLine(a, "");
      CommentPrints(a);
      ListenedFront("");
    }
  }

  lemma CommentPrints(line: string)
    requires line != "" ==> line[0] == ':'
    ensures LineOutput(line) == []
  {
    assert DropCR(line) != "" ==> DropCR(line)[0] == ':';
  }

  lemma CutInFrame(f: Frame, n: nat, ps: seq<string>)
    requires (f.Event? ==> Good(f.json)) && n < |FrameBytes(f)|
    ensures CutOf(Listened(FrameBytes(f)[..n]), (if f.Event? then [f.json] else []) + ps)
  {
    hide Listened;
    match f {
      case Event(json) => CutInEvent(json, n);
      case Ping =>
        assert FrameBytes(f) == ": ping" + "\n\n";
        CutInComment(": ping", n);
    }
  }

  lemma WholeFrame(f: Frame, rest: string)
    requires f.Event? ==> Good(f.json)
    ensures Listened(FrameBytes(f) + rest) == (if f.Event? then [f.json] else []) + Listened(rest)
  {
    hide Listened, FrameBytes;
    match f {
      case Event(json) => GoodFrame(json, rest);
      case Ping => PingFrame(rest);
    }
  }

  lemma CutAfter(front: seq<string>, out: seq<string>, ps: seq<string>)
    requires CutOf(out, ps)
    ensures CutOf(front + out, front + ps)
  {
  }

  lemma {:induction false} BodyCut(fs: seq<Frame>, n: nat)
    requires AllGood(fs) && n <= |Body(fs)|
    ensures CutOf(Listened(Body(fs)[..n]), Payloads(fs))
  {
    hide Listened, FrameBytes, Good;
    if fs == [] {
      ListenedFront("");
    } else {
      var f, rest := FrameBytes(fs[0]), Body(fs[1..]);
      if n < |f| {
        assert Body(fs)[..n] == f[..n];
        CutInFrame(fs[0], n, Payloads(fs[1..]));
      } else {
        assert Body(fs)[..n] == f + rest[..n - |f|];
        BodyCut(fs[1..], n - |f|);
        WholeFrame(fs[0], rest[..n - |f|]);
        CutAfter(if fs[0].Event? then [fs[0].json] else [], Listened(rest[..n - |f|]), Payloads(fs[1..]));
      }
    }
  }

  /** If the connection ends after any number of bytes, the client has printed a prefix of the payloads,
      of which only the last can be incomplete. */
  lemma CutStream(fs: seq<Frame>, n: nat)
    requires AllGood(fs) && n <= |PREAMBLE + Body(fs)|
    ensures CutOf(Listened((PREAMBLE + Body(fs))[..n]), Payloads(fs))
  {
    var a := ": connected";
    assert PREAMBLE == a + "\n\n";
    if n < |PREAMBLE| {
      assert (PREAMBLE + Body(fs))[..n] == (a + "\n\n")[..n];
      CutInComment(a, n);
    } else {
      var m := n - |PREAMBLE|;
      assert (PREAMBLE + Body(fs))[..n] == a + "\n\n" + Body(fs)[..m];
      CommentLine(a, Body(fs)[..m]);
      BodyCut(fs, m);
    }
  }
}
