/** sse.go against the browser's EventSource, a parser written from section 9.2.6 of the WHATWG HTML Living Standard
    (interpreting an event stream). Only the data field is followed: the server sends no other. */
module EventSource {
  import opened Common
  import opened Sse

  predicate Break(c: char) {
    c == '\n' || c == '\r'
  }

  predicate OneLine(s: string) {
    '\n' !in s && '\r' !in s
  }

  /** Where the first line ends. */
  function LineLength(s: string): (n: nat)
    ensures n <= |s| && OneLine(s[..n])
    ensures n < |s| ==> Break(s[n])
  {
    if s == "" || Break(s[0]) then 0
    else
      assert s == [s[0]] + s[1..];
      1 + LineLength(s[1..])
  }

  /** What follows a line of length n and its end: a carriage return and line feed together, or either one alone. */
  function AfterLine(s: string, n: nat): (rest: string)
    requires n < |s| && Break(s[n])
    ensures |rest| < |s| - n
  {
    if s[n] == '\r' && n + 1 < |s| && s[n + 1] == '\n' then s[n + 2..] else s[n + 1..]
  }

  /** The value of a data line, after one optional space; None if the line is a comment or another field. */
  function DataOf(line: string): Option<string> {
    if line == "data" then Some("")
    else if |line| >= 5 && line[..5] == "data:" then
      Some(if |line| > 5 && line[5] == ' ' then line[6..] else line[5..])
    else None
  }

  /** The data of the events dispatched for s, data being what the lines so far have collected. A blank line
      dispatches it without its last line feed; what is left at the end is discarded. */
  function Dispatched(s: string, data: string): seq<string>
    decreases |s|
  {
    var n := LineLength(s);
    if n == |s| then []
    else
      var rest := AfterLine(s, n);
      if n == 0 then (if data == "" then [] else [data[..|data| - 1]]) + Dispatched(rest, "")
      else
        match DataOf(s[..n])
        case Some(v) => Dispatched(rest, data + v + "\n")
        case None => Dispatched(rest, data)
  }

  lemma {:induction false} LineFound(a: string, b: char, rest: string)
    requires OneLine(a) && Break(b)
    ensures LineLength(a + [b] + rest) == |a|
  {
    if a != "" {
      assert (a + [b] + rest)[1..] == a[1..] + [b] + rest;
      LineFound(a[1..], b, rest);
    }
  }

  /** One line ended by a line feed is taken off the front. */
  lemma TakesOneLine(a: string, rest: string, data: string)
    requires OneLine(a) && a != ""
    ensures Dispatched(a + "\n" + rest, data)
         == match DataOf(a) case Some(v) => Dispatched(rest, data + v + "\n") case None => Dispatched(rest, data)
  {
    var s := a + "\n" + rest;
    LineFound(a, '\n', rest);
    assert s[..|a|] == a && s[|a| + 1..] == rest;
  }

  lemma TakesBlankLine(rest: string, data: string)
    ensures Dispatched("\n" + rest, data) == (if data == "" then [] else [data[..|data| - 1]]) + Dispatched(rest, "")
  {
    var s := "\n" + rest;
    assert s[1..] == rest;
  }

  lemma DispatchesEvent(json: string, rest: string)
    requires OneLine(json)
    ensures Dispatched(FrameBytes(Event(json)) + rest, "") == [json] + Dispatched(rest, "")
  {
    hide Dispatched;
    var line := "data: " + json;
    assert FrameBytes(Event(json)) + rest == line + "\n" + ("\n" + rest);
    DataLineValue(json);
    TakesOneLine(line, "\n" + rest, "");
    TakesBlankLine(rest, json + "\n");
    assert (json + "\n")[..|json|] == json && "" + json + "\n" == json + "\n";
  }

  lemma IgnoresComment(a: string, rest: string)
    requires a == ": connected" || a == ": ping"
    ensures Dispatched(a + "\n\n" + rest, "") == Dispatched(rest, "")
  {
    hide Dispatched;
    assert a + "\n\n" + rest == a + "\n" + ("\n" + rest);
    assert OneLine(a) && a[0] == ':';
    TakesOneLine(a, "\n" + rest, "");
    TakesBlankLine(rest, "");
  }

  lemma NothingToDispatch()
    ensures Dispatched("", "") == []
  {
  }

  // ---- a payload with a line break ----

  /** Lines collect fewer characters than they have: whatever follows, the first event dispatched for a block b
      ended by two line feeds, or by one if b ended in a carriage return, is no longer than what was collected and b. */
  lemma {:induction false} FirstEventIsShort(b: string, ends: string, rest: string, data: string)
    requires data != "" && (ends == "\n\n" || (ends == "\n" && b == ""))
    ensures var out := Dispatched(b + ends + rest, data); out != [] ==> |out[0]| <= |data| - 1 + |b|
    decreases |b|
  {
    hide Dispatched, LineLength;
    var s := b + ends + rest;
    if b == "" {
      assert s == "\n" + (ends[1..] + rest);
      TakesBlankLine(ends[1..] + rest, data);
    } else if Break(b[0]) {
      BlankDispatches(s, data);
    } else {
      var n := LineLength(s);
      LineWithin(b, rest);
      Unfolds(s, data);
      var next := AfterLine(s, n);
      var grown := match DataOf(s[..n]) case Some(v) => data + v + "\n" case None => data;
      if n < |b| && !(b[n] == '\r' && n + 1 == |b|) {
        var tail := if b[n] == '\r' && b[n + 1] == '\n' then b[n + 2..] else b[n + 1..];
        assert next == tail + "\n\n" + rest;
        FirstEventIsShort(tail, "\n\n", rest, grown);
      } else {
        assert next == "" + "\n" + rest;
        FirstEventIsShort("", "\n", rest, grown);
      }
    }
  }

  lemma BlankDispatches(s: string, data: string)
    requires s != "" && Break(s[0]) && data != ""
    ensures Dispatched(s, data) != [] && Dispatched(s, data)[0] == data[..|data| - 1]
  {
  }

  lemma LineWithin(b: string, rest: string)
    requires b != "" && !Break(b[0])
    ensures var n := LineLength(b + "\n\n" + rest);
      0 < n <= |b| && (b + "\n\n" + rest)[..n] == b[..n] && (n < |b| ==> Break(b[n]))
  {
    var s := b + "\n\n" + rest;
    assert s[|b|] == '\n' && s[..LineLength(s)] == b[..LineLength(s)];
  }

  lemma Unfolds(s: string, data: string)
    requires 0 < LineLength(s) < |s|
    ensures var n := LineLength(s);
      Dispatched(s, data) == match DataOf(s[..n])
                             case Some(v) => Dispatched(AfterLine(s, n), data + v + "\n")
                             case None => Dispatched(AfterLine(s, n), data)
  {
  }

  lemma AfterLineIs(line: string, c: char, tail: string)
    requires Break(c)
    ensures AfterLine(line + [c] + tail, |line|)
         == if c == '\r' && tail != "" && tail[0] == '\n' then tail[1..] else tail
  {
    var s := line + [c] + tail;
    assert s[|line| + 1..] == tail;
    if tail != "" {
      assert s[|line| + 2..] == tail[1..];
    }
  }

  /** The rest of a payload after its first line and the break c, with the line collected. */
  lemma RestOfPayload(line: string, c: char, b: string, rest: string, data: string)
    requires Break(c) && data != ""
    ensures var out := Dispatched(AfterLine(line + [c] + (b + "\n\n" + rest), |line|), data);
      out != [] ==> |out[0]| <= |data| - 1 + |b|
  {
    hide Dispatched, AfterLine;
    AfterLineIs(line, c, b + "\n\n" + rest);
    if c == '\r' && b == "" {
      assert (b + "\n\n" + rest)[1..] == "" + "\n" + rest;
      FirstEventIsShort("", "\n", rest, data);
    } else if c == '\r' && b[0] == '\n' {
      assert (b + "\n\n" + rest)[1..] == b[1..] + "\n\n" + rest;
      FirstEventIsShort(b[1..], "\n\n", rest, data);
    } else {
      FirstEventIsShort(b, "\n\n", rest, data);
    }
  }

  /** The first line of a payload, and the break after it, collect the line. */
  lemma FirstLineCollected(a: string, c: char, tail: string)
    requires OneLine(a) && Break(c)
    ensures var s := "data: " + a + [c] + tail;
      Dispatched(s, "") == Dispatched(AfterLine(s, 6 + |a|), a + "\n")
  {
    hide Dispatched, LineLength, AfterLine, DataOf;
    var line, s := "data: " + a, "data: " + a + [c] + tail;
    DataLineValue(a);
    LineFound(line, c, tail);
    assert s == line + [c] + tail && s[..|line|] == line;
    Unfolds(s, "");
    assert "" + a + "\n" == a + "\n";
  }

  lemma DataLineValue(a: string)
    ensures DataOf("data: " + a) == Some(a)
    ensures OneLine(a) ==> OneLine("data: " + a)
  {
    assert ("data: " + a)[..5] == "data:" && ("data: " + a)[6..] == a;
    assert OneLine("data: ");
  }

  /** A payload that is not one line is cut or altered. */
  lemma BrokenEvent(json: string, rest: string)
    requires !OneLine(json)
    ensures var out := Dispatched(FrameBytes(Event(json)) + rest, ""); out == [] || out[0] != json
  {
    hide Dispatched, LineLength, AfterLine;
    var n := LineLength(json);
    assert n < |json| by {
      assert json[..|json|] == json;
    }
    var a, c, b := json[..n], json[n], json[n + 1..];
    assert json == a + [c] + b;
    assert FrameBytes(Event(json)) + rest == "data: " + a + [c] + (b + "\n\n" + rest);
    FirstLineCollected(a, c, b + "\n\n" + rest);
    RestOfPayload("data: " + a, c, b, rest, a + "\n");
  }

  ghost predicate AllOneLine(fs: seq<Frame>) {
    forall f <- fs :: f.Event? ==> OneLine(f.json)
  }

  lemma {:induction false} BodyDispatched(fs: seq<Frame>)
    ensures Dispatched(Body(fs), "") == Payloads(fs) <==> AllOneLine(fs)
  {
    hide Dispatched;
    if fs == [] {
      NothingToDispatch();
    } else {
      var rest := Body(fs[1..]);
      BodyDispatched(fs[1..]);
      assert AllOneLine(fs) <==> (fs[0].Event? ==> OneLine(fs[0].json)) && AllOneLine(fs[1..]) by {
        assert fs == [fs[0]] + fs[1..];
      }
      match fs[0] {
        case Ping =>
          assert FrameBytes(Ping) == ": ping" + "\n\n";
          IgnoresComment(": ping", rest);
        case Event(json) =>
          if OneLine(json) {
            DispatchesEvent(json, rest);
            assert ([json] + Dispatched(rest, ""))[1..] == Dispatched(rest, "");
            assert ([json] + Payloads(fs[1..]))[1..] == Payloads(fs[1..]);
          } else {
            BrokenEvent(json, rest);
          }
      }
    }
  }

  /** A browser listening to the stream gets one event per change, with exactly its payload, in order, whatever
      pings lie between, if and only if every payload is one line. */
  lemma RoundTrip(fs: seq<Frame>)
    ensures Dispatched(PREAMBLE + Body(fs), "") == Payloads(fs) <==> AllOneLine(fs)
  {
    hide Dispatched;
    assert PREAMBLE + Body(fs) == ": connected" + "\n\n" + Body(fs);
    IgnoresComment(": connected", Body(fs));
    BodyDispatched(fs);
  }
}
