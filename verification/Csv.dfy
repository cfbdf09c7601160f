/** dashboard.html: the CSV export, against a parser written from section 2 of RFC 4180. */
module Csv {
  import opened Common

  const CRLF := "\r\n"
  const BOM := '\U{FEFF}'
  const HEADER := "time,table,operation,row"

  predicate Special(c: char) {
    c == '"' || c == ',' || c == '\r' || c == '\n'
  }

  predicate HasSpecial(s: string) {
    exists i :: 0 <= i < |s| && Special(s[i])
  }

  /** str.replace(/"/g, '""') */
  function Doubled(s: string): string {
    if s == "" then "" else (if s[0] == '"' then "\"\"" else [s[0]]) + Doubled(s[1..])
  }

  function CsvField(s: string): string {
    if HasSpecial(s) then "\"" + Doubled(s) + "\"" else s
  }

  function Join(parts: seq<string>, sep: string): string {
    if parts == [] then ""
    else if |parts| == 1 then parts[0]
    else parts[0] + sep + Join(parts[1..], sep)
  }

  function CsvFields(fs: seq<string>): seq<string> {
    if fs == [] then [] else [CsvField(fs[0])] + CsvFields(fs[1..])
  }

  function RecordLine(fs: seq<string>): string {
    Join(CsvFields(fs), ",")
  }

  function RecordLines(rs: seq<seq<string>>): seq<string> {
    if rs == [] then [] else [RecordLine(rs[0])] + RecordLines(rs[1..])
  }

  /** The text of the exported file, the byte order mark first. */
  function Export(rs: seq<seq<string>>): string {
    [BOM] + HEADER + CRLF + Join(RecordLines(rs), CRLF)
  }

  // ---- the standard's grammar ----

  /** What a parser consumed, and what is left. */
  datatype Parsed<T> = Parsed(value: T, rest: string)

  /** The characters of a non-escaped field; the standard's set, widened to all but quote, comma and line breaks. */
  predicate TextData(c: char) {
    c != '"' && c != ',' && c != '\r' && c != '\n'
  }

  /** The inside of an escaped field, after its opening quote. */
  function ParseQuoted(s: string): (r: Option<Parsed<string>>)
    ensures r.Some? ==> |r.value.rest| < |s|
  {
    if s == "" then None
    else if s[0] != '"' then
      match ParseQuoted(s[1..])
      case None => None
      case Some(p) => Some(Parsed([s[0]] + p.value, p.rest))
    else if |s| > 1 && s[1] == '"' then
      match ParseQuoted(s[2..])
      case None => None
      case Some(p) => Some(Parsed("\"" + p.value, p.rest))
    else Some(Parsed("", s[1..]))
  }

  /** A non-escaped field: text up to the next comma, quote or line break. */
  function ParsePlain(s: string): (r: Parsed<string>)
    ensures |r.rest| <= |s|
  {
    if s == "" || !TextData(s[0]) then Parsed("", s)
    else
      var p := ParsePlain(s[1..]);
      Parsed([s[0]] + p.value, p.rest)
  }

  function ParseField(s: string): (r: Option<Parsed<string>>)
    ensures r.Some? ==> |r.value.rest| <= |s|
  {
    if s != "" && s[0] == '"' then ParseQuoted(s[1..]) else Some(ParsePlain(s))
  }

  function ParseRecord(s: string): (r: Option<Parsed<seq<string>>>)
    ensures r.Some? ==> |r.value.rest| <= |s|
    decreases |s|
  {
    match ParseField(s)
    case None => None
    case Some(f) =>
      if f.rest != "" && f.rest[0] == ',' then
        match ParseRecord(f.rest[1..])
        case None => None
        case Some(more) => Some(Parsed([f.value] + more.value, more.rest))
      else Some(Parsed([f.value], f.rest))
  }

  /** Records separated by CRLF; the last one may have an ending line break or not. */
  function ParseFile(s: string): Option<seq<seq<string>>>
    decreases |s|
  {
    match ParseRecord(s)
    case None => None
    case Some(r) =>
      if r.rest == "" || r.rest == "\r\n" then Some([r.value])
      else if |r.rest| > 2 && r.rest[..2] == "\r\n" then
        match ParseFile(r.rest[2..])
        case None => None
        case Some(more) => Some([r.value] + more)
      else None
  }

  // ---- the round trip ----

  lemma {:induction false} QuotedRoundTrip(f: string, rest: string)
    requires rest != "" ==> rest[0] != '"'
    ensures ParseQuoted(Doubled(f) + "\"" + rest) == Some(Parsed(f, rest))
  {
    var s := Doubled(f) + "\"" + rest;
    if f == "" {
      assert s == "\"" + rest;
      assert s[1..] == rest;
    } else {
      var t := Doubled(f[1..]) + "\"" + rest;
      QuotedRoundTrip(f[1..], rest);
      assert f == [f[0]] + f[1..];
      if f[0] == '"' {
        assert s == "\"\"" + t;
        assert s[2..] == t;
      } else {
        assert s == [f[0]] + t;
        assert s[1..] == t;
      }
    }
  }

  lemma {:induction false} PlainRoundTrip(f: string, rest: string)
    requires !HasSpecial(f) && (rest != "" ==> !TextData(rest[0]))
    ensures ParsePlain(f + rest) == Parsed(f, rest)
  {
    if f == "" {
      assert f + rest == rest;
    } else {
      assert !Special(f[0]) && f == [f[0]] + f[1..];
      assert (f + rest)[1..] == f[1..] + rest;
      forall i | 0 <= i < |f[1..]| ensures !Special(f[1..][i]) {
        assert f[1..][i] == f[i + 1];
      }
      PlainRoundTrip(f[1..], rest);
    }
  }

  lemma FirstIsPlain(f: string)
    requires !HasSpecial(f)
    ensures f == "" || !Special(f[0])
  {
  }

  /** A field is quoted only if it has a quote, a comma or a line break in it, and then from end to end. */
  lemma QuotedIffNeeded(s: string)
    ensures CsvField(s) == s <==> '"' !in s && ',' !in s && '\r' !in s && '\n' !in s
    ensures CsvField(s) != s ==>
      |CsvField(s)| >= 2 && CsvField(s)[0] == '"' && CsvField(s)[|CsvField(s)| - 1] == '"'
  {
    if HasSpecial(s) {
      DoubledLength(s);
    }
  }

  lemma {:induction false} DoubledLength(s: string)
    ensures |Doubled(s)| >= |s|
  {
    if s != "" {
      DoubledLength(s[1..]);
    }
  }

  /** Any string at all survives quoting. */
  lemma FieldRoundTrip(f: string, rest: string)
    requires rest != "" ==> rest[0] == ',' || rest[0] == '\r'
    ensures ParseField(CsvField(f) + rest) == Some(Parsed(f, rest))
  {
    hide Doubled, ParseQuoted, ParsePlain, HasSpecial;
    var s := CsvField(f) + rest;
    if HasSpecial(f) {
      assert s[1..] == Doubled(f) + "\"" + rest;
      QuotedRoundTrip(f, rest);
    } else {
      FirstIsPlain(f);
      assert f != "" ==> s[0] == f[0] && !Special(f[0]);
      PlainRoundTrip(f, rest);
    }
  }

  lemma RecordLineSplits(fs: seq<string>)
    requires fs != []
    ensures RecordLine(fs) == if |fs| == 1 then CsvField(fs[0]) else CsvField(fs[0]) + "," + RecordLine(fs[1..])
  {
    hide CsvField;
    var parts := CsvFields(fs);
    assert parts == [CsvField(fs[0])] + CsvFields(fs[1..]);
    if |fs| > 1 {
      assert CsvFields(fs[1..]) != [] && parts[1..] == CsvFields(fs[1..]);
    }
  }

  lemma FieldThenMore(s: string, f: string, tail: string, more: seq<string>, rest: string)
    requires ParseField(s) == Some(Parsed(f, "," + tail)) && ParseRecord(tail) == Some(Parsed(more, rest))
    ensures ParseRecord(s) == Some(Parsed([f] + more, rest))
  {
    hide ParseField;
    assert ("," + tail)[1..] == tail;
  }

  lemma LastField(s: string, f: string, rest: string)
    requires ParseField(s) == Some(Parsed(f, rest)) && (rest != "" ==> rest[0] == '\r')
    ensures ParseRecord(s) == Some(Parsed([f], rest))
  {
    hide ParseField;
  }

  lemma {:induction false} RecordRoundTrip(fs: seq<string>, rest: string)
    requires fs != [] && (rest != "" ==> rest[0] == '\r')
    ensures ParseRecord(RecordLine(fs) + rest) == Some(Parsed(fs, rest))
  {
    hide ParseField, ParseRecord, CsvField, RecordLine;
    RecordLineSplits(fs);
    if |fs| == 1 {
      FieldRoundTrip(fs[0], rest);
      LastField(CsvField(fs[0]) + rest, fs[0], rest);
      assert fs == [fs[0]];
    } else {
      var tail := RecordLine(fs[1..]) + rest;
      FieldRoundTrip(fs[0], "," + tail);
      RecordRoundTrip(fs[1..], rest);
      FieldThenMore(CsvField(fs[0]) + ("," + tail), fs[0], tail, fs[1..], rest);
      assert RecordLine(fs) + rest == CsvField(fs[0]) + ("," + tail);
      assert fs == [fs[0]] + fs[1..];
    }
  }

  lemma RecordLineNonEmpty(fs: seq<string>)
    requires |fs| > 1
    ensures RecordLine(fs) != ""
  {
    assert CsvFields(fs) == [CsvField(fs[0])] + CsvFields(fs[1..]) && CsvFields(fs[1..]) != [];
  }

  lemma {:induction false} RecordsRoundTrip(rs: seq<seq<string>>)
    requires rs != [] && forall r <- rs :: |r| > 1
    ensures ParseFile(Join(RecordLines(rs), CRLF)) == Some(rs)
    ensures Join(RecordLines(rs), CRLF) != ""
  {
    hide ParseRecord, RecordLine;
    RecordLineNonEmpty(rs[0]);
    if |rs| == 1 {
      assert RecordLines(rs) == [RecordLine(rs[0])] && rs == [rs[0]];
      RecordRoundTrip(rs[0], "");
      assert RecordLine(rs[0]) + "" == RecordLine(rs[0]);
    } else {
      assert RecordLines(rs)[1..] == RecordLines(rs[1..]) && RecordLines(rs[1..]) != [];
      var tail := Join(RecordLines(rs[1..]), CRLF);
      RecordsRoundTrip(rs[1..]);
      assert rs == [rs[0]] + rs[1..];
      assert Join(RecordLines(rs), CRLF) == RecordLine(rs[0]) + (CRLF + tail);
      RecordRoundTrip(rs[0], CRLF + tail);
      assert (CRLF + tail)[2..] == tail && (CRLF + tail)[..2] == CRLF;
    }
  }

  const HEADER_FIELDS := ["time", "table", "operation", "row"]

  lemma FourFields(a: string, b: string, c: string, d: string)
    ensures RecordLine([a, b, c, d]) == CsvField(a) + "," + (CsvField(b) + "," + (CsvField(c) + "," + CsvField(d)))
  {
    hide CsvField;
    var x, y, z, w := CsvField(a), CsvField(b), CsvField(c), CsvField(d);
    assert [a, b, c, d][1..] == [b, c, d] && [b, c, d][1..] == [c, d] && [c, d][1..] == [d];
    assert [x, y, z, w][1..] == [y, z, w] && [y, z, w][1..] == [z, w] && [z, w][1..] == [w];
    assert CsvFields([d]) == [w];
    assert CsvFields([c, d]) == [z, w];
    assert CsvFields([b, c, d]) == [y, z, w];
    assert CsvFields([a, b, c, d]) == [x, y, z, w];
    assert Join([z, w], ",") == z + "," + w;
    assert Join([y, z, w], ",") == y + "," + (z + "," + w);
  }

  lemma HeaderWordsArePlain()
    ensures !HasSpecial("time") && !HasSpecial("table") && !HasSpecial("operation") && !HasSpecial("row")
  {
  }

  lemma HeaderLine()
    ensures RecordLine(HEADER_FIELDS) == HEADER
  {
    hide RecordLine, HasSpecial;
    FourFields("time", "table", "operation", "row");
    HeaderWordsArePlain();
    assert "time" + "," + ("table" + "," + ("operation" + "," + "row")) == HEADER;
  }

  /** After the byte order mark, the exported file parses to the header and exactly the rows' fields, whatever
      quotes, commas and line breaks they hold. */
  lemma ExportRoundTrip(rs: seq<seq<string>>)
    requires forall r <- rs :: |r| > 1
    ensures Export(rs)[0] == '\U{FEFF}'
    ensures ParseFile(Export(rs)[1..]) == Some([["time", "table", "operation", "row"]] + rs)
  {
    hide ParseRecord, ParseFile, RecordLine;
    HeaderLine();
    var body := Join(RecordLines(rs), CRLF);
    assert Export(rs)[1..] == HEADER + CRLF + body;
    if rs == [] {
      RecordRoundTrip(HEADER_FIELDS, CRLF);
      assert HEADER + CRLF + body == HEADER + CRLF;
      FileOfOne(HEADER + CRLF);
      assert [HEADER_FIELDS] + rs == [HEADER_FIELDS];
    } else {
      var all := [HEADER_FIELDS] + rs;
      assert all[1..] == rs;
      assert RecordLines(all) == [HEADER] + RecordLines(rs);
      assert RecordLines(all)[1..] == RecordLines(rs) && RecordLines(rs) != [];
      RecordsRoundTrip(all);
      assert Join(RecordLines(all), CRLF) == HEADER + CRLF + body;
    }
  }

  lemma FileOfOne(s: string)
    requires ParseRecord(s).Some? && ParseRecord(s).value.rest == CRLF
    ensures ParseFile(s) == Some([ParseRecord(s).value.value])
  {
  }
}
