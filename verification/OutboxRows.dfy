/** outbox.go: which decoded changes are outbox rows, and what becomes of each. */
module OutboxRows {
  import opened Common
  import opened Decode

  /** A payload as encoding/json would decode it; the decoder itself is a parameter. */
  datatype Payload = Payload(json: string)

  type Unmarshal = string -> Option<Payload>

  datatype OutboxRow = OutboxRow(id: int, topic: string, payload: Payload)

  datatype Classified = NotOutbox | Malformed | Row(row: OutboxRow)

  const MAX_INT64: int := 0x7FFF_FFFF_FFFF_FFFF

  predicate IsDigit(c: char) {
    '0' <= c <= '9'
  }

  predicate AllDigits(s: string) {
    forall i :: 0 <= i < |s| ==> IsDigit(s[i])
  }

  function Digits(s: string): nat
    requires AllDigits(s)
  {
    if s == "" then 0
    else
      assert IsDigit(s[|s| - 1]);
      10 * Digits(s[..|s| - 1]) + (s[|s| - 1] as int - '0' as int)
  }

  /** strconv.ParseInt(s, 10, 64). */
  function ParseInt(s: string): (r: Option<int>)
    ensures r.Some? ==> -MAX_INT64 - 1 <= r.value <= MAX_INT64
  {
    var body := if s != "" && (s[0] == '-' || s[0] == '+') then s[1..] else s;
    if body == "" || !AllDigits(body) then None
    else
      var n: int := Digits(body);
      if s[0] == '-' then (if n <= MAX_INT64 + 1 then Some(-n) else None)
      else (if n <= MAX_INT64 then Some(n) else None)
  }

  // ---- what a numeral denotes ----

  function Zeros(k: nat): string {
    seq(k, _ => '0')
  }

  /** The digits of n, leading zeros allowed. */
  ghost predicate DenotesNat(digits: string, n: nat) {
    exists k: nat :: digits == Zeros(k) + Decimal(n)
  }

  /** An optional sign and digits. */
  ghost predicate Denotes(s: string, v: int) {
    || (v >= 0 && DenotesNat(s, v))
    || (v >= 0 && s != "" && s[0] == '+' && DenotesNat(s[1..], v))
    || (v <= 0 && s != "" && s[0] == '-' && DenotesNat(s[1..], -v))
  }

  lemma {:induction false} DecimalDigits(n: nat)
    ensures AllDigits(Decimal(n)) && Decimal(n) != "" && Digits(Decimal(n)) == n
  {
    if n >= 10 {
      DecimalDigits(n / 10);
      var front := Decimal(n / 10);
      assert Decimal(n)[..|front|] == front;
    } else {
      assert Decimal(n)[..0] == "";
    }
  }

  lemma {:induction false} ZerosCountNothing(k: nat, d: string)
    requires AllDigits(d)
    ensures AllDigits(Zeros(k) + d) && Digits(Zeros(k) + d) == Digits(d)
    decreases |d|, k
  {
    var s := Zeros(k) + d;
    if d != "" {
      ZerosCountNothing(k, d[..|d| - 1]);
      assert s[..|s| - 1] == Zeros(k) + d[..|d| - 1];
    } else if k > 0 {
      ZerosCountNothing(k - 1, "");
      assert s[..|s| - 1] == Zeros(k - 1) + "";
    }
  }

  lemma DenotedIsDigits(s: string, n: nat)
    requires DenotesNat(s, n)
    ensures s != "" && AllDigits(s) && Digits(s) == n
  {
    var k: nat :| s == Zeros(k) + Decimal(n);
    DecimalDigits(n);
    ZerosCountNothing(k, Decimal(n));
  }

  /** A digit after the digits of m. */
  lemma OneMoreDigit(k: nat, m: nat, d: nat)
    requires d < 10
    ensures DenotesNat(Zeros(k) + Decimal(m) + [Digit(d)], 10 * m + d)
  {
    var s := Zeros(k) + Decimal(m) + [Digit(d)];
    if m == 0 {
      assert s == Zeros(k + 1) + Decimal(d);
    } else {
      var n := 10 * m + d;
      assert n >= 10 && n / 10 == m && n % 10 == d;
      assert s == Zeros(k) + Decimal(n);
    }
  }

  lemma {:induction false} DigitsDenote(s: string)
    requires s != "" && AllDigits(s)
    ensures DenotesNat(s, Digits(s))
  {
    hide DenotesNat, Decimal, Zeros;
    var front, c := s[..|s| - 1], s[|s| - 1];
    var d := c as int - '0' as int;
    assert IsDigit(c) && Digit(d) == c;
    if front == "" {
      OneDigit(d);
      assert s == [Digit(d)];
    } else {
      DigitsDenote(front);
      var k := LeadingZeros(front, Digits(front));
      OneMoreDigit(k, Digits(front), d);
      assert s == front + [c];
    }
  }

  lemma OneDigit(d: nat)
    requires d < 10
    ensures DenotesNat([Digit(d)], d)
  {
    assert [Digit(d)] == Zeros(0) + Decimal(d);
  }

  lemma LeadingZeros(s: string, n: nat) returns (k: nat)
    requires DenotesNat(s, n)
    ensures s == Zeros(k) + Decimal(n)
  {
    k :| s == Zeros(k) + Decimal(n);
  }

  lemma DenotesNatExactly(s: string, n: nat)
    ensures DenotesNat(s, n) <==> s != "" && AllDigits(s) && Digits(s) == n
  {
    hide DenotesNat, Digits;
    if DenotesNat(s, n) {
      DenotedIsDigits(s, n);
    }
    if s != "" && AllDigits(s) {
      DigitsDenote(s);
    }
  }

  /** ParseInt accepts exactly the signed numerals of 64-bit integers, and gives the number they denote. */
  lemma ParseIntIsDenotation(s: string, v: int)
    ensures ParseInt(s) == Some(v) <==> Denotes(s, v) && -0x8000_0000_0000_0000 <= v <= 0x7FFF_FFFF_FFFF_FFFF
  {
    hide Digits, DenotesNat;
    if v >= 0 {
      DenotesNatExactly(s, v);
    }
    if s != "" {
      assert s[0] == '-' || s[0] == '+' ==> !IsDigit(s[0]);
      if v >= 0 {
        DenotesNatExactly(s[1..], v);
      }
      if v <= 0 {
        DenotesNatExactly(s[1..], -v);
      }
    }
  }

  /** The decimal text of every 64-bit integer parses to it. */
  lemma ParseIntRoundTrip(v: int)
    requires -0x8000_0000_0000_0000 <= v <= 0x7FFF_FFFF_FFFF_FFFF
    ensures ParseInt(if v < 0 then "-" + Decimal(-v) else Decimal(v)) == Some(v)
  {
    var s := if v < 0 then "-" + Decimal(-v) else Decimal(v);
    var digits := if v < 0 then Decimal(-v) else Decimal(v);
    assert digits == Zeros(0) + digits;
    assert v < 0 ==> s[1..] == digits;
    assert Denotes(s, v);
    ParseIntIsDenotation(s, v);
  }

  /** The string held under a key; None when the key is missing, NULL, or the row is nil. */
  function TextAt(row: Option<Row>, key: string): Option<string> {
    if row.Some? && key in row.value && row.value[key].Text? then Some(row.value[key].text) else None
  }

  function ToOutboxRow(c: Change, table: string, unmarshal: Unmarshal): Classified {
    if c.table != table || c.operation != Insert then NotOutbox
    else
      var id := TextAt(c.newRow, "id");
      if id == None || ParseInt(id.value) == None then Malformed
      else
        var topic := TextAt(c.newRow, "topic");
        if topic == None then Malformed
        else
          var payload := TextAt(c.newRow, "payload");
          if payload == None || unmarshal(payload.value) == None then Malformed
          else Row(OutboxRow(ParseInt(id.value).value, topic.value, unmarshal(payload.value).value))
  }

  /** The row that an outbox insert with these columns stands for. */
  ghost predicate Reads(row: map<string, Value>, unmarshal: Unmarshal, r: OutboxRow) {
    && "id" in row && row["id"].Text?
    && Denotes(row["id"].text, r.id) && -0x8000_0000_0000_0000 <= r.id <= 0x7FFF_FFFF_FFFF_FFFF
    && "topic" in row && row["topic"] == Text(r.topic)
    && "payload" in row && row["payload"].Text? && unmarshal(row["payload"].text) == Some(r.payload)
  }

  /** A change is a row for delivery if and only if it is an insert on the table whose id, topic and payload can be
      read, and then the row holds what they say; it is malformed if and only if it is such an insert and they
      cannot; everything else is not for the outbox. */
  lemma ClassifiedByColumns(c: Change, table: string, unmarshal: Unmarshal)
    ensures ToOutboxRow(c, table, unmarshal) == NotOutbox <==> c.table != table || c.operation != Insert
    ensures forall r: OutboxRow :: ToOutboxRow(c, table, unmarshal) == Row(r) <==>
      c.table == table && c.operation == Insert && c.newRow.Some? && Reads(c.newRow.value, unmarshal, r)
    ensures ToOutboxRow(c, table, unmarshal) == Malformed <==>
      && c.table == table && c.operation == Insert
      && !Readable(c.newRow, unmarshal)
  {
    hide ParseInt, Denotes;
    var k := ToOutboxRow(c, table, unmarshal);
    if c.table == table && c.operation == Insert && c.newRow.Some? {
      var row := c.newRow.value;
      forall r: OutboxRow ensures k == Row(r) <==> Reads(row, unmarshal, r) {
        ReadsIsRow(c, table, unmarshal, r);
      }
      if k == Malformed {
        forall r: OutboxRow ensures !Reads(row, unmarshal, r) {}
      } else {
        assert Reads(row, unmarshal, k.row);
      }
    }
  }

  ghost predicate Readable(row: Option<Row>, unmarshal: Unmarshal) {
    row.Some? && exists r: OutboxRow :: Reads(row.value, unmarshal, r)
  }

  lemma ReadsIsRow(c: Change, table: string, unmarshal: Unmarshal, r: OutboxRow)
    requires c.table == table && c.operation == Insert && c.newRow.Some?
    ensures ToOutboxRow(c, table, unmarshal) == Row(r) <==> Reads(c.newRow.value, unmarshal, r)
  {
    hide ParseInt, Denotes;
    var row := c.newRow.value;
    if "id" in row && row["id"].Text? {
      ParseIntIsDenotation(row["id"].text, r.id);
    }
  }

  /** Only an insert message on the outbox relation reaches delivery: an update of an outbox row, such as
      the ack's own, comes back through the stream as an ordinary change. */
  lemma OnlyInsertsReachDelivery(cache: Cache, m: Message, table: string, unmarshal: Unmarshal, c: Change)
    requires Decoded(cache, m).Ok? && c in Decoded(cache, m).value
    requires ToOutboxRow(c, table, unmarshal) != NotOutbox
    ensures m.InsertMessage? && m.relId in cache && cache[m.relId].name == table
  {
    if m.TruncateMessage? {
      TruncatesOnly(cache, m.relIds);
    }
  }

  lemma {:induction false} TruncatesOnly(cache: Cache, ids: seq<RelationId>)
    requires Truncates(cache, ids).Ok?
    ensures forall c <- Truncates(cache, ids).value :: c.operation == Truncate
  {
    if ids != [] {
      TruncatesOnly(cache, ids[..|ids| - 1]);
    }
  }

  // ---- routing a list of changes ----

  /** The changes that go on to the subscribers. */
  function Published(cs: seq<Change>, table: string, unmarshal: Unmarshal): seq<Change> {
    if cs == [] then []
    else
      var c := cs[|cs| - 1];
      Published(cs[..|cs| - 1], table, unmarshal) + (if ToOutboxRow(c, table, unmarshal) == NotOutbox then [c] else [])
  }

  /** The rows that are queued for delivery. */
  function Queued(cs: seq<Change>, table: string, unmarshal: Unmarshal): seq<OutboxRow> {
    if cs == [] then []
    else
      var k := ToOutboxRow(cs[|cs| - 1], table, unmarshal);
      Queued(cs[..|cs| - 1], table, unmarshal) + (if k.Row? then [k.row] else [])
  }

  /** The rows that are skipped as malformed. */
  function MalformedCount(cs: seq<Change>, table: string, unmarshal: Unmarshal): nat {
    if cs == [] then 0
    else
      MalformedCount(cs[..|cs| - 1], table, unmarshal)
        + (if ToOutboxRow(cs[|cs| - 1], table, unmarshal) == Malformed then 1 else 0)
  }

  /** Where each change goes, unaltered and in order: a change that is no insert on the table comes next among the
      published ones, one whose columns can be read comes next among the rows queued, and any other one is counted. */
  lemma {:induction false} RoutedInOrder(cs: seq<Change>, table: string, unmarshal: Unmarshal, i: nat)
    requires i < |cs|
    ensures var c, before, after := cs[i], cs[..i], cs[..i + 1];
      var p, q := |Published(before, table, unmarshal)|, |Queued(before, table, unmarshal)|;
      && (if c.table != table || c.operation != Insert
          then p < |Published(cs, table, unmarshal)| && Published(cs, table, unmarshal)[p] == c
          else |Published(after, table, unmarshal)| == p)
      && (if c.table == table && c.operation == Insert && Readable(c.newRow, unmarshal)
          then q < |Queued(cs, table, unmarshal)| && Reads(c.newRow.value, unmarshal, Queued(cs, table, unmarshal)[q])
          else |Queued(after, table, unmarshal)| == q)
  {
    hide Reads;
    var front := cs[..|cs| - 1];
    if i < |front| {
      RoutedInOrder(front, table, unmarshal, i);
      assert front[..i] == cs[..i] && front[..i + 1] == cs[..i + 1];
    } else {
      assert cs[..i] == front && cs[..i + 1] == cs;
      ClassifiedByColumns(cs[i], table, unmarshal);
    }
  }

  /** Each change takes exactly one route. */
  lemma {:induction false} EveryChangeIsRoutedOnce(cs: seq<Change>, table: string, unmarshal: Unmarshal)
    ensures |cs|
         == |Published(cs, table, unmarshal)| + |Queued(cs, table, unmarshal)| + MalformedCount(cs, table, unmarshal)
  {
    if cs != [] {
      EveryChangeIsRoutedOnce(cs[..|cs| - 1], table, unmarshal);
    }
  }
}
