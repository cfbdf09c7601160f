/** decode.go: turning a stream of parsed pgoutput messages into row changes. */
module Decode {
  import opened Common

  /** Relation ids are Go uint32 values. */
  type RelationId = i: nat | i < 0x1_0000_0000

  /** One tuple column: its kind byte ('n' NULL, 'u' unchanged TOAST, 't' text) and its raw data. */
  datatype Column = Column(kind: char, data: string)

  /** None is Go's nil tuple. */
  type Tuple = Option<seq<Column>>

  datatype Relation = Relation(id: RelationId, name: string, columns: seq<string>)

  datatype Message =
    | RelationMessage(rel: Relation)
    | InsertMessage(relId: RelationId, tuple: Tuple)
    | UpdateMessage(relId: RelationId, oldTuple: Tuple, newTuple: Tuple)
    | DeleteMessage(relId: RelationId, oldTuple: Tuple)
    | TruncateMessage(relIds: seq<RelationId>)
    | OtherMessage
    | Unparsable

  datatype Value = Null | Text(text: string)

  type Row = map<string, Value>

  datatype Operation = Insert | Update | Delete | Truncate

  datatype Change = Change(table: string, operation: Operation, oldRow: Option<Row>, newRow: Option<Row>)

  /** ColumnOutOfRange is the index panic of a tuple wider than its relation. */
  datatype DecodeError = ParseError | MissingRelation(id: RelationId) | ColumnOutOfRange

  type Cache = map<RelationId, Relation>

  // ---- tuples ----

  /** What a column contributes to the row; None means "leave the key out". */
  function Cell(c: Column): Option<Value> {
    if c.kind == 'n' then Some(Null)
    else if c.kind == 't' then Some(Text(c.data))
    else None
  }

  function Cells(cols: seq<Column>, names: seq<string>): Row
    requires |cols| <= |names|
  {
    if cols == [] then map[]
    else
      var n := |cols| - 1;
      match Cell(cols[n])
      case None => Cells(cols[..n], names)
      case Some(v) => Cells(cols[..n], names)[names[n] := v]
  }

  function RowOf(tuple: Tuple, names: seq<string>): Result<Option<Row>, DecodeError> {
    match tuple
    case None => Ok(None)
    case Some(cols) => if |cols| <= |names| then Ok(Some(Cells(cols, names))) else Err(ColumnOutOfRange)
  }

  method TupleToMap(tuple: Tuple, rel: Relation) returns (r: Result<Option<Row>, DecodeError>)
    ensures r == RowOf(tuple, rel.columns)
    ensures r.Err? <==> tuple.Some? && |tuple.value| > |rel.columns|
    ensures r.Ok? && tuple.Some? ==> r.value.Some? && HoldsTheSent(r.value.value, tuple.value, rel.columns)
  {
    TupleValues(tuple, rel.columns);
    if tuple == None {
      return Ok(None);
    }
    var cols := tuple.value;
    var result: Row := map[];
    var i := 0;
    while i < |cols|
      invariant i <= |cols| && i <= |rel.columns|
      invariant result == Cells(cols[..i], rel.columns)
    {
      if i >= |rel.columns| {
        return Err(ColumnOutOfRange);
      }
      var name := rel.columns[i];
      assert cols[..i + 1][..i] == cols[..i];
      match cols[i].kind {
        case 'n' => result := result[name := Null];
        case 't' => result := result[name := Text(cols[i].data)];
        case _ =>
      }
      i := i + 1;
    }
    assert cols[..i] == cols;
    return Ok(Some(result));
  }

  ghost predicate Distinct(names: seq<string>) {
    forall i, j :: 0 <= i < j < |names| ==> names[i] != names[j]
  }

  /** Column c is sent with value v: 'n' stands for NULL, 't' for the text in its data. */
  predicate Carries(c: Column, v: Value) {
    (c.kind == 'n' && v == Null) || (c.kind == 't' && v == Text(c.data))
  }

  predicate Sent(c: Column) {
    c.kind == 'n' || c.kind == 't'
  }

  /** The row holds a key exactly for each name a column was sent under, with the value of the last such column. */
  ghost predicate HoldsTheSent(row: Row, cols: seq<Column>, names: seq<string>)
    requires |cols| <= |names|
  {
    && (forall k <- row :: exists i :: 0 <= i < |cols| && names[i] == k && Sent(cols[i]))
    && (forall i :: 0 <= i < |cols| && Sent(cols[i]) ==> names[i] in row)
    && (forall i :: 0 <= i < |cols| && Sent(cols[i]) && LastSent(cols, names, i) ==> Carries(cols[i], row[names[i]]))
  }

  ghost predicate LastSent(cols: seq<Column>, names: seq<string>, i: nat)
    requires i < |cols| <= |names|
  {
    forall j :: i < j < |cols| && names[j] == names[i] ==> !Sent(cols[j])
  }

  lemma {:induction false} CellsHoldTheSent(cols: seq<Column>, names: seq<string>)
    requires |cols| <= |names|
    ensures HoldsTheSent(Cells(cols, names), cols, names)
  {
    if cols != [] {
      var n := |cols| - 1;
      var front, row, before := cols[..n], Cells(cols, names), Cells(cols[..n], names);
      CellsHoldTheSent(front, names);
      forall k | k in row ensures exists i :: 0 <= i < |cols| && names[i] == k && Sent(cols[i]) {
        if k in before {
          var i :| 0 <= i < n && names[i] == k && Sent(front[i]);
          assert names[i] == k && Sent(cols[i]);
        } else {
          assert names[n] == k && Sent(cols[n]);
        }
      }
      forall i | 0 <= i < |cols| && Sent(cols[i])
        ensures names[i] in row
        ensures LastSent(cols, names, i) ==> Carries(cols[i], row[names[i]])
      {
        if i < n {
          assert front[i] == cols[i] && names[i] in before;
          if LastSent(cols, names, i) {
            assert LastSent(front, names, i);
          }
        }
      }
    }
  }

  /** What a tuple decodes to, said of its columns alone. With distinct names: a text column has its data as
      value, a NULL column is nil, an unchanged or unknown one has no key, and there are no other keys. */
  lemma TupleValues(tuple: Tuple, names: seq<string>)
    ensures tuple == None ==> RowOf(tuple, names) == Ok(None)
    ensures tuple.Some? && |tuple.value| > |names| ==> RowOf(tuple, names) == Err(ColumnOutOfRange)
    ensures tuple.Some? && |tuple.value| <= |names| ==>
      && RowOf(tuple, names).Ok? && RowOf(tuple, names).value.Some?
      && var cols, row := tuple.value, RowOf(tuple, names).value.value;
         && HoldsTheSent(row, cols, names)
         && (Distinct(names) ==> forall i :: 0 <= i < |cols| ==>
               && (cols[i].kind == 't' ==> names[i] in row && row[names[i]] == Text(cols[i].data))
               && (cols[i].kind == 'n' ==> names[i] in row && row[names[i]] == Null)
               && (cols[i].kind != 't' && cols[i].kind != 'n' ==> names[i] !in row))
  {
    if tuple.Some? && |tuple.value| <= |names| {
      CellsHoldTheSent(tuple.value, names);
      if Distinct(names) {
        forall i | 0 <= i < |tuple.value| ensures LastSent(tuple.value, names, i) {}
      }
    }
  }

  /** What column i contributes to the row, a column beyond the tuple's width contributing nothing. */
  function CellAt(cols: seq<Column>, i: nat): Option<Value> {
    if i >= |cols| then None
    else
      match cols[i].kind
      case 'n' => Some(Null)
      case 't' => Some(Text(cols[i].data))
      case _ => None
  }

  /** The row a tuple decodes to, read back column by column. */
  lemma {:induction false} CellsReadBack(cols: seq<Column>, names: seq<string>)
    requires |cols| <= |names| && Distinct(names)
    ensures forall k <- Cells(cols, names) :: k in names
    ensures forall i :: 0 <= i < |names| ==>
      if names[i] in Cells(cols, names)
      then CellAt(cols, i) == Some(Cells(cols, names)[names[i]])
      else CellAt(cols, i) == None
  {
    if cols != [] {
      CellsReadBack(cols[..|cols| - 1], names);
    }
  }

  /** Two tuples decode to the same row exactly when they agree on every column, width aside. */
  lemma TuplesDistinguished(a: seq<Column>, b: seq<Column>, names: seq<string>)
    requires |a| <= |names| && |b| <= |names| && Distinct(names)
    ensures Cells(a, names) == Cells(b, names) <==> forall i :: 0 <= i < |names| ==> CellAt(a, i) == CellAt(b, i)
  {
    CellsReadBack(a, names);
    CellsReadBack(b, names);
    var ra, rb := Cells(a, names), Cells(b, names);
    if forall i :: 0 <= i < |names| ==> CellAt(a, i) == CellAt(b, i) {
      forall k: string
        ensures k in ra <==> k in rb
        ensures k in ra && k in rb ==> ra[k] == rb[k]
      {
        if k in names {
          var i :| 0 <= i < |names| && names[i] == k;
          assert CellAt(a, i) == CellAt(b, i);
        }
      }
      assert ra == rb;
    }
    if ra == rb {
      forall i | 0 <= i < |names| ensures CellAt(a, i) == CellAt(b, i) {
        assert names[i] in ra <==> names[i] in rb;
      }
    }
  }

  /** The columns pgoutput sends in text mode: data only with 't'. */
  predicate Canonical(cols: seq<Column>) {
    forall i :: 0 <= i < |cols| ==> cols[i].kind == 't' || (cols[i].kind in {'n', 'u'} && cols[i].data == "")
  }

  /** On tuples of one width the encoding loses nothing. */
  lemma TupleMapInjective(a: seq<Column>, b: seq<Column>, names: seq<string>)
    requires |a| == |b| <= |names| && Distinct(names) && Canonical(a) && Canonical(b)
    ensures Cells(a, names) == Cells(b, names) <==> a == b
  {
    TuplesDistinguished(a, b, names);
    if Cells(a, names) == Cells(b, names) {
      forall i | 0 <= i < |a| ensures a[i] == b[i] {
        assert CellAt(a, i) == CellAt(b, i);
      }
    }
  }

  // ---- messages ----

  function CacheAfter(cache: Cache, m: Message): Cache {
    if m.RelationMessage? then cache[m.rel.id := m.rel] else cache
  }

  function RelationFor(cache: Cache, id: RelationId): Result<Relation, DecodeError> {
    if id in cache then Ok(cache[id]) else Err(MissingRelation(id))
  }

  function Truncates(cache: Cache, ids: seq<RelationId>): Result<seq<Change>, DecodeError> {
    if ids == [] then Ok([])
    else
      match Truncates(cache, ids[..|ids| - 1])
      case Err(e) => Err(e)
      case Ok(cs) =>
        match RelationFor(cache, ids[|ids| - 1])
        case Err(e) => Err(e)
        case Ok(rel) => Ok(cs + [Change(rel.name, Truncate, None, None)])
  }

  function RowChange(rel: Relation, op: Operation, before: Tuple, after: Tuple): Result<seq<Change>, DecodeError> {
    match RowOf(before, rel.columns)
    case Err(e) => Err(e)
    case Ok(o) =>
      match RowOf(after, rel.columns)
      case Err(e) => Err(e)
      case Ok(n) => Ok([Change(rel.name, op, o, n)])
  }

  function Decoded(cache: Cache, m: Message): Result<seq<Change>, DecodeError> {
    match m
    case Unparsable => Err(ParseError)
    case RelationMessage(_) => Ok([])
    case OtherMessage => Ok([])
    case TruncateMessage(ids) => Truncates(cache, ids)
    case InsertMessage(id, t) =>
      (match RelationFor(cache, id) case Err(e) => Err(e) case Ok(rel) => RowChange(rel, Insert, None, t))
    case UpdateMessage(id, o, n) =>
      (match RelationFor(cache, id) case Err(e) => Err(e) case Ok(rel) => RowChange(rel, Update, o, n))
    case DeleteMessage(id, o) =>
      (match RelationFor(cache, id) case Err(e) => Err(e) case Ok(rel) => RowChange(rel, Delete, o, None))
  }

  class Metrics {
    var changesProcessed: int

    constructor ()
      ensures changesProcessed == 0
    {
      changesProcessed := 0;
    }
  }

  /** The relations map a stream hands to every Decode call. */
  class RelationCache {
    var relations: Cache

    constructor ()
      ensures relations == map[]
    {
      relations := map[];
    }
  }

  function Count(r: Result<seq<Change>, DecodeError>): nat {
    if r.Ok? then |r.value| else 0
  }

  method DecodeMessage(m: Message, cache: RelationCache, metrics: Metrics?)
    returns (r: Result<seq<Change>, DecodeError>)
    modifies cache, metrics
    ensures cache.relations == CacheAfter(old(cache.relations), m)
    ensures r == Decoded(old(cache.relations), m)
    ensures metrics != null ==> metrics.changesProcessed == old(metrics.changesProcessed) + Count(r)
  {
    match m {
      case Unparsable => return Err(ParseError);
      case OtherMessage => return Ok([]);
      case RelationMessage(rel) =>
        cache.relations := cache.relations[rel.id := rel];
        return Ok([]);
      case InsertMessage(id, t) =>
        r := DecodeRow(cache, id, Insert, None, t);
      case UpdateMessage(id, o, n) =>
        r := DecodeRow(cache, id, Update, o, n);
      case DeleteMessage(id, o) =>
        r := DecodeRow(cache, id, Delete, o, None);
      case TruncateMessage(ids) =>
        r := DecodeTruncate(cache, ids);
    }
    if metrics != null && r.Ok? {
      metrics.changesProcessed := metrics.changesProcessed + |r.value|;
    }
  }

  method DecodeRow(cache: RelationCache, id: RelationId, op: Operation, before: Tuple, after: Tuple)
    returns (r: Result<seq<Change>, DecodeError>)
    ensures r == match RelationFor(cache.relations, id)
                 case Err(e) => Err(e)
                 case Ok(rel) => RowChange(rel, op, before, after)
  {
    if id !in cache.relations {
      return Err(MissingRelation(id));
    }
    var rel := cache.relations[id];
    var o := TupleToMap(before, rel);
    if o.Err? {
      return Err(o.error);
    }
    var n := TupleToMap(after, rel);
    if n.Err? {
      return Err(n.error);
    }
    return Ok([Change(rel.name, op, o.value, n.value)]);
  }

  method DecodeTruncate(cache: RelationCache, ids: seq<RelationId>) returns (r: Result<seq<Change>, DecodeError>)
    ensures r == Truncates(cache.relations, ids)
  {
    var changes: seq<Change> := [];
    var i := 0;
    while i < |ids|
      invariant i <= |ids|
      invariant Truncates(cache.relations, ids[..i]) == Ok(changes)
    {
      assert ids[..i + 1][..i] == ids[..i];
      if ids[i] !in cache.relations {
        TruncatesFails(cache.relations, ids, i + 1);
        return Err(MissingRelation(ids[i]));
      }
      changes := changes + [Change(cache.relations[ids[i]].name, Truncate, None, None)];
      i := i + 1;
    }
    assert ids[..i] == ids;
    return Ok(changes);
  }

  lemma {:induction false} TruncatesFails(cache: Cache, ids: seq<RelationId>, n: nat)
    requires n <= |ids| && Truncates(cache, ids[..n]).Err?
    ensures Truncates(cache, ids) == Truncates(cache, ids[..n])
  {
    if n == |ids| {
      assert ids[..n] == ids;
    } else {
      var front := ids[..|ids| - 1];
      assert front[..n] == ids[..n];
      TruncatesFails(cache, front, n);
    }
  }

  // ---- message sequences ----

  function CacheOf(history: seq<Message>): Cache {
    if history == [] then map[]
    else CacheAfter(CacheOf(history[..|history| - 1]), history[|history| - 1])
  }

  /** The last relation message about id, found by searching the history backwards. */
  function Latest(history: seq<Message>, id: RelationId): Option<Relation> {
    if history == [] then None
    else
      var m := history[|history| - 1];
      if m.RelationMessage? && m.rel.id == id then Some(m.rel)
      else Latest(history[..|history| - 1], id)
  }

  lemma {:induction false} CacheIsHistorySearch(history: seq<Message>, id: RelationId)
    ensures Latest(history, id) == if id in CacheOf(history) then Some(CacheOf(history)[id]) else None
  {
    if history != [] {
      CacheIsHistorySearch(history[..|history| - 1], id);
    }
  }

  /** The relations a message names, in order. */
  function Refs(m: Message): seq<RelationId> {
    match m
    case InsertMessage(id, _) => [id]
    case UpdateMessage(id, _, _) => [id]
    case DeleteMessage(id, _) => [id]
    case TruncateMessage(ids) => ids
    case _ => []
  }

  /** Position i is the first id without an earlier relation message. */
  ghost predicate StopsAt(history: seq<Message>, ids: seq<RelationId>, i: nat) {
    && i < |ids|
    && Latest(history, ids[i]) == None
    && forall j :: 0 <= j < i ==> Latest(history, ids[j]).Some?
  }

  ghost predicate AllKnown(history: seq<Message>, m: Message) {
    forall j :: 0 <= j < |Refs(m)| ==> Latest(history, Refs(m)[j]).Some?
  }

  function OperationOf(m: Message): Operation {
    match m
    case InsertMessage(_, _) => Insert
    case UpdateMessage(_, _, _) => Update
    case DeleteMessage(_, _) => Delete
    case _ => Truncate
  }

  function Before(m: Message): Tuple {
    match m
    case UpdateMessage(_, o, _) => o
    case DeleteMessage(_, o) => o
    case _ => None
  }

  function After(m: Message): Tuple {
    match m
    case InsertMessage(_, t) => t
    case UpdateMessage(_, _, n) => n
    case _ => None
  }

  predicate Fits(t: Tuple, rel: Relation) {
    t.Some? ==> |t.value| <= |rel.columns|
  }

  /** Change c is what m says about relation rel. */
  ghost predicate Describes(c: Change, m: Message, rel: Relation) {
    && c.table == rel.name
    && c.operation == OperationOf(m)
    && RowOf(Before(m), rel.columns) == Ok(c.oldRow)
    && RowOf(After(m), rel.columns) == Ok(c.newRow)
  }

  /** Truncates resolves its ids left to right and stops at the first unknown one. */
  lemma {:induction false} TruncatesByHistory(history: seq<Message>, ids: seq<RelationId>)
    ensures var r := Truncates(CacheOf(history), ids);
      && (r.Ok? <==> forall j :: 0 <= j < |ids| ==> Latest(history, ids[j]).Some?)
      && (r.Ok? ==> |r.value| == |ids| && forall j :: 0 <= j < |ids| ==>
            r.value[j] == Change(Latest(history, ids[j]).value.name, Truncate, None, None))
      && (r.Err? ==> r.error.MissingRelation? && exists i: nat :: StopsAt(history, ids, i) && r.error.id == ids[i])
  {
    if ids != [] {
      var n := |ids| - 1;
      var front := ids[..n];
      TruncatesByHistory(history, front);
      CacheIsHistorySearch(history, ids[n]);
      var r, f := Truncates(CacheOf(history), ids), Truncates(CacheOf(history), front);
      if f.Err? {
        var i: nat :| StopsAt(history, front, i) && f.error.id == front[i];
        forall j | 0 <= j < i ensures Latest(history, ids[j]).Some? {
          assert front[j] == ids[j];
        }
        assert StopsAt(history, ids, i) && r.error.id == ids[i];
      } else {
        forall j | 0 <= j < n
          ensures Latest(history, ids[j]).Some?
          ensures f.value[j] == Change(Latest(history, ids[j]).value.name, Truncate, None, None)
        {
          assert front[j] == ids[j];
        }
        if Latest(history, ids[n]) == None {
          assert StopsAt(history, ids, n) && r.error.id == ids[n];
        }
      }
    }
  }

  /** Decoding with the mutable cache agrees with searching the message history: an unknown relation is
      reported, the first one in order; otherwise there is one change per named relation, describing it. */
  lemma DecodeAgreesWithHistory(history: seq<Message>, m: Message)
    requires m != Unparsable
    ensures var r := Decoded(CacheOf(history), m);
      && (r.Err? && r.error.MissingRelation? <==> !AllKnown(history, m))
      && (r.Err? && r.error.MissingRelation? ==>
            exists i: nat :: StopsAt(history, Refs(m), i) && r.error.id == Refs(m)[i])
      && (r.Ok? <==> AllKnown(history, m) && forall j :: 0 <= j < |Refs(m)| ==>
            Fits(Before(m), Latest(history, Refs(m)[j]).value) && Fits(After(m), Latest(history, Refs(m)[j]).value))
      && (r.Ok? ==> |r.value| == |Refs(m)| && forall j :: 0 <= j < |Refs(m)| ==>
            Describes(r.value[j], m, Latest(history, Refs(m)[j]).value))
  {
    var r := Decoded(CacheOf(history), m);
    if m.TruncateMessage? {
      var ids := m.relIds;
      TruncatesByHistory(history, ids);
      if r.Err? {
        var i: nat :| StopsAt(history, ids, i) && r.error.id == ids[i];
        assert StopsAt(history, Refs(m), i);
      }
    } else if |Refs(m)| == 1 {
      CacheIsHistorySearch(history, Refs(m)[0]);
      if Latest(history, Refs(m)[0]) == None {
        assert StopsAt(history, Refs(m), 0);
      }
    }
  }

  /** The total the metrics counter reaches over a message sequence. */
  function TotalChanges(history: seq<Message>): nat {
    if history == [] then 0
    else
      var front := history[..|history| - 1];
      TotalChanges(front) + Count(Decoded(CacheOf(front), history[|history| - 1]))
  }

  /** What each message of a sequence decodes to, an empty cache to begin with. */
  function Results(ms: seq<Message>): (rs: seq<Result<seq<Change>, DecodeError>>)
    ensures |rs| == |ms|
  {
    if ms == [] then []
    else
      var front := ms[..|ms| - 1];
      Results(front) + [Decoded(CacheOf(front), ms[|ms| - 1])]
  }

  /** The changes of the messages that decode, in order. */
  function Flattened(rs: seq<Result<seq<Change>, DecodeError>>): seq<Change> {
    if rs == [] then []
    else Flattened(rs[..|rs| - 1]) + (if rs[|rs| - 1].Ok? then rs[|rs| - 1].value else [])
  }

  lemma NoMessages()
    ensures CacheOf([]) == map[] && Flattened(Results([])) == []
  {
  }

  lemma OneMoreMessage(ms: seq<Message>, m: Message)
    ensures CacheOf(ms + [m]) == CacheAfter(CacheOf(ms), m)
    ensures var r := Decoded(CacheOf(ms), m);
      Flattened(Results(ms + [m])) == Flattened(Results(ms)) + (if r.Ok? then r.value else [])
  {
    hide Decoded;
    assert (ms + [m])[..|ms|] == ms;
    var rs := Results(ms + [m]);
    assert rs[..|rs| - 1] == Results(ms);
  }

  /** One stream's decoder driven over a whole message sequence. */
  method DecodeAll(ms: seq<Message>, cache: RelationCache, metrics: Metrics)
    returns (rs: seq<Result<seq<Change>, DecodeError>>)
    requires cache.relations == map[]
    modifies cache, metrics
    ensures rs == Results(ms)
    ensures cache.relations == CacheOf(ms)
    ensures metrics.changesProcessed == old(metrics.changesProcessed) + TotalChanges(ms)
  {
    rs := [];
    var i := 0;
    while i < |ms|
      invariant i <= |ms|
      invariant rs == Results(ms[..i])
      invariant cache.relations == CacheOf(ms[..i])
      invariant metrics.changesProcessed == old(metrics.changesProcessed) + TotalChanges(ms[..i])
    {
      assert ms[..i + 1][..i] == ms[..i];
      var r := DecodeMessage(ms[i], cache, metrics);
      rs := rs + [r];
      i := i + 1;
    }
    assert ms[..i] == ms;
  }

  // ---- following a row ----

  /** The server's side of one row's history. */
  datatype RowStep =
    | Bookkeeping(m: Message)
    | InsertRow(values: seq<Value>, cols: seq<Column>)
    | UpdateRow(values: seq<Value>, before: Tuple, cols: seq<Column>)
    | DeleteRow(before: Tuple)

  function MessageOf(rel: Relation, s: RowStep): Message {
    match s
    case Bookkeeping(m) => m
    case InsertRow(_, cols) => InsertMessage(rel.id, Some(cols))
    case UpdateRow(_, before, cols) => UpdateMessage(rel.id, before, Some(cols))
    case DeleteRow(before) => DeleteMessage(rel.id, before)
  }

  function Messages(rel: Relation, steps: seq<RowStep>): seq<Message> {
    seq(|steps|, i requires 0 <= i < |steps| => MessageOf(rel, steps[i]))
  }

  function TruthAfter(truth: Option<seq<Value>>, step: RowStep): Option<seq<Value>> {
    match step
    case Bookkeeping(_) => truth
    case InsertRow(values, _) => Some(values)
    case UpdateRow(values, _, _) => Some(values)
    case DeleteRow(_) => None
  }

  /** The row's true values after the steps; None while it does not exist. */
  function Truth(steps: seq<RowStep>): Option<seq<Value>> {
    if steps == [] then None else TruthAfter(Truth(steps[..|steps| - 1]), steps[|steps| - 1])
  }

  /** cols carries the new values, leaving a column out ('u') only when it did not change. */
  ghost predicate Encodes(before: seq<Value>, after: seq<Value>, cols: seq<Column>) {
    && |before| == |after| == |cols|
    && forall i :: 0 <= i < |cols| ==>
         || Carries(cols[i], after[i])
         || (cols[i].kind == 'u' && before[i] == after[i])
  }

  ghost predicate EncodesAll(values: seq<Value>, cols: seq<Column>) {
    && |values| == |cols|
    && forall i :: 0 <= i < |cols| ==> Carries(cols[i], values[i])
  }

  /** A possible server history of one row of rel, starting with rel already announced. */
  ghost predicate ServerHistory(rel: Relation, steps: seq<RowStep>) {
    steps != [] ==>
      var front := steps[..|steps| - 1];
      ServerHistory(rel, front) && Follows(rel, Truth(front), steps[|steps| - 1])
  }

  /** What the server can do next to a row whose values are truth. */
  ghost predicate Follows(rel: Relation, truth: Option<seq<Value>>, step: RowStep) {
    match step
    case Bookkeeping(m) =>
      m == OtherMessage || m == RelationMessage(rel) || (m.RelationMessage? && m.rel.id != rel.id)
    case InsertRow(values, cols) => truth == None && |cols| == |rel.columns| && EncodesAll(values, cols)
    case UpdateRow(values, before, cols) =>
      truth.Some? && |cols| == |rel.columns| && Fits(before, rel) && Encodes(truth.value, values, cols)
    case DeleteRow(before) => truth.Some? && Fits(before, rel)
  }

  /** A consumer that keeps the row by overlaying each NewRow on what it has. */
  function Consume(row: Option<Row>, c: Change): Option<Row> {
    match c.operation
    case Insert => c.newRow
    case Update => if row.Some? && c.newRow.Some? then Some(row.value + c.newRow.value) else row
    case Delete => None
    case Truncate => None
  }

  function ConsumeAll(row: Option<Row>, cs: seq<Change>): Option<Row>
    decreases |cs|
  {
    if cs == [] then row else ConsumeAll(Consume(row, cs[0]), cs[1..])
  }

  lemma ConsumeOne(row: Option<Row>, c: Change)
    ensures ConsumeAll(row, [c]) == Consume(row, c)
  {
  }

  /** The consumer's row after one more message, decoded with the given cache. */
  function FollowOne(cache: Cache, row: Option<Row>, m: Message): Option<Row> {
    match Decoded(cache, m)
    case Err(_) => row
    case Ok(cs) => ConsumeAll(row, cs)
  }

  /** The consumer's row after the decoder has seen ms, the relation cache starting with rel. */
  function Followed(rel: Relation, ms: seq<Message>): Option<Row> {
    if ms == [] then None
    else
      var front := ms[..|ms| - 1];
      FollowOne(CacheOf([RelationMessage(rel)] + front), Followed(rel, front), ms[|ms| - 1])
  }

  ghost predicate RowIs(row: Option<Row>, truth: Option<seq<Value>>, names: seq<string>) {
    && row.Some? == truth.Some?
    && (row.Some? ==>
          && |truth.value| == |names|
          && (forall k <- row.value :: k in names)
          && forall i :: 0 <= i < |names| ==> names[i] in row.value && row.value[names[i]] == truth.value[i])
  }

  /** Overlaying an update whose omitted columns did not change yields the new row. */
  lemma OverlayIsNewRow(row: Row, before: seq<Value>, after: seq<Value>, cols: seq<Column>, names: seq<string>)
    requires Distinct(names) && |cols| == |names|
    requires RowIs(Some(row), Some(before), names) && Encodes(before, after, cols)
    ensures RowIs(Some(row + Cells(cols, names)), Some(after), names)
  {
    CellsReadBack(cols, names);
    forall i | 0 <= i < |names|
      ensures names[i] in row + Cells(cols, names) && (row + Cells(cols, names))[names[i]] == after[i]
    {
      assert Carries(cols[i], after[i]) ==> CellAt(cols, i) == Some(after[i]);
    }
  }

  lemma InsertIsRow(values: seq<Value>, cols: seq<Column>, names: seq<string>)
    requires Distinct(names) && |cols| == |names| && EncodesAll(values, cols)
    ensures RowIs(Some(Cells(cols, names)), Some(values), names)
  {
    CellsReadBack(cols, names);
    forall i | 0 <= i < |cols| ensures CellAt(cols, i) == Some(values[i]) {}
  }

  lemma {:induction false} KeepsRelation(rel: Relation, steps: seq<RowStep>)
    requires ServerHistory(rel, steps)
    ensures var c := CacheOf([RelationMessage(rel)] + Messages(rel, steps)); rel.id in c && c[rel.id] == rel
  {
    var h := [RelationMessage(rel)] + Messages(rel, steps);
    if steps == [] {
      assert h == [RelationMessage(rel)];
      assert h[..0] == [];
    } else {
      var front := steps[..|steps| - 1];
      KeepsRelation(rel, front);
      assert h[..|h| - 1] == [RelationMessage(rel)] + Messages(rel, front);
    }
  }

  /** One step of the server, seen by the consumer through the decoder. */
  lemma ConsumerFollows(rel: Relation, cache: Cache, row: Option<Row>, truth: Option<seq<Value>>, step: RowStep)
    requires Distinct(rel.columns) && rel.id in cache && cache[rel.id] == rel
    requires Follows(rel, truth, step) && RowIs(row, truth, rel.columns)
    ensures RowIs(FollowOne(cache, row, MessageOf(rel, step)), TruthAfter(truth, step), rel.columns)
  {
    hide Cells, ConsumeAll;
    match step {
      case Bookkeeping(m) => NothingConsumed(row);
      case InsertRow(values, cols) =>
        InsertIsRow(values, cols, rel.columns);
        ConsumeOne(row, Change(rel.name, Insert, None, Some(Cells(cols, rel.columns))));
      case UpdateRow(values, before, cols) =>
        OverlayIsNewRow(row.value, truth.value, values, cols, rel.columns);
        ConsumeOne(row, Change(rel.name, Update, RowOf(before, rel.columns).value, Some(Cells(cols, rel.columns))));
      case DeleteRow(before) =>
        ConsumeOne(row, Change(rel.name, Delete, RowOf(before, rel.columns).value, None));
    }
  }

  lemma NothingConsumed(row: Option<Row>)
    ensures ConsumeAll(row, []) == row
  {
  }

  /** A consumer folding a row's insert, updates and delete always holds the server's row. */
  lemma {:induction false} ConsumerTracksRow(rel: Relation, steps: seq<RowStep>)
    requires Distinct(rel.columns) && ServerHistory(rel, steps)
    ensures RowIs(Followed(rel, Messages(rel, steps)), Truth(steps), rel.columns)
  {
    hide RowIs, FollowOne, Follows, TruthAfter;
    if steps == [] {
      NoRowYet(rel.columns);
    } else {
      var front, ms := steps[..|steps| - 1], Messages(rel, steps);
      ConsumerTracksRow(rel, front);
      KeepsRelation(rel, front);
      assert ms[..|ms| - 1] == Messages(rel, front);
      ConsumerFollows(rel, CacheOf([RelationMessage(rel)] + Messages(rel, front)), Followed(rel, Messages(rel, front)),
                      Truth(front), steps[|steps| - 1]);
    }
  }

  lemma NoRowYet(names: seq<string>)
    ensures RowIs(None, None, names)
  {
  }
}
