/** stream.go and cdc.go: the replication session protocol. The server's log and slot, the wire back to the
    server, the receive loop and the heartbeat goroutine are one transition system; sessions die and resume. */
module Session {
  import opened Common

  /** One XLogData record: where it starts, its length, and how many changes it decodes to. */
  datatype Record = Record(start: nat, len: nat, changes: nat)

  /** The position stream.go:272 stores for a record. */
  function End(r: Record): nat {
    r.start + r.len
  }

  /** The receive loop: at ReceiveMessage, dispatching record j with k changes done, or returned.
      It returns either from the receive point or, on a decode or handler error, with a record in hand. */
  datatype Receiver = AtReceive | InHand(j: nat, k: nat) | Left | Aborted(j: nat, k: nat)

  /** The heartbeat goroutine: in its select, woken, holding a loaded position, or returned. */
  datatype Heartbeat = Waiting | Woken | Loaded(lsn: nat) | Stopped

  /** A keepalive that asked for a reply: the position then, and how many updates had gone out. */
  datatype Request = Request(position: nat, sent: nat)

  datatype Client = Client(
    resume: nat,              // the start LSN asked for, the first value of lastLSN
    from: nat,                // the position the server really starts from
    cursor: nat,              // log index the server sends next
    lastLSN: nat,
    rx: Receiver,
    token: bool,              // the one-slot replyNow channel
    hb: Heartbeat,
    cancelled: bool,          // the session's context is done
    known: nat,               // high-water mark when this session started
    reports: seq<nat>,        // status updates sent, oldest first
    requests: seq<Request>)   // reply requests received, oldest first

  datatype Got = Got(session: nat, record: nat)

  datatype Handed = Handed(session: nat, record: nat, change: nat)

  datatype State = State(
    log: seq<Record>,
    walEnd: nat,
    slot: Option<nat>,        // confirmed_flush_lsn; None before the slot exists
    wire: seq<nat>,           // status updates on their way to the server
    resuming: Option<nat>,    // runOnce's resumeLSN, between reading it and START_REPLICATION
    client: Option<Client>,
    count: nat,               // sessions started so far; the current one carries this number
    base: nat,                // first log index past the very first start position
    high: nat,                // one past the highest log index ever received (base if none)
    got: seq<Got>,            // every record received
    out: seq<Handed>)         // every change dispatched

  /** Steps of a running session: the server's cursor, the receive loop, the heartbeat. */
  datatype Move =
    | SkipRecord
    | Receive
    | Keepalive(replyRequested: bool)
    | Dispatch
    | Finish
    | Leave
    | Abort
    | Tick
    | TakeToken
    | Load
    | Send
    | SendFails
    | Cancel
    | Stop

  datatype Event =
    | Append(r: Record)
    | AdvanceWal(p: nat)
    | ApplyReport
    | ReadPosition(xlog: nat)
    | CreateSlot
    | GiveUp
    | Start
    | Within(move: Move)
    | Close

  predicate Done(c: Client) {
    c.rx.Left? || c.rx.Aborted?
  }

  predicate Enabled(s: State, e: Event) {
    match e
    case Append(_) => true
    case AdvanceWal(_) => true
    case ApplyReport => s.wire != [] && s.slot.Some?
    case ReadPosition(xlog) => s.client == None && s.resuming == None && 0 < xlog <= s.walEnd
    case CreateSlot => s.resuming.Some? && s.slot == None
    case GiveUp => s.resuming.Some?
    case Start => s.client == None && s.resuming.Some? && s.slot.Some?
    case Within(m) => s.client.Some? && CanMove(s.log, s.client.value, m)
    case Close => s.client.Some? && Done(s.client.value)
  }

  predicate CanMove(log: seq<Record>, c: Client, m: Move) {
    match m
    case SkipRecord => c.rx == AtReceive && c.cursor < |log| && End(log[c.cursor]) <= c.from
    case Receive => c.rx == AtReceive && c.cursor < |log| && End(log[c.cursor]) > c.from
    case Keepalive(_) => c.rx == AtReceive
    case Dispatch => c.rx.InHand? && c.rx.j < |log| && c.rx.k < log[c.rx.j].changes
    case Finish => c.rx.InHand? && c.rx.j < |log| && c.rx.k == log[c.rx.j].changes
    case Leave => c.rx == AtReceive
    case Abort => c.rx.InHand?
    case Tick => c.hb == Waiting
    case TakeToken => c.hb == Waiting && c.token
    case Load => c.hb == Woken
    case Send => c.hb.Loaded?
    case SendFails => c.hb.Loaded?
    case Cancel => true
    case Stop => c.hb == Waiting && (c.cancelled || Done(c))
  }

  /** How many leading records end at or before p. */
  function Skipped(log: seq<Record>, p: nat): (n: nat)
    ensures n <= |log|
    ensures forall i :: 0 <= i < n ==> End(log[i]) <= p
    ensures n < |log| ==> End(log[n]) > p
  {
    if log == [] || End(log[0]) > p then 0 else 1 + Skipped(log[1..], p)
  }

  function StartClient(s: State): State
    requires Enabled(s, Start)
  {
    var r, p := s.resuming.value, s.slot.value;
    var from := Max(r, p);
    var base := if s.count == 0 then Skipped(s.log, from) else s.base;
    var high := if s.count == 0 then base else s.high;
    s.(resuming := None, wire := [], count := s.count + 1, base := base, high := high,
       client := Some(Client(r, from, 0, r, AtReceive, false, Waiting, false, high, [], [])))
  }

  /** What a move does to the client's own state. */
  function Moved(log: seq<Record>, c: Client, m: Move): Client
    requires CanMove(log, c, m)
  {
    match m
    case SkipRecord => c.(cursor := c.cursor + 1)
    case Receive => c.(cursor := c.cursor + 1, lastLSN := End(log[c.cursor]), rx := InHand(c.cursor, 0))
    case Keepalive(asked) =>
      if asked then c.(token := true, requests := c.requests + [Request(c.lastLSN, |c.reports|)]) else c
    case Dispatch => c.(rx := InHand(c.rx.j, c.rx.k + 1))
    case Finish => c.(rx := AtReceive)
    case Leave => c.(rx := Left)
    case Abort => c.(rx := Aborted(c.rx.j, c.rx.k))
    case Tick => c.(hb := Woken)
    case TakeToken => c.(hb := Woken, token := false)
    case Load => c.(hb := Loaded(c.lastLSN))
    case Send => c.(hb := Waiting, reports := c.reports + [c.hb.lsn])
    case SendFails => c.(hb := Stopped)
    case Cancel => c.(cancelled := true)
    case Stop => c.(hb := Stopped)
  }

  /** What it does to the wire and to the record of what was received and dispatched. */
  function MoveState(s: State, m: Move): State
    requires Enabled(s, Within(m))
  {
    var c := s.client.value;
    var t := s.(client := Some(Moved(s.log, c, m)));
    if m == Receive then
      t.(high := if c.cursor < s.high then s.high else c.cursor + 1, got := s.got + [Got(s.count, c.cursor)])
    else if m == Dispatch then t.(out := s.out + [Handed(s.count, c.rx.j, c.rx.k)])
    else if m == Send then t.(wire := s.wire + [c.hb.lsn])
    else t
  }

  function Do(s: State, e: Event): State
    requires Enabled(s, e)
  {
    match e
    case Append(r) => s.(log := s.log + [r], walEnd := Max(s.walEnd, End(r)))
    case AdvanceWal(p) => s.(walEnd := Max(s.walEnd, p))
    case ApplyReport => s.(slot := Some(Max(s.slot.value, s.wire[0])), wire := s.wire[1..])
    case ReadPosition(xlog) => s.(resuming := Some(if s.slot.Some? && s.slot.value != 0 then s.slot.value else xlog))
    case CreateSlot => s.(slot := Some(s.walEnd))
    case GiveUp => s.(resuming := None)
    case Start => StartClient(s)
    case Within(m) => MoveState(s, m)
    case Close => s.(client := None)
  }

  function Next(s: State, e: Event): State {
    if Enabled(s, e) then Do(s, e) else s
  }

  /** The slot either does not exist yet or holds a usable position. */
  predicate Initial(s: State) {
    && s.log == [] && s.wire == [] && s.resuming == None && s.client == None
    && s.count == s.base == s.high == 0 && s.got == [] && s.out == []
    && s.walEnd > 0
    && (s.slot.Some? ==> 0 < s.slot.value <= s.walEnd)
  }

  function Run(s0: State, tr: seq<Event>): State {
    if tr == [] then s0 else Next(Run(s0, tr[..|tr| - 1]), tr[|tr| - 1])
  }

  /** The assumption about the server: a new record ends after the end of the log, so record ends increase. */
  ghost predicate Ordered(s0: State, tr: seq<Event>) {
    tr != [] ==>
      var front, e := tr[..|tr| - 1], tr[|tr| - 1];
      Ordered(s0, front) && (e.Append? ==> End(e.r) > Run(s0, front).walEnd)
  }

  /** The receive loop only ever returns from its receive point. */
  ghost predicate AbortFree(tr: seq<Event>) {
    Within(Abort) !in tr
  }
}
