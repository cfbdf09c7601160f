/** outbox.go: the per-topic scheduler. The receive loop enqueues; each topic's drainer delivers with retries;
    a run interleaves their atomic steps, delivery outcomes, timeouts and cancellation freely. */
module Outbox {
  import opened Common
  import opened OutboxRows

  const QUEUE_SIZE := 256
  const MAX_DRAINERS := 64
  const MAX_RETRIES := 5

  /** A topic's goroutine: not started, at its select, delivering (about to make attempt n, or backing off
      before it), or returned. */
  datatype Drainer = Unstarted | Ready | Busy(row: OutboxRow, attempt: nat, backingOff: bool) | Gone

  datatype Topic = Topic(queue: seq<OutboxRow>, drainer: Drainer)

  /** The receive loop inside Handle: blocked on the semaphore, starting the drainer, or in the final select. */
  datatype Producer = Idle | Admitting(row: OutboxRow) | Spawning(row: OutboxRow) | Sending(row: OutboxRow)

  datatype Outcome = Delivered | Failed | Cancelled

  datatype Settled = Settled(row: OutboxRow, outcome: Outcome)

  datatype State = State(
    topics: map<string, Topic>,
    tokens: nat,               // slots taken in the semaphore channel
    producer: Producer,
    cancelled: bool,           // ctx is done
    delivered: int,
    inflight: int,
    failed: int,
    log: seq<Settled>)         // finished deliveries, oldest first

  datatype Event =
    | Enqueue(row: OutboxRow)
    | Acquire
    | Spawn
    | Push
    | TimeOut
    | Take(t: string)
    | TrySucceeds(t: string)
    | TryFails(t: string)
    | BackoffOver(t: string)
    | AbandonBackoff(t: string)
    | Exit(t: string)
    | Cancel

  predicate Has(s: State, t: string) {
    t in s.topics
  }

  predicate Full(s: State, t: string)
    requires Has(s, t)
  {
    |s.topics[t].queue| >= QUEUE_SIZE
  }

  /** The final select takes the send as soon as there is room, so its timeout comes about at a full queue only. */
  predicate Enabled(s: State, e: Event) {
    match e
    case Enqueue(_) => s.producer == Idle
    case Acquire => s.producer.Admitting? && s.tokens < MAX_DRAINERS
    case Spawn => s.producer.Spawning? && Has(s, s.producer.row.topic)
    case Push => s.producer.Sending? && Has(s, s.producer.row.topic) && !Full(s, s.producer.row.topic)
    case TimeOut => s.producer.Sending? && Has(s, s.producer.row.topic) && Full(s, s.producer.row.topic)
    case Take(t) => Has(s, t) && s.topics[t].drainer == Ready && s.topics[t].queue != []
    case TrySucceeds(t) => Has(s, t) && s.topics[t].drainer.Busy? && !s.topics[t].drainer.backingOff
    case TryFails(t) => Has(s, t) && s.topics[t].drainer.Busy? && !s.topics[t].drainer.backingOff
    case BackoffOver(t) => Has(s, t) && s.topics[t].drainer.Busy? && s.topics[t].drainer.backingOff
    case AbandonBackoff(t) => Has(s, t) && s.topics[t].drainer.Busy? && s.topics[t].drainer.backingOff && s.cancelled
    case Exit(t) => Has(s, t) && s.topics[t].drainer == Ready && s.cancelled && s.tokens > 0
    case Cancel => true
  }

  function SetDrainer(s: State, t: string, d: Drainer): State
    requires Has(s, t)
  {
    s.(topics := s.topics[t := s.topics[t].(drainer := d)])
  }

  /** deliverWithRetry returns: the gauge goes down, a counter may go up, the drainer is back at its select. */
  function Settle(s: State, t: string, o: Outcome): State
    requires Has(s, t) && s.topics[t].drainer.Busy?
  {
    SetDrainer(s, t, Ready).(
      inflight := s.inflight - 1,
      delivered := s.delivered + (if o == Delivered then 1 else 0),
      failed := s.failed + (if o == Failed then 1 else 0),
      log := s.log + [Settled(s.topics[t].drainer.row, o)])
  }

  function Do(s: State, e: Event): State
    requires Enabled(s, e)
  {
    match e
    case Enqueue(row) =>
      var topic := if Has(s, row.topic) then s.topics[row.topic] else Topic([], Unstarted);
      s.(topics := s.topics[row.topic := topic],
         producer := if topic.drainer == Unstarted then Admitting(row) else Sending(row))
    case Acquire => s.(tokens := s.tokens + 1, producer := Spawning(s.producer.row))
    case Spawn => SetDrainer(s, s.producer.row.topic, Ready).(producer := Sending(s.producer.row))
    case Push =>
      var t := s.producer.row.topic;
      s.(topics := s.topics[t := s.topics[t].(queue := s.topics[t].queue + [s.producer.row])], producer := Idle)
    case TimeOut => s.(producer := Idle)
    case Take(t) =>
      var q := s.topics[t].queue;
      s.(topics := s.topics[t := Topic(q[1..], Busy(q[0], 0, false))], inflight := s.inflight + 1)
    case TrySucceeds(t) => Settle(s, t, Delivered)
    case TryFails(t) =>
      var d := s.topics[t].drainer;
      if d.attempt < MAX_RETRIES then SetDrainer(s, t, Busy(d.row, d.attempt + 1, true)) else Settle(s, t, Failed)
    case BackoffOver(t) => SetDrainer(s, t, s.topics[t].drainer.(backingOff := false))
    case AbandonBackoff(t) => Settle(s, t, Cancelled)
    case Exit(t) => SetDrainer(s, t, Gone).(tokens := s.tokens - 1)
    case Cancel => s.(cancelled := true)
  }

  function Next(s: State, e: Event): State {
    if Enabled(s, e) then Do(s, e) else s
  }

  const INITIAL := State(map[], 0, Idle, false, 0, 0, 0, [])

  /** One consumer's run; a step that is not enabled changes nothing, so every event sequence is a run. */
  function Run(tr: seq<Event>): State {
    if tr == [] then INITIAL else Next(Run(tr[..|tr| - 1]), tr[|tr| - 1])
  }

  // ---- what the outside sees of a run ----

  /** The rows Handle was called with, in order. */
  function Handled(tr: seq<Event>): seq<OutboxRow> {
    if tr == [] then []
    else
      var front, e := tr[..|tr| - 1], tr[|tr| - 1];
      if e.Enqueue? && Enabled(Run(front), e) then Handled(front) + [e.row] else Handled(front)
  }

  /** What the final select made of a row: pushed, or dropped after the timeout. */
  datatype Fate = Fate(row: OutboxRow, pushed: bool)

  function Fates(tr: seq<Event>): seq<Fate> {
    if tr == [] then []
    else
      var front, e := tr[..|tr| - 1], tr[|tr| - 1];
      var s := Run(front);
      if (e == Push || e == TimeOut) && Enabled(s, e) then Fates(front) + [Fate(s.producer.row, e == Push)]
      else Fates(front)
  }

  function FateRows(fs: seq<Fate>): seq<OutboxRow> {
    if fs == [] then [] else FateRows(fs[..|fs| - 1]) + [fs[|fs| - 1].row]
  }

  /** The rows of topic t that were not dropped. */
  function Kept(fs: seq<Fate>, t: string): seq<OutboxRow> {
    if fs == [] then []
    else
      var f := fs[|fs| - 1];
      Kept(fs[..|fs| - 1], t) + (if f.pushed && f.row.topic == t then [f.row] else [])
  }

  function InHand(p: Producer): seq<OutboxRow> {
    if p == Idle then [] else [p.row]
  }

  function Current(d: Drainer): seq<OutboxRow> {
    if d.Busy? then [d.row] else []
  }

  /** The rows of topic t whose delivery is over. */
  function SettledRows(log: seq<Settled>, t: string): seq<OutboxRow> {
    if log == [] then []
    else
      var x := log[|log| - 1];
      SettledRows(log[..|log| - 1], t) + (if x.row.topic == t then [x.row] else [])
  }

  function CountOf(log: seq<Settled>, o: Outcome): nat {
    if log == [] then 0 else CountOf(log[..|log| - 1], o) + (if log[|log| - 1].outcome == o then 1 else 0)
  }

  /** How many rows drainers have taken off their queues. */
  function Taken(tr: seq<Event>): nat {
    if tr == [] then 0
    else
      var front, e := tr[..|tr| - 1], tr[|tr| - 1];
      Taken(front) + (if e.Take? && Enabled(Run(front), e) then 1 else 0)
  }
}
