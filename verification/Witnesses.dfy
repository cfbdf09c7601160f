/** Concrete runs showing that the losses, replays and stalls described elsewhere do occur. */
module Witnesses {
  import opened Common
  import OutboxRows
  import Outbox
  import OutboxRuns
  import Consumers
  import Feed
  import opened Session
  import opened SessionRuns
  import opened Reconnects

  // ---- the replication session ----

  /** An empty log and a slot confirmed at 10. */
  const FRESH := State([], 10, Some(10), [], None, None, 0, 0, 0, [], [])

  const ONE_CHANGE := Record(10, 5, 1)

  /** A session has begun and one record with one change is on its way. */
  const SERVED := [ReadPosition(10), Start, Append(ONE_CHANGE)]

  lemma Served()
    ensures Initial(FRESH) && Ordered(FRESH, SERVED)
    ensures Run(FRESH, SERVED)
         == State([ONE_CHANGE], 15, Some(10), [], None,
                  Some(Client(10, 10, 0, 10, AtReceive, false, Waiting, false, 0, [], [])), 1, 0, 0, [], [])
  {
    var t1, t2 := [ReadPosition(10)], [ReadPosition(10), Start];
    assert t1[..0] == [] && t2[..1] == t1 && SERVED[..2] == t2;
    assert Run(FRESH, t1) == FRESH.(resuming := Some(10));
    assert Skipped([], 10) == 0;
    assert Ordered(FRESH, t2);
  }

  /** The loss of a change happens: from this run a heartbeat and an error lose the record's only change. */
  lemma ChangeIsLost() returns (loss: seq<Event>)
    ensures Initial(FRESH) && Ordered(FRESH, SERVED)
    ensures Run(FRESH, SERVED).log[0].changes > 0 && Run(FRESH, SERVED).base == 0
    ensures forall more: seq<Event> :: Handed(1, 0, 0) !in Run(FRESH, SERVED + loss + more).out
    ensures forall more: seq<Event> :: forall o <- Run(FRESH, SERVED + loss + more).out :: o.record != 0
  {
    Served();
    loss := AbortAfterReportLosesRecord(FRESH, SERVED);
  }

  /** The record is received, dispatched and finished, and the connection drops before a report. */
  const DROPPED := SERVED + [Within(Receive), Within(Dispatch), Within(Finish), Within(Leave), Close]

  const RESUMED := DROPPED + [ReadPosition(10), Start, Within(Receive)]

  lemma Dropped()
    ensures Run(FRESH, DROPPED)
         == State([ONE_CHANGE], 15, Some(10), [], None, None, 1, 0, 1, [Got(1, 0)], [Handed(1, 0, 0)])
  {
    hide Run;
    Served();
    var t1 := SERVED + [Within(Receive)];
    var t2 := t1 + [Within(Dispatch)];
    var t3 := t2 + [Within(Finish)];
    var t4 := t3 + [Within(Leave)];
    RunSnoc(FRESH, SERVED, Within(Receive));
    RunSnoc(FRESH, t1, Within(Dispatch));
    RunSnoc(FRESH, t2, Within(Finish));
    RunSnoc(FRESH, t3, Within(Leave));
    RunSnoc(FRESH, t4, Close);
    assert DROPPED == t4 + [Close];
  }

  /** A replay happens, without any error: the second session receives the dispatched record again. */
  lemma RecordIsReplayed()
    ensures AbortFree(RESUMED)
    ensures Replayed(Run(FRESH, RESUMED), 0) && Dispatched(Run(FRESH, RESUMED), 0)
  {
    hide Run;
    Dropped();
    var t1 := DROPPED + [ReadPosition(10)];
    var t2 := t1 + [Start];
    RunSnoc(FRESH, DROPPED, ReadPosition(10));
    RunSnoc(FRESH, t1, Start);
    RunSnoc(FRESH, t2, Within(Receive));
    assert RESUMED == t2 + [Within(Receive)];
    var s := Run(FRESH, RESUMED);
    assert Got(1, 0) in s.got && Got(2, 0) in s.got && s.count == 2;
    assert DispatchedBy(s, 1, 0);
  }

  // ---- the outbox ----

  /** The n-th of a list of distinct topics. */
  function Topic(n: nat): string {
    seq(n, _ => 'x')
  }

  function RowFor(n: nat): OutboxRows.OutboxRow {
    OutboxRows.OutboxRow(n, Topic(n), OutboxRows.Payload("{}"))
  }

  /** One row for each of n topics. */
  function Spread(n: nat): seq<Outbox.Event> {
    if n == 0 then []
    else Spread(n - 1) + [Outbox.Enqueue(RowFor(n - 1)), Outbox.Acquire, Outbox.Spawn, Outbox.Push]
  }

  lemma OutboxSnoc(tr: seq<Outbox.Event>, e: Outbox.Event)
    ensures Outbox.Run(tr + [e]) == Outbox.Next(Outbox.Run(tr), e)
  {
    assert (tr + [e])[..|tr|] == tr;
  }

  lemma OneMoreTopic(s: Outbox.State, n: nat)
    requires s.producer == Outbox.Idle && s.tokens < Outbox.MAX_DRAINERS && Topic(n) !in s.topics
    ensures var t := Outbox.Next(Outbox.Next(Outbox.Next(Outbox.Next(s, Outbox.Enqueue(RowFor(n))), Outbox.Acquire),
                                             Outbox.Spawn), Outbox.Push);
      t.producer == Outbox.Idle && t.tokens == s.tokens + 1 && t.topics.Keys == s.topics.Keys + {Topic(n)}
      && t.cancelled == s.cancelled
  {
  }

  lemma {:induction false} SpreadTakesSlots(n: nat)
    requires n <= Outbox.MAX_DRAINERS
    ensures var s := Outbox.Run(Spread(n));
      && s.producer == Outbox.Idle && s.tokens == n && !s.cancelled
      && forall t <- s.topics :: |t| < n
  {
    hide Outbox.Run, Outbox.Next;
    if n == 0 {
      assert Outbox.Run([]) == Outbox.INITIAL by {
        EmptyRun();
      }
    } else {
      SpreadTakesSlots(n - 1);
      var t0 := Spread(n - 1);
      var t1 := t0 + [Outbox.Enqueue(RowFor(n - 1))];
      var t2 := t1 + [Outbox.Acquire];
      var t3 := t2 + [Outbox.Spawn];
      OutboxSnoc(t0, Outbox.Enqueue(RowFor(n - 1)));
      OutboxSnoc(t1, Outbox.Acquire);
      OutboxSnoc(t2, Outbox.Spawn);
      OutboxSnoc(t3, Outbox.Push);
      assert Spread(n) == t3 + [Outbox.Push];
      OneMoreTopic(Outbox.Run(t0), n - 1);
    }
  }

  lemma EmptyRun()
    ensures Outbox.Run([]) == Outbox.INITIAL
  {
  }

  const CROWD := Spread(64) + [Outbox.Enqueue(RowFor(64))]

  /** A row of a 65th topic stops the receive loop: until cancellation it stays where it is. */
  lemma SixtyFifthTopicStalls(more: seq<Outbox.Event>)
    requires Outbox.Cancel !in more
    ensures Outbox.Run(CROWD + more).producer == Outbox.Admitting(RowFor(64))
    ensures Outbox.Handled(CROWD + more) == Outbox.Handled(CROWD)
  {
    SpreadTakesSlots(64);
    OutboxSnoc(Spread(64), Outbox.Enqueue(RowFor(64)));
    OutboxRuns.AdmittedIffAtMost64Topics(CROWD);
    OutboxRuns.SixtyFifthTopicBlocks(CROWD, more);
  }

  // ---- several consumers ----

  /** The first session hands a row to its consumer, and the connection drops before it is taken. */
  function HandedRow(row: OutboxRows.OutboxRow): seq<Consumers.Event> {
    [Consumers.Step(0, Outbox.Enqueue(row)), Consumers.Step(0, Outbox.Acquire), Consumers.Step(0, Outbox.Spawn),
     Consumers.Step(0, Outbox.Push)]
  }

  lemma RowIsQueued(row: OutboxRows.OutboxRow)
    ensures var s := Consumers.Run(HandedRow(row));
      Consumers.Enabled(s, Consumers.Reconnect) && s.log == [] && !Consumers.Drained(s, row.topic)
  {
    hide Outbox.Run, Outbox.Next, Consumers.Run;
    var t1 := [Consumers.Step(0, Outbox.Enqueue(row))];
    var t2 := t1 + [Consumers.Step(0, Outbox.Acquire)];
    var t3 := t2 + [Consumers.Step(0, Outbox.Spawn)];
    NoConsumerYet();
    EmptyRun();
    Consumers.QuietStep([], 0, Outbox.Enqueue(row));
    assert [] + t1 == t1;
    Consumers.QuietStep(t1, 0, Outbox.Acquire);
    Consumers.QuietStep(t2, 0, Outbox.Spawn);
    Consumers.QuietStep(t3, 0, Outbox.Push);
    Consumers.FirstRow(row);
    assert HandedRow(row) == t3 + [Consumers.Step(0, Outbox.Push)];
    assert !Consumers.Free(Outbox.Run(Consumers.Run(HandedRow(row)).parts[0]), row.topic);
  }

  lemma NoConsumerYet()
    ensures Consumers.Run([]) == Consumers.INITIAL
  {
  }

  /** Rows of one topic are delivered out of order: the second session's row overtakes the first one's. */
  lemma RowIsOvertaken(row: OutboxRows.OutboxRow) returns (more: seq<Consumers.Event>)
    ensures !Consumers.InOrder(Consumers.Run(HandedRow(row) + [Consumers.Reconnect] + more).log, row.topic)
  {
    RowIsQueued(row);
    more := Consumers.UndrainedCanReorder(HandedRow(row), row.topic);
  }

  // ---- the dashboard feed ----

  /** A change arrives, the feed is paused, the frame fires, the feed is resumed. */
  function PausedFrame(c: Feed.Change, clock: Feed.Clock): seq<Feed.Event> {
    [Feed.Add(c), Feed.Toggle, Feed.AnimationFrame(clock), Feed.Toggle]
  }

  /** The change then waits, unpaused and unscheduled, while any number of further frames could fire. */
  lemma ChangeIsStranded(c: Feed.Change, clock: Feed.Clock)
    ensures var tr := PausedFrame(c, clock);
      && Feed.Wasted(tr)
      && Feed.Run(tr).pending == [c] && Feed.Run(tr).feed == []
      && !Feed.Run(tr).paused && !Feed.Run(tr).flushScheduled
  {
    var tr := PausedFrame(c, clock);
    var t1, t2, t3 := tr[..1], tr[..2], tr[..3];
    assert t1 == [Feed.Add(c)] && t1[..0] == [] && t2[..1] == t1 && t3[..2] == t2;
    assert Feed.Run(t1) == Feed.View(false, 1, [c], [], true);
    assert Feed.Run(t2) == Feed.View(true, 1, [c], [], true);
    assert Feed.Run(t3) == Feed.View(true, 1, [c], [], false) && Feed.Wasted(t3);
  }
}
