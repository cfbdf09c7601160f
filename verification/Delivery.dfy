/** outbox.go's own methods, run without interruption: enqueue and deliverWithRetry. */
module Delivery {
  import opened Common
  import opened OutboxRows
  import opened Outbox

  /** enqueue as scheduler steps; the ones that do not apply change nothing. */
  function EnqueueSteps(s: State, row: OutboxRow, drop: bool): State {
    Next(Next(Next(Next(s, Enqueue(row)), Acquire), Spawn), if drop then TimeOut else Push)
  }

  /** n failed attempts, each followed by its whole backoff. */
  function FailedTries(s: State, t: string, n: nat): State {
    if n == 0 then s else Next(Next(FailedTries(s, t, n - 1), TryFails(t)), BackoffOver(t))
  }

  /** deliverWithRetry as scheduler steps, given its number of delivery calls and how it ends. */
  function DeliverySteps(s: State, t: string, calls: nat, o: Outcome): State
    requires calls > 0
  {
    var before := FailedTries(s, t, calls - 1);
    match o
    case Delivered => Next(before, TrySucceeds(t))
    case Failed => Next(before, TryFails(t))
    case Cancelled => Next(Next(before, TryFails(t)), AbandonBackoff(t))
  }

  lemma SetDrainerTwice(s: State, t: string, a: Drainer, b: Drainer)
    requires Has(s, t)
    ensures SetDrainer(SetDrainer(s, t, a), t, b) == SetDrainer(s, t, b)
    ensures SetDrainer(s, t, s.topics[t].drainer) == s
  {
  }

  lemma SettleAfterSet(s: State, t: string, d: Drainer, o: Outcome)
    requires Has(s, t) && s.topics[t].drainer.Busy? && d.Busy? && d.row == s.topics[t].drainer.row
    ensures Settle(SetDrainer(s, t, d), t, o) == Settle(s, t, o)
  {
  }

  lemma OneFailedTry(s: State, t: string)
    requires Has(s, t) && s.topics[t].drainer.Busy? && !s.topics[t].drainer.backingOff
    requires s.topics[t].drainer.attempt < MAX_RETRIES
    ensures var d := s.topics[t].drainer;
      && Next(s, TryFails(t)) == SetDrainer(s, t, Busy(d.row, d.attempt + 1, true))
      && Next(Next(s, TryFails(t)), BackoffOver(t)) == SetDrainer(s, t, Busy(d.row, d.attempt + 1, false))
  {
  }

  lemma {:induction false} FailedTriesCount(s: State, t: string, n: nat)
    requires Has(s, t) && s.topics[t].drainer.Busy? && s.topics[t].drainer == Busy(s.topics[t].drainer.row, 0, false)
    requires n <= MAX_RETRIES
    ensures FailedTries(s, t, n) == SetDrainer(s, t, Busy(s.topics[t].drainer.row, n, false))
  {
    hide Next;
    var row := s.topics[t].drainer.row;
    if n == 0 {
      SetDrainerTwice(s, t, Ready, Ready);
    } else {
      FailedTriesCount(s, t, n - 1);
      OneFailedTry(FailedTries(s, t, n - 1), t);
      SetDrainerTwice(s, t, Busy(row, n - 1, false), Busy(row, n, false));
    }
  }

  /** The scheduler settles a delivery in the way deliverWithRetry reports it: after at most six calls,
      with exactly one outcome logged and the gauge restored. */
  lemma DeliveryStepsSettle(s: State, t: string, calls: nat, o: Outcome)
    requires Has(s, t) && s.topics[t].drainer.Busy? && s.topics[t].drainer == Busy(s.topics[t].drainer.row, 0, false)
    requires 0 < calls <= 6
    requires o == Failed ==> calls == 6
    requires o == Cancelled ==> calls <= 5 && s.cancelled
    ensures DeliverySteps(s, t, calls, o) == Settle(s, t, o)
  {
    hide FailedTries;
    var d := Busy(s.topics[t].drainer.row, calls - 1, false);
    FailedTriesCount(s, t, calls - 1);
    if o == Cancelled {
      var e := Busy(d.row, calls, true);
      OneFailedTry(SetDrainer(s, t, d), t);
      SetDrainerTwice(s, t, d, e);
      SettleAfterSet(s, t, e, o);
    } else {
      SettleAfterSet(s, t, d, o);
    }
  }

  lemma {:induction false} Pow2Grows(a: nat, b: nat)
    requires a < b
    ensures Pow2(a) < Pow2(b)
  {
    if a + 1 < b {
      Pow2Grows(a, b - 1);
    }
  }

  /** The backoffs before attempts 1 .. k: b, 2b, 4b, ... */
  function Backoffs(b: nat, k: nat): nat {
    if k == 0 then 0 else Backoffs(b, k - 1) + b * Pow2(k - 1)
  }

  lemma {:induction false} BackoffsSum(b: nat, k: nat)
    ensures Backoffs(b, k) == b * (Pow2(k) - 1)
  {
    if k > 0 {
      BackoffsSum(b, k - 1);
      assert b * (2 * Pow2(k - 1) - 1) == b * (Pow2(k - 1) - 1) + b * Pow2(k - 1);
    }
  }

  lemma BackoffBound(b: nat, k: nat, n: nat)
    requires k <= n
    ensures Backoffs(b, k) <= b * (Pow2(n) - 1)
    ensures b > 0 ==> (Backoffs(b, k) == b * (Pow2(n) - 1) <==> k == n)
  {
    BackoffsSum(b, k);
    if k < n {
      Pow2Grows(k, n);
      Scaled(b, Pow2(k) - 1, Pow2(n) - 1);
    }
  }

  lemma Scaled(b: nat, x: nat, y: nat)
    requires x < y
    ensures b * x <= b * y && (b > 0 ==> b * x < b * y)
  {
    assert b * y == b * x + b * (y - x);
  }

  class OutboxConsumer {
    const maxRetries: nat
    const baseBackoff: nat
    var topics: map<string, Topic>
    var sem: nat
    var delivered: int
    var inflight: int
    var failed: int
    var ackAttempts: seq<int>          // ids the ack UPDATE was issued for

    constructor ()
      ensures maxRetries == 5 && baseBackoff == 1
      ensures Snapshot(Idle) == INITIAL && ackAttempts == []
    {
      maxRetries, baseBackoff := MAX_RETRIES, 1;
      topics, sem := map[], 0;
      delivered, inflight, failed, ackAttempts := 0, 0, 0, [];
    }

    /** The consumer as a scheduler state, with the receive loop at p. */
    ghost function Snapshot(p: Producer): State
      reads this
    {
      State(topics, sem, p, false, delivered, inflight, failed, [])
    }

    /** blocked: the receive loop is left waiting for a semaphore slot. dropped: the row was given up after the
        back-pressure window, its queue being full throughout. */
    method Enqueue(row: OutboxRow) returns (blocked: bool, dropped: bool)
      modifies this
      ensures Snapshot(if blocked then Admitting(row) else Idle) == EnqueueSteps(old(Snapshot(Idle)), row, dropped)
      ensures blocked <==> old((row.topic !in topics || topics[row.topic].drainer == Unstarted) && sem >= 64)
      ensures dropped <==> !blocked && row.topic in old(topics) && |old(topics)[row.topic].queue| >= 256
      ensures ackAttempts == old(ackAttempts)
    {
      dropped := false;
      if row.topic !in topics {
        topics := topics[row.topic := Topic([], Unstarted)];
      }
      var tq := topics[row.topic];
      if tq.drainer == Unstarted {
        if sem >= MAX_DRAINERS {
          return true, false;
        }
        sem := sem + 1;
        tq := tq.(drainer := Ready);
        topics := topics[row.topic := tq];
      }
      blocked := false;
      dropped := |tq.queue| >= QUEUE_SIZE;
      if !dropped {
        topics := topics[row.topic := tq.(queue := tq.queue + [row])];
      }
    }

    /** answers(i): attempt i is delivered; cancels(i): ctx is done during the backoff before attempt i.
        The ack's own success never matters. */
    method DeliverWithRetry(row: OutboxRow, answers: nat -> bool, cancels: nat -> bool)
      returns (outcome: Outcome, calls: nat, slept: nat)
      modifies this
      ensures 1 <= calls <= maxRetries + 1
      ensures forall i: nat :: i < calls - 1 ==> !answers(i)
      ensures forall i: nat :: 1 <= i < calls ==> !cancels(i)
      ensures outcome == Delivered <==> answers(calls - 1)
      ensures outcome == Failed <==> !answers(calls - 1) && calls == maxRetries + 1
      ensures outcome == Cancelled <==> !answers(calls - 1) && calls <= maxRetries
      ensures outcome == Cancelled ==> cancels(calls)
      ensures slept == Backoffs(baseBackoff, calls - 1) <= baseBackoff * (Pow2(maxRetries) - 1)
      ensures baseBackoff > 0 ==> (slept == baseBackoff * (Pow2(maxRetries) - 1) <==> calls == maxRetries + 1)
      ensures inflight == old(inflight) && topics == old(topics) && sem == old(sem)
      ensures delivered == old(delivered) + (if outcome == Delivered then 1 else 0)
      ensures failed == old(failed) + (if outcome == Failed then 1 else 0)
      ensures ackAttempts == old(ackAttempts) + (if outcome == Delivered then [row.id] else [])
    {
      inflight := inflight + 1;
      slept, calls := 0, 0;
      var attempt := 0;
      while attempt <= maxRetries
        invariant attempt == calls <= maxRetries + 1
        invariant forall i: nat :: i < calls ==> !answers(i)
        invariant forall i: nat :: 1 <= i < calls ==> !cancels(i)
        invariant slept == if calls == 0 then 0 else Backoffs(baseBackoff, calls - 1)
        invariant inflight == old(inflight) + 1 && topics == old(topics) && sem == old(sem)
        invariant delivered == old(delivered) && failed == old(failed) && ackAttempts == old(ackAttempts)
      {
        if attempt > 0 {
          if cancels(attempt) {
            inflight := inflight - 1;
            BackoffBound(baseBackoff, calls - 1, maxRetries);
            return Cancelled, calls, slept;
          }
          slept := slept + baseBackoff * Pow2(attempt - 1);
        }
        var ok := answers(attempt);
        calls := calls + 1;
        if ok {
          ackAttempts := ackAttempts + [row.id];
          delivered := delivered + 1;
          inflight := inflight - 1;
          BackoffBound(baseBackoff, calls - 1, maxRetries);
          return Delivered, calls, slept;
        }
        attempt := attempt + 1;
      }
      BackoffBound(baseBackoff, maxRetries, maxRetries);
      failed := failed + 1;
      inflight := inflight - 1;
      outcome := Failed;
    }
  }
}
