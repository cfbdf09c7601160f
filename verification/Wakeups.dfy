/** stream.go: the keepalive's request for a reply is never lost between the two goroutines. */
module Wakeups {
  import opened Common
  import opened Session
  import opened SessionRuns

  /** A status update sent after the request carries a position no older than the one at the request. */
  ghost predicate Answered(c: Client, q: Request) {
    exists i: nat :: q.sent <= i < |c.reports| && c.reports[i] >= q.position
  }

  /** A token waits, or an update that will read the position only from now on (or has read a fresh one)
      is under way, or the heartbeat has failed and the session is ending. */
  ghost predicate Pending(c: Client, q: Request) {
    || c.token
    || c.hb == Woken
    || c.hb == Stopped
    || (c.hb.Loaded? && c.hb.lsn >= q.position)
  }

  ghost predicate NoneLost(s: State) {
    s.client.Some? ==>
      var c := s.client.value;
      forall q <- c.requests :: q.position <= c.lastLSN && q.sent <= |c.reports| && (Answered(c, q) || Pending(c, q))
  }

  lemma RequestStep(s: State, m: Move, q: Request)
    requires Local(s) && Enabled(s, Within(m)) && EndsInOrder(Do(s, Within(m)))
    requires var c := s.client.value;
      q.position <= c.lastLSN && q.sent <= |c.reports| && (Answered(c, q) || Pending(c, q))
    ensures var d := Moved(s.log, s.client.value, m);
      q.position <= d.lastLSN && q.sent <= |d.reports| && (Answered(d, q) || Pending(d, q))
  {
    var c, d := s.client.value, Moved(s.log, s.client.value, m);
    hide Answered;
    NeverBack(s, m);
    AnswerStays(s.log, c, m, q);
  }

  lemma MoveKeepsNoneLost(s: State, m: Move)
    requires Local(s) && NoneLost(s) && Enabled(s, Within(m)) && EndsInOrder(Do(s, Within(m)))
    ensures NoneLost(Do(s, Within(m)))
  {
    var c, d := s.client.value, Moved(s.log, s.client.value, m);
    forall q | q in d.requests
      ensures q.position <= d.lastLSN && q.sent <= |d.reports| && (Answered(d, q) || Pending(d, q))
    {
      if q in c.requests {
        RequestStep(s, m, q);
      }
    }
  }

  /** No lost wake-up: in every interleaving each request is answered, or its answer is on the way. */
  lemma {:induction false} NoLostWakeup(s0: State, tr: seq<Event>)
    requires Initial(s0) && EndsInOrder(Run(s0, tr))
    ensures NoneLost(Run(s0, tr))
  {
    if tr != [] {
      var front, e := tr[..|tr| - 1], tr[|tr| - 1];
      var s := Run(s0, front);
      AlwaysLocal(s0, front);
      if s.client.Some? && Run(s0, tr).client.Some? {
        EndsWereInOrder(s, e);
        NoLostWakeup(s0, front);
        if Enabled(s, e) && e.Within? {
          MoveKeepsNoneLost(s, e.move);
        }
      }
    }
  }

  // ---- bounded response ----

  predicate HeartbeatMove(e: Event) {
    e == Within(Tick) || e == Within(TakeToken) || e == Within(Load) || e == Within(Send)
  }

  /** How many heartbeat moves a request may still have to wait for. */
  ghost function Distance(c: Client, q: Request): nat {
    if Answered(c, q) then 0
    else
      match c.hb
      case Stopped => 0
      case Loaded(l) => if l >= q.position then 1 else 4
      case Woken => 2
      case Waiting => 3
  }

  lemma DistanceStep(s: State, m: Move, q: Request)
    requires Local(s) && Enabled(s, Within(m)) && EndsInOrder(Do(s, Within(m)))
    requires q.position <= s.client.value.lastLSN && q.sent <= |s.client.value.reports|
    ensures var c, d := s.client.value, Moved(s.log, s.client.value, m);
      && q.position <= d.lastLSN && q.sent <= |d.reports|
      && Distance(d, q) <= Distance(c, q)
      && (HeartbeatMove(Within(m)) && Distance(c, q) > 0 ==> Distance(d, q) < Distance(c, q))
  {
    var c, d := s.client.value, Moved(s.log, s.client.value, m);
    hide Answered;
    NeverBack(s, m);
    AnswerStays(s.log, c, m, q);
  }

  /** An answer given stays given, and a fresh enough report gives it. */
  lemma AnswerStays(log: seq<Record>, c: Client, m: Move, q: Request)
    requires CanMove(log, c, m) && q.sent <= |c.reports|
    ensures Answered(c, q) || (m == Send && c.hb.lsn >= q.position) ==> Answered(Moved(log, c, m), q)
  {
    var d := Moved(log, c, m);
    if Answered(c, q) {
      var i: nat :| q.sent <= i < |c.reports| && c.reports[i] >= q.position;
      assert d.reports[i] == c.reports[i];
    } else if m == Send && c.hb.lsn >= q.position {
      assert d.reports[|c.reports|] >= q.position;
    }
  }

  /** The moves the heartbeat makes in more, after tr. */
  function Beats(s0: State, tr: seq<Event>, more: seq<Event>): nat
    decreases |more|
  {
    if more == [] then 0
    else
      var front, e := more[..|more| - 1], more[|more| - 1];
      Beats(s0, tr, front) + (if HeartbeatMove(e) && Enabled(Run(s0, tr + front), e) then 1 else 0)
  }

  predicate SameSession(s0: State, tr: seq<Event>, more: seq<Event>) {
    && Run(s0, tr).client.Some?
    && forall n :: 0 <= n <= |more| ==>
         Run(s0, tr + more[..n]).client.Some? && Run(s0, tr + more[..n]).count == Run(s0, tr).count
  }

  lemma {:induction false} DistanceShrinks(s0: State, tr: seq<Event>, more: seq<Event>, q: Request)
    requires Initial(s0) && EndsInOrder(Run(s0, tr + more)) && SameSession(s0, tr, more)
    requires q in Run(s0, tr).client.value.requests && NoneLost(Run(s0, tr))
    ensures Run(s0, tr + more).client.Some?
    ensures var c, d := Run(s0, tr).client.value, Run(s0, tr + more).client.value;
      && q.position <= d.lastLSN && q.sent <= |d.reports|
      && (Distance(d, q) == 0 || Distance(d, q) + Beats(s0, tr, more) <= Distance(c, q))
    decreases |more|
  {
    hide Distance, Next, HeartbeatMove, Local, EndsInOrder;
    assert more[..|more|] == more;
    if more == [] {
      assert tr + more == tr;
    } else {
      var front, e := more[..|more| - 1], more[|more| - 1];
      assert (tr + more)[..|tr + more| - 1] == tr + front;
      assert forall n :: 0 <= n <= |front| ==> front[..n] == more[..n];
      assert SameSession(s0, tr, front);
      var s := Run(s0, tr + front);
      AlwaysLocal(s0, tr + front);
      EndsWereInOrder(s, e);
      DistanceShrinks(s0, tr, front, q);
      DistanceNext(s, e, q);
    }
  }

  /** No step moves a request further from its answer, and a heartbeat step moves it closer. */
  lemma DistanceNext(s: State, e: Event, q: Request)
    requires Local(s) && s.client.Some? && Next(s, e).client.Some? && EndsInOrder(Next(s, e))
    requires q.position <= s.client.value.lastLSN && q.sent <= |s.client.value.reports|
    ensures var c, d := s.client.value, Next(s, e).client.value;
      && q.position <= d.lastLSN && q.sent <= |d.reports|
      && Distance(d, q) <= Distance(c, q)
      && (HeartbeatMove(e) && Enabled(s, e) && Distance(c, q) > 0 ==> Distance(d, q) < Distance(c, q))
  {
    hide Distance, Local, EndsInOrder;
    if Enabled(s, e) && e.Within? {
      DistanceStep(s, e.move, q);
    }
  }

  lemma {:induction false} EndsWereInOrderAt(s0: State, tr: seq<Event>, more: seq<Event>)
    requires Initial(s0) && SameSession(s0, tr, more) && EndsInOrder(Run(s0, tr + more))
    ensures EndsInOrder(Run(s0, tr))
    decreases |more|
  {
    assert more[..|more|] == more;
    if more == [] {
      assert tr + more == tr;
    } else {
      var front := more[..|more| - 1];
      assert (tr + more)[..|tr + more| - 1] == tr + front;
      assert forall n :: 0 <= n <= |front| ==> front[..n] == more[..n];
      assert SameSession(s0, tr, front);
      AlwaysLocal(s0, tr + front);
      EndsWereInOrder(Run(s0, tr + front), more[|more| - 1]);
      EndsWereInOrderAt(s0, tr, front);
    }
  }

  /** After four moves of the heartbeat within the session, however the receive loop and the server interleave
      with them, every earlier request has been answered, unless the heartbeat has stopped. */
  lemma AnsweredWithinFourMoves(s0: State, tr: seq<Event>, more: seq<Event>, q: Request)
    requires Initial(s0) && EndsInOrder(Run(s0, tr + more)) && SameSession(s0, tr, more)
    requires q in Run(s0, tr).client.value.requests
    requires Beats(s0, tr, more) >= 4
    ensures Run(s0, tr + more).client.Some?
    ensures var d := Run(s0, tr + more).client.value; Answered(d, q) || d.hb == Stopped
  {
    EndsWereInOrderAt(s0, tr, more);
    NoLostWakeup(s0, tr);
    DistanceShrinks(s0, tr, more, q);
    assert more[..|more|] == more;
  }
}
