/** stream.go: one call of handleCopyData is a run of the session protocol's moves with nothing in between. */
module Handling {
  import opened Common
  import opened Session
  import opened SessionRuns
  import opened Reconnects
  import Decode
  import OutboxRows
  import Stream

  function Dispatches(n: nat): seq<Event> {
    if n == 0 then [] else Dispatches(n - 1) + [Within(Dispatch)]
  }

  /** The moves behind one payload, given how its changes were routed. */
  function MovesOf(m: Stream.CopyData, cache: Decode.Cache, r: Stream.Routing): seq<Event> {
    match m
    case XLogData(_, _, _, payload) =>
      [Within(Receive)] + Dispatches(r.count) + [Within(if Stream.ResultOf(cache, m, r) == None then Finish else Abort)]
    case Keepalive(_, asked) => [Within(Session.Keepalive(asked))]
    case OtherKind => []
    case _ => [Within(Leave)]
  }

  /** The payload is what the server's log holds next. */
  predicate IsNext(s: State, m: Stream.CopyData, cache: Decode.Cache) {
    && s.client.Some? && s.client.value.rx == AtReceive
    && (m.XLogData? ==>
          && Enabled(s, Within(Receive))
          && s.log[s.client.value.cursor].start == m.walStart && s.log[s.client.value.cursor].len == m.len
          && (Stream.ErrorOf(cache, m) == None ==>
                s.log[s.client.value.cursor].changes == |Stream.ChangesIn(cache, m)|))
  }

  lemma DispatchEffect(s: State)
    requires Enabled(s, Within(Dispatch))
    ensures var c, t := s.client.value, Next(s, Within(Dispatch));
      && t.client == Some(c.(rx := InHand(c.rx.j, c.rx.k + 1)))
      && t.log == s.log && t.out == s.out + [Handed(s.count, c.rx.j, c.rx.k)] && t.count == s.count
  {
  }

  lemma EndEffect(s: State, ok: bool)
    requires Enabled(s, Within(if ok then Finish else Abort))
    ensures var c, t := s.client.value, Next(s, Within(if ok then Finish else Abort));
      t.client == Some(c.(rx := if ok then AtReceive else Aborted(c.rx.j, c.rx.k))) && t.out == s.out
  {
  }

  lemma {:induction false} DispatchAll(s0: State, tr: seq<Event>, j: nat, n: nat)
    requires var s := Run(s0, tr);
      s.client.Some? && s.client.value.rx == InHand(j, 0) && j < |s.log| && n <= s.log[j].changes
    ensures var s, t := Run(s0, tr), Run(s0, tr + Dispatches(n));
      && t.client == Some(s.client.value.(rx := InHand(j, n)))
      && t.log == s.log && t.out == s.out + ChangesOf(s.count, j, n) && t.count == s.count
  {
    hide Next, Run;
    if n == 0 {
      assert tr + Dispatches(0) == tr;
    } else {
      DispatchAll(s0, tr, j, n - 1);
      assert tr + Dispatches(n) == (tr + Dispatches(n - 1)) + [Within(Dispatch)];
      RunSnoc(s0, tr + Dispatches(n - 1), Within(Dispatch));
      DispatchEffect(Run(s0, tr + Dispatches(n - 1)));
    }
  }

  /** A record received and its first k changes dispatched; then done, or aborted. */
  lemma RecordHandled(s0: State, tr: seq<Event>, k: nat, ok: bool)
    requires Enabled(Run(s0, tr), Within(Receive))
    requires var s := Run(s0, tr);
      var n := s.log[s.client.value.cursor].changes;
      k <= n && (ok ==> k == n)
    ensures var s := Run(s0, tr);
      var c := s.client.value;
      var t := Run(s0, tr + ([Within(Receive)] + Dispatches(k) + [Within(if ok then Finish else Abort)]));
      && t.client == Some(c.(cursor := c.cursor + 1, lastLSN := End(s.log[c.cursor]),
                             rx := if ok then AtReceive else Aborted(c.cursor, k)))
      && t.out == s.out + ChangesOf(s.count, c.cursor, k)
  {
    hide Next, Run;
    var s := Run(s0, tr);
    var last := Within(if ok then Finish else Abort);
    var t1 := tr + [Within(Receive)];
    RunSnoc(s0, tr, Within(Receive));
    ReceiveEffect(s);
    DispatchAll(s0, t1, s.client.value.cursor, k);
    RunSnoc(s0, t1 + Dispatches(k), last);
    EndEffect(Run(s0, t1 + Dispatches(k)), ok);
    assert tr + ([Within(Receive)] + Dispatches(k) + [last]) == (t1 + Dispatches(k)) + [last];
  }

  /** Uninterrupted, the moves leave the position, the wake-up token, the receive loop and the dispatched
      changes as handleCopyData leaves them: it returns an error exactly when the session is over, at the receive
      point if the payload did not parse, else with the changes up to the one its handler rejected handed out. */
  lemma HandlingIsMoves(s0: State, tr: seq<Event>, m: Stream.CopyData, cache: Decode.Cache,
                        table: string, unmarshal: OutboxRows.Unmarshal, fails: Stream.Fails, calls: nat)
    requires IsNext(Run(s0, tr), m, cache)
    ensures var r := Stream.RouteOf(Stream.ChangesIn(cache, m), table, unmarshal, fails, calls);
      var s, t := Run(s0, tr), Run(s0, tr + MovesOf(m, cache, r));
      var c := s.client.value;
      && t.client.Some?
      && t.client.value.lastLSN == (if m.XLogData? then m.walStart + m.len else c.lastLSN)
      && t.client.value.token == (c.token || (m.Keepalive? && m.replyRequested))
      && t.client.value.requests
           == c.requests + (if m.Keepalive? && m.replyRequested then [Request(c.lastLSN, |c.reports|)] else [])
      && (t.client.value.rx == AtReceive <==> Stream.ResultOf(cache, m, r) == None)
      && (t.client.value.rx.Left? <==> Stream.ResultOf(cache, m, r) == Some(Stream.BadMessage))
      && t.out == s.out + ChangesOf(s.count, c.cursor, r.count)
  {
    hide Decode.Decoded, Run, Stream.RouteOf;
    var cs := Stream.ChangesIn(cache, m);
    var r := Stream.RouteOf(cs, table, unmarshal, fails, calls);
    Stream.RouteStopsAtFirstFailure(cs, table, unmarshal, fails, calls);
    Stream.RouteNone(table, unmarshal, fails, calls);
    if m.XLogData? {
      RecordHandled(s0, tr, r.count, Stream.ResultOf(cache, m, r) == None);
    } else if m.Keepalive? {
      RunSnoc(s0, tr, Within(Session.Keepalive(m.replyRequested)));
    } else if m.BadKeepalive? || m.BadXLogData? {
      RunSnoc(s0, tr, Within(Leave));
    } else {
      assert tr + MovesOf(m, cache, r) == tr;
    }
  }

  /** One round of the heartbeat, uninterrupted: woken by a tick or by taking the token, it reports the position it
      then reads, once, and waits again; only a taken token is used up. */
  lemma RoundIsMoves(s: State, taken: bool)
    requires s.client.Some? && s.client.value.hb == Waiting && (taken ==> s.client.value.token)
    ensures var woken := Next(s, Within(if taken then TakeToken else Tick));
      var c, t := s.client.value, Next(Next(woken, Within(Load)), Within(Send));
      && t.client == Some(c.(token := c.token && !taken, reports := c.reports + [c.lastLSN]))
      && t.wire == s.wire + [c.lastLSN] && t.slot == s.slot && t.out == s.out
  {
    hide Next;
    var woken := Next(s, Within(if taken then TakeToken else Tick));
    WakeEffect(s, taken);
    LoadEffect(woken);
    SendEffect(Next(woken, Within(Load)));
  }

  lemma WakeEffect(s: State, taken: bool)
    requires s.client.Some? && s.client.value.hb == Waiting && (taken ==> s.client.value.token)
    ensures var c := s.client.value;
      Next(s, Within(if taken then TakeToken else Tick))
        == s.(client := Some(c.(hb := Woken, token := c.token && !taken)))
  {
  }
}
