/** What every run of the replication protocol keeps, over any number of reconnects. */
module SessionRuns {
  import opened Common
  import opened Session

  // ---- one session, whatever the server sends ----

  predicate Holding(c: Client) {
    c.rx.InHand? || c.rx.Aborted?
  }

  /** Change x of record i has been dispatched by the current session, or should have been. */
  predicate Reached(log: seq<Record>, c: Client, i: nat, x: nat) {
    && i < c.cursor <= |log|
    && End(log[i]) > c.from
    && x < log[i].changes
    && (Holding(c) && c.rx.j == i ==> x < c.rx.k)
  }

  /** p is the start LSN or the end of a record this session received. */
  ghost predicate IsPosition(log: seq<Record>, c: Client, p: nat) {
    p == c.resume || exists i: nat :: i < c.cursor <= |log| && End(log[i]) > c.from && End(log[i]) == p
  }

  ghost predicate Local(s: State) {
    && (forall o <- s.out :: o.session <= s.count)
    && (forall g <- s.got :: g.session <= s.count)
    && (forall o <- s.out :: Got(o.session, o.record) in s.got)
    && (s.client.Some? ==> LocalClient(s, s.client.value))
  }

  ghost predicate LocalClient(s: State, c: Client) {
    && c.cursor <= |s.log|
    && c.resume <= c.from
    && (Holding(c) ==> c.rx.j + 1 == c.cursor && c.rx.k <= s.log[c.rx.j].changes && End(s.log[c.rx.j]) > c.from)
    && (forall i: nat, x: nat :: Reached(s.log, c, i, x) <==> Handed(s.count, i, x) in s.out)
    && (forall i: nat :: i < c.cursor && End(s.log[i]) > c.from <==> Got(s.count, i) in s.got)
    && IsPosition(s.log, c, c.lastLSN)
    && (c.hb.Loaded? ==> IsPosition(s.log, c, c.hb.lsn))
    && (forall p <- c.reports :: IsPosition(s.log, c, p))
  }

  lemma PositionKept(log: seq<Record>, c: Client, d: Client, r: seq<Record>, p: nat)
    requires IsPosition(log, c, p) && c.cursor <= d.cursor <= |log + r| && c.from == d.from && c.resume == d.resume
    ensures IsPosition(log + r, d, p)
  {
    if p != c.resume {
      var i: nat :| i < c.cursor <= |log| && End(log[i]) > c.from && End(log[i]) == p;
      assert (log + r)[i] == log[i];
    }
  }

  lemma MoveKeepsHistory(s: State, m: Move)
    requires Local(s) && Enabled(s, Within(m))
    ensures var t := Do(s, Within(m));
      && (forall o <- t.out :: o.session <= t.count)
      && (forall g <- t.got :: g.session <= t.count)
      && (forall o <- t.out :: Got(o.session, o.record) in t.got)
      && (forall i: nat, x: nat :: Reached(t.log, t.client.value, i, x) <==> Handed(t.count, i, x) in t.out)
      && (forall i: nat ::
            i < t.client.value.cursor && End(t.log[i]) > t.client.value.from <==> Got(t.count, i) in t.got)
  {
    hide Reached, IsPosition;
    MoveKeepsReached(s, m);
    hide Holding;
  }

  lemma MoveKeepsReached(s: State, m: Move)
    requires Local(s) && Enabled(s, Within(m))
    ensures var t := Do(s, Within(m));
      forall i: nat, x: nat :: Reached(t.log, t.client.value, i, x) <==> Handed(t.count, i, x) in t.out
  {
    hide IsPosition;
  }

  lemma MoveKeepsPositions(s: State, m: Move)
    requires Local(s) && Enabled(s, Within(m))
    ensures var c := Do(s, Within(m)).client.value;
      && IsPosition(s.log, c, c.lastLSN)
      && (c.hb.Loaded? ==> IsPosition(s.log, c, c.hb.lsn))
      && (forall p <- c.reports :: IsPosition(s.log, c, p))
  {
    hide IsPosition;
    var c, d := s.client.value, Moved(s.log, s.client.value, m);
    forall p | IsPosition(s.log, c, p) ensures IsPosition(s.log, d, p) {
      PositionKept(s.log, c, d, [], p);
      assert s.log + [] == s.log;
    }
    if m == Receive {
      ReceivedPosition(s.log, c);
    }
  }

  lemma ReceivedPosition(log: seq<Record>, c: Client)
    requires CanMove(log, c, Receive)
    ensures IsPosition(log, Moved(log, c, Receive), End(log[c.cursor]))
  {
  }

  lemma AppendKeepsLocal(s: State, r: Record)
    requires Local(s)
    ensures Local(Do(s, Append(r)))
  {
  }

  lemma MoveKeepsLocal(s: State, m: Move)
    requires Local(s) && Enabled(s, Within(m))
    ensures Local(Do(s, Within(m)))
  {
    MoveKeepsHistory(s, m);
    MoveKeepsPositions(s, m);
  }

  lemma StepKeepsLocal(s: State, e: Event)
    requires Local(s)
    ensures Local(Next(s, e))
  {
    if Enabled(s, e) {
      if e.Append? {
        AppendKeepsLocal(s, e.r);
      } else if e.Within? {
        MoveKeepsLocal(s, e.move);
      } else if e.Start? {
        assert forall o <- s.out :: o.session < s.count + 1;
        assert forall g <- s.got :: g.session < s.count + 1;
      }
    }
  }

  lemma {:induction false} AlwaysLocal(s0: State, tr: seq<Event>)
    requires Initial(s0)
    ensures Local(Run(s0, tr))
  {
    if tr != [] {
      AlwaysLocal(s0, tr[..|tr| - 1]);
      StepKeepsLocal(Run(s0, tr[..|tr| - 1]), tr[|tr| - 1]);
    }
  }

  /** All changes of record i have been dispatched by session n. */
  ghost predicate DispatchedBy(s: State, n: nat, i: nat) {
    i < |s.log| && forall x: nat :: x < s.log[i].changes ==> Handed(n, i, x) in s.out
  }

  /** In every interleaving: each status update carries the start LSN or the end of a record this session has
      received, and every received record is fully dispatched except at most the last one, the one in hand. */
  lemma ReportsAreReceivedPositions(s0: State, tr: seq<Event>)
    requires Initial(s0) && Run(s0, tr).client.Some?
    ensures var s := Run(s0, tr);
      var c := s.client.value;
      && (forall p <- c.reports :: IsPosition(s.log, c, p))
      && (forall i: nat :: Got(s.count, i) in s.got ==>
            DispatchedBy(s, s.count, i) || (Holding(c) && i == c.rx.j == c.cursor - 1))
  {
    AlwaysLocal(s0, tr);
    var s := Run(s0, tr);
    var c := s.client.value;
    forall i: nat | Got(s.count, i) in s.got && !(Holding(c) && i == c.rx.j) ensures DispatchedBy(s, s.count, i) {
      forall x: nat | x < s.log[i].changes ensures Handed(s.count, i, x) in s.out {
        assert Reached(s.log, c, i, x);
      }
    }
  }

  // ---- order of dispatch ----

  /** The first k changes of record i, as session n hands them out. */
  function ChangesOf(n: nat, i: nat, k: nat): seq<Handed> {
    if k == 0 then [] else ChangesOf(n, i, k - 1) + [Handed(n, i, k - 1)]
  }

  /** What a session starting from a position must hand out for the first c log records, in log order. */
  function Expected(log: seq<Record>, n: nat, from: nat, c: nat): seq<Handed>
    requires c <= |log|
  {
    if c == 0 then []
    else if End(log[c - 1]) > from then Expected(log, n, from, c - 1) + ChangesOf(n, c - 1, log[c - 1].changes)
    else Expected(log, n, from, c - 1)
  }

  function Progress(log: seq<Record>, n: nat, c: Client): seq<Handed>
    requires c.cursor <= |log| && (Holding(c) ==> c.rx.j + 1 == c.cursor)
  {
    if Holding(c) then Expected(log, n, c.from, c.rx.j) + ChangesOf(n, c.rx.j, c.rx.k)
    else Expected(log, n, c.from, c.cursor)
  }

  /** The part of the output that session n produced. */
  function Mine(out: seq<Handed>, n: nat): seq<Handed> {
    if out == [] then []
    else if out[|out| - 1].session == n then Mine(out[..|out| - 1], n) + [out[|out| - 1]]
    else Mine(out[..|out| - 1], n)
  }

  lemma {:induction false} MineLater(out: seq<Handed>, n: nat)
    requires forall o <- out :: o.session < n
    ensures Mine(out, n) == []
  {
    if out != [] {
      MineLater(out[..|out| - 1], n);
    }
  }

  lemma {:induction false} ExpectedGrows(log: seq<Record>, r: Record, n: nat, from: nat, c: nat)
    requires c <= |log|
    ensures Expected(log + [r], n, from, c) == Expected(log, n, from, c)
  {
    if c > 0 {
      ExpectedGrows(log, r, n, from, c - 1);
    }
  }

  ghost predicate InOrder(s: State) {
    Local(s) && (s.client.Some? ==> Mine(s.out, s.count) == Progress(s.log, s.count, s.client.value))
  }

  lemma DispatchKeepsOrder(s: State)
    requires InOrder(s) && Enabled(s, Within(Dispatch))
    ensures var t := Do(s, Within(Dispatch));
      Mine(t.out, s.count) == Progress(s.log, s.count, t.client.value)
  {
    DispatchExtends(s.log, s.count, s.client.value, s.out);
  }

  lemma DispatchExtends(log: seq<Record>, n: nat, c: Client, out: seq<Handed>)
    requires CanMove(log, c, Dispatch) && c.rx.j + 1 == c.cursor <= |log| && Mine(out, n) == Progress(log, n, c)
    ensures Mine(out + [Handed(n, c.rx.j, c.rx.k)], n) == Progress(log, n, Moved(log, c, Dispatch))
  {
    hide Expected, Mine, ChangesOf;
    var h, front := Handed(n, c.rx.j, c.rx.k), Expected(log, n, c.from, c.rx.j);
    MineOneMore(out, h);
    OneMoreChange(n, c.rx.j, c.rx.k);
    assert front + (ChangesOf(n, c.rx.j, c.rx.k) + [h]) == (front + ChangesOf(n, c.rx.j, c.rx.k)) + [h];
  }

  lemma MineOneMore(out: seq<Handed>, h: Handed)
    ensures Mine(out + [h], h.session) == Mine(out, h.session) + [h]
  {
    assert (out + [h])[..|out|] == out;
  }

  lemma OneMoreChange(n: nat, i: nat, k: nat)
    ensures ChangesOf(n, i, k + 1) == ChangesOf(n, i, k) + [Handed(n, i, k)]
  {
  }

  lemma MoveKeepsProgress(log: seq<Record>, n: nat, c: Client, m: Move)
    requires CanMove(log, c, m) && m != Dispatch
    requires c.cursor <= |log|
    requires Holding(c) ==> c.rx.j + 1 == c.cursor && c.rx.k <= log[c.rx.j].changes && End(log[c.rx.j]) > c.from
    ensures var d := Moved(log, c, m);
      d.cursor <= |log| && (Holding(d) ==> d.rx.j + 1 == d.cursor) && Progress(log, n, d) == Progress(log, n, c)
  {
  }

  lemma StepKeepsOrder(s: State, e: Event)
    requires InOrder(s)
    ensures InOrder(Next(s, e))
  {
    if Enabled(s, e) {
      StepKeepsLocal(s, e);
      match e {
        case Within(m) =>
          if m == Dispatch {
            DispatchKeepsOrder(s);
          } else {
            MoveKeepsProgress(s.log, s.count, s.client.value, m);
          }
        case Start => MineLater(s.out, s.count + 1);
        case Append(r) =>
          if s.client.Some? {
            var c := s.client.value;
            ExpectedGrows(s.log, r, s.count, c.from, c.cursor);
            if Holding(c) {
              ExpectedGrows(s.log, r, s.count, c.from, c.rx.j);
            }
          }
        case _ =>
      }
    }
  }

  /** A session hands out exactly the changes of the records beyond its start position, each once, in log
      order, up to the record in hand. */
  lemma {:induction false} DispatchIsLogOrder(s0: State, tr: seq<Event>)
    requires Initial(s0)
    ensures InOrder(Run(s0, tr))
  {
    if tr != [] {
      DispatchIsLogOrder(s0, tr[..|tr| - 1]);
      StepKeepsOrder(Run(s0, tr[..|tr| - 1]), tr[|tr| - 1]);
    }
  }

  /** Log order: by record, and within a record by change. */
  predicate Before(a: Handed, b: Handed) {
    a.record < b.record || (a.record == b.record && a.change < b.change)
  }

  ghost predicate Increasing(out: seq<Handed>) {
    forall i, j :: 0 <= i < j < |out| ==> Before(out[i], out[j])
  }

  lemma {:induction false} ChangesIncrease(n: nat, i: nat, k: nat)
    ensures |ChangesOf(n, i, k)| == k && forall x :: 0 <= x < k ==> ChangesOf(n, i, k)[x] == Handed(n, i, x)
  {
    if k > 0 {
      ChangesIncrease(n, i, k - 1);
    }
  }

  lemma {:induction false} ExpectedIncreases(log: seq<Record>, n: nat, from: nat, c: nat)
    requires c <= |log|
    ensures Increasing(Expected(log, n, from, c)) && forall h <- Expected(log, n, from, c) :: h.record < c
  {
    if c > 0 {
      ExpectedIncreases(log, n, from, c - 1);
      NextRecordIncreases(Expected(log, n, from, c - 1), n, c - 1, log[c - 1].changes);
    }
  }

  lemma NextRecordIncreases(out: seq<Handed>, n: nat, i: nat, k: nat)
    requires Increasing(out) && forall h <- out :: h.record < i
    ensures Increasing(out + ChangesOf(n, i, k)) && forall h <- out + ChangesOf(n, i, k) :: h.record < i + 1
  {
    ChangesIncrease(n, i, k);
    forall x | 0 <= x < |out| ensures out[x].record < i {
      assert out[x] in out;
    }
  }

  lemma {:induction false} MineAreMine(out: seq<Handed>, n: nat)
    ensures forall h: Handed :: h in Mine(out, n) <==> h in out && h.session == n
  {
    if out != [] {
      MineAreMine(out[..|out| - 1], n);
    }
  }

  /** Said of the output alone: the current session's part is strictly increasing in log order, so nothing comes
      twice or out of turn, and it holds exactly the changes of the records passed beyond the start position, of the
      one in hand those dispatched so far. */
  lemma DispatchedOnceInLogOrder(s0: State, tr: seq<Event>)
    requires Initial(s0) && Run(s0, tr).client.Some?
    ensures var s := Run(s0, tr);
      var c, mine := s.client.value, Mine(s.out, s.count);
      && Increasing(mine)
      && (forall h: Handed :: h in mine <==>
            && h.session == s.count && h.record < c.cursor <= |s.log|
            && End(s.log[h.record]) > c.from && h.change < s.log[h.record].changes
            && (c.rx.InHand? || c.rx.Aborted? ==> h.record == c.rx.j ==> h.change < c.rx.k))
  {
    DispatchIsLogOrder(s0, tr);
    var s := Run(s0, tr);
    var c := s.client.value;
    MineAreMine(s.out, s.count);
    if Holding(c) {
      ExpectedIncreases(s.log, s.count, c.from, c.rx.j);
      NextRecordIncreases(Expected(s.log, s.count, c.from, c.rx.j), s.count, c.rx.j, c.rx.k);
    } else {
      ExpectedIncreases(s.log, s.count, c.from, c.cursor);
    }
    forall h: Handed | h.session == s.count ensures h in s.out <==> Reached(s.log, c, h.record, h.change) {
      assert h == Handed(s.count, h.record, h.change);
    }
  }

  // ---- reports ----

  /** All that is assumed about positions here: the records the current session has received, leaving out those
      skipped as confirmed, have nondecreasing ends. */
  ghost predicate EndsInOrder(s: State) {
    s.client.Some? ==>
      var c := s.client.value;
      forall i, j :: 0 <= i < j < c.cursor <= |s.log| && End(s.log[i]) > c.from && End(s.log[j]) > c.from ==>
        End(s.log[i]) <= End(s.log[j])
  }

  lemma SessionGrows(s: State, e: Event)
    requires s.client.Some? && Next(s, e).client.Some?
    ensures var t := Next(s, e);
      && t.client.value.from == s.client.value.from && t.client.value.cursor >= s.client.value.cursor
      && t.count == s.count && s.log <= t.log
  {
  }

  /** What the session has received only grows, so the assumption held before as well. */
  lemma EndsWereInOrder(s: State, e: Event)
    requires Local(s) && s.client.Some? && Next(s, e).client.Some? && EndsInOrder(Next(s, e))
    ensures EndsInOrder(s)
  {
    hide Next;
    SessionGrows(s, e);
    var t := Next(s, e);
    forall i | 0 <= i < |s.log| ensures t.log[i] == s.log[i] {}
    assert s.client.value.cursor <= |s.log|;
    assert t.client.value.cursor <= |t.log| by {
      StepKeepsLocal(s, e);
    }
  }

  /** Within a session reports never go back, and none is ahead of what has been received. */
  ghost predicate Rising(s: State) {
    s.client.Some? ==>
      var c := s.client.value;
      && (forall i, j :: 0 <= i < j < |c.reports| ==> c.reports[i] <= c.reports[j])
      && (forall p <- c.reports :: p <= c.lastLSN)
      && (c.hb.Loaded? ==> c.hb.lsn <= c.lastLSN && forall p <- c.reports :: p <= c.hb.lsn)
  }

  lemma NeverBack(s: State, m: Move)
    requires Local(s) && Enabled(s, Within(m)) && EndsInOrder(Do(s, Within(m)))
    ensures Moved(s.log, s.client.value, m).lastLSN >= s.client.value.lastLSN
  {
    var c := s.client.value;
    if m == Receive && c.lastLSN != c.resume {
      var i: nat :| i < c.cursor && End(s.log[i]) > c.from && End(s.log[i]) == c.lastLSN;
    }
  }

  lemma SendKeepsRising(s: State)
    requires Rising(s) && Enabled(s, Within(Send))
    ensures Rising(Do(s, Within(Send)))
  {
    var c, d := s.client.value, Do(s, Within(Send)).client.value;
    forall i | 0 <= i < |c.reports| ensures d.reports[i] == c.reports[i] <= c.hb.lsn {
      assert c.reports[i] in c.reports;
    }
  }

  lemma MoveKeepsRising(s: State, m: Move)
    requires Local(s) && Rising(s) && Enabled(s, Within(m)) && EndsInOrder(Do(s, Within(m)))
    ensures Rising(Do(s, Within(m)))
  {
    if m == Send {
      SendKeepsRising(s);
    } else {
      NeverBack(s, m);
      assert Moved(s.log, s.client.value, m).reports == s.client.value.reports;
    }
  }

  /** In every run in whose current session the received records' ends never decrease, neither do its reports. */
  lemma {:induction false} ReportsNeverDecrease(s0: State, tr: seq<Event>)
    requires Initial(s0) && EndsInOrder(Run(s0, tr))
    ensures Rising(Run(s0, tr))
  {
    if tr != [] {
      var front, e := tr[..|tr| - 1], tr[|tr| - 1];
      var s := Run(s0, front);
      AlwaysLocal(s0, front);
      if s.client.Some? && Run(s0, tr).client.Some? {
        EndsWereInOrder(s, e);
        ReportsNeverDecrease(s0, front);
        if Enabled(s, e) && e.Within? {
          MoveKeepsRising(s, e.move);
        }
      }
    }
  }

  /** Three steps of the heartbeat, none of the receive loop in between. */
  function Beat(s: State): State {
    Next(Next(Next(s, Within(Tick)), Within(Load)), Within(Send))
  }

  lemma TickEffect(s: State)
    requires Enabled(s, Within(Tick))
    ensures Next(s, Within(Tick)) == s.(client := Some(s.client.value.(hb := Woken)))
  {
  }

  lemma LoadEffect(s: State)
    requires Enabled(s, Within(Load))
    ensures Next(s, Within(Load)) == s.(client := Some(s.client.value.(hb := Loaded(s.client.value.lastLSN))))
  {
  }

  lemma SendEffect(s: State)
    requires Enabled(s, Within(Send))
    ensures var c := s.client.value;
      Next(s, Within(Send))
        == s.(client := Some(c.(hb := Waiting, reports := c.reports + [c.hb.lsn])), wire := s.wire + [c.hb.lsn])
  {
  }

  lemma BeatEffect(s: State)
    requires s.client.Some? && s.client.value.hb == Waiting
    ensures var c := s.client.value;
      Beat(s) == s.(client := Some(c.(reports := c.reports + [c.lastLSN])), wire := s.wire + [c.lastLSN])
  {
    hide Next;
    TickEffect(s);
    LoadEffect(Next(s, Within(Tick)));
    SendEffect(Next(Next(s, Within(Tick)), Within(Load)));
  }

  lemma ReceiveEffect(s: State)
    requires Enabled(s, Within(Receive))
    ensures var c, t := s.client.value, Next(s, Within(Receive));
      && t.client == Some(c.(cursor := c.cursor + 1, lastLSN := End(s.log[c.cursor]), rx := InHand(c.cursor, 0)))
      && t.log == s.log && t.wire == s.wire && t.slot == s.slot && t.out == s.out && t.count == s.count
  {
  }

  /** The store of a received position is plain, not a maximum: after a record whose end lies below an
      earlier report, the next update goes back, and only then. */
  lemma ReportGoesBackIffEndDoes(s: State)
    requires Enabled(s, Within(Receive)) && s.client.value.hb == Waiting && Rising(s)
    requires s.client.value.reports != []
    ensures var c, t := s.client.value, Beat(Next(s, Within(Receive)));
      && t.client.Some?
      && t.client.value.reports == c.reports + [End(s.log[c.cursor])]
      && (Rising(t) <==> End(s.log[c.cursor]) >= c.reports[|c.reports| - 1])
  {
    hide Next, Beat;
    ReceiveEffect(s);
    BeatEffect(Next(s, Within(Receive)));
    var c, t := s.client.value, Beat(Next(s, Within(Receive)));
    var r, n := t.client.value.reports, |c.reports|;
    assert r[n - 1] == c.reports[n - 1] && r[n] == End(s.log[c.cursor]);
  }
}
