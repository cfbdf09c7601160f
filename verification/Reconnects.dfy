/** What reconnects keep, given a server whose record ends increase: positions, at-least-once dispatch, replays. */
module Reconnects {
  import opened Common
  import opened Session
  import opened SessionRuns

  // ---- an ordered server: what reconnects keep ----

  ghost predicate Sorted(s: State) {
    && (forall i, j :: 0 <= i < j < |s.log| ==> End(s.log[i]) < End(s.log[j]))
    && (forall i :: 0 <= i < |s.log| ==> End(s.log[i]) <= s.walEnd)
  }

  /** A position some record was confirmed at, or a start position: written already, and not past high. */
  predicate Settled(s: State, p: nat) {
    && p <= s.walEnd
    && (s.high < |s.log| ==> End(s.log[s.high]) > p)
  }

  ghost predicate Positions(s: State) {
    && Sorted(s)
    && s.walEnd > 0
    && (s.slot.Some? ==> 0 < s.slot.value <= s.walEnd)
    && (s.resuming.Some? ==> 0 < s.resuming.value <= s.walEnd)
    && (s.resuming.Some? && s.slot.Some? ==> s.resuming.value <= s.slot.value)
    && (if s.count == 0 then s.client == None && s.wire == [] && s.got == [] && s.out == [] && s.base == s.high == 0
        else
          && s.slot.Some? && Settled(s, s.slot.value)
          && (forall p <- s.wire :: Settled(s, p))
          && s.base <= s.high <= |s.log|
          && (s.base > 0 ==> End(s.log[s.base - 1]) <= s.slot.value))
    && (s.client.Some? ==> ClientPositions(s, s.client.value))
  }

  ghost predicate ClientPositions(s: State, c: Client) {
    && s.slot.Some? && s.base <= s.high <= |s.log|
    && Settled(s, c.from)
    && c.resume <= c.from <= s.slot.value
    && c.cursor <= s.high
    && c.known <= s.high
    && (s.base > 0 ==> End(s.log[s.base - 1]) <= c.from)
    && (c.lastLSN <= c.from || (c.cursor > 0 && c.lastLSN <= End(s.log[c.cursor - 1])))
    && (c.hb.Loaded? ==> c.hb.lsn <= c.lastLSN)
    && Settled(s, c.lastLSN)
  }

  lemma AppendKeepsPositions(s: State, r: Record)
    requires Positions(s) && End(r) > s.walEnd
    ensures Positions(Do(s, Append(r)))
  {
    var t := Do(s, Append(r));
    forall p | Settled(s, p) ensures Settled(t, p) {}
    if s.client.Some? {
      assert ClientPositions(t, s.client.value);
    }
  }

  lemma StartKeepsPositions(s: State)
    requires Positions(s) && Enabled(s, Start)
    ensures Positions(Do(s, Start))
  {
  }

  lemma PlainKeepsPositions(s: State, e: Event)
    requires Positions(s) && Enabled(s, e)
    requires e.AdvanceWal? || e.ReadPosition? || e.CreateSlot? || e.GiveUp? || e.Close?
    ensures Positions(Do(s, e))
  {
    forall p | Settled(s, p) ensures Settled(Do(s, e), p) {}
  }

  lemma ApplyKeepsPositions(s: State)
    requires Positions(s) && Enabled(s, ApplyReport)
    ensures Positions(Do(s, ApplyReport))
  {
    assert s.wire[0] in s.wire;
    forall p | p in s.wire[1..] ensures Settled(s, p) {
      assert p in s.wire;
    }
  }

  lemma ReceiveKeepsPositions(s: State)
    requires Positions(s) && Enabled(s, Within(Receive))
    ensures Positions(Do(s, Within(Receive)))
  {
    var t := Do(s, Within(Receive));
    forall p | Settled(s, p) ensures Settled(t, p) {}
  }

  lemma SendKeepsPositions(s: State)
    requires Positions(s) && Enabled(s, Within(Send))
    ensures Positions(Do(s, Within(Send)))
  {
    assert Settled(s, s.client.value.hb.lsn);
  }

  lemma ClientReplaced(s: State, d: Client, out: seq<Handed>)
    requires Positions(s) && s.client.Some? && ClientPositions(s, d)
    ensures Positions(s.(client := Some(d), out := out))
  {
  }

  lemma MoveKeepsClientPositions(s: State, m: Move)
    requires Positions(s) && Enabled(s, Within(m)) && m != Receive && m != Send
    ensures Positions(Do(s, Within(m)))
  {
    hide ClientPositions, Sorted;
    if m == SkipRecord {
      SkipKeepsClientPositions(s);
    } else {
      StayKeepsClientPositions(s, m);
    }
    ClientReplaced(s, Moved(s.log, s.client.value, m), Do(s, Within(m)).out);
  }

  lemma StayKeepsClientPositions(s: State, m: Move)
    requires s.client.Some? && ClientPositions(s, s.client.value) && CanMove(s.log, s.client.value, m)
    requires m != Receive && m != Send && m != SkipRecord
    ensures ClientPositions(s, Moved(s.log, s.client.value, m))
  {
  }

  lemma SkipKeepsClientPositions(s: State)
    requires Positions(s) && Enabled(s, Within(SkipRecord))
    ensures ClientPositions(s, Moved(s.log, s.client.value, SkipRecord))
  {
    var c := s.client.value;
    assert c.cursor < s.high;
    assert c.cursor > 0 ==> End(s.log[c.cursor - 1]) < End(s.log[c.cursor]);
  }

  lemma StepKeepsPositions(s: State, e: Event)
    requires Positions(s) && (e.Append? ==> End(e.r) > s.walEnd)
    ensures Positions(Next(s, e))
  {
    if Enabled(s, e) {
      if e.Append? {
        AppendKeepsPositions(s, e.r);
      } else if e.Start? {
        StartKeepsPositions(s);
      } else if e == Within(Receive) {
        ReceiveKeepsPositions(s);
      } else if e == Within(Send) {
        SendKeepsPositions(s);
      } else if e.Within? {
        MoveKeepsClientPositions(s, e.move);
      } else if e.ApplyReport? {
        ApplyKeepsPositions(s);
      } else {
        PlainKeepsPositions(s, e);
      }
    }
  }

  lemma {:induction false} AlwaysPositions(s0: State, tr: seq<Event>)
    requires Initial(s0) && Ordered(s0, tr)
    ensures Positions(Run(s0, tr))
  {
    if tr != [] {
      AlwaysPositions(s0, tr[..|tr| - 1]);
      StepKeepsPositions(Run(s0, tr[..|tr| - 1]), tr[|tr| - 1]);
    }
  }

  // ---- at least once ----

  /** Record i has been dispatched in full by some session, or is the one in hand. */
  ghost predicate Accounted(s: State, i: nat) {
    || (exists n: nat :: DispatchedBy(s, n, i))
    || (s.client.Some? && s.client.value.rx.InHand? && s.client.value.rx.j == i)
  }

  ghost predicate Covered(s: State) {
    && (s.client.Some? ==> !s.client.value.rx.Aborted?)
    && forall i: nat :: s.base <= i < s.high ==> Accounted(s, i)
  }

  lemma StillDispatched(s: State, e: Event, n: nat, i: nat)
    requires DispatchedBy(s, n, i)
    ensures DispatchedBy(Next(s, e), n, i)
  {
  }

  lemma FinishDispatches(s: State)
    requires Local(s) && Enabled(s, Within(Finish))
    ensures DispatchedBy(s, s.count, s.client.value.rx.j)
  {
  }

  lemma StepKeepsAccount(s: State, e: Event, i: nat)
    requires Local(s) && Accounted(s, i) && e != Within(Abort)
    ensures Accounted(Next(s, e), i)
  {
    if n: nat :| DispatchedBy(s, n, i) {
      StillDispatched(s, e, n, i);
    } else if Enabled(s, e) && e == Within(Finish) {
      FinishDispatches(s);
      StillDispatched(s, e, s.count, i);
    }
  }

  lemma StepKeepsCover(s: State, e: Event)
    requires Positions(s) && Local(s) && Covered(s) && e != Within(Abort)
    ensures Covered(Next(s, e))
  {
    hide Accounted, Positions, Local;
    if Next(s, e).client.Some? {
      NotAborted(s, e);
    }
    hide Next;
    forall i: nat | Next(s, e).base <= i < Next(s, e).high ensures Accounted(Next(s, e), i) {
      if s.base <= i < s.high {
        StepKeepsAccount(s, e, i);
      } else {
        NewestIsInHand(s, e, i);
      }
    }
  }

  lemma NotAborted(s: State, e: Event)
    requires s.client.Some? ==> !s.client.value.rx.Aborted?
    requires e != Within(Abort) && Next(s, e).client.Some?
    ensures !Next(s, e).client.value.rx.Aborted?
  {
  }

  /** A record received for the first time is in hand. */
  lemma NewestIsInHand(s: State, e: Event, i: nat)
    requires Positions(s) && Next(s, e).base <= i < Next(s, e).high && !(s.base <= i < s.high)
    ensures Accounted(Next(s, e), i)
  {
  }

  /** While sessions end only at the receive point, every record from the first start position up to the
      furthest ever received has been dispatched, the record in hand up to its current change;
      the current session is nowhere past that. */
  lemma {:induction false} AtLeastOnceToDispatch(s0: State, tr: seq<Event>)
    requires Initial(s0) && Ordered(s0, tr) && AbortFree(tr)
    ensures Covered(Run(s0, tr))
    ensures Run(s0, tr).client.Some? ==> Run(s0, tr).client.value.cursor <= Run(s0, tr).high
  {
    AlwaysPositions(s0, tr);
    if tr != [] {
      var front := tr[..|tr| - 1];
      assert AbortFree(front);
      AtLeastOnceToDispatch(s0, front);
      AlwaysPositions(s0, front);
      AlwaysLocal(s0, front);
      StepKeepsCover(Run(s0, front), tr[|tr| - 1]);
    }
  }

  // ---- replays ----

  /** Some session before n received record i. */
  ghost predicate GotBefore(got: seq<Got>, n: nat, i: nat) {
    exists m: nat :: m < n && Got(m, i) in got
  }

  ghost predicate Remembered(s: State) {
    && (forall g <- s.got :: s.base <= g.record < s.high && g.session <= s.count)
    && (forall i: nat :: s.base <= i < s.high ==> EverGot(s.got, i))
    && (s.client.Some? ==>
          var c := s.client.value;
          && (forall g <- s.got :: g.session < s.count ==> g.record < c.known)
          && (forall i: nat :: s.base <= i < c.known ==> GotBefore(s.got, s.count, i)))
  }

  ghost predicate EverGot(got: seq<Got>, i: nat) {
    exists m: nat :: Got(m, i) in got
  }

  lemma EverGotGrows(got: seq<Got>, more: seq<Got>, i: nat)
    requires EverGot(got, i)
    ensures EverGot(got + more, i)
  {
  }

  lemma GotBeforeGrows(got: seq<Got>, more: seq<Got>, n: nat, i: nat)
    requires GotBefore(got, n, i)
    ensures GotBefore(got + more, n, i)
  {
  }

  lemma ReceiveKeepsMemory(s: State)
    requires Positions(s) && Remembered(s) && Enabled(s, Within(Receive))
    ensures Remembered(Do(s, Within(Receive)))
  {
    var c, t := s.client.value, Do(s, Within(Receive));
    var g := Got(s.count, c.cursor);
    forall i: nat | i < s.base ensures End(s.log[i]) <= c.from {}
    forall i: nat | s.base <= i < t.high ensures EverGot(t.got, i) {
      if i < s.high {
        EverGotGrows(s.got, [g], i);
      } else {
        assert g in t.got;
      }
    }
    forall i: nat | s.base <= i < c.known ensures GotBefore(t.got, s.count, i) {
      GotBeforeGrows(s.got, [g], s.count, i);
    }
  }

  lemma StepKeepsMemory(s: State, e: Event)
    requires Positions(s) && Remembered(s)
    ensures Remembered(Next(s, e))
  {
    hide Remembered, Positions;
    if Enabled(s, e) {
      if e == Within(Receive) {
        ReceiveKeepsMemory(s);
      } else if e == Start {
        StartKeepsMemory(s);
      } else {
        OtherKeepsMemory(s, e);
      }
    }
  }

  lemma OtherKeepsMemory(s: State, e: Event)
    requires Remembered(s) && Enabled(s, e) && e != Start && e != Within(Receive)
    ensures Remembered(Do(s, e))
  {
    hide GotBefore, EverGot;
    var t := Do(s, e);
    assert t.got == s.got && t.base == s.base && t.high == s.high && t.count == s.count;
    assert e.Within? ==> t.client.value.known == s.client.value.known;
  }

  /** What was received before a start was received by an earlier session. */
  lemma StartKeepsMemory(s: State)
    requires Positions(s) && Remembered(s) && Enabled(s, Start)
    ensures Remembered(Do(s, Start))
  {
    var t := Do(s, Start);
    forall i: nat | s.base <= i < s.high ensures GotBefore(s.got, t.count, i) {
      assert EverGot(s.got, i);
      var m: nat :| Got(m, i) in s.got;
      assert Got(m, i).session <= s.count;
    }
  }

  lemma {:induction false} AlwaysRemembered(s0: State, tr: seq<Event>)
    requires Initial(s0) && Ordered(s0, tr)
    ensures Remembered(Run(s0, tr))
  {
    if tr != [] {
      AlwaysPositions(s0, tr[..|tr| - 1]);
      AlwaysRemembered(s0, tr[..|tr| - 1]);
      StepKeepsMemory(Run(s0, tr[..|tr| - 1]), tr[|tr| - 1]);
    }
  }

  ghost predicate Replayed(s: State, i: nat) {
    Got(s.count, i) in s.got && GotBefore(s.got, s.count, i)
  }

  /** The position a session asks to start from: the slot's confirmed one if there was a slot when it looked, the
      current end of the WAL otherwise. */
  lemma ResumesAtConfirmedOrCurrent(s0: State, tr: seq<Event>, xlog: nat)
    requires Initial(s0) && Ordered(s0, tr) && Enabled(Run(s0, tr), ReadPosition(xlog))
    ensures var s, t := Run(s0, tr), Run(s0, tr + [ReadPosition(xlog)]);
      && t.resuming.Some? && 0 < t.resuming.value <= s.walEnd
      && (s.slot.Some? ==> t.resuming == s.slot)
      && (s.slot == None ==> t.resuming == Some(xlog))
  {
    hide Run;
    AlwaysPositions(s0, tr);
    RunSnoc(s0, tr, ReadPosition(xlog));
  }

  /** A session starts at the slot's confirmed position, whatever was read earlier. */
  lemma StartsAtConfirmed(s0: State, tr: seq<Event>)
    requires Initial(s0) && Ordered(s0, tr) && Enabled(Run(s0, tr), Start)
    ensures var s, t := Run(s0, tr), Run(s0, tr + [Start]);
      && t.client.Some? && t.client.value.from == s.slot.value && t.client.value.known == t.high
      && t.client.value.lastLSN == t.client.value.resume == s.resuming.value
      && t.client.value.reports == [] && t.client.value.requests == [] && !t.client.value.token
      && (s.count > 0 ==> t.base == s.base && t.high == s.high)
      && (s.count == 0 ==> t.high == t.base)
      && (s.count == 0 ==> forall i :: 0 <= i < |t.log| ==> (i < t.base <==> End(t.log[i]) <= s.slot.value))
  {
    hide Run;
    AlwaysPositions(s0, tr);
    RunSnoc(s0, tr, Start);
    StartEffect(Run(s0, tr));
    EndsSplitAt(Run(s0, tr), Run(s0, tr).slot.value);
  }

  lemma StartEffect(s: State)
    requires Positions(s) && Enabled(s, Start)
    ensures var t, p := Next(s, Start), s.slot.value;
      && t.client.Some? && t.client.value.from == p && t.client.value.known == t.high && t.log == s.log
      && t.client.value.resume == t.client.value.lastLSN == s.resuming.value
      && t.client.value.reports == [] && t.client.value.requests == [] && !t.client.value.token
      && t.base == (if s.count == 0 then Skipped(s.log, p) else s.base)
      && t.high == (if s.count == 0 then t.base else s.high)
  {
    hide Sorted, Settled;
  }

  lemma EndsSplitAt(s: State, p: nat)
    requires Sorted(s)
    ensures forall i :: 0 <= i < |s.log| ==> (i < Skipped(s.log, p) <==> End(s.log[i]) <= p)
  {
    hide Skipped;
    var n := Skipped(s.log, p);
    forall i | n < i < |s.log| ensures End(s.log[i]) > p {
      assert End(s.log[n]) < End(s.log[i]);
    }
  }

  /** The records a session replays are exactly the ones already received before it (below known) that lie
      beyond the position it started from, as far as it has got. */
  lemma ReplaysAreUnconfirmed(s0: State, tr: seq<Event>, i: nat)
    requires Initial(s0) && Ordered(s0, tr) && Run(s0, tr).client.Some?
    ensures var s := Run(s0, tr);
      var c := s.client.value;
      Replayed(s, i) <==> i < c.cursor && i < c.known && i < |s.log| && End(s.log[i]) > c.from
  {
    AlwaysPositions(s0, tr);
    AlwaysLocal(s0, tr);
    AlwaysRemembered(s0, tr);
    var s := Run(s0, tr);
    assert LocalClient(s, s.client.value);
    if GotBefore(s.got, s.count, i) {
      var m: nat :| m < s.count && Got(m, i) in s.got;
      assert Got(m, i).record < s.client.value.known;
    }
    if Got(s.count, i) in s.got && i < s.client.value.known {
      assert s.base <= Got(s.count, i).record;
    }
  }

  // ---- what a confirmed position forgets ----

  /** Nothing more of record j will come: the slot is past it, and so is a session under way. */
  ghost predicate Forgotten(s: State, j: nat) {
    && j < |s.log|
    && s.slot.Some? && s.slot.value >= End(s.log[j])
    && (s.client.Some? ==> s.client.value.from >= End(s.log[j]))
  }

  ghost predicate SameFor(s: State, t: State, j: nat) {
    && (forall g <- t.got :: g.record == j ==> g in s.got)
    && (forall o <- t.out :: o.record == j ==> o in s.out)
  }

  lemma ForgottenStep(s: State, e: Event, j: nat)
    requires Local(s) && Forgotten(s, j)
    ensures Forgotten(Next(s, e), j) && SameFor(s, Next(s, e), j)
  {
    var t := Next(s, e);
    if Enabled(s, e) && e == Within(Receive) {
      assert s.client.value.cursor != j;
    }
  }

  /** Once no session runs and the slot is at or past a record's end, that record is never received or
      dispatched again, in whatever way the run goes on. */
  lemma {:induction false} ConfirmedIsNeverSentAgain(s0: State, tr: seq<Event>, more: seq<Event>, j: nat)
    requires Initial(s0) && Forgotten(Run(s0, tr), j)
    ensures Forgotten(Run(s0, tr + more), j) && SameFor(Run(s0, tr), Run(s0, tr + more), j)
  {
    hide Next, Forgotten, Initial;
    if more == [] {
      assert tr + more == tr;
    } else {
      var front := more[..|more| - 1];
      assert (tr + more)[..|tr + more| - 1] == tr + front;
      ConfirmedIsNeverSentAgain(s0, tr, front, j);
      AlwaysLocal(s0, tr + front);
      ForgottenStep(Run(s0, tr + front), more[|more| - 1], j);
    }
  }

  /** A session that passes record j receives it if and only if it started before the record's end: a record
      left undispatched by an aborted session comes back exactly when the slot had not been moved past it. */
  lemma ResentIffUnconfirmed(s0: State, tr: seq<Event>, j: nat)
    requires Initial(s0) && Run(s0, tr).client.Some? && j < Run(s0, tr).client.value.cursor
    ensures var s := Run(s0, tr);
      j < |s.log| && (Got(s.count, j) in s.got <==> End(s.log[j]) > s.client.value.from)
  {
    AlwaysLocal(s0, tr);
  }

  // ---- exactly when nothing is lost ----

  ghost predicate Dispatched(s: State, i: nat) {
    exists n: nat :: DispatchedBy(s, n, i)
  }

  /** The record the last session had in hand when it returned with an error, if it did. */
  function LastAborted(s0: State, tr: seq<Event>): Option<nat> {
    if tr == [] then None
    else
      var s, e := Run(s0, tr[..|tr| - 1]), tr[|tr| - 1];
      if e == Within(Abort) && Enabled(s, e) then Some(s.client.value.rx.j)
      else if e == Start && Enabled(s, e) then None
      else LastAborted(s0, tr[..|tr| - 1])
  }

  /** The check before a start: the slot has not been moved past the record of an error, or some session has
      dispatched that record in full. */
  ghost predicate MayStart(s: State, u: Option<nat>) {
    s.slot.Some? && (u.Some? && u.value < |s.log| ==> s.slot.value < End(s.log[u.value]) || Dispatched(s, u.value))
  }

  ghost predicate SafeRestarts(s0: State, tr: seq<Event>) {
    tr != [] ==>
      var front, s, e := tr[..|tr| - 1], Run(s0, tr[..|tr| - 1]), tr[|tr| - 1];
      SafeRestarts(s0, front) && (e == Start && Enabled(s, e) && s.count > 0 ==> MayStart(s, LastAborted(s0, front)))
  }

  /** Record i is safe: neither the slot, nor an update on its way, nor the session is past it. */
  ghost predicate Ahead(s: State, i: nat) {
    && i < |s.log|
    && (s.slot.Some? ==> s.slot.value < End(s.log[i]))
    && (forall p <- s.wire :: p < End(s.log[i]))
    && (s.client.Some? ==>
          var c := s.client.value;
          c.cursor <= i && c.lastLSN < End(s.log[i]) && (c.hb.Loaded? ==> c.hb.lsn < End(s.log[i])))
  }

  /** Where a received record can be: dispatched, the one of the last error, in hand, or still ahead. */
  ghost predicate Placed(s: State, u: Option<nat>, i: nat) {
    || Dispatched(s, i)
    || u == Some(i)
    || (s.client.Some? && s.client.value.rx.InHand? && s.client.value.rx.j == i)
    || Ahead(s, i)
  }

  ghost predicate AllPlaced(s: State, u: Option<nat>) {
    && s.high <= |s.log|
    && (u.Some? ==> s.base <= u.value < s.high)
    && (s.client.Some? ==> u == if s.client.value.rx.Aborted? then Some(s.client.value.rx.j) else None)
    && forall i: nat :: s.base <= i < s.high ==> Placed(s, u, i)
  }

  lemma StillEverDispatched(s: State, e: Event, i: nat)
    requires Dispatched(s, i)
    ensures Dispatched(Next(s, e), i)
  {
    var n: nat :| DispatchedBy(s, n, i);
    StillDispatched(s, e, n, i);
  }

  /** What a step of the current session does to the record of the last error. */
  function ErrorAfter(s: State, m: Move, u: Option<nat>): Option<nat>
    requires Enabled(s, Within(m))
  {
    if m == Abort then Some(s.client.value.rx.j) else u
  }

  lemma ReceiveKeepsAhead(s: State, i: nat)
    requires Positions(s) && Enabled(s, Within(Receive)) && Ahead(s, i) && i != s.client.value.cursor
    ensures Ahead(Do(s, Within(Receive)), i)
  {
    assert End(s.log[s.client.value.cursor]) < End(s.log[i]);
  }

  lemma MoveKeepsAhead(s: State, m: Move, i: nat)
    requires Positions(s) && Enabled(s, Within(m)) && Ahead(s, i) && m != Receive
    ensures Ahead(Do(s, Within(m)), i)
  {
  }

  lemma MoveKeepsPlace(s: State, m: Move, u: Option<nat>, i: nat)
    requires Positions(s) && Local(s) && Enabled(s, Within(m)) && AllPlaced(s, u)
    requires s.base <= i < Do(s, Within(m)).high
    ensures Placed(Do(s, Within(m)), ErrorAfter(s, m, u), i)
  {
    hide Sorted, Settled, Ahead, Dispatched, LocalClient;
    var c := s.client.value;
    if !(m == Receive && i == c.cursor) {
      assert Placed(s, u, i);
      if Dispatched(s, i) {
        StillEverDispatched(s, Within(m), i);
      } else if m == Finish && c.rx.j == i {
        FinishedIsDispatched(s);
      } else if Ahead(s, i) && m == Receive {
        ReceiveKeepsAhead(s, i);
      } else if Ahead(s, i) {
        MoveKeepsAhead(s, m, i);
      }
    }
  }

  lemma FinishedIsDispatched(s: State)
    requires Local(s) && Enabled(s, Within(Finish))
    ensures Dispatched(Do(s, Within(Finish)), s.client.value.rx.j)
  {
    FinishDispatches(s);
    StillEverDispatched(s, Within(Finish), s.client.value.rx.j);
  }

  lemma ErrorInRange(s: State, m: Move, u: Option<nat>)
    requires Positions(s) && Local(s) && Enabled(s, Within(m)) && AllPlaced(s, u)
    ensures var t, v := Do(s, Within(m)), ErrorAfter(s, m, u);
      && t.high <= |t.log|
      && (v.Some? ==> t.base <= v.value < t.high)
      && v == if t.client.value.rx.Aborted? then Some(t.client.value.rx.j) else None
  {
    hide Placed, Sorted, Settled, LocalClient;
    if m == Abort {
      HeldInRange(s);
    }
  }

  lemma HeldInRange(s: State)
    requires Positions(s) && Local(s) && s.client.Some? && s.client.value.rx.InHand?
    ensures s.base <= s.client.value.rx.j < s.high
  {
    assert End(s.log[s.client.value.rx.j]) > s.client.value.from;
  }

  lemma MoveKeepsAllPlaced(s: State, m: Move, u: Option<nat>)
    requires Positions(s) && Local(s) && Enabled(s, Within(m)) && AllPlaced(s, u)
    ensures AllPlaced(Do(s, Within(m)), ErrorAfter(s, m, u))
  {
    hide Placed;
    var t := Do(s, Within(m));
    ErrorInRange(s, m, u);
    forall i: nat | t.base <= i < t.high ensures Placed(t, ErrorAfter(s, m, u), i) {
      MoveKeepsPlace(s, m, u, i);
    }
  }

  lemma StartKeepsAllPlaced(s: State, u: Option<nat>)
    requires Positions(s) && AllPlaced(s, u) && Enabled(s, Start) && (s.count > 0 ==> MayStart(s, u))
    ensures AllPlaced(Do(s, Start), None)
  {
    var t := Do(s, Start);
    forall i: nat | t.base <= i < t.high ensures Placed(t, None, i) {
      assert Placed(s, u, i);
      if Dispatched(s, i) {
        StillEverDispatched(s, Start, i);
      } else {
        assert Ahead(t, i);
      }
    }
  }

  lemma OutsideKeepsAhead(s: State, e: Event, i: nat)
    requires Positions(s) && Ahead(s, i) && s.base <= i < s.high && Enabled(s, e) && e != Start && !e.Within?
    ensures Ahead(Do(s, e), i)
  {
    if e == ApplyReport {
      assert s.wire[0] in s.wire && forall p <- s.wire[1..] :: p in s.wire;
    }
  }

  /** The steps of the server, of a reconnect before its start, and the end of a session. */
  lemma OutsideKeepsAllPlaced(s: State, e: Event, u: Option<nat>)
    requires Positions(s) && AllPlaced(s, u) && Enabled(s, e) && e != Start && !e.Within?
    ensures AllPlaced(Do(s, e), u)
  {
    var t := Do(s, e);
    forall i: nat | t.base <= i < t.high ensures Placed(t, u, i) {
      assert Placed(s, u, i);
      if Dispatched(s, i) {
        StillEverDispatched(s, e, i);
      } else if Ahead(s, i) {
        OutsideKeepsAhead(s, e, i);
      }
    }
  }

  lemma {:induction false} SafeRunsPlaceAll(s0: State, tr: seq<Event>)
    requires Initial(s0) && Ordered(s0, tr) && SafeRestarts(s0, tr)
    ensures AllPlaced(Run(s0, tr), LastAborted(s0, tr))
  {
    hide AllPlaced, Do, Enabled;
    if tr == [] {
      NothingToPlace(s0);
    } else {
      var front, e := tr[..|tr| - 1], tr[|tr| - 1];
      SafeRunsPlaceAll(s0, front);
      AlwaysPositions(s0, front);
      AlwaysLocal(s0, front);
      var s, u := Run(s0, front), LastAborted(s0, front);
      if Enabled(s, e) {
        if e.Within? {
          MoveKeepsAllPlaced(s, e.move, u);
        } else if e == Start {
          StartKeepsAllPlaced(s, u);
        } else {
          OutsideKeepsAllPlaced(s, e, u);
        }
      }
    }
  }

  lemma NothingToPlace(s0: State)
    requires Initial(s0)
    ensures AllPlaced(s0, None)
  {
  }

  /** The slot has not been moved past any received record that is still undispatched. */
  ghost predicate NothingForgotten(s: State) {
    && s.slot.Some?
    && forall i: nat :: s.base <= i < s.high <= |s.log| && End(s.log[i]) <= s.slot.value ==> Dispatched(s, i)
  }

  /** One record decides: if the starts so far were safe, then before the next one nothing undispatched lies
      behind the slot if and only if the record of the last error does not. */
  lemma OneRecordDecides(s0: State, tr: seq<Event>)
    requires Initial(s0) && Ordered(s0, tr) && SafeRestarts(s0, tr) && Enabled(Run(s0, tr), Start)
    ensures MayStart(Run(s0, tr), LastAborted(s0, tr)) <==> NothingForgotten(Run(s0, tr))
  {
    SafeRunsPlaceAll(s0, tr);
    var s, u := Run(s0, tr), LastAborted(s0, tr);
    if MayStart(s, u) {
      forall i: nat | s.base <= i < s.high <= |s.log| && End(s.log[i]) <= s.slot.value ensures Dispatched(s, i) {
        assert Placed(s, u, i);
      }
    }
  }

  /** A record the session has passed is dispatched or in its hand; one that lies ahead and was received
      before is dispatched or will be sent again. */
  ghost predicate CoverAt(s: State, c: Client, i: nat) {
    || Dispatched(s, i)
    || (i < c.cursor && Holding(c) && c.rx.j == i)
    || (c.cursor <= i < |s.log| && End(s.log[i]) > c.from)
  }

  ghost predicate CoveredToCursor(s: State) {
    s.client.Some? ==>
      && s.client.value.cursor <= s.high <= |s.log|
      && forall i: nat :: s.base <= i < s.high ==> CoverAt(s, s.client.value, i)
  }

  /** At least once, to dispatch: if no session starts with the slot past the record an error interrupted, then
      all records from the first start position up to the session's cursor are dispatched, but for the one in
      hand, and those beyond it are dispatched or come again. */
  lemma AtLeastOnce(s0: State, tr: seq<Event>)
    requires Initial(s0) && Ordered(s0, tr) && SafeRestarts(s0, tr)
    ensures CoveredToCursor(Run(s0, tr))
  {
    SafeRunsPlaceAll(s0, tr);
    AlwaysPositions(s0, tr);
    AlwaysLocal(s0, tr);
    var s, u := Run(s0, tr), LastAborted(s0, tr);
    if s.client.Some? {
      forall i: nat | s.base <= i < s.high ensures CoverAt(s, s.client.value, i) {
        assert Placed(s, u, i);
      }
    }
  }

  lemma {:induction false} NoAbortNoError(s0: State, tr: seq<Event>)
    requires AbortFree(tr)
    ensures LastAborted(s0, tr) == None
  {
    if tr != [] {
      assert tr[|tr| - 1] in tr;
      NoAbortNoError(s0, tr[..|tr| - 1]);
    }
  }

  /** Sessions that end only at the receive point meet the condition. */
  lemma {:induction false} AbortFreeRestartsAreSafe(s0: State, tr: seq<Event>)
    requires AbortFree(tr)
    ensures SafeRestarts(s0, tr)
  {
    if tr != [] {
      AbortFreeRestartsAreSafe(s0, tr[..|tr| - 1]);
      NoAbortNoError(s0, tr[..|tr| - 1]);
    }
  }

  /** And the condition is needed: a start that breaks it leaves that one record undispatched for ever. */
  lemma UnsafeRestartLosesForever(s0: State, tr: seq<Event>, more: seq<Event>)
    requires Initial(s0) && Enabled(Run(s0, tr), Start) && !MayStart(Run(s0, tr), LastAborted(s0, tr))
    ensures var u := LastAborted(s0, tr); u.Some? && !Dispatched(Run(s0, tr + more), u.value)
  {
    var s, i := Run(s0, tr), LastAborted(s0, tr).value;
    ConfirmedIsNeverSentAgain(s0, tr, more, i);
    var t := Run(s0, tr + more);
    if n: nat :| DispatchedBy(t, n, i) {
      LogKept(s0, tr, more, i);
      assert DispatchedBy(s, n, i) by {
        forall x: nat | x < s.log[i].changes ensures Handed(n, i, x) in s.out {
          assert Handed(n, i, x) in t.out;
        }
      }
    }
  }

  lemma {:induction false} FirstUnsafe(s0: State, tr: seq<Event>) returns (k: nat)
    requires Ordered(s0, tr) && !SafeRestarts(s0, tr)
    ensures k < |tr| && Ordered(s0, tr[..k]) && SafeRestarts(s0, tr[..k])
    ensures Enabled(Run(s0, tr[..k]), Start) && Run(s0, tr[..k]).count > 0
    ensures !MayStart(Run(s0, tr[..k]), LastAborted(s0, tr[..k]))
  {
    var front := tr[..|tr| - 1];
    if SafeRestarts(s0, front) {
      k := |front|;
    } else {
      k := FirstUnsafe(s0, front);
      assert tr[..k] == front[..k];
    }
  }

  lemma {:induction false} RangeKept(s0: State, tr: seq<Event>, more: seq<Event>)
    requires Run(s0, tr).count > 0
    ensures var s, t := Run(s0, tr), Run(s0, tr + more);
      t.count >= s.count && t.base == s.base && t.high >= s.high
  {
    if more == [] {
      assert tr + more == tr;
    } else {
      assert (tr + more)[..|tr + more| - 1] == tr + more[..|more| - 1];
      RangeKept(s0, tr, more[..|more| - 1]);
    }
  }

  /** Exactly: while a session runs, some received record is gone without having been dispatched (no session,
      this one included, will send it again) if and only if some start broke the condition. */
  lemma NothingLostIffSafe(s0: State, tr: seq<Event>)
    requires Initial(s0) && Ordered(s0, tr) && Run(s0, tr).client.Some?
    ensures var s := Run(s0, tr);
      SafeRestarts(s0, tr) <==> forall i: nat :: s.base <= i < s.high && Forgotten(s, i) ==> Dispatched(s, i)
  {
    hide Run, Ordered, Initial, Forgotten, Dispatched;
    if SafeRestarts(s0, tr) {
      forall i: nat | Run(s0, tr).base <= i < Run(s0, tr).high && Forgotten(Run(s0, tr), i)
        ensures Dispatched(Run(s0, tr), i)
      {
        SafeForgetsDispatched(s0, tr, i);
      }
    } else {
      var u := UnsafeForgetsOne(s0, tr);
    }
  }

  lemma SafeForgetsDispatched(s0: State, tr: seq<Event>, i: nat)
    requires Initial(s0) && Ordered(s0, tr) && SafeRestarts(s0, tr)
    requires var s := Run(s0, tr); s.client.Some? && s.base <= i < s.high && Forgotten(s, i)
    ensures Dispatched(Run(s0, tr), i)
  {
    hide Run, Ordered;
    SafeRunsPlaceAll(s0, tr);
    AlwaysLocal(s0, tr);
    assert Placed(Run(s0, tr), LastAborted(s0, tr), i);
  }

  lemma UnsafeForgetsOne(s0: State, tr: seq<Event>) returns (u: nat)
    requires Initial(s0) && Ordered(s0, tr) && !SafeRestarts(s0, tr)
    ensures var s := Run(s0, tr); s.base <= u < s.high && Forgotten(s, u) && !Dispatched(s, u)
  {
    hide Run, Dispatched;
    var k := FirstUnsafe(s0, tr);
    u := LastAborted(s0, tr[..k]).value;
    assert tr[..k] + tr[k..] == tr;
    SafeRunsPlaceAll(s0, tr[..k]);
    UnsafeRestartLosesForever(s0, tr[..k], tr[k..]);
    ConfirmedIsNeverSentAgain(s0, tr[..k], tr[k..], u);
    RangeKept(s0, tr[..k], tr[k..]);
  }

  lemma {:induction false} LogKept(s0: State, tr: seq<Event>, more: seq<Event>, i: nat)
    requires i < |Run(s0, tr).log|
    ensures i < |Run(s0, tr + more).log| && Run(s0, tr + more).log[i] == Run(s0, tr).log[i]
  {
    if more == [] {
      assert tr + more == tr;
    } else {
      assert (tr + more)[..|tr + more| - 1] == tr + more[..|more| - 1];
      LogKept(s0, tr, more[..|more| - 1], i);
    }
  }

  lemma RunSnoc(s0: State, tr: seq<Event>, e: Event)
    ensures Run(s0, tr + [e]) == Next(Run(s0, tr), e)
  {
  }

  /** Steps of the heartbeat alone that put a report of the current position on the wire. */
  lemma ReportSent(s0: State, tr: seq<Event>) returns (beat: seq<Event>)
    requires Run(s0, tr).client.Some? && Run(s0, tr).client.value.hb != Stopped
    ensures var s, t := Run(s0, tr), Run(s0, tr + beat);
      && t.client.Some? && t.client.value.rx == s.client.value.rx
      && t.wire != [] && t.wire[|t.wire| - 1] == s.client.value.lastLSN
      && t.log == s.log && t.slot == s.slot && t.out == s.out
    decreases match Run(s0, tr).client.value.hb case Loaded(_) => 2 case Waiting => 1 case _ => 0
  {
    hide Run, Next;
    var hb := Run(s0, tr).client.value.hb;
    if hb == Woken {
      RunSnoc(s0, tr, Within(Load));
      RunSnoc(s0, tr + [Within(Load)], Within(Send));
      LoadEffect(Run(s0, tr));
      SendEffect(Run(s0, tr + [Within(Load)]));
      beat := [Within(Load), Within(Send)];
      assert tr + [Within(Load)] + [Within(Send)] == tr + beat;
    } else {
      var e := Within(if hb == Waiting then Tick else Send);
      RunSnoc(s0, tr, e);
      if hb == Waiting {
        TickEffect(Run(s0, tr));
      } else {
        SendEffect(Run(s0, tr));
      }
      var rest := ReportSent(s0, tr + [e]);
      beat := [e] + rest;
      assert tr + [e] + rest == tr + beat;
    }
  }

  function Applies(n: nat): seq<Event> {
    if n == 0 then [] else Applies(n - 1) + [ApplyReport]
  }

  lemma ApplyEffect(s: State)
    requires Enabled(s, ApplyReport)
    ensures Next(s, ApplyReport) == s.(slot := Some(Max(s.slot.value, s.wire[0])), wire := s.wire[1..])
  {
  }

  /** The server works off the first n reports: the slot is then at or past each of them. */
  lemma {:induction false} ReportsApplied(s0: State, tr: seq<Event>, n: nat)
    requires n <= |Run(s0, tr).wire| && Run(s0, tr).slot.Some?
    ensures var s, t := Run(s0, tr), Run(s0, tr + Applies(n));
      && t.slot.Some? && t.wire == s.wire[n..] && (forall i :: 0 <= i < n ==> t.slot.value >= s.wire[i])
      && t.client == s.client && t.log == s.log && t.out == s.out
  {
    hide Run, Next;
    if n == 0 {
      assert tr + Applies(0) == tr;
    } else {
      ReportsApplied(s0, tr, n - 1);
      RunSnoc(s0, tr + Applies(n - 1), ApplyReport);
      ApplyEffect(Run(s0, tr + Applies(n - 1)));
      assert tr + Applies(n - 1) + [ApplyReport] == tr + Applies(n);
    }
  }

  lemma AbortEffect(s: State)
    requires s.client.Some? && s.client.value.rx.InHand?
    ensures var t := Next(Next(s, Within(Abort)), Close);
      t.client == None && t.log == s.log && t.slot == s.slot && t.out == s.out
  {
  }

  /** The position is confirmed on receipt. So whenever a record is about to be received for the first time and
      the heartbeat lives, it can be lost: a report while it is in hand, then an abort (a decode or handler
      error), and no later session ever dispatches one of its changes. */
  lemma AbortAfterReportLosesRecord(s0: State, tr: seq<Event>) returns (loss: seq<Event>)
    requires Initial(s0) && Enabled(Run(s0, tr), Within(Receive))
    requires var s := Run(s0, tr);
      && s.client.value.hb != Stopped && s.slot.Some?
      && forall o <- s.out :: o.record != s.client.value.cursor
    ensures forall more: seq<Event> ::
      forall o <- Run(s0, tr + loss + more).out :: o.record != Run(s0, tr).client.value.cursor
  {
    hide Run, Next;
    var j := Run(s0, tr).client.value.cursor;
    var t1 := tr + [Within(Receive)];
    RunSnoc(s0, tr, Within(Receive));
    ReceiveEffect(Run(s0, tr));
    var beat := ReportSent(s0, t1);
    var n := |Run(s0, t1 + beat).wire|;
    ReportsApplied(s0, t1 + beat, n);
    var t2 := t1 + beat + Applies(n);
    RunSnoc(s0, t2, Within(Abort));
    RunSnoc(s0, t2 + [Within(Abort)], Close);
    AbortEffect(Run(s0, t2));
    loss := [Within(Receive)] + beat + Applies(n) + [Within(Abort), Close];
    assert t2 + [Within(Abort)] + [Close] == tr + loss;
    assert Forgotten(Run(s0, tr + loss), j);
    forall more: seq<Event>, o | o in Run(s0, tr + loss + more).out ensures o.record != j {
      ConfirmedIsNeverSentAgain(s0, tr + loss, more, j);
    }
  }
}
