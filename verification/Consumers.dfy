/** cdc.go and outbox.go: every reconnect builds a new outbox consumer, while the drainers of the older ones live on
    until Start's context is done. Each consumer's part of a run is a run of the scheduler; a topic's rows keep their
    order across consumers exactly when it is drained at each reconnect. */
module Consumers {
  import opened Common
  import opened OutboxRows
  import opened OutboxRuns
  import Outbox

  datatype Event = Reconnect | Step(gen: nat, e: Outbox.Event) | CancelAll

  /** A delivery that is over, and the consumer it belonged to. */
  datatype Entry = Entry(gen: nat, settled: Outbox.Settled)

  datatype State = State(
    parts: seq<seq<Outbox.Event>>,    // each consumer's own run, the current one's last
    cancelled: bool,
    log: seq<Entry>)                  // finished deliveries of all consumers, oldest first

  const INITIAL := State([[]], false, [])

  function Consumer(s: State, g: nat): Outbox.State
    requires g < |s.parts|
  {
    Outbox.Run(s.parts[g])
  }

  /** A session ends with the receive loop out of Handle; only the current consumer is handed rows. */
  predicate Enabled(s: State, ev: Event) {
    match ev
    case Reconnect => s.parts != [] && !s.cancelled && Consumer(s, |s.parts| - 1).producer == Outbox.Idle
    case Step(g, e) => g < |s.parts| && e != Outbox.Cancel && (e.Enqueue? ==> g + 1 == |s.parts|)
    case CancelAll => true
  }

  function NewEntries(g: nat, s: Outbox.State, e: Outbox.Event): seq<Entry> {
    var t := Outbox.Next(s, e);
    if |t.log| > |s.log| then [Entry(g, t.log[|s.log|])] else []
  }

  function CancelParts(parts: seq<seq<Outbox.Event>>): seq<seq<Outbox.Event>> {
    seq(|parts|, g requires 0 <= g < |parts| => parts[g] + [Outbox.Cancel])
  }

  function Do(s: State, ev: Event): State
    requires Enabled(s, ev)
  {
    match ev
    case Reconnect => s.(parts := s.parts + [[]])
    case Step(g, e) => s.(parts := s.parts[g := s.parts[g] + [e]], log := s.log + NewEntries(g, Consumer(s, g), e))
    case CancelAll => s.(parts := CancelParts(s.parts), cancelled := true)
  }

  function Next(s: State, ev: Event): State {
    if Enabled(s, ev) then Do(s, ev) else s
  }

  function Run(tr: seq<Event>): State {
    if tr == [] then INITIAL else Next(Run(tr[..|tr| - 1]), tr[|tr| - 1])
  }

  lemma RunSnoc(tr: seq<Event>, ev: Event)
    ensures Run(tr + [ev]) == Next(Run(tr), ev)
  {
    assert (tr + [ev])[..|tr|] == tr;
  }

  lemma PartSnoc(p: seq<Outbox.Event>, e: Outbox.Event)
    ensures Outbox.Run(p + [e]) == Outbox.Next(Outbox.Run(p), e)
  {
    assert (p + [e])[..|p|] == p;
  }

  // ---- what every run keeps ----

  ghost predicate Sound(s: State) {
    && s.parts != []
    && (forall g :: 0 <= g < |s.parts| - 1 ==> Outbox.Run(s.parts[g]).producer == Outbox.Idle)
    && (forall g :: 0 <= g < |s.parts| ==> Outbox.Run(s.parts[g]).cancelled == s.cancelled)
    && (forall x <- s.log :: x.gen < |s.parts|)
  }

  lemma StepKeepsSound(s: State, ev: Event)
    requires Sound(s) && Enabled(s, ev)
    ensures Sound(Do(s, ev))
  {
    hide Outbox.Run;
    match ev {
      case Step(g, e) => PartSnoc(s.parts[g], e);
      case CancelAll =>
        forall g | 0 <= g < |s.parts|
          ensures Outbox.Run(CancelParts(s.parts)[g]) == Outbox.Run(s.parts[g]).(cancelled := true)
        {
          PartSnoc(s.parts[g], Outbox.Cancel);
        }
      case Reconnect => FreshConsumer();
    }
  }

  lemma FreshConsumer()
    ensures Outbox.Run([]) == Outbox.INITIAL
  {
  }

  lemma {:induction false} AlwaysSound(tr: seq<Event>)
    ensures Sound(Run(tr))
  {
    hide Do, Enabled;
    if tr == [] {
      FreshConsumer();
    } else {
      AlwaysSound(tr[..|tr| - 1]);
      if Enabled(Run(tr[..|tr| - 1]), tr[|tr| - 1]) {
        StepKeepsSound(Run(tr[..|tr| - 1]), tr[|tr| - 1]);
      }
    }
  }

  // ---- order across consumers ----

  /** The consumer holds no row of topic t: none in a drainer's hands, none queued. */
  predicate Free(s: Outbox.State, t: string) {
    t in s.topics ==> s.topics[t].queue == [] && !s.topics[t].drainer.Busy?
  }

  predicate Drained(s: State, t: string) {
    forall g :: 0 <= g < |s.parts| ==> Free(Outbox.Run(s.parts[g]), t)
  }

  /** No consumer finishes a row of topic t after a younger one has: deliveries follow the order of the stream. */
  ghost predicate InOrder(log: seq<Entry>, t: string) {
    forall i, j :: 0 <= i < j < |log| && log[i].settled.row.topic == t && log[j].settled.row.topic == t ==>
      log[i].gen <= log[j].gen
  }

  /** An idle consumer without rows of t stays so, and finishes no delivery of one. */
  lemma FreeStaysFree(p: seq<Outbox.Event>, e: Outbox.Event, g: nat, t: string)
    requires Free(Outbox.Run(p), t) && Outbox.Run(p).producer == Outbox.Idle && !e.Enqueue?
    ensures Free(Outbox.Run(p + [e]), t) && Outbox.Run(p + [e]).producer == Outbox.Idle
    ensures forall x <- NewEntries(g, Outbox.Run(p), e) :: x.settled.row.topic != t
  {
    hide Outbox.Run;
    PartSnoc(p, e);
    TopicsKeepOrder(p);
    var s := Outbox.Run(p);
    if Outbox.Enabled(s, e) && (e.TrySucceeds? || e.TryFails? || e.AbandonBackoff?) {
      assert InSequence(s, Outbox.Kept(Outbox.Fates(p), e.t), e.t);
    }
  }

  ghost predicate OldFree(s: State, n: nat, t: string) {
    n < |s.parts| && forall g :: 0 <= g < n ==> Free(Outbox.Run(s.parts[g]), t)
  }

  lemma StepKeepsOrder(s: State, ev: Event, n: nat, t: string)
    requires Sound(s) && |s.parts| == n + 1 && OldFree(s, n, t) && InOrder(s.log, t)
    requires Enabled(s, ev) && ev != Reconnect
    ensures |Do(s, ev).parts| == n + 1 && OldFree(Do(s, ev), n, t) && InOrder(Do(s, ev).log, t)
  {
    hide Outbox.Run, NewEntries;
    match ev {
      case Step(g, e) =>
        if g < n {
          FreeStaysFree(s.parts[g], e, g, t);
        }
        NewEntriesAreOwn(g, Consumer(s, g), e);
      case CancelAll =>
        forall g | 0 <= g < n ensures Free(Outbox.Run(CancelParts(s.parts)[g]), t) {
          PartSnoc(s.parts[g], Outbox.Cancel);
        }
      case Reconnect =>
    }
  }

  lemma NewEntriesAreOwn(g: nat, s: Outbox.State, e: Outbox.Event)
    ensures |NewEntries(g, s, e)| <= 1 && forall x <- NewEntries(g, s, e) :: x.gen == g
  {
  }

  lemma {:induction false} DrainedKeepsOrder(tr: seq<Event>, more: seq<Event>, n: nat, t: string)
    requires |Run(tr).parts| == n + 1 && OldFree(Run(tr), n, t) && InOrder(Run(tr).log, t) && Reconnect !in more
    ensures |Run(tr + more).parts| == n + 1 && OldFree(Run(tr + more), n, t) && InOrder(Run(tr + more).log, t)
  {
    hide Do, Enabled, InOrder, OldFree;
    if more == [] {
      assert tr + more == tr;
    } else {
      var front, ev := more[..|more| - 1], more[|more| - 1];
      assert (tr + more)[..|tr + more| - 1] == tr + front;
      DrainedKeepsOrder(tr, front, n, t);
      AlwaysSound(tr + front);
      if Enabled(Run(tr + front), ev) {
        StepKeepsOrder(Run(tr + front), ev, n, t);
      }
    }
  }

  /** Steps of consumer g that finish a delivery of topic t, and the entry they leave. */
  ghost predicate Finishes(tr: seq<Event>, more: seq<Event>, g: nat, t: string) {
    var s, d := Run(tr), Run(tr + more);
    && g < |s.parts| == |d.parts|
    && (forall h :: 0 <= h < |s.parts| && h != g ==> d.parts[h] == s.parts[h])
    && d.cancelled == s.cancelled
    && Reconnect !in more
    && exists row: OutboxRow :: row.topic == t && d.log == s.log + [Entry(g, Outbox.Settled(row, Outbox.Delivered))]
  }

  /** A step of one consumer, seen from the whole. */
  lemma OneStep(tr: seq<Event>, g: nat, e: Outbox.Event)
    requires g < |Run(tr).parts| && e != Outbox.Cancel && (e.Enqueue? ==> g + 1 == |Run(tr).parts|)
    ensures var s, d := Run(tr), Run(tr + [Step(g, e)]);
      && d == s.(parts := s.parts[g := s.parts[g] + [e]], log := s.log + NewEntries(g, Outbox.Run(s.parts[g]), e))
      && Outbox.Run(d.parts[g]) == Outbox.Next(Outbox.Run(s.parts[g]), e)
  {
    hide Outbox.Run, NewEntries;
    RunSnoc(tr, Step(g, e));
    PartSnoc(Run(tr).parts[g], e);
  }

  predicate Quiet(e: Outbox.Event) {
    e.Enqueue? || e == Outbox.Acquire || e == Outbox.Spawn || e == Outbox.Push || e.Take? || e.BackoffOver?
  }

  lemma NoEntry(g: nat, s: Outbox.State, e: Outbox.Event)
    requires Quiet(e)
    ensures NewEntries(g, s, e) == []
  {
  }

  /** A step that ends no delivery. */
  lemma QuietStep(tr: seq<Event>, g: nat, e: Outbox.Event)
    requires g < |Run(tr).parts| && Quiet(e) && (e.Enqueue? ==> g + 1 == |Run(tr).parts|)
    ensures var s, d := Run(tr), Run(tr + [Step(g, e)]);
      && d == s.(parts := s.parts[g := s.parts[g] + [e]])
      && Outbox.Run(d.parts[g]) == Outbox.Next(Outbox.Run(s.parts[g]), e)
  {
    hide Outbox.Run, Outbox.Next, Run, NewEntries;
    OneStep(tr, g, e);
    NoEntry(g, Outbox.Run(Run(tr).parts[g]), e);
  }

  /** A delivery under way can succeed, after its backoff if need be. */
  lemma BusyFinishes(tr: seq<Event>, g: nat, t: string) returns (more: seq<Event>)
    requires g < |Run(tr).parts| && Outbox.Has(Outbox.Run(Run(tr).parts[g]), t)
    requires var d := Outbox.Run(Run(tr).parts[g]).topics[t].drainer; d.Busy? && d.row.topic == t
    ensures Finishes(tr, more, g, t)
  {
    hide Outbox.Run, Run;
    var first: seq<Event> := [];
    assert tr + first == tr;
    if Outbox.Run(Run(tr).parts[g]).topics[t].drainer.backingOff {
      QuietStep(tr, g, Outbox.BackoffOver(t));
      first := [Step(g, Outbox.BackoffOver(t))];
    }
    OneStep(tr + first, g, Outbox.TrySucceeds(t));
    more := first + [Step(g, Outbox.TrySucceeds(t))];
    assert tr + first + [Step(g, Outbox.TrySucceeds(t))] == tr + more;
  }

  /** A queued row can be taken and delivered. */
  lemma QueuedFinishes(tr: seq<Event>, g: nat, t: string) returns (more: seq<Event>)
    requires g < |Run(tr).parts| && Outbox.Enabled(Outbox.Run(Run(tr).parts[g]), Outbox.Take(t))
    requires Outbox.Run(Run(tr).parts[g]).topics[t].queue[0].topic == t
    ensures Finishes(tr, more, g, t)
  {
    hide Outbox.Run, Run;
    QuietStep(tr, g, Outbox.Take(t));
    var rest := BusyFinishes(tr + [Step(g, Outbox.Take(t))], g, t);
    more := [Step(g, Outbox.Take(t))] + rest;
    assert tr + [Step(g, Outbox.Take(t))] + rest == tr + more;
  }

  /** While ctx is live, a row that an older consumer holds can still be delivered at any time. */
  lemma PendingFinishes(tr: seq<Event>, g: nat, t: string) returns (more: seq<Event>)
    requires g < |Run(tr).parts| && !Run(tr).cancelled
    requires !Free(Outbox.Run(Run(tr).parts[g]), t) && Outbox.Run(Run(tr).parts[g]).producer == Outbox.Idle
    ensures Finishes(tr, more, g, t)
  {
    var p := Run(tr).parts[g];
    var s := Outbox.Run(p);
    AlwaysSound(tr);
    TopicsKeepOrder(p);
    SemaphoreCountsDrainers(p);
    assert InSequence(s, Outbox.Kept(Outbox.Fates(p), t), t);
    if s.topics[t].drainer.Busy? {
      more := BusyFinishes(tr, g, t);
    } else {
      assert s.topics[t].queue[0] in s.topics[t].queue;
      more := QueuedFinishes(tr, g, t);
    }
  }

  /** The new consumer can be handed a row of any topic and deliver it at once. */
  lemma NewcomerFinishes(tr: seq<Event>, row: OutboxRow) returns (more: seq<Event>)
    requires Run(tr).parts != [] && Run(tr).parts[|Run(tr).parts| - 1] == []
    ensures Finishes(tr, more, |Run(tr).parts| - 1, row.topic)
  {
    hide Outbox.Run, Outbox.Next, Run;
    FreshConsumer();
    var g := |Run(tr).parts| - 1;
    var t1 := tr + [Step(g, Outbox.Enqueue(row))];
    var t2 := t1 + [Step(g, Outbox.Acquire)];
    var t3 := t2 + [Step(g, Outbox.Spawn)];
    var t4 := t3 + [Step(g, Outbox.Push)];
    QuietStep(tr, g, Outbox.Enqueue(row));
    QuietStep(t1, g, Outbox.Acquire);
    QuietStep(t2, g, Outbox.Spawn);
    QuietStep(t3, g, Outbox.Push);
    FirstRow(row);
    var rest := QueuedFinishes(t4, g, row.topic);
    more := [Step(g, Outbox.Enqueue(row)), Step(g, Outbox.Acquire), Step(g, Outbox.Spawn), Step(g, Outbox.Push)] + rest;
    assert t4 + rest == tr + more;
  }

  lemma FirstRow(row: OutboxRow)
    ensures var admitted := Outbox.Next(Outbox.Next(Outbox.INITIAL, Outbox.Enqueue(row)), Outbox.Acquire);
      var s := Outbox.Next(Outbox.Next(admitted, Outbox.Spawn), Outbox.Push);
      Outbox.Enabled(s, Outbox.Take(row.topic)) && s.topics[row.topic].queue == [row] && s.producer == Outbox.Idle
  {
  }

  /** A reconnect while an older consumer holds a row of t: the new one can overtake it. */
  lemma UndrainedCanReorder(tr: seq<Event>, t: string) returns (more: seq<Event>)
    requires Enabled(Run(tr), Reconnect) && !Drained(Run(tr), t)
    ensures Reconnect !in more && !InOrder(Run(tr + [Reconnect] + more).log, t)
  {
    hide Outbox.Run, Run, Free;
    AlwaysSound(tr);
    RunSnoc(tr, Reconnect);
    var g :| 0 <= g < |Run(tr).parts| && !Free(Outbox.Run(Run(tr).parts[g]), t);
    var t1 := tr + [Reconnect];
    var a := NewcomerFinishes(t1, OutboxRow(0, t, Payload("{}")));
    var b := PendingFinishes(t1 + a, g, t);
    more := a + b;
    assert t1 + a + b == t1 + more;
    var log, k := Run(t1 + more).log, |Run(t1).log|;
    assert log[k].gen == |Run(tr).parts| && log[k + 1].gen == g;
  }

  /** A reconnect is harmless to topic t, whatever happens up to the next one, if and only if no consumer then
      holds a row of t. */
  lemma ReconnectKeepsOrderIffDrained(tr: seq<Event>, t: string)
    requires Enabled(Run(tr), Reconnect) && InOrder(Run(tr).log, t)
    ensures Drained(Run(tr), t)
       <==> forall more: seq<Event> :: Reconnect !in more ==> InOrder(Run(tr + [Reconnect] + more).log, t)
  {
    hide Outbox.Run, Run, Free, InOrder;
    var n := |Run(tr).parts|;
    RunSnoc(tr, Reconnect);
    if Drained(Run(tr), t) {
      forall more: seq<Event> | Reconnect !in more ensures InOrder(Run(tr + [Reconnect] + more).log, t) {
        DrainedKeepsOrder(tr + [Reconnect], more, n, t);
      }
    } else {
      var more := UndrainedCanReorder(tr, t);
    }
  }

  // ---- one stream of rows across consumers ----

  /** The rows of topic t in the order in which their deliveries ended. */
  function FinishedRows(log: seq<Entry>, t: string): seq<OutboxRow> {
    if log == [] then []
    else
      var x := log[|log| - 1].settled.row;
      FinishedRows(log[..|log| - 1], t) + (if x.topic == t then [x] else [])
  }

  /** The rows of topic t pushed to any consumer, in the order of the stream. */
  function AllKept(parts: seq<seq<Outbox.Event>>, t: string): seq<OutboxRow> {
    if parts == [] then []
    else AllKept(parts[..|parts| - 1], t) + Outbox.Kept(Outbox.Fates(parts[|parts| - 1]), t)
  }

  function Pending(s: Outbox.State, t: string): seq<OutboxRow> {
    if t in s.topics then Outbox.Current(s.topics[t].drainer) + s.topics[t].queue else []
  }

  /** At every reconnect so far the topic was drained. */
  ghost predicate DrainedReconnects(tr: seq<Event>, t: string) {
    tr != [] ==>
      var front, ev := tr[..|tr| - 1], tr[|tr| - 1];
      DrainedReconnects(front, t) && (ev == Reconnect && Enabled(Run(front), ev) ==> Drained(Run(front), t))
  }

  ghost predicate OneStream(s: State, t: string) {
    && s.parts != []
    && OldFree(s, |s.parts| - 1, t)
    && var latest := s.parts[|s.parts| - 1];
       FinishedRows(s.log, t)
         == AllKept(s.parts[..|s.parts| - 1], t) + Outbox.SettledRows(Outbox.Run(latest).log, t)
  }

  function AddedRows(added: seq<Entry>, t: string): seq<OutboxRow> {
    if added != [] && added[0].settled.row.topic == t then [added[0].settled.row] else []
  }

  lemma FinishedGrows(log: seq<Entry>, g: nat, s: Outbox.State, e: Outbox.Event, t: string)
    ensures var added := NewEntries(g, s, e);
      && (added == [] ==> Outbox.Next(s, e).log == s.log)
      && FinishedRows(log + added, t) == FinishedRows(log, t) + AddedRows(added, t)
      && Outbox.SettledRows(Outbox.Next(s, e).log, t)
           == Outbox.SettledRows(s.log, t) + AddedRows(added, t)
  {
    var added, d := NewEntries(g, s, e), Outbox.Next(s, e);
    assert d.log == s.log || (|d.log| == |s.log| + 1 && d.log[..|s.log|] == s.log);
    if added == [] {
      assert log + added == log;
    } else {
      assert (log + added)[..|log|] == log;
    }
  }

  /** Steps of an idle consumer push nothing. */
  lemma IdleKeepsFates(p: seq<Outbox.Event>, e: Outbox.Event)
    requires Outbox.Run(p).producer == Outbox.Idle
    ensures Outbox.Fates(p + [e]) == Outbox.Fates(p)
  {
    assert (p + [e])[..|p|] == p;
  }

  lemma {:induction false} SameKept(a: seq<seq<Outbox.Event>>, b: seq<seq<Outbox.Event>>, t: string)
    requires |a| == |b| && forall g :: 0 <= g < |a| ==> Outbox.Fates(a[g]) == Outbox.Fates(b[g])
    ensures AllKept(a, t) == AllKept(b, t)
  {
    if a != [] {
      SameKept(a[..|a| - 1], b[..|b| - 1], t);
    }
  }

  lemma OldStepKeepsStream(s: State, g: nat, e: Outbox.Event, t: string)
    requires Sound(s) && OneStream(s, t) && Enabled(s, Step(g, e)) && g < |s.parts| - 1
    ensures OneStream(Do(s, Step(g, e)), t)
  {
    hide Outbox.Run, Outbox.Next, NewEntries, FinishedRows, AllKept, Free;
    FinishedGrows(s.log, g, Outbox.Run(s.parts[g]), e, t);
    FreeStaysFree(s.parts[g], e, g, t);
    OldPartKept(s, g, e, t);
  }

  lemma LatestStepKeepsStream(s: State, e: Outbox.Event, t: string)
    requires Sound(s) && OneStream(s, t) && Enabled(s, Step(|s.parts| - 1, e))
    ensures OneStream(Do(s, Step(|s.parts| - 1, e)), t)
  {
    hide Outbox.Run, Outbox.Next, NewEntries, FinishedRows, AllKept, Free;
    var d, n := Do(s, Step(|s.parts| - 1, e)), |s.parts| - 1;
    FinishedGrows(s.log, n, Outbox.Run(s.parts[n]), e, t);
    PartSnoc(s.parts[n], e);
    assert d.parts[..n] == s.parts[..n];
  }

  lemma OldPartKept(s: State, g: nat, e: Outbox.Event, t: string)
    requires Sound(s) && g < |s.parts| - 1
    ensures var parts, n := s.parts[g := s.parts[g] + [e]], |s.parts| - 1;
      AllKept(parts[..n], t) == AllKept(s.parts[..n], t)
  {
    hide Outbox.Run, AllKept;
    IdleKeepsFates(s.parts[g], e);
    SameKept(s.parts[..|s.parts| - 1], s.parts[g := s.parts[g] + [e]][..|s.parts| - 1], t);
  }

  lemma CancelKeepsStream(s: State, t: string)
    requires Sound(s) && OneStream(s, t)
    ensures OneStream(Do(s, CancelAll), t)
  {
    hide Outbox.Run, FinishedRows, AllKept;
    var d, n := Do(s, CancelAll), |s.parts| - 1;
    forall g | 0 <= g < |s.parts|
      ensures Outbox.Run(d.parts[g]) == Outbox.Run(s.parts[g]).(cancelled := true)
      ensures g < n ==> Outbox.Fates(d.parts[g]) == Outbox.Fates(s.parts[g])
    {
      PartSnoc(s.parts[g], Outbox.Cancel);
      if g < n {
        IdleKeepsFates(s.parts[g], Outbox.Cancel);
      }
    }
    SameKept(s.parts[..n], d.parts[..n], t);
  }

  lemma ReconnectKeepsStream(s: State, t: string)
    requires OneStream(s, t) && Enabled(s, Reconnect) && Drained(s, t)
    ensures OneStream(Do(s, Reconnect), t)
  {
    hide Outbox.Run, FinishedRows;
    var d, p := Do(s, Reconnect), s.parts[|s.parts| - 1];
    FreshConsumer();
    LatestPending(p, t);
    assert Pending(Outbox.Run(p), t) == [];
    assert d.parts[..|s.parts|] == s.parts;
    assert Outbox.SettledRows([], t) == [];
  }

  lemma {:induction false} AlwaysOneStream(tr: seq<Event>, t: string)
    requires DrainedReconnects(tr, t)
    ensures OneStream(Run(tr), t)
  {
    hide Do, OneStream;
    if tr == [] {
      NothingFinished(t);
    } else {
      var front, ev := tr[..|tr| - 1], tr[|tr| - 1];
      AlwaysOneStream(front, t);
      AlwaysSound(front);
      if Enabled(Run(front), ev) {
        match ev {
          case Step(g, e) =>
            if g < |Run(front).parts| - 1 {
              OldStepKeepsStream(Run(front), g, e, t);
            } else {
              LatestStepKeepsStream(Run(front), e, t);
            }
          case CancelAll => CancelKeepsStream(Run(front), t);
          case Reconnect => ReconnectKeepsStream(Run(front), t);
        }
      }
    }
  }

  lemma NothingFinished(t: string)
    ensures OneStream(INITIAL, t)
  {
    FreshConsumer();
  }

  /** If the topic was drained at every reconnect, then over the whole life of the client its finished rows, the
      one in hand and those queued are, in order, all rows pushed for it. */
  lemma OrderAcrossReconnects(tr: seq<Event>, t: string)
    requires DrainedReconnects(tr, t)
    ensures var s := Run(tr);
      s.parts != [] && FinishedRows(s.log, t) + Pending(Consumer(s, |s.parts| - 1), t) == AllKept(s.parts, t)
  {
    hide Outbox.Run, Run, FinishedRows, DrainedReconnects, OldFree, AllKept, Pending;
    AlwaysOneStream(tr, t);
    var s := Run(tr);
    var n := |s.parts| - 1;
    LatestPending(s.parts[n], t);
    AllKeptSplits(s.parts, t);
    var done := AllKept(s.parts[..n], t);
    var settled, pending := Outbox.SettledRows(Consumer(s, n).log, t), Pending(Consumer(s, n), t);
    assert (done + settled) + pending == done + (settled + pending);
  }

  lemma AllKeptSplits(parts: seq<seq<Outbox.Event>>, t: string)
    requires parts != []
    ensures AllKept(parts, t) == AllKept(parts[..|parts| - 1], t) + Outbox.Kept(Outbox.Fates(parts[|parts| - 1]), t)
  {
  }

  lemma LatestPending(p: seq<Outbox.Event>, t: string)
    ensures var s := Outbox.Run(p);
      Outbox.SettledRows(s.log, t) + Pending(s, t) == Outbox.Kept(Outbox.Fates(p), t)
  {
    hide Outbox.Run;
    TopicsKeepOrder(p);
    assert InSequence(Outbox.Run(p), Outbox.Kept(Outbox.Fates(p), t), t);
  }
}
