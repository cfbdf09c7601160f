/** cdc.go and sse.go: who subscribes to the broadcaster under which id, and who closes what.
    OnChange, unsubscribeAll and the /events handler take several atomic steps each; a run interleaves them freely. */
module Registry {
  import opened Common
  import opened Decode
  import Broadcast
  import Fanout

  // ---- subscriber ids ----

  function OnChangeId(n: nat): string {
    "onchange-" + Decimal(n)
  }

  function SseId(n: nat): string {
    "sse-" + Decimal(n)
  }

  /** Ids never collide, within a kind or across the two. */
  lemma IdsDistinct(a: nat, b: nat)
    ensures OnChangeId(a) == OnChangeId(b) <==> a == b
    ensures SseId(a) == SseId(b) <==> a == b
    ensures OnChangeId(a) != SseId(b)
    ensures "onchange-" <= OnChangeId(a) && "sse-" <= SseId(b)
  {
    assert OnChangeId(a)[9..] == Decimal(a) && OnChangeId(b)[9..] == Decimal(b);
    assert SseId(a)[4..] == Decimal(a) && SseId(b)[4..] == Decimal(b);
    if Decimal(a) == Decimal(b) {
      DecimalInjective(a, b);
    }
    assert OnChangeId(a)[0] == 'o' && SseId(b)[0] == 's';
  }

  // ---- the steps ----

  /** An /events connection: id taken, subscribed to channel k, or finished. */
  datatype Handler = Named | Listening(k: nat) | Gone

  datatype State = State(
    bus: Fanout.State,
    nextSub: nat,                     // c.nextSubID
    subIDs: set<string>,              // c.subIDs
    joining: set<nat>,                // OnChange calls between taking an id and subscribing
    readers: map<nat, nat>,           // completed registrations and the channel each goroutine ranges over
    closing: Option<set<string>>,     // ids a running unsubscribeAll still has to close
    nextSse: nat,                     // s.nextSubscriberID
    handlers: map<nat, Handler>)

  datatype Event =
    | BeginOnChange
    | FinishOnChange(n: nat, bufferSize: nat)
    | BeginUnsubscribeAll
    | CloseOne(n: nat)
    | EndUnsubscribeAll
    | OpenEvents
    | SubscribeEvents(n: nat)
    | LeaveEvents(n: nat)
    | Publish(change: Change)
    | Receive(k: nat)

  predicate Enabled(s: State, e: Event) {
    match e
    case FinishOnChange(n, _) => n in s.joining
    case BeginUnsubscribeAll => s.closing == None
    case CloseOne(n) => s.closing.Some? && OnChangeId(n) in s.closing.value
    case EndUnsubscribeAll => s.closing == Some({})
    case SubscribeEvents(n) => n in s.handlers && s.handlers[n] == Named
    case LeaveEvents(n) => n in s.handlers && s.handlers[n].Listening?
    case _ => true
  }

  function Do(s: State, e: Event): (t: State)
    requires Fanout.InRange(s.bus) && Enabled(s, e)
    ensures Fanout.InRange(t.bus)
  {
    match e
    case BeginOnChange =>
      var n := s.nextSub + 1;
      s.(nextSub := n, subIDs := s.subIDs + {OnChangeId(n)}, joining := s.joining + {n})
    case FinishOnChange(n, size) =>
      s.(bus := Fanout.Next(s.bus, Fanout.Subscribe(OnChangeId(n), size)),
         joining := s.joining - {n},
         readers := s.readers[n := |s.bus.chans|])
    case BeginUnsubscribeAll => s.(closing := Some(s.subIDs), subIDs := {})
    case CloseOne(n) =>
      s.(bus := Fanout.Next(s.bus, Fanout.Unsubscribe(OnChangeId(n))),
         closing := Some(s.closing.value - {OnChangeId(n)}))
    case EndUnsubscribeAll => s.(closing := None)
    case OpenEvents => s.(nextSse := s.nextSse + 1, handlers := s.handlers[s.nextSse + 1 := Named])
    case SubscribeEvents(n) =>
      s.(bus := Fanout.Next(s.bus, Fanout.Subscribe(SseId(n), 10)),
         handlers := s.handlers[n := Listening(|s.bus.chans|)])
    case LeaveEvents(n) =>
      s.(bus := Fanout.Next(s.bus, Fanout.Unsubscribe(SseId(n))), handlers := s.handlers[n := Gone])
    case Publish(c) => s.(bus := Fanout.Next(s.bus, Fanout.Publish(c)))
    case Receive(k) => s.(bus := Fanout.Next(s.bus, Fanout.Receive(k)))
  }

  /** A step that is not enabled leaves the state alone, so every event sequence is a run. */
  function At(tr: seq<Event>): (s: State)
    ensures Fanout.InRange(s.bus)
  {
    if tr == [] then State(Fanout.State([], map[], false), 0, {}, {}, map[], None, 0, map[])
    else
      var s, e := At(tr[..|tr| - 1]), tr[|tr| - 1];
      if Enabled(s, e) then Do(s, e) else s
  }

  /** The registrations an unsubscribeAll reached after they took an id but before they had subscribed. */
  function Missed(tr: seq<Event>): set<nat> {
    if tr == [] then {}
    else
      var s, e := At(tr[..|tr| - 1]), tr[|tr| - 1];
      if e.CloseOne? && Enabled(s, e) && e.n in s.joining
      then Missed(tr[..|tr| - 1]) + {e.n}
      else Missed(tr[..|tr| - 1])
  }

  // ---- the invariant ----

  predicate Listed(s: State, n: nat) {
    OnChangeId(n) in s.subIDs || (s.closing.Some? && OnChangeId(n) in s.closing.value)
  }

  /** The standing of OnChange registration n. */
  predicate Registration(s: State, missed: set<nat>, n: nat) {
    var id := OnChangeId(n);
    if 1 <= n <= s.nextSub then
      && (n in s.joining) != (n in s.readers)
      && !(Listed(s, n) && n in missed)
      && !(id in s.subIDs && s.closing.Some? && id in s.closing.value)
      && (n in s.joining ==> id !in s.bus.subs && (Listed(s, n) || n in missed))
      && (n in s.readers ==>
            var k := s.readers[n];
            && k < |s.bus.chans|
            && (id in s.bus.subs ==> s.bus.subs[id] == k)
            && s.bus.chans[k].open == (id in s.bus.subs) == (Listed(s, n) || n in missed))
    else
      n !in s.joining && n !in s.readers && n !in missed && !Listed(s, n) && id !in s.bus.subs
  }

  /** The standing of /events connection n. */
  predicate Connection(s: State, n: nat) {
    var id := SseId(n);
    if 1 <= n <= s.nextSse then
      && n in s.handlers
      && s.handlers[n].Listening? == (id in s.bus.subs)
      && (s.handlers[n].Listening? ==>
            s.bus.subs[id] == s.handlers[n].k < |s.bus.chans| && s.bus.chans[s.handlers[n].k].cap == 10)
    else
      n !in s.handlers && id !in s.bus.subs
  }

  ghost predicate Inv(s: State, missed: set<nat>) {
    && Fanout.Disciplined(s.bus)
    && (forall n: nat :: Registration(s, missed, n))
    && (forall n: nat :: Connection(s, n))
  }

  function MissedBy(s: State, e: Event, missed: set<nat>): set<nat> {
    if e.CloseOne? && e.n in s.joining then missed + {e.n} else missed
  }

  /** What a bus event does to the map and to which channels are open. */
  lemma BusStep(b: Fanout.State, e: Fanout.Event)
    requires Fanout.Disciplined(b)
    ensures var t := Fanout.Next(b, e);
      && Fanout.Disciplined(t)
      && t.subs == (if e.Subscribe? then b.subs[e.id := |b.chans|]
                    else if e.Unsubscribe? then b.subs - {e.id}
                    else b.subs)
      && |t.chans| == |b.chans| + (if e.Subscribe? then 1 else 0)
      && (e.Subscribe? ==> t.chans[|b.chans|].open && t.chans[|b.chans|].cap == e.cap)
      && (forall k :: 0 <= k < |b.chans| ==> t.chans[k].cap == b.chans[k].cap)
      && (forall k :: 0 <= k < |b.chans| ==>
            t.chans[k].open == (b.chans[k].open && !(e.Unsubscribe? && e.id in b.subs && b.subs[e.id] == k)))
  {
    Fanout.NextDisciplined(b, e);
  }

  /** The bus event behind a step, if there is one. */
  function BusEvent(e: Event): Option<Fanout.Event> {
    match e
    case FinishOnChange(n, size) => Some(Fanout.Subscribe(OnChangeId(n), size))
    case CloseOne(n) => Some(Fanout.Unsubscribe(OnChangeId(n)))
    case SubscribeEvents(n) => Some(Fanout.Subscribe(SseId(n), 10))
    case LeaveEvents(n) => Some(Fanout.Unsubscribe(SseId(n)))
    case Publish(c) => Some(Fanout.Publish(c))
    case Receive(k) => Some(Fanout.Receive(k))
    case _ => None
  }

  lemma RegistrationStep(s: State, e: Event, missed: set<nat>, n: nat)
    requires Fanout.Disciplined(s.bus) && Enabled(s, e) && Registration(s, missed, n)
    ensures Registration(Do(s, e), MissedBy(s, e, missed), n)
  {
    hide OnChangeId, SseId, Fanout.Next;
    match e {
      case BeginOnChange => IdsDistinct(n, s.nextSub + 1);
      case FinishOnChange(m, size) => FinishKeepsRegistration(s, m, size, missed, n);
      case CloseOne(m) => CloseKeepsRegistration(s, m, missed, n);
      case BeginUnsubscribeAll =>
      case EndUnsubscribeAll =>
      case OpenEvents =>
      case SubscribeEvents(m) => HandlerKeepsRegistration(s, e, m, missed, n);
      case LeaveEvents(m) => HandlerKeepsRegistration(s, e, m, missed, n);
      case _ => BusStep(s.bus, BusEvent(e).value);
    }
  }

  lemma FinishKeepsRegistration(s: State, m: nat, size: nat, missed: set<nat>, n: nat)
    requires Fanout.Disciplined(s.bus) && m in s.joining && Registration(s, missed, n)
    ensures Registration(Do(s, FinishOnChange(m, size)), missed, n)
  {
    hide OnChangeId, SseId, Fanout.Next;
    BusStep(s.bus, Fanout.Subscribe(OnChangeId(m), size));
    IdsDistinct(n, m);
  }

  lemma CloseKeepsRegistration(s: State, m: nat, missed: set<nat>, n: nat)
    requires Fanout.Disciplined(s.bus) && Enabled(s, CloseOne(m)) && Registration(s, missed, n)
    ensures Registration(Do(s, CloseOne(m)), MissedBy(s, CloseOne(m), missed), n)
  {
    hide OnChangeId, SseId, Fanout.Next;
    BusStep(s.bus, Fanout.Unsubscribe(OnChangeId(m)));
    IdsDistinct(n, m);
  }

  lemma HandlerKeepsRegistration(s: State, e: Event, m: nat, missed: set<nat>, n: nat)
    requires Fanout.Disciplined(s.bus) && Enabled(s, e) && Registration(s, missed, n)
    requires e == SubscribeEvents(m) || e == LeaveEvents(m)
    ensures Registration(Do(s, e), missed, n)
  {
    hide OnChangeId, SseId, Fanout.Next;
    BusStep(s.bus, BusEvent(e).value);
    IdsDistinct(n, m);
  }

  lemma ConnectionStep(s: State, e: Event, n: nat)
    requires Fanout.Disciplined(s.bus) && Enabled(s, e) && Connection(s, n)
    ensures Connection(Do(s, e), n)
  {
    hide OnChangeId, SseId, Fanout.Next;
    if BusEvent(e).Some? {
      BusStep(s.bus, BusEvent(e).value);
    }
    match e {
      case FinishOnChange(m, size) => IdsDistinct(m, n);
      case CloseOne(m) => IdsDistinct(m, n);
      case SubscribeEvents(m) => IdsDistinct(m, n);
      case LeaveEvents(m) => IdsDistinct(m, n);
      case _ =>
    }
  }

  lemma {:induction false} RunKeepsInv(tr: seq<Event>)
    ensures Inv(At(tr), Missed(tr))
  {
    hide OnChangeId, SseId, Fanout.Next;
    if tr == [] {
    } else {
      var front, e := tr[..|tr| - 1], tr[|tr| - 1];
      RunKeepsInv(front);
      var s := At(front);
      if Enabled(s, e) {
        if BusEvent(e).Some? {
          BusStep(s.bus, BusEvent(e).value);
        }
        forall n: nat ensures Registration(At(tr), Missed(tr), n) && Connection(At(tr), n) {
          RegistrationStep(s, e, Missed(front), n);
          ConnectionStep(s, e, n);
        }
      }
    }
  }

  // ---- what the ids and the registry guarantee ----

  /** Subscribe never overwrites: whenever a step subscribes an id, that id is not in the map. */
  lemma SubscribedIdsAreFresh(tr: seq<Event>, e: Event)
    requires Enabled(At(tr), e) && (e.FinishOnChange? || e.SubscribeEvents?)
    ensures (if e.FinishOnChange? then OnChangeId(e.n) else SseId(e.n)) !in At(tr).bus.subs
  {
    RunKeepsInv(tr);
    assert e.FinishOnChange? ==> Registration(At(tr), Missed(tr), e.n);
    assert e.SubscribeEvents? ==> Connection(At(tr), e.n);
  }

  /** An /events handler that is still looping reads an open channel, its own. */
  lemma EventsHandlerReadsOpenChannel(tr: seq<Event>, n: nat)
    requires var s := At(tr); n in s.handlers && s.handlers[n].Listening?
    ensures var s := At(tr);
      var k := s.handlers[n].k;
      && k < |s.bus.chans| && s.bus.chans[k].open && s.bus.chans[k].cap == 10
      && forall id <- s.bus.subs :: s.bus.subs[id] == k <==> id == SseId(n)
  {
    RunKeepsInv(tr);
    assert Connection(At(tr), n);
  }

  /** No interleaving of registrations, shutdown, connections and traffic panics. */
  lemma RegistryNeverPanics(tr: seq<Event>)
    ensures !At(tr).bus.panicked
  {
    RunKeepsInv(tr);
  }

  /** Once no unsubscribeAll is running, a completed registration that is off the list has been closed,
      except exactly those reached by unsubscribeAll between taking their id and subscribing:
      their channel stays open for good. */
  lemma UnsubscribeAllCloses(tr: seq<Event>, n: nat)
    requires At(tr).closing == None
    requires n in At(tr).readers && OnChangeId(n) !in At(tr).subIDs
    ensures var s := At(tr);
      s.readers[n] < |s.bus.chans| && (s.bus.chans[s.readers[n]].open <==> n in Missed(tr))
  {
    RunKeepsInv(tr);
    assert Registration(At(tr), Missed(tr), n);
  }

  /** A registration still on the list is open: only unsubscribeAll closes it. */
  lemma ListedRegistrationsAreOpen(tr: seq<Event>, n: nat)
    requires n in At(tr).readers && OnChangeId(n) in At(tr).subIDs
    ensures var s := At(tr); s.readers[n] < |s.bus.chans| && s.bus.chans[s.readers[n]].open
  {
    RunKeepsInv(tr);
    assert Registration(At(tr), Missed(tr), n);
  }

  /** The gap is real: shutdown between an OnChange call's two steps leaves its channel open. */
  lemma ShutdownCanMissARegistration()
    ensures var tr := [BeginOnChange, BeginUnsubscribeAll, CloseOne(1), EndUnsubscribeAll, FinishOnChange(1, 100)];
      && 1 in Missed(tr)
      && At(tr).subIDs == {}
      && At(tr).readers == map[1 := 0]
      && |At(tr).bus.chans| == 1 && At(tr).bus.chans[0].open
  {
    var tr := [BeginOnChange, BeginUnsubscribeAll, CloseOne(1), EndUnsubscribeAll, FinishOnChange(1, 100)];
    hide OnChangeId;
    var t1, t2 := [BeginOnChange], [BeginOnChange, BeginUnsubscribeAll];
    var t3, t4 := t2 + [CloseOne(1)], t2 + [CloseOne(1), EndUnsubscribeAll];
    assert t1[..0] == [] && t2[..1] == t1 && t3[..2] == t2 && t4[..3] == t3 && tr[..4] == t4;
    assert At(t1).joining == {1} && At(t1).subIDs == {OnChangeId(1)};
    assert At(t2).closing == Some({OnChangeId(1)});
    assert t3[2] == CloseOne(1) && Enabled(At(t2), t3[2]);
    assert Missed(t2) == {} && Missed(t3) == {1};
    assert At(t3).closing.value == {};
    assert At(t4).joining == {1} && Missed(t4) == {1};
  }
}
