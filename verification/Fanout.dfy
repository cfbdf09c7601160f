/** Whole runs of a broadcaster: any interleaving of subscribe, unsubscribe, publish and receive. */
module Fanout {
  import opened Common
  import opened Decode
  import opened Broadcast

  /** Channels are numbered in the order they are made; Receive is an attempt, void on an empty buffer. */
  datatype Event =
    | Subscribe(id: string, cap: nat)
    | Unsubscribe(id: string)
    | Publish(change: Change)
    | Receive(k: nat)

  /** panicked records a send on, or a second close of, a closed channel. */
  datatype State = State(chans: seq<Chan>, subs: map<string, nat>, panicked: bool)

  predicate InRange(s: State) {
    forall id <- s.subs :: s.subs[id] < |s.chans|
  }

  function Registered(s: State): set<nat> {
    set id | id in s.subs :: s.subs[id]
  }

  function Take(ch: Chan): Chan {
    if ch.buf == [] then ch else ch.(buf := ch.buf[1..])
  }

  function Publishes(s: State, c: Change): State
    requires InRange(s)
  {
    var to := Registered(s);
    State(seq(|s.chans|, k requires 0 <= k < |s.chans| => if k in to then Offer(s.chans[k], c) else s.chans[k]),
          s.subs,
          s.panicked || exists k <- to :: !s.chans[k].open)
  }

  function Next(s: State, e: Event): (t: State)
    requires InRange(s)
    ensures InRange(t)
  {
    match e
    case Subscribe(id, cap) =>
      s.(chans := s.chans + [Chan(cap, [], true, 0)], subs := s.subs[id := |s.chans|])
    case Unsubscribe(id) =>
      if id !in s.subs then s
      else
        var k := s.subs[id];
        State(s.chans[k := s.chans[k].(open := false)], s.subs - {id}, s.panicked || !s.chans[k].open)
    case Publish(c) => Publishes(s, c)
    case Receive(k) =>
      if k < |s.chans| then s.(chans := s.chans[k := Take(s.chans[k])]) else s
  }

  function Run(tr: seq<Event>): (s: State)
    ensures InRange(s)
  {
    if tr == [] then State([], map[], false) else Next(Run(tr[..|tr| - 1]), tr[|tr| - 1])
  }

  // ---- channel discipline ----

  ghost predicate Disciplined(s: State) {
    && InRange(s)
    && !s.panicked
    && (forall id <- s.subs :: s.chans[s.subs[id]].open)
    && (forall a <- s.subs, b <- s.subs :: s.subs[a] == s.subs[b] ==> a == b)
    && (forall k :: 0 <= k < |s.chans| ==> |s.chans[k].buf| <= s.chans[k].cap)
  }

  lemma NextDisciplined(s: State, e: Event)
    requires Disciplined(s)
    ensures Disciplined(Next(s, e))
  {
    hide Publishes;
    if e.Publish? {
      PublishDisciplined(s, e.change);
    }
  }

  lemma PublishDisciplined(s: State, c: Change)
    requires Disciplined(s)
    ensures Disciplined(Publishes(s, c))
  {
  }

  /** No run sends on or closes a closed channel; the map holds open channels only, each under one id. */
  lemma {:induction false} NeverPanics(tr: seq<Event>)
    ensures Disciplined(Run(tr))
  {
    if tr != [] {
      NeverPanics(tr[..|tr| - 1]);
      NextDisciplined(Run(tr[..|tr| - 1]), tr[|tr| - 1]);
    }
  }

  /** A closed channel is out of the map, so it is never sent to again: only its reader can touch it. */
  lemma ClosedStaysClosed(tr: seq<Event>, e: Event, k: nat)
    requires k < |Run(tr).chans| && !Run(tr).chans[k].open
    ensures var s, t := Run(tr), Run(tr + [e]);
      k < |t.chans| && !t.chans[k].open && t.chans[k] == if e == Receive(k) then Take(s.chans[k]) else s.chans[k]
  {
    NeverPanics(tr);
    assert (tr + [e])[..|tr|] == tr;
  }

  // ---- conservation ----

  /** What channel k has handed to its reader. */
  function Received(tr: seq<Event>, k: nat): seq<Change> {
    if tr == [] then []
    else
      var front, e := tr[..|tr| - 1], tr[|tr| - 1];
      var s := Run(front);
      if e == Receive(k) && k < |s.chans| && s.chans[k].buf != []
      then Received(front, k) + [s.chans[k].buf[0]]
      else Received(front, k)
  }

  /** The changes published since id last subscribed, read off the events alone. */
  function PublishedSince(tr: seq<Event>, id: string): seq<Change> {
    if tr == [] then []
    else
      var front := tr[..|tr| - 1];
      match tr[|tr| - 1]
      case Subscribe(x, _) => if x == id then [] else PublishedSince(front, id)
      case Publish(c) => PublishedSince(front, id) + [c]
      case _ => PublishedSince(front, id)
  }

  lemma {:induction false} NothingReceivedBeforeMade(tr: seq<Event>, k: nat)
    requires k >= |Run(tr).chans|
    ensures Received(tr, k) == []
  {
    if tr != [] {
      NothingReceivedBeforeMade(tr[..|tr| - 1], k);
    }
  }

  /** What one event does to the channel of a subscriber that stays registered. */
  lemma ChannelStep(s: State, e: Event, id: string)
    requires Disciplined(s) && id in s.subs && id in Next(s, e).subs && !(e.Subscribe? && e.id == id)
    ensures Next(s, e).subs[id] == s.subs[id]
    ensures var k := s.subs[id];
      Next(s, e).chans[k] ==
        if e.Publish? then Offer(s.chans[k], e.change) else if e == Receive(k) then Take(s.chans[k]) else s.chans[k]
  {
  }

  lemma ConservationStep(front: seq<Event>, e: Event, id: string)
    requires id in Run(front).subs && id in Run(front + [e]).subs && !(e.Subscribe? && e.id == id)
    requires Conserved(front, id)
    ensures Conserved(front + [e], id)
  {
    var tr, s := front + [e], Run(front);
    assert tr[..|tr| - 1] == front;
    NeverPanics(front);
    ChannelStep(s, e, id);
    var k := s.subs[id];
    var got, buf, all := Received(front, k), s.chans[k].buf, PublishedSince(front, id);
    if e.Publish? {
      assert Received(tr, k) == got && PublishedSince(tr, id) == all + [e.change];
      if |buf| < s.chans[k].cap {
        assert got + (buf + [e.change]) == (got + buf) + [e.change];
        SubsequenceTake(got + buf, all, e.change);
      } else {
        SubsequenceSkip(got + buf, all, e.change);
      }
    } else {
      assert PublishedSince(tr, id) == all;
      if e == Receive(k) && buf != [] {
        assert (got + [buf[0]]) + buf[1..] == got + buf;
      }
    }
  }

  /** Published = received + buffered + dropped, and what got through is in publication order. */
  ghost predicate Conserved(tr: seq<Event>, id: string)
    requires id in Run(tr).subs
  {
    var k := Run(tr).subs[id];
    var ch := Run(tr).chans[k];
    && |PublishedSince(tr, id)| == |Received(tr, k)| + |ch.buf| + ch.dropped
    && Subsequence(Received(tr, k) + ch.buf, PublishedSince(tr, id))
  }

  lemma {:induction false} Conservation(tr: seq<Event>, id: string)
    requires id in Run(tr).subs
    ensures Conserved(tr, id)
  {
    var front, e := tr[..|tr| - 1], tr[|tr| - 1];
    var k := Run(tr).subs[id];
    assert tr == front + [e];
    if e.Subscribe? && e.id == id {
      NothingReceivedBeforeMade(front, k);
      assert Received(tr, k) + Run(tr).chans[k].buf == [];
    } else {
      Conservation(front, id);
      ConservationStep(front, e, id);
    }
  }

  /** A publish is lost for a subscriber exactly when that subscriber's buffer is full. */
  lemma DropOnlyWhenFull(tr: seq<Event>, c: Change, id: string)
    requires id in Run(tr).subs
    ensures var k := Run(tr).subs[id];
      var before, after := Run(tr).chans[k], Run(tr + [Publish(c)]).chans[k];
      if |before.buf| == before.cap
      then after == before.(dropped := before.dropped + 1)
      else after == before.(buf := before.buf + [c])
  {
    NeverPanics(tr);
    assert (tr + [Publish(c)])[..|tr|] == tr;
  }

  // ---- bigger buffers never hurt ----

  /** tr2 is tr1 with every buffer at least as large. */
  ghost predicate Widened(tr1: seq<Event>, tr2: seq<Event>) {
    |tr1| == |tr2| && forall i :: 0 <= i < |tr1| ==> WidensEvent(tr1[i], tr2[i])
  }

  ghost predicate WidensEvent(e: Event, f: Event) {
    e == f || (e.Subscribe? && f.Subscribe? && e.id == f.id && e.cap <= f.cap)
  }

  /** Event i put its change into channel k's buffer. */
  predicate Accepted(tr: seq<Event>, i: nat, k: nat)
    requires i < |tr|
  {
    var s := Run(tr[..i]);
    tr[i].Publish? && k in Registered(s) && |s.chans[k].buf| < s.chans[k].cap
  }

  ghost predicate Ahead(a: Chan, b: Chan) {
    && a.open == b.open
    && 0 <= |b.buf| - |a.buf| <= b.cap - a.cap
    && |a.buf| <= a.cap
    && b.dropped <= a.dropped
  }

  ghost predicate Simulates(s: State, t: State) {
    && InRange(s)
    && s.subs == t.subs
    && |s.chans| == |t.chans|
    && forall k :: 0 <= k < |s.chans| ==> Ahead(s.chans[k], t.chans[k])
  }

  lemma PublishSimulates(s: State, t: State, c: Change)
    requires Simulates(s, t)
    ensures Simulates(Publishes(s, c), Publishes(t, c))
  {
  }

  lemma StepSimulates(s: State, t: State, e: Event, f: Event)
    requires Simulates(s, t) && WidensEvent(e, f)
    ensures Simulates(Next(s, e), Next(t, f))
  {
    hide Publishes;
    if e.Publish? {
      PublishSimulates(s, t, e.change);
    }
  }

  lemma {:induction false} WideRunSimulates(tr1: seq<Event>, tr2: seq<Event>)
    requires Widened(tr1, tr2)
    ensures Simulates(Run(tr1), Run(tr2))
  {
    hide Next, WidensEvent;
    if tr1 != [] {
      var n := |tr1| - 1;
      WideRunSimulates(tr1[..n], tr2[..n]);
      StepSimulates(Run(tr1[..n]), Run(tr2[..n]), tr1[n], tr2[n]);
    }
  }

  /** In the same interleaving, whatever a buffer accepts a larger one accepts too,
      and no subscriber drops more. */
  lemma BiggerBuffersAcceptMore(tr1: seq<Event>, tr2: seq<Event>)
    requires Widened(tr1, tr2)
    ensures forall i, k: nat :: 0 <= i < |tr1| && Accepted(tr1, i, k) ==> Accepted(tr2, i, k)
    ensures Run(tr1).subs == Run(tr2).subs && |Run(tr1).chans| == |Run(tr2).chans|
    ensures forall k :: 0 <= k < |Run(tr1).chans| ==> Run(tr2).chans[k].dropped <= Run(tr1).chans[k].dropped
  {
    WideRunSimulates(tr1, tr2);
    forall i, k: nat | 0 <= i < |tr1| && Accepted(tr1, i, k) ensures Accepted(tr2, i, k) {
      WideRunSimulates(tr1[..i], tr2[..i]);
    }
  }

  // ---- the class follows the run ----

  /** The active part of a state, as the broadcaster's own map holds it. */
  function Active(s: State): map<string, Chan>
    requires InRange(s)
  {
    map id | id in s.subs :: s.chans[s.subs[id]]
  }

  lemma PublishFollowsRun(s: State, c: Change)
    requires Disciplined(s)
    ensures Active(Publishes(s, c)) == OfferAll(Active(s), c)
  {
  }

  lemma UnsubscribeFollowsRun(s: State, id: string)
    requires Disciplined(s) && id in s.subs
    ensures Active(Next(s, Unsubscribe(id))) == Active(s) - {id}
  {
  }

  /** Each broadcaster method changes the active map exactly as the run's event does. */
  lemma MethodsFollowRun(s: State, e: Event)
    requires Disciplined(s) && !e.Receive?
    ensures Active(Next(s, e)) ==
      if e.Subscribe? then Active(s)[e.id := Chan(e.cap, [], true, 0)]
      else if e.Unsubscribe? then Active(s) - {e.id}
      else OfferAll(Active(s), e.change)
  {
    hide Publishes, OfferAll;
    if e.Publish? {
      PublishFollowsRun(s, e.change);
    } else if e.Unsubscribe? && e.id in s.subs {
      UnsubscribeFollowsRun(s, e.id);
    }
  }
}
