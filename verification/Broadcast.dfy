/** broadcast.go: bounded fan-out that drops for a full subscriber instead of stalling the stream. */
module Broadcast {
  import opened Common
  import opened Decode

  /** A subscriber's buffered channel together with its drop counter. */
  datatype Chan = Chan(cap: nat, buf: seq<Change>, open: bool, dropped: nat)

  /** The non-blocking send of Publish. */
  function Offer(ch: Chan, c: Change): Chan {
    if |ch.buf| < ch.cap then ch.(buf := ch.buf + [c]) else ch.(dropped := ch.dropped + 1)
  }

  function OfferAll(subs: map<string, Chan>, c: Change): map<string, Chan> {
    map id | id in subs :: Offer(subs[id], c)
  }

  lemma AllOffered(before: map<string, Chan>, after: map<string, Chan>, c: Change)
    requires after.Keys == before.Keys && forall id <- before :: after[id] == Offer(before[id], c)
    ensures after == OfferAll(before, c)
  {
  }

  ghost function TotalDropped(subs: map<string, Chan>): nat
    decreases |subs.Keys|
  {
    if subs.Keys == {} then 0
    else
      var id :| id in subs.Keys;
      assert (subs - {id}).Keys == subs.Keys - {id};
      subs[id].dropped + TotalDropped(subs - {id})
  }

  lemma NothingDropped()
    ensures TotalDropped(map[]) == 0
  {
  }

  function SumDropped(subs: map<string, Chan>, ids: seq<string>): nat
    requires forall id <- ids :: id in subs
  {
    if ids == [] then 0 else subs[ids[0]].dropped + SumDropped(subs, ids[1..])
  }

  lemma {:induction false} SameSum(a: map<string, Chan>, b: map<string, Chan>, ids: seq<string>)
    requires forall id <- ids :: id in a && id in b && a[id] == b[id]
    ensures SumDropped(a, ids) == SumDropped(b, ids)
  {
    if ids != [] {
      SameSum(a, b, ids[1..]);
    }
  }

  /** In whatever order all subscribers are listed, each once, the total is the sum of their counters. */
  lemma {:induction false} TotalIsSum(subs: map<string, Chan>, ids: seq<string>)
    requires forall i, j :: 0 <= i < j < |ids| ==> ids[i] != ids[j]
    requires forall id: string :: id in ids <==> id in subs
    ensures TotalDropped(subs) == SumDropped(subs, ids)
  {
    if ids == [] {
      assert subs == map[];
      NothingDropped();
    } else {
      var rest := subs - {ids[0]};
      assert ids == [ids[0]] + ids[1..] && ids[0] in ids;
      TotalDroppedAnyOrder(subs, ids[0]);
      TotalIsSum(rest, ids[1..]);
      SameSum(subs, rest, ids[1..]);
    }
  }

  /** The total does not depend on the order in which the map is walked. */
  lemma {:induction false} TotalDroppedAnyOrder(subs: map<string, Chan>, id: string)
    requires id in subs
    ensures TotalDropped(subs) == subs[id].dropped + TotalDropped(subs - {id})
    decreases |subs.Keys|
  {
    var x :| x in subs.Keys && TotalDropped(subs) == subs[x].dropped + TotalDropped(subs - {x});
    hide TotalDropped;
    if x != id {
      FewerKeys(subs, x);
      FewerKeys(subs, id);
      TotalDroppedAnyOrder(subs - {x}, id);
      TotalDroppedAnyOrder(subs - {id}, x);
      assert subs - {x} - {id} == subs - {id} - {x};
    }
  }

  lemma FewerKeys(subs: map<string, Chan>, id: string)
    requires id in subs
    ensures (subs - {id}).Keys == subs.Keys - {id} && |(subs - {id}).Keys| < |subs.Keys|
  {
  }

  /** A Go channel of changes; sending on or closing a closed one would panic. */
  class Channel {
    const cap: nat
    var buf: seq<Change>
    var closed: bool

    constructor (cap: nat)
      ensures this.cap == cap && buf == [] && !closed
    {
      this.cap := cap;
      buf := [];
      closed := false;
    }

    method TrySend(c: Change) returns (sent: bool)
      requires !closed
      modifies this
      ensures sent == (|old(buf)| < cap)
      ensures buf == if sent then old(buf) + [c] else old(buf)
      ensures closed == old(closed)
    {
      sent := |buf| < cap;
      if sent {
        buf := buf + [c];
      }
    }

    method Close()
      requires !closed
      modifies this
      ensures closed && buf == old(buf)
    {
      closed := true;
    }
  }

  /** One subscriber's channel and drop counter; the pair never leaves the broadcaster's map. */
  datatype Subscription = Subscription(ch: Channel, dropped: nat)

  ghost function View(sub: Subscription): Chan
    reads sub.ch
  {
    Chan(sub.ch.cap, sub.ch.buf, !sub.ch.closed, sub.dropped)
  }

  predicate SameChannels(a: map<string, Subscription>, b: map<string, Subscription>) {
    a.Keys == b.Keys && forall id <- a :: a[id].ch == b[id].ch
  }

  class Broadcaster {
    var subscribers: map<string, Subscription>

    ghost function Channels(): set<Channel>
      reads this
    {
      set id | id in subscribers :: subscribers[id].ch
    }

    /** Registered channels are open, and no two ids share one. */
    ghost predicate Valid()
      reads this, Channels()
    {
      && (forall id <- subscribers :: !subscribers[id].ch.closed)
      && (forall a <- subscribers, b <- subscribers :: subscribers[a].ch == subscribers[b].ch ==> a == b)
    }

    ghost function Contents(): (m: map<string, Chan>)
      reads this, Channels()
      ensures m.Keys == subscribers.Keys
    {
      map id | id in subscribers :: View(subscribers[id])
    }

    constructor ()
      ensures Valid() && subscribers == map[]
    {
      subscribers := map[];
    }

    method Subscribe(id: string, bufferSize: nat) returns (ch: Channel)
      requires Valid()
      modifies this
      ensures Valid() && fresh(ch)
      ensures subscribers == old(subscribers)[id := Subscription(ch, 0)]
      ensures Contents() == old(Contents())[id := Chan(bufferSize, [], true, 0)]
    {
      ch := new Channel(bufferSize);
      subscribers := subscribers[id := Subscription(ch, 0)];
    }

    method Unsubscribe(id: string)
      requires Valid()
      modifies this, if id in subscribers then {subscribers[id].ch} else {}
      ensures Valid()
      ensures subscribers == old(subscribers) - {id}
      ensures Contents() == old(Contents()) - {id}
      ensures id in old(subscribers) ==>
        var ch := old(subscribers[id].ch); ch.closed && ch.buf == old(subscribers[id].ch.buf)
    {
      if id in subscribers {
        subscribers[id].ch.Close();
        subscribers := subscribers - {id};
      }
    }

    /** The select of Publish: send if there is room, count a drop otherwise. */
    method Send(id: string, change: Change)
      requires Valid() && id in subscribers
      modifies this, subscribers[id].ch
      ensures Valid()
      ensures SameChannels(old(subscribers), subscribers)
      ensures forall x <- subscribers ::
        View(subscribers[x]) == if x == id then Offer(old(View(subscribers[id])), change) else old(View(subscribers[x]))
    {
      var sub := subscribers[id];
      var sent := sub.ch.TrySend(change);
      if !sent {
        subscribers := subscribers[id := sub.(dropped := sub.dropped + 1)];
      }
    }

    /** Whatever order the map is walked in, every subscriber gets exactly one non-blocking send. */
    method Publish(change: Change)
      requires Valid()
      modifies this, Channels()
      ensures Valid() && SameChannels(old(subscribers), subscribers)
      ensures Contents() == OfferAll(old(Contents()), change)
    {
      hide OfferAll;
      var todo := subscribers.Keys;
      ghost var before := Contents();
      while todo != {}
        invariant todo <= subscribers.Keys == before.Keys
        invariant Valid() && SameChannels(old(subscribers), subscribers)
        invariant forall id <- subscribers ::
          View(subscribers[id]) == (if id in todo then before[id] else Offer(before[id], change))
      {
        var id :| id in todo;
        assert subscribers[id].ch in old(Channels()) by {
          assert old(subscribers)[id].ch == subscribers[id].ch;
        }
        Send(id, change);
        todo := todo - {id};
      }
      AllOffered(before, Contents(), change);
    }

    method ChangesDropped() returns (total: nat)
      ensures total == TotalDropped(Contents())
    {
      total := 0;
      var todo := subscribers.Keys;
      ghost var left := Contents();
      while todo != {}
        invariant todo == left.Keys <= subscribers.Keys
        invariant forall id <- todo :: left[id].dropped == subscribers[id].dropped
        invariant total + TotalDropped(left) == TotalDropped(Contents())
      {
        var id :| id in todo;
        TotalDroppedAnyOrder(left, id);
        total := total + subscribers[id].dropped;
        todo := todo - {id};
        left := left - {id};
      }
    }
  }
}
