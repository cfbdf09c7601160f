/** cmd/phylax/main.go: webhook delivery behind an OnChange buffer. The broadcaster offers changes to the
    subscription; the callback goroutine takes a semaphore slot for each and starts a poster. */
module Webhook {
  import opened Common
  import opened Decode
  import opened Broadcast

  const CONCURRENCY := 5
  const ATTEMPTS := 3

  /** The OnChange goroutine: ranging, blocked on the semaphore, or about to start a poster. */
  datatype Callback = Ranging | Blocked(change: Change) | Acquired(change: Change)

  /** A poster goroutine: n POSTs made so far, done but still holding its slot, or ended. */
  datatype Poster = Posting(change: Change, posts: nat) | Finished | Ended

  /** A change that is through, with the number of POSTs it took. */
  datatype Through = Through(change: Change, posts: nat)

  datatype State = State(
    sub: Chan,
    callback: Callback,
    sem: nat,
    posters: seq<Poster>,
    lost: seq<Change>,           // the changes behind the drop counter
    delivered: seq<Through>,
    givenUp: seq<Through>)

  datatype Event =
    | Publish(change: Change)
    | Unsubscribe
    | Range
    | Acquire
    | Go
    | MarshalFails(i: nat)
    | PostSucceeds(i: nat)
    | PostFails(i: nat)
    | Release(i: nat)

  predicate IsPosting(s: State, i: nat) {
    i < |s.posters| && s.posters[i].Posting?
  }

  predicate Enabled(s: State, e: Event) {
    match e
    case Publish(_) => s.sub.open
    case Unsubscribe => s.sub.open
    case Range => s.callback == Ranging && s.sub.buf != []
    case Acquire => s.callback.Blocked? && s.sem < CONCURRENCY
    case Go => s.callback.Acquired?
    case MarshalFails(i) => IsPosting(s, i) && s.posters[i].posts == 0
    case PostSucceeds(i) => IsPosting(s, i) && s.posters[i].posts < ATTEMPTS
    case PostFails(i) => IsPosting(s, i) && s.posters[i].posts < ATTEMPTS
    case Release(i) => i < |s.posters| && s.posters[i] == Finished && s.sem > 0
  }

  function Do(s: State, e: Event): State
    requires Enabled(s, e)
  {
    match e
    case Publish(c) =>
      s.(sub := Offer(s.sub, c), lost := if |s.sub.buf| < s.sub.cap then s.lost else s.lost + [c])
    case Unsubscribe => s.(sub := s.sub.(open := false))
    case Range => s.(sub := s.sub.(buf := s.sub.buf[1..]), callback := Blocked(s.sub.buf[0]))
    case Acquire => s.(sem := s.sem + 1, callback := Acquired(s.callback.change))
    case Go => s.(posters := s.posters + [Posting(s.callback.change, 0)], callback := Ranging)
    case MarshalFails(i) =>
      s.(posters := s.posters[i := Finished], givenUp := s.givenUp + [Through(s.posters[i].change, 0)])
    case PostSucceeds(i) =>
      var p := s.posters[i];
      s.(posters := s.posters[i := Finished], delivered := s.delivered + [Through(p.change, p.posts + 1)])
    case PostFails(i) =>
      var p := s.posters[i];
      if p.posts + 1 < ATTEMPTS then s.(posters := s.posters[i := Posting(p.change, p.posts + 1)])
      else s.(posters := s.posters[i := Finished], givenUp := s.givenUp + [Through(p.change, p.posts + 1)])
    case Release(i) => s.(posters := s.posters[i := Ended], sem := s.sem - 1)
  }

  function Next(s: State, e: Event): State {
    if Enabled(s, e) then Do(s, e) else s
  }

  /** A run from a fresh subscription with a buffer of size cap; steps that are not enabled change nothing. */
  function Run(cap: nat, tr: seq<Event>): State {
    if tr == [] then State(Chan(cap, [], true, 0), Ranging, 0, [], [], [], [])
    else Next(Run(cap, tr[..|tr| - 1]), tr[|tr| - 1])
  }

  /** The changes published while subscribed. */
  function Published(cap: nat, tr: seq<Event>): seq<Change> {
    if tr == [] then []
    else
      var front, e := tr[..|tr| - 1], tr[|tr| - 1];
      if e.Publish? && Enabled(Run(cap, front), e) then Published(cap, front) + [e.change] else Published(cap, front)
  }

  // ---- counting one change, or all of them ----

  /** None counts every change, Some(c) only the occurrences of c. */
  type Which = Option<Change>

  function One(w: Which, c: Change): nat {
    if w == None || w.value == c then 1 else 0
  }

  function Count(w: Which, cs: seq<Change>): nat {
    if cs == [] then 0 else Count(w, cs[..|cs| - 1]) + One(w, cs[|cs| - 1])
  }

  function Held(w: Which, c: Callback): nat {
    if c == Ranging then 0 else One(w, c.change)
  }

  function Own(w: Which, p: Poster): nat {
    if p.Posting? then One(w, p.change) else 0
  }

  function InFlight(w: Which, ps: seq<Poster>): nat {
    if ps == [] then 0 else InFlight(w, ps[..|ps| - 1]) + Own(w, ps[|ps| - 1])
  }

  function Slot(p: Poster): nat {
    if p == Ended then 0 else 1
  }

  /** How many posters hold a slot. */
  function Slots(ps: seq<Poster>): nat {
    if ps == [] then 0 else Slots(ps[..|ps| - 1]) + Slot(ps[|ps| - 1])
  }

  function Done(w: Which, ts: seq<Through>): nat {
    if ts == [] then 0 else Done(w, ts[..|ts| - 1]) + One(w, ts[|ts| - 1].change)
  }

  lemma {:induction false} PosterChanged(w: Which, ps: seq<Poster>, i: nat, p: Poster)
    requires i < |ps|
    ensures InFlight(w, ps[i := p]) + Own(w, ps[i]) == InFlight(w, ps) + Own(w, p)
    ensures Slots(ps[i := p]) + Slot(ps[i]) == Slots(ps) + Slot(p)
  {
    var n := |ps| - 1;
    if i == n {
      assert ps[i := p][..n] == ps[..n];
    } else {
      assert ps[i := p][..n] == ps[..n][i := p];
      PosterChanged(w, ps[..n], i, p);
    }
  }

  lemma {:induction false} CountFirst(w: Which, cs: seq<Change>)
    requires cs != []
    ensures Count(w, cs) == One(w, cs[0]) + Count(w, cs[1..])
  {
    if |cs| > 1 {
      CountFirst(w, cs[..|cs| - 1]);
      assert cs[1..][..|cs| - 2] == cs[..|cs| - 1][1..];
    }
  }

  /** All places a change can be in. */
  function Whole(w: Which, s: State): nat {
    Count(w, s.lost) + Count(w, s.sub.buf) + Held(w, s.callback) + InFlight(w, s.posters)
      + Done(w, s.delivered) + Done(w, s.givenUp)
  }

  ghost predicate Sound(s: State) {
    && s.sub.dropped == |s.lost|
    && |s.sub.buf| <= s.sub.cap
    && s.sem == Slots(s.posters) + (if s.callback.Acquired? then 1 else 0) <= CONCURRENCY
    && (forall i :: 0 <= i < |s.posters| && s.posters[i].Posting? ==> s.posters[i].posts < ATTEMPTS)
    && (forall t <- s.delivered :: 1 <= t.posts <= ATTEMPTS)
    && (forall t <- s.givenUp :: t.posts == 0 || t.posts == ATTEMPTS)
  }

  /** A poster ends, its change going to delivered or to given up. */
  lemma EndConserves(w: Which, s: State, i: nat, t: Through, ok: bool)
    requires Sound(s) && IsPosting(s, i) && t.change == s.posters[i].change
    requires if ok then 1 <= t.posts <= ATTEMPTS else t.posts == 0 || t.posts == ATTEMPTS
    ensures var n := s.(posters := s.posters[i := Finished],
                        delivered := if ok then s.delivered + [t] else s.delivered,
                        givenUp := if ok then s.givenUp else s.givenUp + [t]);
      Sound(n) && Whole(w, n) == Whole(w, s)
  {
    PosterChanged(w, s.posters, i, Finished);
    assert (s.delivered + [t])[..|s.delivered|] == s.delivered;
    assert (s.givenUp + [t])[..|s.givenUp|] == s.givenUp;
  }

  lemma SlotEventConserves(w: Which, s: State, i: nat, p: Poster)
    requires Sound(s) && i < |s.posters|
    requires (s.posters[i] == Finished && p == Ended && s.sem > 0)
      || (IsPosting(s, i) && p.Posting? && p.change == s.posters[i].change && p.posts < ATTEMPTS)
    ensures var n := s.(posters := s.posters[i := p], sem := if p == Ended then s.sem - 1 else s.sem);
      Sound(n) && Whole(w, n) == Whole(w, s)
  {
    PosterChanged(w, s.posters, i, p);
  }

  lemma PosterEventConserves(w: Which, s: State, e: Event)
    requires Sound(s) && Enabled(s, e) && (e.MarshalFails? || e.PostSucceeds? || e.PostFails? || e.Release?)
    ensures Sound(Do(s, e)) && Whole(w, Do(s, e)) == Whole(w, s)
  {
    hide Sound, Whole;
    if e.Release? {
      SlotEventConserves(w, s, e.i, Ended);
    } else {
      var p := s.posters[e.i];
      if e.MarshalFails? {
        EndConserves(w, s, e.i, Through(p.change, 0), false);
      } else if e.PostSucceeds? {
        EndConserves(w, s, e.i, Through(p.change, p.posts + 1), true);
      } else if p.posts + 1 < ATTEMPTS {
        SlotEventConserves(w, s, e.i, Posting(p.change, p.posts + 1));
      } else {
        EndConserves(w, s, e.i, Through(p.change, p.posts + 1), false);
      }
    }
  }

  lemma CallbackEventConserves(w: Which, s: State, e: Event)
    requires Sound(s) && Enabled(s, e) && (e == Unsubscribe || e == Range || e == Acquire || e == Go)
    ensures Sound(Do(s, e)) && Whole(w, Do(s, e)) == Whole(w, s)
  {
    if e == Go {
      assert Do(s, e).posters[..|s.posters|] == s.posters;
    } else if e == Range {
      CountFirst(w, s.sub.buf);
    }
  }

  lemma PublishConserves(w: Which, s: State, c: Change)
    requires Sound(s) && Enabled(s, Publish(c))
    ensures Sound(Do(s, Publish(c))) && Whole(w, Do(s, Publish(c))) == Whole(w, s) + One(w, c)
  {
  }

  /** At every step of every run, each published change is in exactly one place: dropped, buffered, in the
      callback's hand, in flight, delivered or given up. Holds change by change, and in total. */
  lemma {:induction false} EveryChangeHasOnePlace(w: Which, cap: nat, tr: seq<Event>)
    ensures Sound(Run(cap, tr))
    ensures Count(w, Published(cap, tr)) == Whole(w, Run(cap, tr))
  {
    hide Do, Enabled, Sound, Whole;
    if tr == [] {
      NothingYet(w, cap);
    } else {
      var front, e := tr[..|tr| - 1], tr[|tr| - 1];
      EveryChangeHasOnePlace(w, cap, front);
      var s := Run(cap, front);
      if Enabled(s, e) {
        if e.Publish? {
          PublishConserves(w, s, e.change);
          assert Published(cap, tr)[..|Published(cap, front)|] == Published(cap, front);
        } else if e == Unsubscribe || e == Range || e == Acquire || e == Go {
          CallbackEventConserves(w, s, e);
        } else {
          PosterEventConserves(w, s, e);
        }
      }
    }
  }

  lemma NothingYet(w: Which, cap: nat)
    ensures Sound(Run(cap, [])) && Whole(w, Run(cap, [])) == 0
  {
  }

  lemma {:induction false} CountAll(cs: seq<Change>, ts: seq<Through>)
    ensures Count(None, cs) == |cs| && Done(None, ts) == |ts|
    decreases |cs| + |ts|
  {
    if cs != [] {
      CountAll(cs[..|cs| - 1], ts);
    } else if ts != [] {
      CountAll(cs, ts[..|ts| - 1]);
    }
  }

  lemma {:induction false} InFlightBounded(ps: seq<Poster>)
    ensures InFlight(None, ps) <= Slots(ps)
  {
    if ps != [] {
      InFlightBounded(ps[..|ps| - 1]);
    }
  }

  /** The callback is held up exactly while five posters hold their slots. */
  lemma BlockedIffFiveSlotsHeld(cap: nat, tr: seq<Event>)
    requires Run(cap, tr).callback.Blocked?
    ensures Slots(Run(cap, tr).posters) <= 5
    ensures Enabled(Run(cap, tr), Acquire) <==> Slots(Run(cap, tr).posters) < 5
  {
    EveryChangeHasOnePlace(None, cap, tr);
  }

  /** In numbers, with the drop counter the metrics report: at most one change is held, at most 5 are in
      flight, and none takes more than three POSTs. */
  lemma WebhookConservation(cap: nat, tr: seq<Event>)
    ensures var s := Run(cap, tr);
      && |Published(cap, tr)| == s.sub.dropped + |s.sub.buf| + Held(None, s.callback) + InFlight(None, s.posters)
                                   + |s.delivered| + |s.givenUp|
      && Held(None, s.callback) <= 1 && InFlight(None, s.posters) <= 5
      && (forall t <- s.delivered :: 1 <= t.posts <= 3) && (forall t <- s.givenUp :: t.posts == 0 || t.posts == 3)
  {
    EveryChangeHasOnePlace(None, cap, tr);
    var s := Run(cap, tr);
    CountAll(Published(cap, tr), s.delivered);
    CountAll(s.lost, s.givenUp);
    CountAll(s.sub.buf, []);
    InFlightBounded(s.posters);
  }

  /** postWithRetry. sends(i) is the outcome of POST i; each failure, the last one too, is followed by a sleep
      of i seconds. */
  method PostWithRetry(marshals: bool, sends: nat -> bool) returns (delivered: bool, posts: nat, slept: nat)
    ensures !marshals ==> !delivered && posts == slept == 0
    ensures marshals ==> 1 <= posts <= 3
    ensures delivered <==> marshals && exists i: nat :: 1 <= i <= 3 && sends(i)
    ensures delivered ==> sends(posts)
    ensures forall i: nat :: 1 <= i < posts ==> !sends(i)
    ensures marshals && !delivered ==> posts == 3
    ensures 2 * slept == if delivered then (posts - 1) * posts else posts * (posts + 1)
  {
    posts, slept := 0, 0;
    if !marshals {
      return false, 0, 0;
    }
    var attempt := 1;
    while attempt <= ATTEMPTS
      invariant 1 <= attempt <= ATTEMPTS + 1 && posts == attempt - 1
      invariant forall i: nat :: 1 <= i < attempt ==> !sends(i)
      invariant 2 * slept == posts * (posts + 1)
    {
      posts := posts + 1;
      if sends(attempt) {
        return true, posts, slept;
      }
      slept := slept + attempt;
      attempt := attempt + 1;
    }
    delivered := false;
  }
}
