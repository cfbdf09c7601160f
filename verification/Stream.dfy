/** stream.go: the receive loop's side of a session, from a CopyData payload to the routes its changes take. */
module Stream {
  import opened Common
  import opened Decode
  import opened OutboxRows

  /** A CopyData payload after pglogrepl has parsed it. */
  datatype CopyData =
    | Keepalive(serverEnd: nat, replyRequested: bool)
    | XLogData(walStart: nat, serverEnd: nat, len: nat, payload: Message)
    | BadKeepalive
    | BadXLogData
    | OtherKind

  /** One pass of the receive loop: the heartbeat's error is found first, else the receive fails, or a message
      arrives: a payload, the server's error response, or another kind, which is ignored. */
  datatype Turn = HeartbeatFailed | ReceiveFailed | Data(m: CopyData) | ErrorResponse | OtherMessageKind

  datatype StreamError =
    | BadMessage
    | DecodeFailed(error: DecodeError)
    | HandlerFailed
    | HeartbeatError
    | ReceiveError
    | ServerError

  /** An outbox row and whether its topic's queue took it before the back-pressure window closed. */
  datatype Enqueued = Enqueued(row: OutboxRow, accepted: bool)

  /** Whether the queue takes the n-th row; EndToEnd takes the answers from a run of the scheduler. */
  type Accepts = nat -> bool

  function Rows(es: seq<Enqueued>): seq<OutboxRow> {
    if es == [] then [] else Rows(es[..|es| - 1]) + [es[|es| - 1].row]
  }

  function AcceptedCount(es: seq<Enqueued>): nat {
    if es == [] then 0 else AcceptedCount(es[..|es| - 1]) + (if es[|es| - 1].accepted then 1 else 0)
  }

  function TimedOutCount(es: seq<Enqueued>): nat {
    if es == [] then 0 else TimedOutCount(es[..|es| - 1]) + (if es[|es| - 1].accepted then 0 else 1)
  }

  lemma {:induction false} EnqueuedSplits(es: seq<Enqueued>)
    ensures |Rows(es)| == |es| == AcceptedCount(es) + TimedOutCount(es)
  {
    if es != [] {
      EnqueuedSplits(es[..|es| - 1]);
    }
  }

  /** The changes a payload decodes to; none for a keepalive or an error. */
  function ChangesIn(cache: Cache, m: CopyData): seq<Change> {
    if m.XLogData? && Decoded(cache, m.payload).Ok? then Decoded(cache, m.payload).value else []
  }

  /** The error met before any change is routed. */
  function ErrorOf(cache: Cache, m: CopyData): Option<StreamError> {
    match m
    case BadKeepalive => Some(BadMessage)
    case BadXLogData => Some(BadMessage)
    case XLogData(_, _, _, payload) =>
      (match Decoded(cache, payload) case Err(e) => Some(DecodeFailed(e)) case Ok(_) => None)
    case _ => None
  }

  function TurnError(cache: Cache, t: Turn): Option<StreamError> {
    match t
    case HeartbeatFailed => Some(HeartbeatError)
    case ReceiveFailed => Some(ReceiveError)
    case ErrorResponse => Some(ServerError)
    case OtherMessageKind => None
    case Data(m) => ErrorOf(cache, m)
  }

  /** A turn the loop survives, the change handler aside: a message it ignores, a keepalive, or a record whose
      payload decodes. */
  ghost predicate Passes(cache: Cache, t: Turn) {
    || t.OtherMessageKind?
    || (t.Data? && (t.m.OtherKind? || t.m.Keepalive?))
    || (t.Data? && t.m.XLogData? && Decoded(cache, t.m.payload).Ok?)
  }

  /** The error that each kind of failing turn ends the loop with. */
  ghost predicate EndsWith(cache: Cache, t: Turn, err: StreamError) {
    && (t.HeartbeatFailed? ==> err == HeartbeatError)
    && (t.ReceiveFailed? ==> err == ReceiveError)
    && (t.ErrorResponse? ==> err == ServerError)
    && (t.Data? && (t.m.BadKeepalive? || t.m.BadXLogData?) ==> err == BadMessage)
    && (t.Data? && t.m.XLogData? && Decoded(cache, t.m.payload).Err? ==>
          err == DecodeFailed(Decoded(cache, t.m.payload).error))
  }

  lemma TurnErrors(cache: Cache, t: Turn)
    ensures TurnError(cache, t) == None <==> Passes(cache, t)
    ensures TurnError(cache, t).Some? ==> EndsWith(cache, t, TurnError(cache, t).value)
    ensures TurnError(cache, t) != Some(HandlerFailed)
  {
  }

  /** How a turn came out: the loop goes on, or ends with the handler's error, or with the turn's own. */
  ghost predicate Ended(cache: Cache, t: Turn, err: Option<StreamError>) {
    && (err == None ==> Passes(cache, t))
    && (err == Some(HandlerFailed) ==> Passes(cache, t))
    && (err.Some? && err != Some(HandlerFailed) ==> EndsWith(cache, t, err.value) && !Passes(cache, t))
  }

  function TurnChanges(cache: Cache, t: Turn): seq<Change> {
    if t.Data? then ChangesIn(cache, t.m) else []
  }

  /** What handleCopyData returns, given how the changes were routed. */
  function ResultOf(cache: Cache, m: CopyData, r: Routing): Option<StreamError> {
    if r.failed then Some(HandlerFailed) else ErrorOf(cache, m)
  }

  /** Whether the n-th call of the change handler returns an error. */
  type Fails = nat -> bool

  /** How many of a payload's changes were routed, and whether the handler failed on the last of them. */
  datatype Routing = Routing(count: nat, failed: bool)

  /** The handler is called for published changes only, its calls so far numbering n; its first error ends it. */
  function RouteOf(cs: seq<Change>, table: string, unmarshal: Unmarshal, fails: Fails, n: nat): Routing {
    if cs == [] then Routing(0, false)
    else
      var front, c := cs[..|cs| - 1], cs[|cs| - 1];
      var r := RouteOf(front, table, unmarshal, fails, n);
      if r.failed then r
      else
        var published := ToOutboxRow(c, table, unmarshal) == NotOutbox;
        Routing(|cs|, published && fails(n + |Published(front, table, unmarshal)|))
  }

  /** Routing stops at the first published change the handler rejects, and nothing after it is routed. */
  lemma {:induction false} RouteStopsAtFirstFailure(cs: seq<Change>, table: string, unmarshal: Unmarshal, fails: Fails,
                                                    n: nat)
    ensures var r := RouteOf(cs, table, unmarshal, fails, n);
      && r.count <= |cs| && (!r.failed ==> r.count == |cs|)
      && (r.failed <==> exists i: nat :: n <= i < n + |Published(cs, table, unmarshal)| && fails(i))
      && var through := |Published(cs[..r.count], table, unmarshal)|;
         (r.failed ==>
            && through > 0 && fails(n + through - 1) && (forall i: nat :: n <= i < n + through - 1 ==> !fails(i))
            && ToOutboxRow(cs[r.count - 1], table, unmarshal) == NotOutbox)
  {
    hide ToOutboxRow;
    if cs != [] {
      var front := cs[..|cs| - 1];
      RouteStopsAtFirstFailure(front, table, unmarshal, fails, n);
      var r, f := RouteOf(cs, table, unmarshal, fails, n), RouteOf(front, table, unmarshal, fails, n);
      assert cs[..|cs|] == cs;
      var p, q := |Published(front, table, unmarshal)|, |Published(cs, table, unmarshal)|;
      if f.failed {
        assert front[..f.count] == cs[..f.count];
      } else if r.failed {
        assert q == p + 1;
      }
    }
  }

  /** The handler was called for the changes published from the n-th on, and failed at the last of them or not. */
  ghost predicate CallsMade(fails: Fails, n: nat, m: nat, failed: bool) {
    && n <= m
    && (forall i: nat :: n <= i < (if failed then m - 1 else m) ==> !fails(i))
    && (failed ==> n < m && fails(m - 1))
  }

  lemma CallsContinue(fails: Fails, n: nat, m: nat, k: nat, failed: bool)
    requires CallsMade(fails, n, m, false) && CallsMade(fails, m, k, failed)
    ensures CallsMade(fails, n, k, failed)
  {
  }

  lemma TurnEnds(cache: Cache, t: Turn, table: string, unmarshal: Unmarshal, fails: Fails, n: nat)
    ensures var cs := TurnChanges(cache, t);
      var r := RouteOf(cs, table, unmarshal, fails, n);
      && r.count <= |cs| && (!r.failed ==> r.count == |cs|)
      && CallsMade(fails, n, n + |Published(cs[..r.count], table, unmarshal)|, r.failed)
      && Ended(cache, t, if r.failed then Some(HandlerFailed) else TurnError(cache, t))
      && TurnError(cache, t) != Some(HandlerFailed)
  {
    hide RouteOf, Published, TurnError;
    var cs := TurnChanges(cache, t);
    TurnErrors(cache, t);
    RouteStopsAtFirstFailure(cs, table, unmarshal, fails, n);
    if cs != [] {
      ChangesPass(cache, t);
    } else {
      RouteNone(table, unmarshal, fails, n);
    }
    if !RouteOf(cs, table, unmarshal, fails, n).failed {
      assert cs[..|cs|] == cs;
    }
  }

  lemma ChangesPass(cache: Cache, t: Turn)
    requires TurnChanges(cache, t) != []
    ensures Passes(cache, t)
  {
  }

  lemma {:induction false} RouteStops(cs: seq<Change>, k: nat, table: string, unmarshal: Unmarshal, fails: Fails,
                                      n: nat)
    requires k <= |cs| && RouteOf(cs[..k], table, unmarshal, fails, n).failed
    ensures RouteOf(cs, table, unmarshal, fails, n) == RouteOf(cs[..k], table, unmarshal, fails, n)
  {
    if k == |cs| {
      assert cs[..k] == cs;
    } else {
      var front := cs[..|cs| - 1];
      assert front[..k] == cs[..k];
      RouteStops(front, k, table, unmarshal, fails, n);
    }
  }

  lemma RouteOneMore(cs: seq<Change>, k: nat, table: string, unmarshal: Unmarshal, fails: Fails, n: nat)
    requires k < |cs| && RouteOf(cs[..k], table, unmarshal, fails, n) == Routing(k, false)
    ensures var published := ToOutboxRow(cs[k], table, unmarshal) == NotOutbox;
      var failed := published && fails(n + |Published(cs[..k], table, unmarshal)|);
      && RouteOf(cs[..k + 1], table, unmarshal, fails, n) == Routing(k + 1, failed)
      && (failed ==> RouteOf(cs, table, unmarshal, fails, n) == Routing(k + 1, true))
  {
    assert cs[..k + 1][..k] == cs[..k];
    if RouteOf(cs[..k + 1], table, unmarshal, fails, n).failed {
      RouteStops(cs, k + 1, table, unmarshal, fails, n);
    }
  }

  class ReplicationStream {
    const cache: RelationCache
    const metrics: Metrics
    const table: string
    const unmarshal: Unmarshal
    const fails: Fails
    const accepts: Accepts
    var lastLSN: nat
    var serverWALEnd: nat
    var replyNow: bool                 // the one-slot channel holds a token
    var published: seq<Change>         // what went to the broadcaster and the change handler
    var enqueued: seq<Enqueued>        // what went to the outbox queues
    var malformed: nat                 // outbox rows skipped
    var abandoned: nat                 // changes behind one that the handler rejected

    constructor (startLSN: nat, table: string, unmarshal: Unmarshal, fails: Fails, accepts: Accepts)
      ensures Balanced() && fresh(cache) && fresh(metrics)
      ensures lastLSN == startLSN && !replyNow && published == [] && enqueued == [] && malformed == abandoned == 0
      ensures cache.relations == map[] && metrics.changesProcessed == 0
      ensures this.table == table && this.unmarshal == unmarshal && this.fails == fails && this.accepts == accepts
    {
      this.table, this.unmarshal, this.fails, this.accepts := table, unmarshal, fails, accepts;
      cache := new RelationCache();
      metrics := new Metrics();
      lastLSN, serverWALEnd, replyNow := startLSN, 0, false;
      published, enqueued, malformed, abandoned := [], [], 0, 0;
    }

    /** ChangesProcessed = published + rows accepted + rows timed out + malformed rows, and then the changes
        left behind by a failing handler. */
    ghost predicate Balanced()
      reads this, metrics
    {
      && metrics.changesProcessed
           == |published| + AcceptedCount(enqueued) + TimedOutCount(enqueued) + malformed + abandoned
      && Answered()
    }

    /** Each row was accepted or not as its queue answered. */
    ghost predicate Answered()
      reads this
    {
      forall k :: 0 <= k < |enqueued| ==> enqueued[k].accepted == accepts(k)
    }

    /** Hands each change to exactly one of the outbox and the subscribers, in order, until the handler fails. */
    method Route(changes: seq<Change>) returns (r: Routing)
      requires Answered()
      modifies this`published, this`enqueued, this`malformed
      ensures Answered() && r == RouteOf(changes, table, unmarshal, fails, |old(published)|) && r.count <= |changes|
      ensures published == old(published) + Published(changes[..r.count], table, unmarshal)
      ensures Rows(enqueued) == Rows(old(enqueued)) + Queued(changes[..r.count], table, unmarshal)
      ensures malformed == old(malformed) + MalformedCount(changes[..r.count], table, unmarshal)
    {
      hide RouteOf, ToOutboxRow;
      RouteNone(table, unmarshal, fails, |published|);
      assert changes[..0] == [];
      var i := 0;
      while i < |changes|
        invariant i <= |changes| && Answered()
        invariant RouteOf(changes[..i], table, unmarshal, fails, |old(published)|) == Routing(i, false)
        invariant published == old(published) + Published(changes[..i], table, unmarshal)
        invariant Rows(enqueued) == Rows(old(enqueued)) + Queued(changes[..i], table, unmarshal)
        invariant malformed == old(malformed) + MalformedCount(changes[..i], table, unmarshal)
      {
        var c := changes[i];
        RouteOneMore(changes, i, table, unmarshal, fails, |old(published)|);
        OneMoreRouted(changes, i, table, unmarshal);
        i := i + 1;
        match ToOutboxRow(c, table, unmarshal) {
          case Malformed => malformed := malformed + 1;
          case Row(row) => EnqueueRow(row);
          case NotOutbox =>
            published := published + [c];
            if fails(|published| - 1) {
              return Routing(i, true);
            }
        }
      }
      assert changes[..i] == changes;
      return Routing(i, false);
    }

    /** The queue's answer to one more row. */
    method EnqueueRow(row: OutboxRow)
      requires Answered()
      modifies this`enqueued
      ensures Answered() && Rows(enqueued) == Rows(old(enqueued)) + [row]
    {
      ghost var before := enqueued;
      enqueued := enqueued + [Enqueued(row, accepts(|enqueued|))];
      assert enqueued[..|enqueued| - 1] == before;
    }

    method HandleCopyData(m: CopyData) returns (err: Option<StreamError>)
      requires Balanced()
      modifies this, cache, metrics
      ensures Balanced()
      ensures lastLSN == (if m.XLogData? then m.walStart + m.len else old(lastLSN))
      ensures serverWALEnd == (if m.XLogData? || m.Keepalive? then m.serverEnd else old(serverWALEnd))
      ensures replyNow == (old(replyNow) || (m.Keepalive? && m.replyRequested))
      ensures cache.relations == CacheWith(old(cache.relations), Data(m))
      ensures var cs := ChangesIn(old(cache.relations), m);
        var r := RouteOf(cs, table, unmarshal, fails, |old(published)|);
        && r.count <= |cs|
        && err == ResultOf(old(cache.relations), m, r)
        && published == old(published) + Published(cs[..r.count], table, unmarshal)
        && Rows(enqueued) == Rows(old(enqueued)) + Queued(cs[..r.count], table, unmarshal)
        && malformed == old(malformed) + MalformedCount(cs[..r.count], table, unmarshal)
        && abandoned == old(abandoned) + |cs| - r.count
    {
      hide RouteOf;
      RouteNone(table, unmarshal, fails, |published|);
      err := None;
      match m {
        case BadKeepalive => return Some(BadMessage);
        case BadXLogData => return Some(BadMessage);
        case OtherKind =>
        case Keepalive(serverEnd, replyRequested) =>
          serverWALEnd := serverEnd;
          if replyRequested && !replyNow {
            replyNow := true;
          }
        case XLogData(walStart, serverEnd, len, payload) =>
          serverWALEnd := serverEnd;
          lastLSN := walStart + len;
          var d := DecodeMessage(payload, cache, metrics);
          if d.Err? {
            return Some(DecodeFailed(d.error));
          }
          err := RouteAll(d.value);
      }
    }

    /** The loop of handleCopyData over what it decoded: every change counted is a change accounted for. */
    method RouteAll(changes: seq<Change>) returns (err: Option<StreamError>)
      requires metrics.changesProcessed
        == |published| + AcceptedCount(enqueued) + TimedOutCount(enqueued) + malformed + abandoned + |changes|
      requires Answered()
      modifies this`published, this`enqueued, this`malformed, this`abandoned
      ensures Balanced()
      ensures var r := RouteOf(changes, table, unmarshal, fails, |old(published)|);
        && r.count <= |changes|
        && err == (if r.failed then Some(HandlerFailed) else None)
        && published == old(published) + Published(changes[..r.count], table, unmarshal)
        && Rows(enqueued) == Rows(old(enqueued)) + Queued(changes[..r.count], table, unmarshal)
        && malformed == old(malformed) + MalformedCount(changes[..r.count], table, unmarshal)
        && abandoned == old(abandoned) + |changes| - r.count
    {
      EnqueuedSplits(enqueued);
      var r := Route(changes);
      EnqueuedSplits(enqueued);
      EveryChangeIsRoutedOnce(changes[..r.count], table, unmarshal);
      abandoned := abandoned + (|changes| - r.count);
      err := if r.failed then Some(HandlerFailed) else None;
    }

    /** One pass of the heartbeat's select and the status update after it, nothing in between: a tick or a token
        wakes it, a token is used up only if it was the one taken, and the report is the position at that time. */
    method HeartbeatRound(ticked: bool) returns (report: nat)
      requires ticked || replyNow
      modifies this`replyNow
      ensures report == lastLSN
      ensures replyNow ==> old(replyNow)
      ensures old(replyNow) && !ticked ==> !replyNow
    {
      var takeToken: bool := *;
      if !ticked || (replyNow && takeToken) {
        replyNow := false;
      }
      report := lastLSN;
    }

    /** One session's receive loop, up to its first error: what was routed is what the payloads received decode to,
        short of the changes abandoned in the last one. It is still running when the turns run out. */
    method Run(turns: seq<Turn>) returns (err: Option<StreamError>, handled: nat)
      requires Balanced() && abandoned == 0
      modifies this, cache, metrics
      ensures Balanced()
      ensures handled <= |turns| && (err == None ==> handled == |turns|)
      ensures cache.relations == CacheThrough(old(cache.relations), turns[..handled])
      ensures Passed(old(cache.relations), turns[..handled], err)
      ensures CallsMade(fails, |old(published)|, |published|, err == Some(HandlerFailed))
      ensures err != Some(HandlerFailed) ==> abandoned == 0
      ensures RoutedAll(AllChanges(old(cache.relations), turns[..handled]), abandoned, old(published), published,
                        Rows(old(enqueued)), Rows(enqueued), table, unmarshal)
    {
      hide ChangesIn, TurnChanges, CacheThrough, AllChanges, Published, Queued, RouteOf;
      hide Passed, CallsMade, RoutedAll, TurnError, Ended;
      assert turns[..0] == [];
      NothingYet(cache.relations, published, Rows(enqueued), table, unmarshal, fails);
      err, handled := None, 0;
      ghost var cache0 := cache.relations;
      while handled < |turns| && err == None
        invariant handled <= |turns| && Balanced()
        invariant cache.relations == CacheThrough(cache0, turns[..handled])
        invariant Passed(cache0, turns[..handled], err)
        invariant CallsMade(fails, |old(published)|, |published|, err == Some(HandlerFailed))
        invariant err != Some(HandlerFailed) ==> abandoned == 0
        invariant RoutedAll(AllChanges(cache0, turns[..handled]), abandoned, old(published), published,
                            Rows(old(enqueued)), Rows(enqueued), table, unmarshal)
        decreases |turns| - handled
      {
        ghost var done, turn := turns[..handled], turns[handled];
        ghost var published0, rows0 := published, Rows(enqueued);
        assert done + [turn] == turns[..handled + 1];
        TurnAppended(cache0, done, turn);
        err := TakeTurn(turns[handled]);
        PassedOneMore(cache0, done, turn, err);
        CallsContinue(fails, |old(published)|, |published0|, |published|, err == Some(HandlerFailed));
        RoutedOneMore(AllChanges(cache0, done), TurnChanges(CacheThrough(cache0, done), turn), abandoned,
                      old(published), published0, published,
                      Rows(old(enqueued)), rows0, Rows(enqueued), table, unmarshal);
        handled := handled + 1;
      }
    }

    method TakeTurn(t: Turn) returns (err: Option<StreamError>)
      requires Balanced()
      modifies this, cache, metrics
      ensures Balanced()
      ensures cache.relations == CacheWith(old(cache.relations), t)
      ensures Ended(old(cache.relations), t, err)
      ensures CallsMade(fails, |old(published)|, |published|, err == Some(HandlerFailed))
      ensures err != Some(HandlerFailed) ==> abandoned == old(abandoned)
      ensures abandoned >= old(abandoned)
      ensures RoutedAll(TurnChanges(old(cache.relations), t), abandoned - old(abandoned), old(published), published,
                        Rows(old(enqueued)), Rows(enqueued), table, unmarshal)
    {
      hide RouteOf, Ended, CallsMade, Published, Queued, MalformedCount, ErrorOf, ChangesIn, CacheAfter;
      TurnEnds(cache.relations, t, table, unmarshal, fails, |published|);
      NoChanges(table, unmarshal, fails, |published|);
      match t {
        case HeartbeatFailed => err := Some(HeartbeatError);
        case ReceiveFailed => err := Some(ReceiveError);
        case ErrorResponse => err := Some(ServerError);
        case OtherMessageKind => err := None;
        case Data(m) => err := HandleCopyData(m);
      }
    }
  }

  function CacheWith(cache: Cache, t: Turn): Cache {
    if t.Data? && t.m.XLogData? then CacheAfter(cache, t.m.payload) else cache
  }

  /** The relation cache after a run of turns. */
  function CacheThrough(cache: Cache, ts: seq<Turn>): Cache {
    if ts == [] then cache else CacheWith(CacheThrough(cache, ts[..|ts| - 1]), ts[|ts| - 1])
  }

  function AllChanges(cache: Cache, ts: seq<Turn>): seq<Change> {
    if ts == [] then []
    else
      AllChanges(cache, ts[..|ts| - 1]) + TurnChanges(CacheThrough(cache, ts[..|ts| - 1]), ts[|ts| - 1])
  }

  /** The messages carried by the records received, in order. */
  function PayloadsOf(ts: seq<Turn>): seq<Message> {
    if ts == [] then []
    else
      var t := ts[|ts| - 1];
      PayloadsOf(ts[..|ts| - 1]) + (if t.Data? && t.m.XLogData? then [t.m.payload] else [])
  }

  /** What a session routes is what its messages decode to, one after the other, each against those before it. */
  lemma {:induction false} ChangesAreDecoded(ts: seq<Turn>)
    ensures CacheThrough(map[], ts) == CacheOf(PayloadsOf(ts))
    ensures AllChanges(map[], ts) == Flattened(Results(PayloadsOf(ts)))
  {
    hide Decoded, Results, Flattened, CacheOf;
    if ts == [] {
      NoMessages();
    } else {
      var front, t := ts[..|ts| - 1], ts[|ts| - 1];
      ChangesAreDecoded(front);
      if t.Data? && t.m.XLogData? {
        OneMoreMessage(PayloadsOf(front), t.m.payload);
      } else {
        assert PayloadsOf(ts) == PayloadsOf(front);
      }
    }
  }

  lemma {:induction false} RoutesConcatenate(a: seq<Change>, b: seq<Change>, table: string, unmarshal: Unmarshal)
    ensures Published(a + b, table, unmarshal) == Published(a, table, unmarshal) + Published(b, table, unmarshal)
    ensures Queued(a + b, table, unmarshal) == Queued(a, table, unmarshal) + Queued(b, table, unmarshal)
  {
    if b == [] {
      assert a + b == a;
    } else {
      assert (a + b)[..|a + b| - 1] == a + b[..|b| - 1];
      RoutesConcatenate(a, b[..|b| - 1], table, unmarshal);
    }
  }

  lemma RoutesConcatenateTo(a: seq<Change>, b: seq<Change>, k: nat, table: string, unmarshal: Unmarshal)
    requires k <= |b|
    ensures Published((a + b)[..|a| + k], table, unmarshal)
         == Published(a, table, unmarshal) + Published(b[..k], table, unmarshal)
    ensures Queued((a + b)[..|a| + k], table, unmarshal)
         == Queued(a, table, unmarshal) + Queued(b[..k], table, unmarshal)
  {
    assert (a + b)[..|a| + k] == a + b[..k];
    RoutesConcatenate(a, b[..k], table, unmarshal);
  }

  lemma RouteNone(table: string, unmarshal: Unmarshal, fails: Fails, n: nat)
    ensures RouteOf([], table, unmarshal, fails, n) == Routing(0, false)
  {
  }

  lemma NoChanges(table: string, unmarshal: Unmarshal, fails: Fails, n: nat)
    ensures Published([], table, unmarshal) == [] && Queued([], table, unmarshal) == []
    ensures RouteOf([], table, unmarshal, fails, n) == Routing(0, false)
  {
  }

  lemma NothingYet(cache: Cache, published: seq<Change>, rows: seq<OutboxRow>, table: string, unmarshal: Unmarshal,
                   fails: Fails)
    ensures CacheThrough(cache, []) == cache && Passed(cache, [], None)
    ensures CallsMade(fails, |published|, |published|, false)
    ensures RoutedAll(AllChanges(cache, []), 0, published, published, rows, rows, table, unmarshal)
  {
  }

  /** Where the next change goes. */
  lemma OneMoreRouted(cs: seq<Change>, k: nat, table: string, unmarshal: Unmarshal)
    requires k < |cs|
    ensures var to := ToOutboxRow(cs[k], table, unmarshal);
      && Published(cs[..k + 1], table, unmarshal)
           == Published(cs[..k], table, unmarshal) + (if to == NotOutbox then [cs[k]] else [])
      && Queued(cs[..k + 1], table, unmarshal) == Queued(cs[..k], table, unmarshal) + (if to.Row? then [to.row] else [])
      && MalformedCount(cs[..k + 1], table, unmarshal)
           == MalformedCount(cs[..k], table, unmarshal) + (if to == Malformed then 1 else 0)
  {
    hide ToOutboxRow;
    assert cs[..k + 1][..k] == cs[..k];
  }

  lemma TurnAppended(cache: Cache, ts: seq<Turn>, t: Turn)
    ensures CacheThrough(cache, ts + [t]) == CacheWith(CacheThrough(cache, ts), t)
    ensures AllChanges(cache, ts + [t]) == AllChanges(cache, ts) + TurnChanges(CacheThrough(cache, ts), t)
  {
    assert (ts + [t])[..|ts|] == ts;
  }

  /** Every turn before the last was survived, and the last one came out as err says. */
  ghost predicate Passed(cache: Cache, ts: seq<Turn>, err: Option<StreamError>) {
    && (forall k :: 0 <= k < |ts| - 1 ==> Passes(CacheThrough(cache, ts[..k]), ts[k]))
    && (if ts == [] then err == None else Ended(CacheThrough(cache, ts[..|ts| - 1]), ts[|ts| - 1], err))
  }

  lemma PassedOneMore(cache: Cache, ts: seq<Turn>, t: Turn, err: Option<StreamError>)
    requires Passed(cache, ts, None) && Ended(CacheThrough(cache, ts), t, err)
    ensures Passed(cache, ts + [t], err)
  {
    hide CacheThrough, Passes, Ended;
    var us := ts + [t];
    forall k | 0 <= k < |us| - 1 ensures Passes(CacheThrough(cache, us[..k]), us[k]) {
      assert us[..k] == ts[..k] && us[k] == ts[k];
      if k == |ts| - 1 {
        EndedWell(CacheThrough(cache, ts[..k]), ts[k]);
      }
    }
    assert us[..|us| - 1] == ts;
  }

  lemma EndedWell(cache: Cache, t: Turn)
    requires Ended(cache, t, None)
    ensures Passes(cache, t)
  {
  }

  /** All changes but the last ones, lost in number, were published or queued since, in order. */
  ghost predicate RoutedAll(all: seq<Change>, lost: nat, published0: seq<Change>, published: seq<Change>,
                            rows0: seq<OutboxRow>, rows: seq<OutboxRow>, table: string, unmarshal: Unmarshal)
  {
    && lost <= |all|
    && published == published0 + Published(all[..|all| - lost], table, unmarshal)
    && rows == rows0 + Queued(all[..|all| - lost], table, unmarshal)
  }

  lemma RoutedOneMore(all: seq<Change>, cs: seq<Change>, lost: nat, p0: seq<Change>, p1: seq<Change>, p2: seq<Change>,
                      r0: seq<OutboxRow>, r1: seq<OutboxRow>, r2: seq<OutboxRow>, table: string, unmarshal: Unmarshal)
    requires RoutedAll(all, 0, p0, p1, r0, r1, table, unmarshal)
    requires RoutedAll(cs, lost, p1, p2, r1, r2, table, unmarshal)
    ensures RoutedAll(all + cs, lost, p0, p2, r0, r2, table, unmarshal)
  {
    hide Published, Queued;
    assert all[..|all| - 0] == all;
    RoutesConcatenateTo(all, cs, |cs| - lost, table, unmarshal);
  }
}
