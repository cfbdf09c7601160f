/** cdc.go: the client that owns the broadcaster, its OnChange registrations and the reconnect loop. */
module Cdc {
  import opened Common
  import opened Broadcast
  import Registry

  /** A Go error chain: sentinels, a server-side SQL error with its SQLSTATE, anything else, or a wrapper. */
  datatype Error = Canceled | DeadlineExceeded | Pg(code: string) | Plain | Wrapped(inner: Error)

  /** errors.Is for a sentinel. */
  predicate Is(e: Error, target: Error) {
    e == target || (e.Wrapped? && Is(e.inner, target))
  }

  /** errors.As for *pgconn.PgError. */
  function AsPg(e: Error): Option<string> {
    match e
    case Pg(code) => Some(code)
    case Wrapped(inner) => AsPg(inner)
    case _ => None
  }

  const TRANSIENT := {"08000", "08001", "08003", "08006", "53300", "57P01", "57P02", "57P03", "57P04"}

  predicate Retryable(err: Option<Error>) {
    && err.Some?
    && !Is(err.value, Canceled)
    && !Is(err.value, DeadlineExceeded)
    && (AsPg(err.value).Some? ==> AsPg(err.value).value in TRANSIENT)
  }

  /** The error at the bottom of a chain. */
  function Innermost(e: Error): Error {
    if e.Wrapped? then Innermost(e.inner) else e
  }

  /** A failure worth reconnecting for, said of the innermost error: a server error with one of nine SQLSTATEs
      (connection exceptions, too many connections, operator intervention), or any error that is neither the
      server's nor the context's. */
  predicate Transient(e: Error) {
    match Innermost(e)
    case Canceled => false
    case DeadlineExceeded => false
    case Pg(code) =>
      || code == "08000" || code == "08001" || code == "08003" || code == "08006"
      || code == "53300"
      || code == "57P01" || code == "57P02" || code == "57P03" || code == "57P04"
    case _ => true
  }

  /** However deeply an error is wrapped, the answer is the one for the error inside. */
  lemma {:induction false} RetryableIfTransient(e: Error)
    ensures Retryable(Some(e)) <==> Transient(e)
    ensures Retryable(Some(Wrapped(e))) <==> Retryable(Some(e))
  {
    if e.Wrapped? {
      RetryableIfTransient(e.inner);
    }
  }

  /** The loop goes on after a session that ended so. */
  predicate GoesOn(e: SessionEnd) {
    e.err.Some? && !e.ctxDone && Transient(e.err.value)
  }

  lemma RetriesIfGoesOn(e: SessionEnd)
    ensures Retries(e) <==> GoesOn(e)
  {
    if e.err.Some? {
      RetryableIfTransient(e.err.value);
    }
  }

  /** How one session and the wait after it went: what runOnce returned, whether ctx was done by then, and
      whether the backoff ran its course (it ends early only when ctx is done). */
  datatype SessionEnd = SessionEnd(err: Option<Error>, ctxDone: bool, slept: bool)

  predicate Retries(e: SessionEnd) {
    e.err.Some? && !e.ctxDone && Retryable(e.err)
  }

  /** The k-th wait in seconds, counting from 0. */
  function Wait(k: nat): nat {
    if Pow2(k) <= 30 then Pow2(k) else 30
  }

  /** 1, 2, 4, 8, 16 and from then on 30. */
  lemma {:induction false} WaitIsCapped(k: nat)
    ensures Wait(0) == 1 && (Wait(k) == 30 <==> k >= 5)
    ensures Wait(k + 1) == if 2 * Wait(k) <= 30 then 2 * Wait(k) else 30
  {
    if k > 5 {
      WaitIsCapped(k - 1);
    } else if k == 5 {
      assert Pow2(5) == 2 * Pow2(4) == 4 * Pow2(3);
    } else {
      assert k == 4 ==> Pow2(4) == 2 * Pow2(3);
    }
  }

  lemma OneMoreGone<V>(m: map<string, V>, all: set<string>, ids: set<string>, id: string)
    requires id in ids && ids <= all
    ensures m - (all - ids) - {id} == m - (all - (ids - {id}))
  {
  }

  class CDC {
    const broadcaster: Broadcaster
    const bufferSize: nat
    var subIDs: set<string>
    var nextSubID: nat

    constructor (bufferSize: int)
      ensures fresh(broadcaster) && broadcaster.Valid() && broadcaster.subscribers == map[]
      ensures subIDs == {} && nextSubID == 0
      ensures this.bufferSize == if bufferSize <= 0 then 100 else bufferSize
    {
      broadcaster := new Broadcaster();
      this.bufferSize := if bufferSize <= 0 then 100 else bufferSize;
      subIDs, nextSubID := {}, 0;
    }

    method OnChange() returns (ch: Channel)
      requires broadcaster.Valid()
      modifies this, broadcaster
      ensures broadcaster.Valid() && fresh(ch)
      ensures nextSubID == old(nextSubID) + 1
      ensures subIDs == old(subIDs) + {Registry.OnChangeId(nextSubID)}
      ensures var id := Registry.OnChangeId(nextSubID);
        && broadcaster.subscribers == old(broadcaster.subscribers)[id := Subscription(ch, 0)]
        && broadcaster.Contents() == old(broadcaster.Contents())[id := Chan(bufferSize, [], true, 0)]
    {
      hide Registry.OnChangeId;
      nextSubID := nextSubID + 1;
      var id := Registry.OnChangeId(nextSubID);
      subIDs := subIDs + {id};
      ch := broadcaster.Subscribe(id, bufferSize);
    }

    /** Closes every listed registration that is in the broadcaster, in whatever order the set is walked,
        and leaves everything else alone. */
    method UnsubscribeAll()
      requires broadcaster.Valid()
      modifies this`subIDs, broadcaster, broadcaster.Channels()
      ensures broadcaster.Valid() && subIDs == {}
      ensures broadcaster.subscribers == old(broadcaster.subscribers) - old(subIDs)
      ensures broadcaster.Contents() == old(broadcaster.Contents()) - old(subIDs)
      ensures forall id <- old(subIDs) ::
        id in old(broadcaster.subscribers) ==> old(broadcaster.subscribers[id]).ch.closed
    {
      hide Broadcaster.Valid, Broadcaster.Contents;
      var ids := subIDs;
      subIDs := {};
      ghost var subs, contents := broadcaster.subscribers, broadcaster.Contents();
      while ids != {}
        invariant ids <= old(subIDs) && subIDs == {}
        invariant broadcaster.Valid()
        invariant broadcaster.subscribers == subs - (old(subIDs) - ids)
        invariant broadcaster.Contents() == contents - (old(subIDs) - ids)
        invariant forall id <- old(subIDs) - ids :: id in subs ==> subs[id].ch.closed
        decreases ids
      {
        var id :| id in ids;
        OneMoreGone(subs, old(subIDs), ids, id);
        OneMoreGone(contents, old(subIDs), ids, id);
        if id in broadcaster.subscribers {
          assert broadcaster.subscribers[id].ch == subs[id].ch && subs[id].ch in old(broadcaster.Channels());
        }
        broadcaster.Unsubscribe(id);
        ids := ids - {id};
      }
      assert old(subIDs) - ids == old(subIDs);
    }

    /** The reconnect loop over the session outcomes it meets. It is still running when they run out
        (finished is false); ctx may also become done while the registrations are being closed (doneLater). */
    method Start(ends: seq<SessionEnd>, doneLater: bool)
      returns (finished: bool, waits: seq<nat>, ran: nat, result: Option<Error>)
      requires broadcaster.Valid()
      modifies this`subIDs, broadcaster, broadcaster.Channels()
      ensures broadcaster.Valid()
      ensures ran <= |ends| && (!finished ==> ran == |ends|) && (finished ==> ran > 0)
      ensures forall i :: 0 <= i < ran - 1 ==> GoesOn(ends[i]) && ends[i].slept
      ensures finished <==> ran > 0 && !(GoesOn(ends[ran - 1]) && ends[ran - 1].slept)
      ensures |waits| == if finished && !GoesOn(ends[ran - 1]) then ran - 1 else ran
      ensures forall k :: 0 <= k < |waits| ==> waits[k] == Wait(k)
      ensures result.Some? ==>
        && finished && !doneLater
        && !ends[ran - 1].ctxDone && result == ends[ran - 1].err && !Transient(result.value)
      ensures finished && result == None ==>
        doneLater || ends[ran - 1].ctxDone || GoesOn(ends[ran - 1]) || ends[ran - 1].err == None
      ensures finished ==>
        && subIDs == {}
        && broadcaster.Contents() == old(broadcaster.Contents()) - old(subIDs)
        && forall id <- old(subIDs) :: id in old(broadcaster.subscribers) ==> old(broadcaster.subscribers[id]).ch.closed
      ensures !finished ==> subIDs == old(subIDs) && broadcaster.Contents() == old(broadcaster.Contents())
    {
      finished, waits, ran, result := false, [], 0, None;
      var backoff := 1;
      var ctxDone := false;
      var lastErr: Option<Error> := None;
      while ran < |ends| && !finished
        invariant ran <= |ends|
        invariant forall i :: 0 <= i < ran - 1 ==> GoesOn(ends[i]) && ends[i].slept
        invariant finished <==> ran > 0 && !(GoesOn(ends[ran - 1]) && ends[ran - 1].slept)
        invariant |waits| == if finished && !GoesOn(ends[ran - 1]) then ran - 1 else ran
        invariant forall k :: 0 <= k < |waits| ==> waits[k] == Wait(k)
        invariant !finished ==> backoff == Wait(|waits|)
        invariant ran > 0 ==> lastErr == ends[ran - 1].err
        invariant finished ==> ctxDone == (ends[ran - 1].ctxDone || GoesOn(ends[ran - 1]))
        decreases |ends| - ran, !finished
        modifies {}
      {
        var e := ends[ran];
        RetriesIfGoesOn(e);
        ran := ran + 1;
        lastErr := e.err;
        if lastErr == None || e.ctxDone || !Retryable(lastErr) {
          finished, ctxDone := true, e.ctxDone;
        } else {
          waits := waits + [backoff];
          if !e.slept {
            finished, ctxDone := true, true;
          } else {
            WaitIsCapped(|waits| - 1);
            backoff := if backoff * 2 <= 30 then backoff * 2 else 30;
          }
        }
      }
      if finished {
        UnsubscribeAll();
        if !(ctxDone || doneLater) {
          result := lastErr;
        }
      }
    }
  }
}
