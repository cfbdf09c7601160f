/** stream.go and outbox.go together: the receive loop's balance against the scheduler's counters. */
module EndToEnd {
  import opened Common
  import opened OutboxRows
  import opened Outbox
  import OutboxRuns
  import Stream

  // ---- rows waiting in the queues ----

  ghost function Backlog(topics: map<string, Topic>): nat
    decreases |topics.Keys|
  {
    if topics.Keys == {} then 0
    else
      var t :| t in topics.Keys;
      assert (topics - {t}).Keys == topics.Keys - {t};
      |topics[t].queue| + Backlog(topics - {t})
  }

  lemma {:induction false} BacklogAnyOrder(topics: map<string, Topic>, t: string)
    requires t in topics
    ensures Backlog(topics) == |topics[t].queue| + Backlog(topics - {t})
    decreases |topics.Keys|
  {
    var x :| x in topics.Keys && Backlog(topics) == |topics[x].queue| + Backlog(topics - {x});
    if x != t {
      assert (topics - {x}).Keys == topics.Keys - {x};
      assert (topics - {t}).Keys == topics.Keys - {t};
      BacklogAnyOrder(topics - {x}, t);
      BacklogAnyOrder(topics - {t}, x);
      assert topics - {x} - {t} == topics - {t} - {x};
    }
  }

  lemma BacklogUpdated(topics: map<string, Topic>, t: string, x: Topic)
    ensures Backlog(topics[t := x])
         == Backlog(topics) + |x.queue| - (if t in topics then |topics[t].queue| else 0)
  {
    BacklogAnyOrder(topics[t := x], t);
    assert topics[t := x] - {t} == topics - {t};
    if t in topics {
      BacklogAnyOrder(topics, t);
    } else {
      assert topics - {t} == topics;
    }
  }

  function PushedCount(fs: seq<Fate>): nat {
    if fs == [] then 0 else PushedCount(fs[..|fs| - 1]) + (if fs[|fs| - 1].pushed then 1 else 0)
  }

  /** A step changes at most one topic's queue: by the row pushed, or the row taken. */
  lemma QueuesStep(s: State, e: Event)
    requires Enabled(s, e)
    ensures var t, d := OutboxRuns.TopicOf(s, e), Do(s, e);
      && (d.topics == s.topics || (t in d.topics && d.topics == s.topics[t := d.topics[t]]))
      && (t in d.topics ==>
            |d.topics[t].queue| == (if t in s.topics then |s.topics[t].queue| else 0)
                                   + (if e == Push then 1 else 0) - (if e.Take? then 1 else 0))
      && (e == Push || e.Take? ==> t in d.topics && t in s.topics)
  {
  }

  lemma StepKeepsBacklog(s: State, e: Event)
    requires Enabled(s, e)
    ensures Backlog(Do(s, e).topics) == Backlog(s.topics) + (if e == Push then 1 else 0) - (if e.Take? then 1 else 0)
  {
    hide Do, Backlog;
    QueuesStep(s, e);
    var t, d := OutboxRuns.TopicOf(s, e), Do(s, e);
    if t in d.topics {
      BacklogUpdated(s.topics, t, d.topics[t]);
    }
  }

  /** Rows pushed = rows taken by drainers + rows still queued. */
  lemma {:induction false} PushedAreTakenOrQueued(tr: seq<Event>)
    ensures PushedCount(Fates(tr)) == Taken(tr) + Backlog(Run(tr).topics)
  {
    hide Do, Enabled;
    if tr != [] {
      var front, e := tr[..|tr| - 1], tr[|tr| - 1];
      PushedAreTakenOrQueued(front);
      if Enabled(Run(front), e) {
        StepKeepsBacklog(Run(front), e);
        assert e == Push || e == TimeOut ==> Fates(tr)[..|Fates(tr)| - 1] == Fates(front);
      }
    }
  }

  // ---- the stream and the scheduler ----

  /** Run tr is what the scheduler made of the rows the stream enqueued, and gave the answers the stream got. */
  ghost predicate Answers(tr: seq<Event>, es: seq<Stream.Enqueued>, accepts: Stream.Accepts) {
    && Handled(tr) == Stream.Rows(es)
    && Run(tr).producer == Idle
    && (forall k :: 0 <= k < |Fates(tr)| ==> accepts(k) == Fates(tr)[k].pushed)
    && (forall k :: 0 <= k < |es| ==> es[k].accepted == accepts(k))
  }

  lemma {:induction false} RowsAt(es: seq<Stream.Enqueued>)
    ensures |Stream.Rows(es)| == |es| && forall k :: 0 <= k < |es| ==> Stream.Rows(es)[k] == es[k].row
  {
    if es != [] {
      RowsAt(es[..|es| - 1]);
    }
  }

  lemma {:induction false} FateRowsAt(fs: seq<Fate>)
    ensures |FateRows(fs)| == |fs| && forall k :: 0 <= k < |fs| ==> FateRows(fs)[k] == fs[k].row
  {
    if fs != [] {
      FateRowsAt(fs[..|fs| - 1]);
    }
  }

  lemma {:induction false} SameCounts(es: seq<Stream.Enqueued>, fs: seq<Fate>)
    requires |es| == |fs| && forall k :: 0 <= k < |es| ==> es[k].accepted == fs[k].pushed
    ensures Stream.AcceptedCount(es) == PushedCount(fs)
  {
    if es != [] {
      SameCounts(es[..|es| - 1], fs[..|fs| - 1]);
    }
  }

  /** Row by row the stream's record of the outbox is the scheduler's: same rows, same order, same fates. */
  lemma RowsMeetTheirFates(tr: seq<Event>, es: seq<Stream.Enqueued>, accepts: Stream.Accepts)
    requires Answers(tr, es, accepts)
    ensures |es| == |Fates(tr)|
    ensures forall k :: 0 <= k < |es| ==> es[k] == Stream.Enqueued(Fates(tr)[k].row, Fates(tr)[k].pushed)
  {
    OutboxRuns.HandledRowsHaveFates(tr);
    RowsAt(es);
    FateRowsAt(Fates(tr));
    assert Handled(tr) == FateRows(Fates(tr));
  }

  /** A row the stream had accepted is delivered, failed, cancelled, in flight or still queued. */
  lemma AcceptedRowsAreSomewhere(tr: seq<Event>, es: seq<Stream.Enqueued>, accepts: Stream.Accepts)
    requires Answers(tr, es, accepts)
    ensures var s := Run(tr);
      Stream.AcceptedCount(es) == s.delivered + s.failed + CountOf(s.log, Cancelled) + s.inflight + Backlog(s.topics)
  {
    RowsMeetTheirFates(tr, es, accepts);
    SameCounts(es, Fates(tr));
    PushedAreTakenOrQueued(tr);
    OutboxRuns.RowsTakenAreAccountedFor(tr);
  }

  /** Every change the stream has counted, from decoding to delivery: ChangesProcessed = published + malformed +
      abandoned + timed out + delivered + failed + cancelled + in flight + queued. */
  lemma EveryChangeIsSomewhere(stream: Stream.ReplicationStream, tr: seq<Event>)
    requires stream.Balanced() && Answers(tr, stream.enqueued, stream.accepts)
    ensures var s := Run(tr);
      stream.metrics.changesProcessed
        == |stream.published| + stream.malformed + stream.abandoned + Stream.TimedOutCount(stream.enqueued)
           + s.delivered + s.failed + CountOf(s.log, Cancelled) + s.inflight + Backlog(s.topics)
  {
    AcceptedRowsAreSomewhere(tr, stream.enqueued, stream.accepts);
  }
}
