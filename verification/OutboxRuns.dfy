/** What every schedule of the outbox keeps: order and conservation per topic, the semaphore, the counters. */
module OutboxRuns {
  import opened Common
  import opened OutboxRows
  import opened Outbox

  // ---- each handled row meets one fate ----

  lemma ProducerStep(s: State, e: Event)
    requires Enabled(s, e)
    ensures var p, q := InHand(s.producer), InHand(Do(s, e).producer);
      if e.Enqueue? then p == [] && q == [e.row]
      else if e == Push || e == TimeOut then p == [s.producer.row] && q == []
      else q == p
  {
  }

  lemma OneMoreFate(fs: seq<Fate>, f: Fate)
    ensures FateRows(fs + [f]) == FateRows(fs) + [f.row]
  {
    assert (fs + [f])[..|fs|] == fs;
  }

  /** Handle never loses track of a row: those handled so far are those pushed or dropped, in order,
      and then the one in the receive loop's hands. */
  lemma {:induction false} HandledRowsHaveFates(tr: seq<Event>)
    ensures Handled(tr) == FateRows(Fates(tr)) + InHand(Run(tr).producer)
  {
    hide Do, FateRows, InHand;
    if tr == [] {
      NoRowsYet();
    } else {
      var front, e := tr[..|tr| - 1], tr[|tr| - 1];
      HandledRowsHaveFates(front);
      var s := Run(front);
      if Enabled(s, e) {
        ProducerStep(s, e);
        if e == Push || e == TimeOut {
          OneMoreFate(Fates(front), Fate(s.producer.row, e == Push));
        }
      }
    }
  }

  lemma NoRowsYet()
    ensures FateRows([]) + InHand(Idle) == []
  {
  }

  // ---- the semaphore and the gauge ----

  predicate IsLive(d: Drainer) {
    d == Ready || d.Busy?
  }

  function Live(s: State): set<string> {
    set t | t in s.topics && IsLive(s.topics[t].drainer)
  }

  function Delivering(s: State): set<string> {
    set t | t in s.topics && s.topics[t].drainer.Busy?
  }

  function Held(p: Producer): nat {
    if p.Spawning? then 1 else 0
  }

  /** Slots held = live drainers + one for a drainer being started; the gauge = drainers inside a delivery. */
  ghost predicate Tallied(s: State) {
    s.tokens == |Live(s)| + Held(s.producer) <= MAX_DRAINERS && s.inflight == |Delivering(s)|
  }

  /** A drainer is missing only while the receive loop is starting it; none ends while ctx is live. */
  ghost predicate Staged(s: State) {
    && (s.producer.Admitting? || s.producer.Spawning? ==>
          Has(s, s.producer.row.topic) && s.topics[s.producer.row.topic].drainer == Unstarted)
    && (s.producer.Sending? ==> Has(s, s.producer.row.topic))
    && (forall t <- s.topics :: s.topics[t].drainer == Unstarted ==>
          (s.producer.Admitting? || s.producer.Spawning?) && s.producer.row.topic == t)
    && (forall t <- s.topics :: s.topics[t].drainer.Busy? ==> s.topics[t].drainer.attempt <= MAX_RETRIES)
    && (!s.cancelled ==> forall t <- s.topics :: s.topics[t].drainer != Gone)
  }

  ghost predicate Accounts(s: State) {
    Tallied(s) && Staged(s)
  }

  lemma SubsetSize<T>(a: set<T>, b: set<T>)
    requires a <= b
    ensures |a| <= |b|
  {
    assert b == a + (b - a);
  }

  /** The gauge never exceeds the slots held. */
  lemma GaugeBounded(s: State)
    requires Accounts(s)
    ensures 0 <= s.inflight <= s.tokens <= 64
  {
    SubsetSize(Delivering(s), Live(s));
  }

  /** The topic a step works on. */
  function TopicOf(s: State, e: Event): string {
    match e
    case Enqueue(row) => row.topic
    case Take(t) => t
    case TrySucceeds(t) => t
    case TryFails(t) => t
    case BackoffOver(t) => t
    case AbandonBackoff(t) => t
    case Exit(t) => t
    case _ => if s.producer == Idle then "" else s.producer.row.topic
  }

  lemma OneTopicStep(s: State, e: Event)
    requires Enabled(s, e)
    ensures var t, n := TopicOf(s, e), Do(s, e);
      n.topics == s.topics || (t in n.topics && n.topics == s.topics[t := n.topics[t]])
  {
  }

  function DrainerOf(s: State, t: string): Drainer {
    if t in s.topics then s.topics[t].drainer else Unstarted
  }

  lemma MemberCount(a: set<string>, b: set<string>, t: string)
    requires a - {t} == b - {t}
    ensures |b| == |a| + (if t in b then 1 else 0) - (if t in a then 1 else 0)
  {
    assert t in a ==> a == (a - {t}) + {t};
    assert t in b ==> b == (b - {t}) + {t};
    assert t !in a ==> a == a - {t};
    assert t !in b ==> b == b - {t};
  }

  /** One topic changes: the counts change by what its drainer was and is. */
  lemma OneDrainerCounts(s: State, n: State, t: string)
    requires forall u: string :: u != t ==> DrainerOf(n, u) == DrainerOf(s, u)
    ensures var before, after := DrainerOf(s, t), DrainerOf(n, t);
      && |Live(n)| == |Live(s)| + (if IsLive(after) then 1 else 0) - (if IsLive(before) then 1 else 0)
      && |Delivering(n)| == |Delivering(s)| + (if after.Busy? then 1 else 0) - (if before.Busy? then 1 else 0)
  {
    forall u: string ensures u in Live(s) <==> IsLive(DrainerOf(s, u)) {}
    forall u: string ensures u in Live(n) <==> IsLive(DrainerOf(n, u)) {}
    forall u: string ensures u in Delivering(s) <==> DrainerOf(s, u).Busy? {}
    forall u: string ensures u in Delivering(n) <==> DrainerOf(n, u).Busy? {}
    MemberCount(Live(s), Live(n), t);
    MemberCount(Delivering(s), Delivering(n), t);
  }

  lemma StepKeepsTally(s: State, e: Event)
    requires Accounts(s) && Enabled(s, e)
    ensures Tallied(Do(s, e))
  {
    hide Live, Delivering;
    OneTopicStep(s, e);
    OneDrainerCounts(s, Do(s, e), TopicOf(s, e));
  }

  lemma StepKeepsStages(s: State, e: Event)
    requires Staged(s) && Enabled(s, e)
    ensures Staged(Do(s, e))
  {
    if e.Take? || e.TrySucceeds? || e.TryFails? || e.BackoffOver? || e.AbandonBackoff? || e.Exit? {
      DrainerKeepsStages(s, e);
    }
  }

  lemma DrainerKeepsStages(s: State, e: Event)
    requires Staged(s) && Enabled(s, e)
    requires e.Take? || e.TrySucceeds? || e.TryFails? || e.BackoffOver? || e.AbandonBackoff? || e.Exit?
    ensures Staged(Do(s, e))
  {
    var t, n := TopicOf(s, e), Do(s, e);
    OneTopicStep(s, e);
    assert n.topics[t].drainer != Unstarted && s.topics[t].drainer != Unstarted && n.producer == s.producer;
  }

  /** In every reachable state: one drainer a topic, slots held = live drainers plus one being started, at most
      64; the in-flight gauge equals the drainers inside a delivery. */
  lemma {:induction false} SemaphoreCountsDrainers(tr: seq<Event>)
    ensures Accounts(Run(tr))
  {
    hide Do, Enabled;
    if tr != [] {
      var front, e := tr[..|tr| - 1], tr[|tr| - 1];
      SemaphoreCountsDrainers(front);
      if Enabled(Run(front), e) {
        StepKeepsTally(Run(front), e);
        StepKeepsStages(Run(front), e);
      }
    } else {
      assert Live(INITIAL) == {} && Delivering(INITIAL) == {};
    }
  }

  // ---- order and conservation per topic ----

  /** Settled ++ current ++ queued rows of topic t are the rows kept for t, in order. */
  ghost predicate InSequence(s: State, kept: seq<OutboxRow>, t: string) {
    if t in s.topics then
      && SettledRows(s.log, t) + Current(s.topics[t].drainer) + s.topics[t].queue == kept
      && (s.topics[t].drainer.Busy? ==> s.topics[t].drainer.row.topic == t)
      && (forall r <- s.topics[t].queue :: r.topic == t)
      && |s.topics[t].queue| <= QUEUE_SIZE
    else
      SettledRows(s.log, t) == [] == kept
  }

  function KeptBy(s: State, e: Event, kept: seq<OutboxRow>, t: string): seq<OutboxRow> {
    if e == Push && Enabled(s, e) && s.producer.row.topic == t then kept + [s.producer.row] else kept
  }

  lemma SettleKeepsSequence(s: State, u: string, o: Outcome, kept: seq<OutboxRow>, t: string)
    requires Has(s, u) && s.topics[u].drainer.Busy? && s.topics[u].drainer.row.topic == u && InSequence(s, kept, t)
    ensures InSequence(Settle(s, u, o), kept, t)
  {
  }

  ghost predicate Consistent(s: State) {
    && (forall u <- s.topics :: s.topics[u].drainer.Busy? ==> s.topics[u].drainer.row.topic == u)
    && (s.producer.Spawning? && Has(s, s.producer.row.topic) ==> s.topics[s.producer.row.topic].drainer == Unstarted)
  }

  lemma ProducerKeepsSequence(s: State, e: Event, kept: seq<OutboxRow>, t: string)
    requires InSequence(s, kept, t) && Consistent(s) && Enabled(s, e)
    requires e.Enqueue? || e == Acquire || e == Spawn || e == Push || e == TimeOut || e == Cancel
    ensures InSequence(Do(s, e), KeptBy(s, e, kept, t), t)
  {
    if e.Enqueue? {
      var none: seq<OutboxRow> := [];
      assert none + none + none == none;
    } else if e == Push && s.producer.row.topic == t {
      var front, q, r := SettledRows(s.log, t) + Current(s.topics[t].drainer), s.topics[t].queue, s.producer.row;
      assert front + (q + [r]) == (front + q) + [r];
    }
  }

  lemma DrainerKeepsSequence(s: State, e: Event, kept: seq<OutboxRow>, t: string)
    requires InSequence(s, kept, t) && Consistent(s) && Enabled(s, e)
    requires e.Take? || e.TrySucceeds? || e.TryFails? || e.BackoffOver? || e.AbandonBackoff? || e.Exit?
    ensures InSequence(Do(s, e), kept, t)
  {
    match e {
      case TrySucceeds(u) => SettleKeepsSequence(s, u, Delivered, kept, t);
      case AbandonBackoff(u) => SettleKeepsSequence(s, u, Cancelled, kept, t);
      case TryFails(u) =>
        if s.topics[u].drainer.attempt >= MAX_RETRIES {
          SettleKeepsSequence(s, u, Failed, kept, t);
        }
      case Take(u) => TakeKeepsSequence(s, u, kept, t);
      case _ =>
    }
  }

  lemma TakeKeepsSequence(s: State, u: string, kept: seq<OutboxRow>, t: string)
    requires InSequence(s, kept, t) && Enabled(s, Take(u))
    ensures InSequence(Do(s, Take(u)), kept, t)
  {
    if u == t {
      var settled, q := SettledRows(s.log, t), s.topics[t].queue;
      assert q == [q[0]] + q[1..];
      assert settled + [] + q == settled + [q[0]] + q[1..];
    }
  }

  lemma StepKeepsSequence(s: State, e: Event, kept: seq<OutboxRow>, t: string)
    requires InSequence(s, kept, t) && Consistent(s)
    ensures InSequence(Next(s, e), KeptBy(s, e, kept, t), t)
  {
    hide InSequence, Consistent, Do;
    if Enabled(s, e) {
      if e.Enqueue? || e == Acquire || e == Spawn || e == Push || e == TimeOut || e == Cancel {
        ProducerKeepsSequence(s, e, kept, t);
      } else {
        DrainerKeepsSequence(s, e, kept, t);
      }
    }
  }

  ghost predicate AllInSequence(s: State, fs: seq<Fate>) {
    forall t: string :: InSequence(s, Kept(fs, t), t)
  }

  lemma FatesKept(tr: seq<Event>, e: Event, t: string)
    ensures Kept(Fates(tr + [e]), t) == KeptBy(Run(tr), e, Kept(Fates(tr), t), t)
  {
    hide Run, Kept;
    assert (tr + [e])[..|tr|] == tr;
    var s := Run(tr);
    if (e == Push || e == TimeOut) && Enabled(s, e) {
      KeptOneMore(Fates(tr), Fate(s.producer.row, e == Push), t);
    }
  }

  lemma KeptOneMore(fs: seq<Fate>, f: Fate, t: string)
    ensures Kept(fs + [f], t) == Kept(fs, t) + (if f.pushed && f.row.topic == t then [f.row] else [])
  {
    assert (fs + [f])[..|fs|] == fs;
  }

  /** For every schedule and topic: settled ++ current ++ queued rows equal, in order, the rows handled for the
      topic minus those dropped by the timeout. Nothing is duplicated, reordered or moved to another topic, and
      what is still queued when the drainer is gone is what cancellation left behind. */
  lemma {:induction false} TopicsKeepOrder(tr: seq<Event>)
    ensures AllInSequence(Run(tr), Fates(tr))
  {
    hide Do, Enabled;
    if tr != [] {
      var front, e := tr[..|tr| - 1], tr[|tr| - 1];
      assert front + [e] == tr;
      TopicsKeepOrder(front);
      SemaphoreCountsDrainers(front);
      var s := Run(front);
      forall u <- s.topics | s.topics[u].drainer.Busy? ensures s.topics[u].drainer.row.topic == u {
        assert InSequence(s, Kept(Fates(front), u), u);
      }
      assert Consistent(s);
      forall t: string ensures InSequence(Run(tr), Kept(Fates(tr), t), t) {
        StepKeepsSequence(s, e, Kept(Fates(front), t), t);
        FatesKept(front, e, t);
      }
    }
  }

  // ---- the counters ----

  lemma {:induction false} LogSplits(log: seq<Settled>)
    ensures |log| == CountOf(log, Delivered) + CountOf(log, Failed) + CountOf(log, Cancelled)
  {
    if log != [] {
      LogSplits(log[..|log| - 1]);
    }
  }

  ghost predicate Counted(s: State, taken: nat) {
    && s.delivered == CountOf(s.log, Delivered)
    && s.failed == CountOf(s.log, Failed)
    && taken == |s.log| + s.inflight
  }

  lemma StepCounts(s: State, e: Event, taken: nat)
    requires Counted(s, taken)
    ensures Counted(Next(s, e), taken + (if e.Take? && Enabled(s, e) then 1 else 0))
  {
    var t := Next(s, e);
    if t.log != s.log {
      assert t.log[..|t.log| - 1] == s.log;
    }
  }

  /** Rows taken = delivered + failed + cancelled + in flight, and each counter counts exactly its outcome. */
  lemma {:induction false} RowsTakenAreAccountedFor(tr: seq<Event>)
    ensures var s := Run(tr);
      && s.delivered == CountOf(s.log, Delivered) && s.failed == CountOf(s.log, Failed)
      && Taken(tr) == s.delivered + s.failed + CountOf(s.log, Cancelled) + s.inflight
  {
    RowsTakenCounted(tr);
    LogSplits(Run(tr).log);
  }

  lemma {:induction false} RowsTakenCounted(tr: seq<Event>)
    ensures Counted(Run(tr), Taken(tr))
  {
    hide Next;
    if tr != [] {
      RowsTakenCounted(tr[..|tr| - 1]);
      StepCounts(Run(tr[..|tr| - 1]), tr[|tr| - 1], Taken(tr[..|tr| - 1]));
    }
  }

  // ---- progress up to 64 topics, none beyond ----

  function TopicsOf(rows: seq<OutboxRow>): set<string> {
    set r <- rows :: r.topic
  }

  lemma {:induction false} TopicsAreThoseHandled(tr: seq<Event>)
    ensures Run(tr).topics.Keys == TopicsOf(Handled(tr))
  {
    hide Enabled;
    if tr != [] {
      var front, e := tr[..|tr| - 1], tr[|tr| - 1];
      TopicsAreThoseHandled(front);
      if Enabled(Run(front), e) {
        TopicKeysStep(Run(front), e);
      }
    }
  }

  lemma TopicKeysStep(s: State, e: Event)
    requires Enabled(s, e)
    ensures Do(s, e).topics.Keys == if e.Enqueue? then s.topics.Keys + {e.row.topic} else s.topics.Keys
  {
  }

  /** A row that needs a new drainer gets past the semaphore, while ctx is live, exactly when this consumer
      has seen at most 64 distinct topics. */
  lemma AdmittedIffAtMost64Topics(tr: seq<Event>)
    requires Run(tr).producer.Admitting? && !Run(tr).cancelled
    ensures Enabled(Run(tr), Acquire) <==> |TopicsOf(Handled(tr))| <= 64
  {
    SemaphoreCountsDrainers(tr);
    TopicsAreThoseHandled(tr);
    var s := Run(tr);
    assert s.topics.Keys == Live(s) + {s.producer.row.topic};
  }

  predicate OwnStep(e: Event) {
    e == Acquire || e == Spawn || e == Push || e == TimeOut
  }

  predicate CanStep(s: State) {
    Enabled(s, Acquire) || Enabled(s, Spawn) || Enabled(s, Push) || Enabled(s, TimeOut)
  }

  /** The steps of its own that the receive loop still has to make in enqueue. */
  function Left(p: Producer): nat {
    match p
    case Idle => 0
    case Sending(_) => 1
    case Spawning(_) => 2
    case Admitting(_) => 3
  }

  function OwnSteps(tr: seq<Event>, more: seq<Event>): nat
    decreases |more|
  {
    if more == [] then 0
    else
      var front, e := more[..|more| - 1], more[|more| - 1];
      OwnSteps(tr, front) + (if OwnStep(e) && Enabled(Run(tr + front), e) then 1 else 0)
  }

  lemma LeftStep(s: State, e: Event)
    requires Enabled(s, e) && !e.Enqueue?
    ensures Left(s.producer) == Left(Do(s, e).producer) + (if OwnStep(e) then 1 else 0)
  {
  }

  /** With at most 64 topics enqueue finishes: whatever the drainers do in between, the receive loop is back after
      at most three steps of its own, and until then, while ctx is live, one of them can be made. */
  lemma {:induction false} ProducerCanFinish(tr: seq<Event>, more: seq<Event>)
    requires |TopicsOf(Handled(tr))| <= 64 && forall e <- more :: !e.Enqueue?
    ensures Left(Run(tr + more).producer) + OwnSteps(tr, more) == Left(Run(tr).producer) <= 3
    ensures Handled(tr + more) == Handled(tr)
    ensures !Run(tr + more).cancelled && Run(tr + more).producer != Idle ==> CanStep(Run(tr + more))
    decreases |more|
  {
    hide Do, Enabled, TopicsOf;
    if more == [] {
      assert tr + more == tr;
    } else {
      var front, e := more[..|more| - 1], more[|more| - 1];
      assert (tr + more)[..|tr + more| - 1] == tr + front;
      ProducerCanFinish(tr, front);
      if Enabled(Run(tr + front), e) {
        LeftStep(Run(tr + front), e);
      }
    }
    NotStuck(tr + more);
  }

  lemma NotStuck(tr: seq<Event>)
    requires |TopicsOf(Handled(tr))| <= 64
    ensures !Run(tr).cancelled && Run(tr).producer != Idle ==> CanStep(Run(tr))
  {
    SemaphoreCountsDrainers(tr);
    if Run(tr).producer.Admitting? && !Run(tr).cancelled {
      AdmittedIffAtMost64Topics(tr);
    }
  }

  /** A row is dropped rather than pushed exactly when 256 rows kept for its topic are still waiting to be taken. */
  lemma DroppedIffBacklogFull(tr: seq<Event>)
    requires Run(tr).producer.Sending?
    ensures var s := Run(tr);
      var t := s.producer.row.topic;
      && Has(s, t)
      && var waiting := |Kept(Fates(tr), t)| - |SettledRows(s.log, t)| - |Current(s.topics[t].drainer)|;
         (Enabled(s, TimeOut) <==> waiting == 256) && (Enabled(s, Push) <==> waiting < 256)
  {
    SemaphoreCountsDrainers(tr);
    TopicsKeepOrder(tr);
    var s := Run(tr);
    var t := s.producer.row.topic;
    assert InSequence(s, Kept(Fates(tr), t), t);
  }

  /** A 65th topic stops the receive loop: until ctx is cancelled, no continuation moves it. */
  lemma {:induction false} SixtyFifthTopicBlocks(tr: seq<Event>, more: seq<Event>)
    requires Run(tr).producer.Admitting? && !Run(tr).cancelled && |TopicsOf(Handled(tr))| > 64
    requires Cancel !in more
    ensures Run(tr + more).producer == Run(tr).producer
    ensures !Run(tr + more).cancelled && Handled(tr + more) == Handled(tr)
  {
    hide Do;
    if more == [] {
      assert tr + more == tr;
    } else {
      var front, e := more[..|more| - 1], more[|more| - 1];
      assert (tr + more)[..|tr + more| - 1] == tr + front;
      assert Cancel !in front;
      SixtyFifthTopicBlocks(tr, front);
      AdmittedIffAtMost64Topics(tr + front);
      if Enabled(Run(tr + front), e) {
        BlockedStep(Run(tr + front), e);
      }
    }
  }

  lemma BlockedStep(s: State, e: Event)
    requires s.producer.Admitting? && !Enabled(s, Acquire) && Enabled(s, e) && e != Cancel
    ensures Do(s, e).producer == s.producer && Do(s, e).cancelled == s.cancelled
  {
  }
}
