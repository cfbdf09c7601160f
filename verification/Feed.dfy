/** dashboard.html: the batched, bounded, newest-first change feed behind the export. */
module Feed {
  import opened Common
  import Csv

  const FEED_LIMIT := 50

  /** Math.max(cfg.feedLimit * 2, 100) */
  const BUDGET := 100

  /** A change as the page gets it; the rows are their JSON texts, None for null. */
  datatype Change = Change(table: string, operation: string, oldRow: Option<string>, newRow: Option<string>)

  datatype Entry = Entry(time: string, table: string, op: string, row: string)

  function RowSummary(c: Change): string {
    if c.operation == "truncate" then "all rows"
    else if c.newRow.Some? then c.newRow.value
    else if c.oldRow.Some? then c.oldRow.value
    else "{}"
  }

  /** clock(i) is the time text shown for the i-th change of a flush. */
  type Clock = nat -> string

  function EntriesOf(cs: seq<Change>, clock: Clock): seq<Entry> {
    if cs == [] then []
    else
      var n := |cs| - 1;
      EntriesOf(cs[..n], clock) + [Entry(clock(n), cs[n].table, cs[n].operation, RowSummary(cs[n]))]
  }

  function Reversed(es: seq<Entry>): (r: seq<Entry>)
    ensures |r| == |es|
  {
    if es == [] then [] else [es[|es| - 1]] + Reversed(es[..|es| - 1])
  }

  function Newest(es: seq<Entry>): seq<Entry> {
    if |es| <= FEED_LIMIT then es else es[..FEED_LIMIT]
  }

  datatype View = View(paused: bool, feedCount: nat, pending: seq<Change>, feed: seq<Entry>, flushScheduled: bool)

  function Taken(pending: seq<Change>): seq<Change> {
    if |pending| <= BUDGET then pending else pending[..BUDGET]
  }

  // ---- what each handler does ----

  function Added(v: View, c: Change): View {
    if v.paused then v else v.(feedCount := v.feedCount + 1, pending := v.pending + [c], flushScheduled := true)
  }

  function Toggled(v: View): View {
    v.(paused := !v.paused)
  }

  /** The animation frame: flushFeed, which schedules the next frame if anything is left over. */
  function Framed(v: View, clock: Clock): View {
    if v.paused || v.pending == [] then v.(flushScheduled := false)
    else
      var take := Taken(v.pending);
      v.(pending := v.pending[|take|..],
         feed := Newest(Reversed(EntriesOf(take, clock)) + v.feed),
         flushScheduled := v.pending[|take|..] != [])
  }

  class FeedState {
    var paused: bool
    var feedCount: nat
    var pending: seq<Change>
    var feed: seq<Entry>
    var flushScheduled: bool

    constructor ()
      ensures Contents() == View(false, 0, [], [], false)
    {
      paused, feedCount, pending, feed, flushScheduled := false, 0, [], [], false;
    }

    ghost function Contents(): View
      reads this
    {
      View(paused, feedCount, pending, feed, flushScheduled)
    }

    method AddChange(c: Change)
      modifies this
      ensures Contents() == Added(old(Contents()), c)
    {
      if paused {
        return;
      }
      feedCount := feedCount + 1;
      pending := pending + [c];
      ScheduleFlush();
    }

    method ScheduleFlush()
      modifies this`flushScheduled
      ensures flushScheduled == (old(flushScheduled) || !paused)
    {
      if flushScheduled || paused {
        return;
      }
      flushScheduled := true;
    }

    method TogglePause()
      modifies this
      ensures Contents() == Toggled(old(Contents()))
    {
      paused := !paused;
    }

    /** The requestAnimationFrame callback. */
    method Frame(clock: Clock)
      modifies this
      ensures Contents() == Framed(old(Contents()), clock)
    {
      flushScheduled := false;
      FlushFeed(clock);
    }

    method UnshiftAll(take: seq<Change>, clock: Clock)
      modifies this`feed
      ensures feed == Reversed(EntriesOf(take, clock)) + old(feed)
    {
      hide EntriesOf, Reversed;
      NoEntries(clock);
      assert take[..0] == [] && [] + feed == feed;
      var i := 0;
      while i < |take|
        invariant i <= |take|
        invariant feed == Reversed(EntriesOf(take[..i], clock)) + old(feed)
      {
        assert take[..i + 1] == take[..i] + [take[i]];
        OneMoreEntry(take[..i], take[i], clock);
        feed := [Entry(clock(i), take[i].table, take[i].operation, RowSummary(take[i]))] + feed;
        i := i + 1;
      }
      assert take[..i] == take;
    }

    method Trim()
      modifies this`feed
      ensures feed == Newest(old(feed))
    {
      while |feed| > FEED_LIMIT
        invariant |feed| <= |old(feed)| && feed == old(feed)[..|feed|]
        invariant |old(feed)| > FEED_LIMIT ==> |feed| >= FEED_LIMIT
        invariant |old(feed)| <= FEED_LIMIT ==> feed == old(feed)
      {
        feed := feed[..|feed| - 1];
      }
    }

    method FlushFeed(clock: Clock)
      requires !flushScheduled
      modifies this
      ensures Contents() == Framed(old(Contents()), clock)
    {
      if paused {
        return;
      }
      var batch := pending;
      if batch == [] {
        return;
      }
      pending := [];
      var take := if |batch| > BUDGET then batch[..BUDGET] else batch;
      if |batch| > BUDGET {
        pending := batch[BUDGET..] + pending;
      }
      UnshiftAll(take, clock);
      Trim();
      if pending != [] {
        ScheduleFlush();
      }
    }
  }

  lemma NoEntries(clock: Clock)
    ensures Reversed(EntriesOf([], clock)) == []
  {
  }

  lemma OneMoreEntry(cs: seq<Change>, c: Change, clock: Clock)
    ensures Reversed(EntriesOf(cs + [c], clock))
         == [Entry(clock(|cs|), c.table, c.operation, RowSummary(c))] + Reversed(EntriesOf(cs, clock))
  {
  }

  // ---- whole runs ----

  datatype Event = Add(change: Change) | Toggle | AnimationFrame(clock: Clock)

  function Next(v: View, e: Event): View {
    match e
    case Add(c) => Added(v, c)
    case Toggle => Toggled(v)
    case AnimationFrame(clock) => if v.flushScheduled then Framed(v, clock) else v
  }

  /** A frame only fires if one was requested; otherwise the event changes nothing. */
  function Run(tr: seq<Event>): View {
    if tr == [] then View(false, 0, [], [], false) else Next(Run(tr[..|tr| - 1]), tr[|tr| - 1])
  }

  /** Whether the pause button is down after the events. */
  function PausedAfter(tr: seq<Event>): bool {
    if tr == [] then false else PausedAfter(tr[..|tr| - 1]) != tr[|tr| - 1].Toggle?
  }

  /** The changes that arrived while unpaused, read off the events alone. */
  function Arrived(tr: seq<Event>): seq<Change> {
    if tr == [] then []
    else
      var front, e := tr[..|tr| - 1], tr[|tr| - 1];
      if e.Add? && !PausedAfter(front) then Arrived(front) + [e.change] else Arrived(front)
  }

  /** What a frame takes from the pending changes. */
  function Batch(tr: seq<Event>, e: Event): seq<Change> {
    var v := Run(tr);
    if e.AnimationFrame? && v.flushScheduled && !v.paused then Taken(v.pending) else []
  }

  function FlushedChanges(tr: seq<Event>): seq<Change> {
    if tr == [] then [] else FlushedChanges(tr[..|tr| - 1]) + Batch(tr[..|tr| - 1], tr[|tr| - 1])
  }

  function FlushedEntries(tr: seq<Event>): seq<Entry> {
    if tr == [] then []
    else
      var front, e := tr[..|tr| - 1], tr[|tr| - 1];
      FlushedEntries(front) + (if e.AnimationFrame? then EntriesOf(Batch(front, e), e.clock) else [])
  }

  lemma {:induction false} ReversedAppend(a: seq<Entry>, b: seq<Entry>)
    ensures Reversed(a + b) == Reversed(b) + Reversed(a)
  {
    if b == [] {
      assert a + b == a;
    } else {
      assert (a + b)[..|a + b| - 1] == a + b[..|b| - 1];
      ReversedAppend(a, b[..|b| - 1]);
    }
  }

  /** Trimming now or later makes no difference to the newest entries. */
  lemma NewestTrimsOnce(a: seq<Entry>, b: seq<Entry>)
    ensures Newest(a + Newest(b)) == Newest(a + b)
  {
  }

  ghost predicate Faithful(v: View, arrived: seq<Change>, flushed: seq<Change>, entries: seq<Entry>, paused: bool) {
    && v.paused == paused
    && flushed + v.pending == arrived
    && v.feed == Newest(Reversed(entries))
    && v.feedCount == |arrived|
  }

  lemma FrameFaithful(v: View, clock: Clock, arrived: seq<Change>, flushed: seq<Change>, entries: seq<Entry>)
    requires Faithful(v, arrived, flushed, entries, false) && v.pending != []
    ensures var take := Taken(v.pending);
      Faithful(Framed(v, clock), arrived, flushed + take, entries + EntriesOf(take, clock), false)
  {
    var take := Taken(v.pending);
    var es := EntriesOf(take, clock);
    ReversedAppend(entries, es);
    NewestTrimsOnce(Reversed(es), Reversed(entries));
    assert v.pending == take + v.pending[|take|..];
    assert (flushed + take) + v.pending[|take|..] == flushed + v.pending;
  }

  lemma StepFaithful(tr: seq<Event>, e: Event)
    requires Faithful(Run(tr), Arrived(tr), FlushedChanges(tr), FlushedEntries(tr), PausedAfter(tr))
    ensures var t := tr + [e]; Faithful(Run(t), Arrived(t), FlushedChanges(t), FlushedEntries(t), PausedAfter(t))
  {
    hide Reversed, Newest;
    var t, v := tr + [e], Run(tr);
    assert t[..|tr|] == tr;
    var take := Batch(tr, e);
    assert FlushedChanges(t) == FlushedChanges(tr) + take;
    if take == [] {
      assert FlushedChanges(t) == FlushedChanges(tr) && FlushedEntries(t) == FlushedEntries(tr);
      if e.Add? && !v.paused {
        assert FlushedChanges(tr) + (v.pending + [e.change]) == (FlushedChanges(tr) + v.pending) + [e.change];
      }
    } else {
      FrameFaithful(v, e.clock, Arrived(tr), FlushedChanges(tr), FlushedEntries(tr));
    }
  }

  /** Flushed ++ pending changes are those that arrived while unpaused, in order, and the feed is always the
      newest 50 flushed entries, newest first. */
  lemma {:induction false} FeedIsNewestFlushed(tr: seq<Event>)
    ensures Faithful(Run(tr), Arrived(tr), FlushedChanges(tr), FlushedEntries(tr), PausedAfter(tr))
  {
    if tr != [] {
      var front := tr[..|tr| - 1];
      FeedIsNewestFlushed(front);
      StepFaithful(front, tr[|tr| - 1]);
      assert front + [tr[|tr| - 1]] == tr;
    }
  }

  /** The row text: "all rows" for a truncate, else the new row, else the old one, else an empty object. */
  ghost predicate Shows(e: Entry, c: Change) {
    && e.table == c.table
    && e.op == c.operation
    && (c.operation == "truncate" ==> e.row == "all rows")
    && (c.operation != "truncate" && c.newRow.Some? ==> e.row == c.newRow.value)
    && (c.operation != "truncate" && c.newRow == None && c.oldRow.Some? ==> e.row == c.oldRow.value)
    && (c.operation != "truncate" && c.newRow == None && c.oldRow == None ==> e.row == "{}")
  }

  lemma {:induction false} EntriesShow(cs: seq<Change>, clock: Clock)
    ensures |EntriesOf(cs, clock)| == |cs|
    ensures forall i :: 0 <= i < |cs| ==> Shows(EntriesOf(cs, clock)[i], cs[i])
    ensures forall i :: 0 <= i < |cs| ==> EntriesOf(cs, clock)[i].time == clock(i)
  {
    if cs != [] {
      EntriesShow(cs[..|cs| - 1], clock);
    }
  }

  /** Entry by entry, what was flushed is what arrived. */
  lemma {:induction false} EntriesMatchChanges(tr: seq<Event>)
    ensures |FlushedEntries(tr)| == |FlushedChanges(tr)|
    ensures forall i :: 0 <= i < |FlushedChanges(tr)| ==> Shows(FlushedEntries(tr)[i], FlushedChanges(tr)[i])
  {
    if tr != [] {
      var front, e := tr[..|tr| - 1], tr[|tr| - 1];
      EntriesMatchChanges(front);
      if e.AnimationFrame? {
        EntriesShow(Batch(front, e), e.clock);
      }
    }
  }

  // ---- a paused frame strands the pending changes ----

  /** The last frame to fire fired while paused with changes pending, and none has arrived since. */
  function Wasted(tr: seq<Event>): bool {
    if tr == [] then false
    else
      var front, e := tr[..|tr| - 1], tr[|tr| - 1];
      var v := Run(front);
      match e
      case Add(_) => Wasted(front) && v.paused
      case Toggle => Wasted(front)
      case AnimationFrame(_) => if v.flushScheduled then v.paused && v.pending != [] else Wasted(front)
  }

  /** Pending changes are left without a scheduled frame (also after resuming, until the next change arrives)
      exactly when a frame has fired while paused. */
  lemma {:induction false} StrandedIffFrameWasted(tr: seq<Event>)
    ensures Run(tr).pending != [] && !Run(tr).flushScheduled <==> Wasted(tr)
  {
    if tr != [] {
      StrandedIffFrameWasted(tr[..|tr| - 1]);
    }
  }

  // ---- the export ----

  function Fields(es: seq<Entry>): (rs: seq<seq<string>>)
    ensures |rs| == |es|
    ensures forall r <- rs :: |r| == 4
  {
    if es == [] then [] else [[es[0].time, es[0].table, es[0].op, es[0].row]] + Fields(es[1..])
  }

  function ExportCSV(feed: seq<Entry>): string {
    Csv.Export(Fields(feed))
  }

  lemma {:induction false} FieldsAt(es: seq<Entry>, i: nat)
    requires i < |es|
    ensures Fields(es)[i] == [es[i].time, es[i].table, es[i].op, es[i].row]
  {
    if i > 0 {
      FieldsAt(es[1..], i - 1);
    }
  }

  lemma {:induction false} ReversedAt(es: seq<Entry>, i: nat)
    requires i < |es|
    ensures Reversed(es)[i] == es[|es| - 1 - i]
  {
    if i > 0 {
      ReversedAt(es[..|es| - 1], i - 1);
    }
  }

  /** The feed never holds more than 50 entries, and its i-th one is the i-th newest flushed. */
  lemma FeedAt(tr: seq<Event>)
    ensures var feed, all := Run(tr).feed, FlushedEntries(tr);
      && |feed| == (if |all| <= 50 then |all| else 50)
      && forall i :: 0 <= i < |feed| ==> feed[i] == all[|all| - 1 - i]
  {
    FeedIsNewestFlushed(tr);
    var feed, all := Run(tr).feed, FlushedEntries(tr);
    forall i | 0 <= i < |feed| ensures feed[i] == all[|all| - 1 - i] {
      ReversedAt(all, i);
    }
  }

  lemma ExportParses(feed: seq<Entry>)
    ensures ExportCSV(feed) != "" && ExportCSV(feed)[0] == '\U{FEFF}'
    ensures Csv.ParseFile(ExportCSV(feed)[1..]) == Some([["time", "table", "operation", "row"]] + Fields(feed))
  {
    hide Csv.ParseFile;
    Csv.ExportRoundTrip(Fields(feed));
  }

  /** At any moment the exported file, after its byte order mark, parses to the header and then, newest first, one
      record for each of the newest 50 flushed changes: its time, its table, its operation and its row text, each
      under its own heading. */
  lemma ExportShowsNewest(tr: seq<Event>)
    ensures var file, es, cs := ExportCSV(Run(tr).feed), FlushedEntries(tr), FlushedChanges(tr);
      && file != "" && file[0] == '\U{FEFF}'
      && |es| == |cs|
      && Csv.ParseFile(file[1..]).Some? && Csv.ParseFile(file[1..]).value != []
      && var header, body := Csv.ParseFile(file[1..]).value[0], Csv.ParseFile(file[1..]).value[1..];
         && header == ["time", "table", "operation", "row"]
         && |body| == (if |cs| <= 50 then |cs| else 50)
         && forall i :: 0 <= i < |body| ==> Exported(body[i], es[|cs| - 1 - i], cs[|cs| - 1 - i])
  {
    hide Exported, Shows, Run, Fields, FlushedEntries, FlushedChanges, Csv.ParseFile, ExportCSV;
    EntriesMatchChanges(tr);
    FeedAt(tr);
    var feed := Run(tr).feed;
    ExportParses(feed);
    assert ([["time", "table", "operation", "row"]] + Fields(feed))[1..] == Fields(feed);
    FieldsExport(feed, FlushedEntries(tr), FlushedChanges(tr));
  }

  lemma FieldsExport(feed: seq<Entry>, es: seq<Entry>, cs: seq<Change>)
    requires |feed| <= |es| == |cs|
    requires forall i :: 0 <= i < |feed| ==> feed[i] == es[|es| - 1 - i]
    requires forall i :: 0 <= i < |cs| ==> Shows(es[i], cs[i])
    ensures forall i :: 0 <= i < |feed| ==> Exported(Fields(feed)[i], es[|cs| - 1 - i], cs[|cs| - 1 - i])
  {
    hide Exported, Shows, Fields;
    forall i | 0 <= i < |feed| ensures Exported(Fields(feed)[i], es[|cs| - 1 - i], cs[|cs| - 1 - i]) {
      ExportedAt(feed, i, cs[|cs| - 1 - i]);
    }
  }

  /** The cells of entry e, which shows change c. */
  ghost predicate Exported(record: seq<string>, e: Entry, c: Change) {
    record == [e.time, e.table, e.op, e.row] && Shows(e, c)
  }

  lemma ExportedAt(es: seq<Entry>, i: nat, c: Change)
    requires i < |es| && Shows(es[i], c)
    ensures Exported(Fields(es)[i], es[i], c)
  {
    FieldsAt(es, i);
  }

  /** One frame moves the oldest pending changes, a hundred at most. */
  lemma BatchIsOldestHundred(tr: seq<Event>, clock: Clock)
    requires Run(tr).flushScheduled && !Run(tr).paused
    ensures var waiting, batch := Run(tr).pending, Batch(tr, AnimationFrame(clock));
      && batch == waiting[..if |waiting| <= 100 then |waiting| else 100]
      && Run(tr + [AnimationFrame(clock)]).pending == waiting[|batch|..]
      && FlushedChanges(tr + [AnimationFrame(clock)]) == FlushedChanges(tr) + batch
  {
    assert (tr + [AnimationFrame(clock)])[..|tr|] == tr;
  }
}
