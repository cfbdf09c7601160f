# Verified model of phylax

phylax follows a PostgreSQL replication slot, decodes what it receives into row changes, and hands each change
either to a per-topic outbox scheduler or to a broadcaster that drops for a slow subscriber instead of stalling
the stream. This project models those parts in Dafny and proves what every run of them keeps.

How the parts are modelled:

- **Runs.** Where goroutines share state (replication session, outbox, broadcaster and its clients, webhook), the
  model is a transition system: a state, a list of events, and a function from event lists to states. One event is
  one atomic step of one goroutine, of the server or of the environment (a timer, a cancellation, the outcome of a
  delivery). An event that is not enabled changes nothing, so theorems about all event lists cover every interleaving.
- **Code that updates in place.** The broadcaster, the CDC client, the decoder's relation cache and counter, the
  replication stream, the outbox consumer and the dashboard feed are classes, and the loops of the original are
  loops. Their methods are proved against functions of the old state; `Fanout.MethodsFollowRun`,
  `Handling.HandlingIsMoves`, `Delivery.DeliveryStepsSettle` and `EndToEnd.EveryChangeIsSomewhere` tie them to the
  transition systems.
- **Pairs.** The SSE framing is proved against the repository's own client and against a parser written from section
  9.2.6 of the WHATWG HTML Living Standard, the CSV export against a parser written from section 2 of RFC 4180.

Files: `Decode` (decode.go), `Broadcast`, `Fanout` (broadcast.go), `Registry` (subscriber ids and channel closing in
cdc.go and sse.go), `Session`, `SessionRuns`, `Reconnects`, `Wakeups` (the replication protocol of stream.go and
cdc.go), `Stream`, `Handling` (one session's receive loop), `OutboxRows`, `Outbox`, `OutboxRuns`, `Delivery`
(outbox.go), `Consumers` (the outbox consumers of successive sessions), `EndToEnd` (stream.go and outbox.go together),
`Witnesses` (runs that show the losses, replays and stalls below), `Cdc` (cdc.go), `Webhook` (cmd/phylax/main.go),
`Sse` (sse.go and cmd/sse-client/main.go), `EventSource` (sse.go against a browser), `Csv`, `Feed` (dashboard.html),
`Common`.

## What is assumed about the server

These are stated in the model, as hypotheses or as the shape of a step:

- A new WAL record ends after the end of the log (`Session.Ordered`), so record ends increase. The theorems of
  `Reconnects` on coverage and replays carry it. Those on reports and reply requests (`SessionRuns`, `Wakeups`) need
  only that the ends of the records received within the current session do not decrease (`SessionRuns.EndsInOrder`).
  The position at stream.go:272 is a plain store, and `SessionRuns.ReportGoesBackIffEndDoes` shows exactly what happens
  otherwise.
- The server works record by record: it skips a record whose end is confirmed at the start of the session and sends
  the others one by one, and it confirms the positions of the updates it has read, one by one.
- The slot's confirmed position never moves back, and a new session starts at the later of the position asked for
  and the confirmed one. Status updates of an earlier session that are still on the wire are gone once the next
  session starts.
- A slot that exists holds a usable position. A missing slot is created at the current end of the WAL.

## Where the code and its documentation differ

The model follows the code.

- cdc.go:195-197 and the repository's README.md:82 say a resume loses and replays nothing. Replays happen:
  `Reconnects.ReplaysAreUnconfirmed` says which records come again, `Witnesses.RecordIsReplayed` is a run without any
  error.
- README.md:15 says a restart loses nothing, and outbox.go:26-31 and README.md:180-181 call the slot the safety net
  for outbox rows. Positions are confirmed on receipt (stream.go:270-272), before the changes are dispatched and long
  before a row is delivered. At least once therefore holds up to dispatch, and only as long as no session starts with
  the slot past the record that an error (a decode or handler error) interrupted: `Reconnects.NothingLostIffSafe` is
  the equivalence, `Reconnects.OneRecordDecides` shows that this one record decides, and
  `Reconnects.AbortAfterReportLosesRecord` and `Witnesses.ChangeIsLost` that it happens.
- cdc.go:107-109 and 137-140 say shutdown unsubscribes every OnChange registration. One that has taken its id but not
  yet subscribed is missed: `Registry.UnsubscribeAllCloses` says exactly which, `Registry.ShutdownCanMissARegistration`
  shows one.
- stream.go:281-283 says every change is fanned out first. An outbox row is not (stream.go:286-288).
- outbox.go:141-142 says a full queue holds the receive loop rather than dropping. After two seconds the row is dropped.
  A 65th topic holds the receive loop until cancellation: `OutboxRuns.SixtyFifthTopicBlocks`,
  `Witnesses.SixtyFifthTopicStalls`.
- outbox.go:38-42 says rows of a topic are delivered strictly in order and drainers are capped. Each reconnect builds a
  new consumer (stream.go:95) while the drainers of the older ones live on under Start's context, so both hold per
  consumer. Across consumers the order holds exactly if the topic is drained at each reconnect:
  `Consumers.ReconnectKeepsOrderIffDrained`, `Consumers.OrderAcrossReconnects`; `Witnesses.RowIsOvertaken` is a run
  that breaks it. The cap of 64 is each consumer's own.
- A dashboard frame that fires while the feed is paused leaves the pending changes without a scheduled frame, also
  after resuming: `Feed.StrandedIffFrameWasted`, `Witnesses.ChangeIsStranded`.

## Model

| member | source | states |
|---|---|---|
| Decode.TupleToMap | decode.go:152-171 | It fails exactly on a tuple wider than the relation (the original's index panic); otherwise the map holds a key exactly for each name a column was sent under, with NULL or the data of the last such column, also when names repeat |
| Decode.TupleValues | decode.go:146-171 | With distinct names: a text column gives its data, a NULL column nil, an unchanged or unknown one no key, and there are no other keys; a nil tuple stays nil |
| Decode.CellsReadBack | decode.go:152-171 | With distinct names the row, read back by name, gives for each column NULL for 'n', the data for 't', and nothing for every other kind or a column not sent |
| Decode.TuplesDistinguished | decode.go:146-171 | Two tuples decode to one row if and only if they agree on every column, a column beyond the width counting as not sent |
| Decode.TupleMapInjective | decode.go:146-171 | On tuples of one width with kinds n, u and t the encoding is injective |
| Decode.DecodeMessage | decode.go:50-130 | Each message kind decodes by its own rule, only a relation message changes the cache, and the counter goes up by the number of changes returned, by none on an error |
| Decode.DecodeRow | decode.go:62-94 | Insert, update and delete: unknown relation first, then the old tuple, then the new one |
| Decode.DecodeTruncate | decode.go:96-115 | The truncate loop is the left-to-right resolution of its ids, given up at the first unknown one |
| Decode.CacheIsHistorySearch | decode.go:56-60 | What the mutable cache holds for an id is the latest earlier relation message about it, or nothing if there is none |
| Decode.TruncatesByHistory | decode.go:96-115 | A truncate succeeds if and only if every id has an earlier relation message; then one change per id, in order; otherwise the error names the first unknown id |
| Decode.DecodeAgreesWithHistory | decode.go:50-141 | For any history and message: the missing-relation error occurs if and only if a named relation has no earlier relation message, and names the first such; otherwise there is one change per named relation, with the table name, operation and rows that the history gives |
| Decode.DecodeAll | decode.go:50-130 | A decoder driven over a whole message sequence returns, message by message, the decoding against the history before it, and its counter is the total number of changes |
| Stream.ChangesAreDecoded | stream.go:258-284 | What a session routes is, in order, what the messages of its records decode to, each against those before it |
| Decode.KeepsRelation | decode.go:132-141 | Through a row's whole history the relation stays resolvable to the same columns |
| Decode.OverlayIsNewRow | decode.go:149-171 | Overlaying NewRow on the previous full row is the true new row whenever omitted columns did not change |
| Decode.ConsumerTracksRow | decode.go:62-94 | A consumer folding a row's insert, any updates and a delete holds the server's row after every prefix |
| Broadcast.TotalDroppedAnyOrder | broadcast.go:69-79 | The sum of the drop counters does not depend on the order in which the map is walked |
| Broadcast.TotalIsSum | broadcast.go:69-79 | For every listing of the subscribers, each once, the total is the sum of their counters; it is 0 without subscribers |
| Broadcast.Channel.TrySend | broadcast.go:51-57 | Sends if and only if there is room; never called on a closed channel |
| Broadcast.Channel.Close | broadcast.go:41-44 | A channel is closed at most once and keeps its buffered changes |
| Broadcast.Broadcaster.Subscribe | broadcast.go:26-37 | Adds one open, empty channel under the id and changes no other subscriber |
| Broadcast.Broadcaster.Unsubscribe | broadcast.go:39-47 | Closes and removes the id's channel, once; nothing for an unknown id; no other subscriber changes |
| Broadcast.Broadcaster.Send | broadcast.go:50-57 | One non-blocking send: buffered, or counted as dropped, for this subscriber alone |
| Broadcast.Broadcaster.Publish | broadcast.go:48-60 | Whatever the map's order, every subscriber gets exactly one non-blocking send, and no channel is replaced or closed |
| Broadcast.Broadcaster.ChangesDropped | broadcast.go:69-79 | The loop's total, in any order, is the sum over the active subscribers |
| Fanout.NeverPanics | broadcast.go:26-60 | In every run the map holds open channels only, each under one id; nothing is sent on or closes a closed channel; no buffer exceeds its size |
| Fanout.ClosedStaysClosed | broadcast.go:39-60 | A closed channel stays closed and only its own reader changes it from then on |
| Fanout.Conservation | broadcast.go:26-60 | For every active subscriber: changes published since its Subscribe = received + buffered + dropped, and received ++ buffered is an ordered subsequence of the published ones |
| Common.SubsequenceIffPicked | broadcast.go:48-60 | A subsequence is exactly a choice of elements at increasing places |
| Fanout.DropOnlyWhenFull | broadcast.go:48-60 | After any run a publish is dropped for a subscriber exactly when its buffer is full, and otherwise goes to the end of it |
| Fanout.WideRunSimulates | broadcast.go:48-60 | The two-run invariant 0 <= len2 - len1 <= cap2 - cap1 for each channel, with equal subscriptions |
| Fanout.BiggerBuffersAcceptMore | broadcast.go:48-60 | In the same interleaving, every change accepted with a buffer is accepted with a larger one, and no subscriber drops more |
| Fanout.MethodsFollowRun | broadcast.go:26-60 | The class and the run agree: each method changes the map of active channels exactly as its event does |
| Common.DecimalInjective | cdc.go:113 | Decimal rendering never maps two numbers to one string |
| Registry.IdsDistinct | sse.go:162 | The ids onchange-N and sse-N never collide, within a kind or across the two |
| Registry.RunKeepsInv | cdc.go:110-123 | In every interleaving of OnChange, unsubscribeAll, /events connections and traffic, a registration is either still joining or owns one channel, which is open exactly while its id is in the map, and so with every /events connection |
| Registry.SubscribedIdsAreFresh | cdc.go:110-123 | Subscribe never overwrites: an id about to be subscribed is not in the map |
| Registry.EventsHandlerReadsOpenChannel | sse.go:162-182 | A looping /events handler reads an open channel with room for 10 changes that is registered under its own id and no other |
| Registry.RegistryNeverPanics | cdc.go:289-301 | No such interleaving sends on or closes a closed channel |
| Registry.UnsubscribeAllCloses | cdc.go:289-301 | A completed registration no longer on the list is closed if and only if unsubscribeAll did not reach it between taking its id and subscribing |
| Registry.ListedRegistrationsAreOpen | cdc.go:107-123 | A registration still on the list is open: nothing else closes it |
| Registry.ShutdownCanMissARegistration | cdc.go:110-117 | A run in which shutdown falls between OnChange's two steps and leaves an open channel behind |
| SessionRuns.AlwaysLocal | stream.go:194-297 | Invariant of every run: the current session has received exactly the records it passed beyond its start, has dispatched exactly the changes it should have, and every position it holds or reported is a received one |
| SessionRuns.ReportsAreReceivedPositions | stream.go:213-295 | In every interleaving each reported position is the start LSN or the end of a received record, and all received records are fully dispatched but at most the last one |
| SessionRuns.DispatchIsLogOrder | stream.go:258-295 | What a session dispatches is exactly the changes of the records beyond its start, each once, in log order, up to the one in hand |
| SessionRuns.DispatchedOnceInLogOrder | stream.go:258-295 | Said of the output alone: a session's part is strictly increasing by record and change, and holds exactly the changes of the records passed beyond the start, of the one in hand those dispatched so far |
| Reconnects.AlwaysPositions | stream.go:258-273 | With increasing record ends: the slot, the updates on the wire and every position held lie before the end of the first record never received, over any number of reconnects, and a session starts at or before the confirmed position |
| SessionRuns.ReportsNeverDecrease | stream.go:216-227 | Reports never decrease within a session in every run in which the ends of the records that session received do not decrease; nothing is assumed of the rest of the log |
| SessionRuns.ReportGoesBackIffEndDoes | stream.go:270-272 | The store is not a maximum: the update after a record goes back if and only if the record's end lies below the last report |
| Reconnects.AtLeastOnceToDispatch | stream.go:162-188 | With sessions ending only at the receive point, every record from the first start position to the furthest received has been dispatched in full, but for the one in hand |
| Reconnects.ResumesAtConfirmedOrCurrent | cdc.go:195-207 | A session asks to resume from the slot's confirmed position if there was a slot when it looked, else from the current end of the WAL; neither is ever zero or past the WAL |
| Reconnects.StartsAtConfirmed | cdc.go:195-230 | A session starts at the slot's confirmed position whatever was read before, its own position being the one it asked for, with nothing reported or pending; the first start fixes the records the run answers for |
| Reconnects.ReplaysAreUnconfirmed | cdc.go:195-231 | The records a session replays are exactly those received before it that lie beyond its start position, as far as it has got |
| Reconnects.ConfirmedIsNeverSentAgain | stream.go:213-227 | A record the slot has been moved past is never received or dispatched again, whatever follows |
| Reconnects.ResentIffUnconfirmed | cdc.go:195-231 | A session that passes a record receives it if and only if it started before the record's end |
| Reconnects.AtLeastOnce | stream.go:258-295 | If no session starts with the slot past the record that the last error interrupted (unless that record was dispatched in full before), everything from the first start to the cursor is dispatched, but for the record in hand, even when sessions abort |
| Reconnects.OneRecordDecides | stream.go:258-295 | After safe starts, the slot is past some undispatched received record if and only if it is past the one the last error interrupted |
| Reconnects.NothingLostIffSafe | stream.go:258-295 | For every run: all received records that no session will send again are dispatched if and only if no start broke that condition |
| Reconnects.AbortFreeRestartsAreSafe | stream.go:162-188 | Runs whose sessions end only at the receive point meet that condition |
| Reconnects.UnsafeRestartLosesForever | stream.go:270-279 | And the condition is needed: a start that breaks it leaves that record undispatched in every continuation |
| Reconnects.AbortAfterReportLosesRecord | stream.go:270-279 | From any state about to receive a new record with the heartbeat alive, whatever it is doing and whatever is on the wire, some continuation (a report, then an abort with the record in hand) loses its changes for every later session |
| Wakeups.NoLostWakeup | stream.go:198-256 | In every interleaving with the one-slot channel, each reply request is answered by an update with a position no older than at the request, or a token is pending or such an update is under way, or the heartbeat has ended; the session's received ends must not decrease |
| Wakeups.DistanceShrinks | stream.go:198-231 | No step of anyone else moves a request further from its answer, and each heartbeat step moves it closer |
| Wakeups.AnsweredWithinFourMoves | stream.go:198-231 | After four heartbeat steps in the session, however interleaved, every earlier request is answered or the heartbeat has ended |
| Stream.RouteStopsAtFirstFailure | stream.go:284-294 | The handler's first error, and no earlier one, ends the routing of a payload, on a published change; without an error all changes are routed |
| Stream.ReplicationStream.constructor | stream.go:86-99 | A new stream starts at the resume position with an empty cache, no token and balanced counters |
| Stream.ReplicationStream.Route | stream.go:284-294 | In order, each change goes to exactly one of publication, the outbox queue and the malformed rows, up to the first handler error; each row is accepted or timed out as its queue answers |
| OutboxRows.RoutedInOrder | outbox.go:122-137 | Change by change: one that is no insert on the table is next among the published, unaltered; one whose columns can be read is next among the rows, with the id, topic and payload they say; any other is counted as malformed |
| Stream.ReplicationStream.EnqueueRow | outbox.go:161-165 | One more row, recorded with the queue's own answer |
| Stream.ReplicationStream.RouteAll | stream.go:284-294 | Every change counted by the decoder is accounted for, those behind a handler error included |
| Stream.ReplicationStream.HandleCopyData | stream.go:236-297 | Effect of one payload on positions, token, cache, routes and error; ChangesProcessed = published + rows accepted + rows timed out + malformed, plus what a handler error left behind |
| Stream.ReplicationStream.HeartbeatRound | stream.go:198-231 | A round is woken by a tick or a token, uses up only a token, and reports the position it then reads |
| Stream.ReplicationStream.Run | stream.go:151-189 | Over a whole session: every turn before the last is an ignored message, a keepalive, or a record that decodes and whose changes the handler took; a failed heartbeat, receive error, error response, unparsable message or decode error is the last turn and gives the error of its own kind; what was routed is what decoding in order yields, short of the changes abandoned at a handler error |
| Stream.TurnErrors | stream.go:161-188 | Which turns the loop survives, and the error each other kind ends it with |
| Stream.TurnEnds | stream.go:161-188 | How a turn comes out, and that the handler fails at most at the last change published |
| Stream.ReplicationStream.TakeTurn | stream.go:161-188 | One pass of the loop: the heartbeat's error first, then the receive, then the message by its kind |
| Stream.RoutesConcatenate | stream.go:284-294 | Routing a concatenation is routing its parts |
| Stream.EnqueuedSplits | outbox.go:161-165 | Rows sent to the outbox = rows accepted + rows timed out; EndToEnd ties both to the scheduler |
| EndToEnd.PushedAreTakenOrQueued | outbox.go:143-166 | In every run of the scheduler rows pushed = rows taken by drainers + rows queued |
| EndToEnd.RowsMeetTheirFates | stream.go:284-288 | Row by row, what the stream recorded of the outbox is what the scheduler did: same rows, same order, accepted exactly if pushed |
| EndToEnd.AcceptedRowsAreSomewhere | outbox.go:143-197 | Rows accepted = delivered + failed + cancelled + in flight + queued |
| EndToEnd.EveryChangeIsSomewhere | stream.go:275-294 | ChangesProcessed = published + malformed + abandoned + timed out + delivered + failed + cancelled + in flight + queued, across the stream and its consumer |
| Handling.HandlingIsMoves | stream.go:236-297 | Uninterrupted, the session protocol's moves for a payload leave position, token, recorded reply requests, dispatched changes and loop as handleCopyData does; it fails exactly when the session ends, at the receive point if and only if the payload did not parse |
| Handling.RoundIsMoves | stream.go:198-231 | Uninterrupted, a heartbeat round sends one report of the position it reads and uses up a token only if it was woken by it |
| Handling.RecordHandled | stream.go:258-296 | Receiving a record, dispatching its first k changes and ending or aborting appends exactly those k changes to the output |
| OutboxRows.ClassifiedByColumns | outbox.go:86-120 | A change is a row if and only if it is an insert on the table with a text id denoting a 64-bit integer, a text topic and a text payload that unmarshals, and the row holds just these; malformed if and only if it is such an insert and they cannot be read; otherwise not for the outbox |
| OutboxRows.ParseIntIsDenotation | outbox.go:99-102 | ParseInt accepts exactly the optionally signed decimal numerals, leading zeros allowed, of integers in the 64-bit range, and gives the integer denoted |
| OutboxRows.ParseIntRoundTrip | outbox.go:99-102 | The decimal text of every 64-bit integer parses to it |
| OutboxRows.OnlyInsertsReachDelivery | outbox.go:90-137 | A change reaches the outbox only if its message is an insert on the outbox relation, so the ack's own update never re-enters delivery |
| OutboxRows.EveryChangeIsRoutedOnce | outbox.go:122-137 | Changes = published + queued + malformed |
| OutboxRuns.HandledRowsHaveFates | outbox.go:143-166 | Rows handled are, in order, those pushed or dropped and the one in the receive loop's hands |
| OutboxRuns.TopicsKeepOrder | outbox.go:143-197 | For every schedule and topic, settled ++ current ++ queued rows equal in order the rows handled for the topic minus those timed out: none is lost, duplicated, reordered or moved to another topic |
| OutboxRuns.SemaphoreCountsDrainers | outbox.go:144-165 | One drainer a topic; slots held = live drainers + one for a drainer being started, at most 64; the gauge = drainers inside a delivery; no drainer ends while ctx is live |
| OutboxRuns.GaugeBounded | outbox.go:171-173 | The in-flight gauge never exceeds the slots held, so never 64 |
| OutboxRuns.RowsTakenAreAccountedFor | outbox.go:171-197 | Rows taken = delivered + failed + cancelled + in flight, and each counter counts its own outcome |
| OutboxRuns.TopicsAreThoseHandled | outbox.go:143-146 | The started topics are exactly those of the rows handled |
| OutboxRuns.AdmittedIffAtMost64Topics | outbox.go:146-147 | While ctx is live a row that needs a new drainer gets a slot if and only if at most 64 distinct topics were handled |
| OutboxRuns.ProducerCanFinish | outbox.go:143-166 | With at most 64 topics enqueue finishes: whatever the drainers do in between, at most three steps of the receive loop's own bring it back, and until then, while ctx is live, one of them is enabled |
| OutboxRuns.DroppedIffBacklogFull | outbox.go:161-165 | The final select drops a row exactly when 256 rows kept for its topic wait to be taken, and pushes it exactly when fewer do |
| OutboxRuns.SixtyFifthTopicBlocks | outbox.go:146-147 | With a 65th topic nothing but cancellation ever moves the receive loop again |
| Consumers.AlwaysSound | cdc.go:217-230 | In every run over reconnects the older consumers' receive loops are out of enqueue, all consumers share one context, and each one's part is a run of the scheduler |
| Consumers.DrainedKeepsOrder | cdc.go:217-230 | After a reconnect at which no older consumer holds a row of the topic, its deliveries keep the order of the stream up to the next reconnect |
| Consumers.UndrainedCanReorder | stream.go:86-96 | After a reconnect with a row of the topic still held, some continuation delivers a newer row of the topic before it |
| Consumers.ReconnectKeepsOrderIffDrained | stream.go:86-96 | A reconnect is harmless to a topic's order in every continuation if and only if no consumer then holds a row of the topic |
| Consumers.OrderAcrossReconnects | outbox.go:38-42 | If the topic was drained at every reconnect, its finished, current and queued rows are, in order, all rows ever pushed for it |
| Delivery.OutboxConsumer.constructor | outbox.go:66-77 | Five retries from a one-second base, and the scheduler's initial state |
| Delivery.OutboxConsumer.Enqueue | outbox.go:143-166 | Uninterrupted, enqueue is the scheduler's enqueue, acquire, spawn and push or time-out steps; it blocks exactly for a new topic without a free slot and drops exactly at a full queue |
| Delivery.OutboxConsumer.DeliverWithRetry | outbox.go:171-197 | For any retry limit n and base b: at most n+1 calls; exactly one of delivered, failed and cancelled; total backoff at most b*(2^n - 1), with equality (for b > 0) exactly when all n+1 calls were made; gauge restored; delivered counted whatever the ack does |
| Delivery.DeliveryStepsSettle | outbox.go:171-197 | The scheduler steps of such a delivery log one outcome and otherwise leave the state as before |
| Delivery.BackoffsSum | outbox.go:175-183 | The first k backoffs add up to b*(2^k - 1) |
| Delivery.BackoffBound | outbox.go:175-183 | They stay below the bound for n retries and reach it only at k = n |
| Cdc.RetryableIfTransient | cdc.go:325-346 | However deeply wrapped, the innermost error decides: the context's errors are not retried, a server error exactly for the nine SQLSTATEs, any other error is; one more wrapper changes nothing |
| Cdc.WaitIsCapped | cdc.go:142-165 | The first wait is one second, the next ones double up to 30 and stay there from the sixth on |
| Cdc.CDC.constructor | cdc.go:97-104 | A non-positive buffer size becomes 100; no registrations |
| Cdc.CDC.OnChange | cdc.go:110-123 | Takes the next id, lists it and subscribes one open channel of the configured size under it |
| Cdc.CDC.UnsubscribeAll | cdc.go:289-301 | In any order closes and removes exactly the listed registrations, leaving every other subscriber alone |
| Cdc.CDC.Start | cdc.go:141-175 | The k-th wait is min(2^(k-1), 30) seconds without reset; the loop goes on exactly after an error whose innermost error is transient, with ctx live and the wait slept through; the result is an error only when ctx is live and then it is the last, permanent one, after every registration was closed |
| Webhook.EveryChangeHasOnePlace | cmd/phylax/main.go:192-229 | At every step each published change, counted by itself or in total, is in one place: dropped, buffered, held by the callback, in flight, delivered or given up |
| Webhook.WebhookConservation | cmd/phylax/main.go:192-229 | Published = dropped + buffered + held (at most 1) + in flight (at most 5) + delivered + given up; a delivered change took one to three POSTs, one given up three, or none if it cannot be marshalled |
| Webhook.BlockedIffFiveSlotsHeld | cmd/phylax/main.go:194-203 | The callback is held up exactly while five posters hold their slots |
| Webhook.PostWithRetry | cmd/phylax/main.go:206-229 | Delivered if and only if one of three POSTs succeeds; stops at the first success; every failure, the last included, is followed by its sleep; no POST for a change that cannot be marshalled |
| Sse.ServeEvents | sse.go:166-201 | The handler's writes are the preamble and then each event or ping frame |
| Sse.Listen | cmd/sse-client/main.go:57-65 | The client's loop prints the data of the lines scanned so far, and fails exactly when a line is too long |
| Sse.OverflowIffUnbroken | cmd/sse-client/main.go:57-65 | The scanner gives up if and only if 65536 bytes in a row hold no line break |
| Sse.BadFrame | cmd/sse-client/main.go:57-65 | A payload with a line break or final carriage return, or too long, is not what the client prints next |
| Sse.BodyRoundTrip | sse.go:180-196 | The round trip without the preamble, if and only if every payload is good |
| Sse.RoundTrip | sse.go:170-196 | The client returns exactly the served payloads, in order, with pings anywhere between, if and only if every payload is one line without a final carriage return that fits the scanner |
| EventSource.RoundTrip | sse.go:145-196 | A browser's EventSource gets one event per change with exactly its payload, in order, with pings anywhere between, if and only if every payload is one line |
| EventSource.BrokenEvent | sse.go:187 | The first event a browser gets for a payload with a line break is not that payload |
| Sse.CutStream | cmd/sse-client/main.go:57-65 | With good payloads, a connection cut after any byte yields a prefix of them, only the last possibly cut short |
| Csv.FieldRoundTrip | dashboard.html:771-774 | Any string survives quoting, and the parser stops right behind it |
| Csv.QuotedIffNeeded | dashboard.html:771-774 | A field is quoted if and only if it has a quote, a comma, a carriage return or a line feed in it |
| Csv.RecordRoundTrip | dashboard.html:779 | A record of any fields parses back to them |
| Csv.RecordsRoundTrip | dashboard.html:776-780 | So does a list of records separated by CRLF |
| Csv.ExportRoundTrip | dashboard.html:776-785 | After the byte order mark the file parses to the header and exactly the rows' fields, whatever quotes, commas and line breaks they hold, also with no rows |
| Feed.FeedState.AddChange | dashboard.html:653-666 | Counts, queues and schedules unless paused |
| Feed.FeedState.ScheduleFlush | dashboard.html:668-676 | At most one frame is ever scheduled, none while paused |
| Feed.FeedState.TogglePause | dashboard.html:741-748 | Flips the pause and schedules nothing |
| Feed.FeedState.Frame | dashboard.html:672-675 | A frame clears its flag before the flush, so that leftovers schedule the next one |
| Feed.FeedState.FlushFeed | dashboard.html:678-723 | The loops leave what the frame's specification says: 100 changes at most move to the front, newest first, 50 stay, the rest waits for the next frame |
| Feed.FeedState.UnshiftAll | dashboard.html:690-716 | Unshifting one by one puts the batch in front, reversed |
| Feed.FeedState.Trim | dashboard.html:717 | Popping leaves the first 50 |
| Feed.FeedIsNewestFlushed | dashboard.html:653-717 | In every run flushed ++ pending changes are those that arrived while unpaused, in order, and the feed is the newest 50 flushed entries, newest first |
| Feed.EntriesMatchChanges | dashboard.html:633-716 | Entry by entry the flushed entries show the flushed changes: table, operation, and as row text "all rows" for a truncate, else the new row, else the old one, else an empty object |
| Feed.EntriesShow | dashboard.html:690-716 | In one flush too, each entry with the time of its own change |
| Feed.FeedAt | dashboard.html:715-717 | The feed holds at most 50 entries, the i-th being the i-th newest flushed |
| Feed.BatchIsOldestHundred | dashboard.html:680-687 | One frame moves the oldest pending changes, a hundred at most, and leaves the others |
| Feed.StrandedIffFrameWasted | dashboard.html:668-680 | Changes are pending without a scheduled frame if and only if the last frame fired while paused with changes pending and no change arrived unpaused since |
| Feed.ExportShowsNewest | dashboard.html:776-785 | At any moment the exported file parses to the header and, newest first, one record for each of the newest 50 flushed changes: under each of time, table, operation and row that change's own |
| Witnesses.ChangeIsLost | stream.go:270-279 | A run from a fresh slot in which a record with a change is received, reported, aborted, and its change never dispatched in any continuation |
| Witnesses.RecordIsReplayed | cdc.go:195-207 | A run without errors in which a record dispatched in full is received again after a reconnect |
| Witnesses.SixtyFifthTopicStalls | outbox.go:146-147 | A run that hands one row to each of 65 topics and leaves the receive loop where it is in every uncancelled continuation |
| Witnesses.RowIsOvertaken | stream.go:86-96 | A run over one reconnect in which a topic's second row is delivered before its first |
| Witnesses.ChangeIsStranded | dashboard.html:668-680 | A run after which an arrived change waits unpaused and unscheduled |

## Left out

- At-least-once outbox delivery across crashes: the code confirms positions on receipt, so the theorems end at dispatch; rows queued or in delivery when the process ends are outside the model.
- Connections, SQL text, slot and publication creation (connect.go, publication.go, replication.go, slot.go): only the resume decision and the slot's creation are kept.
- The parsing of pgoutput and replication messages, JSON, pgx and the Go runtime: models start from parsed messages, and JSON decoding is a parameter.
- Stream.ReplicationStream.Route: the queues' answers are given from outside as a function of the row's number; EndToEnd takes them from a run of the scheduler.
- Delivery.OutboxConsumer.Enqueue: describes enqueue without other goroutines in between; their interleavings are those of OutboxRuns.
- Delivery.OutboxConsumer.DeliverWithRetry: the ack's result is ignored as in the code, and the ack's fixed table name is not modelled.
- Cdc.CDC.OnChange: describes the call without other goroutines in between; its two steps interleave freely in Registry.
- Cdc.CDC.Start: takes the outcomes of its sessions as a list; how a session comes to its outcome is the session protocol's matter.
- Decode.ConsumerTracksRow: follows one row whose table is not truncated and whose relation keeps its columns; telling rows apart by key is left to the consumer.
- Registry.IdsDistinct: one Server per broadcaster is assumed, as in CDC.Server; two would hand out the same ids.
- Fanout.Conservation: a subscriber with buffer size 0 is modelled as one that always drops, where a Go channel of size 0 could hand over to a waiting reader; the repository's callers pass at least 1.
- Integer widths: counters, ids, positions and durations are unbounded, except the outbox id, whose 64-bit range is checked.
- Wall-clock time: ticks and backoffs are steps that may happen at any moment; backoff lengths are kept as numbers. The two seconds of enqueue run out at a full queue only: a receive loop descheduled for that long between making the timer and reaching a select with room in the queue is not modelled.
- The stream's private broadcaster: clients subscribe to the CDC client's own, and one broadcaster model covers both.
- Goroutines reading a closed channel to its end: Receive takes what is buffered; the end of a range loop is not an event.
- ReplicationLag, the metrics handler and snapshot, the HTTP server's life cycle and headers, flags, logging, stdout printing.
- The dashboard's DOM rows, charts, rates, theme and connection status: only the state behind the export is kept.
- EventSource.RoundTrip: follows the data field only, as the server sends no other, and starts after any byte order mark.
- Characters: SSE text stands for bytes and CSV text for code units; no encoding is modelled.
