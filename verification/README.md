# devlog, modelled and proved

devlog collects the output of development processes: a client wrapper mirrors a child's lines to the terminal and
sends them over a socket to one broker, which caches them in ring buffers and writes them to SQLite in batches. The
hard part is not the I/O but what has to stay true around it: handlers, a batch writer and a shutdown that interleave,
a client that loses its broker and comes back, three stores that must name the same sessions, and buffers and queries
that must mean something simple. This project models those parts in Dafny and proves properties of every run.

Check it with `dafny verify dfyconfig.toml`; every proof also fits `--resource-limit 2000000`.

## How the parts fit

- **Value-level meaning and machine.** `Lifecycle` is the running broker as a step relation (clients, accept loop, any
  number of handlers, batch writer, retention loop, one Stop); `Clients` is the client wrapper as another (any number of
  SendLog callers, reconnect loops, flush, context). Both carry history fields, and theorems are about every run
  from the initial state.
- **In place.** What the source changes in place is a class with the same fields and loops, proved against those
  functions: `RingBuffers.RingBuffer`, `LineBuffers.LineBuffer`, `LogCaches.LogCache`, `Storage.Store`,
  `BatchWriters.BatchWriter`, `SessionDesks.Manager`, `SessionDesks.ConnTracker`, `SessionDesks.SessionDesk`,
  `LogClients.LogClient`, `Codec.Encoder`, `Codec.Decoder`, `EndToEnd.EventSink`.
- **Pure code** is functions: `Levels` (the pattern table, with a matcher for its regular expressions), `Queries`
  (SELECTs) and `Likes` (LIKE over UTF-8 characters), `Decimal`, `Json`. Case is folded for ASCII letters only; that is exact for the
  level patterns, since no keyword has a k or an s, the two letters with other case variants in Go.
- **The pieces meet** in `ReadLoop` (what clients sent against what was cached), `ClientCalls` (what the client was asked
  against what it wrote), `Restart` (tables back into a cache), `JointRuns` and `JointTrace` (any number of `Clients`
  machines and outsiders against one `Lifecycle` run, over `SessionBindings`), `RetentionRuns` (any number of `Lifecycle` runs on one
  database, each step a run of the one-clock world of `Retention`), `PipelineOrder` (cache against channel), `CutFrames`
  (a failed Write against the reader) and `EndToEnd` (frame to handler to errors query).

A call that may fail takes its outcome as an input (`fails`, `ok`, `failing`), and so do the clock and dialling.
Proofs use `hide` to keep definitions a step does not need away from the solver.

## Where the plain claim is false

- A SendLog right after the swap overtakes the flush: `ClientRuns.SendLogMayOvertakeTheFlush` is a run,
  `ClientOrder.OutOfOrderExactlyWhenOvertaken` says exactly which writes are out of order.
- A line pushed between the drain and the reset of the flag stays behind: `ClientRuns.ALineMayBeLeftBehind`,
  `ClientOrder.LeftBehindExactlyWhenLate`, `ClientOrder.LeftUntilTheNextFailure`.
- Cache and channel may see two connections in different orders: `PipelineOrder.CacheAndChannelMayDisagree` is a run,
  `PipelineOrder.OutOfOrderExactlyWhenOvertaken` says exactly which events are out of order and
  `PipelineOrder.CacheOrderKeptIffNoneOvertaken` exactly when none is.
- Stop waits for connected clients, which nobody closes: `LifecycleTermination.StopReturnsIffNobodyStays`.
- The retention loop is waited for by nobody: `LifecycleTermination.RetentionMayOutliveStopIffConfigured`; what it does
  then is nothing: `LifecycleTermination.LatePruneChangesNothing`.
- A session_end on another connection leaves a listed session that is not active:
  `Ownership.ListedButForgottenIffForeign`; clients never send one: `JointRuns.ClientsAloneNeverEndForeign`.
- A message whose Encode failed may have been received, exactly when nothing but its newline was lost:
  `CutFrames.FailedEncodeIsRead`.
- LIKE wildcards in a search are not escaped: `Likes.SearchIsSubstringIffPlain`; what such a search finds instead:
  `Likes.SearchFindsThePieces`.
- Only services with a sessions row are warmed: `Restart.UnlistedServiceIsNotWarmed`.
- A session ended by somebody else can lose its row while newer events name it: `Retention.ForeignEndMayOrphan`,
  `Retention.OrphanedExactlyWhenLate`.
- A log line that is not well-formed UTF-8 does not come back as it was: `Codec.MessageRoundTrip`.

## Where code and documentation disagree

The model follows the code.

- docs/ARCHITECTURE.md:94-103 draws the cache behind the event queue. The code adds to the cache before it offers
  the event to the channel (internal/broker/broker.go:330-344), so a dropped event is still cached.
- docs/ARCHITECTURE.md:210 calls the search a substring search; it is one exactly for queries without `%` and `_`.
- docs/ARCHITECTURE.md:179 has the cache rebuilt from SQLite; a service without a sessions row is left out.
- docs/ARCHITECTURE.md:156 declares `session_id` a reference to a session. Nothing enforces it, and events may name
  no session at all (an ID that does not parse is stored as 0).
- Wait promises a finished shutdown; when store.Close fails, Stop returns without closing quit
  (internal/broker/broker.go:181-183), which the model keeps as a phase of its own, `CloseFailed`.
- A session_end that arrives on another connection leaves the ID listed under its owner, whose cleanup later
  overwrites ended_at (internal/broker/broker.go:273-286, 349-361): `Ownership.ForeignEnd`,
  `Ownership.ForeignEndIsOverwritten`.

## Model

| member | source | states |
|---|---|---|
| `LifecycleSafety.PipelineConserves` | internal/broker/broker.go:321-345 | in every reachable state, per service, each event is cached exactly as often as it was accepted, dropped on a full channel, or is between its Add and its send; accepted events are flushed batches ++ batch ++ queue in channel order; cache and channel each keep every connection's own order; nothing is cached twice |
| `ReadLoop.EveryLogReadIsCached` | internal/broker/broker.go:228-261 | in every reachable state the frames a handler took are the first ones its client sent, in order, and the cached events of its connection are exactly the log messages among them, numbered in that order |
| `ReadLoop.EverySentLogIsCached` | internal/broker/broker.go:228-269 | and once its read loop has ended, all the log messages the client sent before the first frame that is not JSON |
| `LifecycleSafety.DurabilityLagIsBounded` | internal/broker/broker.go:492-538 | at most 499 events batched and 10000 queued at any time, every insert call gets 1 to 500, so at most 10499 accepted events are neither persisted nor lost to a failed insert |
| `LifecycleSafety.TickEmptiesTheBatch` | internal/broker/broker.go:534-535 | after a tick in any reachable state everything accepted is in the channel or went to an insert call, and what the tick flushed is in the table, each line with its own text, unless the call failed |
| `LifecycleSafety.WriterTakesTurns` | internal/broker/broker.go:507-537 | the machine's Receive and Tick steps are the turns of the writer's loop |
| `LifecycleSafety.NeverAFault` | internal/broker/broker.go:157-194 | over every run no handler ever sends on the closed channel, no handler or writer touches the store after Close, no wait group is misused; whenever a handler can step, channel and store are open |
| `LifecycleSafety.ShutdownLeavesNothing` | internal/broker/broker.go:166-194 | once the store is closed nothing is queued or batched, every accepted event went to an insert call, nothing is active or tracked, and no session of this run is open unless the call ending it failed |
| `LifecycleSafety.ShutdownIsComplete` | internal/broker/broker.go:157-194 | without store errors every accepted event was committed, its row is in the table unless a prune passed it, and every session of this run has ended_at |
| `LifecycleSafety.StepKeepsInv` | internal/broker/broker.go:203-345 | every step of every actor keeps the whole invariant: life cycle, flow, counts, order, table and session desk |
| `LifecycleSafety.ReachableInv` | internal/broker/broker.go:105-152 | that invariant holds of every state reachable from Start, for any earlier tables |
| `LifecycleSafety.TableAfterCommit` | internal/storage/storage.go:96-122 | a committed batch extends the table and the record of all rows ever by the same rows |
| `LifecycleSafety.RunKeepsClean` | internal/broker/broker.go:273-286 | a run in which no store call fails strands no session and loses no batch |
| `LifecycleTermination.StepDecreases` | internal/broker/broker.go:157-194 | once done is closed every step but an empty tick or a prune decreases one measure over unread messages, handlers, queue, batch and phase |
| `LifecycleTermination.ShutdownIsBounded` | internal/broker/broker.go:228-269 | however ticks and prunes are mixed in, a shutdown does at most that much work |
| `LifecycleTermination.ShutdownNeverStuck` | internal/broker/broker.go:157-194 | when no handler waits for a client that is still connected and has sent nothing unreadable, some working step is enabled until Stop has returned |
| `LifecycleTermination.ShutdownEnds` | internal/broker/broker.go:157-194 | from any reachable state with done closed and clients gone, work is bounded, and a broker that can do no more has returned from Stop |
| `LifecycleTermination.ShutdownReachesQuit` | internal/broker/broker.go:157-199 | and with Close working the broker alone reaches quit within the measure |
| `LifecycleTermination.StopReturnsIffNobodyStays` | internal/broker/broker.go:166-194 | from any reachable state with done closed, quit can be reached without a client step iff no handler is left waiting for its client |
| `LifecycleTermination.AliveUntilStop` | internal/broker/broker.go:207-218 | until Stop is called, whatever fails, the accept loop, the writer and a configured retention loop live |
| `LifecycleTermination.RunningHoldsNobodyUp` | internal/broker/broker.go:203-269 | while it runs, clients can dial, the dialled be accepted, what has arrived be read, what is queued received, and ticks, configured prunes and Stop can come at any moment |
| `LifecycleTermination.StopFailsIffCloseFails` | internal/broker/broker.go:181-191 | Stop returns early, for good and with quit open, iff closing the store failed |
| `LifecycleTermination.RetentionMayOutliveStopIffConfigured` | internal/broker/broker.go:555-578 | some run has quit closed and the retention loop still alive iff retention was configured |
| `LifecycleTermination.LatePruneChangesNothing` | internal/broker/broker.go:555-578 | from any reachable state with the store closed, no run changes the tables, prunes included |
| `BatchWriters.WriterConserves` | internal/broker/broker.go:492-538 | for every schedule of messages and ticks the items received are flushed ++ batch in order, and the tables hold exactly the committed batches |
| `BatchWriters.TickLeavesNothing` | internal/broker/broker.go:534-535 | after any schedule that ends in a tick the batch is empty, everything received went to insert calls, and with no failed call it is in the table |
| `BatchWriters.NothingWaitsPastATick` | internal/broker/broker.go:507-537 | and nothing received before a tick ever waits again |
| `BatchWriters.FinalFlushLeavesNothing` | internal/broker/broker.go:509-516 | after the channel is closed and drained the final flush leaves no event behind |
| `BatchWriters.BatchWriter.Flush` | internal/broker/broker.go:497-505 | one insert call for a non-empty batch, whose slots are reused whether it committed or not |
| `BatchWriters.BatchWriter.Receive` | internal/broker/broker.go:508-531 | the slot after the last holds the message's own session, time, stream, level, text and service; at 500 all of them are flushed, before that none |
| `BatchWriters.BatchWriter.Loop` | internal/broker/broker.go:492-538 | the whole loop over any wake-ups equals the writer function, tables and insert history included |
| `EndToEnd.EventSink.HandleLog` | internal/broker/broker.go:321-345 | an entry with the message's own session, time, stream, level, text and service is added to the service's cache history, then the event is accepted or, when 10000 are waiting, dropped; never both |
| `EndToEnd.HandleLogIsTwoSteps` | internal/broker/broker.go:321-345 | the machine's cache step and send step, taken back to back, do exactly that to the pipe |
| `EndToEnd.FrameReachesHandler` | internal/broker/broker.go:234-268 | a frame a client sent is the message its handler acts on: same fields when all strings are UTF-8, cleaned ones otherwise; queries and replies have no effect on the machine |
| `EndToEnd.RowCameThrough` | internal/broker/broker.go:517-529 | every row this run stored has the text, stream, time, service, session and level of an event that was cached and accepted |
| `EndToEnd.ErrorsEndToEnd` | internal/storage/storage.go:179-209 | for a row that came through the broker, QueryErrors returns it iff it is of the service, on stderr or with an ERR/ERROR word and no FATAL/PANIC word, and not older than a positive bound; its level is the cached entry's level; newest first |
| `EndToEnd.SearchEndToEnd` | internal/storage/storage.go:145-174 | for a row that came through the broker, a search without wildcards returns it iff the line that was sent contains the query, is of the service and not older than a positive bound; with wildcards, at least then |
| `ClientSafety.OneReconnectLoop` | internal/client/client.go:115-123 | in every run the flag is set exactly while a reconnectLoop lives, and never two live |
| `ClientSafety.NothingIsWrittenWhileDown` | internal/client/client.go:147-202 | from the close of the old connection to the swap no log, session_end or flush writes anything; every SendLog fails into the buffer path |
| `ClientSafety.SessionBinding` | internal/client/client.go:194-202 | every log and session_end on a connection carries the ID the broker replied with on it (none on the first one if RegisterSession failed there), and connections are written in dial order |
| `ClientSafety.EveryLineInOnePlace` | internal/client/client.go:91-141 | every line handed to SendLog is, once, in exactly one of: wire, failed-not-pushed, buffer, flight, overwritten, dropped; so no line is written twice |
| `ClientSafety.NothingLost` | internal/client/client.go:208-232 | idle, with an empty buffer and nothing overwritten or dropped, every submitted line is on the wire exactly once |
| `ClientSafety.TwoWaysToLose` | internal/client/client.go:225-230 | a step overwrites only the oldest line of a full buffer on a push, and drops only the rest of a failed flush |
| `ClientCalls.WireCarriesTheCalls` | internal/client/client.go:91-118 | in every run the lines handed over are the SendLog calls with their own stream, text and time, the direct writes are exactly the successful ones in order, and the session_ends carry exactly the times of the successful EndSession calls |
| `ClientCalls.EveryWriteIsACall` | internal/client/client.go:208-232 | whatever is on the wire, flushed lines included, is a SendLog call as it was made |
| `ClientCalls.NoConnectionLeaks` | internal/client/client.go:147-205 | every connection ever dialled is closed, in use, or being set up by the one loop |
| `ClientCalls.CancelledStopsDialling` | internal/client/client.go:127-130 | once the context is cancelled at most one more dial happens, if a loop was on its way to it |
| `ClientSafety.StepKeepsLoop` | internal/client/client.go:115-141 | every step keeps: all loops but the newest dead, flag set iff it lives, mutex held across steps iff it flushes |
| `ClientSafety.StepKeepsLink` | internal/client/client.go:147-202 | every step keeps: no connection means the encoder's is closed, a connection being set up is newer than the encoder's, its reply is the one minted there |
| `ClientSafety.StepKeepsWire` | internal/client/client.go:91-102 | every step keeps what was written consistent with the IDs minted |
| `ClientSafety.StepKeepsCount` | internal/client/linebuffer.go:30-59 | every step keeps the balance of places for every line |
| `ClientSafety.PushSqueezes` | internal/client/linebuffer.go:30-38 | a push keeps everything but, in a full buffer, the oldest line |
| `ClientOrder.EachPathKeepsOrder` | internal/client/client.go:91-136 | per caller, direct writes are in order, and so are flushed writes |
| `ClientOrder.OutOfOrderExactlyWhenOvertaken` | internal/client/client.go:132-135 | a write follows a later line of its caller iff its line was still waiting when a later SendLog of that caller wrote directly |
| `ClientOrder.OrderExactlyWhenNothingOvertaken` | internal/client/client.go:132-135 | the wire keeps every caller's order iff no line on it was overtaken |
| `ClientOrder.LeftBehindExactlyWhenLate` | internal/client/client.go:115-136 | with nobody active and the context alive, lines are left in the buffer iff some caller pushed after the last drain and then found the flag of that drain's loop still set |
| `ClientOrder.LeftUntilTheNextFailure` | internal/client/client.go:104-117 | such lines are untouched by any run without a failing SendLog |
| `ClientRuns.SendLogMayOvertakeTheFlush` | internal/client/client.go:132-135 | a run whose wire holds the second line before the first |
| `ClientRuns.ALineMayBeLeftBehind` | internal/client/client.go:122-136 | a run that ends idle with a line in the buffer |
| `LogClients.LogClient.constructor` | internal/client/client.go:40-47 | New: no connection, no encoder, no session, no PID, an empty buffer and a clear flag |
| `LogClients.LogClient.Connect` | internal/client/client.go:50-59 | a successful dial sets connection and encoder, a failed one changes nothing |
| `LogClients.LogClient.RegisterSession` | internal/client/client.go:64-86 | the PID is set either way, so later connections register; the session is the reply, or what it was when the call fails |
| `LogClients.Open` | internal/client/runner.go:30-63 | New, Connect and RegisterSession, answered or not, leave the machine's initial link |
| `LogClients.LogClient.SendLog` | internal/client/client.go:91-118 | success writes the line with the current session on the current connection; failure buffers it and starts a loop iff the flag was clear |
| `LogClients.LogClient.Reconnect` | internal/client/client.go:147-205 | closes first, then leaves the link down, closed again or swapped according to dial and reply; reports success iff swapped |
| `LogClients.LogClient.FlushBuffer` | internal/client/client.go:208-232 | drains everything and writes exactly the prefix before the first failing Encode |
| `LogClients.WroteEachLine` | internal/client/client.go:217-231 | flushing lines writes each of them once, in order, on the current connection with the current session |
| `LogClients.LogClient.EndSession` | internal/client/client.go:235-249 | a session_end with the current session and the given time on the current connection, or nothing |
| `LogClients.LogClient.Close` | internal/client/client.go:252-260 | closes the connection if there is one and leaves the field set |
| `LogClients.SendLogIsARun` | internal/client/client.go:91-118 | an uninterrupted SendLog is a run of the machine |
| `LogClients.ReconnectIsARun` | internal/client/client.go:147-205 | each outcome of one reconnect attempt is a run of the machine |
| `LogClients.EndAndCloseAreRuns` | internal/client/client.go:235-260 | so are EndSession and Close |
| `LogClients.FlushIsARun` | internal/client/client.go:208-232 | flushBuffer with any number of successful writes is a run of the machine |
| `SessionBindings.RepliesNameTheirConnection` | internal/broker/broker.go:291-316 | in every reachable state of a broker each reply it ever sent is the decimal ID of a session minted on that connection |
| `SessionBindings.EverySessionIsAnswered` | internal/broker/broker.go:291-316 | and the replies are the sessions of this run, one each in the order of their IDs: every session minted was answered on its connection, nothing else was |
| `SessionBindings.StepKeepsTraffic` | internal/broker/broker.go:234-361 | if clients send only IDs of their own connection, every step keeps everything unread, waiting or ever cached on their connections naming such IDs |
| `JointRuns.MoveKeepsInv` | internal/client/client.go:147-202 | every move of the joint machine keeps: each ID a client holds for a connection to this broker was minted on that connection, and all traffic and replies agree |
| `JointRuns.EventsNameTheirConnectionsSession` | internal/broker/broker.go:321-337 | in every joint run of clients, outsiders and broker, every event cached or accepted from a client's connection is a record of a session minted on that connection, or of none when the client has no ID |
| `JointRuns.EndsNameTheirConnectionsSession` | internal/client/client.go:235-249 | and every session_end waiting on such a connection parses to an ID minted on it, or is ignored |
| `JointRuns.ClientsAloneNeverEndForeign` | internal/broker/broker.go:349-361 | while only clients have connected, no session_end ever names another connection's session |
| `JointTrace.EventsAreClientLines` | internal/broker/broker.go:321-345 | in every joint run every event cached or accepted from a client's connection is a SendLog call of some client's history, with that stream, text and time, under its service |
| `JointTrace.StoredEndsAreEndSessions` | internal/broker/broker.go:349-361 | and until the connection is cleaned up, an ended_at stored for a client's session is the time of an EndSession call, unless a session_end came from another connection |
| `Ownership.ThreeStoresAgree` | internal/broker/broker.go:273-361 | over every run an ID is in the manager iff minted in this run, open in the table and not left open by a failed call; it is then listed exactly once, under its own connection |
| `Ownership.StepKeeps` | internal/broker/broker.go:291-361 | every start, end (any connection, any ID), cleanup and prune keeps manager, tracker and table in agreement |
| `Ownership.EndIsForever` | internal/storage/storage.go:87-93 | ended_at never returns to NULL and a pruned ID never comes back |
| `Ownership.ForeignEnd` | internal/broker/broker.go:349-361 | a session_end on another connection ends the row and deregisters it, but leaves it listed under its owner |
| `Ownership.ForeignEndIsOverwritten` | internal/broker/broker.go:273-286 | and the owner's later cleanup replaces ended_at with its own time |
| `Ownership.ListedButForgottenIffForeign` | internal/broker/conntracker.go:23-51 | over every run a listed ID is not active iff a session_end on another connection has named it |
| `Ownership.TrackedUntilCleanup` | internal/broker/conntracker.go:23-58 | over every run the tracker holds, and so counts, exactly the connections that registered a session and have not been cleaned up since |
| `Ownership.ActiveIsOpenHere` | internal/session/session.go:77-81 | the manager's count is the number of rows this run minted that are open and not left open by a failed call |
| `Ownership.ActiveDescribesItsRow` | internal/broker/broker.go:299-306 | over every run an active session has its row, with the same service, PID, command and host |
| `Ownership.CleanupEndsEverything` | internal/broker/broker.go:273-286 | after a cleanup nothing the connection owned is active or open |
| `SessionDesks.Manager.Register` | internal/session/session.go:32-36 | adds or replaces exactly that session |
| `SessionDesks.Manager.Deregister` | internal/session/session.go:39-43 | removes exactly that ID |
| `SessionDesks.Manager.ActiveForService` | internal/session/session.go:64-74 | exactly the active sessions of the service, each once |
| `SessionDesks.SpliceOut` | internal/broker/conntracker.go:31-41 | the in-place splice of an array removes the first occurrence and keeps the order of the rest |
| `SessionDesks.ConnTracker.Register` | internal/broker/conntracker.go:23-27 | appends the ID to the connection's list |
| `SessionDesks.ConnTracker.UnregisterSession` | internal/broker/conntracker.go:31-41 | removes the first occurrence from that connection's list only |
| `SessionDesks.ConnTracker.Deregister` | internal/broker/conntracker.go:45-51 | returns the connection's list and forgets it |
| `SessionDesks.SessionDesk.HandleSessionStart` | internal/broker/broker.go:291-316 | table, manager and tracker together become what Ownership.Start says |
| `SessionDesks.SessionDesk.HandleSessionEnd` | internal/broker/broker.go:349-361 | and what Ownership.End says of the parsed ID, store failure included; an ID that does not parse changes nothing |
| `SessionDesks.SessionDesk.CleanupConnection` | internal/broker/broker.go:273-286 | the loop over orphaned IDs is Ownership.Cleanup |
| `SessionDesks.SessionDesk.ActiveSessions` | internal/broker/broker.go:432-451 | the number a status reply gives is that of this run's open, unstranded rows |
| `RingBuffers.RingBuffer.constructor` | internal/cache/ringbuffer.go:15-23 | an empty buffer of the clamped capacity |
| `RingBuffers.RingBuffer.Push` | internal/cache/ringbuffer.go:26-32 | appends to the history the array mirrors, indices in range |
| `RingBuffers.RingBuffer.Recent` | internal/cache/ringbuffer.go:36-51 | the last min(n, capacity) pushes since the last Clear, in order, nothing for n <= 0 |
| `RingBuffers.RingBuffer.Len` | internal/cache/ringbuffer.go:54-56 | how many of them are kept |
| `RingBuffers.RingBuffer.Clear` | internal/cache/ringbuffer.go:59-66 | forgets everything and zeroes every slot |
| `RingBuffers.Drive` | internal/cache/ringbuffer.go:15-66 | for any capacity and any run of pushes and clears, Recent and Len are the bounded suffix of the pushes since the last Clear |
| `LineBuffers.LineBuffer.Push` | internal/client/linebuffer.go:30-38 | appends to the lines pushed since the last drain |
| `LineBuffers.LineBuffer.Drain` | internal/client/linebuffer.go:42-59 | the last min(1000, pushed) lines in order, and empties the buffer |
| `LineBuffers.LineBuffer.Len` | internal/client/linebuffer.go:62-66 | how many a drain would return |
| `LineBuffers.Drive` | internal/client/linebuffer.go:30-59 | for every run of pushes and drains, each drain hands back the newest 1000 lines since the one before |
| `LogCaches.LogCache.GetOrCreate` | internal/cache/cache.go:45-68 | returns the service's buffer, creating one only if there is none |
| `LogCaches.LogCache.Add` | internal/cache/cache.go:71-76 | extends the history of the entry's service and no other |
| `LogCaches.LogCache.Recent` | internal/cache/cache.go:80-91 | the tail of the service's own history, nothing for an unknown service |
| `LogCaches.LogCache.EntryCount` | internal/cache/cache.go:108-119 | its length up to the capacity |
| `LogCaches.LogCache.Clear` | internal/cache/cache.go:122-133 | clears that service and no other |
| `CacheRace.NoAddIsLost` | internal/cache/cache.go:45-76 | over every interleaving of probe, recheck and push of any Adds: one buffer per service, every push in it, in order, independent of other services |
| `CacheRace.AddsAreConserved` | internal/cache/cache.go:45-76 | over every interleaving each thread's Adds are, in order, those in the log and then the one it is in the middle of; none is lost, none pushed twice |
| `CacheRace.AddLands` | internal/cache/cache.go:45-76 | an Add left to run is in the log after two or three sections |
| `Restart.QueryServices` | internal/storage/storage.go:252-271 | exactly the services of the sessions table, ascending, each once |
| `Restart.AddReversed` | internal/broker/broker.go:468-481 | rows that arrive newest first are added oldest first |
| `Restart.WarmService` | internal/broker/broker.go:461-481 | one service's history grows by its newest 10000 rows in time order, the others stay |
| `Restart.WarmCache` | internal/broker/broker.go:454-486 | every listed service whose query works is warmed, nothing else is, and nothing at all when the services cannot be listed |
| `Restart.RestartServesTheTable` | internal/broker/broker.go:454-486 | for every service with a sessions row and n <= 10000, Recent(n) is the first n rows of the DESC query reversed, for any tie-break |
| `Restart.UnlistedServiceIsNotWarmed` | internal/storage/storage.go:252-271 | a service is warmed as its rows say iff it has a sessions row or no rows |
| `Restart.WarmRecordsAreTheLastRows` | internal/storage/storage.go:126-141 | with nondecreasing timestamps and newest-first ties, warming restores the last rows in table order |
| `Restart.RestartRoundTrip` | internal/broker/broker.go:454-486 | after a clean Stop with nothing failed, dropped or pruned, timestamps in order and no event overtaken on its way to the channel, the new broker's Recent(n) equals the old one's, for every n |
| `PipelineOrder.OutOfOrderExactlyWhenOvertaken` | internal/broker/broker.go:330-344 | in every reachable state an accepted event follows one of its service that was cached after it iff it was still on its way when the channel took such an event |
| `PipelineOrder.CacheOrderKeptIffNoneOvertaken` | internal/broker/broker.go:330-344 | the channel keeps a service's cache order iff none of its accepted events was overtaken |
| `PipelineOrder.OneOrderIffNoneOvertaken` | internal/broker/broker.go:330-344 | with nothing of the service dropped or on its way, the cached and the accepted events are the same sequence iff none was overtaken |
| `PipelineOrder.OneConnectionOneOrder` | internal/broker/broker.go:321-345 | when one connection feeds a service none of its events is overtaken, so in every reachable state the channel keeps the cache order |
| `PipelineOrder.CacheAndChannelMayDisagree` | internal/broker/broker.go:330-344 | a run in which two handlers cache in one order and enqueue in the other |
| `Storage.Store.CreateSession` | internal/storage/storage.go:74-84 | a new row with the next ID and ended_at NULL, or nothing |
| `Storage.Store.EndSession` | internal/storage/storage.go:87-93 | sets ended_at of that row if it exists, or nothing |
| `Storage.Store.InsertLogEvents` | internal/storage/storage.go:96-122 | the whole batch with consecutive IDs, or, when any statement or the commit fails, nothing at all |
| `Storage.Store.PruneByAge` | internal/storage/storage.go:275-301 | removes old events and sessions ended before the cutoff, that many calendar days before now, and returns exactly how many rows went |
| `Storage.FilterSplits` | internal/storage/storage.go:284-298 | what is kept and what is deleted add up to what there was |
| `Storage.PrunedKeepsWellFormed` | internal/storage/storage.go:275-301 | a prune keeps rows in ID order below the counters |
| `Retention.RetentionNeverOrphans` | internal/storage/storage.go:275-301 | over the life of a database, any prunes, late flushes, lost batches and drops: an event at or above the highest cutoff whose session ever existed still has it, and no event is later than the end of its session |
| `Retention.StepKeepsPool` | internal/client/runner.go:75-105 | every step keeps: a client writes its session_end only after its last line was stamped, so whatever it still holds is not later |
| `Retention.OrphanedExactlyWhenLate` | internal/storage/storage.go:284-291 | some cutoff orphans an event iff it is later than its session's end |
| `Retention.ForeignEndMayOrphan` | internal/broker/broker.go:349-361 | a run with a foreign session_end in which a prune leaves an orphan |
| `RetentionRuns.FlushIsCommit` | internal/broker/broker.go:492-538 | every step of the batch writer is a commit of what waited longest, or nothing |
| `RetentionRuns.CleanupIsDisconnects` | internal/broker/broker.go:273-286 | a cleanup is a disconnect of each session still listed |
| `RetentionRuns.TickIsPrune` | internal/broker/broker.go:555-578 | a retention tick is one prune, or nothing once the store is closed |
| `RetentionRuns.StepIsMirrored` | internal/broker/broker.go:203-345 | every step of the broker is a run of that world ending in the broker's own tables |
| `RetentionRuns.BrokersNeverOrphan` | internal/broker/broker.go:555-578 | over any number of broker runs on one database no recent event in the broker's tables has lost its session |
| `RetentionRuns.NothingIsHeldUp` | internal/broker/broker.go:203-345 | the mirroring never blocks a step the broker can take |
| `Queries.SelectIsCompleteAndSorted` | internal/storage/storage.go:126-141 | every SELECT returns exactly the qualifying rows, as often as stored, timestamp-descending |
| `Queries.RecentLogsAreTheLastRows` | internal/storage/storage.go:126-141 | with nondecreasing timestamps the recent query is the reversed tail of the service's rows |
| `Likes.SearchFindsThePieces` | internal/storage/storage.go:145-160 | for every query and message the pattern matches iff the pieces between the % signs stand in the message in order without overlap, an underscore standing for any one character |
| `Likes.UnderscoreIsAnyCharacter` | internal/storage/storage.go:145-160 | without % that is one place where every character is an underscore or the message's own, up to ASCII case |
| `Likes.WhatContainsIsFound` | internal/storage/storage.go:145-160 | whatever contains the query is found, wildcards or not |
| `Likes.LikeIsSubstring` | internal/storage/storage.go:145-160 | for a query without wildcards the pattern matches iff the query occurs, up to ASCII case |
| `Likes.ContainsIsOfBytes` | internal/storage/storage.go:145-160 | in well-formed UTF-8, occurring character by character is occurring byte by byte |
| `Likes.SameUpToAsciiCase` | internal/storage/storage.go:145-160 | two characters agree iff they are equal or the two cases of an ASCII letter |
| `Likes.SearchIsSubstringIffPlain` | internal/storage/storage.go:145-160 | the search is substring search for all messages iff the query has no wildcard |
| `Queries.SearchFindsExactlyTheSubstringRows` | internal/storage/storage.go:145-174 | and then returns exactly the service's rows within the bound that contain it, newest first |
| `Queries.SearchFindsThePiecesInRows` | internal/storage/storage.go:145-174 | with wildcards, exactly the service's rows within the bound in which the pieces stand in order |
| `Queries.ErrorsQueryFindsExactlyTheErrorLines` | internal/storage/storage.go:179-209 | exactly the service's rows within the bound that are on stderr or are error lines, newest first |
| `Queries.LikeErrorIsError` | internal/storage/storage.go:179-195 | of the six levels stored only error matches the level test |
| `Levels.DetectIsWorstWord` | internal/level/detect.go:6-32 | for every string Detect is the level of the most severe keyword among its maximal ASCII word runs, case aside, and empty if there is none |
| `Levels.DetectsBySeverity` | internal/level/detect.go:6-32 | spelled out: FATAL or PANIC, else ERROR or ERR, else WARN or WARNING, else INFO, else DEBUG or TRACE, else nothing |
| `Levels.WordStandsAlone` | internal/level/detect.go:10-15 | a keyword is a word of the line iff it stands somewhere in it, letter by letter in either case, with no ASCII letter, digit or underscore next to it |
| `Levels.JsonPatternsAreRedundant` | internal/level/detect.go:6-32 | deleting the five JSON patterns changes no result |
| `Levels.JsonPatternIsShadowed` | internal/level/detect.go:16-20 | whatever a JSON pattern matches a keyword pattern before it has matched with the same level |
| `Levels.KeywordPatternIsRank` | internal/level/detect.go:10-15 | a keyword pattern matches iff the line has a word of its rank |
| `Levels.KeywordMatchesIffWord` | internal/level/detect.go:10-15 | a boundary-delimited keyword matches iff it is one of the line's words, case aside |
| `Levels.DetectsErrorIff` | internal/level/detect.go:25-32 | the level is error iff the line has ERROR or ERR and neither FATAL nor PANIC |
| `Records.ErrorLevelMeaning` | internal/broker/broker.go:324-328 | stderr or level error holds of a record iff the line came on stderr or is an error line; only six levels are ever stored |
| `Records.LevelOfEveryLine` | internal/broker/broker.go:324-328 | the level stored for every line, spelled out, error being that of a line on stderr without a keyword |
| `Decimal.ParseFormatRoundTrip` | internal/broker/broker.go:308-311 | ParseInt of FormatInt gives the ID back for every int64 |
| `Decimal.ParseOfFormat` | internal/broker/broker.go:350-353 | a printed ID beyond int64 is refused, never read as another ID |
| `Decimal.ParseIntMeaning` | internal/broker/broker.go:350-353 | any text: an optional sign and digits within 64 bits are the number they stand for, digits beyond saturate, anything else is 0 and an error |
| `Json.EscapeRoundTrip` | internal/protocol/codec.go:21-32 | any byte string, escaped and read back, is itself with every malformed byte replaced, whatever follows |
| `Json.UnchangedExactlyWhenValid` | internal/protocol/codec.go:21-32 | and is unchanged iff it is well-formed UTF-8 |
| `Json.RuneIffScalar` | internal/protocol/codec.go:21-32 | well-formed is what RFC 3629 says: the bytes of a scalar value |
| `Json.EscapeHasNoControls` | internal/protocol/codec.go:21-32 | an escaped string holds no control character, so no newline |
| `Json.ObjectRoundTrip` | internal/protocol/codec.go:47-59 | a printed object is JSON and reads back field by field, strings cleaned |
| `Json.ObjectIsOneLine` | internal/protocol/codec.go:21-32 | a printed object is one line that a line scanner does not trim |
| `Codec.MessageIsRead` | internal/protocol/codec.go:63-122 | each flat message is rebuilt at its own type from its own fields, omitted ones included |
| `Codec.MessageRoundTrip` | internal/protocol/codec.go:63-122 | DecodeMessage of an encoded message is the cleaned message, and the message itself iff all its strings are UTF-8 |
| `Codec.OnTheWire` | internal/protocol/messages.go:22-62 | every message byte for byte: names, order, quoting, and what omitempty leaves out |
| `JsonTexts.NumberIsRead` | internal/protocol/codec.go:47-59 | every number literal of the grammar is read whole, and fills an integer field iff ParseInt takes it |
| `JsonTexts.OnlyNumbersAreRead` | internal/protocol/codec.go:47-59 | and whatever is read as a number is such a literal |
| `JsonTexts.PairIsRead` | internal/protocol/codec.go:47-59 | two escaped surrogates are the code point they stand for |
| `JsonTexts.LoneSurrogateIsReplaced` | internal/protocol/codec.go:47-59 | one on its own is U+FFFD |
| `JsonTexts.ShortEscapesAreRead` | internal/protocol/codec.go:47-59 | the short escapes the encoder never writes are read as well |
| `JsonTexts.EscapeHidesMarkup` | internal/protocol/codec.go:21-32 | an escaped string holds no less-than, greater-than or ampersand |
| `JsonTexts.LineSeparatorsAreEscaped` | internal/protocol/codec.go:21-32 | and U+2028 and U+2029 only as escapes |
| `LooseJson.LooseObjectIsRead` | internal/protocol/codec.go:47-59 | however an object is spaced, it reads back as its fields |
| `LooseJson.NestingLimit` | internal/protocol/codec.go:47-59 | arrays are read to a depth of 10000 and no deeper |
| `LooseJson.LooseMessageIsRead` | internal/protocol/codec.go:63-122 | and so does a message, whatever case its keys have and wherever nulls stand |
| `LooseJson.UnderstoodIffTyped` | internal/protocol/codec.go:63-122 | a message is understood iff its kind is known and every field of that kind has the right type |
| `LooseJson.NullsChangeNothing` | internal/protocol/codec.go:63-122 | a null field is as good as absent |
| `LooseJson.FoldedIsLower` | internal/protocol/codec.go:63-122 | ASCII letters fold to lower case and nothing else in ASCII changes |
| `LooseJson.CaseChangesNothing` | internal/protocol/codec.go:63-122 | keys that fold alike take effect alike |
| `Codec.FramingRoundTrip` | internal/protocol/codec.go:21-59 | for all messages with frames below 1 MiB and every chunking, reading yields exactly those frames, then EOF, each decoding to its message |
| `Codec.StreamRoundTrip` | internal/protocol/codec.go:40-59 | lines below 1 MiB come back exactly, then EOF |
| `Codec.LongFrameEndsReading` | internal/protocol/codec.go:40-52 | a frame of 1 MiB or more ends the reading with an error after everything before it |
| `Codec.FrameIsRead` | internal/protocol/codec.go:40-54 | one frame and its newline are one token iff the frame is below 1 MiB |
| `Codec.CrlfIsRead` | internal/protocol/codec.go:40-54 | a carriage return before the newline is not part of the token |
| `Codec.Encoder.Encode` | internal/protocol/codec.go:21-32 | the frame and its newline are written, or, when the Write fails, exactly the bytes it got through before |
| `Codec.EncodeAll` | internal/protocol/codec.go:21-32 | encoding messages in turn produces the stream of their frames |
| `CutFrames.ObjectExtends` | internal/protocol/codec.go:47-59 | an object the parser accepts it accepts with anything appended, and leaves exactly that |
| `CutFrames.CutFrameIsNotJson` | internal/protocol/codec.go:21-32 | no proper prefix of a frame is JSON |
| `CutFrames.FailedEncodeIsRead` | internal/broker/broker.go:234-255 | after any messages and any failed Encode, the read loop gets all of the messages, and the failed one iff only its newline was lost |
| `Codec.Decoder.Read` | internal/protocol/codec.go:40-44 | a read moves bytes from the connection to the buffer and loses none |
| `Codec.Decoder.Scan` | internal/protocol/codec.go:47-54 | a scan over any chunking, with the doubling buffer, finds what the bytes alone determine; after an error it hands out what is left in the buffer, once |
| `Codec.ReadMessages` | internal/broker/broker.go:228-255 | the read loop yields the decoding of every token up to the first that is not JSON, and stops there or as the stream does |

## Left out

- Sockets, named pipes, process spawning, signals and terminal mirroring: dialling and encoding may succeed or fail, nothing more.
- The lock-file singleton: the operating system does the work, and Stop releases the lock before removing the file.
- SQLite itself: tables are maps and sequences, a transaction succeeds or fails as a whole; WAL, checkpoints, the length limit on LIKE patterns, text with a NUL in it and a NULL level are not modelled.
- Decoding result and status_reply messages, which hold lists and floats: the broker ignores them, and so does the model. What a decoder does with the rest of any JSON text is modelled: spaces, nesting up to Go's limit, null, and keys in any case.
- handleQuery, handleStatus beyond its session count, and the converters to protocol types: they reformat what the queries and the cache return.
- MCP server, CLI and configuration: dispatch and formatting.
- LogCache.ClearAll and Services: the broker never clears, and ClearAll beside an Add can leave the entry in a detached buffer.
- Session handlers are single steps: the interleaving of the calls inside one start, end or cleanup with another connection's is not modelled, the two steps of handleLog are.
- ConnTracker keeps its lists as sequences: that an earlier slice of a list is overwritten by a splice is not captured; SpliceOut shows the splice itself on an array.
- Stop is called by one caller: its check-then-close of done is not atomic in the source.
- The wall clock is an input, nondecreasing where Retention needs it; how far daylight saving shifts a cutoff is one too, and in the machines a prune takes any cutoff.
- The client's mutex is a flag held across steps only by a flush; every other critical section is one step, and in `Clients` a failed Encode delivers nothing. `CutFrames.FailedEncodeIsRead` gives the one exception, a frame that lost only its newline; the client sends that line again.
- A read that returns neither bytes nor an error: every read of the decoder delivers at least one byte or the end of the input.
- The start of a client: the machine begins once Connect has worked and RegisterSession has returned, with a reply or without; a reply that is lost leaves a session the broker cleans up, which Ownership covers.
