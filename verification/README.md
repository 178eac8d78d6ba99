# VisionRig: a verified model of its sensor protocols

VisionRig is a sensor fleet service. Producers reserve frame sequences durably, send frames
and learn their desired state; the service admits one frame at a time, keeps a registry of
sensors, and publishes changes through a bounded cursor journal. This project models those
protocols in Dafny and proves what they guarantee over whole runs: crashes on either side of
every save, failed saves, lost replies, restarts and interleaved readers are part of the runs.

Objects that the source updates in place are classes whose methods are proved equal to
functions on their value; the theorems are about those functions and about runs of them. What
such a function computes is in turn pinned by statements that do not use it: the fields of the
input, the history of arrivals, the bytes of a packet, the cells of a grid.
Protocols between processes or threads are step systems whose steps are the source's lock
sections, messages and crash points.

| file | what it models |
|---|---|
| `ProducerState.dfy` | the producers' durable sequence and drop state, Python and Kotlin |
| `FrameProducer.dfy` | the two clients that reserve, send and resolve one frame |
| `Pressure.dfy`, `SensorIngress.dfy` | heartbeats, frame admission and per-source statistics |
| `Admission.dfy`, `AdmissionRefines.dfy` | concurrent admissions, one shared access a step, and the whole calls they amount to |
| `FrameDelivery.dfy` | producer, wire and ingress together |
| `SensorRegistry.dfy` | the registry with its revisions, its file and its rollback |
| `ChangeJournal.dfy` | the change feed, its in-memory twin and a client that follows it |
| `HandlerProgram.dfy`, `Handlers.dfy`, `HandlerEvents.dfy` | the API handlers as programs of lock sections, each run on its own, and the events it appends |
| `ChangePlane.dfy`, `FeedLevel.dfy`, `FeedRuns.dfy` | handlers, bootstrap snapshots and restarts interleaved; when the feed is level; runs that end behind |
| `Convergence.dfy` | desired state, its confirmation and the catalog's verdict |
| `SensorPacket.dfy`, `PacketMeaning.dfy` | the binary packet, and which packets are accepted, refused and made |
| `Nv21.dfy` | YUV420 to NV21 |
| `Geometry.dfy`, `Spatial.dfy`, `SpatialMeaning.dfy` | spatial relations, and when each of them holds |
| `Tracking.dfy`, `OverlapMeasure.dfy` | the overlap tracker, and what its overlap measures |
| `QualityLadder.dfy`, `CaptureContract.dfy`, `CaptureLoop.dfy`, `CaptureSchedule.dfy`, `ControlLoop.dfy` | the producers' control loops, and when the Python one asks, works and waits |
| `Wrappers.dfy`, `Text.dfy`, `Sorting.dfy` | shared helpers |

Floats are reals, times are integers or reals, and zlib (RFC 1950), the JSON form of the packet
header (RFC 8259) and the Euclidean distance are function parameters; the laws that the packet
needs of zlib and JSON are the predicate `SensorPacket.Lawful`. Whether a save goes through,
what the network answers and what a clock reads are parameters of every operation that meets
them.

Where the code does less than one might expect, the model follows the code and says so:

- Handlers that interleave can all be answered and leave the feed behind the registry.
  `FeedLevel.LevelExactly` gives the exact condition on what the last one to move the registry
  had read, `FeedLevel.MovesAreReported` the callers who are safe, and `FeedRuns` two runs that
  end behind. The frame routes can do it on their own: `Handlers.AnsweredFrameSynced` and
  `Handlers.RefusedFrameSynced`.
- The comment at src/visionrig/api.py:1403-1404 says that changes racing with a bootstrap cannot
  be missed. That holds for a nonzero cursor (`ChangePlane.BootstrapMissesNothing`); a bootstrap
  over an empty journal answers cursor zero, and misses something exactly when an event has been
  evicted (`ChangePlane.BootstrapFromZero`, `FeedRuns.CursorZeroCanMiss`).
- A journal without a file that is given a fixed stream identifier starves its old followers
  after a restart (`ChangeJournal.ConfiguredIdStarves`).
- Equality in the drop account fails exactly when a receipt is lost
  (`FrameDelivery.LostReceiptOvercounts`).
- "Converged" is trustworthy for a report of the present registration only
  (`Convergence.ForgettingAliasesRevisions`).
- A paused Python control loop relies on its poll being due after the sleep
  (`CaptureLoop.RunSafeExactly`, `CaptureLoop.StandingClockReopens`).
- An odd image dimension leaves output bytes unwritten, but for a single pixel (`Nv21.WholeOutputWritten`).

## Model

| member | source | states |
|---|---|---|
| FrameDelivery.DropAccounting | src/visionrig/producer.py:388-464 | Main result. From a fresh producer and a fresh ingress entry, over every run with crashes on either side of every save, delayed, repeated and lost requests, refusals, overload and lost receipts: accepted frames plus reported drops is at least last sequence + 1 once a frame was accepted, and is exactly that if and only if the producer has written off no accepted frame but the last |
| FrameDelivery.EveryGapReported | src/visionrig/sensor_ingress.py:494-545 | Main result. No gap goes unreported and no drop is invented: every sequence up to the last accepted one is accepted, or was lost by the producer and lies in the report of an accepted frame; whatever lies in such a report was lost |
| FrameDelivery.LostReceiptOvercounts | src/visionrig/producer.py:398-416 | The inequality is strict in a concrete run: a frame taken whose receipt never came back is reported again as dropped by the next frame |
| FrameDelivery.RunIsConsistent | src/visionrig/producer.py:331-353 | In every run the durable entry, the requests on the wire, the receipts, the ingress entry and the history agree: each sequence below the next is acknowledged, lost or in flight, and each request reports exactly the frames lost since the last acknowledged one before it |
| FrameDelivery.AccountStep | src/visionrig/sensor_ingress.py:539-545 | One accepted request moves the account by one plus its drops and keeps the inequality, with equality exactly while all accepted frames but the last are acknowledged |
| FrameDelivery.ReportReaches | src/visionrig/producer.py:398-408 | A report reaches back to the last acknowledged frame, which is the last accepted one unless its receipt was lost |
| FrameDelivery.CoverStep | src/visionrig/producer.py:398-408 | Accepting a request whose report is honest leaves no uncovered sequence below it |
| FrameDelivery.IngressStep | src/visionrig/sensor_ingress.py:820-863 | An ingress call on a request either changes nothing that counts or accepts a sequence above the last one and moves count, sum and last sequence together |
| FrameDelivery.SettleBooks | src/visionrig/producer_state.py:162-188 | Marking the in-flight frame dropped or accepted keeps the producer's books |
| FrameDelivery.StepsAreStoreCalls | src/visionrig/producer_state.py:128-188 | Starting, reserving and resolving are calls of the durable store, with a crash or a failed save at each: the entry is what the file then holds, and the producer goes on with the answer |
| ProducerState.DurableStateIsExact | src/visionrig/producer_state.py:128-188 | Main result. Over every run of calls on any keys, with failed saves and crashes before or after any save: a key's sequences are issued once each and in order, an in-flight sequence is the newest one, pending plus in flight is the number issued since the last accepted frame, and every issued frame is exactly one of accepted, dropped and in flight |
| ProducerState.EntryStep | src/visionrig/producer_state.py:128-188 | Each operation keeps that meaning of the entry while the ledger of what became durable grows by one event |
| ProducerState.CallSeenFromKey | src/visionrig/producer_state.py:115-126 | A call moves the entry of its own key exactly when it is answered without error and its replace took place |
| ProducerState.OtherKeysUntouched | src/visionrig/producer_state.py:119-126 | No call changes the entry of another key |
| ProducerState.CallAnswers | src/visionrig/producer_state.py:115-188 | Every answer of a store call by its reason, what it leaves for its key, and an untouched file after every error |
| ProducerState.ProducerStateStore.Recover | src/visionrig/producer_state.py:128-143 | Recovery turns an in-flight frame into one pending drop and saves; without one it answers and saves nothing; an unreadable file and a failed save are errors that leave the file alone |
| ProducerState.ProducerStateStore.Reserve | src/visionrig/producer_state.py:145-160 | A reservation is durable before it is answered, hands out the next sequence with the pending count, and is refused while a frame is in flight |
| ProducerState.ProducerStateStore.MarkDropped | src/visionrig/producer_state.py:162-174 | Only the in-flight sequence can be dropped; it adds one pending drop |
| ProducerState.ProducerStateStore.MarkAccepted | src/visionrig/producer_state.py:176-188 | Only the in-flight sequence can be accepted; it clears the pending drops |
| ProducerState.NativeStoreRefines | clients/kaliv-producer-core/src/main/kotlin/dk/kaliv/visionrig/producer/DurableProducerState.kt:51-101 | Main result. The Kotlin store in 64-bit arithmetic follows the Python store step for step over every run with fewer than 2^63 reservations, crashes and failed saves included |
| ProducerState.PendingBounded | clients/kaliv-producer-core/src/main/kotlin/dk/kaliv/visionrig/producer/DurableProducerState.kt:51-101 | Pending plus in flight never exceeds the next sequence, so the drop counter cannot wrap first |
| ProducerState.ReservationExhausted | clients/kaliv-producer-core/src/main/kotlin/dk/kaliv/visionrig/producer/DurableProducerState.kt:63-75 | At the last 64-bit sequence, and only there, a valid free store refuses a reservation |
| ProducerState.NativeAnswers | clients/kaliv-producer-core/src/main/kotlin/dk/kaliv/visionrig/producer/DurableProducerState.kt:25-101 | From any state in range the Kotlin calls answer as the Python ones but for a counter at its 64-bit end, and never store a state out of range |
| FrameProducer.GatewayFrameProducer.SendPayload | src/visionrig/producer.py:388-464 | Each answer by the reply alone: accepted exactly for a 200 whose receipt names this source, type, sequence and drop count, unavailable without a reply, overload for a 429, an authentication error for a 401 or 403, a protocol error otherwise; the pending drops are cleared exactly when accepted and grow by one otherwise, before the call returns, unless a save fails |
| FrameProducer.GatewayFrameProducer.ReserveFrame | src/visionrig/producer.py:331-339 | With and without a store: the sequence and pending count handed out, and what the producer shows afterwards |
| FrameProducer.GatewayFrameProducer.Mark | src/visionrig/producer.py:341-353 | Resolving a frame with and without a store |
| FrameProducer.GatewayFrameProducer.SyncPersistentState | src/visionrig/producer.py:171-176 | The producer's counters after a synchronisation are those of its durable entry |
| FrameProducer.NativeGatewayClient.SendEncoded | clients/kaliv-producer-core/src/main/kotlin/dk/kaliv/visionrig/producer/VisionRigGatewayClient.kt:186-292 | The same for the Kotlin client, a failed negotiation and an oversized payload included; a drop count at the end of its 64 bits is refused and the frame stays in flight |
| SensorIngress.Ingress.Process | src/visionrig/sensor_ingress.py:682-863 | The outcome of every check in order, the one rejection counter that moves, the slot free again on every exit, and sequence, count and drops moving only for an accepted frame |
| SensorIngress.RefusedExactly | src/visionrig/sensor_ingress.py:682-781 | Each refusal of a frame by its reason, and none exactly for a frame that is admissible, decodes and is processed |
| SensorIngress.RefusalCounts | src/visionrig/sensor_ingress.py:682-781 | A refusal adds one to its own counter and changes nothing else, a failed pipeline nothing at all |
| SensorIngress.StatsAreHistory | src/visionrig/sensor_ingress.py:360-545 | Main result. After any history of heartbeats and frames, each field of a source's statistics shows the latest accepted arrival that carries it, the counts count its arrivals, and the capability refresh is dated by the first heartbeat that named it |
| SensorIngress.TotalsAreCounts | src/visionrig/sensor_ingress.py:360-863 | After any history the totals are the numbers of accepted heartbeats, of accepted frames and of frames refused for each reason |
| SensorIngress.Ingress.RecordAccept | src/visionrig/sensor_ingress.py:494-545 | Every field of the statistics an accepted frame makes or updates, the packet description included |
| SensorIngress.Ingress.Heartbeat | src/visionrig/sensor_ingress.py:360-492 | Every field of the statistics a heartbeat makes or updates; use above target lengthens the streak by one and dates it, anything else ends it; refused capabilities change nothing |
| SensorIngress.Ingress.ForgetSource | src/visionrig/sensor_ingress.py:354-358 | Forgetting removes statistics and last sequence of one source together |
| SensorIngress.PressureIsHistory | src/visionrig/sensor_ingress.py:360-492 | Main result. After any history of heartbeats and frames of any sources, a source's pressure counters mean exactly its own heartbeat history |
| Pressure.CountersAreHistory | src/visionrig/sensor_ingress.py:443-476 | Main result. The incremental counters equal the declared function of the whole history: streak is the longest over-target suffix, above-since dates its first heartbeat and is set exactly for a positive streak, episodes is the number of maximal over-target runs of length at least three, recurrences one less, last recovery and the recurrence gap are those of the last finished and last repeated run |
| Pressure.MeaningIsUnique | src/visionrig/sensor_ingress.py:443-476 | The declaration fixes every counter |
| Pressure.MeansStep | src/visionrig/sensor_ingress.py:443-476 | One more heartbeat keeps the meaning |
| Pressure.ExtendStarts | src/visionrig/sensor_ingress.py:449-456 | A heartbeat adds an episode exactly when it brings the streak to three |
| Pressure.RecoveredAtEnd | src/visionrig/sensor_ingress.py:470-474 | A heartbeat is a recovery exactly when it ends a streak of at least three |
| Admission.AdmissionIsExclusiveAndCounted | src/visionrig/sensor_ingress.py:682-863 | Main result. In every interleaving of admissions, heartbeats and forgets: at most one frame in the pipeline, the slot free when no admission is under way, accepted sequences per source strictly increasing since the last forget, and count and drop sum taken over exactly the accepted frames |
| Admission.RunIsConsistent | src/visionrig/sensor_ingress.py:715-781 | The invariant behind it holds after every step of every run |
| Admission.OwnerMoves | src/visionrig/sensor_ingress.py:720-781 | A step of the slot's owner keeps exclusion and per-source facts |
| Admission.RecordedSource | src/visionrig/sensor_ingress.py:846-853 | Recording a frame extends its source's log and closes the gap between the two places that hold its last sequence |
| Admission.ForgetStep | src/visionrig/sensor_ingress.py:354-358 | A forget outside the source's own admissions restarts its log and leaves the others |
| AdmissionRefines.RunsAreAtomic | src/visionrig/sensor_ingress.py:682-863 | Main result. Every interleaving of admissions, heartbeats and forgets leaves statistics, recorded sequences, counts and rejections as the whole calls do that it completes, each frame one call, at its recording or its refusal; these are the calls that FrameDelivery delivers |
| AdmissionRefines.StepRefines | src/visionrig/sensor_ingress.py:715-781 | Each step is one whole call or shows nothing |
| AdmissionRefines.DecidedExactly | src/visionrig/sensor_ingress.py:682-863 | An admission under way is decided exactly when it is recorded, as accepted with its own receipt, or by the step that finds what is wrong with it, with that error |
| AdmissionRefines.ViewFresh | src/visionrig/sensor_ingress.py:719-725 | A frame past the sequence check exceeds the recorded sequence of its source until it is recorded |
| SensorRegistry.Registry.Patch | src/visionrig/sensor_registry.py:570-628 | State, file and answer of a patch: all of it in memory and file together, with every field as the patch asks, or an error with both exactly as before, in every error branch |
| SensorRegistry.PatchMeans | src/visionrig/sensor_registry.py:570-597 | Each field of a patch: left alone, cleared, or set, a text without the white space around it and none if it is blank |
| SensorRegistry.Registry.Retire | src/visionrig/sensor_registry.py:442-484 | The same for retiring; a retired sensor returns early |
| SensorRegistry.Registry.Restore | src/visionrig/sensor_registry.py:486-514 | The same for restoring, which leaves the sensor disabled and its control revision alone |
| SensorRegistry.Registry.Forget | src/visionrig/sensor_registry.py:516-555 | The same for forgetting, which needs a registered and retired sensor |
| SensorRegistry.Registry.Observe | src/visionrig/sensor_registry.py:342-415 | The same for an observation; the state revision moves only for a new source or description |
| SensorRegistry.Registry.EnsureRegistered | src/visionrig/sensor_registry.py:314-332 | The same for first registration |
| SensorRegistry.Registry.Replace | src/visionrig/sensor_registry.py:596-628 | Write, save, and on failure put entry, both control items and revision back exactly |
| SensorRegistry.LoadAfterSave | src/visionrig/sensor_registry.py:193-304 | Loading what was saved gives back all five pieces of state if and only if every control item has a positive revision and every date an item |
| SensorRegistry.OutcomeKeepsValid | src/visionrig/sensor_registry.py:239-304 | After any command, answered or not, a restart over the file gives the state that was in memory |
| SensorRegistry.RunKeepsLaw | src/visionrig/sensor_registry.py:442-628 | Main result. Every run keeps: enabled iff the control revision is even, retired implies disabled, discovery and control keys within the metadata keys, and the saved form loads back to the last committed state |
| SensorRegistry.CommandKeepsLaw | src/visionrig/sensor_registry.py:314-628 | Each command keeps that law |
| SensorRegistry.RefusedExactly | src/visionrig/sensor_registry.py:314-597 | Each refusal of a command by its reason; a command with none goes through |
| SensorRegistry.CommandMeans | src/visionrig/sensor_registry.py:314-628 | What registering, patching, retiring, restoring and forgetting do to their source |
| SensorRegistry.ObservationMeans | src/visionrig/sensor_registry.py:342-392 | What an observation keeps, sets, dates and counts, and that operator metadata stays |
| SensorRegistry.OthersUntouched | src/visionrig/sensor_registry.py:314-628 | No command touches another source |
| SensorRegistry.RevisionMovesExactly | src/visionrig/sensor_registry.py:314-628 | The state revision moves by one exactly with a change of metadata or description or a registration other than by a patch, and the control date exactly with the control revision |
| SensorRegistry.AnswerMeansDurable | src/visionrig/sensor_registry.py:239-304 | An answer means that the command took effect in memory and file, or asked for nothing; an error that neither moved |
| SensorRegistry.CommandCounts | src/visionrig/sensor_registry.py:601-610 | Any command but forgetting it moves a source's control revision by one exactly when it changes the enable preference |
| SensorRegistry.EqualRevisionsEqualStates | src/visionrig/sensor_registry.py:557-564 | Within one registration revisions never fall, and equal control revisions mean equal desired states |
| SensorRegistry.UndoReplaced | src/visionrig/sensor_registry.py:613-627 | Undoing a change with what was remembered gives back the whole state |
| ChangeJournal.FollowerMissesNothing | src/visionrig/sensor_events.py:271-327 | Main result. Over every run of appends, failed saves, evictions, restarts with any capacity and reads with any limit, a client that starts from a nonzero issued cursor and follows next_cursor has received exactly the later events, in order, without skip or duplicate, unless a batch said gap or stream reset; and it can tell a new stream by the identifier unless a volatile journal came back under a configured one |
| ChangeJournal.ReadMeansLog | src/visionrig/sensor_events.py:300-327 | A read reports a gap exactly when the next event was evicted, and otherwise answers the log from the cursor on, cut at the limit |
| ChangeJournal.ReadServes | src/visionrig/sensor_events.py:300-327 | Gap or not, a read serves the first of the entries left after the cursor, tells where to go on, and names the oldest and newest cursor |
| ChangeJournal.ReadMakesProgress | src/visionrig/sensor_events.py:300-327 | A reader that is behind moves or is warned by its next read, and is warned exactly when its next event was evicted |
| ChangeJournal.ReadBeyondLog | src/visionrig/sensor_events.py:300-327 | A cursor beyond the log is answered with nothing and no gap |
| ChangeJournal.CursorZeroStartsAtRetained | src/visionrig/sensor_events.py:302-306 | Cursor zero never reports a gap: for every limit it serves what is retained, and it has missed nothing if and only if nothing was evicted, which shows in the oldest cursor the answer names |
| ChangeJournal.FollowerFromZero | src/visionrig/sensor_events.py:300-327 | A client that starts at cursor zero holds one unbroken stretch of the log, and has missed nothing if and only if that stretch begins at cursor one |
| ChangeJournal.ConfiguredIdStarves | src/visionrig/sensor_events.py:85-97 | A volatile journal that comes back under a configured identifier serves an old follower nothing of the new stream until that is longer than its cursor, and then from there on, without a word |
| ChangeJournal.StoredJournalLoads | src/visionrig/sensor_events.py:118-156 | A file this journal wrote is accepted at the next start with the same cursor position and high-water revision |
| ChangeJournal.PushKeepsWindow | src/visionrig/sensor_events.py:214-227 | Appending with eviction keeps the retained entries a suffix of the whole log under consecutive cursors |
| ChangeJournal.SensorChangeJournal.Append | src/visionrig/sensor_events.py:197-237 | An append is in memory and file with the next cursor and a raised high-water revision, or nothing moved |
| ChangeJournal.SensorChangeJournal.Read | src/visionrig/sensor_events.py:271-327 | Argument errors, stream reset and the windowed read |
| ChangeJournal.Open | src/visionrig/sensor_events.py:81-156 | Start-up is refused exactly for a bad capacity or stream identifier, another stream's file, unordered cursors or a next cursor that is not beyond them |
| ChangeJournal.MaxRevisionIsGreatest | src/visionrig/sensor_events.py:150-156 | The revision taken from stored entries is the greatest among them |
| ChangeJournal.EventJournal.Append | src/visionrig/journal.py:38-45 | The in-memory twin's append with eviction |
| ChangeJournal.EventJournal.Read | src/visionrig/journal.py:47-71 | The in-memory twin's read is the same windowed read |
| FeedLevel.LevelExactly | src/visionrig/api.py:224-238 | Main result. In every interleaving of the handlers, with failed saves, failed appends and restarts: once no handler is under way, the feed is level with the registry if and only if nothing moved the registry, or the handler that moved it last told of it, as judged by its own tests on what it had read, or another handler's append read the revision since |
| FeedLevel.MovesAreReported | src/visionrig/api.py:1436-1645 | Main result. In every interleaving, an answered handler that moved the registry has appended at least the revision it moved to if it was a forget, an operator command naming an expected revision that had been reached when it began, or an observation of a source not known by metadata alone during which nobody else moved the registry |
| FeedLevel.CarefulMoverEndsLevel | src/visionrig/api.py:1436-1612 | So the feed is level whenever the last handler to move the registry was answered and is of that kind |
| FeedLevel.EqualRevisionsAlike | src/visionrig/sensor_registry.py:314-628 | Over any run of commands, the same state revision means the same metadata, control revision and description of every source |
| FeedLevel.MoveIsVisible | src/visionrig/api.py:1450-1612 | A command that moves the registry while the handler's notes are current passes one of its tests, or leaves a new description |
| FeedLevel.AnsweredAppends | src/visionrig/api.py:143-222 | An answered handler has appended something exactly when one of its tests passes on what it read |
| FeedLevel.RunIsInformed | src/visionrig/api.py:1436-1760 | In every run each handler's notes are current as long as the registry stands as at its beginning |
| FeedRuns.StaleRetireFallsBehind | src/visionrig/api.py:1436-1462 | A run in which a retire that looked before a restore moves the registry and tells nothing: all handlers answered, the feed behind |
| FeedRuns.PatchBackFallsBehind | src/visionrig/api.py:1557-1612 | A run in which a patch sets a name back to what it was when the handler looked, and tells nothing |
| FeedRuns.CursorZeroCanMiss | src/visionrig/api.py:1405-1406 | A run with a bootstrap over an empty journal after which an evicted event is missed without a report |
| ChangePlane.JournalNeverAhead | src/visionrig/api.py:118-131 | Main result. In every interleaving of handlers, with failed saves, failed appends and restarts, the journal's high-water revision never exceeds the registry revision |
| ChangePlane.BootstrapMissesNothing | src/visionrig/api.py:1401-1422 | Main result. In every interleaving, every event at or below a nonzero change cursor tells of a change that the snapshot's reads came after, and a later read from the cursor yields the other events in order or reports a gap exactly when some were evicted |
| ChangePlane.BootstrapFromZero | src/visionrig/api.py:1401-1422 | In every interleaving, a read from the zero cursor of a bootstrap reports no gap and has missed nothing if and only if no event was evicted, which shows in the oldest cursor it names |
| ChangePlane.RunIsConsistent | src/visionrig/api.py:118-131 | The invariant behind them holds after every step |
| Handlers.HandlersAreThePrograms | src/visionrig/api.py:1436-1760 | The handlers' closed forms are their programs of lock sections run with nothing in between |
| HandlerEvents.AnsweredAppendsAll | src/visionrig/api.py:118-222 | An answered handler has made exactly the appends listed below |
| HandlerProgram.ChangesAreCounted | src/visionrig/api.py:1436-1760 | No lock section of a handler moves registry or runtime without being counted as a change |
| HandlerEvents.LifecycleEvents | src/visionrig/api.py:1436-1497 | A retire is told of exactly when the sensor was not retired before, a restore when it was |
| HandlerEvents.ForgetEvents | src/visionrig/api.py:1499-1555 | A forget goes through only for a source without runtime or offline, and is told of after a change of readiness |
| HandlerEvents.PatchEvents | src/visionrig/api.py:1557-1618 | A patch tells of a registration, of changed names and of a changed enable preference exactly when they happened |
| HandlerEvents.HeartbeatEvents | src/visionrig/api.py:1620-1645 | A heartbeat tells of runtime exactly when capture, applied revision, format, payload limit, compression or target differ, and of registration exactly when source or description are new |
| HandlerEvents.FrameEvents | src/visionrig/api.py:1661-1760 | A frame tells of registration only if it was observed and taken, and then exactly when source or description are new |
| Handlers.ReachableCallsStaySynced | src/visionrig/api.py:1436-1645 | For handlers run one after another: after any history of calls from an empty service, an answered patch, retire, restore, forget or heartbeat keeps a synced feed synced |
| Handlers.AnsweredCallsStaySynced | src/visionrig/api.py:1436-1645 | The same from every sound state |
| Handlers.AnsweredFrameSynced | src/visionrig/api.py:1661-1760 | A frame handler run on its own and answered leaves a synced feed behind if and only if the source was known by metadata alone and readiness did not change |
| Handlers.RefusedFrameSynced | src/visionrig/api.py:1672-1692 | An encoded frame refused after its observation leaves the feed behind if and only if the observation was news |
| Handlers.CallsKeepSound | src/visionrig/api.py:118-222 | Every history of calls keeps the journal at or behind the registry and heartbeat runtime state within the discovered sources |
| Convergence.ConvergedMeansConfirmed | src/visionrig/api.py:1252-1275 | Main result. In every interleaving, forgetting and registering again included, a source whose last report is of the present registration is called converged if and only if the producer read the confirmed revision after the last enable or disable command before the catalog's own last read and the sampled capture state is the desired one; so no command fell between |
| Convergence.QuietProducerConverges | src/visionrig/api.py:1252-1275 | A producer whose whole desired-state read came after the last command and whose capture mark is its own is called converged |
| Convergence.UnknownWithoutReport | src/visionrig/api.py:1252-1275 | The verdict is unknown exactly without a report, and pending for every report that does not converge |
| Convergence.RuntimeIsIngress | src/visionrig/sensor_ingress.py:354-545 | The runtime entry moves as the ingress statistics do, by a heartbeat, an accepted frame and a forget |
| Convergence.ForgettingAliasesRevisions | src/visionrig/sensor_registry.py:516-555 | A run in which a report of an earlier registration is called converged although a retire and a forget came after it was read |
| Convergence.RunIsConsistent | src/visionrig/sensor_registry.py:557-564 | Reports, half-finished reads and half-built catalogs keep their relation to the control revision after every step of every run |
| SensorPacket.PacketRoundTrip | src/visionrig/sensor_packet.py:332-450 | Main result. Every packet the encoder makes, in every compression mode and permitted version, decodes to the same RGB bytes, the normalised media type and the same matrices |
| SensorPacket.AcceptedPacketPartition | src/visionrig/sensor_packet.py:248-329 | Main result. Any accepted packet is ten bytes, the header, the RGB bytes and the planes' wire bytes with nothing left over; each plane has exactly width x height x 2 raw bytes and at most 32 MiB, whatever the codecs do |
| PacketMeaning.AcceptedExactly | src/visionrig/sensor_packet.py:103-329 | Main result. A packet is accepted, as given values, if and only if it is a magic, a header length of 2 to 65536, a header in order, the RGB bytes of a supported type, a colour-aligned depth plane and an infrared plane, each of its exact raw size, and nothing else |
| PacketMeaning.RefusedForAReason | src/visionrig/sensor_packet.py:103-329 | Every refusal names something that is wrong with the packet |
| PacketMeaning.EncodesExactly | src/visionrig/sensor_packet.py:332-440 | What the encoder refuses, and that it refuses nothing else but an oversized header |
| PacketMeaning.PlaneIsWired | src/visionrig/sensor_packet.py:366-424 | A plane goes out raw, as a zlib stream, or as whichever is strictly shorter, with its header entry |
| PacketMeaning.VersionIsChosen | src/visionrig/sensor_packet.py:426-450 | Which version a packet has |
| PacketMeaning.TransportMeans | src/visionrig/sensor_packet.py:188-245 | The description of an accepted packet is refused only for a limit that is not positive, and gives the sums of both planes and the room left under the limit |
| PacketMeaning.NormalTypeMeans | src/visionrig/sensor_packet.py:262-264 | The compared media type is the text before the first semicolon, trimmed, in lower case |
| SensorPacket.TransportAgrees | src/visionrig/sensor_packet.py:188-245 | The transport description of an accepted packet never fails and its sizes and saved bytes agree with that partition and the decoded planes |
| SensorPacket.DecodeSensorPacket | src/visionrig/sensor_packet.py:248-329 | The decoder with its moving offset computes the decoding, error by error |
| SensorPacket.PlaneRoundTrip | src/visionrig/sensor_packet.py:364-393 | A plane stored raw, compressed or whichever is smaller decodes to its own bytes |
| SensorPacket.InspectAssembled | src/visionrig/sensor_packet.py:149-185 | An assembled packet inspects to its header, with the length read back from four bytes |
| SensorPacket.BigEndianRoundTrip | src/visionrig/sensor_packet.py:20 | The header length survives its big-endian form |
| SensorPacket.CellsRoundTrip | src/visionrig/sensor_packet.py:310-322 | Matrix cells survive their little-endian form |
| SensorPacket.PlaneLayout | src/visionrig/sensor_packet.py:310-322 | Cell (row, column) sits at byte 2 x (row x width + column), low byte first |
| Nv21.Yuv420ToNv21 | clients/kaliv-quest-producer/library/src/main/kotlin/dk/kaliv/visionrig/quest/QuestPassthroughEncodedCapture.kt:469-495 | For every 32-bit width and height: the conversion goes through if and only if the output size does not wrap and every sampled index of the three planes lies in its buffer, and then gives the specified bytes |
| Nv21.WrappedSize | clients/kaliv-quest-producer/library/src/main/kotlin/dk/kaliv/visionrig/quest/QuestPassthroughEncodedCapture.kt:473 | A size that wraps is negative or too small for the luma |
| Nv21.CopyPlane | clients/kaliv-quest-producer/library/src/main/kotlin/dk/kaliv/visionrig/quest/QuestPassthroughEncodedCapture.kt:497-516 | The strided luma copy: which reads fail, what is written and what is left alone |
| Nv21.CopyChromaNv21 | clients/kaliv-quest-producer/library/src/main/kotlin/dk/kaliv/visionrig/quest/QuestPassthroughEncodedCapture.kt:518-540 | The strided chroma copy, V before U |
| Nv21.Layout | clients/kaliv-quest-producer/library/src/main/kotlin/dk/kaliv/visionrig/quest/QuestPassthroughEncodedCapture.kt:469-540 | Main result. For any dimensions and strides, luma lies at row x width + column and each chroma cell as V, U after the luma |
| Nv21.PositionsDiffer | clients/kaliv-quest-producer/library/src/main/kotlin/dk/kaliv/visionrig/quest/QuestPassthroughEncodedCapture.kt:510-515 | Two samples never share an output position |
| Nv21.PositionsReached | clients/kaliv-quest-producer/library/src/main/kotlin/dk/kaliv/visionrig/quest/QuestPassthroughEncodedCapture.kt:532-538 | Every written position shows some sample, so with the above each exactly one |
| Nv21.WholeOutputWritten | clients/kaliv-quest-producer/library/src/main/kotlin/dk/kaliv/visionrig/quest/QuestPassthroughEncodedCapture.kt:473-494 | The copies fill the whole output if and only if both dimensions are even, or there is no pixel or just one; they never overrun it |
| Nv21.RestIsZero | clients/kaliv-quest-producer/library/src/main/kotlin/dk/kaliv/visionrig/quest/QuestPassthroughEncodedCapture.kt:469-540 | The output has three bytes to every two pixels, and what is not written stays zero |
| Nv21.IndexIsExact | clients/kaliv-quest-producer/library/src/main/kotlin/dk/kaliv/visionrig/quest/QuestPassthroughEncodedCapture.kt:512 | Inside a buffer the 32-bit index arithmetic does not wrap |
| Spatial.Process | src/visionrig/spatial.py:277-331 | The nested loops over the growing set and list compute the specified output |
| Spatial.OutputIsAcyclic | src/visionrig/spatial.py:86-275 | Main result. Over any entities with distinct ids, zero widths and a zero gap included, none of left_of, above, inside and in_front_of runs in a circle, before or after truncation |
| Spatial.ConverseComesAlong | src/visionrig/spatial.py:98-199 | Main result. Before truncation every directional relation and every near has its converse at the same confidence if and only if that converse was not there already |
| Spatial.OutputIsBoundedAndFresh | src/visionrig/spatial.py:281-321 | No relation repeats a given one or another, at most the limit are kept, and one is left out only for as many that rank no lower |
| Spatial.GeneratedExactly | src/visionrig/spatial.py:296-312 | The generated relations are exactly those some pair of candidates gives, except for keys that were there |
| Spatial.AxisRises | src/visionrig/spatial.py:98-178 | An axis relation strictly rises in position, then extent, then candidate order |
| Spatial.PairSaysOnce | src/visionrig/spatial.py:86-220 | A pair never gives one relation at two confidences |
| Spatial.InsideMeans | src/visionrig/spatial.py:18-30 | Containment goes from smaller to strictly larger area |
| Spatial.DepthMeans | src/visionrig/spatial.py:222-275 | Depth order goes from nearer to strictly farther and comes with its converse |
| SpatialMeaning.GeneratedMeans | src/visionrig/spatial.py:12-311 | Main result. For distinct ids a relation is generated exactly when it was not given and boxes or measured distances of two candidates bear it out, with exactly the stated confidence |
| SpatialMeaning.DepthsMean | src/visionrig/spatial.py:287-294 | The last measured distance of an entity counts, with confidence 0.75 if none is given |
| SpatialMeaning.CandidatesRankHighest | src/visionrig/spatial.py:278-280 | The candidates are the most confident boxed entities, ties by id, as many as there are up to the limit |
| SpatialMeaning.OutputIsOrdered | src/visionrig/spatial.py:313-321 | New relations come out by falling confidence, then subject, name and target, as many as there are up to the limit |
| SpatialMeaning.TextLeMeans | src/visionrig/spatial.py:313-320 | Texts compare by their first difference |
| Spatial.CandidatesAreFit | src/visionrig/spatial.py:278-280 | Candidates are boxed entities of the input, at most the limit, with distinct ids if the input's are |
| Tracking.EveryUseIsJustified | src/visionrig/tracking.py:45-91 | Main result. Over every sequence of frames, every use of a track id is a new id above all earlier ones, or continues the latest use of that id in an earlier, not too old frame of the same source, with the same label and kind and an overlap at or above the threshold |
| Tracking.IdsNeverCrossOver | src/visionrig/tracking.py:58-91 | Main result. Two uses of an id lie in different frames of one source and agree on label and kind: boxed entities of a frame get different tracks, and no id changes source |
| Tracking.IdsAreConsecutive | src/visionrig/tracking.py:76-87 | The ids given out over all sources are one, two, and so on without a hole |
| Tracking.BestIsGreatest | src/visionrig/tracking.py:63-75 | The chosen track is unused, of the same label and kind, with the greatest overlap, the last of equals; none is chosen only when none reaches the threshold |
| Tracking.IoUIsSymmetricAndBounded | src/visionrig/tracking.py:10-18 | Overlap is symmetric, within 0..1, and 1 exactly for equal boxes of some area |
| OverlapMeasure.IoUIsCellRatio | src/visionrig/tracking.py:10-18 | Main result. For boxes on a grid of any pitch, overlap times the number of cells in either box is the number of cells in both |
| OverlapMeasure.IoUScales | src/visionrig/tracking.py:10-18 | Enlarging both boxes alike leaves the overlap as it is |
| OverlapMeasure.ShiftedBox | src/visionrig/tracking.py:10-18 | A box moved by d along a side w overlaps itself by (w - d) / (w + d) |
| Tracking.YoungKeepsOrder | src/visionrig/tracking.py:47-53 | Dropping stale tracks keeps the others in order |
| Tracking.IoUTrackingStage.Process | src/visionrig/tracking.py:45-101 | The stage's loops compute the specified state and output |
| Tracking.IoUTrackingStage.FindBest | src/visionrig/tracking.py:63-73 | The inner loop finds the specified best track |
| Tracking.IoUTrackingStage.DropStale | src/visionrig/tracking.py:46-53 | Exactly the tracks older than the limit go |
| Tracking.OutputShowsInput | src/visionrig/tracking.py:58-91 | The output shows the input's entities in order, with a track id given to exactly the boxed ones |
| Tracking.RunIsConsistent | src/visionrig/tracking.py:45-91 | Every live track stands for the latest use of its id, after every frame |
| QualityLadder.EncodePacketWithBudget | src/visionrig/producer_cli.py:107-156 | The packet at the best quality of the ladder that fits the target, else at the least quality if it fits the budget, else an error; and the argument errors |
| QualityLadder.TargetIsBelow | src/visionrig/producer_cli.py:126-129 | The goal is the largest whole number of bytes at least one below the target share, and at least one |
| QualityLadder.TighterBudgetLowersQuality | src/visionrig/producer_cli.py:133-156 | A smaller target never gives a better quality |
| CaptureLoop.RunControlledCapture | src/visionrig/producer_cli.py:166-453 | The loop, cut short by any raising call, makes exactly the specified effects and result |
| CaptureSchedule.RunIsItsRounds | src/visionrig/producer_cli.py:223-453 | What a run does is what its rounds do, and perhaps a last closing |
| CaptureSchedule.LoopKeepsSchedule | src/visionrig/producer_cli.py:223-447 | Main result. In every run: when the poll interval has passed since the last fetch, or there was none, a round opens, reads and sends nothing before a fetch of its own, and in no other round anything is fetched; and a round that ran to its end refreshed, fetched, confirmed, opened, closed, read, encoded and sent exactly as often as clock and answers ask for |
| CaptureSchedule.PaceDoesNotDrift | src/visionrig/producer_cli.py:443-448 | The waits of frames that are not late end at whole intervals after the opening |
| CaptureSchedule.LateFrameRestarts | src/visionrig/producer_cli.py:443-448 | A late frame is not waited for, and the pace begins anew from then |
| CaptureSchedule.LoopCountsFrames | src/visionrig/producer_cli.py:219-453 | A loop that returns reports the number of frames it sent, at most the limit |
| CaptureLoop.ControlledCaptureIsSafe | src/visionrig/producer_cli.py:223-453 | Main result. A run opens, reads and sends only while the desired state fetched last is enabled, sends nothing it has not read, and answers a fetch with one heartbeat that tells capture as it is, if and only if no paused round opens the source before its poll is due, which holds whenever sleeping advances the clock; and every run ends with the source closed, and one that returns owes no heartbeat |
| CaptureLoop.RunSafeExactly | src/visionrig/producer_cli.py:284-346 | The same condition from any state of the loop |
| CaptureLoop.AdvancingNeverUnasked | src/visionrig/producer_cli.py:284-340 | Sleeping that advances the clock by at least what was asked makes every paused round poll |
| CaptureLoop.EveryExitCloses | src/visionrig/producer_cli.py:449-451 | However the loop ends, its source is closed |
| CaptureLoop.StandingClockReopens | src/visionrig/producer_cli.py:284-344 | With a clock that stands still over the sleep a paused loop opens the source: the assumption is needed |
| CaptureLoop.ReturnOwesNothing | src/visionrig/producer_cli.py:284-341 | A run that returns has answered its last fetch with a heartbeat |
| CaptureLoop.ResultCountsFrames | src/visionrig/producer_cli.py:219-453 | A run that returns reports the number of frames it sent, at most the limit |
| CaptureLoop.Pause | src/visionrig/producer_cli.py:288-340 | The paused branch: close if open, confirm, sleep, with a raise at any call |
| CaptureLoop.TurnIsSafe | src/visionrig/producer_cli.py:284-447 | One round keeps the contract and the relation between the loop's variables and what was seen |
| CaptureContract.SafeMeansAllowed | src/visionrig/producer_cli.py:166-205 | Safety of a run is the contract at each of its effects, judged by those before it |
| ControlLoop.ProducerControlLoop.Step | clients/kaliv-producer-core/src/main/kotlin/dk/kaliv/visionrig/producer/ProducerControlLoop.kt:33-74 | One step's effects for a raise at any call, and the capture open afterwards exactly when an enabled step returned |
| ControlLoop.MovesAreSafe | clients/kaliv-producer-core/src/main/kotlin/dk/kaliv/visionrig/producer/ProducerControlLoop.kt:33-88 | Main result. Every run of steps and closings opens, captures and sends only while the state fetched last is enabled, and answers no fetch twice, with no assumption on clocks |
| ControlLoop.StepIsSafe | clients/kaliv-producer-core/src/main/kotlin/dk/kaliv/visionrig/producer/ProducerControlLoop.kt:33-88 | One step keeps the contract, and after an exception the capture is closed |

## Left out

- HTTP clients and servers, gateway relaying, tokens and URLs: a POST is the outcome alphabet no response, or a status with perhaps a receipt.
- Temp files, fsync and os.replace: a save is one atomic replace that happens or fails; the text of the state, registry and journal files is taken as parsed, and a registry file that repeats a source is not part of this model.
- Display rounding of seconds, ratios and confidences, presence, readiness ratios, and the assembly of catalog and fleet payloads.
- Cleaning of capability lists and source types before an observation: the cleaned values, or their refusal, are parameters.
- `process_encoded` and `process_packet` are one method, `SensorIngress.Ingress.Process`: known media type and decoding are its parameters. The packet route's own look at the header before admission is not part of this model.
- Forgetting a source inside one of its own admissions; nothing in the service prevents it, and the admission theorems exclude it.
- `wait_for_changes`: it is two reads with a wait between them, and a follower may read any number of times.
- The in-memory producer without a state store is modelled call by call, not across a crash, which loses it.
- FrameProducer.NativeGatewayClient.SendEncoded: the check of the content type before the reservation is not part of this model.
- Convergence.ConvergedMeansConfirmed: about a producer that reports what it read; one that lies about its revision is not part of this model. Reports of an earlier registration are not promised anything, and can be confirmed.
- ChangePlane: both files are there; a service that keeps nothing begins again from nothing. Whether the readiness projection changed is the environment's word, and an admission inside a handler is one step, which `AdmissionRefines.RunsAreAtomic` justifies.
- FeedLevel.MovesAreReported: says nothing of a heartbeat or frame for a source known by metadata alone, or disturbed by another move; for those `FeedLevel.LevelExactly` gives the condition on what they read.
- Nv21.Yuv420ToNv21: the format and plane-count checks of the image object are not part of this model.
- Spatial.OutputIsAcyclic: about the generated relations; relations that were given to the stage may have cycles of their own.
- Tracking: the text of a track id is its number; the other fields of an entity are copied and left out.
- CaptureLoop.RunControlledCapture: the argument checks before the loop, the choice of encoder by the negotiated plan and the printed lines are left out; encoding a frame is one call that may raise.
- `BoundedFrameQueue` holds a few fresh frames and drops the oldest, without the drop counts that frame carried; the embedding store keeps the most recent vectors; profiles enroll, revoke and match embeddings and are sealed with AES-GCM; the semantic gate decides which events are published on. None of them touches the protocols above.
- Release evidence, promotion and qualification check long lists of document fields, and command lines and environment variables set the parameters that the model takes as given.
- ONNX, OpenCV, MediaPipe, Tesseract, Kinect, CameraX and Camera2 calls: foreign code.
