# rabbitkit: verified core

A model, in Dafny, of the parts of rabbitkit whose guarantees have to hold over every interleaving: the channel-wide
settlement coordinator, the batch publisher and its byte budget, the dead-letter queue inspector, the two worker pools,
the Redis lock, and the three connection-level state machines (consumer supervision, reconnecting, blocked-connection
monitoring), plus the soak harness's watermark tracker. `dafny verify dfyconfig.toml` checks all of it.

How it is built:

- An asynchronous or threaded protocol is a state machine. A step is a stretch of code between two suspension points,
  or one critical section; callers, timers, workers, the broker and the clock take steps in any order. `Inv` is what
  every step keeps (`StepKeeps`). A run is any sequence of steps, of which those that are not enabled change nothing,
  and the theorems are about every state of every run, or about two points of one run.
- The object with its fields and loops is a class. Each of its methods is proved to be a step of the machine, or to
  meet its specification function, so what is proved of the machine holds of the code's own control flow.
- The broker, Redis and aio-pika appear only as the state the code can observe and as answers chosen freely: a fetch
  may fail, a republish may be accepted, refused or raise, a reply may be lost after the server acted, a copy may come
  back. The clock never runs backwards. Integers are unbounded, as they are in Python; times are reals.
- Five guarantees a reader of the documentation would expect hold only under a condition, and the code is kept as it
  is. Each has a run that breaks it and the exact condition under which it holds: a frame for a delivery that is
  settled past the coordinator (`ReleasedInFlight`, `NeverSettlesTwice`), a stale release of a `RedisLock`
  (`StaleReleaseDeletesAnother`, `ReleaseIsForeignIff`), a cancel frame during a re-subscription
  (`CancelDuringConsumeIsOverlooked`, `LateRegistrationIsOverlooked`, `OverlookedIff`), a consume that outlives the
  stop of its record (`CutOffConsumeLingers`, `LingersIff`), and a submission that races the shutdown of the thread
  pool (`SubmitRacesShutdown`, `StrandsIff`). Likewise a malformed replay count reads as zero except for an infinite
  float (`CountRaisesIff`), and a partial read reorders a quorum queue (`QuorumOrderKept`).

| file | models |
|---|---|
| `Settlement.dfy`, `Coordinator.dfy`, `SettlementRuns.dfy` | the ledger, what a plan must be, the planning walk, and the protocol against a channel |
| `BatchState.dfy`, `BatchProofs.dfy`, `BatchRuns.dfy`, `BatchOutcomes.dfy`, `BatchPublisher.dfy` | the batch publisher: machine, invariant, theorems, who gets which outcome, object |
| `ByteLimiter.dfy` | the in-flight byte budget |
| `DlqHeaders.dfy`, `Dlq.dfy`, `DlqInspector.dfy`, `DlqLaws.dfy` | headers and limits, the queue, peek and replay, and what they mean for the queue |
| `ThreadPool.dfy`, `AsyncPool.dfy` | the worker pools |
| `RedisLock.dfy` | the distributed lock |
| `Supervisor.dfy`, `Reconnect.dfy`, `BlockedMonitor.dfy` | connection-level state machines |
| `SoakTracker.dfy` | the watermark tracker |
| `Common.dfy` | shared vocabulary |

## Model

| member | source | states |
|---|---|---|
| `SettlementRuns.NeverAcksUnapproved` | src/rabbitkit/core/settlement.py:421-449 | In every state of every run of deliveries, registrations, intents, any number of concurrent prepare/emit/commit batches, lost or failed frames, reconnects, and settlements and releases past the coordinator at any time, the broker has acknowledged only deliveries a handler approved or somebody else settled, and none a handler failed, cancelled, nacked or rejected |
| `SettlementRuns.NeverSettlesTwice` | src/rabbitkit/core/settlement.py:1094-1145 | A frame that reaches the broker names an unsettled delivery, and settles each tag it covers, if and only if nobody had settled that delivery past the coordinator; so without that no frame draws a channel-closing error |
| `SettlementRuns.ReleasedInFlight` | src/rabbitkit/core/settlement.py:756-764 | The coordinator does not prevent that: from every reachable state with a frame about to land, two steps settle and release a delivery it covers, and the frame can still land |
| `SettlementRuns.LandingSweeps` | src/rabbitkit/core/settlement.py:430-446 | What the broker settles on receiving a frame is exactly what the frame covers and nobody had settled before, plus approved deliveries that an earlier failed ack had left to the broker |
| `SettlementRuns.StepKeeps` | src/rabbitkit/core/settlement.py:642-1027 | Every step of the protocol keeps the whole invariant: ledger, reservations, batches in flight and the broker agree |
| `SettlementRuns.RunDecides` | src/rabbitkit/core/settlement.py:698-719 | A refusal is for good: no delivery is ever both approved and refused on one channel |
| `Settlement.IntentsAreMonotone` | src/rabbitkit/core/types.py:394-439 | Success is reachable only from outstanding or retry-pending; success, nack and reject are final; other entries are untouched |
| `Settlement.IntentIff` | src/rabbitkit/core/settlement.py:698-719 | An intent is recorded exactly for a registered delivery and an allowed change of state, listed pair by pair; otherwise the error says whether the tag is unknown, stale or contradictory |
| `Settlement.RegisterIff` | src/rabbitkit/core/settlement.py:642-679 | A delivery is registered exactly when its tag is new and the ledger has room |
| `Settlement.RegisterAdds` | src/rabbitkit/core/settlement.py:642-679 | Registering adds one outstanding delivery, and a gap exactly where a tag was skipped for the first time |
| `Settlement.ReleaseDrops` | src/rabbitkit/core/settlement.py:756-766 | Releasing takes one delivery out of the ledger and the tables beside it, and leaves every other delivery alone |
| `Settlement.CommitDrops` | src/rabbitkit/core/settlement.py:922-936 | A resolved frame of this generation forgets exactly what it covers; an old one nothing |
| `Settlement.FailDrops` | src/rabbitkit/core/settlement.py:938-965 | A failed frame of this generation forgets what it covers, an ack nothing more, a nack or reject everything and ends the generation; an old frame changes nothing |
| `Settlement.InvalidateRenews` | src/rabbitkit/core/settlement.py:1007-1027 | A new generation: everything forgotten but the high-water mark |
| `SettlementRuns.LeavesLedgerIff` | src/rabbitkit/core/settlement.py:922-1027 | A delivery leaves the ledger exactly when a frame of the present generation that covers it is resolved, a nack or reject of that generation fails, it is released, or the channel is replaced |
| `SettlementRuns.GapIsFirst` | src/rabbitkit/core/settlement.py:642-679 | In every run the gap is exactly the lowest tag the present generation skipped, and there is none if and only if it skipped none |
| `Settlement.HoldIsBounded` | src/rabbitkit/core/settlement.py:768-885 | A success held back for coalescing waits at most `max_hold` planning rounds |
| `Settlement.OrderedFramesAreDisjoint` | src/rabbitkit/core/settlement.py:883-885 | No delivery is covered by two frames of a plan, and lower tags go out first |
| `Settlement.RunFramesCover` | src/rabbitkit/core/settlement.py:800-834 | Flushing a run of successes covers exactly the run |
| `Settlement.IndividualPlan` | src/rabbitkit/core/settlement.py:768-885 | A forced plan, or one without coalescing, has one frame per delivery and holds nothing back |
| `Settlement.ApprovedLedgerIsOneAck` | src/rabbitkit/core/settlement.py:768-834 | With coalescing, a ledger of at least two approved deliveries and no gap goes out as a single cumulative ack |
| `Coordinator.SettlementCoordinator.constructor` | src/rabbitkit/core/settlement.py:482-527 | A new coordinator is empty, in generation 0 |
| `Coordinator.SettlementCoordinator.RegisterDelivery` | src/rabbitkit/core/settlement.py:642-679 | Registers exactly a positive, increasing tag the ledger has room for; a refused or skipped tag becomes a gap |
| `Coordinator.SettlementCoordinator.Mark` | src/rabbitkit/core/settlement.py:681-719 | Records the intent or returns the error, as `Settlement.IntentIff` says, and changes nothing on an error |
| `Coordinator.SettlementCoordinator.ReleaseDelivery` | src/rabbitkit/core/settlement.py:756-766 | Drops the tag from the ledger and from every table beside it |
| `Coordinator.SettlementCoordinator.PlanLocked` | src/rabbitkit/core/settlement.py:768-885 | The walk yields a plan that is ordered, disjoint, complete up to held deliveries, coalesced as far as allowed, and in which a cumulative ack never reaches past a gap or a delivery that is not approved or already planned |
| `Coordinator.SettlementCoordinator.Visit` | src/rabbitkit/core/settlement.py:836-882 | One ledger entry of the walk keeps what the walk has established so far |
| `Coordinator.SettlementCoordinator.VisitStranded` | src/rabbitkit/core/settlement.py:849-864 | An approved delivery behind a blocker is held while it may be, then acknowledged individually |
| `Coordinator.SettlementCoordinator.FlushRun` | src/rabbitkit/core/settlement.py:800-834 | Flushing the current run of successes keeps what the walk has established |
| `Coordinator.SettlementCoordinator.FinishWalk` | src/rabbitkit/core/settlement.py:883-885 | The state at the end of the walk is a plan |
| `Coordinator.WalkIsPlan` | src/rabbitkit/core/settlement.py:768-885 | What the walk keeps, at the last tag, is the specification of a plan |
| `Coordinator.SettlementCoordinator.Prepare` | src/rabbitkit/core/settlement.py:896-920 | A plan, with exactly its covered tags reserved for a fresh batch |
| `Coordinator.SettlementCoordinator.Commit` | src/rabbitkit/core/settlement.py:922-936 | A landed frame removes exactly its covered tags from the ledger; one of an old generation changes nothing |
| `Coordinator.SettlementCoordinator.Fail` | src/rabbitkit/core/settlement.py:938-965 | A failed frame drops its covered tags for good; a failed nack or reject also invalidates the generation; one of an old generation changes nothing |
| `Coordinator.SettlementCoordinator.InvalidateGeneration` | src/rabbitkit/core/settlement.py:1007-1027 | A new generation: everything forgotten but the high-water mark |
| `Coordinator.SettlementCoordinator.Unreserve` | src/rabbitkit/core/settlement.py:967-981 | Frames that were not sent give their tags back, and only those this batch still holds |
| `BatchRuns.NotSentIsTruthful` | src/rabbitkit/async_/batch.py:83-104 | Over every interleaving of callers, deadlines, workers and stop, an item resolved NOT_SENT is handed to the transport at no point of the run, before or after |
| `BatchRuns.ReturnedNotSentIsTruthful` | src/rabbitkit/async_/batch.py:241-294 | So is what `publish()` returned |
| `BatchRuns.CallerSeesFinal` | src/rabbitkit/async_/batch.py:83-104 | The final outcome is set once and the caller's answer at most once; they agree, unless the deadline fired during the flush, and then the item was not withdrawn |
| `BatchOutcomes.OutcomesAreExact` | src/rabbitkit/async_/batch.py:340-419 | At every step of every run an item gets the one outcome the step prescribes for it, and every other item keeps the one it has: its own position in the gathered results, NOT_SENT or UNKNOWN by whether it was flushing, the reason by who resolved it |
| `BatchOutcomes.EachGetsItsOwn` | src/rabbitkit/async_/batch.py:411-419 | Each item of a flushed batch gets the result at its own position |
| `BatchOutcomes.CrashResolves` | src/rabbitkit/async_/batch.py:362-375 | When a flush fails as a whole, what was on the wire is UNKNOWN and the rest of the batch an ERROR; what was resolved stays as it is |
| `BatchOutcomes.BeginAnswers` | src/rabbitkit/async_/batch.py:241-294 | How a publish begins: refused when the publisher is closed or the message exceeds the whole budget, else waiting for its bytes if there is a budget, else queued if there is room, else waiting for room |
| `BatchOutcomes.CallsEndAsAnswered` | src/rabbitkit/async_/batch.py:241-294 | A call returns or raises only by its own steps, with what its caller was answered or why it never entered the queue |
| `BatchOutcomes.QueueIsFifo` | src/rabbitkit/async_/batch.py:296-338 | Along every run what is left of an earlier queue stays in front, in its order |
| `BatchOutcomes.TakesTheOldest` | src/rabbitkit/async_/batch.py:305-338 | A worker takes the oldest queued item into its batch, unless it was withdrawn; no other batch changes |
| `BatchOutcomes.ChannelFate` | src/rabbitkit/async_/batch.py:340-390 | A channel in use is released exactly when it was found closed or its worker ends with nothing on the wire, and discarded exactly when its flush failed or its worker ends in the middle of one |
| `BatchOutcomes.WorkerCountIs` | src/rabbitkit/async_/batch.py:160-163 | An explicit worker count is taken as it is; an automatic one is the largest up to sixteen whose batches fit into `max_in_flight`, and at least one |
| `BatchOutcomes.CallerMayGoOn` | src/rabbitkit/async_/batch.py:241-294 | No call is stuck: when it can get its bytes, its room or its outcome, and that it can time out or be cancelled wherever it waits |
| `BatchOutcomes.CancelGoesThrough` | src/rabbitkit/async_/batch.py:276-294 | A cancelled call ends with its exception, and its message, if it was still queued, is withdrawn as NOT_SENT |
| `BatchOutcomes.WorkerMayGoOn` | src/rabbitkit/async_/batch.py:296-390 | No worker is stuck: when it can open, take, flush, give up, crash and be cancelled |
| `BatchOutcomes.FlushMayEnd` | src/rabbitkit/async_/batch.py:404-419 | A flush can end with any outcomes the transport may give |
| `BatchOutcomes.StopMayCancel` | src/rabbitkit/async_/batch.py:200-233 | A stop can cancel each worker that is left, which ends that one and no other |
| `BatchOutcomes.StopMayDrain` | src/rabbitkit/async_/batch.py:200-233 | Once no worker is left the drain can run and the stop is over |
| `BatchOutcomes.StartsOpen` | src/rabbitkit/async_/batch.py:140-158 | A publisher begins open and empty, and a first publish without a byte budget is queued at once |
| `BatchRuns.OwnedOnce` | src/rabbitkit/async_/batch.py:296-338 | Every enqueued unresolved item is once in the queue or once in exactly one worker's batch, and `_active` is the batches |
| `BatchRuns.BytesConserved` | src/rabbitkit/async_/batch.py:83-94 | The bytes held are the sum over admitted items not done, within the limit, and zero when nothing is in progress: each item releases exactly once |
| `BatchRuns.DeadlineAnswers` | src/rabbitkit/async_/batch.py:97-104 | After the deadline timer no caller waits; a queued item is NOT_SENT |
| `BatchRuns.CancelResolves` | src/rabbitkit/async_/batch.py:340-390 | Cancelling a worker leaves resolved items as they are, flushing ones UNKNOWN, queued ones NOT_SENT |
| `BatchRuns.StopIsComplete` | src/rabbitkit/async_/batch.py:200-233 | When stop returns, every item enqueued before is done for good, and NOT_SENT if it was still queued |
| `BatchRuns.NothingSentAfterStop` | src/rabbitkit/async_/batch.py:200-239 | Nothing reaches the transport after stop |
| `BatchRuns.LatePublishExpires` | src/rabbitkit/async_/batch.py:241-294 | A publish whose admission finishes after stop stays queued and unresolved along every run until its own deadline, its own caller's cancellation or another stop; the deadline can always fire and says NOT_SENT |
| `BatchRuns.ChannelsAreLinear` | src/rabbitkit/async_/batch.py:340-390 | Each channel is held by one worker or was released or discarded exactly once, is used only while held, and is released only with nothing on it still flushing |
| `BatchRuns.DequeuedBound` | src/rabbitkit/async_/batch.py:316-338 | Items dequeued at once are at most workers times batch size, and with automatic workers at most the larger of `max_in_flight` and `batch_size` |
| `BatchRuns.WorkersTimesBatch` | src/rabbitkit/async_/batch.py:160-163 | The automatic worker count is never too large for that bound |
| `BatchProofs.StepKeeps` | src/rabbitkit/async_/batch.py:83-431 | Every step of callers, timers, workers and stop keeps the invariant: bytes, items, queue, batches, places and channels |
| `BatchProofs.DrainResolves` | src/rabbitkit/async_/batch.py:200-233 | The drain at the end of stop leaves nothing unresolved |
| `BatchPublisher.AsyncBatchPublisher.constructor` | src/rabbitkit/async_/batch.py:140-158 | A fresh publisher, in the initial state of the machine, with the invariant |
| `BatchPublisher.AsyncBatchPublisher.FinishOne` | src/rabbitkit/async_/batch.py:83-94 | `finish`: the first outcome wins, the bytes go back once, the caller is answered if it still waits; the invariant survives an outcome the item may be given |
| `BatchPublisher.AsyncBatchPublisher.FinishAll` | src/rabbitkit/async_/batch.py:411-419 | Finishing a batch in order is finishing each of its items; the invariant survives outcomes that call nothing on the wire never sent |
| `BatchPublisher.AsyncBatchPublisher.Expire` | src/rabbitkit/async_/batch.py:97-104 | The deadline is the machine's deadline step and keeps the invariant |
| `BatchPublisher.AsyncBatchPublisher.NextItemNowait` | src/rabbitkit/async_/batch.py:305-314 | The first live item and everything before it leave the queue; withdrawn items are dropped; the invariant is kept |
| `BatchPublisher.AsyncBatchPublisher.Drain` | src/rabbitkit/async_/batch.py:316-338 | The fast drain takes queued items until the batch is full or the queue empty, and keeps the invariant |
| `BatchPublisher.DrainByLive` | src/rabbitkit/async_/batch.py:316-338 | Taking live items one at a time is the same drain |
| `BatchPublisher.AsyncBatchPublisher.MarkBatch` | src/rabbitkit/async_/batch.py:394-403 | The batch is marked flushing: exactly its still queued items; the invariant is kept |
| `BatchPublisher.AsyncBatchPublisher.FailBatch` | src/rabbitkit/async_/batch.py:356-361 | Without a channel every unresolved item of the batch is NOT_SENT and leaves the batch; the invariant is kept |
| `BatchPublisher.AsyncBatchPublisher.Cancelled` | src/rabbitkit/async_/batch.py:376-390 | A cancelled worker resolves its batch, disposes of its channel and keeps the invariant |
| `BatchPublisher.AsyncBatchPublisher.FinishStop` | src/rabbitkit/async_/batch.py:200-233 | The end of stop resolves the active items, empties the queue and keeps the invariant |
| `BatchPublisher.AsyncBatchPublisher.DrainQueue` | src/rabbitkit/async_/batch.py:223-233 | The drain loop is the machine's drain |
| `ByteLimiter.BudgetIsExact` | src/rabbitkit/async_/pool.py:79-146 | The used bytes are what callers still owe, never above the limit, zero when nobody owes anything |
| `ByteLimiter.FirstComeFirstServed` | src/rabbitkit/async_/pool.py:148-158 | Nobody is granted bytes while an earlier caller is still parked |
| `ByteLimiter.AskAnswers` | src/rabbitkit/async_/pool.py:112-127 | A caller is refused exactly when the budget is closed or it asks for more than there is, granted at once exactly if nobody waits and it fits, and parked last in line otherwise |
| `ByteLimiter.ResumeAnswers` | src/rabbitkit/async_/pool.py:128-141 | A caller that wakes holds its bytes exactly if they were granted and it was not interrupted |
| `ByteLimiter.NoLostWakeup` | src/rabbitkit/async_/pool.py:125-141 | With no interruption in flight, a parked caller means the head of the line does not fit and somebody holds bytes |
| `ByteLimiter.EverybodyIsServed` | src/rabbitkit/async_/pool.py:112-158 | Nobody starves: from every state, the callers already answered need only finish for a parked caller to get its turn, within a bounded number of steps |
| `ByteLimiter.NobodyIsStuck` | src/rabbitkit/async_/pool.py:104-146 | Anybody may ask or close; a parked caller can be interrupted, an answered one can go on, a holder can give its bytes back |
| `ByteLimiter.ClosedIsFinal` | src/rabbitkit/async_/pool.py:104-120 | Closing answers every parked caller and refuses every later one |
| `ByteLimiter.StepKeeps` | src/rabbitkit/async_/pool.py:104-158 | Every step keeps the shape of the line, the balance, the order and the wake-up |
| `ByteLimiter.InFlightByteLimiter.constructor` | src/rabbitkit/async_/pool.py:88-94 | An empty budget, with the invariant |
| `ByteLimiter.InFlightByteLimiter.Grant` | src/rabbitkit/async_/pool.py:148-158 | Abandoned heads are dropped, heads that fit are granted, and the walk stops at the first that does not: whatever woke it, the wake-up law holds again |
| `ByteLimiter.InFlightByteLimiter.Acquire` | src/rabbitkit/async_/pool.py:112-127 | Refused, granted at once only if nobody waits, or parked at the end of the line; bytes are used exactly by a grant; the invariant is kept |
| `ByteLimiter.InFlightByteLimiter.AfterWait` | src/rabbitkit/async_/pool.py:128-141 | True exactly when the caller then holds its bytes; a grant that crossed a cancellation is handed back; leaving the line passes the turn on; the invariant is kept |
| `ByteLimiter.InFlightByteLimiter.Release` | src/rabbitkit/async_/pool.py:143-146 | Bytes nobody owes any more go back and the line is looked at, which restores the balance and the invariant |
| `ByteLimiter.InFlightByteLimiter.Return` | src/rabbitkit/async_/pool.py:143-146 | A holder that releases its bytes takes the step of the machine and keeps the invariant |
| `ByteLimiter.InFlightByteLimiter.Close` | src/rabbitkit/async_/pool.py:104-110 | Every parked caller fails, nobody is left in the line, and the invariant is kept |
| `DlqHeaders.CountRaisesIff` | src/rabbitkit/dlq.py:150-158 | A malformed count reads as zero; only an infinite float raises |
| `DlqHeaders.WrittenCountIsRead` | src/rabbitkit/dlq.py:150-158 | A count written as a decimal number, in text or bytes, with a sign and spaces or without, is read back; below zero it reads as zero |
| `DlqHeaders.OtherCountsAreRead` | src/rabbitkit/dlq.py:150-158 | Numbers lose their fraction and everything below zero, a truth value and anything that is no number read as zero, infinity raises |
| `DlqHeaders.DigitsIff` | src/rabbitkit/dlq.py:155-158 | Exactly digits with single underscores between them are a number |
| `DlqHeaders.UnderscoresAreIgnored` | src/rabbitkit/dlq.py:155-158 | An underscore between two numbers does not change what they say |
| `DlqHeaders.OriginalQueueIff` | src/rabbitkit/dlq.py:106-129 | The original queue is what the first of three headers says, in the order of their authority, and nothing if none says anything |
| `DlqHeaders.OriginalRoutingKeyIff` | src/rabbitkit/dlq.py:132-147 | Likewise the original routing key: its own header, then the first key of the newest death |
| `DlqHeaders.GoesTo` | src/rabbitkit/dlq.py:161-180 | An explicit key wins; the default exchange gets the original queue, a named one the original key, and without either the key the message has |
| `DlqHeaders.StampCountsUp` | src/rabbitkit/dlq.py:183-203 | The stamped count reads exactly one more than before, whatever the header held |
| `DlqHeaders.StampTouchesNothingElse` | src/rabbitkit/dlq.py:183-203 | No other header changes; a reset removes exactly the retry-budget headers and archives the old count |
| `DlqHeaders.LimitIsExact` | src/rabbitkit/core/quorum.py:95-113 | The effective limit is the broker's: a message survives one more return if and only if its count is below it |
| `DlqInspector.VettedIsSafe` | src/rabbitkit/core/quorum.py:132-159 | A queue that passes the guard loses nothing to requeues however often its messages were returned, and a quorum one fits the scan |
| `DlqInspector.GuardIff` | src/rabbitkit/dlq.py:503-525 | Refused exactly when the queue is known to be unsafe, the lookup fails, or it is a quorum queue that is not known to keep every message however often it is returned or is too deep; unvetted exactly when there is nothing to ask |
| `DlqInspector.HandleIsGuarded` | src/rabbitkit/dlq.py:567-578 | What is kept was vetted, and shows no sign of a quorum queue unless the queue was checked; what is refused for safety was refused by the guard or shows that sign |
| `DlqInspector.CopyCostsLess` | src/rabbitkit/dlq.py:183-203 | A republished copy that comes back has one replay less left |
| `DlqInspector.DlqQueue.Get` | src/rabbitkit/dlq.py:880-884 | A fetch moves the head from ready to unacknowledged, or nothing |
| `DlqInspector.DlqQueue.AckLast` | src/rabbitkit/dlq.py:922-926 | The acknowledged message is the last one held |
| `DlqInspector.DlqQueue.ReleaseHeld` | src/rabbitkit/dlq.py:296-305 | Held messages are requeued in the order they were read, except those whose nack fails |
| `DlqInspector.DlqQueue.Arrive` | src/rabbitkit/dlq.py:848-860 | Any of the copies on their way arrive at the back, in any order |
| `DlqInspector.ArrivalKeeps` | src/rabbitkit/dlq.py:848-860 | An arrival keeps the books: conservation, order of arrival and the fetch bound |
| `DlqInspector.Inspector.constructor` | src/rabbitkit/dlq.py:405-429 | Nothing is known about any queue yet |
| `DlqInspector.Inspector.Ensure` | src/rabbitkit/dlq.py:503-525 | Refused, unvetted or vetted, and which queues are read whole |
| `DlqInspector.Inspector.Tripwire` | src/rabbitkit/dlq.py:550-555 | Trips exactly on a delivery count from an unvetted queue, and remembers the queue |
| `DlqInspector.Inspector.VetRequeue` | src/rabbitkit/dlq.py:567-578 | The vetting so far or a late one, and the tripwire; which queues it has learned about, exactly |
| `DlqInspector.Inspector.HandleOne` | src/rabbitkit/dlq.py:886-927 | One fetched message ends as kept, replayed or broken, as `DecideFacts`, `HandleBlames` and `HandleIsGuarded` characterize, with its whole effect on the queue and on what the inspector knows |
| `DlqInspector.DecideFacts` | src/rabbitkit/dlq.py:889-904 | A message is republished exactly when it matches, has replays left and would not come straight back; otherwise it is left and counted for the first of these that fails; it raises only for a predicate that raises or a count that cannot be read |
| `DlqInspector.HandleBlames` | src/rabbitkit/dlq.py:886-927 | A message that raises gives one of the reasons there are; one that does not had no reason to |
| `DlqInspector.HandledKeeps` | src/rabbitkit/dlq.py:879-927 | Handling a message keeps the books: what was read, held and acknowledged, the republishes behind it, the order and the fetch bound |
| `DlqInspector.ServedCounts` | src/rabbitkit/dlq.py:889-927 | Each message that does not raise is counted once, for what became of it, and republished exactly if it should be |
| `DlqInspector.TurnSound` | src/rabbitkit/dlq.py:879-927 | Every turn keeps the books, the counts, the list of republishes and the guard |
| `DlqInspector.Inspector.Turn` | src/rabbitkit/dlq.py:879-927 | One turn of the loop is one step of the specification, whatever arrives before it |
| `DlqInspector.Inspector.Loop` | src/rabbitkit/dlq.py:879-927 | The loop ends, after some number of turns, with the queue empty, the limit reached or an error |
| `DlqInspector.Inspector.Replay` | src/rabbitkit/dlq.py:862-943 | On every exit: what was read and what was not, what was requeued in which order, what was acknowledged and why, which messages were republished and that no other was, why it raised, at most `limit` fetches, with finite `max_replays`, even when every republish is dead-lettered again and its copy returns before any later fetch in any order, at most the sum of one plus the replays each initially ready message had left; on a normal exit nothing raised and the five counts are exact: acknowledged, republishes not accepted, filtered out, replayed too often, and bound straight back; nothing is held of a queue that must not be browsed, it is refused exactly when the guard says so, and it learns exactly of the queue that tripped the wire |
| `DlqInspector.Inspector.Peek` | src/rabbitkit/dlq.py:618-654 | The messages read are put back in order on every exit; it returns if and only if the queue passes the guard, no fetch fails, nothing trips the wire and a whole read fits; then it returns the first `limit` messages |
| `DlqLaws.ReplayConserves` | src/rabbitkit/dlq.py:877-943 | On every exit each message is ready, or unacknowledged because its requeue failed, or acknowledged, exactly once; only copies that came back are new |
| `DlqLaws.AckedWasRepublished` | src/rabbitkit/dlq.py:908-926 | A message that is gone was acknowledged once, after a republish of its own envelope that was answered OK |
| `DlqLaws.RepublishIsFaithful` | src/rabbitkit/dlq.py:662-708 | Every republish carries body and properties, an empty text as none and only a transient message as transient, one replay more, the time and the actor, is mandatory, below the replay limit, and not into the queue itself unless allowed |
| `DlqLaws.RepublishedIff` | src/rabbitkit/dlq.py:889-920 | On every exit a message that was read, matches, has replays left and would not come straight back was handed to the publisher, unless it is the last one and raised before that; and no other message was |
| `DlqLaws.HeldSurvives` | src/rabbitkit/dlq.py:567-578 | What a replay that returns puts back into a queue it could check survives that, however often it was returned before |
| `DlqLaws.ReplayGoesHome` | src/rabbitkit/dlq.py:656-687 | An explicit target wins; otherwise the queue its headers name, in their order, through the default exchange, the key they name through a named one, and without any the key it has |
| `DlqLaws.ClassicReplayKeepsOrder` | src/rabbitkit/dlq.py:877-931 | A classic queue ends as the original sequence without the acknowledged messages, on every exit |
| `DlqLaws.QuorumReplayKeepsOrder` | src/rabbitkit/dlq.py:535-541 | A quorum queue does so if and only if the replay held nothing or read everything, which a completed replay without a limit did |
| `DlqLaws.PeekKeepsOrder` | src/rabbitkit/dlq.py:640-654 | A peek leaves a classic queue as it was; a quorum queue if and only if it read nothing or everything |
| `DlqLaws.VettedPeekIsIdentity` | src/rabbitkit/dlq.py:527-533 | A vetted quorum queue is read whole, so a peek that returns leaves it identical and shows its first messages |
| `Dlq.ReleaseConserves` | src/rabbitkit/dlq.py:296-305 | Releasing neither loses nor invents a message |
| `Dlq.ClassicRelease` | src/rabbitkit/dlq.py:296-305 | Returned to their places, whatever was read and wherever the reading stopped |
| `Dlq.QuorumOrderKept` | src/rabbitkit/core/quorum.py:23-27 | Returned to the back, the order is kept if and only if nothing was held or nothing was left unread |
| `ThreadPool.ThreadsAreCounted` | src/rabbitkit/concurrency.py:75-89 | Never more threads than `max_workers`; the idle count is exactly the workers in the waiting section |
| `ThreadPool.ItemsAreOwnedOnce` | src/rabbitkit/concurrency.py:91-147 | Every item put is once in the queue, or with exactly one worker, or resolved |
| `ThreadPool.QueueIsFifo` | src/rabbitkit/concurrency.py:91-147 | Along every run what is left of an earlier queue stays in front, in its order |
| `ThreadPool.ItemMoves` | src/rabbitkit/concurrency.py:66-147 | An item is run by the worker that took it, once, or dropped by the drain from the head of the queue; no step moves it otherwise |
| `ThreadPool.WorkerMoves` | src/rabbitkit/concurrency.py:91-130 | A worker takes the oldest item, keeps it through its run and is free again only afterwards; no step moves another worker |
| `ThreadPool.SubmissionMoves` | src/rabbitkit/concurrency.py:66-89 | A submission returns after its put and its look, and starts a thread exactly if nobody is idle, there is room for one and the pool is open |
| `ThreadPool.NobodyIsStuck` | src/rabbitkit/concurrency.py:66-147 | A waiting worker gets an item if there is one and finds nothing if there is none; every other worker, submission and drain can go on, a put as soon as the queue has room |
| `ThreadPool.NothingIsStranded` | src/rabbitkit/concurrency.py:66-89 | Before shutdown, items in the queue and no submission between its put and its look imply a worker that lives or is about to be started |
| `ThreadPool.ResolvedStays` | src/rabbitkit/concurrency.py:112-130 | No item runs twice, and none that shutdown dropped ever runs |
| `ThreadPool.ShutdownResolves` | src/rabbitkit/concurrency.py:132-147 | Once the drain is over and the workers have left, every item not put after the drain is resolved |
| `ThreadPool.StrandsIff` | src/rabbitkit/concurrency.py:66-73 | When the drain has found the queue empty, some continuation strands an accepted item, with every worker gone, if and only if a submission is between its check and its put |
| `ThreadPool.StrandedForGood` | src/rabbitkit/concurrency.py:132-147 | A stranded item is never resolved, whatever happens next |
| `ThreadPool.SubmitRacesShutdown` | src/rabbitkit/concurrency.py:66-73 | Such a moment exists: the check and the put are not one step |
| `ThreadPool.StepKeeps` | src/rabbitkit/concurrency.py:66-147 | Every step of submitters, workers and shutdown keeps the invariant |
| `ThreadPool.DaemonWorkerPool.constructor` | src/rabbitkit/concurrency.py:47-64 | An open pool without threads |
| `ThreadPool.DaemonWorkerPool.CheckOpen` | src/rabbitkit/concurrency.py:66-69 | Accepts, and makes an item, exactly while open |
| `ThreadPool.DaemonWorkerPool.PutItem` | src/rabbitkit/concurrency.py:70-71 | The item joins the queue |
| `ThreadPool.DaemonWorkerPool.AdjustThreadCount` | src/rabbitkit/concurrency.py:75-89 | A thread is created unless somebody is idle, the cap is reached or the pool is shut |
| `ThreadPool.DaemonWorkerPool.EnterWait` | src/rabbitkit/concurrency.py:93-96 | Counted idle before waiting |
| `ThreadPool.DaemonWorkerPool.TryGet` | src/rabbitkit/concurrency.py:97-100 | An item exactly when the queue has one |
| `ThreadPool.DaemonWorkerPool.LeaveWait` | src/rabbitkit/concurrency.py:100-108 | No longer counted idle; leaves exactly when there was nothing and the pool is shut |
| `ThreadPool.DaemonWorkerPool.FinishItem` | src/rabbitkit/concurrency.py:113-129 | The item is resolved and the worker goes round |
| `ThreadPool.DaemonWorkerPool.Shutdown` | src/rabbitkit/concurrency.py:132-143 | The queue is empty and every item in it dropped |
| `AsyncPool.ConcurrencyIsBounded` | src/rabbitkit/concurrency.py:487-517 | Never more handlers at once than workers; no slot is lost |
| `AsyncPool.SubmitAnswers` | src/rabbitkit/concurrency.py:471-517 | A submission becomes a task in the queue, or once the pool is stopped a requeue exactly if the message is unsettled |
| `AsyncPool.StopCutsTheQueued` | src/rabbitkit/concurrency.py:441-450 | Stopping cuts exactly the tasks that have not started |
| `AsyncPool.GraceCutsTheLate` | src/rabbitkit/concurrency.py:405-410 | The end of the grace period cuts exactly the handlers that still run and waits for them |
| `AsyncPool.NoHandlerOutlivesTheGrace` | src/rabbitkit/concurrency.py:405-434 | Over every run, the end of the grace period cuts every handler that runs then, and the stop still owes its message a settlement if it has none |
| `AsyncPool.StopLeavesNothing` | src/rabbitkit/concurrency.py:368-439 | When stop returns, every delivery ever submitted has been dealt with: its handler ran to its end, or the message is settled, by the handler or by exactly one requeue |
| `AsyncPool.StopCanReturn` | src/rabbitkit/concurrency.py:368-439 | From every state in which the pool is stopping the stop can return, by its own steps alone, within a bound set by the deliveries it has in hand |
| `AsyncPool.OnwardIsNearer` | src/rabbitkit/concurrency.py:368-439 | The next step of the stop is always possible and brings its return nearer |
| `AsyncPool.OthersDoNotDelay` | src/rabbitkit/concurrency.py:471-517 | No submission, no handler and no other task takes it further away |
| `AsyncPool.NobodyIsStuck` | src/rabbitkit/concurrency.py:487-522 | Every task that is not at its end can take its next step, a queued one as soon as a slot is free |
| `AsyncPool.SettledOnlyBy` | src/rabbitkit/concurrency.py:452-517 | A message is settled only by its handler while that runs, or by the stop when its turn on the list comes |
| `AsyncPool.NotStartedNeverRuns` | src/rabbitkit/concurrency.py:441-450 | A delivery not started when stop begins never runs its handler, and settlements stay as they are |
| `AsyncPool.NackedAtMostOnce` | src/rabbitkit/concurrency.py:420-434 | At most one requeue request per delivery by the pool, only for one it cut, never for a settled one |
| `AsyncPool.StopSettlesWhatItCuts` | src/rabbitkit/concurrency.py:368-439 | When stop returns, everything it cut is settled, by its handler or by exactly one requeue; everything else had started and was left alone |
| `AsyncPool.StepIsMonotone` | src/rabbitkit/concurrency.py:420-465 | A settlement is never taken back and a requeue is asked only for an unsettled message |
| `AsyncPool.StepKeeps` | src/rabbitkit/concurrency.py:368-522 | Every step keeps slots, stages and what the stop still owes |
| `AsyncPool.AsyncWorkerPool.constructor` | src/rabbitkit/concurrency.py:341-366 | An open pool with all its slots |
| `AsyncPool.AsyncWorkerPool.SubmitDelivery` | src/rabbitkit/concurrency.py:471-517 | A task, or once stopped a requeue unless settled |
| `AsyncPool.AsyncWorkerPool.CancelAll` | src/rabbitkit/concurrency.py:446-447 | Cancelling a list of tasks cancels each |
| `AsyncPool.AsyncWorkerPool.Begin` | src/rabbitkit/concurrency.py:392-401 | Closes the pool and cancels exactly the tasks that have not started; every other task is as it was |
| `AsyncPool.AsyncWorkerPool.CutLate` | src/rabbitkit/concurrency.py:405-410 | Cancels exactly the listed handlers that still run; every other task is as it was |
| `AsyncPool.AsyncWorkerPool.NackAll` | src/rabbitkit/concurrency.py:452-465 | Requeues exactly the unsettled messages on the list |
| `RedisLock.MutualExclusion` | src/rabbitkit/locking.py:104-115 | With every section ending before its lease, no two threads are inside at once: any number of threads and lock objects, any interleaving of the separate steps, lost replies included |
| `RedisLock.NeverAnotherInstance` | src/rabbitkit/locking.py:159-198 | Whatever the timing, a release deletes only a lease acquired through the same lock object |
| `RedisLock.SetTakesIff` | src/rabbitkit/locking.py:144-157 | An attempt takes the key exactly when it is free or expired, for the lease time from now; otherwise nothing changes |
| `RedisLock.ReleaseFrees` | src/rabbitkit/locking.py:159-173 | A holder that releases in time can do so, and then the lease is gone, nothing is remembered and the key can be taken at once |
| `RedisLock.StaleReleaseDeletesAnother` | src/rabbitkit/locking.py:99-102 | Through the same object it can delete another thread's live lease: a run that does, for every lease time |
| `RedisLock.TimelyReleaseIsOwn` | src/rabbitkit/locking.py:159-173 | In a run in which every section ends before its lease, a release deletes only the caller's own lease |
| `RedisLock.ReleaseIsForeignIff` | src/rabbitkit/locking.py:136-142 | An uninterrupted release deletes somebody else's lease if and only if the fencing token is no longer the caller's and its lease is live |
| `RedisLock.StepKeepsExclusive` | src/rabbitkit/locking.py:144-198 | A section stays covered by the lease and the remembered token |
| `RedisLock.Lock.constructor` | src/rabbitkit/locking.py:124-131 | Nothing remembered |
| `RedisLock.Lock.Acquire` | src/rabbitkit/locking.py:144-157 | Polls until the key is free or the time is up, at least once, and once only without a timeout; sets lease and token exactly on success |
| `RedisLock.AttemptsAreBounded` | src/rabbitkit/locking.py:144-157 | No more attempts than the timeout has room for |
| `RedisLock.Lock.Release` | src/rabbitkit/locking.py:159-198 | Deletes exactly a live lease with the remembered token, forgets the token only when told so, and touches no other key |
| `Supervisor.ReportsAlternate` | src/rabbitkit/async_/consumers.py:264-283 | Over every run, cancelled and resumed alternate, cancelled first, and `broker_cancelled` holds exactly in between |
| `Supervisor.ProbesAreSpaced` | src/rabbitkit/async_/consumers.py:235-244 | A probe happens only while cancelled and not before it is due; the wait doubles from 1 to 30 seconds and starts over with each cancellation |
| `Supervisor.TwoMissesCancel` | src/rabbitkit/async_/consumers.py:207-227 | With cancel callbacks or without, a pass marks an unmarked record exactly when it is the second pass of the run in a row to miss the tag, where a pass that trusts the callback misses nothing |
| `Supervisor.StreakIsCounted` | src/rabbitkit/async_/consumers.py:207-227 | The counter is the number of passes in a row that missed the tag since one that found it, trusted the callback, found the channel closed or was reported on |
| `Supervisor.StoppedIsLeftAlone` | src/rabbitkit/async_/consumers.py:204-209 | A stopped record with no pass under way is never looked at, probed, subscribed or reported on again, over every run |
| `Supervisor.CancelledCanResume` | src/rabbitkit/async_/consumers.py:204-262 | No cancellation is final: from every state of every run, a record that is marked and not stopped can come back and be reported as resumed |
| `Supervisor.PassGoes` | src/rabbitkit/async_/consumers.py:204-262 | How a pass goes on, stage by stage: it begins for an unstopped record with an open channel, consumes when the queue is found and the tag still missing, and undoes a consume that went through on a stopped record |
| `Supervisor.LookGoes` | src/rabbitkit/async_/consumers.py:209-241 | A pass goes on to a probe exactly when the record is marked, the tag missing and the probe due |
| `Supervisor.BackoffDoubles` | src/rabbitkit/async_/consumers.py:240-241 | The stored delay is the closed form: powers of two, capped |
| `Supervisor.StoppedConsumeIsUndone` | src/rabbitkit/async_/consumers.py:257-261 | A consume that completes after the stop is undone: once the undo succeeds on the channel of the consume, that channel no longer lists the tag |
| `Supervisor.LingersIff` | src/rabbitkit/async_/consumers.py:235-262 | Over every run, a pass's own consume outlives the stop exactly when it stands and then the pass is cut off or its consume raises, or the undo fails or goes to another channel, or an earlier pass had lost sight of it before the stop |
| `Supervisor.CutOffConsumeLingers` | src/rabbitkit/async_/consumers.py:257-261 | A run in which it does: stopped, the consume takes effect, the task is cancelled |
| `Supervisor.LingersForGood` | src/rabbitkit/async_/consumers.py:204-209 | The supervisor never takes such a consume back |
| `Supervisor.OverlookedIff` | src/rabbitkit/async_/consumers.py:176-185 | Over every run, registration included, a record becomes overlooked (not stopped, not marked, confirmed on a current channel that does not list the tag) exactly when its watch is confirmed on the current channel and either a consume returns and the tag was last taken off that channel since the pass asked, or a probe finds the tag on an older channel after a late registration moved the watch |
| `Supervisor.FrameIsSwallowed` | src/rabbitkit/async_/consumers.py:180-185 | A cancel frame during a consume changes nothing but the channel |
| `Supervisor.CancelDuringConsumeIsOverlooked` | src/rabbitkit/async_/consumers.py:235-262 | A run in which a consumer is cancelled during its consume and reported as resumed |
| `Supervisor.LateRegistrationIsOverlooked` | src/rabbitkit/async_/consumers.py:107-121 | A run of the second kind: the registration attaches to a new channel while a pass probes |
| `Supervisor.LatelyIsKnown` | src/rabbitkit/async_/consumers.py:235-262 | While a pass waits for its consume, a channel lists the tag exactly when the last change there since the pass asked was a listing, and a consume that can return on a confirmed current channel has seen a change there |
| `Supervisor.PassesDoNotNotice` | src/rabbitkit/async_/consumers.py:204-231 | No number of supervision passes notices it |
| `Supervisor.StepKeeps` | src/rabbitkit/async_/consumers.py:176-283 | Every step keeps the record and its trace in agreement |
| `Supervisor.ConsumerRecord.constructor` | src/rabbitkit/async_/consumers.py:57-83 | A consuming record whose registration has not come to its channel yet |
| `Supervisor.ConsumerRecord.Register` | src/rabbitkit/async_/consumers.py:107-121 | The callback is attached to the channel at once, a listed tag makes it trusted, and record and trace stay in agreement |
| `Supervisor.ConsumerRecord.Cancel` | src/rabbitkit/async_/consumers.py:264-276 | Adds one report to the trace, keeps it lawful, and makes the first probe due a second later |
| `Supervisor.ConsumerRecord.Resume` | src/rabbitkit/async_/consumers.py:278-283 | Adds the report that closes the one before it, and keeps the trace lawful |
| `Supervisor.ConsumerRecord.CancelFrame` | src/rabbitkit/async_/consumers.py:176-185 | Reports exactly when the record is not stopped and the trace has no open cancellation |
| `Supervisor.ConsumerRecord.Resubscribe` | src/rabbitkit/async_/consumers.py:235-244 | Probes exactly when the trace says one is due, with the wait the number of probes prescribes |
| `Supervisor.ConsumerRecord.Supervise` | src/rabbitkit/async_/consumers.py:204-231 | A pass with a channel in hand |
| `Supervisor.ConsumerRecord.Verdict` | src/rabbitkit/async_/consumers.py:217-231 | Keeps the trace lawful, and a listed tag leaves no open cancellation |
| `Supervisor.ConsumerRecord.AfterProbe` | src/rabbitkit/async_/consumers.py:242-254 | Keeps the trace lawful; exactly a found queue, an unstopped record and a listed tag close the cancellation, and exactly a found queue, an unstopped record and an unlisted tag lead to a consume |
| `Supervisor.ConsumerRecord.AfterConsume` | src/rabbitkit/async_/consumers.py:255-262 | Keeps the trace lawful; the cancellation stays open exactly when the consume raised or the record is stopped, and then a completed consume is undone |
| `Reconnect.LostAndRestoredAlternate` | src/rabbitkit/async_/reconnect.py:203-298 | Over every run, lost and restored alternate, lost first |
| `Reconnect.TerminalIsTheEnd` | src/rabbitkit/async_/reconnect.py:319-327 | Giving up is reported once, with the node of the last failure, for a permanent error or a budget that this failure exhausts; no attempt and no loss follows it |
| `Reconnect.AttemptsAreBudgeted` | src/rabbitkit/async_/reconnect.py:250-298 | Each attempt report is numbered within its outage, below the attempt budget, names the node (start + k - 1) mod n, waits within its ceiling, and elapsed plus wait stays within the time budget |
| `Reconnect.IntervalIsReported` | src/rabbitkit/async_/reconnect.py:272-277 | Over every run what is waited is what was reported: the wait of the last failed attempt while down, the steady interval right after a loss and while up |
| `Reconnect.HookReports` | src/rabbitkit/async_/reconnect.py:224-298 | The report of the hook by its cases: nothing, a loss, the end for a permanent error or an exhausted budget, or an attempt that waits what was drawn, cut to the time that is left |
| `Reconnect.ConnectReports` | src/rabbitkit/async_/reconnect.py:203-222 | Coming up ends the outage, reports it if there was one, and restores the steady interval |
| `Reconnect.ClosedIsQuiet` | src/rabbitkit/async_/reconnect.py:224-230 | Once the user closes the connection nothing is reported any more but a restoration |
| `Reconnect.ClockRuns` | src/rabbitkit/async_/reconnect.py:250-298 | The clock shows the time that has passed, so the times reported are real |
| `Reconnect.RoundRobin` | src/rabbitkit/async_/reconnect.py:300-306 | The rotation in closed form: the attempts of an outage go round from the node that was lost |
| `Reconnect.OutagesAreBounded` | src/rabbitkit/async_/reconnect.py:258-271 | With a budget of N at least 1 an outage sees at most N - 1 attempt reports |
| `Reconnect.ConsecutiveFailuresSpread` | src/rabbitkit/async_/reconnect.py:300-306 | Any n consecutive failures of an outage go to n different nodes, the one that gives up included |
| `Reconnect.WaitsFollowTheBackoff` | src/rabbitkit/async_/reconnect.py:84-91 | Under exponential backoff the k-th wait of an outage lies between zero and the smaller of the cap and the base doubled k - 1 times, at most 62 times |
| `Reconnect.CeilingsGrow` | src/rabbitkit/async_/reconnect.py:84-91 | The ceilings are nonnegative, nondecreasing and capped |
| `Reconnect.StepKeeps` | src/rabbitkit/async_/reconnect.py:203-327 | Every event keeps the connection and its trace in agreement |
| `Reconnect.RobustConnection.constructor` | src/rabbitkit/async_/reconnect.py:169-190 | A connection that has never been up |
| `Reconnect.RobustConnection.OnConnected` | src/rabbitkit/async_/reconnect.py:203-222 | Ends the outage and restores the steady interval |
| `Reconnect.RobustConnection.OnConnectionClose` | src/rabbitkit/async_/reconnect.py:224-248 | A loss, a failed attempt, or neither |
| `Reconnect.RobustConnection.FailedAttempt` | src/rabbitkit/async_/reconnect.py:250-298 | A failed attempt adds exactly one report: the end, or an attempt with its number, the wait that is then in force, the elapsed time and the node that failed; the next node is up |
| `BlockedMonitor.BlockedConnectionMonitor.constructor` | src/rabbitkit/async_/connection.py:542-563 | A monitor that has seen nothing |
| `BlockedMonitor.BlockedConnectionMonitor.Poll` | src/rabbitkit/async_/connection.py:610-648 | After every sequence of polls the flags, reports and the number of forced reconnects are what the history of observations says, and this poll forces one if and only if the alarm is overdue for the first time and it is allowed |
| `BlockedMonitor.ReportsAlternate` | src/rabbitkit/async_/connection.py:621-639 | Blocked and unblocked alternate, blocked first |
| `BlockedMonitor.ForcedOnlyWhenOverdue` | src/rabbitkit/async_/connection.py:640-648 | A reconnect is forced only if every effective poll over at least the timeout saw this connection blocked |
| `BlockedMonitor.OncePerAlarm` | src/rabbitkit/async_/connection.py:640-648 | Between two of them the connection was seen unblocked or was replaced |
| `BlockedMonitor.LongAlarmFires` | src/rabbitkit/async_/connection.py:640-648 | An alarm that lasts past the timeout does get its one chance |
| `SoakTracker.Tracker.constructor` | benchmarks/soak.py:152-155 | Nothing seen |
| `SoakTracker.Tracker.Handle` | benchmarks/soak.py:161-170 | After every arrival the ids up to the watermark and the residual are exactly the set of ids seen |
| `SoakTracker.Tracker.Compact` | benchmarks/soak.py:168-170 | Compaction changes the form, not the set, and goes as far as it can |
| `SoakTracker.Tracker.WatermarkIsLongestPrefix` | benchmarks/soak.py:147-148 | Everything up to the watermark was seen and the next id was not |
| `SoakTracker.Tracker.UniqueSeen` | benchmarks/soak.py:157-158 | The count is the size of the set of ids seen |
| `SoakTracker.Tracker.LostCount` | benchmarks/soak.py:233-238 | The lost count is the number of confirmed ids never seen |

## Left out

- Logging, audit records, metrics, hooks that raise, actor lookup and the authorizer: no effect on the modelled state.
- Ages, counters and the list of dropped tags of the settlement coordinator: reporting only.
- `settle_many_sync`/`settle_many_async` and the settlement reports: bookkeeping around single settlements.
- The channel pool, transports, topology, routing, retry middleware, RPC, CLI, dashboards and health checks: other
  components, or branch-by-branch glue that would only add easy members.
- The rest of `SyncWorkerPool` (future tracking, pumping the connection while it waits) and single-worker mode of both
  pools, which runs handlers inline.
- AsyncPool: one life from start to one stop; a restart gets a new semaphore, and a handler that ignored cancellation
  may then run beside new ones.
- ThreadPool: futures are cancelled only by the drain, and `shutdown` always drains, as `SyncWorkerPool` calls it;
  full `max_workers` parallelism is not claimed, since a thread is created only when nobody is idle.
- Eventual progress: the theorems are safety, bounded progress, and that a stop, a parked caller or a cancelled consumer
  can always get on (`StopCanReturn`, `EverybodyIsServed`, `CancelledCanResume`); that an enabled step is eventually
  taken is not modelled.
- DlqInspector: the synchronous methods; the asynchronous ones run the same loop, but a failed asynchronous ack keeps
  its claim, so such a message is not requeued by the inspector.
- SettlementRuns: a delivery is released only once it is settled, as `release()` asks of its callers; releasing one
  that the broker still waits for would let a cumulative ack sweep it.
- DlqInspector.Inspector.Replay: while a replay runs nobody else consumes or publishes, except that each republish may
  bring one copy back before any later fetch; copies that arrive while the held messages are being released are not
  modelled. Without a limit it needs a replay limit or no copies coming back, since otherwise the loop need not end.
- DlqHeaders: text counts are ASCII digits with single underscores; other Unicode digits, and the limit on very long
  digit strings, are not modelled.
- RedisLock: one key at a time, since keys share nothing; tokens are never drawn twice; the middleware's requeue of a
  message whose lock is taken is not modelled.
- Supervisor: one record; several records share only the order of the passes. Exceptions inside a pass end the pass.
- Reconnect: URLs, credentials and the classification of errors as permanent are inputs.
- BlockedMonitor: how the blocked flag is read from aiormq, and the reason text.
- SoakTracker: rates, restarts and the resource verdicts.
