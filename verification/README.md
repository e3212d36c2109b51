# Momotaro: a verified model of its protocols

Momotaro recovers failed payments. Its services exchange records through Kafka, act on them, and learn
later what came of it; a simulator stands in for the world, and a dashboard follows the outcome. This
project models the parts of it where an interleaving, an ordering or an off-by-one decides whether a
record is lost, repeated or reported wrongly, and proves what those parts promise. `dafny verify
dfyconfig.toml` checks everything.

* **The keyed Kafka consumer** (`internal/platform/kafkax`). `CommitTracker` and `Committer` are the
  per-partition tracker and the committer loop as the source has them; `KeyedConsumer` is the whole of
  `ConsumeKeyed` as a transition system in which the fetch loop, the worker pool, the bounded channel, the
  committer, the broker and the caller's cancellation interleave freely. `KeyedSafety` and
  `KeyedTheorems` hold for every reachable state: nothing unhandled is ever committed, and every committed
  point is one the one-at-a-time `Consume` (`SequentialConsumer`) reaches. `KeyedTermination` shows that
  shutdown ends under every schedule, `KeyedOrder` that each key is handled one record at a time in fetch
  order, `KeyedFetch` that all that is fetched is dispatched and fetching stops only for a reason, and
  `KeyedHistory` that what a state records is what the actions of its run did.
* **The live socket and the page collector** (`web/src/lib/api.ts`): `LiveSocket`, and `RecordPages`
  composed with the mock engine's pager.
* **The record lifecycle** (`web/src/lib/mockEngine.ts`): `RecordLifecycle` is one record under one timer
  callback, `MockEngine` the engine under any run of callbacks, `BatchReport` the report and its
  conservation laws; `ActionTables` ties its decisions to the World Simulator's. What `Math.random` decides is a parameter of each step, so every claim is over all
  draws.
* **The World Simulator's delayed outcomes** (`demo/world-simulator`): `OutcomeQueue` and `OutcomeRuns`
  over a Redis sorted set seen as a map from member to score, `WorldSimulator` for the keyed roll,
  `SyntheticRecords` and `Seeding` for reproducible batches, `SeededRuns` for whole runs of batches,
  calls and drains and when two of them replay each other, `MemberCodec` for the stored strings.
* **Smaller parts**: `HopCodec`, `FakeClock` (one caller) and `ClockRaces` (its critical sections and
  sends interleaved), `LoadGenerator`, `Candidates`.

Handlers, commits, Redis calls, fetches and publishes appear as what they may answer; the hash behind a
seeded draw, the amount curve and the demo time scale are arbitrary functions. Time is whole nanoseconds
where the source measures time.

Where the code and its own comments disagree, the model follows the code:

* `Wait` returns at once when behind schedule, so a slow response is followed by sends back to back, which
  lines 14-16 of `scripts/loadgen/ratelimiter.go` say cannot happen. `SpacingExactly` says when the spacing
  does hold, `SlowResponseBunches` shows a run without it.
* `onmessage` does not test `closed`, although the comment above `connectLiveSocket` says every handler
  checks it first; a socket that delivers after teardown still has its updates passed on
  (`UpdateAfterTeardown`), and none can follow exactly when all sockets were shut (`QuietExactly`).
* A failed removal makes `tick` return without handing on what it has already taken out
  (`TickConserves` says exactly when, `OutcomeLost` shows one).
* `parseMember(member(d))` is `d` exactly when the record id has no separator and the outcome is a named
  one; an unnamed outcome prints as a number and reads back as unspecified (`MemberRoundTrip`).
* `Fake.Set` reads the clock in one critical section and moves it in another; overlapping calls can leave
  a waiter in the past or overshoot their target (`OverlappingSetsStrandWaiter`,
  `OverlappingSetsOvershoot`); `WriteIsSafeExactly` and `LandsExactly` say when they do not.
* The seed of a batch is said to replay a whole run; a second batch seeded meanwhile overwrites it, as
  lines 92-97 of `server.go` concede (`ReplaysExactly`, `SecondBatchChangesAnswer`).
* The lifecycle graph in `docs/ARCHITECTURE.md` has an edge from Nudged to Escalated and none from Scoring
  to Escalated; the mock engine takes the second and, because a nudged bucket has only one attempt, never
  the first. Its uneconomic close is never reached either (`RunToCompletion`).

## Model

| member | source | states |
|---|---|---|
| `CommitTracking.FirstGap` | internal/platform/kafkax/keyed.go:67-76 | the run of finished offsets from a point ends at the least offset that is missing |
| `CommitTracking.CommitTracker.constructor` | internal/platform/kafkax/keyed.go:36-41 | a new tracker knows no partition |
| `CommitTracking.CommitTracker.Observe` | internal/platform/kafkax/keyed.go:43-50 | the first record seen of a partition fixes its start; later ones change nothing |
| `CommitTracking.CommitTracker.Complete` | internal/platform/kafkax/keyed.go:56-79 | finishing a record parks it, moves the gap to the first unfinished offset, drops what the gap passed, and hands out the record just below the gap exactly when it moved |
| `CommitTracking.CommitTracker.Drain` | internal/platform/kafkax/keyed.go:67-76 | the in-place loop removes exactly the contiguous run and ends at the first gap |
| `CommitTracking.TrackerIsFirstGap` | internal/platform/kafkax/keyed.go:43-79 | after any sequence of completions, duplicates included, `next` is the least offset from the start not finished and the parked offsets are exactly the finished ones above it |
| `CommitTracking.OrderDoesNotMatter` | internal/platform/kafkax/keyed.go:52-79 | two histories that finished the same records leave the same tracker, in any order and however often repeated |
| `Committing.AdvancesReach` | internal/platform/kafkax/keyed.go:204-229 | what was handed out of a partition last is the record just below its gap, and nothing was exactly when the gap has not moved |
| `Committing.AdvancesIncrease` | internal/platform/kafkax/keyed.go:196-203 | offsets are handed out in strictly increasing order per partition |
| `Committing.IssuedUntilRefused` | internal/platform/kafkax/keyed.go:205-227 | the commits issued are everything handed out, or exactly that up to and including the first refused one |
| `Committing.IssuedIncrease` | internal/platform/kafkax/keyed.go:196-203 | commits are issued in strictly increasing order per partition, refused or not |
| `Committing.RunCommitter` | internal/platform/kafkax/keyed.go:204-229 | the loop folds every record of the channel into the tracker, even after a refusal, issues exactly the commits above, and reports at most one failure |
| `SequentialConsuming.Consume` | internal/platform/kafkax/kafkax.go:116-158 | one record at a time: handled, committed, next; the first handler, commit or fetch trouble ends the run with that error and with everything before it committed |
| `SequentialConsuming.HandleRecords` | internal/platform/kafkax/kafkax.go:138-156 | the inner loop stops at the first record whose handler or commit fails, and says which |
| `SequentialConsuming.DeliveredExactly` | internal/platform/kafkax/kafkax.go:117-136 | what reaches the handler loop is the records of the polls before the one that ends polling, and a failed fetch is the answer exactly when that poll failed uncancelled |
| `SequentialConsuming.CommittedMeansServed` | internal/platform/kafkax/kafkax.go:106-108 | on a feed without gaps, everything at or below a committed offset went through the handler |
| `SequentialConsuming.RanIntoTrouble` | internal/platform/kafkax/kafkax.go:149-155 | trouble with a record leaves exactly the records before it committed |
| `KeyedConsuming.Config.WorkerFor` | internal/platform/kafkax/keyed.go:85-89 | every key gets one worker inside the pool |
| `KeyedConsuming.Start` | internal/platform/kafkax/keyed.go:119-122 | exactly a pool that is not positive is refused |
| `KeyedSafety.InvKept` | internal/platform/kafkax/keyed.go:119-277 | every step of every goroutine keeps the invariant: where each record is, what the tracker knows, and how far the commits may have got |
| `KeyedSafety.WhereaboutsKept` | internal/platform/kafkax/keyed.go:146-158 | every step keeps each observed record in one place: on offer, at its own worker, in the channel, folded in, or failed |
| `KeyedSafety.ReceiveKeepsCommits` | internal/platform/kafkax/keyed.go:206-212 | folding a finished record in keeps the tracker exact and the commits below its gap |
| `KeyedTheorems.ReachableInv` | internal/platform/kafkax/keyed.go:119-277 | the invariant holds in every reachable state |
| `KeyedTheorems.CommittedMeansHandled` | internal/platform/kafkax/keyed.go:21-28 | in every reachable state each record at or below a committed offset was handled successfully |
| `KeyedTheorems.UnhandledPinsCommit` | internal/platform/kafkax/keyed.go:21-28 | an observed record that failed, is in flight or was never dispatched keeps its partition committed below it |
| `KeyedTheorems.CommitsIncrease` | internal/platform/kafkax/keyed.go:196-203 | offsets passed to commit strictly increase per partition under every interleaving |
| `KeyedTheorems.BrokenStopsCommits` | internal/platform/kafkax/keyed.go:205-227 | after a refused commit no other is issued and the committed point never moves again, whatever the rest of the run does |
| `KeyedTheorems.ReturnedIsDrained` | internal/platform/kafkax/keyed.go:171-186 | on return the channel is empty and every handled record is in the tracker; unless a commit was refused, each partition is committed exactly to the end of its handled prefix |
| `KeyedTheorems.RefinesSequential` | internal/platform/kafkax/kafkax.go:138-156 | the committed point of every reachable state is what `Consume` reaches on the records fetched here, in fetch order, cut at the committed offsets: that feed has no gap, all of it was handled, and it commits exactly the same offsets |
| `KeyedFetch.FetchedIsDispatched` | internal/platform/kafkax/keyed.go:257-276 | over any run what is dispatched is a prefix of what is observed and that of what the polls returned; whenever the loop is back at its top all three are the same |
| `KeyedFetch.FetchErrorIsTruthful` | internal/platform/kafkax/keyed.go:236-255 | fetching answers with a failed fetch only if a poll failed and with a cancellation only if cancelled; a failed poll ends the loop before any of its records is observed |
| `KeyedFetch.OnlyTroubleStops` | internal/platform/kafkax/keyed.go:234-277 | without a cancellation, a failed poll, a failed handler or a refused commit the fetch loop is never left |
| `KeyedHistory.HistoryIsTrue` | internal/platform/kafkax/keyed.go:133-158 | a record counts as handled or failed exactly when its handler call ended so, the committed offsets are the last that reached the broker, and the error kept is the first of the run |
| `KeyedTheorems.AnswerIsTruthful` | internal/platform/kafkax/keyed.go:133-139 | an error is always returned; it blames a handler or a commit exactly when one failed and names one that did; otherwise a poll of the run failed or the caller cancelled; at most one commit is ever refused |
| `KeyedTermination.NoDeadlock` | internal/platform/kafkax/keyed.go:141-186 | every reachable state before the return has a step to take |
| `KeyedTermination.NoSendOnClosedChannel` | internal/platform/kafkax/keyed.go:174-180 | once the completed channel is closed no worker holds a record, and records are offered only while worker channels are open |
| `KeyedTermination.StepDecreases` | internal/platform/kafkax/keyed.go:169-186 | once cancelled or out of the fetch loop, every step of every goroutine decreases one measure |
| `KeyedTermination.ShutdownTerminates` | internal/platform/kafkax/keyed.go:171-186 | so no run from there is longer than the measure, commit failures included |
| `KeyedTermination.ShutdownCompletes` | internal/platform/kafkax/keyed.go:171-186 | and it can always be driven to the return |
| `KeyedOrder.KeyOrder` | internal/platform/kafkax/keyed.go:81-84 | under every interleaving and pool size the handler calls of a key are a prefix of handling its fetched records one by one in fetch order, and on return exactly the dispatched ones |
| `KeyedOrder.OrderKept` | internal/platform/kafkax/keyed.go:150-156 | every step keeps, for every key, calls made plus calls owed equal to its dispatched records one by one |
| `LiveSockets.LiveSocket.constructor` | web/src/lib/api.ts:226-229 | a new socket connects at once |
| `LiveSockets.LiveSocket.Connect` | web/src/lib/api.ts:239-241 | opens a socket unless torn down |
| `LiveSockets.LiveSocket.ScheduleReconnect` | web/src/lib/api.ts:231-237 | arms the timer with the backoff of the current streak |
| `LiveSockets.LiveSocket.OnTimer` | web/src/lib/api.ts:233-236 | the timer clears itself and connects |
| `LiveSockets.LiveSocket.OnOpen` | web/src/lib/api.ts:243-247 | an open ends the streak and reports live, unless torn down |
| `LiveSockets.LiveSocket.OnClose` | web/src/lib/api.ts:255-266 | a close reports and reconnects, or reports completion, or nothing after teardown |
| `LiveSockets.LiveSocket.OnMessage` | web/src/lib/api.ts:268-275 | a well-formed message is passed on in every state |
| `LiveSockets.LiveSocket.Close` | web/src/lib/api.ts:280-287 | teardown silences the machine and cancels the timer |
| `LiveSockets.OneLifeline` | web/src/lib/api.ts:214-288 | in every run neither torn down nor complete exactly one of an unclosed socket and a pending timer exists; a complete run has neither, a torn-down one no timer |
| `LiveSockets.SilentAfterEnd` | web/src/lib/api.ts:207-213 | after teardown or a close with status 1000 (section 7.4.1 of RFC 6455) no continuation opens a socket, arms a timer or reports a status |
| `LiveSockets.AttemptIsStreak` | web/src/lib/api.ts:174-180 | the counter is the number of consecutive abnormal closes since the last open |
| `LiveSockets.CloseIsReported` | web/src/lib/api.ts:255-266 | the k-th consecutive close waits min(initial*2^(k-1), max) and reports disconnected exactly beyond the threshold |
| `LiveSockets.BadgeIsTrue` | web/src/lib/api.ts:152-166 | until teardown the last status reported is always the true one: live exactly while a socket is open, complete once the server closed normally, and between sockets reconnecting or, beyond the threshold, disconnected |
| `LiveSockets.OpensAreReported` | web/src/lib/api.ts:243-247 | every open before teardown is reported live, once, and every teardown asks the socket to close |
| `LiveSockets.BackoffGrows` | web/src/lib/api.ts:231-232 | the wait never shrinks with the streak, never exceeds the cap and starts at the initial delay |
| `LiveSockets.BackoffStep` | web/src/lib/api.ts:231-232 | each wait is twice the one before, up to the cap |
| `LiveSockets.UpdatesAreMessages` | web/src/lib/api.ts:268-275 | in every run, torn down or not, the updates passed on are exactly the well-formed messages delivered |
| `LiveSockets.QuietExactly` | web/src/lib/api.ts:207-213 | after teardown no update can follow if and only if every socket had seen its close event |
| `LiveSockets.UpdateAfterTeardown` | web/src/lib/api.ts:268-275 | the run that shows it: torn down with the socket open, an update is still passed on |
| `RecordPages.CollectAllRecordPages` | web/src/lib/api.ts:118-144 | the loop follows tokens until the empty one, the page cap or a failed fetch |
| `RecordPages.PageAt` | web/src/lib/mockEngine.ts:1052-1060 | the pager serves the slice its own token names, and a next token exactly while records are left |
| `RecordPages.FollowFrom` | web/src/lib/api.ts:105-117 | following any such pager from a page start yields the rest in order, up to the pages allowed |
| `RecordPages.FailsExactly` | web/src/lib/api.ts:128-141 | the collection fails exactly when the fetch of some page it reaches fails |
| `RecordPages.NoNumberIsFirstPage` | web/src/lib/mockEngine.ts:1055-1056 | a token without a digit serves the first page |
| `RecordPages.CollectBatch` | web/src/lib/api.ts:118-144 | over the mock pager: every record once and in order when the batch fits, otherwise exactly the first maxPages*size; truncated exactly when records were left |
| `Decimal.ParseIntOfDigits` | web/src/lib/mockEngine.ts:1055-1058 | a printed offset reads back as itself |
| `Decimal.AtoiOfPrint` | demo/world-simulator/internal/server/queue.go:50-53 | a printed attempt number reads back as itself |
| `RecordLifecycle.FiredFitting` | web/src/lib/mockEngine.ts:656-757 | every callback moves a record along the lifecycle graph and leaves flags, due time, budget and armed timer fitting the new state; it escalates only with the budget of the bucket used up |
| `RecordLifecycle.FiredTraced` | web/src/lib/mockEngine.ts:402-425 | every callback keeps the audit trail an unbroken path from NEW to the current state, with attempts equal to interventions and executed entries |
| `RecordLifecycle.FiredEarned` | web/src/lib/mockEngine.ts:730-743 | what the interventions earned is what is recovered or about to be |
| `RecordLifecycle.FiredCharged` | web/src/lib/mockEngine.ts:371-376 | every intervention is the action its bucket calls for, at its price, on the whole amount |
| `RecordLifecycle.FiredWon` | web/src/lib/mockEngine.ts:730-743 | only the last attempt can have succeeded, and then the record is recovered or about to be |
| `RecordLifecycle.FiredNoted` | web/src/lib/mockEngine.ts:411-425 | the trail numbers its executed entries from 1 and repeats the price of each attempt |
| `RecordLifecycle.FiredByChance` | web/src/lib/mockEngine.ts:670-736 | classification sets the bucket and nothing else does, the wait ends when the clock says, and an attempt goes as rolled |
| `RecordLifecycle.FiredSound` | web/src/lib/mockEngine.ts:656-757 | every callback, whatever the draws, keeps a record sound |
| `RecordLifecycle.FiredDelta` | web/src/lib/mockEngine.ts:679-753 | a callback announces at most one move, its own, with the amount exactly on recovery |
| `MockEngines.MockEngine.constructor` | web/src/lib/mockEngine.ts:392-395 | a new engine holds only sound records, finished or left scheduled, and no timer |
| `MockEngines.MockEngine.SeedCompletedBatch` | web/src/lib/mockEngine.ts:455-582 | every record of the seeded batch ends recovered or escalated and sound; others are untouched |
| `MockEngines.MockEngine.SeedPendingTimelineRecords` | web/src/lib/mockEngine.ts:596-647 | the timeline records are left sound in RETRY_SCHEDULED |
| `MockEngines.MockEngine.AddEntry` | web/src/lib/mockEngine.ts:402-425 | appends one entry from the current state and moves there |
| `MockEngines.MockEngine.ProcessRecord` | web/src/lib/mockEngine.ts:656-708 | arms a step unless the record is done |
| `MockEngines.MockEngine.Step` | web/src/lib/mockEngine.ts:659-704 | the step callback changes exactly the record, the timer and the stream the lifecycle says |
| `MockEngines.MockEngine.ExecuteAttempt` | web/src/lib/mockEngine.ts:710-757 | the execution callback, likewise |
| `MockEngines.MockEngine.Settle` | web/src/lib/mockEngine.ts:736-755 | the settling callback, likewise |
| `MockEngines.MockEngine.FireTimer` | web/src/lib/mockEngine.ts:700-756 | the event loop runs the armed callback once |
| `MockEngines.MockEngine.SeedDemoBatch` | web/src/lib/mockEngine.ts:771-809 | storing a batch of fresh records and then starting them is a run of single seedings: every record is new with its first step armed, a sound engine stays sound, and every claim about runs covers the batch |
| `MockEngines.SeedsAreRun` | web/src/lib/mockEngine.ts:780-806 | the two loops over the batch leave the engine the seedings one by one would |
| `MockEngines.RunToCompletion` | web/src/lib/mockEngine.ts:461-570 | the synchronous loop always ends recovered or escalated: recovered exactly when the last attempt succeeded, escalated exactly when every attempt of the budget failed; the uneconomic close is never reached |
| `MockEngines.Round` | web/src/lib/mockEngine.ts:491-554 | one turn escalates at once or makes and settles one attempt |
| `MockEngines.TimelineRecordSound` | web/src/lib/mockEngine.ts:596-644 | a record seeded to stay scheduled is sound |
| `MockEngines.RunKeepsSound` | web/src/lib/mockEngine.ts:656-757 | every record of every reachable engine is sound: unbroken trail, attempts within the budget of its bucket (3, 1 or 0) and equal to it when escalated, every attempt priced and numbered, due time exactly while scheduled |
| `ActionTables.DecidesCorrectAction` | web/src/lib/mockEngine.ts:313-338 | the engine takes the action the World Simulator rewards exactly while the budget of the bucket lasts, and escalates after it |
| `ActionTables.ChargesCorrectAction` | demo/world-simulator/internal/server/bucket.go:18-27 | and charges for no other |
| `MockEngines.TerminalStays` | web/src/lib/mockEngine.ts:660-668 | a record in a terminal state is never changed again |
| `MockEngines.StreamSumsToRecovered` | web/src/lib/mockEngine.ts:649-757 | for a listener present from the start of a demo batch the streamed deltas sum to the recovered amount after every run |
| `BatchReports.ByRootCause` | web/src/lib/mockEngine.ts:905-919 | a bucket is listed exactly when it has records, with their exact totals |
| `BatchReports.ByIntervention` | web/src/lib/mockEngine.ts:921-940 | an action is listed exactly when it was attempted, with its exact totals |
| `BatchReports.InStateExact` | web/src/lib/mockEngine.ts:890-896 | filtering by state keeps exactly the records in it, each as often as it occurs |
| `BatchReports.LineCounts` | web/src/lib/mockEngine.ts:921-940 | a line of the intervention table counts its attempts and successes one by one |
| `BatchReports.SpendIsPrice` | web/src/lib/mockEngine.ts:897-900 | spend is 20, 35 and 25 paise for each retry, method update and reminder |
| `BatchReports.PartsOfAtRisk` | web/src/lib/mockEngine.ts:889-896 | recovered and closed amounts are separate parts of what is at risk, and all of it when every record is recovered |
| `BatchReports.GetBatchReport` | web/src/lib/mockEngine.ts:879-1017 | at any moment of a sound engine every figure is exact, counts being cardinalities, and they balance; an unknown batch is an error |
| `BatchReports.EveryRecordIsCountedOnce` | web/src/lib/mockEngine.ts:885-895 | total is in flight plus recovered plus escalated plus closed |
| `BatchReports.CausesBalance` | web/src/lib/mockEngine.ts:905-919 | the columns of the root-cause table sum to the record count and to the at-risk and recovered totals |
| `BatchReports.ActionsBalance` | web/src/lib/mockEngine.ts:921-940 | the columns of the intervention table sum to total spend and to what successful interventions earned |
| `BatchReports.RecoveredWithinEarned` | web/src/lib/mockEngine.ts:890-900 | recovered is at most what the interventions earned, and equal when nothing is being executed |
| `BatchReports.FiguresBalance` | web/src/lib/mockEngine.ts:879-1017 | true figures of sound records satisfy every conservation law at once |
| `MemberCodec.MemberRoundTrip` | demo/world-simulator/internal/server/queue.go:41-63 | a member reads back as its outcome exactly when the record id has no separator and the outcome is named; any int32 attempt, any failure code |
| `MemberCodec.MemberInjective` | demo/world-simulator/internal/server/queue.go:41-43 | such outcomes never share a member |
| `MemberCodec.ThreeFieldsRead` | demo/world-simulator/internal/server/queue.go:45-63 | a member of three fields reads with no failure code |
| `MemberCodec.FewerFieldsFail` | demo/world-simulator/internal/server/queue.go:46-49 | one of fewer fields does not read |
| `OutcomeQueues.OutcomeQueue.Schedule` | demo/world-simulator/internal/server/queue.go:83-92 | one entry per member; scheduling again moves it; a refused call changes nothing |
| `OutcomeQueues.OutcomeQueue.Due` | demo/world-simulator/internal/server/queue.go:108-128 | removes the due members up to the first refused removal and returns the ones read, sorted into well-formed and malformed |
| `OutcomeQueues.OutcomeQueue.PeekAll` | demo/world-simulator/internal/server/queue.go:137-156 | lists the pending outcomes and changes nothing |
| `OutcomeQueues.PeekShows` | demo/world-simulator/internal/server/queue.go:130-156 | a peek shows an entry exactly when a well-formed member holds it, with its due time |
| `OutcomeQueues.ScheduledIsShown` | demo/world-simulator/internal/server/queue.go:83-156 | what is scheduled is shown, due less than a second before its time and never after |
| `OutcomeQueues.Deliver` | demo/world-simulator/internal/server/poller.go:86-118 | one to three calls; the outcome gets through exactly when some call is accepted and no wait before it is cut short |
| `OutcomeQueues.Tick` | demo/world-simulator/internal/server/poller.go:72-84 | everything the drain returned is delivered in turn, one failure not stopping the rest, and each gets through exactly when its own calls allow; nothing is delivered when the drain failed |
| `OutcomeQueues.ParsedCount` | demo/world-simulator/internal/server/queue.go:117-127 | each member of a scan is read once |
| `OutcomeQueues.ParsedJoins` | demo/world-simulator/internal/server/queue.go:117-127 | reading keeps the order of the scan |
| `OutcomeQueues.MalformedIsRest` | demo/world-simulator/internal/server/queue.go:117-122 | every member is either read or set aside as malformed |
| `OutcomeQueues.TickConserves` | demo/world-simulator/internal/server/poller.go:72-84 | every outcome is handed on exactly as often as it was taken out if and only if no removal failed after a well-formed one succeeded |
| `OutcomeQueues.OutcomeLost` | demo/world-simulator/internal/server/poller.go:73-76 | a concrete outcome removed and never handed on |
| `OutcomeRuns.CleanTickLeaves` | demo/world-simulator/internal/server/queue.go:94-128 | a tick without errors leaves exactly the entries not yet due |
| `OutcomeRuns.ScheduledIsDrainedOrPending` | demo/world-simulator/internal/server/queue.go:83-128 | over any run, what was newly scheduled has been drained once or is pending once; peeks change nothing |
| `OutcomeRuns.DrainedByFirstReachingTick` | demo/world-simulator/internal/server/queue.go:94-128 | an entry is drained by the first tick whose whole second reaches its score, and by no earlier one |
| `OutcomeRuns.ReachedWithinASecond` | demo/world-simulator/internal/server/queue.go:83-112 | a tick at or after the due time never misses the entry, and one that drains it is less than a second early |
| `SeededRuns.PendingComesFromCall` | demo/world-simulator/internal/server/server.go:112-169 | over any run of batches, calls and drains, nothing is pending but what some call of the run queued |
| `SeededRuns.OneEntryPerAttempt` | demo/world-simulator/internal/server/server.go:98-169 | while a record meets one nonzero seed and one profile, its repeated calls keep at most one pending entry per attempt and action, among any other calls, batches and drains |
| `WorldSimulator.RollInputInjective` | demo/world-simulator/internal/server/rand.go:65-76 | no two seeds, roll keys and attempts share a hash input, whatever the roll key holds |
| `WorldSimulator.Server.SimulateOutcome` | demo/world-simulator/internal/server/server.go:112-179 | every branch: the queue changes exactly for a delayed nudge, and then holds the answer already rolled |
| `WorldSimulator.AnswerIsTheRoll` | demo/world-simulator/internal/server/server.go:143-178 | the answer is success exactly when the draw is below the odds of the action, with the failure code otherwise; a nudge with a delay gives that answer later, any other call at once |
| `WorldSimulator.QueuedIsTheAnswer` | demo/world-simulator/internal/server/server.go:154-168 | a queued entry reads back as the very answer the same request gets at once where nothing is delayed |
| `SyntheticRecords.PickRecordType` | internal/platform/syntheticgen/syntheticgen.go:262-275 | the weighted loop picks the type whose band holds the roll and never falls through |
| `SyntheticRecords.CandidatesExact` | internal/platform/syntheticgen/syntheticgen.go:302-312 | the candidate buckets are exactly those of the pool other than the avoided one |
| `SyntheticRecords.CandidatesInOrder` | internal/platform/syntheticgen/syntheticgen.go:303-312 | they are listed in order of first appearance in the pool, so none twice |
| `SyntheticRecords.CollectCandidates` | internal/platform/syntheticgen/syntheticgen.go:303-312 | the loop lists exactly those |
| `SyntheticRecords.DivergentIsPlausible` | internal/platform/syntheticgen/syntheticgen.go:297-317 | a divergent bucket stays in the family of the code and differs unless the family has only one |
| `SyntheticRecords.GeneratedIsPlausible` | internal/platform/syntheticgen/syntheticgen.go:232-260 | every generated record has a code of its type, a bucket of the same family, a delay in the range of its bucket, and a right action never worse than a wrong one |
| `SyntheticRecords.DrawsDecide` | internal/platform/syntheticgen/syntheticgen.go:232-260 | which draw decides the entry, the amount, whether the code misleads, whether the record is lost and how, and the delay |
| `SyntheticRecords.FindCodeFinds` | internal/platform/syntheticgen/syntheticgen.go:356-367 | a code is found exactly when the pool lists it, with a bucket it lists it under |
| `SyntheticRecords.UnseededIsMidway` | demo/world-simulator/internal/server/unseeded.go:34-53 | an unseeded record gets the bucket its code means, or needs the customer, with the odds of the bucket and the middle of its delays |
| `Seeding.GenerateRows` | demo/world-simulator/internal/server/seed.go:93-132 | row i is the i-th draw of the source; a failed insert ends the batch before its row, a failed publish after it, so at most one stored row is unpublished |
| `Seeding.RowsStoredExactly` | demo/world-simulator/internal/server/seed.go:99-131 | every row up to the end was stored, all but perhaps the last published, and a batch that ends early ends at a failure |
| `Seeding.ForcedExactly` | demo/world-simulator/internal/server/scenarios.go:119-136 | below the concentration of the preset a record has its type, bucket, one of its codes and the odds of the bucket; every other record is the plain draw |
| `Seeding.SharesInstrument` | internal/platform/syntheticgen/syntheticgen.go:416-424 | exactly payments and mandates whose draw is below three in ten share an instrument, one of the pool |
| `Seeding.SeedBatch` | demo/world-simulator/internal/server/seed.go:48-135 | every answer and when it is given; the seed is overwritten by exactly the accepted requests, even one that then fails; the rows left are those of seed, scenario, count and ordinal |
| `Seeding.SameSeedSameRecords` | demo/world-simulator/internal/server/seed.go:73-135 | two SeedBatch requests with one nonzero seed, scenario and count leave rows that agree ordinal by ordinal, as far as both got, on everything but ids, instrument strings and clock |
| `SeededRuns.RunKeepsRows` | demo/world-simulator/internal/server/seed.go:67-71 | over any run the seed is the one the last accepted batch stored, and stored rows stay |
| `SeededRuns.SameSeedReplays` | demo/world-simulator/internal/server/server.go:98-179 | two runs that each begin with a batch of one nonzero seed, scenario and count, and go on with any batches, calls and drains, answer the same ordinal, attempt and action alike, at once or later, as long as the last batch seed stored before the call is the same in both |
| `SeededRuns.AgreesExactly` | demo/world-simulator/internal/server/rand.go:65-76 | two seeds give a record the same verdict under every draw if and only if they are equal and not zero, or the odds leave nothing to chance |
| `SeededRuns.ReplaysExactly` | demo/world-simulator/internal/server/server.go:92-103 | so two such runs agree under every draw if and only if the last batch seeds stored are equal and not zero, or the odds leave nothing to chance |
| `SeededRuns.SeedKept` | demo/world-simulator/internal/server/server.go:92-97 | requesting no other seed until the call is enough |
| `SeededRuns.SecondBatchChangesAnswer` | demo/world-simulator/internal/server/server.go:92-97 | a concrete run in which a second batch turns a recovery into a failure |
| `Seeding.OrdinalsRollApart` | demo/world-simulator/internal/server/rand.go:46-53 | within a batch distinct ordinals or attempts never share a hash input |
| `HopCodec.Encode` | internal/platform/hopcodec/hopcodec.go:37-53 | refuses empty fields and separators, otherwise writes every pair in order |
| `HopCodec.Decode` | internal/platform/hopcodec/hopcodec.go:62-76 | reads every pair in order or refuses the whole string |
| `HopCodec.EncodeThenDecode` | internal/platform/hopcodec/hopcodec.go:37-76 | what Encode writes Decode reads back |
| `HopCodec.EncodeInjective` | internal/platform/hopcodec/hopcodec.go:37-53 | no two hop lists share a stored form |
| `HopCodec.DecodeThenEncode` | internal/platform/hopcodec/hopcodec.go:37-76 | what Decode reads Encode writes back unchanged or refuses, and it refuses exactly when some result holds the field separator |
| `FakeClocks.Fake.After` | internal/platform/clock/clock.go:73-83 | a delay not positive fires at once, any other waits in line |
| `FakeClocks.Fake.Compact` | internal/platform/clock/clock.go:97-106 | the in-place pass is a stable partition into what is still in the future and what is due |
| `FakeClocks.Fake.Fire` | internal/platform/clock/clock.go:110-114 | sends on each due channel, none of which has been sent on |
| `FakeClocks.Fake.Advance` | internal/platform/clock/clock.go:94-115 | moves the clock, keeps the future waiters in order and fires the due ones |
| `FakeClocks.Fake.Set` | internal/platform/clock/clock.go:119-130 | moves the clock forward by advancing, backward by assignment |
| `FakeClocks.PendingOrDue` | internal/platform/clock/clock.go:99-105 | every waiter is kept or fired by its due time, none twice and none lost |
| `FakeClocks.OrderIsKept` | internal/platform/clock/clock.go:98-106 | both halves keep their order |
| `FakeClocks.AdvanceKeeps` | internal/platform/clock/clock.go:94-115 | after an advance by any amount every waiter is in the future and unsent |
| `FakeClocks.SetKeeps` | internal/platform/clock/clock.go:119-130 | also when the clock is set backwards |
| `FakeClocks.RunKeeps` | internal/platform/clock/clock.go:73-130 | in every reachable state every pending waiter is strictly in the future and its channel empty |
| `FakeClocks.StepFires` | internal/platform/clock/clock.go:93-130 | a step fires a waiter exactly when it brings the clock to its time |
| `FakeClocks.FiresAtOnce` | internal/platform/clock/clock.go:76-80 | a wait that is not positive is over at once, at the time it was asked for |
| `FakeClocks.FiresOnce` | internal/platform/clock/clock.go:73-130 | a waiter fires exactly once, at the first step that reaches its time, with the time of that step, whatever follows |
| `ClockRaces.RunConserves` | internal/platform/clock/clock.go:73-130 | with every critical section and every send a step of its own, under every interleaving each channel is in exactly one of three places: waited on, owed one send, or sent on once |
| `ClockRaces.SendConserves` | internal/platform/clock/clock.go:110-114 | a send made after unlocking always finds its channel empty, so it cannot block |
| `ClockRaces.GuardedRunKeepsFuture` | internal/platform/clock/clock.go:73-130 | under every interleaving in which a late backward write happens only at or above its target, all waiters stay strictly in the future |
| `ClockRaces.WriteIsSafeExactly` | internal/platform/clock/clock.go:119-130 | a late write is safe whatever waiter arrives just before it if and only if its target is not ahead of the clock |
| `ClockRaces.GuardedUnlessSetBack` | internal/platform/clock/clock.go:119-130 | a backward Set meets that guard unless the clock is moved back between its two sections |
| `ClockRaces.LandsExactly` | internal/platform/clock/clock.go:119-126 | a forward Set lands on its target if and only if the clock reads at the end what it read at the start |
| `ClockRaces.SetAlone` | internal/platform/clock/clock.go:119-130 | with nothing in between, sections and sends together are the one-caller Set |
| `ClockRaces.AdvanceAlone` | internal/platform/clock/clock.go:94-115 | and likewise for Advance |
| `ClockRaces.OverlappingSetsOvershoot` | internal/platform/clock/clock.go:119-126 | two overlapping calls to 10 from 0 end at 20 |
| `ClockRaces.OverlappingSetsStrandWaiter` | internal/platform/clock/clock.go:119-130 | a run of overlapping calls that leaves a waiter in the past, pending and owed nothing |
| `LoadGenerator.IntervalFor` | scripts/loadgen/ratelimiter.go:27-36 | a positive rate gives its interval truncated to whole nanoseconds; any other is refused |
| `LoadGenerator.Run` | scripts/loadgen/run.go:56-137 | the loop ends exactly at its bound or on cancellation; sent is accepted plus failed after every pass; the alarm goes off once per streak that reaches the threshold |
| `LoadGenerator.EndsExactly` | scripts/loadgen/run.go:94-107 | a count run that finishes made exactly `count` passes, a timed one finishes at the first check at or past its duration, an interrupted one was cancelled |
| `LoadGenerator.SendsExactly` | scripts/loadgen/run.go:109-117 | exactly the passes whose payload could be built send |
| `LoadGenerator.AcceptedCounts` | scripts/loadgen/run.go:119-120 | accepted counts the accepted sends one by one |
| `LoadGenerator.AlarmsCount` | scripts/loadgen/run.go:126-133 | the alarm goes off once for each streak of failures, at its third |
| `LoadGenerator.SendsAreInPasses` | scripts/loadgen/run.go:94-118 | at most one send a pass, in order, at the time Wait gives |
| `LoadGenerator.RateIsBounded` | scripts/loadgen/ratelimiter.go:38-65 | by any time t at most floor((t-start)/interval)+1 events have been sent |
| `LoadGenerator.RunIsBounded` | scripts/loadgen/run.go:94-100 | a count run sends at most count, a timed run at most ceil(duration/interval)+1 |
| `LoadGenerator.GapIsExact` | scripts/loadgen/ratelimiter.go:46-65 | the exact gap between two sends, however long the response took: it falls short of an interval exactly when the first was late and neither the response nor the second send makes up for it |
| `LoadGenerator.SpacingExactly` | scripts/loadgen/ratelimiter.go:46-58 | a whole interval before the next send is guaranteed if and only if Wait was reached by its slot and the send was prompt |
| `LoadGenerator.CatchesUpBackToBack` | scripts/loadgen/ratelimiter.go:46-58 | once a reading is past the slot of a later pass, every pass up to that one sends without any wait, as fast as its responses come back |
| `LoadGenerator.SlowResponseBunches` | scripts/loadgen/ratelimiter.go:14-16 | a timely run whose sends follow each other by a tenth of the interval after one slow response |
| `Candidates.PickWinningCandidate` | web/src/lib/decisionTrace.ts:16-29 | the earliest candidate of maximal positive value, and none exactly when no value is positive |
| `Candidates.WinnerIsUnique` | web/src/lib/decisionTrace.ts:16-29 | that rule determines the winner |
| `Candidates.SortIsStable` | web/src/lib/decisionTrace.ts:37-39 | the display order is a descending stable permutation (section 23.1.3.30 of ECMA-262, 2023) |
| `Candidates.HeadIsWinner` | web/src/lib/decisionTrace.ts:31-39 | the head of any such order is the winner whenever there is one, and otherwise is not positive |

## Left out

- `KeyedConsuming.State`: a record stands for its place in the log, with one topic per tracker (the source's maps are keyed by partition only), consecutive offsets within a partition and a key fixed by that place; rebalances and redelivery to another consumer are not modelled.
- `KeyedConsuming.Config.WorkerFor`: the key's hash is any function into 32 bits; on a platform with a 32-bit `int` the conversion in the source could turn negative.
- `KeyedTermination.ShutdownTerminates`: handlers, polls and commits that return are steps; one that hangs forever is a run that stops being scheduled.
- `LiveSockets.BackoffGrows`: delays are whole numbers; a streak long enough to overflow a JavaScript number is not modelled, nor is an `onUpdate` callback that throws.
- `RecordPages.CollectAllRecordPages`: pages are fetched from a batch that does not change meanwhile.
- `Decimal.ParseInt`: leading white space is not skipped.
- `RecordPages.GetBatchRecords`: the projection of a record to its summary line is left out; the pager is generic in what it serves.
- `MockEngines.MockEngine.Step`: records are values in a map rather than shared objects, so what a reader that holds on to a record sees is not modelled; classification text, message text, provider hops and timer lengths are left out.
- `BatchReports.GetBatchReport`: rates and cost per rupee (divisions), the accuracy and baseline blocks and `getDemoWorld`'s illustrative rolls are left out.
- `OutcomeQueues.Tick`: Redis is its contract, a sorted set whose range query and removals may each fail; the poller's own loop ends at the first failed tick and is left out.
- `WorldSimulator.Server.SimulateOutcome`: store, hash and draw are parameters; the seed and the queue have no other writer during the call.
- `SyntheticRecords.GenerateRecord`: the log-uniform amount curve is an arbitrary function of one draw, probabilities are real numbers without rounding, and the source of randomness is any state transformer.
- `Seeding.SeedBatch`: SQL, JSON and the batch id are left out; the stored row and the published event are one value.
- `FakeClocks.Fake.Advance`: taken as one step, sends included; `ClockRaces` splits it into its critical section and its sends.
- `FakeClocks.Fake.Set`: taken as one step; `ClockRaces` splits it into its two critical sections.
- `LiveSockets.UpdateAfterTeardown`: whether a socket delivers after its close was requested is left to the socket (`createSocket` is injectable); a browser's own socket drops such messages.
- `SeededRuns.OneEntryPerAttempt`: record ids hold no separator, as the ids the system mints do; a pending entry is told from another by parsing its member.
- `SeededRuns.SameSeedReplays`: record ids are never reused, and two calls for the same record run one after the other.
- `LoadGenerator.Run`: the interval is exact up to truncation (no floating-point rounding), payload building and the HTTP call are what they may answer, and the checks for a missing client, clock or URL are left out.
- The Decision Engine, its economics and guardrails, the classifier's rules, the provider chain and the audit verifier are not part of this model.
- Service entry points, configuration, metrics, interceptors, the lag exporter, request signing, ingestion, React components and generated code would add only easy members.
