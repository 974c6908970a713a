# Axon Pulse daemon: verified model

A Dafny 4.11 model of the path that a telemetry record and a data budget take
through the Axon Pulse sensor daemon, with the properties its design relies on
proved over whole runs: failing and half-durable writes, crashes, restarts and
interleavings included. `dafny verify dfyconfig.toml` checks everything.

| files | component |
|---|---|
| `SpoolTables`, `SpoolPrune`, `SpoolBatch`, `SpoolInvariant`, `SpoolQueue`, `SpoolRuns`, `SpoolDrain` | the durable upload queue |
| `PurgeStore`, `PurgeMachine`, `PurgeSafety`, `PurgeService` | the privacy purge: state file, sentinel, cleanup, uploader latch |
| `ModeBoundary` | standalone data stays local across mode switches |
| `MinuteSummary`, `Aggregation`, `Sealing` | one-minute summaries and sealed minutes |
| `DrainGate` | the activity gate that drains work before an update |
| `DataBudget`, `TestBytes`, `Claims` | the byte ledger, one test's bytes, concurrent claims |
| `Nonces` | the replay table of controller speed tests |
| `Schedule`, `WindowGrammar` | the cadence scheduler and the window grammar |
| `Stability`, `PhaseCounter` | the stable-region detector and early stop |
| `Planner`, `SensorConfig` | the household planner and the configuration normaliser |
| `Arithmetic`, `Wrappers` | facts about products and quotients, optional values |

How the model is built:

- Code that updates state is a class whose methods are tied to functions on
  values (`View() == Pruned(old(View()), ...)`); what the source promises is then
  proved of those functions, and of runs of them.
- A database transaction is atomic. A file write ends as not replaced, replaced
  but not known durable, or durable; a power loss may bring back any image that
  is not superseded by a durable one.
- A protocol between goroutines is a step machine; every lock-protected section
  is one step, and a run is any sequence of enabled steps.
- Random and hashed values, network outcomes, clocks and batch ids are
  parameters, so each theorem holds for every value of them.
- Floating-point arithmetic is exact arithmetic, over `real` or scaled integers.
- A local clock has a fixed offset from UTC, so a day has 1440 minutes.

## Findings

Where the code does less than its comments, limits or caps promise, the model
follows the code and states exactly when the promise holds:

- `validSpeedWindow` says it mirrors the scheduler's parsing. It cuts at the
  first dash, the scheduler splits at every dash, and `-0` parses as zero: a
  window such as `1:00--0:30` is accepted and never runs. An accepted window
  other than `never` runs if and only if it holds exactly one dash
  (`WindowGrammar.AcceptedRunsWithOneDash`).
- The aggregator reads a missing sealed minute as zero, so after a flush of
  minutes before the epoch it rejects samples of minutes never summarised.
  Sealing never rejects a prober's sample on any run exactly from clocks at or
  after the epoch (`Sealing.SealingNeverRejects`, `Sealing.EarlyClocksCanReject`).
- An upload answered outside 2xx reports no bytes, though its body may have been
  sent, and the transport may read the body of an upload on after it has returned
  (internal/qualitytest/runner.go:73-79). The household ledger refunds such a unit in
  full, the native runner sizes the upload phases as if the warm-up had sent nothing,
  and the budget ledger is never told. What is reported keeps every cap and limit
  unconditionally, and so do the bytes moved by downloads, replies and bulk phases.
  What is reported equals what is moved exactly on runs where no household unit and no
  upload warm-up that had sent bytes is answered outside 2xx and no body is read on;
  there the household cap, the upload cap and the ledgers hold for bytes moved too
  (`Claims.HiddenExactly`, `Claims.HouseholdStaysWithinCap`, `TestBytes.RunCounts`,
  `DataBudget.TestCounts`, `DataBudget.LedgerMissesTheHidden`). Refused frames pass any
  cap (`Claims.RefusedFramesPassTheCap`) and leave the ledger as it was
  (`DataBudget.RefusedFramesEscapeTheLedger`); a refused warm-up passes the upload cap
  by as much as a tenth of it, at most 2 MiB (`TestBytes.RefusedWarmUpPassesTheCap`).
- A clock set back to an earlier day makes the budget ledger forget the day it
  counted; a step back within the day is harmless (`DataBudget.LedgerIsExact`,
  `DataBudget.ClockBackForgets`).
- Lifecycle events are worked out and added without the mode lock. Every other kind
  gathered in standalone mode stays local on every run. An event worked out in
  standalone mode stays local on every run in which none is added once the mode is
  connected, or between the flush and the commit of a writer that can end there (the
  enrollment of an unclaimed sensor, or a switch to connected mode of a claimed one).
  After every such addition there is a run that uploads it, and both kinds occur
  (`ModeBoundary.EventsStayLocalWithoutSlips`, `ModeBoundary.EverySlipCanLeak`,
  `ModeBoundary.EventsCanCross`, `ModeBoundary.LateEventsCanCross`).
- `AcceptSpeedTestRequest` promises to prevent replay. A full table of 32 live
  nonces gives one up. No request is accepted twice before it expires on any run
  that gives up no accepted, unexpired nonce; after every step that does, the same
  request is accepted again at any later moment before it expires; and 33 different
  requests, evenly spaced by up to 18 seconds so that each test can end before the
  next is considered, lead there from an empty table
  (`Nonces.NoReplayWithoutEviction`, `Nonces.EvictionAllowsReplay`,
  `Nonces.ReplayIsReachable`).
- `Tick` of the uploader says at most one network request. It makes two exactly
  when the accepted reply to the batch, once acknowledged, or to the heartbeat
  announces newer configuration, and never more (`PurgeService.Daemon.Tick`); a
  due heartbeat answered so is an instance (`PurgeService.TwoRequestsInOneTick`).

## Model

| member | source | states |
|---|---|---|
| SpoolPrune.BlockIsASimpleStep | internal/spool/spool.go:308-339 | deleting a block of the oldest unreserved rows, as long as every row but its last still leaves an excess, continues the one-row-at-a-time rule |
| SpoolPrune.DropOldestIsShortestRun | internal/spool/spool.go:308-339 | overflow deletes exactly the shortest oldest-first run of unreserved records that removes the excess, or all of them |
| SpoolPrune.TrimHistoryIsFewestBlocks | internal/spool/spool.go:288-307 | history overflow deletes the fewest whole blocks of the oldest rows that bring the total under the cap |
| SpoolPrune.PruneRecords | internal/spool/spool.go:272-346 | a prune keeps id order and every reserved record, leaves only recent or reserved records, and adds what it removes to the dropped counter |
| SpoolPrune.PruneHistory | internal/spool/spool.go:288-307 | history keeps a recent tail, in order |
| SpoolPrune.PruneFits | internal/spool/spool.go:288-339 | after a prune the total fits the cap, or history is empty and every record is reserved; no record is dropped for size while history remains |
| SpoolPrune.PruneIsLeast | internal/spool/spool.go:272-346 | retention takes no more than it must: history loses only as many blocks, and then the records only as many unreserved rows, oldest first, as each left the total above the cap; what fits the cap is kept whole |
| SpoolPrune.PruneKeepsWhatFits | internal/spool/spool.go:272-346 | a prune changes nothing when every row is recent, no reservation expired and all fits the cap |
| SpoolBatch.PackedTakesPrefix | internal/spool/spool.go:388-420 | of each kind a batch takes a prefix of the candidates up to the kind's cap, and all of it unless that cap or the total stopped it |
| SpoolBatch.ReservationTakesPrefixes | internal/spool/spool.go:365-437 | a batch holds at most 200 records, respects every kind cap, takes of each kind a prefix of its uploadable queue and all of it within the first 400 uploadable rows unless a cap stopped it, and is empty exactly when nothing is uploadable |
| SpoolBatch.BodyHoldsTheRows | internal/spool/spool.go:388-437 | a fresh batch names its rows in order and carries the payload of each in the list of its kind, after those of the rows before it, and nothing else |
| SpoolBatch.ReservationIsBacked | internal/spool/spool.go:377-437 | a fresh reservation's rows are queued and not local-only, and its body carries exactly them |
| SpoolInvariant.PruneKeepsPending | internal/spool/spool.go:272-287 | a prune ends the reservation exactly when retention expired it, and otherwise leaves it backed |
| SpoolInvariant.PruneKeepsValid | internal/spool/spool.go:272-346 | a prune keeps the invariant: at most one backed reservation, ordered records, history disjoint from the queue |
| SpoolInvariant.AppendKeepsValid | internal/spool/spool.go:235-270 | an append keeps the invariant |
| SpoolInvariant.AppendKeepsWhatFits | internal/spool/spool.go:235-270 | an append within the limits stores every record under the next ids and touches nothing else |
| SpoolInvariant.NewRowsAre | internal/spool/spool.go:245-262 | the rows of an append carry its records in order, under consecutive ids and the given local-only mark |
| SpoolInvariant.ReserveKeepsValid | internal/spool/spool.go:365-437 | a reservation keeps the invariant |
| SpoolInvariant.ReservationLives | internal/spool/spool.go:272-287 | a reservation lasts for the retention age from the moment it was made, and no longer |
| SpoolInvariant.AckKeepsValid | internal/spool/spool.go:459-495 | an acknowledgement keeps the invariant |
| SpoolInvariant.AckKeepsWhatFits | internal/spool/spool.go:459-495 | an acknowledgement within the limits moves exactly the batch's rows to history |
| SpoolInvariant.InsertNeverIgnores | internal/spool/spool.go:474-484 | moving acknowledged rows to history never meets an id already there, so INSERT OR IGNORE ignores nothing |
| SpoolQueue.Fill | internal/spool/spool.go:388-420 | the in-place fill of a batch collects exactly the packed candidates, per kind and in order, with their ids |
| SpoolQueue.FillOne | internal/spool/spool.go:396-420 | one candidate joins its kind's list and the ids unless the kind is full |
| SpoolQueue.AddExtendsContent | internal/spool/spool.go:596-655 | adding one record to its kind's list is the batch of the longer row list |
| SpoolQueue.PackedStopsAtTotal | internal/spool/spool.go:388-420 | once the total is reached no later candidate changes the batch |
| SpoolQueue.BlockStep | internal/spool/spool.go:308-339 | one pass of the overflow loop removes as many rows as it selected, keeps order and preserves the final result |
| SpoolQueue.Spool.Prune | internal/spool/spool.go:272-346 | the transaction's new state is the simple retention rule applied to the old one, and the returned count is the number of records gone |
| SpoolQueue.Spool.PruneTables | internal/spool/spool.go:272-346 | the sweep, the two overflow loops and the counter together are the simple retention rule |
| SpoolQueue.Spool.SweepByAge | internal/spool/spool.go:272-287 | expires the reservation, then drops old history and old unreserved records and counts the records |
| SpoolQueue.Spool.TrimHistoryBlocks | internal/spool/spool.go:288-307 | the history loop ends and equals the block rule |
| SpoolQueue.Spool.DropRecordBlocks | internal/spool/spool.go:308-339 | the batched record loop ends and equals the one-row-at-a-time rule |
| SpoolQueue.Spool.DropBlock | internal/spool/spool.go:308-339 | one pass removes the rows it selected and leaves the rest of the rule's work; with nothing to select the rule is done |
| SpoolQueue.Spool.SelectOverflow | internal/spool/spool.go:310-330 | one pass selects at most 128 of the oldest unreserved rows, stopping at the row that brings the total under the cap, and none only if there is none |
| SpoolQueue.Spool.Append | internal/spool/spool.go:235-270 | an append stores the whole interval with fresh ids and prunes, or changes nothing when any record is invalid |
| SpoolQueue.Spool.Prepare | internal/spool/spool.go:245-262 | the insert loop numbers the records consecutively and stops at the first invalid one |
| SpoolQueue.Spool.Insert | internal/spool/spool.go:245-262 | adds the prepared rows at the end and raises the id high-water mark by their number |
| SpoolQueue.Spool.NextBatch | internal/spool/spool.go:365-457 | returns the pending batch unchanged, else reserves a new one under the next sequence number and the current clock; none exactly when nothing is pending and nothing is uploadable |
| SpoolQueue.Spool.Ack | internal/spool/spool.go:459-495 | moves exactly the batch's records to history and releases the reservation; an unknown batch id changes nothing |
| SpoolQueue.Spool.Clear | internal/spool/spool.go:568-594 | forgets everything but the id high-water mark and restarts the sequence |
| SpoolRuns.RetryIsStable | internal/spool/spool.go:365-457 | until an ack, a clear or retention ends it, a batch's ids and body never change and its records stay queued and uploadable |
| SpoolRuns.WritesRetain | internal/spool/spool.go:235-346 | after every append, acknowledgement and sweep only recent or reserved rows and recent history are left, and the total fits the cap or only reserved rows are left |
| SpoolRuns.StepCounts | internal/spool/spool.go:340-344 | in one operation, records gained equal records queued, delivered and dropped |
| SpoolRuns.StepPending | internal/spool/spool.go:365-495 | how the reservation and the sequence number may change in one operation |
| SpoolRuns.RunKeepsValid | internal/spool/spool.go:235-594 | the queue's invariant holds after any run |
| SpoolRuns.AckRemoves | internal/spool/spool.go:459-495 | acknowledged ids were queued and leave the queue |
| SpoolRuns.AuditFollowsRun | internal/spool/spool.go:235-270 | the audited run is the run of the queue |
| SpoolRuns.EveryRunIsSound | internal/spool/spool.go:272-495 | over every run: appended = queued + acknowledged + dropped since the last clear, at most one pending batch, no id acknowledged twice or queued again, an id under two batches only if the first expired, gapless sequence numbers |
| SpoolDrain.RoundEffect | internal/spool/spool.go:365-495 | one NextBatch and Ack round shrinks the queue, uses one sequence number and leaves no uploadable record that is new or was taken |
| SpoolDrain.TakenBeforeLeft | internal/spool/spool.go:377-420 | what a batch takes of a kind has smaller ids than whatever of that kind stays |
| SpoolDrain.DrainDeliversInOrder | internal/spool/spool.go:365-495 | repeated rounds end, empty the uploadable queue under consecutive sequence numbers and deliver each kind in strictly increasing id order |
| PurgeStore.Store.constructor | internal/state/store.go:147-193 | opening recovers the purge from state file and sentinel and rewrites the state file |
| PurgeStore.RecoveredMeans | internal/state/store.go:147-193 | a restart finds a purge pending exactly if state file or sentinel says so, then without consent and at the strongest action either names; a connected sensor without a credential is back in setup |
| PurgeStore.Store.CommitLocked | internal/state/store.go:245-258 | memory follows the state file as soon as the file is replaced, also when the write reports an error |
| PurgeStore.Store.BeginPrivacyPurge | internal/state/store.go:369-393 | sentinel then state file; memory is without consent and pending whatever either write does, at the stronger of the old and the new action, and nothing else in it changes |
| PurgeStore.Store.CompleteSSIDPurge | internal/state/store.go:395-430 | refreshes the sentinel, clears the state file, removes the sentinel; on success memory is as before but for the marker, and after any failure it is as before |
| PurgeStore.Store.WipeCredentials | internal/state/store.go:657-688 | once the file is replaced, credential, configuration, pause, test times, budgets, handled requests and network key are reset, consent is withdrawn, the mode is standalone and the time of a revocation is noted; purge and installation stay |
| PurgeMachine.StepKeepsFine | internal/service/service.go:805-836 | every step keeps pending and action in agreement, consent out of a pending purge, the latch tied to a pending revocation, and an upload tied to neither |
| PurgeMachine.EveryRunIsFine | internal/service/service.go:805-836 | the same over every run |
| PurgeMachine.EnrollmentStartsAnew | internal/state/store.go:260-286 | an enrollment leaves the sensor connected under its own credential, without consent, pause, revocation or handled requests |
| PurgeMachine.SwitchEndsPause | internal/state/store.go:288-306 | a mode switch ends a pause and changes nothing else but the mode |
| PurgeSafety.RecoveredKeeps | internal/state/store.go:147-189 | recovery never unblocks, keeps the credential and is idempotent |
| PurgeSafety.BlockedWrites | internal/state/store.go:726-828 | writing a blocking state with any outcome leaves every possible recovery blocked |
| PurgeSafety.CompleteKeepsObligation | internal/state/store.go:395-430 | completing, with any write outcome, leaves the purge owed or settled |
| PurgeSafety.StepKeepsOwed | internal/state/store.go:369-438 | every step leaves an owed purge owed at no lower priority, or settled |
| PurgeSafety.StepKeepsSettled | internal/service/service.go:814-836 | no step brings purged data or credentials back |
| PurgeSafety.BeginCreatesObligation | internal/state/store.go:369-393 | a begin durable in the state file or the sentinel is owed after any crash |
| PurgeSafety.PurgeCrashSafety | internal/state/store.go:369-438 | on every run from such a begin the purge stays owed at no lower priority or is settled; once nothing is pending, older telemetry is gone from memory and queue and, for disconnect or revocation, older credentials are gone everywhere |
| PurgeSafety.ConsentStaysWithdrawn | internal/state/store.go:369-438 | from a begin that reached a file durably until the user consents again, memory has no consent and no restart or power loss brings it back, also after the cleanup |
| PurgeSafety.NoOldDataIsSent | internal/uploader/uploader.go:126-246 | no request after such a begin carries telemetry collected before it or is signed with a credential to be wiped |
| PurgeSafety.RevocationLatch | internal/uploader/uploader.go:274-291 | after a revoked reply the same process sends nothing until clear, wipe, complete and unblock succeeded in that order, even if every write fails |
| PurgeService.Daemon.CleanUp | internal/service/service.go:814-836 | a successful cleanup leaves nothing pending, no latch, an empty queue and, where the action asks for it, no credential, consent or session, standalone mode and the time of a revocation, else an otherwise unchanged state; a failure leaves purge and latch as they were |
| PurgeService.Daemon.ResetAggregator | internal/service/service.go:816 | drops everything collected in memory before the queue is cleared |
| PurgeService.Daemon.ClearQueue | internal/service/service.go:817-819 | empties the queue when its transaction commits; only a success lets the cleanup go on |
| PurgeService.Daemon.WipeIdentity | internal/service/service.go:821-830 | wipes the credential; only a durable wipe lets the cleanup go on |
| PurgeService.Daemon.Finish | internal/service/service.go:831-833 | completes the purge, or leaves it pending with the store's memory unchanged |
| PurgeService.Daemon.FinishAndUnblock | internal/service/service.go:831-836 | releases the latch only after completion |
| PurgeService.Daemon.Revoke | internal/uploader/uploader.go:274-291 | latches in memory, without consent and at the strongest action, whatever the writes of the durable marker do |
| PurgeService.Daemon.FirstRequest | internal/uploader/uploader.go:159-222 | one request for the pending batch, or without one for a due heartbeat, and what its reply means once the acknowledgement is counted |
| PurgeService.Daemon.Exchange | internal/uploader/uploader.go:159-245 | the second request follows exactly an announcement of newer configuration; revocation, stored configuration or no change |
| PurgeService.Daemon.Upload | internal/uploader/uploader.go:153-245 | an exchange by a claimed, connected, unlatched sensor, as steps of the purge machine |
| PurgeService.Daemon.RetryMark | internal/uploader/uploader.go:142-151 | the latched tick only tries the durable marker again; memory stays without consent at the strongest action |
| PurgeService.TwoRequestsInOneTick | internal/uploader/uploader.go:124-126 | a concrete tick that makes two requests |
| PurgeService.Daemon.StoreConfig | internal/uploader/uploader.go:262-272 | storing a newer configuration changes neither purge nor credential |
| PurgeService.Daemon.Tick | internal/uploader/uploader.go:126-246 | before its time it changes nothing; it sends two requests exactly when an accepted, acknowledged first reply announces newer configuration, none exactly when it may not upload or has nothing due, else one; the latch is set exactly by a reply that turns the sensor away; the new state is given in full |
| ModeBoundary.StepKeepsIsolation | internal/service/service.go:397-600 | every step keeps guarded standalone records out of batches and out of connected-mode memory |
| ModeBoundary.RunKeepsIsolation | internal/service/service.go:397-600 | the same over every run |
| ModeBoundary.StandaloneDataStaysLocal | internal/service/service.go:848-882 | no latency, DNS, HTTP, link or speed-test record gathered in standalone mode enters a controller batch, in any interleaving |
| ModeBoundary.NothingCrossesTheBoundary | internal/service/service.go:1352-1372 | when a mode switch or an enrollment commits, no producer is running and no guarded standalone record is left in memory |
| ModeBoundary.EventsStayLocalWithoutSlips | internal/service/service.go:723-748 | events stay local on every run in which no event of a standalone interval is added in connected mode or inside a writer that can end there |
| ModeBoundary.EverySlipCanLeak | internal/service/service.go:723-748 | after every such addition there is a continuation that uploads the event |
| ModeBoundary.EventsCanCross | internal/service/service.go:640-643 | such a run exists from a new standalone daemon, the event added while the sensor enrols |
| ModeBoundary.LateEventsCanCross | internal/service/service.go:640-643 | and one with the event worked out before the sensor enrols and added only afterwards |
| ModeBoundary.WriterCanEnd | internal/service/service.go:723-748 | in connected mode whatever is collected can be uploaded, whoever holds the lock |
| ModeBoundary.Service.Shutdown | internal/aggregate/aggregate.go:136-141 | empties the aggregator and hands out all but the open minute |
| ModeBoundary.Service.Persist | internal/service/service.go:848-882 | writes the valid records with the interval's local-only mark, or restores exactly those |
| ModeBoundary.Service.Commit | internal/state/store.go:288-306 | a replaced state file changes the mode also when the write reports an error |
| ModeBoundary.Service.FlushShutdown | internal/service/service.go:786-792 | empties the aggregator into the queue, or restores exactly the records it could not commit, as two steps of the machine |
| ModeBoundary.Service.SetMode | internal/service/service.go:1345-1380 | the mode changes exactly if the flush committed or had nothing to write, the target is standalone, or connected with a credential held, and the file was replaced; then with an empty aggregator; new rows are local-only exactly when gathered in standalone mode; the new state is given in full |
| ModeBoundary.Service.Connect | internal/service/service.go:1265-1315 | refused while a credential is held; else enrollment ends the local interval, everything flushed is local-only, and the sensor becomes claimed and connected exactly if the flush succeeded and the file was replaced, with an empty aggregator |
| MinuteSummary.CellCounts | internal/aggregate/aggregate.go:70-93 | a bucket counts every accepted sample of its minute and holds only bounded latencies |
| MinuteSummary.PercentileIsNearestRank | internal/aggregate/aggregate.go:247-256 | a percentile is the nearest-rank value: the least rank that covers the fraction |
| MinuteSummary.SummaryIsSound | internal/aggregate/aggregate.go:215-245 | a summary counts all samples of its minute, its loss is a percentage, and min, p50, p95, max are ordered and bounded |
| MinuteSummary.SummaryTellsSamples | internal/aggregate/aggregate.go:215-256 | counted over a minute's samples: the loss is the share that failed or had an unbounded latency, minimum and maximum are latencies that bound all others, the percentiles are nearest ranks and the jitter is the mean step between neighbouring latencies |
| MinuteSummary.SummaryIsLabelled | internal/aggregate/aggregate.go:70-93 | a summary is of its samples' target and minute and carries the latest label of each sort that a sample gave |
| MinuteSummary.JitterOf | internal/aggregate/aggregate.go:225-231 | the jitter loop computes the mean absolute difference of neighbours |
| Aggregation.SampleKeepsAccounted | internal/aggregate/aggregate.go:57-93 | an accepted sample lands in exactly its minute's open bucket, never in an emitted minute |
| Aggregation.FlushKeepsAccounted | internal/aggregate/aggregate.go:154-191 | a flush turns every closed bucket into one summary of all its samples |
| Aggregation.DiscardKeepsAccounted | internal/aggregate/aggregate.go:136-141 | a shutdown discards exactly the samples of open buckets |
| Aggregation.EveryRunIsAccounted | internal/aggregate/aggregate.go:57-213 | over every run each minute of a target is summarised at most once between resets and kept samples are exactly open buckets or summaries |
| Aggregation.EverySampleIsCountedOnce | internal/aggregate/aggregate.go:57-213 | every accepted sample is counted in exactly one summary or one open bucket unless a shutdown discarded it |
| Aggregation.EmissionsTellTheirSamples | internal/aggregate/aggregate.go:154-245 | on every run each emitted summary tells exactly the kept samples of its target taken within its minute: their number, the share lost, extremes, percentiles and jitter |
| Aggregation.FlushClosesPastMinutes | internal/aggregate/aggregate.go:154-170 | a flush closes exactly the open minutes that are over |
| Aggregation.SealedExactly | internal/aggregate/aggregate.go:171-180 | sealing touches only the targets it closes, and each seal is a minute sealed before or closed now, or zero |
| Aggregation.Aggregator.Add | internal/aggregate/aggregate.go:57-93 | a sample of a sealed minute is ignored; any other updates its bucket and the bounded live window |
| Aggregation.Aggregator.ClosedKeys | internal/aggregate/aggregate.go:158-170 | the keys to flush are exactly the closed ones, sorted |
| Aggregation.Aggregator.Summarise | internal/aggregate/aggregate.go:171-180 | the loop makes one summary and one seal for each closed key, in order |
| Aggregation.Aggregator.AddPending | internal/aggregate/aggregate.go:118-127 | a record that is no sample joins the pending ones at the end |
| Aggregation.Aggregator.FlushAt | internal/aggregate/aggregate.go:154-191 | returns one summary of each closed minute's bucket in order and then the pending records, seals the minutes, and drops closed or all buckets |
| Aggregation.Aggregator.FlushPendingOnly | internal/aggregate/aggregate.go:143-152 | takes the pending records and closes no bucket |
| Aggregation.Aggregator.RestoreRecords | internal/aggregate/aggregate.go:199-204 | puts failed records back ahead of later ones |
| Aggregation.Aggregator.ResetAll | internal/aggregate/aggregate.go:206-213 | forgets buckets, pending records, live samples and seals |
| Sealing.StepKeepsSound | internal/service/service.go:770-784 | every step keeps sealed minutes before every sample that can still arrive |
| Sealing.SealingNeverRejects | internal/service/service.go:770-784 | with a monotone clock from the epoch on, no prober sample is rejected on any run |
| Sealing.EarlyClocksCanReject | internal/aggregate/aggregate.go:171-180 | from every earlier clock some run rejects a sample of a minute never summarised |
| DrainGate.EveryRunIsSound | internal/service/activity.go:25-81 | in every interleaving active equals the unreleased admissions, no channel is closed twice or while unset, and a granted call finds the gate shut and idle |
| DrainGate.GrantedMeansIdle | internal/service/activity.go:47-81 | from a granted quiesce until its resume nothing is admitted and nothing is active, whatever stale closures do |
| DrainGate.StaleClosuresDoNothing | internal/service/activity.go:34-44 | a second release or resume changes nothing |
| DrainGate.WaitingEndsWhenIdle | internal/service/activity.go:47-60 | a waiting quiesce can see its channel closed exactly when all admissions are released |
| DrainGate.ActivityGate.Begin | internal/service/activity.go:25-33 | admits exactly when the gate is open; the new state is the machine's step |
| DrainGate.ActivityGate.Shut | internal/service/activity.go:47-60 | shuts an open gate with a new channel, closed at once exactly when nothing is active; the new state is the machine's step |
| DrainGate.Admission.Release | internal/service/activity.go:34-44 | gives the admission back once and closes the channel on the last one, as the machine's step |
| DrainGate.Shutting.Resume | internal/service/activity.go:62-70 | reopens once, as the machine's step; later calls change nothing |
| DrainGate.Shutting.Await | internal/service/activity.go:71-81 | grants only an idle shut gate; on expiry the gate is reopened; either way the machine's step |
| DataBudget.ReserveKeepsExact | internal/state/store.go:582-601 | a reservation, with roll-over, keeps the ledger equal to what its tests are charged |
| DataBudget.LeftIsUnspent | internal/state/store.go:542-580 | with the clock going forward an exact ledger leaves exactly what the tests of the day and of the month were not charged |
| DataBudget.ReconcileKeepsExact | internal/state/store.go:603-624 | the refund lands on the reservation's own day and month and, for a test that reports no more than its reservation, no clamp bites |
| DataBudget.LedgerIsExact | internal/state/store.go:582-655 | with a clock that does not go back to an earlier day, the ledgers are the bytes reported by reconciled tests plus full reservations of the others, over every run of reservations, tests, failed and unsynced writes, crashes and wipes |
| DataBudget.LedgerMissesTheHidden | internal/state/store.go:603-624 | on a day whose tests were all reconciled the ledger misses exactly the bytes they moved without reporting them, so it holds the bytes moved if and only if there are none |
| DataBudget.ScheduledTestsRespectLimits | internal/state/store.go:582-601 | scheduled tests alone never take a ledger past a constant limit nor report more than it in any day or month, power losses included |
| DataBudget.MovedBytesRespectLimits | internal/state/store.go:582-601 | nor do they move more than it in any day or month, on runs where no test moves bytes without reporting them |
| DataBudget.StepKeepsCovered | internal/state/store.go:560-624 | every step keeps each ledger that may be read after it at or above the bytes reported in the current day and month |
| DataBudget.ReportedBytesAreNeverForgotten | internal/state/store.go:560-624 | no ledger that is read or comes back after any run undercounts the bytes reported in the current day or month, also when a power loss undoes an unsynced write |
| DataBudget.MovedBytesAreNeverForgotten | internal/state/store.go:560-624 | nor the bytes moved, on runs where no test moves bytes without reporting them |
| DataBudget.ClockBackForgets | internal/state/store.go:646-655 | every step back to an earlier day makes an exact ledger forget its day: the next reservation of that day leaves it counting less than the day's tests are charged, so the clock condition is needed |
| DataBudget.Budgets.ReserveSpeedTestBytes | internal/state/store.go:582-601 | accepts exactly a positive durable request that overdraws or that the tests charged to the day and to the month leave room for, a new day or month starting from its whole limit; then charges both ledgers |
| DataBudget.Budgets.ReserveBytes | internal/state/store.go:582-601 | on any ledger, exact or not, what it still allows decides; yes exactly when that is durable |
| DataBudget.Budgets.ReconcileSpeedTest | internal/state/store.go:603-624 | refunds the unused part to the ledgers of the reservation's day and month and records what the test reported |
| DataBudget.Budgets.ReserveScheduled | internal/service/service.go:1088-1110 | deferred below a mebibyte of what the tests of the day and of the month left unspent; else reserves the smaller of the envelope and that, exactly if the write is durable, and the ledgers end at what the earlier tests were charged plus the reservation |
| DataBudget.Budgets.SettleScheduled | internal/service/service.go:1124-1130 | takes what the test did not report back from both ledgers and records the test |
| DataBudget.Budgets.RunScheduledTest | internal/service/service.go:1087-1130 | runs exactly if the tests of the day and of the month left a mebibyte unspent and the reservation is durable; reserves the smallest of the envelope and both remainders; the ledgers end at what the earlier tests were charged plus the bytes reported, and the test is recorded with what it moved besides |
| DataBudget.Transferred | internal/measurement/measurement.go:363-405 | a test, household or native, reports at most the smaller of its envelope and what is left, and hides nothing exactly if no split was found or its traffic was all seen |
| DataBudget.Measured | internal/measurement/measurement.go:389-404 | either kind of profile reports what its workers counted on the split it was given |
| DataBudget.TestCounts | internal/measurement/measurement.go:389-404 | what a test reports stays within its split and is what it moved exactly if no unit or upload warm-up that had sent bytes was answered outside 2xx and no body trailed |
| DataBudget.TestCharges | internal/state/store.go:582-624 | a reconciled test adds what it reported to both ledgers, and to the bytes moved that day and month what it hid as well |
| DataBudget.RefusedFramesEscapeTheLedger | internal/qualitytest/household.go:98-107 | on every exact account with enough left for the split some household test moves more than the daily limit and leaves the ledger as it was |
| TestBytes.SplitStaysWithinRequest | internal/measurement/measurement.go:373-381 | the proportional split gives no direction more than it asked, spends exactly the effective total, and its product fits 64 bits |
| TestBytes.SplitIsProportional | internal/measurement/measurement.go:363-381 | the download share is its part of the request rounded down, uploads get the rest, and a split fails exactly on less than a mebibyte or a share below its floor |
| TestBytes.WholeEnvelopeIsSplitAsAsked | internal/measurement/measurement.go:373-381 | a test with its whole envelope left gets what its profile asks for |
| TestBytes.ReserveFits | internal/qualitytest/runner.go:672-683 | the two-way reserve is at least a quarter of an allocation and at most all of it |
| TestBytes.FractionOfWindow | internal/qualitytest/runner.go:672-683 | the two-way phase's share of the time is a half on the shortest windows and five elevenths from eight seconds on |
| TestBytes.ReserveIsFiveElevenths | internal/qualitytest/runner.go:672-683 | from eight seconds on five elevenths of an allocation are held back, rounded down |
| TestBytes.AllocationIsLeast | internal/qualitytest/runner.go:660-670 | an allocation is the least that sustains once and a half the measured rate through both phases and is a mebibyte, capped by the ceiling; without a rate it is the ceiling |
| TestBytes.Size | internal/qualitytest/runner.go:288-302 | an allocation stays under its ceiling and its reserve under the allocation |
| TestBytes.OneTransfer | internal/qualitytest/runner.go:685-745 | a transfer reports what was read of its body up to the amount, nothing if answered outside 2xx; it reports what it moved unless it is an upload that had sent something then, or whose body is read on |
| TestBytes.Run | internal/qualitytest/runner.go:234-345 | the totals are what warm-ups, phases and replies counted, in any interleaving, within each direction's cap; they are the bytes moved exactly if the upload warm-up hid nothing and no body trailed |
| TestBytes.Prepare | internal/qualitytest/runner.go:272-302 | the allocations fit the caps next to what the warm-ups reported, so no unsigned subtraction goes below zero |
| TestBytes.WarmUpShares | internal/qualitytest/runner.go:234-269 | a warm-up gets a tenth of its direction up to 4 and 2 MiB, the replies a sixteenth of the download cap up to 64 KiB |
| TestBytes.RunPhases | internal/qualitytest/runner.go:304-345 | the phases and the replies count what their workers count on what each is offered |
| TestBytes.OffersSpendAllocations | internal/qualitytest/runner.go:272-324 | the phases are offered the whole of both allocations, but for the reserves when the two-way phase is left out |
| TestBytes.LeftForBoth | internal/qualitytest/runner.go:322-324 | the two-way phase is offered the whole reserve of both directions exactly if each is at least 128 KiB and the run goes on, and is else left out |
| TestBytes.RunCounts | internal/qualitytest/runner.go:356-358 | what a run reports keeps both caps, its downloads move no more than their cap, its uploads pass theirs by at most what the warm-up hid, and reported equals moved exactly if nothing was hidden |
| TestBytes.RefusedWarmUpPassesTheCap | internal/qualitytest/runner.go:715-717 | on every profile with a mebibyte each way a refused upload warm-up lets a run move its whole upload cap and a full warm-up besides, and report the cap |
| Claims.StepConserves | internal/qualitytest/household.go:85-107 | each atomic access conserves the total, refused units and bodies read on included |
| Claims.EveryInterleavingConserves | internal/qualitytest/runner.go:1157-1168 | remaining, outstanding, counted and forfeited bytes add up to the capacity for any number of workers and any interleaving, what is counted or about to be stays within it, a whole unit is funded whole or not at all, and in bulk loads and on the reply budget so does every byte moved |
| Claims.HiddenExactly | internal/qualitytest/household.go:686-689 | on every run bytes escape the counters exactly if some unit that had sent bytes is answered outside 2xx or some body is read on after its request returned |
| Claims.JoinedCounts | internal/qualitytest/runner.go:600-616 | once the workers have joined, the counter is within the capacity and holds every byte moved exactly if none was hidden; blocks and replies move no more than the capacity in either case |
| Claims.Execute | internal/qualitytest/runner.go:587-619 | playing any interleaving to its end returns what was counted, within the budget, and all that moved exactly if no step hid any |
| Claims.HouseholdStaysWithinCap | internal/qualitytest/household.go:169-178 | the probe reserve always fits; what a household test reports stays within the usable part of its cap, and is what it moved exactly if no unit that had sent bytes was answered outside 2xx and no body trailed |
| Claims.CapShares | internal/qualitytest/household.go:77-80 | usable is what nine tenths of the cap cover, the probe reserve what a hundredth of it and a mebibyte cover |
| Claims.ExecuteHousehold | internal/qualitytest/household.go:337-346 | the reported total is what the ledger and the probes counted, within the usable cap |
| Claims.RefusedFramesAreFree | internal/qualitytest/household.go:538-543 | any number of refused frames reports nothing and leaves the whole budget, whatever they moved |
| Claims.RefusedFramesPassTheCap | internal/qualitytest/household.go:686-689 | on every cap that funds a frame some household test moves more than the whole cap and reports nothing |
| Nonces.TakenIsBounded | internal/state/store.go:500-510 | the table never exceeds 32 entries |
| Nonces.ForgetsOnlyWhenFull | internal/state/store.go:500-510 | taking a nonce forgets another exactly when the table is full |
| Nonces.EvictionAllowsReplay | internal/state/store.go:500-510 | after every run whose last step gives up an accepted, unexpired nonce, the same request is accepted again at any later moment before it expires |
| Nonces.NoReplayWithoutEviction | internal/state/store.go:482-519 | on every run that gives up none, no request is accepted twice before it expires, through failed writes, restarts and power loss |
| Nonces.ReplayIsReachable | internal/service/service.go:446-500 | from an empty table, 33 different requests evenly spaced, each good for ten minutes, and the first again before it expires are all accepted |
| Nonces.StepKeepsSound | internal/state/store.go:485-519 | every step that gives up no live acceptance keeps every readable table remembering them all |
| Nonces.DropExpired | internal/state/store.go:492-496 | the sweep keeps exactly the unexpired nonces |
| Nonces.FindOldest | internal/state/store.go:501-507 | the nonce given up expires no later than any other |
| Nonces.SpeedRequests.Accept | internal/state/store.go:485-519 | says yes exactly when the nonce is new among the live ones and its record is durable |
| Schedule.ScheduledIsAllowed | internal/measurement/measurement.go:238-281 | a scheduled instant lies inside its slot and between start and end of a window opened on some day |
| Schedule.AllowedIsInWindow | internal/measurement/measurement.go:238-268 | an instant of a slot is allowed if and only if it lies between start and end of a window opened on some day, the end on the next day where it is the earlier |
| Schedule.EveryAllowedInstantCanBeScheduled | internal/measurement/measurement.go:238-281 | a slot of which a window allows anything is scheduled, and each instant that a window allows is the one some jitter schedules |
| Schedule.PlaceLandsInside | internal/measurement/measurement.go:273-280 | every offset below the allowed total falls inside one of the intervals |
| Schedule.PlaceReaches | internal/measurement/measurement.go:273-280 | every instant of the intervals is the place of some offset |
| Schedule.SlotHolds | internal/measurement/measurement.go:231-236 | every instant of a numbered slot has that slot |
| Schedule.SlotContains | internal/measurement/measurement.go:231-236 | an instant's slot contains it |
| Schedule.RunsOncePerSlot | internal/measurement/measurement.go:172-179 | once run at a due instant, a slot is never due again |
| Schedule.AllowedIntervals | internal/measurement/measurement.go:243-268 | the loops collect exactly the windows of three days cut to the slot, and their total |
| Schedule.AddDay | internal/measurement/measurement.go:245-268 | one day's windows, cut to the slot, extend the intervals and their total |
| Schedule.PlaceOffset | internal/measurement/measurement.go:273-281 | the loop always returns inside an interval, so the fallback return is unreachable |
| Schedule.CadenceSchedule | internal/measurement/measurement.go:238-281 | computes the slot's scheduled instant, none exactly when nothing of it is allowed |
| Schedule.IsDue | internal/measurement/measurement.go:172-179 | computes whether the profile is due |
| Schedule.SlotSettles | internal/measurement/measurement.go:213-227 | searching one more slot extends the search to that slot's end |
| Schedule.SlotExtends | internal/measurement/measurement.go:213-227 | the same for each numbered slot of a day |
| Schedule.SlotDue | internal/measurement/measurement.go:172-179 | within its slot a profile is due exactly from the scheduled instant on, unless it already ran in the slot |
| Schedule.EarlierIsDue | internal/measurement/measurement.go:172-179 | a profile due after its scheduled instant was due a moment before |
| Schedule.FirstDueIsScheduled | internal/measurement/measurement.go:172-179 | an instant due after one that is not is the scheduled instant of its slot and lies in an allowed window |
| Schedule.SearchDay | internal/measurement/measurement.go:213-227 | the slot loop of one day extends the search to that day's end |
| Schedule.SearchSlot | internal/measurement/measurement.go:217-225 | one pass of the slot loop extends the search to the end of its slot |
| Schedule.Search | internal/measurement/measurement.go:210-229 | the day loop finds the least due instant of the look-ahead, or shows there is none |
| Schedule.NextSpeedProfile | internal/measurement/measurement.go:204-229 | the returned instant is the least one from now on at which the profile is due, none only if none is due within the look-ahead; a later one is its slot's scheduled instant inside an allowed window |
| WindowGrammar.ClocksAgree | internal/protocol/types.go:545-556 | the normaliser's and the scheduler's clock parsers agree on every string |
| WindowGrammar.AcceptedRunsWithOneDash | internal/protocol/types.go:529-543 | the scheduler runs a window exactly when it is accepted, not `never`, and holds one dash |
| WindowGrammar.WrittenWindowIsRead | internal/protocol/types.go:529-556 | every window written as HH:MM-HH:MM is accepted and read back by the scheduler |
| WindowGrammar.MinusZeroIsAcceptedButNeverRuns | internal/measurement/measurement.go:245-255 | a concrete accepted window that the scheduler skips |
| Stability.NormalisedIsIdempotent | quality/quality.go:463-481 | normalising a policy twice is normalising it once |
| Stability.SortIsOrdered | quality/quality.go:542-553 | the median sorts its values and keeps each as often as it occurs |
| Stability.MedianIsCentral | quality/quality.go:542-553 | the median lies midway between the least value with half of the values no larger and the greatest with half of them no smaller |
| Stability.SquaresAroundMean | quality/quality.go:507-521 | the squared distances from the mean are the sum of the squares less the square of the mean as often as there are values |
| Stability.MeanIsBetween | quality/quality.go:512-516 | the mean lies between any bounds of the values |
| Stability.UsableMeans | quality/quality.go:177-186 | a bucket is used exactly if it is complete, long, sampled and not empty; the test of its rate adds nothing |
| Stability.QuietIsWithinLimits | quality/quality.go:197-201 | a window is quiet exactly if the reported variation and deviation are within the policy's limits |
| Stability.CloseIsEither | quality/quality.go:202-214 | a bucket joins if it is within 15 per cent of the centre or within twice the deviation |
| Stability.StableWhenSomeWindowQualifies | quality/quality.go:192-215 | the detector is stable exactly when some required window of usable buckets is unbroken and quiet |
| Stability.RegionIsUnbroken | quality/quality.go:175-231 | a stable region starts at the earliest qualifying window, has End - Start + 1 consecutive buckets of one stream count, ends where the next bucket may not join, and reports the figures of its buckets |
| Stability.FoundReasons | quality/quality.go:187-191 | why a region is not stable: too few usable buckets, or none of them quiet |
| Stability.SteadyStreamIsStable | quality/quality.go:175-216 | enough unbroken buckets of one rate are a stable region as a whole, at that rate |
| Stability.ExtendStaysLinked | quality/quality.go:202-214 | every bucket a region takes in directly follows the one before, with the same stream count |
| Stability.FoundStaysStable | quality/quality.go:192-216 | later usable evidence keeps a stable region stable with the same start and an end no smaller, whatever the two tests are |
| Stability.StableStaysStable | quality/quality.go:175-216 | the detector is stable on every extension of a bucket list on which it is stable, with the same start |
| Stability.BothStayStable | quality/quality.go:239-282 | a stable result for both directions is a long enough overlap of two stable regions, and later evidence for either confirms it |
| Stability.OverlapIsExact | quality/quality.go:239-282 | the result for both directions is stable exactly if both are and share enough buckets, spans the shared buckets, reports the sum of the rates and the larger figures, and otherwise names the direction at fault |
| Stability.IsQuiet | quality/quality.go:507-531 | the spread loops decide exactly the limits on variation and deviation |
| Stability.MeanOf | quality/quality.go:512-516 | the summing loop computes the mean |
| Stability.VarianceOf | quality/quality.go:517-521 | the second loop computes the variance about the mean |
| Stability.WindowIsQuiet | quality/quality.go:197-201 | the two limits decide the opening window's test |
| Stability.ConsecutiveWithSameStreams | quality/quality.go:498-505 | true exactly for consecutive buckets with one stream count |
| Stability.UsableBuckets | quality/quality.go:177-186 | keeps exactly the complete, long, sampled, non-empty buckets in order |
| Stability.Search | quality/quality.go:192-231 | the search returns the region of the earliest qualifying window, or the unsettled one |
| Stability.FirstWindow | quality/quality.go:192-201 | the outer loop finds the first start whose window passes both tests |
| Stability.ExtendRegion | quality/quality.go:202-214 | the inner loop extends until the first bucket that may not join |
| Stability.DetectStableRegion | quality/quality.go:175-231 | the loops compute the specified region, with its centre, squared variation and deviation ratio, for every list and policy |
| PhaseCounting.FinishedSecondsAreFrozen | internal/qualitytest/runner.go:436-451 | bytes arriving later never change a finished second |
| PhaseCounting.FinalSnapshotExtends | internal/qualitytest/runner.go:453-472 | the final snapshot keeps every usable bucket of a running one and only adds |
| PhaseCounting.EarlyStopIsConfirmed | internal/qualitytest/runner.go:506-526 | a phase stopped for stability reports a stable final region with the same start |
| PhaseCounting.EarlyStopOfBothIsConfirmed | internal/qualitytest/runner.go:560-584 | the same for the bidirectional phase |
| PhaseCounting.SnapshotHoldsEveryByte | internal/qualitytest/runner.go:436-472 | a snapshot accounts for every byte received |
| PhaseCounting.SnapshotShows | internal/qualitytest/runner.go:436-472 | each bucket of a snapshot holds exactly the bytes and calls of its second, and is complete once the second is over, in the final snapshot also after nine tenths of it |
| PhaseCounting.EverySecondIsShown | internal/qualitytest/runner.go:453-472 | every second that received bytes is shown |
| PhaseCounting.PhaseCounter.Add | internal/qualitytest/runner.go:436-451 | adds bytes and a sample to the current second; non-positive counts change nothing |
| PhaseCounting.PhaseCounter.SnapshotNow | internal/qualitytest/runner.go:453-472 | lists the buckets in index order, complete ones marked |
| Planner.NormalisedMixIsRunnable | quality/household.go:249-260 | every mix becomes runnable, runnable mixes are left alone, and none is trimmed to fit |
| Planner.NormalisedMixIsNearest | quality/household.go:249-260 | counts out of range move to the nearest in range, and the default replaces exactly the mixes that then have no instance or too many |
| Planner.EveryInstanceIsPlanned | quality/household.go:291-309 | a runnable mix expands to exactly its instance count |
| Planner.ActivitiesAreTheMix | quality/household.go:291-309 | the expansion holds each activity as often as the mix asks for it, and nothing else |
| Planner.PlanHousehold | quality/household.go:436-483 | a sufficient plan fits bytes and time with the longest window that fits; the reference is dropped only if the full plan does not fit; insufficient exactly when no grid window fits |
| Planner.Recompute | quality/household.go:453-462 | the fit test records what the plan would spend and decides whether that fits bytes and time |
| Planner.SumBytes | quality/household.go:440-446 | the loop adds up the planned bytes of every instance |
| Planner.MoreNeverHurts | quality/household.go:436-483 | more bytes or time never shorten the window, drop the reference or lose sufficiency |
| Planner.SufficientWhenShortestFits | quality/household.go:436-483 | a plan is sufficient exactly when the shortest window fits |
| Planner.TotalBytesGrow | quality/household.go:419-430 | planned bytes never fall with the duration |
| Planner.PlannedBytesRoundUp | quality/household.go:418-430 | planned bytes are the demand of both directions over the time, rounded up to a byte |
| Planner.PlannedProbes | quality/household.go:419-424 | probes are planned by their headers, one for each whole interval |
| Planner.MixBytesAddUp | quality/household.go:436-446 | a mix plans for each of its instances over warm-up and window |
| Planner.ReferenceIsHighest | quality/household.go:313-327 | the reference is the stream of the mix with the highest demand; it costs four segments and three and a half intervals |
| Planner.StreamsNeverBurstTogether | quality/household.go:329-346 | two streams of one kind start at least an equal share of the interval apart |
| Planner.StaggerOffsets | quality/household.go:329-346 | the two loops compute each stream's share of its interval |
| Planner.CountStreams | quality/household.go:331-336 | the first loop counts the segment streams of each kind |
| SensorConfig.NormalisedIsIdempotent | internal/protocol/types.go:483-508 | normalising is idempotent on every configuration |
| SensorConfig.NormalisedIsInBounds | internal/protocol/types.go:483-508 | every number ends in its range, windows are runnable, the mix fits |
| SensorConfig.DefaultIsNormal | internal/protocol/types.go:434-465 | the default configuration is already normal |
| SensorConfig.NumbersAreKeptOrDefault | internal/protocol/types.go:483-508 | each number is kept if in its range and otherwise the default's, the contract version falling back to 2; a mix is taken exactly under the household contract |
| SensorConfig.ListsAreKeptOrDefault | internal/protocol/types.go:497-500 | each list is kept if it is well-sized and every entry passes its check, and is otherwise replaced whole |
| SensorConfig.WindowsAreKeptOrFallback | internal/protocol/types.go:515-527 | of a well-sized window list exactly the accepted windows are kept; the fallback replaces it if none is |
| SensorConfig.ProfilesEndSound | internal/protocol/types.go:593-658 | profiles end in bounds with distinct, allowed names, at most four, the contract's defaults among them |
| SensorConfig.ProfilesAreSentOrDefault | internal/protocol/types.go:593-658 | the first of the sent profiles of each allowed name is used, and nothing else is but the contract's defaults |
| SensorConfig.ProfileEndsInBounds | internal/protocol/types.go:617-646 | one profile ends in bounds, with minimum duration at most the maximum |
| SensorConfig.ProfileIsKeptOrDevice | internal/protocol/types.go:617-637 | what a profile asks for is kept where it is in range and is otherwise the device's own |
| SensorConfig.AllOrDefaultIsIdempotent | internal/protocol/types.go:558-588 | a target list is kept or replaced whole, and again stays the same |
| SensorConfig.CadenceIsTheSlotLength | internal/protocol/types.go:635-637 | a normalised cadence is the slot length that the scheduler uses |
| SensorConfig.NormalisedProfileCanRun | internal/protocol/types.go:617-646 | a normalised profile has a split that never overflows and is one the scheduler can search, with its cadence as slot length and every one-dash window read |
| SensorConfig.CopyBounded | internal/protocol/types.go:684-696 | the loop keeps a short list of short strings or takes the fallback |
| SensorConfig.NormaliseSpeedWindows | internal/protocol/types.go:515-527 | the loop keeps the runnable windows or takes the fallback |
| SensorConfig.KeepProfiles | internal/protocol/types.go:608-646 | the loop keeps the first known and allowed profile of each name, and `seen` is exactly the names kept |
| SensorConfig.NormaliseSpeedProfiles | internal/protocol/types.go:593-658 | the loop keeps the first allowed profile of each name and appends missing defaults |

## Left out

- SQLite, JSON and the file system: transactions are atomic, records encode and stored payloads decode, a corrupt sentinel or state file is not part of this model.
- A payload's length in characters stands for its length in bytes.
- HTTP, TLS, DNS, ping, IPC, platform collectors and signatures: their outcomes, and the rate that a warm-up measures, are parameters; a transfer reads at most what it was offered from its body, and those are the bytes counted as moved, without protocol overhead or retransmissions.
- Upload back-off and jitter, report texts, grades, scores and experience summaries: they decide no property stated here.
- `NextSpeedWindow`, used without a cadence: its hourly look-ahead can step over short windows.
- Daylight-saving changes and time-zone moves: clocks have a fixed offset.
- Floating-point rounding, NaN and the rounding of reported figures; 64-bit wrap-around except in `TestBytes.SplitStaysWithinRequest`.
- Stability.DetectStableRegion: reports the square of the coefficient of variation, which needs no square root.
- Stability.Search: takes the two tests and the reported figures as functions; `Stability.IsQuiet` shows that the spread loops decide the first.
- Claims.EveryInterleavingConserves: models the atomic counters as one value stepped by numbered workers; relaxed memory order is not modelled.
- DataBudget.LedgerIsExact: after a power loss that undoes an unsynced write the ledger may count more than was reported; `DataBudget.ReportedBytesAreNeverForgotten` says it never counts less.
- DataBudget.MovedBytesAreNeverForgotten: needs that no test hides bytes, and `DataBudget.MovedBytesRespectLimits` too, because the code is never told of refused uploads (see Findings); what a running test hides is recorded when it ends.
- Claims.HiddenExactly: units have no direction; a refused download has moved nothing when it is refused, and no body of a download is read on, so for those the guards hold by themselves.
- Nonces.NoReplayWithoutEviction: a new enrollment or a wipe, which empties the table along with the controller's identity, is not a step.
- State fields that outlive every controller: one number stands for them.
- ModeBoundary.StandaloneDataStaysLocal: records are sets of tagged items, so order and repetition are not part of the statement.
- SensorConfig.NormalisedIsIdempotent: whether a host or address is safe to contact is an arbitrary predicate.
- Contexts: a caller's context is reduced to whether it has expired.
- `Spool.History`, updates, packaging, logging and the desktop interface.
