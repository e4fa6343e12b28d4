# Account inspection, proved

CLIProxyAPI Pro adds account inspection, batch operations and several embedded Go components to an
upstream server. This project models the state these additions keep and proves what has to hold over
every run, crash and interleaving. Each module stands for one protocol or component.

| module | subject |
|---|---|
| `BatchReceipts`, `BatchProtocol`, `BatchSafety` | receipts of batch operations: the store as a class, runs of handlers, goroutines, failing saves and restarts, and the theorems about them |
| `EvidenceJournal` | audit records and observations kept while operations begin and finish |
| `EvidenceCommit` | the result snapshot and the journal as two files tied by a generation |
| `SettingsCommit` | the schedule and the snapshot as two files tied by the settings |
| `RunExclusion` | full runs, rechecks and manual actions under their locks; pausing and waking workers |
| `BulkRecheck` | the bookkeeping of a recheck of many items |
| `TransportProvider` | the transport cache keyed by proxy and override generation |
| `RegistrationFence` | the generation fence around publishing an account's models |
| `PersistenceQueue` | the bounded usage queue against a plain first-in-first-out sequence |
| `RealtimeRelay` | two copy loops and the quota turn they share |
| `CodexRetention` | inheriting subscription dates and reset credits without renewing their age |
| `ProbeCache` | values trusted for a while, and the preferred endpoint |
| `Fingerprint` | the byte stream behind the credential fingerprint |
| `AccountPolicy` | remembering and restoring an account under policy overlays |
| `Basics` | optional values and the ways a file write can end |

## How it is modelled

Objects that are updated in place are classes. Each of their methods is proved equal to a function on
values, and says besides, without that function, what it answers and changes; runs are built from those
functions. Safety over all runs has a counterpart in what gets through after any run. Concurrency is a step relation: one action is what a
thread does between two lock operations (or one effect outside a lock), a list of actions is one
interleaving, and an action that is not possible has no effect. Theorems quantify over all lists.

Assumptions:

- A file write replaces the whole file or nothing. It may report an error although it replaced the file
  (`Stored`, `Lost`, `StoredWithError`), because the directory is synchronised after the rename.
- New random identifiers and generation labels are fresh.
- Resolving the proxy reads the override and its generation in one step, and every change of the
  override raises the generation.
- The worker pool hands out each index at most once, and leaves indices out only after a callback
  returned false because the context was done.
- Clocks are arbitrary integers. Where a theorem needs their readings to be in some order, it says so.
- Tokens stand for identifiers, texts and settings that are only compared; 0 stands for the empty one.

## Where the code keeps less than one might expect

- Confirmation counts come back after a change of settings to and fro in two ways. An update finds no
  result in memory to clear, because the snapshot could not be read at the restart before
  (`SettingsCommit.UnreadableSnapshotRevivesCounts`), or the schedule cannot be read at one restart and
  can at the next (`SettingsCommit.UnreadableScheduleRevivesCounts`). `SettingsCommit.Allowed` is the
  condition on a single update or restart, and `SettingsCommit.AllowedIsExact` says that it is exact.
- If the save that ends a load of the batch receipts is not confirmed, the receipts are live but every
  start is refused until the next restart, repeated ones included
  (`BatchSafety.FailedReloadRefusesRepeat`); `BatchSafety.RepeatedStartIsAnswered` says that this is the only exception.
- A crash in the middle of an import keeps the old results but loses the audit records that only the
  journal file had; `EvidenceCommit.CrashAfterFirstWrite`, `CrashBeforeRollback` and
  `FailedImportIsUndone` say exactly when, for each point.
- A charged realtime turn can be settled before its create is sent, by a completion the upstream sends
  unasked (`RealtimeRelay.TurnSettledBeforeItsCreate`) or by that of a create nobody was charged for
  (`RealtimeRelay.FreeCreateSettlesNextTurn`). `RealtimeRelay.Allowed` is the condition on admissions and
  upstream under which it cannot, and `RealtimeRelay.AllowedIsExact` says that it is exact.
- The queue's calls read the clock before they get the lock. An entry that was overtaken in between can
  outlive a prune (`PersistenceQueue.OvertakenEntryStays`), by no more than the time it was overtaken by
  (`PersistenceQueue.PruneIsFilter`).
- Restoring an account gives back its base exactly if that base has no marker attributes and no value
  that means "missing" (`AccountPolicy.RestoreUndoesOverlays`).
- With a clock that goes back, remembering one key can drop another one early
  (`ProbeCache.ClockBackHidesValue`); `ProbeCache.LookupIsExact` says exactly what a lookup finds then.

## Model

| member | source | states |
|---|---|---|
| `BatchReceipts.BatchStore.Save` | cliproxyapi-pro-core/patches/account_inspection_batch.go:1151-1180 | the file then lists exactly the receipts in memory, each once, or is untouched; success is reported only if it was replaced without error and the store had loaded |
| `BatchReceipts.BatchStore.InsertReceipt` | cliproxyapi-pro-core/patches/account_inspection_batch.go:336-348 | drops expired receipts that are not running, and refuses the new one exactly if 256 remain |
| `BatchReceipts.BatchStore.FindClient` | cliproxyapi-pro-core/patches/account_inspection_batch.go:350-360 | finds the live receipt of a client request if and only if there is one; the empty request has none |
| `BatchReceipts.BatchStore.Look` | cliproxyapi-pro-core/patches/account_inspection_batch.go:441-458 | a store whose load failed answers nobody; else a request with a live receipt gets it or a conflict, any other goes on |
| `BatchReceipts.BatchStore.Start` | cliproxyapi-pro-core/patches/account_inspection_batch.go:480-507 | second section: answers a request whose receipt came in between and changes nothing; else the new receipt stays only if it is on file |
| `BatchReceipts.BatchStore.Request` | cliproxyapi-pro-core/patches/account_inspection_batch.go:425-507 | both sections of a start |
| `BatchReceipts.BatchStore.Execute` | cliproxyapi-pro-core/patches/account_inspection_batch.go:554-586 | only an unexpired prepared receipt becomes running, only if the file confirms; on failure memory is as before |
| `BatchReceipts.BatchStore.CollectRetry` | cliproxyapi-pro-core/patches/account_inspection_batch.go:651-656 | passes on the targets of exactly the failed and stale items, in order |
| `BatchReceipts.RetryTargetsExact` | cliproxyapi-pro-core/patches/account_inspection_batch.go:651-656 | a target is passed on if and only if some failed or stale item has it |
| `BatchReceipts.BatchStore.Retry` | cliproxyapi-pro-core/patches/account_inspection_batch.go:725-749 | child and link from the parent come together with the file, or both are taken back |
| `BatchReceipts.BatchStore.Intend` | cliproxyapi-pro-core/patches/account_inspection_batch.go:784-797 | true only if memory and file both show the item as running |
| `BatchReceipts.BatchStore.Record` | cliproxyapi-pro-core/patches/account_inspection_batch.go:822-827 | sets one item's outcome, on file only as far as the write goes |
| `BatchReceipts.BatchStore.Complete` | cliproxyapi-pro-core/patches/account_inspection_batch.go:759-776 | a completed receipt has no item left ready or running |
| `BatchReceipts.BatchStore.Load` | cliproxyapi-pro-core/patches/account_inspection_batch.go:1091-1129 | nothing without a file; of any file at most 256 receipts, none of them prepared or running, saved back; of a file a save left, exactly the unexpired ones: what was prepared or running is interrupted, its ready and running items are interrupted, and every other item, every target and every other receipt is as on file |
| `BatchReceipts.BatchStore.Reopen` | cliproxyapi-pro-core/patches/account_inspection_batch.go:85-94 | whatever a store went through, a new process on its file has exactly its unexpired receipts, the unfinished ones and their unfinished items interrupted and nothing else changed, and answers if that was saved |
| `BatchReceipts.RecoveredPrefixIsAll` | cliproxyapi-pro-core/patches/account_inspection_batch.go:1097-1125 | reading records one by one gives the same as recovering the file as a whole, if it has no repetition and at most 256 records |
| `BatchReceipts.IndexKeepsAll` | cliproxyapi-pro-core/patches/account_inspection_batch.go:1151-1180 | a list of records with different identifiers is read back record for record |
| `BatchReceipts.RestartedTargets` | cliproxyapi-pro-core/patches/account_inspection_batch.go:1113-1120 | after a restart a retry passes on exactly the targets of the items that the file showed as failed or stale |
| `BatchSafety.LaunchedAndActedOnce` | cliproxyapi-pro-core/patches/account_inspection_batch.go:751-797 | over every run no operation is launched twice and no item acts twice, and what acted never shows as ready again in memory or on file |
| `BatchSafety.IntentPrecedesEffect` | cliproxyapi-pro-core/patches/account_inspection_batch.go:784-797 | over every run a launch and an effect begin only when the file shows the operation and the item as running |
| `BatchSafety.RestartLeavesNothingActive` | cliproxyapi-pro-core/patches/account_inspection_batch.go:1091-1129 | after any run and a restart no receipt is prepared or running, and no item ready or running |
| `BatchSafety.RestartInterruptsUnfinished` | cliproxyapi-pro-core/patches/account_inspection_batch.go:1097-1125 | after any run, a restart keeps exactly the receipts on file within retention; those that were prepared or running are interrupted, and so are their ready and running items, while every other item, every target and every other receipt is as on file |
| `BatchSafety.InterruptedIsNeverRetried` | cliproxyapi-pro-core/patches/account_inspection_batch.go:651-656 | after any run, a restart and any continuation, a receipt that came out of the restart has the same items, and a retry of it passes on exactly the targets of the items that the file showed as failed or stale |
| `BatchSafety.OneReceiptPerRequestAndRetry` | cliproxyapi-pro-core/patches/account_inspection_batch.go:336-360 | over every run, in memory and on file: one live receipt for a client request, one live child for a live parent, at most 256 receipts |
| `BatchSafety.OnlyFailedItemsAreRetried` | cliproxyapi-pro-core/patches/account_inspection_batch.go:595-749 | over every run, in memory and on file: a live child of a live parent has exactly the targets of the parent's failed and stale items, in order; an interrupted item is never passed on, and a parent does not change after its retry |
| `BatchSafety.RunningIsKept` | cliproxyapi-pro-core/patches/account_inspection_batch.go:336-348 | an operation whose goroutine is at work is never pruned from memory or file |
| `BatchSafety.RepeatedStartIsAnswered` | cliproxyapi-pro-core/patches/account_inspection_batch.go:425-507 | whatever happened since, repeating the request of a live receipt changes nothing, and is answered with that receipt or a conflict if and only if the store has no load error; else it is refused |
| `BatchSafety.BeginLaunches` | cliproxyapi-pro-core/patches/account_inspection_batch.go:480-507 | from any state, a new request is launched if and only if no receipt has its request, there is room and the file confirms; then its receipt is in memory and on file, with every item still to do |
| `BatchSafety.ExecuteLaunches` | cliproxyapi-pro-core/patches/account_inspection_batch.go:554-586 | from any state, a prepared receipt is launched if and only if it has not expired, the store answers and the file confirms; then it is running in memory and on file |
| `BatchSafety.CommitLaunches` | cliproxyapi-pro-core/patches/account_inspection_batch.go:725-749 | from any state, a retry with execution launches its child if and only if the parent is there without a live child, some target is ready, there is room and the file confirms; then child and link are in memory and on file |
| `BatchSafety.RetryGetsThrough` | cliproxyapi-pro-core/patches/account_inspection_batch.go:595-749 | from any state, a retry of a finished receipt with something to retry goes through both its sections and launches a child of exactly those targets, if some of them is ready, there is room and the file confirms |
| `BatchSafety.ReadyItemGetsThrough` | cliproxyapi-pro-core/patches/account_inspection_batch.go:784-827 | after any run, an item a goroutine still has to do acts once if its writes are confirmed, and memory and file show its outcome and the rest of the receipt as it was |
| `BatchSafety.FailedReloadRefusesRepeat` | cliproxyapi-pro-core/patches/account_inspection_batch.go:443-447 | a run with a lost save at the end of a load, after which the request of a live receipt is refused |
| `BatchSafety.RunStays` | cliproxyapi-pro-core/patches/account_inspection_batch.go:425-912 | any sequence of actions of handlers, goroutines, clock and crash keeps the invariant that ties memory, file, goroutines and history together |
| `EvidenceJournal.JournalIsBoundedAndComplete` | cliproxyapi-pro-core/patches/account_inspection_history.go:64-102 | over every interleaving of begins, finishes, merges, saves of journal and snapshot, and restarts, with any write failing and either file unreadable: at most 1000 observations and 256 records in begin order, and every outstanding operation has its running record in memory and in the journal file |
| `EvidenceJournal.FinishFindsItsRecord` | cliproxyapi-pro-core/patches/account_inspection_history.go:182-203 | over every run the finish of an outstanding operation settles its own running record and no other |
| `EvidenceJournal.RestartInterruptsOutstanding` | cliproxyapi-pro-core/patches/account_inspection_history.go:120-145 | after a crash no record is running, whatever files can be read, and with the journal every outstanding operation is on record as interrupted |
| `EvidenceJournal.OperationGetsOnRecord` | cliproxyapi-pro-core/patches/account_inspection_history.go:146-203 | after any run, an operation that finds room and a confirmed write is on record in memory and on file, first as running, after its finish with its outcome; without either it leaves no trace in memory |
| `EvidenceJournal.ObservationComesBack` | cliproxyapi-pro-core/patches/account_inspection_runtime.go:296-312 | after any run, an archived and saved observation is there after a restart, from the journal or from the snapshot's copy |
| `EvidenceJournal.FinishedEffect` | cliproxyapi-pro-core/patches/account_inspection_history.go:182-203 | settling changes the first record with the identifier and nothing else |
| `EvidenceJournal.Journal.Archive` | cliproxyapi-pro-core/patches/account_inspection_history.go:88-102 | an observation joins once; the oldest beyond 1000 leave |
| `EvidenceJournal.Journal.Begin` | cliproxyapi-pro-core/patches/account_inspection_history.go:146-181 | succeeds with the running record in memory and on file, or leaves memory as it was; only the oldest settled record makes room |
| `EvidenceJournal.Journal.Finish` | cliproxyapi-pro-core/patches/account_inspection_history.go:182-203 | memory keeps the outcome whether or not the write succeeds |
| `EvidenceJournal.Journal.Normalize` | cliproxyapi-pro-core/patches/account_inspection_history.go:64-87 | cuts to the limits, newest kept, and interrupts exactly the running records |
| `EvidenceJournal.Journal.SaveSnapshot` | cliproxyapi-pro-core/patches/account_inspection_runtime.go:388-397 | the snapshot is written only after a confirmed journal and only if there is a result |
| `EvidenceJournal.Journal.Load` | cliproxyapi-pro-core/patches/account_inspection_runtime.go:296-312 | the snapshot's copy, normalized, stays unless the journal can be used; then the journal, normalized, takes its place and is saved |
| `EvidenceCommit.OneGenerationInMemory` | cliproxyapi-pro-core/patches/account_inspection_history.go:120-145 | for every crash point in any sequence of writes and imports, failed writes and rollbacks included, results, history and operations in memory came in under one import |
| `EvidenceCommit.ImportIsAllOrNothing` | cliproxyapi-pro-core/patches/account_inspection_history.go:301-331 | from any state and whatever the three writes do, a restart finds the results, history and operations of the new snapshot if and only if the journal was confirmed and the snapshot replaced, and the old results, or none if there were none, otherwise |
| `EvidenceCommit.CrashAfterFirstWrite` | cliproxyapi-pro-core/patches/account_inspection_history.go:317-319 | from any state, a crash after the first write of an import changes what a restart finds if and only if the write took place and the journal file had more than the snapshot; then only that is lost |
| `EvidenceCommit.CrashBeforeRollback` | cliproxyapi-pro-core/patches/account_inspection_history.go:320-321 | the same for a crash between a failed second write and the rollback; a snapshot replaced in spite of the error completes the import |
| `EvidenceCommit.FailedImportIsUndone` | cliproxyapi-pro-core/patches/account_inspection_history.go:320-329 | an import whose snapshot was not replaced leaves a restart what it would have found before, if and only if the journal was not overwritten, was rolled back, or had nothing of its own |
| `EvidenceCommit.InterruptedImportForgetsAnOperation` | cliproxyapi-pro-core/patches/account_inspection_history.go:317-320 | a run in which a saved audit record is gone after such a crash |
| `EvidenceCommit.SavedComesBack` | cliproxyapi-pro-core/patches/account_inspection_runtime.go:388-443 | after any run, memory with a result that is saved is there after a restart: the same results, history and operations |
| `EvidenceCommit.SavedJournalComesBack` | cliproxyapi-pro-core/patches/account_inspection_history.go:120-145 | with the journal alone saved, its records are there after a restart if and only if the snapshot is of their generation or has the same ones; the results are those of the snapshot |
| `EvidenceCommit.WorkGoesOn` | cliproxyapi-pro-core/patches/account_inspection_runtime.go:479-536 | after any run, work that follows an import adds to the imported results; an import that fails leaves memory and snapshot as they were, and with a good rollback the journal |
| `EvidenceCommit.Evidence.Import` | cliproxyapi-pro-core/patches/account_inspection_runtime.go:479-536 | memory has the snapshot's results, history and operations, or nothing if it was cleared, exactly if both files were confirmed; a failed import leaves memory, and with a good rollback the journal, as before |
| `EvidenceCommit.Evidence.Load` | cliproxyapi-pro-core/patches/account_inspection_runtime.go:413-443 | results and generation are the snapshot's; history and operations are the journal's if it is of that generation, else the snapshot's; without a snapshot there are no results |
| `EvidenceCommit.Evidence.Save` | cliproxyapi-pro-core/patches/account_inspection_runtime.go:388-397 | the journal is written as memory has it, and the snapshot only after a confirmed journal and with a result |
| `SettingsCommit.CountsMatchSettings` | cliproxyapi-pro-core/patches/account_inspection_runtime.go:413-443 | over every order of updates, runs, imports, failed writes, unreadable files and crashes, each count in memory was gathered under exactly the settings in force |
| `SettingsCommit.CountsDoNotReturn` | cliproxyapi-pro-core/patches/account_inspection_runtime.go:580-628 | over every run whose updates and restarts are allowed, with any write failing and any snapshot unreadable, no count outlives a change of the settings in force, not even when they change back |
| `SettingsCommit.AllowedIsExact` | cliproxyapi-pro-core/patches/account_inspection_runtime.go:596-606 | after a run of allowed steps, the next one is allowed if and only if no continuation by allowed steps brings counts back; forbidden are only an update to the settings of a counted snapshot with no result in memory, and an unreadable schedule that falls back from or to such settings |
| `SettingsCommit.UnreadableSnapshotRevivesCounts` | cliproxyapi-pro-core/patches/account_inspection_runtime.go:597-606 | a run with one unreadable snapshot in which counts do return |
| `SettingsCommit.UnreadableScheduleRevivesCounts` | cliproxyapi-pro-core/patches/account_inspection_runtime.go:296-312 | a run with one unreadable schedule in which counts do return |
| `SettingsCommit.RunsCount` | cliproxyapi-pro-core/patches/account_inspection_runtime.go:671-768 | after any run, a full run that confirms a key adds exactly this count, under the settings in force |
| `SettingsCommit.SavedCountsComeBack` | cliproxyapi-pro-core/patches/account_inspection_runtime.go:413-443 | after any run, counts saved with the settings in force are there after a restart |
| `SettingsCommit.UpdatesTakeEffect` | cliproxyapi-pro-core/patches/account_inspection_runtime.go:580-628 | after any run, an update with confirmed writes puts its settings in force; other settings than before leave no count in memory, nor on file if there was a result |
| `SettingsCommit.Scheduler.Update` | cliproxyapi-pro-core/patches/account_inspection_runtime.go:580-628 | clears the counts on file first, then writes the schedule, and only then changes memory; a failed schedule write puts the counts back |
| `SettingsCommit.Scheduler.Load` | cliproxyapi-pro-core/patches/account_inspection_runtime.go:296-312 | the settings of the schedule or the defaults; the counts of the snapshot only if they were gathered under these |
| `RunExclusion.Serializable` | cliproxyapi-pro-core/patches/account_inspection_runtime.go:671-768 | for every interleaving of starts, runs, rechecks and manual actions, the events in order are accepted by a scheduler that does one whole run or one guest's work at a time |
| `RunExclusion.ActiveRunIsAlone` | cliproxyapi-pro-core/patches/account_inspection_runtime.go:930-973 | while the state is running, paused or stopping the run holds the slot and no guest has passed the lock; guests exclude each other; the second look at the state never turns a guest away |
| `RunExclusion.EachRunEndsOnce` | cliproxyapi-pro-core/patches/account_inspection_runtime.go:1275-1341 | runs are numbered as they begin; each ends in one terminal state before anything else happens and never again |
| `RunExclusion.MergesAreInside` | cliproxyapi-pro-core/patches/account_inspection_runtime.go:872-930 | a guest merges only after its own entry with no event of anybody else in between, so never into results a run has cleared since |
| `RunExclusion.SerialRuns` | cliproxyapi-pro-core/patches/account_inspection_runtime.go:737-768 | what the serial scheduler's log says about the order of runs |
| `RunExclusion.NoLostWakeup` | cliproxyapi-pro-core/patches/account_inspection_runtime.go:821-869 | a sleeping worker's run is paused and not both cancelled and announced; resume, stop and the cancel watcher each wake it for good |
| `RunExclusion.CancelledRunStaysAwake` | cliproxyapi-pro-core/patches/account_inspection_runtime.go:754-760 | once the watcher of a cancelled run has broadcast, no worker of the run sleeps in any continuation |
| `RunExclusion.SomebodyGoesOn` | cliproxyapi-pro-core/patches/account_inspection_accounts.go:741-744 | no deadlock: whoever is under way, somebody can take a step, or the run is paused with a worker asleep |
| `RunExclusion.NothingStartsAfterShutdown` | cliproxyapi-pro-core/patches/account_inspection_runtime.go:770-783 | after shutdown no continuation begins a run |
| `RunExclusion.ShutdownRefusesStarts` | cliproxyapi-pro-core/patches/account_inspection_runtime.go:770-783 | after any run, a shutdown wakes every worker, and whatever follows it begins no run |
| `RunExclusion.CancellationFreesWorkers` | cliproxyapi-pro-core/patches/account_inspection_runtime.go:754-760 | whatever follows a cancelled and announced run, each of its workers that is left can retire |
| `RunExclusion.FreeSlotIsTaken` | cliproxyapi-pro-core/patches/account_inspection_runtime.go:671-768 | after any run, a start that finds nobody in its way begins a run if and only if the server is not shut down, no run is active and the start was saved |
| `RunExclusion.FreeGuestWorks` | cliproxyapi-pro-core/patches/account_inspection_runtime.go:872-930 | after any run, a recheck or action that finds nobody in its way does its work, merges, and leaves all locks |
| `RunExclusion.PauseHoldsResumeReleases` | cliproxyapi-pro-core/patches/account_inspection_runtime.go:821-852 | after any run, pausing holds back every worker of a live run that asks; resuming lets it go on |
| `RunExclusion.FinishedRunFreesSlot` | cliproxyapi-pro-core/patches/account_inspection_runtime.go:1275-1341 | after any run, an active run without workers ends in the given state and the slot is free again |
| `BulkRecheck.InspectMany` | cliproxyapi-pro-core/patches/account_inspection_runtime.go:975-1083 | one settled outcome for each item in input order without later repetitions of a bound key, each told exactly once to the after-hook with its final value, and exactly the successes merged |
| `BulkRecheck.Gather` | cliproxyapi-pro-core/patches/account_inspection_runtime.go:975-1000 | after the first loop each item to inspect has the slot of its own outcome, and exactly the refused items were told to the hook |
| `BulkRecheck.RunWorkers` | cliproxyapi-pro-core/patches/account_inspection_runtime.go:1001-1048 | in whatever order the workers get through, each result lands in the slot of its item |
| `BulkRecheck.CancelRest` | cliproxyapi-pro-core/patches/account_inspection_runtime.go:1049-1060 | exactly the items no worker took get the cancellation, in outcome and hook |
| `BulkRecheck.Inspect` | cliproxyapi-pro-core/patches/account_inspection_runtime.go:1004-1047 | a refusal of the before-hook goes before the inspection's error; a failed save leaves a success with an error |
| `BulkRecheck.KeptInOrder` | cliproxyapi-pro-core/patches/account_inspection_runtime.go:979-1000 | kept items are in input order and are exactly those that do not repeat an earlier bound key |
| `BulkRecheck.OneInspectionPerKey` | cliproxyapi-pro-core/patches/account_inspection_runtime.go:991-994 | no bound key is inspected twice |
| `BulkRecheck.FirstIsKept` | cliproxyapi-pro-core/patches/account_inspection_runtime.go:979-1000 | an item is kept if and only if it could not be bound or is the first of its key, and inspected if and only if it is the first of its key |
| `BulkRecheck.ResultsExact` | cliproxyapi-pro-core/patches/account_inspection_runtime.go:1061-1083 | exactly the results of the successful outcomes are merged |
| `TransportProvider.NothingLeaks` | cliproxyapi-pro-core/patches/apply_upstream_patches.py:844-918 | for every interleaving: cached keys carry the provider's generation, one transport for one key, built for its route; once all calls are done nothing is open outside the cache |
| `TransportProvider.CallsAreBoundedAndCurrent` | cliproxyapi-pro-core/patches/apply_upstream_patches.py:840-920 | a call resolves at most once more than the override changed while it ran, and returns a transport for the route that some override in force during the call gave, a route still in force at some time after the transport was built |
| `TransportProvider.GenerationsNeverDecrease` | cliproxyapi-pro-core/patches/apply_upstream_patches.py:845-857 | over every continuation the provider's generation does not decrease, answers stay and closed transports stay closed |
| `TransportProvider.DirectForReason` | cliproxyapi-pro-core/patches/apply_upstream_patches.py:858-894 | over every interleaving, a call that ends without a transport had an empty proxy by an override in force during the call, or its build failed |
| `TransportProvider.UndisturbedCallAnswers` | cliproxyapi-pro-core/patches/apply_upstream_patches.py:840-920 | after any run, a call nobody disturbs ends in one more round, without a transport exactly if its proxy is empty, else with one for its route that is cached from then on |
| `TransportProvider.NewCallsFollowOverride` | cliproxyapi-pro-core/patches/apply_upstream_patches.py:840-866 | after any run, a call that comes after a change of the override goes by the new one, and its look closes every cached transport of the old one |
| `TransportProvider.Provider.Look` | cliproxyapi-pro-core/patches/apply_upstream_patches.py:844-866 | the first visit under the lock evicts and closes a whole older generation; it retries exactly for an outdated key, goes direct exactly if the proxy is empty, hits exactly what the cache has for the key, and misses exactly otherwise |
| `TransportProvider.Provider.Install` | cliproxyapi-pro-core/patches/apply_upstream_patches.py:895-918 | the second visit: caches the transport only if the generation is still its own and nobody was faster |
| `RegistrationFence.CommitsAreLatest` | cliproxyapi-pro-core/patches/apply_upstream_patches.py:1773-1826 | over every interleaving a commit carries the newest number begun for its account so far, newer than every removal, and committed numbers never decrease |
| `RegistrationFence.SupersededNeverCommits` | cliproxyapi-pro-core/patches/apply_upstream_patches.py:1790-1804 | a token older than a newer begin or a removal commits nothing, however late it comes |
| `RegistrationFence.ModelsAreCurrent` | cliproxyapi-pro-core/patches/apply_upstream_patches.py:1673-1685 | published models come from the newest commit that changed anything, after the account's last removal |
| `RegistrationFence.NewestCommits` | cliproxyapi-pro-core/patches/apply_upstream_patches.py:1790-1826 | after any run, an issued token commits if and only if its account is known and nothing newer began and nothing as new was removed for it; what it publishes is then in force |
| `RegistrationFence.RegistrationPublishes` | cliproxyapi-pro-core/patches/apply_upstream_patches.py:1773-1826 | after any run, an account that is added and registered undisturbed gets its models published |
| `RegistrationFence.RemovalWithdraws` | cliproxyapi-pro-core/patches/apply_upstream_patches.py:1740-1761 | after any run, a removal withdraws the models and every token issued so far, also once the account is back |
| `RegistrationFence.Service.Begin` | cliproxyapi-pro-core/patches/apply_upstream_patches.py:1773-1788 | a context that carries a token of the account keeps it; any other gets a fresh number |
| `RegistrationFence.Service.WithCurrentCommit` | cliproxyapi-pro-core/patches/apply_upstream_patches.py:1815-1826 | commits if and only if the context carries a token of the account, of the account's current number, and the account is known; what is published then has that number, and otherwise nothing changes |
| `RegistrationFence.Service.Remove` | cliproxyapi-pro-core/patches/apply_upstream_patches.py:1740-1761 | removing an account takes a number no token has, and takes its models along |
| `PersistenceQueue.NothingLostOrRepeated` | cliproxyapi-pro-core/patches/apply_upstream_patches.py:5704-5739 | over every run, clock and configuration: arrivals since the last clear = handed out once and in order + dropped + live, what left is a prefix, and the payloads that calls returned are those of the arrivals handed out, one for one |
| `PersistenceQueue.PopHandsOutArrivals` | cliproxyapi-pro-core/patches/apply_upstream_patches.py:5717-5739 | the payloads a pop hands out are the arrivals at the positions it records, position for position |
| `PersistenceQueue.FreshIsYounger` | cliproxyapi-pro-core/patches/apply_upstream_patches.py:5769-5774 | pruning from the front is filtering by age if and only if no old entry stands behind a young one |
| `PersistenceQueue.PruneIsFilter` | cliproxyapi-pro-core/patches/apply_upstream_patches.py:5765-5775 | over every run whose clock readings, in the order of the lock, are at most a lag behind: a prune keeps every young entry, and of the old ones only such as are too old by no more than the lag; without lag it is a filter |
| `PersistenceQueue.OvertakenEntryStays` | cliproxyapi-pro-core/patches/apply_upstream_patches.py:5704-5709 | two calls that read the clock in one order and get the lock in the other leave an old entry behind a young one, and it survives a prune |
| `PersistenceQueue.FittedIsLongest` | cliproxyapi-pro-core/patches/apply_upstream_patches.py:5777-5783 | eviction drops no entry it need not: every longer remainder exceeds a limit |
| `PersistenceQueue.Queue.Clear` | cliproxyapi-pro-core/patches/apply_upstream_patches.py:5695-5702 | the queue is empty and counts from zero |
| `PersistenceQueue.Queue.Prune` | cliproxyapi-pro-core/patches/apply_upstream_patches.py:5765-5775 | the plain queue's prune, with byte count and a short dead prefix kept |
| `PersistenceQueue.Queue.EnforceCapacity` | cliproxyapi-pro-core/patches/apply_upstream_patches.py:5777-5783 | the plain queue's eviction; depth and bytes are within the limits after it |
| `PersistenceQueue.Queue.DropHead` | cliproxyapi-pro-core/patches/apply_upstream_patches.py:5785-5792 | drops one entry and keeps the byte count equal to the live payloads |
| `PersistenceQueue.Queue.MaybeCompact` | cliproxyapi-pro-core/patches/apply_upstream_patches.py:5794-5807 | changes nothing but the representation; the dead prefix is empty or shorter than the live part |
| `PersistenceQueue.Queue.Enqueue` | cliproxyapi-pro-core/patches/apply_upstream_patches.py:5704-5715 | refines the plain queue's enqueue; depth and bytes are within the limits |
| `PersistenceQueue.Queue.PopOldest` | cliproxyapi-pro-core/patches/apply_upstream_patches.py:5717-5739 | exactly what is handed out leaves the queue: the oldest live payloads after a prune, as many as asked for or there are, each that of the next arrival to be handed out; a count of zero or less changes nothing |
| `PersistenceQueue.Queue.Stats` | cliproxyapi-pro-core/patches/apply_upstream_patches.py:5741-5763 | depth, bytes, drops and age are those of the plain queue |
| `RealtimeRelay.EveryTurnOnce` | cliproxyapi-pro-core/patches/apply_upstream_patches.py:2720-2787 | for every interleaving: charged turns in order = settled + in hand + active + about to be active; after both loops returned at most the active one is unsettled |
| `RealtimeRelay.ActiveTurnIsKept` | cliproxyapi-pro-core/patches/apply_upstream_patches.py:2729-2749 | an active turn is never overwritten, and a create that arrives meanwhile is neither charged nor forwarded |
| `RealtimeRelay.OneTurnOnTheWire` | cliproxyapi-pro-core/patches/apply_upstream_patches.py:2720-2754 | charged creates go upstream in order, each after all earlier turns were taken for settlement |
| `RealtimeRelay.NoTurnBeforeItsCreate` | cliproxyapi-pro-core/patches/apply_upstream_patches.py:2720-2787 | in every interleaving, if each admitted create is charged and the upstream completes no more responses than creates were sent, no turn is taken or settled before its create is sent |
| `RealtimeRelay.AllowedIsExact` | cliproxyapi-pro-core/patches/apply_upstream_patches.py:2737-2768 | after a run under these conditions, the next admission or completion meets them if and only if no continuation that does takes a turn before its create is sent |
| `RealtimeRelay.TurnSettledBeforeItsCreate` | cliproxyapi-pro-core/patches/apply_upstream_patches.py:2762-2778 | a run in which an unasked completion settles a turn whose create is not sent yet |
| `RealtimeRelay.FreeCreateSettlesNextTurn` | cliproxyapi-pro-core/patches/apply_upstream_patches.py:2737-2752 | a run in which the completion of an uncharged create does so, although the upstream completes only what it was sent |
| `RealtimeRelay.CreateIsForwarded` | cliproxyapi-pro-core/patches/apply_upstream_patches.py:2729-2754 | after any run, a create that finds no active turn is forwarded if and only if it is admitted, as the new active turn if it is charged; one that finds a turn goes nowhere |
| `RealtimeRelay.CompletionSettles` | cliproxyapi-pro-core/patches/apply_upstream_patches.py:2757-2787 | after any run, a completion hands exactly the active turn to settlement, once; without one it settles nothing |
| `RealtimeRelay.EndedLoopIsSilent` | cliproxyapi-pro-core/patches/apply_upstream_patches.py:2720-2787 | a loop that has returned sends and charges, or takes and settles, nothing in any continuation |
| `CodexRetention.ShownIsRecent` | cliproxyapi-pro-core/patches/account_inspection_quota.go:526-595 | over every run, a date with an observation time and every credit an inspection shows was observed live at exactly that time, less than 15 minutes before; a date without one is the credential's claim |
| `CodexRetention.FailuresOnlyShrink` | cliproxyapi-pro-core/patches/account_inspection_quota.go:561-588 | after a live answer and any row of failures, exactly the credits usable at all these times remain, and none once the answer was too old or the count zero |
| `CodexRetention.CachedIsWitnessed` | cliproxyapi-pro-core/patches/account_inspection_quota.go:458-490 | what may be inherited was observed live at the time it carries, with this credential or on the management page |
| `CodexRetention.DateLastsAQuarterHour` | cliproxyapi-pro-core/patches/account_inspection_quota.go:526-543 | after a live date and any row of inspections without one, exactly the date with its own time is shown if it was younger than 15 minutes at each of them and not older than the credential, else the credential's claim |
| `CodexRetention.NothingIsPassedOn` | cliproxyapi-pro-core/patches/account_inspection_quota.go:458-475 | after any run, nothing an inspection stored is inherited by another credential or after the cache was emptied |
| `CodexRetention.KeptOf` | cliproxyapi-pro-core/patches/account_inspection_quota.go:574-580 | exactly the available, unexpired cached credits are inherited |
| `CodexRetention.Details.EnrichDate` | cliproxyapi-pro-core/patches/account_inspection_quota.go:526-543 | a live date wins; an inherited one keeps its time and must be young and not older than the credential |
| `CodexRetention.Details.EnrichCredits` | cliproxyapi-pro-core/patches/account_inspection_quota.go:544-588 | live credits replace; inherited ones keep their time; else there are none |
| `CodexRetention.Details.Enrich` | cliproxyapi-pro-core/patches/account_inspection_quota.go:526-595 | both, bound to the credential |
| `ProbeCache.LookupIsExact` | cliproxyapi-pro-core/patches/account_inspection_transport.go:83-106 | for operations at any times, a lookup finds the last remembered value if and only if it is unexpired now and was at every purge in between |
| `ProbeCache.LookupIsLastRemembered` | cliproxyapi-pro-core/patches/account_inspection_transport.go:83-131 | with nondecreasing times purging is invisible: the last remembered value if and only if younger than its time to live |
| `ProbeCache.ClockBackHidesValue` | cliproxyapi-pro-core/patches/account_inspection_transport.go:100-104 | with a clock that goes back an unexpired value can be missed |
| `ProbeCache.OthersPresent` | cliproxyapi-pro-core/patches/account_inspection_transport.go:143-150 | taking the preferred endpoint to the front neither loses nor repeats an address |
| `ProbeCache.Cache.Subscription` | cliproxyapi-pro-core/patches/account_inspection_transport.go:83-92 | a lookup, dropping what it finds expired |
| `ProbeCache.Cache.RememberSubscription` | cliproxyapi-pro-core/patches/account_inspection_transport.go:94-106 | the value for six hours, with all expired ones dropped |
| `ProbeCache.Cache.Profile` | cliproxyapi-pro-core/patches/account_inspection_transport.go:108-117 | a lookup, dropping what it finds expired |
| `ProbeCache.Cache.RememberProfile` | cliproxyapi-pro-core/patches/account_inspection_transport.go:119-131 | the plan for twelve hours, with all expired ones dropped |
| `ProbeCache.Cache.QuotaUrls` | cliproxyapi-pro-core/patches/account_inspection_transport.go:133-154 | a permutation of the base list, in its order but for a known endpoint that answered less than half an hour ago, which is first |
| `ProbeCache.LastAnswerGoesFirst` | cliproxyapi-pro-core/patches/account_inspection_transport.go:133-161 | after any answers at any times each address is tried once; the one that answered last is first if and only if it is known and answered less than half an hour ago, or heads the list anyway; the others keep their order |
| `ProbeCache.Cache.RememberEndpoint` | cliproxyapi-pro-core/patches/account_inspection_transport.go:156-161 | the endpoint for half an hour, whatever was preferred before |
| `Fingerprint.RoundTrip` | cliproxyapi-pro-core/patches/account_inspection_accounts.go:203-220 | the stream can be read back to the keys present and the bytes of each value, for any distinct keys without a colon |
| `Fingerprint.Injective` | cliproxyapi-pro-core/patches/account_inspection_accounts.go:203-220 | equal streams if and only if the same keys are present with the same bytes |
| `Fingerprint.KeysAreSeparable` | cliproxyapi-pro-core/patches/account_inspection_accounts.go:207-207 | the nine keys are distinct and have no colon |
| `Fingerprint.Preimage` | cliproxyapi-pro-core/patches/account_inspection_accounts.go:206-219 | the loop writes exactly that stream |
| `AccountPolicy.RestoreUndoesOverlays` | cliproxyapi-pro-core/patches/auth_account_policy.go:50-103 | after remembering, any overlays and any further remembering, restoring gives back prefix and attributes without markers if and only if the base has no markers and no value meaning "missing" |
| `AccountPolicy.OverlaysHold` | cliproxyapi-pro-core/patches/auth_account_policy.go:50-75 | no overlay and no second remembering changes what the markers hold |
| `AccountPolicy.HeldIsTidy` | cliproxyapi-pro-core/patches/auth_account_policy.go:77-103 | restoring after any overlays gives the account back without the values of its own that mean "missing" |
| `AccountPolicy.RestoredTwice` | cliproxyapi-pro-core/patches/auth_account_policy.go:77-103 | restoring leaves no marker and, done twice, changes nothing |
| `AccountPolicy.PoliciesDoNotStack` | cliproxyapi-pro-core/patches/sources/internal/pro/host/oauth_policy.go:77-119 | for every account and any two policies: one applied over the other's result gives the same as over the account itself, if and only if there is no first policy, or the second sets every part for which the account has the value that means "missing", or, with no second policy, there is no such value and the account has an attribute map |
| `AccountPolicy.PolicyIsApplied` | cliproxyapi-pro-core/patches/sources/internal/pro/host/oauth_policy.go:94-114 | a policy has its way where it says something, the account where it does not, and restoring gives a clean account back |
| `AccountPolicy.Auth.Remember` | cliproxyapi-pro-core/patches/auth_account_policy.go:50-75 | each marker that was missing has what the account had for it, or "missing"; nothing else changes, in either order of the loop |
| `AccountPolicy.Auth.Restore` | cliproxyapi-pro-core/patches/auth_account_policy.go:77-103 | prefix, priority and weight are what their markers say, gone if "missing" and as they were without a marker; the markers are gone and nothing else changes, in either order of the loop |

## Left out

- HTTP handlers, WebSocket framing, provider requests and their parsing: only the state they change is modelled; the answers of services are parameters.
- Preflight: binding items to the live snapshot and computing their readiness is a parameter of the batch and recheck models.
- The lifecycle gate of backups and imports: it only delays work; without it more interleavings are allowed, and the theorems cover them.
- Confirmation counting, result merging, sorting, health and summary counts: the counts are sets of votes, and what a merge does to a result is not modelled.
- The token refresh that merges its result outside the manual locks: no exclusion is claimed for that merge.
- Redaction, truncation and JSON encoding of evidence and snapshots: files hold the values themselves.
- The journal when no snapshot path is set, where nothing is written.
- The fallback marshaling of metadata values and the strength of the hash: the theorem is about the bytes that are hashed.
- Wrap-around of 64-bit counters and generations, which are unbounded here.
- Model publication that does not pass through the fence, such as a probe result without a token.
- An inspection that ends before its details are stored, because the context is done or the account changed: it leaves the cache as it was.
- More than one cache entry for one account file: it is modelled as nothing to inherit, and runs have one entry at most.
- The persistence switch of the queue is a parameter of the pop; enqueueing while it is off does not reach the queue.
- A receipt file that does not exist yet: the store class returns from its load without writing; in runs of the protocol that load is one of an empty list, which only adds runs in which its save fails.
- Scheduler cursor patches, watcher updates and the other anchored edits of upstream files, which are not part of this model.
- The management page and its translations.
