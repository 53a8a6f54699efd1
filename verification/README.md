# DroidWebDisplay verification

A Dafny model of the parts of DroidWebDisplay whose correctness rests on more than one function: the
two-way file transfer engine, the PIN lockout and session store, the registry of screen sessions and its
prefixed reader, the splitter for typed text, and the path and device-output parsers. Verify everything
with `dafny verify dfyconfig.toml`.

## How the project is laid out

| part | files |
|---|---|
| transfer queue | `TransferModel` (the atomic blocks as a state machine), `TransferSafety` (the invariant), `TransferTheorems`, `TransferCancels`, `TransferNoLoss`, `TransferLimits` and `TransferRuns` (where the guarantees end), `TransferManager` (the class), `LocalFiles` |
| watched folders | `MonitorModel`, `MonitorSystem` (scans, transfers and a user, interleaved), `LoopFreedom`, `MonitorTheorems`, `RetryWaits`, `SwallowedEdits`, `StrayVersions`, `MonitorLimits` (runs in which a promise fails), `AutoDownloadMonitor` (the class) |
| ADB sync client | `AdbWire` (formats), `AdbSync` (the classes), `AdbSyncTheorems` (a server's view), `AdbReplies` (exactness of replies) |
| authentication | `Lockout`, `AuthModel`, `SessionTokens`, `AuthService` (the class) |
| screen sessions | `SessionModel`, `SessionPruning`, `SessionTheorems`, `SessionManager` (the classes), `PrefixedReader` |
| text and paths | `TextChunks`, `Texts`, `PathModel`, `PathNames`, `PathTheorems`, `AndroidPaths`, `DeviceList`, `DeviceTheorems`, `MediaStore` |
| shared | `Wrappers`, `Decimal` |

Concurrency is modelled by atomic blocks: asyncio runs a coroutine without interruption from one suspension
point to the next, and neither `_persist` nor the session registry's lock ever suspends while held. Each
class method is one such block (or a loop within one) and is proved equal to a step function on the values
of its fields; the theorems are about runs of those steps. Clock readings, random tokens, the device's
answers and other programs' file changes are inputs of the steps. asyncio is that of Python 3.11, where
`asyncio.wait_for` can swallow a cancellation whose awaited operation is done; every wait for the device goes
through it. The sync formats follow AOSP's SYNC.TXT, the symbol sizes section 3 of RFC 3629.

## What does not hold

Each point names the lemmas that state it: a concrete input or a run from a fresh state where one is needed, and
the exact condition under which the property does hold.

- A RUNNING write that lands after the session was stopped and the device claimed again leaves two active
  sessions on one device (`RunningOverAStoppedSession`, `RunningWriteKeepsExactlyWhenSafe`).
- Two transfer slots can complete two downloads at one path (`TwoSlotsLoseADownload`,
  `DownloadsAreKeptExactlyWithOneSlot`).
- `retry` can exceed the queue's capacity (`ARetryOverfillsTheQueue`, `CapacityKeptUnlessRetried`).
- A resumed `cancel` overwrites a record that was retried meanwhile, and a further retry then runs two tasks
  (`RetryDuringCancelDoublesTheTask`, `RetryKeepsExactlyWithoutAWait`).
- Closing during an upload's media scan takes its record out of COMPLETED (`ClosingCancelsACompletedUpload`,
  `ClosingLosesCompletedExactlyDuringMediaScan`).
- A task cancelled before it first ran leaves its record QUEUED without a task until `cancel` resumes
  (`ANeverRunTaskLeavesItsRecordQueued`, `OpenRecordIsDriven`).
- A `cancel` can come too late: asyncio swallows it, the task completes the record, and the call, once it resumes,
  takes the record out of COMPLETED; a download's file stays (`ALateCancelUndoesACompletion`,
  `CompletedLeftExactlyByALateCancel`, `ACancelUndoesACompletionExactlyIfItsTaskWentOn`).
- The monitor takes such a download for failed and sends its file back to the phone
  (`CancelledDownloadBouncesBack`, `NoDownloadBouncesBack`).
- A download started through the API goes by default into the watched folder (lines 171 and 973-988 of
  `droid_web_display/api/app.py`), where no entry waits for it. It is marked exactly if the entry of another finished
  download goes to the same path, and else sent back to the phone (`ForeignDownloadBouncesBack`,
  `APassMarksExactlyWhatIsCarried`, `AnUnmarkedVersionIsSent`, `AMarkedVersionIsNotSent`).
- A scan copies what is at a path when its turn comes, not what it listed: a download that takes the name of a
  listed file in between is sent back (`LateDownloadBouncesBack`,
  `LateDeliveryBouncesExactlyIfTheListedVersionIsDue`, `DeliveryUnderTheCopyBouncesExactlyIfAsLong`).
- Edits of downloaded files are marked as handled and not uploaded, while the class comment at line 40 of
  `droid_web_display/transfers/monitor.py` promises to upload modified files (`AnEditIsLost`,
  `EditIsSwallowedExactlyIfFound`, `APassMarksExactlyWhatIsCarried`, `EditsOfDownloadedFilesAreSwallowed`).
- `docs/TWO_WAY_FOLDER_SYNC.md` says a downloaded file is marked before the PC scan; a download that finishes
  during the scan is not (`SeenBeforeItIsMarked`), and what saves it is that one sighting never suffices
  (`LoopFreedom.StepKeeps`).
- The caps of 300 seconds on the PIN lock and on the retry delay are never reached (`LockDoubles`,
  `RetryDelays`).
- A device whose serial starts with "*" or "adb server" is missing from the device list
  (`ADeviceIsLostExactlyIfItLooksLikeAMessage`).
- A host request above 0xFFFF bytes is not read back (`HostRoundTripExactlyUpTo64k`).
- A cancelled read on the prefixed reader can lose prefix bytes (`ACancelledCallLosesThePrefix`).
- Greedy chunks are shortest only among splits that keep surrogate pairs whole (`CuttingAPairCanBeShorter`).
- A newline at the end of a path under /mnt/media_rw can bring ".." back after the check for it, so that
  result is not a fixed point (`ANewlineHidesTheParent`, `IdempotentExactly`).

## Model

| member | source | states |
|---|---|---|
| `TransferSafety.StepKeeps` | droid_web_display/transfers/manager.py:373-443 | every step of an open service (enqueue, each block of a task, done-callback, cancel and its resumption, a cancellation that asyncio swallows, retry, foreign file changes) keeps the whole invariant: tasks, permits, states, waiting cancels and part files fit together; the hypothesis `Orderly` excludes closing and retrying a record whose `cancel` has not returned |
| `TransferSafety.InitialInv` | droid_web_display/transfers/manager.py:88-113 | a fresh service satisfies the invariant |
| `TransferTheorems.RunKeeps` | droid_web_display/transfers/manager.py:373-443 | so does every run of such steps, of any length and interleaving |
| `TransferTheorems.OpenRecordIsDriven` | droid_web_display/transfers/manager.py:411-420 | a record that is not final has an unfinished task, the one in `_tasks` and no other, if and only if no `cancel` of it is about to resume; if one is, the record is still QUEUED |
| `TransferTheorems.AtMostOneTask` | droid_web_display/transfers/manager.py:411-420 | no record is ever driven by two unfinished tasks |
| `TransferTheorems.StaleCallbackIsHarmless` | droid_web_display/transfers/manager.py:416-420 | a done-callback that arrives after a retry does not drop the retried record's task |
| `TransferTheorems.ConcurrencyIsBounded` | droid_web_display/transfers/manager.py:422-434 | preparing, transferring and verifying records never exceed the concurrency limit |
| `TransferTheorems.CompletedLeftExactlyByALateCancel` | droid_web_display/transfers/manager.py:373-385 | a step takes a record out of COMPLETED if and only if it resumes a `cancel` of it, and then changes nothing but the state; in every other step a completed record stays as it is, but for the spool path an upload gives up |
| `TransferCancels.ACancelUndoesACompletionExactlyIfItsTaskWentOn` | droid_web_display/transfers/manager.py:373-385 | over everything that can happen between a `cancel` and its resumption: the record is COMPLETED then, and goes to CANCELLED, if and only if the task the call waited for completed it and no other `cancel` of it resumed since; no named file changes |
| `TransferCancels.CompletedOnlyIfSwallowed` | droid_web_display/transfers/adb_sync.py:222-250 | a task asked to stop completes its record only if `asyncio.wait_for` swallowed the request |
| `TransferRuns.ALateCancelUndoesACompletion` | droid_web_display/transfers/manager.py:373-385 | a run from a fresh service: a download cancelled while its last bytes come in is delivered and COMPLETED, then marked CANCELLED; its file stays |
| `TransferTheorems.CompletedMeansVerified` | droid_web_display/transfers/manager.py:466-476 | COMPLETED implies the size-match mark and `bytes_transferred == size`, though progress rewrites the size from a second STAT |
| `TransferTheorems.CapacityKeptUnlessRetried` | droid_web_display/transfers/manager.py:387-404 | each step keeps the queue within its capacity if and only if it is not a retry into a full queue, which `retry` does not check |
| `TransferTheorems.OnlyCompletionWrites` | droid_web_display/transfers/manager.py:490-527 | no step other than the completion of a download changes a file the user names |
| `TransferTheorems.CompletionWrites` | droid_web_display/transfers/manager.py:514-534 | the step that completes a download writes exactly the received bytes to its destination, removes the part file, sets COMPLETED, and changes nothing else |
| `TransferTheorems.NoPartLeftBehind` | droid_web_display/transfers/manager.py:523-549 | a download that is not being received has no part file: failure and cancellation at any suspension point leave none |
| `TransferNoLoss.NoDownloadIsLost` | droid_web_display/transfers/manager.py:342-371 | with one slot and the RENAME policy every step keeps completed downloads at distinct existing files, and a delivery writes to a name that was free, even when both were queued under one name |
| `TransferNoLoss.DeliveredFileStays` | droid_web_display/transfers/manager.py:490-527 | no step changes the file of a completed download |
| `TransferNoLoss.NamedFileStays` | droid_web_display/transfers/manager.py:490-527 | with one slot and RENAME no step of the service overwrites a file, whoever owns it |
| `TransferNoLoss.DeliveredFilesSurvive` | droid_web_display/transfers/manager.py:490-527 | over every undisturbed run with one slot a delivered file keeps its bytes and no other download shares its name, late cancels included; without one the record stays as it is |
| `TransferNoLoss.CompletedOnlyByDelivery` | droid_web_display/transfers/manager.py:522-534 | a download becomes COMPLETED only in the very step that renames its part file |
| `TransferNoLoss.OneSlotKeepsEveryDownload` | droid_web_display/transfers/manager.py:490-527 | after every undisturbed run of a fresh service with one slot the invariant holds and completed downloads have their files, each its own |
| `TransferLimits.TwoSlotsLoseADownload` | droid_web_display/transfers/manager.py:490-527 | for every concurrency above one, a run that completes two downloads at the same path and keeps only the later bytes |
| `TransferLimits.DownloadsAreKeptExactlyWithOneSlot` | droid_web_display/transfers/manager.py:98-109 | every undisturbed run of a fresh service keeps completed downloads at files of their own if and only if the concurrency is one, for every capacity of two or more |
| `TransferLimits.ClosingLosesCompletedExactlyDuringMediaScan` | droid_web_display/transfers/manager.py:476-488 | what closing does to a task takes a record out of COMPLETED if and only if the task is refreshing the media index of an upload |
| `TransferLimits.RetryDuringCancelDoublesTheTask` | droid_web_display/transfers/manager.py:373-404 | why `Orderly` is needed: a run in which `cancel`, `retry`, the resumed `cancel` and a second `retry` leave one record with two unfinished tasks |
| `TransferLimits.RetryKeepsExactlyWithoutAWait` | droid_web_display/transfers/manager.py:387-404 | a retry of a retryable record keeps the invariant if and only if no `cancel` of that record is waiting |
| `TransferRuns.ANeverRunTaskLeavesItsRecordQueued` | droid_web_display/transfers/manager.py:373-385 | a run from a fresh service: a request whose task is cancelled before its first step is QUEUED with no task to run it |
| `TransferRuns.ARetryOverfillsTheQueue` | droid_web_display/transfers/manager.py:387-404 | a run from a fresh service: in a queue of one place, a retry makes a second request open |
| `TransferRuns.ClosingCancelsACompletedUpload` | droid_web_display/transfers/manager.py:464-488 | a run from a fresh service: an upload is verified and COMPLETED, and closing during its media scan makes it CANCELLED |
| `TransferManager.Manager.EnqueueDownload` | droid_web_display/transfers/manager.py:342-371 | queues the download on a free name, or refuses for capacity or a duplicate, as one step of the model |
| `TransferManager.Manager.EnqueueUpload` | droid_web_display/transfers/manager.py:314-340 | queues the upload, or refuses for capacity, as one step of the model |
| `TransferManager.Manager.DeviceReady` | droid_web_display/transfers/manager.py:490-498 | resolves the duplicate name again under the semaphore, before the first STAT |
| `TransferManager.Manager.ChunkReceived` | droid_web_display/transfers/manager.py:507-514 | appends to the part file and rewrites bytes and size as the progress callback does |
| `TransferManager.Manager.PullReturned` | droid_web_display/transfers/manager.py:514-534 | verification, rename and COMPLETED in one block, or the failure branch |
| `TransferManager.Manager.UploadStated` | droid_web_display/transfers/manager.py:464-476 | size-matches the uploaded file and completes the record, or fails it |
| `TransferManager.Manager.RemoveSpool` | droid_web_display/transfers/manager.py:480-488 | after the media scan the spool file goes and the task ends |
| `TransferManager.Manager.TaskCancelled` | droid_web_display/transfers/manager.py:435-436 | CancelledError at any suspension point marks the record and cleans its part file; a task that never ran leaves the record alone |
| `TransferManager.Manager.TaskRaised` | droid_web_display/transfers/manager.py:437-443 | any other exception fails the record and cleans its part file |
| `TransferManager.Manager.Cancel` | droid_web_display/transfers/manager.py:373-385 | refuses final records, cancels and waits for the task, or marks a record without one |
| `TransferManager.Manager.CancelResumed` | droid_web_display/transfers/manager.py:383-385 | marks the record when its task has ended, without looking whether it was retried |
| `TransferManager.Manager.Retry` | droid_web_display/transfers/manager.py:387-404 | requeues a retryable record with a new task, whatever the queue's length; an upload needs its spool file |
| `TransferManager.Manager.DiscardTask` | droid_web_display/transfers/manager.py:416-420 | drops the entry only if it still names the task that ended |
| `TransferManager.Manager.CancelSwallowed` | droid_web_display/transfers/adb_sync.py:222-250 | `asyncio.wait_for` in the device client returned its result: the request is gone, the task goes on |
| `TransferManager.Manager.UnderWayAreBounded` | droid_web_display/transfers/manager.py:422-434 | while the object is valid, which every block keeps, no more records are under way than there are slots |
| `TransferManager.Manager.UnderWayIsReachable` | droid_web_display/transfers/manager.py:381-383 | and each of them has the task in `_tasks` that a `cancel` reaches |
| `LocalFiles.ResolveDuplicate` | droid_web_display/transfers/paths.py:112-122 | the loop over numbered siblings finds the first free one, the path itself, or fails |
| `LocalFiles.FirstFreeIsLeast` | droid_web_display/transfers/paths.py:119-122 | the answer has the least free index, and there is none only when all 9999 are taken |
| `LocalFiles.RenameNeverReplaces` | droid_web_display/transfers/paths.py:112-122 | under RENAME the answer is a free path in the same directory |
| `LocalFiles.CandidatesDistinct` | droid_web_display/transfers/paths.py:118-120 | two indices give two names |
| `LoopFreedom.NoDownloadBouncesBack` | droid_web_display/transfers/monitor.py:367-391 | over every interleaving of scans, transfers, late cancels and edits that meets the hypotheses on the surroundings: if every delivery is of a download the monitor waits for, at a path no scan is about to copy, and no late `cancel` finds its version unhandled, then no version a download put into the watched folder is ever copied into the upload queue |
| `LoopFreedom.OnlyStrayDeliveriesBounceBack` | droid_web_display/transfers/monitor.py:367-391 | the same with deliveries of every kind, downloads the monitor did not start included: every version both delivered and sent is one of those off the monitor's books |
| `StrayVersions.APassMarksExactlyWhatIsCarried` | droid_web_display/transfers/monitor.py:608-633 | over a whole reconcile pass, with anything in between that leaves the path alone: a version on disk not handled before is handled then if and only if some entry carries a finished download to its path; for stray deliveries and for edits |
| `StrayVersions.AnUnmarkedVersionIsSent` | droid_web_display/transfers/monitor.py:538-602 | from every reachable state: a version not handled that nothing marks and nobody touches has been sent by the time it was seen often enough for long enough, or its next sighting sends it, unless a failed attempt still waits |
| `StrayVersions.AMarkedVersionIsNotSent` | droid_web_display/transfers/monitor.py:538-571 | the other half: once marked, it is not sent in any later scan while no other version is seen at its path |
| `LoopFreedom.CopyBouncesExactlyIfStray` | droid_web_display/transfers/manager.py:277-312 | the version a copy takes, which is the one on disk at that moment and not the one listed, is a delivered one if and only if it was delivered astray |
| `LoopFreedom.InitialInv` | droid_web_display/transfers/monitor.py:210-234 | a fresh monitor with a valid configuration satisfies the loop-freedom invariant, whatever files there are |
| `LoopFreedom.StepKeeps` | droid_web_display/transfers/monitor.py:367-391 | every block of a scan and every step around it keeps that invariant, tracking of outstanding downloads included; it rests on reconciling before the PC scan and on a single sighting never sufficing |
| `LoopFreedom.DeliveredFileIsNotQueued` | droid_web_display/transfers/monitor.py:538-571 | in every reachable state, observing a version delivered on time does not queue it |
| `LoopFreedom.HowAnIdIsLost` | droid_web_display/transfers/monitor.py:484-493 | a pending transfer id disappears from the Android table if and only if its source is seen with another fingerprint, an upload lands on it, trimming drops it, or the transfer ended unsuccessfully |
| `MonitorLimits.ForeignDownloadBouncesBack` | droid_web_display/api/app.py:973-988 | a run from a fresh monitor, for every visible name and every version: a download started through the API into the watched folder is sent back two scans later |
| `MonitorLimits.LateDeliveryBouncesExactlyIfTheListedVersionIsDue` | droid_web_display/transfers/manager.py:288-298 | a download that lands at a path listed and not yet copied takes the place of the listed version in the copy if and only if that version is due, and can then be sent |
| `MonitorLimits.DeliveryUnderTheCopyBouncesExactlyIfAsLong` | droid_web_display/transfers/manager.py:288-307 | a download that lands between the first stat and the copy of its path is sent if and only if it is as long as the version stated before and that version is back when the file is stated again |
| `MonitorLimits.LateDownloadBouncesBack` | droid_web_display/transfers/monitor.py:573-602 | an undisturbed run from a fresh monitor in which a download it waits for lands there and is sent back |
| `MonitorLimits.CancelledDownloadBouncesBack` | droid_web_display/transfers/manager.py:383-385 | an undisturbed run from a fresh monitor: a download delivered on time is cancelled late, reconciled as failed, never marked and sent back |
| `MonitorLimits.SeenBeforeItIsMarked` | droid_web_display/transfers/monitor.py:608-633 | an undisturbed run, contrary to the design note: a download that finishes during a scan is seen by that scan's PC side before it is marked |
| `MonitorLimits.AnEditIsLost` | droid_web_display/transfers/monitor.py:608-633 | a run from a fresh monitor: an edit made before the download's entry is reconciled counts as handled without having been sent |
| `SwallowedEdits.EditIsSwallowedExactlyIfFound` | droid_web_display/transfers/monitor.py:608-633 | reconciling an entry marks a version not yet handled if and only if it finds it at the destination of the entry's finished download |
| `SwallowedEdits.EditsOfDownloadedFilesAreSwallowed` | droid_web_display/transfers/monitor.py:608-633 | contrary to the class comment at line 40, over every run in which an entry keeps a finished download and what is written to its destination is new, no version of that file is sent |
| `SwallowedEdits.AFoundEditIsNeverQueued` | droid_web_display/transfers/monitor.py:608-633 | the version found then is not queued in any later scan, whatever becomes of the entry; the entry keeps its transfer |
| `MonitorModel.PartNamesAreIgnored` | droid_web_display/transfers/monitor.py:900-902 | the name a download is received under is never watched |
| `MonitorModel.TextIsInjective` | droid_web_display/transfers/monitor.py:887-893 | a fingerprint string determines path, size and modification time |
| `MonitorModel.RetryDelays` | droid_web_display/transfers/monitor.py:895-897 | after a failure the waits are 30, 60, 120 and then always 240 seconds; the cap of 300 is never reached |
| `MonitorSystem.TrimmingWithinBoundsEvictsNothing` | droid_web_display/transfers/monitor.py:857-885 | up to 5000 fingerprints and 500 settled entries trimming changes nothing |
| `MonitorSystem.TrimmingKeepsMarks` | droid_web_display/transfers/monitor.py:857-885 | up to 5000 fingerprints on either side trimming drops no mark, however many entries are settled |
| `MonitorTheorems.QueuedOnlyWhenStable` | droid_web_display/transfers/monitor.py:504-511 | an observation queues a file only if its last sightings, at least as many as configured, showed one size and time, the first of them at least the configured seconds ago, and no retry time lies ahead |
| `MonitorTheorems.QueuedFilesWereStable` | droid_web_display/transfers/monitor.py:479-571 | the same over every run, in both directions, against the full log of sightings |
| `MonitorTheorems.InitialStability` | droid_web_display/transfers/monitor.py:210-234 | a fresh monitor satisfies its invariant |
| `RetryWaits.DownloadAttemptsAreSpaced` | droid_web_display/transfers/monitor.py:520-528 | over every run: an Android version whose attempt failed, at the queue or as a transfer, is not queued before the delay of its new count of failures has passed, 30 to 240 seconds, while no other version is seen at its path, no mark is evicted and its entry stays |
| `RetryWaits.UploadAttemptsAreSpaced` | droid_web_display/transfers/monitor.py:584-594 | the same for a PC version, a failed copy included |
| `RetryWaits.FailuresWait` | droid_web_display/transfers/monitor.py:895-897 | every failed attempt asks for a wait of 30 to 240 seconds, that of the new count of failures |
| `RetryWaits.AndroidStaysAtRest` | droid_web_display/transfers/monitor.py:479-511 | no step brings a version forward: handled or waiting without a transfer until some time, it stays so until then |
| `RetryWaits.PcStaysAtRest` | droid_web_display/transfers/monitor.py:538-571 | the same on the PC side |
| `RetryWaits.CopyingEntryStays` | droid_web_display/transfers/monitor.py:538-602 | while a file is copied its entry shows the listed version and has no transfer |
| `RetryWaits.AChangedFileDropsTheWait` | droid_web_display/transfers/monitor.py:484-493 | a new version of a file starts with no failures and no wait |
| `MonitorTheorems.HandledIsNeverQueued` | droid_web_display/transfers/monitor.py:498-501 | a version once handled stays handled and is not queued in any later scan, in either direction, whatever settled entries trimming drops, as long as it drops no mark |
| `MonitorTheorems.BaselineIsNeverQueued` | droid_web_display/transfers/monitor.py:401-424 | an Android file present at the baseline is not queued in any later scan while its size and time stay |
| `MonitorTheorems.PcBaselineIsNeverQueued` | droid_web_display/transfers/monitor.py:449-468 | the same for a PC file |
| `MonitorTheorems.ReconcileCountsOnce` | droid_web_display/transfers/monitor.py:608-647 | a transfer is counted once, only after a size-matched COMPLETED; its source is asked to be deleted at most once, and only then |
| `MonitorTheorems.CountsHoldOverRuns` | droid_web_display/transfers/monitor.py:608-647 | over every run that evicts no mark the counters are the sizes of the sets of transfers counted and queued, and completed never exceeds queued |
| `MonitorTheorems.InitialCount` | droid_web_display/transfers/monitor.py:210-234 | a fresh monitor satisfies its invariant |
| `AutoDownloadMonitor.Monitor.ReconcileDownload` | droid_web_display/transfers/monitor.py:608-647 | one entry of the loop, with its counters and its marks, as the model's step |
| `AutoDownloadMonitor.Monitor.ReconcileUpload` | droid_web_display/transfers/monitor.py:649-699 | one entry of the upload loop up to the STAT, as the model's step |
| `AutoDownloadMonitor.Monitor.MarkLocalProcessed` | droid_web_display/transfers/monitor.py:701-718 | marks the version now at the path and replaces its entry |
| `AutoDownloadMonitor.Monitor.ScanAndroid` | droid_web_display/transfers/monitor.py:401-424 | the baseline loop writes exactly the model's marks and entries, or the scan goes on |
| `AutoDownloadMonitor.Monitor.ScanPc` | droid_web_display/transfers/monitor.py:435-468 | the same on the PC side |
| `AutoDownloadMonitor.Monitor.ObserveAndroidEntry` | droid_web_display/transfers/monitor.py:479-511 | leaves the observed entry and says exactly when to queue the file |
| `AutoDownloadMonitor.Monitor.ObservePcEntry` | droid_web_display/transfers/monitor.py:538-571 | the same on the PC side |
| `AutoDownloadMonitor.Monitor.DownloadAnswered` | droid_web_display/transfers/monitor.py:520-536 | records the transfer id and counts, or the failure and its retry time |
| `AutoDownloadMonitor.Monitor.SweepTable` | droid_web_display/transfers/monitor.py:430-433 | the loop marks exactly the pending and baseline entries that are gone as disappeared |
| `AdbSyncTheorems.SendRoundTrip` | droid_web_display/transfers/adb_sync.py:160-192 | a receiver written from SYNC.TXT recovers path (commas included), mode, file and time from what `push` writes, for every file and chunk size, and each frame carries 1 to 65536 bytes |
| `AdbSyncTheorems.UploadRoundTrip` | droid_web_display/transfers/adb_sync.py:63-84 | the same for the whole connection, host requests included: the server also recovers the device |
| `AdbSyncTheorems.ServerReadsFrames` | droid_web_display/transfers/adb_sync.py:174-181 | the frames written decode to their concatenation and the time, whatever follows |
| `AdbSyncTheorems.SpecSplitsAtItsLastComma` | droid_web_display/transfers/adb_sync.py:171-173 | splitting path and mode at the last comma gives both back |
| `AdbSyncTheorems.PiecesRebuild` | droid_web_display/transfers/adb_sync.py:176-178 | the pieces read from the file concatenate to it |
| `AdbSyncTheorems.PushProgress` | droid_web_display/transfers/adb_sync.py:176-180 | reported totals strictly increase, stay within the file and end at its length |
| `AdbSyncTheorems.HostRoundTripExactlyUpTo64k` | droid_web_display/transfers/adb_sync.py:194-197 | a host request is read back if and only if its payload is at most 0xFFFF bytes; the client does not check |
| `AdbReplies.RecvIsExact` | droid_web_display/transfers/adb_sync.py:131-149 | `pull` reads to the end exactly the legal replies, takes their bytes and no more, and holds exactly the file sent, whatever frames it came in |
| `AdbReplies.CutFileIsRefused` | droid_web_display/transfers/adb_sync.py:131-149 | a RECV reply cut at any byte ends in an error |
| `AdbReplies.PullSucceedsExactly` | droid_web_display/transfers/adb_sync.py:117-156 | `pull` succeeds if and only if the source is a regular file and a whole legal reply carries as many bytes as STAT promised; then the local file is the one sent |
| `AdbReplies.ListIsExact` | droid_web_display/transfers/adb_sync.py:86-104 | `list` succeeds on exactly the legal replies and returns their entries in order, without "." and "..", leaving what follows |
| `AdbReplies.CutListingIsRefused` | droid_web_display/transfers/adb_sync.py:86-104 | a LIST reply cut at any byte ends in an error |
| `AdbReplies.PushSucceedsExactly` | droid_web_display/transfers/adb_sync.py:182-190 | `push` succeeds if and only if the requests and the upload are answered OKAY, the last answer is eight bytes long, and path and time fit 32 bits |
| `AdbWire.Le32RoundTrip` | droid_web_display/transfers/adb_sync.py:212-214 | 32-bit little-endian integers are read back as written |
| `AdbWire.FromLe32RoundTrip` | droid_web_display/transfers/adb_sync.py:93 | every four bytes are the encoding of the integer read from them |
| `AdbSync.Connection.ReadExactly` | droid_web_display/transfers/adb_sync.py:222-231 | takes exactly n bytes, or uses up a stream that ends early and reports both lengths |
| `AdbSync.Connection.HostRequest` | droid_web_display/transfers/adb_sync.py:194-209 | writes length and payload; the four kinds of answer |
| `AdbSync.Connection.ReadListing` | droid_web_display/transfers/adb_sync.py:90-104 | the loop over entries computes the listing of the reply |
| `AdbSync.Connection.ReceiveFile` | droid_web_display/transfers/adb_sync.py:131-149 | the loop over frames writes the concatenation, reports the running totals and ends as the reply says |
| `AdbSync.Connection.SendFile` | droid_web_display/transfers/adb_sync.py:175-180 | the loop over the file writes its frames and reports the running totals |
| `AdbSync.Client.constructor` | droid_web_display/transfers/adb_sync.py:50-61 | the chunk size is clamped to 4096 through 65536 |
| `AdbSync.Client.List` | droid_web_display/transfers/adb_sync.py:86-104 | the whole operation: connection, request, reply |
| `AdbSync.Client.Stat` | droid_web_display/transfers/adb_sync.py:106-115 | the whole operation, with its errors |
| `AdbSync.Client.Pull` | droid_web_display/transfers/adb_sync.py:117-158 | the result, the file left behind and the progress, for every pair of replies, errors included |
| `AdbSync.Client.Push` | droid_web_display/transfers/adb_sync.py:160-192 | the bytes written, the progress and the result, for every reply |
| `SessionTheorems.OneActiveSessionPerDevice` | droid_web_display/scrcpy/session.py:326-386 | in every run whose RUNNING writes are safe each device has at most one active session, the one `_serial_index` names |
| `SessionTheorems.StepKeeps` | droid_web_display/scrcpy/session.py:326-386 | every claim, RUNNING or FAILED write, stop and retirement keeps that invariant |
| `SessionTheorems.RunningWriteKeepsExactlyWhenSafe` | droid_web_display/scrcpy/session.py:383 | the unconditional RUNNING write keeps it if and only if the session is unregistered or still named for its device |
| `SessionTheorems.ActiveStartsAreSafe` | droid_web_display/scrcpy/session.py:383 | the write is safe whenever the session is still active |
| `SessionTheorems.RunningOverAStoppedSession` | droid_web_display/scrcpy/session.py:383 | a run in which a stopped session's start succeeds late and two sessions of one device are active |
| `SessionTheorems.ConflictsAreExact` | droid_web_display/scrcpy/session.py:326-343 | a start is refused if and only if the device has an active session |
| `SessionTheorems.NewerClaimsSurvive` | droid_web_display/scrcpy/session.py:593-595 | retiring a session never drops the claim of another |
| `SessionTheorems.RetirementBoundsTheBacklog` | droid_web_display/scrcpy/session.py:584-616 | each retirement leaves at most 20 finished sessions, drops no unfinished one, and drops none newer than a finished one it keeps |
| `SessionTheorems.BacklogIsBounded` | droid_web_display/scrcpy/session.py:584-616 | over every run the finished sessions are at most 20 plus the failed starts still cleaning up |
| `SessionPruning.PruneKeepsTheNewest` | droid_web_display/scrcpy/session.py:598-616 | exactly the newest finished sessions stay, all unfinished ones do, in their old order |
| `SessionPruning.DroppedAreTheOldest` | droid_web_display/scrcpy/session.py:610-616 | the dropped sessions are distinct, finished, as many as are in excess, and the oldest |
| `SessionManager.Manager.Claim` | droid_web_display/scrcpy/session.py:326-360 | refuses exactly on a conflict, else registers the session and names it for its device |
| `SessionManager.Manager.FinishStart` | droid_web_display/scrcpy/session.py:383-385 | writes RUNNING whatever the state |
| `SessionManager.Manager.BeginStop` | droid_web_display/scrcpy/session.py:561-573 | finds the session; stops it unless it is stopping or finished |
| `SessionManager.Manager.EndStop` | droid_web_display/scrcpy/session.py:575-582 | the final state and the retirement in one block |
| `SessionManager.Manager.RetireSession` | droid_web_display/scrcpy/session.py:584-596 | releases the claim if it is this session's and prunes |
| `SessionManager.Manager.PruneTerminated` | droid_web_display/scrcpy/session.py:598-616 | the collecting and dropping loops compute the model's pruning |
| `SessionManager.HolderStaysUntilItDetaches` | droid_web_display/scrcpy/session.py:108-123 | the browser that holds a channel keeps it until it releases it itself, whatever others claim or release |
| `SessionManager.ScrcpyChannel.Claim` | droid_web_display/scrcpy/session.py:108-117 | refused if and only if some browser holds the channel |
| `SessionManager.ScrcpyChannel.Release` | droid_web_display/scrcpy/session.py:119-123 | only the holder's release has an effect |
| `PrefixedReader.StepRefinesExactly` | droid_web_display/scrcpy/session.py:58-92 | each call answers as one stream of prefix and source could, if and only if it is not cancelled after taking prefix bytes |
| `PrefixedReader.RunRefinesOneStream` | droid_web_display/scrcpy/session.py:58-92 | every sequence of calls without such a cancellation is one the plain stream could have answered |
| `PrefixedReader.NothingIsLostOrRepeated` | droid_web_display/scrcpy/session.py:58-92 | the bytes handed out, partial data of IncompleteReadError included, and those to come are prefix then source, each once and in order |
| `PrefixedReader.ACancelledCallLosesThePrefix` | droid_web_display/scrcpy/session.py:74-89 | the excluded case: a cancelled `readexactly` has dropped the prefix byte it took |
| `PrefixedReader.PrefixedStreamReader.Read` | droid_web_display/scrcpy/session.py:58-72 | `read` for zero, negative and positive counts |
| `PrefixedReader.PrefixedStreamReader.ReadExactly` | droid_web_display/scrcpy/session.py:74-89 | `readexactly` with the full partial data in its error |
| `PrefixedReader.PrefixedStreamReader.AtEof` | droid_web_display/scrcpy/session.py:91-92 | at the end if and only if the prefix is used up and the reader under it has ended; never with bytes still to come |
| `Lockout.WrongPinsAreBounded` | droid_web_display/auth.py:351-373 | in any run of T seconds from a fresh state at most 8 * (1 + floor(T / 300)) wrong PINs of one client are compared, whatever others do |
| `Lockout.EpisodeIsBounded` | droid_web_display/auth.py:362-373 | a counting episode never holds more than 8 failures |
| `Lockout.EightInOneWindow` | droid_web_display/auth.py:351-373 | the bound is met: eight within 210 seconds |
| `Lockout.LockDoubles` | droid_web_display/auth.py:369-372 | locks last 30, 60, 120, then 240 seconds; the cap of 300 is never reached |
| `SessionTokens.LetInExactlyTheLiving` | droid_web_display/auth.py:178-200 | `authenticate` lets in a token if and only if it belongs to an unrevoked, unexpired session |
| `SessionTokens.RefusalIsRecorded` | droid_web_display/auth.py:420-434 | a refusal for expiry or revocation leaves the session revoked |
| `SessionTokens.DeadStaysDead` | droid_web_display/auth.py:178-200 | over every run a dead token stays refused |
| `SessionTokens.RefusedOnceRefusedForEver` | droid_web_display/auth.py:178-200 | a token refused once is refused ever after |
| `SessionTokens.EarlierTokensAreRefused` | droid_web_display/auth.py:247-276 | after `change_pin` or `revoke_all` no token issued before is ever accepted |
| `SessionTokens.EverySessionEnds` | droid_web_display/auth.py:247-276 | changing the PIN or revoking all ends every session |
| `SessionTokens.FailedSetupChangesNothing` | droid_web_display/auth.py:120-143 | a failed setup leaves the state as before, whatever failed |
| `SessionTokens.SetupFixesThePin` | droid_web_display/auth.py:120-143 | after a setup its PIN, and no other, verifies |
| `SessionTokens.RunKeepsSound` | droid_web_display/auth.py:310-349 | over every run the stored hashes are those of issued tokens, each at most once |
| `Authentication.AuthService.Setup` | droid_web_display/auth.py:108-143 | writes the PIN first; a failed call leaves both fields as it found them |
| `Authentication.AuthService.Login` | droid_web_display/auth.py:145-176 | lockout, comparison, failure record and session in the code's order |
| `Authentication.AuthService.Authenticate` | droid_web_display/auth.py:178-200 | the sweep and the search loop answer as the model's store does, for both clock readings |
| `Authentication.AuthService.Logout` | droid_web_display/auth.py:216-224 | revokes the session, again if it was revoked |
| `Authentication.AuthService.Revoke` | droid_web_display/auth.py:236-245 | revokes once; says whether it did |
| `Authentication.AuthService.RevokeAll` | droid_web_display/auth.py:247-261 | guarded by the lockout; revokes and counts the living sessions |
| `Authentication.AuthService.ChangePin` | droid_web_display/auth.py:263-276 | guarded by the lockout; new PIN and revocation together, nothing on an invalid PIN |
| `Authentication.AuthService.CleanupExpired` | droid_web_display/auth.py:420-434 | the loop revokes exactly the expired sessions and says whether it changed any |
| `Authentication.AuthService.RevokeSessions` | droid_web_display/auth.py:254-258 | the loop revokes every living session and counts them |
| `Authentication.AuthService.CheckLockout` | droid_web_display/auth.py:351-360 | refuses while locked; forgets an episode older than the window |
| `Authentication.AuthService.RecordFailure` | droid_web_display/auth.py:362-373 | counts the failure and sets the lock it reports |
| `Authentication.AuthService.VerifyPinGuarded` | droid_web_display/auth.py:398-411 | the lockout protects the comparison whenever a client is named |
| `TextChunks.Chunks` | apps/web-client/src/input.ts:104-127 | fails exactly for a limit that is not positive or a symbol above it; else the chunks join to the text, are not empty, stay within the limit, split no symbol, and no split that keeps symbols whole is shorter |
| `TextChunks.CutSymbols` | apps/web-client/src/input.ts:112-126 | the loop: chunks and the growing rest form such a shortest split, or some symbol does not fit |
| `TextChunks.GreedyStaysAhead` | apps/web-client/src/input.ts:112-124 | a split whose chunks cannot take the next symbol has no more chunks than any other within the limit |
| `TextChunks.FullGroupsAreShortest` | apps/web-client/src/input.ts:112-126 | such a split is a split of the text, and the shortest |
| `TextChunks.SplitsJoinToTheText` | apps/web-client/src/input.ts:112-126 | cutting between symbols loses nothing |
| `TextChunks.SymbolsOfSpell` | apps/web-client/src/input.ts:112 | iterating over consecutive symbols of a text yields just those symbols, unpaired surrogates included |
| `TextChunks.CuttingAPairCanBeShorter` | apps/web-client/src/input.ts:112-124 | why symbols must be kept whole: at limit 5 a cut through a surrogate pair needs two chunks where greedy needs three |
| `PathTheorems.AcceptedExactly` | droid_web_display/transfers/paths.py:66-73 | a path is accepted if and only if it is well formed, absolute and, rewritten, inside a storage root; the result prints the rewritten components |
| `PathTheorems.NormalForm` | droid_web_display/transfers/paths.py:66-73 | an accepted path is printed absolute, without empty or "." components, inside an allowed root |
| `PathTheorems.FreeOfParentExactly` | droid_web_display/transfers/paths.py:37-58 | an accepted path is free of ".." if and only if it did not come in under /mnt/media_rw with a last component of ".." and a newline |
| `PathTheorems.IdempotentExactly` | droid_web_display/transfers/paths.py:66-73 | normalising again changes nothing under the same condition, and fails otherwise |
| `PathTheorems.ANewlineHidesTheParent` | droid_web_display/transfers/paths.py:55-57 | the input that shows it: the newline is dropped after the check for ".." |
| `PathTheorems.DoubleSlashIsRefused` | droid_web_display/transfers/paths.py:40-43 | two leading slashes are kept and never accepted |
| `PathTheorems.JoinedIsOneBelow` | droid_web_display/transfers/paths.py:95-98 | joining succeeds for every file name and every accepted directory but that form; the result is the directory and one component, never a protected root |
| `PathTheorems.SanitizedIsOneName` | droid_web_display/transfers/paths.py:101-109 | whatever the file name, what is left is one component of at most 240 characters, without separators or control characters, neither "." nor ".." |
| `PathTheorems.RootsAreTheShallowest` | droid_web_display/transfers/paths.py:76-88 | the protected roots are exactly the accepted paths of two components |
| `PathNames.NamesOfTail` | droid_web_display/transfers/paths.py:43 | printing components and reading them back gives the same components |
| `PathNames.CanonicalNames` | droid_web_display/transfers/paths.py:37-58 | the rewritings of the string are these rewritings of its components |
| `AndroidPaths.CanonicalizeAndroidPath` | droid_web_display/transfers/paths.py:37-58 | the loops over the alias tables compute the canonical path or the right error |
| `AndroidPaths.SanitizeFilename` | droid_web_display/transfers/paths.py:101-109 | computes the safe name; it is one ordinary component |
| `DeviceTheorems.DevicesAreRecovered` | droid_web_display/adb/devices.py:41-97 | for every list of devices given by serial words, state words and key-value pairs, parsing what adb prints gives back, in order, each device whose serial does not look like a server message: its serial, the name of its state, the last value of each key and no other key, and its connection by a rule on serial and pairs |
| `DeviceTheorems.ADeviceIsLostExactlyIfItLooksLikeAMessage` | droid_web_display/adb/devices.py:58-59 | a device is missing if and only if its serial starts with "*" or "adb server" |
| `DeviceTheorems.ParseInvertsPrint` | droid_web_display/adb/devices.py:41-97 | the same for rows whose state is followed by any tokens without a state, whatever state names the serial holds |
| `DeviceTheorems.StateIsFound` | droid_web_display/adb/devices.py:14-28 | the state written behind a serial is found there, widest phrase first, if no state stands further right |
| `DeviceTheorems.FieldsAreRead` | droid_web_display/adb/devices.py:73-82 | printed fields are read back, the last of a key winning, and there are no others |
| `DeviceTheorems.FieldsHoldNoState` | droid_web_display/adb/devices.py:14-28 | key and value tokens never look like a state |
| `DeviceList.LocateState` | droid_web_display/adb/devices.py:14-28 | the nested loops find the rightmost state, the widest phrase first |
| `DeviceList.ParseAdbDevices` | droid_web_display/adb/devices.py:41-97 | the loop over lines computes the parsed list |
| `MediaStore.DistinctPicturesAreRecovered` | droid_web_display/adb/media_store.py:16-50 | every list of distinct rows with clean paths is recovered up to the limit, even when paths hold the separators |
| `MediaStore.ParseInvertsPrint` | droid_web_display/adb/media_store.py:16-50 | with repeated paths the first row of each stays |
| `MediaStore.PictureIsRead` | droid_web_display/adb/media_store.py:29-44 | a printed row is read back |
| `MediaStore.ParseMediaStoreImages` | droid_web_display/adb/media_store.py:16-50 | the loop computes the parsed list, at most the limit and with distinct paths |
| `Texts.RPartitionAt` | droid_web_display/adb/media_store.py:30-33 | a separator whose first character stands nowhere behind it is the last one |

## Left out

- `clear_history`, `configure` and `start`/`close` of the monitor: a run lies between two of them.
- Eviction: trimming is a relation. The run theorems allow any settled entry to go but assume that no mark does, which holds up to 5000 fingerprints on either side; loop freedom also needs the entries of downloads not reconciled yet, the waits the entry of the waiting version.
- `_scan_once` without a device, and `force` without an enabled direction beyond the branch of the Android scan.
- Saving and reloading state files, process restart and the INTERRUPTED state it gives; a failing `_persist` other than in `setup`.
- `spool_upload`, the limits and the file handling of `spool_local_file`, and the loop of `_resolve_remote_duplicate`: the spool file and the resolved remote path are inputs; of a local copy the model keeps the version taken and the comparison of size and time around it.
- The last block of `TransferManager.close`, which marks what is left as interrupted.
- Part files, spool files and named files are different kinds of path, so a part name never collides with a user's file; transfer, session and task ids and tokens are fresh.
- SHA-256 and PBKDF2 are injective constructors; a stored PIN record is never malformed.
- Audit log, labels, CSRF tokens, user agents, notifications, transfer speed and other fields nothing here depends on.
- Timeouts and lost connections: a stream that falls silent is one that ends there; a failing or stalled write is not modelled, and of a cancellation inside the sync client only that it may be swallowed.
- UTF-8 decoding with replacement: sync paths, names and messages are bytes.
- The lenient forms of Python's `int`: a sign, blanks, underscores or a prefix in a host failure's length, underscores and non-ASCII digits in picture rows.
- Unicode case mapping: only ASCII letters fold, which decides the same here because no other letter folds into the words compared; `isalnum` is a parameter.
- Windows path semantics: file names are taken apart as on POSIX.
- A local file that changes while it is pushed; it is one sequence of bytes.
- AdbWire.Listed: entries are filtered by the bytes of their names, which is what the decoded names amount to.
- MonitorModel.Core: the serial, folders, profile and names of the configuration; validation keeps only the ranges the theorems use.
- LoopFreedom.NoDownloadBouncesBack: assumes of the surroundings, as `Undisturbed` says, that a source keeps size and time until the monitor has reconciled the end of its download, that no upload lands on it meanwhile, that trimming drops neither a mark nor the entry of such a source, that a finished download has a modification time of its own, and that a delivered version is not put back before it counts as handled or while its path waits to be copied; and that nothing strays, without which it fails (`ForeignDownloadBouncesBack`, `LateDownloadBouncesBack`, `CancelledDownloadBouncesBack`).
- SwallowedEdits.EditsOfDownloadedFilesAreSwallowed: assumes that what is written to the destination is a new version each time; a version deleted and put back between two scans can be seen twice.
- A local file that changes while it is copied: a copy is one version of the file, torn copies are not modelled.
- LoopFreedom.NoDownloadBouncesBack: the other direction is not claimed, because an uploaded file is visible on the phone before its record is COMPLETED.
- StrayVersions.APassMarksExactlyWhatIsCarried: assumes that no download that went to the path is cancelled late during the pass itself.
- TransferNoLoss.NoDownloadIsLost: assumes other programs leave the files of completed downloads and the names of running ones alone.
- SessionTheorems.OneActiveSessionPerDevice: assumes safe RUNNING writes; `RunningWriteKeepsExactlyWhenSafe` says exactly which are.
- Sessions are values keyed by id rather than shared objects; their processes, channels and diagnostics are not modelled.
- TextChunks.Chunks: a limit that is not an integer, and optimality against splits that cut a surrogate pair, which fails (`CuttingAPairCanBeShorter`).
- HTTP routes, WebSocket relays, desktop host, browser user interface, TLS, network policy, packaging and release tooling.
