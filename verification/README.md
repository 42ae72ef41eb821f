# Verified model of goaria

goaria is a download engine that speaks the aria2 RPC protocol. This project
models the parts of it whose correctness is hardest to see from the code, and
proves what they promise. `dafny verify dfyconfig.toml` checks everything.

- **Download lifecycle.** `Lifecycle*.dfy` make every critical section of the
  engine one step of a transition system; cancelling an old run and sending the
  wake token are separate later steps, and the goroutines that are still running
  are part of the state. `LifecycleInvariant.dfy`, `LifecycleSteps.dfy`,
  `LifecycleFinish.dfy` and `LifecycleRuns.dfy` prove what every step keeps;
  `LifecycleTheorems.dfy` states the results over whole executions;
  `LifecycleStatuses.dfy` says what each status means, `LifecycleQueue.dfy` where
  requests put a download in the queue, `LifecycleResults.dfy` which results are
  remembered, `LifecycleRestarts.dfy` what a restart keeps reserved, and
  `LifecyclePaths.dfy`, with `Paths.dfy`, which output path is used.
  `Engine.dfy` holds the engine's fields and proves each method to be its step.
- **Output-path reservations.** `Reservations.dfy`: the two-way index, batch
  updates, and the union-then-collapse of a torrent restart.
- **Segmented HTTP transfer.** `Chunks.dfy`, `Bitfield.dfy`, `Progress.dfy`,
  `Controller.dfy`, `ContentRange.dfy`, `CopyLoop.dfy`, `RangeDownload.dfy` and
  `Segmented*.dfy`: the partition into ranges, the loop with its retries and its
  adaptive limit, byte accounting and the bitfield. Workers are an adversary.
- **Session file and options.** `Strings.dfy`, `Session.dfy`,
  `SessionLines.dfy`, `SessionRoundTrip.dfy`, `OptionLayers.dfy`, `FinalizedIndexes.dfy`, and
  `DeferredSave.dfy` for the timer and wait-group protocol of queued saves.
- **Smaller protocols.** `RateLimit.dfy`, `Torrent.dfy`, `WebSocketClose.dfy`.

State machines are values with pure steps, so that lemmas can quantify over whole
executions. Where the program updates fields in place there is also a class whose
methods are proved to perform those steps.

## Where the code does not do what one might expect

- Removing a download that waits or is paused and whose last run has ended with
  retained reservations leaves its keys reserved, with no run to release them until
  a download with the same gid is added and runs. `LifecycleLeak.StepAccounts`
  shows that this removal is the only step that does so, and
  `LifecycleLeakExample.LeakedReservation` is a run.
- An option change is compared with the directory and name shown, which publishing a
  path has overwritten with the parts of that path, and not with the options in
  force. Setting a name to the one shown can therefore move a download without
  being noticed: the old path is kept and the next run uses it, although the
  options lead elsewhere. `LifecyclePaths.StepFresh` shows that this is the only
  way, `LifecyclePaths.ShownNameAlone` when the path is then out of place, and
  `LifecycleStaleExample.StalePathAtInput` is a run.
- A range whose bytes arrived but whose file fails to close is returned without
  the byte count to take back, and such an error is retryable (the system error
  inside it satisfies the network-error interface). The bytes stay counted while
  the range is fetched again. `SegmentedConservation.StepConserves` shows that
  nothing else disturbs the counter.
- The session writer accepts option keys that start with `#` and lists of fewer
  than two items, and a line of URIs longer than the scanner takes. The first are
  read as comments, the second come back as texts or not at all, the third makes
  the whole session unreadable. `SessionRoundTrip.ReadsBack` and
  `SessionRoundTrip.UnchangedIff` give the exact conditions; `CommentKeyIsLost`,
  `ShortListBecomesText`, `EmptyListIsLost` and `LongUriIsUnreadable` are inputs.
- A session saved again after a restore differs from the first exactly when
  save-session was an explicit option (`OptionLayers.SaveAgainIff`, with the input
  `OptionLayers.SecondSaveDiffers`).
- A WebSocket handler that cannot set its read deadline returns between tracking
  the connection and deferring its clean-up, so the connection stays listed, and
  no other does (`WebSocketClose.WaitIsFinal`); the closer still closes it
  (`WebSocketClose.StillListed` is such a run).

## Model

| member | source | states |
|---|---|---|
| `LifecycleTheorems.LiveRuns` | engine_scheduler.go:30-170 | In every state of every interleaving `active` is exactly the set of gids of live runs, live runs have distinct gids, and each run's context is its own download's, also when a pruned gid is added again while its old run exits |
| `LifecycleTheorems.Partition` | engine_scheduler.go:124-297 | Queue without duplicates holding only waiting downloads (all of them before shutdown); active downloads have a live run and are not queued; stopped list, stopped set and terminal downloads coincide |
| `LifecycleTheorems.SupersededRunsStop` | engine.go:718-734 | A live run whose download is no longer active has been canceled, or the caller that superseded it has still to cancel it |
| `LifecyclePaths.StepFresh` | engine.go:633-645 | From any reachable state in which a download's path is for its options, a step leaves a stale path if and only if it is an option change that sets directory or name only to values already shown, one of which is not the option in force |
| `LifecyclePaths.ChangeFresh` | engine.go:633-645 | The same for the option change itself: the comparison with what is shown misses exactly these moves |
| `LifecyclePaths.NoStalePath` | engine_scheduler.go:97-106 | In every execution without such a change, a queued download that is not running holds only a path chosen for, and named by, the directory and name options in force |
| `LifecyclePaths.ShownNameAlone` | engine.go:633-645 | When the name alone is set to the one shown, the kept path is still where the options lead if and only if the directory in force is the one shown |
| `LifecycleStaleExample.UnnoticedChange` | download_progress.go:17-33 | For every published path whose last element is not the name option: a legal execution that ends with the download queued under the new options and still holding the old path |
| `LifecycleStaleExample.StalePath` | engine.go:633-645 | The same for any absolute name option: the options then lead elsewhere and the next run would use the old path |
| `LifecycleStaleExample.StalePathAtInput` | engine.go:633-645 | The same at one input: directory /a, name /b/f, and then the name set to f |
| `Paths.AbsoluteName` | download_util.go:218-235 | An absolute name leads to itself whatever the directory, and its parts are what is shown |
| `Paths.SimpleResolves` | download_util.go:218-235 | A plain name leads to its directory, a slash and the name, with what renaming appends |
| `Paths.ShownNameLeadsBack` | download_util.go:218-235 | With the name shown as name option, the options lead to the published path exactly from the directory shown |
| `LifecycleTheorems.NoLostWakeUp` | engine_scheduler.go:18-28 | Before shutdown, with a free slot and an idle queued gid, the token is present, just taken, or still to be sent by somebody who left a critical section |
| `LifecycleTheorems.WakeUpStarts` | engine_scheduler.go:18-68 | From any such state at most four of the engine's own steps lead to exactly the first startable gids running |
| `LifecycleTheorems.StepKeepsKeys` | engine_scheduler.go:81-232 | No step but the end of a gid's own run takes a reserved key from that gid |
| `LifecycleTheorems.KeysStay` | download_util.go:385-450 | Between any two states of an execution without an end of the gid's run, its reserved keys stay its own, across pause, restart, removal, pruning and gid reuse |
| `LifecycleTheorems.LiveRunsHoldDifferentKeys` | download_util.go:293-450 | Two live runs never hold the same output key |
| `LifecycleTheorems.RunReservation` | download_util.go:374-423 | A run gets the keys it asks for, all of them if they are distinct and free of other gids, and otherwise nothing changes |
| `LifecycleTheorems.RunEndReservations` | engine_scheduler.go:95-160 | When a run ends its gid keeps exactly the replacement set of a pending torrent transition, its old set for another retained restart, and nothing otherwise; the replacement is never refused |
| `LifecycleTheorems.PruneExact` | engine_scheduler.go:257-297 | Pruning keeps every result that is to be spared, keeps the newest unprotected ones up to the limit, and keeps the order of both |
| `LifecycleFinish.NeverStale` | engine_scheduler.go:81-94 | A live run always finds its own context in its download, so the early return for stale runs is unreachable |
| `LifecycleFinish.CollapseSucceeds` | engine_scheduler.go:108-118 | The replacement of a pending transition never fails, leaves exactly the replacement keys and moves no other gid's keys |
| `LifecycleFinish.FinishKeeps` | engine_scheduler.go:81-170 | The end of any live run, with any outcome, keeps the lifecycle invariant |
| `LifecycleSteps.NoDefensiveDrop` | engine_scheduler.go:43-66 | The head of the queue is always a known waiting download, so the scheduler's defensive drops never fire |
| `LifecycleSteps.LoopExact` | engine_scheduler.go:36-68 | A scheduler pass starts, in queue order, exactly the first min(free slots, idle) idle gids, gives them consecutive contexts, and keeps the order of the others |
| `LifecycleSteps.PassExhausts` | engine_scheduler.go:36-68 | A pass that starts exactly those stops with the limit reached or only running gids queued, and never exceeds the limit |
| `LifecycleSteps.ScheduleKeeps` | engine_scheduler.go:30-68 | A pass, also one cut short by shutdown, keeps the lifecycle invariant |
| `LifecycleSteps.AddKeeps` | engine.go:276-332 | Adding a download, paused or queued at any position, keeps the lifecycle invariant |
| `LifecycleInvariant.PauseKeeps` | engine_scheduler.go:204-232 | Pausing keeps the lifecycle invariant |
| `LifecycleInvariant.UnpauseKeeps` | engine.go:378-400 | Unpausing keeps the lifecycle invariant, also while the old run exits |
| `LifecycleInvariant.RemoveKeeps` | engine_scheduler.go:172-202 | Removing keeps the lifecycle invariant, also while the run exits |
| `LifecycleInvariant.MoveKeeps` | engine.go:409-449 | Moving in the queue keeps its elements and the lifecycle invariant |
| `LifecycleInvariant.ChangeUriKeeps` | engine.go:471-545 | A restart for new URIs keeps the lifecycle invariant |
| `LifecycleInvariant.ChangeOptionKeeps` | engine.go:559-665 | An accepted or refused option change, with or without restart and torrent transition, keeps the lifecycle invariant |
| `LifecycleInvariant.PruneKeeps` | engine_scheduler.go:257-297 | Pruning keeps the lifecycle invariant |
| `LifecycleInvariant.PurgeKeeps` | engine.go:839-849 | Purging all results keeps the lifecycle invariant |
| `LifecycleInvariant.RemoveResultKeeps` | engine.go:851-871 | Removing one result keeps the lifecycle invariant |
| `LifecycleRuns.ExecutionKeeps` | engine_scheduler.go:18-304 | Every state of every execution, from any loaded session on, satisfies the lifecycle invariant |
| `LifecycleRuns.StepKeeps` | engine_scheduler.go:18-304 | Every enabled step keeps the lifecycle invariant |
| `LifecycleLeak.StepAccounts` | engine_scheduler.go:172-202 | A step leaves a gid's keys without a live, queued or paused owner if and only if it removes an unfinished download that has no run but still owns keys |
| `LifecycleLeak.AllAccounted` | engine_scheduler.go:95-160 | Over executions without such a removal every key has an accountable owner in every state |
| `LifecycleLeakExample.LeakedReservation` | engine_scheduler.go:172-202 | A concrete execution that ends with a key reserved for a removed download and no run to release it |
| `LifecycleStatuses.StatusIsExplained` | engine_scheduler.go:124-151 | In every state of every execution a download is complete only if a run of it ran to the end, in error only if a run of it broke, and removed only if someone removed it |
| `LifecycleStatuses.RunEndStatus` | engine_scheduler.go:124-151 | The end of a run of an active download leaves it complete, paused or in error for a run that ran to the end, was canceled or broke; at shutdown one that did not end well waits again; no other status changes |
| `LifecycleStatuses.ResultsAreFinal` | engine_scheduler.go:124-232 | Once complete, in error or removed, a download stays so in every later state |
| `LifecycleStatuses.StepStatus` | engine_scheduler.go:30-232 | Everything a step does to the status of a download: each request as it asks, the scheduler from waiting to active only, the end of its own run, and nothing else |
| `LifecycleStatuses.FinishStatus` | engine_scheduler.go:129-151 | The same for the end of a run alone, whether or not it is the download's own |
| `LifecycleStatuses.FinishClears` | engine_scheduler.go:120-128 | The run that ended is gone, its download has no context, and no other run is touched |
| `LifecycleStatuses.ActStatus` | engine_scheduler.go:172-232 | What each request does to the status of the download it names, and that it changes no other download at all |
| `LifecycleStatuses.ScheduleStatus` | engine_scheduler.go:30-68 | A pass leaves a download as it is or makes a waiting one active with a new run of its own |
| `LifecycleStatuses.AddedStatus` | engine.go:298-326 | A new download is waiting, or paused if it was added so |
| `LifecycleQueue.StepQueue` | engine_scheduler.go:172-246 | The queue after every step but a scheduler pass: what was asked for moves where it was asked to, and all others keep their order |
| `LifecycleQueue.MoveLands` | engine.go:426-446 | A moved gid lands at the index wanted, counted from the front, from where it was or back from the length, and at the nearer end beyond; the others keep their order |
| `LifecycleQueue.InsertLands` | engine_scheduler.go:234-246 | A new gid lands at the position wanted, at the end without one, and at the nearer end beyond; the others keep their order |
| `LifecycleQueue.ActQueue` | engine_scheduler.go:172-232 | Where each request leaves its download in the queue: out of it for a pause or a removal, at its end for a resumed or restarted one |
| `LifecycleRestarts.OptionChangeHandsOver` | engine.go:619-660 | After an option change that restarts a running download, the end of the old run, however it ends, leaves the gid the keys of a torrent's next selection, its old keys if it stays where it is, and none if it moves |
| `LifecycleRestarts.SecondChangeHandsOver` | engine.go:619-632 | A second change of a torrent while the old run is still ending replaces the next selection |
| `LifecycleRestarts.UriChangeHandsOver` | engine.go:520-545 | After a change of URIs the end of the old run leaves the gid all its keys |
| `LifecycleRestarts.ChangeSetsPlace` | engine.go:633-645 | An accepted option change sets the directory and name it names, leaves the others and shows the result; a refused one does nothing |
| `LifecycleRestarts.ActiveUnmarked` | engine_scheduler.go:56-128 | In every state of every execution a running download carries no mark of an earlier restart |
| `LifecycleResults.ResultsWithinLimit` | engine_scheduler.go:257-297 | In every state of every execution the results that are not spared are at most as many as the limits in force allow |
| `LifecycleResults.SparedResultsStay` | engine_scheduler.go:257-297 | While unfinished results are to be kept, a failed download is remembered until someone purges it or removes it by name |
| `LifecycleResults.StepForgets` | engine_scheduler.go:280-297 | Only results leave the index: by a purge, by a removal of that result, or by a pruning that does not spare them |
| `LifecycleResults.PurgeExact` | engine.go:839-849 | A purge forgets all results and nothing else |
| `LifecycleResults.RemoveResultExact` | engine.go:851-871 | Removing a result forgets that one, if it is one, and nothing else |
| `LifecycleResults.PruneWithin` | engine_scheduler.go:257-297 | Pruning brings the results within the limit and spares every failed one that is to be kept |
| `LifecycleResults.StepSettings` | engine.go:812-837 | Limits change only as asked, and a shutdown is for good |
| `Engine.Engine.constructor` | engine.go:131-217 | A new engine is the initial lifecycle state |
| `Engine.Engine.FindDownload` | engine_scheduler.go:306-326 | The exact gid, else the only gid with that prefix; not found exactly when there is none and ambiguous exactly when there are two |
| `Engine.Engine.Add` | engine.go:276-332 | The fields after adding are the lifecycle step; added exactly when not shut down and the gid is new |
| `Engine.Engine.InsertWaiting` | engine_scheduler.go:234-246 | The gid lands at the wanted position, at the end without one or beyond it, and at the front below it; the others keep their order |
| `Engine.Engine.Schedule` | engine_scheduler.go:30-68 | The rotating loop computes the specified pass, and the runs it launches are exactly those returned |
| `Engine.Engine.RunTurns` | engine_scheduler.go:36-66 | The loop over at most the queued candidates is the specified loop |
| `Engine.Engine.Turn` | engine_scheduler.go:43-66 | One turn rotates a running gid, drops or launches the head |
| `Engine.Engine.Launch` | engine_scheduler.go:56-66 | A launch makes the download active under a new context and adds one run |
| `Engine.Engine.Pause` | engine_scheduler.go:204-232 | Pausing in place is the lifecycle step; refused exactly for terminal downloads |
| `Engine.Engine.Unpause` | engine.go:378-400 | Unpausing in place is the lifecycle step |
| `Engine.Engine.Remove` | engine_scheduler.go:172-202 | Removing in place is the lifecycle step; refused exactly for terminal downloads |
| `Engine.Engine.ChangePosition` | engine.go:409-449 | Moving in place with 64-bit positions is the lifecycle step; the gid stands at the reported position, which is the wanted one or the nearer end, and the order of the others is unchanged |
| `Engine.MoveTo` | engine.go:426-446 | For every 64-bit offset, POS_SET, POS_CUR and POS_END land at the index wanted or at the nearer end, and the order of the others is unchanged |
| `Engine.ClampedQueuePosition` | engine.go:451-469 | Saturated addition clamped to the queue, for all 64-bit operands and without overflow |
| `Engine.Engine.AppendStopped` | engine_scheduler.go:248-255 | Appending a result once and pruning is the lifecycle step |
| `Engine.Engine.PruneStopped` | engine_scheduler.go:257-297 | Counting and compacting the stopped list in place is the specified pruning |
| `Engine.Engine.Compact` | engine_scheduler.go:280-297 | The single compacting sweep is the specified pruning |
| `Engine.Engine.CountPrunable` | engine_scheduler.go:257-279 | The count of unprotected results |
| `Engine.Engine.PurgeDownloadResult` | engine.go:839-849 | The loop that forgets all results is the lifecycle step |
| `Engine.Engine.RemoveDownloadResult` | engine.go:851-871 | Forgetting one result is the lifecycle step; accepted exactly for terminal downloads |
| `Engine.Engine.ChangeGlobalOption` | engine.go:812-837 | New limits, a pending signal and a pruning |
| `Engine.Engine.RestartActive` | engine.go:718-734 | An active download goes back to the queue with its run told to stop |
| `Engine.Engine.ChangeUri` | engine.go:471-545 | A change of URIs that alters something retains reservations and restarts |
| `Engine.Engine.ChangeOption` | engine.go:559-665 | The whole option change, with its comparison of directory and name and its reservation of the next torrent selection, is the lifecycle step; accepted exactly when no transition is needed or its keys can be reserved |
| `Engine.Engine.SetPath` | download_progress.go:17-33 | Publishing a path in place also overwrites the directory and name shown, as the lifecycle step does |
| `Engine.Engine.ReserveNext` | engine.go:619-632 | The next selection is added to what the gid holds, or refused without any change |
| `Engine.Engine.FinishDownload` | engine_scheduler.go:81-170 | The finisher in place, stale or not, is the lifecycle step, whose statuses LifecycleStatuses.RunEndStatus fixes |
| `Engine.Engine.CollapsePaths` | engine_scheduler.go:96-118 | Replacement of the reservation set at the end of a run, and whether the gid keeps it |
| `Engine.Engine.Settle` | engine_scheduler.go:95-157 | Status, context, cancel and the marks that name the ended run |
| `Reservations.UnionThenCollapse` | engine.go:619-632 | If the gid keeps what the union gave it, the later replacement succeeds and leaves exactly the new set, whatever others did meanwhile |
| `Reservations.Update` | download_util.go:385-423 | A batch is accepted iff its keys are distinct and free of other owners; then the gid owns exactly the union or the replacement and no other gid's set moves |
| `Reservations.Release` | download_util.go:441-450 | The gid owns nothing and every other gid's set is unchanged |
| `Reservations.PathReservations.Record` | download_util.go:425-439 | Both maps stay exact inverses when a key is recorded |
| `Reservations.PathReservations.ReserveOutputPath` | download_util.go:293-326 | A refusal changes nothing; a success takes one key nobody else held. With renaming, the first candidate neither reserved nor on disk decides: taken if surely absent, its own error if it has no key or cannot be examined; candidates run out exactly when all 9999 are skipped |
| `Reservations.PathReservations.UpdateOutputPathReservations` | download_util.go:385-423 | Accepted exactly when every path has a key and the batch is reservable; a rejected batch leaves both maps unchanged and reports the first path without a key or with the key of an earlier one; the maps stay inverses |
| `Reservations.PathReservations.UpdateKeys` | download_util.go:400-423 | The in-place update equals the specified batch update |
| `Reservations.PathReservations.ReleaseOutputPaths` | download_util.go:441-450 | Exactly the gid's set disappears, and the ownership guard inside the loop never fails |
| `Chunks.MakeChunks` | download_util.go:452-473 | Every positive 64-bit total is cut, without overflow, into at most 65536 contiguous ranges of equal length but for a shorter last one; their number is the ceiling of total over the first length |
| `Chunks.EffectiveSize` | download_util.go:456-461 | The range length in force covers the total in 65536 ranges, and is the requested one whenever that already does |
| `Chunks.ByteInOneChunk` | download_util.go:452-473 | Every byte of the file lies in exactly one range, the one its offset over the length names |
| `Chunks.CeilDiv` | download_util.go:507-512 | The least multiple count that covers the total |
| `Chunks.CompletedPieces` | download_util.go:495-505 | Whole pieces among the first completed bytes, all of them at the total |
| `Chunks.PieceDone` | download_util.go:495-505 | A piece counts as done exactly when its last byte is among the completed ones |
| `Bitfield.BitfieldFor` | download_util.go:475-493 | The hexadecimal prefix fill stands for exactly the completed pieces set and the rest clear; empty when it cannot be drawn |
| `Bitfield.SetPiece` | download_progress.go:107-130 | Editing one digit sets exactly one bit; it changes nothing exactly when the digit is missing, unreadable or the bit is set |
| `Bitfield.TorrentPieceProgress` | torrent_download.go:1836-1873 | Run-length expansion: the bits are the expanded runs padded with zeros, and the count is the number of set bits |
| `Bitfield.HexKeepsBits` | download_util.go:475-493 | Hexadecimal encoding keeps every bit of the byte buffer |
| `Bitfield.UnknownBitfield` | torrent_download.go:736-742 | Clear bits for every piece, rounded up to bytes |
| `Bitfield.DigitReadsBack` | download_progress.go:132-143 | Every digit written is read back as its value |
| `Bitfield.DecodeHexNibble` | download_progress.go:132-143 | Digits of both cases and nothing else are read |
| `Progress.CountedSteps` | download_progress.go:73-130 | Every update keeps the finished-piece count equal to the number of set bits |
| `Progress.BytesCount` | download_progress.go:73-105 | Bytes are added up to a known total and taken back down to zero, exactly, while the sum is a 64-bit number |
| `Progress.OnePieceStarts` | download_progress.go:58-71 | A single stream shows its one piece as finished exactly when all bytes are there, wherever it resumes |
| `Progress.OnePieceSteps` | download_progress.go:73-130 | And again after every byte that arrives, even if bytes were taken back before |
| `Progress.DownloadProgress.ResetProgress` | download_progress.go:41-56 | The fields after a reset, with the bitfield read as bits |
| `Progress.DownloadProgress.ResetSingleProgress` | download_progress.go:58-71 | The fields after a single-stream reset |
| `Progress.DownloadProgress.AddCompleted` | download_progress.go:73-93 | Bytes are added up to a known total; only a single piece follows the byte count |
| `Progress.DownloadProgress.RollbackCompleted` | download_progress.go:95-105 | Bytes are taken back down to zero |
| `Progress.DownloadProgress.MarkPieceComplete` | download_progress.go:107-130 | One bit and the count, or nothing for an index out of range or a set bit |
| `Controller.GenerationFixesLimit` | downloader.go:106-206 | In any run, tickets of one generation carry one limit whenever they were issued |
| `Controller.Climbs` | downloader.go:145-160 | While there is room below the adjusted ceiling, as many successes of the current generation as the limit raise it by one, in a new generation, whatever late replies come in between |
| `Controller.Counts` | downloader.go:145-160 | Fewer of them are counted and leave the limit |
| `Controller.FailureStartsOver` | downloader.go:186-193 | A current failure that may pass keeps the limit and starts the count over in a new generation |
| `Controller.LateReply` | downloader.go:130-160 | A ceiling below the limit comes first and starts a new generation; a reply of an older generation changes nothing |
| `Controller.Adjusted` | downloader.go:195-206 | The largest limit that the ceiling allows and no rejected limit rules out, and at least 1 |
| `Controller.ThrottleStepsBack` | downloader.go:162-184 | For issued tickets an effective throttle lowers the limit by exactly one and rejects the level throttled |
| `Controller.ThrottleByTicket` | downloader.go:162-184 | A throttle counts for the limit its ticket names, or for the limit in force if it names none |
| `Controller.ThrottledForGood` | downloader.go:162-206 | After an effective throttle at a limit above 1 the limit stays below it for the rest of the run |
| `Controller.FewThrottles` | downloader.go:106-206 | At most the largest ceiling minus one throttles above limit 1 ever take effect |
| `Controller.LimitWithinCeilings` | downloader.go:106-206 | In any run the limit stays between 1 and the largest ceiling |
| `Controller.SegmentedConcurrencyController.ClampCeiling` | downloader.go:130-143 | Clamping in place equals the specified transition |
| `Controller.SegmentedConcurrencyController.OnSuccess` | downloader.go:145-160 | A success in place equals the specified transition |
| `Controller.SegmentedConcurrencyController.OnThrottle` | downloader.go:162-184 | A throttle in place equals the specified transition |
| `Controller.SegmentedConcurrencyController.OnRetryableError` | downloader.go:186-193 | A retryable error in place equals the specified transition |
| `SegmentedTheorems.OnePlace` | downloader.go:722-858 | In every state each range is in exactly one of queued, in flight, finished, given up; the worker count is the number in flight, and giving up implies an error |
| `SegmentedTheorems.BitsShowFinished` | download_progress.go:73-130 | With two or more ranges a bit is set exactly when its range has finished, and the count of finished pieces is the number of set bits |
| `SegmentedTheorems.SuccessFinishesAll` | downloader.go:794-858 | A nil return means every range finished, and the file holds at each range what its last attempt received |
| `SegmentedTheorems.SuccessAssembles` | downloader.go:722-858 | If every accepted body carries the bytes asked for, a nil return leaves exactly the representation, whatever the order, failures, retries and old file content |
| `SegmentedTheorems.SuccessCountsAll` | download_progress.go:73-105 | After a nil return without close failure the counter stands at the total |
| `SegmentedTheorems.IdleLaunches` | downloader.go:776-792 | With nothing in flight and a due task the next pass launches one |
| `SegmentedLoop.LaunchWithinLimit` | downloader.go:776-792 | A whole launch pass in any state of any execution: the limit is at most the worker limit, the workers are not taken above it, no task is lost, and with nothing running and a task due something runs afterwards |
| `SegmentedControl.WorkersWithinOptions` | downloader.go:776-903 | In every state of every transfer the limit and the workers in flight are at most what the options ever allowed |
| `SegmentedControl.ControllerHistory` | downloader.go:758-838 | The controller of every transfer goes through a history in which every ticket was issued by an earlier state |
| `SegmentedControl.NeverAtThrottledLimit` | downloader.go:818-824 | After a throttle of the current generation at a limit above 1, the transfer never reaches that limit again |
| `SegmentedControl.FewThrottlesTaken` | downloader.go:818-824 | A transfer takes fewer throttles above limit 1 than the options ever allow workers |
| `SegmentedTheorems.LeavesIff` | downloader.go:797-804 | The loop leaves exactly when nothing is in flight and every range has finished or something has failed |
| `SegmentedRetries.DueLaunches` | downloader.go:777-792 | Once the time of a queued range has come, with room below the limit something is launched |
| `SegmentedTheorems.AllFinishedSucceeds` | downloader.go:795-865 | Once every range has finished and nothing has failed, the loop leaves with success |
| `SegmentedRetries.GivenUpOnlyRightly` | downloader.go:869-877 | With one setting of the tries, a range is given up only if its last end does not pass or it was launched exactly as often as it may be; never for want of tries without a limit |
| `SegmentedRetries.RetriedAfterWait` | downloader.go:818-835 | A throttled or retryable range with tries left, or without a limit, goes back to the queue until the retry wait is over, and fails nothing |
| `SegmentedRetries.RetryWaits` | downloader.go:859-867 | A range queued until some time is next launched at that time or later |
| `SegmentedRetries.StepWaits` | downloader.go:777-792 | A queued range stays as it is until it is launched, and that is not before its time |
| `SegmentedRetries.ResultDecides` | downloader.go:805-841 | What becomes of a range when its result is taken: finished, queued again or given up, by its end, its launches and its tries |
| `SegmentedTheorems.FewLaunches` | downloader.go:806-838 | For a fixed max-tries of at least 1 no range is launched more often, so launches are at most ranges times tries |
| `SegmentedTheorems.CloseFailureMiscounts` | downloader.go:957-964 | For every plan there is a run in which a failed close leaves a queued range's bytes counted |
| `SegmentedConservation.RunConserves` | download_progress.go:73-105 | Without a close failure the counter is, in every state, the finished lengths plus what attempts in flight reported, within zero and the total |
| `SegmentedConservation.StepConserves` | downloader.go:806-833 | From an exact state a step keeps the counter exact if and only if it does not take a close failure, which leaves it wrong by exactly that range |
| `SegmentedConservation.FlushExact` | download_progress.go:73-93 | Reported bytes are added exactly: the upper clamp never fires |
| `SegmentedConservation.RollbackExact` | download_progress.go:95-105 | A failed body is taken back exactly: the zero floor never fires |
| `SegmentedInvariant.StepKeeps` | downloader.go:722-858 | Every step of loop and workers keeps places, counts, file regions, tickets and bitfield |
| `SegmentedInvariant.ExecutionKeeps` | downloader.go:722-858 | So does every execution from a sound plan |
| `Segmented.WorkerLimit` | downloader.go:879-903 | The largest number that neither option nor the ranges left rule out, and at least one |
| `Segmented.Configured` | downloader.go:887-896 | The largest number neither split nor max-connection-per-server rules out, and at least one |
| `Segmented.ReadyIndex` | downloader.go:860-867 | The first due task, if any |
| `SegmentedLoop.PassEnds` | downloader.go:776-792 | A launch pass ends at the limit or with no task due, within the limit, and loses no task |
| `SegmentedLoop.Transfer.constructor` | downloader.go:722-756 | One task a range, reset progress, a fresh controller |
| `SegmentedLoop.Transfer.StartReady` | downloader.go:776-792 | The in-place pass equals the specified clamp and launches, with the options read at each launch |
| `SegmentedLoop.Transfer.StartTask` | downloader.go:758-774 | A launch moves one task into flight under the controller's ticket |
| `SegmentedLoop.Transfer.TakeResult` | downloader.go:806-838 | Taking any result equals the specified step: mark, roll back, retry or give up, and the controller's reaction |
| `SegmentedLoop.Transfer.Reconsider` | downloader.go:818-836 | Throttles are told apart from other retryable errors, and only the latter spare the controller when they are not retried |
| `RangeDownload.DownloadRange` | downloader.go:933-964 | An attempt writes a prefix of the body into its range, only from a 206 response whose Content-Range matches exactly, reports no more than it wrote, and ends as the response and the file system say: busy for 403, 429 and 5xx, retryable for 408, refused for any other status or a range that does not match, completed by a body that is copied and closed without a fault |
| `RangeDownload.AttemptRuns` | downloader.go:933-964 | What any attempt does is a run of worker steps of the transfer, from its launch to its result |
| `RangeDownload.WritesAreHonest` | downloader.go:945-957 | If accepted responses carry the bytes asked for, every write of an attempt is honest, whatever happens in between |
| `CopyLoop.CopyWithProgress` | downloader.go:1345-1410 | The file gets a prefix of the body within the limit, on every return path all bytes written have been reported, and enough iterations without a fault copy everything |
| `CopyLoop.CopyTurn` | downloader.go:1368-1410 | One iteration keeps reported plus pending equal to written, and fails, ends or goes on exactly as the read and the bytes it brought say |
| `CopyLoop.CopyBytes` | downloader.go:1374-1402 | It fails exactly for a failure of limiter, write, speed check or a short write, and then reports before returning |
| `CopyLoop.CopyExact` | downloader.go:1307-1317 | Success means exactly the expected bytes in order, and without a fault it succeeds |
| `ContentRange.HeaderReadsBack` | download_util.go:44-84 | Every well-formed Content-Range of section 14.4 of RFC 9110 is parsed back to itself |
| `ContentRange.ParseIsSound` | download_util.go:44-84 | Whatever is parsed is well formed: the range is ordered and inside a known total |
| `ContentRange.ExactTakes` | download_util.go:136-151 | A range announcement is taken for an exact request if and only if it announces that range, that total if any, and a matching length |
| `ContentRange.OpenReachesEnd` | download_util.go:153-174 | An open range is taken only if it reaches the end of the representation |
| `SessionRoundTrip.ReadsBack` | session.go:176-231 | For every accepted entry list and every order of keys the parser takes the written text iff each URI line is below the scanner's limit, and then returns the written entries in order with the described options; no other limit of the parser refuses it |
| `SessionRoundTrip.RoundTrip` | session.go:578-659 | Without comment-like keys and short lists the entries come back unchanged |
| `SessionRoundTrip.UnchangedIff` | session.go:361-389 | An entry's options come back unchanged if and only if no key starts with `#` and every list has at least two items |
| `SessionRoundTrip.CommentKeyIsLost` | session.go:197-197 | For any ordinary URI, an accepted session whose only option has a key that starts with `#`: the parser returns the entry without it |
| `SessionRoundTrip.ShortListBecomesText` | session.go:361-389 | For any ordinary URI, an accepted session with a list of one item: the parser returns a text |
| `SessionRoundTrip.EmptyListIsLost` | session.go:628-635 | For any ordinary URI, an accepted session with an empty list: the parser returns no such option |
| `SessionRoundTrip.LongUriIsUnreadable` | session.go:176-178 | Any ordinary URI made as long as the scanner's limit, such as one under http://h/: the session is accepted and written and cannot be parsed |
| `SessionRoundTrip.HttpIsOrdinary` | session.go:661-681 | A plain http URI is such a URI |
| `SessionRoundTrip.OneEntry` | session.go:578-659 | Any session of one accepted entry is written, and parsed to what comes back of it exactly when its URI line fits |
| `SessionLines.OptionLineRead` | session.go:196-212 | An indented key and text, with any white space around each, adds that text to that key of the download being read, and is refused without a download or where it cannot be added |
| `SessionLines.UriLineRead` | session.go:213-222 | Any other line begins the next download with the words on it as its URIs, whatever white space is between them |
| `SessionLines.SkippedLine` | session.go:196-197 | Blank lines and comments, indented or not, change nothing but the count of bytes |
| `SessionLines.NoEqualsSign` | session.go:202-205 | An indented line without an equals sign is refused |
| `SessionLines.ParsedIsBounded` | session.go:361-389 | Whatever the text, what is parsed is within every limit on downloads, URIs, option keys and values |
| `Strings.TrimPadded` | session.go:196-206 | Trimming takes away exactly the white space around a text |
| `Strings.FieldsOfSpaced` | session.go:215 | Words are found again whatever white space stands around and between them |
| `Session.ParseSession` | session.go:176-231 | The line loop computes the specified parse |
| `Session.ReadLine` | session.go:191-222 | One line in place equals the specified transition, which the SessionLines lemmas describe for every kind of line |
| `Session.WriteSession` | session.go:578-659 | The writer accepts exactly the specified lists and writes exactly the specified text |
| `Session.ValidateEntries` | session.go:578-592 | Accepted exactly when every serializable entry is valid and there are at most 10000 |
| `Strings.FieldsOfJoined` | session.go:617-619 | URIs joined by tabs are split into the same URIs |
| `Strings.LinesOfUnlines` | session.go:176-192 | Lines without line breaks are scanned back as the same lines |
| `OptionLayers.SaveRestoreKeeps` | session.go:332-347 | Saving and restoring keeps, for every key but gid, pause and save-session, the effective value and whether it was explicit, for layers of any depth |
| `OptionLayers.SaveRestoreSets` | session.go:539-552 | The restored options carry the saved gid and pause state and no save-session |
| `OptionLayers.SaveAgainIff` | session.go:539-552 | Saving again gives the same entry if and only if save-session was not an explicit option |
| `OptionLayers.SecondSaveDiffers` | session.go:319-347 | Concrete options whose second save names fewer explicit keys than the first |
| `OptionLayers.SaveAgain` | session.go:319-347 | Saving again writes the same options and the explicit keys without save-session |
| `OptionLayers.SavedFits` | options.go:410-438 | Two layers of at most 128 keys save to at most 258 effective and 260 written keys |
| `OptionLayers.RestoredFits` | session.go:349-359 | What is restored from them is within the layer limit again |
| `OptionLayers.ThroughTheFile` | session.go:51-90 | For any download of any written session that fits: parsing the text and loading its options succeeds within all limits and gives the same values and explicit keys |
| `OptionLayers.LoadsSaved` | session.go:64-90 | Loading the options a snapshot wrote passes every check of keys, counts and layers and restores the saved layers |
| `FinalizedIndexes.ReadsBack` | session.go:260-291 | Any set of one-based file numbers is read back from its comma-separated text, in whatever order it was listed |
| `FinalizedIndexes.ParseFinalized` | session.go:260-278 | The loop accepts exactly lists of positive 64-bit numbers, blanks around items and an empty text, and returns their set |
| `OptionLayers.EffectiveLooksUp` | options.go:149-161 | The flattened map answers exactly the lookups the layers answer |
| `OptionLayers.LayerOptions` | options.go:85-95 | The overlay without internal keys over the base |
| `OptionLayers.MergeOptions` | options.go:97-106 | The overlay wins key by key and internal keys are not taken over |
| `OptionLayers.OptionsForRpc` | options.go:440-457 | The recursive loop computes the flattened map |
| `OptionLayers.Snapshot` | session.go:539-552 | The saved options and explicit keys of one download |
| `OptionLayers.RestoreLayers` | session.go:332-347 | The loop splits the flat map into overlay and base as specified |
| `OptionLayers.ValidateOptionLayerSize` | options.go:410-423 | Accepted exactly with at most 128 counted keys |
| `DeferredSave.Protocol` | session.go:438-497 | In every interleaving the wait group counts armed timers plus unfinished callbacks, pending holds exactly when a timer is recorded, and only the recorded timer is armed |
| `DeferredSave.AfterClose` | session.go:485-497 | After close has returned no callback fires, enters, saves or leaves, and none is armed again |
| `DeferredSave.PendingWillSave` | session.go:438-471 | While a save is pending its callback has still to take the lock and look at the downloads |
| `DeferredSave.QueuedSaveArrives` | session.go:438-471 | A pending save that nobody cancels is written: in every later state it is still to come, being written or completed, and completed once no callback is left |
| `DeferredSave.QueueArms` | session.go:438-471 | Queueing with a session file configured and the engine open leaves a save pending, by one new timer if none was; without either it changes nothing |
| `DeferredSave.PendingSaves` | session.go:452-468 | From any state with a pending save its timer can fire, its callback enter the lock and save, which raises the saves by one |
| `DeferredSave.PendingEnds` | session.go:452-483 | A pending save ends only by the callback of its own timer, a cancellation or the close of the engine |
| `DeferredSave.StopsPending` | session.go:473-497 | A cancellation or the close leaves nothing pending and no timer armed |
| `DeferredSave.ClosedForGood` | session.go:485-497 | After the close nothing is queued and no callback begins to save |
| `DeferredSave.SessionSaves.QueueSessionSave` | session.go:438-471 | Queueing in place is the protocol step: a configured save in an open engine is pending afterwards, any other call changes nothing |
| `DeferredSave.SessionSaves.EnterCallback` | session.go:454-466 | The callback's critical section is the protocol step, and it saves exactly when not closed |
| `DeferredSave.SessionSaves.CancelQueuedSessionSave` | session.go:473-483 | Cancelling in place is the protocol step |
| `DeferredSave.SessionSaves.CloseQueuedSessionSaves` | session.go:485-496 | Closing in place is the protocol step |
| `RateLimit.RateHolds` | downloader.go:342-376 | For every limiter, in every interleaving of any callers along any chains: of the bytes reserved since its limit last changed, those whose composed deadline is at or before t never exceed limit times the time since the first of these reservations |
| `RateLimit.ExecutionKeeps` | downloader.go:342-376 | In every interleaving each limiter is spoken for exactly as its log says, and whoever made a request waits for that limiter's deadline of it, wherever on its chain it is |
| `RateLimit.LogGrows` | downloader.go:352-376 | While a limiter reads a constant limit nothing leaves its log, so the bound then counts from its first reservation |
| `RateLimit.ReservationIsLogged` | downloader.go:352-376 | Every reservation under a limit is the last entry of that limiter's log, with its caller's time and bytes |
| `RateLimit.ReserveKeeps` | downloader.go:352-376 | One reservation, with or without a change of the limit, keeps the limiter's next time equal to what its log determines |
| `RateLimit.DeadlineCovers` | downloader.go:352-376 | A limiter's own deadline covers all bytes reserved so far at its rate |
| `RateLimit.AnswerIsEarliest` | downloader.go:352-376 | No caller waits longer than needed: its deadline is the least time its bytes take at the limit from when the limiter is free |
| `RateLimit.DurationIsCeiling` | downloader.go:378-390 | The least time in nanoseconds in which the rate allows that many bytes |
| `RateLimit.RateLimiter.Reserve` | downloader.go:352-376 | The critical section in place is the specified reservation, including the reset when the limit read differs from the stored one |
| `RateLimit.ReservationDeadline` | downloader.go:342-350 | Every limiter of the chain books the request, and the deadline is the latest of their answers or now |
| `RateLimit.ReserveAll` | downloader.go:342-350 | The walk along the chain, limiter by limiter |
| `RateLimit.ReservationChunk` | downloader.go:315-340 | A positive chunk, the smallest of the request and every limiter's share |
| `RateLimit.ShareIsShort` | downloader.go:331-339 | A share adds at most one second to a limiter |
| `RateLimit.Wait` | downloader.go:295-313 | A wait books positive chunks that sum to the request, or less if canceled, each adding at most one second to any limiter |
| `Torrent.Accounting` | torrent_download.go:844-862 | From creation or load on, through refresh, progress, reconcile, finalize and rebuild: 0 <= Completed <= Length a file, totals are the selected sums within 64 bits, finalized files are complete, and the finalized set only grows |
| `Torrent.HandedOverOnce` | torrent_download.go:1610-1622 | A finalized file is never listed for hand-off again |
| `Torrent.AllHandedOver` | torrent_download.go:1610-1622 | With nothing left to hand off the completed bytes equal the total |
| `Torrent.PendingIff` | torrent_download.go:1610-1622 | Exactly the selected files that are not finalized are listed |
| `Torrent.RebuildPreserves` | engine.go:771-804 | Changed options keep the progress of a file as far as its new length goes and the path of a finalized one; finalized files are complete and new ones start as planned |
| `Torrent.RebuildStates` | engine.go:771-804 | The rebuild loop computes the specified files and totals without overflow |
| `Torrent.V1TorrentLength` | torrent_download.go:550-568 | Accepted exactly when no length is negative and the sum fits in 64 bits, and then that sum |
| `Torrent.TorrentFiles.FileStateProgress` | torrent_download.go:844-862 | The in-place sweep makes finalized files complete, brings every other count into its range and computes the selected sums without overflow |
| `Torrent.TorrentFiles.RefreshFiles` | torrent_download.go:1491-1535 | New metadata is taken exactly when every finalized file is among its files, and then only finalized files are complete |
| `Torrent.TorrentFiles.UpdateProgress` | torrent_download.go:1792-1834 | File by file: complete if finalized or released, unchanged beyond the snapshots, otherwise the verified bytes brought into range; the total is the sum over selected files, and count and bitfield show the piece runs |
| `Torrent.TorrentFiles.MarkFinalized` | torrent_download.go:1698-1739 | One more finalized file, shown complete while the others keep their counts, with the piece state of the client or an unknown one; an unknown index is an error that changes nothing |
| `Torrent.TorrentFiles.ReconcileReleased` | torrent_download.go:1555-1586 | Exactly the released files become finalized besides those that were, are shown complete, and totals are recomputed exactly when one did |
| `Torrent.TorrentFiles.SelectedIndexes` | torrent_download.go:1610-1622 | The positions still to hand off, in order |
| `WebSocketClose.NeverMidCall` | jsonrpc/server.go:464-485 | The closer never closes a connection that is answering a call, although it closes after leaving the lock |
| `WebSocketClose.NoneMissed` | jsonrpc/server.go:410-485 | Once the closer is through, every tracked connection is closed, leaving, or in a call that will close it |
| `WebSocketClose.WaitIsFinal` | jsonrpc/server.go:487-499 | When the wait returns every handler is over for good, and a connection is still listed if and only if its set-up failed |
| `WebSocketClose.StillListed` | jsonrpc/server.go:278-362 | A concrete shutdown that ends with a connection closed, its handler over, and the connection still listed |
| `WebSocketClose.Admission` | jsonrpc/server.go:392-401 | A handler is admitted exactly while the server is not closing and has room for one more of 256 |
| `WebSocketClose.Tracking` | jsonrpc/server.go:410-420 | An admitted connection is tracked and read, or closed at once if the server is closing meanwhile |
| `WebSocketClose.CallsAreServed` | jsonrpc/server.go:428-447 | An unmarked connection answers each call and is read again; a marked one begins no call and is closed by the end of the one it is in |
| `WebSocketClose.OpenWhileServing` | jsonrpc/server.go:278-420 | Until the server closes, a connection is open as long as its handler has not left |
| `WebSocketClose.Server.BeginWebSocket` | jsonrpc/server.go:392-401 | Admission in place is the protocol step |
| `WebSocketClose.Server.TrackWebSocket` | jsonrpc/server.go:410-420 | Tracking in place is the protocol step, refused exactly when closing |
| `WebSocketClose.Server.BeginRPC` | jsonrpc/server.go:428-436 | A call begins exactly when the connection is not closing |
| `WebSocketClose.Server.EndRPC` | jsonrpc/server.go:438-447 | The end of a call closes a connection marked meanwhile |
| `WebSocketClose.Server.EndWebSocket` | jsonrpc/server.go:403-408 | The end of a handler in place is the protocol step |
| `WebSocketClose.Server.InitiateWebSocketClose` | jsonrpc/server.go:464-475 | The closer takes the tracked connections, once |
| `WebSocketClose.Server.MarkClosing` | jsonrpc/server.go:476-484 | A connection is marked under its lock, and closed afterwards exactly when it was idle |

## Left out

- Path keys: `outputPathReservationKey` is any fixed function from paths to keys; symbolic links, case folding and stat races are not modelled.
- Critical sections that take both the engine's and the path table's lock are one step, as the engine's lock is held throughout.
- LifecyclePaths.NoStalePath: a path is stale when it was chosen for other options than those in force, even where both lead to the same file; paths are separated by slashes.
- PauseAll, UnpauseAll and the forced variants: loops over the single operations, which would add only easy members.
- Engine.Engine.Add: the gid is given; generating and validating it, and validating URIs and options, come before the step.
- Engine.Engine.ChangeGlobalOption: merging and validating options is reduced to the three limits the lifecycle reads.
- Engine.Engine.ChangeUri: takes whether the edit of the URI list altered anything; the editing of the list itself is not modelled.
- Engine.Engine.ChangeOption: whether an option other than directory and name needs a restart is an input.
- Download fields that only status queries read (speeds, connections, peers, error texts, time stamps), notifications and URI status marks.
- Lifecycle progress of a run: what a run does between launch and end is reduced to reserving keys, publishing a path and its outcome.
- HTTP requests, redirects, proxies, TLS, cookies, the metadata probe, single-stream downloads, checksums, file times and automatic renaming on disk beyond the reservation loop.
- RangeDownload.DownloadRange: whether an error of the request, the file or the body is retryable is an input; only statuses are classified, and a content coding other than identity is a flag.
- CopyLoop.CopyWithProgress: buffer pools and the wall clock behind the speed check are not modelled; a check that fails is an input.
- Segmented steps are finer than the loop: clamping the limit and each launch are steps of their own, so every run of the loop is among the runs considered.
- Controller numbers and attempt counts are unbounded integers.
- RateLimit.DurationIsCeiling: speaks of an exact ceiling, where the program rounds a double and saturates at the largest duration; times are unbounded integers.
- RateLimit.ReservationDeadline: a chain is a sequence of distinct limiters instead of parent links, and the method runs undisturbed; callers that interleave between their limiters are covered by the transition system behind RateLimit.RateHolds.
- RateLimit.Wait: limits stay constant during one wait.
- The text encoding of the explicit-keys list (JSON in base64) is any encoding that decodes what it encoded.
- OptionLayers.ThroughTheFile: the checks of single option values at load (numbers, sizes, known words) are not modelled, only those of keys, counts and layers.
- Session.WriteSession: temporary file, sync and rename are not modelled, and keys are written in any order, of which the sorted one is a case; the order of entries by queue position is taken as given.
- Session.ParseSession: strings are sequences of Unicode scalar values measured by their UTF-8 length, so files with invalid encoding are not covered; line numbers of errors are dropped.
- Loading a session beyond parsing and splitting the options (checking URIs, decoding torrents).
- Torrent.Accounting: file lists, snapshots and piece runs of the torrent client are inputs; Merkle and piece geometry checks are not modelled.
- Torrent.TorrentFiles.UpdateProgress: peer counts and the seeding flag are not modelled.
- Torrent.TorrentFiles.MarkFinalized: the session save it queues and the client's own selection mark are not modelled.
- WebSocketClose: forced close after a timeout and a notification writer that closes the connection on a write error are not modelled; leaving the count and leaving the wait group are one step at the end of a handler, and a failed set-up is also allowed after calls.
- RPC dispatch, parameter decoding, authentication, status queries, size parsing, command line and configuration: single-branch or library-bound code.
