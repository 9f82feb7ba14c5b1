# Verified core of the download engine

This project models the parts of the download engine that allocate, count and resume bytes, and
proves what they promise. Each concurrent part is a transition system: one step is one critical
section (or one network, disk or timer event between two of them), so a statement about every run
is a statement about every interleaving. Beside it stands a class with the source's fields whose
methods are proved to perform exactly those steps.

| files | what they model |
|---|---|
| `RangeModel`, `RangeProofs`, `RangeTheorems`, `RangeDecisions`, `RangeProgress`, `RangeFetcher`, `SlowStart` | the parallel HTTP range download: chunks, splitting, work stealing, the read and write loop, the takeover of the Resolve stream, pause, store, restore and the completion check |
| `Validators`, `ValidatorProofs`, `ValidatorDecisions`, `ValidatorExtents`, `ValidatorTheorems`, `ValidatorRestores`, `ValidatorFetcher` | If-Range (section 13.1.5 of RFC 9110): which representation the counted bytes come from, where the file ends, and which restores are safe |
| `Leases`, `LeaseProofs`, `LeaseTheorems`, `LeaseProgress`, `LeaseObjects` | blob sources, engine sessions and task leases: three levels of reference counts |
| `Hls`, `HlsProofs`, `HlsTheorems`, `HlsProgress`, `HlsRun` | HLS segment staging, the journal and the merge, with a crash at any step |
| `Spans`, `Spool`, `DiskInput`, `HttpSpool` | the media spool: valid intervals of sparse block files, the byte queue and the seekable reader on top |
| `PieceMap`, `Invoke`, `Scheduler`, `MultiPart` | the piece bitset, the drain protocol of native requests, the bound on running tasks, the split-archive reader |

`dafny verify dfyconfig.toml` checks everything.

## What the proofs found

Where a promise turned out to fail, the code is modelled as it is, a lemma gives a concrete run,
and another one says exactly when, or under which assumptions, the promise holds.

- A connection that stops on HTTP 403 with bytes left is skipped by the completion check
  (`RangeTheorems.SuccessWithoutData`), and a prefix that existed in the prefetch file only is lost
  when both the Resolve stream and the first range attempt fail (`RangeTheorems.SuccessWithoutPrefix`).
  Both are reported as success; `RangeTheorems.CompletionIsSound` shows that nothing else goes wrong.
- A snapshot taken while the prefix is in the prefetch file only, followed by a crash, resumes with a
  hole (`RangeTheorems.SnapshotWithHole`); `RangeTheorems.SnapshotIsAResumePoint` says exactly when.
- A download of unknown size that is paused when everything has arrived asks for a range behind the end
  when it is continued (`RangeProgress.NothingAnswersAtEnd`). Any other download can always be brought to
  success by a pause and a restart (`RangeProgress.CanAlwaysSucceed`).
- A snapshot from before a replacement of the resource, restored after the old validator is served
  again, mixes two representations (`ValidatorTheorems.MixedAfterRestore`). Against a server that never
  reuses a validator the counted bytes are always of one (`ValidatorTheorems.OneRepresentation`), but a
  restore can still leave the end of a longer representation behind a finished shorter one
  (`ValidatorTheorems.TailAfterRestore`).
- So can an answer that announces an empty body, without any crash
  (`ValidatorTheorems.TailAfterEmpty`, `ValidatorRestores.EmptyAnswerMixes`).
- `ValidatorRestores.RestoreIsSafeIff` says for every single restore whether it can end in a mixture or a
  tail. With safe restores and no empty answer nothing of the kind happens, whatever the server does
  (`ValidatorRestores.SafeRestoresNeverMix`), and every restore is safe in a run that answers no 200
  between a Store and the Crash that restores it (`ValidatorRestores.FreshFinishes`).
- A pause before the first range response counts the Resolve prefix without pinning its validator, and
  the rest may come from another representation (`ValidatorTheorems.PausedPrefixIsUnguarded`). The pin
  decides: `ValidatorTheorems.OneRepresentation` holds for pinned and sequential downloads.
- An empty HLS segment is never taken over from the journal (`HlsTheorems.EmptySegmentIsFetchedAgain`),
  and only an empty one is not (`HlsTheorems.StoredSurvivesCrash`).
- Pausing a waiting task leaves its entry in the wait queue, so the task is started later although it
  was paused (`Scheduler.PausedWaiterIsStarted`); `Scheduler.PausedStaysPausedIff` says that this happens
  exactly to tasks with a queue entry at the time of the Pause.

## Model

| member | source | states |
|---|---|---|
| RangeTheorems.EveryOffsetHasOnePlace | internal/protocol/http/fetcher.go:984-1032 | In every state of every interleaving, two connections never own the same offset, and an offset nobody owns is on disk with the right byte, except below a prefix that is (or was) in the prefetch file only. |
| RangeTheorems.InFlightWriteIsOwned | internal/protocol/http/fetcher.go:1398-1445 | However often other goroutines split or steal from a connection between the two critical sections of a write, every offset of the write still belongs to that connection alone and gets the right byte. |
| RangeTheorems.BusiestIsSplit | internal/protocol/http/fetcher.go:984-1002 | The scan of slow start picks the first connection among those with the most remaining bytes of all that have more than twice the steal limit left. |
| RangeTheorems.SplitSizes | internal/protocol/http/fetcher.go:1004-1032 | A split gives the second half, rounded down, to the new connection, keeps the ranges adjacent, and leaves more than 512 KiB behind. |
| RangeTheorems.StealSizes | internal/protocol/http/fetcher.go:2010-2026 | A steal takes one byte more than half of the victim's remainder, adjacent to what stays, and leaves at least 262143 bytes. |
| RangeTheorems.StealsAreBounded | internal/protocol/http/fetcher.go:1983-2030 | At any moment of any run (steals since the last crash - connections) * 262143 is at most the size: between two steals a connection commits at least 262143 bytes. |
| RangeTheorems.StealsAreCounted | internal/protocol/http/fetcher.go:1996-2030 | The number of steals charged to the connections is the number of Steal steps since the last crash; no other step, and no restore, adds or keeps one. |
| RangeTheorems.CompletionIsSound | internal/protocol/http/fetcher.go:2130-2222 | After an uncancelled run whose verdict is success the file is complete if and only if no connection stopped on 403 with bytes left and no prefix was dropped with the prefetch file. |
| RangeDecisions.VerdictOfRun | internal/protocol/http/fetcher.go:2130-2222 | Once every goroutine of a run has stopped without being cancelled, the verdict is success if and only if no connection failed on an answer that contradicts its range and every connection whose end is unknown or not reached was refused with 403. |
| RangeDecisions.WhoIsGivenUp | internal/protocol/http/fetcher.go:1122-1175 | In an uncancelled run a connection that has stopped with work left was refused with 403, got an answer that contradicts its range, or failed on three counted errors; one that has not stopped has failed on at most two. |
| RangeDecisions.FailureIs | internal/protocol/http/fetcher.go:1122-1175 | A failed attempt changes nothing of the chunk and its counts; only a contradiction, a 403 and the third counted error stop the goroutine, and only these three kinds mark the connection as failed. |
| RangeDecisions.ResumedIs | internal/protocol/http/fetcher.go:2081-2111 | A stopped connection is left as it was if and only if it is completed, or failed on 403 or with three counted errors; any other keeps its chunk and counts and starts over as not started and not failed. |
| RangeDecisions.ResumedAfterErrorIs | internal/protocol/http/fetcher.go:718-735 | After an error every connection that is not completed starts over, without its last error. |
| RangeProgress.CanAlwaysSucceed | internal/protocol/http/fetcher.go:806-2222 | From every state of every run, after any failures, pauses, splits, steals and crashes, a pause and a restart can end in success, with a complete file if and only if no prefix was lost; the exception is a download of unknown size that has everything already. |
| RangeProgress.NothingAnswersAtEnd | internal/protocol/http/fetcher.go:1189-1234 | That exception: the request of an open-ended chunk at the end of the resource starts behind it, and no range answers it. |
| RangeTheorems.SuccessWithoutData | internal/protocol/http/fetcher.go:2158-2166 | A concrete run in which HTTP 403 on the only connection is reported as success with an empty file. |
| RangeTheorems.SuccessWithoutPrefix | internal/protocol/http/fetcher.go:1515-1518 | A concrete run in which the Resolve stream and the first range request both fail, the prefetch file is dropped, and the retry is reported as success with byte 0 missing. |
| RangeTheorems.TakeoverIsExact | internal/protocol/http/fetcher.go:1477-1497 | When the first 206 takes over, the whole Resolve prefix is in the file and counted, exactly prefetched - requestedStart body bytes are to be discarded, and the next write lands at prefetched. |
| RangeTheorems.OverlapIsDiscarded | internal/protocol/http/fetcher.go:1388-1416 | A read inside the overlap writes nothing; the first one past it writes, at the connection's own position, the source's bytes cut to what the connection still owns. |
| RangeTheorems.PauseKeepsThePrefix | internal/protocol/http/fetcher.go:2347-2371 | Pause copies a live Resolve prefix into the file and moves the only chunk to its end, so that prefix and chunk again cover everything. |
| RangeTheorems.SnapshotIsAResumePoint | internal/protocol/http/fetcher_manager.go:80-151 | A snapshot of any moment, even in mid-write, restored at any later crash and resumed satisfies the whole invariant; it has no hole if and only if it was not taken while the prefix was in the prefetch file only, or the prefix reached the file after all. |
| RangeTheorems.SnapshotWithHole | internal/protocol/http/fetcher_manager.go:104-186 | A concrete run: Store while the first byte is in the prefetch file only, a crash, and a resumed download in which nobody owns byte 0 and it is not on disk. |
| RangeTheorems.StoreNow | internal/protocol/http/fetcher_manager.go:104-151 | What makes a snapshot incomplete at the moment of Store, and that ranges, counts and completion marks are kept unchanged. |
| RangeProofs.EveryRun | internal/protocol/http/fetcher.go:806-1476 | Every state of every run keeps the invariant: disjoint ranges, tiling, conservation of counted and remaining bytes, true file contents, the steal budget and a resumable snapshot. |
| RangeFetcher.Fetcher.LaunchFirst | internal/protocol/http/fetcher.go:936-981 | The first connection owns everything past the Resolve prefix, or the download is done already; the controller counts it. |
| RangeFetcher.Fetcher.FindMostWork | internal/protocol/http/fetcher.go:984-1002 | The scan loop finds the connection the specification names. |
| RangeFetcher.Fetcher.SplitConnection | internal/protocol/http/fetcher.go:1004-1032 | One split in place yields exactly the specified ranges, one of them in a fresh connection. |
| RangeFetcher.Fetcher.SplitBatch | internal/protocol/http/fetcher.go:982-1034 | The loop over a batch performs the specified sequence of splits and stops early when nobody is splittable. |
| RangeFetcher.Fetcher.ExpandConnections | internal/protocol/http/fetcher.go:969-1049 | Expansion launches at most the controller's batch, and the launched count stays the number of connections. |
| RangeFetcher.Fetcher.FindSlowest | internal/protocol/http/fetcher.go:1983-2009 | Among all connections worth helping the one that needs longest is chosen. |
| RangeFetcher.Fetcher.TakeHalf | internal/protocol/http/fetcher.go:2010-2026 | The steal in place yields exactly the specified ranges. |
| RangeFetcher.Fetcher.HelpOtherConnection | internal/protocol/http/fetcher.go:1983-2030 | A finished connection steals from an eligible victim, and changes nothing when there is none. |
| RangeFetcher.Fetcher.BeginWrite | internal/protocol/http/fetcher.go:1388-1418 | The first critical section drops the overlap, cuts the rest to what is still owned, and fixes the offset. |
| RangeFetcher.Fetcher.CommitWrite | internal/protocol/http/fetcher.go:1432-1445 | The second critical section counts exactly the written bytes. |
| RangeFetcher.Fetcher.CommitResolveTakeover | internal/protocol/http/fetcher.go:1477-1497 | The takeover copies the prefix once and answers how many body bytes overlap it; a stream that is short of the request or longer than the size is an error, after which the stream is over, its prefix copied and no counter changed. |
| RangeFetcher.Fetcher.AcceptPartialContent | internal/protocol/http/fetcher.go:1285-1308 | Taking a validated 206 has exactly the effect of the specified step, or fails for exactly the invalid offsets of the takeover. |
| RangeFetcher.Fetcher.MaterialisePrefix | internal/protocol/http/fetcher.go:2347-2371 | The end of Pause has exactly the effect of the specified step. |
| RangeFetcher.Fetcher.ResumeConnections | internal/protocol/http/fetcher.go:2081-2121 | Exactly the connections that are neither completed nor given up for good get a goroutine again, each of them once, and the loop changes the fields as specified. |
| RangeFetcher.Fetcher.SnapshotConnections | internal/protocol/http/fetcher_manager.go:126-151 | The snapshot is a fresh copy of every serialised field. |
| RangeFetcher.Fetcher.TotalDownloaded | internal/protocol/http/fetcher.go:2133-2141 | The sum of the per-connection counters. |
| RangeFetcher.Fetcher.AllChunksComplete | internal/protocol/http/fetcher.go:2143-2168 | True exactly when every chunk is done or its connection stopped on 403. |
| RangeFetcher.Fetcher.OnDownloadComplete | internal/protocol/http/fetcher.go:2130-2222 | The verdict of the final check, integrity errors first; in every state a run can reach it is success exactly when no connection was contradicted and every one with something left undone was refused with 403. |
| SlowStart.BatchSquares | internal/protocol/http/fetcher.go:227-243 | From the second commit on the specified batch size is the square of the last one, capped. |
| SlowStart.CapIsExact | internal/protocol/http/fetcher.go:236-240 | The division test decides exactly whether the square would exceed the maximum, without forming it. |
| SlowStart.NextSizeIsNextBatch | internal/protocol/http/fetcher.go:227-243 | One commit moves the batch size from min(max, 2^(2^(k-1))) to min(max, 2^(2^k)). |
| SlowStart.SlowStartController.GetNextBatchSize | internal/protocol/http/fetcher.go:205-226 | Never more than what the maximum still allows. |
| SlowStart.SlowStartController.CommitBatch | internal/protocol/http/fetcher.go:227-243 | After k commits the batch size is min(max, 2^(2^(k-1))), and the launched count never exceeds the maximum. |
| SlowStart.SlowStartController.OnConnectSuccess | internal/protocol/http/fetcher.go:168-184 | A batch is complete, and the loop is woken, exactly when the last of its connections reported. |
| SlowStart.SlowStartController.OnConnectFailed | internal/protocol/http/fetcher.go:185-204 | A failed connection leaves the batch; the loop is woken when none is pending. |
| ValidatorTheorems.OneRepresentation | internal/protocol/http/fetcher.go:1189-1354 | Over all runs against a server that obeys If-Range and never reuses a validator, all counted bytes of a pinned or sequential download belong to one representation. |
| ValidatorTheorems.AppendsToTheSame | internal/protocol/http/fetcher.go:1374-1445 | A body read of a pinned or sequential download only ever appends to bytes of the same representation, which are all in the file. |
| ValidatorTheorems.FinishedSequential | internal/protocol/http/fetcher.go:1340-1352 | The counted bytes of a completed sequential download are, byte for byte, one representation the server served; nothing lies behind them in the file if every restore of the run met the guard on the end of the file and no accepted 200 announced an empty body. |
| ValidatorTheorems.FinishedPinned | internal/protocol/http/fetcher.go:1309-1322 | The counted bytes of a full pinned range download are exactly the representation its validator names, of the length of the size; nothing lies behind them in the file under the same condition. |
| ValidatorTheorems.TailAfterRestore | internal/protocol/http/fetcher.go:738-747 | A concrete run against a server that never reuses a validator: a snapshot restored over the file of a longer representation, while a third one of the length of the snapshot is served, completes with the tail of the longer one, because neither the reopened file nor the plain 200 truncates. |
| ValidatorTheorems.TailAfterEmpty | internal/protocol/http/fetcher.go:1656-1685 | A concrete run without any crash: a restart that announces an empty body sets the size to 0, which reads as not known from then on, so that a longer body that was interrupted stays behind a shorter one. |
| ValidatorTheorems.PausedPrefixIsUnguarded | internal/protocol/http/fetcher.go:2347-2371 | A concrete run without any crash: Pause counts what the Resolve stream delivered without pinning its validator, and the rest of the file comes from a replaced representation. |
| ValidatorExtents.StepNeat | internal/protocol/http/fetcher.go:1264-1352 | Every step but a restore, and but a 200 that announces an empty body, keeps the end of the file: a finished download ends where its bytes do, and one that is not finished ends at its size or before, or truncates before it counts. |
| ValidatorTheorems.MixedAfterRestore | internal/protocol/http/fetcher_manager.go:152-186 | A concrete run: a snapshot from before a replacement, restored after the old validator came back, completes a pinned file that mixes two representations. |
| ValidatorRestores.AnyServerAgrees | internal/protocol/http/fetcher.go:2053-2070 | Even if replaced validators come back: in a run that answers no 200 between a Store and the Crash that restores it, all counted bytes of a pinned or sequential download are of one content and equal to the file. |
| ValidatorRestores.RestoreIsSafeIff | internal/protocol/http/fetcher_manager.go:152-186 | After a run in which every earlier restore met the first half of the condition, a restore has a continuation (with no other crash and no empty body taken) that finishes with counted bytes that are not in the file, or with bytes behind them, if and only if the restore is not safe. Safe is both: the counted bytes of the snapshot are on disk, or it does not rely on them; and the file ends at its size or before (at its last byte when completed), or the restored fetcher truncates it because it is unpinned in range mode, of unknown size, or probes under a validator of another length. |
| ValidatorRestores.SafeRestoresNeverMix | internal/protocol/http/fetcher_manager.go:152-186 | A run in which every restore is safe and no accepted 200 announces an empty body never finishes with a mixture or a tail, whatever the server does with its validators. |
| ValidatorRestores.EmptyAnswerMixes | internal/protocol/http/fetcher.go:1336-1342 | That exception is needed: after any accepted 200 that announces an empty body some continuation finishes with bytes behind the end. |
| ValidatorRestores.FreshFinishes | internal/protocol/http/fetcher.go:2053-2070 | In a run that answers no 200 between a Store and the Crash that restores it, and takes no empty body, every restore is safe and no state is a finished mixture, nor has a tail. |
| ValidatorRestores.GivesUp206 | internal/protocol/http/fetcher.go:1285-1293 | A probe under a validator whose content has another length than the size is refused on the total of its 206, so it appends nothing. |
| ValidatorProofs.EveryRun | internal/protocol/http/fetcher.go:1189-1354 | Every state of every run keeps the invariant that ties validators, counters, snapshots and file contents together. |
| ValidatorProofs.Take200StartsOver | internal/protocol/http/fetcher.go:1264-1284 | An accepted 200 always starts over: nothing stays counted and the validator becomes the new one, or none while the length is unknown. |
| ValidatorProofs.Take206Guards | internal/protocol/http/fetcher.go:1285-1322 | A 206 is accepted only for the requested range and total, and pins the validator only when it is the server's current one. |
| ValidatorDecisions.Take206Is | internal/protocol/http/fetcher.go:1285-1322 | For every connection a 206 is taken if and only if it starts and ends where it was asked to (at the total if no end was asked for), has the known size as total, and, on the first connection while the Resolve stream lives, starts within the delivered prefix, which is not longer than the total; with all resulting fields. |
| ValidatorDecisions.Take200Is | internal/protocol/http/fetcher.go:1264-1352 | A 200 to a range request is taken exactly from a probe or from the first connection while it is alone; one to a plain request exactly when it may restart or its length does not contradict the size; with all resulting fields. |
| ValidatorDecisions.ServedRangeIsRead | internal/protocol/http/fetcher.go:1285-1308 | In every run a connection, first or not, that asked for a range of what is served, of the known size, gets to read it from where it asked, or from the end of the Resolve prefix. |
| ValidatorDecisions.RequestIs | internal/protocol/http/fetcher.go:1189-1233 | What is asked for: a range in range mode or behind a prefix whose validator and whole are known, guarded by the validator after a pin, while the Resolve stream lives and for a probe; everything otherwise. |
| ValidatorDecisions.PreparedIs | internal/protocol/http/fetcher.go:1189-1230 | Counted bytes survive the preparation of an attempt exactly in range mode and before a probe. |
| ValidatorFetcher.Guard.PrepareAttempt | internal/protocol/http/fetcher.go:1189-1230 | The fields and the request an attempt prepares are the specified ones: probe with If-Range, guarded range, plain range, or restart. |
| ValidatorFetcher.Guard.TakeFull | internal/protocol/http/fetcher.go:1264-1352 | Taking a 200 has exactly the specified effect and verdict. |
| ValidatorFetcher.Guard.TakePartial | internal/protocol/http/fetcher.go:1285-1322 | Taking a 206 has exactly the specified effect and verdict. |
| ValidatorFetcher.Guard.FallbackToSequentialDownload | internal/protocol/http/fetcher.go:1618-1640 | Only the primary, alone, may turn a 200 into a sequential download. |
| ValidatorFetcher.Guard.RestartSequentialDownload | internal/protocol/http/fetcher.go:1641-1655 | The old prefix is forgotten and the new validator recorded. |
| ValidatorFetcher.Guard.CommitResolveTakeover | internal/protocol/http/fetcher.go:1477-1497 | The takeover ends the fallback, and pins the validator only when it succeeds. |
| ValidatorFetcher.Guard.ResetConnectionForRestart | internal/protocol/http/fetcher.go:2032-2052 | Without range support the counters restart at zero. |
| LeaseTheorems.TaskRefsAreExact | internal/blob/registry.go:427-462 | For each registered, unrevoked source taskRefs is the number of leases tasks hold or have in hand plus the releases on their way. |
| LeaseTheorems.ReleaseNeverUnderflows | internal/blob/registry.go:443-462 | A release that reaches an unrevoked source never finds its count at zero. |
| LeaseTheorems.LeasedSourceLives | internal/blob/registry.go:516-540 | While a task leases a source neither another task's release nor the unclaimed timer revokes it. |
| LeaseTheorems.LastReleaseRevokes | internal/blob/registry.go:219-240 | A release revokes a registered source if and only if no lease and no release is left. |
| LeaseTheorems.SessionHandedOnce | internal/blob/registry.go:498-515 | Each source hands its session over for release exactly once, when it is revoked. |
| LeaseTheorems.SessionRefsAreExact | pkg/download/extension_engine_session.go:35-61 | For each session refs is its unrevoked sources plus active readers plus releases owed. |
| LeaseTheorems.NeverClosedInUse | pkg/download/extension_engine_session.go:44-76 | A session is closed at most once, and never under a live source, an active reader or an owed release. |
| LeaseTheorems.NoSessionLeaks | pkg/download/extension_engine_session.go:44-61 | A session that was used is closed exactly when nothing uses it any more. |
| LeaseTheorems.ReaderRetainCounts | internal/blob/registry.go:409-426 | A reader's retain of its source's session always takes effect. |
| LeaseTheorems.EachCloserOnce | pkg/download/extension_engine_session.go:77-100 | Every closer runs at most once, never before the close, and all have run when the close is over. |
| LeaseTheorems.ExpiresUnclaimed | internal/blob/registry.go:516-540 | In every run the timer gives a live registered source up if and only if no lease on it is held or on its way, and its session is then owed one release. |
| LeaseTheorems.AcquiredIsLeased | internal/blob/registry.go:427-441 | A task that acquires a live source has it in hand, and the source counts one claim more. |
| LeaseTheorems.LeaseGoesOn | pkg/download/downloader.go:2495-2527 | Recording a new lease gives exactly the old one up, and giving up leaves none; no other release appears. |
| LeaseProgress.AllCanBeFreed | internal/blob/registry.go:409-540 | From every state of every run the tasks can give their leases up, the readers end and the timers expire, after which every source is revoked, every session is closed exactly once and every closer has run exactly once. |
| LeaseProofs.EveryRun | internal/blob/registry.go:409-552 | Every interleaving of creates, leases, releases, revokes, expiries, closes and readers keeps all counts exact. |
| LeaseProofs.LiveMeansOpen | internal/blob/registry.go:415-419 | A source that is not revoked keeps its session open. |
| LeaseObjects.EngineSession.Retain | pkg/download/extension_engine_session.go:35-43 | A closed session is not retained. |
| LeaseObjects.EngineSession.Release | pkg/download/extension_engine_session.go:44-61 | The last release closes the session once and runs its closers, even while another call still runs some. |
| LeaseObjects.EngineSession.CloseIfIdle | pkg/download/extension_engine_session.go:62-76 | An idle session is closed once by the call that finds it idle, which alone runs the closers. |
| LeaseObjects.EngineSession.OnClose | pkg/download/extension_engine_session.go:77-90 | A closer waits for the close, or runs at once after it. |
| LeaseObjects.EngineSession.RunClosers | pkg/download/extension_engine_session.go:91-99 | The loop runs every waiting closer once. |
| LeaseObjects.AllRunMoves | pkg/download/extension_engine_session.go:91-99 | After the closers of a close have run none waits or is half way and each one ran. |
| LeaseObjects.Source.AcquireTask | internal/blob/registry.go:427-442 | A revoked source cannot be acquired; otherwise its count grows by one. |
| LeaseObjects.Source.ReleaseTask | internal/blob/registry.go:443-462 | The last release revokes the source and hands its session to the caller. |
| LeaseObjects.Source.ExpireUnclaimed | internal/blob/registry.go:516-529 | Only an unclaimed source expires. |
| LeaseObjects.Source.AcquireOpen | internal/blob/registry.go:409-426 | A reader retains the session of a source in use and gets nothing from a revoked one. |
| LeaseObjects.Source.Close | internal/blob/registry.go:498-515 | Closing revokes once and releases the session at most once. |
| LeaseObjects.Registry.CreateOpener | internal/blob/registry.go:134-190 | A new source is registered and retains its session. |
| LeaseObjects.Registry.Get | internal/blob/registry.go:643-670 | Unknown and revoked sources are told apart. |
| LeaseObjects.Registry.Acquire | internal/blob/registry.go:207-218 | Acquire claims a registered, unrevoked source and fails otherwise. |
| LeaseObjects.Registry.Release | internal/blob/registry.go:219-240 | The last release revokes and unregisters the source and releases its session; any other one only counts down. |
| LeaseObjects.Registry.Revoke | internal/blob/registry.go:249-257 | Revoking unregisters the source and releases its session. |
| LeaseObjects.Registry.ExpireUnclaimed | internal/blob/registry.go:530-540 | Expiry unregisters an unclaimed source and releases its session. |
| LeaseObjects.Registry.Close | internal/blob/registry.go:258-288 | Closing empties the registry and revokes every source it held. |
| LeaseObjects.TaskLease.SyncBlobTaskLease | pkg/download/downloader.go:2495-2528 | The lease follows the request, acquiring the new source before releasing the old one; a finished task leases nothing. |
| LeaseObjects.TaskLease.ReleaseBlobTask | pkg/download/downloader.go:2480-2493 | The lease is given up and its source released once. |
| LeaseObjects.TaskLease.ReleaseBlobTaskURL | pkg/download/downloader.go:2530-2546 | Only the task that still holds the URL releases it. |
| HlsTheorems.SuccessIsTheOutput | internal/protocol/hls/fetcher.go:561-594 | After any number of crashes, pauses and restarts at any step, a run that reports success has left the concatenation of all segments in plan order, and reports its length. |
| HlsTheorems.OutputIsNeverPartial | internal/protocol/hls/fetcher.go:805-848 | At no moment does the output path hold part of an output. |
| HlsTheorems.ProgressIsStored | internal/protocol/hls/fetcher.go:663-692 | The downloaded counter is exactly the bytes of the counted segments, each of which is on disk under its own name. |
| HlsTheorems.StoredSurvivesCrash | internal/protocol/hls/fetcher.go:849-862 | A crash after a segment was stored loses it if and only if it is empty: every non-empty one is taken over by the next run. |
| HlsTheorems.EmptySegmentIsFetchedAgain | internal/protocol/hls/journal.go:81-87 | A concrete run: an empty segment is stored and journalled, the process dies, and the next run does not take it over. |
| HlsTheorems.TakesOverWholeSegments | internal/protocol/hls/fetcher.go:595-619 | A run takes over nothing but whole segments of its own plan. |
| HlsTheorems.TakenOverIff | internal/protocol/hls/journal.go:65-92 | A run takes over exactly the segments that a journal with its own id, fingerprint and number of segments names with the positive size their file has; every other segment is queued. |
| HlsTheorems.ForeignIsIgnored | internal/protocol/hls/journal.go:73-80 | With a journal of another id, fingerprint or number of segments, or one that does not parse, nothing is taken over and everything is queued. |
| HlsProgress.CanAlwaysSucceed | internal/protocol/hls/fetcher.go:561-862 | From every state of every run, after any number of crashes, failures and pauses, starting again can end in success with the whole output in place and its length reported. |
| HlsProgress.PauseIsObeyed | internal/protocol/hls/fetcher.go:477-491 | After a pause no segment is taken and no fresh output reported until the next start, and nothing but a pause or a crash ends a run without a report. |
| HlsProgress.FailureHasCause | internal/protocol/hls/fetcher.go:561-594 | A download is reported as failed only if a fetch, a store or the merge failed since it was started. |
| HlsTheorems.MergeFindsEverySegment | internal/protocol/hls/fetcher.go:805-830 | When the merge starts, no segment is missing. |
| HlsProofs.EveryRun | internal/protocol/hls/fetcher.go:561-862 | Every interleaving of workers, journal writes, merge, clean-up, pause and crash keeps the invariant. |
| HlsRun.PendingIsTheRest | internal/protocol/hls/fetcher.go:595-619 | The pending list holds exactly the segments that are not kept, in plan order. |
| HlsRun.OutputIsConcat | internal/protocol/hls/fetcher.go:805-848 | With every segment on disk the merged output is the output of the plan. |
| HlsRun.Run.LoadJournal | internal/protocol/hls/journal.go:65-92 | A journal whose id, fingerprint or number of segments differs leaves nothing loaded; of one that agrees, exactly the entries of a segment of the plan with a positive size are. |
| HlsRun.Run.PrepareRun | internal/protocol/hls/fetcher.go:595-619 | Kept segments are counted, the others become pending in order; a journal that cannot be read leaves the run as it was. |
| HlsRun.Run.SaveJournal | internal/protocol/hls/journal.go:93-112 | The journal on disk is replaced as a whole by the one in memory, or not at all. |
| HlsRun.Run.StoreSegment | internal/protocol/hls/fetcher.go:849-862 | A segment is complete under its name before the journal mentions it, whichever operation fails. |
| HlsRun.Run.Merge | internal/protocol/hls/fetcher.go:805-848 | The loop writes all staged segments in order and replaces the target; a failure leaves the staged files, and the target as it was or absent. |
| HlsRun.MergeComplete | internal/protocol/hls/fetcher.go:805-848 | Merging a complete download yields the output of the plan and its length. |
| Spans.AddSpan | pkg/download/engine/ffmpeg/spool.go:55-78 | The list stays sorted, disjoint and non-touching, covers exactly what it covered and the new span, and the count is the number of newly covered positions. |
| Spans.Merge | pkg/download/engine/ffmpeg/spool.go:61-74 | The loop that builds the new list. |
| Spans.TotalIsSize | pkg/download/engine/ffmpeg/spool.go:56-59 | The total length of a canonical list is the number of positions it covers. |
| Spans.CanonicalIsUnique | pkg/download/engine/ffmpeg/spool.go:55-78 | A set of positions has one canonical list, so spans may be added in any order. |
| Spool.LocationIsQuotient | pkg/download/engine/ffmpeg/spool.go:93 | The block and the offset in it are quotient and remainder by the block size. |
| Spool.RecordShows | pkg/download/engine/ffmpeg/spool.go:104-112 | After a write to a block file the recorded intervals are again exactly the bytes written since the file was last removed. |
| Spool.ForgetShows | pkg/download/engine/ffmpeg/spool.go:151-159 | Removing a block file together with its intervals keeps that. |
| Spool.PatchedTwice | pkg/download/engine/ffmpeg/spool.go:92-125 | Writing piece by piece is writing at once. |
| Spool.BlockSpool.WriteAt | pkg/download/engine/ffmpeg/spool.go:79-127 | The first n bytes are stored and valid, nothing else changes; positions are counted once, bytes every time; any file error fails the spool. |
| Spool.BlockSpool.CountWrite | pkg/download/engine/ffmpeg/spool.go:105-109 | downloaded stays the number of offsets ever written and never exceeds received. |
| Spool.BlockSpool.ReadAt | pkg/download/engine/ffmpeg/spool.go:128-150 | Whatever is read is what was last written there; without an error it is as much as was asked for or as is valid before the next gap or block. |
| Spool.BlockSpool.Discard | pkg/download/engine/ffmpeg/spool.go:151-159 | A block file and what is recorded of it go together or not at all. |
| Spool.BlockSpool.Close | pkg/download/engine/ffmpeg/spool.go:169-177 | Closing forgets the contents and keeps the counters. |
| DiskInput.Queue.Store | pkg/download/engine/ffmpeg/spool.go:201-216 | A write stores a prefix of its bytes at the end of the queue, and nothing after End. |
| DiskInput.Queue.Take | pkg/download/engine/ffmpeg/spool.go:227-240 | A read takes the next bytes of the queue; without an error it takes none only when all were consumed. |
| DiskInput.Queue.Evict | pkg/download/engine/ffmpeg/spool.go:229-236 | Eviction removes exactly the block that was read to its end, so no unread byte. |
| DiskInput.Queue.CheckEnd | pkg/download/engine/ffmpeg/spool.go:244-261 | The second look after End finds the end of the file only with everything consumed and no error. |
| DiskInput.Queue.Read | pkg/download/engine/ffmpeg/spool.go:218-266 | What was read is a prefix of what was written; EOF only after End without error and with everything consumed. |
| DiskInput.Queue.Write | pkg/download/engine/ffmpeg/spool.go:201-216 | A write appends what it accepted, in order. |
| DiskInput.Schedule | pkg/download/engine/ffmpeg/spool.go:201-266 | Over any schedule of critical sections that respects the read and write locks what was read is a prefix of what was written; an end of file is reported only with everything consumed, after an End, on a spool that had not failed, and with no error among the Ends before the report. |
| HttpSpool.Schedule | pkg/download/engine/ffmpeg/http_spool.go:87-236 | Over every schedule of the critical sections of prefetch and demand fetches, reads, evictions and seeks that respects the two locks: every read returns exactly source[pos..pos+n]; every fetch that succeeds has found or stored each position of its window at some moment, has consumed exactly the lengths of the ranges it validated, and takes a bounded number of sections. |
| HttpSpool.HttpSpool.Probe | pkg/download/engine/ffmpeg/http_spool.go:97-104 | Looking for the next bytes moves the fetch on past what is there, or makes it ask; its measure falls. |
| HttpSpool.HttpSpool.Accept | pkg/download/engine/ffmpeg/http_spool.go:105-130 | A response is accepted if and only if its status is 206, its range starts where it was asked for and ends within the window, its total, validator and encoding are the source's, and its Content-Length is absent, negative or the length of that range; that length is then what is still to come. |
| HttpSpool.AcceptsGood | pkg/download/engine/ffmpeg/http_spool.go:109-130 | The same as a statement about the numbers of a response, and how many bytes its range says are to come. |
| HttpSpool.HttpSpool.StoreNext | pkg/download/engine/ffmpeg/http_spool.go:131-152 | One body read is stored where it belongs, and the fetch moves on by its length or fails. |
| HttpSpool.HttpSpool.BodyEnd | pkg/download/engine/ffmpeg/http_spool.go:153-160 | A body must end without an error exactly where its range ends. |
| HttpSpool.BodyPart | pkg/download/engine/ffmpeg/http_spool.go:131-139 | Whatever is read next from an accepted body is the part of the source at the offset it is stored at. |
| HttpSpool.Found | pkg/download/engine/ffmpeg/http_spool.go:96-104 | Skipping bytes that are there keeps what a fetch claims of its window and lowers its measure. |
| HttpSpool.BodyDone | pkg/download/engine/ffmpeg/http_spool.go:153-166 | A finished body adds its validated length to what was consumed; at the end of the window the fetch is complete. |
| HttpSpool.HttpSpool.TakeBody | pkg/download/engine/ffmpeg/http_spool.go:127-160 | Without interruption an accepted response is consumed exactly: neither fewer nor more bytes than its range. |
| HttpSpool.HttpSpool.Fetch | pkg/download/engine/ffmpeg/http_spool.go:87-167 | Without interruption the fetch ends, and on success every position of its window is valid; it succeeds if every request gets an accepted answer with exactly that body and no operation of the spool fails. |
| HttpSpool.HttpSpool.Take | pkg/download/engine/ffmpeg/http_spool.go:187-195 | A read that returns n > 0 bytes at pos returns exactly source[pos..pos+n], and takes none only where nothing is valid. |
| HttpSpool.HttpSpool.Read | pkg/download/engine/ffmpeg/http_spool.go:168-213 | The same for a whole read: it waits only where nothing is valid, and evicts exactly the block it moved past. |
| HttpSpool.HttpSpool.Seek | pkg/download/engine/ffmpeg/http_spool.go:214-236 | A seek succeeds exactly when the new position is not negative and fits 64 bits: the wrap-around test is exact. |
| PieceMap.PieceMap.constructor | pkg/base/piece_map.go:37-48 | A new map has the given number of incomplete pieces, none for a negative count. |
| PieceMap.PieceMap.Add | pkg/base/piece_map.go:85-96 | Appends one piece and leaves the others alone. |
| PieceMap.PieceMap.Delete | pkg/base/piece_map.go:97-113 | Removes one piece, moves the following ones up across bytes, and rejects exactly the bad indexes. |
| PieceMap.PieceMap.Update | pkg/base/piece_map.go:114-131 | Replaces one piece; completedPieces stays the number of completed ones. |
| PieceMap.PieceMap.Get | pkg/base/piece_map.go:132-139 | Reads one piece or rejects the index. |
| PieceMap.PieceMap.Clone | pkg/base/piece_map.go:72-84 | An independent map with the same pieces. |
| PieceMap.PieceMap.SetCompleted | pkg/base/piece_map.go:175-183 | Changes one bit. |
| PieceMap.PieceMap.ClearUnusedBits | pkg/base/piece_map.go:184-191 | Clears the bits past the last piece. |
| PieceMap.PieceMap.CompletedAt | pkg/base/piece_map.go:170-174 | The mask test reads the piece's bit. |
| PieceMap.FromBytes | pkg/base/piece_map.go:50-70 | A byte string of the right length becomes the map of its bits; errors for any other input. |
| PieceMap.RoundTrip | pkg/base/piece_map.go:140-142 | Bytes followed by FromBytes is the identity, counters included. |
| PieceMap.PackedIsUnique | pkg/base/piece_map.go:50-70 | Bytes whose unused bits are clear are determined by the pieces. |
| PieceMap.WithBitUnpacked | pkg/base/piece_map.go:175-183 | Setting or clearing a bit by its mask replaces that one piece. |
| PieceMap.ClearedUnpacked | pkg/base/piece_map.go:184-191 | Masking the last byte keeps every piece and clears every unused bit. |
| PieceMap.OnesArePiecesBelow | pkg/base/piece_map.go:65-69 | Counting the ones of every byte counts the completed pieces. |
| Invoke.DrainedMeansEmpty | bind/native/invoke.go:129-225 | In every run the current drained channel is closed exactly when nothing is pending, and no channel is closed twice. |
| Invoke.CallbackOnce | bind/native/invoke.go:33-40 | An accepted request's callback fires at most once, and has fired once its handler returned or it was detached and failed. |
| Invoke.PauseWaitedForAll | bind/native/invoke.go:167-187 | When the channel a pause waited for is closed, every request accepted before the pause has had its callback or is being failed by another pause. |
| Invoke.AcceptedIff | bind/native/invoke.go:140-166 | Over any run a request is accepted exactly when nothing closed the executor before and every pause was resumed; it is then pending and its handler runs, and otherwise nothing changes. |
| Invoke.ExpiredAnswersAll | bind/native/invoke.go:189-203 | After a pause whose deadline has passed every request accepted before it has had its callback or is about to be failed, at every later moment. |
| Invoke.AllCanBeAnswered | bind/native/invoke.go:167-225 | From every state of every run the pending requests can end and the detached ones be failed, after which every request has had its callback exactly once and the drained channel is closed. |
| Invoke.SubmitIs | bind/native/invoke.go:140-160 | An accepted request is recorded as pending and running under the current channel, which is open; a rejected one changes nothing. |
| Invoke.RemoveIs | bind/native/invoke.go:212-225 | A request that ends is no longer pending, nobody else is touched, and the channel is closed exactly when nobody is left. |
| Invoke.ExpireIs | bind/native/invoke.go:189-201 | What was pending at the deadline is detached and to be failed, all of it. |
| Invoke.EveryRun | bind/native/invoke.go:129-225 | Every interleaving of submit, run, pause, resume and close keeps the invariant. |
| Invoke.Executor.Submit | bind/native/invoke.go:140-160 | A request is accepted only while accepting, and opens a new channel when nothing is pending. |
| Invoke.Executor.Remove | bind/native/invoke.go:212-225 | The last pending request closes the channel; a detached one does nothing. |
| Invoke.Executor.PauseExpire | bind/native/invoke.go:189-201 | After the deadline everything pending is detached and the channel closed once. |
| Invoke.Executor.FailDetached | bind/native/invoke.go:199-202 | The loop makes every detached request's callback that was not made yet. |
| Invoke.Executor.CloseDrained | bind/native/invoke.go:197-198 | Closing requires an open channel. |
| Scheduler.NeverAboveMax | pkg/download/downloader.go:541-566 | No run of create, continue, continue-all, pause, pause-all, finish and notify has more than MaxRunning tasks running. |
| Scheduler.EnoughToPause | pkg/download/downloader.go:770-776 | There are always at least needRunningCount - remainRunningCount running tasks to pause. |
| Scheduler.ContinueMakesRoom | pkg/download/downloader.go:770-796 | When its pauses succeed, Continue leaves exactly the room its tasks need. |
| Scheduler.ContinueRuns | pkg/download/downloader.go:753-821 | The first MaxRunning of the continued tasks run, the rest wait in the queue in order behind the displaced ones. |
| Scheduler.ContinueAllRuns | pkg/download/downloader.go:823-850 | For every task and any failures: continue-all starts the tasks that neither run nor are done, in order, up to the first that cannot start and as many as there is room for; those past the room wait in the queue; all others are left alone. |
| Scheduler.ContinueAllFills | pkg/download/downloader.go:823-850 | Continue-all succeeds if and only if none of the tasks within the room fails to start, and then min(MaxRunning, running + startable) tasks run. |
| Scheduler.CreateRuns | pkg/download/downloader.go:1706-1720 | A new task waits exactly when no place is free. |
| Scheduler.PausedAllIs | pkg/download/downloader.go:713-732 | A pause goes through the selected tasks in order: all up to the first whose fetcher cannot be paused become paused if they were ready, running or waiting, no other changes, and it succeeds exactly when there is no such fetcher. |
| Scheduler.RoomIsMadeIff | pkg/download/downloader.go:770-796 | Continue makes its room if and only if none of the first so many running tasks has a fetcher that cannot be paused. |
| Scheduler.MadeRoomTask | pkg/download/downloader.go:770-796 | Exactly those running tasks give up their place and wait in the queue. |
| Scheduler.NotifyIs | pkg/download/downloader.go:541-556 | A free place goes to the head of the queue, which leaves the queue and runs unless it is done or cannot be restored; nothing else changes. |
| Scheduler.PausedStaysPausedIff | pkg/download/downloader.go:713-732 | A task that a Pause has paused is started again without anybody continuing it if and only if it had an entry in the wait queue at the time of the Pause, and MaxRunning is not zero. |
| Scheduler.StaysOut | pkg/download/downloader.go:541-556 | A paused task without a queue entry stays so under every operation that does not continue it. |
| Scheduler.QueueIsServed | pkg/download/downloader.go:541-556 | Ending tasks and serving the queue gets to every task in the queue that can start. |
| Scheduler.PausedWaiterIsStarted | pkg/download/downloader.go:713-732 | A concrete run: pausing a waiting task leaves its queue entry, and the next free place starts it. |
| Scheduler.Downloader.RemainRunningCount | pkg/download/downloader.go:558-566 | The loop counts the running tasks. |
| Scheduler.Downloader.DoStart | pkg/download/downloader.go:1774-1794 | A task that neither runs nor is done starts, unless its fetcher cannot be restored. |
| Scheduler.Downloader.DoPause | pkg/download/downloader.go:1939-1956 | A task that can be paused is paused. |
| Scheduler.Downloader.Continue | pkg/download/downloader.go:753-821 | The loops have exactly the specified effect and keep the bound. |
| Scheduler.Downloader.ContinueAll | pkg/download/downloader.go:823-850 | The loop has exactly the specified effect and keeps the bound. |
| Scheduler.Downloader.Create | pkg/download/downloader.go:1706-1720 | A new task starts or waits, within the bound. |
| Scheduler.Downloader.Pause | pkg/download/downloader.go:713-732 | The loop pauses the tasks in turn; after the last one the head of the queue gets a free place. |
| Scheduler.Downloader.NotifyRunning | pkg/download/downloader.go:541-556 | The head of the queue starts only when a place is free. |
| MultiPart.Reader.ReadAt | pkg/download/extract_zip.go:140-181 | For every offset and any list of parts, also empty ones: exactly the joined content from the offset on, as much as asked for or as there is; end of file exactly at or past the end. |
| MultiPart.Reader.ReadParts | pkg/download/extract_zip.go:149-176 | The loop skips the parts before the offset and reads each of the others in turn. |
| MultiPart.Reader.Init | pkg/download/extract_zip.go:101-131 | The loop builds the cumulative offsets. |
| MultiPart.Reader.Size | pkg/download/extract_zip.go:133-138 | The length of the joined content. |
| MultiPart.PartAt | pkg/download/extract_zip.go:101-131 | A part lies in the joined content behind the parts before it. |

## Left out

- Sockets, TLS, proxies, cookies, header text, JSON, the key-value store, logging and OS error codes: a response is its status, validator, range, total and body, a file is a map from offsets to bytes with atomic rename.
- `runConnectionFallback` and `runConnectionWithResolveResp`: the sequential download that continues the Resolve body itself.
- Speed measurement: `speed` is any number, so the victim of a steal is any connection that passes the size tests.
- Errors of copying the prefetch file into the target, and `Patch` of a running fetcher.
- Fairness: that a mixed slow-start batch or a queued demand wakes its loop; that a run can still succeed is proved, not that it does.
- The order of a crash against unsynchronised disk caches: what was written before the process died stays written.
- `RangeTheorems.StealsAreBounded`: the bound is for the steals since the last crash; a crash throws committed bytes away, so every restored process has its own budget.
- `RangeFetcher.Fetcher.ResumeConnections`: resuming after an error (which also clears the last error) is modelled as a step of the transition system only, and the reset of a sequential connection in `ValidatorFetcher`.
- `RangeFetcher.Fetcher.SnapshotConnections`: the ID and the role of a connection, which are serialised too, are not modelled.
- `RangeFetcher.Fetcher.AllChunksComplete`: has the branch of needsMoreData for range mode only.
- `RangeFetcher.Fetcher.OnDownloadComplete`: has the completion test of range mode only; the sequential one is a step of `Validators`.
- `ValidatorTheorems.OneRepresentation`: starts at the pin or the first sequential prefix (before the first validator is pinned parallel ranges are not guarded at all), and is for a server that never serves a replaced validator again; `ValidatorRestores` says what holds for any other server.
- A fresh start over an existing file that is longer than the resource; a target file that is deleted or changed by others.
- Gaps between written ranges, which read as zeros: the file of `Validators` holds what was written and what a resize filled in.
- The hash behind the plan fingerprint is taken as injective, and segments of a plan as immutable on the server.
- `HlsRun.Run.LoadJournal`: keys that are not natural numbers are left out of the modelled file; the source skips them.
- `LeaseObjects.Registry.Close`: says that every source is revoked, not how far each session's count goes down; the run-level lemmas do.
- `LeaseObjects.Registry.CreateOpener`: option validation with its errors, and the timer it starts, are not modelled.
- `LeaseObjects.Registry.Get`: the error of a URL that does not parse is not modelled.
- The unclaimed-source timer is a step that may happen at any time; creating a source on a closed session does not happen.
- Reading errors recorded on a blob source, byte-range parsing of its HTTP handler, and the engine shutdown that follows a session's close.
- `HttpSpool.HttpSpool.Fetch`: says that the window is valid at the end only for a fetch nobody evicts from meanwhile; with evictions `HttpSpool.Schedule` says that each position was valid at some moment of the fetch.
- The block that opening the media source has fetched already, which is written to the spool before the first fetch.
- Which fetch runs when (the prefetch loop and the demand queue): any fetch may begin whenever the network lock is free.
- The wait-queue of the scheduler under a changing MaxRunning, `ContinueBatch`, `Delete`, and starts that race with creation.
- `Invoke.Executor.FailDetached`: the 64-bit wrap-around of request numbers, and the wait of `close` for running goroutines.
- JSON forms of `PieceMap`; a file part that changes size while `MultiPart` reads it.
- BitTorrent and ed2k, webview, the extension engine, REST and MCP routing, archive formats, user interfaces, the updater and the command line.
