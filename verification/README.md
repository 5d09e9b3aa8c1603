# A verified model of PhotoDrop

PhotoDrop collects photos and videos of an event from guests, keeps them in a local directory or in S3, and can send them to
an Immich server. This project models its two crash-tolerant protocols and its self-contained algorithms in Dafny, and proves
what they are for.

**Import engine** (`Immich*.dfy`). `ImmichModel` has the tables and every SQL transaction as a function from tables to tables;
`ImmichCalls` says what each means to its caller. `ImmichSteps` is the machine of all interleavings: requests, the runner, three
transfer workers, event deletion, lost remote replies, cancellation, crashes and recovery; a step is one transaction, statement or
remote request. `ImmichInvariant`, `ImmichTables`, `ImmichRunner`, `ImmichSafety` and `ImmichHistory` prove what every step keeps;
`ImmichOwnership` and `ImmichAlbums` are about the two promises that one kind of step can break; `ImmichTheorems` states everything
for whole runs, `ImmichDuplicates` what runs record of duplicates, and `ImmichLostAlbums` what becomes of lost album requests. `ImmichJobRun`, `ImmichBacklog` and `ImmichRounds` are about jobs that meet no failure and how many of them a
backlog takes. `ImmichStore` is the service as an object whose methods are proved equal to the transactions and to runs of the
machine. `ImmichReuse` and `ImmichMisplaced` hold the runs in which reused ids do harm.

**Media service** (`Media*.dfy`). `MediaModel` has the tables, the quota checks and the transactions; `MediaAnswers` says when each
transaction accepts, written out on the tables. `MediaSteps` is the machine
of local uploads, direct uploads, completion, cleanup, deletion, crashes and guests who replay any PUT. `MediaLedger` is about
quotas, `MediaSafety`, `MediaHistory` and `MediaTheorems` about what is stored, `MediaDeletion` about progress, `MediaLoss` about
the one way an object can be lost. `MediaStore` and `MediaRequests` do the same work in place, one request at a time.
`UploadServer` and `DirectServer` are the handlers of one request amid everything else: each executes the machine's steps one by
one, and between any two of them others go on; what others do and what fails is drawn from a list of chances. `DirectWatch` follows
one file through all of that, for the results about requests that nothing disturbs. `DirectUpload` is the page's upload, whose calls go
to those handlers.

**Algorithms**: `Limiter`, `ExportNames`, `ExportAlloc` (with `FirstFree` and `Text`), `Sniff`, `Cursors`, `Backends`,
`Migrate`, `QuotaEditor` and `MediaStats`. `Ordered` and `Wrappers` are small helpers.

Assumptions of the model. A database write succeeds or the process stops. A remote request takes effect, if at all, before its
caller goes on; its answer may be lost. Random ids are never drawn twice. An S3 key and a local file name are functions of the
event and the random asset id, so the id stands for them. The clock of a transaction is a parameter, so expiry, staleness and
cancellation can happen at any time. The remote Immich server stores one asset per content and
loses neither assets nor album entries. Unknown functions (case mapping, the
general image detector, the checksum, the effect of a script, the display of a number) are parameters.

Four promises do not hold as they are written, and each is stated exactly:

- Rows and their jobs. SQLite gives the id of a deleted newest row to the next row, so when the event of a claimed job is deleted
  before the job's snapshot, a new job can get its id and be ended in its place, leaving pending rows that no job owns
  (`ImmichReuse.ReuseWitness`). Only the end of a job can do that, and it does exactly if the job with the ended id is not to be
  cancelled, has open rows, and is not the failed job of the claimed binding id (`ImmichOwnership.EndOwned`, over runs
  `ImmichTheorems.JobsOwnRows`). It takes an enqueued import that gets the claimed job id (`ImmichTheorems.JobIdsSpared`); a new
  event's album job does no harm (`ImmichReuse.CreateEventHarmless`).
- Settled rows and their album. When a binding id comes back in the same way, a job claimed only to set up an album can upload, and
  a row can settle whose binding has no album (`ImmichMisplaced.MisplacedWitness`). Settled rows stay in their albums exactly if,
  whenever a worker settles a row, the claimed binding is still there, or the one that has its id now stores the job's own album or
  an album that holds the asset already (`ImmichAlbums.AccountAlbumed`, over runs `ImmichTheorems.SettledInAlbum`). It takes a new
  binding that gets the claimed binding id to break it (`ImmichTheorems.BindingIdsSpared`). Every other promise of the import engine holds in every run.
- Retired S3 keys. Cleanup retires a key before its DELETE; if the DELETE fails, the row stays pending, may complete later, and
  then loses its object to the next retired-key pass (`MediaLoss.LossWitness`; exactly when: `MediaLoss.LossExactly`).
- Export names. The comment at `internal/export/export.go:42-43` says that Windows device names are avoided; the code checks
  before it cuts to 180 bytes, and the cut can leave one (`ExportNames.DeviceWitness`; exactly when: `ExportNames.DeviceExactly`).
  The check also prefixes names like COMLPT1, which are no devices (`ExportNames.Suspect`).

One branch of the page is dead: `web/src/lib/direct-upload.ts:43` returns when a prepared asset is ready, but the server refuses
to prepare a ready row (`internal/media/direct.go:192-194`), so its answer always names a pending one (`DirectServer.Server.Prepare`).

## Model

| member | source | states |
|---|---|---|
| ImmichTheorems.JobsOwnRows | internal/integrations/immich/jobs.go:185-439 | at every moment of every run, with crashes, cancellations and lost replies, each binding has at most one queued or running job; pending or importing rows have one or their newest job was cancelled, at every moment exactly if each job that ends meets the condition of `EndOwned` |
| ImmichTheorems.JobIdsSpared | internal/integrations/immich/jobs.go:185-271 | rows keep their job in every run in which no enqueued import gets the id of the claimed job |
| ImmichOwnership.EndOwned | internal/integrations/immich/jobs.go:402-438 | the end of a job keeps every open row owned exactly if the job with the ended id is gone, to be cancelled, without open rows, or the failed job of the claimed binding id |
| ImmichOwnership.StepOwned | internal/integrations/immich/jobs.go:185-584 | no other step of any kind takes a job from its open rows |
| ImmichTheorems.EndedJobIsDrained | internal/integrations/immich/jobs.go:402-438 | in any run, a job that ends completed or failed leaves its binding a pending or importing row exactly if that condition fails, and never while the claimed binding is still there |
| ImmichTheorems.OneRemoteCopy | internal/integrations/immich/jobs.go:557-571 | rows with recorded remote ids share one id exactly if their contents are equal, even after lost upload replies; that the remote has no second copy of that content is assumed of it |
| ImmichTheorems.SettledInAlbum | internal/integrations/immich/jobs.go:572-583 | in any run an imported or duplicate row carries the remote id of its own content; all of them are in their album at every moment exactly if each row settles while the claimed binding is there, or under a binding with its id that stores the job's own album or one that holds the asset already |
| ImmichAlbums.AccountAlbumed | internal/integrations/immich/jobs.go:572-583 | a worker's last write keeps every settled row in its album exactly if the claimed binding is still there, or the binding that has its id stores the album the job works with or one that holds the asset already |
| ImmichTheorems.BindingIdsSpared | internal/integrations/immich/jobs.go:185-271 | in every run in which no new binding gets the id of the claimed one, every settled row is in its album and no album-only job uploads |
| ImmichTheorems.AlbumOnce | internal/integrations/immich/jobs.go:441-467 | each binding sends at most one CreateAlbum request in any run, and its album is ready exactly when its id is stored |
| ImmichTheorems.NoNeedlessUpload | internal/integrations/immich/jobs.go:244-256 | in any run no upload is sent for a row that has a remote id, nor by an album-only job whose binding id has not gone to another binding |
| ImmichTheorems.RowsOverTime | internal/integrations/immich/jobs.go:525-584 | later in any run, recorded remote ids and settled rows are unchanged, the album id too, and a failed row is still failed unless a manual retry came; the copies and album entries they name are still there, as the remote is assumed to keep them |
| ImmichReuse.ReuseExactly | internal/integrations/immich/jobs.go:402-438 | after the deletion of a claimed job's event, rows stay owned when that job ends exactly if the newly enqueued job did not get its id, works on its binding id as well, or selected no row |
| ImmichReuse.CreateEventHarmless | internal/integrations/immich/jobs.go:134-158 | a new event's album job takes nothing from any row, whatever ids it gets |
| ImmichReuse.ReuseWitness | migrations/008_immich.sql:36-48 | a run from empty tables that leaves pending rows with no active and no cancelled job |
| ImmichMisplaced.MisplacedWitness | migrations/008_immich.sql:36-48 | a run from empty tables, with every request answered, in which an album-only job uploads and an imported row ends in no album |
| ImmichSafety.StepSafe | internal/integrations/immich/jobs.go:284-584 | every step of the engine keeps the invariant, also when ids come back |
| ImmichJobRun.JobSettlesItsRows | internal/integrations/immich/jobs.go:504-583 | a job none of whose own transfers is marked failed, through any shutdowns, crashes, policy changes, failures of other jobs and other activity, settles exactly the rows open when it was created; media that became ready meanwhile has no row |
| ImmichBacklog.RoundSelects | internal/integrations/immich/auto.go:93-111 | a reconciliation and its job select and settle exactly the 256 earliest created unselected ready assets, or all, and touch no other row |
| ImmichBacklog.Backlog | internal/integrations/immich/auto.go:71-112 | with no new media, each round takes min(256, rest) off the unselected assets and costs one job until none is left |
| ImmichBacklog.BacklogDrained | internal/integrations/immich/auto.go:71-112 | n unselected assets are all settled after exactly ⌈n/256⌉ jobs, and not before |
| ImmichRounds.EngineIsRounds | internal/integrations/immich/jobs.go:284-439 | rounds of the engine, each a run of its machine that reconciles the binding and ends the job without failure while anything else goes on, are rounds of the backlog |
| ImmichRounds.EngineDrains | internal/integrations/immich/auto.go:71-112 | from any reachable state in which automatic import may create a job, also for a binding without rows, such runs import a backlog of n assets in exactly ⌈n/256⌉ jobs while no media arrives, and not before |
| ImmichRounds.JobCanFinish | internal/integrations/immich/jobs.go:469-523 | every claimed job of an event that stays, not asked to cancel or stop and with its album stored, not yet asked for or on the remote, has a run to its end without failure, however many assets it holds |
| ImmichRounds.BacklogCanDrain | internal/integrations/immich/auto.go:71-112 | from every reachable state at rest in which automatic import may create a job there is a run that drains the backlog in ⌈n/256⌉ jobs |
| ImmichStore.AlbumRuns | internal/integrations/immich/jobs.go:441-467 | album(), with any outcome of its request, equals its sequence of atomic steps |
| ImmichStore.AssetRuns | internal/integrations/immich/jobs.go:525-584 | importAsset, with any outcomes of its requests, equals its sequence of atomic steps; what it then means is `AnsweredTransfer` |
| ImmichStore.AnsweredTransfer | internal/integrations/immich/jobs.go:557-583 | when its requests are answered, a transfer leaves its row a duplicate exactly if some remote asset had the content before the upload, and imported exactly if none had |
| ImmichDuplicates.DuplicateExactly | internal/integrations/immich/jobs.go:557-583 | in any run, with lost replies, crashes and retries, a settled row is a duplicate exactly if the last answered upload for it, which gave its id, found its content on the remote, and then the id is that of a copy found; it is imported exactly if that upload found none, and then the id is new |
| ImmichLostAlbums.LookupFinds | internal/integrations/immich/jobs.go:441-467 | in any run an answered lookup of an album asked for before finds it exactly if its one request arrived, whether or not that was answered, and then it is the only one with the marker |
| ImmichStore.Service.Enqueue | internal/integrations/immich/jobs.go:160-271 | the method commits exactly the transaction's tables, or on any error leaves them unchanged |
| ImmichCalls.EnqueueExactly | internal/integrations/immich/jobs.go:160-271 | a send or retry is accepted exactly if mode, name and target are acceptable, the event is there and not being deleted, no job of the binding is queued or running, and, for album setup, the binding has no row |
| ImmichCalls.EnqueueSelects | internal/integrations/immich/jobs.go:185-271 | an accepted send needs a binding without active job, which it creates if there is none, and adds one queued job; "new" adds exactly the unselected ready media as fresh rows, "retry" turns exactly the failed and importing rows pending, album setup selects none; nothing else changes, and every further send there is refused until the job ends |
| ImmichCalls.EnqueueRefused | internal/integrations/immich/jobs.go:160-271 | a refused send is told what stands in the way |
| ImmichCalls.CreateEventExactly | internal/integrations/immich/jobs.go:134-158 | an event with a target is created exactly if the target is known and the name acceptable, with or without credentials: the event, its binding with the policy and one queued album job, and nothing else changes |
| ImmichCalls.SetAutoExactly | internal/integrations/immich/auto.go:15-33 | the policy can be set exactly while the event is not being deleted and has a binding for the target; only that policy changes |
| ImmichCalls.CancelAsks | internal/integrations/immich/jobs.go:273-280 | a cancellation asks exactly the active jobs of the event and target and changes nothing else; a job it asked ends cancelled with its rows as they are, whatever its work returned |
| ImmichCalls.RecoverRequeues | internal/integrations/immich/jobs.go:331-350 | after a restart no row is importing and no job running: the active jobs are queued, the open rows pending, all else is kept, and recovering again changes nothing |
| ImmichCalls.ClaimsOldest | internal/integrations/immich/jobs.go:352-367 | jobs are claimed in the order of their ids; a claim only starts its job, and there is none exactly if nothing is queued |
| ImmichCalls.FinishSettles | internal/integrations/immich/jobs.go:402-438 | cancelled beats failed beats completed; only a failure touches rows, and turns exactly the pending ones of its binding into failed ones, so no open row is left once none is importing |
| ImmichCalls.ReconcileSelects | internal/integrations/immich/auto.go:71-112 | where automatic import may create a job and media is missing, the binding gets exactly one queued job and min(256, missing) fresh rows, the earliest created, and no row or job that was there changes; otherwise, and straight afterwards, nothing happens |
| ImmichBacklog.ReconcileExactly | internal/integrations/immich/auto.go:71-112 | reconciliation does something exactly if the binding has automatic import on and a ready album with an id, its event is there and not being deleted, no job of it is queued or running, no row of it pending or importing, and some ready asset of the event has no row |
| ImmichStore.Service.Reconcile | internal/integrations/immich/auto.go:38-69 | one pass over at most 32 bindings after the cursor, also when a database error stops it; what a pass does is `PassExactly` |
| ImmichCalls.PassExactly | internal/integrations/immich/auto.go:38-112 | a pass creates a job for a binding exactly if it looks at it, automatic import may create one and media is missing, whatever other bindings it looks at; nothing else changes but rows of those bindings |
| ImmichCalls.ScanExactly | internal/integrations/immich/auto.go:41-61 | a pass looks at a binding with automatic import and a ready album exactly if fewer than 32 such stand between the cursor and it |
| ImmichStore.Service.Album | internal/integrations/immich/jobs.go:441-467 | a stored id is only checked; an album asked for before is stored exactly if the answered lookup names one album with the marker, and nothing is sent; any other is asked for once and stored exactly if the answer arrives; what is returned is what is stored |
| ImmichStore.Service.ImportAsset | internal/integrations/immich/jobs.go:525-584 | only a pending row is transferred; one with an id is only put into the album; any other is uploaded and a duplicate exactly if the remote held its content before; it is accounted exactly if every request sent is answered, and else failed, or pending after a cancellation |
| ImmichStore.ReconcileReaches | internal/integrations/immich/auto.go:38-69 | every binding with automatic import and an album is reconciled within ⌊m/32⌋+1 error-free passes of a reset cursor, and within twice that of any |
| MediaModel.Over | internal/media/quotas.go:76-78 | the 64-bit subtraction test never overflows and refuses exactly when used + size exceeds the limit |
| MediaLedger.OverIsBeyond | internal/media/quotas.go:76-78 | that test is the one every reservation of the model makes |
| MediaLedger.ReserveExactly | internal/media/quotas.go:61-144 | a reservation is granted exactly when one more row of that size fits the count and the bytes of event, session and class |
| MediaLedger.CompleteGuarded | internal/media/direct.go:299-321 | completion leaves event and session usage as it was; a row without a class claims typed capacity once, within the limits |
| MediaLedger.FinishGuarded | internal/media/media.go:255-286 | completing a local upload changes no count and raises no usage |
| MediaTheorems.StepGuarded | internal/media/quotas.go:61-144 | every step leaves count and bytes of every live scope no larger than before or within the current limits |
| MediaTheorems.QuotasHold | internal/media/quotas.go:109-144 | no event, session or class of a live event exceeds its limits at any moment of a run, exactly if no edit sets a limit below what the event already holds |
| MediaStats.StatsAgree | internal/media/media.go:308-339 | ready plus pending counts and stored plus reserved bytes are exactly what the reservation checks count, overall and per class |
| MediaStats.Gather | internal/media/media.go:314-338 | the loop over any number of (event, class) rows computes the specified map |
| MediaStats.GatheredStats | internal/media/media.go:308-339 | for every order of the rows the map's entry of every event is that event's statistics, and an event without assets has none |
| MediaTheorems.LocalFiles | internal/media/media.go:221-289 | after any run with crashes, a ready local asset has a whole final file of its recorded size, and every final or .part file belongs to a row |
| MediaTheorems.StoredObjects | internal/media/direct.go:182-381 | every object's key is in a row or retired; a ready asset whose key is not retired has an object of exactly its size |
| MediaTheorems.OverTime | internal/storage/s3.go:63-91 | retired keys stay retired; while an asset is ready, its row, its file and, unless its key is retired, its object never change; only deletion of its event ends readiness |
| MediaTheorems.OneRowPerRequest | internal/media/direct.go:127-157 | in any run each session and request id has at most one row |
| MediaSafety.CompletedSafe | internal/media/direct.go:285-327 | making a verified object's row ready keeps the invariant |
| MediaHistory.StepSafe | internal/media/media.go:158-506 | every step of the media service keeps the invariant |
| MediaHistory.RunKeeps | internal/media/media.go:341-506 | removed rows never return, classes never change, and readiness ends only by deletion, over whole runs |
| MediaDeletion.DeletionFinishes | internal/media/media.go:463-506 | from every reachable state, deletion of an event that is not busy can run to its end, leaving no row or file of it and other events untouched |
| MediaDeletion.CleanupFinishes | internal/media/media.go:341-389 | a stale row can always be removed with its files; only an object of a retired key can remain |
| MediaLoss.LossExactly | internal/media/media.go:371-388 | a ready asset can lose its object in the next step exactly when its key is retired |
| MediaLoss.LossWitness | internal/media/direct.go:335-381 | a run that ends with a ready asset whose object is gone |
| MediaStore.Service.Put | internal/storage/local.go:61-128 | succeeds exactly if 0 < size ≤ limit, neither name existed and no operation failed; then, and if only the last sync failed, the final file is there with its size; otherwise the final files are unchanged |
| MediaStore.Service.Delete | internal/storage/local.go:130-149 | removes the .part, then the final file |
| MediaStore.Service.RemoveAttempt | internal/media/media.go:341-389 | the whole state after removing a pending asset, also when a storage request fails |
| MediaStore.AttemptedLeads | internal/media/media.go:341-389 | removeAttempt under the exclusive lock is a run of the machine, so it keeps its invariant |
| MediaStore.Service.Cleanup | internal/media/media.go:406-455 | considers at most 1000 stale rows after the cursor, skips busy events, and is a run of the machine |
| MediaStore.SweptExactly | internal/media/media.go:406-455 | a pass removes exactly those of the rows it looks at that are pending, created and last authorized more than an hour before, of an event that is not busy, and whose storage requests are answered |
| MediaStore.BatchExactly | internal/media/media.go:406-420 | a pass looks at a stale row exactly if fewer than 1000 stale rows stand between the cursor and it |
| MediaStore.Service.Maintain | internal/media/media.go:393-457 | a whole pass takes only expired sessions without assets, then that batch of stale rows, then the due retired keys, and is a run of the machine |
| MediaStore.ReclaimedExactly | internal/media/media.go:393-405 | of the sessions taken, exactly the expired ones without assets go |
| MediaStore.CleanupReaches | internal/media/media.go:406-455 | every stale row is considered within ⌊n/1000⌋+1 passes of a reset cursor, within twice that of any, even if removals fail for ever |
| MediaStore.Service.CleanupRetired | internal/media/direct.go:335-381 | tries the first 1000 keys after the cursor that were not checked within the hour; exactly their objects whose DELETE was applied are gone, and exactly those whose DELETE was answered count as checked now |
| MediaStore.RetiredExactly | internal/media/direct.go:335-381 | a key is tried exactly if it was not checked for an hour and fewer than 1000 such keys stand between the cursor and it; its object goes exactly if the DELETE was applied, and it counts as checked exactly if that was answered |
| MediaStore.RetiredReaches | internal/media/direct.go:335-381 | every due key is tried within ⌊n/1000⌋+1 passes of a reset cursor, within twice that of any, even if some DELETEs fail for ever |
| MediaStore.Service.DeleteEvent | internal/media/media.go:463-506 | succeeds exactly when every removal does, and then leaves nothing of the event but retired keys; otherwise the event stays deleting; other events are untouched |
| MediaRequests.UploadLeads | internal/media/media.go:158-290 | a whole local upload, whatever fails, is a run of the machine |
| MediaRequests.UploadLeaves | internal/media/media.go:232-289 | success adds exactly one ready row and one final file of its size; failure leaves at most the pending row, its .part and its final file, and nothing if the cleanup succeeds |
| MediaRequests.Upload | internal/media/media.go:158-290 | the method computes that state in place and reports the reservation's error; a granted upload succeeds as in `UploadExactly`, and then its row is ready with the whole file |
| MediaRequests.UploadExactly | internal/media/media.go:221-289 | a granted upload succeeds exactly if its stream is not empty, no longer than what it reserved and as long as claimed, if it claimed a length, no operation fails, and the event is still open at the end |
| MediaAnswers.UploadGranted | internal/media/media.go:205-246 | a local upload is granted exactly if event and session are open, bytes read and claim are within the file limits, and its claim, or else the file limit, fits the limits of event, session and class; it adds that one pending row |
| MediaAnswers.UploadRefused | internal/media/media.go:205-228 | a refused upload is told what stands in the way: the closed event, the missing or expired session, the file limit, or the count or bytes of event, session or class that it would pass |
| MediaAnswers.FinishGranted | internal/media/media.go:264-286 | the end of a local upload is accepted exactly if the event is open and the row still pending |
| MediaAnswers.PrepareGranted | internal/media/direct.go:105-157 | a preparation is accepted exactly if event and session are open and its request has a row that says the same, or has none and one more file of its size is allowed and fits; the first adds nothing, the second one pending row |
| MediaAnswers.PrepareRefused | internal/media/direct.go:105-157 | a refused preparation is told what stands in the way, or that its request id was used for another file |
| MediaAnswers.AuthorizeGranted | internal/media/direct.go:196-215 | a further plan is authorized exactly while event and session are open |
| MediaAnswers.CompleteGranted | internal/media/direct.go:290-327 | the row of a verified object becomes ready exactly if its event still has the link and is not being deleted, the row is pending and, for a row without a class only, the object fits the file limit, count and bytes of its class |
| MediaRequests.CompletedReady | internal/media/direct.go:229-333 | a positive answer of Complete means a ready row of the reserved size, with its object unless the key is retired |
| MediaRequests.CompletedLeads | internal/media/direct.go:229-333 | Complete, whatever fails, is a run of the machine |
| MediaRequests.Complete | internal/media/direct.go:229-333 | the method computes that state in place, and answers that the asset is ready exactly as in `CompletedExactly` |
| MediaRequests.CompletedExactly | internal/media/direct.go:229-333 | Complete makes a pending row ready exactly if event, link and session are its own, the event is not being deleted, the object can be read, has the reserved size and the row's class, and a row without a class finds room; then the row has the object's size and class |
| MediaRequests.CompletedAfterClosing | internal/media/direct.go:290-303 | disabling the event or letting it expire, after a plan was handed out, changes nothing in the answer |
| UploadServer.Upload | internal/media/media.go:158-290 | amid any other activity, a positive answer to a local upload means that at some moment of the request its row was ready with a whole file of the recorded, and claimed, size; it fails only for a true cause: trouble with connection, process or storage, a stream that does not fit, or a moment at which the event was closed or the upload not to be granted |
| DirectServer.Server.Complete | internal/media/direct.go:229-333 | it waits for its locks while anything else goes on; a positive answer means that the row was ready at some moment of the request, with its object unless the key is retired; an error that lets the page send the file again means that the row was pending, and the error for an unknown asset that the event and session had none of this id; every refusal has its ground at some moment, and trouble is answered only if there was some; undisturbed, the answer is positive for a fitting object, and `object_missing` if none arrived |
| DirectServer.Server.CommitReady | internal/media/direct.go:285-327 | amid anything else, its last transaction makes the row ready exactly if the event still has the link and is not being deleted and a row without a class finds room for its object |
| DirectServer.Server.Authorize | internal/media/direct.go:182-227 | a plan is handed out only for a row that was pending when its URL was recorded; an unknown asset is one that the event and session had not, and a session that is gone, expired or full is answered for a pending row only; while event and session stay open and nothing fails, a pending row always gets its plan |
| DirectServer.Server.Prepare | internal/media/direct.go:68-166 | the answer names the one row of the session's request, and never a ready one; while event and session stay open with room and nothing fails, it succeeds |
| DirectUpload.Protocol | web/src/lib/direct-upload.ts:30-59 | at most two PUTs; a held asset id is verified first; verification follows each failed or finished PUT; nothing follows an error outside the retryable codes |
| DirectUpload.TriesAgain | web/src/lib/direct-upload.ts:47-56 | unless it is canceled, a run whose first PUT failed and whose verification ended in one of the five retryable codes goes on to authorize, and with a plan to a second PUT |
| DirectUpload.GivesUpExactly | web/src/lib/direct-upload.ts:47-56 | the page reports that the upload failed exactly after two PUTs, each of them failed and followed by a retryable verification |
| DirectUpload.RunDirect | web/src/lib/direct-upload.ts:33-59 | with every call executed by the server's handlers, it terminates, follows the protocol and, unless it is canceled, stops only where the protocol ends, with the answer of its last calls; a normal return means the attempt's row was ready at some moment of the run, with its object unless the key is retired; and if event and session stay open with room, and no call is lost, refused or disturbed, it succeeds |
| DirectUpload.Try | web/src/lib/direct-upload.ts:8-16 | after a run of the page the grant and a held asset id are forgotten exactly if its error says that session or asset is gone or, before verification, that the session has expired or is full, and only if at some moment of it the row was gone or pending; else both are kept and still name the row of the request |
| DirectUpload.SendsAgain | web/src/components/Upload.svelte:110-129 | the next attempt is in a new session, where the request id finds no row: preparing it, however often, gives exactly one further row, never the forgotten one |
| Cursors.NoStarvation | internal/media/media.go:451-455 | with the wrapping cursor, ⌊n/limit⌋+1 passes reach every id from a reset cursor, and twice that from any |
| Limiter.Limiter.Request | internal/abuse/limiter.go:30-63 | the method computes the specified state and answer in place |
| Limiter.AllowOk | internal/abuse/limiter.go:34-49 | the number of entries never exceeds the capacity |
| Limiter.EvictionIsInvisible | internal/abuse/limiter.go:34-49 | for any sequence of calls the answers are those of a limiter that never evicts, except capacity rejections |
| Limiter.WindowBound | internal/abuse/limiter.go:50-62 | in any window of T seconds at most rate(1+T/60) requests of a key pass, whatever other keys do |
| Limiter.RetryIsLeast | internal/abuse/limiter.go:56-62 | a refused known key is told 1 to 60 seconds, the least whole number after which the next call passes |
| Limiter.Burst | internal/abuse/limiter.go:34-62 | a new key that finds room, or one without a call for a minute, can make calls at once, of which exactly the first `rate` pass |
| Limiter.RejectedExactly | internal/abuse/limiter.go:34-49 | a call is refused for lack of capacity exactly if its key is new and the keys with a call in the last ten minutes, or not yet swept, leave no place |
| ExportNames.SafeName | internal/export/export.go:44-71 | the method computes the sanitized name |
| ExportNames.FilenameSafe | internal/export/export.go:44-71 | the name is not empty, at most 180 bytes, free of separators, control and forbidden characters, and neither starts nor ends with a space or dot |
| ExportNames.FilenameIdempotent | internal/export/export.go:44-71 | sanitizing twice is sanitizing once when nothing had to be cut |
| ExportNames.NameKept | internal/export/export.go:44-71 | the name is the last path component from its first to its last character that is neither space nor dot, or photo if it has none, with `_` for each control and forbidden character and a leading `_` if it looks like a device, cut to its longest prefix of 180 bytes and trimmed again at the end |
| ExportNames.TidyUnchanged | internal/export/export.go:44-71 | a name of at most 180 bytes that is safe already and does not look like a device is kept as it is |
| ExportNames.DeviceExactly | internal/export/export.go:57-70 | the name is a Windows device name exactly when the name before the cut is over 180 bytes and those are a device name followed by padding |
| ExportNames.DeviceWitness | internal/export/export.go:57-70 | a name that becomes CON |
| ExportAlloc.Filenames | internal/export/export.go:73-91 | the allocator with the suffix cache returns exactly what plain first fit returns |
| ExportAlloc.Distinct | internal/export/export.go:73-91 | the export names are pairwise distinct, ignoring case |
| ExportAlloc.KeyInjective | internal/export/export.go:83-86 | different suffixes give different candidates, so the search ends |
| FirstFree.Search | internal/export/export.go:83-86 | the loop ends at the least free suffix from 2 although it starts at the cached one |
| Sniff.SniffPrefix | internal/media/validation.go:54-130 | the loops compute the specified verdict |
| Sniff.SniffsEncoded | internal/media/validation.go:67-122 | on an encoded File Type Box the answer is the brand precedence on exactly the encoded brands |
| Sniff.BoxAccepted | internal/media/validation.go:61-122 | which brands at which offsets of a File Type Box, and which header behind it, decide between refusal, HEIC, HEIF, QuickTime and MP4 |
| Sniff.ImageAccepted | internal/media/validation.go:123-130 | without such a box an object is accepted exactly if it is not empty, not shorter than the bytes read and detected as one of six image types |
| Sniff.Monotone | internal/media/validation.go:61-110 | what is accepted for a size is accepted alike for larger objects, and for an unknown size behind a full window |
| Sniff.Agree | internal/media/validation.go:54-130 | two accepting calls on the same bytes agree, whatever sizes they were given |
| Sniff.ReservedClassIsFinal | internal/media/media.go:191-263 | the type that the final check accepts is the one the class was reserved for |
| Backends.Success | internal/storage/backends.go:58-188 | registrations only grow and hold every configured destination; every row is bound, bound rows are unchanged, each legacy row goes to the one configured backend with its target |
| Backends.SucceedsExactly | internal/storage/backends.go:58-188 | reconciliation succeeds exactly if every configured destination is usable and agrees with the row of its key, exactly one has the target of each S3 row not yet bound, every unbound row has such a target, and uploads to S3 go to a configured key |
| Backends.SecondRun | internal/storage/backends.go:58-188 | a second run changes nothing |
| Backends.Immutable | internal/storage/backends.go:96-99 | a registered key keeps its destination or reconciliation fails |
| Backends.Reconcile | internal/storage/backends.go:58-188 | the loops compute the specified tables, or an error and no change |
| Migrate.Run | internal/database/migrate.go:13-88 | the loops compute the specified database; failure commits nothing |
| Migrate.FreshInstall | internal/database/migrate.go:63-83 | from an empty history the result is that of running every script once, first to last, with the full list of numbers, names and checksums; a failing script commits nothing |
| Migrate.RunsExactly | internal/database/migrate.go:13-88 | a run succeeds exactly if the files are numbered 001, 002 and so on, the recorded rows are those of the first of them, and the scripts of the others all succeed, run first to last; the schema is then theirs |
| Migrate.ThroughPrefix | internal/database/migrate.go:13-88 | upgrading through any prefix binary gives the same database as upgrading at once |
| Migrate.SecondRun | internal/database/migrate.go:71-76 | running the same binary again changes nothing |
| Migrate.OthersRefuse | internal/database/migrate.go:51-76 | an older binary, or one whose applied script or name changed, refuses |
| QuotaEditor.OpenSave | web/src/lib/quotas.ts:20-69 | opening and saving without an edit sends exactly the stored limits, for any rounding of the display |
| QuotaEditor.SendsExactly | web/src/lib/quotas.ts:24-75 | saving any form sends untouched limits as stored, typed ones in whole bytes or as counts, and each automatic total as its product; nothing is sent exactly if such a product is not acceptable |
| QuotaEditor.AutomaticReopens | web/src/lib/quotas.ts:29-69 | an automatic total is the exact product, and the saved event opens as automatic |
| QuotaEditor.ClassesIndependent | web/src/lib/quotas.ts:60-75 | editing one media class leaves everything sent for the other unchanged |
| QuotaEditor.Statuses | web/src/lib/quotas.ts:77-89 | the notices shown are exactly the reached limits |
| QuotaEditor.NoticeExactly | web/src/lib/quotas.ts:77-89 | a notice shows exactly when the server's check refuses every reservation of a positive size |

## Left out

- ImmichRounds.EngineDrains: other jobs, requests, crashes and deletions go on inside a round, between the reconciliation of the binding and the end of its job; the next round starts at once.
- ImmichRounds.BacklogCanDrain: starts with nothing queued, since the runner takes older jobs first.
- ImmichStore.Service.ImportAsset: one transfer with no other worker on its row; interleavings are those of `ImmichSteps`.
- ImmichStore.Service.Enqueue: takes the name as valid text, and what the target catalog answers as part of the request.
- MediaStore.Service.Put: a process crash loses no flushed data; loss of power and unflushed directory entries are not modelled.
- MediaRequests.Upload: the classification of the first 512 bytes is part of the request; that the final check agrees is `Sniff.ReservedClassIsFinal`.
- MediaStore.Service.Maintain: which of more than 5000 expired sessions go first is a parameter.
- MediaRequests.UploadLeads: a request with nothing in between; amid other requests it is `UploadServer.Upload`.
- MediaRequests.UploadExactly: a request with nothing in between; amid other requests it is `UploadServer.Upload`.
- MediaRequests.CompletedExactly: a request with nothing in between; amid other requests it is `DirectServer.Server.Complete`.
- MediaRequests.CompletedLeads: a request with nothing in between; amid other requests it is `DirectServer.Server.Complete`.
- MediaRequests.CompletedReady: a request with nothing in between; amid other requests it is `DirectServer.Server.Complete`.
- MediaStore.Service.Delete: one outcome tells how far it got; syncing the directory is part of the second removal.
- DirectServer.Server.Complete: the stored content type is not compared.
- Backends.SucceedsExactly: takes from the seed and the configuration that row 1 is the local directory and that configured keys differ.
- Limiter.Limiter.Request: real numbers instead of floating point, a clock that never goes back, and a positive rate.
- ExportNames.SafeName: names are valid text; invalid UTF-8 does not reach it.
- Sniff.SniffPrefix: the general image detector is a parameter of the bytes.
- QuotaEditor.OpenSave: display and typed numbers are reals; rounding of binary floating point is not modelled.
- A remote request that arrives after its caller gave up, such as a delayed DELETE, is not modelled.
- The import snapshot is a set: the order of `internal/media/read.go:45` is not kept, and neither is the order of workers.
- Sessions' contributor names, MIME parsing, original file names beyond equality, and validation of ids.
- HTTP routing, cookies, rate-limit wiring, challenges, OIDC, passwords, logging and graceful shutdown.
- The AWS SDK, presigning, the Immich HTTP client and streaming of bytes.
- Configuration parsing, manifests and the export's copying of files, the Svelte components, QR codes and Docker scripts.
