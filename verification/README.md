# A verified model of the problem-storage protocol

The repository keeps folders of programming problems in three places: on local disk, in a content-addressed object
store, and as rows in PostgreSQL. A TypeScript control plane and a Rust data plane step that state together: snapshots
upload folders, retention prunes old snapshot rows, a collector deletes objects, evictions free local disk, restores
bring folders back, and a lease queue with fencing tokens decides who may act. This project models those steps in Dafny
and proves what they keep.

**Storage protocol** (`JobLeases`, `Storage` to `Runs`, `GracePeriods`, `CollectedMarks` and `FenceRuns`, with
`UploadRun`, `CollectorRun`, `CopyRun` and `StorageNode`). One value `World` holds the rows, the object store, the
folders, and where every upload, collector and restore has got to. Every SQL statement or transaction, and every
object-store call that matters, is one atomic `Step`; a run is any sequence of steps by any number of workers, and a
step whose guard fails changes nothing. The invariant falls into five parts, one module each: the rows of uploads,
objects behind READY rows, garbage-collection marks, the compare-and-set on READY, and local copies. `Runs` states the
theorems about every run from empty tables, `GracePeriods` how long what is replaced can still be restored and what a
collector waits for, and `CollectedMarks` what retention can rely on. `JobLeases` has the job rows that the fence of the
data plane reads, with the purges of old ones, and `FenceRuns` says when these purges leave the fence intact.
`SampleRuns`, `LostClaims`, `PurgedJobs` and `RefusedRestores` build runs in which a property fails. `StorageNode` is
the imperative side: a class whose methods do what the Rust and TypeScript methods do, each proved to be a step, or a
sequence of steps, of the protocol, with its refusals stated exactly. `ObjectStore` is the in-memory store.

**Lease queue** (`JobQueue`, `JobFencing`, `JobRuns`, `JobExclusion`, `JobHolds`, `JobTable`). The same plan: rows and
steps, the invariant of tokens and attempts, theorems over all runs, among them how long a lease lasts, and a class
`JobTable` with the loops and early returns of `db.ts` and of the Rust watcher. `QueueFence` relates it to `JobLeases`:
every run of the queue is a history of the rows that the fence reads, with the same tokens.

**Folders** (`SymlinkPaths`, `FolderScan`, `FolderUpload`, `FolderManifest`, `FolderRestore`, `FolderRoundTrip`,
`TextOrder`, `ScanMatch`). A folder is a tree of names over inodes. Scanning, uploading, manifest validation and the
three restoring passes are loops with invariants; the round trip relates them.

**Cache and algorithms** (`TreeCache`, `MirrorOrder`, `Keyset`, `CanonicalJson`, `DirtyLedger`).

Two tables of history are kept for statements only: `readyLog`, the generations in the order in which they became READY,
and `evicted`, what an eviction removed and nobody has put back. A third, `holders`, says which operation each leased
token was issued for, which a worker knows from its job.

## What does not hold without a condition

Each of these has a concrete run or input in the model, and the exact condition under which the property holds.

- A collected mark does not always mean that the object is gone. An upload whose row was swept to `error` as stalled
  keeps putting objects; such a put can land on a key that has been marked collected since, and retention then deletes
  the last row about a stored object (`LostClaims.LatePutLosesLastReference`, with the default retention times; the
  upload has to outlive them). Collected marks can be trusted throughout a run, which means that nothing short of
  another put can make one wrong, exactly when every put goes to a key that is neither marked collected nor being
  collected (`CollectedMarks.TrustedExactlyWhenClean`). That is so whenever only uploads with an active row put objects
  (`CollectedMarks.LivePutsAreClean`). A retention run drops no last reference exactly when no wrong mark is the reason
  for pruning a row (`CollectedMarks.RetentionKeepsLastExactly`).
- The fence compares a token with the largest one among the rows of `jobs` that are still there, so a purge of old rows
  can let a worker through that was overtaken long ago. `PurgedJobs.PurgedTokenBringsStaleFiles` is a run with the
  default times: a restore sleeps, after its download, for the 14 days for which closed jobs are kept, and then brings
  back other files than were evicted. Over every run the fence refuses everybody who was overtaken exactly as long as
  each purge leaves a larger row above every overtaken token that somebody still holds
  (`FenceRuns.FencedExactlyWhenSparing`), and a purge lets an overtaken snapshot or restore act later on exactly when it
  takes the last row above its token (`FenceRuns.PurgeLetsStaleActExactly`). Against
  `docs/snapshot-backoff-retention.md:29`, `applyRetention` can delete a job in flight: it goes by `completed_at`, which
  `retryJob` keeps (`JobLeases.RunningJobIsDeleted`).
- A dirty flag can be lost to `clearDirtyForMissingLocal`, which asks for no version
  (`DirtyLedger.SweepSwallowsEdit`). `DirtyLedger.NoLostEdit` says exactly when it is not.
- Not every evicted problem can be restored: an eviction compares the folder with the READY rows, and neither it nor the
  upload looks at whether the manifest can be validated and its files placed. A folder with an archive `a` and a symlink
  `a\b` is scanned, uploaded, and listed under `a` and `a/b`, and no restore can make a directory of the file `a`
  (`FolderRoundTrip.ClashCannotBeRestored`). `RefusedRestores.EvictedAndRefused` is a run in which a folder is evicted
  whose manifest lists a path twice, and the restore with the newest token is refused. A scanned and uploaded folder can
  be restored exactly when no two files are reported alike and no reported path is a directory on the way to another
  (`FolderRoundTrip.RestoresExactly`); an evicted problem can be restored exactly when its READY manifest has neither
  fault and no newer token overtakes the restore (`Runs.RestoreIsPossible`, `CopyRun.EvictedIsRestorable`).
- A restored folder equals the scanned one exactly when no file name holds a backslash: the scan reports `\` as `/`
  (`FolderRoundTrip.RestoreUndoesScanExactly`). The second hash of the upload lets a regular file with such a name
  through only where another file with its content takes its place (`FolderUpload.UploadsExactly`,
  `FolderUpload.BackslashNeedsTwin`). What remains are symlinks, which come back under another path
  (`FolderRoundTrip.BackslashedLinkComesBackDifferent`) or, as above, stop the restore, and twins: their snapshot can
  become READY, because only a restore validates the manifest, and the restore refuses it
  (`FolderRoundTrip.TwinsUpload`, `FolderManifest.BackslashBreaksValidation`).
- `retryJob` and the watcher's insert go past the exclusion of operations. `JobExclusion.RetryKeepsExclusive` and
  `JobExclusion.WatchInsertKeepsExclusive` say exactly when they keep it; `JobExclusion.RetryBreaksExclusion` and
  `JobExclusion.WatchBreaksExclusion` have runs in which it breaks. That only one operation of a problem is ever
  *running* holds without condition (`JobExclusion.RunsRunOneAtATime`), because of a unique index.
- A missing sweep that works from an old listing can make reconcile trust wrong sizes (`TreeCache.StaleSweepDeceives`);
  `TreeCache.SoundExactlyWhenSparing` has the condition.

## Assumptions

- A snapshot row has one live uploader at a time: a takeover, or a new claim of the generation, comes after the earlier
  upload has stopped. The update to `hashing` (`rust-data-plane/src/snapshot.rs:244`) has no guard on the state.
- For the theorems about evictions and restores (`Runs.EvictionsLoseNothing`, `Runs.RestoresReturnEvicted`,
  `Runs.RestoresReplaceNothing`): each purge of job rows leaves, above every token that was overtaken and is still held,
  a row with a larger token. The theorems about READY snapshots, READY generations and collected marks do not need it,
  because nothing of what they speak of looks at the fence; `FenceRuns` needs neither assumption.
- A worker acts under the token of a row that was leased when it started, as the lease assertion before each call to the
  data plane checks (`control-plane/src/worker.ts:143`, `:179` and `:190`).
- SHA-256 is injective: a digest wraps the bytes it stands for.
- `World` knows a folder as a map from reported paths to digests and sizes. Whether the scan reported a path twice is a
  separate flag of the upload, which ends in the manifest.
- A statement or transaction is one step. Two merges go beyond that: the fencing read of a claim belongs to the claim,
  and the head, put and verify calls of one file are one put. A restore is three steps: its fence check, its download,
  its publication.
- An eviction, and a publication, is one step. Both check the fence and rename under the advisory lock of the problem
  (`rust-data-plane/src/snapshot.rs:651` and `:815`), which the claiming and the final transaction of an upload take as
  well (`:357` and `:468`), so none of these comes between check and rename. A token that is issued in between, without
  that lock, counts as issued after. An eviction compares the folder with the READY snapshot before it takes the
  advisory lock; the file lock keeps folder writers out until the rename, and the transaction checks the generation and
  the dirty flag again, so the comparison still holds.
- Protection is the `snapshot_is_gc_protected` of `migrations/008_snapshot_retention_gc.sql:55-81` with fixed retention
  times, and problem identities are fixed.
- A fingerprint identifies a version of a folder and never comes back after a change; a scan with its upsert is one
  step.
- Opening a file's own path reads that file, and in a folder without symlinks no other path reads anything. Where a path
  leads through symlinks is left open.
- Where the comment at `control-plane/src/db.ts:940` says that rows are taken over after 30 minutes, the model follows
  `rust-data-plane/src/snapshot.rs:142`: two hours.
- Where `rust-data-plane/tests/eviction_test.rs:183-210` expects a dirty problem to be evicted, the model follows
  `rust-data-plane/src/db.rs:465-467`, which requires `dirty = false`.

## Model

| member | source | states |
|---|---|---|
| `Runs.ReadySnapshotsSurvive` | rust-data-plane/src/snapshot.rs:956-974 | over every interleaving of uploads, retention, collectors, restores, evictions and jobs with any purges, a READY snapshot's manifest lists its object rows, and every object is stored with bytes that hash to the recorded digest; given only that takeovers wait for the earlier upload |
| `Runs.StepKeepsCore` | rust-data-plane/src/snapshot.rs:341-574 | every step of either plane keeps rows, store, marks and READY generations in order, given only that takeovers wait for the earlier upload |
| `Runs.StepKeepsInv` | rust-data-plane/src/snapshot.rs:341-574 | and local copies too, given that purges of jobs leave a larger row above every overtaken token that is held |
| `Runs.RunKeepsCore` | rust-data-plane/src/snapshot.rs:341-974 | every run in which takeovers wait keeps rows, store, marks and READY generations in order, whatever is purged |
| `Runs.RunKeepsInv` | rust-data-plane/src/snapshot.rs:341-974 | every run that also spares the fence keeps the whole invariant, from any state that satisfies it |
| `Runs.ReadyGenerationsRise` | rust-data-plane/src/snapshot.rs:455-574 | over every run in which takeovers wait, whatever is purged, a problem has at most one READY row, every superseded row is below it, and the generations that became READY strictly increase; proved from the compare-and-set, not from an index |
| `Runs.EvictionsLoseNothing` | rust-data-plane/src/snapshot.rs:748-888 | over every orderly run, while a folder stays evicted a READY snapshot lists exactly the removed files with everything it names in the store |
| `Runs.RestoresReturnEvicted` | rust-data-plane/src/snapshot.rs:576-730 | over every orderly run, a restore of an evicted problem that gets through puts back exactly the removed files |
| `Runs.RestoresReplaceNothing` | rust-data-plane/src/snapshot.rs:683-703 | over every orderly run, a restore never replaces a folder that differs from what it brings |
| `Runs.RestoreIsPossible` | rust-data-plane/src/snapshot.rs:576-730 | a restore that has begun for an evicted problem can download and publish exactly when no newer token overtook it and the READY manifest lists no path twice and no path on the way to another |
| `GracePeriods.SnapshotsAreKept` | migrations/008_snapshot_retention_gc.sql:55-81 | over every run in which takeovers wait: a snapshot that is READY at some time can be restored for as long after it as superseded snapshots are kept; its row is there with the same files, and the manifest and every object are in the store |
| `GracePeriods.DeletionsWait` | control-plane/src/db.ts:1594-1667 | over every such run: a collector that is about to delete what a once READY row names comes after that time, and, if the mark that it listed is still there, after the grace period of marks on top of it |
| `GracePeriods.StepKeepsGrace` | rust-data-plane/src/snapshot.rs:956-974 | every step keeps superseded rows complete until their time is up, marks on their keys waiting, and lists of collectors behind them |
| `CollectedMarks.TrustedExactly` | rust-data-plane/src/snapshot.rs:376-383 | in any state with rows, store, marks and generations in order, whatever was or will be purged: no continuation without a put makes a collected mark wrong, if and only if neither a collected mark nor one about to be written has its object in the store |
| `CollectedMarks.TrustedExactlyWhenClean` | rust-data-plane/src/snapshot.rs:1236-1262 | over every run in which takeovers wait, whatever is purged, collected marks can be trusted throughout exactly when every put goes to a key that is neither marked collected nor being collected |
| `CollectedMarks.LivePutsAreClean` | rust-data-plane/src/snapshot.rs:1216-1299 | every put is clean in every run in which only uploads whose row is still active put objects |
| `CollectedMarks.RetentionKeepsLastExactly` | control-plane/src/db.ts:1531-1592 | whatever a retention run prunes was out of the store or is named by another protected row, if and only if no wrong mark is the reason for pruning |
| `CollectedMarks.RetentionKeepsLastReferences` | control-plane/src/db.ts:1531-1592 | after any run from empty tables whose takeovers wait and whose puts are clean, a retention run drops no last reference to a stored object |
| `LostClaims.LatePutLosesLastReference` | rust-data-plane/src/snapshot.rs:1242-1262 | without clean puts retention can drop a last reference: with the default retention times, an orderly run from empty tables, in which an existing problem is uploaded by a leased job that then loses its row to the stall sweep, ends with a wrong collected mark and retention deleting the last row about a stored object |
| `LostClaims.CollectsAbsent` | control-plane/src/worker.ts:267-297 | a collector working alone marks an eligible mark whose object is not in the store |
| `JobLeases.NoNewSlip` | rust-data-plane/src/snapshot.rs:1301-1318 | no step of a job but a purge lets an overtaken worker through that the fence refused before |
| `JobLeases.JobKeepsFence` | control-plane/src/db.ts:1341-1356 | acquisitions, cancellations, results, failures and retries keep the fence up; a purge keeps it exactly when above each overtaken token that is still held some row stays |
| `JobLeases.FenceDecides` | rust-data-plane/src/snapshot.rs:1301-1318 | the fence refuses exactly the overtaken if and only if, for everybody who acts, the largest token of the rows there are tells the same as the counter |
| `JobLeases.PassingIsNewest` | rust-data-plane/src/snapshot.rs:1301-1318 | while the fence is up, whoever passes it has the newest token ever issued for the problem |
| `JobLeases.RunningJobIsDeleted` | control-plane/src/db.ts:1516-1521 | a job that was cancelled, retried and leased again is deleted by applyRetention while it runs, and never by purgeTerminalJobs |
| `JobLeases.PurgesTakeTheOld` | control-plane/src/db.ts:1516-1521 | each DELETE spares exactly what has happened since its cutoff: a closing of any row, a change of a closed one |
| `JobLeases.ChangesAreStamped` | control-plane/src/db.ts:1434-1450 | every change of a row is stamped with its time, a closing as completed_at too, which only a row that is given back loses |
| `FenceRuns.FencedExactlyWhenSparing` | control-plane/src/db.ts:1516-1521 | over every run, with any takeovers and purges, the fence stays up exactly when each purge leaves a row above every overtaken token that is still held |
| `FenceRuns.StaleActsExactly` | rust-data-plane/src/snapshot.rs:1301-1318 | some continuation without a purge has an upload claimed or finished, or a restore begun or published, under an overtaken token, if and only if the token of a snapshot or restore worker passes the fence now although it was overtaken |
| `FenceRuns.PurgeLetsStaleActExactly` | control-plane/src/db.ts:2187-2211 | after any run, either purge lets such a step happen later on exactly when it takes the last row above an overtaken token that a snapshot or restore worker still holds |
| `PurgedJobs.PurgedTokenBringsStaleFiles` | control-plane/src/db.ts:2187-2211 | when purges do not spare the fence a restore can bring back other files than were evicted: a run with the default times in which the rows of the newer tokens are purged after 14 days and the overtaken restore publishes |
| `RefusedRestores.EvictedAndRefused` | rust-data-plane/src/snapshot.rs:748-833 | an eviction does not look at the manifest: an orderly run from empty tables in which a folder is uploaded, evicted, and its restore, with the newest token, can never finish |
| `QueueFence.FreshReadsTheQueue` | rust-data-plane/src/snapshot.rs:1301-1318 | the fence passes exactly the tokens that are not below the largest of the queue's rows of the problem |
| `QueueFence.StepIsHistory` | control-plane/src/db.ts:1325-1389 | every step of the queue, creations, the restore transaction, batch expiry, the watcher and purges included, is a sequence of moves of the rows that the fence reads, with the same tokens, and rows are deleted only by its purges |
| `QueueFence.QueueRunsAreHistories` | control-plane/src/db.ts:1325-1389 | over every run of the queue from empty tables, the rows that the fence reads have a history with the same problems, operations, tokens and stages at its end |
| `QueueFence.RetainedRowRefuses` | rust-data-plane/src/snapshot.rs:1301-1318 | over every run of the queue, a row that it retains makes the fence refuse every token that was older than its own: such a history exists, and all rows that agree with the end of the run refuse |
| `QueueFence.TokenIsDrawn` | control-plane/src/db.ts:1341-1356 | whenever the queue draws a token for an active row, the row takes the same token by a lease, or by a revocation, and the views agree again |
| `QueueFence.RowIsMoved` | control-plane/src/db.ts:1434-1450 | results, failures, retries and silent cancellations move a row alike in both views, under the token that it has |
| `QueueFence.Expires` | control-plane/src/db.ts:1473-1507 | the batch that fails expired jobs is one revocation after the other, each with the token that the batch gave the row |
| `QueueFence.Watches` | rust-data-plane/src/db.rs:627-729 | the watcher's claim is a lease; its insert is a creation and a lease at once, after which the counter has skipped a token |
| `QueueFence.PurgeIsPurge` | control-plane/src/db.ts:1516-1521 | a purge of the same ids leaves the rows of problems equal |
| `SnapshotRows.UploadKeepsRows` | rust-data-plane/src/snapshot.rs:113-180 | claim, hashing, preparation, ticking off, verification, finalisation and failure keep rows unique by problem and generation, well formed, and where their upload left them unless they went to 'error' |
| `SnapshotRows.FinalizedFiles` | rust-data-plane/src/snapshot.rs:517-536 | the object rows written at READY are the rows of the claim: the scanned files |
| `GcSafety.PrepareKeepsStore` | rust-data-plane/src/snapshot.rs:341-423 | a claim made under the key locks cannot meet a collector that has passed its last check |
| `GcSafety.SecondCheckKeepsStore` | rust-data-plane/src/snapshot.rs:964-970 | the second reference check sees every claim there is |
| `GcSafety.EraseKeepsStore` | rust-data-plane/src/snapshot.rs:970-971 | the delete hits nothing that a READY row names and nothing an upload has placed |
| `GcSafety.PutManifestKeepsStore` | rust-data-plane/src/snapshot.rs:310-321 | overwriting the generation's manifest touches no other upload and no READY row |
| `GcSafety.FinalizeKeepsStore` | rust-data-plane/src/snapshot.rs:455-574 | READY is reached only with every object and the manifest in place |
| `GcSafety.RetainKeepsStore` | control-plane/src/db.ts:1509-1667 | retention takes nothing from a READY snapshot |
| `GcMarks.PrepareKeepsMarks` | rust-data-plane/src/snapshot.rs:376-383 | live claims carry no mark |
| `GcMarks.MarkKeepsMarks` | control-plane/src/db.ts:1594-1667 | retention marks only keys that no protected row names |
| `GcMarks.PutKeepsAbsence` | rust-data-plane/src/snapshot.rs:1242-1262 | one put keeps the objects of collected marks, and of marks about to be collected, out of the store exactly when its key carries neither |
| `GcMarks.UploadKeepsAbsence` | rust-data-plane/src/snapshot.rs:233-339 | a step of an upload keeps those objects out of the store exactly when it puts nothing or puts to a key with neither mark |
| `GcMarks.LivePutIsClean` | rust-data-plane/src/snapshot.rs:376-383 | an upload whose row is still active only puts clean keys |
| `GcMarks.RetainKeepsAbsence` | control-plane/src/db.ts:1594-1667 | a retention run, with its resets and new rows, makes no mark that is collected, or about to be, point at a stored object |
| `GcMarks.CollectKeepsAbsence` | control-plane/src/db.ts:1707-1715 | a collector marks only what is gone, also when its mark was deleted and made anew meanwhile |
| `RetentionRun.ProtectedUnlessExpired` | migrations/008_snapshot_retention_gc.sql:55-81 | protection is the complement of the expired set on rows with their timestamps |
| `RetentionRun.PruneDropsNoLastReference` | control-plane/src/db.ts:1531-1592 | the pruning statement with its reasons for every key of a pruned row |
| `RetentionRun.RepresentativeIsUnique` | control-plane/src/db.ts:1645-1653 | DISTINCT ON with its ORDER BY has one answer for each key |
| `RetentionRun.RetainIsIdempotent` | control-plane/src/db.ts:1509-1667 | a second run at the same instant prunes no row and inserts or resets no mark |
| `RetentionRun.RetentionRenews` | control-plane/src/db.ts:1594-1667 | after a retention run a mark that is new, has a new owner or was un-collected belongs to the last superseded row that named its key and can be listed exactly from content_objects later on, unless a protected row names the key; every other mark stays on its schedule; and whatever only expired rows name has a mark |
| `RetentionRun.PrunedExactly` | control-plane/src/db.ts:1531-1592 | a row is pruned exactly when it is no longer protected and each key it names was marked collected or is named by another protected row |
| `ReadyCas.FinalizeKeepsCas` | rust-data-plane/src/snapshot.rs:455-555 | the final transaction supersedes every other READY row of the problem and outgrows every generation that was READY before |
| `ReadyCas.HealRises` | rust-data-plane/src/db.rs:414-434 | the healing statement shows the latest READY generation, never lowers snapshot_generation, and leaves nothing to heal |
| `ReadyCas.VerifyLocalRises` | rust-data-plane/src/db.rs:436-454 | mark_local_verified never lowers snapshot_generation and covers the READY generation |
| `UploadRun.FinalizeLeaves` | rust-data-plane/src/snapshot.rs:488-571 | the final transaction: every other READY row of the problem is superseded with its files as they were and is protected exactly until superseded_snapshots from now; the new row lists the scan; the dirty flag goes exactly if the version is the captured one and no later generation was asked for |
| `UploadRun.ClaimLeaves` | rust-data-plane/src/snapshot.rs:128-160 | a claimed row is empty and starts its two hours anew |
| `UploadRun.SweepFailsStalled` | control-plane/src/db.ts:942-951 | the sweep fails exactly what has been under way for more than six hours, and leaves it for the full time of rows in 'error' |
| `LocalCopies.NoFinalizeWhileEvicted` | rust-data-plane/src/snapshot.rs:473-474 | the fence lets no upload finish for a problem whose folder stays evicted |
| `LocalCopies.EvictKeepsFence` | rust-data-plane/src/snapshot.rs:806-812 | an eviction overtakes every upload there is |
| `LocalCopies.OneIsFenced` | rust-data-plane/src/snapshot.rs:455-474 | of an upload that may become READY and a restore of the same problem that has begun, the fence stops the restore: its token is older |
| `LocalCopies.WorkKeepsLocal` | control-plane/src/db.ts:1341-1356 | every step of the jobs, sparing purges included, keeps evicted folders recoverable, uploads fenced and restores current |
| `LocalCopies.DownloadKeepsLocal` | rust-data-plane/src/snapshot.rs:583-614 | whatever generation a restore asks for: the files it stages are those of the READY row of that generation for as long as the fence would let it publish |
| `LocalCopies.PublishKeepsLocal` | rust-data-plane/src/snapshot.rs:644-722 | publication keeps evicted folders recoverable and other restores in progress current |
| `LocalCopies.RestoreReturnsEvicted` | rust-data-plane/src/snapshot.rs:644-722 | a publication for an evicted problem, under the restore's own token, returns the evicted files |
| `StorageNodes.StorageNode.constructor` | rust-data-plane/src/snapshot.rs:96-102 | empty tables satisfy the invariant |
| `StorageNodes.InsertObjectRows` | rust-data-plane/src/snapshot.rs:395-419 | the loop of object-row upserts leaves the scan's entries over what was there |
| `StorageNodes.StorageNode.ClaimSnapshot` | rust-data-plane/src/snapshot.rs:113-180 | succeeds exactly when the token is current and the generation's row is absent, failed, or under way for more than two hours; then the row is empty and claimed from now on, as the claiming step and the clean-up leave it |
| `StorageNodes.StorageNode.PrepareSnapshotUpload` | rust-data-plane/src/snapshot.rs:341-423 | succeeds exactly under its guard, as the claiming step: the row lists the scan, no mark is left on a key it names, and all other marks stay; otherwise nothing changes |
| `StorageNodes.StorageNode.PutFile` | rust-data-plane/src/snapshot.rs:1216-1262 | puts the object exactly when the file still hashes to the scanned digest, which a symlink's recorded target does, and an object already there verifies |
| `StorageNodes.StorageNode.CheckFinalize` | rust-data-plane/src/snapshot.rs:473-558 | the checks of the final transaction accept exactly what the finalising step allows, and a stale token is reported with the newest one |
| `StorageNodes.StorageNode.FinalizeSnapshotCas` | rust-data-plane/src/snapshot.rs:455-574 | the READY compare-and-set: succeeds exactly when every check of the transaction holds, and otherwise nothing changes; what it supersedes is protected for exactly the configured time from now |
| `StorageNodes.StorageNode.CreateSnapshotAfterInsert` | rust-data-plane/src/snapshot.rs:233-339 | keeps the invariant however it ends, and an upload that nobody hinders ends READY |
| `StorageNodes.StorageNode.RunSnapshotUpload` | rust-data-plane/src/snapshot.rs:203-231 | success means a READY row with every object and the manifest in place; failure leaves the row in 'error', protected for exactly the configured time; an unhindered upload succeeds |
| `StorageNodes.StorageNode.ApplyRetention` | control-plane/src/db.ts:1509-1667 | deletes exactly the jobs closed before the jobs time and the rows that are due; renews marks so that they can be listed exactly from content_objects later on; keeps rows, store, marks and generations in order, and local copies when these jobs spare the fence; leaves a second run at that instant nothing to do, and drops a last reference only where a collected mark is wrong |
| `StorageNodes.StorageNode.PurgeTerminalJobs` | control-plane/src/db.ts:2187-2211 | refuses exactly batch sizes that are not positive; otherwise exactly the closed jobs that nothing has updated since the configured time are deleted and counted, and nothing else changed |
| `StorageNodes.StorageNode.DeleteObjectWhileLocked` | rust-data-plane/src/snapshot.rs:956-974 | refuses exactly on a live reference; otherwise the key is out of the store and true says that it was there |
| `StorageNodes.StorageNode.ListGcEligible` | control-plane/src/db.ts:1683-1705 | only eligible marks, and all of them when they fit the limit |
| `StorageNodes.StorageNode.GcCollect` | control-plane/src/worker.ts:267-297 | however stale its list, exactly the listed keys without protected reference leave the store; of the marks only listed rows change: those of free keys are collected, the others can be listed exactly from content_objects later on; it counts the marks it collected and the entries it met in use |
| `StorageNodes.StorageNode.ReadyMatch` | rust-data-plane/src/db.rs:456-492 | returns the latest READY row that lists the folder, if there is one and no edit is pending |
| `StorageNodes.StorageNode.DecideEviction` | rust-data-plane/src/snapshot.rs:748-844 | the checks in their order accept exactly the covered folders that nobody used since the cutoff, with the reason of a refusal |
| `StorageNodes.StorageNode.EvictLocal` | rust-data-plane/src/snapshot.rs:748-888 | the folder goes exactly when it is forced, covered by the READY row and not used after the cutoff; a covered folder that was is refused as recently accessed, and nothing else is; what goes is recoverable, and a refusal or a dry run changes nothing |
| `StorageNodes.StorageNode.ResolveReadyGeneration` | rust-data-plane/src/snapshot.rs:732-746 | a requested generation stands for itself, none for the READY one |
| `StorageNodes.StorageNode.DecideRestore` | rust-data-plane/src/snapshot.rs:576-703 | the checks in their order, with the validation of the manifest, accept exactly the restorable requests |
| `StorageNodes.StorageNode.RestoreSnapshot` | rust-data-plane/src/snapshot.rs:576-730 | goes through exactly when the token is current and a READY row of the requested generation, whose manifest materialises, may take the folder's place; then the folder holds the row's files and was last used now, an existing folder stays as it was, an evicted one comes back |
| `CopyRun.EvictedIsRestorable` | rust-data-plane/src/snapshot.rs:576-730 | an evicted problem is restorable exactly when the token is current and the manifest of its READY row materialises |
| `CopyRun.EvictableExactly` | rust-data-plane/src/snapshot.rs:748-844 | some READY row lets the folder go exactly when the token is current, the folder is clean and equals the READY row of the usage generation, and its last access is not after the cutoff |
| `CopyRun.RestoreIsThreeSteps` | rust-data-plane/src/snapshot.rs:576-730 | a restore from start to end has the effect of the fence check, the download and the publication as steps of the protocol |
| `CollectorRun.DeletedKeepsInv` | rust-data-plane/src/snapshot.rs:956-974 | a deletion from lock to end keeps the invariant |
| `CollectorRun.SettlesExactly` | control-plane/src/db.ts:1707-1735 | what the loop leaves: listed keys without protected reference are gone, their listed marks collected, and the marks of keys in use wait as long as a new mark does |
| `UploadRun.NextIsEnabled` | rust-data-plane/src/snapshot.rs:233-339 | the next step of an unhindered upload is always enabled |
| `ObjectStore.InMemoryStore.PutObject` | rust-data-plane/src/r2.rs:455-468 | a key is written once, and a content-addressed put cannot fail or break the addressing |
| `ObjectStore.InMemoryStore.PutObjectOverwrite` | rust-data-plane/src/r2.rs:470-474 | an overwrite outside the content keys leaves the addressing intact |
| `ObjectStore.InMemoryStore.PutObjectFromPath` | rust-data-plane/src/r2.rs:476-486 | what arrives under a content key has its digest |
| `ObjectStore.InMemoryStore.VerifyObject` | rust-data-plane/src/r2.rs:523-527 | on a content key of the expected digest it cannot come out false |
| `ObjectStore.InMemoryStore.DeleteObject` | rust-data-plane/src/r2.rs:549-552 | the key is gone and every other object stays |
| `JobFencing.StepKeepsInv` | control-plane/src/db.ts:1325-1389 | every job step keeps tokens granted once and below their counter, attempts within the budget, and attempts equal to one plus re-acquisitions and watcher claims |
| `JobFencing.BatchTokens` | control-plane/src/db.ts:1473-1507 | the ranked batch gives each revoked row a new token of its own, in the order of the ids |
| `JobFencing.WatcherTokenIsNext` | rust-data-plane/src/db.rs:43-57 | the watcher's GREATEST over the table never skips or repeats a token |
| `JobRuns.GrantsRise` | control-plane/src/db.ts:1341-1356 | over every run, a token granted by a later step is larger than every earlier one of its counter |
| `JobRuns.TokensAreDistinct` | control-plane/src/db.ts:1341-1356 | over every run, two rows of a counter never carry the same token |
| `JobRuns.LostLeaseStaysLost` | control-plane/src/db.ts:1369-1450 | over every run, a holder that is not live is never live again, so no renewal, assertion or completion with its token goes through |
| `JobRuns.TokensOnlyRise` | control-plane/src/db.ts:1746-1773 | over every run, a retained row's token and attempts never go down |
| `JobRuns.NewerRowFences` | rust-data-plane/src/snapshot.rs:1301-1318 | while a row with a newer token is retained, every older token fails the MAX check |
| `JobHolds.LeaseHolds` | control-plane/src/db.ts:1369-1450 | over every run that does not end the job or renew its lease, the holder is live exactly until the lease runs out, and nobody else is live before that |
| `JobHolds.AcquisitionLeases` | control-plane/src/db.ts:1341-1356 | an acquired job is held under the newest token of its counter exactly until the lease given with it ends, and has then expired; it cost an attempt only if an earlier lease had run out |
| `JobHolds.RenewalLeases` | control-plane/src/db.ts:1369-1378 | a renewal makes the lease last exactly that long from now |
| `JobHolds.CancellationRevokes` | control-plane/src/db.ts:1746-1773 | a cancelled job has the newest token of its counter and no live holder |
| `JobHolds.RetryWaits` | control-plane/src/db.ts:1775-1784 | a retried job is pending for any worker, with its attempts and its token |
| `JobHolds.FailureHandsBack` | rust-data-plane/src/db.rs:758-783 | a failed job goes back to the queue while an attempt is left, is failed for good otherwise, and has no live holder |
| `JobHolds.BatchFailsExhausted` | control-plane/src/db.ts:1473-1507 | the batch fails exactly the running rows whose lease is over and whose attempts are used up, each under a token that nobody had |
| `JobHolds.ClaimWatches` | rust-data-plane/src/db.rs:627-690 | the waiting snapshot is the watcher's under the newest token until the lease ends, and no other local job of the problem runs |
| `JobHolds.InsertWatches` | rust-data-plane/src/db.rs:690-729 | so is the row that the watcher inserts when none waits |
| `JobExclusion.OperationsExclude` | control-plane/src/db.ts:1005-1097 | over every run without retry and watcher, two active local jobs of a problem are a scan and a snapshot, and gc_collect is active at most once |
| `JobExclusion.ExclusiveShape` | control-plane/src/db.ts:1005-1097 | the active local jobs of a problem are none, one scan and one snapshot at most, a lone restore or a lone evict |
| `JobExclusion.RestoreIfMissingKeepsExclusive` | control-plane/src/db.ts:1154-1266 | the restore transaction, with its cancellations and their rollback, keeps exclusion |
| `JobExclusion.RetryKeepsExclusive` | control-plane/src/db.ts:1775-1784 | a retry keeps exclusion exactly when no active job of the problem clashes with it |
| `JobExclusion.RetryBreaksExclusion` | control-plane/src/db.ts:1775-1784 | a run in which a retried eviction is active beside a snapshot |
| `JobExclusion.WatchInsertKeepsExclusive` | rust-data-plane/src/db.rs:700-729 | the watcher's insert keeps exclusion exactly when nothing active clashes |
| `JobExclusion.WatchBreaksExclusion` | rust-data-plane/src/db.rs:700-729 | a run in which the watcher's running snapshot is active beside a pending eviction |
| `JobExclusion.RunsRunOneAtATime` | migrations/007_active_job_guards.sql:55-59 | over every run, retries and the watcher included, at most one local operation of a problem is running |
| `JobExclusion.BudgetHolds` | control-plane/src/db.ts:1330-1358 | over every run, attempts are within max_attempts, claims are at most max_attempts - 1, a pending job is acquirable, an expired one is either re-acquirable or failable |
| `JobExclusion.WatcherAllocates` | rust-data-plane/src/db.rs:14-42 | the SQL of the watcher computes allocate_counter_value, above every observed generation |
| `JobExclusion.GenerationsNeverRepeat` | control-plane/src/db.ts:1311-1323 | over every run, the generations either plane allocates for a problem strictly increase |
| `JobTables.CreateIsIdempotent` | control-plane/src/db.ts:1018-1035 | the same create request a second time changes nothing |
| `JobTables.StepKeepsKeys` | control-plane/src/db.ts:1078-1090 | every step keeps idempotency keys unique |
| `JobTables.PassEnds` | control-plane/src/db.ts:1473-1507 | one token a row in the order of the ids is the ranked batch statement |
| `JobTables.ConflictsExactly` | control-plane/src/db.ts:1036-1097 | a create request conflicts exactly when no row has its key, no unfinished job has the same operation, problem, generation and, unless the type coalesces, fingerprint, and a local job of the problem is unfinished that is not the scan beside a snapshot or the snapshot beside a scan |
| `JobTables.RestoreBlockedExactly` | control-plane/src/db.ts:1154-1266 | a new restore is refused exactly when a local job of the problem is unfinished other than a waiting scan or snapshot |
| `JobTables.JobTable.CreateJob` | control-plane/src/db.ts:992-1139 | replays the row with the key, joins an unfinished job for the same request, refuses exactly on a conflict, and otherwise inserts a pending row with three attempts; only an insert changes the table |
| `JobTables.JobTable.CreateRestoreJobIfMissing` | control-plane/src/db.ts:1154-1266 | replay, active restore, or exactly the waiting scans and snapshots of the problem cancelled with the insert if the folder is missing, all or nothing |
| `JobTables.JobTable.FirstCandidate` | control-plane/src/db.ts:1330-1340 | the job the lane's ORDER BY puts first |
| `JobTables.JobTable.AcquireJob` | control-plane/src/db.ts:1325-1367 | expires first; then the first job of the lane, restores before all others and older before newer, is held exactly as long as it was leased; nothing is acquired only if the lane is empty or another operation of that job's problem runs |
| `JobTables.JobTable.FailExpiredRunningJobs` | control-plane/src/db.ts:1473-1507 | the pass over the rows has the effect of the ranked batch, which fails and counts exactly the exhausted rows |
| `JobTables.JobTable.RenewJobLease` | control-plane/src/db.ts:1369-1378 | renews exactly for the live holder, who then holds the job exactly that long from now |
| `JobTables.JobTable.CompleteJobWithLease` | control-plane/src/db.ts:1434-1450 | writes exactly the live holder's outcome |
| `JobTables.JobTable.CancelJob` | control-plane/src/db.ts:1746-1773 | cancels exactly active rows, under a new token |
| `JobTables.JobTable.RetryJob` | control-plane/src/db.ts:1775-1784 | makes exactly the retryable rows pending |
| `JobTables.JobTable.FailJob` | rust-data-plane/src/db.rs:758-783 | back to pending while attempts are left, for the holder only |
| `JobTables.JobTable.WatcherTransaction` | rust-data-plane/src/db.rs:627-729 | claims the pending snapshot job at the price of an attempt, else inserts a running one, held exactly as long as leased; takes nothing only if a local job of the problem runs or another row has the key |
| `JobTables.JobTable.AcquireDirtySnapshotJob` | rust-data-plane/src/db.rs:627-729 | the returned job's holder is live exactly until the lease ends; none is returned only if a local job of the problem runs or another row has the key |
| `SymlinkPaths.ValidateRelativePath` | rust-data-plane/src/paths.rs:54-66 | accepts exactly paths of ordinary names |
| `SymlinkPaths.ValidateSymlinkTarget` | rust-data-plane/src/paths.rs:73-95 | the depth counter accepts exactly the targets whose resolution on a stack of names stays inside the folder |
| `SymlinkPaths.NoPrefixEscapes` | rust-data-plane/src/paths.rs:73-95 | a relative target stays inside exactly when resolving no prefix of it pops above the problem root |
| `SymlinkPaths.ClimbsExactly` | rust-data-plane/src/paths.rs:73-95 | a target of n times ".." stays inside exactly when the link lies in at least n directories |
| `FolderScan.ScanEntry` | rust-data-plane/src/scanner.rs:64-186 | one entry of the walk: hardlinks point at the first name of their inode with its digest |
| `FolderScan.ScanProblemFolder` | rust-data-plane/src/scanner.rs:48-211 | succeeds exactly on scannable folders; entries in walk order; logical bytes are the bytes of non-duplicates and split into archive and auxiliary |
| `FolderScan.EachInodeCountsOnce` | rust-data-plane/src/scanner.rs:145-170 | logical bytes are those of each inode once, however many names it has, and of the targets of symlinks |
| `FolderScan.ArchivesByEnding` | rust-data-plane/src/scanner.rs:173-184 | a name counts as an archive's exactly by the four endings, in whatever case |
| `FolderManifest.ValidateManifest` | rust-data-plane/src/snapshot.rs:1390-1464 | accepts exactly manifests with unique ordinary paths, matching keys, sound symlinks, counts and a canonical file |
| `FolderManifest.ValidIsRigid` | rust-data-plane/src/snapshot.rs:1390-1464 | two valid manifests of a problem and generation that list the same entries differ in schema version and archive at most: keys, count and total follow |
| `FolderManifest.BuiltManifestValidates` | rust-data-plane/src/snapshot.rs:275-299 | the manifest of a scan with an archive is valid exactly when no two files are reported under one path, and its total is the scan's logical bytes |
| `FolderManifest.BackslashBreaksValidation` | rust-data-plane/src/snapshot.rs:1404-1411 | a folder with files 'a/b' and 'a\b' that is scanned with its archive, and whose manifest validation refuses |
| `FolderManifest.ReorderingKeepsBytes` | rust-data-plane/src/snapshot.rs:275-281 | sorting the uploaded files changes no total |
| `FolderUpload.UploadFile` | rust-data-plane/src/snapshot.rs:1216-1262 | succeeds exactly when what is opened under the reported path hashes to the scanned digest, or the entry is a sound symlink, and an object already there is right |
| `FolderUpload.UploadAll` | rust-data-plane/src/snapshot.rs:282-292 | succeeds exactly when every entry uploads on its own; then every object is stored and none that was there has changed |
| `FolderUpload.UploadsExactly` | rust-data-plane/src/snapshot.rs:1223-1241 | a scanned folder uploads exactly when every regular file reads as itself under the path the scan reported for it |
| `FolderUpload.BackslashNeedsTwin` | rust-data-plane/src/snapshot.rs:1223-1241 | in a folder without symlinks a file with a backslash in its name uploads only where another file of the same content takes its place |
| `FolderRestore.HardlinkKeeps` | rust-data-plane/src/snapshot.rs:1034-1067 | a hardlink joins the inode of its source and nothing else changes |
| `FolderRestore.NewFileIsFloored` | rust-data-plane/src/snapshot.rs:1118-1137 | bit by bit, for a recorded mode: group and others can read, can execute what the owner or they could, every other permission is the recorded one, and no other bit is set |
| `FolderRestore.ArchiveComesBack` | rust-data-plane/src/snapshot.rs:1443-1464 | the archive that a valid manifest names is a regular file in every folder that is made from it |
| `FolderRestore.MaterializeManifestFiles` | rust-data-plane/src/snapshot.rs:983-1137 | the three passes rebuild the folder exactly when every entry can be placed from the store and no listed path is a directory on the way to another; then they leave exactly what the manifest lists, with the permissions, bit by bit and with the floor, that the last hardlink with a recorded mode asks for, or the file itself; only a listed symlink on the way to another can lead them astray |
| `FolderRoundTrip.RestorableExactly` | rust-data-plane/src/snapshot.rs:983-1105 | what was scanned and uploaded, whatever the names, can be placed exactly when no reported path is a directory on the way to another |
| `FolderRoundTrip.RestoresExactly` | rust-data-plane/src/snapshot.rs:613-641 | its manifest is valid and can be placed exactly when no two files are reported alike, nor one on the way to another; and that is what the storage protocol asks of the manifest |
| `FolderRoundTrip.ClashCannotBeRestored` | rust-data-plane/src/snapshot.rs:1098-1102 | an archive 'a' beside a symlink 'a\b': it is scanned and uploaded, its manifest is valid, and no restore can rebuild it |
| `FolderRoundTrip.RestoreUndoesScan` | rust-data-plane/src/snapshot.rs:983-1137 | same bytes, symlink targets and hardlink groups; permissions bit by bit as scanned, with the read and execute floor; only needed directories |
| `FolderRoundTrip.RestoreUndoesScanExactly` | rust-data-plane/src/snapshot.rs:983-1137 | for every folder that is scanned and whose manifest is materialised, the two are the same exactly when no name holds a backslash |
| `FolderRoundTrip.TwinsUpload` | rust-data-plane/src/snapshot.rs:455-574 | the two files of that folder upload, so nothing stops a snapshot of it from becoming READY |
| `FolderRoundTrip.BackslashedLinkComesBackDifferent` | rust-data-plane/src/snapshot.rs:983-1105 | a folder with a symlink named 'a\b' is scanned, uploaded, valid and restorable, and every restored folder differs from it |
| `FolderRoundTrip.SnapshotAndRestore` | rust-data-plane/src/snapshot.rs:264-299 | scan, upload with its second hash, build, validate and materialise: all of it succeeds exactly on folders that are scannable, have the archive, read back under their reported paths, and are reported apart; plain names give the last two, and only then the folder is the same again |
| `ScanMatch.ScanMatchesSnapshotObjects` | rust-data-plane/src/db.rs:494-518 | sorting both sides and comparing in step decides equality of the two maps |
| `ScanMatch.SortedIsCanonical` | rust-data-plane/src/db.rs:494-518 | there is one sorted sequence of given items with unique paths |
| `TreeCache.SkippedIsAccurate` | rust-data-plane/src/reconcile.rs:58-81 | over every interleaving of readers whose missing sweeps find the folder missing, a skipped folder's stored sizes are a fresh scan's |
| `TreeCache.CacheHitIsAccurate` | rust-data-plane/src/api.rs:139-155 | over every interleaving a cache hit has the canonical path a rescan would find, whatever the sweeps do |
| `TreeCache.SweepIsSoundExactly` | rust-data-plane/src/db.rs:196-235 | a missing sweep leaves skipping right in every continuation whose sweeps find the folder missing, if and only if nothing vouches for the folder or no size changes |
| `TreeCache.SweptSizesNeverRegress` | rust-data-plane/src/db.rs:196-235 | a missing sweep keeps stored bytes and counts that are larger than the READY snapshot's and raises smaller ones; once more it changes nothing |
| `TreeCache.SoundExactlyWhenSparing` | rust-data-plane/src/reconcile.rs:58-85 | over every interleaving, skipping stays right for good exactly when every sweep of the run is such a one |
| `TreeCache.StaleSweepDeceives` | rust-data-plane/src/reconcile.rs:83-85 | a run in which a sweep planned earlier makes reconcile skip a folder with wrong sizes |
| `TreeCache.FolderView.ProblemReadiness` | rust-data-plane/src/api.rs:98-201 | with or without a hit, ready exactly when the folder scans and has its canonical archive; missing, present or partial accordingly; the cache row stays honest |
| `TreeCache.FolderView.ReconcileKnown` | rust-data-plane/src/reconcile.rs:58-81 | skips exactly when the cache accounts for this version and the usage row is current; otherwise afterwards usage and cache are those of the folder |
| `MirrorOrder.Emitter.Emit` | control-plane/src/routes.ts:335-344 | terminates on cycles, emits each id at most once, and on acyclic links puts roots first |
| `MirrorOrder.OrderProblems` | control-plane/src/routes.ts:332-345 | each external id exactly once, cyclic links included; without a cycle every root precedes its mirrors, and, ids being distinct, with one that is impossible |
| `MirrorOrder.RankedExactly` | control-plane/src/routes.ts:332-345 | the links have a rank that falls along each of them exactly when following them never leads back |
| `MirrorOrder.RootsFirstMeansAcyclic` | control-plane/src/routes.ts:332-345 | an order with all roots first exists only when the links form no cycle |
| `Keyset.ListPage` | control-plane/src/db.ts:743-758 | a page is the next rows after the cursor, and says whether there are more |
| `Keyset.FollowCursor` | control-plane/src/db.ts:1913-1937 | following next_cursor from the start returns every row once and in order |
| `CanonicalJson.CanonicalExactly` | control-plane/src/db.ts:2169-2183 | two values have the same canonical form exactly when they differ in object key order alone |
| `CanonicalJson.SortIsIdempotent` | control-plane/src/db.ts:2173-2183 | a canonical value is its own canonical form |
| `DirtyLedger.EachKeyCountsOnce` | control-plane/src/db.ts:391-482 | over any run with any replays, each distinct key has bumped the version exactly once |
| `DirtyLedger.ReplayChangesNothing` | control-plane/src/db.ts:398-412 | a replay changes nothing, whenever it comes |
| `DirtyLedger.NoLostEdit` | control-plane/src/db.ts:723-734 | over every run without deletion in which snapshot jobs captured older versions, a dirty problem stays dirty throughout exactly when no sweep for missing folders comes while the problem looks missing and never backed up |
| `DirtyLedger.SweepSwallowsEdit` | control-plane/src/db.ts:189-207 | such a sweep swallows an edit: a problem is notified, its folder is seen missing, it is notified again, swept, and clean, though no job captured either version |
| `DirtyLedger.ClearsExactlyWhatWasCaptured` | rust-data-plane/src/snapshot.rs:50-60 | a clearing statement takes effect exactly when nothing bumped the version since the capture |
| `DirtyLedger.DirtyTable.MarkProblemDirtyIdempotent` | control-plane/src/db.ts:391-482 | conflicts exactly when the key belongs to another event; a new key makes the problem dirty under a new version and generation, or clean and unlisted if it was deleted; a replay changes nothing |
| `DirtyLedger.DirtyTable.ClearDirtyAfterSnapshot` | rust-data-plane/src/snapshot.rs:556-571 | clears exactly when the captured version is the current one and the dirty generation is not later than the snapshot |
| `DirtyLedger.DirtyTable.ClearDirtyForMissingLocal` | control-plane/src/db.ts:189-207 | a dirty problem goes clean exactly when it is listed, missing on disk and without a READY snapshot; no version changes |
| `DirtyLedger.DirtyTable.MarkDirtyIfNoReady` | control-plane/src/db.ts:221-257 | marks exactly what was clean, listed and never READY, under a new generation and the old version |

## Left out

- Fencing tokens of `gc_collect` jobs: the model lets any number of collectors work at once, which is more than the
  source allows.
- The delay that `recordGcFailure` computes and the order in which `listGcEligible` returns marks: a mark may be put off
  to any time that is not past by a job that listed it, a collector may let go of its lock at any point, and its list
  may be any set of eligible rows.
- Retention of audit rows inside `applyRetention`. The order in which `purgeTerminalJobs` picks the rows of a batch, and
  rows that it skips as locked: as a step of the protocol it takes any set of old closed rows.
- FenceRuns.PurgeLetsStaleActExactly: is about claims, finalisations, restores and publications. An overtaken eviction
  also needs a READY snapshot that equals the folder; for it, FenceRuns.FencedExactlyWhenSparing says when the fence
  stands. The workers of the model are freer than those of the source: a stale snapshot worker may claim any
  generation, and a stale restore worker may begin again, where a job of the source has one `target_generation` and
  makes one call. So in the source a purge lets such a step happen only in these cases, but not in all of them.
- GracePeriods.DeletionsWait: the grace period of marks holds for a collector whose listed mark is still there. One that
  sleeps over its list while the key is uploaded again has only the protection of rows to wait for: a deletion looks at
  the rows, not at the mark.
- Runs.RestoresReturnEvicted: for runs whose purges spare the fence, like Runs.EvictionsLoseNothing. The converse is
  about the fence, not about files: an overtaken restore that has staged the files of the READY generation does no harm.
  `World` also takes every restore to fail whose manifest does not materialise. That is so unless a symlink that leads
  to a directory is reported on the way to another symlink: `create_dir_all` and `symlink`
  (`rust-data-plane/src/snapshot.rs:1098-1102`) follow it, and a file is made where it leads.
- FolderRestore.MaterializeManifestFiles: what such a restore makes, after it went astray, is left open; the contract
  says where it can happen.
- CollectedMarks.RetentionKeepsLastReferences: one direction, for clean runs. A put that is not clean need not cost a
  reference, because a later retention run may reset the wrong mark first; CollectedMarks.RetentionKeepsLastExactly has
  the exact condition for each state.
- The `local_status` column in `World`: there, a sweep of dirty flags may take any problem without a READY snapshot.
  `TreeCache` and `DirtyLedger` have the column.
- `upsertProblemUsage` and `markLocalPresentForJob` of the control plane as steps on generations: the former sets
  `snapshot_generation` back to NULL.
- Orphan adoption and `build_reconcile_plan`: problem identities are fixed, so the re-keying of rows is not modelled.
  For the same reason the conflict on a changed code in `markProblemDirtyIdempotent` has no step.
- `markProblemDirty` and other unkeyed edits: in `DirtyLedger` and `World` they are one bump.
- `FOR UPDATE SKIP LOCKED` and UUID tie-breaks: the id of a job is its place in the order of creation.
- `runJob`'s timers: renewals come at any time in a run, and every write checks the lease.
- Files that change while a scan reads them, other than by the digest check at upload. Files of one snapshot that upload
  at once: in `World` their steps interleave, the method `UploadFiles` takes them one after the other.
- `init.yml`, device numbers, link counts, allocated bytes and the mode of a symlink in a scan. The canonical archive is
  given to the manifest as a path, and the tree fingerprint is a version number.
- Reported paths with an empty or `.` component, from a name with two adjacent backslashes or with a backslash at its
  end or around a dot: a restore treats each as a name of its own.
- Unicode case folding: `lowercase` of file extensions is for ASCII letters.
- CanonicalJson.CanonicalExactly: takes key comparison as a total order and `JSON.stringify` as injective, and leaves
  out that JavaScript moves integer-like keys to the front of an object, which comes after sorting and depends on the
  keys alone.
- Keyset.FollowCursor: for keys that are unique and never null; the encoding of cursors, cursors that do not decode,
  and listings by owner or by time are left out.
- Real digests, file-system metadata, network calls, authentication, presigned links, multipart upload, metrics,
  read models and the dashboard.
