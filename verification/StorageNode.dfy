/**
 The source's operations as methods that update the shared state in place. Each one is a sequence of the
 protocol's atomic steps, so what the run theorems say about steps holds of these methods.
 */
module StorageNodes {
  import opened Common
  import opened JobLeases
  import opened Storage
  import opened SnapshotRows
  import opened GcSafety
  import opened GcMarks
  import opened ReadyCas
  import opened RetentionRun
  import opened LocalCopies
  import opened Runs
  import opened CollectedMarks
  import opened UploadRun
  import opened CollectorRun
  import opened CopyRun

  datatype UploadError =
    | FencingMismatch(expected: int, got: int)
    | ManifestIntegrity
    | PrepareCasFailed
    | ChecksumMismatch(path: RelPath)
    | ClaimMissing(path: RelPath)
    | FinalCasFailed
    | UsageCasFailed

  /** One INSERT ... ON CONFLICT (snapshot_id, rel_path) DO UPDATE per scanned file. */
  method InsertObjectRows(row: Snapshot, scan: FileMap, verified: bool) returns (r: Snapshot)
    ensures r == row.(files := row.files + scan,
                      verified := if verified then row.verified + scan.Keys else row.verified - scan.Keys)
  {
    r := row;
    var todo := scan.Keys;
    while todo != {}
      invariant todo <= scan.Keys
      invariant r.files == row.files + (map path | path in scan.Keys - todo :: scan[path])
      invariant r == row.(files := r.files, verified := r.verified)
      invariant r.verified == if verified then row.verified + (scan.Keys - todo) else row.verified - (scan.Keys - todo)
    {
      var path :| path in todo;
      r := r.(files := r.files[path := scan[path]],
              verified := if verified then r.verified + {path} else r.verified - {path});
      todo := todo - {path};
    }
    assert (map path | path in scan.Keys - todo :: scan[path]) == scan;
  }

  datatype ClaimError = UnknownProblem | StaleToken(latest: int) | OwnedElsewhere(row: SnapshotId)

  datatype PurgeError = BadBatchSize

  datatype EvictError = StaleEviction(latest: int) | DryRunRequired | R2NotReady | EvictionDirty | RecentlyAccessed

  datatype RestoreError =
    | StaleRestore(latest: int)
    | NoReadyGeneration
    | ManifestRefused
    | ManifestOrObjectMissing
    | SnapshotNotReady
    | FileChurn

  lemma NothingGone(l: Leases, all: set<JobId>)
    ensures Without(l, all - all) == l
  {
  }

  lemma BatchGoes(l: Leases, all: set<JobId>, left: set<JobId>, batch: set<JobId>)
    requires batch <= left <= all
    ensures Without(l, all - left).(jobs := Without(l, all - left).jobs - batch) == Without(l, all - (left - batch))
    ensures |left - batch| + |batch| == |left|
  {
    assert l.jobs - (all - left) - batch == l.jobs - (all - (left - batch));
  }

  lemma WithoutCounts(l: Leases, gone: set<JobId>)
    requires gone <= l.jobs.Keys
    ensures |Without(l, gone).jobs| == |l.jobs| - |gone|
  {
    assert (l.jobs - gone).Keys == l.jobs.Keys - gone;
    assert |l.jobs.Keys - gone| + |gone| == |l.jobs.Keys|;
  }

  /** LIMIT n. */
  method SomeOf(ids: set<JobId>, n: nat) returns (some: set<JobId>)
    ensures some <= ids && |some| <= n && (|some| < n ==> some == ids)
  {
    some := {};
    var rest := ids;
    while |some| < n && rest != {}
      invariant some !! rest && some + rest == ids && |some| <= n
      decreases |rest|
    {
      var id :| id in rest;
      some, rest := some + {id}, rest - {id};
    }
  }


  class StorageNode {
    const retention: Retention
    var now: Time
    var snapshots: map<SnapshotId, Snapshot>
    var nextSnapshot: SnapshotId
    var marks: map<MarkKey, Mark>
    var epoch: nat
    var store: map<ObjectKey, Blob>
    var uploaders: map<SnapshotId, Uploader>
    var collectors: map<CollectorId, Collector>
    var problems: map<ProblemId, Problem>
    var usage: map<ProblemId, Usage>
    var leases: Leases
    var folders: map<ProblemId, FileMap>
    var restores: map<RestoreId, Restore>
    var readyLog: seq<(ProblemId, int)>
    var evicted: map<ProblemId, FileMap>

    function World(): World
      reads this
    {
      Storage.World.World(retention, now, snapshots, nextSnapshot, marks, epoch, store, uploaders, collectors,
                          problems, usage, leases, folders, restores, readyLog, evicted)
    }

    constructor (retention: Retention, now: Time)
      ensures World() == Init(retention, now) && Inv(World())
    {
      this.retention := retention;
      this.now := now;
      snapshots, nextSnapshot, marks, epoch, store := map[], 0, map[], 0, map[];
      uploaders, collectors, problems, usage, leases := map[], map[], map[], map[], NO_LEASES;
      folders, restores, readyLog, evicted := map[], map[], [], map[];
      new;
      InitInv(retention, now);
    }

    /** The checks of the final transaction, in the order of its statements. */
    method CheckFinalize(s: SnapshotId) returns (r: Result<(), UploadError>)
      requires AtStage(World(), s, ManifestStored)
      ensures r.Ok? <==> CanFinalize(World(), s)
      ensures var u := uploaders[s];
              !Fresh(World(), u.problem, u.token) ==>
                r == Err(FencingMismatch(u.token, LatestToken(World(), u.problem)))
    {
      var u := uploaders[s];
      if !Fresh(World(), u.problem, u.token) {
        return Err(FencingMismatch(u.token, LatestToken(World(), u.problem)));
      }
      if u.problem in usage && usage[u.problem].generation.Some? && usage[u.problem].generation.value >= u.generation {
        return Err(FencingMismatch(u.generation, usage[u.problem].generation.value));
      }
      if !(s in snapshots && snapshots[s].problem == u.problem && snapshots[s].generation == u.generation
           && snapshots[s].state == Verifying) {
        return Err(FinalCasFailed);
      }
      if u.problem !in usage {
        return Err(UsageCasFailed);
      }
      return Ok(());
    }

    method CommitFinalize(s: SnapshotId)
      requires CanFinalize(World(), s)
      modifies this
      ensures World() == AfterFinalize(old(World()), s)
    {
      hide FinalizedRows, ClearedProblems, SupersededRows, ReadyRow, Fresh;
      var u := uploaders[s];
      var rows := SupersededRows(World(), u.problem, u.generation);
      CommittedRows(World(), s);
      var ready := InsertObjectRows(ReadyRow(rows[s], now), u.scan, true);
      snapshots := rows[s := ready];
      usage := usage[u.problem := usage[u.problem].(r2Ready := true, generation := Some(u.generation))];
      problems := ClearedProblems(problems, u.problem, u.generation, u.expectedVersion);
      uploaders := uploaders - {s};
      readyLog := readyLog + [(u.problem, u.generation)];
    }

    /** The final transaction: all of it, or nothing when a check fails. */
    method FinalizeSnapshotCas(s: SnapshotId) returns (r: Result<(), UploadError>)
      requires AtStage(World(), s, ManifestStored)
      modifies this
      ensures World() == AfterUpload(old(World()), Finalize(s))
      ensures r.Ok? <==> CanFinalize(old(World()), s)
      ensures r.Ok? && CoreInv(old(World())) ==> FinalizedWorld(old(World()), World(), s)
      ensures r.Err? ==> World() == old(World())
    {
      hide AfterFinalize, AfterUpload, CanFinalize, CoreInv, FinalizedWorld;
      FinalizeStep(World(), s);
      r := CheckFinalize(s);
      if r.Ok? {
        if CoreInv(World()) { FinalizeLeaves(World(), s); }
        CommitFinalize(s);
      }
    }

    method CommitPrepare(s: SnapshotId)
      requires s in uploaders && s in snapshots
      modifies this
      ensures World() == AfterPrepare(old(World()), s) && AtStage(World(), s, UploadingFiles({}, {}))
    {
      hide UploadKey, Unclaimed;
      var u := uploaders[s];
      marks := Unclaimed(marks, u);
      var row := InsertObjectRows(snapshots[s].(state := Uploading,
        manifest := Some(ManifestAt(u.problem, u.generation))),
                                  u.scan, false);
      snapshots := snapshots[s := row];
      uploaders := uploaders[s := u.(stage := UploadingFiles({}, {}))];
    }

    /**
     The claiming transaction: drop the marks on every key, move the row from 'hashing' to 'uploading',
     write one object row per file. While a collector holds one of the keys it waits, so nothing happens.
     */
    method PrepareSnapshotUpload(s: SnapshotId) returns (ok: bool)
      modifies this
      ensures World() == AfterUpload(old(World()), Prepare(s))
      ensures ok <==> CanPrepare(old(World()), s)
      ensures ok ==> AtStage(World(), s, UploadingFiles({}, {}))
      ensures ok && RowsInv(old(World())) ==> ClaimedKeys(old(World()), World(), s)
    {
      hide AfterUpload, AfterPrepare, RowsInv, ClaimedKeys;
      PrepareStep(World(), s);
      if RowsInv(World()) && CanPrepare(World(), s) { PrepareLeaves(World(), s); }
      ok := CanPrepare(World(), s);
      if ok {
        CommitPrepare(s);
      }
    }

    /** A missing object is put; one that is there was verified. */
    method EnsureObject(sha: Digest)
      requires Content(sha) in store ==> store[Content(sha)] == Raw(sha.preimage)
      modifies this`store
      ensures store == old(store)[Content(sha) := Raw(sha.preimage)]
    {
      if Content(sha) !in store {
        store := store[Content(sha) := Raw(sha.preimage)];
      }
    }

    /** One file's object, under the digest that hashing the folder again must give. */
    method PutFile(s: SnapshotId, path: RelPath) returns (ok: bool)
      modifies this
      ensures World() == AfterUpload(old(World()), Place(s, path))
      ensures ok <==> CanPlace(old(World()), s, path)
      ensures ok ==> PutAsScanned(old(World()), store, old(uploaders)[s], path)
      ensures !ok ==> World() == old(World())
      ensures ok ==> s in uploaders && uploaders[s] == old(uploaders[s]).(stage := uploaders[s].stage)
                     && uploaders[s].stage ==
                        old(uploaders[s].stage).(placed := old(uploaders[s].stage.placed) + {path})
    {
      hide AfterUpload;
      PlaceStep(World(), s, path);
      ok := CanPlace(World(), s, path);
      if ok {
        var u := uploaders[s];
        var sha := u.scan[path].sha;
        EnsureObject(sha);
        uploaders := uploaders[s := u.(stage := u.stage.(placed := u.stage.placed + {path}))];
      }
    }

    /** Tick the object row off; it is an error if the claim is gone. */
    method TickObjectRow(s: SnapshotId, path: RelPath) returns (ok: bool)
      modifies this
      ensures World() == AfterUpload(old(World()), Record(s, path))
      ensures ok <==> CanRecord(old(World()), s, path)
      ensures ok ==> s in snapshots && path in snapshots[s].verified && path in snapshots[s].files
                     && snapshots[s].files[path] == old(uploaders)[s].scan[path]
      ensures ok ==> s in uploaders && uploaders[s] == old(uploaders[s]).(stage := uploaders[s].stage)
                     && uploaders[s].stage ==
                        old(uploaders[s].stage).(recorded := old(uploaders[s].stage.recorded) + {path})
    {
      ok := CanRecord(World(), s, path);
      if ok {
        var u := uploaders[s];
        snapshots := snapshots[s := snapshots[s].(files := snapshots[s].files[path := u.scan[path]],
                                                  verified := snapshots[s].verified + {path})];
        uploaders := uploaders[s := u.(stage := u.stage.(recorded := u.stage.recorded + {path}))];
      }
    }

    /** Whatever the failure, the row ends in 'error' unless it is already READY. */
    method MarkSnapshotError(s: SnapshotId)
      requires s in uploaders
      modifies this
      ensures World() == AfterUpload(old(World()), Fail(s))
    {
      if s in snapshots && snapshots[s].state != Ready {
        snapshots := snapshots[s := snapshots[s].(state := Error, completedAt := Some(now))];
      }
      uploaders := uploaders - {s};
    }

    /** The claim: the INSERT ... ON CONFLICT, then the clean-up of object rows an earlier attempt left behind. */
    method ClaimSnapshot(p: ProblemId, generation: int, token: int, expected: Option<int>, canonical: RelPath,
      links: set<RelPath>, repeats: bool, scan: FileMap)
      returns (r: Result<SnapshotId, ClaimError>)
      requires RowsInv(World())
      requires Works(leases, p, token, SnapshotOp)
      modifies this
      ensures r.Ok? <==> CanClaim(old(World()), p, generation, token)
      ensures r.Err? ==> World() == old(World())
      ensures var claim := Claim(p, generation, token, expected, canonical, links, repeats, scan);
              r.Ok? ==> World() == AfterUpload(AfterUpload(old(World()), claim), ClearRows(r.value))
      ensures r.Ok? ==> AtStage(World(), r.value, RowsCleared)
      ensures r.Ok? <==> p in old(problems) && Fresh(old(World()), p, token)
                         && forall t :: t in old(snapshots) && SameGeneration(old(World()), t, p, generation) ==>
                              Abandoned(old(snapshots)[t], old(now))
      ensures var u := Uploader(p, generation, token, expected, canonical, links, repeats, scan, Claimed);
              r.Ok? ==> FreshlyClaimed(old(World()), World(), r.value, u)
    {
      hide RowsOk, AfterClearRows, ClaimedRow, Passes, Reusable, Abandoned, FreshlyClaimed;
      ghost var w, u := World(), Uploader(p, generation, token, expected, canonical, links, repeats, scan, Claimed);
      ClaimStep(w, u);
      forall row
        ensures Reusable(w, row) <==> Abandoned(row, now)
      {
        ReusableWhenAbandoned(w, row);
      }
      if !Fresh(World(), p, token) {
        return Err(StaleToken(LatestToken(World(), p)));
      }
      if p !in problems {
        return Err(UnknownProblem);
      }
      var s := nextSnapshot;
      if exists t :: t in snapshots && SameGeneration(World(), t, p, generation) {
        s :| s in snapshots && SameGeneration(World(), s, p, generation);
        if !Reusable(World(), snapshots[s]) {
          return Err(OwnedElsewhere(s));
        }
      }
      ClaimLeaves(w, s, u);
      InsertSnapshot(s, Uploader(p, generation, token, expected, canonical, links, repeats, scan, Claimed));
      ClearObjectRows(s);
      return Ok(s);
    }

    method InsertSnapshot(s: SnapshotId, u: Uploader)
      modifies this
      ensures World() == AfterClaim(old(World()), s, u)
    {
      nextSnapshot := if s in snapshots then nextSnapshot else s + 1;
      snapshots := snapshots[s := ClaimedRow(World(), s, u.problem, u.generation)];
      uploaders := uploaders[s := u];
    }

    method ClearObjectRows(s: SnapshotId)
      requires s in uploaders
      modifies this
      ensures World() == AfterClearRows(old(World()), s) && AtStage(World(), s, RowsCleared)
    {
      if s in snapshots {
        snapshots := snapshots[s := snapshots[s].(files := map[], verified := {})];
      }
      uploaders := uploaders[s := uploaders[s].(stage := RowsCleared)];
    }

    method BeginHashing(s: SnapshotId)
      requires AtStage(World(), s, RowsCleared)
      modifies this
      ensures World() == AfterUpload(old(World()), StartHashing(s)) && AtStage(World(), s, HashingFiles)
    {
      if s in snapshots {
        snapshots := snapshots[s := snapshots[s].(state := Hashing)];
      }
      uploaders := uploaders[s := uploaders[s].(stage := HashingFiles)];
    }

    method BeginVerifying(s: SnapshotId)
      requires CanStartVerifying(World(), s)
      modifies this
      ensures World() == AfterUpload(old(World()), StartVerifying(s)) && AtStage(World(), s, VerifyingFiles)
    {
      if s in snapshots && snapshots[s].state == Uploading {
        snapshots := snapshots[s := snapshots[s].(state := Verifying)];
      }
      uploaders := uploaders[s := uploaders[s].(stage := VerifyingFiles)];
    }

    method WriteManifest(s: SnapshotId)
      requires AtStage(World(), s, VerifyingFiles)
      modifies this
      ensures World() == AfterUpload(old(World()), PutManifest(s)) && AtStage(World(), s, ManifestStored)
    {
      var u := uploaders[s];
      store := store[ManifestAt(u.problem, u.generation) := ManifestDoc(u.scan, u.repeats)];
      uploaders := uploaders[s := u.(stage := ManifestStored)];
    }

    /** Every step of the upload between the claim and its end. On an error the caller records it on the row. */
    method CreateSnapshotAfterInsert(s: SnapshotId) returns (r: Result<(), UploadError>)
      requires CoreInv(World()) && AtStage(World(), s, RowsCleared)
      modifies this
      ensures KeepsInv(old(World()), World())
      ensures r.Ok? ==> Published(World(), s, old(uploaders[s]))
      ensures r.Err? ==> s in uploaders
      ensures old(Unhindered(World(), s)) ==> r.Ok?
    {
      hide CoreInv, LocalInv, Unhindered, AfterUpload, CanPrepare, CanFinalize, CanPlace, CanRecord, Published;
      ghost var u, local, free := uploaders[s], LocalInv(World()), Unhindered(World(), s);
      GoesOn(World(), s, u, local, free, StartHashing(s));
      BeginHashing(s);
      if free { FreeIsEnabled(World(), s, u, local, ""); }
      GoesOn(World(), s, u, local, free, Prepare(s));
      var prepared := PrepareSnapshotUpload(s);
      if !prepared {
        return Err(PrepareCasFailed);
      }
      r := UploadFiles(s, u, local, free);
      if r.Err? {
        return;
      }
      GoesOn(World(), s, u, local, free, StartVerifying(s));
      BeginVerifying(s);
      GoesOn(World(), s, u, local, free, PutManifest(s));
      WriteManifest(s);
      if free { FreeIsEnabled(World(), s, u, local, ""); }
      if CanFinalize(World(), s) { FinalizePublishes(World(), s, u, local, free); }
      FinalizeStep(World(), s);
      r := FinalizeSnapshotCas(s);
    }

    method UploadFiles(s: SnapshotId, ghost u: Uploader, ghost local: bool, ghost free: bool)
      returns (r: Result<(), UploadError>)
      requires Going(World(), s, u, local, free) && uploaders[s].stage == UploadingFiles({}, {})
      modifies this
      ensures Going(World(), s, u, local, free)
      ensures r.Ok? ==> CanStartVerifying(World(), s)
      ensures free ==> r.Ok?
    {
      hide CoreInv, LocalInv, Unhindered, AfterUpload, CanPlace, CanRecord;
      var todo := uploaders[s].scan.Keys;
      while todo != {}
        invariant Going(World(), s, u, local, free)
        invariant s in uploaders && todo <= uploaders[s].scan.Keys && uploaders[s].scan == u.scan
        invariant uploaders[s].stage == UploadingFiles(u.scan.Keys - todo, u.scan.Keys - todo)
      {
        var path :| path in todo;
        if free { FreeIsEnabled(World(), s, u, local, path); }
        GoesOn(World(), s, u, local, free, Place(s, path));
        var placed := PutFile(s, path);
        if !placed {
          return Err(ChecksumMismatch(path));
        }
        if free { FreeIsEnabled(World(), s, u, local, path); }
        GoesOn(World(), s, u, local, free, Record(s, path));
        var recorded := TickObjectRow(s, path);
        if !recorded {
          return Err(ClaimMissing(path));
        }
        todo := todo - {path};
      }
      return Ok(());
    }

    /**
     The upload of a claimed row. However it goes, the protocol's invariant holds afterwards; success means a READY row
     with every object in place, failure leaves the row in 'error', and an upload that nobody hinders succeeds.
     */
    method RunSnapshotUpload(s: SnapshotId) returns (r: Result<(), UploadError>)
      requires CoreInv(World()) && AtStage(World(), s, RowsCleared)
      modifies this
      ensures KeepsInv(old(World()), World()) && s !in uploaders
      ensures r.Ok? ==> Published(World(), s, old(uploaders[s]))
      ensures r.Err? && s in snapshots ==>
                snapshots[s].state == Error && HeldUntil(retention, now, snapshots[s], now + retention.error)
      ensures old(Unhindered(World(), s)) ==> r.Ok?
    {
      hide CoreInv, LocalInv, Unhindered, AfterUpload, Published, HeldUntil;
      r := CreateSnapshotAfterInsert(s);
      if r.Err? {
        FailsInError(World(), s);
        MarkSnapshotError(s);
      } else {
        PublishedIsGone(World(), s, old(uploaders[s]));
      }
    }

    /**
     The retention transaction: old jobs, then snapshots, then marks. Another run at the same instant would find nothing
     to do, and a last reference to a stored object goes only where a collected mark lies.
     */
    method ApplyRetention() returns (pruned: set<SnapshotId>)
      modifies this
      ensures World() == AfterRetain(AfterWork(old(World()), Purge))
      ensures CoreInv(old(World())) ==> CoreInv(World())
      ensures Inv(old(World())) && Spares(old(leases), Outdated(old(leases), old(now), retention.jobs, Purge)) ==>
                Inv(World())
      ensures AfterWork(World(), Purge) == World() && AfterRetain(World()) == World().(epoch := epoch + 1)
      ensures forall s :: s in pruned <==> s in old(snapshots) && Prunable(old(World()), s)
      ensures snapshots == old(snapshots) - pruned
      ensures RowsInv(old(World())) ==> forall s :: s in pruned <==> s in old(snapshots) && Due(old(World()), s)
      ensures LiesPruneNothing(old(World())) <==>
                forall s, key :: s in pruned && Refers(old(snapshots)[s], key) ==> NotLast(World(), key)
      ensures MarksRenewed(old(World()), World()) && (RowsInv(old(World())) ==> AllMarked(World()))
      ensures OnlyUnclosedSince(old(leases), leases, old(now) - retention.jobs.jobs)
    {
      hide Prunable, CoreInv, LocalInv, Refers, NotLast, LiesPruneNothing, AfterRetain, Spares, AfterJob, Due,
        OnlyUnclosedSince, OnlyUpdatedSince, RowsInv, MarksRenewed, AllMarked;
      ghost var w := World();
      PurgedJobsDoNotMatter(w);
      PurgesTakeTheOld(leases, now, retention.jobs);
      RetentionLeaves(w);
      NoOldJobsLeft(w);
      assert After(w, Table(Work(Purge))) == AfterWork(w, Purge);
      if CoreInv(w) { StepKeepsCore(w, Table(Work(Purge))); }
      if Inv(w) && Spares(w.leases, Outdated(w.leases, w.now, w.retention.jobs, Purge)) {
        StepKeepsInv(w, Table(Work(Purge)));
      }
      DeleteOldJobs();
      pruned := RetainSnapshots();
    }

    /** DELETE FROM jobs, whatever state a row is in. */
    method DeleteOldJobs()
      modifies this`leases
      ensures World() == AfterWork(old(World()), Purge)
    {
      var past := set id | id in leases.jobs && Old(leases.jobs[id].completedAt, now, retention.jobs.jobs);
      assert past == Outdated(leases, now, retention.jobs, Purge);
      leases := leases.(jobs := leases.jobs - past);
    }

    /**
     purgeTerminalJobs: one batch after the other, until one comes out short. In the end every closed job that is old
     enough is gone, and how many there were is returned.
     */
    method PurgeTerminalJobs(batchSize: int) returns (r: Result<nat, PurgeError>)
      modifies this`leases
      ensures r.Err? <==> batchSize <= 0
      ensures r.Err? ==> World() == old(World())
      ensures var purge := PurgeClosed(old(leases).jobs.Keys);
              var gone := Outdated(old(leases), now, retention.jobs, purge);
              r.Ok? ==> World() == AfterWork(old(World()), purge) && r.value == |gone|
                        && (CoreInv(old(World())) ==> CoreInv(World()))
                        && (Inv(old(World())) && Spares(old(leases), gone) ==> Inv(World()))
      ensures r.Ok? ==> OnlyUpdatedSince(old(leases), leases, now - retention.jobs.closed)
      ensures r.Ok? ==> r.value == |old(leases).jobs| - |leases.jobs|
    {
      hide CoreInv, LocalInv, Spares, Outdated, Without, AfterJob, OnlyUpdatedSince, OnlyUnclosedSince;
      PurgesTakeTheOld(leases, now, retention.jobs);
      if batchSize <= 0 {
        return Err(BadBatchSize);
      }
      ghost var w, purge := World(), PurgeClosed(leases.jobs.Keys);
      var total := DeleteInBatches(batchSize);
      assert After(w, Table(Work(purge))) == World();
      if CoreInv(w) { StepKeepsCore(w, Table(Work(purge))); }
      if Inv(w) && Spares(w.leases, Outdated(w.leases, now, retention.jobs, purge)) {
        StepKeepsInv(w, Table(Work(purge)));
      }
      return Ok(total);
    }

    method DeleteInBatches(batchSize: nat) returns (total: nat)
      requires batchSize > 0
      modifies this`leases
      ensures var all := Outdated(old(leases), now, retention.jobs, PurgeClosed(old(leases).jobs.Keys));
              leases == Without(old(leases), all) && total == |all| == |old(leases).jobs| - |leases.jobs|
      ensures leases == AfterJob(old(leases), now, retention.jobs, PurgeClosed(old(leases).jobs.Keys))
    {
      ghost var before, all := leases, Outdated(leases, now, retention.jobs, PurgeClosed(leases.jobs.Keys));
      var left := set id | id in leases.jobs && leases.jobs[id].stage == Closed
                           && Old(Some(leases.jobs[id].updatedAt), now, retention.jobs.closed);
      assert left == all;
      hide Outdated, Without;
      total := 0;
      NothingGone(before, all);
      while true
        invariant left <= all && leases == Without(before, all - left) && total + |left| == |all|
        decreases |left|
      {
        var batch := SomeOf(left, batchSize);
        BatchGoes(before, all, left, batch);
        leases := leases.(jobs := leases.jobs - batch);
        left, total := left - batch, total + |batch|;
        if |batch| < batchSize {
          assert all - left == all;
          WithoutCounts(before, all);
          return;
        }
      }
    }

    method RetainSnapshots() returns (pruned: set<SnapshotId>)
      modifies this
      ensures World() == AfterRetain(old(World()))
      ensures CoreInv(old(World())) ==> KeepsInv(old(World()), World())
      ensures AfterRetain(World()) == World().(epoch := epoch + 1)
      ensures forall s :: s in pruned <==> s in old(snapshots) && Prunable(old(World()), s)
      ensures snapshots == old(snapshots) - pruned
      ensures LiesPruneNothing(old(World())) <==>
                forall s, key :: s in pruned && Refers(old(snapshots)[s], key) ==> NotLast(World(), key)
    {
      hide Prunable, AfterPrune, AfterMark, CoreInv, LocalInv, KeepsInv, Refers, NotLast, LiesPruneNothing;
      ghost var w := World();
      RetentionMeans(w);
      if CoreInv(w) { RetentionKeepsInv(w); }
      pruned := PruneSnapshots();
      MarkExpiredObjects();
      assert World() == AfterRetain(w);
      hide AfterRetain;
    }

    /** DELETE FROM snapshots: object rows cascade, marks lose their owner. */
    method PruneSnapshots() returns (pruned: set<SnapshotId>)
      modifies this`snapshots, this`marks
      ensures World() == AfterPrune(old(World()))
      ensures forall s :: s in pruned <==> s in old(snapshots) && Prunable(old(World()), s)
    {
      hide Prunable;
      pruned := set s | s in snapshots && Prunable(World(), s);
      var kept := AfterPrune(World());
      snapshots, marks := kept.snapshots, kept.marks;
    }

    /** INSERT INTO gc_marks ... ON CONFLICT DO UPDATE. */
    method MarkExpiredObjects()
      modifies this`marks, this`epoch
      ensures World() == AfterMark(old(World()))
    {
      hide ProposedMarks, Written, Owner;
      var marked := AfterMark(World());
      marks, epoch := marked.marks, marked.epoch;
    }

    /** Check for live references, look, check again, delete, check once more; the key's lock is held throughout. */
    method DeleteObjectWhileLocked(c: CollectorId) returns (r: Result<bool, ()>)
      requires AtPhase(World(), c, Locked)
      modifies this`collectors, this`store
      ensures World() == Deleted(old(World()), c) && c in collectors
      ensures r.Err? <==> LiveRef(old(World()), old(Target(World(), c)))
      ensures r.Ok? ==> (r.value <==> old(Target(World(), c) in store))
      ensures store == if r.Ok? then old(store) - {old(Target(World(), c))} else old(store)
    {
      hide LiveRef, SetPhase, Removes;
      ghost var w := World();
      var key := Target(World(), c);
      RemovalChains(w, c);
      var live := MoveUnlessLive(c, key, Cleared);
      if live {
        return Err(());
      }
      if key !in store {
        MoveCollector(c, Gone);
        return Ok(false);
      }
      SameLive(w, World(), key);
      live := MoveUnlessLive(c, key, Confirmed);
      if !live {
        store := store - {key};
        MoveCollector(c, Erased);
        SameLive(w, World(), key);
        live := MoveUnlessLive(c, key, Gone);
      }
      return if live then Err(()) else Ok(true);
    }

    /** ensure_no_live_refs: on to the next phase, or release the key and give up. */
    method MoveUnlessLive(c: CollectorId, key: ObjectKey, phase: Phase) returns (live: bool)
      requires c in collectors
      modifies this`collectors
      ensures live <==> LiveRef(old(World()), key)
      ensures World() == SetPhase(old(World()), c, if live then Idle else phase) && c in collectors
    {
      hide LiveRef;
      live := LiveRef(World(), key);
      MoveCollector(c, if live then Idle else phase);
    }

    method MoveCollector(c: CollectorId, phase: Phase)
      requires c in collectors
      modifies this`collectors
      ensures World() == SetPhase(old(World()), c, phase) && c in collectors
    {
      collectors := collectors[c := collectors[c].(phase := phase)];
    }

    /** The eligible marks, at most `limit` of them. */
    method ListGcEligible(limit: nat) returns (listed: seq<MarkRef>)
      ensures |listed| <= limit
      ensures forall ref :: ref in listed ==> Eligible(World(), ref)
      ensures |listed| < limit ==> forall ref :: Eligible(World(), ref) ==> ref in listed
    {
      hide LiveRef;
      var pool := set m | m in marks && Eligible(World(), MarkRef(m, marks[m].epoch)) :: MarkRef(m, marks[m].epoch);
      ghost var all := pool;
      listed := [];
      while pool != {} && |listed| < limit
        invariant |listed| <= limit
        invariant all == pool + set ref | ref in listed
        invariant forall ref :: ref in pool || ref in listed ==> Eligible(World(), ref)
      {
        var ref :| ref in pool;
        listed := listed + [ref];
        pool := pool - {ref};
      }
      forall ref | Eligible(World(), ref)
        ensures ref in all
      {
        assert ref == MarkRef(ref.mark, marks[ref.mark].epoch);
      }
    }

    /**
     The loop of a gc_collect job over marks it listed earlier, however stale that list has become: a key that no
     protected row names leaves the store and its mark, if it is still the listed row, is collected; a key that
     is in use again stays and its mark is put off.
     */
    method GcCollect(c: CollectorId, listed: seq<MarkRef>) returns (collected: nat, deferred: nat)
      requires CoreInv(World()) && c in collectors && collectors[c].worklist == set ref | ref in listed
      requires forall d :: d in collectors ==> collectors[d].phase == Idle
      modifies this`marks, this`collectors, this`store
      ensures KeepsInv(old(World()), World())
      ensures store == old(store) - KeysOf(old(World()), listed)
      ensures marks == SettledMarks(old(World()), listed)
      ensures FreeKeysGone(old(World()), World(), listed) && ListedMarksSettled(old(World()), World(), listed)
      ensures collected == |NewlyCollected(old(World()), marks)| && deferred == |InUseAt(old(World()), listed)|
    {
      hide CoreInv, LocalInv, LiveRef, Deleted, AfterMarkCollected, PutOff, CanLock, FreeKeysGone, ListedMarksSettled,
        NewlyCollected, InUseAt, KeysOf, SettledMarks, KeepsInv;
      ghost var w := World();
      Starts(w, c, listed);
      NoneYet(w);
      collected, deferred := 0, 0;
      for i := 0 to |listed|
        invariant collected == |NewlyCollected(w, marks)| && deferred == |InUseAt(w, listed[..i])|
        invariant Progress(w, World(), c, listed, i)
      {
        LocksNext(w, World(), c, listed, i);
        FindsOneMore(w, listed, i);
        KeepsCount(w, World(), c, listed, i);
        if LiveRef(w, KeyOf(listed[i].mark)) { Defers(w, World(), c, listed, i); }
          else { Collects(w, World(), c, listed, i); }
        Lock(c, listed[i]);
        var r := DeleteObjectWhileLocked(c);
        if r.Ok? {
          var updated := MarkGcCollected(c);
          collected := collected + updated;
        } else {
          DeferGcMark(listed[i]);
          deferred := deferred + 1;
        }
      }
      assert listed[..|listed|] == listed;
      SettlesExactly(w, World(), listed);
    }

    method Lock(c: CollectorId, ref: MarkRef)
      requires c in collectors
      modifies this`collectors
      ensures World() == AfterLock(old(World()), c, ref) && AtPhase(World(), c, Locked)
    {
      collectors := collectors[c := collectors[c].(phase := Locked, target := ref)];
    }

    /** markGcCollected: how many rows the UPDATE changed. */
    method MarkGcCollected(c: CollectorId) returns (updated: nat)
      requires c in collectors
      modifies this`collectors, this`marks
      ensures World() == AfterMarkCollected(old(World()), c)
      ensures updated == if Uncollected(old(marks), old(collectors)[c].target) then 1 else 0
    {
      var ref := collectors[c].target;
      updated := 0;
      if Uncollected(marks, ref) {
        marks := marks[ref.mark := marks[ref.mark].(collected := true)];
        updated := 1;
      }
      collectors := collectors[c := collectors[c].(phase := Idle)];
    }

    method DeferGcMark(ref: MarkRef)
      modifies this`marks
      ensures World() == PutOff(old(World()), ref)
    {
      if Uncollected(marks, ref) {
        marks := marks[ref.mark := marks[ref.mark].(eligibleAt := now + retention.content)];
      }
    }

    /** ready_snapshot_matches_scan: the latest READY row when it lists exactly this folder and no edit is pending. */
    method ReadyMatch(p: ProblemId, folder: FileMap) returns (r: Option<SnapshotId>)
      ensures r.Some? ==> r.value in snapshots && MatchesReady(World(), p, r.value, folder)
      ensures r.None? ==> forall s :: !MatchesReady(World(), p, s, folder)
    {
      if exists s :: s in snapshots && MatchesReady(World(), p, s, folder) {
        var s :| s in snapshots && MatchesReady(World(), p, s, folder);
        return Some(s);
      }
      return None;
    }

    /**
     Which READY row covers the folder that is to go, in the order of the source's checks; None when
     nothing is to go.
    */
    method DecideEviction(p: ProblemId, token: int, dryRun: bool, force: bool, idleBefore: Option<Time>)
      returns (r: Result<Option<SnapshotId>, EvictError>)
      requires Inv(World())
      requires Works(leases, p, token, EvictOp)
      ensures r.Ok? && r.value.Some? ==> CanEvict(World(), p, token, r.value.value, idleBefore) && force && !dryRun
      ensures r.Ok? && r.value.None? ==> dryRun || p !in folders
      ensures p in folders ==>
                (r.Ok? <==> Covered(World(), p, token)
                            && (dryRun || (force && !UsedSince(World(), p, idleBefore))))
      ensures r == Err(RecentlyAccessed) <==>
                Covered(World(), p, token) && force && !dryRun && UsedSince(World(), p, idleBefore)
      ensures !Fresh(World(), p, token) ==> r == Err(StaleEviction(LatestToken(World(), p)))
      ensures r == Err(DryRunRequired) <==> Fresh(World(), p, token) && !force && !dryRun
    {
      hide Inv, MatchesReady, IsReady, Passes, Works, Covered;
      if Covered(World(), p, token) { CoveredIsReady(World(), p, token); }
      var refusal := BeforeLooking(p, token, dryRun, force);
      if refusal.Some? {
        return Err(refusal.value);
      }
      if p !in folders {
        return Ok(None);
      }
      var m := CoveringRow(p, token);
      if m.None? {
        return Err(EvictionDirty);
      }
      if dryRun {
        return Ok(None);
      }
      if idleBefore.Some? && usage[p].lastAccess.Some? && usage[p].lastAccess.value > idleBefore.value {
        return Err(RecentlyAccessed);
      }
      return Ok(m);
    }

    /** The checks of an eviction that do not need the folder. */
    method BeforeLooking(p: ProblemId, token: int, dryRun: bool, force: bool) returns (refusal: Option<EvictError>)
      ensures refusal.None? <==> Fresh(World(), p, token) && (force || dryRun) && ShownReady(World(), p)
      ensures !Fresh(World(), p, token) ==> refusal == Some(StaleEviction(LatestToken(World(), p)))
      ensures refusal == Some(DryRunRequired) <==> Fresh(World(), p, token) && !force && !dryRun
      ensures refusal != Some(RecentlyAccessed)
    {
      hide Passes;
      if !Fresh(World(), p, token) {
        return Some(StaleEviction(LatestToken(World(), p)));
      }
      if !force && !dryRun {
        return Some(DryRunRequired);
      }
      return if ShownReady(World(), p) then None else Some(R2NotReady);
    }

    /** The READY row that equals the folder, if it is of the usage row's generation. */
    method CoveringRow(p: ProblemId, token: int) returns (r: Option<SnapshotId>)
      requires Inv(World()) && Fresh(World(), p, token)
      requires p in folders && p in usage && usage[p].r2Ready && usage[p].generation.Some?
      ensures r.Some? <==> Covered(World(), p, token)
      ensures r.Some? ==> MatchesReady(World(), p, r.value, folders[p])
                          && usage[p].generation == Some(snapshots[r.value].generation)
    {
      hide Inv, Covered, Passes;
      var m := ReadyMatch(p, folders[p]);
      if m.None? {
        UncoveredWithoutMatch(World(), p, token);
        return None;
      }
      CoveredByMatch(World(), p, token, m.value);
      return if snapshots[m.value].generation == usage[p].generation.value then m else None;
    }

    /**
     Evict one folder, which goes exactly if it is covered and nobody has used it since the cutoff. What goes is
     recoverable, and everything else stays.
     */
    method EvictLocal(p: ProblemId, token: int, dryRun: bool, force: bool, idleBefore: Option<Time>)
      returns (r: Result<nat, EvictError>)
      requires Inv(World())
      requires Works(leases, p, token, EvictOp)
      modifies this`folders, this`evicted
      ensures Inv(World())
      ensures force && !dryRun && p in old(folders) ==> (r.Ok? <==> Evictable(old(World()), p, token, idleBefore))
      ensures p in old(folders) ==>
                (r.Ok? <==> Covered(old(World()), p, token)
                            && (dryRun || (force && !UsedSince(old(World()), p, idleBefore))))
      ensures r == Err(RecentlyAccessed) <==>
                Covered(old(World()), p, token) && force && !dryRun && UsedSince(old(World()), p, idleBefore)
      ensures r.Ok? ==> r.value == if p in old(folders) then |old(folders)[p]| else 0
      ensures if r.Ok? && !dryRun && p in old(folders)
              then folders == old(folders) - {p} && evicted == old(evicted)[p := old(folders)[p]]
                   && Recoverable(World(), p)
              else World() == old(World())
    {
      hide Inv, Evictable, MatchesReady, Recoverable, Covered, UsedSince;
      EvictableExactly(World(), p, token, idleBefore);
      var decision := DecideEviction(p, token, dryRun, force, idleBefore);
      if decision.Err? {
        return Err(decision.error);
      }
      r := Ok(if p in folders then |folders[p]| else 0);
      if decision.value.Some? {
        EvictionIsSafe(World(), p, token, decision.value.value, idleBefore);
        evicted := evicted[p := folders[p]];
        folders := folders - {p};
      }
    }

    method ResolveReadyGeneration(p: ProblemId, requested: int) returns (r: Option<int>)
      ensures requested > 0 ==> r == Some(requested)
      ensures r.Some? ==> Resolves(World(), p, requested, r.value)
      ensures requested <= 0 && r.None? ==> forall s :: !LatestReady(World(), p, s)
    {
      if requested > 0 {
        return Some(requested);
      }
      if exists s :: s in snapshots && LatestReady(World(), p, s) {
        var latest :| latest in snapshots && LatestReady(World(), p, latest);
        return Some(snapshots[latest].generation);
      }
      return None;
    }

    /** The READY row a restore is to publish, with its manifest and objects downloaded and checked. */
    method DecideRestore(p: ProblemId, requested: int, token: int) returns (r: Result<SnapshotId, RestoreError>)
      requires Inv(World())
      ensures r.Ok? <==> Restorable(World(), p, requested, token)
      ensures r.Ok? ==> r.value in snapshots && Takes(World(), p, requested, r.value) && Fresh(World(), p, token)
    {
      hide Inv, OtherFolder, NeverReady, CanDownload, LatestReady, IsReady, Restorable, Resolves, Takes, MayReplace;
      if !Fresh(World(), p, token) {
        StaleIsBlocked(World(), p, requested, token);
        return Err(StaleRestore(LatestToken(World(), p)));
      }
      var resolved := ResolveReadyGeneration(p, requested);
      if resolved.None? {
        NoneResolved(World(), p, requested, token);
        return Err(NoReadyGeneration);
      }
      var generation := resolved.value;
      if !CanDownload(World(), p, generation) {
        Blocked(World(), p, requested, token, generation);
        return Err(if ManifestAt(p, generation) in store && !Materializes(store[ManifestAt(p, generation)])
                   then ManifestRefused else ManifestOrObjectMissing);
      }
      DownloadIsSound(World(), p, generation);
      r := LockReadyRow(p, requested, generation, token);
    }

    /** The checks of the publishing transaction. */
    method LockReadyRow(p: ProblemId, requested: int, generation: int, token: int)
      returns (r: Result<SnapshotId, RestoreError>)
      requires Inv(World()) && Fresh(World(), p, token) && Resolves(World(), p, requested, generation)
      requires Sound(World(), p, generation)
      ensures r.Ok? <==> Restorable(World(), p, requested, token)
      ensures r.Ok? ==> r.value in snapshots && Takes(World(), p, requested, r.value) && Fresh(World(), p, token)
    {
      hide Inv, Fresh, OtherFolder, NeverReady, IsReady, Restorable, Resolves, Takes, MayReplace;
      var ready := ReadyRowOf(p, generation);
      if ready.None? {
        Blocked(World(), p, requested, token, generation);
        return Err(SnapshotNotReady);
      }
      var fits := MatchesGeneration(p, ready.value, generation);
      if !fits {
        Blocked(World(), p, requested, token, generation);
        return Err(FileChurn);
      }
      TakesIt(World(), p, requested, token, generation, ready.value);
      return Ok(ready.value);
    }

    /** An existing folder must be clean and match the READY row that is to take its place. */
    method MatchesGeneration(p: ProblemId, s: SnapshotId, generation: int) returns (ok: bool)
      requires Inv(World()) && s in snapshots && IsReady(World(), p, s) && snapshots[s].generation == generation
      ensures ok ==> MayReplace(World(), p, s)
      ensures !ok ==> OtherFolder(World(), p, generation)
    {
      hide Inv, LatestReady;
      if p !in folders {
        return true;
      }
      var m := ReadyMatch(p, folders[p]);
      if m.None? {
        return false;
      }
      MatchIsReady(World(), p, m.value, folders[p]);
      ReadyIsLatest(World(), p, s);
      return snapshots[m.value].generation == generation;
    }

    method ReadyRowOf(p: ProblemId, generation: int) returns (r: Option<SnapshotId>)
      ensures r.Some? ==>
                r.value in snapshots && IsReady(World(), p, r.value) && snapshots[r.value].generation == generation
      ensures r.None? ==> NeverReady(World(), p, generation)
    {
      if exists s :: s in snapshots && IsReady(World(), p, s) && snapshots[s].generation == generation {
        var s :| s in snapshots && IsReady(World(), p, s) && snapshots[s].generation == generation;
        return Some(s);
      }
      return None;
    }

    /** The staged files of READY row `s` take the folder's place. */
    method PublishRow(p: ProblemId, s: SnapshotId)
      requires s in snapshots && CanDownload(World(), p, snapshots[s].generation)
      requires Manifest(World(), p, snapshots[s].generation) == snapshots[s].files
      modifies this`folders, this`evicted, this`usage
      ensures World() == Restored(old(World()), p, s)
    {
      hide CanDownload;
      folders := folders[p := Manifest(World(), p, snapshots[s].generation)];
      evicted := evicted - {p};
      if p in usage {
        usage := usage[p := usage[p].(lastAccess := Some(now))];
      }
    }

    /** Restore the requested generation, or the READY one when none is requested. */
    method RestoreSnapshot(p: ProblemId, requested: int, token: int) returns (r: Result<int, RestoreError>)
      requires Inv(World())
      requires Works(leases, p, token, RestoreOp)
      modifies this`folders, this`evicted, this`usage
      ensures Inv(World())
      ensures r.Err? ==> World() == old(World())
      ensures r.Ok? ==> exists s :: IsReady(old(World()), p, s) && r.value == old(snapshots)[s].generation
                                    && World() == Restored(old(World()), p, s)
                                    && PutBack(old(World()), World(), p, old(snapshots)[s].files)
      ensures r.Ok? && requested > 0 ==> r.value == requested
      ensures r.Ok? && p in old(folders) ==> folders == old(folders)
      ensures r.Ok? && p in old(evicted) ==> p in folders && folders[p] == old(evicted)[p]
      ensures r.Ok? <==> Restorable(old(World()), p, requested, token)
      ensures r.Ok? <==> Obtainable(old(World()), p, requested, token)
    {
      RestorableWhenObtainable(World(), p, requested, token);
      hide CoreInv, LocalInv, MayReplace, CanDownload, Restorable, Obtainable, PutBack;
      var decision := DecideRestore(p, requested, token);
      if decision.Err? {
        return Err(decision.error);
      }
      var s := decision.value;
      RestoreKeepsInv(World(), p, token, s);
      ReadyDownloads(World(), p, s);
      if p in folders { ReplacesTheSame(World(), p, s); }
      RestoredFrom(World(), p, s);
      if p in evicted {
        ghost var away := EvictedHasReady(World(), p);
        ReadyIsLatest(World(), p, away);
      }
      PublishRow(p, s);
      return Ok(snapshots[s].generation);
    }
  }
}
