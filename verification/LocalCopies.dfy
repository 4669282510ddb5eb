/**
 Local folders: an eviction removes only what the READY snapshot still holds, nothing replaces
 that snapshot while the folder is away, and a restore publishes exactly its files.
 */
module LocalCopies {
  import opened Common
  import opened JobLeases
  import opened Storage
  import opened SnapshotRows
  import opened GcSafety
  import opened ReadyCas

  predicate EarlyStage(stage: Stage) {
    stage == Claimed || stage == RowsCleared || stage == HashingFiles
  }

  predicate Issued(u: Uploader, l: Leases) {
    Works(l, u.problem, u.token, SnapshotOp)
  }

  /** The fence tells who has been overtaken, and every upload in progress has a worker's token. */
  ghost predicate TokensIssued(uploaders: map<SnapshotId, Uploader>, l: Leases) {
    LeasesOk(l) && FenceHolds(l) && forall s :: s in uploaders ==> Issued(uploaders[s], l)
  }

  /** While a folder stays evicted, a READY snapshot lists exactly the files that were removed. */
  ghost predicate EvictedIntact(
    evicted: map<ProblemId, FileMap>, folders: map<ProblemId, FileMap>, rows: map<SnapshotId, Snapshot>)
  {
    forall p :: p in evicted ==> p !in folders && Backed(rows, p, evicted[p])
  }

  ghost predicate Backed(rows: map<SnapshotId, Snapshot>, p: ProblemId, files: FileMap) {
    exists s :: s in rows && rows[s].problem == p && rows[s].state == Ready && rows[s].files == files
  }

  /** An upload that the fence would let through started after the eviction and has nothing to hash. */
  ghost predicate EvictedFenced(uploaders: map<SnapshotId, Uploader>, evicted: map<ProblemId, FileMap>, l: Leases) {
    forall s :: s in uploaders ==> Fenced(uploaders[s], evicted, l)
  }

  predicate Fenced(u: Uploader, evicted: map<ProblemId, FileMap>, l: Leases) {
    u.problem in evicted && Passes(l, u.problem, u.token) ==> EarlyStage(u.stage)
  }

  ghost predicate FenceOk(uploaders: map<SnapshotId, Uploader>, evicted: map<ProblemId, FileMap>, l: Leases) {
    TokensIssued(uploaders, l) && EvictedFenced(uploaders, evicted, l)
  }

  /**
   A restore that the fence would still let publish holds the files of its generation, should that be READY:
   its token is the newest one and no upload has it, so nothing became READY since the restore began.
  */
  ghost predicate RestoresFit(restores: map<RestoreId, Restore>, rows: map<SnapshotId, Snapshot>, l: Leases) {
    forall r :: r in restores ==> RestoreFits(restores[r], rows, l)
  }

  ghost predicate RestoreFits(st: Restore, rows: map<SnapshotId, Snapshot>, l: Leases) {
    && Works(l, st.problem, st.token, RestoreOp)
    && (st.Staged? && Passes(l, st.problem, st.token) ==> ListsAll(rows, st.problem, st.generation, st.files))
  }

  ghost predicate ListsAll(rows: map<SnapshotId, Snapshot>, p: ProblemId, generation: int, files: FileMap) {
    forall s :: (s in rows && rows[s].state == Ready && rows[s].problem == p && rows[s].generation == generation) ==>
                  rows[s].files == files
  }

  ghost predicate LocalInv(w: World) {
    && FenceOk(w.uploaders, w.evicted, w.leases)
    && EvictedIntact(w.evicted, w.folders, w.snapshots)
    && RestoresFit(w.restores, w.snapshots, w.leases)
  }

  // ---------------------------------------------------------------- frames

  /** While READY rows stay as they are, so does what they back, and staged restores still fit. */
  lemma FrameKeepsCopies(w: World, after: map<SnapshotId, Snapshot>)
    requires LocalInv(w) && SettledFrame(w.snapshots, after)
    ensures EvictedIntact(w.evicted, w.folders, after)
    ensures RestoresFit(w.restores, after, w.leases)
  {
    forall p | p in w.evicted
      ensures Backed(after, p, w.evicted[p])
    {
      var s :| s in w.snapshots && w.snapshots[s].problem == p && w.snapshots[s].state == Ready
               && w.snapshots[s].files == w.evicted[p];
      assert s in after && SameSettled(w.snapshots[s], after[s]);
    }
    forall r | r in w.restores
      ensures RestoreFits(w.restores[r], after, w.leases)
    {
      assert RestoreFits(w.restores[r], w.snapshots, w.leases);
    }
  }

  // ---------------------------------------------------------------- uploads

  lemma NewUploadKeepsFence(w: World, s: SnapshotId, u: Uploader)
    requires FenceOk(w.uploaders, w.evicted, w.leases) && Issued(u, w.leases) && EarlyStage(u.stage)
    ensures FenceOk(w.uploaders[s := u], w.evicted, w.leases)
  {
  }

  /** An upload leaves the early stages only with its folder in place. */
  lemma StageKeepsFence(w: World, s: SnapshotId, stage: Stage)
    requires FenceOk(w.uploaders, w.evicted, w.leases) && s in w.uploaders
    requires EarlyStage(stage) || !EarlyStage(w.uploaders[s].stage) || w.uploaders[s].problem !in w.evicted
    ensures FenceOk(w.uploaders[s := w.uploaders[s].(stage := stage)], w.evicted, w.leases)
  {
  }

  lemma EndKeepsFence(w: World, s: SnapshotId)
    requires FenceOk(w.uploaders, w.evicted, w.leases)
    ensures FenceOk(w.uploaders - {s}, w.evicted, w.leases)
  {
  }

  lemma ClaimKeepsLocal(w: World, s: SnapshotId, u: Uploader)
    requires LocalInv(w) && Issued(u, w.leases) && u.stage == Claimed
    requires s in w.snapshots ==> !Settled(w.snapshots[s])
    ensures LocalInv(AfterClaim(w, s, u))
  {
    hide FenceOk, EvictedIntact, RestoresFit, SettledFrame;
    NewUploadKeepsFence(w, s, u);
    ClaimFrame(w, s, u);
    FrameKeepsCopies(w, AfterClaim(w, s, u).snapshots);
  }

  lemma ClearRowsKeepsLocal(w: World, s: SnapshotId)
    requires RowsInv(w) && LocalInv(w) && s in w.uploaders
    ensures LocalInv(AfterClearRows(w, s))
  {
    hide FenceOk, EvictedIntact, RestoresFit, SettledFrame, RowsOk;
    StageKeepsFence(w, s, RowsCleared);
    StageFrames(w, s);
    FrameKeepsCopies(w, AfterClearRows(w, s).snapshots);
  }

  lemma StartHashingKeepsLocal(w: World, s: SnapshotId)
    requires RowsInv(w) && LocalInv(w) && s in w.uploaders
    ensures LocalInv(AfterStartHashing(w, s))
  {
    hide FenceOk, EvictedIntact, RestoresFit, SettledFrame, RowsOk;
    StageKeepsFence(w, s, HashingFiles);
    StageFrames(w, s);
    FrameKeepsCopies(w, AfterStartHashing(w, s).snapshots);
  }

  /** The folder is there when an upload prepares, so its problem is not evicted. */
  lemma PrepareKeepsLocal(w: World, s: SnapshotId)
    requires LocalInv(w) && CanPrepare(w, s)
    ensures LocalInv(AfterPrepare(w, s))
  {
    hide FenceOk, RestoresFit, SettledFrame, UploadKey;
    StageKeepsFence(w, s, UploadingFiles({}, {}));
    PrepareFrame(w, s);
    FrameKeepsCopies(w, AfterPrepare(w, s).snapshots);
  }

  lemma PlaceKeepsLocal(w: World, s: SnapshotId, path: RelPath)
    requires LocalInv(w) && CanPlace(w, s, path)
    ensures LocalInv(AfterPlace(w, s, path))
  {
    hide FenceOk, EvictedIntact, RestoresFit;
    StageKeepsFence(w, s, AfterPlace(w, s, path).uploaders[s].stage);
  }

  lemma RecordKeepsLocal(w: World, s: SnapshotId, path: RelPath)
    requires RowsInv(w) && LocalInv(w) && CanRecord(w, s, path)
    ensures LocalInv(AfterRecord(w, s, path))
  {
    hide FenceOk, EvictedIntact, RestoresFit, SettledFrame, RowsOk;
    StageKeepsFence(w, s, AfterRecord(w, s, path).uploaders[s].stage);
    RecordFrame(w, s, path);
    FrameKeepsCopies(w, AfterRecord(w, s, path).snapshots);
  }

  lemma StartVerifyingKeepsLocal(w: World, s: SnapshotId)
    requires RowsInv(w) && LocalInv(w) && CanStartVerifying(w, s)
    ensures LocalInv(AfterStartVerifying(w, s))
  {
    hide FenceOk, EvictedIntact, RestoresFit, SettledFrame, RowsOk;
    StageKeepsFence(w, s, VerifyingFiles);
    StartVerifyingFrame(w, s);
    FrameKeepsCopies(w, AfterStartVerifying(w, s).snapshots);
  }

  lemma PutManifestKeepsLocal(w: World, s: SnapshotId)
    requires LocalInv(w) && AtStage(w, s, VerifyingFiles)
    ensures LocalInv(AfterPutManifest(w, s))
  {
    hide FenceOk, EvictedIntact, RestoresFit;
    StageKeepsFence(w, s, ManifestStored);
  }

  lemma FailKeepsLocal(w: World, s: SnapshotId)
    requires RowsInv(w) && LocalInv(w) && s in w.uploaders
    ensures LocalInv(AfterFail(w, s))
  {
    hide FenceOk, EvictedIntact, RestoresFit, SettledFrame, RowsOk;
    EndKeepsFence(w, s);
    StageFrames(w, s);
    FrameKeepsCopies(w, AfterFail(w, s).snapshots);
  }

  lemma CrashKeepsLocal(w: World, s: SnapshotId)
    requires LocalInv(w)
    ensures LocalInv(w.(uploaders := w.uploaders - {s}))
  {
    hide FenceOk, EvictedIntact, RestoresFit;
    EndKeepsFence(w, s);
  }

  /** Nothing becomes READY for a problem whose folder stays evicted. */
  lemma NoFinalizeWhileEvicted(w: World, s: SnapshotId)
    requires LocalInv(w) && CanFinalize(w, s)
    ensures w.uploaders[s].problem !in w.evicted
  {
    hide EvictedIntact, RestoresFit;
    assert Issued(w.uploaders[s], w.leases) && Fenced(w.uploaders[s], w.evicted, w.leases);
  }

  lemma FinalizeKeepsIntact(w: World, s: SnapshotId)
    requires LocalInv(w) && CanFinalize(w, s)
    ensures EvictedIntact(w.evicted, w.folders, FinalizedRows(w, s))
  {
    NoFinalizeWhileEvicted(w, s);
    var rows := FinalizedRows(w, s);
    forall p | p in w.evicted
      ensures Backed(rows, p, w.evicted[p])
    {
      var t :| t in w.snapshots && w.snapshots[t].problem == p && w.snapshots[t].state == Ready
               && w.snapshots[t].files == w.evicted[p];
      assert rows[t] == w.snapshots[t];
    }
  }

  /** A worker that passes the fence has the newest token, so two that pass are on one operation. */
  lemma OneOperationPasses(l: Leases, p: ProblemId, token: int, op: Operation, other: int, otherOp: Operation)
    requires LeasesOk(l) && FenceHolds(l) && Works(l, p, token, op) && Works(l, p, other, otherOp)
    requires Passes(l, p, token) && Passes(l, p, other)
    ensures op == otherOp
  {
    hide Passes, LeasesOk;
    PassingIsNewest(l, p, token);
    PassingIsNewest(l, p, other);
  }

  /** Of an upload and a restore of one problem the fence stops at least one. */
  lemma OneIsFenced(w: World, s: SnapshotId, r: RestoreId)
    requires LocalInv(w) && CanFinalize(w, s) && r in w.restores && w.restores[r].problem == w.uploaders[s].problem
    ensures !Fresh(w, w.restores[r].problem, w.restores[r].token)
  {
    hide EvictedIntact, EvictedFenced, LeasesOk, FenceHolds, Passes;
    var u, st := w.uploaders[s], w.restores[r];
    assert Issued(u, w.leases) && RestoreFits(st, w.snapshots, w.leases);
    if Passes(w.leases, st.problem, st.token) {
      OneOperationPasses(w.leases, u.problem, u.token, SnapshotOp, st.token, RestoreOp);
    }
  }

  lemma FinalizeKeepsFit(w: World, s: SnapshotId, r: RestoreId)
    requires LocalInv(w) && CanFinalize(w, s) && r in w.restores
    ensures RestoreFits(w.restores[r], FinalizedRows(w, s), w.leases)
  {
    hide FenceOk, EvictedIntact;
    assert RestoreFits(w.restores[r], w.snapshots, w.leases);
    if w.restores[r].problem == w.uploaders[s].problem {
      OneIsFenced(w, s, r);
    }
  }

  lemma FinalizeKeepsLocal(w: World, s: SnapshotId)
    requires LocalInv(w) && CanFinalize(w, s)
    ensures LocalInv(AfterFinalize(w, s))
  {
    hide FenceOk, EvictedIntact, RestoreFits, FinalizedRows, ClearedProblems;
    EndKeepsFence(w, s);
    FinalizeKeepsIntact(w, s);
    forall r | r in w.restores
      ensures RestoreFits(w.restores[r], FinalizedRows(w, s), w.leases)
    {
      FinalizeKeepsFit(w, s, r);
    }
  }

  lemma UploadKeepsLocal(w: World, step: UploadStep)
    requires RowsInv(w) && LocalInv(w)
    ensures LocalInv(AfterUpload(w, step))
  {
    hide RowsOk, LocalInv, AfterClaim, AfterPrepare, AfterFinalize, AfterRecord, AfterClearRows, AfterStartHashing,
      AfterStartVerifying, AfterFail, AfterPutManifest, AfterPlace, ClaimedId, CanRecord, CanPlace, CanFinalize,
      CanPrepare, CanStartVerifying;
    match step
    case Claim(p, generation, token, expected, canonical, links, repeats, scan) =>
      if CanClaim(w, p, generation, token) {
        ClaimReusesUnsettled(w, p, generation, token);
        ClaimKeepsLocal(w, ClaimedId(w, p, generation),
                        Uploader(p, generation, token, expected, canonical, links, repeats, scan, Claimed));
      }
    case ClearRows(s) => if AtStage(w, s, Claimed) { ClearRowsKeepsLocal(w, s); }
    case StartHashing(s) => if AtStage(w, s, RowsCleared) { StartHashingKeepsLocal(w, s); }
    case Prepare(s) => if CanPrepare(w, s) { PrepareKeepsLocal(w, s); }
    case Place(s, path) => if CanPlace(w, s, path) { PlaceKeepsLocal(w, s, path); }
    case Record(s, path) => if CanRecord(w, s, path) { RecordKeepsLocal(w, s, path); }
    case StartVerifying(s) => if CanStartVerifying(w, s) { StartVerifyingKeepsLocal(w, s); }
    case PutManifest(s) => if AtStage(w, s, VerifyingFiles) { PutManifestKeepsLocal(w, s); }
    case Finalize(s) => if CanFinalize(w, s) { FinalizeKeepsLocal(w, s); }
    case Fail(s) => if s in w.uploaders { FailKeepsLocal(w, s); }
    case Crash(s) => CrashKeepsLocal(w, s);
  }

  // ---------------------------------------------------------------- tables and collectors

  /** Whoever passes the fence after a job step passed it before. */
  lemma WorkLetsNobodyIn(w: World, job: JobStep, p: ProblemId, token: int)
    requires LeasesOk(w.leases) && LeasesOk(AfterWork(w, job).leases) && FenceHolds(AfterWork(w, job).leases)
    requires (p, token) in w.leases.workers && (p, token) in AfterWork(w, job).leases.workers
    ensures Passes(AfterWork(w, job).leases, p, token) ==> Passes(w.leases, p, token)
  {
    var l, v := w.leases, AfterWork(w, job).leases;
    if Passes(v, p, token) {
      PassingIsNewest(v, p, token);
      HeldIsIssued(l, p, token);
      CounterRises(l, w.now, w.retention.jobs, job, p);
      assert forall id :: id in l.jobs ==> RowOk(l, id);
    }
  }

  lemma WorkerStays(w: World, job: JobStep, p: ProblemId, token: int, op: Operation)
    requires LeasesOk(w.leases) && CanWork(w, job) && InUse(w, p, token) && Works(w.leases, p, token, op)
    ensures Works(AfterWork(w, job).leases, p, token, op)
  {
    hide Passes, RowOk;
  }

  lemma WorkKeepsLeases(w: World, job: JobStep)
    requires LeasesOk(w.leases) && FenceHolds(w.leases)
    requires Deletes(job) ==> Spares(w.leases, Outdated(w.leases, w.now, w.retention.jobs, job))
    ensures LeasesOk(AfterWork(w, job).leases) && FenceHolds(AfterWork(w, job).leases)
  {
    hide LeasesOk, FenceHolds, AfterJob, Spares;
    JobKeepsOk(w.leases, w.now, w.retention.jobs, job);
    JobKeepsFence(w.leases, w.now, w.retention.jobs, job);
  }

  lemma WorkKeepsUpload(w: World, job: JobStep, s: SnapshotId)
    requires LocalInv(w) && CanWork(w, job) && s in w.uploaders
    requires LeasesOk(AfterWork(w, job).leases) && FenceHolds(AfterWork(w, job).leases)
    ensures Issued(w.uploaders[s], AfterWork(w, job).leases)
    ensures Fenced(w.uploaders[s], w.evicted, AfterWork(w, job).leases)
  {
    hide EvictedIntact, RestoresFit, LeasesOk, FenceHolds, Passes, AfterJob, CanWork;
    var u := w.uploaders[s];
    assert Issued(u, w.leases) && Fenced(u, w.evicted, w.leases);
    assert InUse(w, u.problem, u.token);
    WorkerStays(w, job, u.problem, u.token, SnapshotOp);
    WorkLetsNobodyIn(w, job, u.problem, u.token);
  }

  lemma WorkKeepsRestore(w: World, job: JobStep, r: RestoreId)
    requires LocalInv(w) && CanWork(w, job) && r in w.restores
    requires LeasesOk(AfterWork(w, job).leases) && FenceHolds(AfterWork(w, job).leases)
    ensures RestoreFits(w.restores[r], w.snapshots, AfterWork(w, job).leases)
  {
    hide EvictedIntact, EvictedFenced, LeasesOk, FenceHolds, Passes, AfterJob, CanWork, ListsAll;
    var st := w.restores[r];
    assert RestoreFits(st, w.snapshots, w.leases);
    assert InUse(w, st.problem, st.token);
    WorkerStays(w, job, st.problem, st.token, RestoreOp);
    WorkLetsNobodyIn(w, job, st.problem, st.token);
  }

  /** No step of a job lets an overtaken upload or restore through, given that purges spare what fences them. */
  lemma WorkKeepsLocal(w: World, job: JobStep)
    requires LocalInv(w) && CanWork(w, job)
    requires Deletes(job) ==> Spares(w.leases, Outdated(w.leases, w.now, w.retention.jobs, job))
    ensures LocalInv(AfterWork(w, job))
  {
    hide EvictedIntact, RestoreFits, LeasesOk, FenceHolds, Issued, Fenced, AfterJob, CanWork, Spares;
    WorkKeepsLeases(w, job);
    forall s | s in w.uploaders
      ensures Issued(w.uploaders[s], AfterWork(w, job).leases)
      ensures Fenced(w.uploaders[s], w.evicted, AfterWork(w, job).leases)
    {
      WorkKeepsUpload(w, job, s);
    }
    forall r | r in w.restores
      ensures RestoreFits(w.restores[r], w.snapshots, AfterWork(w, job).leases)
    {
      WorkKeepsRestore(w, job, r);
    }
  }

  /** A purge leaves a larger row above every overtaken token that somebody holds. */
  ghost predicate PurgeSpares(w: World, step: TableStep) {
    step.Work? && Deletes(step.job) ==> Spares(w.leases, Outdated(w.leases, w.now, w.retention.jobs, step.job))
  }

  lemma SweepKeepsLocal(w: World)
    requires LocalInv(w)
    ensures LocalInv(AfterSweep(w))
  {
    hide FenceOk, EvictedIntact, RestoresFit, SettledFrame;
    SweepFrame(w);
    FrameKeepsCopies(w, AfterSweep(w).snapshots);
  }

  lemma PruneKeepsLocal(w: World)
    requires LocalInv(w)
    ensures LocalInv(AfterPrune(w))
  {
    hide FenceOk, EvictedIntact, RestoresFit, SettledFrame, Prunable;
    PruneFrame(w);
    FrameKeepsCopies(w, AfterPrune(w).snapshots);
  }

  lemma MarkKeepsLocal(w: World)
    requires LocalInv(w)
    ensures LocalInv(AfterMark(w))
  {
    hide FenceOk, EvictedIntact, RestoresFit, ProposedMarks, Written, Owner;
  }

  lemma TableKeepsLocal(w: World, step: TableStep)
    requires LocalInv(w) && PurgeSpares(w, step)
    ensures LocalInv(AfterTable(w, step))
  {
    hide FenceOk, EvictedIntact, RestoresFit, AfterWork, CanWork, AfterSweep, AfterPrune, AfterMark, CanHeal;
    match step
    case Work(job) => if CanWork(w, job) { WorkKeepsLocal(w, job); }
    case SweepStalled => SweepKeepsLocal(w);
    case Retain =>
      PruneKeepsLocal(w);
      MarkKeepsLocal(AfterPrune(w));
    case _ =>
  }

  lemma CollectKeepsLocal(w: World, step: CollectStep)
    requires LocalInv(w)
    ensures LocalInv(AfterCollect(w, step))
  {
    hide FenceOk, EvictedIntact, RestoresFit, CanList, KeyLocked, LiveRef;
  }

  // ---------------------------------------------------------------- folders

  lemma WriteKeepsLocal(w: World, p: ProblemId, files: FileMap)
    requires LocalInv(w)
    ensures LocalInv(AfterWrite(w, p, files))
  {
    hide RestoresFit, TokensIssued;
  }

  lemma RemoveKeepsLocal(w: World, p: ProblemId)
    requires LocalInv(w)
    ensures LocalInv(w.(folders := w.folders - {p}))
  {
    hide RestoresFit, FenceOk;
  }

  /** Eviction: the fence has overtaken every upload there is, and the READY row lists what goes. */
  lemma EvictKeepsFence(w: World, p: ProblemId, token: int, s: SnapshotId, idleBefore: Option<Time>)
    requires LocalInv(w) && CanEvict(w, p, token, s, idleBefore)
    ensures FenceOk(w.uploaders, AfterEvict(w, p).evicted, w.leases)
  {
    hide RestoresFit, EvictedIntact, MatchesReady;
    forall t | t in w.uploaders
      ensures Fenced(w.uploaders[t], AfterEvict(w, p).evicted, w.leases)
    {
      var u := w.uploaders[t];
      assert Issued(u, w.leases) && Fenced(u, w.evicted, w.leases);
      if u.problem == p && Passes(w.leases, p, u.token) {
        OneOperationPasses(w.leases, p, u.token, SnapshotOp, token, EvictOp);
      }
    }
  }

  lemma EvictKeepsIntact(w: World, p: ProblemId, token: int, s: SnapshotId, idleBefore: Option<Time>)
    requires LocalInv(w) && CanEvict(w, p, token, s, idleBefore)
    ensures EvictedIntact(AfterEvict(w, p).evicted, AfterEvict(w, p).folders, w.snapshots)
  {
    hide RestoresFit, FenceOk;
    assert Backed(w.snapshots, p, w.folders[p]);
  }

  lemma ReadyManifestIsTheRow(w: World, s: SnapshotId)
    requires RowsInv(w) && StoreInv(w) && s in w.snapshots && w.snapshots[s].state == Ready
    ensures var row := w.snapshots[s]; var key := ManifestAt(row.problem, row.generation);
            key in w.store && w.store[key].ManifestDoc? && w.store[key].files == row.files
  {
    hide Identities, UploadersFit, ContentIntact, UploadsPresent, ConfirmedUnclaimed, HoldsAll;
    assert Complete(w.store, w.snapshots[s]) && WellFormedRow(w.snapshots[s]);
  }

  /** The manifest of a READY generation lists the row's files, and any other will not become READY in time. */
  lemma DownloadKeepsLocal(w: World, r: RestoreId, generation: int)
    requires RowsInv(w) && StoreInv(w) && LocalInv(w) && HasBegun(w, r)
    requires CanDownload(w, w.restores[r].problem, generation)
    ensures LocalInv(AfterDownload(w, r, generation))
  {
    hide FenceOk, EvictedIntact, RowsOk, StoreOk;
    var st := AfterDownload(w, r, generation).restores[r];
    assert RestoreFits(w.restores[r], w.snapshots, w.leases);
    forall s | s in w.snapshots && w.snapshots[s].state == Ready && w.snapshots[s].problem == st.problem
               && w.snapshots[s].generation == generation
      ensures w.snapshots[s].files == st.files
    {
      ReadyManifestIsTheRow(w, s);
    }
    assert RestoreFits(st, w.snapshots, w.leases);
  }

  lemma BeginKeepsLocal(w: World, r: RestoreId, p: ProblemId, token: int)
    requires LocalInv(w) && CanBegin(w, r, p, token)
    ensures LocalInv(AfterBegin(w, r, p, token))
  {
    hide FenceOk, EvictedIntact, ListsAll;
  }

  lemma PublishKeepsLocal(w: World, r: RestoreId, s: SnapshotId)
    requires LocalInv(w) && CanPublish(w, r, s)
    ensures LocalInv(AfterPublish(w, r))
  {
    hide MatchesReady, TokensIssued, RestoreFits;
  }

  lemma FolderKeepsLocal(w: World, step: FolderStep)
    requires RowsInv(w) && StoreInv(w) && LocalInv(w)
    ensures LocalInv(AfterFolder(w, step))
  {
    hide FenceOk, RowsOk, StoreOk, EvictedIntact, RestoreFits, CanPublish, CanDownload, CanBegin;
    match step
    case WriteFolder(p, files) => WriteKeepsLocal(w, p, files);
    case RemoveFolder(p) => RemoveKeepsLocal(w, p);
    case Evict(p, token, s, idleBefore) =>
      if CanEvict(w, p, token, s, idleBefore) {
        EvictKeepsFence(w, p, token, s, idleBefore);
        EvictKeepsIntact(w, p, token, s, idleBefore);
      }
    case BeginRestore(r, p, token) => if CanBegin(w, r, p, token) { BeginKeepsLocal(w, r, p, token); }
    case Download(r, generation) =>
      if HasBegun(w, r) && CanDownload(w, w.restores[r].problem, generation) { DownloadKeepsLocal(w, r, generation); }
    case Publish(r, s) => if CanPublish(w, r, s) { PublishKeepsLocal(w, r, s); }
    case AbandonRestore(r) =>
  }

  // ---------------------------------------------------------------- what a restore does

  /** A restore of an evicted problem puts back exactly the removed files. */
  lemma RestoreReturnsEvicted(w: World, r: RestoreId, s: SnapshotId)
    requires CasInv(w) && LocalInv(w) && CanPublish(w, r, s) && w.restores[r].problem in w.evicted
    ensures var p := w.restores[r].problem; AfterPublish(w, r).folders[p] == w.evicted[p]
  {
    hide FenceOk, SettledCovered, SupersededBelow, LogRises, LogCovered;
    var st := w.restores[r];
    assert RestoreFits(st, w.snapshots, w.leases);
    assert Backed(w.snapshots, st.problem, w.evicted[st.problem]);
  }

  /** A restore replaces an existing folder only by the same files. */
  lemma RestoreKeepsExisting(w: World, r: RestoreId, s: SnapshotId)
    requires LocalInv(w) && CanPublish(w, r, s) && w.restores[r].problem in w.folders
    ensures AfterPublish(w, r).folders == w.folders
  {
    hide FenceOk, EvictedIntact;
    var st := w.restores[r];
    assert RestoreFits(st, w.snapshots, w.leases);
    assert w.folders[st.problem := w.folders[st.problem]] == w.folders;
  }
}
