/** What every step keeps about snapshots rows and the uploads that drive them. */
module SnapshotRows {
  import opened Common
  import opened Storage

  predicate Uploads(u: Uploader, p: ProblemId, generation: int) {
    u.problem == p && u.generation == generation
  }

  /**
   The assumption on takeovers: no upload of the same problem and generation is still alive.
   The claim itself only compares the row's age with two hours.
   */
  ghost predicate Undisturbed(w: World, step: UploadStep) {
    step.Claim? ==> forall s :: s in w.uploaders ==> !Uploads(w.uploaders[s], step.p, step.generation)
  }

  /**
   Row ids are fresh, UNIQUE (problem_id, generation) holds, and a problem's generation has
   at most one live upload, which works on the row with that generation if there is one.
   */
  ghost predicate Identities(rows: map<SnapshotId, Snapshot>, next: SnapshotId, uploaders: map<SnapshotId, Uploader>) {
    && (forall s :: s in rows || s in uploaders ==> s < next)
    && UniqueGenerations(rows)
    && OneUploadPerGeneration(uploaders, rows)
  }

  ghost predicate UniqueGenerations(rows: map<SnapshotId, Snapshot>) {
    forall s, t :: (s in rows && t in rows && rows[s].problem == rows[t].problem
                    && rows[s].generation == rows[t].generation) ==> s == t
  }

  ghost predicate OneUploadPerGeneration(uploaders: map<SnapshotId, Uploader>, rows: map<SnapshotId, Snapshot>) {
    && (forall s, t :: (s in uploaders && t in uploaders
                        && Uploads(uploaders[s], uploaders[t].problem, uploaders[t].generation)) ==> s == t)
    && (forall s, t :: (s in uploaders && t in rows
                        && Uploads(uploaders[s], rows[t].problem, rows[t].generation)) ==> s == t)
  }

  /** Nothing is added and nothing changes its problem or generation. */
  ghost predicate Shrinks(w: World, v: World) {
    && v.nextSnapshot == w.nextSnapshot
    && (forall s :: s in v.snapshots ==>
          s in w.snapshots && v.snapshots[s].problem == w.snapshots[s].problem
          && v.snapshots[s].generation == w.snapshots[s].generation)
    && (forall s :: s in v.uploaders ==>
          s in w.uploaders && Uploads(v.uploaders[s], w.uploaders[s].problem, w.uploaders[s].generation))
  }

  lemma ShrinkingKeepsIdentities(w: World, v: World)
    requires Identities(w.snapshots, w.nextSnapshot, w.uploaders) && Shrinks(w, v)
    ensures Identities(v.snapshots, v.nextSnapshot, v.uploaders)
  {
  }

  predicate SameContents(a: Snapshot, b: Snapshot) {
    a.problem == b.problem && a.generation == b.generation && a.files == b.files && a.manifest == b.manifest
  }

  /** Protected from an instant on until the time is up, and no longer. */
  ghost predicate HeldUntil(retention: Retention, from: Time, row: Snapshot, until: Time) {
    forall n: Time :: from <= n ==> (Protected(retention, n, row) <==> n <= until)
  }

  predicate WellFormedRow(row: Snapshot) {
    && (row.manifest.Some? ==> row.manifest.value == ManifestAt(row.problem, row.generation))
    && (row.state == Superseded ==> row.supersededAt.Some?)
    && (row.state == Error ==> row.completedAt.Some?)
    && (row.state == Ready ==> row.manifest.Some?)
  }

  ghost predicate WellFormedRows(rows: map<SnapshotId, Snapshot>) {
    forall s :: s in rows ==> WellFormedRow(rows[s])
  }

  /** Either the row moved to 'error' under the upload, or it is exactly where the upload left it. */
  predicate Fits(u: Uploader, row: Snapshot) {
    && row.problem == u.problem && row.generation == u.generation
    && match u.stage
       case Claimed => row.state == Discovered || row.state == Error
       case RowsCleared => (row.state == Discovered || row.state == Error) && row.files == map[]
       case HashingFiles => (row.state == Hashing || row.state == Error) && row.files == map[]
       case UploadingFiles(placed, recorded) =>
         && (row.state == Uploading || row.state == Error)
         && (row.state == Uploading ==> row.files == u.scan && row.manifest.Some?)
         && recorded <= placed <= u.scan.Keys
       case _ =>
         && (row.state == Verifying || row.state == Error)
         && (row.state == Verifying ==> row.files == u.scan && row.manifest.Some?)
  }

  ghost predicate UploadersFit(uploaders: map<SnapshotId, Uploader>, rows: map<SnapshotId, Snapshot>) {
    forall s :: s in uploaders && s in rows ==> Fits(uploaders[s], rows[s])
  }

  ghost predicate RowsOk(rows: map<SnapshotId, Snapshot>, next: SnapshotId, uploaders: map<SnapshotId, Uploader>) {
    && Identities(rows, next, uploaders)
    && WellFormedRows(rows)
    && UploadersFit(uploaders, rows)
  }

  ghost predicate RowsInv(w: World) {
    RowsOk(w.snapshots, w.nextSnapshot, w.uploaders)
  }

  /** The row an INSERT ... ON CONFLICT picks is the only one with its problem and generation. */
  lemma ClaimedIdSpec(w: World, p: ProblemId, generation: int)
    requires RowsInv(w)
    ensures var s := ClaimedId(w, p, generation);
      && (s in w.snapshots ==> SameGeneration(w, s, p, generation))
      && (s !in w.snapshots ==> s == w.nextSnapshot && forall t :: t in w.snapshots ==>
         !SameGeneration(w, t, p, generation))
  {
  }

  lemma ClaimKeepsIdentities(w: World, s: SnapshotId, u: Uploader)
    requires Identities(w.snapshots, w.nextSnapshot, w.uploaders)
    requires forall t :: t in w.uploaders ==> !Uploads(w.uploaders[t], u.problem, u.generation)
    requires s in w.snapshots ==> SameGeneration(w, s, u.problem, u.generation)
    requires s !in w.snapshots ==>
               s == w.nextSnapshot && forall t :: t in w.snapshots ==> !SameGeneration(w, t, u.problem, u.generation)
    ensures var v := AfterClaim(w, s, u); Identities(v.snapshots, v.nextSnapshot, v.uploaders)
  {
  }

  lemma ClaimKeepsRows(w: World, s: SnapshotId, u: Uploader)
    requires RowsInv(w) && u.stage == Claimed
    requires forall t :: t in w.uploaders ==> !Uploads(w.uploaders[t], u.problem, u.generation)
    requires s in w.snapshots ==> SameGeneration(w, s, u.problem, u.generation)
    requires s !in w.snapshots ==>
               s == w.nextSnapshot && forall t :: t in w.snapshots ==> !SameGeneration(w, t, u.problem, u.generation)
    ensures RowsInv(AfterClaim(w, s, u))
  {
    ClaimKeepsIdentities(w, s, u);
  }

  /** An update of one row that keeps its identity keeps the invariant if the new row is well formed and fits. */
  lemma SetRowKeepsRows(w: World, s: SnapshotId, row: Snapshot)
    requires RowsInv(w) && s in w.snapshots && WellFormedRow(row)
    requires row.problem == w.snapshots[s].problem && row.generation == w.snapshots[s].generation
    requires s in w.uploaders ==> Fits(w.uploaders[s], row)
    ensures RowsInv(SetRow(w, s, row))
  {
    hide Identities;
    ShrinkingKeepsIdentities(w, SetRow(w, s, row));
  }

  /** The same for a step of the row's own uploader. */
  lemma StageKeepsRows(w: World, s: SnapshotId, row: Snapshot, stage: Stage)
    requires RowsInv(w) && s in w.snapshots && s in w.uploaders && WellFormedRow(row)
    requires row.problem == w.snapshots[s].problem && row.generation == w.snapshots[s].generation
    requires Fits(w.uploaders[s].(stage := stage), row)
    ensures RowsInv(SetStage(SetRow(w, s, row), s, stage))
  {
    hide Identities;
    ShrinkingKeepsIdentities(w, SetStage(SetRow(w, s, row), s, stage));
  }

  lemma PrepareKeepsRows(w: World, s: SnapshotId)
    requires RowsInv(w) && CanPrepare(w, s)
    ensures RowsInv(AfterPrepare(w, s))
    ensures AfterPrepare(w, s).snapshots[s].files == w.uploaders[s].scan
  {
    var u := w.uploaders[s];
    assert map[] + u.scan == u.scan;
    var row := w.snapshots[s].(state := Uploading, manifest := Some(ManifestAt(u.problem, u.generation)),
                               files := w.snapshots[s].files + u.scan,
                               verified := w.snapshots[s].verified - u.scan.Keys);
    StageKeepsRows(w, s, row, UploadingFiles({}, {}));
  }

  lemma PlaceKeepsRows(w: World, s: SnapshotId, path: RelPath)
    requires RowsInv(w) && CanPlace(w, s, path)
    ensures RowsInv(AfterPlace(w, s, path))
  {
    hide Identities;
    ShrinkingKeepsIdentities(w, AfterPlace(w, s, path));
  }

  lemma PutManifestKeepsRows(w: World, s: SnapshotId)
    requires RowsInv(w) && AtStage(w, s, VerifyingFiles)
    ensures RowsInv(AfterPutManifest(w, s))
  {
    hide Identities;
    ShrinkingKeepsIdentities(w, AfterPutManifest(w, s));
  }

  lemma RecordKeepsRows(w: World, s: SnapshotId, path: RelPath)
    requires RowsInv(w) && CanRecord(w, s, path)
    ensures RowsInv(AfterRecord(w, s, path))
    ensures w.snapshots[s].state != Error ==> AfterRecord(w, s, path).snapshots[s].files == w.snapshots[s].files
  {
    var u := w.uploaders[s];
    var row := w.snapshots[s];
    assert row.state == Uploading ==> row.files[path := u.scan[path]] == row.files;
    StageKeepsRows(w, s, row.(files := row.files[path := u.scan[path]], verified := row.verified + {path}),
                   u.stage.(recorded := u.stage.recorded + {path}));
  }

  lemma StartVerifyingKeepsRows(w: World, s: SnapshotId)
    requires RowsInv(w) && CanStartVerifying(w, s)
    ensures RowsInv(AfterStartVerifying(w, s))
  {
    if s in w.snapshots {
      StageKeepsRows(w, s, VerifyingRow(w.snapshots[s]), VerifyingFiles);
    }
  }

  /** READY keeps the scanned files: the object rows written at the end are the rows of the claim. */
  lemma FinalizedFiles(w: World, s: SnapshotId)
    requires RowsInv(w) && CanFinalize(w, s)
    ensures AfterFinalize(w, s).snapshots[s].files == w.uploaders[s].scan == w.snapshots[s].files
  {
    assert w.snapshots[s].files + w.uploaders[s].scan == w.uploaders[s].scan;
  }

  lemma FinalizedRowsFit(w: World, s: SnapshotId)
    requires RowsInv(w) && CanFinalize(w, s)
    ensures WellFormedRows(FinalizedRows(w, s)) && UploadersFit(w.uploaders - {s}, FinalizedRows(w, s))
  {
    hide Identities;
    var rows := FinalizedRows(w, s);
    forall t | t in rows
      ensures WellFormedRow(rows[t])
    {
    }
    forall t | t in rows && t in w.uploaders - {s}
      ensures Fits(w.uploaders[t], rows[t])
    {
      assert !IsReady(w, w.uploaders[s].problem, t);
    }
  }

  lemma FinalizeKeepsRows(w: World, s: SnapshotId)
    requires RowsInv(w) && CanFinalize(w, s)
    ensures RowsInv(AfterFinalize(w, s))
  {
    hide Identities, WellFormedRow, Fits;
    FinalizedRowsFit(w, s);
    ShrinkingKeepsIdentities(w, AfterFinalize(w, s));
  }

  lemma CrashKeepsRows(w: World, s: SnapshotId)
    requires RowsInv(w)
    ensures RowsInv(w.(uploaders := w.uploaders - {s}))
  {
    hide Identities;
    ShrinkingKeepsIdentities(w, w.(uploaders := w.uploaders - {s}));
  }

  lemma FailKeepsRows(w: World, s: SnapshotId)
    requires RowsInv(w) && s in w.uploaders
    ensures RowsInv(AfterFail(w, s))
  {
    CrashKeepsRows(w, s);
    if s in w.snapshots && w.snapshots[s].state != Ready {
      SetRowKeepsRows(w.(uploaders := w.uploaders - {s}), s,
                      w.snapshots[s].(state := Error, completedAt := Some(w.now)));
    }
  }

  lemma SweepKeepsRows(w: World)
    requires RowsInv(w)
    ensures RowsInv(AfterSweep(w))
  {
    hide Identities;
    ShrinkingKeepsIdentities(w, AfterSweep(w));
  }

  lemma RetainKeepsRows(w: World)
    requires RowsInv(w)
    ensures RowsInv(AfterRetain(w))
  {
    hide Identities;
    ShrinkingKeepsIdentities(w, AfterRetain(w));
  }

  lemma ClearRowsKeepsRows(w: World, s: SnapshotId)
    requires RowsInv(w) && AtStage(w, s, Claimed)
    ensures RowsInv(AfterClearRows(w, s))
  {
    if s in w.snapshots {
      StageKeepsRows(w, s, w.snapshots[s].(files := map[], verified := {}), RowsCleared);
    }
  }

  lemma StartHashingKeepsRows(w: World, s: SnapshotId)
    requires RowsInv(w) && AtStage(w, s, RowsCleared)
    ensures RowsInv(AfterStartHashing(w, s))
  {
    if s in w.snapshots {
      StageKeepsRows(w, s, w.snapshots[s].(state := Hashing), HashingFiles);
    }
  }

  lemma CollectKeepsRows(w: World, step: CollectStep)
    requires RowsInv(w)
    ensures RowsInv(AfterCollect(w, step))
  {
    hide RowsOk;
  }

  lemma FolderKeepsRows(w: World, step: FolderStep)
    requires RowsInv(w)
    ensures RowsInv(AfterFolder(w, step))
  {
    hide RowsOk, CanEvict, CanPublish, CanDownload;
  }

  lemma TableKeepsRows(w: World, step: TableStep)
    requires RowsInv(w)
    ensures RowsInv(AfterTable(w, step))
  {
    hide RowsOk, AfterSweep, AfterRetain;
    match step
    case SweepStalled => SweepKeepsRows(w);
    case Retain => RetainKeepsRows(w);
    case _ =>
  }

  lemma UploadKeepsRows(w: World, step: UploadStep)
    requires RowsInv(w) && Undisturbed(w, step)
    ensures RowsInv(AfterUpload(w, step))
  {
    hide RowsOk;
    match step
    case Claim(p, generation, token, expected, canonical, links, repeats, scan) =>
      if CanClaim(w, p, generation, token) {
        ClaimedIdSpec(w, p, generation);
        ClaimKeepsRows(w, ClaimedId(w, p, generation),
                       Uploader(p, generation, token, expected, canonical, links, repeats, scan, Claimed));
      }
    case ClearRows(s) => if AtStage(w, s, Claimed) { ClearRowsKeepsRows(w, s); }
    case StartHashing(s) => if AtStage(w, s, RowsCleared) { StartHashingKeepsRows(w, s); }
    case Prepare(s) => if CanPrepare(w, s) { PrepareKeepsRows(w, s); }
    case Place(s, path) => if CanPlace(w, s, path) { PlaceKeepsRows(w, s, path); }
    case Record(s, path) => if CanRecord(w, s, path) { RecordKeepsRows(w, s, path); }
    case StartVerifying(s) => if CanStartVerifying(w, s) { StartVerifyingKeepsRows(w, s); }
    case PutManifest(s) => if AtStage(w, s, VerifyingFiles) { PutManifestKeepsRows(w, s); }
    case Finalize(s) => if CanFinalize(w, s) { FinalizeKeepsRows(w, s); }
    case Fail(s) => if s in w.uploaders { FailKeepsRows(w, s); }
    case Crash(s) => CrashKeepsRows(w, s);
  }
}
