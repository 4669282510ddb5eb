/** What an upload that nobody gets in the way of needs, and that every step of it keeps that so. */
module UploadRun {
  import opened Common
  import opened Storage
  import opened SnapshotRows
  import opened GcMarks
  import opened GcSafety
  import opened LocalCopies
  import opened ReadyCas
  import opened Runs

  /** Nobody else touches the row, the folder, the keys, the fence or the usage row. */
  ghost predicate Unhindered(w: World, s: SnapshotId) {
    && s in w.uploaders && s in w.snapshots && w.snapshots[s].state != Error
    && var u := w.uploaders[s];
    && u.problem in w.folders && w.folders[u.problem] == u.scan && u.canonical in u.scan
    && Fresh(w, u.problem, u.token)
    && u.problem in w.usage && (w.usage[u.problem].generation.Some? ==>
       w.usage[u.problem].generation.value < u.generation)
    && forall c :: c in w.collectors && UploadKey(u, KeyOf(w.collectors[c].target.mark)) ==>
         !HoldsLock(w.collectors[c], KeyOf(w.collectors[c].target.mark))
  }

  /** The steps between the claim and the final transaction. */
  predicate Working(step: UploadStep, s: SnapshotId) {
    match step
    case StartHashing(t) => t == s
    case Prepare(t) => t == s
    case Place(t, _) => t == s
    case Record(t, _) => t == s
    case StartVerifying(t) => t == s
    case PutManifest(t) => t == s
    case _ => false
  }

  /** What a step of the upload of `s` leaves alone, whether or not it was enabled. */
  ghost predicate OnlyMoves(w: World, v: World, s: SnapshotId)
    requires s in w.uploaders
  {
    && s in v.uploaders && v.uploaders[s] == w.uploaders[s].(stage := v.uploaders[s].stage)
    && v.folders == w.folders && v.leases == w.leases && v.usage == w.usage && v.collectors == w.collectors
    && (s in w.snapshots && w.snapshots[s].state != Error ==> s in v.snapshots && v.snapshots[s].state != Error)
  }

  lemma PrepareMoves(w: World, s: SnapshotId)
    requires s in w.uploaders && s in w.snapshots
    ensures OnlyMoves(w, AfterPrepare(w, s), s)
  {
    hide Unclaimed;
  }

  lemma FilesMove(w: World, s: SnapshotId, path: RelPath)
    requires s in w.uploaders
    ensures CanPlace(w, s, path) ==> OnlyMoves(w, AfterPlace(w, s, path), s)
    ensures CanRecord(w, s, path) ==> OnlyMoves(w, AfterRecord(w, s, path), s)
  {
  }

  lemma ManifestMoves(w: World, s: SnapshotId)
    requires s in w.uploaders
    ensures OnlyMoves(w, AfterPutManifest(w, s), s)
  {
  }

  lemma HashingMoves(w: World, s: SnapshotId)
    requires s in w.uploaders
    ensures OnlyMoves(w, AfterStartHashing(w, s), s)
  {
  }

  lemma VerifyingMoves(w: World, s: SnapshotId)
    requires s in w.uploaders
    ensures OnlyMoves(w, AfterStartVerifying(w, s), s)
  {
  }

  lemma WorkOnlyMoves(w: World, s: SnapshotId, step: UploadStep)
    requires s in w.uploaders && Working(step, s)
    ensures OnlyMoves(w, AfterUpload(w, step), s)
  {
    hide OnlyMoves, AfterStartHashing, AfterPutManifest, AfterStartVerifying, AfterPrepare, AfterPlace, AfterRecord;
    Stutters(w, s);
    ManifestMoves(w, s);
    HashingMoves(w, s);
    VerifyingMoves(w, s);
    match step
    case Prepare(_) => if CanPrepare(w, s) { PrepareMoves(w, s); }
    case Place(_, path) => FilesMove(w, s, path);
    case Record(_, path) => FilesMove(w, s, path);
    case _ =>
  }

  lemma Stutters(w: World, s: SnapshotId)
    requires s in w.uploaders
    ensures OnlyMoves(w, w, s)
  {
  }

  lemma WorkStaysUnhindered(w: World, s: SnapshotId, step: UploadStep)
    requires Unhindered(w, s) && Working(step, s)
    ensures Unhindered(AfterUpload(w, step), s)
  {
    hide AfterUpload, HoldsLock;
    WorkOnlyMoves(w, s, step);
    assert forall key :: UploadKey(w.uploaders[s], key) <==> UploadKey(AfterUpload(w, step).uploaders[s], key);
  }

  /** The next step of an unhindered upload is always enabled. */
  lemma NextIsEnabled(w: World, s: SnapshotId, path: RelPath)
    requires RowsInv(w) && StoreInv(w) && Unhindered(w, s)
    ensures w.uploaders[s].stage == HashingFiles ==> CanPrepare(w, s)
    ensures w.uploaders[s].stage.UploadingFiles? && path in w.uploaders[s].scan ==> CanPlace(w, s, path)
    ensures w.uploaders[s].stage.UploadingFiles? && path in w.uploaders[s].stage.placed ==> CanRecord(w, s, path)
    ensures w.uploaders[s].stage == ManifestStored ==> CanFinalize(w, s)
  {
    hide Identities, WellFormedRows, ReadyComplete, UploadsPresent, ConfirmedUnclaimed, UploadKey, HoldsLock;
    assert Fits(w.uploaders[s], w.snapshots[s]);
  }

  /** The upload `u` of row `s` goes on; if `local` then local copies are in order, if `free` nobody is in its way. */
  ghost predicate Going(w: World, s: SnapshotId, u: Uploader, local: bool, free: bool) {
    && CoreInv(w) && (local ==> LocalInv(w)) && (free ==> Unhindered(w, s))
    && s in w.uploaders && w.uploaders[s] == u.(stage := w.uploaders[s].stage)
  }

  lemma GoesOn(w: World, s: SnapshotId, u: Uploader, local: bool, free: bool, step: UploadStep)
    requires Going(w, s, u, local, free) && Working(step, s)
    ensures Going(AfterUpload(w, step), s, u, local, free)
  {
    hide CoreInv, LocalInv, Unhindered, AfterUpload;
    WorkOnlyMoves(w, s, step);
    WorkerKeepsInv(w, Upload(step));
    if free {
      WorkStaysUnhindered(w, s, step);
    }
  }

  lemma FreeIsEnabled(w: World, s: SnapshotId, u: Uploader, local: bool, path: RelPath)
    requires Going(w, s, u, local, true)
    ensures w.uploaders[s].stage == HashingFiles ==> CanPrepare(w, s)
    ensures w.uploaders[s].stage.UploadingFiles? && path in u.scan ==> CanPlace(w, s, path)
    ensures w.uploaders[s].stage.UploadingFiles? && path in w.uploaders[s].stage.placed ==> CanRecord(w, s, path)
    ensures w.uploaders[s].stage == ManifestStored ==> CanFinalize(w, s)
  {
    hide RowsInv, StoreInv, MarkInv, CasInv, LocalInv, Unhindered;
    NextIsEnabled(w, s, path);
  }

  /** What a finished upload leaves: a READY row that lists the scan, complete in the store. */
  ghost predicate Published(w: World, s: SnapshotId, u: Uploader) {
    && s !in w.uploaders && IsReady(w, u.problem, s)
    && w.snapshots[s].generation == u.generation && w.snapshots[s].files == u.scan
    && Complete(w.store, w.snapshots[s])
  }

  lemma FinalizePublishes(w: World, s: SnapshotId, u: Uploader, local: bool, free: bool)
    requires Going(w, s, u, local, free) && CanFinalize(w, s)
    ensures KeepsInv(w, AfterUpload(w, Finalize(s))) && Published(AfterUpload(w, Finalize(s)), s, u)
  {
    hide MarkInv, CasInv, LocalInv, RowsOk, Complete, Unhindered, ContentIntact, UploadsPresent, ConfirmedUnclaimed;
    WorkerKeepsInv(w, Upload(Finalize(s)));
    FinalizedFiles(w, s);
  }

  // ---------------------------------------------------------------- steps, one at a time

  /** The UPDATE that supersedes the problem's READY rows of smaller generations. */
  function SupersededRows(w: World, p: ProblemId, generation: int): map<SnapshotId, Snapshot> {
    map t | t in w.snapshots ::
      if IsReady(w, p, t) && w.snapshots[t].generation < generation
      then w.snapshots[t].(state := Superseded, supersededAt := Some(w.now)) else w.snapshots[t]
  }

  function ReadyRow(row: Snapshot, now: Time): Snapshot {
    row.(state := Ready, completedAt := Some(now), manifest := Some(ManifestAt(row.problem, row.generation)))
  }

  /** The three statements on snapshots and snapshot_objects, one after the other, are the step's new rows. */
  lemma CommittedRows(w: World, s: SnapshotId)
    requires s in w.uploaders && s in w.snapshots && w.snapshots[s].state == Verifying
    requires SameGeneration(w, s, w.uploaders[s].problem, w.uploaders[s].generation)
    ensures var u := w.uploaders[s];
            var rows := SupersededRows(w, u.problem, u.generation);
            s in rows && rows[s] == w.snapshots[s] &&
            rows[s := WithScan(ReadyRow(rows[s], w.now), u.scan)] == FinalizedRows(w, s)
  {
  }

  function WithScan(row: Snapshot, scan: FileMap): Snapshot {
    row.(files := row.files + scan, verified := row.verified + scan.Keys)
  }

  lemma FinalizeStep(w: World, s: SnapshotId)
    ensures AfterUpload(w, Finalize(s)) == if CanFinalize(w, s) then AfterFinalize(w, s) else w
  {
  }

  lemma PrepareStep(w: World, s: SnapshotId)
    ensures AfterUpload(w, Prepare(s)) == if CanPrepare(w, s) then AfterPrepare(w, s) else w
  {
  }

  lemma PlaceStep(w: World, s: SnapshotId, path: RelPath)
    ensures AfterUpload(w, Place(s, path)) == if CanPlace(w, s, path) then AfterPlace(w, s, path) else w
  {
    hide CanPlace, AfterPlace;
  }

  lemma ClaimStep(w: World, u: Uploader)
    requires RowsInv(w) && u.stage == Claimed
    ensures var s := ClaimedId(w, u.problem, u.generation);
            CanClaim(w, u.problem, u.generation, u.token) ==>
              var v := AfterUpload(w, Claim(u.problem, u.generation, u.token, u.expectedVersion, u.canonical, u.links,
                                          u.repeats, u.scan));
              v == AfterClaim(w, s, u) && AtStage(v, s, Claimed) && AfterUpload(v, ClearRows(s)) == AfterClearRows(v, s)
    ensures forall s :: s in w.snapshots && SameGeneration(w, s, u.problem, u.generation) ==>
              s == ClaimedId(w, u.problem, u.generation)
    ensures (forall s :: s in w.snapshots ==> !SameGeneration(w, s, u.problem, u.generation)) ==>
              ClaimedId(w, u.problem, u.generation) == w.nextSnapshot
  {
    hide AfterClearRows, ClaimedRow;
    ClaimedIdSpec(w, u.problem, u.generation);
  }

  /** An upload that fails leaves its row for as long as rows in 'error' are kept. */
  lemma FailsInError(w: World, s: SnapshotId)
    requires CoreInv(w) && s in w.uploaders
    ensures var v := AfterUpload(w, Fail(s));
              KeepsInv(w, v) && s !in v.uploaders
              && (s in v.snapshots ==>
                    v.snapshots[s].state == Error
                    && HeldUntil(v.retention, v.now, v.snapshots[s], v.now + v.retention.error))
  {
    hide CoreInv, LocalInv;
    WorkerKeepsInv(w, Upload(Fail(s)));
    assert s in w.snapshots ==> !Settled(w.snapshots[s]) by {
      if s in w.snapshots { CoreRows(w); OwnRowUnsettled(w, s); }
    }
  }

  lemma PublishedIsGone(w: World, s: SnapshotId, u: Uploader)
    requires Published(w, s, u)
    ensures s !in w.uploaders
  {
    hide Complete;
  }

  // ---------------------------------------------------------------- what the transactions of an upload leave

  /** The problem's other READY rows are superseded and have their full time from now on; no other row changes. */
  ghost predicate OthersSuperseded(w: World, v: World, s: SnapshotId)
    requires s in w.uploaders
  {
    v.snapshots.Keys == w.snapshots.Keys
    && forall t :: t in w.snapshots && t != s ==>
         if IsReady(w, w.uploaders[s].problem, t) then
           && SameContents(w.snapshots[t], v.snapshots[t]) && v.snapshots[t].state == Superseded
           && HeldUntil(w.retention, w.now, v.snapshots[t], w.now + w.retention.superseded)
         else v.snapshots[t] == w.snapshots[t]
  }

  /** The dirty flag goes exactly if nothing bumped the version and no later generation was asked for. */
  predicate DirtyUnlessCaptured(before: Problem, after: Problem, u: Uploader) {
    && after.dirtyVersion == before.dirtyVersion
    && (after.dirty <==>
          && before.dirty
          && !(u.expectedVersion == Some(before.dirtyVersion) && before.dirtyGeneration.Some?
               && before.dirtyGeneration.value <= u.generation))
    && (after.dirty ==> after == before)
  }

  ghost predicate ProblemsAfter(before: map<ProblemId, Problem>, after: map<ProblemId, Problem>, u: Uploader) {
    after.Keys == before.Keys
    && forall p :: p in before ==>
         if p == u.problem then DirtyUnlessCaptured(before[p], after[p], u) else after[p] == before[p]
  }

  /** The new READY row lists the scan, and the usage row says so. */
  ghost predicate IsNewReady(w: World, v: World, s: SnapshotId)
    requires s in w.uploaders
  {
    var u := w.uploaders[s];
    && IsReady(v, u.problem, s) && v.snapshots[s].generation == u.generation && v.snapshots[s].files == u.scan
    && v.snapshots[s].manifest == Some(ManifestAt(u.problem, u.generation)) && v.snapshots[s].completedAt == Some(w.now)
    && u.scan.Keys <= v.snapshots[s].verified
    && u.problem in w.usage
    && v.usage == w.usage[u.problem := Usage(Some(u.generation), true, w.usage[u.problem].lastAccess)]
  }

  /** Everything that the final transaction changes, and what it leaves alone. */
  ghost predicate FinalizedWorld(w: World, v: World, s: SnapshotId)
    requires s in w.uploaders
  {
    var u := w.uploaders[s];
    && OthersSuperseded(w, v, s) && ProblemsAfter(w.problems, v.problems, u) && IsNewReady(w, v, s)
    && v == w.(snapshots := v.snapshots, usage := v.usage, problems := v.problems, uploaders := w.uploaders - {s},
               readyLog := w.readyLog + [(u.problem, u.generation)])
  }

  lemma OthersAreSuperseded(w: World, s: SnapshotId)
    requires CasInv(w) && CanFinalize(w, s)
    ensures OthersSuperseded(w, AfterFinalize(w, s), s)
  {
    hide OneReady, SupersededBelow, LogRises, LogCovered, ClearedProblems;
    var u := w.uploaders[s];
    forall t | t in w.snapshots && IsReady(w, u.problem, t)
      ensures w.snapshots[t].generation < u.generation
    {
      assert Covers(w.usage, u.problem, w.snapshots[t].generation);
    }
  }

  lemma DirtyIsCleared(problems: map<ProblemId, Problem>, u: Uploader)
    ensures ProblemsAfter(problems, ClearedProblems(problems, u.problem, u.generation, u.expectedVersion), u)
  {
  }

  lemma FinalizeLeaves(w: World, s: SnapshotId)
    requires CoreInv(w) && CanFinalize(w, s)
    ensures FinalizedWorld(w, AfterFinalize(w, s), s)
  {
    OthersAreSuperseded(w, s);
    DirtyIsCleared(w.problems, w.uploaders[s]);
    CoreRows(w);
    FinalizedFiles(w, s);
    hide CoreInv, OthersSuperseded, ProblemsAfter, ClearedProblems;
  }

  /** Over, or left by an upload that has been silent for two hours. */
  predicate Abandoned(row: Snapshot, now: Time) {
    row.state == Error || (row.state != Ready && row.state != Superseded && row.createdAt + 2 * 3600 < now)
  }

  lemma ReusableWhenAbandoned(w: World, row: Snapshot)
    ensures Reusable(w, row) <==> Abandoned(row, w.now)
  {
  }

  /** The row is its new owner's from now on: empty, and nobody else's for two hours. */
  predicate FreshlyClaimed(w: World, v: World, s: SnapshotId, u: Uploader) {
    && s in v.snapshots && v.snapshots == w.snapshots[s := v.snapshots[s]]
    && SameGeneration(v, s, u.problem, u.generation) && v.snapshots[s].state == Discovered
    && v.snapshots[s].files == map[] && v.snapshots[s].verified == {} && v.snapshots[s].manifest == None
    && v.snapshots[s].createdAt == w.now && v.snapshots[s].completedAt == None
    && (s in w.snapshots ==> SameGeneration(w, s, u.problem, u.generation))
    && (s !in w.snapshots ==> s == w.nextSnapshot && v.nextSnapshot == s + 1)
    && v == w.(snapshots := v.snapshots, nextSnapshot := v.nextSnapshot,
               uploaders := w.uploaders[s := u.(stage := RowsCleared)])
  }

  lemma ClaimLeaves(w: World, s: SnapshotId, u: Uploader)
    requires RowsInv(w) && CanClaim(w, u.problem, u.generation, u.token) && s == ClaimedId(w, u.problem, u.generation)
    ensures FreshlyClaimed(w, AfterClearRows(AfterClaim(w, s, u), s), s, u)
  {
    hide RowsOk, CanClaim;
    ClaimedIdSpec(w, u.problem, u.generation);
  }

  /** What has been under way for more than six hours. */
  predicate OverSixHours(row: Snapshot, now: Time) {
    row.state != Error && row.state != Ready && row.state != Superseded && row.createdAt + 6 * 3600 < now
  }

  /** The sweep fails exactly these rows, which then have the full time of rows in 'error', and touches no other. */
  lemma SweepFailsStalled(w: World, s: SnapshotId)
    requires s in w.snapshots
    ensures var v := AfterSweep(w);
            && v == w.(snapshots := v.snapshots) && v.snapshots.Keys == w.snapshots.Keys
            && if OverSixHours(w.snapshots[s], w.now) then
                 && v.snapshots[s].state == Error && SameContents(w.snapshots[s], v.snapshots[s])
                 && HeldUntil(w.retention, w.now, v.snapshots[s], w.now + w.retention.error)
               else v.snapshots[s] == w.snapshots[s]
  {
  }

  /**
   With the folder there and its archive in the scan, the row lists the scan, no mark is left on its keys, and every
   other mark and row stays.
   */
  ghost predicate ClaimedKeys(w: World, v: World, s: SnapshotId) {
    && s in w.uploaders && s in w.snapshots && s in v.snapshots
    && var u := w.uploaders[s];
    && u.problem in w.folders && u.canonical in u.scan && w.snapshots[s].state == Hashing
    && v.snapshots == w.snapshots[s := v.snapshots[s]] && SameGeneration(v, s, u.problem, u.generation)
    && v.snapshots[s].state == SnapshotState.Uploading && v.snapshots[s].files == u.scan
    && v.snapshots[s].manifest == Some(ManifestAt(u.problem, u.generation))
    && (forall m :: m in v.marks <==> m in w.marks && !Refers(v.snapshots[s], KeyOf(m)))
    && (forall m :: m in v.marks ==> v.marks[m] == w.marks[m])
  }

  lemma PrepareLeaves(w: World, s: SnapshotId)
    requires RowsInv(w) && CanPrepare(w, s)
    ensures ClaimedKeys(w, AfterPrepare(w, s), s)
  {
    PrepareKeepsRows(w, s);
    hide Identities, WellFormedRows;
  }

  /**
   A symlink's object is its target; any other file, as it is now, still has the scanned digest. The object is there
   under this digest, with nothing else changed.
   */
  predicate PutAsScanned(w: World, store: map<ObjectKey, Blob>, u: Uploader, path: RelPath) {
    && path in u.scan
    && var sha := u.scan[path].sha;
    && (path in u.links || (u.problem in w.folders && path in w.folders[u.problem]
                            && w.folders[u.problem][path].sha == sha))
    && (Content(sha) in w.store ==> store == w.store)
    && store == w.store[Content(sha) := Raw(sha.preimage)]
  }
}
