/** Runs from empty tables with the default retention times, and the upload of one file in small steps. */
module SampleRuns {
  import opened Common
  import opened JobLeases
  import opened Storage
  import opened SnapshotRows
  import opened LocalCopies
  import opened Runs

  const DAY: nat := 86400
  const DEFAULTS: Retention := Retention(90 * DAY, 7 * DAY, 7 * DAY, Keep(90 * DAY, 14 * DAY))

  /** Takeovers wait; and, if `sparing`, purges spare what the fence needs, which makes the step an orderly one. */
  ghost predicate Allowed(sparing: bool, w: World, step: Step) {
    InTurn(w, step) && (sparing && step.Table? ==> PurgeSpares(w, step.table))
  }

  ghost predicate AllowedRun(sparing: bool, w: World, run: seq<Step>)
    decreases |run|
  {
    run == [] || (Allowed(sparing, w, run[0]) && AllowedRun(sparing, After(w, run[0]), run[1..]))
  }

  ghost predicate Reachable(sparing: bool, w: World) {
    exists run :: AllowedRun(sparing, Init(DEFAULTS, 0), run) && Exec(Init(DEFAULTS, 0), run) == w
  }

  lemma {:induction false} SparingIsOrderly(w: World, run: seq<Step>)
    requires AllowedRun(true, w, run)
    ensures OrderlyRun(w, run)
    decreases |run|
  {
    hide After, Undisturbed, PurgeSpares;
    if run != [] {
      SparingIsOrderly(After(w, run[0]), run[1..]);
    }
  }

  lemma {:induction false} ExtendRun(sparing: bool, w: World, run: seq<Step>, step: Step)
    requires AllowedRun(sparing, w, run) && Allowed(sparing, Exec(w, run), step)
    ensures AllowedRun(sparing, w, run + [step]) && Exec(w, run + [step]) == After(Exec(w, run), step)
    decreases |run|
  {
    hide After, Allowed;
    if run == [] {
      assert run + [step] == [step] && [step][1..] == [];
    } else {
      ExtendRun(sparing, After(w, run[0]), run[1..], step);
      assert (run + [step])[1..] == run[1..] + [step];
    }
  }

  lemma Extend(sparing: bool, w: World, step: Step)
    requires Reachable(sparing, w) && Allowed(sparing, w, step)
    ensures Reachable(sparing, After(w, step))
  {
    hide After, Allowed;
    var run :| AllowedRun(sparing, Init(DEFAULTS, 0), run) && Exec(Init(DEFAULTS, 0), run) == w;
    ExtendRun(sparing, Init(DEFAULTS, 0), run, step);
  }

  lemma Start(sparing: bool)
    ensures Reachable(sparing, Init(DEFAULTS, 0))
  {
    assert AllowedRun(sparing, Init(DEFAULTS, 0), []) && Exec(Init(DEFAULTS, 0), []) == Init(DEFAULTS, 0);
  }

  // ---------------------------------------------------------------- one upload of one file

  const PROBLEM: ProblemId := "p"
  const PATH: RelPath := "a.zip"
  const MANIFEST: ObjectKey := ManifestAt(PROBLEM, 1)
  const FIRST: Digest := Digest("1")

  function One(sha: Digest): FileMap {
    map[PATH := FileInfo(sha, 1)]
  }

  /** One upload: its token, the file it finds, and whether its listing repeats the path. */
  datatype Sample = Sample(token: int, sha: Digest, repeats: bool)

  function Worker(x: Sample, stage: Stage): Uploader {
    Uploader(PROBLEM, 1, x.token, None, PATH, {}, x.repeats, One(x.sha), stage)
  }

  /** The problem is clean and never was READY, and its folder holds one file. */
  predicate Calm(w: World, sha: Digest) {
    && PROBLEM in w.problems && !w.problems[PROBLEM].dirty
    && PROBLEM in w.usage && w.usage[PROBLEM] == Usage(None, false, None)
    && PROBLEM in w.folders && w.folders[PROBLEM] == One(sha)
    && w.collectors == map[] && w.marks == map[] && w.retention == DEFAULTS
    && forall key :: key in w.store && key.Content? ==> w.store[key] == Raw(key.sha.preimage)
  }

  /** And a snapshot worker's token is current. */
  predicate Quiet(w: World, x: Sample) {
    Calm(w, x.sha) && Fresh(w, PROBLEM, x.token) && Works(w.leases, PROBLEM, x.token, SnapshotOp)
  }

  /** The only row there is, if any, is row 0 of generation 1. */
  predicate OnlyRow(w: World) {
    && w.snapshots.Keys <= {0} && (0 in w.snapshots ==>
         SameGeneration(w, 0, PROBLEM, 1) && w.snapshots[0].state == Error)
    && (0 !in w.snapshots ==> w.nextSnapshot == 0)
  }

  /** Row 0 is being uploaded: its state and the stage of its upload. */
  predicate At(w: World, x: Sample, state: SnapshotState, stage: Stage) {
    && w.snapshots.Keys == {0} && SameGeneration(w, 0, PROBLEM, 1) && w.snapshots[0].state == state
    && w.uploaders.Keys == {0} && w.uploaders[0] == Worker(x, stage)
  }

  predicate SameElse(w: World, v: World) {
    v.restores == w.restores && v.evicted == w.evicted && v.leases == w.leases && v.now == w.now
  }

  lemma ClaimsRow(sparing: bool, w0: World, x: Sample) returns (w: World)
    requires Reachable(sparing, w0) && Quiet(w0, x) && OnlyRow(w0) && w0.uploaders == map[]
    ensures Reachable(sparing, w) && Quiet(w, x) && At(w, x, Discovered, Claimed) && SameElse(w0, w)
            && w.store == w0.store
  {
    hide Reachable, Quiet, OnlyRow, At;
    Extend(sparing, w0, Upload(Claim(PROBLEM, 1, x.token, None, PATH, {}, x.repeats, One(x.sha))));
    Claims(w0, x);
    w := AfterClaim(w0, 0, Worker(x, Claimed));
  }

  lemma Claims(w: World, x: Sample)
    requires Quiet(w, x) && OnlyRow(w) && w.uploaders == map[]
    ensures CanClaim(w, PROBLEM, 1, x.token) && ClaimedId(w, PROBLEM, 1) == 0
    ensures var v := AfterClaim(w, 0, Worker(x, Claimed));
            Quiet(v, x) && At(v, x, Discovered, Claimed) && SameElse(w, v)
  {
  }

  lemma StartsHashing(sparing: bool, w0: World, x: Sample) returns (w: World)
    requires Reachable(sparing, w0) && Quiet(w0, x) && At(w0, x, Discovered, Claimed)
    ensures Reachable(sparing, w) && Quiet(w, x) && At(w, x, Hashing, HashingFiles)
            && w.snapshots[0].files == map[] && SameElse(w0, w) && w.store == w0.store
  {
    hide Reachable, Passes;
    var w1 := ClearsRows(sparing, w0, x);
    Extend(sparing, w1, Upload(StartHashing(0)));
    w := AfterStartHashing(w1, 0);
  }

  lemma ClearsRows(sparing: bool, w0: World, x: Sample) returns (w: World)
    requires Reachable(sparing, w0) && Quiet(w0, x) && At(w0, x, Discovered, Claimed)
    ensures Reachable(sparing, w) && Quiet(w, x) && At(w, x, Discovered, RowsCleared)
            && w.snapshots[0].files == map[] && SameElse(w0, w) && w.store == w0.store
  {
    hide Reachable, Passes;
    Extend(sparing, w0, Upload(ClearRows(0)));
    w := AfterClearRows(w0, 0);
  }

  lemma Prepares(sparing: bool, w0: World, x: Sample) returns (w: World)
    requires Reachable(sparing, w0) && Quiet(w0, x) && At(w0, x, Hashing, HashingFiles)
             && w0.snapshots[0].files == map[]
    ensures Reachable(sparing, w) && Quiet(w, x)
            && At(w, x, SnapshotState.Uploading, UploadingFiles({}, {})) && SameElse(w0, w)
    ensures w.snapshots[0].files == One(x.sha) && w.snapshots[0].manifest == Some(MANIFEST)
    ensures w.store == w0.store && w.snapshots[0].createdAt == w0.snapshots[0].createdAt
  {
    hide Reachable, UploadKey, Passes;
    Extend(sparing, w0, Upload(Prepare(0)));
    assert CanPrepare(w0, 0);
    w := AfterPrepare(w0, 0);
    assert map[] + One(x.sha) == One(x.sha);
  }

  lemma Puts(sparing: bool, w0: World, x: Sample) returns (w: World)
    requires Reachable(sparing, w0) && Quiet(w0, x)
             && At(w0, x, SnapshotState.Uploading, UploadingFiles({}, {}))
             && w0.snapshots[0].files == One(x.sha)
    ensures Reachable(sparing, w) && Quiet(w, x)
            && At(w, x, SnapshotState.Uploading, UploadingFiles({PATH}, {})) && SameElse(w0, w)
    ensures w.snapshots[0].files == One(x.sha) && Content(x.sha) in w.store
  {
    hide Reachable, Passes;
    Extend(sparing, w0, Upload(Place(0, PATH)));
    assert CanPlace(w0, 0, PATH);
    w := AfterPlace(w0, 0, PATH);
    assert {} + {PATH} == {PATH};
  }

  lemma Records(sparing: bool, w0: World, x: Sample) returns (w: World)
    requires Reachable(sparing, w0) && Quiet(w0, x)
             && At(w0, x, SnapshotState.Uploading, UploadingFiles({PATH}, {}))
             && w0.snapshots[0].files == One(x.sha)
    requires Content(x.sha) in w0.store
    ensures Reachable(sparing, w) && Quiet(w, x) && SameElse(w0, w)
            && At(w, x, SnapshotState.Uploading, UploadingFiles({PATH}, {PATH}))
    ensures w.snapshots[0].files == One(x.sha) && Content(x.sha) in w.store
  {
    hide Reachable, Passes;
    Extend(sparing, w0, Upload(Record(0, PATH)));
    assert CanRecord(w0, 0, PATH);
    w := AfterRecord(w0, 0, PATH);
    assert w.snapshots[0].files == One(x.sha);
    assert {} + {PATH} == {PATH};
  }

  lemma Verifies(sparing: bool, w0: World, x: Sample) returns (w: World)
    requires Reachable(sparing, w0) && Quiet(w0, x)
             && At(w0, x, SnapshotState.Uploading, UploadingFiles({PATH}, {PATH}))
             && w0.snapshots[0].files == One(x.sha)
    requires Content(x.sha) in w0.store
    ensures Reachable(sparing, w) && Quiet(w, x) && At(w, x, Verifying, VerifyingFiles)
            && SameElse(w0, w)
    ensures w.snapshots[0].files == One(x.sha) && Content(x.sha) in w.store
  {
    hide Reachable, Passes;
    Extend(sparing, w0, Upload(StartVerifying(0)));
    assert One(x.sha).Keys == {PATH};
    assert CanStartVerifying(w0, 0);
    w := AfterStartVerifying(w0, 0);
  }

  lemma PutsManifest(sparing: bool, w0: World, x: Sample) returns (w: World)
    requires Reachable(sparing, w0) && Quiet(w0, x) && At(w0, x, Verifying, VerifyingFiles)
             && w0.snapshots[0].files == One(x.sha)
    requires Content(x.sha) in w0.store
    ensures Reachable(sparing, w) && Quiet(w, x)
            && At(w, x, Verifying, ManifestStored) && SameElse(w0, w)
    ensures w.snapshots[0].files == One(x.sha) && Content(x.sha) in w.store
    ensures MANIFEST in w.store && w.store[MANIFEST] == ManifestDoc(One(x.sha), x.repeats)
  {
    hide Reachable, Passes;
    Extend(sparing, w0, Upload(PutManifest(0)));
    w := AfterPutManifest(w0, 0);
  }

  /** One upload up to the final transaction. */
  lemma Uploads1(sparing: bool, w0: World, x: Sample) returns (w: World)
    requires Reachable(sparing, w0) && Quiet(w0, x) && OnlyRow(w0) && w0.uploaders == map[]
    ensures Reachable(sparing, w) && Quiet(w, x)
            && At(w, x, Verifying, ManifestStored) && SameElse(w0, w)
    ensures w.snapshots[0].files == One(x.sha) && Content(x.sha) in w.store
    ensures MANIFEST in w.store && w.store[MANIFEST] == ManifestDoc(One(x.sha), x.repeats)
  {
    hide Reachable, Quiet, At, OnlyRow;
    w := ClaimsRow(sparing, w0, x);
    w := StartsHashing(sparing, w, x);
    w := Prepares(sparing, w, x);
    w := Puts(sparing, w, x);
    w := Records(sparing, w, x);
    w := Verifies(sparing, w, x);
    w := PutsManifest(sparing, w, x);
  }

  /** The final transaction: the file is READY and in the folder. */
  predicate Finished(w: World, x: Sample) {
    && w.snapshots.Keys == {0} && w.snapshots[0].files == One(x.sha) && w.snapshots[0].generation == 1
    && IsReady(w, PROBLEM, 0) && PROBLEM in w.problems && !w.problems[PROBLEM].dirty
    && PROBLEM in w.folders && w.folders[PROBLEM] == One(x.sha)
    && PROBLEM in w.usage && w.usage[PROBLEM] == Usage(Some(1), true, None)
  }

  lemma Finishes(sparing: bool, w0: World, x: Sample) returns (w: World)
    requires Reachable(sparing, w0) && Quiet(w0, x) && At(w0, x, Verifying, ManifestStored)
    requires w0.snapshots[0].files == One(x.sha)
    ensures Reachable(sparing, w) && Finished(w, x) && SameElse(w0, w) && w.store == w0.store
            && w.retention == w0.retention && w.uploaders == map[]
  {
    hide Reachable, Passes;
    Extend(sparing, w0, Upload(Finalize(0)));
    assert CanFinalize(w0, 0);
    w := AfterFinalize(w0, 0);
    assert One(x.sha) + One(x.sha) == One(x.sha);
  }

  lemma Evicts(sparing: bool, w0: World, x: Sample, token: int) returns (w: World)
    requires Reachable(sparing, w0) && Finished(w0, x)
    requires Fresh(w0, PROBLEM, token) && Works(w0.leases, PROBLEM, token, EvictOp)
    ensures Reachable(sparing, w) && w == AfterEvict(w0, PROBLEM)
  {
    hide Reachable, Passes, Works;
    assert CanEvict(w0, PROBLEM, token, 0, None);
    Extend(sparing, w0, Folder(Evict(PROBLEM, token, 0, None)));
    w := AfterEvict(w0, PROBLEM);
  }

  // ---------------------------------------------------------------- one job after the other

  /** The start of the run, by the clock. */
  ghost predicate Early(w: World) {
    w.now == 0 && w.retention == DEFAULTS && PROBLEM in w.problems && LeasesOk(w.leases)
  }

  predicate IsDone(row: JobRow) {
    row.stage == Closed && row.updatedAt == 0
  }

  predicate AllDone(l: Leases) {
    forall id :: id in l.jobs ==> IsDone(l.jobs[id])
  }

  /** Job `id` runs, under the newest token. */
  predicate Busy(l: Leases, id: JobId, op: Operation) {
    && IsLeased(l, id) && (forall other :: other in l.jobs && other != id ==> IsDone(l.jobs[other]))
    && Passes(l, PROBLEM, Newest(l, PROBLEM)) && Works(l, PROBLEM, Newest(l, PROBLEM), op)
  }

  lemma Does(sparing: bool, w0: World, job: JobStep) returns (w: World)
    requires Reachable(sparing, w0) && !job.Stop? && PROBLEM in w0.problems && (job.Create? ==> job.p == PROBLEM)
    requires sparing ==> !Deletes(job)
    ensures Reachable(sparing, w) && w == w0.(leases := AfterJob(w0.leases, w0.now, w0.retention.jobs, job))
    ensures LeasesOk(w0.leases) ==> LeasesOk(w.leases)
  {
    hide Reachable, AfterJob, LeasesOk;
    Extend(sparing, w0, Table(Work(job)));
    w := AfterWork(w0, job);
    if LeasesOk(w0.leases) { JobKeepsOk(w0.leases, w0.now, w0.retention.jobs, job); }
  }

  /** A job is created and leased under the next token, and its worker starts. */
  lemma Launches(sparing: bool, w0: World, op: Operation) returns (w: World)
    requires Reachable(sparing, w0) && Early(w0) && AllDone(w0.leases)
    ensures Reachable(sparing, w) && Early(w) && w == w0.(leases := w.leases)
    ensures Busy(w.leases, w0.leases.nextJob, op) && Newest(w.leases, PROBLEM) == Newest(w0.leases, PROBLEM) + 1
  {
    LaunchIsBusy(w0.leases, op);
    hide Reachable, AfterJob, LeasesOk, Busy, AllDone;
    w := Does(sparing, w0, Create(w0.leases.nextJob, PROBLEM, op));
    w := Does(sparing, w, Lease(w0.leases.nextJob, 0));
    w := Does(sparing, w, JobStep.Start(w0.leases.nextJob));
  }

  lemma LaunchIsBusy(l: Leases, op: Operation)
    requires LeasesOk(l) && AllDone(l)
    ensures var created := AfterJob(l, 0, DEFAULTS.jobs, Create(l.nextJob, PROBLEM, op));
            var leased := AfterJob(created, 0, DEFAULTS.jobs, Lease(l.nextJob, 0));
            var v := AfterJob(leased, 0, DEFAULTS.jobs, JobStep.Start(l.nextJob));
            Busy(v, l.nextJob, op) && Newest(v, PROBLEM) == Newest(l, PROBLEM) + 1
  {
    forall id | id in l.jobs
      ensures id != l.nextJob && (l.jobs[id].problem == PROBLEM ==> l.jobs[id].token <= Newest(l, PROBLEM))
    {
      assert RowOk(l, id);
    }
  }

  lemma Closes(sparing: bool, w0: World, id: JobId, op: Operation) returns (w: World)
    requires Reachable(sparing, w0) && Early(w0) && Busy(w0.leases, id, op)
    ensures Reachable(sparing, w) && Early(w) && AllDone(w.leases) && w == w0.(leases := w.leases)
    ensures Newest(w.leases, PROBLEM) == Newest(w0.leases, PROBLEM)
  {
    hide Reachable, LeasesOk, Passes, Works;
    w := Does(sparing, w0, Close(id));
  }

  lemma Begins(sparing: bool) returns (w: World)
    ensures Reachable(sparing, w) && Calm(w, FIRST) && Early(w) && w.snapshots == map[] && w.nextSnapshot == 0
    ensures w.uploaders == map[] && w.store == map[] && w.restores == map[] && w.evicted == map[]
    ensures w.leases == NO_LEASES
  {
    Start(sparing);
    hide Reachable;
    var w0 := Init(DEFAULTS, 0);
    Extend(sparing, w0, Table(AddProblem(PROBLEM)));
    var w1 := AfterAdd(w0, PROBLEM);
    Extend(sparing, w1, Folder(WriteFolder(PROBLEM, One(FIRST))));
    w := AfterWrite(w1, PROBLEM, One(FIRST));
  }
}
