/**
 What the fence is worth over whole runs, with every purge that the retention of jobs may make: who has been overtaken
 is refused exactly as long as the purges leave a larger row above the tokens that are still held.
 */
module FenceRuns {
  import opened Common
  import opened JobLeases
  import opened Storage
  import opened LocalCopies

  predicate IsWork(step: Step) {
    step.Table? && step.table.Work?
  }

  predicate IsPurge(step: Step) {
    IsWork(step) && Deletes(step.table.job)
  }

  // ---------------------------------------------------------------- what holds whatever is purged

  /** Uploads and restores go on under tokens that were leased for them, and every job is of a problem there is. */
  ghost predicate WorkersOk(w: World) {
    && LeasesOk(w.leases)
    && UploadersWork(w.uploaders, w.leases)
    && (forall r :: r in w.restores ==> Works(w.leases, w.restores[r].problem, w.restores[r].token, RestoreOp))
    && Known(w.leases, w.problems.Keys)
  }

  ghost predicate Known(l: Leases, problems: set<ProblemId>) {
    (forall k :: k in l.holders ==> k.0 in problems) && (forall id :: id in l.jobs ==> l.jobs[id].problem in problems)
  }

  ghost predicate UploadersWork(uploaders: map<SnapshotId, Uploader>, l: Leases) {
    forall s :: s in uploaders ==> Works(l, uploaders[s].problem, uploaders[s].token, SnapshotOp)
  }

  /** The step of an upload leaves jobs, restores and the list of problems alone, and starts with a worker's token. */
  ghost predicate KeepsWorkers(w: World, v: World) {
    && v.leases == w.leases && v.restores == w.restores && v.problems.Keys == w.problems.Keys
    && (UploadersWork(w.uploaders, w.leases) ==> UploadersWork(v.uploaders, v.leases))
  }

  lemma StagesKeepWorkers(w: World, s: SnapshotId)
    requires s in w.uploaders
    ensures KeepsWorkers(w, AfterClearRows(w, s)) && KeepsWorkers(w, AfterStartHashing(w, s))
  {
    hide Works;
  }

  lemma LateStagesKeepWorkers(w: World, s: SnapshotId)
    requires s in w.uploaders
    ensures KeepsWorkers(w, AfterStartVerifying(w, s)) && KeepsWorkers(w, AfterPutManifest(w, s))
  {
    hide VerifyingRow, Works;
  }

  lemma PrepareKeepsWorkers(w: World, s: SnapshotId)
    requires CanPrepare(w, s)
    ensures KeepsWorkers(w, AfterPrepare(w, s))
  {
    hide Unclaimed, Works, HoldsLock, UploadKey;
  }

  lemma PlaceKeepsWorkers(w: World, s: SnapshotId, path: RelPath)
    requires CanPlace(w, s, path)
    ensures KeepsWorkers(w, AfterPlace(w, s, path))
  {
    hide Works;
  }

  lemma RecordKeepsWorkers(w: World, s: SnapshotId, path: RelPath)
    requires CanRecord(w, s, path)
    ensures KeepsWorkers(w, AfterRecord(w, s, path))
  {
    hide Works;
  }

  lemma EndsKeepWorkers(w: World, s: SnapshotId)
    ensures CanFinalize(w, s) ==> KeepsWorkers(w, AfterFinalize(w, s))
    ensures KeepsWorkers(w, AfterFail(w, s)) && KeepsWorkers(w, w.(uploaders := w.uploaders - {s}))
  {
    hide FinalizedRows, Works, Fresh;
  }

  lemma ClaimKeepsWorkers(w: World, s: SnapshotId, u: Uploader)
    requires Works(w.leases, u.problem, u.token, SnapshotOp)
    ensures KeepsWorkers(w, AfterClaim(w, s, u))
  {
    hide ClaimedRow, Works;
  }

  lemma UploadStepKeepsWorkers(w: World, step: UploadStep)
    ensures KeepsWorkers(w, AfterUpload(w, step))
  {
    hide KeepsWorkers, AfterClaim, AfterPrepare, AfterFinalize, AfterRecord, AfterClearRows, AfterStartHashing,
      AfterStartVerifying, AfterFail, AfterPutManifest, AfterPlace, ClaimedId, CanRecord, CanPlace, CanFinalize,
      CanPrepare;
    SameKeepsWorkers(w);
    match step
    case Claim(p, generation, token, expected, canonical, links, repeats, scan) =>
      if CanClaim(w, p, generation, token) {
        ClaimKeepsWorkers(w, ClaimedId(w, p, generation),
                          Uploader(p, generation, token, expected, canonical, links, repeats, scan, Claimed));
      }
    case Place(s, path) => if CanPlace(w, s, path) { PlaceKeepsWorkers(w, s, path); }
    case Record(s, path) => if CanRecord(w, s, path) { RecordKeepsWorkers(w, s, path); }
    case Prepare(s) => if CanPrepare(w, s) { PrepareKeepsWorkers(w, s); }
    case Finalize(s) => EndsKeepWorkers(w, s);
    case Crash(s) => EndsKeepWorkers(w, s);
    case Fail(s) => EndsKeepWorkers(w, s);
    case ClearRows(s) => if AtStage(w, s, Claimed) { StagesKeepWorkers(w, s); }
    case StartHashing(s) => if AtStage(w, s, RowsCleared) { StagesKeepWorkers(w, s); }
    case StartVerifying(s) => if CanStartVerifying(w, s) { LateStagesKeepWorkers(w, s); }
    case PutManifest(s) => if AtStage(w, s, VerifyingFiles) { LateStagesKeepWorkers(w, s); }
  }

  lemma SameKeepsWorkers(w: World)
    ensures KeepsWorkers(w, w)
  {
  }

  lemma UploadKeepsWorkers(w: World, step: UploadStep)
    requires WorkersOk(w)
    ensures WorkersOk(AfterUpload(w, step)) && AfterUpload(w, step).leases == w.leases
  {
    assert KeepsWorkers(w, AfterUpload(w, step)) by { UploadStepKeepsWorkers(w, step); }
    hide LeasesOk, Works, AfterUpload;
  }

  lemma CollectKeepsWorkers(w: World, step: CollectStep)
    requires WorkersOk(w)
    ensures WorkersOk(AfterCollect(w, step)) && AfterCollect(w, step).leases == w.leases
  {
    hide LeasesOk, Known, LiveRef, Eligible, KeyLocked;
  }

  lemma FolderKeepsWorkers(w: World, step: FolderStep)
    requires WorkersOk(w)
    ensures WorkersOk(AfterFolder(w, step)) && AfterFolder(w, step).leases == w.leases
  {
    hide LeasesOk, Known, Passes, CanEvict, CanDownload;
  }

  lemma WorkKeepsWorkers(w: World, job: JobStep)
    requires WorkersOk(w) && CanWork(w, job)
    ensures WorkersOk(AfterWork(w, job))
  {
    hide LeasesOk, AfterJob, Works, CanWork;
    JobKeepsOk(w.leases, w.now, w.retention.jobs, job);
    JobKeepsKnown(w, job);
    forall p, token, op | InUse(w, p, token) && Works(w.leases, p, token, op)
      ensures Works(AfterWork(w, job).leases, p, token, op)
    {
      WorkerStays(w, job, p, token, op);
    }
  }

  lemma JobKeepsKnown(w: World, job: JobStep)
    requires Known(w.leases, w.problems.Keys) && CanWork(w, job)
    ensures Known(AfterWork(w, job).leases, w.problems.Keys)
  {
  }

  lemma StepKeepsWorkers(w: World, step: Step)
    requires WorkersOk(w)
    ensures WorkersOk(After(w, step)) && (!IsWork(step) ==> After(w, step).leases == w.leases)
  {
    hide AfterUpload, AfterCollect, AfterFolder, AfterWork;
    match step
    case Upload(upload) => UploadKeepsWorkers(w, upload);
    case Collect(collect) => CollectKeepsWorkers(w, collect);
    case Folder(folder) => FolderKeepsWorkers(w, folder);
    case Table(table) => TableKeepsWorkers(w, table);
  }

  predicate SameButRows(w: World, v: World) {
    v.leases == w.leases && v.uploaders == w.uploaders && v.restores == w.restores && w.problems.Keys <= v.problems.Keys
  }

  lemma RetainKeepsWorkers(w: World)
    ensures SameButRows(w, AfterRetain(w)) && SameButRows(w, AfterSweep(w)) && SameButRows(w, w)
  {
    hide Prunable, ProposedMarks, Written, Owner, Stalled;
  }

  lemma TickKeepsWorkers(w: World, seconds: nat)
    ensures SameButRows(w, w.(now := w.now + seconds))
  {
  }

  lemma AddKeepsWorkers(w: World, p: ProblemId)
    ensures SameButRows(w, AfterAdd(w, p))
  {
  }

  lemma DirtyKeepsWorkers(w: World, p: ProblemId, generation: Option<int>)
    requires p in w.problems
    ensures SameButRows(w, AfterMarkDirty(w, p, generation))
    ensures SameButRows(w, AfterSetDirty(w, p, generation))
  {
  }

  lemma UsageKeepsWorkers(w: World, p: ProblemId, s: SnapshotId)
    requires s in w.snapshots && p in w.usage
    ensures SameButRows(w, AfterHeal(w, p, s)) && SameButRows(w, AfterVerifyLocal(w, p, s))
  {
  }

  /** Tables and clocks beside the jobs. */
  lemma OtherTablesKeepWorkers(w: World, step: TableStep)
    requires !step.Work?
    ensures SameButRows(w, AfterTable(w, step))
  {
    hide SameButRows, AfterRetain, AfterSweep, AfterAdd, AfterMarkDirty,
      AfterSetDirty, AfterHeal, AfterVerifyLocal;
    RetainKeepsWorkers(w);
    match step
    case Tick(seconds) => TickKeepsWorkers(w, seconds);
    case AddProblem(p) => AddKeepsWorkers(w, p);
    case MarkDirty(p, generation) => if p in w.problems { DirtyKeepsWorkers(w, p, generation); }
    case Redirty(p, generation) => if HasNoReady(w, p) { DirtyKeepsWorkers(w, p, Some(generation)); }
    case SweepDirty(p) => if HasNoReady(w, p) { DirtyKeepsWorkers(w, p, None); }
    case HealUsage(p, s) => if CanHeal(w, p, s) { UsageKeepsWorkers(w, p, s); }
    case VerifyLocal(p, s) => if CanVerifyLocal(w, p, s) { UsageKeepsWorkers(w, p, s); }
    case _ =>
  }

  lemma TableKeepsWorkers(w: World, step: TableStep)
    requires WorkersOk(w)
    ensures WorkersOk(AfterTable(w, step)) && (!step.Work? ==> AfterTable(w, step).leases == w.leases)
  {
    if !step.Work? {
      OtherTablesKeepWorkers(w, step);
      hide LeasesOk, Works, AfterTable;
    } else if CanWork(w, step.job) {
      WorkKeepsWorkers(w, step.job);
    }
  }

  lemma {:induction false} RunKeepsWorkers(w: World, run: seq<Step>)
    requires WorkersOk(w)
    ensures WorkersOk(Exec(w, run))
    decreases |run|
  {
    hide WorkersOk, After;
    if run != [] {
      StepKeepsWorkers(w, run[0]);
      RunKeepsWorkers(After(w, run[0]), run[1..]);
    }
  }

  // ---------------------------------------------------------------- the fence over runs

  /** The fence is up before the run and after each of its steps. */
  ghost predicate AlwaysFenced(w: World, run: seq<Step>)
    decreases |run|
  {
    FenceHolds(w.leases) && (run == [] || AlwaysFenced(After(w, run[0]), run[1..]))
  }

  ghost predicate PurgesSpare(w: World, run: seq<Step>)
    decreases |run|
  {
    run == [] || ((run[0].Table? ==> PurgeSpares(w, run[0].table)) && PurgesSpare(After(w, run[0]), run[1..]))
  }

  lemma WorkKeepsFence(w: World, job: JobStep)
    requires LeasesOk(w.leases) && FenceHolds(w.leases)
    ensures FenceHolds(AfterTable(w, Work(job)).leases) <==> PurgeSpares(w, Work(job))
  {
    hide LeasesOk, FenceHolds, Spares, AfterJob;
    JobKeepsFence(w.leases, w.now, w.retention.jobs, job);
  }

  lemma StepKeepsFence(w: World, step: Step)
    requires WorkersOk(w) && FenceHolds(w.leases)
    ensures FenceHolds(After(w, step).leases) <==> (step.Table? ==> PurgeSpares(w, step.table))
  {
    StepKeepsWorkers(w, step);
    assert LeasesOk(w.leases);
    hide LeasesOk, FenceHolds, Spares, WorkersOk, AfterUpload, AfterCollect, AfterFolder, AfterTable;
    if IsWork(step) {
      WorkKeepsFence(w, step.table.job);
    }
  }

  /** Over any run at all the fence stays up exactly when each purge spares what it needs. */
  lemma {:induction false} FencedExactlyWhenSparing(w: World, run: seq<Step>)
    requires WorkersOk(w) && FenceHolds(w.leases)
    ensures AlwaysFenced(w, run) <==> PurgesSpare(w, run)
    decreases |run|
  {
    hide WorkersOk, After, FenceHolds, PurgeSpares;
    if run != [] {
      StepKeepsFence(w, run[0]);
      StepKeepsWorkers(w, run[0]);
      if FenceHolds(After(w, run[0]).leases) {
        FencedExactlyWhenSparing(After(w, run[0]), run[1..]);
      }
    }
  }

  // ---------------------------------------------------------------- who may act

  /** A step that claims or finishes an upload, or begins or publishes a restore, under an overtaken token. */
  ghost predicate ActsStale(w: World, step: Step) {
    match step
    case Upload(Claim(p, generation, token, _, _, _, _, _)) =>
      CanClaim(w, p, generation, token) && Overtaken(w.leases, p, token)
    case Upload(Finalize(s)) =>
      CanFinalize(w, s) && Overtaken(w.leases, w.uploaders[s].problem, w.uploaders[s].token)
    case Folder(BeginRestore(r, p, token)) => CanBegin(w, r, p, token) && Overtaken(w.leases, p, token)
    case Folder(Publish(r, s)) =>
      CanPublish(w, r, s) && Overtaken(w.leases, w.restores[r].problem, w.restores[r].token)
    case _ => false
  }

  ghost predicate NoPurge(run: seq<Step>) {
    forall i :: 0 <= i < |run| ==> !IsPurge(run[i])
  }

  /** Some continuation, without another purge, comes to such a step. */
  ghost predicate LetsStaleAct(w: World) {
    exists run, step :: NoPurge(run) && ActsStale(Exec(w, run), step)
  }

  predicate MovesFiles(l: Leases, p: ProblemId, token: int) {
    (p, token) in l.holders && (l.holders[(p, token)] == SnapshotOp || l.holders[(p, token)] == RestoreOp)
  }

  /** The token of a snapshot or restore worker that the fence should refuse and does not. */
  predicate SlipsWithFiles(l: Leases, p: ProblemId, token: int) {
    Slips(l, p, token) && MovesFiles(l, p, token)
  }

  lemma StaleActSlips(w: World, step: Step)
    requires WorkersOk(w) && ActsStale(w, step)
    ensures exists p, token :: SlipsWithFiles(w.leases, p, token)
  {
    match step
    case Upload(Claim(p, generation, token, _, _, _, _, _)) => assert SlipsWithFiles(w.leases, p, token);
    case Upload(Finalize(s)) =>
      var u := w.uploaders[s];
      assert SlipsWithFiles(w.leases, u.problem, u.token);
    case Folder(BeginRestore(r, p, token)) => assert SlipsWithFiles(w.leases, p, token);
    case Folder(Publish(r, s)) =>
      var st := w.restores[r];
      assert SlipsWithFiles(w.leases, st.problem, st.token);
  }

  lemma StepAddsNoSlip(w: World, step: Step, p: ProblemId, token: int)
    requires WorkersOk(w) && !IsPurge(step) && SlipsWithFiles(After(w, step).leases, p, token)
    ensures SlipsWithFiles(w.leases, p, token)
  {
    StepKeepsWorkers(w, step);
    hide WorkersOk, Slips, AfterJob;
    if IsWork(step) && CanWork(w, step.table.job) {
      var l, job := w.leases, step.table.job;
      assert Slips(AfterJob(l, w.now, w.retention.jobs, job), p, token);
      JobAddsNoSlip(l, w.now, w.retention.jobs, job, p, token);
    }
  }

  lemma JobAddsNoSlip(l: Leases, now: Time, keep: Keep, job: JobStep, p: ProblemId, token: int)
    requires LeasesOk(l) && !Deletes(job) && SlipsWithFiles(AfterJob(l, now, keep, job), p, token)
    ensures SlipsWithFiles(l, p, token)
  {
    hide Passes;
    NoNewSlip(l, now, keep, job, p, token);
  }

  lemma {:induction false} RunAddsNoSlip(w: World, run: seq<Step>, p: ProblemId, token: int)
    requires WorkersOk(w) && NoPurge(run) && SlipsWithFiles(Exec(w, run).leases, p, token)
    ensures SlipsWithFiles(w.leases, p, token)
    decreases |run|
  {
    hide WorkersOk, After, IsPurge, SlipsWithFiles;
    if run != [] {
      StepKeepsWorkers(w, run[0]);
      RunAddsNoSlip(After(w, run[0]), run[1..], p, token);
      StepAddsNoSlip(w, run[0], p, token);
    }
  }

  /** A started worker whose token slips can claim a new generation or begin a new restore. */
  lemma WorkerActs(w: World, p: ProblemId, token: int)
    requires WorkersOk(w) && SlipsWithFiles(w.leases, p, token) && (p, token) in w.leases.workers
    ensures exists step :: ActsStale(w, step)
  {
    if w.leases.holders[(p, token)] == SnapshotOp {
      var generations := {0} + set s | s in w.snapshots :: w.snapshots[s].generation;
      var generation := Maximum(generations) + 1;
      assert forall s :: s in w.snapshots ==> w.snapshots[s].generation in generations;
      assert CanClaim(w, p, generation, token);
      assert ActsStale(w, Upload(Claim(p, generation, token, None, "", {}, false, map[])));
    } else {
      var used: set<int> := {0} + set r | r in w.restores;
      var r: nat := Maximum(used) + 1;
      assert forall x :: x in w.restores ==> x in used;
      assert r !in used && r !in w.restores;
      assert CanBegin(w, r, p, token);
      assert ActsStale(w, Folder(BeginRestore(r, p, token)));
    }
  }

  lemma StartedSlips(l: Leases, v: Leases, p: ProblemId, token: int)
    requires v == l.(workers := v.workers) && (p, token) in v.workers && SlipsWithFiles(l, p, token)
    ensures SlipsWithFiles(v, p, token)
  {
  }

  /** Whoever holds a lease can start first. */
  lemma HolderStarts(w: World, p: ProblemId, token: int) returns (start: Step)
    requires WorkersOk(w) && SlipsWithFiles(w.leases, p, token) && (p, token) !in w.leases.workers
    ensures !IsPurge(start) && WorkersOk(After(w, start)) && SlipsWithFiles(After(w, start).leases, p, token)
    ensures (p, token) in After(w, start).leases.workers
  {
    hide Passes, WorkersOk, MovesFiles;
    var id :| id in w.leases.jobs && w.leases.jobs[id].stage == Leased && w.leases.jobs[id].problem == p
              && w.leases.jobs[id].token == token;
    start := Table(Work(JobStep.Start(id)));
    StepKeepsWorkers(w, start);
    var v := AfterWork(w, JobStep.Start(id));
    assert v.leases.workers == w.leases.workers + {(p, token)};
    StartedSlips(w.leases, v.leases, p, token);
  }

  lemma HolderActs(w: World, p: ProblemId, token: int)
    requires WorkersOk(w) && SlipsWithFiles(w.leases, p, token)
    ensures LetsStaleAct(w)
  {
    hide ActsStale, SlipsWithFiles, WorkersOk, After, IsPurge;
    if (p, token) in w.leases.workers {
      WorkerActs(w, p, token);
      var step :| ActsStale(w, step);
      assert NoPurge([]) && Exec(w, []) == w;
    } else {
      var start := HolderStarts(w, p, token);
      var v := After(w, start);
      WorkerActs(v, p, token);
      var step :| ActsStale(v, step);
      assert Exec(w, [start]) == Exec(v, [start][1..]) == v;
      assert NoPurge([start]);
    }
  }

  /** Nobody overtaken acts, from here to the next purge, exactly when no worker's token slips now. */
  lemma StaleActsExactly(w: World)
    requires WorkersOk(w)
    ensures LetsStaleAct(w) <==> exists p, token :: SlipsWithFiles(w.leases, p, token)
  {
    hide WorkersOk, SlipsWithFiles, ActsStale, Exec;
    if LetsStaleAct(w) {
      var run, step :| NoPurge(run) && ActsStale(Exec(w, run), step);
      RunKeepsWorkers(w, run);
      StaleActSlips(Exec(w, run), step);
      var p, token :| SlipsWithFiles(Exec(w, run).leases, p, token);
      RunAddsNoSlip(w, run, p, token);
    }
    if p, token :| SlipsWithFiles(w.leases, p, token) {
      HolderActs(w, p, token);
    }
  }

  /** The token of a snapshot or restore worker that was overtaken, and above which no row is left. */
  predicate Unfences(l: Leases, gone: set<JobId>, p: ProblemId, token: int) {
    Held(Without(l, gone), p, token) && MovesFiles(l, p, token) && Overtaken(l, p, token)
    && !KeepsAbove(l, gone, p, token)
  }

  /** After any run: a purge lets overtaken workers act later on exactly when it unfences one of them. */
  lemma PurgeLetsStaleActExactly(retention: Retention, now: Time, run: seq<Step>, purge: JobStep)
    requires Deletes(purge)
    ensures var w := Exec(Init(retention, now), run);
            LetsStaleAct(After(w, Table(Work(purge)))) <==>
            exists p, token :: Unfences(w.leases, Outdated(w.leases, w.now, w.retention.jobs, purge), p, token)
  {
    assert WorkersOk(Init(retention, now));
    RunKeepsWorkers(Init(retention, now), run);
    hide WorkersOk, LetsStaleAct, Exec, Slips, KeepsAbove, LeasesOk;
    hide SlipsWithFiles, Unfences, After, Spares, Outdated;
    var w := Exec(Init(retention, now), run);
    var v := After(w, Table(Work(purge)));
    StepKeepsWorkers(w, Table(Work(purge)));
    StaleActsExactly(v);
    forall p, token
      ensures SlipsWithFiles(v.leases, p, token) <==>
              Unfences(w.leases, Outdated(w.leases, w.now, w.retention.jobs, purge), p, token)
    {
      PurgeUnfences(w, purge, p, token);
    }
  }

  lemma PurgeUnfences(w: World, purge: JobStep, p: ProblemId, token: int)
    requires WorkersOk(w) && Deletes(purge)
    ensures SlipsWithFiles(After(w, Table(Work(purge))).leases, p, token) <==>
            Unfences(w.leases, Outdated(w.leases, w.now, w.retention.jobs, purge), p, token)
  {
    assert LeasesOk(w.leases);
    hide WorkersOk, Slips, Held, KeepsAbove, LeasesOk, Outdated;
    var gone := Outdated(w.leases, w.now, w.retention.jobs, purge);
    assert After(w, Table(Work(purge))).leases == Without(w.leases, gone);
    PurgeSlips(w.leases, gone, p, token);
  }
}
