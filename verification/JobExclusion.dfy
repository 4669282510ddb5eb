/** Which jobs may be active together, the retry budget, and the allocation of generations, over whole runs. */
module JobExclusion {
  import opened Common
  import opened JobQueue
  import opened JobFencing
  import opened JobRuns

  // ---------------------------------------------------------------- one operation a problem

  predicate LocalPair(a: Job, b: Job) {
    Active(a) && Active(b) && LocalType(a.request.jobType) && LocalType(b.request.jobType) && SameProblem(a, b)
  }

  predicate GlobalGc(job: Job) {
    Active(job) && job.request.jobType == GcCollect && job.request.problem.None?
  }

  /** Two active local jobs of a problem are a scan and a snapshot; gc_collect is active at most once. */
  ghost predicate Exclusive(jobs: map<JobId, Job>) {
    && (forall i, j :: i in jobs && j in jobs && i != j && LocalPair(jobs[i], jobs[j]) ==>
          Compatible(jobs[i].request.jobType, jobs[j].request.jobType))
    && (forall i, j :: i in jobs && j in jobs && GlobalGc(jobs[i]) && GlobalGc(jobs[j]) ==> i == j)
  }

  /** The active local jobs of a problem. */
  function ActiveSet(jobs: map<JobId, Job>, p: ProblemId): set<JobId> {
    set id | id in jobs && jobs[id].request.problem == Some(p) && LocalType(jobs[id].request.jobType)
      && Active(jobs[id])
  }

  /** None, one scan and one snapshot at most, a lone restore or a lone evict. */
  lemma ExclusiveShape(jobs: map<JobId, Job>, p: ProblemId, id: JobId, other: JobId)
    requires Exclusive(jobs) && id in ActiveSet(jobs, p) && other in ActiveSet(jobs, p)
    ensures jobs[id].request.jobType == jobs[other].request.jobType ==> id == other
    ensures jobs[id].request.jobType == Restore || jobs[id].request.jobType == Evict ==> ActiveSet(jobs, p) == {id}
  {
    assert id != other ==> LocalPair(jobs[id], jobs[other]);
    forall x | x in ActiveSet(jobs, p) && x != id
      ensures Compatible(jobs[id].request.jobType, jobs[x].request.jobType)
    {
      assert LocalPair(jobs[id], jobs[x]);
    }
  }

  /** Rows that are active afterwards were active before, with the same request. */
  ghost predicate Shrinks(jobs: map<JobId, Job>, after: map<JobId, Job>) {
    forall id :: id in after && Active(after[id]) ==>
      id in jobs && Active(jobs[id]) && after[id].request == jobs[id].request
  }

  lemma ShrinkingKeepsExclusive(jobs: map<JobId, Job>, after: map<JobId, Job>)
    requires Exclusive(jobs) && Shrinks(jobs, after)
    ensures Exclusive(after)
  {
  }

  /** The insert is refused unless the new row goes with every active one. */
  lemma InsertKeepsExclusive(q: Queue, r: Request)
    requires Exclusive(q.jobs) && q.nextId !in q.jobs && Inserts(q, r)
    ensures Exclusive(AfterCreate(q, r).jobs)
  {
    hide AnyKey, AnyActive;
    var id := q.nextId;
    forall j | j in q.jobs && LocalPair(NewJob(r), q.jobs[j])
      ensures Compatible(r.jobType, q.jobs[j].request.jobType)
    {
      assert !Incompatible(q, j, r);
    }
  }

  lemma CreateKeepsExclusive(q: Queue, r: Request)
    requires Exclusive(q.jobs) && q.nextId !in q.jobs
    ensures Exclusive(AfterCreate(q, r).jobs)
  {
    hide Exclusive, Inserts;
    if Inserts(q, r) { InsertKeepsExclusive(q, r); }
  }

  lemma RestoreIfMissingKeepsExclusive(q: Queue, r: Request, present: bool)
    requires Exclusive(q.jobs) && q.nextId !in q.jobs
    ensures Exclusive(AfterRestoreIfMissing(q, r, present).jobs)
  {
    hide Exclusive, Inserts, AfterCreate, AnyKey, AnyRestore;
    if r.problem.Some? {
      var cleared := WithoutPending(q, r.problem.value, {Scan, Snapshot});
      ShrinkingKeepsExclusive(q.jobs, cleared.jobs);
      CreateKeepsExclusive(cleared, r);
    }
  }

  /** The two operations that do not take the problem's operation lock. */
  predicate Bypasses(step: Step) {
    step.Retry? || step.Watch?
  }

  lemma RowShrinks(q: Queue, id: JobId, job: Job)
    requires id in q.jobs && job.request == q.jobs[id].request && (Active(job) ==> Active(q.jobs[id]))
    ensures Shrinks(q.jobs, SetJob(q, id, job).jobs)
  {
  }

  lemma BatchesShrink(q: Queue, p: ProblemId, types: set<JobType>, ids: set<JobId>)
    ensures Shrinks(q.jobs, q.jobs) && Shrinks(q.jobs, WithoutPending(q, p, types).jobs)
    ensures Shrinks(q.jobs, AfterExpire(q).jobs) && Shrinks(q.jobs, After(q, Purge(ids)).jobs)
  {
    hide RankedToken, FailableIds;
  }

  lemma RowStepsShrink(q: Queue, id: JobId, worker: string, lease: nat, outcome: JobState)
    requires id in q.jobs && Active(q.jobs[id])
    ensures Shrinks(q.jobs, AfterAcquire(q, id, worker, lease).jobs) && Shrinks(q.jobs, AfterRenew(q, id, lease).jobs)
    ensures Shrinks(q.jobs, AfterFinish(q, id, outcome).jobs) && Shrinks(q.jobs, AfterCancel(q, id).jobs)
    ensures Shrinks(q.jobs, AfterFailJob(q, id).jobs)
  {
    hide Shrinks;
    RowShrinks(q, id, AfterAcquire(q, id, worker, lease).jobs[id]);
    RowShrinks(q, id, AfterRenew(q, id, lease).jobs[id]);
    RowShrinks(q, id, AfterFinish(q, id, outcome).jobs[id]);
    RowShrinks(q, id, AfterCancel(q, id).jobs[id]);
    RowShrinks(q, id, AfterFailJob(q, id).jobs[id]);
  }

  lemma StepShrinks(q: Queue, step: Step)
    requires !Bypasses(step) && !step.Create? && !step.RestoreIfMissing?
    ensures Shrinks(q.jobs, After(q, step).jobs)
  {
    hide Shrinks, AfterAcquire, AfterRenew, AfterFinish, AfterCancel, AfterFailJob, AfterExpire, WithoutPending,
      RunningElsewhere;
    match step
    case TouchAccess(problem) => BatchesShrink(q, problem, {Evict}, {});
    case Acquire(id, worker, lease) =>
      BatchesShrink(q, "", {}, {});
      if CanAcquire(q, id) { RowStepsShrink(q, id, worker, lease, Failed); }
    case Renew(id, worker, token, lease) =>
      BatchesShrink(q, "", {}, {});
      if Live(q, id, worker, token) { RowStepsShrink(q, id, worker, lease, Failed); }
    case Finish(id, worker, token, outcome) =>
      BatchesShrink(q, "", {}, {});
      if Live(q, id, worker, token) { RowStepsShrink(q, id, worker, 0, outcome); }
    case Cancel(id) =>
      BatchesShrink(q, "", {}, {});
      if id in q.jobs && Active(q.jobs[id]) { RowStepsShrink(q, id, "", 0, Failed); }
    case FailJob(id, worker, token) =>
      BatchesShrink(q, "", {}, {});
      if Holder(q, id, worker, token) { RowStepsShrink(q, id, worker, 0, Failed); }
    case Purge(ids) => BatchesShrink(q, "", {}, ids);
    case _ => BatchesShrink(q, "", {}, {});
  }

  lemma StepKeepsExclusive(q: Queue, step: Step)
    requires Exclusive(q.jobs) && q.nextId !in q.jobs && !Bypasses(step)
    ensures Exclusive(After(q, step).jobs)
  {
    hide Exclusive, Shrinks, AfterCreate, AfterRestoreIfMissing, AfterExpire, AfterWatch, AfterAcquire, AfterCancel;
    match step
    case Create(request) => CreateKeepsExclusive(q, request);
    case RestoreIfMissing(request, present) => RestoreIfMissingKeepsExclusive(q, request, present);
    case _ =>
      StepShrinks(q, step);
      ShrinkingKeepsExclusive(q.jobs, After(q, step).jobs);
  }

  /** Over every run of the steps that take the lock, a problem's operations exclude each other. */
  lemma {:induction false} RunsExclude(q: Queue, run: seq<Step>)
    requires QueueInv(q) && Exclusive(q.jobs) && forall step :: step in run ==> !Bypasses(step)
    ensures Exclusive(Exec(q, run).jobs)
    decreases |run|
  {
    hide TokensOk, BudgetOk, RowOk, Exclusive, After, Bypasses;
    if run != [] {
      StepKeepsExclusive(q, run[0]);
      StepKeepsInv(q, run[0]);
      RunsExclude(After(q, run[0]), run[1..]);
    }
  }

  lemma OperationsExclude(now: Time, run: seq<Step>)
    requires forall step :: step in run ==> !Bypasses(step)
    ensures Exclusive(Exec(Init(now), run).jobs)
  {
    hide QueueInv;
    JobRuns.InitInv(now);
    RunsExclude(Init(now), run);
  }

  // ---------------------------------------------------------------- exactly when the bypasses keep exclusion

  /** Some other active local job of the problem does not go with this one. */
  predicate Clashes(q: Queue, id: JobId, job: Job) {
    exists other :: other in q.jobs && other != id && SameProblem(q.jobs[other], job) && Active(q.jobs[other])
                    && LocalType(q.jobs[other].request.jobType) && LocalType(job.request.jobType)
                    && !Compatible(job.request.jobType, q.jobs[other].request.jobType)
  }

  /** A retried job joins the active ones without asking: exclusion survives exactly when nothing clashes. */
  lemma RetryKeepsExclusive(q: Queue, id: JobId)
    requires Exclusive(q.jobs) && CanRetry(q, id)
    ensures Exclusive(AfterRetry(q, id).jobs) <==> !Clashes(q, id, q.jobs[id])
  {
    var v := AfterRetry(q, id);
    if Clashes(q, id, q.jobs[id]) {
      var other :| other in q.jobs && other != id && SameProblem(q.jobs[other], q.jobs[id]) && Active(q.jobs[other])
                   && LocalType(q.jobs[other].request.jobType) && LocalType(q.jobs[id].request.jobType)
                   && !Compatible(q.jobs[id].request.jobType, q.jobs[other].request.jobType);
      assert LocalPair(v.jobs[id], v.jobs[other]);
    }
  }

  ghost predicate Reached(q: Queue) {
    exists run :: Exec(Init(0), run) == q
  }

  lemma {:induction false} ExecSnoc(q: Queue, run: seq<Step>, step: Step)
    ensures Exec(q, run + [step]) == After(Exec(q, run), step)
    decreases |run|
  {
    hide After;
    if run == [] {
      assert run + [step] == [step] && [step][1..] == [];
    } else {
      ExecSnoc(After(q, run[0]), run[1..], step);
      assert (run + [step])[1..] == run[1..] + [step];
    }
  }

  lemma Reaches(q: Queue, step: Step)
    requires Reached(q)
    ensures Reached(After(q, step))
  {
    hide After;
    var run :| Exec(Init(0), run) == q;
    ExecSnoc(Init(0), run, step);
  }

  lemma StartIsReached()
    ensures Reached(Init(0))
  {
    assert Exec(Init(0), []) == Init(0);
  }

  lemma EvictionFails() returns (q: Queue)
    ensures Reached(q) && q.nextId == 1 && q.jobs.Keys == {0} && !q.paused
    ensures q.jobs[0].request == Request("evict", Evict, Some("p"), None, "") && q.jobs[0].state == Failed
    ensures q.jobs[0].attempt == 1 && q.jobs[0].maxAttempts == 3
  {
    hide Reached;
    StartIsReached();
    var evict := Request("evict", Evict, Some("p"), None, "");
    var q0 := Init(0);
    Reaches(q0, Create(evict));
    var q1 := AfterCreate(q0, evict);
    Reaches(q1, Acquire(0, "w", 10));
    assert CanAcquire(q1, 0);
    var q2 := AfterAcquire(q1, 0, "w", 10);
    Reaches(q2, Finish(0, "w", 1, Failed));
    q := AfterFinish(q2, 0, Failed);
    assert Live(q2, 0, "w", 1);
  }

  /** A failed eviction is retried while a snapshot is pending: both are active for the problem. */
  lemma RetryBreaksExclusion()
    ensures exists q :: Reached(q) && !Exclusive(q.jobs)
  {
    hide Reached, Exclusive;
    var snapshot := Request("snapshot", Snapshot, Some("p"), Some(1), "");
    var q0 := EvictionFails();
    Reaches(q0, Create(snapshot));
    assert Inserts(q0, snapshot);
    var q1 := AfterCreate(q0, snapshot);
    Reaches(q1, Retry(0));
    assert CanRetry(q1, 0);
    TwoActive(AfterRetry(q1, 0), 0, 1);
  }

  lemma TwoActive(q: Queue, i: JobId, j: JobId)
    requires i in q.jobs && j in q.jobs && i != j && LocalPair(q.jobs[i], q.jobs[j])
    requires !Compatible(q.jobs[i].request.jobType, q.jobs[j].request.jobType)
    ensures !Exclusive(q.jobs)
  {
  }

  /** The watcher's insert, likewise. */
  lemma WatchInsertKeepsExclusive(q: Queue, p: ProblemId, job: Job)
    requires Exclusive(q.jobs) && q.nextId !in q.jobs && Active(job) && job.request.jobType == Snapshot
    ensures Exclusive(AfterWatchInsert(q, p, job).jobs) <==> !Clashes(q, q.nextId, job)
  {
    var v := AfterWatchInsert(q, p, job);
    var id := q.nextId;
    if Clashes(q, id, job) {
      var other :| other in q.jobs && other != id && SameProblem(q.jobs[other], job) && Active(q.jobs[other])
                   && LocalType(q.jobs[other].request.jobType)
                      && !Compatible(job.request.jobType, q.jobs[other].request.jobType);
      assert LocalPair(v.jobs[id], v.jobs[other]);
    }
  }

  predicate OnlyEviction(q: Queue) {
    q.jobs == map[0 := NewJob(Request("evict", Evict, Some("p"), None, ""))] && q.nextId == 1
  }

  lemma EvictionPends() returns (q: Queue)
    ensures Reached(q) && OnlyEviction(q)
  {
    hide Reached;
    StartIsReached();
    var evict := Request("evict", Evict, Some("p"), None, "");
    var q0 := Init(0);
    Reaches(q0, Create(evict));
    q := AfterCreate(q0, evict);
  }

  lemma NothingInTheWay(q: Queue, job: Job)
    requires OnlyEviction(q) && job.request.jobType == Snapshot
    ensures !AnyPendingSnapshot(q, "p") && !ActiveTwin(q, 1, job) && !RunningElsewhere(q, 1, job)
    ensures !AnyKey(q, job.request)
  {
  }

  /** With no snapshot active and nothing running, the watcher inserts its job. */
  lemma WatchInserts(q: Queue, key: string)
    requires OnlyEviction(q)
    ensures var v := AfterWatch(q, "p", 0, 0, key, "w", 10);
            && v.jobs.Keys == {0, 1} && v.jobs[0] == q.jobs[0]
            && v.jobs[1].request.jobType == Snapshot && v.jobs[1].request.problem == Some("p")
            && v.jobs[1].state == Running
  {
    hide WatcherNext, WatcherNextToken, NextGeneration, NextToken, AnyPendingSnapshot, ActiveTwin, RunningElsewhere,
      AnyKey;
    var seeded := AfterSeed(q, "p", 0);
    NothingInTheWay(seeded, WatchJob(seeded, "p", key, NextGeneration(seeded, "p") - 1, "w", 10,
                                     NextToken(seeded, "p") - 1));
  }

  /** An eviction is pending when the watcher inserts its running snapshot: both are active for the problem. */
  lemma WatchBreaksExclusion()
    ensures exists q :: Reached(q) && !Exclusive(q.jobs)
  {
    hide Reached, Exclusive, AfterWatch;
    var q1 := EvictionPends();
    Reaches(q1, Watch("p", 0, 0, "rust-dirty", "w", 10));
    WatchInserts(q1, "rust-dirty");
    TwoActive(AfterWatch(q1, "p", 0, 0, "rust-dirty", "w", 10), 0, 1);
  }

  // ---------------------------------------------------------------- one running operation a problem

  predicate RunningPair(a: Job, b: Job) {
    a.state == Running && b.state == Running && LocalType(a.request.jobType) && LocalType(b.request.jobType)
      && SameProblem(a, b)
  }

  /** What idx_jobs_one_running_problem_operation keeps, in every run, whichever plane acts. */
  ghost predicate OneRunning(jobs: map<JobId, Job>) {
    forall i, j :: i in jobs && j in jobs && RunningPair(jobs[i], jobs[j]) ==> i == j
  }

  lemma StartKeepsOneRunning(q: Queue, id: JobId, job: Job)
    requires OneRunning(q.jobs) && !RunningElsewhere(q, id, job)
    ensures OneRunning(q.jobs[id := job])
  {
  }

  lemma StopKeepsOneRunning(jobs: map<JobId, Job>, after: map<JobId, Job>)
    requires OneRunning(jobs) && NoneStarts(jobs, after)
    ensures OneRunning(after)
  {
  }

  ghost predicate NoneStarts(jobs: map<JobId, Job>, after: map<JobId, Job>) {
    forall id :: id in after && after[id].state == Running ==>
      id in jobs && jobs[id].state == Running && jobs[id].request == after[id].request
  }

  lemma RowStaysStopped(q: Queue, id: JobId, job: Job)
    requires id in q.jobs && job.request == q.jobs[id].request && (job.state == Running ==> q.jobs[id].state == Running)
    ensures NoneStarts(q.jobs, SetJob(q, id, job).jobs)
  {
  }

  lemma SameStartNone(jobs: map<JobId, Job>)
    ensures NoneStarts(jobs, jobs)
  {
  }

  lemma ClearingStartsNone(q: Queue, p: ProblemId, types: set<JobType>)
    ensures NoneStarts(q.jobs, WithoutPending(q, p, types).jobs)
  {
  }

  lemma ExpiryStartsNone(q: Queue, ids: set<JobId>)
    ensures NoneStarts(q.jobs, AfterExpire(q).jobs) && NoneStarts(q.jobs, After(q, Purge(ids)).jobs)
  {
    hide RankedToken, FailableIds;
  }

  lemma CreateStartsNone(q: Queue, r: Request)
    ensures NoneStarts(q.jobs, AfterCreate(q, r).jobs)
  {
    hide Inserts;
  }

  lemma RestoreStartsNone(q: Queue, r: Request, present: bool)
    ensures NoneStarts(q.jobs, AfterRestoreIfMissing(q, r, present).jobs)
  {
    hide NoneStarts, Inserts, AnyKey, AnyRestore, AfterCreate, WithoutPending;
    SameStartNone(q.jobs);
    if r.problem.Some? {
      var cleared := WithoutPending(q, r.problem.value, {Scan, Snapshot});
      ClearingStartsNone(q, r.problem.value, {Scan, Snapshot});
      CreateStartsNone(cleared, r);
      StartsChain(q.jobs, cleared.jobs, AfterCreate(cleared, r).jobs);
    }
  }

  lemma StartsChain(a: map<JobId, Job>, b: map<JobId, Job>, c: map<JobId, Job>)
    requires NoneStarts(a, b) && NoneStarts(b, c)
    ensures NoneStarts(a, c)
  {
  }

  lemma LeasesStartNone(q: Queue, id: JobId, lease: nat, outcome: JobState)
    requires id in q.jobs
    ensures q.jobs[id].state == Running ==> NoneStarts(q.jobs, AfterRenew(q, id, lease).jobs)
    ensures Terminal(outcome) ==> NoneStarts(q.jobs, AfterFinish(q, id, outcome).jobs)
  {
    hide NoneStarts;
    if q.jobs[id].state == Running { RowStaysStopped(q, id, AfterRenew(q, id, lease).jobs[id]); }
    if Terminal(outcome) { RowStaysStopped(q, id, AfterFinish(q, id, outcome).jobs[id]); }
  }

  lemma EndsStartNone(q: Queue, id: JobId)
    requires id in q.jobs
    ensures NoneStarts(q.jobs, AfterRetry(q, id).jobs) && NoneStarts(q.jobs, AfterFailJob(q, id).jobs)
    ensures NoneStarts(q.jobs, AfterCancel(q, id).jobs)
  {
    hide NoneStarts;
    RowStaysStopped(q, id, AfterRetry(q, id).jobs[id]);
    RowStaysStopped(q, id, AfterFailJob(q, id).jobs[id]);
    RowStaysStopped(Issue(q, CounterOf(q.jobs[id]), id), id, AfterCancel(q, id).jobs[id]);
  }

  lemma WatchKeepsOneRunning(q: Queue, p: ProblemId, maxGeneration: int, id: JobId, key: string, worker: string,
    lease: nat)
    requires OneRunning(q.jobs)
    ensures OneRunning(AfterWatch(q, p, maxGeneration, id, key, worker, lease).jobs)
  {
    hide OneRunning, RunningElsewhere, ActiveTwin, AnyKey, WatcherNext, WatcherNextToken, AnyPendingSnapshot;
    var seeded := AfterSeed(q, p, maxGeneration);
    if PendingSnapshot(seeded, id, p) && !RunningElsewhere(seeded, id, seeded.jobs[id]) {
      SameLanes(seeded, id, seeded.jobs[id], AfterWatchClaim(seeded, id, worker, lease).jobs[id]);
      StartKeepsOneRunning(seeded, id, AfterWatchClaim(seeded, id, worker, lease).jobs[id]);
    }
    var job := WatchJob(seeded, p, key, NextGeneration(seeded, p) - 1, worker, lease, NextToken(seeded, p) - 1);
    if !RunningElsewhere(seeded, seeded.nextId, job) { StartKeepsOneRunning(seeded, seeded.nextId, job); }
  }

  lemma SameLanes(q: Queue, id: JobId, a: Job, b: Job)
    requires a.request == b.request
    ensures RunningElsewhere(q, id, a) == RunningElsewhere(q, id, b)
  {
  }

  lemma StepKeepsOneRunning(q: Queue, step: Step)
    requires OneRunning(q.jobs)
    ensures OneRunning(After(q, step).jobs)
  {
    hide OneRunning, NoneStarts, RunningElsewhere, ActiveTwin, AfterCreate, AfterRestoreIfMissing, AfterExpire,
      AfterWatch, AfterRenew, AfterFinish, AfterCancel, AfterRetry, AfterFailJob, WithoutPending;
    match step
    case Acquire(id, worker, lease) =>
      if CanAcquire(q, id) {
        SameLanes(q, id, q.jobs[id], AfterAcquire(q, id, worker, lease).jobs[id]);
        StartKeepsOneRunning(q, id, AfterAcquire(q, id, worker, lease).jobs[id]);
      }
    case Watch(p, maxGeneration, id, key, worker, lease) => WatchKeepsOneRunning(q, p, maxGeneration, id, key, worker,
      lease);
    case _ => StepStartsNone(q, step); StopKeepsOneRunning(q.jobs, After(q, step).jobs);
  }

  lemma StepStartsNone(q: Queue, step: Step)
    requires !step.Acquire? && !step.Watch?
    ensures NoneStarts(q.jobs, After(q, step).jobs)
  {
    hide NoneStarts, RunningElsewhere, ActiveTwin, AfterCreate, AfterRestoreIfMissing, AfterExpire, AfterWatch,
      AfterRenew, AfterFinish, AfterCancel, AfterRetry, AfterFailJob, WithoutPending;
    SameStartNone(q.jobs);
    match step
    case Create(request) => CreateStartsNone(q, request);
    case RestoreIfMissing(request, present) => RestoreStartsNone(q, request, present);
    case TouchAccess(problem) => ClearingStartsNone(q, problem, {Evict});
    case Renew(id, worker, token, lease) => if id in q.jobs { LeasesStartNone(q, id, lease, Failed); }
    case Finish(id, worker, token, outcome) => if id in q.jobs { LeasesStartNone(q, id, 0, outcome); }
    case Expire => ExpiryStartsNone(q, {});
    case Cancel(id) => if id in q.jobs { EndsStartNone(q, id); }
    case Retry(id) => if id in q.jobs { EndsStartNone(q, id); }
    case FailJob(id, worker, token) => if id in q.jobs { EndsStartNone(q, id); }
    case Purge(ids) => ExpiryStartsNone(q, ids);
    case _ =>
  }

  /** Over every run of every step, the bypasses included, at most one local operation of a problem is running. */
  lemma {:induction false} RunsRunOneAtATime(q: Queue, run: seq<Step>)
    requires OneRunning(q.jobs)
    ensures OneRunning(Exec(q, run).jobs)
    decreases |run|
  {
    hide OneRunning, After;
    if run != [] {
      StepKeepsOneRunning(q, run[0]);
      RunsRunOneAtATime(After(q, run[0]), run[1..]);
    }
  }

  // ---------------------------------------------------------------- the retry budget

  /** What the budget promises of one row in one state. */
  predicate WithinBudget(q: Queue, id: JobId)
    requires id in q.jobs
  {
    var job := q.jobs[id];
    && 1 <= job.attempt <= job.maxAttempts
    && Claims(q, id) == job.attempt - 1
    && (job.state == Pending && !q.paused ==> Acquirable(q, job))
    && (Expired(q, job) ==> (Acquirable(q, job) <==> !Failable(q, job)))
  }

  /** In every run: expiry re-acquisitions and watcher claims of a job never exceed max_attempts - 1. */
  lemma BudgetHolds(now: Time, run: seq<Step>, id: JobId)
    requires id in Exec(Init(now), run).jobs
    ensures WithinBudget(Exec(Init(now), run), id)
  {
    hide Exec, TokensOk;
    JobRuns.InitInv(now);
    JobRuns.RunKeepsInv(Init(now), run);
  }

  // ---------------------------------------------------------------- generations

  ghost predicate RisesBelow(s: seq<int>, bound: int) {
    (forall i, j :: 0 <= i < j < |s| ==> s[i] < s[j]) && forall i :: 0 <= i < |s| ==> s[i] < bound
  }

  function LastOf(handedOut: map<ProblemId, seq<int>>, p: ProblemId): seq<int> {
    if p in handedOut then handedOut[p] else []
  }

  /** What was handed out rises, and stays below the counter. */
  ghost predicate GenerationsOk(generations: map<ProblemId, int>, handedOut: map<ProblemId, seq<int>>) {
    forall p :: RisesBelow(LastOf(handedOut, p), Next(generations, p)) && Next(generations, p) >= 1
  }

  ghost predicate GenerationInv(q: Queue) {
    GenerationsOk(q.generations, q.handedOut)
  }

  /** The watcher's SQL computes allocate_counter_value, starting from 1 when there is no counter yet. */
  lemma WatcherAllocates(q: Queue, p: ProblemId, maxGeneration: int)
    requires GenerationInv(q)
    ensures (WatcherNext(q, p, maxGeneration) - 1, WatcherNext(q, p, maxGeneration))
            == AllocateCounterValue(NextGeneration(q, p), maxGeneration)
    ensures WatcherNext(q, p, maxGeneration) - 1 > maxGeneration
  {
    hide RisesBelow;
    assert Next(q.generations, p) >= 1;
  }

  lemma HandOutKeeps(q: Queue, p: ProblemId, x: int)
    requires GenerationInv(q) && NextGeneration(q, p) <= x
    ensures GenerationsOk(q.generations[p := x + 1], q.handedOut[p := HandedOut(q, p) + [x]])
  {
    var generations, handedOut := q.generations[p := x + 1], q.handedOut[p := HandedOut(q, p) + [x]];
    forall r
      ensures RisesBelow(LastOf(handedOut, r), Next(generations, r)) && Next(generations, r) >= 1
    {
      assert RisesBelow(LastOf(q.handedOut, r), Next(q.generations, r)) && Next(q.generations, r) >= 1;
    }
  }

  lemma AllocateKeeps(q: Queue, p: ProblemId, maxGeneration: int)
    requires GenerationInv(q)
    ensures GenerationInv(AfterAllocate(q, p)) && GenerationInv(AfterSeed(q, p, maxGeneration))
  {
    hide GenerationsOk, WatcherNextToken, WatcherNext;
    WatcherAllocates(q, p, maxGeneration);
    HandOutKeeps(q, p, NextGeneration(q, p));
    HandOutKeeps(q, p, WatcherNext(q, p, maxGeneration) - 1);
  }

  lemma WatchKeepsGenerations(q: Queue, p: ProblemId, maxGeneration: int, id: JobId, key: string, worker: string,
    lease: nat)
    requires GenerationInv(q)
    ensures GenerationInv(AfterWatch(q, p, maxGeneration, id, key, worker, lease))
  {
    hide GenerationsOk, AfterSeed, RunningElsewhere, ActiveTwin, AnyKey, AnyPendingSnapshot, PendingSnapshot,
      WatchJob;
    AllocateKeeps(q, p, maxGeneration);
  }

  lemma StepKeepsGenerations(q: Queue, step: Step)
    requires GenerationInv(q)
    ensures GenerationInv(After(q, step))
  {
    hide GenerationsOk, AfterAllocate, AfterWatch, RunningElsewhere, ActiveTwin, AnyKey, AnyRestore, Inserts,
      RankedToken, FailableIds, CanAcquire, CanRetry, Live;
    match step
    case Allocate(p) => AllocateKeeps(q, p, 0);
    case Watch(p, maxGeneration, id, key, worker, lease) => WatchKeepsGenerations(q, p, maxGeneration, id, key, worker,
      lease);
    case _ =>
  }

  lemma {:induction false} RunKeepsGenerations(q: Queue, run: seq<Step>)
    requires GenerationInv(q)
    ensures GenerationInv(Exec(q, run))
    decreases |run|
  {
    hide GenerationInv, After;
    if run != [] {
      StepKeepsGenerations(q, run[0]);
      RunKeepsGenerations(After(q, run[0]), run[1..]);
    }
  }

  /** Over every run, the generations either plane allocates for a problem strictly increase, so none repeats. */
  lemma GenerationsNeverRepeat(now: Time, run: seq<Step>, p: ProblemId, i: nat, j: nat)
    requires i < j < |HandedOut(Exec(Init(now), run), p)|
    ensures HandedOut(Exec(Init(now), run), p)[i] < HandedOut(Exec(Init(now), run), p)[j]
  {
    hide Exec;
    var q := Exec(Init(now), run);
    RunKeepsGenerations(Init(now), run);
    assert RisesBelow(LastOf(q.handedOut, p), Next(q.generations, p));
  }
}
