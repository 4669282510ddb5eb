/** What single operations of the queue promise about rows and times, and that a lease lasts as long as it was given. */
module JobHolds {
  import opened Common
  import opened JobQueue
  import opened JobFencing
  import opened JobRuns

  // ---------------------------------------------------------------- how long a lease lasts

  /** From now on the holder is live exactly until then, and after that the row has expired. */
  ghost predicate LeasedUntil(q: Queue, id: JobId, worker: string, token: int, until: Time)
    requires id in q.jobs
  {
    && (forall n: Time :: q.now <= n ==> (Live(q.(now := n), id, worker, token) <==> n <= until))
    && (forall n: Time :: q.now <= n ==> (Expired(q.(now := n), q.jobs[id]) <==> until < n))
  }

  /** The row has a token of its own that is larger than every other token of its counter. */
  ghost predicate HasNewestToken(q: Queue, id: JobId)
    requires id in q.jobs
  {
    forall other :: other in q.jobs && other != id && CounterOf(q.jobs[other]) == CounterOf(q.jobs[id]) ==>
                      q.jobs[other].token < q.jobs[id].token
  }

  ghost predicate OnlyRowChanged(jobs: map<JobId, Job>, after: map<JobId, Job>, id: JobId) {
    id in jobs && id in after && after == jobs[id := after[id]] && after[id].request == jobs[id].request
    && after[id].maxAttempts == jobs[id].maxAttempts
  }

  /** The job is the worker's under the newest token; a row whose lease had run out has used one attempt more. */
  ghost predicate Acquired(q: Queue, v: Queue, id: JobId, worker: string, lease: nat) {
    && OnlyRowChanged(q.jobs, v.jobs, id) && v.now == q.now
    && q.jobs[id].attempt < q.jobs[id].maxAttempts
    && (if q.jobs[id].state == Pending then !q.paused && v.jobs[id].attempt == q.jobs[id].attempt
        else Expired(q, q.jobs[id]) && v.jobs[id].attempt == q.jobs[id].attempt + 1)
    && LeasedUntil(v, id, worker, v.jobs[id].token, q.now + lease) && HasNewestToken(v, id)
  }

  lemma AcquisitionLeases(q: Queue, id: JobId, worker: string, lease: nat)
    requires QueueInv(q) && CanAcquire(q, id)
    ensures Acquired(q, AfterAcquire(q, id, worker, lease), id, worker, lease)
  {
    hide BudgetOk, RunningElsewhere;
  }

  lemma RenewalLeases(q: Queue, id: JobId, worker: string, token: int, lease: nat)
    requires Live(q, id, worker, token)
    ensures var v := AfterRenew(q, id, lease);
            && OnlyRowChanged(q.jobs, v.jobs, id) && v.jobs[id].attempt == q.jobs[id].attempt
            && LeasedUntil(v, id, worker, token, q.now + lease)
  {
  }

  /** The next step neither ends the job nor renews its lease. */
  predicate LeavesAlone(step: Step, id: JobId) {
    match step
    case Cancel(other) => other != id
    case Finish(other, _, _, _) => other != id
    case FailJob(other, _, _) => other != id
    case Renew(other, _, _, _) => other != id
    case Purge(ids) => id !in ids
    case _ => true
  }

  predicate Runs(q: Queue, id: JobId, row: Job) {
    && id in q.jobs && q.jobs[id] == row && row.state == Running && row.leaseUntil.Some?
    && q.now <= row.leaseUntil.value
  }

  lemma BatchSparesLeased(q: Queue, id: JobId, row: Job)
    requires Runs(q, id, row)
    ensures id in AfterExpire(q).jobs && AfterExpire(q).jobs[id] == row
  {
    hide RankedToken, Partition;
  }

  lemma WatcherSparesRunning(q: Queue, p: ProblemId, maxGeneration: int, other: JobId, key: string, worker: string,
    lease: nat, id: JobId, row: Job)
    requires QueueInv(q) && Runs(q, id, row)
    ensures var v := AfterWatch(q, p, maxGeneration, other, key, worker, lease); id in v.jobs && v.jobs[id] == row
  {
    hide TokensOk, BudgetOk, RowOk, WatcherNext, WatcherNextToken, RunningElsewhere, ActiveTwin, AnyKey,
      AnyPendingSnapshot;
  }

  lemma CreationSparesRunning(q: Queue, r: Request, present: bool, id: JobId, row: Job)
    requires QueueInv(q) && Runs(q, id, row)
    ensures var v := AfterCreate(q, r); id in v.jobs && v.jobs[id] == row
    ensures var v := AfterRestoreIfMissing(q, r, present); id in v.jobs && v.jobs[id] == row
  {
    hide TokensOk, BudgetOk, RowOk, Inserts, AnyKey, AnyRestore;
  }

  /** As long as the lease has not run out, nobody else can take or end the job. */
  lemma StepSparesLeased(q: Queue, step: Step, id: JobId, row: Job)
    requires QueueInv(q) && Runs(q, id, row) && LeavesAlone(step, id)
    ensures id in After(q, step).jobs && After(q, step).jobs[id] == row && q.now <= After(q, step).now
  {
    hide QueueInv, AfterCreate, AfterRestoreIfMissing, AfterExpire, AfterWatch, RunningElsewhere, ActiveTwin, Kept;
    ClockRises(q, [step]);
    OneStep(q, step);
    match step
    case Create(r) => CreationSparesRunning(q, r, false, id, row);
    case RestoreIfMissing(r, present) => CreationSparesRunning(q, r, present, id, row);
    case Expire => BatchSparesLeased(q, id, row);
    case Watch(p, maxGeneration, other, key, worker, lease) =>
      WatcherSparesRunning(q, p, maxGeneration, other, key, worker, lease, id, row);
    case _ =>
  }

  lemma {:induction false} RowStays(q: Queue, run: seq<Step>, id: JobId, row: Job)
    requires QueueInv(q) && Runs(q, id, row) && forall step :: step in run ==> LeavesAlone(step, id)
    ensures q.now <= Exec(q, run).now
    ensures Exec(q, run).now <= row.leaseUntil.value ==> id in Exec(q, run).jobs && Exec(q, run).jobs[id] == row
    decreases |run|
  {
    hide QueueInv, After, LeavesAlone;
    if run != [] {
      StepKeepsInv(q, run[0]);
      StepSparesLeased(q, run[0], id, row);
      if Runs(After(q, run[0]), id, row) {
        RowStays(After(q, run[0]), run[1..], id, row);
      } else {
        ClockRises(After(q, run[0]), run[1..]);
      }
    }
  }

  lemma OneStep(q: Queue, step: Step)
    ensures Exec(q, [step]) == After(q, step)
  {
    hide After;
    assert [step][1..] == [];
  }

  lemma {:induction false} ClockRises(q: Queue, run: seq<Step>)
    requires QueueInv(q)
    ensures q.now <= Exec(q, run).now
    decreases |run|
  {
    hide QueueInv, After;
    if run != [] {
      StepKeepsInv(q, run[0]);
      StepKeeps(q, run[0]);
      ClockRises(After(q, run[0]), run[1..]);
    }
  }

  /**
   Over every run that does not end the job or renew its lease, the holder is live exactly until the lease runs out, and
   nobody else can be.
   */
  lemma LeaseHolds(q: Queue, run: seq<Step>, id: JobId, worker: string, token: int)
    requires QueueInv(q) && Live(q, id, worker, token) && forall step :: step in run ==> LeavesAlone(step, id)
    ensures var v := Exec(q, run); var until := q.jobs[id].leaseUntil.value;
            && (v.now <= until <==> Live(v, id, worker, token))
            && (v.now <= until ==> forall other, n :: Live(v, id, other, n) ==> other == worker && n == token)
  {
    hide RowOk, TokensOk, BudgetOk, LeavesAlone, Exec;
    RowStays(q, run, id, q.jobs[id]);
    if q.jobs[id].leaseUntil.value < Exec(q, run).now {
      LeaseRunsOut(q, run, id, worker, token, q.jobs[id].leaseUntil.value);
    }
  }

  /** Past its end a lease that nobody renews is over, whatever has become of the row. */
  lemma {:induction false} LeaseRunsOut(q: Queue, run: seq<Step>, id: JobId, worker: string, token: int, until: Time)
    requires QueueInv(q) && id < q.nextId && (forall step :: step in run ==> LeavesAlone(step, id))
    requires Live(q, id, worker, token) ==> q.jobs[id].leaseUntil.value <= until
    requires id in q.jobs ==> token <= q.jobs[id].token
    requires until < Exec(q, run).now
    ensures !Live(Exec(q, run), id, worker, token)
    decreases |run|
  {
    hide QueueInv, After, LeavesAlone, Live;
    if !Live(q, id, worker, token) {
      LostLeaseStaysLost(q, run, id, worker, token);
    } else if run == [] {
      LiveEnds(q, id, worker, token);
    } else {
      StepKeepsInv(q, run[0]);
      LiveRuns(q, id, worker, token);
      StepSparesLeased(q, run[0], id, q.jobs[id]);
      StepKeeps(q, run[0]);
      SameEnd(q, After(q, run[0]), id, worker, token);
      LeaseRunsOut(After(q, run[0]), run[1..], id, worker, token, until);
    }
  }

  lemma LiveEnds(q: Queue, id: JobId, worker: string, token: int)
    requires Live(q, id, worker, token)
    ensures q.now <= q.jobs[id].leaseUntil.value
  {
  }

  lemma LiveRuns(q: Queue, id: JobId, worker: string, token: int)
    requires Live(q, id, worker, token)
    ensures Runs(q, id, q.jobs[id])
  {
  }

  lemma SameEnd(q: Queue, v: Queue, id: JobId, worker: string, token: int)
    requires id in q.jobs && id in v.jobs && v.jobs[id] == q.jobs[id]
    ensures Live(v, id, worker, token) ==> v.jobs[id].leaseUntil.value == q.jobs[id].leaseUntil.value
  {
  }

  // ---------------------------------------------------------------- ends and new beginnings

  /** Cancelled under a token that is newer than any other of the counter; nobody holds the job any more. */
  ghost predicate Revoked(q: Queue, v: Queue, id: JobId) {
    && OnlyRowChanged(q.jobs, v.jobs, id) && v.jobs[id].state == Cancelled && v.jobs[id].attempt == q.jobs[id].attempt
    && HasNewestToken(v, id) && q.jobs[id].token < v.jobs[id].token
    && forall worker, token :: !Live(v, id, worker, token)
  }

  lemma CancellationRevokes(q: Queue, id: JobId)
    requires QueueInv(q) && id in q.jobs
    ensures Revoked(q, AfterCancel(q, id), id)
  {
    hide BudgetOk;
  }

  /** Nobody's and pending, with its attempts and its token; whatever lane is open may take it. */
  ghost predicate WaitsAgain(q: Queue, v: Queue, id: JobId) {
    && OnlyRowChanged(q.jobs, v.jobs, id) && v.jobs[id].state == Pending
    && v.jobs[id].owner.None? && v.jobs[id].leaseUntil.None? && !v.jobs[id].cancelRequested
    && v.jobs[id].attempt == q.jobs[id].attempt && v.jobs[id].token == q.jobs[id].token
    && Acquirable(v.(paused := false), v.jobs[id])
  }

  lemma RetryWaits(q: Queue, id: JobId)
    requires CanRetry(q, id)
    ensures WaitsAgain(q, AfterRetry(q, id), id)
  {
    hide ActiveTwin;
  }

  /** Back in the queue while an attempt is left, and failed for good otherwise; the lease is over in either case. */
  ghost predicate HandedBack(q: Queue, v: Queue, id: JobId) {
    && OnlyRowChanged(q.jobs, v.jobs, id)
    && (if q.jobs[id].attempt < q.jobs[id].maxAttempts && !q.jobs[id].cancelRequested then WaitsAgain(q, v, id)
        else v.jobs[id].token == q.jobs[id].token && v.jobs[id].attempt == q.jobs[id].attempt
             && (q.jobs[id].attempt >= q.jobs[id].maxAttempts ==> v.jobs[id].state == Failed))
    && forall worker, token :: !Live(v, id, worker, token)
  }

  lemma FailureHandsBack(q: Queue, id: JobId)
    requires id in q.jobs
    ensures HandedBack(q, AfterFailJob(q, id), id)
  {
  }

  /** The lease has run out and no attempt is left. */
  predicate Exhausted(q: Queue, job: Job) {
    job.state == Running && job.leaseUntil.Some? && job.leaseUntil.value < q.now && job.maxAttempts <= job.attempt
  }

  /** Exactly the exhausted rows fail, each under a token that nobody had. */
  ghost predicate ExhaustedFail(q: Queue, v: Queue) {
    && v.jobs.Keys == q.jobs.Keys && v.now == q.now && v.paused == q.paused && v.nextId == q.nextId
    && forall id :: id in q.jobs ==>
         if Exhausted(q, q.jobs[id]) then
           && v.jobs[id] == q.jobs[id].(state := Failed, token := v.jobs[id].token)
           && NextToken(q, CounterOf(q.jobs[id])) <= v.jobs[id].token < NextToken(v, CounterOf(q.jobs[id]))
         else v.jobs[id] == q.jobs[id]
  }

  lemma BatchFailsExhausted(q: Queue)
    requires QueueInv(q)
    ensures ExhaustedFail(q, AfterExpire(q))
    ensures FailableIds(q) == set id | id in q.jobs && Exhausted(q, q.jobs[id])
  {
    hide QueueInv, RankedToken, Partition;
    forall id | id in FailableIds(q)
      ensures var key := CounterOf(q.jobs[id]);
              NextToken(q, key) <= RankedToken(q, id) < NextToken(AfterExpire(q), key)
    {
      BatchTokens(q, id, id);
    }
  }

  // ---------------------------------------------------------------- the watcher

  predicate RunsLocally(job: Job, p: ProblemId) {
    job.request.problem == Some(p) && LocalType(job.request.jobType) && job.state == Running
  }

  /** A snapshot of the problem waits for a worker. */
  predicate SnapshotWaits(q: Queue, p: ProblemId) {
    exists id :: id in q.jobs && q.jobs[id].request.problem == Some(p) && q.jobs[id].request.jobType == Snapshot
                 && q.jobs[id].state == Pending
  }

  /**
   The watcher's job runs under the newest token for as long as it was leased, and no other local job of the problem
   runs. It is a snapshot that was waiting, at the price of an attempt, or a new one if none was.
   */
  ghost predicate Watched(q: Queue, v: Queue, p: ProblemId, id: JobId, key: string, worker: string, lease: nat) {
    && id in v.jobs && v.jobs == q.jobs[id := v.jobs[id]] && v.now == q.now
    && v.jobs[id].request.problem == Some(p) && v.jobs[id].request.jobType == Snapshot
    && LeasedUntil(v, id, worker, v.jobs[id].token, q.now + lease) && HasNewestToken(v, id)
    && (forall other :: other in v.jobs && other != id ==> !RunsLocally(v.jobs[other], p))
    && if SnapshotWaits(q, p)
       then OnlyRowChanged(q.jobs, v.jobs, id) && q.jobs[id].state == Pending
            && v.jobs[id].attempt == q.jobs[id].attempt + 1
       else id !in q.jobs && v.jobs[id].request.key == key && v.jobs[id].attempt == 1 && v.jobs[id].maxAttempts == 3
  }

  /** Nothing was taken: a local job of the problem runs, or another row has the key. */
  ghost predicate WatchRefused(q: Queue, v: Queue, p: ProblemId, key: string) {
    && v.jobs == q.jobs
    && exists id :: id in q.jobs
                    && (RunsLocally(q.jobs[id], p)
                        || (q.jobs[id].request.key == key && q.jobs[id].request.jobType == Snapshot))
  }

  lemma NewestFromBefore(q: Queue, v: Queue, id: JobId)
    requires QueueInv(q) && id in v.jobs && v.jobs == q.jobs[id := v.jobs[id]]
    requires NextToken(q, CounterOf(v.jobs[id])) <= v.jobs[id].token
    ensures HasNewestToken(v, id)
  {
    hide QueueInv;
    forall other | other in v.jobs && other != id && CounterOf(v.jobs[other]) == CounterOf(v.jobs[id])
      ensures v.jobs[other].token < v.jobs[id].token
    {
      TokenBelowNext(q, other);
    }
  }

  lemma RunningMeans(q: Queue, id: JobId, job: Job, p: ProblemId)
    requires job.request.problem == Some(p) && LocalType(job.request.jobType)
    ensures RunningElsewhere(q, id, job) <==>
              exists other :: other in q.jobs && other != id && RunsLocally(q.jobs[other], p)
  {
  }

  lemma SeedFacts(q: Queue, p: ProblemId, maxGeneration: int)
    requires QueueInv(q)
    ensures var seeded := AfterSeed(q, p, maxGeneration);
            && seeded.jobs == q.jobs && seeded.now == q.now && seeded.nextId == q.nextId
            && NextToken(seeded, p) == NextToken(q, p) + 1
            && (SnapshotWaits(q, p) <==> AnyPendingSnapshot(seeded, p))
  {
    hide QueueInv, WatcherNext, WatcherNextToken;
    WatcherTokenIsNext(q, p);
  }

  lemma ClaimWatches(q: Queue, p: ProblemId, maxGeneration: int, id: JobId, key: string, worker: string, lease: nat)
    requires QueueInv(q)
    requires var seeded := AfterSeed(q, p, maxGeneration);
             PendingSnapshot(seeded, id, p) && !RunningElsewhere(seeded, id, seeded.jobs[id])
    ensures Watched(q, AfterWatchClaim(AfterSeed(q, p, maxGeneration), id, worker, lease), p, id, key, worker, lease)
  {
    hide TokensOk, BudgetOk, AfterSeed, RunningElsewhere;
    SeedFacts(q, p, maxGeneration);
    var seeded := AfterSeed(q, p, maxGeneration);
    RunningMeans(seeded, id, seeded.jobs[id], p);
    NewestFromBefore(q, AfterWatchClaim(seeded, id, worker, lease), id);
  }

  lemma InsertWatches(q: Queue, p: ProblemId, maxGeneration: int, job: Job, key: string, worker: string, lease: nat)
    requires QueueInv(q)
    requires var seeded := AfterSeed(q, p, maxGeneration);
             && !AnyPendingSnapshot(seeded, p) && !RunningElsewhere(seeded, seeded.nextId, job)
             && job == WatchJob(seeded, p, key, NextGeneration(seeded, p) - 1, worker, lease, NextToken(seeded, p) - 1)
    ensures var seeded := AfterSeed(q, p, maxGeneration);
            Watched(q, AfterWatchInsert(seeded, p, job), p, seeded.nextId, key, worker, lease)
  {
    hide TokensOk, BudgetOk, RowOk, AfterSeed, RunningElsewhere;
    SeedFacts(q, p, maxGeneration);
    var seeded := AfterSeed(q, p, maxGeneration);
    RunningMeans(seeded, seeded.nextId, job, p);
    NewestFromBefore(q, AfterWatchInsert(seeded, p, job), seeded.nextId);
  }

  lemma ElsewhereRefuses(q: Queue, v: Queue, p: ProblemId, id: JobId, job: Job, key: string)
    requires v.jobs == q.jobs && job.request.problem == Some(p) && LocalType(job.request.jobType)
    requires RunningElsewhere(q, id, job)
    ensures WatchRefused(q, v, p, key)
  {
  }

  /** An unfinished snapshot of the problem that is not waiting is running. */
  lemma TwinRefuses(q: Queue, v: Queue, p: ProblemId, id: JobId, job: Job, key: string)
    requires v.jobs == q.jobs && job.request.problem == Some(p) && job.request.jobType == Snapshot
    requires ActiveTwin(q, id, job) && !SnapshotWaits(q, p)
    ensures WatchRefused(q, v, p, key)
  {
    var other :| other in q.jobs && other != id && Active(q.jobs[other]) && q.jobs[other].request.jobType == Snapshot
                 && SameProblem(q.jobs[other], job);
    assert RunsLocally(q.jobs[other], p);
  }
}
