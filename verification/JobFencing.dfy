/** Fencing tokens and the retry budget: what every step of either plane keeps about jobs and counters. */
module JobFencing {
  import opened Common
  import opened JobQueue

  function Next(counters: map<CounterKey, int>, key: CounterKey): int {
    if key in counters then counters[key] else 1
  }

  /** Tokens are positive once issued, attempts stay within the budget, an active row was never cancelled. */
  predicate RowOk(job: Job) {
    && 0 <= job.token && 1 <= job.attempt <= job.maxAttempts
    && (job.state == Pending ==> job.attempt < job.maxAttempts)
    && (job.state == Running ==> job.owner.Some? && job.leaseUntil.Some? && 1 <= job.token)
    && (Active(job) ==> !job.cancelRequested)
  }

  ghost predicate RowsOk(jobs: map<JobId, Job>, nextId: JobId) {
    forall id :: id in jobs ==> id < nextId && RowOk(jobs[id])
  }

  /** Every token a row carries was granted to that row; grants lie below their counter and never collide. */
  ghost predicate TokensOk(jobs: map<JobId, Job>, counters: map<CounterKey, int>, grants: set<Grant>) {
    && (forall key :: key in counters ==> 1 <= counters[key])
    && (forall g :: g in grants ==> 1 <= g.token < Next(counters, g.counter))
    && (forall g, h :: g in grants && h in grants && g.counter == h.counter && g.token == h.token ==> g == h)
    && (forall id :: id in jobs ==> jobs[id].token == 0 || Grant(CounterOf(jobs[id]), jobs[id].token, id) in grants)
  }

  function ClaimsOf(claims: map<JobId, nat>, id: JobId): nat {
    if id in claims then claims[id] else 0
  }

  /** An attempt is the first one, a re-acquisition after an expired lease, or a claim by the watcher. */
  ghost predicate BudgetOk(jobs: map<JobId, Job>, nextId: JobId, claims: map<JobId, nat>) {
    && (forall id :: id in jobs ==> jobs[id].attempt == 1 + ClaimsOf(claims, id))
    && (forall id :: id in claims ==> id < nextId)
  }

  ghost predicate QueueInv(q: Queue) {
    RowsOk(q.jobs, q.nextId) && TokensOk(q.jobs, q.counters, q.grants) && BudgetOk(q.jobs, q.nextId, q.claims)
  }

  // ---------------------------------------------------------------- one row at a time

  /** A row changes without a new token. */
  lemma RowKeepsInv(q: Queue, id: JobId, job: Job)
    requires QueueInv(q) && id in q.jobs && RowOk(job)
    requires job.request == q.jobs[id].request && job.token == q.jobs[id].token && job.attempt == q.jobs[id].attempt
    ensures QueueInv(SetJob(q, id, job))
  {
  }

  /** The top of the counter goes to a row. */
  lemma IssueKeepsTokens(q: Queue, id: JobId, job: Job)
    requires TokensOk(q.jobs, q.counters, q.grants) && id in q.jobs
    requires job.request == q.jobs[id].request && job.token == NextToken(q, CounterOf(job))
    ensures var v := Issue(q, CounterOf(job), id); TokensOk(q.jobs[id := job], v.counters, v.grants)
  {
  }

  lemma IssueKeepsInv(q: Queue, id: JobId, job: Job, claims: map<JobId, nat>)
    requires QueueInv(q) && id in q.jobs && RowOk(job)
    requires job.request == q.jobs[id].request && job.token == NextToken(q, CounterOf(job))
    requires || (job.attempt == q.jobs[id].attempt && claims == q.claims)
             || (job.attempt == q.jobs[id].attempt + 1 && claims == q.claims[id := Claims(q, id) + 1])
    ensures QueueInv(SetJob(Issue(q, CounterOf(job), id), id, job).(claims := claims))
  {
    hide TokensOk;
    IssueKeepsTokens(q, id, job);
  }

  lemma NextIsPositive(q: Queue, key: CounterKey)
    requires QueueInv(q)
    ensures NextToken(q, key) >= 1
  {
  }

  // ---------------------------------------------------------------- the steps

  lemma AcquireKeepsInv(q: Queue, id: JobId, worker: string, lease: nat)
    requires QueueInv(q) && CanAcquire(q, id)
    ensures QueueInv(AfterAcquire(q, id, worker, lease))
  {
    hide TokensOk, BudgetOk, RunningElsewhere;
    NextIsPositive(q, CounterOf(q.jobs[id]));
    var v := AfterAcquire(q, id, worker, lease);
    IssueKeepsInv(q, id, v.jobs[id], v.claims);
  }

  lemma CancelKeepsInv(q: Queue, id: JobId)
    requires QueueInv(q) && id in q.jobs && Active(q.jobs[id])
    ensures QueueInv(AfterCancel(q, id))
  {
    hide TokensOk, BudgetOk;
    NextIsPositive(q, CounterOf(q.jobs[id]));
    IssueKeepsInv(q, id, AfterCancel(q, id).jobs[id], q.claims);
  }

  lemma CreateKeepsInv(q: Queue, r: Request)
    requires QueueInv(q)
    ensures QueueInv(AfterCreate(q, r))
  {
    hide Inserts;
  }

  lemma WithoutPendingKeepsInv(q: Queue, p: ProblemId, types: set<JobType>)
    requires QueueInv(q)
    ensures QueueInv(WithoutPending(q, p, types))
  {
  }

  lemma RestoreIfMissingKeepsInv(q: Queue, r: Request, present: bool)
    requires QueueInv(q)
    ensures QueueInv(AfterRestoreIfMissing(q, r, present))
  {
    hide QueueInv, WithoutPending, AfterCreate, AnyKey, AnyRestore, Inserts;
    if r.problem.Some? {
      WithoutPendingKeepsInv(q, r.problem.value, {Scan, Snapshot});
      CreateKeepsInv(WithoutPending(q, r.problem.value, {Scan, Snapshot}), r);
    }
  }

  lemma PurgeKeepsInv(q: Queue, ids: set<JobId>)
    requires QueueInv(q)
    ensures QueueInv(After(q, Purge(ids)))
  {
  }

  // ---------------------------------------------------------------- batch expiry

  lemma SubsetSmaller(a: set<JobId>, b: set<JobId>, x: JobId)
    requires a <= b && x in b && x !in a
    ensures |a| < |b|
  {
    SubsetNoLarger(a, b - {x});
  }

  lemma {:induction false} SubsetNoLarger(a: set<JobId>, b: set<JobId>)
    requires a <= b
    ensures |a| <= |b|
    decreases b
  {
    if a != {} {
      var x :| x in a;
      SubsetNoLarger(a - {x}, b - {x});
    }
  }

  /** Row numbers run from 1 to the size of the partition and rise with the id. */
  lemma RowNumbers(q: Queue, id: JobId, other: JobId)
    requires id in FailableIds(q) && other in FailableIds(q) && CounterOf(q.jobs[id]) == CounterOf(q.jobs[other])
    ensures 1 <= RowNumber(q, id) <= |Partition(q, CounterOf(q.jobs[id]))|
    ensures id < other ==> RowNumber(q, id) < RowNumber(q, other)
  {
    hide Failable;
    var part := Partition(q, CounterOf(q.jobs[id]));
    var upTo := set x | x in part && x <= id;
    assert id in upTo;
    SubsetNoLarger({id}, upTo);
    SubsetNoLarger(upTo, part);
    if id < other {
      SubsetSmaller(upTo, (set x | x in part && x <= other), other);
    }
  }

  /** A batch gives each revoked row its own token, all of them new, in the order of the ids. */
  lemma BatchTokens(q: Queue, id: JobId, other: JobId)
    requires id in FailableIds(q) && other in FailableIds(q) && CounterOf(q.jobs[id]) == CounterOf(q.jobs[other])
    ensures var key := CounterOf(q.jobs[id]);
            NextToken(q, key) <= RankedToken(q, id) < NextToken(AfterExpire(q), key)
    ensures id < other ==> RankedToken(q, id) < RankedToken(q, other)
    ensures RankedToken(q, id) == RankedToken(q, other) ==> id == other
  {
    hide Failable, RowNumber, Partition;
    RowNumbers(q, id, other);
    RowNumbers(q, other, id);
    assert CounterOf(q.jobs[id]) in AfterExpire(q).counters;
  }

  function BatchGrants(q: Queue): set<Grant> {
    set id | id in FailableIds(q) :: Grant(CounterOf(q.jobs[id]), RankedToken(q, id), id)
  }

  lemma BatchGrantsAreNew(q: Queue, g: Grant)
    requires g in BatchGrants(q)
    ensures g.job in FailableIds(q) && g == Grant(CounterOf(q.jobs[g.job]), RankedToken(q, g.job), g.job)
    ensures NextToken(q, g.counter) <= g.token < NextToken(AfterExpire(q), g.counter)
  {
    hide Failable, RankedToken, AfterExpire;
    BatchTokens(q, g.job, g.job);
  }

  lemma BatchGrantsAreDistinct(q: Queue, g: Grant, h: Grant)
    requires g in BatchGrants(q) && h in BatchGrants(q) && g.counter == h.counter && g.token == h.token
    ensures g == h
  {
    hide Failable, RankedToken, AfterExpire;
    BatchTokens(q, g.job, h.job);
  }

  lemma ExpireKeepsGrants(q: Queue)
    requires TokensOk(q.jobs, q.counters, q.grants)
    ensures var v := AfterExpire(q);
            && (forall g :: g in v.grants ==> 1 <= g.token < Next(v.counters, g.counter))
            && (forall g, h :: g in v.grants && h in v.grants && g.counter == h.counter && g.token == h.token ==>
               g == h)
  {
    hide FailableIds, RankedToken, Partition, BatchGrants;
    var v := AfterExpire(q);
    assert v.grants == q.grants + BatchGrants(q) by { ExpireGrants(q); }
    forall g | g in v.grants
      ensures 1 <= g.token < Next(v.counters, g.counter)
      ensures g in q.grants || NextToken(q, g.counter) <= g.token
    {
      if g in BatchGrants(q) { BatchGrantsAreNew(q, g); }
    }
    forall g, h | g in v.grants && h in v.grants && g.counter == h.counter && g.token == h.token
      ensures g == h
    {
      if g in BatchGrants(q) && h in BatchGrants(q) { BatchGrantsAreDistinct(q, g, h); }
      else if g in BatchGrants(q) { BatchGrantsAreNew(q, g); }
      else if h in BatchGrants(q) { BatchGrantsAreNew(q, h); }
    }
  }

  lemma ExpireGrants(q: Queue)
    ensures AfterExpire(q).grants == q.grants + BatchGrants(q)
  {
    hide FailableIds, RankedToken, Partition;
  }

  lemma ExpireKeepsTokens(q: Queue)
    requires TokensOk(q.jobs, q.counters, q.grants)
    ensures var v := AfterExpire(q); TokensOk(v.jobs, v.counters, v.grants)
  {
    hide Failable, RankedToken, Partition;
    ExpireKeepsGrants(q);
  }

  lemma ExpireKeepsInv(q: Queue)
    requires QueueInv(q)
    ensures QueueInv(AfterExpire(q))
  {
    hide TokensOk, RankedToken, Partition;
    ExpireKeepsTokens(q);
    forall id | id in FailableIds(q)
      ensures RankedToken(q, id) >= 1
    {
      BatchTokens(q, id, id);
      NextIsPositive(q, CounterOf(q.jobs[id]));
    }
  }

  // ---------------------------------------------------------------- the watcher

  lemma MaxTokenBelow(q: Queue, p: ProblemId)
    requires QueueInv(q)
    ensures 0 <= MaxToken(q, p) < NextToken(q, p)
  {
    hide BudgetOk;
    NextIsPositive(q, p);
    assert 0 in Tokens(q, p);
    var top := MaxToken(q, p);
    if top != 0 {
      var id :| id in q.jobs && q.jobs[id].request.problem == Some(p) && q.jobs[id].token == top;
      assert Grant(p, top, id) in q.grants;
    }
  }

  /** The watcher's GREATEST never skips a token: the counter is always above every retained one. */
  lemma WatcherTokenIsNext(q: Queue, p: ProblemId)
    requires QueueInv(q)
    ensures WatcherNextToken(q, p) == NextToken(q, p) + 1
  {
    hide QueueInv, MaxToken;
    MaxTokenBelow(q, p);
  }

  lemma SeedKeepsInv(q: Queue, p: ProblemId, maxGeneration: int)
    requires QueueInv(q)
    ensures QueueInv(AfterSeed(q, p, maxGeneration))
            && NextToken(AfterSeed(q, p, maxGeneration), p) == NextToken(q, p) + 1
    ensures AfterSeed(q, p, maxGeneration).grants == q.grants && AfterSeed(q, p, maxGeneration).jobs == q.jobs
  {
    hide WatcherNextToken, RowsOk, BudgetOk;
    WatcherTokenIsNext(q, p);
    NextIsPositive(q, p);
  }

  lemma WatchClaimKeepsInv(q: Queue, id: JobId, p: ProblemId, worker: string, lease: nat)
    requires QueueInv(q) && PendingSnapshot(q, id, p)
    ensures QueueInv(AfterWatchClaim(q, id, worker, lease))
  {
    hide TokensOk, BudgetOk;
    NextIsPositive(q, CounterOf(q.jobs[id]));
    var v := AfterWatchClaim(q, id, worker, lease);
    IssueKeepsInv(q, id, v.jobs[id], v.claims);
  }

  lemma WatchInsertKeepsInv(q: Queue, p: ProblemId, job: Job)
    requires QueueInv(q) && RowOk(job) && 1 <= job.token && job.attempt == 1 && job.request.problem == Some(p)
    requires job.token == NextToken(q, p) - 1 && forall g :: g in q.grants && g.counter == p ==> g.token < job.token
    ensures QueueInv(AfterWatchInsert(q, p, job))
  {
  }

  lemma BumpKeepsInv(q: Queue, p: ProblemId)
    requires QueueInv(q)
    ensures QueueInv(q.(counters := q.counters[p := NextToken(q, p) + 1]))
  {
    hide RowsOk, BudgetOk;
  }

  lemma WatchKeepsInv(q: Queue, p: ProblemId, maxGeneration: int, id: JobId, key: string, worker: string, lease: nat)
    requires QueueInv(q)
    ensures QueueInv(AfterWatch(q, p, maxGeneration, id, key, worker, lease))
  {
    hide QueueInv, AfterSeed, AfterWatchClaim, AfterWatchInsert, RunningElsewhere, ActiveTwin, AnyKey;
    var seeded := AfterSeed(q, p, maxGeneration);
    SeedKeepsInv(q, p, maxGeneration);
    BumpKeepsInv(seeded, p);
    NextIsPositive(q, p);
    if PendingSnapshot(seeded, id, p) {
      WatchClaimKeepsInv(seeded, id, p, worker, lease);
    }
    GrantsBelow(q, p);
    var job := WatchJob(seeded, p, key, NextGeneration(seeded, p) - 1, worker, lease, NextToken(seeded, p) - 1);
    WatchInsertKeepsInv(seeded, p, job);
  }

  lemma GrantsBelow(q: Queue, p: ProblemId)
    requires QueueInv(q)
    ensures forall g :: g in q.grants && g.counter == p ==> g.token < NextToken(q, p)
  {
  }

  // ---------------------------------------------------------------- every step

  lemma StepKeepsInv(q: Queue, step: Step)
    requires QueueInv(q)
    ensures QueueInv(After(q, step))
  {
    hide RowsOk, TokensOk, BudgetOk, AfterCreate, AfterRestoreIfMissing, WithoutPending, AfterAcquire, AfterCancel,
      AfterExpire, AfterWatch, CanAcquire;
    match step
    case Create(request) => CreateKeepsInv(q, request);
    case RestoreIfMissing(request, present) => RestoreIfMissingKeepsInv(q, request, present);
    case TouchAccess(problem) => WithoutPendingKeepsInv(q, problem, {Evict});
    case Acquire(id, worker, lease) => if CanAcquire(q, id) { AcquireKeepsInv(q, id, worker, lease); }
    case Renew(id, worker, token, lease) => if Live(q, id, worker, token) { RenewKeepsInv(q, id, lease); }
    case Finish(id, worker, token, outcome) =>
      if Live(q, id, worker, token) && Terminal(outcome) { FinishKeepsInv(q, id, outcome); }
    case Expire => ExpireKeepsInv(q);
    case Cancel(id) => if id in q.jobs && Active(q.jobs[id]) { CancelKeepsInv(q, id); }
    case Retry(id) => if CanRetry(q, id) { RetryKeepsInv(q, id); }
    case Watch(p, maxGeneration, id, key, worker, lease) => WatchKeepsInv(q, p, maxGeneration, id, key, worker, lease);
    case FailJob(id, worker, token) => if Holder(q, id, worker, token) { FailJobKeepsInv(q, id); }
    case Purge(ids) => PurgeKeepsInv(q, ids);
    case _ =>
  }

  lemma RenewKeepsInv(q: Queue, id: JobId, lease: nat)
    requires QueueInv(q) && id in q.jobs && q.jobs[id].state == Running
    ensures QueueInv(AfterRenew(q, id, lease))
  {
    hide TokensOk, BudgetOk;
    RowKeepsInv(q, id, AfterRenew(q, id, lease).jobs[id]);
  }

  lemma FinishKeepsInv(q: Queue, id: JobId, outcome: JobState)
    requires QueueInv(q) && id in q.jobs && Terminal(outcome)
    ensures QueueInv(AfterFinish(q, id, outcome))
  {
    hide TokensOk, BudgetOk;
    RowKeepsInv(q, id, AfterFinish(q, id, outcome).jobs[id]);
  }

  lemma RetryKeepsInv(q: Queue, id: JobId)
    requires QueueInv(q) && CanRetry(q, id)
    ensures QueueInv(AfterRetry(q, id))
  {
    hide TokensOk, BudgetOk, ActiveTwin;
    RowKeepsInv(q, id, AfterRetry(q, id).jobs[id]);
  }

  lemma FailJobKeepsInv(q: Queue, id: JobId)
    requires QueueInv(q) && id in q.jobs && q.jobs[id].state == Running
    ensures QueueInv(AfterFailJob(q, id))
  {
    hide TokensOk, BudgetOk;
    RowKeepsInv(q, id, AfterFailJob(q, id).jobs[id]);
  }
}
