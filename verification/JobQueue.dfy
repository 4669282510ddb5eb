/**
 The jobs table and its counters. One statement or transaction of either plane is one step on a `Queue`;
 a statement whose WHERE clause matches nothing, or whose unique index refuses it, leaves the queue as it was.
 */
module JobQueue {
  import opened Common

  type JobId = nat
  type CounterKey = string

  datatype JobType = Scan | Snapshot | Restore | Evict | GcCollect | OtherJob(name: string)

  datatype JobState = Pending | Running | Completed | Failed | Cancelled

  datatype Request = Request(key: string, jobType: JobType, problem: Option<ProblemId>, generation: Option<int>,
                             fingerprint: string)

  /** Ids grow with creation, so the order by id is the order by created_at. */
  datatype Job = Job(
    request: Request,
    state: JobState,
    owner: Option<string>,
    leaseUntil: Option<Time>,
    token: int,
    attempt: int,
    maxAttempts: int,
    cancelRequested: bool)

  datatype Grant = Grant(counter: CounterKey, token: int, job: JobId)

  datatype Queue = Queue(
    now: Time,
    paused: bool,
    jobs: map<JobId, Job>,
    nextId: JobId,
    counters: map<CounterKey, int>,               // job_fencing_counters.next_token
    generations: map<ProblemId, int>,             // problem_generation_counters.next_generation
    grants: set<Grant>,                           // history: which job each token went to
    handedOut: map<ProblemId, seq<int>>,          // history: the generations allocated, in order
    claims: map<JobId, nat>)                      // history: re-acquisitions after expiry and watcher claims

  const GLOBAL: CounterKey := "__global__"

  function Init(now: Time): Queue {
    Queue(now, false, map[], 0, map[], map[], {}, map[], map[])
  }

  // ---------------------------------------------------------------- rows

  predicate Active(job: Job) {
    job.state == Pending || job.state == Running
  }

  predicate LocalType(t: JobType) {
    t == Scan || t == Snapshot || t == Restore || t == Evict
  }

  /** COALESCE(problem_id, '__global__'). */
  function CounterOf(job: Job): CounterKey {
    if job.request.problem.Some? then job.request.problem.value else GLOBAL
  }

  /** The value the next INSERT ... ON CONFLICT on the counter returns. */
  function NextToken(q: Queue, key: CounterKey): int {
    if key in q.counters then q.counters[key] else 1
  }

  predicate Expired(q: Queue, job: Job) {
    job.state == Running && job.leaseUntil.Some? && job.leaseUntil.value < q.now
  }

  /** The WHERE clause of the acquiring statement. */
  predicate Acquirable(q: Queue, job: Job) {
    job.attempt < job.maxAttempts && ((job.state == Pending && !q.paused) || Expired(q, job))
  }

  /** The WHERE clause of failExpiredRunningJobs. */
  predicate Failable(q: Queue, job: Job) {
    Expired(q, job) && job.attempt >= job.maxAttempts
  }

  /** The WHERE clause of assertJobLease, and of renewals and completions. */
  predicate Live(q: Queue, id: JobId, owner: string, token: int) {
    && id in q.jobs && q.jobs[id].owner == Some(owner) && q.jobs[id].token == token
    && q.jobs[id].state == Running && q.jobs[id].leaseUntil.Some? && q.jobs[id].leaseUntil.value >= q.now
    && !q.jobs[id].cancelRequested
  }

  predicate SameProblem(a: Job, b: Job) {
    a.request.problem.Some? && a.request.problem == b.request.problem
  }

  /** Only a scan and a snapshot may be active for a problem at once. */
  predicate Compatible(s: JobType, t: JobType) {
    (s == Scan && t == Snapshot) || (s == Snapshot && t == Scan)
  }

  /** idx_jobs_one_running_problem_operation would refuse a second running row. */
  predicate RunningElsewhere(q: Queue, id: JobId, job: Job) {
    LocalType(job.request.jobType)
    && exists other :: other in q.jobs && other != id && SameProblem(q.jobs[other], job)
                       && LocalType(q.jobs[other].request.jobType) && q.jobs[other].state == Running
  }

  /** idx_jobs_one_active_problem_job_type or idx_jobs_one_active_gc_collect would refuse another active row. */
  predicate ActiveTwin(q: Queue, id: JobId, job: Job) {
    exists other :: other in q.jobs && other != id && Active(q.jobs[other])
                    && q.jobs[other].request.jobType == job.request.jobType
                    && ((LocalType(job.request.jobType) && SameProblem(q.jobs[other], job))
                        || (job.request.jobType == GcCollect && job.request.problem.None?
                            && q.jobs[other].request.problem.None?))
  }

  function SetJob(q: Queue, id: JobId, job: Job): Queue {
    q.(jobs := q.jobs[id := job])
  }

  /** One token off the job's counter, recorded as issued to it. */
  function Issue(q: Queue, key: CounterKey, id: JobId): Queue {
    q.(counters := q.counters[key := NextToken(q, key) + 1], grants := q.grants + {Grant(key, NextToken(q, key), id)})
  }

  function Claims(q: Queue, id: JobId): nat {
    if id in q.claims then q.claims[id] else 0
  }

  // ---------------------------------------------------------------- creating

  datatype Created = Existing(id: JobId) | Inserted(id: JobId) | KeyConflict | OperationConflict | NoResult

  predicate SameKey(q: Queue, id: JobId, r: Request) {
    id in q.jobs && q.jobs[id].request.key == r.key && q.jobs[id].request.jobType == r.jobType
  }

  predicate Matches(q: Queue, id: JobId, r: Request) {
    && id in q.jobs && Active(q.jobs[id])
    && q.jobs[id].request.jobType == r.jobType && q.jobs[id].request.problem == r.problem
    && q.jobs[id].request.generation == r.generation
    && (q.jobs[id].request.fingerprint == r.fingerprint
        || r.jobType == Scan || r.jobType == Snapshot || r.jobType == Restore || r.jobType == GcCollect)
  }

  predicate Incompatible(q: Queue, id: JobId, r: Request) {
    && id in q.jobs && r.problem.Some? && q.jobs[id].request.problem == r.problem
    && LocalType(q.jobs[id].request.jobType) && Active(q.jobs[id])
    && !Compatible(r.jobType, q.jobs[id].request.jobType)
  }

  function NewJob(r: Request): Job {
    Job(r, Pending, None, None, 0, 1, 3, false)
  }

  predicate AnyKey(q: Queue, r: Request) {
    exists id :: id in q.jobs && SameKey(q, id, r)
  }

  predicate AnyActive(q: Queue, r: Request) {
    exists id :: id in q.jobs && Matches(q, id, r)
  }

  predicate AnyIncompatible(q: Queue, r: Request) {
    exists id :: id in q.jobs && Incompatible(q, id, r)
  }

  predicate AnyRestore(q: Queue, r: Request) {
    exists id :: id in q.jobs && ActiveRestore(q, id, r)
  }

  /**
   The row is inserted: nothing to replay, no conflict on the key, no active match, nothing
   incompatible, no index.
  */
  predicate Inserts(q: Queue, r: Request) {
    !AnyKey(q, r) && !AnyActive(q, r) && !AnyIncompatible(q, r) && !ActiveTwin(q, q.nextId, NewJob(r))
  }

  function AfterCreate(q: Queue, r: Request): Queue {
    if Inserts(q, r) then q.(jobs := q.jobs[q.nextId := NewJob(r)], nextId := q.nextId + 1) else q
  }

  /** Pending scans and snapshots of the problem give way to a restore. */
  function WithoutPending(q: Queue, p: ProblemId, types: set<JobType>): Queue {
    q.(jobs := map id | id in q.jobs ::
         if q.jobs[id].request.problem == Some(p) && q.jobs[id].request.jobType in types && q.jobs[id].state == Pending
         then q.jobs[id].(state := Cancelled) else q.jobs[id])
  }

  predicate ActiveRestore(q: Queue, id: JobId, r: Request) {
    id in q.jobs && Active(q.jobs[id]) && q.jobs[id].request.jobType == Restore
    && q.jobs[id].request.problem == r.problem && q.jobs[id].request.generation == r.generation
  }

  /** createRestoreJobIfMissing. `present` is the answer of the local_status check. */
  function AfterRestoreIfMissing(q: Queue, r: Request, present: bool): Queue {
    if r.jobType != Restore || r.problem.None? || AnyKey(q, r) || AnyRestore(q, r) then q
    else
      var cleared := WithoutPending(q, r.problem.value, {Scan, Snapshot});
      if present then cleared
      else if Inserts(cleared, r) then AfterCreate(cleared, r)
      else q   // the conflict rolls the cancellations back
  }

  // ---------------------------------------------------------------- leasing

  predicate CanAcquire(q: Queue, id: JobId) {
    id in q.jobs && Acquirable(q, q.jobs[id]) && !RunningElsewhere(q, id, q.jobs[id])
  }

  function AfterAcquire(q: Queue, id: JobId, worker: string, lease: nat): Queue
    requires id in q.jobs
  {
    var job := q.jobs[id];
    var key := CounterOf(job);
    var again := job.state != Pending;
    SetJob(Issue(q, key, id), id,
           job.(state := Running, owner := Some(worker), leaseUntil := Some(q.now + lease), token := NextToken(q, key),
                attempt := if again then job.attempt + 1 else job.attempt)).(
      claims := if again then q.claims[id := Claims(q, id) + 1] else q.claims)
  }

  function AfterRenew(q: Queue, id: JobId, lease: nat): Queue
    requires id in q.jobs
  {
    SetJob(q, id, q.jobs[id].(leaseUntil := Some(q.now + lease)))
  }

  function AfterFinish(q: Queue, id: JobId, state: JobState): Queue
    requires id in q.jobs
  {
    SetJob(q, id, q.jobs[id].(state := state))
  }

  function AfterCancel(q: Queue, id: JobId): Queue
    requires id in q.jobs
  {
    var key := CounterOf(q.jobs[id]);
    SetJob(Issue(q, key, id), id, q.jobs[id].(state := Cancelled, token := NextToken(q, key), cancelRequested := true))
  }

  predicate CanRetry(q: Queue, id: JobId) {
    && id in q.jobs && (q.jobs[id].state == Failed || q.jobs[id].state == Cancelled)
    && q.jobs[id].attempt < q.jobs[id].maxAttempts && !ActiveTwin(q, id, q.jobs[id])
  }

  function AfterRetry(q: Queue, id: JobId): Queue
    requires id in q.jobs
  {
    SetJob(q, id, q.jobs[id].(state := Pending, owner := None, leaseUntil := None, cancelRequested := false))
  }

  // ---------------------------------------------------------------- batch expiry

  function FailableIds(q: Queue): set<JobId> {
    set id | id in q.jobs && Failable(q, q.jobs[id])
  }

  /** The revoked rows of one counter. */
  function Partition(q: Queue, key: CounterKey): set<JobId> {
    set id | id in FailableIds(q) && CounterOf(q.jobs[id]) == key
  }

  /** ROW_NUMBER() OVER (PARTITION BY counter_key ORDER BY id). */
  function RowNumber(q: Queue, id: JobId): nat
    requires id in q.jobs
  {
    |set other | other in Partition(q, CounterOf(q.jobs[id])) && other <= id|
  }

  /** next_token - cnt + rn - 1 over the counter as the batch leaves it. */
  function RankedToken(q: Queue, id: JobId): int
    requires id in q.jobs
  {
    var key := CounterOf(q.jobs[id]);
    var cnt := |Partition(q, key)|;
    (NextToken(q, key) + cnt) - cnt + RowNumber(q, id) - 1
  }

  function AfterExpire(q: Queue): Queue {
    var keys := set id | id in FailableIds(q) :: CounterOf(q.jobs[id]);
    q.(jobs := map id | id in q.jobs ::
         if id in FailableIds(q) then q.jobs[id].(state := Failed, token := RankedToken(q, id)) else q.jobs[id],
       counters := map key | key in q.counters.Keys + keys :: NextToken(q, key) + |Partition(q, key)|,
       grants := q.grants + (set id | id in FailableIds(q) :: Grant(CounterOf(q.jobs[id]), RankedToken(q, id), id)))
  }

  // ---------------------------------------------------------------- the Rust watcher

  /** What COALESCE(MAX(fencing_token), 0) ranges over. */
  function Tokens(q: Queue, p: ProblemId): set<int> {
    {0} + set id | id in q.jobs && q.jobs[id].request.problem == Some(p) :: q.jobs[id].token
  }

  /** COALESCE(MAX(fencing_token), 0) over the retained jobs of a problem. */
  function MaxToken(q: Queue, p: ProblemId): (top: int)
    ensures top in Tokens(q, p) && forall n :: n in Tokens(q, p) ==> n <= top
  {
    Maximum(Tokens(q, p))
  }

  /** allocate_counter_value: the generation to hand out and the next counter value. */
  function AllocateCounterValue(currentNext: int, maxObserved: int): (int, int) {
    var generation := Max(Max(currentNext, maxObserved + 1), 1);
    (generation, generation + 1)
  }

  function NextGeneration(q: Queue, p: ProblemId): int {
    if p in q.generations then q.generations[p] else 1
  }

  function HandedOut(q: Queue, p: ProblemId): seq<int> {
    if p in q.handedOut then q.handedOut[p] else []
  }

  /** allocateGeneration. */
  function AfterAllocate(q: Queue, p: ProblemId): Queue {
    q.(generations := q.generations[p := NextGeneration(q, p) + 1],
       handedOut := q.handedOut[p := HandedOut(q, p) + [NextGeneration(q, p)]])
  }

  /** next_generation as the watcher's INSERT ... ON CONFLICT leaves it. */
  function WatcherNext(q: Queue, p: ProblemId, maxGeneration: int): int {
    if p in q.generations then Max(q.generations[p], Max(maxGeneration + 2, 2) - 1) + 1 else Max(maxGeneration + 2, 2)
  }

  /** next_token as the watcher's INSERT ... ON CONFLICT leaves it. */
  function WatcherNextToken(q: Queue, p: ProblemId): int {
    if p in q.counters then Max(q.counters[p], MaxToken(q, p) + 1) + 1 else Max(MaxToken(q, p) + 2, 2)
  }

  /** The watcher's first statement: a generation and a token. */
  function AfterSeed(q: Queue, p: ProblemId, maxGeneration: int): Queue {
    q.(counters := q.counters[p := WatcherNextToken(q, p)],
       generations := q.generations[p := WatcherNext(q, p, maxGeneration)],
       handedOut := q.handedOut[p := HandedOut(q, p) + [WatcherNext(q, p, maxGeneration) - 1]])
  }

  predicate PendingSnapshot(q: Queue, id: JobId, p: ProblemId) {
    id in q.jobs && q.jobs[id].request.problem == Some(p) && q.jobs[id].request.jobType == Snapshot
    && q.jobs[id].state == Pending
  }

  /** The claim of the pending job: it costs an attempt. */
  function AfterWatchClaim(q: Queue, id: JobId, worker: string, lease: nat): Queue
    requires id in q.jobs
  {
    var job := q.jobs[id];
    var key := CounterOf(job);
    SetJob(Issue(q, key, id), id,
           job.(state := Running, owner := Some(worker), leaseUntil := Some(q.now + lease), token := NextToken(q, key),
                attempt := job.attempt + 1)).(claims := q.claims[id := Claims(q, id) + 1])
  }

  function WatchJob(q: Queue, p: ProblemId, key: string, generation: int, worker: string, lease: nat, token: int): Job {
    Job(Request(key, Snapshot, Some(p), Some(generation), ""), Running, Some(worker), Some(q.now + lease), token, 1, 3,
      false)
  }

  /** The insert when nothing is pending. The claiming statement has drawn a second token all the same. */
  function AfterWatchInsert(q: Queue, p: ProblemId, job: Job): Queue {
    q.(jobs := q.jobs[q.nextId := job], nextId := q.nextId + 1,
       counters := q.counters[p := NextToken(q, p) + 1], grants := q.grants + {Grant(p, job.token, q.nextId)})
  }

  predicate AnyPendingSnapshot(q: Queue, p: ProblemId) {
    exists id :: id in q.jobs && PendingSnapshot(q, id, p)
  }

  /**
   acquire_dirty_snapshot_job_by_code as one transaction. `id` is the pending snapshot job if there is one.
   Where a unique index refuses the write, everything rolls back.
   */
  function AfterWatch(q: Queue, p: ProblemId, maxGeneration: int, id: JobId, key: string, worker: string,
    lease: nat): Queue {
    var seeded := AfterSeed(q, p, maxGeneration);
    var token := NextToken(seeded, p) - 1;
    if AnyPendingSnapshot(seeded, p) then
      if PendingSnapshot(seeded, id, p) && !RunningElsewhere(seeded, id, seeded.jobs[id])
      then AfterWatchClaim(seeded, id, worker, lease) else q
    else
      var job := WatchJob(seeded, p, key, NextGeneration(seeded, p) - 1, worker, lease, token);
      if ActiveTwin(seeded, seeded.nextId, job) then seeded.(counters := seeded.counters[p := NextToken(seeded, p) + 1])
      else if RunningElsewhere(seeded, seeded.nextId, job) || AnyKey(seeded, job.request) then q
      else AfterWatchInsert(seeded, p, job)
  }

  /** fail_job: back to 'pending' while attempts are left. */
  function AfterFailJob(q: Queue, id: JobId): Queue
    requires id in q.jobs
  {
    SetJob(q, id, q.jobs[id].(state := if q.jobs[id].attempt < q.jobs[id].maxAttempts then Pending else Failed,
                              owner := None, leaseUntil := None))
  }

  // ---------------------------------------------------------------- steps

  datatype Step =
    | Tick(seconds: nat)
    | SetPaused(paused: bool)
    | Create(request: Request)
    | RestoreIfMissing(request: Request, present: bool)
    | TouchAccess(problem: ProblemId)
    | Acquire(id: JobId, worker: string, lease: nat)
    | Renew(id: JobId, worker: string, token: int, lease: nat)
    | Finish(id: JobId, worker: string, token: int, outcome: JobState)
    | Expire
    | Cancel(id: JobId)
    | Retry(id: JobId)
    | Allocate(p: ProblemId)
    | Watch(p: ProblemId, maxGeneration: int, id: JobId, key: string, worker: string, lease: nat)
    | FailJob(id: JobId, worker: string, token: int)
    | Purge(ids: set<JobId>)

  predicate Holder(q: Queue, id: JobId, owner: string, token: int) {
    id in q.jobs && q.jobs[id].state == Running && q.jobs[id].owner == Some(owner) && q.jobs[id].token == token
  }

  predicate Terminal(state: JobState) {
    state == Completed || state == Failed || state == Cancelled
  }

  function After(q: Queue, step: Step): Queue {
    match step
    case Tick(seconds) => q.(now := q.now + seconds)
    case SetPaused(paused) => q.(paused := paused)
    case Create(request) => AfterCreate(q, request)
    case RestoreIfMissing(request, present) => AfterRestoreIfMissing(q, request, present)
    case TouchAccess(problem) => WithoutPending(q, problem, {Evict})
    case Acquire(id, worker, lease) => if CanAcquire(q, id) then AfterAcquire(q, id, worker, lease) else q
    case Renew(id, worker, token, lease) => if Live(q, id, worker, token) then AfterRenew(q, id, lease) else q
    case Finish(id, worker, token, outcome) =>
      if Live(q, id, worker, token) && Terminal(outcome) then AfterFinish(q, id, outcome) else q
    case Expire => AfterExpire(q)
    case Cancel(id) => if id in q.jobs && Active(q.jobs[id]) then AfterCancel(q, id) else q
    case Retry(id) => if CanRetry(q, id) then AfterRetry(q, id) else q
    case Allocate(p) => AfterAllocate(q, p)
    case Watch(p, maxGeneration, id, key, worker, lease) => AfterWatch(q, p, maxGeneration, id, key, worker, lease)
    case FailJob(id, worker, token) => if Holder(q, id, worker, token) then AfterFailJob(q, id) else q
    // rows are picked by completed_at alone, which a retry keeps: any row can be among them
    case Purge(ids) => q.(jobs := q.jobs - ids)
  }
}
