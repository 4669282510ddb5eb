/** The job functions of the control plane as methods on the table they update. */
module JobTables {
  import opened Common
  import opened JobQueue
  import opened JobFencing
  import opened JobRuns
  import opened JobExclusion
  import opened JobHolds

  datatype CreateError = IdempotencyConflict | OperationConflictFor(problem: Option<ProblemId>)

  predicate SameName(a: Request, b: Request) {
    a.key == b.key && a.jobType == b.jobType
  }

  /** UNIQUE (idempotency_key, job_type). */
  ghost predicate KeysUnique(jobs: map<JobId, Job>) {
    forall i, j :: i in jobs && j in jobs && SameName(jobs[i].request, jobs[j].request) ==> i == j
  }

  /** The key belongs to a different request. */
  ghost predicate KeyTaken(q: Queue, r: Request) {
    exists id :: id in q.jobs && SameKey(q, id, r) && q.jobs[id].request != r
  }

  /** Same operation on the same problem and generation; collections are one for the whole system. */
  predicate Serves(job: Job, r: Request) {
    job.request.jobType == r.jobType && job.request.problem == r.problem
    && (job.request.generation == r.generation || (r.jobType == GcCollect && r.problem.None?))
  }

  /** Rows that were not there before carry a name that nobody had. */
  ghost predicate NewNames(q: Queue, v: Queue) {
    forall id :: id in v.jobs && id >= q.nextId ==> id == q.nextId && !AnyKey(q, v.jobs[id].request)
  }

  lemma StepsNameNew(q: Queue, step: Step)
    requires QueueInv(q)
    ensures NewNames(q, After(q, step))
  {
    hide TokensOk, BudgetOk, RowOk, AnyKey, AnyActive, AnyIncompatible, ActiveTwin, RunningElsewhere, RankedToken,
      FailableIds, Acquirable, AnyPendingSnapshot, AnyRestore, AfterWatch, AfterRestoreIfMissing;
    match step
    case RestoreIfMissing(request, present) => RestoreNamesNew(q, request, present);
    case Watch(p, maxGeneration, id, key, worker, lease) => WatchNamesNew(q, p, maxGeneration, id, key, worker, lease);
    case _ =>
  }

  lemma RestoreNamesNew(q: Queue, r: Request, present: bool)
    requires QueueInv(q)
    ensures NewNames(q, AfterRestoreIfMissing(q, r, present))
  {
    hide TokensOk, BudgetOk, RowOk, AnyKey, AnyActive, AnyIncompatible, ActiveTwin, AnyRestore;
  }

  lemma WatchNamesNew(q: Queue, p: ProblemId, maxGeneration: int, id: JobId, key: string, worker: string, lease: nat)
    requires QueueInv(q)
    ensures NewNames(q, AfterWatch(q, p, maxGeneration, id, key, worker, lease))
  {
    hide TokensOk, BudgetOk, RowOk, ActiveTwin, RunningElsewhere, AnyPendingSnapshot, WatcherNext, WatcherNextToken,
      AnyKey;
    var seeded := AfterSeed(q, p, maxGeneration);
    forall r
      ensures AnyKey(seeded, r) <==> AnyKey(q, r)
    {
      SameKeys(q, seeded, r);
    }
  }

  lemma SameKeys(q: Queue, v: Queue, r: Request)
    requires v.jobs == q.jobs
    ensures AnyKey(v, r) <==> AnyKey(q, r)
  {
  }

  lemma NewIdIsFree(q: Queue)
    requires QueueInv(q)
    ensures q.nextId !in q.jobs
  {
    hide TokensOk, BudgetOk, RowOk;
  }

  lemma StepKeepsKeys(q: Queue, step: Step)
    requires QueueInv(q) && KeysUnique(q.jobs)
    ensures KeysUnique(After(q, step).jobs)
  {
    hide TokensOk, BudgetOk, RowOk, After, RowKept, AnyKey;
    StepKeeps(q, step);
    StepsNameNew(q, step);
    var v := After(q, step);
    forall i, j | i in v.jobs && j in v.jobs && SameName(v.jobs[i].request, v.jobs[j].request)
      ensures i == j
    {
      if i < q.nextId { KeptRequest(q, v, i); }
      if j < q.nextId { KeptRequest(q, v, j); }
      if i < q.nextId <= j { NotAnyKey(q, i, v.jobs[j].request); }
      if j < q.nextId <= i { NotAnyKey(q, j, v.jobs[i].request); }
    }
  }

  lemma KeptRequest(q: Queue, v: Queue, id: JobId)
    requires Kept(q, v) && id in v.jobs && id < q.nextId
    ensures id in q.jobs && v.jobs[id].request == q.jobs[id].request
  {
  }

  lemma NotAnyKey(q: Queue, id: JobId, r: Request)
    requires id in q.jobs && !AnyKey(q, r)
    ensures !SameName(q.jobs[id].request, r)
  {
  }

  /** Creating the same job again changes nothing: the first row is replayed. */
  lemma CreateIsIdempotent(q: Queue, r: Request)
    ensures AfterCreate(AfterCreate(q, r), r) == AfterCreate(q, r)
  {
    hide ActiveTwin, AnyActive, AnyIncompatible;
    var v := AfterCreate(q, r);
    if Inserts(q, r) {
      assert SameKey(v, q.nextId, r);
    }
  }

  // ---------------------------------------------------------------- expiry one row at a time

  /** The revoked rows of one counter that come before id `i`. */
  function Done(q: Queue, key: CounterKey, i: nat): set<JobId> {
    set id | id in Partition(q, key) && id < i
  }

  ghost predicate RowsPassed(q: Queue, jobs: map<JobId, Job>, i: nat) {
    && jobs.Keys == q.jobs.Keys
    && forall id :: id in q.jobs ==>
         jobs[id] == if id < i && id in FailableIds(q) then q.jobs[id].(state := Failed, token := RankedToken(q, id))
                     else q.jobs[id]
  }

  ghost predicate CountersPassed(q: Queue, counters: map<CounterKey, int>, i: nat) {
    && (forall key :: key in counters <==> key in q.counters || Done(q, key, i) != {})
    && (forall key :: Next(counters, key) == NextToken(q, key) + |Done(q, key, i)|)
  }

  function DoneAll(q: Queue, i: nat): set<JobId> {
    set id | id in FailableIds(q) && id < i
  }

  function GrantsOf(q: Queue, ids: set<JobId>): set<Grant>
    requires ids <= q.jobs.Keys
  {
    set id | id in ids :: Grant(CounterOf(q.jobs[id]), RankedToken(q, id), id)
  }

  /** Where a pass over the ids in order, one token a row, has got to. */
  ghost predicate Passed(q: Queue, v: Queue, i: nat) {
    && v == q.(jobs := v.jobs, counters := v.counters, grants := v.grants)
    && RowsPassed(q, v.jobs, i) && CountersPassed(q, v.counters, i)
    && v.grants == q.grants + GrantsOf(q, DoneAll(q, i))
  }

  lemma PassStarts(q: Queue)
    ensures Passed(q, q, 0)
  {
    hide Failable, RankedToken;
    assert forall key :: Done(q, key, 0) == {};
    assert DoneAll(q, 0) == {};
  }

  lemma InPartition(q: Queue, key: CounterKey, i: nat)
    ensures i in Partition(q, key) <==> i in FailableIds(q) && key == CounterOf(q.jobs[i])
  {
    hide Failable;
  }

  lemma DoneStep(q: Queue, key: CounterKey, i: nat)
    ensures i !in Done(q, key, i)
    ensures Done(q, key, i + 1) ==
            if i in FailableIds(q) && CounterOf(q.jobs[i]) == key then Done(q, key, i) + {i} else Done(q, key, i)
  {
    hide Partition, FailableIds;
    InPartition(q, key, i);
  }

  lemma DoneAllStep(q: Queue, i: nat)
    ensures DoneAll(q, i + 1) == if i in FailableIds(q) then DoneAll(q, i) + {i} else DoneAll(q, i)
  {
    hide FailableIds;
  }

  lemma DoneAllEnds(q: Queue)
    requires RowsOk(q.jobs, q.nextId)
    ensures DoneAll(q, q.nextId) == FailableIds(q)
  {
    hide Failable, RowOk;
  }

  lemma PassSame(q: Queue, v: Queue, i: nat)
    requires Passed(q, v, i)
    ensures i in v.jobs <==> i in q.jobs
    ensures i in v.jobs ==> v.jobs[i] == q.jobs[i] && (Failable(v, v.jobs[i]) <==> i in FailableIds(q))
    ensures i !in v.jobs ==> i !in FailableIds(q)
  {
    hide RankedToken, CountersPassed, GrantsOf;
  }

  lemma PassSkips(q: Queue, v: Queue, i: nat)
    requires Passed(q, v, i) && i !in FailableIds(q)
    ensures Passed(q, v, i + 1)
  {
    hide FailableIds, RankedToken, GrantsOf, Done;
    DoneAllStep(q, i);
    forall key
      ensures Done(q, key, i + 1) == Done(q, key, i)
    {
      DoneStep(q, key, i);
    }
  }

  lemma TokenInTurn(q: Queue, i: nat)
    requires i in FailableIds(q)
    ensures var key := CounterOf(q.jobs[i]); RankedToken(q, i) == NextToken(q, key) + |Done(q, key, i)|
  {
    hide Failable, NextToken;
    var key := CounterOf(q.jobs[i]);
    DoneStep(q, key, i);
    assert (set other | other in Partition(q, key) && other <= i) == Done(q, key, i + 1);
  }

  lemma CountersAdvance(q: Queue, counters: map<CounterKey, int>, i: nat)
    requires CountersPassed(q, counters, i) && i in FailableIds(q)
    ensures var key := CounterOf(q.jobs[i]); CountersPassed(q, counters[key := Next(counters, key) + 1], i + 1)
  {
    hide Failable, Done;
    forall k
      ensures i !in Done(q, k, i)
      ensures Done(q, k, i + 1) == if k == CounterOf(q.jobs[i]) then Done(q, k, i) + {i} else Done(q, k, i)
    {
      DoneStep(q, k, i);
    }
  }

  lemma RowsAdvance(q: Queue, jobs: map<JobId, Job>, i: nat)
    requires RowsPassed(q, jobs, i) && i in FailableIds(q)
    ensures i in jobs && jobs[i] == q.jobs[i]
    ensures RowsPassed(q, jobs[i := q.jobs[i].(state := Failed, token := RankedToken(q, i))], i + 1)
  {
    hide Failable, RankedToken;
  }

  /** Issuing to the next revoked row gives it exactly its ranked token. */
  lemma PassRevokes(q: Queue, v: Queue, i: nat)
    requires Passed(q, v, i) && i in FailableIds(q)
    ensures i in v.jobs && v.jobs[i] == q.jobs[i]
    ensures var key := CounterOf(q.jobs[i]);
            Passed(q, SetJob(Issue(v, key, i), i, v.jobs[i].(state := Failed, token := NextToken(v, key))), i + 1)
  {
    hide Failable, RankedToken, CountersPassed, RowsPassed, Done;
    var key := CounterOf(q.jobs[i]);
    RowsAdvance(q, v.jobs, i);
    TokenInTurn(q, i);
    CounterAt(q, v, key, i);
    CountersAdvance(q, v.counters, i);
    DoneAllStep(q, i);
    assert GrantsOf(q, DoneAll(q, i + 1)) == GrantsOf(q, DoneAll(q, i)) + {Grant(key, RankedToken(q, i), i)};
  }

  lemma CounterAt(q: Queue, v: Queue, key: CounterKey, i: nat)
    requires CountersPassed(q, v.counters, i)
    ensures NextToken(v, key) == NextToken(q, key) + |Done(q, key, i)|
  {
    hide Done;
    assert Next(v.counters, key) == NextToken(q, key) + |Done(q, key, i)|;
  }

  lemma CountersEnd(q: Queue, counters: map<CounterKey, int>)
    requires RowsOk(q.jobs, q.nextId) && CountersPassed(q, counters, q.nextId)
    ensures counters == AfterExpire(q).counters
  {
    hide Failable, RankedToken, RowOk;
    var u := AfterExpire(q);
    forall key
      ensures Done(q, key, q.nextId) == Partition(q, key)
      ensures Partition(q, key) != {} <==> exists id :: id in FailableIds(q) && CounterOf(q.jobs[id]) == key
    {
      if id :| id in FailableIds(q) && CounterOf(q.jobs[id]) == key { InPartition(q, key, id); }
      if id :| id in Partition(q, key) { InPartition(q, key, id); }
    }
    forall key | key in counters
      ensures key in u.counters && counters[key] == u.counters[key]
    {
      assert Next(counters, key) == NextToken(q, key) + |Done(q, key, q.nextId)|;
    }
  }

  /** At the end the pass has done what the batch statement does. */
  lemma PassEnds(q: Queue, v: Queue)
    requires RowsOk(q.jobs, q.nextId) && Passed(q, v, q.nextId)
    ensures v == AfterExpire(q)
  {
    hide FailableIds, RankedToken, CountersPassed, RowOk;
    CountersEnd(q, v.counters);
    DoneAllEnds(q);
    assert v.jobs == AfterExpire(q).jobs;
  }

  predicate IsCandidate(q: Queue, restoreLane: bool, id: JobId) {
    id in q.jobs && Acquirable(q, q.jobs[id]) && (restoreLane ==> q.jobs[id].request.jobType == Restore)
  }

  /** (job_type = 'restore') DESC, created_at ASC, id ASC. */
  predicate Before(q: Queue, a: JobId, b: JobId) {
    a in q.jobs && b in q.jobs
    && ((q.jobs[a].request.jobType == Restore && q.jobs[b].request.jobType != Restore)
        || ((q.jobs[a].request.jobType == Restore <==> q.jobs[b].request.jobType == Restore) && a <= b))
  }

  lemma NeverCancelled(q: Queue, id: JobId)
    requires QueueInv(q) && id in q.jobs && Acquirable(q, q.jobs[id])
    ensures !q.jobs[id].cancelRequested
  {
    hide TokensOk, BudgetOk;
  }

  lemma SameRefusal(q: Queue, u: Queue, v: Queue, p: ProblemId, key: string)
    requires u.jobs == q.jobs && v.jobs == q.jobs && exists w :: WatchRefused(q, w, p, key)
    ensures WatchRefused(u, v, p, key)
  {
  }

  lemma SameWaiting(q: Queue, v: Queue, p: ProblemId)
    requires v.jobs == q.jobs
    ensures SnapshotWaits(v, p) <==> SnapshotWaits(q, p)
  {
  }

  lemma KeyRefuses(q: Queue, v: Queue, p: ProblemId, r: Request)
    requires AnyKey(q, r) && r.jobType == Snapshot && v.jobs == q.jobs
    ensures WatchRefused(q, v, p, r.key)
  {
  }

  lemma KeepsNow(q: Queue, p: ProblemId, maxGeneration: int, id: JobId, key: string, worker: string, lease: nat)
    ensures AfterWatch(q, p, maxGeneration, id, key, worker, lease).now == q.now
  {
    hide WatcherNext, WatcherNextToken, RunningElsewhere, ActiveTwin, AnyKey, AnyPendingSnapshot, PendingSnapshot;
  }

  /** A running row was never cancelled, so its holder is live until the lease ends. */
  lemma RunningIsLive(q: Queue, id: JobId)
    requires QueueInv(q) && id in q.jobs && q.jobs[id].state == Running
    ensures q.jobs[id].owner.Some? && q.jobs[id].leaseUntil.Some?
    ensures q.jobs[id].leaseUntil.value >= q.now ==> Live(q, id, q.jobs[id].owner.value, q.jobs[id].token)
  {
    hide TokensOk, BudgetOk;
  }

  // ---------------------------------------------------------------- which requests a row answers

  /** One row serves all requests of these types, whatever their parameters. */
  predicate Coalesces(t: JobType) {
    t == Scan || t == Snapshot || t == Restore || t == GcCollect
  }

  /** An unfinished job for the same operation, problem and generation, with the same parameters if they count. */
  predicate Joins(job: Job, r: Request) {
    && (job.state == Pending || job.state == Running)
    && job.request.jobType == r.jobType && job.request.problem == r.problem && job.request.generation == r.generation
    && (Coalesces(r.jobType) || job.request.fingerprint == r.fingerprint)
  }

  /** An unfinished local operation on the problem, other than a scan beside a snapshot or a snapshot beside a scan. */
  predicate Blocks(job: Job, r: Request) {
    && (job.state == Pending || job.state == Running)
    && r.problem.Some? && job.request.problem == r.problem && LocalType(job.request.jobType)
    && {r.jobType, job.request.jobType} != {Scan, Snapshot}
  }

  lemma JoinsExactly(q: Queue, r: Request, id: JobId)
    ensures Matches(q, id, r) <==> id in q.jobs && Joins(q.jobs[id], r)
    ensures Incompatible(q, id, r) <==> id in q.jobs && Blocks(q.jobs[id], r)
  {
    if id in q.jobs {
      var t, u := r.jobType, q.jobs[id].request.jobType;
      assert t in {t, u} && u in {t, u};
      assert Scan in {Scan, Snapshot} && Snapshot in {Scan, Snapshot};
      if Compatible(t, u) { assert {t, u} == {Scan, Snapshot}; }
    }
  }

  /** What a create request comes to, and what it leaves in the table. */
  ghost predicate AnsweredFrom(q: Queue, v: Queue, r: Request, id: JobId) {
    v == q && id in q.jobs
    && if AnyKey(q, r) then q.jobs[id].request == r
       else Joins(q.jobs[id], r)
            || (r.jobType == GcCollect && r.problem.None? && Active(q.jobs[id])
                && q.jobs[id].request.jobType == GcCollect && q.jobs[id].request.problem.None?)
  }

  ghost predicate InsertedFor(q: Queue, v: Queue, r: Request, id: JobId) {
    && id !in q.jobs && v == q.(jobs := q.jobs[id := Job(r, Pending, None, None, 0, 1, 3, false)], nextId := id + 1)
    && !AnyKey(q, r) && forall other :: other in q.jobs ==> !Joins(q.jobs[other], r) && !Blocks(q.jobs[other], r)
  }

  ghost predicate Conflicts(q: Queue, r: Request) {
    && !AnyKey(q, r) && (forall other :: other in q.jobs ==> !Joins(q.jobs[other], r))
    && exists other :: other in q.jobs && Blocks(q.jobs[other], r)
  }

  /** A unique index refuses only what is blocked already, or a second collection. */
  lemma TwinsBlock(q: Queue, r: Request)
    requires QueueInv(q) && ActiveTwin(q, q.nextId, NewJob(r))
    ensures r.jobType != GcCollect ==> exists other :: other in q.jobs && Blocks(q.jobs[other], r)
  {
    hide QueueInv;
    var other :| other in q.jobs && other != q.nextId && Active(q.jobs[other])
                 && q.jobs[other].request.jobType == r.jobType
                 && ((LocalType(r.jobType) && SameProblem(q.jobs[other], NewJob(r)))
                     || (r.jobType == GcCollect && r.problem.None? && q.jobs[other].request.problem.None?));
    if r.jobType != GcCollect {
      assert Scan in {Scan, Snapshot} && Snapshot in {Scan, Snapshot};
      assert Blocks(q.jobs[other], r);
    }
  }

  lemma RequestsExactly(q: Queue, r: Request)
    ensures AnyActive(q, r) <==> exists id :: id in q.jobs && Joins(q.jobs[id], r)
    ensures AnyIncompatible(q, r) <==> exists id :: id in q.jobs && Blocks(q.jobs[id], r)
  {
    hide Matches, Incompatible, Joins, Blocks;
    forall id
      ensures Matches(q, id, r) <==> id in q.jobs && Joins(q.jobs[id], r)
      ensures Incompatible(q, id, r) <==> id in q.jobs && Blocks(q.jobs[id], r)
    {
      JoinsExactly(q, r, id);
    }
  }

  lemma ConflictsExactly(q: Queue, r: Request)
    requires QueueInv(q)
    ensures Conflicts(q, r) <==>
              !AnyKey(q, r) && !AnyActive(q, r)
              && (AnyIncompatible(q, r) || (ActiveTwin(q, q.nextId, NewJob(r)) && r.jobType != GcCollect))
    ensures !Inserts(q, r) ==> AfterCreate(q, r) == q
  {
    RequestsExactly(q, r);
    if ActiveTwin(q, q.nextId, NewJob(r)) { TwinsBlock(q, r); }
    hide QueueInv, AnyKey, AnyActive, AnyIncompatible, ActiveTwin, Joins, Blocks;
  }

  lemma KeyStops(q: Queue, r: Request)
    ensures AnyKey(q, r) ==> AfterCreate(q, r) == q && !Conflicts(q, r)
    ensures KeyTaken(q, r) ==> AnyKey(q, r)
  {
    hide AnyActive, AnyIncompatible, ActiveTwin, Joins, Blocks;
  }

  // ---------------------------------------------------------------- what a restore asks of other jobs

  predicate Waiting(job: Job, p: Option<ProblemId>) {
    job.request.problem == p && job.state == Pending && (job.request.jobType == Scan || job.request.jobType == Snapshot)
  }

  /** Waiting scans and snapshots of the problem are cancelled, all else stays; and the restore is new, if made. */
  ghost predicate GaveWay(jobs: map<JobId, Job>, after: map<JobId, Job>, r: Request, made: Option<JobId>) {
    && after.Keys == jobs.Keys + (if made.Some? then {made.value} else {})
    && (made.Some? ==> made.value !in jobs && after[made.value] == Job(r, Pending, None, None, 0, 1, 3, false))
    && forall id :: id in jobs ==>
         after[id] == if Waiting(jobs[id], r.problem) then jobs[id].(state := Cancelled) else jobs[id]
  }

  /** The restore is new, but a local job of the problem is under way, or waits and will not give way. */
  ghost predicate RestoreBlocked(q: Queue, r: Request) {
    && !AnyKey(q, r) && !AnyRestore(q, r)
    && exists id :: id in q.jobs && (q.jobs[id].state == Pending || q.jobs[id].state == Running)
                    && q.jobs[id].request.problem == r.problem && LocalType(q.jobs[id].request.jobType)
                    && !Waiting(q.jobs[id], r.problem)
  }

  lemma RestoreBlockedExactly(q: Queue, r: Request)
    requires QueueInv(q) && r.jobType == Restore && r.problem.Some?
    ensures RestoreBlocked(q, r) <==>
              !AnyKey(q, r) && !AnyRestore(q, r) && !Inserts(WithoutPending(q, r.problem.value, {Scan, Snapshot}), r)
  {
    hide QueueInv, AnyKey;
    var cleared := WithoutPending(q, r.problem.value, {Scan, Snapshot});
    ClearedKeys(q, r);
    if id :| id in q.jobs && (q.jobs[id].state == Pending || q.jobs[id].state == Running)
             && q.jobs[id].request.problem == r.problem && LocalType(q.jobs[id].request.jobType)
             && !Waiting(q.jobs[id], r.problem)
    {
      assert Incompatible(cleared, id, r);
    }
  }

  lemma ClearedKeys(q: Queue, r: Request)
    requires r.problem.Some?
    ensures AnyKey(WithoutPending(q, r.problem.value, {Scan, Snapshot}), r) <==> AnyKey(q, r)
  {
    var cleared := WithoutPending(q, r.problem.value, {Scan, Snapshot});
    if id :| id in q.jobs && SameKey(q, id, r) { assert SameKey(cleared, id, r); }
    if id :| id in cleared.jobs && SameKey(cleared, id, r) { assert SameKey(q, id, r); }
  }

  lemma RestoreGivesWay(q: Queue, r: Request)
    requires QueueInv(q) && r.problem.Some?
    ensures var cleared := WithoutPending(q, r.problem.value, {Scan, Snapshot});
            && GaveWay(q.jobs, cleared.jobs, r, None)
            && GaveWay(q.jobs, cleared.jobs[q.nextId := NewJob(r)], r, Some(q.nextId))
  {
    NewIdIsFree(q);
    hide QueueInv;
  }

  lemma KeyStopsRestore(q: Queue, r: Request)
    ensures KeyTaken(q, r) ==> AnyKey(q, r)
    ensures AnyKey(q, r) || AnyRestore(q, r) ==> !RestoreBlocked(q, r)
  {
  }

  lemma RestoreComesTo(q: Queue, r: Request, present: bool)
    requires r.jobType == Restore && r.problem.Some? && !AnyKey(q, r) && !AnyRestore(q, r)
    ensures var cleared := WithoutPending(q, r.problem.value, {Scan, Snapshot});
            AfterRestoreIfMissing(q, r, present) ==
              if present then q.(jobs := cleared.jobs)
              else if Inserts(cleared, r) then q.(jobs := cleared.jobs[q.nextId := NewJob(r)], nextId := q.nextId + 1)
              else q
  {
    hide AnyKey, AnyRestore, Inserts;
  }

  // ---------------------------------------------------------------- which job a lane takes

  /** Restores before everything else, then the older one. */
  predicate ComesFirst(q: Queue, a: JobId, b: JobId)
    requires a in q.jobs && b in q.jobs
  {
    if q.jobs[a].request.jobType == Restore then q.jobs[b].request.jobType != Restore || a < b
    else q.jobs[b].request.jobType != Restore && a < b
  }

  ghost predicate FirstInLane(q: Queue, restoreLane: bool, id: JobId) {
    IsCandidate(q, restoreLane, id)
    && forall other :: IsCandidate(q, restoreLane, other) && other != id ==> ComesFirst(q, id, other)
  }

  lemma OneComesFirst(q: Queue, restoreLane: bool, id: JobId, other: JobId)
    requires FirstInLane(q, restoreLane, id) && FirstInLane(q, restoreLane, other)
    ensures id == other
  {
    hide Acquirable;
  }

  class JobTable {
    var now: Time
    var paused: bool
    var jobs: map<JobId, Job>
    var nextId: JobId
    var counters: map<CounterKey, int>
    var generations: map<ProblemId, int>
    var grants: set<Grant>
    var handedOut: map<ProblemId, seq<int>>
    var claims: map<JobId, nat>

    function Table(): Queue
      reads this
    {
      Queue(now, paused, jobs, nextId, counters, generations, grants, handedOut, claims)
    }

    constructor (now: Time)
      ensures Table() == Init(now) && QueueInv(Table()) && Exclusive(jobs)
    {
      this.now, paused, jobs, nextId, counters, generations := now, false, map[], 0, map[], map[];
      grants, handedOut, claims := {}, map[], map[];
    }

    /** The next value of a counter, drawn for a row. */
    method DrawToken(key: CounterKey, id: JobId) returns (token: int)
      modifies this`counters, this`grants
      ensures Table() == Issue(old(Table()), key, id) && token == NextToken(old(Table()), key)
    {
      token := if key in counters then counters[key] else 1;
      counters := counters[key := token + 1];
      grants := grants + {Grant(key, token, id)};
    }

    /** Expired rows without attempts left fail, each with a new token, as the ranked batch statement has it. */
    method FailExpiredRunningJobs() returns (count: nat)
      requires QueueInv(Table())
      modifies this`jobs, this`counters, this`grants
      ensures Table() == AfterExpire(old(Table()))
      ensures ExhaustedFail(old(Table()), Table())
      ensures count == |set id | id in old(jobs) && Exhausted(old(Table()), old(jobs)[id])|
    {
      hide TokensOk, BudgetOk, Passed, RankedToken, AfterExpire, Failable, ExhaustedFail, Exhausted;
      ghost var q := Table();
      BatchFailsExhausted(q);
      count := 0;
      PassStarts(q);
      for i := 0 to nextId
        invariant nextId == q.nextId && Passed(q, Table(), i) && count == |DoneAll(q, i)|
      {
        PassSame(q, Table(), i);
        DoneAllStep(q, i);
        if i in jobs {
          if Failable(Table(), jobs[i]) {
            PassRevokes(q, Table(), i);
            var token := DrawToken(CounterOf(jobs[i]), i);
            jobs := jobs[i := jobs[i].(state := Failed, token := token)];
            count := count + 1;
          } else {
            PassSkips(q, Table(), i);
          }
        } else {
          PassSkips(q, Table(), i);
        }
      }
      PassEnds(q, Table());
      DoneAllEnds(q);
    }

    /** The row with this idempotency key, if any. There is at most one. */
    method FindKey(r: Request) returns (found: Option<JobId>)
      ensures found.Some? ==> found.value in jobs && SameKey(Table(), found.value, r)
      ensures found.None? ==> !AnyKey(Table(), r)
    {
      if AnyKey(Table(), r) {
        var id :| id in jobs && SameKey(Table(), id, r);
        return Some(id);
      }
      return None;
    }

    /**
     createJob: replay the row with the key, or return the active match, or refuse what is incompatible, or insert.
     The result is always a job that serves the request.
     */
    method CreateJob(r: Request) returns (res: Result<JobId, CreateError>)
      requires QueueInv(Table()) && KeysUnique(jobs)
      modifies this`jobs, this`nextId
      ensures Table() == AfterCreate(old(Table()), r)
      ensures res.Ok? ==> res.value in jobs && Serves(jobs[res.value], r)
      ensures res == Err(IdempotencyConflict) <==> KeyTaken(old(Table()), r)
      ensures res == Err(OperationConflictFor(r.problem)) <==> Conflicts(old(Table()), r)
      ensures res.Ok? ==> if res.value in old(jobs) then AnsweredFrom(old(Table()), Table(), r, res.value)
                          else InsertedFor(old(Table()), Table(), r, res.value)
      ensures res.Err? ==> Table() == old(Table())
    {
      hide QueueInv, AfterCreate, Joins, Blocks, Inserts;
      KeyStops(Table(), r);
      var replay := FindKey(r);
      if replay.Some? {
        return if jobs[replay.value].request == r then Ok(replay.value) else Err(IdempotencyConflict);
      }
      res := CreateNew(r);
    }

    /** No row has the key. */
    method CreateNew(r: Request) returns (res: Result<JobId, CreateError>)
      requires QueueInv(Table()) && !AnyKey(Table(), r)
      modifies this`jobs, this`nextId
      ensures Table() == AfterCreate(old(Table()), r)
      ensures res.Ok? ==> res.value in jobs && Serves(jobs[res.value], r)
      ensures if res.Err? then res == Err(OperationConflictFor(r.problem)) && Conflicts(old(Table()), r)
              else !Conflicts(old(Table()), r)
      ensures res.Ok? ==> if res.value in old(jobs) then AnsweredFrom(old(Table()), Table(), r, res.value)
                          else InsertedFor(old(Table()), Table(), r, res.value)
      ensures res.Err? ==> Table() == old(Table())
    {
      ConflictsExactly(Table(), r);
      hide QueueInv, AnyKey, AnyActive, AnyIncompatible, ActiveTwin, AfterCreate, Conflicts, Joins, InsertedFor,
        AnsweredFrom, Serves;
      var active := FindActive(r);
      if active.Some? {
        return Ok(active.value);
      }
      if AnyIncompatible(Table(), r) {
        return Err(OperationConflictFor(r.problem));
      }
      if ActiveTwin(Table(), nextId, NewJob(r)) {
        // a unique index refused the row
        if r.jobType != GcCollect {
          return Err(OperationConflictFor(r.problem));
        }
        var twin := RunningCollection(r);
        return Ok(twin);
      }
      res := Ok(nextId);
      Insert(r);
    }

    method Insert(r: Request)
      requires QueueInv(Table()) && Inserts(Table(), r)
      modifies this`jobs, this`nextId
      ensures Table() == AfterCreate(old(Table()), r) && nextId == old(nextId) + 1
      ensures InsertedFor(old(Table()), Table(), r, old(nextId))
      ensures old(nextId) !in old(jobs) && old(nextId) in jobs && Serves(jobs[old(nextId)], r)
    {
      RequestsExactly(Table(), r);
      NewIdIsFree(Table());
      hide QueueInv, AnyKey, AnyActive, AnyIncompatible, ActiveTwin, Joins, Blocks;
      jobs := jobs[nextId := NewJob(r)];
      nextId := nextId + 1;
    }

    method FindActive(r: Request) returns (found: Option<JobId>)
      requires !AnyKey(Table(), r)
      ensures found.Some? ==> found.value in jobs && Serves(jobs[found.value], r)
                              && AnsweredFrom(Table(), Table(), r, found.value)
      ensures found.Some? <==> AnyActive(Table(), r)
    {
      hide AnyKey;
      if AnyActive(Table(), r) {
        var active :| active in jobs && Matches(Table(), active, r);
        JoinsExactly(Table(), r, active);
        return Some(active);
      }
      return None;
    }

    /** The collection that the unique index found. */
    method RunningCollection(r: Request) returns (twin: JobId)
      requires r.jobType == GcCollect && ActiveTwin(Table(), nextId, NewJob(r)) && !AnyKey(Table(), r)
      ensures twin in jobs && Serves(jobs[twin], r) && AnsweredFrom(Table(), Table(), r, twin)
    {
      hide AnyKey;
      twin :| twin in jobs && Active(jobs[twin]) && jobs[twin].request.jobType == GcCollect
              && r.problem.None? && jobs[twin].request.problem.None?;
    }

    /** createRestoreJobIfMissing: one transaction, in which pending scans and snapshots give way. */
    method CreateRestoreJobIfMissing(r: Request, present: bool) returns (res: Result<Option<JobId>, CreateError>)
      requires QueueInv(Table()) && KeysUnique(jobs) && r.jobType == Restore && r.problem.Some?
      modifies this`jobs, this`nextId
      ensures Table() == AfterRestoreIfMissing(old(Table()), r, present)
      ensures res.Ok? && res.value.Some? ==> res.value.value in jobs && Serves(jobs[res.value.value], r)
      ensures res == Err(IdempotencyConflict) <==> KeyTaken(old(Table()), r)
      ensures res == Err(OperationConflictFor(r.problem)) <==> !present && RestoreBlocked(old(Table()), r)
      ensures res.Err? ==> Table() == old(Table())
      ensures res.Ok? ==>
                if AnyKey(old(Table()), r) || AnyRestore(old(Table()), r)
                then Table() == old(Table()) && res.value.Some? && res.value.value in old(jobs)
                else (res.value.None? <==> present) && GaveWay(old(jobs), jobs, r, res.value)
    {
      hide QueueInv, AnyIncompatible, ActiveTwin, Inserts, GaveWay, WithoutPending, AfterCreate;
      KeyStopsRestore(Table(), r);
      var replay := FindKey(r);
      if replay.Some? {
        return if jobs[replay.value].request == r then Ok(replay) else Err(IdempotencyConflict);
      }
      if AnyRestore(Table(), r) {
        var active :| active in jobs && ActiveRestore(Table(), active, r);
        return Ok(Some(active));
      }
      res := ClearTheWay(r, present);
    }

    /** Nothing to replay and no restore under way: the cancellations, and the insert if the folder is missing. */
    method ClearTheWay(r: Request, present: bool) returns (res: Result<Option<JobId>, CreateError>)
      requires QueueInv(Table()) && r.jobType == Restore && r.problem.Some?
      requires !AnyKey(Table(), r) && !AnyRestore(Table(), r)
      modifies this`jobs, this`nextId
      ensures Table() == AfterRestoreIfMissing(old(Table()), r, present)
      ensures if res.Err?
              then res == Err(OperationConflictFor(r.problem)) && !present && RestoreBlocked(old(Table()), r)
              else present || !RestoreBlocked(old(Table()), r)
      ensures res.Err? ==> Table() == old(Table())
      ensures res.Ok? ==> (res.value.None? <==> present) && GaveWay(old(jobs), jobs, r, res.value)
      ensures res.Ok? && res.value.Some? ==> res.value.value in jobs && Serves(jobs[res.value.value], r)
    {
      RestoreBlockedExactly(Table(), r);
      RestoreGivesWay(Table(), r);
      RestoreComesTo(Table(), r, present);
      hide QueueInv, AnyKey, AnyRestore, Inserts, RestoreBlocked, GaveWay, WithoutPending, AfterRestoreIfMissing;
      var cleared := WithoutPending(Table(), r.problem.value, {Scan, Snapshot});
      if present {
        jobs := cleared.jobs;
        return Ok(None);
      }
      if !Inserts(cleared, r) {
        return Err(OperationConflictFor(r.problem));   // and the cancellations are rolled back
      }
      res := Ok(Some(nextId));
      jobs := cleared.jobs[nextId := NewJob(r)];
      nextId := nextId + 1;
    }

    /** The job a lane takes first: restores before everything else in the bulk lane, then the oldest. */
    method FirstCandidate(restoreLane: bool) returns (found: Option<JobId>)
      requires RowsOk(jobs, nextId)
      ensures found.Some? ==> IsCandidate(Table(), restoreLane, found.value)
      ensures found.Some? ==> forall id :: IsCandidate(Table(), restoreLane, id) ==> Before(Table(), found.value, id)
      ensures found.None? ==> forall id :: !IsCandidate(Table(), restoreLane, id)
    {
      hide Acquirable, RowOk;
      found := None;
      for i := 0 to nextId
        invariant found.Some? ==> IsCandidate(Table(), restoreLane, found.value)
        invariant found.Some? ==> forall id: JobId :: id < i && IsCandidate(Table(), restoreLane, id) ==>
                  Before(Table(), found.value, id)
        invariant found.None? ==> forall id: JobId :: id < i ==> !IsCandidate(Table(), restoreLane, id)
      {
        if IsCandidate(Table(), restoreLane, i) {
          if found.None? || !Before(Table(), found.value, i) {
            found := Some(i);
          }
        }
      }
    }

    /**
     acquireJob: expire first, then lease the lane's first candidate, unless another operation of its
     problem runs.
    */
    method AcquireJob(worker: string, lease: nat, restoreLane: bool) returns (acquired: Option<JobId>)
      requires QueueInv(Table())
      modifies this`jobs, this`counters, this`grants, this`claims
      ensures QueueInv(Table())
      ensures acquired.None? ==> Table() == AfterExpire(old(Table()))
      ensures acquired.Some? ==> CanAcquire(AfterExpire(old(Table())), acquired.value)
                                 && Table() == AfterAcquire(AfterExpire(old(Table())), acquired.value, worker, lease)
      ensures acquired.Some? ==> forall id :: IsCandidate(AfterExpire(old(Table())), restoreLane, id) ==>
                Before(AfterExpire(old(Table())), acquired.value, id)
      ensures acquired.Some? ==> Live(Table(), acquired.value, worker, jobs[acquired.value].token)
      ensures ExhaustedFail(old(Table()), AfterExpire(old(Table())))
      ensures acquired.Some? ==> FirstInLane(AfterExpire(old(Table())), restoreLane, acquired.value)
                                 && Acquired(AfterExpire(old(Table())), Table(), acquired.value, worker, lease)
      ensures acquired.None? ==> forall id :: FirstInLane(AfterExpire(old(Table())), restoreLane, id) ==>
                RunningElsewhere(AfterExpire(old(Table())), id, AfterExpire(old(Table())).jobs[id])
    {
      hide RowsOk, TokensOk, BudgetOk, AfterExpire, Acquirable, RunningElsewhere, ExhaustedFail, Exhausted, Acquired;
      ExpireKeepsInv(Table());
      var expired := FailExpiredRunningJobs();
      ghost var q := Table();
      var first := FirstCandidate(restoreLane);
      if first.None? {
        return None;
      }
      var id := first.value;
      assert FirstInLane(q, restoreLane, id);
      if RunningElsewhere(Table(), id, jobs[id]) {
        forall other | FirstInLane(q, restoreLane, other)
          ensures other == id
        {
          OneComesFirst(q, restoreLane, id, other);
        }
        return None;
      }
      AcquireKeepsInv(q, id, worker, lease);
      AcquisitionLeases(q, id, worker, lease);
      NeverCancelled(q, id);
      var again := jobs[id].state != Pending;
      var token := DrawToken(CounterOf(jobs[id]), id);
      claims := if again then claims[id := Claims(Table(), id) + 1] else claims;
      jobs := jobs[id := jobs[id].(state := Running, owner := Some(worker), leaseUntil := Some(now + lease),
        token := token,
                                   attempt := if again then jobs[id].attempt + 1 else jobs[id].attempt)];
      return first;
    }

    method RenewJobLease(id: JobId, worker: string, token: int, lease: nat) returns (renewed: bool)
      modifies this`jobs
      ensures renewed <==> Live(old(Table()), id, worker, token)
      ensures Table() == After(old(Table()), Renew(id, worker, token, lease))
      ensures renewed ==> OnlyRowChanged(old(jobs), jobs, id) && LeasedUntil(Table(), id, worker, token, now + lease)
      ensures !renewed ==> jobs == old(jobs)
    {
      renewed := Live(Table(), id, worker, token);
      if renewed {
        jobs := jobs[id := jobs[id].(leaseUntil := Some(now + lease))];
      }
    }

    /** completeJobWithLease: only the live holder's outcome is written. */
    method CompleteJobWithLease(id: JobId, worker: string, token: int, outcome: JobState) returns (committed: bool)
      requires Terminal(outcome)
      modifies this`jobs
      ensures committed <==> Live(old(Table()), id, worker, token)
      ensures Table() == After(old(Table()), Finish(id, worker, token, outcome))
      ensures if committed then jobs == old(jobs)[id := old(jobs)[id].(state := outcome)] else jobs == old(jobs)
    {
      committed := Live(Table(), id, worker, token);
      if committed {
        jobs := jobs[id := jobs[id].(state := outcome)];
      }
    }

    /** cancelJob: an active row is cancelled under a token of its own. */
    method CancelJob(id: JobId) returns (cancelled: bool)
      modifies this`jobs, this`counters, this`grants
      ensures cancelled <==> id in old(jobs) && Active(old(jobs)[id])
      ensures Table() == After(old(Table()), Cancel(id))
      ensures cancelled && QueueInv(old(Table())) ==> Revoked(old(Table()), Table(), id)
      ensures !cancelled ==> Table() == old(Table())
    {
      hide QueueInv, Revoked;
      if QueueInv(Table()) && id in jobs { CancellationRevokes(Table(), id); }
      cancelled := id in jobs && Active(jobs[id]);
      if cancelled {
        var token := DrawToken(CounterOf(jobs[id]), id);
        jobs := jobs[id := jobs[id].(state := Cancelled, token := token, cancelRequested := true)];
      }
    }

    /** retryJob: a failed or cancelled row with attempts left is pending again. */
    method RetryJob(id: JobId) returns (retried: bool)
      modifies this`jobs
      ensures retried <==> CanRetry(old(Table()), id)
      ensures Table() == After(old(Table()), Retry(id))
      ensures if retried then WaitsAgain(old(Table()), Table(), id) else jobs == old(jobs)
      ensures retried ==> old(jobs)[id].state == Failed || old(jobs)[id].state == Cancelled
    {
      hide ActiveTwin;
      retried := CanRetry(Table(), id);
      if retried {
        jobs := jobs[id := jobs[id].(state := Pending, owner := None, leaseUntil := None, cancelRequested := false)];
      }
    }

    /** The watcher's fail_job: back to 'pending' while attempts are left. */
    method FailJob(id: JobId, worker: string, token: int)
      modifies this`jobs
      ensures Table() == After(old(Table()), Step.FailJob(id, worker, token))
      ensures if id in old(jobs) && old(jobs)[id].state == Running && old(jobs)[id].owner == Some(worker)
                 && old(jobs)[id].token == token
              then HandedBack(old(Table()), Table(), id) else jobs == old(jobs)
    {
      if Holder(Table(), id, worker, token) {
        jobs := jobs[id := jobs[id].(state := if jobs[id].attempt < jobs[id].maxAttempts then Pending else Failed,
                                     owner := None, leaseUntil := None)];
      }
    }

    method Commit(q: Queue)
      modifies this
      ensures Table() == q
    {
      now, paused, jobs, nextId, counters := q.now, q.paused, q.jobs, q.nextId, q.counters;
      generations, grants, handedOut, claims := q.generations, q.grants, q.handedOut, q.claims;
    }

    /** What the watcher's transaction commits, worked out on a copy; a refusal by an index gives the table back. */
    method WatcherTransaction(p: ProblemId, maxGeneration: int, key: string, worker: string, lease: nat)
      returns (v: Queue, acquired: Option<JobId>, ghost id: JobId)
      requires QueueInv(Table())
      ensures v == AfterWatch(Table(), p, maxGeneration, id, key, worker, lease)
      ensures acquired.Some? ==> acquired.value in v.jobs && v.jobs[acquired.value].state == Running
                                 && v.jobs[acquired.value].owner == Some(worker)
                                 && v.jobs[acquired.value].leaseUntil == Some(now + lease)
      ensures if acquired.Some? then Watched(Table(), v, p, acquired.value, key, worker, lease)
              else WatchRefused(Table(), v, p, key)
    {
      hide QueueInv, AfterSeed, RunningElsewhere, ActiveTwin, AnyKey, Watched, WatchRefused, SnapshotWaits;
      var seeded := AfterSeed(Table(), p, maxGeneration);
      SeedFacts(Table(), p, maxGeneration);
      id := 0;
      if AnyPendingSnapshot(seeded, p) {
        var pending :| pending in seeded.jobs && PendingSnapshot(seeded, pending, p);
        id := pending;
        if RunningElsewhere(seeded, pending, seeded.jobs[pending]) {
          ElsewhereRefuses(seeded, Table(), p, pending, seeded.jobs[pending], key);
          SameRefusal(seeded, Table(), Table(), p, key);
          return Table(), None, id;
        }
        ClaimWatches(Table(), p, maxGeneration, pending, key, worker, lease);
        return AfterWatchClaim(seeded, pending, worker, lease), Some(pending), id;
      }
      var job := WatchJob(seeded, p, key, NextGeneration(seeded, p) - 1, worker, lease, NextToken(seeded, p) - 1);
      if ActiveTwin(seeded, seeded.nextId, job) {
        SameWaiting(Table(), seeded, p);
        TwinRefuses(seeded, seeded, p, seeded.nextId, job, key);
        SameRefusal(seeded, Table(), seeded.(counters := seeded.counters[p := NextToken(seeded, p) + 1]), p, key);
        return seeded.(counters := seeded.counters[p := NextToken(seeded, p) + 1]), None, id;
      }
      if RunningElsewhere(seeded, seeded.nextId, job) || AnyKey(seeded, job.request) {
        if RunningElsewhere(seeded, seeded.nextId, job) {
          ElsewhereRefuses(seeded, Table(), p, seeded.nextId, job, key);
        } else {
          KeyRefuses(seeded, Table(), p, job.request);
        }
        SameRefusal(seeded, Table(), Table(), p, key);
        return Table(), None, id;
      }
      InsertWatches(Table(), p, maxGeneration, job, key, worker, lease);
      return AfterWatchInsert(seeded, p, job), Some(seeded.nextId), id;
    }

    /**
     The watcher's transaction: a generation and a token, then the pending snapshot job if there is one, else a new
     running job.
     */
    method AcquireDirtySnapshotJob(p: ProblemId, maxGeneration: int, key: string, worker: string, lease: nat)
      returns (acquired: Option<JobId>)
      requires QueueInv(Table())
      modifies this
      ensures QueueInv(Table())
      ensures exists id :: Table() == AfterWatch(old(Table()), p, maxGeneration, id, key, worker, lease)
      ensures acquired.Some? ==>
                acquired.value in jobs && Live(Table(), acquired.value, worker, jobs[acquired.value].token)
      ensures if acquired.Some? then Watched(old(Table()), Table(), p, acquired.value, key, worker, lease)
              else WatchRefused(old(Table()), Table(), p, key)
    {
      hide QueueInv, AfterWatch, Watched, WatchRefused;
      ghost var q := Table();
      var v, row, id := WatcherTransaction(p, maxGeneration, key, worker, lease);
      WatchKeepsInv(q, p, maxGeneration, id, key, worker, lease);
      KeepsNow(q, p, maxGeneration, id, key, worker, lease);
      if row.Some? { RunningIsLive(v, row.value); }
      Commit(v);
      acquired := row;
    }
  }
}
