/** Theorems about runs of the job queue, whatever the two planes interleave. */
module JobRuns {
  import opened Common
  import opened JobQueue
  import opened JobFencing

  function Exec(q: Queue, run: seq<Step>): Queue
    decreases |run|
  {
    if run == [] then q else Exec(After(q, run[0]), run[1..])
  }

  lemma InitInv(now: Time)
    ensures QueueInv(Init(now))
  {
  }

  lemma {:induction false} RunKeepsInv(q: Queue, run: seq<Step>)
    requires QueueInv(q)
    ensures QueueInv(Exec(q, run))
    decreases |run|
  {
    hide QueueInv, After;
    if run != [] {
      StepKeepsInv(q, run[0]);
      RunKeepsInv(After(q, run[0]), run[1..]);
    }
  }

  // ---------------------------------------------------------------- tokens

  /** Tokens a step grants are newer than every token granted before, and the counter moves past them. */
  predicate Newer(q: Queue, v: Queue) {
    && (forall key :: key in v.counters ==> NextToken(q, key) <= v.counters[key])
    && q.counters.Keys <= v.counters.Keys
    && q.grants <= v.grants
    && (forall g :: g in v.grants && g !in q.grants ==> NextToken(q, g.counter) <= g.token)
  }

  lemma IssueIsNewer(q: Queue, key: CounterKey, id: JobId)
    ensures Newer(q, Issue(q, key, id))
  {
  }

  lemma ExpireIsNewer(q: Queue)
    requires QueueInv(q)
    ensures Newer(q, AfterExpire(q))
  {
    hide FailableIds, RankedToken, Partition, BatchGrants, QueueInv;
    ExpireGrants(q);
    forall g | g in BatchGrants(q)
      ensures NextToken(q, g.counter) <= g.token
    {
      BatchGrantsAreNew(q, g);
    }
  }

  lemma WatchIsNewer(q: Queue, p: ProblemId, maxGeneration: int, id: JobId, key: string, worker: string, lease: nat)
    requires QueueInv(q)
    ensures Newer(q, AfterWatch(q, p, maxGeneration, id, key, worker, lease))
  {
    hide QueueInv, AfterSeed, AfterWatchClaim, AfterWatchInsert, RunningElsewhere, ActiveTwin, AnyKey, Newer;
    SameIsNewer(q, q);
    var seeded := AfterSeed(q, p, maxGeneration);
    SeedIsNewer(q, p, maxGeneration);
    BumpIsNewer(q, seeded, p);
    if PendingSnapshot(seeded, id, p) { ClaimIsNewer(q, seeded, id, worker, lease); }
    InsertIsNewer(q, seeded, p, WatchJob(seeded, p, key, NextGeneration(seeded, p) - 1, worker, lease,
      NextToken(seeded, p) - 1));
  }

  lemma SeedIsNewer(q: Queue, p: ProblemId, maxGeneration: int)
    requires QueueInv(q)
    ensures Newer(q, AfterSeed(q, p, maxGeneration))
            && NextToken(AfterSeed(q, p, maxGeneration), p) == NextToken(q, p) + 1
  {
    hide QueueInv, WatcherNextToken;
    WatcherTokenIsNext(q, p);
  }

  lemma BumpIsNewer(q: Queue, u: Queue, p: ProblemId)
    requires Newer(q, u)
    ensures Newer(q, u.(counters := u.counters[p := NextToken(u, p) + 1]))
  {
  }

  lemma ClaimIsNewer(q: Queue, u: Queue, id: JobId, worker: string, lease: nat)
    requires Newer(q, u) && id in u.jobs
    ensures Newer(q, AfterWatchClaim(u, id, worker, lease))
  {
  }

  lemma InsertIsNewer(q: Queue, u: Queue, p: ProblemId, job: Job)
    requires Newer(q, u) && NextToken(q, p) <= job.token
    ensures Newer(q, AfterWatchInsert(u, p, job))
  {
  }

  lemma StepIsNewer(q: Queue, step: Step)
    requires QueueInv(q)
    ensures Newer(q, After(q, step))
  {
    hide QueueInv, Newer, AfterExpire, AfterWatch, AnyKey, AnyRestore, Inserts, Acquirable, RunningElsewhere,
      CanRetry, Issue;
    SameIsNewer(q, After(q, step));
    match step
    case Expire => ExpireIsNewer(q);
    case Watch(p, maxGeneration, id, key, worker, lease) => WatchIsNewer(q, p, maxGeneration, id, key, worker, lease);
    case Acquire(id, worker, lease) =>
      if CanAcquire(q, id) {
        var k := CounterOf(q.jobs[id]);
        IssueIsNewer(q, k, id);
        NewerAgrees(q, Issue(q, k, id), AfterAcquire(q, id, worker, lease));
      }
    case Cancel(id) =>
      if id in q.jobs && Active(q.jobs[id]) {
        var k := CounterOf(q.jobs[id]);
        IssueIsNewer(q, k, id);
        NewerAgrees(q, Issue(q, k, id), AfterCancel(q, id));
      }
    case _ =>
  }

  lemma SameIsNewer(q: Queue, v: Queue)
    ensures v.counters == q.counters && v.grants == q.grants ==> Newer(q, v)
  {
  }

  lemma NewerAgrees(q: Queue, u: Queue, v: Queue)
    requires Newer(q, u) && v.counters == u.counters && v.grants == u.grants
    ensures Newer(q, v)
  {
  }

  /** Over any run: no token is granted twice, and what a later step grants is larger than all that went before. */
  lemma GrantsRise(now: Time, before: seq<Step>, step: Step, g: Grant, h: Grant)
    requires var q := Exec(Init(now), before);
             g in q.grants && h in After(q, step).grants && h !in q.grants && g.counter == h.counter
    ensures g.token < h.token
  {
    hide After, Newer, QueueInv, Exec;
    InitInv(now);
    RunKeepsInv(Init(now), before);
    var q := Exec(Init(now), before);
    StepIsNewer(q, step);
    GrantsBelow(q, g.counter);
    NewerGrant(q, After(q, step), h);
  }

  lemma NewerGrant(q: Queue, v: Queue, h: Grant)
    requires Newer(q, v) && h in v.grants && h !in q.grants
    ensures NextToken(q, h.counter) <= h.token
  {
  }

  /** Two rows of one problem, or of the global counter, never carry the same token. */
  lemma TokensAreDistinct(now: Time, run: seq<Step>, id: JobId, other: JobId)
    requires var q := Exec(Init(now), run);
             id in q.jobs && other in q.jobs && id != other && CounterOf(q.jobs[id]) == CounterOf(q.jobs[other])
             && q.jobs[id].token != 0
    ensures var q := Exec(Init(now), run); q.jobs[id].token != q.jobs[other].token
  {
    hide After, Exec, RowsOk, BudgetOk;
    InitInv(now);
    RunKeepsInv(Init(now), run);
  }

  // ---------------------------------------------------------------- leases

  /** The token was the row's at some time, or the row is gone for good. */
  predicate Past(q: Queue, id: JobId, token: int) {
    id < q.nextId && (id in q.jobs ==> token <= q.jobs[id].token)
  }

  /** A row that is live afterwards was live before, with the same holder. */
  predicate NoRevival(q: Queue, before: Job, v: Queue, after: Job) {
    after.state == Running && after.leaseUntil.Some? && after.leaseUntil.value >= v.now ==>
      before.state == Running && before.owner == after.owner && before.leaseUntil.Some?
        && before.leaseUntil.value >= q.now
      && before.cancelRequested == after.cancelRequested
  }

  /** Attempts never go down; a row keeps its token and no lost lease comes back, or it gets a larger token. */
  predicate RowKept(q: Queue, before: Job, v: Queue, after: Job) {
    after.request == before.request && before.attempt <= after.attempt && after.maxAttempts == before.maxAttempts
    && (before.token < after.token || (after.token == before.token && NoRevival(q, before, v, after)))
  }

  predicate Kept(q: Queue, v: Queue) {
    && q.nextId <= v.nextId && q.now <= v.now
    && forall id :: id in v.jobs && id < q.nextId ==> id in q.jobs && RowKept(q, q.jobs[id], v, v.jobs[id])
  }

  lemma TokenBelowNext(q: Queue, id: JobId)
    requires QueueInv(q) && id in q.jobs
    ensures q.jobs[id].token < NextToken(q, CounterOf(q.jobs[id]))
  {
    hide RowsOk, BudgetOk;
    assert q.jobs[id].token == 0 || Grant(CounterOf(q.jobs[id]), q.jobs[id].token, id) in q.grants;
  }

  lemma NewRowKept(q: Queue, id: JobId, job: Job)
    requires id in q.jobs && RowKept(q, q.jobs[id], q, job)
    ensures Kept(q, SetJob(q, id, job))
  {
  }

  lemma CreateKeeps(q: Queue, r: Request)
    ensures Kept(q, AfterCreate(q, r))
  {
    hide Inserts;
  }

  lemma ClearingKeeps(q: Queue, p: ProblemId, types: set<JobType>)
    ensures Kept(q, WithoutPending(q, p, types)) && WithoutPending(q, p, types).nextId == q.nextId
  {
  }

  lemma RestoreIfMissingKeeps(q: Queue, r: Request, present: bool)
    ensures Kept(q, AfterRestoreIfMissing(q, r, present))
  {
    hide WithoutPending, AfterCreate, AnyKey, AnyRestore, Inserts;
    if r.problem.Some? {
      var cleared := WithoutPending(q, r.problem.value, {Scan, Snapshot});
      ClearingKeeps(q, r.problem.value, {Scan, Snapshot});
      CreateKeeps(cleared, r);
    }
  }

  lemma ExpireKeeps(q: Queue)
    requires QueueInv(q)
    ensures Kept(q, AfterExpire(q))
  {
    hide QueueInv, Failable, RankedToken, Partition;
    forall id | id in FailableIds(q)
      ensures q.jobs[id].token < RankedToken(q, id)
    {
      TokenBelowNext(q, id);
      BatchTokens(q, id, id);
    }
  }

  lemma WatchKeeps(q: Queue, p: ProblemId, maxGeneration: int, id: JobId, key: string, worker: string, lease: nat)
    requires QueueInv(q)
    ensures Kept(q, AfterWatch(q, p, maxGeneration, id, key, worker, lease))
  {
    hide QueueInv, RunningElsewhere, ActiveTwin, AnyKey, WatcherNextToken, WatcherNext;
    WatcherTokenIsNext(q, p);
    if id in q.jobs { TokenBelowNext(q, id); }
  }

  lemma AcquireKeeps(q: Queue, id: JobId, worker: string, lease: nat)
    requires QueueInv(q) && id in q.jobs
    ensures Kept(q, AfterAcquire(q, id, worker, lease)) && Kept(q, AfterCancel(q, id))
  {
    hide QueueInv;
    TokenBelowNext(q, id);
  }

  lemma RowStepsKeep(q: Queue, id: JobId, lease: nat, outcome: JobState, owner: string, token: int)
    requires id in q.jobs
    ensures Live(q, id, owner, token) ==> Kept(q, AfterRenew(q, id, lease))
    ensures Terminal(outcome) ==> Kept(q, AfterFinish(q, id, outcome))
    ensures Kept(q, AfterRetry(q, id)) && Kept(q, AfterFailJob(q, id))
  {
    hide Kept;
    var job := q.jobs[id];
    if Live(q, id, owner, token) { NewRowKept(q, id, job.(leaseUntil := Some(q.now + lease))); }
    if Terminal(outcome) { NewRowKept(q, id, job.(state := outcome)); }
    NewRowKept(q, id, job.(state := Pending, owner := None, leaseUntil := None, cancelRequested := false));
    NewRowKept(q, id, AfterFailJob(q, id).jobs[id]);
  }

  lemma PurgeKeeps(q: Queue, ids: set<JobId>)
    ensures Kept(q, After(q, Purge(ids)))
  {
  }

  lemma PlainKeeps(q: Queue, v: Queue)
    requires v.jobs == q.jobs && v.nextId == q.nextId && q.now <= v.now
    ensures Kept(q, v)
  {
  }

  lemma StepKeeps(q: Queue, step: Step)
    requires QueueInv(q)
    ensures Kept(q, After(q, step))
  {
    hide QueueInv, AfterCreate, AfterRestoreIfMissing, WithoutPending, AfterExpire, AfterWatch, RunningElsewhere,
      ActiveTwin, Kept, AfterAcquire, AfterCancel, AfterRenew, AfterFinish, AfterRetry, AfterFailJob, Live, CanRetry,
      CanAcquire;
    PlainKeeps(q, q);
    match step
    case Tick(seconds) => PlainKeeps(q, q.(now := q.now + seconds));
    case SetPaused(paused) => PlainKeeps(q, q.(paused := paused));
    case Create(request) => CreateKeeps(q, request);
    case RestoreIfMissing(request, present) => RestoreIfMissingKeeps(q, request, present);
    case TouchAccess(problem) => ClearingKeeps(q, problem, {Evict});
    case Acquire(id, worker, lease) => if id in q.jobs { AcquireKeeps(q, id, worker, lease); } else { NotThere(q, id); }
    case Renew(id, worker, token, lease) => if id in q.jobs { RowStepsKeep(q, id, lease, Failed, worker, token); }
      else { NotThere(q, id); }
    case Finish(id, worker, token, outcome) => if id in q.jobs { RowStepsKeep(q, id, 0, outcome, worker, token); }
      else { NotThere(q, id); }
    case Expire => ExpireKeeps(q);
    case Cancel(id) => if id in q.jobs { AcquireKeeps(q, id, "", 0); }
    case Retry(id) => if id in q.jobs { RowStepsKeep(q, id, 0, Failed, "", 0); } else { NotThere(q, id); }
    case Allocate(p) => PlainKeeps(q, AfterAllocate(q, p));
    case Watch(p, maxGeneration, id, key, worker, lease) => WatchKeeps(q, p, maxGeneration, id, key, worker, lease);
    case FailJob(id, worker, token) => if id in q.jobs { RowStepsKeep(q, id, 0, Failed, worker, token); }
    case Purge(ids) => PurgeKeeps(q, ids);
  }

  lemma NotThere(q: Queue, id: JobId)
    requires id !in q.jobs
    ensures !CanAcquire(q, id) && !CanRetry(q, id) && forall owner, token :: !Live(q, id, owner, token)
  {
  }

  lemma LostStaysLostOnce(q: Queue, step: Step, id: JobId, owner: string, token: int)
    requires QueueInv(q) && Past(q, id, token) && !Live(q, id, owner, token)
    ensures Past(After(q, step), id, token) && !Live(After(q, step), id, owner, token)
  {
    hide QueueInv, After;
    StepKeeps(q, step);
  }

  /**
   Fencing over whole runs: a holder who is not live, for whatever reason, is never live again, so no later renewal,
   assertion or completion with that token goes through.
   */
  lemma {:induction false} LostLeaseStaysLost(q: Queue, run: seq<Step>, id: JobId, owner: string, token: int)
    requires QueueInv(q) && Past(q, id, token) && !Live(q, id, owner, token)
    ensures !Live(Exec(q, run), id, owner, token)
    decreases |run|
  {
    hide QueueInv, After, Past, Live;
    if run != [] {
      StepKeepsInv(q, run[0]);
      LostStaysLostOnce(q, run[0], id, owner, token);
      LostLeaseStaysLost(After(q, run[0]), run[1..], id, owner, token);
    }
  }

  /** A row's token and its attempts never go down while the row is retained. */
  lemma {:induction false} TokensOnlyRise(q: Queue, run: seq<Step>, id: JobId)
    requires QueueInv(q) && id in q.jobs && id in Exec(q, run).jobs
    ensures q.jobs[id].token <= Exec(q, run).jobs[id].token && Exec(q, run).jobs[id].request == q.jobs[id].request
    ensures q.jobs[id].attempt <= Exec(q, run).jobs[id].attempt
    decreases |run|
  {
    hide RowOk, TokensOk, BudgetOk, After;
    if run != [] {
      var v := After(q, run[0]);
      StepKeepsInv(q, run[0]);
      StepKeeps(q, run[0]);
      StillThere(v, run[1..], id);
      TokensOnlyRise(v, run[1..], id);
    }
  }

  /** Purged rows do not come back. */
  lemma {:induction false} StillThere(q: Queue, run: seq<Step>, id: JobId)
    requires QueueInv(q) && id < q.nextId && id in Exec(q, run).jobs
    ensures id in q.jobs
    decreases |run|
  {
    hide QueueInv, After;
    if run != [] {
      StepKeepsInv(q, run[0]);
      StepKeeps(q, run[0]);
      StillThere(After(q, run[0]), run[1..], id);
    }
  }

  /**
   While a row with a newer token is retained, every older token fails the MAX check of finalize,
   restore and evict.
  */
  lemma NewerRowFences(q: Queue, run: seq<Step>, id: JobId, p: ProblemId, token: int)
    requires QueueInv(q) && id in q.jobs && q.jobs[id].request.problem == Some(p) && token < q.jobs[id].token
    requires id in Exec(q, run).jobs
    ensures token < MaxToken(Exec(q, run), p)
  {
    hide QueueInv, Exec;
    TokensOnlyRise(q, run, id);
    assert Exec(q, run).jobs[id].token in Tokens(Exec(q, run), p);
  }
}
