/**
 The fence reads the rows that the queue writes: every run of the queue is a history of the rows as `JobLeases` has
 them, with the same tokens for the same rows.
 */
module QueueFence {
  import opened Common
  import JobQueue
  import JobFencing
  import JobRuns
  import JobTables
  import opened JobLeases
  import S = Storage

  predicate SameStage(stage: JobStage, state: JobQueue.JobState) {
    match stage
    case Waiting => state == JobQueue.Pending
    case Leased => state == JobQueue.Running
    case Closed => JobQueue.Terminal(state)
  }

  function OperationOf(t: JobQueue.JobType): Operation {
    match t
    case Snapshot => SnapshotOp
    case Restore => RestoreOp
    case Evict => EvictOp
    case _ => OtherOp
  }

  predicate Mirrors(row: JobRow, job: JobQueue.Job) {
    && job.request.problem == Some(row.problem) && row.op == OperationOf(job.request.jobType)
    && job.token == row.token && SameStage(row.stage, job.state)
  }

  ghost predicate SameRows(l: Leases, jobs: map<JobId, JobQueue.Job>) {
    && (forall id :: id in l.jobs ==> id in jobs && Mirrors(l.jobs[id], jobs[id]))
    && (forall id :: id in jobs && jobs[id].request.problem.Some? ==> id in l.jobs)
  }

  ghost predicate CountersAhead(l: Leases, q: JobQueue.Queue) {
    forall p :: Newest(l, p) < JobQueue.NextToken(q, p)
  }

  /** The rows of problems are the same in both views, and the queue's counters are at tokens that no row has had. */
  ghost predicate Tracks(l: Leases, q: JobQueue.Queue) {
    SameRows(l, q.jobs) && CountersAhead(l, q) && l.nextJob <= q.nextId
  }

  // ---------------------------------------------------------------- what the fence reads

  lemma SameTokens(l: Leases, q: JobQueue.Queue, p: ProblemId)
    requires SameRows(l, q.jobs)
    ensures Tokens(l, p) == JobQueue.Tokens(q, p)
  {
    assert forall id :: id in l.jobs && l.jobs[id].problem == p ==> q.jobs[id].token in JobQueue.Tokens(q, p);
    assert forall id :: id in q.jobs && q.jobs[id].request.problem == Some(p) ==> l.jobs[id].token in Tokens(l, p);
  }

  /** What the data plane asks is MAX(fencing_token) over the queue's rows. */
  lemma FreshReadsTheQueue(w: S.World, q: JobQueue.Queue, p: ProblemId, token: int)
    requires SameRows(w.leases, q.jobs)
    ensures S.Fresh(w, p, token) <==> JobQueue.MaxToken(q, p) <= token
  {
    SameTokens(w.leases, q, p);
    PassesByMaximum(w.leases, p, token);
    assert 0 in JobQueue.Tokens(q, p);
  }

  // ---------------------------------------------------------------- histories

  datatype Move = At(now: Time, step: JobStep) | Gone(ids: set<JobId>)

  function AfterMove(l: Leases, keep: Keep, move: Move): Leases {
    match move
    case At(now, step) => AfterJob(l, now, keep, step)
    case Gone(ids) => Without(l, ids)
  }

  function AfterMoves(l: Leases, keep: Keep, moves: seq<Move>): Leases
    decreases |moves|
  {
    if moves == [] then l else AfterMoves(AfterMove(l, keep, moves[0]), keep, moves[1..])
  }

  /** Rows are deleted only where the run has a purge of these ids. */
  predicate Justified(moves: seq<Move>, run: seq<JobQueue.Step>) {
    forall m :: m in moves ==> if m.At? then !Deletes(m.step) else JobQueue.Purge(m.ids) in run
  }

  /** The second state is reached from the first by moves that the run justifies. */
  ghost predicate Reaches(l: Leases, v: Leases, keep: Keep, run: seq<JobQueue.Step>) {
    exists moves :: Justified(moves, run) && v == AfterMoves(l, keep, moves)
  }

  lemma Stays(l: Leases, keep: Keep, run: seq<JobQueue.Step>)
    ensures Reaches(l, l, keep, run)
  {
    assert Justified([], run) && l == AfterMoves(l, keep, []);
  }

  lemma {:induction false} MovesCompose(l: Leases, keep: Keep, first: seq<Move>, rest: seq<Move>)
    ensures AfterMoves(l, keep, first + rest) == AfterMoves(AfterMoves(l, keep, first), keep, rest)
    decreases |first|
  {
    if first == [] {
      assert first + rest == rest;
    } else {
      assert (first + rest)[1..] == first[1..] + rest;
      MovesCompose(AfterMove(l, keep, first[0]), keep, first[1..], rest);
    }
  }

  lemma MoreMoves(l: Leases, u: Leases, v: Leases, keep: Keep, run: seq<JobQueue.Step>)
    requires Reaches(l, u, keep, run) && Reaches(u, v, keep, run)
    ensures Reaches(l, v, keep, run)
  {
    var first :| Justified(first, run) && u == AfterMoves(l, keep, first);
    var last :| Justified(last, run) && v == AfterMoves(u, keep, last);
    MovesCompose(l, keep, first, last);
    assert Justified(first + last, run);
  }

  lemma OneMove(l: Leases, keep: Keep, now: Time, step: JobStep, run: seq<JobQueue.Step>)
    requires !Deletes(step)
    ensures Reaches(l, AfterJob(l, now, keep, step), keep, run)
  {
    hide AfterJob;
    var moves := [At(now, step)];
    assert AfterMoves(l, keep, moves) == AfterMoves(AfterJob(l, now, keep, step), keep, moves[1..]);
    assert Justified(moves, run);
  }

  lemma LongerRun(l: Leases, v: Leases, keep: Keep, run: seq<JobQueue.Step>, longer: seq<JobQueue.Step>)
    requires Reaches(l, v, keep, run) && forall step :: step in run ==> step in longer
    ensures Reaches(l, v, keep, longer)
  {
    var moves :| Justified(moves, run) && v == AfterMoves(l, keep, moves);
    assert Justified(moves, longer);
  }

  // ---------------------------------------------------------------- rows move alike

  lemma RowMoves(l: Leases, q: JobQueue.Queue, id: JobId, row: JobRow, job: JobQueue.Job)
    requires Tracks(l, q) && id in l.jobs && Mirrors(row, job)
    ensures Tracks(SetRow(l, id, row), JobQueue.SetJob(q, id, job))
  {
    assert forall p :: JobQueue.NextToken(JobQueue.SetJob(q, id, job), p) == JobQueue.NextToken(q, p);
  }

  /** The queue draws a token for a row, and the row takes it. */
  lemma TokenMoves(l: Leases, v: Leases, q: JobQueue.Queue, u: JobQueue.Queue, id: JobId)
    requires Tracks(l, q) && id in l.jobs && id in v.jobs && id in q.jobs && id in u.jobs
    requires v.jobs == l.jobs[id := v.jobs[id]] && u.jobs == q.jobs[id := u.jobs[id]] && Mirrors(v.jobs[id], u.jobs[id])
    requires v.issued == l.issued[v.jobs[id].problem := v.jobs[id].token] && v.nextJob == l.nextJob
    requires v.jobs[id].token == JobQueue.NextToken(q, v.jobs[id].problem) && u.nextId == q.nextId
    requires u.counters == q.counters[v.jobs[id].problem := v.jobs[id].token + 1]
    ensures Tracks(v, u)
  {
    var row := v.jobs[id];
    forall p
      ensures Newest(v, p) < JobQueue.NextToken(u, p)
    {
      assert Newest(l, p) < JobQueue.NextToken(q, p);
    }
  }

  /** How many tokens of the counter no row of the problem has received. */
  function Skipped(l: Leases, q: JobQueue.Queue, p: ProblemId): nat {
    if Newest(l, p) < JobQueue.NextToken(q, p) then JobQueue.NextToken(q, p) - Newest(l, p) - 1 else 0
  }

  lemma RowIsThere(l: Leases, q: JobQueue.Queue, id: JobId)
    requires Tracks(l, q) && id in q.jobs && q.jobs[id].request.problem.Some?
    ensures id in l.jobs && Mirrors(l.jobs[id], q.jobs[id])
    ensures Newest(l, l.jobs[id].problem) < JobQueue.NextToken(q, l.jobs[id].problem)
  {
  }

  /** Jobs without a problem, and counters that run ahead, are not the fence's business. */
  lemma OthersTrack(l: Leases, q: JobQueue.Queue, u: JobQueue.Queue)
    requires Tracks(l, q) && q.nextId <= u.nextId
    requires forall id :: id in q.jobs && q.jobs[id].request.problem.Some? ==> id in u.jobs && u.jobs[id] == q.jobs[id]
    requires forall id :: id in u.jobs && u.jobs[id].request.problem.Some? ==> id in q.jobs && u.jobs[id] == q.jobs[id]
    requires forall p :: JobQueue.NextToken(q, p) <= JobQueue.NextToken(u, p)
    ensures Tracks(l, u)
  {
    forall p
      ensures Newest(l, p) < JobQueue.NextToken(u, p)
    {
      assert JobQueue.NextToken(q, p) <= JobQueue.NextToken(u, p);
    }
    assert forall id :: id in l.jobs ==> Mirrors(l.jobs[id], q.jobs[id]);
  }

  /** The queue gives an active row the token that its counter is at. */
  predicate Draws(q: JobQueue.Queue, u: JobQueue.Queue, id: JobId) {
    && id in q.jobs && JobQueue.Active(q.jobs[id]) && id in u.jobs && u.jobs == q.jobs[id := u.jobs[id]]
    && u.jobs[id].request == q.jobs[id].request && u.jobs[id].state != JobQueue.Pending && u.nextId == q.nextId
    && var key := JobQueue.CounterOf(q.jobs[id]);
    && u.jobs[id].token == JobQueue.NextToken(q, key) && u.counters == q.counters[key := u.jobs[id].token + 1]
  }

  /**
   Acquisitions and the watcher's claim are leases, cancellations and expiries are revocations, under the token that
   the queue has drawn.
   */
  lemma TokenIsDrawn(l: Leases, q: JobQueue.Queue, keep: Keep, id: JobId, u: JobQueue.Queue, run: seq<JobQueue.Step>)
    returns (v: Leases)
    requires Tracks(l, q) && Draws(q, u, id)
    ensures Reaches(l, v, keep, run) && Tracks(v, u)
  {
    hide Reaches, Tracks;
    if q.jobs[id].request.problem.Some? {
      RowIsThere(l, q, id);
      var skipped := Skipped(l, q, l.jobs[id].problem);
      var move := if u.jobs[id].state == JobQueue.Running then Lease(id, skipped) else Revoke(id, skipped);
      OneMove(l, keep, q.now, move, run);
      v := AfterJob(l, q.now, keep, move);
      TokenMoves(l, v, q, u, id);
    } else {
      Stays(l, keep, run);
      v := l;
      OthersTrack(l, q, u);
    }
  }

  function MoveTo(id: JobId, before: JobQueue.JobState, after: JobQueue.JobState): JobStep {
    if JobQueue.Terminal(after) then Close(id)
    else if before == JobQueue.Running then GiveBack(id)
    else Retry(id)
  }

  /** A row may not be leased without a token, or change its mind about its outcome. */
  predicate Moves(before: JobQueue.JobState, after: JobQueue.JobState) {
    before == after
    || (before != after && after != JobQueue.Running && !(JobQueue.Terminal(before) && JobQueue.Terminal(after)))
  }

  /** Results, failures, retries, renewals and silent cancellations: the row moves and keeps its token. */
  lemma RowIsMoved(l: Leases, q: JobQueue.Queue, keep: Keep, id: JobId, job: JobQueue.Job, run: seq<JobQueue.Step>)
    returns (v: Leases)
    requires Tracks(l, q) && id in q.jobs && job.request == q.jobs[id].request && job.token == q.jobs[id].token
    requires Moves(q.jobs[id].state, job.state)
    ensures Reaches(l, v, keep, run) && Tracks(v, JobQueue.SetJob(q, id, job))
  {
    hide Reaches, Tracks;
    var before, u := q.jobs[id], JobQueue.SetJob(q, id, job);
    Stays(l, keep, run);
    v := l;
    if before.request.problem.None? {
      assert forall p :: JobQueue.NextToken(u, p) == JobQueue.NextToken(q, p);
      OthersTrack(l, q, u);
    } else {
      RowIsThere(l, q, id);
      if before.state == job.state {
        RowMoves(l, q, id, l.jobs[id], job);
        assert SetRow(l, id, l.jobs[id]).jobs == l.jobs;
      } else {
        var move := MoveTo(id, before.state, job.state);
        OneMove(l, keep, q.now, move, run);
        v := AfterJob(l, q.now, keep, move);
        assert v == SetRow(l, id, v.jobs[id]);
        RowMoves(l, q, id, v.jobs[id], job);
      }
    }
  }

  /** Whatever a purge of either kind takes, it takes from both views. */
  lemma PurgeIsPurge(l: Leases, q: JobQueue.Queue, gone: set<JobId>)
    requires Tracks(l, q)
    ensures Tracks(Without(l, gone), JobQueue.After(q, JobQueue.Purge(gone)))
  {
    assert forall p :: JobQueue.NextToken(JobQueue.After(q, JobQueue.Purge(gone)), p) == JobQueue.NextToken(q, p);
  }

  // ---------------------------------------------------------------- every step of the queue

  lemma CreationIsCreate(l: Leases, q: JobQueue.Queue, keep: Keep, job: JobQueue.Job, u: JobQueue.Queue)
    requires JobFencing.QueueInv(q) && Tracks(l, q) && job.state == JobQueue.Pending && job.token == 0
    requires u == q.(jobs := q.jobs[q.nextId := job], nextId := q.nextId + 1) && job.request.problem.Some?
    ensures var move := Create(q.nextId, job.request.problem.value, OperationOf(job.request.jobType));
            q.nextId !in l.jobs && Tracks(AfterJob(l, q.now, keep, move), u)
  {
    hide JobFencing.RowOk, JobFencing.TokensOk, JobFencing.BudgetOk;
    var move := Create(q.nextId, job.request.problem.value, OperationOf(job.request.jobType));
    var v := AfterJob(l, q.now, keep, move);
    assert q.nextId !in q.jobs;
    forall p
      ensures Newest(v, p) < JobQueue.NextToken(u, p)
    {
      assert Newest(l, p) < JobQueue.NextToken(q, p);
    }
    assert forall id :: id in l.jobs ==> Mirrors(l.jobs[id], q.jobs[id]);
  }

  lemma Creates(l: Leases, q: JobQueue.Queue, keep: Keep, r: JobQueue.Request, run: seq<JobQueue.Step>)
    returns (v: Leases)
    requires JobFencing.QueueInv(q) && Tracks(l, q)
    ensures Reaches(l, v, keep, run) && Tracks(v, JobQueue.AfterCreate(q, r))
  {
    hide JobQueue.Inserts, Tracks, Reaches;
    v := l;
    Stays(l, keep, run);
    if JobQueue.Inserts(q, r) {
      var job, u := JobQueue.NewJob(r), JobQueue.AfterCreate(q, r);
      if r.problem.Some? {
        CreationIsCreate(l, q, keep, job, u);
        OneMove(l, keep, q.now, Create(q.nextId, r.problem.value, OperationOf(r.jobType)), run);
        v := AfterJob(l, q.now, keep, Create(q.nextId, r.problem.value, OperationOf(r.jobType)));
      } else {
        JobTables.NewIdIsFree(q);
        OthersTrack(l, q, u);
      }
    }
  }

  function Cancelled(q: JobQueue.Queue, ids: set<JobId>): JobQueue.Queue {
    q.(jobs := map id | id in q.jobs ::
         if id in ids then q.jobs[id].(state := JobQueue.Cancelled) else q.jobs[id])
  }

  /** Rows are cancelled without a token, one after the other. */
  lemma {:induction false} CancelsAll(l: Leases, q: JobQueue.Queue, keep: Keep, ids: set<JobId>,
    run: seq<JobQueue.Step>) returns (v: Leases)
    requires Tracks(l, q)
    requires forall id :: id in ids ==> id in q.jobs && q.jobs[id].request.problem.Some? && JobQueue.Active(q.jobs[id])
    ensures Reaches(l, v, keep, run) && Tracks(v, Cancelled(q, ids))
    decreases ids
  {
    hide Reaches, Tracks;
    if ids == {} {
      assert Cancelled(q, ids).jobs == q.jobs;
      Stays(l, keep, run);
      v := l;
    } else {
      var id :| id in ids;
      var q1 := JobQueue.SetJob(q, id, q.jobs[id].(state := JobQueue.Cancelled));
      var u := RowIsMoved(l, q, keep, id, q1.jobs[id], run);
      v := CancelsAll(u, q1, keep, ids - {id}, run);
      assert Cancelled(q1, ids - {id}).jobs == Cancelled(q, ids).jobs;
      MoreMoves(l, u, v, keep, run);
    }
  }

  lemma PendingGiveWay(l: Leases, q: JobQueue.Queue, keep: Keep, p: ProblemId, types: set<JobQueue.JobType>,
    run: seq<JobQueue.Step>) returns (v: Leases)
    requires Tracks(l, q)
    ensures Reaches(l, v, keep, run) && Tracks(v, JobQueue.WithoutPending(q, p, types))
  {
    hide Reaches, Tracks;
    var ids := set id | id in q.jobs && q.jobs[id].request.problem == Some(p) && q.jobs[id].request.jobType in types
                        && q.jobs[id].state == JobQueue.Pending;
    v := CancelsAll(l, q, keep, ids, run);
    assert Cancelled(q, ids).jobs == JobQueue.WithoutPending(q, p, types).jobs;
  }

  lemma RestoreTakesOver(l: Leases, q: JobQueue.Queue, keep: Keep, r: JobQueue.Request, present: bool,
    run: seq<JobQueue.Step>) returns (v: Leases)
    requires JobFencing.QueueInv(q) && Tracks(l, q)
    ensures Reaches(l, v, keep, run) && Tracks(v, JobQueue.AfterRestoreIfMissing(q, r, present))
  {
    hide Reaches, Tracks, JobFencing.QueueInv, JobQueue.AfterCreate, JobQueue.WithoutPending, JobQueue.AnyKey,
      JobQueue.AnyRestore, JobQueue.Inserts;
    v := l;
    Stays(l, keep, run);
    if JobQueue.AfterRestoreIfMissing(q, r, present) != q {
      var p, types := r.problem.value, {JobQueue.Scan, JobQueue.Snapshot};
      var cleared := JobQueue.WithoutPending(q, p, types);
      JobFencing.WithoutPendingKeepsInv(q, p, types);
      var u := PendingGiveWay(l, q, keep, p, types, run);
      v := u;
      if !present {
        v := Creates(u, cleared, keep, r, run);
        MoreMoves(l, u, v, keep, run);
      }
    }
  }

  /** The batch statement is a pass over the rows, and the pass a history. */
  lemma {:induction false} Expires(l: Leases, q: JobQueue.Queue, at: JobQueue.Queue, i: nat, keep: Keep,
    run: seq<JobQueue.Step>) returns (v: Leases)
    requires JobFencing.QueueInv(q) && JobTables.Passed(q, at, i) && i <= q.nextId && Tracks(l, at)
    ensures Reaches(l, v, keep, run) && Tracks(v, JobQueue.AfterExpire(q))
    decreases q.nextId - i
  {
    hide Reaches, Tracks, JobFencing.QueueInv, JobTables.Passed, JobQueue.AfterExpire, JobQueue.FailableIds;
    if i == q.nextId {
      QueueRows(q);
      JobTables.PassEnds(q, at);
      Stays(l, keep, run);
      v := l;
    } else if i in JobQueue.FailableIds(q) {
      JobTables.PassRevokes(q, at, i);
      FailableRuns(q, i);
      var key := JobQueue.CounterOf(q.jobs[i]);
      var job := at.jobs[i].(state := JobQueue.Failed, token := JobQueue.NextToken(at, key));
      var next := JobQueue.SetJob(JobQueue.Issue(at, key, i), i, job);
      var u := TokenIsDrawn(l, at, keep, i, next, run);
      v := Expires(u, q, next, i + 1, keep, run);
      MoreMoves(l, u, v, keep, run);
    } else {
      JobTables.PassSkips(q, at, i);
      v := Expires(l, q, at, i + 1, keep, run);
    }
  }

  lemma QueueRows(q: JobQueue.Queue)
    requires JobFencing.QueueInv(q)
    ensures JobFencing.RowsOk(q.jobs, q.nextId)
  {
  }

  lemma FailableRuns(q: JobQueue.Queue, id: JobId)
    requires id in JobQueue.FailableIds(q)
    ensures id in q.jobs && q.jobs[id].state == JobQueue.Running
  {
  }

  /** The watcher's row is created and leased at once, and a second token is drawn that no row receives. */
  lemma WatchInserts(l: Leases, q: JobQueue.Queue, keep: Keep, p: ProblemId, job: JobQueue.Job, u: JobQueue.Queue,
    next: int, run: seq<JobQueue.Step>) returns (v: Leases)
    requires JobFencing.QueueInv(q) && Tracks(l, q) && job.request.problem == Some(p)
    requires job.state == JobQueue.Running && job.token == JobQueue.NextToken(q, p) < next
    requires u.jobs == q.jobs[q.nextId := job] && u.nextId == q.nextId + 1 && u.counters == q.counters[p := next]
    ensures Reaches(l, v, keep, run) && Tracks(v, u)
  {
    hide JobFencing.QueueInv, Reaches, Tracks;
    var id, created := q.nextId, job.(state := JobQueue.Pending, token := 0);
    var q1 := q.(jobs := q.jobs[id := created], nextId := id + 1);
    CreationIsCreate(l, q, keep, created, q1);
    var create := Create(id, p, OperationOf(job.request.jobType));
    OneMove(l, keep, q.now, create, run);
    var l1 := AfterJob(l, q.now, keep, create);
    hide AfterJob;
    var q2 := u.(counters := q.counters[p := job.token + 1]);
    assert q2.jobs == q1.jobs[id := q2.jobs[id]];
    v := TokenIsDrawn(l1, q1, keep, id, q2, run);
    MoreMoves(l, l1, v, keep, run);
    OthersTrack(v, q2, u);
  }

  lemma WatcherDraws(q: JobQueue.Queue, id: JobId, p: ProblemId, worker: string, lease: nat)
    requires JobQueue.PendingSnapshot(q, id, p)
    ensures Draws(q, JobQueue.AfterWatchClaim(q, id, worker, lease), id)
  {
  }

  lemma SeedTracks(l: Leases, q: JobQueue.Queue, p: ProblemId, maxGeneration: int)
    requires JobFencing.QueueInv(q) && Tracks(l, q)
    ensures var v := JobQueue.AfterSeed(q, p, maxGeneration);
            && Tracks(l, v) && v.jobs == q.jobs && v.nextId == q.nextId && v.now == q.now
            && v.counters == q.counters[p := JobQueue.NextToken(q, p) + 1]
  {
    hide JobFencing.QueueInv, Tracks, JobQueue.WatcherNext, JobQueue.WatcherNextToken;
    JobFencing.WatcherTokenIsNext(q, p);
    OthersTrack(l, q, JobQueue.AfterSeed(q, p, maxGeneration));
  }

  lemma BumpTracks(l: Leases, q: JobQueue.Queue, p: ProblemId)
    requires Tracks(l, q)
    ensures Tracks(l, q.(counters := q.counters[p := JobQueue.NextToken(q, p) + 1]))
  {
    hide Tracks;
    OthersTrack(l, q, q.(counters := q.counters[p := JobQueue.NextToken(q, p) + 1]));
  }

  lemma InsertedRow(q: JobQueue.Queue, p: ProblemId, maxGeneration: int, job: JobQueue.Job)
    requires JobFencing.QueueInv(q)
    ensures var u := JobQueue.AfterWatchInsert(JobQueue.AfterSeed(q, p, maxGeneration), p, job);
            && u.jobs == q.jobs[q.nextId := job] && u.nextId == q.nextId + 1
            && u.counters == q.counters[p := JobQueue.NextToken(q, p) + 2]
  {
    hide JobFencing.QueueInv, JobQueue.WatcherNext, JobQueue.WatcherNextToken;
    JobFencing.WatcherTokenIsNext(q, p);
  }

  lemma Watches(l: Leases, q: JobQueue.Queue, keep: Keep, p: ProblemId, maxGeneration: int, id: JobId, key: string,
    worker: string, lease: nat, run: seq<JobQueue.Step>) returns (v: Leases)
    requires JobFencing.QueueInv(q) && Tracks(l, q)
    ensures Reaches(l, v, keep, run)
            && Tracks(v, JobQueue.AfterWatch(q, p, maxGeneration, id, key, worker, lease))
  {
    hide JobFencing.QueueInv, Reaches, Tracks, JobQueue.RunningElsewhere, JobQueue.ActiveTwin, JobQueue.AnyKey,
      JobQueue.AfterWatchClaim, JobQueue.AfterSeed, JobQueue.PendingSnapshot, JobQueue.AfterWatchInsert;
    var u := JobQueue.AfterWatch(q, p, maxGeneration, id, key, worker, lease);
    var seeded := JobQueue.AfterSeed(q, p, maxGeneration);
    SeedTracks(l, q, p, maxGeneration);
    Stays(l, keep, run);
    v := l;
    if u == q {
    } else if JobQueue.AnyPendingSnapshot(seeded, p) {
      WatcherDraws(seeded, id, p, worker, lease);
      v := TokenIsDrawn(l, seeded, keep, id, u, run);
    } else {
      var job := JobQueue.WatchJob(seeded, p, key, JobQueue.NextGeneration(seeded, p) - 1, worker, lease,
                                   JobQueue.NextToken(q, p));
      if JobQueue.ActiveTwin(seeded, seeded.nextId, job) {
        BumpTracks(l, seeded, p);
      } else {
        InsertedRow(q, p, maxGeneration, job);
        v := WatchInserts(l, q, keep, p, job, u, JobQueue.NextToken(q, p) + 2, run);
      }
    }
  }

  // ---------------------------------------------------------------- runs

  /** Whatever the queue does, the rows of the fence have a history that does the same. */
  lemma StepIsHistory(l: Leases, q: JobQueue.Queue, keep: Keep, step: JobQueue.Step) returns (v: Leases)
    requires JobFencing.QueueInv(q) && Tracks(l, q)
    ensures Reaches(l, v, keep, [step]) && Tracks(v, JobQueue.After(q, step))
  {
    hide JobFencing.QueueInv, Reaches, Tracks, JobQueue.CanAcquire, JobQueue.ActiveTwin, JobQueue.AfterCreate,
      JobQueue.AfterRestoreIfMissing, JobQueue.WithoutPending, JobQueue.AfterExpire, JobQueue.AfterWatch;
    Stays(l, keep, [step]);
    var u := JobQueue.After(q, step);
    v := l;
    match step
    case Create(r) => v := Creates(l, q, keep, r, [step]);
    case RestoreIfMissing(r, present) => v := RestoreTakesOver(l, q, keep, r, present, [step]);
    case TouchAccess(p) => v := PendingGiveWay(l, q, keep, p, {JobQueue.Evict}, [step]);
    case Acquire(id, worker, lease) =>
      if JobQueue.CanAcquire(q, id) {
        AcquisitionDraws(q, id, worker, lease);
        v := TokenIsDrawn(l, q, keep, id, u, [step]);
      }
    case Cancel(id) => if u != q { v := TokenIsDrawn(l, q, keep, id, u, [step]); }
    case Expire =>
      JobTables.PassStarts(q);
      v := Expires(l, q, q, 0, keep, [step]);
    case Renew(id, _, _, _) => if u != q { v := RowIsMoved(l, q, keep, id, u.jobs[id], [step]); }
    case Finish(id, _, _, _) => if u != q { v := RowIsMoved(l, q, keep, id, u.jobs[id], [step]); }
    case FailJob(id, _, _) => if u != q { v := RowIsMoved(l, q, keep, id, u.jobs[id], [step]); }
    case Retry(id) => if JobQueue.CanRetry(q, id) { v := RowIsMoved(l, q, keep, id, u.jobs[id], [step]); }
    case Watch(p, maxGeneration, id, key, worker, lease) =>
      v := Watches(l, q, keep, p, maxGeneration, id, key, worker, lease, [step]);
    case Purge(ids) =>
      PurgeIsPurge(l, q, ids);
      v := Without(l, ids);
      assert Reaches(l, v, keep, [step]) by { Deletion(l, keep, ids); }
    case _ => OthersTrack(l, q, u);
  }

  lemma AcquisitionDraws(q: JobQueue.Queue, id: JobId, worker: string, lease: nat)
    requires JobQueue.CanAcquire(q, id)
    ensures Draws(q, JobQueue.AfterAcquire(q, id, worker, lease), id)
  {
    hide JobQueue.RunningElsewhere;
  }

  lemma Deletion(l: Leases, keep: Keep, ids: set<JobId>)
    ensures Reaches(l, Without(l, ids), keep, [JobQueue.Purge(ids)])
  {
    var moves := [Gone(ids)];
    assert AfterMoves(l, keep, moves) == AfterMoves(Without(l, ids), keep, moves[1..]);
    assert Justified(moves, [JobQueue.Purge(ids)]);
  }

  /** Every run of the queue is a history of the rows that the fence reads. */
  lemma {:induction false} RunIsHistory(l: Leases, q: JobQueue.Queue, keep: Keep, run: seq<JobQueue.Step>)
    returns (v: Leases)
    requires JobFencing.QueueInv(q) && Tracks(l, q)
    ensures Reaches(l, v, keep, run) && Tracks(v, JobRuns.Exec(q, run))
    decreases |run|
  {
    hide JobFencing.QueueInv, Reaches, Tracks, JobQueue.After;
    if run == [] {
      Stays(l, keep, run);
      v := l;
    } else {
      JobFencing.StepKeepsInv(q, run[0]);
      var u := StepIsHistory(l, q, keep, run[0]);
      v := RunIsHistory(u, JobQueue.After(q, run[0]), keep, run[1..]);
      LongerRun(l, u, keep, [run[0]], run);
      LongerRun(u, v, keep, run[1..], run);
      MoreMoves(l, u, v, keep, run);
    }
  }

  /** From empty tables on, and whatever the two planes do to the queue. */
  lemma QueueRunsAreHistories(now: Time, keep: Keep, run: seq<JobQueue.Step>)
    ensures exists v :: Reaches(NO_LEASES, v, keep, run) && Tracks(v, JobRuns.Exec(JobQueue.Init(now), run))
  {
    assert Tracks(NO_LEASES, JobQueue.Init(now));
    hide Reaches, Tracks, JobRuns.Exec;
    JobRuns.InitInv(now);
    var v := RunIsHistory(NO_LEASES, JobQueue.Init(now), keep, run);
  }

  /**
   A row that a run of the queue leaves in the table refuses every token that was older than its own before the run: the
   rows that the fence reads have a history that ends like the run, and whoever ends like the run refuses it.
   */
  lemma RetainedRowRefuses(l: Leases, q: JobQueue.Queue, keep: Keep, run: seq<JobQueue.Step>, id: JobId, p: ProblemId,
    token: int)
    requires JobFencing.QueueInv(q) && Tracks(l, q) && id in q.jobs && q.jobs[id].request.problem == Some(p)
    requires token < q.jobs[id].token && id in JobRuns.Exec(q, run).jobs
    ensures exists v :: Reaches(l, v, keep, run) && Tracks(v, JobRuns.Exec(q, run))
    ensures forall v :: Tracks(v, JobRuns.Exec(q, run)) ==> !Passes(v, p, token)
  {
    hide Reaches, JobRuns.Exec, JobFencing.QueueInv, JobQueue.MaxToken;
    var w := RunIsHistory(l, q, keep, run);
    JobRuns.NewerRowFences(q, run, id, p, token);
    forall v | Tracks(v, JobRuns.Exec(q, run))
      ensures !Passes(v, p, token)
    {
      SameTokens(v, JobRuns.Exec(q, run), p);
      PassesByMaximum(v, p, token);
      assert 0 in JobQueue.Tokens(JobRuns.Exec(q, run), p);
    }
  }
}
