/**
 What the data plane's fence reads: the rows of jobs with their tokens, over their whole life. Rows are leased, closed,
 retried and deleted; the counter that tokens are drawn from only grows.

 A worker starts on an operation with the token of a row that it has leased, and may still be at it long after the row
 has moved on. The fence is to refuse it once a newer token has been issued for the problem.
 */
module JobLeases {
  import opened Common

  type JobId = nat

  datatype Operation = SnapshotOp | RestoreOp | EvictOp | OtherOp

  datatype JobStage = Waiting | Leased | Closed

  /**
   `completedAt` is set when a row is closed. A retry leaves it as it is, and so does the lease after that. `updatedAt`
   is the time of the last UPDATE, whatever it changed.
   */
  datatype JobRow = JobRow(problem: ProblemId, op: Operation, token: int, stage: JobStage, completedAt: Option<Time>,
                           updatedAt: Time)

  datatype Leases = Leases(
    jobs: map<JobId, JobRow>,
    nextJob: JobId,
    issued: map<ProblemId, int>,                  // the newest token that job_fencing_counters gave a row
    holders: map<(ProblemId, int), Operation>,    // history: the operation each leased token was issued for
    workers: set<(ProblemId, int)>)               // tokens whose workers have started and not stopped

  /** For how long: rows by their completed_at alone, and closed rows since their last change. */
  datatype Keep = Keep(jobs: nat, closed: nat)

  const NO_LEASES: Leases := Leases(map[], 0, map[], map[], {})

  function Newest(l: Leases, p: ProblemId): int {
    if p in l.issued then l.issued[p] else 0
  }

  function Tokens(l: Leases, p: ProblemId): set<int> {
    {0} + set id | id in l.jobs && l.jobs[id].problem == p :: l.jobs[id].token
  }

  /** COALESCE(MAX(fencing_token), 0) over the rows there are. */
  function LargestToken(l: Leases, p: ProblemId): int {
    Maximum(Tokens(l, p))
  }

  /** ensure_latest_fencing: no row of the problem has a larger token. */
  predicate Passes(l: Leases, p: ProblemId, token: int) {
    0 <= token && forall id :: id in l.jobs && l.jobs[id].problem == p ==> l.jobs[id].token <= token
  }

  lemma PassesByMaximum(l: Leases, p: ProblemId, token: int)
    ensures Passes(l, p, token) <==> LargestToken(l, p) <= token
  {
    assert 0 in Tokens(l, p);
    assert forall id :: id in l.jobs && l.jobs[id].problem == p ==> l.jobs[id].token in Tokens(l, p);
  }

  // ---------------------------------------------------------------- steps

  datatype JobStep =
    | Create(id: JobId, p: ProblemId, op: Operation)
    | Lease(id: JobId, skipped: nat)
    | Start(id: JobId)
    | Stop(p: ProblemId, token: int)
    | Close(id: JobId)
    | Revoke(id: JobId, skipped: nat)
    | GiveBack(id: JobId)
    | Retry(id: JobId)
    | Touch(id: JobId)
    | Purge
    | PurgeClosed(ids: set<JobId>)

  predicate Open(l: Leases, id: JobId) {
    id in l.jobs && l.jobs[id].stage != Closed
  }

  predicate IsLeased(l: Leases, id: JobId) {
    id in l.jobs && l.jobs[id].stage == Leased
  }

  /** The counter's next token: the watcher may have drawn some that no row received. */
  function NextToken(l: Leases, p: ProblemId, skipped: nat): int {
    Newest(l, p) + 1 + skipped
  }

  function SetRow(l: Leases, id: JobId, row: JobRow): Leases {
    l.(jobs := l.jobs[id := row])
  }

  /** A row moves on to a new token of its problem. */
  function Reissued(l: Leases, id: JobId, row: JobRow): Leases {
    SetRow(l, id, row).(issued := l.issued[row.problem := row.token])
  }

  /** An acquisition, a re-acquisition or the watcher's claim. */
  function AfterLease(l: Leases, id: JobId, skipped: nat, now: Time): Leases
    requires id in l.jobs
  {
    var row := l.jobs[id];
    var token := NextToken(l, row.problem, skipped);
    Reissued(l, id, row.(stage := Leased, token := token, updatedAt := now)).(
      holders := l.holders[(row.problem, token) := row.op])
  }

  /** A cancellation, or the end of a row whose lease has run out: the token moves on, to nobody. */
  function AfterRevoke(l: Leases, id: JobId, skipped: nat, now: Time): Leases
    requires id in l.jobs
  {
    var row := l.jobs[id];
    Reissued(l, id, Completed(row, now).(token := NextToken(l, row.problem, skipped)))
  }

  function Completed(row: JobRow, now: Time): JobRow {
    row.(stage := Closed, completedAt := Some(now), updatedAt := now)
  }

  function GivenBack(row: JobRow, now: Time): JobRow {
    row.(stage := Waiting, completedAt := None, updatedAt := now)
  }

  /** retryJob clears lease, cancellation and error, but not completed_at. */
  function Retried(row: JobRow, now: Time): JobRow {
    row.(stage := Waiting, updatedAt := now)
  }

  function NewRow(p: ProblemId, op: Operation, now: Time): JobRow {
    JobRow(p, op, 0, Waiting, None, now)
  }

  function AfterCreate(l: Leases, id: JobId, row: JobRow): Leases {
    l.(jobs := l.jobs[id := row], nextJob := id + 1)
  }

  predicate Deletes(step: JobStep) {
    step.Purge? || step.PurgeClosed?
  }

  predicate Old(at: Option<Time>, now: Time, seconds: nat) {
    at.Some? && at.value < now - seconds
  }

  /**
   What a DELETE takes. applyRetention asks for completed_at only, whatever state a row is in; purgeTerminalJobs takes
   closed rows that nothing has updated for long, some of them at a time.
   */
  function Outdated(l: Leases, now: Time, keep: Keep, step: JobStep): set<JobId> {
    match step
    case Purge => set id | id in l.jobs && Old(l.jobs[id].completedAt, now, keep.jobs)
    case PurgeClosed(ids) =>
      set id | id in l.jobs && id in ids && l.jobs[id].stage == Closed
               && Old(Some(l.jobs[id].updatedAt), now, keep.closed)
    case _ => {}
  }

  function Without(l: Leases, gone: set<JobId>): Leases {
    l.(jobs := l.jobs - gone)
  }

  ghost predicate Fewer(l: Leases, v: Leases) {
    v == l.(jobs := v.jobs) && forall id :: id in v.jobs ==> id in l.jobs && v.jobs[id] == l.jobs[id]
  }

  /** Of the rows those stay that were never closed, or not before `from`. */
  ghost predicate OnlyUnclosedSince(l: Leases, v: Leases, from: Time) {
    Fewer(l, v)
    && forall id :: id in l.jobs ==>
         (id in v.jobs <==> (l.jobs[id].completedAt.Some? ==> from <= l.jobs[id].completedAt.value))
  }

  /** Of the rows those stay that are open, or were not left alone since `from`. */
  ghost predicate OnlyUpdatedSince(l: Leases, v: Leases, from: Time) {
    Fewer(l, v)
    && forall id :: id in l.jobs ==> (id in v.jobs <==> (l.jobs[id].stage == Closed ==> from <= l.jobs[id].updatedAt))
  }

  /** Each DELETE spares exactly what has happened lately: a closing of any row, a change of a closed one. */
  lemma PurgesTakeTheOld(l: Leases, now: Time, keep: Keep)
    ensures OnlyUnclosedSince(l, AfterJob(l, now, keep, Purge), now - keep.jobs)
    ensures OnlyUpdatedSince(l, AfterJob(l, now, keep, PurgeClosed(l.jobs.Keys)), now - keep.closed)
  {
  }

  function AfterJob(l: Leases, now: Time, keep: Keep, step: JobStep): Leases {
    match step
    case Create(id, p, op) => if l.nextJob <= id then AfterCreate(l, id, NewRow(p, op, now)) else l
    case Lease(id, skipped) => if Open(l, id) then AfterLease(l, id, skipped, now) else l
    case Start(id) =>
      if IsLeased(l, id) then l.(workers := l.workers + {(l.jobs[id].problem, l.jobs[id].token)}) else l
    case Stop(p, token) => l.(workers := l.workers - {(p, token)})
    case Close(id) => if Open(l, id) then SetRow(l, id, Completed(l.jobs[id], now)) else l
    case Revoke(id, skipped) => if Open(l, id) then AfterRevoke(l, id, skipped, now) else l
    case GiveBack(id) => if IsLeased(l, id) then SetRow(l, id, GivenBack(l.jobs[id], now)) else l
    case Retry(id) => if id in l.jobs && l.jobs[id].stage == Closed then SetRow(l, id, Retried(l.jobs[id], now)) else l
    case Touch(id) => if id in l.jobs then SetRow(l, id, l.jobs[id].(updatedAt := now)) else l
    case Purge => Without(l, Outdated(l, now, keep, Purge))
    case PurgeClosed(ids) => Without(l, Outdated(l, now, keep, PurgeClosed(ids)))
  }

  /**
   Every change of a row, and every replay, is stamped with its time, and a closing once more as the row's end. Only a
   row that is given back loses its end.
   */
  lemma ChangesAreStamped(l: Leases, now: Time, keep: Keep, step: JobStep, id: JobId)
    requires LeasesOk(l) && id in AfterJob(l, now, keep, step).jobs
    ensures var v := AfterJob(l, now, keep, step);
            && (id !in l.jobs || v.jobs[id] != l.jobs[id] || step == Touch(id) ==> v.jobs[id].updatedAt == now)
            && (id in l.jobs && l.jobs[id].stage != Closed && v.jobs[id].stage == Closed ==>
                  v.jobs[id].completedAt == Some(now))
            && (id in l.jobs && v.jobs[id].stage != Closed ==>
                  v.jobs[id].completedAt == if step == GiveBack(id) && l.jobs[id].stage == Leased then None
                                            else l.jobs[id].completedAt)
            && (id !in l.jobs ==> v.jobs[id].completedAt == None)
  {
    hide Outdated;
    assert id in l.jobs ==> RowOk(l, id);
  }

  // ---------------------------------------------------------------- what every step keeps

  ghost predicate RowOk(l: Leases, id: JobId)
    requires id in l.jobs
  {
    var row := l.jobs[id];
    && id < l.nextJob && 0 <= row.token <= Newest(l, row.problem)
    && (row.stage == Leased ==> (row.problem, row.token) in l.holders && l.holders[(row.problem, row.token)] == row.op)
  }

  ghost predicate LeasesOk(l: Leases) {
    && (forall p :: p in l.issued ==> 0 <= l.issued[p])
    && (forall k :: k in l.holders ==> 1 <= k.1 <= Newest(l, k.0))
    && (forall k :: k in l.workers ==> k in l.holders)
    && (forall id :: id in l.jobs ==> RowOk(l, id))
  }

  lemma JobKeepsOk(l: Leases, now: Time, keep: Keep, step: JobStep)
    requires LeasesOk(l)
    ensures LeasesOk(AfterJob(l, now, keep, step))
  {
    hide LeasesOk, Outdated;
    match step
    case Create(id, p, op) => if l.nextJob <= id { CreateKeepsOk(l, id, NewRow(p, op, now)); }
    case Lease(id, skipped) => if Open(l, id) { LeaseKeepsOk(l, id, skipped, now); }
    case Revoke(id, skipped) => if Open(l, id) { RevokeKeepsOk(l, id, skipped, now); }
    case Start(id) => if IsLeased(l, id) { WorkersKeepOk(l, l.workers + {TokenOf(l, id)}); }
    case Stop(p, token) => WorkersKeepOk(l, l.workers - {(p, token)});
    case Close(id) => if Open(l, id) { RowKeepsOk(l, id, Completed(l.jobs[id], now)); }
    case GiveBack(id) => if IsLeased(l, id) { RowKeepsOk(l, id, GivenBack(l.jobs[id], now)); }
    case Retry(id) => if id in l.jobs { RowKeepsOk(l, id, Retried(l.jobs[id], now)); }
    case Touch(id) => if id in l.jobs { RowKeepsOk(l, id, l.jobs[id].(updatedAt := now)); }
    case _ => WithoutKeepsOk(l, Outdated(l, now, keep, step));
  }

  lemma CreateKeepsOk(l: Leases, id: JobId, row: JobRow)
    requires LeasesOk(l) && l.nextJob <= id && row.stage == Waiting && row.token == 0
    ensures LeasesOk(AfterCreate(l, id, row))
  {
    var v := AfterCreate(l, id, row);
    forall x | x in v.jobs
      ensures RowOk(v, x)
    {
      assert x != id ==> RowOk(l, x);
    }
  }

  predicate SameToken(row: JobRow, after: JobRow) {
    after.problem == row.problem && after.op == row.op && after.token == row.token
    && (after.stage == Leased ==> row.stage == Leased)
  }

  lemma RowKeepsOk(l: Leases, id: JobId, row: JobRow)
    requires LeasesOk(l) && id in l.jobs && SameToken(l.jobs[id], row)
    ensures LeasesOk(SetRow(l, id, row))
  {
    var v := SetRow(l, id, row);
    forall x | x in v.jobs
      ensures RowOk(v, x)
    {
      assert RowOk(l, x);
    }
  }

  /** Workers come from leased rows. */
  lemma WorkersKeepOk(l: Leases, workers: set<(ProblemId, int)>)
    requires LeasesOk(l)
    requires forall k :: k in workers ==> k in l.workers || exists id :: IsLeased(l, id) && TokenOf(l, id) == k
    ensures LeasesOk(l.(workers := workers))
  {
    var v := l.(workers := workers);
    forall x | x in v.jobs
      ensures RowOk(v, x)
    {
      assert RowOk(l, x);
    }
  }

  function TokenOf(l: Leases, id: JobId): (ProblemId, int)
    requires id in l.jobs
  {
    (l.jobs[id].problem, l.jobs[id].token)
  }

  lemma WithoutKeepsOk(l: Leases, gone: set<JobId>)
    requires LeasesOk(l)
    ensures LeasesOk(Without(l, gone))
  {
    var v := Without(l, gone);
    forall x | x in v.jobs
      ensures RowOk(v, x)
    {
      assert RowOk(l, x);
    }
  }

  lemma LeaseKeepsOk(l: Leases, id: JobId, skipped: nat, now: Time)
    requires LeasesOk(l) && id in l.jobs
    ensures LeasesOk(AfterLease(l, id, skipped, now))
  {
    var v := AfterLease(l, id, skipped, now);
    forall x | x in v.jobs
      ensures RowOk(v, x)
    {
      assert RowOk(l, x);
    }
  }

  lemma RevokeKeepsOk(l: Leases, id: JobId, skipped: nat, now: Time)
    requires LeasesOk(l) && id in l.jobs
    ensures LeasesOk(AfterRevoke(l, id, skipped, now))
  {
    var v := AfterRevoke(l, id, skipped, now);
    forall x | x in v.jobs
      ensures RowOk(v, x)
    {
      assert RowOk(l, x);
    }
  }

  lemma CounterRises(l: Leases, now: Time, keep: Keep, step: JobStep, p: ProblemId)
    ensures Newest(l, p) <= Newest(AfterJob(l, now, keep, step), p)
  {
  }

  // ---------------------------------------------------------------- the fence

  /** Somebody acts under this token: a worker that has started, or whoever holds the lease. */
  predicate Held(l: Leases, p: ProblemId, token: int) {
    (p, token) in l.workers
    || exists id :: id in l.jobs && l.jobs[id].stage == Leased && l.jobs[id].problem == p && l.jobs[id].token == token
  }

  /** A newer token has been issued for the problem since. */
  predicate Overtaken(l: Leases, p: ProblemId, token: int) {
    token < Newest(l, p)
  }

  /** Somebody who has been overtaken would pass the fence. */
  predicate Slips(l: Leases, p: ProblemId, token: int) {
    Held(l, p, token) && Overtaken(l, p, token) && Passes(l, p, token)
  }

  ghost predicate FenceHolds(l: Leases) {
    forall p, token :: !Slips(l, p, token)
  }

  /** The largest token among the rows there are tells the same as the counter, for everybody who acts. */
  lemma FenceDecides(l: Leases)
    requires LeasesOk(l)
    ensures FenceHolds(l) <==>
              forall p, token :: Held(l, p, token) ==> (LargestToken(l, p) <= token <==> Newest(l, p) <= token)
  {
    forall p, token | Held(l, p, token)
      ensures !Slips(l, p, token) <==> (LargestToken(l, p) <= token <==> Newest(l, p) <= token)
    {
      HeldIsIssued(l, p, token);
      PassesByMaximum(l, p, token);
    }
  }

  /** Some row above the token stays. */
  predicate KeepsAbove(l: Leases, gone: set<JobId>, p: ProblemId, token: int) {
    exists id :: id in l.jobs && id !in gone && l.jobs[id].problem == p && token < l.jobs[id].token
  }

  /** What a DELETE would have to look at: above each overtaken token that somebody holds some row stays. */
  ghost predicate Spares(l: Leases, gone: set<JobId>) {
    forall p, token :: Held(Without(l, gone), p, token) && Overtaken(l, p, token) ==> KeepsAbove(l, gone, p, token)
  }

  lemma PurgeSlips(l: Leases, gone: set<JobId>, p: ProblemId, token: int)
    requires LeasesOk(l)
    ensures Slips(Without(l, gone), p, token) <==>
            Held(Without(l, gone), p, token) && Overtaken(l, p, token) && !KeepsAbove(l, gone, p, token)
  {
    var v := Without(l, gone);
    if Held(v, p, token) {
      HeldIsIssued(v, p, token);
      if id :| id in l.jobs && id !in gone && l.jobs[id].problem == p && token < l.jobs[id].token {
        assert id in v.jobs;
      }
    }
  }

  lemma PurgeKeepsFence(l: Leases, gone: set<JobId>)
    requires LeasesOk(l)
    ensures FenceHolds(Without(l, gone)) <==> Spares(l, gone)
  {
    hide Slips, Held, KeepsAbove;
    var v := Without(l, gone);
    forall p, token
      ensures Slips(v, p, token) <==>
              Held(v, p, token) && Overtaken(l, p, token) && !KeepsAbove(l, gone, p, token)
    {
      PurgeSlips(l, gone, p, token);
    }
  }

  lemma HeldIsIssued(l: Leases, p: ProblemId, token: int)
    requires LeasesOk(l) && Held(l, p, token)
    ensures (p, token) in l.holders && 1 <= token <= Newest(l, p)
  {
    if (p, token) !in l.workers {
      var id :| id in l.jobs && l.jobs[id].stage == Leased && l.jobs[id].problem == p && l.jobs[id].token == token;
      assert RowOk(l, id);
    }
  }

  /** No step but a purge lets anybody through who was refused before. */
  lemma NoNewSlip(l: Leases, now: Time, keep: Keep, step: JobStep, p: ProblemId, token: int)
    requires LeasesOk(l) && !Deletes(step) && Slips(AfterJob(l, now, keep, step), p, token)
    ensures Slips(l, p, token)
  {
    hide LeasesOk;
    var v := AfterJob(l, now, keep, step);
    match step
    case Lease(id, _) => if Open(l, id) { ReissueLetsNobodyIn(l, v, id, p, token); }
    case Revoke(id, _) => if Open(l, id) { ReissueLetsNobodyIn(l, v, id, p, token); }
    case Create(id, _, _) => if l.nextJob <= id { CreateLetsNobodyIn(l, v, id, p, token); }
    case _ => QuietLetsNobodyIn(l, v, p, token);
  }

  /** A row with the newest token fences everybody else. */
  lemma ReissueLetsNobodyIn(l: Leases, v: Leases, id: JobId, p: ProblemId, token: int)
    requires id in l.jobs && id in v.jobs && v.workers == l.workers
    requires v.issued == l.issued[l.jobs[id].problem := v.jobs[id].token]
    requires v.jobs == l.jobs[id := v.jobs[id]] && v.jobs[id].problem == l.jobs[id].problem
    requires Slips(v, p, token)
    ensures Slips(l, p, token)
  {
    assert p != l.jobs[id].problem;
    assert forall x :: x in l.jobs && l.jobs[x].problem == p ==> x in v.jobs && v.jobs[x] == l.jobs[x];
  }

  /** Rows keep their problems and tokens, and nobody joins. */
  lemma QuietLetsNobodyIn(l: Leases, v: Leases, p: ProblemId, token: int)
    requires v.issued == l.issued && v.jobs.Keys == l.jobs.Keys && Slips(v, p, token)
    requires forall id :: id in l.jobs ==> SameToken(l.jobs[id], v.jobs[id])
    requires forall k :: k in v.workers ==> Held(l, k.0, k.1)
    ensures Slips(l, p, token)
  {
    assert forall id :: id in v.jobs ==> id in l.jobs;
  }

  lemma CreateLetsNobodyIn(l: Leases, v: Leases, id: JobId, p: ProblemId, token: int)
    requires LeasesOk(l) && v.issued == l.issued && v.workers == l.workers && l.nextJob <= id && id in v.jobs
    requires v.jobs == l.jobs[id := v.jobs[id]] && v.jobs[id].stage == Waiting
    requires Slips(v, p, token)
    ensures Slips(l, p, token)
  {
    assert id !in l.jobs by { assert id in l.jobs ==> RowOk(l, id); }
    assert forall x :: x in l.jobs ==> x in v.jobs && v.jobs[x] == l.jobs[x];
  }

  /** Every step but a purge keeps the fence, and a purge does exactly when it spares what is needed. */
  lemma JobKeepsFence(l: Leases, now: Time, keep: Keep, step: JobStep)
    requires LeasesOk(l) && FenceHolds(l)
    ensures FenceHolds(AfterJob(l, now, keep, step)) <==> (Deletes(step) ==> Spares(l, Outdated(l, now, keep, step)))
  {
    hide Slips, LeasesOk, Spares;
    if Deletes(step) {
      PurgeKeepsFence(l, Outdated(l, now, keep, step));
    } else {
      forall p, token | Slips(AfterJob(l, now, keep, step), p, token)
        ensures false
      {
        NoNewSlip(l, now, keep, step, p, token);
      }
    }
  }

  /** While the fence holds, whoever is held to act and passes has the newest token of all. */
  lemma PassingIsNewest(l: Leases, p: ProblemId, token: int)
    requires LeasesOk(l) && FenceHolds(l) && Held(l, p, token) && Passes(l, p, token)
    ensures token == Newest(l, p)
  {
    HeldIsIssued(l, p, token);
    assert !Slips(l, p, token);
  }

  /** A job that is cancelled, retried and leased again. */
  function SecondTry(p: ProblemId, op: Operation, keep: Keep): Leases {
    var cancelled := AfterJob(AfterJob(NO_LEASES, 0, keep, Create(0, p, op)), 0, keep, Revoke(0, 0));
    AfterJob(AfterJob(cancelled, 0, keep, Retry(0)), 0, keep, Lease(0, 0))
  }

  /** applyRetention deletes it while it runs, and the newest token with it; purgeTerminalJobs never would. */
  lemma RunningJobIsDeleted(p: ProblemId, op: Operation, keep: Keep, now: Time, ids: set<JobId>)
    requires now > keep.jobs
    ensures var l := SecondTry(p, op, keep);
            && IsLeased(l, 0) && l.jobs[0].token == Newest(l, p)
            && 0 !in AfterJob(l, now, keep, Purge).jobs && 0 in AfterJob(l, now, keep, PurgeClosed(ids)).jobs
  {
  }
}
