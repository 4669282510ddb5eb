/**
 When a collected mark can be trusted. Retention deletes the last row about an object on the strength of such a mark,
 so what counts is not only that the object is gone now, but that nothing in progress can prove the mark wrong.
 */
module CollectedMarks {
  import opened Common
  import opened JobLeases
  import opened Storage
  import opened SnapshotRows
  import opened GcSafety
  import opened GcMarks
  import opened RetentionRun
  import opened ReadyCas
  import opened LocalCopies
  import opened Runs

  /** In this state a collected mark means that the object is gone. */
  ghost predicate MarksTrue(w: World) {
    CollectedAbsent(w.marks, w.store)
  }

  ghost predicate PutsNothing(w: World, step: Step) {
    step.Upload? ==> PutKey(w, step.upload).None?
  }

  ghost predicate QuietRun(w: World, run: seq<Step>)
    decreases |run|
  {
    run == [] || (InTurn(w, run[0]) && PutsNothing(w, run[0]) && QuietRun(After(w, run[0]), run[1..]))
  }

  /** Whatever happens from here on, short of another put, collected marks are true. */
  ghost predicate Trusted(w: World) {
    forall run :: QuietRun(w, run) ==> MarksTrue(Exec(w, run))
  }

  lemma SpoiltBefore(w: World, step: Step)
    requires !Trusted(After(w, step)) && InTurn(w, step) && PutsNothing(w, step)
    ensures !Trusted(w)
  {
    hide After, MarksTrue, InTurn, PutsNothing;
    var run :| QuietRun(After(w, step), run) && !MarksTrue(Exec(After(w, step), run));
    var longer := [step] + run;
    assert longer[0] == step && longer[1..] == run;
    assert QuietRun(w, longer) && Exec(w, longer) == Exec(After(w, step), run);
  }

  lemma TrueNow(w: World)
    requires Trusted(w)
    ensures MarksTrue(w)
  {
    hide MarksTrue;
    assert QuietRun(w, []) && Exec(w, []) == w;
  }

  // ---------------------------------------------------------------- a wrong mark in the making gets made

  /** The collector is about to mark a key that is in the store. */
  ghost predicate Misled(w: World, c: CollectorId, phase: Phase) {
    AtPhase(w, c, phase) && AliveRef(w.marks, w.collectors[c].target) && Target(w, c) in w.store
  }

  lemma GoneSpoils(w: World, c: CollectorId)
    requires Misled(w, c, Gone)
    ensures !Trusted(w)
  {
    hide Trusted;
    var v := AfterMarkCollected(w, c);
    assert v.marks[w.collectors[c].target.mark].collected;
    if Trusted(v) { TrueNow(v); }
    SpoiltBefore(w, Collect(MarkCollected(c)));
  }

  lemma UnclaimedSpoils(w: World, c: CollectorId)
    requires Misled(w, c, Erased) && !LiveRef(w, Target(w, c))
    ensures !Trusted(w)
  {
    hide Trusted, LiveRef;
    GoneSpoils(SetPhase(w, c, Gone), c);
    SpoiltBefore(w, Collect(ThirdCheck(c)));
  }

  /** Every time that the rows mention is past. */
  ghost predicate AllBefore(rows: map<SnapshotId, Snapshot>, t: Time) {
    forall s :: s in rows ==> Past(rows[s], t)
  }

  predicate Past(row: Snapshot, t: Time) {
    && row.createdAt < t && (row.completedAt.Some? ==> row.completedAt.value < t)
    && (row.supersededAt.Some? ==> row.supersededAt.value < t)
  }

  lemma {:induction false} TimesAreBounded(rows: map<SnapshotId, Snapshot>, start: Time) returns (t: Time)
    ensures t >= start && AllBefore(rows, t)
    decreases rows.Keys
  {
    if rows == map[] {
      t := start;
    } else {
      var s :| s in rows;
      var rest := rows - {s};
      t := TimesAreBounded(rest, start);
      var row := rows[s];
      t := Max(t, row.createdAt + 1);
      t := if row.completedAt.Some? then Max(t, row.completedAt.value + 1) else t;
      t := if row.supersededAt.Some? then Max(t, row.supersededAt.value + 1) else t;
      assert forall r :: r in rows ==> r == s || (r in rest && rest[r] == rows[r]);
    }
  }

  /** The row is not READY, and the times it mentions are further back than it can stay protected. */
  lemma OldRowsExpire(w: World, key: ObjectKey, t: Time)
    requires AllBefore(w.snapshots, t) && w.now >= t + w.retention.superseded + w.retention.error
    requires forall s :: s in w.snapshots && (Active(w.snapshots[s].state) || w.snapshots[s].state == Ready) ==>
               !Refers(w.snapshots[s], key)
    ensures !LiveRef(w, key)
  {
    hide Refers;
  }

  /** A row that names a marked key is neither READY nor a claim, so once it has stalled the sweep ends it. */
  lemma SweptRowsForget(w: World, key: ObjectKey, t: Time)
    requires MarkInv(w) && (exists m :: m in w.marks && KeyOf(m) == key)
    requires AllBefore(w.snapshots, t) && w.now >= t + STALLED_SECONDS
    ensures var v := AfterSweep(w);
            forall s :: s in v.snapshots && (Active(v.snapshots[s].state) || v.snapshots[s].state == Ready) ==>
              !Refers(v.snapshots[s], key)
    ensures AllBefore(AfterSweep(w).snapshots, w.now + 1)
  {
    hide Refers;
  }

  /** Time and the stall sweep take away every reference that could still hold the collector back. */
  lemma ErasedSpoils(w: World, c: CollectorId)
    requires CoreInv(w) && Misled(w, c, Erased)
    ensures !Trusted(w)
  {
    hide Trusted, LiveRef, RowsInv, StoreInv, CasInv, MarkInv, Stalled, AllBefore, Refers;
    var key := Target(w, c);
    var t := TimesAreBounded(w.snapshots, w.now);
    var first, second := Tick(t - w.now + STALLED_SECONDS), Tick(1 + w.retention.superseded + w.retention.error);
    var w1 := AfterTable(w, first);
    StepKeepsCore(w, Table(first));
    SweptRowsForget(w1, key, t);
    var w2 := AfterTable(w1, SweepStalled);
    var w3 := AfterTable(w2, second);
    OldRowsExpire(w3, key, w1.now + 1);
    UnclaimedSpoils(w3, c);
    SpoiltBefore(w2, Table(second));
    SpoiltBefore(w1, Table(SweepStalled));
    SpoiltBefore(w, Table(first));
  }

  lemma TrustNeedsAbsence(w: World)
    requires CoreInv(w) && Trusted(w)
    ensures AbsenceInv(w)
  {
    hide CoreInv, After, Trusted;
    TrueNow(w);
    forall c | c in w.collectors && Removed(w.collectors[c]) && AliveRef(w.marks, w.collectors[c].target)
      ensures Target(w, c) !in w.store
    {
      if Misled(w, c, Gone) { GoneSpoils(w, c); }
      if Misled(w, c, Erased) { ErasedSpoils(w, c); }
    }
  }

  // ---------------------------------------------------------------- absence is enough

  lemma StepKeepsAbsence(w: World, step: Step)
    requires CoreInv(w) && AbsenceInv(w)
    ensures AbsenceInv(After(w, step)) <==> (step.Upload? ==> CleanPut(w, step.upload))
  {
    hide RowsInv, StoreInv, MarkInv, CasInv, AbsenceInv, AfterUpload, AfterCollect, AfterFolder, AfterTable,
      CleanPut;
    match step
    case Upload(upload) => UploadKeepsAbsence(w, upload);
    case Collect(collect) => CollectKeepsAbsence(w, collect);
    case Folder(folder) => FolderKeepsAbsence(w, folder);
    case Table(table) => TableKeepsAbsence(w, table);
  }

  lemma {:induction false} QuietKeepsAbsence(w: World, run: seq<Step>)
    requires CoreInv(w) && AbsenceInv(w) && QuietRun(w, run)
    ensures AbsenceInv(Exec(w, run))
    decreases |run|
  {
    hide CoreInv, AbsenceInv, After, InTurn;
    if run != [] {
      StepKeepsCore(w, run[0]);
      StepKeepsAbsence(w, run[0]);
      QuietKeepsAbsence(After(w, run[0]), run[1..]);
    }
  }

  /** Collected marks can be trusted exactly when they, and those about to be written, have no object in the store. */
  lemma TrustedExactly(w: World)
    requires CoreInv(w)
    ensures Trusted(w) <==> AbsenceInv(w)
  {
    hide CoreInv, QuietRun, Exec;
    if Trusted(w) {
      TrustNeedsAbsence(w);
    }
    if AbsenceInv(w) {
      forall run | QuietRun(w, run)
        ensures MarksTrue(Exec(w, run))
      {
        QuietKeepsAbsence(w, run);
      }
    }
  }

  // ---------------------------------------------------------------- over runs

  /** Every put of the run goes to a key that carries no collected mark and is not being collected. */
  ghost predicate CleanRun(w: World, run: seq<Step>)
    decreases |run|
  {
    run == [] || ((run[0].Upload? ==> CleanPut(w, run[0].upload)) && CleanRun(After(w, run[0]), run[1..]))
  }

  /** In every state of the run collected marks can be trusted. */
  ghost predicate AlwaysTrusted(w: World, run: seq<Step>)
    decreases |run|
  {
    Trusted(w) && (run == [] || AlwaysTrusted(After(w, run[0]), run[1..]))
  }

  /** Collected marks can be trusted throughout a run exactly when the run's puts are clean. */
  lemma {:induction false} TrustedExactlyWhenClean(w: World, run: seq<Step>)
    requires CoreInv(w) && Trusted(w) && RunInTurn(w, run)
    ensures AlwaysTrusted(w, run) <==> CleanRun(w, run)
    decreases |run|
  {
    hide CoreInv, Trusted, AbsenceInv, After, InTurn, CleanPut;
    if run != [] {
      StepKeepsCore(w, run[0]);
      TrustedExactly(w);
      StepKeepsAbsence(w, run[0]);
      TrustedExactly(After(w, run[0]));
      if Trusted(After(w, run[0])) {
        TrustedExactlyWhenClean(After(w, run[0]), run[1..]);
      }
    }
  }

  lemma {:induction false} TrustedAtTheEnd(w: World, run: seq<Step>)
    requires AlwaysTrusted(w, run)
    ensures Trusted(Exec(w, run))
    decreases |run|
  {
    hide Trusted;
    if run != [] {
      TrustedAtTheEnd(After(w, run[0]), run[1..]);
    }
  }

  /** Every put of the run is by an upload whose row is still in an active state. */
  ghost predicate LivePuts(w: World, run: seq<Step>)
    decreases |run|
  {
    run == [] || (LivePut(w, run[0]) && LivePuts(After(w, run[0]), run[1..]))
  }

  ghost predicate LivePut(w: World, step: Step) {
    step.Upload? && PutKey(w, step.upload).Some? ==>
      step.upload.s in w.snapshots && Active(w.snapshots[step.upload.s].state)
  }

  /** Nobody who lost the row keeps on uploading: then every put is clean. */
  lemma {:induction false} LivePutsAreClean(w: World, run: seq<Step>)
    requires CoreInv(w) && RunInTurn(w, run) && LivePuts(w, run)
    ensures CleanRun(w, run)
    decreases |run|
  {
    hide RowsInv, StoreInv, MarkInv, CasInv, After, InTurn, CleanKey, Active, PutKey;
    if run != [] {
      if run[0].Upload? && PutKey(w, run[0].upload).Some? {
        LivePutIsClean(w, run[0].upload);
      }
      StepKeepsCore(w, run[0]);
      LivePutsAreClean(After(w, run[0]), run[1..]);
    }
  }

  // ---------------------------------------------------------------- what retention relies on

  /** Whatever a row named that a retention run prunes is out of the store or named by a protected row. */
  ghost predicate KeepsLast(w: World) {
    forall s, key :: s in w.snapshots && s !in AfterRetain(w).snapshots && Refers(w.snapshots[s], key) ==>
                       NotLast(AfterRetain(w), key)
  }

  /** No mark that lies is the reason for pruning a row. */
  ghost predicate LiesPruneNothing(w: World) {
    forall s, key ::
      s in w.snapshots && Prunable(w, s) && Refers(w.snapshots[s], key) && CollectedMark(w.marks, key) ==>
        key !in w.store || LiveRef(w, key)
  }

  lemma PrunedKey(w: World, s: SnapshotId, key: ObjectKey)
    requires s in w.snapshots && Prunable(w, s) && Refers(w.snapshots[s], key)
    ensures s !in AfterRetain(w).snapshots
    ensures LiveRef(w, key) || CollectedMark(w.marks, key)
    ensures NotLast(AfterRetain(w), key) <==> LiveRef(w, key) || key !in w.store
  {
    hide AfterMark, CollectedMark, Protected;
    RetainFrame(w);
    RetainKeepsLive(w, key);
  }

  /** Retention keeps every last reference exactly when the collected marks it prunes by are true. */
  lemma RetentionKeepsLastExactly(w: World)
    ensures KeepsLast(w) <==> LiesPruneNothing(w)
  {
    hide AfterRetain, NotLast, Refers, LiveRef, CollectedMark;
    forall s, key | s in w.snapshots && Refers(w.snapshots[s], key)
      ensures s !in AfterRetain(w).snapshots <==> Prunable(w, s)
      ensures Prunable(w, s) ==>
                (NotLast(AfterRetain(w), key) <==>
                   (CollectedMark(w.marks, key) && !LiveRef(w, key) ==> key !in w.store))
    {
      RetainFrame(w);
      if Prunable(w, s) { PrunedKey(w, s, key); }
    }
  }

  /** What a retention run does, in terms of the rows that go. */
  lemma RetentionMeans(w: World)
    ensures AfterRetain(AfterRetain(w)) == AfterRetain(w).(epoch := w.epoch + 2) && AfterRetain(w).epoch == w.epoch + 1
    ensures forall s :: s in AfterRetain(w).snapshots <==> s in w.snapshots && !Prunable(w, s)
    ensures forall s :: s in AfterRetain(w).snapshots ==> AfterRetain(w).snapshots[s] == w.snapshots[s]
    ensures LiesPruneNothing(w) <==>
              forall s, key :: s in w.snapshots && Prunable(w, s) && Refers(w.snapshots[s], key) ==>
                                 NotLast(AfterRetain(w), key)
  {
    hide AfterMark, Prunable, Refers, NotLast, LiesPruneNothing;
    RetainIsIdempotent(w);
    RetentionKeepsLastExactly(w);
    MarkFrame(AfterPrune(w));
    RetentionRun.PruneFrame(w);
  }

  /** Deleting job rows changes nothing that the rest of the retention transaction looks at. */
  lemma PurgedJobsDoNotMatter(w: World)
    ensures var v := AfterWork(w, Purge);
            && (forall s :: s in w.snapshots ==> Prunable(v, s) == Prunable(w, s))
            && LiesPruneNothing(v) == LiesPruneNothing(w)
  {
    hide CollectedMark, Refers, LiesPruneNothing;
    var v := AfterWork(w, Purge);
    forall s | s in w.snapshots
      ensures Prunable(v, s) == Prunable(w, s)
    {
      forall key
        ensures OtherLiveRef(v, s, key) == OtherLiveRef(w, s, key)
      {
        assert SameRetentionInput(w, v);
      }
    }
    hide Prunable;
    forall key
      ensures LiveRef(v, key) == LiveRef(w, key)
    {
      SameLive(w, v, key);
    }
    SameLies(w, v);
  }

  lemma SameLies(w: World, v: World)
    requires v.snapshots == w.snapshots && v.marks == w.marks && v.store == w.store
    requires forall s :: s in w.snapshots ==> Prunable(v, s) == Prunable(w, s)
    requires forall key :: LiveRef(v, key) == LiveRef(w, key)
    ensures LiesPruneNothing(v) == LiesPruneNothing(w)
  {
    hide Prunable, LiveRef, Refers, CollectedMark;
  }

  /** The rows that go and the marks that come, in the whole transaction. */
  lemma RetentionLeaves(w: World)
    ensures var v := AfterRetain(AfterWork(w, Purge));
            && MarksRenewed(w, v) && (RowsInv(w) ==> AllMarked(v))
            && v.leases == AfterJob(w.leases, w.now, w.retention.jobs, Purge)
    ensures RowsInv(w) ==> forall s :: s in w.snapshots ==> (Prunable(w, s) <==> Due(w, s))
  {
    hide Prunable, Due, AfterRetain, AfterJob, AllMarked, Renewed, EligibleFrom, LiveRef, LastToName, SameSchedule,
      RowsOk;
    var u := AfterWork(w, Purge);
    RetentionRenews(u);
    LeasesStay(u);
    if RowsInv(w) {
      forall s | s in w.snapshots
        ensures Prunable(w, s) <==> Due(w, s)
      {
        PrunedExactly(w, s);
      }
    }
  }

  lemma LeasesStay(w: World)
    ensures AfterRetain(w).leases == w.leases
  {
    hide AfterPrune, ProposedMarks, Written, Owner;
    PrunedLeases(w);
  }

  /** After the transaction no job is old enough to go. */
  lemma NoOldJobsLeft(w: World)
    ensures var v := AfterRetain(AfterWork(w, Purge)); AfterWork(v, Purge) == v
  {
    hide AfterPrune, ProposedMarks, Written, Owner;
    var u := AfterWork(w, Purge);
    PrunedLeases(u);
    assert Without(u.leases, Outdated(u.leases, w.now, w.retention.jobs, Purge)).jobs == u.leases.jobs;
  }

  lemma PrunedLeases(w: World)
    ensures AfterPrune(w).leases == w.leases && AfterPrune(w).now == w.now && AfterPrune(w).retention == w.retention
  {
    hide Prunable;
  }

  /** After any clean run, retention drops no last reference to a stored object. */
  lemma RetentionKeepsLastReferences(retention: Retention, now: Time, run: seq<Step>)
    requires RunInTurn(Init(retention, now), run) && CleanRun(Init(retention, now), run)
    ensures KeepsLast(Exec(Init(retention, now), run))
  {
    hide Exec, RunInTurn, CleanRun, AlwaysTrusted, Trusted, CoreInv, KeepsLast, Prunable, LiveRef, Refers;
    var w := Exec(Init(retention, now), run);
    InitInv(retention, now);
    TrustedExactly(Init(retention, now));
    TrustedExactlyWhenClean(Init(retention, now), run);
    TrustedAtTheEnd(Init(retention, now), run);
    RunKeepsCore(Init(retention, now), run);
    TrustedExactly(w);
    RetentionKeepsLastExactly(w);
  }
}
