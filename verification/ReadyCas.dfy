/** READY transitions: one READY row a problem, in strictly increasing generations, and READY rows do not change. */
module ReadyCas {
  import opened Common
  import opened JobLeases
  import opened Storage
  import opened SnapshotRows

  predicate Settled(row: Snapshot) {
    row.state == Ready || row.state == Superseded
  }

  predicate SameSettled(a: Snapshot, b: Snapshot) {
    a.state == b.state && a.problem == b.problem && a.generation == b.generation && a.files == b.files
    && a.manifest == b.manifest && a.supersededAt == b.supersededAt
  }

  /** No row settles, READY rows stay as they are, and superseded rows can only go. */
  ghost predicate SettledFrame(rows: map<SnapshotId, Snapshot>, after: map<SnapshotId, Snapshot>) {
    && (forall s :: s in after && Settled(after[s]) ==> s in rows && SameSettled(rows[s], after[s]))
    && (forall s :: s in rows && rows[s].state == Ready ==> s in after && SameSettled(rows[s], after[s]))
    && (forall s :: s in rows && s in after && rows[s].state == Superseded ==> SameSettled(rows[s], after[s]))
  }

  lemma RowFrame(rows: map<SnapshotId, Snapshot>, s: SnapshotId, row: Snapshot)
    requires s in rows ==> !Settled(rows[s])
    requires Settled(row) ==> s in rows && SameSettled(rows[s], row)
    ensures SettledFrame(rows, rows[s := row])
  {
  }

  lemma OwnRowUnsettled(w: World, s: SnapshotId)
    requires RowsInv(w) && s in w.uploaders && s in w.snapshots
    ensures !Settled(w.snapshots[s])
  {
  }

  lemma ClaimFrame(w: World, s: SnapshotId, u: Uploader)
    requires s in w.snapshots ==> !Settled(w.snapshots[s])
    ensures SettledFrame(w.snapshots, AfterClaim(w, s, u).snapshots)
  {
    hide SettledFrame;
    RowFrame(w.snapshots, s, ClaimedRow(w, s, u.problem, u.generation));
  }

  lemma ClaimReusesUnsettled(w: World, p: ProblemId, generation: int, token: int)
    requires RowsInv(w) && CanClaim(w, p, generation, token)
    ensures var s := ClaimedId(w, p, generation); s in w.snapshots ==> !Settled(w.snapshots[s])
  {
    ClaimedIdSpec(w, p, generation);
  }

  lemma NoFrame(rows: map<SnapshotId, Snapshot>)
    ensures SettledFrame(rows, rows)
  {
  }

  lemma PrepareFrame(w: World, s: SnapshotId)
    requires CanPrepare(w, s)
    ensures SettledFrame(w.snapshots, AfterPrepare(w, s).snapshots)
  {
    hide SettledFrame;
    RowFrame(w.snapshots, s, AfterPrepare(w, s).snapshots[s]);
  }

  lemma RecordFrame(w: World, s: SnapshotId, path: RelPath)
    requires RowsInv(w) && CanRecord(w, s, path)
    ensures SettledFrame(w.snapshots, AfterRecord(w, s, path).snapshots)
  {
    hide SettledFrame, RowsOk;
    OwnRowUnsettled(w, s);
    RowFrame(w.snapshots, s, AfterRecord(w, s, path).snapshots[s]);
  }

  lemma StageFrames(w: World, s: SnapshotId)
    requires RowsInv(w) && s in w.uploaders
    ensures SettledFrame(w.snapshots, AfterClearRows(w, s).snapshots)
    ensures SettledFrame(w.snapshots, AfterStartHashing(w, s).snapshots)
    ensures SettledFrame(w.snapshots, AfterFail(w, s).snapshots)
  {
    hide SettledFrame, RowsOk;
    NoFrame(w.snapshots);
    if s in w.snapshots {
      var row := w.snapshots[s];
      OwnRowUnsettled(w, s);
      RowFrame(w.snapshots, s, row.(files := map[], verified := {}));
      RowFrame(w.snapshots, s, row.(state := Hashing));
      RowFrame(w.snapshots, s, row.(state := Error, completedAt := Some(w.now)));
    }
  }

  lemma StartVerifyingFrame(w: World, s: SnapshotId)
    requires RowsInv(w) && s in w.uploaders
    ensures SettledFrame(w.snapshots, AfterStartVerifying(w, s).snapshots)
  {
    hide SettledFrame, RowsOk;
    NoFrame(w.snapshots);
    if s in w.snapshots {
      OwnRowUnsettled(w, s);
      RowFrame(w.snapshots, s, VerifyingRow(w.snapshots[s]));
    }
  }

  lemma SweepFrame(w: World)
    ensures SettledFrame(w.snapshots, AfterSweep(w).snapshots)
  {
  }

  lemma PruneFrame(w: World)
    ensures SettledFrame(w.snapshots, AfterPrune(w).snapshots)
  {
    hide CollectedMark, OtherLiveRef;
  }

  // ---------------------------------------------------------------- the compare-and-set on problem_usage

  predicate Covers(usage: map<ProblemId, Usage>, p: ProblemId, generation: int) {
    p in usage && usage[p].generation.Some? && usage[p].generation.value >= generation
  }

  ghost predicate Rising(before: map<ProblemId, Usage>, after: map<ProblemId, Usage>) {
    forall p, g :: Covers(before, p, g) ==> Covers(after, p, g)
  }

  ghost predicate SettledCovered(rows: map<SnapshotId, Snapshot>, usage: map<ProblemId, Usage>) {
    forall s :: s in rows && Settled(rows[s]) ==> Covers(usage, rows[s].problem, rows[s].generation)
  }

  ghost predicate OneReady(rows: map<SnapshotId, Snapshot>) {
    forall s, t :: (s in rows && t in rows && rows[s].state == Ready && rows[t].state == Ready
                    && rows[s].problem == rows[t].problem) ==> s == t
  }

  ghost predicate SupersededBelow(rows: map<SnapshotId, Snapshot>) {
    forall s, t :: (s in rows && t in rows && rows[s].state == Superseded && rows[t].state == Ready
                    && rows[s].problem == rows[t].problem) ==> rows[s].generation < rows[t].generation
  }

  /** The generations that became READY, problem by problem, in strictly increasing order. */
  ghost predicate LogRises(log: seq<(ProblemId, int)>) {
    forall i, j :: 0 <= i < j < |log| && log[i].0 == log[j].0 ==> log[i].1 < log[j].1
  }

  ghost predicate LogCovered(log: seq<(ProblemId, int)>, usage: map<ProblemId, Usage>) {
    forall i :: 0 <= i < |log| ==> Covers(usage, log[i].0, log[i].1)
  }

  ghost predicate CasOk(rows: map<SnapshotId, Snapshot>, usage: map<ProblemId, Usage>, log: seq<(ProblemId, int)>) {
    && SettledCovered(rows, usage) && OneReady(rows) && SupersededBelow(rows)
    && LogRises(log) && LogCovered(log, usage)
  }

  ghost predicate CasInv(w: World) {
    CasOk(w.snapshots, w.usage, w.readyLog)
  }

  lemma FramesKeepCas(
    rows: map<SnapshotId, Snapshot>, after: map<SnapshotId, Snapshot>,
    usage: map<ProblemId, Usage>, later: map<ProblemId, Usage>, log: seq<(ProblemId, int)>)
    requires CasOk(rows, usage, log) && SettledFrame(rows, after) && Rising(usage, later)
    ensures CasOk(after, later, log)
  {
  }

  lemma FrameKeepsCas(w: World, after: map<SnapshotId, Snapshot>)
    requires CasInv(w) && SettledFrame(w.snapshots, after)
    ensures CasOk(after, w.usage, w.readyLog)
  {
    hide CasOk, SettledFrame, Rising;
    FramesKeepCas(w.snapshots, after, w.usage, w.usage, w.readyLog);
  }

  lemma UsageKeepsCas(w: World, later: map<ProblemId, Usage>)
    requires CasInv(w) && Rising(w.usage, later)
    ensures CasOk(w.snapshots, later, w.readyLog)
  {
    hide CasOk, SettledFrame, Rising;
    NoFrame(w.snapshots);
    FramesKeepCas(w.snapshots, w.snapshots, w.usage, later, w.readyLog);
  }

  lemma AddRises(w: World, p: ProblemId)
    requires p !in w.usage
    ensures Rising(w.usage, AfterAdd(w, p).usage)
  {
  }

  /** The usage row says READY, under the generation of the latest READY row. */
  ghost predicate ShowsReady(w: World, p: ProblemId) {
    p in w.usage && w.usage[p].r2Ready
    && exists s :: LatestReady(w, p, s) && w.usage[p].generation == Some(w.snapshots[s].generation)
  }

  /** Healing shows what is READY, never an older generation, and leaves nothing to heal. */
  lemma HealRises(w: World, p: ProblemId, s: SnapshotId)
    requires CanHeal(w, p, s)
    ensures Rising(w.usage, AfterHeal(w, p, s).usage)
    ensures ShowsReady(AfterHeal(w, p, s), p) && forall t :: !CanHeal(AfterHeal(w, p, s), p, t)
  {
    var v := AfterHeal(w, p, s);
    assert IsReady(v, p, s) && forall t :: IsReady(v, p, t) <==> IsReady(w, p, t);
  }

  lemma VerifyLocalRises(w: World, p: ProblemId, s: SnapshotId)
    requires s in w.snapshots && p in w.usage
    ensures Rising(w.usage, AfterVerifyLocal(w, p, s).usage)
    ensures Covers(AfterVerifyLocal(w, p, s).usage, p, w.snapshots[s].generation)
  {
  }

  lemma FinalizeRises(w: World, s: SnapshotId)
    requires CanFinalize(w, s)
    ensures Rising(w.usage, AfterFinalize(w, s).usage)
  {
    hide FinalizedRows, ClearedProblems;
  }

  lemma FinalizedRowsKeepCas(w: World, s: SnapshotId, later: map<ProblemId, Usage>)
    requires CasInv(w) && CanFinalize(w, s) && Rising(w.usage, later)
    requires Covers(later, w.uploaders[s].problem, w.uploaders[s].generation)
    ensures var rows := FinalizedRows(w, s); SettledCovered(rows, later) && OneReady(rows) && SupersededBelow(rows)
  {
    hide FinalizedRows, LogRises, LogCovered;
    FinalizedSettled(w, s);
  }

  /** The transaction that makes a generation READY supersedes every other READY row and outgrows every earlier one. */
  lemma FinalizeKeepsCas(w: World, s: SnapshotId)
    requires CasInv(w) && CanFinalize(w, s)
    ensures CasInv(AfterFinalize(w, s))
  {
    hide FinalizedRows, ClearedProblems, SettledCovered, OneReady, SupersededBelow, LogRises, LogCovered, Rising;
    var u := w.uploaders[s];
    var later := AfterFinalize(w, s).usage;
    FinalizeRises(w, s);
    assert Covers(later, u.problem, u.generation);
    FinalizedRowsKeepCas(w, s, later);
    LogStep(w, later, u.problem, u.generation);
  }

  lemma LogStep(w: World, usage: map<ProblemId, Usage>, p: ProblemId, generation: int)
    requires CasInv(w) && Rising(w.usage, usage) && Covers(usage, p, generation)
    requires p in w.usage && (w.usage[p].generation.Some? ==> w.usage[p].generation.value < generation)
    ensures LogRises(w.readyLog + [(p, generation)]) && LogCovered(w.readyLog + [(p, generation)], usage)
  {
    hide SettledCovered, OneReady, SupersededBelow;
    forall i | 0 <= i < |w.readyLog| && w.readyLog[i].0 == p
      ensures w.readyLog[i].1 < generation
    {
      assert Covers(w.usage, w.readyLog[i].0, w.readyLog[i].1);
    }
  }

  lemma FinalizedSettled(w: World, s: SnapshotId)
    requires CasInv(w) && CanFinalize(w, s)
    ensures var rows := FinalizedRows(w, s); var u := w.uploaders[s];
      forall t :: t in rows && Settled(rows[t]) ==>
        (t == s && rows[t].state == Ready && rows[t].problem == u.problem && rows[t].generation == u.generation)
        || (t != s && t in w.snapshots && Settled(w.snapshots[t]) && rows[t].problem == w.snapshots[t].problem
            && rows[t].generation == w.snapshots[t].generation
            && (rows[t].problem == u.problem ==> rows[t].state == Superseded && rows[t].generation < u.generation)
            && (rows[t].problem != u.problem ==> rows[t].state == w.snapshots[t].state))
  {
    hide OneReady, SupersededBelow, LogRises, LogCovered;
    var u := w.uploaders[s];
    forall t | t in w.snapshots && Settled(w.snapshots[t]) && w.snapshots[t].problem == u.problem
      ensures w.snapshots[t].generation < u.generation
    {
      assert Covers(w.usage, u.problem, w.snapshots[t].generation);
    }
  }

  lemma ClaimKeepsCas(w: World, s: SnapshotId, u: Uploader)
    requires CasInv(w) && (s in w.snapshots ==> !Settled(w.snapshots[s]))
    ensures CasInv(AfterClaim(w, s, u))
  {
    hide CasOk, SettledFrame, ClaimedRow;
    ClaimFrame(w, s, u);
    FrameKeepsCas(w, AfterClaim(w, s, u).snapshots);
  }

  lemma StagesKeepCas(w: World, s: SnapshotId)
    requires RowsInv(w) && CasInv(w) && s in w.uploaders
    ensures CasInv(AfterClearRows(w, s)) && CasInv(AfterStartHashing(w, s)) && CasInv(AfterFail(w, s))
    ensures CasInv(AfterStartVerifying(w, s))
  {
    hide CasOk, SettledFrame, RowsOk, VerifyingRow;
    StageFrames(w, s);
    StartVerifyingFrame(w, s);
    FrameKeepsCas(w, AfterClearRows(w, s).snapshots);
    FrameKeepsCas(w, AfterStartHashing(w, s).snapshots);
    FrameKeepsCas(w, AfterFail(w, s).snapshots);
    FrameKeepsCas(w, AfterStartVerifying(w, s).snapshots);
  }

  lemma PrepareKeepsCas(w: World, s: SnapshotId)
    requires CasInv(w) && CanPrepare(w, s)
    ensures CasInv(AfterPrepare(w, s))
  {
    hide CasOk, SettledFrame, Unclaimed, UploadKey;
    PrepareFrame(w, s);
    FrameKeepsCas(w, AfterPrepare(w, s).snapshots);
  }

  lemma FilesKeepCas(w: World, s: SnapshotId, path: RelPath)
    requires RowsInv(w) && CasInv(w)
    ensures CanRecord(w, s, path) ==> CasInv(AfterRecord(w, s, path))
    ensures CanPlace(w, s, path) ==> CasInv(AfterPlace(w, s, path))
  {
    hide CasOk, SettledFrame, RowsOk;
    if CanRecord(w, s, path) {
      RecordFrame(w, s, path);
      FrameKeepsCas(w, AfterRecord(w, s, path).snapshots);
    }
  }

  lemma UploadKeepsCas(w: World, step: UploadStep)
    requires RowsInv(w) && CasInv(w)
    ensures CasInv(AfterUpload(w, step))
  {
    hide CasOk, RowsOk, AfterClaim, AfterPrepare, AfterFinalize, AfterRecord, AfterClearRows, AfterStartHashing,
      AfterStartVerifying, AfterFail, AfterPlace, ClaimedId, CanRecord, CanPlace, CanFinalize, CanPrepare;
    match step
    case Claim(p, generation, token, expected, canonical, links, repeats, scan) =>
      if CanClaim(w, p, generation, token) {
        ClaimReusesUnsettled(w, p, generation, token);
        ClaimKeepsCas(w, ClaimedId(w, p, generation),
                      Uploader(p, generation, token, expected, canonical, links, repeats, scan, Claimed));
      }
    case ClearRows(s) => if AtStage(w, s, Claimed) { StagesKeepCas(w, s); }
    case StartHashing(s) => if AtStage(w, s, RowsCleared) { StagesKeepCas(w, s); }
    case Prepare(s) => if CanPrepare(w, s) { PrepareKeepsCas(w, s); }
    case Place(s, path) => FilesKeepCas(w, s, path);
    case Record(s, path) => FilesKeepCas(w, s, path);
    case StartVerifying(s) => if CanStartVerifying(w, s) { StagesKeepCas(w, s); }
    case PutManifest(s) =>
    case Finalize(s) => if CanFinalize(w, s) { FinalizeKeepsCas(w, s); }
    case Fail(s) => if s in w.uploaders { StagesKeepCas(w, s); }
    case Crash(s) =>
  }

  lemma SweepKeepsCas(w: World)
    requires CasInv(w)
    ensures CasInv(AfterSweep(w))
  {
    hide CasOk, SettledFrame;
    SweepFrame(w);
    FrameKeepsCas(w, AfterSweep(w).snapshots);
  }

  lemma PruneKeepsCas(w: World)
    requires CasInv(w)
    ensures CasInv(AfterPrune(w))
  {
    hide CasOk, SettledFrame, Prunable;
    PruneFrame(w);
    FrameKeepsCas(w, AfterPrune(w).snapshots);
  }

  lemma MarkKeepsCas(w: World)
    requires CasInv(w)
    ensures CasInv(AfterMark(w))
  {
    hide CasOk, ProposedMarks, Written, Owner;
  }

  lemma UsageStepsKeepCas(w: World, p: ProblemId, s: SnapshotId)
    requires CasInv(w)
    ensures p !in w.usage ==> CasInv(AfterAdd(w, p))
    ensures CanHeal(w, p, s) ==> CasInv(AfterHeal(w, p, s))
    ensures s in w.snapshots && p in w.usage ==> CasInv(AfterVerifyLocal(w, p, s))
  {
    hide CasOk, Rising;
    if p !in w.usage {
      AddRises(w, p);
      UsageKeepsCas(w, AfterAdd(w, p).usage);
    }
    if CanHeal(w, p, s) {
      HealRises(w, p, s);
      UsageKeepsCas(w, AfterHeal(w, p, s).usage);
    }
    if s in w.snapshots && p in w.usage {
      VerifyLocalRises(w, p, s);
      UsageKeepsCas(w, AfterVerifyLocal(w, p, s).usage);
    }
  }

  lemma TableKeepsCas(w: World, step: TableStep)
    requires CasInv(w)
    ensures CasInv(AfterTable(w, step))
  {
    hide CasOk, AfterSweep, AfterPrune, AfterMark, AfterAdd, AfterHeal, AfterVerifyLocal, CanHeal, AfterJob, CanWork,
      HasNoReady;
    match step
    case AddProblem(p) => UsageStepsKeepCas(w, p, 0);
    case HealUsage(p, s) => UsageStepsKeepCas(w, p, s);
    case VerifyLocal(p, s) => UsageStepsKeepCas(w, p, s);
    case SweepStalled => SweepKeepsCas(w);
    case Retain =>
      PruneKeepsCas(w);
      MarkKeepsCas(AfterPrune(w));
    case _ =>
  }

  lemma PublishKeepsCas(w: World, r: RestoreId, s: SnapshotId)
    requires CasInv(w) && CanPublish(w, r, s)
    ensures CasInv(AfterPublish(w, r))
  {
    hide CasOk, Rising, MatchesReady;
    PublishRises(w, r, s);
    UsageKeepsCas(w, AfterPublish(w, r).usage);
  }

  lemma FolderKeepsCas(w: World, step: FolderStep)
    requires CasInv(w)
    ensures CasInv(AfterFolder(w, step))
  {
    hide CasOk, CanEvict, CanPublish, CanDownload, AfterPublish;
    match step
    case Publish(r, s) => if CanPublish(w, r, s) { PublishKeepsCas(w, r, s); }
    case _ =>
  }

  lemma PublishRises(w: World, r: RestoreId, s: SnapshotId)
    requires CanPublish(w, r, s)
    ensures Rising(w.usage, AfterPublish(w, r).usage)
  {
  }

  lemma CollectKeepsCas(w: World, step: CollectStep)
    requires CasInv(w)
    ensures CasInv(AfterCollect(w, step))
  {
    hide CasOk, CanList, KeyLocked, LiveRef;
  }
}
