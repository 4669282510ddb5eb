/** The theorems about whole runs: every interleaving of every step, from empty tables on. */
module Runs {
  import opened Common
  import opened JobLeases
  import opened Storage
  import opened SnapshotRows
  import opened GcSafety
  import opened GcMarks
  import opened RetentionRun
  import opened ReadyCas
  import opened LocalCopies

  /** Rows, objects, marks and READY generations: nothing here looks at the fence. */
  ghost predicate CoreInv(w: World) {
    RowsInv(w) && StoreInv(w) && MarkInv(w) && CasInv(w)
  }

  /** And local copies, which rely on it. */
  ghost predicate Inv(w: World) {
    CoreInv(w) && LocalInv(w)
  }

  /** The assumption on every step: a snapshot row is taken over only when its earlier upload is gone. */
  ghost predicate InTurn(w: World, step: Step) {
    step.Upload? ==> Undisturbed(w, step.upload)
  }

  ghost predicate RunInTurn(w: World, run: seq<Step>)
    decreases |run|
  {
    run == [] || (InTurn(w, run[0]) && RunInTurn(After(w, run[0]), run[1..]))
  }

  /** For local copies also: a purge of jobs leaves a larger row above every overtaken token that is still held. */
  ghost predicate Orderly(w: World, step: Step) {
    InTurn(w, step) && (step.Table? ==> PurgeSpares(w, step.table))
  }

  ghost predicate OrderlyRun(w: World, run: seq<Step>)
    decreases |run|
  {
    run == [] || (Orderly(w, run[0]) && OrderlyRun(After(w, run[0]), run[1..]))
  }

  lemma InitInv(retention: Retention, now: Time)
    ensures Inv(Init(retention, now)) && AbsenceInv(Init(retention, now))
  {
  }

  lemma CoreRows(w: World)
    requires CoreInv(w)
    ensures RowsInv(w)
  {
    hide RowsInv, StoreInv, MarkInv, CasInv;
  }

  lemma StepKeepsCore(w: World, step: Step)
    requires CoreInv(w) && InTurn(w, step)
    ensures CoreInv(After(w, step))
  {
    hide RowsInv, StoreInv, MarkInv, CasInv, AfterUpload, AfterCollect, AfterFolder, AfterTable, Undisturbed;
    match step
    case Upload(upload) =>
      UploadKeepsRows(w, upload);
      UploadKeepsStore(w, upload);
      UploadKeepsMarks(w, upload);
      UploadKeepsCas(w, upload);
    case Collect(collect) =>
      CollectKeepsRows(w, collect);
      CollectKeepsStore(w, collect);
      CollectKeepsMarks(w, collect);
      CollectKeepsCas(w, collect);
    case Folder(folder) =>
      FolderKeepsRows(w, folder);
      FolderKeepsStore(w, folder);
      FolderKeepsMarks(w, folder);
      FolderKeepsCas(w, folder);
    case Table(table) =>
      TableKeepsRows(w, table);
      TableKeepsStore(w, table);
      TableKeepsMarks(w, table);
      TableKeepsCas(w, table);
  }

  lemma StepKeepsInv(w: World, step: Step)
    requires Inv(w) && Orderly(w, step)
    ensures Inv(After(w, step))
  {
    StepKeepsCore(w, step);
    hide RowsInv, StoreInv, MarkInv, CasInv, LocalInv, AfterUpload, AfterCollect, AfterFolder, AfterTable,
      Undisturbed, PurgeSpares;
    match step
    case Upload(upload) => UploadKeepsLocal(w, upload);
    case Collect(collect) => CollectKeepsLocal(w, collect);
    case Folder(folder) => FolderKeepsLocal(w, folder);
    case Table(table) => TableKeepsLocal(w, table);
  }

  /** The later state has the core invariant, and the whole of it if the earlier one had. */
  ghost predicate KeepsInv(w: World, v: World) {
    CoreInv(v) && (LocalInv(w) ==> LocalInv(v))
  }

  lemma WorkerKeepsInv(w: World, step: Step)
    requires CoreInv(w) && InTurn(w, step) && !step.Table?
    ensures KeepsInv(w, After(w, step))
  {
    StepKeepsCore(w, step);
    hide RowsInv, StoreInv, MarkInv, CasInv, LocalInv, After, Undisturbed;
    if LocalInv(w) {
      StepKeepsInv(w, step);
    }
  }

  lemma RetentionKeepsInv(w: World)
    requires CoreInv(w)
    ensures KeepsInv(w, AfterRetain(w))
  {
    StepKeepsCore(w, Table(Retain));
    hide RowsInv, StoreInv, MarkInv, CasInv, LocalInv, AfterRetain, Undisturbed;
    assert After(w, Table(Retain)) == AfterRetain(w);
    if LocalInv(w) {
      StepKeepsInv(w, Table(Retain));
    }
  }

  lemma {:induction false} RunKeepsCore(w: World, run: seq<Step>)
    requires CoreInv(w) && RunInTurn(w, run)
    ensures CoreInv(Exec(w, run))
    decreases |run|
  {
    hide CoreInv, After, InTurn;
    if run != [] {
      StepKeepsCore(w, run[0]);
      RunKeepsCore(After(w, run[0]), run[1..]);
    }
  }

  lemma {:induction false} RunKeepsInv(w: World, run: seq<Step>)
    requires Inv(w) && OrderlyRun(w, run)
    ensures Inv(Exec(w, run))
    decreases |run|
  {
    hide Inv, After, Orderly;
    if run != [] {
      StepKeepsInv(w, run[0]);
      RunKeepsInv(After(w, run[0]), run[1..]);
    }
  }

  // ---------------------------------------------------------------- garbage collection

  /** After any run, what a READY snapshot names is in the store and hashes to what was recorded. */
  lemma ReadySnapshotsSurvive(retention: Retention, now: Time, run: seq<Step>, s: SnapshotId)
    requires RunInTurn(Init(retention, now), run)
    requires var w := Exec(Init(retention, now), run); s in w.snapshots && w.snapshots[s].state == Ready
    ensures var w := Exec(Init(retention, now), run); Complete(w.store, w.snapshots[s])
  {
    hide Exec, RunInTurn, RowsInv, MarkInv, CasInv, Complete, ContentIntact, UploadsPresent,
      ConfirmedUnclaimed;
    InitInv(retention, now);
    RunKeepsCore(Init(retention, now), run);
  }

  // ---------------------------------------------------------------- READY generations

  /** One READY row a problem, every superseded row below it, and strictly rising READY generations. */
  lemma ReadyGenerationsRise(retention: Retention, now: Time, run: seq<Step>)
    requires RunInTurn(Init(retention, now), run)
    ensures var w := Exec(Init(retention, now), run);
            OneReady(w.snapshots) && SupersededBelow(w.snapshots) && LogRises(w.readyLog)
  {
    hide Exec, RunInTurn, RowsInv, MarkInv, StoreInv, OneReady, SupersededBelow, LogRises, LogCovered,
      SettledCovered;
    InitInv(retention, now);
    RunKeepsCore(Init(retention, now), run);
  }

  // ---------------------------------------------------------------- evicted folders

  /** The folder is away, and a READY snapshot lists exactly the removed files with every object in the store. */
  ghost predicate Recoverable(w: World, p: ProblemId)
    requires p in w.evicted
  {
    p !in w.folders
    && exists s :: s in w.snapshots && IsReady(w, p, s) && w.snapshots[s].files == w.evicted[p]
                   && Complete(w.store, w.snapshots[s])
  }

  lemma BackedIsRecoverable(w: World, p: ProblemId)
    requires StoreInv(w) && LocalInv(w) && p in w.evicted
    ensures Recoverable(w, p)
  {
    hide FenceOk, RestoresFit, Complete, ContentIntact, UploadsPresent, ConfirmedUnclaimed;
    assert Backed(w.snapshots, p, w.evicted[p]);
    var s :| s in w.snapshots && w.snapshots[s].problem == p && w.snapshots[s].state == Ready
             && w.snapshots[s].files == w.evicted[p];
    assert IsReady(w, p, s) && Complete(w.store, w.snapshots[s]);
  }

  /** After any run, what evictions removed and nobody replaced can be restored. */
  lemma EvictionsLoseNothing(retention: Retention, now: Time, run: seq<Step>, p: ProblemId)
    requires OrderlyRun(Init(retention, now), run) && p in Exec(Init(retention, now), run).evicted
    ensures Recoverable(Exec(Init(retention, now), run), p)
  {
    hide Exec, OrderlyRun, RowsInv, MarkInv, CasInv, StoreInv, LocalInv, Recoverable;
    InitInv(retention, now);
    RunKeepsInv(Init(retention, now), run);
    BackedIsRecoverable(Exec(Init(retention, now), run), p);
  }

  /** The manifest of the generation can be validated and materialised. */
  predicate Sound(w: World, p: ProblemId, generation: int) {
    ManifestAt(p, generation) in w.store && Materializes(w.store[ManifestAt(p, generation)])
  }

  /** The manifest of a READY generation lists the row's files, and it downloads exactly if it materialises. */
  lemma ReadyDownloads(w: World, p: ProblemId, s: SnapshotId)
    requires CoreInv(w) && IsReady(w, p, s)
    ensures var g := w.snapshots[s].generation;
            && (CanDownload(w, p, g) <==> Sound(w, p, g))
            && (Sound(w, p, g) ==> w.store[ManifestAt(p, g)].files == w.snapshots[s].files)
  {
    hide RowsOk, MarkInv, CasInv, UploadsPresent, ConfirmedUnclaimed, NoneOnTheWay;
    ReadyManifestIsTheRow(w, s);
    var files := w.snapshots[s].files;
    assert Complete(w.store, w.snapshots[s]);
    assert forall path :: path in files ==> Holds(w.store, files[path].sha);
  }

  lemma DownloadIsSound(w: World, p: ProblemId, generation: int)
    requires CanDownload(w, p, generation)
    ensures Sound(w, p, generation)
  {
    hide NoneOnTheWay;
  }

  /** The restore can download and then publish READY row `s`. */
  ghost predicate CanFinish(w: World, r: RestoreId, s: SnapshotId)
    requires HasBegun(w, r) && s in w.snapshots
  {
    var p, generation := w.restores[r].problem, w.snapshots[s].generation;
    IsReady(w, p, s) && CanDownload(w, p, generation) && CanPublish(AfterDownload(w, r, generation), r, s)
  }

  /**
   A restore of an evicted problem can get through exactly when its token is the newest one and the manifest of the
   READY row materialises. An eviction does not look at the latter.
   */
  lemma RestoreIsPossible(w: World, p: ProblemId, r: RestoreId, s: SnapshotId)
    requires Inv(w) && p in w.evicted
    requires HasBegun(w, r) && w.restores[r].problem == p && IsReady(w, p, s)
    ensures CanFinish(w, r, s) <==> Fresh(w, p, w.restores[r].token) && Sound(w, p, w.snapshots[s].generation)
  {
    ReadyDownloads(w, p, s);
    assert p !in w.folders;
    hide CoreInv, LocalInv, CanDownload, Sound, MatchesReady, Passes;
  }

  /** After any run, a restore of an evicted problem that gets through puts exactly the removed files back. */
  lemma RestoresReturnEvicted(retention: Retention, now: Time, run: seq<Step>, r: RestoreId, s: SnapshotId)
    requires OrderlyRun(Init(retention, now), run)
    requires CanPublish(Exec(Init(retention, now), run), r, s)
    requires Exec(Init(retention, now), run).restores[r].problem in Exec(Init(retention, now), run).evicted
    ensures var w := Exec(Init(retention, now), run);
            var p := w.restores[r].problem; AfterPublish(w, r).folders[p] == w.evicted[p]
  {
    hide Exec, OrderlyRun, RowsInv, MarkInv, StoreInv, CasInv, LocalInv;
    InitInv(retention, now);
    RunKeepsInv(Init(retention, now), run);
    RestoreReturnsEvicted(Exec(Init(retention, now), run), r, s);
  }

  /** A restore never replaces a folder that differs from what it brings. */
  lemma RestoresReplaceNothing(retention: Retention, now: Time, run: seq<Step>, r: RestoreId, s: SnapshotId)
    requires OrderlyRun(Init(retention, now), run)
    requires var w := Exec(Init(retention, now), run);
             CanPublish(w, r, s) && w.restores[r].problem in w.folders
    ensures var w := Exec(Init(retention, now), run); AfterPublish(w, r).folders == w.folders
  {
    hide Exec, OrderlyRun, RowsInv, MarkInv, StoreInv, CasInv, LocalInv, CanPublish, AfterPublish;
    InitInv(retention, now);
    RunKeepsInv(Init(retention, now), run);
    RestoreKeepsExisting(Exec(Init(retention, now), run), r, s);
  }
}
