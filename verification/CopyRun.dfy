/** What an eviction or a restore, run from start to end, can rely on. */
module CopyRun {
  import opened Common
  import opened JobLeases
  import opened Storage
  import opened SnapshotRows
  import opened GcSafety
  import opened GcMarks
  import opened ReadyCas
  import opened LocalCopies
  import opened Runs

  lemma ReadyIsLatest(w: World, p: ProblemId, s: SnapshotId)
    requires Inv(w) && IsReady(w, p, s)
    ensures LatestReady(w, p, s)
    ensures forall t :: IsReady(w, p, t) ==> t == s
  {
    hide RowsInv, StoreInv, MarkInv, LocalInv, SettledCovered, SupersededBelow, LogRises, LogCovered;
  }

  function Manifest(w: World, p: ProblemId, generation: int): FileMap
    requires CanDownload(w, p, generation)
  {
    w.store[ManifestAt(p, generation)].files
  }

  /** An evicted problem has exactly one READY row, and it lists what was removed. */
  lemma EvictedHasReady(w: World, p: ProblemId) returns (s: SnapshotId)
    requires Inv(w) && p in w.evicted
    ensures IsReady(w, p, s) && w.snapshots[s].files == w.evicted[p] && p !in w.folders
  {
    hide RowsInv, StoreInv, MarkInv, CasInv, FenceOk, RestoresFit;
    assert Backed(w.snapshots, p, w.evicted[p]);
    s :| s in w.snapshots && w.snapshots[s].problem == p && w.snapshots[s].state == Ready
         && w.snapshots[s].files == w.evicted[p];
  }

  lemma EvictionIsSafe(w: World, p: ProblemId, token: int, s: SnapshotId, idleBefore: Option<Time>)
    requires Inv(w) && CanEvict(w, p, token, s, idleBefore)
    ensures Inv(AfterEvict(w, p)) && Recoverable(AfterEvict(w, p), p)
  {
    hide RowsInv, StoreInv, MarkInv, CasInv, LocalInv, Recoverable, MatchesReady;
    StepKeepsInv(w, Folder(Evict(p, token, s, idleBefore)));
    BackedIsRecoverable(AfterEvict(w, p), p);
  }

  /** What a restore publishes for READY row `s`. */
  function Restored(w: World, p: ProblemId, s: SnapshotId): World
    requires s in w.snapshots
  {
    w.(folders := w.folders[p := w.snapshots[s].files],
       evicted := w.evicted - {p},
       usage := if p in w.usage then w.usage[p := w.usage[p].(lastAccess := Some(w.now))] else w.usage)
  }

  lemma StagingKeepsMatch(w: World, v: World, p: ProblemId, s: SnapshotId)
    requires v.snapshots == w.snapshots && v.folders == w.folders && v.problems == w.problems
    requires IsReady(w, p, s) && MayReplace(w, p, s)
    ensures IsReady(v, p, s) && MayReplace(v, p, s)
  {
  }

  lemma SameStoreDownloads(w: World, v: World, p: ProblemId, generation: int)
    requires v.store == w.store
    ensures CanDownload(v, p, generation) <==> CanDownload(w, p, generation)
  {
  }

  /** A restore is three steps: the fence check, the download into the staging folder `r`, the publication. */
  lemma RestoreIsThreeSteps(w: World, r: RestoreId, p: ProblemId, token: int, s: SnapshotId)
    requires Inv(w) && CanBegin(w, r, p, token) && IsReady(w, p, s) && MayReplace(w, p, s)
    requires Sound(w, p, w.snapshots[s].generation)
    ensures var g := w.snapshots[s].generation;
            After(After(After(w, Folder(BeginRestore(r, p, token))), Folder(Download(r, g))), Folder(Publish(r, s)))
              == Restored(w, p, s)
  {
    hide CoreInv, LocalInv, MatchesReady, Passes, Works, CanDownload;
    ReadyDownloads(w, p, s);
    var g := w.snapshots[s].generation;
    var w1 := AfterBegin(w, r, p, token);
    assert CanDownload(w1, p, g) by { SameStoreDownloads(w, w1, p, g); }
    var w2 := AfterDownload(w1, r, g);
    StagingKeepsMatch(w, w2, p, s);
    assert CanPublish(w2, r, s);
    assert w2.restores - {r} == w.restores;
  }

  lemma {:induction false} UnusedId(ids: set<RestoreId>) returns (r: RestoreId)
    ensures forall id :: id in ids ==> id < r
    decreases ids
  {
    if ids == {} {
      r := 0;
    } else {
      var id :| id in ids;
      var rest := ids - {id};
      var q := UnusedId(rest);
      r := if id < q then q else id + 1;
      assert ids == rest + {id};
    }
  }

  lemma RestoreKeepsInv(w: World, p: ProblemId, token: int, s: SnapshotId)
    requires Inv(w) && IsReady(w, p, s) && MayReplace(w, p, s) && Sound(w, p, w.snapshots[s].generation)
    requires Fresh(w, p, token) && Works(w.leases, p, token, RestoreOp)
    ensures Inv(Restored(w, p, s))
  {
    hide Inv, Fresh, MayReplace, After;
    var r := UnusedId(w.restores.Keys);
    RestoreIsThreeSteps(w, r, p, token, s);
    StepKeepsInv(w, Folder(BeginRestore(r, p, token)));
    var w1 := After(w, Folder(BeginRestore(r, p, token)));
    StepKeepsInv(w1, Folder(Download(r, w.snapshots[s].generation)));
    StepKeepsInv(After(w1, Folder(Download(r, w.snapshots[s].generation))), Folder(Publish(r, s)));
  }

  lemma MatchIsReady(w: World, p: ProblemId, s: SnapshotId, folder: FileMap)
    requires MatchesReady(w, p, s, folder)
    ensures IsReady(w, p, s) && w.snapshots[s].files == folder
  {
  }

  ghost predicate Evictable(w: World, p: ProblemId, token: int, idleBefore: Option<Time>) {
    exists s :: s in w.snapshots && CanEvict(w, p, token, s, idleBefore)
  }

  /** The token is current, and the folder is clean and equals the READY row of the usage row's generation. */
  ghost predicate Covered(w: World, p: ProblemId, token: int) {
    && Fresh(w, p, token) && p in w.usage && w.usage[p].r2Ready
    && p in w.folders && p in w.problems && !w.problems[p].dirty
    && exists s :: s in w.snapshots && IsReady(w, p, s) && w.snapshots[s].files == w.folders[p]
                   && w.usage[p].generation == Some(w.snapshots[s].generation)
  }

  predicate ShownReady(w: World, p: ProblemId) {
    p in w.usage && w.usage[p].r2Ready && w.usage[p].generation.Some?
  }

  lemma CoveredIsReady(w: World, p: ProblemId, token: int)
    requires Covered(w, p, token)
    ensures Fresh(w, p, token) && ShownReady(w, p) && p in w.folders
  {
  }

  /** The problem was used after the cutoff, if there is one. */
  predicate UsedSince(w: World, p: ProblemId, cutoff: Option<Time>) {
    p in w.usage && cutoff.Some? && w.usage[p].lastAccess.Some? && cutoff.value < w.usage[p].lastAccess.value
  }

  /** A folder can go exactly when a READY row covers it and nobody has used it since the cutoff. */
  lemma EvictableExactly(w: World, p: ProblemId, token: int, idleBefore: Option<Time>)
    requires Inv(w) && Works(w.leases, p, token, EvictOp)
    ensures Evictable(w, p, token, idleBefore) <==> Covered(w, p, token) && !UsedSince(w, p, idleBefore)
  {
    hide Inv, Passes, Works;
    if s :| s in w.snapshots && IsReady(w, p, s) {
      ReadyIsLatest(w, p, s);
    }
  }

  lemma CoveredByMatch(w: World, p: ProblemId, token: int, s: SnapshotId)
    requires Inv(w) && p in w.folders && MatchesReady(w, p, s, w.folders[p])
    requires Fresh(w, p, token) && p in w.usage && w.usage[p].r2Ready
    ensures Covered(w, p, token) <==> w.usage[p].generation == Some(w.snapshots[s].generation)
  {
    hide Inv, Passes;
    ReadyIsLatest(w, p, s);
  }

  lemma UncoveredWithoutMatch(w: World, p: ProblemId, token: int)
    requires Inv(w) && p in w.folders && forall s :: !MatchesReady(w, p, s, w.folders[p])
    ensures !Covered(w, p, token)
  {
    hide Inv, Passes;
    if s :| s in w.snapshots && IsReady(w, p, s) && w.snapshots[s].files == w.folders[p] {
      ReadyIsLatest(w, p, s);
      assert !MatchesReady(w, p, s, w.folders[p]);
    }
  }

  /** The restore may replace what is in the folder's place. */
  predicate MayReplace(w: World, p: ProblemId, s: SnapshotId) {
    p in w.folders ==> MatchesReady(w, p, s, w.folders[p])
  }

  lemma ReplacesTheSame(w: World, p: ProblemId, s: SnapshotId)
    requires IsReady(w, p, s) && MayReplace(w, p, s) && p in w.folders
    ensures Restored(w, p, s).folders == w.folders
  {
    assert w.folders[p := w.folders[p]] == w.folders;
  }

  /**
   When a restore gets through: the token is current, and a READY row of that generation, whose manifest materialises,
   may take the folder's place.
  */
  ghost predicate Restorable(w: World, p: ProblemId, requested: int, token: int) {
    Fresh(w, p, token) && exists s :: s in w.snapshots && Takes(w, p, requested, s)
  }

  predicate Takes(w: World, p: ProblemId, requested: int, s: SnapshotId) {
    && IsReady(w, p, s) && (requested > 0 ==> w.snapshots[s].generation == requested) && MayReplace(w, p, s)
    && Sound(w, p, w.snapshots[s].generation)
  }

  /** The folder holds the files, is not away, and was last used now; nothing else changes. */
  ghost predicate PutBack(w: World, v: World, p: ProblemId, files: FileMap) {
    && v.folders == w.folders[p := files] && v.evicted == w.evicted - {p}
    && v.usage.Keys == w.usage.Keys && (forall q :: q in w.usage && q != p ==> v.usage[q] == w.usage[q])
    && (p in w.usage ==> v.usage[p] == Usage(w.usage[p].generation, w.usage[p].r2Ready, Some(w.now)))
    && v == w.(folders := v.folders, evicted := v.evicted, usage := v.usage)
  }

  /**
   The token is current, and there is a READY row, of the requested generation if one is requested, whose manifest
   materialises; and the folder is away, or clean and already what the row lists.
   */
  ghost predicate Obtainable(w: World, p: ProblemId, requested: int, token: int) {
    && Fresh(w, p, token)
    && (p in w.folders ==> p in w.problems && !w.problems[p].dirty)
    && exists s :: IsReady(w, p, s) && (requested <= 0 || w.snapshots[s].generation == requested)
                   && Sound(w, p, w.snapshots[s].generation)
                   && (p in w.folders ==> w.folders[p] == w.snapshots[s].files)
  }

  lemma RestorableWhenObtainable(w: World, p: ProblemId, requested: int, token: int)
    requires Inv(w)
    ensures Restorable(w, p, requested, token) <==> Obtainable(w, p, requested, token)
  {
    hide Inv, Passes, Sound;
    if s :| IsReady(w, p, s) && (requested <= 0 || w.snapshots[s].generation == requested)
            && Sound(w, p, w.snapshots[s].generation) && (p in w.folders ==> w.folders[p] == w.snapshots[s].files)
    {
      ReadyIsLatest(w, p, s);
      if Obtainable(w, p, requested, token) { assert Takes(w, p, requested, s); }
    }
  }

  lemma RestoredFrom(w: World, p: ProblemId, s: SnapshotId)
    requires s in w.snapshots
    ensures PutBack(w, Restored(w, p, s), p, w.snapshots[s].files)
  {
  }

  /** Nothing but a newer token, or a manifest that does not materialise, stops the restore of an evicted problem. */
  lemma EvictedIsRestorable(w: World, p: ProblemId, requested: int, token: int)
    requires Inv(w) && p in w.evicted && requested <= 0
    ensures Restorable(w, p, requested, token) <==>
              Fresh(w, p, token) && exists s :: IsReady(w, p, s) && Sound(w, p, w.snapshots[s].generation)
  {
    hide Inv, Fresh, Sound;
    var s := EvictedHasReady(w, p);
    ReadyIsLatest(w, p, s);
    if Sound(w, p, w.snapshots[s].generation) { assert Takes(w, p, requested, s); }
  }

  /** The generation that a request stands for. */
  ghost predicate Resolves(w: World, p: ProblemId, requested: int, generation: int) {
    if requested > 0 then generation == requested
    else exists s :: s in w.snapshots && LatestReady(w, p, s) && w.snapshots[s].generation == generation
  }

  lemma TakesResolved(w: World, p: ProblemId, requested: int, generation: int, s: SnapshotId)
    requires Inv(w) && Resolves(w, p, requested, generation) && s in w.snapshots && Takes(w, p, requested, s)
    ensures w.snapshots[s].generation == generation && CanDownload(w, p, generation)
  {
    hide CoreInv, LocalInv, CanDownload;
    ReadyIsLatest(w, p, s);
    ReadyDownloads(w, p, s);
  }

  ghost predicate NeverReady(w: World, p: ProblemId, generation: int) {
    forall s :: s in w.snapshots && IsReady(w, p, s) ==> w.snapshots[s].generation != generation
  }

  /** A folder is there, and it is not the generation's: edited, or matched by another generation or by none. */
  ghost predicate OtherFolder(w: World, p: ProblemId, generation: int) {
    p in w.folders && forall s :: s in w.snapshots && MatchesReady(w, p, s, w.folders[p]) ==>
                        w.snapshots[s].generation != generation
  }

  /** Each of the later refusals means that no row could be taken. */
  lemma Blocked(w: World, p: ProblemId, requested: int, token: int, generation: int)
    requires Inv(w) && Resolves(w, p, requested, generation)
    requires !CanDownload(w, p, generation) || NeverReady(w, p, generation) || OtherFolder(w, p, generation)
    ensures !Restorable(w, p, requested, token)
  {
    hide Inv, CanDownload, Resolves, IsReady, MatchesReady, Fresh;
    forall s | s in w.snapshots && Takes(w, p, requested, s)
      ensures w.snapshots[s].generation == generation && CanDownload(w, p, generation)
    {
      TakesResolved(w, p, requested, generation, s);
    }
  }

  lemma NoneResolved(w: World, p: ProblemId, requested: int, token: int)
    requires Inv(w) && requested <= 0 && forall s :: !LatestReady(w, p, s)
    ensures !Restorable(w, p, requested, token)
  {
    hide Inv, Fresh, MayReplace, LatestReady;
    forall s | s in w.snapshots && Takes(w, p, requested, s)
      ensures LatestReady(w, p, s)
    {
      ReadyIsLatest(w, p, s);
    }
  }

  lemma TakesIt(w: World, p: ProblemId, requested: int, token: int, generation: int, s: SnapshotId)
    requires Fresh(w, p, token) && Resolves(w, p, requested, generation) && s in w.snapshots
    requires IsReady(w, p, s) && w.snapshots[s].generation == generation && MayReplace(w, p, s)
    requires Sound(w, p, generation)
    ensures Takes(w, p, requested, s) && Restorable(w, p, requested, token)
  {
    hide MayReplace, Fresh;
  }

  lemma StaleIsBlocked(w: World, p: ProblemId, requested: int, token: int)
    requires !Fresh(w, p, token)
    ensures !Restorable(w, p, requested, token)
  {
    hide Takes;
  }
}
