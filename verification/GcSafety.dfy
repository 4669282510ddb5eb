/**
 Safety of the object store under every interleaving of uploads, retention runs and collectors:
 what a READY snapshot names is in the store and hashes to what was recorded.
 */
module GcSafety {
  import opened Common
  import opened Storage
  import opened SnapshotRows

  /** The states in which the store must keep a row's objects: its claim was made under the key locks. */
  predicate Claiming(row: Snapshot) {
    row.state == Uploading || row.state == Verifying || row.state == Ready
  }

  /** Paths whose object this upload has put and verified. */
  function Placed(u: Uploader): set<RelPath> {
    match u.stage
    case UploadingFiles(placed, _) => placed
    case VerifyingFiles => u.scan.Keys
    case ManifestStored => u.scan.Keys
    case _ => {}
  }

  ghost predicate ContentIntact(store: map<ObjectKey, Blob>) {
    forall key :: key in store && key.Content? ==> store[key] == Raw(key.sha.preimage)
  }

  /** The object is present and its bytes hash to the recorded digest. */
  predicate Holds(store: map<ObjectKey, Blob>, sha: Digest) {
    && Content(sha) in store && store[Content(sha)].Raw?
    && Sha256(store[Content(sha)].bytes) == sha
  }

  ghost predicate HoldsAll(store: map<ObjectKey, Blob>, files: FileMap, paths: set<RelPath>) {
    forall path :: path in paths && path in files ==> Holds(store, files[path].sha)
  }

  /** The manifest is there and lists exactly the row's files, and every object it names is held. */
  ghost predicate Complete(store: map<ObjectKey, Blob>, row: Snapshot) {
    && row.manifest.Some? && row.manifest.value in store
    && store[row.manifest.value].ManifestDoc? && store[row.manifest.value].files == row.files
    && HoldsAll(store, row.files, row.files.Keys)
  }

  ghost predicate ReadyComplete(rows: map<SnapshotId, Snapshot>, store: map<ObjectKey, Blob>) {
    forall s :: s in rows && rows[s].state == Ready ==> Complete(store, rows[s])
  }

  ghost predicate UploadPresent(u: Uploader, row: Snapshot, store: map<ObjectKey, Blob>) {
    && HoldsAll(store, u.scan, Placed(u))
    && (u.stage == ManifestStored ==>
          ManifestAt(u.problem, u.generation) in store
          && store[ManifestAt(u.problem, u.generation)] == ManifestDoc(u.scan, u.repeats))
  }

  ghost predicate UploadsPresent(
    uploaders: map<SnapshotId, Uploader>, rows: map<SnapshotId, Snapshot>, store: map<ObjectKey, Blob>)
  {
    forall s :: s in uploaders && s in rows && Claiming(rows[s]) ==> UploadPresent(uploaders[s], rows[s], store)
  }

  /** Between its last check and its delete, a collector's key is claimed by nobody. */
  ghost predicate ConfirmedUnclaimed(collectors: map<CollectorId, Collector>, rows: map<SnapshotId, Snapshot>) {
    forall c, s :: c in collectors && s in rows && collectors[c].phase == Confirmed && Claiming(rows[s]) ==>
                     !Refers(rows[s], KeyOf(collectors[c].target.mark))
  }

  ghost predicate StoreOk(
    uploaders: map<SnapshotId, Uploader>, rows: map<SnapshotId, Snapshot>,
    collectors: map<CollectorId, Collector>, store: map<ObjectKey, Blob>)
  {
    && ContentIntact(store)
    && ReadyComplete(rows, store)
    && UploadsPresent(uploaders, rows, store)
    && ConfirmedUnclaimed(collectors, rows)
  }

  ghost predicate StoreInv(w: World) {
    StoreOk(w.uploaders, w.snapshots, w.collectors, w.store)
  }

  // ---------------------------------------------------------------- steps that only change rows

  /** Rows that claim something are rows that claimed the same before; uploads place nothing new. */
  ghost predicate ClaimsShrink(w: World, v: World) {
    && (forall s :: s in v.snapshots && Claiming(v.snapshots[s]) ==>
          s in w.snapshots && Claiming(w.snapshots[s]) && v.snapshots[s].files == w.snapshots[s].files
          && v.snapshots[s].manifest == w.snapshots[s].manifest
          && (v.snapshots[s].state == Ready ==> w.snapshots[s].state == Ready))
    && (forall s :: s in v.uploaders && s in v.snapshots && Claiming(v.snapshots[s]) ==>
          s in w.uploaders && SamePlaced(w.uploaders[s], v.uploaders[s]))
  }

  predicate SamePlaced(u: Uploader, v: Uploader) {
    && v.problem == u.problem && v.generation == u.generation && v.scan == u.scan && v.repeats == u.repeats
    && Placed(v) <= Placed(u) && (v.stage == ManifestStored ==> u.stage == ManifestStored)
  }

  lemma ShrinkingKeepsStore(w: World, v: World)
    requires StoreInv(w) && ClaimsShrink(w, v)
    requires v.store == w.store && v.collectors == w.collectors
    ensures StoreInv(v)
  {
    hide Holds;
    forall c, s | c in v.collectors && s in v.snapshots && v.collectors[c].phase == Confirmed
      && Claiming(v.snapshots[s])
      ensures !Refers(v.snapshots[s], KeyOf(v.collectors[c].target.mark))
    {
      assert !Refers(w.snapshots[s], KeyOf(w.collectors[c].target.mark));
    }
  }

  /** An upload moves on, with its row if the row still exists. */
  lemma UploadMoves(w: World, s: SnapshotId, row: Snapshot, stage: Stage)
    requires StoreInv(w) && s in w.uploaders && s in w.snapshots
    requires Claiming(row) ==>
               Claiming(w.snapshots[s]) && row.files == w.snapshots[s].files && row.manifest == w.snapshots[s].manifest
               && row.state != Ready && SamePlaced(w.uploaders[s], w.uploaders[s].(stage := stage))
    ensures StoreInv(SetStage(SetRow(w, s, row), s, stage))
  {
    hide StoreOk;
    ShrinkingKeepsStore(w, SetStage(SetRow(w, s, row), s, stage));
  }

  lemma RowlessUploadMoves(w: World, s: SnapshotId, stage: Stage)
    requires StoreInv(w) && s in w.uploaders && s !in w.snapshots
    ensures StoreInv(SetStage(w, s, stage))
  {
    hide StoreOk;
    ShrinkingKeepsStore(w, SetStage(w, s, stage));
  }

  lemma RowDrops(w: World, s: SnapshotId, row: Snapshot)
    requires StoreInv(w) && s in w.snapshots && !Claiming(row)
    ensures StoreInv(SetRow(w, s, row))
  {
    hide StoreOk;
    ShrinkingKeepsStore(w, SetRow(w, s, row));
  }

  lemma ClaimKeepsStore(w: World, s: SnapshotId, u: Uploader)
    requires RowsInv(w) && StoreInv(w) && u.stage == Claimed
    ensures StoreInv(AfterClaim(w, s, u))
  {
    hide StoreOk, RowsOk;
    ShrinkingKeepsStore(w, AfterClaim(w, s, u));
  }

  lemma ClearRowsKeepsStore(w: World, s: SnapshotId)
    requires RowsInv(w) && StoreInv(w) && AtStage(w, s, Claimed)
    ensures StoreInv(AfterClearRows(w, s))
  {
    hide StoreOk, Identities, WellFormedRows;
    if s in w.snapshots {
      UploadMoves(w, s, w.snapshots[s].(files := map[], verified := {}), RowsCleared);
    } else {
      RowlessUploadMoves(w, s, RowsCleared);
    }
  }

  lemma StartHashingKeepsStore(w: World, s: SnapshotId)
    requires RowsInv(w) && StoreInv(w) && AtStage(w, s, RowsCleared)
    ensures StoreInv(AfterStartHashing(w, s))
  {
    hide StoreOk, Identities, WellFormedRows;
    if s in w.snapshots {
      UploadMoves(w, s, w.snapshots[s].(state := Hashing), HashingFiles);
    } else {
      RowlessUploadMoves(w, s, HashingFiles);
    }
  }

  lemma FailKeepsStore(w: World, s: SnapshotId)
    requires StoreInv(w) && s in w.uploaders
    ensures StoreInv(AfterFail(w, s))
  {
    hide StoreOk;
    CrashKeepsStore(w, s);
    if s in w.snapshots && w.snapshots[s].state != Ready {
      RowDrops(w.(uploaders := w.uploaders - {s}), s, w.snapshots[s].(state := Error, completedAt := Some(w.now)));
    }
  }

  lemma CrashKeepsStore(w: World, s: SnapshotId)
    requires StoreInv(w)
    ensures StoreInv(w.(uploaders := w.uploaders - {s}))
  {
    hide StoreOk;
    ShrinkingKeepsStore(w, w.(uploaders := w.uploaders - {s}));
  }

  lemma SweepKeepsStore(w: World)
    requires StoreInv(w)
    ensures StoreInv(AfterSweep(w))
  {
    hide StoreOk;
    ShrinkingKeepsStore(w, AfterSweep(w));
  }

  /**
   Retention deletes rows and writes marks; it never touches the store, and what remains claims no
   more than before.
  */
  lemma RetainKeepsStore(w: World)
    requires StoreInv(w)
    ensures StoreInv(AfterRetain(w))
  {
    hide StoreOk, Prunable, AfterMark;
    var v := AfterPrune(w);
    ShrinkingKeepsStore(w, v);
    AfterMarkFrame(v);
  }

  lemma AfterMarkFrame(w: World)
    ensures var v := AfterMark(w);
            v.snapshots == w.snapshots && v.uploaders == w.uploaders && v.store == w.store
              && v.collectors == w.collectors
  {
  }

  // ---------------------------------------------------------------- steps of an upload that add claims or objects

  /** The claim is made only while no collector holds any of its keys. */
  lemma PrepareKeepsStore(w: World, s: SnapshotId)
    requires RowsInv(w) && StoreInv(w) && CanPrepare(w, s)
    ensures StoreInv(AfterPrepare(w, s))
  {
    hide Identities, WellFormedRows;
    var v := AfterPrepare(w, s);
    PrepareKeepsRows(w, s);
    assert ReadyComplete(v.snapshots, v.store);
    assert UploadsPresent(v.uploaders, v.snapshots, v.store);
    forall c | c in v.collectors && v.collectors[c].phase == Confirmed
      ensures !Refers(v.snapshots[s], KeyOf(v.collectors[c].target.mark))
    {
      assert HoldsLock(w.collectors[c], KeyOf(w.collectors[c].target.mark));
    }
  }

  lemma PlaceKeepsStore(w: World, s: SnapshotId, path: RelPath)
    requires RowsInv(w) && StoreInv(w) && CanPlace(w, s, path)
    ensures StoreInv(AfterPlace(w, s, path))
  {
    hide Identities, WellFormedRows, Refers;
    var v := AfterPlace(w, s, path);
    assert forall key :: key in w.store ==> key in v.store && v.store[key] == w.store[key];
    assert UploadsPresent(v.uploaders, v.snapshots, v.store);
  }

  /** The update of one object row writes what the claim wrote. */
  lemma RecordKeepsStore(w: World, s: SnapshotId, path: RelPath)
    requires RowsInv(w) && StoreInv(w) && CanRecord(w, s, path)
    ensures StoreInv(AfterRecord(w, s, path))
  {
    hide StoreOk, Identities, WellFormedRows;
    RecordKeepsRows(w, s, path);
    UploadMoves(w, s, AfterRecord(w, s, path).snapshots[s], AfterRecord(w, s, path).uploaders[s].stage);
  }

  lemma StartVerifyingKeepsStore(w: World, s: SnapshotId)
    requires RowsInv(w) && StoreInv(w) && CanStartVerifying(w, s)
    ensures StoreInv(AfterStartVerifying(w, s))
  {
    hide StoreOk, Identities, WellFormedRows;
    if s in w.snapshots {
      assert Placed(w.uploaders[s]) == w.uploaders[s].scan.Keys;
      UploadMoves(w, s, VerifyingRow(w.snapshots[s]), VerifyingFiles);
    } else {
      RowlessUploadMoves(w, s, VerifyingFiles);
    }
  }

  lemma OtherManifests(w: World, s: SnapshotId)
    requires RowsInv(w) && AtStage(w, s, VerifyingFiles)
    ensures forall t :: t in w.snapshots && w.snapshots[t].state == Ready ==>
              w.snapshots[t].manifest.Some?
              && w.snapshots[t].manifest.value != ManifestAt(w.uploaders[s].problem, w.uploaders[s].generation)
  {
    forall t | t in w.snapshots && w.snapshots[t].state == Ready
      ensures w.snapshots[t].manifest.value != ManifestAt(w.uploaders[s].problem, w.uploaders[s].generation)
    {
      assert WellFormedRow(w.snapshots[t]);
      assert Uploads(w.uploaders[s], w.snapshots[t].problem, w.snapshots[t].generation) ==> s == t;
    }
  }

  lemma ManifestHoldsAll(store: map<ObjectKey, Blob>, key: ObjectKey, doc: Blob, files: FileMap, paths: set<RelPath>)
    requires HoldsAll(store, files, paths) && key.ManifestAt?
    ensures HoldsAll(store[key := doc], files, paths)
  {
  }

  /** The manifest key belongs to this upload alone, so overwriting it touches no other upload and no READY row. */
  lemma OtherUploadsPresent(w: World, s: SnapshotId, t: SnapshotId)
    requires RowsInv(w) && StoreInv(w) && AtStage(w, s, VerifyingFiles)
    requires t in w.uploaders && t in w.snapshots && Claiming(w.snapshots[t])
    ensures var v := AfterPutManifest(w, s); UploadPresent(v.uploaders[t], v.snapshots[t], v.store)
  {
    hide RowsOk, StoreOk, HoldsAll;
    var u := w.uploaders[s];
    SameUpload(w, s, t);
    PresentUpload(w, t);
    ManifestHoldsAll(w.store, ManifestAt(u.problem, u.generation), ManifestDoc(u.scan, u.repeats), w.uploaders[t].scan,
                     Placed(w.uploaders[t]));
  }

  lemma SameUpload(w: World, s: SnapshotId, t: SnapshotId)
    requires RowsInv(w) && s in w.uploaders && t in w.uploaders
    ensures var u, v := w.uploaders[s], w.uploaders[t];
            u.problem == v.problem && u.generation == v.generation ==> s == t
  {
    hide UniqueGenerations, WellFormedRows, UploadersFit;
    assert Uploads(w.uploaders[s], w.uploaders[t].problem, w.uploaders[t].generation) ==> s == t;
  }

  lemma PresentUpload(w: World, t: SnapshotId)
    requires StoreInv(w) && t in w.uploaders && t in w.snapshots && Claiming(w.snapshots[t])
    ensures UploadPresent(w.uploaders[t], w.snapshots[t], w.store)
  {
    hide UploadPresent, ReadyComplete, ConfirmedUnclaimed, ContentIntact;
  }

  lemma PutManifestKeepsStore(w: World, s: SnapshotId)
    requires RowsInv(w) && StoreInv(w) && AtStage(w, s, VerifyingFiles)
    ensures StoreInv(AfterPutManifest(w, s))
  {
    hide Refers, RowsOk, UploadPresent;
    var v := AfterPutManifest(w, s);
    OtherManifests(w, s);
    assert ReadyComplete(v.snapshots, v.store);
    forall t | t in v.uploaders && t in v.snapshots && Claiming(v.snapshots[t])
      ensures UploadPresent(v.uploaders[t], v.snapshots[t], v.store)
    {
      OtherUploadsPresent(w, s, t);
    }
  }

  /** READY is reached only with every object and the manifest in place. */
  lemma FinalizeKeepsStore(w: World, s: SnapshotId)
    requires RowsInv(w) && StoreInv(w) && CanFinalize(w, s)
    ensures StoreInv(AfterFinalize(w, s))
  {
    hide Identities, Holds;
    var v := AfterFinalize(w, s);
    FinalizedFiles(w, s);
    forall t | t in v.snapshots && v.snapshots[t].state == Ready
      ensures Complete(v.store, v.snapshots[t])
    {
      if t == s {
        assert UploadPresent(w.uploaders[s], w.snapshots[s], w.store);
      }
    }
  }

  // ---------------------------------------------------------------- steps of a collector

  /** A collector that changes its phase without erasing anything. */
  lemma CollectorMoves(w: World, c: CollectorId, d: Collector)
    requires StoreInv(w)
    requires d.phase == Confirmed ==> forall s :: s in w.snapshots && Claiming(w.snapshots[s]) ==>
               !Refers(w.snapshots[s], KeyOf(d.target.mark))
    ensures StoreOk(w.uploaders, w.snapshots, w.collectors[c := d], w.store)
  {
    hide Refers, ReadyComplete, UploadsPresent;
  }

  /** The second reference check sees every claim there is. */
  lemma SecondCheckKeepsStore(w: World, c: CollectorId)
    requires StoreInv(w) && CanCheck(w, c, Cleared)
    ensures StoreInv(SetPhase(w, c, Confirmed))
  {
    hide StoreOk, Refers;
    forall s | s in w.snapshots && Claiming(w.snapshots[s])
      ensures !Refers(w.snapshots[s], KeyOf(w.collectors[c].target.mark))
    {
      assert Protected(w.retention, w.now, w.snapshots[s]);
    }
    CollectorMoves(w, c, w.collectors[c].(phase := Confirmed));
  }

  /** The delete itself: nothing READY and nothing an upload has placed can be the key that goes. */
  lemma EraseKeepsStore(w: World, c: CollectorId)
    requires RowsInv(w) && StoreInv(w) && AtPhase(w, c, Confirmed)
    ensures StoreInv(AfterErase(w, c))
  {
    hide Identities;
    var key := Target(w, c);
    var v := AfterErase(w, c);
    forall s | s in v.snapshots && v.snapshots[s].state == Ready
      ensures Complete(v.store, v.snapshots[s])
    {
      UnreferencedSurvives(w, s, key, w.snapshots[s].files, w.snapshots[s].files.Keys);
    }
    forall s | s in v.uploaders && s in v.snapshots && Claiming(v.snapshots[s])
      ensures UploadPresent(v.uploaders[s], v.snapshots[s], v.store)
    {
      UnreferencedSurvives(w, s, key, w.snapshots[s].files, Placed(w.uploaders[s]));
    }
  }

  lemma UnreferencedSurvives(w: World, s: SnapshotId, key: ObjectKey, files: FileMap, paths: set<RelPath>)
    requires s in w.snapshots && w.snapshots[s].files == files && !Refers(w.snapshots[s], key)
    requires HoldsAll(w.store, files, paths)
    ensures HoldsAll(w.store - {key}, files, paths)
    ensures w.snapshots[s].manifest.Some? && w.snapshots[s].manifest.value in w.store ==>
              w.snapshots[s].manifest.value in w.store - {key}
  {
    assert forall path :: path in files ==> Content(files[path].sha) != key;
  }

  // ---------------------------------------------------------------- every step

  lemma UploadKeepsStore(w: World, step: UploadStep)
    requires RowsInv(w) && StoreInv(w)
    ensures StoreInv(AfterUpload(w, step))
  {
    hide StoreOk, RowsOk;
    match step
    case Claim(p, generation, token, expected, canonical, links, repeats, scan) =>
      if CanClaim(w, p, generation, token) {
        ClaimKeepsStore(w, ClaimedId(w, p, generation),
                        Uploader(p, generation, token, expected, canonical, links, repeats, scan, Claimed));
      }
    case ClearRows(s) => if AtStage(w, s, Claimed) { ClearRowsKeepsStore(w, s); }
    case StartHashing(s) => if AtStage(w, s, RowsCleared) { StartHashingKeepsStore(w, s); }
    case Prepare(s) => if CanPrepare(w, s) { PrepareKeepsStore(w, s); }
    case Place(s, path) => if CanPlace(w, s, path) { PlaceKeepsStore(w, s, path); }
    case Record(s, path) => if CanRecord(w, s, path) { RecordKeepsStore(w, s, path); }
    case StartVerifying(s) => if CanStartVerifying(w, s) { StartVerifyingKeepsStore(w, s); }
    case PutManifest(s) => if AtStage(w, s, VerifyingFiles) { PutManifestKeepsStore(w, s); }
    case Finalize(s) => if CanFinalize(w, s) { FinalizeKeepsStore(w, s); }
    case Fail(s) => if s in w.uploaders { FailKeepsStore(w, s); }
    case Crash(s) => CrashKeepsStore(w, s);
  }

  lemma CollectKeepsStore(w: World, step: CollectStep)
    requires RowsInv(w) && StoreInv(w)
    ensures StoreInv(AfterCollect(w, step))
  {
    hide StoreOk, RowsOk, CanList, KeyLocked;
    match step
    case ListEligible(c, refs) => CollectorMoves(w, c, Collector(refs, Idle, MarkRef(ContentMark(Digest([])), 0)));
    case LockKey(c, ref) =>
      if c in w.collectors { CollectorMoves(w, c, w.collectors[c].(phase := Locked, target := ref)); }
    case FirstCheck(c) => if c in w.collectors { CollectorMoves(w, c, w.collectors[c].(phase := Cleared)); }
    case SecondCheck(c) => if CanCheck(w, c, Cleared) { SecondCheckKeepsStore(w, c); }
    case Erase(c) => if AtPhase(w, c, Confirmed) { EraseKeepsStore(w, c); }
    case SeeAbsent(c) => if c in w.collectors { CollectorMoves(w, c, w.collectors[c].(phase := Gone)); }
    case ThirdCheck(c) => if c in w.collectors { CollectorMoves(w, c, w.collectors[c].(phase := Gone)); }
    case Release(c) => if c in w.collectors { CollectorMoves(w, c, w.collectors[c].(phase := Idle)); }
    case MarkCollected(c) => if c in w.collectors { CollectorMoves(w, c, w.collectors[c].(phase := Idle)); }
    case Defer(_, _, _) =>
  }

  lemma FolderKeepsStore(w: World, step: FolderStep)
    requires StoreInv(w)
    ensures StoreInv(AfterFolder(w, step))
  {
    hide StoreOk, CanEvict, CanPublish, CanDownload;
  }

  lemma TableKeepsStore(w: World, step: TableStep)
    requires StoreInv(w)
    ensures StoreInv(AfterTable(w, step))
  {
    hide StoreOk, AfterSweep, AfterRetain;
    match step
    case SweepStalled => SweepKeepsStore(w);
    case Retain => RetainKeepsStore(w);
    case _ =>
  }
}
