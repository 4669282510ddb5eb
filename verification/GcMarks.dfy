/**
 What a garbage-collection mark means. A collected mark is the licence to delete the last
 metadata about an object, so it has to imply that the object is gone.
 */
module GcMarks {
  import opened Common
  import opened JobLeases
  import opened Storage
  import opened SnapshotRows
  import opened GcSafety

  // ---------------------------------------------------------------- live claims carry no mark

  ghost predicate Unmarked(rows: map<SnapshotId, Snapshot>, marks: map<MarkKey, Mark>) {
    forall s, m :: s in rows && m in marks && Claiming(rows[s]) ==> !Refers(rows[s], KeyOf(m))
  }

  ghost predicate PastEpochs(marks: map<MarkKey, Mark>, collectors: map<CollectorId, Collector>, epoch: nat) {
    && (forall m :: m in marks ==> marks[m].epoch < epoch)
    && (forall c, ref :: c in collectors && ref in collectors[c].worklist ==> ref.epoch < epoch)
    && (forall c :: c in collectors && collectors[c].phase != Idle ==> collectors[c].target.epoch < epoch)
  }

  ghost predicate MarksOk(
    rows: map<SnapshotId, Snapshot>, marks: map<MarkKey, Mark>, collectors: map<CollectorId, Collector>, epoch: nat)
  {
    Unmarked(rows, marks) && PastEpochs(marks, collectors, epoch)
  }

  ghost predicate MarkInv(w: World) {
    MarksOk(w.snapshots, w.marks, w.collectors, w.epoch)
  }

  /** Claims do not grow and marks lose keys at most. */
  lemma ShrinkingKeepsMarks(w: World, v: World)
    requires MarkInv(w)
    requires v.collectors == w.collectors && v.epoch >= w.epoch
    requires forall s :: s in v.snapshots && Claiming(v.snapshots[s]) ==>
               s in w.snapshots && Claiming(w.snapshots[s]) && v.snapshots[s].files == w.snapshots[s].files
               && v.snapshots[s].manifest == w.snapshots[s].manifest
    requires forall m :: m in v.marks ==> m in w.marks && v.marks[m].epoch == w.marks[m].epoch
    ensures MarkInv(v)
  {
    forall s, m | s in v.snapshots && m in v.marks && Claiming(v.snapshots[s])
      ensures !Refers(v.snapshots[s], KeyOf(m))
    {
      assert !Refers(w.snapshots[s], KeyOf(m));
    }
  }

  /** The preparing transaction deletes every mark on the keys it claims. */
  lemma PrepareKeepsMarks(w: World, s: SnapshotId)
    requires RowsInv(w) && MarkInv(w) && CanPrepare(w, s)
    ensures MarkInv(AfterPrepare(w, s))
  {
    hide RowsOk;
    var v := AfterPrepare(w, s);
    PrepareKeepsRows(w, s);
    var u := w.uploaders[s];
    forall m | m in v.marks
      ensures !Refers(v.snapshots[s], KeyOf(m))
    {
      assert !UploadKey(u, KeyOf(m));
    }
    assert Unmarked(v.snapshots, v.marks);
  }

  lemma FinalizeKeepsMarks(w: World, s: SnapshotId)
    requires RowsInv(w) && MarkInv(w) && CanFinalize(w, s)
    ensures MarkInv(AfterFinalize(w, s))
  {
    hide MarksOk, Identities, Refers;
    FinalizedFiles(w, s);
    ShrinkingKeepsMarks(w, AfterFinalize(w, s));
  }

  lemma RecordKeepsMarks(w: World, s: SnapshotId, path: RelPath)
    requires RowsInv(w) && MarkInv(w) && CanRecord(w, s, path)
    ensures MarkInv(AfterRecord(w, s, path))
  {
    hide MarksOk, Identities, WellFormedRows, Refers;
    RecordKeepsRows(w, s, path);
    ShrinkingKeepsMarks(w, AfterRecord(w, s, path));
  }

  /** Rows that do not claim anything are free to move. */
  lemma RowMoveKeepsMarks(w: World, s: SnapshotId, row: Snapshot)
    requires MarkInv(w)
    requires Claiming(row) ==>
               s in w.snapshots && Claiming(w.snapshots[s]) && row.files == w.snapshots[s].files
               && row.manifest == w.snapshots[s].manifest
    ensures MarksOk(w.snapshots[s := row], w.marks, w.collectors, w.epoch)
  {
    hide MarksOk;
    ShrinkingKeepsMarks(w, w.(snapshots := w.snapshots[s := row]));
  }

  lemma EarlyRow(w: World, s: SnapshotId)
    requires RowsInv(w) && AtStage(w, s, Claimed) && s in w.snapshots
    ensures !Claiming(w.snapshots[s])
  {
  }

  lemma ClaimKeepsMarks(w: World, s: SnapshotId, u: Uploader)
    requires MarkInv(w)
    ensures MarkInv(AfterClaim(w, s, u))
  {
    hide MarksOk;
    RowMoveKeepsMarks(w, s, ClaimedRow(w, s, u.problem, u.generation));
  }

  lemma ClearRowsKeepsMarks(w: World, s: SnapshotId)
    requires RowsInv(w) && MarkInv(w) && AtStage(w, s, Claimed)
    ensures MarkInv(AfterClearRows(w, s))
  {
    hide MarksOk, RowsOk;
    if s in w.snapshots {
      EarlyRow(w, s);
      RowMoveKeepsMarks(w, s, w.snapshots[s].(files := map[], verified := {}));
    }
  }

  lemma StartHashingKeepsMarks(w: World, s: SnapshotId)
    requires MarkInv(w) && s in w.uploaders
    ensures MarkInv(AfterStartHashing(w, s))
  {
    hide MarksOk;
    if s in w.snapshots {
      RowMoveKeepsMarks(w, s, w.snapshots[s].(state := Hashing));
    }
  }

  lemma StartVerifyingKeepsMarks(w: World, s: SnapshotId)
    requires MarkInv(w) && s in w.uploaders
    ensures MarkInv(AfterStartVerifying(w, s))
  {
    hide MarksOk;
    if s in w.snapshots {
      RowMoveKeepsMarks(w, s, VerifyingRow(w.snapshots[s]));
    }
  }

  lemma FailKeepsMarks(w: World, s: SnapshotId)
    requires MarkInv(w)
    ensures MarkInv(AfterFail(w, s))
  {
    hide MarksOk;
    if s in w.snapshots {
      RowMoveKeepsMarks(w, s, w.snapshots[s].(state := Error, completedAt := Some(w.now)));
    }
  }

  lemma UploadKeepsMarks(w: World, step: UploadStep)
    requires RowsInv(w) && MarkInv(w)
    ensures MarkInv(AfterUpload(w, step))
  {
    hide MarksOk, RowsOk, CanClaim, ClaimedId, CanRecord, CanPlace, CanFinalize, CanPrepare;
    hide AfterClaim, AfterPrepare, AfterFinalize, AfterRecord, AfterClearRows, AfterStartHashing, AfterStartVerifying,
      AfterFail;
    match step
    case Claim(p, generation, token, expected, canonical, links, repeats, scan) =>
      ClaimKeepsMarks(w, ClaimedId(w, p, generation),
                      Uploader(p, generation, token, expected, canonical, links, repeats, scan, Claimed));
    case ClearRows(s) => if AtStage(w, s, Claimed) { ClearRowsKeepsMarks(w, s); }
    case StartHashing(s) => if s in w.uploaders { StartHashingKeepsMarks(w, s); }
    case Prepare(s) => if CanPrepare(w, s) { PrepareKeepsMarks(w, s); }
    case Place(s, path) =>
    case Record(s, path) => if CanRecord(w, s, path) { RecordKeepsMarks(w, s, path); }
    case StartVerifying(s) => if CanStartVerifying(w, s) { StartVerifyingKeepsMarks(w, s); }
    case PutManifest(s) =>
    case Finalize(s) => if CanFinalize(w, s) { FinalizeKeepsMarks(w, s); }
    case Fail(s) => FailKeepsMarks(w, s);
    case Crash(s) =>
  }

  lemma SweepKeepsMarks(w: World)
    requires MarkInv(w)
    ensures MarkInv(AfterSweep(w))
  {
    hide MarksOk, Refers;
    ShrinkingKeepsMarks(w, AfterSweep(w));
  }

  lemma PruneKeepsMarks(w: World)
    requires MarkInv(w)
    ensures MarkInv(AfterPrune(w))
  {
    hide MarksOk, Refers, Prunable;
    ShrinkingKeepsMarks(w, AfterPrune(w));
  }

  /** A proposed mark is for a key no protected row names. */
  lemma ProposedUnreferenced(w: World, m: MarkKey)
    requires m in ProposedMarks(w)
    ensures Candidates(w, KeyOf(m)) != {} && !LiveRef(w, KeyOf(m))
    ensures m == MarkFor(Owner(w, m), KeyOf(m))
  {
    hide Refers;
    var key :| key in ExpiredKeys(w) && Candidates(w, key) != {} && m == MarkFor(Representative(w, key), key);
  }

  lemma MarkKeepsMarks(w: World)
    requires MarkInv(w)
    ensures MarkInv(AfterMark(w))
  {
    hide Refers, Candidates, Representative, ProposedMarks;
    var v := AfterMark(w);
    forall s, m | s in v.snapshots && m in v.marks && Claiming(v.snapshots[s])
      ensures !Refers(v.snapshots[s], KeyOf(m))
    {
      if m !in w.marks {
        ProposedUnreferenced(w, m);
        assert Protected(w.retention, w.now, w.snapshots[s]);
      }
    }
  }

  lemma TableKeepsMarks(w: World, step: TableStep)
    requires MarkInv(w)
    ensures MarkInv(AfterTable(w, step))
  {
    hide MarksOk, AfterSweep, AfterPrune, AfterMark, AfterJob, CanWork, CanHeal, CanVerifyLocal, HasNoReady;
    match step
    case SweepStalled => SweepKeepsMarks(w);
    case Retain =>
      PruneKeepsMarks(w);
      MarkKeepsMarks(AfterPrune(w));
    case _ =>
  }

  lemma FolderKeepsMarks(w: World, step: FolderStep)
    requires MarkInv(w)
    ensures MarkInv(AfterFolder(w, step))
  {
    hide MarksOk, CanEvict, CanPublish, CanDownload;
  }

  lemma CollectorMoveKeepsMarks(w: World, c: CollectorId, d: Collector)
    requires MarkInv(w)
    requires forall ref :: ref in d.worklist ==> ref.epoch < w.epoch
    requires d.phase != Idle ==> d.target.epoch < w.epoch
    ensures MarksOk(w.snapshots, w.marks, w.collectors[c := d], w.epoch)
  {
    hide Unmarked;
  }

  lemma CollectedKeepsMarks(w: World, c: CollectorId)
    requires MarkInv(w) && c in w.collectors
    ensures MarkInv(AfterMarkCollected(w, c))
  {
    hide Refers;
  }

  lemma DeferKeepsMarks(w: World, m: MarkKey, until: Time)
    requires MarkInv(w) && m in w.marks
    ensures MarkInv(AfterDefer(w, m, until))
  {
    hide Refers;
  }

  lemma CollectKeepsMarks(w: World, step: CollectStep)
    requires MarkInv(w)
    ensures MarkInv(AfterCollect(w, step))
  {
    hide Unmarked, LiveRef, KeyLocked;
    match step
    case ListEligible(c, refs) =>
      if CanList(w, c, refs) {
        assert forall ref :: ref in refs ==> Eligible(w, ref);
        CollectorMoveKeepsMarks(w, c, Collector(refs, Idle, MarkRef(ContentMark(Digest([])), 0)));
      }
    case LockKey(c, ref) =>
      if CanLock(w, c, ref) { CollectorMoveKeepsMarks(w, c, w.collectors[c].(phase := Locked, target := ref)); }
    case FirstCheck(c) =>
      if CanCheck(w, c, Locked) { CollectorMoveKeepsMarks(w, c, w.collectors[c].(phase := Cleared)); }
    case SeeAbsent(c) =>
      if CanSeeAbsent(w, c) { CollectorMoveKeepsMarks(w, c, w.collectors[c].(phase := Gone)); }
    case SecondCheck(c) =>
      if CanCheck(w, c, Cleared) { CollectorMoveKeepsMarks(w, c, w.collectors[c].(phase := Confirmed)); }
    case Erase(c) =>
      if AtPhase(w, c, Confirmed) { CollectorMoveKeepsMarks(w, c, w.collectors[c].(phase := Erased)); }
    case ThirdCheck(c) =>
      if CanCheck(w, c, Erased) { CollectorMoveKeepsMarks(w, c, w.collectors[c].(phase := Gone)); }
    case Release(c) =>
      if c in w.collectors { CollectorMoveKeepsMarks(w, c, w.collectors[c].(phase := Idle)); }
    case MarkCollected(c) => if c in w.collectors { CollectedKeepsMarks(w, c); }
    case Defer(_, ref, until) => if ref.mark in w.marks { DeferKeepsMarks(w, ref.mark, until); }
  }

  // ---------------------------------------------------------------- a collected mark means the object is gone

  ghost predicate CollectedAbsent(marks: map<MarkKey, Mark>, store: map<ObjectKey, Blob>) {
    forall m :: m in marks && marks[m].collected ==> KeyOf(m) !in store
  }

  /** The collector has deleted its key, or seen it absent, and has not marked it yet. */
  predicate Removed(c: Collector) {
    c.phase == Erased || c.phase == Gone
  }

  ghost predicate RemovedAbsent(
    collectors: map<CollectorId, Collector>, marks: map<MarkKey, Mark>, store: map<ObjectKey, Blob>)
  {
    forall c :: c in collectors && Removed(collectors[c]) && AliveRef(marks, collectors[c].target) ==>
                  KeyOf(collectors[c].target.mark) !in store
  }

  /** Neither a collected mark nor one that a collector is about to write has an object in the store. */
  ghost predicate AbsenceOk(
    collectors: map<CollectorId, Collector>, marks: map<MarkKey, Mark>, store: map<ObjectKey, Blob>)
  {
    CollectedAbsent(marks, store) && RemovedAbsent(collectors, marks, store)
  }

  ghost predicate AbsenceInv(w: World) {
    AbsenceOk(w.collectors, w.marks, w.store)
  }

  /** The key an upload step is about to put. */
  function PutKey(w: World, step: UploadStep): Option<ObjectKey> {
    match step
    case Place(s, path) =>
      if CanPlace(w, s, path) then Some(Content(w.uploaders[s].scan[path].sha)) else None
    case PutManifest(s) =>
      if AtStage(w, s, VerifyingFiles) then Some(ManifestAt(w.uploaders[s].problem, w.uploaders[s].generation))
        else None
    case _ => None
  }

  /**
   What a caller can look up before a put: the key carries no collected mark, and none in the act of
   being collected.
  */
  ghost predicate CleanKey(w: World, key: ObjectKey) {
    && !CollectedMark(w.marks, key)
    && forall c :: c in w.collectors && Removed(w.collectors[c]) && AliveRef(w.marks, w.collectors[c].target) ==>
         KeyOf(w.collectors[c].target.mark) != key
  }

  ghost predicate CleanPut(w: World, step: UploadStep) {
    PutKey(w, step).Some? ==> CleanKey(w, PutKey(w, step).value)
  }

  /** Exactly the clean puts keep the objects of collected marks, and of marks about to be collected, away. */
  lemma PutKeepsAbsence(w: World, key: ObjectKey, blob: Blob)
    requires AbsenceInv(w)
    ensures AbsenceOk(w.collectors, w.marks, w.store[key := blob]) <==> CleanKey(w, key)
  {
  }

  /** A put by an upload whose row is still live is clean. */
  lemma LivePutIsClean(w: World, step: UploadStep)
    requires RowsInv(w) && MarkInv(w) && PutKey(w, step).Some?
    requires step.s in w.snapshots && Active(w.snapshots[step.s].state)
    ensures CleanPut(w, step)
  {
    hide Identities, WellFormedRows;
    var s := step.s;
    var key := PutKey(w, step).value;
    assert Fits(w.uploaders[s], w.snapshots[s]);
    assert Claiming(w.snapshots[s]);
    LivePutRefers(w, step);
    assert forall m :: m in w.marks ==> !Refers(w.snapshots[s], KeyOf(m));
  }

  lemma LivePutRefers(w: World, step: UploadStep)
    requires RowsInv(w) && PutKey(w, step).Some?
    requires step.s in w.snapshots && Active(w.snapshots[step.s].state)
    ensures Refers(w.snapshots[step.s], PutKey(w, step).value)
  {
    hide Identities;
    assert Fits(w.uploaders[step.s], w.snapshots[step.s]);
    assert WellFormedRow(w.snapshots[step.s]);
  }

  // ---------------------------------------------------------------- absence is kept by every clean step

  lemma PrepareKeepsAbsence(w: World, s: SnapshotId)
    requires AbsenceInv(w) && CanPrepare(w, s)
    ensures AbsenceInv(AfterPrepare(w, s))
  {
    hide UploadKey;
    var v := AfterPrepare(w, s);
    assert forall m :: m in v.marks ==> m in w.marks && v.marks[m] == w.marks[m];
  }

  /** The steps of an upload do so exactly when every object they put is clean. */
  lemma UploadKeepsAbsence(w: World, step: UploadStep)
    requires AbsenceInv(w)
    ensures AbsenceInv(AfterUpload(w, step)) <==> CleanPut(w, step)
  {
    hide AbsenceOk, CleanKey, CanClaim, ClaimedId, CanRecord, CanPlace, CanFinalize, CanPrepare, CanStartVerifying;
    hide AfterPrepare, FinalizedRows;
    match step
    case Prepare(s) => if CanPrepare(w, s) { PrepareKeepsAbsence(w, s); }
    case Place(s, path) =>
      if CanPlace(w, s, path) { PlaceKeepsAbsence(w, s, path); }
    case PutManifest(s) =>
      if AtStage(w, s, VerifyingFiles) {
        PutKeepsAbsence(w, PutKey(w, step).value, ManifestDoc(w.uploaders[s].scan, w.uploaders[s].repeats));
      }
    case _ =>
  }

  lemma PlaceKeepsAbsence(w: World, s: SnapshotId, path: RelPath)
    requires AbsenceInv(w) && CanPlace(w, s, path)
    ensures AbsenceInv(AfterPlace(w, s, path)) <==> CleanKey(w, Content(w.uploaders[s].scan[path].sha))
  {
    hide AbsenceOk, CleanKey;
    var sha := w.uploaders[s].scan[path].sha;
    PutKeepsAbsence(w, Content(sha), Raw(sha.preimage));
  }

  /** Marks keep their epochs, and whether they are collected. */
  lemma PruneKeepsAbsence(w: World)
    requires AbsenceInv(w)
    ensures AbsenceInv(AfterPrune(w))
  {
    hide Prunable;
  }

  /** A written mark is not collected, and a new one is of this epoch. */
  lemma MarkKeepsAbsence(w: World)
    requires MarkInv(w) && AbsenceInv(w)
    ensures AbsenceInv(AfterMark(w))
  {
    hide Unmarked, ProposedMarks, Written, Owner;
    var v := AfterMark(w);
    assert forall m :: m in v.marks && v.marks[m].collected ==> m in w.marks && w.marks[m].collected;
    assert forall m :: m in v.marks && v.marks[m].epoch < w.epoch ==>
             m in w.marks && w.marks[m].epoch == v.marks[m].epoch;
  }

  lemma RetainKeepsAbsence(w: World)
    requires MarkInv(w) && AbsenceInv(w)
    ensures AbsenceInv(AfterRetain(w))
  {
    hide MarkInv, AbsenceInv, AfterPrune, AfterMark;
    PruneKeepsMarks(w);
    PruneKeepsAbsence(w);
    MarkKeepsAbsence(AfterPrune(w));
  }

  lemma TableKeepsAbsence(w: World, step: TableStep)
    requires MarkInv(w) && AbsenceInv(w)
    ensures AbsenceInv(AfterTable(w, step))
  {
    hide MarksOk, AbsenceOk, AfterPrune, AfterMark, AfterJob, CanWork, CanHeal, CanVerifyLocal, HasNoReady;
    match step
    case Retain => RetainKeepsAbsence(w);
    case _ =>
  }

  lemma FolderKeepsAbsence(w: World, step: FolderStep)
    requires AbsenceInv(w)
    ensures AbsenceInv(AfterFolder(w, step))
  {
    hide AbsenceOk, CanEvict, CanPublish, CanDownload;
  }

  /** A collector reaches Gone only with its key absent, so what it then marks is absent. */
  lemma CollectKeepsAbsence(w: World, step: CollectStep)
    requires AbsenceInv(w)
    ensures AbsenceInv(AfterCollect(w, step))
  {
    hide LiveRef, KeyLocked, CanList;
    match step
    case MarkCollected(c) =>
    case Defer(_, _, _) =>
    case Erase(c) =>
    case _ => OtherCollectSteps(w, step);
  }

  lemma OtherCollectSteps(w: World, step: CollectStep)
    requires AbsenceInv(w) && !step.MarkCollected? && !step.Defer? && !step.Erase?
    ensures AbsenceInv(AfterCollect(w, step))
  {
    hide LiveRef, KeyLocked, CanList, CollectedAbsent;
  }
}
