/**
 How long things last. A READY snapshot that is replaced stays restorable for as long as superseded snapshots are kept,
 and a collector whose mark is still there deletes its objects only after a further grace period.
 */
module GracePeriods {
  import opened Common
  import opened JobLeases
  import opened Storage
  import opened SnapshotRows
  import opened GcSafety
  import opened GcMarks
  import opened RetentionRun
  import opened ReadyCas
  import opened Runs

  /** A superseded row whose time is not up. */
  predicate Kept(retention: Retention, now: Time, row: Snapshot) {
    row.state == Superseded && row.supersededAt.Some? && now <= row.supersededAt.value + retention.superseded
  }

  /** At this time a superseded row, and then its objects, have had their full time. */
  predicate Outlasted(retention: Retention, row: Snapshot, at: Time) {
    row.state == Superseded && row.supersededAt.Some? ==>
      row.supersededAt.value + retention.superseded + retention.content < at
  }

  ghost predicate KeptComplete(
    retention: Retention, now: Time, rows: map<SnapshotId, Snapshot>, store: map<ObjectKey, Blob>)
  {
    forall s :: s in rows && Kept(retention, now, rows[s]) ==> Complete(store, rows[s])
  }

  /** Between its last check and its delete, a collector's key is named by no row that is kept. */
  ghost predicate KeptUnconfirmed(
    retention: Retention, now: Time, rows: map<SnapshotId, Snapshot>, collectors: map<CollectorId, Collector>)
  {
    forall c, s :: c in collectors && s in rows && collectors[c].phase == Confirmed && Kept(retention, now, rows[s]) ==>
                     !Refers(rows[s], KeyOf(collectors[c].target.mark))
  }

  ghost predicate MarksWait(retention: Retention, rows: map<SnapshotId, Snapshot>, marks: map<MarkKey, Mark>) {
    forall s, m :: s in rows && m in marks && Refers(rows[s], KeyOf(m)) ==>
                     Outlasted(retention, rows[s], marks[m].eligibleAt)
  }

  /** What a collector has listed, and what it works on. */
  function InHand(c: Collector): set<MarkRef> {
    if c.phase == Idle then c.worklist else c.worklist + {c.target}
  }

  ghost predicate ListsWait(
    retention: Retention, now: Time, rows: map<SnapshotId, Snapshot>, marks: map<MarkKey, Mark>,
    collectors: map<CollectorId, Collector>)
  {
    forall c, ref, s :: c in collectors && ref in InHand(collectors[c]) && AliveRef(marks, ref)
                        && s in rows && Refers(rows[s], KeyOf(ref.mark)) ==>
                          Outlasted(retention, rows[s], now)
  }

  ghost predicate GraceOk(
    retention: Retention, now: Time, rows: map<SnapshotId, Snapshot>, marks: map<MarkKey, Mark>,
    store: map<ObjectKey, Blob>, collectors: map<CollectorId, Collector>)
  {
    && KeptComplete(retention, now, rows, store) && KeptUnconfirmed(retention, now, rows, collectors)
    && MarksWait(retention, rows, marks) && ListsWait(retention, now, rows, marks, collectors)
  }

  ghost predicate GraceInv(w: World) {
    GraceOk(w.retention, w.now, w.snapshots, w.marks, w.store, w.collectors)
  }

  // ---------------------------------------------------------------- steps that neither mark nor collect

  /** A superseded row was superseded before, or it was READY. */
  ghost predicate SupersededFrame(rows: map<SnapshotId, Snapshot>, after: map<SnapshotId, Snapshot>) {
    forall s :: s in after && after[s].state == Superseded ==>
                  s in rows && after[s].files == rows[s].files && after[s].manifest == rows[s].manifest
                  && (rows[s].state == Ready || SameSettled(rows[s], after[s]))
  }

  ghost predicate MarksFewer(marks: map<MarkKey, Mark>, after: map<MarkKey, Mark>) {
    forall m :: m in after ==>
                  m in marks && after[m].eligibleAt == marks[m].eligibleAt && after[m].epoch == marks[m].epoch
  }

  /** No complete superseded row loses anything. */
  ghost predicate StoreKeeps(rows: map<SnapshotId, Snapshot>, store: map<ObjectKey, Blob>, after: map<ObjectKey, Blob>)
  {
    forall s :: s in rows && rows[s].state == Superseded && Complete(store, rows[s]) ==> Complete(after, rows[s])
  }

  lemma RowsKeepComplete(w: World, now: Time, rows: map<SnapshotId, Snapshot>, store: map<ObjectKey, Blob>)
    requires StoreInv(w) && GraceInv(w) && w.now <= now
    requires SupersededFrame(w.snapshots, rows) && StoreKeeps(rows, w.store, store)
    ensures KeptComplete(w.retention, now, rows, store)
  {
    hide HoldsAll, UploadsPresent, ConfirmedUnclaimed, KeptUnconfirmed, MarksWait, ListsWait;
    forall s | s in rows && Kept(w.retention, now, rows[s])
      ensures Complete(store, rows[s])
    {
      assert Complete(w.store, w.snapshots[s]);
    }
  }

  lemma SameReferences(a: Snapshot, b: Snapshot, key: ObjectKey)
    requires a.files == b.files && a.manifest == b.manifest
    ensures Refers(a, key) <==> Refers(b, key)
  {
  }

  lemma RowsKeepUnconfirmed(w: World, now: Time, rows: map<SnapshotId, Snapshot>)
    requires StoreInv(w) && GraceInv(w) && w.now <= now && SupersededFrame(w.snapshots, rows)
    ensures KeptUnconfirmed(w.retention, now, rows, w.collectors)
  {
    hide Refers, ReadyComplete, UploadsPresent, KeptComplete, MarksWait, ListsWait;
    forall c, s | c in w.collectors && s in rows && w.collectors[c].phase == Confirmed
                  && Kept(w.retention, now, rows[s])
      ensures !Refers(rows[s], KeyOf(w.collectors[c].target.mark))
    {
      SameReferences(w.snapshots[s], rows[s], KeyOf(w.collectors[c].target.mark));
      assert Claiming(w.snapshots[s]) || Kept(w.retention, w.now, w.snapshots[s]);
    }
  }

  /** A row that has just been READY has no mark on any of its keys. */
  lemma RowsKeepWaits(w: World, now: Time, rows: map<SnapshotId, Snapshot>, marks: map<MarkKey, Mark>)
    requires MarkInv(w) && GraceInv(w) && w.now <= now && SupersededFrame(w.snapshots, rows)
    requires MarksFewer(w.marks, marks)
    ensures MarksWait(w.retention, rows, marks) && ListsWait(w.retention, now, rows, marks, w.collectors)
  {
    hide Refers, PastEpochs, KeptComplete, KeptUnconfirmed;
    forall s, m | s in rows && m in marks && Refers(rows[s], KeyOf(m))
      ensures rows[s].state == Superseded ==> SameSettled(w.snapshots[s], rows[s])
      ensures Outlasted(w.retention, rows[s], marks[m].eligibleAt)
    {
      if rows[s].state == Superseded {
        SameReferences(w.snapshots[s], rows[s], KeyOf(m));
        assert !Claiming(w.snapshots[s]);
      }
    }
    forall c, ref, s | c in w.collectors && ref in InHand(w.collectors[c]) && AliveRef(marks, ref)
                       && s in rows && Refers(rows[s], KeyOf(ref.mark))
      ensures Outlasted(w.retention, rows[s], now)
    {
      if rows[s].state == Superseded {
        SameReferences(w.snapshots[s], rows[s], KeyOf(ref.mark));
        assert ref.mark in marks && AliveRef(w.marks, ref);
      }
    }
  }

  lemma RowsKeepGrace(
    w: World, now: Time, rows: map<SnapshotId, Snapshot>, marks: map<MarkKey, Mark>, store: map<ObjectKey, Blob>)
    requires CoreInv(w) && GraceInv(w) && w.now <= now
    requires SupersededFrame(w.snapshots, rows) && MarksFewer(w.marks, marks) && StoreKeeps(rows, w.store, store)
    ensures GraceOk(w.retention, now, rows, marks, store, w.collectors)
  {
    hide RowsInv, CasInv, StoreOk, MarksOk, SupersededFrame, MarksFewer, StoreKeeps, KeptComplete, KeptUnconfirmed,
      MarksWait, ListsWait;
    RowsKeepComplete(w, now, rows, store);
    RowsKeepUnconfirmed(w, now, rows);
    RowsKeepWaits(w, now, rows, marks);
  }

  lemma SettledIsSuperseded(rows: map<SnapshotId, Snapshot>, after: map<SnapshotId, Snapshot>)
    requires SettledFrame(rows, after)
    ensures SupersededFrame(rows, after)
  {
  }

  lemma Same(w: World, rows: map<SnapshotId, Snapshot>)
    ensures MarksFewer(w.marks, w.marks) && StoreKeeps(rows, w.store, w.store)
  {
    hide Complete;
  }

  /** The step moved rows, none of which settled. */
  lemma MovesKeepGrace(w: World, rows: map<SnapshotId, Snapshot>)
    requires CoreInv(w) && GraceInv(w) && SettledFrame(w.snapshots, rows)
    ensures GraceOk(w.retention, w.now, rows, w.marks, w.store, w.collectors)
  {
    hide CoreInv, GraceOk, SettledFrame, SupersededFrame, MarksFewer, StoreKeeps;
    SettledIsSuperseded(w.snapshots, rows);
    Same(w, rows);
    RowsKeepGrace(w, w.now, rows, w.marks, w.store);
  }

  // ---------------------------------------------------------------- uploads

  lemma ClaimKeepsGrace(w: World, s: SnapshotId, u: Uploader)
    requires CoreInv(w) && GraceInv(w) && (s in w.snapshots ==> !Settled(w.snapshots[s]))
    ensures GraceInv(AfterClaim(w, s, u))
  {
    hide CoreInv, GraceOk, SettledFrame, ClaimedRow;
    ClaimFrame(w, s, u);
    MovesKeepGrace(w, AfterClaim(w, s, u).snapshots);
  }

  lemma StagesKeepGrace(w: World, s: SnapshotId)
    requires CoreInv(w) && GraceInv(w) && s in w.uploaders
    ensures GraceInv(AfterClearRows(w, s)) && GraceInv(AfterStartHashing(w, s)) && GraceInv(AfterFail(w, s))
    ensures GraceInv(AfterStartVerifying(w, s))
  {
    hide CoreInv, GraceOk, SettledFrame, VerifyingRow;
    CoreRows(w);
    StageFrames(w, s);
    StartVerifyingFrame(w, s);
    MovesKeepGrace(w, AfterClearRows(w, s).snapshots);
    MovesKeepGrace(w, AfterStartHashing(w, s).snapshots);
    MovesKeepGrace(w, AfterFail(w, s).snapshots);
    MovesKeepGrace(w, AfterStartVerifying(w, s).snapshots);
  }

  lemma PrepareKeepsGrace(w: World, s: SnapshotId)
    requires CoreInv(w) && GraceInv(w) && CanPrepare(w, s)
    ensures GraceInv(AfterPrepare(w, s))
  {
    hide CoreInv, GraceOk, SettledFrame, SupersededFrame, StoreKeeps, UploadKey;
    var v := AfterPrepare(w, s);
    PrepareFrame(w, s);
    SettledIsSuperseded(w.snapshots, v.snapshots);
    Same(w, v.snapshots);
    RowsKeepGrace(w, w.now, v.snapshots, v.marks, w.store);
  }

  lemma RecordKeepsGrace(w: World, s: SnapshotId, path: RelPath)
    requires CoreInv(w) && GraceInv(w) && CanRecord(w, s, path)
    ensures GraceInv(AfterRecord(w, s, path))
  {
    hide CoreInv, GraceOk, SettledFrame;
    CoreRows(w);
    RecordFrame(w, s, path);
    MovesKeepGrace(w, AfterRecord(w, s, path).snapshots);
  }

  lemma FinalizedFrame(w: World, s: SnapshotId)
    requires CanFinalize(w, s)
    ensures SupersededFrame(w.snapshots, FinalizedRows(w, s))
  {
  }

  lemma FinalizeKeepsGrace(w: World, s: SnapshotId)
    requires CoreInv(w) && GraceInv(w) && CanFinalize(w, s)
    ensures GraceInv(AfterFinalize(w, s))
  {
    hide CoreInv, GraceOk, SupersededFrame, MarksFewer, StoreKeeps, FinalizedRows, ClearedProblems;
    FinalizedFrame(w, s);
    Same(w, FinalizedRows(w, s));
    RowsKeepGrace(w, w.now, FinalizedRows(w, s), w.marks, w.store);
  }

  /** Objects are only ever added, and under their digest. */
  lemma PlaceKeepsComplete(w: World, s: SnapshotId, path: RelPath)
    requires CanPlace(w, s, path)
    ensures StoreKeeps(w.snapshots, w.store, AfterPlace(w, s, path).store)
  {
    var v := AfterPlace(w, s, path);
    assert forall key :: key in w.store ==> key in v.store && v.store[key] == w.store[key];
  }

  /** The manifest that an upload writes is its own row's. */
  lemma ManifestKeepsComplete(w: World, s: SnapshotId)
    requires RowsInv(w) && AtStage(w, s, VerifyingFiles)
    ensures StoreKeeps(w.snapshots, w.store, AfterPutManifest(w, s).store)
  {
    hide HoldsAll;
    var u := w.uploaders[s];
    var key := ManifestAt(u.problem, u.generation);
    forall t | t in w.snapshots && w.snapshots[t].state == Superseded && Complete(w.store, w.snapshots[t])
      ensures Complete(AfterPutManifest(w, s).store, w.snapshots[t])
    {
      OtherGeneration(w, s, t);
      var row := w.snapshots[t];
      ManifestHoldsAll(w.store, key, ManifestDoc(u.scan, u.repeats), row.files, row.files.Keys);
    }
  }

  lemma OtherGeneration(w: World, s: SnapshotId, t: SnapshotId)
    requires RowsInv(w) && s in w.uploaders && t in w.snapshots && w.snapshots[t].state == Superseded
    ensures w.snapshots[t].manifest.Some? ==>
              w.snapshots[t].manifest.value != ManifestAt(w.uploaders[s].problem, w.uploaders[s].generation)
  {
    assert WellFormedRow(w.snapshots[t]);
    assert Uploads(w.uploaders[s], w.snapshots[t].problem, w.snapshots[t].generation) ==> s == t;
  }

  lemma PlaceKeepsGrace(w: World, s: SnapshotId, path: RelPath)
    requires CoreInv(w) && GraceInv(w) && CanPlace(w, s, path)
    ensures GraceInv(AfterPlace(w, s, path))
  {
    PlaceKeepsComplete(w, s, path);
    hide CoreInv, GraceOk, CanPlace;
    StoreKeepsGrace(w, AfterPlace(w, s, path).store);
  }

  lemma PutManifestKeepsGrace(w: World, s: SnapshotId)
    requires CoreInv(w) && GraceInv(w) && AtStage(w, s, VerifyingFiles)
    ensures GraceInv(AfterPutManifest(w, s))
  {
    hide CoreInv, GraceOk;
    CoreRows(w);
    ManifestKeepsComplete(w, s);
    StoreKeepsGrace(w, AfterPutManifest(w, s).store);
  }

  lemma StoreKeepsGrace(w: World, store: map<ObjectKey, Blob>)
    requires CoreInv(w) && GraceInv(w) && StoreKeeps(w.snapshots, w.store, store)
    ensures GraceOk(w.retention, w.now, w.snapshots, w.marks, store, w.collectors)
  {
    hide CoreInv, GraceOk, SettledFrame, SupersededFrame, MarksFewer, StoreKeeps;
    NoFrame(w.snapshots);
    SettledIsSuperseded(w.snapshots, w.snapshots);
    Same(w, w.snapshots);
    RowsKeepGrace(w, w.now, w.snapshots, w.marks, store);
  }

  lemma UploadKeepsGrace(w: World, step: UploadStep)
    requires CoreInv(w) && GraceInv(w)
    ensures GraceInv(AfterUpload(w, step))
  {
    hide CoreInv, GraceOk, AfterClaim, AfterPrepare, AfterFinalize, AfterRecord, AfterClearRows, AfterStartHashing,
      AfterStartVerifying, AfterFail, AfterPlace, AfterPutManifest, ClaimedId, CanRecord, CanPlace, CanFinalize,
      CanPrepare;
    CoreRows(w);
    match step
    case Claim(p, generation, token, expected, canonical, links, repeats, scan) =>
      if CanClaim(w, p, generation, token) {
        ClaimReusesUnsettled(w, p, generation, token);
        ClaimKeepsGrace(w, ClaimedId(w, p, generation),
                        Uploader(p, generation, token, expected, canonical, links, repeats, scan, Claimed));
      }
    case ClearRows(s) => if AtStage(w, s, Claimed) { StagesKeepGrace(w, s); }
    case StartHashing(s) => if AtStage(w, s, RowsCleared) { StagesKeepGrace(w, s); }
    case Prepare(s) => if CanPrepare(w, s) { PrepareKeepsGrace(w, s); }
    case Place(s, path) => if CanPlace(w, s, path) { PlaceKeepsGrace(w, s, path); }
    case Record(s, path) => if CanRecord(w, s, path) { RecordKeepsGrace(w, s, path); }
    case StartVerifying(s) => if CanStartVerifying(w, s) { StagesKeepGrace(w, s); }
    case PutManifest(s) => if AtStage(w, s, VerifyingFiles) { PutManifestKeepsGrace(w, s); }
    case Finalize(s) => if CanFinalize(w, s) { FinalizeKeepsGrace(w, s); }
    case Fail(s) => if s in w.uploaders { StagesKeepGrace(w, s); }
    case Crash(s) =>
  }

  // ---------------------------------------------------------------- collectors

  lemma CollectorMoves(w: World, c: CollectorId, d: Collector)
    requires GraceInv(w)
    requires d.phase == Confirmed ==> forall s :: s in w.snapshots && Kept(w.retention, w.now, w.snapshots[s]) ==>
               !Refers(w.snapshots[s], KeyOf(d.target.mark))
    requires forall ref :: ref in InHand(d) && AliveRef(w.marks, ref) ==>
               (c in w.collectors && ref in InHand(w.collectors[c])) || w.marks[ref.mark].eligibleAt <= w.now
    ensures GraceOk(w.retention, w.now, w.snapshots, w.marks, w.store, w.collectors[c := d])
  {
    hide Refers, Complete;
  }

  lemma ConfirmKeepsGrace(w: World, c: CollectorId)
    requires GraceInv(w) && CanCheck(w, c, Cleared)
    ensures GraceInv(SetPhase(w, c, Confirmed))
  {
    hide GraceOk, Refers;
    forall s | s in w.snapshots && Kept(w.retention, w.now, w.snapshots[s])
      ensures !Refers(w.snapshots[s], KeyOf(w.collectors[c].target.mark))
    {
      assert Protected(w.retention, w.now, w.snapshots[s]);
    }
    CollectorMoves(w, c, w.collectors[c].(phase := Confirmed));
  }

  /** The delete hits nothing that a kept row names. */
  lemma EraseKeepsGrace(w: World, c: CollectorId)
    requires GraceInv(w) && AtPhase(w, c, Confirmed)
    ensures GraceInv(AfterErase(w, c))
  {
    hide MarksWait, ListsWait, HoldsAll, Refers;
    var key := Target(w, c);
    var v := w.(store := w.store - {key});
    forall s | s in w.snapshots && Kept(w.retention, w.now, w.snapshots[s])
      ensures Complete(v.store, w.snapshots[s])
    {
      UnreferencedSurvives(w, s, key, w.snapshots[s].files, w.snapshots[s].files.Keys);
    }
    CollectorMoves(v, c, w.collectors[c].(phase := Erased));
  }

  lemma DeferKeepsGrace(w: World, c: CollectorId, ref: MarkRef, until: Time)
    requires GraceInv(w) && CanDefer(w, c, ref, until)
    ensures GraceInv(AfterDefer(w, ref.mark, until))
  {
    hide Refers, Complete;
    assert ref in InHand(w.collectors[c]);
  }

  lemma MarkCollectedKeepsGrace(w: World, c: CollectorId)
    requires GraceInv(w) && AtPhase(w, c, Gone)
    ensures GraceInv(AfterMarkCollected(w, c))
  {
    hide Refers, Complete;
  }

  lemma CollectKeepsGrace(w: World, step: CollectStep)
    requires GraceInv(w)
    ensures GraceInv(AfterCollect(w, step))
  {
    hide GraceOk, LiveRef, KeyLocked, AfterErase, AfterMarkCollected, AfterDefer, CanDefer;
    match step
    case ListEligible(c, refs) =>
      if CanList(w, c, refs) { CollectorMoves(w, c, Collector(refs, Idle, MarkRef(ContentMark(Digest([])), 0))); }
    case LockKey(c, ref) =>
      if CanLock(w, c, ref) { CollectorMoves(w, c, w.collectors[c].(phase := Locked, target := ref)); }
    case FirstCheck(c) =>
      if CanCheck(w, c, Locked) { CollectorMoves(w, c, w.collectors[c].(phase := Cleared)); }
    case SecondCheck(c) => if CanCheck(w, c, Cleared) { ConfirmKeepsGrace(w, c); }
    case Erase(c) => if AtPhase(w, c, Confirmed) { EraseKeepsGrace(w, c); }
    case SeeAbsent(c) => if CanSeeAbsent(w, c) { CollectorMoves(w, c, w.collectors[c].(phase := Gone)); }
    case ThirdCheck(c) => if CanCheck(w, c, Erased) { CollectorMoves(w, c, w.collectors[c].(phase := Gone)); }
    case Release(c) => if c in w.collectors { CollectorMoves(w, c, w.collectors[c].(phase := Idle)); }
    case MarkCollected(c) => if AtPhase(w, c, Gone) { MarkCollectedKeepsGrace(w, c); }
    case Defer(c, ref, until) => if CanDefer(w, c, ref, until) { DeferKeepsGrace(w, c, ref, until); }
  }

  // ---------------------------------------------------------------- tables

  lemma PruneKeepsGrace(w: World)
    requires CoreInv(w) && GraceInv(w)
    ensures GraceInv(AfterPrune(w))
  {
    hide CoreInv, GraceOk, SettledFrame, SupersededFrame, StoreKeeps, Prunable;
    var v := AfterPrune(w);
    ReadyCas.PruneFrame(w);
    SettledIsSuperseded(w.snapshots, v.snapshots);
    Same(w, v.snapshots);
    RowsKeepGrace(w, w.now, v.snapshots, v.marks, w.store);
  }

  lemma SweepKeepsGrace(w: World)
    requires CoreInv(w) && GraceInv(w)
    ensures GraceInv(AfterSweep(w))
  {
    hide CoreInv, GraceOk, SettledFrame;
    SweepFrame(w);
    MovesKeepGrace(w, AfterSweep(w).snapshots);
  }

  lemma TickKeepsGrace(w: World, seconds: nat)
    requires CoreInv(w) && GraceInv(w)
    ensures GraceInv(w.(now := w.now + seconds))
  {
    hide CoreInv, GraceOk, SettledFrame, SupersededFrame, MarksFewer, StoreKeeps;
    NoFrame(w.snapshots);
    SettledIsSuperseded(w.snapshots, w.snapshots);
    Same(w, w.snapshots);
    RowsKeepGrace(w, w.now + seconds, w.snapshots, w.marks, w.store);
  }

  /** A mark is new, or its row was reset, only if no row that is kept names its key. */
  lemma MarkKeepsGrace(w: World)
    requires RowsInv(w) && MarkInv(w) && GraceInv(w)
    ensures GraceInv(AfterMark(w))
  {
    hide Refers, Complete, ProposedMarks, Owner, Identities, UploadersFit, Unmarked;
    var v := AfterMark(w);
    forall s, m | s in v.snapshots && m in v.marks && Refers(v.snapshots[s], KeyOf(m))
      ensures Outlasted(v.retention, v.snapshots[s], v.marks[m].eligibleAt)
    {
      if Written(w, m) {
        ProposedUnreferenced(w, m);
        assert !Protected(w.retention, w.now, w.snapshots[s]);
      }
    }
    forall c, ref, s | c in v.collectors && ref in InHand(v.collectors[c]) && AliveRef(v.marks, ref)
                       && s in v.snapshots && Refers(v.snapshots[s], KeyOf(ref.mark))
      ensures Outlasted(v.retention, v.snapshots[s], v.now)
    {
      assert ref.epoch < w.epoch;
      assert AliveRef(w.marks, ref);
    }
  }

  lemma TableKeepsGrace(w: World, step: TableStep)
    requires CoreInv(w) && GraceInv(w)
    ensures GraceInv(AfterTable(w, step))
  {
    hide CoreInv, GraceOk, AfterSweep, AfterPrune, AfterMark, AfterJob, CanWork, CanHeal, CanVerifyLocal, HasNoReady;
    match step
    case Tick(seconds) => TickKeepsGrace(w, seconds);
    case SweepStalled => SweepKeepsGrace(w);
    case Retain =>
      PruneKeepsGrace(w);
      PrunedRows(w);
      MarkKeepsGrace(AfterPrune(w));
    case _ =>
  }

  lemma PrunedRows(w: World)
    requires CoreInv(w)
    ensures RowsInv(AfterPrune(w)) && MarkInv(AfterPrune(w))
  {
    hide Identities, StoreInv, MarkInv, CasInv, Prunable;
    ShrinkingKeepsIdentities(w, AfterPrune(w));
    PruneKeepsMarks(w);
  }

  lemma FolderKeepsGrace(w: World, step: FolderStep)
    requires GraceInv(w)
    ensures GraceInv(AfterFolder(w, step))
  {
    hide GraceOk, CanEvict, CanPublish, CanDownload;
  }

  lemma StepKeepsGrace(w: World, step: Step)
    requires CoreInv(w) && GraceInv(w)
    ensures GraceInv(After(w, step))
  {
    hide CoreInv, GraceOk, AfterUpload, AfterCollect, AfterFolder, AfterTable;
    match step
    case Upload(upload) => UploadKeepsGrace(w, upload);
    case Collect(collect) => CollectKeepsGrace(w, collect);
    case Folder(folder) => FolderKeepsGrace(w, folder);
    case Table(table) => TableKeepsGrace(w, table);
  }

  // ---------------------------------------------------------------- what becomes of READY rows

  /** A READY row stays, or is superseded now; a superseded row stays as it is until its time is up. */
  ghost predicate RowsLast(
    retention: Retention, now: Time, rows: map<SnapshotId, Snapshot>, next: SnapshotId,
    keeping: Retention, later: Time, after: map<SnapshotId, Snapshot>, afterNext: SnapshotId)
  {
    && keeping == retention && now <= later && next <= afterNext
    && (forall s :: s in after && s < next ==> s in rows)
    && (forall s :: s in rows && rows[s].state == Ready ==>
          s in after && SameContents(rows[s], after[s])
          && (after[s].state == Ready || (after[s].state == Superseded && after[s].supersededAt == Some(now))))
    && (forall s :: s in rows && s in after && rows[s].state == Superseded ==> SameSettled(rows[s], after[s]))
    && (forall s :: s in rows && Kept(retention, now, rows[s]) ==> s in after)
  }

  ghost predicate StepLasts(w: World, v: World) {
    RowsLast(w.retention, w.now, w.snapshots, w.nextSnapshot, v.retention, v.now, v.snapshots, v.nextSnapshot)
  }

  lemma SettledLast(w: World, after: map<SnapshotId, Snapshot>, next: SnapshotId)
    requires SettledFrame(w.snapshots, after) && w.nextSnapshot <= next
    requires forall s :: s in after && s < w.nextSnapshot ==> s in w.snapshots
    requires forall s :: s in w.snapshots && Kept(w.retention, w.now, w.snapshots[s]) ==> s in after
    ensures RowsLast(w.retention, w.now, w.snapshots, w.nextSnapshot, w.retention, w.now, after, next)
  {
  }

  lemma NothingLasts(w: World)
    ensures StepLasts(w, w)
  {
  }

  lemma ClaimLasts(w: World, p: ProblemId, generation: int, token: int, u: Uploader)
    requires RowsInv(w) && CanClaim(w, p, generation, token) && u.problem == p && u.generation == generation
    ensures StepLasts(w, AfterClaim(w, ClaimedId(w, p, generation), u))
  {
    hide RowsOk, SettledFrame, CanClaim, RowsLast;
    ClaimReusesUnsettled(w, p, generation, token);
    ClaimedIdSpec(w, p, generation);
    var s := ClaimedId(w, p, generation);
    ClaimFrame(w, s, u);
    IdsBelow(w);
    SettledLast(w, AfterClaim(w, s, u).snapshots, AfterClaim(w, s, u).nextSnapshot);
  }

  lemma IdsBelow(w: World)
    requires RowsInv(w)
    ensures forall s :: s in w.snapshots ==> s < w.nextSnapshot
  {
    hide WellFormedRows, UploadersFit;
  }

  /** An upload moves its own row, which has not settled. */
  lemma OwnRowLasts(w: World, s: SnapshotId, row: Snapshot)
    requires s in w.snapshots && !Settled(w.snapshots[s]) && !Settled(row)
    ensures RowsLast(w.retention, w.now, w.snapshots, w.nextSnapshot, w.retention, w.now, w.snapshots[s := row],
                     w.nextSnapshot)
  {
  }

  lemma StagesLast(w: World, s: SnapshotId)
    requires RowsInv(w) && s in w.uploaders
    ensures StepLasts(w, AfterClearRows(w, s)) && StepLasts(w, AfterStartHashing(w, s)) && StepLasts(w, AfterFail(w, s))
    ensures StepLasts(w, AfterStartVerifying(w, s))
  {
    hide RowsOk, RowsLast;
    NothingLasts(w);
    if s in w.snapshots {
      var row := w.snapshots[s];
      OwnRowUnsettled(w, s);
      OwnRowLasts(w, s, row.(files := map[], verified := {}));
      OwnRowLasts(w, s, row.(state := Hashing));
      OwnRowLasts(w, s, row.(state := Error, completedAt := Some(w.now)));
      OwnRowLasts(w, s, VerifyingRow(row));
    }
  }

  lemma FilesLast(w: World, s: SnapshotId, path: RelPath)
    requires RowsInv(w)
    ensures CanPrepare(w, s) ==> StepLasts(w, AfterPrepare(w, s))
    ensures CanRecord(w, s, path) ==> StepLasts(w, AfterRecord(w, s, path))
  {
    hide RowsOk, SettledFrame, RowsLast, Unclaimed;
    if CanPrepare(w, s) {
      PrepareFrame(w, s);
      SettledLast(w, AfterPrepare(w, s).snapshots, w.nextSnapshot);
    }
    if CanRecord(w, s, path) {
      RecordFrame(w, s, path);
      SettledLast(w, AfterRecord(w, s, path).snapshots, w.nextSnapshot);
    }
  }

  /** The final transaction supersedes at its own time. */
  lemma FinalizeLasts(w: World, s: SnapshotId)
    requires CanFinalize(w, s)
    ensures StepLasts(w, AfterFinalize(w, s))
  {
    FinalizedRowsLast(w, s);
    hide RowsLast, FinalizedRows, ClearedProblems;
  }

  lemma FinalizedRowsLast(w: World, s: SnapshotId)
    requires CanFinalize(w, s)
    ensures RowsLast(w.retention, w.now, w.snapshots, w.nextSnapshot, w.retention, w.now, FinalizedRows(w, s),
                     w.nextSnapshot)
  {
  }

  lemma UploadLasts(w: World, step: UploadStep)
    requires RowsInv(w)
    ensures StepLasts(w, AfterUpload(w, step))
  {
    hide RowsOk, RowsLast, AfterClaim, AfterPrepare, AfterFinalize, AfterRecord, AfterClearRows, AfterStartHashing,
      AfterStartVerifying, AfterFail, ClaimedId, CanRecord, CanPlace, CanFinalize, CanPrepare, CanClaim;
    NothingLasts(w);
    match step
    case Claim(p, generation, token, expected, canonical, links, repeats, scan) =>
      if CanClaim(w, p, generation, token) {
        ClaimLasts(w, p, generation, token,
                   Uploader(p, generation, token, expected, canonical, links, repeats, scan, Claimed));
      }
    case ClearRows(s) => if AtStage(w, s, Claimed) { StagesLast(w, s); }
    case StartHashing(s) => if AtStage(w, s, RowsCleared) { StagesLast(w, s); }
    case Prepare(s) => FilesLast(w, s, "");
    case Record(s, path) => FilesLast(w, s, path);
    case StartVerifying(s) => if CanStartVerifying(w, s) { StagesLast(w, s); }
    case Finalize(s) => if CanFinalize(w, s) { FinalizeLasts(w, s); }
    case Fail(s) => if s in w.uploaders { StagesLast(w, s); }
    case _ =>
  }

  /** Retention deletes expired rows only, and a row that is kept is not. */
  lemma RetainLasts(w: World)
    ensures StepLasts(w, AfterRetain(w))
  {
    hide CollectedMark, OtherLiveRef, AfterMark, SettledFrame, RowsLast;
    MarkedRows(AfterPrune(w));
    ReadyCas.PruneFrame(w);
    SettledLast(w, AfterPrune(w).snapshots, w.nextSnapshot);
  }

  lemma MarkedRows(w: World)
    ensures AfterMark(w).snapshots == w.snapshots && AfterMark(w).nextSnapshot == w.nextSnapshot
    ensures AfterMark(w).retention == w.retention && AfterMark(w).now == w.now
  {
    hide ProposedMarks, Written, Owner;
  }

  lemma SweepLasts(w: World)
    ensures StepLasts(w, AfterSweep(w))
  {
    hide SettledFrame, RowsLast;
    SweepFrame(w);
    SettledLast(w, AfterSweep(w).snapshots, w.nextSnapshot);
  }

  lemma CollectLasts(w: World, step: CollectStep)
    ensures StepLasts(w, AfterCollect(w, step))
  {
    hide RowsLast, LiveRef, KeyLocked, CanList;
    NothingLasts(w);
  }

  lemma FolderLasts(w: World, step: FolderStep)
    ensures StepLasts(w, AfterFolder(w, step))
  {
    hide RowsLast, CanEvict, CanPublish, CanDownload;
    NothingLasts(w);
  }

  lemma TickLasts(w: World, seconds: nat)
    ensures StepLasts(w, w.(now := w.now + seconds))
  {
  }

  lemma TableLasts(w: World, step: TableStep)
    ensures StepLasts(w, AfterTable(w, step))
  {
    hide StepLasts, AfterSweep, AfterRetain, AfterJob, CanWork, CanHeal, CanVerifyLocal, HasNoReady, AfterAdd,
      AfterMarkDirty, AfterSetDirty, AfterHeal, AfterVerifyLocal, AfterWork;
    match step
    case Tick(seconds) => TickLasts(w, seconds);
    case SweepStalled => SweepLasts(w);
    case Retain => RetainLasts(w);
    case _ => OthersLast(w, step);
  }

  lemma OthersLast(w: World, step: TableStep)
    requires !step.Tick? && !step.SweepStalled? && !step.Retain?
    ensures StepLasts(w, AfterTable(w, step))
  {
    hide RowsLast, AfterSweep, AfterRetain, AfterJob, CanWork, CanHeal, CanVerifyLocal, HasNoReady;
    NothingLasts(w);
  }

  lemma StepLastsAnyway(w: World, step: Step)
    requires RowsInv(w)
    ensures StepLasts(w, After(w, step))
  {
    hide RowsOk, StepLasts, AfterUpload, AfterCollect, AfterFolder, AfterTable;
    match step
    case Upload(upload) => UploadLasts(w, upload);
    case Collect(collect) => CollectLasts(w, collect);
    case Folder(folder) => FolderLasts(w, folder);
    case Table(table) => TableLasts(w, table);
  }

  // ---------------------------------------------------------------- over whole runs

  /** Row `s`, if it is there, is the READY row it was, or was superseded no earlier than `since`. */
  ghost predicate WasReady(w: World, s: SnapshotId, since: Time, row: Snapshot) {
    && s < w.nextSnapshot && since <= w.now
    && (s in w.snapshots ==>
          && SameContents(row, w.snapshots[s])
          && (w.snapshots[s].state == Ready
              || (w.snapshots[s].state == Superseded && w.snapshots[s].supersededAt.Some?
                  && since <= w.snapshots[s].supersededAt.value)))
  }

  lemma StepRemembers(w: World, v: World, s: SnapshotId, since: Time, row: Snapshot)
    requires StepLasts(w, v) && WasReady(w, s, since, row)
    ensures WasReady(v, s, since, row) && w.now <= v.now && v.retention == w.retention
    ensures s in w.snapshots && v.now <= since + v.retention.superseded ==> s in v.snapshots
  {
  }

  lemma InitGrace(retention: Retention, now: Time)
    ensures CoreInv(Init(retention, now)) && GraceInv(Init(retention, now))
  {
  }

  lemma SameRetention(w: World, v: World)
    requires StepLasts(w, v)
    ensures v.retention == w.retention
  {
  }

  lemma {:induction false} RunKeepsGrace(w: World, run: seq<Step>)
    requires CoreInv(w) && GraceInv(w) && RunInTurn(w, run)
    ensures CoreInv(Exec(w, run)) && GraceInv(Exec(w, run)) && Exec(w, run).retention == w.retention
    decreases |run|
  {
    hide CoreInv, GraceInv, After, InTurn, StepLasts;
    if run != [] {
      StepKeepsCore(w, run[0]);
      StepKeepsGrace(w, run[0]);
      CoreRows(w);
      StepLastsAnyway(w, run[0]);
      SameRetention(w, After(w, run[0]));
      RunKeepsGrace(After(w, run[0]), run[1..]);
    }
  }

  lemma {:induction false} RunRemembers(w: World, run: seq<Step>, s: SnapshotId, since: Time, row: Snapshot)
    requires CoreInv(w) && RunInTurn(w, run) && WasReady(w, s, since, row)
    ensures var v := Exec(w, run);
            && WasReady(v, s, since, row) && w.now <= v.now && v.retention == w.retention
            && (s in w.snapshots && v.now <= since + v.retention.superseded ==> s in v.snapshots)
    decreases |run|
  {
    hide CoreInv, WasReady, After, InTurn, StepLasts;
    if run != [] {
      var u := After(w, run[0]);
      CoreRows(w);
      StepKeepsCore(w, run[0]);
      StepLastsAnyway(w, run[0]);
      StepRemembers(w, u, s, since, row);
      RunRemembers(u, run[1..], s, since, row);
    }
  }

  lemma ReadyIsRemembered(w: World, s: SnapshotId)
    requires CoreInv(w) && s in w.snapshots && w.snapshots[s].state == Ready
    ensures WasReady(w, s, w.now, w.snapshots[s])
  {
    hide RowsInv, StoreInv, MarkInv, CasInv;
    CoreRows(w);
    IdsBelow(w);
  }

  /** What is known of a row that was READY after `before`, once `more` has happened. */
  lemma Remembered(retention: Retention, now: Time, before: seq<Step>, more: seq<Step>, s: SnapshotId)
    requires RunInTurn(Init(retention, now), before) && RunInTurn(Exec(Init(retention, now), before), more)
    requires var w := Exec(Init(retention, now), before); s in w.snapshots && w.snapshots[s].state == Ready
    ensures var w := Exec(Init(retention, now), before);
            var v := Exec(w, more);
            && CoreInv(v) && GraceInv(v) && WasReady(v, s, w.now, w.snapshots[s]) && v.retention == retention
            && (v.now <= w.now + retention.superseded ==> s in v.snapshots)
  {
    hide CoreInv, GraceInv, Exec, RunInTurn, WasReady;
    InitGrace(retention, now);
    RunKeepsGrace(Init(retention, now), before);
    var w := Exec(Init(retention, now), before);
    ReadyIsRemembered(w, s);
    RunKeepsGrace(w, more);
    RunRemembers(w, more, s, w.now, w.snapshots[s]);
  }

  lemma KeptIsComplete(w: World, s: SnapshotId, since: Time, row: Snapshot)
    requires CoreInv(w) && GraceInv(w) && WasReady(w, s, since, row) && s in w.snapshots
    requires w.now <= since + w.retention.superseded
    ensures Complete(w.store, w.snapshots[s])
  {
    hide RowsInv, MarkInv, CasInv, ContentIntact, UploadsPresent, ConfirmedUnclaimed, Complete, KeptUnconfirmed,
      MarksWait, ListsWait;
  }

  /**
   A snapshot that is READY at some time can be restored for as long after it as superseded snapshots are kept: its row
   is there with the same files, and everything it names is in the store.
   */
  lemma SnapshotsAreKept(retention: Retention, now: Time, before: seq<Step>, more: seq<Step>, s: SnapshotId)
    requires RunInTurn(Init(retention, now), before) && RunInTurn(Exec(Init(retention, now), before), more)
    requires var w := Exec(Init(retention, now), before); s in w.snapshots && w.snapshots[s].state == Ready
    requires var w := Exec(Init(retention, now), before); Exec(w, more).now <= w.now + retention.superseded
    ensures var w := Exec(Init(retention, now), before);
            var v := Exec(w, more);
            s in v.snapshots && SameContents(w.snapshots[s], v.snapshots[s]) && Complete(v.store, v.snapshots[s])
  {
    hide CoreInv, GraceInv, Exec, RunInTurn, Complete;
    Remembered(retention, now, before, more, s);
    var w := Exec(Init(retention, now), before);
    KeptIsComplete(Exec(w, more), s, w.now, w.snapshots[s]);
  }

  lemma ConfirmedIsLate(w: World, s: SnapshotId, c: CollectorId, since: Time, row: Snapshot)
    requires CoreInv(w) && GraceInv(w) && WasReady(w, s, since, row) && s in w.snapshots
    requires AtPhase(w, c, Confirmed) && Refers(w.snapshots[s], Target(w, c))
    ensures since + w.retention.superseded < w.now
    ensures AliveRef(w.marks, w.collectors[c].target) ==> since + w.retention.superseded + w.retention.content < w.now
  {
    hide RowsInv, MarkInv, CasInv, ContentIntact, UploadsPresent, ReadyComplete, KeptComplete, MarksWait, Refers;
    assert w.snapshots[s].state == Superseded;
    assert w.collectors[c].target in InHand(w.collectors[c]);
  }

  /**
   A collector that is about to delete what such a snapshot names comes after that time; and if the mark that it listed
   is still there, after the grace period of marks on top of it.
   */
  lemma DeletionsWait(
    retention: Retention, now: Time, before: seq<Step>, more: seq<Step>, s: SnapshotId, c: CollectorId)
    requires RunInTurn(Init(retention, now), before) && RunInTurn(Exec(Init(retention, now), before), more)
    requires var w := Exec(Init(retention, now), before); s in w.snapshots && w.snapshots[s].state == Ready
    requires var v := Exec(Exec(Init(retention, now), before), more);
             AtPhase(v, c, Confirmed) && s in v.snapshots && Refers(v.snapshots[s], Target(v, c))
    ensures var w := Exec(Init(retention, now), before);
            var v := Exec(w, more);
            && w.now + retention.superseded < v.now
            && (AliveRef(v.marks, v.collectors[c].target) ==> w.now + retention.superseded + retention.content < v.now)
  {
    hide CoreInv, GraceInv, Exec, RunInTurn, WasReady;
    Remembered(retention, now, before, more, s);
    var w := Exec(Init(retention, now), before);
    ConfirmedIsLate(Exec(w, more), s, c, w.now, w.snapshots[s]);
  }
}
