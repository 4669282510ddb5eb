/**
 Where the general claim about collected marks fails: an upload that lost its row to the stall sweep
 keeps on putting objects, and nothing stops it from putting one that has been marked collected.
 The run below ends with the last metadata about a stored object deleted.
 */
module LostClaims {
  import opened Common
  import opened JobLeases
  import opened Storage
  import opened SnapshotRows
  import opened GcMarks
  import opened RetentionRun
  import opened LocalCopies
  import opened Runs
  import opened CollectedMarks
  import opened SampleRuns

  // ---------------------------------------------------------------- a collector at work

  lemma ListsAndLocks(w: World, c: CollectorId, ref: MarkRef)
    requires Reachable(true, w) && Eligible(w, ref) && c !in w.collectors && !KeyLocked(w, KeyOf(ref.mark))
    ensures Reachable(true, w.(collectors := w.collectors[c := Collector({ref}, Locked, ref)]))
  {
    hide Reachable, LiveRef, Eligible;
    Extend(true, w, Collect(ListEligible(c, {ref})));
    var w1 := AfterList(w, c, {ref});
    assert CanList(w, c, {ref});
    Extend(true, w1, Collect(LockKey(c, ref)));
    assert CanLock(w1, c, ref);
    var w2 := AfterLock(w1, c, ref);
    assert w2.collectors == w.collectors[c := Collector({ref}, Locked, ref)];
  }

  lemma SeesAbsent(w: World, c: CollectorId)
    requires Reachable(true, w) && CanCheck(w, c, Locked) && Target(w, c) !in w.store
    ensures Reachable(true, SetPhase(w, c, Gone))
  {
    hide Reachable, LiveRef;
    Extend(true, w, Collect(FirstCheck(c)));
    var w1 := SetPhase(w, c, Cleared);
    Extend(true, w1, Collect(SeeAbsent(c)));
    assert CanSeeAbsent(w1, c);
    assert SetPhase(w1, c, Gone).collectors == SetPhase(w, c, Gone).collectors;
  }

  /** One collector, working alone, marks an eligible mark whose object is not in the store. */
  lemma CollectsAbsent(w: World, c: CollectorId, ref: MarkRef)
    requires Reachable(true, w) && Eligible(w, ref) && c !in w.collectors && !KeyLocked(w, KeyOf(ref.mark))
    requires KeyOf(ref.mark) !in w.store
    ensures Reachable(true, w.(marks := w.marks[ref.mark := w.marks[ref.mark].(collected := true)],
                                    collectors := w.collectors[c := Collector({ref}, Idle, ref)]))
  {
    hide Reachable, LiveRef, KeyLocked;
    ListsAndLocks(w, c, ref);
    var w1 := w.(collectors := w.collectors[c := Collector({ref}, Locked, ref)]);
    SameLive(w, w1, KeyOf(ref.mark));
    SeesAbsent(w1, c);
    var w2 := SetPhase(w1, c, Gone);
    Extend(true, w2, Collect(MarkCollected(c)));
    var w3 := AfterMarkCollected(w2, c);
    assert w3.collectors == w.collectors[c := Collector({ref}, Idle, ref)];
  }

  // ---------------------------------------------------------------- the run

  const UPLOAD: Sample := Sample(1, FIRST, false)

  /** One row, generation 1, and its upload, which still believes that it owns the row. */
  predicate OneUpload(w: World, state: SnapshotState) {
    && w.retention == DEFAULTS
    && w.snapshots.Keys == {0} && w.snapshots[0].state == state && w.snapshots[0].files == One(FIRST)
    && w.snapshots[0].manifest == Some(MANIFEST)
    && 0 in w.uploaders && w.uploaders[0] == Worker(UPLOAD, UploadingFiles({}, {}))
    && PROBLEM in w.folders && w.folders[PROBLEM] == One(FIRST)
    && w.store == map[]
  }

  lemma StartsUpload() returns (w: World)
    ensures Reachable(true, w) && Quiet(w, UPLOAD) && OnlyRow(w) && w.uploaders == map[] && w.store == map[]
  {
    hide Reachable, Passes, LeasesOk, Works, IsLeased;
    var w0 := Begins(true);
    w := Launches(true, w0, SnapshotOp);
  }

  lemma Prepares() returns (w: World)
    ensures Reachable(true, w) && OneUpload(w, SnapshotState.Uploading) && w.marks == map[] && w.collectors == map[]
  {
    hide Reachable, Passes;
    w := StartsUpload();
    w := ClaimsRow(true, w, UPLOAD);
    w := StartsHashing(true, w, UPLOAD);
    w := SampleRuns.Prepares(true, w, UPLOAD);
  }

  lemma Waits(w0: World, seconds: nat) returns (w: World)
    requires Reachable(true, w0)
    ensures Reachable(true, w) && w == w0.(now := w0.now + seconds)
  {
    hide Reachable;
    Extend(true, w0, Table(Tick(seconds)));
    w := w0.(now := w0.now + seconds);
  }

  lemma Sweeps(w0: World) returns (w: World)
    requires Reachable(true, w0) && OneUpload(w0, SnapshotState.Uploading) && Stalled(w0, w0.snapshots[0])
    ensures Reachable(true, w) && OneUpload(w, Error) && w.marks == w0.marks && w.collectors == w0.collectors
    ensures w.snapshots[0].completedAt == Some(w.now)
  {
    hide Reachable;
    Extend(true, w0, Table(SweepStalled));
    w := AfterSweep(w0);
  }

  lemma Stalls() returns (w: World)
    ensures Reachable(true, w) && OneUpload(w, Error) && w.marks == map[] && w.collectors == map[]
    ensures Expired(w.retention, w.now, w.snapshots[0])
  {
    hide Reachable;
    var w0 := Prepares();
    var age := w0.now - w0.snapshots[0].createdAt;
    var w1 := Waits(w0, STALLED_SECONDS + 1 + if age < 0 then -age else 0);
    var w2 := Sweeps(w1);
    w := Waits(w2, 7 * DAY + 1);
  }

  lemma NothingToPrune(w: World)
    requires OneUpload(w, Error) && w.marks == map[]
    ensures AfterPrune(w) == w
  {
    assert !CollectedMark(w.marks, MANIFEST) && !OtherLiveRef(w, 0, MANIFEST);
    assert !Prunable(w, 0);
    assert AfterPrune(w).snapshots == w.snapshots;
  }

  lemma BothProposed(w: World)
    requires OneUpload(w, Error) && Expired(w.retention, w.now, w.snapshots[0])
    ensures ContentMark(FIRST) in ProposedMarks(w) && ManifestMark(0, MANIFEST) in ProposedMarks(w)
    ensures !LiveRef(w, Content(FIRST)) && !LiveRef(w, MANIFEST)
  {
    assert PATH in One(FIRST) && One(FIRST)[PATH].sha == FIRST;
    assert Refers(w.snapshots[0], Content(FIRST)) && Refers(w.snapshots[0], MANIFEST);
    assert Content(FIRST) in ExpiredKeys(w) && MANIFEST in ExpiredKeys(w);
    assert 0 in Candidates(w, Content(FIRST)) && 0 in Candidates(w, MANIFEST);
    assert Representative(w, Content(FIRST)) == 0 && Representative(w, MANIFEST) == 0;
  }

  /** The mark is there and, `wait` seconds from now, eligible for collection. */
  predicate Collectable(w: World, m: MarkKey, wait: nat) {
    m in w.marks && Eligible(w.(now := w.now + wait), MarkRef(m, w.marks[m].epoch))
  }

  lemma ExpiredForGood(w: World, key: ObjectKey)
    requires OneUpload(w, Error) && Expired(w.retention, w.now, w.snapshots[0])
    ensures !LiveRef(w, key)
  {
  }

  lemma MarksBoth(w: World)
    requires OneUpload(w, Error) && Expired(w.retention, w.now, w.snapshots[0]) && w.marks == map[]
    ensures AfterMark(w) == w.(marks := AfterMark(w).marks, epoch := AfterMark(w).epoch)
    ensures Collectable(AfterMark(w), ContentMark(FIRST), 7 * DAY)
    ensures Collectable(AfterMark(w), ManifestMark(0, MANIFEST), 7 * DAY)
  {
    hide ProposedMarks, Refers, Owner, LiveRef;
    BothProposed(w);
    var v := AfterMark(w);
    var later := v.(now := v.now + 7 * DAY);
    ExpiredForGood(later, Content(FIRST));
    ExpiredForGood(later, MANIFEST);
  }

  /** The retention run keeps the row, whose keys nobody has collected, and marks them. */
  lemma Marks() returns (w: World)
    ensures Reachable(true, w) && OneUpload(w, Error) && w.collectors == map[]
    ensures Expired(w.retention, w.now, w.snapshots[0])
    ensures Collectable(w, ContentMark(FIRST), 0) && Collectable(w, ManifestMark(0, MANIFEST), 0)
  {
    hide Reachable, AfterMark, AfterPrune;
    var w0 := Stalls();
    Extend(true, w0, Table(Retain));
    NothingToPrune(w0);
    MarksBoth(w0);
    var w1 := AfterMark(w0);
    w := Waits(w1, 7 * DAY);
  }

  predicate Collected(w: World, m: MarkKey) {
    m in w.marks && w.marks[m].collected
  }

  /** Two collectors find neither key in the store and mark both. */
  lemma Collects() returns (w: World)
    ensures Reachable(true, w) && OneUpload(w, Error) && Expired(w.retention, w.now, w.snapshots[0])
    ensures Collected(w, ContentMark(FIRST)) && Collected(w, ManifestMark(0, MANIFEST))
  {
    hide Reachable;
    var w0 := Marks();
    var first, second := ContentMark(FIRST), ManifestMark(0, MANIFEST);
    assert w0.(now := w0.now + 0) == w0;
    CollectsAbsent(w0, 0, MarkRef(first, w0.marks[first].epoch));
    var w1 := w0.(marks := w0.marks[first := w0.marks[first].(collected := true)],
                  collectors := w0.collectors[0 := Collector({MarkRef(first, w0.marks[first].epoch)}, Idle,
                                                             MarkRef(first, w0.marks[first].epoch))]);
    SameLive(w0, w1, MANIFEST);
    CollectsAbsent(w1, 1, MarkRef(second, w1.marks[second].epoch));
    w := w1.(marks := w1.marks[second := w1.marks[second].(collected := true)],
             collectors := w1.collectors[1 := Collector({MarkRef(second, w1.marks[second].epoch)}, Idle,
                                                        MarkRef(second, w1.marks[second].epoch))]);
  }

  /** The upload wakes up and puts its object, although its row is in 'error' and the key's mark is collected. */
  lemma PutsLate() returns (w: World)
    ensures Reachable(true, w) && Content(FIRST) in w.store && w.snapshots.Keys == {0}
    ensures Refers(w.snapshots[0], Content(FIRST)) && w.snapshots[0].files == One(FIRST)
            && w.snapshots[0].manifest == Some(MANIFEST)
    ensures Expired(w.retention, w.now, w.snapshots[0])
    ensures CollectedMark(w.marks, Content(FIRST)) && CollectedMark(w.marks, MANIFEST)
  {
    hide Reachable;
    var w0 := Collects();
    Extend(true, w0, Upload(Place(0, PATH)));
    assert CanPlace(w0, 0, PATH);
    w := AfterPlace(w0, 0, PATH);
    assert PATH in w.snapshots[0].files;
  }

  lemma CollectedRowIsLost(w: World)
    requires w.snapshots.Keys == {0} && Expired(w.retention, w.now, w.snapshots[0]) && Content(FIRST) in w.store
    requires w.snapshots[0].files == One(FIRST) && w.snapshots[0].manifest == Some(MANIFEST)
    requires CollectedMark(w.marks, Content(FIRST)) && CollectedMark(w.marks, MANIFEST)
    ensures !MarksTrue(w) && !KeepsLast(w)
  {
    hide AfterRetain;
    assert PATH in w.snapshots[0].files;
    assert Prunable(w, 0) && Refers(w.snapshots[0], Content(FIRST)) && !LiveRef(w, Content(FIRST));
    RetentionKeepsLastExactly(w);
  }

  /** An orderly run from the start reaches a false collected mark, and retention loses a last reference. */
  lemma LatePutLosesLastReference()
    ensures exists run :: OrderlyRun(Init(DEFAULTS, 0), run) && !MarksTrue(Exec(Init(DEFAULTS, 0), run))
                          && !KeepsLast(Exec(Init(DEFAULTS, 0), run))
  {
    hide MarksTrue, KeepsLast, AllowedRun, OrderlyRun, Exec;
    var w := PutsLate();
    CollectedRowIsLost(w);
    var run :| AllowedRun(true, Init(DEFAULTS, 0), run) && Exec(Init(DEFAULTS, 0), run) == w;
    SparingIsOrderly(Init(DEFAULTS, 0), run);
  }
}
