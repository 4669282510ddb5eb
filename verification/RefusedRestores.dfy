/**
 An eviction asks whether the READY rows list the folder, not whether their manifest can be materialised.
 In the run below the upload finds two files that are reported under one path. One of them goes; the folder
 then equals the rows and is evicted; and the restore is refused, because the manifest lists the path twice.
 */
module RefusedRestores {
  import opened Common
  import opened JobLeases
  import opened Storage
  import opened SnapshotRows
  import opened LocalCopies
  import opened Runs
  import opened SampleRuns

  const TWICE: Sample := Sample(1, FIRST, true)

  lemma BecomesReady() returns (w: World)
    ensures Reachable(true, w) && Finished(w, TWICE) && Early(w) && AllDone(w.leases)
    ensures MANIFEST in w.store && w.store[MANIFEST].ManifestDoc? && w.store[MANIFEST].repeats
    ensures w.restores == map[] && Newest(w.leases, PROBLEM) == 1
  {
    hide Reachable, Passes, LeasesOk, Works;
    var w0 := Begins(true);
    var id := w0.leases.nextJob;
    var w1 := Launches(true, w0, SnapshotOp);
    var w2 := Uploads1(true, w1, TWICE);
    var w3 := Finishes(true, w2, TWICE);
    w := Closes(true, w3, id, SnapshotOp);
  }

  lemma IsEvicted() returns (w: World)
    ensures Reachable(true, w) && IsReady(w, PROBLEM, 0) && w.snapshots[0].generation == 1 && Early(w)
    ensures MANIFEST in w.store && w.store[MANIFEST].ManifestDoc? && w.store[MANIFEST].repeats
    ensures PROBLEM in w.evicted && w.restores == map[] && AllDone(w.leases) && Newest(w.leases, PROBLEM) == 2
  {
    hide Reachable, Passes, LeasesOk, Works;
    var w0 := BecomesReady();
    var id := w0.leases.nextJob;
    var w1 := Launches(true, w0, EvictOp);
    var w2 := Evicts(true, w1, TWICE, 2);
    w := Closes(true, w2, id, EvictOp);
  }

  /** An orderly run evicts a folder, and then a restore with the newest token cannot bring it back. */
  lemma EvictedAndRefused()
    ensures exists w, r, s ::
              && Reachable(true, w) && HasBegun(w, r) && w.restores[r].problem in w.evicted
              && IsReady(w, w.restores[r].problem, s) && Fresh(w, w.restores[r].problem, w.restores[r].token)
              && !CanFinish(w, r, s)
  {
    hide Reachable, Passes, LeasesOk, Works;
    var w0 := IsEvicted();
    var w1 := Launches(true, w0, RestoreOp);
    assert CanBegin(w1, 0, PROBLEM, 3);
    Extend(true, w1, Folder(BeginRestore(0, PROBLEM, 3)));
    var w := AfterBegin(w1, 0, PROBLEM, 3);
    assert !CanDownload(w, PROBLEM, 1);
    assert HasBegun(w, 0) && !CanFinish(w, 0, 0);
  }
}
