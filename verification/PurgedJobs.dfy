/**
 What goes wrong when a purge of old jobs does not spare the fence. In the run below a restore sleeps, after its
 download, for as long as closed jobs are kept. Meanwhile its problem gets a new READY snapshot and is evicted, under
 newer tokens; then the rows with these tokens are purged, and the restore wakes up and brings back files that were not
 the evicted ones.
 */
module PurgedJobs {
  import opened Common
  import opened JobLeases
  import opened Storage
  import opened SnapshotRows
  import opened LocalCopies
  import opened Runs
  import opened SampleRuns

  const SECOND: Digest := Digest("2")

  /** The two uploads of generation 1. */
  const EARLIER: Sample := Sample(1, FIRST, false)
  const LATER: Sample := Sample(3, SECOND, false)

  const STAGED: map<RestoreId, Restore> := map[0 := Staged(PROBLEM, 2, 1, One(FIRST))]

  lemma Fails(w0: World) returns (w: World)
    requires Reachable(false, w0) && Quiet(w0, EARLIER) && At(w0, EARLIER, Verifying, ManifestStored)
    ensures Reachable(false, w) && Calm(w, FIRST) && OnlyRow(w) && w.uploaders == map[]
    ensures SameElse(w0, w) && w.store == w0.store
  {
    hide Reachable;
    Extend(false, w0, Upload(Fail(0)));
    w := AfterFail(w0, 0);
  }

  /** The upload of generation 1 gets as far as its final transaction and fails there. */
  lemma UploadFails() returns (w: World)
    ensures Reachable(false, w) && Calm(w, FIRST) && OnlyRow(w) && Early(w) && AllDone(w.leases) && w.uploaders == map[]
    ensures Content(FIRST) in w.store && MANIFEST in w.store && w.store[MANIFEST] == ManifestDoc(One(FIRST), false)
    ensures w.restores == map[] && w.evicted == map[] && Newest(w.leases, PROBLEM) == 1
  {
    hide Reachable, Passes, LeasesOk;
    var w0 := Begins(false);
    var id := w0.leases.nextJob;
    var w1 := Launches(false, w0, SnapshotOp);
    var w2 := Uploads1(false, w1, EARLIER);
    var w3 := Fails(w2);
    w := Closes(false, w3, id, SnapshotOp);
  }

  /** A restore reads the manifest. Its job fails, but its worker is still there. */
  lemma IsRead() returns (w: World)
    ensures Reachable(false, w) && Calm(w, FIRST) && OnlyRow(w) && Early(w) && AllDone(w.leases) && w.uploaders == map[]
    ensures w.restores == STAGED && w.evicted == map[] && Newest(w.leases, PROBLEM) == 2
  {
    hide Reachable, Passes, LeasesOk, Works, OnlyRow, Calm;
    var w0 := UploadFails();
    var id := w0.leases.nextJob;
    var w1 := Launches(false, w0, RestoreOp);
    SameCalm(w0, w1, FIRST);
    FirstDownloads(w1);
    var w2 := Stages(w1);
    w := Closes(false, w2, id, RestoreOp);
    SameCalm(w0, w, FIRST);
  }

  lemma FirstDownloads(w: World)
    requires Calm(w, FIRST)
    requires Content(FIRST) in w.store && MANIFEST in w.store && w.store[MANIFEST] == ManifestDoc(One(FIRST), false)
    ensures CanDownload(w, PROBLEM, 1)
  {
  }

  lemma Stages(w0: World) returns (w: World)
    requires Reachable(false, w0) && w0.restores == map[]
    requires Fresh(w0, PROBLEM, 2) && Works(w0.leases, PROBLEM, 2, RestoreOp)
    requires CanDownload(w0, PROBLEM, 1) && w0.store[MANIFEST].files == One(FIRST)
    ensures Reachable(false, w) && w == w0.(restores := STAGED)
  {
    hide Reachable, Passes, Works;
    assert CanBegin(w0, 0, PROBLEM, 2);
    Extend(false, w0, Folder(BeginRestore(0, PROBLEM, 2)));
    w := Downloads(AfterBegin(w0, 0, PROBLEM, 2));
  }

  lemma Downloads(w0: World) returns (w: World)
    requires Reachable(false, w0) && w0.restores == map[0 := Begun(PROBLEM, 2)]
    requires CanDownload(w0, PROBLEM, 1) && w0.store[MANIFEST].files == One(FIRST)
    ensures Reachable(false, w) && w == w0.(restores := STAGED)
  {
    hide Reachable;
    Extend(false, w0, Folder(Download(0, 1)));
    w := AfterDownload(w0, 0, 1);
  }

  lemma Changes(w0: World) returns (w: World)
    requires Reachable(false, w0) && Calm(w0, FIRST) && OnlyRow(w0)
    ensures Reachable(false, w) && Calm(w, SECOND) && OnlyRow(w) && w == w0.(folders := w.folders, evicted := w.evicted)
    ensures w.evicted == w0.evicted - {PROBLEM}
  {
    hide Reachable;
    Extend(false, w0, Folder(WriteFolder(PROBLEM, One(SECOND))));
    w := AfterWrite(w0, PROBLEM, One(SECOND));
  }

  /** The folder changes and is uploaded as generation 1 again, which becomes READY. */
  lemma IsRepeated() returns (w: World)
    ensures Reachable(false, w) && Finished(w, LATER) && Early(w) && AllDone(w.leases)
    ensures w.restores == STAGED && Newest(w.leases, PROBLEM) == 3
  {
    hide Reachable, Passes, LeasesOk, Works, At, OnlyRow, Calm, Finished;
    var w0 := IsRead();
    var w1 := Changes(w0);
    var id := w1.leases.nextJob;
    assert Early(w1) by { CalmHasProblem(w1, SECOND); }
    var w2 := Launches(false, w1, SnapshotOp);
    SameCalm(w1, w2, SECOND);
    var w3 := Uploads1(false, w2, LATER);
    var w4 := Finishes(false, w3, LATER);
    FinishedEarly(w3, w4, LATER);
    w := Closes(false, w4, id, SnapshotOp);
    SameFinished(w4, w, LATER);
  }

  lemma CalmHasProblem(w: World, sha: Digest)
    requires Calm(w, sha)
    ensures PROBLEM in w.problems && w.retention == DEFAULTS
  {
  }

  lemma SameCalm(w: World, v: World, sha: Digest)
    requires Calm(w, sha) && OnlyRow(w) && v == w.(leases := v.leases, restores := v.restores)
    ensures Calm(v, sha) && OnlyRow(v)
  {
  }

  lemma FinishedEarly(w: World, v: World, x: Sample)
    requires Quiet(w, x) && Finished(v, x) && v.retention == w.retention
    ensures PROBLEM in v.problems && v.retention == DEFAULTS
  {
  }

  lemma SameFinished(w: World, v: World, x: Sample)
    requires Finished(w, x) && v == w.(leases := v.leases)
    ensures Finished(v, x)
  {
  }

  /** The folder is evicted, and every job is closed. */
  lemma IsEvicted() returns (w: World)
    ensures Reachable(false, w) && IsReady(w, PROBLEM, 0) && w.snapshots[0].generation == 1 && Early(w)
    ensures PROBLEM !in w.folders && PROBLEM in w.evicted && w.evicted[PROBLEM] == One(SECOND)
    ensures w.restores == STAGED && AllDone(w.leases) && Newest(w.leases, PROBLEM) == 4
  {
    hide Reachable, Passes, LeasesOk, Works;
    var w0 := IsRepeated();
    var id := w0.leases.nextJob;
    var w1 := Launches(false, w0, EvictOp);
    var w2 := Evicts(false, w1, LATER, 4);
    w := Closes(false, w2, id, EvictOp);
  }

  lemma AllGo(l: Leases, now: Time)
    requires AllDone(l) && now > DEFAULTS.jobs.closed
    ensures AfterJob(l, now, DEFAULTS.jobs, PurgeClosed(l.jobs.Keys)).jobs == map[]
  {
  }

  /** After 14 days the hourly maintenance purges all four. */
  lemma IsPurged() returns (w: World)
    ensures Reachable(false, w) && IsReady(w, PROBLEM, 0) && w.snapshots[0].generation == 1
    ensures PROBLEM !in w.folders && PROBLEM in w.evicted && w.evicted[PROBLEM] == One(SECOND)
    ensures w.restores == STAGED && w.leases.jobs == map[] && Newest(w.leases, PROBLEM) == 4
  {
    hide Reachable, LeasesOk;
    var w0 := IsEvicted();
    Extend(false, w0, Table(Tick(14 * DAY + 1)));
    var w1 := w0.(now := 14 * DAY + 1);
    AllGo(w1.leases, w1.now);
    w := Does(false, w1, PurgeClosed(w1.leases.jobs.Keys));
  }

  /** A reachable state in which an overtaken restore would publish something else than what was evicted. */
  lemma PurgedTokenBringsStaleFiles()
    ensures exists w, r, s ::
              && Reachable(false, w) && CanPublish(w, r, s) && w.restores[r].problem in w.evicted
              && Overtaken(w.leases, w.restores[r].problem, w.restores[r].token)
              && AfterPublish(w, r).folders[w.restores[r].problem] != w.evicted[w.restores[r].problem]
  {
    hide Reachable;
    var w := IsPurged();
    assert CanPublish(w, 0, 0);
    assert One(FIRST)[PATH] != One(SECOND)[PATH];
    assert AfterPublish(w, 0).folders[PROBLEM] != w.evicted[PROBLEM];
  }
}
