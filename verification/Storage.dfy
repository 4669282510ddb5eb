/**
 The rows, objects and folders that the control plane and the data plane share,
 and every atomic step either of them takes on them.

 One SQL statement or transaction is one step, so is one object-store call and
 one locked section of a file operation. `After` is total: a step whose guard
 fails leaves the world as it was, the way a rejected request or a rolled-back
 transaction does.
 */
module Storage {
  import opened Common
  import opened JobLeases

  type RelPath = string
  type SnapshotId = nat
  type CollectorId = nat
  type RestoreId = nat

  /** File contents. One character stands for one byte. */
  type Bytes = seq<char>

  /** An ideal SHA-256: injective, because a digest remembers what it digests. */
  datatype Digest = Digest(preimage: Bytes)

  datatype FileInfo = FileInfo(sha: Digest, size: nat)

  /** What a scan, a manifest or a snapshot's object rows say about a folder. */
  type FileMap = map<RelPath, FileInfo>

  // `Content` is objects/sha256/<hh>/<sha>, `ManifestAt` is snapshots/<problem>/<generation>/manifest.json.
  datatype ObjectKey = Content(sha: Digest) | ManifestAt(problem: ProblemId, generation: int)

  /** A manifest lists files; `repeats` when it lists some path more than once. */
  datatype Blob = Raw(bytes: Bytes) | ManifestDoc(files: FileMap, repeats: bool)

  datatype SnapshotState = Discovered | Hashing | Uploading | Verifying | Ready | Superseded | Error

  /** A snapshots row with its snapshot_objects rows, which cascade with it. */
  datatype Snapshot = Snapshot(
    problem: ProblemId,
    generation: int,
    state: SnapshotState,
    manifest: Option<ObjectKey>,
    files: FileMap,
    verified: set<RelPath>,
    createdAt: Time,
    completedAt: Option<Time>,
    supersededAt: Option<Time>)

  // The unique key of gc_marks is (sha256, object_key); a manifest row stores 'manifest:<snapshot id>' as sha256.
  datatype MarkKey = ContentMark(sha: Digest) | ManifestMark(snapshot: SnapshotId, manifest: ObjectKey)

  // `epoch` is the retention run that inserted the row: with the unique key it stands for the row's id,
  // so a row that was deleted and inserted again is a different row.
  datatype Mark = Mark(snapshot: Option<SnapshotId>, eligibleAt: Time, collected: bool, epoch: nat)

  datatype MarkRef = MarkRef(mark: MarkKey, epoch: nat)

  /** How far one deletion by a gc_collect job has got. */
  datatype Phase = Idle | Locked | Cleared | Confirmed | Erased | Gone

  datatype Collector = Collector(worklist: set<MarkRef>, phase: Phase, target: MarkRef)

  /** How far the background upload of one snapshot row has got. */
  datatype Stage =
    | Claimed
    | RowsCleared
    | HashingFiles
    | UploadingFiles(placed: set<RelPath>, recorded: set<RelPath>)
    | VerifyingFiles
    | ManifestStored

  datatype Uploader = Uploader(
    problem: ProblemId,
    generation: int,
    token: int,
    expectedVersion: Option<int>,
    canonical: RelPath,
    links: set<RelPath>,
    repeats: bool,
    scan: FileMap,
    stage: Stage)

  datatype Usage = Usage(generation: Option<int>, r2Ready: bool, lastAccess: Option<Time>)

  datatype Problem = Problem(dirty: bool, dirtyGeneration: Option<int>, dirtyVersion: int)

  /** A restore in progress: its fence check has passed, or the files of a generation wait in its staging folder. */
  datatype Restore =
    | Begun(problem: ProblemId, token: int)
    | Staged(problem: ProblemId, token: int, generation: int, files: FileMap)

  datatype Retention = Retention(superseded: nat, error: nat, content: nat, jobs: Keep)

  datatype World = World(
    retention: Retention,
    now: Time,
    snapshots: map<SnapshotId, Snapshot>,
    nextSnapshot: SnapshotId,
    marks: map<MarkKey, Mark>,
    epoch: nat,
    store: map<ObjectKey, Blob>,
    uploaders: map<SnapshotId, Uploader>,
    collectors: map<CollectorId, Collector>,
    problems: map<ProblemId, Problem>,
    usage: map<ProblemId, Usage>,
    leases: Leases,
    folders: map<ProblemId, FileMap>,
    restores: map<RestoreId, Restore>,
    readyLog: seq<(ProblemId, int)>,              // history: every READY transition, in order
    evicted: map<ProblemId, FileMap>)             // history: what an eviction removed and nobody put back

  const TAKEOVER_SECONDS: int := 7200
  const STALLED_SECONDS: int := 21600

  /** The configured start: empty tables, an empty store and no folders. */
  function Init(retention: Retention, now: Time): World {
    World(retention, now, map[], 0, map[], 0, map[], map[], map[], map[], map[], NO_LEASES, map[], map[], [], map[])
  }

  // ---------------------------------------------------------------- rows

  function Sha256(b: Bytes): Digest {
    Digest(b)
  }

  function KeyOf(m: MarkKey): ObjectKey {
    match m
    case ContentMark(sha) => Content(sha)
    case ManifestMark(_, manifest) => manifest
  }

  predicate Active(state: SnapshotState) {
    state == Discovered || state == Hashing || state == Uploading || state == Verifying
  }

  /** snapshot_is_gc_protected. */
  predicate Protected(retention: Retention, now: Time, row: Snapshot) {
    || Active(row.state)
    || row.state == Ready
    || (row.state == Superseded && row.supersededAt.Some? && row.supersededAt.value >= now - retention.superseded)
    || (row.state == Error && row.completedAt.Some? && row.completedAt.value >= now - retention.error)
  }

  /** The `expired` common table expression of both retention statements. */
  predicate Expired(retention: Retention, now: Time, row: Snapshot) {
    || (row.state == Superseded && row.supersededAt.Some? && row.supersededAt.value < now - retention.superseded)
    || (row.state == Error && row.completedAt.Some? && row.completedAt.value < now - retention.error)
  }

  /** COALESCE(superseded_at, completed_at). */
  function Anchor(row: Snapshot): Time {
    if row.supersededAt.Some? then row.supersededAt.value
    else if row.completedAt.Some? then row.completedAt.value
    else 0
  }

  /** The row names the key, through an object row or through manifest_key. */
  predicate Refers(row: Snapshot, key: ObjectKey) {
    || row.manifest == Some(key)
    || (key.Content? && exists path :: path in row.files && row.files[path].sha == key.sha)
  }

  predicate LiveRef(w: World, key: ObjectKey) {
    exists s :: s in w.snapshots && Protected(w.retention, w.now, w.snapshots[s]) && Refers(w.snapshots[s], key)
  }

  predicate OtherLiveRef(w: World, self: SnapshotId, key: ObjectKey) {
    exists s :: s in w.snapshots && s != self && Protected(w.retention, w.now, w.snapshots[s])
                && Refers(w.snapshots[s], key)
  }

  predicate CollectedMark(marks: map<MarkKey, Mark>, key: ObjectKey) {
    exists m :: m in marks && KeyOf(m) == key && marks[m].collected
  }

  predicate AliveRef(marks: map<MarkKey, Mark>, ref: MarkRef) {
    ref.mark in marks && marks[ref.mark].epoch == ref.epoch
  }

  /** A session-level advisory lock is held from LockKey until the key is released. */
  predicate HoldsLock(c: Collector, key: ObjectKey) {
    (c.phase == Locked || c.phase == Cleared || c.phase == Confirmed || c.phase == Erased)
    && KeyOf(c.target.mark) == key
  }

  predicate KeyLocked(w: World, key: ObjectKey) {
    exists c :: c in w.collectors && HoldsLock(w.collectors[c], key)
  }

  function LatestToken(w: World, p: ProblemId): int {
    LargestToken(w.leases, p)
  }

  /** ensure_latest_fencing: no row of jobs for the problem has a larger token. */
  predicate Fresh(w: World, p: ProblemId, token: int) {
    Passes(w.leases, p, token)
  }

  /** A worker has started on an operation of this kind under this token. */
  predicate Works(l: Leases, p: ProblemId, token: int, op: Operation) {
    (p, token) in l.workers && (p, token) in l.holders && l.holders[(p, token)] == op
  }

  predicate IsReady(w: World, p: ProblemId, s: SnapshotId) {
    s in w.snapshots && w.snapshots[s].problem == p && w.snapshots[s].state == Ready
  }

  /** The row of ORDER BY generation DESC LIMIT 1 over the problem's READY snapshots. */
  predicate LatestReady(w: World, p: ProblemId, s: SnapshotId) {
    && IsReady(w, p, s)
    && forall t :: t in w.snapshots && IsReady(w, p, t) ==> w.snapshots[t].generation <= w.snapshots[s].generation
  }

  /** ready_snapshot_matches_scan returned the generation of `s` for this folder. */
  predicate MatchesReady(w: World, p: ProblemId, s: SnapshotId, folder: FileMap) {
    p in w.problems && !w.problems[p].dirty && LatestReady(w, p, s) && w.snapshots[s].files == folder
  }

  /** should_clear_dirty_after_snapshot, which is also the WHERE clause of both clearing statements. */
  predicate ShouldClearDirty(row: Problem, generation: int, expected: Option<int>) {
    && row.dirty
    && expected == Some(row.dirtyVersion)
    && row.dirtyGeneration.Some? && row.dirtyGeneration.value <= generation
  }

  // ---------------------------------------------------------------- steps

  /** One action of the background upload of one snapshot row. */
  datatype UploadStep =
    | Claim(p: ProblemId, generation: int, token: int, expected: Option<int>, canonical: RelPath,
            links: set<RelPath>, repeats: bool, scan: FileMap)
    | ClearRows(s: SnapshotId)
    | StartHashing(s: SnapshotId)
    | Prepare(s: SnapshotId)
    | Place(s: SnapshotId, path: RelPath)
    | Record(s: SnapshotId, path: RelPath)
    | StartVerifying(s: SnapshotId)
    | PutManifest(s: SnapshotId)
    | Finalize(s: SnapshotId)
    | Fail(s: SnapshotId)
    | Crash(s: SnapshotId)

  /** One action of a gc_collect job. */
  datatype CollectStep =
    | ListEligible(c: CollectorId, refs: set<MarkRef>)
    | LockKey(c: CollectorId, ref: MarkRef)
    | FirstCheck(c: CollectorId)
    | SeeAbsent(c: CollectorId)
    | SecondCheck(c: CollectorId)
    | Erase(c: CollectorId)
    | ThirdCheck(c: CollectorId)
    | Release(c: CollectorId)
    | MarkCollected(c: CollectorId)
    | Defer(c: CollectorId, ref: MarkRef, until: Time)

  /** What happens to local folders. */
  datatype FolderStep =
    | WriteFolder(p: ProblemId, files: FileMap)
    | RemoveFolder(p: ProblemId)
    | Evict(p: ProblemId, token: int, s: SnapshotId, idleBefore: Option<Time>)
    | BeginRestore(r: RestoreId, p: ProblemId, token: int)
    | Download(r: RestoreId, generation: int)
    | Publish(r: RestoreId, s: SnapshotId)
    | AbandonRestore(r: RestoreId)

  /** Everything else that writes a table, and the clock. */
  datatype TableStep =
    | Tick(seconds: nat)
    | Work(job: JobStep)
    | AddProblem(p: ProblemId)
    | MarkDirty(p: ProblemId, dirtyGeneration: Option<int>)
    | Redirty(p: ProblemId, newGeneration: int)
    | SweepDirty(p: ProblemId)
    | HealUsage(p: ProblemId, s: SnapshotId)
    | VerifyLocal(p: ProblemId, s: SnapshotId)
    | SweepStalled
    | Retain

  datatype Step =
    | Upload(upload: UploadStep)
    | Collect(collect: CollectStep)
    | Folder(folder: FolderStep)
    | Table(table: TableStep)

  // ---- bookkeeping the snapshot protocol only reads

  /** An upload or a restore goes on under this token. */
  predicate InUse(w: World, p: ProblemId, token: int) {
    || (exists s :: s in w.uploaders && w.uploaders[s].problem == p && w.uploaders[s].token == token)
    || (exists r :: r in w.restores && w.restores[r].problem == p && w.restores[r].token == token)
  }

  /** A job names a problem that exists, and a worker has not stopped while its upload or restore goes on. */
  predicate CanWork(w: World, job: JobStep) {
    (job.Create? ==> job.p in w.problems) && (job.Stop? ==> !InUse(w, job.p, job.token))
  }

  function AfterWork(w: World, job: JobStep): World {
    w.(leases := AfterJob(w.leases, w.now, w.retention.jobs, job))
  }

  function AfterAdd(w: World, p: ProblemId): World {
    w.(problems := w.problems[p := Problem(false, None, 0)], usage := w.usage[p := Usage(None, false, None)])
  }

  function AfterMarkDirty(w: World, p: ProblemId, generation: Option<int>): World
    requires p in w.problems
  {
    w.(problems := w.problems[p := Problem(true, generation, w.problems[p].dirtyVersion + 1)])
  }

  predicate HasNoReady(w: World, p: ProblemId) {
    p in w.problems && forall s :: s in w.snapshots ==> !IsReady(w, p, s)
  }

  /** markDirtyIfNoReady and clearDirtyForMissingLocal, for one problem: the version stays. */
  function AfterSetDirty(w: World, p: ProblemId, generation: Option<int>): World
    requires p in w.problems
  {
    w.(problems := w.problems[p := Problem(generation.Some?, generation, w.problems[p].dirtyVersion)])
  }

  // ---- uploader

  predicate SameGeneration(w: World, s: SnapshotId, p: ProblemId, generation: int) {
    s in w.snapshots && w.snapshots[s].problem == p && w.snapshots[s].generation == generation
  }

  predicate Reusable(w: World, row: Snapshot) {
    row.state == Error || (Active(row.state) && row.createdAt < w.now - TAKEOVER_SECONDS)
  }

  predicate CanClaim(w: World, p: ProblemId, generation: int, token: int) {
    && p in w.problems && Fresh(w, p, token) && Works(w.leases, p, token, SnapshotOp)
    && forall s :: s in w.snapshots && SameGeneration(w, s, p, generation) ==> Reusable(w, w.snapshots[s])
  }

  /** The id the INSERT ... ON CONFLICT returns: the conflicting row's, or a new one. */
  ghost function ClaimedId(w: World, p: ProblemId, generation: int): SnapshotId {
    if exists s :: s in w.snapshots && SameGeneration(w, s, p, generation)
    then var s :| s in w.snapshots && SameGeneration(w, s, p, generation); s
    else w.nextSnapshot
  }

  function ClaimedRow(w: World, s: SnapshotId, p: ProblemId, generation: int): Snapshot {
    if s in w.snapshots
    then w.snapshots[s].(state := Discovered, manifest := None, completedAt := None, createdAt := w.now)
    else Snapshot(p, generation, Discovered, None, map[], {}, w.now, None, None)
  }

  function AfterClaim(w: World, s: SnapshotId, u: Uploader): World {
    w.(snapshots := w.snapshots[s := ClaimedRow(w, s, u.problem, u.generation)],
       nextSnapshot := if s in w.snapshots then w.nextSnapshot else s + 1,
       uploaders := w.uploaders[s := u])
  }

  function SetRow(w: World, s: SnapshotId, row: Snapshot): World
    requires s in w.snapshots
  {
    w.(snapshots := w.snapshots[s := row])
  }

  function SetStage(w: World, s: SnapshotId, stage: Stage): World
    requires s in w.uploaders
  {
    w.(uploaders := w.uploaders[s := w.uploaders[s].(stage := stage)])
  }

  predicate AtStage(w: World, s: SnapshotId, stage: Stage) {
    s in w.uploaders && w.uploaders[s].stage == stage
  }

  function AfterClearRows(w: World, s: SnapshotId): World
    requires s in w.uploaders
  {
    var cleared := if s in w.snapshots then SetRow(w, s, w.snapshots[s].(files := map[], verified := {})) else w;
    SetStage(cleared, s, RowsCleared)
  }

  function AfterStartHashing(w: World, s: SnapshotId): World
    requires s in w.uploaders
  {
    // No state guard: whatever state the row is in becomes 'hashing'.
    var hashing := if s in w.snapshots then SetRow(w, s, w.snapshots[s].(state := Hashing)) else w;
    SetStage(hashing, s, HashingFiles)
  }

  /** The keys the preparing transaction locks and clears of marks. */
  predicate UploadKey(u: Uploader, key: ObjectKey) {
    || key == ManifestAt(u.problem, u.generation)
    || (key.Content? && exists path :: path in u.scan && u.scan[path].sha == key.sha)
  }

  predicate CanPrepare(w: World, s: SnapshotId) {
    && AtStage(w, s, HashingFiles)
    && var u := w.uploaders[s];
    && u.problem in w.folders && u.canonical in u.scan
    && s in w.snapshots && w.snapshots[s].state == Hashing
    && forall c :: c in w.collectors && UploadKey(u, KeyOf(w.collectors[c].target.mark)) ==>
         !HoldsLock(w.collectors[c], KeyOf(w.collectors[c].target.mark))
  }

  /** DELETE FROM gc_marks WHERE object_key = ANY(the keys of the upload). */
  function Unclaimed(marks: map<MarkKey, Mark>, u: Uploader): map<MarkKey, Mark> {
    map m | m in marks && !UploadKey(u, KeyOf(m)) :: marks[m]
  }

  function AfterPrepare(w: World, s: SnapshotId): World
    requires s in w.uploaders && s in w.snapshots
  {
    var u := w.uploaders[s];
    var row := w.snapshots[s].(state := Uploading, manifest := Some(ManifestAt(u.problem, u.generation)),
                               files := w.snapshots[s].files + u.scan,
                               verified := w.snapshots[s].verified - u.scan.Keys);
    SetStage(SetRow(w, s, row), s, UploadingFiles({}, {})).(
      marks := Unclaimed(w.marks, u))
  }

  predicate CanPlace(w: World, s: SnapshotId, path: RelPath) {
    && s in w.uploaders && w.uploaders[s].stage.UploadingFiles?
    && var u := w.uploaders[s];
    && path in u.scan
    // a symlink's bytes are its recorded target; any other file, as it is now, must hash to the scanned digest again
    && (path !in u.links ==>
          u.problem in w.folders && path in w.folders[u.problem] && w.folders[u.problem][path].sha == u.scan[path].sha)
    // an object already there must verify
    && (Content(u.scan[path].sha) in w.store ==>
          w.store[Content(u.scan[path].sha)] == Raw(u.scan[path].sha.preimage))
  }

  function AfterPlace(w: World, s: SnapshotId, path: RelPath): World
    requires s in w.uploaders && w.uploaders[s].stage.UploadingFiles? && path in w.uploaders[s].scan
  {
    var u := w.uploaders[s];
    var sha := u.scan[path].sha;
    SetStage(w, s, u.stage.(placed := u.stage.placed + {path})).(store := w.store[Content(sha) := Raw(sha.preimage)])
  }

  predicate CanRecord(w: World, s: SnapshotId, path: RelPath) {
    && s in w.uploaders && w.uploaders[s].stage.UploadingFiles? && path in w.uploaders[s].stage.placed
    && s in w.snapshots && path in w.snapshots[s].files && path in w.uploaders[s].scan
  }

  function AfterRecord(w: World, s: SnapshotId, path: RelPath): World
    requires CanRecord(w, s, path)
  {
    var u := w.uploaders[s];
    var row := w.snapshots[s];
    SetStage(SetRow(w, s, row.(files := row.files[path := u.scan[path]], verified := row.verified + {path})),
             s, u.stage.(recorded := u.stage.recorded + {path}))
  }

  predicate CanStartVerifying(w: World, s: SnapshotId) {
    && s in w.uploaders && w.uploaders[s].stage.UploadingFiles?
    && w.uploaders[s].stage.recorded == w.uploaders[s].scan.Keys
  }

  /** UPDATE ... WHERE state = 'uploading': any other state stays. */
  function VerifyingRow(row: Snapshot): Snapshot {
    if row.state == Uploading then row.(state := Verifying) else row
  }

  function AfterStartVerifying(w: World, s: SnapshotId): World
    requires s in w.uploaders
  {
    var verifying := if s in w.snapshots then SetRow(w, s, VerifyingRow(w.snapshots[s])) else w;
    SetStage(verifying, s, VerifyingFiles)
  }

  function AfterPutManifest(w: World, s: SnapshotId): World
    requires s in w.uploaders
  {
    var u := w.uploaders[s];
    SetStage(w, s, ManifestStored).(
      store := w.store[ManifestAt(u.problem, u.generation) := ManifestDoc(u.scan, u.repeats)])
  }

  predicate CanFinalize(w: World, s: SnapshotId) {
    && AtStage(w, s, ManifestStored)
    && var u := w.uploaders[s];
    && Fresh(w, u.problem, u.token)
    && u.problem in w.usage
    && (w.usage[u.problem].generation.Some? ==> w.usage[u.problem].generation.value < u.generation)
    && SameGeneration(w, s, u.problem, u.generation) && w.snapshots[s].state == Verifying
  }

  /** The rows after the superseding UPDATE and the READY UPDATE. */
  function FinalizedRows(w: World, s: SnapshotId): map<SnapshotId, Snapshot>
    requires s in w.uploaders && s in w.snapshots
  {
    var u := w.uploaders[s];
    map t | t in w.snapshots ::
      if t == s then
        w.snapshots[s].(state := Ready, completedAt := Some(w.now),
          manifest := Some(ManifestAt(u.problem, u.generation)),
                        files := w.snapshots[s].files + u.scan, verified := w.snapshots[s].verified + u.scan.Keys)
      else if IsReady(w, u.problem, t) && w.snapshots[t].generation < u.generation then
        w.snapshots[t].(state := Superseded, supersededAt := Some(w.now))
      else w.snapshots[t]
  }

  function ClearedProblems(problems: map<ProblemId, Problem>, p: ProblemId, generation: int, expected: Option<int>)
    : map<ProblemId, Problem>
  {
    if p in problems && ShouldClearDirty(problems[p], generation, expected)
    then problems[p := problems[p].(dirty := false, dirtyGeneration := None)]
    else problems
  }

  function AfterFinalize(w: World, s: SnapshotId): World
    requires CanFinalize(w, s)
  {
    var u := w.uploaders[s];
    w.(snapshots := FinalizedRows(w, s),
       usage := w.usage[u.problem := w.usage[u.problem].(r2Ready := true, generation := Some(u.generation))],
       problems := ClearedProblems(w.problems, u.problem, u.generation, u.expectedVersion),
       uploaders := w.uploaders - {s},
       readyLog := w.readyLog + [(u.problem, u.generation)])
  }

  function AfterFail(w: World, s: SnapshotId): World {
    var failed := if s in w.snapshots && w.snapshots[s].state != Ready
                  then SetRow(w, s, w.snapshots[s].(state := Error, completedAt := Some(w.now))) else w;
    failed.(uploaders := w.uploaders - {s})
  }

  predicate Stalled(w: World, row: Snapshot) {
    Active(row.state) && row.createdAt < w.now - STALLED_SECONDS
  }

  function AfterSweep(w: World): World {
    w.(snapshots := map s | s in w.snapshots ::
         if Stalled(w, w.snapshots[s]) then w.snapshots[s].(state := Error, completedAt := Some(w.now))
         else w.snapshots[s])
  }

  // ---- usage projection

  predicate CanHeal(w: World, p: ProblemId, s: SnapshotId) {
    && LatestReady(w, p, s) && p in w.usage && !w.usage[p].r2Ready
    && (w.usage[p].generation.Some? ==> w.usage[p].generation.value < w.snapshots[s].generation)
  }

  function AfterHeal(w: World, p: ProblemId, s: SnapshotId): World
    requires s in w.snapshots && p in w.usage
  {
    w.(usage := w.usage[p := w.usage[p].(r2Ready := true, generation := Some(w.snapshots[s].generation))])
  }

  predicate CanVerifyLocal(w: World, p: ProblemId, s: SnapshotId) {
    p in w.folders && MatchesReady(w, p, s, w.folders[p]) && p in w.usage
  }

  function AfterVerifyLocal(w: World, p: ProblemId, s: SnapshotId): World
    requires s in w.snapshots && p in w.usage
  {
    var current := if w.usage[p].generation.Some? then w.usage[p].generation.value else 0;
    w.(usage := w.usage[p := w.usage[p].(generation := Some(Max(current, w.snapshots[s].generation)))])
  }

  // ---- retention

  predicate Prunable(w: World, s: SnapshotId)
    requires s in w.snapshots
  {
    var row := w.snapshots[s];
    && Expired(w.retention, w.now, row)
    && (row.manifest.None? || CollectedMark(w.marks, row.manifest.value) || OtherLiveRef(w, s, row.manifest.value))
    && forall path :: path in row.files ==>
         CollectedMark(w.marks, Content(row.files[path].sha)) || OtherLiveRef(w, s, Content(row.files[path].sha))
  }

  /** The metadata DELETE with its cascades: object rows go, marks lose their owner. */
  function AfterPrune(w: World): World {
    w.(snapshots := map s | s in w.snapshots && !Prunable(w, s) :: w.snapshots[s],
       marks := map m | m in w.marks ::
         if w.marks[m].snapshot.Some? && w.marks[m].snapshot.value in w.snapshots
            && Prunable(w, w.marks[m].snapshot.value)
         then w.marks[m].(snapshot := None) else w.marks[m])
  }

  /** Expired rows that name the key, when no protected row does. */
  function Candidates(w: World, key: ObjectKey): set<SnapshotId> {
    if LiveRef(w, key) then {}
    else set s | s in w.snapshots && Expired(w.retention, w.now, w.snapshots[s]) && Refers(w.snapshots[s], key)
  }

  /** ORDER BY retention_anchor DESC, snapshot_id. */
  predicate Precedes(w: World, s: SnapshotId, t: SnapshotId)
    requires s in w.snapshots && t in w.snapshots
  {
    Anchor(w.snapshots[s]) > Anchor(w.snapshots[t]) || (Anchor(w.snapshots[s]) == Anchor(w.snapshots[t]) && s <= t)
  }

  predicate IsRepresentative(w: World, key: ObjectKey, s: SnapshotId) {
    s in Candidates(w, key) && forall t :: t in Candidates(w, key) ==> Precedes(w, s, t)
  }

  ghost predicate IsFirst(w: World, c: set<SnapshotId>, first: SnapshotId)
    requires c <= w.snapshots.Keys
  {
    first in c && forall t :: t in c ==> Precedes(w, first, t)
  }

  lemma {:induction false} FirstExists(w: World, c: set<SnapshotId>)
    requires c != {} && c <= w.snapshots.Keys
    ensures exists first :: IsFirst(w, c, first)
    decreases c
  {
    var x :| x in c;
    var rest := c - {x};
    if rest == {} {
      assert c == {x};
      assert IsFirst(w, c, x);
    } else {
      FirstExists(w, rest);
      var s :| IsFirst(w, rest, s);
      var first := if Precedes(w, s, x) then s else x;
      forall t | t in c
        ensures Precedes(w, first, t)
      {
        assert t == x || t in rest;
      }
      assert IsFirst(w, c, first);
    }
  }

  /** SELECT DISTINCT ON (object_key): the one row chosen for a key. */
  function Representative(w: World, key: ObjectKey): (s: SnapshotId)
    requires Candidates(w, key) != {}
    ensures IsRepresentative(w, key, s)
  {
    FirstExists(w, Candidates(w, key));
    assert exists s :: IsFirst(w, Candidates(w, key), s);
    var s :| s in Candidates(w, key) && forall t :: t in Candidates(w, key) ==> Precedes(w, s, t);
    s
  }

  function MarkFor(s: SnapshotId, key: ObjectKey): MarkKey {
    match key
    case Content(sha) => ContentMark(sha)
    case ManifestAt(_, _) => ManifestMark(s, key)
  }

  /** Every key an expired row names. */
  function ExpiredKeys(w: World): set<ObjectKey> {
    (set s, path | s in w.snapshots && Expired(w.retention, w.now, w.snapshots[s]) && path in w.snapshots[s].files ::
       Content(w.snapshots[s].files[path].sha))
    + (set s | s in w.snapshots && Expired(w.retention, w.now, w.snapshots[s]) && w.snapshots[s].manifest.Some? ::
         w.snapshots[s].manifest.value)
  }

  /** The marks the INSERT proposes. */
  function ProposedMarks(w: World): set<MarkKey> {
    set key | key in ExpiredKeys(w) && Candidates(w, key) != {} :: MarkFor(Representative(w, key), key)
  }

  /** The WHERE clause of ON CONFLICT DO UPDATE. */
  predicate Resets(m: Mark, owner: SnapshotId) {
    (m.collected && m.snapshot.None?) || m.snapshot != Some(owner)
  }

  /** The snapshot_id the INSERT proposes for a mark. */
  function Owner(w: World, m: MarkKey): SnapshotId {
    if Candidates(w, KeyOf(m)) == {} then 0 else Representative(w, KeyOf(m))
  }

  /** The proposed mark is new, or its conflicting row satisfies the WHERE clause. */
  predicate Written(w: World, m: MarkKey) {
    m in ProposedMarks(w) && (m in w.marks ==> Resets(w.marks[m], Owner(w, m)))
  }

  function AfterMark(w: World): World {
    w.(marks := map m | m in w.marks.Keys + ProposedMarks(w) ::
         if m in w.marks && !Written(w, m) then w.marks[m]
         else Mark(Some(Owner(w, m)), w.now + w.retention.content, false,
                   if m in w.marks then w.marks[m].epoch else w.epoch),
       epoch := w.epoch + 1)
  }

  function AfterRetain(w: World): World {
    AfterMark(AfterPrune(w))
  }

  // ---- collector

  predicate Eligible(w: World, ref: MarkRef) {
    && AliveRef(w.marks, ref)
    && w.marks[ref.mark].eligibleAt <= w.now && !w.marks[ref.mark].collected
    && !LiveRef(w, KeyOf(ref.mark))
  }

  function Target(w: World, c: CollectorId): ObjectKey
    requires c in w.collectors
  {
    KeyOf(w.collectors[c].target.mark)
  }

  predicate AtPhase(w: World, c: CollectorId, phase: Phase) {
    c in w.collectors && w.collectors[c].phase == phase
  }

  function SetPhase(w: World, c: CollectorId, phase: Phase): World
    requires c in w.collectors
  {
    w.(collectors := w.collectors[c := w.collectors[c].(phase := phase)])
  }

  predicate CanList(w: World, c: CollectorId, refs: set<MarkRef>) {
    (c in w.collectors ==> w.collectors[c].phase == Idle) && forall ref :: ref in refs ==> Eligible(w, ref)
  }

  function AfterList(w: World, c: CollectorId, refs: set<MarkRef>): World {
    w.(collectors := w.collectors[c := Collector(refs, Idle, MarkRef(ContentMark(Digest([])), 0))])
  }

  predicate CanLock(w: World, c: CollectorId, ref: MarkRef) {
    AtPhase(w, c, Idle) && ref in w.collectors[c].worklist && !KeyLocked(w, KeyOf(ref.mark))
  }

  function AfterLock(w: World, c: CollectorId, ref: MarkRef): World
    requires c in w.collectors
  {
    w.(collectors := w.collectors[c := w.collectors[c].(phase := Locked, target := ref)])
  }

  /** ensure_no_live_refs passed while the lock is held. */
  predicate CanCheck(w: World, c: CollectorId, phase: Phase) {
    AtPhase(w, c, phase) && !LiveRef(w, Target(w, c))
  }

  predicate CanSeeAbsent(w: World, c: CollectorId) {
    AtPhase(w, c, Cleared) && Target(w, c) !in w.store
  }

  function AfterErase(w: World, c: CollectorId): World
    requires c in w.collectors
  {
    SetPhase(w, c, Erased).(store := w.store - {Target(w, c)})
  }

  /** A mark from the list, by its id; both statements that put one off set a time that is not past. */
  predicate CanDefer(w: World, c: CollectorId, ref: MarkRef, until: Time) {
    c in w.collectors && ref in w.collectors[c].worklist && AliveRef(w.marks, ref) && !w.marks[ref.mark].collected
    && w.now <= until
  }

  function AfterDefer(w: World, m: MarkKey, until: Time): World
    requires m in w.marks
  {
    w.(marks := w.marks[m := w.marks[m].(eligibleAt := until)])
  }

  function AfterMarkCollected(w: World, c: CollectorId): World
    requires c in w.collectors
  {
    var ref := w.collectors[c].target;
    SetPhase(w, c, Idle).(
      marks := if AliveRef(w.marks, ref) then w.marks[ref.mark := w.marks[ref.mark].(collected := true)] else w.marks)
  }

  // ---- local folders

  predicate CanEvict(w: World, p: ProblemId, token: int, s: SnapshotId, idleBefore: Option<Time>) {
    && Fresh(w, p, token) && Works(w.leases, p, token, EvictOp)
    && p in w.usage && w.usage[p].r2Ready
    && p in w.folders && MatchesReady(w, p, s, w.folders[p])
    && w.usage[p].generation == Some(w.snapshots[s].generation)
    && !(idleBefore.Some? && w.usage[p].lastAccess.Some? && w.usage[p].lastAccess.value > idleBefore.value)
  }

  function AfterEvict(w: World, p: ProblemId): World
    requires p in w.folders
  {
    w.(folders := w.folders - {p}, evicted := w.evicted[p := w.folders[p]])
  }

  /** validate_manifest accepts it, built from a scan as it was, and its files do not get in each other's way. */
  predicate Materializes(manifest: Blob) {
    manifest.ManifestDoc? && !manifest.repeats && NoneOnTheWay(manifest.files.Keys)
  }

  /** The manifest materialises, and every object it names downloads with the right digest. */
  predicate CanDownload(w: World, p: ProblemId, generation: int) {
    && ManifestAt(p, generation) in w.store && Materializes(w.store[ManifestAt(p, generation)])
    && var files := w.store[ManifestAt(p, generation)].files;
    forall path :: path in files ==>
      Content(files[path].sha) in w.store && w.store[Content(files[path].sha)] == Raw(files[path].sha.preimage)
  }

  /** The fence check at the head of a restore. A staging folder has a name of its own: no id is in use twice. */
  predicate CanBegin(w: World, r: RestoreId, p: ProblemId, token: int) {
    r !in w.restores && Fresh(w, p, token) && Works(w.leases, p, token, RestoreOp)
  }

  function AfterBegin(w: World, r: RestoreId, p: ProblemId, token: int): World {
    w.(restores := w.restores[r := Begun(p, token)])
  }

  predicate HasBegun(w: World, r: RestoreId) {
    r in w.restores && w.restores[r].Begun?
  }

  function AfterDownload(w: World, r: RestoreId, generation: int): World
    requires HasBegun(w, r) && CanDownload(w, w.restores[r].problem, generation)
  {
    var p := w.restores[r].problem;
    var files := w.store[ManifestAt(p, generation)].files;
    w.(restores := w.restores[r := Staged(p, w.restores[r].token, generation, files)])
  }

  predicate CanPublish(w: World, r: RestoreId, s: SnapshotId) {
    && r in w.restores && w.restores[r].Staged?
    && var st := w.restores[r];
    && Fresh(w, st.problem, st.token)
    && IsReady(w, st.problem, s) && w.snapshots[s].generation == st.generation
    && (st.problem in w.folders ==> MatchesReady(w, st.problem, s, w.folders[st.problem]))
  }

  function AfterPublish(w: World, r: RestoreId): World
    requires r in w.restores && w.restores[r].Staged?
  {
    var st := w.restores[r];
    w.(folders := w.folders[st.problem := st.files],
       evicted := w.evicted - {st.problem},
       restores := w.restores - {r},
       usage := if st.problem in w.usage then w.usage[st.problem := w.usage[st.problem].(lastAccess := Some(w.now))]
                else w.usage)
  }

  /** An outside writer creates or changes a folder: from here on an evicted copy is no longer what counts. */
  function AfterWrite(w: World, p: ProblemId, files: FileMap): World {
    w.(folders := w.folders[p := files], evicted := w.evicted - {p})
  }

  // ---------------------------------------------------------------- the transition function

  ghost function AfterUpload(w: World, step: UploadStep): World {
    match step
    case Claim(p, generation, token, expected, canonical, links, repeats, scan) =>
      if CanClaim(w, p, generation, token)
      then AfterClaim(w, ClaimedId(w, p, generation),
                      Uploader(p, generation, token, expected, canonical, links, repeats, scan, Claimed))
      else w
    case ClearRows(s) => if AtStage(w, s, Claimed) then AfterClearRows(w, s) else w
    case StartHashing(s) => if AtStage(w, s, RowsCleared) then AfterStartHashing(w, s) else w
    case Prepare(s) => if CanPrepare(w, s) then AfterPrepare(w, s) else w
    case Place(s, path) => if CanPlace(w, s, path) then AfterPlace(w, s, path) else w
    case Record(s, path) => if CanRecord(w, s, path) then AfterRecord(w, s, path) else w
    case StartVerifying(s) => if CanStartVerifying(w, s) then AfterStartVerifying(w, s) else w
    case PutManifest(s) => if AtStage(w, s, VerifyingFiles) then AfterPutManifest(w, s) else w
    case Finalize(s) => if CanFinalize(w, s) then AfterFinalize(w, s) else w
    case Fail(s) => if s in w.uploaders then AfterFail(w, s) else w
    case Crash(s) => w.(uploaders := w.uploaders - {s})
  }

  function AfterCollect(w: World, step: CollectStep): World {
    match step
    case ListEligible(c, refs) => if CanList(w, c, refs) then AfterList(w, c, refs) else w
    case LockKey(c, ref) => if CanLock(w, c, ref) then AfterLock(w, c, ref) else w
    case FirstCheck(c) => if CanCheck(w, c, Locked) then SetPhase(w, c, Cleared) else w
    case SeeAbsent(c) => if CanSeeAbsent(w, c) then SetPhase(w, c, Gone) else w
    case SecondCheck(c) => if CanCheck(w, c, Cleared) && Target(w, c) in w.store then SetPhase(w, c, Confirmed) else w
    case Erase(c) => if AtPhase(w, c, Confirmed) then AfterErase(w, c) else w
    case ThirdCheck(c) => if CanCheck(w, c, Erased) then SetPhase(w, c, Gone) else w
    case Release(c) => if c in w.collectors then SetPhase(w, c, Idle) else w
    case MarkCollected(c) => if AtPhase(w, c, Gone) then AfterMarkCollected(w, c) else w
    case Defer(c, ref, until) => if CanDefer(w, c, ref, until) then AfterDefer(w, ref.mark, until) else w
  }

  function AfterFolder(w: World, step: FolderStep): World {
    match step
    case WriteFolder(p, files) => AfterWrite(w, p, files)
    case RemoveFolder(p) => w.(folders := w.folders - {p})
    case Evict(p, token, s, idleBefore) => if CanEvict(w, p, token, s, idleBefore) then AfterEvict(w, p) else w
    case BeginRestore(r, p, token) => if CanBegin(w, r, p, token) then AfterBegin(w, r, p, token) else w
    case Download(r, generation) =>
      if HasBegun(w, r) && CanDownload(w, w.restores[r].problem, generation) then AfterDownload(w, r, generation) else w
    case Publish(r, s) => if CanPublish(w, r, s) then AfterPublish(w, r) else w
    case AbandonRestore(r) => w.(restores := w.restores - {r})
  }

  function AfterTable(w: World, step: TableStep): World {
    match step
    case Tick(seconds) => w.(now := w.now + seconds)
    case Work(job) => if CanWork(w, job) then AfterWork(w, job) else w
    case AddProblem(p) => if p in w.problems || p in w.usage then w else AfterAdd(w, p)
    case MarkDirty(p, generation) => if p in w.problems then AfterMarkDirty(w, p, generation) else w
    case Redirty(p, generation) => if HasNoReady(w, p) then AfterSetDirty(w, p, Some(generation)) else w
    case SweepDirty(p) => if HasNoReady(w, p) then AfterSetDirty(w, p, None) else w
    case HealUsage(p, s) => if CanHeal(w, p, s) then AfterHeal(w, p, s) else w
    case VerifyLocal(p, s) => if CanVerifyLocal(w, p, s) then AfterVerifyLocal(w, p, s) else w
    case SweepStalled => AfterSweep(w)
    case Retain => AfterRetain(w)
  }

  ghost function After(w: World, step: Step): World {
    match step
    case Upload(upload) => AfterUpload(w, upload)
    case Collect(collect) => AfterCollect(w, collect)
    case Folder(folder) => AfterFolder(w, folder)
    case Table(table) => AfterTable(w, table)
  }

  /** The world after a whole run. */
  ghost function Exec(w: World, run: seq<Step>): World
    decreases |run|
  {
    if run == [] then w else Exec(After(w, run[0]), run[1..])
  }
}
