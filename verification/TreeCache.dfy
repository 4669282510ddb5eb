/**
 The tree-fingerprint cache of one folder, with two kinds of readers that use it to skip scans.
 A fingerprint identifies a version of the folder, and a version never comes back once the folder has changed.
 Readers run concurrently: each of their statements is one step, and a scan together with its upsert is one.
 */
module TreeCache {
  import opened Common

  type Version = nat
  type ReaderId = nat

  datatype Sizes = Sizes(logical: nat, allocatedBytes: nat, archive: nat, auxiliary: nat, count: nat)

  /** What a scan of a version gives. */
  datatype Outcome = Unscannable | Scanned(sizes: Sizes, canonical: Option<string>)

  datatype CacheRow = CacheRow(fingerprint: Version, canonical: Option<string>, accounted: Option<Version>)

  datatype LocalStatus = Present | Orphan | Missing

  datatype UsageRow = UsageRow(sizes: Sizes, status: LocalStatus, stale: bool)

  /** A reader between its statements: the fingerprint it took, and what it has done since. */
  datatype Reader =
    | Noted(before: Version)
    | HasScanned(before: Version, canonical: Option<string>, upserted: bool)
    | Checked(before: Version, canonical: Option<string>, upserted: bool)

  datatype State = State(
    folder: Option<Version>,
    next: Version,
    outcomes: map<Version, Outcome>,
    cache: Option<CacheRow>,
    usage: Option<UsageRow>,
    readers: map<ReaderId, Reader>)

  function Init(): State {
    State(None, 0, map[], None, None, map[])
  }

  function OutcomeOf(s: State, v: Version): Outcome {
    if v in s.outcomes then s.outcomes[v] else Unscannable
  }

  // ---------------------------------------------------------------- statements

  /** cache_tree: with `accounting` the sizes in problem_usage are those of this fingerprint. */
  function AfterCacheTree(cache: Option<CacheRow>, v: Version, canonical: Option<string>, accounting: bool): CacheRow {
    CacheRow(v, canonical,
             if accounting then Some(v)
             else if cache.Some? && cache.value.fingerprint == v then cache.value.accounted else None)
  }

  /** upsert_missing_usage: sizes never regress below the latest READY snapshot, but two of them are cleared. */
  function SweptSizes(sizes: Sizes, readyBytes: nat, readyCount: nat): Sizes {
    Sizes(Max(sizes.logical, readyBytes), 0, Max(sizes.archive, readyBytes), 0, Max(sizes.count, readyCount))
  }

  /** A sweep keeps sizes that are larger than the READY snapshot's, and raises smaller ones to them. */
  lemma SweptSizesNeverRegress(sizes: Sizes, readyBytes: nat, readyCount: nat)
    ensures var after := SweptSizes(sizes, readyBytes, readyCount);
            && after.logical >= sizes.logical && after.archive >= sizes.archive && after.count >= sizes.count
            && after.logical >= readyBytes && after.archive >= readyBytes && after.count >= readyCount
            && (readyBytes <= sizes.logical ==> after.logical == sizes.logical)
            && (readyBytes <= sizes.archive ==> after.archive == sizes.archive)
            && (readyCount <= sizes.count ==> after.count == sizes.count)
            && after.allocatedBytes == after.auxiliary == 0
    ensures SweptSizes(SweptSizes(sizes, readyBytes, readyCount), readyBytes, readyCount)
            == SweptSizes(sizes, readyBytes, readyCount)
  {
  }

  function Swept(usage: Option<UsageRow>, readyBytes: nat, readyCount: nat): UsageRow {
    match usage
    case None => UsageRow(Sizes(0, 0, 0, 0, 0), Missing, false)
    case Some(row) => UsageRow(SweptSizes(row.sizes, readyBytes, readyCount), Missing, false)
  }

  /** usage_is_current. */
  predicate UsageIsCurrent(usage: Option<UsageRow>) {
    usage.Some? && (usage.value.status == Present || usage.value.status == Orphan) && !usage.value.stale
  }

  /** cached_usage_matches: reconcile skips the folder. */
  predicate Skips(s: State) {
    && s.cache.Some? && s.cache.value.accounted.Some?
    && s.folder == s.cache.value.accounted
    && UsageIsCurrent(s.usage)
  }

  datatype Step =
    | Change(outcome: Outcome)
    | Remove
    | Note(r: ReaderId)
    | Invalidate
    | ScanAndUpsert(r: ReaderId, status: LocalStatus)
    | ScanOnly(r: ReaderId)
    | Check(r: ReaderId)
    | WriteCache(r: ReaderId, late: Option<string>)
    | MarkStale
    | MarkMissing
    | MarkVerified
    | MissingSweep(readyBytes: nat, readyCount: nat)

  function SetStatus(s: State, status: LocalStatus): State {
    if s.usage.Some? then s.(usage := Some(s.usage.value.(status := status, stale := false))) else s
  }

  function After(s: State, step: Step): State {
    match step
    case Change(outcome) =>
      s.(folder := Some(s.next), next := s.next + 1, outcomes := s.outcomes[s.next := outcome])
    case Remove => s.(folder := None)
    case Note(r) => if s.folder.Some? then s.(readers := s.readers[r := Noted(s.folder.value)]) else s
    case Invalidate => s.(cache := None)
    case ScanAndUpsert(r, status) =>
      if r in s.readers && s.readers[r].Noted? && s.folder.Some? && OutcomeOf(s, s.folder.value).Scanned?
        && status != Missing
      then
        var outcome := OutcomeOf(s, s.folder.value);
        s.(usage := Some(UsageRow(outcome.sizes, status, false)),
           readers := s.readers[r := HasScanned(s.readers[r].before, outcome.canonical, true)])
      else s
    case ScanOnly(r) =>
      if r in s.readers && s.readers[r].Noted? && s.folder.Some? && OutcomeOf(s, s.folder.value).Scanned?
      then s.(readers := s.readers[r := HasScanned(s.readers[r].before, OutcomeOf(s, s.folder.value).canonical, false)])
      else s
    case Check(r) =>
      if r in s.readers && s.readers[r].HasScanned? && s.folder == Some(s.readers[r].before)
      then s.(readers := s.readers[r := Checked(s.readers[r].before, s.readers[r].canonical, s.readers[r].upserted)])
      else s
    case WriteCache(r, late) =>
      if r in s.readers && s.readers[r].Checked?
      then
        var reader := s.readers[r];
        // reconcile reads init.yml after the check: what it finds is the version's own unless the folder has moved on
        var canonical := if s.folder == Some(reader.before) then reader.canonical else late;
        s.(cache := Some(AfterCacheTree(s.cache, reader.before, canonical, reader.upserted)),
          readers := s.readers - {r})
      else s
    case MarkStale => if s.usage.Some? then s.(usage := Some(s.usage.value.(stale := true))) else s
    case MarkMissing => SetStatus(s, Missing)
    case MarkVerified => SetStatus(s, Present)
    case MissingSweep(readyBytes, readyCount) => s.(usage := Some(Swept(s.usage, readyBytes, readyCount)))
  }

  // ---------------------------------------------------------------- invariants

  /** Versions in use are old ones. */
  ghost predicate VersionsOk(s: State) {
    && (s.folder.Some? ==> s.folder.value < s.next)
    && (s.cache.Some? ==> s.cache.value.fingerprint < s.next)
    && (s.cache.Some? && s.cache.value.accounted.Some? ==> s.cache.value.accounted.value < s.next)
    && (forall r :: r in s.readers ==> s.readers[r].before < s.next)
  }

  /** While the folder is still the version a reader or the row speaks of, the canonical path is that version's. */
  ghost predicate CanonicalOk(s: State) {
    s.folder.Some? ==>
      && (s.cache.Some? && s.cache.value.fingerprint == s.folder.value ==>
            OutcomeOf(s, s.folder.value).Scanned? && s.cache.value.canonical == OutcomeOf(s, s.folder.value).canonical)
      && (forall r :: r in s.readers && !s.readers[r].Noted? && s.readers[r].before == s.folder.value ==>
            OutcomeOf(s, s.folder.value).Scanned? && s.readers[r].canonical == OutcomeOf(s, s.folder.value).canonical)
  }

  /** Somebody's upsert, or the cache row, vouches for the sizes of the folder as it is. */
  predicate Vouched(s: State) {
    && s.folder.Some?
    && ((s.cache.Some? && s.cache.value.accounted == s.folder)
        || exists r ::
             r in s.readers && !s.readers[r].Noted? && s.readers[r].before == s.folder.value && s.readers[r].upserted)
  }

  /** Vouched sizes are what a fresh scan would write. */
  ghost predicate SizesOk(s: State) {
    Vouched(s) ==> OutcomeOf(s, s.folder.value).Scanned? && s.usage.Some?
                   && s.usage.value.sizes == OutcomeOf(s, s.folder.value).sizes
  }

  ghost predicate CacheInv(s: State) {
    VersionsOk(s) && CanonicalOk(s) && SizesOk(s)
  }

  /** The sweep leaves the stored sizes as they are. */
  predicate HarmlessSweep(s: State, readyBytes: nat, readyCount: nat) {
    s.usage.Some? && SweptSizes(s.usage.value.sizes, readyBytes, readyCount) == s.usage.value.sizes
  }

  /** If the step is a sweep, nothing vouches for the folder, or no size changes. */
  predicate Spares(s: State, step: Step) {
    step.MissingSweep? ==> !Vouched(s) || HarmlessSweep(s, step.readyBytes, step.readyCount)
  }

  /** Sweeps of the missing only touch folders that are missing. */
  predicate SweepsMissing(s: State, step: Step) {
    step.MissingSweep? ==> s.folder.None?
  }

  /** A sweep keeps vouched sizes right exactly when it spares the folder, and every other step does anyway. */
  lemma StepKeepsCache(s: State, step: Step)
    requires CacheInv(s)
    ensures CacheInv(After(s, step)) <==> Spares(s, step)
  {
  }

  function Exec(s: State, run: seq<Step>): State
    decreases |run|
  {
    if run == [] then s else Exec(After(s, run[0]), run[1..])
  }

  ghost predicate SweepsOnlyMissing(s: State, run: seq<Step>)
    decreases |run|
  {
    run == [] || (SweepsMissing(s, run[0]) && SweepsOnlyMissing(After(s, run[0]), run[1..]))
  }

  lemma {:induction false} RunKeepsCache(s: State, run: seq<Step>)
    requires CacheInv(s) && SweepsOnlyMissing(s, run)
    ensures CacheInv(Exec(s, run))
    decreases |run|
  {
    hide CacheInv, After;
    if run != [] {
      StepKeepsCache(s, run[0]);
      RunKeepsCache(After(s, run[0]), run[1..]);
    }
  }

  /** Whenever reconcile skips a folder, the stored sizes are what a fresh scan would write. */
  lemma SkippedIsAccurate(run: seq<Step>)
    requires SweepsOnlyMissing(Init(), run) && Skips(Exec(Init(), run))
    ensures var s := Exec(Init(), run);
            && OutcomeOf(s, s.folder.value).Scanned?
            && s.usage.value.sizes == OutcomeOf(s, s.folder.value).sizes
  {
    hide Exec, SweepsOnlyMissing;
    RunKeepsCache(Init(), run);
  }

  // ---------------------------------------------------------------- canonical paths

  /** Whatever sweeps there are, canonical paths are those of the versions they are kept with. */
  lemma StepKeepsCanonical(s: State, step: Step)
    requires VersionsOk(s) && CanonicalOk(s)
    ensures VersionsOk(After(s, step)) && CanonicalOk(After(s, step))
  {
  }

  lemma {:induction false} RunKeepsCanonical(s: State, run: seq<Step>)
    requires VersionsOk(s) && CanonicalOk(s)
    ensures VersionsOk(Exec(s, run)) && CanonicalOk(Exec(s, run))
    decreases |run|
  {
    hide VersionsOk, CanonicalOk, After;
    if run != [] {
      StepKeepsCanonical(s, run[0]);
      RunKeepsCanonical(After(s, run[0]), run[1..]);
    }
  }

  /** A cache hit has the canonical path that a full rescan of the folder would find. */
  lemma CacheHitIsAccurate(run: seq<Step>)
    requires var s := Exec(Init(), run); s.folder.Some? && s.cache.Some? && s.cache.value.fingerprint == s.folder.value
    ensures var s := Exec(Init(), run);
            OutcomeOf(s, s.folder.value).Scanned? && OutcomeOf(s, s.folder.value).canonical == s.cache.value.canonical
  {
    hide Exec;
    RunKeepsCanonical(Init(), run);
  }

  // ---------------------------------------------------------------- exactly which sweeps do no harm

  /** If reconcile skips the folder in this state, the stored sizes are a fresh scan's. */
  ghost predicate SkipsRight(s: State) {
    Skips(s) ==> OutcomeOf(s, s.folder.value).Scanned? && s.usage.value.sizes == OutcomeOf(s, s.folder.value).sizes
  }

  /** Whatever happens from here on, as long as later sweeps find the folder missing, skipping is right. */
  ghost predicate Sound(s: State) {
    forall run :: SweepsOnlyMissing(s, run) ==> SkipsRight(Exec(s, run))
  }

  lemma UnsoundBefore(s: State, step: Step)
    requires !Sound(After(s, step)) && !step.MissingSweep?
    ensures !Sound(s)
  {
    hide After, SkipsRight;
    var run :| SweepsOnlyMissing(After(s, step), run) && !SkipsRight(Exec(After(s, step), run));
    OneStep(s, step, run);
    assert ([step] + run)[0] == step && ([step] + run)[1..] == run;
    assert SweepsOnlyMissing(s, [step] + run);
  }

  /** The stored sizes are not the folder's. */
  ghost predicate WrongSizes(s: State) {
    s.folder.Some? && s.usage.Some?
    && !(OutcomeOf(s, s.folder.value).Scanned? && s.usage.value.sizes == OutcomeOf(s, s.folder.value).sizes)
  }

  /** The watcher finds the folder matching its snapshot, and reconcile skips it. */
  lemma AccountedIsUnsound(s: State)
    requires WrongSizes(s) && s.cache.Some? && s.cache.value.accounted == s.folder
    ensures !Sound(s)
  {
    var v := After(s, MarkVerified);
    assert SweepsOnlyMissing(v, []) && Exec(v, []) == v;
    assert !SkipsRight(v);
    UnsoundBefore(s, MarkVerified);
  }

  lemma CheckedIsUnsound(s: State, r: ReaderId)
    requires WrongSizes(s) && r in s.readers && s.readers[r].Checked?
    requires s.readers[r].before == s.folder.value && s.readers[r].upserted
    ensures !Sound(s)
  {
    hide Sound;
    AccountedIsUnsound(After(s, WriteCache(r, None)));
    UnsoundBefore(s, WriteCache(r, None));
  }

  /** A reader that upserted before the sizes went wrong vouches for them when it writes the cache. */
  lemma VouchedIsUnsound(s: State)
    requires WrongSizes(s) && Vouched(s)
    ensures !Sound(s)
  {
    hide Sound;
    if s.cache.Some? && s.cache.value.accounted == s.folder {
      AccountedIsUnsound(s);
    } else {
      var r :| r in s.readers && !s.readers[r].Noted? && s.readers[r].before == s.folder.value && s.readers[r].upserted;
      if s.readers[r].Checked? {
        CheckedIsUnsound(s, r);
      } else {
        CheckedIsUnsound(After(s, Check(r)), r);
        UnsoundBefore(s, Check(r));
      }
    }
  }

  lemma InvIsSound(s: State)
    requires CacheInv(s)
    ensures Sound(s)
  {
    hide SweepsOnlyMissing, Exec;
    forall run | SweepsOnlyMissing(s, run)
      ensures SkipsRight(Exec(s, run))
    {
      RunKeepsCache(s, run);
    }
  }

  /** A missing sweep leaves skipping right for good exactly when nothing vouches for the folder or no size changes. */
  lemma SweepIsSoundExactly(s: State, readyBytes: nat, readyCount: nat)
    requires CacheInv(s)
    ensures Sound(After(s, MissingSweep(readyBytes, readyCount))) <==> Spares(s, MissingSweep(readyBytes, readyCount))
  {
    hide Sound;
    var step := MissingSweep(readyBytes, readyCount);
    StepKeepsCache(s, step);
    if Spares(s, step) {
      InvIsSound(After(s, step));
    } else {
      VouchedIsUnsound(After(s, step));
    }
  }

  ghost predicate AlwaysSound(s: State, run: seq<Step>)
    decreases |run|
  {
    Sound(s) && (run == [] || AlwaysSound(After(s, run[0]), run[1..]))
  }

  ghost predicate SparingRun(s: State, run: seq<Step>)
    decreases |run|
  {
    run == [] || (Spares(s, run[0]) && SparingRun(After(s, run[0]), run[1..]))
  }

  /** Over any interleaving, skipping stays right for good exactly when every sweep of the run spares the folder. */
  lemma {:induction false} SoundExactlyWhenSparing(s: State, run: seq<Step>)
    requires CacheInv(s)
    ensures AlwaysSound(s, run) <==> SparingRun(s, run)
    decreases |run|
  {
    hide CacheInv, After, Sound, Vouched, HarmlessSweep;
    InvIsSound(s);
    if run != [] {
      StepKeepsCache(s, run[0]);
      if run[0].MissingSweep? {
        SweepIsSoundExactly(s, run[0].readyBytes, run[0].readyCount);
      }
      if Spares(s, run[0]) {
        SoundExactlyWhenSparing(After(s, run[0]), run[1..]);
      }
    }
  }

  // ---------------------------------------------------------------- where a stale plan breaks it

  lemma OneStep(s: State, step: Step, rest: seq<Step>)
    ensures Exec(s, [step] + rest) == Exec(After(s, step), rest)
  {
    hide After;
    assert ([step] + rest)[1..] == rest;
  }

  /**
   A sweep that was planned while the folder was away runs after it is back and accounted for; the watcher then finds
   the folder matching its snapshot. Reconcile skips it although the stored sizes are not the folder's.
   */
  lemma StaleSweepDeceives()
    ensures exists run :: var s := Exec(Init(), run);
              Skips(s) && OutcomeOf(s, s.folder.value).Scanned?
                && s.usage.value.sizes != OutcomeOf(s, s.folder.value).sizes
  {
    hide Exec;
    var sizes := Sizes(5, 8, 3, 2, 1);
    var s0 := Init();
    var s1 := After(s0, Change(Scanned(sizes, Some("a.zip"))));
    var s2 := After(s1, Note(0));
    var s3 := After(s2, ScanAndUpsert(0, Present));
    var s4 := After(s3, Check(0));
    var s5 := After(s4, WriteCache(0, None));
    var s6 := After(s5, MissingSweep(0, 0));
    var s7 := After(s6, MarkVerified);
    var tail5 := [MissingSweep(0, 0)] + [MarkVerified];
    var tail3 := [Check(0)] + ([WriteCache(0, None)] + tail5);
    var run := [Change(Scanned(sizes, Some("a.zip")))] + ([Note(0)] + ([ScanAndUpsert(0, Present)] + tail3));
    OneStep(s0, Change(Scanned(sizes, Some("a.zip"))), [Note(0)] + ([ScanAndUpsert(0, Present)] + tail3));
    OneStep(s1, Note(0), [ScanAndUpsert(0, Present)] + tail3);
    OneStep(s2, ScanAndUpsert(0, Present), tail3);
    OneStep(s3, Check(0), [WriteCache(0, None)] + tail5);
    OneStep(s4, WriteCache(0, None), tail5);
    OneStep(s5, MissingSweep(0, 0), [MarkVerified]);
    OneStep(s6, MarkVerified, []);
    assert [MarkVerified] + [] == [MarkVerified];
    assert Exec(s7, []) == s7 by { NoSteps(s7); }
    assert s5.usage.value.sizes == sizes && s7.usage.value.sizes.allocatedBytes == 0;
    assert Exec(s0, run) == s7;
  }

  lemma NoSteps(s: State)
    ensures Exec(s, []) == s
  {
  }

  // ---------------------------------------------------------------- the two readers

  datatype Readiness = Readiness(ready: bool, status: string, generation: Option<int>)

  /** What is at the folder's path. */
  datatype Place = Nothing | File | Folder(version: Version)

  /** The answer of a rescan that looks at no cache. */
  function Rescan(place: Place, outcome: Outcome, latest: Option<int>): Readiness {
    match place
    case Nothing => Readiness(false, "missing", latest)
    case File => Readiness(false, "partial", None)
    case Folder(_) =>
      match outcome
      case Unscannable => Readiness(false, "partial", None)
      case Scanned(_, canonical) => Readiness(canonical.Some?, if canonical.Some? then "present" else "partial", latest)
  }

  class FolderView {
    var place: Place
    var outcome: Outcome                // of a scan of the folder as it is
    var latestReady: Option<int>        // generation of the problem's latest READY snapshot
    var matchesReady: bool              // ready_snapshot_matches_scan would accept the folder
    var cache: Option<CacheRow>
    var usage: Option<UsageRow>

    /** The cache row, if it is of this version, has its canonical path and its sizes. */
    predicate Honest()
      reads this
    {
      place.Folder? && cache.Some? && cache.value.fingerprint == place.version ==>
        outcome.Scanned? && cache.value.canonical == outcome.canonical
    }

    predicate Accurate()
      reads this
    {
      place.Folder? && cache.Some? && cache.value.accounted == Some(place.version) ==>
        outcome.Scanned? && usage.Some? && usage.value.sizes == outcome.sizes
    }

    /** problem_readiness: with or without a cache hit, the answer of a rescan. */
    method ProblemReadiness() returns (r: Readiness)
      requires Honest() && Accurate()
      modifies this`cache
      ensures Honest() && Accurate()
      ensures r == Rescan(place, outcome, latestReady)
      ensures r.ready <==> place.Folder? && outcome.Scanned? && outcome.canonical.Some?
      ensures r.status == if place.Nothing? then "missing" else if r.ready then "present" else "partial"
      ensures r.generation == if place.Nothing? || (place.Folder? && outcome.Scanned?) then latestReady else None
      ensures place.Folder? && outcome.Scanned? ==>
                cache.Some? && cache.value.fingerprint == place.version && cache.value.canonical == outcome.canonical
    {
      if place.Nothing? {
        return Readiness(false, "missing", latestReady);
      }
      if !place.Folder? {
        return Readiness(false, "partial", None);
      }
      var before := place.version;
      if cache.Some? {
        if cache.value.fingerprint == before {
          var usable := cache.value.canonical.Some?;
          return Readiness(usable, if usable then "present" else "partial", latestReady);
        }
        cache := None;
      }
      if outcome.Unscannable? {
        return Readiness(false, "partial", None);
      }
      var canonical := outcome.canonical;
      cache := Some(AfterCacheTree(cache, before, canonical, false));
      var matched := if canonical.Some? && matchesReady then latestReady else None;
      var usable := canonical.Some?;
      return Readiness(usable, if usable then "present" else "partial", if matched.Some? then matched else latestReady);
    }

    /** One known folder of a reconcile run: skip it, or scan it, store its sizes and cache it. */
    method ReconcileKnown() returns (reused: bool, ok: bool)
      requires Honest() && Accurate() && place.Folder?
      modifies this`cache, this`usage
      ensures Honest() && Accurate()
      ensures ok <==> outcome.Scanned?
      ensures ok ==> usage.Some? && usage.value.sizes == outcome.sizes && UsageIsCurrent(usage)
      ensures ok ==> cache.Some? && cache.value.accounted == Some(place.version)
      ensures reused ==> usage == old(usage) && cache == old(cache)
      ensures reused <==>
                && old(cache).Some? && old(cache).value.accounted == Some(place.version)
                && old(usage).Some? && old(usage).value.status != Missing && !old(usage).value.stale
      ensures !reused && ok ==> usage == Some(UsageRow(outcome.sizes, Present, false))
                                && cache == Some(CacheRow(place.version, outcome.canonical, Some(place.version)))
      ensures !ok ==> cache == None && usage == old(usage)
    {
      if cache.Some? && cache.value.accounted == Some(place.version) && UsageIsCurrent(usage) {
        return true, true;
      }
      cache := None;
      var before := place.version;
      if outcome.Unscannable? {
        return false, false;
      }
      usage := Some(UsageRow(outcome.sizes, Present, false));
      if place.version == before {
        cache := Some(AfterCacheTree(cache, before, outcome.canonical, true));
      }
      return false, true;
    }
  }
}
