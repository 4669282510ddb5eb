/**
 Dirty notifications: each distinct key counts once, and no snapshot swallows an edit it has not captured. What can
 swallow one is the sweep that takes a problem without a local folder and without a READY snapshot for clean.
 */
module DirtyLedger {
  import opened Common
  import S = Storage

  /** The fields that the fingerprint covers; `deleted` is the catalog state of the event. */
  datatype Event = Event(problem: ProblemId, payload: string, deleted: bool)

  /** What other tables say: catalog state 'present' or 'mirror', local status 'missing', some READY snapshot. */
  datatype Seen = Seen(listed: bool, missing: bool, ready: bool)

  /** problems rows, idempotency_keys rows of scope 'problem.dirty', and how often anything else bumped a problem. */
  datatype Ledger = Ledger(
    problems: map<ProblemId, S.Problem>,
    keys: map<string, Event>,
    bumps: map<ProblemId, nat>,
    seen: map<ProblemId, Seen>)

  datatype Step =
    | Notify(key: string, event: Event, generation: int)
    | Bump(problem: ProblemId, dirtyGeneration: Option<int>)
    | Clear(problem: ProblemId, generation: int, expected: Option<int>)
    | ClearMissing
    | Redirty(problem: ProblemId, generation: int)
    | Observe(problem: ProblemId, now: Seen)

  const EMPTY: Ledger := Ledger(map[], map[], map[], map[])

  function Version(l: Ledger, p: ProblemId): int {
    if p in l.problems then l.problems[p].dirtyVersion else 0
  }

  function Bumps(l: Ledger, p: ProblemId): nat {
    if p in l.bumps then l.bumps[p] else 0
  }

  function SeenOf(l: Ledger, p: ProblemId): Seen {
    if p in l.seen then l.seen[p] else Seen(false, false, false)
  }

  /** The WHERE clause of the sweep, but for the dirty flag: listed, missing on disk, and never backed up. */
  predicate TakenForClean(l: Ledger, p: ProblemId) {
    SeenOf(l, p).listed && SeenOf(l, p).missing && !SeenOf(l, p).ready
  }

  /** clearDirtyForMissingLocal: no version and no job is asked for. */
  function Swept(l: Ledger): map<ProblemId, S.Problem> {
    map p | p in l.problems ::
      if l.problems[p].dirty && TakenForClean(l, p) then l.problems[p].(dirty := false, dirtyGeneration := None)
      else l.problems[p]
  }

  /** The INSERT ... ON CONFLICT of an event that was not seen before. */
  function Noted(l: Ledger, event: Event, generation: int): S.Problem {
    if event.deleted
    then S.Problem(false, None, Version(l, event.problem))
    else S.Problem(true, Some(generation), Version(l, event.problem) + 1)
  }

  function After(l: Ledger, step: Step): Ledger {
    match step
    case Notify(key, event, generation) =>
      if key in l.keys then l
      else l.(keys := l.keys[key := event], problems := l.problems[event.problem := Noted(l, event, generation)],
              seen := l.seen[event.problem := SeenOf(l, event.problem).(listed := !event.deleted)])
    case Bump(p, generation) =>
      if p in l.problems
      then l.(problems := l.problems[p := S.Problem(true, generation, l.problems[p].dirtyVersion + 1)],
              bumps := l.bumps[p := Bumps(l, p) + 1])
      else l
    case Clear(p, generation, expected) => l.(problems := S.ClearedProblems(l.problems, p, generation, expected))
    case ClearMissing => l.(problems := Swept(l))
    case Redirty(p, generation) =>
      // markDirtyIfNoReady: recovery is no new edit, so the version stays
      if p in l.problems && !l.problems[p].dirty && SeenOf(l, p).listed && !SeenOf(l, p).ready
      then l.(problems := l.problems[p := S.Problem(true, Some(generation), l.problems[p].dirtyVersion)])
      else l
    case Observe(p, now) => if p in l.problems then l.(seen := l.seen[p := now]) else l
  }

  function Exec(l: Ledger, run: seq<Step>): Ledger
    decreases |run|
  {
    if run == [] then l else Exec(After(l, run[0]), run[1..])
  }

  // ---------------------------------------------------------------- each key counts once

  /** The keys whose event dirtied the problem. */
  function DirtyKeys(l: Ledger, p: ProblemId): set<string> {
    set key | key in l.keys && l.keys[key].problem == p && !l.keys[key].deleted
  }

  /** The version counts the distinct notifications and the other bumps, and nothing else. */
  ghost predicate Counted(l: Ledger) {
    && (forall p :: Version(l, p) == |DirtyKeys(l, p)| + Bumps(l, p))
    && (forall key :: key in l.keys ==> l.keys[key].problem in l.problems)
  }

  lemma NotifyKeys(l: Ledger, key: string, event: Event, generation: int, p: ProblemId)
    requires key !in l.keys
    ensures key !in DirtyKeys(l, p)
    ensures DirtyKeys(After(l, Notify(key, event, generation)), p) ==
              if p == event.problem && !event.deleted then DirtyKeys(l, p) + {key} else DirtyKeys(l, p)
  {
  }

  lemma NotifyKeepsCount(l: Ledger, key: string, event: Event, generation: int)
    requires Counted(l) && key !in l.keys
    ensures Counted(After(l, Notify(key, event, generation)))
  {
    hide DirtyKeys;
    var v := After(l, Notify(key, event, generation));
    forall p
      ensures Version(v, p) == |DirtyKeys(v, p)| + Bumps(v, p)
    {
      NotifyKeys(l, key, event, generation, p);
      assert Version(l, p) == |DirtyKeys(l, p)| + Bumps(l, p);
    }
  }

  lemma BumpKeepsCount(l: Ledger, p: ProblemId, generation: Option<int>)
    requires Counted(l)
    ensures Counted(After(l, Bump(p, generation)))
  {
    var v := After(l, Bump(p, generation));
    forall r
      ensures Version(v, r) == |DirtyKeys(v, r)| + Bumps(v, r)
    {
      assert DirtyKeys(v, r) == DirtyKeys(l, r);
      assert Version(l, r) == |DirtyKeys(l, r)| + Bumps(l, r);
    }
  }

  /** The other steps touch neither keys nor versions. */
  lemma OthersKeepCount(l: Ledger, step: Step)
    requires Counted(l) && !step.Notify? && !step.Bump?
    ensures Counted(After(l, step))
  {
    var v := After(l, step);
    forall r
      ensures Version(v, r) == |DirtyKeys(v, r)| + Bumps(v, r)
    {
      assert DirtyKeys(v, r) == DirtyKeys(l, r);
      assert Version(l, r) == |DirtyKeys(l, r)| + Bumps(l, r);
    }
  }

  lemma {:induction false} RunKeepsCount(l: Ledger, run: seq<Step>)
    requires Counted(l)
    ensures Counted(Exec(l, run))
    decreases |run|
  {
    hide Counted;
    if run != [] {
      match run[0] {
        case Notify(key, event, generation) => if key !in l.keys { NotifyKeepsCount(l, key, event, generation); }
        case Bump(p, generation) => BumpKeepsCount(l, p, generation);
        case _ => OthersKeepCount(l, run[0]);
      }
      RunKeepsCount(After(l, run[0]), run[1..]);
    }
  }

  /** Over any run with any replays, each distinct key of a problem has bumped its version exactly once. */
  lemma EachKeyCountsOnce(run: seq<Step>, p: ProblemId)
    ensures var l := Exec(EMPTY, run); Version(l, p) == |DirtyKeys(l, p)| + Bumps(l, p)
  {
    hide Exec;
    assert Counted(EMPTY) by { assert forall r :: DirtyKeys(EMPTY, r) == {}; }
    RunKeepsCount(EMPTY, run);
  }

  /** A replay, whenever it comes, changes nothing. */
  lemma {:induction false} ReplayChangesNothing(l: Ledger, key: string, event: Event, run: seq<Step>, generation: int)
    requires key in l.keys
    ensures After(Exec(l, run), Notify(key, event, generation)) == Exec(l, run)
    decreases |run|
  {
    if run != [] {
      ReplayChangesNothing(After(l, run[0]), key, event, run[1..], generation);
    }
  }

  // ---------------------------------------------------------------- no edit is lost

  predicate IsDirty(l: Ledger, p: ProblemId) {
    p in l.problems && l.problems[p].dirty
  }

  /** Nothing in the run deletes the problem, and every snapshot job that clears captured an older version. */
  predicate OlderClears(run: seq<Step>, p: ProblemId, version: int) {
    forall step :: step in run ==>
      && (step.Notify? && step.event.problem == p ==> !step.event.deleted)
      && (step.Clear? && step.problem == p && step.expected.Some? ==> step.expected.value < version)
  }

  /** No sweep of the run comes while the problem looks missing and never backed up. */
  predicate SweepsSpare(l: Ledger, run: seq<Step>, p: ProblemId)
    decreases |run|
  {
    run == []
    || ((run[0].ClearMissing? ==> !TakenForClean(l, p)) && SweepsSpare(After(l, run[0]), run[1..], p))
  }

  predicate DirtyThroughout(l: Ledger, run: seq<Step>, p: ProblemId)
    decreases |run|
  {
    IsDirty(l, p) && (run == [] || DirtyThroughout(After(l, run[0]), run[1..], p))
  }

  /**
   No lost edit: until a job that captured this version, or a later one, clears it, a dirty problem stays dirty
   exactly when no sweep takes it for clean.
   */
  lemma {:induction false} NoLostEdit(l: Ledger, run: seq<Step>, p: ProblemId)
    requires IsDirty(l, p) && OlderClears(run, p, Version(l, p))
    ensures DirtyThroughout(l, run, p) <==> SweepsSpare(l, run, p)
    decreases |run|
  {
    if run != [] {
      assert run[0] in run;
      var v := After(l, run[0]);
      if IsDirty(v, p) {
        forall step | step in run[1..]
          ensures step in run
        {
        }
        assert OlderClears(run[1..], p, Version(v, p));
        NoLostEdit(v, run[1..], p);
      }
    }
  }

  /** A notified problem whose folder is then seen missing, and which no snapshot has backed up yet. */
  function Missed(first: string, created: Event, generation: int): seq<Step> {
    [Notify(first, created, generation), Observe(created.problem, Seen(true, true, false))]
  }

  /**
   The edit that a sweep swallows: a problem is notified, its folder is seen missing, the problem is edited and notified
   again, which leaves the usage row as it is, and the reconcile route sweeps. No job captured anything, and the flag is
   gone.
   */
  lemma SweepSwallowsEdit(p: ProblemId, first: string, created: Event, key: string, event: Event, generation: int)
    requires created.problem == event.problem == p && !created.deleted && !event.deleted && first != key
    ensures var run := [Notify(key, event, generation + 1), ClearMissing];
            var l := Exec(EMPTY, Missed(first, created, generation));
            && Version(l, p) == 1 && IsDirty(Exec(l, run[..1]), p) && Version(Exec(l, run[..1]), p) == 2
            && OlderClears(run, p, 0) && !IsDirty(Exec(l, run), p) && Version(Exec(l, run), p) == 2
  {
    var create, observe := Notify(first, created, generation), Observe(p, Seen(true, true, false));
    assert Missed(first, created, generation) == [create] + ([observe] + []);
    ExecOne(EMPTY, create, [observe] + []);
    ExecOne(After(EMPTY, create), observe, []);
    var l := After(After(EMPTY, create), observe);
    var notify := Notify(key, event, generation + 1);
    assert [notify, ClearMissing] == [notify] + ([ClearMissing] + []) && [notify, ClearMissing][..1] == [notify] + [];
    ExecOne(l, notify, []);
    ExecOne(l, notify, [ClearMissing] + []);
    ExecOne(After(l, notify), ClearMissing, []);
  }

  lemma ExecOne(l: Ledger, step: Step, run: seq<Step>)
    ensures Exec(l, [step] + run) == Exec(After(l, step), run)
  {
    assert ([step] + run)[1..] == run;
  }

  /** A clearing statement takes effect exactly when nothing bumped the version since the job captured it. */
  lemma ClearsExactlyWhatWasCaptured(l: Ledger, p: ProblemId, generation: int, captured: int)
    requires IsDirty(l, p) && l.problems[p].dirtyGeneration.Some? && l.problems[p].dirtyGeneration.value <= generation
    ensures !IsDirty(After(l, Clear(p, generation, Some(captured))), p) <==> Version(l, p) == captured
  {
  }

  // ---------------------------------------------------------------- the statements

  ghost predicate OthersSame(problems: map<ProblemId, S.Problem>, after: map<ProblemId, S.Problem>, p: ProblemId) {
    p in after && after == problems[p := after[p]]
  }

  datatype NotifyError = IdempotencyConflict

  class DirtyTable {
    var problems: map<ProblemId, S.Problem>
    var keys: map<string, Event>
    var bumps: map<ProblemId, nat>
    var seen: map<ProblemId, Seen>

    function Contents(): Ledger
      reads this
    {
      Ledger(problems, keys, bumps, seen)
    }

    /** markProblemDirtyIdempotent: the key is claimed first; a key that is taken replays or conflicts. */
    method MarkProblemDirtyIdempotent(key: string, event: Event, generation: int) returns (r: Result<bool, NotifyError>)
      modifies this`problems, this`keys, this`seen
      ensures Contents() == After(old(Contents()), Notify(key, event, generation))
      ensures r.Err? <==> key in old(keys) && old(keys)[key] != event
      ensures r.Ok? ==> (r.value <==> key !in old(keys))
      ensures r != Ok(true) ==> Contents() == old(Contents())
      ensures r == Ok(true) ==>
                && keys == old(keys)[key := event] && OthersSame(old(problems), problems, event.problem)
                && IsDirty(Contents(), event.problem) == !event.deleted
                && problems[event.problem].dirtyGeneration == (if event.deleted then None else Some(generation))
                && Version(Contents(), event.problem) ==
                   (if event.deleted then old(Version(Contents(), event.problem))
                    else old(Version(Contents(), event.problem)) + 1)
                && SeenOf(Contents(), event.problem).listed == !event.deleted
    {
      if key in keys {
        return if keys[key] == event then Ok(false) else Err(IdempotencyConflict);
      }
      keys := keys[key := event];
      seen := seen[event.problem := SeenOf(Contents(), event.problem).(listed := !event.deleted)];
      if event.deleted {
        var version := if event.problem in problems then problems[event.problem].dirtyVersion else 0;
        problems := problems[event.problem := S.Problem(false, None, version)];
      } else {
        var version := if event.problem in problems then problems[event.problem].dirtyVersion + 1 else 1;
        problems := problems[event.problem := S.Problem(true, None, version)];
        // the generation is allocated after the upsert and written in the same transaction
        problems := problems[event.problem := problems[event.problem].(dirtyGeneration := Some(generation))];
      }
      return Ok(true);
    }

    /** The UPDATE of the control plane and the one in the final transaction of a snapshot. */
    method ClearDirtyAfterSnapshot(p: ProblemId, generation: int, expected: Option<int>) returns (cleared: bool)
      modifies this`problems
      ensures Contents() == After(old(Contents()), Clear(p, generation, expected))
      ensures cleared <==> p in old(problems) && S.ShouldClearDirty(old(problems)[p], generation, expected)
      ensures cleared <==> old(IsDirty(Contents(), p)) && expected == Some(old(problems)[p].dirtyVersion)
                           && old(problems)[p].dirtyGeneration.Some?
                           && old(problems)[p].dirtyGeneration.value <= generation
      ensures cleared ==> OthersSame(old(problems), problems, p)
                          && problems[p] == S.Problem(false, None, old(problems)[p].dirtyVersion)
      ensures !cleared ==> problems == old(problems)
    {
      cleared := false;
      if expected.None? || p !in problems {
        return;
      }
      var row := problems[p];
      if row.dirty && row.dirtyGeneration.Some? && row.dirtyGeneration.value <= generation
         && row.dirtyVersion == expected.value {
        problems := problems[p := row.(dirty := false, dirtyGeneration := None)];
        cleared := true;
      }
    }

    /** clearDirtyForMissingLocal. What goes clean was missing on disk and never backed up. */
    method ClearDirtyForMissingLocal()
      modifies this`problems
      ensures Contents() == After(old(Contents()), ClearMissing)
      ensures forall p :: IsDirty(old(Contents()), p) ==> (!IsDirty(Contents(), p) <==> TakenForClean(Contents(), p))
      ensures problems.Keys == old(problems).Keys
      ensures forall p :: p in problems ==>
                problems[p] == if old(problems)[p].dirty && p in seen && seen[p] == Seen(true, true, false)
                               then S.Problem(false, None, old(problems)[p].dirtyVersion) else old(problems)[p]
      ensures forall p :: Version(Contents(), p) == Version(old(Contents()), p)
    {
      problems := map p | p in problems ::
        if problems[p].dirty && TakenForClean(Contents(), p) then problems[p].(dirty := false, dirtyGeneration := None)
        else problems[p];
    }

    /** markDirtyIfNoReady: dirty again, under a new generation and the old version. */
    method MarkDirtyIfNoReady(p: ProblemId, generation: int) returns (marked: bool)
      modifies this`problems
      ensures Contents() == After(old(Contents()), Redirty(p, generation))
      ensures marked <==> p in old(problems) && !old(problems)[p].dirty && p in seen && seen[p].listed && !seen[p].ready
      ensures marked ==> OthersSame(old(problems), problems, p)
                         && problems[p] == S.Problem(true, Some(generation), old(problems)[p].dirtyVersion)
      ensures !marked ==> problems == old(problems)
      ensures Version(Contents(), p) == old(Version(Contents(), p))
    {
      marked := p in problems && !problems[p].dirty && SeenOf(Contents(), p).listed && !SeenOf(Contents(), p).ready;
      if marked {
        problems := problems[p := S.Problem(true, Some(generation), problems[p].dirtyVersion)];
      }
    }
  }
}
