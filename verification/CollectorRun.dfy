/** One deletion by a collector, from the lock to its end, with nobody in between. */
module CollectorRun {
  import opened Common
  import opened Storage
  import opened RetentionRun
  import opened LocalCopies
  import opened Runs

  lemma PhaseTwice(w: World, c: CollectorId, first: Phase, second: Phase)
    requires c in w.collectors
    ensures SetPhase(SetPhase(w, c, first), c, second) == SetPhase(w, c, second)
  {
    assert SetPhase(SetPhase(w, c, first), c, second).collectors == SetPhase(w, c, second).collectors;
  }

  /** Refused because of a live reference, or the key is out of the store. */
  function Deleted(w: World, c: CollectorId): World
    requires c in w.collectors
  {
    if LiveRef(w, Target(w, c)) then SetPhase(w, c, Idle) else Removes(w, c)
  }

  function Removes(w: World, c: CollectorId): World
    requires c in w.collectors
  {
    SetPhase(w, c, Gone).(store := w.store - {Target(w, c)})
  }

  lemma CollectorStep(w: World, step: CollectStep)
    requires CoreInv(w)
    ensures KeepsInv(w, AfterCollect(w, step))
  {
    hide CoreInv, LocalInv, AfterCollect;
    WorkerKeepsInv(w, Collect(step));
  }

  lemma AbsentKeepsInv(w: World, c: CollectorId)
    requires CoreInv(w) && AtPhase(w, c, Cleared) && Target(w, c) !in w.store
    ensures KeepsInv(w, Removes(w, c))
  {
    hide CoreInv, LocalInv;
    CollectorStep(w, SeeAbsent(c));
    assert w.store - {Target(w, c)} == w.store;
    assert Removes(w, c) == SetPhase(w, c, Gone);
  }

  lemma EraseIsRemoval(w: World, c: CollectorId)
    requires c in w.collectors
    ensures SetPhase(AfterErase(SetPhase(w, c, Confirmed), c), c, Gone) == Removes(w, c)
  {
    assert SetPhase(AfterErase(SetPhase(w, c, Confirmed), c), c, Gone).collectors == SetPhase(w, c, Gone).collectors;
  }

  /** The phases on the way leave nothing behind. */
  lemma RemovalChains(w: World, c: CollectorId)
    requires c in w.collectors
    ensures var w1 := SetPhase(w, c, Cleared);
            var w2 := SetPhase(w1, c, Confirmed).(store := w.store - {Target(w, c)});
            SetPhase(SetPhase(w2, c, Erased), c, Gone) == Removes(w, c)
            && (Target(w, c) !in w.store ==> SetPhase(w1, c, Gone) == Removes(w, c))
  {
    var w1 := SetPhase(w, c, Cleared);
    var w2 := SetPhase(w1, c, Confirmed).(store := w.store - {Target(w, c)});
    assert SetPhase(SetPhase(w2, c, Erased), c, Gone).collectors == SetPhase(w, c, Gone).collectors;
    PhaseTwice(w, c, Cleared, Gone);
    if Target(w, c) !in w.store {
      assert w.store - {Target(w, c)} == w.store;
    }
  }

  lemma PresentKeepsInv(w: World, c: CollectorId)
    requires CoreInv(w) && AtPhase(w, c, Cleared) && Target(w, c) in w.store && !LiveRef(w, Target(w, c))
    ensures KeepsInv(w, Removes(w, c))
  {
    hide CoreInv, LocalInv, LiveRef;
    CollectorStep(w, SecondCheck(c));
    var w1 := SetPhase(w, c, Confirmed);
    CollectorStep(w1, Erase(c));
    var w2 := AfterErase(w1, c);
    SameLive(w, w2, Target(w, c));
    CollectorStep(w2, ThirdCheck(c));
    EraseIsRemoval(w, c);
  }

  /** Each of its steps is a step of the protocol, so the deletion keeps what the protocol keeps. */
  lemma DeletedKeepsInv(w: World, c: CollectorId)
    requires CoreInv(w) && AtPhase(w, c, Locked)
    ensures KeepsInv(w, Deleted(w, c))
  {
    hide CoreInv, LocalInv, LiveRef;
    CollectorStep(w, Release(c));
    if !LiveRef(w, Target(w, c)) {
      CollectorStep(w, FirstCheck(c));
      var w1 := SetPhase(w, c, Cleared);
      SameLive(w, w1, Target(w, c));
      if Target(w, c) in w.store { PresentKeepsInv(w1, c); } else { AbsentKeepsInv(w1, c); }
      PhaseTwice(w, c, Cleared, Gone);
    }
  }

  // ---------------------------------------------------------------- a whole job

  function KeysOf(w: World, refs: seq<MarkRef>): set<ObjectKey> {
    set ref | ref in refs && !LiveRef(w, KeyOf(ref.mark)) :: KeyOf(ref.mark)
  }

  /** What a job makes of one mark: nothing unless it listed this very row; else collected, or put off. */
  function SettledMark(w: World, refs: seq<MarkRef>, m: MarkKey): Mark
    requires m in w.marks
  {
    var mark := w.marks[m];
    if MarkRef(m, mark.epoch) !in refs then mark
    else if !LiveRef(w, KeyOf(m)) then mark.(collected := true)
    else if !mark.collected then mark.(eligibleAt := w.now + w.retention.content)
    else mark
  }

  function SettledMarks(w: World, refs: seq<MarkRef>): map<MarkKey, Mark> {
    map m | m in w.marks :: SettledMark(w, refs, m)
  }

  /** A job that has dealt with `done` of its list, starting from `w`. */
  ghost predicate Progress(w: World, v: World, c: CollectorId, listed: seq<MarkRef>, done: nat)
    requires done <= |listed|
  {
    && KeepsInv(w, v) && v == w.(collectors := v.collectors, store := v.store, marks := v.marks)
    && v.store == w.store - KeysOf(w, listed[..done])
    && v.marks == SettledMarks(w, listed[..done])
    && c in v.collectors && v.collectors[c].worklist == (set ref | ref in listed)
    && (forall d :: d in v.collectors ==> v.collectors[d].phase == Idle)
  }

  lemma Starts(w: World, c: CollectorId, listed: seq<MarkRef>)
    requires CoreInv(w) && c in w.collectors && w.collectors[c].worklist == set ref | ref in listed
    requires forall d :: d in w.collectors ==> w.collectors[d].phase == Idle
    ensures Progress(w, w, c, listed, 0)
  {
    hide CoreInv, LocalInv, LiveRef;
    assert w.store - KeysOf(w, listed[..0]) == w.store;
    assert SettledMarks(w, listed[..0]) == w.marks;
  }

  lemma LocksNext(w: World, v: World, c: CollectorId, listed: seq<MarkRef>, done: nat)
    requires done < |listed| && Progress(w, v, c, listed, done)
    ensures CanLock(v, c, listed[done]) && KeepsInv(w, AfterLock(v, c, listed[done]))
    ensures LiveRef(AfterLock(v, c, listed[done]), KeyOf(listed[done].mark)) == LiveRef(w, KeyOf(listed[done].mark))
  {
    hide CoreInv, LocalInv, LiveRef;
    CollectorStep(v, LockKey(c, listed[done]));
    SameLive(w, AfterLock(v, c, listed[done]), KeyOf(listed[done].mark));
  }

  lemma RemovalSettles(w: World, store: map<ObjectKey, Blob>, marks: map<MarkKey, Mark>, refs: seq<MarkRef>,
    ref: MarkRef)
    requires marks == SettledMarks(w, refs) && !LiveRef(w, KeyOf(ref.mark)) && store == w.store - KeysOf(w, refs)
    ensures store - {KeyOf(ref.mark)} == w.store - KeysOf(w, refs + [ref])
    ensures SettledMarks(w, refs + [ref]) ==
      if AliveRef(marks, ref) then marks[ref.mark := marks[ref.mark].(collected := true)] else marks
  {
    hide LiveRef;
    assert KeysOf(w, refs + [ref]) == KeysOf(w, refs) + {KeyOf(ref.mark)};
  }

  /** Lock, delete, mark: one more key out of the store, one more mark collected. */
  lemma Collects(w: World, v: World, c: CollectorId, listed: seq<MarkRef>, done: nat)
    requires done < |listed| && Progress(w, v, c, listed, done) && !LiveRef(w, KeyOf(listed[done].mark))
    ensures Progress(w, AfterMarkCollected(Deleted(AfterLock(v, c, listed[done]), c), c), c, listed, done + 1)
  {
    hide CoreInv, LocalInv, LiveRef, SettledMarks, KeysOf;
    var ref := listed[done];
    LocksNext(w, v, c, listed, done);
    var v1 := AfterLock(v, c, ref);
    DeletedKeepsInv(v1, c);
    CollectorStep(Deleted(v1, c), MarkCollected(c));
    assert listed[..done + 1] == listed[..done] + [ref];
    RemovalSettles(w, v.store, v.marks, listed[..done], ref);
  }

  /** The mark with this id is put off unless it is collected already. */
  function PutOff(v: World, ref: MarkRef): World {
    if AliveRef(v.marks, ref) && !v.marks[ref.mark].collected
    then AfterDefer(v, ref.mark, v.now + v.retention.content) else v
  }

  lemma PutOffSettles(w: World, marks: map<MarkKey, Mark>, refs: seq<MarkRef>, ref: MarkRef)
    requires marks == SettledMarks(w, refs) && LiveRef(w, KeyOf(ref.mark))
    ensures KeysOf(w, refs + [ref]) == KeysOf(w, refs)
    ensures SettledMarks(w, refs + [ref]) ==
      if AliveRef(marks, ref) && !marks[ref.mark].collected
      then marks[ref.mark := marks[ref.mark].(eligibleAt := w.now + w.retention.content)] else marks
  {
    hide LiveRef;
  }

  /** Lock, meet a live reference, put the mark off. */
  lemma Defers(w: World, v: World, c: CollectorId, listed: seq<MarkRef>, done: nat)
    requires done < |listed| && Progress(w, v, c, listed, done) && LiveRef(w, KeyOf(listed[done].mark))
    ensures Progress(w, PutOff(Deleted(AfterLock(v, c, listed[done]), c), listed[done]), c, listed, done + 1)
  {
    hide CoreInv, LocalInv, LiveRef, SettledMarks, KeysOf;
    var ref := listed[done];
    LocksNext(w, v, c, listed, done);
    var v1 := AfterLock(v, c, ref);
    DeletedKeepsInv(v1, c);
    var v2 := Deleted(v1, c);
    CollectorStep(v2, Defer(c, ref, v2.now + v2.retention.content));
    assert listed[..done + 1] == listed[..done] + [ref];
    PutOffSettles(w, v2.marks, listed[..done], ref);
  }

  // ---------------------------------------------------------------- what a job leaves

  predicate ListsFree(w: World, refs: seq<MarkRef>, key: ObjectKey) {
    !LiveRef(w, key) && exists i :: 0 <= i < |refs| && KeyOf(refs[i].mark) == key
  }

  /** The listed keys that no protected row names leave the store, and nothing else does. */
  ghost predicate FreeKeysGone(w: World, v: World, refs: seq<MarkRef>) {
    && (forall key :: key in v.store <==> key in w.store && !ListsFree(w, refs, key))
    && (forall key :: key in v.store ==> v.store[key] == w.store[key])
  }

  /** Of the marks only listed rows change: those of free keys are collected, others wait as long as a new mark does. */
  ghost predicate ListedMarksSettled(w: World, v: World, refs: seq<MarkRef>) {
    && v.marks.Keys == w.marks.Keys
    && forall m :: m in w.marks ==>
         && v.marks[m].epoch == w.marks[m].epoch && v.marks[m].snapshot == w.marks[m].snapshot
         && if MarkRef(m, w.marks[m].epoch) !in refs then v.marks[m] == w.marks[m]
            else if LiveRef(w, KeyOf(m)) && !w.marks[m].collected
              then EligibleFrom(v, m, w.now + w.retention.content)
            else v.marks[m] == w.marks[m].(collected := true)
  }

  lemma SettlesExactly(w: World, v: World, refs: seq<MarkRef>)
    requires v.store == w.store - KeysOf(w, refs) && v.marks == SettledMarks(w, refs)
    ensures FreeKeysGone(w, v, refs) && ListedMarksSettled(w, v, refs)
  {
    hide LiveRef;
    forall key
      ensures key in KeysOf(w, refs) <==> ListsFree(w, refs, key)
    {
      if key in KeysOf(w, refs) {
        var ref :| ref in refs && !LiveRef(w, KeyOf(ref.mark)) && KeyOf(ref.mark) == key;
      }
    }
  }

  function NewlyCollected(w: World, marks: map<MarkKey, Mark>): set<MarkKey> {
    set m | m in marks && marks[m].collected && m in w.marks && !w.marks[m].collected
  }

  function InUseAt(w: World, refs: seq<MarkRef>): set<nat> {
    set i: nat | i < |refs| && LiveRef(w, KeyOf(refs[i].mark))
  }

  /** WHERE id = ... AND NOT collected. */
  predicate Uncollected(marks: map<MarkKey, Mark>, ref: MarkRef) {
    AliveRef(marks, ref) && !marks[ref.mark].collected
  }

  lemma NoneYet(w: World)
    ensures NewlyCollected(w, w.marks) == {} && InUseAt(w, []) == {}
  {
  }

  lemma CollectsOneMore(w: World, refs: seq<MarkRef>, marks: map<MarkKey, Mark>, ref: MarkRef)
    requires marks == SettledMarks(w, refs) && AliveRef(marks, ref)
    ensures |NewlyCollected(w, marks[ref.mark := marks[ref.mark].(collected := true)])|
            == |NewlyCollected(w, marks)| + if Uncollected(marks, ref) then 1 else 0
  {
    hide LiveRef;
    var after := marks[ref.mark := marks[ref.mark].(collected := true)];
    if Uncollected(marks, ref) {
      assert NewlyCollected(w, after) == NewlyCollected(w, marks) + {ref.mark};
    } else {
      assert after == marks;
    }
  }

  lemma PutsOffNone(w: World, refs: seq<MarkRef>, marks: map<MarkKey, Mark>, m: MarkKey, until: Time)
    requires marks == SettledMarks(w, refs) && m in marks
    ensures NewlyCollected(w, marks[m := marks[m].(eligibleAt := until)]) == NewlyCollected(w, marks)
  {
    hide LiveRef, SettledMarks;
  }

  lemma PhaseLeavesMarks(w: World, c: CollectorId, phase: Phase)
    requires c in w.collectors
    ensures var v := SetPhase(w, c, phase);
            v.marks == w.marks && c in v.collectors && v.collectors[c].target == w.collectors[c].target
  {
  }

  lemma LockLeavesMarks(w: World, c: CollectorId, ref: MarkRef)
    requires c in w.collectors
    ensures var v := AfterLock(w, c, ref);
            v.marks == w.marks && c in v.collectors && v.collectors[c].target == ref
  {
  }

  lemma DeletionLeavesMarks(v: World, c: CollectorId, ref: MarkRef)
    requires c in v.collectors
    ensures c in AfterLock(v, c, ref).collectors && AfterLock(v, c, ref).marks == v.marks
    ensures var v1 := Deleted(AfterLock(v, c, ref), c);
            v1.marks == v.marks && c in v1.collectors && v1.collectors[c].target == ref
  {
    LockLeavesMarks(v, c, ref);
    var u := AfterLock(v, c, ref);
    PhaseLeavesMarks(u, c, Idle);
    PhaseLeavesMarks(u, c, Gone);
    hide LiveRef, Target, SetPhase, AfterLock;
  }

  lemma Markings(v: World, c: CollectorId)
    requires c in v.collectors
    ensures var ref := v.collectors[c].target;
            && AfterMarkCollected(v, c).marks
               == (if AliveRef(v.marks, ref) then v.marks[ref.mark := v.marks[ref.mark].(collected := true)]
                   else v.marks)
            && PutOff(v, ref).marks
               == (if Uncollected(v.marks, ref)
                   then v.marks[ref.mark := v.marks[ref.mark].(eligibleAt := v.now + v.retention.content)] else v.marks)
  {
  }

  lemma MarkingsCount(w: World, refs: seq<MarkRef>, v: World, c: CollectorId)
    requires c in v.collectors && v.marks == SettledMarks(w, refs)
    ensures |NewlyCollected(w, AfterMarkCollected(v, c).marks)|
            == |NewlyCollected(w, v.marks)| + if Uncollected(v.marks, v.collectors[c].target) then 1 else 0
    ensures NewlyCollected(w, PutOff(v, v.collectors[c].target).marks) == NewlyCollected(w, v.marks)
  {
    hide SettledMarks, NewlyCollected, AfterMarkCollected, PutOff;
    var ref := v.collectors[c].target;
    Markings(v, c);
    if AliveRef(v.marks, ref) {
      CollectsOneMore(w, refs, v.marks, ref);
      PutsOffNone(w, refs, v.marks, ref.mark, v.now + v.retention.content);
    }
  }

  /** How marking and putting off count. */
  lemma KeepsCount(w: World, v: World, c: CollectorId, listed: seq<MarkRef>, done: nat)
    requires done < |listed| && Progress(w, v, c, listed, done)
    ensures var v1 := Deleted(AfterLock(v, c, listed[done]), c);
            && c in v1.collectors && v1.collectors[c].target == listed[done] && v1.marks == v.marks
            && |NewlyCollected(w, AfterMarkCollected(v1, c).marks)|
               == |NewlyCollected(w, v.marks)| + (if Uncollected(v.marks, listed[done]) then 1 else 0)
            && NewlyCollected(w, PutOff(v1, listed[done]).marks) == NewlyCollected(w, v.marks)
  {
    hide KeepsInv, LiveRef, KeysOf, SettledMarks, NewlyCollected, AfterMarkCollected, PutOff, Deleted, AfterLock;
    DeletionLeavesMarks(v, c, listed[done]);
    MarkingsCount(w, listed[..done], Deleted(AfterLock(v, c, listed[done]), c), c);
  }

  lemma FindsOneMore(w: World, refs: seq<MarkRef>, done: nat)
    requires done < |refs|
    ensures |InUseAt(w, refs[..done + 1])| ==
            |InUseAt(w, refs[..done])| + if LiveRef(w, KeyOf(refs[done].mark)) then 1 else 0
  {
    hide LiveRef;
    var before, after := InUseAt(w, refs[..done]), InUseAt(w, refs[..done + 1]);
    assert after == if LiveRef(w, KeyOf(refs[done].mark)) then before + {done} else before;
  }
}
