/** The retention transaction: what it may prune, and that running it again changes nothing. */
module RetentionRun {
  import opened Common
  import opened Storage
  import opened SnapshotRows
  import opened GcMarks

  // ---------------------------------------------------------------- protection and expiry

  /** On rows with their timestamps, protection is the complement of expiry. */
  lemma ProtectedUnlessExpired(retention: Retention, now: Time, row: Snapshot)
    requires WellFormedRow(row)
    ensures Protected(retention, now, row) <==> !Expired(retention, now, row)
  {
  }

  // ---------------------------------------------------------------- prune never drops a last reference

  /** The object is gone, or another protected snapshot still names it after the transaction. */
  ghost predicate NotLast(w: World, key: ObjectKey) {
    key !in w.store || LiveRef(w, key)
  }

  lemma PruneKeepsLive(w: World, key: ObjectKey)
    ensures LiveRef(w, key) <==> LiveRef(AfterPrune(w), key)
  {
    hide Refers, CollectedMark, OtherLiveRef;
    var v := AfterPrune(w);
    forall s | s in w.snapshots && Protected(w.retention, w.now, w.snapshots[s])
      ensures s in v.snapshots && v.snapshots[s] == w.snapshots[s]
    {
      assert !Expired(w.retention, w.now, w.snapshots[s]);
    }
  }

  lemma MarkKeepsLive(w: World, key: ObjectKey)
    ensures LiveRef(w, key) <==> LiveRef(AfterMark(w), key)
  {
    hide Refers, ProposedMarks, Written, Owner;
  }

  lemma RetainKeepsLive(w: World, key: ObjectKey)
    ensures LiveRef(w, key) <==> LiveRef(AfterRetain(w), key)
  {
    hide LiveRef, AfterPrune, AfterMark;
    PruneKeepsLive(w, key);
    MarkKeepsLive(AfterPrune(w), key);
  }

  /** Whatever a pruned row named is absent from the store or named by a row that stays and is protected. */
  lemma PruneDropsNoLastReference(w: World, s: SnapshotId, key: ObjectKey)
    requires AbsenceInv(w)
    requires s in w.snapshots && s !in AfterRetain(w).snapshots && Refers(w.snapshots[s], key)
    ensures NotLast(AfterRetain(w), key)
  {
    hide AfterMark, LiveRef;
    assert AfterRetain(w).snapshots == AfterPrune(w).snapshots && AfterRetain(w).store == w.store by {
      RetainFrame(w);
    }
    assert Prunable(w, s);
    if CollectedMark(w.marks, key) {
      assert key !in w.store;
    } else {
      assert OtherLiveRef(w, s, key);
      OtherIsLive(w, s, key);
      RetainKeepsLive(w, key);
    }
  }

  lemma OtherIsLive(w: World, s: SnapshotId, key: ObjectKey)
    requires OtherLiveRef(w, s, key)
    ensures LiveRef(w, key)
  {
  }

  lemma RetainFrame(w: World)
    ensures AfterRetain(w).snapshots == AfterPrune(w).snapshots && AfterRetain(w).store == w.store
  {
    hide AfterPrune, ProposedMarks, Written, Owner;
    MarkFrame(AfterPrune(w));
    PruneFrame(w);
  }

  lemma MarkFrame(w: World)
    ensures AfterMark(w).snapshots == w.snapshots && AfterMark(w).store == w.store
    ensures AfterMark(w).retention == w.retention && AfterMark(w).now == w.now && AfterMark(w).epoch == w.epoch + 1
  {
    hide ProposedMarks, Written, Owner;
  }

  lemma PruneFrame(w: World)
    ensures AfterPrune(w).store == w.store && AfterPrune(w).retention == w.retention && AfterPrune(w).now == w.now
    ensures AfterPrune(w).epoch == w.epoch
  {
    hide Prunable;
  }

  // ---------------------------------------------------------------- idempotence

  /** The order of the candidates is total, so DISTINCT ON has one answer. */
  lemma RepresentativeIsUnique(w: World, key: ObjectKey, s: SnapshotId, t: SnapshotId)
    requires IsRepresentative(w, key, s) && IsRepresentative(w, key, t)
    ensures s == t
  {
    hide Refers, LiveRef;
    assert Precedes(w, s, t) && Precedes(w, t, s);
  }

  /** Worlds with the same rows, clock and configuration propose the same marks with the same owners. */
  ghost predicate SameRetentionInput(w: World, v: World) {
    v.snapshots == w.snapshots && v.retention == w.retention && v.now == w.now
  }

  lemma SameLive(w: World, v: World, key: ObjectKey)
    requires SameRetentionInput(w, v)
    ensures LiveRef(w, key) == LiveRef(v, key)
  {
  }

  lemma SameCandidates(w: World, v: World, key: ObjectKey)
    requires SameRetentionInput(w, v)
    ensures Candidates(w, key) == Candidates(v, key)
    ensures Candidates(w, key) != {} ==> Representative(w, key) == Representative(v, key)
  {
    hide Refers;
    assert LiveRef(w, key) <==> LiveRef(v, key);
    assert Candidates(w, key) == Candidates(v, key);
    if Candidates(w, key) != {} {
      assert IsRepresentative(w, key, Representative(v, key));
      RepresentativeIsUnique(w, key, Representative(w, key), Representative(v, key));
    }
  }

  lemma SameProposals(w: World, v: World)
    requires SameRetentionInput(w, v)
    ensures ProposedMarks(w) == ProposedMarks(v)
    ensures forall m :: Owner(w, m) == Owner(v, m)
  {
    hide Candidates, Representative, Expired;
    forall key
      ensures Candidates(w, key) == Candidates(v, key)
      ensures Candidates(w, key) != {} ==> Representative(w, key) == Representative(v, key)
    {
      SameCandidates(w, v, key);
    }
    assert ExpiredKeys(w) == ExpiredKeys(v);
  }

  /** After one marking there is nothing left to insert or to reset. */
  lemma MarkTwice(w: World)
    ensures AfterMark(AfterMark(w)) == AfterMark(w).(epoch := w.epoch + 2)
  {
    hide ProposedMarks, Owner;
    var v := AfterMark(w);
    MarkFrame(w);
    SameProposals(w, v);
    forall m | m in v.marks
      ensures !Written(v, m)
    {
    }
    assert AfterMark(v).marks == v.marks;
  }

  /** What the first run left, a second prune leaves too. */
  lemma PruneNothingMore(w: World)
    ensures AfterPrune(AfterRetain(w)) == AfterRetain(w)
  {
    hide AfterMark, Refers;
    var v := AfterRetain(w);
    RetainFrame(w);
    MarkFrame(AfterPrune(w));
    PruneFrame(w);
    forall s | s in v.snapshots
      ensures !Prunable(v, s)
    {
      PrunableBefore(w, s);
    }
    assert AfterPrune(v).snapshots == v.snapshots;
    assert AfterPrune(v).marks == v.marks;
  }

  lemma CollectedBefore(w: World, key: ObjectKey)
    requires CollectedMark(AfterRetain(w).marks, key)
    ensures CollectedMark(w.marks, key)
  {
    hide ProposedMarks, Owner, Prunable, Written;
    var u := AfterPrune(w);
    var v := AfterMark(u);
    var m :| m in v.marks && KeyOf(m) == key && v.marks[m].collected;
    assert m in u.marks && u.marks[m].collected;
    assert m in w.marks && w.marks[m].collected;
  }

  lemma PrunableBefore(w: World, s: SnapshotId)
    requires s in w.snapshots && s in AfterRetain(w).snapshots && w.snapshots[s] == AfterRetain(w).snapshots[s]
    ensures Prunable(AfterRetain(w), s) ==> Prunable(w, s)
  {
    hide AfterMark, AfterPrune, Refers, CollectedMark, OtherLiveRef;
    var v := AfterRetain(w);
    MarkFrame(AfterPrune(w));
    PruneFrame(w);
    forall key
      ensures CollectedMark(v.marks, key) ==> CollectedMark(w.marks, key)
      ensures OtherLiveRef(v, s, key) ==> OtherLiveRef(w, s, key)
    {
      if CollectedMark(v.marks, key) {
        CollectedBefore(w, key);
      }
      OtherLiveBefore(w, s, key);
    }
  }

  lemma OtherLiveBefore(w: World, s: SnapshotId, key: ObjectKey)
    ensures OtherLiveRef(AfterRetain(w), s, key) ==> OtherLiveRef(w, s, key)
  {
    hide AfterMark, Refers, Prunable;
    RetainFrame(w);
    MarkFrame(AfterPrune(w));
    PruneFrame(w);
  }

  /** A second run at the same instant prunes nothing, inserts nothing and resets nothing. */
  lemma RetainIsIdempotent(w: World)
    ensures AfterRetain(AfterRetain(w)) == AfterRetain(w).(epoch := w.epoch + 2)
  {
    hide AfterPrune, AfterMark;
    PruneNothingMore(w);
    MarkTwice(AfterPrune(w));
    PruneFrame(w);
  }

  // ---------------------------------------------------------------- what the transaction leaves

  /** The mark is new, belongs to another row than before, or counts as not collected again. */
  predicate Renewed(marks: map<MarkKey, Mark>, after: map<MarkKey, Mark>, m: MarkKey) {
    m in after
    && (m !in marks
        || (after[m].snapshot.Some? && after[m].snapshot != marks[m].snapshot)
        || (marks[m].collected && !after[m].collected))
  }

  /** From this instant on, and not before, a collector may list the mark, unless a protected row names its key. */
  ghost predicate EligibleFrom(w: World, m: MarkKey, from: Time)
    requires m in w.marks
  {
    forall n: Time :: Eligible(w.(now := n), MarkRef(m, w.marks[m].epoch)) <==>
                        from <= n && !LiveRef(w.(now := n), KeyOf(m))
  }

  predicate SameSchedule(a: Mark, b: Mark) {
    a.eligibleAt == b.eligibleAt && a.collected == b.collected && a.epoch == b.epoch
  }

  lemma WrittenIsRenewed(w: World, m: MarkKey)
    requires m in AfterRetain(w).marks
    ensures Renewed(w.marks, AfterRetain(w).marks, m) <==> Written(AfterPrune(w), m)
    ensures !Written(AfterPrune(w), m) ==> m in w.marks && SameSchedule(w.marks[m], AfterRetain(w).marks[m])
  {
    hide Prunable, ProposedMarks, Candidates, Representative;
    if Written(AfterPrune(w), m) { OwnerIsThere(AfterPrune(w), m); }
  }

  lemma OwnerIsThere(w: World, m: MarkKey)
    requires m in ProposedMarks(w)
    ensures Owner(w, m) in w.snapshots && Refers(w.snapshots[Owner(w, m)], KeyOf(m))
    ensures !LiveRef(w, KeyOf(m)) && Expired(w.retention, w.now, w.snapshots[Owner(w, m)])
    ensures IsRepresentative(w, KeyOf(m), Owner(w, m)) && m == MarkFor(Owner(w, m), KeyOf(m))
  {
    hide Refers;
    ProposedUnreferenced(w, m);
  }

  /**
   The grace period: marks that a retention run renews can be listed from the content objects' time after it on, all
   others when they could be before.
   */
  lemma RenewedMarksWait(w: World, m: MarkKey)
    requires m in AfterRetain(w).marks
    ensures Renewed(w.marks, AfterRetain(w).marks, m) ==> EligibleFrom(AfterRetain(w), m, w.now + w.retention.content)
    ensures !Renewed(w.marks, AfterRetain(w).marks, m) ==>
              m in w.marks && SameSchedule(w.marks[m], AfterRetain(w).marks[m])
  {
    hide Renewed, LiveRef, Prunable, ProposedMarks, Owner;
    WrittenIsRenewed(w, m);
  }

  /** The row is expired and names the key, and of the superseded ones it was superseded last. */
  ghost predicate LastToName(w: World, s: SnapshotId, key: ObjectKey) {
    && s in w.snapshots && Refers(w.snapshots[s], key) && !Protected(w.retention, w.now, w.snapshots[s])
    && forall t :: t in w.snapshots && Refers(w.snapshots[t], key)
                   && w.snapshots[t].state == w.snapshots[s].state == Superseded
                   && w.snapshots[t].supersededAt.Some? && w.snapshots[s].supersededAt.Some? ==>
         w.snapshots[t].supersededAt.value <= w.snapshots[s].supersededAt.value
  }

  lemma RepresentativeIsLast(w: World, s: SnapshotId, key: ObjectKey)
    requires IsRepresentative(w, key, s)
    ensures LastToName(w, s, key)
  {
    hide Refers;
    forall t | t in w.snapshots && Refers(w.snapshots[t], key)
               && w.snapshots[t].state == w.snapshots[s].state == Superseded
               && w.snapshots[t].supersededAt.Some? && w.snapshots[s].supersededAt.Some?
      ensures w.snapshots[t].supersededAt.value <= w.snapshots[s].supersededAt.value
    {
      assert !Protected(w.retention, w.now, w.snapshots[t]);
      assert t in Candidates(w, key);
    }
  }

  /** Some mark is on the key, for the row that was the last to name it. */
  ghost predicate MarkedFor(w: World, key: ObjectKey) {
    exists m :: m in w.marks && KeyOf(m) == key && w.marks[m].snapshot.Some?
                && LastToName(w, w.marks[m].snapshot.value, key)
  }

  lemma MarkedKeepsLast(w: World, s: SnapshotId, key: ObjectKey)
    requires LastToName(w, s, key)
    ensures LastToName(AfterMark(w), s, key)
  {
    hide Refers, ProposedMarks, Written, Owner;
  }

  lemma NewOwnersAreLast(w: World, m: MarkKey)
    requires m in AfterRetain(w).marks && Renewed(w.marks, AfterRetain(w).marks, m)
    ensures var v := AfterRetain(w);
            && v.marks[m].snapshot.Some? && LastToName(v, v.marks[m].snapshot.value, KeyOf(m))
            && !LiveRef(v, KeyOf(m))
  {
    hide Renewed, Prunable, ProposedMarks, LastToName, Refers, LiveRef, IsRepresentative, Owner;
    var u := AfterPrune(w);
    WrittenIsRenewed(w, m);
    OwnerIsThere(u, m);
    RepresentativeIsLast(u, Owner(u, m), KeyOf(m));
    MarkedKeepsLast(u, Owner(u, m), KeyOf(m));
    MarkKeepsLive(u, KeyOf(m));
  }

  /** Whatever a row that is no longer protected names, and no protected row does, has a mark. */
  lemma EverythingIsMarked(w: World, s: SnapshotId, key: ObjectKey)
    requires RowsInv(w) && s in AfterRetain(w).snapshots
    requires var v := AfterRetain(w);
             Refers(v.snapshots[s], key) && !Protected(v.retention, v.now, v.snapshots[s]) && !LiveRef(v, key)
    ensures MarkedFor(AfterRetain(w), key)
  {
    hide Prunable, LastToName, LiveRef, Identities, UploadersFit, AfterMark;
    var u := AfterPrune(w);
    RetainFrame(w);
    MarkFrame(u);
    PruneFrame(w);
    MarkKeepsLive(u, key);
    assert WellFormedRow(w.snapshots[s]);
    assert s in Candidates(u, key);
    KeyIsProposed(u, s, key);
    var owner := Representative(u, key);
    RepresentativeIsLast(u, owner, key);
    MarkedKeepsLast(u, owner, key);
    ProposalStands(u, key);
    assert KeyOf(MarkFor(owner, key)) == key;
  }

  lemma KeyIsProposed(w: World, s: SnapshotId, key: ObjectKey)
    requires s in Candidates(w, key)
    ensures key in ExpiredKeys(w) && MarkFor(Representative(w, key), key) in ProposedMarks(w)
  {
    hide LiveRef, IsRepresentative;
  }

  lemma ProposalStands(w: World, key: ObjectKey)
    requires Candidates(w, key) != {} && MarkFor(Representative(w, key), key) in ProposedMarks(w)
    ensures var m := MarkFor(Representative(w, key), key);
            m in AfterMark(w).marks && AfterMark(w).marks[m].snapshot == Some(Representative(w, key))
  {
    hide ProposedMarks, Candidates, Representative;
    var m := MarkFor(Representative(w, key), key);
    assert KeyOf(m) == key && Owner(w, m) == Representative(w, key);
  }

  /**
   The time of the row is up, and each key that it names was marked collected or is named by another row that is
   protected.
   */
  ghost predicate Due(w: World, s: SnapshotId)
    requires s in w.snapshots
  {
    && !Protected(w.retention, w.now, w.snapshots[s])
    && forall key :: Refers(w.snapshots[s], key) ==> CollectedMark(w.marks, key) || OtherLiveRef(w, s, key)
  }

  /** Exactly these rows are pruned. */
  lemma PrunedExactly(w: World, s: SnapshotId)
    requires RowsInv(w) && s in w.snapshots
    ensures Prunable(w, s) <==> Due(w, s)
    ensures s !in AfterRetain(w).snapshots <==> Due(w, s)
  {
    hide Identities, UploadersFit, CollectedMark, OtherLiveRef, AfterMark, AfterPrune;
    PrunedRow(w, s);
    assert WellFormedRow(w.snapshots[s]);
    var row := w.snapshots[s];
    if Due(w, s) {
      assert row.manifest.Some? ==> Refers(row, row.manifest.value);
      forall path | path in row.files
        ensures CollectedMark(w.marks, Content(row.files[path].sha)) || OtherLiveRef(w, s, Content(row.files[path].sha))
      {
        assert Refers(row, Content(row.files[path].sha));
      }
    }
  }

  lemma PrunedRow(w: World, s: SnapshotId)
    requires s in w.snapshots
    ensures s !in AfterRetain(w).snapshots <==> Prunable(w, s)
  {
    hide Prunable, AfterMark;
    MarkFrame(AfterPrune(w));
  }

  /** ON DELETE SET NULL. */
  function Surviving(owner: Option<SnapshotId>, rows: map<SnapshotId, Snapshot>, after: map<SnapshotId, Snapshot>)
    : Option<SnapshotId>
  {
    if owner.Some? && owner.value in rows && owner.value !in after then None else owner
  }

  lemma OwnersSurvive(w: World, m: MarkKey)
    requires m in AfterRetain(w).marks && !Renewed(w.marks, AfterRetain(w).marks, m)
    ensures var v := AfterRetain(w);
            m in w.marks && v.marks[m].snapshot == Surviving(w.marks[m].snapshot, w.snapshots, v.snapshots)
  {
    hide Renewed, Prunable, ProposedMarks, Owner;
    WrittenIsRenewed(w, m);
    RetainFrame(w);
  }

  /**
   What becomes of marks: those that are renewed go to the last row that named their key and wait for the content
   objects' time; all others stay on their schedule.
   */
  ghost predicate MarksRenewed(w: World, v: World) {
    && w.marks.Keys <= v.marks.Keys
    && forall m :: m in v.marks ==>
         if Renewed(w.marks, v.marks, m) then
           && EligibleFrom(v, m, w.now + w.retention.content) && !LiveRef(v, KeyOf(m))
           && v.marks[m].snapshot.Some? && LastToName(v, v.marks[m].snapshot.value, KeyOf(m))
         else m in w.marks && SameSchedule(w.marks[m], v.marks[m])
              && v.marks[m].snapshot == Surviving(w.marks[m].snapshot, w.snapshots, v.snapshots)
  }

  /** Whatever only rows name whose time is up has a mark. */
  ghost predicate AllMarked(w: World) {
    forall s, key :: s in w.snapshots && Refers(w.snapshots[s], key)
                     && !Protected(w.retention, w.now, w.snapshots[s]) && !LiveRef(w, key) ==>
                       MarkedFor(w, key)
  }

  lemma RetentionRenews(w: World)
    ensures MarksRenewed(w, AfterRetain(w))
    ensures RowsInv(w) ==> AllMarked(AfterRetain(w))
  {
    hide RowsInv, Protected, Refers, LiveRef, MarkedFor, LastToName, EligibleFrom, Renewed, SameSchedule, Surviving,
      AfterRetain;
    var v := AfterRetain(w);
    MarksStay(w);
    forall m | m in v.marks
      ensures Renewed(w.marks, v.marks, m) ==>
                && EligibleFrom(v, m, w.now + w.retention.content) && !LiveRef(v, KeyOf(m))
                && v.marks[m].snapshot.Some? && LastToName(v, v.marks[m].snapshot.value, KeyOf(m))
      ensures !Renewed(w.marks, v.marks, m) ==>
                && m in w.marks && SameSchedule(w.marks[m], v.marks[m])
                && v.marks[m].snapshot == Surviving(w.marks[m].snapshot, w.snapshots, v.snapshots)
    {
      RenewedMarksWait(w, m);
      if Renewed(w.marks, v.marks, m) { NewOwnersAreLast(w, m); } else { OwnersSurvive(w, m); }
    }
    if RowsInv(w) {
      forall s, key | s in v.snapshots && Refers(v.snapshots[s], key)
                      && !Protected(v.retention, v.now, v.snapshots[s]) && !LiveRef(v, key)
        ensures MarkedFor(v, key)
      {
        EverythingIsMarked(w, s, key);
      }
    }
  }

  lemma MarksStay(w: World)
    ensures w.marks.Keys <= AfterRetain(w).marks.Keys
  {
    hide Prunable, ProposedMarks, Written, Owner;
  }
}
