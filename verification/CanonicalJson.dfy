/** Canonical JSON: sorting object keys at every depth, on which request fingerprints rest. */
module CanonicalJson {
  import opened TextOrder

  datatype Json =
    | Null
    | Bool(flag: bool)
    | Number(text: string)
    | Text(text: string)
    | Array(items: seq<Json>)
    | Object(entries: seq<(string, Json)>)

  type Entry = (string, Json)

  predicate DistinctKeys(entries: seq<Entry>) {
    forall i, j :: 0 <= i < j < |entries| ==> entries[i].0 != entries[j].0
  }

  /** A parsed object has each key once. */
  ghost predicate WellFormed(v: Json) {
    match v
    case Array(items) => forall i :: 0 <= i < |items| ==> WellFormed(items[i])
    case Object(entries) => DistinctKeys(entries) && forall i :: 0 <= i < |entries| ==> WellFormed(entries[i].1)
    case _ => true
  }

  predicate HasKey(entries: seq<Entry>, key: string) {
    exists i :: 0 <= i < |entries| && entries[i].0 == key
  }

  /** Equal up to the order of object keys at any depth. */
  ghost predicate Same(a: Json, b: Json)
    decreases a, 0
  {
    match a
    case Array(items) =>
      b.Array? && |items| == |b.items| && forall i :: 0 <= i < |items| ==> Same(items[i], b.items[i])
    case Object(entries) =>
      && b.Object?
      && (forall i :: 0 <= i < |entries| ==> HasSame(b.entries, entries[i]))
      && (forall j :: 0 <= j < |b.entries| ==> HasKey(entries, b.entries[j].0))
    case _ => a == b
  }

  ghost predicate HasSame(entries: seq<Entry>, e: Entry)
    decreases e.1, 1
  {
    exists j :: 0 <= j < |entries| && entries[j].0 == e.0 && Same(e.1, entries[j].1)
  }

  // ---------------------------------------------------------------- sorting entries

  predicate SortedKeys(entries: seq<Entry>) {
    forall i, j :: 0 <= i < j < |entries| ==> Le(entries[i].0, entries[j].0)
  }

  function InsertEntry(entries: seq<Entry>, e: Entry): (r: seq<Entry>)
    ensures |r| == |entries| + 1 && forall x :: x in r <==> x in entries || x == e
  {
    if entries == [] then [e]
    else if Le(entries[0].0, e.0) then [entries[0]] + InsertEntry(entries[1..], e)
    else [e] + entries
  }

  function SortEntries(entries: seq<Entry>): (r: seq<Entry>)
    ensures |r| == |entries| && forall x :: x in r <==> x in entries
    decreases |entries|
  {
    if entries == [] then []
    else
      var n := |entries| - 1;
      assert entries == entries[..n] + [entries[n]];
      InsertEntry(SortEntries(entries[..n]), entries[n])
  }

  lemma {:induction false} InsertKeepsSorted(entries: seq<Entry>, e: Entry)
    requires SortedKeys(entries)
    ensures SortedKeys(InsertEntry(entries, e))
    decreases |entries|
  {
    if entries != [] {
      var head, rest := entries[0], entries[1..];
      if Le(head.0, e.0) {
        InsertKeepsSorted(rest, e);
        var r := InsertEntry(rest, e);
        forall i | 0 <= i < |r|
          ensures Le(head.0, r[i].0)
        {
          assert r[i] in r;
        }
      } else {
        LeTotal(head.0, e.0);
        forall i | 0 <= i < |entries|
          ensures Le(e.0, entries[i].0)
        {
          if i > 0 { LeTransitive(e.0, head.0, entries[i].0); }
        }
      }
    }
  }

  lemma {:induction false} SortedAfterSort(entries: seq<Entry>)
    ensures SortedKeys(SortEntries(entries))
    decreases |entries|
  {
    if entries != [] {
      SortedAfterSort(entries[..|entries| - 1]);
      InsertKeepsSorted(SortEntries(entries[..|entries| - 1]), entries[|entries| - 1]);
    }
  }

  /** Distinct keys survive: same length and same members leave no room for a repetition. */
  lemma {:induction false} InsertKeepsDistinct(entries: seq<Entry>, e: Entry)
    requires DistinctKeys(entries) && forall x :: x in entries ==> x.0 != e.0
    ensures DistinctKeys(InsertEntry(entries, e))
    decreases |entries|
  {
    if entries != [] && Le(entries[0].0, e.0) {
      var rest := entries[1..];
      InsertKeepsDistinct(rest, e);
      forall i | 0 <= i < |InsertEntry(rest, e)|
        ensures InsertEntry(rest, e)[i].0 != entries[0].0
      {
        assert InsertEntry(rest, e)[i] in InsertEntry(rest, e);
      }
    }
  }

  lemma {:induction false} SortKeepsDistinct(entries: seq<Entry>)
    requires DistinctKeys(entries)
    ensures DistinctKeys(SortEntries(entries))
    decreases |entries|
  {
    if entries != [] {
      var n := |entries| - 1;
      SortKeepsDistinct(entries[..n]);
      InsertKeepsDistinct(SortEntries(entries[..n]), entries[n]);
    }
  }

  lemma SortedIsUnique(a: seq<Entry>, b: seq<Entry>)
    requires SortedKeys(a) && SortedKeys(b) && DistinctKeys(a) && DistinctKeys(b) && |a| == |b|
    requires forall x :: x in a <==> x in b
    ensures a == b
  {
    AscendingIsUnique(a, b, (e: Entry) => e.0);
  }

  // ---------------------------------------------------------------- sortJson

  function SortJson(v: Json): Json {
    match v
    case Array(items) => Array(seq(|items|, i requires 0 <= i < |items| => SortJson(items[i])))
    case Object(entries) => Object(SortEntries(seq(|entries|, i requires 0 <= i < |entries| =>
      (entries[i].0, SortJson(entries[i].1)))))
    case _ => v
  }

  function Mapped(entries: seq<Entry>): (r: seq<Entry>)
    ensures |r| == |entries| && forall i :: 0 <= i < |entries| ==> r[i] == (entries[i].0, SortJson(entries[i].1))
  {
    seq(|entries|, i requires 0 <= i < |entries| => (entries[i].0, SortJson(entries[i].1)))
  }

  lemma ObjectSorts(entries: seq<Entry>)
    ensures SortJson(Object(entries)) == Object(SortEntries(Mapped(entries)))
  {
    assert Mapped(entries) == seq(|entries|, i requires 0 <= i < |entries| => (entries[i].0, SortJson(entries[i].1)));
  }

  predicate HasAlike(entries: seq<Entry>, e: Entry) {
    exists j :: 0 <= j < |entries| && entries[j].0 == e.0 && SortJson(entries[j].1) == SortJson(e.1)
  }

  /** Each entry of one object has a sorted counterpart in the other. */
  ghost predicate Covered(a: seq<Entry>, b: seq<Entry>) {
    forall i :: 0 <= i < |a| ==> HasAlike(b, a[i])
  }

  lemma {:induction false} KeysNoMore(a: seq<Entry>, b: seq<Entry>)
    requires DistinctKeys(a) && forall i :: 0 <= i < |a| ==> HasKey(b, a[i].0)
    ensures |a| <= |b|
    decreases |a|
  {
    if a != [] {
      var n := |a| - 1;
      var j :| 0 <= j < |b| && b[j].0 == a[n].0;
      var rest := b[..j] + b[j + 1..];
      forall i | 0 <= i < n
        ensures HasKey(rest, a[..n][i].0)
      {
        assert HasKey(b, a[i].0);
        var k :| 0 <= k < |b| && b[k].0 == a[i].0;
        assert rest[if k < j then k else k - 1] == b[k];
      }
      KeysNoMore(a[..n], rest);
    }
  }

  lemma CoveredKeys(a: seq<Entry>, b: seq<Entry>)
    requires DistinctKeys(a) && Covered(a, b)
    ensures |a| <= |b|
  {
    hide SortJson;
    forall i | 0 <= i < |a|
      ensures HasKey(b, a[i].0)
    {
      assert HasAlike(b, a[i]);
    }
    KeysNoMore(a, b);
  }

  lemma CoveredMembers(a: seq<Entry>, b: seq<Entry>)
    requires Covered(a, b)
    ensures forall e :: e in Mapped(a) ==> e in Mapped(b)
  {
    hide SortJson;
    forall e | e in Mapped(a)
      ensures e in Mapped(b)
    {
      var i :| 0 <= i < |a| && Mapped(a)[i] == e;
      assert HasAlike(b, a[i]);
      var j :| 0 <= j < |b| && b[j].0 == a[i].0 && SortJson(b[j].1) == SortJson(a[i].1);
      assert Mapped(b)[j] == e;
    }
  }

  lemma CoveredSortsAlike(a: seq<Entry>, b: seq<Entry>)
    requires DistinctKeys(a) && DistinctKeys(b) && Covered(a, b) && Covered(b, a)
    ensures SortJson(Object(a)) == SortJson(Object(b))
  {
    hide SortJson, Covered, SortedKeys;
    ObjectSorts(a);
    ObjectSorts(b);
    CoveredKeys(a, b);
    CoveredKeys(b, a);
    CoveredMembers(a, b);
    CoveredMembers(b, a);
    var x, y := Mapped(a), Mapped(b);
    SortedAfterSort(x);
    SortedAfterSort(y);
    SortKeepsDistinct(x);
    SortKeepsDistinct(y);
    SortedIsUnique(SortEntries(x), SortEntries(y));
  }

  lemma AlikeCovers(a: seq<Entry>, b: seq<Entry>)
    requires SortJson(Object(a)) == SortJson(Object(b))
    ensures Covered(a, b)
  {
    hide SortJson;
    ObjectSorts(a);
    ObjectSorts(b);
    var x, y := Mapped(a), Mapped(b);
    forall i | 0 <= i < |a|
      ensures HasAlike(b, a[i])
    {
      assert x[i] in SortEntries(x);
      assert x[i] in y;
      var j :| 0 <= j < |y| && y[j] == x[i];
    }
  }

  lemma ArraySorts(items: seq<Json>)
    ensures SortJson(Array(items)).Array? && |SortJson(Array(items)).items| == |items|
    ensures forall i :: 0 <= i < |items| ==> SortJson(Array(items)).items[i] == SortJson(items[i])
  {
  }

  /** Sorting decides sameness for the values inside two objects. */
  ghost predicate Decides(a: seq<Entry>, b: seq<Entry>) {
    forall i, j :: 0 <= i < |a| && 0 <= j < |b| ==> (SortJson(a[i].1) == SortJson(b[j].1) <==> Same(a[i].1, b[j].1))
  }

  lemma SameObjects(a: seq<Entry>, b: seq<Entry>)
    ensures Same(Object(a), Object(b)) <==>
              && (forall i :: 0 <= i < |a| ==> HasSame(b, a[i]))
              && (forall j :: 0 <= j < |b| ==> HasKey(a, b[j].0))
  {
  }

  lemma SameCovers(a: seq<Entry>, b: seq<Entry>)
    requires DistinctKeys(a) && DistinctKeys(b) && Decides(a, b) && Same(Object(a), Object(b))
    ensures Covered(a, b) && Covered(b, a)
  {
    SameObjects(a, b);
    hide SortJson, Same;
    forall i | 0 <= i < |a|
      ensures HasAlike(b, a[i])
    {
      assert HasSame(b, a[i]);
      var j :| 0 <= j < |b| && b[j].0 == a[i].0 && Same(a[i].1, b[j].1);
      assert SortJson(a[i].1) == SortJson(b[j].1);
    }
    forall j | 0 <= j < |b|
      ensures HasAlike(a, b[j])
    {
      assert HasKey(a, b[j].0);
      var i :| 0 <= i < |a| && a[i].0 == b[j].0;
      assert HasSame(b, a[i]);
      var k :| 0 <= k < |b| && b[k].0 == a[i].0 && Same(a[i].1, b[k].1);
      assert k == j && SortJson(a[i].1) == SortJson(b[k].1);
    }
  }

  lemma AlikeIsSame(a: seq<Entry>, b: seq<Entry>, i: nat)
    requires Decides(a, b) && i < |a| && HasAlike(b, a[i])
    ensures HasSame(b, a[i])
  {
    hide SortJson, Same;
    var j :| 0 <= j < |b| && b[j].0 == a[i].0 && SortJson(b[j].1) == SortJson(a[i].1);
    assert Same(a[i].1, b[j].1);
  }

  lemma AlikeHasKey(a: seq<Entry>, e: Entry)
    requires HasAlike(a, e)
    ensures HasKey(a, e.0)
  {
    hide SortJson;
  }

  lemma CoveredIsSame(a: seq<Entry>, b: seq<Entry>)
    requires Decides(a, b) && Covered(a, b) && Covered(b, a)
    ensures Same(Object(a), Object(b))
  {
    SameObjects(a, b);
    hide SortJson, Same, Decides, HasAlike, HasSame, HasKey;
    forall i | 0 <= i < |a|
      ensures HasSame(b, a[i])
    {
      AlikeIsSame(a, b, i);
    }
    forall j | 0 <= j < |b|
      ensures HasKey(a, b[j].0)
    {
      AlikeHasKey(a, b[j]);
    }
  }

  lemma SameArrays(a: seq<Json>, b: seq<Json>)
    requires |a| == |b| ==> forall i :: 0 <= i < |a| ==> (SortJson(a[i]) == SortJson(b[i]) <==> Same(a[i], b[i]))
    ensures SortJson(Array(a)) == SortJson(Array(b)) <==> Same(Array(a), Array(b))
  {
    ArraySorts(a);
    ArraySorts(b);
    var x, y := SortJson(Array(a)), SortJson(Array(b));
    if x == y {
      assert |a| == |b| && forall i :: 0 <= i < |a| ==> x.items[i] == y.items[i];
    }
    if Same(Array(a), Array(b)) {
      assert x.items == y.items;
    }
  }

  lemma ObjectsExactly(a: seq<Entry>, b: seq<Entry>)
    requires DistinctKeys(a) && DistinctKeys(b) && Decides(a, b)
    ensures SortJson(Object(a)) == SortJson(Object(b)) <==> Same(Object(a), Object(b))
  {
    hide SortJson, Same, Covered, Decides, DistinctKeys;
    if SortJson(Object(a)) == SortJson(Object(b)) {
      AlikeCovers(a, b);
      AlikeCovers(b, a);
      CoveredIsSame(a, b);
    }
    if Same(Object(a), Object(b)) {
      SameCovers(a, b);
      CoveredSortsAlike(a, b);
    }
  }

  /** Two values have the same canonical form exactly when they differ in the order of object keys alone. */
  lemma {:induction false} CanonicalExactly(a: Json, b: Json)
    requires WellFormed(a) && WellFormed(b)
    ensures SortJson(a) == SortJson(b) <==> Same(a, b)
    decreases a
  {
    if a.Array? && b.Array? {
      hide SortJson, Same;
      if |a.items| == |b.items| {
        forall i | 0 <= i < |a.items|
          ensures SortJson(a.items[i]) == SortJson(b.items[i]) <==> Same(a.items[i], b.items[i])
        {
          CanonicalExactly(a.items[i], b.items[i]);
        }
      }
      SameArrays(a.items, b.items);
    } else if a.Object? && b.Object? {
      hide SortJson, Same;
      forall i, j | 0 <= i < |a.entries| && 0 <= j < |b.entries|
        ensures SortJson(a.entries[i].1) == SortJson(b.entries[j].1) <==> Same(a.entries[i].1, b.entries[j].1)
      {
        CanonicalExactly(a.entries[i].1, b.entries[j].1);
      }
      ObjectsExactly(a.entries, b.entries);
    }
  }

  /** A canonical value is its own canonical form. */
  lemma {:induction false} SortIsIdempotent(v: Json)
    requires WellFormed(v)
    ensures SortJson(SortJson(v)) == SortJson(v)
    decreases v
  {
    match v
    case Array(items) =>
      ArraySorts(items);
      ArraySorts(SortJson(v).items);
      forall i | 0 <= i < |items|
        ensures SortJson(SortJson(items[i])) == SortJson(items[i])
      {
        SortIsIdempotent(items[i]);
      }
      assert SortJson(SortJson(v)).items == SortJson(v).items;
    case Object(entries) =>
      ObjectSorts(entries);
      var x := Mapped(entries);
      forall i | 0 <= i < |entries|
        ensures SortJson(SortJson(entries[i].1)) == SortJson(entries[i].1)
      {
        SortIsIdempotent(entries[i].1);
      }
      var sorted := SortEntries(x);
      forall i | 0 <= i < |sorted|
        ensures Mapped(sorted)[i] == sorted[i]
      {
        assert sorted[i] in x;
        var k :| 0 <= k < |x| && x[k] == sorted[i];
      }
      assert Mapped(sorted) == sorted;
      ObjectSorts(sorted);
      SortKeepsDistinct(x);
      SortedAfterSort(x);
      SortKeepsDistinct(sorted);
      SortedAfterSort(sorted);
      SortedIsUnique(SortEntries(sorted), sorted);
    case _ =>
  }
}
