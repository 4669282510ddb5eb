/** Comparing a scan with a snapshot's object rows by sorting both and walking them in step. */
module ScanMatch {
  import opened TextOrder
  import S = Storage

  datatype Item = Item(path: string, sha: S.Digest, size: nat)

  predicate Unique(items: seq<Item>) {
    forall i, j :: 0 <= i < j < |items| ==> items[i].path != items[j].path
  }

  predicate Sorted(items: seq<Item>) {
    forall i, j :: 0 <= i < j < |items| ==> Le(items[i].path, items[j].path)
  }

  /** What the items say about each path. */
  ghost function AsMap(items: seq<Item>): (m: map<string, S.FileInfo>)
    requires Unique(items)
    ensures forall i :: 0 <= i < |items| ==>
              items[i].path in m && m[items[i].path] == S.FileInfo(items[i].sha, items[i].size)
    ensures forall p :: p in m ==> exists i :: 0 <= i < |items| && items[i].path == p
  {
    map i | 0 <= i < |items| :: items[i].path := S.FileInfo(items[i].sha, items[i].size)
  }

  /** Insertion into a sorted sequence, before the first larger item. */
  method Insert(items: seq<Item>, x: Item) returns (r: seq<Item>)
    requires Sorted(items)
    ensures Sorted(r) && multiset(r) == multiset(items) + multiset{x}
  {
    var k := 0;
    while k < |items| && Le(items[k].path, x.path)
      invariant 0 <= k <= |items|
      invariant forall i :: 0 <= i < k ==> Le(items[i].path, x.path)
    {
      k := k + 1;
    }
    r := items[..k] + [x] + items[k..];
    assert items == items[..k] + items[k..];
    if k < |items| {
      LeTotal(items[k].path, x.path);
      forall i | k <= i < |items|
        ensures Le(x.path, items[i].path)
      {
        if i > k { LeTransitive(x.path, items[k].path, items[i].path); }
      }
    }
  }

  method SortByPath(items: seq<Item>) returns (r: seq<Item>)
    ensures Sorted(r) && multiset(r) == multiset(items)
  {
    r := [];
    for i := 0 to |items|
      invariant Sorted(r) && multiset(r) == multiset(items[..i])
    {
      assert items[..i + 1] == items[..i] + [items[i]];
      r := Insert(r, items[i]);
    }
    assert items[..|items|] == items;
  }

  lemma SameMembers(a: seq<Item>, b: seq<Item>)
    requires multiset(a) == multiset(b)
    ensures |a| == |b| && forall x :: x in a <==> x in b
  {
    assert |multiset(a)| == |a| && |multiset(b)| == |b|;
    forall x
      ensures x in a <==> x in b
    {
      assert x in a <==> x in multiset(a);
      assert x in b <==> x in multiset(b);
    }
  }

  lemma PermutedUnique(a: seq<Item>, b: seq<Item>)
    requires multiset(a) == multiset(b) && Unique(a)
    ensures Unique(b)
  {
    SameMembers(a, b);
    forall i, j | 0 <= i < j < |b|
      ensures b[i].path != b[j].path
    {
      assert b[i] in a && b[j] in a;
      if b[i].path == b[j].path {
        assert b[i] == b[j];
        assert b == b[..i] + [b[i]] + b[i + 1..j] + [b[j]] + b[j + 1..];
        assert multiset(b)[b[i]] >= 2;
        OnlyOnce(a, b[i]);
        assert false;
      }
    }
  }

  lemma OnlyOnce(a: seq<Item>, x: Item)
    requires Unique(a)
    ensures multiset(a)[x] <= 1
  {
    if i :| 0 <= i < |a| && a[i] == x {
      assert a == a[..i] + [x] + a[i + 1..];
      assert x !in a[..i] && x !in a[i + 1..];
    }
  }

  /** Sorted items with unique paths and the same members are the same sequence. */
  lemma SortedIsCanonical(a: seq<Item>, b: seq<Item>)
    requires Sorted(a) && Sorted(b) && Unique(a) && Unique(b) && |a| == |b| && forall x :: x in a <==> x in b
    ensures a == b
  {
    AscendingIsUnique(a, b, (x: Item) => x.path);
  }

  lemma SameMapSameItems(a: seq<Item>, b: seq<Item>)
    requires Unique(a) && Unique(b) && AsMap(a) == AsMap(b)
    ensures forall x :: x in a ==> x in b
  {
    forall x | x in a
      ensures x in b
    {
      var i :| 0 <= i < |a| && a[i] == x;
      assert x.path in AsMap(b);
      var j :| 0 <= j < |b| && b[j].path == x.path;
      assert AsMap(b)[x.path] == S.FileInfo(b[j].sha, b[j].size);
    }
  }

  lemma SameItemsSameMap(a: seq<Item>, b: seq<Item>)
    requires Unique(a) && Unique(b) && forall x :: x in a <==> x in b
    ensures AsMap(a) == AsMap(b)
  {
    forall p
      ensures p in AsMap(a) <==> p in AsMap(b)
    {
      if p in AsMap(a) { var i :| 0 <= i < |a| && a[i].path == p; assert a[i] in b; }
      if p in AsMap(b) { var i :| 0 <= i < |b| && b[i].path == p; assert b[i] in a; }
    }
    forall p | p in AsMap(a)
      ensures AsMap(a)[p] == AsMap(b)[p]
    {
      var i :| 0 <= i < |a| && a[i].path == p;
      assert a[i] in b;
    }
  }

  lemma {:induction false} UniqueSize(a: seq<Item>, b: seq<Item>)
    requires Unique(a) && (forall x :: x in a ==> x in b)
    ensures |a| <= |b|
    decreases |a|
  {
    if a != [] {
      var last := a[|a| - 1];
      assert last in a && last in b;
      var i :| 0 <= i < |b| && b[i] == last;
      var rest := b[..i] + b[i + 1..];
      forall x | x in a[..|a| - 1]
        ensures x in rest
      {
        assert x in b && x != last;
      }
      UniqueSize(a[..|a| - 1], rest);
    }
  }

  /**
   scan_matches_snapshot_objects: same length, then sort both and compare in step. It decides equality
   of the maps.
  */
  method ScanMatchesSnapshotObjects(scan: seq<Item>, expected: seq<Item>) returns (matches: bool)
    requires Unique(scan) && Unique(expected)
    ensures matches <==> AsMap(scan) == AsMap(expected)
  {
    if |expected| != |scan| {
      if AsMap(scan) == AsMap(expected) {
        SameMapSameItems(scan, expected);
        SameMapSameItems(expected, scan);
        UniqueSize(scan, expected);
        UniqueSize(expected, scan);
      }
      return false;
    }
    var actual := SortByPath(scan);
    var wanted := SortByPath(expected);
    SameMembers(scan, actual);
    SameMembers(expected, wanted);
    PermutedUnique(scan, actual);
    PermutedUnique(expected, wanted);
    matches := true;
    for i := 0 to |wanted|
      invariant matches <==> forall j :: 0 <= j < i ==> wanted[j] == actual[j]
    {
      matches := matches && wanted[i].path == actual[i].path && wanted[i].sha == actual[i].sha
        && wanted[i].size == actual[i].size;
    }
    if matches {
      assert wanted == actual;
      SameItemsSameMap(scan, expected);
    }
    if AsMap(scan) == AsMap(expected) {
      SameMapSameItems(scan, expected);
      SameMapSameItems(expected, scan);
      SortedIsCanonical(actual, wanted);
    }
  }
}
