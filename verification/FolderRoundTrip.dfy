/** Scanning a folder, and materialising the manifest of the scan, rebuilds the folder. */
module FolderRoundTrip {
  import opened Common
  import opened SymlinkPaths
  import opened FolderScan
  import opened FolderManifest
  import opened FolderRestore
  import opened FolderUpload
  import S = Storage

  /**
   Same files, same bytes, same symlink targets, same hardlink groups; modes gain the floor; only
   needed directories.
  */
  ghost predicate Rebuilds(t: Tree, g: Tree) {
    && g.nodes.Keys == t.nodes.Keys
    && (forall p :: p in t.nodes ==> SameNode(t, g, p))
    && (forall p, q :: p in t.nodes && q in t.nodes && t.nodes[p].Regular? && t.nodes[q].Regular? ==>
          (t.nodes[p] == t.nodes[q] <==> g.nodes[p] == g.nodes[q]))
    && (forall d :: d in g.dirs <==> exists p :: p in t.nodes && d in Parents(p))
  }

  ghost predicate SameNode(t: Tree, g: Tree, p: Path)
    requires p in t.nodes && p in g.nodes
  {
    match t.nodes[p]
    case Link(target) => g.nodes[p] == Link(target)
    case Regular(ino) =>
      && ino in t.inodes && g.nodes[p].Regular? && g.nodes[p].ino in g.inodes
      && g.inodes[g.nodes[p].ino].content == t.inodes[ino].content
      && Floored(t.inodes[ino].mode, g.inodes[g.nodes[p].ino].mode)
    case Special => false
  }

  ghost predicate PlainlyNamed(t: Tree) {
    forall p :: p in t.nodes ==> '\\' !in p
  }

  /** Everything about one scan and the manifest order of its entries. */
  ghost predicate Scanned(t: Tree, walk: seq<Path>, files: seq<FileEntry>, es: seq<FileEntry>) {
    WellFormed(t) && Walks(t, walk) && Scans(t, walk, files) && Reordered(files, es) && PlainlyNamed(t)
  }

  // ---------------------------------------------------------------- finding entries

  /** Where a file of the folder is in the walk and in the manifest. */
  lemma Locate(t: Tree, walk: seq<Path>, files: seq<FileEntry>, es: seq<FileEntry>, p: Path) returns (k: nat, i: nat)
    requires Scanned(t, walk, files, es) && p in t.nodes
    ensures k < |walk| && |files| == |walk| && walk[k] == p && EntryFor(t, walk, k, files[k])
    ensures i < |es| && es[i] == files[k] && es[i].path == p
  {
    hide EntryFor, WellFormed;
    k :| 0 <= k < |walk| && walk[k] == p;
    ReorderedMembers(files, es);
    assert files[k] in es;
    i :| 0 <= i < |es| && es[i] == files[k];
    ReportedPath(t, walk, k, files[k]);
    PlainNames(t);
  }

  /** Where an entry of the manifest comes from. */
  lemma Origin(t: Tree, walk: seq<Path>, files: seq<FileEntry>, es: seq<FileEntry>, i: nat) returns (k: nat)
    requires Scanned(t, walk, files, es) && i < |es|
    ensures k < |walk| && |files| == |walk| && walk[k] in t.nodes && EntryFor(t, walk, k, files[k])
    ensures es[i] == files[k] && es[i].path == walk[k]
  {
    hide EntryFor, WellFormed;
    ReorderedMembers(files, es);
    assert es[i] in files;
    k :| 0 <= k < |files| && files[k] == es[i];
    ReportedPath(t, walk, k, files[k]);
    PlainNames(t);
  }

  lemma UniqueEntries(t: Tree, walk: seq<Path>, files: seq<FileEntry>, es: seq<FileEntry>)
    requires Scanned(t, walk, files, es)
    ensures UniquePaths(es)
  {
    PlainNames(t);
    UniqueWhenDistinct(t, walk, files);
    ReorderingKeepsUnique(files, es);
  }

  /** The first name of a file's inode, and its entry. */
  lemma RootEntry(t: Tree, walk: seq<Path>, files: seq<FileEntry>, es: seq<FileEntry>, k: nat) returns (j: nat, i: nat)
    requires Scanned(t, walk, files, es) && k < |walk| && walk[k] in t.nodes && t.nodes[walk[k]].Regular?
    ensures j < |walk| && |files| == |walk| && walk[j] in t.nodes && SameFile(t, walk[j], walk[k]) && IsRoot(t, walk, j)
    ensures files[k].duplicateOf.None? ==> j == k
    ensures files[k].duplicateOf.Some? ==> files[k].duplicateOf == Some(walk[j])
    ensures i < |es| && es[i] == files[j] && es[i].path == walk[j] && EntryFor(t, walk, j, files[j])
    ensures KindOf(es[i]) == Plain
  {
    PlainNames(t);
    assert EntryFor(t, walk, k, files[k]) && RegularEntry(t, walk, k, files[k]);
    if files[k].duplicateOf.None? {
      j := k;
    } else {
      j :| 0 <= j < k && SameFile(t, walk[j], walk[k]) && IsRoot(t, walk, j)
        && files[k].duplicateOf == Some(Normalized(walk[j]));
    }
    var at, index := Locate(t, walk, files, es, walk[j]);
    assert at == j;
    i := index;
    assert RegularEntry(t, walk, j, files[j]);
  }

  // ---------------------------------------------------------------- which folders can be restored

  /** No reported path is a directory on the way to another one. */
  ghost predicate ReportsApart(t: Tree) {
    forall p, q :: p in t.nodes && q in t.nodes ==> Normalized(p) !in Parents(Normalized(q))
  }

  /** One scan, and the manifest order of its entries, whatever the names. */
  ghost predicate Listed(t: Tree, walk: seq<Path>, files: seq<FileEntry>, es: seq<FileEntry>) {
    WellFormed(t) && Walks(t, walk) && Scans(t, walk, files) && Reordered(files, es)
  }

  lemma ListedFrom(t: Tree, walk: seq<Path>, files: seq<FileEntry>, es: seq<FileEntry>, i: nat) returns (k: nat)
    requires Listed(t, walk, files, es) && i < |es|
    ensures k < |walk| && |files| == |walk| && walk[k] in t.nodes && EntryFor(t, walk, k, files[k])
    ensures es[i] == files[k] && es[i].path == Normalized(walk[k])
  {
    hide EntryFor, WellFormed;
    ReorderedMembers(files, es);
    assert es[i] in files;
    k :| 0 <= k < |files| && files[k] == es[i];
    ReportedPath(t, walk, k, files[k]);
  }

  lemma ListedAt(t: Tree, walk: seq<Path>, files: seq<FileEntry>, es: seq<FileEntry>, k: nat) returns (i: nat)
    requires Listed(t, walk, files, es) && k < |walk|
    ensures |files| == |walk| && walk[k] in t.nodes && EntryFor(t, walk, k, files[k])
    ensures i < |es| && es[i] == files[k] && es[i].path == Normalized(walk[k])
  {
    hide EntryFor, WellFormed;
    ReorderedMembers(files, es);
    assert files[k] in es;
    i :| 0 <= i < |es| && es[i] == files[k];
    ReportedPath(t, walk, k, files[k]);
  }

  /** Every entry of an uploaded scan can be placed on its own: hardlinks find the first name of their inode. */
  lemma EntryCanBePlaced(
    t: Tree, walk: seq<Path>, files: seq<FileEntry>, es: seq<FileEntry>, keys: seq<S.ObjectKey>,
      store: map<S.ObjectKey, S.Blob>, i: nat)
    requires Listed(t, walk, files, es) && Uploaded(files, store) && i < |es| == |keys|
             && keys[i] == S.Content(es[i].sha)
    ensures CanPlace(es, keys, store, i)
  {
    var k := ListedFrom(t, walk, files, es, i);
    assert files[k] in files;
    if KindOf(es[i]) == Hardlink {
      assert RegularEntry(t, walk, k, files[k]);
      var j :| 0 <= j < k && SameFile(t, walk[j], walk[k]) && IsRoot(t, walk, j)
               && files[k].duplicateOf == Some(Normalized(walk[j]));
      var source := ListedAt(t, walk, files, es, j);
      assert RegularEntry(t, walk, j, files[j]);
      assert SourceOf(es, i, source);
    }
  }

  lemma ClashesExactly(t: Tree, walk: seq<Path>, files: seq<FileEntry>, es: seq<FileEntry>)
    requires Listed(t, walk, files, es)
    ensures NoClash(es) <==> ReportsApart(t)
  {
    hide EntryFor, Parents, Normalized, WellFormed;
    if ReportsApart(t) {
      forall j, k | 0 <= j < |es| && 0 <= k < |es|
        ensures es[j].path !in Parents(es[k].path)
      {
        var a := ListedFrom(t, walk, files, es, j);
        var b := ListedFrom(t, walk, files, es, k);
      }
    }
    if NoClash(es) {
      forall p, q | p in t.nodes && q in t.nodes
        ensures Normalized(p) !in Parents(Normalized(q))
      {
        var a :| 0 <= a < |walk| && walk[a] == p;
        var b :| 0 <= b < |walk| && walk[b] == q;
        var j := ListedAt(t, walk, files, es, a);
        var k := ListedAt(t, walk, files, es, b);
      }
    }
  }

  lemma RestorableExactly(
    t: Tree, walk: seq<Path>, files: seq<FileEntry>, es: seq<FileEntry>, store: map<S.ObjectKey, S.Blob>,
    problem: string, generation: int, canonical: Path)
    requires Listed(t, walk, files, es) && Uploaded(files, store)
    ensures Restorable(Build(problem, generation, es, canonical), store) <==> ReportsApart(t)
  {
    hide Listed, CanPlace, NoClash;
    var m := Build(problem, generation, es, canonical);
    BuiltEntries(problem, generation, es, canonical);
    ClashesExactly(t, walk, files, es);
    forall k | 0 <= k < |es|
      ensures CanPlace(es, KeysOf(m), store, k)
    {
      EntryCanBePlaced(t, walk, files, es, KeysOf(m), store, k);
    }
  }

  function PathsOf(es: seq<FileEntry>): set<Path> {
    set e | e in es :: e.path
  }

  /** What the storage protocol knows of a manifest: the listed paths, and whether one is listed twice. */
  ghost predicate KnownAs(es: seq<FileEntry>, manifest: S.Blob) {
    manifest.ManifestDoc? && manifest.files.Keys == PathsOf(es) && (manifest.repeats <==> !UniquePaths(es))
  }

  /**
   A scanned and uploaded folder can be restored, which means that its manifest is valid and its files can be placed,
   exactly when no two files are reported alike and no reported path is a directory on the way to another one. That is
   what the storage protocol asks of a manifest.
   */
  lemma RestoresExactly(
    t: Tree, walk: seq<Path>, files: seq<FileEntry>, es: seq<FileEntry>, store: map<S.ObjectKey, S.Blob>,
    problem: string, generation: int, canonical: Path, manifest: S.Blob)
    requires Listed(t, walk, files, es) && Uploaded(files, store) && CanonicalScanned(files, canonical)
    requires KnownAs(es, manifest)
    ensures var m := Build(problem, generation, es, canonical);
            ValidManifest(m, problem, generation) && Restorable(m, store) <==> DistinctReports(t) && ReportsApart(t)
    ensures S.Materializes(manifest) <==> DistinctReports(t) && ReportsApart(t)
  {
    BuiltManifestValidates(t, walk, files, es, problem, generation, canonical);
    RestorableExactly(t, walk, files, es, store, problem, generation, canonical);
    ClashesExactly(t, walk, files, es);
    UniqueWhenDistinct(t, walk, files);
    ReorderingKeepsUnique(files, es);
    ReorderingKeepsUnique(es, files);
    hide Listed, ValidManifest, Restorable, DistinctReports, ReportsApart, UniquePaths, Reordered;
    NoneOnTheWayExactly(es);
  }

  lemma NoneOnTheWayExactly(es: seq<FileEntry>)
    ensures NoneOnTheWay(PathsOf(es)) <==> NoClash(es)
  {
    hide Parents;
    if NoneOnTheWay(PathsOf(es)) {
      forall j, k | 0 <= j < |es| && 0 <= k < |es|
        ensures es[j].path !in Parents(es[k].path)
      {
        assert es[j] in es && es[k] in es;
        assert es[j].path in PathsOf(es) && es[k].path in PathsOf(es);
      }
    }
  }

  /** With plain names, reported paths are the folder's own. */
  lemma PlainNamesAreApart(t: Tree)
    requires WellFormed(t) && PlainlyNamed(t)
    ensures DistinctReports(t) && ReportsApart(t)
  {
    hide Parents;
    PlainNames(t);
  }

  // ---------------------------------------------------------------- the round trip

  lemma ScannedModesAgree(t: Tree, walk: seq<Path>, files: seq<FileEntry>, es: seq<FileEntry>)
    requires Scanned(t, walk, files, es)
    ensures ModesAgree(es)
  {
    UniqueEntries(t, walk, files, es);
    forall j, i | 0 <= j < |es| && 0 <= i < |es| && SourceOf(es, i, j)
      ensures es[i].mode == es[j].mode
    {
      var k := Origin(t, walk, files, es, i);
      var root, source := RootEntry(t, walk, files, es, k);
      assert es[source].path == es[j].path;
      assert RegularEntry(t, walk, k, files[k]) && RegularEntry(t, walk, root, files[root]);
    }
  }

  /** A restored regular file shares the inode of its group's first name. */
  lemma JoinsRoot(t: Tree, walk: seq<Path>, files: seq<FileEntry>, es: seq<FileEntry>, g: Tree, p: Path)
    returns (j: nat, i: nat)
    requires Scanned(t, walk, files, es) && Materialized(es, g) && p in t.nodes && t.nodes[p].Regular?
    ensures j < |walk| && |files| == |walk| && walk[j] in t.nodes && SameFile(t, walk[j], p) && IsRoot(t, walk, j)
    ensures i < |es| && es[i] == files[j] && es[i].path == walk[j] && KindOf(es[i]) == Plain
            && EntryFor(t, walk, j, files[j])
    ensures p in g.nodes && walk[j] in g.nodes && g.nodes[p] == g.nodes[walk[j]] && NodeOk(es, g, i)
  {
    UniqueEntries(t, walk, files, es);
    var k, at := Locate(t, walk, files, es, p);
    j, i := RootEntry(t, walk, files, es, k);
    assert Placed(es, 3, 0, at) && NodeOk(es, g, at);
    assert Placed(es, 3, 0, i) && NodeOk(es, g, i);
    if KindOf(es[at]) == Hardlink {
      var source :| 0 <= source < |es| && SourceOf(es, at, source) && es[source].path in g.nodes
                    && g.nodes[es[at].path] == g.nodes[es[source].path];
      assert es[source].path == es[i].path;
    }
  }

  lemma LinkRebuilt(t: Tree, walk: seq<Path>, files: seq<FileEntry>, es: seq<FileEntry>, g: Tree, p: Path)
    requires Scanned(t, walk, files, es) && Materialized(es, g) && p in t.nodes && !t.nodes[p].Regular?
    ensures p in g.nodes && SameNode(t, g, p)
  {
    hide Separate, OnlyListed, DirsOk, WellFormed, Walks, Reordered;
    var k, at := Locate(t, walk, files, es, p);
    assert Placed(es, 3, 0, at) && NodeOk(es, g, at);
  }

  lemma FileRebuilt(t: Tree, walk: seq<Path>, files: seq<FileEntry>, es: seq<FileEntry>, g: Tree, p: Path)
    requires Scanned(t, walk, files, es) && Materialized(es, g) && p in t.nodes
    ensures p in g.nodes && SameNode(t, g, p)
  {
    if t.nodes[p].Regular? {
      ScannedModesAgree(t, walk, files, es);
      assert ModesOk(es, g, 3, 0);
      hide Scanned, Materialized, ModesAgree, ModesOk;
      var j, i := JoinsRoot(t, walk, files, es, g, p);
      RootIsRebuilt(t, walk, j, files[j], es, i, g);
    } else {
      LinkRebuilt(t, walk, files, es, g, p);
    }
  }

  /** The inode of a group's first name has the bytes and, with the floor, the mode it had. */
  lemma RootIsRebuilt(t: Tree, walk: seq<Path>, j: nat, e: FileEntry, es: seq<FileEntry>, i: nat, g: Tree)
    requires j < |walk| && walk[j] in t.nodes && t.nodes[walk[j]].Regular? && EntryFor(t, walk, j, e)
    requires i < |es| && es[i] == e && e.path == walk[j] && KindOf(e) == Plain && NodeOk(es, g, i)
    requires ModesAgree(es) && ModesOk(es, g, 3, 0)
    ensures walk[j] in g.nodes && SameNode(t, g, walk[j])
  {
    hide RestoredMode, Floored, SourceOf;
    assert Placed(es, 3, 0, i) && IsFile(g, e.path);
    assert RegularEntry(t, walk, j, e);
  }

  lemma GroupsRebuilt(t: Tree, walk: seq<Path>, files: seq<FileEntry>, es: seq<FileEntry>, g: Tree, p: Path, q: Path)
    requires Scanned(t, walk, files, es) && Materialized(es, g)
    requires p in t.nodes && q in t.nodes && t.nodes[p].Regular? && t.nodes[q].Regular?
    ensures p in g.nodes && q in g.nodes && (t.nodes[p] == t.nodes[q] <==> g.nodes[p] == g.nodes[q])
  {
    hide EntryFor, NodeOk, Scanned;
    var a, i := JoinsRoot(t, walk, files, es, g, p);
    var b, j := JoinsRoot(t, walk, files, es, g, q);
    if t.nodes[p] == t.nodes[q] {
    } else {
      assert walk[a] != walk[b];
      assert Placed(es, 3, 0, i) && Placed(es, 3, 0, j);
      assert g.nodes[es[i].path] != g.nodes[es[j].path];
    }
  }

  lemma ListingRebuilt(t: Tree, walk: seq<Path>, files: seq<FileEntry>, es: seq<FileEntry>, g: Tree)
    requires Scanned(t, walk, files, es) && Materialized(es, g)
    ensures forall p :: p in g.nodes ==> p in t.nodes
    ensures forall d :: d in g.dirs <==> exists p :: p in t.nodes && d in Parents(p)
  {
    hide EntryFor, Parents, NodeOk;
    forall p | p in g.nodes
      ensures p in t.nodes
    {
      var i :| 0 <= i < |es| && Placed(es, 3, 0, i) && es[i].path == p;
      var k := Origin(t, walk, files, es, i);
    }
    forall d
      ensures d in g.dirs <==> exists p :: p in t.nodes && d in Parents(p)
    {
      if d in g.dirs {
        var i :| 0 <= i < |es| && Placed(es, 3, 0, i) && d in Parents(es[i].path);
        var k := Origin(t, walk, files, es, i);
        assert es[i].path in t.nodes;
      }
      if p :| p in t.nodes && d in Parents(p) {
        var k, i := Locate(t, walk, files, es, p);
        assert Placed(es, 3, 0, i);
      }
    }
  }

  /** The round trip: materialising the manifest of a scan rebuilds the scanned folder. */
  lemma RestoreUndoesScan(t: Tree, walk: seq<Path>, files: seq<FileEntry>, es: seq<FileEntry>, g: Tree)
    requires Scanned(t, walk, files, es) && Materialized(es, g)
    ensures Rebuilds(t, g)
  {
    hide Scanned, Materialized, SameNode;
    ListingRebuilt(t, walk, files, es, g);
    forall p | p in t.nodes
      ensures p in g.nodes && SameNode(t, g, p)
    {
      FileRebuilt(t, walk, files, es, g, p);
    }
    forall p, q | p in t.nodes && q in t.nodes && t.nodes[p].Regular? && t.nodes[q].Regular?
      ensures t.nodes[p] == t.nodes[q] <==> g.nodes[p] == g.nodes[q]
    {
      GroupsRebuilt(t, walk, files, es, g, p, q);
    }
  }

  /** Every restored path is the reported path of a scanned one. */
  lemma RestoredPathsAreReported(t: Tree, walk: seq<Path>, files: seq<FileEntry>, es: seq<FileEntry>, g: Tree, p: Path)
    requires WellFormed(t) && Walks(t, walk) && Scans(t, walk, files) && Reordered(files, es) && Materialized(es, g)
    requires p in g.nodes
    ensures '\\' !in p
  {
    hide EntryFor, Parents, NodeOk, WellFormed;
    var i :| 0 <= i < |es| && Placed(es, 3, 0, i) && es[i].path == p;
    ReorderedMembers(files, es);
    assert es[i] in files;
    var k :| 0 <= k < |files| && files[k] == es[i];
    ReportedPath(t, walk, k, files[k]);
  }

  /** A restored folder is the scanned one exactly when no name holds a backslash, which a scan reports as a slash. */
  lemma RestoreUndoesScanExactly(t: Tree, walk: seq<Path>, files: seq<FileEntry>, es: seq<FileEntry>, g: Tree)
    requires WellFormed(t) && Walks(t, walk) && Scans(t, walk, files) && Reordered(files, es) && Materialized(es, g)
    ensures Rebuilds(t, g) <==> PlainlyNamed(t)
  {
    hide SameNode, Materialized, Scans, Reordered, WellFormed;
    if PlainlyNamed(t) {
      RestoreUndoesScan(t, walk, files, es, g);
    }
    if Rebuilds(t, g) {
      forall p | p in t.nodes
        ensures '\\' !in p
      {
        assert p in g.nodes.Keys;
        RestoredPathsAreReported(t, walk, files, es, g, p);
      }
    }
  }

  // ---------------------------------------------------------------- what a backslash does

  /** The twins upload, so their snapshot becomes READY although no restore will accept its manifest. */
  lemma TwinsUpload(store: ObjectStore)
    requires Addressed(store)
    ensures WellFormed(TWINS) && Reads(TWINS, map["a/b" := "x", "a\\b" := "x"])
    ensures forall e :: e in TWIN_FILES ==> Uploads(e, map["a/b" := "x", "a\\b" := "x"], store)
  {
    hide Normalized, Parents, ValidRelative, Components;
    TwinsScan();
    SlashedPath();
    BackslashedPath();
    var disk := map["a/b" := "x", "a\\b" := "x"];
    assert |"a/b"| == 3 && |"a\\b"| == 3;
    assert SamePlace("a/b", "a/b") && SamePlace("a\\b", "a\\b");
    assert ReadsBack(TWINS, disk);
    UploadsExactly(TWINS, TWIN_WALK, TWIN_FILES, disk, store);
  }

  /** An archive 'z' and a symlink named 'a\b'. */
  const NAMED: Tree := Tree(map["a\\b" := Link("c"), "z" := Regular(1)], map[1 := Inode("x", 0)], {})

  const NAMED_WALK: seq<Path> := ["a\\b", "z"]

  const NAMED_FILES: seq<FileEntry> :=
    [FileEntry("a/b", S.Sha256("c"), 1, 0, 0, None, Some("c")), FileEntry("z", S.Sha256("x"), 1, 0, 1, None, None)]

  lemma NamedPaths()
    ensures ValidRelative("a/b") && ValidRelative("z") && StaysInside("a/b", "c")
    ensures Normalized("a\\b") == "a/b" && Normalized("z") == "z"
    ensures Parents("a/b") == {"a"} && Parents("a\\b") == {} && Parents("z") == {}
  {
    SlashedPath();
    BackslashedPath();
    SymlinkPaths.Plain("z");
    SymlinkPaths.Plain("b");
    SymlinkPaths.Plain("c");
    SplitsAtSeparator("a", "b");
    assert "a" + "/" + "b" == "a/b";
    assert Components("a/b") == [Normal("a"), Normal("b")];
    assert ParentStack("a/b") == ["a"];
    assert Components("c") == [Normal("c")];
    assert Resolve(["a"], [Normal("c")]) == Resolve(["a"] + ["c"], []);
  }

  lemma NamedScans()
    ensures WellFormed(NAMED) && Walks(NAMED, NAMED_WALK) && Scans(NAMED, NAMED_WALK, NAMED_FILES)
    ensures DistinctReports(NAMED) && CanonicalScanned(NAMED_FILES, "z") && NoClash(NAMED_FILES)
  {
    hide Normalized, Parents, ValidRelative, StaysInside;
    NamedPaths();
    assert |"a\\b"| == 3 && |"a/b"| == 3 && |"z"| == 1 && |"a"| == 1;
    assert "a"[0] == 'a' && "z"[0] == 'z';
    assert NAMED_WALK[0] == "a\\b" && NAMED_WALK[1] == "z";
    assert IsRoot(NAMED, NAMED_WALK, 1);
    assert RegularEntry(NAMED, NAMED_WALK, 1, NAMED_FILES[1]);
    assert NAMED_FILES[1].path == "z" && NAMED_FILES[1].target.None?;
  }

  /**
   The symlink named 'a\b' is scanned and uploaded, the manifest is valid and can be restored from the store, and every
   folder that a restore makes of it differs from the scanned one.
   */
  lemma BackslashedLinkComesBackDifferent(disk: Disk, store: ObjectStore, problem: string, generation: int)
    requires "z" in disk && disk["z"] == "x" && Addressed(store) && Uploaded(NAMED_FILES, store)
    ensures WellFormed(NAMED) && Walks(NAMED, NAMED_WALK) && Scans(NAMED, NAMED_WALK, NAMED_FILES)
    ensures forall e :: e in NAMED_FILES ==> Uploads(e, disk, store)
    ensures var m := Build(problem, generation, NAMED_FILES, "z");
            ValidManifest(m, problem, generation) && Restorable(m, store)
    ensures forall g :: Materialized(NAMED_FILES, g) ==> !Rebuilds(NAMED, g)
  {
    hide Normalized, Parents, ValidRelative, StaysInside, Scans, ValidManifest, NoClash, Walks, WellFormed,
      Materialized, Rebuilds, EntryFor;
    NamedScans();
    NamedPaths();
    assert forall e :: e in NAMED_FILES ==> Uploads(e, disk, store);
    BuiltManifestValidates(NAMED, NAMED_WALK, NAMED_FILES, NAMED_FILES, problem, generation, "z");
    BuiltEntries(problem, generation, NAMED_FILES, "z");
    assert NAMED_FILES[0] in NAMED_FILES && NAMED_FILES[1] in NAMED_FILES;
    assert "a\\b"[1] == '\\';
    assert "a\\b" in NAMED.nodes;
    forall g | Materialized(NAMED_FILES, g)
      ensures !Rebuilds(NAMED, g)
    {
      RestoreUndoesScanExactly(NAMED, NAMED_WALK, NAMED_FILES, NAMED_FILES, g);
    }
  }

  /** An archive 'a' and a symlink named 'a\b', which is reported below it. */
  const CLASH: Tree := Tree(map["a" := Regular(1), "a\\b" := Link("c")], map[1 := Inode("x", 0)], {})

  const CLASH_WALK: seq<Path> := ["a", "a\\b"]

  const CLASH_FILES: seq<FileEntry> :=
    [FileEntry("a", S.Sha256("x"), 1, 0, 1, None, None), FileEntry("a/b", S.Sha256("c"), 1, 0, 0, None, Some("c"))]

  lemma ClashScans()
    ensures Listed(CLASH, CLASH_WALK, CLASH_FILES, CLASH_FILES) && CanonicalScanned(CLASH_FILES, "a")
    ensures DistinctReports(CLASH) && !ReportsApart(CLASH)
  {
    hide Normalized, Parents, ValidRelative, StaysInside;
    NamedPaths();
    SymlinkPaths.Plain("a");
    ShortPath();
    assert |"a\\b"| == 3 && |"a/b"| == 3 && |"a"| == 1;
    assert CLASH_WALK[0] == "a" && CLASH_WALK[1] == "a\\b";
    assert IsRoot(CLASH, CLASH_WALK, 0);
    assert RegularEntry(CLASH, CLASH_WALK, 0, CLASH_FILES[0]);
    assert CLASH_FILES[0].path == "a" && CLASH_FILES[0].target.None?;
    assert "a" in CLASH.nodes && "a\\b" in CLASH.nodes && "a" in Parents("a/b");
  }

  lemma ShortPath()
    ensures ValidRelative("a") && Normalized("a") == "a" && Parents("a") == {}
  {
    SymlinkPaths.Plain("a");
    assert Components("a") == [Normal("a")];
  }

  /**
   This folder is scanned and uploaded, and its manifest is valid; so its snapshot becomes READY, and the folder equals
   it and can be evicted. But no restore can rebuild it, whatever is in the store.
   */
  lemma ClashCannotBeRestored(disk: Disk, store: ObjectStore, problem: string, generation: int)
    requires "a" in disk && disk["a"] == "x" && Addressed(store) && Uploaded(CLASH_FILES, store)
    ensures Listed(CLASH, CLASH_WALK, CLASH_FILES, CLASH_FILES)
    ensures forall e :: e in CLASH_FILES ==> Uploads(e, disk, store)
    ensures var m := Build(problem, generation, CLASH_FILES, "a");
            ValidManifest(m, problem, generation) && !Restorable(m, store)
  {
    ClashScans();
    NamedPaths();
    ShortPath();
    hide Normalized, Parents, ValidRelative, StaysInside, Scans, ValidManifest, NoClash, Walks, WellFormed,
      ReportsApart, EntryFor, DistinctReports, Restorable;
    assert forall e :: e in CLASH_FILES ==> Uploads(e, disk, store);
    BuiltManifestValidates(CLASH, CLASH_WALK, CLASH_FILES, CLASH_FILES, problem, generation, "a");
    RestorableExactly(CLASH, CLASH_WALK, CLASH_FILES, CLASH_FILES, store, problem, generation, "a");
  }

  // ---------------------------------------------------------------- from folder to folder

  /** The archive that init.yml names is there, under the path that is reported for it. */
  ghost predicate ArchiveIn(t: Tree, canonical: Path) {
    exists p :: p in t.nodes && t.nodes[p].Regular? && Normalized(p) == canonical
  }

  lemma ArchiveIsScanned(t: Tree, walk: seq<Path>, files: seq<FileEntry>, canonical: Path)
    requires WellFormed(t) && Walks(t, walk) && Scans(t, walk, files)
    ensures CanonicalScanned(files, canonical) <==> ArchiveIn(t, canonical)
  {
    hide WellFormed;
    if i :| 0 <= i < |files| && files[i].path == canonical && files[i].target.None? {
      assert EntryFor(t, walk, i, files[i]);
    }
    if p :| p in t.nodes && t.nodes[p].Regular? && Normalized(p) == canonical {
      var k :| 0 <= k < |walk| && walk[k] == p;
      assert EntryFor(t, walk, k, files[k]);
    }
  }

  /**
   Scan, upload, build the manifest, and, as a restore does, validate and materialise it. All of it succeeds exactly on
   folders that can be scanned, have the archive, and whose files read as themselves under their reported paths, are
   reported under different paths, and are not reported below one another. With plain names all but the first two are
   given, and only then what comes back is the folder again. A restore that goes astray counts as failed.
   */
  method SnapshotAndRestore(t: Tree, walk: seq<Path>, disk: Disk, store: ObjectStore, problem: string, generation: int,
                            canonical: Path, through: set<Path>)
    returns (restored: Option<Staging>)
    requires WellFormed(t) && Walks(t, walk) && Reads(t, disk) && Addressed(store)
    ensures restored.Some? <==>
              Scannable(t) && ArchiveIn(t, canonical) && ReadsBack(t, disk) && DistinctReports(t) && ReportsApart(t)
    ensures PlainlyNamed(t) ==> ReadsBack(t, disk) && DistinctReports(t) && ReportsApart(t)
    ensures restored.Some? ==> (Rebuilds(t, restored.value.Contents()) <==> PlainlyNamed(t))
  {
    hide Scannable, WellFormed, Scans, EntryFor, ValidManifest, Rebuilds, Materialized, Restorable, Uploads, Reads,
      ReadsBack, Addressed, ReportsApart, ArchiveIn, PlainlyNamed;
    if PlainlyNamed(t) {
      PlainNamesAreApart(t);
      PlainNamesReadBack(t, disk);
    }
    var scan := ScanProblemFolder(t, walk);
    if scan.Err? {
      return None;
    }
    var files := scan.value.files;
    ArchiveIsScanned(t, walk, files, canonical);
    if !CanonicalScanned(files, canonical) {
      return None;
    }
    UploadsExactly(t, walk, files, disk, store);
    var uploaded := UploadAll(files, disk, store);
    if uploaded.Err? {
      return None;
    }
    restored := RestoreBuilt(t, walk, files, uploaded.value, problem, generation, canonical, through);
  }

  lemma PlainNamesReadBack(t: Tree, disk: Disk)
    requires WellFormed(t) && Reads(t, disk) && PlainlyNamed(t)
    ensures ReadsBack(t, disk)
  {
    hide Parents;
    PlainNames(t);
  }

  method RestoreBuilt(t: Tree, walk: seq<Path>, files: seq<FileEntry>, store: ObjectStore, problem: string,
                      generation: int, canonical: Path, through: set<Path>)
    returns (restored: Option<Staging>)
    requires WellFormed(t) && Walks(t, walk) && Scans(t, walk, files) && CanonicalScanned(files, canonical)
    requires Uploaded(files, store)
    ensures restored.Some? <==> DistinctReports(t) && ReportsApart(t)
    ensures restored.Some? ==> (Rebuilds(t, restored.value.Contents()) <==> PlainlyNamed(t))
  {
    hide WellFormed, Scans, EntryFor, ValidManifest, Rebuilds, Materialized, Restorable, Uploaded, ReportsApart,
      DistinctReports, PlainlyNamed;
    var m := Build(problem, generation, files, canonical);
    BuiltEntries(problem, generation, files, canonical);
    BuiltManifestValidates(t, walk, files, files, problem, generation, canonical);
    RestorableExactly(t, walk, files, files, store, problem, generation, canonical);
    var valid := ValidateManifest(m, problem, generation);
    if valid.Err? {
      return None;
    }
    ValidIsUnique(m, problem, generation);
    var outcome := MaterializeManifestFiles(m, store, through);
    match outcome
    case Rebuilt(staging) =>
      RestoreUndoesScanExactly(t, walk, files, files, staging.Contents());
      return Some(staging);
    case _ =>
      return None;
  }

  lemma ValidIsUnique(m: Manifest, problem: string, generation: int)
    requires ValidManifest(m, problem, generation)
    ensures UniquePaths(Entries(m.files))
  {
  }
}
