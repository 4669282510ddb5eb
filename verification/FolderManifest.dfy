/** Manifests: what validation accepts, and which scans lead to a manifest that it accepts. */
module FolderManifest {
  import opened Common
  import opened SymlinkPaths
  import opened FolderScan
  import S = Storage

  datatype ManifestFile = ManifestFile(entry: FileEntry, objectKey: S.ObjectKey)

  datatype Manifest = Manifest(
    schemaVersion: nat,
    problem: string,
    generation: int,
    files: seq<ManifestFile>,
    canonical: Option<Path>,
    totalBytes: nat,
    fileCount: nat)

  datatype ManifestError =
    | UnsupportedSchema
    | IdentityMismatch
    | BadPath(path: Path)
    | DuplicatePath(path: Path)
    | ObjectKeyMismatch(path: Path)
    | BadLink(path: Path)
    | CountsDiffer
    | CanonicalMissing
    | CanonicalIsLink

  function Entries(files: seq<ManifestFile>): (es: seq<FileEntry>)
    ensures |es| == |files| && forall i :: 0 <= i < |files| ==> es[i] == files[i].entry
  {
    seq(|files|, i requires 0 <= i < |files| => files[i].entry)
  }

  ghost predicate UniquePaths(es: seq<FileEntry>) {
    forall i, j :: 0 <= i < |es| && 0 <= j < |es| && es[i].path == es[j].path ==> i == j
  }

  predicate ValidFile(m: Manifest, f: ManifestFile) {
    && ValidRelative(f.entry.path)
    && f.objectKey == S.Content(f.entry.sha)
    && (f.entry.target.Some? ==>
          && m.schemaVersion >= 3 && f.entry.duplicateOf.None?
          && StaysInside(f.entry.path, f.entry.target.value)
          && f.entry.sha == S.Sha256(f.entry.target.value) && f.entry.size == |f.entry.target.value|)
  }

  /** The canonical archive is a listed file that is no link. */
  predicate CanonicalListed(es: seq<FileEntry>, canonical: Path) {
    && ValidRelative(canonical)
    && (exists i :: 0 <= i < |es| && es[i].path == canonical)
    && (forall i :: 0 <= i < |es| && es[i].path == canonical ==> es[i].target.None?)
  }

  /** What a restore or a download demands of a manifest before it uses it. */
  ghost predicate ValidManifest(m: Manifest, problem: string, generation: int) {
    && 1 <= m.schemaVersion <= 3
    && m.problem == problem && m.generation == generation
    && (forall f :: f in m.files ==> ValidFile(m, f))
    && UniquePaths(Entries(m.files))
    && m.fileCount == |m.files| && m.totalBytes == LogicalBytes(Entries(m.files))
    && (m.canonical.Some? ==> CanonicalListed(Entries(m.files), m.canonical.value))
  }

  // ---------------------------------------------------------------- validation

  method ValidateFile(m: Manifest, f: ManifestFile) returns (r: Result<(), ManifestError>)
    ensures r.Ok? <==> ValidFile(m, f)
  {
    var path := ValidateRelativePath(f.entry.path);
    if path.Err? {
      return Err(BadPath(f.entry.path));
    }
    if f.objectKey != S.Content(f.entry.sha) {
      return Err(ObjectKeyMismatch(f.entry.path));
    }
    if f.entry.target.Some? {
      if m.schemaVersion < 3 || f.entry.duplicateOf.Some? {
        return Err(BadLink(f.entry.path));
      }
      var target := ValidateSymlinkTarget(f.entry.path, f.entry.target.value);
      if target.Err? || f.entry.sha != S.Sha256(f.entry.target.value) || f.entry.size != |f.entry.target.value| {
        return Err(BadLink(f.entry.path));
      }
    }
    return Ok(());
  }

  /** The pass over the files, with the set of paths seen and the running total. */
  method ValidateFiles(m: Manifest) returns (r: Result<nat, ManifestError>, seen: set<Path>)
    ensures r.Ok? <==> (forall f :: f in m.files ==> ValidFile(m, f)) && UniquePaths(Entries(m.files))
    ensures r.Ok? ==> r.value == LogicalBytes(Entries(m.files))
    ensures r.Ok? ==> seen == set k | 0 <= k < |m.files| :: Entries(m.files)[k].path
  {
    hide ValidFile;
    ghost var es := Entries(m.files);
    seen := {};
    var logical: nat := 0;
    for i := 0 to |m.files|
      invariant seen == set k | 0 <= k < i :: es[k].path
      invariant forall j, k :: 0 <= j < k < i ==> es[j].path != es[k].path
      invariant forall k :: 0 <= k < i ==> ValidFile(m, m.files[k])
      invariant logical == LogicalBytes(es[..i])
    {
      var f := m.files[i];
      var checked := ValidateFile(m, f);
      if checked.Err? {
        return Err(checked.error), seen;
      }
      if f.entry.path in seen {
        var k :| 0 <= k < i && m.files[k].entry.path == f.entry.path;
        assert es[k].path == es[i].path;
        return Err(DuplicatePath(f.entry.path)), seen;
      }
      seen := seen + {f.entry.path};
      if f.entry.duplicateOf.None? {
        logical := logical + f.entry.size;
      }
      assert es[..i + 1][..i] == es[..i];
    }
    assert es[..|es|] == es;
    r := Ok(logical);
  }

  /** validate_manifest. */
  method ValidateManifest(m: Manifest, problem: string, generation: int) returns (r: Result<(), ManifestError>)
    ensures r.Ok? <==> ValidManifest(m, problem, generation)
  {
    hide ValidFile, CanonicalListed, UniquePaths, LogicalBytes;
    if m.schemaVersion == 0 || m.schemaVersion > 3 {
      return Err(UnsupportedSchema);
    }
    if m.problem != problem || m.generation != generation {
      return Err(IdentityMismatch);
    }
    var files, seen := ValidateFiles(m);
    if files.Err? {
      return Err(files.error);
    }
    if m.fileCount != |m.files| || m.totalBytes != files.value {
      return Err(CountsDiffer);
    }
    if m.canonical.Some? {
      r := ValidateCanonical(m, m.canonical.value, seen);
      return;
    }
    return Ok(());
  }

  method ValidateCanonical(m: Manifest, canonical: Path, seen: set<Path>) returns (r: Result<(), ManifestError>)
    requires seen == set k | 0 <= k < |m.files| :: Entries(m.files)[k].path
    ensures r.Ok? <==> CanonicalListed(Entries(m.files), canonical)
  {
    var path := ValidateRelativePath(canonical);
    if path.Err? {
      return Err(BadPath(canonical));
    }
    if canonical !in seen {
      return Err(CanonicalMissing);
    }
    var es := Entries(m.files);
    if exists i :: 0 <= i < |es| && es[i].path == canonical && es[i].target.Some? {
      return Err(CanonicalIsLink);
    }
    return Ok(());
  }

  /** Everything in a valid manifest but the schema version and the archive's name follows from what it lists. */
  lemma ValidIsRigid(m: Manifest, n: Manifest, problem: string, generation: int)
    requires ValidManifest(m, problem, generation) && ValidManifest(n, problem, generation)
    requires Entries(m.files) == Entries(n.files)
    ensures n == m.(schemaVersion := n.schemaVersion, canonical := n.canonical)
    ensures n.schemaVersion in {1, 2, 3}
    ensures (exists f :: f in n.files && f.entry.target.Some?) ==> m.schemaVersion == n.schemaVersion == 3
  {
    forall i | 0 <= i < |m.files|
      ensures m.files[i] == n.files[i]
    {
      assert m.files[i] in m.files && n.files[i] in n.files;
      assert Entries(m.files)[i] == Entries(n.files)[i];
    }
  }

  // ---------------------------------------------------------------- the manifest of a scan

  /** create_snapshot_after_insert: the uploaded entries in path order, counted and totalled. */
  function Build(problem: string, generation: int, sorted: seq<FileEntry>, canonical: Path): Manifest {
    Manifest(3, problem, generation, seq(|sorted|, i requires 0 <= i < |sorted| =>
      ManifestFile(sorted[i], S.Content(sorted[i].sha))),
             Some(canonical), LogicalBytes(sorted), |sorted|)
  }

  lemma BuiltEntries(problem: string, generation: int, sorted: seq<FileEntry>, canonical: Path)
    ensures Entries(Build(problem, generation, sorted, canonical).files) == sorted
  {
  }

  /** No two files of the folder are reported under one path. */
  ghost predicate DistinctReports(t: Tree) {
    forall p, q :: p in t.nodes && q in t.nodes && Normalized(p) == Normalized(q) ==> p == q
  }

  /** The archive that init.yml names is scanned and is no link. */
  predicate CanonicalScanned(files: seq<FileEntry>, canonical: Path) {
    exists i :: 0 <= i < |files| && files[i].path == canonical && files[i].target.None?
  }

  ghost predicate Reordered(files: seq<FileEntry>, sorted: seq<FileEntry>) {
    multiset(files) == multiset(sorted)
  }

  lemma ReorderedMembers(files: seq<FileEntry>, sorted: seq<FileEntry>)
    requires Reordered(files, sorted)
    ensures |files| == |sorted| && forall e :: e in files <==> e in sorted
  {
    assert |multiset(files)| == |files| && |multiset(sorted)| == |sorted|;
    forall e
      ensures e in files <==> e in sorted
    {
      assert e in files <==> e in multiset(files);
      assert e in sorted <==> e in multiset(sorted);
    }
  }

  /** Putting entries into another order does not change what they add up to. */
  lemma {:induction false} ReorderingKeepsBytes(files: seq<FileEntry>, sorted: seq<FileEntry>)
    requires Reordered(files, sorted)
    ensures LogicalBytes(files) == LogicalBytes(sorted)
    decreases |files|
  {
    ReorderedMembers(files, sorted);
    if files != [] {
      var last := files[|files| - 1];
      assert last in sorted;
      var i :| 0 <= i < |sorted| && sorted[i] == last;
      var rest := sorted[..i] + sorted[i + 1..];
      RemovingKeepsOrder(files, sorted, i);
      ReorderingKeepsBytes(files[..|files| - 1], rest);
      RemovingOne(sorted, i);
    }
  }

  lemma RemovingKeepsOrder(files: seq<FileEntry>, sorted: seq<FileEntry>, i: nat)
    requires Reordered(files, sorted) && files != [] && i < |sorted| && sorted[i] == files[|files| - 1]
    ensures Reordered(files[..|files| - 1], sorted[..i] + sorted[i + 1..])
  {
    var last := files[|files| - 1];
    var rest := sorted[..i] + sorted[i + 1..];
    assert files == files[..|files| - 1] + [last];
    assert sorted == sorted[..i] + [last] + sorted[i + 1..];
    assert multiset(sorted) == multiset(sorted[..i]) + multiset{last} + multiset(sorted[i + 1..]);
    assert multiset(rest) == multiset(sorted[..i]) + multiset(sorted[i + 1..]);
    assert multiset(files[..|files| - 1]) == multiset(files) - multiset{last};
  }

  lemma {:induction false} RemovingOne(es: seq<FileEntry>, i: nat)
    requires i < |es|
    ensures LogicalBytes(es) == LogicalBytes(es[..i] + es[i + 1..]) + if es[i].duplicateOf.None? then es[i].size else 0
    decreases |es|
  {
    var n := |es| - 1;
    if i == n {
      assert es[..i] + es[i + 1..] == es[..n];
    } else {
      var rest := es[..i] + es[i + 1..];
      RemovingOne(es[..n], i);
      assert rest[..|rest| - 1] == es[..n][..i] + es[..n][i + 1..];
      assert rest[|rest| - 1] == es[n];
    }
  }

  lemma ReorderingKeepsUnique(files: seq<FileEntry>, sorted: seq<FileEntry>)
    requires Reordered(files, sorted)
    ensures UniquePaths(files) ==> UniquePaths(sorted)
  {
    ReorderedMembers(files, sorted);
    if UniquePaths(files) {
      forall i, j | 0 <= i < j < |sorted|
        ensures sorted[i].path != sorted[j].path
      {
        if sorted[i].path == sorted[j].path {
          assert sorted[i] in files && sorted[j] in files;
          var a :| 0 <= a < |files| && files[a] == sorted[i];
          var b :| 0 <= b < |files| && files[b] == sorted[j];
          assert a == b;
          TwiceInMultiset(sorted, i, j);
          OnceInMultiset(files, a);
          assert false;
        }
      }
    }
  }

  lemma TwiceInMultiset(es: seq<FileEntry>, i: nat, j: nat)
    requires i < j < |es| && es[i] == es[j]
    ensures multiset(es)[es[i]] >= 2
  {
    assert es == es[..i] + [es[i]] + es[i + 1..j] + [es[j]] + es[j + 1..];
  }

  lemma OnceInMultiset(es: seq<FileEntry>, i: nat)
    requires i < |es| && UniquePaths(es)
    ensures multiset(es)[es[i]] == 1
  {
    assert es == es[..i] + [es[i]] + es[i + 1..];
    assert es[i] !in es[..i] && es[i] !in es[i + 1..];
  }

  /** Distinct files have distinct entries: then paths are unique exactly when no two names are reported alike. */
  lemma UniqueWhenDistinct(t: Tree, walk: seq<Path>, files: seq<FileEntry>)
    requires Walks(t, walk) && Scans(t, walk, files)
    ensures UniquePaths(files) <==> DistinctReports(t)
  {
    hide EntryFor;
    forall k | 0 <= k < |files|
      ensures files[k].path == Normalized(walk[k])
    {
      ReportedPath(t, walk, k, files[k]);
    }
    if UniquePaths(files) {
      forall p, q | p in t.nodes && q in t.nodes && Normalized(p) == Normalized(q)
        ensures p == q
      {
        var i :| 0 <= i < |walk| && walk[i] == p;
        var j :| 0 <= j < |walk| && walk[j] == q;
        assert files[i].path == files[j].path;
      }
    }
  }

  lemma ReportedPath(t: Tree, walk: seq<Path>, k: nat, e: FileEntry)
    requires k < |walk| && walk[k] in t.nodes && EntryFor(t, walk, k, e)
    ensures e.path == Normalized(walk[k]) && ValidRelative(e.path)
  {
  }

  lemma ScannedLinksAreValid(t: Tree, walk: seq<Path>, k: nat, e: FileEntry)
    requires k < |walk| && walk[k] in t.nodes && EntryFor(t, walk, k, e)
    ensures e.target.Some? ==> e.duplicateOf.None? && StaysInside(e.path, e.target.value)
                               && e.sha == S.Sha256(e.target.value) && e.size == |e.target.value|
  {
  }

  /**
   The manifest built from a successful scan with a canonical archive passes validation exactly when no two files
   are reported under one path. Only names with a backslash can be.
   */
  lemma BuiltManifestValidates(
    t: Tree, walk: seq<Path>, files: seq<FileEntry>, sorted: seq<FileEntry>, problem: string, generation: int,
      canonical: Path)
    requires Walks(t, walk) && Scans(t, walk, files) && Reordered(files, sorted) && CanonicalScanned(files, canonical)
    ensures ValidManifest(Build(problem, generation, sorted, canonical), problem, generation) <==> DistinctReports(t)
    ensures Build(problem, generation, sorted, canonical).totalBytes == LogicalBytes(files)
  {
    hide EntryFor, StaysInside, ValidRelative;
    var m := Build(problem, generation, sorted, canonical);
    BuiltEntries(problem, generation, sorted, canonical);
    ReorderingKeepsBytes(files, sorted);
    ReorderedMembers(files, sorted);
    ReorderingKeepsUnique(files, sorted);
    ReorderingKeepsUnique(sorted, files);
    UniqueWhenDistinct(t, walk, files);
    forall f | f in m.files
      ensures ValidFile(m, f)
    {
      assert f.entry in sorted;
      var k :| 0 <= k < |files| && files[k] == f.entry;
      ReportedPath(t, walk, k, files[k]);
      ScannedLinksAreValid(t, walk, k, files[k]);
    }
    if UniquePaths(sorted) {
      CanonicalIsListed(t, walk, files, sorted, canonical);
    }
  }

  lemma CanonicalIsListed(t: Tree, walk: seq<Path>, files: seq<FileEntry>, sorted: seq<FileEntry>, canonical: Path)
    requires Scans(t, walk, files) && Reordered(files, sorted) && CanonicalScanned(files, canonical)
             && UniquePaths(sorted)
    ensures CanonicalListed(sorted, canonical)
  {
    hide EntryFor, ValidRelative;
    ReorderedMembers(files, sorted);
    var a :| 0 <= a < |files| && files[a].path == canonical && files[a].target.None?;
    assert files[a] in sorted;
    var i :| 0 <= i < |sorted| && sorted[i] == files[a];
    ReportedPath(t, walk, a, files[a]);
  }

  /** Without backslashes every path is reported as it is. */
  lemma PlainNames(t: Tree)
    requires forall p :: p in t.nodes ==> '\\' !in p
    ensures DistinctReports(t) && forall p :: p in t.nodes ==> Normalized(p) == p
  {
    forall p | p in t.nodes
      ensures Normalized(p) == p
    {
      assert forall i :: 0 <= i < |p| ==> p[i] in p;
    }
  }

  lemma SlashedPath()
    ensures ValidRelative("a/b") && Normalized("a/b") == "a/b" && Parents("a/b") == {"a"}
  {
    SplitsAtSeparator("a", "b");
    Plain("b");
    assert "a" + "/" + "b" == "a/b";
    assert Components("a/b") == [Normal("a"), Normal("b")];
    assert "a/b"[..1] == "a";
  }

  lemma BackslashedPath()
    ensures Normalized("a\\b") == "a/b" && Parents("a\\b") == {} && "a\\b" != "a/b"
  {
    assert "a\\b"[1] == '\\';
  }

  /** A file named 'a\b' beside a file 'b' in folder 'a', both of the same content. */
  const TWINS: Tree :=
    Tree(map["a/b" := Regular(1), "a\\b" := Regular(2)], map[1 := Inode("x", 0), 2 := Inode("x", 0)], {"a"})

  const TWIN_WALK: seq<Path> := ["a/b", "a\\b"]

  function TwinEntry(ino: Ino): FileEntry {
    FileEntry("a/b", S.Sha256("x"), 1, 0, ino, None, None)
  }

  const TWIN_FILES: seq<FileEntry> := [TwinEntry(1), TwinEntry(2)]

  lemma TwinsScan()
    ensures WellFormed(TWINS) && Walks(TWINS, TWIN_WALK) && Scans(TWINS, TWIN_WALK, TWIN_FILES)
  {
    hide Parents, Normalized, ValidRelative;
    SlashedPath();
    BackslashedPath();
    assert |"a"| == 1 && |"a/b"| == 3 && |"a\\b"| == 3;
    assert TWIN_WALK[0] == "a/b" && TWIN_WALK[1] == "a\\b";
    assert IsRoot(TWINS, TWIN_WALK, 0) && IsRoot(TWINS, TWIN_WALK, 1);
    assert RegularEntry(TWINS, TWIN_WALK, 0, TwinEntry(1)) && RegularEntry(TWINS, TWIN_WALK, 1, TwinEntry(2));
  }

  /** The twins are scanned, the archive is there, and the manifest built from the scan is refused. */
  lemma BackslashBreaksValidation(problem: string, generation: int)
    ensures WellFormed(TWINS) && Walks(TWINS, TWIN_WALK) && Scans(TWINS, TWIN_WALK, TWIN_FILES)
    ensures CanonicalScanned(TWIN_FILES, "a/b")
    ensures !ValidManifest(Build(problem, generation, TWIN_FILES, "a/b"), problem, generation)
  {
    hide Normalized, Scans, WellFormed, Walks;
    TwinsScan();
    BackslashedPath();
    SlashedPath();
    assert TWIN_FILES[0].path == "a/b" && TWIN_FILES[0].target.None?;
    assert "a/b" in TWINS.nodes && "a\\b" in TWINS.nodes;
    BuiltManifestValidates(TWINS, TWIN_WALK, TWIN_FILES, TWIN_FILES, problem, generation, "a/b");
  }
}
