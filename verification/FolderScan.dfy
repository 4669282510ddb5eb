/** Scanning a problem folder: one entry a file, hardlinks found by inode, bytes counted once an inode. */
module FolderScan {
  import opened Common
  import opened SymlinkPaths
  import S = Storage

  type Path = string
  type Bytes = S.Bytes
  type Digest = S.Digest
  type Ino = nat
  type Mode = bv16

  datatype Node = Regular(ino: Ino) | Link(target: string) | Special

  /** What all names of one file share. `mode` is st_mode. */
  datatype Inode = Inode(content: Bytes, mode: Mode)

  /** A folder: its files by relative path, its inodes, and its directories. */
  datatype Tree = Tree(nodes: map<Path, Node>, inodes: map<Ino, Inode>, dirs: set<Path>)

  /** What the file system guarantees: inodes exist, parents are directories, names are ordinary. */
  ghost predicate WellFormed(t: Tree) {
    && (forall p :: p in t.nodes && t.nodes[p].Regular? ==> t.nodes[p].ino in t.inodes)
    && (forall p :: p in t.nodes ==> Parents(p) <= t.dirs && p !in t.dirs)
  }

  /** '\' becomes '/' in every path that is reported. */
  function Normalized(path: Path): Path {
    seq(|path|, i requires 0 <= i < |path| => if path[i] == '\\' then '/' else path[i])
  }

  datatype FileEntry = FileEntry(
    path: Path,
    sha: Digest,
    size: nat,
    mode: Mode,
    ino: Ino,
    duplicateOf: Option<Path>,
    target: Option<string>)

  datatype ScanResult = ScanResult(files: seq<FileEntry>, logical: nat, archive: nat, auxiliary: nat, count: nat)

  datatype ScanError = SpecialFile(path: Path) | EscapingLink(path: Path) | EscapingPath(path: Path)

  /** The order of the walk: every file once, directories aside. */
  ghost predicate Walks(t: Tree, walk: seq<Path>) {
    && (forall k :: 0 <= k < |walk| ==> walk[k] in t.nodes)
    && (forall p :: p in t.nodes ==> p in walk)
    && (forall j, k :: 0 <= j < k < |walk| ==> walk[j] != walk[k])
  }

  // ---------------------------------------------------------------- what a scan reports

  predicate SameFile(t: Tree, p: Path, q: Path) {
    p in t.nodes && q in t.nodes && t.nodes[p].Regular? && t.nodes[p] == t.nodes[q]
  }

  /** Position `k` of the walk is the first name of its inode. */
  predicate IsRoot(t: Tree, walk: seq<Path>, k: nat)
    requires k < |walk|
  {
    forall j :: 0 <= j < k ==> !SameFile(t, walk[j], walk[k])
  }

  ghost predicate RegularEntry(t: Tree, walk: seq<Path>, k: nat, e: FileEntry)
    requires k < |walk| && walk[k] in t.nodes && t.nodes[walk[k]].Regular? && t.nodes[walk[k]].ino in t.inodes
  {
    var inode := t.inodes[t.nodes[walk[k]].ino];
    && e.sha == S.Sha256(inode.content) && e.size == |inode.content| && e.mode == inode.mode
    && e.ino == t.nodes[walk[k]].ino && e.target.None?
    && (e.duplicateOf.None? <==> IsRoot(t, walk, k))
    && (e.duplicateOf.Some? ==>
          exists j :: 0 <= j < k && SameFile(t, walk[j], walk[k]) && IsRoot(t, walk, j)
                      && e.duplicateOf == Some(Normalized(walk[j])))
  }

  ghost predicate EntryFor(t: Tree, walk: seq<Path>, k: nat, e: FileEntry)
    requires k < |walk| && walk[k] in t.nodes
  {
    && e.path == Normalized(walk[k]) && ValidRelative(e.path)
    && match t.nodes[walk[k]]
       case Special => false
       case Link(target) =>
         && e.sha == S.Sha256(target) && e.size == |target| && e.duplicateOf.None? && e.target == Some(target)
         && StaysInside(e.path, target)
       case Regular(ino) => ino in t.inodes && RegularEntry(t, walk, k, e)
  }

  /** The scanned entries, in the order of the walk. */
  ghost predicate Scans(t: Tree, walk: seq<Path>, files: seq<FileEntry>) {
    && |files| == |walk|
    && forall k :: 0 <= k < |walk| ==> walk[k] in t.nodes && EntryFor(t, walk, k, files[k])
  }

  /** Each inode's bytes once: the entries that are not duplicates. */
  function LogicalBytes(files: seq<FileEntry>): nat {
    if files == [] then 0
    else LogicalBytes(files[..|files| - 1]) + if files[|files| - 1].duplicateOf.None? then files[|files| - 1].size
      else 0
  }

  predicate EndsWith(s: string, suffix: string) {
    |suffix| <= |s| && s[|s| - |suffix|..] == suffix
  }

  function Lower(s: string): string {
    seq(|s|, i requires 0 <= i < |s| => if 'A' <= s[i] <= 'Z' then (s[i] as int + 32) as char else s[i])
  }

  predicate IsArchive(path: Path) {
    var name := Lower(path);
    EndsWith(name, ".zip") || EndsWith(name, ".tar") || EndsWith(name, ".gz") || EndsWith(name, ".7z")
  }

  predicate HasEnding(path: Path, suffix: string) {
    |suffix| <= |path| && Lower(path[|path| - |suffix|..]) == suffix
  }

  lemma EndingInAnyCase(path: Path, suffix: string)
    ensures EndsWith(Lower(path), suffix) <==> HasEnding(path, suffix)
  {
    if |suffix| <= |path| {
      assert Lower(path)[|path| - |suffix|..] == Lower(path[|path| - |suffix|..]);
    }
  }

  /** A name counts as an archive's by its ending, in whatever case. */
  lemma ArchivesByEnding(path: Path)
    ensures IsArchive(path) <==> exists suffix :: suffix in {".zip", ".tar", ".gz", ".7z"} && HasEnding(path, suffix)
  {
    hide EndsWith, HasEnding, Lower;
    forall suffix: string
      ensures EndsWith(Lower(path), suffix) <==> HasEnding(path, suffix)
    {
      EndingInAnyCase(path, suffix);
    }
    assert ".zip" in {".zip", ".tar", ".gz", ".7z"} && ".7z" in {".zip", ".tar", ".gz", ".7z"};
  }

  /** The bytes of archives: regular files with an archive's name, each inode under its first name. */
  function ArchiveBytes(files: seq<FileEntry>): nat {
    if files == [] then 0
    else
      var e := files[|files| - 1];
      ArchiveBytes(files[..|files| - 1]) + if e.duplicateOf.None? && e.target.None? && IsArchive(e.path) then e.size
        else 0
  }

  // ---------------------------------------------------------------- every inode once

  ghost function InodeBytes(t: Tree, inos: set<Ino>): nat
    requires inos <= t.inodes.Keys
  {
    if inos == {} then 0
    else
      var ino :| ino in inos;
      |t.inodes[ino].content| + InodeBytes(t, inos - {ino})
  }

  lemma {:induction false} OneInodeMore(t: Tree, inos: set<Ino>, ino: Ino)
    requires inos <= t.inodes.Keys && ino in t.inodes && ino !in inos
    ensures InodeBytes(t, inos + {ino}) == InodeBytes(t, inos) + |t.inodes[ino].content|
    decreases |inos|
  {
    var more := inos + {ino};
    var first :| first in more && InodeBytes(t, more) == |t.inodes[first].content| + InodeBytes(t, more - {first});
    if first == ino {
      assert more - {first} == inos;
    } else {
      assert more - {first} == (inos - {first}) + {ino};
      OneInodeMore(t, inos - {first}, ino);
      OneInodeMore(t, inos - {first}, first);
      assert (inos - {first}) + {first} == inos;
    }
  }

  /** The inodes that the first names of the walk stand for. */
  function InodesOf(t: Tree, names: seq<Path>): set<Ino> {
    set p | p in names && p in t.nodes && t.nodes[p].Regular? :: t.nodes[p].ino
  }

  function LinkBytes(t: Tree, names: seq<Path>): nat {
    if names == [] then 0
    else
      var p := names[|names| - 1];
      LinkBytes(t, names[..|names| - 1]) + if p in t.nodes && t.nodes[p].Link? then |t.nodes[p].target| else 0
  }

  /** Logical bytes are those of each inode once, however many names it has, and the symlinks' targets. */
  lemma {:induction false} EachInodeCountsOnce(t: Tree, walk: seq<Path>, files: seq<FileEntry>, i: nat)
    requires WellFormed(t) && Walks(t, walk) && Scans(t, walk, files) && i <= |walk|
    ensures InodesOf(t, walk[..i]) <= t.inodes.Keys
    ensures LogicalBytes(files[..i]) == InodeBytes(t, InodesOf(t, walk[..i])) + LinkBytes(t, walk[..i])
    decreases i
  {
    hide EntryFor, Walks, InodesOf, InodeBytes;
    InodesExist(t, walk[..i]);
    if i == 0 {
      NoInodes(t);
      assert walk[..0] == [];
    } else {
      var k := i - 1;
      EachInodeCountsOnce(t, walk, files, k);
      assert files[..i][..k] == files[..k] && walk[..i][..k] == walk[..k];
      EntryAdds(t, walk, files, k);
    }
  }

  lemma NoInodes(t: Tree)
    ensures InodesOf(t, []) == {} && InodeBytes(t, {}) == 0
  {
  }

  lemma InodesExist(t: Tree, names: seq<Path>)
    requires WellFormed(t)
    ensures InodesOf(t, names) <= t.inodes.Keys
  {
  }

  /** One entry more. */
  lemma EntryAdds(t: Tree, walk: seq<Path>, files: seq<FileEntry>, k: nat)
    requires WellFormed(t) && Walks(t, walk) && Scans(t, walk, files) && k < |walk|
    requires InodesOf(t, walk[..k]) <= t.inodes.Keys && InodesOf(t, walk[..k + 1]) <= t.inodes.Keys
    ensures walk[k] in t.nodes
    ensures InodeBytes(t, InodesOf(t, walk[..k + 1])) ==
            InodeBytes(t, InodesOf(t, walk[..k]))
              + if t.nodes[walk[k]].Regular? && files[k].duplicateOf.None? then files[k].size else 0
    ensures files[k].duplicateOf.None? && t.nodes[walk[k]].Link? ==> files[k].size == |t.nodes[walk[k]].target|
    ensures t.nodes[walk[k]].Link? ==> files[k].duplicateOf.None?
    ensures !t.nodes[walk[k]].Special?
  {
    hide InodeBytes, InodesOf, Walks, IsRoot, WellFormed, EntryFor;
    EntryFacts(t, walk, k, files[k]);
    InodesGrow(t, walk[..k], walk[k]);
    assert walk[..k + 1] == walk[..k] + [walk[k]];
    if t.nodes[walk[k]].Regular? { KnownByName(t, walk, k, t.nodes[walk[k]].ino); }
    if t.nodes[walk[k]].Regular? && files[k].duplicateOf.None? {
      OneInodeMore(t, InodesOf(t, walk[..k]), t.nodes[walk[k]].ino);
    }
  }

  lemma EntryFacts(t: Tree, walk: seq<Path>, k: nat, e: FileEntry)
    requires k < |walk| && walk[k] in t.nodes && EntryFor(t, walk, k, e)
    ensures match t.nodes[walk[k]]
            case Special => false
            case Link(target) => e.size == |target| && e.duplicateOf.None?
            case Regular(ino) =>
              ino in t.inodes && e.size == |t.inodes[ino].content| && (e.duplicateOf.None? <==> IsRoot(t, walk, k))
  {
    hide IsRoot, ValidRelative, StaysInside;
  }

  lemma InodesGrow(t: Tree, names: seq<Path>, p: Path)
    requires p in t.nodes
    ensures InodesOf(t, names + [p]) ==
            if t.nodes[p].Regular? then InodesOf(t, names) + {t.nodes[p].ino} else InodesOf(t, names)
    ensures t.nodes[p].Regular? && t.nodes[p].ino in InodesOf(t, names) ==>
              InodesOf(t, names + [p]) == InodesOf(t, names)
  {
    var before, after := InodesOf(t, names), InodesOf(t, names + [p]);
    if t.nodes[p].Regular? {
      assert after == before + {t.nodes[p].ino};
    } else {
      assert after == before;
    }
  }

  lemma KnownByName(t: Tree, walk: seq<Path>, k: nat, ino: Ino)
    requires Walks(t, walk) && k < |walk| && t.nodes[walk[k]] == Regular(ino)
    ensures ino in InodesOf(t, walk[..k]) <==> !IsRoot(t, walk, k)
  {
    if ino in InodesOf(t, walk[..k]) {
      var p :| p in walk[..k] && p in t.nodes && t.nodes[p] == Regular(ino);
      var j :| 0 <= j < k && walk[j] == p;
      assert SameFile(t, walk[j], walk[k]);
    }
    if !IsRoot(t, walk, k) {
      var j :| 0 <= j < k && SameFile(t, walk[j], walk[k]);
      assert walk[j] in walk[..k];
    }
  }

  /** Nothing about this file stops a scan. */
  predicate Passable(t: Tree, p: Path)
    requires p in t.nodes
  {
    && !t.nodes[p].Special? && ValidRelative(Normalized(p))
    && (t.nodes[p].Link? ==> StaysInside(Normalized(p), t.nodes[p].target))
  }

  ghost predicate Scannable(t: Tree) {
    forall p :: p in t.nodes ==> Passable(t, p)
  }

  // ---------------------------------------------------------------- the scan

  type Roots = map<Ino, (Path, Digest)>

  /** What the loop remembers of each inode it has seen: the reported path of its first name, and its digest. */
  ghost predicate Remembers(t: Tree, walk: seq<Path>, i: nat, roots: Roots)
    requires i <= |walk|
  {
    && (forall ino :: ino in roots <==> exists j ::
         0 <= j < i && walk[j] in t.nodes && t.nodes[walk[j]] == Regular(ino))
    && (forall ino :: ino in roots ==> Remembered(t, walk, i, ino, roots[ino]))
  }

  ghost predicate Remembered(t: Tree, walk: seq<Path>, i: nat, ino: Ino, root: (Path, Digest))
    requires i <= |walk|
  {
    && ino in t.inodes && root.1 == S.Sha256(t.inodes[ino].content)
    && exists j :: 0 <= j < i && walk[j] in t.nodes && t.nodes[walk[j]] == Regular(ino) && IsRoot(t, walk, j)
                   && root.0 == Normalized(walk[j])
  }

  lemma RootsAreRoots(t: Tree, walk: seq<Path>, i: nat, roots: Roots, ino: Ino)
    requires i < |walk| && walk[i] in t.nodes && t.nodes[walk[i]] == Regular(ino) && Remembers(t, walk, i, roots)
    ensures ino in roots <==> !IsRoot(t, walk, i)
  {
    hide Remembered;
    if ino in roots {
      var j :| 0 <= j < i && walk[j] in t.nodes && t.nodes[walk[j]] == Regular(ino);
      assert SameFile(t, walk[j], walk[i]);
    }
  }

  lemma RememberedLater(t: Tree, walk: seq<Path>, i: nat, roots: Roots)
    requires i < |walk| && Remembers(t, walk, i, roots)
    ensures forall ino :: ino in roots ==> Remembered(t, walk, i + 1, ino, roots[ino])
  {
  }

  /** A link or a known inode adds nothing to remember. */
  lemma RemembersSame(t: Tree, walk: seq<Path>, i: nat, roots: Roots)
    requires i < |walk| && Remembers(t, walk, i, roots) && walk[i] in t.nodes
    requires t.nodes[walk[i]].Regular? ==> t.nodes[walk[i]].ino in roots
    ensures Remembers(t, walk, i + 1, roots)
  {
    RememberedLater(t, walk, i, roots);
    hide Remembered;
  }

  lemma RemembersNew(t: Tree, walk: seq<Path>, i: nat, roots: Roots, ino: Ino)
    requires i < |walk| && Remembers(t, walk, i, roots) && walk[i] in t.nodes && t.nodes[walk[i]] == Regular(ino)
    requires ino !in roots && ino in t.inodes
    ensures Remembers(t, walk, i + 1, roots[ino := (Normalized(walk[i]), S.Sha256(t.inodes[ino].content))])
  {
    RootsAreRoots(t, walk, i, roots, ino);
    RememberedLater(t, walk, i, roots);
    assert Remembered(t, walk, i + 1, ino, (Normalized(walk[i]), S.Sha256(t.inodes[ino].content)));
    hide Remembered;
  }

  lemma DuplicateEntry(t: Tree, walk: seq<Path>, i: nat, roots: Roots, ino: Ino, e: FileEntry)
    requires i < |walk| && Remembers(t, walk, i, roots) && walk[i] in t.nodes && t.nodes[walk[i]] == Regular(ino)
    requires ino in roots && ino in t.inodes
    requires e == FileEntry(Normalized(walk[i]), roots[ino].1, |t.inodes[ino].content|, t.inodes[ino].mode, ino,
                            Some(roots[ino].0), None)
    ensures RegularEntry(t, walk, i, e)
  {
    RootsAreRoots(t, walk, i, roots, ino);
    assert Remembered(t, walk, i, ino, roots[ino]);
    var j :| 0 <= j < i && walk[j] in t.nodes && t.nodes[walk[j]] == Regular(ino) && IsRoot(t, walk, j)
             && roots[ino].0 == Normalized(walk[j]);
    assert SameFile(t, walk[j], walk[i]);
  }

  /** The entry of one file, and what the loop remembers after it. */
  method ScanEntry(t: Tree, walk: seq<Path>, i: nat, roots: Roots)
    returns (r: Result<FileEntry, ScanError>, later: Roots)
    requires WellFormed(t) && i < |walk| && walk[i] in t.nodes && Remembers(t, walk, i, roots)
    ensures r.Ok? <==> Passable(t, walk[i])
    ensures r.Ok? ==> EntryFor(t, walk, i, r.value) && Remembers(t, walk, i + 1, later)
  {
    hide Remembers;
    later := roots;
    var path := Normalized(walk[i]);
    var okPath := ValidateRelativePath(path);
    match t.nodes[walk[i]]
    case Special => return Err(SpecialFile(path)), later;
    case Link(target) =>
      if okPath.Err? {
        return Err(EscapingPath(path)), later;
      }
      var okTarget := ValidateSymlinkTarget(path, target);
      if okTarget.Err? {
        return Err(EscapingLink(path)), later;
      }
      RemembersSame(t, walk, i, roots);
      return Ok(FileEntry(path, S.Sha256(target), |target|, 0, 0, None, Some(target))), later;
    case Regular(ino) =>
      if okPath.Err? {
        return Err(EscapingPath(path)), later;
      }
      RootsAreRoots(t, walk, i, roots, ino);
      var inode := t.inodes[ino];
      if ino in roots {
        var e := FileEntry(path, roots[ino].1, |inode.content|, inode.mode, ino, Some(roots[ino].0), None);
        DuplicateEntry(t, walk, i, roots, ino, e);
        RemembersSame(t, walk, i, roots);
        return Ok(e), later;
      }
      RemembersNew(t, walk, i, roots, ino);
      later := roots[ino := (path, S.Sha256(inode.content))];
      return Ok(FileEntry(path, S.Sha256(inode.content), |inode.content|, inode.mode, ino, None, None)), later;
  }

  method ScanProblemFolder(t: Tree, walk: seq<Path>) returns (r: Result<ScanResult, ScanError>)
    requires WellFormed(t) && Walks(t, walk)
    ensures r.Ok? <==> Scannable(t)
    ensures r.Ok? ==> Scans(t, walk, r.value.files) && r.value.count == |walk|
    ensures r.Ok? ==> r.value.logical == LogicalBytes(r.value.files) && r.value.archive == ArchiveBytes(r.value.files)
                      && r.value.logical == r.value.archive + r.value.auxiliary
  {
    hide Remembers, EntryFor, Passable, IsArchive, WellFormed;
    var files: seq<FileEntry> := [];
    var logical: nat, archive: nat, auxiliary: nat := 0, 0, 0;
    var roots: Roots := map[];
    RemembersNothing(t, walk);
    for i := 0 to |walk|
      invariant |files| == i && forall k :: 0 <= k < i ==> EntryFor(t, walk, k, files[k])
      invariant logical == LogicalBytes(files) && archive == ArchiveBytes(files) && logical == archive + auxiliary
      invariant Remembers(t, walk, i, roots)
      invariant forall k :: 0 <= k < i ==> Passable(t, walk[k])
    {
      var scanned, later := ScanEntry(t, walk, i, roots);
      if scanned.Err? {
        return Err(scanned.error);
      }
      var entry := scanned.value;
      roots := later;
      if entry.duplicateOf.None? {
        logical := logical + entry.size;
        if entry.target.None? && IsArchive(entry.path) {
          archive := archive + entry.size;
        } else {
          auxiliary := auxiliary + entry.size;
        }
      }
      files := files + [entry];
      assert files[..|files| - 1] == files[..i];
    }
    return Ok(ScanResult(files, logical, archive, auxiliary, |files|));
  }

  lemma RemembersNothing(t: Tree, walk: seq<Path>)
    ensures Remembers(t, walk, 0, map[])
  {
  }
}
