/** Materialising a manifest into an empty directory: plain files first, then hardlinks, then symlinks. */
module FolderRestore {
  import opened Common
  import opened SymlinkPaths
  import opened FolderScan
  import opened FolderManifest
  import S = Storage

  datatype RestoreError =
    | ObjectMissing(path: Path)
    | Checksum(path: Path)
    | HardlinkIntegrity(path: Path)
    | InvalidPath(path: Path)
    | Io(path: Path)

  /** The mode of a file that has just been created and not been touched. */
  const CREATED: Mode := 0x1A4

  /** Group and others may read, and execute when the owner may; a recorded mode of 0 changes nothing. */
  function RestoredMode(mode: Mode, before: Mode): Mode {
    if mode == 0 then before
    else
      var bits := mode & 0x1FF;
      bits | (if bits & 0x40 != 0 then 0x2D else 0x24)
  }

  predicate Has(mode: Mode, bit: Mode) {
    mode & bit != 0
  }

  // permission bits, from the owner's read to the others' execute
  const OWNER_READ: Mode := 0x100
  const OWNER_WRITE: Mode := 0x80
  const OWNER_EXECUTE: Mode := 0x40
  const GROUP_READ: Mode := 0x20
  const GROUP_WRITE: Mode := 0x10
  const GROUP_EXECUTE: Mode := 0x08
  const OTHERS_READ: Mode := 0x04
  const OTHERS_WRITE: Mode := 0x02
  const OTHERS_EXECUTE: Mode := 0x01

  /**
   Bit by bit: group and others can read, and can execute what the owner can; every other permission is as recorded, and
   nothing else is set. Without a record the mode is that of a created file.
   */
  predicate Floored(recorded: Mode, restored: Mode) {
    if recorded == 0 then restored == CREATED
    else
      && (forall bit :: bit in {OWNER_READ, OWNER_WRITE, OWNER_EXECUTE, GROUP_WRITE, OTHERS_WRITE} ==>
            (Has(restored, bit) <==> Has(recorded, bit)))
      && Has(restored, GROUP_READ) && Has(restored, OTHERS_READ)
      && (Has(restored, GROUP_EXECUTE) <==> Has(recorded, GROUP_EXECUTE) || Has(recorded, OWNER_EXECUTE))
      && (Has(restored, OTHERS_EXECUTE) <==> Has(recorded, OTHERS_EXECUTE) || Has(recorded, OWNER_EXECUTE))
      && restored & 0xFE00 == 0
  }

  lemma NewFileIsFloored(recorded: Mode)
    ensures Floored(recorded, RestoredMode(recorded, CREATED))
  {
  }

  /** A hardlink's record is applied on top of what its source got, unless it has none. */
  lemma LinkIsFloored(recorded: Mode, before: Mode)
    ensures recorded != 0 ==> Floored(recorded, RestoredMode(recorded, before))
    ensures recorded == 0 ==> RestoredMode(recorded, before) == before
  {
  }

  datatype Kind = Plain | Hardlink | Symlink

  function KindOf(e: FileEntry): Kind {
    if e.target.Some? then Symlink else if e.duplicateOf.Some? then Hardlink else Plain
  }

  function Rank(kind: Kind): nat {
    match kind
    case Plain => 0
    case Hardlink => 1
    case Symlink => 2
  }

  // ---------------------------------------------------------------- what a restore needs and makes

  function Object(store: map<S.ObjectKey, S.Blob>, key: S.ObjectKey): Option<Bytes> {
    if key in store && store[key].Raw? then Some(store[key].bytes) else None
  }

  /** The entry that a hardlink names is a plain file with the same content. */
  predicate SourceOf(es: seq<FileEntry>, k: nat, j: nat)
    requires k < |es| && j < |es|
  {
    KindOf(es[k]) == Hardlink && KindOf(es[j]) == Plain && es[k].duplicateOf == Some(es[j].path)
    && es[j].sha == es[k].sha && es[j].size == es[k].size
  }

  predicate CanPlace(es: seq<FileEntry>, keys: seq<S.ObjectKey>, store: map<S.ObjectKey, S.Blob>, k: nat)
    requires k < |es| == |keys|
  {
    && ValidRelative(es[k].path)
    && match KindOf(es[k])
       case Plain => Object(store, keys[k]).Some? && S.Sha256(Object(store, keys[k]).value) == es[k].sha
       case Hardlink => exists j :: 0 <= j < |es| && SourceOf(es, k, j)
       case Symlink =>
         && StaysInside(es[k].path, es[k].target.value)
         && Object(store, keys[k]) == es[k].target && S.Sha256(es[k].target.value) == es[k].sha
  }

  /** No listed path is a directory on the way to another. */
  ghost predicate NoClash(es: seq<FileEntry>) {
    forall j, k :: 0 <= j < |es| && 0 <= k < |es| ==> es[j].path !in Parents(es[k].path)
  }

  function KeysOf(m: Manifest): (keys: seq<S.ObjectKey>)
    ensures |keys| == |m.files| && forall i :: 0 <= i < |m.files| ==> keys[i] == m.files[i].objectKey
  {
    seq(|m.files|, i requires 0 <= i < |m.files| => m.files[i].objectKey)
  }

  ghost predicate Restorable(m: Manifest, store: map<S.ObjectKey, S.Blob>) {
    var es := Entries(m.files);
    NoClash(es) && forall k :: 0 <= k < |es| ==> CanPlace(es, KeysOf(m), store, k)
  }

  /** Hardlinks carry the mode of the file they link to. */
  ghost predicate ModesAgree(es: seq<FileEntry>) {
    forall j, k :: 0 <= j < |es| && 0 <= k < |es| && SourceOf(es, k, j) ==> es[k].mode == es[j].mode
  }

  predicate Placed(es: seq<FileEntry>, phase: nat, i: nat, k: nat)
    requires k < |es|
  {
    Rank(KindOf(es[k])) < phase || (Rank(KindOf(es[k])) == phase && k < i)
  }

  ghost predicate NodeOk(es: seq<FileEntry>, t: Tree, k: nat)
    requires k < |es|
  {
    && es[k].path in t.nodes
    && match KindOf(es[k])
       case Symlink => t.nodes[es[k].path] == Link(es[k].target.value)
       case Hardlink => exists j :: 0 <= j < |es| && SourceOf(es, k, j) && es[j].path in t.nodes
                                    && t.nodes[es[k].path] == t.nodes[es[j].path]
       case Plain =>
         && t.nodes[es[k].path].Regular? && t.nodes[es[k].path].ino in t.inodes
         && S.Sha256(t.inodes[t.nodes[es[k].path].ino].content) == es[k].sha
  }

  ghost predicate NodesOk(es: seq<FileEntry>, t: Tree, phase: nat, i: nat) {
    forall k :: 0 <= k < |es| && Placed(es, phase, i, k) ==> NodeOk(es, t, k)
  }

  /** Hardlink `l`, when it was placed, set the mode of its source `k`. */
  predicate SetsMode(es: seq<FileEntry>, phase: nat, i: nat, k: nat, l: nat)
    requires k < |es| && l < |es|
  {
    SourceOf(es, l, k) && es[l].mode != 0 && Placed(es, phase, i, l)
  }

  /** The last of its hardlinks that has a mode decides about a file's, or the file itself if none has. */
  ghost predicate Decides(es: seq<FileEntry>, phase: nat, i: nat, k: nat, l: nat)
    requires k < |es| && l < |es|
  {
    (l == k || SetsMode(es, phase, i, k, l))
    && forall later :: 0 <= later < |es| && SetsMode(es, phase, i, k, later) ==> l != k && later <= l
  }

  ghost predicate ModeOk(es: seq<FileEntry>, phase: nat, i: nat, k: nat, mode: Mode)
    requires k < |es|
  {
    exists l :: 0 <= l < |es| && Decides(es, phase, i, k, l) && Floored(es[l].mode, mode)
  }

  predicate IsFile(t: Tree, path: Path) {
    path in t.nodes && t.nodes[path].Regular? && t.nodes[path].ino in t.inodes
  }

  ghost predicate ModesOk(es: seq<FileEntry>, t: Tree, phase: nat, i: nat) {
    forall k :: 0 <= k < |es| && KindOf(es[k]) == Plain && Placed(es, phase, i, k) && IsFile(t, es[k].path) ==>
                  ModeOk(es, phase, i, k, t.inodes[t.nodes[es[k].path].ino].mode)
  }

  /** Different plain files are different inodes. */
  ghost predicate Separate(es: seq<FileEntry>, nodes: map<Path, Node>, phase: nat, i: nat) {
    forall j, k :: 0 <= j < |es| && 0 <= k < |es| && Placed(es, phase, i, j) && Placed(es, phase, i, k) && j != k
                   && KindOf(es[j]) == Plain && KindOf(es[k]) == Plain ==>
                     es[j].path in nodes && es[k].path in nodes && nodes[es[j].path] != nodes[es[k].path]
  }

  ghost predicate OnlyListed(es: seq<FileEntry>, nodes: map<Path, Node>, phase: nat, i: nat) {
    forall p :: p in nodes ==> exists k :: 0 <= k < |es| && Placed(es, phase, i, k) && es[k].path == p
  }

  ghost predicate DirsOk(es: seq<FileEntry>, dirs: set<Path>, phase: nat, i: nat) {
    forall d :: d in dirs <==> exists k :: 0 <= k < |es| && Placed(es, phase, i, k) && d in Parents(es[k].path)
  }

  /** How far the three passes have got. */
  ghost predicate Progress(es: seq<FileEntry>, t: Tree, phase: nat, i: nat) {
    NodesOk(es, t, phase, i) && Separate(es, t.nodes, phase, i) && OnlyListed(es, t.nodes, phase, i)
      && DirsOk(es, t.dirs, phase, i) && ModesOk(es, t, phase, i)
  }

  /** The directory holds exactly what the manifest lists. */
  ghost predicate Materialized(es: seq<FileEntry>, t: Tree) {
    Progress(es, t, 3, 0)
  }

  // ---------------------------------------------------------------- one file more

  function AddFile(t: Tree, path: Path, ino: Ino, inode: Inode): Tree {
    Tree(t.nodes[path := Regular(ino)], t.inodes[ino := inode], t.dirs + Parents(path))
  }

  function AddHardlink(t: Tree, source: Path, path: Path, mode: Mode): Tree
    requires source in t.nodes && t.nodes[source].Regular? && t.nodes[source].ino in t.inodes
  {
    var ino := t.nodes[source].ino;
    Tree(t.nodes[path := t.nodes[source]],
      t.inodes[ino := t.inodes[ino].(mode := RestoredMode(mode, t.inodes[ino].mode))],
      t.dirs + Parents(path))
  }

  function AddLink(t: Tree, path: Path, target: string): Tree {
    Tree(t.nodes[path := Link(target)], t.inodes, t.dirs + Parents(path))
  }

  /** The inodes a tree uses are below `next`. */
  ghost predicate Fresh(t: Tree, next: Ino) {
    forall ino :: ino in t.inodes ==> ino < next
  }

  lemma SameSetters(es: seq<FileEntry>, phase: nat, i: nat, next: nat, at: nat, k: nat, mode: Mode)
    requires k < |es| && ModeOk(es, phase, i, k, mode)
    requires forall l :: 0 <= l < |es| ==> (SetsMode(es, phase, i, k, l) <==> SetsMode(es, next, at, k, l))
    ensures ModeOk(es, next, at, k, mode)
  {
    hide SetsMode, Floored;
    var l :| 0 <= l < |es| && Decides(es, phase, i, k, l) && Floored(es[l].mode, mode);
    assert Decides(es, next, at, k, l);
  }

  lemma SamePlaced(es: seq<FileEntry>, t: Tree, phase: nat, i: nat, next: nat, at: nat)
    requires ModesOk(es, t, phase, i)
    requires forall k :: 0 <= k < |es| ==> (Placed(es, phase, i, k) <==> Placed(es, next, at, k))
    ensures ModesOk(es, t, next, at)
  {
    hide Placed, SourceOf, Floored, ModeOk;
    forall k | 0 <= k < |es| && KindOf(es[k]) == Plain && Placed(es, next, at, k) && IsFile(t, es[k].path)
      ensures ModeOk(es, next, at, k, t.inodes[t.nodes[es[k].path].ino].mode)
    {
      assert Placed(es, phase, i, k);
      SameSetters(es, phase, i, next, at, k, t.inodes[t.nodes[es[k].path].ino].mode);
    }
  }

  /** Skipping an entry of another kind. */
  lemma SkipKeeps(es: seq<FileEntry>, t: Tree, phase: nat, i: nat)
    requires i < |es| && Progress(es, t, phase, i) && Rank(KindOf(es[i])) != phase
    ensures Progress(es, t, phase, i + 1)
  {
    hide NodeOk, ModesOk;
    assert forall k :: 0 <= k < |es| ==> (Placed(es, phase, i, k) <==> Placed(es, phase, i + 1, k));
    SamePlaced(es, t, phase, i, phase, i + 1);
  }

  /** At the end of one pass the next begins. */
  lemma NextPhase(es: seq<FileEntry>, t: Tree, phase: nat)
    requires Progress(es, t, phase, |es|)
    ensures Progress(es, t, phase + 1, 0)
  {
    hide NodeOk, ModesOk;
    assert forall k :: 0 <= k < |es| ==> (Placed(es, phase, |es|, k) <==> Placed(es, phase + 1, 0, k));
    SamePlaced(es, t, phase, |es|, phase + 1, 0);
  }

  lemma PlacedNext(es: seq<FileEntry>, phase: nat, i: nat)
    requires i < |es| && Rank(KindOf(es[i])) == phase
    ensures forall k :: 0 <= k < |es| ==> (Placed(es, phase, i + 1, k) <==> Placed(es, phase, i, k) || k == i)
  {
  }

  /** Nothing is at an entry's path before its turn. */
  lemma NotYet(es: seq<FileEntry>, t: Tree, phase: nat, i: nat)
    requires i < |es| && UniquePaths(es) && OnlyListed(es, t.nodes, phase, i) && Rank(KindOf(es[i])) == phase
    ensures es[i].path !in t.nodes
  {
  }

  /** Whatever kind of node is added at the path of entry `i`, the listing and the directories keep up. */
  lemma ListingKeeps(es: seq<FileEntry>, t: Tree, phase: nat, i: nat, node: Node)
    requires i < |es| && Rank(KindOf(es[i])) == phase && OnlyListed(es, t.nodes, phase, i)
             && DirsOk(es, t.dirs, phase, i)
    ensures OnlyListed(es, t.nodes[es[i].path := node], phase, i + 1)
            && DirsOk(es, t.dirs + Parents(es[i].path), phase, i + 1)
  {
    hide Parents;
    PlacedNext(es, phase, i);
    var nodes := t.nodes[es[i].path := node];
    forall p | p in nodes
      ensures exists k :: 0 <= k < |es| && Placed(es, phase, i + 1, k) && es[k].path == p
    {
      if p == es[i].path {
        assert Placed(es, phase, i + 1, i);
      } else {
        var k :| 0 <= k < |es| && Placed(es, phase, i, k) && es[k].path == p;
        assert Placed(es, phase, i + 1, k);
      }
    }
    DirsKeep(es, t.dirs, phase, i);
  }

  lemma DirsKeep(es: seq<FileEntry>, dirs: set<Path>, phase: nat, i: nat)
    requires i < |es| && Rank(KindOf(es[i])) == phase && DirsOk(es, dirs, phase, i)
    ensures DirsOk(es, dirs + Parents(es[i].path), phase, i + 1)
  {
    hide Parents, Placed;
    PlacedNext(es, phase, i);
    forall d
      ensures d in dirs + Parents(es[i].path) <==> exists k ::
                0 <= k < |es| && Placed(es, phase, i + 1, k) && d in Parents(es[k].path)
    {
      if d in dirs {
        var k :| 0 <= k < |es| && Placed(es, phase, i, k) && d in Parents(es[k].path);
        assert Placed(es, phase, i + 1, k);
      }
      assert Placed(es, phase, i + 1, i);
    }
  }

  lemma FileModes(es: seq<FileEntry>, t: Tree, i: nat, next: Ino, content: Bytes)
    requires i < |es| && UniquePaths(es) && Progress(es, t, 0, i) && KindOf(es[i]) == Plain && Fresh(t, next)
    ensures ModesOk(es, AddFile(t, es[i].path, next, Inode(content, RestoredMode(es[i].mode, CREATED))), 0, i + 1)
  {
    hide DirsOk, OnlyListed, Separate, RestoredMode, Floored, SourceOf, Progress;
    NewFileIsFloored(es[i].mode);
    var v := AddFile(t, es[i].path, next, Inode(content, RestoredMode(es[i].mode, CREATED)));
    FirstPass(es, t, i);
    forall k | 0 <= k < |es| && KindOf(es[k]) == Plain && Placed(es, 0, i + 1, k) && IsFile(v, es[k].path)
      ensures ModeOk(es, 0, i + 1, k, v.inodes[v.nodes[es[k].path].ino].mode)
    {
      if k == i {
        assert Decides(es, 0, i + 1, i, i);
      } else {
        assert Placed(es, 0, i, k) && NodeOk(es, t, k);
        SameSetters(es, 0, i, 0, i + 1, k, t.inodes[t.nodes[es[k].path].ino].mode);
      }
    }
  }

  /** In the first pass no hardlink is placed. */
  lemma FirstPass(es: seq<FileEntry>, t: Tree, i: nat)
    requires Progress(es, t, 0, i)
    ensures ModesOk(es, t, 0, i) && forall k :: 0 <= k < |es| && Placed(es, 0, i, k) ==> NodeOk(es, t, k)
    ensures forall n: nat, k, l :: 0 <= k < |es| && 0 <= l < |es| ==> !SetsMode(es, 0, n, k, l)
  {
    hide DirsOk, OnlyListed, Separate, NodeOk, ModesOk;
  }

  lemma FileKeeps(es: seq<FileEntry>, t: Tree, i: nat, next: Ino, content: Bytes)
    requires i < |es| && UniquePaths(es) && Progress(es, t, 0, i) && KindOf(es[i]) == Plain
    requires Fresh(t, next) && S.Sha256(content) == es[i].sha
    ensures var v := AddFile(t, es[i].path, next, Inode(content, RestoredMode(es[i].mode, CREATED)));
            Progress(es, v, 0, i + 1) && Fresh(v, next + 1)
  {
    hide DirsOk, OnlyListed, RestoredMode, ModesOk;
    FileModes(es, t, i, next, content);
    var v := AddFile(t, es[i].path, next, Inode(content, RestoredMode(es[i].mode, CREATED)));
    NotYet(es, t, 0, i);
    ListingKeeps(es, t, 0, i, Regular(next));
    PlacedNext(es, 0, i);
    hide Placed;
    forall k | 0 <= k < |es| && Placed(es, 0, i + 1, k)
      ensures NodeOk(es, v, k)
      ensures k != i ==> es[k].path in t.nodes && t.nodes[es[k].path].Regular? && t.nodes[es[k].path].ino < next
    {
      if k != i { assert NodeOk(es, t, k); }
    }
    forall j, k | 0 <= j < |es| && 0 <= k < |es| && Placed(es, 0, i + 1, j) && Placed(es, 0, i + 1, k) && j != k
      ensures v.nodes[es[j].path] != v.nodes[es[k].path]
    {
      if j != i && k != i { assert t.nodes[es[j].path] != t.nodes[es[k].path]; }
    }
  }

  /** The hardlink joins the inode of its source, whose mode it sets again. */
  lemma HardlinkKeeps(es: seq<FileEntry>, t: Tree, i: nat, j: nat)
    requires i < |es| && j < |es| && UniquePaths(es) && Progress(es, t, 1, i) && SourceOf(es, i, j)
    ensures es[j].path in t.nodes && t.nodes[es[j].path].Regular? && t.nodes[es[j].path].ino in t.inodes
    ensures Progress(es, AddHardlink(t, es[j].path, es[i].path, es[i].mode), 1, i + 1)
  {
    hide DirsOk, OnlyListed, RestoredMode, ModesOk;
    assert Placed(es, 1, i, j) && NodeOk(es, t, j);
    HardlinkModes(es, t, i, j);
    var v := AddHardlink(t, es[j].path, es[i].path, es[i].mode);
    NotYet(es, t, 1, i);
    ListingKeeps(es, t, 1, i, t.nodes[es[j].path]);
    PlacedNext(es, 1, i);
    hide Placed;
    forall k | 0 <= k < |es| && Placed(es, 1, i + 1, k)
      ensures NodeOk(es, v, k)
    {
      HardlinkNode(es, t, i, j, k);
    }
    assert Separate(es, v.nodes, 1, i + 1);
  }

  lemma LinkSetsMode(es: seq<FileEntry>, i: nat, j: nat, mode: Mode)
    requires i < |es| && j < |es| && UniquePaths(es) && SourceOf(es, i, j) && ModeOk(es, 1, i, j, mode)
    ensures ModeOk(es, 1, i + 1, j, RestoredMode(es[i].mode, mode))
  {
    hide Floored, RestoredMode, UniquePaths;
    LinkIsFloored(es[i].mode, mode);
    if es[i].mode != 0 {
      assert Decides(es, 1, i + 1, j, i);
    } else {
      SameSetters(es, 1, i, 1, i + 1, j, mode);
    }
  }

  lemma HardlinkModes(es: seq<FileEntry>, t: Tree, i: nat, j: nat)
    requires i < |es| && j < |es| && UniquePaths(es) && Progress(es, t, 1, i) && SourceOf(es, i, j) && NodeOk(es, t, j)
    ensures ModesOk(es, AddHardlink(t, es[j].path, es[i].path, es[i].mode), 1, i + 1)
  {
    hide DirsOk, OnlyListed, RestoredMode, ModeOk, NodeOk;
    FileIsThere(es, t, j);
    var v := AddHardlink(t, es[j].path, es[i].path, es[i].mode);
    forall k | 0 <= k < |es| && KindOf(es[k]) == Plain && Placed(es, 1, i + 1, k) && IsFile(v, es[k].path)
      ensures ModeOk(es, 1, i + 1, k, v.inodes[v.nodes[es[k].path].ino].mode)
    {
      assert es[k].path != es[i].path;
      var mode := t.inodes[t.nodes[es[k].path].ino].mode;
      assert ModeOk(es, 1, i, k, mode);
      if k == j {
        LinkSetsMode(es, i, j, mode);
      } else {
        assert t.nodes[es[k].path] != t.nodes[es[j].path];
        OtherSetters(es, i, j, k);
        SameSetters(es, 1, i, 1, i + 1, k, mode);
      }
    }
  }

  lemma FileIsThere(es: seq<FileEntry>, t: Tree, j: nat)
    requires j < |es| && KindOf(es[j]) == Plain && NodeOk(es, t, j)
    ensures IsFile(t, es[j].path)
  {
  }

  lemma OtherSetters(es: seq<FileEntry>, i: nat, j: nat, k: nat)
    requires i < |es| && j < |es| && k < |es| && UniquePaths(es) && SourceOf(es, i, j) && k != j
    ensures forall l :: 0 <= l < |es| ==> (SetsMode(es, 1, i, k, l) <==> SetsMode(es, 1, i + 1, k, l))
  {
  }

  lemma HardlinkNode(es: seq<FileEntry>, t: Tree, i: nat, j: nat, k: nat)
    requires i < |es| && j < |es| && UniquePaths(es) && Progress(es, t, 1, i) && SourceOf(es, i, j) && NodeOk(es, t, j)
    requires es[i].path !in t.nodes && k < |es| && (k == i || Placed(es, 1, i, k))
    ensures NodeOk(es, AddHardlink(t, es[j].path, es[i].path, es[i].mode), k)
  {
    hide DirsOk, OnlyListed, RestoredMode, ModesOk;
    if k != i {
      assert NodeOk(es, t, k);
    }
    if KindOf(es[k]) == Plain && k != j {
      assert Placed(es, 1, i, j);
      assert t.nodes[es[k].path] != t.nodes[es[j].path];
    }
  }

  lemma LinkModes(es: seq<FileEntry>, t: Tree, i: nat)
    requires i < |es| && UniquePaths(es) && Progress(es, t, 2, i) && KindOf(es[i]) == Symlink
    ensures ModesOk(es, AddLink(t, es[i].path, es[i].target.value), 2, i + 1)
  {
    hide DirsOk, OnlyListed, RestoredMode, ModeOk, NodeOk, Separate;
    var v := AddLink(t, es[i].path, es[i].target.value);
    forall k | 0 <= k < |es| && KindOf(es[k]) == Plain && Placed(es, 2, i + 1, k) && IsFile(v, es[k].path)
      ensures ModeOk(es, 2, i + 1, k, v.inodes[v.nodes[es[k].path].ino].mode)
    {
      assert IsFile(t, es[k].path);
      SameSetters(es, 2, i, 2, i + 1, k, t.inodes[t.nodes[es[k].path].ino].mode);
    }
  }

  lemma LinkKeeps(es: seq<FileEntry>, t: Tree, i: nat)
    requires i < |es| && UniquePaths(es) && Progress(es, t, 2, i) && KindOf(es[i]) == Symlink
    ensures Progress(es, AddLink(t, es[i].path, es[i].target.value), 2, i + 1)
  {
    hide DirsOk, OnlyListed, RestoredMode, ModesOk;
    LinkModes(es, t, i);
    var v := AddLink(t, es[i].path, es[i].target.value);
    NotYet(es, t, 2, i);
    ListingKeeps(es, t, 2, i, Link(es[i].target.value));
    PlacedNext(es, 2, i);
    hide Placed;
    forall k | 0 <= k < |es| && Placed(es, 2, i + 1, k)
      ensures NodeOk(es, v, k)
    {
      if k != i { assert NodeOk(es, t, k); }
    }
    assert Separate(es, v.nodes, 2, i + 1);
  }

  // ---------------------------------------------------------------- what a success has checked

  /** No name is a file and a directory. */
  predicate Clean(t: Tree) {
    t.nodes.Keys !! t.dirs
  }

  lemma AddingKeepsClean(t: Tree, path: Path, node: Node)
    requires Clean(t) && path !in t.dirs && forall d :: d in Parents(path) ==> d !in t.nodes
    ensures Clean(Tree(t.nodes[path := node], t.inodes, t.dirs + Parents(path)))
  {
  }

  /** Whatever has been placed so far could be placed. */
  ghost predicate Checked(es: seq<FileEntry>, keys: seq<S.ObjectKey>, store: map<S.ObjectKey, S.Blob>, phase: nat,
                          i: nat)
    requires |keys| == |es|
  {
    forall k :: 0 <= k < |es| && Placed(es, phase, i, k) ==> CanPlace(es, keys, store, k)
  }

  /** The passes have got here, and everything on the way was as it should be. */
  ghost predicate Underway(es: seq<FileEntry>, keys: seq<S.ObjectKey>, store: map<S.ObjectKey, S.Blob>, t: Tree,
                           phase: nat, i: nat)
    requires |keys| == |es|
  {
    Progress(es, t, phase, i) && Clean(t) && Checked(es, keys, store, phase, i)
  }

  lemma Skips(es: seq<FileEntry>, keys: seq<S.ObjectKey>, store: map<S.ObjectKey, S.Blob>, t: Tree, phase: nat, i: nat)
    requires i < |es| == |keys| && Underway(es, keys, store, t, phase, i) && Rank(KindOf(es[i])) != phase
    ensures Underway(es, keys, store, t, phase, i + 1)
  {
    hide CanPlace, Progress;
    SkipKeeps(es, t, phase, i);
  }

  lemma NextPass(es: seq<FileEntry>, keys: seq<S.ObjectKey>, store: map<S.ObjectKey, S.Blob>, t: Tree, phase: nat)
    requires |keys| == |es| && Underway(es, keys, store, t, phase, |es|)
    ensures Underway(es, keys, store, t, phase + 1, 0)
  {
    hide CanPlace, Progress;
    NextPhase(es, t, phase);
    assert forall k :: 0 <= k < |es| ==> (Placed(es, phase, |es|, k) <==> Placed(es, phase + 1, 0, k));
  }

  lemma EntryIsPlaced(es: seq<FileEntry>, keys: seq<S.ObjectKey>, store: map<S.ObjectKey, S.Blob>, t: Tree, v: Tree,
    phase: nat, i: nat)
    requires i < |es| == |keys| && Underway(es, keys, store, t, phase, i) && Rank(KindOf(es[i])) == phase
    requires Progress(es, v, phase, i + 1) && Clean(v) && CanPlace(es, keys, store, i)
    ensures Underway(es, keys, store, v, phase, i + 1)
  {
    hide CanPlace, Progress;
  }

  /** Two listed paths clash, or some entry cannot be placed on its own. */
  ghost predicate Hopeless(es: seq<FileEntry>, keys: seq<S.ObjectKey>, store: map<S.ObjectKey, S.Blob>)
    requires |keys| == |es|
  {
    !NoClash(es) || exists k :: 0 <= k < |es| && !CanPlace(es, keys, store, k)
  }

  lemma BlockedIsHopeless(es: seq<FileEntry>, keys: seq<S.ObjectKey>, store: map<S.ObjectKey, S.Blob>, t: Tree,
    phase: nat, i: nat)
    requires i < |es| == |keys| && Underway(es, keys, store, t, phase, i)
    requires es[i].path in t.dirs || (exists d :: d in Parents(es[i].path) && d in t.nodes)
             || !CanPlace(es, keys, store, i)
    ensures Hopeless(es, keys, store)
  {
    hide CanPlace, NoClash, Parents;
    ClashOnFile(es, t, phase, i);
  }

  /** All entries are in place and no name is a file and a directory: no path was on the way to another. */
  lemma CleanMeansNoClash(es: seq<FileEntry>, t: Tree)
    requires Materialized(es, t) && Clean(t)
    ensures NoClash(es)
  {
    hide Parents, Separate, OnlyListed;
    forall j, k | 0 <= j < |es| && 0 <= k < |es|
      ensures es[j].path !in Parents(es[k].path)
    {
      assert Placed(es, 3, 0, j) && Placed(es, 3, 0, k) && NodeOk(es, t, j);
    }
  }

  // ---------------------------------------------------------------- the staging directory

  /** An error of the file system on this path means that two listed paths clash. */
  lemma ClashOnFile(es: seq<FileEntry>, t: Tree, phase: nat, i: nat)
    requires i < |es| && OnlyListed(es, t.nodes, phase, i) && DirsOk(es, t.dirs, phase, i)
    ensures es[i].path in t.dirs || (exists d :: d in Parents(es[i].path) && d in t.nodes) ==> !NoClash(es)
  {
    hide Parents, Placed;
    if d :| d in Parents(es[i].path) && d in t.nodes {
      var k :| 0 <= k < |es| && Placed(es, phase, i, k) && es[k].path == d;
      assert es[k].path in Parents(es[i].path);
    }
  }

  class Staging {
    var nodes: map<Path, Node>
    var inodes: map<Ino, Inode>
    var dirs: set<Path>
    var nextIno: Ino

    function Contents(): Tree
      reads this
    {
      Tree(nodes, inodes, dirs)
    }

    constructor ()
      ensures Contents() == Tree(map[], map[], {}) && nextIno == 0 && fresh(this)
    {
      nodes, inodes, dirs, nextIno := map[], map[], {}, 0;
    }

    /** create_dir_all on the parent, and the name itself must not be a directory. */
    method MakeRoom(path: Path) returns (ok: bool)
      modifies this`dirs
      ensures ok <==> path !in old(dirs) && forall d :: d in Parents(path) ==> d !in nodes
      ensures dirs == if ok then old(dirs) + Parents(path) else old(dirs)
    {
      ok := path !in dirs && forall d | d in Parents(path) :: d !in nodes;
      if ok {
        dirs := dirs + Parents(path);
      }
    }

    /** Plain files: download, compare the digest, move into place, set the mode. */
    method PlaceFile(path: Path, sha: Digest, mode: Mode, bytes: Option<Bytes>) returns (r: Result<(), RestoreError>)
      modifies this
      ensures Clean(old(Contents())) && r.Ok? ==> Clean(Contents())
      ensures r.Ok? ==>
                ValidRelative(path) && bytes.Some? && S.Sha256(bytes.value) == sha && nextIno == old(nextIno) + 1
                && Contents() == AddFile(old(Contents()), path, old(nextIno),
                Inode(bytes.value, RestoredMode(mode, CREATED)))
      ensures r.Err? ==> !ValidRelative(path) || bytes.None? || S.Sha256(bytes.value) != sha
                         || path in old(dirs) || exists d :: d in Parents(path) && d in old(nodes)
    {
      var checked := ValidateRelativePath(path);
      if checked.Err? {
        return Err(InvalidPath(path));
      }
      var room := MakeRoom(path);
      if !room {
        return Err(Io(path));
      }
      if bytes.None? {
        return Err(ObjectMissing(path));
      }
      if S.Sha256(bytes.value) != sha {
        return Err(Checksum(path));
      }
      ghost var t := old(Contents());
      if Clean(t) { AddingKeepsClean(t, path, Regular(nextIno)); }
      nodes := nodes[path := Regular(nextIno)];
      inodes := inodes[nextIno := Inode(bytes.value, RestoredMode(mode, CREATED))];
      nextIno := nextIno + 1;
      return Ok(());
    }

    method PlaceHardlink(path: Path, mode: Mode, source: Path) returns (r: Result<(), RestoreError>)
      requires source in nodes && nodes[source].Regular? && nodes[source].ino in inodes && path !in nodes
      modifies this
      ensures nextIno == old(nextIno)
      ensures Clean(old(Contents())) && r.Ok? ==> Clean(Contents())
      ensures r.Ok? ==> ValidRelative(path) && Contents() == AddHardlink(old(Contents()), source, path, mode)
      ensures r.Err? ==> !ValidRelative(path) || path in old(dirs) || exists d :: d in Parents(path) && d in old(nodes)
    {
      var checked := ValidateRelativePath(path);
      if checked.Err? {
        return Err(InvalidPath(path));
      }
      var room := MakeRoom(path);
      if !room {
        return Err(Io(path));
      }
      ghost var t := old(Contents());
      if Clean(t) { AddingKeepsClean(t, path, nodes[source]); }
      var ino := nodes[source].ino;
      nodes := nodes[path := nodes[source]];
      inodes := inodes[ino := inodes[ino].(mode := RestoredMode(mode, inodes[ino].mode))];
      return Ok(());
    }

    /** On the way to the path there is a symlink that leads to a directory. */
    predicate LeadsAway(path: Path, through: set<Path>)
      reads this
    {
      exists d :: d in Parents(path) && d in nodes && nodes[d].Link? && d in through
    }

    /**
     Symlinks: the object must hold the target, and the target must stay inside. create_dir_all takes a symlink that
     leads to a directory for one; `through` has those that do. What is made there is not at the listed path.
     */
    method PlaceLink(path: Path, sha: Digest, target: string, bytes: Option<Bytes>, through: set<Path>)
      returns (r: Result<bool, RestoreError>)
      requires path !in nodes
      modifies this
      ensures nextIno == old(nextIno)
      ensures Clean(old(Contents())) && r.Ok? ==> Clean(Contents())
      ensures r.Ok? ==> StaysInside(path, target) && bytes == Some(target) && S.Sha256(target) == sha
      ensures r.Ok? ==> Contents() == if r.value then AddLink(old(Contents()), path, target) else old(Contents())
      ensures r.Ok? && !r.value ==> old(LeadsAway(path, through))
      ensures r.Err? ==> !StaysInside(path, target) || bytes != Some(target) || S.Sha256(target) != sha
                         || path in old(dirs) || exists d :: d in Parents(path) && d in old(nodes)
    {
      var checked := ValidateSymlinkTarget(path, target);
      if checked.Err? {
        return Err(InvalidPath(path));
      }
      if bytes.None? {
        return Err(ObjectMissing(path));
      }
      if S.Sha256(bytes.value) != sha || bytes.value != target {
        return Err(Checksum(path));
      }
      if LeadsAway(path, through) {
        return Ok(false);
      }
      var room := MakeRoom(path);
      if !room {
        return Err(Io(path));
      }
      ghost var t := old(Contents());
      if Clean(t) { AddingKeepsClean(t, path, Link(target)); }
      nodes := nodes[path := Link(target)];
      return Ok(true);
    }
  }

  /** The first entry with the path of the hardlink's source, checked against the hardlink. */
  method FindSource(es: seq<FileEntry>, k: nat) returns (r: Result<nat, RestoreError>)
    requires k < |es| && KindOf(es[k]) == Hardlink && UniquePaths(es)
    ensures r.Ok? ==> r.value < |es| && SourceOf(es, k, r.value)
    ensures r.Err? ==> forall j :: 0 <= j < |es| ==> !SourceOf(es, k, j)
  {
    var source := es[k].duplicateOf.value;
    for j := 0 to |es|
      invariant forall i :: 0 <= i < j ==> es[i].path != source
    {
      if es[j].path == source {
        if KindOf(es[j]) != Plain || es[j].sha != es[k].sha || es[j].size != es[k].size {
          return Err(HardlinkIntegrity(es[k].path));
        }
        return Ok(j);
      }
    }
    return Err(HardlinkIntegrity(es[k].path));
  }

  method PlaceFileEntry(es: seq<FileEntry>, keys: seq<S.ObjectKey>, store: map<S.ObjectKey, S.Blob>, staging: Staging,
                        i: nat)
    returns (r: Result<(), RestoreError>)
    requires i < |es| == |keys| && UniquePaths(es) && KindOf(es[i]) == Plain
    requires Underway(es, keys, store, staging.Contents(), 0, i) && Fresh(staging.Contents(), staging.nextIno)
    modifies staging
    ensures r.Ok? ==> Underway(es, keys, store, staging.Contents(), 0, i + 1)
                      && Fresh(staging.Contents(), staging.nextIno)
    ensures r.Err? ==> Hopeless(es, keys, store)
  {
    hide Progress, Checked, Parents, Fresh, RestoredMode, UniquePaths, Hopeless;
    ghost var t, next := staging.Contents(), staging.nextIno;
    var bytes := Object(store, keys[i]);
    r := staging.PlaceFile(es[i].path, es[i].sha, es[i].mode, bytes);
    if r.Err? {
      BlockedIsHopeless(es, keys, store, t, 0, i);
      return;
    }
    FileKeeps(es, t, i, next, bytes.value);
    EntryIsPlaced(es, keys, store, t, staging.Contents(), 0, i);
  }

  method PlaceFiles(es: seq<FileEntry>, keys: seq<S.ObjectKey>, store: map<S.ObjectKey, S.Blob>, staging: Staging)
    returns (r: Result<(), RestoreError>)
    requires |keys| == |es| && UniquePaths(es)
    requires Underway(es, keys, store, staging.Contents(), 0, 0) && Fresh(staging.Contents(), staging.nextIno)
    modifies staging
    ensures r.Ok? ==> Underway(es, keys, store, staging.Contents(), 1, 0)
    ensures r.Err? ==> Hopeless(es, keys, store)
  {
    hide Underway, Hopeless, Fresh, UniquePaths;
    for i := 0 to |es|
      invariant Underway(es, keys, store, staging.Contents(), 0, i) && Fresh(staging.Contents(), staging.nextIno)
    {
      if KindOf(es[i]) == Plain {
        r := PlaceFileEntry(es, keys, store, staging, i);
        if r.Err? {
          return;
        }
      } else {
        Skips(es, keys, store, staging.Contents(), 0, i);
      }
    }
    NextPass(es, keys, store, staging.Contents(), 0);
    return Ok(());
  }

  method PlaceHardlinkEntry(es: seq<FileEntry>, keys: seq<S.ObjectKey>, store: map<S.ObjectKey, S.Blob>,
                            staging: Staging, i: nat)
    returns (r: Result<(), RestoreError>)
    requires i < |es| == |keys| && UniquePaths(es) && KindOf(es[i]) == Hardlink
    requires Underway(es, keys, store, staging.Contents(), 1, i)
    modifies staging
    ensures r.Ok? ==> Underway(es, keys, store, staging.Contents(), 1, i + 1)
    ensures r.Err? ==> Hopeless(es, keys, store)
  {
    hide Progress, Checked, Parents, RestoredMode, Hopeless;
    ghost var t := staging.Contents();
    var source := FindSource(es, i);
    if source.Err? {
      BlockedIsHopeless(es, keys, store, t, 1, i);
      return Err(source.error);
    }
    Listing(es, t, 1, i);
    NotYet(es, t, 1, i);
    HardlinkKeeps(es, t, i, source.value);
    r := staging.PlaceHardlink(es[i].path, es[i].mode, es[source.value].path);
    if r.Err? {
      BlockedIsHopeless(es, keys, store, t, 1, i);
      return;
    }
    EntryIsPlaced(es, keys, store, t, staging.Contents(), 1, i);
  }

  lemma Listing(es: seq<FileEntry>, t: Tree, phase: nat, i: nat)
    requires Progress(es, t, phase, i)
    ensures OnlyListed(es, t.nodes, phase, i) && DirsOk(es, t.dirs, phase, i)
  {
  }

  method PlaceHardlinks(es: seq<FileEntry>, keys: seq<S.ObjectKey>, store: map<S.ObjectKey, S.Blob>, staging: Staging)
    returns (r: Result<(), RestoreError>)
    requires |keys| == |es| && UniquePaths(es) && Underway(es, keys, store, staging.Contents(), 1, 0)
    modifies staging
    ensures r.Ok? ==> Underway(es, keys, store, staging.Contents(), 2, 0)
    ensures r.Err? ==> Hopeless(es, keys, store)
  {
    hide Underway, Hopeless, UniquePaths;
    for i := 0 to |es|
      invariant Underway(es, keys, store, staging.Contents(), 1, i)
    {
      if KindOf(es[i]) == Hardlink {
        r := PlaceHardlinkEntry(es, keys, store, staging, i);
        if r.Err? {
          return;
        }
      } else {
        Skips(es, keys, store, staging.Contents(), 1, i);
      }
    }
    NextPass(es, keys, store, staging.Contents(), 1);
    return Ok(());
  }

  /** False: the way leads through a symlink. */
  method PlaceLinkEntry(es: seq<FileEntry>, keys: seq<S.ObjectKey>, store: map<S.ObjectKey, S.Blob>, staging: Staging,
                        through: set<Path>, i: nat)
    returns (r: Result<bool, RestoreError>)
    requires i < |es| == |keys| && UniquePaths(es) && KindOf(es[i]) == Symlink
    requires Underway(es, keys, store, staging.Contents(), 2, i)
    modifies staging
    ensures r == Ok(true) ==> Underway(es, keys, store, staging.Contents(), 2, i + 1)
    ensures r == Ok(false) ==> WayIsListed(es, i)
    ensures r.Err? ==> Hopeless(es, keys, store)
  {
    hide Progress, Checked, Parents, RestoredMode, UniquePaths, Hopeless;
    ghost var t := staging.Contents();
    Listing(es, t, 2, i);
    NotYet(es, t, 2, i);
    LinkKeeps(es, t, i);
    r := staging.PlaceLink(es[i].path, es[i].sha, es[i].target.value, Object(store, keys[i]), through);
    if r.Err? {
      BlockedIsHopeless(es, keys, store, t, 2, i);
    } else if r.value {
      EntryIsPlaced(es, keys, store, t, staging.Contents(), 2, i);
    } else {
      LinkOnTheWay(es, t, i);
    }
  }

  /** The answer is the entry whose way leads through a symlink, if there is one. */
  method PlaceLinks(es: seq<FileEntry>, keys: seq<S.ObjectKey>, store: map<S.ObjectKey, S.Blob>, staging: Staging,
                    through: set<Path>)
    returns (r: Result<Option<nat>, RestoreError>)
    requires |keys| == |es| && UniquePaths(es) && Underway(es, keys, store, staging.Contents(), 2, 0)
    modifies staging
    ensures r == Ok(None) ==> Underway(es, keys, store, staging.Contents(), 3, 0)
    ensures r.Ok? && r.value.Some? ==> r.value.value < |es| && WayIsListed(es, r.value.value)
    ensures r.Err? ==> Hopeless(es, keys, store)
  {
    hide Underway, Hopeless, UniquePaths, WayIsListed;
    for i := 0 to |es|
      invariant Underway(es, keys, store, staging.Contents(), 2, i)
    {
      if KindOf(es[i]) == Symlink {
        var placed := PlaceLinkEntry(es, keys, store, staging, through, i);
        if placed.Err? {
          return Err(placed.error);
        }
        if !placed.value {
          return Ok(Some(i));
        }
      } else {
        Skips(es, keys, store, staging.Contents(), 2, i);
      }
    }
    NextPass(es, keys, store, staging.Contents(), 2);
    return Ok(None);
  }

  /** A listed symlink is on the way to the symlink `k`. */
  ghost predicate WayIsListed(es: seq<FileEntry>, k: nat)
    requires k < |es|
  {
    KindOf(es[k]) == Symlink
    && exists j :: 0 <= j < |es| && KindOf(es[j]) == Symlink && es[j].path in Parents(es[k].path)
  }

  lemma LinkOnTheWay(es: seq<FileEntry>, t: Tree, i: nat)
    requires i < |es| && KindOf(es[i]) == Symlink && Progress(es, t, 2, i)
    requires exists d :: d in Parents(es[i].path) && d in t.nodes && t.nodes[d].Link?
    ensures WayIsListed(es, i)
  {
    hide Parents, Separate, DirsOk;
    var d :| d in Parents(es[i].path) && d in t.nodes && t.nodes[d].Link?;
    var k :| 0 <= k < |es| && Placed(es, 2, i, k) && es[k].path == d;
    if KindOf(es[k]) != Symlink { OthersAreFiles(es, t, i, k); }
  }

  lemma OthersAreFiles(es: seq<FileEntry>, t: Tree, i: nat, k: nat)
    requires k < |es| && KindOf(es[k]) != Symlink && Progress(es, t, 2, i)
    ensures es[k].path in t.nodes && t.nodes[es[k].path].Regular?
  {
    hide Parents, Separate, DirsOk, OnlyListed;
    assert Placed(es, 2, i, k) && NodeOk(es, t, k);
    if KindOf(es[k]) == Hardlink {
      var j :| 0 <= j < |es| && SourceOf(es, k, j) && es[j].path in t.nodes
               && t.nodes[es[k].path] == t.nodes[es[j].path];
      assert Placed(es, 2, i, j) && NodeOk(es, t, j);
    }
  }

  lemma NothingYet(es: seq<FileEntry>, keys: seq<S.ObjectKey>, store: map<S.ObjectKey, S.Blob>)
    requires |keys| == |es|
    ensures Underway(es, keys, store, Tree(map[], map[], {}), 0, 0) && Fresh(Tree(map[], map[], {}), 0)
  {
  }

  /** How a restore's three passes end. Astray: a file was made where a symlink leads, and what follows is left open. */
  datatype Outcome = Rebuilt(staging: Staging) | Astray(entry: nat) | Failed(error: RestoreError)

  /**
   materialize_manifest_files: the three passes. They leave what the manifest lists exactly when it can be restored from
   the store, and go astray only where a listed symlink is on the way to another.
   */
  method MaterializeManifestFiles(m: Manifest, store: map<S.ObjectKey, S.Blob>, through: set<Path>)
    returns (r: Outcome)
    requires UniquePaths(Entries(m.files))
    ensures r.Rebuilt? <==> Restorable(m, store)
    ensures r.Rebuilt? ==> fresh(r.staging) && Materialized(Entries(m.files), r.staging.Contents())
    ensures r.Astray? ==> r.entry < |m.files| && WayIsListed(Entries(m.files), r.entry)
  {
    hide Underway, NoClash, CanPlace, UniquePaths, WayIsListed, Fresh;
    var es, keys := Entries(m.files), KeysOf(m);
    var staging := new Staging();
    NothingYet(es, keys, store);
    var placed := PlaceFiles(es, keys, store, staging);
    if placed.Ok? { placed := PlaceHardlinks(es, keys, store, staging); }
    if placed.Err? {
      return Failed(placed.error);
    }
    var links := PlaceLinks(es, keys, store, staging, through);
    if links.Err? {
      return Failed(links.error);
    }
    if links.value.Some? {
      AstrayIsClash(es, links.value.value);
      return Astray(links.value.value);
    }
    AllInPlace(es, keys, store, staging.Contents());
    return Rebuilt(staging);
  }

  /** The archive that a valid manifest names is a regular file in every folder that is made from it. */
  lemma ArchiveComesBack(m: Manifest, problem: string, generation: int, g: Tree)
    requires ValidManifest(m, problem, generation) && m.canonical.Some? && Materialized(Entries(m.files), g)
    ensures m.canonical.value in g.nodes && g.nodes[m.canonical.value].Regular?
  {
    hide Separate, OnlyListed, DirsOk, ModesOk, ValidFile, UniquePaths;
    var es := Entries(m.files);
    var i :| 0 <= i < |es| && es[i].path == m.canonical.value;
    assert Placed(es, 3, 0, i) && NodeOk(es, g, i);
    if KindOf(es[i]) == Hardlink {
      var j :| 0 <= j < |es| && SourceOf(es, i, j) && es[j].path in g.nodes
               && g.nodes[es[i].path] == g.nodes[es[j].path];
      assert Placed(es, 3, 0, j) && NodeOk(es, g, j);
    }
  }

  lemma AstrayIsClash(es: seq<FileEntry>, k: nat)
    requires k < |es| && WayIsListed(es, k)
    ensures !NoClash(es)
  {
    hide Parents;
  }

  lemma AllInPlace(es: seq<FileEntry>, keys: seq<S.ObjectKey>, store: map<S.ObjectKey, S.Blob>, t: Tree)
    requires |keys| == |es| && Underway(es, keys, store, t, 3, 0)
    ensures Materialized(es, t) && NoClash(es) && forall k :: 0 <= k < |es| ==> CanPlace(es, keys, store, k)
  {
    hide CanPlace, NoClash, Progress;
    CleanMeansNoClash(es, t);
    assert forall k :: 0 <= k < |es| ==> Placed(es, 3, 0, k);
  }
}
