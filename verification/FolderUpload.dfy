/**
 Uploading what was scanned. Every file but a symlink is opened again under the path the scan reported, and must hash
 to the scanned digest; so what matters is what that path reads as.
 */
module FolderUpload {
  import opened Common
  import opened SymlinkPaths
  import opened FolderScan
  import S = Storage

  type ObjectStore = map<S.ObjectKey, S.Blob>

  /** What opening a path under the folder reads, symlinks followed. */
  type Disk = map<Path, Bytes>

  datatype UploadError = InvalidEntry(path: Path) | FileMissing(path: Path) | Checksum(path: Path)

  function ContentOf(t: Tree, p: Path): Bytes
    requires p in t.nodes && t.nodes[p].Regular? && t.nodes[p].ino in t.inodes
  {
    t.inodes[t.nodes[p].ino].content
  }

  ghost predicate SamePlace(p: Path, q: Path) {
    Components(p) == Components(q)
  }

  /**
   What the file system guarantees about opening: a file's own path reads the file, and in a folder without symlinks
   nothing else reads at all. Where a path leads through symlinks is left open.
   */
  ghost predicate Reads(t: Tree, disk: Disk)
    requires WellFormed(t)
  {
    && (forall p :: p in t.nodes && t.nodes[p].Regular? ==> p in disk && disk[p] == ContentOf(t, p))
    && ((forall p :: p in t.nodes ==> !t.nodes[p].Link?) ==>
          forall path :: path in disk ==>
            exists p :: p in t.nodes && t.nodes[p].Regular? && SamePlace(p, path) && disk[path] == ContentOf(t, p))
  }

  // ---------------------------------------------------------------- the upload

  /** The bytes that are hashed: a symlink's recorded target, or the file as it is found now. */
  function BytesNow(e: FileEntry, disk: Disk): Option<Bytes> {
    if e.target.Some? then e.target else if e.path in disk then Some(disk[e.path]) else None
  }

  predicate Uploads(e: FileEntry, disk: Disk, store: ObjectStore) {
    && ValidRelative(e.path) && (e.target.Some? ==> StaysInside(e.path, e.target.value))
    && BytesNow(e, disk).Some? && S.Sha256(BytesNow(e, disk).value) == e.sha
    && (S.Content(e.sha) in store ==> store[S.Content(e.sha)] == S.Raw(e.sha.preimage))
  }

  /** Every object of the scan is stored under its digest. */
  ghost predicate Uploaded(files: seq<FileEntry>, store: ObjectStore) {
    forall e :: e in files ==> S.Content(e.sha) in store && store[S.Content(e.sha)] == S.Raw(e.sha.preimage)
  }

  /** upload_manifest_file, up to the row it ticks off. */
  method UploadFile(e: FileEntry, disk: Disk, store: ObjectStore) returns (r: Result<ObjectStore, UploadError>)
    ensures r.Ok? <==> Uploads(e, disk, store)
    ensures r.Ok? ==> r.value == store[S.Content(e.sha) := S.Raw(e.sha.preimage)]
  {
    var path := ValidateRelativePath(e.path);
    if path.Err? {
      return Err(InvalidEntry(e.path));
    }
    if e.target.Some? {
      var target := ValidateSymlinkTarget(e.path, e.target.value);
      if target.Err? {
        return Err(InvalidEntry(e.path));
      }
    }
    var bytes := BytesNow(e, disk);
    if bytes.None? {
      return Err(FileMissing(e.path));
    }
    var sha := S.Sha256(bytes.value);
    if sha != e.sha {
      return Err(Checksum(e.path));
    }
    if S.Content(sha) in store {
      if store[S.Content(sha)] != S.Raw(sha.preimage) {
        return Err(Checksum(e.path));
      }
      return Ok(store);
    }
    return Ok(store[S.Content(sha) := S.Raw(bytes.value)]);
  }

  /** All files, one after the other: it succeeds exactly when each of them uploads on its own. */
  method UploadAll(files: seq<FileEntry>, disk: Disk, before: ObjectStore) returns (r: Result<ObjectStore, UploadError>)
    ensures r.Ok? <==> forall e :: e in files ==> Uploads(e, disk, before)
    ensures r.Ok? ==> Uploaded(files, r.value)
    ensures r.Ok? ==> forall key :: key in before ==> key in r.value && r.value[key] == before[key]
  {
    hide BytesNow, ValidRelative, StaysInside;
    var store := before;
    for i := 0 to |files|
      invariant forall key :: key in before ==> key in store && store[key] == before[key]
      invariant forall key :: key in store && key !in before ==>
                  key.Content? && store[key] == S.Raw(key.sha.preimage)
      invariant forall j :: 0 <= j < i ==> Uploads(files[j], disk, before)
      invariant Uploaded(files[..i], store)
    {
      var e := files[i];
      assert Uploads(e, disk, store) <==> Uploads(e, disk, before);
      var put := UploadFile(e, disk, store);
      if put.Err? {
        return Err(put.error);
      }
      assert files[..i + 1] == files[..i] + [e];
      store := put.value;
    }
    assert files[..|files|] == files;
    return Ok(store);
  }

  // ---------------------------------------------------------------- which folders upload

  /** Under the path that the scan reported for it, every file reads as itself. */
  ghost predicate ReadsBack(t: Tree, disk: Disk)
    requires WellFormed(t)
  {
    forall p :: p in t.nodes && t.nodes[p].Regular? ==>
      Normalized(p) in disk && disk[Normalized(p)] == ContentOf(t, p)
  }

  /** No object in the store sits under another's digest. */
  ghost predicate Addressed(store: ObjectStore) {
    forall key :: key in store && key.Content? ==> store[key] == S.Raw(key.sha.preimage)
  }

  lemma EntryUploads(t: Tree, walk: seq<Path>, files: seq<FileEntry>, disk: Disk, store: ObjectStore, k: nat)
    requires WellFormed(t) && Walks(t, walk) && Scans(t, walk, files) && Addressed(store) && k < |walk|
    ensures k < |files| && walk[k] in t.nodes
    ensures Uploads(files[k], disk, store) <==>
              (t.nodes[walk[k]].Regular? ==>
                 Normalized(walk[k]) in disk && disk[Normalized(walk[k])] == ContentOf(t, walk[k]))
  {
    hide StaysInside, ValidRelative;
    assert EntryFor(t, walk, k, files[k]);
    if t.nodes[walk[k]].Regular? { assert RegularEntry(t, walk, k, files[k]); }
  }

  /** A scanned folder uploads exactly when every file reads as itself under its reported path. */
  lemma UploadsExactly(t: Tree, walk: seq<Path>, files: seq<FileEntry>, disk: Disk, store: ObjectStore)
    requires WellFormed(t) && Walks(t, walk) && Scans(t, walk, files) && Addressed(store)
    ensures (forall e :: e in files ==> Uploads(e, disk, store)) <==> ReadsBack(t, disk)
  {
    hide Uploads, EntryFor;
    forall k | 0 <= k < |walk|
      ensures Uploads(files[k], disk, store) <==>
                (t.nodes[walk[k]].Regular? ==>
                   Normalized(walk[k]) in disk && disk[Normalized(walk[k])] == ContentOf(t, walk[k]))
    {
      EntryUploads(t, walk, files, disk, store, k);
    }
    if ReadsBack(t, disk) {
      forall e | e in files
        ensures Uploads(e, disk, store)
      {
        var k :| 0 <= k < |files| && files[k] == e;
      }
    }
    if forall e :: e in files ==> Uploads(e, disk, store) {
      forall p | p in t.nodes && t.nodes[p].Regular?
        ensures Normalized(p) in disk && disk[Normalized(p)] == ContentOf(t, p)
      {
        var k :| 0 <= k < |walk| && walk[k] == p;
        assert files[k] in files;
      }
    }
  }

  // ---------------------------------------------------------------- names with a backslash

  predicate Backslashed(cs: seq<Component>) {
    exists i :: 0 <= i < |cs| && cs[i].Normal? && '\\' in cs[i].name
  }

  lemma {:induction false} FirstPartIsPrefix(s: string)
    ensures FirstPart(s) == s[..|FirstPart(s)|] && '/' !in FirstPart(s)
    ensures |FirstPart(s)| < |s| ==> s[|FirstPart(s)|] == '/'
    decreases s
  {
    if s != "" && s[0] != '/' {
      FirstPartIsPrefix(s[1..]);
    }
  }

  /** Components keep a backslash where the text has one. */
  lemma {:induction false} BackslashStays(s: string, opening: bool)
    ensures Backslashed(RelativeComponents(s, opening)) <==> '\\' in s
    decreases |s|
  {
    FirstPartIsPrefix(s);
    var part := FirstPart(s);
    var here := PartComponents(part, opening);
    assert Backslashed(here) <==> '\\' in part by {
      if '\\' in part { assert here == [Normal(part)] && here[0].name == part; }
    }
    match AfterFirst(s)
    case None => assert s == part;
    case Some(rest) =>
      BackslashStays(rest, false);
      var more := RelativeComponents(rest, false);
      assert s == part + "/" + rest;
      JoinedBackslash(here, more);
  }

  lemma JoinedBackslash(here: seq<Component>, more: seq<Component>)
    ensures Backslashed(here + more) <==> Backslashed(here) || Backslashed(more)
  {
    var all := here + more;
    if Backslashed(here) {
      var i :| 0 <= i < |here| && here[i].Normal? && '\\' in here[i].name;
      assert all[i] == here[i];
    }
    if Backslashed(more) {
      var i :| 0 <= i < |more| && more[i].Normal? && '\\' in more[i].name;
      assert all[|here| + i] == more[i];
    }
  }

  lemma OtherPlace(t: Tree, p: Path)
    requires p in t.nodes && Passable(t, p) && '\\' in p
    ensures !SamePlace(p, Normalized(p))
  {
    assert '\\' !in Normalized(p) && (IsAbsolute(p) ==> IsAbsolute(Normalized(p)));
    hide Normalized;
    BackslashStays(p, true);
    BackslashStays(Normalized(p), true);
  }

  /** In a folder without symlinks, such a file uploads only where another one, of the same content, takes its place. */
  lemma BackslashNeedsTwin(t: Tree, disk: Disk, p: Path)
    requires WellFormed(t) && Reads(t, disk) && ReadsBack(t, disk)
    requires forall q :: q in t.nodes ==> !t.nodes[q].Link?
    requires p in t.nodes && t.nodes[p].Regular? && Passable(t, p) && '\\' in p
    ensures exists q :: q in t.nodes && t.nodes[q].Regular? && q != p && SamePlace(q, Normalized(p))
                        && ContentOf(t, q) == ContentOf(t, p)
  {
    hide Normalized, Passable;
    OtherPlace(t, p);
  }
}
