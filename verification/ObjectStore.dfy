/** The in-memory object store, which is the reference for what puts, reads and deletes mean. */
module ObjectStore {
  import opened Common
  import S = Storage

  type Key = S.ObjectKey
  type Bytes = S.Bytes

  datatype StoreError = NotFound(key: Key) | ChecksumMismatch(expected: S.Digest, got: S.Digest)

  class InMemoryStore {
    var objects: map<Key, Bytes>

    constructor ()
      ensures objects == map[] && Addressed()
    {
      objects := map[];
    }

    /** Every content object hashes to the digest in its key. */
    ghost predicate Addressed()
      reads this
    {
      forall key :: key in objects && key.Content? ==> S.Sha256(objects[key]) == key.sha
    }

    /** put_object: a key is written once; writing it again succeeds only with the same bytes. */
    method PutObject(key: Key, body: Bytes) returns (r: Result<(), StoreError>)
      modifies this
      ensures r.Ok? <==> key in old(objects) ==> old(objects)[key] == body
      ensures objects == if r.Ok? then old(objects)[key := body] else old(objects)
      ensures key.Content? && key.sha == S.Sha256(body) && old(Addressed()) ==> r.Ok? && Addressed()
    {
      if key in objects {
        if objects[key] == body {
          assert objects == objects[key := body];
          return Ok(());
        }
        return Err(ChecksumMismatch(S.Sha256(objects[key]), S.Sha256(body)));
      }
      objects := objects[key := body];
      return Ok(());
    }

    /** put_object_from_path: the file is hashed first, so what arrives under a content key has its digest. */
    method PutObjectFromPath(sha: S.Digest, file: Bytes) returns (r: Result<(), StoreError>)
      requires Addressed()
      modifies this
      ensures Addressed()
      ensures r.Ok? <==> S.Sha256(file) == sha
      ensures objects == if r.Ok? then old(objects)[S.Content(sha) := file] else old(objects)
    {
      if S.Sha256(file) != sha {
        return Err(ChecksumMismatch(sha, S.Sha256(file)));
      }
      r := PutObject(S.Content(sha), file);
    }

    method PutObjectOverwrite(key: Key, body: Bytes)
      modifies this
      ensures objects == old(objects)[key := body]
      ensures !key.Content? && old(Addressed()) ==> Addressed()
    {
      objects := objects[key := body];
    }

    method GetObject(key: Key) returns (r: Result<Bytes, StoreError>)
      ensures r == if key in objects then Ok(objects[key]) else Err(NotFound(key))
    {
      return if key in objects then Ok(objects[key]) else Err(NotFound(key));
    }

    /** verify_object: on the content key of the expected digest it cannot come out false. */
    method VerifyObject(key: Key, expected: S.Digest) returns (r: Result<bool, StoreError>)
      ensures r.Ok? <==> key in objects
      ensures r.Ok? ==> (r.value <==> S.Sha256(objects[key]) == expected)
      ensures r.Ok? && Addressed() && key == S.Content(expected) ==> r.value
    {
      var got := GetObject(key);
      if got.Err? {
        return Err(got.error);
      }
      return Ok(S.Sha256(got.value) == expected);
    }

    method DeleteObject(key: Key)
      requires Addressed()
      modifies this
      ensures Addressed() && objects == old(objects) - {key}
    {
      objects := objects - {key};
    }
  }
}
