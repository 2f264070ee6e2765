/** Content-addressed, sealed objects and the manifests that name them (backup/object_store.py,
    backup/snapshot.py). Hashing is an injective parameter; compression and encryption are a
    sealed box that opens only with its key. */
module ObjectStore {
  import opened Wrappers

  type Bytes = seq<int>
  type Hash = Bytes -> int

  ghost predicate Injective(h: Hash) {
    forall x, y :: h(x) == h(y) ==> x == y
  }

  datatype Header = Header(contentHash: int, originalSize: nat)

  /** body is what comes out of the seal, in the pieces in which it was sealed. */
  datatype Blob = Blob(header: Header, key: int, body: seq<Bytes>, storedSize: nat)

  type Objects = map<int, Blob>

  function Flatten(chunks: seq<Bytes>): Bytes {
    if chunks == [] then [] else Flatten(chunks[..|chunks| - 1]) + chunks[|chunks| - 1]
  }

  /** The blob under its own address, with a truthful header. */
  predicate Genuine(h: Hash, key: int, id: int, b: Blob) {
    && b.header.contentHash == id == h(Flatten(b.body))
    && b.header.originalSize == |Flatten(b.body)|
    && b.key == key
  }

  predicate AllGenuine(h: Hash, key: int, objects: Objects) {
    forall id :: id in objects ==> Genuine(h, key, id, objects[id])
  }

  datatype PutResult = Stored(size: nat, created: bool) | IdentityConflict | SourceChanged

  /** put: an object that exists is reused if its header agrees; a new one is published only if
      what was read has the declared size and hash. */
  function PutOutcome(h: Hash, objects: Objects, id: int, declared: nat, chunks: seq<Bytes>, sealedSize: nat): PutResult {
    if id in objects then
      if objects[id].header != Header(id, declared) then IdentityConflict
      else Stored(objects[id].storedSize, false)
    else if |Flatten(chunks)| != declared || h(Flatten(chunks)) != id then SourceChanged
    else Stored(sealedSize, true)
  }

  function AfterPut(h: Hash, key: int, objects: Objects, id: int, declared: nat, chunks: seq<Bytes>, sealedSize: nat): Objects {
    if PutOutcome(h, objects, id, declared, chunks, sealedSize) == Stored(sealedSize, true) && id !in objects
    then objects[id := Blob(Header(id, declared), key, chunks, sealedSize)]
    else objects
  }

  /** _decrypt with a check of the whole content against the header. */
  function Open(h: Hash, key: int, objects: Objects, id: int): Option<Bytes> {
    if id !in objects || objects[id].key != key then None
    else
      var b := objects[id];
      if |Flatten(b.body)| != b.header.originalSize || h(Flatten(b.body)) != b.header.contentHash then None
      else Some(Flatten(b.body))
  }

  /** Storing and opening are inverse: whatever was stored under the hash of some bytes opens to
      exactly those bytes, no matter which put created the object. */
  lemma PutThenOpen(h: Hash, key: int, objects: Objects, source: Bytes, chunks: seq<Bytes>, sealedSize: nat)
    requires Injective(h) && AllGenuine(h, key, objects) && Flatten(chunks) == source
    ensures var objects' := AfterPut(h, key, objects, h(source), |source|, chunks, sealedSize);
            && PutOutcome(h, objects, h(source), |source|, chunks, sealedSize).Stored?
            && AllGenuine(h, key, objects')
            && Open(h, key, objects', h(source)) == Some(source)
            && (forall id :: id in objects ==> id in objects' && objects'[id] == objects[id])
  {
    if h(source) in objects {
      assert Genuine(h, key, h(source), objects[h(source)]);
    }
  }

  /** A put never publishes an object that is not what its address says, whatever was read. */
  lemma PutKeepsGenuine(h: Hash, key: int, objects: Objects, id: int, declared: nat, chunks: seq<Bytes>, sealedSize: nat)
    requires AllGenuine(h, key, objects)
    ensures AllGenuine(h, key, AfterPut(h, key, objects, id, declared, chunks, sealedSize))
  {
  }

  /** When a put stores, and when it refuses, and that a refusal leaves the store as it was: an
      object that is there must have this header, and a new one this size and hash. */
  lemma PutStoresExactlyWhatFits(h: Hash, key: int, objects: Objects, id: int, declared: nat, chunks: seq<Bytes>, sealedSize: nat)
    ensures var r := PutOutcome(h, objects, id, declared, chunks, sealedSize);
            var objects' := AfterPut(h, key, objects, id, declared, chunks, sealedSize);
            && (r.Stored? <==> if id in objects then objects[id].header == Header(id, declared)
                               else h(Flatten(chunks)) == id && |Flatten(chunks)| == declared)
            && (r.IdentityConflict? ==> id in objects) && (r.SourceChanged? ==> id !in objects)
            && (r.Stored? && r.created <==> id in objects' && id !in objects)
            && (r.Stored? ==> id in objects' && objects'[id].storedSize == r.size)
            && (id in objects || !r.Stored? ==> objects' == objects)
            && (forall x :: x in objects' && x != id ==> x in objects && objects'[x] == objects[x])
  {
  }

  /** An object opens exactly with its key and while its content is what its header says. */
  lemma OpenChecksTheContent(h: Hash, key: int, objects: Objects, id: int, bytes: Bytes)
    ensures Open(h, key, objects, id) == Some(bytes) <==>
              && id in objects && objects[id].key == key && Flatten(objects[id].body) == bytes
              && h(bytes) == objects[id].header.contentHash && |bytes| == objects[id].header.originalSize
  {
  }

  /** Content that was changed after it was sealed does not open. */
  lemma AlteredObjectsDoNotOpen(h: Hash, key: int, objects: Objects, id: int, b: Blob)
    requires Injective(h) && id in objects && Genuine(h, key, id, objects[id])
    requires b.header == objects[id].header && Flatten(b.body) != Flatten(objects[id].body)
    ensures Open(h, key, objects[id := b], id).None?
  {
  }

  // ---- manifests ----------------------------------------------------------------------

  datatype Member = Member(path: nat, size: nat, sha: int, objectId: Option<int>, stored: Option<nat>)

  /** A manifest file: its members and the hash that finalize_manifest put on it. */
  datatype Manifest = Manifest(members: seq<Member>, digest: int)

  type ManifestHash = seq<Member> -> int

  function Finalize(mh: ManifestHash, members: seq<Member>): Manifest {
    Manifest(members, mh(members))
  }

  predicate DistinctPaths(ms: seq<Member>) {
    forall i, k :: 0 <= i < k < |ms| ==> ms[i].path != ms[k].path
  }

  /** What read_manifest accepts. */
  predicate Readable(mh: ManifestHash, m: Manifest) {
    && m.digest == mh(m.members)
    && DistinctPaths(m.members)
    && forall x :: x in m.members ==> x.objectId == Some(x.sha)
  }

  /** A manifest whose members were changed after it was finalized is refused. */
  lemma AlteredManifestsAreRefused(mh: ManifestHash, m: Manifest, members: seq<Member>)
    requires (forall x, y :: mh(x) == mh(y) ==> x == y) && Readable(mh, m)
    ensures Readable(mh, m.(members := members)) <==> members == m.members
  {
  }

  /** Finalizing is what makes it readable: exactly when no path is taken twice and every member
      names its own content. */
  lemma FinalizedIsReadable(mh: ManifestHash, members: seq<Member>)
    ensures Readable(mh, Finalize(mh, members)) <==>
              && (forall i, k :: 0 <= i < k < |members| ==> members[i].path != members[k].path)
              && (forall i :: 0 <= i < |members| ==> members[i].objectId == Some(members[i].sha))
    ensures Finalize(mh, members).members == members
  {
    assert forall i :: 0 <= i < |members| ==> members[i] in members;
  }

  /** The files a manifest stands for, when every member opens to bytes of the recorded size. */
  predicate Materializes(h: Hash, key: int, objects: Objects, ms: seq<Member>) {
    forall m :: m in ms ==> m.objectId.Some? && Open(h, key, objects, m.objectId.value).Some?
                            && |Open(h, key, objects, m.objectId.value).value| == m.size
  }

  function Materialized(h: Hash, key: int, objects: Objects, ms: seq<Member>): map<nat, Bytes>
    requires Materializes(h, key, objects, ms)
  {
    if ms == [] then map[]
    else
      var last := ms[|ms| - 1];
      assert last in ms;
      Materialized(h, key, objects, ms[..|ms| - 1])[last.path := Open(h, key, objects, last.objectId.value).value]
  }

  /** What materialising gives: for each member, at its path, the bytes of its own object, of the size
      the member records; and nothing else. */
  lemma {:induction false} MaterializedHolds(h: Hash, key: int, objects: Objects, ms: seq<Member>)
    requires DistinctPaths(ms) && Materializes(h, key, objects, ms)
    ensures var files := Materialized(h, key, objects, ms);
            && (forall m :: m in ms ==>
                  && m.path in files && m.objectId.Some? && Open(h, key, objects, m.objectId.value) == Some(files[m.path])
                  && |files[m.path]| == m.size)
            && (forall path :: path in files ==> exists m :: m in ms && m.path == path)
  {
    if ms != [] {
      var n := |ms| - 1;
      MaterializedHolds(h, key, objects, ms[..n]);
      assert ms == ms[..n] + [ms[n]];
      forall m | m in ms[..n] ensures m.path != ms[n].path {
        var i :| 0 <= i < n && ms[i] == m;
      }
    }
  }

  class BackupObjectStore {
    var objects: Objects
    const h: Hash
    const key: int

    constructor (h: Hash, key: int)
      ensures objects == map[] && this.h == h && this.key == key
    {
      this.h, this.key := h, key;
      objects := map[];
    }

    /** The chunk loop of put: sizes and digest follow what is read, chunk by chunk. */
    method Put(id: int, declared: nat, chunks: seq<Bytes>, sealedSize: nat) returns (r: PutResult)
      modifies this
      ensures r == PutOutcome(h, old(objects), id, declared, chunks, sealedSize)
      ensures objects == AfterPut(h, key, old(objects), id, declared, chunks, sealedSize)
    {
      if id in objects {
        if objects[id].header.contentHash != id || objects[id].header.originalSize != declared {
          return IdentityConflict;
        }
        return Stored(objects[id].storedSize, false);
      }
      var size := 0;
      var digested: Bytes := [];
      var sealed: seq<Bytes> := [];
      while |sealed| < |chunks|
        invariant |sealed| <= |chunks| && sealed == chunks[..|sealed|]
        invariant digested == Flatten(sealed) && size == |digested|
      {
        var chunk := chunks[|sealed|];
        assert chunks[..|sealed| + 1][..|sealed|] == sealed;
        digested := digested + chunk;
        size := size + |chunk|;
        sealed := sealed + [chunk];
      }
      assert chunks[..|chunks|] == chunks;
      if size != declared || h(digested) != id {
        return SourceChanged;
      }
      objects := objects[id := Blob(Header(id, declared), key, sealed, sealedSize)];
      return Stored(sealedSize, true);
    }

    method RestoreObject(id: int) returns (r: Option<Bytes>)
      ensures r == Open(h, key, objects, id)
    {
      if id !in objects || objects[id].key != key {
        return None;
      }
      var b := objects[id];
      var i, output := 0, [];
      while i < |b.body|
        invariant 0 <= i <= |b.body| && output == Flatten(b.body[..i])
      {
        assert b.body[..i + 1][..i] == b.body[..i];
        output := output + b.body[i];
        i := i + 1;
      }
      assert b.body[..|b.body|] == b.body;
      if |output| != b.header.originalSize || h(output) != b.header.contentHash {
        return None;
      }
      return Some(output);
    }

    /** materialize_snapshot: on any failure nothing is left behind. */
    method MaterializeSnapshot(mh: ManifestHash, m: Manifest) returns (files: Option<map<nat, Bytes>>)
      ensures files.Some? <==> Readable(mh, m) && Materializes(h, key, objects, m.members)
      ensures files.Some? ==> files.value == Materialized(h, key, objects, m.members)
    {
      var readable := ReadManifest(mh, m);
      if !readable {
        return None;
      }
      var i := 0;
      var written: map<nat, Bytes> := map[];
      while i < |m.members|
        invariant 0 <= i <= |m.members|
        invariant Materializes(h, key, objects, m.members[..i])
        invariant written == Materialized(h, key, objects, m.members[..i])
      {
        var member := m.members[i];
        var bytes := RestoreObject(member.sha);
        assert member in m.members;
        if bytes.None? || |bytes.value| != member.size {
          return None;
        }
        assert m.members[..i + 1][..i] == m.members[..i];
        assert forall x :: x in m.members[..i + 1] ==> x in m.members[..i] || x == member;
        written := written[member.path := bytes.value];
        i := i + 1;
      }
      assert m.members[..|m.members|] == m.members;
      return Some(written);
    }

    /** The member loop of read_manifest. */
    method ReadManifest(mh: ManifestHash, m: Manifest) returns (ok: bool)
      ensures ok <==> Readable(mh, m)
    {
      if m.digest != mh(m.members) {
        return false;
      }
      var paths: set<nat> := {};
      var i := 0;
      while i < |m.members|
        invariant 0 <= i <= |m.members|
        invariant paths == set k | 0 <= k < i :: m.members[k].path
        invariant DistinctPaths(m.members[..i])
        invariant forall x :: x in m.members[..i] ==> x.objectId == Some(x.sha)
      {
        var member := m.members[i];
        assert member in m.members;
        if member.path in paths {
          return false;
        }
        if member.objectId != Some(member.sha) {
          return false;
        }
        paths := paths + {member.path};
        i := i + 1;
      }
      assert m.members[..|m.members|] == m.members;
      return true;
    }
  }
}
