/**
  The content-addressed blob store.

  The digest is an arbitrary function of the bytes. Only the claim that a path holds the body itself
  needs the body's digest not to collide with a file already stored.
 */
module BodyStore {
  import opened Wrappers
  import opened Numbers
  import opened Tables

  type Bytes = seq<bv8>
  type Digest = string

  datatype StoreError = Io | StreamFailed | LengthOverflow | InvalidMediaType | Collision | Missing | Mismatch | WrongOwner
                      | UnsupportedAlgorithm

  /** One item of a body stream: bytes, or the error that ends it. */
  datatype Item = Chunk(bytes: Bytes) | Broken

  /** The bytes a stream delivers, unless it breaks. */
  function Body(stream: seq<Item>): Option<Bytes> {
    if stream == [] then Some([])
    else
      var before := Body(stream[..|stream| - 1]);
      match stream[|stream| - 1]
      case Broken => None
      case Chunk(bytes) => if before.Some? then Some(before.value + bytes) else None
  }

  lemma {:induction false} BrokenBody(stream: seq<Item>, i: nat)
    requires i < |stream| && stream[i].Broken?
    ensures Body(stream).None?
    decreases |stream|
  {
    if i < |stream| - 1 {
      BrokenBody(stream[..|stream| - 1], i);
    }
  }

  /** A prefix delivers no more than the whole. */
  lemma {:induction false} BodyGrows(stream: seq<Item>, n: nat)
    requires n <= |stream| && Body(stream[..n]).Some?
    ensures Body(stream).Some? ==> |Body(stream[..n]).value| <= |Body(stream).value|
    decreases |stream|
  {
    if n == |stream| {
      assert stream[..n] == stream;
    } else {
      assert stream[..|stream| - 1][..n] == stream[..n];
      BodyGrows(stream[..|stream| - 1], n);
    }
  }

  /** What the file system answers to each write, to the flush, to the link and to the unlink. */
  datatype Disk = Disk(writes: nat -> bool, flushes: bool, links: bool, unlinks: bool)

  /** Every write of a stream of `n` items and every later operation on the file succeed. */
  predicate Sound(disk: Disk, n: nat) { Written(disk, n) && disk.flushes && disk.links && disk.unlinks }

  predicate Written(disk: Disk, n: nat) { forall i :: 0 <= i < n ==> disk.writes(i) }

  /** The body reaches its path: written, and found there with its length or linked and its part unlinked. */
  predicate Lands(hash: Bytes -> Digest, files: map<Digest, Bytes>, disk: Disk, n: nat, body: Bytes) {
    && Written(disk, n) && disk.flushes && |body| <= U64_MAX
    && if hash(body) in files then |files[hash(body)]| == |body| else disk.links && disk.unlinks
  }

  /** No stored file shares the body's digest without being the body. */
  predicate NoCollision(hash: Bytes -> Digest, files: map<Digest, Bytes>, body: Bytes) {
    forall d :: d in files && hash(files[d]) == hash(body) ==> files[d] == body
  }

  /** What `verify` asks of a reference. */
  predicate Accepts(owner: string, files: map<Digest, Bytes>, reference: BlobRef) {
    && reference.ownerService == owner && reference.algorithm.Sha256?
    && reference.digest in files && |files[reference.digest]| == reference.length
  }

  const PART_PREFIX := "ratatoskr-extractor-"
  const PART_SUFFIX := ".part"

  predicate IsPart(name: string) {
    && |name| >= |PART_PREFIX| && name[..|PART_PREFIX|] == PART_PREFIX
    && |name| >= |PART_SUFFIX| && name[|name| - |PART_SUFFIX|..] == PART_SUFFIX
  }

  /** The name a store gives to its staging file. */
  function PartName(id: string): (name: string)
    ensures IsPart(name)
  {
    var name := PART_PREFIX + id + PART_SUFFIX;
    assert name[..|PART_PREFIX|] == PART_PREFIX && name[|name| - |PART_SUFFIX|..] == PART_SUFFIX;
    name
  }

  /** What the file system answers while the staging directory is walked. */
  datatype Listing = Listing(entries: nat -> bool, removals: nat -> bool)

  class BlobStore {
    const hash: Bytes -> Digest
    const owner: string
    var files: map<Digest, Bytes>
    var staging: set<string>

    /** Every file sits at the digest of its bytes. */
    ghost predicate Valid()
      reads this
    {
      forall d :: d in files ==> hash(files[d]) == d
    }

    constructor (hash: Bytes -> Digest, owner: string)
      ensures Valid() && files == map[] && staging == {}
      ensures this.hash == hash && this.owner == owner
    {
      this.hash, this.owner := hash, owner;
      files, staging := map[], {};
    }

    /**
      `prepare`: walks the staging directory and removes the parts an earlier process left behind,
      up to the first entry that cannot be read or removed. Nothing else is touched.
     */
    method Prepare(listing: seq<string>, disk: Listing) returns (r: Result<(), StoreError>, ghost seen: nat)
      requires forall name :: name in listing <==> name in staging
      modifies this`staging
      ensures seen <= |listing|
      ensures forall name :: name in staging <==> name in old(staging) && !(name in listing[..seen] && IsPart(name))
      ensures r.Ok? ==> seen == |listing| && forall name :: name in staging ==> !IsPart(name)
      ensures r.Err? ==> !disk.entries(seen) || (seen < |listing| && IsPart(listing[seen]) && !disk.removals(seen))
    {
      seen := 0;
      for i := 0 to |listing|
        invariant seen == i
        invariant forall name :: name in staging <==> name in old(staging) && !(name in listing[..i] && IsPart(name))
      {
        assert listing[..i + 1] == listing[..i] + [listing[i]];
        if !disk.entries(i) {
          return Err(StoreError.Io), i;
        }
        if IsPart(listing[i]) {
          if !disk.removals(i) {
            return Err(StoreError.Io), i;
          }
          staging := staging - {listing[i]};
        }
        seen := i + 1;
      }
      assert listing[..|listing|] == listing;
      if !disk.entries(|listing|) {
        return Err(StoreError.Io), |listing|;
      }
      r := Ok(());
    }

    method RemovePart(part: string, disk: Disk)
      modifies this`staging
      ensures staging == if disk.unlinks then old(staging) - {part} else old(staging)
    {
      if disk.unlinks {
        staging := staging - {part};
      }
    }

    /** Streams the items into the staging part; on an error the caller's file is never linked. */
    method Stage(stream: seq<Item>, disk: Disk, part: string) returns (r: Result<Bytes, StoreError>)
      modifies this`staging
      ensures old(staging) <= staging + {part} && staging <= old(staging) + {part}
      ensures r.Ok? ==> Body(stream) == Some(r.value)
      ensures r.Ok? <==> Body(stream).Some? && |Body(stream).value| <= U64_MAX && Written(disk, |stream|) && disk.flushes
      ensures r == Err(Io) ==> !Sound(disk, |stream|)
      ensures r == Err(StreamFailed) ==> Body(stream).None?
      ensures Body(stream).None? ==> r.Err?
      ensures r.Err? ==> r.error.Io? || r.error.StreamFailed? || r.error.LengthOverflow?
    {
      staging := staging + {part};
      var written: Bytes := [];
      for i := 0 to |stream|
        invariant staging == old(staging) + {part}
        invariant Body(stream[..i]) == Some(written) && |written| <= U64_MAX && Written(disk, i)
      {
        assert stream[..i + 1][..i] == stream[..i];
        if stream[i].Broken? {
          RemovePart(part, disk);
          BrokenBody(stream, i);
          return Err(StreamFailed);
        }
        if |written| + |stream[i].bytes| > U64_MAX {
          BodyGrows(stream, i + 1);
          return Err(LengthOverflow);
        }
        if !disk.writes(i) {
          RemovePart(part, disk);
          return Err(Io);
        }
        written := written + stream[i].bytes;
      }
      assert stream[..|stream|] == stream;
      if !disk.flushes {
        return Err(Io);
      }
      r := Ok(written);
    }

    /**
      `store`: on success the digest path holds bytes of the stream's digest and length. No call
      changes a file that is already there, and the only file a call adds is the streamed body.
     */
    method Store(mediaType: string, mediaTypeValid: bool, stream: seq<Item>, disk: Disk, part: string)
      returns (r: Result<BlobRef, StoreError>)
      requires Valid()
      modifies this`files, this`staging
      ensures Valid() && staging <= old(staging) + {PartName(part)}
      ensures files == old(files)
              || (Body(stream).Some? && files == Changed(hash, old(files), [Linked(Body(stream).value)])
                  && hash(Body(stream).value) !in old(files))
      ensures r.Ok? ==>
                && Body(stream).Some?
                && r.value == BlobRef(owner, Sha256, hash(Body(stream).value), mediaType, |Body(stream).value|)
                && Accepts(owner, files, r.value)
      ensures r.Ok? <==> mediaTypeValid && Body(stream).Some? && Lands(hash, old(files), disk, |stream|, Body(stream).value)
      ensures r == Err(InvalidMediaType) <==> !mediaTypeValid
      ensures r == Err(StreamFailed) ==> Body(stream).None?
      ensures r == Err(Io) ==> !Sound(disk, |stream|)
      ensures r == Err(Collision) ==>
                Body(stream).Some? && hash(Body(stream).value) in files && |files[hash(Body(stream).value)]| != |Body(stream).value|
    {
      if !mediaTypeValid {
        return Err(InvalidMediaType);
      }
      var staged := Stage(stream, disk, PartName(part));
      if staged.Err? {
        return Err(staged.error);
      }
      var written := staged.value;
      var digest := hash(written);
      if digest in files {
        RemovePart(PartName(part), disk);
        if |files[digest]| != |written| {
          return Err(Collision);
        }
      } else if !disk.links {
        RemovePart(PartName(part), disk);
        return Err(Io);
      } else {
        files := files[digest := written];
        if !disk.unlinks {
          return Err(Io);
        }
        RemovePart(PartName(part), disk);
      }
      r := Ok(BlobRef(owner, Sha256, digest, mediaType, |written|));
    }

    /** `verify`: accepts exactly an own reference whose digest path holds bytes of its length. */
    method Verify(reference: BlobRef) returns (r: Result<Bytes, StoreError>)
      requires Valid()
      ensures r.Ok? <==> Accepts(owner, files, reference)
      ensures r.Ok? ==> r.value == files[reference.digest] && hash(r.value) == reference.digest
    {
      if reference.ownerService != owner {
        return Err(WrongOwner);
      }
      if !reference.algorithm.Sha256? {
        return Err(UnsupportedAlgorithm);
      }
      if reference.digest !in files {
        return Err(Missing);
      }
      var bytes := files[reference.digest];
      if |bytes| != reference.length || hash(bytes) != reference.digest {
        return Err(Mismatch);
      }
      r := Ok(bytes);
    }

    /** `remove_digest`: the only call that takes a file away. */
    method RemoveDigest(digest: Digest)
      requires Valid()
      modifies this`files
      ensures Valid() && files == Changed(hash, old(files), [Removed(digest)])
    {
      files := files - {digest};
    }
  }

  /** The calls that change the files: a body that was linked, and a digest that was removed. */
  datatype Change = Linked(body: Bytes) | Removed(digest: Digest)

  function Changed(hash: Bytes -> Digest, files: map<Digest, Bytes>, changes: seq<Change>): map<Digest, Bytes>
    decreases |changes|
  {
    if changes == [] then files
    else
      var before := Changed(hash, files, changes[..|changes| - 1]);
      match changes[|changes| - 1]
      case Linked(body) => if hash(body) in before then before else before[hash(body) := body]
      case Removed(digest) => before - {digest}
  }

  /**
    Over every later history: what was stored stays, byte for byte, until its own digest is
    removed, and every file keeps hashing to its path.
   */
  lemma {:induction false} StoredStaysUntilRemoved(hash: Bytes -> Digest, files: map<Digest, Bytes>,
                                                   changes: seq<Change>, digest: Digest)
    requires forall d :: d in files ==> hash(files[d]) == d
    requires digest in files && Removed(digest) !in changes
    ensures var later := Changed(hash, files, changes);
            digest in later && later[digest] == files[digest] && forall d :: d in later ==> hash(later[d]) == d
    decreases |changes|
  {
    if changes != [] {
      StoredStaysUntilRemoved(hash, files, changes[..|changes| - 1], digest);
    }
  }

  /**
    A reference that `store` returned is accepted by `verify` after every later history of stores
    and removals that does not remove its own digest, and refused right after one that ends by
    removing it.
   */
  lemma ReferenceVerifiesUntilRemoved(hash: Bytes -> Digest, owner: string, files: map<Digest, Bytes>,
                                      reference: BlobRef, changes: seq<Change>)
    requires (forall d :: d in files ==> hash(files[d]) == d) && Accepts(owner, files, reference)
    ensures Removed(reference.digest) !in changes ==> Accepts(owner, Changed(hash, files, changes), reference)
    ensures !Accepts(owner, Changed(hash, files, changes + [Removed(reference.digest)]), reference)
  {
    if Removed(reference.digest) !in changes {
      StoredStaysUntilRemoved(hash, files, changes, reference.digest);
    }
    var longer := changes + [Removed(reference.digest)];
    assert longer[..|longer| - 1] == changes;
  }

  /** Store, any number of other stores, verify: the reference is accepted with bytes of its digest. */
  method StoreThenVerify(store: BlobStore, mediaType: string, stream: seq<Item>, others: seq<seq<Item>>, disk: Disk, part: string)
    returns (reference: Result<BlobRef, StoreError>, verified: Result<Bytes, StoreError>)
    requires store.Valid()
    modifies store`files, store`staging
    ensures store.Valid()
    ensures reference.Ok? ==> verified.Ok? && store.hash(verified.value) == reference.value.digest
                              && |verified.value| == reference.value.length
  {
    reference := store.Store(mediaType, true, stream, disk, part);
    verified := Err(Missing);
    if reference.Err? {
      return;
    }
    for i := 0 to |others|
      invariant store.Valid() && Accepts(store.owner, store.files, reference.value)
    {
      ghost var before := store.files;
      var other := store.Store(mediaType, true, others[i], disk, part);
      if store.files != before {
        ReferenceVerifiesUntilRemoved(store.hash, store.owner, before, reference.value, [Linked(Body(others[i]).value)]);
      }
    }
    verified := store.Verify(reference.value);
  }
}
