/**
  Streaming a response body into the store: wire chunks pass a counter that enforces the wire limit,
  a decoder reads what passed, and the decoded bytes are stored.

  Nothing is assumed of the decoder's output. It consumes the wire items in order, any number for
  each read, and a read that consumes a failed item fails.
 */
module ResponseBody {
  import opened Wrappers
  import opened Numbers
  import opened Tables
  import opened BodyStore

  /** One item of the response's own stream. */
  datatype WireItem = WireChunk(bytes: Bytes) | WireBroken

  datatype FetchLimits = FetchLimits(maxWire: nat, maxDecoded: nat)
  {
    predicate Valid() { maxWire <= U64_MAX && maxDecoded <= U64_MAX }
  }

  datatype ResponseError = DeclaredBodyTooLarge | WireBodyTooLarge | DecodedBodyTooLarge | UnsupportedEncoding
                         | MalformedEncoding | TimeoutReadIdle | Artifact(error: StoreError)

  // ----- the wire

  /** The bytes of the first `n` items. */
  function WireSum(wire: seq<WireItem>, n: nat): nat
    requires n <= |wire|
  {
    if n == 0 then 0 else WireSum(wire, n - 1) + if wire[n - 1].WireChunk? then |wire[n - 1].bytes| else 0
  }

  /** A chunk in memory has a 64-bit length. */
  predicate ChunksFit(wire: seq<WireItem>) {
    forall i :: 0 <= i < |wire| && wire[i].WireChunk? ==> |wire[i].bytes| <= U64_MAX
  }

  /** An item is handed on when it is a chunk that keeps the sum within the limit. */
  predicate Passes(max: nat, wire: seq<WireItem>, i: nat)
    requires i < |wire|
  {
    wire[i].WireChunk? && WireSum(wire, i + 1) <= max
  }

  predicate AllPass(max: nat, wire: seq<WireItem>, n: nat)
    requires n <= |wire|
  {
    forall i :: 0 <= i < n ==> Passes(max, wire, i)
  }

  lemma {:induction false} WireSumGrows(wire: seq<WireItem>, m: nat, n: nat)
    requires m <= n <= |wire|
    ensures WireSum(wire, m) <= WireSum(wire, n)
    decreases n
  {
    if m < n { WireSumGrows(wire, m, n - 1); }
  }

  lemma AllPassSum(max: nat, wire: seq<WireItem>, n: nat)
    requires n <= |wire| && AllPass(max, wire, n)
    ensures WireSum(wire, n) <= max
  {
    if n > 0 { assert Passes(max, wire, n - 1); }
  }

  /** The counter that wraps at 64 bits and the flag, as the mapped stream shares them. */
  class WireGuard {
    const max: nat
    var count: nat
    var hit: bool

    constructor (max: nat)
      ensures this.max == max && count == 0 && !hit
    {
      this.max := max;
      count, hit := 0, false;
    }

    /** One item of the mapped stream: counted, checked for overflow and limit, handed on or failed. */
    method Next(item: WireItem) returns (passed: bool)
      requires count <= max <= U64_MAX && (item.WireChunk? ==> |item.bytes| <= U64_MAX)
      modifies this`count, this`hit
      ensures passed <==> item.WireChunk? && old(count) + |item.bytes| <= max
      ensures passed ==> count == old(count) + |item.bytes|
      ensures hit <==> old(hit) || (item.WireChunk? && old(count) + |item.bytes| > max)
    {
      match item
      case WireBroken => passed := false;
      case WireChunk(bytes) =>
        var previous := count;
        count := (count + |bytes|) % (U64_MAX + 1);
        if previous + |bytes| > U64_MAX || previous + |bytes| > max {
          hit := true;
          passed := false;
        } else {
          passed := true;
        }
    }

    /** What one read of the decoder consumes: items in order, up to the first that fails. */
    method Consume(wire: seq<WireItem>, from: nat, to: nat) returns (failed: Option<nat>)
      requires from <= to <= |wire| && max <= U64_MAX && ChunksFit(wire)
      requires AllPass(max, wire, from) && count == WireSum(wire, from) && !hit
      modifies this`count, this`hit
      ensures failed == FirstFailure(max, wire, from, to)
      ensures failed.None? ==> count == WireSum(wire, to) && !hit
      ensures failed.Some? ==> (hit <==> wire[failed.value].WireChunk?)
    {
      AllPassSum(max, wire, from);
      for i := from to to
        invariant AllPass(max, wire, i) && count == WireSum(wire, i) <= max && !hit
        invariant FirstFailure(max, wire, from, to) == FirstFailure(max, wire, i, to)
      {
        var passed := Next(wire[i]);
        if !passed {
          return Some(i);
        }
        assert Passes(max, wire, i);
      }
      failed := None;
    }
  }

  /** The first item of a range that is not handed on. */
  function FirstFailure(max: nat, wire: seq<WireItem>, lo: nat, hi: nat): (r: Option<nat>)
    requires lo <= hi <= |wire|
    ensures r.Some? ==> lo <= r.value < hi && !Passes(max, wire, r.value)
    ensures r.Some? ==> forall i :: lo <= i < r.value ==> Passes(max, wire, i)
    ensures r.None? ==> forall i :: lo <= i < hi ==> Passes(max, wire, i)
    decreases hi - lo
  {
    if lo == hi then None
    else if !Passes(max, wire, lo) then Some(lo)
    else FirstFailure(max, wire, lo + 1, hi)
  }

  // ----- the decoder's reads

  /** What a read answers unless it consumes a failed item, and the items consumed once it returned. */
  datatype Read = Read(outcome: ReadOutcome, consumed: nat)

  datatype ReadOutcome = Data(bytes: Bytes) | End | Idle | Malformed

  /** Items consumed before read `k`. */
  function Before(received: seq<Read>, k: nat): nat
    requires k <= |received|
  {
    if k == 0 then 0 else received[k - 1].consumed
  }

  /** Consumption never goes back or past the stream, and only the last read does not deliver data. */
  predicate ReadsAllowed(wire: seq<WireItem>, received: seq<Read>) {
    && ChunksFit(wire)
    && received != [] && !received[|received| - 1].outcome.Data?
    && (forall k :: 0 <= k < |received| ==> Before(received, k) <= received[k].consumed <= |wire|)
    && (forall k :: 0 <= k < |received| - 1 ==> received[k].outcome.Data?)
  }

  /** The decoded bytes of the reads before `n`. */
  function Decoded(received: seq<Read>, n: nat): Bytes
    requires n <= |received|
  {
    if n == 0 then []
    else Decoded(received, n - 1) + if received[n - 1].outcome.Data? then received[n - 1].outcome.bytes else []
  }

  lemma {:induction false} DecodedGrows(received: seq<Read>, i: nat, n: nat)
    requires i <= n <= |received|
    ensures |Decoded(received, i)| <= |Decoded(received, n)|
    decreases n - i
  {
    if i < n { DecodedGrows(received, i, n - 1); }
  }

  lemma {:induction false} ConsumedGrows(wire: seq<WireItem>, received: seq<Read>, i: nat, n: nat)
    requires ReadsAllowed(wire, received) && i <= n <= |received|
    ensures Before(received, i) <= Before(received, n) <= |wire|
    decreases n - i
  {
    if i < n {
      ConsumedGrows(wire, received, i, n - 1);
      assert Before(received, n - 1) <= received[n - 1].consumed;
    }
  }

  /** The whole body: everything consumed passed, the decoder reached its end, both limits hold. */
  predicate BodyAcceptable(limits: FetchLimits, wire: seq<WireItem>, received: seq<Read>)
    requires ReadsAllowed(wire, received)
  {
    && AllPass(limits.maxWire, wire, received[|received| - 1].consumed)
    && received[|received| - 1].outcome.End?
    && |Decoded(received, |received|)| <= limits.maxDecoded
  }

  /** Nothing ended the body before read `k`. */
  predicate Reaches(limits: FetchLimits, wire: seq<WireItem>, received: seq<Read>, k: nat)
    requires ReadsAllowed(wire, received) && k <= |received|
  {
    ConsumedGrows(wire, received, k, |received|);
    AllPass(limits.maxWire, wire, Before(received, k)) && |Decoded(received, k)| <= limits.maxDecoded
  }

  /** Read `k` is the one that ends the body. */
  predicate EndsAt(limits: FetchLimits, wire: seq<WireItem>, received: seq<Read>, k: nat)
    requires ReadsAllowed(wire, received) && k < |received|
  {
    Reaches(limits, wire, received, k) && (!received[k].outcome.Data? || !Reaches(limits, wire, received, k + 1))
  }

  /** How read `k` is reported when it ends the body without completing it, flags in their order. */
  function ErrorAt(limits: FetchLimits, wire: seq<WireItem>, received: seq<Read>, k: nat): ResponseError
    requires ReadsAllowed(wire, received) && k < |received|
  {
    var failed := FirstFailure(limits.maxWire, wire, Before(received, k), received[k].consumed);
    if failed.Some? && wire[failed.value].WireChunk? then WireBodyTooLarge
    else if failed.None? && received[k].outcome.Data? then DecodedBodyTooLarge
    else if failed.Some? || received[k].outcome.Malformed? then MalformedEncoding
    else TimeoutReadIdle
  }

  lemma EndIsUnique(limits: FetchLimits, wire: seq<WireItem>, received: seq<Read>, j: nat, k: nat)
    requires ReadsAllowed(wire, received) && j < |received| && k < |received|
    requires EndsAt(limits, wire, received, j) && EndsAt(limits, wire, received, k)
    ensures j == k
  {
    if j < k { EndsBefore(limits, wire, received, j, k); }
    if k < j { EndsBefore(limits, wire, received, k, j); }
  }

  lemma EndsBefore(limits: FetchLimits, wire: seq<WireItem>, received: seq<Read>, j: nat, k: nat)
    requires ReadsAllowed(wire, received) && j < k < |received| && EndsAt(limits, wire, received, j)
    ensures !Reaches(limits, wire, received, k)
  {
    assert received[j].outcome.Data?;
    ReachedBefore(limits, wire, received, j + 1, k);
  }

  lemma ReachedBefore(limits: FetchLimits, wire: seq<WireItem>, received: seq<Read>, j: nat, k: nat)
    requires ReadsAllowed(wire, received) && j <= k <= |received|
    ensures Reaches(limits, wire, received, k) ==> Reaches(limits, wire, received, j)
  {
    DecodedGrows(received, j, k);
    ConsumedGrows(wire, received, j, k);
  }

  /** Some read ends the body. */
  lemma {:induction false} EndExists(limits: FetchLimits, wire: seq<WireItem>, received: seq<Read>, k: nat) returns (end: nat)
    requires ReadsAllowed(wire, received) && k < |received| && Reaches(limits, wire, received, k)
    ensures end < |received| && EndsAt(limits, wire, received, end)
    decreases |received| - k
  {
    if EndsAt(limits, wire, received, k) {
      end := k;
    } else {
      end := EndExists(limits, wire, received, k + 1);
    }
  }

  /** Chunk `i` is the one that carries the sum past the limit. */
  predicate Overruns(max: nat, wire: seq<WireItem>, i: nat) {
    i < |wire| && AllPass(max, wire, i) && wire[i].WireChunk? && WireSum(wire, i + 1) > max
  }

  /**
    The read that ends the body is reported as the wire limit exactly when it consumed the chunk
    that overruns it, and then the body is not acceptable.
   */
  lemma WireLimitDecides(limits: FetchLimits, wire: seq<WireItem>, received: seq<Read>, k: nat)
    requires ReadsAllowed(wire, received) && k < |received| && EndsAt(limits, wire, received, k)
    ensures ErrorAt(limits, wire, received, k) == WireBodyTooLarge
            <==> exists i :: 0 <= i < received[k].consumed && Overruns(limits.maxWire, wire, i)
    ensures ErrorAt(limits, wire, received, k) == WireBodyTooLarge ==> !BodyAcceptable(limits, wire, received)
  {
    var failed := FirstFailure(limits.maxWire, wire, Before(received, k), received[k].consumed);
    forall i | 0 <= i < received[k].consumed && Overruns(limits.maxWire, wire, i) ensures failed == Some(i) {
      assert !Passes(limits.maxWire, wire, i);
      OnlyFailure(limits.maxWire, wire, Before(received, k), received[k].consumed, i);
    }
    if failed.Some? {
      assert AllPass(limits.maxWire, wire, failed.value);
      FailedEnds(limits, wire, received, k);
      assert wire[failed.value].WireChunk? ==> Overruns(limits.maxWire, wire, failed.value);
    }
  }

  lemma OnlyFailure(max: nat, wire: seq<WireItem>, lo: nat, hi: nat, i: nat)
    requires lo <= hi <= |wire| && i < hi && AllPass(max, wire, lo) && AllPass(max, wire, i) && !Passes(max, wire, i)
    ensures FirstFailure(max, wire, lo, hi) == Some(i)
  {
    assert lo <= i;
  }

  lemma FailedEnds(limits: FetchLimits, wire: seq<WireItem>, received: seq<Read>, k: nat)
    requires ReadsAllowed(wire, received) && k < |received| && Reaches(limits, wire, received, k)
    requires FirstFailure(limits.maxWire, wire, Before(received, k), received[k].consumed).Some?
    ensures EndsAt(limits, wire, received, k) && !BodyAcceptable(limits, wire, received)
  {
    ConsumedGrows(wire, received, k + 1, |received|);
    var i := FirstFailure(limits.maxWire, wire, Before(received, k), received[k].consumed).value;
    assert !Passes(limits.maxWire, wire, i);
  }

  lemma PassedOn(limits: FetchLimits, wire: seq<WireItem>, received: seq<Read>, k: nat)
    requires ReadsAllowed(wire, received) && k < |received| && Reaches(limits, wire, received, k)
    requires FirstFailure(limits.maxWire, wire, Before(received, k), received[k].consumed).None?
    requires |Decoded(received, k + 1)| <= limits.maxDecoded
    ensures Reaches(limits, wire, received, k + 1)
  {
    ConsumedGrows(wire, received, k + 1, |received|);
  }

  lemma TooLongEnds(limits: FetchLimits, wire: seq<WireItem>, received: seq<Read>, k: nat)
    requires ReadsAllowed(wire, received) && k < |received| && Reaches(limits, wire, received, k)
    requires |Decoded(received, k + 1)| > limits.maxDecoded
    ensures EndsAt(limits, wire, received, k) && !BodyAcceptable(limits, wire, received)
  {
    DecodedGrows(received, k + 1, |received|);
  }

  // ----- the stream the store consumes

  /** One read: its wire items through the guard, then its own outcome and the decoded limit. */
  method ReadOnce(guard: WireGuard, limits: FetchLimits, wire: seq<WireItem>, received: seq<Read>, k: nat, decoded: nat)
    returns (error: Option<ResponseError>)
    requires limits.Valid() && ReadsAllowed(wire, received) && k < |received| && Reaches(limits, wire, received, k)
    requires guard.max == limits.maxWire && guard.count == WireSum(wire, Before(received, k)) && !guard.hit
    requires decoded == |Decoded(received, k)|
    modifies guard
    ensures error.None? ==> guard.count == WireSum(wire, received[k].consumed) && !guard.hit
    ensures error.None? ==> Reaches(limits, wire, received, k + 1) && (received[k].outcome.Data? || received[k].outcome.End?)
    ensures error.Some? ==> EndsAt(limits, wire, received, k) && !BodyAcceptable(limits, wire, received)
                            && error.value == ErrorAt(limits, wire, received, k)
  {
    var failed := guard.Consume(wire, Before(received, k), received[k].consumed);
    if failed.Some? {
      FailedEnds(limits, wire, received, k);
      return Some(if guard.hit then WireBodyTooLarge else MalformedEncoding);
    }
    match received[k].outcome
    case Idle => error := Some(TimeoutReadIdle);
    case Malformed => error := Some(MalformedEncoding);
    case End =>
      PassedOn(limits, wire, received, k);
      error := None;
    case Data(bytes) =>
      if decoded + |bytes| > limits.maxDecoded {
        TooLongEnds(limits, wire, received, k);
        return Some(DecodedBodyTooLarge);
      }
      PassedOn(limits, wire, received, k);
      error := None;
  }

  /** A stream for the store, the failure to report if it breaks, and the counter at its end. */
  datatype Streamed = Streamed(stream: seq<Item>, error: Option<ResponseError>, wireBytes: nat)

  /** The read loop: until a read ends the body or all have delivered. */
  method ReadAll(guard: WireGuard, limits: FetchLimits, wire: seq<WireItem>, received: seq<Read>)
    returns (stream: seq<Item>, error: Option<ResponseError>, ghost end: nat)
    requires limits.Valid() && ReadsAllowed(wire, received) && guard.max == limits.maxWire && guard.count == 0 && !guard.hit
    modifies guard
    ensures error.None? ==> Reaches(limits, wire, received, |received|) && received[|received| - 1].outcome.End? && |stream| == |received| - 1
    ensures error.None? ==> Body(stream) == Some(Decoded(received, |received|)) && guard.count == WireSum(wire, Before(received, |received|))
    ensures error.Some? ==> end < |received| && EndsAt(limits, wire, received, end) && !BodyAcceptable(limits, wire, received)
    ensures error.Some? ==> error.value == ErrorAt(limits, wire, received, end) && Body(stream).None?
  {
    stream, error, end := [], None, 0;
    var decoded: nat := 0;
    var k := 0;
    while k < |received|
      invariant k <= |received| && Reaches(limits, wire, received, k)
      invariant guard.count == WireSum(wire, Before(received, k)) && !guard.hit
      invariant Body(stream) == Some(Decoded(received, k)) && decoded == |Decoded(received, k)|
      invariant k > 0 ==> received[k - 1].outcome.Data? || received[k - 1].outcome.End?
      invariant |stream| == if k == |received| then k - 1 else k
      decreases |received| - k
    {
      error := ReadOnce(guard, limits, wire, received, k, decoded);
      if error.Some? {
        return stream + [Broken], error, k;
      }
      DecodedNext(received, k);
      if received[k].outcome.Data? {
        BodyAppended(stream, received[k].outcome.bytes);
        stream := stream + [Chunk(received[k].outcome.bytes)];
        decoded := decoded + |received[k].outcome.bytes|;
      }
      k := k + 1;
    }
    error := None;
  }

  /** Reads until the body ends, stopping at the first failed item and at the first byte too many. */
  method DecodedStream(limits: FetchLimits, wire: seq<WireItem>, received: seq<Read>) returns (r: Streamed, ghost end: nat)
    requires limits.Valid() && ReadsAllowed(wire, received)
    ensures end < |received| && EndsAt(limits, wire, received, end)
    ensures r.error.None? <==> BodyAcceptable(limits, wire, received)
    ensures r.error.None? ==> |r.stream| == |received| - 1
    ensures r.error.None? ==>
              Body(r.stream) == Some(Decoded(received, |received|)) && r.wireBytes == WireSum(wire, received[|received| - 1].consumed)
    ensures r.error.Some? ==> Body(r.stream).None? && r.error.value == ErrorAt(limits, wire, received, end)
  {
    var guard := new WireGuard(limits.maxWire);
    var stream, error;
    stream, error, end := ReadAll(guard, limits, wire, received);
    if error.None? {
      end := |received| - 1;
      LastReached(limits, wire, received);
    }
    r := Streamed(stream, error, guard.count);
  }

  lemma DecodedNext(received: seq<Read>, k: nat)
    requires k < |received|
    ensures received[k].outcome.Data? ==> Decoded(received, k + 1) == Decoded(received, k) + received[k].outcome.bytes
    ensures !received[k].outcome.Data? ==> Decoded(received, k + 1) == Decoded(received, k)
  {
  }

  lemma BodyAppended(stream: seq<Item>, bytes: Bytes)
    requires Body(stream).Some?
    ensures Body(stream + [Chunk(bytes)]) == Some(Body(stream).value + bytes)
  {
    assert (stream + [Chunk(bytes)])[..|stream|] == stream;
  }

  lemma LastReached(limits: FetchLimits, wire: seq<WireItem>, received: seq<Read>)
    requires ReadsAllowed(wire, received) && Reaches(limits, wire, received, |received|) && received[|received| - 1].outcome.End?
    ensures BodyAcceptable(limits, wire, received) && EndsAt(limits, wire, received, |received| - 1)
  {
    DecodedGrows(received, |received| - 1, |received|);
    ConsumedGrows(wire, received, |received| - 1, |received|);
  }

  datatype Stored = Stored(artifact: BlobRef, wireBytes: nat, decodedBytes: nat)

  /**
    `store_response`: a success stores exactly the decoded bytes in order; its wire bytes are the
    sum of the chunks that were consumed and within the limit. A body that is too long on the wire
    or decoded, broken or stalled is never committed; a refusal names the limit or failure of the
    read that ended the body, or an error of the store that is not the stream's.
   */
  method StoreResponse(store: BlobStore, limits: FetchLimits, declaredLength: Option<nat>, encodingSupported: bool,
                       wire: seq<WireItem>, received: seq<Read>, mediaType: string, mediaTypeValid: bool, disk: Disk,
                       part: string)
    returns (r: Result<Stored, ResponseError>, ghost end: nat)
    requires store.Valid() && limits.Valid() && ReadsAllowed(wire, received)
    modifies store`files, store`staging
    ensures store.Valid() && end < |received| && EndsAt(limits, wire, received, end)
    ensures r.Ok? ==>
              && BodyAcceptable(limits, wire, received)
              && r.value.wireBytes == WireSum(wire, received[|received| - 1].consumed) <= limits.maxWire
              && r.value.decodedBytes == |Decoded(received, |received|)| == r.value.artifact.length
              && r.value.artifact.digest == store.hash(Decoded(received, |received|))
              && r.value.artifact.digest in store.files
              && (NoCollision(store.hash, old(store.files), Decoded(received, |received|))
                  ==> store.files[r.value.artifact.digest] == Decoded(received, |received|))
    ensures store.files == old(store.files)
            || (BodyAcceptable(limits, wire, received)
                && store.files == old(store.files)[store.hash(Decoded(received, |received|)) := Decoded(received, |received|)])
    ensures r.Ok? <==>
              && (declaredLength.Some? ==> declaredLength.value <= limits.maxWire) && encodingSupported
              && BodyAcceptable(limits, wire, received) && mediaTypeValid
              && Lands(store.hash, old(store.files), disk, |received| - 1, Decoded(received, |received|))
    ensures r == Err(UnsupportedEncoding) <==> !encodingSupported && (declaredLength.Some? ==> declaredLength.value <= limits.maxWire)
    ensures r == Err(DeclaredBodyTooLarge) <==> declaredLength.Some? && declaredLength.value > limits.maxWire
    ensures r.Err? && !r.error.DeclaredBodyTooLarge? && !r.error.UnsupportedEncoding? ==>
              if r.error.Artifact? then !r.error.error.StreamFailed?
              else !BodyAcceptable(limits, wire, received) && r.error == ErrorAt(limits, wire, received, end)
  {
    end := EndExists(limits, wire, received, 0);
    if declaredLength.Some? && declaredLength.value > limits.maxWire {
      return Err(DeclaredBodyTooLarge), end;
    }
    if !encodingSupported {
      return Err(UnsupportedEncoding), end;
    }
    var streamed: Streamed;
    streamed, end := DecodedStream(limits, wire, received);
    var stream, error := streamed.stream, streamed.error;
    if stream != [] && stream[0].Broken? {
      BrokenBody(stream, 0);
      return Err(error.value), end;
    }
    var stored := store.Store(mediaType, mediaTypeValid, stream, disk, part);
    if stored.Err? {
      return Err(if stored.error.StreamFailed? then error.value else Artifact(stored.error)), end;
    }
    AllPassSum(limits.maxWire, wire, received[|received| - 1].consumed);
    r := Ok(Stored(stored.value, streamed.wireBytes, stored.value.length));
  }
}
