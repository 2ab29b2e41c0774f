/**
  One upload session of the Uploader (an entry of `uploadInternalStorage`), how
  `startUpload` builds it, what the drain loop of `tryUploadPart` does to it, and
  what `Promise.all` over its upload handle and part promises settles to.
 */
module Sessions {
  import opened Wrappers
  import opened PartLists

  /** The session id, a uuid v4 string. */
  type Id = string
  /** The store's multipart upload id (`UploadId`). */
  type Handle = string
  /** What one `readable.read(partSize)` returns when it does not return null. */
  type Chunk = seq<bv8>
  /** The caller's `additionalMetadata`, handed back untouched on completion. */
  type Metadata = string

  /** One entry of `partPromises`, described by how its promise stands. */
  datatype PartEntry =
    | Seeded(part: PartResult)                 // a resume part, wrapped in a resolved promise
    | InFlight(partNumber: int, body: Chunk)   // read from the stream, upload not yet settled
    | Uploaded(part: PartResult)               // upload succeeded
    | Failed(partNumber: int)                  // upload (or the handle it awaited) rejected
  {
    function Number(): int {
      match this
      case Seeded(p) => p.partNumber
      case InFlight(n, _) => n
      case Uploaded(p) => p.partNumber
      case Failed(n) => n
    }
  }

  /** How `createUploadPromise` stands. */
  datatype UploadHandle = Creating | Created(handle: Handle) | CreateFailed

  datatype Session = Session(
    key: string,                    // amazonKey
    partOffset: int,
    parts: seq<PartEntry>,          // partPromises, in submission order
    upload: UploadHandle,           // createUploadPromise
    readable: Option<seq<Chunk>>,   // the stream, as the chunks it can still hand out
    metadata: Option<Metadata>)     // additionalMetadata

  /** The one field of `s3Params` the Uploader looks at; the rest go to the store untouched. */
  datatype S3Params = S3Params(key: Option<string>)

  /** `partialUploadParams`: a field that is not present is `None`. */
  datatype PartialParams = PartialParams(uploadId: Option<Handle>, parts: Option<seq<PartResult>>, offset: Option<int>)

  datatype UploadError =
    | MissingKey          // 'Please provide S3 Key'
    | MissingUploadId     // 'Please provide UploadId for partial upload'
    | UnknownSession      // the id is not in the registry: a TypeError in the source
    | PartsPending        // Promise.all has not settled yet
    | PartsRejected       // the handle or some part rejected
    | RemoteFailed        // a finalization request to the store failed

  /** The resume offset: `Offset` when it is present and non-zero, otherwise 0 (the same thing). */
  function StartOffset(partial: Option<PartialParams>): int {
    if partial.Some? && partial.value.offset.Some? && partial.value.offset.value != 0
    then partial.value.offset.value else 0
  }

  function SeededParts(partial: Option<PartialParams>): (r: seq<PartEntry>)
    ensures forall i :: 0 <= i < |r| ==> r[i].Seeded?
  {
    if partial.Some? && partial.value.parts.Some? then
      var ps := partial.value.parts.value;
      seq(|ps|, i requires 0 <= i < |ps| => Seeded(ps[i]))
    else []
  }

  /** Every part read from the stream carries number `partOffset + index + 1`. */
  predicate NumberedFrom(offset: int, parts: seq<PartEntry>) {
    forall i :: 0 <= i < |parts| && !parts[i].Seeded? ==> parts[i].Number() == offset + i + 1
  }

  predicate Numbered(s: Session) {
    NumberedFrom(s.partOffset, s.parts)
  }

  /** The validation and the record of `startUpload`. */
  function NewSession(params: S3Params, readable: Option<seq<Chunk>>, metadata: Option<Metadata>,
                      partial: Option<PartialParams>): (r: Result<Session, UploadError>)
    ensures r == Failure(MissingKey) <==> params.key.None?
    ensures r == Failure(MissingUploadId) <==> params.key.Some? && partial.Some? && partial.value.uploadId.None?
    ensures r.Success? <==> params.key.Some? && (partial.None? || partial.value.uploadId.Some?)
    ensures r.Success? ==>
      && r.value.key == params.key.value
      && r.value.partOffset == (if partial.Some? && partial.value.offset.Some? then partial.value.offset.value else 0)
      && r.value.upload == (if partial.Some? then Created(partial.value.uploadId.value) else Creating)
      && r.value.readable == readable
      && r.value.metadata == metadata
      && Numbered(r.value)
    ensures r.Success? && partial.Some? && partial.value.parts.Some? ==>
      var seeded := partial.value.parts.value;
      |r.value.parts| == |seeded| && forall i :: 0 <= i < |seeded| ==> r.value.parts[i] == Seeded(seeded[i])
    ensures r.Success? && (partial.None? || partial.value.parts.None?) ==> r.value.parts == []
  {
    if params.key.None? then Failure(MissingKey)
    else if partial.Some? && partial.value.uploadId.None? then Failure(MissingUploadId)
    else
      Success(Session(
        key := params.key.value,
        partOffset := StartOffset(partial),
        parts := SeededParts(partial),
        upload := if partial.Some? then Created(partial.value.uploadId.value) else Creating,
        readable := readable,
        metadata := metadata))
  }

  /** The parts that chunks `chunks` become when the first of them is numbered `first`. */
  function NumberedChunks(first: int, chunks: seq<Chunk>): (r: seq<PartEntry>)
    ensures |r| == |chunks|
    decreases |chunks|
  {
    if chunks == [] then [] else [InFlight(first, chunks[0])] + NumberedChunks(first + 1, chunks[1..])
  }

  /** Chunk `k` becomes the pending part numbered `first + k`. */
  lemma {:induction false} NumberedChunksAt(first: int, chunks: seq<Chunk>, k: int)
    requires 0 <= k < |chunks|
    ensures NumberedChunks(first, chunks)[k] == InFlight(first + k, chunks[k])
    decreases k
  {
    if k > 0 {
      NumberedChunksAt(first + 1, chunks[1..], k - 1);
    }
  }

  function Max(a: int, b: int): int {
    if a < b then b else a
  }

  /** Where the drain loop leaves the part list, the stream, the in-flight counter and `data`:
      `exhausted` means the last read returned null. */
  datatype Drained = Drained(parts: seq<PartEntry>, queue: seq<Chunk>, active: int, exhausted: bool)

  /** The while loop of `tryUploadPart`: while `active <= cap`, read a chunk, give it the next
      part number, append its pending promise and count it as in flight. */
  function Drain(offset: int, parts: seq<PartEntry>, queue: seq<Chunk>, active: int, cap: int): Drained
    decreases |queue|
  {
    if active > cap then Drained(parts, queue, active, false)
    else if queue == [] then Drained(parts, queue, active, true)
    else Drain(offset, parts + [InFlight(offset + |parts| + 1, queue[0])], queue[1..], active + 1, cap)
  }

  /** One `readable.read` that returned a chunk: the chunk becomes the next pending part. */
  function ReadChunk(s: Session): Session
    requires s.readable.Some? && s.readable.value != []
  {
    s.(parts := s.parts + [InFlight(s.partOffset + |s.parts| + 1, s.readable.value[0])],
       readable := Some(s.readable.value[1..]))
  }

  /** A pass consumes a prefix of the stream, and the counter goes up by exactly the number of
      chunks it read. */
  lemma {:induction false} DrainConsumesPrefix(offset: int, parts: seq<PartEntry>, queue: seq<Chunk>, active: int, cap: int)
    ensures var d := Drain(offset, parts, queue, active, cap);
            var n := |queue| - |d.queue|;
            && 0 <= n
            && d.queue == queue[n..]
            && d.active == active + n
    decreases |queue|
  {
    if active <= cap && queue != [] {
      var d := Drain(offset, parts, queue, active, cap);
      assert d == Drain(offset, parts + [InFlight(offset + |parts| + 1, queue[0])], queue[1..], active + 1, cap);
      DrainConsumesPrefix(offset, parts + [InFlight(offset + |parts| + 1, queue[0])], queue[1..], active + 1, cap);
      assert queue[1..][|queue| - |d.queue| - 1..] == queue[|queue| - |d.queue|..];
    } else {
      assert queue[0..] == queue;
    }
  }

  /** The parts a pass appends are its chunks, in order, numbered on from `offset + |parts| + 1`. */
  lemma {:induction false} DrainAppendsNumberedParts(offset: int, parts: seq<PartEntry>, queue: seq<Chunk>, active: int, cap: int)
    ensures AppendsNumbered(offset, parts, queue, active, cap)
    decreases |queue|
  {
    if active <= cap && queue != [] {
      DrainAppendsNumberedParts(offset, parts + [InFlight(offset + |parts| + 1, queue[0])], queue[1..], active + 1, cap);
      DrainAppendsStep(offset, parts, queue, active, cap);
    } else {
      assert queue[..0] == [];
    }
  }

  /** A pass on `parts` and `queue` appends the chunks it reads, numbered on from
      `offset + |parts| + 1`. */
  predicate AppendsNumbered(offset: int, parts: seq<PartEntry>, queue: seq<Chunk>, active: int, cap: int) {
    var d := Drain(offset, parts, queue, active, cap);
    var n := |queue| - |d.queue|;
    0 <= n <= |queue| && d.parts == parts + NumberedChunks(offset + |parts| + 1, queue[..n])
  }

  /** The inductive step: what the rest of the pass appends, preceded by the first chunk's part. */
  lemma DrainAppendsStep(offset: int, parts: seq<PartEntry>, queue: seq<Chunk>, active: int, cap: int)
    requires active <= cap && queue != []
    requires AppendsNumbered(offset, parts + [InFlight(offset + |parts| + 1, queue[0])], queue[1..], active + 1, cap)
    ensures AppendsNumbered(offset, parts, queue, active, cap)
  {
    var number := offset + |parts| + 1;
    var parts' := parts + [InFlight(number, queue[0])];
    var d := Drain(offset, parts, queue, active, cap);
    assert d == Drain(offset, parts', queue[1..], active + 1, cap);
    DrainConsumesPrefix(offset, parts, queue, active, cap);
    var n := |queue| - |d.queue|;
    assert offset + |parts'| + 1 == number + 1;
    NumberedChunksCons(parts, number, queue, n, d.parts);
  }

  /** Numbering a non-empty prefix is numbering its first chunk, then the rest. */
  lemma NumberedChunksCons(parts: seq<PartEntry>, first: int, queue: seq<Chunk>, n: int, all: seq<PartEntry>)
    requires 0 < n <= |queue|
    requires all == (parts + [InFlight(first, queue[0])]) + NumberedChunks(first + 1, queue[1..][..n - 1])
    ensures all == parts + NumberedChunks(first, queue[..n])
  {
    assert queue[..n][1..] == queue[1..][..n - 1];
    assert NumberedChunks(first, queue[..n]) == [InFlight(first, queue[0])] + NumberedChunks(first + 1, queue[1..][..n - 1]);
  }

  /** Why a pass stops: the last read returned null exactly when the counter is still within
      the cap; a cap that fails on the first check leaves everything as it was, with `data`
      still `true`; the `<=` check lets the counter reach `cap + 1` and no further. */
  lemma {:induction false} DrainStops(offset: int, parts: seq<PartEntry>, queue: seq<Chunk>, active: int, cap: int)
    ensures var d := Drain(offset, parts, queue, active, cap);
            && (d.exhausted <==> d.active <= cap)
            && (d.exhausted ==> d.queue == [])
            && d.active <= Max(active, cap + 1)
            && (active > cap ==> d == Drained(parts, queue, active, false))
    decreases |queue|
  {
    if active <= cap && queue != [] {
      DrainStops(offset, parts + [InFlight(offset + |parts| + 1, queue[0])], queue[1..], active + 1, cap);
    }
  }

  /** Numbering survives a pass. */
  lemma DrainKeepsNumbering(offset: int, parts: seq<PartEntry>, queue: seq<Chunk>, active: int, cap: int)
    requires NumberedFrom(offset, parts)
    ensures NumberedFrom(offset, Drain(offset, parts, queue, active, cap).parts)
  {
    DrainAppendsNumberedParts(offset, parts, queue, active, cap);
    var d := Drain(offset, parts, queue, active, cap);
    var n := |queue| - |d.queue|;
    forall i | 0 <= i < |d.parts| && !d.parts[i].Seeded? ensures d.parts[i].Number() == offset + i + 1 {
      if i >= |parts| {
        NumberedChunksAt(offset + |parts| + 1, queue[..n], i - |parts|);
      }
    }
  }

  /** Appending the next part keeps the numbering. */
  lemma AppendKeepsNumbering(offset: int, parts: seq<PartEntry>, chunk: Chunk)
    requires NumberedFrom(offset, parts)
    ensures NumberedFrom(offset, parts + [InFlight(offset + |parts| + 1, chunk)])
  {
    var parts' := parts + [InFlight(offset + |parts| + 1, chunk)];
    forall i | 0 <= i < |parts'| && !parts'[i].Seeded? ensures parts'[i].Number() == offset + i + 1 {
      if i < |parts| {
        assert parts'[i] == parts[i];
      }
    }
  }

  /** A read made once the cap check passed is the first turn of `Drain`, and keeps the numbering. */
  lemma ReadChunkDrains(s: Session, active: int, cap: int)
    requires s.readable.Some? && s.readable.value != [] && active <= cap
    ensures Numbered(s) ==> Numbered(ReadChunk(s))
    ensures Drain(s.partOffset, s.parts, s.readable.value, active, cap)
            == Drain(s.partOffset, ReadChunk(s).parts, ReadChunk(s).readable.value, active + 1, cap)
  {
    if Numbered(s) {
      AppendKeepsNumbering(s.partOffset, s.parts, s.readable.value[0]);
    }
  }

  /** Two parts read from the stream never share a number. */
  lemma NumberedPartsDistinct(s: Session, i: int, j: int)
    requires Numbered(s)
    requires 0 <= i < j < |s.parts| && !s.parts[i].Seeded? && !s.parts[j].Seeded?
    ensures s.parts[i].Number() < s.parts[j].Number()
  {
  }

  /** How a promise stands, and its value once resolved. */
  datatype Settlement<T> = Pending | Rejected | Resolved(value: T)

  /** `Promise.all(partPromises)`: rejected when some part rejected, pending when none rejected
      and some is still in flight, otherwise the part results in submission order. */
  function SettleParts(parts: seq<PartEntry>): (r: Settlement<seq<PartResult>>)
    ensures r.Rejected? <==> exists i :: 0 <= i < |parts| && parts[i].Failed?
    ensures r.Pending? <==>
      (forall i :: 0 <= i < |parts| ==> !parts[i].Failed?) && exists i :: 0 <= i < |parts| && parts[i].InFlight?
    ensures r.Resolved? ==>
      && |r.value| == |parts|
      && forall i :: 0 <= i < |parts| ==> (parts[i].Seeded? || parts[i].Uploaded?) && r.value[i] == parts[i].part
  {
    if parts == [] then Resolved([])
    else
      var rest := SettleParts(parts[1..]);
      assert forall i :: 1 <= i < |parts| ==> parts[i] == parts[1..][i - 1];
      match parts[0]
      case Failed(_) => Rejected
      case InFlight(_, _) => if rest.Rejected? then Rejected else Pending
      case Seeded(p) => if rest.Resolved? then Resolved([p] + rest.value) else rest
      case Uploaded(p) => if rest.Resolved? then Resolved([p] + rest.value) else rest
  }

  /** `Promise.all([createUploadPromise].concat(partPromises))`. */
  function SettleSession(s: Session): (r: Settlement<(Handle, seq<PartResult>)>)
    ensures r.Rejected? <==> s.upload.CreateFailed? || SettleParts(s.parts).Rejected?
    ensures r.Resolved? <==> s.upload.Created? && SettleParts(s.parts).Resolved?
    ensures r.Resolved? ==> r.value == (s.upload.handle, SettleParts(s.parts).value)
    ensures r.Resolved? ==> forall i :: 0 <= i < |s.parts| ==> !s.parts[i].InFlight?
  {
    var parts := SettleParts(s.parts);
    if s.upload.CreateFailed? || parts.Rejected? then Rejected
    else if s.upload.Creating? || parts.Pending? then Pending
    else Resolved((s.upload.handle, parts.value))
  }
}
