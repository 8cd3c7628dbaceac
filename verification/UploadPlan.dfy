/**
 Cutting a binary into chunks that each fit one write transaction, and what
 writing the chunks does to the on-chain buffer (scripts/devnet/upload-plan.mjs).
 */
module UploadPlan {
  import opened ByteStrings
  import opened ChunkRecords
  import opened Outcomes

  const PACKET_DATA_SIZE: nat := 1232
  const SAFETY_MARGIN: nat := 1

  /** Serialized size of a write with a payload of the given length, or None when it is refused as too large. */
  type WriteSize = nat -> Option<nat>

  predicate Fits(size: WriteSize, payload: nat) {
    size(payload).Some? && size(payload).value <= PACKET_DATA_SIZE - SAFETY_MARGIN
  }

  /** A longer payload never makes a smaller transaction, and a transaction holds its payload. */
  ghost predicate Monotone(size: WriteSize) {
    && (forall a: nat, b: nat :: a <= b && Fits(size, b) ==> Fits(size, a))
    && (forall a: nat :: Fits(size, a) ==> a <= size(a).value)
  }

  /** Binary search for the greatest payload that fits; 0 when none does. */
  method DeriveMaxWritePayload(size: WriteSize) returns (low: nat)
    ensures low == 0 || Fits(size, low)
    ensures Monotone(size) ==> forall payload: nat :: Fits(size, payload) ==> payload <= low
  {
    low := 0;
    var high := PACKET_DATA_SIZE;
    while low < high
      invariant low <= high <= PACKET_DATA_SIZE
      invariant low == 0 || Fits(size, low)
      invariant Monotone(size) ==> forall payload: nat :: Fits(size, payload) ==> payload <= high
    {
      var candidate := (low + high + 1) / 2;
      if Fits(size, candidate) {
        low := candidate;
      } else {
        high := candidate - 1;
      }
    }
  }

  // ----- the plan

  datatype Chunk = Chunk(index: nat, offset: nat, length: nat, sha256: Digest, exactMatch: bool)

  datatype Plan = Plan(
    maxPayload: nat,
    chunks: seq<Chunk>,
    totalChunks: nat,
    exactChunks: nat,
    remainingChunks: nat,
    exactBinaryMatch: bool)

  datatype PlanError = InvalidInput | PacketTooLarge

  function Slice(bytes: Bytes, c: Chunk): Bytes
    requires c.offset + c.length <= |bytes|
  {
    bytes[c.offset..c.offset + c.length]
  }

  function End(chunks: seq<Chunk>, i: nat): nat
    requires i <= |chunks|
  {
    if i == 0 then 0 else chunks[i - 1].offset + chunks[i - 1].length
  }

  /** The chunk at position `i` starts where the one before ends and carries the digest of its bytes. */
  ghost predicate ChunkAt(chunks: seq<Chunk>, binary: Bytes, i: nat)
    requires i < |chunks|
  {
    var c := chunks[i];
    && c.index == i && c.offset == End(chunks, i) && c.length >= 1
    && c.offset + c.length <= |binary|
    && c.sha256 == Sha256(Slice(binary, c))
  }

  /** The chunks are the binary cut into adjoining non-empty pieces. */
  ghost predicate Partition(chunks: seq<Chunk>, binary: Bytes) {
    && (forall i :: 0 <= i < |chunks| ==> ChunkAt(chunks, binary, i))
    && End(chunks, |chunks|) == |binary|
  }

  predicate Matches(binary: Bytes, buffer: Bytes, c: Chunk)
    requires |binary| == |buffer| && c.offset + c.length <= |binary|
  {
    Slice(buffer, c) == Slice(binary, c)
  }

  /** Every piece but the last has the full payload, and the flags say which pieces the buffer already holds. */
  ghost predicate PlanFor(chunks: seq<Chunk>, binary: Bytes, buffer: Bytes, maxPayload: nat)
    requires |binary| == |buffer|
  {
    && Partition(chunks, binary)
    && forall i :: 0 <= i < |chunks| ==>
        && ChunkAt(chunks, binary, i)
        && chunks[i].length <= maxPayload
        && (i < |chunks| - 1 ==> chunks[i].length == maxPayload)
        && (chunks[i].exactMatch <==> Matches(binary, buffer, chunks[i]))
  }

  function CountExact(chunks: seq<Chunk>): nat {
    if chunks == [] then 0
    else CountExact(chunks[..|chunks| - 1]) + if chunks[|chunks| - 1].exactMatch then 1 else 0
  }

  /** Serialized size of a write instruction's transaction, by offset and payload length. */
  type TransactionSize = (nat, nat) -> nat

  /** The `k`th piece of a binary of `total` bytes makes a transaction below the ceiling. */
  ghost predicate PieceFits(size: TransactionSize, total: nat, maxPayload: nat, k: nat) {
    var offset := k * maxPayload;
    offset < total ==>
      size(offset, if offset + maxPayload < total then maxPayload else total - offset)
        <= PACKET_DATA_SIZE - SAFETY_MARGIN
  }

  /** Refuses exactly the inputs that do not fit together and the cuts with a piece too large to send. */
  method PlanBufferUpload(local: Bytes, current: Bytes, maxPayload: int, size: TransactionSize)
    returns (r: Result<Plan, PlanError>)
    ensures r == Err(InvalidInput) <==> |local| != |current| || maxPayload < 1
    ensures |local| == |current| && maxPayload >= 1 ==>
      (r.Ok? <==> forall k: nat :: PieceFits(size, |local|, maxPayload, k))
    ensures r.Ok? ==>
      && PlanFor(r.value.chunks, local, current, maxPayload)
      && r.value.maxPayload == maxPayload
      && r.value.totalChunks == |r.value.chunks|
      && r.value.exactChunks == CountExact(r.value.chunks)
      && r.value.exactChunks + r.value.remainingChunks == r.value.totalChunks
      && (r.value.exactBinaryMatch <==> local == current)
      && (r.value.exactBinaryMatch <==> r.value.remainingChunks == 0)
  {
    hide PieceFits, PlanFor;
    if |local| != |current| || maxPayload < 1 {
      return Err(InvalidInput);
    }
    var chunks :- CutChunks(local, current, maxPayload, size);
    var exact := 0;
    for i := 0 to |chunks|
      invariant exact == CountExact(chunks[..i]) <= i
    {
      if chunks[i].exactMatch {
        exact := exact + 1;
      }
      assert chunks[..i + 1][..i] == chunks[..i];
    }
    assert chunks[..|chunks|] == chunks;
    AllExactIsEqual(chunks, local, current, maxPayload);
    r := Ok(Plan(maxPayload, chunks, |chunks|, exact, |chunks| - exact, local == current));
  }

  method CutChunks(local: Bytes, current: Bytes, maxPayload: nat, size: TransactionSize)
    returns (r: Result<seq<Chunk>, PlanError>)
    requires |local| == |current| && maxPayload >= 1
    ensures r.Ok? <==> forall k: nat :: PieceFits(size, |local|, maxPayload, k)
    ensures r.Ok? ==> PlanFor(r.value, local, current, maxPayload)
    ensures r.Err? ==> r.error == PacketTooLarge
  {
    hide PieceFits, StartsPiece, PlannedAt;
    var chunks: seq<Chunk> := [];
    var offset, index := 0, 0;
    FirstPiece(maxPayload);
    while offset < |local|
      invariant index == |chunks| && StartsPiece(offset, index, maxPayload)
      invariant End(chunks, |chunks|) == if offset < |local| then offset else |local|
      invariant forall i :: 0 <= i < |chunks| ==> PlannedAt(chunks, local, current, maxPayload, i)
      invariant forall i :: 0 <= i < |chunks| && (i < |chunks| - 1 || offset < |local|) ==> chunks[i].length == maxPayload
      invariant forall k: nat :: k < index ==> PieceFits(size, |local|, maxPayload, k)
      decreases |local| - offset
    {
      var end := if offset + maxPayload < |local| then offset + maxPayload else |local|;
      var bytes := local[offset..end];
      NextPiece(size, |local|, maxPayload, index, offset);
      if size(offset, |bytes|) > PACKET_DATA_SIZE - SAFETY_MARGIN {
        return Err(PacketTooLarge);
      }
      var chunk := Chunk(index, offset, |bytes|, Sha256(bytes), bytes == current[offset..end]);
      MorePlanned(chunks, chunk, local, current, maxPayload);
      chunks := chunks + [chunk];
      offset := offset + maxPayload;
      index := index + 1;
    }
    NoMorePieces(size, |local|, maxPayload, index, offset);
    PlannedIsPlan(chunks, local, current, maxPayload);
    r := Ok(chunks);
  }

  ghost predicate StartsPiece(offset: nat, k: nat, maxPayload: nat) {
    offset == k * maxPayload
  }

  lemma {:induction false} FirstPiece(maxPayload: nat)
    ensures StartsPiece(0, 0, maxPayload)
  {
  }

  lemma {:induction false} NextPiece(size: TransactionSize, total: nat, maxPayload: nat, k: nat, offset: nat)
    requires StartsPiece(offset, k, maxPayload) && offset < total
    ensures StartsPiece(offset + maxPayload, k + 1, maxPayload)
    ensures PieceFits(size, total, maxPayload, k) <==>
      size(offset, if offset + maxPayload < total then maxPayload else total - offset)
        <= PACKET_DATA_SIZE - SAFETY_MARGIN
  {
    NextMultiple(k, maxPayload);
  }

  lemma {:induction false} NoMorePieces(size: TransactionSize, total: nat, maxPayload: nat, k: nat, offset: nat)
    requires StartsPiece(offset, k, maxPayload) && offset >= total
    ensures forall later: nat :: later >= k ==> PieceFits(size, total, maxPayload, later)
  {
    forall later: nat | later >= k
      ensures PieceFits(size, total, maxPayload, later)
    {
      MultipleOrder(k, later, maxPayload);
    }
  }

  lemma {:induction false} PlannedIsPlan(chunks: seq<Chunk>, local: Bytes, current: Bytes, maxPayload: nat)
    requires |local| == |current| && End(chunks, |chunks|) == |local|
    requires forall i :: 0 <= i < |chunks| ==> PlannedAt(chunks, local, current, maxPayload, i)
    requires forall i :: 0 <= i < |chunks| - 1 ==> chunks[i].length == maxPayload
    ensures PlanFor(chunks, local, current, maxPayload)
  {
    forall i | 0 <= i < |chunks|
      ensures ChunkAt(chunks, local, i) && chunks[i].length <= maxPayload
      ensures chunks[i].exactMatch <==> Matches(local, current, chunks[i])
    {
      assert PlannedAt(chunks, local, current, maxPayload, i);
    }
  }

  ghost predicate PlannedAt(chunks: seq<Chunk>, local: Bytes, current: Bytes, maxPayload: nat, i: nat)
    requires i < |chunks| && |local| == |current|
  {
    && ChunkAt(chunks, local, i)
    && chunks[i].length <= maxPayload
    && (chunks[i].exactMatch <==> Matches(local, current, chunks[i]))
  }

  lemma {:induction false} MorePlanned(chunks: seq<Chunk>, chunk: Chunk, local: Bytes, current: Bytes, maxPayload: nat)
    requires |local| == |current|
    requires forall i :: 0 <= i < |chunks| ==> PlannedAt(chunks, local, current, maxPayload, i)
    requires chunk.index == |chunks| && chunk.offset == End(chunks, |chunks|) && 1 <= chunk.length <= maxPayload
    requires chunk.offset + chunk.length <= |local| && chunk.sha256 == Sha256(Slice(local, chunk))
    requires chunk.exactMatch <==> Matches(local, current, chunk)
    ensures forall i :: 0 <= i < |chunks + [chunk]| ==> PlannedAt(chunks + [chunk], local, current, maxPayload, i)
  {
    var more := chunks + [chunk];
    forall i | 0 <= i < |more|
      ensures PlannedAt(more, local, current, maxPayload, i)
    {
      assert End(more, i) == End(chunks, i);
      assert i < |chunks| ==> PlannedAt(chunks, local, current, maxPayload, i);
    }
  }

  lemma {:induction false} NextMultiple(k: nat, m: nat)
    ensures (k + 1) * m == k * m + m
  {
  }

  lemma {:induction false} MultipleOrder(i: nat, k: nat, m: nat)
    requires i <= k
    ensures i * m <= k * m
  {
    if i < k {
      MultipleOrder(i, k - 1, m);
      NextMultiple(k - 1, m);
    }
  }

  lemma {:induction false} AllExact(chunks: seq<Chunk>)
    ensures CountExact(chunks) <= |chunks|
    ensures CountExact(chunks) == |chunks| <==> forall i :: 0 <= i < |chunks| ==> chunks[i].exactMatch
  {
    if chunks != [] {
      AllExact(chunks[..|chunks| - 1]);
    }
  }

  lemma {:induction false} AllExactIsEqual(chunks: seq<Chunk>, local: Bytes, current: Bytes, maxPayload: nat)
    requires |local| == |current| && PlanFor(chunks, local, current, maxPayload)
    ensures CountExact(chunks) <= |chunks|
    ensures CountExact(chunks) == |chunks| <==> local == current
  {
    AllExact(chunks);
    AllMatchedIsEqual(chunks, local, current);
  }

  /** The offset of a write does not change its size: it always takes four bytes. */
  ghost predicate OffsetIsFixedWidth(payloadSize: WriteSize, size: TransactionSize) {
    forall offset: nat, length: nat :: payloadSize(length).Some? ==> size(offset, length) == payloadSize(length).value
  }

  /**
   Planning with the payload limit derived for this buffer, which is what happens when
   no limit is given: it succeeds exactly when the lengths agree and a write of one
   byte fits. A derived limit of 0 is refused, and with any other no piece is.
   */
  method PlanWithDerivedPayload(local: Bytes, current: Bytes, payloadSize: WriteSize, size: TransactionSize)
    returns (r: Result<Plan, PlanError>)
    ensures Monotone(payloadSize) && OffsetIsFixedWidth(payloadSize, size) ==>
      (r.Ok? <==> |local| == |current| && Fits(payloadSize, 1))
    ensures Monotone(payloadSize) && !Fits(payloadSize, 1) ==> r == Err(InvalidInput)
    ensures r.Ok? ==> |local| == |current| && PlanFor(r.value.chunks, local, current, r.value.maxPayload)
    ensures r.Ok? ==> Fits(payloadSize, r.value.maxPayload)
    ensures r.Ok? && Monotone(payloadSize) ==>
      forall payload: nat :: Fits(payloadSize, payload) ==> payload <= r.value.maxPayload
  {
    hide PieceFits, PlanFor, Fits;
    var maxPayload := DeriveMaxWritePayload(payloadSize);
    r := PlanBufferUpload(local, current, maxPayload, size);
    if Monotone(payloadSize) && OffsetIsFixedWidth(payloadSize, size) && maxPayload >= 1 {
      DerivedPayloadIsNeverTooLarge(payloadSize, size, |local|, maxPayload);
    }
  }

  /** With the derived payload limit, and a size that ignores the offset, no piece is refused. */
  lemma {:induction false} DerivedPayloadIsNeverTooLarge(payloadSize: WriteSize, size: TransactionSize, total: nat, maxPayload: nat)
    requires Monotone(payloadSize) && Fits(payloadSize, maxPayload) && OffsetIsFixedWidth(payloadSize, size)
    ensures forall k: nat :: PieceFits(size, total, maxPayload, k)
  {
    forall k: nat
      ensures PieceFits(size, total, maxPayload, k)
    {
      var offset := k * maxPayload;
      if offset < total {
        assert Fits(payloadSize, if offset + maxPayload < total then maxPayload else total - offset);
      }
    }
  }

  // ----- the records of a fresh plan

  function InitialRecord(c: Chunk): Record {
    Record(c.index, c.offset, c.length, c.sha256, Planned, None, None)
  }

  function InitialRecords(chunks: seq<Chunk>): (records: seq<Record>)
    ensures |records| == |chunks|
    ensures forall i :: 0 <= i < |chunks| ==> records[i] == InitialRecord(chunks[i])
  {
    seq(|chunks|, i requires 0 <= i < |chunks| => InitialRecord(chunks[i]))
  }

  lemma {:induction false} InitialRecordsAreValid(chunks: seq<Chunk>, binary: Bytes)
    requires Partition(chunks, binary)
    ensures ValidRecords(InitialRecords(chunks))
  {
    var records := InitialRecords(chunks);
    forall i | 0 <= i < |records|
      ensures FitsAt(records, i)
    {
      assert ChunkAt(chunks, binary, i);
    }
  }

  // ----- writes

  /** A write of one chunk of the binary. */
  function Write(buffer: Bytes, binary: Bytes, c: Chunk): (r: Bytes)
    requires |buffer| == |binary| && c.offset + c.length <= |binary|
    ensures |r| == |binary|
    ensures forall p :: 0 <= p < |r| ==> r[p] == if c.offset <= p < c.offset + c.length then binary[p] else buffer[p]
  {
    buffer[..c.offset] + Slice(binary, c) + buffer[c.offset + c.length..]
  }

  /** Between two observations each byte either stayed or became the binary's. */
  ghost predicate Evolves(before: Bytes, after: Bytes, binary: Bytes) {
    && |before| == |after| == |binary|
    && forall p :: 0 <= p < |binary| ==> after[p] == before[p] || after[p] == binary[p]
  }

  /** Position `p` lies in the range of one of the chosen chunks. */
  ghost predicate InChunks(chunks: seq<Chunk>, chosen: set<nat>, p: nat) {
    exists i :: i in chosen && i < |chunks| && chunks[i].offset <= p < chunks[i].offset + chunks[i].length
  }

  lemma {:induction false} EvolvesTransitively(a: Bytes, b: Bytes, c: Bytes, binary: Bytes)
    requires Evolves(a, b, binary) && Evolves(b, c, binary)
    ensures Evolves(a, c, binary)
  {
  }

  lemma {:induction false} WriteEvolves(buffer: Bytes, binary: Bytes, c: Chunk)
    requires |buffer| == |binary| && c.offset + c.length <= |binary|
    ensures Evolves(buffer, Write(buffer, binary, c), binary)
    ensures Matches(binary, Write(buffer, binary, c), c)
  {
  }

  /** What matched stays matched. */
  lemma {:induction false} MatchedStaysMatched(before: Bytes, after: Bytes, binary: Bytes, c: Chunk)
    requires Evolves(before, after, binary) && c.offset + c.length <= |binary|
    requires Matches(binary, before, c)
    ensures Matches(binary, after, c)
  {
    forall p | 0 <= p < c.length
      ensures Slice(after, c)[p] == Slice(binary, c)[p]
    {
      assert Slice(before, c)[p] == before[c.offset + p];
      assert Slice(binary, c)[p] == binary[c.offset + p];
    }
  }

  /** Applies the writes of the chunks at the given positions, in order. */
  function WriteAll(buffer: Bytes, binary: Bytes, chunks: seq<Chunk>, order: seq<nat>): (r: Bytes)
    requires |buffer| == |binary| && (forall i :: 0 <= i < |chunks| ==> chunks[i].offset + chunks[i].length <= |binary|)
    requires forall k :: 0 <= k < |order| ==> order[k] < |chunks|
    ensures |r| == |binary|
  {
    if order == [] then buffer
    else Write(WriteAll(buffer, binary, chunks, order[..|order| - 1]), binary, chunks[order[|order| - 1]])
  }

  lemma {:induction false} WriteAllEvolves(buffer: Bytes, binary: Bytes, chunks: seq<Chunk>, order: seq<nat>)
    requires |buffer| == |binary| && (forall i :: 0 <= i < |chunks| ==> chunks[i].offset + chunks[i].length <= |binary|)
    requires forall k :: 0 <= k < |order| ==> order[k] < |chunks|
    ensures Evolves(buffer, WriteAll(buffer, binary, chunks, order), binary)
    ensures forall k :: 0 <= k < |order| ==>
      Matches(binary, WriteAll(buffer, binary, chunks, order), chunks[order[k]])
  {
    if order != [] {
      var front, last := order[..|order| - 1], chunks[order[|order| - 1]];
      var middle := WriteAll(buffer, binary, chunks, front);
      WriteAllEvolves(buffer, binary, chunks, front);
      WriteEvolves(middle, binary, last);
      forall k | 0 <= k < |front|
        ensures Matches(binary, Write(middle, binary, last), chunks[order[k]])
      {
        assert front[k] == order[k];
        MatchedStaysMatched(middle, Write(middle, binary, last), binary, chunks[order[k]]);
      }
    }
  }

  /** The chunk that holds a position. */
  lemma {:induction false} Covered(chunks: seq<Chunk>, binary: Bytes, p: nat, n: nat) returns (i: nat)
    requires Partition(chunks, binary) && n <= |chunks| && p < End(chunks, n)
    ensures i < n && chunks[i].offset <= p < chunks[i].offset + chunks[i].length
  {
    assert ChunkAt(chunks, binary, n - 1);
    if p < chunks[n - 1].offset {
      i := Covered(chunks, binary, p, n - 1);
    } else {
      i := n - 1;
    }
  }

  lemma {:induction false} InBounds(chunks: seq<Chunk>, binary: Bytes)
    requires forall i :: 0 <= i < |chunks| ==> ChunkAt(chunks, binary, i)
    ensures forall i :: 0 <= i < |chunks| ==> chunks[i].offset + chunks[i].length <= |binary|
  {
    forall i | 0 <= i < |chunks|
      ensures chunks[i].offset + chunks[i].length <= |binary|
    {
      assert ChunkAt(chunks, binary, i);
    }
  }

  /** Every chunk matches exactly when the whole buffer is the binary. */
  lemma {:induction false} AllMatchedIsEqual(chunks: seq<Chunk>, binary: Bytes, buffer: Bytes)
    requires Partition(chunks, binary) && |binary| == |buffer|
    ensures (forall i :: 0 <= i < |chunks| ==> ChunkAt(chunks, binary, i) && Matches(binary, buffer, chunks[i]))
       <==> buffer == binary
  {
    InBounds(chunks, binary);
    if forall i :: 0 <= i < |chunks| ==> Matches(binary, buffer, chunks[i]) {
      forall p | 0 <= p < |binary|
        ensures buffer[p] == binary[p]
      {
        var i := Covered(chunks, binary, p, |chunks|);
        var c := chunks[i];
        assert Matches(binary, buffer, c);
        assert Slice(buffer, c)[p - c.offset] == Slice(binary, c)[p - c.offset];
      }
    }
  }

  /** Writing the remaining chunks in any order, any of them more than once, completes the buffer. */
  lemma {:induction false} RemainingWritesComplete(chunks: seq<Chunk>, binary: Bytes, buffer: Bytes, order: seq<nat>, maxPayload: nat)
    requires |binary| == |buffer| && PlanFor(chunks, binary, buffer, maxPayload)
    requires forall k :: 0 <= k < |order| ==> order[k] < |chunks|
    requires forall i :: 0 <= i < |chunks| && !chunks[i].exactMatch ==> i in order
    ensures forall i :: 0 <= i < |chunks| ==> chunks[i].offset + chunks[i].length <= |binary|
    ensures WriteAll(buffer, binary, chunks, order) == binary
  {
    InBounds(chunks, binary);
    var final := WriteAll(buffer, binary, chunks, order);
    WriteAllEvolves(buffer, binary, chunks, order);
    forall i | 0 <= i < |chunks|
      ensures ChunkAt(chunks, binary, i) && Matches(binary, final, chunks[i])
    {
      if chunks[i].exactMatch {
        MatchedStaysMatched(buffer, final, binary, chunks[i]);
      }
    }
    AllMatchedIsEqual(chunks, binary, final);
  }
}
