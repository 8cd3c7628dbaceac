/**
 The check each upload window starts with: the finalized buffer account, the
 plan and the saved records must agree, and the confirmed records must be an
 unbroken front (scripts/devnet/upload-validation-snapshot.mjs).
 */
module ValidationSnapshot {
  import opened ByteStrings
  import opened ChunkRecords
  import opened Outcomes
  import opened UploadPlan

  datatype SnapshotError =
    | AllocationMismatch | PlanRecordsMismatch | ChunkIndexMismatch | ChunkOutOfBounds | ChunkGapOrOverlap
    | ChunkEvidenceMismatch | ChunkHashMismatch | ConfirmedGap | ConfirmedBytesMismatch | CoverageMismatch

  /** The record describes the same range of the same bytes as the planned chunk. */
  predicate SameEvidence(r: Record, c: Chunk) {
    r.index == c.index && r.offset == c.offset && r.length == c.length && r.sha256 == c.sha256
  }

  /** No confirmed record comes after one that is not. */
  ghost predicate GapFree(records: seq<Record>) {
    forall i, j :: 0 <= i < j < |records| && records[j].status == Confirmed ==> records[i].status == Confirmed
  }

  /** What the check demands of the record and the chunk at one position. */
  ghost predicate AgreesAt(chunks: seq<Chunk>, records: seq<Record>, payload: Bytes, binary: Bytes, i: nat)
    requires i < |chunks| == |records| && |payload| == |binary|
  {
    && ChunkAt(chunks, binary, i)
    && SameEvidence(records[i], chunks[i])
    && (records[i].status == Confirmed ==> Matches(binary, payload, chunks[i]))
  }

  ghost predicate Accepts(chunks: seq<Chunk>, records: seq<Record>, payload: Bytes, binary: Bytes) {
    && |payload| == |binary|
    && |chunks| == |records| > 0
    && (forall i :: 0 <= i < |chunks| ==> AgreesAt(chunks, records, payload, binary, i))
    && End(chunks, |chunks|) == |binary|
    && GapFree(records)
  }

  /** Accepts exactly the agreeing inputs, and then lists the confirmed front. */
  method ValidateConfirmedValidationSnapshot(
      chunks: seq<Chunk>, records: seq<Record>, payload: Bytes, binary: Bytes)
    returns (r: Result<seq<nat>, SnapshotError>)
    ensures r.Ok? <==> Accepts(chunks, records, payload, binary)
    ensures r.Ok? ==>
      && |r.value| <= |records|
      && (forall i :: 0 <= i < |r.value| ==> r.value[i] == i && records[i].status == Confirmed)
      && (forall i :: |r.value| <= i < |records| ==> records[i].status != Confirmed)
    ensures r == Err(ConfirmedGap) ==> !GapFree(records)
    ensures r == Err(ConfirmedBytesMismatch) ==>
      |payload| == |binary| && exists c :: c in chunks && c.offset + c.length <= |binary| && !Matches(binary, payload, c)
  {
    if |payload| != |binary| {
      return Err(AllocationMismatch);
    }
    if |chunks| != |records| || |chunks| == 0 {
      return Err(PlanRecordsMismatch);
    }
    var confirmedIndexes: seq<nat> := [];
    var nextOffset := 0;
    var confirmedPrefixEnded := false;
    for index := 0 to |chunks|
      invariant nextOffset == End(chunks, index)
      invariant forall i :: 0 <= i < index ==> AgreesAt(chunks, records, payload, binary, i)
      invariant |confirmedIndexes| <= index && (confirmedPrefixEnded <==> |confirmedIndexes| < index)
      invariant forall i :: 0 <= i < |confirmedIndexes| ==> confirmedIndexes[i] == i && records[i].status == Confirmed
      invariant forall i :: |confirmedIndexes| <= i < index ==> records[i].status != Confirmed
    {
      var chunk, record := chunks[index], records[index];
      assert AgreesAt(chunks, records, payload, binary, index) <==>
        && ChunkAt(chunks, binary, index) && SameEvidence(record, chunk)
        && (record.status == Confirmed ==> Matches(binary, payload, chunk));
      if chunk.index != index || record.index != index {
        return Err(ChunkIndexMismatch);
      }
      if chunk.length < 1 || chunk.offset + chunk.length > |binary| {
        return Err(ChunkOutOfBounds);
      }
      if chunk.offset != nextOffset {
        return Err(ChunkGapOrOverlap);
      }
      if record.offset != chunk.offset || record.length != chunk.length || record.sha256 != chunk.sha256 {
        return Err(ChunkEvidenceMismatch);
      }
      var expectedBytes := Slice(binary, chunk);
      if Sha256(expectedBytes) != chunk.sha256 {
        return Err(ChunkHashMismatch);
      }
      if record.status == Confirmed {
        if confirmedPrefixEnded {
          assert records[|confirmedIndexes|].status != Confirmed;
          return Err(ConfirmedGap);
        }
        if Slice(payload, chunk) != expectedBytes {
          return Err(ConfirmedBytesMismatch);
        }
        confirmedIndexes := confirmedIndexes + [index];
      } else {
        confirmedPrefixEnded := true;
      }
      nextOffset := chunk.offset + chunk.length;
    }
    if nextOffset != |binary| {
      return Err(CoverageMismatch);
    }
    return Ok(confirmedIndexes);
  }
}
