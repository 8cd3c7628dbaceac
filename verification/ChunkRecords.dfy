/**
 The chunk records of the upload state file: their statuses, the transitions
 between statuses, and the check every saved list of records passes
 (scripts/devnet/state.mjs, scripts/devnet/throttled-uploader.mjs).
 */
module ChunkRecords {
  import opened ByteStrings
  import opened Outcomes

  /** Largest integer JavaScript represents exactly together with its successor. */
  const MAX_SAFE_INTEGER: int := 0x1F_FFFF_FFFF_FFFF

  datatype Status = Planned | Sent | Unknown | Confirmed | Failed

  datatype Record = Record(
    index: int,
    offset: int,
    length: int,
    sha256: Digest,
    status: Status,
    signature: Option<string>,
    confirmationDurationMs: Option<int>)

  /** The transition table: nothing leads back to Planned, and Confirmed and Failed are final. */
  predicate Allowed(from: Status, to: Status) {
    match from
    case Planned => to == Sent || to == Confirmed
    case Sent => to == Confirmed || to == Failed || to == Unknown
    case Unknown => to == Confirmed || to == Failed || to == Unknown
    case Confirmed => to == Confirmed
    case Failed => to == Failed
  }

  // ----- what a valid list of records is

  /** The checks that concern one record and its position. */
  predicate RecordFits(r: Record, position: nat, offset: int) {
    && r.index == position
    && r.offset == offset
    && r.length >= 1
    && r.sha256.Sha256?
    && r.signature != Some("")
    && (r.status == Sent || r.status == Failed || r.status == Unknown ==> r.signature.Some?)
    && (r.status == Planned ==> r.signature.None?)
    && (r.confirmationDurationMs.Some? ==>
          r.status == Confirmed && 0 <= r.confirmationDurationMs.value <= MAX_SAFE_INTEGER)
  }

  /** Where the record at `i` has to start. */
  function StartOf(records: seq<Record>, i: nat): int
    requires i <= |records|
  {
    if i == 0 then 0 else records[i - 1].offset + records[i - 1].length
  }

  ghost predicate FreshSignature(records: seq<Record>, i: nat)
    requires i < |records|
  {
    records[i].signature.Some? ==> forall k :: 0 <= k < i ==> records[k].signature != records[i].signature
  }

  ghost predicate FitsAt(records: seq<Record>, i: nat)
    requires i < |records|
  {
    RecordFits(records[i], i, StartOf(records, i)) && FreshSignature(records, i)
  }

  ghost predicate ValidUpTo(records: seq<Record>, n: nat)
    requires n <= |records|
  {
    forall i :: 0 <= i < n ==> FitsAt(records, i)
  }

  /** Records are numbered in order and adjoin one another, and no two share a signature. */
  ghost predicate ValidRecords(records: seq<Record>) {
    ValidUpTo(records, |records|)
  }

  // ----- the check

  datatype RecordError =
    | DuplicateIndex | IndexOrder | OffsetGapOrOverlap | InvalidHash | InvalidSignature
    | SignatureRequired | PlannedSignature | InvalidDuration | DuplicateSignature

  /** What is wrong with the record at `at`, in the terms of the error reported for it. */
  ghost predicate Explains(error: RecordError, records: seq<Record>, at: nat)
    requires at < |records|
  {
    var r := records[at];
    match error
    case DuplicateIndex => exists i :: 0 <= i < at && records[i].index == r.index
    case IndexOrder => r.index != at
    case OffsetGapOrOverlap => r.offset != StartOf(records, at) || r.length < 1
    case InvalidHash => r.sha256.NotAHash?
    case InvalidSignature => r.signature == Some("")
    case SignatureRequired => r.signature.None? && r.status in {Sent, Failed, Unknown}
    case PlannedSignature => r.signature.Some? && r.status == Planned
    case InvalidDuration =>
      && r.confirmationDurationMs.Some?
      && (r.status != Confirmed || !(0 <= r.confirmationDurationMs.value <= MAX_SAFE_INTEGER))
    case DuplicateSignature =>
      r.signature.Some? && exists i :: 0 <= i < at && records[i].signature == r.signature
  }

  ghost predicate Signed(records: seq<Record>, n: nat, signature: string)
    requires n <= |records|
  {
    exists i :: 0 <= i < n && records[i].signature == Some(signature)
  }

  /** The checks of one record that need only the offset it has to start at, in their order. */
  function RecordFault(r: Record, expectedOffset: int): (fault: Option<RecordError>)
    ensures fault.None? <==> RecordFits(r.(index := 0), 0, expectedOffset)
  {
    if r.offset != expectedOffset || r.length < 1 then Some(OffsetGapOrOverlap)
    else if !r.sha256.Sha256? then Some(InvalidHash)
    else if r.signature == Some("") then Some(InvalidSignature)
    else if (r.status == Sent || r.status == Failed || r.status == Unknown) && r.signature.None? then
      Some(SignatureRequired)
    else if r.status == Planned && r.signature.Some? then Some(PlannedSignature)
    else if r.confirmationDurationMs.Some? &&
            (r.status != Confirmed || !(0 <= r.confirmationDurationMs.value <= MAX_SAFE_INTEGER)) then
      Some(InvalidDuration)
    else None
  }

  /** Accepts exactly the valid lists; otherwise names the first bad record and its fault. */
  method ValidateChunkRecords(records: seq<Record>) returns (r: Result<(), (nat, RecordError)>)
    ensures r.Ok? <==> ValidRecords(records)
    ensures r.Err? ==>
      && r.error.0 < |records|
      && ValidUpTo(records, r.error.0)
      && !ValidUpTo(records, r.error.0 + 1)
      && Explains(r.error.1, records, r.error.0)
  {
    hide ValidUpTo, Signed, Explains, RecordFault;
    assert ValidUpTo(records, 0) && forall s :: !Signed(records, 0, s) by {
      EmptyPrefix(records);
    }
    var expectedOffset := 0;
    var indices: set<int>, signatures: set<string> := {}, {};
    for at := 0 to |records|
      invariant ValidUpTo(records, at)
      invariant expectedOffset == StartOf(records, at)
      invariant forall i: int :: i in indices <==> 0 <= i < at
      invariant |indices| == at
      invariant forall s :: s in signatures <==> Signed(records, at, s)
    {
      var record := records[at];
      OneMore(records, at);
      if record.index in indices {
        return Err((at, DuplicateIndex));
      }
      if record.index != |indices| {
        return Err((at, IndexOrder));
      }
      var fault := RecordFault(record, expectedOffset);
      if fault.Some? {
        return Err((at, fault.value));
      }
      if record.signature.Some? && record.signature.value in signatures {
        return Err((at, DuplicateSignature));
      }
      indices := indices + {record.index};
      signatures := if record.signature.Some? then signatures + {record.signature.value} else signatures;
      expectedOffset := expectedOffset + record.length;
    }
    return Ok(());
  }

  lemma {:induction false} EmptyPrefix(records: seq<Record>)
    ensures ValidUpTo(records, 0) && forall s :: !Signed(records, 0, s)
  {
  }

  /** What one more record means for the checks, fault by fault. */
  lemma {:induction false} OneMore(records: seq<Record>, at: nat)
    requires at < |records| && ValidUpTo(records, at)
    ensures var r, fault := records[at], RecordFault(records[at], StartOf(records, at));
      && (ValidRecords(records) ==> ValidUpTo(records, at + 1))
      && (ValidUpTo(records, at + 1) <==>
            && r.index == at && fault.None?
            && (r.signature.Some? ==> !Signed(records, at, r.signature.value)))
      && (0 <= r.index < at ==> Explains(DuplicateIndex, records, at))
      && (r.index != at ==> Explains(IndexOrder, records, at))
      && (fault.Some? ==> Explains(fault.value, records, at))
      && (r.signature.Some? && Signed(records, at, r.signature.value) ==> Explains(DuplicateSignature, records, at))
      && forall s :: Signed(records, at + 1, s) <==> Signed(records, at, s) || r.signature == Some(s)
  {
    var r := records[at];
    if 0 <= r.index < at {
      assert FitsAt(records, r.index);
    }
    assert ValidRecords(records) ==> FitsAt(records, at);
    assert RecordFits(r, at, StartOf(records, at)) <==>
      r.index == at && RecordFault(r, StartOf(records, at)).None?;
    assert r.signature.Some? ==> (FreshSignature(records, at) <==> !Signed(records, at, r.signature.value));
    assert ValidUpTo(records, at + 1) <==> FitsAt(records, at);
  }

  // ----- ranges

  /** In a valid list every record's range ends before the later ones begin. */
  lemma {:induction false} RangesInOrder(records: seq<Record>, i: nat, j: nat)
    requires ValidRecords(records) && i < j < |records|
    ensures 0 <= records[i].offset && records[i].offset + records[i].length <= records[j].offset
    decreases j
  {
    assert FitsAt(records, i) && FitsAt(records, j);
    if i > 0 {
      RangesInOrder(records, i - 1, i);
      assert FitsAt(records, i - 1);
    }
    if i < j - 1 {
      RangesInOrder(records, i, j - 1);
      assert FitsAt(records, j - 1);
    }
  }

  // ----- one record at a time

  /** Rewriting one record in place keeps a list valid when the record fits and its signature is its own. */
  lemma {:induction false} UpdateStaysValid(records: seq<Record>, k: nat, r: Record)
    requires ValidRecords(records) && k < |records|
    requires r.offset == records[k].offset && r.length == records[k].length
    requires RecordFits(r, k, StartOf(records, k))
    requires r.signature == records[k].signature ||
      forall i :: 0 <= i < |records| && i != k ==> records[i].signature != r.signature
    ensures ValidRecords(records[k := r])
  {
    var next := records[k := r];
    forall i | 0 <= i < |next|
      ensures FitsAt(next, i)
    {
      assert FitsAt(records, i) && FitsAt(records, k);
      assert StartOf(next, i) == StartOf(records, i);
    }
  }
}
