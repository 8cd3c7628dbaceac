/**
 What one uploader does to the outside world, action by action: it saves the
 state file and it hands write transactions to the network. The rules here are
 the ones that keep a crash between any two actions harmless.
 */
module UploadTrace {
  import opened ByteStrings
  import opened ChunkRecords
  import opened Outcomes
  import opened UploadPlan

  /** Saving replaces the whole list of records; handing sends the write of one chunk. */
  datatype Action = Saved(index: nat, records: seq<Record>) | Handed(index: nat, signature: string)

  /** The records on disk, and the chunk whose SENT record was the last thing saved, if it has not been sent since. */
  datatype Progress = Progress(records: seq<Record>, armed: Option<nat>)

  /** Only the status, the signature and the duration of a record may change, and a signature is never replaced. */
  predicate Rewrites(before: Record, after: Record) {
    && after.index == before.index && after.offset == before.offset
    && after.length == before.length && after.sha256 == before.sha256
    && Allowed(before.status, after.status)
    && (before.signature.Some? ==> after.signature == before.signature)
  }

  /** Everything before position `n` is confirmed, and nothing after it is under way. */
  ghost predicate FrontIs(records: seq<Record>, n: nat) {
    && n <= |records|
    && (forall i :: 0 <= i < n ==> records[i].status == Confirmed)
    && (forall i :: n < i < |records| ==> records[i].status == Planned || records[i].status == Confirmed)
  }

  /** The signature is the one record `i` has, or one that no record has. */
  predicate OwnSignature(records: seq<Record>, i: nat, signature: Option<string>)
    requires i < |records|
  {
    signature == records[i].signature || forall j :: 0 <= j < |records| ==> records[j].signature != signature
  }

  /**
   A save changes one record by an allowed transition, and to SENT only behind a
   confirmed front; a send follows the save of its SENT record.
   */
  ghost predicate Legal(p: Progress, a: Action) {
    match a
    case Saved(i, records) =>
      && i < |p.records| == |records|
      && records == p.records[i := records[i]]
      && Rewrites(p.records[i], records[i])
      && RecordFits(records[i], i, records[i].offset)
      && OwnSignature(p.records, i, records[i].signature)
      && (records[i].status == Sent ==> FrontIs(records, i))
    case Handed(i, signature) =>
      && p.armed == Some(i) && i < |p.records|
      && p.records[i].signature == Some(signature)
  }

  function After(p: Progress, a: Action): Progress {
    match a
    case Saved(i, records) =>
      Progress(records, if i < |records| && records[i].status == Sent then Some(i) else None)
    case Handed(i, _) => Progress(p.records, None)
  }

  ghost function Replay(p: Progress, trace: seq<Action>): Progress {
    if trace == [] then p else After(Replay(p, trace[..|trace| - 1]), trace[|trace| - 1])
  }

  ghost predicate LegalTrace(p: Progress, trace: seq<Action>) {
    trace == [] ||
    (LegalTrace(p, trace[..|trace| - 1]) && Legal(Replay(p, trace[..|trace| - 1]), trace[|trace| - 1]))
  }

  lemma {:induction false} Extend(p: Progress, trace: seq<Action>, a: Action)
    requires LegalTrace(p, trace) && Legal(Replay(p, trace), a)
    ensures LegalTrace(p, trace + [a])
    ensures Replay(p, trace + [a]) == After(Replay(p, trace), a)
  {
    assert (trace + [a])[..|trace|] == trace;
  }

  function CountHanded(trace: seq<Action>): nat {
    if trace == [] then 0
    else CountHanded(trace[..|trace| - 1]) + if trace[|trace| - 1].Handed? then 1 else 0
  }

  lemma {:induction false} ExtendCount(trace: seq<Action>, a: Action)
    ensures CountHanded(trace + [a]) == CountHanded(trace) + if a.Handed? then 1 else 0
  {
    assert (trace + [a])[..|trace|] == trace;
  }

  /** A legal save of a valid list leaves a valid list. */
  lemma {:induction false} LegalSaveIsValid(p: Progress, i: nat, records: seq<Record>)
    requires Legal(p, Saved(i, records)) && ValidRecords(p.records)
    ensures ValidRecords(records)
  {
    assert FitsAt(p.records, i);
    UpdateStaysValid(p.records, i, records[i]);
  }

  /** Every state a legal trace saves passes the record check, and so does every state in between. */
  lemma {:induction false} SavedStatesAreValid(p: Progress, trace: seq<Action>)
    requires LegalTrace(p, trace) && ValidRecords(p.records)
    ensures ValidRecords(Replay(p, trace).records) && |Replay(p, trace).records| == |p.records|
    ensures forall a :: a in trace && a.Saved? ==> ValidRecords(a.records)
  {
    if trace != [] {
      var earlier, last := trace[..|trace| - 1], trace[|trace| - 1];
      SavedStatesAreValid(p, earlier);
      assert forall a :: a in trace ==> a in earlier || a == last;
      if last.Saved? {
        LegalSaveIsValid(Replay(p, earlier), last.index, last.records);
      }
    }
  }

  /** When a SENT record is saved, every earlier chunk is confirmed and no later one is under way. */
  ghost predicate SentInOrder(trace: seq<Action>) {
    forall a :: a in trace && a.Saved? && a.index < |a.records| && a.records[a.index].status == Sent ==>
      FrontIs(a.records, a.index)
  }

  lemma {:induction false} LegalIsInOrder(p: Progress, trace: seq<Action>)
    requires LegalTrace(p, trace)
    ensures SentInOrder(trace)
  {
    if trace != [] {
      LegalIsInOrder(p, trace[..|trace| - 1]);
      assert forall a :: a in trace ==> a in trace[..|trace| - 1] || a == trace[|trace| - 1];
    }
  }

  // ----- what a CONFIRMED record rests on

  /** The buffer holds the binary's bytes in the range of chunk `i`. */
  ghost predicate HeldAt(chunks: seq<Chunk>, binary: Bytes, buffer: Bytes, i: nat) {
    && i < |chunks| && |buffer| == |binary|
    && chunks[i].offset + chunks[i].length <= |binary|
    && Matches(binary, buffer, chunks[i])
  }

  /**
   A planned chunk is confirmed only when the plan found it to match, and then in
   the order of the plan; any other chunk only when its range now matches.
   */
  ghost predicate Justified(
    chunks: seq<Chunk>, binary: Bytes, buffer: Bytes, planned: set<nat>, before: seq<Record>, a: Action)
  {
    a.Saved? && a.index < |a.records| == |before| && a.records[a.index].status == Confirmed ==>
      if before[a.index].status == Planned then
        a.index in planned && forall i :: 0 <= i < a.index ==> before[i].status == Confirmed || i !in planned
      else
        HeldAt(chunks, binary, buffer, a.index)
  }

  // ----- reconciliation of what a dead uploader left behind

  /** Some open records became confirmed, all of them for chunks seen to match; nothing else changed. */
  ghost predicate Reconciles(before: seq<Record>, after: seq<Record>, matched: set<nat>) {
    && |after| == |before|
    && forall i :: 0 <= i < |before| ==>
        || after[i] == before[i]
        || ((before[i].status == Sent || before[i].status == Unknown) && i in matched
            && after[i] == before[i].(status := Confirmed))
  }

  lemma {:induction false} ReconciledRecordsAreValid(before: seq<Record>, after: seq<Record>, matched: set<nat>)
    requires Reconciles(before, after, matched) && ValidRecords(before)
    ensures ValidRecords(after)
  {
    forall i | 0 <= i < |after|
      ensures FitsAt(after, i)
    {
      assert FitsAt(before, i);
      assert StartOf(after, i) == StartOf(before, i);
    }
  }
}
