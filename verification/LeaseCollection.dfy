/**
 What a lease command reads from the chain before it decides: the transactions of
 the records to be proved and one finalized snapshot of the buffer
 (scripts/devnet/upload-execution-command.mjs).
 */
module LeaseCollection {
  import opened ByteStrings
  import opened ChunkRecords
  import opened LeaseDecision
  import opened LeaseEvidence
  import opened LeaseReceipts
  import opened LeaseReconciliation
  import opened LeaseReplay
  import opened LeaseRoundTrip
  import opened LeaseStore
  import opened Outcomes
  import opened UploadPlan
  import opened UploadTrace

  // ----- the chain as the RPC node shows it

  datatype SignatureStatus = SignatureStatus(confirmationStatus: Option<string>, slot: Option<int>, err: Option<bool>)

  datatype WriteData = WriteData(offset: int, payload: Bytes)

  /** A transaction's facts; `write` is present when its data decodes as a write of the declared length. */
  datatype Transaction = Transaction(
    slot: Option<int>, firstSignature: Option<string>, signatureCount: nat, feeLamports: Option<int>, metaErr: Option<bool>,
    legacyMessage: bool, instructionCount: nat, innerInstructionCount: Option<int>,
    program: Option<Key>, accountCount: nat, firstKey: Option<Key>, secondKey: Option<Key>,
    firstWritable: bool, secondSigner: bool, write: Option<WriteData>)

  datatype Account = Account(executable: bool, owner: Key, isBuffer: bool, authority: Key, metadata: Bytes, payload: Bytes)

  datatype View = View(
    genesis: string,
    statuses: map<string, SignatureStatus>,
    transactions: map<string, Transaction>,
    programExists: bool,
    account: Option<Account>,
    contextSlot: int)

  // ----- which records have to be proved

  datatype ProofRecord = ProofRecord(record: Record, recordedStatus: Status)

  /** Weaker than what reconciling asks of a receipt: slots, fees and hashes are looked at there. */
  predicate Retraces(t: Transition, chunks: seq<Record>) {
    && (t.from == Sent || t.from == Unknown) && t.to == Confirmed
    && 0 <= t.chunkIndex < |chunks|
    && chunks[t.chunkIndex].index == t.chunkIndex && chunks[t.chunkIndex].status == Confirmed
    && chunks[t.chunkIndex].signature == t.signature && chunks[t.chunkIndex].sha256 == t.chunkSha256
  }

  ghost predicate AllRetrace(transitions: seq<Transition>, chunks: seq<Record>) {
    DistinctTransitions(transitions) && forall t :: t in transitions ==> Retraces(t, chunks)
  }

  function OpenProofs(chunks: seq<Record>): seq<ProofRecord> {
    var targets := OpenTargets(chunks);
    seq(|targets|, i requires 0 <= i < |targets| => ProofRecord(targets[i].chunk, targets[i].from))
  }

  function ReceiptProofs(transitions: seq<Transition>, chunks: seq<Record>): (records: seq<ProofRecord>)
    requires forall t :: t in transitions ==> 0 <= t.chunkIndex < |chunks|
    ensures |records| == |transitions|
  {
    seq(|transitions|, i requires 0 <= i < |transitions| =>
      assert transitions[i] in transitions;
      ProofRecord(chunks[transitions[i].chunkIndex], transitions[i].from))
  }

  /** The open records, or else the records the one receipt of the execution names. */
  ghost function ProofRecords(state: State, executionId: string): seq<ProofRecord> {
    if OpenTargets(state.chunks) != [] then OpenProofs(state.chunks)
    else
      var w := UniqueTerminal(state.windows, executionId);
      if w.None? || state.windows[w.value].reconciliationOutcomes.None? then []
      else
        var receipts := state.windows[w.value].reconciliationOutcomes.value;
        if |receipts| != 1 || receipts[0].executionId != executionId || receipts[0].transitions == []
           || !AllRetrace(receipts[0].transitions, state.chunks)
        then []
        else ReceiptProofs(receipts[0].transitions, state.chunks)
  }

  method ReconciliationProofRecords(state: State, executionId: string) returns (records: seq<ProofRecord>)
    ensures records == ProofRecords(state, executionId)
  {
    var unresolved := SelectOpen(state.chunks);
    if unresolved != [] {
      return seq(|unresolved|, i requires 0 <= i < |unresolved| => ProofRecord(unresolved[i].chunk, unresolved[i].from));
    }
    var w := FindTerminal(state.windows, executionId);
    if w.None? || state.windows[w.value].reconciliationOutcomes.None? {
      return [];
    }
    var receipts := state.windows[w.value].reconciliationOutcomes.value;
    if |receipts| != 1 || receipts[0].executionId != executionId || receipts[0].transitions == [] {
      return [];
    }
    records := RetraceReceipt(receipts[0].transitions, state.chunks);
  }

  method RetraceReceipt(transitions: seq<Transition>, chunks: seq<Record>) returns (records: seq<ProofRecord>)
    ensures AllRetrace(transitions, chunks) ==> records == ReceiptProofs(transitions, chunks)
    ensures !AllRetrace(transitions, chunks) ==> records == []
  {
    var indices: set<int> := {};
    records := [];
    for i := 0 to |transitions|
      invariant DistinctTransitions(transitions[..i])
      invariant forall n :: n in indices <==> exists k :: 0 <= k < i && transitions[k].chunkIndex == n
      invariant |records| == i
      invariant forall k :: 0 <= k < i ==> Retraces(transitions[k], chunks)
      invariant forall k :: 0 <= k < i ==>
        records[k] == ProofRecord(chunks[transitions[k].chunkIndex], transitions[k].from)
    {
      var t := transitions[i];
      if t.chunkIndex in indices || !Retraces(t, chunks) {
        assert t in transitions;
        return [];
      }
      indices := indices + {t.chunkIndex};
      records := records + [ProofRecord(chunks[t.chunkIndex], t.from)];
    }
    assert transitions[..|transitions|] == transitions;
  }

  // ----- evidence

  /** A range of bytes, cut off at the end of the bytes. */
  function Clip(bytes: Bytes, offset: int, length: int): Bytes {
    var low := if offset < 0 then 0 else if offset > |bytes| then |bytes| else offset;
    var high := if offset + length < low then low else if offset + length > |bytes| then |bytes| else offset + length;
    bytes[low..high]
  }

  function SignatureOf(r: Record): string {
    r.signature.GetOr("")
  }

  /** Everything read about one record: its status, its transaction and its range of the buffer. */
  function EvidenceOf(p: ProofRecord, view: View, local: Bytes, payload: Bytes): Evidence {
    var r := p.record;
    var id := SignatureOf(r);
    var found := id in view.statuses;
    var status := if found then view.statuses[id] else SignatureStatus(None, None, None);
    var sent := id in view.transactions;
    var tx := if sent then view.transactions[id] else NO_TRANSACTION;
    var onchain := Clip(payload, r.offset, r.length);
    Evidence(r.index, p.recordedStatus, r.signature, found, status.confirmationStatus, status.slot, status.err, sent,
      tx.firstSignature, tx.signatureCount, tx.slot, tx.feeLamports, tx.metaErr, tx.legacyMessage, tx.instructionCount,
      tx.innerInstructionCount, tx.write.Some?, tx.program, tx.accountCount, tx.firstKey, tx.secondKey,
      tx.firstWritable, tx.secondSigner,
      if tx.write.Some? then Some(tx.write.value.offset) else None,
      if tx.write.Some? then |tx.write.value.payload| else 0,
      if tx.write.Some? then Some(Sha256(tx.write.value.payload)) else None,
      tx.write.Some? && tx.write.value.payload == Clip(local, r.offset, r.length),
      |onchain|, Sha256(onchain), |onchain| == r.length && Sha256(onchain) == r.sha256, Some(view.contextSlot))
  }

  const NO_TRANSACTION: Transaction :=
    Transaction(None, None, 0, None, None, false, 0, None, None, 0, None, None, false, false, None)

  function CollectEach(records: seq<ProofRecord>, view: View, local: Bytes, payload: Bytes): (evidence: seq<Evidence>)
    ensures |evidence| == |records|
  {
    seq(|records|, i requires 0 <= i < |records| => EvidenceOf(records[i], view, local, payload))
  }

  /** Every CONFIRMED record's range of the buffer has the recorded digest. */
  ghost predicate ConfirmedHeld(chunks: seq<Record>, payload: Bytes) {
    forall i :: 0 <= i < |chunks| && chunks[i].status == Confirmed ==> HeldOnChain(chunks[i], payload)
  }

  predicate HeldOnChain(r: Record, payload: Bytes) {
    && 0 <= r.offset <= MAX_SAFE_INTEGER && 0 < r.length <= MAX_SAFE_INTEGER
    && r.offset + r.length <= |payload| && Sha256(payload[r.offset..r.offset + r.length]) == r.sha256
  }

  method ConfirmedChunksMatch(chunks: seq<Record>, payload: Bytes) returns (held: bool)
    ensures held <==> ConfirmedHeld(chunks, payload)
  {
    for i := 0 to |chunks|
      invariant forall k :: 0 <= k < i && chunks[k].status == Confirmed ==> HeldOnChain(chunks[k], payload)
    {
      if chunks[i].status == Confirmed && !HeldOnChain(chunks[i], payload) {
        return false;
      }
    }
    return true;
  }

  function LatestSlot(records: seq<ProofRecord>, view: View): int {
    if records == [] then 0
    else
      var latest := LatestSlot(records[..|records| - 1], view);
      var id := SignatureOf(records[|records| - 1].record);
      var slot := if id in view.transactions then view.transactions[id].slot.GetOr(0) else 0;
      if slot > latest then slot else latest
  }

  // ----- collecting

  /** The identities the command is for, the local binary and its plan. */
  datatype Contract = Contract(
    genesis: string, program: Key, buffer: Key, authority: Key, owner: Key, maxPayload: nat, local: Bytes, plan: seq<Chunk>)

  function ExpectedOf(c: Contract, file: StateFile): Expected {
    Expected(c.genesis,
      Identity(c.program, c.buffer, c.authority, c.owner, |c.local| + 37, |c.local|, Sha256(c.local)),
      c.maxPayload, file.state.planFingerprint, OfState(file))
  }

  predicate SameChunk(r: Record, c: Chunk) {
    r.index == c.index && r.offset == c.offset && r.length == c.length && r.sha256 == c.sha256
  }

  /** The state file is one of this upload, and its records are the plan's chunks. */
  ghost predicate PlanAgrees(state: State, c: Contract, expected: Expected) {
    && state.identity == expected.identity
    && ValidRecords(state.chunks) && TotalLength(state.chunks) == |c.local|
    && IsHash(state.planFingerprint)
    && |state.chunks| == |c.plan|
    && (forall i :: 0 <= i < |c.plan| ==> SameChunk(state.chunks[i], c.plan[i]))
    && PlanOf(expected, state.chunks) == state.planFingerprint
  }

  predicate BufferIsSound(account: Account, c: Contract) {
    && !account.executable && account.owner == c.owner && account.isBuffer
    && |account.metadata| == 37 && |account.payload| == |c.local|
    && account.authority == c.authority
  }

  /** The snapshot is no older than any of the transactions, no program exists, and the buffer is ours. */
  predicate SnapshotIsSound(view: View, c: Contract, minimumSlot: int) {
    && view.genesis == c.genesis
    && SafeCount(view.contextSlot) && minimumSlot <= view.contextSlot
    && !view.programExists && view.account.Some? && BufferIsSound(view.account.value, c)
  }

  ghost function Collected(file: StateFile, executionId: string, c: Contract, view: View): Option<Input> {
    var expected := ExpectedOf(c, file);
    var records := ProofRecords(file.state, executionId);
    if !PlanAgrees(file.state, c, expected) || !SnapshotIsSound(view, c, LatestSlot(records, view)) then None
    else
      var account := view.account.value;
      Some(Input(executionId, expected,
        Observations(view.genesis, true, view.contextSlot, ConfirmedHeld(file.state.chunks, account.payload),
          account.metadata + account.payload, view.contextSlot,
          ObservedBuffer(c.buffer, c.owner, account.authority, |account.metadata| + |account.payload|,
            expected.planFingerprint),
          CollectEach(records, view, c.local, account.payload))))
  }

  method CollectLeaseReconciliationInput(file: StateFile, executionId: string, c: Contract, view: View)
    returns (r: Option<Input>)
    ensures r == Collected(file, executionId, c, view)
  {
    hide ProofRecords, ConfirmedHeld, BufferIsSound, EvidenceOf;
    var expected := ExpectedOf(c, file);
    var agrees := CheckPlan(file.state, c, expected);
    if !agrees {
      return None;
    }
    var records := ReconciliationProofRecords(file.state, executionId);
    var minimumSlot := 0;
    for i := 0 to |records|
      invariant minimumSlot == LatestSlot(records[..i], view)
    {
      assert records[..i + 1][..i] == records[..i];
      var id := SignatureOf(records[i].record);
      var slot := if id in view.transactions then view.transactions[id].slot.GetOr(0) else 0;
      minimumSlot := if slot > minimumSlot then slot else minimumSlot;
    }
    assert records[..|records|] == records;
    if !SnapshotIsSound(view, c, minimumSlot) {
      return None;
    }
    var account := view.account.value;
    var evidence: seq<Evidence> := [];
    for i := 0 to |records|
      invariant |evidence| == i
      invariant forall k :: 0 <= k < i ==> evidence[k] == EvidenceOf(records[k], view, c.local, account.payload)
    {
      evidence := evidence + [EvidenceOf(records[i], view, c.local, account.payload)];
    }
    assert evidence == CollectEach(records, view, c.local, account.payload);
    var held := ConfirmedChunksMatch(file.state.chunks, account.payload);
    return Some(Input(executionId, expected,
      Observations(view.genesis, true, view.contextSlot, held, account.metadata + account.payload, view.contextSlot,
        ObservedBuffer(c.buffer, c.owner, account.authority, |account.metadata| + |account.payload|,
          expected.planFingerprint),
        evidence)));
  }

  method CheckPlan(state: State, c: Contract, expected: Expected) returns (agrees: bool)
    ensures agrees <==> PlanAgrees(state, c, expected)
  {
    hide ValidRecords, PlanOf;
    var checked := ValidateChunkRecords(state.chunks);
    var total := 0;
    for i := 0 to |state.chunks|
      invariant total == TotalLength(state.chunks[..i])
    {
      total := total + state.chunks[i].length;
      assert state.chunks[..i + 1][..i] == state.chunks[..i];
    }
    assert state.chunks[..|state.chunks|] == state.chunks;
    if state.identity != expected.identity || checked.Err? || total != |c.local| || !IsHash(state.planFingerprint)
       || PlanOf(expected, state.chunks) != state.planFingerprint || |state.chunks| != |c.plan| {
      return false;
    }
    for i := 0 to |c.plan|
      invariant forall k :: 0 <= k < i ==> SameChunk(state.chunks[k], c.plan[k])
    {
      if !SameChunk(state.chunks[i], c.plan[i]) {
        return false;
      }
    }
    return true;
  }

  // ----- what a verdict on collected evidence says about the buffer

  /** The record's range of the buffer is the record's range of the binary. */
  predicate Written(r: Record, local: Bytes, payload: Bytes) {
    && 0 <= r.offset && 0 <= r.length && r.offset + r.length <= |local| && r.offset + r.length <= |payload|
    && payload[r.offset..r.offset + r.length] == local[r.offset..r.offset + r.length]
  }

  lemma {:induction false} DigestMeansWritten(r: Record, k: Chunk, c: Contract, payload: Bytes)
    requires SameChunk(r, k) && k.offset + k.length <= |c.local| && k.sha256 == Sha256(Slice(c.local, k))
    requires |payload| == |c.local| && Sha256(Clip(payload, r.offset, r.length)) == r.sha256
    ensures Written(r, c.local, payload)
  {
  }

  /**
   With collected evidence, SAFE_TO_RELEASE means that every record that is, or is
   about to become, CONFIRMED has its bytes in the buffer.
   */
  lemma {:induction false} SafeMeansWritten(file: StateFile, lease: Lease, c: Contract, view: View, input: Input, v: Verdict, i: nat)
    requires Partition(c.plan, c.local)
    requires Collected(file, input.executionId, c, view) == Some(input)
    requires Reconciled(input, Some(lease), false, Some(file)) == Ok(v)
    requires i < |file.state.chunks| && (file.state.chunks[i].status == Confirmed || Open(file.state.chunks[i]))
    ensures Written(file.state.chunks[i], c.local, view.account.value.payload)
  {
    hide *;
    CollectedParts(file, input.executionId, c, view, input);
    var r := file.state.chunks[i];
    assert SameChunk(r, c.plan[i]);
    PlannedChunk(c, i);
    assert r.status == Confirmed || Open(r);
    if r.status == Confirmed {
      ConfirmedIsHeld(file, lease, c, view, input, v, i);
    } else {
      OpenIsHeld(file, lease, c, view, input, v, i);
    }
    DigestMeansWritten(r, c.plan[i], c, view.account.value.payload);
  }

  lemma {:induction false} PlannedChunk(c: Contract, i: nat)
    requires Partition(c.plan, c.local) && i < |c.plan|
    ensures c.plan[i].offset + c.plan[i].length <= |c.local| && c.plan[i].sha256 == Sha256(Slice(c.local, c.plan[i]))
  {
    assert ChunkAt(c.plan, c.local, i);
  }

  lemma {:induction false} ConfirmedIsHeld(file: StateFile, lease: Lease, c: Contract, view: View, input: Input, v: Verdict, i: nat)
    requires Collected(file, input.executionId, c, view) == Some(input)
    requires Reconciled(input, Some(lease), false, Some(file)) == Ok(v)
    requires i < |file.state.chunks| && file.state.chunks[i].status == Confirmed
    ensures var r := file.state.chunks[i];
      view.account.Some? && Sha256(Clip(view.account.value.payload, r.offset, r.length)) == r.sha256
  {
    hide *;
    CollectedParts(file, input.executionId, c, view, input);
    VerdictParts(input, lease, file, v);
    HeldClipped(file.state.chunks, view.account.value.payload, i);
  }

  lemma {:induction false} HeldClipped(chunks: seq<Record>, payload: Bytes, i: nat)
    requires ConfirmedHeld(chunks, payload) && i < |chunks| && chunks[i].status == Confirmed
    ensures Sha256(Clip(payload, chunks[i].offset, chunks[i].length)) == chunks[i].sha256
  {
    var r := chunks[i];
    assert HeldOnChain(r, payload);
    assert Clip(payload, r.offset, r.length) == payload[r.offset..r.offset + r.length];
  }

  lemma {:induction false} CollectedParts(file: StateFile, executionId: string, c: Contract, view: View, input: Input)
    requires Collected(file, executionId, c, view) == Some(input)
    ensures view.account.Some? && |view.account.value.payload| == |c.local|
    ensures PlanAgrees(file.state, c, ExpectedOf(c, file)) && |file.state.chunks| == |c.plan|
    ensures forall i :: 0 <= i < |c.plan| ==> SameChunk(file.state.chunks[i], c.plan[i])
    ensures input.executionId == executionId && input.expected == ExpectedOf(c, file)
    ensures input.observations.confirmedChunksMatch == ConfirmedHeld(file.state.chunks, view.account.value.payload)
    ensures input.observations.transactions ==
      CollectEach(ProofRecords(file.state, executionId), view, c.local, view.account.value.payload)
  {
    hide ValidRecords, PlanOf, ProofRecords, EvidenceOf, ConfirmedHeld;
  }

  lemma {:induction false} OpenIsHeld(file: StateFile, lease: Lease, c: Contract, view: View, input: Input, v: Verdict, i: nat)
    requires Collected(file, input.executionId, c, view) == Some(input)
    requires Reconciled(input, Some(lease), false, Some(file)) == Ok(v)
    requires i < |file.state.chunks| && Open(file.state.chunks[i])
    ensures var r := file.state.chunks[i];
      view.account.Some? && Sha256(Clip(view.account.value.payload, r.offset, r.length)) == r.sha256
  {
    var chunks := file.state.chunks;
    CollectedParts(file, input.executionId, c, view, input);
    OpenIsProven(input, lease, file, v);
    assert Numbered(chunks) && ValidRecords(chunks) by {
      VerdictParts(input, lease, file, v);
      ValidWhenPlanned(file.state, input.expected);
    }
    OpenTargetsExact(chunks);
    hide ValidRecords, Reconciled, Collected, PlanAgrees, OpenTargets;
    var targets := OpenTargets(chunks);
    assert Targeted(targets, i);
    var k :| 0 <= k < |targets| && targets[k].chunk.index == i;
    assert TargetAt(targets[k], chunks);
    ProvenIsHeld(chunks, targets[k], input, c, view);
  }

  /** The evidence found for an open record was collected for that record. */
  lemma {:induction false} EvidenceIsOwn(chunks: seq<Record>, t: Target, observed: Observations, c: Contract, view: View)
    requires Numbered(chunks) && TargetAt(t, chunks) && view.account.Some?
    requires observed.transactions == CollectEach(OpenProofs(chunks), view, c.local, view.account.value.payload)
    requires EvidenceFor(observed.transactions, t.chunk.index).Some?
    ensures
      var found := EvidenceFor(observed.transactions, t.chunk.index).value;
      var onchain := Clip(view.account.value.payload, t.chunk.offset, t.chunk.length);
      found.onchainLength == |onchain| && found.onchainSha256 == Sha256(onchain)
  {
    OpenTargetsExact(chunks);
    var found := EvidenceFor(observed.transactions, t.chunk.index).value;
    hide OpenTargets, EvidenceFor, Clip;
    var j :| 0 <= j < |observed.transactions| && observed.transactions[j] == found;
    assert found == EvidenceOf(OpenProofs(chunks)[j], view, c.local, view.account.value.payload);
    assert TargetAt(OpenTargets(chunks)[j], chunks);
  }

  /** A proven open record would also pass the check of the CONFIRMED ones. */
  lemma {:induction false} ProvenIsHeld(chunks: seq<Record>, t: Target, input: Input, c: Contract, view: View)
    requires ValidRecords(chunks) && Numbered(chunks) && TargetAt(t, chunks) && view.account.Some?
    requires input.observations.transactions == CollectEach(OpenProofs(chunks), view, c.local, view.account.value.payload)
    requires ProvenBy(t, input.observations, input.expected)
    ensures HeldOnChain(t.chunk, view.account.value.payload)
    ensures Sha256(Clip(view.account.value.payload, t.chunk.offset, t.chunk.length)) == t.chunk.sha256
  {
    hide *;
    EvidenceIsOwnWhenProven(chunks, t, input, c, view);
    ProvenBounds(t, input.observations, input.expected);
    TargetHasLength(t, chunks);
    ClipOfLength(t.chunk, view.account.value.payload);
  }

  lemma {:induction false} TargetHasLength(t: Target, chunks: seq<Record>)
    requires ValidRecords(chunks) && TargetAt(t, chunks)
    ensures t.chunk.length >= 1
  {
    assert FitsAt(chunks, t.chunk.index);
  }

  lemma {:induction false} ClipOfLength(r: Record, payload: Bytes)
    requires r.length >= 1 && SafeCount(r.offset) && SafeCount(r.length)
    requires |Clip(payload, r.offset, r.length)| == r.length
    requires Sha256(Clip(payload, r.offset, r.length)) == r.sha256
    ensures HeldOnChain(r, payload)
  {
    assert Clip(payload, r.offset, r.length) == payload[r.offset..r.offset + r.length];
  }

  lemma {:induction false} EvidenceIsOwnWhenProven(chunks: seq<Record>, t: Target, input: Input, c: Contract, view: View)
    requires Numbered(chunks) && TargetAt(t, chunks) && view.account.Some?
    requires input.observations.transactions == CollectEach(OpenProofs(chunks), view, c.local, view.account.value.payload)
    requires ProvenBy(t, input.observations, input.expected)
    ensures var onchain := Clip(view.account.value.payload, t.chunk.offset, t.chunk.length);
      |onchain| == t.chunk.length && Sha256(onchain) == t.chunk.sha256
  {
    ProvenBounds(t, input.observations, input.expected);
    EvidenceIsOwn(chunks, t, input.observations, c, view);
    hide ProvenBy, EvidenceFor, CollectEach, OpenProofs, TargetAt, Numbered, Clip;
  }

  lemma {:induction false} ProvenBounds(t: Target, observed: Observations, expected: Expected)
    requires ProvenBy(t, observed, expected)
    ensures var found := EvidenceFor(observed.transactions, t.chunk.index);
      && found.Some? && HoldsChunk(t, found.value)
      && SafeCount(t.chunk.offset) && SafeCount(t.chunk.length)
  {
    hide EvidenceFor;
  }

  lemma {:induction false} OpenIsProven(input: Input, lease: Lease, file: StateFile, v: Verdict)
    requires Reconciled(input, Some(lease), false, Some(file)) == Ok(v)
    ensures AllProven(OpenTargets(file.state.chunks), input.observations, input.expected)
    ensures OpenTargets(file.state.chunks) != [] ==> v.proposedTransitions != []
  {
    VerdictParts(input, lease, file, v);
    ReleaseReadyWhenNoneOpen(input, lease, file, v);
    NoneOpenNoTargets(file.state.chunks);
    ReadyWhenNothingProposed(input, lease, false, file, v);
    if v.proposedTransitions != [] {
      ReadyMeansOpen(input, lease, file, v);
      hide Reconciled, StoredPlan, Fingerprint, EvidenceHash, ClosesAll, OpenTargets, ProveEach;
      assert OpenTargets(file.state.chunks) + [] == OpenTargets(file.state.chunks);
      AcceptedExactly(OpenTargets(file.state.chunks), input.observations, input.expected);
    }
  }

  // ----- collecting again after an apply

  /** The same chain at the same slot or later. */
  predicate ViewedLater(view: View, later: View) {
    later == view.(contextSlot := later.contextSlot) && view.contextSlot <= later.contextSlot && SafeCount(later.contextSlot)
  }

  /** The same records, whatever their present status. */
  ghost predicate SameProofs(before: seq<ProofRecord>, after: seq<ProofRecord>) {
    |after| == |before| && forall k :: 0 <= k < |before| ==> SameProof(before[k], after[k])
  }

  predicate SameProof(before: ProofRecord, after: ProofRecord) {
    && after.recordedStatus == before.recordedStatus
    && after.record == before.record.(status := after.record.status)
  }

  lemma {:induction false} SameEvidenceLater(before: ProofRecord, after: ProofRecord, view: View, later: View, local: Bytes, payload: Bytes)
    requires SameProof(before, after) && ViewedLater(view, later)
    ensures ReadLater(EvidenceOf(before, view, local, payload), EvidenceOf(after, later, local, payload))
  {
    hide Clip, SafeCount;
  }

  lemma {:induction false} SameLatestSlot(before: seq<ProofRecord>, after: seq<ProofRecord>, view: View, later: View)
    requires SameProofs(before, after) && ViewedLater(view, later)
    ensures LatestSlot(before, view) == LatestSlot(after, later)
  {
    if before != [] {
      var n := |before| - 1;
      assert SameProof(before[n], after[n]);
      SameLatestSlot(before[..n], after[..n], view, later);
    }
  }

  /** After the open records were closed, the receipt leads the collector to the same records. */
  lemma {:induction false} ReceiptLeadsBack(state: State, w: nat, receipt: Receipt)
    requires Numbered(state.chunks) && UniqueTerminal(state.windows, receipt.executionId) == Some(w)
    requires w < |state.windows| && ClosesAll(receipt.transitions, state.chunks) && receipt.transitions != []
    requires forall t :: t in receipt.transitions ==> 0 <= t.chunkIndex < |state.chunks|
    requires SameTargets(OpenTargets(state.chunks),
      TargetsOf(receipt.transitions, Forward(state.chunks, receipt.transitions)))
    ensures
      SameProofs(ProofRecords(state, receipt.executionId), ProofRecords(Applied(state, w, receipt), receipt.executionId))
  {
    var after := Applied(state, w, receipt);
    UniqueEndStays(state.windows, receipt.executionId, w, Some([receipt]));
    BackwardUndoesForward(state.chunks, receipt.transitions);
    NoneOpenNoTargets(after.chunks);
    assert AllRetrace(receipt.transitions, after.chunks) by {
      hide OpenTargets;
      RetracesAfter(state.chunks, receipt.transitions);
    }
    hide OpenTargets, UniqueEnd, Forward, ClosesAll, AllRetrace;
    var targets, named := OpenTargets(state.chunks), TargetsOf(receipt.transitions, after.chunks);
    assert ProofRecords(after, receipt.executionId) == ReceiptProofs(receipt.transitions, after.chunks);
    assert targets != [];
    assert ProofRecords(state, receipt.executionId) == OpenProofs(state.chunks);
    forall k | 0 <= k < |targets|
      ensures SameProof(OpenProofs(state.chunks)[k], ReceiptProofs(receipt.transitions, after.chunks)[k])
    {
      assert SameTarget(targets[k], named[k]);
    }
  }

  lemma {:induction false} RetracesAfter(chunks: seq<Record>, transitions: seq<Transition>)
    requires Numbered(chunks) && ClosesAll(transitions, chunks)
    ensures AllRetrace(transitions, Forward(chunks, transitions))
  {
    forall t | t in transitions
      ensures Retraces(t, Forward(chunks, transitions))
    {
      assert Closes(t, chunks);
      var k :| 0 <= k < |transitions| && transitions[k] == t;
      NamingAt(transitions, k);
    }
  }

  lemma {:induction false} HeldAfterApply(
    chunks: seq<Record>, transitions: seq<Transition>, input: Input, c: Contract, view: View)
    requires Numbered(chunks) && ValidRecords(chunks) && view.account.Some? && ClosesAll(transitions, chunks)
    requires input.observations.transactions == CollectEach(OpenProofs(chunks), view, c.local, view.account.value.payload)
    requires AllProven(OpenTargets(chunks), input.observations, input.expected)
    requires ConfirmedHeld(chunks, view.account.value.payload)
    ensures ConfirmedHeld(Forward(chunks, transitions), view.account.value.payload)
  {
    var payload := view.account.value.payload;
    var after := Forward(chunks, transitions);
    hide OpenTargets, ProvenBy, Clip, ValidRecords, Closes, TargetAt, HeldOnChain, OpenProofs, CollectEach, Forward;
    forall i | 0 <= i < |after| && after[i].status == Confirmed
      ensures HeldOnChain(after[i], payload)
    {
      HeldAt(chunks, transitions, input, c, view, i);
    }
  }

  lemma {:induction false} HeldAt(chunks: seq<Record>, transitions: seq<Transition>, input: Input, c: Contract, view: View, i: nat)
    requires Numbered(chunks) && ValidRecords(chunks) && view.account.Some? && ClosesAll(transitions, chunks)
    requires input.observations.transactions == CollectEach(OpenProofs(chunks), view, c.local, view.account.value.payload)
    requires AllProven(OpenTargets(chunks), input.observations, input.expected)
    requires ConfirmedHeld(chunks, view.account.value.payload)
    requires i < |chunks| && Forward(chunks, transitions)[i].status == Confirmed
    ensures HeldOnChain(Forward(chunks, transitions)[i], view.account.value.payload)
  {
    if Open(chunks[i]) {
      OpenTargetAt(chunks, i, input);
      hide *;
      var t := Target(chunks[i], chunks[i].status, true);
      ProvenIsHeld(chunks, t, input, c, view);
      ForwardKeepsRange(chunks, transitions, i, view.account.value.payload);
    } else {
      StillConfirmed(chunks, transitions, i);
      hide *;
      HeldOne(chunks, view.account.value.payload, i);
    }
  }

  lemma {:induction false} OpenTargetAt(chunks: seq<Record>, i: nat, input: Input)
    requires Numbered(chunks) && i < |chunks| && Open(chunks[i])
    requires AllProven(OpenTargets(chunks), input.observations, input.expected)
    ensures TargetAt(Target(chunks[i], chunks[i].status, true), chunks)
    ensures ProvenBy(Target(chunks[i], chunks[i].status, true), input.observations, input.expected)
  {
    var targets := OpenTargets(chunks);
    OpenTargetsExact(chunks);
    hide OpenTargets, ProvenBy;
    assert Targeted(targets, i);
    var k :| 0 <= k < |targets| && targets[k].chunk.index == i;
    assert TargetAt(targets[k], chunks);
  }

  lemma {:induction false} ForwardKeepsRange(chunks: seq<Record>, transitions: seq<Transition>, i: nat, payload: Bytes)
    requires i < |chunks| && HeldOnChain(chunks[i], payload)
    ensures HeldOnChain(Forward(chunks, transitions)[i], payload)
  {
  }

  lemma {:induction false} StillConfirmed(chunks: seq<Record>, transitions: seq<Transition>, i: nat)
    requires ClosesAll(transitions, chunks) && i < |chunks| && !Open(chunks[i])
    ensures Forward(chunks, transitions)[i] == chunks[i]
  {
    assert forall t :: t in transitions ==> Closes(t, chunks);
    hide OpenTargets;
  }

  lemma {:induction false} HeldOne(chunks: seq<Record>, payload: Bytes, i: nat)
    requires ConfirmedHeld(chunks, payload) && i < |chunks| && chunks[i].status == Confirmed
    ensures HeldOnChain(chunks[i], payload)
  {
  }

  /** Collecting after an apply sees the new hash and otherwise the same chain. */
  lemma {:induction false} CollectedAfterApply(
    file: StateFile, lease: Lease, c: Contract, view: View, input: Input, v: Verdict, now: string, later: View)
    requires Collected(file, input.executionId, c, view) == Some(input)
    requires ReadyToApply(input, lease, file, v) && now != "" && ViewedLater(view, later)
    ensures UniqueTerminal(file.state.windows, input.executionId).Some?
    ensures
      var after := AppliedFile(input, file, v, now);
      var again := Collected(after, input.executionId, c, later);
      again.Some? && Follows(input, again.value, after)
  {
    hide *;
    var chunks := file.state.chunks;
    Readiness(input, lease, file, v);
    VerdictParts(input, lease, file, v);
    ReadyMeansOpen(input, lease, file, v);
    CollectedParts(file, input.executionId, c, view, input);
    OpenIsProven(input, lease, file, v);
    ValidWhenPlanned(file.state, input.expected);
    AppliedFields(input, file, v, now);
    var w := UniqueTerminal(file.state.windows, input.executionId).value;
    var receipt := ReceiptOf(v, input.executionId, now);
    var after := AppliedFile(input, file, v, now);
    var proofs := ChunkProofs(chunks, input.observations, input.expected, []).value;
    ProposedNamesTargets(chunks, proofs, input);
    OpenProofsRead(file.state, input.executionId, v.proposedTransitions);
    ReceiptLeadsBack(file.state, w, receipt);
    HeldAfterApply(chunks, v.proposedTransitions, input, c, view);
    PlanStays(file.state, after.state.windows, v.proposedTransitions, input.expected);
    CollectedFrom(file, after, input.executionId, c, view, later, input, w, receipt);
  }

  lemma {:induction false} ProposedNamesTargets(chunks: seq<Record>, proofs: Proofs, input: Input)
    requires Numbered(chunks) && ChunkProofs(chunks, input.observations, input.expected, []) == Ok(proofs)
    ensures forall t :: t in proofs.transitions ==> 0 <= t.chunkIndex < |chunks|
    ensures SameTargets(OpenTargets(chunks), TargetsOf(proofs.transitions, Forward(chunks, proofs.transitions)))
  {
    var targets := OpenTargets(chunks);
    assert targets + [] == targets;
    ProposalsCloseAll(chunks, input.observations, input.expected);
    OpenTargetsExact(chunks);
    hide ProveEach, OpenTargets, Forward, TargetsOf, Naming;
    assert forall k :: 0 <= k < |targets| ==> targets[k].proposed by {
      assert forall k :: 0 <= k < |targets| ==> TargetAt(targets[k], chunks);
    }
    ProposalsBacked(targets, proofs, input.observations, input.expected);
    ReceiptNamesTargets(chunks, proofs, input.observations);
  }

  lemma {:induction false} OpenProofsRead(state: State, executionId: string, transitions: seq<Transition>)
    requires ClosesAll(transitions, state.chunks) && transitions != []
    ensures ProofRecords(state, executionId) == OpenProofs(state.chunks)
  {
  }

  lemma {:induction false} CollectedFrom(
    file: StateFile, after: StateFile, executionId: string, c: Contract, view: View, later: View, input: Input, w: nat,
    receipt: Receipt)
    requires Collected(file, executionId, c, view) == Some(input) && ViewedLater(view, later)
    requires w < |file.state.windows| && after.state == Applied(file.state, w, receipt)
    requires StoredPlan(after.state, input.expected) && ConfirmedHeld(after.state.chunks, view.account.value.payload)
    requires input.observations.confirmedChunksMatch && view.account.Some?
    requires SameProofs(ProofRecords(file.state, executionId), ProofRecords(after.state, executionId))
    ensures
      var again := Collected(after, executionId, c, later);
      again.Some? && Follows(input, again.value, after)
  {
    var before, next := ProofRecords(file.state, executionId), ProofRecords(after.state, executionId);
    var payload := view.account.value.payload;
    SameLatestSlot(before, next, view, later);
    assert AllReadLater(CollectEach(before, view, c.local, payload), CollectEach(next, later, c.local, payload)) by {
      hide EvidenceOf, ReadLater, ProofRecords, StoredPlan;
      forall k | 0 <= k < |before|
        ensures ReadLater(CollectEach(before, view, c.local, payload)[k], CollectEach(next, later, c.local, payload)[k])
      {
        assert SameProof(before[k], next[k]);
        SameEvidenceLater(before[k], next[k], view, later, c.local, payload);
      }
    }
    PlanAgreesAfter(file, after, executionId, c, view, input, w, receipt);
    hide EvidenceOf, ReadLater, ProofRecords, StoredPlan, PlanAgrees, CollectEach, AllReadLater, LatestSlot, ConfirmedHeld,
      Applied;
  }

  lemma {:induction false} PlanAgreesAfter(
    file: StateFile, after: StateFile, executionId: string, c: Contract, view: View, input: Input, w: nat, receipt: Receipt)
    requires Collected(file, executionId, c, view) == Some(input)
    requires w < |file.state.windows| && after.state == Applied(file.state, w, receipt)
    requires StoredPlan(after.state, input.expected)
    ensures PlanAgrees(after.state, c, ExpectedOf(c, after))
    ensures ExpectedOf(c, after) == input.expected.(stateSha256 := OfState(after))
  {
    hide ValidRecords, ProofRecords, ConfirmedHeld, CollectEach, SnapshotIsSound, TotalLength;
    forall i | 0 <= i < |c.plan|
      ensures SameChunk(after.state.chunks[i], c.plan[i])
    {
      assert SameChunk(file.state.chunks[i], c.plan[i]);
    }
  }

  /**
   Collect, apply, and collect again later: the second verdict repeats the first
   one's fingerprint, proposes nothing and is ready for release, and a second
   apply with the old hash is recognised.
   */
  lemma {:induction false} CollectApplyCollect(
    file: StateFile, lease: Lease, c: Contract, view: View, request: Request, now: string, disk: Disk, later: View,
    now': string, disk': Disk)
    requires Collected(file, request.input.executionId, c, view) == Some(request.input)
    requires ApplyOutcome(file, Some(lease), false, request, now, disk).0.AppliedNow? && ViewedLater(view, later)
    ensures
      var v := Reconciled(request.input, Some(lease), false, Some(file));
      var after := ApplyOutcome(file, Some(lease), false, request, now, disk).1;
      var again := Collected(after, request.input.executionId, c, later);
      && v.Ok? && again.Some?
      && var next := Reconciled(again.value, Some(lease), false, Some(after));
        && next.Ok? && Settled(v.value, next.value, after)
        && ApplyOutcome(after, Some(lease), false, Request(again.value, true, request.reconciliationHash, false), now', disk')
            == (AlreadyApplied, after)
  {
    AppliedMeans(file, lease, request, now, disk);
    hide *;
    var v := Reconciled(request.input, Some(lease), false, Some(file)).value;
    var after := ApplyOutcome(file, Some(lease), false, request, now, disk).1;
    CollectedAfterApply(file, lease, c, view, request.input, v, now, later);
    var again := Collected(after, request.input.executionId, c, later).value;
    NextReconcileSettles(request.input, lease, file, v, now, again);
    SecondApplyIsRecognised(file, lease, request, now, disk, Request(again, true, request.reconciliationHash, false),
      now', disk');
  }

  /** After an apply on collected evidence every CONFIRMED record has its bytes in the buffer. */
  lemma {:induction false} ApplyConfirmsOnlyWritten(
    file: StateFile, lease: Lease, c: Contract, view: View, request: Request, now: string, disk: Disk, i: nat)
    requires Partition(c.plan, c.local)
    requires Collected(file, request.input.executionId, c, view) == Some(request.input)
    requires ApplyOutcome(file, Some(lease), false, request, now, disk).0.AppliedNow?
    requires i < |file.state.chunks|
    ensures
      var after := ApplyOutcome(file, Some(lease), false, request, now, disk).1.state;
      && |after.chunks| == |file.state.chunks|
      && (after.chunks[i].status == Confirmed ==> Written(after.chunks[i], c.local, view.account.value.payload))
  {
    hide *;
    AppliedMeans(file, lease, request, now, disk);
    ApplyClosesOpenRecords(file, lease, request, now, disk);
    CollectedParts(file, request.input.executionId, c, view, request.input);
    var v := Reconciled(request.input, Some(lease), false, Some(file)).value;
    var after := ApplyOutcome(file, Some(lease), false, request, now, disk).1.state;
    Readiness(request.input, lease, file, v);
    ConfirmedOrOpenBefore(file.state.chunks, after.chunks, i);
    if after.chunks[i].status == Confirmed {
      SafeMeansWritten(file, lease, c, view, request.input, v, i);
      WrittenByRange(file.state.chunks[i], after.chunks[i], c.local, view.account.value.payload);
    }
  }

  lemma {:induction false} ConfirmedOrOpenBefore(before: seq<Record>, after: seq<Record>, i: nat)
    requires Reconciles(before, after, set k: nat | k < |before| && Open(before[k])) && i < |before|
    ensures |after| == |before|
    ensures after[i].status == Confirmed ==> before[i].status == Confirmed || Open(before[i])
    ensures after[i] == before[i].(status := after[i].status)
  {
  }

  lemma {:induction false} WrittenByRange(r: Record, later: Record, local: Bytes, payload: Bytes)
    requires Written(r, local, payload) && later == r.(status := later.status)
    ensures Written(later, local, payload)
  {
  }
}
