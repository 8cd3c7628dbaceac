/**
 When a lease is safe to release, told by the fields of what was read
 (scripts/devnet/upload-execution-lease.mjs).
 */
module LeaseAnswers {
  import opened ByteStrings
  import opened ChunkRecords
  import opened LeaseDecision
  import opened LeaseEvidence
  import opened LeaseReceipts
  import opened LeaseReconciliation
  import opened LeaseRoundTrip
  import opened Outcomes

  // ----- what was read is in order

  /** A lease of this execution, every field of it filled in. */
  ghost predicate LeaseInOrder(executionId: string, lease: Lease) {
    && 1 <= |executionId| <= 128
    && (forall i :: 0 <= i < |executionId| ==>
          var c := executionId[i];
          'A' <= c <= 'Z' || 'a' <= c <= 'z' || '0' <= c <= '9' || (i > 0 && (c == '.' || c == '_' || c == '-')))
    && lease.executionId == executionId && lease.pid >= 1
    && |lease.hostname| > 0 && |lease.startedAt| > 0 && |lease.program| > 0 && |lease.buffer| > 0
    && !lease.planFingerprint.Malformed? && !lease.stateSha256AtAcquire.Malformed?
  }

  /** The stored plan covers the binary, record by record, and is the plan that is expected. */
  ghost predicate PlanInOrder(state: State, expected: Expected) {
    var id := expected.identity;
    && state.identity == id && state.planFingerprint == expected.planFingerprint
    && id.binarySha256.Sha256? && id.binaryLength > 0 && id.allocation - 37 == id.binaryLength
    && (forall i :: 0 <= i < |state.chunks| ==> FitsAt(state.chunks, i))
    && StartOf(state.chunks, |state.chunks|) == id.binaryLength
    && expected.planFingerprint == OfPlan(PlanBinding(id.program, id.buffer, id.authority, id.allocation, id.binarySha256,
          expected.maxPayload, seq(|state.chunks|, i requires 0 <= i < |state.chunks| =>
            (state.chunks[i].index, state.chunks[i].offset, state.chunks[i].length, state.chunks[i].sha256))))
  }

  predicate ChainInOrder(observed: Observations, expected: Expected) {
    && observed.verifiedGenesis == expected.genesis && observed.programAbsent && observed.confirmedChunksMatch
    && 0 <= observed.programContextSlot <= MAX_SAFE_INTEGER && 0 <= observed.bufferContextSlot <= MAX_SAFE_INTEGER
    && observed.buffer == ObservedBuffer(expected.identity.buffer, expected.identity.owner, expected.identity.authority,
          expected.identity.allocation, expected.planFingerprint)
  }

  predicate LeaseExpected(lease: Lease, expected: Expected) {
    && lease.program == expected.identity.program && lease.buffer == expected.identity.buffer
    && lease.planFingerprint == expected.planFingerprint
  }

  /** Window `w` is the one terminal window of the execution. */
  ghost predicate OnlyEnd(windows: seq<Window>, executionId: string, w: nat) {
    && w < |windows| && windows[w].terminal && windows[w].executionId == executionId
    && forall i :: 0 <= i < |windows| && windows[i].terminal && windows[i].executionId == executionId ==> i == w
  }

  // ----- what was proved

  /** One finalized, error-free transaction that did nothing but write this record, seen on chain afterwards. */
  predicate Written(e: Evidence, r: Record, from: Status, input: Input) {
    var id := input.expected.identity;
    && e.signatureStatusFound && e.transactionFound && e.confirmationStatus == Some("finalized")
    && e.statusErr == Some(false) && e.metaErr == Some(false)
    && e.recordedStatus == from && e.signature == r.signature && e.transactionSignature == r.signature
    && e.signatureCount == 1 && e.instructionCount == 1 && e.innerInstructionCount == Some(0) && e.accountCount == 2
    && e.legacyMessage && e.instructionDecoded && e.bufferWritable && e.authoritySigner
    && e.program == Some(id.owner) && e.buffer == Some(id.buffer) && e.authority == Some(id.authority)
    && e.offset == Some(r.offset) && 0 <= r.offset <= MAX_SAFE_INTEGER
    && e.payloadLength == r.length && e.onchainLength == r.length && 0 <= r.length <= MAX_SAFE_INTEGER
    && r.sha256.Sha256? && e.payloadSha256 == Some(r.sha256) && e.onchainSha256 == r.sha256
    && e.payloadExactMatch && e.onchainExactMatch
    && e.slot.Some? && e.statusSlot == e.slot && e.feeLamports.Some? && e.snapshotSlot.Some?
    && 0 <= e.slot.value <= e.snapshotSlot.value <= MAX_SAFE_INTEGER && e.slot.value <= input.observations.bufferContextSlot
    && 0 <= e.feeLamports.value <= MAX_SAFE_INTEGER
  }

  ghost predicate Witnessed(r: Record, from: Status, input: Input) {
    exists e :: e in input.observations.transactions && e.chunkIndex == r.index && Written(e, r, from, input)
  }

  ghost predicate OncePerChunk(transactions: seq<Evidence>) {
    forall i, j :: 0 <= i < |transactions| && 0 <= j < |transactions| && transactions[i].chunkIndex == transactions[j].chunkIndex
      ==> i == j
  }

  predicate Unresolved(r: Record) {
    r.status == Sent || r.status == Unknown
  }

  ghost predicate AnyUnresolved(chunks: seq<Record>) {
    exists i :: 0 <= i < |chunks| && Unresolved(chunks[i])
  }

  /** Every open record is proved, and there is no evidence about anything else. */
  ghost predicate OpenProved(input: Input, chunks: seq<Record>) {
    && OncePerChunk(input.observations.transactions)
    && (forall r :: r in chunks && Unresolved(r) ==> Witnessed(r, r.status, input))
    && forall e :: e in input.observations.transactions ==>
      0 <= e.chunkIndex < |chunks| && Unresolved(chunks[e.chunkIndex])
  }

  // ----- what a receipt says

  predicate ConfirmedBy(t: Transition, chunks: seq<Record>) {
    && 0 <= t.chunkIndex < |chunks|
    && (t.from == Sent || t.from == Unknown) && t.to == Confirmed && chunks[t.chunkIndex].status == Confirmed
    && chunks[t.chunkIndex].signature == t.signature && chunks[t.chunkIndex].sha256 == t.chunkSha256
    && 0 <= t.slot <= MAX_SAFE_INTEGER && 0 <= t.feeLamports <= MAX_SAFE_INTEGER
  }

  /** A receipt of this execution and lease, for records that are now CONFIRMED. */
  ghost predicate ReceiptInOrder(receipt: Receipt, executionId: string, lease: Lease, chunks: seq<Record>) {
    && receipt.executionId == executionId && |receipt.appliedAt| > 0 && receipt.leaseSha256 == OfLease(lease)
    && !receipt.evidenceHash.Malformed? && !receipt.stateSha256Before.Malformed?
    && !receipt.onchainEvidenceFingerprint.Malformed?
    && |receipt.transitions| > 0
    && (forall t :: t in receipt.transitions ==> ConfirmedBy(t, chunks))
    && forall i, j :: 0 <= i < j < |receipt.transitions| ==>
      receipt.transitions[i].chunkIndex != receipt.transitions[j].chunkIndex
  }

  /** As the transition says, with its slot and its fee. */
  ghost predicate CostWitnessed(t: Transition, input: Input, chunks: seq<Record>)
    requires 0 <= t.chunkIndex < |chunks|
  {
    exists e :: e in input.observations.transactions && e.chunkIndex == t.chunkIndex
      && Written(e, chunks[t.chunkIndex], t.from, input)
      && e.slot == Some(t.slot) && e.feeLamports == Some(t.feeLamports)
  }

  /** Every transition of the receipt is proved again, with its slot and fee, and there is no other evidence. */
  ghost predicate ReceiptProved(input: Input, receipt: Receipt, chunks: seq<Record>) {
    && OncePerChunk(input.observations.transactions)
    && (forall t :: t in receipt.transitions && 0 <= t.chunkIndex < |chunks| ==>
          CostWitnessed(t, input, chunks))
    && forall e :: e in input.observations.transactions ==>
      exists t :: t in receipt.transitions && t.chunkIndex == e.chunkIndex
  }

  /** `highest` is the highest slot of the evidence, 0 without any. */
  ghost predicate Highest(normalized: seq<Evidence>, highest: int) {
    && (highest == 0 || exists e :: e in normalized && e.slot == Some(highest))
    && highest >= 0
    && forall e :: e in normalized && e.slot.Some? ==> e.slot.value <= highest
  }

  /** The evidence for each transition, in order, without what later looks may change. */
  ghost predicate Retold(normalized: seq<Evidence>, transitions: seq<Transition>, transactions: seq<Evidence>) {
    && |normalized| == |transitions|
    && forall k :: 0 <= k < |transitions| ==> RetoldAt(normalized[k], transitions[k], transactions)
  }

  ghost predicate RetoldAt(normalized: Evidence, t: Transition, transactions: seq<Evidence>) {
    exists e :: e in transactions && e.chunkIndex == t.chunkIndex
      && normalized == e.(signatureStatusFound := true, transactionFound := true, snapshotSlot := None)
  }

  /** The state before the receipt: its window had none, and the records it closed had the status they came from. */
  ghost predicate Precedes(before: State, state: State, w: nat, transitions: seq<Transition>)
    requires w < |state.windows|
  {
    && before == state.(chunks := before.chunks, windows := before.windows)
    && before.windows == state.windows[w := state.windows[w].(reconciliationOutcomes := None)]
    && |before.chunks| == |state.chunks|
    && (forall t :: t in transitions && 0 <= t.chunkIndex < |state.chunks| ==>
          before.chunks[t.chunkIndex] == state.chunks[t.chunkIndex].(status := t.from))
    && forall i :: 0 <= i < |state.chunks| && (forall t :: t in transitions ==> t.chunkIndex != i) ==>
      before.chunks[i] == state.chunks[i]
  }

  /** The receipt's hashes are those of the chain as it was seen, of the state before, and of all the evidence. */
  ghost predicate Vouched(
    input: Input, lease: Lease, state: State, w: nat, receipt: Receipt, before: State, normalized: seq<Evidence>,
    highest: int)
    requires w < |state.windows|
  {
    var observed, expected := input.observations, input.expected;
    && Retold(normalized, receipt.transitions, observed.transactions) && Highest(normalized, highest)
    && Precedes(before, state, w, receipt.transitions) && PlanInOrder(before, expected)
    && receipt.stateSha256Before == OfState(StateFile(before, true))
    && receipt.onchainEvidenceFingerprint == OfOnchain(OnchainProjection(expected.genesis, highest,
          Sha256(observed.bufferData), expected.identity.buffer, expected.identity.owner, expected.identity.authority,
          expected.identity.allocation, normalized))
    && receipt.evidenceHash == OfEvidence(EvidenceProjection(input.executionId, receipt.stateSha256Before,
          receipt.leaseSha256, lease.executionId, lease.program, lease.buffer, lease.planFingerprint,
          lease.stateSha256AtAcquire, expected.genesis, expected.identity, expected.planFingerprint,
          state.windows[w].(reconciliationOutcomes := None), receipt.onchainEvidenceFingerprint, normalized,
          receipt.transitions))
  }

  // ----- the parts of the verdict

  lemma {:induction false} LeaseParts(executionId: string, lease: Lease)
    ensures SafeExecutionId(executionId) && CompleteLease(lease) && lease.executionId == executionId <==>
      LeaseInOrder(executionId, lease)
  {
    if LeaseInOrder(executionId, lease) {
      assert Alphanumeric(executionId[0]);
    }
  }

  lemma {:induction false} LengthsAddUp(chunks: seq<Record>)
    requires ValidRecords(chunks)
    ensures TotalLength(chunks) == StartOf(chunks, |chunks|)
  {
    if chunks != [] {
      var n := |chunks| - 1;
      forall i | 0 <= i < n
        ensures FitsAt(chunks[..n], i)
      {
        assert FitsAt(chunks, i);
        assert StartOf(chunks[..n], i) == StartOf(chunks, i);
      }
      LengthsAddUp(chunks[..n]);
      assert FitsAt(chunks, n);
    }
  }

  lemma {:induction false} PlanParts(state: State, expected: Expected)
    ensures StoredPlan(state, expected) <==> PlanInOrder(state, expected)
  {
    assert ValidRecords(state.chunks) <==> forall i :: 0 <= i < |state.chunks| ==> FitsAt(state.chunks, i);
    if ValidRecords(state.chunks) {
      LengthsAddUp(state.chunks);
    }
    hide ValidRecords, FitsAt, TotalLength, StartOf;
  }

  lemma {:induction false} EndParts(windows: seq<Window>, executionId: string)
    ensures UniqueTerminal(windows, executionId).Some? <==> exists w: nat :: OnlyEnd(windows, executionId, w)
    ensures forall w: nat :: OnlyEnd(windows, executionId, w) ==> UniqueTerminal(windows, executionId) == Some(w)
  {
    var found := UniqueTerminal(windows, executionId);
    forall w: nat
      ensures UniqueEnd(windows, executionId, w) <==> OnlyEnd(windows, executionId, w)
    {
      if UniqueEnd(windows, executionId, w) {
        assert Ends(windows[w], executionId);
      }
      if OnlyEnd(windows, executionId, w) {
        assert forall i :: 0 <= i < |windows| ==> (Ends(windows[i], executionId) <==> i == w);
      }
    }
    if found.Some? {
      assert OnlyEnd(windows, executionId, found.value);
    }
    forall w: nat | OnlyEnd(windows, executionId, w)
      ensures found == Some(w)
    {
      assert UniqueEnd(windows, executionId, w);
      assert OnlyEnd(windows, executionId, found.value);
    }
  }

  lemma {:induction false} WrittenIsProven(t: Target, e: Evidence, input: Input)
    requires t.chunk.sha256.Sha256?
    ensures Proven(t, e, input.observations.bufferContextSlot, input.expected) <==> Written(e, t.chunk, t.from, input)
  {
  }

  lemma {:induction false} WitnessedIsProven(t: Target, input: Input)
    requires t.chunk.sha256.Sha256? && OncePerChunk(input.observations.transactions)
    ensures ProvenBy(t, input.observations, input.expected) <==> Witnessed(t.chunk, t.from, input)
  {
    var transactions := input.observations.transactions;
    var found := EvidenceFor(transactions, t.chunk.index);
    if found.Some? {
      WrittenIsProven(t, found.value, input);
    }
    hide Proven, Written, EvidenceFor;
    forall e | e in transactions && e.chunkIndex == t.chunk.index
      ensures found == Some(e)
    {
      var i :| 0 <= i < |transactions| && transactions[i] == e;
      var j :| 0 <= j < |transactions| && transactions[j] == found.value;
      assert i == j;
    }
  }

  // ----- one piece of evidence for each

  ghost function Elements(s: seq<int>): set<int> {
    set x | x in s
  }

  lemma {:induction false} CountDistinct(s: seq<int>)
    requires forall i, j :: 0 <= i < j < |s| ==> s[i] != s[j]
    ensures |Elements(s)| == |s|
  {
    if s != [] {
      var n := |s| - 1;
      CountDistinct(s[..n]);
      assert s[n] !in s[..n];
      assert s == s[..n] + [s[n]];
      assert Elements(s) == Elements(s[..n]) + {s[n]};
    }
  }

  /** Of two lists without repetitions, one within the other, the lengths agree exactly when the elements do. */
  lemma {:induction false} SameCount(s: seq<int>, t: seq<int>)
    requires forall i, j :: 0 <= i < j < |s| ==> s[i] != s[j]
    requires forall i, j :: 0 <= i < j < |t| ==> t[i] != t[j]
    requires forall x :: x in s ==> x in t
    ensures |s| == |t| <==> forall x :: x in t ==> x in s
  {
    CountDistinct(s);
    CountDistinct(t);
    var more := Elements(t) - Elements(s);
    assert Elements(t) == Elements(s) + more;
    assert |more| == |t| - |s|;
    if |s| == |t| {
      assert more == {};
      forall x | x in t
        ensures x in s
      {
        assert x in Elements(t) && x !in more;
      }
    } else {
      assert more != {};
    }
  }

  /** When every target has evidence, the counts agree exactly when all the evidence is about targets. */
  lemma {:induction false} EvidenceCounts(targets: seq<Target>, transactions: seq<Evidence>)
    requires DistinctTargets(targets) && DistinctEvidence(transactions)
    requires forall k :: 0 <= k < |targets| ==> EvidenceFor(transactions, targets[k].chunk.index).Some?
    ensures |transactions| == |targets| <==> forall e :: e in transactions ==> Targeted(targets, e.chunkIndex)
  {
    var asked := seq(|targets|, k requires 0 <= k < |targets| => targets[k].chunk.index);
    var seen := seq(|transactions|, k requires 0 <= k < |transactions| => transactions[k].chunkIndex);
    forall x | x in asked
      ensures x in seen
    {
      var k :| 0 <= k < |asked| && asked[k] == x;
      var i :| 0 <= i < |transactions| && transactions[i].chunkIndex == targets[k].chunk.index;
      assert seen[i] == x;
    }
    SameCount(asked, seen);
    hide EvidenceFor;
    if forall x :: x in seen ==> x in asked {
      forall e | e in transactions
        ensures Targeted(targets, e.chunkIndex)
      {
        var i :| 0 <= i < |transactions| && transactions[i] == e;
        assert seen[i] in asked;
        var k :| 0 <= k < |asked| && asked[k] == seen[i];
      }
    }
    if forall e :: e in transactions ==> Targeted(targets, e.chunkIndex) {
      forall x | x in seen
        ensures x in asked
      {
        var i :| 0 <= i < |seen| && seen[i] == x;
        assert transactions[i] in transactions;
        var k :| 0 <= k < |targets| && targets[k].chunk.index == x;
        assert asked[k] == x;
      }
    }
  }

  ghost predicate AllWitnessed(targets: seq<Target>, input: Input) {
    forall k :: 0 <= k < |targets| ==> Witnessed(targets[k].chunk, targets[k].from, input)
  }

  ghost predicate OnlyAbout(targets: seq<Target>, transactions: seq<Evidence>) {
    forall e :: e in transactions ==> Targeted(targets, e.chunkIndex)
  }

  lemma {:induction false} AllWitnessedIsAllProven(targets: seq<Target>, input: Input)
    requires forall k :: 0 <= k < |targets| ==> targets[k].chunk.sha256.Sha256?
    requires OncePerChunk(input.observations.transactions)
    ensures AllProven(targets, input.observations, input.expected) <==> AllWitnessed(targets, input)
  {
    hide ProvenBy, Witnessed, OncePerChunk;
    forall k | 0 <= k < |targets|
      ensures ProvenBy(targets[k], input.observations, input.expected) <==> Witnessed(targets[k].chunk, targets[k].from, input)
    {
      WitnessedIsProven(targets[k], input);
    }
  }

  lemma {:induction false} OnceIsDistinct(transactions: seq<Evidence>)
    ensures OncePerChunk(transactions) <==> DistinctEvidence(transactions)
  {
  }

  lemma {:induction false} ProvenHaveEvidence(targets: seq<Target>, input: Input)
    requires AllProven(targets, input.observations, input.expected)
    ensures forall k :: 0 <= k < |targets| ==> EvidenceFor(input.observations.transactions, targets[k].chunk.index).Some?
  {
    hide EvidenceFor, Proven;
    forall k | 0 <= k < |targets|
      ensures EvidenceFor(input.observations.transactions, targets[k].chunk.index).Some?
    {
      assert ProvenBy(targets[k], input.observations, input.expected);
    }
  }

  lemma {:induction false} TargetsProved(targets: seq<Target>, input: Input)
    requires forall k :: 0 <= k < |targets| ==> targets[k].chunk.sha256.Sha256?
    requires DistinctTargets(targets)
    ensures ProveTargets(targets, input.observations, input.expected).Ok? <==>
      && OncePerChunk(input.observations.transactions)
      && AllWitnessed(targets, input) && OnlyAbout(targets, input.observations.transactions)
  {
    var transactions := input.observations.transactions;
    AcceptedExactly(targets, input.observations, input.expected);
    OnceIsDistinct(transactions);
    if OncePerChunk(transactions) {
      AllWitnessedIsAllProven(targets, input);
      if AllProven(targets, input.observations, input.expected) {
        ProvenHaveEvidence(targets, input);
        EvidenceCounts(targets, transactions);
      }
    }
    hide *;
    assert OnlyAbout(targets, transactions) <==> forall e :: e in transactions ==> Targeted(targets, e.chunkIndex) by {
      AboutMeans(targets, transactions);
    }
  }

  lemma {:induction false} AboutMeans(targets: seq<Target>, transactions: seq<Evidence>)
    ensures OnlyAbout(targets, transactions) <==> forall e :: e in transactions ==> Targeted(targets, e.chunkIndex)
  {
    hide Targeted;
  }

  // ----- without a receipt

  lemma {:induction false} OpenTargetsProved(input: Input, chunks: seq<Record>)
    requires Numbered(chunks) && forall i :: 0 <= i < |chunks| ==> chunks[i].sha256.Sha256?
    ensures ProveTargets(OpenTargets(chunks), input.observations, input.expected).Ok? <==> OpenProved(input, chunks)
  {
    var targets, transactions := OpenTargets(chunks), input.observations.transactions;
    OpenTargetsExact(chunks);
    hide OpenTargets;
    forall k | 0 <= k < |targets|
      ensures TargetAt(targets[k], chunks)
    {
    }
    TargetsProved(targets, input);
    hide ProveTargets, Witnessed, OncePerChunk;
    if AllWitnessed(targets, input) {
      forall r | r in chunks && Unresolved(r)
        ensures Witnessed(r, r.status, input)
      {
        var i :| 0 <= i < |chunks| && chunks[i] == r;
        assert Targeted(targets, i);
        var k :| 0 <= k < |targets| && targets[k].chunk.index == i;
        assert TargetAt(targets[k], chunks);
      }
    }
    if forall r :: r in chunks && Unresolved(r) ==> Witnessed(r, r.status, input) {
      forall k | 0 <= k < |targets|
        ensures Witnessed(targets[k].chunk, targets[k].from, input)
      {
        assert TargetAt(targets[k], chunks);
        assert targets[k].chunk in chunks;
      }
    }
    OnlyAboutOpen(targets, chunks, transactions);
  }

  lemma {:induction false} OnlyAboutOpen(targets: seq<Target>, chunks: seq<Record>, transactions: seq<Evidence>)
    requires TargetsExactly(targets, chunks)
    ensures OnlyAbout(targets, transactions) <==>
      forall e :: e in transactions ==> 0 <= e.chunkIndex < |chunks| && Unresolved(chunks[e.chunkIndex])
  {
    forall i
      ensures Targeted(targets, i) <==> 0 <= i < |chunks| && Unresolved(chunks[i])
    {
      if Targeted(targets, i) {
        var k :| 0 <= k < |targets| && targets[k].chunk.index == i;
        assert TargetAt(targets[k], chunks);
      }
      if 0 <= i < |chunks| && Unresolved(chunks[i]) {
        assert Open(chunks[i]);
      }
    }
  }

  lemma {:induction false} PlanNumbers(state: State, expected: Expected)
    requires PlanInOrder(state, expected)
    ensures Numbered(state.chunks) && forall i :: 0 <= i < |state.chunks| ==> state.chunks[i].sha256.Sha256?
  {
    forall i | 0 <= i < |state.chunks|
      ensures state.chunks[i].index == i && state.chunks[i].sha256.Sha256?
    {
      assert FitsAt(state.chunks, i);
    }
  }

  lemma {:induction false} NoneUnresolved(chunks: seq<Record>)
    ensures OpenTargets(chunks) == [] <==> !AnyUnresolved(chunks)
  {
    NoneOpenNoTargets(chunks);
    hide OpenTargets;
    assert forall i :: 0 <= i < |chunks| ==> (Open(chunks[i]) <==> Unresolved(chunks[i]));
  }

  lemma {:induction false} JudgedWithoutReceipt(input: Input, lease: Lease, file: StateFile, w: nat)
    requires w < |file.state.windows| && file.state.windows[w].reconciliationOutcomes.None?
    requires PlanInOrder(file.state, input.expected)
    ensures Judge(input, lease, file, w).Ok? <==>
      && OpenProved(input, file.state.chunks)
      && (AnyUnresolved(file.state.chunks) || file.state.windows[w].status != "RPC_OUTCOME_UNKNOWN")
  {
    var chunks := file.state.chunks;
    PlanNumbers(file.state, input.expected);
    OpenTargetsProved(input, chunks);
    NoneUnresolved(chunks);
    assert OpenTargets(chunks) + [] == OpenTargets(chunks);
    hide OpenTargets, ProveTargets, Fingerprint, EvidenceHash, OpenProved, AnyUnresolved, PlanInOrder;
  }

  // ----- with a receipt

  lemma {:induction false} ReceiptParts(receipt: Receipt, executionId: string, lease: Lease, chunks: seq<Record>)
    ensures ReceiptFits([receipt], executionId, OfLease(lease), chunks) <==> ReceiptInOrder(receipt, executionId, lease, chunks)
  {
    assert forall t :: TransitionFits(t, chunks) <==> ConfirmedBy(t, chunks);
    hide TransitionFits, ConfirmedBy;
  }

  lemma {:induction false} HighestIs(normalized: seq<Evidence>)
    requires SlotsKnown(normalized)
    ensures forall highest: int :: Highest(normalized, highest) <==> highest == HighestSlot(normalized)
  {
    HighestSlotIsHighest(normalized);
    hide HighestSlot;
  }

  lemma {:induction false} HighestSlotIsHighest(normalized: seq<Evidence>)
    requires SlotsKnown(normalized)
    ensures Highest(normalized, HighestSlot(normalized))
  {
    if normalized != [] {
      var n := |normalized| - 1;
      assert normalized == normalized[..n] + [normalized[n]];
      HighestSlotIsHighest(normalized[..n]);
    }
  }

  ghost predicate InRangeOf(transitions: seq<Transition>, chunks: seq<Record>) {
    forall t :: t in transitions ==> 0 <= t.chunkIndex < |chunks|
  }

  lemma {:induction false} ReceiptTargets(transitions: seq<Transition>, chunks: seq<Record>)
    requires Numbered(chunks) && InRangeOf(transitions, chunks) && DistinctTransitions(transitions)
    ensures
      var targets := TargetsOf(transitions, chunks);
      && DistinctTargets(targets)
      && (forall k :: 0 <= k < |transitions| ==>
            && transitions[k] in transitions
            && targets[k] == Target(chunks[transitions[k].chunkIndex], transitions[k].from, false)
            && targets[k].chunk.index == transitions[k].chunkIndex)
  {
    assert forall k :: 0 <= k < |transitions| ==> transitions[k] in transitions;
  }

  ghost predicate Rewitnessed(input: Input, transitions: seq<Transition>, chunks: seq<Record>)
    requires InRangeOf(transitions, chunks)
  {
    && OncePerChunk(input.observations.transactions)
    && (forall t :: t in transitions ==> Witnessed(chunks[t.chunkIndex], t.from, input))
    && forall e :: e in input.observations.transactions ==> exists t :: t in transitions && t.chunkIndex == e.chunkIndex
  }

  lemma {:induction false} ReceiptTargetsProved(input: Input, transitions: seq<Transition>, chunks: seq<Record>)
    requires Numbered(chunks) && forall i :: 0 <= i < |chunks| ==> chunks[i].sha256.Sha256?
    requires InRangeOf(transitions, chunks) && DistinctTransitions(transitions)
    ensures ProveTargets(TargetsOf(transitions, chunks), input.observations, input.expected).Ok? <==>
      Rewitnessed(input, transitions, chunks)
  {
    var targets, transactions := TargetsOf(transitions, chunks), input.observations.transactions;
    ReceiptTargets(transitions, chunks);
    TargetsProved(targets, input);
    assert AllWitnessed(targets, input) <==> forall t :: t in transitions ==> Witnessed(chunks[t.chunkIndex], t.from, input) by {
      hide Witnessed, ProveTargets, DistinctTargets, OncePerChunk;
    }
    forall e | e in transactions
      ensures Targeted(targets, e.chunkIndex) <==> exists t :: t in transitions && t.chunkIndex == e.chunkIndex
    {
      if t :| t in transitions && t.chunkIndex == e.chunkIndex {
        var k :| 0 <= k < |transitions| && transitions[k] == t;
        assert targets[k].chunk.index == e.chunkIndex;
      }
    }
    hide Witnessed, ProveTargets, DistinctTargets, OncePerChunk, Targeted, AllWitnessed;
  }

  /** What accepted evidence is reported as. */
  lemma {:induction false} ReportIsRetold(input: Input, transitions: seq<Transition>, chunks: seq<Record>)
    requires Numbered(chunks) && InRangeOf(transitions, chunks) && DistinctTransitions(transitions)
    requires ProveTargets(TargetsOf(transitions, chunks), input.observations, input.expected).Ok?
    ensures Retold(ProveTargets(TargetsOf(transitions, chunks), input.observations, input.expected).value.normalized,
      transitions, input.observations.transactions)
  {
    var targets := TargetsOf(transitions, chunks);
    ReceiptTargets(transitions, chunks);
    AcceptedExactly(targets, input.observations, input.expected);
    var p := ProveTargets(targets, input.observations, input.expected).value;
    hide ProveTargets, CountsSafe, TargetsOf;
    forall k | 0 <= k < |transitions|
      ensures RetoldAt(p.normalized[k], transitions[k], input.observations.transactions)
    {
      assert ReportedAs(targets[k], p.verified[k], p.normalized[k], input.observations);
      var e := EvidenceFor(input.observations.transactions, targets[k].chunk.index).value;
      assert e in input.observations.transactions && e.chunkIndex == transitions[k].chunkIndex;
    }
  }

  lemma {:induction false} RetoldOnce(
    first: seq<Evidence>, second: seq<Evidence>, transitions: seq<Transition>, transactions: seq<Evidence>)
    requires OncePerChunk(transactions)
    requires Retold(first, transitions, transactions) && Retold(second, transitions, transactions)
    ensures first == second
  {
    forall k | 0 <= k < |transitions|
      ensures first[k] == second[k]
    {
      assert RetoldAt(first[k], transitions[k], transactions) && RetoldAt(second[k], transitions[k], transactions);
    }
  }

  predicate TellsCost(t: Transition, normalized: Evidence) {
    normalized.slot == Some(t.slot) && normalized.feeLamports == Some(t.feeLamports)
  }

  lemma {:induction false} RetoldWritten(
    input: Input, t: Transition, chunks: seq<Record>, normalized: Evidence)
    requires OncePerChunk(input.observations.transactions) && ConfirmedBy(t, chunks) && Numbered(chunks)
    requires Witnessed(chunks[t.chunkIndex], t.from, input)
    requires RetoldAt(normalized, t, input.observations.transactions)
    ensures normalized.chunkIndex == t.chunkIndex && normalized.recordedStatus == t.from
      && normalized.signature == t.signature && normalized.payloadSha256 == Some(t.chunkSha256)
      && normalized.onchainSha256 == t.chunkSha256 && normalized.slot.Some? && normalized.slot.value >= 0
    ensures TellsCost(t, normalized) <==>
      exists e :: e in input.observations.transactions && e.chunkIndex == t.chunkIndex
        && Written(e, chunks[t.chunkIndex], t.from, input)
        && e.slot == Some(t.slot) && e.feeLamports == Some(t.feeLamports)
  {
    var transactions := input.observations.transactions;
    var e :| e in transactions && e.chunkIndex == t.chunkIndex
      && normalized == e.(signatureStatusFound := true, transactionFound := true, snapshotSlot := None);
    var f :| f in transactions && f.chunkIndex == t.chunkIndex && Written(f, chunks[t.chunkIndex], t.from, input);
    assert forall g :: g in transactions && g.chunkIndex == t.chunkIndex ==> g == e;
  }

  lemma {:induction false} FoundInRetold(normalized: seq<Evidence>, transitions: seq<Transition>, k: nat)
    requires |normalized| == |transitions| && k < |transitions| && DistinctTransitions(transitions)
    requires forall i :: 0 <= i < |transitions| ==> normalized[i].chunkIndex == transitions[i].chunkIndex
    ensures EvidenceFor(normalized, transitions[k].chunkIndex) == Some(normalized[k])
  {
    var found := EvidenceFor(normalized, transitions[k].chunkIndex);
    assert normalized[k].chunkIndex == transitions[k].chunkIndex;
    var i :| 0 <= i < |normalized| && normalized[i] == found.value;
    assert i == k;
  }

  lemma {:induction false} RetoldBacked(input: Input, receipt: Receipt, chunks: seq<Record>, normalized: seq<Evidence>, k: nat)
    requires k < |receipt.transitions| && Numbered(chunks) && InRangeOf(receipt.transitions, chunks)
    requires DistinctTransitions(receipt.transitions) && forall t :: t in receipt.transitions ==> ConfirmedBy(t, chunks)
    requires OncePerChunk(input.observations.transactions)
    requires forall t :: t in receipt.transitions ==> Witnessed(chunks[t.chunkIndex], t.from, input)
    requires Retold(normalized, receipt.transitions, input.observations.transactions)
    ensures
      var t := receipt.transitions[k];
      assert t in receipt.transitions;
      TransitionBacked(t, normalized) <==>
        exists e :: e in input.observations.transactions && e.chunkIndex == t.chunkIndex
          && Written(e, chunks[t.chunkIndex], t.from, input)
          && e.slot == Some(t.slot) && e.feeLamports == Some(t.feeLamports)
    ensures normalized[k].slot.Some? && normalized[k].slot.value >= 0
  {
    var transitions := receipt.transitions;
    hide Written, ConfirmedBy, EvidenceFor;
    forall i | 0 <= i < |transitions|
      ensures normalized[i].chunkIndex == transitions[i].chunkIndex
    {
      assert RetoldAt(normalized[i], transitions[i], input.observations.transactions);
    }
    FoundInRetold(normalized, transitions, k);
    assert transitions[k] in transitions;
    RetoldWritten(input, transitions[k], chunks, normalized[k]);
  }

  ghost predicate AllBacked(transitions: seq<Transition>, normalized: seq<Evidence>) {
    forall t :: t in transitions ==> TransitionBacked(t, normalized)
  }

  predicate SlotsKnown(normalized: seq<Evidence>) {
    forall e :: e in normalized && e.slot.Some? ==> e.slot.value >= 0
  }

  lemma {:induction false} BackedIsProved(input: Input, receipt: Receipt, chunks: seq<Record>, normalized: seq<Evidence>)
    requires Numbered(chunks) && InRangeOf(receipt.transitions, chunks) && DistinctTransitions(receipt.transitions)
    requires forall t :: t in receipt.transitions ==> ConfirmedBy(t, chunks)
    requires Rewitnessed(input, receipt.transitions, chunks)
    requires Retold(normalized, receipt.transitions, input.observations.transactions)
    ensures AllBacked(receipt.transitions, normalized) <==> ReceiptProved(input, receipt, chunks)
    ensures SlotsKnown(normalized)
  {
    var transitions := receipt.transitions;
    hide Witnessed, Written, ConfirmedBy, OncePerChunk, DistinctTransitions, RetoldAt, TransitionBacked, Numbered, CostWitnessed;
    forall k | 0 <= k < |transitions|
      ensures transitions[k] in transitions
      ensures TransitionBacked(transitions[k], normalized) <==> CostWitnessed(transitions[k], input, chunks)
      ensures normalized[k].slot.Some? && normalized[k].slot.value >= 0
    {
      assert transitions[k] in transitions;
      BackedAsWitnessed(input, receipt, chunks, normalized, k);
    }
  }

  lemma {:induction false} BackedAsWitnessed(
    input: Input, receipt: Receipt, chunks: seq<Record>, normalized: seq<Evidence>, k: nat)
    requires k < |receipt.transitions| && receipt.transitions[k] in receipt.transitions
    requires Numbered(chunks) && InRangeOf(receipt.transitions, chunks) && DistinctTransitions(receipt.transitions)
    requires forall t :: t in receipt.transitions ==> ConfirmedBy(t, chunks)
    requires Rewitnessed(input, receipt.transitions, chunks)
    requires Retold(normalized, receipt.transitions, input.observations.transactions)
    ensures TransitionBacked(receipt.transitions[k], normalized) <==> CostWitnessed(receipt.transitions[k], input, chunks)
    ensures normalized[k].slot.Some? && normalized[k].slot.value >= 0
  {
    hide Witnessed, Written, ConfirmedBy, OncePerChunk, DistinctTransitions, Retold, TransitionBacked, Numbered;
    RetoldBacked(input, receipt, chunks, normalized, k);
  }

  /** Accepting the evidence and finding every transition in it is what "proved again, with its slot and fee" means. */
  lemma {:induction false} ReceiptProvedExactly(input: Input, receipt: Receipt, chunks: seq<Record>)
    requires Numbered(chunks) && forall i :: 0 <= i < |chunks| ==> chunks[i].sha256.Sha256?
    requires InRangeOf(receipt.transitions, chunks) && DistinctTransitions(receipt.transitions)
    requires forall t :: t in receipt.transitions ==> ConfirmedBy(t, chunks)
    ensures var p := ProveTargets(TargetsOf(receipt.transitions, chunks), input.observations, input.expected);
      && (ReceiptProved(input, receipt, chunks) <==> p.Ok? && AllBacked(receipt.transitions, p.value.normalized))
      && (p.Ok? ==>
            && Retold(p.value.normalized, receipt.transitions, input.observations.transactions)
            && SlotsKnown(p.value.normalized))
  {
    var transitions := receipt.transitions;
    ReceiptTargetsProved(input, transitions, chunks);
    if ReceiptProved(input, receipt, chunks) {
      ProvedIsWitnessed(input, receipt, chunks);
    }
    var p := ProveTargets(TargetsOf(transitions, chunks), input.observations, input.expected);
    if p.Ok? {
      ReportIsRetold(input, transitions, chunks);
      BackedIsProved(input, receipt, chunks, p.value.normalized);
    }
    hide *;
  }

  lemma {:induction false} ProvedIsWitnessed(input: Input, receipt: Receipt, chunks: seq<Record>)
    requires Numbered(chunks) && InRangeOf(receipt.transitions, chunks) && ReceiptProved(input, receipt, chunks)
    ensures Rewitnessed(input, receipt.transitions, chunks)
  {
    hide Written, OncePerChunk;
    forall t | t in receipt.transitions
      ensures Witnessed(chunks[t.chunkIndex], t.from, input)
    {
      assert chunks[t.chunkIndex].index == t.chunkIndex && CostWitnessed(t, input, chunks);
    }
  }

  /** Records a receipt fits were, before it, open exactly where it names them. */
  lemma {:induction false} NamedWereOpen(chunks: seq<Record>, transitions: seq<Transition>)
    requires Numbered(chunks) && InRangeOf(transitions, chunks) && DistinctTransitions(transitions)
    requires forall t :: t in transitions ==> ConfirmedBy(t, chunks)
    requires !AnyUnresolved(chunks)
    ensures OpenExactly(Backward(chunks, transitions), transitions)
  {
    var before := Backward(chunks, transitions);
    forall i | 0 <= i < |before|
      ensures before[i].index == i
      ensures Open(before[i]) <==> Naming(transitions, i).Some?
      ensures Open(before[i]) ==> OpenedBy(before[i], transitions)
    {
      var t := Naming(transitions, i);
      if t.Some? {
        assert ConfirmedBy(t.value, chunks);
      } else {
        assert !Unresolved(chunks[i]);
      }
    }
    OpenTargetsExact(before);
    var targets := OpenTargets(before);
    hide OpenTargets, OpenedBy, Backward, ConfirmedBy;
    var named := seq(|transitions|, k requires 0 <= k < |transitions| => transitions[k].chunkIndex);
    var opened' := seq(|targets|, k requires 0 <= k < |targets| => targets[k].chunk.index);
    forall x | x in opened'
      ensures x in named
    {
      var k :| 0 <= k < |opened'| && opened'[k] == x;
      assert TargetAt(targets[k], before);
      var t := Naming(transitions, x).value;
      var j :| 0 <= j < |transitions| && transitions[j] == t;
      assert named[j] == x;
    }
    forall x | x in named
      ensures x in opened'
    {
      var j :| 0 <= j < |named| && named[j] == x;
      assert transitions[j] in transitions;
      assert Naming(transitions, x).Some?;
      assert Targeted(targets, x);
      var k :| 0 <= k < |targets| && targets[k].chunk.index == x;
      assert opened'[k] == x;
    }
    SameCount(opened', named);
  }

  lemma {:induction false} PrecedesIs(state: State, w: nat, transitions: seq<Transition>)
    requires w < |state.windows| && DistinctTransitions(transitions) && InRangeOf(transitions, state.chunks)
    ensures forall before :: Precedes(before, state, w, transitions) <==> before == Unapplied(state, w, transitions)
  {
    var unapplied := Unapplied(state, w, transitions);
    forall t | t in transitions
      ensures unapplied.chunks[t.chunkIndex] == state.chunks[t.chunkIndex].(status := t.from)
    {
      var k :| 0 <= k < |transitions| && transitions[k] == t;
      NamingAt(transitions, k);
    }
    forall i | 0 <= i < |state.chunks| && (forall t :: t in transitions ==> t.chunkIndex != i)
      ensures unapplied.chunks[i] == state.chunks[i]
    {
      assert Naming(transitions, i).None?;
    }
    assert Precedes(unapplied, state, w, transitions);
    forall before | Precedes(before, state, w, transitions)
      ensures before == unapplied
    {
      forall i | 0 <= i < |state.chunks|
        ensures before.chunks[i] == unapplied.chunks[i]
      {
        if Naming(transitions, i).None? {
          assert forall t :: t in transitions ==> t.chunkIndex != i;
        }
      }
      assert before.chunks == unapplied.chunks;
    }
  }

  /** The state before a receipt that fits. */
  lemma {:induction false} PreStateExactly(state: State, w: nat, receipt: Receipt, expected: Expected)
    requires UniqueTerminal(state.windows, receipt.executionId) == Some(w) && w < |state.windows|
    requires state.windows[w].reconciliationOutcomes == Some([receipt])
    requires Numbered(state.chunks) && !AnyUnresolved(state.chunks)
    requires DistinctTransitions(receipt.transitions) && InRangeOf(receipt.transitions, state.chunks)
    requires forall t :: t in receipt.transitions ==> ConfirmedBy(t, state.chunks)
    ensures forall before :: PreState(state, receipt, expected) == Some(before) <==>
      && Precedes(before, state, w, receipt.transitions) && PlanInOrder(before, expected)
      && receipt.stateSha256Before == OfState(StateFile(before, true))
  {
    PrecedesIs(state, w, receipt.transitions);
    NamedWereOpen(state.chunks, receipt.transitions);
    PlanParts(Unapplied(state, w, receipt.transitions), expected);
    hide StoredPlan, PlanInOrder, Precedes, OpenExactly, AnyUnresolved, UniqueEnd, Backward, Numbered, ConfirmedBy;
  }

  /** The hashes a receipt must carry, given what it was computed from. */
  predicate HashesMatch(
    input: Input, lease: Lease, receipt: Receipt, window: Window, normalized: seq<Evidence>)
  {
    && receipt.onchainEvidenceFingerprint == Fingerprint(input.observations, normalized)
    && receipt.evidenceHash == EvidenceHash(input.executionId, receipt.stateSha256Before, lease, input.expected, window,
          receipt.onchainEvidenceFingerprint, normalized, receipt.transitions)
  }

  lemma {:induction false} JudgedOnReceipt(input: Input, lease: Lease, file: StateFile, w: nat, receipt: Receipt)
    requires UniqueTerminal(file.state.windows, input.executionId) == Some(w) && w < |file.state.windows|
    requires file.state.windows[w].reconciliationOutcomes == Some([receipt])
    requires InRangeOf(receipt.transitions, file.state.chunks)
    ensures
      var p := ProveTargets(TargetsOf(receipt.transitions, file.state.chunks), input.observations, input.expected);
      Judge(input, lease, file, w).Ok? <==>
        && ReceiptFits([receipt], input.executionId, OfLease(lease), file.state.chunks) && OpenTargets(file.state.chunks) == []
        && p.Ok? && AllBacked(receipt.transitions, p.value.normalized)
        && PreState(file.state, receipt, input.expected).Some?
        && HashesMatch(input, lease, receipt, file.state.windows[w].(reconciliationOutcomes := None), p.value.normalized)
  {
    var chunks := file.state.chunks;
    var targets := TargetsOf(receipt.transitions, chunks);
    if ReceiptFits([receipt], input.executionId, OfLease(lease), chunks) && OpenTargets(chunks) == [] {
      FitsHeader(receipt, input.executionId, OfLease(lease), chunks);
      assert OpenTargets(chunks) + targets == targets;
      var p := ProveTargets(targets, input.observations, input.expected);
      if p.Ok? {
        BackedParts(input, lease, file.state, w, receipt, p.value.normalized);
      }
    }
    hide OpenTargets, ProveTargets, Fingerprint, EvidenceHash, ReceiptFits, ReceiptBacked, TargetsOf, AllBacked, HashesMatch,
      PreState, OutcomeUnknown, InRangeOf, UniqueEnd;
  }

  lemma {:induction false} FitsHeader(receipt: Receipt, executionId: string, leaseSha256: Hash, chunks: seq<Record>)
    requires ReceiptFits([receipt], executionId, leaseSha256, chunks)
    ensures receipt.executionId == executionId
  {
  }

  lemma {:induction false} BackedParts(
    input: Input, lease: Lease, state: State, w: nat, receipt: Receipt, normalized: seq<Evidence>)
    requires UniqueTerminal(state.windows, input.executionId) == Some(w) && w < |state.windows|
    requires state.windows[w].reconciliationOutcomes == Some([receipt]) && receipt.executionId == input.executionId
    ensures
      ReceiptBacked(receipt, input.executionId, lease, input.expected, state, Fingerprint(input.observations, normalized),
        normalized)
      <==>
        && AllBacked(receipt.transitions, normalized) && PreState(state, receipt, input.expected).Some?
        && HashesMatch(input, lease, receipt, state.windows[w].(reconciliationOutcomes := None), normalized)
  {
    hide Fingerprint, EvidenceHash, TransitionBacked, OpenExactly, StoredPlan, Backward, UniqueEnd;
  }

  /** The hashes match exactly when the receipt is vouched for by the one retelling and the one state before. */
  lemma {:induction false} VouchedExactly(
    input: Input, lease: Lease, state: State, w: nat, receipt: Receipt, normalized: seq<Evidence>)
    requires UniqueTerminal(state.windows, receipt.executionId) == Some(w) && w < |state.windows|
    requires state.windows[w].reconciliationOutcomes == Some([receipt])
    requires Numbered(state.chunks) && !AnyUnresolved(state.chunks) && ChainInOrder(input.observations, input.expected)
    requires ReceiptInOrder(receipt, input.executionId, lease, state.chunks)
    requires OncePerChunk(input.observations.transactions)
    requires Retold(normalized, receipt.transitions, input.observations.transactions) && SlotsKnown(normalized)
    ensures
      && PreState(state, receipt, input.expected).Some?
      && HashesMatch(input, lease, receipt, state.windows[w].(reconciliationOutcomes := None), normalized)
      <==> exists before, retold, highest :: Vouched(input, lease, state, w, receipt, before, retold, highest)
  {
    PreStateExactly(state, w, receipt, input.expected);
    HighestIs(normalized);
    var found := PreState(state, receipt, input.expected);
    if found.Some? && HashesMatch(input, lease, receipt, state.windows[w].(reconciliationOutcomes := None), normalized) {
      hide PlanInOrder, Precedes, PreState, Retold, Highest, HighestSlot, Numbered, AnyUnresolved, OncePerChunk, SlotsKnown;
      assert Vouched(input, lease, state, w, receipt, found.value, normalized, HighestSlot(normalized));
    }
    if before, retold, highest :| Vouched(input, lease, state, w, receipt, before, retold, highest) {
      RetoldOnce(normalized, retold, receipt.transitions, input.observations.transactions);
      hide PlanInOrder, Precedes, PreState, Retold, Highest, HighestSlot, Numbered, AnyUnresolved, OncePerChunk, SlotsKnown;
      assert PreState(state, receipt, input.expected) == Some(before);
    }
  }

  /** The one receipt of window `w` is in order, proved again and vouched for. */
  ghost predicate Accounted(input: Input, lease: Lease, state: State, w: nat, receipt: Receipt)
    requires w < |state.windows|
  {
    && ReceiptInOrder(receipt, input.executionId, lease, state.chunks)
    && ReceiptProved(input, receipt, state.chunks)
    && exists before, normalized, highest :: Vouched(input, lease, state, w, receipt, before, normalized, highest)
  }

  lemma {:induction false} OrderedParts(receipt: Receipt, executionId: string, lease: Lease, chunks: seq<Record>)
    requires ReceiptInOrder(receipt, executionId, lease, chunks)
    ensures receipt.executionId == executionId
    ensures InRangeOf(receipt.transitions, chunks) && DistinctTransitions(receipt.transitions)
    ensures forall t :: t in receipt.transitions ==> ConfirmedBy(t, chunks)
  {
  }

  lemma {:induction false} ProvedOnce(input: Input, receipt: Receipt, chunks: seq<Record>)
    requires ReceiptProved(input, receipt, chunks)
    ensures OncePerChunk(input.observations.transactions)
  {
  }

  lemma {:induction false} AccountedExactly(input: Input, lease: Lease, state: State, w: nat, receipt: Receipt)
    requires UniqueTerminal(state.windows, input.executionId) == Some(w) && w < |state.windows|
    requires state.windows[w].reconciliationOutcomes == Some([receipt])
    requires PlanInOrder(state, input.expected) && ChainInOrder(input.observations, input.expected)
    requires ReceiptInOrder(receipt, input.executionId, lease, state.chunks) && !AnyUnresolved(state.chunks)
    requires InRangeOf(receipt.transitions, state.chunks)
    ensures
      var p := ProveTargets(TargetsOf(receipt.transitions, state.chunks), input.observations, input.expected);
      Accounted(input, lease, state, w, receipt) <==>
        && p.Ok? && AllBacked(receipt.transitions, p.value.normalized)
        && PreState(state, receipt, input.expected).Some?
        && HashesMatch(input, lease, receipt, state.windows[w].(reconciliationOutcomes := None), p.value.normalized)
  {
    var chunks := state.chunks;
    PlanNumbers(state, input.expected);
    OrderedParts(receipt, input.executionId, lease, chunks);
    ReceiptProvedExactly(input, receipt, chunks);
    if ReceiptProved(input, receipt, chunks) {
      ProvedOnce(input, receipt, chunks);
      var p := ProveTargets(TargetsOf(receipt.transitions, chunks), input.observations, input.expected);
      VouchedExactly(input, lease, state, w, receipt, p.value.normalized);
    }
    hide ProveTargets, TargetsOf, AllBacked, HashesMatch, PreState, ReceiptInOrder, ReceiptProved, Retold, SlotsKnown,
      InRangeOf, UniqueEnd, PlanInOrder, ChainInOrder, ConfirmedBy, OncePerChunk, AnyUnresolved;
  }

  lemma {:induction false} JudgedWithReceipt(input: Input, lease: Lease, file: StateFile, w: nat, receipts: seq<Receipt>)
    requires UniqueTerminal(file.state.windows, input.executionId) == Some(w) && w < |file.state.windows|
    requires file.state.windows[w].reconciliationOutcomes == Some(receipts)
    requires PlanInOrder(file.state, input.expected) && ChainInOrder(input.observations, input.expected)
    ensures Judge(input, lease, file, w).Ok? <==>
      && !AnyUnresolved(file.state.chunks)
      && |receipts| == 1 && Accounted(input, lease, file.state, w, receipts[0])
  {
    var chunks := file.state.chunks;
    NoneUnresolved(chunks);
    if |receipts| == 1 {
      ReceiptParts(receipts[0], input.executionId, lease, chunks);
      assert receipts == [receipts[0]];
      if ReceiptInOrder(receipts[0], input.executionId, lease, chunks) {
        OrderedParts(receipts[0], input.executionId, lease, chunks);
        JudgedOnReceipt(input, lease, file, w, receipts[0]);
        if !AnyUnresolved(chunks) {
          AccountedExactly(input, lease, file.state, w, receipts[0]);
        }
        hide *;
      } else {
        RefusedUnlessFitting(input, lease, file, w, receipts);
        AccountedInOrder(input, lease, file.state, w, receipts[0]);
        hide *;
      }
    } else {
      NotOneReceipt(receipts, input.executionId, OfLease(lease), chunks);
      RefusedUnlessFitting(input, lease, file, w, receipts);
      hide *;
    }
  }

  lemma {:induction false} AccountedInOrder(input: Input, lease: Lease, state: State, w: nat, receipt: Receipt)
    requires w < |state.windows|
    ensures Accounted(input, lease, state, w, receipt) ==> ReceiptInOrder(receipt, input.executionId, lease, state.chunks)
  {
  }

  lemma {:induction false} NotOneReceipt(receipts: seq<Receipt>, executionId: string, leaseSha256: Hash, chunks: seq<Record>)
    requires |receipts| != 1
    ensures !ReceiptFits(receipts, executionId, leaseSha256, chunks)
  {
  }

  lemma {:induction false} RefusedUnlessFitting(input: Input, lease: Lease, file: StateFile, w: nat, receipts: seq<Receipt>)
    requires w < |file.state.windows| && file.state.windows[w].reconciliationOutcomes == Some(receipts)
    requires !ReceiptFits(receipts, input.executionId, OfLease(lease), file.state.chunks)
    ensures Judge(input, lease, file, w).Err?
  {
    hide ReceiptFits, OpenTargets, ChunkProofs, ReceiptBacked, Fingerprint, EvidenceHash, OutcomeUnknown;
  }

  /** Everything is in order up to the execution's window. */
  ghost predicate InOrder(input: Input, lease: Lease, ownerActive: bool, file: StateFile) {
    && LeaseInOrder(input.executionId, lease) && !ownerActive
    && input.expected.stateSha256 == OfState(file) && PlanInOrder(file.state, input.expected)
    && LeaseExpected(lease, input.expected) && ChainInOrder(input.observations, input.expected)
  }

  /**
   What the execution's window still owes: without a receipt, a proof for every open record, of which an outcome
   that was left unknown needs one; with a receipt, that nothing is open and the receipt accounts for itself.
   */
  ghost predicate WindowSettled(input: Input, lease: Lease, state: State, w: nat)
    requires w < |state.windows|
  {
    var receipts := state.windows[w].reconciliationOutcomes;
    if receipts.None? then
      && OpenProved(input, state.chunks)
      && (AnyUnresolved(state.chunks) || state.windows[w].status != "RPC_OUTCOME_UNKNOWN")
    else
      !AnyUnresolved(state.chunks) && |receipts.value| == 1 && Accounted(input, lease, state, w, receipts.value[0])
  }

  /** A lease is safe to release exactly when all of this holds of what was read. */
  lemma {:induction false} SafeExactly(input: Input, lease: Option<Lease>, ownerActive: bool, file: Option<StateFile>)
    ensures Reconciled(input, lease, ownerActive, file).Ok? <==>
      && lease.Some? && file.Some? && InOrder(input, lease.value, ownerActive, file.value)
      && exists w: nat :: OnlyEnd(file.value.state.windows, input.executionId, w)
           && WindowSettled(input, lease.value, file.value.state, w)
  {
    if lease.Some? && file.Some? {
      LeaseParts(input.executionId, lease.value);
      PlanParts(file.value.state, input.expected);
      PartsInOrder(input, lease.value);
      EndParts(file.value.state.windows, input.executionId);
      var w := UniqueTerminal(file.value.state.windows, input.executionId);
      if w.Some? && InOrder(input, lease.value, ownerActive, file.value) {
        JudgedSettled(input, lease.value, ownerActive, file.value, w.value);
      }
      hide CompleteLease, SafeExecutionId, LeaseMatches, BufferObserved, Judge, StoredPlan, LeaseInOrder, PlanInOrder,
        LeaseExpected, ChainInOrder, OnlyEnd, UniqueEnd, WindowSettled;
    }
  }

  lemma {:induction false} PartsInOrder(input: Input, lease: Lease)
    ensures LeaseMatches(lease, input.expected) <==> LeaseExpected(lease, input.expected)
    ensures BufferObserved(input.observations, input.expected) <==> ChainInOrder(input.observations, input.expected)
  {
  }

  lemma {:induction false} JudgedSettled(input: Input, lease: Lease, ownerActive: bool, file: StateFile, w: nat)
    requires InOrder(input, lease, ownerActive, file)
    requires UniqueTerminal(file.state.windows, input.executionId) == Some(w) && w < |file.state.windows|
    ensures Judge(input, lease, file, w).Ok? <==> WindowSettled(input, lease, file.state, w)
  {
    hide Judge, LeaseInOrder, PlanInOrder, LeaseExpected, ChainInOrder, UniqueEnd, OpenProved, AnyUnresolved, Accounted;
    if file.state.windows[w].reconciliationOutcomes.None? {
      JudgedWithoutReceipt(input, lease, file, w);
    } else {
      JudgedWithReceipt(input, lease, file, w, file.state.windows[w].reconciliationOutcomes.value);
    }
  }
}
