/**
 What each refusal to release a lease means, and what a verdict says, told by the
 fields of what was read (scripts/devnet/upload-execution-lease.mjs).
 */
module LeaseRefusals {
  import opened ByteStrings
  import opened ChunkRecords
  import opened LeaseAnswers
  import opened LeaseDecision
  import opened LeaseEvidence
  import opened LeaseReceipts
  import opened LeaseReconciliation
  import opened LeaseRoundTrip
  import opened Outcomes

  // ----- what a refusal means

  /** A record that has to be proved: an open one, or one that a receipt closed. */
  ghost predicate InQuestion(r: Record, from: Status, state: State, w: nat)
    requires w < |state.windows|
  {
    || (r in state.chunks && Unresolved(r) && from == r.status)
    || (state.windows[w].reconciliationOutcomes.Some?
        && exists receipt, t :: receipt in state.windows[w].reconciliationOutcomes.value && t in receipt.transitions
             && 0 <= t.chunkIndex < |state.chunks| && r == state.chunks[t.chunkIndex] && from == t.from)
  }

  predicate SeenFinal(e: Evidence) {
    e.signatureStatusFound && e.transactionFound && e.confirmationStatus == Some("finalized")
  }

  predicate FreeOfErrors(e: Evidence) {
    e.statusErr == Some(false) && e.metaErr == Some(false)
  }

  /** The transaction is one write of this record and nothing else. */
  predicate OneWrite(e: Evidence, r: Record, from: Status, id: Identity) {
    && e.recordedStatus == from && e.signature == r.signature && e.transactionSignature == r.signature
    && e.signatureCount == 1 && e.instructionCount == 1 && e.innerInstructionCount == Some(0) && e.accountCount == 2
    && e.legacyMessage && e.instructionDecoded && e.bufferWritable && e.authoritySigner
    && e.program == Some(id.owner) && e.buffer == Some(id.buffer) && e.authority == Some(id.authority)
    && e.offset == Some(r.offset) && e.payloadLength == r.length && e.payloadSha256 == Some(r.sha256)
    && e.payloadExactMatch && e.statusSlot == e.slot
  }

  predicate InRange(n: Option<int>) {
    n.Some? && 0 <= n.value <= MAX_SAFE_INTEGER
  }

  /** Something the evidence does not say, or says of a time before the transaction. */
  predicate Lacks(e: Evidence, bufferContextSlot: int) {
    || e.statusErr.None? || e.metaErr.None?
    || !InRange(e.statusSlot) || !InRange(e.slot) || !InRange(e.feeLamports) || !InRange(e.snapshotSlot)
    || !InRange(e.offset) || !InRange(e.innerInstructionCount)
    || !InRange(Some(e.signatureCount)) || !InRange(Some(e.instructionCount)) || !InRange(Some(e.accountCount))
    || !InRange(Some(e.payloadLength)) || !InRange(Some(e.onchainLength))
    || e.payloadSha256.None? || e.payloadSha256.value.NotAHash? || e.onchainSha256.NotAHash?
    || e.snapshotSlot.value < e.slot.value || bufferContextSlot < e.slot.value
  }

  /** The evidence `e` about record `r` is why it was refused. */
  predicate Blames(reason: Refusal, e: Evidence, r: Record, from: Status, input: Input) {
    match reason
    case UnresolvedSentOrUnknown => !SeenFinal(e)
    case ConfirmedTransactionFailure => SeenFinal(e) && (e.statusErr == Some(true) || e.metaErr == Some(true))
    case TransactionEvidenceMismatch =>
      SeenFinal(e) && FreeOfErrors(e) && !OneWrite(e, r, from, input.expected.identity)
    case IdentityOrOnchainMismatch =>
      && SeenFinal(e) && FreeOfErrors(e) && OneWrite(e, r, from, input.expected.identity)
      && !(e.onchainLength == r.length && e.onchainSha256 == r.sha256 && e.onchainExactMatch)
    case InsufficientEvidence => SeenFinal(e) && Lacks(e, input.observations.bufferContextSlot)
    case ActiveProcess => false
    case StateHashDrift => false
  }

  ghost predicate Blamed(reason: Refusal, input: Input, state: State, w: nat)
    requires w < |state.windows|
  {
    exists e, r, from :: InQuestion(r, from, state, w) && e in input.observations.transactions && e.chunkIndex == r.index
      && Blames(reason, e, r, from, input)
  }

  /** Not one piece of evidence for each record in question. */
  ghost predicate Uncounted(input: Input, state: State, w: nat)
    requires w < |state.windows|
  {
    || !OncePerChunk(input.observations.transactions)
    || (exists r, from :: InQuestion(r, from, state, w)
          && forall e :: e in input.observations.transactions ==> e.chunkIndex != r.index)
    || exists e :: e in input.observations.transactions
         && forall r, from :: InQuestion(r, from, state, w) ==> e.chunkIndex != r.index
  }

  lemma {:induction false} FaultMeans(t: Target, e: Evidence, input: Input, reason: Refusal)
    requires Fault(t, Some(e), input.observations.bufferContextSlot, input.expected) == Some(reason)
    ensures Blames(reason, e, t.chunk, t.from, input)
  {
  }

  lemma {:induction false} FirstFault(targets: seq<Target>, observed: Observations, expected: Expected)
    requires ProveEach(targets, observed, expected).Err?
    ensures exists k :: 0 <= k < |targets| && FaultAt(targets[k], observed, expected, ProveEach(targets, observed, expected).error)
  {
    ProveLast(targets, observed, expected);
    var n := |targets| - 1;
    hide Fault, EvidenceFor, Extended;
    if ProveEach(targets[..n], observed, expected).Err? {
      FirstFault(targets[..n], observed, expected);
      var k :| 0 <= k < n && FaultAt(targets[..n][k], observed, expected, ProveEach(targets[..n], observed, expected).error);
      assert targets[..n][k] == targets[k];
    } else {
      assert FaultAt(targets[n], observed, expected, ProveEach(targets, observed, expected).error);
    }
  }

  predicate FaultAt(t: Target, observed: Observations, expected: Expected, reason: Refusal) {
    Fault(t, EvidenceFor(observed.transactions, t.chunk.index), observed.bufferContextSlot, expected) == Some(reason)
  }

  /** The targets are records in question, all of them, each once. */
  ghost predicate Questions(targets: seq<Target>, state: State, w: nat)
    requires w < |state.windows|
  {
    && DistinctTargets(targets)
    && (forall k :: 0 <= k < |targets| ==> InQuestion(targets[k].chunk, targets[k].from, state, w))
  }

  lemma {:induction false} RefusedTargets(targets: seq<Target>, input: Input, state: State, w: nat, reason: Refusal)
    requires w < |state.windows| && Questions(targets, state, w)
    requires forall r, from :: InQuestion(r, from, state, w) ==> Targeted(targets, r.index)
    requires ProveTargets(targets, input.observations, input.expected) == Err(reason)
    ensures Blamed(reason, input, state, w) || (reason == InsufficientEvidence && Uncounted(input, state, w))
  {
    var observed, expected := input.observations, input.expected;
    var transactions := observed.transactions;
    OnceIsDistinct(transactions);
    if OncePerChunk(transactions) && |transactions| == |targets| {
      assert ProveEach(targets, observed, expected) == Err(reason);
      FirstFault(targets, observed, expected);
      var k :| 0 <= k < |targets| && FaultAt(targets[k], observed, expected, reason);
      RefusedTarget(targets[k], input, state, w, reason);
    } else if OncePerChunk(transactions) {
      hide InQuestion, ProveEach, OncePerChunk, EvidenceFor, DistinctTargets, DistinctEvidence;
      if k :| 0 <= k < |targets| && EvidenceFor(transactions, targets[k].chunk.index).None? {
        WithoutEvidence(targets[k], input, state, w);
      } else {
        EvidenceCounts(targets, transactions);
        var e :| e in transactions && !Targeted(targets, e.chunkIndex);
        assert forall r, from :: InQuestion(r, from, state, w) ==> e.chunkIndex != r.index;
      }
    }
  }

  lemma {:induction false} WithoutEvidence(t: Target, input: Input, state: State, w: nat)
    requires w < |state.windows| && InQuestion(t.chunk, t.from, state, w)
    requires EvidenceFor(input.observations.transactions, t.chunk.index).None?
    ensures Uncounted(input, state, w)
  {
    var transactions := input.observations.transactions;
    hide InQuestion, OncePerChunk;
    forall e | e in transactions
      ensures e.chunkIndex != t.chunk.index
    {
      var i :| 0 <= i < |transactions| && transactions[i] == e;
      assert transactions[i].chunkIndex == e.chunkIndex;
    }
  }

  lemma {:induction false} RefusedTarget(t: Target, input: Input, state: State, w: nat, reason: Refusal)
    requires w < |state.windows| && InQuestion(t.chunk, t.from, state, w)
    requires FaultAt(t, input.observations, input.expected, reason)
    ensures Blamed(reason, input, state, w) || (reason == InsufficientEvidence && Uncounted(input, state, w))
  {
    var found := EvidenceFor(input.observations.transactions, t.chunk.index);
    if found.Some? {
      FaultMeans(t, found.value, input, reason);
      hide InQuestion, Fault, Blames;
      assert found.value in input.observations.transactions;
    } else {
      WithoutEvidence(t, input, state, w);
    }
  }

  lemma {:induction false} OpenQuestions(state: State, w: nat)
    requires w < |state.windows| && Numbered(state.chunks) && state.windows[w].reconciliationOutcomes.None?
    ensures Questions(OpenTargets(state.chunks), state, w)
    ensures forall r, from :: InQuestion(r, from, state, w) ==> Targeted(OpenTargets(state.chunks), r.index)
  {
    var targets := OpenTargets(state.chunks);
    OpenTargetsExact(state.chunks);
    hide OpenTargets;
    forall k | 0 <= k < |targets|
      ensures InQuestion(targets[k].chunk, targets[k].from, state, w)
    {
      assert TargetAt(targets[k], state.chunks);
    }
    forall r, from | InQuestion(r, from, state, w)
      ensures Targeted(targets, r.index)
    {
      assert Open(r);
    }
  }

  lemma {:induction false} ReceiptQuestions(state: State, w: nat, receipt: Receipt)
    requires w < |state.windows| && Numbered(state.chunks)
    requires state.windows[w].reconciliationOutcomes == Some([receipt]) && !AnyUnresolved(state.chunks)
    requires InRangeOf(receipt.transitions, state.chunks) && DistinctTransitions(receipt.transitions)
    ensures Questions(TargetsOf(receipt.transitions, state.chunks), state, w)
    ensures forall r, from :: InQuestion(r, from, state, w) ==>
      Targeted(TargetsOf(receipt.transitions, state.chunks), r.index)
  {
    var transitions := receipt.transitions;
    var targets := TargetsOf(transitions, state.chunks);
    ReceiptTargets(transitions, state.chunks);
    hide TargetsOf;
    assert receipt in state.windows[w].reconciliationOutcomes.value;
    forall k | 0 <= k < |targets|
      ensures InQuestion(targets[k].chunk, targets[k].from, state, w)
    {
    }
    forall r, from | InQuestion(r, from, state, w)
      ensures Targeted(targets, r.index)
    {
      assert !(r in state.chunks && Unresolved(r));
      var t :| t in transitions && 0 <= t.chunkIndex < |state.chunks| && r == state.chunks[t.chunkIndex];
      var k :| 0 <= k < |transitions| && transitions[k] == t;
      assert targets[k].chunk.index == r.index;
    }
  }

  /** What is wrong with the window itself, or with the receipt it holds. */
  ghost predicate Unaccounted(input: Input, lease: Lease, state: State, w: nat)
    requires w < |state.windows|
  {
    var receipts := state.windows[w].reconciliationOutcomes;
    if receipts.None? then !AnyUnresolved(state.chunks) && state.windows[w].status == "RPC_OUTCOME_UNKNOWN"
    else AnyUnresolved(state.chunks) || |receipts.value| != 1 || !Accounted(input, lease, state, w, receipts.value[0])
  }

  ghost predicate RefusedFor(reason: Refusal, input: Input, lease: Lease, state: State, w: nat)
    requires w < |state.windows|
  {
    || Blamed(reason, input, state, w)
    || (reason == InsufficientEvidence && (Uncounted(input, state, w) || Unaccounted(input, lease, state, w)))
  }

  lemma {:induction false} JudgedOpen(input: Input, lease: Lease, file: StateFile, w: nat)
    requires w < |file.state.windows| && file.state.windows[w].reconciliationOutcomes.None?
    requires Judge(input, lease, file, w).Err?
    ensures
      var p := ProveTargets(OpenTargets(file.state.chunks), input.observations, input.expected);
      || (p.Err? && Judge(input, lease, file, w) == Err(p.error))
      || (OpenTargets(file.state.chunks) == [] && file.state.windows[w].status == "RPC_OUTCOME_UNKNOWN"
          && Judge(input, lease, file, w) == Err(InsufficientEvidence))
  {
    assert OpenTargets(file.state.chunks) + [] == OpenTargets(file.state.chunks);
    hide OpenTargets, ProveTargets, Fingerprint, EvidenceHash;
  }

  lemma {:induction false} JudgedReceipt(input: Input, lease: Lease, file: StateFile, w: nat, receipts: seq<Receipt>)
    requires w < |file.state.windows| && file.state.windows[w].reconciliationOutcomes == Some(receipts)
    requires Judge(input, lease, file, w).Err? && Judge(input, lease, file, w).error != InsufficientEvidence
    ensures ReceiptFits(receipts, input.executionId, OfLease(lease), file.state.chunks) && OpenTargets(file.state.chunks) == []
    ensures
      var p := ProveTargets(TargetsOf(receipts[0].transitions, file.state.chunks), input.observations, input.expected);
      p.Err? && Judge(input, lease, file, w) == Err(p.error)
  {
    var chunks := file.state.chunks;
    if ReceiptFits(receipts, input.executionId, OfLease(lease), chunks) && OpenTargets(chunks) == [] {
      FitsParts(receipts, input.executionId, OfLease(lease), chunks);
      assert OpenTargets(chunks) + TargetsOf(receipts[0].transitions, chunks) == TargetsOf(receipts[0].transitions, chunks);
    }
    hide OpenTargets, ProveTargets, Fingerprint, EvidenceHash, ReceiptFits, ReceiptBacked, OutcomeUnknown, TargetsOf;
  }

  lemma {:induction false} FitsParts(receipts: seq<Receipt>, executionId: string, leaseSha256: Hash, chunks: seq<Record>)
    requires ReceiptFits(receipts, executionId, leaseSha256, chunks)
    ensures receipts == [receipts[0]] && InRangeOf(receipts[0].transitions, chunks)
    ensures DistinctTransitions(receipts[0].transitions)
  {
  }

  lemma {:induction false} JudgeRefuses(input: Input, lease: Lease, file: StateFile, w: nat, reason: Refusal)
    requires UniqueTerminal(file.state.windows, input.executionId) == Some(w) && w < |file.state.windows|
    requires PlanInOrder(file.state, input.expected) && ChainInOrder(input.observations, input.expected)
    requires Judge(input, lease, file, w) == Err(reason)
    ensures RefusedFor(reason, input, lease, file.state, w)
  {
    var state := file.state;
    var outcomes := state.windows[w].reconciliationOutcomes;
    PlanNumbers(state, input.expected);
    NoneUnresolved(state.chunks);
    if outcomes.None? {
      JudgedOpen(input, lease, file, w);
      OpenQuestions(state, w);
      var targets := OpenTargets(state.chunks);
      var p := ProveTargets(targets, input.observations, input.expected);
      hide Judge, OpenTargets, ProveTargets, Questions, InQuestion, PlanInOrder, ChainInOrder, Blamed, Uncounted, AnyUnresolved,
        UniqueEnd, Targeted;
      if p == Err(reason) {
        RefusedTargets(targets, input, state, w, reason);
      }
    } else if reason == InsufficientEvidence {
      JudgedWithReceipt(input, lease, file, w, outcomes.value);
      hide Judge, PlanInOrder, ChainInOrder, Blamed, Uncounted, AnyUnresolved, Accounted, UniqueEnd;
    } else {
      JudgedReceipt(input, lease, file, w, outcomes.value);
      FitsParts(outcomes.value, input.executionId, OfLease(lease), state.chunks);
      ReceiptQuestions(state, w, outcomes.value[0]);
      var targets := TargetsOf(outcomes.value[0].transitions, state.chunks);
      hide Judge, OpenTargets, ProveTargets, Questions, InQuestion, PlanInOrder, ChainInOrder, Blamed, Uncounted, AnyUnresolved,
        UniqueEnd, TargetsOf, ReceiptFits, Targeted;
      RefusedTargets(targets, input, state, w, reason);
    }
  }

  /** Each reason for a refusal is true of what was read; the first two are given exactly when they are. */
  lemma {:induction false} RefusalsAreTrue(input: Input, lease: Option<Lease>, ownerActive: bool, file: Option<StateFile>)
    ensures Reconciled(input, lease, ownerActive, file) == Err(ActiveProcess) <==>
      lease.Some? && file.Some? && LeaseInOrder(input.executionId, lease.value) && ownerActive
    ensures Reconciled(input, lease, ownerActive, file) == Err(StateHashDrift) <==>
      && lease.Some? && file.Some? && LeaseInOrder(input.executionId, lease.value) && !ownerActive
      && input.expected.stateSha256 != OfState(file.value)
    ensures Reconciled(input, lease, ownerActive, file) == Err(IdentityOrOnchainMismatch) ==>
      && lease.Some? && file.Some?
      && (|| file.value.state.identity != input.expected.identity
          || file.value.state.planFingerprint != input.expected.planFingerprint
          || !LeaseExpected(lease.value, input.expected) || !ChainInOrder(input.observations, input.expected)
          || exists w: nat :: OnlyEnd(file.value.state.windows, input.executionId, w)
               && Blamed(IdentityOrOnchainMismatch, input, file.value.state, w))
    ensures Reconciled(input, lease, ownerActive, file) == Err(InsufficientEvidence) ==>
      || lease.None? || file.None? || !LeaseInOrder(input.executionId, lease.value)
      || !PlanInOrder(file.value.state, input.expected)
      || (forall w: nat :: !OnlyEnd(file.value.state.windows, input.executionId, w))
      || exists w: nat :: OnlyEnd(file.value.state.windows, input.executionId, w)
           && RefusedFor(InsufficientEvidence, input, lease.value, file.value.state, w)
    ensures
      var r := Reconciled(input, lease, ownerActive, file);
      r.Err? && r.error in {UnresolvedSentOrUnknown, ConfirmedTransactionFailure, TransactionEvidenceMismatch} ==>
        && lease.Some? && file.Some?
        && exists w: nat :: OnlyEnd(file.value.state.windows, input.executionId, w)
             && Blamed(r.error, input, file.value.state, w)
  {
    if lease.Some? && file.Some? {
      LeaseParts(input.executionId, lease.value);
      PlanParts(file.value.state, input.expected);
      PartsInOrder(input, lease.value);
      EndParts(file.value.state.windows, input.executionId);
      if InOrder(input, lease.value, ownerActive, file.value) {
        RefusedInOrder(input, lease.value, ownerActive, file.value);
      }
      hide CompleteLease, SafeExecutionId, LeaseMatches, BufferObserved, Judge, StoredPlan, LeaseInOrder, PlanInOrder,
        LeaseExpected, ChainInOrder, OnlyEnd, UniqueEnd, RefusedFor, Blamed;
    }
  }

  lemma {:induction false} RefusedInOrder(input: Input, lease: Lease, ownerActive: bool, file: StateFile)
    requires InOrder(input, lease, ownerActive, file)
    ensures
      var w := UniqueTerminal(file.state.windows, input.executionId);
      w.Some? && Judge(input, lease, file, w.value).Err? ==>
        && Judge(input, lease, file, w.value).error !in {ActiveProcess, StateHashDrift}
        && RefusedFor(Judge(input, lease, file, w.value).error, input, lease, file.state, w.value)
        && (Judge(input, lease, file, w.value).error != InsufficientEvidence ==>
              Blamed(Judge(input, lease, file, w.value).error, input, file.state, w.value))
  {
    var w := UniqueTerminal(file.state.windows, input.executionId);
    if w.Some? && Judge(input, lease, file, w.value).Err? {
      var reason := Judge(input, lease, file, w.value).error;
      JudgeRefuses(input, lease, file, w.value, reason);
      if reason != InsufficientEvidence {
        BlameNames(reason, input, file.state, w.value);
      }
      hide Judge, LeaseInOrder, PlanInOrder, LeaseExpected, ChainInOrder, UniqueEnd, Blamed, Uncounted, Unaccounted;
    }
  }

  lemma {:induction false} BlameNames(reason: Refusal, input: Input, state: State, w: nat)
    requires w < |state.windows|
    ensures Blamed(reason, input, state, w) ==> reason !in {ActiveProcess, StateHashDrift}
  {
    hide InQuestion;
  }

  // ----- what a verdict says

  /** One transition for each open record, in order: the record's own status, signature and digest, and what it cost. */
  ghost predicate ProposesFor(transitions: seq<Transition>, input: Input, chunks: seq<Record>) {
    && (forall i, j :: 0 <= i < j < |transitions| ==> transitions[i].chunkIndex < transitions[j].chunkIndex)
    && (forall t :: t in transitions ==> ProposedAt(t, input, chunks))
    && forall i :: 0 <= i < |chunks| && Unresolved(chunks[i]) ==> exists t :: t in transitions && t.chunkIndex == i
  }

  ghost predicate ProposedAt(t: Transition, input: Input, chunks: seq<Record>) {
    && 0 <= t.chunkIndex < |chunks| && Unresolved(chunks[t.chunkIndex])
    && t.from == chunks[t.chunkIndex].status && t.to == Confirmed
    && t.signature == chunks[t.chunkIndex].signature && t.chunkSha256 == chunks[t.chunkIndex].sha256
    && CostWitnessed(t, input, chunks)
  }

  /** The evidence that was verified, and how it is reported. */
  ghost predicate Verifies(verified: seq<Verified>, normalized: seq<Evidence>, transactions: seq<Evidence>) {
    && |verified| == |normalized| == |transactions|
    && (forall k :: 0 <= k < |verified| ==> VerifiesAt(verified[k], normalized[k], transactions))
    && forall i, j :: 0 <= i < j < |verified| ==> verified[i].chunkIndex != verified[j].chunkIndex
  }

  ghost predicate VerifiesAt(verified: Verified, normalized: Evidence, transactions: seq<Evidence>) {
    exists e :: e in transactions && e.slot.Some? && e.feeLamports.Some?
      && verified == Verified(e.chunkIndex, e.signature, e.slot.value, e.feeLamports.value)
      && normalized == e.(signatureStatusFound := true, transactionFound := true, snapshotSlot := None)
  }

  /** The hashes in a verdict, from what was read. */
  ghost predicate HashesSay(
    v: Verdict, input: Input, lease: Lease, file: StateFile, w: nat, normalized: seq<Evidence>, highest: int)
    requires w < |file.state.windows|
  {
    var observed, expected := input.observations, input.expected;
    && Highest(normalized, highest)
    && v.preStateSha256 == OfState(file) && v.leaseSha256 == OfLease(lease)
    && v.onchainEvidenceFingerprint == OfOnchain(OnchainProjection(expected.genesis, highest,
          Sha256(observed.bufferData), expected.identity.buffer, expected.identity.owner, expected.identity.authority,
          expected.identity.allocation, normalized))
    && v.evidenceHash == OfEvidence(EvidenceProjection(input.executionId, OfState(file), OfLease(lease),
          lease.executionId, lease.program, lease.buffer, lease.planFingerprint, lease.stateSha256AtAcquire,
          expected.genesis, expected.identity, expected.planFingerprint, file.state.windows[w],
          v.onchainEvidenceFingerprint, normalized, v.proposedTransitions))
  }

  lemma {:induction false} ReportVerifies(targets: seq<Target>, input: Input, p: Proofs)
    requires ProveTargets(targets, input.observations, input.expected) == Ok(p)
    requires forall k :: 0 <= k < |targets| ==> targets[k].chunk.sha256.Sha256?
    ensures Verifies(p.verified, p.normalized, input.observations.transactions) && SlotsKnown(p.normalized)
  {
    var transactions := input.observations.transactions;
    AcceptedExactly(targets, input.observations, input.expected);
    hide ProveTargets, CountsSafe, DistinctEvidence, Proven;
    forall k | 0 <= k < |targets|
      ensures VerifiesAt(p.verified[k], p.normalized[k], transactions)
      ensures p.verified[k].chunkIndex == targets[k].chunk.index
      ensures p.normalized[k].slot.Some? && p.normalized[k].slot.value >= 0
    {
      assert ReportedAs(targets[k], p.verified[k], p.normalized[k], input.observations);
      assert ProvenBy(targets[k], input.observations, input.expected);
      var e := EvidenceFor(transactions, targets[k].chunk.index).value;
      WrittenIsProven(targets[k], e, input);
      assert e in transactions && e.signature == targets[k].chunk.signature;
    }
  }

  lemma {:induction false} OpenProposed(input: Input, chunks: seq<Record>, p: Proofs)
    requires Numbered(chunks) && forall i :: 0 <= i < |chunks| ==> chunks[i].sha256.Sha256?
    requires ProveTargets(OpenTargets(chunks), input.observations, input.expected) == Ok(p)
    ensures ProposesFor(p.transitions, input, chunks)
  {
    var targets := OpenTargets(chunks);
    OpenTargetsExact(chunks);
    AcceptedExactly(targets, input.observations, input.expected);
    AllToPropose(targets, chunks);
    hide OpenTargets, ProveTargets, TargetAt, ProposedFor, ProposedAt, ProvenBy, Reported;
    assert AllProposed(p, targets, input.observations) && AllProven(targets, input.observations, input.expected);
    forall k | 0 <= k < |targets|
      ensures ProposedAt(p.transitions[k], input, chunks) && p.transitions[k].chunkIndex == targets[k].chunk.index
    {
      assert TargetAt(targets[k], chunks) && ProposedFor(p.transitions[k], targets[k], input.observations);
      TargetHashed(targets[k], chunks);
      ProposesOne(p.transitions[k], targets[k], input, chunks);
    }
    hide AllProposed, AllProven;
    EachProposes(targets, p.transitions, input, chunks);
  }

  lemma {:induction false} AllToPropose(targets: seq<Target>, chunks: seq<Record>)
    requires TargetsExactly(targets, chunks)
    ensures forall t :: t in targets ==> t.proposed
  {
    forall t | t in targets
      ensures t.proposed
    {
      var k :| 0 <= k < |targets| && targets[k] == t;
      Proposed(targets, k, chunks);
    }
  }

  lemma {:induction false} TargetHashed(t: Target, chunks: seq<Record>)
    requires TargetAt(t, chunks) && forall i :: 0 <= i < |chunks| ==> chunks[i].sha256.Sha256?
    ensures t.chunk.sha256.Sha256?
  {
  }

  lemma {:induction false} EachProposes(targets: seq<Target>, transitions: seq<Transition>, input: Input, chunks: seq<Record>)
    requires TargetsExactly(targets, chunks) && |transitions| == |targets|
    requires forall k :: 0 <= k < |targets| ==>
      ProposedAt(transitions[k], input, chunks) && transitions[k].chunkIndex == targets[k].chunk.index
    ensures ProposesFor(transitions, input, chunks)
  {
    hide TargetAt, ProposedAt;
    forall i | 0 <= i < |chunks| && Unresolved(chunks[i])
      ensures exists t :: t in transitions && t.chunkIndex == i
    {
      assert Targeted(targets, i);
      var k :| 0 <= k < |targets| && targets[k].chunk.index == i;
      assert transitions[k] in transitions;
    }
  }

  lemma {:induction false} ProposesOne(transition: Transition, t: Target, input: Input, chunks: seq<Record>)
    requires TargetAt(t, chunks) && t.chunk.sha256.Sha256? && ProposedFor(transition, t, input.observations)
    requires ProvenBy(t, input.observations, input.expected)
    ensures ProposedAt(transition, input, chunks) && transition.chunkIndex == t.chunk.index
  {
    var e := EvidenceFor(input.observations.transactions, t.chunk.index).value;
    WrittenIsProven(t, e, input);
    hide Proven, Written, EvidenceFor;
    assert CostWitnessed(transition, input, chunks);
  }

  /** The targets a verdict was given on. */
  ghost predicate JudgedOn(targets: seq<Target>, state: State, w: nat)
    requires w < |state.windows|
  {
    var receipts := state.windows[w].reconciliationOutcomes;
    if receipts.None? then targets == OpenTargets(state.chunks)
    else
      && |receipts.value| == 1 && OpenTargets(state.chunks) == []
      && InRangeOf(receipts.value[0].transitions, state.chunks)
      && targets == TargetsOf(receipts.value[0].transitions, state.chunks)
  }

  ghost predicate SaidOf(v: Verdict, input: Input, lease: Lease, file: StateFile, w: nat, p: Proofs)
    requires w < |file.state.windows|
  {
    var fingerprint := Fingerprint(input.observations, p.normalized);
    v == Verdict(p.transitions == [], OfState(file), OfLease(lease), fingerprint,
      EvidenceHash(input.executionId, OfState(file), lease, input.expected, file.state.windows[w], fingerprint, p.normalized,
        p.transitions),
      p.verified, p.transitions)
  }

  lemma {:induction false} JudgedFrom(input: Input, lease: Lease, file: StateFile, w: nat, v: Verdict) returns (targets: seq<Target>, p: Proofs)
    requires w < |file.state.windows| && Judge(input, lease, file, w) == Ok(v)
    ensures JudgedOn(targets, file.state, w) && ProveTargets(targets, input.observations, input.expected) == Ok(p)
    ensures SaidOf(v, input, lease, file, w, p)
  {
    var chunks, receipts := file.state.chunks, file.state.windows[w].reconciliationOutcomes;
    targets := OpenTargets(chunks);
    if receipts.Some? {
      if ReceiptFits(receipts.value, input.executionId, OfLease(lease), chunks) {
        FitsParts(receipts.value, input.executionId, OfLease(lease), chunks);
        targets := TargetsOf(receipts.value[0].transitions, chunks);
        assert OpenTargets(chunks) == [] ==> OpenTargets(chunks) + targets == targets;
      }
    } else {
      assert OpenTargets(chunks) + [] == targets;
    }
    hide OpenTargets, ProveTargets, Fingerprint, EvidenceHash, ReceiptFits, ReceiptBacked, OutcomeUnknown, TargetsOf, InRangeOf;
    p := ProveTargets(targets, input.observations, input.expected).value;
  }

  lemma {:induction false} TargetsAreHashed(targets: seq<Target>, state: State, w: nat)
    requires w < |state.windows| && JudgedOn(targets, state, w) && Numbered(state.chunks)
    requires forall i :: 0 <= i < |state.chunks| ==> state.chunks[i].sha256.Sha256?
    ensures forall k :: 0 <= k < |targets| ==> targets[k].chunk.sha256.Sha256?
  {
    OpenTargetsExact(state.chunks);
    hide OpenTargets;
    if state.windows[w].reconciliationOutcomes.None? {
      forall k | 0 <= k < |targets|
        ensures targets[k].chunk.sha256.Sha256?
      {
        assert TargetAt(targets[k], state.chunks);
      }
    } else {
      var transitions := state.windows[w].reconciliationOutcomes.value[0].transitions;
      assert forall k :: 0 <= k < |transitions| ==> transitions[k] in transitions;
    }
  }

  /** Every part of a verdict, from what was read: its hashes, what was verified, what is proposed, and whether to release. */
  lemma {:induction false} VerdictSays(input: Input, lease: Lease, ownerActive: bool, file: StateFile, v: Verdict)
    requires Reconciled(input, Some(lease), ownerActive, Some(file)) == Ok(v)
    ensures v.releaseReady <==> !AnyUnresolved(file.state.chunks)
    ensures ProposesFor(v.proposedTransitions, input, file.state.chunks)
    ensures exists w: nat, normalized, highest ::
      && OnlyEnd(file.state.windows, input.executionId, w)
      && Verifies(v.verifiedTransactions, normalized, input.observations.transactions)
      && HashesSay(v, input, lease, file, w, normalized, highest)
  {
    hide *;
    JudgedOk(input, lease, ownerActive, file, v);
    var w := UniqueTerminal(file.state.windows, input.executionId).value;
    PlanNumbers(file.state, input.expected);
    var targets, p := JudgedFrom(input, lease, file, w, v);
    TargetsAreHashed(targets, file.state, w);
    ReportVerifies(targets, input, p);
    HighestSlotIsHighest(p.normalized);
    SaidHashes(v, input, lease, file, w, p);
    if file.state.windows[w].reconciliationOutcomes.None? {
      JudgedOnOpen(targets, file.state, w);
      OpenProposed(input, file.state.chunks, p);
      ProposesAny(p.transitions, input, file.state.chunks);
    } else {
      JudgedOnNothingOpen(targets, file.state, w, p, input);
    }
  }

  lemma {:induction false} JudgedOk(input: Input, lease: Lease, ownerActive: bool, file: StateFile, v: Verdict)
    requires Reconciled(input, Some(lease), ownerActive, Some(file)) == Ok(v)
    ensures PlanInOrder(file.state, input.expected) && ChainInOrder(input.observations, input.expected)
    ensures
      var w := UniqueTerminal(file.state.windows, input.executionId);
      && w.Some? && w.value < |file.state.windows| && Judge(input, lease, file, w.value) == Ok(v)
      && OnlyEnd(file.state.windows, input.executionId, w.value)
  {
    SafeExactly(input, Some(lease), ownerActive, Some(file));
    EndParts(file.state.windows, input.executionId);
    hide Judge, StoredPlan, BufferObserved, CompleteLease, SafeExecutionId, LeaseMatches, LeaseInOrder, PlanInOrder,
      LeaseExpected, ChainInOrder, OnlyEnd, WindowSettled;
  }

  lemma {:induction false} SaidHashes(v: Verdict, input: Input, lease: Lease, file: StateFile, w: nat, p: Proofs)
    requires w < |file.state.windows| && SaidOf(v, input, lease, file, w, p)
    requires ChainInOrder(input.observations, input.expected) && Highest(p.normalized, HighestSlot(p.normalized))
    ensures HashesSay(v, input, lease, file, w, p.normalized, HighestSlot(p.normalized))
    ensures v.verifiedTransactions == p.verified && v.proposedTransitions == p.transitions
    ensures v.releaseReady <==> p.transitions == []
  {
    hide Highest, HighestSlot;
  }

  lemma {:induction false} JudgedOnOpen(targets: seq<Target>, state: State, w: nat)
    requires w < |state.windows| && JudgedOn(targets, state, w) && state.windows[w].reconciliationOutcomes.None?
    ensures targets == OpenTargets(state.chunks)
  {
  }

  lemma {:induction false} ProposesAny(transitions: seq<Transition>, input: Input, chunks: seq<Record>)
    requires ProposesFor(transitions, input, chunks)
    ensures transitions == [] <==> !AnyUnresolved(chunks)
  {
    hide CostWitnessed;
    if transitions != [] {
      assert transitions[0] in transitions && ProposedAt(transitions[0], input, chunks);
    }
  }

  lemma {:induction false} JudgedOnNothingOpen(targets: seq<Target>, state: State, w: nat, p: Proofs, input: Input)
    requires w < |state.windows| && JudgedOn(targets, state, w) && state.windows[w].reconciliationOutcomes.Some?
    requires ProveTargets(targets, input.observations, input.expected) == Ok(p)
    ensures p.transitions == [] && !AnyUnresolved(state.chunks) && ProposesFor(p.transitions, input, state.chunks)
  {
    NoneUnresolved(state.chunks);
    AcceptedExactly(targets, input.observations, input.expected);
    hide ProveTargets, OpenTargets;
  }
}
