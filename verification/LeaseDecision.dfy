/**
 The verdict on a lease: refused for a reason, or safe to release together with
 the fingerprint of what was seen on chain and the hash of all the evidence
 (scripts/devnet/upload-execution-lease.mjs).
 */
module LeaseDecision {
  import opened ByteStrings
  import opened ChunkRecords
  import opened LeaseEvidence
  import opened LeaseReceipts
  import opened LeaseReconciliation
  import opened Outcomes

  datatype Verdict = Verdict(
    releaseReady: bool,
    preStateSha256: Hash,
    leaseSha256: Hash,
    onchainEvidenceFingerprint: Hash,
    evidenceHash: Hash,
    verifiedTransactions: seq<Verified>,
    proposedTransitions: seq<Transition>)

  predicate Alphanumeric(c: char) {
    'A' <= c <= 'Z' || 'a' <= c <= 'z' || '0' <= c <= '9'
  }

  predicate SafeExecutionId(id: string) {
    && 1 <= |id| <= 128
    && Alphanumeric(id[0])
    && forall i :: 1 <= i < |id| ==> Alphanumeric(id[i]) || id[i] in "._-"
  }

  predicate CompleteLease(lease: Lease) {
    && SafeExecutionId(lease.executionId) && lease.pid > 0
    && lease.hostname != "" && lease.startedAt != "" && lease.program != "" && lease.buffer != ""
    && IsHash(lease.planFingerprint) && IsHash(lease.stateSha256AtAcquire)
  }

  predicate LeaseMatches(lease: Lease, expected: Expected) {
    && lease.program == expected.identity.program && lease.buffer == expected.identity.buffer
    && lease.planFingerprint == expected.planFingerprint
  }

  predicate BufferObserved(observed: Observations, expected: Expected) {
    && observed.verifiedGenesis == expected.genesis
    && observed.programAbsent && observed.confirmedChunksMatch
    && SafeCount(observed.programContextSlot) && SafeCount(observed.bufferContextSlot)
    && observed.buffer.address == expected.identity.buffer && observed.buffer.owner == expected.identity.owner
    && observed.buffer.authority == expected.identity.authority
    && observed.buffer.allocation == expected.identity.allocation
    && observed.buffer.planFingerprint == expected.planFingerprint
  }

  predicate OutcomeUnknown(window: Window) {
    window.status == "RPC_OUTCOME_UNKNOWN"
  }

  // ----- fingerprints

  function HighestSlot(transactions: seq<Evidence>): int {
    if transactions == [] then 0
    else
      var highest := HighestSlot(transactions[..|transactions| - 1]);
      var slot := transactions[|transactions| - 1].slot.GetOr(0);
      if slot > highest then slot else highest
  }

  function Fingerprint(observed: Observations, normalized: seq<Evidence>): Hash {
    OfOnchain(OnchainProjection(observed.verifiedGenesis, HighestSlot(normalized), Sha256(observed.bufferData),
      observed.buffer.address, observed.buffer.owner, observed.buffer.authority, observed.buffer.allocation, normalized))
  }

  function EvidenceHash(
    executionId: string, preState: Hash, lease: Lease, expected: Expected, outcome: Window, fingerprint: Hash,
    normalized: seq<Evidence>, transitions: seq<Transition>): Hash
  {
    OfEvidence(EvidenceProjection(executionId, preState, OfLease(lease),
      lease.executionId, lease.program, lease.buffer, lease.planFingerprint, lease.stateSha256AtAcquire,
      expected.genesis, expected.identity, expected.planFingerprint, outcome, fingerprint, normalized, transitions))
  }

  // ----- the receipt against the evidence

  predicate TransitionBacked(t: Transition, normalized: seq<Evidence>) {
    var found := EvidenceFor(normalized, t.chunkIndex);
    && found.Some?
    && found.value.recordedStatus == t.from && found.value.signature == t.signature
    && found.value.slot == Some(t.slot) && found.value.feeLamports == Some(t.feeLamports)
    && found.value.payloadSha256 == Some(t.chunkSha256) && found.value.onchainSha256 == t.chunkSha256
  }

  /** The receipt is for exactly this evidence, and leads back to the state the evidence hash was computed on. */
  ghost predicate ReceiptBacked(
    receipt: Receipt, executionId: string, lease: Lease, expected: Expected, state: State, fingerprint: Hash,
    normalized: seq<Evidence>)
  {
    && receipt.onchainEvidenceFingerprint == fingerprint
    && (forall t :: t in receipt.transitions ==> TransitionBacked(t, normalized))
    && var before, w := PreState(state, receipt, expected), UniqueTerminal(state.windows, executionId);
      && before.Some? && w.Some? && w.value < |before.value.windows|
      && receipt.evidenceHash == EvidenceHash(executionId, receipt.stateSha256Before, lease, expected,
          before.value.windows[w.value], fingerprint, normalized, receipt.transitions)
  }

  // ----- the verdict

  /** What has been proved about a state whose identity and lease are in order. */
  ghost function Judge(input: Input, lease: Lease, file: StateFile, w: nat): Result<Verdict, Refusal>
    requires w < |file.state.windows|
  {
    var state, expected, observed := file.state, input.expected, input.observations;
    var window := state.windows[w];
    var receipts := window.reconciliationOutcomes;
    var open := |OpenTargets(state.chunks)|;
    if receipts.Some? && (!ReceiptFits(receipts.value, input.executionId, OfLease(lease), state.chunks) || open > 0)
    then Err(InsufficientEvidence)
    else if OutcomeUnknown(window) && open == 0 && receipts.None? then Err(InsufficientEvidence)
    else
      var targets := if receipts.Some? then TargetsOf(receipts.value[0].transitions, state.chunks) else [];
      var proofs :- ChunkProofs(state.chunks, observed, expected, targets);
      var fingerprint := Fingerprint(observed, proofs.normalized);
      if receipts.Some?
         && !ReceiptBacked(receipts.value[0], input.executionId, lease, expected, state, fingerprint, proofs.normalized)
      then Err(InsufficientEvidence)
      else Ok(Verdict(proofs.transitions == [], OfState(file), OfLease(lease), fingerprint,
        EvidenceHash(input.executionId, OfState(file), lease, expected, window, fingerprint, proofs.normalized,
          proofs.transitions),
        proofs.verified, proofs.transitions))
  }

  /** `lease` and `file` are None when they cannot be read or parsed. */
  ghost function Reconciled(input: Input, lease: Option<Lease>, ownerActive: bool, file: Option<StateFile>)
    : Result<Verdict, Refusal>
  {
    var expected := input.expected;
    if !SafeExecutionId(input.executionId) || lease.None? || file.None? then Err(InsufficientEvidence)
    else if !CompleteLease(lease.value) || lease.value.executionId != input.executionId then Err(InsufficientEvidence)
    else if ownerActive then Err(ActiveProcess)
    else if expected.stateSha256 != OfState(file.value) then Err(StateHashDrift)
    else if !SameIdentity(file.value.state, expected) then Err(IdentityOrOnchainMismatch)
    else if !StoredPlan(file.value.state, expected) then Err(InsufficientEvidence)
    else if !LeaseMatches(lease.value, expected) || !BufferObserved(input.observations, expected)
    then Err(IdentityOrOnchainMismatch)
    else
      var w := UniqueTerminal(file.value.state.windows, input.executionId);
      if w.None? then Err(InsufficientEvidence) else Judge(input, lease.value, file.value, w.value)
  }

  method ReconcileUploadLease(input: Input, lease: Option<Lease>, ownerActive: bool, file: Option<StateFile>)
    returns (r: Result<Verdict, Refusal>)
    ensures r == Reconciled(input, lease, ownerActive, file)
  {
    hide CompleteLease, SafeExecutionId, LeaseMatches, BufferObserved, Judge, StoredPlan;
    var expected := input.expected;
    if !SafeExecutionId(input.executionId) || lease.None? || file.None? {
      return Err(InsufficientEvidence);
    }
    if !CompleteLease(lease.value) || lease.value.executionId != input.executionId {
      return Err(InsufficientEvidence);
    }
    if ownerActive {
      return Err(ActiveProcess);
    }
    if expected.stateSha256 != OfState(file.value) {
      return Err(StateHashDrift);
    }
    if !SameIdentity(file.value.state, expected) {
      return Err(IdentityOrOnchainMismatch);
    }
    var planned := ValidateStoredPlan(file.value.state, expected);
    if !planned {
      return Err(InsufficientEvidence);
    }
    if !LeaseMatches(lease.value, expected) || !BufferObserved(input.observations, expected) {
      return Err(IdentityOrOnchainMismatch);
    }
    var w := FindTerminal(file.value.state.windows, input.executionId);
    if w.None? {
      return Err(InsufficientEvidence);
    }
    r := JudgeEvidence(input, lease.value, file.value, w.value);
  }

  method JudgeEvidence(input: Input, lease: Lease, file: StateFile, w: nat) returns (r: Result<Verdict, Refusal>)
    requires UniqueTerminal(file.state.windows, input.executionId) == Some(w)
    ensures r == Judge(input, lease, file, w)
  {
    hide ReceiptFits, ReceiptBacked, ChunkProofs, OpenTargets, Fingerprint, EvidenceHash, OutcomeUnknown, TargetsOf;
    var state, expected, observed := file.state, input.expected, input.observations;
    var window := state.windows[w];
    var unresolved := SelectOpen(state.chunks);
    var receipts := window.reconciliationOutcomes;
    var targets: seq<Target> := [];
    if receipts.Some? {
      var found := AppliedReceiptTargets(receipts.value, input.executionId, OfLease(lease), state.chunks);
      if found.None? || |unresolved| > 0 {
        return Err(InsufficientEvidence);
      }
      targets := found.value;
    }
    if OutcomeUnknown(window) && |unresolved| == 0 && receipts.None? {
      return Err(InsufficientEvidence);
    }
    var evaluated := EvaluateChunkProofs(state.chunks, observed, expected, targets);
    if evaluated.Err? {
      return Err(evaluated.error);
    }
    var proofs := evaluated.value;
    var fingerprint := Fingerprint(observed, proofs.normalized);
    if receipts.Some? {
      var backed := CheckReceipt(receipts.value, input.executionId, lease, expected, state, fingerprint, proofs.normalized);
      if !backed {
        return Err(InsufficientEvidence);
      }
    }
    return Ok(Verdict(proofs.transitions == [], OfState(file), OfLease(lease), fingerprint,
      EvidenceHash(input.executionId, OfState(file), lease, expected, window, fingerprint, proofs.normalized,
        proofs.transitions),
      proofs.verified, proofs.transitions));
  }

  method CheckReceipt(
    receipts: seq<Receipt>, executionId: string, lease: Lease, expected: Expected, state: State, fingerprint: Hash,
    normalized: seq<Evidence>) returns (backed: bool)
    requires ReceiptFits(receipts, executionId, OfLease(lease), state.chunks)
    ensures backed <==> ReceiptBacked(receipts[0], executionId, lease, expected, state, fingerprint, normalized)
  {
    hide EvidenceHash, TransitionBacked, TransitionFits, OpenExactly, StoredPlan;
    var receipt := receipts[0];
    if receipt.onchainEvidenceFingerprint != fingerprint {
      return false;
    }
    var verified := VerifiedAppliedReceipt(receipt.transitions, normalized);
    if !verified {
      return false;
    }
    var before := ReconstructReceiptPreState(state, receipt, expected);
    if before.None? {
      return false;
    }
    var w := FindTerminal(state.windows, executionId);
    return receipt.evidenceHash == EvidenceHash(executionId, receipt.stateSha256Before, lease, expected,
      before.value.windows[w.value], fingerprint, normalized, receipt.transitions);
  }

  method VerifiedAppliedReceipt(transitions: seq<Transition>, normalized: seq<Evidence>) returns (verified: bool)
    ensures verified <==> forall t :: t in transitions ==> TransitionBacked(t, normalized)
  {
    for k := 0 to |transitions|
      invariant forall i :: 0 <= i < k ==> TransitionBacked(transitions[i], normalized)
    {
      if !TransitionBacked(transitions[k], normalized) {
        return false;
      }
    }
    return true;
  }
}
