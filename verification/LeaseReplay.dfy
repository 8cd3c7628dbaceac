/**
 Reconciling again: after an apply on an unchanged chain the verdict repeats the
 fingerprint and has nothing left to propose, and a verdict on a state with a
 receipt vouches for the state before it
 (scripts/devnet/upload-execution-lease.mjs).
 */
module LeaseReplay {
  import opened ByteStrings
  import opened ChunkRecords
  import opened LeaseDecision
  import opened LeaseEvidence
  import opened LeaseReceipts
  import opened LeaseReconciliation
  import opened LeaseRoundTrip
  import opened Outcomes

  // ----- an unchanged chain

  /** The same evidence, read at the same slot or later. */
  predicate ReadLater(before: Evidence, after: Evidence) {
    && after == before.(snapshotSlot := after.snapshotSlot)
    && (before.snapshotSlot.Some? && SafeCount(before.snapshotSlot.value) ==>
          && after.snapshotSlot.Some? && SafeCount(after.snapshotSlot.value)
          && before.snapshotSlot.value <= after.snapshotSlot.value)
  }

  ghost predicate AllReadLater(before: seq<Evidence>, after: seq<Evidence>) {
    |after| == |before| && forall i :: 0 <= i < |before| ==> ReadLater(before[i], after[i])
  }

  /** Nothing was seen to change but the slots of the readings. */
  ghost predicate SameChain(before: Observations, after: Observations) {
    && after == before.(
        programContextSlot := after.programContextSlot, bufferContextSlot := after.bufferContextSlot,
        transactions := after.transactions)
    && before.bufferContextSlot <= after.bufferContextSlot
    && SafeCount(after.programContextSlot) && SafeCount(after.bufferContextSlot)
    && AllReadLater(before.transactions, after.transactions)
  }

  lemma {:induction false} FoundLater(before: seq<Evidence>, after: seq<Evidence>, index: int)
    requires AllReadLater(before, after)
    ensures EvidenceFor(before, index).Some? <==> EvidenceFor(after, index).Some?
    ensures EvidenceFor(before, index).Some? ==>
      ReadLater(EvidenceFor(before, index).value, EvidenceFor(after, index).value)
  {
    if before != [] {
      var n := |before| - 1;
      assert ReadLater(before[n], after[n]);
      FoundLater(before[..n], after[..n], index);
    }
  }

  lemma {:induction false} DistinctLater(before: seq<Evidence>, after: seq<Evidence>)
    requires AllReadLater(before, after) && DistinctEvidence(before)
    ensures DistinctEvidence(after)
  {
    forall i | 0 <= i < |after|
      ensures after[i].chunkIndex == before[i].chunkIndex
    {
      assert ReadLater(before[i], after[i]);
    }
  }

  /** The same chunk, whatever its record's status has become. */
  predicate SameTarget(before: Target, after: Target) {
    && after.from == before.from
    && after.chunk == before.chunk.(status := after.chunk.status)
  }

  lemma {:induction false} ProvenLater(before: Target, after: Target, seen: Observations, later: Observations, expected: Expected)
    requires SameTarget(before, after) && SameChain(seen, later) && ProvenBy(before, seen, expected)
    ensures ProvenBy(after, later, expected)
    ensures
      var e := EvidenceFor(seen.transactions, before.chunk.index).value;
      var e' := EvidenceFor(later.transactions, after.chunk.index).value;
      Project(e') == Project(e) && e'.slot == e.slot && e'.feeLamports == e.feeLamports
  {
    FoundLater(seen.transactions, later.transactions, before.chunk.index);
    hide EvidenceFor, SafeCount;
  }

  ghost predicate SameTargets(before: seq<Target>, after: seq<Target>) {
    |after| == |before| && forall k :: 0 <= k < |before| ==> SameTarget(before[k], after[k])
  }

  /** Evidence accepted once is accepted again, with the same projection. */
  lemma {:induction false} ReprovenLater(
    before: seq<Target>, after: seq<Target>, seen: Observations, later: Observations, expected: Expected)
    requires SameTargets(before, after) && SameChain(seen, later)
    requires ProveTargets(before, seen, expected).Ok?
    requires forall t :: t in after ==> !t.proposed
    ensures
      var p, p' := ProveTargets(before, seen, expected), ProveTargets(after, later, expected);
      && p'.Ok? && p'.value.normalized == p.value.normalized && p'.value.verified == p.value.verified
      && p'.value.transitions == []
  {
    AcceptedExactly(before, seen, expected);
    AcceptedExactly(after, later, expected);
    DistinctLater(seen.transactions, later.transactions);
    SameTargetsDistinct(before, after);
    AllProvenLater(before, after, seen, later, expected);
    hide *;
    assert |before| == |after| == |seen.transactions| == |later.transactions| by {
      SameLengths(before, after, seen, later);
    }
    AllReportedLater(before, after, ProveTargets(before, seen, expected).value, ProveTargets(after, later, expected).value,
      seen, later, expected);
  }

  lemma {:induction false} SameLengths(before: seq<Target>, after: seq<Target>, seen: Observations, later: Observations)
    requires SameTargets(before, after) && SameChain(seen, later)
    ensures |before| == |after| && |seen.transactions| == |later.transactions|
  {
  }

  lemma {:induction false} SameTargetsDistinct(before: seq<Target>, after: seq<Target>)
    requires SameTargets(before, after) && DistinctTargets(before)
    ensures DistinctTargets(after)
  {
    forall k | 0 <= k < |after|
      ensures after[k].chunk.index == before[k].chunk.index
    {
      assert SameTarget(before[k], after[k]);
    }
  }

  lemma {:induction false} AllProvenLater(before: seq<Target>, after: seq<Target>, seen: Observations, later: Observations, expected: Expected)
    requires SameTargets(before, after) && SameChain(seen, later) && AllProven(before, seen, expected)
    ensures AllProven(after, later, expected)
  {
    forall k | 0 <= k < |after|
      ensures ProvenBy(after[k], later, expected)
    {
      ProvenLater(before[k], after[k], seen, later, expected);
    }
  }

  lemma {:induction false} AllReportedLater(
    before: seq<Target>, after: seq<Target>, p: Proofs, p': Proofs, seen: Observations, later: Observations,
    expected: Expected)
    requires SameTargets(before, after) && SameChain(seen, later) && AllProven(before, seen, expected)
    requires Reported(p, before, seen) && Reported(p', after, later)
    ensures p'.normalized == p.normalized && p'.verified == p.verified
  {
    hide ProvenBy, ReportedAs, SameTarget, SameChain;
    forall k | 0 <= k < |after|
      ensures p'.normalized[k] == p.normalized[k] && p'.verified[k] == p.verified[k]
    {
      ReportedLater(before, after, p, p', seen, later, expected, k);
    }
  }

  lemma {:induction false} ReportedLater(
    before: seq<Target>, after: seq<Target>, p: Proofs, p': Proofs, seen: Observations, later: Observations,
    expected: Expected, k: nat)
    requires SameTargets(before, after) && SameChain(seen, later) && k < |before|
    requires Reported(p, before, seen) && Reported(p', after, later)
    requires ProvenBy(before[k], seen, expected)
    ensures p'.normalized[k] == p.normalized[k] && p'.verified[k] == p.verified[k]
  {
    ProvenLater(before[k], after[k], seen, later, expected);
    assert ReportedAs(before[k], p.verified[k], p.normalized[k], seen);
    assert ReportedAs(after[k], p'.verified[k], p'.normalized[k], later);
    hide EvidenceFor, Project, ProvenBy, SafeCount;
  }

  // ----- the targets of a receipt

  /** After an apply the receipt names the targets the open records were. */
  lemma {:induction false} ReceiptNamesTargets(chunks: seq<Record>, proofs: Proofs, observed: Observations)
    requires Numbered(chunks) && AllProposed(proofs, OpenTargets(chunks), observed)
    requires ClosesAll(proofs.transitions, chunks)
    ensures
      var after := Forward(chunks, proofs.transitions);
      && (forall t :: t in proofs.transitions ==> 0 <= t.chunkIndex < |after|)
      && SameTargets(OpenTargets(chunks), TargetsOf(proofs.transitions, after))
  {
    var targets, transitions := OpenTargets(chunks), proofs.transitions;
    OpenTargetsExact(chunks);
    hide OpenTargets, EvidenceFor, Naming;
    forall t | t in transitions
      ensures 0 <= t.chunkIndex < |chunks|
    {
      assert Closes(t, chunks);
    }
    forall k | 0 <= k < |transitions|
      ensures SameTarget(targets[k], TargetsOf(transitions, Forward(chunks, transitions))[k])
    {
      assert TargetAt(targets[k], chunks) && ProposedFor(transitions[k], targets[k], observed);
      NamingAt(transitions, k);
      assert Closes(transitions[k], chunks);
    }
  }

  lemma {:induction false} FoundAt(transactions: seq<Evidence>, k: nat)
    requires DistinctEvidence(transactions) && k < |transactions|
    ensures EvidenceFor(transactions, transactions[k].chunkIndex) == Some(transactions[k])
  {
    var found := EvidenceFor(transactions, transactions[k].chunkIndex);
    var j :| 0 <= j < |transactions| && transactions[j] == found.value;
    assert j == k;
  }

  /** Every transition proposed from evidence is backed by that evidence. */
  lemma {:induction false} ProposalsBacked(targets: seq<Target>, proofs: Proofs, observed: Observations, expected: Expected)
    requires ProveTargets(targets, observed, expected) == Ok(proofs)
    requires forall k :: 0 <= k < |targets| ==> targets[k].proposed
    ensures AllProposed(proofs, targets, observed)
    ensures forall t :: t in proofs.transitions ==> TransitionBacked(t, proofs.normalized)
  {
    ProvenPointwise(targets, observed, expected);
    hide ProveEach;
    forall k | 0 <= k < |targets|
      ensures proofs.normalized[k].chunkIndex == targets[k].chunk.index
      ensures BacksAt(proofs, targets, k)
    {
      BackedAt(targets, proofs, observed, expected, k);
    }
    hide BacksAt, ProposedFor, ReportedAs;
    forall t | t in proofs.transitions
      ensures TransitionBacked(t, proofs.normalized)
    {
      var k :| 0 <= k < |targets| && proofs.transitions[k] == t;
      FoundAt(proofs.normalized, k);
      BackedByOwn(proofs, targets, k);
    }
  }

  predicate BacksAt(proofs: Proofs, targets: seq<Target>, k: nat)
    requires k < |targets| == |proofs.transitions| == |proofs.normalized|
  {
    var t, e := proofs.transitions[k], proofs.normalized[k];
    && t.chunkIndex == e.chunkIndex
    && e.recordedStatus == t.from && e.signature == t.signature
    && e.slot == Some(t.slot) && e.feeLamports == Some(t.feeLamports)
    && e.payloadSha256 == Some(t.chunkSha256) && e.onchainSha256 == t.chunkSha256
  }

  lemma {:induction false} BackedAt(targets: seq<Target>, proofs: Proofs, observed: Observations, expected: Expected, k: nat)
    requires k < |targets| && Reported(proofs, targets, observed) && AllProposed(proofs, targets, observed)
    requires ProvenBy(targets[k], observed, expected)
    ensures proofs.normalized[k].chunkIndex == targets[k].chunk.index
    ensures BacksAt(proofs, targets, k)
  {
    assert ReportedAs(targets[k], proofs.verified[k], proofs.normalized[k], observed);
    assert ProposedFor(proofs.transitions[k], targets[k], observed);
    assert EvidenceFor(observed.transactions, targets[k].chunk.index).Some? ==>
      EvidenceFor(observed.transactions, targets[k].chunk.index).value.chunkIndex == targets[k].chunk.index;
    hide EvidenceFor, SafeCount;
  }

  lemma {:induction false} BackedByOwn(proofs: Proofs, targets: seq<Target>, k: nat)
    requires k < |targets| == |proofs.transitions| == |proofs.normalized|
    requires BacksAt(proofs, targets, k)
    requires EvidenceFor(proofs.normalized, proofs.normalized[k].chunkIndex) == Some(proofs.normalized[k])
    ensures TransitionBacked(proofs.transitions[k], proofs.normalized)
  {
  }

  // ----- reconciling after an apply

  ghost function AppliedFile(input: Input, file: StateFile, v: Verdict, appliedAt: string): StateFile
    requires UniqueTerminal(file.state.windows, input.executionId).Some?
  {
    StateFile(
      Applied(file.state, UniqueTerminal(file.state.windows, input.executionId).value,
        ReceiptOf(v, input.executionId, appliedAt)),
      true)
  }

  /** A later command for the same execution: it read the file's new hash and an unchanged chain. */
  ghost predicate Follows(input: Input, later: Input, file: StateFile) {
    && later.executionId == input.executionId
    && later.expected == input.expected.(stateSha256 := OfState(file))
    && SameChain(input.observations, later.observations)
  }

  /** The verdict of the next reconcile: the same fingerprint and transactions, and nothing left to propose. */
  predicate Settled(v: Verdict, next: Verdict, file: StateFile) {
    && next.releaseReady && next.proposedTransitions == []
    && next.onchainEvidenceFingerprint == v.onchainEvidenceFingerprint
    && next.verifiedTransactions == v.verifiedTransactions
    && next.leaseSha256 == v.leaseSha256 && next.preStateSha256 == OfState(file)
  }

  /** The proofs the apply was based on, and the same proofs found again for the receipt's targets. */
  lemma {:induction false} ProofsRepeat(
    chunks: seq<Record>, seen: Observations, later: Observations, expected: Expected, proofs: Proofs)
    requires Numbered(chunks) && SameChain(seen, later)
    requires ChunkProofs(chunks, seen, expected, []) == Ok(proofs)
    ensures
      var after := Forward(chunks, proofs.transitions);
      && ClosesAll(proofs.transitions, chunks)
      && (forall t :: t in proofs.transitions ==> 0 <= t.chunkIndex < |after|)
      && ChunkProofs(after, later, expected, TargetsOf(proofs.transitions, after)) ==
          Ok(Proofs([], proofs.verified, proofs.normalized))
    ensures forall t :: t in proofs.transitions ==> TransitionBacked(t, proofs.normalized)
  {
    var targets := OpenTargets(chunks);
    assert targets + [] == targets;
    ProposalsCloseAll(chunks, seen, expected);
    OpenTargetsExact(chunks);
    assert forall k :: 0 <= k < |targets| ==> targets[k].proposed;
    ProposalsBacked(targets, proofs, seen, expected);
    ReceiptNamesTargets(chunks, proofs, seen);
    BackwardUndoesForward(chunks, proofs.transitions);
    hide ProveTargets, OpenTargets, Naming, TransitionBacked, SameChain, SameTargets, Closes, EvidenceFor, Forward;
    var after := Forward(chunks, proofs.transitions);
    NoneOpenNoTargets(after);
    var named := TargetsOf(proofs.transitions, after);
    ReprovenLater(targets, named, seen, later, expected);
    NothingProposed(after, named, later, expected);
  }

  lemma {:induction false} NextReconcileSettles(
    input: Input, lease: Lease, file: StateFile, v: Verdict, appliedAt: string, later: Input)
    requires ReadyToApply(input, lease, file, v) && appliedAt != ""
    requires UniqueTerminal(file.state.windows, input.executionId).Some?
    requires Follows(input, later, AppliedFile(input, file, v, appliedAt))
    ensures
      var after := AppliedFile(input, file, v, appliedAt);
      var next := Reconciled(later, Some(lease), false, Some(after));
      next.Ok? && Settled(v, next.value, after)
  {
    Readiness(input, lease, file, v);
    ReadyMeansOpen(input, lease, file, v);
    ApplyThenReconstruct(input, lease, file, v, appliedAt);
    ValidWhenPlanned(file.state, input.expected);
    ValidIsNumbered(file.state.chunks);
    hide *;
    var after := AppliedFile(input, file, v, appliedAt);
    var w := UniqueTerminal(file.state.windows, input.executionId).value;
    var receipt := ReceiptOf(v, input.executionId, appliedAt);
    var proofs := ChunkProofs(file.state.chunks, input.observations, input.expected, []).value;
    SameChainFollows(input, later, after);
    ProofsRepeat(file.state.chunks, input.observations, later.observations, input.expected, proofs);
    AppliedFields(input, file, v, appliedAt);
    ProofsIgnoreHash(after.state.chunks, TargetsOf(receipt.transitions, after.state.chunks), later.observations,
      input.expected, later.expected);
    PlanIgnoresHash(after.state, receipt, input.expected, later.expected);
    EarlierChecksPass(input, lease, file, v, later, after);
    JudgeAgain(input, later, lease, file, after, w, receipt, proofs);
  }

  lemma {:induction false} SameChainFollows(input: Input, later: Input, file: StateFile)
    requires Follows(input, later, file)
    ensures SameChain(input.observations, later.observations)
    ensures later.expected == input.expected.(stateSha256 := later.expected.stateSha256)
    ensures later.executionId == input.executionId
  {
  }

  lemma {:induction false} AppliedFields(input: Input, file: StateFile, v: Verdict, appliedAt: string)
    requires UniqueTerminal(file.state.windows, input.executionId).Some?
    ensures
      var w := UniqueTerminal(file.state.windows, input.executionId).value;
      var receipt := ReceiptOf(v, input.executionId, appliedAt);
      var after := AppliedFile(input, file, v, appliedAt);
      && receipt.executionId == input.executionId && receipt.transitions == v.proposedTransitions
      && receipt.evidenceHash == v.evidenceHash && receipt.stateSha256Before == v.preStateSha256
      && receipt.onchainEvidenceFingerprint == v.onchainEvidenceFingerprint
      && after.state == Applied(file.state, w, receipt)
      && after.state == file.state.(
          chunks := Forward(file.state.chunks, v.proposedTransitions), windows := after.state.windows)
      && after.state.chunks == Forward(file.state.chunks, v.proposedTransitions)
      && w < |after.state.windows| && after.state.windows[w].reconciliationOutcomes == Some([receipt])
  {
  }

  /** A receipt whose own evidence is found again gets a verdict that repeats its fingerprint and proposes nothing. */
  lemma {:induction false} JudgeAgain(
    input: Input, later: Input, lease: Lease, file: StateFile, after: StateFile, w: nat, receipt: Receipt, proofs: Proofs)
    requires later.executionId == input.executionId && SameChain(input.observations, later.observations)
    requires later.expected == input.expected.(stateSha256 := later.expected.stateSha256)
    requires w < |after.state.windows| && after.state.windows[w].reconciliationOutcomes == Some([receipt])
    requires UniqueTerminal(file.state.windows, input.executionId) == Some(w)
    requires UniqueTerminal(after.state.windows, input.executionId) == Some(w)
    requires ReceiptFits([receipt], input.executionId, OfLease(lease), after.state.chunks)
    requires OpenTargets(after.state.chunks) == []
    requires PreState(after.state, receipt, later.expected) == Some(file.state)
    requires forall t :: t in receipt.transitions ==> 0 <= t.chunkIndex < |after.state.chunks|
    requires ChunkProofs(after.state.chunks, later.observations, later.expected,
      TargetsOf(receipt.transitions, after.state.chunks)) == Ok(Proofs([], proofs.verified, proofs.normalized))
    requires forall t :: t in receipt.transitions ==> TransitionBacked(t, proofs.normalized)
    requires receipt.onchainEvidenceFingerprint == Fingerprint(input.observations, proofs.normalized)
    requires receipt.evidenceHash == EvidenceHash(input.executionId, receipt.stateSha256Before, lease, input.expected,
      file.state.windows[w], receipt.onchainEvidenceFingerprint, proofs.normalized, receipt.transitions)
    ensures
      var next := Judge(later, lease, after, w);
      && next.Ok? && next.value.releaseReady && next.value.proposedTransitions == []
      && next.value.onchainEvidenceFingerprint == receipt.onchainEvidenceFingerprint
      && next.value.verifiedTransactions == proofs.verified
      && next.value.leaseSha256 == OfLease(lease) && next.value.preStateSha256 == OfState(after)
  {
    assert w < |file.state.windows|;
    hide ChunkProofs, OpenTargets, ReceiptFits, TransitionBacked, PreState, TargetsOf, UniqueEnd;
    assert Fingerprint(later.observations, proofs.normalized) == receipt.onchainEvidenceFingerprint by {
      hide HighestSlot, AllReadLater;
    }
    hide Fingerprint, SameChain;
    assert ReceiptBacked(receipt, later.executionId, lease, later.expected, after.state,
      receipt.onchainEvidenceFingerprint, proofs.normalized);
    hide ReceiptBacked, EvidenceHash;
  }

  /** Evaluating the evidence does not look at the hash of the state file. */
  lemma {:induction false} ProofsIgnoreHash(
    chunks: seq<Record>, receiptTargets: seq<Target>, observed: Observations, expected: Expected, later: Expected)
    requires later == expected.(stateSha256 := later.stateSha256)
    ensures ChunkProofs(chunks, observed, later, receiptTargets) == ChunkProofs(chunks, observed, expected, receiptTargets)
  {
    ProveEachIgnoresHash(OpenTargets(chunks) + receiptTargets, observed, expected, later);
  }

  lemma {:induction false} ProveEachIgnoresHash(
    targets: seq<Target>, observed: Observations, expected: Expected, later: Expected)
    requires later == expected.(stateSha256 := later.stateSha256)
    ensures ProveEach(targets, observed, later) == ProveEach(targets, observed, expected)
  {
    if targets != [] {
      var t := targets[|targets| - 1];
      ProveEachIgnoresHash(targets[..|targets| - 1], observed, expected, later);
      ProveLast(targets, observed, expected);
      ProveLast(targets, observed, later);
      assert forall found: Option<Evidence> ::
        Fault(t, found, observed.bufferContextSlot, later) == Fault(t, found, observed.bufferContextSlot, expected);
      hide *;
    }
  }

  /** The checks before the evidence is looked at pass again. */
  lemma {:induction false} EarlierChecksPass(input: Input, lease: Lease, file: StateFile, v: Verdict, later: Input, after: StateFile)
    requires Reconciled(input, Some(lease), false, Some(file)) == Ok(v)
    requires Follows(input, later, after)
    requires StoredPlan(after.state, input.expected)
    requires UniqueTerminal(after.state.windows, input.executionId).Some?
    ensures Reconciled(later, Some(lease), false, Some(after)) ==
      Judge(later, lease, after, UniqueTerminal(after.state.windows, input.executionId).value)
  {
    assert StoredPlan(after.state, later.expected) by {
      hide ValidRecords, TotalLength;
      assert PlanOf(later.expected, after.state.chunks) == PlanOf(input.expected, after.state.chunks);
    }
    assert SameIdentity(after.state, later.expected);
    hide Judge, SafeCount, AllReadLater, CompleteLease, SafeExecutionId, StoredPlan, SameIdentity;
  }

  lemma {:induction false} PlanIgnoresHash(state: State, receipt: Receipt, expected: Expected, later: Expected)
    requires later == expected.(stateSha256 := later.stateSha256)
    ensures StoredPlan(state, later) <==> StoredPlan(state, expected)
    ensures PreState(state, receipt, later) == PreState(state, receipt, expected)
  {
    hide ValidRecords, TotalLength, OpenExactly, Unapplied;
    assert forall chunks :: PlanOf(later, chunks) == PlanOf(expected, chunks);
    hide PlanOf;
    assert forall s :: StoredPlan(s, later) <==> StoredPlan(s, expected);
    hide StoredPlan;
  }

  // ----- what a receipt vouches for

  /** `before` differs from `state` by the receipt and its transitions and by nothing else. */
  ghost predicate LedHere(before: State, state: State, w: nat, receipt: Receipt) {
    && w < |before.windows| && before.windows[w].reconciliationOutcomes.None?
    && state == Applied(before, w, receipt)
    && ClosesAll(receipt.transitions, before.chunks)
    && OfState(StateFile(before, true)) == receipt.stateSha256Before
  }

  lemma {:induction false} ReceiptIsSound(input: Input, lease: Lease, file: StateFile, v: Verdict)
    requires Reconciled(input, Some(lease), false, Some(file)) == Ok(v)
    requires var w := UniqueTerminal(file.state.windows, input.executionId);
      w.Some? && file.state.windows[w.value].reconciliationOutcomes.Some?
    ensures
      var w := UniqueTerminal(file.state.windows, input.executionId).value;
      var receipts := file.state.windows[w].reconciliationOutcomes.value;
      && |receipts| == 1
      && (forall t :: t in receipts[0].transitions ==> 0 <= t.chunkIndex < |file.state.chunks|)
      && AllProven(TargetsOf(receipts[0].transitions, file.state.chunks), input.observations, input.expected)
      && receipts[0].onchainEvidenceFingerprint == v.onchainEvidenceFingerprint
      && v.releaseReady
      && var before := PreState(file.state, receipts[0], input.expected);
        && before.Some? && StoredPlan(before.value, input.expected) && LedHere(before.value, file.state, w, receipts[0])
  {
    hide *;
    VerdictParts(input, lease, file, v);
    var w := UniqueTerminal(file.state.windows, input.executionId).value;
    ReceiptAccepted(input, lease, file, v, w);
    var receipts := file.state.windows[w].reconciliationOutcomes.value;
    FitsOne(receipts, input.executionId, OfLease(lease), file.state.chunks);
    PreStateLedHere(file.state, w, receipts[0], input.expected, OfLease(lease));
  }

  lemma {:induction false} FitsOne(receipts: seq<Receipt>, executionId: string, leaseSha256: Hash, chunks: seq<Record>)
    requires ReceiptFits(receipts, executionId, leaseSha256, chunks)
    ensures receipts == [receipts[0]] && receipts[0].executionId == executionId
  {
  }

  /** What every verdict rests on. */
  lemma {:induction false} VerdictParts(input: Input, lease: Lease, file: StateFile, v: Verdict)
    requires Reconciled(input, Some(lease), false, Some(file)) == Ok(v)
    ensures StoredPlan(file.state, input.expected) && Numbered(file.state.chunks)
    ensures input.observations.confirmedChunksMatch && lease.executionId == input.executionId
    ensures var w := UniqueTerminal(file.state.windows, input.executionId);
      w.Some? && w.value < |file.state.windows| && Judge(input, lease, file, w.value) == Ok(v)
  {
    hide Judge, StoredPlan, CompleteLease, SafeExecutionId, LeaseMatches;
    ValidWhenPlanned(file.state, input.expected);
    ValidIsNumbered(file.state.chunks);
  }

  lemma {:induction false} ReceiptAccepted(input: Input, lease: Lease, file: StateFile, v: Verdict, w: nat)
    requires w < |file.state.windows| && Judge(input, lease, file, w) == Ok(v)
    requires file.state.windows[w].reconciliationOutcomes.Some?
    ensures
      var chunks, receipts := file.state.chunks, file.state.windows[w].reconciliationOutcomes.value;
      && ReceiptFits(receipts, input.executionId, OfLease(lease), chunks)
      && |receipts| == 1
      && (forall t :: t in receipts[0].transitions ==> 0 <= t.chunkIndex < |chunks|)
      && AllProven(TargetsOf(receipts[0].transitions, chunks), input.observations, input.expected)
      && receipts[0].onchainEvidenceFingerprint == v.onchainEvidenceFingerprint
      && PreState(file.state, receipts[0], input.expected).Some?
      && v.releaseReady
  {
    hide OutcomeUnknown, Fingerprint, EvidenceHash, OpenTargets, TransitionFits, HeaderFits, PreState, TransitionBacked;
    var chunks, receipts := file.state.chunks, file.state.windows[w].reconciliationOutcomes.value;
    ReceiptInRange(receipts, input.executionId, OfLease(lease), chunks);
    var targets := TargetsOf(receipts[0].transitions, chunks);
    NothingProposed(chunks, targets, input.observations, input.expected);
    AcceptedExactly(targets, input.observations, input.expected);
  }

  lemma {:induction false} PreStateLedHere(state: State, w: nat, receipt: Receipt, expected: Expected, leaseSha256: Hash)
    requires UniqueTerminal(state.windows, receipt.executionId) == Some(w) && w < |state.windows|
    requires state.windows[w].reconciliationOutcomes == Some([receipt])
    requires ReceiptFits([receipt], receipt.executionId, leaseSha256, state.chunks)
    requires PreState(state, receipt, expected).Some?
    ensures
      var before := PreState(state, receipt, expected).value;
      StoredPlan(before, expected) && LedHere(before, state, w, receipt)
  {
    assert w < |state.windows|;
    hide StoredPlan, UniqueEnd, HeaderFits;
    var before := Unapplied(state, w, receipt.transitions);
    ValidWhenPlanned(before, expected);
    ValidIsNumbered(before.chunks);
    FitsMeansCloses(state.chunks, receipt.transitions);
    ForwardUndoesBackward(state.chunks, receipt.transitions);
    assert before.windows[w := before.windows[w].(reconciliationOutcomes := Some([receipt]))] == state.windows;
  }

  lemma {:induction false} FitsMeansCloses(chunks: seq<Record>, transitions: seq<Transition>)
    requires DistinctTransitions(transitions) && forall t :: t in transitions ==> TransitionFits(t, chunks)
    requires Numbered(Backward(chunks, transitions)) && OpenExactly(Backward(chunks, transitions), transitions)
    ensures ClosesAll(transitions, Backward(chunks, transitions))
  {
    var before := Backward(chunks, transitions);
    forall t | t in transitions
      ensures Closes(t, before)
    {
      assert TransitionFits(t, chunks);
      var k :| 0 <= k < |transitions| && transitions[k] == t;
      NamingAt(transitions, k);
    }
    forall i | 0 <= i < |before| && Open(before[i])
      ensures Naming(transitions, i).Some?
    {
      assert OpenedBy(before[i], transitions);
    }
  }

  /** A lease is ready for release exactly when its state has no open record. */
  lemma {:induction false} ReleaseReadyWhenNoneOpen(input: Input, lease: Lease, file: StateFile, v: Verdict)
    requires Reconciled(input, Some(lease), false, Some(file)) == Ok(v)
    ensures v.releaseReady <==> forall i :: 0 <= i < |file.state.chunks| ==> !Open(file.state.chunks[i])
  {
    NoneOpenNoTargets(file.state.chunks);
    hide *;
    VerdictParts(input, lease, file, v);
    var w := UniqueTerminal(file.state.windows, input.executionId).value;
    if file.state.windows[w].reconciliationOutcomes.Some? {
      NothingOpenWithReceipt(input, lease, file, v, w);
    } else {
      OpenWithoutReceipt(input, lease, file, v, w);
    }
  }

  lemma {:induction false} NothingOpenWithReceipt(input: Input, lease: Lease, file: StateFile, v: Verdict, w: nat)
    requires w < |file.state.windows| && Judge(input, lease, file, w) == Ok(v)
    requires file.state.windows[w].reconciliationOutcomes.Some?
    ensures OpenTargets(file.state.chunks) == [] && v.releaseReady
  {
    hide ReceiptBacked, Fingerprint, EvidenceHash, ChunkProofs, OpenTargets, OutcomeUnknown, ReceiptFits;
    NothingProposedWithReceipt(input, lease, file, w);
  }

  lemma {:induction false} OpenWithoutReceipt(input: Input, lease: Lease, file: StateFile, v: Verdict, w: nat)
    requires w < |file.state.windows| && Judge(input, lease, file, w) == Ok(v) && Numbered(file.state.chunks)
    requires file.state.windows[w].reconciliationOutcomes.None?
    ensures v.releaseReady <==> OpenTargets(file.state.chunks) == []
  {
    hide Fingerprint, EvidenceHash, OpenTargets, ChunkProofs;
    ProposalsCloseAll(file.state.chunks, input.observations, input.expected);
  }

  // ----- collecting again

  /** Looking again, at an unchanged chain, proves the same things in the same words. */
  lemma {:induction false} ProofsStable(
    targets: seq<Target>, seen: Observations, later: Observations, expected: Expected)
    requires SameChain(seen, later) && ProveEach(targets, seen, expected).Ok?
    ensures ProveEach(targets, later, expected) == ProveEach(targets, seen, expected)
  {
    if targets != [] {
      var t := targets[|targets| - 1];
      ProveLast(targets, seen, expected);
      ProveLast(targets, later, expected);
      LastStable(t, seen, later, expected);
      hide *;
      ProofsStable(targets[..|targets| - 1], seen, later, expected);
    }
  }

  lemma {:induction false} LastStable(t: Target, seen: Observations, later: Observations, expected: Expected)
    requires SameChain(seen, later)
    requires Fault(t, EvidenceFor(seen.transactions, t.chunk.index), seen.bufferContextSlot, expected).None?
    ensures Fault(t, EvidenceFor(later.transactions, t.chunk.index), later.bufferContextSlot, expected).None?
    ensures
      var e := EvidenceFor(seen.transactions, t.chunk.index);
      var e' := EvidenceFor(later.transactions, t.chunk.index);
      && e.Some? && e'.Some? && CountsSafe(e.value) && CountsSafe(e'.value)
      && forall p :: Extended(p, t, e'.value) == Extended(p, t, e.value)
  {
    var e := EvidenceFor(seen.transactions, t.chunk.index).value;
    NoFaultMeansProven(t, e, seen.bufferContextSlot, expected);
    FoundLater(seen.transactions, later.transactions, t.chunk.index);
    var e' := EvidenceFor(later.transactions, t.chunk.index).value;
    assert Proven(t, e', later.bufferContextSlot, expected) by {
      hide EvidenceFor, SafeCount;
    }
    NoFaultMeansProven(t, e', later.bufferContextSlot, expected);
    assert Project(e') == Project(e) && e'.slot == e.slot && e'.feeLamports == e.feeLamports;
    hide Fault, EvidenceFor, SafeCount, Project, Proven, CountsSafe;
  }

  lemma {:induction false} ChunkProofsStable(
    chunks: seq<Record>, targets: seq<Target>, seen: Observations, later: Observations, expected: Expected)
    requires SameChain(seen, later) && ChunkProofs(chunks, seen, expected, targets).Ok?
    ensures ChunkProofs(chunks, later, expected, targets) == ChunkProofs(chunks, seen, expected, targets)
  {
    hide ProveEach, OpenTargets, EvidenceFor;
    ProofsStable(OpenTargets(chunks) + targets, seen, later, expected);
    DistinctLater(seen.transactions, later.transactions);
  }

  /** The verdict, evidence hash included, does not depend on when the same chain was looked at. */
  lemma {:induction false} VerdictIsStable(input: Input, lease: Lease, file: StateFile, v: Verdict, later: Input)
    requires Reconciled(input, Some(lease), false, Some(file)) == Ok(v)
    requires later == input.(observations := later.observations) && SameChain(input.observations, later.observations)
    ensures Reconciled(later, Some(lease), false, Some(file)) == Ok(v)
  {
    VerdictParts(input, lease, file, v);
    var w := UniqueTerminal(file.state.windows, input.executionId).value;
    assert Reconciled(later, Some(lease), false, Some(file)) == Judge(later, lease, file, w) by {
      hide Judge, SafeCount, AllReadLater, CompleteLease, SafeExecutionId, StoredPlan, SameIdentity;
    }
    JudgeIsStable(input, lease, file, v, later, w);
    hide *;
  }

  lemma {:induction false} JudgeIsStable(input: Input, lease: Lease, file: StateFile, v: Verdict, later: Input, w: nat)
    requires w < |file.state.windows| && Judge(input, lease, file, w) == Ok(v)
    requires later == input.(observations := later.observations) && SameChain(input.observations, later.observations)
    ensures Judge(later, lease, file, w) == Ok(v)
  {
    var chunks, receipts := file.state.chunks, file.state.windows[w].reconciliationOutcomes;
    hide ReceiptBacked, ReceiptFits, ChunkProofs, OpenTargets, OutcomeUnknown, EvidenceHash, AllReadLater, HighestSlot,
      TransitionFits;
    var targets: seq<Target> := [];
    if receipts.Some? {
      ReceiptInRange(receipts.value, input.executionId, OfLease(lease), chunks);
      targets := TargetsOf(receipts.value[0].transitions, chunks);
    }
    hide TargetsOf;
    ChunkProofsStable(chunks, targets, input.observations, later.observations, input.expected);
  }
}
