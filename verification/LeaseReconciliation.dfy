/**
 Deciding whether a dead uploader's lease may be released: every record it left
 open needs finalized, error-free, matching evidence, and a state that was already
 reconciled needs a receipt from which the state before it can be rebuilt
 (scripts/devnet/upload-execution-lease.mjs).
 */
module LeaseReconciliation {
  import opened ByteStrings
  import opened ChunkRecords
  import opened LeaseEvidence
  import opened Outcomes

  datatype Refusal =
    | InsufficientEvidence | ActiveProcess | StateHashDrift | IdentityOrOnchainMismatch
    | UnresolvedSentOrUnknown | ConfirmedTransactionFailure | TransactionEvidenceMismatch

  // ----- the stored plan

  function TotalLength(chunks: seq<Record>): int {
    if chunks == [] then 0 else TotalLength(chunks[..|chunks| - 1]) + chunks[|chunks| - 1].length
  }

  predicate SameIdentity(state: State, expected: Expected) {
    state.identity == expected.identity && state.planFingerprint == expected.planFingerprint
  }

  ghost predicate StoredPlan(state: State, expected: Expected) {
    && SameIdentity(state, expected)
    && expected.identity.binarySha256.Sha256?
    && expected.identity.binaryLength >= 1
    && expected.identity.allocation == expected.identity.binaryLength + 37
    && ValidRecords(state.chunks)
    && TotalLength(state.chunks) == expected.identity.binaryLength
    && PlanOf(expected, state.chunks) == expected.planFingerprint
  }

  method ValidateStoredPlan(state: State, expected: Expected) returns (ok: bool)
    ensures ok <==> StoredPlan(state, expected)
  {
    hide ValidRecords, PlanOf;
    if !expected.identity.binarySha256.Sha256? || !SameIdentity(state, expected) {
      return false;
    }
    if expected.identity.binaryLength < 1 || expected.identity.allocation != expected.identity.binaryLength + 37 {
      return false;
    }
    var checked := ValidateChunkRecords(state.chunks);
    var total := 0;
    for i := 0 to |state.chunks|
      invariant total == TotalLength(state.chunks[..i])
    {
      total := total + state.chunks[i].length;
      assert state.chunks[..i + 1][..i] == state.chunks[..i];
    }
    assert state.chunks[..|state.chunks|] == state.chunks;
    return checked.Ok? && total == expected.identity.binaryLength
      && PlanOf(expected, state.chunks) == expected.planFingerprint;
  }

  // ----- the terminal outcome of an execution

  predicate Ends(window: Window, executionId: string) {
    window.executionId == executionId && window.terminal
  }

  /** Position of the only terminal outcome of the execution, if there is exactly one. */
  ghost predicate UniqueEnd(windows: seq<Window>, executionId: string, w: nat) {
    w < |windows| && forall i :: 0 <= i < |windows| ==> (Ends(windows[i], executionId) <==> i == w)
  }

  ghost function UniqueTerminal(windows: seq<Window>, executionId: string): (w: Option<nat>)
    ensures w.Some? ==> UniqueEnd(windows, executionId, w.value)
    ensures w.None? ==> forall i :: !UniqueEnd(windows, executionId, i)
  {
    if i: nat :| UniqueEnd(windows, executionId, i) then Some(i) else None
  }

  method FindTerminal(windows: seq<Window>, executionId: string) returns (w: Option<nat>)
    ensures w == UniqueTerminal(windows, executionId)
  {
    var matches: seq<nat> := [];
    for i := 0 to |windows|
      invariant forall k :: k in matches <==> 0 <= k < i && Ends(windows[k], executionId)
      invariant forall k :: 0 <= k < |matches| ==> matches[k] < i
      invariant forall k, l :: 0 <= k < l < |matches| ==> matches[k] < matches[l]
    {
      if Ends(windows[i], executionId) {
        matches := matches + [i];
      }
    }
    assert |matches| > 1 ==>
      matches[0] in matches && matches[1] in matches && Ends(windows[matches[0]], executionId)
      && Ends(windows[matches[1]], executionId);
    forall i: nat | UniqueEnd(windows, executionId, i)
      ensures i in matches && |matches| == 1
    {
      assert Ends(windows[i], executionId);
    }
    if |matches| == 1 {
      assert forall k :: k in matches <==> k == matches[0];
      assert UniqueEnd(windows, executionId, matches[0]);
      return Some(matches[0]);
    }
    return None;
  }

  // ----- what has to be proved on chain

  /** A record whose transaction has to be proved, the status it had when the uploader died, and whether it still has it. */
  datatype Target = Target(chunk: Record, from: Status, proposed: bool)

  datatype Verified = Verified(chunkIndex: int, signature: Option<string>, slot: int, feeLamports: int)

  datatype Proofs = Proofs(transitions: seq<Transition>, verified: seq<Verified>, normalized: seq<Evidence>)

  function OpenTargets(chunks: seq<Record>): seq<Target> {
    if chunks == [] then []
    else
      var last := chunks[|chunks| - 1];
      OpenTargets(chunks[..|chunks| - 1]) + if Open(last) then [Target(last, last.status, true)] else []
  }

  predicate CountsSafe(e: Evidence) {
    && e.statusSlot.Some? && SafeCount(e.statusSlot.value)
    && SafeCount(e.signatureCount)
    && e.slot.Some? && SafeCount(e.slot.value)
    && e.feeLamports.Some? && SafeCount(e.feeLamports.value)
    && SafeCount(e.instructionCount)
    && e.innerInstructionCount.Some? && SafeCount(e.innerInstructionCount.value)
    && SafeCount(e.accountCount)
    && e.offset.Some? && SafeCount(e.offset.value)
    && SafeCount(e.payloadLength) && SafeCount(e.onchainLength)
    && e.snapshotSlot.Some? && SafeCount(e.snapshotSlot.value)
    && e.payloadSha256.Some? && e.payloadSha256.value.Sha256? && e.onchainSha256.Sha256?
  }

  predicate Finalized(e: Evidence) {
    e.signatureStatusFound && e.transactionFound && e.confirmationStatus == Some("finalized")
  }

  /** The transaction is one write of exactly this chunk to this buffer by this authority. */
  predicate WritesChunk(t: Target, e: Evidence, expected: Expected) {
    && e.recordedStatus == t.from
    && e.signature == t.chunk.signature && e.transactionSignature == t.chunk.signature
    && e.signatureCount == 1 && e.statusSlot == e.slot
    && e.legacyMessage && e.instructionCount == 1 && e.innerInstructionCount == Some(0)
    && e.instructionDecoded
    && e.program == Some(expected.identity.owner)
    && e.accountCount == 2
    && e.buffer == Some(expected.identity.buffer) && e.authority == Some(expected.identity.authority)
    && e.bufferWritable && e.authoritySigner
    && e.offset == Some(t.chunk.offset) && e.payloadLength == t.chunk.length
    && e.payloadSha256 == Some(t.chunk.sha256) && e.payloadExactMatch
  }

  predicate HoldsChunk(t: Target, e: Evidence) {
    e.onchainLength == t.chunk.length && e.onchainSha256 == t.chunk.sha256 && e.onchainExactMatch
  }

  /** Why the evidence for one record is refused, in the order of the checks. */
  function Fault(t: Target, found: Option<Evidence>, bufferContextSlot: int, expected: Expected): Option<Refusal> {
    if found.None? then Some(InsufficientEvidence) else
    var e := found.value;
    if !Finalized(e) then Some(UnresolvedSentOrUnknown)
    else if e.statusErr.None? || e.metaErr.None? then Some(InsufficientEvidence)
    else if e.statusErr.value || e.metaErr.value then Some(ConfirmedTransactionFailure)
    else if !CountsSafe(e) then Some(InsufficientEvidence)
    else if !WritesChunk(t, e, expected) then Some(TransactionEvidenceMismatch)
    else if e.snapshotSlot.value < e.slot.value || bufferContextSlot < e.slot.value then Some(InsufficientEvidence)
    else if !HoldsChunk(t, e) then Some(IdentityOrOnchainMismatch)
    else None
  }

  /** Finalized, error-free, of exactly this write, and seen on chain no earlier than the write. */
  predicate Proven(t: Target, e: Evidence, bufferContextSlot: int, expected: Expected) {
    && Finalized(e) && e.statusErr == Some(false) && e.metaErr == Some(false)
    && CountsSafe(e) && WritesChunk(t, e, expected) && HoldsChunk(t, e)
    && e.slot.value <= e.snapshotSlot.value && e.slot.value <= bufferContextSlot
  }

  lemma {:induction false} NoFaultMeansProven(t: Target, e: Evidence, bufferContextSlot: int, expected: Expected)
    ensures Fault(t, Some(e), bufferContextSlot, expected).None? <==> Proven(t, e, bufferContextSlot, expected)
  {
  }

  /** The last piece of evidence for a chunk. */
  function EvidenceFor(transactions: seq<Evidence>, index: int): (found: Option<Evidence>)
    ensures found.Some? <==> exists i :: 0 <= i < |transactions| && transactions[i].chunkIndex == index
    ensures found.Some? ==> found.value in transactions && found.value.chunkIndex == index
  {
    if transactions == [] then None
    else if transactions[|transactions| - 1].chunkIndex == index then Some(transactions[|transactions| - 1])
    else
      var before := EvidenceFor(transactions[..|transactions| - 1], index);
      assert forall e :: e in transactions[..|transactions| - 1] ==> e in transactions;
      before
  }

  ghost predicate DistinctTargets(targets: seq<Target>) {
    forall i, j :: 0 <= i < j < |targets| ==> targets[i].chunk.index != targets[j].chunk.index
  }

  ghost predicate DistinctEvidence(transactions: seq<Evidence>) {
    forall i, j :: 0 <= i < j < |transactions| ==> transactions[i].chunkIndex != transactions[j].chunkIndex
  }

  function TransitionOf(t: Target, e: Evidence): Transition
    requires CountsSafe(e)
  {
    Transition(t.chunk.index, t.from, Confirmed, t.chunk.signature, e.slot.value, e.feeLamports.value, t.chunk.sha256)
  }

  function Extended(p: Proofs, t: Target, e: Evidence): Proofs
    requires CountsSafe(e)
  {
    Proofs(
      if t.proposed then p.transitions + [TransitionOf(t, e)] else p.transitions,
      p.verified + [Verified(t.chunk.index, t.chunk.signature, e.slot.value, e.feeLamports.value)],
      p.normalized + [Project(e)])
  }

  function ProveEach(targets: seq<Target>, observed: Observations, expected: Expected): Result<Proofs, Refusal> {
    if targets == [] then Ok(Proofs([], [], []))
    else
      var before :- ProveEach(targets[..|targets| - 1], observed, expected);
      var t := targets[|targets| - 1];
      var found := EvidenceFor(observed.transactions, t.chunk.index);
      var fault := Fault(t, found, observed.bufferContextSlot, expected);
      if fault.Some? then Err(fault.value) else Ok(Extended(before, t, found.value))
  }

  ghost function ProveTargets(targets: seq<Target>, observed: Observations, expected: Expected): Result<Proofs, Refusal> {
    if !DistinctTargets(targets) || |observed.transactions| != |targets| || !DistinctEvidence(observed.transactions)
    then Err(InsufficientEvidence)
    else ProveEach(targets, observed, expected)
  }

  ghost function ChunkProofs(
    chunks: seq<Record>, observed: Observations, expected: Expected, receiptTargets: seq<Target>)
    : Result<Proofs, Refusal>
  {
    ProveTargets(OpenTargets(chunks) + receiptTargets, observed, expected)
  }

  method SelectOpen(chunks: seq<Record>) returns (targets: seq<Target>)
    ensures targets == OpenTargets(chunks)
  {
    targets := [];
    for i := 0 to |chunks|
      invariant targets == OpenTargets(chunks[..i])
    {
      assert chunks[..i + 1][..i] == chunks[..i];
      if Open(chunks[i]) {
        targets := targets + [Target(chunks[i], chunks[i].status, true)];
      }
    }
    assert chunks[..|chunks|] == chunks;
  }

  method HaveDistinctIndices(targets: seq<Target>) returns (distinct: bool)
    ensures distinct <==> DistinctTargets(targets)
  {
    var indices: set<int> := {};
    for i := 0 to |targets|
      invariant DistinctTargets(targets[..i])
      invariant forall n :: n in indices <==> exists k :: 0 <= k < i && targets[k].chunk.index == n
    {
      if targets[i].chunk.index in indices {
        return false;
      }
      indices := indices + {targets[i].chunk.index};
    }
    assert targets[..|targets|] == targets;
    return true;
  }

  /** The evidence by chunk, or None when some chunk has two pieces of it. */
  method IndexEvidence(transactions: seq<Evidence>) returns (r: Option<map<int, Evidence>>)
    ensures r.Some? <==> DistinctEvidence(transactions)
    ensures r.Some? ==> Indexes(r.value, transactions)
  {
    var byIndex: map<int, Evidence> := map[];
    for i := 0 to |transactions|
      invariant DistinctEvidence(transactions[..i])
      invariant Indexes(byIndex, transactions[..i])
    {
      assert transactions[..i + 1][..i] == transactions[..i];
      var e := transactions[i];
      if e.chunkIndex in byIndex {
        assert EvidenceFor(transactions[..i], e.chunkIndex).Some?;
        return None;
      }
      assert EvidenceFor(transactions[..i], e.chunkIndex).None?;
      byIndex := byIndex[e.chunkIndex := e];
    }
    assert transactions[..|transactions|] == transactions;
    return Some(byIndex);
  }

  ghost predicate Indexes(byIndex: map<int, Evidence>, transactions: seq<Evidence>) {
    forall n :: (if n in byIndex then Some(byIndex[n]) else None) == EvidenceFor(transactions, n)
  }

  method EvaluateChunkProofs(
    chunks: seq<Record>, observed: Observations, expected: Expected, receiptTargets: seq<Target>)
    returns (r: Result<Proofs, Refusal>)
    ensures r == ChunkProofs(chunks, observed, expected, receiptTargets)
  {
    hide DistinctTargets, DistinctEvidence, EvidenceFor, Fault, CountsSafe, ProveEach, OpenTargets;
    var open := SelectOpen(chunks);
    var targets := open + receiptTargets;
    var distinct := HaveDistinctIndices(targets);
    var transactions := observed.transactions;
    if !distinct || |transactions| != |targets| {
      return Err(InsufficientEvidence);
    }
    var indexed := IndexEvidence(transactions);
    if indexed.None? {
      return Err(InsufficientEvidence);
    }
    r := CollectProofs(targets, indexed.value, observed, expected);
  }

  method CollectProofs(targets: seq<Target>, byIndex: map<int, Evidence>, observed: Observations, expected: Expected)
    returns (r: Result<Proofs, Refusal>)
    requires Indexes(byIndex, observed.transactions)
    ensures r == ProveEach(targets, observed, expected)
  {
    assert ProveEach([], observed, expected) == Ok(Proofs([], [], []));
    hide ProveEach, EvidenceFor, Fault, Extended, CountsSafe;
    var proofs := Proofs([], [], []);
    for i := 0 to |targets|
      invariant ProveEach(targets[..i], observed, expected) == Ok(proofs)
    {
      var t := targets[i];
      assert targets[..i + 1][..i] == targets[..i];
      ProveLast(targets[..i + 1], observed, expected);
      var found := if t.chunk.index in byIndex then Some(byIndex[t.chunk.index]) else None;
      assert found == EvidenceFor(observed.transactions, t.chunk.index);
      var fault := Fault(t, found, observed.bufferContextSlot, expected);
      if fault.Some? {
        FailsWhole(targets, i + 1, observed, expected);
        return Err(fault.value);
      }
      proofs := Extended(proofs, t, found.value);
    }
    assert targets[..|targets|] == targets;
    return Ok(proofs);
  }

  lemma {:induction false} FailsWhole(targets: seq<Target>, n: nat, observed: Observations, expected: Expected)
    requires n <= |targets| && ProveEach(targets[..n], observed, expected).Err?
    ensures ProveEach(targets, observed, expected) == ProveEach(targets[..n], observed, expected)
    decreases |targets|
  {
    if n == |targets| {
      assert targets[..n] == targets;
    } else {
      assert targets[..|targets| - 1][..n] == targets[..n];
      FailsWhole(targets[..|targets| - 1], n, observed, expected);
    }
  }

  /** The target has evidence, and the evidence proves it. */
  predicate ProvenBy(t: Target, observed: Observations, expected: Expected) {
    var found := EvidenceFor(observed.transactions, t.chunk.index);
    found.Some? && Proven(t, found.value, observed.bufferContextSlot, expected)
  }

  /** The evidence reported for the target is the evidence found for it. */
  predicate ReportedAs(t: Target, verified: Verified, normalized: Evidence, observed: Observations) {
    var found := EvidenceFor(observed.transactions, t.chunk.index);
    && found.Some? && CountsSafe(found.value)
    && normalized == Project(found.value)
    && verified == Verified(t.chunk.index, t.chunk.signature, found.value.slot.value, found.value.feeLamports.value)
  }

  predicate ProposedFor(transition: Transition, t: Target, observed: Observations) {
    var found := EvidenceFor(observed.transactions, t.chunk.index);
    found.Some? && CountsSafe(found.value) && transition == TransitionOf(t, found.value)
  }

  ghost predicate Reported(p: Proofs, targets: seq<Target>, observed: Observations) {
    && |p.normalized| == |targets| == |p.verified|
    && forall i :: 0 <= i < |targets| ==> ReportedAs(targets[i], p.verified[i], p.normalized[i], observed)
  }

  ghost predicate AllProposed(p: Proofs, targets: seq<Target>, observed: Observations) {
    && |p.transitions| == |targets|
    && forall i :: 0 <= i < |targets| ==> ProposedFor(p.transitions[i], targets[i], observed)
  }

  ghost predicate AllProven(targets: seq<Target>, observed: Observations, expected: Expected) {
    forall k :: 0 <= k < |targets| ==> ProvenBy(targets[k], observed, expected)
  }

  predicate NoneProposed(targets: seq<Target>) {
    forall t :: t in targets ==> !t.proposed
  }

  predicate EachProposed(targets: seq<Target>) {
    forall t :: t in targets ==> t.proposed
  }

  /** Evidence is accepted exactly when every target is proven; nothing is lost, reordered or invented. */
  ghost predicate Pointwise(
    targets: seq<Target>, observed: Observations, expected: Expected, r: Result<Proofs, Refusal>)
  {
    && (r.Ok? <==> AllProven(targets, observed, expected))
    && (r.Ok? ==> Reported(r.value, targets, observed))
    && (r.Ok? && NoneProposed(targets) ==> r.value.transitions == [])
    && (r.Ok? && EachProposed(targets) ==> AllProposed(r.value, targets, observed))
  }

  lemma {:induction false} ProvenPointwise(targets: seq<Target>, observed: Observations, expected: Expected)
    ensures Pointwise(targets, observed, expected, ProveEach(targets, observed, expected))
  {
    if targets != [] {
      ProvenPointwise(targets[..|targets| - 1], observed, expected);
      hide Pointwise, ProveEach;
      PointwiseStep(targets, observed, expected);
    }
  }

  lemma {:induction false} PointwiseStep(targets: seq<Target>, observed: Observations, expected: Expected)
    requires targets != []
    requires var before := targets[..|targets| - 1];
      Pointwise(before, observed, expected, ProveEach(before, observed, expected))
    ensures Pointwise(targets, observed, expected, ProveEach(targets, observed, expected))
  {
    var n := |targets| - 1;
    var t := targets[n];
    var before := targets[..n];
    ExtendedPointwise(t, observed, expected);
    ProveLast(targets, observed, expected);
    SplitLast(targets, observed, expected);
    var r := ProveEach(before, observed, expected);
    hide *;
    assert Pointwise(before, observed, expected, r);
    if r.Ok? && ProvenBy(t, observed, expected) {
      PointwiseParts(before, observed, expected, r);
      ExtendReported(r.value, targets, observed);
      PointwiseOf(targets, observed, expected, ProveEach(targets, observed, expected));
    } else {
      PointwiseParts(before, observed, expected, r);
      PointwiseErr(targets, observed, expected, ProveEach(targets, observed, expected));
    }
  }

  lemma {:induction false} SplitLast(targets: seq<Target>, observed: Observations, expected: Expected)
    requires targets != []
    ensures var before, t := targets[..|targets| - 1], targets[|targets| - 1];
      && (AllProven(targets, observed, expected) <==> AllProven(before, observed, expected) && ProvenBy(t, observed, expected))
      && (NoneProposed(targets) <==> NoneProposed(before) && !t.proposed)
      && (EachProposed(targets) <==> EachProposed(before) && t.proposed)
  {
    hide ProvenBy;
    assert targets == targets[..|targets| - 1] + [targets[|targets| - 1]];
  }

  lemma {:induction false} PointwiseParts(
    targets: seq<Target>, observed: Observations, expected: Expected, r: Result<Proofs, Refusal>)
    requires Pointwise(targets, observed, expected, r)
    ensures r.Ok? <==> AllProven(targets, observed, expected)
    ensures r.Ok? ==> Reported(r.value, targets, observed)
    ensures r.Ok? && NoneProposed(targets) ==> r.value.transitions == []
    ensures r.Ok? && EachProposed(targets) ==> AllProposed(r.value, targets, observed)
  {
  }

  lemma {:induction false} PointwiseOf(
    targets: seq<Target>, observed: Observations, expected: Expected, r: Result<Proofs, Refusal>)
    requires r.Ok? && AllProven(targets, observed, expected) && Reported(r.value, targets, observed)
    requires NoneProposed(targets) ==> r.value.transitions == []
    requires EachProposed(targets) ==> AllProposed(r.value, targets, observed)
    ensures Pointwise(targets, observed, expected, r)
  {
  }

  lemma {:induction false} PointwiseErr(
    targets: seq<Target>, observed: Observations, expected: Expected, r: Result<Proofs, Refusal>)
    requires r.Err? && !AllProven(targets, observed, expected)
    ensures Pointwise(targets, observed, expected, r)
  {
  }

  lemma {:induction false} ProveLast(targets: seq<Target>, observed: Observations, expected: Expected)
    requires targets != []
    ensures
      var before := ProveEach(targets[..|targets| - 1], observed, expected);
      var t := targets[|targets| - 1];
      var found := EvidenceFor(observed.transactions, t.chunk.index);
      var fault := Fault(t, found, observed.bufferContextSlot, expected);
      && (fault.None? ==> found.Some? && CountsSafe(found.value))
      && ProveEach(targets, observed, expected) ==
          if before.Err? then before else if fault.Some? then Err(fault.value) else Ok(Extended(before.value, t, found.value))
  {
    hide EvidenceFor, Extended, CountsSafe, Finalized, WritesChunk, HoldsChunk;
  }

  lemma {:induction false} ExtendReported(p: Proofs, targets: seq<Target>, observed: Observations)
    requires targets != [] && Reported(p, targets[..|targets| - 1], observed)
    requires var t := targets[|targets| - 1];
      var found := EvidenceFor(observed.transactions, t.chunk.index);
      && found.Some? && CountsSafe(found.value)
      && ReportedAs(t, Verified(t.chunk.index, t.chunk.signature, found.value.slot.value, found.value.feeLamports.value),
        Project(found.value), observed)
      && ProposedFor(TransitionOf(t, found.value), t, observed)
    ensures var t := targets[|targets| - 1];
      var next := Extended(p, t, EvidenceFor(observed.transactions, t.chunk.index).value);
      && Reported(next, targets, observed)
      && (!t.proposed ==> next.transitions == p.transitions)
      && (t.proposed && AllProposed(p, targets[..|targets| - 1], observed) ==> AllProposed(next, targets, observed))
  {
    hide EvidenceFor, Project, CountsSafe, ReportedAs, ProposedFor, TransitionOf;
    assert forall i :: 0 <= i < |targets| - 1 ==> targets[..|targets| - 1][i] == targets[i];
  }

  lemma {:induction false} ExtendedPointwise(t: Target, observed: Observations, expected: Expected)
    ensures var found := EvidenceFor(observed.transactions, t.chunk.index);
      && (Fault(t, found, observed.bufferContextSlot, expected).None? <==> ProvenBy(t, observed, expected))
      && (ProvenBy(t, observed, expected) ==>
            var e := found.value;
            && CountsSafe(e)
            && ReportedAs(t, Verified(t.chunk.index, t.chunk.signature, e.slot.value, e.feeLamports.value),
              Project(e), observed)
            && ProposedFor(TransitionOf(t, e), t, observed))
  {
    var found := EvidenceFor(observed.transactions, t.chunk.index);
    if found.Some? {
      NoFaultMeansProven(t, found.value, observed.bufferContextSlot, expected);
    }
  }

  /** The evidence is accepted exactly when there is one piece of it for each target and every piece is a proof. */
  lemma {:induction false} AcceptedExactly(targets: seq<Target>, observed: Observations, expected: Expected)
    ensures ProveTargets(targets, observed, expected).Ok? <==>
      && DistinctTargets(targets) && DistinctEvidence(observed.transactions)
      && |observed.transactions| == |targets| && AllProven(targets, observed, expected)
    ensures ProveTargets(targets, observed, expected).Ok? ==>
      Reported(ProveTargets(targets, observed, expected).value, targets, observed)
    ensures ProveTargets(targets, observed, expected).Ok? && (forall t :: t in targets ==> !t.proposed) ==>
      ProveTargets(targets, observed, expected).value.transitions == []
    ensures ProveTargets(targets, observed, expected).Ok? && (forall t :: t in targets ==> t.proposed) ==>
      AllProposed(ProveTargets(targets, observed, expected).value, targets, observed)
  {
    ProvenPointwise(targets, observed, expected);
    hide ProveEach, ProvenBy, Reported, AllProposed, DistinctTargets, DistinctEvidence;
  }
}
