/**
 Applying a reconciliation and rebuilding the state before it are inverse to each
 other, and reconciling again after an apply finds the same evidence and nothing
 left to do (scripts/devnet/upload-execution-lease.mjs).
 */
module LeaseRoundTrip {
  import opened ByteStrings
  import opened ChunkRecords
  import opened LeaseDecision
  import opened LeaseEvidence
  import opened LeaseReceipts
  import opened LeaseReconciliation
  import opened Outcomes
  import opened UploadTrace

  // ----- open records and the transitions that close them

  ghost predicate Numbered(chunks: seq<Record>) {
    forall i :: 0 <= i < |chunks| ==> chunks[i].index == i
  }

  lemma {:induction false} ValidIsNumbered(chunks: seq<Record>)
    requires ValidRecords(chunks)
    ensures Numbered(chunks)
  {
    forall i | 0 <= i < |chunks|
      ensures chunks[i].index == i
    {
      assert FitsAt(chunks, i);
    }
  }

  ghost predicate TargetAt(t: Target, chunks: seq<Record>) {
    && 0 <= t.chunk.index < |chunks| && t.chunk == chunks[t.chunk.index]
    && Open(t.chunk) && t.from == t.chunk.status && t.proposed
  }

  ghost predicate Targeted(targets: seq<Target>, i: int) {
    exists k :: 0 <= k < |targets| && targets[k].chunk.index == i
  }

  /** The targets are the open records, each once, in order. */
  ghost predicate TargetsExactly(targets: seq<Target>, chunks: seq<Record>) {
    && (forall k :: 0 <= k < |targets| ==> TargetAt(targets[k], chunks))
    && (forall j, k :: 0 <= j < k < |targets| ==> targets[j].chunk.index < targets[k].chunk.index)
    && forall i :: 0 <= i < |chunks| && Open(chunks[i]) ==> Targeted(targets, i)
  }

  lemma {:induction false} OpenTargetsExact(chunks: seq<Record>)
    requires Numbered(chunks)
    ensures TargetsExactly(OpenTargets(chunks), chunks)
  {
    if chunks != [] {
      var n := |chunks| - 1;
      OpenTargetsExact(chunks[..n]);
      OneMoreTarget(OpenTargets(chunks[..n]), chunks);
    }
  }

  lemma {:induction false} OneMoreTarget(before: seq<Target>, chunks: seq<Record>)
    requires Numbered(chunks) && chunks != []
    requires TargetsExactly(before, chunks[..|chunks| - 1])
    ensures
      var last := chunks[|chunks| - 1];
      TargetsExactly(before + if Open(last) then [Target(last, last.status, true)] else [], chunks)
  {
    var n := |chunks| - 1;
    var last := chunks[n];
    var all := before + if Open(last) then [Target(last, last.status, true)] else [];
    forall k | 0 <= k < |before|
      ensures all[k] == before[k] && all[k].chunk.index < n && TargetAt(all[k], chunks)
    {
      assert TargetAt(before[k], chunks[..n]);
    }
    forall i | 0 <= i < |chunks| && Open(chunks[i])
      ensures Targeted(all, i)
    {
      if i < n {
        assert Open(chunks[..n][i]);
        var k :| 0 <= k < |before| && before[k].chunk.index == i;
        assert all[k].chunk.index == i;
      } else {
        assert all[|before|].chunk.index == n;
      }
    }
  }

  ghost predicate Closes(t: Transition, chunks: seq<Record>) {
    && 0 <= t.chunkIndex < |chunks|
    && Open(chunks[t.chunkIndex]) && t.from == chunks[t.chunkIndex].status && t.to == Confirmed
    && t.signature == chunks[t.chunkIndex].signature && t.chunkSha256 == chunks[t.chunkIndex].sha256
    && SafeCount(t.slot) && SafeCount(t.feeLamports)
  }

  /** The transitions close exactly the open records. */
  ghost predicate ClosesAll(transitions: seq<Transition>, chunks: seq<Record>) {
    && |transitions| == |OpenTargets(chunks)|
    && DistinctTransitions(transitions)
    && (forall t :: t in transitions ==> Closes(t, chunks))
    && forall i :: 0 <= i < |chunks| && Open(chunks[i]) ==> Naming(transitions, i).Some?
  }

  lemma {:induction false} NamingAt(transitions: seq<Transition>, k: nat)
    requires DistinctTransitions(transitions) && k < |transitions|
    ensures Naming(transitions, transitions[k].chunkIndex) == Some(transitions[k])
  {
    var found := Naming(transitions, transitions[k].chunkIndex);
    var j :| 0 <= j < |transitions| && transitions[j] == found.value;
    assert j == k;
  }

  lemma {:induction false} ProposalCloses(transition: Transition, t: Target, observed: Observations, chunks: seq<Record>)
    requires TargetAt(t, chunks) && ProposedFor(transition, t, observed)
    ensures Closes(transition, chunks) && transition.chunkIndex == t.chunk.index
  {
  }

  /** Accepted evidence for the open records proposes exactly the transitions that close them. */
  lemma {:induction false} ProposalsCloseAll(chunks: seq<Record>, observed: Observations, expected: Expected)
    requires Numbered(chunks) && ChunkProofs(chunks, observed, expected, []).Ok?
    ensures ClosesAll(ChunkProofs(chunks, observed, expected, []).value.transitions, chunks)
  {
    assert OpenTargets(chunks) + [] == OpenTargets(chunks);
    OpenTargetsExact(chunks);
    ProvenPointwise(OpenTargets(chunks), observed, expected);
    var proofs := ChunkProofs(chunks, observed, expected, []).value;
    assert ProveEach(OpenTargets(chunks), observed, expected) == Ok(proofs);
    hide *;
    assert forall t :: t in OpenTargets(chunks) ==> t.proposed by {
      forall k | 0 <= k < |OpenTargets(chunks)|
        ensures OpenTargets(chunks)[k].proposed
      {
        Proposed(OpenTargets(chunks), k, chunks);
      }
    }
    ProposalsClose(chunks, proofs, observed);
  }

  lemma {:induction false} ProposalsClose(chunks: seq<Record>, proofs: Proofs, observed: Observations)
    requires Numbered(chunks) && AllProposed(proofs, OpenTargets(chunks), observed)
    ensures ClosesAll(proofs.transitions, chunks)
  {
    var targets := OpenTargets(chunks);
    OpenTargetsExact(chunks);
    var transitions := proofs.transitions;
    hide OpenTargets, TargetAt, EvidenceFor, ProposedFor, Closes, Naming;
    forall k | 0 <= k < |targets|
      ensures Closes(transitions[k], chunks) && transitions[k].chunkIndex == targets[k].chunk.index
    {
      ProposalCloses(transitions[k], targets[k], observed, chunks);
    }
    forall i | 0 <= i < |chunks| && Open(chunks[i])
      ensures Naming(transitions, i).Some?
    {
      assert Targeted(targets, i);
      var k :| 0 <= k < |targets| && targets[k].chunk.index == i;
      assert transitions[k].chunkIndex == i;
    }
  }

  lemma {:induction false} Proposed(targets: seq<Target>, k: nat, chunks: seq<Record>)
    requires k < |targets| && TargetsExactly(targets, chunks)
    ensures targets[k].proposed
  {
  }

  // ----- forward and backward

  /** The records after the transitions have nothing open, and going back from them restores every record. */
  lemma {:induction false} BackwardUndoesForward(chunks: seq<Record>, transitions: seq<Transition>)
    requires ClosesAll(transitions, chunks)
    ensures Backward(Forward(chunks, transitions), transitions) == chunks
    ensures forall i :: 0 <= i < |chunks| ==> !Open(Forward(chunks, transitions)[i])
  {
    forall i | 0 <= i < |chunks|
      ensures Backward(Forward(chunks, transitions), transitions)[i] == chunks[i]
      ensures !Open(Forward(chunks, transitions)[i])
    {
      if Naming(transitions, i).Some? {
        assert Closes(Naming(transitions, i).value, chunks);
      }
    }
  }

  /** Conversely, records that a receipt's transitions fit are what those transitions lead to. */
  lemma {:induction false} ForwardUndoesBackward(chunks: seq<Record>, transitions: seq<Transition>)
    requires forall t :: t in transitions ==> TransitionFits(t, chunks)
    ensures Forward(Backward(chunks, transitions), transitions) == chunks
  {
    forall i | 0 <= i < |chunks|
      ensures Forward(Backward(chunks, transitions), transitions)[i] == chunks[i]
    {
      if Naming(transitions, i).Some? {
        assert TransitionFits(Naming(transitions, i).value, chunks);
      }
    }
  }

  lemma {:induction false} NoneOpenNoTargets(chunks: seq<Record>)
    ensures OpenTargets(chunks) == [] <==> forall i :: 0 <= i < |chunks| ==> !Open(chunks[i])
  {
    if chunks != [] {
      var n := |chunks| - 1;
      NoneOpenNoTargets(chunks[..n]);
      assert forall i :: 0 <= i < n ==> chunks[..n][i] == chunks[i];
      assert Open(chunks[n]) ==> |OpenTargets(chunks)| > 0;
    }
  }

  /** Which chunks the transitions are for. */
  ghost function Named(transitions: seq<Transition>): set<nat> {
    set t | t in transitions && t.chunkIndex >= 0 :: t.chunkIndex as nat
  }

  /** Only open records changed, only to CONFIRMED, and only where a transition says so. */
  lemma {:induction false} ForwardReconciles(chunks: seq<Record>, transitions: seq<Transition>)
    requires ClosesAll(transitions, chunks)
    ensures Reconciles(chunks, Forward(chunks, transitions), Named(transitions))
  {
    forall i | 0 <= i < |chunks|
      ensures
        || Forward(chunks, transitions)[i] == chunks[i]
        || (Open(chunks[i]) && i in Named(transitions)
            && Forward(chunks, transitions)[i] == chunks[i].(status := Confirmed))
    {
      var t := Naming(transitions, i);
      if t.Some? {
        assert Closes(t.value, chunks) && t.value.chunkIndex as nat in Named(transitions);
      }
    }
  }

  lemma {:induction false} SameRangesSameLength(before: seq<Record>, after: seq<Record>)
    requires |before| == |after| && forall i :: 0 <= i < |before| ==> before[i].length == after[i].length
    ensures TotalLength(before) == TotalLength(after)
  {
    if before != [] {
      SameRangesSameLength(before[..|before| - 1], after[..|after| - 1]);
    }
  }

  // ----- applying

  function ReceiptOf(v: Verdict, executionId: string, appliedAt: string): Receipt {
    Receipt(executionId, v.evidenceHash, appliedAt, v.preStateSha256, v.leaseSha256, v.onchainEvidenceFingerprint,
      v.proposedTransitions)
  }

  function Applied(state: State, w: nat, receipt: Receipt): State
    requires w < |state.windows|
  {
    state.(
      chunks := Forward(state.chunks, receipt.transitions),
      windows := state.windows[w := state.windows[w].(reconciliationOutcomes := Some([receipt]))])
  }

  /** Everything an apply can rely on: a verdict with transitions, on a canonical file that read its own hash. */
  ghost predicate ReadyToApply(input: Input, lease: Lease, file: StateFile, v: Verdict) {
    && Reconciled(input, Some(lease), false, Some(file)) == Ok(v)
    && v.proposedTransitions != [] && file.canonical
  }

  /** What a verdict with transitions says about the state it was given on. */
  lemma {:induction false} ReadyMeansOpen(input: Input, lease: Lease, file: StateFile, v: Verdict)
    requires Reconciled(input, Some(lease), false, Some(file)) == Ok(v) && v.proposedTransitions != []
    ensures var w := UniqueTerminal(file.state.windows, input.executionId);
      && w.Some? && file.state.windows[w.value].reconciliationOutcomes.None?
      && var proofs := ChunkProofs(file.state.chunks, input.observations, input.expected, []);
        && proofs.Ok? && proofs.value.transitions == v.proposedTransitions
        && v.onchainEvidenceFingerprint == Fingerprint(input.observations, proofs.value.normalized)
        && v.evidenceHash == EvidenceHash(input.executionId, OfState(file), lease, input.expected,
            file.state.windows[w.value], v.onchainEvidenceFingerprint, proofs.value.normalized, v.proposedTransitions)
    ensures v.preStateSha256 == OfState(file) && v.leaseSha256 == OfLease(lease)
    ensures StoredPlan(file.state, input.expected)
    ensures ClosesAll(v.proposedTransitions, file.state.chunks)
  {
    hide ChunkProofs, OpenTargets, ReceiptBacked, Fingerprint, EvidenceHash, StoredPlan, ClosesAll, BufferObserved,
      CompleteLease, SafeExecutionId, LeaseMatches, OutcomeUnknown;
    var w := UniqueTerminal(file.state.windows, input.executionId).value;
    var receipts := file.state.windows[w].reconciliationOutcomes;
    if receipts.Some? {
      NothingProposedWithReceipt(input, lease, file, w);
      assert false;
    }
    ValidWhenPlanned(file.state, input.expected);
    ValidIsNumbered(file.state.chunks);
    ProposalsCloseAll(file.state.chunks, input.observations, input.expected);
  }

  lemma {:induction false} ValidWhenPlanned(state: State, expected: Expected)
    requires StoredPlan(state, expected)
    ensures ValidRecords(state.chunks)
  {
  }

  /** With a receipt, nothing is open and so nothing is proposed. */
  lemma {:induction false} NothingProposedWithReceipt(input: Input, lease: Lease, file: StateFile, w: nat)
    requires w < |file.state.windows| && file.state.windows[w].reconciliationOutcomes.Some?
    ensures Judge(input, lease, file, w).Ok? ==> Judge(input, lease, file, w).value.proposedTransitions == []
  {
    hide ReceiptBacked, Fingerprint, EvidenceHash, OutcomeUnknown, ProveEach, OpenTargets, TransitionFits, HeaderFits;
    var chunks, observed, expected := file.state.chunks, input.observations, input.expected;
    var receipts := file.state.windows[w].reconciliationOutcomes.value;
    if ReceiptFits(receipts, input.executionId, OfLease(lease), chunks) && OpenTargets(chunks) == [] {
      ReceiptInRange(receipts, input.executionId, OfLease(lease), chunks);
      NothingProposed(chunks, TargetsOf(receipts[0].transitions, chunks), observed, expected);
    }
  }

  lemma {:induction false} ReceiptInRange(receipts: seq<Receipt>, executionId: string, leaseSha256: Hash, chunks: seq<Record>)
    requires ReceiptFits(receipts, executionId, leaseSha256, chunks)
    ensures forall t :: t in receipts[0].transitions ==> 0 <= t.chunkIndex < |chunks|
    ensures forall t :: t in TargetsOf(receipts[0].transitions, chunks) ==> !t.proposed
  {
  }

  lemma {:induction false} NothingProposed(chunks: seq<Record>, targets: seq<Target>, observed: Observations, expected: Expected)
    requires OpenTargets(chunks) == [] && forall t :: t in targets ==> !t.proposed
    ensures ChunkProofs(chunks, observed, expected, targets) == ProveTargets(targets, observed, expected)
    ensures ChunkProofs(chunks, observed, expected, targets).Ok? ==>
      ChunkProofs(chunks, observed, expected, targets).value.transitions == []
  {
    assert OpenTargets(chunks) + targets == targets;
    ProvenPointwise(targets, observed, expected);
  }

  lemma {:induction false} UniqueEndStays(windows: seq<Window>, executionId: string, w: nat, outcomes: Option<seq<Receipt>>)
    requires UniqueTerminal(windows, executionId) == Some(w)
    ensures UniqueTerminal(windows[w := windows[w].(reconciliationOutcomes := outcomes)], executionId) == Some(w)
  {
    var after := windows[w := windows[w].(reconciliationOutcomes := outcomes)];
    forall i | 0 <= i < |after|
      ensures Ends(after[i], executionId) <==> i == w
    {
      assert Ends(windows[i], executionId) <==> i == w;
    }
    assert UniqueEnd(after, executionId, w);
    assert Ends(after[UniqueTerminal(after, executionId).value], executionId);
  }

  /** Changing statuses by closing transitions keeps the stored plan valid. */
  lemma {:induction false} PlanStays(state: State, windows: seq<Window>, transitions: seq<Transition>, expected: Expected)
    requires StoredPlan(state, expected) && ClosesAll(transitions, state.chunks)
    ensures StoredPlan(state.(chunks := Forward(state.chunks, transitions), windows := windows), expected)
  {
    var after := Forward(state.chunks, transitions);
    ForwardReconciles(state.chunks, transitions);
    ReconciledRecordsAreValid(state.chunks, after, Named(transitions));
    SameRangesSameLength(state.chunks, after);
    assert PlanOf(expected, after) == PlanOf(expected, state.chunks) by {
      var plan := (chunks: seq<Record>) => seq(|chunks|, i requires 0 <= i < |chunks| =>
        (chunks[i].index, chunks[i].offset, chunks[i].length, chunks[i].sha256));
      assert plan(after) == plan(state.chunks);
    }
  }

  lemma {:induction false} ReceiptFitsAfter(chunks: seq<Record>, receipt: Receipt, executionId: string, leaseSha256: Hash)
    requires ClosesAll(receipt.transitions, chunks) && HeaderFits(receipt, executionId, leaseSha256)
    ensures ReceiptFits([receipt], executionId, leaseSha256, Forward(chunks, receipt.transitions))
  {
    forall t | t in receipt.transitions
      ensures TransitionFits(t, Forward(chunks, receipt.transitions))
    {
      assert Closes(t, chunks);
      var k :| 0 <= k < |receipt.transitions| && receipt.transitions[k] == t;
      NamingAt(receipt.transitions, k);
    }
  }

  lemma {:induction false} ClosedWasOpenExactly(chunks: seq<Record>, transitions: seq<Transition>)
    requires Numbered(chunks) && ClosesAll(transitions, chunks)
    ensures OpenExactly(chunks, transitions)
  {
    forall i | 0 <= i < |chunks| && Open(chunks[i])
      ensures OpenedBy(chunks[i], transitions)
    {
      assert Closes(Naming(transitions, i).value, chunks);
    }
  }

  /** Rebuilding the state before an apply gives back exactly that state; so the check after the write cannot fail. */
  lemma {:induction false} ApplyThenReconstruct(input: Input, lease: Lease, file: StateFile, v: Verdict, appliedAt: string)
    requires ReadyToApply(input, lease, file, v) && appliedAt != ""
    ensures
      var w := UniqueTerminal(file.state.windows, input.executionId);
      && w.Some?
      && var receipt := ReceiptOf(v, input.executionId, appliedAt);
        var after := Applied(file.state, w.value, receipt);
        && StoredPlan(after, input.expected)
        && UniqueTerminal(after.windows, input.executionId) == w
        && ReceiptFits([receipt], input.executionId, OfLease(lease), after.chunks)
        && PreState(after, receipt, input.expected) == Some(file.state)
        && OpenTargets(after.chunks) == []
  {
    ReadyMeansOpen(input, lease, file, v);
    hide Reconciled, ReadyToApply, ClosesAll, StoredPlan, Forward, Backward, UniqueEnd, OpenExactly, Fingerprint, EvidenceHash,
      ChunkProofs, OpenTargets;
    assert file.canonical && v.proposedTransitions != [] by {
      Readiness(input, lease, file, v);
    }
    var state, w := file.state, UniqueTerminal(file.state.windows, input.executionId).value;
    var receipt := ReceiptOf(v, input.executionId, appliedAt);
    var transitions := v.proposedTransitions;
    var after := Applied(state, w, receipt);
    ValidWhenPlanned(state, input.expected);
    ValidIsNumbered(state.chunks);
    PlanStays(state, after.windows, transitions, input.expected);
    UniqueEndStays(state.windows, input.executionId, w, Some([receipt]));
    ReceiptFitsAfter(state.chunks, receipt, input.executionId, OfLease(lease));
    ClosedWasOpenExactly(state.chunks, transitions);
    BackwardUndoesForward(state.chunks, transitions);
    NoneOpenNoTargets(after.chunks);
    assert after.windows[w := after.windows[w].(reconciliationOutcomes := None)] == state.windows;
    assert Unapplied(after, w, transitions) == state;
    assert StateFile(state, true) == file;
  }

  lemma {:induction false} Readiness(input: Input, lease: Lease, file: StateFile, v: Verdict)
    requires ReadyToApply(input, lease, file, v)
    ensures file.canonical && v.proposedTransitions != []
    ensures Reconciled(input, Some(lease), false, Some(file)) == Ok(v)
  {
  }
}
