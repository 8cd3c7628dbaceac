/**
 The receipt that applying a reconciliation leaves in the state file, and the
 state before it that the receipt must lead back to
 (scripts/devnet/upload-execution-lease.mjs).
 */
module LeaseReceipts {
  import opened ByteStrings
  import opened ChunkRecords
  import opened LeaseEvidence
  import opened LeaseReconciliation
  import opened Outcomes

  // ----- transitions, by the chunk they name

  ghost predicate DistinctTransitions(transitions: seq<Transition>) {
    forall i, j :: 0 <= i < j < |transitions| ==> transitions[i].chunkIndex != transitions[j].chunkIndex
  }

  /** The last transition of a chunk. */
  function Naming(transitions: seq<Transition>, index: int): (t: Option<Transition>)
    ensures t.Some? ==> t.value in transitions && t.value.chunkIndex == index
    ensures t.None? ==> forall i :: 0 <= i < |transitions| ==> transitions[i].chunkIndex != index
  {
    if transitions == [] then None
    else if transitions[|transitions| - 1].chunkIndex == index then Some(transitions[|transitions| - 1])
    else
      var before := Naming(transitions[..|transitions| - 1], index);
      assert forall t :: t in transitions[..|transitions| - 1] ==> t in transitions;
      before
  }

  function Rewritten(chunks: seq<Record>, transitions: seq<Transition>, forward: bool): (after: seq<Record>)
    ensures |after| == |chunks|
  {
    seq(|chunks|, i requires 0 <= i < |chunks| =>
      var t := Naming(transitions, i);
      if t.Some? then chunks[i].(status := if forward then t.value.to else t.value.from) else chunks[i])
  }

  /** The records after the transitions. */
  function Forward(chunks: seq<Record>, transitions: seq<Transition>): seq<Record> {
    Rewritten(chunks, transitions, true)
  }

  /** The records before the transitions. */
  function Backward(chunks: seq<Record>, transitions: seq<Transition>): seq<Record> {
    Rewritten(chunks, transitions, false)
  }

  lemma {:induction false} NamingLast(transitions: seq<Transition>, t: Transition, index: int)
    ensures Naming(transitions + [t], index) == if t.chunkIndex == index then Some(t) else Naming(transitions, index)
  {
    assert (transitions + [t])[..|transitions|] == transitions;
  }

  lemma {:induction false} RewriteOneMore(chunks: seq<Record>, transitions: seq<Transition>, t: Transition, forward: bool)
    requires 0 <= t.chunkIndex < |chunks|
    ensures Rewritten(chunks, transitions + [t], forward) ==
      Rewritten(chunks, transitions, forward)[t.chunkIndex := chunks[t.chunkIndex].(status := if forward then t.to else t.from)]
  {
    forall i | 0 <= i < |chunks|
      ensures Rewritten(chunks, transitions + [t], forward)[i] ==
        Rewritten(chunks, transitions, forward)[t.chunkIndex := chunks[t.chunkIndex].(status := if forward then t.to else t.from)][i]
    {
      NamingLast(transitions, t, i);
    }
  }

  // ----- receipts

  predicate IsHash(h: Hash) {
    !h.Malformed?
  }

  /** The chunk is in the state the transition left it in. */
  predicate TransitionFits(t: Transition, chunks: seq<Record>) {
    && 0 <= t.chunkIndex < |chunks|
    && (t.from == Sent || t.from == Unknown) && t.to == Confirmed
    && chunks[t.chunkIndex].status == Confirmed
    && chunks[t.chunkIndex].signature == t.signature
    && chunks[t.chunkIndex].sha256 == t.chunkSha256
    && SafeCount(t.slot) && SafeCount(t.feeLamports)
  }

  predicate HeaderFits(receipt: Receipt, executionId: string, leaseSha256: Hash) {
    && receipt.executionId == executionId
    && receipt.appliedAt != ""
    && IsHash(receipt.evidenceHash) && IsHash(receipt.stateSha256Before) && IsHash(receipt.onchainEvidenceFingerprint)
    && receipt.leaseSha256 == leaseSha256
    && receipt.transitions != []
  }

  ghost predicate ReceiptFits(receipts: seq<Receipt>, executionId: string, leaseSha256: Hash, chunks: seq<Record>) {
    && |receipts| == 1
    && HeaderFits(receipts[0], executionId, leaseSha256)
    && DistinctTransitions(receipts[0].transitions)
    && forall t :: t in receipts[0].transitions ==> TransitionFits(t, chunks)
  }

  function TargetsOf(transitions: seq<Transition>, chunks: seq<Record>): (targets: seq<Target>)
    requires forall t :: t in transitions ==> 0 <= t.chunkIndex < |chunks|
    ensures |targets| == |transitions|
  {
    seq(|transitions|, i requires 0 <= i < |transitions| =>
      assert transitions[i] in transitions;
      Target(chunks[transitions[i].chunkIndex], transitions[i].from, false))
  }

  method AppliedReceiptTargets(receipts: seq<Receipt>, executionId: string, leaseSha256: Hash, chunks: seq<Record>)
    returns (targets: Option<seq<Target>>)
    ensures targets.Some? <==> ReceiptFits(receipts, executionId, leaseSha256, chunks)
    ensures targets.Some? ==> targets.value == TargetsOf(receipts[0].transitions, chunks)
  {
    if |receipts| != 1 || !HeaderFits(receipts[0], executionId, leaseSha256) {
      return None;
    }
    hide HeaderFits, TransitionFits;
    var transitions := receipts[0].transitions;
    var indices: set<int> := {};
    var collected: seq<Target> := [];
    for i := 0 to |transitions|
      invariant DistinctTransitions(transitions[..i])
      invariant forall n :: n in indices <==> exists k :: 0 <= k < i && transitions[k].chunkIndex == n
      invariant forall k :: 0 <= k < i ==> TransitionFits(transitions[k], chunks)
      invariant |collected| == i
      invariant forall k :: 0 <= k < i ==>
        && 0 <= transitions[k].chunkIndex < |chunks|
        && collected[k] == Target(chunks[transitions[k].chunkIndex], transitions[k].from, false)
    {
      var t := transitions[i];
      if t.chunkIndex in indices || !TransitionFits(t, chunks) {
        assert t in transitions;
        return None;
      }
      assert 0 <= t.chunkIndex < |chunks| by {
        InRange(t, chunks);
      }
      indices := indices + {t.chunkIndex};
      collected := collected + [Target(chunks[t.chunkIndex], t.from, false)];
    }
    assert transitions[..|transitions|] == transitions;
    return Some(collected);
  }

  lemma {:induction false} InRange(t: Transition, chunks: seq<Record>)
    requires TransitionFits(t, chunks)
    ensures 0 <= t.chunkIndex < |chunks|
  {
  }

  // ----- the state before the receipt

  /** The open records are exactly those the transitions name, with the status, signature and digest they name. */
  ghost predicate OpenExactly(chunks: seq<Record>, transitions: seq<Transition>) {
    && |OpenTargets(chunks)| == |transitions|
    && forall i :: 0 <= i < |chunks| && Open(chunks[i]) ==> OpenedBy(chunks[i], transitions)
  }

  predicate OpenedBy(r: Record, transitions: seq<Transition>) {
    var t := Naming(transitions, r.index);
    t.Some? && t.value.from == r.status && t.value.signature == r.signature && t.value.chunkSha256 == r.sha256
  }

  function Unapplied(state: State, w: nat, transitions: seq<Transition>): State
    requires w < |state.windows|
  {
    state.(
      chunks := Backward(state.chunks, transitions),
      windows := state.windows[w := state.windows[w].(reconciliationOutcomes := None)])
  }

  /** The state before the receipt was added, if the receipt leads back to a valid state with the recorded hash. */
  ghost function PreState(state: State, receipt: Receipt, expected: Expected): Option<State> {
    var w := UniqueTerminal(state.windows, receipt.executionId);
    if w.None? || state.windows[w.value].reconciliationOutcomes.None?
       || |state.windows[w.value].reconciliationOutcomes.value| != 1
    then None
    else
      var before := Unapplied(state, w.value, receipt.transitions);
      if !OpenExactly(before.chunks, receipt.transitions) || !StoredPlan(before, expected)
         || OfState(StateFile(before, true)) != receipt.stateSha256Before
      then None
      else Some(before)
  }

  method ReconstructReceiptPreState(state: State, receipt: Receipt, expected: Expected) returns (r: Option<State>)
    requires DistinctTransitions(receipt.transitions)
    requires forall t :: t in receipt.transitions ==> TransitionFits(t, state.chunks)
    ensures r == PreState(state, receipt, expected)
  {
    var w := FindTerminal(state.windows, receipt.executionId);
    if w.None? {
      return None;
    }
    var outcomes := state.windows[w.value].reconciliationOutcomes;
    if outcomes.None? || |outcomes.value| != 1 {
      return None;
    }
    var windows := state.windows[w.value := state.windows[w.value].(reconciliationOutcomes := None)];
    var chunks := RewindChunks(state.chunks, receipt.transitions);
    var before := state.(chunks := chunks, windows := windows);
    var exactly := IsOpenExactly(chunks, receipt.transitions);
    var planned := ValidateStoredPlan(before, expected);
    if !exactly || !planned || OfState(StateFile(before, true)) != receipt.stateSha256Before {
      return None;
    }
    return Some(before);
  }

  method RewindChunks(records: seq<Record>, transitions: seq<Transition>) returns (chunks: seq<Record>)
    requires forall t :: t in transitions ==> 0 <= t.chunkIndex < |records|
    ensures chunks == Backward(records, transitions)
  {
    chunks := records;
    assert transitions[..0] == [];
    assert chunks == Rewritten(records, [], false);
    for k := 0 to |transitions|
      invariant chunks == Rewritten(records, transitions[..k], false)
    {
      var t := transitions[k];
      assert t in transitions;
      RewriteOneMore(records, transitions[..k], t, false);
      assert transitions[..k + 1] == transitions[..k] + [t];
      chunks := chunks[t.chunkIndex := chunks[t.chunkIndex].(status := t.from)];
    }
    assert transitions[..|transitions|] == transitions;
  }

  method IsOpenExactly(chunks: seq<Record>, transitions: seq<Transition>) returns (exactly: bool)
    ensures exactly <==> OpenExactly(chunks, transitions)
  {
    var unresolved := SelectOpen(chunks);
    if |unresolved| != |transitions| {
      return false;
    }
    for i := 0 to |chunks|
      invariant forall k :: 0 <= k < i && Open(chunks[k]) ==> OpenedBy(chunks[k], transitions)
    {
      if Open(chunks[i]) && !OpenedBy(chunks[i], transitions) {
        return false;
      }
    }
    return true;
  }
}
