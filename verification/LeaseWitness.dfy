/**
 What collected evidence proves, told by the chain itself: the statuses, the
 transactions and the buffer that the node showed
 (scripts/devnet/upload-execution-command.mjs).
 */
module LeaseWitness {
  import opened ByteStrings
  import opened ChunkRecords
  import opened LeaseCollection
  import opened LeaseDecision
  import opened LeaseEvidence
  import opened LeaseReconciliation
  import opened LeaseRoundTrip
  import opened Outcomes
  import opened UploadPlan
  import A = LeaseAnswers

  /** The transaction is one write of the record's bytes of the binary to this buffer, by this authority, without error. */
  predicate OneWriteOf(tx: Transaction, r: Record, c: Contract)
    requires 0 <= r.offset <= r.offset + r.length <= |c.local|
  {
    && tx.firstSignature == r.signature && tx.signatureCount == 1
    && tx.feeLamports.Some? && 0 <= tx.feeLamports.value <= MAX_SAFE_INTEGER && tx.metaErr == Some(false)
    && tx.legacyMessage && tx.instructionCount == 1 && tx.innerInstructionCount == Some(0)
    && tx.program == Some(c.owner) && tx.accountCount == 2
    && tx.firstKey == Some(c.buffer) && tx.secondKey == Some(c.authority) && tx.firstWritable && tx.secondSigner
    && tx.write == Some(WriteData(r.offset, c.local[r.offset..r.offset + r.length]))
  }

  /** The record's transaction is final and did just this, before the buffer was read, and the buffer holds the bytes. */
  predicate ShownOnChain(r: Record, view: View, c: Contract, payload: Bytes)
    requires r.signature.Some? && 0 <= r.offset <= r.offset + r.length <= |c.local| == |payload|
  {
    var id := r.signature.value;
    && id in view.statuses && id in view.transactions
    && view.statuses[id].confirmationStatus == Some("finalized") && view.statuses[id].err == Some(false)
    && view.statuses[id].slot == view.transactions[id].slot && view.transactions[id].slot.Some?
    && 0 <= view.transactions[id].slot.value <= view.contextSlot
    && OneWriteOf(view.transactions[id], r, c)
    && c.local[r.offset..r.offset + r.length] == payload[r.offset..r.offset + r.length]
    && r.offset <= MAX_SAFE_INTEGER && r.length <= MAX_SAFE_INTEGER
  }

  /** A record of the plan: its digest is that of its range of the binary. */
  predicate OfBinary(r: Record, c: Contract) {
    && 0 <= r.offset <= r.offset + r.length <= |c.local|
    && r.sha256 == Sha256(c.local[r.offset..r.offset + r.length])
  }

  lemma {:induction false} EvidenceShows(r: Record, from: Status, view: View, c: Contract, payload: Bytes, input: Input)
    requires r.signature.Some? && OfBinary(r, c) && |payload| == |c.local|
    requires input.expected.identity.owner == c.owner && input.expected.identity.buffer == c.buffer
    requires input.expected.identity.authority == c.authority
    requires 0 <= view.contextSlot <= MAX_SAFE_INTEGER && input.observations.bufferContextSlot == view.contextSlot
    ensures A.Written(EvidenceOf(ProofRecord(r, from), view, c.local, payload), r, from, input) <==>
      ShownOnChain(r, view, c, payload)
  {
    var e := EvidenceOf(ProofRecord(r, from), view, c.local, payload);
    var local, onchain := c.local[r.offset..r.offset + r.length], payload[r.offset..r.offset + r.length];
    assert Clip(c.local, r.offset, r.length) == local && Clip(payload, r.offset, r.length) == onchain;
    assert |local| == |onchain| == r.length;
    hide Clip;
    var id := r.signature.value;
    if id in view.transactions && view.transactions[id].write.Some? {
      var write := view.transactions[id].write.value;
      assert write == WriteData(write.offset, write.payload);
    }
  }

  /** An open record's write is shown on chain. */
  ghost predicate ShownAt(chunks: seq<Record>, i: nat, view: View, c: Contract) {
    && i < |chunks| && chunks[i].signature.Some? && OfBinary(chunks[i], c)
    && view.account.Some? && |view.account.value.payload| == |c.local|
    && ShownOnChain(chunks[i], view, c, view.account.value.payload)
  }

  ghost predicate OpenShown(chunks: seq<Record>, view: View, c: Contract) {
    forall i: nat :: i < |chunks| && A.Unresolved(chunks[i]) ==> ShownAt(chunks, i, view, c)
  }

  /** What a plan that agrees says of an open record. */
  lemma {:induction false} OpenIsPlanned(file: StateFile, c: Contract, i: nat)
    requires Partition(c.plan, c.local) && PlanAgrees(file.state, c, ExpectedOf(c, file))
    requires i < |file.state.chunks| && A.Unresolved(file.state.chunks[i])
    ensures file.state.chunks[i].signature.Some? && OfBinary(file.state.chunks[i], c)
    ensures file.state.chunks[i].index == i && c.local != []
  {
    assert FitsAt(file.state.chunks, i) && SameChunk(file.state.chunks[i], c.plan[i]) && ChunkAt(c.plan, c.local, i);
  }

  /** The evidence collected for one open record. */
  lemma {:induction false} EvidenceAt(chunks: seq<Record>, view: View, local: Bytes, payload: Bytes, i: nat)
    requires Numbered(chunks) && i < |chunks| && Open(chunks[i])
    ensures
      var evidence := CollectEach(OpenProofs(chunks), view, local, payload);
      var e := EvidenceOf(ProofRecord(chunks[i], chunks[i].status), view, local, payload);
      e in evidence && e.chunkIndex == i && forall f :: f in evidence && f.chunkIndex == i ==> f == e
  {
    OpenTargetsExact(chunks);
    var targets := OpenTargets(chunks);
    var evidence := CollectEach(OpenProofs(chunks), view, local, payload);
    hide OpenTargets, Clip;
    assert Targeted(targets, i);
    var k :| 0 <= k < |targets| && targets[k].chunk.index == i;
    assert TargetAt(targets[k], chunks);
    assert evidence[k] == EvidenceOf(ProofRecord(chunks[i], chunks[i].status), view, local, payload);
    forall f | f in evidence && f.chunkIndex == i
      ensures f == evidence[k]
    {
      var j :| 0 <= j < |evidence| && evidence[j] == f;
      assert TargetAt(targets[j], chunks);
    }
  }

  lemma {:induction false} EvidenceIsOpen(chunks: seq<Record>, view: View, local: Bytes, payload: Bytes)
    requires Numbered(chunks)
    ensures
      var evidence := CollectEach(OpenProofs(chunks), view, local, payload);
      && A.OncePerChunk(evidence)
      && forall e :: e in evidence ==> 0 <= e.chunkIndex < |chunks| && A.Unresolved(chunks[e.chunkIndex])
  {
    OpenTargetsExact(chunks);
    var targets := OpenTargets(chunks);
    var evidence := CollectEach(OpenProofs(chunks), view, local, payload);
    hide OpenTargets, Clip;
    forall k | 0 <= k < |evidence|
      ensures evidence[k].chunkIndex == targets[k].chunk.index
      ensures 0 <= evidence[k].chunkIndex < |chunks| && A.Unresolved(chunks[evidence[k].chunkIndex])
    {
      assert TargetAt(targets[k], chunks);
    }
  }

  ghost predicate CollectedAs(file: StateFile, c: Contract, view: View, input: Input) {
    && Partition(c.plan, c.local) && Collected(file, input.executionId, c, view) == Some(input)
  }

  lemma {:induction false} WhatIsCollected(file: StateFile, c: Contract, view: View, input: Input)
    requires CollectedAs(file, c, view, input) && A.AnyUnresolved(file.state.chunks)
    ensures PlanAgrees(file.state, c, ExpectedOf(c, file)) && input.expected == ExpectedOf(c, file)
    ensures Numbered(file.state.chunks) && A.PlanInOrder(file.state, input.expected)
    ensures view.account.Some? && |view.account.value.payload| == |c.local|
    ensures A.ChainInOrder(input.observations, input.expected) <==>
      ConfirmedHeld(file.state.chunks, view.account.value.payload)
    ensures 0 <= view.contextSlot <= MAX_SAFE_INTEGER && input.observations.bufferContextSlot == view.contextSlot
    ensures input.observations.transactions ==
      CollectEach(ProofRecords(file.state, input.executionId), view, c.local, view.account.value.payload)
  {
    CollectedParts(file, input.executionId, c, view, input);
    var i: nat :| i < |file.state.chunks| && A.Unresolved(file.state.chunks[i]);
    OpenIsPlanned(file, c, i);
    PlanOfContract(file, c);
    A.PlanParts(file.state, input.expected);
    ValidIsNumbered(file.state.chunks);
    hide ValidRecords, PlanOf, ProofRecords, EvidenceOf, ConfirmedHeld, A.PlanInOrder, StoredPlan;
  }

  lemma {:induction false} PlanOfContract(file: StateFile, c: Contract)
    requires PlanAgrees(file.state, c, ExpectedOf(c, file)) && c.local != []
    ensures StoredPlan(file.state, ExpectedOf(c, file)) && ValidRecords(file.state.chunks)
  {
    hide ValidRecords, PlanOf;
  }

  lemma {:induction false} OpenAreRead(file: StateFile, executionId: string)
    requires A.AnyUnresolved(file.state.chunks)
    ensures ProofRecords(file.state, executionId) == OpenProofs(file.state.chunks)
  {
    A.NoneUnresolved(file.state.chunks);
    hide OpenTargets, A.AnyUnresolved;
  }

  /** The evidence collected for open records proves them exactly when their writes are shown on chain. */
  lemma {:induction false} CollectedProvesExactly(file: StateFile, c: Contract, view: View, input: Input)
    requires CollectedAs(file, c, view, input) && A.AnyUnresolved(file.state.chunks)
    ensures A.OpenProved(input, file.state.chunks) <==> OpenShown(file.state.chunks, view, c)
  {
    var chunks := file.state.chunks;
    WhatIsCollected(file, c, view, input);
    OpenAreRead(file, input.executionId);
    EvidenceIsOpen(chunks, view, c.local, view.account.value.payload);
    forall i: nat | i < |chunks| && A.Unresolved(chunks[i])
      ensures A.Witnessed(chunks[i], chunks[i].status, input) <==> ShownAt(chunks, i, view, c)
    {
      OpenWitnessed(file, c, view, input, i);
    }
    hide A.Witnessed, ShownAt, A.OncePerChunk, CollectEach, CollectedAs, ProofRecords, A.PlanInOrder, PlanAgrees, OpenProofs;
    if A.OpenProved(input, chunks) {
      forall i: nat | i < |chunks| && A.Unresolved(chunks[i])
        ensures ShownAt(chunks, i, view, c)
      {
        assert chunks[i] in chunks;
      }
    }
  }

  lemma {:induction false} OpenWitnessed(file: StateFile, c: Contract, view: View, input: Input, i: nat)
    requires CollectedAs(file, c, view, input) && A.AnyUnresolved(file.state.chunks)
    requires i < |file.state.chunks| && A.Unresolved(file.state.chunks[i])
    ensures A.Witnessed(file.state.chunks[i], file.state.chunks[i].status, input) <==> ShownAt(file.state.chunks, i, view, c)
  {
    var chunks := file.state.chunks;
    var r := chunks[i];
    WhatIsCollected(file, c, view, input);
    OpenAreRead(file, input.executionId);
    OpenIsPlanned(file, c, i);
    var payload := view.account.value.payload;
    EvidenceAt(chunks, view, c.local, payload, i);
    EvidenceShows(r, r.status, view, c, payload, input);
    hide A.Written, ShownOnChain, EvidenceOf, CollectEach, CollectedAs, ProofRecords, A.PlanInOrder, PlanAgrees, OpenProofs,
      OfBinary;
    var e := EvidenceOf(ProofRecord(r, r.status), view, c.local, payload);
    assert e in input.observations.transactions && e.chunkIndex == r.index;
  }

  /**
   A lease whose upload left records open, judged on collected evidence: safe exactly when the owner is dead, the lease
   is this upload's, the confirmed ranges have their digests, the execution ended once and has no receipt, and every
   open record's write is shown on chain.
   */
  lemma {:induction false} SafeWhenShown(
    file: StateFile, lease: Lease, ownerActive: bool, c: Contract, view: View, input: Input)
    requires CollectedAs(file, c, view, input) && A.AnyUnresolved(file.state.chunks)
    ensures Reconciled(input, Some(lease), ownerActive, Some(file)).Ok? <==>
      && A.LeaseInOrder(input.executionId, lease) && !ownerActive
      && lease.program == c.program && lease.buffer == c.buffer && lease.planFingerprint == file.state.planFingerprint
      && (forall i :: 0 <= i < |file.state.chunks| && file.state.chunks[i].status == Confirmed ==>
            HeldOnChain(file.state.chunks[i], view.account.value.payload))
      && (exists w: nat :: A.OnlyEnd(file.state.windows, input.executionId, w)
            && file.state.windows[w].reconciliationOutcomes.None?)
      && OpenShown(file.state.chunks, view, c)
  {
    A.SafeExactly(input, Some(lease), ownerActive, Some(file));
    WhatIsCollected(file, c, view, input);
    CollectedProvesExactly(file, c, view, input);
    assert A.LeaseExpected(lease, input.expected) <==>
      lease.program == c.program && lease.buffer == c.buffer && lease.planFingerprint == file.state.planFingerprint;
    assert input.expected.stateSha256 == OfState(file);
    hide Reconciled, A.LeaseInOrder, A.PlanInOrder, A.LeaseExpected, A.ChainInOrder, A.OnlyEnd, A.OpenProved, A.Accounted,
      OpenShown, CollectedAs, PlanAgrees, A.AnyUnresolved, HeldOnChain, CollectEach, ProofRecords, ExpectedOf;
  }

  // ----- when there is anything to judge

  /** No transaction of the records was seen later than the snapshot. */
  ghost predicate SeenBefore(records: seq<ProofRecord>, view: View) {
    forall p :: p in records && SignatureOf(p.record) in view.transactions ==>
      var slot := view.transactions[SignatureOf(p.record)].slot;
      slot.Some? ==> slot.value <= view.contextSlot
  }

  lemma {:induction false} LatestIsLatest(records: seq<ProofRecord>, view: View)
    ensures LatestSlot(records, view) <= view.contextSlot <==> 0 <= view.contextSlot && SeenBefore(records, view)
    ensures LatestSlot(records, view) >= 0
  {
    if records != [] {
      var n := |records| - 1;
      assert records == records[..n] + [records[n]];
      LatestIsLatest(records[..n], view);
    }
  }

  /** The file is one of this upload: its identity, its fingerprint and its records are those of the plan. */
  ghost predicate FileAgrees(state: State, c: Contract) {
    && state.identity == Identity(c.program, c.buffer, c.authority, c.owner, |c.local| + 37, |c.local|, Sha256(c.local))
    && (forall i :: 0 <= i < |state.chunks| ==> FitsAt(state.chunks, i))
    && StartOf(state.chunks, |state.chunks|) == |c.local|
    && |state.chunks| == |c.plan|
    && (forall i :: 0 <= i < |c.plan| ==>
          && state.chunks[i].offset == c.plan[i].offset && state.chunks[i].length == c.plan[i].length
          && state.chunks[i].sha256 == c.plan[i].sha256 && c.plan[i].index == i)
    && state.planFingerprint == OfPlan(PlanBinding(c.program, c.buffer, c.authority, |c.local| + 37, Sha256(c.local),
          c.maxPayload, seq(|state.chunks|, i requires 0 <= i < |state.chunks| =>
            (state.chunks[i].index, state.chunks[i].offset, state.chunks[i].length, state.chunks[i].sha256))))
  }

  /** Evidence is collected exactly for a file of this upload and a sound snapshot that is no older than its transactions. */
  lemma {:induction false} CollectedExactly(file: StateFile, executionId: string, c: Contract, view: View)
    ensures Collected(file, executionId, c, view).Some? <==>
      && FileAgrees(file.state, c)
      && view.genesis == c.genesis && !view.programExists && 0 <= view.contextSlot <= MAX_SAFE_INTEGER
      && view.account.Some? && !view.account.value.executable && view.account.value.owner == c.owner
      && view.account.value.isBuffer && view.account.value.authority == c.authority
      && |view.account.value.metadata| == 37 && |view.account.value.payload| == |c.local|
      && SeenBefore(ProofRecords(file.state, executionId), view)
  {
    FileParts(file, c);
    LatestIsLatest(ProofRecords(file.state, executionId), view);
    hide PlanAgrees, FileAgrees, ProofRecords, SeenBefore, LatestSlot, ConfirmedHeld, CollectEach;
  }

  lemma {:induction false} FileParts(file: StateFile, c: Contract)
    ensures PlanAgrees(file.state, c, ExpectedOf(c, file)) <==> FileAgrees(file.state, c)
  {
    var chunks := file.state.chunks;
    assert ValidRecords(chunks) <==> forall i :: 0 <= i < |chunks| ==> FitsAt(chunks, i);
    if ValidRecords(chunks) {
      A.LengthsAddUp(chunks);
      ValidIsNumbered(chunks);
    }
    hide ValidRecords, FitsAt, TotalLength, StartOf;
  }
}
