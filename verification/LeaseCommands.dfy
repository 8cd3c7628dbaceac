/**
 What the two operator commands answer and change, told by the fields of what
 they read: exactly when an apply writes, exactly when a lease is released
 (scripts/devnet/upload-execution-lease.mjs).
 */
module LeaseCommands {
  import opened ByteStrings
  import opened ChunkRecords
  import opened LeaseAnswers
  import opened LeaseDecision
  import opened LeaseEvidence
  import opened LeaseReceipts
  import opened LeaseReconciliation
  import opened LeaseRefusals
  import opened LeaseReplay
  import opened LeaseRoundTrip
  import opened LeaseStore
  import opened Outcomes

  /** The command may look at the lease at all. */
  predicate Admitted(request: Request, locked: bool) {
    request.acknowledged && !request.reconciliationHash.Malformed? && !locked
  }

  /** A fresh look gives this verdict. */
  ghost predicate Given(v: Verdict, file: StateFile, lease: Option<Lease>, request: Request) {
    Reconciled(request.input, lease, request.ownerActive, Some(file)) == Ok(v)
  }

  /** The verdict the operator acknowledged is given again. */
  ghost predicate Upheld(file: StateFile, lease: Option<Lease>, request: Request) {
    exists v :: Given(v, file, lease, request) && v.evidenceHash == request.reconciliationHash
  }

  /** Another verdict is given, on a state whose receipt answers the hash the operator acknowledged. */
  ghost predicate Answered(file: StateFile, lease: Option<Lease>, request: Request) {
    && (exists v :: Given(v, file, lease, request) && v.evidenceHash != request.reconciliationHash)
    && exists w: nat :: OnlyEnd(file.state.windows, request.input.executionId, w)
         && file.state.windows[w].reconciliationOutcomes.Some?
         && |file.state.windows[w].reconciliationOutcomes.value| == 1
         && file.state.windows[w].reconciliationOutcomes.value[0].evidenceHash == request.reconciliationHash
  }

  /** The file an apply leaves: open records CONFIRMED, one receipt in the execution's window, nothing else touched. */
  ghost predicate Closed(file: StateFile, after: StateFile, lease: Lease, request: Request, v: Verdict, now: string) {
    && after.canonical
    && after.state == file.state.(chunks := after.state.chunks, windows := after.state.windows)
    && |after.state.chunks| == |file.state.chunks|
    && (forall i :: 0 <= i < |file.state.chunks| ==>
          after.state.chunks[i] ==
            if Unresolved(file.state.chunks[i]) then file.state.chunks[i].(status := Confirmed) else file.state.chunks[i])
    && exists w: nat :: OnlyEnd(file.state.windows, request.input.executionId, w)
         && after.state.windows == file.state.windows[w := file.state.windows[w].(reconciliationOutcomes :=
              Some([Receipt(request.input.executionId, request.reconciliationHash, now, OfState(file), OfLease(lease),
                v.onchainEvidenceFingerprint, v.proposedTransitions)]))]
  }

  lemma {:induction false} GivenParts(v: Verdict, file: StateFile, lease: Option<Lease>, request: Request)
    requires Given(v, file, lease, request)
    ensures lease.Some? && v.leaseSha256 == OfLease(lease.value) && v.preStateSha256 == OfState(file)
    ensures v.proposedTransitions == [] <==> !AnyUnresolved(file.state.chunks)
    ensures UniqueTerminal(file.state.windows, request.input.executionId).Some?
  {
    VerdictNeedsLease(request.input, lease, request.ownerActive, file, v);
    hide *;
    ReconciledFor(v, file, lease, request);
    VerdictSays(request.input, lease.value, request.ownerActive, file, v);
    ProposesAny(v.proposedTransitions, request.input, file.state.chunks);
    SaysHashes(request.input, lease.value, file, v);
  }

  lemma {:induction false} ReconciledFor(v: Verdict, file: StateFile, lease: Option<Lease>, request: Request)
    requires Given(v, file, lease, request)
    ensures Reconciled(request.input, lease, request.ownerActive, Some(file)) == Ok(v)
  {
  }

  lemma {:induction false} SaysHashes(input: Input, lease: Lease, file: StateFile, v: Verdict)
    requires exists w: nat, normalized, highest ::
      && OnlyEnd(file.state.windows, input.executionId, w)
      && Verifies(v.verifiedTransactions, normalized, input.observations.transactions)
      && HashesSay(v, input, lease, file, w, normalized, highest)
    ensures v.preStateSha256 == OfState(file) && v.leaseSha256 == OfLease(lease)
  {
    hide Verifies, OnlyEnd, Highest;
  }

  /** A state on which a verdict was given holds the receipt asked for exactly when its one receipt has that hash. */
  lemma {:induction false} HoldsExactly(v: Verdict, file: StateFile, lease: Option<Lease>, request: Request)
    requires Given(v, file, lease, request) && lease.Some?
    ensures
      HoldsReceipt(file.state, request.input.executionId, request.reconciliationHash, OfLease(lease.value)) <==>
        exists w: nat :: OnlyEnd(file.state.windows, request.input.executionId, w)
          && file.state.windows[w].reconciliationOutcomes.Some?
          && |file.state.windows[w].reconciliationOutcomes.value| == 1
          && file.state.windows[w].reconciliationOutcomes.value[0].evidenceHash == request.reconciliationHash
  {
    var windows, executionId := file.state.windows, request.input.executionId;
    EndParts(windows, executionId);
    SafeExactly(request.input, lease, request.ownerActive, Some(file));
    ReconciledFor(v, file, lease, request);
    var w: nat :| OnlyEnd(windows, executionId, w) && WindowSettled(request.input, lease.value, file.state, w);
    hide Reconciled, OnlyEnd, UniqueEnd, InOrder, AnyUnresolved, OpenProved;
    if windows[w].reconciliationOutcomes.Some? {
      var receipts := windows[w].reconciliationOutcomes.value;
      AccountedInOrder(request.input, lease.value, file.state, w, receipts[0]);
      ReceiptParts(receipts[0], executionId, lease.value, file.state.chunks);
      assert receipts == [receipts[0]];
    }
    hide ReceiptFits, Accounted, ReceiptInOrder;
  }

  // ----- apply

  /** An apply gets as far as writing. */
  ghost predicate Writes(file: StateFile, lease: Option<Lease>, locked: bool, request: Request) {
    Admitted(request, locked) && Upheld(file, lease, request) && AnyUnresolved(file.state.chunks) && file.canonical
  }

  /** Each answer of an apply is given exactly when this holds of what was read. */
  lemma {:induction false} ApplyAnswers(
    file: StateFile, lease: Option<Lease>, locked: bool, request: Request, now: string, disk: Disk)
    ensures
      var r := ApplyOutcome(file, lease, locked, request, now, disk).0;
      && (r == ApplyRefused(NotAcknowledged) <==> !request.acknowledged)
      && (r == ApplyRefused(MalformedHash) <==> request.acknowledged && request.reconciliationHash.Malformed?)
      && (r == ApplyRefused(Busy) <==> Admitted(request, false) && locked)
      && (r == ApplyRefused(Stale) <==>
            && Admitted(request, locked) && !Upheld(file, lease, request)
            && (AnyUnresolved(file.state.chunks) || !Answered(file, lease, request)))
      && (r == AlreadyApplied <==>
            Admitted(request, locked) && !AnyUnresolved(file.state.chunks) && Answered(file, lease, request))
      && (r == ApplyRefused(NothingToApply) <==>
            Admitted(request, locked) && Upheld(file, lease, request) && !AnyUnresolved(file.state.chunks))
      && (r == ApplyRefused(NotCanonical) <==>
            && Admitted(request, locked) && Upheld(file, lease, request) && AnyUnresolved(file.state.chunks)
            && !file.canonical)
      && (r.AppliedNow? <==> Writes(file, lease, locked, request) && disk.Healthy? && |now| > 0)
      && (r.RolledBack? <==>
            Writes(file, lease, locked, request) && (if disk.Healthy? then now == "" else disk.restores))
      && (r.RollbackFailed? <==> Writes(file, lease, locked, request) && disk.Failing? && !disk.restores)
  {
    UpheldMeans(file, lease, request);
    AnsweredMeans(file, lease, request);
    hide Reconciled, HoldsReceipt, AppliedFile, UniqueTerminal, AnyUnresolved, Upheld, Answered;
  }

  /** There is at most one verdict. */
  lemma {:induction false} GivenIsVerdict(file: StateFile, lease: Option<Lease>, request: Request)
    ensures forall v :: Given(v, file, lease, request) <==>
      Reconciled(request.input, lease, request.ownerActive, Some(file)) == Ok(v)
  {
    hide Reconciled;
  }

  /** The file is exactly the closed one after an apply, and the one found otherwise, unless putting it back failed. */
  lemma {:induction false} ApplyWrites(
    file: StateFile, lease: Option<Lease>, locked: bool, request: Request, now: string, disk: Disk)
    ensures
      var (r, after) := ApplyOutcome(file, lease, locked, request, now, disk);
      && (r.AppliedNow? || (r.RollbackFailed? && disk.Failing? && disk.written) ==>
            && lease.Some?
            && exists v :: Given(v, file, lease, request) && Closed(file, after, lease.value, request, v, now))
      && (r.AppliedNow? ==> r.after == OfState(after))
      && (!r.AppliedNow? && !(r.RollbackFailed? && disk.Failing? && disk.written) ==> after == file)
  {
    var (r, after) := ApplyOutcome(file, lease, locked, request, now, disk);
    if r.AppliedNow? || (r.RollbackFailed? && disk.Failing? && disk.written) {
      var v := Reconciled(request.input, lease, request.ownerActive, Some(file)).value;
      assert Given(v, file, lease, request);
      GivenParts(v, file, lease, request);
      VerdictNeedsLease(request.input, lease, request.ownerActive, file, v);
      assert after == AppliedFile(request.input, file, v, now) && v.evidenceHash == request.reconciliationHash;
      hide *;
      AppliedIsClosed(file, lease.value, request, v, now);
    }
    hide Reconciled, HoldsReceipt, AppliedFile, UniqueTerminal;
  }

  lemma {:induction false} AppliedIsClosed(file: StateFile, lease: Lease, request: Request, v: Verdict, now: string)
    requires ReadyToApply(request.input, lease, file, v)
    requires UniqueTerminal(file.state.windows, request.input.executionId).Some?
    requires v.evidenceHash == request.reconciliationHash
    requires v.leaseSha256 == OfLease(lease) && v.preStateSha256 == OfState(file)
    ensures Closed(file, AppliedFile(request.input, file, v, now), lease, request, v, now)
  {
    var after := AppliedFile(request.input, file, v, now);
    Readiness(request.input, lease, file, v);
    ReadyMeansOpen(request.input, lease, file, v);
    EndParts(file.state.windows, request.input.executionId);
    var w := UniqueTerminal(file.state.windows, request.input.executionId).value;
    hide ReadyToApply, Reconciled, Fingerprint, EvidenceHash, OpenTargets, StoredPlan, ChunkProofs, Naming;
    assert OnlyEnd(file.state.windows, request.input.executionId, w);
    forall i | 0 <= i < |file.state.chunks|
      ensures after.state.chunks[i] ==
        if Unresolved(file.state.chunks[i]) then file.state.chunks[i].(status := Confirmed) else file.state.chunks[i]
    {
      ClosedAt(file.state.chunks, v.proposedTransitions, i);
    }
  }

  lemma {:induction false} ClosedAt(chunks: seq<Record>, transitions: seq<Transition>, i: nat)
    requires ClosesAll(transitions, chunks) && i < |chunks|
    ensures Forward(chunks, transitions)[i] ==
      if Unresolved(chunks[i]) then chunks[i].(status := Confirmed) else chunks[i]
  {
    var t := Naming(transitions, i);
    if t.Some? {
      assert Closes(t.value, chunks);
    } else {
      assert !Open(chunks[i]);
    }
  }

  // ----- release

  /** The directory the release is about: the active one, or the one that was archived under the same hash. */
  function Chosen(active: Option<LeaseDirectory>, archive: Archive, request: Request): Option<LeaseDirectory> {
    var key := (request.input.executionId, request.reconciliationHash);
    if active.Some? then (if key in archive then None else active)
    else if key in archive then Some(archive[key]) else None
  }

  /** The receipt a release leaves in the directory. */
  function Signed(directory: LeaseDirectory, file: StateFile, request: Request): LeaseDirectory {
    directory.(release := Some(ReleaseReceipt(request.input.executionId, request.reconciliationHash, OfState(file),
      OfLease(directory.lease))))
  }

  /** A release may go ahead: the acknowledged verdict is given again, and nothing is open. */
  ghost predicate Releasable(file: StateFile, directory: LeaseDirectory, request: Request) {
    Upheld(file, Some(directory.lease), request) && !AnyUnresolved(file.state.chunks)
  }

  /** An execution id that can name a directory. */
  ghost predicate NamesDirectory(executionId: string) {
    && 1 <= |executionId| <= 128
    && forall i :: 0 <= i < |executionId| ==>
         var c := executionId[i];
         'A' <= c <= 'Z' || 'a' <= c <= 'z' || '0' <= c <= '9' || (i > 0 && (c == '.' || c == '_' || c == '-'))
  }

  lemma {:induction false} SafeNames(executionId: string)
    ensures SafeExecutionId(executionId) <==> NamesDirectory(executionId)
  {
    if NamesDirectory(executionId) {
      assert Alphanumeric(executionId[0]);
    }
  }

  /** Each answer of a release is given exactly when this holds of what was read. */
  lemma {:induction false} ReleaseAnswers(
    file: StateFile, active: Option<LeaseDirectory>, archive: Archive, locked: bool, request: Request, renames: bool)
    ensures
      var r := ReleaseOutcome(file, active, archive, locked, request, renames).0;
      var key := (request.input.executionId, request.reconciliationHash);
      var named := Admitted(request, locked) && NamesDirectory(request.input.executionId);
      var chosen := Chosen(active, archive, request);
      var ready := named && chosen.Some? && Releasable(file, chosen.value, request);
      && (r == ReleaseRefused(ReleaseNotAcknowledged) <==> !request.acknowledged)
      && (r == ReleaseRefused(ReleaseMalformedHash) <==> request.acknowledged && request.reconciliationHash.Malformed?)
      && (r == ReleaseRefused(ReleaseBusy) <==> Admitted(request, false) && locked)
      && (r == ReleaseRefused(UnsafeExecutionId) <==>
            Admitted(request, locked) && !NamesDirectory(request.input.executionId))
      && (r == ReleaseRefused(Ambiguous) <==> named && active.Some? && key in archive)
      && (r == ReleaseRefused(NotFound) <==> named && active.None? && key !in archive)
      && (r == ReleaseRefused(ReleaseStale) <==>
            named && chosen.Some? && !Upheld(file, Some(chosen.value.lease), request))
      && (r == ReleaseRefused(NotReady) <==>
            && named && chosen.Some? && Upheld(file, Some(chosen.value.lease), request)
            && AnyUnresolved(file.state.chunks))
      && (r == ReleaseRefused(InvalidReceipt) <==>
            && ready && (chosen.value.release.Some? || active.None?)
            && chosen.value != Signed(chosen.value, file, request))
      && (r == Released(true) <==> ready && active.None? && chosen.value == Signed(chosen.value, file, request))
      && (r == Released(false) <==>
            && ready && active.Some? && renames
            && (chosen.value.release.None? || chosen.value == Signed(chosen.value, file, request)))
      && (r.ArchiveFailed? <==>
            && ready && active.Some? && !renames
            && (chosen.value.release.None? || chosen.value == Signed(chosen.value, file, request)))
  {
    SafeNames(request.input.executionId);
    var chosen := Chosen(active, archive, request);
    if chosen.Some? {
      UpheldMeans(file, Some(chosen.value.lease), request);
    }
    hide Reconciled, AnyUnresolved, Upheld, SafeExecutionId, NamesDirectory;
  }

  lemma {:induction false} UpheldMeans(file: StateFile, lease: Option<Lease>, request: Request)
    ensures
      var verdict := Reconciled(request.input, lease, request.ownerActive, Some(file));
      && (Upheld(file, lease, request) <==> verdict.Ok? && verdict.value.evidenceHash == request.reconciliationHash)
      && (verdict.Ok? ==>
            && lease.Some? && verdict.value.leaseSha256 == OfLease(lease.value)
            && verdict.value.preStateSha256 == OfState(file)
            && (verdict.value.proposedTransitions == [] <==> !AnyUnresolved(file.state.chunks)))
  {
    GivenIsVerdict(file, lease, request);
    var verdict := Reconciled(request.input, lease, request.ownerActive, Some(file));
    if verdict.Ok? {
      assert Given(verdict.value, file, lease, request);
      GivenParts(verdict.value, file, lease, request);
    }
    hide Reconciled, AnyUnresolved, Given, UniqueTerminal;
  }

  lemma {:induction false} AnsweredMeans(file: StateFile, lease: Option<Lease>, request: Request)
    ensures
      var verdict := Reconciled(request.input, lease, request.ownerActive, Some(file));
      && (Answered(file, lease, request) <==>
            && verdict.Ok? && verdict.value.evidenceHash != request.reconciliationHash && lease.Some?
            && HoldsReceipt(file.state, request.input.executionId, request.reconciliationHash, OfLease(lease.value)))
      && (verdict.Ok? ==> UniqueTerminal(file.state.windows, request.input.executionId).Some?)
  {
    GivenIsVerdict(file, lease, request);
    var verdict := Reconciled(request.input, lease, request.ownerActive, Some(file));
    if verdict.Ok? {
      assert Given(verdict.value, file, lease, request);
      GivenParts(verdict.value, file, lease, request);
      HoldsExactly(verdict.value, file, lease, request);
    }
    hide Reconciled, HoldsReceipt, UniqueTerminal, AnyUnresolved, OnlyEnd, Given;
  }

  /** Only a release moves the directory, with its receipt; a failed move leaves the receipt behind. */
  lemma {:induction false} ReleaseMoves(
    file: StateFile, active: Option<LeaseDirectory>, archive: Archive, locked: bool, request: Request, renames: bool)
    ensures
      var (r, kept, moved) := ReleaseOutcome(file, active, archive, locked, request, renames);
      var key := (request.input.executionId, request.reconciliationHash);
      && (r == Released(false) ==>
            active.Some? && kept == None && moved == archive[key := Signed(active.value, file, request)])
      && (r.ArchiveFailed? ==> active.Some? && kept == Some(Signed(active.value, file, request)) && moved == archive)
      && (r != Released(false) && !r.ArchiveFailed? ==> kept == active && moved == archive)
  {
    var (r, kept, moved) := ReleaseOutcome(file, active, archive, locked, request, renames);
    if r == Released(false) || r.ArchiveFailed? {
      UpheldMeans(file, Some(active.value.lease), request);
    }
    hide Reconciled, SafeExecutionId, AnyUnresolved, Upheld;
  }
}
