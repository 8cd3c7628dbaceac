/**
 The two operator commands that end a dead uploader's lease: apply writes what the
 evidence proved into the state file and leaves a receipt, release moves the lease
 directory to the archive (scripts/devnet/upload-execution-lease.mjs).
 */
module LeaseStore {
  import opened ByteStrings
  import opened ChunkRecords
  import opened LeaseDecision
  import opened LeaseEvidence
  import opened LeaseReceipts
  import opened LeaseReconciliation
  import opened LeaseReplay
  import opened LeaseRoundTrip
  import opened Outcomes
  import opened UploadTrace

  datatype ReleaseReceipt = ReleaseReceipt(executionId: string, evidenceHash: Hash, stateSha256: Hash, leaseSha256: Hash)

  datatype LeaseDirectory = LeaseDirectory(lease: Lease, release: Option<ReleaseReceipt>)

  type Archive = map<(string, Hash), LeaseDirectory>

  /** Whether saving throws, before or after the file was replaced, and whether putting it back then works. */
  datatype Disk = Healthy | Failing(written: bool, restores: bool)

  /** Who asks for what: the evidence hash the operator acknowledges, and whether the lease's owner is still running. */
  datatype Request = Request(input: Input, acknowledged: bool, reconciliationHash: Hash, ownerActive: bool)

  datatype ApplyResult =
    | ApplyRefused(reason: ApplyRefusal) | AlreadyApplied | AppliedNow(after: Hash) | RolledBack | RollbackFailed

  datatype ApplyRefusal = NotAcknowledged | MalformedHash | Busy | Stale | NothingToApply | NotCanonical

  datatype ReleaseResult = ReleaseRefused(reason: ReleaseRefusal) | Released(idempotent: bool) | ArchiveFailed

  datatype ReleaseRefusal =
    | ReleaseNotAcknowledged | ReleaseMalformedHash | ReleaseBusy | UnsafeExecutionId | Ambiguous | NotFound
    | ReleaseStale | NotReady | InvalidReceipt

  // ----- apply

  ghost predicate HoldsReceipt(state: State, executionId: string, evidenceHash: Hash, leaseSha256: Hash) {
    var w := UniqueTerminal(state.windows, executionId);
    && w.Some? && state.windows[w.value].reconciliationOutcomes.Some?
    && var receipts := state.windows[w.value].reconciliationOutcomes.value;
      ReceiptFits(receipts, executionId, leaseSha256, state.chunks) && receipts[0].evidenceHash == evidenceHash
  }

  ghost function ApplyOutcome(
    file: StateFile, lease: Option<Lease>, locked: bool, request: Request, now: string, disk: Disk)
    : (r: (ApplyResult, StateFile))
  {
    var input := request.input;
    var verdict := Reconciled(input, lease, request.ownerActive, Some(file));
    if !request.acknowledged then (ApplyRefused(NotAcknowledged), file)
    else if !IsHash(request.reconciliationHash) then (ApplyRefused(MalformedHash), file)
    else if locked then (ApplyRefused(Busy), file)
    else if verdict.Err? then (ApplyRefused(Stale), file)
    else if verdict.value.evidenceHash != request.reconciliationHash then
      (if HoldsReceipt(file.state, input.executionId, request.reconciliationHash, verdict.value.leaseSha256)
          && verdict.value.proposedTransitions == []
       then AlreadyApplied else ApplyRefused(Stale), file)
    else if verdict.value.proposedTransitions == [] then (ApplyRefused(NothingToApply), file)
    else if !file.canonical then (ApplyRefused(NotCanonical), file)
    else if UniqueTerminal(file.state.windows, input.executionId).None? then (ApplyRefused(Stale), file)
    else
      var after := AppliedFile(input, file, verdict.value, now);
      if disk.Healthy? && now != "" then (AppliedNow(OfState(after)), after)
      else if disk.Healthy? || disk.restores then (RolledBack, file)
      else (RollbackFailed, if disk.written then after else file)
  }

  // ----- release

  function ReleaseReceiptOf(request: Request, v: Verdict): ReleaseReceipt {
    ReleaseReceipt(request.input.executionId, request.reconciliationHash, v.preStateSha256, v.leaseSha256)
  }

  /** Only the lease directory moves; a directory that already holds a receipt must hold this one. */
  ghost function ReleaseOutcome(
    file: StateFile, active: Option<LeaseDirectory>, archive: Archive, locked: bool, request: Request, renames: bool)
    : (r: (ReleaseResult, Option<LeaseDirectory>, Archive))
  {
    var key := (request.input.executionId, request.reconciliationHash);
    if !request.acknowledged then (ReleaseRefused(ReleaseNotAcknowledged), active, archive)
    else if !IsHash(request.reconciliationHash) then (ReleaseRefused(ReleaseMalformedHash), active, archive)
    else if locked then (ReleaseRefused(ReleaseBusy), active, archive)
    else if !SafeExecutionId(request.input.executionId) then (ReleaseRefused(UnsafeExecutionId), active, archive)
    else if active.Some? && key in archive then (ReleaseRefused(Ambiguous), active, archive)
    else if active.None? && key !in archive then (ReleaseRefused(NotFound), active, archive)
    else
      var directory := if active.Some? then active.value else archive[key];
      var verdict := Reconciled(request.input, Some(directory.lease), request.ownerActive, Some(file));
      if verdict.Err? || verdict.value.evidenceHash != request.reconciliationHash
      then (ReleaseRefused(ReleaseStale), active, archive)
      else if verdict.value.proposedTransitions != [] then (ReleaseRefused(NotReady), active, archive)
      else
        var receipt := ReleaseReceiptOf(request, verdict.value);
        if active.None? then
          (if directory.release == Some(receipt) then Released(true) else ReleaseRefused(InvalidReceipt), active, archive)
        else if directory.release.Some? && directory.release != Some(receipt)
        then (ReleaseRefused(InvalidReceipt), active, archive)
        else
          var signed := directory.(release := Some(receipt));
          if renames then (Released(false), None, archive[key := signed]) else (ArchiveFailed, Some(signed), archive)
  }

  class Store {
    var file: StateFile
    var active: Option<LeaseDirectory>
    var archive: Archive
    var locked: bool

    constructor (file: StateFile, active: Option<LeaseDirectory>, archive: Archive)
      ensures this.file == file && this.active == active && this.archive == archive && !locked
    {
      this.file, this.active, this.archive, this.locked := file, active, archive, false;
    }

    function ActiveLease(): Option<Lease>
      reads this
    {
      if active.Some? then Some(active.value.lease) else None
    }

    /** Nothing but the state file changes, and only an apply that returns normally or cannot restore changes that. */
    method ApplyUploadReconciliation(request: Request, now: string, disk: Disk) returns (r: ApplyResult)
      modifies this
      ensures (r, file) == ApplyOutcome(old(file), old(ActiveLease()), old(locked), request, now, disk)
      ensures active == old(active) && archive == old(archive) && locked == old(locked)
    {
      if !request.acknowledged {
        return ApplyRefused(NotAcknowledged);
      }
      if !IsHash(request.reconciliationHash) {
        return ApplyRefused(MalformedHash);
      }
      if locked {
        return ApplyRefused(Busy);
      }
      locked := true;
      r := ApplyUnderLock(request, now, disk);
      locked := false;
    }

    method ApplyUnderLock(request: Request, now: string, disk: Disk) returns (r: ApplyResult)
      requires request.acknowledged && IsHash(request.reconciliationHash)
      modifies `file
      ensures (r, file) == ApplyOutcome(old(file), old(ActiveLease()), false, request, now, disk)
    {
      hide Reconciled, UniqueTerminal, AppliedFile, HoldsReceipt;
      var input := request.input;
      var verdict := ReconcileUploadLease(input, ActiveLease(), request.ownerActive, Some(file));
      if verdict.Err? {
        return ApplyRefused(Stale);
      }
      var v := verdict.value;
      if v.evidenceHash != request.reconciliationHash {
        var held := MatchingAppliedReceipt(file.state, input.executionId, request.reconciliationHash, v.leaseSha256);
        return if held && v.proposedTransitions == [] then AlreadyApplied else ApplyRefused(Stale);
      }
      if v.proposedTransitions == [] {
        return ApplyRefused(NothingToApply);
      }
      if !file.canonical {
        return ApplyRefused(NotCanonical);
      }
      VerdictNeedsLease(input, ActiveLease(), request.ownerActive, file, v);
      r := WriteApplied(input, ActiveLease().value, v, now, disk);
    }

    /** The saved file is read back and checked; whatever goes wrong, the original bytes are put back. */
    method WriteApplied(input: Input, lease: Lease, v: Verdict, now: string, disk: Disk) returns (r: ApplyResult)
      requires ReadyToApply(input, lease, file, v)
      requires UniqueTerminal(file.state.windows, input.executionId).Some?
      modifies `file
      ensures
        var after := AppliedFile(input, old(file), v, now);
        (r, file) ==
          if disk.Healthy? && now != "" then (AppliedNow(OfState(after)), after)
          else if disk.Healthy? || disk.restores then (RolledBack, old(file))
          else (RollbackFailed, if disk.written then after else old(file))
    {
      var original := file;
      var next := ApplyTransitions(input, lease, file, v, now);
      if disk.Failing? {
        file := if disk.written then next else original;
        if !disk.restores {
          return RollbackFailed;
        }
        file := original;
        return RolledBack;
      }
      file := next;
      var valid := ValidateAppliedState(file.state, input.expected, input.executionId, v.evidenceHash, v.leaseSha256);
      AppliedStateIsValid(input, lease, original, v, now);
      if !valid {
        file := original;
        return RolledBack;
      }
      return AppliedNow(OfState(file));
    }

    method ReleaseUploadLease(request: Request, renames: bool) returns (r: ReleaseResult)
      modifies this
      ensures (r, active, archive) ==
        ReleaseOutcome(old(file), old(active), old(archive), old(locked), request, renames)
      ensures file == old(file) && locked == old(locked)
    {
      if !request.acknowledged {
        return ReleaseRefused(ReleaseNotAcknowledged);
      }
      if !IsHash(request.reconciliationHash) {
        return ReleaseRefused(ReleaseMalformedHash);
      }
      if locked {
        return ReleaseRefused(ReleaseBusy);
      }
      locked := true;
      r := ReleaseUnderLock(request, renames);
      locked := false;
    }

    method ReleaseUnderLock(request: Request, renames: bool) returns (r: ReleaseResult)
      requires request.acknowledged && IsHash(request.reconciliationHash)
      modifies `active, `archive
      ensures (r, active, archive) == ReleaseOutcome(file, old(active), old(archive), false, request, renames)
    {
      hide Reconciled, SafeExecutionId;
      var key := (request.input.executionId, request.reconciliationHash);
      if !SafeExecutionId(request.input.executionId) {
        return ReleaseRefused(UnsafeExecutionId);
      }
      var activeExists, archiveExists := active.Some?, key in archive;
      if activeExists && archiveExists {
        return ReleaseRefused(Ambiguous);
      }
      if !activeExists && !archiveExists {
        return ReleaseRefused(NotFound);
      }
      var directory := if activeExists then active.value else archive[key];
      var verdict := ReconcileUploadLease(request.input, Some(directory.lease), request.ownerActive, Some(file));
      if verdict.Err? || verdict.value.evidenceHash != request.reconciliationHash {
        return ReleaseRefused(ReleaseStale);
      }
      if !verdict.value.releaseReady || verdict.value.proposedTransitions != [] {
        ReadyWhenNothingProposed(request.input, directory.lease, request.ownerActive, file, verdict.value);
        return ReleaseRefused(NotReady);
      }
      var receipt := ReleaseReceiptOf(request, verdict.value);
      if !activeExists {
        return if directory.release == Some(receipt) then Released(true) else ReleaseRefused(InvalidReceipt);
      }
      if directory.release.Some? {
        if directory.release.value != receipt {
          return ReleaseRefused(InvalidReceipt);
        }
      } else {
        active := Some(directory.(release := Some(receipt)));
      }
      if !renames {
        return ArchiveFailed;
      }
      archive := archive[key := active.value];
      active := None;
      return Released(false);
    }
  }

  lemma {:induction false} ReadyWhenNothingProposed(input: Input, lease: Lease, ownerActive: bool, file: StateFile, v: Verdict)
    requires Reconciled(input, Some(lease), ownerActive, Some(file)) == Ok(v)
    ensures v.releaseReady <==> v.proposedTransitions == []
  {
    hide Fingerprint, EvidenceHash, ReceiptBacked, ReceiptFits, ChunkProofs, OpenTargets, OutcomeUnknown, StoredPlan,
      BufferObserved, CompleteLease, SafeExecutionId, LeaseMatches, UniqueEnd;
  }

  lemma {:induction false} VerdictNeedsLease(input: Input, lease: Option<Lease>, ownerActive: bool, file: StateFile, v: Verdict)
    requires Reconciled(input, lease, ownerActive, Some(file)) == Ok(v)
    ensures lease.Some? && !ownerActive
    ensures UniqueTerminal(file.state.windows, input.executionId).Some?
    ensures v.proposedTransitions != [] && file.canonical ==> ReadyToApply(input, lease.value, file, v)
  {
    hide Judge, StoredPlan, BufferObserved, CompleteLease, SafeExecutionId, LeaseMatches, UniqueEnd;
  }

  method MatchingAppliedReceipt(state: State, executionId: string, evidenceHash: Hash, leaseSha256: Hash)
    returns (held: bool)
    ensures held <==> HoldsReceipt(state, executionId, evidenceHash, leaseSha256)
  {
    hide HeaderFits, TransitionFits;
    var w := FindTerminal(state.windows, executionId);
    if w.None? || state.windows[w.value].reconciliationOutcomes.None? {
      return false;
    }
    var receipts := state.windows[w.value].reconciliationOutcomes.value;
    var targets := AppliedReceiptTargets(receipts, executionId, leaseSha256, state.chunks);
    return targets.Some? && receipts[0].evidenceHash == evidenceHash;
  }

  /** The checks the source repeats for each transition cannot fail: the verdict was given on these records. */
  method ApplyTransitions(input: Input, lease: Lease, file: StateFile, v: Verdict, now: string) returns (next: StateFile)
    requires ReadyToApply(input, lease, file, v)
    requires UniqueTerminal(file.state.windows, input.executionId).Some?
    ensures next == AppliedFile(input, file, v, now)
  {
    Readiness(input, lease, file, v);
    ReadyMeansOpen(input, lease, file, v);
    hide ReadyToApply, Reconciled, ClosesAll, ChunkProofs, Fingerprint, EvidenceHash, Forward, StoredPlan;
    var state := file.state;
    var chunks := ConfirmChunks(state.chunks, v.proposedTransitions);
    var w := FindTerminal(state.windows, input.executionId);
    var outcomes := state.windows[w.value].reconciliationOutcomes;
    assert outcomes.None?;
    var receipt := ReceiptOf(v, input.executionId, now);
    var windows := state.windows[w.value :=
      state.windows[w.value].(reconciliationOutcomes := Some(outcomes.GetOr([]) + [receipt]))];
    assert outcomes.GetOr([]) + [receipt] == [receipt];
    return StateFile(state.(chunks := chunks, windows := windows), true);
  }

  method ConfirmChunks(records: seq<Record>, transitions: seq<Transition>) returns (chunks: seq<Record>)
    requires ClosesAll(transitions, records)
    ensures chunks == Forward(records, transitions)
  {
    hide OpenTargets, Naming;
    chunks := records;
    assert chunks == Rewritten(records, transitions[..0], true) by {
      RewriteNothing(records, true);
      assert transitions[..0] == [];
    }
    for k := 0 to |transitions|
      invariant chunks == Rewritten(records, transitions[..k], true)
      invariant forall j :: k <= j < |transitions| ==>
        Closes(transitions[j], records) && chunks[transitions[j].chunkIndex] == records[transitions[j].chunkIndex]
    {
      var t := transitions[k];
      assert 0 <= t.chunkIndex < |chunks| && chunks[t.chunkIndex].status == t.from
        && chunks[t.chunkIndex].signature == t.signature && chunks[t.chunkIndex].sha256 == t.chunkSha256
        && t.to == Confirmed;
      RewriteOneMore(records, transitions[..k], t, true);
      assert transitions[..k + 1] == transitions[..k] + [t];
      chunks := chunks[t.chunkIndex := chunks[t.chunkIndex].(status := Confirmed)];
    }
    assert transitions[..|transitions|] == transitions;
  }

  lemma {:induction false} RewriteNothing(records: seq<Record>, forward: bool)
    ensures Rewritten(records, [], forward) == records
  {
  }

  ghost predicate AppliedStateValid(
    state: State, expected: Expected, executionId: string, evidenceHash: Hash, leaseSha256: Hash)
  {
    && HoldsReceipt(state, executionId, evidenceHash, leaseSha256)
    && StoredPlan(state, expected)
    && var w := UniqueTerminal(state.windows, executionId).value;
      PreState(state, state.windows[w].reconciliationOutcomes.value[0], expected).Some?
  }

  method ValidateAppliedState(
    state: State, expected: Expected, executionId: string, evidenceHash: Hash, leaseSha256: Hash) returns (valid: bool)
    ensures valid <==> AppliedStateValid(state, expected, executionId, evidenceHash, leaseSha256)
  {
    hide StoredPlan, PreState, HeaderFits, TransitionFits;
    var w := FindTerminal(state.windows, executionId);
    if w.None? || state.windows[w.value].reconciliationOutcomes.None? {
      return false;
    }
    var receipts := state.windows[w.value].reconciliationOutcomes.value;
    var targets := AppliedReceiptTargets(receipts, executionId, leaseSha256, state.chunks);
    var planned := ValidateStoredPlan(state, expected);
    if targets.None? || !planned || receipts[0].evidenceHash != evidenceHash {
      return false;
    }
    var before := ReconstructReceiptPreState(state, receipts[0], expected);
    return before.Some?;
  }

  /** The check after the write fails exactly when the clock gave no timestamp. */
  lemma {:induction false} AppliedStateIsValid(input: Input, lease: Lease, file: StateFile, v: Verdict, now: string)
    requires ReadyToApply(input, lease, file, v)
    requires UniqueTerminal(file.state.windows, input.executionId).Some?
    ensures
      var after := AppliedFile(input, file, v, now).state;
      AppliedStateValid(after, input.expected, input.executionId, v.evidenceHash, v.leaseSha256) <==> now != ""
  {
    ReadyMeansOpen(input, lease, file, v);
    AppliedFields(input, file, v, now);
    hide ReadyToApply, Reconciled, PreState, StoredPlan, AppliedFile, ClosesAll, ChunkProofs, Fingerprint, EvidenceHash,
      TransitionFits, UniqueEnd;
    if now != "" {
      ApplyThenReconstruct(input, lease, file, v, now);
    } else {
      var after := AppliedFile(input, file, v, now).state;
      var w := UniqueTerminal(file.state.windows, input.executionId).value;
      UniqueEndStays(file.state.windows, input.executionId, w, Some([ReceiptOf(v, input.executionId, now)]));
      assert after.windows[w].reconciliationOutcomes.value[0].appliedAt == "";
    }
  }

  // ----- what the commands achieve, taken together

  lemma {:induction false} AppliedMeans(file: StateFile, lease: Lease, request: Request, now: string, disk: Disk)
    requires ApplyOutcome(file, Some(lease), false, request, now, disk).0.AppliedNow?
    ensures
      var v := Reconciled(request.input, Some(lease), false, Some(file));
      && v.Ok? && ReadyToApply(request.input, lease, file, v.value) && now != ""
      && v.value.evidenceHash == request.reconciliationHash && request.acknowledged
      && UniqueTerminal(file.state.windows, request.input.executionId).Some?
      && ApplyOutcome(file, Some(lease), false, request, now, disk).1 == AppliedFile(request.input, file, v.value, now)
  {
    hide Judge, AppliedFile, HoldsReceipt, UniqueTerminal;
    var v := Reconciled(request.input, Some(lease), request.ownerActive, Some(file)).value;
    VerdictNeedsLease(request.input, Some(lease), request.ownerActive, file, v);
    hide Reconciled;
  }

  /** An apply closes exactly the open records, each of them backed by proof, and changes no other record. */
  lemma {:induction false} ApplyClosesOpenRecords(file: StateFile, lease: Lease, request: Request, now: string, disk: Disk)
    requires ApplyOutcome(file, Some(lease), false, request, now, disk).0.AppliedNow?
    ensures
      var after := ApplyOutcome(file, Some(lease), false, request, now, disk).1.state;
      && AllProven(OpenTargets(file.state.chunks), request.input.observations, request.input.expected)
      && Reconciles(file.state.chunks, after.chunks, set i: nat | i < |file.state.chunks| && Open(file.state.chunks[i]))
      && (forall i :: 0 <= i < |after.chunks| ==> !Open(after.chunks[i]))
      && after == file.state.(chunks := after.chunks, windows := after.windows)
  {
    AppliedMeans(file, lease, request, now, disk);
    var v := Reconciled(request.input, Some(lease), false, Some(file)).value;
    var before := file.state.chunks;
    Readiness(request.input, lease, file, v);
    ReadyMeansOpen(request.input, lease, file, v);
    AppliedFields(request.input, file, v, now);
    BackwardUndoesForward(before, v.proposedTransitions);
    ForwardReconciles(before, v.proposedTransitions);
    hide Reconciled, ReadyToApply, ApplyOutcome, Fingerprint, EvidenceHash, OpenTargets, StoredPlan, ProveEach, ProvenBy;
    assert OpenTargets(before) + [] == OpenTargets(before);
    AcceptedExactly(OpenTargets(before), request.input.observations, request.input.expected);
  }

  /** The evidence hash of a verdict fixes the state file it was given on. */
  lemma {:induction false} HashFixesState(input: Input, lease: Lease, file: StateFile, v: Verdict)
    requires Reconciled(input, Some(lease), false, Some(file)) == Ok(v)
    ensures v.evidenceHash.OfEvidence? && v.evidenceHash.evidence.preStateSha256 == OfState(file)
  {
    hide Fingerprint, ReceiptBacked, ReceiptFits, ChunkProofs, OpenTargets, OutcomeUnknown, StoredPlan, BufferObserved,
      CompleteLease, SafeExecutionId, LeaseMatches, UniqueEnd;
  }

  /** Asking again to apply what was applied, with the chain unchanged, changes nothing and says so. */
  lemma {:induction false} SecondApplyIsRecognised(
    file: StateFile, lease: Lease, request: Request, now: string, disk: Disk, again: Request, now': string, disk': Disk)
    requires ApplyOutcome(file, Some(lease), false, request, now, disk).0.AppliedNow?
    requires again.acknowledged && !again.ownerActive && again.reconciliationHash == request.reconciliationHash
    requires Follows(request.input, again.input, ApplyOutcome(file, Some(lease), false, request, now, disk).1)
    ensures
      var after := ApplyOutcome(file, Some(lease), false, request, now, disk).1;
      ApplyOutcome(after, Some(lease), false, again, now', disk') == (AlreadyApplied, after)
  {
    AppliedMeans(file, lease, request, now, disk);
    var v := Reconciled(request.input, Some(lease), false, Some(file)).value;
    var after := AppliedFile(request.input, file, v, now);
    Readiness(request.input, lease, file, v);
    assert IsHash(request.reconciliationHash) && SafeFollow(request.input, again.input, after);
    hide *;
    NextReconcileSettles(request.input, lease, file, v, now, again.input);
    var next := Reconciled(again.input, Some(lease), false, Some(after)).value;
    HashFixesState(request.input, lease, file, v);
    HashFixesState(again.input, lease, after, next);
    AppliedIsAnotherFile(request.input, lease, file, v, now);
    SettledParts(v, next, after);
    HoldsAfterApply(request.input, lease, file, v, now);
    AnswersAlreadyApplied(after, lease, again, next, now', disk');
  }

  predicate SafeFollow(input: Input, later: Input, file: StateFile) {
    later.executionId == input.executionId && later.expected.stateSha256 == OfState(file)
  }

  lemma {:induction false} SettledParts(v: Verdict, next: Verdict, file: StateFile)
    requires Settled(v, next, file)
    ensures next.proposedTransitions == [] && next.leaseSha256 == v.leaseSha256
  {
  }

  lemma {:induction false} HoldsAfterApply(input: Input, lease: Lease, file: StateFile, v: Verdict, now: string)
    requires ReadyToApply(input, lease, file, v) && now != ""
    requires UniqueTerminal(file.state.windows, input.executionId).Some?
    ensures HoldsReceipt(AppliedFile(input, file, v, now).state, input.executionId, v.evidenceHash, v.leaseSha256)
  {
    AppliedStateIsValid(input, lease, file, v, now);
    hide ReadyToApply, AppliedFile, HoldsReceipt, StoredPlan, PreState;
  }

  lemma {:induction false} AnswersAlreadyApplied(file: StateFile, lease: Lease, request: Request, v: Verdict, now: string, disk: Disk)
    requires Reconciled(request.input, Some(lease), request.ownerActive, Some(file)) == Ok(v)
    requires request.acknowledged && IsHash(request.reconciliationHash)
    requires v.evidenceHash != request.reconciliationHash && v.proposedTransitions == []
    requires HoldsReceipt(file.state, request.input.executionId, request.reconciliationHash, v.leaseSha256)
    ensures ApplyOutcome(file, Some(lease), false, request, now, disk) == (AlreadyApplied, file)
  {
    hide Reconciled, HoldsReceipt, AppliedFile, UniqueTerminal;
  }

  lemma {:induction false} AppliedIsAnotherFile(input: Input, lease: Lease, file: StateFile, v: Verdict, now: string)
    requires ReadyToApply(input, lease, file, v) && UniqueTerminal(file.state.windows, input.executionId).Some?
    ensures AppliedFile(input, file, v, now) != file
  {
    Readiness(input, lease, file, v);
    ReadyMeansOpen(input, lease, file, v);
    AppliedFields(input, file, v, now);
    hide Reconciled, ReadyToApply, AppliedFile, ClosesAll, ChunkProofs, StoredPlan, Fingerprint, EvidenceHash;
  }

  /** A lease is only released from a state without open records, by the verdict that was acknowledged. */
  lemma {:induction false} ReleaseNeedsNothingOpen(
    file: StateFile, active: Option<LeaseDirectory>, archive: Archive, request: Request, renames: bool)
    requires ReleaseOutcome(file, active, archive, false, request, renames).0.Released?
    ensures
      var outcome := ReleaseOutcome(file, active, archive, false, request, renames);
      var key := (request.input.executionId, request.reconciliationHash);
      && (forall i :: 0 <= i < |file.state.chunks| ==> !Open(file.state.chunks[i]))
      && !request.ownerActive
      && outcome.1.None? && key in outcome.2
      && outcome.2[key].lease.executionId == request.input.executionId
      && outcome.2 - {key} == archive - {key}
      && (outcome.0.idempotent <==> active.None?)
      && (active.Some? ==> outcome.2[key].lease == active.value.lease && key !in archive)
  {
    var key := (request.input.executionId, request.reconciliationHash);
    hide Reconciled, SafeExecutionId, ReleaseReceiptOf;
    var directory := if active.Some? then active.value else archive[key];
    var v := Reconciled(request.input, Some(directory.lease), request.ownerActive, Some(file)).value;
    VerdictOfOwner(request.input, directory.lease, request.ownerActive, file, v);
    ReleaseReadyWhenNoneOpen(request.input, directory.lease, file, v);
    ReadyWhenNothingProposed(request.input, directory.lease, false, file, v);
  }

  lemma {:induction false} VerdictOfOwner(input: Input, lease: Lease, ownerActive: bool, file: StateFile, v: Verdict)
    requires Reconciled(input, Some(lease), ownerActive, Some(file)) == Ok(v)
    ensures !ownerActive && lease.executionId == input.executionId
  {
    hide Judge, StoredPlan, BufferObserved, CompleteLease, SafeExecutionId, LeaseMatches, UniqueEnd;
  }

  /** After an apply and a fresh look, the lease can be released; releasing it again finds it in the archive. */
  lemma {:induction false} ApplyThenReleaseTwice(
    file: StateFile, directory: LeaseDirectory, archive: Archive, request: Request, now: string, disk: Disk,
    release: Request, again: Request)
    requires ApplyOutcome(file, Some(directory.lease), false, request, now, disk).0.AppliedNow?
    requires release.acknowledged && !release.ownerActive && directory.release.None?
    requires Follows(request.input, release.input, ApplyOutcome(file, Some(directory.lease), false, request, now, disk).1)
    requires
      var after := ApplyOutcome(file, Some(directory.lease), false, request, now, disk).1;
      var next := Reconciled(release.input, Some(directory.lease), false, Some(after));
      next.Ok? ==> release.reconciliationHash == next.value.evidenceHash
    requires (release.input.executionId, release.reconciliationHash) !in archive
    requires again == release.(input := release.input.(observations := again.input.observations))
    requires SameChain(release.input.observations, again.input.observations)
    ensures
      var after := ApplyOutcome(file, Some(directory.lease), false, request, now, disk).1;
      var first := ReleaseOutcome(after, Some(directory), archive, false, release, true);
      && first.0 == Released(false) && first.1 == None
      && ReleaseOutcome(after, first.1, first.2, false, again, true) == (Released(true), None, first.2)
  {
    AppliedMeans(file, directory.lease, request, now, disk);
    var v := Reconciled(request.input, Some(directory.lease), false, Some(file)).value;
    var after := AppliedFile(request.input, file, v, now);
    hide *;
    NextReconcileSettles(request.input, directory.lease, file, v, now, release.input);
    var next := Reconciled(release.input, Some(directory.lease), false, Some(after)).value;
    SettledParts(v, next, after);
    HashFixesState(release.input, directory.lease, after, next);
    VerdictIsStable(release.input, directory.lease, after, next, again.input);
    ReleasesOnce(after, directory, archive, release, next);
    var first := ReleaseOutcome(after, Some(directory), archive, false, release, true);
    FindsArchived(after, directory, first.2, again, next);
  }

  lemma {:induction false} ReleasesOnce(file: StateFile, directory: LeaseDirectory, archive: Archive, request: Request, v: Verdict)
    requires Reconciled(request.input, Some(directory.lease), request.ownerActive, Some(file)) == Ok(v)
    requires request.acknowledged && v.evidenceHash == request.reconciliationHash && v.evidenceHash.OfEvidence?
    requires v.proposedTransitions == [] && directory.release.None?
    requires (request.input.executionId, request.reconciliationHash) !in archive
    ensures
      var key := (request.input.executionId, request.reconciliationHash);
      ReleaseOutcome(file, Some(directory), archive, false, request, true) ==
        (Released(false), None, archive[key := directory.(release := Some(ReleaseReceiptOf(request, v)))])
  {
    assert SafeExecutionId(request.input.executionId);
    hide Reconciled, SafeExecutionId, ReleaseReceiptOf;
  }

  lemma {:induction false} FindsArchived(file: StateFile, directory: LeaseDirectory, archive: Archive, request: Request, v: Verdict)
    requires Reconciled(request.input, Some(directory.lease), request.ownerActive, Some(file)) == Ok(v)
    requires request.acknowledged && v.evidenceHash == request.reconciliationHash && v.evidenceHash.OfEvidence?
    requires v.proposedTransitions == []
    requires (request.input.executionId, request.reconciliationHash) in archive
    requires archive[(request.input.executionId, request.reconciliationHash)] ==
      directory.(release := Some(ReleaseReceipt(request.input.executionId, request.reconciliationHash, v.preStateSha256,
        v.leaseSha256)))
    ensures ReleaseOutcome(file, None, archive, false, request, true) == (Released(true), None, archive)
  {
    assert SafeExecutionId(request.input.executionId);
    hide Reconciled, SafeExecutionId;
  }
}
