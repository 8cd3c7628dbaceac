/**
 The lease commands as steps among concurrent processes: what collecting, applying
 and releasing do is what those steps allow
 (scripts/devnet/upload-execution-lease.mjs, scripts/devnet/upload-execution-command.mjs).
 */
module LeaseSteps {
  import opened ByteStrings
  import opened ChunkRecords
  import opened LeaseCollection
  import opened LeaseDecision
  import opened LeaseReplay
  import opened LeaseRoundTrip
  import opened Outcomes
  import opened UploadPlan
  import opened UploadTrace
  import E = LeaseEvidence
  import P = ConcurrentUploads
  import S = LeaseStore

  /** The chunks whose records are open. */
  ghost function OpenChunks(records: seq<Record>): set<nat> {
    set i: nat | i < |records| && E.Open(records[i])
  }

  /** The command is for the upload whose processes are looked at, and saw their buffer. */
  predicate About(u: P.Upload, c: Contract, view: View, buffer: Bytes) {
    && c.plan == u.chunks && c.local == u.binary
    && view.account.Some? && view.account.value.payload == buffer
  }

  /** What a command with a safe verdict collected is evidence that a process may collect. */
  lemma {:induction false} CollectedIsAStep(
    u: P.Upload, s: P.System, p: P.Pid, file: E.StateFile, lease: E.Lease, c: Contract, view: View, input: E.Input,
    v: Verdict)
    requires About(u, c, view, s.buffer) && Partition(u.chunks, u.binary)
    requires Collected(file, input.executionId, c, view) == Some(input)
    requires Reconciled(input, Some(lease), false, Some(file)) == Ok(v)
    requires P.Alive(s, p) && s.processes[p].stage.Idle?
    ensures P.CanMove(u, s, p, P.Collect(OpenChunks(file.state.chunks)))
  {
    hide *;
    CollectedParts(file, input.executionId, c, view, input);
    AboutParts(u, c, view, s.buffer);
    forall i | i in OpenChunks(file.state.chunks)
      ensures P.MatchesAt(u, s.buffer, i)
    {
      OpenChunk(file.state.chunks, i);
      SafeMeansWritten(file, lease, c, view, input, v, i);
      assert SameChunk(file.state.chunks[i], c.plan[i]);
      WrittenMatches(u, s.buffer, file.state.chunks[i], i);
    }
    MayCollect(u, s, p, OpenChunks(file.state.chunks));
  }

  lemma {:induction false} AboutParts(u: P.Upload, c: Contract, view: View, buffer: Bytes)
    requires About(u, c, view, buffer)
    ensures c.plan == u.chunks && c.local == u.binary
    ensures view.account.Some? && view.account.value.payload == buffer
  {
  }

  lemma {:induction false} OpenChunk(records: seq<Record>, i: nat)
    requires i in OpenChunks(records)
    ensures i < |records| && E.Open(records[i])
  {
  }

  lemma {:induction false} WrittenMatches(u: P.Upload, buffer: Bytes, r: Record, i: nat)
    requires |buffer| == |u.binary| && i < |u.chunks| && SameChunk(r, u.chunks[i]) && Written(r, u.binary, buffer)
    ensures P.MatchesAt(u, buffer, i)
  {
  }

  lemma {:induction false} MayCollect(u: P.Upload, s: P.System, p: P.Pid, matched: set<nat>)
    requires P.Alive(s, p) && s.processes[p].stage.Idle?
    requires forall i :: i in matched ==> P.MatchesAt(u, s.buffer, i)
    ensures P.CanMove(u, s, p, P.Collect(matched))
  {
  }

  /** The records an apply writes are what a process that checked the lease with that evidence may write. */
  lemma {:induction false} AppliedIsAStep(
    u: P.Upload, s: P.System, p: P.Pid, file: E.StateFile, lease: E.Lease, request: S.Request, now: string, disk: S.Disk)
    requires S.ApplyOutcome(file, Some(lease), false, request, now, disk).0.AppliedNow?
    requires P.Alive(s, p) && s.processes[p].stage.Checked?
    requires var stage := s.processes[p].stage;
      && s.disk == stage.state && stage.owner in stage.state.ended
      && stage.state.records == file.state.chunks && stage.evidence.matched == OpenChunks(file.state.chunks)
    ensures var after := S.ApplyOutcome(file, Some(lease), false, request, now, disk).1.state;
      P.CanMove(u, s, p, P.Reread(s.disk.(records := after.chunks)))
  {
    hide *;
    S.ApplyClosesOpenRecords(file, lease, request, now, disk);
    MayReread(u, s, p, file.state.chunks, S.ApplyOutcome(file, Some(lease), false, request, now, disk).1.state.chunks);
  }

  lemma {:induction false} MayReread(u: P.Upload, s: P.System, p: P.Pid, before: seq<Record>, after: seq<Record>)
    requires P.Alive(s, p) && s.processes[p].stage.Checked?
    requires var stage := s.processes[p].stage;
      && s.disk == stage.state && stage.owner in stage.state.ended
      && stage.state.records == before && stage.evidence.matched == OpenChunks(before)
    requires Reconciles(before, after, set i: nat | i < |before| && E.Open(before[i]))
    ensures P.CanMove(u, s, p, P.Reread(s.disk.(records := after)))
  {
    assert OpenChunks(before) == set i: nat | i < |before| && E.Open(before[i]);
    hide Reconciles;
  }

  /** A lease is released from a state from which a process may release it. */
  lemma {:induction false} ReleasedIsAStep(
    u: P.Upload, s: P.System, p: P.Pid, file: E.StateFile, active: Option<S.LeaseDirectory>, archive: S.Archive,
    request: S.Request, renames: bool)
    requires S.ReleaseOutcome(file, active, archive, false, request, renames).0.Released?
    requires P.Alive(s, p) && s.processes[p].stage.Checked? && s.processes[p].stage.state.records == file.state.chunks
    ensures P.CanMove(u, s, p, P.Release)
  {
    hide *;
    S.ReleaseNeedsNothingOpen(file, active, archive, request, renames);
    MayRelease(u, s, p);
  }

  lemma {:induction false} MayRelease(u: P.Upload, s: P.System, p: P.Pid)
    requires P.Alive(s, p) && s.processes[p].stage.Checked?
    requires var records := s.processes[p].stage.state.records;
      forall i :: 0 <= i < |records| ==> !E.Open(records[i])
    ensures P.CanMove(u, s, p, P.Release)
  {
  }
}
