/**
 The order in which chunks get confirmed, over every run of every process: when the
 check at the start of a window accepts whatever the windows, crashes and
 reconciliations before it left (scripts/devnet/upload-validation-snapshot.mjs).
 */
module RecordShapes {
  import opened ByteStrings
  import opened ChunkRecords
  import opened ConcurrentUploads
  import opened Outcomes
  import opened ThrottledUploader
  import opened UploadPlan
  import opened UploadTrace
  import opened ValidationSnapshot
  import C = UploadConvergence

  /** The chunks that the buffer holds come before all that it lacks. */
  ghost predicate MatchesFirst(u: Upload, buffer: Bytes) {
    forall i: nat, j: nat :: i < j && MatchesAt(u, buffer, j) ==> MatchesAt(u, buffer, i)
  }

  // ----- a reconciliation keeps the shape

  lemma {:induction false} ReconciledKeepsShape(before: seq<Record>, after: seq<Record>, matched: set<nat>)
    requires Reconciles(before, after, matched) && WindowShape(before)
    ensures WindowShape(after)
  {
    var k :| ShapeAt(before, k);
    assert ShapeAt(after, k);
  }

  // ----- the invariant

  ghost predicate InShape(u: Upload, records: seq<Record>) {
    && |records| == |u.chunks| && WindowShape(records)
    && forall i :: 0 <= i < |records| ==> SameEvidence(records[i], u.chunks[i])
  }

  /** A planned chunk that the buffer holds is one that it held at first. */
  ghost predicate PlannedUntouched(u: Upload, first: Bytes, buffer: Bytes, records: seq<Record>) {
    forall i :: 0 <= i < |records| && records[i].status == Planned && MatchesAt(u, buffer, i) ==> MatchesAt(u, first, i)
  }

  /** Nothing that was handed over is planned. */
  ghost predicate HandedIsTaken(handed: set<nat>, records: seq<Record>) {
    forall i :: i in handed && i < |records| ==> records[i].status != Planned
  }

  /** A plan made at some time found what the buffer held at first, and of the chunks still planned nothing else. */
  ghost predicate PlanSaw(u: Upload, first: Bytes, records: seq<Record>, matched: set<nat>) {
    && (forall i: nat :: MatchesAt(u, first, i) ==> i in matched)
    && (forall i :: i in matched && i < |records| && records[i].status == Planned ==> MatchesAt(u, first, i))
  }

  predicate HasPlan(stage: Stage) {
    stage.Preflighted? || stage.HashChecked? || stage.DirectoryMade? || stage.LeaseWritten? || stage.Running?
  }

  ghost predicate StageShaped(u: Upload, first: Bytes, s: System, stage: Stage) {
    && (HasPlan(stage) ==> PlanSaw(u, first, s.disk.records, stage.matched))
    && (stage.Applying? || stage.Applied? ==> InShape(u, stage.before.records) && InShape(u, stage.after.records))
  }

  ghost predicate Shaped(u: Upload, first: Bytes, s: System) {
    && Evolves(first, s.buffer, u.binary)
    && InShape(u, s.disk.records)
    && PlannedUntouched(u, first, s.buffer, s.disk.records)
    && HandedIsTaken(s.handed, s.disk.records)
    && forall p :: Alive(s, p) ==> StageShaped(u, first, s, s.processes[p].stage)
  }

  lemma {:induction false} InitialIsShaped(u: Upload, s: System)
    requires Initial(u, s)
    ensures Shaped(u, s.buffer, s)
  {
    var records := s.disk.records;
    assert ShapeAt(records, 0);
  }

  // ----- one step

  /** Fewer planned records than before. */
  ghost predicate FewerPlanned(before: seq<Record>, after: seq<Record>) {
    |after| == |before| && forall i :: 0 <= i < |after| && after[i].status == Planned ==> before[i].status == Planned
  }

  /** What a process did to the state file and its own stage is all there is to look at. */
  lemma {:induction false} MoveShapes(u: Upload, first: Bytes, s: System, t: System, p: Pid)
    requires Shaped(u, first, s) && p in t.processes
    requires t.buffer == s.buffer && t.processes == s.processes[p := t.processes[p]]
    requires InShape(u, t.disk.records) && FewerPlanned(s.disk.records, t.disk.records)
    requires HandedIsTaken(t.handed, t.disk.records)
    requires t.processes[p].alive ==> StageShaped(u, first, t, t.processes[p].stage)
    ensures Shaped(u, first, t)
  {
    hide InShape, WindowShape, Evolves;
    forall q | Alive(t, q)
      ensures StageShaped(u, first, t, t.processes[q].stage)
    {
      if q != p {
        assert Alive(s, q) && StageShaped(u, first, s, s.processes[q].stage);
      }
    }
  }

  lemma {:induction false} SavedInShape(u: Upload, first: Bytes, s: System, p: Pid, i: nat, records: seq<Record>)
    requires Inv(u, s) && Shaped(u, first, s) && MatchesFirst(u, first)
    requires CanMove(u, s, p, Act(Saved(i, records)))
    ensures InShape(u, records) && FewerPlanned(s.disk.records, records)
    ensures s.processes[p].stage.progress.records == s.disk.records && records == s.disk.records[i := records[i]]
  {
    assert ProcessHolds(u, s, p) && StageShaped(u, first, s, s.processes[p].stage);
    hide Inv, ProcessHolds, Evolves, RecordFits, OwnSignature, PlannedUntouched, HandedIsTaken;
    var before, matched := s.disk.records, s.processes[p].stage.matched;
    assert Legal(Progress(before, s.processes[p].stage.progress.armed), Saved(i, records));
    assert Justified(u.chunks, u.binary, s.buffer, matched, before, Saved(i, records));
    if before[i].status == Planned {
      forall k: nat | k < i
        ensures before[k].status == Confirmed
      {
        if records[i].status == Sent {
          assert FrontIs(records, i);
          assert records[k].status == Confirmed;
        } else {
          assert records[i].status == Confirmed;
          assert i in matched && MatchesAt(u, first, i);
          assert MatchesAt(u, first, k);
          assert k in matched;
        }
      }
    }
    if before[i].status != Confirmed {
      ShapeUpdate(before, i, records[i]);
    } else {
      var k :| ShapeAt(before, k);
      assert ShapeAt(records, k);
    }
  }

  lemma {:induction false} SaveShapes(u: Upload, first: Bytes, s: System, p: Pid, i: nat, records: seq<Record>)
    requires Inv(u, s) && Shaped(u, first, s) && MatchesFirst(u, first)
    requires CanMove(u, s, p, Act(Saved(i, records)))
    ensures Shaped(u, first, Moved(u, s, p, Act(Saved(i, records))))
  {
    SavedInShape(u, first, s, p, i, records);
    assert StageShaped(u, first, s, s.processes[p].stage);
    hide Inv, Shaped, InShape, Evolves, Legal, Justified, MatchesFirst;
    var t := Moved(u, s, p, Act(Saved(i, records)));
    assert HandedIsTaken(s.handed, s.disk.records) by {
      ShapedParts(u, first, s);
    }
    MoveShapes(u, first, s, t, p);
  }

  lemma {:induction false} ShapedParts(u: Upload, first: Bytes, s: System)
    requires Shaped(u, first, s)
    ensures Evolves(first, s.buffer, u.binary) && InShape(u, s.disk.records)
    ensures PlannedUntouched(u, first, s.buffer, s.disk.records) && HandedIsTaken(s.handed, s.disk.records)
  {
  }

  lemma {:induction false} StagePart(u: Upload, first: Bytes, s: System, p: Pid)
    requires Shaped(u, first, s) && Alive(s, p)
    ensures StageShaped(u, first, s, s.processes[p].stage)
  {
  }

  lemma {:induction false} HandShapes(u: Upload, first: Bytes, s: System, p: Pid, i: nat, signature: string)
    requires Inv(u, s) && Shaped(u, first, s) && CanMove(u, s, p, Act(Handed(i, signature)))
    ensures Shaped(u, first, Moved(u, s, p, Act(Handed(i, signature))))
  {
    assert ProcessHolds(u, s, p);
    ShapedParts(u, first, s);
    StagePart(u, first, s, p);
    hide Inv, Shaped, InShape, Evolves, Justified;
    MoveShapes(u, first, s, Moved(u, s, p, Act(Handed(i, signature))), p);
  }

  lemma {:induction false} AppliedMoved(u: Upload, s: System, p: Pid, move: Move)
    requires CanMove(u, s, p, move) && (move == SaveApplied || move == Restore) && ProcessHolds(u, s, p)
    ensures var t, stage := Moved(u, s, p, move), s.processes[p].stage;
      && (stage.Applying? || stage.Applied?)
      && (t.disk == stage.before || t.disk == stage.after)
      && FewerPlanned(s.disk.records, t.disk.records)
      && t.buffer == s.buffer && t.handed == s.handed
      && p in t.processes && t.processes == s.processes[p := t.processes[p]]
      && !HasPlan(t.processes[p].stage)
      && (t.processes[p].stage.Applied? ==>
            t.processes[p].stage.before == stage.before && t.processes[p].stage.after == stage.after)
      && !t.processes[p].stage.Applying?
  {
    hide Legal, Justified, Reconciles, PlanFinds, AllMatch, NoneOpen, Backed, ValidRecords;
  }

  /** An apply's write and its rollback: both states are in shape, with the same records planned. */
  lemma {:induction false} OperatorShapes(u: Upload, first: Bytes, s: System, p: Pid, move: Move)
    requires Inv(u, s) && Shaped(u, first, s) && CanMove(u, s, p, move) && (move == SaveApplied || move == Restore)
    ensures Shaped(u, first, Moved(u, s, p, move))
  {
    assert ProcessHolds(u, s, p);
    AppliedMoved(u, s, p, move);
    ShapedParts(u, first, s);
    StagePart(u, first, s, p);
    hide Inv, Shaped, InShape, Evolves, ProcessHolds, PlannedUntouched, CanMove, Moved, PlanSaw;
    MoveShapes(u, first, s, Moved(u, s, p, move), p);
  }

  lemma {:induction false} OutcomeShapes(u: Upload, first: Bytes, s: System, p: Pid)
    requires Inv(u, s) && Shaped(u, first, s) && CanMove(u, s, p, SaveOutcome)
    ensures Shaped(u, first, Moved(u, s, p, SaveOutcome))
  {
    assert ProcessHolds(u, s, p);
    ShapedParts(u, first, s);
    hide Inv, Shaped, InShape, Evolves, PlannedUntouched;
    MoveShapes(u, first, s, Moved(u, s, p, SaveOutcome), p);
  }

  /** Planning: what matches now is what matched at first, or no longer planned. */
  lemma {:induction false} PreflightShapes(u: Upload, first: Bytes, s: System, p: Pid, matched: set<nat>)
    requires Shaped(u, first, s) && CanMove(u, s, p, Preflight(matched))
    ensures Shaped(u, first, Moved(u, s, p, Preflight(matched)))
  {
    ShapedParts(u, first, s);
    forall i: nat | MatchesAt(u, first, i)
      ensures i in matched
    {
      MatchedStaysMatched(first, s.buffer, u.binary, u.chunks[i]);
    }
    hide Shaped, InShape, Evolves, HeldAt;
    MoveShapes(u, first, s, Moved(u, s, p, Preflight(matched)), p);
  }

  lemma {:induction false} RereadShapes(u: Upload, first: Bytes, s: System, p: Pid, after: State)
    requires Inv(u, s) && Shaped(u, first, s) && CanMove(u, s, p, Reread(after))
    ensures Shaped(u, first, Moved(u, s, p, Reread(after)))
  {
    assert ProcessHolds(u, s, p);
    ShapedParts(u, first, s);
    var evidence := s.processes[p].stage.evidence;
    ReconciledKeepsShape(s.disk.records, after.records, evidence.matched);
    hide Inv, Shaped, Evolves, WindowShape, PlannedUntouched, ProcessHolds;
    MoveShapes(u, first, s, Moved(u, s, p, Reread(after)), p);
  }

  /** The moves that change nothing but the mover's stage, and give it no new plan or state to write. */
  predicate KeepsPlans(move: Move) {
    && !move.Act? && !move.Preflight? && !move.Reread?
    && move != SaveOutcome && move != SaveApplied && move != Restore
  }

  ghost predicate PlanIsKept(u: Upload, s: System, p: Pid, move: Move)
    requires CanMove(u, s, p, move)
  {
    var t := Moved(u, s, p, move);
    && t.disk == s.disk && t.buffer == s.buffer && t.handed == s.handed
    && p in t.processes && t.processes == s.processes[p := t.processes[p]]
    && (t.processes[p].alive ==>
          && !t.processes[p].stage.Applying? && !t.processes[p].stage.Applied?
          && (HasPlan(t.processes[p].stage) ==>
                && Alive(s, p) && HasPlan(s.processes[p].stage)
                && t.processes[p].stage.matched == s.processes[p].stage.matched))
  }

  predicate OfOperator(move: Move) {
    || move.Collect? || move == Lock || move == ReadLease || move == ReadState || move == CheckOwner
    || move == CheckOwnerFirst || move == ReadStateAfter || move == Commit || move == Release || move == Fail || move == Unlock
  }

  lemma {:induction false} UploaderPlanKept(u: Upload, s: System, p: Pid, move: Move)
    requires CanMove(u, s, p, move) && KeepsPlans(move) && !OfOperator(move)
    ensures PlanIsKept(u, s, p, move)
  {
    hide AllMatch, NoneOpen;
  }

  lemma {:induction false} OperatorPlanKept(u: Upload, s: System, p: Pid, move: Move)
    requires CanMove(u, s, p, move) && OfOperator(move)
    ensures PlanIsKept(u, s, p, move)
  {
    hide AllMatch, NoneOpen;
  }

  lemma {:induction false} OtherShapes(u: Upload, first: Bytes, s: System, p: Pid, move: Move)
    requires Shaped(u, first, s) && CanMove(u, s, p, move) && KeepsPlans(move)
    ensures Shaped(u, first, Moved(u, s, p, move))
  {
    hide CanMove, Moved;
    if OfOperator(move) {
      OperatorPlanKept(u, s, p, move);
    } else {
      UploaderPlanKept(u, s, p, move);
    }
    ShapedParts(u, first, s);
    if Alive(s, p) {
      StagePart(u, first, s, p);
    }
    hide Shaped, InShape, Evolves, PlannedUntouched, HandedIsTaken, PlanSaw;
    MoveShapes(u, first, s, Moved(u, s, p, move), p);
  }

  /** A landing write touches no planned chunk. */
  lemma {:induction false} LandShapes(u: Upload, first: Bytes, s: System, i: nat)
    requires Inv(u, s) && Shaped(u, first, s) && CanStep(u, s, Land(i))
    ensures Shaped(u, first, Stepped(u, s, Land(i)))
  {
    var t := Stepped(u, s, Land(i));
    WriteEvolves(s.buffer, u.binary, u.chunks[i]);
    EvolvesTransitively(first, s.buffer, t.buffer, u.binary);
    forall k | 0 <= k < |t.disk.records| && t.disk.records[k].status == Planned && MatchesAt(u, t.buffer, k)
      ensures MatchesAt(u, first, k)
    {
      assert k != i;
      WriteElsewhere(u, s.buffer, i, k);
    }
    forall p | Alive(t, p)
      ensures StageShaped(u, first, t, t.processes[p].stage)
    {
      StagePart(u, first, s, p);
    }
  }

  lemma {:induction false} WriteElsewhere(u: Upload, buffer: Bytes, i: nat, k: nat)
    requires Partition(u.chunks, u.binary) && |buffer| == |u.binary|
    requires i < |u.chunks| && k < |u.chunks| && i != k && u.chunks[i].offset + u.chunks[i].length <= |u.binary|
    ensures MatchesAt(u, Write(buffer, u.binary, u.chunks[i]), k) <==> MatchesAt(u, buffer, k)
  {
    var after, c := Write(buffer, u.binary, u.chunks[i]), u.chunks[k];
    if c.offset + c.length <= |u.binary| {
      forall p | c.offset <= p < c.offset + c.length
        ensures after[p] == buffer[p]
      {
        if u.chunks[i].offset <= p < u.chunks[i].offset + u.chunks[i].length {
          if i < k {
            C.RangesApart(u.chunks, u.binary, i, k, p);
          } else {
            C.RangesApart(u.chunks, u.binary, k, i, p);
          }
          assert false;
        }
      }
      assert Slice(after, c) == Slice(buffer, c);
    }
  }

  /** Every step of every process keeps the shape, once the matching chunks came first. */
  lemma {:induction false} StepShapes(u: Upload, first: Bytes, s: System, step: Step)
    requires Inv(u, s) && Shaped(u, first, s) && MatchesFirst(u, first) && CanStep(u, s, step)
    ensures Shaped(u, first, Stepped(u, s, step))
  {
    hide Inv, Shaped, CanMove, Moved, MatchesFirst;
    if step.Land? {
      LandShapes(u, first, s, step.chunk);
    } else if step.move.Act? {
      if step.move.action.Saved? {
        SaveShapes(u, first, s, step.pid, step.move.action.index, step.move.action.records);
      } else {
        HandShapes(u, first, s, step.pid, step.move.action.index, step.move.action.signature);
      }
    } else if step.move == SaveApplied || step.move == Restore {
      OperatorShapes(u, first, s, step.pid, step.move);
    } else if step.move == SaveOutcome {
      OutcomeShapes(u, first, s, step.pid);
    } else if step.move.Preflight? {
      PreflightShapes(u, first, s, step.pid, step.move.matched);
    } else if step.move.Reread? {
      RereadShapes(u, first, s, step.pid, step.move.after);
    } else {
      OtherShapes(u, first, s, step.pid, step.move);
    }
  }

  // ----- every run

  lemma {:induction false} RunShapes(u: Upload, first: Bytes, s: System, steps: seq<Step>)
    requires Inv(u, s) && Shaped(u, first, s) && MatchesFirst(u, first) && Runs(u, s, steps)
    ensures Shaped(u, first, Reached(u, s, steps))
    decreases |steps|
  {
    hide Inv, Shaped, CanStep, Stepped, MatchesFirst;
    if steps != [] {
      StepKeeps(u, s, steps[0]);
      StepShapes(u, first, s, steps[0]);
      RunShapes(u, first, Stepped(u, s, steps[0]), steps[1..]);
    }
  }

  /** The snapshot check of a window that starts in this state. */
  ghost predicate WindowAccepted(u: Upload, s: System) {
    Accepts(u.chunks, s.disk.records, s.buffer, u.binary)
  }

  /** In shape and backed by the buffer is all that the snapshot check asks for. */
  lemma {:induction false} ShapedIsAccepted(u: Upload, first: Bytes, s: System)
    requires Inv(u, s) && Shaped(u, first, s) && u.chunks != []
    ensures WindowShape(s.disk.records) && WindowAccepted(u, s)
  {
    assert Evolves(s.buffer, s.buffer, u.binary);
    NextSnapshotAccepts(s.disk.records, u.chunks, u.binary, s.buffer, s.buffer);
  }

  /**
   When the matching chunks come first, then in every reachable state, in the middle
   of a window, after a crash or after an apply, the file is in shape and the snapshot
   check accepts it; and the plan made from the buffer then has no stray match.
   */
  lemma {:induction false} EveryStateIsAccepted(u: Upload, s: System, steps: seq<Step>, plan: seq<Chunk>, maxPayload: nat)
    requires Initial(u, s) && Runs(u, s, steps) && MatchesFirst(u, s.buffer)
    requires u.chunks != [] && PlanFor(u.chunks, u.binary, s.buffer, maxPayload)
    requires |Reached(u, s, steps).buffer| == |u.binary|
    requires PlanFor(plan, u.binary, Reached(u, s, steps).buffer, maxPayload)
    ensures var t := Reached(u, s, steps);
      && WindowShape(t.disk.records) && WindowAccepted(u, t)
      && Accepts(plan, t.disk.records, t.buffer, u.binary)
      && |plan| == |t.disk.records| && NoStray(t.disk.records, plan)
  {
    var t := Reached(u, s, steps);
    InitialHolds(u, s);
    InitialIsShaped(u, s);
    RunKeeps(u, s, steps);
    RunShapes(u, s.buffer, s, steps);
    hide Inv, Shaped, Runs, Reached, Initial, MatchesFirst, PlanFor, Accepts;
    ShapedIsAccepted(u, s.buffer, t);
    C.CutIsDetermined(u.chunks, plan, u.binary, s.buffer, t.buffer, maxPayload);
    RecutAccepts(u.chunks, plan, t.disk.records, t.buffer, u.binary, maxPayload);
    RecutHasNoStray(u, s.buffer, t, plan, maxPayload);
  }

  lemma {:induction false} RecutAccepts(
      chunks: seq<Chunk>, plan: seq<Chunk>, records: seq<Record>, buffer: Bytes, binary: Bytes, maxPayload: nat)
    requires Accepts(chunks, records, buffer, binary) && PlanFor(plan, binary, buffer, maxPayload)
    requires |plan| == |chunks| && forall i :: 0 <= i < |plan| ==> C.SameCut(chunks[i], plan[i])
    ensures Accepts(plan, records, buffer, binary)
  {
    hide PlanFor, ChunkAt, GapFree;
    C.PlanAt(plan, binary, buffer, maxPayload, 0);
    forall i | 0 <= i < |plan|
      ensures AgreesAt(plan, records, buffer, binary, i)
    {
      assert AgreesAt(chunks, records, buffer, binary, i);
      C.PlanAt(plan, binary, buffer, maxPayload, i);
    }
  }

  lemma {:induction false} RecutHasNoStray(u: Upload, first: Bytes, t: System, plan: seq<Chunk>, maxPayload: nat)
    requires Inv(u, t) && Shaped(u, first, t) && MatchesFirst(u, first)
    requires |plan| == |u.chunks| && forall i :: 0 <= i < |plan| ==> C.SameCut(u.chunks[i], plan[i])
    requires |t.buffer| == |u.binary| && PlanFor(plan, u.binary, t.buffer, maxPayload)
    ensures |plan| == |t.disk.records| && NoStray(t.disk.records, plan)
  {
    ShapedParts(u, first, t);
    var records := t.disk.records;
    hide Inv, Shaped, PlanFor, ChunkAt, Evolves, WindowShape, Matches;
    forall i, j | 0 <= i < j < |records| && records[i].status == records[j].status == Planned && plan[j].exactMatch
      ensures plan[i].exactMatch
    {
      C.PlanAt(plan, u.binary, t.buffer, maxPayload, i);
      C.PlanAt(plan, u.binary, t.buffer, maxPayload, j);
      SameMatch(u, t.buffer, plan, j);
      assert MatchesAt(u, first, j);
      assert MatchesAt(u, first, i);
      StillMatches(u, first, t.buffer, i);
      SameMatch(u, t.buffer, plan, i);
    }
  }

  lemma {:induction false} SameMatch(u: Upload, buffer: Bytes, plan: seq<Chunk>, i: nat)
    requires i < |plan| == |u.chunks| && C.SameCut(u.chunks[i], plan[i]) && |buffer| == |u.binary|
    requires plan[i].offset + plan[i].length <= |u.binary|
    ensures MatchesAt(u, buffer, i) <==> Matches(u.binary, buffer, plan[i])
  {
  }

  lemma {:induction false} StillMatches(u: Upload, first: Bytes, buffer: Bytes, i: nat)
    requires MatchesAt(u, first, i) && Evolves(first, buffer, u.binary)
    ensures MatchesAt(u, buffer, i)
  {
    MatchedStaysMatched(first, buffer, u.binary, u.chunks[i]);
  }

  // ----- only then

  ghost function Matching(u: Upload, buffer: Bytes): set<nat> {
    set i: nat | i < |u.chunks| && MatchesAt(u, buffer, i)
  }

  /** The records once a scan has confirmed the matching ones among the first `n`. */
  ghost function ScannedTo(u: Upload, matched: set<nat>, n: nat): (records: seq<Record>)
    ensures |records| == |u.chunks|
  {
    seq(|u.chunks|, i requires 0 <= i < |u.chunks| =>
      if i < n && i in matched then InitialRecord(u.chunks[i]).(status := Confirmed) else InitialRecord(u.chunks[i]))
  }

  lemma {:induction false} StartRuns(u: Upload, s: System) returns (steps: seq<Step>)
    requires Initial(u, s)
    ensures Runs(u, s, steps)
    ensures var t := Reached(u, s, steps);
      && t.buffer == s.buffer && t.sends == s.sends && t.disk == s.disk
      && Alive(t, 0) && t.processes[0].stage == Running(Progress(t.disk.records, None), Matching(u, s.buffer))
  {
    var matched := Matching(u, s.buffer);
    assert s.processes == map[] && s.lease.None? && PlanFinds(u, s.buffer, matched);
    hide Initial, HeldAt, PlanFinds;
    steps := [];
    steps := One(u, s, steps, Spawn);
    steps := One(u, s, steps, Preflight(matched));
    steps := One(u, s, steps, CheckHash);
    steps := One(u, s, steps, MakeDirectory);
    steps := One(u, s, steps, WriteLease);
    steps := One(u, s, steps, Load);
  }

  /** Process 0 makes one more move. */
  lemma {:induction false} One(u: Upload, s: System, steps: seq<Step>, move: Move) returns (more: seq<Step>)
    requires Runs(u, s, steps) && CanMove(u, Reached(u, s, steps), 0, move)
    ensures Runs(u, s, more) && Reached(u, s, more) == Moved(u, Reached(u, s, steps), 0, move)
  {
    RunThen(u, s, steps, By(0, move));
    more := steps + [By(0, move)];
  }

  /** A process that has planned, taken the lease and scanned the first `n` chunks. */
  ghost predicate ScanReached(u: Upload, first: System, t: System, matched: set<nat>, n: nat) {
    && t.buffer == first.buffer && t.sends == first.sends && t.disk.records == ScannedTo(u, matched, n)
    && Alive(t, 0) && t.processes[0].stage == Running(Progress(t.disk.records, None), matched)
  }

  /** The next matching chunk of the scan may be saved as confirmed. */
  lemma {:induction false} ScanStep(u: Upload, first: System, t: System, matched: set<nat>, n: nat)
    requires Partition(u.chunks, u.binary) && |first.sends| == |u.chunks| && n < |u.chunks| && n in matched
    requires ScanReached(u, first, t, matched, n)
    ensures CanMove(u, t, 0, Act(Saved(n, ScannedTo(u, matched, n + 1))))
    ensures ScanReached(u, first, Moved(u, t, 0, Act(Saved(n, ScannedTo(u, matched, n + 1)))), matched, n + 1)
  {
    var before, after := ScannedTo(u, matched, n), ScannedTo(u, matched, n + 1);
    assert after == before[n := after[n]];
    assert ChunkAt(u.chunks, u.binary, n);
  }

  lemma {:induction false} NothingScannedYet(u: Upload, matched: set<nat>)
    ensures ScannedTo(u, matched, 0) == InitialRecords(u.chunks)
  {
  }

  lemma {:induction false} NotMarked(u: Upload, matched: set<nat>, n: nat)
    requires n !in matched
    ensures ScannedTo(u, matched, n + 1) == ScannedTo(u, matched, n)
  {
  }

  lemma {:induction false} ScanRuns(u: Upload, s: System, n: nat) returns (steps: seq<Step>)
    requires Initial(u, s) && n <= |u.chunks|
    ensures Runs(u, s, steps) && ScanReached(u, s, Reached(u, s, steps), Matching(u, s.buffer), n)
  {
    hide Matching, Runs, Reached, CanMove, Moved, Partition, ScannedTo;
    var matched := Matching(u, s.buffer);
    if n == 0 {
      steps := StartRuns(u, s);
      NothingScannedYet(u, matched);
    } else {
      steps := ScanRuns(u, s, n - 1);
      if n - 1 in matched {
        InitialCounts(u, s);
        hide Initial, ScanReached;
        ScanStep(u, s, Reached(u, s, steps), matched, n - 1);
        steps := One(u, s, steps, Act(Saved(n - 1, ScannedTo(u, matched, n))));
      } else {
        NotMarked(u, matched, n - 1);
      }
    }
  }

  lemma {:induction false} InitialCounts(u: Upload, s: System)
    requires Initial(u, s)
    ensures Partition(u.chunks, u.binary) && |s.sends| == |u.chunks|
  {
  }

  /** Whether the state a run reaches is accepted. */
  ghost predicate AcceptedAfter(u: Upload, s: System, steps: seq<Step>) {
    Runs(u, s, steps) ==> WindowAccepted(u, Reached(u, s, steps))
  }

  /**
   No run, however its processes interleave and crash, reaches a state that the
   snapshot check refuses, exactly when there is something to upload and the buffer's
   matching chunks came first.
   */
  lemma {:induction false} NeverRefused(u: Upload, s: System)
    requires Initial(u, s)
    ensures (forall steps :: AcceptedAfter(u, s, steps)) <==> u.chunks != [] && MatchesFirst(u, s.buffer)
  {
    if u.chunks != [] && MatchesFirst(u, s.buffer) {
      forall steps
        ensures AcceptedAfter(u, s, steps)
      {
        if Runs(u, s, steps) {
          ReachedIsAccepted(u, s, steps);
        }
      }
    } else if u.chunks == [] {
      assert !AcceptedAfter(u, s, []);
    } else {
      var i: nat, j: nat :| i < j && MatchesAt(u, s.buffer, j) && !MatchesAt(u, s.buffer, i);
      var steps := ScanRuns(u, s, j + 1);
      ScanLeavesGap(u, s, Reached(u, s, steps), i, j);
      assert !AcceptedAfter(u, s, steps);
    }
  }

  lemma {:induction false} ReachedIsAccepted(u: Upload, s: System, steps: seq<Step>)
    requires Initial(u, s) && Runs(u, s, steps) && MatchesFirst(u, s.buffer) && u.chunks != []
    ensures WindowShape(Reached(u, s, steps).disk.records) && WindowAccepted(u, Reached(u, s, steps))
  {
    InitialHolds(u, s);
    InitialIsShaped(u, s);
    RunKeeps(u, s, steps);
    RunShapes(u, s.buffer, s, steps);
    ShapedIsAccepted(u, s.buffer, Reached(u, s, steps));
  }

  lemma {:induction false} ScanLeavesGap(u: Upload, s: System, t: System, i: nat, j: nat)
    requires i < j < |u.chunks| && MatchesAt(u, s.buffer, j) && !MatchesAt(u, s.buffer, i)
    requires t.disk.records == ScannedTo(u, Matching(u, s.buffer), j + 1)
    ensures !WindowAccepted(u, t)
  {
    var records := t.disk.records;
    assert j in Matching(u, s.buffer) && i !in Matching(u, s.buffer);
    assert records[i].status == Planned && records[j].status == Confirmed;
  }
}
