/**
 Any number of uploader and operator processes over one state file, one lease
 directory, one operation lock and one on-chain buffer. Every system call that
 another process could see the effect of is a step of its own, any process may
 crash between any two steps, and a sent write may land at any later step or never
 (scripts/devnet/upload-execution-lease.mjs, scripts/devnet/upload-execution-command.mjs).
 */
module ConcurrentUploads {
  import opened ByteStrings
  import opened ChunkRecords
  import opened Outcomes
  import opened ThrottledUploader
  import opened UploadPlan
  import opened UploadTrace

  /** A process runs one execution, so its number also serves as the execution's ID. */
  type Pid = nat

  /** The binary and its chunks, the same for every process. */
  datatype Upload = Upload(binary: Bytes, chunks: seq<Chunk>)

  /** The state file: the chunk records, and the executions with a terminal outcome. */
  datatype State = State(records: seq<Record>, ended: set<Pid>)

  /** The lease directory, and the process named in its lease.json once that is in place. */
  datatype Lease = Lease(owner: Pid, file: Option<Pid>)

  /** What an operator command collects before it takes the lock. */
  datatype Evidence = Evidence(state: State, matched: set<nat>)

  /** How far a process has come. */
  datatype Stage =
    | Idle
    // an uploader
    | Preflighted(seen: State, matched: set<nat>)
    | HashChecked(matched: set<nat>)
    | DirectoryMade(matched: set<nat>)
    | LeaseWritten(matched: set<nat>)
    | Running(progress: Progress, matched: set<nat>)
    | Ending(complete: bool, copy: State)
    | Ended(complete: bool)
    // an operator command
    | Collected(evidence: Evidence)
    | Locked(evidence: Evidence)
    | LeaseRead(evidence: Evidence, owner: Pid)
    | StateRead(evidence: Evidence, owner: Pid, state: State)
    | OwnerFoundDead(evidence: Evidence, owner: Pid)
    | Checked(evidence: Evidence, owner: Pid, state: State)
    | Applying(owner: Pid, before: State, after: State)
    | Applied(owner: Pid, before: State, after: State)
    | Unlocking
    | Gone

  datatype Process = Process(alive: bool, stage: Stage)

  datatype System = System(
    disk: State,
    lease: Option<Lease>,
    lock: Option<Pid>,
    processes: map<Pid, Process>,
    buffer: Bytes,
    handed: set<nat>,
    sends: seq<nat>)

  datatype Move =
    | Spawn | Crash | Quit
    // an uploader: preflight, acquire, run, append the outcome
    | Preflight(matched: set<nat>) | CheckHash | MakeDirectory | WriteLease | Load
    | Act(action: Action) | ReadForOutcome(complete: bool) | SaveOutcome
    // an operator: collect, lock, reconcile, then apply or release
    | Collect(matched: set<nat>) | Lock | ReadLease | ReadState | CheckOwner
    | CheckOwnerFirst | ReadStateAfter
    | Reread(after: State) | SaveApplied | Commit | Restore | Release | Fail | Unlock

  datatype Step = By(pid: Pid, move: Move) | Land(chunk: nat)

  // ----- observations

  ghost predicate MatchesAt(u: Upload, buffer: Bytes, i: nat) {
    HeldAt(u.chunks, u.binary, buffer, i)
  }

  ghost predicate AllMatch(u: Upload, buffer: Bytes, matched: set<nat>) {
    forall i :: i in matched ==> MatchesAt(u, buffer, i)
  }

  /** What planning finds: exactly the chunks that the buffer holds. */
  ghost predicate PlanFinds(u: Upload, buffer: Bytes, matched: set<nat>) {
    forall i: nat :: i in matched <==> MatchesAt(u, buffer, i)
  }

  predicate Open(r: Record) {
    r.status == Sent || r.status == Unknown
  }

  ghost predicate NoneOpen(records: seq<Record>) {
    forall i :: 0 <= i < |records| ==> !Open(records[i])
  }

  predicate Alive(s: System, p: Pid) {
    p in s.processes && s.processes[p].alive
  }

  // ----- steps

  ghost predicate CanMove(u: Upload, s: System, p: Pid, move: Move) {
    if move == Spawn then p !in s.processes else Alive(s, p) && CanAct(u, s, p, move, s.processes[p].stage)
  }

  /** Which moves a live process can make at its stage. */
  ghost predicate CanAct(u: Upload, s: System, p: Pid, move: Move, stage: Stage) {
    match move
    case Spawn => false
    case Crash => true
    case Quit => !HoldsLock(stage)
    case Preflight(matched) => stage.Idle? && PlanFinds(u, s.buffer, matched)
    case CheckHash => stage.Preflighted? && s.disk == stage.seen
    case MakeDirectory => stage.HashChecked? && s.lease.None?
    case WriteLease => stage.DirectoryMade?
    case Load => stage.LeaseWritten?
    case Act(a) =>
      && stage.Running? && a.index < |s.sends| && Legal(stage.progress, a)
      && Justified(u.chunks, u.binary, s.buffer, stage.matched, stage.progress.records, a)
    case ReadForOutcome(complete) =>
      && stage.Running?
      && (complete ==>
            forall i :: 0 <= i < |stage.progress.records| ==> stage.progress.records[i].status == Confirmed)
    case SaveOutcome => stage.Ending?
    case Collect(matched) => stage.Idle? && AllMatch(u, s.buffer, matched)
    case Lock => stage.Collected? && s.lock.None?
    case ReadLease => stage.Locked? && s.lease.Some? && s.lease.value.file.Some?
    case ReadState => stage.LeaseRead?
    case CheckOwner =>
      && stage.StateRead?
      && !Alive(s, stage.owner) && stage.state == stage.evidence.state && stage.owner in stage.state.ended
    case CheckOwnerFirst => stage.LeaseRead? && !Alive(s, stage.owner)
    case ReadStateAfter => stage.OwnerFoundDead? && s.disk == stage.evidence.state
    case Reread(after) =>
      && stage.Checked? && s.disk == stage.state
      && stage.owner in stage.state.ended && after.ended == stage.state.ended
      && Reconciles(stage.state.records, after.records, stage.evidence.matched)
    case SaveApplied => stage.Applying?
    case Commit => stage.Applied?
    case Restore => stage.Applying? || stage.Applied?
    case Release => stage.Checked? && NoneOpen(stage.state.records)
    case Fail => HoldsLock(stage) && !stage.Applying? && !stage.Applied?
    case Unlock => stage.Unlocking?
  }

  ghost predicate CanStep(u: Upload, s: System, step: Step) {
    match step
    case By(p, move) => CanMove(u, s, p, move)
    case Land(i) => i in s.handed && i < |u.chunks| && u.chunks[i].offset + u.chunks[i].length <= |u.binary| == |s.buffer|
  }

  function At(s: System, p: Pid, stage: Stage): System {
    s.(processes := s.processes[p := Process(true, stage)])
  }

  ghost function Moved(u: Upload, s: System, p: Pid, move: Move): System
    requires CanMove(u, s, p, move)
  {
    if move == Spawn then At(s, p, Idle) else
    var stage := s.processes[p].stage;
    match move
    case Crash => s.(processes := s.processes[p := Process(false, stage)])
    case Quit => At(s, p, if PastAcquisition(stage) then (if stage.Ended? then stage else Ended(false)) else Gone)
    case Preflight(matched) => At(s, p, Preflighted(s.disk, matched))
    case CheckHash => At(s, p, HashChecked(stage.matched))
    case MakeDirectory => At(s, p, DirectoryMade(stage.matched)).(lease := Some(Lease(p, None)))
    case WriteLease => At(s, p, LeaseWritten(stage.matched)).(lease := Some(Lease(p, Some(p))))
    case Load => At(s, p, Running(Progress(s.disk.records, None), stage.matched))
    case Act(a) =>
      var next := At(s, p, Running(After(stage.progress, a), stage.matched));
      (match a
       case Saved(i, records) => next.(disk := s.disk.(records := records))
       case Handed(i, _) => next.(handed := s.handed + {i}, sends := s.sends[i := s.sends[i] + 1]))
    case ReadForOutcome(complete) => At(s, p, Ending(complete, s.disk))
    case SaveOutcome =>
      At(s, p, Ended(stage.complete)).(disk := stage.copy.(ended := stage.copy.ended + {p}))
    case Collect(matched) => At(s, p, Collected(Evidence(s.disk, matched)))
    case Lock => At(s, p, Locked(stage.evidence)).(lock := Some(p))
    case ReadLease => At(s, p, LeaseRead(stage.evidence, s.lease.value.file.value))
    case ReadState => At(s, p, StateRead(stage.evidence, stage.owner, s.disk))
    case CheckOwner => At(s, p, Checked(stage.evidence, stage.owner, stage.state))
    case CheckOwnerFirst => At(s, p, OwnerFoundDead(stage.evidence, stage.owner))
    case ReadStateAfter => At(s, p, Checked(stage.evidence, stage.owner, s.disk))
    case Reread(after) => At(s, p, Applying(stage.owner, stage.state, after))
    case SaveApplied => At(s, p, Applied(stage.owner, stage.before, stage.after)).(disk := stage.after)
    case Commit => At(s, p, Unlocking)
    case Restore => At(s, p, Unlocking).(disk := stage.before)
    case Release => At(s, p, Unlocking).(lease := None)
    case Fail => At(s, p, Unlocking)
    case Unlock => At(s, p, Gone).(lock := None)
  }

  ghost function Stepped(u: Upload, s: System, step: Step): System
    requires CanStep(u, s, step)
  {
    match step
    case By(p, move) => Moved(u, s, p, move)
    case Land(i) => s.(buffer := Write(s.buffer, u.binary, u.chunks[i]))
  }

  /** From the directory's creation on, until the process is dead. */
  predicate PastAcquisition(stage: Stage) {
    stage.DirectoryMade? || stage.LeaseWritten? || stage.Running? || stage.Ending? || stage.Ended?
  }

  predicate HoldsLock(stage: Stage) {
    || stage.Locked? || stage.LeaseRead? || stage.StateRead? || stage.OwnerFoundDead?
    || stage.Checked? || stage.Applying? || stage.Applied? || stage.Unlocking?
  }

  // ----- runs

  /** A fresh plan's records, nothing sent, nobody running. */
  ghost predicate Initial(u: Upload, s: System) {
    && Partition(u.chunks, u.binary) && |s.buffer| == |u.binary|
    && s.disk == State(InitialRecords(u.chunks), {})
    && s.lease.None? && s.lock.None? && s.processes == map[] && s.handed == {}
    && s.sends == seq(|u.chunks|, _ => 0)
  }

  ghost predicate Runs(u: Upload, s: System, steps: seq<Step>)
    decreases |steps|
  {
    steps == [] || (CanStep(u, s, steps[0]) && Runs(u, Stepped(u, s, steps[0]), steps[1..]))
  }

  ghost function Reached(u: Upload, s: System, steps: seq<Step>): System
    requires Runs(u, s, steps)
    decreases |steps|
  {
    if steps == [] then s else Reached(u, Stepped(u, s, steps[0]), steps[1..])
  }

  /** One more step at the end of a run. */
  lemma {:induction false} RunThen(u: Upload, s: System, steps: seq<Step>, step: Step)
    requires Runs(u, s, steps) && CanStep(u, Reached(u, s, steps), step)
    ensures Runs(u, s, steps + [step])
    ensures Reached(u, s, steps + [step]) == Stepped(u, Reached(u, s, steps), step)
    decreases |steps|
  {
    hide CanStep, Stepped;
    if steps == [] {
      assert ([] + [step])[1..] == [];
    } else {
      RunThen(u, Stepped(u, s, steps[0]), steps[1..], step);
      assert (steps + [step])[1..] == steps[1..] + [step];
    }
  }

  // ----- the invariant

  /** A state that apply may replace by another and put back. */
  ghost predicate Replaceable(u: Upload, buffer: Bytes, before: State, after: State) {
    && |before.records| == |after.records| && before.ended == after.ended
    && ValidRecords(before.records) && ValidRecords(after.records)
    && |buffer| == |u.binary|
    && Backed(before.records, u.chunks, u.binary, buffer) && Backed(after.records, u.chunks, u.binary, buffer)
    && forall i :: 0 <= i < |before.records| ==> (before.records[i].status == Planned <==> after.records[i].status == Planned)
  }

  /** What a live process's stage says about the rest of the system. */
  ghost predicate StageHolds(u: Upload, s: System, p: Pid, stage: Stage) {
    && (HoldsLock(stage) ==> s.lock == Some(p))
    && (PastAcquisition(stage) ==> s.lease.Some? && s.lease.value.owner == p)
    && (match stage
        case Idle => p !in s.disk.ended
        case Preflighted(_, matched) => AllMatch(u, s.buffer, matched) && p !in s.disk.ended
        case HashChecked(matched) => AllMatch(u, s.buffer, matched) && p !in s.disk.ended
        case DirectoryMade(matched) =>
          && AllMatch(u, s.buffer, matched) && s.lease.value.file.None? && p !in s.disk.ended
          && NoneOpen(s.disk.records)
        case LeaseWritten(matched) =>
          && AllMatch(u, s.buffer, matched) && s.lease.value.file.Some? && p !in s.disk.ended
          && NoneOpen(s.disk.records)
        case Running(progress, matched) =>
          && AllMatch(u, s.buffer, matched) && s.lease.value.file.Some? && p !in s.disk.ended
          && progress.records == s.disk.records
          && (progress.armed.Some? ==>
                && progress.armed.value < |s.sends| && s.sends[progress.armed.value] == 0
                && progress.armed.value < |s.disk.records|
                && s.disk.records[progress.armed.value].status == Sent)
        case Ending(_, copy) => s.lease.value.file.Some? && p !in s.disk.ended && copy == s.disk
        case Collected(evidence) => AllMatch(u, s.buffer, evidence.matched)
        case Locked(evidence) => AllMatch(u, s.buffer, evidence.matched)
        case LeaseRead(evidence, owner) => AllMatch(u, s.buffer, evidence.matched) && Leased(s, owner)
        case StateRead(evidence, owner, state) =>
          AllMatch(u, s.buffer, evidence.matched) && Leased(s, owner) && (owner in state.ended ==> state == s.disk)
        case OwnerFoundDead(evidence, owner) =>
          AllMatch(u, s.buffer, evidence.matched) && Leased(s, owner) && !Alive(s, owner)
        case Checked(evidence, owner, state) =>
          AllMatch(u, s.buffer, evidence.matched) && Leased(s, owner) && !Alive(s, owner) && state == s.disk
        case Applying(owner, before, after) =>
          Leased(s, owner) && !Alive(s, owner) && s.disk == before && Replaceable(u, s.buffer, before, after)
        case Applied(owner, before, after) =>
          Leased(s, owner) && !Alive(s, owner) && s.disk == after && Replaceable(u, s.buffer, before, after)
        case _ => true)
  }

  /** The lease directory is complete and belongs to `owner`. */
  predicate Leased(s: System, owner: Pid) {
    s.lease == Some(Lease(owner, Some(owner))) && owner in s.processes
  }

  ghost predicate SentOnce(s: System, i: nat)
    requires i < |s.sends| == |s.disk.records|
  {
    s.sends[i] <= 1 && (s.sends[i] == 1 ==> s.disk.records[i].status != Planned)
  }

  ghost predicate ProcessHolds(u: Upload, s: System, p: Pid)
    requires p in s.processes
  {
    && (s.processes[p].alive ==> StageHolds(u, s, p, s.processes[p].stage))
    && (ClaimsComplete(s.processes[p].stage) ==> s.buffer == u.binary)
  }

  predicate ClaimsComplete(stage: Stage) {
    (stage.Ending? || stage.Ended?) && stage.complete
  }

  ghost predicate Inv(u: Upload, s: System) {
    && Partition(u.chunks, u.binary) && |s.buffer| == |u.binary|
    && |s.disk.records| == |u.chunks| == |s.sends|
    && ValidRecords(s.disk.records) && Backed(s.disk.records, u.chunks, u.binary, s.buffer)
    && (forall i :: i in s.handed ==> i < |u.chunks|)
    && (forall i :: 0 <= i < |s.sends| ==> SentOnce(s, i))
    && (s.lease.Some? ==>
          s.lease.value.owner in s.processes &&
          (s.lease.value.file.Some? ==> s.lease.value.file.value == s.lease.value.owner))
    && (s.lease.None? ==> NoneOpen(s.disk.records))
    && (forall p :: p in s.disk.ended ==> p in s.processes)
    && (forall p :: p in s.processes ==> ProcessHolds(u, s, p))
  }

  // ----- every step keeps the invariant

  lemma {:induction false} InitialHolds(u: Upload, s: System)
    requires Initial(u, s)
    ensures Inv(u, s)
  {
    InitialRecordsAreValid(u.chunks, u.binary);
    assert forall i :: 0 <= i < |s.sends| ==> s.sends[i] == 0;
    assert forall i :: 0 <= i < |s.sends| ==> SentOnce(s, i);
  }

  /** Writes that land leave every match in place. */
  lemma {:induction false} LandKeeps(u: Upload, s: System, i: nat)
    requires Inv(u, s) && CanStep(u, s, Land(i))
    ensures Inv(u, Stepped(u, s, Land(i)))
  {
    var t := Stepped(u, s, Land(i));
    WriteEvolves(s.buffer, u.binary, u.chunks[i]);
    StaysBacked(s.disk.records, u.chunks, u.binary, s.buffer, t.buffer);
    forall j | 0 <= j < |t.sends|
      ensures SentOnce(t, j)
    {
      assert SentOnce(s, j);
    }
    forall p | p in t.processes
      ensures ProcessHolds(u, t, p)
    {
      assert ProcessHolds(u, s, p);
      MatchesLast(u, s.buffer, t.buffer, t.processes[p].stage);
      if t.processes[p].alive {
        StageOutlasts(u, s, t, p, t.processes[p].stage);
      }
    }
  }

  /** The evidence a stage carries, all of it monotone in the buffer. */
  lemma {:induction false} MatchesLast(u: Upload, before: Bytes, after: Bytes, stage: Stage)
    requires Evolves(before, after, u.binary)
    ensures forall matched :: AllMatch(u, before, matched) ==> AllMatch(u, after, matched)
    ensures forall a, b :: Replaceable(u, before, a, b) ==> Replaceable(u, after, a, b)
  {
    forall matched, i: nat | AllMatch(u, before, matched) && i in matched
      ensures MatchesAt(u, after, i)
    {
      assert MatchesAt(u, before, i);
      MatchedStaysMatched(before, after, u.binary, u.chunks[i]);
    }
    forall a, b | Replaceable(u, before, a, b)
      ensures Replaceable(u, after, a, b)
    {
      StaysBacked(a.records, u.chunks, u.binary, before, after);
      StaysBacked(b.records, u.chunks, u.binary, before, after);
    }
  }

  lemma {:induction false} StageOutlasts(u: Upload, s: System, t: System, p: Pid, stage: Stage)
    requires StageHolds(u, s, p, stage)
    requires t == s.(buffer := t.buffer)
    requires forall matched :: AllMatch(u, s.buffer, matched) ==> AllMatch(u, t.buffer, matched)
    requires forall a, b :: Replaceable(u, s.buffer, a, b) ==> Replaceable(u, t.buffer, a, b)
    ensures StageHolds(u, t, p, stage)
  {
  }

  /** A move that changes nothing but the mover's own stage. */
  lemma {:induction false} QuietKeeps(u: Upload, s: System, t: System, p: Pid)
    requires Inv(u, s) && p in t.processes
    requires t == s.(processes := s.processes[p := t.processes[p]])
    requires Alive(s, p) || p !in s.processes
    requires ProcessHolds(u, t, p)
    ensures Inv(u, t)
  {
    forall i | 0 <= i < |t.sends|
      ensures SentOnce(t, i)
    {
      assert SentOnce(s, i);
    }
    forall q | q in t.processes
      ensures ProcessHolds(u, t, q)
    {
      if q != p {
        assert ProcessHolds(u, s, q);
      }
    }
  }

  /** Creating the directory or completing it: no other process relied on it yet. */
  lemma {:induction false} LeaseMoveKeeps(u: Upload, s: System, p: Pid, move: Move)
    requires Inv(u, s) && CanMove(u, s, p, move) && (move == MakeDirectory || move == WriteLease)
    ensures Inv(u, Moved(u, s, p, move))
  {
    var t := Moved(u, s, p, move);
    assert ProcessHolds(u, s, p);
    forall i | 0 <= i < |t.sends|
      ensures SentOnce(t, i)
    {
      assert SentOnce(s, i);
    }
    forall q | q in t.processes
      ensures ProcessHolds(u, t, q)
    {
      if q != p {
        assert ProcessHolds(u, s, q);
      }
    }
  }

  lemma {:induction false} LockKeeps(u: Upload, s: System, p: Pid)
    requires Inv(u, s) && CanMove(u, s, p, Lock)
    ensures Inv(u, Moved(u, s, p, Lock))
  {
    var t := Moved(u, s, p, Lock);
    assert ProcessHolds(u, s, p);
    forall i | 0 <= i < |t.sends|
      ensures SentOnce(t, i)
    {
      assert SentOnce(s, i);
    }
    forall q | q in t.processes
      ensures ProcessHolds(u, t, q)
    {
      if q != p {
        assert ProcessHolds(u, s, q);
      }
    }
  }

  lemma {:induction false} UnlockKeeps(u: Upload, s: System, p: Pid)
    requires Inv(u, s) && CanMove(u, s, p, Unlock)
    ensures Inv(u, Moved(u, s, p, Unlock))
  {
    var t := Moved(u, s, p, Unlock);
    assert ProcessHolds(u, s, p);
    forall i | 0 <= i < |t.sends|
      ensures SentOnce(t, i)
    {
      assert SentOnce(s, i);
    }
    forall q | q in t.processes
      ensures ProcessHolds(u, t, q)
    {
      if q != p {
        assert ProcessHolds(u, s, q);
      }
    }
  }

  lemma {:induction false} ReleaseKeeps(u: Upload, s: System, p: Pid)
    requires Inv(u, s) && CanMove(u, s, p, Release)
    ensures Inv(u, Moved(u, s, p, Release))
  {
    var t := Moved(u, s, p, Release);
    assert ProcessHolds(u, s, p);
    forall i | 0 <= i < |t.sends|
      ensures SentOnce(t, i)
    {
      assert SentOnce(s, i);
    }
    forall q | q in t.processes
      ensures ProcessHolds(u, t, q)
    {
      if q != p {
        assert ProcessHolds(u, s, q);
      }
    }
  }

  // ----- writes to the state file

  /** While the lease's owner lives, nobody else relies on what the state file holds. */
  lemma {:induction false} OwnerWriteFrames(u: Upload, s: System, t: System, p: Pid, q: Pid)
    requires Inv(u, s) && Alive(s, p) && PastAcquisition(s.processes[p].stage)
    requires s.processes[p].stage.Running? || s.processes[p].stage.Ending?
    requires q in s.processes && q != p
    requires t == s.(disk := t.disk, sends := t.sends, handed := t.handed, processes := t.processes)
    requires p in t.processes && t.processes == s.processes[p := t.processes[p]] && t.processes[p].alive
    requires t.disk.ended <= s.disk.ended + {p}
    ensures q in t.processes && ProcessHolds(u, t, q)
  {
    assert ProcessHolds(u, s, p) && ProcessHolds(u, s, q);
  }

  lemma {:induction false} OutcomeKeeps(u: Upload, s: System, p: Pid)
    requires Inv(u, s) && CanMove(u, s, p, SaveOutcome)
    ensures Inv(u, Moved(u, s, p, SaveOutcome))
  {
    var t := Moved(u, s, p, SaveOutcome);
    assert ProcessHolds(u, s, p);
    forall i | 0 <= i < |t.sends|
      ensures SentOnce(t, i)
    {
      assert SentOnce(s, i);
    }
    forall q | q in t.processes
      ensures ProcessHolds(u, t, q)
    {
      if q != p {
        OwnerWriteFrames(u, s, t, p, q);
      }
    }
  }

  lemma {:induction false} HandKeeps(u: Upload, s: System, p: Pid, i: nat, signature: string)
    requires Inv(u, s) && CanMove(u, s, p, Act(Handed(i, signature)))
    ensures Inv(u, Moved(u, s, p, Act(Handed(i, signature))))
  {
    var t := Moved(u, s, p, Act(Handed(i, signature)));
    assert ProcessHolds(u, s, p);
    forall j | 0 <= j < |t.sends|
      ensures SentOnce(t, j)
    {
      assert SentOnce(s, j);
    }
    forall q | q in t.processes
      ensures ProcessHolds(u, t, q)
    {
      if q != p {
        OwnerWriteFrames(u, s, t, p, q);
      }
    }
  }

  lemma {:induction false} SaveKeeps(u: Upload, s: System, p: Pid, i: nat, records: seq<Record>)
    requires Inv(u, s) && CanMove(u, s, p, Act(Saved(i, records)))
    ensures Inv(u, Moved(u, s, p, Act(Saved(i, records))))
  {
    var t := Moved(u, s, p, Act(Saved(i, records)));
    assert ProcessHolds(u, s, p);
    var progress := s.processes[p].stage.progress;
    LegalSaveIsValid(progress, i, records);
    assert Rewrites(progress.records[i], records[i]);
    assert SentOnce(s, i);
    forall j | 0 <= j < |t.sends|
      ensures SentOnce(t, j)
    {
      assert SentOnce(s, j);
    }
    forall j | 0 <= j < |records|
      ensures BackedAt(records, u.chunks, u.binary, t.buffer, j)
    {
      assert BackedAt(s.disk.records, u.chunks, u.binary, s.buffer, j);
      assert j == i && records[j].status == Confirmed ==> MatchesAt(u, s.buffer, i);
    }
    forall q | q in t.processes
      ensures ProcessHolds(u, t, q)
    {
      if q != p {
        OwnerWriteFrames(u, s, t, p, q);
      }
    }
  }

  /** An operator writes under the lock, with the lease's owner dead. */
  lemma {:induction false} OperatorWriteKeeps(u: Upload, s: System, p: Pid, move: Move)
    requires Inv(u, s) && CanMove(u, s, p, move) && (move == SaveApplied || move == Restore)
    ensures Inv(u, Moved(u, s, p, move))
  {
    var t := Moved(u, s, p, move);
    assert ProcessHolds(u, s, p);
    forall i | 0 <= i < |t.sends|
      ensures SentOnce(t, i)
    {
      assert SentOnce(s, i);
    }
    forall q | q in t.processes
      ensures ProcessHolds(u, t, q)
    {
      if q != p {
        assert ProcessHolds(u, s, q);
      }
    }
  }

  lemma {:induction false} RereadHolds(u: Upload, s: System, p: Pid, after: State)
    requires Inv(u, s) && CanMove(u, s, p, Reread(after))
    ensures Replaceable(u, s.buffer, s.disk, after)
  {
    assert ProcessHolds(u, s, p);
    var matched := s.processes[p].stage.evidence.matched;
    ReconciledRecordsAreValid(s.disk.records, after.records, matched);
    forall i | 0 <= i < |after.records|
      ensures BackedAt(after.records, u.chunks, u.binary, s.buffer, i)
    {
      assert BackedAt(s.disk.records, u.chunks, u.binary, s.buffer, i);
      assert i in matched ==> MatchesAt(u, s.buffer, i);
    }
  }

  lemma {:induction false} MoveKeeps(u: Upload, s: System, p: Pid, move: Move)
    requires Inv(u, s) && CanMove(u, s, p, move)
    ensures Inv(u, Moved(u, s, p, move))
  {
    hide Inv, Moved, CanMove, QuietlyMoved;
    if move == MakeDirectory || move == WriteLease {
      LeaseMoveKeeps(u, s, p, move);
    } else if move == Lock {
      LockKeeps(u, s, p);
    } else if move == Unlock {
      UnlockKeeps(u, s, p);
    } else if move == Release {
      ReleaseKeeps(u, s, p);
    } else if move.Act? {
      ActKeeps(u, s, p, move.action);
    } else if move == SaveOutcome {
      OutcomeKeeps(u, s, p);
    } else if move == SaveApplied || move == Restore {
      OperatorWriteKeeps(u, s, p, move);
    } else {
      QuietMoveHolds(u, s, p, move);
      QuietlyMovedKeeps(u, s, p, move);
    }
  }

  lemma {:induction false} ActKeeps(u: Upload, s: System, p: Pid, a: Action)
    requires Inv(u, s) && CanMove(u, s, p, Act(a))
    ensures Inv(u, Moved(u, s, p, Act(a)))
  {
    hide Inv, Moved, CanMove;
    if a.Saved? {
      SaveKeeps(u, s, p, a.index, a.records);
    } else {
      HandKeeps(u, s, p, a.index, a.signature);
    }
  }

  lemma {:induction false} QuietMoveHolds(u: Upload, s: System, p: Pid, move: Move)
    requires Inv(u, s) && CanMove(u, s, p, move)
    requires move != MakeDirectory && move != WriteLease && move != Lock && move != Unlock && move != Release
    requires !move.Act? && move != SaveOutcome && move != SaveApplied && move != Restore
    ensures QuietlyMoved(u, s, p, move)
  {
    hide Inv, Moved, CanMove, QuietlyMoved;
    if move == Spawn || move == Crash || move == Quit {
      LifeMoveHolds(u, s, p, move);
    } else if move.Preflight? || move == CheckHash || move == Load || move.ReadForOutcome? {
      UploaderMoveHolds(u, s, p, move);
    } else if move.Collect? || move == ReadLease || move == ReadState || move == CheckOwner {
      OperatorMoveHolds(u, s, p, move);
    } else if move == CheckOwnerFirst || move == ReadStateAfter || move == Fail {
      RecoveryMoveHolds(u, s, p, move);
    } else {
      ApplyMoveHolds(u, s, p, move);
    }
  }

  lemma {:induction false} QuietlyMovedKeeps(u: Upload, s: System, p: Pid, move: Move)
    requires Inv(u, s) && CanMove(u, s, p, move) && QuietlyMoved(u, s, p, move)
    ensures Inv(u, Moved(u, s, p, move))
  {
    hide Inv, Moved, CanMove;
    QuietKeeps(u, s, Moved(u, s, p, move), p);
  }

  /** The mover's new stage holds, for the moves of each kind. */
  ghost predicate QuietlyMoved(u: Upload, s: System, p: Pid, move: Move)
    requires CanMove(u, s, p, move)
  {
    var t := Moved(u, s, p, move);
    && (Alive(s, p) || p !in s.processes)
    && p in t.processes && t == s.(processes := s.processes[p := t.processes[p]])
    && ProcessHolds(u, t, p)
  }

  lemma {:induction false} LifeMoveHolds(u: Upload, s: System, p: Pid, move: Move)
    requires Inv(u, s) && CanMove(u, s, p, move) && (move == Spawn || move == Crash || move == Quit)
    ensures QuietlyMoved(u, s, p, move)
  {
    if move != Spawn {
      assert ProcessHolds(u, s, p);
    }
  }

  lemma {:induction false} UploaderMoveHolds(u: Upload, s: System, p: Pid, move: Move)
    requires Inv(u, s) && CanMove(u, s, p, move)
    requires move.Preflight? || move == CheckHash || move == Load || move.ReadForOutcome?
    ensures QuietlyMoved(u, s, p, move)
  {
    assert ProcessHolds(u, s, p);
    if move.ReadForOutcome? && move.complete {
      CompleteBuffer(s.disk.records, u.chunks, u.binary, s.buffer);
    }
  }

  lemma {:induction false} OperatorMoveHolds(u: Upload, s: System, p: Pid, move: Move)
    requires Inv(u, s) && CanMove(u, s, p, move)
    requires move.Collect? || move == ReadLease || move == ReadState || move == CheckOwner
    ensures QuietlyMoved(u, s, p, move)
  {
    assert ProcessHolds(u, s, p);
  }

  lemma {:induction false} RecoveryMoveHolds(u: Upload, s: System, p: Pid, move: Move)
    requires Inv(u, s) && CanMove(u, s, p, move)
    requires move == CheckOwnerFirst || move == ReadStateAfter || move == Fail
    ensures QuietlyMoved(u, s, p, move)
  {
    assert ProcessHolds(u, s, p);
  }

  lemma {:induction false} ApplyMoveHolds(u: Upload, s: System, p: Pid, move: Move)
    requires Inv(u, s) && CanMove(u, s, p, move) && (move.Reread? || move == Commit)
    ensures QuietlyMoved(u, s, p, move)
  {
    assert ProcessHolds(u, s, p);
    if move.Reread? {
      RereadHolds(u, s, p, move.after);
    }
  }

  lemma {:induction false} StepKeeps(u: Upload, s: System, step: Step)
    requires Inv(u, s) && CanStep(u, s, step)
    ensures Inv(u, Stepped(u, s, step))
  {
    hide Inv, CanMove, Moved;
    if step.By? {
      MoveKeeps(u, s, step.pid, step.move);
    } else {
      LandKeeps(u, s, step.chunk);
    }
  }

  /** The invariant holds at the end of every run. */
  lemma {:induction false} RunKeeps(u: Upload, s: System, steps: seq<Step>)
    requires Inv(u, s) && Runs(u, s, steps)
    ensures Inv(u, Reached(u, s, steps))
    decreases |steps|
  {
    hide Inv, CanStep, Stepped;
    if steps != [] {
      StepKeeps(u, s, steps[0]);
      RunKeeps(u, Stepped(u, s, steps[0]), steps[1..]);
    }
  }

  // ----- what holds in every run

  /** However the processes interleave and crash, at most one live process is past lease acquisition. */
  lemma {:induction false} MutualExclusion(u: Upload, s: System, steps: seq<Step>, p: Pid, q: Pid)
    requires Initial(u, s) && Runs(u, s, steps)
    requires var t := Reached(u, s, steps);
      && Alive(t, p) && PastAcquisition(t.processes[p].stage)
      && Alive(t, q) && PastAcquisition(t.processes[q].stage)
    ensures p == q
  {
    InitialHolds(u, s);
    RunKeeps(u, s, steps);
    var t := Reached(u, s, steps);
    assert ProcessHolds(u, t, p) && ProcessHolds(u, t, q);
  }

  /** How often a run hands chunk `i` to the network, by whichever process. */
  function TimesHanded(steps: seq<Step>, i: nat): nat {
    if steps == [] then 0
    else (if steps[0].By? && steps[0].move.Act? && steps[0].move.action.Handed? && steps[0].move.action.index == i
          then 1 else 0) + TimesHanded(steps[1..], i)
  }

  lemma {:induction false} HandedStep(u: Upload, s: System, step: Step, i: nat)
    requires Inv(u, s) && CanStep(u, s, step) && i < |s.sends|
    ensures |Stepped(u, s, step).sends| == |s.sends|
    ensures Stepped(u, s, step).sends[i] == s.sends[i] + TimesHanded([step], i)
  {
    assert [step][1..] == [];
    if step.By? {
      SendsMoved(u, s, step.pid, step.move, i);
    }
  }

  lemma {:induction false} SendsMoved(u: Upload, s: System, p: Pid, move: Move, i: nat)
    requires CanMove(u, s, p, move) && i < |s.sends|
    ensures |Moved(u, s, p, move).sends| == |s.sends|
    ensures Moved(u, s, p, move).sends[i]
         == s.sends[i] + if move.Act? && move.action.Handed? && move.action.index == i then 1 else 0
  {
  }

  lemma {:induction false} SendsCounted(u: Upload, s: System, steps: seq<Step>, i: nat)
    requires Inv(u, s) && Runs(u, s, steps) && i < |s.sends|
    ensures |Reached(u, s, steps).sends| == |s.sends|
    ensures Reached(u, s, steps).sends[i] == s.sends[i] + TimesHanded(steps, i)
    decreases |steps|
  {
    hide Inv, CanStep, Stepped;
    if steps != [] {
      HandedStep(u, s, steps[0], i);
      assert [steps[0]][1..] == [];
      StepKeeps(u, s, steps[0]);
      SendsCounted(u, Stepped(u, s, steps[0]), steps[1..], i);
    }
  }

  /** Over any run, each chunk is handed to the network at most once, and only with its SENT record on disk. */
  lemma {:induction false} HandedAtMostOnce(u: Upload, s: System, steps: seq<Step>, i: nat)
    requires Initial(u, s) && Runs(u, s, steps) && i < |u.chunks|
    ensures TimesHanded(steps, i) <= 1
    ensures var t := Reached(u, s, steps);
      && i < |t.disk.records|
      && (TimesHanded(steps, i) == 1 ==> t.disk.records[i].status != Planned)
  {
    InitialHolds(u, s);
    RunKeeps(u, s, steps);
    SendsCounted(u, s, steps, i);
    assert SentOnce(Reached(u, s, steps), i);
  }

  /** In every reachable state the file is valid and each CONFIRMED chunk's range of the buffer is the binary's. */
  lemma {:induction false} ConfirmedIsWritten(u: Upload, s: System, steps: seq<Step>)
    requires Initial(u, s) && Runs(u, s, steps)
    ensures var t := Reached(u, s, steps);
      && |t.buffer| == |u.binary| && |t.disk.records| == |u.chunks|
      && ValidRecords(t.disk.records)
      && Backed(t.disk.records, u.chunks, u.binary, t.buffer)
  {
    InitialHolds(u, s);
    RunKeeps(u, s, steps);
  }

  /** Once a window is about to report COMPLETE, the buffer is the binary, then and ever after. */
  lemma {:induction false} CompleteIsWritten(u: Upload, s: System, steps: seq<Step>, p: Pid)
    requires Initial(u, s) && Runs(u, s, steps)
    requires p in Reached(u, s, steps).processes && ClaimsComplete(Reached(u, s, steps).processes[p].stage)
    ensures Reached(u, s, steps).buffer == u.binary
  {
    InitialHolds(u, s);
    RunKeeps(u, s, steps);
    assert ProcessHolds(u, Reached(u, s, steps), p);
  }

  /** A lease is only given up with nothing left open: every window starts on records none of which is SENT or UNKNOWN. */
  lemma {:induction false} WindowsStartSettled(u: Upload, s: System, steps: seq<Step>, p: Pid)
    requires Initial(u, s) && Runs(u, s, steps)
    requires Alive(Reached(u, s, steps), p) && Reached(u, s, steps).processes[p].stage.LeaseWritten?
    ensures NoneOpen(Reached(u, s, steps).disk.records)
  {
    InitialHolds(u, s);
    RunKeeps(u, s, steps);
    assert ProcessHolds(u, Reached(u, s, steps), p);
  }

  /** No step, a rollback included, takes a record back to PLANNED. */
  lemma {:induction false} NothingReturnsToPlanned(u: Upload, s: System, step: Step, i: nat)
    requires Inv(u, s) && CanStep(u, s, step) && i < |s.disk.records|
    ensures |Stepped(u, s, step).disk.records| == |s.disk.records|
    ensures s.disk.records[i].status != Planned ==> Stepped(u, s, step).disk.records[i].status != Planned
  {
    if step.By? && step.move != Spawn {
      assert ProcessHolds(u, s, step.pid);
      PlannedMoved(u, s, step.pid, step.move, i);
    }
  }

  lemma {:induction false} PlannedMoved(u: Upload, s: System, p: Pid, move: Move, i: nat)
    requires CanMove(u, s, p, move) && move != Spawn && ProcessHolds(u, s, p) && i < |s.disk.records|
    ensures |Moved(u, s, p, move).disk.records| == |s.disk.records|
    ensures s.disk.records[i].status != Planned ==> Moved(u, s, p, move).disk.records[i].status != Planned
  {
    if move.Act? && move.action.Saved? {
      assert Legal(s.processes[p].stage.progress, move.action);
    }
  }

  /** So a chunk that was ever SENT is never PLANNED again, over any number of steps. */
  lemma {:induction false} SentIsForGood(u: Upload, s: System, steps: seq<Step>, i: nat)
    requires Inv(u, s) && Runs(u, s, steps) && i < |s.disk.records|
    ensures |Reached(u, s, steps).disk.records| == |s.disk.records|
    ensures s.disk.records[i].status != Planned ==> Reached(u, s, steps).disk.records[i].status != Planned
    decreases |steps|
  {
    hide Inv, CanStep, Stepped;
    if steps != [] {
      NothingReturnsToPlanned(u, s, steps[0], i);
      StepKeeps(u, s, steps[0]);
      SentIsForGood(u, Stepped(u, s, steps[0]), steps[1..], i);
    }
  }
}
