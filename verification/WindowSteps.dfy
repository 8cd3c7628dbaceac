/**
 An upload window as steps among concurrent processes: whatever a window saves and
 sends, with the writes that land in between, is a run of one process and the
 network (scripts/devnet/throttled-uploader.mjs).
 */
module WindowSteps {
  import opened ByteStrings
  import opened ChunkRecords
  import opened Outcomes
  import opened ThrottledUploader
  import opened UploadPlan
  import opened UploadTrace
  import opened WindowLog
  import C = UploadConvergence
  import P = ConcurrentUploads

  function StepOf(p: P.Pid, e: Event): P.Step
    requires !e.Heard?
  {
    match e
    case Acted(a) => P.By(p, P.Act(a))
    case Landed(i) => P.Land(i)
  }

  /** What the window hears changes nothing outside it. */
  function StepsOf(p: P.Pid, log: seq<Event>): seq<P.Step> {
    if log == [] then []
    else
      var earlier, last := StepsOf(p, log[..|log| - 1]), log[|log| - 1];
      if last.Heard? then earlier else earlier + [StepOf(p, last)]
  }

  /** The window plans the same upload, from whatever state of the buffer. */
  ghost predicate SameUpload(u: P.Upload, chunks: seq<Chunk>, binary: Bytes) {
    u.binary == binary && |u.chunks| == |chunks| && forall i :: 0 <= i < |chunks| ==> C.SameCut(u.chunks[i], chunks[i])
  }

  /** The process is where the window is: same records, same plan, same buffer, same writes under way. */
  ghost predicate InStep(u: P.Upload, s: P.System, p: P.Pid, chunks: seq<Chunk>, w: World) {
    && P.Alive(s, p) && s.processes[p].stage == P.Running(w.progress, Marked(chunks))
    && s.disk.records == w.progress.records && s.buffer == w.buffer && s.handed == w.handed
    && |s.sends| == |chunks|
  }

  /** Planning is what a process's preflight finds. */
  lemma {:induction false} PlanIsPreflight(u: P.Upload, plan: seq<Chunk>, buffer: Bytes, maxPayload: nat)
    requires |buffer| == |u.binary| && PlanFor(plan, u.binary, buffer, maxPayload) && SameUpload(u, plan, u.binary)
    ensures P.PlanFinds(u, buffer, Marked(plan))
  {
    hide PlanFor;
    forall i: nat
      ensures i in Marked(plan) <==> P.MatchesAt(u, buffer, i)
    {
      C.PlanAt(plan, u.binary, buffer, maxPayload, i);
    }
  }

  lemma {:induction false} EventIsAStep(
    u: P.Upload, s: P.System, p: P.Pid, chunks: seq<Chunk>, binary: Bytes, w: World, e: Event)
    requires SameUpload(u, chunks, binary) && InStep(u, s, p, chunks, w) && Possible(chunks, binary, w, e) && !e.Heard?
    ensures P.CanStep(u, s, StepOf(p, e))
    ensures InStep(u, P.Stepped(u, s, StepOf(p, e)), p, chunks, Next(chunks, binary, w, e))
  {
    hide Legal;
    if e.Acted? {
      JustifiedAlike(u, chunks, binary, w.buffer, w.progress.records, e.action);
    }
  }

  lemma {:induction false} HearingChangesNothing(chunks: seq<Chunk>, binary: Bytes, w: World, e: Event)
    requires e.Heard?
    ensures Next(chunks, binary, w, e) == w
  {
  }

  lemma {:induction false} JustifiedAlike(
    u: P.Upload, chunks: seq<Chunk>, binary: Bytes, buffer: Bytes, before: seq<Record>, a: Action)
    requires SameUpload(u, chunks, binary) && Justified(chunks, binary, buffer, Marked(chunks), before, a)
    ensures Justified(u.chunks, u.binary, buffer, Marked(chunks), before, a)
  {
  }

  lemma {:induction false} LogIsARun(
    u: P.Upload, s: P.System, p: P.Pid, chunks: seq<Chunk>, binary: Bytes, w: World, log: seq<Event>)
    requires SameUpload(u, chunks, binary) && InStep(u, s, p, chunks, w) && PossibleLog(chunks, binary, w, log)
    ensures P.Runs(u, s, StepsOf(p, log))
    ensures InStep(u, P.Reached(u, s, StepsOf(p, log)), p, chunks, Reached(chunks, binary, w, log))
  {
    hide Possible, Next, SameUpload, InStep;
    if log != [] {
      var earlier, last := log[..|log| - 1], log[|log| - 1];
      LogIsARun(u, s, p, chunks, binary, w, earlier);
      if last.Heard? {
        assert Next(chunks, binary, Reached(chunks, binary, w, earlier), last) == Reached(chunks, binary, w, earlier) by {
          HearingChangesNothing(chunks, binary, Reached(chunks, binary, w, earlier), last);
        }
      } else {
        var t := P.Reached(u, s, StepsOf(p, earlier));
        EventIsAStep(u, t, p, chunks, binary, Reached(chunks, binary, w, earlier), last);
        P.RunThen(u, s, StepsOf(p, earlier), StepOf(p, last));
      }
    }
  }

  /** At any moment of a window, what it did is a run, and leads to the window's own state file and buffer. */
  lemma {:induction false} WindowIsARun(u: P.Upload, s: P.System, p: P.Pid, window: UploadWindow)
    requires window.Valid() && SameUpload(u, window.chain.chunks, window.chain.binary)
    requires InStep(u, s, p, window.chain.chunks, window.chain.start)
    ensures P.Runs(u, s, StepsOf(p, window.chain.log))
    ensures var t := P.Reached(u, s, StepsOf(p, window.chain.log));
      && t.disk.records == window.disk && t.buffer == window.chain.buffer && t.handed == window.chain.handed
      && P.Alive(t, p) && t.processes[p].stage.Running? && t.processes[p].stage.progress.records == window.disk
  {
    var chain := window.chain;
    ActionsAreLegal(chain.chunks, chain.binary, chain.start, chain.log);
    LogIsARun(u, s, p, chain.chunks, chain.binary, chain.start, chain.log);
  }
}
