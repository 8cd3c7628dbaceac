/**
 The single-flight request scheduler: one queue, one active request, and between
 any two of its awaited steps anything else may happen. A step takes the clock
 readings it makes as parameters (scripts/devnet/rpc-request-scheduler.mjs).
 */
module RpcScheduler {
  import opened Outcomes
  import opened SchedulerLog

  /** Where the active request stands; the number is the attempt. */
  datatype Phase =
    | Checking(n: nat)
    | Guarding(n: nat)
    | Gated(n: nat)
    | Ready(n: nat)
    | InFlight(n: nat, observerFailed: bool)
    | BackingOff(n: nat)

  datatype Active = Active(request: Request, phase: Phase)

  datatype State = State(
    queue: seq<Request>, active: Option<Active>, closed: bool, aborted: bool,
    lastStart: Option<int>, lastCompletion: Option<int>, lastRead: Option<int>, waiters: seq<nat>,
    accepted: nat, log: seq<Event>)

  /** Why the ledger does not let an attempt begin, if it does not: its metadata, or a subscriber that throws. */
  datatype Refusal = Admitted | BadMetadata | SubscriberFails

  const INITIAL: State := State([], None, false, false, None, None, None, [], 0, [])

  datatype Step =
    | Schedule(retriable: bool, guarded: bool, notBefore: Option<int>, deadline: Option<int>, cleanup: nat)
    | Check
    | GuardReturns(allows: bool)
    | ReadGate(now: int)
    | StartAttempt(now: int, refusal: Refusal, start: int, again: int, observerThrows: bool)
    | CompleteAttempt(ending: Ending, now: int, again: int)
    | ReadBackoff(now: int)
    | CoolOff(now: int)
    | Abort(waiter: nat)
    | Close(waiter: nat)

  // ----- the pieces

  function Logged(s: State, e: Event): State {
    s.(log := s.log + [e])
  }

  /** A reading below the last one is a regression, and is not remembered. */
  predicate Regresses(s: State, now: int) {
    s.lastRead.Some? && now < s.lastRead.value
  }

  function Idle(s: State): bool {
    s.active.None? && s.queue == []
  }

  function WokenAll(log: seq<Event>, waiters: seq<nat>): seq<Event>
    decreases |waiters|
  {
    if waiters == [] then log else WokenAll(log + [Woken(waiters[0])], waiters[1..])
  }

  function WakeWhenIdle(s: State): State {
    if Idle(s) then s.(waiters := [], log := WokenAll(s.log, s.waiters)) else s
  }

  /** Takes the next request, if nothing is active. */
  function Pump(s: State): State {
    if s.active.Some? || s.queue == [] || s.aborted then WakeWhenIdle(s)
    else s.(queue := s.queue[1..], active := Some(Active(s.queue[0], Checking(0))))
  }

  /** The active request's promise settles, and the next request is taken. */
  function Settle(s: State, resolved: bool): State
    requires s.active.Some?
  {
    var settled := Logged(s.(active := None), Settled(s.active.value.request.id, resolved));
    if !settled.aborted && settled.queue != [] then Pump(settled) else WakeWhenIdle(settled)
  }

  /** The active request's next attempt is given up before it begins. */
  function GivenUp(s: State, attempt: nat, reason: Reason): State
    requires s.active.Some?
  {
    Logged(s, Refused(s.active.value.request.id, attempt, reason))
  }

  /** The clock ran backwards, and the active request is rejected for it. */
  function Unreadable(s: State, attempt: nat, now: int): State
    requires s.active.Some? && Regresses(s, now)
  {
    Settle(GivenUp(s, attempt, ClockBackwards(now, s.lastRead.value)), false)
  }

  function InPhase(s: State, phase: Phase): State
    requires s.active.Some?
  {
    s.(active := Some(s.active.value.(phase := phase)))
  }

  function RejectAll(log: seq<Event>, queue: seq<Request>): seq<Event>
    decreases |queue|
  {
    if queue == [] then log else RejectAll(log + [Settled(queue[0].id, false)], queue[1..])
  }

  function MarkAborted(s: State): State {
    if s.aborted then s
    else WakeWhenIdle(
      s.(aborted := true, closed := true, queue := [], log := RejectAll(s.log + [Aborted], s.queue)))
  }

  function WaitUntilIdle(s: State, waiter: nat): State {
    if Idle(s) then Logged(s, Woken(waiter)) else s.(waiters := s.waiters + [waiter])
  }

  /** The earliest moment of the next start, if there is any bound on it. */
  function Earliest(p: Policy, s: State): Option<int>
    requires s.active.Some? && s.active.value.phase.Gated?
  {
    var notBefore := if s.active.value.phase.n == 0 then s.active.value.request.notBefore else None;
    if s.lastStart.None? then notBefore
    else if notBefore.None? || notBefore.value < s.lastStart.value + p.startGap then Some(s.lastStart.value + p.startGap)
    else notBefore
  }

  // ----- the steps

  predicate CanStep(p: Policy, s: State, step: Step) {
    match step
    case Schedule(_, _, _, _, _) => true
    case Check => s.active.Some? && s.active.value.phase.Checking?
    case GuardReturns(_) => s.active.Some? && s.active.value.phase.Guarding?
    case ReadGate(_) => s.active.Some? && s.active.value.phase.Gated?
    case StartAttempt(_, _, _, _, _) => s.active.Some? && s.active.value.phase.Ready?
    case CompleteAttempt(_, _, _) => s.active.Some? && s.active.value.phase.InFlight?
    case ReadBackoff(_) => s.active.Some? && s.active.value.phase.BackingOff? && s.lastCompletion.Some?
    case CoolOff(_) => s.lastCompletion.Some?
    case Abort(_) => true
    case Close(_) => true
  }

  function Scheduled(p: Policy, s: State, r: Request): State {
    if s.closed || s.aborted || |s.queue| >= p.queueCapacity then s
    else Pump(Logged(s.(queue := s.queue + [r.(id := s.accepted)], accepted := s.accepted + 1),
      Accepted(r.(id := s.accepted))))
  }

  function Checked(s: State): State
    requires s.active.Some? && s.active.value.phase.Checking?
  {
    var item := s.active.value;
    if s.aborted then Settle(s, false)
    else if item.request.guarded then InPhase(s, Guarding(item.phase.n))
    else InPhase(s, Gated(item.phase.n))
  }

  function GuardReturned(s: State, allows: bool): State
    requires s.active.Some? && s.active.value.phase.Guarding?
  {
    var n := s.active.value.phase.n;
    var answered := Logged(s, Guarded(s.active.value.request.id, n, allows));
    if allows then InPhase(answered, Gated(n)) else Settle(answered, false)
  }

  function GateRead(p: Policy, s: State, now: int): State
    requires s.active.Some? && s.active.value.phase.Gated?
  {
    var earliest := Earliest(p, s);
    if earliest.Some? && s.aborted then Settle(s, false)
    else if Regresses(s, now) then Unreadable(s, s.active.value.phase.n, now)
    else
      var read := s.(lastRead := Some(now));
      if earliest.None? || now >= earliest.value then InPhase(read, Ready(s.active.value.phase.n)) else read
  }

  /** The attempt did not begin: the clock is read for the error path, and a reading counts as a completion. */
  function NotBegun(s: State, again: int): State
    requires s.active.Some?
  {
    Settle(if Regresses(s, again) then s else s.(lastRead := Some(again), lastCompletion := Some(again)), false)
  }

  /** The abort check, the deadline check and the start of the attempt happen in one go. */
  function Started(
      p: Policy, s: State, now: int, refusal: Refusal, start: int, again: int, observerThrows: bool): State
    requires s.active.Some? && s.active.value.phase.Ready?
  {
    var r, n := s.active.value.request, s.active.value.phase.n;
    if s.aborted then Settle(s, false)
    else if Regresses(s, now) then Unreadable(s, n, now)
    else
      var read := s.(lastRead := Some(now));
      if r.deadline.Some? && now + p.timeout + r.cleanup > r.deadline.value then
        Settle(GivenUp(read, n, NoRoom(now)), false)
      else if refusal.BadMetadata? then NotBegun(GivenUp(read, n, NotAdmitted), again)
      else if start < now then NotBegun(GivenUp(read, n, ClockBackwards(start, now)), again)
      else if refusal.SubscriberFails? then NotBegun(GivenUp(read.(lastRead := Some(start)), n, NotAdmitted), again)
      else
        InPhase(
          Logged(read.(lastRead := Some(start), lastStart := Some(start)), Began(r.id, n, now, start, !observerThrows)),
          InFlight(n, observerThrows))
  }

  function Completed(s: State, ending: Ending, now: int, again: int): State
    requires s.active.Some? && s.active.value.phase.InFlight?
  {
    var r, n, observerFailed := s.active.value.request, s.active.value.phase.n, s.active.value.phase.observerFailed;
    // Reading the clock fails: after a success it is read once more by the error path.
    if Regresses(s, now) then
      var recovered := ending == Success && !Regresses(s, again);
      var ended := Logged(s, Ended(r.id, n, if recovered then Some(again) else None, ending, true));
      var read := if recovered then ended.(lastRead := Some(again), lastCompletion := Some(again)) else ended;
      Settle(if observerFailed && recovered then MarkAborted(read) else read, false)
    else
      var ended := Logged(s.(lastRead := Some(now), lastCompletion := Some(now)), Ended(r.id, n, Some(now), ending, false));
      if observerFailed then Settle(MarkAborted(ended), false)
      else if ending == Success then Settle(ended, true)
      else if !r.retriable || !Temporary(ending) || n >= 2 || s.aborted then Settle(ended, false)
      else InPhase(ended, BackingOff(n))
  }

  function BackoffRead(p: Policy, s: State, now: int): State
    requires s.active.Some? && s.active.value.phase.BackingOff? && s.lastCompletion.Some?
  {
    var n := s.active.value.phase.n;
    if s.aborted then Settle(s, false)
    else if Regresses(s, now) then Unreadable(s, n + 1, now)
    else
      var read := s.(lastRead := Some(now));
      if now >= s.lastCompletion.value + BackoffAfter(p, n) then InPhase(read, Checking(n + 1)) else read
  }

  function Stepped(p: Policy, s: State, step: Step): State
    requires CanStep(p, s, step)
  {
    match step
    case Schedule(retriable, guarded, notBefore, deadline, cleanup) =>
      Scheduled(p, s, Request(0, retriable, guarded, notBefore, deadline, cleanup))
    case Check => Checked(s)
    case GuardReturns(allows) => GuardReturned(s, allows)
    case ReadGate(now) => GateRead(p, s, now)
    case StartAttempt(now, refusal, start, again, observerThrows) =>
      Started(p, s, now, refusal, start, again, observerThrows)
    case CompleteAttempt(ending, now, again) => Completed(s, ending, now, again)
    case ReadBackoff(now) => BackoffRead(p, s, now)
    case CoolOff(now) => if s.aborted || Regresses(s, now) then s else s.(lastRead := Some(now))
    case Abort(waiter) => WaitUntilIdle(MarkAborted(s), waiter)
    case Close(waiter) => WaitUntilIdle(s.(closed := true), waiter)
  }

  ghost predicate Runs(p: Policy, s: State, steps: seq<Step>)
    decreases |steps|
  {
    steps == [] || (CanStep(p, s, steps[0]) && Runs(p, Stepped(p, s, steps[0]), steps[1..]))
  }

  ghost function Reached(p: Policy, s: State, steps: seq<Step>): State
    requires Runs(p, s, steps)
    decreases |steps|
  {
    if steps == [] then s else Reached(p, Stepped(p, s, steps[0]), steps[1..])
  }

  // ----- the invariant

  /** Everything before this request was taken from the queue. */
  function Taken(s: State): int {
    s.accepted - |s.queue|
  }

  /** The books: the log is lawful, and the fields say what the log says. */
  ghost predicate Books(p: Policy, s: State) {
    var h := Summarized(s.log);
    && Lawful(p, s.log)
    && |h.requests| == s.accepted && |s.queue| <= s.accepted
    && (forall i :: 0 <= i < |h.requests| ==> h.requests[i].id == i)
    && (forall i :: 0 <= i < |s.queue| ==> s.queue[i] == h.requests[Taken(s) + i])
    && (h.aborted <==> s.aborted) && (s.aborted ==> s.closed && s.queue == [])
    && (s.active.Some? ==>
          s.active.value.request.id < Taken(s) && s.active.value.request == h.requests[s.active.value.request.id])
    && (forall id: nat :: id in h.settled <==> id < Taken(s) && !IsActive(s, id))
    && (h.started.Some? <==> s.lastStart.Some?)
    && (s.lastStart.Some? ==>
          h.started.value.at == s.lastStart.value && h.started.value.id < Taken(s)
          && s.lastRead.Some? && s.lastStart.value <= s.lastRead.value)
  }

  predicate IsActive(s: State, id: nat) {
    s.active.Some? && s.active.value.request.id == id
  }

  /** Attempt `n` of the request may start as far as the request's own past goes. */
  predicate MayAttempt(p: Policy, h: Summary, r: Request, n: nat, lastRead: Option<int>) {
    && n <= 2
    && if n == 0 then h.started.Some? ==> h.started.value.id < r.id
       else
         && r.retriable
         && h.started.Some? && h.started.value.id == r.id && h.started.value.attempt == n - 1
         && FailedTemporarily(h, r.id, n - 1) && lastRead.Some?
         && h.finished.value.at.value + BackoffAfter(p, n - 1) <= lastRead.value
  }

  predicate FailedTemporarily(h: Summary, id: nat, n: nat) {
    && h.finished.Some? && h.finished.value.id == id && h.finished.value.attempt == n
    && Temporary(h.finished.value.ending) && h.finished.value.at.Some?
  }

  /** A guarded request's attempt was allowed. */
  predicate Allowed(h: Summary, r: Request, n: nat) {
    r.guarded ==> h.allowed == Some((r.id, n))
  }

  predicate PhaseHolds(p: Policy, s: State, h: Summary, item: Active) {
    var r, n := item.request, item.phase.n;
    match item.phase
    case Checking(_) => !h.open && MayAttempt(p, h, r, n, s.lastRead)
    case Guarding(_) => !h.open && MayAttempt(p, h, r, n, s.lastRead) && r.guarded
    case Gated(_) => !h.open && MayAttempt(p, h, r, n, s.lastRead) && Allowed(h, r, n)
    case Ready(_) =>
      && !h.open && MayAttempt(p, h, r, n, s.lastRead) && Allowed(h, r, n) && s.lastRead.Some?
      && (s.lastStart.Some? ==> s.lastStart.value + p.startGap <= s.lastRead.value)
      && (n == 0 && r.notBefore.Some? ==> r.notBefore.value <= s.lastRead.value)
    case InFlight(_, observerFailed) =>
      && h.open && n <= 2 && (n > 0 ==> r.retriable) && h.observed == !observerFailed
      && h.started.Some? && h.started.value.id == r.id && h.started.value.attempt == n
    case BackingOff(_) =>
      && !h.open && n <= 1 && r.retriable
      && h.started.Some? && h.started.value.id == r.id && h.started.value.attempt == n
      && FailedTemporarily(h, r.id, n) && s.lastCompletion == h.finished.value.at
  }

  /** A waiting request has an active one before it, and nobody waits for an idle scheduler. */
  predicate NoLostWakeUp(s: State) {
    && (s.queue != [] ==> s.active.Some?)
    && (Idle(s) ==> s.waiters == [])
  }

  ghost predicate Inv(p: Policy, s: State) {
    && Books(p, s)
    && NoLostWakeUp(s)
    && Summarized(s.log).due == Nothing
    && (s.active.None? ==> !Summarized(s.log).open)
    && (s.active.Some? ==> PhaseHolds(p, s, Summarized(s.log), s.active.value))
  }

  // ----- every step keeps it

  lemma {:induction false} WokenAllLawful(p: Policy, log: seq<Event>, waiters: seq<nat>)
    requires Lawful(p, log) && Fits(p, Summarized(log), Woken(0))
    ensures Lawful(p, WokenAll(log, waiters)) && Summarized(WokenAll(log, waiters)) == Summarized(log)
    decreases |waiters|
  {
    if waiters != [] {
      Append(p, log, Woken(waiters[0]));
      WokenAllLawful(p, log + [Woken(waiters[0])], waiters[1..]);
    }
  }

  /** The queue holds consecutive requests, none of which has settled. */
  ghost predicate Consecutive(queue: seq<Request>, first: nat, settled: set<nat>) {
    forall i :: 0 <= i < |queue| ==> queue[i].id == first + i && first + i !in settled
  }

  lemma {:induction false} TailConsecutive(queue: seq<Request>, first: nat, settled: set<nat>)
    requires queue != [] && Consecutive(queue, first, settled)
    ensures queue[0].id == first && first !in settled && Consecutive(queue[1..], first + 1, settled + {first})
  {
    assert queue[0].id == first + 0;
    var rest := queue[1..];
    forall i | 0 <= i < |rest|
      ensures rest[i].id == first + 1 + i && first + 1 + i !in settled + {first}
    {
      assert rest[i] == queue[i + 1];
      assert queue[i + 1].id == first + (i + 1);
    }
  }

  /** What is due concerns one of the requests in the range, or it is a promise to resolve or an abort. */
  predicate NamesDue(due: Due, first: nat, end: nat) {
    due.Resolve? || due.AbortFirst? || (due.Reject? && first <= due.request < end)
  }

  /** Rejecting the queue settles exactly the requests in it. */
  lemma {:induction false} RejectAllLawful(p: Policy, log: seq<Event>, queue: seq<Request>, first: nat)
    requires Lawful(p, log) && first + |queue| <= |Summarized(log).requests|
    requires Summarized(log).aborted && !NamesDue(Summarized(log).due, first, first + |queue|)
    requires Consecutive(queue, first, Summarized(log).settled)
    requires Summarized(log).started.Some? ==> Summarized(log).started.value.id < first
    ensures Lawful(p, RejectAll(log, queue))
    ensures Summarized(RejectAll(log, queue)) ==
      Summarized(log).(settled := Summarized(RejectAll(log, queue)).settled)
    ensures forall id: nat ::
      id in Summarized(RejectAll(log, queue)).settled <==>
        id in Summarized(log).settled || first <= id < first + |queue|
    decreases |queue|
  {
    if queue != [] {
      var e := Settled(queue[0].id, false);
      TailConsecutive(queue, first, Summarized(log).settled);
      hide Lawful, Summarized, Consecutive;
      Append(p, log, e);
      assert Summarized(log + [e]) == Summarized(log).(settled := Summarized(log).settled + {first});
      RejectAllLawful(p, log + [e], queue[1..], first + 1);
    }
  }

  /** Waking whoever waits, once nothing is left to do. */
  lemma {:induction false} WakeKeeps(p: Policy, s: State)
    requires Books(p, s) && (s.queue != [] ==> s.active.Some?)
    requires s.active.None? ==> !Summarized(s.log).open && Summarized(s.log).due == Nothing
    ensures Books(p, WakeWhenIdle(s)) && NoLostWakeUp(WakeWhenIdle(s))
    ensures Summarized(WakeWhenIdle(s).log) == Summarized(s.log)
    ensures WakeWhenIdle(s) == s.(waiters := WakeWhenIdle(s).waiters, log := WakeWhenIdle(s).log)
  {
    if Idle(s) {
      WokenAllLawful(p, s.log, s.waiters);
    }
  }

  lemma {:induction false} PumpKeeps(p: Policy, s: State)
    requires Books(p, s) && s.active.None? && !Summarized(s.log).open && !s.aborted
    requires Summarized(s.log).due == Nothing
    ensures Inv(p, Pump(s))
  {
    if s.queue == [] {
      WakeKeeps(p, s);
    } else {
      var t := Pump(s);
      hide Lawful, Summarized;
      assert forall i :: 0 <= i < |t.queue| ==> t.queue[i] == s.queue[i + 1];
      assert t.active.value.request == Summarized(s.log).requests[Taken(s)];
    }
  }

  /** Resolving is due, with its success; or rejecting is due, or there was an abort. */
  predicate MaySettle(h: Summary, id: nat, resolved: bool) {
    if resolved then
      h.due == Resolve(id) && h.finished.Some? && h.finished.value.id == id && h.finished.value.ending == Success
    else
      h.due == Reject(id) || (h.due == Nothing && h.aborted)
  }

  lemma {:induction false} SettleKeeps(p: Policy, s: State, resolved: bool)
    requires Books(p, s) && s.active.Some? && !Summarized(s.log).open
    requires MaySettle(Summarized(s.log), s.active.value.request.id, resolved)
    ensures Inv(p, Settle(s, resolved))
  {
    var e := Settled(s.active.value.request.id, resolved);
    Append(p, s.log, e);
    var t := Logged(s.(active := None), e);
    assert Books(p, t) by {
      hide Lawful, Summarized;
    }
    if !t.aborted && t.queue != [] {
      PumpKeeps(p, t);
    } else {
      WakeKeeps(p, t);
    }
  }

  lemma {:induction false} PhaseStays(p: Policy, s: State, t: State, h: Summary, h': Summary)
    requires s.active.Some? && PhaseHolds(p, s, h, s.active.value)
    requires h'.open == h.open && h'.started == h.started && h'.finished == h.finished
    requires h'.observed == h.observed && h'.allowed == h.allowed
    requires t.lastStart == s.lastStart && t.lastCompletion == s.lastCompletion && t.lastRead == s.lastRead
    ensures PhaseHolds(p, t, h', s.active.value)
  {
  }

  function AfterAbort(due: Due): Due {
    if due.AbortFirst? then Reject(due.request) else due
  }

  /** Nothing is due, or the active request is to be rejected, perhaps after an abort. */
  predicate DueToActive(s: State, due: Due) {
    || due == Nothing
    || (s.active.Some? && (due == Reject(s.active.value.request.id) || due == AbortFirst(s.active.value.request.id)))
  }

  /** An abort empties the queue and rejects every request in it; the active request and its attempt go on. */
  lemma {:induction false} MarkAbortedKeeps(p: Policy, s: State)
    requires Books(p, s) && (s.queue != [] ==> s.active.Some?) && (s.active.None? ==> !Summarized(s.log).open)
    requires Idle(s) ==> s.waiters == []
    requires DueToActive(s, Summarized(s.log).due) && (s.aborted ==> !Summarized(s.log).due.AbortFirst?)
    ensures var t := MarkAborted(s);
      var h, h' := Summarized(s.log), Summarized(t.log);
      && Books(p, t) && NoLostWakeUp(t) && t.aborted
      && h' == h.(aborted := true, settled := h'.settled, due := AfterAbort(h.due))
      && t == s.(aborted := true, closed := true, queue := [], waiters := t.waiters, log := t.log)
  {
    if !s.aborted {
      var log := RejectAll(s.log + [Aborted], s.queue);
      RejectedBooks(p, s);
      hide Lawful, Summarized, RejectAll;
      var t := s.(aborted := true, closed := true, queue := [], log := log);
      assert Books(p, t);
      hide Books;
      WakeKeeps(p, t);
    }
  }

  lemma {:induction false} RejectedBooks(p: Policy, s: State)
    requires Books(p, s) && !s.aborted && DueToActive(s, Summarized(s.log).due)
    ensures var log := RejectAll(s.log + [Aborted], s.queue);
      && Lawful(p, log)
      && Summarized(log) == Summarized(s.log).(
          aborted := true, settled := Summarized(log).settled, due := AfterAbort(Summarized(s.log).due))
      && forall id: nat :: id in Summarized(log).settled <==> id < s.accepted && !IsActive(s, id)
  {
    Append(p, s.log, Aborted);
    hide Lawful, Summarized;
    RejectAllLawful(p, s.log + [Aborted], s.queue, Taken(s));
  }

  lemma {:induction false} ScheduleKeeps(p: Policy, s: State, r: Request)
    requires Inv(p, s)
    ensures Inv(p, Scheduled(p, s, r))
  {
    if !(s.closed || s.aborted || |s.queue| >= p.queueCapacity) {
      var accepted := r.(id := s.accepted);
      var t := Logged(s.(queue := s.queue + [accepted], accepted := s.accepted + 1), Accepted(accepted));
      AcceptedBooks(p, s, accepted);
      hide Books, Lawful, Summarized, PhaseHolds;
      if s.active.Some? {
        assert Pump(t) == t;
        PhaseStays(p, s, t, Summarized(s.log), Summarized(t.log));
      } else {
        PumpKeeps(p, t);
      }
    }
  }

  lemma {:induction false} AcceptedBooks(p: Policy, s: State, r: Request)
    requires Books(p, s) && !s.aborted && r.id == s.accepted && Summarized(s.log).due == Nothing
    ensures
      var t := Logged(s.(queue := s.queue + [r], accepted := s.accepted + 1), Accepted(r));
      && Books(p, t)
      && Summarized(t.log) == Summarized(s.log).(requests := Summarized(s.log).requests + [r])
  {
    Append(p, s.log, Accepted(r));
    hide Lawful, Summarized;
  }

  /** The active request's phase moves on and the clock is read, but nothing is logged. */
  lemma {:induction false} QuietMoveKeeps(p: Policy, s: State, t: State)
    requires Inv(p, s) && s.active.Some? && t.active.Some?
    requires t == s.(active := Some(s.active.value.(phase := t.active.value.phase)), lastRead := t.lastRead)
    requires s.lastRead.Some? ==> t.lastRead.Some? && s.lastRead.value <= t.lastRead.value
    requires PhaseHolds(p, t, Summarized(t.log), t.active.value)
    ensures Inv(p, t)
  {
    hide Lawful, Summarized, PhaseHolds;
  }

  /** The attempt that a request not in flight is waiting for. */
  function NextAttempt(phase: Phase): nat
    requires !phase.InFlight?
  {
    if phase.BackingOff? then phase.n + 1 else phase.n
  }

  lemma {:induction false} OpenOnlyInFlight(p: Policy, s: State)
    requires Inv(p, s) && s.active.Some? && !s.active.value.phase.InFlight?
    ensures !Summarized(s.log).open && Summarized(s.log).due == Nothing && Books(p, s)
    ensures IsNext(Summarized(s.log), s.active.value.request.id, NextAttempt(s.active.value.phase))
    ensures s.active.value.request == Summarized(s.log).requests[s.active.value.request.id]
    ensures s.aborted ==> Summarized(s.log).aborted
  {
    hide Lawful, Summarized;
  }

  lemma {:induction false} CheckKeeps(p: Policy, s: State)
    requires Inv(p, s) && CanStep(p, s, Check)
    ensures Inv(p, Checked(s))
  {
    OpenOnlyInFlight(p, s);
    if s.aborted {
      SettleKeeps(p, s, false);
    } else {
      QuietMoveKeeps(p, s, Checked(s));
    }
  }

  /** A guard's answer, or a refusal, is logged; the books are as they were. */
  lemma {:induction false} AnswerBooks(p: Policy, s: State, e: Event)
    requires Books(p, s) && s.active.Some? && Fits(p, Summarized(s.log), e) && (e.Guarded? || e.Refused?)
    ensures Books(p, Logged(s, e))
    ensures Summarized(Logged(s, e).log) == Including(Summarized(s.log), e)
  {
    Append(p, s.log, e);
    hide Lawful, Summarized;
  }

  lemma {:induction false} GuardKeeps(p: Policy, s: State, allows: bool)
    requires Inv(p, s) && CanStep(p, s, GuardReturns(allows))
    ensures Inv(p, GuardReturned(s, allows))
  {
    OpenOnlyInFlight(p, s);
    var e := Guarded(s.active.value.request.id, s.active.value.phase.n, allows);
    AnswerBooks(p, s, e);
    hide Lawful, Summarized, Books, Settle;
    if !allows {
      SettleKeeps(p, Logged(s, e), false);
    }
  }

  /** Giving up the next attempt for a true reason leaves the request to be rejected. */
  lemma {:induction false} GivenUpKeeps(p: Policy, s: State, attempt: nat, reason: Reason)
    requires Books(p, s) && s.active.Some? && IsNext(Summarized(s.log), s.active.value.request.id, attempt)
    requires s.active.value.request == Summarized(s.log).requests[s.active.value.request.id]
    requires ReasonFits(p, s.active.value.request, reason)
    ensures var t := GivenUp(s, attempt, reason);
      Books(p, t) && !Summarized(t.log).open && Summarized(t.log).due == Reject(s.active.value.request.id)
  {
    AnswerBooks(p, s, Refused(s.active.value.request.id, attempt, reason));
    hide Lawful, Summarized, Books;
  }

  lemma {:induction false} UnreadableKeeps(p: Policy, s: State, attempt: nat, now: int)
    requires Books(p, s) && s.active.Some? && IsNext(Summarized(s.log), s.active.value.request.id, attempt)
    requires s.active.value.request == Summarized(s.log).requests[s.active.value.request.id]
    requires Regresses(s, now)
    ensures Inv(p, Unreadable(s, attempt, now))
  {
    var reason := ClockBackwards(now, s.lastRead.value);
    GivenUpKeeps(p, s, attempt, reason);
    hide Lawful, Summarized, Books, Settle;
    SettleKeeps(p, GivenUp(s, attempt, reason), false);
  }

  lemma {:induction false} GateKeeps(p: Policy, s: State, now: int)
    requires Inv(p, s) && CanStep(p, s, ReadGate(now))
    ensures Inv(p, GateRead(p, s, now))
  {
    OpenOnlyInFlight(p, s);
    hide Books, Lawful, Summarized, Settle, Unreadable;
    if Earliest(p, s).Some? && s.aborted {
      SettleKeeps(p, s, false);
    } else if Regresses(s, now) {
      UnreadableKeeps(p, s, s.active.value.phase.n, now);
    } else {
      var h := Summarized(s.log);
      LaterAttempt(p, h, s.active.value.request, s.active.value.phase.n, s.lastRead, now);
      QuietMoveKeeps(p, s, GateRead(p, s, now));
    }
  }

  /** A request may still start when more time has passed. */
  lemma {:induction false} LaterAttempt(p: Policy, h: Summary, r: Request, n: nat, lastRead: Option<int>, now: int)
    requires MayAttempt(p, h, r, n, lastRead) && (lastRead.Some? ==> lastRead.value <= now)
    ensures MayAttempt(p, h, r, n, Some(now))
  {
  }

  lemma {:induction false} Reread(p: Policy, s: State, now: int, completion: Option<int>)
    requires Books(p, s) && !Regresses(s, now)
    ensures Books(p, s.(lastRead := Some(now), lastCompletion := completion))
  {
    hide Lawful, Summarized;
  }

  lemma {:induction false} NotBegunKeeps(p: Policy, s: State, again: int)
    requires Books(p, s) && s.active.Some? && !Summarized(s.log).open
    requires Summarized(s.log).due == Reject(s.active.value.request.id)
    ensures Inv(p, NotBegun(s, again))
  {
    if !Regresses(s, again) {
      Reread(p, s, again, Some(again));
    }
    hide Lawful, Summarized, Books, Settle;
    SettleKeeps(p, if Regresses(s, again) then s else s.(lastRead := Some(again), lastCompletion := Some(again)), false);
  }

  lemma {:induction false} StartKeeps(
    p: Policy, s: State, now: int, refusal: Refusal, start: int, again: int, observerThrows: bool)
    requires Inv(p, s) && CanStep(p, s, StartAttempt(now, refusal, start, again, observerThrows))
    ensures Inv(p, Started(p, s, now, refusal, start, again, observerThrows))
  {
    OpenOnlyInFlight(p, s);
    if !Regresses(s, now) {
      Reread(p, s, now, s.lastCompletion);
      if now <= start {
        Reread(p, s, start, s.lastCompletion);
      }
    }
    hide Lawful, Summarized, PhaseHolds, Settle, Books, NotBegun, Unreadable, IsNext, GivenUp;
    var r, n := s.active.value.request, s.active.value.phase.n;
    if s.aborted {
      SettleKeeps(p, s, false);
    } else if Regresses(s, now) {
      UnreadableKeeps(p, s, n, now);
    } else {
      var read := s.(lastRead := Some(now));
      if r.deadline.Some? && now + p.timeout + r.cleanup > r.deadline.value {
        GivenUpKeeps(p, read, n, NoRoom(now));
        GivenUpParts(read, n, NoRoom(now));
        SettleKeeps(p, GivenUp(read, n, NoRoom(now)), false);
      } else if refusal.BadMetadata? {
        GivenUpKeeps(p, read, n, NotAdmitted);
        GivenUpParts(read, n, NotAdmitted);
        NotBegunKeeps(p, GivenUp(read, n, NotAdmitted), again);
      } else if start < now {
        GivenUpKeeps(p, read, n, ClockBackwards(start, now));
        GivenUpParts(read, n, ClockBackwards(start, now));
        NotBegunKeeps(p, GivenUp(read, n, ClockBackwards(start, now)), again);
      } else if refusal.SubscriberFails? {
        var begun := read.(lastRead := Some(start));
        GivenUpKeeps(p, begun, n, NotAdmitted);
        GivenUpParts(begun, n, NotAdmitted);
        NotBegunKeeps(p, GivenUp(begun, n, NotAdmitted), again);
      } else {
        BeginKeeps(p, s, now, start, observerThrows);
      }
    }
  }

  lemma {:induction false} GivenUpParts(s: State, attempt: nat, reason: Reason)
    requires s.active.Some?
    ensures GivenUp(s, attempt, reason).active == s.active
  {
  }

  /** The scheduler right after an attempt has begun. */
  function Begun(s: State, now: int, start: int, observerThrows: bool): State
    requires s.active.Some?
  {
    var r, n := s.active.value.request, s.active.value.phase.n;
    InPhase(
      Logged(s.(lastRead := Some(start), lastStart := Some(start)), Began(r.id, n, now, start, !observerThrows)),
      InFlight(n, observerThrows))
  }

  /** Everything is in place for the attempt to begin. */
  predicate MayBegin(p: Policy, s: State, now: int, start: int) {
    && s.active.Some? && s.active.value.phase.Ready? && !s.aborted && !Regresses(s, now) && now <= start
    && var r := s.active.value.request;
      r.deadline.Some? ==> now + p.timeout + r.cleanup <= r.deadline.value
  }

  lemma {:induction false} BeginFits(p: Policy, s: State, now: int, start: int, observerThrows: bool)
    requires Inv(p, s) && MayBegin(p, s, now, start)
    ensures Fits(p, Summarized(s.log),
      Began(s.active.value.request.id, s.active.value.phase.n, now, start, !observerThrows))
  {
    hide Lawful, Summarized;
  }

  lemma {:induction false} BegunBooks(p: Policy, s: State, now: int, start: int, observerThrows: bool)
    requires Inv(p, s) && MayBegin(p, s, now, start)
    ensures var t := Begun(s, now, start, observerThrows);
      && Books(p, t) && Summarized(t.log) == Including(Summarized(s.log), t.log[|t.log| - 1])
      && t.log == s.log + [Began(s.active.value.request.id, s.active.value.phase.n, now, start, !observerThrows)]
  {
    BeginFits(p, s, now, start, observerThrows);
    Append(p, s.log, Began(s.active.value.request.id, s.active.value.phase.n, now, start, !observerThrows));
    hide Lawful, Summarized, PhaseHolds, Fits;
  }

  lemma {:induction false} BegunHolds(p: Policy, s: State, now: int, start: int, observerThrows: bool, h: Summary)
    requires MayBegin(p, s, now, start) && PhaseHolds(p, s, h, s.active.value)
    ensures var t := Begun(s, now, start, observerThrows);
      PhaseHolds(p, t, Including(h, t.log[|t.log| - 1]), t.active.value)
  {
  }

  lemma {:induction false} BeginKeeps(p: Policy, s: State, now: int, start: int, observerThrows: bool)
    requires Inv(p, s) && MayBegin(p, s, now, start)
    ensures Inv(p, Begun(s, now, start, observerThrows))
  {
    BegunBooks(p, s, now, start, observerThrows);
    BegunHolds(p, s, now, start, observerThrows, Summarized(s.log));
    hide Books, Lawful, Summarized, PhaseHolds;
  }

  lemma {:induction false} BackoffHolds(p: Policy, s: State, now: int, h: Summary)
    requires s.active.Some? && s.active.value.phase.BackingOff? && s.lastCompletion.Some?
    requires PhaseHolds(p, s, h, s.active.value) && !s.aborted && !Regresses(s, now)
    ensures var t := BackoffRead(p, s, now);
      && t.active.Some? && PhaseHolds(p, t, h, t.active.value)
      && t == s.(active := Some(s.active.value.(phase := t.active.value.phase)), lastRead := Some(now))
  {
  }

  lemma {:induction false} BackoffWaits(p: Policy, s: State, now: int)
    requires Inv(p, s) && CanStep(p, s, ReadBackoff(now)) && !s.aborted && !Regresses(s, now)
    ensures Inv(p, BackoffRead(p, s, now))
  {
    BackoffHolds(p, s, now, Summarized(s.log));
    hide Inv, Books, Lawful, Summarized, PhaseHolds, BackoffRead;
    QuietMoveKeeps(p, s, BackoffRead(p, s, now));
  }

  lemma {:induction false} BackoffStops(p: Policy, s: State, now: int)
    requires Inv(p, s) && CanStep(p, s, ReadBackoff(now)) && (s.aborted || Regresses(s, now))
    ensures Inv(p, BackoffRead(p, s, now))
  {
    OpenOnlyInFlight(p, s);
    var n := s.active.value.phase.n + 1;
    assert BackoffRead(p, s, now) == if s.aborted then Settle(s, false) else Unreadable(s, n, now);
    hide BackoffRead, Inv, Books, Lawful, Summarized, Settle, Unreadable, IsNext, PhaseHolds;
    if s.aborted {
      SettleKeeps(p, s, false);
    } else {
      UnreadableKeeps(p, s, n, now);
    }
  }

  lemma {:induction false} BackoffKeeps(p: Policy, s: State, now: int)
    requires Inv(p, s) && CanStep(p, s, ReadBackoff(now))
    ensures Inv(p, BackoffRead(p, s, now))
  {
    hide Inv, BackoffRead;
    if s.aborted || Regresses(s, now) {
      BackoffStops(p, s, now);
    } else {
      BackoffWaits(p, s, now);
    }
  }

  /** A reading of the clock that belongs to nobody in the queue. */
  lemma {:induction false} CoolOffKeeps(p: Policy, s: State, now: int)
    requires Inv(p, s) && CanStep(p, s, CoolOff(now))
    ensures Inv(p, Stepped(p, s, CoolOff(now)))
  {
    if !s.aborted && !Regresses(s, now) {
      var t := s.(lastRead := Some(now));
      Reread(p, s, now, s.lastCompletion);
      hide Lawful, Summarized, Books, PhaseHolds;
      if s.active.Some? {
        LaterPhase(p, s, now, Summarized(s.log));
      }
    }
  }

  lemma {:induction false} LaterPhase(p: Policy, s: State, now: int, h: Summary)
    requires s.active.Some? && PhaseHolds(p, s, h, s.active.value) && !Regresses(s, now)
    ensures PhaseHolds(p, s.(lastRead := Some(now)), h, s.active.value)
  {
  }

  /** The attempt's end is logged, with the reading it was seen at if there was one. */
  lemma {:induction false} EndBooks(p: Policy, s: State, at: Option<int>, ending: Ending, clockFailed: bool)
    requires Inv(p, s) && s.active.Some? && s.active.value.phase.InFlight?
    requires at.Some? ==> !Regresses(s, at.value)
    requires at.None? ==> clockFailed
    ensures
      var h := Summarized(s.log);
      var r, n := s.active.value.request, s.active.value.phase.n;
      var e := Ended(r.id, n, at, ending, clockFailed);
      var t := Logged(if at.Some? then s.(lastRead := at, lastCompletion := at) else s, e);
      && Books(p, t) && NoLostWakeUp(t)
      && Summarized(t.log) == Including(h, e)
      && h.observed == !s.active.value.phase.observerFailed && (h.aborted <==> s.aborted)
      && r.id < |h.requests| && h.requests[r.id] == r
  {
    var e := Ended(s.active.value.request.id, s.active.value.phase.n, at, ending, clockFailed);
    Append(p, s.log, e);
    hide Lawful, Summarized;
  }

  /** The active attempt's end as it is logged. */
  function EndOf(s: State, at: Option<int>, ending: Ending, clockFailed: bool): State
    requires s.active.Some? && s.active.value.phase.InFlight?
  {
    Logged(if at.Some? then s.(lastRead := at, lastCompletion := at) else s,
      Ended(s.active.value.request.id, s.active.value.phase.n, at, ending, clockFailed))
  }

  /** What the end of an attempt leaves to do. */
  lemma {:induction false} EndLeaves(p: Policy, s: State, at: Option<int>, ending: Ending, clockFailed: bool)
    requires Inv(p, s) && s.active.Some? && s.active.value.phase.InFlight?
    requires at.Some? ==> !Regresses(s, at.value)
    requires at.None? ==> clockFailed
    ensures var t, item := EndOf(s, at, ending, clockFailed), s.active.value;
      var r, h := item.request, Summarized(t.log);
      && Books(p, t) && NoLostWakeUp(t) && t.active == s.active && t.aborted == s.aborted && !h.open
      && h.finished == Some(Finish(r.id, item.phase.n, at, ending))
      && h.due == (
          if at.Some? && item.phase.observerFailed then (if s.aborted then Reject(r.id) else AbortFirst(r.id))
          else if at.None? || clockFailed then Reject(r.id)
          else if ending == Success then Resolve(r.id)
          else if r.retriable && Temporary(ending) && item.phase.n < 2 && !s.aborted then Nothing
          else Reject(r.id))
      && (h.aborted <==> s.aborted)
  {
    EndBooks(p, s, at, ending, clockFailed);
    hide Books, Lawful, Summarized;
  }

  lemma {:induction false} CompleteKeeps(p: Policy, s: State, ending: Ending, now: int, again: int)
    requires Inv(p, s) && CanStep(p, s, CompleteAttempt(ending, now, again))
    ensures Inv(p, Completed(s, ending, now, again))
  {
    var recovered := ending == Success && !Regresses(s, again);
    var clockFailed := Regresses(s, now);
    var at := if !clockFailed then Some(now) else if recovered then Some(again) else None;
    var r, n, observerFailed := s.active.value.request, s.active.value.phase.n, s.active.value.phase.observerFailed;
    var ended := EndOf(s, at, ending, clockFailed);
    EndLeaves(p, s, at, ending, clockFailed);
    if !clockFailed && !observerFailed && Retried(s, ending) {
      EndRetries(p, s, ending, now);
      RetryKeeps(p, ended, n);
    } else {
      hide Inv, Books, Lawful, Summarized, Settle, MarkAborted;
      if observerFailed && at.Some? {
        MarkAbortedKeeps(p, ended);
        SettleKeeps(p, MarkAborted(ended), false);
      } else if !clockFailed && ending == Success {
        SettleKeeps(p, ended, true);
      } else {
        SettleKeeps(p, ended, false);
      }
    }
  }

  /** The attempt that ends so will be tried again. */
  predicate Retried(s: State, ending: Ending)
    requires s.active.Some?
  {
    s.active.value.request.retriable && Temporary(ending) && s.active.value.phase.n < 2 && !s.aborted
  }

  lemma {:induction false} EndRetries(p: Policy, s: State, ending: Ending, now: int)
    requires Inv(p, s) && s.active.Some? && s.active.value.phase.InFlight? && !s.active.value.phase.observerFailed
    requires !Regresses(s, now) && Retried(s, ending)
    ensures var t := EndOf(s, Some(now), ending, false);
      PhaseHolds(p, t, Summarized(t.log), t.active.value.(phase := BackingOff(t.active.value.phase.n)))
  {
    EndBooks(p, s, Some(now), ending, false);
    hide Books, Lawful, Summarized;
  }

  lemma {:induction false} RetryKeeps(p: Policy, s: State, n: nat)
    requires Books(p, s) && NoLostWakeUp(s) && s.active.Some? && n <= 1 && Summarized(s.log).due == Nothing
    requires PhaseHolds(p, s, Summarized(s.log), s.active.value.(phase := BackingOff(n)))
    ensures Inv(p, InPhase(s, BackingOff(n)))
  {
    hide Lawful, Summarized;
  }

  lemma {:induction false} WaitKeeps(p: Policy, s: State, waiter: nat)
    requires Inv(p, s)
    ensures Inv(p, WaitUntilIdle(s, waiter))
  {
    hide Lawful, Summarized, PhaseHolds;
    if Idle(s) {
      Append(p, s.log, Woken(waiter));
    } else {
      PhaseStays(p, s, WaitUntilIdle(s, waiter), Summarized(s.log), Summarized(s.log));
    }
  }

  lemma {:induction false} AbortKeeps(p: Policy, s: State)
    requires Inv(p, s)
    ensures Inv(p, MarkAborted(s))
  {
    MarkAbortedKeeps(p, s);
    hide Books, Lawful, Summarized, MarkAborted;
    if s.active.Some? {
      PhaseStays(p, s, MarkAborted(s), Summarized(s.log), Summarized(MarkAborted(s).log));
    }
  }

  lemma {:induction false} CloseKeeps(p: Policy, s: State)
    requires Inv(p, s)
    ensures Inv(p, s.(closed := true))
  {
    hide Lawful, Summarized;
  }

  lemma {:induction false} StepKeeps(p: Policy, s: State, step: Step)
    requires Inv(p, s) && CanStep(p, s, step)
    ensures Inv(p, Stepped(p, s, step))
  {
    hide Inv, Scheduled, Checked, GateRead, Started, Completed, BackoffRead, MarkAborted, WaitUntilIdle, Settle;
    if step.Schedule? {
      ScheduleKeeps(p, s, Request(0, step.retriable, step.guarded, step.notBefore, step.deadline, step.cleanup));
    } else if step.Check? {
      CheckKeeps(p, s);
    } else if step.GuardReturns? {
      GuardKeeps(p, s, step.allows);
    } else if step.ReadGate? {
      GateKeeps(p, s, step.now);
    } else if step.StartAttempt? {
      StartKeeps(p, s, step.now, step.refusal, step.start, step.again, step.observerThrows);
    } else if step.CompleteAttempt? {
      CompleteKeeps(p, s, step.ending, step.now, step.again);
    } else if step.ReadBackoff? {
      BackoffKeeps(p, s, step.now);
    } else if step.CoolOff? {
      CoolOffKeeps(p, s, step.now);
    } else if step.Abort? {
      AbortKeeps(p, s);
      WaitKeeps(p, MarkAborted(s), step.waiter);
    } else {
      CloseKeeps(p, s);
      WaitKeeps(p, s.(closed := true), step.waiter);
    }
  }

  lemma {:induction false} RunKeeps(p: Policy, s: State, steps: seq<Step>)
    requires Inv(p, s) && Runs(p, s, steps)
    ensures Inv(p, Reached(p, s, steps))
    decreases |steps|
  {
    if steps != [] {
      StepKeeps(p, s, steps[0]);
      hide Inv, Stepped;
      RunKeeps(p, Stepped(p, s, steps[0]), steps[1..]);
    }
  }

  // ----- what holds in every run

  /** Every run is lawful, whatever the readings, endings, aborts and closes, and leaves nothing due. */
  lemma {:induction false} RunsAreLawful(p: Policy, steps: seq<Step>)
    requires Runs(p, INITIAL, steps)
    ensures Lawful(p, Reached(p, INITIAL, steps).log)
    ensures Summarized(Reached(p, INITIAL, steps).log).due == Nothing
  {
    RunKeeps(p, INITIAL, steps);
  }

  /** Accepted requests are settled, waiting or active, each exactly one of these; and a waiting one has an active one before it. */
  lemma {:induction false} RequestsAreConserved(p: Policy, steps: seq<Step>)
    requires Runs(p, INITIAL, steps)
    ensures var s := Reached(p, INITIAL, steps);
      var h := Summarized(s.log);
      && |h.requests| == |h.settled| + |s.queue| + (if s.active.Some? then 1 else 0)
      && (forall r :: r in s.queue ==> r.id < |h.requests| && r.id !in h.settled)
      && (s.active.Some? ==> s.active.value.request.id !in h.settled && s.active.value.request !in s.queue)
      && NoLostWakeUp(s)
  {
    RunKeeps(p, INITIAL, steps);
    var s := Reached(p, INITIAL, steps);
    var h := Summarized(s.log);
    hide Runs, Reached, Lawful, Summarized;
    var below := UpTo(Taken(s));
    if s.active.Some? {
      assert h.settled == below - {s.active.value.request.id};
    } else {
      assert h.settled == below;
    }
  }

  ghost function UpTo(n: nat): (below: set<nat>)
    ensures |below| == n && forall id: nat :: id in below <==> id < n
  {
    if n == 0 then {} else UpTo(n - 1) + {n - 1}
  }
}
