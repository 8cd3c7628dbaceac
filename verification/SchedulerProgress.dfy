/**
 What the scheduler does for its callers: a request can be served in whatever phase it
 is, the log tells what was asked and answered, and nobody who closes it is left waiting
 (scripts/devnet/rpc-request-scheduler.mjs).
 */
module SchedulerProgress {
  import opened Outcomes
  import opened RpcScheduler
  import opened SchedulerLog

  // ----- no request is stuck

  lemma {:induction false} WokenAllAdds(log: seq<Event>, waiters: seq<nat>)
    ensures log <= WokenAll(log, waiters)
    decreases |waiters|
  {
    if waiters != [] {
      WokenAllAdds(log + [Woken(waiters[0])], waiters[1..]);
    }
  }

  lemma {:induction false} SettlingIsLogged(s: State, resolved: bool)
    requires s.active.Some?
    ensures Settled(s.active.value.request.id, resolved) in Settle(s, resolved).log
  {
    var e := Settled(s.active.value.request.id, resolved);
    assert e in s.log + [e];
    WokenAllAdds(s.log + [e], s.waiters);
  }

  /** By this time nothing holds the active request back any more, and there is room for an attempt before its deadline. */
  predicate TimeEnough(p: Policy, s: State, time: int)
    requires s.active.Some?
  {
    var r := s.active.value.request;
    && !Regresses(s, time)
    && (s.lastStart.Some? ==> s.lastStart.value + p.startGap <= time)
    && (s.lastCompletion.Some? ==> s.lastCompletion.value + p.firstBackoff <= time)
    && (s.lastCompletion.Some? ==> s.lastCompletion.value + p.secondBackoff <= time)
    && (r.notBefore.Some? ==> r.notBefore.value <= time)
    && (r.deadline.Some? ==> time + p.timeout + r.cleanup <= r.deadline.value)
  }

  /** An attempt that is ready begins and succeeds. */
  function Succeeding(time: int): seq<Step> {
    [StartAttempt(time, Admitted, time, time, false), CompleteAttempt(Success, time, time)]
  }

  /** The steps that serve the active request when its guard allows it and its attempt succeeds. */
  function Serving(phase: Phase, guarded: bool, time: int): seq<Step> {
    match phase
    case InFlight(_, _) => [CompleteAttempt(Success, time, time)]
    case Ready(_) => Succeeding(time)
    case Gated(_) => [ReadGate(time)] + Succeeding(time)
    case Guarding(_) => [GuardReturns(true), ReadGate(time)] + Succeeding(time)
    case Checking(_) =>
      (if guarded then [Check, GuardReturns(true)] else [Check]) + [ReadGate(time)] + Succeeding(time)
    case BackingOff(_) =>
      [ReadBackoff(time)] + (if guarded then [Check, GuardReturns(true)] else [Check]) + [ReadGate(time)] + Succeeding(time)
  }

  lemma {:induction false} Prepend(p: Policy, s: State, step: Step, steps: seq<Step>)
    requires CanStep(p, s, step) && Runs(p, Stepped(p, s, step), steps)
    ensures Runs(p, s, [step] + steps) && Reached(p, s, [step] + steps) == Reached(p, Stepped(p, s, step), steps)
  {
    assert ([step] + steps)[1..] == steps;
  }

  ghost predicate Serves(p: Policy, s: State, steps: seq<Step>, id: nat) {
    Runs(p, s, steps) && Settled(id, true) in Reached(p, s, steps).log
  }

  lemma {:induction false} ServeLater(p: Policy, s: State, step: Step, steps: seq<Step>, id: nat)
    requires CanStep(p, s, step) && Serves(p, Stepped(p, s, step), steps, id)
    ensures Serves(p, s, [step] + steps, id)
  {
    Prepend(p, s, step, steps);
  }

  lemma {:induction false} ServedInFlight(p: Policy, s: State, time: int)
    requires s.active.Some? && s.active.value.phase.InFlight? && !s.active.value.phase.observerFailed && !Regresses(s, time)
    ensures Serves(p, s, Serving(s.active.value.phase, s.active.value.request.guarded, time), s.active.value.request.id)
  {
    var step, r, n := CompleteAttempt(Success, time, time), s.active.value.request, s.active.value.phase.n;
    SettlingIsLogged(Logged(s.(lastRead := Some(time), lastCompletion := Some(time)),
      Ended(r.id, n, Some(time), Success, false)), true);
    hide Settle, Serves;
    assert Settled(r.id, true) in Stepped(p, s, step).log;
    hide Stepped;
    NowServed(p, s, step, r.id);
  }

  lemma {:induction false} NowServed(p: Policy, s: State, step: Step, id: nat)
    requires CanStep(p, s, step) && Settled(id, true) in Stepped(p, s, step).log
    ensures Serves(p, s, [step], id)
  {
    assert [step][1..] == [];
  }

  lemma {:induction false} ServedReady(p: Policy, s: State, time: int)
    requires s.active.Some? && s.active.value.phase.Ready? && !s.aborted && TimeEnough(p, s, time)
    ensures Serves(p, s, Serving(s.active.value.phase, s.active.value.request.guarded, time), s.active.value.request.id)
  {
    var step := StartAttempt(time, Admitted, time, time, false);
    var t := Stepped(p, s, step);
    ServedInFlight(p, t, time);
    hide Serves;
    ServeLater(p, s, step, [CompleteAttempt(Success, time, time)], s.active.value.request.id);
    assert [step] + [CompleteAttempt(Success, time, time)] == Serving(s.active.value.phase, s.active.value.request.guarded, time);
  }

  lemma {:induction false} ServedGated(p: Policy, s: State, time: int)
    requires s.active.Some? && s.active.value.phase.Gated? && !s.aborted && TimeEnough(p, s, time)
    ensures Serves(p, s, Serving(s.active.value.phase, s.active.value.request.guarded, time), s.active.value.request.id)
  {
    var t := Stepped(p, s, ReadGate(time));
    ServedReady(p, t, time);
    hide Serves, Serving;
    var rest := Serving(t.active.value.phase, t.active.value.request.guarded, time);
    ServeLater(p, s, ReadGate(time), rest, s.active.value.request.id);
    ServingGated(s.active.value.phase, s.active.value.request.guarded, time);
  }

  lemma {:induction false} ServingGated(phase: Phase, guarded: bool, time: int)
    requires phase.Gated?
    ensures Serving(phase, guarded, time) == [ReadGate(time)] + Serving(Ready(phase.n), guarded, time)
  {
  }

  lemma {:induction false} ServedGuarding(p: Policy, s: State, time: int)
    requires s.active.Some? && s.active.value.phase.Guarding? && !s.aborted && TimeEnough(p, s, time)
    ensures Serves(p, s, Serving(s.active.value.phase, s.active.value.request.guarded, time), s.active.value.request.id)
  {
    var t := Stepped(p, s, GuardReturns(true));
    ServedGated(p, t, time);
    hide Serves;
    var n, guarded := s.active.value.phase.n, s.active.value.request.guarded;
    ServeLater(p, s, GuardReturns(true), Serving(Gated(n), guarded, time), s.active.value.request.id);
    assert [GuardReturns(true)] + Serving(Gated(n), guarded, time) == Serving(Guarding(n), guarded, time);
  }

  lemma {:induction false} ServedChecking(p: Policy, s: State, time: int)
    requires s.active.Some? && s.active.value.phase.Checking? && !s.aborted && TimeEnough(p, s, time)
    ensures Serves(p, s, Serving(s.active.value.phase, s.active.value.request.guarded, time), s.active.value.request.id)
  {
    var t := Stepped(p, s, Check);
    var n, guarded := s.active.value.phase.n, s.active.value.request.guarded;
    if guarded {
      ServedGuarding(p, t, time);
      hide Serves;
      ServeLater(p, s, Check, Serving(Guarding(n), guarded, time), s.active.value.request.id);
      assert [Check] + Serving(Guarding(n), guarded, time) == Serving(Checking(n), guarded, time);
    } else {
      ServedGated(p, t, time);
      hide Serves;
      ServeLater(p, s, Check, Serving(Gated(n), guarded, time), s.active.value.request.id);
      assert [Check] + Serving(Gated(n), guarded, time) == Serving(Checking(n), guarded, time);
    }
  }

  lemma {:induction false} ServedBackingOff(p: Policy, s: State, time: int)
    requires s.active.Some? && s.active.value.phase.BackingOff? && !s.aborted && TimeEnough(p, s, time)
    requires s.lastCompletion.Some?
    ensures Serves(p, s, Serving(s.active.value.phase, s.active.value.request.guarded, time), s.active.value.request.id)
  {
    var t := Stepped(p, s, ReadBackoff(time));
    var n, guarded := s.active.value.phase.n, s.active.value.request.guarded;
    ServedChecking(p, t, time);
    hide Serves;
    ServeLater(p, s, ReadBackoff(time), Serving(Checking(n + 1), guarded, time), s.active.value.request.id);
    assert [ReadBackoff(time)] + Serving(Checking(n + 1), guarded, time) == Serving(BackingOff(n), guarded, time);
  }

  /**
   In whatever phase a run leaves a request, before any abort: once time is enough, its
   guard allows it and its attempt succeeds, its promise is resolved.
   */
  lemma {:induction false} EveryRequestCanBeServed(p: Policy, steps: seq<Step>, time: int)
    requires Runs(p, INITIAL, steps) && Reached(p, INITIAL, steps).active.Some? && !Reached(p, INITIAL, steps).aborted
    requires var item := Reached(p, INITIAL, steps).active.value; item.phase.InFlight? ==> !item.phase.observerFailed
    requires TimeEnough(p, Reached(p, INITIAL, steps), time)
    ensures var s := Reached(p, INITIAL, steps);
      var item := s.active.value;
      Serves(p, s, Serving(item.phase, item.request.guarded, time), item.request.id)
  {
    RunKeeps(p, INITIAL, steps);
    var s := Reached(p, INITIAL, steps);
    hide Serves, Serving, Runs, Reached, Books, Lawful, Summarized;
    if s.active.value.phase.InFlight? {
      ServedInFlight(p, s, time);
    } else if s.active.value.phase.Ready? {
      ServedReady(p, s, time);
    } else if s.active.value.phase.Gated? {
      ServedGated(p, s, time);
    } else if s.active.value.phase.Guarding? {
      ServedGuarding(p, s, time);
    } else if s.active.value.phase.Checking? {
      ServedChecking(p, s, time);
    } else {
      ServedBackingOff(p, s, time);
    }
  }

  // ----- the log tells what was asked and answered

  /** What was logged from this position on starts with this event. */
  predicate NextLogged(before: State, after: State, e: Event) {
    |before.log| < |after.log| && after.log[|before.log|] == e
  }

  /** A request is accepted exactly while there is room and nothing closed the scheduler, and as it was asked for. */
  lemma {:induction false} AcceptedAsAsked(
    p: Policy, s: State, retriable: bool, guarded: bool, notBefore: Option<int>, deadline: Option<int>, cleanup: nat)
    ensures var t := Stepped(p, s, Schedule(retriable, guarded, notBefore, deadline, cleanup));
      if !s.closed && !s.aborted && |s.queue| < p.queueCapacity then
        && t.accepted == s.accepted + 1
        && t.log == s.log + [Accepted(Request(s.accepted, retriable, guarded, notBefore, deadline, cleanup))]
      else
        t == s
  {
  }

  lemma {:induction false} SettlingFollows(s: State, resolved: bool)
    requires s.active.Some?
    ensures s.log <= Settle(s, resolved).log
  {
    var e := Settled(s.active.value.request.id, resolved);
    WokenAllAdds(s.log + [e], s.waiters);
  }

  lemma {:induction false} RejectAllAdds(log: seq<Event>, queue: seq<Request>)
    ensures log <= RejectAll(log, queue)
    decreases |queue|
  {
    if queue != [] {
      RejectAllAdds(log + [Settled(queue[0].id, false)], queue[1..]);
    }
  }

  lemma {:induction false} AbortFollows(s: State)
    ensures s.log <= MarkAborted(s).log && MarkAborted(s).active == s.active
  {
    if !s.aborted {
      RejectAllAdds(s.log + [Aborted], s.queue);
      WokenAllAdds(RejectAll(s.log + [Aborted], s.queue), s.waiters);
    }
  }

  /** A guard's answer is logged as it was given. */
  lemma {:induction false} GuardIsTold(p: Policy, s: State, allows: bool)
    requires CanStep(p, s, GuardReturns(allows))
    ensures NextLogged(s, Stepped(p, s, GuardReturns(allows)),
      Guarded(s.active.value.request.id, s.active.value.phase.n, allows))
  {
    var e := Guarded(s.active.value.request.id, s.active.value.phase.n, allows);
    SettlingFollows(Logged(s, e), false);
    hide Settle;
  }

  /** The end of an attempt is logged with its true ending, at the moment it was read, and says whether the clock failed. */
  lemma {:induction false} EndIsTold(p: Policy, s: State, ending: Ending, now: int, again: int)
    requires CanStep(p, s, CompleteAttempt(ending, now, again))
    ensures
      var at := if !Regresses(s, now) then Some(now)
                else if ending == Success && !Regresses(s, again) then Some(again) else None;
      NextLogged(s, Stepped(p, s, CompleteAttempt(ending, now, again)),
        Ended(s.active.value.request.id, s.active.value.phase.n, at, ending, Regresses(s, now)))
  {
    var at := if !Regresses(s, now) then Some(now)
              else if ending == Success && !Regresses(s, again) then Some(again) else None;
    var ended := EndOf(s, at, ending, Regresses(s, now));
    AbortFollows(ended);
    SettlingFollows(ended, true);
    SettlingFollows(ended, false);
    SettlingFollows(MarkAborted(ended), false);
    hide Settle, MarkAborted;
  }

  /** An attempt begins exactly when nothing has aborted, the clock is in order, there is room and the ledger admits it. */
  lemma {:induction false} StartIsTold(p: Policy, s: State, now: int, refusal: Refusal, start: int, again: int, observerThrows: bool)
    requires CanStep(p, s, StartAttempt(now, refusal, start, again, observerThrows))
    ensures
      var t, r := Stepped(p, s, StartAttempt(now, refusal, start, again, observerThrows)), s.active.value.request;
      NextLogged(s, t, Began(r.id, s.active.value.phase.n, now, start, !observerThrows)) <==>
        && !s.aborted && !Regresses(s, now) && refusal == Admitted && now <= start
        && (r.deadline.Some? ==> now + p.timeout + r.cleanup <= r.deadline.value)
  {
    if MayBegin(p, s, now, start) && refusal == Admitted {
      assert Stepped(p, s, StartAttempt(now, refusal, start, again, observerThrows)) == Begun(s, now, start, observerThrows);
    } else {
      RefusalIsTold(p, s, now, refusal, start, again, observerThrows);
      hide Stepped;
    }
  }

  predicate TellsRefusal(before: State, after: State) {
    |before.log| < |after.log| && (after.log[|before.log|].Refused? || after.log[|before.log|].Settled?)
  }

  lemma {:induction false} FollowingTells(s: State, middle: State, t: State)
    requires s.log < middle.log && (middle.log[|s.log|].Refused? || middle.log[|s.log|].Settled?) && middle.log <= t.log
    ensures TellsRefusal(s, t)
  {
  }

  lemma {:induction false} RefusalIsTold(
    p: Policy, s: State, now: int, refusal: Refusal, start: int, again: int, observerThrows: bool)
    requires CanStep(p, s, StartAttempt(now, refusal, start, again, observerThrows))
    requires !(MayBegin(p, s, now, start) && refusal == Admitted)
    ensures TellsRefusal(s, Stepped(p, s, StartAttempt(now, refusal, start, again, observerThrows)))
  {
    var r, n := s.active.value.request, s.active.value.phase.n;
    var t := Stepped(p, s, StartAttempt(now, refusal, start, again, observerThrows));
    hide Settle, NotBegun;
    if s.aborted {
      SettlingIsNext(s, false);
    } else if Regresses(s, now) {
      SettlingFollows(GivenUp(s, n, ClockBackwards(now, s.lastRead.value)), false);
      FollowingTells(s, GivenUp(s, n, ClockBackwards(now, s.lastRead.value)), t);
    } else {
      var read := s.(lastRead := Some(now));
      if r.deadline.Some? && now + p.timeout + r.cleanup > r.deadline.value {
        SettlingFollows(GivenUp(read, n, NoRoom(now)), false);
        FollowingTells(s, GivenUp(read, n, NoRoom(now)), t);
      } else if refusal.BadMetadata? {
        NotBegunFollows(GivenUp(read, n, NotAdmitted), again);
        FollowingTells(s, GivenUp(read, n, NotAdmitted), t);
      } else if start < now {
        NotBegunFollows(GivenUp(read, n, ClockBackwards(start, now)), again);
        FollowingTells(s, GivenUp(read, n, ClockBackwards(start, now)), t);
      } else {
        NotBegunFollows(GivenUp(read.(lastRead := Some(start)), n, NotAdmitted), again);
        FollowingTells(s, GivenUp(read.(lastRead := Some(start)), n, NotAdmitted), t);
      }
    }
  }

  lemma {:induction false} NotBegunFollows(s: State, again: int)
    requires s.active.Some?
    ensures s.log <= NotBegun(s, again).log
  {
    SettlingFollows(
      if Regresses(s, again) then s else s.(lastRead := Some(again), lastCompletion := Some(again)), false);
    hide Settle;
  }

  lemma {:induction false} SettlingIsNext(s: State, resolved: bool)
    requires s.active.Some?
    ensures NextLogged(s, Settle(s, resolved), Settled(s.active.value.request.id, resolved))
  {
    var e := Settled(s.active.value.request.id, resolved);
    WokenAllAdds(s.log + [e], s.waiters);
  }

  // ----- closing

  lemma {:induction false} SettlingStaysClosed(s: State, resolved: bool)
    requires s.active.Some?
    ensures Settle(s, resolved).closed == s.closed && Settle(s, resolved).accepted == s.accepted
  {
  }

  lemma {:induction false} StaysClosed(p: Policy, s: State, step: Step)
    requires CanStep(p, s, step) && s.closed
    ensures Stepped(p, s, step).closed && Stepped(p, s, step).accepted == s.accepted
  {
    if step.StartAttempt? || step.CompleteAttempt? {
      AttemptStaysClosed(p, s, step);
    } else {
      hide WokenAll, RejectAll;
    }
  }

  lemma {:induction false} AttemptStaysClosed(p: Policy, s: State, step: Step)
    requires CanStep(p, s, step) && s.closed && (step.StartAttempt? || step.CompleteAttempt?)
    ensures Stepped(p, s, step).closed && Stepped(p, s, step).accepted == s.accepted
  {
    hide Settle;
    forall t: State, resolved: bool | t.active.Some?
      ensures Settle(t, resolved).closed == t.closed && Settle(t, resolved).accepted == t.accepted
    {
      SettlingStaysClosed(t, resolved);
    }
  }

  lemma {:induction false} ClosedForGood(p: Policy, s: State, steps: seq<Step>)
    requires Runs(p, s, steps) && s.closed
    ensures Reached(p, s, steps).closed && Reached(p, s, steps).accepted == s.accepted
    decreases |steps|
  {
    if steps != [] {
      StaysClosed(p, s, steps[0]);
      hide Stepped;
      ClosedForGood(p, Stepped(p, s, steps[0]), steps[1..]);
    }
  }

  /** After a close or an abort nothing is accepted, for as long as the scheduler runs. */
  lemma {:induction false} NothingAcceptedAfterClosing(p: Policy, s: State, step: Step, steps: seq<Step>)
    requires (step.Close? || step.Abort?) && Inv(p, s) && Runs(p, Stepped(p, s, step), steps)
    ensures Reached(p, Stepped(p, s, step), steps).accepted == s.accepted
  {
    ClosesNow(p, s, step);
    hide Stepped, Inv;
    ClosedForGood(p, Stepped(p, s, step), steps);
  }

  lemma {:induction false} ClosesNow(p: Policy, s: State, step: Step)
    requires (step.Close? || step.Abort?) && Inv(p, s)
    ensures Stepped(p, s, step).closed && Stepped(p, s, step).accepted == s.accepted
  {
    hide Lawful, Summarized, PhaseHolds;
  }

  /** The waiter was woken, or is still waiting and will be as soon as the scheduler is idle. */
  predicate Awaited(s: State, waiter: nat) {
    Woken(waiter) in s.log || waiter in s.waiters
  }

  lemma {:induction false} WokenAllTells(log: seq<Event>, waiters: seq<nat>, waiter: nat)
    requires waiter in waiters
    ensures Woken(waiter) in WokenAll(log, waiters)
    decreases |waiters|
  {
    WokenAllAdds(log + [Woken(waiters[0])], waiters[1..]);
    if waiter == waiters[0] {
      assert Woken(waiter) in log + [Woken(waiters[0])];
    } else {
      WokenAllTells(log + [Woken(waiters[0])], waiters[1..], waiter);
    }
  }

  lemma {:induction false} WakingKeeps(s: State, waiter: nat)
    requires Awaited(s, waiter)
    ensures Awaited(WakeWhenIdle(s), waiter)
  {
    if Idle(s) {
      WokenAllAdds(s.log, s.waiters);
      if waiter in s.waiters {
        WokenAllTells(s.log, s.waiters, waiter);
      }
    }
  }

  lemma {:induction false} LoggingKeeps(s: State, e: Event, waiter: nat)
    requires Awaited(s, waiter)
    ensures Awaited(Logged(s, e), waiter)
  {
  }

  lemma {:induction false} SettlingKeeps(s: State, resolved: bool, waiter: nat)
    requires s.active.Some? && Awaited(s, waiter)
    ensures Awaited(Settle(s, resolved), waiter)
  {
    var t := Logged(s.(active := None), Settled(s.active.value.request.id, resolved));
    LoggingKeeps(s, Settled(s.active.value.request.id, resolved), waiter);
    WakingKeeps(t, waiter);
    hide WakeWhenIdle;
  }

  lemma {:induction false} AbortingKeeps(s: State, waiter: nat)
    requires Awaited(s, waiter)
    ensures Awaited(MarkAborted(s), waiter) && MarkAborted(s).active == s.active
  {
    if !s.aborted {
      var log := RejectAll(s.log + [Aborted], s.queue);
      RejectAllAdds(s.log + [Aborted], s.queue);
      MoreLogged(s, s.(aborted := true, closed := true, queue := [], log := log), waiter);
      WakingKeeps(s.(aborted := true, closed := true, queue := [], log := log), waiter);
    }
  }

  lemma {:induction false} WaitingKeeps(s: State, other: nat, waiter: nat)
    requires Awaited(s, waiter)
    ensures Awaited(WaitUntilIdle(s, other), waiter)
  {
  }

  lemma {:induction false} WaitsNow(s: State, waiter: nat)
    ensures Awaited(WaitUntilIdle(s, waiter), waiter)
  {
  }

  /** Nothing was taken from the log or from the waiters. */
  lemma {:induction false} MoreLogged(s: State, t: State, waiter: nat)
    requires Awaited(s, waiter) && s.log <= t.log && t.waiters == s.waiters
    ensures Awaited(t, waiter)
  {
  }

  lemma {:induction false} NotBegunKeepsWaiter(s: State, again: int, waiter: nat)
    requires s.active.Some? && Awaited(s, waiter)
    ensures Awaited(NotBegun(s, again), waiter)
  {
    var t := if Regresses(s, again) then s else s.(lastRead := Some(again), lastCompletion := Some(again));
    MoreLogged(s, t, waiter);
    hide Settle;
    SettlingKeeps(t, false, waiter);
  }

  lemma {:induction false} StartKeepsWaiter(p: Policy, s: State, step: Step, waiter: nat)
    requires CanStep(p, s, step) && step.StartAttempt? && Awaited(s, waiter)
    ensures Awaited(Stepped(p, s, step), waiter)
  {
    hide Settle, NotBegun, Awaited;
    var n, now, start := s.active.value.phase.n, step.now, step.start;
    var read := s.(lastRead := Some(now));
    if s.aborted {
      SettlingKeeps(s, false, waiter);
    } else if Regresses(s, now) {
      MoreLogged(s, GivenUp(s, n, ClockBackwards(now, s.lastRead.value)), waiter);
      SettlingKeeps(GivenUp(s, n, ClockBackwards(now, s.lastRead.value)), false, waiter);
    } else {
      MoreLogged(s, GivenUp(read, n, NoRoom(now)), waiter);
      MoreLogged(s, GivenUp(read, n, NotAdmitted), waiter);
      MoreLogged(s, GivenUp(read, n, ClockBackwards(start, now)), waiter);
      MoreLogged(s, GivenUp(read.(lastRead := Some(start)), n, NotAdmitted), waiter);
      SettlingKeeps(GivenUp(read, n, NoRoom(now)), false, waiter);
      NotBegunKeepsWaiter(GivenUp(read, n, NotAdmitted), step.again, waiter);
      NotBegunKeepsWaiter(GivenUp(read, n, ClockBackwards(start, now)), step.again, waiter);
      NotBegunKeepsWaiter(GivenUp(read.(lastRead := Some(start)), n, NotAdmitted), step.again, waiter);
      MoreLogged(s, Begun(s, now, start, step.observerThrows), waiter);
    }
  }

  lemma {:induction false} EndKeepsWaiter(p: Policy, s: State, step: Step, waiter: nat)
    requires CanStep(p, s, step) && step.CompleteAttempt? && Awaited(s, waiter)
    ensures Awaited(Stepped(p, s, step), waiter)
  {
    var failed := Regresses(s, step.now);
    var at := if !failed then Some(step.now)
              else if step.ending == Success && !Regresses(s, step.again) then Some(step.again) else None;
    var ended := EndOf(s, at, step.ending, failed);
    MoreLogged(s, ended, waiter);
    hide Settle, MarkAborted, Awaited;
    SettlingKeeps(ended, true, waiter);
    SettlingKeeps(ended, false, waiter);
    AbortingKeeps(ended, waiter);
    SettlingKeeps(MarkAborted(ended), false, waiter);
    if Stepped(p, s, step) == InPhase(ended, BackingOff(s.active.value.phase.n)) {
      MoreLogged(ended, InPhase(ended, BackingOff(s.active.value.phase.n)), waiter);
    }
  }

  lemma {:induction false} WaitingPhaseKeepsWaiter(p: Policy, s: State, step: Step, waiter: nat)
    requires CanStep(p, s, step) && (step.Check? || step.GuardReturns? || step.ReadGate? || step.ReadBackoff? || step.CoolOff?)
    requires Awaited(s, waiter)
    ensures Awaited(Stepped(p, s, step), waiter)
  {
    if s.active.Some? && !step.CoolOff? {
      var r, n := s.active.value.request, s.active.value.phase.n;
      var t := Stepped(p, s, step);
      SettlingKeeps(s, false, waiter);
      if step.GuardReturns? {
        MoreLogged(s, Logged(s, Guarded(r.id, n, step.allows)), waiter);
        SettlingKeeps(Logged(s, Guarded(r.id, n, step.allows)), false, waiter);
      } else if (step.ReadGate? || step.ReadBackoff?) && Regresses(s, step.now) {
        var given := GivenUp(s, if step.ReadGate? then n else n + 1, ClockBackwards(step.now, s.lastRead.value));
        MoreLogged(s, given, waiter);
        SettlingKeeps(given, false, waiter);
      }
      hide Settle;
    }
  }

  lemma {:induction false} ScheduleKeepsWaiter(p: Policy, s: State, step: Step, waiter: nat)
    requires step.Schedule? && Awaited(s, waiter)
    ensures Awaited(Stepped(p, s, step), waiter)
  {
  }

  lemma {:induction false} StepKeepsWaiter(p: Policy, s: State, step: Step, waiter: nat)
    requires CanStep(p, s, step) && Awaited(s, waiter)
    ensures Awaited(Stepped(p, s, step), waiter)
  {
    if step.Schedule? {
      ScheduleKeepsWaiter(p, s, step, waiter);
    } else if step.StartAttempt? {
      StartKeepsWaiter(p, s, step, waiter);
    } else if step.CompleteAttempt? {
      EndKeepsWaiter(p, s, step, waiter);
    } else if step.Abort? {
      AbortingKeeps(s, waiter);
      WaitingKeeps(MarkAborted(s), step.waiter, waiter);
    } else if step.Close? {
      MoreLogged(s, s.(closed := true), waiter);
      WaitingKeeps(s.(closed := true), step.waiter, waiter);
    } else {
      WaitingPhaseKeepsWaiter(p, s, step, waiter);
    }
    hide Awaited, MarkAborted, WaitUntilIdle, Settle;
  }

  lemma {:induction false} RunKeepsWaiter(p: Policy, s: State, steps: seq<Step>, waiter: nat)
    requires Runs(p, s, steps) && Awaited(s, waiter)
    ensures Awaited(Reached(p, s, steps), waiter)
    decreases |steps|
  {
    if steps != [] {
      StepKeepsWaiter(p, s, steps[0], waiter);
      hide Stepped, Awaited;
      RunKeepsWaiter(p, Stepped(p, s, steps[0]), steps[1..], waiter);
    }
  }

  /** Whoever closes or aborts is woken, by the time the scheduler is idle at the latest. */
  lemma {:induction false} NoWaiterIsLost(p: Policy, s: State, step: Step, steps: seq<Step>)
    requires (step.Close? || step.Abort?) && Inv(p, s) && Runs(p, Stepped(p, s, step), steps)
    ensures var t := Reached(p, Stepped(p, s, step), steps);
      && Awaited(t, step.waiter)
      && (t.active.None? && t.queue == [] ==> Woken(step.waiter) in t.log)
  {
    if step.Abort? {
      WaitsNow(MarkAborted(s), step.waiter);
    } else {
      WaitsNow(s.(closed := true), step.waiter);
    }
    assert CanStep(p, s, step);
    StepKeeps(p, s, step);
    var next := Stepped(p, s, step);
    hide Stepped, Awaited, Lawful, Summarized, Books;
    RunKeepsWaiter(p, next, steps, step.waiter);
    RunKeeps(p, next, steps);
    var t := Reached(p, next, steps);
    if t.active.None? && t.queue == [] {
      IdleHasWoken(p, t, step.waiter);
    }
  }

  lemma {:induction false} IdleHasWoken(p: Policy, s: State, waiter: nat)
    requires Inv(p, s) && Awaited(s, waiter) && s.active.None? && s.queue == []
    ensures Woken(waiter) in s.log
  {
    hide Lawful, Summarized, Books;
  }
}
