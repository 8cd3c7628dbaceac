/**
 The scheduler as the object it is: the fields that every operation updates, and
 the code that runs between one await and the next
 (scripts/devnet/rpc-request-scheduler.mjs).
 */
module SchedulerObject {
  import opened Outcomes
  import opened RpcScheduler
  import opened SchedulerLog

  /**
   Each method makes the step of RpcScheduler that it is named for. What the steps are
   worth is proved over all their runs: RpcScheduler.RunsAreLawful and
   RequestsAreConserved, and what SchedulerLog says of every lawful run.
   */
  class Scheduler {
    const policy: Policy
    var queue: seq<Request>
    var active: Option<Active>
    var closed: bool
    var aborted: bool
    var lastRequestStart: Option<int>
    var lastRequestCompletion: Option<int>
    var lastClockRead: Option<int>
    var idleWaiters: seq<nat>
    var accepted: nat
    ghost var log: seq<Event>

    constructor (policy: Policy)
      ensures this.policy == policy && Contents() == INITIAL
    {
      this.policy := policy;
      queue, active, closed, aborted := [], None, false, false;
      lastRequestStart, lastRequestCompletion, lastClockRead := None, None, None;
      idleWaiters, accepted, log := [], 0, [];
    }

    ghost function Contents(): State
      reads this
    {
      State(queue, active, closed, aborted, lastRequestStart, lastRequestCompletion, lastClockRead, idleWaiters, accepted, log)
    }

    /** None when the clock runs backwards. */
    method ReadMonotonic(now: int) returns (value: Option<int>)
      modifies `lastClockRead
      ensures value == if old(Regresses(Contents(), now)) then None else Some(now)
      ensures lastClockRead == if value.Some? then value else old(lastClockRead)
    {
      if lastClockRead.Some? && now < lastClockRead.value {
        return None;
      }
      lastClockRead := Some(now);
      return Some(now);
    }

    /** SchedulerLog.WokenWhenDrained: nobody is woken while a request is left. */
    method SettleIdleWaiters()
      modifies `idleWaiters, `log
      ensures Contents() == WakeWhenIdle(old(Contents()))
    {
      if active.Some? || queue != [] {
        return;
      }
      var woken := idleWaiters;
      idleWaiters := [];
      for i := 0 to |woken|
        invariant WokenAll(log, woken[i..]) == WokenAll(old(log), woken)
      {
        log := log + [Woken(woken[i])];
        assert woken[i..][1..] == woken[i + 1..];
      }
    }

    /** SchedulerLog.WokenWhenDrained: who waits here is woken when all requests have settled. */
    method WaitUntilIdle(waiter: nat)
      modifies `idleWaiters, `log
      ensures Contents() == RpcScheduler.WaitUntilIdle(old(Contents()), waiter)
    {
      if active.None? && queue == [] {
        log := log + [Woken(waiter)];
      } else {
        idleWaiters := idleWaiters + [waiter];
      }
    }

    /** SchedulerLog.NothingAfterAbort and SettledForGood: the whole queue is rejected, once. */
    method MarkAborted()
      modifies `aborted, `closed, `queue, `idleWaiters, `log
      ensures Contents() == RpcScheduler.MarkAborted(old(Contents()))
    {
      if aborted {
        return;
      }
      aborted, closed := true, true;
      log := log + [Aborted];
      var rejected := queue;
      queue := [];
      for i := 0 to |rejected|
        invariant RejectAll(log, rejected[i..]) == RejectAll(old(log) + [Aborted], rejected)
      {
        log := log + [Settled(rejected[i].id, false)];
        assert rejected[i..][1..] == rejected[i + 1..];
      }
      SettleIdleWaiters();
    }

    /** RpcScheduler.RequestsAreConserved: a request leaves the queue only to become the active one. */
    method Pump()
      modifies `queue, `active, `idleWaiters, `log
      ensures Contents() == RpcScheduler.Pump(old(Contents()))
    {
      if active.Some? || queue == [] || aborted {
        SettleIdleWaiters();
        return;
      }
      active := Some(Active(queue[0], Checking(0)));
      queue := queue[1..];
    }

    /** The promise of the active request is resolved or rejected, and the next request is taken. */
    method Settle(resolved: bool)
      requires active.Some?
      modifies `queue, `active, `idleWaiters, `log
      ensures Contents() == RpcScheduler.Settle(old(Contents()), resolved)
    {
      log := log + [Settled(active.value.request.id, resolved)];
      active := None;
      if !aborted && queue != [] {
        Pump();
      } else {
        SettleIdleWaiters();
      }
    }

    /** Some promise when the request is accepted, None when it is refused at once. */
    method Schedule(retriable: bool, guarded: bool, notBefore: Option<int>, deadline: Option<int>, cleanup: nat)
      returns (promise: Option<nat>)
      modifies this
      ensures Contents() ==
        Stepped(policy, old(Contents()), Step.Schedule(retriable, guarded, notBefore, deadline, cleanup))
      ensures promise.Some? <==> !old(closed) && !old(aborted) && |old(queue)| < policy.queueCapacity
      ensures promise.Some? ==> promise.value == old(accepted)
    {
      if closed || aborted || |queue| >= policy.queueCapacity {
        return None;
      }
      var request := Request(accepted, retriable, guarded, notBefore, deadline, cleanup);
      queue := queue + [request];
      accepted := accepted + 1;
      log := log + [Accepted(request)];
      Pump();
      return Some(request.id);
    }

    /** The start of an attempt's round: the abort check, then the guard if there is one. */
    method CheckAttempt()
      requires CanStep(policy, Contents(), Check)
      modifies this
      ensures Contents() == Stepped(policy, old(Contents()), Check)
    {
      var item := active.value;
      if aborted {
        Settle(false);
      } else if item.request.guarded {
        active := Some(item.(phase := Guarding(item.phase.n)));
      } else {
        active := Some(item.(phase := Gated(item.phase.n)));
      }
    }

    /** The guard allows the attempt, or the request is rejected. */
    method GuardReturned(allows: bool)
      requires CanStep(policy, Contents(), GuardReturns(allows))
      modifies this
      ensures Contents() == Stepped(policy, old(Contents()), GuardReturns(allows))
    {
      log := log + [Guarded(active.value.request.id, active.value.phase.n, allows)];
      if allows {
        active := Some(active.value.(phase := Gated(active.value.phase.n)));
      } else {
        Settle(false);
      }
    }

    /**
     One round of waiting for the gap between starts and for the request's own earliest
     time; SchedulerLog.StartsInOrder.
     */
    method WaitForRequestStartGap(now: int)
      requires CanStep(policy, Contents(), ReadGate(now))
      modifies this
      ensures Contents() == Stepped(policy, old(Contents()), ReadGate(now))
    {
      var item := active.value;
      var earliest := if item.phase.n == 0 then item.request.notBefore else None;
      if lastRequestStart.Some? {
        var spaced := lastRequestStart.value + policy.startGap;
        earliest := Some(if earliest.None? || earliest.value < spaced then spaced else earliest.value);
      }
      if earliest.Some? && aborted {
        Settle(false);
        return;
      }
      var reading := ReadMonotonic(now);
      if reading.None? {
        GiveUp(item.phase.n, ClockBackwards(now, lastClockRead.value));
        Settle(false);
      } else if earliest.None? || now >= earliest.value {
        active := Some(item.(phase := Ready(item.phase.n)));
      }
    }

    /** Why the active request is about to be rejected; only the log takes note. */
    ghost method GiveUp(attempt: nat, reason: Reason)
      requires active.Some?
      modifies `log
      ensures Contents() == GivenUp(old(Contents()), attempt, reason)
    {
      log := log + [Refused(active.value.request.id, attempt, reason)];
    }

    /** The ledger did not let the attempt begin, or could not time it: the error path reads the clock and settles. */
    method NotBegun(again: int)
      requires active.Some?
      modifies this
      ensures Contents() == RpcScheduler.NotBegun(old(Contents()), again)
    {
      hide RpcScheduler.Settle;
      var completion := ReadMonotonic(again);
      if completion.Some? {
        lastRequestCompletion := completion;
      }
      Settle(false);
    }

    /**
     From the last abort check to the attempt's start there is no await, so nothing comes
     between; SchedulerLog.OneAttemptAtATime and AttemptsOfOneRequest.
     */
    method Attempt(now: int, refusal: Refusal, start: int, again: int, observerThrows: bool)
      requires CanStep(policy, Contents(), StartAttempt(now, refusal, start, again, observerThrows))
      modifies this
      ensures Contents() == Stepped(policy, old(Contents()), StartAttempt(now, refusal, start, again, observerThrows))
    {
      hide RpcScheduler.Settle;
      if aborted {
        Settle(false);
        return;
      }
      var item := active.value;
      var ready := ReadMonotonic(now);
      if ready.None? {
        GiveUp(item.phase.n, ClockBackwards(now, lastClockRead.value));
        Settle(false);
        return;
      }
      if item.request.deadline.Some? && now + policy.timeout + item.request.cleanup > item.request.deadline.value {
        GiveUp(item.phase.n, NoRoom(now));
        Settle(false);
        return;
      }
      if refusal.BadMetadata? {
        GiveUp(item.phase.n, NotAdmitted);
        NotBegun(again);
        return;
      }
      var started := ReadMonotonic(start);
      if started.None? || refusal.SubscriberFails? {
        GiveUp(item.phase.n, if started.None? then ClockBackwards(start, now) else NotAdmitted);
        NotBegun(again);
        return;
      }
      lastRequestStart := started;
      log := log + [Began(item.request.id, item.phase.n, now, start, !observerThrows)];
      active := Some(item.(phase := InFlight(item.phase.n, observerThrows)));
    }

    /**
     The attempt's promise settles: the completion is timed, and the request settles or
     waits for a retry; SchedulerLog.AttemptsAreFew and SettledForGood.
     */
    method AttemptEnded(ending: Ending, now: int, again: int)
      requires CanStep(policy, Contents(), CompleteAttempt(ending, now, again))
      modifies this
      ensures Contents() == Stepped(policy, old(Contents()), CompleteAttempt(ending, now, again))
    {
      hide RpcScheduler.Settle, RpcScheduler.MarkAborted;
      var item := active.value;
      var n, observerFailed := item.phase.n, item.phase.observerFailed;
      var completion := ReadMonotonic(now);
      var timed := completion.Some?;
      if !timed && ending == Success {
        completion := ReadMonotonic(again);
      }
      log := log + [Ended(item.request.id, n, completion, ending, !timed)];
      if completion.Some? {
        lastRequestCompletion := completion;
        if observerFailed {
          MarkAborted();
          Settle(false);
          return;
        }
      }
      if timed && ending == Success {
        Settle(true);
      } else if !timed || !item.request.retriable || !Temporary(ending) || n >= 2 || aborted {
        Settle(false);
      } else {
        active := Some(item.(phase := BackingOff(n)));
      }
    }

    /** SchedulerLog.RetriesBackOff: the next attempt is checked only when the backoff is over. */
    method BackOff(now: int)
      requires CanStep(policy, Contents(), ReadBackoff(now))
      modifies this
      ensures Contents() == Stepped(policy, old(Contents()), ReadBackoff(now))
    {
      if aborted {
        Settle(false);
        return;
      }
      var item := active.value;
      var reading := ReadMonotonic(now);
      if reading.None? {
        GiveUp(item.phase.n + 1, ClockBackwards(now, lastClockRead.value));
        Settle(false);
      } else if now >= lastRequestCompletion.value + BackoffAfter(policy, item.phase.n) {
        active := Some(item.(phase := Checking(item.phase.n + 1)));
      }
    }

    /**
     One round of waiting for a cool-off that began with the last completion; tells
     when it is over. Other requests may be scheduled meanwhile.
     */
    method WaitForCoolOff(started: int, minimum: nat, now: int) returns (finished: Option<int>)
      requires CanStep(policy, Contents(), CoolOff(now))
      modifies `lastClockRead
      ensures Contents() == Stepped(policy, old(Contents()), CoolOff(now))
      ensures finished == if !aborted && !old(Regresses(Contents(), now)) && now >= started + minimum then Some(now) else None
    {
      if aborted {
        return None;
      }
      var reading := ReadMonotonic(now);
      return if reading.Some? && now >= started + minimum then reading else None;
    }

    /** SchedulerLog.NothingAfterAbort. */
    method Abort(waiter: nat)
      modifies this
      ensures Contents() == Stepped(policy, old(Contents()), Step.Abort(waiter))
    {
      MarkAborted();
      WaitUntilIdle(waiter);
    }

    /** SchedulerLog.WokenWhenDrained. */
    method Close(waiter: nat)
      modifies this
      ensures Contents() == Stepped(policy, old(Contents()), Step.Close(waiter))
    {
      closed := true;
      WaitUntilIdle(waiter);
    }
  }
}
