/**
 What a run of the RPC request scheduler looks like from outside, event by event,
 and the rules a run has to follow (scripts/devnet/rpc-request-scheduler.mjs).
 */
module SchedulerLog {
  import opened Outcomes

  /** The gap between starts, the two retry delays, the attempt timeout and the queue's capacity. */
  datatype Policy = Policy(queueCapacity: nat, startGap: nat, firstBackoff: nat, secondBackoff: nat, timeout: nat)

  function BackoffAfter(p: Policy, attempt: nat): nat {
    if attempt == 0 then p.firstBackoff else p.secondBackoff
  }

  /** `id` counts accepted requests; `retriable` is false for writes and for sends. */
  datatype Request = Request(
    id: nat, retriable: bool, guarded: bool, notBefore: Option<int>, deadline: Option<int>, cleanup: nat)

  datatype Ending = Success | RateLimited | TimedOut | OtherFailure

  predicate Temporary(e: Ending) {
    e == RateLimited || e == TimedOut
  }

  /** Why an attempt was given up before it began: too little time, a clock that ran backwards, or the ledger. */
  datatype Reason = NoRoom(readyAt: int) | ClockBackwards(now: int, last: int) | NotAdmitted

  /**
   `observed` is false when the observer of the start failed, `clockFailed` is true when
   the clock ran backwards at the end.
   */
  datatype Event =
    | Accepted(request: Request)
    | Guarded(id: nat, attempt: nat, allowed: bool)
    | Refused(id: nat, attempt: nat, reason: Reason)
    | Began(id: nat, attempt: nat, readyAt: int, at: int, observed: bool)
    | Ended(id: nat, attempt: nat, endedAt: Option<int>, ending: Ending, clockFailed: bool)
    | Settled(id: nat, resolved: bool)
    | Aborted
    | Woken(waiter: nat)

  datatype Start = Start(id: nat, attempt: nat, at: int)

  datatype Finish = Finish(id: nat, attempt: nat, at: Option<int>, ending: Ending)

  /** What has to happen next: a request's promise is resolved or rejected, or the scheduler aborts first. */
  datatype Due = Nothing | Resolve(request: nat) | Reject(request: nat) | AbortFirst(request: nat)

  /** What the events so far amount to. */
  datatype Summary = Summary(
    requests: seq<Request>, started: Option<Start>, open: bool, finished: Option<Finish>, settled: set<nat>, aborted: bool,
    observed: bool, allowed: Option<(nat, nat)>, due: Due)

  const NOTHING: Summary := Summary([], None, false, None, {}, false, true, None, Nothing)

  /** A failure that another attempt may follow. */
  predicate Retries(h: Summary, id: nat, attempt: nat, ending: Ending) {
    id < |h.requests| && h.requests[id].retriable && Temporary(ending) && attempt < 2 && !h.aborted
  }

  /** What the end of an attempt makes due. */
  function AfterEnd(h: Summary, id: nat, attempt: nat, at: Option<int>, ending: Ending, clockFailed: bool): Due {
    if at.Some? && !h.observed then (if h.aborted then Reject(id) else AbortFirst(id))
    else if at.None? || clockFailed then Reject(id)
    else if ending == Success then Resolve(id)
    else if Retries(h, id, attempt, ending) then Nothing
    else Reject(id)
  }

  function Including(h: Summary, e: Event): Summary {
    match e
    case Accepted(request) => h.(requests := h.requests + [request])
    case Guarded(id, attempt, allowed) =>
      if allowed then h.(allowed := Some((id, attempt))) else h.(due := Reject(id))
    case Refused(id, _, _) => h.(due := Reject(id))
    case Began(id, attempt, _, at, observed) =>
      h.(started := Some(Start(id, attempt, at)), open := true, observed := observed)
    case Ended(id, attempt, at, ending, clockFailed) =>
      h.(open := false, finished := Some(Finish(id, attempt, at, ending)),
         due := AfterEnd(h, id, attempt, at, ending, clockFailed))
    case Settled(id, _) =>
      h.(settled := h.settled + {id}, due := if h.due == Reject(id) || h.due == Resolve(id) then Nothing else h.due)
    case Aborted => h.(aborted := true, due := if h.due.AbortFirst? then Reject(h.due.request) else h.due)
    case Woken(_) => h
  }

  function Summarized(log: seq<Event>): Summary {
    if log == [] then NOTHING else Including(Summarized(log[..|log| - 1]), log[|log| - 1])
  }

  // ----- the rules

  /** One attempt at a time, spaced, in order of acceptance, a retry only after its delay, none after an abort. */
  predicate StartFits(p: Policy, h: Summary, id: nat, attempt: nat, readyAt: int, at: int) {
    && id < |h.requests| && id !in h.settled && !h.open && !h.aborted
    && readyAt <= at
    && (h.started.Some? ==> h.started.value.at + p.startGap <= readyAt)
    && var r := h.requests[id];
      && (r.deadline.Some? ==> readyAt + p.timeout + r.cleanup <= r.deadline.value)
      && if attempt == 0 then
          && (h.started.Some? ==> h.started.value.id < id)
          && (r.notBefore.Some? ==> r.notBefore.value <= readyAt)
        else
          && attempt <= 2 && r.retriable
          && h.started.Some? && h.started.value.id == id && h.started.value.attempt == attempt - 1
          && h.finished.Some? && h.finished.value.id == id && h.finished.value.attempt == attempt - 1
          && Temporary(h.finished.value.ending) && h.finished.value.at.Some?
          && h.finished.value.at.value + BackoffAfter(p, attempt - 1) <= readyAt
  }

  /** The request is at its first attempt, or its last attempt was the one before this. */
  predicate IsNext(h: Summary, id: nat, attempt: nat) {
    && id < |h.requests| && id !in h.settled && !h.open && h.due == Nothing
    && if attempt == 0 then h.started.Some? ==> h.started.value.id < id
       else h.started.Some? && h.started.value.id == id && h.started.value.attempt == attempt - 1
  }

  /** The reason given for a refusal is a true one. */
  predicate ReasonFits(p: Policy, r: Request, reason: Reason) {
    match reason
    case NoRoom(readyAt) => r.deadline.Some? && r.deadline.value < readyAt + p.timeout + r.cleanup
    case ClockBackwards(now, last) => now < last
    case NotAdmitted => true
  }

  predicate EndFits(h: Summary, id: nat, attempt: nat, at: Option<int>) {
    && h.open && h.started.Some? && h.started.value.id == id && h.started.value.attempt == attempt
    && (at.Some? ==> h.started.value.at <= at.value)
  }

  /** Each promise settles once: resolved exactly when that is due, rejected when that is due or after an abort. */
  predicate SettlementFits(h: Summary, id: nat, resolved: bool) {
    && id < |h.requests| && id !in h.settled
    && (h.open && h.started.Some? ==> h.started.value.id != id)
    && !h.due.AbortFirst?
    && (h.due.Resolve? ==> h.due == Resolve(id))
    && (resolved <==> h.due == Resolve(id))
    && (!resolved ==> h.due == Reject(id) || h.aborted)
    && (resolved ==> h.finished.Some? && h.finished.value.id == id && h.finished.value.ending == Success)
  }

  ghost predicate Fits(p: Policy, h: Summary, e: Event) {
    match e
    case Accepted(request) => request.id == |h.requests| && !h.aborted && h.due == Nothing
    case Guarded(id, attempt, _) => IsNext(h, id, attempt) && h.requests[id].guarded
    case Refused(id, attempt, reason) => IsNext(h, id, attempt) && ReasonFits(p, h.requests[id], reason)
    case Began(id, attempt, readyAt, at, _) =>
      && StartFits(p, h, id, attempt, readyAt, at) && h.due == Nothing
      && (h.requests[id].guarded ==> h.allowed == Some((id, attempt)))
    case Ended(id, attempt, at, _, clockFailed) =>
      EndFits(h, id, attempt, at) && h.due == Nothing && (at.None? ==> clockFailed)
    case Settled(id, resolved) => SettlementFits(h, id, resolved)
    case Aborted => !h.aborted && !h.due.Resolve?
    case Woken(_) => !h.open && h.due == Nothing && forall id :: 0 <= id < |h.requests| ==> id in h.settled
  }

  ghost predicate Lawful(p: Policy, log: seq<Event>) {
    log == [] || (Lawful(p, log[..|log| - 1]) && Fits(p, Summarized(log[..|log| - 1]), log[|log| - 1]))
  }

  lemma {:induction false} Append(p: Policy, log: seq<Event>, e: Event)
    requires Lawful(p, log) && Fits(p, Summarized(log), e)
    ensures Lawful(p, log + [e]) && Summarized(log + [e]) == Including(Summarized(log), e)
  {
    assert (log + [e])[..|log|] == log;
  }

  lemma {:induction false} PrefixLawful(p: Policy, log: seq<Event>, n: nat)
    requires Lawful(p, log) && n <= |log|
    ensures Lawful(p, log[..n]) && (n < |log| ==> Fits(p, Summarized(log[..n]), log[n]))
  {
    if n == |log| {
      assert log[..n] == log;
    } else {
      assert log[..|log| - 1][..n] == log[..n];
      if n < |log| - 1 {
        PrefixLawful(p, log[..|log| - 1], n);
      }
    }
  }

  // ----- what the rules say about any two events of a run

  /** The last start is no earlier, in time and in order, than any start before it. */
  lemma {:induction false} StartsBefore(p: Policy, log: seq<Event>, i: nat)
    requires Lawful(p, log) && i < |log| && log[i].Began?
    ensures Summarized(log).started.Some?
    ensures var last := Summarized(log).started.value;
      && log[i].at <= last.at
      && (log[i].id < last.id || (log[i].id == last.id && log[i].attempt <= last.attempt))
  {
    var n := |log| - 1;
    if i < n {
      StartsBefore(p, log[..n], i);
    }
  }

  /** Any two starts are at least the gap apart, and the earlier one is of an earlier request or an earlier attempt. */
  lemma {:induction false} StartsInOrder(p: Policy, log: seq<Event>, i: nat, j: nat)
    requires Lawful(p, log) && i < j < |log| && log[i].Began? && log[j].Began?
    ensures log[i].at + p.startGap <= log[j].at
    ensures log[i].id < log[j].id || (log[i].id == log[j].id && log[i].attempt < log[j].attempt)
  {
    PrefixLawful(p, log, j);
    assert log[..j][i] == log[i];
    StartsBefore(p, log[..j], i);
  }

  /** Reads get at most three attempts, everything else one, and never the same one twice. */
  lemma {:induction false} AttemptsAreFew(p: Policy, log: seq<Event>, j: nat)
    requires Lawful(p, log) && j < |log| && log[j].Began?
    ensures log[j].attempt <= 2
    ensures exists i :: 0 <= i < j && IsAcceptance(log[i], log[j].id, log[j].attempt)
    ensures forall i :: 0 <= i < |log| && log[i].Began? && log[i].id == log[j].id && log[i].attempt == log[j].attempt ==> i == j
  {
    PrefixLawful(p, log, j);
    var i := AcceptedBefore(p, log[..j], log[j].id);
    assert IsAcceptance(log[i], log[j].id, log[j].attempt);
    forall i | 0 <= i < |log| && log[i].Began? && log[i].id == log[j].id && log[i].attempt == log[j].attempt
      ensures i == j
    {
      if i < j {
        StartsInOrder(p, log, i, j);
      } else if j < i {
        StartsInOrder(p, log, j, i);
      }
    }
  }

  predicate IsAcceptance(e: Event, id: nat, attempt: nat) {
    e.Accepted? && e.request.id == id && (attempt > 0 ==> e.request.retriable)
  }

  lemma {:induction false} AcceptedBefore(p: Policy, log: seq<Event>, id: nat) returns (i: nat)
    requires Lawful(p, log) && id < |Summarized(log).requests|
    ensures i < |log| && log[i].Accepted? && log[i].request == Summarized(log).requests[id] && log[i].request.id == id
  {
    var n := |log| - 1;
    var before := Summarized(log[..n]);
    if log[n].Accepted? && id == |before.requests| {
      i := n;
    } else {
      i := AcceptedBefore(p, log[..n], id);
    }
  }

  /** Between two starts the first attempt ended, and a retry starts no earlier than its end plus the delay. */
  lemma {:induction false} EndsBetween(p: Policy, log: seq<Event>, i: nat) returns (k: nat)
    requires Lawful(p, log) && i < |log| && log[i].Began?
    requires !Summarized(log).open || Summarized(log).started != Some(Start(log[i].id, log[i].attempt, log[i].at))
    ensures i < k < |log| && log[k].Ended? && log[k].id == log[i].id && log[k].attempt == log[i].attempt
  {
    var n := |log| - 1;
    assert log[..n] + [log[n]] == log;
    if i < n {
      var before := Summarized(log[..n]);
      if before.open && before.started == Some(Start(log[i].id, log[i].attempt, log[i].at)) {
        k := n;
      } else {
        k := EndsBetween(p, log[..n], i);
      }
    }
  }

  lemma {:induction false} OneAttemptAtATime(p: Policy, log: seq<Event>, i: nat, j: nat) returns (k: nat)
    requires Lawful(p, log) && i < j < |log| && log[i].Began? && log[j].Began?
    ensures i < k < j && log[k].Ended? && log[k].id == log[i].id && log[k].attempt == log[i].attempt
  {
    PrefixLawful(p, log, j);
    k := EndsBetween(p, log[..j], i);
  }

  lemma {:induction false} FinishRecorded(p: Policy, log: seq<Event>) returns (k: nat)
    requires Lawful(p, log) && Summarized(log).finished.Some?
    ensures k < |log| && log[k].Ended?
    ensures Summarized(log).finished.value == Finish(log[k].id, log[k].attempt, log[k].endedAt, log[k].ending)
  {
    var n := |log| - 1;
    if log[n].Ended? {
      k := n;
    } else {
      k := FinishRecorded(p, log[..n]);
    }
  }

  /** Every retry follows a temporary failure of the attempt before it by at least the delay. */
  lemma {:induction false} RetriesBackOff(p: Policy, log: seq<Event>, j: nat) returns (k: nat)
    requires Lawful(p, log) && j < |log| && log[j].Began? && log[j].attempt > 0
    ensures k < j && log[k].Ended? && log[k].id == log[j].id && log[k].attempt == log[j].attempt - 1
    ensures Temporary(log[k].ending) && log[k].endedAt.Some?
    ensures log[k].endedAt.value + BackoffAfter(p, log[j].attempt - 1) <= log[j].readyAt <= log[j].at
  {
    PrefixLawful(p, log, j);
    k := FinishRecorded(p, log[..j]);
  }

  lemma {:induction false} AbortStays(p: Policy, log: seq<Event>, i: nat)
    requires Lawful(p, log) && i < |log| && log[i].Aborted?
    ensures Summarized(log).aborted
  {
    var n := |log| - 1;
    if i < n {
      AbortStays(p, log[..n], i);
    }
  }

  /** After an abort nothing is accepted and no attempt starts. */
  lemma {:induction false} NothingAfterAbort(p: Policy, log: seq<Event>, i: nat, j: nat)
    requires Lawful(p, log) && i < j < |log| && log[i].Aborted?
    ensures !log[j].Began? && !log[j].Accepted?
  {
    PrefixLawful(p, log, j);
    AbortStays(p, log[..j], i);
  }

  lemma {:induction false} SettledStays(p: Policy, log: seq<Event>, i: nat)
    requires Lawful(p, log) && i < |log| && log[i].Settled?
    ensures log[i].id in Summarized(log).settled
  {
    var n := |log| - 1;
    if i < n {
      SettledStays(p, log[..n], i);
    }
  }

  /** A request settles at most once, and no attempt of it starts afterwards. */
  lemma {:induction false} SettledForGood(p: Policy, log: seq<Event>, i: nat, j: nat)
    requires Lawful(p, log) && i < j < |log| && log[i].Settled?
    ensures (log[j].Settled? || log[j].Began?) ==> log[j].id != log[i].id
  {
    PrefixLawful(p, log, j);
    SettledStays(p, log[..j], i);
  }

  /** Whoever waits for the scheduler to be idle is woken only when every accepted request has settled. */
  lemma {:induction false} WokenWhenDrained(p: Policy, log: seq<Event>, i: nat, j: nat) returns (k: nat)
    requires Lawful(p, log) && i < j < |log| && log[i].Accepted? && log[j].Woken?
    ensures k < j && log[k].Settled? && log[k].id == log[i].request.id
  {
    PrefixLawful(p, log, j);
    RequestStays(p, log[..j], i);
    k := SettlementOf(p, log[..j], log[i].request.id);
  }

  lemma {:induction false} RequestStays(p: Policy, log: seq<Event>, i: nat)
    requires Lawful(p, log) && i < |log| && log[i].Accepted?
    ensures log[i].request.id < |Summarized(log).requests|
  {
    var n := |log| - 1;
    if i < n {
      RequestStays(p, log[..n], i);
    }
  }

  lemma {:induction false} SettlementOf(p: Policy, log: seq<Event>, id: nat) returns (k: nat)
    requires Lawful(p, log) && id in Summarized(log).settled
    ensures k < |log| && log[k].Settled? && log[k].id == id
  {
    var n := |log| - 1;
    if log[n].Settled? && log[n].id == id {
      k := n;
    } else {
      k := SettlementOf(p, log[..n], id);
    }
  }

  // ----- how requests end

  /** The last event is a start, so the attempt it begins is the one that is open and its observer's fate is known. */
  lemma {:induction false} ObservedAsBegun(p: Policy, log: seq<Event>, i: nat)
    requires Lawful(p, log) && i < |log| && log[i].Began?
    requires Summarized(log).started == Some(Start(log[i].id, log[i].attempt, log[i].at))
    ensures Summarized(log).observed == log[i].observed
  {
    var n := |log| - 1;
    if i < n {
      if log[n].Began? {
        StartsInOrder(p, log, i, n);
        assert false;
      }
      ObservedAsBegun(p, log[..n], i);
    }
  }

  /** The attempt that ends is the one that a start earlier in the log began. */
  lemma {:induction false} EndsWhatBegan(p: Policy, log: seq<Event>, i: nat, k: nat)
    requires Lawful(p, log) && i < k < |log| && log[i].Began? && log[k].Ended?
    requires log[i].id == log[k].id && log[i].attempt == log[k].attempt
    ensures var h := Summarized(log[..k]);
      && Fits(p, h, log[k]) && h.observed == log[i].observed
      && h.started == Some(Start(log[i].id, log[i].attempt, log[i].at))
  {
    PrefixLawful(p, log, k);
    var before := log[..k];
    var j := LastStart(p, before);
    if j != i {
      if j < i {
        StartsInOrder(p, before, j, i);
      } else {
        StartsInOrder(p, before, i, j);
      }
      assert false;
    }
    ObservedAsBegun(p, before, i);
  }

  lemma {:induction false} LastStart(p: Policy, log: seq<Event>) returns (j: nat)
    requires Lawful(p, log) && Summarized(log).started.Some?
    ensures j < |log| && log[j].Began? && Summarized(log).started == Some(Start(log[j].id, log[j].attempt, log[j].at))
  {
    var n := |log| - 1;
    if log[n].Began? {
      j := n;
    } else {
      j := LastStart(p, log[..n]);
    }
  }

  lemma {:induction false} OneMore(log: seq<Event>, k: nat)
    requires k < |log|
    ensures Summarized(log[..k + 1]) == Including(Summarized(log[..k]), log[k])
  {
    assert log[..k + 1][..k] == log[..k];
  }

  /** The event ends the attempt, with the clock in order. */
  predicate EndsInOrder(e: Event, id: nat, attempt: nat) {
    e.Ended? && e.id == id && e.attempt == attempt && !e.clockFailed
  }

  /**
   An attempt whose start was observed and that ends in success, with the clock in
   order, resolves its request's promise: that is the very next event.
   */
  lemma {:induction false} SuccessResolves(p: Policy, log: seq<Event>, i: nat, k: nat)
    requires Lawful(p, log) && Summarized(log).due == Nothing
    requires i < k < |log| && log[i].Began? && log[i].observed
    requires EndsInOrder(log[k], log[i].id, log[i].attempt) && log[k].ending == Success
    ensures k + 1 < |log| && log[k + 1] == Settled(log[i].id, true)
  {
    assert log[..|log|] == log;
    EndsWhatBegan(p, log, i, k);
    OneMore(log, k);
    assert Summarized(log[..k + 1]).due == Resolve(log[i].id);
    PrefixLawful(p, log, k + 1);
  }

  /** And nothing else resolves one: a resolved promise directly follows a success of its request. */
  lemma {:induction false} ResolvedBySuccess(p: Policy, log: seq<Event>, j: nat)
    requires Lawful(p, log) && j < |log| && log[j].Settled? && log[j].resolved
    ensures j > 0 && log[j - 1].Ended? && log[j - 1].id == log[j].id
    ensures log[j - 1].endedAt.Some? && log[j - 1].ending == Success && !log[j - 1].clockFailed
  {
    PrefixLawful(p, log, j);
    assert j > 0;
    PrefixLawful(p, log, j - 1);
    OneMore(log, j - 1);
  }

  /** What may come in the way of another attempt. */
  predicate InTheWay(e: Event, id: nat, attempt: nat) {
    || e.Aborted?
    || (e.Guarded? && e.id == id && e.attempt == attempt && !e.allowed)
    || (e.Refused? && e.id == id && e.attempt == attempt)
  }

  predicate Begins(e: Event, id: nat, attempt: nat) {
    e.Began? && e.id == id && e.attempt == attempt
  }

  /** The request waits for its attempt `n`, or other requests have been started since. */
  predicate AwaitsAttempt(h: Summary, id: nat, n: nat) {
    && n > 0 && id < |h.requests| && id !in h.settled && !h.aborted
    && h.due != Reject(id) && h.due != Resolve(id) && h.due != AbortFirst(id)
    && h.started.Some?
    && ((h.started.value.id == id && h.started.value.attempt == n - 1 && !h.open) || id < h.started.value.id)
  }

  lemma {:induction false} StillAwaits(p: Policy, h: Summary, e: Event, id: nat, n: nat)
    requires AwaitsAttempt(h, id, n) && Fits(p, h, e) && !InTheWay(e, id, n) && !Begins(e, id, n)
    ensures AwaitsAttempt(Including(h, e), id, n) && !(e.Settled? && e.id == id)
  {
  }

  /** Without a start of the attempt and with nothing in its way, the request goes on waiting. */
  lemma {:induction false} GoesOnWaiting(p: Policy, log: seq<Event>, k: nat, m: nat, id: nat, n: nat)
    requires Lawful(p, log) && k < m <= |log| && AwaitsAttempt(Summarized(log[..k + 1]), id, n)
    requires forall l :: k < l < m ==> !InTheWay(log[l], id, n) && !Begins(log[l], id, n)
    ensures AwaitsAttempt(Summarized(log[..m]), id, n)
    decreases m
  {
    if k + 1 < m {
      GoesOnWaiting(p, log, k, m - 1, id, n);
      PrefixLawful(p, log, m - 1);
      OneMore(log, m - 1);
      StillAwaits(p, Summarized(log[..m - 1]), log[m - 1], id, n);
    }
  }

  /** An accepted request is remembered as it was accepted. */
  lemma {:induction false} AcceptedStays(p: Policy, log: seq<Event>, a: nat)
    requires Lawful(p, log) && a < |log| && log[a].Accepted?
    ensures var h := Summarized(log);
      log[a].request.id < |h.requests| && h.requests[log[a].request.id] == log[a].request
  {
    var n := |log| - 1;
    if a < n {
      AcceptedStays(p, log[..n], a);
    }
  }

  lemma {:induction false} NoAbort(log: seq<Event>)
    requires forall l :: 0 <= l < |log| ==> !log[l].Aborted?
    ensures !Summarized(log).aborted
  {
    if log != [] {
      NoAbort(log[..|log| - 1]);
    }
  }

  /**
   A temporary failure of a retriable request with attempts left, before any abort and
   with the clock in order, is tried again: before the request settles, its next attempt
   begins, unless an abort, its guard or a refusal comes in the way.
   */
  lemma {:induction false} TemporaryFailureIsRetried(p: Policy, log: seq<Event>, a: nat, i: nat, k: nat, m: nat) returns (l: nat)
    requires Lawful(p, log) && a < i < k < m < |log|
    requires log[a].Accepted? && log[a].request.retriable
    requires log[i].Began? && log[i].observed && log[i].id == log[a].request.id && log[i].attempt < 2
    requires EndsInOrder(log[k], log[i].id, log[i].attempt) && Temporary(log[k].ending)
    requires forall b :: 0 <= b < k ==> !log[b].Aborted?
    requires log[m].Settled? && log[m].id == log[i].id
    ensures k < l < m
    ensures Begins(log[l], log[i].id, log[i].attempt + 1) || InTheWay(log[l], log[i].id, log[i].attempt + 1)
  {
    var id, n := log[i].id, log[i].attempt + 1;
    FailureAwaitsAttempt(p, log, a, i, k);
    hide Lawful, Summarized, AwaitsAttempt, Fits;
    if l' :| k < l' < m && (InTheWay(log[l'], id, n) || Begins(log[l'], id, n)) {
      l := l';
    } else {
      GoesOnWaiting(p, log, k, m, id, n);
      PrefixLawful(p, log, m);
      StillAwaits(p, Summarized(log[..m]), log[m], id, n);
      assert false;
    }
  }

  lemma {:induction false} FailureAwaitsAttempt(p: Policy, log: seq<Event>, a: nat, i: nat, k: nat)
    requires Lawful(p, log) && a < i < k < |log|
    requires log[a].Accepted? && log[a].request.retriable
    requires log[i].Began? && log[i].observed && log[i].id == log[a].request.id && log[i].attempt < 2
    requires EndsInOrder(log[k], log[i].id, log[i].attempt) && Temporary(log[k].ending)
    requires forall b :: 0 <= b < k ==> !log[b].Aborted?
    ensures AwaitsAttempt(Summarized(log[..k + 1]), log[i].id, log[i].attempt + 1)
  {
    EndsWhatBegan(p, log, i, k);
    PrefixLawful(p, log, k);
    OneMore(log, k);
    UnsettledWhileOpen(p, log[..k]);
    AcceptedStays(p, log[..k], a);
    NoAbort(log[..k]);
  }

  lemma {:induction false} UnsettledWhileOpen(p: Policy, log: seq<Event>)
    requires Lawful(p, log) && Summarized(log).open
    ensures Summarized(log).started.Some?
    ensures Summarized(log).started.value.id < |Summarized(log).requests|
    ensures Summarized(log).started.value.id !in Summarized(log).settled
  {
    var n := |log| - 1;
    if !log[n].Began? {
      UnsettledWhileOpen(p, log[..n]);
    }
  }

  /** Given up: its guard or a refusal stopped the request. */
  predicate Stops(e: Event, id: nat) {
    (e.Guarded? && e.id == id && !e.allowed) || (e.Refused? && e.id == id)
  }

  predicate Abandoned(h: Summary, id: nat) {
    h.due == Reject(id) || id in h.settled
  }

  lemma {:induction false} AbandonedForGood(p: Policy, h: Summary, e: Event, id: nat)
    requires Abandoned(h, id) && Fits(p, h, e)
    ensures Abandoned(Including(h, e), id) && !(e.Began? && e.id == id)
  {
  }

  /** No attempt of the request begins after event `k` and before event `m`. */
  predicate NoStart(log: seq<Event>, k: nat, m: nat, id: nat)
    requires m <= |log|
  {
    forall l :: k < l < m ==> !(log[l].Began? && log[l].id == id)
  }

  lemma {:induction false} NoStartYet(log: seq<Event>, k: nat, m: nat, id: nat)
    requires k < m <= |log|
    ensures m == k + 1 ==> NoStart(log, k, m, id)
    ensures m > k + 1 && NoStart(log, k, m - 1, id) && !(log[m - 1].Began? && log[m - 1].id == id) ==> NoStart(log, k, m, id)
  {
  }

  lemma {:induction false} RejectionStaysDue(p: Policy, log: seq<Event>, k: nat, m: nat, id: nat)
    requires Lawful(p, log) && k < m <= |log| && Stops(log[k], id)
    ensures Abandoned(Summarized(log[..m]), id) && NoStart(log, k, m, id)
    decreases m
  {
    NoStartYet(log, k, m, id);
    OneMore(log, m - 1);
    if k + 1 < m {
      hide Lawful, Summarized, Including, Fits, Abandoned, NoStart;
      RejectionStaysDue(p, log, k, m - 1, id);
      PrefixLawful(p, log, m - 1);
      AbandonedForGood(p, Summarized(log[..m - 1]), log[m - 1], id);
    }
  }

  /** A request that its guard or a refusal stopped starts no attempt any more, and is rejected. */
  lemma {:induction false} StoppedIsRejected(p: Policy, log: seq<Event>, k: nat, id: nat) returns (j: nat)
    requires Lawful(p, log) && Summarized(log).due == Nothing && k < |log| && Stops(log[k], id)
    ensures j < |log| && log[j] == Settled(id, false)
    ensures NoStart(log, k, |log|, id)
  {
    assert log[..|log|] == log;
    RejectionStaysDue(p, log, k, |log|, id);
    j := SettlementOf(p, log, id);
    if log[j].resolved {
      NotResolvedWhenStopped(p, log, k, id, j);
    }
  }

  lemma {:induction false} NotResolvedWhenStopped(p: Policy, log: seq<Event>, k: nat, id: nat, j: nat)
    requires Lawful(p, log) && k < |log| && Stops(log[k], id) && j < |log| && log[j].Settled? && log[j].id == id
    ensures !log[j].resolved
  {
    PrefixLawful(p, log, k);
    if j < k {
      assert log[..k][j] == log[j];
      SettledStays(p, log[..k], j);
      assert false;
    } else {
      RejectionStaysDue(p, log, k, j, id);
      PrefixLawful(p, log, j);
    }
  }

  lemma {:induction false} AllowanceRecorded(p: Policy, log: seq<Event>) returns (i: nat)
    requires Lawful(p, log) && Summarized(log).allowed.Some?
    ensures i < |log| && log[i].Guarded? && log[i].allowed
    ensures Summarized(log).allowed == Some((log[i].id, log[i].attempt))
  {
    var n := |log| - 1;
    if log[n].Guarded? && log[n].allowed {
      i := n;
    } else {
      i := AllowanceRecorded(p, log[..n]);
    }
  }

  /** Every attempt of a guarded request was allowed by its guard, asked for that attempt. */
  lemma {:induction false} GuardsAreAsked(p: Policy, log: seq<Event>, a: nat, j: nat) returns (i: nat)
    requires Lawful(p, log) && a < j < |log| && log[a].Accepted? && log[a].request.guarded
    requires log[j].Began? && log[j].id == log[a].request.id
    ensures i < j && log[i] == Guarded(log[j].id, log[j].attempt, true)
  {
    PrefixLawful(p, log, j);
    AcceptedStays(p, log[..j], a);
    i := AllowanceRecorded(p, log[..j]);
  }

  /** What rejects a promise: an abort, what stops its request, or an end that is neither a clean success nor retried. */
  predicate Rejects(e: Event, id: nat) {
    e.Aborted? || Stops(e, id) || (e.Ended? && e.id == id)
  }

  lemma {:induction false} DueSince(p: Policy, log: seq<Event>, id: nat) returns (i: nat)
    requires Lawful(p, log) && (Summarized(log).due == Reject(id) || Summarized(log).aborted)
    ensures i < |log| && Rejects(log[i], id)
  {
    var n := |log| - 1;
    if log[n].Aborted? || Stops(log[n], id) || (log[n].Ended? && log[n].id == id) {
      i := n;
    } else {
      i := DueSince(p, log[..n], id);
    }
  }

  /** No promise is rejected without a cause. */
  lemma {:induction false} RejectionsHaveCauses(p: Policy, log: seq<Event>, j: nat) returns (i: nat)
    requires Lawful(p, log) && j < |log| && log[j].Settled? && !log[j].resolved
    ensures i < j && Rejects(log[i], log[j].id)
  {
    PrefixLawful(p, log, j);
    i := DueSince(p, log[..j], log[j].id);
  }

  // ----- one request's attempts

  /** When the scheduler was ready to start an attempt, and when it started. */
  datatype Attempt = Attempt(readyAt: int, at: int)

  /** Attempt `k` keeps to the request's own limits and to the delay after the attempt before it. */
  predicate AttemptFits(p: Policy, r: Request, attempts: seq<Attempt>, k: nat)
    requires k < |attempts|
  {
    var a := attempts[k];
    && a.readyAt <= a.at
    && (r.deadline.Some? ==> a.readyAt + p.timeout + r.cleanup <= r.deadline.value)
    && (k == 0 && r.notBefore.Some? ==> r.notBefore.value <= a.readyAt)
    && (k > 0 ==> attempts[k - 1].at + BackoffAfter(p, k - 1) <= a.readyAt)
  }

  ghost predicate RequestAttempts(p: Policy, r: Request, attempts: seq<Attempt>) {
    |attempts| <= 3 && forall k :: 0 <= k < |attempts| ==> AttemptFits(p, r, attempts, k)
  }

  /** The attempts of a request so far, first to last. */
  function AttemptsOf(log: seq<Event>, id: nat): seq<Attempt> {
    if log == [] then []
    else
      var e := log[|log| - 1];
      AttemptsOf(log[..|log| - 1], id) + if e.Began? && e.id == id then [Attempt(e.readyAt, e.at)] else []
  }

  /** The last start, and its end, are those of the request's last attempt; a request not yet reached has none. */
  predicate LastAttempt(h: Summary, id: nat, attempts: seq<Attempt>) {
    && (h.started.Some? && h.started.value.id == id ==>
          |attempts| == h.started.value.attempt + 1 && attempts[|attempts| - 1].at == h.started.value.at)
    && ((h.started.Some? ==> h.started.value.id < id) ==> attempts == [])
    && (h.open ==> h.started.Some?)
    && (!h.open && EndedLast(h) ==> h.started.value.at <= h.finished.value.at.value)
  }

  /** What finished last is the attempt that started last, and it is known when. */
  predicate EndedLast(h: Summary) {
    && h.started.Some? && h.finished.Some? && h.finished.value.at.Some?
    && h.finished.value.id == h.started.value.id && h.finished.value.attempt == h.started.value.attempt
  }

  lemma {:induction false} LastAttemptKnown(p: Policy, log: seq<Event>, id: nat)
    requires Lawful(p, log)
    ensures LastAttempt(Summarized(log), id, AttemptsOf(log, id))
  {
    if log != [] {
      LastAttemptKnown(p, log[..|log| - 1], id);
    }
  }

  /** Who waits for one request sees attempts that fit, whatever else the scheduler does. */
  lemma {:induction false} AttemptsOfOneRequest(p: Policy, log: seq<Event>, id: nat)
    requires Lawful(p, log) && id < |Summarized(log).requests|
    ensures RequestAttempts(p, Summarized(log).requests[id], AttemptsOf(log, id))
  {
    if log != [] {
      var n := |log| - 1;
      var h, e := Summarized(log[..n]), log[n];
      if id < |h.requests| {
        AttemptsOfOneRequest(p, log[..n], id);
        LastAttemptKnown(p, log[..n], id);
        assert Summarized(log).requests[id] == h.requests[id];
        if e.Began? && e.id == id {
          assert AttemptsOf(log, id) == AttemptsOf(log[..n], id) + [Attempt(e.readyAt, e.at)];
          hide Lawful, Summarized, AttemptsOf;
          OneMoreAttempt(p, h, AttemptsOf(log[..n], id), e);
        } else {
          assert AttemptsOf(log, id) == AttemptsOf(log[..n], id);
        }
      } else {
        NoAttemptYet(p, log, id);
      }
    }
  }

  lemma {:induction false} OneMoreAttempt(p: Policy, h: Summary, attempts: seq<Attempt>, e: Event)
    requires e.Began? && StartFits(p, h, e.id, e.attempt, e.readyAt, e.at)
    requires RequestAttempts(p, h.requests[e.id], attempts) && LastAttempt(h, e.id, attempts)
    ensures RequestAttempts(p, h.requests[e.id], attempts + [Attempt(e.readyAt, e.at)])
  {
    var next := attempts + [Attempt(e.readyAt, e.at)];
    forall k | 0 <= k < |next|
      ensures AttemptFits(p, h.requests[e.id], next, k)
    {
      assert k < |attempts| ==> AttemptFits(p, h.requests[e.id], attempts, k);
    }
  }

  lemma {:induction false} NoAttemptYet(p: Policy, log: seq<Event>, id: nat)
    requires Lawful(p, log) && log != [] && id >= |Summarized(log[..|log| - 1]).requests|
    ensures AttemptsOf(log, id) == []
  {
    var n := |log| - 1;
    if n > 0 && log[..n] != [] {
      assert log[..n][..n - 1] == log[..n - 1];
      FewerRequests(log[..n]);
      NoAttemptYet(p, log[..n], id);
    }
  }

  lemma {:induction false} FewerRequests(log: seq<Event>)
    requires log != []
    ensures |Summarized(log[..|log| - 1]).requests| <= |Summarized(log).requests|
  {
  }
}
