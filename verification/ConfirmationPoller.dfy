/**
 Waiting for a signature to be finalized: status requests go through the
 scheduler, at least the poll interval apart, until the deadline has no room for
 another (scripts/devnet/upload-execution-command.mjs).
 */
module ConfirmationPoller {
  import opened Outcomes
  import opened SchedulerLog

  const POLL_INTERVAL: nat := 2000

  datatype Status = Status(err: bool, finalized: bool)

  /** A response with or without a status, the scheduler's refusal of a further attempt, or any other error. */
  datatype Reply = Response(status: Option<Status>) | DeadlineExhausted | Thrown

  datatype Result = Confirmed(status: Status) | NoStatus | Failed

  /** Attempts at least the poll interval apart, each with room for a whole request before the deadline. */
  ghost predicate Polled(attempts: seq<Attempt>, since: int, deadline: int, timeout: nat) {
    && (forall k :: 0 <= k < |attempts| ==> PollFits(attempts, k, deadline, timeout))
    && (|attempts| > 0 ==> since <= attempts[0].readyAt)
  }

  predicate PollFits(attempts: seq<Attempt>, k: nat, deadline: int, timeout: nat)
    requires k < |attempts|
  {
    && attempts[k].readyAt <= attempts[k].at
    && attempts[k].readyAt + timeout <= deadline
    && (k > 0 ==> attempts[k - 1].at + POLL_INTERVAL <= attempts[k].readyAt)
  }

  /** How many attempts fit between the first reading of the clock and the deadline. */
  function MostAttempts(timeoutMs: int, requestTimeout: nat): nat {
    if timeoutMs < requestTimeout then 0 else (timeoutMs - requestTimeout) / POLL_INTERVAL + 1
  }

  lemma {:induction false} AttemptIsLate(attempts: seq<Attempt>, since: int, deadline: int, timeout: nat, k: nat)
    requires Polled(attempts, since, deadline, timeout) && k < |attempts|
    ensures since + k * POLL_INTERVAL <= attempts[k].readyAt
  {
    assert PollFits(attempts, k, deadline, timeout);
    if k > 0 {
      AttemptIsLate(attempts, since, deadline, timeout, k - 1);
      assert PollFits(attempts, k - 1, deadline, timeout);
    }
  }

  /** Spaced attempts that all leave room for a request cannot be many. */
  lemma {:induction false} AttemptsAreBounded(attempts: seq<Attempt>, since: int, timeoutMs: int, requestTimeout: nat)
    requires Polled(attempts, since, since + timeoutMs, requestTimeout)
    ensures |attempts| <= MostAttempts(timeoutMs, requestTimeout)
  {
    if attempts != [] {
      var k := |attempts| - 1;
      AttemptIsLate(attempts, since, since + timeoutMs, requestTimeout, k);
      assert PollFits(attempts, k, since + timeoutMs, requestTimeout);
      assert k * POLL_INTERVAL <= timeoutMs - requestTimeout;
    }
  }

  /** Any two attempts start at least the interval apart. */
  lemma {:induction false} AttemptsAreSpaced(attempts: seq<Attempt>, since: int, deadline: int, timeout: nat, i: nat, j: nat)
    requires Polled(attempts, since, deadline, timeout) && i < j < |attempts|
    ensures attempts[i].at + POLL_INTERVAL <= attempts[j].at
    decreases j
  {
    assert PollFits(attempts, j, deadline, timeout);
    if i < j - 1 {
      AttemptsAreSpaced(attempts, since, deadline, timeout, i, j - 1);
    }
  }

  lemma {:induction false} GrantMore(p: Policy, r: Request, made: seq<Attempt>, a: Attempt)
    requires RequestAttempts(p, r, made) && |made| < 3
    requires AttemptFits(p, r, made + [a], |made|)
    ensures RequestAttempts(p, r, made + [a])
  {
    forall k | 0 <= k < |made|
      ensures AttemptFits(p, r, made + [a], k)
    {
      assert AttemptFits(p, r, made, k);
    }
  }

  /** The scheduler and the clock as one caller meets them; other callers' requests come in between unseen. */
  class Requests {
    const policy: Policy
    var clock: int
    var lastAttemptStart: Option<int>
    ghost var attempts: seq<Attempt>
    /** What each status request came back with. */
    ghost var replies: seq<Reply>

    ghost predicate Valid()
      reads this
    {
      && policy.firstBackoff >= POLL_INTERVAL && policy.secondBackoff >= POLL_INTERVAL
      && (lastAttemptStart.Some? <==> attempts != [])
      && (attempts != [] ==>
            lastAttemptStart.value == attempts[|attempts| - 1].at && lastAttemptStart.value <= clock)
    }

    constructor (policy: Policy, now: int)
      requires policy.firstBackoff >= POLL_INTERVAL && policy.secondBackoff >= POLL_INTERVAL
      ensures Valid() && attempts == [] && replies == [] && this.policy == policy && clock == now
    {
      this.policy, clock, lastAttemptStart, attempts, replies := policy, now, None, [], [];
    }

    method Now() returns (now: int)
      requires Valid()
      modifies `clock
      ensures Valid() && old(clock) <= now == clock
    {
      var later: int :| clock <= later;
      clock := later;
      return later;
    }

    /** One attempt, unless it would leave no room for a whole request before the deadline. */
    method MakeAttempt(earliest: int, deadline: int) returns (made: Option<Attempt>)
      requires Valid() && clock <= earliest
      modifies `clock, `lastAttemptStart, `attempts
      ensures Valid() && old(clock) <= clock
      ensures made.None? ==> attempts == old(attempts)
      ensures made.Some? ==>
        && attempts == old(attempts) + [made.value]
        && earliest <= made.value.readyAt <= made.value.at <= clock
        && made.value.readyAt + policy.timeout <= deadline
    {
      var readyAt: int :| earliest <= readyAt;
      if readyAt + policy.timeout > deadline {
        clock := readyAt;
        return None;
      }
      var at: int :| readyAt <= at;
      var endedAt: int :| at <= endedAt;
      made := Some(Attempt(readyAt, at));
      attempts := attempts + [Attempt(readyAt, at)];
      lastAttemptStart, clock := Some(at), endedAt;
    }

    /**
     One status request. Its attempts are what the scheduler grants a retriable
     request with this deadline and this earliest time; a response comes from an attempt.
     */
    method GetStatus(deadline: int, notBefore: Option<int>) returns (reply: Reply)
      requires Valid()
      modifies this
      ensures Valid() && old(clock) <= clock && replies == old(replies) + [reply]
      ensures old(attempts) <= attempts
      ensures RequestAttempts(policy, Request(0, true, false, notBefore, Some(deadline), 0), attempts[|old(attempts)|..])
      ensures |attempts| > |old(attempts)| ==> old(clock) <= attempts[|old(attempts)|].readyAt
      ensures reply.Response? ==> |attempts| > |old(attempts)|
    {
      reply := RequestStatus(deadline, notBefore);
      replies := replies + [reply];
    }

    method RequestStatus(deadline: int, notBefore: Option<int>) returns (reply: Reply)
      requires Valid()
      modifies `clock, `lastAttemptStart, `attempts
      ensures Valid() && old(clock) <= clock
      ensures old(attempts) <= attempts
      ensures RequestAttempts(policy, Request(0, true, false, notBefore, Some(deadline), 0), attempts[|old(attempts)|..])
      ensures |attempts| > |old(attempts)| ==> old(clock) <= attempts[|old(attempts)|].readyAt
      ensures reply.Response? ==> |attempts| > |old(attempts)|
    {
      ghost var request := Request(0, true, false, notBefore, Some(deadline), 0);
      ghost var made: seq<Attempt> := [];
      assert RequestAttempts(policy, request, made);
      hide RequestAttempts, BackoffAfter;
      var earliest := if notBefore.Some? && notBefore.value > clock then notBefore.value else clock;
      for n := 0 to 3
        invariant Valid() && old(clock) <= clock <= earliest
        invariant old(attempts) <= attempts && attempts[|old(attempts)|..] == made
        invariant |made| == n && RequestAttempts(policy, request, made)
        invariant n == 0 && notBefore.Some? ==> notBefore.value <= earliest
        invariant n > 0 ==> made[n - 1].at + BackoffAfter(policy, n - 1) <= earliest && old(clock) <= made[0].readyAt
      {
        var refused: bool := *;
        if refused {
          return Thrown;
        }
        var attempt := MakeAttempt(earliest, deadline);
        if attempt.None? {
          return DeadlineExhausted;
        }
        GrantMore(policy, request, made, attempt.value);
        made := made + [attempt.value];
        assert attempts[|old(attempts)|..] == made;
        reply :| true;
        var retried: bool := *;
        if !retried && reply != DeadlineExhausted {
          return reply;
        }
        earliest := clock + BackoffAfter(policy, n);
      }
      return Thrown;
    }
  }

  /** One more request's attempts carry the spacing on, across requests and across its own retries. */
  lemma {:induction false} MoreArePolled(
    p: Policy, before: seq<Attempt>, after: seq<Attempt>, since: int, deadline: int, notBefore: Option<int>)
    requires p.firstBackoff >= POLL_INTERVAL && p.secondBackoff >= POLL_INTERVAL
    requires Polled(before, since, deadline, p.timeout) && before <= after
    requires RequestAttempts(p, Request(0, true, false, notBefore, Some(deadline), 0), after[|before|..])
    requires before == [] && after != [] ==> since <= after[0].readyAt
    requires before != [] ==> notBefore == Some(before[|before| - 1].at + POLL_INTERVAL)
    ensures Polled(after, since, deadline, p.timeout)
  {
    var request, more := Request(0, true, false, notBefore, Some(deadline), 0), after[|before|..];
    forall k | 0 <= k < |after|
      ensures PollFits(after, k, deadline, p.timeout)
    {
      if k < |before| {
        assert PollFits(before, k, deadline, p.timeout);
      } else {
        assert AttemptFits(p, request, more, k - |before|);
        assert after[k] == more[k - |before|];
        assert k > |before| ==> after[k - 1] == more[k - 1 - |before|];
      }
    }
  }

  /** The chain's word on the signature: an error, or finalized. */
  predicate Decides(reply: Reply) {
    reply.Response? && reply.status.Some? && (reply.status.value.err || reply.status.value.finalized)
  }

  /** Every reply but the last was a response that decided nothing. */
  predicate Undecided(replies: seq<Reply>) {
    forall k :: 0 <= k < |replies| ==> replies[k].Response? && !Decides(replies[k])
  }

  function AllButLast(replies: seq<Reply>): seq<Reply> {
    if replies == [] then [] else replies[..|replies| - 1]
  }

  /** No whole poll fits before the deadline any more. */
  predicate TimeIsUp(attempts: seq<Attempt>, clock: int, deadline: int) {
    deadline <= clock || (attempts != [] && deadline <= attempts[|attempts| - 1].at + POLL_INTERVAL)
  }

  /**
   Polls until a reply decides, an error is thrown, or the time is up. The status it
   returns is the chain's last reply, and no reply before it decided anything; it gives
   up without a status only when time is up or the scheduler has no room for a request.
   */
  method ConfirmSignature(requests: Requests, timeoutMs: int) returns (r: Result, ghost since: int)
    requires requests.Valid() && requests.attempts == [] && requests.replies == []
    modifies requests
    ensures Undecided(AllButLast(requests.replies))
    ensures r.Confirmed? <==> requests.replies != [] && Decides(requests.replies[|requests.replies| - 1])
    ensures r.Confirmed? ==> requests.replies[|requests.replies| - 1] == Response(Some(r.status))
    ensures r.Failed? <==> requests.replies != [] && requests.replies[|requests.replies| - 1] == Thrown
    ensures r.NoStatus? ==>
      || (requests.replies != [] && requests.replies[|requests.replies| - 1] == DeadlineExhausted)
      || TimeIsUp(requests.attempts, requests.clock, since + timeoutMs)
    ensures Polled(requests.attempts, since, since + timeoutMs, requests.policy.timeout)
    ensures |requests.attempts| <= MostAttempts(timeoutMs, requests.policy.timeout)
  {
    hide Polled, MostAttempts;
    var started := requests.Now();
    since := started;
    var deadline := started + timeoutMs;
    var now := requests.Now();
    NothingPolled(requests.attempts, started, deadline, requests.policy.timeout);
    while now < deadline
      invariant requests.Valid() && started <= requests.clock && now <= requests.clock
      invariant Polled(requests.attempts, started, deadline, requests.policy.timeout)
      invariant Undecided(requests.replies)
      decreases MostAttempts(timeoutMs, requests.policy.timeout) - |requests.attempts|
    {
      ghost var before, answered := requests.attempts, requests.replies;
      AttemptsAreBounded(before, started, timeoutMs, requests.policy.timeout);
      var notBefore :=
        if requests.lastAttemptStart.None? then None else Some(requests.lastAttemptStart.value + POLL_INTERVAL);
      var reply := requests.GetStatus(deadline, notBefore);
      assert AllButLast(requests.replies) == answered;
      MoreArePolled(requests.policy, before, requests.attempts, started, deadline, notBefore);
      AttemptsAreBounded(requests.attempts, started, timeoutMs, requests.policy.timeout);
      if reply == DeadlineExhausted {
        return NoStatus, since;
      }
      if reply == Thrown {
        return Failed, since;
      }
      if reply.status.Some? && (reply.status.value.err || reply.status.value.finalized) {
        return Confirmed(reply.status.value), since;
      }
      if requests.lastAttemptStart.value + POLL_INTERVAL >= deadline {
        return NoStatus, since;
      }
      now := requests.Now();
    }
    AttemptsAreBounded(requests.attempts, started, timeoutMs, requests.policy.timeout);
    return NoStatus, since;
  }

  lemma {:induction false} NothingPolled(attempts: seq<Attempt>, since: int, deadline: int, timeout: nat)
    requires attempts == []
    ensures Polled(attempts, since, deadline, timeout)
  {
  }
}
