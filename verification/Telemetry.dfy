/**
 A telemetry snapshot, the gaps computed from it, and what it still lacks before
 it may be called complete (scripts/devnet/upload-execution-telemetry.mjs).
 */
module Telemetry {
  import opened Outcomes
  import RpcLedger

  datatype Policy = Policy(
    preSignCooldown: nat, requestGap: nat, requestTimeout: nat, pollInterval: nat, chunkDelay: nat, retrySchedule: seq<nat>)

  /** Times are milliseconds since the execution started; the time stamps of the records follow from them. */
  datatype Request = Request(
    sequence: int, method_: RpcLedger.Method, start: int, end: Option<int>, outcome: Option<RpcLedger.Outcome>,
    retryNumber: int, signaturePersisted: bool)

  datatype Send = Send(
    chunkIndex: int, cooldownRequired: bool, cooldownStart: int, cooldownFinish: int,
    start: Option<int>, finish: Option<int>, succeeded: Option<bool>)

  datatype Poll = Poll(chunkIndex: int, requestSequence: int, start: int)

  datatype Lack =
    | Terminal | MinimumRequestGap | RequestGapPolicy | OpenRequest(sequence: int) | Unexpected(chunk: int)
    | SendOf(chunk: int) | SendRequestOf(chunk: int) | CooldownOf(chunk: int) | PollsOf(chunk: int)
    | NothingExpected | MinimumPollGap | PollGapPolicy

  datatype Snapshot = Snapshot(
    executionId: string, startedAt: string, finishedAt: Option<string>, origin: int, policy: Policy,
    requests: seq<Request>, sends: seq<Send>, polls: seq<Poll>, expected: seq<int>,
    requestGap: Option<int>, pollGap: Option<int>, timeouts: nat, missing: seq<Lack>, complete: bool)

  // ----- gaps

  function Difference(values: seq<int>, k: nat): int
    requires 0 < k < |values|
  {
    values[k] - values[k - 1]
  }

  /** The smallest difference between neighbours. */
  function MinimumGap(values: seq<int>): Option<int> {
    if |values| < 2 then None
    else
      var n := |values| - 1;
      var last, before := Difference(values, n), MinimumGap(values[..n]);
      if before.Some? && before.value < last then before else Some(last)
  }

  lemma {:induction false} MinimumGapIsLeast(values: seq<int>)
    ensures var gap := MinimumGap(values);
      && (gap.None? <==> |values| < 2)
      && (gap.Some? ==> forall k :: 0 < k < |values| ==> gap.value <= Difference(values, k))
      && (gap.Some? ==> exists k :: 0 < k < |values| && gap.value == Difference(values, k))
  {
    if |values| >= 2 {
      var n := |values| - 1;
      var before := values[..n];
      MinimumGapIsLeast(before);
      forall k | 0 < k < n
        ensures Difference(before, k) == Difference(values, k)
      {
      }
      if |before| >= 2 {
        var k :| 0 < k < n && MinimumGap(before).value == Difference(before, k);
        assert MinimumGap(before).value == Difference(values, k);
      }
      assert MinimumGap(values).value <= Difference(values, n);
      hide Difference;
    }
  }

  /** A least difference is the only least difference. */
  lemma {:induction false} LeastIsUnique(values: seq<int>, gap: int)
    requires |values| >= 2
    requires forall k :: 0 < k < |values| ==> gap <= Difference(values, k)
    requires exists k :: 0 < k < |values| && gap == Difference(values, k)
    ensures MinimumGap(values) == Some(gap)
  {
    MinimumGapIsLeast(values);
    hide MinimumGap, Difference;
  }

  method ComputedMinimumGap(values: seq<int>) returns (gap: Option<int>)
    ensures gap == MinimumGap(values)
  {
    if |values| < 2 {
      return None;
    }
    var minimum := Difference(values, 1);
    for index := 2 to |values|
      invariant forall k :: 0 < k < index ==> minimum <= Difference(values, k)
      invariant exists k :: 0 < k < index && minimum == Difference(values, k)
    {
      var gap := Difference(values, index);
      minimum := if gap < minimum then gap else minimum;
    }
    LeastIsUnique(values, minimum);
    return Some(minimum);
  }

  function Starts(requests: seq<Request>): (starts: seq<int>)
    ensures |starts| == |requests| && forall k :: 0 <= k < |requests| ==> starts[k] == requests[k].start
  {
    seq(|requests|, k requires 0 <= k < |requests| => requests[k].start)
  }

  /** When the polls of one chunk started, in order. */
  function PollStarts(polls: seq<Poll>, chunk: int): seq<int> {
    if polls == [] then []
    else
      var last := polls[|polls| - 1];
      PollStarts(polls[..|polls| - 1], chunk) + if last.chunkIndex == chunk then [last.start] else []
  }

  function ChunkGap(polls: seq<Poll>, chunk: int): Option<int> {
    MinimumGap(PollStarts(polls, chunk))
  }

  /** The smallest gap between polls of the same chunk; None when no chunk was polled twice. */
  ghost predicate IsMinimumPollGap(polls: seq<Poll>, gap: Option<int>) {
    && (gap.None? <==> forall c :: ChunkGap(polls, c).None?)
    && (gap.Some? ==>
          && (forall c :: ChunkGap(polls, c).Some? ==> gap.value <= ChunkGap(polls, c).value)
          && exists c :: ChunkGap(polls, c) == gap)
  }

  lemma {:induction false} UnpolledChunk(polls: seq<Poll>, chunk: int)
    requires forall k :: 0 <= k < |polls| ==> polls[k].chunkIndex != chunk
    ensures PollStarts(polls, chunk) == []
  {
    if polls != [] {
      UnpolledChunk(polls[..|polls| - 1], chunk);
    }
  }

  /** The starts of the polls so far, chunk by chunk. */
  ghost predicate Grouped(byChunk: map<int, seq<int>>, polls: seq<Poll>) {
    forall c :: StartsIn(byChunk, c) == PollStarts(polls, c)
  }

  function StartsIn(byChunk: map<int, seq<int>>, chunk: int): seq<int> {
    if chunk in byChunk then byChunk[chunk] else []
  }

  method GroupByChunk(polls: seq<Poll>) returns (byChunk: map<int, seq<int>>)
    ensures Grouped(byChunk, polls)
  {
    byChunk := map[];
    for i := 0 to |polls|
      invariant Grouped(byChunk, polls[..i])
    {
      assert polls[..i + 1][..i] == polls[..i];
      var chunk := polls[i].chunkIndex;
      byChunk := byChunk[chunk := StartsIn(byChunk, chunk) + [polls[i].start]];
    }
    assert polls[..|polls|] == polls;
  }

  method ComputedMinimumConfirmationGap(polls: seq<Poll>) returns (gap: Option<int>)
    ensures IsMinimumPollGap(polls, gap)
  {
    var byChunk := GroupByChunk(polls);
    gap := None;
    var left := byChunk.Keys;
    assert LeastOutside(polls, left, gap) by {
      forall c | c !in left
        ensures ChunkGap(polls, c).None?
      {
        assert StartsIn(byChunk, c) == PollStarts(polls, c);
      }
    }
    hide LeastOutside, ChunkGap, IsMinimumPollGap;
    while left != {}
      invariant left <= byChunk.Keys && LeastOutside(polls, left, gap)
      decreases left
    {
      var chunk := AnyOf(left);
      assert byChunk[chunk] == PollStarts(polls, chunk) by {
        assert StartsIn(byChunk, chunk) == PollStarts(polls, chunk);
      }
      var own := ComputedMinimumGap(byChunk[chunk]);
      LeastOutsideNext(polls, left, gap, chunk, own);
      left := left - {chunk};
      if own.Some? && (gap.None? || own.value < gap.value) {
        gap := own;
      }
    }
    NothingLeft(polls, gap);
  }

  method AnyOf(left: set<int>) returns (c: int)
    requires left != {}
    ensures c in left
  {
    assert exists c :: c in left by {
      assert (forall c :: c !in left) ==> left == {};
    }
    c :| c in left;
  }

  lemma {:induction false} NothingLeft(polls: seq<Poll>, gap: Option<int>)
    requires LeastOutside(polls, {}, gap)
    ensures IsMinimumPollGap(polls, gap)
  {
    hide ChunkGap;
  }

  /** The smallest gap among the chunks that are not left to look at. */
  ghost predicate LeastOutside(polls: seq<Poll>, left: set<int>, gap: Option<int>) {
    && (gap.None? ==> forall c :: c !in left ==> ChunkGap(polls, c).None?)
    && (gap.Some? ==>
          && (forall c :: c !in left && ChunkGap(polls, c).Some? ==> gap.value <= ChunkGap(polls, c).value)
          && exists c :: c !in left && ChunkGap(polls, c) == gap)
  }

  lemma {:induction false} LeastOutsideNext(
    polls: seq<Poll>, left: set<int>, gap: Option<int>, chunk: int, own: Option<int>)
    requires LeastOutside(polls, left, gap) && chunk in left && own == MinimumGap(PollStarts(polls, chunk))
    ensures LeastOutside(polls, left - {chunk}, if own.Some? && (gap.None? || own.value < gap.value) then own else gap)
  {
    assert own == ChunkGap(polls, chunk);
    hide ChunkGap, MinimumGap, PollStarts;
    if own.Some? && (gap.None? || own.value < gap.value) {
      assert chunk !in left - {chunk} && ChunkGap(polls, chunk) == own;
    } else if gap.Some? {
      var c :| c !in left && ChunkGap(polls, c) == gap;
      assert c !in left - {chunk};
    }
  }

  // ----- sends and their requests

  function Within(r: Request, send: Send): bool {
    && r.method_.SendRawTransaction?
    && send.start.Some? && send.start.value <= r.start
    && (send.finish.Some? ==> r.end.Some? && r.end.value <= send.finish.value)
  }

  function RequestsWithin(requests: seq<Request>, send: Send): (within: seq<Request>)
    ensures forall r :: r in within <==> r in requests && Within(r, send)
  {
    if requests == [] then []
    else
      var last, before := requests[|requests| - 1], RequestsWithin(requests[..|requests| - 1], send);
      assert forall r :: r in requests <==> r in requests[..|requests| - 1] || r == last;
      if Within(last, send) then before + [last] else before
  }

  /** The last send of the chunk. */
  function SendFor(sends: seq<Send>, chunk: int): (send: Option<Send>)
    ensures send.Some? ==> send.value in sends && send.value.chunkIndex == chunk
    ensures send.None? ==> forall s :: s in sends ==> s.chunkIndex != chunk
  {
    if sends == [] then None
    else if sends[|sends| - 1].chunkIndex == chunk then Some(sends[|sends| - 1])
    else
      assert forall s :: s in sends <==> s in sends[..|sends| - 1] || s == sends[|sends| - 1];
      SendFor(sends[..|sends| - 1], chunk)
  }

  predicate SendSucceeded(s: Snapshot, chunk: int) {
    var send := SendFor(s.sends, chunk);
    send.Some? && send.value.finish.Some? && send.value.succeeded == Some(true)
  }

  /** One send request lies within the send, and it succeeded. */
  predicate OneSendRequest(s: Snapshot, chunk: int) {
    var send := SendFor(s.sends, chunk);
    && send.Some?
    && var within := RequestsWithin(s.requests, send.value);
      |within| == 1 && within[0].end.Some? && within[0].outcome == Some(RpcLedger.Success)
  }

  predicate CooldownKept(s: Snapshot, chunk: int) {
    var send := SendFor(s.sends, chunk);
    send.Some? && send.value.cooldownRequired ==>
      send.value.cooldownFinish - send.value.cooldownStart >= s.policy.preSignCooldown
  }

  // ----- what is missing

  /** Whether a finished snapshot lacks the item. */
  ghost predicate Lacks(s: Snapshot, item: Lack) {
    match item
    case Terminal => false
    case MinimumRequestGap => |s.requests| < 2 || s.requestGap.None?
    case RequestGapPolicy => |s.requests| >= 2 && s.requestGap.Some? && s.requestGap.value < s.policy.requestGap
    case OpenRequest(sequence) => exists r :: r in s.requests && r.sequence == sequence && r.end.None?
    case Unexpected(chunk) => chunk !in s.expected && exists send :: send in s.sends && send.chunkIndex == chunk
    case SendOf(chunk) => chunk in s.expected && !SendSucceeded(s, chunk)
    case SendRequestOf(chunk) => chunk in s.expected && SendSucceeded(s, chunk) && !OneSendRequest(s, chunk)
    case CooldownOf(chunk) => chunk in s.expected && SendSucceeded(s, chunk) && !CooldownKept(s, chunk)
    case PollsOf(chunk) => chunk in s.expected && SendSucceeded(s, chunk) && |PollStarts(s.polls, chunk)| < 2
    case NothingExpected => s.expected == []
    case MinimumPollGap => s.pollGap.None?
    case PollGapPolicy => s.pollGap.Some? && s.pollGap.value < s.policy.pollInterval
  }

  /** Exactly the lacks of a finished snapshot, each of them, and nothing else. */
  ghost predicate ListsLacks(s: Snapshot, missing: seq<Lack>) {
    if s.finishedAt.None? then missing == [Terminal]
    else forall item :: item in missing <==> Lacks(s, item)
  }

  method ComputeMissing(s: Snapshot) returns (missing: seq<Lack>)
    ensures ListsLacks(s, missing)
  {
    hide SendSucceeded, OneSendRequest, CooldownKept, PollStarts;
    if s.finishedAt.None? {
      return [Terminal];
    }
    var gaps := if |s.requests| < 2 || s.requestGap.None? then [MinimumRequestGap]
      else if s.requestGap.value < s.policy.requestGap then [RequestGapPolicy] else [];
    var open := OpenRequests(s);
    var unexpected := UnexpectedChunks(s);
    var chunks := ChunksLack(s);
    var nothing := if |s.expected| == 0 then [NothingExpected] else [];
    var pollGaps := if s.pollGap.None? then [MinimumPollGap]
      else if s.pollGap.value < s.policy.pollInterval then [PollGapPolicy] else [];
    return gaps + open + unexpected + chunks + nothing + pollGaps;
  }

  method OpenRequests(s: Snapshot) returns (open: seq<Lack>)
    ensures forall item :: item in open <==> item.OpenRequest? && Lacks(s, item)
  {
    open := [];
    for i := 0 to |s.requests|
      invariant forall item :: item in open <==>
        item.OpenRequest? && exists k :: 0 <= k < i && s.requests[k].sequence == item.sequence && s.requests[k].end.None?
    {
      if s.requests[i].end.None? {
        open := open + [OpenRequest(s.requests[i].sequence)];
      }
    }
  }

  method UnexpectedChunks(s: Snapshot) returns (unexpected: seq<Lack>)
    ensures forall item :: item in unexpected <==> item.Unexpected? && Lacks(s, item)
  {
    unexpected := [];
    for i := 0 to |s.sends|
      invariant forall item :: item in unexpected <==>
        item.Unexpected? && item.chunk !in s.expected && exists k :: 0 <= k < i && s.sends[k].chunkIndex == item.chunk
    {
      if s.sends[i].chunkIndex !in s.expected {
        unexpected := unexpected + [Unexpected(s.sends[i].chunkIndex)];
      }
    }
  }

  predicate AboutChunk(item: Lack) {
    item.SendOf? || item.SendRequestOf? || item.CooldownOf? || item.PollsOf?
  }

  method ChunksLack(s: Snapshot) returns (lacks: seq<Lack>)
    ensures forall item :: item in lacks <==> AboutChunk(item) && Lacks(s, item)
  {
    lacks := [];
    for i := 0 to |s.expected|
      invariant forall item :: item in lacks ==> AboutChunk(item) && Lacks(s, item)
      invariant forall item :: AboutChunk(item) && Lacks(s, item) && item.chunk in s.expected[..i] ==> item in lacks
    {
      var own := ChunkLacks(s, s.expected[i]);
      lacks := lacks + own;
      assert s.expected[..i + 1] == s.expected[..i] + [s.expected[i]];
    }
    assert s.expected[..|s.expected|] == s.expected;
  }

  method ChunkLacks(s: Snapshot, chunk: int) returns (lacks: seq<Lack>)
    requires chunk in s.expected
    ensures forall item :: item in lacks <==> AboutChunk(item) && item.chunk == chunk && Lacks(s, item)
  {
    var send := SendFor(s.sends, chunk);
    if send.None? || send.value.finish.None? || send.value.succeeded != Some(true) {
      return [SendOf(chunk)];
    }
    var within := RequestsWithin(s.requests, send.value);
    var request :=
      if |within| != 1 || within[0].end.None? || within[0].outcome != Some(RpcLedger.Success)
      then [SendRequestOf(chunk)] else [];
    var cooldown :=
      if send.value.cooldownRequired
         && send.value.cooldownFinish - send.value.cooldownStart < s.policy.preSignCooldown
      then [CooldownOf(chunk)] else [];
    var polls := if |PollStarts(s.polls, chunk)| < 2 then [PollsOf(chunk)] else [];
    return request + cooldown + polls;
  }

  // ----- completeness

  /** The chunk was sent once, by one successful request within the send, and polled at least twice. */
  predicate ChunkComplete(s: Snapshot, chunk: int) {
    SendSucceeded(s, chunk) && OneSendRequest(s, chunk) && CooldownKept(s, chunk) && |PollStarts(s.polls, chunk)| >= 2
  }

  /** What a complete execution has to show, in terms of its records alone. */
  ghost predicate Complete(s: Snapshot) {
    && s.finishedAt.Some?
    && |s.requests| >= 2 && (forall r :: r in s.requests ==> r.end.Some?)
    && (forall k :: 0 < k < |s.requests| ==> Difference(Starts(s.requests), k) >= s.policy.requestGap)
    && s.expected != [] && (forall send :: send in s.sends ==> send.chunkIndex in s.expected)
    && (forall chunk :: chunk in s.expected ==> ChunkComplete(s, chunk))
    && PollsSpaced(s)
  }

  /** Any two neighbouring polls of a chunk are at least the interval apart. */
  ghost predicate PollsSpaced(s: Snapshot) {
    forall chunk, k :: 0 < k < |PollStarts(s.polls, chunk)| ==>
      Difference(PollStarts(s.polls, chunk), k) >= s.policy.pollInterval
  }

  /** The gaps stored in the snapshot are the ones its records have. */
  ghost predicate GapsComputed(s: Snapshot) {
    s.requestGap == MinimumGap(Starts(s.requests)) && IsMinimumPollGap(s.polls, s.pollGap)
  }

  /** Nothing is listed as missing exactly when the records show a complete execution. */
  lemma {:induction false} NothingMissingWhenComplete(s: Snapshot, missing: seq<Lack>)
    requires GapsComputed(s) && ListsLacks(s, missing)
    ensures missing == [] <==> Complete(s)
  {
    RequestGapsMeanSpacing(s);
    PollGapsMeanSpacing(s);
    hide MinimumGap, Starts, PollStarts, ChunkComplete, Lacks, Complete, PollsSpaced;
    assert missing != [] && s.finishedAt.Some? ==> missing[0] in missing && Lacks(s, missing[0]);
    if s.finishedAt.None? {
      assert !Complete(s) by {
        CompleteIsFinished(s);
      }
    } else if missing == [] {
      LacksNothingComplete(s);
    } else if Complete(s) {
      CompleteLacksNothing(s, missing[0]);
    }
  }

  lemma {:induction false} CompleteIsFinished(s: Snapshot)
    ensures Complete(s) ==> s.finishedAt.Some?
  {
  }

  lemma {:induction false} RequestGapsMeanSpacing(s: Snapshot)
    requires GapsComputed(s)
    ensures s.requestGap.None? <==> |s.requests| < 2
    ensures |s.requests| >= 2 ==>
      (s.requestGap.value >= s.policy.requestGap <==>
       forall k :: 0 < k < |s.requests| ==> Difference(Starts(s.requests), k) >= s.policy.requestGap)
  {
    MinimumGapIsLeast(Starts(s.requests));
    hide MinimumGap, Difference, IsMinimumPollGap;
  }

  lemma {:induction false} PollGapsMeanSpacing(s: Snapshot)
    requires GapsComputed(s)
    ensures (s.pollGap.Some? ==> s.pollGap.value >= s.policy.pollInterval) <==> PollsSpaced(s)
    ensures s.pollGap.None? <==> forall chunk :: |PollStarts(s.polls, chunk)| < 2
  {
    forall chunk
      ensures ChunkGap(s.polls, chunk).None? <==> |PollStarts(s.polls, chunk)| < 2
    {
      MinimumGapIsLeast(PollStarts(s.polls, chunk));
    }
    hide MinimumGap, Difference, PollStarts, Starts;
    if s.pollGap.Some? {
      var c :| ChunkGap(s.polls, c) == s.pollGap;
      MinimumGapIsLeast(PollStarts(s.polls, c));
      forall chunk, j | 0 < j < |PollStarts(s.polls, chunk)|
        ensures Difference(PollStarts(s.polls, chunk), j) >= s.pollGap.value
      {
        MinimumGapIsLeast(PollStarts(s.polls, chunk));
        assert ChunkGap(s.polls, chunk).Some?;
      }
      assert |PollStarts(s.polls, c)| >= 2;
    } else {
      forall chunk
        ensures |PollStarts(s.polls, chunk)| < 2
      {
        assert ChunkGap(s.polls, chunk).None?;
      }
    }
  }

  lemma {:induction false} CompleteLacksNothing(s: Snapshot, item: Lack)
    requires Complete(s)
    requires |s.requests| >= 2 ==> s.requestGap.Some? && s.requestGap.value >= s.policy.requestGap
    requires s.pollGap.Some? ==> s.pollGap.value >= s.policy.pollInterval
    requires s.pollGap.None? <==> forall chunk :: |PollStarts(s.polls, chunk)| < 2
    ensures !Lacks(s, item)
  {
    hide OneSendRequest, CooldownKept, SendSucceeded, PollStarts, Starts, PollsSpaced;
    assert ChunkComplete(s, s.expected[0]);
    assert |PollStarts(s.polls, s.expected[0])| >= 2;
    if item.SendOf? || item.SendRequestOf? || item.CooldownOf? || item.PollsOf? {
      assert item.chunk in s.expected ==> ChunkComplete(s, item.chunk);
    }
  }

  lemma {:induction false} LacksNothingComplete(s: Snapshot)
    requires s.finishedAt.Some? && forall item :: !Lacks(s, item)
    requires |s.requests| >= 2 ==>
      (s.requestGap.Some? && s.requestGap.value >= s.policy.requestGap ==>
       forall k :: 0 < k < |s.requests| ==> Difference(Starts(s.requests), k) >= s.policy.requestGap)
    requires (s.pollGap.Some? ==> s.pollGap.value >= s.policy.pollInterval) ==> PollsSpaced(s)
    ensures Complete(s)
  {
    hide OneSendRequest, CooldownKept, SendSucceeded, PollStarts, Starts, PollsSpaced;
    assert !Lacks(s, MinimumRequestGap) && !Lacks(s, RequestGapPolicy) && !Lacks(s, NothingExpected)
      && !Lacks(s, MinimumPollGap) && !Lacks(s, PollGapPolicy);
    forall r | r in s.requests
      ensures r.end.Some?
    {
      assert !Lacks(s, OpenRequest(r.sequence));
    }
    forall send | send in s.sends
      ensures send.chunkIndex in s.expected
    {
      assert !Lacks(s, Unexpected(send.chunkIndex));
    }
    forall chunk | chunk in s.expected
      ensures ChunkComplete(s, chunk)
    {
      assert !Lacks(s, SendOf(chunk)) && !Lacks(s, SendRequestOf(chunk)) && !Lacks(s, CooldownOf(chunk))
        && !Lacks(s, PollsOf(chunk));
    }
  }
}
