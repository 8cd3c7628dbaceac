/**
 The telemetry store: it holds one snapshot, and replaces it only by a valid
 snapshot that extends it (scripts/devnet/upload-execution-telemetry.mjs).
 */
module TelemetryStore {
  import opened Outcomes
  import opened Telemetry
  import opened TelemetryExtension
  import RpcLedger

  // ----- the snapshot as it is written

  /** An object with the keys and values in order. */
  function Zipped(keys: seq<Key>, values: seq<Json>): Json
    requires |values| == |keys|
  {
    Object(seq(|keys|, i requires 0 <= i < |keys| => Field(keys[i], values[i])))
  }

  function OptionalNumber(n: Option<int>): Json {
    if n.None? then Null else Number(n.value)
  }

  function OutcomeName(o: RpcLedger.Outcome): string {
    match o
    case Success => "SUCCESS"
    case RateLimited => "RPC_RATE_LIMITED"
    case TimedOut => "RPC_REQUEST_TIMEOUT"
    case OtherError => "RPC_ERROR"
  }

  function MethodName(m: RpcLedger.Method): string {
    match m
    case GetGenesisHash => "GET_GENESIS_HASH"
    case GetAccountInfo => "GET_ACCOUNT_INFO"
    case GetBalance => "GET_BALANCE"
    case GetRentExemption => "GET_RENT_EXEMPTION"
    case GetSignatureHistory => "GET_SIGNATURE_HISTORY"
    case GetLatestBlockhash => "GET_LATEST_BLOCKHASH"
    case GetFeeForMessage => "GET_FEE_FOR_MESSAGE"
    case GetSignatureStatuses => "GET_SIGNATURE_STATUSES"
    case GetTransaction => "GET_TRANSACTION"
    case SendRawTransaction => "SEND_RAW_TRANSACTION"
  }

  const REQUEST_KEYS: seq<Key> := [
    Sequence, RequestType, StartElapsedMs, EndElapsedMs, DurationMs, OutcomeKey, RetryNumber,
    SignaturePersisted, MutationCapability]

  function RequestValues(r: Request): (values: seq<Json>)
    ensures |values| == |REQUEST_KEYS|
  {
    [Number(r.sequence),
     Text(MethodName(r.method_)),
     Number(r.start),
     OptionalNumber(r.end),
     if r.end.None? then Null else Number(r.end.value - r.start),
     if r.outcome.None? then Null else Text(OutcomeName(r.outcome.value)),
     Number(r.retryNumber),
     Boolean(r.signaturePersisted),
     Text(if r.method_.SendRawTransaction? then "write" else "read")]
  }

  function RequestJson(r: Request): Json {
    Zipped(REQUEST_KEYS, RequestValues(r))
  }

  const SEND_KEYS: seq<Key> := [
    ChunkIndex, PreSignCooldownRequired, PreSignCooldownStartedElapsedMs, PreSignCooldownFinishedElapsedMs,
    PreSignCooldownMs, SendStartedElapsedMs, SendFinishedElapsedMs, SendDurationMs, OutcomeKey]

  function SendValues(s: Send): (values: seq<Json>)
    ensures |values| == |SEND_KEYS|
  {
    [Number(s.chunkIndex),
     Boolean(s.cooldownRequired),
     Number(s.cooldownStart),
     Number(s.cooldownFinish),
     Number(s.cooldownFinish - s.cooldownStart),
     OptionalNumber(s.start),
     OptionalNumber(s.finish),
     if s.start.Some? && s.finish.Some? then Number(s.finish.value - s.start.value) else Null,
     if s.succeeded.None? then Null else Text(if s.succeeded.value then "SUCCESS" else "ERROR")]
  }

  function SendJson(s: Send): Json {
    Zipped(SEND_KEYS, SendValues(s))
  }

  const POLL_KEYS: seq<Key> := [ChunkIndex, RequestSequence, StartedElapsedMs]

  function PollValues(p: Poll): (values: seq<Json>)
    ensures |values| == |POLL_KEYS|
  {
    [Number(p.chunkIndex), Number(p.requestSequence), Number(p.start)]
  }

  function PollJson(p: Poll): Json {
    Zipped(POLL_KEYS, PollValues(p))
  }

  const POLICY_KEYS: seq<Key> := [
    PreSignCooldownMs, GlobalRequestStartGapMs, RequestTimeoutMs, ConfirmationPollIntervalMs, InterChunkDelayMs,
    RateLimitRetryScheduleMs]

  function PolicyValues(p: Policy): (values: seq<Json>)
    ensures |values| == |POLICY_KEYS|
  {
    [Number(p.preSignCooldown), Number(p.requestGap), Number(p.requestTimeout), Number(p.pollInterval),
     Number(p.chunkDelay), List(seq(|p.retrySchedule|, i requires 0 <= i < |p.retrySchedule| => Number(p.retrySchedule[i])))]
  }

  function PolicyJson(p: Policy): Json {
    Zipped(POLICY_KEYS, PolicyValues(p))
  }

  /** Of the computed fields, which an extension does not look at, only the verdict is shown. */
  const SNAPSHOT_KEYS: seq<Key> := [
    ExecutionId, StartedAt, FinishedAt, MonotonicOriginMs, PolicyKey, Requests, Sends, ConfirmationPolls,
    ExpectedChunkIndexes, Verdict]

  function SnapshotValues(s: Snapshot): (values: seq<Json>)
    ensures |values| == |SNAPSHOT_KEYS|
  {
    [Text(s.executionId),
     Text(s.startedAt),
     if s.finishedAt.None? then Null else Text(s.finishedAt.value),
     Number(s.origin),
     PolicyJson(s.policy),
     List(seq(|s.requests|, i requires 0 <= i < |s.requests| => RequestJson(s.requests[i]))),
     List(seq(|s.sends|, i requires 0 <= i < |s.sends| => SendJson(s.sends[i]))),
     List(seq(|s.polls|, i requires 0 <= i < |s.polls| => PollJson(s.polls[i]))),
     List(seq(|s.expected|, i requires 0 <= i < |s.expected| => Number(s.expected[i]))),
     Text(if s.complete then "COMPLETE" else "INCOMPLETE")]
  }

  function SnapshotJson(s: Snapshot): Json {
    Zipped(SNAPSHOT_KEYS, SnapshotValues(s))
  }

  // ----- valid snapshots

  predicate RequestValid(r: Request, previous: int) {
    && previous < r.sequence && 0 <= r.start && 0 <= r.retryNumber
    && (r.end.Some? ==> r.start <= r.end.value)
    && (r.end.None? <==> r.outcome.None?)
    && (r.method_.SendRawTransaction? ==> r.signaturePersisted)
  }

  predicate SendValid(s: Send, previous: int) {
    && previous < s.chunkIndex && 0 <= s.cooldownStart <= s.cooldownFinish
    && (s.start.Some? ==> s.cooldownFinish <= s.start.value)
    && (s.finish.Some? ==> s.start.Some? && s.start.value <= s.finish.value)
    && (s.finish.None? <==> s.succeeded.None?)
  }

  predicate RecordsValid(s: Snapshot) {
    RequestsValid(s.requests) && SendsValid(s.sends) && PollsValid(s.polls) && IndexesValid(s.expected)
  }

  predicate RequestsValid(requests: seq<Request>) {
    forall i :: 0 <= i < |requests| ==> RequestValid(requests[i], if i == 0 then 0 else requests[i - 1].sequence)
  }

  predicate SendsValid(sends: seq<Send>) {
    forall i :: 0 <= i < |sends| ==> SendValid(sends[i], if i == 0 then -1 else sends[i - 1].chunkIndex)
  }

  predicate PollsValid(polls: seq<Poll>) {
    forall i :: 0 <= i < |polls| ==>
      0 <= polls[i].chunkIndex && (if i == 0 then 0 else polls[i - 1].requestSequence) < polls[i].requestSequence
  }

  predicate IndexesValid(indexes: seq<int>) {
    forall i :: 0 <= i < |indexes| ==> (if i == 0 then -1 else indexes[i - 1]) < indexes[i]
  }

  /** A poll belongs to a status request that started with it, and a send request to exactly one send. */
  predicate RecordsLinked(s: Snapshot) {
    && (forall p :: p in s.polls ==> PollLinked(s, p))
    && forall r :: r in s.requests && r.method_.SendRawTransaction? ==> CountSends(s.sends, r) == 1
  }

  predicate PollLinked(s: Snapshot, p: Poll) {
    exists r :: r in s.requests && r.sequence == p.requestSequence && r.method_.GetSignatureStatuses? && r.start == p.start
  }

  function CountSends(sends: seq<Send>, r: Request): nat {
    if sends == [] then 0
    else CountSends(sends[..|sends| - 1], r) + if Within(r, sends[|sends| - 1]) then 1 else 0
  }

  function CountTimeouts(requests: seq<Request>): nat {
    if requests == [] then 0
    else
      var last := requests[|requests| - 1];
      CountTimeouts(requests[..|requests| - 1]) + if last.outcome == Some(RpcLedger.TimedOut) then 1 else 0
  }

  ghost predicate ValidSnapshot(s: Snapshot) {
    RecordsValid(s) && RecordsLinked(s) && Computed(s)
  }

  /** The computed fields are what the records make them. */
  ghost predicate Computed(s: Snapshot) {
    && GapsComputed(s) && s.timeouts == CountTimeouts(s.requests)
    && ListsLacks(s, s.missing) && (s.complete <==> s.missing == [])
  }

  /** The same records, whatever the computed fields. */
  predicate SameRecords(a: Snapshot, b: Snapshot) {
    a == b.(requestGap := a.requestGap, pollGap := a.pollGap, timeouts := a.timeouts, missing := a.missing,
      complete := a.complete)
  }

  predicate MonotonicExtension(previous: Snapshot, next: Snapshot) {
    Extends(SnapshotJson(previous), Some(SnapshotJson(next))) && (previous.complete ==> next.complete)
  }

  /** A snapshot with its computed fields brought up to date. */
  method Refreshed(s: Snapshot) returns (r: Snapshot)
    ensures SameRecords(r, s) && Computed(r)
  {
    hide Lacks, MinimumGap, IsMinimumPollGap;
    var requestGap := ComputedMinimumGap(Starts(s.requests));
    var pollGap := ComputedMinimumConfirmationGap(s.polls);
    var timeouts := 0;
    for i := 0 to |s.requests|
      invariant timeouts == CountTimeouts(s.requests[..i])
    {
      assert s.requests[..i + 1][..i] == s.requests[..i];
      if s.requests[i].outcome == Some(RpcLedger.TimedOut) {
        timeouts := timeouts + 1;
      }
    }
    assert s.requests[..|s.requests|] == s.requests;
    r := s.(requestGap := requestGap, pollGap := pollGap, timeouts := timeouts);
    var missing := ComputeMissing(r);
    LacksIgnoreComputed(r, missing, missing == []);
    r := r.(missing := missing, complete := missing == []);
  }

  lemma {:induction false} LacksIgnoreComputed(s: Snapshot, missing: seq<Lack>, complete: bool)
    requires ListsLacks(s, missing)
    ensures ListsLacks(s.(missing := missing, complete := complete), missing)
  {
    var t := s.(missing := missing, complete := complete);
    assert forall item :: Lacks(t, item) <==> Lacks(s, item);
    hide Lacks;
  }

  // ----- the store

  /** Whether writing the snapshot works. */
  datatype Write = Written | WriteFails

  /** Every snapshot is valid and extends all earlier ones. */
  ghost predicate LawfulHistory(history: seq<Snapshot>) {
    && (forall i :: 0 <= i < |history| ==> ValidSnapshot(history[i]))
    && forall i, j :: 0 <= i < j < |history| ==> MonotonicExtension(history[i], history[j])
  }

  class Store {
    var snapshot: Snapshot
    /** Every snapshot ever held, oldest first. */
    ghost var history: seq<Snapshot>

    /** The snapshot is valid, and every snapshot held extends every one held before it. */
    ghost predicate Valid()
      reads this
    {
      history != [] && history[|history| - 1] == snapshot && LawfulHistory(history)
    }

    constructor (executionId: string, startedAt: string, origin: int, policy: Policy)
      ensures Valid() && history == [snapshot] && !snapshot.complete
      ensures snapshot.requests == [] && snapshot.sends == [] && snapshot.polls == [] && snapshot.finishedAt.None?
    {
      var first := Snapshot(executionId, startedAt, None, origin, policy, [], [], [], [], None, None, 0, [Terminal], false);
      assert forall c :: ChunkGap([], c) == None;
      snapshot, history := first, [first];
    }

    /** Either the store moves on to the refreshed snapshot, or nothing happens at all. */
    method Persist(next: Snapshot, write: Write) returns (kept: bool)
      requires Valid()
      modifies this
      ensures Valid() && (kept <==> Persistable(old(snapshot), next, write))
      ensures kept ==> Replaced(old(snapshot), old(history), next, snapshot, history)
      ensures !kept ==> snapshot == old(snapshot) && history == old(history)
    {
      var refreshed := Refreshed(next);
      RefreshedPersists(snapshot, next, refreshed, write);
      hide ValidSnapshot, MonotonicExtension, LawfulHistory, RecordsValid, RecordsLinked, Persistable, SameRecords, Computed,
        Extends, SnapshotJson, Complete;
      if !RecordsValid(refreshed) || !RecordsLinked(refreshed) || !MonotonicExtension(snapshot, refreshed)
         || write.WriteFails? {
        return false;
      }
      ExtendsAllEarlier(history, refreshed);
      snapshot := refreshed;
      history := history + [refreshed];
      return true;
    }

    /** A request begins; a status request may be a poll for a chunk. */
    method RecordRpcStart(r: Request, chunk: Option<int>, write: Write) returns (kept: bool)
      requires Valid() && r.end.None? && r.outcome.None?
      modifies this
      ensures Valid() && Recorded(old(snapshot), old(history), WithStart(old(snapshot), r, chunk), write, kept, snapshot, history)
    {
      hide Persistable, Replaced;
      if !NextRequest(snapshot, r) || !PollContext(r, chunk) {
        return false;
      }
      kept := Persist(WithRequest(snapshot, r, chunk), write);
    }

    /**
     A request ends: the open record with its number is completed, or the whole record
     is added. The entry also gives its duration, which has to be the time between.
     */
    method RecordRpcEntry(r: Request, duration: int, chunk: Option<int>, write: Write) returns (kept: bool)
      requires Valid() && r.end.Some? && r.outcome.Some?
      modifies this
      ensures Valid()
      ensures Recorded(old(snapshot), old(history), WithEntry(old(snapshot), r, duration, chunk), write, kept, snapshot, history)
    {
      hide Persistable, Replaced;
      if r.end.value < r.start || duration != r.end.value - r.start {
        return false;
      }
      var at := RequestAt(snapshot.requests, r.sequence);
      if at < |snapshot.requests| {
        var existing := snapshot.requests[at];
        if existing != r.(end := None, outcome := None) {
          return false;
        }
        kept := Persist(WithEnd(snapshot, at, r), write);
        return;
      }
      if !NextRequest(snapshot, r) || !PollContext(r, chunk) {
        return false;
      }
      kept := Persist(WithRequest(snapshot, r, chunk), write);
    }

    method RecordPreSignCooldown(chunk: int, required: bool, start: int, finish: int, write: Write) returns (kept: bool)
      requires Valid()
      modifies this
      ensures Valid() && Recorded(old(snapshot), old(history), WithCooldown(old(snapshot), chunk, required, start, finish), write, kept, snapshot, history)
    {
      hide Persistable, Replaced;
      var sends := snapshot.sends;
      if chunk < 0 || start < 0 || finish < start || (sends != [] && chunk <= sends[|sends| - 1].chunkIndex) {
        return false;
      }
      kept := Persist(snapshot.(sends := sends + [Send(chunk, required, start, finish, None, None, None)]), write);
    }

    method RecordSendStart(chunk: int, at: int, write: Write) returns (kept: bool)
      requires Valid()
      modifies this
      ensures Valid() && Recorded(old(snapshot), old(history), WithSendStart(old(snapshot), chunk, at), write, kept, snapshot, history)
    {
      hide Persistable, Replaced;
      var k := SendAt(snapshot.sends, chunk);
      if k == |snapshot.sends| || snapshot.sends[k].start.Some? || at < 0 {
        return false;
      }
      kept := Persist(snapshot.(sends := snapshot.sends[k := snapshot.sends[k].(start := Some(at))]), write);
    }

    method RecordSendFinish(chunk: int, at: int, succeeded: bool, write: Write) returns (kept: bool)
      requires Valid()
      modifies this
      ensures Valid() && Recorded(old(snapshot), old(history), WithSendFinish(old(snapshot), chunk, at, succeeded), write, kept, snapshot, history)
    {
      hide Persistable, Replaced;
      var k := SendAt(snapshot.sends, chunk);
      if k == |snapshot.sends| || snapshot.sends[k].start.None? || snapshot.sends[k].finish.Some?
         || at < snapshot.sends[k].start.value {
        return false;
      }
      var send := snapshot.sends[k].(finish := Some(at), succeeded := Some(succeeded));
      kept := Persist(snapshot.(sends := snapshot.sends[k := send]), write);
    }

    method Finish(finishedAt: string, expected: seq<int>, write: Write) returns (kept: bool)
      requires Valid()
      modifies this
      ensures Valid() && Recorded(old(snapshot), old(history), WithFinish(old(snapshot), finishedAt, expected), write, kept, snapshot, history)
    {
      hide Persistable, Replaced;
      if (snapshot.finishedAt.Some? && snapshot.finishedAt != Some(finishedAt))
         || (snapshot.expected != [] && snapshot.expected != expected) {
        return false;
      }
      kept := Persist(snapshot.(finishedAt := Some(finishedAt), expected := expected), write);
    }
  }

  // ----- what the operations write

  /** The records are in order and linked, keep what was held, and stay complete if what was held was. */
  ghost predicate Persistable(before: Snapshot, next: Snapshot, write: Write) {
    && write.Written? && RecordsValid(next) && RecordsLinked(next)
    && Extends(SnapshotJson(before), Some(SnapshotJson(next)))
    && (before.complete ==> Complete(next))
  }

  /** Whether a snapshot can be kept does not depend on its computed fields, but only on its records. */
  lemma {:induction false} RefreshedPersists(before: Snapshot, next: Snapshot, refreshed: Snapshot, write: Write)
    requires SameRecords(refreshed, next) && Computed(refreshed)
    ensures (Persistable(before, next, write) ==> ValidSnapshot(refreshed) && MonotonicExtension(before, refreshed))
    ensures Persistable(before, next, write) <==>
      write.Written? && RecordsValid(refreshed) && RecordsLinked(refreshed) && MonotonicExtension(before, refreshed)
  {
    NothingMissingWhenComplete(refreshed, refreshed.missing);
    SameCompleteness(refreshed, next);
    VerdictIgnored(before, next, refreshed);
    SameValidity(refreshed, next);
    hide Extends, SnapshotJson, RecordsValid, RecordsLinked, Complete, Computed;
  }

  lemma {:induction false} SameValidity(a: Snapshot, b: Snapshot)
    requires SameRecords(a, b)
    ensures RecordsValid(a) <==> RecordsValid(b)
    ensures RecordsLinked(a) <==> RecordsLinked(b)
  {
    hide RequestsValid, SendsValid, PollsValid, IndexesValid;
    assert forall p :: PollLinked(a, p) <==> PollLinked(b, p);
    hide PollLinked;
  }

  lemma {:induction false} SameCompleteness(a: Snapshot, b: Snapshot)
    requires SameRecords(a, b)
    ensures Complete(a) <==> Complete(b)
  {
    hide PollStarts, Difference;
    assert forall chunk :: ChunkComplete(a, chunk) <==> ChunkComplete(b, chunk);
    hide ChunkComplete;
  }

  /** Extending a snapshot is a matter of its records. */
  lemma {:induction false} VerdictIgnored(before: Snapshot, a: Snapshot, b: Snapshot)
    requires SameRecords(b, a)
    ensures Extends(SnapshotJson(before), Some(SnapshotJson(a))) <==> Extends(SnapshotJson(before), Some(SnapshotJson(b)))
  {
    KeysAreDistinct();
    assert SnapshotValues(a)[..9] == SnapshotValues(b)[..9];
    forall i | 0 <= i < |SNAPSHOT_KEYS| && !Skipped(SNAPSHOT_KEYS[i])
      ensures Lookup(SnapshotJson(a).fields, SNAPSHOT_KEYS[i]) == Lookup(SnapshotJson(b).fields, SNAPSHOT_KEYS[i])
    {
      assert SnapshotValues(a)[i] == SnapshotValues(b)[i];
      hide SnapshotValues;
      LookupFirst(SnapshotJson(a).fields, i);
      LookupFirst(SnapshotJson(b).fields, i);
    }
    hide SnapshotValues, Distinct, Lookup;
  }

  /** The store now holds the given records, valid and as an extension of what it held. */
  ghost predicate Replaced(
    before: Snapshot, held: seq<Snapshot>, next: Snapshot, after: Snapshot, history: seq<Snapshot>)
  {
    && history == held + [after]
    && SameRecords(after, next) && ValidSnapshot(after) && MonotonicExtension(before, after)
  }

  /** Numbers only go up. */
  predicate NextRequest(s: Snapshot, r: Request) {
    RequestValid(r, 0) && (s.requests != [] ==> s.requests[|s.requests| - 1].sequence < r.sequence)
  }

  function WithRequest(s: Snapshot, r: Request, chunk: Option<int>): Snapshot {
    s.(requests := s.requests + [r],
      polls := if chunk.Some? then s.polls + [Poll(chunk.value, r.sequence, r.start)] else s.polls)
  }

  function WithEnd(s: Snapshot, at: nat, r: Request): Snapshot
    requires at < |s.requests|
  {
    s.(requests := s.requests[at := s.requests[at].(end := r.end, outcome := r.outcome)])
  }

  /** Only a status request can be a poll. */
  predicate PollContext(r: Request, chunk: Option<int>) {
    chunk.Some? ==> chunk.value >= 0 && r.method_.GetSignatureStatuses?
  }

  function WithStart(s: Snapshot, r: Request, chunk: Option<int>): Option<Snapshot> {
    if NextRequest(s, r) && PollContext(r, chunk) then Some(WithRequest(s, r, chunk)) else None
  }

  function WithEntry(s: Snapshot, r: Request, duration: int, chunk: Option<int>): Option<Snapshot>
    requires r.end.Some?
  {
    var at := RequestAt(s.requests, r.sequence);
    if r.end.value < r.start || duration != r.end.value - r.start then None
    else if at == |s.requests| then WithStart(s, r, chunk)
    else if s.requests[at] == r.(end := None, outcome := None) then Some(WithEnd(s, at, r))
    else None
  }

  function WithCooldown(s: Snapshot, chunk: int, required: bool, start: int, finish: int): Option<Snapshot> {
    if chunk >= 0 && 0 <= start <= finish && (s.sends != [] ==> s.sends[|s.sends| - 1].chunkIndex < chunk)
    then Some(s.(sends := s.sends + [Send(chunk, required, start, finish, None, None, None)]))
    else None
  }

  function WithSendStart(s: Snapshot, chunk: int, at: int): Option<Snapshot> {
    var k := SendAt(s.sends, chunk);
    if k < |s.sends| && s.sends[k].start.None? && at >= 0
    then Some(s.(sends := s.sends[k := s.sends[k].(start := Some(at))]))
    else None
  }

  function WithSendFinish(s: Snapshot, chunk: int, at: int, succeeded: bool): Option<Snapshot> {
    var k := SendAt(s.sends, chunk);
    if k < |s.sends| && s.sends[k].start.Some? && s.sends[k].finish.None? && s.sends[k].start.value <= at
    then Some(s.(sends := s.sends[k := s.sends[k].(finish := Some(at), succeeded := Some(succeeded))]))
    else None
  }

  function WithFinish(s: Snapshot, finishedAt: string, expected: seq<int>): Option<Snapshot> {
    if (s.finishedAt.Some? ==> s.finishedAt == Some(finishedAt)) && (s.expected != [] ==> s.expected == expected)
    then Some(s.(finishedAt := Some(finishedAt), expected := expected))
    else None
  }

  /** The operation is kept exactly when it applies and its records can be kept; otherwise nothing happens. */
  ghost predicate Recorded(
    before: Snapshot, held: seq<Snapshot>, next: Option<Snapshot>, write: Write, kept: bool, after: Snapshot,
    history: seq<Snapshot>)
  {
    && (kept <==> next.Some? && Persistable(before, next.value, write))
    && (kept ==> Replaced(before, held, next.value, after, history))
    && (!kept ==> after == before && history == held)
  }

  /** Position of the request with the number, or the length of the list. */
  function RequestAt(requests: seq<Request>, sequence: int): (at: nat)
    ensures at <= |requests| && (at < |requests| ==> requests[at].sequence == sequence)
  {
    if requests == [] then 0
    else if requests[0].sequence == sequence then 0 else 1 + RequestAt(requests[1..], sequence)
  }

  function SendAt(sends: seq<Send>, chunk: int): (at: nat)
    ensures at <= |sends| && (at < |sends| ==> sends[at].chunkIndex == chunk)
  {
    if sends == [] then 0 else if sends[0].chunkIndex == chunk then 0 else 1 + SendAt(sends[1..], chunk)
  }

  /** Extending the last snapshot extends all of them. */
  lemma {:induction false} ExtendsAllEarlier(history: seq<Snapshot>, next: Snapshot)
    requires history != [] && LawfulHistory(history)
    requires ValidSnapshot(next) && MonotonicExtension(history[|history| - 1], next)
    ensures LawfulHistory(history + [next])
  {
    hide SnapshotJson, Extends, ValidSnapshot;
    var last := |history| - 1;
    forall i | 0 <= i < |history|
      ensures MonotonicExtension(history[i], next)
    {
      if i < last {
        ExtendsTransitive(SnapshotJson(history[i]), SnapshotJson(history[last]), Some(SnapshotJson(next)));
      }
    }
  }

  // ----- what a held snapshot means

  /** COMPLETE means that the records show a complete execution, and the other way round. */
  lemma {:induction false} CompleteMeansComplete(s: Snapshot)
    requires ValidSnapshot(s)
    ensures s.complete <==> Complete(s)
  {
    NothingMissingWhenComplete(s, s.missing);
    hide Complete, Lacks;
  }

  /** A later record keeps what the earlier one said; only an open end may be filled in. */
  predicate RequestKept(r: Request, later: Request) {
    && later.sequence == r.sequence && later.start == r.start && later.retryNumber == r.retryNumber
    && later.signaturePersisted == r.signaturePersisted
    && later.method_ == r.method_
    && (r.end.Some? ==> later.end == r.end) && (r.outcome.Some? ==> later.outcome == r.outcome)
  }

  predicate SendKept(s: Send, later: Send) {
    && later.chunkIndex == s.chunkIndex && later.cooldownRequired == s.cooldownRequired
    && later.cooldownStart == s.cooldownStart && later.cooldownFinish == s.cooldownFinish
    && (s.start.Some? ==> later.start == s.start) && (s.finish.Some? ==> later.finish == s.finish)
    && (s.succeeded.Some? ==> later.succeeded == s.succeeded)
  }

  ghost predicate Distinct(keys: seq<Key>) {
    forall i, j :: 0 <= i < j < |keys| ==> keys[i] != keys[j]
  }

  lemma {:induction false} LookupFirst(fields: seq<Field>, i: nat)
    requires i < |fields| && forall j :: 0 <= j < i ==> fields[j].key != fields[i].key
    ensures Lookup(fields, fields[i].key) == Some(fields[i].value)
  {
    if i > 0 {
      assert fields[0].key != fields[i].key;
      forall j | 0 <= j < i - 1
        ensures fields[1..][j].key != fields[1..][i - 1].key
      {
        assert fields[j + 1].key != fields[i].key;
      }
      LookupFirst(fields[1..], i - 1);
    }
  }

  /** Objects with the same keys extend each other value by value. */
  lemma {:induction false} ZippedExtends(keys: seq<Key>, a: seq<Json>, b: seq<Json>, i: nat)
    requires |a| == |b| == |keys| && Extends(Zipped(keys, a), Some(Zipped(keys, b)))
    requires i < |keys| && !Skipped(keys[i]) && Distinct(keys)
    ensures Extends(a[i], Some(b[i]))
  {
    LookupFirst(Zipped(keys, b).fields, i);
    assert Zipped(keys, a).fields[i] == Field(keys[i], a[i]);
    assert Zipped(keys, b).fields[i] == Field(keys[i], b[i]);
  }

  lemma {:induction false} KeysAreDistinct()
    ensures Distinct(REQUEST_KEYS) && Distinct(SEND_KEYS) && Distinct(SNAPSHOT_KEYS)
    ensures Distinct(POLL_KEYS) && Distinct(POLICY_KEYS)
  {
  }

  lemma {:induction false} RequestExtends(r: Request, later: Request)
    requires Extends(RequestJson(r), Some(RequestJson(later)))
    ensures RequestKept(r, later)
  {
    KeysAreDistinct();
    OutcomeNames();
    hide Extends, Distinct, OutcomeName, MethodName, Zipped;
    RequestValueExtends(r, later, 0);
    RequestValueExtends(r, later, 1);
    RequestValueExtends(r, later, 2);
    RequestValueExtends(r, later, 3);
    RequestValueExtends(r, later, 5);
    RequestValueExtends(r, later, 6);
    RequestValueExtends(r, later, 7);
    MethodNames(r.method_, later.method_);
  }

  /** A scalar value in an extension is the same value. */
  predicate Same(a: Json, b: Json) {
    a.Number? || a.Text? || a.Boolean? ==> a == b
  }

  lemma {:induction false} RequestValueExtends(r: Request, later: Request, i: nat)
    requires Extends(RequestJson(r), Some(RequestJson(later))) && i < |REQUEST_KEYS| && Distinct(REQUEST_KEYS)
    ensures Same(RequestValues(r)[i], RequestValues(later)[i])
  {
    ZippedExtends(REQUEST_KEYS, RequestValues(r), RequestValues(later), i);
    hide RequestValues, Distinct;
    ScalarExtends(RequestValues(r)[i], RequestValues(later)[i]);
  }

  lemma {:induction false} SendValueExtends(s: Send, later: Send, i: nat)
    requires Extends(SendJson(s), Some(SendJson(later))) && i < |SEND_KEYS| && Distinct(SEND_KEYS)
    ensures Same(SendValues(s)[i], SendValues(later)[i])
  {
    ZippedExtends(SEND_KEYS, SendValues(s), SendValues(later), i);
    hide SendValues, Distinct;
    ScalarExtends(SendValues(s)[i], SendValues(later)[i]);
  }

  lemma {:induction false} ScalarExtends(a: Json, b: Json)
    requires Extends(a, Some(b))
    ensures Same(a, b)
  {
  }

  lemma {:induction false} OutcomeNames()
    ensures forall a, b :: OutcomeName(a) == OutcomeName(b) ==> a == b
  {
    assert |OutcomeName(RpcLedger.Success)| == 7 && |OutcomeName(RpcLedger.RateLimited)| == 16
      && |OutcomeName(RpcLedger.TimedOut)| == 19 && |OutcomeName(RpcLedger.OtherError)| == 9;
  }

  lemma {:induction false} MethodNames(a: RpcLedger.Method, b: RpcLedger.Method)
    requires MethodName(a) == MethodName(b)
    ensures a == b
  {
    assert MethodName(RpcLedger.GetGenesisHash)[4] == 'G' && MethodName(RpcLedger.GetAccountInfo)[4] == 'A';
    assert MethodName(RpcLedger.GetLatestBlockhash)[0] == 'G' && MethodName(RpcLedger.SendRawTransaction)[0] == 'S';
  }

  lemma {:induction false} SendExtends(s: Send, later: Send)
    requires Extends(SendJson(s), Some(SendJson(later)))
    ensures SendKept(s, later)
  {
    KeysAreDistinct();
    hide Extends, Distinct, Zipped;
    SendValueExtends(s, later, 0);
    SendValueExtends(s, later, 1);
    SendValueExtends(s, later, 2);
    SendValueExtends(s, later, 3);
    SendValueExtends(s, later, 5);
    SendValueExtends(s, later, 6);
    SendValueExtends(s, later, 8);
  }

  /** Records are never lost, reordered or rewritten: only what was open may have been filled in, and lists have grown. */
  ghost predicate RecordsKept(s: Snapshot, later: Snapshot) {
    && later.executionId == s.executionId && later.startedAt == s.startedAt && later.origin == s.origin
    && (s.finishedAt.Some? ==> later.finishedAt == s.finishedAt)
    && |s.requests| <= |later.requests| && |s.sends| <= |later.sends|
    && (forall i :: 0 <= i < |s.requests| ==> RequestKept(s.requests[i], later.requests[i]))
    && (forall i :: 0 <= i < |s.sends| ==> SendKept(s.sends[i], later.sends[i]))
    && s.polls <= later.polls && s.expected <= later.expected && PolicyKept(s.policy, later.policy)
    && (s.complete ==> later.complete)
  }

  /** The limits stay; the retry schedule could only grow at the end. */
  predicate PolicyKept(p: Policy, later: Policy) {
    && later.preSignCooldown == p.preSignCooldown && later.requestGap == p.requestGap
    && later.requestTimeout == p.requestTimeout && later.pollInterval == p.pollInterval
    && later.chunkDelay == p.chunkDelay && p.retrySchedule <= later.retrySchedule
  }

  lemma {:induction false} PollExtends(p: Poll, later: Poll)
    requires Extends(PollJson(p), Some(PollJson(later))) && Distinct(POLL_KEYS)
    ensures p == later
  {
    hide Extends, Distinct, Zipped;
    PollValueExtends(p, later, 0);
    PollValueExtends(p, later, 1);
    PollValueExtends(p, later, 2);
  }

  lemma {:induction false} PollValueExtends(p: Poll, later: Poll, i: nat)
    requires Extends(PollJson(p), Some(PollJson(later))) && i < 3 && Distinct(POLL_KEYS)
    ensures Same(PollValues(p)[i], PollValues(later)[i])
  {
    ZippedExtends(POLL_KEYS, PollValues(p), PollValues(later), i);
    hide PollValues, Distinct;
    ScalarExtends(PollValues(p)[i], PollValues(later)[i]);
  }

  lemma {:induction false} PolicyExtends(p: Policy, later: Policy)
    requires Extends(PolicyJson(p), Some(PolicyJson(later))) && Distinct(POLICY_KEYS)
    ensures PolicyKept(p, later)
  {
    hide Extends, Distinct, Zipped;
    PolicyValueExtends(p, later, 0);
    PolicyValueExtends(p, later, 1);
    PolicyValueExtends(p, later, 2);
    PolicyValueExtends(p, later, 3);
    PolicyValueExtends(p, later, 4);
    ZippedExtends(POLICY_KEYS, PolicyValues(p), PolicyValues(later), 5);
    NumbersExtend(p.retrySchedule, later.retrySchedule, PolicyValues(p)[5], PolicyValues(later)[5]);
  }

  lemma {:induction false} PolicyValueExtends(p: Policy, later: Policy, i: nat)
    requires Extends(PolicyJson(p), Some(PolicyJson(later))) && i < 5 && Distinct(POLICY_KEYS)
    ensures Same(PolicyValues(p)[i], PolicyValues(later)[i])
  {
    ZippedExtends(POLICY_KEYS, PolicyValues(p), PolicyValues(later), i);
    hide PolicyValues, Distinct;
    ScalarExtends(PolicyValues(p)[i], PolicyValues(later)[i]);
  }

  lemma {:induction false} NumbersExtend(p: seq<int>, later: seq<int>, a: Json, b: Json)
    requires a.List? && b.List? && Extends(a, Some(b)) && |a.items| == |p| && |b.items| == |later|
    requires forall i :: 0 <= i < |p| ==> a.items[i] == Number(p[i])
    requires forall i :: 0 <= i < |later| ==> b.items[i] == Number(later[i])
    ensures p <= later
  {
    forall i | 0 <= i < |p|
      ensures p[i] == later[i]
    {
      assert Extends(a.items[i], Some(b.items[i]));
    }
  }

  lemma {:induction false} ExtensionKeepsRecords(s: Snapshot, later: Snapshot)
    requires MonotonicExtension(s, later)
    ensures RecordsKept(s, later)
  {
    KeysAreDistinct();
    hide Extends, Distinct, Zipped, RequestJson, SendJson, PollJson, PolicyJson, RequestKept, SendKept;
    SnapshotValueExtends(s, later, 0);
    SnapshotValueExtends(s, later, 1);
    SnapshotValueExtends(s, later, 2);
    SnapshotValueExtends(s, later, 3);
    SnapshotListExtends(s, later, 5);
    SnapshotListExtends(s, later, 6);
    forall i | 0 <= i < |s.requests|
      ensures RequestKept(s.requests[i], later.requests[i])
    {
      assert SnapshotValues(s)[5].items[i] == RequestJson(s.requests[i]);
      assert SnapshotValues(later)[5].items[i] == RequestJson(later.requests[i]);
      RequestExtends(s.requests[i], later.requests[i]);
    }
    forall i | 0 <= i < |s.sends|
      ensures SendKept(s.sends[i], later.sends[i])
    {
      assert SnapshotValues(s)[6].items[i] == SendJson(s.sends[i]);
      assert SnapshotValues(later)[6].items[i] == SendJson(later.sends[i]);
      SendExtends(s.sends[i], later.sends[i]);
    }
    ExtensionKeepsPolls(s, later);
    ExtensionKeepsPolicy(s, later);
  }

  lemma {:induction false} ExtensionKeepsPolls(s: Snapshot, later: Snapshot)
    requires MonotonicExtension(s, later)
    ensures s.polls <= later.polls && s.expected <= later.expected
  {
    KeysAreDistinct();
    hide Extends, Distinct, Zipped, RequestJson, SendJson, PollJson, PolicyJson;
    SnapshotListExtends(s, later, 7);
    SnapshotListExtends(s, later, 8);
    forall i | 0 <= i < |s.polls|
      ensures s.polls[i] == later.polls[i]
    {
      assert SnapshotValues(s)[7].items[i] == PollJson(s.polls[i]);
      assert SnapshotValues(later)[7].items[i] == PollJson(later.polls[i]);
      PollExtends(s.polls[i], later.polls[i]);
    }
    forall i | 0 <= i < |s.expected|
      ensures s.expected[i] == later.expected[i]
    {
      assert SnapshotValues(s)[8].items[i] == Number(s.expected[i]);
      assert SnapshotValues(later)[8].items[i] == Number(later.expected[i]);
      ScalarExtends(SnapshotValues(s)[8].items[i], SnapshotValues(later)[8].items[i]);
    }
  }

  lemma {:induction false} ExtensionKeepsPolicy(s: Snapshot, later: Snapshot)
    requires MonotonicExtension(s, later)
    ensures PolicyKept(s.policy, later.policy)
  {
    KeysAreDistinct();
    hide Extends, Distinct, Zipped, PolicyJson, PolicyKept;
    ZippedExtends(SNAPSHOT_KEYS, SnapshotValues(s), SnapshotValues(later), 4);
    PolicyExtends(s.policy, later.policy);
  }

  lemma {:induction false} SnapshotValueExtends(s: Snapshot, later: Snapshot, i: nat)
    requires Extends(SnapshotJson(s), Some(SnapshotJson(later))) && i < 9 && Distinct(SNAPSHOT_KEYS)
    ensures Same(SnapshotValues(s)[i], SnapshotValues(later)[i])
  {
    ZippedExtends(SNAPSHOT_KEYS, SnapshotValues(s), SnapshotValues(later), i);
    hide SnapshotValues, Distinct;
    ScalarExtends(SnapshotValues(s)[i], SnapshotValues(later)[i]);
  }

  lemma {:induction false} SnapshotListExtends(s: Snapshot, later: Snapshot, i: nat)
    requires Extends(SnapshotJson(s), Some(SnapshotJson(later))) && i < 9 && Distinct(SNAPSHOT_KEYS)
    requires SnapshotValues(s)[i].List?
    ensures var a, b := SnapshotValues(s)[i], SnapshotValues(later)[i];
      && b.List? && |a.items| <= |b.items|
      && forall k :: 0 <= k < |a.items| ==> Extends(a.items[k], Some(b.items[k]))
  {
    ZippedExtends(SNAPSHOT_KEYS, SnapshotValues(s), SnapshotValues(later), i);
    hide SnapshotValues, Distinct;
    ListExtends(SnapshotValues(s)[i], SnapshotValues(later)[i]);
  }

  lemma {:induction false} ListExtends(a: Json, b: Json)
    requires a.List? && Extends(a, Some(b))
    ensures b.List? && |a.items| <= |b.items|
    ensures forall i :: 0 <= i < |a.items| ==> Extends(a.items[i], Some(b.items[i]))
  {
  }

  /** Whatever the store held at one time, everything it held later keeps. */
  lemma {:induction false} HistoryKeepsRecords(history: seq<Snapshot>, i: nat, j: nat)
    requires LawfulHistory(history) && i < j < |history|
    ensures RecordsKept(history[i], history[j])
  {
    hide MonotonicExtension, RecordsKept;
    ExtensionKeepsRecords(history[i], history[j]);
  }
}
