/**
 What each operation of the telemetry store leaves in the snapshot when it is
 kept, told by the values it was called with, and when it does not apply
 (scripts/devnet/upload-execution-telemetry.mjs).
 */
module TelemetryRecords {
  import opened Outcomes
  import opened Telemetry
  import opened TelemetryExtension
  import opened TelemetryStore
  import RpcLedger

  /** Only the named lists differ. */
  ghost predicate OnlyRequests(before: Snapshot, after: Snapshot) {
    SameRecords(after, before.(requests := after.requests, polls := after.polls))
  }

  ghost predicate OnlySends(before: Snapshot, after: Snapshot) {
    SameRecords(after, before.(sends := after.sends))
  }

  /** One element of the list was replaced. */
  ghost predicate ReplacedAt<T>(before: seq<T>, after: seq<T>, k: nat, value: T) {
    && k < |before| == |after| && after[k] == value
    && forall i :: 0 <= i < |before| && i != k ==> after[i] == before[i]
  }

  /** A request may be added: it is well formed, and its number is higher than all before it. */
  ghost predicate MayFollow(requests: seq<Request>, r: Request, chunk: Option<int>) {
    && r.sequence > 0 && r.start >= 0 && r.retryNumber >= 0
    && (r.end.Some? ==> r.start <= r.end.value) && (r.end.Some? <==> r.outcome.Some?)
    && (r.method_ == RpcLedger.SendRawTransaction ==> r.signaturePersisted)
    && (forall i :: 0 <= i < |requests| ==> requests[i].sequence < r.sequence)
    && (chunk.Some? ==> chunk.value >= 0 && r.method_ == RpcLedger.GetSignatureStatuses)
  }

  /** The request, and the poll that it is, stand last. */
  ghost predicate Added(before: Snapshot, after: Snapshot, r: Request, chunk: Option<int>) {
    && OnlyRequests(before, after)
    && after.requests == before.requests + [r]
    && after.polls == before.polls + (if chunk.Some? then [Poll(chunk.value, r.sequence, r.start)] else [])
  }

  lemma {:induction false} SequencesRise(requests: seq<Request>, i: nat, j: nat)
    requires RequestsValid(requests) && i < j < |requests|
    ensures requests[i].sequence < requests[j].sequence
    decreases j
  {
    assert RequestValid(requests[j], requests[j - 1].sequence);
    if i < j - 1 {
      SequencesRise(requests, i, j - 1);
    }
  }

  lemma {:induction false} ChunksRise(sends: seq<Send>, i: nat, j: nat)
    requires SendsValid(sends) && i < j < |sends|
    ensures sends[i].chunkIndex < sends[j].chunkIndex
    decreases j
  {
    assert SendValid(sends[j], sends[j - 1].chunkIndex);
    if i < j - 1 {
      ChunksRise(sends, i, j - 1);
    }
  }

  lemma {:induction false} RequestFound(requests: seq<Request>, sequence: int)
    ensures RequestAt(requests, sequence) == |requests| <==>
      forall i :: 0 <= i < |requests| ==> requests[i].sequence != sequence
  {
    if requests != [] {
      RequestFound(requests[1..], sequence);
      assert forall i :: 1 <= i < |requests| ==> requests[i] == requests[1..][i - 1];
    }
  }

  lemma {:induction false} SendFound(sends: seq<Send>, chunk: int)
    ensures SendAt(sends, chunk) == |sends| <==> forall i :: 0 <= i < |sends| ==> sends[i].chunkIndex != chunk
  {
    if sends != [] {
      SendFound(sends[1..], chunk);
      assert forall i :: 1 <= i < |sends| ==> sends[i] == sends[1..][i - 1];
    }
  }

  /** In a valid list the send of a chunk is the only one. */
  lemma {:induction false} SendUnique(sends: seq<Send>, k: nat)
    requires SendsValid(sends) && k < |sends|
    ensures SendAt(sends, sends[k].chunkIndex) == k
  {
    var at := SendAt(sends, sends[k].chunkIndex);
    SendFound(sends, sends[k].chunkIndex);
    if at < k {
      ChunksRise(sends, at, k);
    } else if k < at {
      ChunksRise(sends, k, at);
    }
  }

  lemma {:induction false} MayFollowMeans(s: Snapshot, r: Request, chunk: Option<int>)
    requires RequestsValid(s.requests)
    ensures NextRequest(s, r) && PollContext(r, chunk) <==> MayFollow(s.requests, r, chunk)
  {
    var last := |s.requests| - 1;
    forall i | 0 <= i < last
      ensures s.requests[i].sequence < s.requests[last].sequence
    {
      SequencesRise(s.requests, i, last);
    }
  }

  lemma {:induction false} StartIsRecorded(
    before: Snapshot, held: seq<Snapshot>, r: Request, chunk: Option<int>, write: Write, kept: bool, after: Snapshot,
    history: seq<Snapshot>)
    requires RequestsValid(before.requests)
    requires Recorded(before, held, WithStart(before, r, chunk), write, kept, after, history)
    ensures kept ==> MayFollow(before.requests, r, chunk) && Added(before, after, r, chunk)
    ensures MayFollow(before.requests, r, chunk) <==> WithStart(before, r, chunk).Some?
  {
    MayFollowMeans(before, r, chunk);
    hide Persistable, ValidSnapshot, MonotonicExtension, RequestsValid, NextRequest, PollContext, MayFollow;
  }

  /** The open record the entry ends. */
  ghost predicate Opened(requests: seq<Request>, k: nat, r: Request) {
    k < |requests| && requests[k] == r.(end := None, outcome := None)
  }

  /**
   An entry ends the open request it repeats, with the end and the outcome it gives; an entry with a new number is
   added whole; any other is refused, and so is one whose duration is not the time between.
   */
  lemma {:induction false} EntryIsRecorded(
    before: Snapshot, held: seq<Snapshot>, r: Request, duration: int, chunk: Option<int>, write: Write, kept: bool,
    after: Snapshot, history: seq<Snapshot>)
    requires RequestsValid(before.requests) && r.end.Some? && r.outcome.Some?
    requires Recorded(before, held, WithEntry(before, r, duration, chunk), write, kept, after, history)
    ensures kept ==> r.start <= r.end.value && duration == r.end.value - r.start
    ensures kept ==>
      || (MayFollow(before.requests, r, chunk) && Added(before, after, r, chunk))
      || exists k: nat :: Opened(before.requests, k, r) && OnlyRequests(before, after) && after.polls == before.polls
           && ReplacedAt(before.requests, after.requests, k, r)
    ensures WithEntry(before, r, duration, chunk).Some? <==>
      && r.start <= r.end.value && duration == r.end.value - r.start
      && (MayFollow(before.requests, r, chunk) || exists k: nat :: Opened(before.requests, k, r))
  {
    EntryParts(before, r, duration, chunk);
    hide WithEntry, Persistable, ValidSnapshot, MonotonicExtension, RequestsValid, MayFollow, Opened;
  }

  /** When an entry applies, and what it makes of the records. */
  lemma {:induction false} EntryParts(s: Snapshot, r: Request, duration: int, chunk: Option<int>)
    requires RequestsValid(s.requests) && r.end.Some? && r.outcome.Some?
    ensures
      var next := WithEntry(s, r, duration, chunk);
      && (next.Some? <==>
            && r.start <= r.end.value && duration == r.end.value - r.start
            && (MayFollow(s.requests, r, chunk) || exists k: nat :: Opened(s.requests, k, r)))
      && (next.Some? ==>
            || (MayFollow(s.requests, r, chunk) && next.value == WithRequest(s, r, chunk))
            || exists k: nat :: Opened(s.requests, k, r) && next.value == s.(requests := next.value.requests)
                 && ReplacedAt(s.requests, next.value.requests, k, r))
  {
    var at := RequestAt(s.requests, r.sequence);
    RequestFound(s.requests, r.sequence);
    MayFollowMeans(s, r, chunk);
    forall k: nat | Opened(s.requests, k, r)
      ensures at == k
    {
      RequestUnique(s.requests, k);
    }
    hide RequestsValid, NextRequest, PollContext, WithRequest;
    if at < |s.requests| {
      assert !MayFollow(s.requests, r, chunk);
      hide MayFollow;
      if s.requests[at] == r.(end := None, outcome := None) {
        assert Opened(s.requests, at, r);
        assert ReplacedAt(s.requests, WithEnd(s, at, r).requests, at, r);
      }
    }
  }

  lemma {:induction false} RequestUnique(requests: seq<Request>, k: nat)
    requires RequestsValid(requests) && k < |requests|
    ensures RequestAt(requests, requests[k].sequence) == k
  {
    var at := RequestAt(requests, requests[k].sequence);
    RequestFound(requests, requests[k].sequence);
    if at < k {
      SequencesRise(requests, at, k);
    } else if k < at {
      SequencesRise(requests, k, at);
    }
  }

  lemma {:induction false} CooldownIsRecorded(
    before: Snapshot, held: seq<Snapshot>, chunk: int, required: bool, start: int, finish: int, write: Write, kept: bool,
    after: Snapshot, history: seq<Snapshot>)
    requires SendsValid(before.sends)
    requires Recorded(before, held, WithCooldown(before, chunk, required, start, finish), write, kept, after, history)
    ensures kept ==>
      OnlySends(before, after) && after.sends == before.sends + [Send(chunk, required, start, finish, None, None, None)]
    ensures WithCooldown(before, chunk, required, start, finish).Some? <==>
      && chunk >= 0 && 0 <= start <= finish
      && forall i :: 0 <= i < |before.sends| ==> before.sends[i].chunkIndex < chunk
  {
    var last := |before.sends| - 1;
    forall i | 0 <= i < last
      ensures before.sends[i].chunkIndex < before.sends[last].chunkIndex
    {
      ChunksRise(before.sends, i, last);
    }
    hide Persistable, ValidSnapshot, MonotonicExtension, SendsValid;
  }

  /** The send of the chunk has not begun. */
  ghost predicate Cooled(sends: seq<Send>, k: nat, chunk: int) {
    k < |sends| && sends[k].chunkIndex == chunk && sends[k].start == None
  }

  lemma {:induction false} SendStartIsRecorded(
    before: Snapshot, held: seq<Snapshot>, chunk: int, at: int, write: Write, kept: bool, after: Snapshot,
    history: seq<Snapshot>)
    requires SendsValid(before.sends)
    requires Recorded(before, held, WithSendStart(before, chunk, at), write, kept, after, history)
    ensures kept ==> OnlySends(before, after) && exists k: nat ::
      && Cooled(before.sends, k, chunk)
      && ReplacedAt(before.sends, after.sends, k, before.sends[k].(start := Some(at)))
    ensures WithSendStart(before, chunk, at).Some? <==> at >= 0 && exists k: nat :: Cooled(before.sends, k, chunk)
  {
    forall k | 0 <= k < |before.sends| && before.sends[k].chunkIndex == chunk
      ensures SendAt(before.sends, chunk) == k
    {
      SendUnique(before.sends, k);
    }
    var k := SendAt(before.sends, chunk);
    if WithSendStart(before, chunk, at).Some? {
      assert Cooled(before.sends, k, chunk);
    }
    if kept {
      assert ReplacedAt(before.sends, after.sends, k, before.sends[k].(start := Some(at)));
    }
    hide Persistable, ValidSnapshot, MonotonicExtension, SendsValid, ReplacedAt;
  }

  lemma {:induction false} SendFinishIsRecorded(
    before: Snapshot, held: seq<Snapshot>, chunk: int, at: int, succeeded: bool, write: Write, kept: bool,
    after: Snapshot, history: seq<Snapshot>)
    requires SendsValid(before.sends)
    requires Recorded(before, held, WithSendFinish(before, chunk, at, succeeded), write, kept, after, history)
    ensures kept ==> OnlySends(before, after) && exists k: nat ::
      && Sending(before.sends, k, chunk, at)
      && ReplacedAt(before.sends, after.sends, k, before.sends[k].(finish := Some(at), succeeded := Some(succeeded)))
    ensures WithSendFinish(before, chunk, at, succeeded).Some? <==>
      exists k: nat :: Sending(before.sends, k, chunk, at)
  {
    forall k: nat | k < |before.sends| && before.sends[k].chunkIndex == chunk
      ensures SendAt(before.sends, chunk) == k
    {
      SendUnique(before.sends, k);
    }
    var k := SendAt(before.sends, chunk);
    if WithSendFinish(before, chunk, at, succeeded).Some? {
      assert Sending(before.sends, k, chunk, at);
    }
    if kept {
      assert ReplacedAt(before.sends, after.sends, k, before.sends[k].(finish := Some(at), succeeded := Some(succeeded)));
    }
    hide Persistable, ValidSnapshot, MonotonicExtension, SendsValid, ReplacedAt;
  }

  /** The send of the chunk has begun, no later than `at`, and has not ended. */
  ghost predicate Sending(sends: seq<Send>, k: nat, chunk: int, at: int) {
    && k < |sends| && sends[k].chunkIndex == chunk
    && sends[k].start.Some? && sends[k].start.value <= at && sends[k].finish == None
  }

  lemma {:induction false} EndIsRecorded(
    before: Snapshot, held: seq<Snapshot>, finishedAt: string, expected: seq<int>, write: Write, kept: bool,
    after: Snapshot, history: seq<Snapshot>)
    requires Recorded(before, held, WithFinish(before, finishedAt, expected), write, kept, after, history)
    ensures kept ==>
      && after.finishedAt == Some(finishedAt) && after.expected == expected
      && SameRecords(after, before.(finishedAt := after.finishedAt, expected := after.expected))
    ensures WithFinish(before, finishedAt, expected).Some? <==>
      before.finishedAt in {None, Some(finishedAt)} && before.expected in {[], expected}
  {
    hide Persistable, ValidSnapshot, MonotonicExtension;
  }
}
