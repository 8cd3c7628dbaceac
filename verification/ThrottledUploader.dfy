/**
 One upload window: resuming the records a crash left behind, then sending the
 remaining chunks one at a time (scripts/devnet/throttled-uploader.mjs).
 */
module ThrottledUploader {
  import opened ByteStrings
  import opened ChunkRecords
  import opened Network
  import opened Outcomes
  import opened UploadPlan
  import opened UploadTrace
  import opened ValidationSnapshot
  import opened WindowAnswers
  import opened WindowLog

  datatype Policy = Policy(maxChunksPerWindow: int, minimumDelayMs: int)

  predicate ValidPolicy(policy: Policy) {
    policy.maxChunksPerWindow >= 1 && policy.minimumDelayMs > 0
  }

  datatype WindowStatus = Complete | WindowLimit | RpcRateLimited | ConfirmedFailure | OutcomeUnknown

  datatype Outcome =
    | Finished(status: WindowStatus, processed: nat, sent: nat, confirmedIndexes: seq<nat>, skippedIndexes: seq<nat>)
    | Aborted

  /** What a chunk's record becomes once its signature status and its bytes have been read. */
  function ReconcileChunk(status: Option<SignatureStatus>, chunkMatches: bool, expired: bool): (verdict: Status)
    ensures verdict == Confirmed <==>
      chunkMatches && !(status.Some? && status.value.err) && (expired || (status.Some? && status.value.finalized))
    ensures verdict == Failed <==> status.Some? && status.value.err
    ensures verdict == Confirmed || verdict == Failed || verdict == Unknown
  {
    if status.Some? && status.value.err then Failed
    else if chunkMatches && (expired || (status.Some? && status.value.finalized)) then Confirmed
    else Unknown
  }

  // ----- the shape of the saved records

  ghost predicate ShapeAt(records: seq<Record>, k: nat) {
    && k <= |records|
    && (forall i :: 0 <= i < k ==> records[i].status == Confirmed)
    && (forall i :: k < i < |records| ==> records[i].status == Planned)
  }

  /** Confirmed records, then at most one in any other state, then planned ones. */
  ghost predicate WindowShape(records: seq<Record>) {
    exists k :: ShapeAt(records, k)
  }

  ghost predicate SavedShapes(trace: seq<Action>) {
    forall a :: a in trace && a.Saved? ==> WindowShape(a.records)
  }

  ghost predicate SavedGapFree(trace: seq<Action>) {
    forall a :: a in trace && a.Saved? ==> GapFree(a.records)
  }

  /** No planned chunk that the buffer lacks comes before a planned one that it holds. */
  ghost predicate NoStray(records: seq<Record>, chunks: seq<Chunk>)
    requires |records| == |chunks|
  {
    forall i, j :: 0 <= i < j < |records| && records[i].status == records[j].status == Planned && chunks[j].exactMatch
      ==> chunks[i].exactMatch
  }

  ghost predicate Resolved(records: seq<Record>) {
    forall i :: 0 <= i < |records| ==> records[i].status == Planned || records[i].status == Confirmed
  }

  lemma {:induction false} ShapeIsGapFree(records: seq<Record>)
    requires WindowShape(records)
    ensures GapFree(records)
  {
  }

  lemma {:induction false} ShapeUpdate(records: seq<Record>, k: nat, r: Record)
    requires k < |records| && WindowShape(records)
    requires records[k].status != Confirmed
    requires records[k].status == Planned ==> forall i :: 0 <= i < k ==> records[i].status == Confirmed
    ensures WindowShape(records[k := r])
  {
    var at :| ShapeAt(records, at);
    assert ShapeAt(records[k := r], k);
  }

  /** The plan's matching chunks being a front is enough to have no stray. */
  lemma {:induction false} MatchedFrontHasNoStray(records: seq<Record>, chunks: seq<Chunk>)
    requires |records| == |chunks|
    requires forall i, j :: 0 <= i < j < |chunks| && chunks[j].exactMatch ==> chunks[i].exactMatch
    ensures NoStray(records, chunks)
  {
  }

  // ----- counting

  /** Planned records among the first `n` whose chunk the buffer lacks. */
  function Pending(records: seq<Record>, chunks: seq<Chunk>, n: nat): nat
    requires n <= |records| == |chunks|
  {
    if n == 0 then 0
    else Pending(records, chunks, n - 1)
         + if records[n - 1].status == Planned && !chunks[n - 1].exactMatch then 1 else 0
  }

  function Unconfirmed(records: seq<Record>, n: nat): nat
    requires n <= |records|
  {
    if n == 0 then 0
    else Unconfirmed(records, n - 1) + if records[n - 1].status != Confirmed then 1 else 0
  }

  lemma {:induction false} NoneUnconfirmed(records: seq<Record>)
    ensures Unconfirmed(records, 0) == 0
  {
  }

  lemma {:induction false} OneMoreUnconfirmed(records: seq<Record>, n: nat)
    requires n < |records|
    ensures Unconfirmed(records, n + 1) == Unconfirmed(records, n) + if records[n].status != Confirmed then 1 else 0
  {
  }

  lemma {:induction false} UnconfirmedGrows(records: seq<Record>, m: nat, n: nat)
    requires m <= n <= |records|
    ensures Unconfirmed(records, m) <= Unconfirmed(records, n)
    ensures m < n && records[m].status != Confirmed ==> Unconfirmed(records, m) < Unconfirmed(records, n)
    decreases n
  {
    if m < n {
      UnconfirmedGrows(records, m, n - 1);
    }
  }

  lemma {:induction false} PendingIsUnconfirmed(
      start: seq<Record>, chunks: seq<Chunk>, records: seq<Record>, n: nat)
    requires n <= |start| == |chunks| == |records|
    requires forall i :: 0 <= i < n ==>
      (records[i].status != Confirmed <==> start[i].status == Planned && !chunks[i].exactMatch)
    ensures Unconfirmed(records, n) == Pending(start, chunks, n)
  {
    if n > 0 {
      PendingIsUnconfirmed(start, chunks, records, n - 1);
    }
  }

  /** Record `i` is unconfirmed, with fewer than `limit` unconfirmed ones before it. */
  predicate AmongFirst(records: seq<Record>, limit: int, i: nat)
    requires i < |records|
  {
    records[i].status != Confirmed && Unconfirmed(records, i) < limit
  }

  /** The window ran to its end: nothing failed, ran out or was refused on the way. */
  predicate Undisturbed(out: Outcome) {
    out.Finished? && (out.status == Complete || out.status == WindowLimit)
  }

  /** The first `limit` unconfirmed records became confirmed, and no other record changed. */
  ghost predicate SentFirst(before: seq<Record>, after: seq<Record>, out: Outcome, limit: int) {
    var open := Unconfirmed(before, |before|);
    && |after| == |before| && out.Finished?
    && out.status == (if open <= limit then Complete else WindowLimit)
    && out.sent == (if open <= limit then open else limit)
    && (forall i: nat :: i in out.confirmedIndexes <==> i < |before| && AmongFirst(before, limit, i))
    && forall i :: 0 <= i < |before| ==>
        if AmongFirst(before, limit, i) then after[i].status == Confirmed else after[i] == before[i]
  }

  lemma {:induction false} SentUpTo(before: seq<Record>, after: seq<Record>, n: nat, out: Outcome, limit: int)
    requires n <= |before| == |after| && out.Finished? && out.sent == Unconfirmed(before, n) <= limit
    requires forall i :: 0 <= i < |before| ==> before[i].status == Planned || before[i].status == Confirmed
    requires forall i :: 0 <= i < n ==> after[i].status == Confirmed
    requires forall i :: 0 <= i < |before| && (n <= i || before[i].status == Confirmed) ==> after[i] == before[i]
    requires forall i: nat :: i in out.confirmedIndexes <==> i < n && before[i].status == Planned
    requires if n == |before| then out.status == Complete
             else out.status == WindowLimit && out.sent == limit && before[n].status != Confirmed
    ensures SentFirst(before, after, out, limit)
  {
    hide Unconfirmed;
    forall i: nat | i < |before|
      ensures AmongFirst(before, limit, i) <==> i < n && before[i].status != Confirmed
    {
      if i < n {
        UnconfirmedGrows(before, i, n);
      } else {
        UnconfirmedGrows(before, n, i);
      }
    }
    UnconfirmedGrows(before, n, |before|);
  }

  // ----- one record at a time

  lemma {:induction false} ObservedAsTold(disk: seq<Record>, d: seq<Event>, n: nat, verdict: Status, duration: int)
    requires n < |disk| && disk[n].status == Sent && Smooth(d) && SentNow(d, n) && Observed(d, n, verdict, duration)
    ensures AsTold(disk, d, Acted(Saved(n, disk[n := Updated(disk[n], verdict, disk[n].signature,
      if verdict == Confirmed then Some(duration) else None)])))
    ensures verdict == Confirmed || verdict == Failed || verdict == Unknown
  {
    hide Broken, Limited, SentNow, ToldNow;
  }

  lemma {:induction false} RecheckedAsTold(disk: seq<Record>, d: seq<Event>, k: nat, verdict: Status)
    requires k < |disk| && (disk[k].status == Sent || disk[k].status == Unknown) && Smooth(d) && !SentNow(d, k)
    requires Rechecked(d, k, disk[k].signature, verdict)
    ensures AsTold(disk, d, Acted(Saved(k, disk[k := Updated(disk[k], verdict, disk[k].signature, None)])))
    ensures verdict == Confirmed || verdict == Failed || verdict == Unknown
  {
    hide Broken, Limited, SentNow, ToldAgain;
  }

  lemma {:induction false} MatchedAsTold(disk: seq<Record>, d: seq<Event>, k: nat)
    requires k < |disk| && disk[k].status == Planned && Smooth(d)
    ensures AsTold(disk, d, Acted(Saved(k, disk[k := Updated(disk[k], Confirmed, disk[k].signature, None)])))
  {
    hide Broken, Limited;
  }

  /** The record is not of the planned chunk, or the snapshot and the record disagree on whether it is confirmed. */
  predicate Disagrees(r: Record, c: Chunk, inSnapshot: bool) {
    || r.offset != c.offset || r.length != c.length || r.sha256 != c.sha256
    || (inSnapshot <==> r.status != Confirmed)
  }

  /** Why resuming ends the window: the record was FAILED, or was open and is now FAILED or still UNKNOWN. */
  predicate OverFor(before: Record, after: Record, status: WindowStatus, policy: Policy) {
    || (before.status == Failed && after == before && status == ConfirmedFailure)
    || ((before.status == Sent || before.status == Unknown) && (before.signature.Some? ==> ValidPolicy(policy))
        && ((after.status == Failed && status == ConfirmedFailure) || (after.status == Unknown && status == OutcomeUnknown)))
  }

  ghost predicate AgreeUpTo(start: seq<Record>, chunks: seq<Chunk>, snapshot: set<nat>, n: nat)
    requires n <= |start| == |chunks|
  {
    forall i :: 0 <= i < n ==> !Disagrees(start[i], chunks[i], i in snapshot)
  }

  /** The scan was over at record `k`: those before it are settled or wait to be sent, those after it are untouched. */
  ghost predicate ScanEndedAt(
    start: seq<Record>, chunks: seq<Chunk>, disk: seq<Record>, snapshot: set<nat>, policy: Policy, status: WindowStatus,
    k: nat)
  {
    && k < |start| == |chunks| == |disk| && OverFor(start[k], disk[k], status, policy)
    && (forall i :: 0 <= i < k ==> disk[i].status == if Lacking(start, chunks, i) then Planned else Confirmed)
    && (forall i :: k < i < |start| ==> disk[i] == start[i])
    && AgreeUpTo(start, chunks, snapshot, k + 1)
  }

  ghost predicate ScanEnded(
    start: seq<Record>, chunks: seq<Chunk>, disk: seq<Record>, snapshot: set<nat>, policy: Policy, status: WindowStatus)
  {
    exists k: nat :: ScanEndedAt(start, chunks, disk, snapshot, policy, status, k)
  }

  /** The scan was given up: a call failed, the policy is unsafe, or a record disagrees with the plan or the snapshot. */
  ghost predicate ScanFailed(
    start: seq<Record>, chunks: seq<Chunk>, disk: seq<Record>, d: seq<Event>, snapshot: set<nat>, policy: Policy)
  {
    !Limited(d) && (Broken(d) || !ValidPolicy(policy) || FirstDisagrees(start, chunks, disk, snapshot))
  }

  ghost predicate FirstDisagrees(start: seq<Record>, chunks: seq<Chunk>, disk: seq<Record>, snapshot: set<nat>) {
    exists k: nat :: DisagreesAt(start, chunks, disk, snapshot, k)
  }

  ghost predicate DisagreesAt(start: seq<Record>, chunks: seq<Chunk>, disk: seq<Record>, snapshot: set<nat>, k: nat) {
    && k < |start| == |chunks| == |disk| && Disagrees(start[k], chunks[k], k in snapshot)
    && forall i :: 0 <= i < k ==> disk[i].status == Planned || disk[i].status == Confirmed
  }

  lemma {:induction false} ScanEndsAt(
    start: seq<Record>, chunks: seq<Chunk>, disk: seq<Record>, snapshot: set<nat>, policy: Policy, status: WindowStatus,
    k: nat)
    requires k < |start| == |chunks| == |disk| && OverFor(start[k], disk[k], status, policy)
    requires forall i :: 0 <= i < k ==> disk[i].status == if Lacking(start, chunks, i) then Planned else Confirmed
    requires forall i :: k < i < |start| ==> disk[i] == start[i]
    requires AgreeUpTo(start, chunks, snapshot, k) && !Disagrees(start[k], chunks[k], k in snapshot)
    ensures ScanEnded(start, chunks, disk, snapshot, policy, status)
  {
    hide Disagrees, OverFor;
    assert ScanEndedAt(start, chunks, disk, snapshot, policy, status, k);
  }

  lemma {:induction false} ScanFailsAt(
    start: seq<Record>, chunks: seq<Chunk>, disk: seq<Record>, d: seq<Event>, snapshot: set<nat>, policy: Policy, k: nat)
    requires k < |start| == |chunks| == |disk| && !Limited(d)
    requires Broken(d) || !ValidPolicy(policy) || Disagrees(start[k], chunks[k], k in snapshot)
    requires forall i :: 0 <= i < k ==> disk[i].status == Planned || disk[i].status == Confirmed
    ensures ScanFailed(start, chunks, disk, d, snapshot, policy)
  {
    hide Disagrees, Broken, Limited;
    if Disagrees(start[k], chunks[k], k in snapshot) {
      assert DisagreesAt(start, chunks, disk, snapshot, k);
    }
  }

  /** The dialogue went on by one piece of news. */
  ghost predicate Hears(d: seq<Event>, more: seq<Event>, news: News) {
    && more == d + [Heard(news)]
    && (Broken(more) <==> Broken(d) || Faulty(news)) && (Limited(more) <==> Limited(d) || Limits(news))
    && forall i :: SentNow(more, i) <==> SentNow(d, i)
  }

  lemma {:induction false} StatusHeard(d: seq<Event>, more: seq<Event>, i: nat, reply: Reply<Option<SignatureStatus>>)
    requires Hears(d, more, Reported(i, reply)) && Smooth(d)
    ensures !Limited(more) && (Broken(more) <==> reply.Thrown?) && (SentNow(more, i) <==> SentNow(d, i))
  {
    hide Broken, Limited, SentNow;
  }

  lemma {:induction false} ClockHeard(d: seq<Event>, more: seq<Event>, i: nat, started: int, finished: int)
    requires Hears(d, more, Timed(i, started, finished)) && Smooth(d)
    ensures !Limited(more) && (Broken(more) <==> !(0 <= finished - started <= MAX_SAFE_INTEGER))
    ensures SentNow(more, i) <==> SentNow(d, i)
  {
    hide Broken, Limited, SentNow;
  }

  lemma {:induction false} BytesHeard(d: seq<Event>, more: seq<Event>, i: nat, reply: Reply<bool>)
    requires Hears(d, more, Compared(i, reply)) && !Limited(d)
    ensures !Limited(more) && (Broken(more) <==> Broken(d) || reply.Thrown?) && (SentNow(more, i) <==> SentNow(d, i))
  {
    hide Broken, Limited, SentNow;
  }

  lemma {:induction false} IsSmooth(d: seq<Event>)
    ensures Smooth(d) <==> !Broken(d) && !Limited(d)
  {
    hide Broken, Limited;
  }

  lemma {:induction false} HeardNow(
    d: seq<Event>, asked: seq<Event>, timed: seq<Event>, more: seq<Event>, i: nat, status: Option<SignatureStatus>,
    started: int, finished: int, matches: bool)
    requires Hears(d, asked, Reported(i, Answer(status))) && Hears(asked, timed, Timed(i, started, finished))
    requires Hears(timed, more, Compared(i, Answer(matches)))
    ensures Observed(more, i, ReconcileChunk(status, matches, false), finished - started)
  {
    hide Broken, Limited, SentNow;
    assert ToldNow(more, i, status, started, finished, matches);
  }

  lemma {:induction false} HeardAgain(
    d: seq<Event>, asked: seq<Event>, more: seq<Event>, i: nat, signature: Option<string>,
    status: Option<SignatureStatus>, matches: bool)
    requires if signature.Some? then Hears(d, asked, Reported(i, Answer(status))) else asked == d && status == None
    requires Hears(asked, more, Compared(i, Answer(matches)))
    ensures Rechecked(more, i, signature, ReconcileChunk(status, matches, true))
  {
    hide Broken, Limited, SentNow;
    assert ToldAgain(more, i, signature, status, matches);
  }

  /** The window must end: a call failed, or the signer repeated a signature. */
  ghost predicate Failing(d: seq<Event>, disk: seq<Record>) {
    !Limited(d) && (Broken(d) || SignedTwice(d, disk))
  }

  /** The signature made last is one that a record has already. */
  ghost predicate SignedTwice(d: seq<Event>, disk: seq<Record>) {
    exists n, j, signature :: 0 <= j < |disk| && disk[j].signature == Some(signature)
      && EndsWith(d, [Heard(Signed(n, Answer(Some(signature))))])
  }

  /** Chunk `n` was handed over last, and refused for the rate. */
  ghost predicate HeldBack(d: seq<Event>, disk: seq<Record>, n: nat) {
    && n < |disk| && disk[n].status == Sent && !Broken(d) && Limited(d)
    && EndsWith(d, [Heard(Posted(n, RateLimited))])
  }

  /** Why the window ends at chunk `n`: its record is FAILED or UNKNOWN, or its send was refused for the rate. */
  ghost predicate StoppedBy(d: seq<Event>, disk: seq<Record>, n: nat, status: WindowStatus) {
    && n < |disk|
    && (|| (status == ConfirmedFailure && disk[n].status == Failed && Smooth(d))
        || (status == OutcomeUnknown && disk[n].status == Unknown && Smooth(d))
        || (status == RpcRateLimited && HeldBack(d, disk, n)))
  }

  /**
   Where the upload loop ended: everything before position `n` is confirmed, of which what was planned was sent in this
   window, and nothing after `n` changed; the loop reached its end, or its limit, or was stopped by the chunk at `n`.
   */
  ghost predicate RanToAt(before: seq<Record>, after: seq<Record>, d: seq<Event>, out: Outcome, limit: int, n: nat) {
    && n <= |before| == |after| && out.Finished? && out.sent == |out.confirmedIndexes| <= limit
    && (forall i :: 0 <= i < n ==> after[i].status == Confirmed)
    && (forall i :: 0 <= i < |before| && (n < i || before[i].status == Confirmed) ==> after[i] == before[i])
    && (forall i: nat :: i in out.confirmedIndexes <==> i < n && before[i].status == Planned)
    && (forall i: nat :: i in out.skippedIndexes <==> i < n && before[i].status == Confirmed)
    && Ascending(out.confirmedIndexes) && Ascending(out.skippedIndexes)
    && if n == |before| then out.status == Complete && Smooth(d)
      else
        && before[n].status == Planned
        && if after[n] == before[n] then out.status == WindowLimit && out.sent == limit && Smooth(d)
          else out.sent < limit && StoppedBy(d, after, n, out.status)
  }

  /** The same, told by the plan and by the records the window began with. */
  ghost predicate WindowRanAt(
    start: seq<Record>, chunks: seq<Chunk>, end: seq<Record>, d: seq<Event>, out: Outcome, limit: int, n: nat)
  {
    && n <= |start| == |chunks| == |end| && out.Finished? && out.sent == |out.confirmedIndexes| <= limit
    && (forall i :: 0 <= i < n ==> end[i].status == Confirmed)
    && (forall i :: n < i < |start| ==> end[i].status == if Lacking(start, chunks, i) then Planned else Confirmed)
    && (forall i: nat :: i in out.confirmedIndexes <==> i < n && Lacking(start, chunks, i))
    && (forall i: nat :: i in out.skippedIndexes <==> i < n && !Lacking(start, chunks, i))
    && Ascending(out.confirmedIndexes) && Ascending(out.skippedIndexes)
    && if n == |start| then out.status == Complete && Smooth(d)
      else
        && Lacking(start, chunks, n)
        && if end[n].status == Planned then out.status == WindowLimit && out.sent == limit && Smooth(d)
          else out.sent < limit && StoppedBy(d, end, n, out.status)
  }

  ghost predicate WindowRan(
    start: seq<Record>, chunks: seq<Chunk>, end: seq<Record>, d: seq<Event>, out: Outcome, limit: int)
  {
    exists n: nat :: WindowRanAt(start, chunks, end, d, out, limit, n)
  }

  lemma {:induction false} RanIsWindowRan(
    start: seq<Record>, chunks: seq<Chunk>, scanned: seq<Record>, end: seq<Record>, d: seq<Event>, out: Outcome, limit: int)
    requires |start| == |chunks| == |scanned| && RanTo(scanned, end, d, out, limit)
    requires forall i :: 0 <= i < |start| ==>
      scanned[i].status == if Lacking(start, chunks, i) then Planned else Confirmed
    ensures WindowRan(start, chunks, end, d, out, limit)
  {
    hide StoppedBy, Broken, Limited, Ascending;
    var n: nat :| RanToAt(scanned, end, d, out, limit, n);
    StoppedIsChanged(scanned, end, d, out, limit, n);
    assert WindowRanAt(start, chunks, end, d, out, limit, n);
  }

  lemma {:induction false} RanConfirms(
    start: seq<Record>, chunks: seq<Chunk>, end: seq<Record>, d: seq<Event>, out: Outcome, limit: int)
    requires WindowRan(start, chunks, end, d, out, limit)
    ensures |start| == |chunks| == |end| && out.Finished? && forall i :: i in out.confirmedIndexes ==> i < |end| && end[i].status == Confirmed
    ensures out.status == Complete ==> forall i :: 0 <= i < |end| ==> end[i].status == Confirmed
  {
    hide Broken, Limited, Ascending;
  }

  lemma {:induction false} StoppedIsChanged(
    before: seq<Record>, after: seq<Record>, d: seq<Event>, out: Outcome, limit: int, n: nat)
    requires RanToAt(before, after, d, out, limit, n)
    ensures n < |before| ==> (after[n] == before[n] <==> after[n].status == Planned)
  {
    hide Broken, Limited, Ascending;
  }

  /** How a window that was admitted ended: in the scan, in the upload loop, or given up for a reason. */
  ghost predicate WindowTold(
    start: seq<Record>, chunks: seq<Chunk>, snapshot: set<nat>, policy: Policy, end: seq<Record>, d: seq<Event>,
    out: Outcome)
    requires |start| == |chunks|
  {
    if out.Finished? then
      || (out == Finished(out.status, 0, 0, [], []) && Smooth(d)
          && ScanEnded(start, chunks, end, snapshot, policy, out.status))
      || (ValidPolicy(policy) && AgreeUpTo(start, chunks, snapshot, |start|)
          && WindowRan(start, chunks, end, d, out, policy.maxChunksPerWindow))
    else ScanFailed(start, chunks, end, d, snapshot, policy) || !ValidPolicy(policy) || Failing(d, end)
  }

  /** The records pass the check and are those of the plan, and the snapshot's indexes are ascending chunk indexes. */
  ghost predicate Admissible(start: seq<Record>, chunks: seq<Chunk>, confirmedChunkIndexes: seq<nat>) {
    && ValidRecords(start) && |start| == |chunks| && Ascending(confirmedChunkIndexes)
    && forall index :: index in AsSet(confirmedChunkIndexes) ==> index < |start|
  }

  ghost predicate RanTo(before: seq<Record>, after: seq<Record>, d: seq<Event>, out: Outcome, limit: int) {
    exists n: nat :: RanToAt(before, after, d, out, limit, n)
  }

  lemma {:induction false} StoppedStatus(d: seq<Event>, disk: seq<Record>, n: nat, status: WindowStatus)
    requires StoppedBy(d, disk, n, status)
    ensures status != Complete && status != WindowLimit && disk[n].status != Planned
  {
  }

  lemma {:induction false} FrontHere(disk: seq<Record>, entry: seq<Record>, n: nat)
    requires n < |disk| == |entry|
    requires forall i :: 0 <= i < n ==> disk[i].status == Confirmed
    requires forall i :: n <= i < |disk| ==> disk[i] == entry[i]
    requires forall i :: 0 <= i < |entry| ==> entry[i].status == Planned || entry[i].status == Confirmed
    ensures FrontIs(disk, n)
  {
  }

  lemma {:induction false} SignedAsTold(disk: seq<Record>, d: seq<Event>, n: nat, signature: string)
    requires n < |disk| && disk[n].status == Planned && disk[n].signature.None? && Smooth(d) && signature != ""
    ensures
      var news := Heard(Signed(n, Answer(Some(signature))));
      AsTold(disk, d + [news], Acted(Saved(n, disk[n := Updated(disk[n], Sent, Some(signature), None)])))
  {
    Heeds(d, Heard(Signed(n, Answer(Some(signature)))));
    hide Broken, Limited;
  }

  lemma {:induction false} HandedHeeds(d: seq<Event>, n: nat, signature: string, delivery: Delivery)
    requires Smooth(d)
    ensures
      var more := d + [Acted(Handed(n, signature)), Heard(Posted(n, delivery))];
      && (Broken(more) <==> delivery == Rejected) && (Limited(more) <==> delivery == RateLimited) && SentNow(more, n)
      && EndsWith(more, [Heard(Posted(n, delivery))])
  {
    var sent := d + [Acted(Handed(n, signature))];
    assert d + [Acted(Handed(n, signature)), Heard(Posted(n, delivery))] == sent + [Heard(Posted(n, delivery))];
    Heeds(d, Acted(Handed(n, signature)));
    Heeds(sent, Heard(Posted(n, delivery)));
    hide Broken, Limited, SentNow;
  }

  /** The verdict follows from what was just told about a chunk sent in this window, and so does the duration. */
  ghost predicate Observed(d: seq<Event>, i: nat, verdict: Status, duration: int) {
    exists status, started, finished, matches :: ToldNow(d, i, status, started, finished, matches)
      && Follows(verdict, status, matches, false) && duration == finished - started
  }

  /** The verdict follows from what was just told about a record that was left open. */
  ghost predicate Rechecked(d: seq<Event>, i: nat, signature: Option<string>, verdict: Status) {
    exists status, matches :: ToldAgain(d, i, signature, status, matches) && Follows(verdict, status, matches, true)
  }

  function Updated(r: Record, status: Status, signature: Option<string>, duration: Option<int>): Record {
    r.(status := status,
       signature := if signature.Some? then signature else r.signature,
       confirmationDurationMs := if duration.Some? then duration else r.confirmationDurationMs)
  }

  /** A confirmed record's range of the buffer holds the binary's bytes. */
  ghost predicate BackedAt(records: seq<Record>, chunks: seq<Chunk>, binary: Bytes, buffer: Bytes, i: nat)
    requires i < |records| && |buffer| == |binary|
  {
    records[i].status == Confirmed ==>
      i < |chunks| && chunks[i].offset + chunks[i].length <= |binary| && Matches(binary, buffer, chunks[i])
  }

  ghost predicate Backed(records: seq<Record>, chunks: seq<Chunk>, binary: Bytes, buffer: Bytes)
    requires |buffer| == |binary|
  {
    forall i :: 0 <= i < |records| ==> BackedAt(records, chunks, binary, buffer, i)
  }

  lemma {:induction false} StaysBacked(records: seq<Record>, chunks: seq<Chunk>, binary: Bytes, before: Bytes, after: Bytes)
    requires Evolves(before, after, binary) && Backed(records, chunks, binary, before)
    ensures Backed(records, chunks, binary, after)
  {
    forall i | 0 <= i < |records|
      ensures BackedAt(records, chunks, binary, after, i)
    {
      assert BackedAt(records, chunks, binary, before, i);
      if records[i].status == Confirmed {
        MatchedStaysMatched(before, after, binary, chunks[i]);
      }
    }
  }

  /** The start of a window that nothing but the network can disturb. */
  ghost predicate Ready(start: seq<Record>, chunks: seq<Chunk>, confirmedChunkIndexes: seq<nat>) {
    && ValidRecords(start) && |start| == |chunks| && Resolved(start)
    && (forall i :: 0 <= i < |start| ==> SameEvidence(start[i], chunks[i]))
    && Ascending(confirmedChunkIndexes)
    && (forall i: nat :: i in confirmedChunkIndexes <==> i < |start| && start[i].status == Confirmed)
  }

  predicate Ascending(indexes: seq<nat>) {
    forall k :: 0 < k < |indexes| ==> indexes[k - 1] < indexes[k]
  }

  lemma {:induction false} NothingAscends()
    ensures Ascending([])
  {
  }

  lemma {:induction false} AscendingGrows(indexes: seq<nat>, n: nat)
    requires Ascending(indexes) && forall i :: i in indexes ==> i < n
    ensures Ascending(indexes + [n])
  {
    if indexes != [] {
      assert indexes[|indexes| - 1] in indexes;
    }
  }

  method IsAscending(indexes: seq<nat>) returns (ascending: bool)
    ensures ascending <==> Ascending(indexes)
  {
    var k := 1;
    while k < |indexes|
      invariant forall j :: 0 < j < k && j < |indexes| ==> indexes[j - 1] < indexes[j]
    {
      if indexes[k] <= indexes[k - 1] {
        return false;
      }
      k := k + 1;
    }
    return true;
  }

  ghost predicate SignaturesKnown(records: seq<Record>, signatures: set<string>) {
    forall i :: 0 <= i < |records| && records[i].signature.Some? ==> records[i].signature.value in signatures
  }

  // ----- the window

  /**
   The state file's records and the uploader's copy of them. `trace` is the
   history of what the window saved and sent, without the landings of the chain's log.
   */
  class UploadWindow {
    const chain: Chain
    var disk: seq<Record>
    var records: seq<Record>
    ghost const start: seq<Record>
    ghost var trace: seq<Action>

    ghost predicate Valid()
      reads this, chain
    {
      && chain.Valid() && chain.start.progress == Progress(start, None)
      && trace == Actions(chain.log)
      && LegalTrace(Progress(start, None), trace)
      && Replay(Progress(start, None), trace).records == disk
      && Backed(disk, chain.chunks, chain.binary, chain.buffer)
      && Faithful(start, Dialogue(chain.log)) && OnDisk(start, Dialogue(chain.log)) == disk
    }

    /** The last thing saved is the SENT record of chunk `index`. */
    ghost predicate Armed(index: nat)
      reads this
    {
      Replay(Progress(start, None), trace).armed == Some(index)
    }

    constructor (chain: Chain, disk: seq<Record>)
      requires chain.Valid() && Backed(disk, chain.chunks, chain.binary, chain.buffer)
      requires chain.log == [] && chain.start.progress == Progress(disk, None)
      ensures Valid() && this.chain == chain && this.disk == start == disk && trace == []
    {
      this.chain := chain;
      this.disk, this.records, this.start := disk, disk, disk;
      trace := [];
    }

    /** Rewrites one record and saves the whole list, or throws before anything reaches the disk. */
    method Persist(index: nat, status: Status, signature: Option<string>, duration: Option<int>) returns (ok: bool)
      requires Valid() && records == disk
      requires index < |records| && records[index].signature.Some? && signature.Some? ==>
                 signature == records[index].signature
      requires status == Confirmed && index < |records| && index < |chain.chunks| ==>
                 chain.chunks[index].offset + chain.chunks[index].length <= |chain.binary| &&
                 Matches(chain.binary, chain.buffer, chain.chunks[index])
      requires |records| == |chain.chunks|
      requires status == Sent ==> FrontIs(disk, index)
      requires status == Confirmed && index < |disk| && disk[index].status == Planned ==>
                 TakenInOrder(disk, chain.chunks, index)
      requires index < |disk| ==>
                 AsTold(disk, Dialogue(chain.log),
                   Acted(Saved(index, disk[index := Updated(disk[index], status, signature, duration)])))
      modifies this`disk, this`records, this`trace, chain`log
      ensures Valid()
      ensures ok <==>
        && index < |old(disk)| && old(disk)[index].index == index
        && Allowed(old(disk)[index].status, status)
        && ValidRecords(old(disk)[index := Updated(old(disk)[index], status, signature, duration)])
      ensures ok ==>
        && records == disk == old(disk)[index := Updated(old(disk)[index], status, signature, duration)]
        && trace == old(trace) + [Saved(index, disk)]
        && Dialogue(chain.log) == old(Dialogue(chain.log)) + [Acted(Saved(index, disk))]
        && (status == Sent ==> Armed(index))
      ensures !ok ==> disk == old(disk) && trace == old(trace) && chain.log == old(chain.log)
    {
      hide Faithful, AsTold, LegalTrace, Replay, PossibleLog, Reached, Legal, Justified, ValidUpTo, Partition, FrontIs, TakenInOrder;
      if index >= |records| || records[index].index != index {
        return false;
      }
      if !Allowed(records[index].status, status) {
        return false;
      }
      records := records[index := Updated(records[index], status, signature, duration)];
      var checked := ValidateChunkRecords(records);
      if checked.Err? {
        return false;
      }
      ActionsAreLegal(chain.chunks, chain.binary, chain.start, chain.log);
      SavedIsLegal(Progress(disk, chain.Now().progress.armed), index, records[index]);
      SavedIsJustified(disk, chain.chunks, chain.binary, chain.buffer, index, records[index]);
      Says(start, Dialogue(chain.log), Acted(Saved(index, records)));
      chain.Saw(Saved(index, records));
      Extend(Progress(start, None), trace, Saved(index, records));
      disk := records;
      trace := trace + [Saved(index, disk)];
      assert forall i :: 0 <= i < |disk| ==> i != index ==>
        (BackedAt(old(disk), chain.chunks, chain.binary, chain.buffer, i) <==>
         BackedAt(disk, chain.chunks, chain.binary, chain.buffer, i));
      return true;
    }

    /** Hands the write of a chunk whose SENT record was just saved to the network. */
    method Hand(index: nat, signature: string) returns (delivery: Delivery)
      requires Valid() && index < |chain.chunks|
      requires Armed(index) && index < |disk| && disk[index].signature == Some(signature)
      requires Smooth(Dialogue(chain.log))
      modifies this`trace, chain`buffer, chain`handed, chain`log
      ensures Valid() && Evolves(old(chain.buffer), chain.buffer, chain.binary)
      ensures trace == old(trace) + [Handed(index, signature)]
      ensures Dialogue(chain.log) ==
        old(Dialogue(chain.log)) + [Acted(Handed(index, signature)), Heard(Posted(index, delivery))]
      ensures chain.handed == old(chain.handed) + {index}
      ensures chain.faultFree ==> delivery == Accepted
    {
      hide Faithful, OnDisk, PossibleLog, Reached, Backed, LegalTrace, Partition, Broken, Limited;
      ActionsAreLegal(chain.chunks, chain.binary, chain.start, chain.log);
      Extend(Progress(start, None), trace, Handed(index, signature));
      trace := trace + [Handed(index, signature)];
      ghost var d := Dialogue(chain.log);
      Says(start, d, Acted(Handed(index, signature)));
      delivery := chain.Send(index, signature);
      SaysNews(start, d + [Acted(Handed(index, signature))], Posted(index, delivery));
      assert Dialogue(chain.log) == d + [Acted(Handed(index, signature))] + [Heard(Posted(index, delivery))];
      StaysBacked(disk, chain.chunks, chain.binary, old(chain.buffer), chain.buffer);
    }

    /** Waits for the status of the chunk's signature. */
    method AwaitStatus(index: nat) returns (reply: Reply<Option<SignatureStatus>>)
      requires Valid() && index < |chain.chunks|
      modifies chain`buffer, chain`log
      ensures Valid() && Evolves(old(chain.buffer), chain.buffer, chain.binary)
      ensures Hears(old(Dialogue(chain.log)), Dialogue(chain.log), Reported(index, reply))
      ensures chain.faultFree && index in chain.handed ==> reply == Answer(Some(SignatureStatus(false, true)))
    {
      hide Faithful, OnDisk, Broken, Limited, SentNow, Backed, PossibleLog, Reached, LegalTrace, Replay, Partition;
      ghost var d := Dialogue(chain.log);
      reply := chain.Confirm(index);
      StaysBacked(disk, chain.chunks, chain.binary, old(chain.buffer), chain.buffer);
      SaysNews(start, d, Reported(index, reply));
    }

    method ReadClock(index: nat) returns (started: int, finished: int)
      requires Valid() && index < |chain.chunks|
      modifies chain`log
      ensures Valid() && Hears(old(Dialogue(chain.log)), Dialogue(chain.log), Timed(index, started, finished))
      ensures chain.faultFree ==> 0 <= finished - started <= MAX_SAFE_INTEGER
    {
      hide Faithful, OnDisk, Broken, Limited, SentNow, Backed, PossibleLog, Reached, LegalTrace, Replay, Partition;
      ghost var d := Dialogue(chain.log);
      started, finished := chain.TimeConfirmation(index);
      SaysNews(start, d, Timed(index, started, finished));
    }

    method ReadBytes(index: nat) returns (reply: Reply<bool>)
      requires Valid() && index < |chain.chunks|
      modifies chain`buffer, chain`log
      ensures Valid() && Evolves(old(chain.buffer), chain.buffer, chain.binary)
      ensures Hears(old(Dialogue(chain.log)), Dialogue(chain.log), Compared(index, reply))
      ensures reply.Answer? ==> (reply.value <==> HeldAt(chain.chunks, chain.binary, chain.buffer, index))
      ensures chain.faultFree && index in chain.handed ==> reply == Answer(true)
    {
      hide Faithful, OnDisk, Broken, Limited, SentNow, Backed, PossibleLog, Reached, LegalTrace, Replay, Partition;
      ghost var d := Dialogue(chain.log);
      reply := chain.ReadChunkMatches(index);
      StaysBacked(disk, chain.chunks, chain.binary, old(chain.buffer), chain.buffer);
      SaysNews(start, d, Compared(index, reply));
    }

    /** Waits for a sent chunk's status, with a reading of the clock before and after. */
    method Wait(index: nat)
      returns (reply: Reply<Option<SignatureStatus>>, started: int, finished: int, ghost asked: seq<Event>)
      requires Valid() && index < |chain.chunks| && Smooth(Dialogue(chain.log))
      modifies chain`buffer, chain`log
      ensures Valid() && Evolves(old(chain.buffer), chain.buffer, chain.binary)
      ensures reply.Answer? ==>
        && Hears(old(Dialogue(chain.log)), asked, Reported(index, reply))
        && Hears(asked, Dialogue(chain.log), Timed(index, started, finished))
        && (Broken(Dialogue(chain.log)) <==> !(0 <= finished - started <= MAX_SAFE_INTEGER))
      ensures reply.Thrown? ==> Broken(Dialogue(chain.log))
      ensures !Limited(Dialogue(chain.log))
      ensures SentNow(Dialogue(chain.log), index) <==> old(SentNow(Dialogue(chain.log), index))
      ensures chain.faultFree ==> reply.Answer? ==> 0 <= finished - started <= MAX_SAFE_INTEGER
      ensures chain.faultFree && index in chain.handed ==> reply == Answer(Some(SignatureStatus(false, true)))
    {
      hide *;
      started, finished := 0, 0;
      ghost var d := Dialogue(chain.log);
      reply := AwaitStatus(index);
      asked := Dialogue(chain.log);
      StatusHeard(d, asked, index, reply);
      if reply.Answer? {
        IsSmooth(asked);
        started, finished := ReadClock(index);
        ClockHeard(asked, Dialogue(chain.log), index, started, finished);
      }
    }

    /** Waits for a sent chunk's outcome and reads its bytes; None when any of it throws. */
    method Observe(index: nat) returns (verdict: Option<Status>, duration: int)
      requires Valid() && index < |chain.chunks| && Smooth(Dialogue(chain.log))
      modifies chain`buffer, chain`log
      ensures Valid() && Evolves(old(chain.buffer), chain.buffer, chain.binary)
      ensures verdict.Some? ==>
        && Smooth(Dialogue(chain.log)) && Observed(Dialogue(chain.log), index, verdict.value, duration)
        && 0 <= duration <= MAX_SAFE_INTEGER
        && (verdict.value == Confirmed ==> HeldAt(chain.chunks, chain.binary, chain.buffer, index))
      ensures verdict.None? ==> Broken(Dialogue(chain.log)) && !Limited(Dialogue(chain.log))
      ensures old(SentNow(Dialogue(chain.log), index)) ==> SentNow(Dialogue(chain.log), index)
      ensures chain.faultFree && index in chain.handed ==> verdict == Some(Confirmed)
    {
      assert Evolves(chain.buffer, chain.buffer, chain.binary);
      hide *;
      duration := 0;
      verdict := None;
      ghost var d := Dialogue(chain.log);
      var reply, started, finished, asked := Wait(index);
      ghost var timed, middle := Dialogue(chain.log), chain.buffer;
      if reply.Thrown? || finished < started {
        return;
      }
      var matches := ReadBytes(index);
      EvolvesTransitively(old(chain.buffer), middle, chain.buffer, chain.binary);
      BytesHeard(timed, Dialogue(chain.log), index, matches);
      duration := finished - started;
      if matches.Thrown? || duration > MAX_SAFE_INTEGER {
        return;
      }
      verdict := Some(ReconcileChunk(reply.value, matches.value, false));
      IsSmooth(Dialogue(chain.log));
      HeardNow(d, asked, timed, Dialogue(chain.log), index, reply.value, started, finished, matches.value);
    }

    /** The state in which chunk `n` is the next one to send. */
    ghost predicate NextIs(n: nat)
      reads this, chain
    {
      && Valid() && records == disk && ValidRecords(disk) && n < |disk| == |chain.chunks|
      && FrontIs(disk, n) && Smooth(Dialogue(chain.log))
    }

    /** Signs one chunk, records it as SENT and sends it. */
    method SendChunk(n: nat) returns (step: ChunkStep)
      requires NextIs(n) && disk[n].status == Planned
      modifies this`disk, this`records, this`trace, chain
      ensures Valid() && OnlyChanged(old(disk), disk, n)
      ensures Orderly(old(disk), old(trace), disk, trace) && old(CountHanded(trace)) <= CountHanded(trace)
      ensures CountHanded(trace) == CountHanded(old(trace)) + if step == Threw && disk[n].status == Planned then 0 else 1
      ensures step == Settled ==> NextIs(n) && disk[n].status == Sent && disk[n].signature.Some? && chain.handed == old(chain.handed) + {n}
      ensures step == Settled ==> SentNow(Dialogue(chain.log), n)
      ensures step.Stopped? ==> step.status == RpcRateLimited && HeldBack(Dialogue(chain.log), disk, n)
      ensures step == Threw ==> Failing(Dialogue(chain.log), disk)
      ensures disk[n] == old(disk)[n] ||
        (disk[n].status == Sent && disk[n].signature.Some? && disk[n].signature.value in chain.signatures)
      ensures old(chain.signatures) <= chain.signatures
      ensures SignaturesKnown(old(disk), old(chain.signatures)) && chain.faultFree ==> step == Settled
    {
      hide Armed, Backed, Orderly, ValidUpTo, SignaturesKnown, CountHanded, LegalTrace, Replay, Faithful, OnDisk, Broken,
        Limited, SentNow, PossibleLog, Reached, AsTold, Partition, Dialogue;
      UnusedSignatureIsNew(disk, chain.signatures);
      Unchanged(disk, trace);
      ghost var d := Dialogue(chain.log);
      var signed := chain.Sign(n);
      StaysBacked(disk, chain.chunks, chain.binary, old(chain.buffer), chain.buffer);
      SaysNews(start, d, Signed(n, signed));
      if signed.Thrown? || signed.value.None? || signed.value == Some("") {
        return Threw;
      }
      var signature := signed.value.value;
      SentRecordIsValid(disk, n, signature);
      SignedAsTold(disk, d, n, signature);
      var ok := Persist(n, Sent, signed.value, None);
      if !ok {
        return Threw;
      }
      SavedOrderly(old(disk), n, disk[n], old(trace));
      HandedOrderly(old(disk), old(trace), disk, trace, n, signature);
      ghost var saved := Dialogue(chain.log);
      Heeds(d + [Heard(Signed(n, signed))], Acted(Saved(n, disk)));
      var delivery := Hand(n, signature);
      HandedHeeds(saved, n, signature, delivery);
      match delivery
      case Accepted => return Settled;
      case RateLimited => return Stopped(RpcRateLimited);
      case Rejected => return Threw;
    }

    /** Waits for a sent chunk's outcome and records it. */
    method SettleChunk(n: nat) returns (step: ChunkStep)
      requires NextIs(n) && disk[n].status == Sent && disk[n].signature.Some? && SentNow(Dialogue(chain.log), n)
      modifies this`disk, this`records, this`trace, chain`buffer, chain`log
      ensures Valid() && OnlyChanged(old(disk), disk, n) && disk[n].signature == old(disk)[n].signature
      ensures Orderly(old(disk), old(trace), disk, trace) && CountHanded(trace) == CountHanded(old(trace))
      ensures step == Threw ==> disk == old(disk)
      ensures step == Settled ==> records == disk && ValidRecords(disk)
      ensures step == Settled <==> disk[n].status == Confirmed
      ensures step.Stopped? ==>
        (disk[n].status == Failed && step.status == ConfirmedFailure) || (disk[n].status == Unknown && step.status == OutcomeUnknown)
      ensures step == Threw ==> Failing(Dialogue(chain.log), disk)
      ensures step != Threw ==> Smooth(Dialogue(chain.log))
      ensures chain.faultFree && n in chain.handed ==> step == Settled
    {
      hide LegalTrace, Replay, ValidUpTo, Backed, Partition, Orderly, Faithful, OnDisk, Broken, Limited, SentNow, PossibleLog,
        Reached, Observed;
      Unchanged(disk, trace);
      var signature := disk[n].signature;
      var verdict, duration := Observe(n);
      if verdict.None? {
        return Threw;
      }
      ObservedAsTold(disk, Dialogue(chain.log), n, verdict.value, duration);
      SettledRecordIsValid(disk, n, verdict.value, duration);
      Heeds(Dialogue(chain.log), Acted(Saved(n, disk[n := Updated(disk[n], verdict.value, signature,
        if verdict.value == Confirmed then Some(duration) else None)])));
      var ok := Persist(n, verdict.value, signature, if verdict.value == Confirmed then Some(duration) else None);
      assert ok;
      SavedOrderly(old(disk), n, disk[n], old(trace));
      match verdict.value
      case Confirmed => return Settled;
      case Failed => return Stopped(ConfirmedFailure);
      case _ => return Stopped(OutcomeUnknown);
    }

    /** One round of the upload loop for a chunk that is not marked as matching. */
    method UploadChunk(n: nat) returns (step: ChunkStep)
      requires NextIs(n) && disk[n].status == Planned
      modifies this`disk, this`records, this`trace, chain
      ensures Valid() && OnlyChanged(old(disk), disk, n)
      ensures Orderly(old(disk), old(trace), disk, trace)
      ensures CountHanded(old(trace)) <= CountHanded(trace) <= CountHanded(old(trace)) + 1
      ensures step == Settled ==>
        && records == disk && ValidRecords(disk) && disk[n].status == Confirmed
        && CountHanded(trace) == CountHanded(old(trace)) + 1 && chain.handed == old(chain.handed) + {n}
      ensures step == Settled ==> Smooth(Dialogue(chain.log))
      ensures step.Stopped? ==> StoppedBy(Dialogue(chain.log), disk, n, step.status)
      ensures step == Threw ==> Failing(Dialogue(chain.log), disk)
      ensures SignaturesKnown(old(disk), old(chain.signatures)) ==>
        SignaturesKnown(disk, chain.signatures) && (chain.faultFree ==> step == Settled)
    {
      hide Orderly, LegalTrace, ValidUpTo, Backed, Partition, Broken, Limited, SentNow, Faithful, OnDisk, Failing;
      step := SendChunk(n);
      if step != Settled {
        return;
      }
      ghost var sentDisk, sentTrace := disk, trace;
      step := SettleChunk(n);
      OrderlyTransitive(old(disk), old(trace), sentDisk, sentTrace, disk, trace);
    }

    /** Sends the chunks that are not marked as matching, in order, up to the window's limit. */
    method RunSequentialUpload(runnable: seq<Chunk>, policy: Policy) returns (out: Outcome)
      requires Valid() && records == disk && ValidRecords(disk)
      requires |runnable| == |disk| == |chain.chunks| && CountHanded(trace) == 0 && Smooth(Dialogue(chain.log))
      requires forall i :: 0 <= i < |runnable| ==>
        && (runnable[i].exactMatch <==> disk[i].status == Confirmed)
        && (!runnable[i].exactMatch ==> disk[i].status == Planned)
      modifies this`disk, this`records, this`trace, chain
      ensures Valid() && Orderly(old(disk), old(trace), disk, trace) && |disk| == |old(disk)|
      ensures CountHanded(trace) <= if policy.maxChunksPerWindow < 0 then 0 else policy.maxChunksPerWindow
      ensures out.Finished? ==>
        && out.processed == out.sent == |out.confirmedIndexes| <= policy.maxChunksPerWindow
        && RanTo(old(disk), disk, Dialogue(chain.log), out, policy.maxChunksPerWindow) && ValidPolicy(policy)
      ensures out.Aborted? ==> !ValidPolicy(policy) || Failing(Dialogue(chain.log), disk)
      ensures Undisturbed(out) ==>
        && SentFirst(old(disk), disk, out, policy.maxChunksPerWindow) && ValidRecords(disk)
        && forall i :: i in chain.handed <==> i in old(chain.handed) || i in out.confirmedIndexes
      ensures chain.faultFree && ValidPolicy(policy) && SignaturesKnown(old(disk), old(chain.signatures)) ==>
        Undisturbed(out) && SignaturesKnown(disk, chain.signatures)
    {
      hide Orderly, Valid, ValidRecords, SignaturesKnown, Unconfirmed, CountHanded, SentFirst, Broken, Limited, Failing,
        StoppedBy, Dialogue, FrontIs, Ascending;
      Unchanged(disk, trace);
      if !ValidPolicy(policy) {
        return Aborted;
      }
      var processed, sent := 0, 0;
      var confirmedIndexes: seq<nat>, skippedIndexes: seq<nat> := [], [];
      ghost var entry := disk;
      NoneUnconfirmed(entry);
      NothingAscends();
      for n := 0 to |runnable|
        invariant Valid() && records == disk && ValidRecords(disk) && |disk| == |entry|
        invariant Orderly(entry, old(trace), disk, trace)
        invariant processed == sent == |confirmedIndexes| == CountHanded(trace) <= policy.maxChunksPerWindow
        invariant processed == Unconfirmed(entry, n)
        invariant forall i :: 0 <= i < n ==> disk[i].status == Confirmed
        invariant forall i :: 0 <= i < |disk| && (n <= i || entry[i].status == Confirmed) ==> disk[i] == entry[i]
        invariant Smooth(Dialogue(chain.log))
        invariant forall i: nat :: i in confirmedIndexes <==> i < n && entry[i].status == Planned
        invariant forall i: nat :: i in skippedIndexes <==> i < n && entry[i].status == Confirmed
        invariant Ascending(confirmedIndexes) && Ascending(skippedIndexes)
        invariant forall i :: i in chain.handed <==> i in old(chain.handed) || i in confirmedIndexes
        invariant SignaturesKnown(entry, old(chain.signatures)) ==> SignaturesKnown(disk, chain.signatures)
      {
        OneMoreUnconfirmed(entry, n);
        if runnable[n].exactMatch {
          AscendingGrows(skippedIndexes, n);
          skippedIndexes := skippedIndexes + [n];
          continue;
        }
        if processed >= policy.maxChunksPerWindow {
          out := Finished(WindowLimit, processed, sent, confirmedIndexes, skippedIndexes);
          assert RanToAt(entry, disk, Dialogue(chain.log), out, policy.maxChunksPerWindow, n);
          SentUpTo(entry, disk, n, out, policy.maxChunksPerWindow);
          return;
        }
        ghost var before, trace0 := disk, trace;
        FrontHere(disk, entry, n);
        assert NextIs(n);
        var step := UploadChunk(n);
        OrderlyTransitive(entry, old(trace), before, trace0, disk, trace);
        if step == Threw {
          return Aborted;
        }
        if step.Stopped? {
          out := Finished(step.status, processed, sent, confirmedIndexes, skippedIndexes);
          StoppedStatus(Dialogue(chain.log), disk, n, step.status);
          assert RanToAt(entry, disk, Dialogue(chain.log), out, policy.maxChunksPerWindow, n);
          return;
        }
        sent, processed := sent + 1, processed + 1;
        AscendingGrows(confirmedIndexes, n);
        confirmedIndexes := confirmedIndexes + [n];
      }
      out := Finished(Complete, processed, sent, confirmedIndexes, skippedIndexes);
      assert RanToAt(entry, disk, Dialogue(chain.log), out, policy.maxChunksPerWindow, |entry|);
      SentUpTo(entry, disk, |entry|, out, policy.maxChunksPerWindow);
    }

    /** Decides from its record what is to be done with chunk `k`, resuming it when its outcome was left open. */
    method ResumeChunk(k: nat, inSnapshot: bool, policy: Policy) returns (step: ResumeStep)
      requires Valid() && records == disk && ValidRecords(disk) && k < |disk| == |chain.chunks|
      requires chain.chunks[k].exactMatch ==>
        chain.chunks[k].offset + chain.chunks[k].length <= |chain.binary| &&
        Matches(chain.binary, chain.buffer, chain.chunks[k])
      requires EarlierTaken(disk, chain.chunks, k)
      requires Smooth(Dialogue(chain.log)) && !SentNow(Dialogue(chain.log), k)
      modifies this`disk, this`records, this`trace, chain`buffer, chain`log
      ensures Valid() && OnlyChanged(old(disk), disk, k) && disk[k].signature == old(disk)[k].signature
      ensures Evolves(old(chain.buffer), chain.buffer, chain.binary)
      ensures old(trace) <= trace && CountHanded(trace) == CountHanded(old(trace))
      ensures WindowShape(old(disk)) && SavedShapes(old(trace)) &&
              (chain.chunks[k].exactMatch ==> !StrayAt(old(disk), k)) ==>
        WindowShape(disk) && SavedShapes(trace)
      ensures step.Runnable? ==>
        && records == disk && ValidRecords(disk)
        && (if step.exact then disk[k].status == Confirmed
            else disk[k].status == Planned && old(disk)[k].status == Planned && !chain.chunks[k].exactMatch)
      ensures step.Runnable? && step.exact && old(disk)[k].status == Planned ==>
        Saved(k, disk) in trace && chain.chunks[k].exactMatch
      ensures (old(disk)[k].status == Planned || old(disk)[k].status == Confirmed) &&
              SameEvidence(old(disk)[k], chain.chunks[k]) && (inSnapshot <==> old(disk)[k].status == Confirmed) ==>
        step.Runnable?
      ensures !step.Exception? ==>
        Smooth(Dialogue(chain.log)) && !Disagrees(old(disk)[k], chain.chunks[k], inSnapshot)
      ensures step.Over? ==> OverFor(old(disk)[k], disk[k], step.status, policy)
      ensures step.Exception? ==>
        disk == old(disk) && !Limited(Dialogue(chain.log))
        && (Broken(Dialogue(chain.log)) || !ValidPolicy(policy) || Disagrees(old(disk)[k], chain.chunks[k], inSnapshot))
    {
      assert Evolves(chain.buffer, chain.buffer, chain.binary);
      hide WindowShape, Valid, SavedShapes, SentInOrder, ValidRecords, CountHanded, StrayAt, Broken, Limited, SentNow,
        Dialogue, Rechecked;
      var chunk, record := chain.chunks[k], records[k];
      if record.offset != chunk.offset || record.length != chunk.length || record.sha256 != chunk.sha256 {
        return Exception;
      }
      if record.status != Confirmed && inSnapshot {
        return Exception;
      }
      if record.status == Failed {
        return Over(ConfirmedFailure);
      }
      if record.status == Sent || record.status == Unknown {
        var verdict := Recheck(k, policy);
        if verdict.None? {
          return Exception;
        }
        RecheckedAsTold(disk, Dialogue(chain.log), k, verdict.value);
        PersistResumed(k, verdict.value);
        if verdict.value == Confirmed {
          return Runnable(true);
        }
        return Over(if verdict.value == Failed then ConfirmedFailure else OutcomeUnknown);
      }
      if record.status == Confirmed {
        return if inSnapshot then Runnable(true) else Exception;
      }
      if chunk.exactMatch {
        MatchedAsTold(disk, Dialogue(chain.log), k);
        PersistResumed(k, Confirmed);
        return Runnable(true);
      }
      return Runnable(false);
    }

    /** Records what resuming found out about chunk `k`; its signature stays. */
    method PersistResumed(k: nat, verdict: Status)
      requires Valid() && records == disk && ValidRecords(disk) && k < |disk| == |chain.chunks|
      requires Allowed(disk[k].status, verdict) && disk[k].status != Confirmed
      requires disk[k].status == Planned ==> TakenInOrder(disk, chain.chunks, k)
      requires verdict == Confirmed || verdict == Failed || verdict == Unknown
      requires AsTold(disk, Dialogue(chain.log),
                 Acted(Saved(k, disk[k := Updated(disk[k], verdict, disk[k].signature, None)])))
      requires Smooth(Dialogue(chain.log))
      requires verdict == Confirmed ==>
        chain.chunks[k].offset + chain.chunks[k].length <= |chain.binary| &&
        Matches(chain.binary, chain.buffer, chain.chunks[k])
      modifies this`disk, this`records, this`trace, chain`log
      ensures Valid() && records == disk && ValidRecords(disk) && OnlyChanged(old(disk), disk, k)
      ensures disk[k].signature == old(disk)[k].signature && disk[k].status == verdict
      ensures old(trace) <= trace && Saved(k, disk) in trace && CountHanded(trace) == CountHanded(old(trace))
      ensures Smooth(Dialogue(chain.log))
      ensures WindowShape(old(disk)) && SavedShapes(old(trace)) &&
              (old(disk)[k].status != Planned || !StrayAt(old(disk), k)) ==>
        WindowShape(disk) && SavedShapes(trace)
    {
      hide WindowShape, LegalTrace, Replay, Backed, SavedShapes, SentInOrder, ValidUpTo, Partition, CountHanded, StrayAt,
        Broken, Limited, SentNow, Faithful, OnDisk, AsTold, PossibleLog, Reached;
      ResumedRecordIsValid(disk, k, verdict);
      Heeds(Dialogue(chain.log), Acted(Saved(k, disk[k := Updated(disk[k], verdict, disk[k].signature, None)])));
      var ok := Persist(k, verdict, records[k].signature, None);
      assert ok;
      SavedResumed(old(disk), k, disk[k], old(trace));
    }

    /** The outcome of a chunk that an earlier window sent, its signature taken as expired. */
    method Recheck(index: nat, policy: Policy) returns (verdict: Option<Status>)
      requires Valid() && records == disk && index < |records| == |chain.chunks| && Smooth(Dialogue(chain.log))
      requires !SentNow(Dialogue(chain.log), index)
      modifies chain`buffer, chain`log
      ensures Valid() && Evolves(old(chain.buffer), chain.buffer, chain.binary)
      ensures verdict.Some? ==>
        && Smooth(Dialogue(chain.log)) && Rechecked(Dialogue(chain.log), index, disk[index].signature, verdict.value)
        && !SentNow(Dialogue(chain.log), index)
        && (verdict.value == Confirmed ==> HeldAt(chain.chunks, chain.binary, chain.buffer, index))
        && (disk[index].signature.Some? ==> ValidPolicy(policy))
      ensures verdict.None? ==>
        !Limited(Dialogue(chain.log)) && (Broken(Dialogue(chain.log)) || !ValidPolicy(policy))
    {
      assert Evolves(chain.buffer, chain.buffer, chain.binary);
      hide *;
      var status := None;
      ghost var d := Dialogue(chain.log);
      if records[index].signature.Some? {
        if !ValidPolicy(policy) {
          return None;
        }
        var reply := AwaitStatus(index);
        StatusHeard(d, Dialogue(chain.log), index, reply);
        if reply.Thrown? {
          return None;
        }
        status := reply.value;
      }
      IsSmooth(Dialogue(chain.log));
      ghost var asked, middle := Dialogue(chain.log), chain.buffer;
      var matches := ReadBytes(index);
      EvolvesTransitively(old(chain.buffer), middle, chain.buffer, chain.binary);
      BytesHeard(asked, Dialogue(chain.log), index, matches);
      if matches.Thrown? {
        return None;
      }
      IsSmooth(Dialogue(chain.log));
      HeardAgain(d, asked, Dialogue(chain.log), index, disk[index].signature, status, matches.value);
      return Some(ReconcileChunk(status, matches.value, true));
    }

    /** The state of the scan before chunk `k`: what was decided for the chunks before it. */
    ghost predicate Scanned(runnable: seq<Chunk>, k: nat)
      reads this, chain
    {
      && Valid() && records == disk && ValidRecords(disk)
      && |runnable| == k <= |disk| == |start| == |chain.chunks|
      && (forall i :: 0 <= i < k ==>
            && (runnable[i].exactMatch <==> disk[i].status == Confirmed)
            && (!runnable[i].exactMatch ==> Lacking(disk, chain.chunks, i) && start[i].status == Planned)
            && (start[i].status == Planned && disk[i].status == Confirmed ==> chain.chunks[i].exactMatch))
      && (forall i :: k <= i < |disk| ==> disk[i] == start[i])
      && CountHanded(trace) == 0 && Smooth(Dialogue(chain.log))
    }

    /** Resumes every record in order; gives the chunks to run, or how the window ended. */
    method ScanRecords(snapshot: set<nat>, policy: Policy) returns (runnable: seq<Chunk>, over: Option<ResumeStep>)
      requires Scanned([], 0) && trace == [] && disk == start
      requires PlanMatches(chain.chunks, chain.binary, chain.buffer)
      modifies this`disk, this`records, this`trace, chain`buffer, chain`log
      ensures Valid() && CountHanded(trace) == 0
      ensures NoStray(start, chain.chunks) && WindowShape(start) ==> SavedShapes(trace)
      ensures over.None? ==>
        && Scanned(runnable, |disk|)
        && (NoStray(start, chain.chunks) && WindowShape(start) ==> WindowShape(disk))
        && (SavedGapFree(trace) ==> NoStray(start, chain.chunks))
        && AgreeUpTo(start, chain.chunks, snapshot, |start|)
      ensures over.Some? && over.value.Over? ==>
        Smooth(Dialogue(chain.log)) && ScanEnded(start, chain.chunks, disk, snapshot, policy, over.value.status)
      ensures over.Some? && over.value.Exception? ==>
        ScanFailed(start, chain.chunks, disk, Dialogue(chain.log), snapshot, policy)
      ensures over.Some? ==> !over.value.Runnable?
      ensures Resolved(start) && AgreesWithSnapshot(start, chain.chunks, snapshot) ==> over.None?
      ensures SignaturesKnown(start, chain.signatures) ==> SignaturesKnown(disk, chain.signatures)
    {
      hide Valid, ValidRecords, WindowShape, SavedShapes, SentInOrder, SavedGapFree, NoStray, PlanMatches, CountHanded,
        Broken, Limited, SentNow, Dialogue, Disagrees, OverFor, ScanEnded, ScanFailed;
      runnable := [];
      NothingScanned(start, chain.chunks, trace);
      for k := 0 to |disk|
        invariant Scanned(runnable, k)
        invariant PlanMatches(chain.chunks, chain.binary, chain.buffer)
        invariant NoStray(start, chain.chunks) && WindowShape(start) ==> WindowShape(disk) && SavedShapes(trace)
        invariant SavedGapFree(trace) ==> NoStrayBelow(start, chain.chunks, k)
        invariant AgreeUpTo(start, chain.chunks, snapshot, k)
        invariant forall i :: 0 <= i < |disk| ==> disk[i].signature == start[i].signature
      {
        ghost var before, trace0, buffer0 := disk, trace, chain.buffer;
        PlanMatchesAt(chain.chunks, chain.binary, chain.buffer, k);
        NothingSentYet(k);
        var step := ResumeChunk(k, k in snapshot, policy);
        PlanStaysMatched(chain.chunks, chain.binary, buffer0, chain.buffer);
        StraysSeen(start, chain.chunks, before, disk, trace0, trace, k, step);
        if step.Over? {
          ScanEndsAt(start, chain.chunks, disk, snapshot, policy, step.status, k);
          return runnable, Some(step);
        }
        if step.Exception? {
          ScanFailsAt(start, chain.chunks, disk, Dialogue(chain.log), snapshot, policy, k);
          return runnable, Some(step);
        }
        runnable := runnable + [chain.chunks[k].(exactMatch := step.exact)];
      }
      NoStrayAtAll(start, chain.chunks);
      return runnable, None;
    }

    /** Nothing was sent, so an open record was left by an earlier window. */
    lemma {:induction false} NothingSentYet(k: nat)
      requires Valid() && CountHanded(trace) == 0
      ensures !SentNow(Dialogue(chain.log), k)
    {
      NothingSent(chain.log, k);
    }

    lemma {:induction false} Ordered()
      requires Valid()
      ensures SentInOrder(trace)
    {
      LegalIsInOrder(Progress(start, None), trace);
    }

    /** Sends what the scan left to run; says what a window that runs to its end has done. */
    method RunScanned(runnable: seq<Chunk>, policy: Policy) returns (out: Outcome)
      requires Scanned(runnable, |disk|) && chain.handed == chain.start.handed
      modifies this`disk, this`records, this`trace, chain
      ensures Valid() && Orderly(old(disk), old(trace), disk, trace) && |disk| == |old(disk)|
      ensures CountHanded(trace) <= if policy.maxChunksPerWindow < 0 then 0 else policy.maxChunksPerWindow
      ensures out.Finished? ==>
        && out.processed == out.sent && ValidPolicy(policy)
        && WindowRan(start, chain.chunks, disk, Dialogue(chain.log), out, policy.maxChunksPerWindow)
      ensures out.Aborted? ==> !ValidPolicy(policy) || Failing(Dialogue(chain.log), disk)
      ensures out.Finished? && out.status == Complete ==> chain.buffer == chain.binary
      ensures Undisturbed(out) ==>
        && WindowEnd(start, chain.chunks, disk, out, policy.maxChunksPerWindow)
        && Delivers(chain.chunks, chain.binary, chain.start.buffer, chain.start.handed,
                    chain.buffer, chain.handed, AsSet(out.confirmedIndexes))
      ensures chain.faultFree && ValidPolicy(policy) && SignaturesKnown(old(disk), old(chain.signatures)) ==>
        Undisturbed(out) && SignaturesKnown(disk, chain.signatures)
    {
      hide LegalTrace, Replay, ValidUpTo, CountHanded, Unconfirmed, Pending, Backed, Partition, Reached, PossibleLog,
        SentFirst, WindowEnd, Delivers, Orderly, Faithful, OnDisk, Broken, Limited, Failing, StoppedBy, RanTo, RanToAt,
        WindowRan, Dialogue;
      ghost var scanned := disk;
      out := RunSequentialUpload(runnable, policy);
      if out.Finished? {
        RanIsWindowRan(start, chain.chunks, scanned, disk, Dialogue(chain.log), out, policy.maxChunksPerWindow);
        RanConfirms(start, chain.chunks, disk, Dialogue(chain.log), out, policy.maxChunksPerWindow);
      }
      if out.Finished? && out.status == Complete {
        CompleteBuffer(disk, chain.chunks, chain.binary, chain.buffer);
      }
      if Undisturbed(out) {
        WindowEnds(start, chain.chunks, scanned, disk, trace, out, policy.maxChunksPerWindow);
        WindowWrites(disk, chain.chunks, chain.binary, chain.start, chain.log, AsSet(out.confirmedIndexes));
      }
    }

    /** The checks of a window's input: the records, their number, and the snapshot's indexes. */
    method Admitted(confirmedChunkIndexes: seq<nat>) returns (admitted: bool)
      ensures admitted <==> Admissible(records, chain.chunks, confirmedChunkIndexes)
    {
      var checked := ValidateChunkRecords(records);
      if checked.Err? || |records| != |chain.chunks| {
        return false;
      }
      var ascending := IsAscending(confirmedChunkIndexes);
      return ascending && forall index :: index in AsSet(confirmedChunkIndexes) ==> index < |records|;
    }

    /**
     One window, from the state file's records and the indexes the validation
     snapshot confirmed. Whatever the network does: saves and sends are legal,
     at most the window's limit is sent and only behind a confirmed front, and
     COMPLETE means that the whole buffer is the binary.
     */
    method RunPersistedSequentialUpload(confirmedChunkIndexes: seq<nat>, policy: Policy) returns (out: Outcome)
      requires Valid() && chain.log == [] && disk == start
      requires PlanMatches(chain.chunks, chain.binary, chain.buffer)
      modifies this`disk, this`records, this`trace, chain
      ensures Valid() && SentInOrder(trace)
      ensures CountHanded(trace) <= if policy.maxChunksPerWindow < 0 then 0 else policy.maxChunksPerWindow
      ensures out.Finished? && out.status == Complete ==>
        && |disk| == |chain.chunks| && (forall i :: 0 <= i < |disk| ==> disk[i].status == Confirmed)
        && chain.buffer == chain.binary
      ensures Faithful(start, Dialogue(chain.log))
      ensures if Admissible(start, chain.chunks, confirmedChunkIndexes)
        then WindowTold(start, chain.chunks, AsSet(confirmedChunkIndexes), policy, disk, Dialogue(chain.log), out)
        else out == Aborted && disk == start && chain.log == []
      ensures out.Finished? ==> out.processed == out.sent && EndsFor(disk, Dialogue(chain.log), out.status)
      ensures |start| == |chain.chunks| && NoStray(start, chain.chunks) && WindowShape(start) ==> SavedShapes(trace)
      ensures Ready(start, chain.chunks, confirmedChunkIndexes) && GapFree(start) ==>
        (SavedGapFree(trace) <==> NoStray(start, chain.chunks))
      ensures Undisturbed(out) ==>
        && |start| == |chain.chunks| && WindowEnd(start, chain.chunks, disk, out, policy.maxChunksPerWindow)
        && Delivers(chain.chunks, chain.binary, old(chain.buffer), old(chain.handed),
                    chain.buffer, chain.handed, AsSet(out.confirmedIndexes))
      ensures Ready(start, chain.chunks, confirmedChunkIndexes) && ValidPolicy(policy) &&
              chain.faultFree && SignaturesKnown(start, old(chain.signatures)) ==>
        Undisturbed(out) && SignaturesKnown(disk, chain.signatures)
    {
      assert chain.start == World(Progress(start, None), chain.buffer, chain.handed);
      hide WindowShape, SavedShapes, SentInOrder, SavedGapFree, NoStray, LegalTrace, ValidUpTo, PlanMatches, CountHanded,
        Unconfirmed, Pending, Backed, GapFree, Partition, Reached, PossibleLog, Replay, Ascending, SentFirst, WindowEnd, Delivers,
        Faithful, OnDisk, Broken, Limited, SentNow, Admissible;
      records := disk;
      NothingSaved(trace);
      Silence(start);
      assert ValidRecords(records) && |records| == |chain.chunks| ==> Scanned([], 0);
      ReadyIsSeen(start, chain.chunks, confirmedChunkIndexes);
      hide Valid, Scanned, ValidRecords, Ready, Resolved, AgreesWithSnapshot;
      var admitted := Admitted(confirmedChunkIndexes);
      if !admitted {
        return Aborted;
      }
      assert |start| == |chain.chunks| by {
        AdmittedPlan(start, chain.chunks, confirmedChunkIndexes);
      }
      hide *;
      var snapshot := AsSet(confirmedChunkIndexes);
      var runnable, over := ScanRecords(snapshot, policy);
      Ordered();
      if over.Some? {
        out := if over.value.Over? then Finished(over.value.status, 0, 0, [], []) else Aborted;
        ScanTold(start, chain.chunks, snapshot, policy, disk, Dialogue(chain.log), over.value);
        EndingTold(start, chain.chunks, snapshot, policy, disk, Dialogue(chain.log), out);
        return;
      }
      ghost var scanTrace := trace;
      out := RunScanned(runnable, policy);
      RunTold(start, chain.chunks, snapshot, policy, disk, Dialogue(chain.log), out);
      EndingTold(start, chain.chunks, snapshot, policy, disk, Dialogue(chain.log), out);
      Ordered();
      assert SavedGapFree(trace) ==> SavedGapFree(scanTrace) by {
        if SavedGapFree(trace) {
          GapFreePrefix(scanTrace, trace);
        }
      }
      ShapesAreGapFree(trace);
    }
  }

  lemma {:induction false} AdmittedPlan(start: seq<Record>, chunks: seq<Chunk>, confirmedChunkIndexes: seq<nat>)
    requires Admissible(start, chunks, confirmedChunkIndexes)
    ensures |start| == |chunks|
  {
  }

  lemma {:induction false} ScanTold(
    start: seq<Record>, chunks: seq<Chunk>, snapshot: set<nat>, policy: Policy, end: seq<Record>, d: seq<Event>,
    step: ResumeStep)
    requires |start| == |chunks| && !step.Runnable?
    requires step.Over? ==> Smooth(d) && ScanEnded(start, chunks, end, snapshot, policy, step.status)
    requires step.Exception? ==> ScanFailed(start, chunks, end, d, snapshot, policy)
    ensures WindowTold(start, chunks, snapshot, policy, end, d,
      if step.Over? then Finished(step.status, 0, 0, [], []) else Aborted)
    ensures !Undisturbed(if step.Over? then Finished(step.status, 0, 0, [], []) else Aborted)
  {
    if step.Over? {
      var k: nat :| ScanEndedAt(start, chunks, end, snapshot, policy, step.status, k);
    }
    hide Smooth, ScanFailed, ScanEnded;
  }

  lemma {:induction false} RunTold(
    start: seq<Record>, chunks: seq<Chunk>, snapshot: set<nat>, policy: Policy, end: seq<Record>, d: seq<Event>,
    out: Outcome)
    requires |start| == |chunks| && AgreeUpTo(start, chunks, snapshot, |start|)
    requires out.Finished? ==> ValidPolicy(policy) && WindowRan(start, chunks, end, d, out, policy.maxChunksPerWindow)
    requires out.Aborted? ==> !ValidPolicy(policy) || Failing(d, end)
    ensures WindowTold(start, chunks, snapshot, policy, end, d, out)
    ensures out.Finished? && out.status == Complete ==>
      |end| == |chunks| && forall i :: 0 <= i < |end| ==> end[i].status == Confirmed
  {
    if out.Finished? {
      RanConfirms(start, chunks, end, d, out, policy.maxChunksPerWindow);
    }
    hide Failing, WindowRan, ScanEnded, ScanFailed, AgreeUpTo;
  }

  /** The first record that is neither planned nor confirmed. */
  ghost predicate FirstOpen(records: seq<Record>, k: nat) {
    && k < |records| && records[k].status != Planned && records[k].status != Confirmed
    && forall i :: 0 <= i < k ==> records[i].status == Planned || records[i].status == Confirmed
  }

  ghost predicate OpensWith(records: seq<Record>, status: Status) {
    exists k: nat :: FirstOpen(records, k) && records[k].status == status
  }

  /**
   Why a window ended, by the first record on disk that is neither planned nor confirmed: CONFIRMED_FAILURE when it is
   FAILED, UNKNOWN when it is UNKNOWN, RATE_LIMITED when it is SENT, which is when a send was refused for its rate; and
   with no such record, COMPLETE or WINDOW_LIMIT.
   */
  ghost predicate EndsFor(disk: seq<Record>, d: seq<Event>, status: WindowStatus) {
    && !Broken(d)
    && (status == ConfirmedFailure <==> OpensWith(disk, Failed))
    && (status == OutcomeUnknown <==> OpensWith(disk, Unknown))
    && (status == RpcRateLimited <==> OpensWith(disk, Sent))
    && (status == RpcRateLimited <==> Limited(d))
    && (status == Complete || status == WindowLimit <==> Resolved(disk))
  }

  lemma {:induction false} EndsAt(disk: seq<Record>, d: seq<Event>, status: WindowStatus, k: nat)
    requires FirstOpen(disk, k) && StoppedBy(d, disk, k, status)
    ensures EndsFor(disk, d, status)
  {
    hide Broken, Limited;
    assert OpensWith(disk, disk[k].status);
    forall j: nat | FirstOpen(disk, j)
      ensures j == k
    {
    }
  }

  lemma {:induction false} EndsSettled(disk: seq<Record>, d: seq<Event>, status: WindowStatus)
    requires Resolved(disk) && Smooth(d) && (status == Complete || status == WindowLimit)
    ensures EndsFor(disk, d, status)
  {
    hide Broken, Limited;
  }

  lemma {:induction false} EndingTold(
    start: seq<Record>, chunks: seq<Chunk>, snapshot: set<nat>, policy: Policy, end: seq<Record>, d: seq<Event>,
    out: Outcome)
    requires |start| == |chunks| && WindowTold(start, chunks, snapshot, policy, end, d, out)
    ensures out.Finished? ==> EndsFor(end, d, out.status)
  {
    hide Broken, Limited, Ascending, EndsFor, AgreeUpTo;
    if out.Finished? && WindowRan(start, chunks, end, d, out, policy.maxChunksPerWindow) {
      var n: nat :| WindowRanAt(start, chunks, end, d, out, policy.maxChunksPerWindow, n);
      if n < |start| && end[n].status != Planned {
        EndsAt(end, d, out.status, n);
      } else {
        EndsSettled(end, d, out.status);
      }
    } else if out.Finished? {
      var k: nat :| ScanEndedAt(start, chunks, end, snapshot, policy, out.status, k);
      EndsAt(end, d, out.status, k);
    }
  }

  function AsSet(indexes: seq<nat>): set<nat> {
    set i | i in indexes
  }

  /** Chunk `i` is planned and lacking, with fewer than `limit` such chunks before it. */
  predicate WithinWindow(start: seq<Record>, chunks: seq<Chunk>, limit: int, i: nat)
    requires i < |start| == |chunks|
  {
    Lacking(start, chunks, i) && Pending(start, chunks, i) < limit
  }

  /**
   A window that ran to its end sent exactly the first `limit` lacking chunks;
   they and whatever already matched are confirmed, the other lacking chunks are
   planned, and it says whether any are left.
   */
  ghost predicate WindowEnd(start: seq<Record>, chunks: seq<Chunk>, end: seq<Record>, out: Outcome, limit: int)
    requires |start| == |chunks|
  {
    var pending := Pending(start, chunks, |start|);
    && |end| == |start| && ValidRecords(end) && out.Finished?
    && out.status == (if pending <= limit then Complete else WindowLimit)
    && out.sent == (if pending <= limit then pending else limit)
    && (forall i: nat :: i in out.confirmedIndexes <==> i < |start| && WithinWindow(start, chunks, limit, i))
    && (forall i :: 0 <= i < |start| ==> SameRange(start[i], end[i]))
    && forall i :: 0 <= i < |start| ==>
        end[i].status == if Lacking(start, chunks, i) && !WithinWindow(start, chunks, limit, i) then Planned else Confirmed
  }

  /** The same piece of the binary, whatever has become of it. */
  predicate SameRange(before: Record, after: Record) {
    && after.index == before.index && after.offset == before.offset
    && after.length == before.length && after.sha256 == before.sha256
  }

  /** Every chunk that was handed over has landed. */
  ghost predicate Delivered(chunks: seq<Chunk>, binary: Bytes, buffer: Bytes, handed: set<nat>) {
    forall i :: i in handed ==> HeldAt(chunks, binary, buffer, i)
  }

  /** The chosen chunks' ranges became the binary's, and no other byte changed. */
  ghost predicate WrittenExactly(chunks: seq<Chunk>, binary: Bytes, before: Bytes, after: Bytes, chosen: set<nat>) {
    && |before| == |after| == |binary|
    && forall p :: 0 <= p < |binary| ==> after[p] == if InChunks(chunks, chosen, p) then binary[p] else before[p]
  }

  /** With nothing outstanding at first, exactly the given chunks are written in between, and nothing is outstanding. */
  ghost predicate Delivers(chunks: seq<Chunk>, binary: Bytes, before: Bytes, handedBefore: set<nat>,
                           after: Bytes, handedAfter: set<nat>, sent: set<nat>) {
    Delivered(chunks, binary, before, handedBefore) ==>
      Delivered(chunks, binary, after, handedAfter) && WrittenExactly(chunks, binary, before, after, sent)
  }

  lemma {:induction false} RangesStay(p: Progress, trace: seq<Action>)
    requires LegalTrace(p, trace)
    ensures |Replay(p, trace).records| == |p.records|
    ensures forall i :: 0 <= i < |p.records| ==> SameRange(p.records[i], Replay(p, trace).records[i])
  {
    if trace != [] {
      RangesStay(p, trace[..|trace| - 1]);
    }
  }

  lemma {:induction false} WindowEnds(start: seq<Record>, chunks: seq<Chunk>, scanned: seq<Record>, end: seq<Record>,
                                      trace: seq<Action>, out: Outcome, limit: int)
    requires |start| == |chunks| == |scanned| == |end| && ValidRecords(end)
    requires forall i :: 0 <= i < |start| ==>
      && (scanned[i].status == Planned || scanned[i].status == Confirmed)
      && (scanned[i].status != Confirmed <==> Lacking(start, chunks, i))
    requires SentFirst(scanned, end, out, limit)
    requires LegalTrace(Progress(start, None), trace) && Replay(Progress(start, None), trace).records == end
    ensures WindowEnd(start, chunks, end, out, limit)
  {
    hide Unconfirmed, Pending, ValidRecords, LegalTrace, Replay;
    RangesStay(Progress(start, None), trace);
    PendingIsUnconfirmed(start, chunks, scanned, |start|);
    forall i: nat | i < |start|
      ensures AmongFirst(scanned, limit, i) <==> WithinWindow(start, chunks, limit, i)
    {
      PendingIsUnconfirmed(start, chunks, scanned, i);
    }
  }

  lemma {:induction false} HeldBytes(chunks: seq<Chunk>, binary: Bytes, buffer: Bytes, chosen: set<nat>, p: nat)
    requires Delivered(chunks, binary, buffer, chosen) && p < |binary| && InChunks(chunks, chosen, p)
    ensures |buffer| == |binary| && buffer[p] == binary[p]
  {
    var i :| i in chosen && i < |chunks| && chunks[i].offset <= p < chunks[i].offset + chunks[i].length;
    assert HeldAt(chunks, binary, buffer, i);
    assert Slice(buffer, chunks[i])[p - chunks[i].offset] == Slice(binary, chunks[i])[p - chunks[i].offset];
  }

  lemma {:induction false} WindowWrites(
      end: seq<Record>, chunks: seq<Chunk>, binary: Bytes, w: World, log: seq<Event>, sent: set<nat>)
    requires |w.buffer| == |binary| && PossibleLog(chunks, binary, w, log)
    requires var now := Reached(chunks, binary, w, log);
      && |now.buffer| == |binary| && Backed(end, chunks, binary, now.buffer)
      && (forall i :: i in now.handed <==> i in w.handed || i in sent)
    requires forall i :: i in sent ==> i < |end| && end[i].status == Confirmed
    ensures var now := Reached(chunks, binary, w, log);
      Delivers(chunks, binary, w.buffer, w.handed, now.buffer, now.handed, sent)
  {
    hide PossibleLog, Reached;
    var now := Reached(chunks, binary, w, log);
    OnlyHandedLand(chunks, binary, w, log);
    forall i | i in sent
      ensures HeldAt(chunks, binary, now.buffer, i)
    {
      assert BackedAt(end, chunks, binary, now.buffer, i);
    }
    if Delivered(chunks, binary, w.buffer, w.handed) {
      forall i | i in w.handed
        ensures HeldAt(chunks, binary, now.buffer, i)
      {
        assert HeldAt(chunks, binary, w.buffer, i);
        MatchedStaysMatched(w.buffer, now.buffer, binary, chunks[i]);
      }
      forall p | 0 <= p < |binary|
        ensures now.buffer[p] == if InChunks(chunks, sent, p) then binary[p] else w.buffer[p]
      {
        if InChunks(chunks, sent, p) {
          HeldBytes(chunks, binary, now.buffer, sent, p);
        } else if InChunks(chunks, w.handed, p) {
          HeldBytes(chunks, binary, w.buffer, w.handed, p);
        } else {
          assert !InChunks(chunks, now.handed, p);
        }
      }
    }
  }

  /** Every chunk before `k` is confirmed or not marked as matching. */
  ghost predicate EarlierTaken(records: seq<Record>, chunks: seq<Chunk>, k: nat)
    requires k <= |records| == |chunks|
  {
    forall i :: 0 <= i < k ==> records[i].status == Confirmed || !chunks[i].exactMatch
  }

  /** Chunk `k` is marked as matching, and it is its turn. */
  ghost predicate TakenInOrder(records: seq<Record>, chunks: seq<Chunk>, k: nat)
    requires k < |records| == |chunks|
  {
    chunks[k].exactMatch && EarlierTaken(records, chunks, k)
  }

  lemma {:induction false} SavedIsLegal(p: Progress, k: nat, r: Record)
    requires k < |p.records| && Rewrites(p.records[k], r) && ValidRecords(p.records[k := r])
    requires r.status == Sent ==> FrontIs(p.records, k)
    ensures Legal(p, Saved(k, p.records[k := r]))
  {
    var records := p.records[k := r];
    assert FitsAt(records, k);
    if r.signature != p.records[k].signature {
      forall j | 0 <= j < |p.records|
        ensures p.records[j].signature != r.signature
      {
        assert FitsAt(records, j);
      }
    }
  }

  lemma {:induction false} SavedIsJustified(
      records: seq<Record>, chunks: seq<Chunk>, binary: Bytes, buffer: Bytes, k: nat, r: Record)
    requires k < |records| == |chunks| && |buffer| == |binary|
    requires r.status == Confirmed ==>
      chunks[k].offset + chunks[k].length <= |binary| && Matches(binary, buffer, chunks[k])
    requires r.status == Confirmed && records[k].status == Planned ==> TakenInOrder(records, chunks, k)
    ensures Justified(chunks, binary, buffer, Marked(chunks), records, Saved(k, records[k := r]))
  {
  }

  lemma {:induction false} NothingSaved(trace: seq<Action>)
    requires trace == []
    ensures SentInOrder(trace) && SavedShapes(trace) && CountHanded(trace) == 0
  {
  }

  lemma {:induction false} ShapesAreGapFree(trace: seq<Action>)
    ensures SavedShapes(trace) ==> SavedGapFree(trace)
  {
    if SavedShapes(trace) {
      forall a | a in trace && a.Saved?
        ensures GapFree(a.records)
      {
        ShapeIsGapFree(a.records);
      }
    }
  }

  lemma {:induction false} ReadyIsSeen(start: seq<Record>, chunks: seq<Chunk>, confirmedChunkIndexes: seq<nat>)
    ensures var snapshot := AsSet(confirmedChunkIndexes);
      Ready(start, chunks, confirmedChunkIndexes) ==>
        && ValidRecords(start) && |start| == |chunks| && Ascending(confirmedChunkIndexes)
        && Resolved(start) && AgreesWithSnapshot(start, chunks, snapshot)
        && (forall index :: index in snapshot ==> index < |start|)
        && (GapFree(start) ==> WindowShape(start))
  {
    if Ready(start, chunks, confirmedChunkIndexes) {
      ReadyIsShaped(start, chunks, confirmedChunkIndexes);
    }
  }

  lemma {:induction false} ReadyIsShaped(start: seq<Record>, chunks: seq<Chunk>, confirmedChunkIndexes: seq<nat>)
    requires |start| == |chunks|
    ensures Ready(start, chunks, confirmedChunkIndexes) && GapFree(start) ==> WindowShape(start)
  {
    if Resolved(start) && GapFree(start) {
      var k := 0;
      while k < |start| && start[k].status == Confirmed
        invariant k <= |start| && forall i :: 0 <= i < k ==> start[i].status == Confirmed
      {
        k := k + 1;
      }
      assert ShapeAt(start, k);
    }
  }

  lemma {:induction false} GapFreePrefix(shorter: seq<Action>, longer: seq<Action>)
    requires shorter <= longer && SavedGapFree(longer)
    ensures SavedGapFree(shorter)
  {
    assert forall a :: a in shorter ==> a in longer;
  }

  /** All records confirmed and every confirmed record backed by the buffer: the buffer is the binary. */
  lemma {:induction false} CompleteBuffer(records: seq<Record>, chunks: seq<Chunk>, binary: Bytes, buffer: Bytes)
    requires |buffer| == |binary| && Partition(chunks, binary) && |records| == |chunks|
    requires Backed(records, chunks, binary, buffer)
    requires forall i :: 0 <= i < |records| ==> records[i].status == Confirmed
    ensures buffer == binary
  {
    forall i | 0 <= i < |chunks|
      ensures ChunkAt(chunks, binary, i) && Matches(binary, buffer, chunks[i])
    {
      assert BackedAt(records, chunks, binary, buffer, i);
    }
    AllMatchedIsEqual(chunks, binary, buffer);
  }

  /** Chunk `i` is planned and neither saved as confirmed nor held by the buffer. */
  predicate Lacking(records: seq<Record>, chunks: seq<Chunk>, i: nat)
    requires i < |records| == |chunks|
  {
    records[i].status == Planned && !chunks[i].exactMatch
  }

  /** The plan's match flags are true of the buffer. */
  ghost predicate PlanMatches(chunks: seq<Chunk>, binary: Bytes, buffer: Bytes) {
    |buffer| == |binary| && forall i :: 0 <= i < |chunks| && chunks[i].exactMatch ==>
      chunks[i].offset + chunks[i].length <= |binary| && Matches(binary, buffer, chunks[i])
  }

  lemma {:induction false} PlanMatchesAt(chunks: seq<Chunk>, binary: Bytes, buffer: Bytes, k: nat)
    requires PlanMatches(chunks, binary, buffer) && k < |chunks|
    ensures |buffer| == |binary|
    ensures chunks[k].exactMatch ==>
      chunks[k].offset + chunks[k].length <= |binary| && Matches(binary, buffer, chunks[k])
  {
  }

  lemma {:induction false} PlanStaysMatched(chunks: seq<Chunk>, binary: Bytes, before: Bytes, after: Bytes)
    requires Evolves(before, after, binary) && PlanMatches(chunks, binary, before)
    ensures PlanMatches(chunks, binary, after)
  {
    forall i | 0 <= i < |chunks| && chunks[i].exactMatch
      ensures chunks[i].offset + chunks[i].length <= |binary| && Matches(binary, after, chunks[i])
    {
      MatchedStaysMatched(before, after, binary, chunks[i]);
    }
  }

  /** The records carry the plan's evidence, and the snapshot lists exactly the confirmed ones. */
  ghost predicate AgreesWithSnapshot(records: seq<Record>, chunks: seq<Chunk>, snapshot: set<nat>)
    requires |records| == |chunks|
  {
    forall i :: 0 <= i < |records| ==>
      SameEvidence(records[i], chunks[i]) && (i in snapshot <==> records[i].status == Confirmed)
  }

  ghost predicate NoStrayBelow(records: seq<Record>, chunks: seq<Chunk>, n: nat)
    requires |records| == |chunks| && n <= |chunks|
  {
    forall i, j :: 0 <= i < j < n && records[i].status == records[j].status == Planned && chunks[j].exactMatch
      ==> chunks[i].exactMatch
  }

  lemma {:induction false} NoStrayAtAll(records: seq<Record>, chunks: seq<Chunk>)
    requires |records| == |chunks|
    ensures NoStrayBelow(records, chunks, |chunks|) ==> NoStray(records, chunks)
  {
  }

  lemma {:induction false} NothingScanned(records: seq<Record>, chunks: seq<Chunk>, trace: seq<Action>)
    requires |records| == |chunks| && trace == []
    ensures NoStrayBelow(records, chunks, 0) && SavedShapes(trace)
  {
  }

  /** One scanned chunk and strays: a matching planned chunk behind a lacking one shows up as a gap. */
  lemma {:induction false} StraysSeen(start: seq<Record>, chunks: seq<Chunk>, before: seq<Record>, after: seq<Record>,
                   trace0: seq<Action>, trace1: seq<Action>, k: nat, step: ResumeStep)
    requires k < |start| == |chunks| == |before| == |after| && OnlyChanged(before, after, k)
    requires before[k] == start[k] && trace0 <= trace1
    requires forall i :: 0 <= i < k ==>
      && (before[i].status == Confirmed || (Lacking(before, chunks, i) && start[i].status == Planned))
      && (start[i].status == Planned && before[i].status == Confirmed ==> chunks[i].exactMatch)
    requires step.Runnable? && step.exact && start[k].status == Planned ==> Saved(k, after) in trace1
    requires step.Runnable? && step.exact ==> after[k].status == Confirmed
    requires step.Runnable? && !step.exact ==> !chunks[k].exactMatch
    ensures NoStray(start, chunks) && chunks[k].exactMatch ==> !StrayAt(before, k)
    ensures (SavedGapFree(trace0) ==> NoStrayBelow(start, chunks, k)) && step.Runnable? ==>
      (SavedGapFree(trace1) ==> NoStrayBelow(start, chunks, k + 1))
  {
    assert forall a :: a in trace0 ==> a in trace1;
    if SavedGapFree(trace1) && step.Runnable? && step.exact && start[k].status == Planned {
      assert GapFree(after);
    }
  }

  /** What resuming a chunk leads to: it can run, the window is over, or an exception. */
  datatype ResumeStep = Runnable(exact: bool) | Over(status: WindowStatus) | Exception

  /** Record `k` is planned and not all records before it are confirmed. */
  ghost predicate StrayAt(records: seq<Record>, k: nat)
    requires k < |records|
  {
    records[k].status == Planned && exists i :: 0 <= i < k && records[i].status != Confirmed
  }

  lemma {:induction false} ResumedRecordIsValid(records: seq<Record>, n: nat, verdict: Status)
    requires ValidRecords(records) && n < |records|
    requires verdict == Confirmed || verdict == Failed || verdict == Unknown
    requires Allowed(records[n].status, verdict)
    ensures records[n].index == n
    ensures ValidRecords(records[n := Updated(records[n], verdict, records[n].signature, None)])
  {
    assert FitsAt(records, n);
    UpdateStaysValid(records, n, Updated(records[n], verdict, records[n].signature, None));
  }

  lemma {:induction false} SavedResumed(before: seq<Record>, k: nat, r: Record, trace: seq<Action>)
    requires k < |before| && r.status != Sent && before[k].status != Confirmed
    ensures var after, more := before[k := r], trace + [Saved(k, before[k := r])];
      && CountHanded(more) == CountHanded(trace)
      && (WindowShape(before) && SavedShapes(trace) && !StrayAt(before, k) ==> WindowShape(after) && SavedShapes(more))
    ensures before[k].status != Planned ==> !StrayAt(before, k)
  {
    ExtendCount(trace, Saved(k, before[k := r]));
    if WindowShape(before) && !StrayAt(before, k) {
      ShapeUpdate(before, k, r);
    }
  }

  /** How the handling of one chunk ended: confirmed, the window over, or an exception. */
  datatype ChunkStep = Settled | Stopped(status: WindowStatus) | Threw

  ghost predicate OnlyChanged(before: seq<Record>, after: seq<Record>, n: nat) {
    |after| == |before| && forall i :: 0 <= i < |after| && i != n ==> after[i] == before[i]
  }

  /** Saves and sends were added that keep the saved states in order and in shape. */
  ghost predicate Orderly(disk0: seq<Record>, trace0: seq<Action>, disk1: seq<Record>, trace1: seq<Action>) {
    && trace0 <= trace1
    && (WindowShape(disk0) && SavedShapes(trace0) ==> WindowShape(disk1) && SavedShapes(trace1))
  }

  lemma {:induction false} Unchanged(disk: seq<Record>, trace: seq<Action>)
    ensures Orderly(disk, trace, disk, trace)
  {
  }

  lemma {:induction false} OrderlyTransitive(disk0: seq<Record>, trace0: seq<Action>, disk1: seq<Record>, trace1: seq<Action>,
                          disk2: seq<Record>, trace2: seq<Action>)
    requires Orderly(disk0, trace0, disk1, trace1) && Orderly(disk1, trace1, disk2, trace2)
    ensures Orderly(disk0, trace0, disk2, trace2)
  {
  }

  lemma {:induction false} SavedOrderly(before: seq<Record>, n: nat, r: Record, trace: seq<Action>)
    requires n < |before| && FrontIs(before, n) && before[n].status != Confirmed
    ensures Orderly(before, trace, before[n := r], trace + [Saved(n, before[n := r])])
    ensures CountHanded(trace + [Saved(n, before[n := r])]) == CountHanded(trace)
  {
    ExtendCount(trace, Saved(n, before[n := r]));
    if WindowShape(before) {
      ShapeUpdate(before, n, r);
    }
  }

  lemma {:induction false} HandedOrderly(disk0: seq<Record>, trace0: seq<Action>, disk1: seq<Record>, trace1: seq<Action>,
                      n: nat, signature: string)
    requires Orderly(disk0, trace0, disk1, trace1)
    ensures Orderly(disk0, trace0, disk1, trace1 + [Handed(n, signature)])
    ensures CountHanded(trace1 + [Handed(n, signature)]) == CountHanded(trace1) + 1
  {
    ExtendCount(trace1, Handed(n, signature));
  }

  lemma {:induction false} UnusedSignatureIsNew(records: seq<Record>, signatures: set<string>)
    ensures SignaturesKnown(records, signatures) ==>
      forall s, i :: s !in signatures && 0 <= i < |records| ==> records[i].signature != Some(s)
  {
  }

  lemma {:induction false} SentRecordIsValid(records: seq<Record>, n: nat, signature: string)
    requires ValidRecords(records) && n < |records| && records[n].status == Planned && signature != ""
    ensures records[n].index == n && records[n].signature.None?
    ensures (forall i :: 0 <= i < |records| ==> records[i].signature != Some(signature)) ==>
      ValidRecords(records[n := Updated(records[n], Sent, Some(signature), None)])
  {
    assert FitsAt(records, n);
    if forall i :: 0 <= i < |records| ==> records[i].signature != Some(signature) {
      UpdateStaysValid(records, n, Updated(records[n], Sent, Some(signature), None));
    }
  }

  lemma {:induction false} SettledRecordIsValid(records: seq<Record>, n: nat, verdict: Status, duration: int)
    requires ValidRecords(records) && n < |records| && 0 <= duration <= MAX_SAFE_INTEGER
    requires records[n].status == Sent || records[n].status == Unknown
    requires verdict == Confirmed || verdict == Failed || verdict == Unknown
    ensures records[n].index == n
    ensures ValidRecords(records[n := Updated(records[n], verdict, records[n].signature,
                                              if verdict == Confirmed then Some(duration) else None)])
  {
    assert FitsAt(records, n);
    UpdateStaysValid(records, n, Updated(records[n], verdict, records[n].signature,
                                         if verdict == Confirmed then Some(duration) else None));
  }

  // ----- what the next window finds

  /** Saved states in shape pass the next window's snapshot check, whatever has landed since. */
  lemma {:induction false} NextSnapshotAccepts(records: seq<Record>, chunks: seq<Chunk>, binary: Bytes, before: Bytes, now: Bytes)
    requires |chunks| == |records| > 0 && Partition(chunks, binary)
    requires forall i :: 0 <= i < |records| ==> SameEvidence(records[i], chunks[i])
    requires WindowShape(records) && Evolves(before, now, binary) && Backed(records, chunks, binary, before)
    ensures Accepts(chunks, records, now, binary)
  {
    StaysBacked(records, chunks, binary, before, now);
    ShapeIsGapFree(records);
    forall i | 0 <= i < |chunks|
      ensures AgreesAt(chunks, records, now, binary, i)
    {
      assert ChunkAt(chunks, binary, i) && BackedAt(records, chunks, binary, now, i);
    }
  }

  /**
   The front of matching chunks is not a formality: with a lacking chunk before
   a matching one, the window's first save is legal and valid, yet it is a state
   that every later snapshot check refuses, whatever lands in the meantime.
   */
  lemma {:induction false} StrayMatchBlocksNextWindow(chunks: seq<Chunk>, binary: Bytes, buffer: Bytes, now: Bytes)
    requires Partition(chunks, binary) && |chunks| == 2 && |binary| == |buffer| && Evolves(buffer, now, binary)
    requires PlanMatches(chunks, binary, buffer)
    requires !chunks[0].exactMatch && chunks[1].exactMatch
    ensures var start := InitialRecords(chunks);
      var saved := start[1 := Updated(start[1], Confirmed, None, None)];
      && Ready(start, chunks, []) && GapFree(start)
      && Legal(Progress(start, None), Saved(1, saved))
      && Backed(saved, chunks, binary, now)
      && !Accepts(chunks, saved, now, binary)
  {
    var start := InitialRecords(chunks);
    InitialRecordsAreValid(chunks, binary);
    ResumedRecordIsValid(start, 1, Confirmed);
    assert FitsAt(start, 1);
    var saved := start[1 := Updated(start[1], Confirmed, None, None)];
    PlanMatchesAt(chunks, binary, buffer, 1);
    MatchedStaysMatched(buffer, now, binary, chunks[1]);
    assert saved[0].status == Planned && saved[1].status == Confirmed;
  }
}
