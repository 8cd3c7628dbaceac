/**
 Upload windows one after another: each plans from the buffer as it is, checks the
 saved records against it and runs (scripts/devnet/upload-execution-command.mjs).
 */
module UploadConvergence {
  import opened ByteStrings
  import opened ChunkRecords
  import opened Network
  import opened Outcomes
  import opened ThrottledUploader
  import opened UploadPlan
  import opened UploadTrace
  import opened ValidationSnapshot
  import opened WindowAnswers
  import opened WindowLog

  /** What a window finds and what it leaves: the saved records, the buffer, the sent chunks and the signatures in use. */
  datatype Site = Site(records: seq<Record>, buffer: Bytes, handed: set<nat>, signatures: set<string>)

  datatype Job = Job(binary: Bytes, maxPayload: nat, limit: nat)

  /** Between windows: nothing is open or failed, and everything sent has landed. */
  ghost predicate Settled(job: Job, site: Site, plan: seq<Chunk>) {
    && ValidRecords(site.records) && Resolved(site.records) && SignaturesKnown(site.records, site.signatures)
    && Delivered(plan, job.binary, site.buffer, site.handed)
  }

  /** One window without faults: refused by the snapshot check, or run to its end. */
  ghost predicate WindowStep(job: Job, site: Site, plan: seq<Chunk>, out: Outcome, next: Site) {
    && |site.buffer| == |job.binary| && PlanFor(plan, job.binary, site.buffer, job.maxPayload)
    && if Accepts(plan, site.records, site.buffer, job.binary) then
         && Undisturbed(out) && WindowEnd(site.records, plan, next.records, out, job.limit)
         && SignaturesKnown(next.records, next.signatures)
         && Delivers(plan, job.binary, site.buffer, site.handed, next.buffer, next.handed, AsSet(out.confirmedIndexes))
       else
         out == Aborted && next == site
  }

  function ConfirmedOnes(records: seq<Record>): set<nat> {
    set i: nat | i < |records| && records[i].status == Confirmed
  }

  /** What an accepted window did, it did as it was told; and so it ended, whatever failed on the way. */
  ghost predicate WindowAsTold(
    plan: seq<Chunk>, policy: Policy, before: seq<Record>, after: seq<Record>, dialogue: seq<Event>, out: Outcome)
    requires |before| == |plan|
  {
    && Faithful(before, dialogue) && OnDisk(before, dialogue) == after
    && if ValidRecords(before) then
        && WindowTold(before, plan, ConfirmedOnes(before), policy, after, dialogue, out)
        && (out.Finished? ==> EndsFor(after, dialogue, out.status))
      else out == Aborted && after == before
  }

  /** Plans, checks the snapshot and runs one window; a plan or a snapshot that is refused changes nothing. */
  method ExecuteUploadWindow(
      binary: Bytes, site: Site, maxPayload: int, size: TransactionSize, policy: Policy, faultFree: bool)
    returns (plan: seq<Chunk>, out: Outcome, next: Site, ghost dialogue: seq<Event>)
    requires forall i :: i in site.handed ==> i < |site.records|
    ensures out.Finished? && out.status == Complete ==> next.buffer == binary
    ensures |binary| != |site.buffer| || maxPayload < 1 ==> out == Aborted && next == site
    ensures |binary| == |site.buffer| && maxPayload >= 1 ==>
      if forall k: nat :: PieceFits(size, |binary|, maxPayload, k) then
        && PlanFor(plan, binary, site.buffer, maxPayload)
        && (if Accepts(plan, site.records, site.buffer, binary)
            then WindowAsTold(plan, policy, site.records, next.records, dialogue, out)
            else out == Aborted && next == site)
        && (faultFree && ValidPolicy(policy) && Settled(Job(binary, maxPayload, policy.maxChunksPerWindow), site, plan) ==>
              WindowStep(Job(binary, maxPayload, policy.maxChunksPerWindow), site, plan, out, next))
      else
        out == Aborted && next == site
  {
    hide PieceFits, PlanFor, Accepts, ValidRecords, WindowEnd, Delivers, Delivered, Backed, Ready, SignaturesKnown, Partition,
      GapFree, NoStray, WindowShape, Resolved, PlanMatches, PossibleLog, Reached, LegalTrace, Replay, Admissible, WindowTold,
      EndsFor, Faithful, OnDisk, WindowAsTold, Dialogue;
    plan, dialogue := [], [];
    var planned := PlanBufferUpload(binary, site.buffer, maxPayload, size);
    if planned.Err? {
      return plan, Aborted, site, [];
    }
    plan := planned.value.chunks;
    var checked := ValidateConfirmedValidationSnapshot(plan, site.records, site.buffer, binary);
    if checked.Err? {
      return plan, Aborted, site, [];
    }
    PlanIsTrue(plan, binary, site.buffer, maxPayload);
    AcceptedIsBacked(plan, site.records, site.buffer, binary);
    AcceptedIsReady(plan, site.records, site.buffer, binary, checked.value);
    var chain := new Chain(binary, plan, faultFree, site.buffer, site.handed, site.signatures, Progress(site.records, None));
    var window := new UploadWindow(chain, site.records);
    out := window.RunPersistedSequentialUpload(checked.value, policy);
    next := Site(window.disk, chain.buffer, chain.handed, chain.signatures);
    dialogue := Dialogue(chain.log);
    AcceptedIsAdmitted(plan, site.records, site.buffer, binary, checked.value);
    RanAsTold(plan, policy, site.records, window.disk, dialogue, out, checked.value);
  }

  lemma {:induction false} AcceptedIsAdmitted(
    plan: seq<Chunk>, records: seq<Record>, buffer: Bytes, binary: Bytes, confirmed: seq<nat>)
    requires Accepts(plan, records, buffer, binary) && |confirmed| <= |records|
    requires forall i :: 0 <= i < |confirmed| ==> confirmed[i] == i && records[i].status == Confirmed
    requires forall i :: |confirmed| <= i < |records| ==> records[i].status != Confirmed
    ensures |records| == |plan| && AsSet(confirmed) == ConfirmedOnes(records)
    ensures Admissible(records, plan, confirmed) <==> ValidRecords(records)
  {
    hide ValidRecords;
    forall i: nat
      ensures i in confirmed <==> i < |records| && records[i].status == Confirmed
    {
      if i < |confirmed| {
        assert confirmed[i] == i;
      }
    }
  }

  lemma {:induction false} RanAsTold(
    plan: seq<Chunk>, policy: Policy, before: seq<Record>, after: seq<Record>, dialogue: seq<Event>, out: Outcome,
    confirmed: seq<nat>)
    requires |before| == |plan| && AsSet(confirmed) == ConfirmedOnes(before)
    requires Admissible(before, plan, confirmed) <==> ValidRecords(before)
    requires Faithful(before, dialogue) && OnDisk(before, dialogue) == after
    requires if Admissible(before, plan, confirmed)
      then WindowTold(before, plan, AsSet(confirmed), policy, after, dialogue, out)
      else out == Aborted && after == before
    requires out.Finished? ==> EndsFor(after, dialogue, out.status)
    ensures WindowAsTold(plan, policy, before, after, dialogue, out)
  {
    hide Admissible, ValidRecords, WindowTold, EndsFor, Faithful, OnDisk, ConfirmedOnes, AsSet;
  }

  lemma {:induction false} PlanIsTrue(plan: seq<Chunk>, binary: Bytes, buffer: Bytes, maxPayload: nat)
    requires |binary| == |buffer| && PlanFor(plan, binary, buffer, maxPayload)
    ensures PlanMatches(plan, binary, buffer) && Partition(plan, binary)
  {
    forall i | 0 <= i < |plan| && plan[i].exactMatch
      ensures plan[i].offset + plan[i].length <= |binary| && Matches(binary, buffer, plan[i])
    {
      assert ChunkAt(plan, binary, i);
    }
  }

  lemma {:induction false} AcceptedIsBacked(plan: seq<Chunk>, records: seq<Record>, buffer: Bytes, binary: Bytes)
    requires Accepts(plan, records, buffer, binary)
    ensures |plan| == |records| && |buffer| == |binary| && Backed(records, plan, binary, buffer)
  {
    forall i | 0 <= i < |records|
      ensures BackedAt(records, plan, binary, buffer, i)
    {
      assert AgreesAt(plan, records, buffer, binary, i);
    }
  }

  lemma {:induction false} AcceptedIsReady(
      plan: seq<Chunk>, records: seq<Record>, buffer: Bytes, binary: Bytes, confirmed: seq<nat>)
    requires Accepts(plan, records, buffer, binary) && |confirmed| <= |records|
    requires forall i :: 0 <= i < |confirmed| ==> confirmed[i] == i && records[i].status == Confirmed
    requires forall i :: |confirmed| <= i < |records| ==> records[i].status != Confirmed
    ensures ValidRecords(records) && Resolved(records) ==> Ready(records, plan, confirmed)
  {
    forall i | 0 <= i < |records|
      ensures SameEvidence(records[i], plan[i])
    {
      assert AgreesAt(plan, records, buffer, binary, i);
    }
    forall i: nat
      ensures i in confirmed <==> i < |records| && records[i].status == Confirmed
    {
      if i < |confirmed| {
        assert confirmed[i] == i;
      }
    }
  }

  // ----- the same cut at every window

  /** The same piece of the binary, whatever the buffer holds. */
  predicate SameCut(a: Chunk, b: Chunk) {
    a.index == b.index && a.offset == b.offset && a.length == b.length && a.sha256 == b.sha256
  }

  lemma {:induction false} PlanAt(plan: seq<Chunk>, binary: Bytes, buffer: Bytes, maxPayload: nat, i: nat)
    requires |buffer| == |binary| && PlanFor(plan, binary, buffer, maxPayload)
    ensures End(plan, |plan|) == |binary|
    ensures i < |plan| ==>
      && ChunkAt(plan, binary, i) && plan[i].length <= maxPayload
      && (i < |plan| - 1 ==> plan[i].length == maxPayload)
      && plan[i].offset + plan[i].length <= |binary|
      && (plan[i].exactMatch <==> Matches(binary, buffer, plan[i]))
  {
    hide End;
  }

  /** A piece is as long as the payload allows, and the pieces go on until the binary ends. */
  lemma {:induction false} PieceOf(plan: seq<Chunk>, binary: Bytes, buffer: Bytes, maxPayload: nat, i: nat)
    requires |buffer| == |binary| && PlanFor(plan, binary, buffer, maxPayload) && i <= |plan|
    ensures i < |plan| <==> End(plan, i) < |binary|
    ensures i < |plan| ==>
      && plan[i].index == i && plan[i].offset == End(plan, i) && plan[i].offset + plan[i].length <= |binary|
      && plan[i].length == (if maxPayload <= |binary| - End(plan, i) then maxPayload else |binary| - End(plan, i))
      && plan[i].sha256 == Sha256(Slice(binary, plan[i]))
  {
    hide PlanFor, Matches;
    PlanAt(plan, binary, buffer, maxPayload, i);
    PlanAt(plan, binary, buffer, maxPayload, i + 1);
  }

  /** Plans for two states of the buffer differ in their match flags only. */
  lemma {:induction false} CutIsDetermined(
      a: seq<Chunk>, b: seq<Chunk>, binary: Bytes, before: Bytes, after: Bytes, maxPayload: nat)
    requires |before| == |after| == |binary|
    requires PlanFor(a, binary, before, maxPayload) && PlanFor(b, binary, after, maxPayload)
    ensures |a| == |b|
    ensures forall i :: 0 <= i < |a| ==> SameCut(a[i], b[i])
  {
    hide PlanFor;
    var n := 0;
    while n < |a| && n < |b|
      invariant n <= |a| && n <= |b| && End(a, n) == End(b, n)
      invariant forall i :: 0 <= i < n ==> SameCut(a[i], b[i])
    {
      PieceOf(a, binary, before, maxPayload, n);
      PieceOf(b, binary, after, maxPayload, n);
      n := n + 1;
    }
    PieceOf(a, binary, before, maxPayload, n);
    PieceOf(b, binary, after, maxPayload, n);
  }

  /** With the buffer unchanged the plan is the same again. */
  lemma {:induction false} PlanIsDetermined(a: seq<Chunk>, b: seq<Chunk>, binary: Bytes, buffer: Bytes, maxPayload: nat)
    requires |buffer| == |binary|
    requires PlanFor(a, binary, buffer, maxPayload) && PlanFor(b, binary, buffer, maxPayload)
    ensures a == b
  {
    hide PlanFor, ChunkAt, Matches;
    CutIsDetermined(a, b, binary, buffer, buffer, maxPayload);
    forall i | 0 <= i < |a|
      ensures a[i] == b[i]
    {
      assert SameCut(a[i], b[i]);
      PlanAt(a, binary, buffer, maxPayload, i);
      PlanAt(b, binary, buffer, maxPayload, i);
      SameCutMatches(binary, buffer, a[i], b[i]);
    }
  }

  lemma {:induction false} SameCutMatches(binary: Bytes, buffer: Bytes, a: Chunk, b: Chunk)
    requires SameCut(a, b) && |binary| == |buffer| && a.offset + a.length <= |binary|
    ensures Matches(binary, buffer, a) <==> Matches(binary, buffer, b)
  {
  }

  // ----- what counts

  /** Every planned chunk that matches has at most `limit` lacking ones before it. */
  ghost predicate WithinReach(records: seq<Record>, chunks: seq<Chunk>, limit: nat)
    requires |records| == |chunks|
  {
    forall j :: 0 <= j < |records| && records[j].status == Planned && chunks[j].exactMatch ==>
      Pending(records, chunks, j) <= limit
  }

  lemma {:induction false} PendingGrows(records: seq<Record>, chunks: seq<Chunk>, m: nat, n: nat)
    requires m <= n <= |records| == |chunks|
    ensures Pending(records, chunks, m) <= Pending(records, chunks, n)
    ensures m < n && Lacking(records, chunks, m) ==> Pending(records, chunks, m) < Pending(records, chunks, n)
    decreases n
  {
    if m < n {
      PendingGrows(records, chunks, m, n - 1);
    }
  }

  /** The lacking chunk that has exactly `m` lacking ones before it. */
  lemma {:induction false} LackingAfter(records: seq<Record>, chunks: seq<Chunk>, m: nat, n: nat) returns (i: nat)
    requires n <= |records| == |chunks| && Pending(records, chunks, n) > m
    ensures i < n && Lacking(records, chunks, i) && Pending(records, chunks, i) == m
  {
    if Pending(records, chunks, n - 1) > m {
      i := LackingAfter(records, chunks, m, n - 1);
    } else {
      i := n - 1;
    }
  }

  /** Matching chunks without a lacking one before them are within reach of every limit. */
  lemma {:induction false} NoStrayIsWithinReach(records: seq<Record>, chunks: seq<Chunk>, limit: nat)
    requires |records| == |chunks| && NoStray(records, chunks)
    ensures WithinReach(records, chunks, limit)
  {
    forall j | 0 <= j < |records| && records[j].status == Planned && chunks[j].exactMatch
      ensures Pending(records, chunks, j) <= limit
    {
      if Pending(records, chunks, j) > 0 {
        var i := LackingAfter(records, chunks, 0, j);
        assert false;
      }
    }
  }

  lemma {:induction false} OneWindowReaches(records: seq<Record>, chunks: seq<Chunk>, limit: nat)
    requires |records| == |chunks| && Pending(records, chunks, |records|) <= limit
    ensures WithinReach(records, chunks, limit)
  {
    forall j | 0 <= j < |records|
      ensures Pending(records, chunks, j) <= limit
    {
      PendingGrows(records, chunks, j, |records|);
    }
  }

  // ----- from one window to the next

  /** What an accepted window leaves is gap-free exactly when every matching chunk was within its reach. */
  lemma {:induction false} EndIsGapFree(start: seq<Record>, chunks: seq<Chunk>, end: seq<Record>, out: Outcome, limit: nat)
    requires |start| == |chunks| && Resolved(start) && GapFree(start) && WindowEnd(start, chunks, end, out, limit)
    ensures GapFree(end) <==> WithinReach(start, chunks, limit)
  {
    hide Pending, ValidRecords;
    if WithinReach(start, chunks, limit) {
      forall i, j | 0 <= i < j < |end| && end[j].status == Confirmed
        ensures end[i].status == Confirmed
      {
        if end[i].status != Confirmed {
          PendingGrows(start, chunks, i, j);
        }
      }
    } else {
      var j :| 0 <= j < |start| && start[j].status == Planned && chunks[j].exactMatch && Pending(start, chunks, j) > limit;
      var i := LackingAfter(start, chunks, limit, j);
      assert end[i].status == Planned && end[j].status == Confirmed;
    }
  }

  /** In a partition no position lies in two chunks. */
  lemma {:induction false} RangesApart(chunks: seq<Chunk>, binary: Bytes, i: nat, j: nat, p: nat)
    requires Partition(chunks, binary) && i < j < |chunks|
    requires p < chunks[i].offset + chunks[i].length
    ensures p < chunks[j].offset
    decreases j
  {
    assert ChunkAt(chunks, binary, j) && ChunkAt(chunks, binary, j - 1);
    if i < j - 1 {
      RangesApart(chunks, binary, i, j - 1, p);
    }
  }

  /** A chunk that was not written still lacks what it lacked. */
  lemma {:induction false} UnwrittenStaysLacking(
      chunks: seq<Chunk>, binary: Bytes, before: Bytes, after: Bytes, written: set<nat>, i: nat)
    requires Partition(chunks, binary) && WrittenExactly(chunks, binary, before, after, written)
    requires i < |chunks| && i !in written
    ensures chunks[i].offset + chunks[i].length <= |binary|
    ensures Matches(binary, after, chunks[i]) <==> Matches(binary, before, chunks[i])
  {
    var c := chunks[i];
    assert ChunkAt(chunks, binary, i);
    forall p | c.offset <= p < c.offset + c.length
      ensures after[p] == before[p]
    {
      if InChunks(chunks, written, p) {
        var k :| k in written && k < |chunks| && chunks[k].offset <= p < chunks[k].offset + chunks[k].length;
        if k < i {
          RangesApart(chunks, binary, k, i, p);
        } else {
          RangesApart(chunks, binary, i, k, p);
        }
        assert false;
      }
    }
    assert Slice(after, c) == Slice(before, c);
  }

  /** The window was accepted and ran: what is confirmed afterwards is in the buffer, and what is planned is still lacking. */
  ghost predicate Ran(job: Job, site: Site, plan: seq<Chunk>, out: Outcome, next: Site) {
    && Settled(job, site, plan) && WindowStep(job, site, plan, out, next)
    && Accepts(plan, site.records, site.buffer, job.binary)
  }

  lemma {:induction false} RanParts(job: Job, site: Site, plan: seq<Chunk>, out: Outcome, next: Site)
    requires Ran(job, site, plan, out, next)
    ensures |site.buffer| == |next.buffer| == |job.binary| && Partition(plan, job.binary)
    ensures PlanFor(plan, job.binary, site.buffer, job.maxPayload)
    ensures |site.records| == |plan| > 0 && WindowEnd(site.records, plan, next.records, out, job.limit)
    ensures Resolved(site.records) && GapFree(site.records)
    ensures forall i :: 0 <= i < |plan| ==> SameEvidence(site.records[i], plan[i])
    ensures Backed(site.records, plan, job.binary, site.buffer)
    ensures WrittenExactly(plan, job.binary, site.buffer, next.buffer, AsSet(out.confirmedIndexes))
    ensures Evolves(site.buffer, next.buffer, job.binary)
    ensures SignaturesKnown(next.records, next.signatures) && Delivered(plan, job.binary, next.buffer, next.handed)
  {
    hide WindowEnd, PlanFor, Delivered, SignaturesKnown, Partition, ChunkAt, Matches;
    PlanIsTrue(plan, job.binary, site.buffer, job.maxPayload);
    AcceptedIsBacked(plan, site.records, site.buffer, job.binary);
    forall i | 0 <= i < |plan|
      ensures SameEvidence(site.records[i], plan[i])
    {
      assert AgreesAt(plan, site.records, site.buffer, job.binary, i);
    }
  }

  lemma {:induction false} EndIsBacked(job: Job, site: Site, plan: seq<Chunk>, out: Outcome, next: Site)
    requires Ran(job, site, plan, out, next)
    ensures |next.buffer| == |job.binary| && Backed(next.records, plan, job.binary, next.buffer)
  {
    hide Ran, Partition, GapFree, PlanFor, Delivered, SignaturesKnown;
    RanParts(job, site, plan, out, next);
    forall i | 0 <= i < |next.records|
      ensures BackedAt(next.records, plan, job.binary, next.buffer, i)
    {
      if next.records[i].status == Confirmed {
        PlanAt(plan, job.binary, site.buffer, job.maxPayload, i);
        assert BackedAt(site.records, plan, job.binary, site.buffer, i);
        if WithinWindow(site.records, plan, job.limit, i) {
          WrittenMatches(plan, job.binary, site.buffer, next.buffer, AsSet(out.confirmedIndexes), i);
        } else {
          MatchedStaysMatched(site.buffer, next.buffer, job.binary, plan[i]);
        }
      }
    }
  }

  lemma {:induction false} WrittenMatches(
      chunks: seq<Chunk>, binary: Bytes, before: Bytes, after: Bytes, written: set<nat>, i: nat)
    requires WrittenExactly(chunks, binary, before, after, written) && i in written
    requires i < |chunks| && chunks[i].offset + chunks[i].length <= |binary|
    ensures Matches(binary, after, chunks[i])
  {
    var c := chunks[i];
    forall p | c.offset <= p < c.offset + c.length
      ensures after[p] == binary[p]
    {
      assert InChunks(chunks, written, p);
    }
    assert Slice(after, c) == Slice(binary, c);
  }

  /** At the next window every planned chunk is one that the buffer lacks. */
  lemma {:induction false} PlannedStaysLacking(job: Job, site: Site, plan: seq<Chunk>, out: Outcome, next: Site, plan2: seq<Chunk>)
    requires Ran(job, site, plan, out, next)
    requires |next.buffer| == |job.binary| && PlanFor(plan2, job.binary, next.buffer, job.maxPayload)
    ensures |next.records| == |site.records| == |plan| == |plan2|
    ensures forall i :: 0 <= i < |plan| && next.records[i].status == Planned ==>
      Lacking(site.records, plan, i) && Lacking(next.records, plan2, i)
  {
    hide Ran, Partition, GapFree, PlanFor, Delivered, SignaturesKnown;
    RanParts(job, site, plan, out, next);
    CutIsDetermined(plan, plan2, job.binary, site.buffer, next.buffer, job.maxPayload);
    forall i | 0 <= i < |plan| && next.records[i].status == Planned
      ensures Lacking(site.records, plan, i) && Lacking(next.records, plan2, i)
    {
      PlanAt(plan, job.binary, site.buffer, job.maxPayload, i);
      PlanAt(plan2, job.binary, next.buffer, job.maxPayload, i);
      UnwrittenStaysLacking(plan, job.binary, site.buffer, next.buffer, AsSet(out.confirmedIndexes), i);
    }
  }

  lemma {:induction false} EndParts(start: seq<Record>, chunks: seq<Chunk>, end: seq<Record>, out: Outcome, limit: nat)
    requires |start| == |chunks| && WindowEnd(start, chunks, end, out, limit)
    ensures |end| == |start| && ValidRecords(end) && Resolved(end)
    ensures forall i :: 0 <= i < |start| ==> SameRange(start[i], end[i])
    ensures forall i :: 0 <= i < |start| ==>
      (end[i].status == Planned <==> Lacking(start, chunks, i) && Pending(start, chunks, i) >= limit)
  {
    hide ValidRecords, Pending;
  }

  /** The next window starts settled again. */
  lemma {:induction false} StaysSettled(job: Job, site: Site, plan: seq<Chunk>, out: Outcome, next: Site, plan2: seq<Chunk>)
    requires Settled(job, site, plan) && WindowStep(job, site, plan, out, next)
    requires |next.buffer| == |job.binary| && PlanFor(plan2, job.binary, next.buffer, job.maxPayload)
    ensures Settled(job, next, plan2)
  {
    hide Settled, PlanFor, Partition;
    if Accepts(plan, site.records, site.buffer, job.binary) {
      assert Ran(job, site, plan, out, next);
      RanStaysSettled(job, site, plan, out, next, plan2);
    } else {
      PlanIsDetermined(plan, plan2, job.binary, site.buffer, job.maxPayload);
    }
  }

  lemma {:induction false} RanStaysSettled(job: Job, site: Site, plan: seq<Chunk>, out: Outcome, next: Site, plan2: seq<Chunk>)
    requires Ran(job, site, plan, out, next)
    requires |next.buffer| == |job.binary| && PlanFor(plan2, job.binary, next.buffer, job.maxPayload)
    ensures Settled(job, next, plan2)
  {
    hide Ran, Partition, GapFree, PlanFor, SignaturesKnown, WindowEnd, ValidRecords, Backed, WrittenExactly, Evolves;
    RanParts(job, site, plan, out, next);
    EndParts(site.records, plan, next.records, out, job.limit);
    CutIsDetermined(plan, plan2, job.binary, site.buffer, next.buffer, job.maxPayload);
    SameCutDelivered(plan, plan2, job.binary, next.buffer, next.handed);
  }

  lemma {:induction false} SameCutDelivered(a: seq<Chunk>, b: seq<Chunk>, binary: Bytes, buffer: Bytes, handed: set<nat>)
    requires |a| == |b| && (forall i :: 0 <= i < |a| ==> SameCut(a[i], b[i]))
    requires Delivered(a, binary, buffer, handed)
    ensures Delivered(b, binary, buffer, handed)
  {
    forall i | i in handed
      ensures HeldAt(b, binary, buffer, i)
    {
      assert HeldAt(a, binary, buffer, i);
    }
  }

  lemma {:induction false} AcceptsWhenGapFree(plan: seq<Chunk>, records: seq<Record>, buffer: Bytes, binary: Bytes)
    requires |buffer| == |binary| && |plan| == |records| > 0 && End(plan, |plan|) == |binary|
    requires forall i :: 0 <= i < |plan| ==> AgreesAt(plan, records, buffer, binary, i)
    ensures Accepts(plan, records, buffer, binary) <==> GapFree(records)
  {
  }

  /** The next snapshot check accepts exactly when every matching chunk was within the window's reach. */
  lemma {:induction false} NextWindowStarts(job: Job, site: Site, plan: seq<Chunk>, out: Outcome, next: Site, plan2: seq<Chunk>)
    requires Ran(job, site, plan, out, next)
    requires |next.buffer| == |job.binary| && PlanFor(plan2, job.binary, next.buffer, job.maxPayload)
    ensures |site.records| == |plan|
    ensures Accepts(plan2, next.records, next.buffer, job.binary) <==> WithinReach(site.records, plan, job.limit)
  {
    hide Ran, Partition, GapFree, PlanFor, Delivered, SignaturesKnown, WithinReach, Backed, ChunkAt, WindowEnd, ValidRecords,
      WrittenExactly, Evolves, Accepts, Matches, Resolved;
    RanParts(job, site, plan, out, next);
    EndParts(site.records, plan, next.records, out, job.limit);
    CutIsDetermined(plan, plan2, job.binary, site.buffer, next.buffer, job.maxPayload);
    EndIsGapFree(site.records, plan, next.records, out, job.limit);
    EndIsBacked(job, site, plan, out, next);
    PlanAt(plan2, job.binary, next.buffer, job.maxPayload, 0);
    forall i | 0 <= i < |plan2|
      ensures AgreesAt(plan2, next.records, next.buffer, job.binary, i)
    {
      PlanAt(plan2, job.binary, next.buffer, job.maxPayload, i);
      StaysAgreed(plan, plan2, site.records, next.records, job.binary, next.buffer, i);
    }
    AcceptsWhenGapFree(plan2, next.records, next.buffer, job.binary);
  }

  lemma {:induction false} StaysAgreed(plan: seq<Chunk>, plan2: seq<Chunk>, before: seq<Record>, after: seq<Record>,
                                       binary: Bytes, buffer: Bytes, i: nat)
    requires i < |plan| == |plan2| == |before| == |after| && |buffer| == |binary| && Backed(after, plan, binary, buffer)
    requires SameCut(plan[i], plan2[i]) && SameEvidence(before[i], plan[i]) && SameRange(before[i], after[i])
    requires ChunkAt(plan2, binary, i)
    ensures AgreesAt(plan2, after, buffer, binary, i)
  {
    assert BackedAt(after, plan, binary, buffer, i);
  }

  /** A window takes its limit off what is pending. */
  lemma {:induction false} PendingAfter(start: seq<Record>, chunks: seq<Chunk>, end: seq<Record>, chunks2: seq<Chunk>, limit: nat, n: nat)
    requires n <= |start| == |chunks| == |end| == |chunks2|
    requires forall i :: 0 <= i < |end| ==>
      (Lacking(end, chunks2, i) <==> Lacking(start, chunks, i) && Pending(start, chunks, i) >= limit)
    ensures Pending(end, chunks2, n) == if Pending(start, chunks, n) <= limit then 0 else Pending(start, chunks, n) - limit
  {
    if n > 0 {
      PendingAfter(start, chunks, end, chunks2, limit, n - 1);
      assert Lacking(end, chunks2, n - 1) <==> Lacking(start, chunks, n - 1) && Pending(start, chunks, n - 1) >= limit;
    }
  }

  // ----- any number of windows

  /** Windows without faults, each planned from the buffer and started on the records that the one before it left. */
  ghost predicate FaultFreeRun(job: Job, sites: seq<Site>, plans: seq<seq<Chunk>>, outs: seq<Outcome>) {
    && |sites| == |outs| + 1 && |plans| == |outs|
    && forall w :: 0 <= w < |outs| ==> WindowStep(job, sites[w], plans[w], outs[w], sites[w + 1])
  }

  /**
   The last of any number of windows reports COMPLETE exactly when the first one
   was accepted, had every matching chunk within its reach, and together they may
   send as much as was pending.
   */
  lemma {:induction false} WindowsConverge(job: Job, sites: seq<Site>, plans: seq<seq<Chunk>>, outs: seq<Outcome>)
    requires FaultFreeRun(job, sites, plans, outs) && |outs| > 0 && job.limit > 0 && Settled(job, sites[0], plans[0])
    ensures outs[|outs| - 1].Finished? && outs[|outs| - 1].status == Complete <==>
      && Accepts(plans[0], sites[0].records, sites[0].buffer, job.binary)
      && WithinReach(sites[0].records, plans[0], job.limit)
      && Pending(sites[0].records, plans[0], |plans[0]|) <= |outs| * job.limit
    ensures outs[|outs| - 1].Finished? && outs[|outs| - 1].status == Complete ==> sites[|outs|].buffer == job.binary
    decreases |outs|
  {
    hide Settled, WindowStep, Accepts, WithinReach, Ran, PlanFor, Pending;
    assert FirstStep: WindowStep(job, sites[0], plans[0], outs[0], sites[1]);
    FirstWindow(job, sites[0], plans[0], outs[0], sites[1]);
    if |outs| > 1 {
      assert WindowStep(job, sites[1], plans[1], outs[1], sites[2]);
      SecondWindow(job, sites[0], plans[0], outs[0], sites[1], plans[1], outs[1], sites[2]);
      forall w | 0 <= w < |outs[1..]|
        ensures WindowStep(job, sites[1..][w], plans[1..][w], outs[1..][w], sites[1..][w + 1])
      {
        assert WindowStep(job, sites[w + 1], plans[w + 1], outs[w + 1], sites[w + 2]);
      }
      WindowsConverge(job, sites[1..], plans[1..], outs[1..]);
      OneLess(|outs|, job.limit);
    }
  }

  lemma {:induction false} OneLess(n: int, m: int)
    ensures (n - 1) * m == n * m - m
  {
  }

  lemma {:induction false} FirstWindow(job: Job, site: Site, plan: seq<Chunk>, out: Outcome, next: Site)
    requires WindowStep(job, site, plan, out, next) && Settled(job, site, plan)
    ensures Accepts(plan, site.records, site.buffer, job.binary) ==> |site.records| == |plan|
    ensures out.Finished? && out.status == Complete <==>
      && Accepts(plan, site.records, site.buffer, job.binary)
      && WithinReach(site.records, plan, job.limit)
      && Pending(site.records, plan, |plan|) <= job.limit
    ensures out.Finished? && out.status == Complete ==> next.buffer == job.binary
  {
    hide Settled, PlanFor, WithinReach, Pending, Partition;
    if Accepts(plan, site.records, site.buffer, job.binary) {
      assert Ran(job, site, plan, out, next);
      RanParts(job, site, plan, out, next);
      if Pending(site.records, plan, |plan|) <= job.limit {
        OneWindowReaches(site.records, plan, job.limit);
        EndIsBacked(job, site, plan, out, next);
        forall i | 0 <= i < |plan|
          ensures next.records[i].status == Confirmed
        {
          PendingGrows(site.records, plan, i, |plan|);
        }
        CompleteBuffer(next.records, plan, job.binary, next.buffer);
      }
    }
  }

  /** What the first window means for the second one. */
  lemma {:induction false} SecondWindow(job: Job, site: Site, plan: seq<Chunk>, out: Outcome, next: Site,
                                        plan2: seq<Chunk>, out2: Outcome, last: Site)
    requires WindowStep(job, site, plan, out, next) && Settled(job, site, plan)
    requires WindowStep(job, next, plan2, out2, last)
    ensures Settled(job, next, plan2)
    ensures Accepts(plan2, next.records, next.buffer, job.binary) <==>
      Accepts(plan, site.records, site.buffer, job.binary) && WithinReach(site.records, plan, job.limit)
    ensures Accepts(plan2, next.records, next.buffer, job.binary) ==>
      var pending := Pending(site.records, plan, |plan|);
      && WithinReach(next.records, plan2, job.limit)
      && Pending(next.records, plan2, |plan2|) == if pending <= job.limit then 0 else pending - job.limit
  {
    hide Settled, PlanFor, WithinReach, Pending, Partition;
    StaysSettled(job, site, plan, out, next, plan2);
    if Accepts(plan, site.records, site.buffer, job.binary) {
      assert Ran(job, site, plan, out, next);
      NextWindowStarts(job, site, plan, out, next, plan2);
      PlannedStaysLacking(job, site, plan, out, next, plan2);
      EndParts(site.records, plan, next.records, out, job.limit);
      PendingAfter(site.records, plan, next.records, plan2, job.limit, |plan|);
      LackingIsWithinReach(next.records, plan2, job.limit);
    } else {
      PlanIsDetermined(plan, plan2, job.binary, site.buffer, job.maxPayload);
    }
  }

  lemma {:induction false} LackingIsWithinReach(records: seq<Record>, chunks: seq<Chunk>, limit: nat)
    requires |records| == |chunks|
    requires forall i :: 0 <= i < |records| && records[i].status == Planned ==> Lacking(records, chunks, i)
    ensures WithinReach(records, chunks, limit)
  {
  }

  /** In particular, matching chunks that no lacking one precedes never stand in the way. */
  lemma {:induction false} FrontsConverge(job: Job, sites: seq<Site>, plans: seq<seq<Chunk>>, outs: seq<Outcome>)
    requires FaultFreeRun(job, sites, plans, outs) && |outs| > 0 && job.limit > 0 && Settled(job, sites[0], plans[0])
    requires Accepts(plans[0], sites[0].records, sites[0].buffer, job.binary) && NoStray(sites[0].records, plans[0])
    ensures outs[|outs| - 1].Finished? && outs[|outs| - 1].status == Complete <==>
      Pending(sites[0].records, plans[0], |plans[0]|) <= |outs| * job.limit
  {
    hide Settled, WindowStep, NoStray, Pending;
    NoStrayIsWithinReach(sites[0].records, plans[0], job.limit);
    WindowsConverge(job, sites, plans, outs);
  }

  lemma {:induction false} RefusedAgain(job: Job, site: Site, plan: seq<Chunk>, out: Outcome, next: Site, plan2: seq<Chunk>)
    requires WindowStep(job, site, plan, out, next) && !Accepts(plan, site.records, site.buffer, job.binary)
    ensures out == Aborted && next == site
    ensures |next.buffer| == |job.binary| && PlanFor(plan2, job.binary, next.buffer, job.maxPayload) ==>
      !Accepts(plan2, next.records, next.buffer, job.binary)
  {
    hide PlanFor, Accepts;
    if |next.buffer| == |job.binary| && PlanFor(plan2, job.binary, next.buffer, job.maxPayload) {
      PlanIsDetermined(plan, plan2, job.binary, site.buffer, job.maxPayload);
    }
  }

  lemma {:induction false} StepPlans(job: Job, site: Site, plan: seq<Chunk>, out: Outcome, next: Site)
    requires WindowStep(job, site, plan, out, next)
    ensures |site.buffer| == |job.binary| && PlanFor(plan, job.binary, site.buffer, job.maxPayload)
  {
  }

  /** Otherwise the windows after the first are refused one and all, and nothing changes any more. */
  lemma {:induction false} BlockedForGood(job: Job, sites: seq<Site>, plans: seq<seq<Chunk>>, outs: seq<Outcome>, w: nat)
    requires FaultFreeRun(job, sites, plans, outs) && 0 < w < |outs| && Settled(job, sites[0], plans[0])
    requires Accepts(plans[0], sites[0].records, sites[0].buffer, job.binary) ==>
      !WithinReach(sites[0].records, plans[0], job.limit)
    ensures !Accepts(plans[w], sites[w].records, sites[w].buffer, job.binary)
    ensures outs[w] == Aborted && sites[w + 1] == sites[w]
  {
    hide Settled, WithinReach, PlanFor, Accepts, WindowStep;
    assert WindowStep(job, sites[w - 1], plans[w - 1], outs[w - 1], sites[w]);
    assert WindowStep(job, sites[w], plans[w], outs[w], sites[w + 1]);
    StepPlans(job, sites[w], plans[w], outs[w], sites[w + 1]);
    if w == 1 {
      SecondWindow(job, sites[0], plans[0], outs[0], sites[1], plans[1], outs[1], sites[2]);
    } else {
      BlockedForGood(job, sites, plans, outs, w - 1);
      RefusedAgain(job, sites[w - 1], plans[w - 1], outs[w - 1], sites[w], plans[w]);
    }
    RefusedAgain(job, sites[w], plans[w], outs[w], sites[w + 1], plans[w]);
  }

  /**
   Three one-byte chunks, the last a zero that a fresh buffer already holds, and one
   chunk to a window: the first window leaves a gap, and no later one starts.
   */
  lemma {:induction false} ZeroTailBlocks(sites: seq<Site>, plans: seq<seq<Chunk>>, outs: seq<Outcome>)
    requires FaultFreeRun(Job([1, 2, 0], 1, 1), sites, plans, outs) && |outs| > 0
    requires sites[0] == Site(InitialRecords(plans[0]), [0, 0, 0], {}, {})
    ensures |plans[0]| == 3 && Accepts(plans[0], sites[0].records, [0, 0, 0], [1, 2, 0])
    ensures |sites[1].records| == 3 && !GapFree(sites[1].records)
    ensures |outs| > 1 ==> outs[|outs| - 1] == Aborted
  {
    var job := Job([1, 2, 0], 1, 1);
    assert WindowStep(job, sites[0], plans[0], outs[0], sites[1]);
    assert PlanFor(plans[0], [1, 2, 0], [0, 0, 0], 1);
    hide FaultFreeRun, WindowStep;
    ZeroTailPlan(plans[0]);
    ZeroTailStarts(plans[0]);
    assert Ran(job, sites[0], plans[0], outs[0], sites[1]);
    RanParts(job, sites[0], plans[0], outs[0], sites[1]);
    EndIsGapFree(sites[0].records, plans[0], sites[1].records, outs[0], 1);
    if |outs| > 1 {
      BlockedForGood(job, sites, plans, outs, |outs| - 1);
    }
  }

  lemma {:induction false} ZeroTailPlan(plan: seq<Chunk>)
    requires PlanFor(plan, [1, 2, 0], [0, 0, 0], 1)
    ensures |plan| == 3 && !plan[0].exactMatch && !plan[1].exactMatch && plan[2].exactMatch
  {
    hide PlanFor;
    var binary, buffer: Bytes := [1, 2, 0], [0, 0, 0];
    PieceOf(plan, binary, buffer, 1, 0);
    PieceOf(plan, binary, buffer, 1, 1);
    PieceOf(plan, binary, buffer, 1, 2);
    PieceOf(plan, binary, buffer, 1, 3);
    PlanAt(plan, binary, buffer, 1, 0);
    PlanAt(plan, binary, buffer, 1, 1);
    PlanAt(plan, binary, buffer, 1, 2);
    assert Slice(binary, plan[0]) == [1] && Slice(buffer, plan[0]) == [0];
    assert Slice(binary, plan[1]) == [2] && Slice(buffer, plan[1]) == [0];
    assert Slice(binary, plan[2]) == [0] && Slice(buffer, plan[2]) == [0];
  }

  lemma {:induction false} ZeroTailStarts(plan: seq<Chunk>)
    requires PlanFor(plan, [1, 2, 0], [0, 0, 0], 1)
    requires |plan| == 3 && !plan[0].exactMatch && !plan[1].exactMatch && plan[2].exactMatch
    ensures var records := InitialRecords(plan);
      && Accepts(plan, records, [0, 0, 0], [1, 2, 0])
      && Settled(Job([1, 2, 0], 1, 1), Site(records, [0, 0, 0], {}, {}), plan)
      && !WithinReach(records, plan, 1)
  {
    hide PlanFor;
    var binary, buffer: Bytes := [1, 2, 0], [0, 0, 0];
    var records := InitialRecords(plan);
    PlanIsTrue(plan, binary, buffer, 1);
    InitialRecordsAreValid(plan, binary);
    forall i | 0 <= i < |plan|
      ensures AgreesAt(plan, records, buffer, binary, i)
    {
      PlanAt(plan, binary, buffer, 1, i);
    }
    PlanAt(plan, binary, buffer, 1, 0);
    AcceptsWhenGapFree(plan, records, buffer, binary);
    assert Pending(records, plan, 0) == 0 && Pending(records, plan, 1) == 1 && Pending(records, plan, 2) == 2;
  }
}
