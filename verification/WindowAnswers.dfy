/**
 What a window saves follows from what it was told: a record becomes FAILED,
 CONFIRMED or UNKNOWN by the status of its signature and the bytes that were read,
 and nothing is saved or sent after a call that failed
 (scripts/devnet/throttled-uploader.mjs).
 */
module WindowAnswers {
  import opened ChunkRecords
  import opened Outcomes
  import opened UploadTrace
  import opened WindowLog

  /** The news after which the window gives up. */
  predicate Faulty(news: News) {
    match news
    case Signed(_, signed) => signed == Thrown || signed == Answer(None) || signed == Answer(Some(""))
    case Posted(_, delivery) => delivery == Rejected
    case Reported(_, status) => status == Thrown
    case Compared(_, matches) => matches == Thrown
    case Timed(_, started, finished) => finished < started || finished - started > MAX_SAFE_INTEGER
  }

  predicate Limits(news: News) {
    news.Posted? && news.delivery == RateLimited
  }

  ghost predicate Broken(d: seq<Event>) {
    exists e :: e in d && e.Heard? && Faulty(e.news)
  }

  ghost predicate Limited(d: seq<Event>) {
    exists e :: e in d && e.Heard? && Limits(e.news)
  }

  /** No call failed and no send was refused for its rate. */
  ghost predicate Smooth(d: seq<Event>) {
    !Broken(d) && !Limited(d)
  }

  /** The chunk was sent in this window. */
  ghost predicate SentNow(d: seq<Event>, i: nat) {
    exists signature :: Acted(Handed(i, signature)) in d
  }

  predicate EndsWith(d: seq<Event>, tail: seq<Event>) {
    |tail| <= |d| && d[|d| - |tail|..] == tail
  }

  /**
   FAILED when the status carries an error; CONFIRMED when it does not, the bytes match, and the status is final or the
   record was left open by an earlier window; UNKNOWN otherwise.
   */
  predicate Follows(saved: Status, status: Option<SignatureStatus>, matches: bool, resumed: bool) {
    var failed := status.Some? && status.value.err;
    var settled := resumed || (status.Some? && status.value.finalized);
    && (saved == Failed <==> failed)
    && (saved == Confirmed <==> !failed && matches && settled)
    && (saved == Unknown <==> !failed && !(matches && settled))
  }

  /** Told of a chunk sent in this window: its status, the time the wait took, and its bytes. */
  predicate ToldNow(
    d: seq<Event>, i: nat, status: Option<SignatureStatus>, started: int, finished: int, matches: bool)
  {
    EndsWith(d, [Heard(Reported(i, Answer(status))), Heard(Timed(i, started, finished)), Heard(Compared(i, Answer(matches)))])
  }

  /** Told of a record that was left open: its status if it has a signature, and its bytes. */
  predicate ToldAgain(d: seq<Event>, i: nat, signature: Option<string>, status: Option<SignatureStatus>, matches: bool) {
    if signature.Some? then EndsWith(d, [Heard(Reported(i, Answer(status))), Heard(Compared(i, Answer(matches)))])
    else status == None && EndsWith(d, [Heard(Compared(i, Answer(matches)))])
  }

  /** A sent record is settled by what was just told about it, and about nothing else. */
  ghost predicate SettledAsTold(before: Record, after: Record, d: seq<Event>, i: nat) {
    && after.signature == before.signature
    && if SentNow(d, i) then
        exists status, started, finished, matches :: ToldNow(d, i, status, started, finished, matches)
          && Follows(after.status, status, matches, false)
          && after.confirmationDurationMs ==
            if after.status == Confirmed then Some(finished - started) else before.confirmationDurationMs
      else
        exists status, matches :: ToldAgain(d, i, before.signature, status, matches)
          && Follows(after.status, status, matches, true)
          && after.confirmationDurationMs == before.confirmationDurationMs
  }

  /** A planned record becomes SENT with the signature just made for it, or CONFIRMED as it is. */
  ghost predicate TakenAsTold(before: Record, after: Record, d: seq<Event>, i: nat) {
    && after.confirmationDurationMs == before.confirmationDurationMs
    && (after.status == Sent ==>
          after.signature.Some? && EndsWith(d, [Heard(Signed(i, Answer(after.signature)))]))
    && (after.status == Confirmed ==> after.signature == before.signature)
    && (after.status == Sent || after.status == Confirmed)
  }

  /** The event follows from the dialogue before it, with these records on disk. */
  ghost predicate AsTold(records: seq<Record>, d: seq<Event>, e: Event) {
    e.Acted? ==>
      && Smooth(d)
      && (e.action.Saved? ==>
            && e.action.index < |records| == |e.action.records|
            && var before, after := records[e.action.index], e.action.records[e.action.index];
              if before.status == Planned then TakenAsTold(before, after, d, e.action.index)
              else SettledAsTold(before, after, d, e.action.index))
  }

  /** The records on disk after the dialogue. */
  function OnDisk(start: seq<Record>, d: seq<Event>): seq<Record> {
    if d == [] then start
    else
      var last := d[|d| - 1];
      if last.Acted? && last.action.Saved? then last.action.records else OnDisk(start, d[..|d| - 1])
  }

  /** Whatever the window did in the dialogue, it did as it was told. */
  ghost predicate Faithful(start: seq<Record>, d: seq<Event>) {
    forall n :: 0 <= n < |d| ==> AsTold(OnDisk(start, d[..n]), d[..n], d[n])
  }

  lemma {:induction false} Says(start: seq<Record>, d: seq<Event>, e: Event)
    requires Faithful(start, d) && AsTold(OnDisk(start, d), d, e)
    ensures Faithful(start, d + [e])
    ensures OnDisk(start, d + [e]) == if e.Acted? && e.action.Saved? then e.action.records else OnDisk(start, d)
  {
    hide AsTold;
    var more := d + [e];
    assert more[..|d|] == d;
    forall n | 0 <= n < |more|
      ensures AsTold(OnDisk(start, more[..n]), more[..n], more[n])
    {
      if n < |d| {
        assert more[..n] == d[..n];
      }
    }
  }

  /** News alone is always as told, and leaves the disk as it is. */
  lemma {:induction false} SaysNews(start: seq<Record>, d: seq<Event>, news: News)
    requires Faithful(start, d)
    ensures Faithful(start, d + [Heard(news)]) && OnDisk(start, d + [Heard(news)]) == OnDisk(start, d)
    ensures Broken(d + [Heard(news)]) <==> Broken(d) || Faulty(news)
    ensures Limited(d + [Heard(news)]) <==> Limited(d) || Limits(news)
    ensures forall i :: SentNow(d + [Heard(news)], i) <==> SentNow(d, i)
  {
    Says(start, d, Heard(news));
    Heeds(d, Heard(news));
  }

  lemma {:induction false} Heeds(d: seq<Event>, e: Event)
    ensures Broken(d + [e]) <==> Broken(d) || (e.Heard? && Faulty(e.news))
    ensures Limited(d + [e]) <==> Limited(d) || (e.Heard? && Limits(e.news))
    ensures forall i :: SentNow(d + [e], i) <==> SentNow(d, i) || (e.Acted? && e.action.Handed? && e.action.index == i)
  {
    assert forall x :: x in d + [e] <==> x in d || x == e;
    forall i: nat
      ensures SentNow(d + [e], i) <==> SentNow(d, i) || (e.Acted? && e.action.Handed? && e.action.index == i)
    {
      if e.Acted? && e.action.Handed? && e.action.index == i {
        assert Acted(Handed(i, e.action.signature)) in d + [e];
      }
    }
  }

  /** Before anything is said. */
  lemma {:induction false} Silence(start: seq<Record>)
    ensures Faithful(start, []) && OnDisk(start, []) == start && Smooth([]) && forall i :: !SentNow([], i)
  {
  }

  /** What is sent was counted, so a window that sent nothing finds every open record left by an earlier one. */
  lemma {:induction false} NothingSent(log: seq<Event>, i: nat)
    requires CountHanded(Actions(log)) == 0
    ensures !SentNow(Dialogue(log), i)
  {
    if log != [] {
      var earlier, last := log[..|log| - 1], log[|log| - 1];
      if last.Acted? {
        ExtendCount(Actions(earlier), last.action);
      } else {
        assert Actions(log) == Actions(earlier);
      }
      NothingSent(earlier, i);
      assert forall x :: x in Dialogue(log) ==> x in Dialogue(earlier) || x == last;
    }
  }

  /** What the news before position `n` says of chunk `i`: the bytes just read, and the status if one was asked for. */
  ghost predicate ToldOf(d: seq<Event>, n: nat, i: nat, status: Option<SignatureStatus>, matches: bool)
    requires n <= |d|
  {
    && n >= 1 && d[n - 1] == Heard(Compared(i, Answer(matches)))
    && (status.Some? ==> exists m :: n - 3 <= m < n && 0 <= m && d[m] == Heard(Reported(i, Answer(status))))
  }

  /**
   At any save of a record that was not planned: it becomes FAILED exactly when the status it was told of carries an
   error; CONFIRMED exactly when it does not, the bytes match, and the status is final or the chunk was sent by an
   earlier window; UNKNOWN otherwise. And no call had failed until then.
   */
  lemma {:induction false} SavedAsTold(start: seq<Record>, d: seq<Event>, n: nat)
    requires Faithful(start, d) && n < |d| && d[n].Acted? && d[n].action.Saved?
    requires var i := d[n].action.index;
      i < |OnDisk(start, d[..n])| && OnDisk(start, d[..n])[i].status != Planned
    ensures var i, records := d[n].action.index, d[n].action.records;
      && i < |records|
      && exists status: Option<SignatureStatus>, matches ::
           && ToldOf(d, n, i, status, matches)
           && (records[i].status == Failed <==> status.Some? && status.value.err)
           && (records[i].status == Confirmed <==>
                 && !(status.Some? && status.value.err) && matches
                 && ((status.Some? && status.value.finalized) || !SentNow(d[..n], i)))
           && (records[i].status == Failed || records[i].status == Confirmed || records[i].status == Unknown)
    ensures Smooth(d[..n])
  {
    var i, records, earlier := d[n].action.index, d[n].action.records, d[..n];
    var before := OnDisk(start, earlier)[i];
    assert AsTold(OnDisk(start, earlier), earlier, d[n]);
    assert SettledAsTold(before, records[i], earlier, i);
    hide *;
    var status, matches := Heeded(before, records[i], earlier, i);
    ToldOfLonger(earlier, d, i, status, matches);
  }

  lemma {:induction false} ToldOfLonger(
    earlier: seq<Event>, d: seq<Event>, i: nat, status: Option<SignatureStatus>, matches: bool)
    requires earlier <= d && ToldOf(earlier, |earlier|, i, status, matches)
    ensures ToldOf(d, |earlier|, i, status, matches)
  {
  }

  lemma {:induction false} Heeded(before: Record, after: Record, d: seq<Event>, i: nat)
    returns (status: Option<SignatureStatus>, matches: bool)
    requires SettledAsTold(before, after, d, i)
    ensures ToldOf(d, |d|, i, status, matches)
    ensures after.status == Failed <==> status.Some? && status.value.err
    ensures after.status == Confirmed <==>
      !(status.Some? && status.value.err) && matches && ((status.Some? && status.value.finalized) || !SentNow(d, i))
    ensures after.status == Failed || after.status == Confirmed || after.status == Unknown
  {
    hide SentNow, ToldNow, ToldAgain, ToldOf;
    if SentNow(d, i) {
      var started, finished;
      status, started, finished, matches :| ToldNow(d, i, status, started, finished, matches)
        && Follows(after.status, status, matches, false);
      NowIsTold(d, i, status, started, finished, matches);
    } else {
      status, matches :| ToldAgain(d, i, before.signature, status, matches)
        && Follows(after.status, status, matches, true);
      AgainIsTold(d, i, before.signature, status, matches);
    }
  }

  lemma {:induction false} NowIsTold(
    d: seq<Event>, i: nat, status: Option<SignatureStatus>, started: int, finished: int, matches: bool)
    requires ToldNow(d, i, status, started, finished, matches)
    ensures ToldOf(d, |d|, i, status, matches)
  {
    TailHeard(d, [Heard(Reported(i, Answer(status))), Heard(Timed(i, started, finished)),
      Heard(Compared(i, Answer(matches)))]);
    assert d[|d| - 3] == Heard(Reported(i, Answer(status)));
  }

  lemma {:induction false} AgainIsTold(
    d: seq<Event>, i: nat, signature: Option<string>, status: Option<SignatureStatus>, matches: bool)
    requires ToldAgain(d, i, signature, status, matches)
    ensures ToldOf(d, |d|, i, status, matches)
  {
    if signature.Some? {
      TailHeard(d, [Heard(Reported(i, Answer(status))), Heard(Compared(i, Answer(matches)))]);
      assert d[|d| - 2] == Heard(Reported(i, Answer(status)));
    } else {
      TailHeard(d, [Heard(Compared(i, Answer(matches)))]);
    }
  }

  lemma {:induction false} TailHeard(d: seq<Event>, tail: seq<Event>)
    requires EndsWith(d, tail)
    ensures |tail| <= |d| && forall k :: 0 <= k < |tail| ==> d[|d| - |tail| + k] == tail[k]
  {
    assert forall k :: 0 <= k < |tail| ==> d[|d| - |tail|..][k] == tail[k];
  }
}
