/**
 The ledger of RPC requests: numbered when they begin, recorded when they
 complete, in whatever order that happens; only the latest ones are kept
 (scripts/devnet/rpc-request-ledger.mjs).
 */
module RpcLedger {
  import opened Outcomes

  const MAX_SAFE_INTEGER: int := 0x1F_FFFF_FFFF_FFFF

  datatype Method =
    | GetGenesisHash | GetAccountInfo | GetBalance | GetRentExemption | GetSignatureHistory
    | GetLatestBlockhash | GetFeeForMessage | GetSignatureStatuses | GetTransaction | SendRawTransaction

  datatype Outcome = Success | RateLimited | TimedOut | OtherError

  const METHODS: seq<Method> := [
    GetGenesisHash, GetAccountInfo, GetBalance, GetRentExemption, GetSignatureHistory,
    GetLatestBlockhash, GetFeeForMessage, GetSignatureStatuses, GetTransaction, SendRawTransaction]

  const OUTCOMES: seq<Outcome> := [Success, RateLimited, TimedOut, OtherError]

  datatype Metadata = Metadata(method_: Method, write: bool, retryNumber: int, signaturePersisted: bool)

  datatype Entry = Entry(sequence: nat, metadata: Metadata, start: int, end: int, outcome: Outcome)

  datatype Summary = Summary(
    capacity: int, totalRecorded: int, retained: int, dropped: int,
    countsByOutcome: map<Outcome, int>, countsByMethod: map<Method, int>)

  predicate ValidMetadata(m: Metadata) {
    && 0 <= m.retryNumber <= MAX_SAFE_INTEGER
    && (m.write <==> m.method_ == SendRawTransaction)
    && (m.write ==> m.signaturePersisted)
  }

  // ----- the safety check of a summary

  function Sum<K(==)>(counts: map<K, int>, keys: seq<K>): int
    requires forall k :: k in keys ==> k in counts
  {
    if keys == [] then 0 else Sum(counts, keys[..|keys| - 1]) + counts[keys[|keys| - 1]]
  }

  predicate SafeCount(n: int) {
    0 <= n <= MAX_SAFE_INTEGER
  }

  predicate CountsSafe<K(==)>(counts: map<K, int>, keys: seq<K>, total: int) {
    && (forall k :: k in keys ==> k in counts && SafeCount(counts[k]))
    && Sum(counts, keys) == total
  }

  predicate IsSafeRpcRequestSummary(s: Summary) {
    && 1 <= s.capacity <= 4096
    && SafeCount(s.totalRecorded) && SafeCount(s.retained) && SafeCount(s.dropped)
    && s.retained <= s.capacity && s.retained <= s.totalRecorded
    && s.dropped == s.totalRecorded - s.retained
    && CountsSafe(s.countsByOutcome, OUTCOMES, s.totalRecorded)
    && CountsSafe(s.countsByMethod, METHODS, s.totalRecorded)
  }

  // ----- what is kept

  ghost predicate Sorted(entries: seq<Entry>) {
    forall i, j :: 0 <= i < j < |entries| ==> entries[i].sequence < entries[j].sequence
  }

  ghost predicate DistinctSequences(all: seq<Entry>) {
    forall i, j :: 0 <= i < j < |all| ==> all[i].sequence != all[j].sequence
  }

  /** The kept entries are the ones with the largest sequence numbers of all completed, as many as there is room for. */
  ghost predicate KeepsLargest(kept: seq<Entry>, all: seq<Entry>, capacity: nat) {
    && Sorted(kept)
    && |kept| == (if |all| < capacity then |all| else capacity)
    && (forall e :: e in kept ==> e in all)
    && (|all| <= capacity ==> forall e :: e in all ==> e in kept)
    && forall e, k :: e in all && e !in kept && k in kept ==> e.sequence < k.sequence
  }

  /** That fixes them: when the same requests complete in another order, the same entries are kept. */
  lemma {:induction false} KeptIsDetermined(a: seq<Entry>, b: seq<Entry>, first: seq<Entry>, second: seq<Entry>, capacity: nat)
    requires KeepsLargest(a, first, capacity) && KeepsLargest(b, second, capacity)
    requires multiset(first) == multiset(second)
    ensures a == b
  {
    InAnyOrder(b, second, first, capacity);
    SameElements(a, b, first, capacity);
    SameElements(b, a, first, capacity);
    SortedSame(a, b);
  }

  lemma {:induction false} InAnyOrder(kept: seq<Entry>, all: seq<Entry>, other: seq<Entry>, capacity: nat)
    requires KeepsLargest(kept, all, capacity) && multiset(all) == multiset(other)
    ensures KeepsLargest(kept, other, capacity)
  {
    assert |all| == |multiset(all)| == |multiset(other)| == |other|;
    forall e
      ensures e in all <==> e in other
    {
      assert e in all <==> e in multiset(all);
      assert e in other <==> e in multiset(other);
    }
  }

  lemma {:induction false} SameElements(a: seq<Entry>, b: seq<Entry>, all: seq<Entry>, capacity: nat)
    requires KeepsLargest(a, all, capacity) && KeepsLargest(b, all, capacity)
    ensures forall e :: e in a ==> e in b
  {
    forall e | e in a
      ensures e in b
    {
      if e !in b {
        // Everything in b is above e, so it is in a too, and a would be larger than b.
        forall k | k in b
          ensures k in a
        {
          assert e.sequence < k.sequence;
          assert k !in a ==> k.sequence < e.sequence;
        }
        CountOf(a);
        CountOf(b);
        var left, right := set k | k in a, set k | k in b;
        assert right <= left - {e};
        Smaller(right, left - {e});
      }
    }
  }

  lemma {:induction false} Smaller(a: set<Entry>, b: set<Entry>)
    requires a <= b
    ensures |a| <= |b|
  {
    if a != {} {
      var x :| x in a;
      Smaller(a - {x}, b - {x});
    }
  }

  lemma {:induction false} CountOf(entries: seq<Entry>)
    requires Sorted(entries)
    ensures |set k | k in entries| == |entries|
  {
    if entries != [] {
      var n := |entries| - 1;
      CountOf(entries[..n]);
      assert (set k | k in entries) == (set k | k in entries[..n]) + {entries[n]};
    }
  }

  lemma {:induction false} SortedSame(a: seq<Entry>, b: seq<Entry>)
    requires Sorted(a) && Sorted(b) && forall e :: e in a <==> e in b
    ensures a == b
  {
    CountOf(a);
    CountOf(b);
    assert (set k | k in a) == (set k | k in b);
    if a != [] {
      var n := |a| - 1;
      assert a[n] in b && b[n] in a;
      assert a[n] == b[n];
      forall e
        ensures e in a[..n] <==> e in b[..n]
      {
        assert e in a <==> e in a[..n] || e == a[n];
        assert e in b <==> e in b[..n] || e == b[n];
      }
      SortedSame(a[..n], b[..n]);
    }
  }

  // ----- counting

  function CountOutcome(all: seq<Entry>, o: Outcome): nat {
    if all == [] then 0
    else CountOutcome(all[..|all| - 1], o) + if all[|all| - 1].outcome == o then 1 else 0
  }

  function CountMethod(all: seq<Entry>, m: Method): nat {
    if all == [] then 0
    else CountMethod(all[..|all| - 1], m) + if all[|all| - 1].metadata.method_ == m then 1 else 0
  }

  /** Counting one more under one of the keys adds one to the sum over all of them. */
  lemma {:induction false} SumOneMore<K>(counts: map<K, int>, keys: seq<K>, k: K)
    requires forall x :: x in keys ==> x in counts
    requires k in counts && forall i, j :: 0 <= i < j < |keys| ==> keys[i] != keys[j]
    ensures Sum(counts[k := counts[k] + 1], keys) == Sum(counts, keys) + if k in keys then 1 else 0
  {
    if keys != [] {
      var n := |keys| - 1;
      assert keys == keys[..n] + [keys[n]];
      assert forall x :: x in keys[..n] ==> x in keys;
      SumOneMore(counts, keys[..n], k);
      assert k in keys <==> k in keys[..n] || k == keys[n];
    }
  }

  /** Every count is part of the sum. */
  lemma {:induction false} PartOfSum<K>(counts: map<K, int>, keys: seq<K>, k: K)
    requires forall x :: x in keys ==> x in counts && counts[x] >= 0
    requires k in keys
    ensures 0 <= counts[k] <= Sum(counts, keys)
  {
    var n := |keys| - 1;
    assert forall x :: x in keys[..n] ==> x in keys;
    SumNonnegative(counts, keys[..n]);
    if k != keys[n] {
      PartOfSum(counts, keys[..n], k);
    }
  }

  lemma {:induction false} SumNonnegative<K>(counts: map<K, int>, keys: seq<K>)
    requires forall x :: x in keys ==> x in counts && counts[x] >= 0
    ensures Sum(counts, keys) >= 0
  {
    if keys != [] {
      assert forall x :: x in keys[..|keys| - 1] ==> x in keys;
      SumNonnegative(counts, keys[..|keys| - 1]);
    }
  }

  // ----- one more completion

  /** Sorting one more entry into what is kept. */
  ghost predicate OneMore(kept: seq<Entry>, e: Entry, sorted: seq<Entry>) {
    Sorted(sorted) && |sorted| == |kept| + 1 && forall k :: k in sorted <==> k in kept || k == e
  }

  /** Sorting an entry into entries that are already sorted. */
  method SortIn(entries: seq<Entry>, e: Entry) returns (sorted: seq<Entry>)
    requires Sorted(entries) && forall k :: k in entries ==> k.sequence != e.sequence
    ensures OneMore(entries, e, sorted)
  {
    var at := |entries|;
    while at > 0 && entries[at - 1].sequence > e.sequence
      invariant 0 <= at <= |entries|
      invariant forall k :: at <= k < |entries| ==> entries[k].sequence > e.sequence
    {
      at := at - 1;
    }
    assert at > 0 ==> entries[at - 1] in entries;
    sorted := entries[..at] + [e] + entries[at..];
    SplitAt(entries, at, e);
  }

  lemma {:induction false} SplitAt(entries: seq<Entry>, at: nat, e: Entry)
    requires at <= |entries|
    ensures forall k :: k in entries[..at] + [e] + entries[at..] <==> k in entries || k == e
  {
    assert entries == entries[..at] + entries[at..];
  }

  /** Keeping the largest of what was kept and one more keeps the largest of all. */
  lemma {:induction false} OneMoreKept(
    kept: seq<Entry>, all: seq<Entry>, capacity: nat, e: Entry, sorted: seq<Entry>)
    requires KeepsLargest(kept, all, capacity) && capacity >= 1 && OneMore(kept, e, sorted)
    ensures KeepsLargest(if |sorted| > capacity then sorted[1..] else sorted, all + [e], capacity)
  {
    if |sorted| > capacity {
      var next := sorted[1..];
      NextOf(sorted);
      forall x, k | x in all + [e] && x !in next && k in next
        ensures x.sequence < k.sequence
      {
        DroppedBelow(kept, all, capacity, e, sorted, x, k);
      }
      assert |all + [e]| > capacity;
      hide OneMore;
      assert forall k :: k in next ==> k in all + [e] by {
        StillCompleted(kept, all, e, sorted);
      }
      hide Sorted;
    }
  }

  lemma {:induction false} NextOf(sorted: seq<Entry>)
    requires Sorted(sorted) && sorted != []
    ensures Sorted(sorted[1..]) && forall k :: k in sorted[1..] ==> k in sorted && sorted[0].sequence < k.sequence
  {
  }

  lemma {:induction false} StillCompleted(kept: seq<Entry>, all: seq<Entry>, e: Entry, sorted: seq<Entry>)
    requires OneMore(kept, e, sorted) && forall k :: k in kept ==> k in all
    ensures forall k :: k in sorted[1..] ==> k in all + [e]
  {
    assert forall k :: k in sorted[1..] ==> k in sorted;
  }

  lemma {:induction false} DroppedBelow(
    kept: seq<Entry>, all: seq<Entry>, capacity: nat, e: Entry, sorted: seq<Entry>, x: Entry, k: Entry)
    requires KeepsLargest(kept, all, capacity) && capacity >= 1 && OneMore(kept, e, sorted) && |sorted| > capacity
    requires x in all + [e] && x !in sorted[1..] && k in sorted[1..]
    ensures x.sequence < k.sequence
  {
    NextOf(sorted);
    assert sorted == [sorted[0]] + sorted[1..];
    if x in sorted {
      assert x == sorted[0];
    } else if k == e {
      BelowAllKept(kept, all, capacity, e, sorted, x);
    }
  }

  /** What was dropped before stays below a new entry that is kept. */
  lemma {:induction false} BelowAllKept(
    kept: seq<Entry>, all: seq<Entry>, capacity: nat, e: Entry, sorted: seq<Entry>, x: Entry)
    requires KeepsLargest(kept, all, capacity) && capacity >= 1 && OneMore(kept, e, sorted)
    requires x in all && x !in kept && |sorted| > capacity && e in sorted[1..]
    ensures x.sequence < e.sequence
  {
    assert sorted[0] in sorted;
    assert sorted[0] != e && sorted[0] in kept;
  }

  ghost predicate Numbered(all: seq<Entry>, last: nat) {
    DistinctSequences(all) && forall e :: e in all ==> 1 <= e.sequence <= last
  }

  /** The kept entries with one more; without the smallest, if that is one too many, they are the largest of all. */
  method SortedWith(kept: seq<Entry>, ghost all: seq<Entry>, capacity: nat, e: Entry) returns (sorted: seq<Entry>)
    requires KeepsLargest(kept, all, capacity) && capacity >= 1 && forall k :: k in all ==> k.sequence != e.sequence
    ensures |sorted| == |kept| + 1
    ensures KeepsLargest(if |sorted| > capacity then sorted[1..] else sorted, all + [e], capacity)
  {
    sorted := SortIn(kept, e);
    OneMoreKept(kept, all, capacity, e, sorted);
    hide KeepsLargest;
  }

  class Ledger {
    const capacity: nat
    var entries: seq<Entry>
    var nextSequence: nat
    var completed: nat
    var dropped: nat
    var countsByOutcome: map<Outcome, int>
    var countsByMethod: map<Method, int>
    /** Every completion, in the order of completion. */
    ghost var all: seq<Entry>

    ghost predicate Valid()
      reads this
    {
      && 1 <= capacity <= 4096
      && Numbered(all, nextSequence)
      && Kept(all) && Counted(all)
    }

    ghost predicate Kept(all: seq<Entry>)
      reads `entries, `dropped
    {
      KeepsLargest(entries, all, capacity) && dropped == |all| - |entries|
    }

    ghost predicate Counted(all: seq<Entry>)
      reads `completed, `countsByOutcome, `countsByMethod
    {
      && completed == |all|
      && (forall o :: o in OUTCOMES ==> o in countsByOutcome && countsByOutcome[o] == CountOutcome(all, o))
      && (forall m :: m in METHODS ==> m in countsByMethod && countsByMethod[m] == CountMethod(all, m))
      && Sum(countsByOutcome, OUTCOMES) == |all| == Sum(countsByMethod, METHODS)
    }

    constructor (capacity: nat)
      requires 1 <= capacity <= 4096
      ensures Valid() && all == [] && nextSequence == 0 && this.capacity == capacity
    {
      this.capacity := capacity;
      entries, nextSequence, completed, dropped, all := [], 0, 0, 0, [];
      countsByOutcome := map o | o in OUTCOMES :: 0;
      countsByMethod := map m | m in METHODS :: 0;
      new;
      SumOfZeros(countsByOutcome, OUTCOMES);
      SumOfZeros(countsByMethod, METHODS);
    }

    /** A request begins: it gets the next number, or is refused and gets none. */
    method Begin(metadata: Metadata) returns (sequence: Option<nat>)
      requires Valid()
      modifies `nextSequence
      ensures Valid() && (sequence.Some? <==> ValidMetadata(metadata))
      ensures sequence.Some? ==> sequence.value == nextSequence == old(nextSequence) + 1
      ensures sequence.None? ==> nextSequence == old(nextSequence)
      ensures sequence.Some? ==> forall e :: e in all ==> e.sequence != sequence.value
    {
      if !ValidMetadata(metadata) {
        return None;
      }
      nextSequence := nextSequence + 1;
      return Some(nextSequence);
    }

    /** A request completes; when the clock ran backwards nothing is recorded. */
    method Append(e: Entry) returns (recorded: bool)
      requires Valid() && ValidMetadata(e.metadata)
      requires 1 <= e.sequence <= nextSequence && forall k :: k in all ==> k.sequence != e.sequence
      modifies this
      ensures Valid() && nextSequence == old(nextSequence)
      ensures recorded <==> e.start <= e.end
      ensures all == if recorded then old(all) + [e] else old(all)
      ensures !recorded ==> entries == old(entries) && dropped == old(dropped)
    {
      if e.end < e.start {
        return false;
      }
      StillNumbered(all, e, nextSequence);
      hide Kept, Counted, Numbered;
      Count(e);
      Keep(e);
      all := all + [e];
      return true;
    }

    method Count(e: Entry)
      requires Counted(all)
      modifies `completed, `countsByOutcome, `countsByMethod
      ensures Counted(all + [e])
    {
      CountOneMore(all, e, countsByOutcome, countsByMethod);
      completed := completed + 1;
      countsByOutcome := countsByOutcome[e.outcome := countsByOutcome[e.outcome] + 1];
      countsByMethod := countsByMethod[e.metadata.method_ := countsByMethod[e.metadata.method_] + 1];
      hide CountOutcome, CountMethod, Sum;
    }

    method Keep(e: Entry)
      requires Kept(all) && capacity >= 1 && forall k :: k in all ==> k.sequence != e.sequence
      modifies `entries, `dropped
      ensures Kept(all + [e])
    {
      var sorted := SortedWith(entries, all, capacity, e);
      hide KeepsLargest;
      entries := sorted;
      if |entries| > capacity {
        entries := entries[1..];
        dropped := dropped + 1;
      }
    }

    /** Safe to publish as long as no count has outgrown an exact integer. */
    method Summarize() returns (s: Summary)
      requires Valid()
      ensures s.totalRecorded == |all| && s.retained == |entries| && s.dropped == |all| - |entries|
      ensures s.capacity == capacity
      ensures forall o :: o in OUTCOMES ==> o in s.countsByOutcome && s.countsByOutcome[o] == CountOutcome(all, o)
      ensures forall m :: m in METHODS ==> m in s.countsByMethod && s.countsByMethod[m] == CountMethod(all, m)
      ensures IsSafeRpcRequestSummary(s) <==> |all| <= MAX_SAFE_INTEGER
    {
      KeptCount(entries, all, capacity);
      s := Summary(capacity, completed, |entries|, dropped, countsByOutcome, countsByMethod);
      hide KeepsLargest;
      forall o | o in OUTCOMES
        ensures 0 <= countsByOutcome[o] <= |all|
      {
        PartOfSum(countsByOutcome, OUTCOMES, o);
      }
      forall m | m in METHODS
        ensures 0 <= countsByMethod[m] <= |all|
      {
        PartOfSum(countsByMethod, METHODS, m);
      }
    }
  }

  lemma {:induction false} StillNumbered(all: seq<Entry>, e: Entry, last: nat)
    requires Numbered(all, last) && 1 <= e.sequence <= last && forall k :: k in all ==> k.sequence != e.sequence
    ensures Numbered(all + [e], last)
  {
  }

  lemma {:induction false} KeptCount(kept: seq<Entry>, all: seq<Entry>, capacity: nat)
    requires KeepsLargest(kept, all, capacity)
    ensures |kept| == if |all| < capacity then |all| else capacity
  {
  }

  lemma {:induction false} SumOfZeros<K>(counts: map<K, int>, keys: seq<K>)
    requires forall k :: k in keys ==> k in counts && counts[k] == 0
    ensures Sum(counts, keys) == 0
  {
    if keys != [] {
      assert forall x :: x in keys[..|keys| - 1] ==> x in keys;
      SumOfZeros(counts, keys[..|keys| - 1]);
    }
  }

  lemma {:induction false} CountOneMore(all: seq<Entry>, e: Entry, outcomes: map<Outcome, int>, methods: map<Method, int>)
    requires forall o :: o in OUTCOMES ==> o in outcomes && outcomes[o] == CountOutcome(all, o)
    requires forall m :: m in METHODS ==> m in methods && methods[m] == CountMethod(all, m)
    ensures e.outcome in OUTCOMES && e.metadata.method_ in METHODS
    ensures var next := outcomes[e.outcome := outcomes[e.outcome] + 1];
      && (forall o :: o in OUTCOMES ==> next[o] == CountOutcome(all + [e], o))
      && Sum(next, OUTCOMES) == Sum(outcomes, OUTCOMES) + 1
    ensures var m := e.metadata.method_;
      var next := methods[m := methods[m] + 1];
      && (forall o :: o in METHODS ==> next[o] == CountMethod(all + [e], o))
      && Sum(next, METHODS) == Sum(methods, METHODS) + 1
  {
    assert (all + [e])[..|all|] == all;
    Listed(e.outcome, e.metadata.method_);
    SumOneMore(outcomes, OUTCOMES, e.outcome);
    SumOneMore(methods, METHODS, e.metadata.method_);
  }

  lemma {:induction false} Listed(o: Outcome, m: Method)
    ensures o in OUTCOMES && m in METHODS
    ensures forall i, j :: 0 <= i < j < |OUTCOMES| ==> OUTCOMES[i] != OUTCOMES[j]
    ensures forall i, j :: 0 <= i < j < |METHODS| ==> METHODS[i] != METHODS[j]
  {
    assert OUTCOMES[0] == Success && OUTCOMES[1] == RateLimited && OUTCOMES[2] == TimedOut && OUTCOMES[3] == OtherError;
    assert METHODS[0] == GetGenesisHash && METHODS[1] == GetAccountInfo && METHODS[2] == GetBalance
      && METHODS[3] == GetRentExemption && METHODS[4] == GetSignatureHistory && METHODS[5] == GetLatestBlockhash
      && METHODS[6] == GetFeeForMessage && METHODS[7] == GetSignatureStatuses && METHODS[8] == GetTransaction
      && METHODS[9] == SendRawTransaction;
  }
}
