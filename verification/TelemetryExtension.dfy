/**
 When one telemetry snapshot extends another: nothing that was known may change,
 lists may only grow at the end, and what was null may become known
 (scripts/devnet/upload-execution-telemetry.mjs).
 */
module TelemetryExtension {
  import opened Outcomes

  datatype Json =
    | Null
    | Boolean(b: bool)
    | Number(n: int)
    | Text(text: string)
    | List(items: seq<Json>)
    | Object(fields: seq<Field>)

  datatype Field = Field(key: Key, value: Json)

  /** The keys that the schemas of snapshots, policies, requests, sends and polls allow. */
  datatype Key =
    | ExecutionId | StartedAt | FinishedAt | MonotonicOriginMs | PolicyKey | Requests | Sends | ConfirmationPolls
    | ExpectedChunkIndexes | MinimumRpcRequestGapMs | MinimumConfirmationPollGapMs | RequestTimeoutCount | Missing | Verdict
    | PreSignCooldownMs | GlobalRequestStartGapMs | RequestTimeoutMs | ConfirmationPollIntervalMs | InterChunkDelayMs
    | RateLimitRetryScheduleMs
    | Sequence | RequestType | StartElapsedMs | EndElapsedMs | DurationMs | OutcomeKey | RetryNumber | SignaturePersisted
    | MutationCapability
    | ChunkIndex | PreSignCooldownRequired | PreSignCooldownStartedElapsedMs | PreSignCooldownFinishedElapsedMs
    | SendStartedElapsedMs | SendFinishedElapsedMs | SendDurationMs
    | RequestSequence | StartedElapsedMs

  /** The fields that are computed from the others, and so may change freely. */
  predicate Skipped(key: Key) {
    || key == Missing || key == Verdict || key == RequestTimeoutCount
    || key == MinimumRpcRequestGapMs || key == MinimumConfirmationPollGapMs
  }

  function Lookup(fields: seq<Field>, key: Key): (found: Option<Json>)
    ensures found.Some? ==> exists i :: 0 <= i < |fields| && fields[i] == Field(key, found.value)
  {
    if fields == [] then None
    else if fields[0].key == key then
      assert fields[0] == Field(key, fields[0].value);
      Some(fields[0].value)
    else
      var found := Lookup(fields[1..], key);
      assert forall i :: 0 <= i < |fields[1..]| ==> fields[1..][i] == fields[i + 1];
      found
  }

  /** `next` is None where a field of the earlier object has no counterpart. */
  predicate Extends(previous: Json, next: Option<Json>)
    decreases previous
  {
    match previous
    case Null => true
    case List(items) =>
      && next.Some? && next.value.List? && |items| <= |next.value.items|
      && forall i :: 0 <= i < |items| ==> Extends(items[i], Some(next.value.items[i]))
    case Object(fields) =>
      && next.Some? && next.value.Object?
      && forall i :: 0 <= i < |fields| && !Skipped(fields[i].key) ==>
          Extends(fields[i].value, Lookup(next.value.fields, fields[i].key))
    case _ => next == Some(previous)
  }

  /** An extension of an extension is an extension, at every depth. */
  lemma {:induction false} ExtendsTransitive(a: Json, b: Json, c: Option<Json>)
    requires Extends(a, Some(b)) && Extends(b, c)
    ensures Extends(a, c)
    decreases a
  {
    match a
    case List(items) =>
      forall i | 0 <= i < |items|
        ensures Extends(items[i], Some(c.value.items[i]))
      {
        ExtendsTransitive(items[i], b.items[i], Some(c.value.items[i]));
      }
    case Object(fields) =>
      forall i | 0 <= i < |fields| && !Skipped(fields[i].key)
        ensures Extends(fields[i].value, Lookup(c.value.fields, fields[i].key))
      {
        var middle := Lookup(b.fields, fields[i].key);
        if middle.Some? {
          var j :| 0 <= j < |b.fields| && b.fields[j] == Field(fields[i].key, middle.value);
          ExtendsTransitive(fields[i].value, middle.value, Lookup(c.value.fields, fields[i].key));
        }
      }
    case _ =>
  }

  /** Keys are different from one another. */
  ghost predicate WellFormed(v: Json)
    decreases v
  {
    match v
    case List(items) => forall i :: 0 <= i < |items| ==> WellFormed(items[i])
    case Object(fields) =>
      && (forall i, j :: 0 <= i < j < |fields| ==> fields[i].key != fields[j].key)
      && forall i :: 0 <= i < |fields| ==> WellFormed(fields[i].value)
    case _ => true
  }

  lemma {:induction false} LookupAt(fields: seq<Field>, i: nat)
    requires i < |fields| && forall i, j :: 0 <= i < j < |fields| ==> fields[i].key != fields[j].key
    ensures Lookup(fields, fields[i].key) == Some(fields[i].value)
  {
    if i > 0 {
      assert fields[1..][i - 1] == fields[i];
      LookupAt(fields[1..], i - 1);
    }
  }

  lemma {:induction false} ExtendsReflexive(a: Json)
    requires WellFormed(a)
    ensures Extends(a, Some(a))
    decreases a
  {
    match a
    case List(items) =>
      forall i | 0 <= i < |items|
        ensures Extends(items[i], Some(items[i]))
      {
        ExtendsReflexive(items[i]);
      }
    case Object(fields) =>
      forall i | 0 <= i < |fields| && !Skipped(fields[i].key)
        ensures Extends(fields[i].value, Lookup(fields, fields[i].key))
      {
        LookupAt(fields, i);
        ExtendsReflexive(fields[i].value);
      }
    case _ =>
  }
}
