/**
 The chain and the signer as one upload window sees them. Nothing here is
 decided by the uploader: calls may fail, and every chunk write that was ever
 handed over may land at any later moment, or never. Nobody else writes the buffer.
 */
module Network {
  import opened ByteStrings
  import opened ChunkRecords
  import opened Outcomes
  import opened UploadPlan
  import opened UploadTrace
  import opened WindowLog

  /** `log` is the history of the window: what the uploader did and was told, and what landed in between. */
  class Chain {
    const binary: Bytes
    const chunks: seq<Chunk>
    /** Whether every call succeeds and every handed write lands by the time its outcome is read. */
    const faultFree: bool
    var buffer: Bytes
    var handed: set<nat>
    var signatures: set<string>
    ghost const start: World
    ghost var log: seq<Event>

    ghost predicate Valid()
      reads this
    {
      && |start.buffer| == |buffer| == |binary| && Partition(chunks, binary)
      && (forall i :: i in handed ==> i < |chunks|)
      && PossibleLog(chunks, binary, start, log)
      && Now().buffer == buffer && Now().handed == handed
    }

    ghost function Now(): World
      reads this
    {
      Reached(chunks, binary, start, log)
    }

    constructor (binary: Bytes, chunks: seq<Chunk>, faultFree: bool, buffer: Bytes, handed: set<nat>,
                 signatures: set<string>, ghost progress: Progress)
      requires |buffer| == |binary| && Partition(chunks, binary) && forall i :: i in handed ==> i < |chunks|
      ensures Valid() && log == [] && start == World(progress, buffer, handed)
      ensures this.binary == binary && this.chunks == chunks && this.faultFree == faultFree
      ensures this.buffer == buffer && this.handed == handed && this.signatures == signatures
    {
      this.binary, this.chunks, this.faultFree := binary, chunks, faultFree;
      this.buffer, this.handed, this.signatures := buffer, handed, signatures;
      start, log := World(progress, buffer, handed), [];
    }

    /** Any handed writes land, in any order, any number of times. */
    method Drift()
      requires Valid()
      modifies this`buffer, this`log
      ensures Valid() && Evolves(old(buffer), buffer, binary) && Actions(log) == old(Actions(log))
      ensures Dialogue(log) == old(Dialogue(log))
    {
      var landings: nat :| true;
      for n := 0 to landings
        invariant Valid() && Evolves(old(buffer), buffer, binary) && Actions(log) == old(Actions(log))
        invariant Dialogue(log) == old(Dialogue(log))
      {
        var i: nat :| true;
        if i in handed {
          ghost var middle := buffer;
          Land(i);
          EvolvesTransitively(old(buffer), middle, buffer, binary);
        }
      }
    }

    method Land(i: nat)
      requires Valid() && i in handed
      modifies this`buffer, this`log
      ensures Valid() && Evolves(old(buffer), buffer, binary) && Actions(log) == old(Actions(log))
      ensures Dialogue(log) == old(Dialogue(log))
      ensures chunks[i].offset + chunks[i].length <= |binary| && Matches(binary, buffer, chunks[i])
    {
      assert ChunkAt(chunks, binary, i);
      WriteEvolves(buffer, binary, chunks[i]);
      Happens(chunks, binary, start, log, Landed(i));
      buffer := Write(buffer, binary, chunks[i]);
      log := log + [Landed(i)];
    }

    /** The uploader saved the state file. */
    ghost method Saw(a: Action)
      requires Valid() && a.Saved? && Possible(chunks, binary, Now(), Acted(a))
      modifies this`log
      ensures Valid() && Actions(log) == old(Actions(log)) + [a]
      ensures Dialogue(log) == old(Dialogue(log)) + [Acted(a)]
    {
      Happens(chunks, binary, start, log, Acted(a));
      log := log + [Acted(a)];
    }

    /** The uploader hears what a call gave back. */
    ghost method Hear(news: News)
      requires Valid() && Possible(chunks, binary, Now(), Heard(news))
      modifies this`log
      ensures Valid() && Actions(log) == old(Actions(log)) && Dialogue(log) == old(Dialogue(log)) + [Heard(news)]
    {
      Happens(chunks, binary, start, log, Heard(news));
      log := log + [Heard(news)];
    }

    /** Selecting a blockhash and signing the write of chunk `i`; a signature that nothing fails for is a new one. */
    method Sign(i: nat) returns (reply: Reply<Option<string>>)
      requires Valid()
      modifies this`buffer, this`log, this`signatures
      ensures Valid() && Evolves(old(buffer), buffer, binary) && Actions(log) == old(Actions(log))
      ensures Dialogue(log) == old(Dialogue(log)) + [Heard(Signed(i, reply))]
      ensures old(signatures) <= signatures
      ensures reply.Answer? && reply.value.Some? ==> reply.value.value in signatures
      ensures faultFree ==>
        reply.Answer? && reply.value.Some? && reply.value.value !in old(signatures) && reply.value.value != ""
    {
      hide PossibleLog, Reached;
      Drift();
      var fails: bool, unsigned: bool := *, *;
      var unused := UnusedSignature(signatures);
      var other: string :| true;
      var signature := if faultFree then unused else other;
      reply := if !faultFree && fails then Thrown else if !faultFree && unsigned then Answer(None) else Answer(Some(signature));
      signatures := signatures + {signature};
      Hear(Signed(i, reply));
    }

    /** From here on the write of chunk `i` may land, whatever the call reports. */
    method Send(i: nat, signature: string) returns (delivery: Delivery)
      requires Valid() && Possible(chunks, binary, Now(), Acted(Handed(i, signature)))
      modifies this`buffer, this`handed, this`log
      ensures Valid() && Evolves(old(buffer), buffer, binary)
      ensures Actions(log) == old(Actions(log)) + [Handed(i, signature)]
      ensures Dialogue(log) == old(Dialogue(log)) + [Acted(Handed(i, signature)), Heard(Posted(i, delivery))]
      ensures handed == old(handed) + {i}
      ensures faultFree ==> delivery == Accepted
    {
      Happens(chunks, binary, start, log, Acted(Handed(i, signature)));
      handed := handed + {i};
      log := log + [Acted(Handed(i, signature))];
      Drift();
      delivery :| faultFree ==> delivery == Accepted;
      Hear(Posted(i, delivery));
    }

    /** The status of a signature, or None when the wait for it ran out. */
    method Confirm(i: nat) returns (reply: Reply<Option<SignatureStatus>>)
      requires Valid() && i < |chunks|
      modifies this`buffer, this`log
      ensures Valid() && Evolves(old(buffer), buffer, binary) && Actions(log) == old(Actions(log))
      ensures Dialogue(log) == old(Dialogue(log)) + [Heard(Reported(i, reply))]
      ensures faultFree && i in handed ==> reply == Answer(Some(SignatureStatus(false, true)))
    {
      Drift();
      reply :| faultFree && i in handed ==> reply == Answer(Some(SignatureStatus(false, true)));
      Hear(Reported(i, reply));
    }

    /** Reads the chunk's range of the buffer. */
    method ReadChunkMatches(i: nat) returns (reply: Reply<bool>)
      requires Valid() && i < |chunks|
      modifies this`buffer, this`log
      ensures Valid() && Evolves(old(buffer), buffer, binary) && Actions(log) == old(Actions(log))
      ensures Dialogue(log) == old(Dialogue(log)) + [Heard(Compared(i, reply))]
      ensures chunks[i].offset + chunks[i].length <= |binary|
      ensures reply.Answer? ==> (reply.value <==> Matches(binary, buffer, chunks[i]))
      ensures faultFree && i in handed ==> reply == Answer(true)
    {
      assert ChunkAt(chunks, binary, i);
      Drift();
      if faultFree && i in handed {
        Land(i);
      }
      var fails: bool := *;
      reply := if !faultFree && fails then Thrown else Answer(Matches(binary, buffer, chunks[i]));
      Hear(Compared(i, reply));
    }

    /** The two readings of the monotonic clock before and after the wait for chunk `i`. */
    method TimeConfirmation(i: nat) returns (started: int, finished: int)
      requires Valid()
      modifies this`log
      ensures Valid() && Actions(log) == old(Actions(log))
      ensures Dialogue(log) == old(Dialogue(log)) + [Heard(Timed(i, started, finished))]
      ensures faultFree ==> 0 <= finished - started <= MAX_SAFE_INTEGER
    {
      started :| true;
      finished :| !faultFree || finished == started;
      Hear(Timed(i, started, finished));
    }
  }

  /** A text longer than every text in use. */
  method UnusedSignature(used: set<string>) returns (unused: string)
    ensures unused !in used && unused != ""
  {
    var left := used;
    unused := "s";
    while left != {}
      invariant left <= used && unused != ""
      invariant forall s :: s in used && s !in left ==> |s| < |unused|
      decreases left
    {
      var s :| s in left;
      if |s| >= |unused| {
        unused := s + "s";
      }
      left := left - {s};
    }
  }
}
