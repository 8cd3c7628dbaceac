/**
 What one uploader's window and the network do to the state file and the buffer,
 and what the window is told in between, event by event in the order in which it
 happens.
 */
module WindowLog {
  import opened ByteStrings
  import opened ChunkRecords
  import opened Outcomes
  import opened UploadPlan
  import opened UploadTrace

  /** What a call gives back when it does not throw. */
  datatype Reply<+T> = Answer(value: T) | Thrown

  datatype SignatureStatus = SignatureStatus(err: bool, finalized: bool)

  datatype Delivery = Accepted | RateLimited | Rejected

  /**
   What a call about chunk `index` gave back: the signature made for it, what became of handing it over, the status
   of its signature, whether its range was read to match, or two readings of the clock around a wait.
   */
  datatype News =
    | Signed(index: nat, signed: Reply<Option<string>>)
    | Posted(index: nat, delivery: Delivery)
    | Reported(index: nat, status: Reply<Option<SignatureStatus>>)
    | Compared(index: nat, matches: Reply<bool>)
    | Timed(index: nat, started: int, finished: int)

  /** The uploader saves or sends, hears an answer, or a chunk write handed over earlier lands. */
  datatype Event = Acted(action: Action) | Heard(news: News) | Landed(index: nat)

  datatype World = World(progress: Progress, buffer: Bytes, handed: set<nat>)

  /** The chunks that the plan marks as matching. */
  function Marked(chunks: seq<Chunk>): set<nat> {
    set i: nat | i < |chunks| && chunks[i].exactMatch
  }

  ghost predicate Possible(chunks: seq<Chunk>, binary: Bytes, w: World, e: Event) {
    match e
    case Acted(a) =>
      && a.index < |chunks| && Legal(w.progress, a)
      && Justified(chunks, binary, w.buffer, Marked(chunks), w.progress.records, a)
    case Heard(news) =>
      news.Compared? && news.matches.Answer? ==> (news.matches.value <==> HeldAt(chunks, binary, w.buffer, news.index))
    case Landed(i) =>
      i in w.handed && i < |chunks| && chunks[i].offset + chunks[i].length <= |binary| == |w.buffer|
  }

  ghost function Next(chunks: seq<Chunk>, binary: Bytes, w: World, e: Event): World {
    match e
    case Acted(a) =>
      World(After(w.progress, a), w.buffer, if a.Handed? then w.handed + {a.index} else w.handed)
    case Heard(_) => w
    case Landed(i) =>
      if Possible(chunks, binary, w, e) then w.(buffer := Write(w.buffer, binary, chunks[i])) else w
  }

  /** The world after the events of the log. */
  ghost function Reached(chunks: seq<Chunk>, binary: Bytes, w: World, log: seq<Event>): World {
    if log == [] then w
    else Next(chunks, binary, Reached(chunks, binary, w, log[..|log| - 1]), log[|log| - 1])
  }

  ghost predicate PossibleLog(chunks: seq<Chunk>, binary: Bytes, w: World, log: seq<Event>) {
    log == [] ||
    (var earlier := log[..|log| - 1];
     && PossibleLog(chunks, binary, w, earlier)
     && Possible(chunks, binary, Reached(chunks, binary, w, earlier), log[|log| - 1]))
  }

  function Actions(log: seq<Event>): seq<Action> {
    if log == [] then []
    else
      var last := log[|log| - 1];
      Actions(log[..|log| - 1]) + if last.Acted? then [last.action] else []
  }

  /** What the uploader did and heard, without the landings it does not see. */
  function Dialogue(log: seq<Event>): seq<Event> {
    if log == [] then []
    else
      var last := log[|log| - 1];
      Dialogue(log[..|log| - 1]) + if last.Landed? then [] else [last]
  }

  lemma {:induction false} Happens(chunks: seq<Chunk>, binary: Bytes, w: World, log: seq<Event>, e: Event)
    requires PossibleLog(chunks, binary, w, log) && Possible(chunks, binary, Reached(chunks, binary, w, log), e)
    ensures PossibleLog(chunks, binary, w, log + [e])
    ensures Reached(chunks, binary, w, log + [e]) == Next(chunks, binary, Reached(chunks, binary, w, log), e)
    ensures Actions(log + [e]) == Actions(log) + if e.Acted? then [e.action] else []
    ensures Dialogue(log + [e]) == Dialogue(log) + if e.Landed? then [] else [e]
  {
    assert (log + [e])[..|log|] == log;
  }

  /** What the uploader did is a legal trace, and the landings have no part in its progress. */
  lemma {:induction false} ActionsAreLegal(chunks: seq<Chunk>, binary: Bytes, w: World, log: seq<Event>)
    requires PossibleLog(chunks, binary, w, log)
    ensures LegalTrace(w.progress, Actions(log))
    ensures Replay(w.progress, Actions(log)) == Reached(chunks, binary, w, log).progress
  {
    if log != [] {
      var earlier, last := log[..|log| - 1], log[|log| - 1];
      ActionsAreLegal(chunks, binary, w, earlier);
      if last.Acted? {
        Extend(w.progress, Actions(earlier), last.action);
      } else {
        assert Actions(log) == Actions(earlier);
      }
    }
  }

  /** Only what was handed over lands: the buffer becomes the binary there and stays as it was elsewhere. */
  lemma {:induction false} OnlyHandedLand(chunks: seq<Chunk>, binary: Bytes, w: World, log: seq<Event>)
    requires PossibleLog(chunks, binary, w, log) && |w.buffer| == |binary|
    ensures var now := Reached(chunks, binary, w, log);
      && Evolves(w.buffer, now.buffer, binary) && w.handed <= now.handed
      && forall p :: 0 <= p < |binary| && !InChunks(chunks, now.handed, p) ==> now.buffer[p] == w.buffer[p]
  {
    if log != [] {
      var earlier, last := log[..|log| - 1], log[|log| - 1];
      OnlyHandedLand(chunks, binary, w, earlier);
      var before, now := Reached(chunks, binary, w, earlier), Reached(chunks, binary, w, log);
      if last.Landed? {
        WriteEvolves(before.buffer, binary, chunks[last.index]);
        EvolvesTransitively(w.buffer, before.buffer, now.buffer, binary);
        forall p | 0 <= p < |binary| && !InChunks(chunks, now.handed, p)
          ensures now.buffer[p] == w.buffer[p]
        {
          assert last.index in now.handed;
        }
      } else {
        forall p | 0 <= p < |binary| && !InChunks(chunks, now.handed, p)
          ensures now.buffer[p] == w.buffer[p]
        {
          assert !InChunks(chunks, before.handed, p);
        }
      }
    }
  }
}
