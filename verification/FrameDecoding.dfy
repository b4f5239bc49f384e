/** The incremental frame decoder: the object with its buffer and queue, and what it
    has emitted after any sequence of feeds and takes. */
module FrameDecoding {
  import opened Codec

  datatype Decoder = Decoder(buffer: string, queue: seq<Frame>, error: CodecError)

  const EMPTY := Decoder("", [], NoError)

  function Feed(d: Decoder, data: string): Decoder {
    if d.error != NoError then d
    else
      var p := Parse(d.buffer + data);
      Decoder(p.rest, d.queue + p.frames, p.error)
  }

  datatype Status = NeedMore | FrameReady | Broken

  function StatusOf(d: Decoder): Status {
    if d.error != NoError then Broken else if d.queue == [] then NeedMore else FrameReady
  }

  lemma AppendMoves(a: seq<Frame>, f: Frame, b: seq<Frame>)
    ensures a + ([f] + b) == a + [f] + b
  {
  }

  class FrameDecoder {
    var buffer: string
    var frames: seq<Frame>
    var error: CodecError

    function View(): Decoder
      reads this
    {
      Decoder(buffer, frames, error)
    }

    constructor ()
      ensures View() == EMPTY
    {
      buffer, frames, error := "", [], NoError;
    }

    method FeedBytes(data: string) returns (s: Status)
      modifies this
      ensures View() == Feed(old(View()), data) && s == StatusOf(View())
    {
      if error != NoError { return Broken; }
      buffer := buffer + data;
      ghost var whole := Parse(buffer);
      ghost var total := frames + whole.frames;
      while |buffer| >= HEADER_SIZE
        invariant error == NoError
        invariant Parse(buffer).rest == whole.rest && Parse(buffer).error == whole.error
        invariant frames + Parse(buffer).frames == total
        decreases |buffer|
      {
        var header := DecodeHeader(buffer);
        if header.BadHeader? {
          error := header.error;
          return Broken;
        }
        var size := HEADER_SIZE + header.length;
        if |buffer| < size {
          return if frames == [] then NeedMore else FrameReady;
        }
        ParseStep(buffer);
        AppendMoves(frames, Frame(header.kind, buffer[HEADER_SIZE..size]), Parse(buffer[size..]).frames);
        frames := frames + [Frame(header.kind, buffer[HEADER_SIZE..size])];
        buffer := buffer[size..];
      }
      return if frames == [] then NeedMore else FrameReady;
    }

    method HasFrame() returns (has: bool)
      ensures has <==> View().queue != []
    {
      has := frames != [];
    }

    /** The caller checks HasFrame first; the source throws otherwise. */
    method TakeFrame() returns (f: Frame)
      requires View().queue != []
      modifies this
      ensures f == old(View()).queue[0] && View() == old(View()).(queue := old(View()).queue[1..])
    {
      f := frames[0];
      frames := frames[1..];
    }

    method Reset()
      modifies this
      ensures View() == EMPTY
    {
      buffer, frames, error := "", [], NoError;
    }
  }

  // ---------------------------------------------------------------- histories

  datatype Event = Fed(data: string) | Taken

  /** A decoder with the frames that were taken from it. A take from an empty queue is
      refused. */
  datatype History = History(d: Decoder, taken: seq<Frame>)

  function Apply(h: History, e: Event): History {
    match e
    case Fed(data) => h.(d := Feed(h.d, data))
    case Taken => if h.d.queue == [] then h
                  else History(h.d.(queue := h.d.queue[1..]), h.taken + [h.d.queue[0]])
  }

  function After(events: seq<Event>): History {
    if events == [] then History(EMPTY, []) else Apply(After(events[..|events| - 1]), events[|events| - 1])
  }

  function FedBytes(events: seq<Event>): string {
    if events == [] then ""
    else
      var before := FedBytes(events[..|events| - 1]);
      match events[|events| - 1] case Fed(data) => before + data case Taken => before
  }

  function Emitted(h: History): seq<Frame> { h.taken + h.d.queue }

  /** However the bytes were chunked and the frames were taken: what was emitted in
      total and the error are those of the concatenated stream, the first error is
      final, and an unbroken decoder holds less than one frame. */
  lemma {:induction false} ChunkingInvariance(events: seq<Event>)
    ensures Emitted(After(events)) == Parse(FedBytes(events)).frames
    ensures After(events).d.error == Parse(FedBytes(events)).error
    ensures After(events).d.error == NoError ==>
              After(events).d.buffer == Parse(FedBytes(events)).rest
    ensures After(events).d.error == NoError ==>
              |After(events).d.buffer| < HEADER_SIZE + MAX_PAYLOAD
  {
    if events == [] {
    } else {
      var before, e := events[..|events| - 1], events[|events| - 1];
      ChunkingInvariance(before);
      if e.Fed? {
        ParseResumes(FedBytes(before), e.data);
        if After(before).d.error == NoError {
          FeedStep(After(before), e.data);
        }
      } else {
        TakeStep(After(before));
      }
    }
  }

  lemma FeedStep(h: History, data: string)
    requires h.d.error == NoError
    ensures var g, more := Apply(h, Fed(data)), Parse(h.d.buffer + data);
            Emitted(g) == Emitted(h) + more.frames && g.d.error == more.error && g.d.buffer == more.rest
  {
    var more := Parse(h.d.buffer + data);
    assert h.taken + (h.d.queue + more.frames) == h.taken + h.d.queue + more.frames;
  }

  lemma TakeStep(h: History)
    ensures Emitted(Apply(h, Taken)) == Emitted(h)
  {
    if h.d.queue != [] {
      assert h.taken + h.d.queue == h.taken + [h.d.queue[0]] + h.d.queue[1..];
    }
  }

  /** Only the concatenation matters. */
  lemma SameBytesSameFrames(one: seq<Event>, other: seq<Event>)
    requires FedBytes(one) == FedBytes(other)
    ensures Emitted(After(one)) == Emitted(After(other)) && After(one).d.error == After(other).d.error
  {
    ChunkingInvariance(one);
    ChunkingInvariance(other);
  }

  lemma {:induction false} FedBytesAppend(events: seq<Event>, more: seq<Event>)
    ensures FedBytes(events + more) == FedBytes(events) + FedBytes(more)
  {
    if more == [] {
      assert events + more == events;
    } else {
      var init := more[..|more| - 1];
      assert (events + more)[..|events + more| - 1] == events + init;
      FedBytesAppend(events, init);
    }
  }

  /** Once broken, a decoder reports that same error and emits nothing further,
      whatever is fed or taken afterwards. */
  lemma FirstErrorSticks(events: seq<Event>, more: seq<Event>)
    requires After(events).d.error != NoError
    ensures After(events + more).d.error == After(events).d.error
    ensures Emitted(After(events + more)) == Emitted(After(events))
  {
    ChunkingInvariance(events);
    ChunkingInvariance(events + more);
    FedBytesAppend(events, more);
    ParseResumes(FedBytes(events), FedBytes(more));
  }
}
