/** The bounded outbound queue of one connection, with partially sent front frames. */
module Outbound {

  datatype Pending = Pending(bytes: string, offset: nat)
  datatype Queue = Queue(maxFrames: nat, maxBytes: nat, queued: nat, frames: seq<Pending>)
  datatype EnqueueResult = Accepted | InvalidFrame | FrameTooLarge | Overflow

  const DEFAULT_MAX_FRAMES := 32
  const DEFAULT_MAX_BYTES := 4 * (12 + 65536)

  function Rest(p: Pending): string
    requires p.offset <= |p.bytes|
  {
    p.bytes[p.offset..]
  }

  /** The bytes still to be written, in order. */
  function Unsent(frames: seq<Pending>): string
    requires forall p :: p in frames ==> p.offset < |p.bytes|
  {
    if frames == [] then "" else Rest(frames[0]) + Unsent(frames[1..])
  }

  /** Every queued frame has something left to send, the byte counter is exact and
      both bounds hold. */
  predicate Valid(q: Queue) {
    && (forall p :: p in q.frames ==> p.offset < |p.bytes|)
    && q.queued == |Unsent(q.frames)|
    && q.queued <= q.maxBytes && |q.frames| <= q.maxFrames
  }

  function Fresh(maxFrames: nat, maxBytes: nat): (q: Queue)
    ensures Valid(q)
  {
    Queue(maxFrames, maxBytes, 0, [])
  }

  function Enqueue(q: Queue, frame: string): (EnqueueResult, Queue) {
    if frame == "" then (InvalidFrame, q)
    else if q.maxFrames == 0 || q.maxBytes == 0 || |frame| > q.maxBytes then (FrameTooLarge, q)
    else if |q.frames| >= q.maxFrames || q.queued > q.maxBytes - |frame| then (Overflow, q)
    else (Accepted, q.(queued := q.queued + |frame|, frames := q.frames + [Pending(frame, 0)]))
  }

  function FrontSize(q: Queue): nat
    requires Valid(q)
  {
    if q.frames == [] then 0 else |q.frames[0].bytes| - q.frames[0].offset
  }

  function Consume(q: Queue, n: nat): (bool, Queue)
    requires Valid(q)
  {
    if q.frames == [] || n == 0 || n > FrontSize(q) then (false, q)
    else
      var front := q.frames[0].(offset := q.frames[0].offset + n);
      assert |Unsent(q.frames)| == |Rest(q.frames[0])| + |Unsent(q.frames[1..])|;
      (true, q.(queued := q.queued - n,
                frames := (if front.offset == |front.bytes| then [] else [front]) + q.frames[1..]))
  }

  lemma {:induction false} UnsentAppend(frames: seq<Pending>, p: Pending)
    requires forall x :: x in frames ==> x.offset < |x.bytes|
    requires p.offset < |p.bytes|
    ensures Unsent(frames + [p]) == Unsent(frames) + Rest(p)
  {
    if frames == [] {
      assert frames + [p] == [p];
    } else {
      assert (frames + [p])[1..] == frames[1..] + [p];
      UnsentAppend(frames[1..], p);
    }
  }

  /** An accepted frame goes to the very end of what is to be sent; a refused one
      changes nothing. */
  lemma EnqueueAppends(q: Queue, frame: string)
    requires Valid(q)
    ensures Valid(Enqueue(q, frame).1)
    ensures Unsent(Enqueue(q, frame).1.frames) ==
            Unsent(q.frames) + (if Enqueue(q, frame).0 == Accepted then frame else "")
  {
    UnsentAppend(q.frames, Pending(if frame == "" then "x" else frame, 0));
    assert Unsent(q.frames) + "" == Unsent(q.frames);
  }

  /** Consuming removes exactly the sent bytes from the front. */
  lemma ConsumeDrops(q: Queue, n: nat)
    requires Valid(q) && 0 < n <= FrontSize(q)
    ensures Consume(q, n).0 && Valid(Consume(q, n).1)
    ensures Unsent(Consume(q, n).1.frames) == Unsent(q.frames)[n..]
    ensures Unsent(q.frames)[..n] == Rest(q.frames[0])[..n]
  {
    var front := q.frames[0];
    var tail := Unsent(q.frames[1..]);
    assert Unsent(q.frames) == Rest(front) + tail;
    assert (Rest(front) + tail)[n..] == Rest(front)[n..] + tail;
    var moved := front.(offset := front.offset + n);
    if moved.offset < |moved.bytes| {
      assert Rest(moved) == Rest(front)[n..];
      assert ([moved] + q.frames[1..])[1..] == q.frames[1..];
    } else {
      assert Rest(front)[n..] == "";
      assert [] + q.frames[1..] == q.frames[1..];
    }
  }

  /** A frame is taken exactly if it is not empty and both bounds leave room for it. */
  lemma EnqueueExactly(q: Queue, frame: string)
    ensures Enqueue(q, frame).0 == Accepted <==>
            frame != "" && |q.frames| < q.maxFrames && q.queued + |frame| <= q.maxBytes
    ensures Enqueue(q, frame).0 != Accepted ==> Enqueue(q, frame).1 == q
  {
  }

  /** A queue with nothing in it takes any frame that can be encoded. */
  lemma EmptyAccepts(q: Queue, frame: string)
    requires Valid(q) && q.frames == [] && q.maxFrames > 0 && 0 < |frame| <= q.maxBytes
    ensures Enqueue(q, frame).0 == Accepted
  {
  }

  class OutboundQueue {
    const maxFrames: nat
    const maxBytes: nat
    var queued: nat
    var frames: seq<Pending>

    function View(): Queue
      reads this
    {
      Queue(maxFrames, maxBytes, queued, frames)
    }

    constructor (f: nat, b: nat)
      ensures View() == Fresh(f, b)
    {
      maxFrames, maxBytes, queued, frames := f, b, 0, [];
    }

    method Push(frame: string) returns (r: EnqueueResult)
      requires Valid(View())
      modifies this
      ensures (r, View()) == Enqueue(old(View()), frame) && Valid(View())
    {
      EnqueueAppends(View(), frame);
      if frame == "" { return InvalidFrame; }
      if maxFrames == 0 || maxBytes == 0 || |frame| > maxBytes { return FrameTooLarge; }
      if |frames| >= maxFrames || queued > maxBytes - |frame| { return Overflow; }
      queued := queued + |frame|;
      frames := frames + [Pending(frame, 0)];
      return Accepted;
    }

    method FrontData() returns (data: string)
      requires Valid(View())
      ensures data == if frames == [] then "" else Rest(frames[0])
    {
      data := if frames == [] then "" else frames[0].bytes[frames[0].offset..];
    }

    method Drop(n: nat) returns (ok: bool)
      requires Valid(View())
      modifies this
      ensures (ok, View()) == Consume(old(View()), n) && Valid(View())
    {
      if frames == [] || n == 0 || n > |frames[0].bytes| - frames[0].offset { return false; }
      ConsumeDrops(View(), n);
      var front := frames[0].(offset := frames[0].offset + n);
      queued := queued - n;
      if front.offset == |front.bytes| {
        assert [] + frames[1..] == frames[1..];
        frames := frames[1..];
      } else {
        frames := [front] + frames[1..];
      }
      return true;
    }

    method Clear()
      modifies this
      ensures View() == Fresh(maxFrames, maxBytes)
    {
      frames, queued := [], 0;
    }
  }
}
