/** One direction of a connection, end to end: frames accepted by an outbound queue,
    partial writes, arbitrary receive chunks, and the receiving decoder. */
module Wire {
  import opened Codec
  import opened FrameDecoding
  import opened Outbound

  /** `accepted` are the frames the queue took, `written` the bytes handed to the
      socket, `received` how many of those the peer has read. */
  datatype Link = Link(q: Queue, accepted: seq<Frame>, written: string, received: nat,
                       peer: History, feeds: seq<FrameDecoding.Event>)

  datatype Act =
    | Offer(f: Frame)
    | Write(n: nat)
    | Read(n: nat)
    | TakeOne

  function Start(maxFrames: nat, maxBytes: nat): Link {
    Link(Fresh(maxFrames, maxBytes), [], "", 0, History(EMPTY, []), [])
  }

  /** The queue takes encoded frames, a socket accepts at most the front frame's
      remaining bytes, and a peer reads at most what was written. */
  predicate Possible(l: Link, a: Act) {
    match a
    case Offer(f) => Encodable(f)
    case Write(n) => Valid(l.q) && 0 < n <= FrontSize(l.q)
    case Read(n) => l.received + n <= |l.written|
    case TakeOne => true
  }

  function Do(l: Link, a: Act): Link {
    if !Possible(l, a) then l else
    match a
    case Offer(f) =>
      var (r, q) := Enqueue(l.q, Bytes(f));
      l.(q := q, accepted := if r == Accepted then l.accepted + [f] else l.accepted)
    case Write(n) =>
      l.(q := Consume(l.q, n).1, written := l.written + Rest(l.q.frames[0])[..n])
    case Read(n) =>
      var e := Fed(l.written[l.received..l.received + n]);
      l.(received := l.received + n, peer := Apply(l.peer, e), feeds := l.feeds + [e])
    case TakeOne =>
      l.(peer := Apply(l.peer, Taken), feeds := l.feeds + [Taken])
  }

  ghost predicate Sane(l: Link) {
    && Valid(l.q) && l.received <= |l.written|
    && (forall f :: f in l.accepted ==> Encodable(f))
    && l.written + Unsent(l.q.frames) == EncodeAll(l.accepted)
    && l.peer == After(l.feeds) && FedBytes(l.feeds) == l.written[..l.received]
  }

  lemma {:induction false} EncodeAllAppend(frames: seq<Frame>, f: Frame)
    requires (forall x :: x in frames ==> Encodable(x)) && Encodable(f)
    ensures EncodeAll(frames + [f]) == EncodeAll(frames) + Bytes(f)
  {
    if frames == [] {
      assert frames + [f] == [f] && EncodeAll([f]) == Bytes(f) + EncodeAll([]);
    } else {
      assert (frames + [f])[1..] == frames[1..] + [f];
      EncodeAllAppend(frames[1..], f);
    }
  }

  lemma FeedsExtend(feeds: seq<FrameDecoding.Event>, e: FrameDecoding.Event)
    ensures After(feeds + [e]) == Apply(After(feeds), e)
    ensures FedBytes(feeds + [e]) == FedBytes(feeds) + (if e.Fed? then e.data else "")
  {
    assert (feeds + [e])[..|feeds|] == feeds;
  }

  lemma OfferSane(l: Link, f: Frame)
    requires Sane(l) && Encodable(f)
    ensures Sane(Do(l, Offer(f)))
  {
    EnqueueAppends(l.q, Bytes(f));
    EncodeAllAppend(l.accepted, f);
    hide Bytes, Unsent, EncodeAll, After, FedBytes;
    assert l.written + (Unsent(l.q.frames) + Bytes(f)) == l.written + Unsent(l.q.frames) + Bytes(f);
  }

  lemma WriteSane(l: Link, n: nat)
    requires Sane(l) && 0 < n <= FrontSize(l.q)
    ensures Sane(Do(l, Write(n)))
  {
    ConsumeDrops(l.q, n);
    var u := Unsent(l.q.frames);
    assert l.written + u == l.written + u[..n] + u[n..];
    assert (l.written + u[..n])[..l.received] == l.written[..l.received];
  }

  lemma ReadSane(l: Link, n: nat)
    requires Sane(l) && l.received + n <= |l.written|
    ensures Sane(Do(l, Read(n)))
  {
    FeedsExtend(l.feeds, Fed(l.written[l.received..l.received + n]));
    assert l.written[..l.received] + l.written[l.received..l.received + n] == l.written[..l.received + n];
  }

  lemma DoSane(l: Link, a: Act)
    requires Sane(l)
    ensures Sane(Do(l, a))
  {
    if Possible(l, a) {
      match a
      case Offer(f) => OfferSane(l, f);
      case Write(n) => WriteSane(l, n);
      case Read(n) => ReadSane(l, n);
      case TakeOne =>
        FeedsExtend(l.feeds, Taken);
        assert FedBytes(l.feeds) + "" == FedBytes(l.feeds);
    }
  }

  function Run(maxFrames: nat, maxBytes: nat, acts: seq<Act>): Link {
    if acts == [] then Start(maxFrames, maxBytes)
    else Do(Run(maxFrames, maxBytes, acts[..|acts| - 1]), acts[|acts| - 1])
  }

  lemma {:induction false} RunSane(maxFrames: nat, maxBytes: nat, acts: seq<Act>)
    ensures Sane(Run(maxFrames, maxBytes, acts))
  {
    if acts != [] {
      RunSane(maxFrames, maxBytes, acts[..|acts| - 1]);
      DoSane(Run(maxFrames, maxBytes, acts[..|acts| - 1]), acts[|acts| - 1]);
    }
  }

  /** In every run the peer has decoded, without error, exactly a prefix of the frames
      the queue accepted; once everything was written and read, all of them. The byte
      counter is exact and bounded throughout. */
  lemma EndToEnd(maxFrames: nat, maxBytes: nat, acts: seq<Act>)
    ensures var l := Run(maxFrames, maxBytes, acts);
            && l.peer.d.error == NoError && Emitted(l.peer) <= l.accepted
            && (l.q.frames == [] && l.received == |l.written| ==> Emitted(l.peer) == l.accepted)
            && Valid(l.q)
  {
    RunSane(maxFrames, maxBytes, acts);
    Delivered(Run(maxFrames, maxBytes, acts));
  }

  lemma Delivered(l: Link)
    requires Sane(l)
    ensures l.peer.d.error == NoError && Emitted(l.peer) <= l.accepted
    ensures l.q.frames == [] && l.received == |l.written| ==> Emitted(l.peer) == l.accepted
  {
    var seen := l.written[..l.received];
    assert seen <= EncodeAll(l.accepted) by {
      assert EncodeAll(l.accepted)[..l.received] == seen;
    }
    ChunkingInvariance(l.feeds);
    ParsePrefix(l.accepted, seen);
    if l.q.frames == [] && l.received == |l.written| {
      assert seen == l.written == EncodeAll(l.accepted);
    }
  }
}
