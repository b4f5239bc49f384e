/** Framing: a 12-byte header (magic, version, type, zero flags, big-endian length)
    and a payload. Bytes are characters of a string; the decoder is the incremental
    one that accumulates chunks and emits frames. */
module Codec {

  const HEADER_SIZE := 12
  const MAX_PAYLOAD := 65536
  const PROTOCOL_VERSION := 1
  const MAGIC := "NSP1"

  const HELLO := 1
  const READY := 2
  const REQUEST := 3
  const RESPONSE := 4
  const EVENT := 5
  const ERROR := 6

  datatype CodecError = NoError | InvalidMagic | UnsupportedVersion | InvalidMessageType
                      | NonZeroFlags | PayloadTooLarge

  /** A decoded frame; version and flags are fixed by a successful header check. */
  datatype Frame = Frame(kind: nat, payload: string)

  predicate ValidType(kind: int) { HELLO <= kind <= ERROR }

  predicate Encodable(f: Frame) { ValidType(f.kind) && |f.payload| <= MAX_PAYLOAD }

  function Be32(n: nat): (s: string)
    requires n < 0x1_0000_0000
    ensures |s| == 4 && ReadBe32(s) == n
  {
    var a := n / 0x100;
    var b := a / 0x100;
    var c := b / 0x100;
    [c as char, (b % 0x100) as char, (a % 0x100) as char, (n % 0x100) as char]
  }

  function ReadBe32(s: string): nat
    requires |s| == 4
  {
    ((s[0] as int * 0x100 + s[1] as int) * 0x100 + s[2] as int) * 0x100 + s[3] as int
  }

  datatype HeaderResult = TooShort | BadHeader(error: CodecError) | GoodHeader(kind: nat, length: nat)

  function DecodeHeader(data: string): (h: HeaderResult)
    ensures h.GoodHeader? ==> ValidType(h.kind) && h.length <= MAX_PAYLOAD
    ensures h.BadHeader? ==> h.error != NoError
    ensures h.TooShort? <==> |data| < HEADER_SIZE
  {
    if |data| < HEADER_SIZE then TooShort
    else if data[..4] != MAGIC then BadHeader(InvalidMagic)
    else if data[4] as int != PROTOCOL_VERSION then BadHeader(UnsupportedVersion)
    else if !ValidType(data[5] as int) then BadHeader(InvalidMessageType)
    else if data[6] as int != 0 || data[7] as int != 0 then BadHeader(NonZeroFlags)
    else if ReadBe32(data[8..12]) > MAX_PAYLOAD then BadHeader(PayloadTooLarge)
    else GoodHeader(data[5] as int, ReadBe32(data[8..12]))
  }

  datatype EncodeResult = Encoded(bytes: string) | Refused(error: CodecError)

  function Header(f: Frame): (h: string)
    requires Encodable(f)
    ensures |h| == HEADER_SIZE
  {
    MAGIC + [PROTOCOL_VERSION as char, f.kind as char, 0 as char, 0 as char] + Be32(|f.payload|)
  }

  /** The bytes of a frame: magic, version 1, type, two zero bytes, the length with its
      highest byte first, and the payload. */
  lemma FrameLayout(f: Frame)
    requires Encodable(f)
    ensures EncodeFrame(f.kind, f.payload).Encoded?
    ensures var b := EncodeFrame(f.kind, f.payload).bytes;
            && |b| == 12 + |f.payload| && b[..4] == "NSP1" && b[12..] == f.payload
            && b[4] as int == 1 && b[5] as int == f.kind && b[6] as int == 0 && b[7] as int == 0
            && b[8] as int * 0x100_0000 + b[9] as int * 0x1_0000 + b[10] as int * 0x100 + b[11] as int == |f.payload|
            && b[8] as int < 256 && b[9] as int < 256 && b[10] as int < 256 && b[11] as int < 256
  {
    var h := Header(f);
    var b := EncodeFrame(f.kind, f.payload).bytes;
    assert b == h + f.payload && b[..4] == h[..4] && h[..4] == MAGIC;
    assert h[8..12] == Be32(|f.payload|);
    assert forall i :: 0 <= i < 12 ==> b[i] == h[i];
    assert h[8] == h[8..12][0] && h[9] == h[8..12][1] && h[10] == h[8..12][2] && h[11] == h[8..12][3];
  }

  /** Exactly payloads of up to 65536 bytes under one of the six types are encoded. */
  lemma EncodesExactly(kind: nat, payload: string)
    ensures EncodeFrame(kind, payload).Encoded? <==> 1 <= kind <= 6 && |payload| <= 65536
  {
    hide Header;
  }

  function EncodeFrame(kind: nat, payload: string): EncodeResult {
    if !ValidType(kind) then Refused(InvalidMessageType)
    else if |payload| > MAX_PAYLOAD then Refused(PayloadTooLarge)
    else Encoded(Header(Frame(kind, payload)) + payload)
  }

  function Bytes(f: Frame): (b: string)
    requires Encodable(f)
    ensures |b| == HEADER_SIZE + |f.payload|
  {
    EncodeFrame(f.kind, f.payload).bytes
  }

  // ---------------------------------------------------------------- stream semantics

  datatype Parsed = Parsed(frames: seq<Frame>, rest: string, error: CodecError)

  /** What a byte stream means: the frames in front of the first incomplete or
      malformed one. */
  function Parse(data: string): (p: Parsed)
    ensures p.error == NoError ==> |p.rest| < HEADER_SIZE + MAX_PAYLOAD
    decreases |data|
  {
    match DecodeHeader(data)
    case TooShort => Parsed([], data, NoError)
    case BadHeader(e) => Parsed([], data, e)
    case GoodHeader(kind, n) =>
      if |data| < HEADER_SIZE + n then Parsed([], data, NoError)
      else
        var tail := Parse(data[HEADER_SIZE + n..]);
        tail.(frames := [Frame(kind, data[HEADER_SIZE..HEADER_SIZE + n])] + tail.frames)
  }

  lemma ParseStep(data: string)
    requires var h := DecodeHeader(data); h.GoodHeader? && |data| >= HEADER_SIZE + h.length
    ensures var h := DecodeHeader(data);
            var tail := Parse(data[HEADER_SIZE + h.length..]);
            Parse(data) == Parsed([Frame(h.kind, data[HEADER_SIZE..HEADER_SIZE + h.length])] + tail.frames,
                                  tail.rest, tail.error)
  {
  }

  lemma HeaderStable(a: string, b: string)
    requires |a| >= HEADER_SIZE
    ensures DecodeHeader(a + b) == DecodeHeader(a)
  {
    assert (a + b)[..4] == a[..4] && (a + b)[8..12] == a[8..12];
  }

  /** Parsing may stop after any prefix and resume from what it left unread; an error
      in the prefix is final. */
  lemma {:induction false} ParseResumes(a: string, b: string)
    ensures Parse(a).error != NoError ==>
              Parse(a + b).frames == Parse(a).frames && Parse(a + b).error == Parse(a).error
    ensures Parse(a).error == NoError ==>
              var more := Parse(Parse(a).rest + b);
              Parse(a + b) == Parsed(Parse(a).frames + more.frames, more.rest, more.error)
    decreases |a|
  {
    var h := DecodeHeader(a);
    if h.GoodHeader? && |a| >= HEADER_SIZE + h.length {
      var size := HEADER_SIZE + h.length;
      HeaderStable(a, b);
      assert (a + b)[size..] == a[size..] + b;
      assert (a + b)[HEADER_SIZE..size] == a[HEADER_SIZE..size];
      ParseResumes(a[size..], b);
      var f := [Frame(h.kind, a[HEADER_SIZE..size])];
      var t := Parse(a[size..]);
      assert f + (t.frames + Parse(t.rest + b).frames) == f + t.frames + Parse(t.rest + b).frames;
    } else if h.BadHeader? {
      HeaderStable(a, b);
    } else {
      var p := Parse(a + b);
      assert [] + p.frames == p.frames;
    }
  }

  function EncodeAll(frames: seq<Frame>): string
    requires forall f :: f in frames ==> Encodable(f)
  {
    if frames == [] then "" else Bytes(frames[0]) + EncodeAll(frames[1..])
  }

  lemma HeaderDecodes(f: Frame, more: string)
    requires Encodable(f)
    ensures DecodeHeader(Header(f) + more) == GoodHeader(f.kind, |f.payload|)
  {
    var h := Header(f) + more;
    assert h[..4] == MAGIC;
    assert h[8..12] == Be32(|f.payload|);
  }

  /** What the start of a stream that begins with an encoded frame shows of it. */
  lemma FirstFrame(f: Frame, tail: string, p: string)
    requires Encodable(f) && p <= Bytes(f) + tail
    ensures |p| >= HEADER_SIZE ==> DecodeHeader(p) == GoodHeader(f.kind, |f.payload|)
    ensures |p| >= |Bytes(f)| ==> p[HEADER_SIZE..|Bytes(f)|] == f.payload && p == Bytes(f) + p[|Bytes(f)|..]
    ensures |p| >= |Bytes(f)| ==> p[|Bytes(f)|..] <= tail
  {
    var h, size := Header(f), |Bytes(f)|;
    var all := Bytes(f) + tail;
    assert all[..HEADER_SIZE] == h && all[HEADER_SIZE..size] == f.payload && all[size..] == tail && all[..size] == Bytes(f);
    assert p == all[..|p|];
    HeaderDecodes(f, if |p| >= HEADER_SIZE then p[HEADER_SIZE..] else "");
    hide DecodeHeader, Header, EncodeFrame, Bytes;
    if |p| >= HEADER_SIZE {
      assert p == p[..HEADER_SIZE] + p[HEADER_SIZE..] && p[..HEADER_SIZE] == all[..HEADER_SIZE];
    }
    if |p| >= size {
      assert p[HEADER_SIZE..size] == all[HEADER_SIZE..size];
      assert p[..size] == all[..size];
      assert p[size..] == all[size..][..|p| - size];
    }
  }

  lemma ParseWaits(data: string)
    requires DecodeHeader(data).TooShort? ||
             (DecodeHeader(data).GoodHeader? && |data| < HEADER_SIZE + DecodeHeader(data).length)
    ensures Parse(data) == Parsed([], data, NoError)
  {
  }

  /** Any prefix of an encoded stream parses without error to a prefix of its frames,
      and the whole stream to all of them. */
  lemma {:induction false} ParsePrefix(frames: seq<Frame>, p: string)
    requires forall f :: f in frames ==> Encodable(f)
    requires p <= EncodeAll(frames)
    ensures Parse(p).error == NoError && Parse(p).frames <= frames
    ensures p == EncodeAll(frames) ==> Parse(p).frames == frames && Parse(p).rest == ""
    decreases |frames|
  {
    hide Parse, DecodeHeader, Bytes;
    if frames == [] || |p| < |Bytes(frames[0])| {
      if frames != [] {
        FirstFrame(frames[0], EncodeAll(frames[1..]), p);
      }
      ParseWaits(p);
    } else {
      var f := frames[0];
      FirstFrame(f, EncodeAll(frames[1..]), p);
      ParseStep(p);
      ParsePrefix(frames[1..], p[|Bytes(f)|..]);
      assert frames == [f] + frames[1..];
    }
  }
}
