/** One protocol session: the HELLO handshake, request handling and what the server is
    asked to do for a frame. */
module Sessions {
  import opened Codec
  import opened Decimal
  import opened JsonText
  import opened SessionScanner
  import opened Requests
  import opened JsonStrings
  import opened JsonValues
  import opened JsonObjects

  // ---------------------------------------------------------------- HELLO

  datatype Versions = Versions(min: nat, max: nat, haveMin: bool, haveMax: bool)
  datatype HelloField = BadHello | GoodHello(versions: Versions, end: nat)

  const NO_VERSIONS := Versions(0, 0, false, false)
  const KEY_MIN := "minVersion"
  const KEY_MAX := "maxVersion"

  function ReadVersion(t: string, pos: nat, key: string, v: Versions): (f: HelloField)
    requires pos <= |t|
    ensures f.GoodHello? ==> pos < f.end <= |t|
  {
    if key == KEY_MIN || key == KEY_MAX then
      var n := Uint64At(t, pos);
      if n.NotNumber? then BadHello
      else if key == KEY_MIN then
        if v.haveMin then BadHello else GoodHello(v.(min := n.value, haveMin := true), n.end)
      else
        if v.haveMax then BadHello else GoodHello(v.(max := n.value, haveMax := true), n.end)
    else
      var s := SkipValue(t, pos, 1);
      if s.Reject? then BadHello else GoodHello(v, s.pos)
  }

  datatype Hello = NoHello | Hello(min: nat, max: nat)

  function FinishHello(t: string, pos: nat, v: Versions): Hello
    requires pos <= |t|
  {
    if SkipWs(t, pos) == |t| && v.haveMin && v.haveMax && v.min <= v.max then Hello(v.min, v.max) else NoHello
  }

  function HelloMembers(t: string, pos: nat, v: Versions): Hello
    requires pos <= |t|
    decreases |t| - pos
  {
    var k := SkipKey(t, pos);
    if k.Reject? then NoHello else
    var f := ReadVersion(t, k.pos, StringAt(t, pos).value, v);
    if f.BadHello? then NoHello else
    match AfterElement(t, f.end, '}')
    case Stop(Reject) => NoHello
    case Stop(End(e)) => FinishHello(t, e, f.versions)
    case More(next) => HelloMembers(t, next, f.versions)
  }

  function HelloOf(t: string): Hello {
    var p := SkipWs(t, 0);
    if p >= |t| || t[p] != '{' then NoHello else
    var q := SkipWs(t, p + 1);
    if q < |t| && t[q] == '}' then NoHello else HelloMembers(t, q, NO_VERSIONS)
  }

  method ParseHelloVersions(t: string) returns (h: Hello)
    ensures h == HelloOf(t)
  {
    var v := NO_VERSIONS;
    var pos := ScanWs(t, 0);
    if pos >= |t| || t[pos] != '{' { return NoHello; }
    pos := ScanWs(t, pos + 1);
    if pos < |t| && t[pos] == '}' { return NoHello; }
    ghost var whole := HelloMembers(t, pos, v);
    while true
      invariant pos <= |t| && whole == HelloMembers(t, pos, v)
      decreases |t| - pos
    {
      var k, key := ScanKey(t, pos);
      if k.Reject? { return NoHello; }
      var next := 0;
      if key == KEY_MIN || key == KEY_MAX {
        var n := ParseUint64(t, k.pos);
        if n.NotNumber? { return NoHello; }
        if key == KEY_MIN {
          if v.haveMin { return NoHello; }
          v := v.(min := n.value, haveMin := true);
        } else {
          if v.haveMax { return NoHello; }
          v := v.(max := n.value, haveMax := true);
        }
        next := n.end;
      } else {
        var s := ScanValue(t, k.pos, 1);
        if s.Reject? { return NoHello; }
        next := s.pos;
      }
      var turn := ScanSeparator(t, next, '}');
      if turn.Stop? {
        if turn.result.Reject? { return NoHello; }
        return FinishHello(t, turn.result.pos, v);
      }
      pos := turn.pos;
    }
  }

  // ---------------------------------------------------------------- the session

  datatype State = AwaitHello | Ready | Closed
  datatype Session = Session(state: State, subscribed: bool, generation: nat, id: string)

  /** What the server must do for a frame beyond sending the reply. */
  datatype Action =
    | NoAction
    | EmitEventsSubscribed
    | SendAuthoritativeSnapshot(id: nat)
    | DispatchBusinessRequest(id: nat, method_: string, params: string)

  datatype Reply = Silent | Answer(frame: Frame)
  datatype Handled = Handled(reply: Reply, closeAfterSend: bool, action: Action)

  datatype Problem = SessionNotReady | InvalidHello | UnsupportedVersion | ProtocolViolation | InvalidRequestId

  function Code(p: Problem): (s: string)
    ensures |s| <= 20
  {
    match p
    case SessionNotReady => "SESSION_NOT_READY"
    case InvalidHello => "INVALID_HELLO"
    case UnsupportedVersion => "UNSUPPORTED_VERSION"
    case ProtocolViolation => "PROTOCOL_VIOLATION"
    case InvalidRequestId => "INVALID_REQUEST_ID"
  }

  function Explain(p: Problem, e: ParseError): (s: string)
    ensures |s| <= 60
  {
    match p
    case SessionNotReady => "HELLO required before REQUEST"
    case InvalidHello => "HELLO payload is invalid"
    case UnsupportedVersion => "protocol version 1 is not supported by client range"
    case ProtocolViolation => "unexpected client frame for READY session"
    case InvalidRequestId => ExplainRequest(e)
  }

  function ExplainRequest(e: ParseError): (s: string)
    ensures |s| <= 60
  {
    match e
    case Fine => "none"
    case InvalidJson => "REQUEST payload is invalid JSON"
    case DuplicateRequestId => "requestId must appear exactly once"
    case DuplicateMethod => "method must appear exactly once"
    case DuplicateParams => "params must appear at most once"
    case InvalidRequestId => "requestId must be a non-zero uint64 integer"
    case InvalidMethod => "method must be a non-empty string"
    case InvalidParams => "params must be a JSON object"
    case MissingRequestId => "requestId is required"
    case MissingMethod => "method is required"
  }

  function EncodeJson(kind: nat, payload: string): (r: Reply)
    ensures r.Answer? ==> Encodable(r.frame) && r.frame == Frame(kind, payload)
  {
    match EncodeFrame(kind, payload) case Encoded(_) => Answer(Frame(kind, payload)) case Refused(_) => Silent
  }

  /** Codes and messages are constants in which there is nothing to escape. */
  function Complaint(code: string, message: string): (es: seq<Entry>)
    ensures |es| == 2
  {
    [Entry("code", Quoted(code)), Entry("message", Quoted(message))]
  }

  lemma ComplaintLength(code: string, message: string)
    ensures |ObjectText(Complaint(code, message))| <= 6 * |code| + 6 * |message| + 30
  {
    hide Quoted, Escape;
    QuotedLength(code);
    QuotedLength(message);
    EntriesLength(Complaint(code, message));
    SizeTwo(Complaint(code, message));
  }

  function ErrorText(p: Problem, e: ParseError): (s: string)
    ensures |s| <= 600
  {
    ComplaintLength(Code(p), Explain(p, e));
    ObjectText(Complaint(Code(p), Explain(p, e)))
  }

  const CAPABILITIES := Arr([Str("request-response"), Str("events"), Str("snapshot-rebase"), Str("network-control")])

  lemma WordsLength(v: Json, i: nat, n: nat)
    requires v.Arr? && i < |v.items| && v.items[i].Str? && |v.items[i].s| <= 16
    requires i + 1 < |v.items| ==> |RenderFrom(v, i + 1, "")| <= n
    ensures |RenderFrom(v, i, "")| <= n + 100
  {
    hide Quoted;
    QuotedLength(v.items[i].s);
    assert Render(Child(v, i), "") == Quoted(v.items[i].s);
  }

  lemma CapabilitiesLength()
    ensures |Render(CAPABILITIES, "")| <= 500
  {
    hide RenderFrom, Quoted;
    WordsLength(CAPABILITIES, 3, 0);
    WordsLength(CAPABILITIES, 2, 100);
    WordsLength(CAPABILITIES, 1, 200);
    WordsLength(CAPABILITIES, 0, 300);
  }

  function ReadyEntries(id: string, generation: nat): (es: seq<Entry>)
    ensures |es| == 5
  {
    [Entry("version", "1"), Entry("service", InQuotes("network_service")), Entry("sessionId", InQuotes(id)),
     Entry("generation", Print(generation)), Entry("capabilities", Render(CAPABILITIES, ""))]
  }

  function ReadyText(id: string, generation: nat): string { ObjectText(ReadyEntries(id, generation)) }

  lemma ReadyLength(id: string, generation: nat)
    ensures |ReadyText(id, generation)| <= |id| + |Print(generation)| + 700
  {
    hide Print, Render;
    CapabilitiesLength();
    var es := ReadyEntries(id, generation);
    EntriesLength(es);
    SizeStep(es);
    SizeStep(es[1..]);
    SizeStep(es[2..]);
    SizeTwo(es[3..]);
    assert es[1..][1..] == es[2..] && es[2..][1..] == es[3..];
  }

  function SuccessTail(result: string): (s: string)
    ensures |s| <= |result| + 30 && s != "" && s[0] == ','
  {
    var es := [Entry("status", "200"), Entry("result", result)];
    EntriesLength(es);
    SizeTwo(es);
    "," + Entries(es)
  }

  function InvalidRequestTail(e: ParseError): (s: string)
    ensures |s| <= 600 && s != "" && s[0] == ','
  {
    var error := ObjectText(Complaint("INVALID_REQUEST", ExplainRequest(e)));
    var es := [Entry("status", "400"), Entry("error", error)];
    ComplaintLength("INVALID_REQUEST", ExplainRequest(e));
    EntriesLength(es);
    SizeTwo(es);
    "," + Entries(es)
  }

  const PING_RESULT := "{\"service\":" + ("\"network_service\"" + ("," + ("\"protocolVersion\":" + "1}")))
  const SUBSCRIBED_RESULT := "{\"subscribed\":" + "true}"
  const PING := "network.ping"
  const SNAPSHOT := "network.snapshot"
  const SUBSCRIBE := "network.events.subscribe"

  function Respond(id: nat, tail: string): Reply { EncodeJson(RESPONSE, ResponseText(id, tail)) }

  /** An error frame; `close` also closes the session. */
  function Complain(s: Session, p: Problem, e: ParseError, close: bool): (r: (Session, Handled))
    ensures r.1.reply.Answer? ==> Encodable(r.1.reply.frame)
  {
    (if close then s.(state := Closed) else s, Handled(EncodeJson(ERROR, ErrorText(p, e)), close, NoAction))
  }

  function HandleRequest(s: Session, payload: string): (r: (Session, Handled))
    ensures r.1.reply.Answer? ==> Encodable(r.1.reply.frame)
  {
    var (error, r) := Requests.Parse(payload);
    if error != Fine then
      if r.haveId && error != DuplicateRequestId && error != ParseError.InvalidRequestId
      then (s, Handled(Respond(r.id, InvalidRequestTail(error)), false, NoAction))
      else Complain(s, Problem.InvalidRequestId, error, false)
    else if r.method_ == PING then (s, Handled(Respond(r.id, SuccessTail(PING_RESULT)), false, NoAction))
    else if r.method_ == SNAPSHOT then (s, Handled(Silent, false, SendAuthoritativeSnapshot(r.id)))
    else if r.method_ == SUBSCRIBE then
      (s.(subscribed := true),
       Handled(Respond(r.id, SuccessTail(SUBSCRIBED_RESULT)), false,
               if s.subscribed then NoAction else EmitEventsSubscribed))
    else (s, Handled(Silent, false, DispatchBusinessRequest(r.id, r.method_, r.params)))
  }

  /** The first frame of a session. */
  function HandleHello(s: Session, f: Frame): (r: (Session, Handled))
    ensures r.1.reply.Answer? ==> Encodable(r.1.reply.frame)
  {
    if f.kind != HELLO then Complain(s, SessionNotReady, Fine, true) else
    var h := HelloOf(f.payload);
    if h.NoHello? then Complain(s, InvalidHello, Fine, true)
    else if h.min > PROTOCOL_VERSION || h.max < PROTOCOL_VERSION then Complain(s, Problem.UnsupportedVersion, Fine, true)
    else (s.(state := Ready), Handled(EncodeJson(READY, ReadyText(s.id, s.generation)), false, NoAction))
  }

  function HandleFrame(s: Session, f: Frame): (r: (Session, Handled))
    ensures r.1.reply.Answer? ==> Encodable(r.1.reply.frame)
  {
    if s.state == Closed then (s, Handled(Silent, true, NoAction))
    else if s.state == AwaitHello then HandleHello(s, f)
    else if f.kind == REQUEST then HandleRequest(s, f.payload)
    else Complain(s, ProtocolViolation, Fine, true)
  }

  // ---------------------------------------------------------------- what replies promise

  predicate GoodHelloFrame(f: Frame) {
    f.kind == HELLO && HelloOf(f.payload).Hello?
    && HelloOf(f.payload).min <= PROTOCOL_VERSION <= HelloOf(f.payload).max
  }

  /** The id a request can be answered under: read before any error, and beyond doubt. */
  function KnownId(f: Frame): (id: nat) {
    if f.kind != REQUEST then 0 else
    var (error, r) := Requests.Parse(f.payload);
    if r.haveId && error != DuplicateRequestId && error != ParseError.InvalidRequestId then r.id else 0
  }

  predicate Correlated(f: Frame, reply: Frame) {
    reply.kind == RESPONSE && JsonUint64(reply.payload, KEY_ID).Number?
    && JsonUint64(reply.payload, KEY_ID).value == KnownId(f)
  }

  /** How a reply answers a frame: the first frame of a session is its HELLO, a request
      with a known id is answered under that id, anything else by an error. */
  predicate Answers(first: bool, f: Frame, reply: Frame) {
    if first then (if GoodHelloFrame(f) then reply.kind == READY else reply.kind == ERROR)
    else if KnownId(f) != 0 then Correlated(f, reply)
    else reply.kind == ERROR
  }

  lemma FieldIds(t: string, pos: nat, key: string, r: Request)
    requires pos <= |t| && (r.haveId ==> 1 <= r.id <= UINT64_MAX)
    ensures var f := ReadField(t, pos, key, r);
            if f.BadField? then f.error != Fine else f.request.haveId ==> 1 <= f.request.id <= UINT64_MAX
  {
  }

  lemma {:induction false} MemberIds(t: string, pos: nat, r: Request)
    requires pos <= |t| && (r.haveId ==> 1 <= r.id <= UINT64_MAX)
    ensures ParseMembers(t, pos, r).1.haveId ==> 1 <= ParseMembers(t, pos, r).1.id <= UINT64_MAX
    ensures ParseMembers(t, pos, r).0 == Fine ==> ParseMembers(t, pos, r).1.haveId
    decreases |t| - pos
  {
    hide ReadField;
    var k := SkipKey(t, pos);
    if k.End? {
      var f := ReadField(t, k.pos, StringAt(t, pos).value, r);
      FieldIds(t, k.pos, StringAt(t, pos).value, r);
      if f.GoodField? && AfterElement(t, f.end, '}').More? {
        MemberIds(t, AfterElement(t, f.end, '}').pos, f.request);
      }
    }
  }

  lemma RequestIds(t: string)
    ensures Requests.Parse(t).1.haveId ==> 1 <= Requests.Parse(t).1.id <= UINT64_MAX
    ensures Requests.Parse(t).0 == Fine ==> Requests.Parse(t).1.haveId
  {
    hide ParseMembers;
    var p := SkipWs(t, 0);
    if p < |t| && t[p] == '{' {
      MemberIds(t, SkipWs(t, p + 1), BLANK);
    }
  }

  lemma RespondAnswers(f: Frame, id: nat, tail: string)
    requires f.kind == REQUEST && KnownId(f) == id && 1 <= id <= UINT64_MAX && tail != "" && tail[0] == ','
    ensures Respond(id, tail).Answer? ==> Answers(false, f, Respond(id, tail).frame)
    ensures |tail| <= MAX_PAYLOAD - 40 ==> Respond(id, tail).Answer?
  {
    ResponseReadsBack(id, tail);
    PrintUint64Length(id);
    assert |HEAD| == 13;
    hide JsonUint64, KnownId, Print;
  }

  predicate SmallIdentity(s: Session) { |s.id| <= 64 && s.generation <= UINT64_MAX }

  lemma ComplainAnswers(s: Session, p: Problem, e: ParseError, close: bool)
    ensures Complain(s, p, e, close).1.reply.Answer? && Complain(s, p, e, close).1.reply.frame.kind == ERROR
  {
    hide ErrorText;
  }

  lemma ReadyAnswers(s: Session)
    requires SmallIdentity(s)
    ensures EncodeJson(READY, ReadyText(s.id, s.generation)).Answer?
  {
    PrintUint64Length(s.generation);
    ReadyLength(s.id, s.generation);
    hide ReadyText;
  }

  /** What a request leads to: a reply under its id, or an action that carries its id and
      leaves the session alone. */
  lemma RequestAnswered(s: Session, f: Frame)
    requires f.kind == REQUEST
    ensures var (s', h) := HandleRequest(s, f.payload);
            && s' == s.(subscribed := s'.subscribed) && !h.closeAfterSend
            && (s.subscribed ==> s'.subscribed)
            && (h.action.NoAction? || h.action.EmitEventsSubscribed? ==>
                  h.reply.Answer? && Answers(false, f, h.reply.frame))
            && (h.action.EmitEventsSubscribed? <==> s'.subscribed && !s.subscribed)
            && (h.action.SendAuthoritativeSnapshot? || h.action.DispatchBusinessRequest? ==>
                  h.reply.Silent? && h.action.id == KnownId(f) && 1 <= h.action.id <= UINT64_MAX)
  {
    RequestIds(f.payload);
    hide Requests.Parse, SuccessTail, InvalidRequestTail, Correlated, EncodeJson;
    var (error, r) := Requests.Parse(f.payload);
    if error != Fine {
      if KnownId(f) != 0 {
        RespondAnswers(f, r.id, InvalidRequestTail(error));
      } else {
        ComplainAnswers(s, Problem.InvalidRequestId, error, false);
      }
    } else if r.method_ == PING {
      RespondAnswers(f, r.id, SuccessTail(PING_RESULT));
    } else if r.method_ == SUBSCRIBE {
      RespondAnswers(f, r.id, SuccessTail(SUBSCRIBED_RESULT));
    }
  }

  lemma HelloAnswered(s: Session, f: Frame)
    requires SmallIdentity(s)
    ensures var (s', h) := HandleHello(s, f);
            && s' == s.(state := if GoodHelloFrame(f) then Ready else Closed)
            && h.action.NoAction? && h.closeAfterSend == !GoodHelloFrame(f)
            && h.reply.Answer? && Answers(true, f, h.reply.frame)
  {
    hide EncodeJson, ReadyText, HelloOf, ErrorText;
    ReadyAnswers(s);
    ComplainAnswers(s, SessionNotReady, Fine, true);
    ComplainAnswers(s, InvalidHello, Fine, true);
    ComplainAnswers(s, Problem.UnsupportedVersion, Fine, true);
  }

  /** An open session answers every frame or hands it to the server; only a valid HELLO
      makes it ready, only a ready one acts, and only its first subscription emits. */
  lemma FrameAnswered(s: Session, f: Frame)
    requires s.state != Closed && SmallIdentity(s)
    ensures var (s', h) := HandleFrame(s, f);
            && s' == s.(state := s'.state, subscribed := s'.subscribed)
            && s'.state == (if h.closeAfterSend then Closed else Ready)
            && (h.closeAfterSend ==> h.action.NoAction?)
            && (s.state == AwaitHello ==> (s'.state == Ready <==> GoodHelloFrame(f)) && h.action.NoAction?)
            && (h.action.NoAction? || h.action.EmitEventsSubscribed? ==>
                  h.reply.Answer? && Answers(s.state == AwaitHello, f, h.reply.frame))
            && (s.subscribed ==> s'.subscribed)
            && (h.action.EmitEventsSubscribed? <==> s'.subscribed && !s.subscribed)
            && (h.action.SendAuthoritativeSnapshot? || h.action.DispatchBusinessRequest? ==>
                  h.reply.Silent? && h.action.id == KnownId(f) && 1 <= h.action.id <= UINT64_MAX && s' == s)
  {
    hide HandleHello, HandleRequest, GoodHelloFrame, Correlated;
    if s.state == AwaitHello {
      HelloAnswered(s, f);
      hide Answers;
    } else if f.kind == REQUEST {
      RequestAnswered(s, f);
      hide Answers, KnownId;
    } else {
      ComplainAnswers(s, ProtocolViolation, Fine, true);
    }
  }

  // ---------------------------------------------------------------- the object

  class SessionEndpoint {
    const generation: nat
    const id: string
    var state: State
    var subscribed: bool

    function View(): Session
      reads this
    {
      Session(state, subscribed, generation, id)
    }

    constructor (g: nat, name: string)
      ensures View() == Session(AwaitHello, false, if g == 0 then 1 else g, name)
    {
      generation, id, state, subscribed := if g == 0 then 1 else g, name, AwaitHello, false;
    }

    method Fail(p: Problem, e: ParseError, close: bool) returns (h: Handled)
      modifies this
      ensures (View(), h) == Complain(old(View()), p, e, close)
    {
      hide EncodeJson, ErrorText;
      if close { state := Closed; }
      h := Handled(EncodeJson(ERROR, ErrorText(p, e)), close, NoAction);
    }

    method OnRequest(payload: string) returns (h: Handled)
      modifies this
      ensures (View(), h) == HandleRequest(old(View()), payload)
    {
      var error, r := ParseRequest(payload);
      if error != Fine {
        if r.haveId && error != DuplicateRequestId && error != ParseError.InvalidRequestId {
          return Handled(Respond(r.id, InvalidRequestTail(error)), false, NoAction);
        }
        h := Fail(Problem.InvalidRequestId, error, false);
        return;
      }
      if r.method_ == PING { return Handled(Respond(r.id, SuccessTail(PING_RESULT)), false, NoAction); }
      if r.method_ == SNAPSHOT { return Handled(Silent, false, SendAuthoritativeSnapshot(r.id)); }
      if r.method_ == SUBSCRIBE {
        var first := !subscribed;
        subscribed := true;
        return Handled(Respond(r.id, SuccessTail(SUBSCRIBED_RESULT)), false,
                       if first then EmitEventsSubscribed else NoAction);
      }
      return Handled(Silent, false, DispatchBusinessRequest(r.id, r.method_, r.params));
    }

    method OnHello(f: Frame) returns (h: Handled)
      modifies this
      ensures (View(), h) == HandleHello(old(View()), f)
    {
      hide EncodeJson, ReadyText, ErrorText, HelloOf;
      if f.kind != HELLO { h := Fail(SessionNotReady, Fine, true); return; }
      var hello := ParseHelloVersions(f.payload);
      if hello.NoHello? { h := Fail(InvalidHello, Fine, true); return; }
      if hello.min > PROTOCOL_VERSION || hello.max < PROTOCOL_VERSION {
        h := Fail(Problem.UnsupportedVersion, Fine, true);
        return;
      }
      state := Ready;
      return Handled(EncodeJson(READY, ReadyText(id, generation)), false, NoAction);
    }

    method OnFrame(f: Frame) returns (h: Handled)
      modifies this
      ensures (View(), h) == HandleFrame(old(View()), f)
    {
      hide HandleHello, HandleRequest, ErrorText, EncodeJson;
      if state == Closed { return Handled(Silent, true, NoAction); }
      if state == AwaitHello { h := OnHello(f); return; }
      if f.kind == REQUEST { h := OnRequest(f.payload); return; }
      h := Fail(ProtocolViolation, Fine, true);
    }
  }
}
