/** What a client gets to read: the members of every reply a session prints, and what each
    request of a ready session leads to. */
module ReplyTexts {
  import opened Codec
  import opened Decimal
  import opened JsonText
  import opened JsonStrings
  import opened JsonValues
  import opened Embedding
  import opened JsonObjects
  import opened Requests
  import opened RequestRoundTrip
  import opened Sessions

  // ---------------------------------------------------------------- responses

  /** A response is an object: the request's id and further members. */
  lemma ResponseIsObject(id: nat, rest: seq<Entry>)
    requires rest != []
    ensures ResponseText(id, "," + Entries(rest)) == ObjectText([Entry("requestId", Print(id))] + rest)
  {
    hide Print;
    var es := [Entry("requestId", Print(id))] + rest;
    assert es[1..] == rest;
    assert HEAD == "{" + Label("requestId");
    EntriesStart(es);
    hide Entries, Label;
    Associate(HEAD, Print(id), "," + Entries(rest), "{", Label("requestId"));
  }

  lemma Associate(h: string, d: string, t: string, b: string, l: string)
    requires h == b + l
    ensures h + d + t == b + (l + (d + t))
  {
  }

  lemma Associate2(a: string, b: string, c: string)
    ensures a + (b + c) == (a + b) + c
  {
  }

  lemma KeysPlain()
    ensures PlainText("requestId") && PlainText("status") && PlainText("result") && PlainText("error")
    ensures PlainText("code") && PlainText("message")
  {
  }

  function ResponseEntries(id: nat, status: string, key: string, text: string): seq<Entry> {
    [Entry("requestId", Print(id)), Entry("status", status), Entry(key, text)]
  }

  lemma ThreeGood(es: seq<Entry>)
    requires |es| == 3 && GoodEntry(es[0], 0) && GoodEntry(es[1], 0) && GoodEntry(es[2], 0)
    requires es[0].key != es[1].key && es[0].key != es[2].key && es[1].key != es[2].key
    ensures GoodEntries(es, 0) && Distinct(es)
  {
    hide GoodEntry;
  }

  /** The three members of a response read back as they were given. */
  lemma ResponseReads(id: nat, status: nat, key: string, text: string)
    requires (key == "result" || key == "error") && Whole(text, 0)
    ensures var t := ResponseText(id, "," + Entries([Entry("status", Print(status)), Entry(key, text)]));
            && MemberText(t, "requestId") == Found(Print(id)) && MemberText(t, "status") == Found(Print(status))
            && MemberText(t, key) == Found(text)
  {
    hide Print, Entries, Whole, MemberText, ObjectText, PlainText;
    var es := ResponseEntries(id, Print(status), key, text);
    KeysPlain();
    NumberWhole(id, 0);
    NumberWhole(status, 0);
    assert |"requestId"| == 9 && |"status"| == 6 && |"result"| == 6 && |"error"| == 5 && "status"[0] != "result"[0];
    ThreeGood(es);
    assert [Entry("requestId", Print(id))] + [Entry("status", Print(status)), Entry(key, text)] == es;
    ResponseIsObject(id, [Entry("status", Print(status)), Entry(key, text)]);
    EntryFound(es, 0);
    EntryFound(es, 1);
    EntryFound(es, 2);
  }

  lemma PrintHundreds()
    ensures Print(200) == "200" && Print(400) == "400" && Print(1) == "1"
  {
    assert Print(2) == "2" && Print(20) == Print(2) + "0" && Print(200) == Print(20) + "0";
    assert Print(4) == "4" && Print(40) == Print(4) + "0" && Print(400) == Print(40) + "0";
  }

  lemma SuccessReads(id: nat, result: string)
    requires Whole(result, 0)
    ensures var t := ResponseText(id, SuccessTail(result));
            && MemberText(t, "requestId") == Found(Print(id)) && MemberText(t, "status") == Found("200")
            && MemberText(t, "result") == Found(result)
  {
    hide Print, Entries, Whole, MemberText, ResponseText;
    PrintHundreds();
    ResponseReads(id, 200, "result", result);
  }

  // ---------------------------------------------------------------- complaints

  lemma TwoGood(es: seq<Entry>, depth: nat)
    requires |es| == 2 && GoodEntry(es[0], depth) && GoodEntry(es[1], depth) && es[0].key != es[1].key
    ensures GoodEntries(es, depth) && Distinct(es)
  {
    hide GoodEntry;
  }

  /** A complaint is a whole object from which code and message read back. */
  lemma ComplaintReads(code: string, message: string, depth: nat)
    requires depth <= 15
    ensures var t := ObjectText(Complaint(code, message));
            && Whole(t, depth)
            && ReadString(t, "code").Text? && ReadString(t, "code").value == code
            && ReadString(t, "message").Text? && ReadString(t, "message").value == message
  {
    hide Quoted, Whole, ObjectText, ReadString, PlainText;
    var es := Complaint(code, message);
    KeysPlain();
    QuotedWhole(code, depth + 1);
    QuotedWhole(message, depth + 1);
    QuotedWhole(code, 0);
    QuotedWhole(message, 0);
    assert |"code"| != |"message"|;
    TwoGood(es, depth + 1);
    TwoGood(es, 0);
    ObjectWhole(es, depth);
    StringFound(es, 0, code);
    StringFound(es, 1, message);
  }

  /** A request that does not parse but has a known id is refused with status 400. */
  lemma InvalidReads(id: nat, e: ParseError)
    ensures var t := ResponseText(id, InvalidRequestTail(e));
            && MemberText(t, "requestId") == Found(Print(id)) && MemberText(t, "status") == Found("400")
            && MemberText(t, "error").Found?
            && ReadString(MemberText(t, "error").text, "code").Text?
            && ReadString(MemberText(t, "error").text, "code").value == "INVALID_REQUEST"
            && ReadString(MemberText(t, "error").text, "message").Text?
            && ReadString(MemberText(t, "error").text, "message").value == ExplainRequest(e)
  {
    hide Print, Entries, Whole, MemberText, ReadString, ResponseText, ObjectText, ExplainRequest, Complaint;
    PrintHundreds();
    ComplaintReads("INVALID_REQUEST", ExplainRequest(e), 0);
    ResponseReads(id, 400, "error", ObjectText(Complaint("INVALID_REQUEST", ExplainRequest(e))));
  }

  /** An error frame whose code reads as this. */
  ghost predicate Complains(r: Reply, code: string) {
    r.Answer? && r.frame.kind == ERROR && ReadString(r.frame.payload, "code").Text?
    && ReadString(r.frame.payload, "code").value == code
  }

  lemma ComplainReads(s: Session, p: Problem, e: ParseError, close: bool)
    ensures Complains(Complain(s, p, e, close).1.reply, Code(p))
  {
    ComplaintReads(Code(p), Explain(p, e), 0);
    ComplainAnswers(s, p, e, close);
    hide Complaint, Code, Explain, ReadString, ObjectText;
  }

  // ---------------------------------------------------------------- requests

  /** A response frame whose members read as id, status 200 and this result. */
  ghost predicate Responds(r: Reply, id: nat, result: string) {
    && r.Answer? && r.frame.kind == RESPONSE && MemberText(r.frame.payload, "requestId") == Found(Print(id))
    && MemberText(r.frame.payload, "status") == Found("200") && MemberText(r.frame.payload, "result") == Found(result)
  }

  lemma PingKeys()
    ensures PlainText("service") && PlainText("protocolVersion") && |"service"| != |"protocolVersion"|
  {
  }

  lemma PlainQuotes(s: string)
    requires PlainText(s)
    ensures InQuotes(s) == Quoted(s)
  {
    PlainEscape(s);
  }

  lemma ServicePlain()
    ensures PlainText("network_service")
  {
  }

  lemma PingWhole()
    ensures Whole(PING_RESULT, 0) && |PING_RESULT| <= 100
  {
    hide Whole, Quoted, ObjectText, Print, InQuotes, PlainText;
    var es := [Entry("service", InQuotes("network_service")), Entry("protocolVersion", "1")];
    PingText(es);
    PingKeys();
    ServicePlain();
    PlainQuotes("network_service");
    QuotedWhole("network_service", 1);
    PrintHundreds();
    NumberWhole(1, 1);
    TwoGood(es, 1);
    ObjectWhole(es, 0);
  }

  lemma PingText(es: seq<Entry>)
    requires es == [Entry("service", InQuotes("network_service")), Entry("protocolVersion", "1")]
    ensures PING_RESULT == ObjectText(es) && |PING_RESULT| <= 100
  {
    hide Entries;
    EntriesStart(es);
    EntriesStart(es[1..]);
    var q, b := InQuotes("network_service"), Label("protocolVersion");
    assert "{" + Label("service") == "{\"service\":";
    assert b == "\"protocolVersion\":";
    assert q == "\"network_service\"";
    assert "1" + "}" == "1}";
    var rest := "," + (b + "1}");
    Associate2("{", Label("service"), q + rest);
  }

  lemma SubscribedWhole()
    ensures Whole(SUBSCRIBED_RESULT, 0) && |SUBSCRIBED_RESULT| <= 100
  {
    var es := [Entry("subscribed", "true")];
    EntriesStart(es);
    assert "{" + Label("subscribed") == "{\"subscribed\":" && "true" + "}" == "true}";
    assert SUBSCRIBED_RESULT == ObjectText(es);
    PrintedScans(Bool(true), "", 1);
    assert PlainText("subscribed");
    hide ObjectText;
    ObjectWhole(es, 0);
  }

  lemma RespondReads(id: nat, result: string)
    requires Whole(result, 0) && |result| <= 100 && 1 <= id <= UINT64_MAX
    ensures Responds(Respond(id, SuccessTail(result)), id, result)
  {
    hide Whole, MemberText, Print, ResponseText, SuccessTail;
    SuccessReads(id, result);
    RespondFits(id, SuccessTail(result));
  }

  lemma RespondFits(id: nat, tail: string)
    requires id <= UINT64_MAX && |tail| <= 1000
    ensures Respond(id, tail) == Answer(Frame(RESPONSE, ResponseText(id, tail)))
  {
    PrintUint64Length(id);
    assert |HEAD| == 13;
    hide Print;
  }

  /** A request that parses is handled by its method alone. */
  lemma ParsedIs(s: Session, payload: string, r: Request)
    requires s.state == Ready && Requests.Parse(payload) == (Fine, r)
    ensures HandleFrame(s, Frame(REQUEST, payload)) ==
            if r.method_ == PING then (s, Handled(Respond(r.id, SuccessTail(PING_RESULT)), false, NoAction))
            else if r.method_ == SNAPSHOT then (s, Handled(Silent, false, SendAuthoritativeSnapshot(r.id)))
            else if r.method_ == SUBSCRIBE then
              (s.(subscribed := true),
               Handled(Respond(r.id, SuccessTail(SUBSCRIBED_RESULT)), false,
                       if s.subscribed then NoAction else EmitEventsSubscribed))
            else (s, Handled(Silent, false, DispatchBusinessRequest(r.id, r.method_, r.params)))
  {
    hide Requests.Parse, Respond, SuccessTail, Complain;
  }

  lemma MethodNames()
    ensures PING == "network.ping" && SNAPSHOT == "network.snapshot" && SUBSCRIBE == "network.events.subscribe"
    ensures |PING| == 12 && |SNAPSHOT| == 16 && |SUBSCRIBE| == 24
  {
  }

  /** The texts of the two results that a session prints itself. */
  function PingResult(): string { "{\"service\":" + ("\"network_service\"" + ("," + ("\"protocolVersion\":" + "1}"))) }
  function SubscribedResult(): string { "{\"subscribed\":" + "true}" }

  /** What a ready session does with a well-formed request, by its method: a ping is
      answered, a snapshot is left to the server, a subscription is recorded, answered and
      announced the first time, and anything else is dispatched with its parameters. */
  lemma RequestMeans(s: Session, id: nat, m: string, p: string)
    requires s.state == Ready && 1 <= id <= UINT64_MAX && m != "" && PlainText(m) && ParamsText(p)
    ensures var (s', h) := HandleFrame(s, Frame(REQUEST, RequestText(id, m, p)));
            && !h.closeAfterSend
            && (m == "network.ping" ==> s' == s && h.action == NoAction && Responds(h.reply, id, PingResult()))
            && (m == "network.snapshot" ==> s' == s && h.reply.Silent? && h.action == SendAuthoritativeSnapshot(id))
            && (m == "network.events.subscribe" ==>
                  && s' == s.(subscribed := true) && Responds(h.reply, id, SubscribedResult())
                  && h.action == (if s.subscribed then NoAction else EmitEventsSubscribed))
            && (m != "network.ping" && m != "network.snapshot" && m != "network.events.subscribe" ==>
                  s' == s && h.reply.Silent? && h.action == DispatchBusinessRequest(id, m, p))
  {
    hide Requests.Parse, RequestText, PlainText, ParamsText, Responds, Respond, SuccessTail, HandleFrame, Whole;
    ParseInvertsPrint(id, m, p);
    ParsedIs(s, RequestText(id, m, p), Request(id, m, p, true, true, true));
    MethodNames();
    PingWhole();
    SubscribedWhole();
    RespondReads(id, PING_RESULT);
    RespondReads(id, SUBSCRIBED_RESULT);
  }

  /** A request that does not parse leaves the session as it is: refused under its id with
      status 400 where the id is known, by an error frame otherwise. */
  lemma BadRequestMeans(s: Session, payload: string)
    requires s.state == Ready && Requests.Parse(payload).0 != Fine
    ensures var f := Frame(REQUEST, payload);
            var (s', h) := HandleFrame(s, f);
            && s' == s && h.action == NoAction && !h.closeAfterSend
            && (KnownId(f) == 0 ==> Complains(h.reply, "INVALID_REQUEST_ID"))
            && (KnownId(f) != 0 ==>
                  && h.reply.Answer? && h.reply.frame.kind == RESPONSE
                  && MemberText(h.reply.frame.payload, "requestId") == Found(Print(KnownId(f)))
                  && MemberText(h.reply.frame.payload, "status") == Found("400"))
  {
    hide Requests.Parse, Complains, MemberText, Respond, InvalidRequestTail, Print, Complain;
    var (error, r) := Requests.Parse(payload);
    RequestIds(payload);
    if KnownId(Frame(REQUEST, payload)) == 0 {
      ComplainReads(s, Problem.InvalidRequestId, error, false);
      ComplainKeeps(s, Problem.InvalidRequestId, error);
    } else {
      InvalidReads(r.id, error);
      RespondFits(r.id, InvalidRequestTail(error));
    }
  }

  lemma ComplainKeeps(s: Session, p: Problem, e: ParseError)
    ensures Complain(s, p, e, false).0 == s && Complain(s, p, e, false).1.action == NoAction
    ensures !Complain(s, p, e, false).1.closeAfterSend
  {
    hide ErrorText;
  }

  // ---------------------------------------------------------------- the handshake

  /** What else a session is told: nothing before HELLO, only a readable HELLO, only a
      range with the one version, and after it only requests. */
  lemma RefusalMeans(s: Session, f: Frame)
    ensures var (s', h) := HandleFrame(s, f);
            && (s.state == AwaitHello && f.kind != HELLO ==> s'.state == Closed && Complains(h.reply, "SESSION_NOT_READY"))
            && (s.state == AwaitHello && f.kind == HELLO && HelloOf(f.payload).NoHello? ==>
                  s'.state == Closed && Complains(h.reply, "INVALID_HELLO"))
            && (s.state == AwaitHello && f.kind == HELLO && HelloOf(f.payload).Hello? &&
                !(HelloOf(f.payload).min <= 1 <= HelloOf(f.payload).max) ==>
                  s'.state == Closed && Complains(h.reply, "UNSUPPORTED_VERSION"))
            && (s.state == Ready && f.kind != REQUEST ==> s'.state == Closed && Complains(h.reply, "PROTOCOL_VIOLATION"))
            && (s.state == Closed ==> s' == s && h.reply == Silent && h.action == NoAction && h.closeAfterSend)
  {
    hide HandleRequest, HelloOf, Complains, ErrorText, EncodeJson, ReadyText;
    ComplainReads(s, SessionNotReady, Fine, true);
    ComplainReads(s, InvalidHello, Fine, true);
    ComplainReads(s, Problem.UnsupportedVersion, Fine, true);
    ComplainReads(s, ProtocolViolation, Fine, true);
  }

  lemma ReadyKeys()
    ensures PlainText("version") && PlainText("service") && PlainText("sessionId") && PlainText("generation")
    ensures PlainText("capabilities")
    ensures |"version"| == 7 && |"service"| == 7 && |"sessionId"| == 9 && |"generation"| == 10 && |"capabilities"| == 12
    ensures "version"[0] != "service"[0]
  {
  }

  lemma CapabilitiesWhole()
    ensures Whole(Render(CAPABILITIES, ""), 0)
  {
    PrintedScans(CAPABILITIES, "", 0);
    hide Render;
    var v := CAPABILITIES;
    assert HeightFrom(v, 4) == 0 && HeightFrom(v, 3) == 0 && HeightFrom(v, 2) == 0 && HeightFrom(v, 1) == 0;
    assert HeightFrom(v, 0) == 0;
  }

  lemma FiveGood(es: seq<Entry>)
    requires |es| == 5 && GoodEntry(es[0], 0) && GoodEntry(es[1], 0) && GoodEntry(es[2], 0) && GoodEntry(es[3], 0)
    requires GoodEntry(es[4], 0) && es[0].key != es[1].key && |es[0].key| == 7 && |es[1].key| == 7
    requires |es[2].key| == 9 && |es[3].key| == 10 && |es[4].key| == 12
    ensures GoodEntries(es, 0) && Distinct(es)
  {
    hide GoodEntry;
  }

  /** What READY says: version, service, the session's name, the server's generation and
      what the protocol can do. */
  lemma ReadyReads(id: string, generation: nat)
    requires PlainText(id)
    ensures var t := ReadyText(id, generation);
            && MemberText(t, "version") == Found("1") && MemberText(t, "generation") == Found(Print(generation))
            && ReadString(t, "sessionId").Text? && ReadString(t, "sessionId").value == id
            && ReadString(t, "service").Text? && ReadString(t, "service").value == "network_service"
            && MemberText(t, "capabilities") ==
               Found(Render(Arr([Str("request-response"), Str("events"), Str("snapshot-rebase"), Str("network-control")]), ""))
  {
    hide Print, Render, Whole, PlainText, MemberText, ReadString, ObjectText, InQuotes, Quoted;
    var es := ReadyEntries(id, generation);
    ReadyKeys();
    ServicePlain();
    PlainQuotes("network_service");
    QuotedWhole("network_service", 0);
    PlainQuotes(id);
    QuotedWhole(id, 0);
    PrintHundreds();
    NumberWhole(1, 0);
    NumberWhole(generation, 0);
    CapabilitiesWhole();
    FiveGood(es);
    EntryFound(es, 0);
    EntryFound(es, 3);
    EntryFound(es, 4);
    StringFound(es, 1, "network_service");
    StringFound(es, 2, id);
  }

  /** A good HELLO is answered by READY with the session's own name and generation. */
  lemma HelloMeans(s: Session, f: Frame)
    requires s.state == AwaitHello && GoodHelloFrame(f) && SmallIdentity(s) && PlainText(s.id)
    ensures var (s', h) := HandleFrame(s, f);
            && s' == s.(state := Ready) && h.action == NoAction && !h.closeAfterSend
            && h.reply.Answer? && h.reply.frame.kind == READY
            && MemberText(h.reply.frame.payload, "version") == Found("1")
            && MemberText(h.reply.frame.payload, "generation") == Found(Print(s.generation))
            && ReadString(h.reply.frame.payload, "sessionId").Text?
            && ReadString(h.reply.frame.payload, "sessionId").value == s.id
  {
    hide ReadyText, HelloOf, MemberText, ReadString, Print, PlainText, HandleRequest, Complain;
    ReadyAnswers(s);
    ReadyReads(s.id, s.generation);
  }
}
