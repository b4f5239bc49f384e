/** What holds in every reachable state of the reactor: each connection's frames tell
    one gap-free story, every served frame has exactly one reply, and nothing happens
    before a valid HELLO. */
module ReactorSafety {
  import opened Codec
  import opened Decimal
  import opened Requests
  import opened Sessions
  import opened Events
  import opened Embedding
  import opened JsonObjects
  import opened DaemonTexts
  import opened Reactor
  import FD = FrameDecoding
  import OB = Outbound
  import W = Wire

  // ---------------------------------------------------------------- stories

  function Frames(msgs: seq<Msg>): (fs: seq<Frame>)
    ensures |fs| == |msgs| && forall k :: 0 <= k < |msgs| ==> fs[k] == msgs[k].frame
  {
    seq(|msgs|, k requires 0 <= k < |msgs| => msgs[k].frame)
  }

  function Init(msgs: seq<Msg>): seq<Msg>
    requires msgs != []
  {
    msgs[..|msgs| - 1]
  }

  function Last(msgs: seq<Msg>): Msg
    requires msgs != []
  {
    msgs[|msgs| - 1]
  }

  /** The sequence of the latest event, 0 when there is none. */
  function LastEvent(msgs: seq<Msg>): nat {
    if msgs == [] then 0 else if Last(msgs).EventMsg? then Last(msgs).sequence else LastEvent(Init(msgs))
  }

  /** Events follow each other without a gap, and a snapshot that was sent to a
      subscribed session stands exactly behind the latest event. */
  ghost predicate Ordered(msgs: seq<Msg>) {
    msgs != [] ==>
      && Ordered(Init(msgs))
      && var m, before := Last(msgs), LastEvent(Init(msgs));
         match m
         case ReplyMsg(_) => true
         case SnapshotMsg(_, w, _, _, subscribed) => if subscribed then before != 0 && w == before else before == 0
         case EventMsg(_, n, _) => n != 0 && (before == 0 || n == before + 1)
  }

  function EventFrame(generation: nat, n: nat, body: Body): Frame {
    Frame(EVENT, EventText(NameOf(body.kind), generation, n, body.payload))
  }

  /** A response that reads as this watermark, and as this snapshot if that is JSON. */
  predicate SnapshotFrame(f: Frame, generation: nat, watermark: nat, text: string) {
    && f.kind == RESPONSE && (Whole(text, 1) ==> SnapshotText(f.payload) == Found(text))
    && JsonUint64(f.payload, GENERATION_FIELD).Number? && JsonUint64(f.payload, GENERATION_FIELD).value == generation
    && JsonUint64(f.payload, WATERMARK_FIELD).Number? && JsonUint64(f.payload, WATERMARK_FIELD).value == watermark
  }

  /** A message says what the server's log says. */
  ghost predicate Honest(m: Msg, generation: nat, log: seq<Body>) {
    match m
    case ReplyMsg(_) => true
    case SnapshotMsg(f, w, covered, text, _) =>
      w <= |log| && covered == log[..w] && SnapshotFrame(f, generation, w, text)
    case EventMsg(f, n, body) =>
      1 <= n <= |log| && body == log[n - 1] && f == EventFrame(generation, n, body) && Whole(body.payload, 0)
  }

  ghost predicate AllHonest(msgs: seq<Msg>, generation: nat, log: seq<Body>) {
    forall m :: m in msgs ==> Honest(m, generation, log)
  }

  ghost predicate LinkOk(c: Client) {
    && W.Sane(c.link) && c.link.accepted == Frames(c.msgs)
    && c.link.q.maxFrames == OB.DEFAULT_MAX_FRAMES && c.link.q.maxBytes == OB.DEFAULT_MAX_BYTES
  }

  ghost predicate StoryOk(c: Client, generation: nat, log: seq<Body>) {
    && Ordered(c.msgs) && AllHonest(c.msgs, generation, log)
    && (!c.session.subscribed ==> LastEvent(c.msgs) == 0)
  }

  /** A listener has heard everything up to the end of the log. */
  ghost predicate UpToDate(c: Client, log: seq<Body>) { Hears(c) ==> LastEvent(c.msgs) == |log| && log != [] }

  // ---------------------------------------------------------------- conversations

  function Replies(msgs: seq<Msg>): seq<Frame> {
    if msgs == [] then []
    else Replies(Init(msgs)) + if Last(msgs).EventMsg? then [] else [Last(msgs).frame]
  }

  /** One reply per frame, each answering its own. */
  ghost predicate Paired(frames: seq<Frame>, replies: seq<Frame>) {
    |frames| == |replies| && forall k :: 0 <= k < |frames| ==> Answers(k == 0, frames[k], replies[k])
  }

  predicate Greeted(c: Client) { c.inbox.taken != [] && GoodHelloFrame(c.inbox.taken[0]) }

  ghost predicate TalkOk(c: Client) {
    && SmallIdentity(c.session)
    && c.emitted <= (if c.session.subscribed then 1 else 0)
    && (c.dispatched != [] || c.session.subscribed ==> Greeted(c))
    && (!c.closed ==>
          && c.emitted == (if c.session.subscribed then 1 else 0)
          && Paired(c.inbox.taken, Replies(c.msgs))
          && (c.inbox.taken == [] ==> c.session.state == AwaitHello && !c.closing)
          && (c.inbox.taken != [] ==> c.session.state == (if c.closing then Closed else Ready))
          && (c.session.state == Ready ==> Greeted(c)))
  }

  /** The decoder has read exactly what the peer sent. */
  ghost predicate InboxOk(c: Client) {
    && (c.protocol != V1 ==> c.received == "" && c.inbox == FD.History(FD.EMPTY, []))
    && (!c.closed ==>
          && c.inbox.d.error == NoError && Codec.Parse(c.received).error == NoError
          && FD.Emitted(c.inbox) == Codec.Parse(c.received).frames
          && c.inbox.d.buffer == Codec.Parse(c.received).rest)
  }

  ghost predicate ClientOk(c: Client, generation: nat, log: seq<Body>) {
    LinkOk(c) && StoryOk(c, generation, log) && TalkOk(c) && InboxOk(c)
  }

  ghost predicate AllOk(clients: seq<Client>, generation: nat, log: seq<Body>) {
    forall c :: c in clients ==> ClientOk(c, generation, log)
  }

  ghost predicate SequencerOk(sv: Server) {
    && 1 <= sv.sequencer.generation <= UINT64_MAX && sv.sequencer.next <= UINT64_MAX
    && |sv.log| == LastSequence(sv.sequencer) && sv.sessions <= UINT64_MAX
  }

  ghost predicate Inv(sv: Server) {
    && SequencerOk(sv) && AllOk(sv.clients, sv.sequencer.generation, sv.log)
    && (forall c :: c in sv.clients ==> UpToDate(c, sv.log))
    && |sv.clients| <= MAX_CLIENTS
  }

  // ---------------------------------------------------------------- sending

  lemma AppendMsg(msgs: seq<Msg>, m: Msg)
    ensures Init(msgs + [m]) == msgs && Last(msgs + [m]) == m
    ensures LastEvent(msgs + [m]) == if m.EventMsg? then m.sequence else LastEvent(msgs)
    ensures Replies(msgs + [m]) == Replies(msgs) + if m.EventMsg? then [] else [m.frame]
    ensures Frames(msgs + [m]) == Frames(msgs) + [m.frame]
  {
    assert Init(msgs + [m]) == msgs;
  }

  lemma SendLink(c: Client, m: Msg)
    requires LinkOk(c) && Encodable(m.frame)
    ensures LinkOk(Send(c, m))
  {
    W.OfferSane(c.link, m.frame);
    AppendMsg(c.msgs, m);
  }

  /** With room for it, a frame is accepted. */
  lemma SendAccepts(c: Client, m: Msg)
    requires LinkOk(c) && Encodable(m.frame) && !c.closed
    requires |c.link.q.frames| < OB.DEFAULT_MAX_FRAMES
    requires c.link.q.queued + HEADER_SIZE + |m.frame.payload| <= OB.DEFAULT_MAX_BYTES
    ensures !Send(c, m).closed && Send(c, m).msgs == c.msgs + [m]
    ensures Send(c, m).link.q.queued == c.link.q.queued + HEADER_SIZE + |m.frame.payload|
    ensures |Send(c, m).link.q.frames| == |c.link.q.frames| + 1
  {
    hide W.Sane;
  }

  lemma SendIs(c: Client, m: Msg)
    requires Encodable(m.frame)
    ensures Send(c, m) == c.(closed := true) ||
            Send(c, m) == c.(link := Send(c, m).link, msgs := c.msgs + [m])
  {
  }

  lemma HonestLater(msgs: seq<Msg>, generation: nat, log: seq<Body>, body: Body)
    requires AllHonest(msgs, generation, log)
    ensures AllHonest(msgs, generation, log + [body])
  {
    hide SnapshotFrame;
    forall m | m in msgs ensures Honest(m, generation, log + [body]) {
      if m.SnapshotMsg? {
        assert (log + [body])[..m.watermark] == log[..m.watermark];
      }
    }
  }

  /** The event after the latest one continues a story. */
  lemma EventContinues(msgs: seq<Msg>, m: Msg, generation: nat, log: seq<Body>, body: Body)
    requires m == EventMsg(EventFrame(generation, |log| + 1, body), |log| + 1, body)
    requires Ordered(msgs) && AllHonest(msgs, generation, log)
    requires LastEvent(msgs) == 0 || LastEvent(msgs) == |log|
    requires Whole(body.payload, 0)
    ensures Ordered(msgs + [m]) && AllHonest(msgs + [m], generation, log + [body])
    ensures LastEvent(msgs + [m]) == |log| + 1 && Replies(msgs + [m]) == Replies(msgs)
  {
    hide EventFrame;
    AppendMsg(msgs, m);
    HonestLater(msgs, generation, log, body);
    assert (log + [body])[|log|] == body;
  }

  /** Sending or closing leaves the conversation and the inbox alone. */
  lemma OthersStay(c: Client, d: Client)
    requires TalkOk(c) && InboxOk(c)
    requires d == c.(link := d.link, msgs := d.msgs, closed := d.closed)
    requires !d.closed ==> !c.closed && Replies(d.msgs) == Replies(c.msgs)
    ensures TalkOk(d) && InboxOk(d)
  {
    hide Answers, GoodHelloFrame, Codec.Parse, FD.Emitted, Replies, Paired;
  }

  lemma HeardOk(c: Client, m: Msg, generation: nat, log: seq<Body>, body: Body)
    requires m == EventMsg(EventFrame(generation, |log| + 1, body), |log| + 1, body) && Encodable(m.frame)
    requires ClientOk(c, generation, log) && Hears(c) && (LastEvent(c.msgs) == 0 || LastEvent(c.msgs) == |log|)
    requires Whole(body.payload, 0)
    ensures ClientOk(Send(c, m), generation, log + [body]) && UpToDate(Send(c, m), log + [body])
  {
    hide LinkOk, Send, Ordered, AllHonest, LastEvent, Replies, TalkOk, InboxOk, EventFrame;
    SendLink(c, m);
    SendIs(c, m);
    HonestLater(c.msgs, generation, log, body);
    EventContinues(c.msgs, m, generation, log, body);
    OthersStay(c, Send(c, m));
  }

  lemma DeliverOk(c: Client, m: Msg, generation: nat, log: seq<Body>, body: Body)
    requires m == EventMsg(EventFrame(generation, |log| + 1, body), |log| + 1, body) && Encodable(m.frame)
    requires ClientOk(c, generation, log) && (Hears(c) ==> LastEvent(c.msgs) == 0 || LastEvent(c.msgs) == |log|)
    requires Whole(body.payload, 0)
    ensures ClientOk(Deliver(c, m), generation, log + [body]) && UpToDate(Deliver(c, m), log + [body])
  {
    hide LinkOk, Send, Ordered, AllHonest, LastEvent, TalkOk, InboxOk, EventFrame;
    if Hears(c) {
      HeardOk(c, m, generation, log, body);
    } else {
      HonestLater(c.msgs, generation, log, body);
    }
  }

  lemma EventEncodes(s: Sequencer, body: Body)
    requires 1 <= s.generation <= UINT64_MAX && s.next <= UINT64_MAX
    ensures var (r, s') := EncodeEvent(s, NameOf(body.kind), body.payload);
            if r.Silent? then s' == s
            else && s.next != 0 && r.frame == EventFrame(s.generation, s.next, body) && Encodable(r.frame)
                 && s'.generation == s.generation && s'.next <= UINT64_MAX && LastSequence(s') == LastSequence(s) + 1
    ensures EncodeEvent(s, NameOf(body.kind), body.payload).0.Silent? <==>
            body.payload == "" || s.next == 0 || |EventFrame(s.generation, s.next, body).payload| > MAX_PAYLOAD
  {
    hide EventText;
  }

  /** After a broadcast every listener has heard it, whoever else overflowed; refused,
      it changes nothing. A new subscriber may join with it. */
  lemma BroadcastOk(sv: Server, body: Body)
    requires SequencerOk(sv) && AllOk(sv.clients, sv.sequencer.generation, sv.log) && Whole(body.payload, 0)
    requires forall c :: c in sv.clients && Hears(c) ==> LastEvent(c.msgs) == 0 || LastEvent(c.msgs) == |sv.log|
    ensures var (ok, r) := Broadcast(sv, body);
            && SequencerOk(r) && AllOk(r.clients, r.sequencer.generation, r.log)
            && r.sequencer.generation == sv.sequencer.generation && |r.clients| == |sv.clients|
            && (ok ==> forall c :: c in r.clients ==> UpToDate(c, r.log))
            && (!ok ==> r == sv)
  {
    hide EncodeEvent, ClientOk, EventFrame, Deliver, Hears, UpToDate, NameOf, LastEvent;
    EventEncodes(sv.sequencer, body);
    var (e, next) := EncodeEvent(sv.sequencer, NameOf(body.kind), body.payload);
    if e.Answer? {
      AllDelivered(sv, EventMsg(e.frame, sv.sequencer.next, body), body);
    }
  }

  lemma AllDelivered(sv: Server, m: Msg, body: Body)
    requires AllOk(sv.clients, sv.sequencer.generation, sv.log)
    requires m == EventMsg(EventFrame(sv.sequencer.generation, |sv.log| + 1, body), |sv.log| + 1, body)
    requires Encodable(m.frame) && Whole(body.payload, 0)
    requires forall c :: c in sv.clients && Hears(c) ==> LastEvent(c.msgs) == 0 || LastEvent(c.msgs) == |sv.log|
    ensures var r := DeliverAll(sv.clients, m);
            AllOk(r, sv.sequencer.generation, sv.log + [body]) && forall c :: c in r ==> UpToDate(c, sv.log + [body])
  {
    hide ClientOk, EventFrame, Deliver, Hears, UpToDate, LastEvent;
    var r := DeliverAll(sv.clients, m);
    forall c | c in r ensures ClientOk(c, sv.sequencer.generation, sv.log + [body]) && UpToDate(c, sv.log + [body]) {
      var i :| 0 <= i < |r| && r[i] == c;
      DeliverOk(sv.clients[i], m, sv.sequencer.generation, sv.log, body);
    }
  }

  // ---------------------------------------------------------------- serving a frame

  /** A client about to be served: open, drained, with a whole frame decoded. */
  ghost predicate Servable(c: Client) { Idle(c) && c.protocol == V1 && c.inbox.d.queue != [] }

  function NextFrame(c: Client): Frame
    requires c.inbox.d.queue != []
  {
    c.inbox.d.queue[0]
  }

  lemma TakenGrows(c: Client)
    requires c.inbox.d.queue != []
    ensures FD.Apply(c.inbox, FD.Taken).taken == c.inbox.taken + [NextFrame(c)]
    ensures FD.Emitted(FD.Apply(c.inbox, FD.Taken)) == FD.Emitted(c.inbox)
    ensures FD.Apply(c.inbox, FD.Taken).d == c.inbox.d.(queue := c.inbox.d.queue[1..])
  {
    FD.TakeStep(c.inbox);
  }

  lemma InboxTaken(c: Client, d: Client)
    requires Servable(c) && InboxOk(c)
    requires d.inbox == FD.Apply(c.inbox, FD.Taken) && d.received == c.received && d.protocol == V1
    ensures InboxOk(d)
  {
    TakenGrows(c);
    hide Codec.Parse;
  }

  /** One more frame, one more reply. */
  lemma TalkGrows(c: Client, d: Client, reply: Frame)
    requires Servable(c) && TalkOk(c)
    requires d.inbox == FD.Apply(c.inbox, FD.Taken) && !d.closed && SmallIdentity(d.session)
    requires Replies(d.msgs) == Replies(c.msgs) + [reply]
    requires Answers(c.session.state == AwaitHello, NextFrame(c), reply)
    requires d.session.state == (if d.closing then Closed else Ready)
    requires d.emitted == if d.session.subscribed then 1 else 0
    requires c.session.state == AwaitHello ==> (d.session.state == Ready <==> GoodHelloFrame(NextFrame(c)))
    requires c.session.state == AwaitHello ==> d.dispatched == c.dispatched && d.session.subscribed == c.session.subscribed
    ensures TalkOk(d)
  {
    TakenGrows(c);
    hide Answers, GoodHelloFrame, Replies, FD.Apply;
    var k := |c.inbox.taken|;
    forall j | 0 <= j < |d.inbox.taken|
      ensures Answers(j == 0, d.inbox.taken[j], Replies(d.msgs)[j])
    {
      if j < k {
        assert d.inbox.taken[j] == c.inbox.taken[j] && Replies(d.msgs)[j] == Replies(c.msgs)[j];
      }
    }
    if k > 0 {
      assert d.inbox.taken[0] == c.inbox.taken[0];
    }
  }

  lemma TalkCloses(c: Client, d: Client)
    requires Servable(c) && TalkOk(c)
    requires d.inbox == FD.Apply(c.inbox, FD.Taken) && d.closed && SmallIdentity(d.session)
    requires d.emitted <= if d.session.subscribed then 1 else 0
    requires c.session.state == AwaitHello ==> d.dispatched == c.dispatched && d.session.subscribed == c.session.subscribed
    ensures TalkOk(d)
  {
    TakenGrows(c);
    hide Answers, GoodHelloFrame, Replies, FD.Apply;
    if c.inbox.taken != [] {
      assert d.inbox.taken[0] == c.inbox.taken[0];
    }
  }

  lemma ReplyContinues(msgs: seq<Msg>, f: Frame, generation: nat, log: seq<Body>)
    requires Ordered(msgs) && AllHonest(msgs, generation, log)
    ensures var longer := msgs + [ReplyMsg(f)];
            && Ordered(longer) && AllHonest(longer, generation, log) && LastEvent(longer) == LastEvent(msgs)
            && Replies(longer) == Replies(msgs) + [f]
  {
    AppendMsg(msgs, ReplyMsg(f));
  }

  /** What handling a frame leaves of the client: a reply is always accepted, because
      frames are taken only while nothing is queued. */
  lemma HandleIs(c: Client)
    requires LinkOk(c) && Servable(c)
    ensures var (session, h) := HandleFrame(c.session, NextFrame(c));
            var (d, h') := Handle(c);
            && h' == h && !d.closed && LinkOk(d)
            && d == c.(inbox := FD.Apply(c.inbox, FD.Taken), session := session, link := d.link,
                       msgs := if h.reply.Answer? then c.msgs + [ReplyMsg(h.reply.frame)] else c.msgs)
            && (h.reply.Silent? ==> d.link == c.link)
            && |d.link.q.frames| <= 1 && d.link.q.queued <= HEADER_SIZE + MAX_PAYLOAD
  {
    hide HandleFrame;
    var (session, h) := HandleFrame(c.session, NextFrame(c));
    var taken := c.(inbox := FD.Apply(c.inbox, FD.Taken), session := session);
    QueueEmpty(c);
    if h.reply.Answer? {
      var m := ReplyMsg(h.reply.frame);
      SendLink(taken, m);
      SendIs(taken, m);
      SendAccepts(taken, m);
    }
  }

  lemma QueueEmpty(c: Client)
    requires LinkOk(c) && c.link.q.frames == []
    ensures c.link.q.queued == 0
  {
  }

  ghost predicate Kept(c: Client, generation: nat, log: seq<Body>) { ClientOk(c, generation, log) && UpToDate(c, log) }

  /** Handling a frame and what the session promises about it, in one place. */
  lemma Handling(c: Client, generation: nat, log: seq<Body>)
    requires Kept(c, generation, log) && Servable(c)
    ensures var (d, h) := Handle(c);
            && !d.closed && LinkOk(d) && |d.link.q.frames| <= 1 && d.link.q.queued <= HEADER_SIZE + MAX_PAYLOAD
            && d == c.(inbox := FD.Apply(c.inbox, FD.Taken), session := d.session, link := d.link,
                       msgs := if h.reply.Answer? then c.msgs + [ReplyMsg(h.reply.frame)] else c.msgs)
            && SmallIdentity(d.session)
            && d.session.state == (if h.closeAfterSend then Closed else Ready)
            && (h.closeAfterSend ==> h.action.NoAction?)
            && (c.session.state == AwaitHello ==>
                  (d.session.state == Ready <==> GoodHelloFrame(NextFrame(c))) && h.action.NoAction?)
            && (c.session.state == AwaitHello ==> !c.session.subscribed)
            && (h.action.NoAction? || h.action.EmitEventsSubscribed? ==>
                  h.reply.Answer? && Answers(c.session.state == AwaitHello, NextFrame(c), h.reply.frame))
            && (c.session.subscribed ==> d.session.subscribed)
            && (h.action.EmitEventsSubscribed? <==> d.session.subscribed && !c.session.subscribed)
            && (h.action.SendAuthoritativeSnapshot? || h.action.DispatchBusinessRequest? ==>
                  && h.reply.Silent? && h.action.id == KnownId(NextFrame(c)) && 1 <= h.action.id <= UINT64_MAX
                  && d.session == c.session && d.link == c.link && c.session.state == Ready)
  {
    hide W.Sane, Answers, GoodHelloFrame, KnownId, Ordered, AllHonest, LastEvent, Replies, FD.Apply, Paired, InboxOk, HandleFrame, Handle;
    HandleIs(c);
    FrameAnswered(c.session, NextFrame(c));
  }

  /** Frames that the session settles alone. */
  lemma ServeReply(c: Client, generation: nat, log: seq<Body>)
    requires Kept(c, generation, log) && Servable(c) && Handle(c).1.action.NoAction?
    ensures Kept(MarkClosing(Handle(c).0, Handle(c).1.closeAfterSend), generation, log)
  {
    hide Handle, Answers, GoodHelloFrame, Ordered, AllHonest, LastEvent, Replies, FD.Apply, Paired, InboxOk, SmallIdentity, LinkOk;
    Handling(c, generation, log);
    var (d0, h) := Handle(c);
    var d := MarkClosing(d0, h.closeAfterSend);
    ReplyContinues(c.msgs, h.reply.frame, generation, log);
    TalkGrows(c, d, h.reply.frame);
    InboxTaken(c, d);
    LinkStays(d0, d);
  }

  lemma LinkStays(c: Client, d: Client)
    requires LinkOk(c) && d.link == c.link && d.msgs == c.msgs
    ensures LinkOk(d)
  {
    hide W.Sane;
  }

  lemma ReplyBytes(d: Client, m: Msg)
    requires LinkOk(d) && !d.closed && |d.link.q.frames| <= 1 && d.link.q.queued <= HEADER_SIZE + MAX_PAYLOAD
    requires Encodable(m.frame)
    ensures LinkOk(Send(d, m)) && Send(d, m) == d.(link := Send(d, m).link, msgs := d.msgs + [m])
  {
    hide W.Sane;
    SendLink(d, m);
    SendIs(d, m);
    SendAccepts(d, m);
  }

  /** A client whose frame cannot be answered is closed, and nothing else is lost. */
  lemma ServeCloses(c: Client, d: Client, generation: nat, log: seq<Body>)
    requires Kept(c, generation, log) && Servable(c)
    requires d == c.(inbox := FD.Apply(c.inbox, FD.Taken), closed := true, dispatched := d.dispatched)
    requires c.session.state == Ready
    ensures Kept(d, generation, log)
  {
    hide Ordered, AllHonest, LastEvent, FD.Apply, Paired, InboxOk, SmallIdentity, LinkOk;
    InboxTaken(c, d);
    LinkStays(c, d);
    TalkCloses(c, d);
  }

  lemma SnapshotHonest(id: nat, generation: nat, log: seq<Body>, snapshot: string)
    requires generation <= UINT64_MAX && |log| <= UINT64_MAX && EncodeSnapshot(id, generation, |log|, snapshot).Answer?
    ensures var f := EncodeSnapshot(id, generation, |log|, snapshot).frame;
            SnapshotFrame(f, generation, |log|, snapshot) && Encodable(f)
            && f == Frame(RESPONSE, ResponseText(id, SnapshotTail(generation, |log|, snapshot)))
  {
    hide JsonUint64, SnapshotTail, ResponseText, Whole, SnapshotText;
    SnapshotReadsBack(id, generation, |log|, snapshot);
    if Whole(snapshot, 1) { SnapshotMembersRead(id, generation, |log|, snapshot); }
  }

  lemma SnapshotContinues(msgs: seq<Msg>, m: Msg, generation: nat, log: seq<Body>)
    requires m.SnapshotMsg? && m.watermark == |log| && m.covered == log
    requires SnapshotFrame(m.frame, generation, |log|, m.text)
    requires Ordered(msgs) && AllHonest(msgs, generation, log)
    requires if m.subscribed then LastEvent(msgs) == |log| && log != [] else LastEvent(msgs) == 0
    ensures Ordered(msgs + [m]) && AllHonest(msgs + [m], generation, log)
    ensures LastEvent(msgs + [m]) == LastEvent(msgs) && Replies(msgs + [m]) == Replies(msgs) + [m.frame]
  {
    hide SnapshotFrame;
    AppendMsg(msgs, m);
    assert log[..|log|] == log;
  }

  lemma SnapshotAnswers(f: Frame, id: nat, generation: nat, watermark: nat, snapshot: string)
    requires f.kind == REQUEST && KnownId(f) == id && 1 <= id <= UINT64_MAX
    requires EncodeSnapshot(id, generation, watermark, snapshot).Answer?
    ensures Answers(false, f, EncodeSnapshot(id, generation, watermark, snapshot).frame)
  {
    hide Answers, KnownId, Respond, SnapshotTail;
    RespondAnswers(f, id, SnapshotTail(generation, watermark, snapshot));
  }

  lemma KnownIsRequest(f: Frame)
    requires KnownId(f) != 0
    ensures f.kind == REQUEST
  {
  }

  lemma ServeSnapshot(c: Client, sequencer: Sequencer, log: seq<Body>, env: Env)
    requires 1 <= sequencer.generation <= UINT64_MAX && |log| == LastSequence(sequencer) <= UINT64_MAX
    requires Kept(c, sequencer.generation, log) && Servable(c) && Handle(c).1.action.SendAuthoritativeSnapshot?
    ensures var (d, h) := Handle(c);
            var e := Perform(d, h.action, sequencer, log, env);
            && Kept(e, sequencer.generation, log) && !h.closeAfterSend
            && (e.closed <==> EncodeSnapshot(KnownId(NextFrame(c)), sequencer.generation, |log|, env.snapshot).Silent?)
  {
    hide Handle, Answers, KnownId, GoodHelloFrame, Ordered, AllHonest, LastEvent, Replies, FD.Apply, Paired, InboxOk,
         SmallIdentity, LinkOk, Send, EncodeSnapshot, SnapshotFrame;
    var generation := sequencer.generation;
    Handling(c, generation, log);
    var (d, h) := Handle(c);
    var r := EncodeSnapshot(h.action.id, generation, |log|, env.snapshot);
    if r.Answer? {
      KnownIsRequest(NextFrame(c));
      SnapshotHonest(h.action.id, generation, log, env.snapshot);
      var m := SnapshotMsg(r.frame, |log|, log, env.snapshot, d.session.subscribed);
      ReplyBytes(d, m);
      SnapshotContinues(c.msgs, m, generation, log);
      SnapshotAnswers(NextFrame(c), h.action.id, generation, |log|, env.snapshot);
      TalkGrows(c, Send(d, m), r.frame);
      InboxTaken(c, Send(d, m));
    } else {
      ServeCloses(c, Perform(d, h.action, sequencer, log, env), generation, log);
    }
  }

  lemma ServeDispatch(c: Client, sequencer: Sequencer, log: seq<Body>, env: Env)
    requires Kept(c, sequencer.generation, log) && Servable(c) && Handle(c).1.action.DispatchBusinessRequest?
    ensures var (d, h) := Handle(c);
            var e := Perform(d, h.action, sequencer, log, env);
            && Kept(e, sequencer.generation, log) && !h.closeAfterSend
            && (e.closed <==> Respond(KnownId(NextFrame(c)), TailOf(env.outcome)).Silent?)
  {
    hide Handle, Answers, KnownId, GoodHelloFrame, Ordered, AllHonest, LastEvent, Replies, FD.Apply, Paired, InboxOk,
         SmallIdentity, LinkOk, Send, TailOf;
    var generation := sequencer.generation;
    Handling(c, generation, log);
    var (d, h) := Handle(c);
    var r := Respond(h.action.id, TailOf(env.outcome));
    if r.Answer? {
      KnownIsRequest(NextFrame(c));
      var d' := d.(dispatched := d.dispatched + [h.action]);
      LinkStays(d, d');
      var m := ReplyMsg(r.frame);
      ReplyBytes(d', m);
      ReplyContinues(c.msgs, r.frame, generation, log);
      RespondAnswers(NextFrame(c), h.action.id, TailOf(env.outcome));
      TalkGrows(c, Send(d', m), r.frame);
      InboxTaken(c, Send(d', m));
    } else {
      ServeCloses(c, Perform(d, h.action, sequencer, log, env), generation, log);
    }
  }

  /** A first subscription: the reply stands in front of the session's first event. */
  lemma ServeSubscribe(c: Client, generation: nat, log: seq<Body>)
    requires Kept(c, generation, log) && Servable(c) && Handle(c).1.action.EmitEventsSubscribed?
    ensures var (d, h) := Handle(c);
            var e := d.(emitted := d.emitted + 1);
            ClientOk(e, generation, log) && LastEvent(e.msgs) == 0 && Hears(e) && !h.closeAfterSend
  {
    hide Handle, Answers, GoodHelloFrame, Ordered, AllHonest, LastEvent, Replies, FD.Apply, Paired, InboxOk, SmallIdentity, LinkOk;
    Handling(c, generation, log);
    var (d, h) := Handle(c);
    var e := d.(emitted := d.emitted + 1);
    ReplyContinues(c.msgs, h.reply.frame, generation, log);
    TalkGrows(c, e, h.reply.frame);
    InboxTaken(c, e);
    LinkStays(d, e);
  }

  lemma PutKeeps(sv: Server, i: nat, c: Client)
    requires Inv(sv) && i < |sv.clients| && Kept(c, sv.sequencer.generation, sv.log)
    ensures Inv(Put(sv, i, c))
  {
    hide ClientOk, UpToDate;
    var r := Put(sv, i, c);
    forall d | d in r.clients ensures ClientOk(d, sv.sequencer.generation, sv.log) && UpToDate(d, sv.log) {
      var j :| 0 <= j < |r.clients| && r.clients[j] == d;
      if j != i {
        assert d == sv.clients[j];
      }
    }
  }

  lemma MemberKept(sv: Server, i: nat)
    requires Inv(sv) && i < |sv.clients|
    ensures Kept(sv.clients[i], sv.sequencer.generation, sv.log)
  {
    hide ClientOk, UpToDate;
  }

  lemma CloseKeeps(c: Client, generation: nat, log: seq<Body>)
    requires ClientOk(c, generation, log)
    ensures Kept(Close(c), generation, log)
  {
    hide W.Sane, Ordered, AllHonest, LastEvent, Paired;
    OthersStay(c, Close(c));
  }

  /** A session whose subscription could not be announced is closed uncounted. */
  lemma UncountedClose(d: Client, generation: nat, log: seq<Body>)
    requires ClientOk(d.(emitted := d.emitted + 1), generation, log)
    ensures Kept(Close(d), generation, log)
  {
    hide W.Sane, Ordered, AllHonest, LastEvent, Paired, Codec.Parse, FD.Emitted;
  }

  lemma JoinersOk(sv: Server, i: nat, c: Client)
    requires Inv(sv) && i < |sv.clients| && ClientOk(c, sv.sequencer.generation, sv.log) && LastEvent(c.msgs) == 0
    ensures var r := Put(sv, i, c);
            && SequencerOk(r) && AllOk(r.clients, r.sequencer.generation, r.log)
            && (forall d :: d in r.clients && Hears(d) ==> LastEvent(d.msgs) == 0 || LastEvent(d.msgs) == |r.log|)
  {
    hide ClientOk, Hears, LastEvent;
    var r := Put(sv, i, c);
    forall d | d in r.clients
      ensures ClientOk(d, sv.sequencer.generation, sv.log)
      ensures Hears(d) ==> LastEvent(d.msgs) == 0 || LastEvent(d.msgs) == |sv.log|
    {
      var j :| 0 <= j < |r.clients| && r.clients[j] == d;
      if j != i {
        assert d == sv.clients[j];
        assert UpToDate(sv.clients[j], sv.log);
      }
    }
  }

  lemma AnnounceOk(sv: Server, i: nat, d: Client)
    requires Inv(sv) && i < |sv.clients|
    requires var c := d.(emitted := d.emitted + 1);
             ClientOk(c, sv.sequencer.generation, sv.log) && LastEvent(c.msgs) == 0
    ensures Inv(Announce(sv, i, d))
  {
    hide ClientOk, Hears, LastEvent, Broadcast;
    var c := d.(emitted := d.emitted + 1);
    var put := Put(sv, i, c);
    JoinersOk(sv, i, c);
    EmptyWhole();
    BroadcastOk(put, Body(EventsSubscribed, "{}"));
    var (ok, r) := Broadcast(put, Body(EventsSubscribed, "{}"));
    if !ok {
      UncountedClose(d, sv.sequencer.generation, sv.log);
      PutKeeps(sv, i, Close(d));
    }
  }

  lemma ServeOk(sv: Server, i: nat, env: Env)
    requires Inv(sv) && i < |sv.clients| && Idle(sv.clients[i])
    ensures Inv(ProcessFrame(sv, i, env))
  {
    hide Handle, Perform, Announce, Inv;
    var c := sv.clients[i];
    if c.protocol == V1 && c.inbox.d.queue != [] {
      ServedKept(sv, i, env);
    }
  }

  lemma ProcessAlone(sv: Server, i: nat, env: Env)
    requires i < |sv.clients| && Servable(sv.clients[i])
    requires var (d, h) := Handle(sv.clients[i]); !d.closed && !h.action.EmitEventsSubscribed?
    ensures var (d, h) := Handle(sv.clients[i]);
            ProcessFrame(sv, i, env) ==
            Put(sv, i, MarkClosing(Perform(d, h.action, sv.sequencer, sv.log, env), h.closeAfterSend))
  {
    hide Handle, Perform, Announce, Put;
  }

  lemma ProcessSubscribe(sv: Server, i: nat, env: Env)
    requires i < |sv.clients| && Servable(sv.clients[i])
    requires var (d, h) := Handle(sv.clients[i]);
             !d.closed && h.action.EmitEventsSubscribed? && !h.closeAfterSend
    ensures ProcessFrame(sv, i, env) == Announce(sv, i, Handle(sv.clients[i]).0)
  {
    hide Handle, Perform, Announce;
    var d := Handle(sv.clients[i]).0;
    AnnounceLength(sv, i, d);
    var r := Announce(sv, i, d);
    assert Put(r, i, MarkClosing(r.clients[i], false)) == r;
  }

  lemma ServedKept(sv: Server, i: nat, env: Env)
    requires Inv(sv) && i < |sv.clients| && Servable(sv.clients[i])
    ensures Inv(ProcessFrame(sv, i, env))
  {
    hide Handle, Perform, Announce, Kept, ClientOk, UpToDate, LastEvent, Hears, AllOk, ProcessFrame, LinkOk, Answers,
         GoodHelloFrame, KnownId, Respond, EncodeSnapshot, FD.Apply, MarkClosing;
    var c := sv.clients[i];
    var generation := sv.sequencer.generation;
    MemberKept(sv, i);
    Handling(c, generation, sv.log);
    var (d, h) := Handle(c);
    if h.action.EmitEventsSubscribed? {
      ServeSubscribe(c, generation, sv.log);
      AnnounceOk(sv, i, d);
      ProcessSubscribe(sv, i, env);
    } else {
      ServeAlone(c, sv.sequencer, sv.log, env);
      ProcessAlone(sv, i, env);
      PutKeeps(sv, i, MarkClosing(Perform(d, h.action, sv.sequencer, sv.log, env), h.closeAfterSend));
    }
  }

  lemma ServeAlone(c: Client, sequencer: Sequencer, log: seq<Body>, env: Env)
    requires 1 <= sequencer.generation <= UINT64_MAX && |log| == LastSequence(sequencer) <= UINT64_MAX
    requires Kept(c, sequencer.generation, log) && Servable(c) && !Handle(c).1.action.EmitEventsSubscribed?
    ensures var (d, h) := Handle(c);
            Kept(MarkClosing(Perform(d, h.action, sequencer, log, env), h.closeAfterSend), sequencer.generation, log)
  {
    hide Handle, Perform, Kept, KnownId, Respond, EncodeSnapshot;
    var (d, h) := Handle(c);
    match h.action
    case NoAction =>
      ServeReply(c, sequencer.generation, log);
      PerformNothing(d, sequencer, log, env);
    case SendAuthoritativeSnapshot(_) =>
      ServeSnapshot(c, sequencer, log, env);
    case DispatchBusinessRequest(_, _, _) =>
      ServeDispatch(c, sequencer, log, env);
  }

  lemma PerformNothing(d: Client, sequencer: Sequencer, log: seq<Body>, env: Env)
    ensures Perform(d, NoAction, sequencer, log, env) == d
  {
  }

  lemma AnnounceLength(sv: Server, i: nat, d: Client)
    requires i < |sv.clients|
    ensures |Announce(sv, i, d).clients| == |sv.clients|
  {
    hide EncodeEvent, Deliver;
  }
}
