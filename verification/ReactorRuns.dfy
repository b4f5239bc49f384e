/** Safety of whole runs: every step of the reactor and of its peers keeps the
    invariant, and what the invariant means for subscribers and for requests. */
module ReactorRuns {
  import opened Codec
  import opened Decimal
  import opened Requests
  import opened Sessions
  import opened Events
  import opened Embedding
  import opened DaemonTexts
  import opened Reactor
  import opened ReactorSafety
  import FD = FrameDecoding
  import OB = Outbound
  import W = Wire

  // ---------------------------------------------------------------- the other steps

  lemma NewClientKept(generation: nat, log: seq<Body>)
    ensures Kept(NewClient(), generation, log)
  {
    var l := W.Start(OB.DEFAULT_MAX_FRAMES, OB.DEFAULT_MAX_BYTES);
    assert l.written + "" == "" && l.accepted == Frames([]);
    assert Codec.Parse("") == Parsed([], "", NoError);
  }

  lemma ConnectOk(sv: Server)
    requires Inv(sv)
    ensures Inv(Take(sv, Connect))
  {
    hide ClientOk, UpToDate;
    NewClientKept(sv.sequencer.generation, sv.log);
    assert Kept(NewClient(), sv.sequencer.generation, sv.log);
  }

  /** Bytes that decode without error extend the record; others close the client. */
  lemma FeedInbox(c: Client, data: string)
    requires InboxOk(c) && !c.closed && c.protocol == V1
    ensures InboxOk(Feed(c, data)) && Feed(c, data).inbox.taken == c.inbox.taken
  {
    hide Codec.Parse;
    FD.FeedStep(c.inbox, data);
    ParseResumes(c.received, data);
  }

  lemma FeedKept(c: Client, data: string, generation: nat, log: seq<Body>)
    requires Kept(c, generation, log) && !c.closed && c.protocol == V1
    ensures Kept(Feed(c, data), generation, log)
  {
    hide Ordered, AllHonest, LastEvent, Paired, InboxOk, LinkOk, Replies, SmallIdentity, GoodHelloFrame, FD.Apply;
    FeedInbox(c, data);
    LinkStays(c, Feed(c, data));
  }

  lemma SessionNameShort(generation: nat, number: nat)
    requires generation <= UINT64_MAX && number <= UINT64_MAX
    ensures |SessionName(generation, number)| <= 64
  {
    hide Print;
    PrintUint64Length(generation);
    PrintUint64Length(number);
  }

  /** A connection that turns out to speak the protocol starts with a fresh session. */
  lemma CommitKept(c: Client, s: Session, generation: nat, log: seq<Body>)
    requires Kept(c, generation, log) && !c.closed && c.protocol == Undecided && !c.closing
    requires s.state == AwaitHello && !s.subscribed && SmallIdentity(s)
    ensures Kept(c.(protocol := V1, initial := "", session := s), generation, log)
    ensures forall p: Protocol, t: string, closed: bool :: p != V1 ==>
              Kept(c.(protocol := p, initial := t, closed := closed), generation, log)
  {
    hide Ordered, AllHonest, LastEvent, Paired, W.Sane, Replies, SmallIdentity, GoodHelloFrame, Codec.Parse, FD.Emitted;
  }

  lemma ReceiveOk(sv: Server, i: nat, data: string)
    requires Inv(sv) && i < |sv.clients|
    ensures Inv(Receive(sv, i, data))
  {
    hide Kept, ClientOk, UpToDate, AllOk, Feed, SmallIdentity, SessionName;
    var c := sv.clients[i];
    var generation := sv.sequencer.generation;
    MemberKept(sv, i);
    if Idle(c) && data != "" {
      if c.protocol == V1 {
        FeedKept(c, data, generation, sv.log);
        PutKeeps(sv, i, Feed(c, data));
      } else if c.protocol == Undecided {
        CommitOk(sv, i, c.initial + data);
      }
    }
  }

  lemma CommitOk(sv: Server, i: nat, initial: string)
    requires Inv(sv) && i < |sv.clients| && Idle(sv.clients[i]) && sv.clients[i].protocol == Undecided
    ensures Inv(Commit(sv, i, initial))
  {
    hide Kept, ClientOk, UpToDate, AllOk, Feed, SessionName;
    var c := sv.clients[i];
    var generation := sv.sequencer.generation;
    MemberKept(sv, i);
    SessionNameShort(generation, sv.sessions);
    var s := Session(AwaitHello, false, generation, SessionName(generation, sv.sessions));
    var v1 := c.(protocol := V1, initial := "", session := s);
    CommitKept(c, s, generation, sv.log);
    FeedKept(v1, initial, generation, sv.log);
    PutKeeps(sv, i, Feed(v1, initial));
    PutKeeps(sv, i, c.(initial := initial, closed := true));
    PutKeeps(sv, i, c.(initial := initial));
    PutKeeps(sv, i, c.(protocol := V0, initial := ""));
  }

  lemma LinkActs(c: Client, a: W.Act)
    requires LinkOk(c) && !a.Offer?
    ensures LinkOk(PeerActs(c, a))
  {
    W.DoSane(c.link, a);
    hide W.Sane;
  }

  lemma LinkChange(c: Client, d: Client, generation: nat, log: seq<Body>)
    requires Kept(c, generation, log) && LinkOk(d) && d == c.(link := d.link, closed := d.closed)
    requires c.closed ==> d.closed
    ensures Kept(d, generation, log)
  {
    hide Ordered, AllHonest, LastEvent, Paired, LinkOk, TalkOk, InboxOk;
    OthersStay(c, d);
  }

  lemma FlushKept(c: Client, n: nat, generation: nat, log: seq<Body>)
    requires Kept(c, generation, log)
    ensures Kept(Flush(c, n), generation, log)
  {
    hide StoryOk, TalkOk, InboxOk, UpToDate, W.Do, W.Sane;
    if !c.closed {
      LinkActs(c, W.Write(n));
      LinkStays(PeerActs(c, W.Write(n)), Flush(c, n));
      LinkChange(c, Flush(c, n), generation, log);
    }
  }

  lemma PeerKept(c: Client, a: W.Act, generation: nat, log: seq<Body>)
    requires Kept(c, generation, log) && !a.Offer?
    ensures Kept(PeerActs(c, a), generation, log)
  {
    hide StoryOk, TalkOk, InboxOk, UpToDate, LinkOk, W.Do;
    LinkActs(c, a);
    LinkChange(c, PeerActs(c, a), generation, log);
  }

  lemma SweepOk(sv: Server)
    requires Inv(sv)
    ensures Inv(Take(sv, Sweep))
  {
    hide ClientOk, UpToDate;
  }

  lemma StateChangeOk(sv: Server, changes: Changes)
    requires Inv(sv)
    ensures Inv(Take(sv, StateChange(changes)))
  {
    hide ClientOk, Hears, LastEvent, Broadcast, SequencerOk, ChangesText, Whole;
    forall c | c in sv.clients && Hears(c) ensures LastEvent(c.msgs) == |sv.log| {
      assert UpToDate(c, sv.log);
    }
    ChangesWhole(changes);
    BroadcastOk(sv, Body(StateChanged, ChangesText(changes)));
  }

  lemma StepOk(sv: Server, s: Step)
    requires Inv(sv)
    ensures Inv(Take(sv, s))
  {
    hide Inv, Kept, ClientOk, ProcessFrame, Receive, Flush, Broadcast, Open, Idle, PeerActs, Close;
    if Within(sv, s) {
      match s
      case Connect => ConnectOk(sv);
      case Receiving(i, data) => ReceiveOk(sv, i, data);
      case Serving(i, env) => if Idle(sv.clients[i]) { ServeOk(sv, i, env); }
      case Sweep => SweepOk(sv);
      case StateChange(changes) => StateChangeOk(sv, changes);
      case Flushing(i, n) =>
        MemberKept(sv, i);
        FlushKept(sv.clients[i], n, sv.sequencer.generation, sv.log);
        PutKeeps(sv, i, Flush(sv.clients[i], n));
      case Hangup(i) => HangupOk(sv, i);
      case PeerRead(i, n) => PeerOk(sv, i, W.Read(n));
      case PeerTake(i) => PeerOk(sv, i, W.TakeOne);
    }
  }

  lemma HangupOk(sv: Server, i: nat)
    requires Inv(sv) && i < |sv.clients|
    ensures Inv(Put(sv, i, Close(sv.clients[i])))
  {
    hide ClientOk, UpToDate, Close;
    MemberKept(sv, i);
    CloseKeeps(sv.clients[i], sv.sequencer.generation, sv.log);
    PutKeeps(sv, i, Close(sv.clients[i]));
  }

  lemma PeerOk(sv: Server, i: nat, a: W.Act)
    requires Inv(sv) && i < |sv.clients| && !a.Offer?
    ensures Inv(Put(sv, i, PeerActs(sv.clients[i], a)))
  {
    hide Kept, ClientOk, UpToDate, PeerActs;
    MemberKept(sv, i);
    PeerKept(sv.clients[i], a, sv.sequencer.generation, sv.log);
    PutKeeps(sv, i, PeerActs(sv.clients[i], a));
  }

  lemma {:induction false} EveryRunOk(generation: nat, steps: seq<Step>)
    requires generation <= UINT64_MAX
    ensures Inv(Run(generation, steps))
  {
    if steps != [] {
      hide Inv, Take;
      EveryRunOk(generation, steps[..|steps| - 1]);
      StepOk(Run(generation, steps[..|steps| - 1]), steps[|steps| - 1]);
    }
  }

  // ---------------------------------------------------------------- fan-out

  /** The sequences of the events a connection was sent. */
  function EventsOf(msgs: seq<Msg>): seq<nat> {
    if msgs == [] then []
    else EventsOf(Init(msgs)) + if Last(msgs).EventMsg? then [Last(msgs).sequence] else []
  }

  lemma {:induction false} OrderedIsConsecutive(msgs: seq<Msg>)
    requires Ordered(msgs)
    ensures EventsOf(msgs) == [] <==> LastEvent(msgs) == 0
    ensures var es := EventsOf(msgs);
            && (es != [] ==> es[|es| - 1] == LastEvent(msgs))
            && forall k :: 0 <= k < |es| ==> es[k] == es[0] + k
  {
    if msgs != [] {
      OrderedIsConsecutive(Init(msgs));
    }
  }

  /** In every reachable state, a subscriber was sent exactly the consecutive sequences
      from its first event up to the last one given out, whatever other connections did. */
  lemma FanOutContiguous(generation: nat, steps: seq<Step>, c: Client)
    requires generation <= UINT64_MAX && c in Run(generation, steps).clients && Hears(c)
    ensures var es := EventsOf(c.msgs);
            && es != [] && es[|es| - 1] == LastSequence(Run(generation, steps).sequencer)
            && forall k :: 0 <= k < |es| ==> es[k] == es[0] + k
  {
    hide LinkOk, TalkOk, InboxOk, AllHonest, Hears;
    EveryRunOk(generation, steps);
    var sv := Run(generation, steps);
    assert ClientOk(c, sv.sequencer.generation, sv.log) && UpToDate(c, sv.log);
    OrderedIsConsecutive(c.msgs);
  }

  // ---------------------------------------------------------------- requests

  /** Every frame taken from an open connection has exactly one reply, in order and
      under the request's id; the frames taken are those the peer's bytes encode. No
      operation was dispatched without a valid HELLO in front, and a session announced
      itself at most once. */
  lemma OneReplyEach(generation: nat, steps: seq<Step>, c: Client)
    requires generation <= UINT64_MAX && c in Run(generation, steps).clients
    ensures !c.closed ==> Paired(c.inbox.taken, Replies(c.msgs))
    ensures !c.closed ==> c.inbox.taken <= Codec.Parse(c.received).frames
    ensures c.dispatched != [] || c.session.subscribed ==> Greeted(c)
    ensures c.emitted <= 1
  {
    hide LinkOk, StoryOk, UpToDate, Replies, Paired;
    EveryRunOk(generation, steps);
    var sv := Run(generation, steps);
    assert ClientOk(c, sv.sequencer.generation, sv.log);
  }

  /** When a frame cannot be answered: the text is too long, or the sequencer is
      exhausted and a subscription cannot be announced. */
  predicate Unanswerable(sv: Server, c: Client, env: Env)
    requires c.inbox.d.queue != []
  {
    var h := HandleFrame(c.session, NextFrame(c)).1;
    match h.action
    case NoAction => false
    case EmitEventsSubscribed => sv.sequencer.next == 0
    case SendAuthoritativeSnapshot(id) =>
      env.snapshot == "" ||
      |ResponseText(id, SnapshotTail(sv.sequencer.generation, |sv.log|, env.snapshot))| > MAX_PAYLOAD
    case DispatchBusinessRequest(id, _, _) => |ResponseText(id, TailOf(env.outcome))| > MAX_PAYLOAD
  }

  lemma AnnouncementFits(generation: nat, n: nat)
    requires generation <= UINT64_MAX && n <= UINT64_MAX
    ensures |EventFrame(generation, n, Body(EventsSubscribed, "{}")).payload| <= 200
  {
    hide Print;
    PrintUint64Length(generation);
    PrintUint64Length(n);
    PlainNameUnchanged(NameOf(EventsSubscribed));
  }

  lemma RespondIs(id: nat, tail: string)
    ensures Respond(id, tail).Silent? <==> |ResponseText(id, tail)| > MAX_PAYLOAD
  {
    hide ResponseText;
  }

  lemma SubscriberServed(sv: Server, i: nat)
    requires Inv(sv) && i < |sv.clients| && Servable(sv.clients[i])
    requires Handle(sv.clients[i]).1.action.EmitEventsSubscribed?
    ensures Announce(sv, i, Handle(sv.clients[i]).0).clients[i].closed <==> sv.sequencer.next == 0
  {
    hide Handle, Kept, ClientOk, UpToDate, LinkOk, AllOk, Send, EncodeEvent, Answers, FD.Apply, KnownId, EventFrame;
    var c := sv.clients[i];
    MemberKept(sv, i);
    ServeSubscribe(c, sv.sequencer.generation, sv.log);
    Handling(c, sv.sequencer.generation, sv.log);
    var d := Handle(c).0.(emitted := Handle(c).0.emitted + 1);
    LinkStays(Handle(c).0, d);
    var body := Body(EventsSubscribed, "{}");
    EventEncodes(sv.sequencer, body);
    AnnouncementFits(sv.sequencer.generation, sv.sequencer.next);
    var (r, next) := EncodeEvent(sv.sequencer, NameOf(EventsSubscribed), "{}");
    if r.Answer? {
      ReplyBytes(d, EventMsg(r.frame, sv.sequencer.next, body));
    }
  }

  /** A served frame closes its connection exactly when it cannot be answered: the
      queue, empty at that point, never overflows. */
  lemma ServedUnlessUnanswerable(sv: Server, i: nat, env: Env)
    requires Inv(sv) && i < |sv.clients| && Servable(sv.clients[i])
    ensures ProcessFrame(sv, i, env).clients[i].closed <==> Unanswerable(sv, sv.clients[i], env)
  {
    hide Handle, HandleFrame, Perform, Announce, Kept, ClientOk, UpToDate, LastEvent, Hears, AllOk, ProcessFrame, LinkOk,
         Answers, GoodHelloFrame, KnownId, FD.Apply, Respond, SnapshotTail, ResponseText, TailOf;
    var c := sv.clients[i];
    MemberKept(sv, i);
    Handling(c, sv.sequencer.generation, sv.log);
    HandledBy(c);
    var (d, h) := Handle(c);
    if h.action.EmitEventsSubscribed? {
      SubscriberServed(sv, i);
      ProcessSubscribe(sv, i, env);
    } else {
      ProcessAlone(sv, i, env);
      match h.action
      case NoAction => PerformNothing(d, sv.sequencer, sv.log, env);
      case SendAuthoritativeSnapshot(id) =>
        ServeSnapshot(c, sv.sequencer, sv.log, env);
        RespondIs(id, SnapshotTail(sv.sequencer.generation, |sv.log|, env.snapshot));
      case DispatchBusinessRequest(id, _, _) =>
        ServeDispatch(c, sv.sequencer, sv.log, env);
        RespondIs(id, TailOf(env.outcome));
    }
  }

  lemma HandledBy(c: Client)
    requires c.inbox.d.queue != []
    ensures Handle(c).1 == HandleFrame(c.session, NextFrame(c)).1
  {
    hide HandleFrame, Send;
  }
}
