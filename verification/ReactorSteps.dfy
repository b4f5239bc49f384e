/** What the single steps of the reactor are for: connecting, choosing a protocol, taking
    bytes in, serving a frame and writing bytes out. */
module ReactorSteps {
  import opened Codec
  import opened Decimal
  import opened Requests
  import opened Sessions
  import opened Events
  import opened DaemonTexts
  import opened Reactor
  import opened ReactorSafety
  import opened ReactorRuns
  import FD = FrameDecoding
  import OB = Outbound
  import W = Wire

  /** Up to eight connections are accepted, each undecided and silent at first. */
  lemma ConnectMeans(sv: Server)
    ensures |sv.clients| < 8 ==>
              var r := Take(sv, Connect);
              && |r.clients| == |sv.clients| + 1 && r.clients[..|sv.clients|] == sv.clients
              && var c := r.clients[|sv.clients|];
                 c.protocol == Undecided && !c.closed && !c.closing && c.initial == "" && c.msgs == [] && c.received == ""
    ensures |sv.clients| >= 8 ==> Take(sv, Connect) == sv
  {
  }

  /** Bytes of an undecided connection are kept until four of them decide: the magic makes
      it a session of the server's generation that has received all of them, anything else
      the old protocol. Too many bytes close it. */
  lemma CommitMeans(sv: Server, i: nat, data: string)
    requires i < |sv.clients| && Idle(sv.clients[i]) && sv.clients[i].protocol == Undecided && data != ""
    ensures var c, c' := sv.clients[i], Receive(sv, i, data).clients[i];
            var all := c.initial + data;
            && (|all| > 65536 ==> c'.closed && c'.protocol == Undecided)
            && (|all| < 4 ==> c' == c.(initial := all))
            && (4 <= |all| <= 65536 && all[..4] == "NSP1" ==>
                  && c'.protocol == V1 && c'.received == c.received + all && c'.inbox == FD.Apply(c.inbox, FD.Fed(all))
                  && c'.session.state == AwaitHello && !c'.session.subscribed
                  && c'.session.generation == sv.sequencer.generation
                  && c'.session.id == "ns-" + Print(sv.sequencer.generation) + "-" + Print(sv.sessions)
                  && Receive(sv, i, data).sessions == (sv.sessions + 1) % 0x1_0000_0000_0000_0000
                  && c'.closed == (c'.inbox.d.error != NoError))
            && (4 <= |all| <= 65536 && all[..4] != "NSP1" ==> c'.protocol == V0 && !c'.closed)
  {
    hide FD.Apply, Print;
    assert |MAGIC| == 4;
  }

  /** Bytes of a session go to its decoder, all of them and in order; a stream that cannot
      be decoded closes it. */
  lemma ReceiveMeans(sv: Server, i: nat, data: string)
    requires Inv(sv) && i < |sv.clients| && Idle(sv.clients[i]) && sv.clients[i].protocol == V1 && data != ""
    ensures var c, c' := sv.clients[i], Receive(sv, i, data).clients[i];
            && c'.received == c.received + data && c'.inbox.taken == c.inbox.taken
            && c'.closed == (Codec.Parse(c.received + data).error != NoError)
            && (!c'.closed ==> FD.Emitted(c'.inbox) == Codec.Parse(c.received + data).frames)
  {
    hide ClientOk, UpToDate, Codec.Parse;
    var c := sv.clients[i];
    MemberKept(sv, i);
    InboxOf(c, sv.sequencer.generation, sv.log);
    FD.FeedStep(c.inbox, data);
    ParseResumes(c.received, data);
    FeedInbox(c, data);
  }

  lemma InboxOf(c: Client, generation: nat, log: seq<Body>)
    requires Kept(c, generation, log)
    ensures InboxOk(c)
  {
    hide LinkOk, StoryOk, TalkOk, InboxOk, UpToDate;
  }

  lemma SendKeeps(c: Client, m: Msg)
    requires Encodable(m.frame)
    ensures Send(c, m).inbox == c.inbox && Send(c, m).session == c.session && Send(c, m).dispatched == c.dispatched
  {
    hide W.Do, OB.Enqueue;
  }

  /** Serving takes exactly the oldest frame that was decoded and hands it to the session. */
  lemma ServeTakes(sv: Server, i: nat, env: Env)
    requires Inv(sv) && i < |sv.clients| && Servable(sv.clients[i])
    ensures var c, c' := sv.clients[i], ProcessFrame(sv, i, env).clients[i];
            && c'.inbox.taken == c.inbox.taken + [NextFrame(c)]
            && c'.session == HandleFrame(c.session, NextFrame(c)).0
  {
    hide Handle, HandleFrame, Perform, Announce, Kept, ClientOk, UpToDate, LastEvent, Hears, AllOk, ProcessFrame, LinkOk,
         Answers, GoodHelloFrame, KnownId, FD.Apply, SequencerOk;
    var c := sv.clients[i];
    MemberKept(sv, i);
    Handling(c, sv.sequencer.generation, sv.log);
    TakenGrows(c);
    HandledSession(c);
    var (d, h) := Handle(c);
    if h.action.EmitEventsSubscribed? {
      ProcessSubscribe(sv, i, env);
      AnnounceKeeps(sv, i, d);
    } else {
      ProcessAlone(sv, i, env);
      PerformKeeps(d, h.action, sv.sequencer, sv.log, env);
    }
  }

  lemma HandledSession(c: Client)
    requires c.inbox.d.queue != []
    ensures Handle(c).0.session == HandleFrame(c.session, NextFrame(c)).0
    ensures Handle(c).0.inbox == FD.Apply(c.inbox, FD.Taken) && Handle(c).0.dispatched == c.dispatched
  {
    hide HandleFrame, Send, FD.Apply;
    var (session, h) := HandleFrame(c.session, NextFrame(c));
    if h.reply.Answer? {
      SendKeeps(c.(inbox := FD.Apply(c.inbox, FD.Taken), session := session), ReplyMsg(h.reply.frame));
    }
  }

  lemma PerformKeeps(d: Client, action: Action, sequencer: Sequencer, log: seq<Body>, env: Env)
    ensures var e := Perform(d, action, sequencer, log, env);
            && e.inbox == d.inbox && e.session == d.session
            && e.dispatched == (if action.DispatchBusinessRequest? then d.dispatched + [action] else d.dispatched)
  {
    hide Send, EncodeSnapshot, Respond, TailOf;
    match action
    case SendAuthoritativeSnapshot(id) =>
      var last := LastSequence(sequencer);
      var r := EncodeSnapshot(id, sequencer.generation, last, env.snapshot);
      if r.Answer? {
        SnapshotEncodable(id, sequencer.generation, last, env.snapshot);
        SendKeeps(d, SnapshotMsg(r.frame, last, log, env.snapshot, d.session.subscribed));
      }
    case DispatchBusinessRequest(id, _, _) =>
      var r := Respond(id, TailOf(env.outcome));
      if r.Answer? {
        RespondEncodable(id, TailOf(env.outcome));
        SendKeeps(d.(dispatched := d.dispatched + [action]), ReplyMsg(r.frame));
      }
    case _ =>
  }

  lemma RespondEncodable(id: nat, tail: string)
    requires Respond(id, tail).Answer?
    ensures Encodable(Respond(id, tail).frame) && Respond(id, tail).frame == Frame(RESPONSE, ResponseText(id, tail))
  {
  }

  lemma SnapshotEncodable(id: nat, generation: nat, watermark: nat, snapshot: string)
    requires EncodeSnapshot(id, generation, watermark, snapshot).Answer?
    ensures var f := EncodeSnapshot(id, generation, watermark, snapshot).frame;
            Encodable(f) && f == Frame(RESPONSE, ResponseText(id, SnapshotTail(generation, watermark, snapshot)))
  {
    hide ResponseText, SnapshotTail;
  }

  lemma AnnounceKeeps(sv: Server, i: nat, d: Client)
    requires i < |sv.clients|
    ensures |Announce(sv, i, d).clients| == |sv.clients|
    ensures var e := Announce(sv, i, d).clients[i]; e.inbox == d.inbox && e.session == d.session && e.dispatched == d.dispatched
  {
    hide EncodeEvent, Send, Hears;
    var c := d.(emitted := d.emitted + 1);
    var (r, next) := EncodeEvent(sv.sequencer, NameOf(EventsSubscribed), "{}");
    if r.Answer? { SendKeeps(c, EventMsg(r.frame, sv.sequencer.next, Body(EventsSubscribed, "{}"))); }
  }

  /** A dispatched request is recorded with its method and parameters, and its answer is
      the daemon's outcome under its id. */
  lemma ServeDispatches(sv: Server, i: nat, env: Env, id: nat, m: string, p: string)
    requires Inv(sv) && i < |sv.clients| && Servable(sv.clients[i])
    requires HandleFrame(sv.clients[i].session, NextFrame(sv.clients[i])).1.action == DispatchBusinessRequest(id, m, p)
    ensures var c, c' := sv.clients[i], ProcessFrame(sv, i, env).clients[i];
            && c'.dispatched == c.dispatched + [DispatchBusinessRequest(id, m, p)]
            && (!c'.closed ==> c'.msgs == c.msgs + [ReplyMsg(Frame(RESPONSE, ResponseText(id, TailOf(env.outcome))))])
  {
    hide Handle, HandleFrame, Perform, Announce, Kept, ClientOk, UpToDate, LastEvent, Hears, AllOk, ProcessFrame, LinkOk,
         Answers, GoodHelloFrame, KnownId, FD.Apply, ResponseText, TailOf;
    var c := sv.clients[i];
    MemberKept(sv, i);
    Handling(c, sv.sequencer.generation, sv.log);
    HandledBy(c);
    HandledSession(c);
    var (d, h) := Handle(c);
    ProcessAlone(sv, i, env);
    PerformKeeps(d, h.action, sv.sequencer, sv.log, env);
    PerformSends(d, h.action, sv.sequencer, sv.log, env);
  }

  /** A snapshot request is answered with the daemon's snapshot and the last sequence. */
  lemma ServeSnapshots(sv: Server, i: nat, env: Env, id: nat)
    requires Inv(sv) && i < |sv.clients| && Servable(sv.clients[i])
    requires HandleFrame(sv.clients[i].session, NextFrame(sv.clients[i])).1.action == SendAuthoritativeSnapshot(id)
    ensures var c, c' := sv.clients[i], ProcessFrame(sv, i, env).clients[i];
            var f := Frame(RESPONSE, ResponseText(id, SnapshotTail(sv.sequencer.generation, |sv.log|, env.snapshot)));
            && c'.dispatched == c.dispatched
            && (!c'.closed ==>
                  c'.msgs == c.msgs + [SnapshotMsg(f, |sv.log|, sv.log, env.snapshot, c.session.subscribed)])
  {
    hide Handle, HandleFrame, Perform, Announce, Kept, ClientOk, UpToDate, LastEvent, Hears, AllOk, ProcessFrame, LinkOk,
         Answers, GoodHelloFrame, KnownId, FD.Apply, ResponseText, SnapshotTail;
    var c := sv.clients[i];
    MemberKept(sv, i);
    Handling(c, sv.sequencer.generation, sv.log);
    HandledBy(c);
    HandledSession(c);
    var (d, h) := Handle(c);
    ProcessAlone(sv, i, env);
    PerformKeeps(d, h.action, sv.sequencer, sv.log, env);
    PerformSends(d, h.action, sv.sequencer, sv.log, env);
  }

  lemma PerformSends(d: Client, action: Action, sequencer: Sequencer, log: seq<Body>, env: Env)
    requires |log| == LastSequence(sequencer) && !d.closed
    ensures var e := Perform(d, action, sequencer, log, env);
            && (action.DispatchBusinessRequest? && !e.closed ==>
                  e.msgs == d.msgs + [ReplyMsg(Frame(RESPONSE, ResponseText(action.id, TailOf(env.outcome))))])
            && (action.SendAuthoritativeSnapshot? && !e.closed ==>
                  var f := Frame(RESPONSE, ResponseText(action.id, SnapshotTail(sequencer.generation, |log|, env.snapshot)));
                  e.msgs == d.msgs + [SnapshotMsg(f, |log|, log, env.snapshot, d.session.subscribed)])
  {
    hide Send, EncodeSnapshot, Respond, TailOf, ResponseText, SnapshotTail;
    match action
    case SendAuthoritativeSnapshot(id) =>
      var r := EncodeSnapshot(id, sequencer.generation, |log|, env.snapshot);
      if r.Answer? {
        SnapshotEncodable(id, sequencer.generation, |log|, env.snapshot);
        SendIs(d, SnapshotMsg(r.frame, |log|, log, env.snapshot, d.session.subscribed));
      }
    case DispatchBusinessRequest(id, _, _) =>
      var r := Respond(id, TailOf(env.outcome));
      if r.Answer? {
        RespondEncodable(id, TailOf(env.outcome));
        SendIs(d.(dispatched := d.dispatched + [action]), ReplyMsg(r.frame));
      }
    case _ =>
  }

  /** A send of n bytes writes the next n unsent ones; a connection that is to close does
      so exactly when nothing is left. */
  lemma FlushMeans(c: Client, n: nat)
    requires LinkOk(c) && !c.closed && 0 < n <= OB.FrontSize(c.link.q)
    ensures var c' := Flush(c, n);
            && c'.link.written == c.link.written + OB.Unsent(c.link.q.frames)[..n]
            && OB.Unsent(c'.link.q.frames) == OB.Unsent(c.link.q.frames)[n..]
            && (c'.closed <==> c.closing && c'.link.q.frames == [])
  {
    OB.ConsumeDrops(c.link.q, n);
    hide OB.Unsent, W.Sane, OB.Consume;
  }
}
