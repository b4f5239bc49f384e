/** Events end to end: a client reads frames from its connection, rebases on snapshot
    responses and feeds events to its tracker. What it knows is then a gap-free prefix
    of the server's event log. */
module EventDelivery {
  import opened Codec
  import opened Decimal
  import opened Requests
  import opened Sessions
  import opened Events
  import opened DispatchReader
  import opened Embedding
  import opened JsonObjects
  import opened DaemonTexts
  import opened Reactor
  import opened ReactorSafety
  import opened ReactorRuns
  import FD = FrameDecoding
  import W = Wire

  /** The client's tracker and the events its state accounts for: those a snapshot
      covers and those it accepted since. */
  datatype View = View(tracker: Tracker, known: seq<Body>)

  const BLIND := View(NO_BASELINE, [])

  function Number(f: Frame, key: string): nat {
    match JsonUint64(f.payload, key) case NotNumber => 0 case Number(v, _) => v
  }

  /** The event that a frame's text tells of. */
  function BodyOf(f: Frame): Body {
    var name := ReadString(f.payload, "event");
    Body(if name.Text? && name.value == NameOf(EventsSubscribed) then EventsSubscribed else StateChanged,
         match MemberText(f.payload, "payload") case NotFound => "" case Found(text) => text)
  }

  function Decide(v: View, f: Frame): (Decision, Tracker) {
    Observe(v.tracker, Number(f, GENERATION_FIELD), Number(f, SEQ_FIELD))
  }

  /** What a client does with a message; an event's name, numbers and payload come from the
      frame's text, and so do a snapshot's numbers. */
  function See(v: View, m: Msg): View {
    match m
    case ReplyMsg(_) => v
    case SnapshotMsg(f, _, covered, _, _) =>
      var (ok, t) := Rebase(v.tracker, Number(f, GENERATION_FIELD), Number(f, WATERMARK_FIELD));
      View(t, if ok then covered else [])
    case EventMsg(f, _, _) =>
      var (d, t) := Decide(v, f);
      View(t, match d case Accept => v.known + [BodyOf(f)] case IgnoreStale => v.known case RebaseRequired => [])
  }

  function ViewOf(msgs: seq<Msg>): View {
    if msgs == [] then BLIND else See(ViewOf(Init(msgs)), Last(msgs))
  }

  ghost predicate NoHole(v: View, generation: nat, log: seq<Body>) {
    if v.tracker.hasBaseline
    then v.tracker.generation == generation && v.tracker.last <= |log| && v.known == log[..v.tracker.last]
    else v == BLIND
  }

  lemma EventNumbers(m: Msg, generation: nat, log: seq<Body>)
    requires m.EventMsg? && Honest(m, generation, log) && generation <= UINT64_MAX && |log| <= UINT64_MAX
    ensures Number(m.frame, GENERATION_FIELD) == generation && Number(m.frame, SEQ_FIELD) == m.sequence
    ensures BodyOf(m.frame) == m.body
  {
    hide JsonUint64, EventText, MemberText, ReadString, NameOf, Whole, Sanitized;
    EventReadsBack(NameOf(m.body.kind), generation, m.sequence, m.body.payload);
    EventMembersRead(NameOf(m.body.kind), generation, m.sequence, m.body.payload);
    CleanNameKept(NameOf(m.body.kind));
    NamesDiffer();
    var t := m.frame.payload;
    assert t == EventText(NameOf(m.body.kind), generation, m.sequence, m.body.payload);
    assert ReadString(t, "event").value == NameOf(m.body.kind);
    assert MemberText(t, "payload") == Found(m.body.payload);
    var b := BodyOf(m.frame);
    assert b.payload == m.body.payload;
    match m.body.kind
    case EventsSubscribed => assert b.kind == EventsSubscribed;
    case StateChanged => assert b.kind == StateChanged;
  }

  lemma NamesDiffer()
    ensures NameOf(EventsSubscribed) != NameOf(StateChanged)
  {
    assert |NameOf(EventsSubscribed)| == 25 && |NameOf(StateChanged)| == 21;
  }

  lemma SeeKeeps(v: View, m: Msg, generation: nat, log: seq<Body>)
    requires NoHole(v, generation, log) && Honest(m, generation, log)
    requires 1 <= generation <= UINT64_MAX && |log| <= UINT64_MAX
    ensures NoHole(See(v, m), generation, log)
  {
    hide JsonUint64, EventText, BodyOf, Whole, SnapshotText;
    if m.EventMsg? {
      EventNumbers(m, generation, log);
      if Decide(v, m.frame).0 == Accept {
        assert log[..m.sequence] == log[..m.sequence - 1] + [log[m.sequence - 1]];
      }
    }
  }

  lemma {:induction false} ViewKeeps(msgs: seq<Msg>, generation: nat, log: seq<Body>)
    requires AllHonest(msgs, generation, log) && 1 <= generation <= UINT64_MAX && |log| <= UINT64_MAX
    ensures NoHole(ViewOf(msgs), generation, log)
  {
    hide Honest, See;
    if msgs != [] {
      ViewKeeps(Init(msgs), generation, log);
      SeeKeeps(ViewOf(Init(msgs)), Last(msgs), generation, log);
    }
  }

  /** What the peer of a connection decoded are the first frames the connection was
      given; and after any number of them, a client that has a baseline knows exactly
      the events up to its latest sequence, with none missing. */
  lemma NoHolesEndToEnd(generation: nat, steps: seq<Step>, c: Client, k: nat)
    requires generation <= UINT64_MAX && c in Run(generation, steps).clients
    requires k <= |FD.Emitted(c.link.peer)|
    ensures k <= |c.msgs| && FD.Emitted(c.link.peer)[..k] == Frames(c.msgs[..k])
    ensures var sv := Run(generation, steps);
            NoHole(ViewOf(c.msgs[..k]), sv.sequencer.generation, sv.log)
  {
    hide TalkOk, InboxOk, Ordered, Honest, W.Sane, UpToDate;
    EveryRunOk(generation, steps);
    var sv := Run(generation, steps);
    assert ClientOk(c, sv.sequencer.generation, sv.log);
    W.Delivered(c.link);
    var es, fs := FD.Emitted(c.link.peer), Frames(c.msgs);
    assert es == fs[..|es|];
    forall j | 0 <= j < k ensures es[j] == Frames(c.msgs[..k])[j] {
      assert es[j] == fs[j];
    }
    ViewKeeps(c.msgs[..k], sv.sequencer.generation, sv.log);
  }

  /** The snapshot that a client digs out of a response is the one the daemon gave, and it
      covers exactly the events up to its watermark. */
  lemma SnapshotDelivered(generation: nat, steps: seq<Step>, c: Client, k: nat)
    requires generation <= UINT64_MAX && c in Run(generation, steps).clients
    requires k < |c.msgs| && c.msgs[k].SnapshotMsg? && Whole(c.msgs[k].text, 1)
    ensures var m := c.msgs[k];
            && SnapshotText(m.frame.payload) == Found(m.text) && m.watermark <= |Run(generation, steps).log|
            && m.covered == Run(generation, steps).log[..m.watermark]
  {
    hide LinkOk, TalkOk, InboxOk, UpToDate, Ordered, JsonUint64, Whole, SnapshotText;
    EveryRunOk(generation, steps);
    var sv := Run(generation, steps);
    assert ClientOk(c, sv.sequencer.generation, sv.log);
    assert c.msgs[k] in c.msgs && Honest(c.msgs[k], sv.sequencer.generation, sv.log);
  }

  // ---------------------------------------------------------------- no event is lost

  /** Some snapshot was sent to this session after it had subscribed. */
  ghost predicate Synchronized(msgs: seq<Msg>) {
    msgs != [] && ((Last(msgs).SnapshotMsg? && Last(msgs).subscribed) || Synchronized(Init(msgs)))
  }

  lemma {:induction false} SynchronizedView(msgs: seq<Msg>, generation: nat, log: seq<Body>)
    requires Ordered(msgs) && AllHonest(msgs, generation, log) && Synchronized(msgs)
    requires 1 <= generation <= UINT64_MAX && |log| <= UINT64_MAX
    ensures ViewOf(msgs).tracker == Tracker(true, generation, LastEvent(msgs)) && LastEvent(msgs) != 0
  {
    hide JsonUint64, EventText, BodyOf, Whole, SnapshotText;
    var m := Last(msgs);
    if m.SnapshotMsg? && m.subscribed {
      assert m in msgs && Honest(m, generation, log);
    } else {
      SynchronizedView(Init(msgs), generation, log);
      if m.EventMsg? {
        EventNumbers(m, generation, log);
      }
    }
  }

  lemma {:induction false} SnapshotSynchronizes(msgs: seq<Msg>, j: nat)
    requires j < |msgs| && msgs[j].SnapshotMsg? && msgs[j].subscribed
    ensures Synchronized(msgs)
    decreases |msgs|
  {
    if j < |msgs| - 1 {
      SnapshotSynchronizes(Init(msgs), j);
    }
  }

  lemma {:induction false} OrderedPrefix(msgs: seq<Msg>, k: nat)
    requires k <= |msgs| && Ordered(msgs)
    ensures Ordered(msgs[..k])
    decreases |msgs|
  {
    if k < |msgs| {
      OrderedPrefix(Init(msgs), k);
      assert Init(msgs)[..k] == msgs[..k];
    } else {
      assert msgs[..k] == msgs;
    }
  }

  /** Once a session was sent a snapshot while subscribed, the client accepts every
      event that follows on it, in every run, whatever other clients do. */
  lemma LiveAfterSnapshot(generation: nat, steps: seq<Step>, c: Client, j: nat, k: nat)
    requires generation <= UINT64_MAX && c in Run(generation, steps).clients
    requires j < k < |c.msgs| && c.msgs[j].SnapshotMsg? && c.msgs[j].subscribed && c.msgs[k].EventMsg?
    ensures Decide(ViewOf(c.msgs[..k]), c.msgs[k].frame).0 == Accept
  {
    hide LinkOk, TalkOk, InboxOk, UpToDate, JsonUint64, Number, LastEvent, ViewOf;
    EveryRunOk(generation, steps);
    var sv := Run(generation, steps);
    assert ClientOk(c, sv.sequencer.generation, sv.log);
    AcceptsNext(c.msgs, j, k, sv.sequencer.generation, sv.log);
  }

  lemma HonestPrefix(msgs: seq<Msg>, k: nat, generation: nat, log: seq<Body>)
    requires k < |msgs| && AllHonest(msgs, generation, log)
    ensures AllHonest(msgs[..k], generation, log) && Honest(msgs[k], generation, log)
  {
    hide Honest;
    assert msgs[k] in msgs;
  }

  lemma NextEvent(msgs: seq<Msg>, k: nat)
    requires k < |msgs| && Ordered(msgs[..k + 1]) && msgs[k].EventMsg? && LastEvent(msgs[..k]) != 0
    ensures msgs[k].sequence == LastEvent(msgs[..k]) + 1
  {
    assert Init(msgs[..k + 1]) == msgs[..k] && Last(msgs[..k + 1]) == msgs[k];
  }

  lemma HonestSequence(m: Msg, generation: nat, log: seq<Body>)
    requires m.EventMsg? && Honest(m, generation, log)
    ensures m.sequence <= |log|
  {
  }

  lemma AcceptsNext(msgs: seq<Msg>, j: nat, k: nat, generation: nat, log: seq<Body>)
    requires Ordered(msgs) && AllHonest(msgs, generation, log)
    requires 1 <= generation <= UINT64_MAX && |log| <= UINT64_MAX
    requires j < k < |msgs| && msgs[j].SnapshotMsg? && msgs[j].subscribed && msgs[k].EventMsg?
    ensures Decide(ViewOf(msgs[..k]), msgs[k].frame).0 == Accept
  {
    hide Number, ViewOf, Ordered, AllHonest, Honest, Synchronized, LastEvent;
    HonestPrefix(msgs, k, generation, log);
    OrderedPrefix(msgs, k);
    OrderedPrefix(msgs, k + 1);
    SnapshotSynchronizes(msgs[..k], j);
    SynchronizedView(msgs[..k], generation, log);
    EventNumbers(msgs[k], generation, log);
    NextEvent(msgs, k);
    HonestSequence(msgs[k], generation, log);
  }
}
