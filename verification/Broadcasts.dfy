/** Events on their way out: what a state change and a first subscription tell every
    listener, as read from the frames themselves. */
module Broadcasts {
  import opened Codec
  import opened Decimal
  import opened JsonStrings
  import opened JsonValues
  import opened Embedding
  import opened JsonObjects
  import opened Requests
  import opened Sessions
  import opened Events
  import opened DaemonTexts
  import opened Reactor
  import opened ReactorSafety
  import opened ReactorRuns
  import FD = FrameDecoding
  import OB = Outbound
  import W = Wire

  // ---------------------------------------------------------------- the list of changes

  /** Names in quotes with commas between them. */
  function Joined(names: seq<string>, i: nat): string
    requires i < |names|
    decreases |names| - i
  {
    InQuotes(names[i]) + if i + 1 == |names| then "" else "," + Joined(names, i + 1)
  }

  function ListText(names: seq<string>): string { "[" + (if names == [] then "" else Joined(names, 0)) + "]" }

  ghost predicate ShortNames(names: seq<string>) {
    forall i :: 0 <= i < |names| ==> PlainText(names[i]) && |names[i]| <= 5
  }

  lemma NamesShort(c: Changes)
    ensures |ChangedNames(c)| <= 4 && ShortNames(ChangedNames(c))
  {
    hide PlainText;
    FourNames();
    var a, b := if c.eth then ["eth"] else [], if c.wifi then ["wifi"] else [];
    var d, e := if c.route then ["route"] else [], if c.dns then ["dns"] else [];
    ShortJoin(a, b);
    ShortJoin(a + b, d);
    ShortJoin(a + b + d, e);
  }

  lemma FourNames()
    ensures PlainText("eth") && PlainText("wifi") && PlainText("route") && PlainText("dns")
  {
  }

  lemma ShortJoin(a: seq<string>, b: seq<string>)
    requires ShortNames(a) && ShortNames(b)
    ensures ShortNames(a + b)
  {
    hide PlainText;
  }

  lemma NamePrinted(s: string)
    requires PlainText(s)
    ensures Render(Str(s), "") == InQuotes(s) && Quoted(s) == InQuotes(s)
  {
    PlainEscape(s);
  }

  lemma {:induction false} NamesPrinted(names: seq<string>, i: nat)
    requires i < |names| && ShortNames(names)
    ensures RenderFrom(Arr(Strings(names)), i, "") == Joined(names, i) + "]"
    ensures |Joined(names, i)| <= 8 * (|names| - i)
    decreases |names| - i
  {
    hide Render, InQuotes, PlainText;
    var v := Arr(Strings(names));
    QuotesLength(names[i]);
    NamePrinted(names[i]);
    assert Child(v, i) == Str(names[i]);
    if i + 1 < |names| { NamesPrinted(names, i + 1); }
  }

  lemma QuotesLength(s: string)
    ensures |InQuotes(s)| == |s| + 2
  {
  }

  lemma ListPrinted(names: seq<string>)
    requires ShortNames(names)
    ensures Render(Arr(Strings(names)), "") == ListText(names) && |ListText(names)| <= 8 * |names| + 2
  {
    hide RenderFrom;
    if names != [] { NamesPrinted(names, 0); }
  }

  lemma ChangesIsObject(c: Changes)
    ensures ChangesText(c) == ObjectText([Entry("changed", ListText(ChangedNames(c)))])
    ensures |ChangesText(c)| <= 60
  {
    hide ListText, ChangedNames, Strings, Quoted, Label;
    var names := ChangedNames(c);
    var inner := Arr(Strings(names));
    var v := Obj([Pair("changed", inner)]);
    NamesShort(c);
    ListPrinted(names);
    ChangedKey(inner);
    OneEntry(Entry("changed", ListText(names)));
    assert RenderFrom(v, 0, "") == Label("changed") + (ListText(names) + "}");
  }

  lemma ChangedKey(inner: Json)
    ensures KeyText(Obj([Pair("changed", inner)]), 0, "") == Label("changed") && |Label("changed")| == 10
    ensures PlainText("changed")
  {
    hide Quoted, PlainText;
    ChangedPlain();
    NamePrinted("changed");
    var v := Obj([Pair("changed", inner)]);
    assert KeyText(v, 0, "") == Quoted("changed") + ":";
  }

  lemma ChangedPlain()
    ensures PlainText("changed")
  {
  }

  lemma OneEntry(e: Entry)
    ensures ObjectText([e]) == "{" + (Label(e.key) + (e.text + "}"))
  {
    hide Label;
  }

  /** A client reads from the payload exactly the list of the parts that changed. */
  lemma ChangesRead(c: Changes)
    ensures MemberText(ChangesText(c), "changed") == Found(ListText(ChangedNames(c)))
  {
    hide ListText, ChangedNames, Strings, MemberText, ObjectText, ChangesText, Whole, PlainText, Render;
    var inner := Arr(Strings(ChangedNames(c)));
    var es := [Entry("changed", ListText(ChangedNames(c)))];
    ChangesIsObject(c);
    ChangedKey(inner);
    NamesShort(c);
    ListPrinted(ChangedNames(c));
    ListWhole(c);
    EntryFound(es, 0);
  }

  lemma ListWhole(c: Changes)
    ensures Whole(Render(Arr(Strings(ChangedNames(c))), ""), 0)
  {
    hide Render, ChangedNames;
    var inner := Arr(Strings(ChangedNames(c)));
    FlatHeight(inner, 0);
    PrintedScans(inner, "", 0);
  }

  // ---------------------------------------------------------------- what a frame tells

  /** A frame that reads as this event. */
  predicate Tells(f: Frame, name: string, generation: nat, n: nat, payload: string) {
    && f.kind == 5
    && ReadString(f.payload, "event").Text? && ReadString(f.payload, "event").value == name
    && MemberText(f.payload, "generation") == Found(Print(generation))
    && MemberText(f.payload, "seq") == Found(Print(n))
    && MemberText(f.payload, "payload") == Found(payload)
  }

  lemma FrameTells(generation: nat, n: nat, body: Body)
    requires Whole(body.payload, 0)
    ensures Tells(EventFrame(generation, n, body), NameOf(body.kind), generation, n, body.payload)
  {
    hide EventText, MemberText, ReadString, NameOf, Whole, Sanitized, Print;
    EventMembersRead(NameOf(body.kind), generation, n, body.payload);
    CleanNameKept(NameOf(body.kind));
  }

  lemma EventShort(generation: nat, n: nat, body: Body)
    requires generation <= UINT64_MAX && n <= UINT64_MAX && |body.payload| <= 60
    ensures |EventFrame(generation, n, body).payload| <= 300
  {
    hide Print;
    PrintUint64Length(generation);
    PrintUint64Length(n);
    PlainNameUnchanged(NameOf(body.kind));
  }

  /** What a broadcast does to one connection: a listener with room in its queue is sent a
      frame that tells the event, one without is closed, and the rest hear nothing. */
  ghost predicate Heard(c: Client, d: Client, name: string, generation: nat, n: nat, body: Body) {
    if !Hears(c) then d == c
    else if d.closed then d == c.(closed := true) && !HasRoom(c)
    else exists f :: d.msgs == c.msgs + [EventMsg(f, n, body)] && Tells(f, name, generation, n, body.payload)
  }

  predicate HasRoom(c: Client) { |c.link.q.frames| < 32 && c.link.q.queued + 12 + 300 <= 262144 }

  lemma DeliverHeard(c: Client, generation: nat, n: nat, body: Body)
    requires LinkOk(c) && Whole(body.payload, 0)
    requires Encodable(EventFrame(generation, n, body)) && |EventFrame(generation, n, body).payload| <= 300
    ensures Heard(c, Deliver(c, EventMsg(EventFrame(generation, n, body), n, body)), NameOf(body.kind), generation, n, body)
  {
    hide LinkOk, Tells, EventFrame, NameOf, Send, Whole;
    var f := EventFrame(generation, n, body);
    var m := EventMsg(f, n, body);
    FrameTells(generation, n, body);
    if Hears(c) {
      SendIs(c, m);
      if HasRoom(c) { SendAccepts(c, m); }
      assert !Send(c, m).closed ==> Send(c, m).msgs == c.msgs + [EventMsg(f, n, body)];
    }
  }

  /** A short event is refused exactly when every sequence was given out; else it is
      logged with the next sequence and every connection is dealt with. */
  lemma BroadcastReaches(sv: Server, body: Body)
    requires SequencerOk(sv) && AllOk(sv.clients, sv.sequencer.generation, sv.log)
    requires Whole(body.payload, 0) && |body.payload| <= 60
    ensures var (ok, r) := Broadcast(sv, body);
            if |sv.log| == UINT64_MAX then !ok && r == sv
            else && ok && r.log == sv.log + [body] && |r.clients| == |sv.clients|
                 && forall i :: 0 <= i < |sv.clients| ==>
                      Heard(sv.clients[i], r.clients[i], NameOf(body.kind), sv.sequencer.generation, |sv.log| + 1, body)
  {
    hide EncodeEvent, ClientOk, EventFrame, Deliver, Heard, NameOf, Whole;
    EventEncodes(sv.sequencer, body);
    var (e, next) := EncodeEvent(sv.sequencer, NameOf(body.kind), body.payload);
    EventShort(sv.sequencer.generation, sv.sequencer.next, body);
    SomethingWhole(body.payload);
    if e.Answer? {
      forall i | 0 <= i < |sv.clients|
        ensures Heard(sv.clients[i], Deliver(sv.clients[i], EventMsg(e.frame, sv.sequencer.next, body)), NameOf(body.kind),
                      sv.sequencer.generation, |sv.log| + 1, body)
      {
        LinkOf(sv.clients[i], sv.sequencer.generation, sv.log);
        DeliverHeard(sv.clients[i], sv.sequencer.generation, sv.sequencer.next, body);
      }
    }
  }

  lemma SomethingWhole(payload: string)
    requires Whole(payload, 0)
    ensures payload != ""
  {
  }

  lemma LinkOf(c: Client, generation: nat, log: seq<Body>)
    requires ClientOk(c, generation, log)
    ensures LinkOk(c)
  {
    hide LinkOk;
  }

  // ---------------------------------------------------------------- the two broadcasts

  /** A state change with nothing in it is not told; any other is told to every listener
      as "network.state.changed" under the next sequence, until sequences run out. */
  lemma StateChangeTold(sv: Server, changes: Changes)
    requires Inv(sv)
    ensures var r := Take(sv, StateChange(changes));
            var body := Body(StateChanged, ChangesText(changes));
            if !Any(changes) || |sv.log| == UINT64_MAX then r == sv
            else && r.log == sv.log + [body] && |r.clients| == |sv.clients|
                 && forall i :: 0 <= i < |sv.clients| ==>
                      Heard(sv.clients[i], r.clients[i], "network.state.changed", sv.sequencer.generation,
                            |sv.log| + 1, body)
  {
    hide SequencerOk, AllOk, ChangesText, Broadcast, Heard, Whole, Any, UpToDate;
    ChangesWhole(changes);
    ChangesIsObject(changes);
    BroadcastReaches(sv, Body(StateChanged, ChangesText(changes)));
  }

  lemma AnnounceIs(sv: Server, i: nat, d: Client)
    requires i < |sv.clients|
    ensures var (ok, r) := Broadcast(Put(sv, i, d.(emitted := d.emitted + 1)), Body(EventsSubscribed, "{}"));
            ok ==> Announce(sv, i, d) == r
  {
    hide Broadcast, Put;
  }

  /** The first subscription of a session is answered, and then told to every listener,
      the new one included, as "network.events.subscribed" under the next sequence. */
  lemma SubscriptionTold(sv: Server, i: nat, env: Env)
    requires Inv(sv) && i < |sv.clients| && Servable(sv.clients[i]) && |sv.log| < UINT64_MAX
    requires HandleFrame(sv.clients[i].session, NextFrame(sv.clients[i])).1.action.EmitEventsSubscribed?
    ensures var c, r := sv.clients[i], ProcessFrame(sv, i, env);
            var h := HandleFrame(c.session, NextFrame(c)).1;
            var name, generation, n, body := "network.events.subscribed", sv.sequencer.generation, |sv.log| + 1,
                                             Body(EventsSubscribed, "{}");
            && r.log == sv.log + [body] && |r.clients| == |sv.clients|
            && (forall j :: 0 <= j < |sv.clients| && j != i ==> Heard(sv.clients[j], r.clients[j], name, generation, n, body))
            && !r.clients[i].closed && h.reply.Answer?
            && exists f :: r.clients[i].msgs == c.msgs + [ReplyMsg(h.reply.frame)] + [EventMsg(f, n, body)]
                           && Tells(f, name, generation, n, "{}")
  {
    hide Handle, HandleFrame, Kept, ClientOk, UpToDate, LinkOk, AllOk, Answers, FD.Apply, KnownId, Broadcast, Announce, ProcessFrame,
         Heard, Tells, LastEvent, Whole, SequencerOk, GoodHelloFrame, SmallIdentity;
    var c := sv.clients[i];
    MemberKept(sv, i);
    HandledBy(c);
    ServeSubscribe(c, sv.sequencer.generation, sv.log);
    Handling(c, sv.sequencer.generation, sv.log);
    ProcessSubscribe(sv, i, env);
    var d := Handle(c).0;
    var e, body := d.(emitted := d.emitted + 1), Body(EventsSubscribed, "{}");
    AnnounceIs(sv, i, d);
    JoinersOk(sv, i, e);
    EmptyWhole();
    BroadcastReaches(Put(sv, i, e), body);
    var r := Announce(sv, i, d);
    HeardOpen(e, r.clients[i], "network.events.subscribed", sv.sequencer.generation, |sv.log| + 1, body);
  }

  lemma HeardOpen(c: Client, d: Client, name: string, generation: nat, n: nat, body: Body)
    requires Heard(c, d, name, generation, n, body) && Hears(c) && HasRoom(c)
    ensures !d.closed
    ensures exists f :: d.msgs == c.msgs + [EventMsg(f, n, body)] && Tells(f, name, generation, n, body.payload)
  {
    hide Tells;
  }
}
