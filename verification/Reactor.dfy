/** The server's reactor: connections with their decoders, sessions and outbound
    queues, one global event sequencer, and the steps a turn is made of. Sockets are
    byte counts, the daemon's answers are parameters. */
module Reactor {
  import opened Codec
  import opened Decimal
  import opened Sessions
  import opened Events
  import opened DaemonTexts
  import Requests
  import FD = FrameDecoding
  import OB = Outbound
  import W = Wire

  datatype EventKind = EventsSubscribed | StateChanged
  datatype Body = Body(kind: EventKind, payload: string)

  function NameOf(kind: EventKind): (name: string)
    ensures Requests.PlainText(name) && |name| <= 30 && name != ""
  {
    match kind case EventsSubscribed => "network.events.subscribed" case StateChanged => "network.state.changed"
  }

  /** A frame a queue accepted, with what it stands for: a snapshot remembers which
      events its content covers, its text, and whether the session was subscribed. */
  datatype Msg =
    | ReplyMsg(frame: Frame)
    | SnapshotMsg(frame: Frame, watermark: nat, covered: seq<Body>, text: string, subscribed: bool)
    | EventMsg(frame: Frame, sequence: nat, body: Body)

  datatype Protocol = Undecided | V0 | V1

  /** `received`, `msgs`, `emitted` (subscription events that went out for this session)
      and `dispatched` record history; the rest is the connection's state. */
  datatype Client = Client(protocol: Protocol, initial: string, session: Session, inbox: FD.History, link: W.Link,
                           closing: bool, closed: bool,
                           received: string, msgs: seq<Msg>, emitted: nat, dispatched: seq<Action>)

  /** `log` lists the body of every event that was given a sequence. */
  datatype Server = Server(sequencer: Sequencer, sessions: nat, log: seq<Body>, clients: seq<Client>)

  const MAX_CLIENTS := 8
  const MAX_REQUEST_BYTES := 65536

  function NewClient(): Client {
    Client(Undecided, "", Session(AwaitHello, false, 1, ""), FD.History(FD.EMPTY, []),
           W.Start(OB.DEFAULT_MAX_FRAMES, OB.DEFAULT_MAX_BYTES), false, false, "", [], 0, [])
  }

  function Boot(generation: nat): Server {
    Server(Sequencer(if generation == 0 then 1 else generation, 1), 1, [], [])
  }

  function Put(sv: Server, i: nat, c: Client): (r: Server)
    requires i < |sv.clients|
    ensures r.sequencer == sv.sequencer && r.log == sv.log && r.sessions == sv.sessions
    ensures |r.clients| == |sv.clients| && r.clients[i] == c
  {
    sv.(clients := sv.clients[i := c])
  }

  // ---------------------------------------------------------------- sending

  /** A frame the queue refuses closes the connection. */
  function Send(c: Client, m: Msg): Client
    requires Encodable(m.frame)
  {
    if OB.Enqueue(c.link.q, Bytes(m.frame)).0 == OB.Accepted
    then c.(link := W.Do(c.link, W.Offer(m.frame)), msgs := c.msgs + [m])
    else c.(closed := true)
  }

  predicate Hears(c: Client) { !c.closed && c.protocol == V1 && c.session.state == Ready && c.session.subscribed }

  function Deliver(c: Client, m: Msg): Client
    requires Encodable(m.frame)
  {
    if Hears(c) then Send(c, m) else c
  }

  function DeliverAll(clients: seq<Client>, m: Msg): (r: seq<Client>)
    requires Encodable(m.frame)
    ensures |r| == |clients| && forall i :: 0 <= i < |r| ==> r[i] == Deliver(clients[i], m)
  {
    seq(|clients|, i requires 0 <= i < |clients| => Deliver(clients[i], m))
  }

  function Broadcast(sv: Server, body: Body): (b: (bool, Server))
    ensures !b.0 ==> b.1 == sv
    ensures |b.1.clients| == |sv.clients|
  {
    var (r, sequencer) := EncodeEvent(sv.sequencer, NameOf(body.kind), body.payload);
    if r.Silent? then (false, sv) else
    var m := EventMsg(r.frame, sv.sequencer.next, body);
    (true, sv.(sequencer := sequencer, log := sv.log + [body], clients := DeliverAll(sv.clients, m)))
  }

  // ---------------------------------------------------------------- serving a frame

  /** What the daemon answers: a snapshot text, or the outcome of an operation. */
  datatype Env = Env(snapshot: string, outcome: Outcome)

  function SendOrClose(c: Client, r: Reply, m: Msg): Client
    requires r.Answer? ==> m.frame == r.frame && Encodable(r.frame)
  {
    if r.Silent? then c.(closed := true) else Send(c, m)
  }

  /** The part of serving a frame that concerns only the client itself. */
  function Perform(c: Client, action: Action, sequencer: Sequencer, log: seq<Body>, env: Env): Client {
    match action
    case SendAuthoritativeSnapshot(id) =>
      var last := LastSequence(sequencer);
      var r := EncodeSnapshot(id, sequencer.generation, last, env.snapshot);
      SendOrClose(c, r, SnapshotMsg(if r.Answer? then r.frame else Frame(0, ""), last, log, env.snapshot,
                                    c.session.subscribed))
    case DispatchBusinessRequest(id, _, _) =>
      var r := Respond(id, TailOf(env.outcome));
      SendOrClose(c.(dispatched := c.dispatched + [action]), r,
                  ReplyMsg(if r.Answer? then r.frame else Frame(0, "")))
    case _ => c
  }

  /** The frame is taken and the session handles it. */
  function Handle(c: Client): (Client, Handled)
    requires c.inbox.d.queue != []
  {
    var (session, h) := HandleFrame(c.session, c.inbox.d.queue[0]);
    var taken := c.(inbox := FD.Apply(c.inbox, FD.Taken), session := session);
    (if h.reply.Answer? then Send(taken, ReplyMsg(h.reply.frame)) else taken, h)
  }

  function Close(c: Client): Client { c.(closed := true) }

  function MarkClosing(c: Client, close: bool): Client { c.(closing := c.closing || close) }

  /** The first subscription of a session announces itself to every subscriber. */
  function Announce(sv: Server, i: nat, c: Client): Server
    requires i < |sv.clients|
  {
    var (ok, sv') := Broadcast(Put(sv, i, c.(emitted := c.emitted + 1)), Body(EventsSubscribed, "{}"));
    if ok then sv' else Put(sv, i, Close(c))
  }

  function ProcessFrame(sv: Server, i: nat, env: Env): Server
    requires i < |sv.clients|
  {
    var c := sv.clients[i];
    if c.protocol != V1 || c.inbox.d.queue == [] || c.closed then sv else
    var (d, h) := Handle(c);
    if d.closed then Put(sv, i, d)
    else if h.action.EmitEventsSubscribed? then
      var sv' := Announce(sv, i, d);
      Put(sv', i, MarkClosing(sv'.clients[i], h.closeAfterSend))
    else Put(sv, i, MarkClosing(Perform(d, h.action, sv.sequencer, sv.log, env), h.closeAfterSend))
  }

  // ---------------------------------------------------------------- bytes

  predicate Idle(c: Client) { !c.closed && !c.closing && c.link.q.frames == [] }

  function Feed(c: Client, data: string): Client {
    var inbox := FD.Apply(c.inbox, FD.Fed(data));
    c.(inbox := inbox, received := c.received + data, closed := c.closed || inbox.d.error != NoError)
  }

  function SessionName(generation: nat, number: nat): string { "ns-" + Print(generation) + "-" + Print(number) }

  /** The first four bytes decide the protocol. */
  function Commit(sv: Server, i: nat, initial: string): Server
    requires i < |sv.clients|
  {
    var c := sv.clients[i];
    if |initial| > MAX_REQUEST_BYTES then Put(sv, i, c.(initial := initial, closed := true))
    else if |initial| < |MAGIC| then Put(sv, i, c.(initial := initial))
    else if initial[..|MAGIC|] == MAGIC then
      var session := Session(AwaitHello, false, sv.sequencer.generation,
                             SessionName(sv.sequencer.generation, sv.sessions));
      var v1 := Feed(c.(protocol := V1, initial := "", session := session), initial);
      Put(sv, i, v1).(sessions := (sv.sessions + 1) % (UINT64_MAX + 1))
    else Put(sv, i, c.(protocol := V0, initial := ""))
  }

  function Receive(sv: Server, i: nat, data: string): Server
    requires i < |sv.clients|
  {
    var c := sv.clients[i];
    if !Idle(c) || data == "" then sv
    else match c.protocol
    case Undecided => Commit(sv, i, c.initial + data)
    case V0 => sv
    case V1 => Put(sv, i, Feed(c, data))
  }

  /** A drained connection that is to be closed is closed. */
  function Settled(c: Client): Client {
    if c.closing && c.link.q.frames == [] then Close(c) else c
  }

  function Flush(c: Client, n: nat): Client {
    if c.closed then c else Settled(c.(link := W.Do(c.link, W.Write(n))))
  }

  function Open(clients: seq<Client>): (r: seq<Client>)
    ensures forall c :: c in r <==> c in clients && !c.closed
    ensures |r| <= |clients|
  {
    if clients == [] then []
    else (if clients[0].closed then [] else [clients[0]]) + Open(clients[1..])
  }

  // ---------------------------------------------------------------- runs

  /** The pieces of a reactor turn, and the peer reading from its end of a connection.
      Hangup covers peers that leave, failed calls and expired deadlines. */
  datatype Step =
    | Connect
    | Receiving(i: nat, data: string)
    | Serving(i: nat, env: Env)
    | Flushing(i: nat, n: nat)
    | Hangup(i: nat)
    | Sweep
    | StateChange(changes: Changes)
    | PeerRead(i: nat, n: nat)
    | PeerTake(i: nat)

  predicate Within(sv: Server, s: Step) {
    match s
    case Receiving(i, _) => i < |sv.clients|
    case Serving(i, _) => i < |sv.clients|
    case Flushing(i, _) => i < |sv.clients|
    case Hangup(i) => i < |sv.clients|
    case PeerRead(i, _) => i < |sv.clients|
    case PeerTake(i) => i < |sv.clients|
    case _ => true
  }

  function Take(sv: Server, s: Step): Server {
    if !Within(sv, s) then sv else
    match s
    case Connect => if |sv.clients| >= MAX_CLIENTS then sv else sv.(clients := sv.clients + [NewClient()])
    case Receiving(i, data) => Receive(sv, i, data)
    case Serving(i, env) => if Idle(sv.clients[i]) then ProcessFrame(sv, i, env) else sv
    case Flushing(i, n) => Put(sv, i, Flush(sv.clients[i], n))
    case Hangup(i) => Put(sv, i, Close(sv.clients[i]))
    case Sweep => sv.(clients := Open(sv.clients))
    case StateChange(changes) => if Any(changes) then Broadcast(sv, Body(StateChanged, ChangesText(changes))).1 else sv
    case PeerRead(i, n) => Put(sv, i, PeerActs(sv.clients[i], W.Read(n)))
    case PeerTake(i) => Put(sv, i, PeerActs(sv.clients[i], W.TakeOne))
  }

  function PeerActs(c: Client, a: W.Act): Client { c.(link := W.Do(c.link, a)) }

  function Run(generation: nat, steps: seq<Step>): Server {
    if steps == [] then Boot(generation)
    else Take(Run(generation, steps[..|steps| - 1]), steps[|steps| - 1])
  }
}
