/** The reactor as the program runs it: an object that owns the connections and updates
    them in loops, each loop proved against the step functions. */
module ReactorObject {
  import opened Codec
  import opened Sessions
  import opened Events
  import opened Reactor
  import opened ReactorSafety
  import opened ReactorRuns
  import FD = FrameDecoding
  import OB = Outbound
  import W = Wire

  const WRITE_BUDGET := 65536
  const FRAMES_PER_TICK := 4

  /** What a send call returned. */
  datatype SendResult = Sent(n: nat) | WouldBlock | Interrupted | Fault

  function Attempt(c: Client, budget: nat): nat
    requires OB.Valid(c.link.q)
  {
    if OB.FrontSize(c.link.q) < budget then OB.FrontSize(c.link.q) else budget
  }

  /** Writing until the queue is drained, the budget is spent or the socket blocks. A
      socket takes no more than it is offered. */
  function FlushTurn(c: Client, results: seq<SendResult>, budget: nat): Client
    decreases |results|
  {
    if c.closed then c
    else if c.link.q.frames == [] || budget == 0 then Settled(c)
    else if results == [] || !OB.Valid(c.link.q) then c
    else match results[0]
    case Interrupted => FlushTurn(c, results[1..], budget)
    case WouldBlock => c
    case Fault => Close(c)
    case Sent(n) =>
      if n == 0 then Close(c)
      else if n > Attempt(c, budget) then c
      else FlushTurn(Flush(c, n), results[1..], budget - n)
  }

  lemma {:induction false} FlushTurnKept(c: Client, results: seq<SendResult>, budget: nat, generation: nat, log: seq<Body>)
    requires Kept(c, generation, log)
    ensures Kept(FlushTurn(c, results, budget), generation, log)
    decreases |results|
  {
    hide ClientOk, UpToDate, Flush, OB.Valid, OB.FrontSize;
    CloseKeeps(c, generation, log);
    if !c.closed && c.link.q.frames != [] && budget != 0 && results != [] && OB.Valid(c.link.q) {
      match results[0]
      case Interrupted => FlushTurnKept(c, results[1..], budget, generation, log);
      case Sent(n) =>
        if 0 < n <= Attempt(c, budget) {
          FlushKept(c, n, generation, log);
          FlushTurnKept(Flush(c, n), results[1..], budget - n, generation, log);
        }
      case _ =>
    }
  }

  /** Serving up to `k` decoded frames, each followed by a flush. */
  function ServiceTurn(sv: Server, i: nat, envs: seq<(Env, seq<SendResult>)>, k: nat): (r: Server)
    requires i < |sv.clients|
    ensures |r.clients| == |sv.clients|
    decreases k
  {
    var c := sv.clients[i];
    if k == 0 || envs == [] || !Idle(c) || c.protocol != V1 || c.inbox.d.queue == [] then sv else
    var next := ProcessFrame(sv, i, envs[0].0);
    ProcessLength(sv, i, envs[0].0);
    if next.clients[i].closed then next
    else ServiceTurn(Put(next, i, FlushTurn(next.clients[i], envs[0].1, WRITE_BUDGET)), i, envs[1..], k - 1)
  }

  lemma ProcessLength(sv: Server, i: nat, env: Env)
    requires i < |sv.clients|
    ensures |ProcessFrame(sv, i, env).clients| == |sv.clients|
  {
    hide Handle, Perform, Announce;
    var c := sv.clients[i];
    if c.protocol == V1 && c.inbox.d.queue != [] && !c.closed {
      AnnounceLength(sv, i, Handle(c).0);
    }
  }

  /** A whole service turn keeps the invariant. */
  lemma {:induction false} ServiceTurnOk(sv: Server, i: nat, envs: seq<(Env, seq<SendResult>)>, k: nat)
    requires Inv(sv) && i < |sv.clients|
    ensures Inv(ServiceTurn(sv, i, envs, k))
    decreases k
  {
    hide Inv, ProcessFrame, FlushTurn, Kept, Idle;
    var c := sv.clients[i];
    if k != 0 && envs != [] && Idle(c) && c.protocol == V1 && c.inbox.d.queue != [] {
      var next := ProcessFrame(sv, i, envs[0].0);
      ProcessLength(sv, i, envs[0].0);
      ServeOk(sv, i, envs[0].0);
      if !next.clients[i].closed {
        var flushed := FlushTurn(next.clients[i], envs[0].1, WRITE_BUDGET);
        MemberKept(next, i);
        FlushTurnKept(next.clients[i], envs[0].1, WRITE_BUDGET, next.sequencer.generation, next.log);
        PutKeeps(next, i, flushed);
        ServiceTurnOk(Put(next, i, flushed), i, envs[1..], k - 1);
      }
    }
  }

  class IpcReactor {
    var sequencer: Sequencer
    var sessions: nat
    var log: seq<Body>
    var clients: seq<Client>

    function View(): Server
      reads this
    {
      Server(sequencer, sessions, log, clients)
    }

    constructor (generation: nat)
      ensures View() == Boot(generation)
    {
      sequencer := Sequencer(if generation == 0 then 1 else generation, 1);
      sessions, log, clients := 1, [], [];
    }

    method BroadcastEvent(body: Body) returns (ok: bool)
      modifies this
      ensures (ok, View()) == Broadcast(old(View()), body)
    {
      hide EncodeEvent, Deliver;
      var (event, next) := EncodeEvent(sequencer, NameOf(body.kind), body.payload);
      if event.Silent? { return false; }
      var m := EventMsg(event.frame, sequencer.next, body);
      sequencer, log := next, log + [body];
      var i := 0;
      while i < |clients|
        invariant 0 <= i <= |clients| == |old(clients)|
        invariant forall j :: 0 <= j < i ==> clients[j] == Deliver(old(clients)[j], m)
        invariant forall j :: i <= j < |clients| ==> clients[j] == old(clients)[j]
        invariant sequencer == next && log == old(log) + [body] && sessions == old(sessions)
      {
        clients := clients[i := Deliver(clients[i], m)];
        i := i + 1;
      }
      assert clients == DeliverAll(old(clients), m);
      return true;
    }

    /** Erases closed connections, keeping the order of the others. */
    method CleanupClients()
      modifies this`clients
      ensures View() == old(View()).(clients := Open(old(clients)))
    {
      hide Open;
      var kept: seq<Client>, i := [], 0;
      assert clients[0..] == clients && kept + Open(clients) == Open(clients);
      while i < |clients|
        invariant 0 <= i <= |clients| && clients == old(clients)
        invariant kept + Open(clients[i..]) == Open(clients)
      {
        OpenStep(clients, i, kept);
        if !clients[i].closed { kept := kept + [clients[i]]; }
        i := i + 1;
      }
      OpenNone(clients[i..]);
      assert kept + [] == kept;
      clients := kept;
    }

    method FlushClient(i: nat, results: seq<SendResult>)
      requires i < |clients|
      modifies this`clients
      ensures View() == Put(old(View()), i, FlushTurn(old(clients)[i], results, WRITE_BUDGET))
    {
      hide Flush, OB.Valid, OB.FrontSize;
      var c: Client, budget: nat, k: nat := clients[i], WRITE_BUDGET, 0;
      ghost var whole := FlushTurn(c, results, budget);
      while true
        invariant k <= |results| && clients == old(clients)
        invariant FlushTurn(c, results[k..], budget) == whole
        decreases |results| - k
      {
        if c.closed { break; }
        if c.link.q.frames == [] || budget == 0 { c := Settled(c); break; }
        if k == |results| || !OB.Valid(c.link.q) { break; }
        assert results[k..][1..] == results[k + 1..];
        var r := results[k];
        if r.Fault? || (r.Sent? && r.n == 0) { c := Close(c); break; }
        if r.WouldBlock? || (r.Sent? && r.n > Attempt(c, budget)) { break; }
        if r.Sent? {
          c, budget := Flush(c, r.n), budget - r.n;
        }
        k := k + 1;
      }
      clients := clients[i := c];
    }

    method AnnounceSubscriber(i: nat, d: Client)
      requires i < |clients|
      modifies this
      ensures View() == Announce(old(View()), i, d) && |clients| == |old(clients)|
    {
      hide Broadcast;
      AnnounceLength(View(), i, d);
      clients := clients[i := d.(emitted := d.emitted + 1)];
      assert View() == Put(old(View()), i, d.(emitted := d.emitted + 1));
      var ok := BroadcastEvent(Body(EventsSubscribed, "{}"));
      if !ok {
        clients := clients[i := Close(d)];
        assert clients == old(clients)[i := Close(d)];
      }
    }

    method ProcessV1Frame(i: nat, env: Env) returns (goOn: bool)
      requires i < |clients|
      modifies this
      ensures View() == ProcessFrame(old(View()), i, env) && |clients| == |old(clients)|
      ensures goOn ==> !clients[i].closed
      ensures Servable(old(clients)[i]) && !clients[i].closed ==> goOn
    {
      hide Handle, Perform, Broadcast, Announce;
      var c := clients[i];
      if c.protocol != V1 || c.inbox.d.queue == [] || c.closed { return false; }
      ProcessLength(View(), i, env);
      var (d, h) := Handle(c);
      if d.closed { clients := clients[i := d]; return false; }
      if h.action.EmitEventsSubscribed? {
        AnnounceSubscriber(i, d);
      } else {
        clients := clients[i := Perform(d, h.action, sequencer, log, env)];
      }
      clients := clients[i := MarkClosing(clients[i], h.closeAfterSend)];
      return !clients[i].closed;
    }

    /** Serves decoded frames one by one, as long as each reply drains. */
    method ServiceBuffered(i: nat, envs: seq<(Env, seq<SendResult>)>)
      requires i < |clients|
      modifies this
      ensures View() == ServiceTurn(old(View()), i, envs, FRAMES_PER_TICK)
    {
      hide ProcessFrame, FlushTurn;
      var k: nat := 0;
      while k < FRAMES_PER_TICK
        invariant k <= FRAMES_PER_TICK && k <= |envs| && i < |clients|
        invariant ServiceTurn(View(), i, envs[k..], FRAMES_PER_TICK - k) ==
                  ServiceTurn(old(View()), i, envs, FRAMES_PER_TICK)
      {
        if k == |envs| || !Idle(clients[i]) || clients[i].protocol != V1 || clients[i].inbox.d.queue == [] { break; }
        assert envs[k..][0] == envs[k] && envs[k..][1..] == envs[k + 1..];
        var goOn := ProcessV1Frame(i, envs[k].0);
        if !goOn { return; }
        FlushClient(i, envs[k].1);
        k := k + 1;
      }
    }
  }

  lemma OpenStep(clients: seq<Client>, i: nat, kept: seq<Client>)
    requires i < |clients|
    ensures var c := clients[i];
            kept + Open(clients[i..]) == (if c.closed then kept else kept + [c]) + Open(clients[i + 1..])
  {
    assert clients[i..][1..] == clients[i + 1..];
    var rest := Open(clients[i + 1..]);
    assert [] + rest == rest;
    assert kept + ([clients[i]] + rest) == kept + [clients[i]] + rest;
  }

  lemma OpenNone(clients: seq<Client>)
    requires clients == []
    ensures Open(clients) == []
  {
  }
}
