/** The Wi-Fi DHCP lifecycle: one link-event thread, any number of explicit stops and
    process checks, a state lock and an operation lock. Every block that runs under one
    lock is one step, and steps of different threads interleave freely. */
module WifiLifecycle {

  datatype Dhcp = Idle | Starting | Running | Failed
  datatype Reason = NoReason | StartFailed | ProcessExited

  predicate Active(d: Dhcp) { d == Starting || d == Running }

  /** Where the link-event thread stands: between events, or inside a handler. */
  datatype LinkPc =
    | Waiting
    | Reserved             // start reserved, operation lock wanted
    | StartLocked          // operation lock held, link not yet checked again
    | StartChecked         // about to call start
    | Started(ok: bool)    // start returned, result not yet published
    | StopWanted           // disconnected, operation lock wanted
    | StopLocked           // about to call stop

  /** A thread inside an explicit stop or a process check. */
  datatype WorkerPc =
    | WantsStop | HoldsStop
    | WantsCheck | HoldsCheck | SawDead

  datatype Holder = Nobody | LinkThread | Worker(id: nat)

  /** `running` is whether a DHCP client process exists, `last` the latest link event. */
  datatype System = System(connected: bool, dhcp: Dhcp, reason: Reason, requests: nat,
                           holder: Holder, link: LinkPc, workers: map<nat, WorkerPc>,
                           running: bool, last: LinkEvent)

  datatype LinkEvent = NoEvent | Up | Down

  const REQUESTS_LIMIT := 0x1_0000_0000

  /** A service that starts beside a client it owns adopts it as running. */
  function Boot(adopted: bool): System {
    System(false, if adopted then Running else Idle, NoReason, 0, Nobody, Waiting, map[], adopted, NoEvent)
  }

  datatype Step =
    | LinkUp
    | LinkDown
    | LinkGoes(ok: bool, survives: bool)
    | CallStop(id: nat)
    | CallCheck(id: nat)
    | WorkerGoes(id: nat)
    | ProcessDies

  // ---------------------------------------------------------------- link events

  function OnUp(s: System): System {
    var up := s.(connected := true, reason := NoReason, last := Up);
    if Active(s.dhcp) then up
    else up.(dhcp := Starting, requests := (s.requests + 1) % REQUESTS_LIMIT, link := Reserved)
  }

  function OnDown(s: System): System {
    s.(connected := false, dhcp := Idle, reason := NoReason, last := Down,
       link := if Active(s.dhcp) then StopWanted else Waiting)
  }

  /** Starting ends with a fresh client; a failed start leaves the old one or none. */
  function StartClient(s: System, ok: bool, survives: bool): System {
    s.(link := Started(ok), running := ok || (s.running && survives))
  }

  function Publish(s: System, ok: bool): System {
    var free := s.(holder := Nobody, link := Waiting);
    if !ok then free.(dhcp := Failed, reason := StartFailed)
    else free.(dhcp := if s.connected then Running else Idle)
  }

  function LinkStep(s: System, ok: bool, survives: bool): System {
    match s.link
    case Waiting => s
    case Reserved => if s.holder == Nobody then s.(holder := LinkThread, link := StartLocked) else s
    case StartLocked =>
      if s.connected then s.(link := StartChecked)
      else s.(holder := Nobody, link := Waiting, dhcp := Idle)
    case StartChecked => StartClient(s, ok, survives)
    case Started(result) => Publish(s, result)
    case StopWanted => if s.holder == Nobody then s.(holder := LinkThread, link := StopLocked) else s
    case StopLocked => s.(holder := Nobody, link := Waiting, running := false)
  }

  // ---------------------------------------------------------------- workers

  function Without(m: map<nat, WorkerPc>, id: nat): map<nat, WorkerPc> { map k | k in m && k != id :: m[k] }

  function BeginStop(s: System, id: nat): System {
    s.(dhcp := Idle, reason := NoReason,
       workers := if Active(s.dhcp) then s.workers[id := WantsStop] else s.workers)
  }

  function BeginCheck(s: System, id: nat): System {
    if s.dhcp != Running then s else s.(workers := s.workers[id := WantsCheck])
  }

  function WorkerStep(s: System, id: nat): System
    requires id in s.workers
  {
    match s.workers[id]
    case WantsStop => if s.holder == Nobody then s.(holder := Worker(id), workers := s.workers[id := HoldsStop]) else s
    case HoldsStop => s.(holder := Nobody, running := false, workers := Without(s.workers, id))
    case WantsCheck => if s.holder == Nobody then s.(holder := Worker(id), workers := s.workers[id := HoldsCheck]) else s
    case HoldsCheck =>
      if s.running then s.(holder := Nobody, workers := Without(s.workers, id))
      else s.(workers := s.workers[id := SawDead])
    case SawDead =>
      var free := s.(holder := Nobody, workers := Without(s.workers, id));
      if s.dhcp != Running then free else free.(dhcp := Failed, reason := ProcessExited)
  }

  function Take(s: System, step: Step): System {
    match step
    case LinkUp => if s.link == Waiting then OnUp(s) else s
    case LinkDown => if s.link == Waiting then OnDown(s) else s
    case LinkGoes(ok, survives) => LinkStep(s, ok, survives)
    case CallStop(id) => if id in s.workers then s else BeginStop(s, id)
    case CallCheck(id) => if id in s.workers then s else BeginCheck(s, id)
    case WorkerGoes(id) => if id in s.workers then WorkerStep(s, id) else s
    case ProcessDies => s.(running := false)
  }

  function Run(adopted: bool, steps: seq<Step>): System {
    if steps == [] then Boot(adopted) else Take(Run(adopted, steps[..|steps| - 1]), steps[|steps| - 1])
  }

  // ---------------------------------------------------------------- the invariant

  predicate WantsToStop(w: WorkerPc) { w == WantsStop || w == HoldsStop }

  /** Someone is bound to stop the client. */
  ghost predicate StopPending(s: System) {
    s.link == StopWanted || s.link == StopLocked || exists id :: id in s.workers && WantsToStop(s.workers[id])
  }

  predicate LinkHolds(pc: LinkPc) { pc.StartLocked? || pc.StartChecked? || pc.Started? || pc.StopLocked? }
  predicate WorkerHolds(w: WorkerPc) { w == HoldsStop || w == HoldsCheck || w == SawDead }

  /** The operation lock has one holder, and that thread knows. */
  ghost predicate LockOk(s: System) {
    && (LinkHolds(s.link) <==> s.holder == LinkThread)
    && (forall id :: id in s.workers ==> (WorkerHolds(s.workers[id]) <==> s.holder == Worker(id)))
    && (s.holder.Worker? ==> s.holder.id in s.workers)
  }

  predicate StartAhead(pc: LinkPc) { pc.Reserved? || pc.StartLocked? || pc.StartChecked? }

  /** A client that runs is accounted for: the state is active, a stop is pending, or its
      start was not published yet. Before a reserved start has happened, and after a
      failed one, only a pending stop accounts for it. */
  ghost predicate Accounted(s: System) {
    && (s.running ==> Active(s.dhcp) || StopPending(s) || s.link == Started(true))
    && (s.running && (StartAhead(s.link) || s.link == Started(false)) ==> StopPending(s))
  }

  ghost predicate Inv(s: System) {
    && LockOk(s) && Accounted(s)
    && (forall id :: id in s.workers && s.workers[id] == SawDead ==> !s.running)
    && (StartAhead(s.link) || s.link.Started? ==> s.connected && s.last == Up)
    && (s.last == Down ==> !s.connected && !Active(s.dhcp))
  }

  lemma LinkKeeps(s: System, ok: bool, survives: bool)
    requires Inv(s)
    ensures Inv(LinkStep(s, ok, survives))
  {
    var r := LinkStep(s, ok, survives);
    assert r.workers == s.workers;
    LinkLock(s, ok, survives);
    hide LockOk;
    if exists id :: id in s.workers && WantsToStop(s.workers[id]) {
      assert StopPending(r);
    }
  }

  lemma LinkLock(s: System, ok: bool, survives: bool)
    requires LockOk(s)
    ensures LockOk(LinkStep(s, ok, survives))
  {
  }

  lemma UpKeeps(s: System)
    requires Inv(s) && s.link == Waiting
    ensures Inv(OnUp(s))
  {
    var r := OnUp(s);
    if StopPending(s) {
      var id :| id in s.workers && WantsToStop(s.workers[id]);
      assert id in r.workers && WantsToStop(r.workers[id]);
    }
  }

  lemma DownKeeps(s: System)
    requires Inv(s) && s.link == Waiting
    ensures Inv(OnDown(s))
  {
    var r := OnDown(s);
    if StopPending(s) {
      var id :| id in s.workers && WantsToStop(s.workers[id]);
      assert id in r.workers && WantsToStop(r.workers[id]);
    }
  }

  lemma CallKeeps(s: System, id: nat)
    requires Inv(s) && id !in s.workers
    ensures Inv(BeginStop(s, id)) && Inv(BeginCheck(s, id))
  {
    if StopPending(s) && s.link != StopWanted && s.link != StopLocked {
      var k :| k in s.workers && WantsToStop(s.workers[k]);
      assert k in BeginStop(s, id).workers && WantsToStop(BeginStop(s, id).workers[k]);
      assert k in BeginCheck(s, id).workers && WantsToStop(BeginCheck(s, id).workers[k]);
    }
    if Active(s.dhcp) {
      assert id in BeginStop(s, id).workers && WantsToStop(BeginStop(s, id).workers[id]);
    }
  }

  lemma WorkerKeeps(s: System, id: nat)
    requires Inv(s) && id in s.workers
    ensures Inv(WorkerStep(s, id))
  {
    WorkerLock(s, id);
    hide LockOk;
    var r := WorkerStep(s, id);
    if StopPending(s) && s.link != StopWanted && s.link != StopLocked && r.running {
      var k :| k in s.workers && WantsToStop(s.workers[k]);
      assert k in r.workers && WantsToStop(r.workers[k]);
    }
  }

  lemma WorkerLock(s: System, id: nat)
    requires LockOk(s) && id in s.workers
    ensures LockOk(WorkerStep(s, id))
    ensures WorkerHolds(s.workers[id]) ==> forall k :: k in s.workers && k != id ==> !WorkerHolds(s.workers[k])
    ensures WorkerHolds(s.workers[id]) ==> !LinkHolds(s.link)
  {
  }

  lemma StepKeeps(s: System, step: Step)
    requires Inv(s)
    ensures Inv(Take(s, step))
  {
    hide OnUp, OnDown, LinkStep, BeginStop, BeginCheck, WorkerStep;
    match step
    case LinkUp => if s.link == Waiting { UpKeeps(s); }
    case LinkDown => if s.link == Waiting { DownKeeps(s); }
    case LinkGoes(ok, survives) => LinkKeeps(s, ok, survives);
    case CallStop(id) => if id !in s.workers { CallKeeps(s, id); }
    case CallCheck(id) => if id !in s.workers { CallKeeps(s, id); }
    case WorkerGoes(id) => if id in s.workers { WorkerKeeps(s, id); }
    case ProcessDies =>
  }

  lemma {:induction false} EveryRunAccounted(adopted: bool, steps: seq<Step>)
    ensures Inv(Run(adopted, steps))
  {
    if steps != [] {
      hide Inv, Take;
      EveryRunAccounted(adopted, steps[..|steps| - 1]);
      StepKeeps(Run(adopted, steps[..|steps| - 1]), steps[|steps| - 1]);
    }
  }

  /** Whatever interleaving led here: once the latest link event was a disconnect and no
      thread is inside a handler, a stop or a check, no DHCP client is left running. */
  lemma NoLeakedClient(adopted: bool, steps: seq<Step>)
    requires var s := Run(adopted, steps); s.last == Down && s.link == Waiting && s.workers == map[]
    ensures !Run(adopted, steps).running
  {
    EveryRunAccounted(adopted, steps);
  }

  /** The same before any link event: an adopted client is the only one that may run. */
  lemma OnlyActiveRuns(adopted: bool, steps: seq<Step>)
    requires var s := Run(adopted, steps); s.link == Waiting && s.workers == map[]
    ensures Run(adopted, steps).running ==> Active(Run(adopted, steps).dhcp)
  {
    EveryRunAccounted(adopted, steps);
  }

  /** Threads in flight never block each other for good: one of them can always move. */
  lemma NeverStuck(s: System)
    requires Inv(s) && (s.link != Waiting || s.workers != map[])
    ensures Take(s, LinkGoes(true, true)) != s || exists id :: id in s.workers && Take(s, WorkerGoes(id)) != s
  {
    if s.holder.Worker? {
      assert Take(s, WorkerGoes(s.holder.id)) != s;
    } else if s.link == Waiting {
      var id :| id in s.workers;
      assert Take(s, WorkerGoes(id)).holder == Worker(id);
    }
  }

  // ---------------------------------------------------------------- handlers alone

  /** A handler that nothing interrupts: at most four blocks after the first. */
  function LinkRuns(s: System, ok: bool, survives: bool): System {
    LinkStep(LinkStep(LinkStep(LinkStep(s, ok, survives), ok, survives), ok, survives), ok, survives)
  }

  /** A stop or a check that nothing interrupts: at most three blocks after the first. */
  function WorkerRuns(s: System, id: nat): System {
    var one := if id in s.workers then WorkerStep(s, id) else s;
    var two := if id in one.workers then WorkerStep(one, id) else one;
    if id in two.workers then WorkerStep(two, id) else two
  }

  // ---------------------------------------------------------------- what a handler is for

  /** A connect that finds no lifecycle in progress counts a request, starts the client
      and publishes the outcome; one that finds an active lifecycle starts nothing. */
  lemma ConnectStarts(s: System, ok: bool, survives: bool)
    requires s.link == Waiting && s.holder == Nobody
    ensures var r := LinkRuns(OnUp(s), ok, survives);
            && r.link == Waiting && r.holder == Nobody && r.workers == s.workers && r.connected && r.last == Up
            && (Active(s.dhcp) ==> r.dhcp == s.dhcp && r.running == s.running && r.requests == s.requests)
            && (!Active(s.dhcp) ==> r.requests == (s.requests + 1) % 0x1_0000_0000)
            && (!Active(s.dhcp) && ok ==> r.dhcp == Running && r.running && r.reason == NoReason)
            && (!Active(s.dhcp) && !ok ==> r.dhcp == Failed && r.reason == StartFailed
                                           && r.running == (s.running && survives))
  {
    var one := LinkStep(OnUp(s), ok, survives);
    if !Active(s.dhcp) {
      assert one.link == StartLocked;
      var two := LinkStep(one, ok, survives);
      assert two.link == StartChecked;
      var three := LinkStep(two, ok, survives);
      assert three.link == Started(ok);
    }
  }

  /** A disconnect, run alone, leaves the lifecycle idle and stops the client of an active
      one; so does an explicit stop, which leaves the link alone. */
  lemma StopsAlone(s: System)
    requires s.link == Waiting && s.holder == Nobody && 0 !in s.workers
    ensures var down := LinkRuns(OnDown(s), true, true);
            && down.link == Waiting && !down.connected && down.last == Down && down.dhcp == Idle
            && down.reason == NoReason && down.requests == s.requests
            && down.running == (s.running && !Active(s.dhcp))
    ensures var stopped := WorkerRuns(BeginStop(s, 0), 0);
            && stopped.dhcp == Idle && stopped.connected == s.connected && 0 !in stopped.workers
            && stopped.reason == NoReason && stopped.requests == s.requests
            && stopped.running == (s.running && !Active(s.dhcp))
  {
    var one := LinkStep(OnDown(s), true, true);
    if Active(s.dhcp) {
      assert one.link == StopLocked;
      assert LinkStep(one, true, true).link == Waiting;
    }
  }

  /** A check, run alone, reports a lifecycle whose client is gone as failed, and changes
      nothing otherwise. */
  lemma CheckAlone(s: System)
    requires s.holder == Nobody && 0 !in s.workers
    ensures var r := WorkerRuns(BeginCheck(s, 0), 0);
            && (s.dhcp == Running && !s.running ==> r.dhcp == Failed && r.reason == ProcessExited)
            && (!(s.dhcp == Running && !s.running) ==> r.dhcp == s.dhcp && r.reason == s.reason)
            && r.running == s.running && r.connected == s.connected && r.holder == Nobody && 0 !in r.workers
            && r.requests == s.requests
  {
  }

  /** Steps that neither stop nor kill a client nor fail to start one. */
  predicate Peaceful(step: Step) {
    step.LinkUp? || (step.LinkGoes? && step.ok) || step.CallCheck? || step.WorkerGoes?
  }

  /** The link is up, nobody is about to stop, and the client is on its way or running. */
  ghost predicate GettingUp(s: System) {
    && s.connected && s.last == Up && !StopPending(s)
    && (StartAhead(s.link) ==> s.dhcp == Starting)
    && (s.link.Started? ==> s.link.ok && s.running && s.dhcp == Starting)
    && (s.link == Waiting ==> s.running && s.dhcp == Running)
  }

  lemma PeaceLink(s: System)
    requires Inv(s) && GettingUp(s)
    ensures forall survives :: GettingUp(LinkStep(s, true, survives))
    ensures s.link == Waiting ==> GettingUp(OnUp(s))
  {
    hide LockOk;
  }

  lemma PeaceWorker(s: System, id: nat)
    requires Inv(s) && GettingUp(s)
    ensures id !in s.workers ==> GettingUp(BeginCheck(s, id))
    ensures id in s.workers ==> GettingUp(WorkerStep(s, id))
  {
    if id in s.workers {
      assert !WantsToStop(s.workers[id]);
    }
  }

  lemma PeaceKeeps(s: System, step: Step)
    requires Inv(s) && GettingUp(s) && Peaceful(step)
    ensures GettingUp(Take(s, step))
  {
    hide LinkStep, OnUp, BeginCheck, WorkerStep, Inv, GettingUp;
    PeaceLink(s);
    match step
    case CallCheck(id) => PeaceWorker(s, id);
    case WorkerGoes(id) => PeaceWorker(s, id);
    case _ =>
  }

  lemma {:induction false} PeaceLasts(adopted: bool, before: seq<Step>, after: seq<Step>)
    requires GettingUp(Run(adopted, before)) && forall s :: s in after ==> Peaceful(s)
    ensures GettingUp(Run(adopted, before + after))
  {
    hide GettingUp, Take, Inv;
    if after == [] {
      assert before + after == before;
    } else {
      var init, last := after[..|after| - 1], after[|after| - 1];
      assert last in after && forall s :: s in init ==> s in after;
      PeaceLasts(adopted, before, init);
      EveryRunAccounted(adopted, before + init);
      assert (before + after)[..|before + after| - 1] == before + init;
      PeaceKeeps(Run(adopted, before + init), last);
    }
  }

  /** After a connect that found no stop pending, and no lifecycle or one whose client
      runs, as long as nothing stops or kills the client and no start fails: however the
      threads interleave, once nothing is in flight the client runs and is known to. */
  lemma ConnectSettles(adopted: bool, before: seq<Step>, after: seq<Step>)
    requires var s := Run(adopted, before);
             && s.link == Waiting && !StopPending(s) && (Active(s.dhcp) ==> s.dhcp == Running && s.running)
    requires forall step :: step in after ==> Peaceful(step)
    requires var e := Run(adopted, before + [LinkUp] + after); e.link == Waiting && e.workers == map[]
    ensures var e := Run(adopted, before + [LinkUp] + after); e.dhcp == Running && e.running
  {
    hide Inv;
    var s := Run(adopted, before);
    assert (before + [LinkUp])[..|before|] == before;
    var up := Run(adopted, before + [LinkUp]);
    assert up == OnUp(s);
    assert GettingUp(up);
    PeaceLasts(adopted, before + [LinkUp], after);
  }

  // ---------------------------------------------------------------- the object

  /** The manager with its callbacks' effects; each method is its handler, run alone, so
      that the link cannot change inside it. */
  class WifiManager {
    var connected: bool
    var dhcp: Dhcp
    var reason: Reason
    var requests: nat
    var running: bool
    var last: LinkEvent

    function View(): System
      reads this
    {
      System(connected, dhcp, reason, requests, Nobody, Waiting, map[], running, last)
    }

    constructor ()
      ensures View() == Boot(false)
    {
      connected, dhcp, reason, requests, running, last := false, Idle, NoReason, 0, false, NoEvent;
    }

    method AdoptRunning()
      modifies this
      ensures View() == old(View()).(dhcp := Running, reason := NoReason)
    {
      dhcp, reason := Running, NoReason;
    }

    method OnConnected(ok: bool, survives: bool)
      modifies this
      ensures View() == LinkRuns(OnUp(old(View())), ok, survives)
    {
      connected, reason, last := true, NoReason, Up;
      if Active(dhcp) { return; }
      dhcp := Starting;
      requests := (requests + 1) % REQUESTS_LIMIT;
      running := ok || (running && survives);
      if !ok {
        dhcp, reason := Failed, StartFailed;
        return;
      }
      dhcp := Running;
    }

    method OnDisconnected()
      modifies this
      ensures View() == LinkRuns(OnDown(old(View())), true, true)
    {
      var shouldStop := Active(dhcp);
      connected, dhcp, reason, last := false, Idle, NoReason, Down;
      if shouldStop { running := false; }
    }

    method StopDhcp()
      modifies this
      ensures View() == WorkerRuns(BeginStop(old(View()), 0), 0)
    {
      var shouldStop := Active(dhcp);
      dhcp, reason := Idle, NoReason;
      if shouldStop { running := false; }
    }

    method ReconcileProcess() returns (changed: bool)
      modifies this
      ensures View() == WorkerRuns(BeginCheck(old(View()), 0), 0)
      ensures changed <==> View() != old(View())
    {
      if dhcp != Running { return false; }
      if running { return false; }
      dhcp, reason := Failed, ProcessExited;
      return true;
    }
  }
}
