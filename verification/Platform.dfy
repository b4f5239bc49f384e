/** The platform under the service: interfaces, default routes, addresses, the
    resolver file and the published DHCP leases, with the fallible ports that the
    control plane drives.

    Every fallible port call asks an oracle whether it succeeds; a failing call has
    no effect. Route calls are written to a log, so that statements about what the
    service set and withdrew do not mention the service's own records. */
module Platform {

  datatype Option<+T> = None | Some(value: T)

  /** The two managed interfaces (taken to have different names) and any other name. */
  datatype Iface = Eth | Wifi | Other(name: string)

  datatype RouteId = RouteId(gateway: string, metric: int)
  datatype Route = Route(iface: Iface, id: RouteId)
  datatype Address = Address(ip4: string, netmask4: string)
  datatype Resolver = Resolver(marked: bool, nameserver: string)

  datatype LeaseEvent = NoEvent | Bound | Renew | Deconfig
  datatype Lease = Lease(event: LeaseEvent, iface: string, generation: string,
                         ip4: string, netmask4: string, gateway4: string, dns4: string)
  {
    predicate Configured() { event == Bound || event == Renew }
  }

  const NO_LEASE := Lease(NoEvent, "", "", "", "", "", "")

  datatype Outcome = Success | Failure(message: string)
  type Oracle = nat -> Outcome

  datatype Call = SetRoute(route: Route, ok: bool) | ClearRoute(route: Route, ok: bool)

  /** `routes` lists default routes in /proc/net/route order; `calls` counts the
      fallible port calls made so far and indexes the oracle. */
  datatype Kernel = Kernel(routes: seq<Route>,
                           present: set<Iface>,
                           addresses: map<Iface, Address>,
                           resolver: Resolver,
                           leases: map<Iface, Lease>,
                           clients: set<Iface>,
                           log: seq<Call>,
                           calls: nat)

  function Without(routes: seq<Route>, r: Route): (rest: seq<Route>)
    ensures forall x :: x in rest <==> x in routes && x != r
  {
    if routes == [] then []
    else if routes[0] == r then Without(routes[1..], r)
    else [routes[0]] + Without(routes[1..], r)
  }

  /** The default route a snapshot reports for an interface: the last one listed. */
  function ShownRoute(routes: seq<Route>, iface: Iface): (shown: Option<RouteId>)
    ensures shown.Some? ==> Route(iface, shown.value) in routes
    ensures shown.None? ==> forall r :: r in routes ==> r.iface != iface
  {
    if routes == [] then None
    else if routes[|routes| - 1].iface == iface then Some(routes[|routes| - 1].id)
    else ShownRoute(routes[..|routes| - 1], iface)
  }

  /** The reported route is the last one listed for its interface. */
  lemma {:induction false} ShownIsLast(routes: seq<Route>, iface: Iface)
    ensures ShownRoute(routes, iface).Some? ==>
              exists i :: 0 <= i < |routes| && routes[i] == Route(iface, ShownRoute(routes, iface).value) &&
                          forall j :: i < j < |routes| ==> routes[j].iface != iface
  {
    if routes != [] && routes[|routes| - 1].iface != iface {
      var init := routes[..|routes| - 1];
      ShownIsLast(init, iface);
      if ShownRoute(init, iface).Some? {
        var i :| 0 <= i < |init| && init[i] == Route(iface, ShownRoute(init, iface).value) &&
                 forall j :: i < j < |init| ==> init[j].iface != iface;
        assert routes[i] == init[i] && forall j :: i < j < |routes| ==> routes[j].iface != iface;
      }
    } else if routes != [] {
      assert routes[|routes| - 1] == Route(iface, ShownRoute(routes, iface).value);
    }
  }

  predicate HasDefaultRoute(k: Kernel, iface: Iface) {
    ShownRoute(k.routes, iface).Some?
  }

  /** A default route that was set successfully is kept exactly once; an existing
      identical route is adopted without change, and no other route is touched. */
  function SetDefaultRoute(k: Kernel, o: Oracle, r: Route): (Outcome, Kernel) {
    match o(k.calls)
    case Failure(m) => (Failure(m), k.(calls := k.calls + 1, log := k.log + [SetRoute(r, false)]))
    case Success =>
      (Success, k.(calls := k.calls + 1,
                   log := k.log + [SetRoute(r, true)],
                   routes := if r in k.routes then k.routes else k.routes + [r]))
  }

  function ClearDefaultRoute(k: Kernel, o: Oracle, r: Route): (Outcome, Kernel) {
    match o(k.calls)
    case Failure(m) => (Failure(m), k.(calls := k.calls + 1, log := k.log + [ClearRoute(r, false)]))
    case Success =>
      (Success, k.(calls := k.calls + 1,
                   log := k.log + [ClearRoute(r, true)],
                   routes := Without(k.routes, r)))
  }

  function ApplyIpv4(k: Kernel, o: Oracle, iface: Iface, a: Address): (Outcome, Kernel) {
    match o(k.calls)
    case Failure(m) => (Failure(m), k.(calls := k.calls + 1))
    case Success => (Success, k.(calls := k.calls + 1, addresses := k.addresses[iface := a]))
  }

  function ClearIpv4(k: Kernel, o: Oracle, iface: Iface): (Outcome, Kernel) {
    match o(k.calls)
    case Failure(m) => (Failure(m), k.(calls := k.calls + 1))
    case Success => (Success, k.(calls := k.calls + 1, addresses := k.addresses - {iface}))
  }

  function SetDns(k: Kernel, o: Oracle, nameserver: string): (Outcome, Kernel) {
    match o(k.calls)
    case Failure(m) => (Failure(m), k.(calls := k.calls + 1))
    case Success => (Success, k.(calls := k.calls + 1, resolver := Resolver(true, nameserver)))
  }

  /** Truncates the resolver file only when it carries the service's marker. */
  function ClearDns(k: Kernel, o: Oracle): (Outcome, Kernel) {
    match o(k.calls)
    case Failure(m) => (Failure(m), k.(calls := k.calls + 1))
    case Success =>
      (Success, k.(calls := k.calls + 1,
                   resolver := if k.resolver.marked then Resolver(false, "") else k.resolver))
  }

  function StartClient(k: Kernel, o: Oracle, iface: Iface): (Outcome, Kernel) {
    match o(k.calls)
    case Failure(m) => (Failure(m), k.(calls := k.calls + 1))
    case Success => (Success, k.(calls := k.calls + 1, clients := k.clients + {iface}))
  }

  function StopClient(k: Kernel, iface: Iface): Kernel {
    k.(clients := k.clients - {iface})
  }

  function ClearLease(k: Kernel, iface: Iface): Kernel {
    k.(leases := k.leases - {iface})
  }

  function ReadLease(k: Kernel, o: Oracle, iface: Iface): (Outcome, Option<Lease>, Kernel) {
    match o(k.calls)
    case Failure(m) => (Failure(m), None, k.(calls := k.calls + 1))
    case Success =>
      (Success, if iface in k.leases then Some(k.leases[iface]) else None, k.(calls := k.calls + 1))
  }

  function Account(before: set<Route>, c: Call): set<Route> {
    if !c.ok then before
    else if c.SetRoute? then before + {c.route}
    else before - {c.route}
  }

  /** What the call log says the service set and did not withdraw again. */
  function Ledger(log: seq<Call>): set<Route> {
    if log == [] then {} else Account(Ledger(log[..|log| - 1]), log[|log| - 1])
  }

  /** No withdrawal, successful or not, ever named a route outside the ledger. */
  ghost predicate WithdrawsOwnOnly(log: seq<Call>) {
    forall i :: 0 <= i < |log| && log[i].ClearRoute? ==> log[i].route in Ledger(log[..i])
  }

  ghost predicate WithdrawalsSucceed(log: seq<Call>) {
    forall i :: 0 <= i < |log| && log[i].ClearRoute? ==> log[i].ok
  }

  lemma LedgerExtend(log: seq<Call>, c: Call)
    ensures Ledger(log + [c]) == Account(Ledger(log), c)
    ensures WithdrawsOwnOnly(log) && (c.ClearRoute? ==> c.route in Ledger(log)) ==> WithdrawsOwnOnly(log + [c])
  {
    assert (log + [c])[..|log|] == log;
    forall i | 0 <= i < |log| ensures (log + [c])[..i] == log[..i] {}
  }
}
