/** The route and DNS controller as functions on the pair of its own records and the
    platform. Each function is one `_locked` helper or one public call; the class in
    ControlPlaneObject.dfy runs the same steps in place and is proved equal to these. */
module ControlPlane {
  import opened Platform

  datatype Policy = EthernetPreferred | WifiPreferred | WifiOnly | ManualMetric

  datatype Link = Link(managed: bool, active: bool, lease: Lease, fingerprint: string)
  datatype StaticEthernet = StaticEthernet(active: bool, ip4: string, netmask4: string,
                                           gateway4: string, dns4: string, manualMetric: int)

  const IDLE_LINK := Link(false, false, NO_LEASE, "")
  const NO_STATIC := StaticEthernet(false, "", "", "", "", 10)

  datatype Records = Records(eth: Link, wifi: Link, fixed: StaticEthernet,
                             ethRoute: Option<RouteId>, wifiRoute: Option<RouteId>,
                             policy: Policy,
                             dnsKnown: bool, managedDns: bool, lastDns: string)

  const FRESH := Records(IDLE_LINK, IDLE_LINK, NO_STATIC, None, None, EthernetPreferred, false, false, "")

  datatype World = World(r: Records, k: Kernel)

  /** Error texts: a message handed up by a port, or one the controller supplies. */
  datatype Error = Port(message: string) | UnknownInterface | UnsupportedLease
                 | StaticRouteFailed | EthernetRouteFailed | WifiRouteFailed

  datatype Step = Done(w: World) | Fault(error: Error, w: World)

  function LinkOf(r: Records, iface: Iface): Link { if iface == Eth then r.eth else r.wifi }
  function WithLink(r: Records, iface: Iface, l: Link): Records {
    if iface == Eth then r.(eth := l) else r.(wifi := l)
  }
  function OwnedOf(r: Records, iface: Iface): Option<RouteId> {
    if iface == Eth then r.ethRoute else r.wifiRoute
  }
  function WithOwned(r: Records, iface: Iface, id: Option<RouteId>): Records {
    if iface == Eth then r.(ethRoute := id) else r.(wifiRoute := id)
  }

  predicate Known(iface: Iface) { iface == Eth || iface == Wifi }

  predicate RouteAllowed(p: Policy, iface: Iface) { !(p == WifiOnly && iface == Eth) }

  function RouteMetric(p: Policy, iface: Iface, manual: int): int {
    match p
    case WifiPreferred => if iface == Wifi then 10 else 20
    case WifiOnly => if iface == Wifi then 10 else 20
    case ManualMetric => if manual >= 0 then manual else if iface == Eth then 10 else 20
    case EthernetPreferred => if iface == Eth then 10 else 20
  }

  function EventDigit(e: LeaseEvent): string {
    match e case NoEvent => "0" case Bound => "1" case Renew => "2" case Deconfig => "3"
  }

  const SEPARATOR: char := 31 as char

  function Fingerprint(l: Lease): string {
    EventDigit(l.event) + [SEPARATOR] + l.iface + [SEPARATOR] + l.generation + [SEPARATOR] + l.ip4 +
    [SEPARATOR] + l.netmask4 + [SEPARATOR] + l.gateway4 + [SEPARATOR] + l.dns4
  }

  /** Route steps touch no record but the two owned routes, and no resolver. */
  predicate OnlyRoutes(w: World, v: World) {
    && v.r == w.r.(ethRoute := v.r.ethRoute, wifiRoute := v.r.wifiRoute)
    && v.k.resolver == w.k.resolver && v.k.leases == w.k.leases && v.k.present == w.k.present
    && w.k.calls <= v.k.calls
  }

  /** The policy stays, and under WifiOnly no Ethernet route is installed. */
  predicate Obeys(w: World, v: World) {
    && v.r.policy == w.r.policy
    && (w.r.policy == WifiOnly ==> v.r.ethRoute == w.r.ethRoute || v.r.ethRoute.None?)
    && w.k.calls <= v.k.calls
  }

  // ---------------------------------------------------------------- owned routes

  function ClearOwned(w: World, o: Oracle, iface: Iface): (s: Step)
    ensures OnlyRoutes(w, s.w) && Obeys(w, s.w)
  {
    match OwnedOf(w.r, iface)
    case None => Done(w)
    case Some(id) =>
      var (out, k) := ClearDefaultRoute(w.k, o, Route(iface, id));
      match out
      case Failure(m) => Fault(Port(m), World(w.r, k))
      case Success => Done(World(WithOwned(w.r, iface, None), k))
  }

  function EnsureOwned(w: World, o: Oracle, iface: Iface, gateway: string, metric: int): (s: Step)
    ensures OnlyRoutes(w, s.w)
    ensures RouteAllowed(w.r.policy, iface) ==> Obeys(w, s.w)
  {
    if gateway == "" then ClearOwned(w, o, iface) else
    var id := RouteId(gateway, metric);
    var s := if OwnedOf(w.r, iface).Some? && OwnedOf(w.r, iface) != Some(id)
             then ClearOwned(w, o, iface) else Done(w);
    if s.Fault? then s else
    var (out, k) := SetDefaultRoute(s.w.k, o, Route(iface, id));
    match out
    case Failure(m) => Fault(Port(m), World(s.w.r, k))
    case Success => Done(World(WithOwned(s.w.r, iface, Some(id)), k))
  }

  /** `if (error.empty()) error = ...`: names a failure the port left unnamed. */
  function Named(s: Step, name: Error): Step {
    if s.Fault? && s.error == Port("") then Fault(name, s.w) else s
  }

  function ApplyEthRoute(w: World, o: Oracle): (s: Step)
    ensures OnlyRoutes(w, s.w) && Obeys(w, s.w)
  {
    if w.r.fixed.active && RouteAllowed(w.r.policy, Eth) && w.r.fixed.gateway4 != "" then
      Named(EnsureOwned(w, o, Eth, w.r.fixed.gateway4,
                        RouteMetric(w.r.policy, Eth, w.r.fixed.manualMetric)), StaticRouteFailed)
    else if w.r.eth.active && RouteAllowed(w.r.policy, Eth) && w.r.eth.lease.gateway4 != "" then
      Named(EnsureOwned(w, o, Eth, w.r.eth.lease.gateway4, RouteMetric(w.r.policy, Eth, -1)),
            EthernetRouteFailed)
    else ClearOwned(w, o, Eth)
  }

  function ApplyWifiRoute(w: World, o: Oracle): (s: Step)
    ensures OnlyRoutes(w, s.w) && Obeys(w, s.w)
  {
    if w.r.wifi.active && RouteAllowed(w.r.policy, Wifi) && w.r.wifi.lease.gateway4 != "" then
      Named(EnsureOwned(w, o, Wifi, w.r.wifi.lease.gateway4, RouteMetric(w.r.policy, Wifi, -1)),
            WifiRouteFailed)
    else ClearOwned(w, o, Wifi)
  }

  function ApplyRoutes(w: World, o: Oracle): (s: Step)
    ensures OnlyRoutes(w, s.w) && Obeys(w, s.w)
  {
    var s := ApplyEthRoute(w, o);
    if s.Fault? then s else ApplyWifiRoute(s.w, o)
  }

  // ---------------------------------------------------------------- resolver

  predicate EthRouteWanted(r: Records) {
    RouteAllowed(r.policy, Eth) &&
    ((r.fixed.active && r.fixed.gateway4 != "") || (r.eth.active && r.eth.lease.gateway4 != ""))
  }

  predicate WifiRouteWanted(r: Records) {
    RouteAllowed(r.policy, Wifi) && r.wifi.active && r.wifi.lease.gateway4 != ""
  }

  function EthDns(r: Records): string { if r.fixed.active then r.fixed.dns4 else r.eth.lease.dns4 }
  function WifiDns(r: Records): string { r.wifi.lease.dns4 }

  /** Ethernet holds a default route that some other owner installed. */
  predicate PreserveExternal(r: Records, ethDefault: bool) {
    r.policy == EthernetPreferred && ethDefault && !EthRouteWanted(r)
  }

  /** The nameserver the policy selects; empty when it selects none. */
  function SelectedDns(r: Records, ethDefault: bool): string {
    var ethOk := EthRouteWanted(r) && EthDns(r) != "";
    var wifiOk := WifiRouteWanted(r) && WifiDns(r) != "";
    match r.policy
    case WifiPreferred => if wifiOk then WifiDns(r) else if ethOk then EthDns(r) else ""
    case WifiOnly => if wifiOk then WifiDns(r) else ""
    case ManualMetric =>
      if WifiRouteWanted(r) &&
         (!EthRouteWanted(r) || RouteMetric(r.policy, Wifi, -1) < RouteMetric(r.policy, Eth, r.fixed.manualMetric))
      then WifiDns(r) else if ethOk then EthDns(r) else ""
    case EthernetPreferred =>
      if ethOk then EthDns(r)
      else if !PreserveExternal(r, ethDefault) && wifiOk then WifiDns(r) else ""
  }

  function ReleaseDns(w: World, o: Oracle): Step {
    if !w.r.managedDns then Done(w) else
    var (out, k) := ClearDns(w.k, o);
    match out
    case Failure(m) => Fault(Port(m), World(w.r, k))
    case Success => Done(World(w.r.(managedDns := false, lastDns := ""), k))
  }

  /** The first pass of a process learns from the file's marker whether it owns it. */
  function LearnDns(w: World): World {
    if w.r.dnsKnown then w
    else w.(r := w.r.(dnsKnown := true, managedDns := w.k.resolver.marked,
                      lastDns := if w.k.resolver.marked then w.k.resolver.nameserver else ""))
  }

  function RecomputeDns(w0: World, o: Oracle): (s: Step)
    ensures s.w == World(w0.r.(dnsKnown := true, managedDns := s.w.r.managedDns, lastDns := s.w.r.lastDns),
                         w0.k.(resolver := s.w.k.resolver, calls := s.w.k.calls))
    ensures w0.k.calls <= s.w.k.calls
  {
    var w := LearnDns(w0);
    var ethDefault := HasDefaultRoute(w.k, Eth);
    var selected := SelectedDns(w.r, ethDefault);
    if PreserveExternal(w.r, ethDefault) || selected == "" then ReleaseDns(w, o)
    else if w.r.managedDns && selected == w.r.lastDns && w.k.resolver.nameserver == selected then Done(w)
    else
      var (out, k) := SetDns(w.k, o, selected);
      match out
      case Failure(m) => Fault(Port(m), World(w.r, k))
      case Success => Done(World(w.r.(managedDns := true, lastDns := selected), k))
  }

  // ---------------------------------------------------------------- lifecycles

  /** Stops the client and forgets lease, address and link state; a failure to clear
      the address is ignored. */
  function Quiesce(w: World, o: Oracle, iface: Iface): World {
    World(WithLink(w.r, iface, IDLE_LINK),
          ClearIpv4(ClearLease(StopClient(w.k, iface), iface), o, iface).1)
  }

  function Launch(w: World, o: Oracle, iface: Iface): Step {
    var (out, k) := StartClient(w.k, o, iface);
    match out
    case Failure(m) => Fault(Port(m), World(w.r, k))
    case Success => Done(World(WithLink(w.r, iface, LinkOf(w.r, iface).(managed := true)), k))
  }

  function StartDhcp(w: World, o: Oracle, iface: Iface): (s: Step)
    ensures Obeys(w, s.w)
  {
    if !Known(iface) then Fault(UnknownInterface, w) else
    var c := ClearOwned(w, o, iface);
    if c.Fault? then c else
    var q := Quiesce(c.w, o, iface);
    var d := RecomputeDns(if iface == Eth then q.(r := q.r.(fixed := NO_STATIC)) else q, o);
    if d.Fault? then d else Launch(d.w, o, iface)
  }

  /** Reports nothing: failures of its steps are ignored. */
  function StopDhcp(w: World, o: Oracle, iface: Iface): (v: World)
    ensures Obeys(w, v)
  {
    if !Known(iface) then w
    else RecomputeDns(Quiesce(ClearOwned(w, o, iface).w, o, iface), o).w
  }

  function ApplyStatic(w: World, o: Oracle, ip4: string, netmask4: string, gateway4: string,
                       dns4: string, manualMetric: int): (s: Step)
    ensures Obeys(w, s.w)
  {
    var s := ClearOwned(w, o, Eth);
    if s.Fault? then s else
    var k := ClearLease(StopClient(s.w.k, Eth), Eth);
    var r := s.w.r.(eth := IDLE_LINK, fixed := NO_STATIC);
    var (out, k') := ApplyIpv4(k, o, Eth, Address(ip4, netmask4));
    match out
    case Failure(m) => Fault(Port(m), World(r, k'))
    case Success =>
      var r' := r.(fixed := StaticEthernet(true, ip4, netmask4, gateway4, dns4, manualMetric));
      var a := ApplyRoutes(World(r', k'), o);
      if a.Fault? then a else RecomputeDns(a.w, o)
  }

  function Adopt(w: World, iface: Iface): Step {
    if !Known(iface) then Fault(UnknownInterface, w) else
    var r0 := WithOwned(WithLink(w.r, iface, IDLE_LINK.(managed := true)), iface, None);
    Done(w.(r := if iface == Eth then r0.(fixed := NO_STATIC) else r0))
  }

  // ---------------------------------------------------------------- reconciliation

  function ConsumeDeconfig(w: World, o: Oracle, iface: Iface, fact: Lease): (s: (Step, bool))
    ensures Obeys(w, s.0.w)
  {
    var s := ClearOwned(w, o, iface);
    if s.Fault? then (s, false) else
    var (out, k) := ClearIpv4(s.w.k, o, iface);
    match out
    case Failure(m) => (Fault(Port(m), World(s.w.r, k)), false)
    case Success =>
      var l := LinkOf(s.w.r, iface).(active := false, lease := fact, fingerprint := Fingerprint(fact));
      (Done(World(WithLink(s.w.r, iface, l), k)), true)
  }

  function ConsumeConfigured(w: World, o: Oracle, iface: Iface, fact: Lease): (s: (Step, bool))
    ensures Obeys(w, s.0.w)
  {
    var (out, k) := ApplyIpv4(w.k, o, iface, Address(fact.ip4, fact.netmask4));
    match out
    case Failure(m) => (Fault(Port(m), World(w.r, k)), false)
    case Success =>
      var s := if RouteAllowed(w.r.policy, iface) && fact.gateway4 != ""
               then EnsureOwned(World(w.r, k), o, iface, fact.gateway4, RouteMetric(w.r.policy, iface, -1))
               else ClearOwned(World(w.r, k), o, iface);
      if s.Fault? then (s, false) else
      var l := LinkOf(s.w.r, iface).(active := true, lease := fact, fingerprint := Fingerprint(fact));
      (Done(s.w.(r := WithLink(s.w.r, iface, l))), true)
  }

  /** Consumes a lease fact that differs from the last one consumed; the flag says
      whether the link changed. */
  function ReconcileLink(w: World, o: Oracle, iface: Iface): (s: (Step, bool))
    ensures Obeys(w, s.0.w)
  {
    if !LinkOf(w.r, iface).managed then (Done(w), false) else
    var (out, found, k) := ReadLease(w.k, o, iface);
    match out
    case Failure(m) => (Fault(Port(m), World(w.r, k)), false)
    case Success =>
      if found.None? || Fingerprint(found.value) == LinkOf(w.r, iface).fingerprint then (Done(World(w.r, k)), false)
      else if found.value.event == Deconfig then ConsumeDeconfig(World(w.r, k), o, iface, found.value)
      else if !found.value.Configured() then (Fault(UnsupportedLease, World(w.r, k)), false)
      else ConsumeConfigured(World(w.r, k), o, iface, found.value)
  }

  /** Brings address and route of one interface back to the facts it was given, as
      far as the snapshot `live` shows them missing. */
  function RepairIface(w: World, o: Oracle, live: Kernel, iface: Iface,
                       ip4: string, netmask4: string, gateway4: string, metric: int): (s: Step)
    ensures OnlyRoutes(w, s.w) && Obeys(w, s.w)
  {
    var a := Address(ip4, netmask4);
    var drifted := iface in live.present && ip4 != "" && netmask4 != "" &&
                   !(iface in live.addresses && live.addresses[iface] == a);
    var (out, k) := if drifted then ApplyIpv4(w.k, o, iface, a) else (Success, w.k);
    match out
    case Failure(m) => Fault(Port(m), World(w.r, k))
    case Success =>
      var w1 := World(w.r, k);
      if iface !in live.present || !RouteAllowed(w.r.policy, iface) || gateway4 == "" then Done(w1)
      else if OwnedOf(w.r, iface) == Some(RouteId(gateway4, metric)) &&
              ShownRoute(live.routes, iface) == Some(RouteId(gateway4, metric)) then Done(w1)
      else EnsureOwned(w1, o, iface, gateway4, metric)
  }

  function RepairEth(w: World, o: Oracle, live: Kernel): (s: Step)
    ensures OnlyRoutes(w, s.w) && Obeys(w, s.w)
  {
    var r := w.r;
    if r.fixed.active then
      RepairIface(w, o, live, Eth, r.fixed.ip4, r.fixed.netmask4, r.fixed.gateway4,
                  RouteMetric(r.policy, Eth, r.fixed.manualMetric))
    else if r.eth.active && r.eth.lease.Configured() then
      RepairIface(w, o, live, Eth, r.eth.lease.ip4, r.eth.lease.netmask4, r.eth.lease.gateway4,
                  RouteMetric(r.policy, Eth, -1))
    else Done(w)
  }

  function RepairWifi(w: World, o: Oracle, live: Kernel): (s: Step)
    ensures OnlyRoutes(w, s.w) && Obeys(w, s.w)
  {
    var r := w.r;
    if r.wifi.active && r.wifi.lease.Configured() then
      RepairIface(w, o, live, Wifi, r.wifi.lease.ip4, r.wifi.lease.netmask4, r.wifi.lease.gateway4,
                  RouteMetric(r.policy, Wifi, -1))
    else Done(w)
  }

  function Repair(w: World, o: Oracle): (s: Step)
    ensures OnlyRoutes(w, s.w) && Obeys(w, s.w)
  {
    var s := RepairEth(w, o, w.k);
    if s.Fault? then s else RepairWifi(s.w, o, w.k)
  }

  function Refresh(w: World, o: Oracle): (s: Step)
    ensures Obeys(w, s.w)
  {
    var s := Repair(w, o);
    if s.Fault? then s else RecomputeDns(s.w, o)
  }

  /** Full reconciliation: consume lease facts, repair drift, recompute DNS. */
  function Reconcile(w: World, o: Oracle): (s: Step)
    ensures Obeys(w, s.w)
  {
    var e := ReconcileLink(w, o, Eth).0;
    if e.Fault? then e else
    var i := ReconcileLink(e.w, o, Wifi).0;
    if i.Fault? then i else Refresh(i.w, o)
  }

  /** The reactor's cheap pass: DNS is recomputed only after a change. */
  function ReconcileChanged(w: World, o: Oracle): (s: (Step, bool))
    ensures Obeys(w, s.0.w)
  {
    var (e, ethChanged) := ReconcileLink(w, o, Eth);
    if e.Fault? then (e, false) else
    var (i, wifiChanged) := ReconcileLink(e.w, o, Wifi);
    if i.Fault? then (i, false) else
    var changed := ethChanged || wifiChanged || !i.w.r.dnsKnown;
    (if changed then RecomputeDns(i.w, o) else i, changed)
  }

  // ---------------------------------------------------------------- policy

  function Steer(w: World, o: Oracle): Step {
    var s := ApplyRoutes(w, o);
    if s.Fault? then s else RecomputeDns(s.w, o)
  }

  /** Restores the previous policy and re-drives it, ignoring further failures. */
  function RollBack(w: World, o: Oracle, previous: Policy): World {
    RecomputeDns(ApplyRoutes(w.(r := w.r.(policy := previous)), o).w, o).w
  }

  function SetPolicy(w: World, o: Oracle, p: Policy): Step {
    var s := Steer(w.(r := w.r.(policy := p)), o);
    if s.Fault? then Fault(s.error, RollBack(s.w, o, w.r.policy)) else s
  }

  // ---------------------------------------------------------------- runs

  /** A public call, or a change made to the platform by anything else. Other owners
      of the resolver file do not write this service's marker. */
  datatype Op =
    | OpStartDhcp(iface: Iface)
    | OpStopDhcp(iface: Iface)
    | OpStatic(ip4: string, netmask4: string, gateway4: string, dns4: string, metric: int)
    | OpReconcile
    | OpReconcileChanged
    | OpRefresh
    | OpPolicy(policy: Policy)
    | OpOutside(routes: seq<Route>, present: set<Iface>, addresses: map<Iface, Address>,
                nameserver: Option<string>, leases: map<Iface, Lease>, clients: set<Iface>)

  function Perform(w: World, o: Oracle, op: Op): World {
    match op
    case OpStartDhcp(i) => StartDhcp(w, o, i).w
    case OpStopDhcp(i) => StopDhcp(w, o, i)
    case OpStatic(ip4, netmask4, gateway4, dns4, metric) =>
      ApplyStatic(w, o, ip4, netmask4, gateway4, dns4, metric).w
    case OpReconcile => Reconcile(w, o).w
    case OpReconcileChanged => ReconcileChanged(w, o).0.w
    case OpRefresh => Refresh(w, o).w
    case OpPolicy(p) => SetPolicy(w, o, p).w
    case OpOutside(routes, present, addresses, nameserver, leases, clients) =>
      w.(k := w.k.(routes := routes, present := present, addresses := addresses, leases := leases,
                   clients := clients,
                   resolver := if nameserver.Some? then Resolver(false, nameserver.value) else w.k.resolver))
  }

  function Run(w: World, o: Oracle, ops: seq<Op>): World {
    if ops == [] then w else Perform(Run(w, o, ops[..|ops| - 1]), o, ops[|ops| - 1])
  }

  /** A daemon starts over a platform it has not touched, importing DHCP clients that
      an earlier process left running. */
  function Boot(k: Kernel, adoptEth: bool, adoptWifi: bool): World {
    var w := World(FRESH, k.(log := [], calls := 0));
    var w1 := if adoptEth then Adopt(w, Eth).w else w;
    if adoptWifi then Adopt(w1, Wifi).w else w1
  }
}
