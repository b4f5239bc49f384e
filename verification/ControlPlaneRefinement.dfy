/** The controller against a small pure function from policy and facts to routes and
    nameserver: agreement after every call, restoration after a failed policy change,
    and a fixed point of reconciliation. */
module ControlPlaneRefinement {
  import opened Platform
  import opened ControlPlane
  import opened ControlPlaneSafety

  ghost predicate PortsSucceed(o: Oracle, from: nat) { forall i :: i >= from ==> o(i).Success? }

  /** The route the policy wants on an interface, given the facts. */
  function Desired(r: Records, iface: Iface): Option<RouteId> {
    if !RouteAllowed(r.policy, iface) then None
    else if iface == Eth && r.fixed.active && r.fixed.gateway4 != "" then
      Some(RouteId(r.fixed.gateway4, RouteMetric(r.policy, Eth, r.fixed.manualMetric)))
    else if LinkOf(r, iface).active && LinkOf(r, iface).lease.gateway4 != "" then
      Some(RouteId(LinkOf(r, iface).lease.gateway4, RouteMetric(r.policy, iface, -1)))
    else None
  }

  predicate Converged(r: Records) {
    r.ethRoute == Desired(r, Eth) && r.wifiRoute == Desired(r, Wifi)
  }

  /** The resolver holds the selected nameserver, or no longer carries the marker. */
  predicate DnsAgrees(w: World) {
    var selected := SelectedDns(w.r, HasDefaultRoute(w.k, Eth));
    if selected != "" then w.k.resolver.nameserver == selected && w.r.managedDns && w.r.lastDns == selected
    else !w.k.resolver.marked && !w.r.managedDns
  }

  // ---------------------------------------------------------------- resolver

  lemma RecomputeDnsMarker(w: World, o: Oracle)
    requires MarkerKnown(w)
    ensures MarkerKnown(RecomputeDns(w, o).w)
  {
  }

  /** Every recompute that reports success leaves the resolver as the policy selects. */
  lemma RecomputeDnsAgrees(w: World, o: Oracle)
    requires MarkerKnown(w) && RecomputeDns(w, o).Done?
    ensures DnsAgrees(RecomputeDns(w, o).w)
  {
    RecomputeDnsMarker(w, o);
    RecomputeDnsSettles(w, o);
  }

  function DnsOf(r: Records, iface: Iface): string { if iface == Eth then EthDns(r) else WifiDns(r) }

  /** An interface competes for the resolver when it should carry a default route;
      except under ManualMetric it must also have a nameserver to offer. */
  predicate Competes(r: Records, iface: Iface) {
    Desired(r, iface).Some? && (r.policy == ManualMetric || DnsOf(r, iface) != "")
  }

  /** The nameserver of the competing interface with the smallest route metric. */
  function PrimaryDns(r: Records): string {
    if !Competes(r, Eth) && !Competes(r, Wifi) then ""
    else if !Competes(r, Eth) then WifiDns(r)
    else if !Competes(r, Wifi) then EthDns(r)
    else if Desired(r, Wifi).value.metric < Desired(r, Eth).value.metric then WifiDns(r)
    else EthDns(r)
  }

  /** DNS follows the primary managed route, except that under EthernetPreferred a default
      route which somebody else put on Ethernet keeps the service out of DNS. */
  lemma DnsFollowsPrimaryRoute(r: Records, ethDefault: bool)
    requires Exclusive(r)
    ensures SelectedDns(r, ethDefault) ==
            if r.policy == EthernetPreferred && ethDefault && Desired(r, Eth).None? then "" else PrimaryDns(r)
  {
  }

  // ---------------------------------------------------------------- routes

  lemma EnsureReaches(w: World, o: Oracle, iface: Iface, gateway: string, metric: int)
    requires Known(iface) && PortsSucceed(o, w.k.calls)
    ensures var s := EnsureOwned(w, o, iface, gateway, metric);
            && s.Done?
            && s.w.r == WithOwned(w.r, iface, if gateway == "" then None else Some(RouteId(gateway, metric)))
  {
  }

  lemma ApplyRoutesReaches(w: World, o: Oracle)
    requires PortsSucceed(o, w.k.calls)
    ensures var s := ApplyRoutes(w, o);
            s.Done? && s.w.r == w.r.(ethRoute := Desired(w.r, Eth), wifiRoute := Desired(w.r, Wifi))
  {
    var e := ApplyEthRoute(w, o);
    EnsureReaches(w, o, Eth, w.r.fixed.gateway4, RouteMetric(w.r.policy, Eth, w.r.fixed.manualMetric));
    EnsureReaches(w, o, Eth, w.r.eth.lease.gateway4, RouteMetric(w.r.policy, Eth, -1));
    assert e.Done? && e.w.r == w.r.(ethRoute := Desired(w.r, Eth));
    EnsureReaches(e.w, o, Wifi, w.r.wifi.lease.gateway4, RouteMetric(w.r.policy, Wifi, -1));
  }

  lemma ConsumeConverges(w: World, o: Oracle, iface: Iface, fact: Lease)
    requires Known(iface) && PortsSucceed(o, w.k.calls) && Converged(w.r)
    requires Exclusive(w.r) && LinkOf(w.r, iface).managed
    ensures fact.event == Deconfig ==>
              var v := ConsumeDeconfig(w, o, iface, fact).0.w; Converged(v.r) && Exclusive(v.r)
    ensures fact.Configured() ==>
              var v := ConsumeConfigured(w, o, iface, fact).0.w; Converged(v.r) && Exclusive(v.r)
  {
    if fact.Configured() {
      var k' := ApplyIpv4(w.k, o, iface, Address(fact.ip4, fact.netmask4)).1;
      EnsureReaches(World(w.r, k'), o, iface, fact.gateway4, RouteMetric(w.r.policy, iface, -1));
    }
  }

  lemma ReconcileLinkConverges(w: World, o: Oracle, iface: Iface)
    requires Known(iface) && PortsSucceed(o, w.k.calls) && Converged(w.r) && Exclusive(w.r)
    ensures var v := ReconcileLink(w, o, iface).0.w; Converged(v.r) && Exclusive(v.r)
  {
    if LinkOf(w.r, iface).managed {
      var (out, found, k) := ReadLease(w.k, o, iface);
      if found.None? || Fingerprint(found.value) == LinkOf(w.r, iface).fingerprint {
      } else {
        ConsumeConverges(World(w.r, k), o, iface, found.value);
      }
    }
  }

  lemma RepairIfaceConverges(w: World, o: Oracle, live: Kernel, iface: Iface,
                             ip4: string, netmask4: string, gateway4: string, metric: int)
    requires Known(iface) && PortsSucceed(o, w.k.calls) && Converged(w.r)
    requires RouteAllowed(w.r.policy, iface) && gateway4 != "" ==>
               Desired(w.r, iface) == Some(RouteId(gateway4, metric))
    ensures var s := RepairIface(w, o, live, iface, ip4, netmask4, gateway4, metric);
            s.Done? && s.w.r == w.r
  {
    EnsureReaches(World(w.r, ApplyIpv4(w.k, o, iface, Address(ip4, netmask4)).1), o, iface, gateway4, metric);
    EnsureReaches(w, o, iface, gateway4, metric);
  }

  lemma RepairConverges(w: World, o: Oracle)
    requires PortsSucceed(o, w.k.calls) && Converged(w.r) && Exclusive(w.r)
    ensures var s := Repair(w, o); s.Done? && s.w.r == w.r
  {
    var r, k := w.r, w.k;
    if r.fixed.active {
      RepairIfaceConverges(w, o, k, Eth, r.fixed.ip4, r.fixed.netmask4, r.fixed.gateway4,
                           RouteMetric(r.policy, Eth, r.fixed.manualMetric));
    } else if r.eth.active {
      RepairIfaceConverges(w, o, k, Eth, r.eth.lease.ip4, r.eth.lease.netmask4, r.eth.lease.gateway4,
                           RouteMetric(r.policy, Eth, -1));
    }
    var e := RepairEth(w, o, k);
    if r.wifi.active {
      RepairIfaceConverges(e.w, o, k, Wifi, r.wifi.lease.ip4, r.wifi.lease.netmask4, r.wifi.lease.gateway4,
                           RouteMetric(r.policy, Wifi, -1));
    }
  }

  lemma LinksConverge(w: World, o: Oracle)
    requires PortsSucceed(o, w.k.calls) && Converged(w.r) && Exclusive(w.r)
    ensures var e := ReconcileLink(w, o, Eth).0;
            && Converged(e.w.r) && w.k.calls <= e.w.k.calls
            && var i := ReconcileLink(e.w, o, Wifi).0;
               Converged(i.w.r) && Exclusive(i.w.r) && e.w.k.calls <= i.w.k.calls
  {
    ReconcileLinkConverges(w, o, Eth);
    var e := ReconcileLink(w, o, Eth).0.w;
    assert Obeys(w, e);
    ReconcileLinkConverges(e, o, Wifi);
    assert Obeys(e, ReconcileLink(e, o, Wifi).0.w);
  }

  lemma ReconcileConverges(w: World, o: Oracle)
    requires PortsSucceed(o, w.k.calls) && Converged(w.r) && Exclusive(w.r)
    ensures Converged(Reconcile(w, o).w.r)
  {
    LinksConverge(w, o);
    var i := ReconcileLink(ReconcileLink(w, o, Eth).0.w, o, Wifi).0;
    RepairConverges(i.w, o);
  }

  lemma ReconcileChangedConverges(w: World, o: Oracle)
    requires PortsSucceed(o, w.k.calls) && Converged(w.r) && Exclusive(w.r)
    ensures Converged(ReconcileChanged(w, o).0.w.r)
  {
    LinksConverge(w, o);
  }

  /** Stopping DHCP on Ethernet does not drop a static configuration, although it
      withdraws the static route: agreement survives exactly when none is wanted. */
  lemma StopDhcpConverges(w: World, o: Oracle, iface: Iface)
    requires PortsSucceed(o, w.k.calls) && Converged(w.r) && Exclusive(w.r)
    ensures Converged(StopDhcp(w, o, iface).r) <==>
            !(iface == Eth && w.r.fixed.active && Desired(w.r, Eth).Some?)
  {
  }

  const ALL_WELL: Oracle := (i: nat) => Success

  /** A run that gives Ethernet a static route. */
  lemma StaticRun(k: Kernel)
    ensures var w := Run(Boot(k, false, false), ALL_WELL, [OpStatic("10.0.0.2", "255.0.0.0", "10.0.0.1", "", 10)]);
            && w.r.ethRoute == Some(RouteId("10.0.0.1", 10)) && w.r.fixed.active && Desired(w.r, Eth).Some?
            && Sound(w) && Converged(w.r)
  {
    var op := OpStatic("10.0.0.2", "255.0.0.0", "10.0.0.1", "", 10);
    EveryRunSafe(k, false, false, ALL_WELL, [op]);
    EveryRunConverged(k, false, false, ALL_WELL, [op]);
    hide RecomputeDns, ApplyRoutes, Sound;
    var b := Boot(k, false, false);
    assert [op][..0] == [];
    assert Run(b, ALL_WELL, []) == b && Run(b, ALL_WELL, [op]) == Perform(b, ALL_WELL, op);
    var r := FRESH.(fixed := StaticEthernet(true, "10.0.0.2", "255.0.0.0", "10.0.0.1", "", 10));
    var q := ApplyIpv4(ClearLease(StopClient(b.k, Eth), Eth), ALL_WELL, Eth, Address("10.0.0.2", "255.0.0.0")).1;
    ApplyRoutesReaches(World(r, q), ALL_WELL);
  }

  /** Both exceptions are reachable: after such a run, stopping DHCP on Ethernet leaves
      routes other than the wanted ones, and adopting a client there loses the route. */
  lemma ExceptionsReachable(k: Kernel)
    ensures var w := Run(Boot(k, false, false), ALL_WELL, [OpStatic("10.0.0.2", "255.0.0.0", "10.0.0.1", "", 10)]);
            !Converged(StopDhcp(w, ALL_WELL, Eth).r) && !Ledgered(Adopt(w, Eth).w)
  {
    StaticRun(k);
    hide Run, StopDhcp, Adopt;
    var w := Run(Boot(k, false, false), ALL_WELL, [OpStatic("10.0.0.2", "255.0.0.0", "10.0.0.1", "", 10)]);
    StopDhcpConverges(w, ALL_WELL, Eth);
    AdoptLedgered(w, Eth);
  }

  lemma StartDhcpConverges(w: World, o: Oracle, iface: Iface)
    requires PortsSucceed(o, w.k.calls) && Converged(w.r)
    ensures Converged(StartDhcp(w, o, iface).w.r)
  {
    hide RecomputeDns, Launch, ClearOwned, Quiesce;
    if Known(iface) {
      QuiescedConverges(w, o, iface);
      var q := Quiesce(ClearOwned(w, o, iface).w, o, iface);
      var q' := if iface == Eth then q.(r := q.r.(fixed := NO_STATIC)) else q;
      SameLinks(q'.r, RecomputeDns(q', o).w.r);
      LaunchConverges(RecomputeDns(q', o).w, o, iface);
    }
  }

  lemma SameLinks(r: Records, q: Records)
    requires Converged(r) && q == r.(dnsKnown := q.dnsKnown, managedDns := q.managedDns, lastDns := q.lastDns)
    ensures Converged(q)
  {
  }

  lemma QuiescedConverges(w: World, o: Oracle, iface: Iface)
    requires Known(iface) && PortsSucceed(o, w.k.calls) && Converged(w.r)
    ensures var q := Quiesce(ClearOwned(w, o, iface).w, o, iface);
            Converged(if iface == Eth then q.r.(fixed := NO_STATIC) else q.r)
    ensures ClearOwned(w, o, iface).Done?
  {
  }

  lemma LaunchConverges(w: World, o: Oracle, iface: Iface)
    requires Known(iface) && Converged(w.r)
    ensures Converged(Launch(w, o, iface).w.r)
  {
  }

  lemma ApplyStaticConverges(w: World, o: Oracle, ip4: string, netmask4: string, gateway4: string,
                             dns4: string, metric: int)
    requires PortsSucceed(o, w.k.calls)
    ensures Converged(ApplyStatic(w, o, ip4, netmask4, gateway4, dns4, metric).w.r)
  {
    var c := ClearOwned(w, o, Eth);
    var r := c.w.r.(eth := IDLE_LINK, fixed := StaticEthernet(true, ip4, netmask4, gateway4, dns4, metric));
    var k := ApplyIpv4(ClearLease(StopClient(c.w.k, Eth), Eth), o, Eth, Address(ip4, netmask4)).1;
    ApplyRoutesReaches(World(r, k), o);
  }

  lemma PerformConverges(w: World, o: Oracle, op: Op)
    requires PortsSucceed(o, w.k.calls) && Converged(w.r) && Exclusive(w.r)
    requires op.OpStopDhcp? ==> op.iface != Eth
    ensures Converged(Perform(w, o, op).r)
  {
    match op
    case OpStartDhcp(i) => StartDhcpConverges(w, o, i);
    case OpStopDhcp(i) => StopDhcpConverges(w, o, i);
    case OpStatic(ip4, netmask4, gateway4, dns4, metric) =>
      ApplyStaticConverges(w, o, ip4, netmask4, gateway4, dns4, metric);
    case OpReconcile => ReconcileConverges(w, o);
    case OpReconcileChanged => ReconcileChangedConverges(w, o);
    case OpRefresh => RepairConverges(w, o);
    case OpPolicy(p) =>
      var w1 := w.(r := w.r.(policy := p));
      ApplyRoutesReaches(w1, o);
      RecomputeDnsDone(ApplyRoutes(w1, o).w, o);
    case OpOutside(_, _, _, _, _, _) =>
  }

  lemma RecomputeDnsDone(w: World, o: Oracle)
    requires PortsSucceed(o, w.k.calls)
    ensures RecomputeDns(w, o).Done?
  {
  }

  /** From any boot, as long as ports succeed, the owned routes are after every call
      the function Desired of policy, static configuration and consumed lease. The
      daemon stops DHCP only on Wi-Fi. */
  lemma {:induction false} EveryRunConverged(k: Kernel, adoptEth: bool, adoptWifi: bool, o: Oracle, ops: seq<Op>)
    requires PortsSucceed(o, 0)
    requires forall op :: op in ops && op.OpStopDhcp? ==> op.iface != Eth
    ensures Converged(Run(Boot(k, adoptEth, adoptWifi), o, ops).r)
  {
    if ops != [] {
      var before := ops[..|ops| - 1];
      EveryRunConverged(k, adoptEth, adoptWifi, o, before);
      EveryRunSafe(k, adoptEth, adoptWifi, o, before);
      PerformConverges(Run(Boot(k, adoptEth, adoptWifi), o, before), o, ops[|ops| - 1]);
    }
  }

  /** A policy change that fails anywhere, and whose roll-back steps succeed, leaves
      the previous policy with the routes it wants and its selection; where the routes
      were the wanted ones before, they are the previous routes. */
  lemma PolicyRollBack(w: World, o: Oracle, p: Policy)
    requires Sound(w)
    requires SetPolicy(w, o, p).Fault?
    requires PortsSucceed(o, Steer(w.(r := w.r.(policy := p)), o).w.k.calls)
    ensures var v := SetPolicy(w, o, p).w;
            && v.r.policy == w.r.policy && v.r.ethRoute == Desired(w.r, Eth) && v.r.wifiRoute == Desired(w.r, Wifi)
            && (Converged(w.r) ==> v.r.ethRoute == w.r.ethRoute && v.r.wifiRoute == w.r.wifiRoute)
            && v.r.eth == w.r.eth && v.r.wifi == w.r.wifi && v.r.fixed == w.r.fixed
            && DnsAgrees(v)
  {
    hide ApplyRoutes, RecomputeDns, DnsAgrees, WithdrawsOwnOnly, Ledger;
    var w1 := w.(r := w.r.(policy := p));
    SteerSound(w1, o);
    var s := Steer(w1, o);
    var back := s.w.(r := s.w.r.(policy := w.r.policy));
    ApplyRoutesReaches(back, o);
    SteerSound(back, o);
    var a := ApplyRoutes(back, o).w;
    RecomputeDnsDone(a, o);
    RecomputeDnsAgrees(a, o);
  }

  // ---------------------------------------------------------------- fixed point

  /** No lease fact is waiting to be consumed. */
  predicate LinkSettled(w: World, iface: Iface) {
    LinkOf(w.r, iface).managed && iface in w.k.leases ==>
      Fingerprint(w.k.leases[iface]) == LinkOf(w.r, iface).fingerprint
  }

  /** An interface that exists carries its address and its owned route. */
  predicate IfaceSettled(w: World, iface: Iface, ip4: string, netmask4: string, gateway4: string, metric: int) {
    iface in w.k.present ==>
      && (ip4 != "" && netmask4 != "" ==>
            iface in w.k.addresses && w.k.addresses[iface] == Address(ip4, netmask4))
      && (RouteAllowed(w.r.policy, iface) && gateway4 != "" ==>
            && OwnedOf(w.r, iface) == Some(RouteId(gateway4, metric))
            && Route(iface, RouteId(gateway4, metric)) in w.k.routes)
  }

  predicate EthSettled(w: World) {
    var r := w.r;
    if r.fixed.active then
      IfaceSettled(w, Eth, r.fixed.ip4, r.fixed.netmask4, r.fixed.gateway4,
                   RouteMetric(r.policy, Eth, r.fixed.manualMetric))
    else r.eth.active && r.eth.lease.Configured() ==>
      IfaceSettled(w, Eth, r.eth.lease.ip4, r.eth.lease.netmask4, r.eth.lease.gateway4,
                   RouteMetric(r.policy, Eth, -1))
  }

  predicate WifiSettled(w: World) {
    var r := w.r;
    r.wifi.active && r.wifi.lease.Configured() ==>
      IfaceSettled(w, Wifi, r.wifi.lease.ip4, r.wifi.lease.netmask4, r.wifi.lease.gateway4,
                   RouteMetric(r.policy, Wifi, -1))
  }

  /** Equal but for the bookkeeping of port calls. */
  predicate SameState(w: World, v: World) {
    v == World(w.r, w.k.(log := v.k.log, calls := v.k.calls))
  }

  lemma ReconcileLinkSettles(w: World, o: Oracle, iface: Iface)
    requires Known(iface) && ReconcileLink(w, o, iface).0.Done?
    ensures var v := ReconcileLink(w, o, iface).0.w;
            && LinkSettled(v, iface) && v.k.leases == w.k.leases && v.k.present == w.k.present
            && (iface == Wifi ==> v.r.eth == w.r.eth) && v.r.fixed == w.r.fixed
  {
    if LinkOf(w.r, iface).managed {
      var (out, found, k) := ReadLease(w.k, o, iface);
      if found.Some? && Fingerprint(found.value) != LinkOf(w.r, iface).fingerprint {
        ConsumeSettles(World(w.r, k), o, iface, found.value);
      }
    }
  }

  lemma ConsumeSettles(w: World, o: Oracle, iface: Iface, fact: Lease)
    requires Known(iface)
    ensures ConsumeDeconfig(w, o, iface, fact).0.Done? ==>
              var v := ConsumeDeconfig(w, o, iface, fact).0.w;
              && LinkOf(v.r, iface).fingerprint == Fingerprint(fact) && v.k.leases == w.k.leases
              && v.k.present == w.k.present && (iface == Wifi ==> v.r.eth == w.r.eth) && v.r.fixed == w.r.fixed
    ensures ConsumeConfigured(w, o, iface, fact).0.Done? ==>
              var v := ConsumeConfigured(w, o, iface, fact).0.w;
              && LinkOf(v.r, iface).fingerprint == Fingerprint(fact) && v.k.leases == w.k.leases
              && v.k.present == w.k.present && (iface == Wifi ==> v.r.eth == w.r.eth) && v.r.fixed == w.r.fixed
  {
  }

  /** Routes and addresses of other interfaces, and their records, stay as they are. */
  ghost predicate OthersKept(w: World, v: World, iface: Iface) {
    && (forall r: Route :: r.iface != iface ==> (r in v.k.routes <==> r in w.k.routes))
    && v.k.addresses - {iface} == w.k.addresses - {iface}
    && (forall i :: i != iface && Known(i) ==> OwnedOf(v.r, i) == OwnedOf(w.r, i))
  }

  lemma EnsureSettles(w: World, o: Oracle, iface: Iface, gateway: string, metric: int)
    requires Known(iface) && gateway != "" && EnsureOwned(w, o, iface, gateway, metric).Done?
    ensures var v := EnsureOwned(w, o, iface, gateway, metric).w;
            && v.k.addresses == w.k.addresses && OthersKept(w, v, iface)
            && OwnedOf(v.r, iface) == Some(RouteId(gateway, metric))
            && Route(iface, RouteId(gateway, metric)) in v.k.routes
  {
  }

  /** A repair that succeeds leaves its interface settled and the others untouched. */
  lemma RepairIfaceSettles(w: World, o: Oracle, live: Kernel, iface: Iface,
                           ip4: string, netmask4: string, gateway4: string, metric: int)
    requires Known(iface) && live.present == w.k.present
    requires forall id :: Route(iface, id) in live.routes ==> Route(iface, id) in w.k.routes
    requires iface in live.addresses ==> iface in w.k.addresses && w.k.addresses[iface] == live.addresses[iface]
    requires RepairIface(w, o, live, iface, ip4, netmask4, gateway4, metric).Done?
    ensures var v := RepairIface(w, o, live, iface, ip4, netmask4, gateway4, metric).w;
            IfaceSettled(v, iface, ip4, netmask4, gateway4, metric) && OthersKept(w, v, iface)
  {
    var applied := World(w.r, ApplyIpv4(w.k, o, iface, Address(ip4, netmask4)).1);
    if gateway4 != "" && EnsureOwned(applied, o, iface, gateway4, metric).Done? {
      EnsureSettles(applied, o, iface, gateway4, metric);
    }
    if gateway4 != "" && EnsureOwned(w, o, iface, gateway4, metric).Done? {
      EnsureSettles(w, o, iface, gateway4, metric);
    }
  }

  lemma RepairEthSettles(w: World, o: Oracle)
    requires RepairEth(w, o, w.k).Done?
    ensures EthSettled(RepairEth(w, o, w.k).w) && OthersKept(w, RepairEth(w, o, w.k).w, Eth)
  {
    var r, k := w.r, w.k;
    if r.fixed.active {
      RepairIfaceSettles(w, o, k, Eth, r.fixed.ip4, r.fixed.netmask4, r.fixed.gateway4,
                         RouteMetric(r.policy, Eth, r.fixed.manualMetric));
    } else if r.eth.active && r.eth.lease.Configured() {
      RepairIfaceSettles(w, o, k, Eth, r.eth.lease.ip4, r.eth.lease.netmask4, r.eth.lease.gateway4,
                         RouteMetric(r.policy, Eth, -1));
    }
  }

  lemma EthStaysSettled(w: World, v: World)
    requires EthSettled(w) && OnlyRoutes(w, v) && OthersKept(w, v, Wifi)
    ensures EthSettled(v)
  {
    assert OwnedOf(v.r, Eth) == OwnedOf(w.r, Eth);
    assert Eth in w.k.addresses ==> Eth in w.k.addresses - {Wifi};
    assert Eth in v.k.addresses ==> Eth in v.k.addresses - {Wifi};
  }

  lemma WifiFactsShown(w: World, v: World)
    requires OthersKept(w, v, Eth)
    ensures forall id :: Route(Wifi, id) in w.k.routes ==> Route(Wifi, id) in v.k.routes
    ensures Wifi in w.k.addresses ==> Wifi in v.k.addresses && v.k.addresses[Wifi] == w.k.addresses[Wifi]
  {
    if Wifi in w.k.addresses {
      assert Wifi in w.k.addresses - {Eth};
      assert (v.k.addresses - {Eth})[Wifi] == v.k.addresses[Wifi];
    }
  }

  /** After a repair that reports success, every existing interface that has facts
      carries its address and its route. */
  lemma RepairSettles(w: World, o: Oracle)
    requires Repair(w, o).Done?
    ensures EthSettled(Repair(w, o).w) && WifiSettled(Repair(w, o).w)
  {
    var r := w.r;
    var e := RepairEth(w, o, w.k);
    RepairEthSettles(w, o);
    WifiFactsShown(w, e.w);
    if r.wifi.active && r.wifi.lease.Configured() {
      RepairIfaceSettles(e.w, o, w.k, Wifi, r.wifi.lease.ip4, r.wifi.lease.netmask4, r.wifi.lease.gateway4,
                         RouteMetric(r.policy, Wifi, -1));
      EthStaysSettled(e.w, Repair(w, o).w);
    }
  }

  lemma RepairIfaceQuiet(w: World, o: Oracle, live: Kernel, iface: Iface,
                         ip4: string, netmask4: string, gateway4: string, metric: int)
    requires Known(iface) && PortsSucceed(o, w.k.calls)
    requires live.present == w.k.present && live.addresses == w.k.addresses
    requires IfaceSettled(w, iface, ip4, netmask4, gateway4, metric)
    ensures var s := RepairIface(w, o, live, iface, ip4, netmask4, gateway4, metric);
            s.Done? && SameState(w, s.w)
  {
  }

  lemma RepairQuiet(w: World, o: Oracle)
    requires PortsSucceed(o, w.k.calls) && EthSettled(w) && WifiSettled(w)
    ensures Repair(w, o).Done? && SameState(w, Repair(w, o).w)
  {
    var r, k := w.r, w.k;
    if r.fixed.active {
      RepairIfaceQuiet(w, o, k, Eth, r.fixed.ip4, r.fixed.netmask4, r.fixed.gateway4,
                       RouteMetric(r.policy, Eth, r.fixed.manualMetric));
    } else if r.eth.active && r.eth.lease.Configured() {
      RepairIfaceQuiet(w, o, k, Eth, r.eth.lease.ip4, r.eth.lease.netmask4, r.eth.lease.gateway4,
                       RouteMetric(r.policy, Eth, -1));
    }
    var e := RepairEth(w, o, k);
    if r.wifi.active && r.wifi.lease.Configured() {
      RepairIfaceQuiet(e.w, o, k, Wifi, r.wifi.lease.ip4, r.wifi.lease.netmask4, r.wifi.lease.gateway4,
                       RouteMetric(r.policy, Wifi, -1));
    }
  }

  predicate DnsSettled(w: World) {
    var selected := SelectedDns(w.r, HasDefaultRoute(w.k, Eth));
    && w.r.dnsKnown
    && if selected == "" then !w.r.managedDns
       else w.r.managedDns && w.r.lastDns == selected && w.k.resolver.nameserver == selected
  }

  lemma RecomputeDnsSettles(w: World, o: Oracle)
    requires RecomputeDns(w, o).Done?
    ensures DnsSettled(RecomputeDns(w, o).w)
  {
    hide SelectedDns, PreserveExternal, HasDefaultRoute;
    var d := HasDefaultRoute(w.k, Eth);
    SelectionIgnoresDns(w.r, LearnDns(w).r, d);
    SelectionIgnoresDns(w.r, RecomputeDns(w, o).w.r, d);
    SameDefaultRoute(w.k, RecomputeDns(w, o).w.k);
  }

  /** What is selected depends on policy and links only, and nothing is selected against
      an outside Ethernet route. */
  lemma SelectionIgnoresDns(r: Records, q: Records, d: bool)
    requires q == r.(dnsKnown := q.dnsKnown, managedDns := q.managedDns, lastDns := q.lastDns)
    ensures SelectedDns(q, d) == SelectedDns(r, d) && PreserveExternal(q, d) == PreserveExternal(r, d)
    ensures PreserveExternal(r, d) ==> SelectedDns(r, d) == ""
  {
  }

  lemma SameDefaultRoute(k: Kernel, l: Kernel)
    requires l.routes == k.routes
    ensures HasDefaultRoute(l, Eth) == HasDefaultRoute(k, Eth)
  {
  }

  lemma RecomputeDnsQuiet(w: World, o: Oracle)
    requires DnsSettled(w)
    ensures RecomputeDns(w, o) == Done(w)
  {
  }

  /** Everything a full reconciliation drives is where it wants it. */
  ghost predicate Settled(w: World) {
    LinkSettled(w, Eth) && LinkSettled(w, Wifi) && EthSettled(w) && WifiSettled(w) && DnsSettled(w)
  }

  /** A full reconciliation that reports success, whatever its ports did before, has
      consumed the leases, restored addresses and routes, and settled the resolver. */
  lemma ReconcileSettles(w: World, o: Oracle)
    requires Reconcile(w, o).Done?
    ensures Settled(Reconcile(w, o).w)
  {
    var e := ReconcileLink(w, o, Eth).0.w;
    ReconcileLinkSettles(w, o, Eth);
    var i := ReconcileLink(e, o, Wifi).0.w;
    ReconcileLinkSettles(e, o, Wifi);
    RefreshSettles(i, o);
  }

  lemma RefreshSettles(w: World, o: Oracle)
    requires Refresh(w, o).Done?
    ensures var v := Refresh(w, o).w;
            && EthSettled(v) && WifiSettled(v) && DnsSettled(v)
            && v.r.eth == w.r.eth && v.r.wifi == w.r.wifi && v.k.leases == w.k.leases
  {
    RepairSettles(w, o);
    RecomputeDnsSettles(Repair(w, o).w, o);
  }

  /** Reconciling a settled world again changes neither records nor platform. */
  lemma ReconcileQuiet(w: World, o: Oracle)
    requires PortsSucceed(o, w.k.calls) && Settled(w)
    ensures Reconcile(w, o).Done? && SameState(w, Reconcile(w, o).w)
  {
    var e := ReconcileLink(w, o, Eth).0;
    assert e.Done? && SameState(w, e.w);
    var i := ReconcileLink(e.w, o, Wifi).0;
    assert i.Done? && SameState(w, i.w);
    RepairQuiet(i.w, o);
    RecomputeDnsQuiet(Repair(i.w, o).w, o);
  }

  /** Reconciliation reaches a fixed point in one pass. Foreign default routes on the
      same interfaces do not matter. */
  lemma ReconcileFixedPoint(w: World, o: Oracle)
    requires Reconcile(w, o).Done? && PortsSucceed(o, Reconcile(w, o).w.k.calls)
    ensures var once := Reconcile(w, o).w;
            Reconcile(once, o).Done? && SameState(once, Reconcile(once, o).w)
  {
    ReconcileSettles(w, o);
    ReconcileQuiet(Reconcile(w, o).w, o);
  }
}
