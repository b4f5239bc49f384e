/** The link records against the published leases: fingerprints identify lease facts,
    so after a full reconciliation the routes are a function of the policy, the static
    configuration and the leases that are published now. */
module ControlPlaneLeases {
  import opened Platform
  import opened ControlPlane
  import opened ControlPlaneSafety
  import opened ControlPlaneRefinement

  // ---------------------------------------------------------------- fingerprints

  predicate Plain(s: string) { SEPARATOR !in s }

  predicate PlainLease(l: Lease) {
    Plain(l.iface) && Plain(l.generation) && Plain(l.ip4) && Plain(l.netmask4) && Plain(l.gateway4) && Plain(l.dns4)
  }

  /** The part before the first separator is determined by the whole. */
  lemma SplitUnique(a: string, b: string, x: string, y: string)
    requires Plain(a) && Plain(b) && a + [SEPARATOR] + x == b + [SEPARATOR] + y
    ensures a == b && x == y
  {
    var s := a + [SEPARATOR] + x;
    assert s[|a|] == SEPARATOR && s[|b|] == SEPARATOR;
    assert |a| == |b|;
    assert a == s[..|a|] && b == s[..|b|] && x == s[|a| + 1..] && y == s[|b| + 1..];
  }

  function Tail5(l: Lease): string { l.dns4 }
  function Tail4(l: Lease): string { l.gateway4 + [SEPARATOR] + Tail5(l) }
  function Tail3(l: Lease): string { l.netmask4 + [SEPARATOR] + Tail4(l) }
  function Tail2(l: Lease): string { l.ip4 + [SEPARATOR] + Tail3(l) }
  function Tail1(l: Lease): string { l.generation + [SEPARATOR] + Tail2(l) }
  function Tail0(l: Lease): string { l.iface + [SEPARATOR] + Tail1(l) }

  lemma FingerprintSplits(l: Lease)
    ensures Fingerprint(l) == EventDigit(l.event) + [SEPARATOR] + Tail0(l)
  {
  }

  /** Lease facts without separators in their fields are told apart by fingerprint. */
  lemma FingerprintInjective(a: Lease, b: Lease)
    requires PlainLease(a) && PlainLease(b) && Fingerprint(a) == Fingerprint(b)
    ensures a == b
  {
    FingerprintSplits(a);
    FingerprintSplits(b);
    SplitUnique(EventDigit(a.event), EventDigit(b.event), Tail0(a), Tail0(b));
    SplitUnique(a.iface, b.iface, Tail1(a), Tail1(b));
    SplitUnique(a.generation, b.generation, Tail2(a), Tail2(b));
    SplitUnique(a.ip4, b.ip4, Tail3(a), Tail3(b));
    SplitUnique(a.netmask4, b.netmask4, Tail4(a), Tail4(b));
    SplitUnique(a.gateway4, b.gateway4, Tail5(a), Tail5(b));
  }

  // ---------------------------------------------------------------- link memory

  /** A link remembers the fingerprint of the lease it consumed last, if any, and is
      active exactly while that lease configures it. */
  predicate Faithful(l: Link) {
    if l.fingerprint == "" then !l.active
    else l.fingerprint == Fingerprint(l.lease) && l.active == l.lease.Configured()
  }

  predicate BothFaithful(r: Records) { Faithful(r.eth) && Faithful(r.wifi) }

  lemma ConsumeFaithful(w: World, o: Oracle, iface: Iface, fact: Lease)
    requires BothFaithful(w.r) && Known(iface)
    ensures fact.event == Deconfig ==> BothFaithful(ConsumeDeconfig(w, o, iface, fact).0.w.r)
    ensures fact.Configured() ==> BothFaithful(ConsumeConfigured(w, o, iface, fact).0.w.r)
  {
    FingerprintSplits(fact);
  }

  lemma ReconcileLinkFaithful(w: World, o: Oracle, iface: Iface)
    requires BothFaithful(w.r) && Known(iface)
    ensures BothFaithful(ReconcileLink(w, o, iface).0.w.r)
  {
    if LinkOf(w.r, iface).managed {
      var (out, found, k) := ReadLease(w.k, o, iface);
      if found.Some? {
        ConsumeFaithful(World(w.r, k), o, iface, found.value);
      }
    }
  }

  lemma PerformFaithful(w: World, o: Oracle, op: Op)
    requires BothFaithful(w.r)
    ensures BothFaithful(Perform(w, o, op).r)
  {
    hide StartDhcp, StopDhcp, ApplyStatic, Reconcile, ReconcileChanged, Refresh, SetPolicy, Faithful;
    match op
    case OpStartDhcp(i) => StartDhcpFaithful(w, o, i);
    case OpStopDhcp(i) => StartDhcpFaithful(w, o, i);
    case OpRefresh => SteeringFaithful(w, o, w.r.policy);
    case OpPolicy(p) => SteeringFaithful(w, o, p);
    case OpReconcile => LinksFaithful(w, o);
    case OpReconcileChanged => LinksFaithful(w, o);
    case OpStatic(ip4, netmask4, gateway4, dns4, metric) =>
      ApplyStaticFaithful(w, o, ip4, netmask4, gateway4, dns4, metric);
    case _ =>
  }

  lemma StartDhcpFaithful(w: World, o: Oracle, iface: Iface)
    requires BothFaithful(w.r)
    ensures BothFaithful(StartDhcp(w, o, iface).w.r) && BothFaithful(StopDhcp(w, o, iface).r)
  {
    hide ClearOwned, RecomputeDns, Fingerprint;
  }

  lemma SteeringFaithful(w: World, o: Oracle, p: Policy)
    requires BothFaithful(w.r)
    ensures BothFaithful(SetPolicy(w, o, p).w.r) && BothFaithful(Refresh(w, o).w.r)
  {
    hide ApplyRoutes, Repair, RecomputeDns, Faithful;
  }

  lemma ApplyStaticFaithful(w: World, o: Oracle, ip4: string, netmask4: string, gateway4: string,
                            dns4: string, metric: int)
    requires BothFaithful(w.r)
    ensures BothFaithful(ApplyStatic(w, o, ip4, netmask4, gateway4, dns4, metric).w.r)
  {
    hide ClearOwned, ApplyRoutes, RecomputeDns, Fingerprint;
  }

  lemma LinksFaithful(w: World, o: Oracle)
    requires BothFaithful(w.r)
    ensures BothFaithful(Reconcile(w, o).w.r) && BothFaithful(ReconcileChanged(w, o).0.w.r)
  {
    ReconcileLinkFaithful(w, o, Eth);
    ReconcileLinkFaithful(ReconcileLink(w, o, Eth).0.w, o, Wifi);
  }

  lemma {:induction false} EveryRunFaithful(k: Kernel, adoptEth: bool, adoptWifi: bool, o: Oracle, ops: seq<Op>)
    ensures BothFaithful(Run(Boot(k, adoptEth, adoptWifi), o, ops).r)
  {
    if ops != [] {
      EveryRunFaithful(k, adoptEth, adoptWifi, o, ops[..|ops| - 1]);
      PerformFaithful(Run(Boot(k, adoptEth, adoptWifi), o, ops[..|ops| - 1]), o, ops[|ops| - 1]);
    }
  }

  // ---------------------------------------------------------------- current leases

  /** The route wanted on an interface under DHCP, from the lease published for it. */
  function LeaseRoute(p: Policy, iface: Iface, l: Lease): Option<RouteId> {
    if RouteAllowed(p, iface) && l.Configured() && l.gateway4 != ""
    then Some(RouteId(l.gateway4, RouteMetric(p, iface, -1))) else None
  }

  predicate PlainLeases(k: Kernel) { forall i :: i in k.leases ==> PlainLease(k.leases[i]) }

  /** Published leases and the leases that links remember hold no separator. */
  predicate AllPlain(w: World) { PlainLeases(w.k) && PlainLease(w.r.eth.lease) && PlainLease(w.r.wifi.lease) }

  predicate PlainOp(op: Op) { op.OpOutside? ==> forall i :: i in op.leases ==> PlainLease(op.leases[i]) }

  lemma NoLeaseIsPlain()
    ensures PlainLease(NO_LEASE)
  {
  }

  lemma ConsumePlain(w: World, o: Oracle, iface: Iface, fact: Lease)
    requires AllPlain(w) && Known(iface) && PlainLease(fact)
    ensures AllPlain(ConsumeDeconfig(w, o, iface, fact).0.w) && AllPlain(ConsumeConfigured(w, o, iface, fact).0.w)
  {
    hide PlainLease, ClearOwned, EnsureOwned, Fingerprint, RouteMetric, RouteAllowed;
  }

  lemma ReconcileLinkPlain(w: World, o: Oracle, iface: Iface)
    requires AllPlain(w) && Known(iface)
    ensures AllPlain(ReconcileLink(w, o, iface).0.w)
  {
    hide PlainLease, ConsumeDeconfig, ConsumeConfigured, Fingerprint;
    var (_, found, k) := ReadLease(w.k, o, iface);
    if found.Some? { ConsumePlain(World(w.r, k), o, iface, found.value); }
  }

  lemma LinksPlain(w: World, o: Oracle)
    requires AllPlain(w)
    ensures AllPlain(Reconcile(w, o).w) && AllPlain(ReconcileChanged(w, o).0.w)
  {
    hide PlainLease, ReconcileLink, Repair, RecomputeDns;
    ReconcileLinkPlain(w, o, Eth);
    ReconcileLinkPlain(ReconcileLink(w, o, Eth).0.w, o, Wifi);
  }

  lemma DhcpPlain(w: World, o: Oracle, iface: Iface)
    requires AllPlain(w)
    ensures AllPlain(StartDhcp(w, o, iface).w) && AllPlain(StopDhcp(w, o, iface))
  {
    hide PlainLease, ClearOwned, RecomputeDns;
    NoLeaseIsPlain();
  }

  lemma StaticPlain(w: World, o: Oracle, ip4: string, netmask4: string, gateway4: string, dns4: string, metric: int)
    requires AllPlain(w)
    ensures AllPlain(ApplyStatic(w, o, ip4, netmask4, gateway4, dns4, metric).w)
  {
    hide PlainLease, ClearOwned, ApplyRoutes, RecomputeDns;
    NoLeaseIsPlain();
  }

  lemma SteeringPlain(w: World, o: Oracle, p: Policy)
    requires AllPlain(w)
    ensures AllPlain(SetPolicy(w, o, p).w) && AllPlain(Refresh(w, o).w)
  {
    hide PlainLease, ApplyRoutes, Repair, RecomputeDns;
  }

  lemma PerformPlain(w: World, o: Oracle, op: Op)
    requires AllPlain(w) && PlainOp(op)
    ensures AllPlain(Perform(w, o, op))
  {
    hide StartDhcp, StopDhcp, ApplyStatic, Reconcile, ReconcileChanged, Refresh, SetPolicy, PlainLease;
    match op
    case OpStartDhcp(i) => DhcpPlain(w, o, i);
    case OpStopDhcp(i) => DhcpPlain(w, o, i);
    case OpStatic(ip4, netmask4, gateway4, dns4, metric) => StaticPlain(w, o, ip4, netmask4, gateway4, dns4, metric);
    case OpReconcile => LinksPlain(w, o);
    case OpReconcileChanged => LinksPlain(w, o);
    case OpRefresh => SteeringPlain(w, o, w.r.policy);
    case OpPolicy(p) => SteeringPlain(w, o, p);
    case OpOutside(_, _, _, _, _, _) =>
  }

  lemma {:induction false} EveryRunPlain(k: Kernel, adoptEth: bool, adoptWifi: bool, o: Oracle, ops: seq<Op>)
    requires PlainLeases(k) && forall op :: op in ops ==> PlainOp(op)
    ensures AllPlain(Run(Boot(k, adoptEth, adoptWifi), o, ops))
  {
    if ops != [] {
      EveryRunPlain(k, adoptEth, adoptWifi, o, ops[..|ops| - 1]);
      PerformPlain(Run(Boot(k, adoptEth, adoptWifi), o, ops[..|ops| - 1]), o, ops[|ops| - 1]);
    }
  }

  lemma SettledIsCurrent(w: World, iface: Iface)
    requires Known(iface) && LinkSettled(w, iface) && Faithful(LinkOf(w.r, iface))
    requires LinkOf(w.r, iface).managed && iface in w.k.leases
    requires PlainLease(w.k.leases[iface]) && PlainLease(LinkOf(w.r, iface).lease)
    ensures LinkOf(w.r, iface).lease == w.k.leases[iface]
    ensures LinkOf(w.r, iface).active == w.k.leases[iface].Configured()
  {
    FingerprintSplits(w.k.leases[iface]);
    FingerprintInjective(w.k.leases[iface], LinkOf(w.r, iface).lease);
  }

  lemma CurrentRoute(v: World, iface: Iface)
    requires Known(iface) && LinkSettled(v, iface) && BothFaithful(v.r) && AllPlain(v)
    requires Converged(v.r) && Exclusive(v.r) && LinkOf(v.r, iface).managed && iface in v.k.leases
    ensures OwnedOf(v.r, iface) == LeaseRoute(v.r.policy, iface, v.k.leases[iface])
  {
    hide PlainLease, Faithful, LinkSettled;
    SettledIsCurrent(v, iface);
  }

  /** After any run with working ports in which published leases hold no separator, a full
      reconciliation that reports success owns on every DHCP-managed interface with a
      published lease exactly the route that this lease asks for. */
  lemma ReconciledRoutesAreCurrent(k: Kernel, adoptEth: bool, adoptWifi: bool, o: Oracle, ops: seq<Op>, iface: Iface)
    requires PortsSucceed(o, 0) && PlainLeases(k) && forall op :: op in ops ==> PlainOp(op)
    requires forall op :: op in ops && op.OpStopDhcp? ==> op.iface != Eth
    requires Known(iface)
    requires var w := Run(Boot(k, adoptEth, adoptWifi), o, ops);
             && Reconcile(w, o).Done?
             && LinkOf(Reconcile(w, o).w.r, iface).managed && iface in Reconcile(w, o).w.k.leases
    ensures var v := Reconcile(Run(Boot(k, adoptEth, adoptWifi), o, ops), o).w;
            OwnedOf(v.r, iface) == LeaseRoute(v.r.policy, iface, v.k.leases[iface])
  {
    hide Run, Boot, Reconcile, Ledgered, MarkerKnown, LinkSettled, EthSettled, WifiSettled, DnsSettled, AllPlain,
         BothFaithful, Converged, Exclusive, LeaseRoute, PlainLeases, PlainOp;
    var w := Run(Boot(k, adoptEth, adoptWifi), o, ops);
    EveryRunConverged(k, adoptEth, adoptWifi, o, ops);
    EveryRunSafe(k, adoptEth, adoptWifi, o, ops);
    EveryRunFaithful(k, adoptEth, adoptWifi, o, ops);
    EveryRunPlain(k, adoptEth, adoptWifi, o, ops);
    ReconcileConverges(w, o);
    ReconcileSound(w, o);
    LinksFaithful(w, o);
    LinksPlain(w, o);
    ReconcileSettles(w, o);
    CurrentRoute(Reconcile(w, o).w, iface);
  }
}
