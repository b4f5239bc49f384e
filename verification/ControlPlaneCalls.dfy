/** What each public call of the controller is for: the state it leaves when it reports
    success, in terms of the platform and of the facts it was given. */
module ControlPlaneCalls {
  import opened Platform
  import opened ControlPlane
  import opened ControlPlaneSafety
  import opened ControlPlaneRefinement
  import opened ControlPlaneLeases

  // ---------------------------------------------------------------- metrics

  /** The preferred interface has metric 10 and the other 20; a manual metric that is not
      negative is used as given, else Ethernet is preferred. */
  lemma MetricMeans(manual: int)
    ensures RouteMetric(EthernetPreferred, Eth, manual) == 10 && RouteMetric(EthernetPreferred, Wifi, manual) == 20
    ensures RouteMetric(WifiPreferred, Wifi, manual) == 10 && RouteMetric(WifiPreferred, Eth, manual) == 20
    ensures RouteMetric(WifiOnly, Wifi, manual) == 10
    ensures manual >= 0 ==> RouteMetric(ManualMetric, Eth, manual) == manual
    ensures manual < 0 ==> RouteMetric(ManualMetric, Eth, manual) == 10 && RouteMetric(ManualMetric, Wifi, manual) == 20
  {
  }

  /** A static route is installed with its gateway, and under ManualMetric with its own
      metric. */
  lemma StaticRouteMeans(w: World, o: Oracle, ip4: string, netmask4: string, gateway4: string, dns4: string, metric: int)
    requires PortsSucceed(o, w.k.calls) && gateway4 != "" && w.r.policy != WifiOnly
    ensures var v := ApplyStatic(w, o, ip4, netmask4, gateway4, dns4, metric).w;
            v.r.ethRoute == Some(RouteId(gateway4, match w.r.policy
                                                   case EthernetPreferred => 10
                                                   case WifiPreferred => 20
                                                   case _ => if metric >= 0 then metric else 10))
  {
    hide ApplyRoutes, RecomputeDns;
    var c := ClearOwned(w, o, Eth);
    var r := c.w.r.(eth := IDLE_LINK, fixed := StaticEthernet(true, ip4, netmask4, gateway4, dns4, metric));
    var k := ApplyIpv4(ClearLease(StopClient(c.w.k, Eth), Eth), o, Eth, Address(ip4, netmask4)).1;
    ApplyRoutesReaches(World(r, k), o);
  }

  // ---------------------------------------------------------------- lifecycles

  /** A start that reports success leaves a fresh client, no lease, no route of its own
      and a link that waits for its first fact; the other link is as before. */
  lemma StartDhcpMeans(w: World, o: Oracle, iface: Iface)
    requires MarkerKnown(w) && StartDhcp(w, o, iface).Done?
    ensures var v := StartDhcp(w, o, iface).w;
            && Known(iface) && iface in v.k.clients && iface !in v.k.leases
            && LinkOf(v.r, iface) == Link(true, false, NO_LEASE, "") && OwnedOf(v.r, iface).None?
            && (iface == Eth ==> !v.r.fixed.active && v.r.wifi == w.r.wifi)
            && (iface == Wifi ==> v.r.fixed == w.r.fixed && v.r.eth == w.r.eth)
            && DnsAgrees(v)
  {
    hide RecomputeDns;
    var c := ClearOwned(w, o, iface);
    var q := Quiesce(c.w, o, iface);
    var q' := if iface == Eth then q.(r := q.r.(fixed := NO_STATIC)) else q;
    RecomputeDnsAgrees(q', o);
  }

  /** A stop leaves no client, no lease and no link state, whatever failed; and with
      working ports no address and no route either. */
  lemma StopDhcpMeans(w: World, o: Oracle, iface: Iface)
    requires Known(iface)
    ensures var v := StopDhcp(w, o, iface);
            && iface !in v.k.clients && iface !in v.k.leases && LinkOf(v.r, iface) == Link(false, false, NO_LEASE, "")
            && (PortsSucceed(o, w.k.calls) ==> iface !in v.k.addresses && OwnedOf(v.r, iface).None?)
            && (PortsSucceed(o, w.k.calls) && MarkerKnown(w) ==> DnsAgrees(v))
  {
    hide RecomputeDns, DnsAgrees;
    var q := Quiesce(ClearOwned(w, o, iface).w, o, iface);
    if PortsSucceed(o, w.k.calls) {
      RecomputeDnsDone(q, o);
      if MarkerKnown(w) { RecomputeDnsAgrees(q, o); }
    }
  }

  /** Adoption puts a link under management with nothing consumed yet, and ends a static
      configuration of Ethernet. */
  lemma AdoptMeans(w: World, iface: Iface)
    requires Known(iface)
    ensures var s := Adopt(w, iface);
            && s.Done? && s.w.k == w.k && LinkOf(s.w.r, iface) == Link(true, false, NO_LEASE, "")
            && OwnedOf(s.w.r, iface).None? && (iface == Eth ==> !s.w.r.fixed.active)
  {
  }

  /** A policy change that reports success leaves the new policy in force: its routes on
      both interfaces and its nameserver. */
  lemma SetPolicyMeans(w: World, o: Oracle, p: Policy)
    requires Sound(w) && SetPolicy(w, o, p).Done?
    ensures var v := SetPolicy(w, o, p).w;
            && v.r.policy == p && Converged(v.r) && DnsAgrees(v)
            && v.r.eth == w.r.eth && v.r.wifi == w.r.wifi && v.r.fixed == w.r.fixed
  {
    hide RecomputeDns, ApplyRoutes, DnsAgrees, WithdrawsOwnOnly, Ledger;
    var w1 := w.(r := w.r.(policy := p));
    RoutesReached(w1, o);
    SteerSound(w1, o);
    RecomputeDnsAgrees(ApplyRoutes(w1, o).w, o);
  }

  /** Whenever the route pass reports success, the routes are the wanted ones. */
  lemma RoutesReached(w: World, o: Oracle)
    requires ApplyRoutes(w, o).Done?
    ensures ApplyRoutes(w, o).w.r == w.r.(ethRoute := Desired(w.r, Eth), wifiRoute := Desired(w.r, Wifi))
  {
    hide RouteMetric;
    var e := ApplyEthRoute(w, o);
    assert e.w.r == w.r.(ethRoute := Desired(w.r, Eth));
    assert ApplyWifiRoute(e.w, o).w.r == e.w.r.(wifiRoute := Desired(e.w.r, Wifi));
  }

  // ---------------------------------------------------------------- the resolver

  /** What a resolver pass that reports success leaves in the file: the selected nameserver;
      or, with none selected, an empty file if it was the service's own and else the file as
      it was. */
  lemma ResolverMeans(w: World, o: Oracle)
    requires MarkerKnown(w) && RecomputeDns(w, o).Done?
    ensures var v := RecomputeDns(w, o).w;
            var dns := SelectedDns(w.r, HasDefaultRoute(w.k, Eth));
            && v.r.dnsKnown
            && (dns != "" ==> v.k.resolver.nameserver == dns && v.r.managedDns && v.r.lastDns == dns)
            && (dns == "" ==> v.k.resolver == if w.k.resolver.marked then Resolver(false, "") else w.k.resolver)
            && (dns == "" ==> !v.r.managedDns)
  {
    hide SelectedDns, PreserveExternal, HasDefaultRoute;
    LearningSelects(w, HasDefaultRoute(w.k, Eth));
  }

  lemma LearningSelects(w: World, ethDefault: bool)
    ensures SelectedDns(LearnDns(w).r, ethDefault) == SelectedDns(w.r, ethDefault)
    ensures PreserveExternal(LearnDns(w).r, ethDefault) ==> SelectedDns(w.r, ethDefault) == ""
  {
    hide RouteMetric;
  }

  // ---------------------------------------------------------------- the reactor's pass

  /** A managed link with a published lease that differs from the one consumed last. */
  predicate NewFact(w: World, iface: Iface) {
    LinkOf(w.r, iface).managed && iface in w.k.leases &&
    Fingerprint(w.k.leases[iface]) != LinkOf(w.r, iface).fingerprint
  }

  /** What consuming a lease leaves: the link remembers it, is active exactly if it
      configures, and the address is applied or gone. */
  predicate Consumed(w: World, v: World, iface: Iface)
    requires iface in w.k.leases
  {
    var f := w.k.leases[iface];
    && LinkOf(v.r, iface) == Link(LinkOf(w.r, iface).managed, f.Configured(), f, Fingerprint(f))
    && (f.Configured() ==> iface in v.k.addresses && v.k.addresses[iface] == Address(f.ip4, f.netmask4))
    && (f.event == Deconfig ==> iface !in v.k.addresses && OwnedOf(v.r, iface).None?)
  }

  /** Everything that consuming on one interface leaves alone. */
  predicate OthersSame(w: World, v: World, iface: Iface) {
    && (iface == Eth ==> v.r.wifi == w.r.wifi && v.r.wifiRoute == w.r.wifiRoute)
    && (iface == Wifi ==> v.r.eth == w.r.eth && v.r.ethRoute == w.r.ethRoute)
    && v.r.fixed == w.r.fixed && v.r.dnsKnown == w.r.dnsKnown && v.k.leases == w.k.leases
    && v.k.addresses - {iface} == w.k.addresses - {iface}
  }

  lemma DeconfigConsumed(w: World, o: Oracle, iface: Iface, fact: Lease)
    requires Known(iface) && ConsumeDeconfig(w, o, iface, fact).0.Done?
    requires iface in w.k.leases && w.k.leases[iface] == fact && fact.event == Deconfig
    ensures ConsumeDeconfig(w, o, iface, fact).1
    ensures var v := ConsumeDeconfig(w, o, iface, fact).0.w; Consumed(w, v, iface) && OthersSame(w, v, iface)
  {
    hide Fingerprint;
  }

  lemma ConfiguredConsumed(w: World, o: Oracle, iface: Iface, fact: Lease)
    requires Known(iface) && ConsumeConfigured(w, o, iface, fact).0.Done?
    requires iface in w.k.leases && w.k.leases[iface] == fact && fact.Configured()
    ensures ConsumeConfigured(w, o, iface, fact).1
    ensures var v := ConsumeConfigured(w, o, iface, fact).0.w; Consumed(w, v, iface) && OthersSame(w, v, iface)
  {
    hide Fingerprint, RouteMetric;
    var k := ApplyIpv4(w.k, o, iface, Address(fact.ip4, fact.netmask4)).1;
    EnsureSame(World(w.r, k), o, iface, fact.gateway4, RouteMetric(w.r.policy, iface, -1));
    hide EnsureOwned, ClearOwned;
  }

  lemma EnsureSame(w: World, o: Oracle, iface: Iface, gateway: string, metric: int)
    requires Known(iface)
    ensures OthersSame(w, EnsureOwned(w, o, iface, gateway, metric).w, iface)
    ensures OthersSame(w, ClearOwned(w, o, iface).w, iface)
    ensures EnsureOwned(w, o, iface, gateway, metric).w.k.addresses == w.k.addresses
    ensures ClearOwned(w, o, iface).w.k.addresses == w.k.addresses
  {
  }

  /** One link: the flag says exactly whether a new fact was waiting; then it is
      consumed, else nothing changes. */
  lemma LinkConsumed(w: World, o: Oracle, iface: Iface)
    requires Known(iface) && ReconcileLink(w, o, iface).0.Done?
    ensures var (s, changed) := ReconcileLink(w, o, iface);
            && (changed <==> NewFact(w, iface)) && OthersSame(w, s.w, iface)
            && (if changed then Consumed(w, s.w, iface) else SameState(w, s.w))
  {
    hide Fingerprint, ConsumeDeconfig, ConsumeConfigured;
    if LinkOf(w.r, iface).managed {
      var (out, found, k) := ReadLease(w.k, o, iface);
      if NewFact(w, iface) {
        if found.value.event == Deconfig {
          DeconfigConsumed(World(w.r, k), o, iface, found.value);
        } else {
          ConfiguredConsumed(World(w.r, k), o, iface, found.value);
        }
      }
    }
  }

  /** The changed-aware pass, whenever it reports success: both links have consumed what
      was waiting, with its address; the flag says exactly whether there was something to
      do; then the resolver is settled, and else nothing changed at all. */
  lemma ReconcileChangedMeans(w: World, o: Oracle)
    requires ReconcileChanged(w, o).0.Done?
    ensures var (s, changed) := ReconcileChanged(w, o);
            && (changed <==> NewFact(w, Eth) || NewFact(w, Wifi) || !w.r.dnsKnown)
            && (NewFact(w, Eth) ==> Consumed(w, s.w, Eth)) && (NewFact(w, Wifi) ==> Consumed(w, s.w, Wifi))
            && LinkSettled(s.w, Eth) && LinkSettled(s.w, Wifi) && s.w.r.dnsKnown
            && (if changed then DnsSettled(s.w) else SameState(w, s.w))
  {
    hide Fingerprint, ReconcileLink, RecomputeDns, DnsSettled;
    var e := ReconcileLink(w, o, Eth).0;
    LinkConsumed(w, o, Eth);
    var i := ReconcileLink(e.w, o, Wifi).0;
    LinkConsumed(e.w, o, Wifi);
    ReconcileLinkSettles(w, o, Eth);
    ReconcileLinkSettles(e.w, o, Wifi);
    AddressKept(e.w.k.addresses, i.w.k.addresses, Eth, Wifi);
    if NewFact(w, Eth) || NewFact(w, Wifi) || !w.r.dnsKnown {
      RecomputeDnsSettles(i.w, o);
    }
  }

  lemma AddressKept(a: map<Iface, Address>, b: map<Iface, Address>, i: Iface, j: Iface)
    requires a - {j} == b - {j} && i != j
    ensures i in a <==> i in b
    ensures i in a ==> a[i] == b[i]
  {
    assert i in a <==> i in a - {j};
    assert i in b <==> i in b - {j};
    if i in a { assert a[i] == (a - {j})[i] == (b - {j})[i]; }
  }

  /** After any run with working ports in which published leases hold no separator, the
      changed-aware pass owns on every DHCP-managed interface with a published lease
      exactly the route that this lease asks for. */
  lemma ChangedRoutesAreCurrent(k: Kernel, adoptEth: bool, adoptWifi: bool, o: Oracle, ops: seq<Op>, iface: Iface)
    requires PortsSucceed(o, 0) && PlainLeases(k) && forall op :: op in ops ==> PlainOp(op)
    requires forall op :: op in ops && op.OpStopDhcp? ==> op.iface != Eth
    requires Known(iface)
    requires var s := ReconcileChanged(Run(Boot(k, adoptEth, adoptWifi), o, ops), o).0;
             s.Done? && LinkOf(s.w.r, iface).managed && iface in s.w.k.leases
    ensures var v := ReconcileChanged(Run(Boot(k, adoptEth, adoptWifi), o, ops), o).0.w;
            OwnedOf(v.r, iface) == LeaseRoute(v.r.policy, iface, v.k.leases[iface])
  {
    hide Run, Boot, ReconcileChanged, Ledgered, MarkerKnown, LinkSettled, AllPlain, BothFaithful, Converged, Exclusive,
         LeaseRoute, PlainLeases, PlainOp, NewFact, DnsSettled;
    var w := Run(Boot(k, adoptEth, adoptWifi), o, ops);
    EveryRunConverged(k, adoptEth, adoptWifi, o, ops);
    EveryRunSafe(k, adoptEth, adoptWifi, o, ops);
    EveryRunFaithful(k, adoptEth, adoptWifi, o, ops);
    EveryRunPlain(k, adoptEth, adoptWifi, o, ops);
    ReconcileChangedConverges(w, o);
    ReconcileSound(w, o);
    LinksFaithful(w, o);
    LinksPlain(w, o);
    ReconcileChangedMeans(w, o);
    CurrentRoute(ReconcileChanged(w, o).0.w, iface);
  }
}
