/** What every run of the controller keeps, whatever its ports do: one owner of
    Ethernet at a time, one recorded route per interface that is exactly what was set
    and not withdrawn, no Ethernet route under WifiOnly, and no forgotten resolver. */
module ControlPlaneSafety {
  import opened Platform
  import opened ControlPlane

  /** Ethernet is driven by a static configuration or by DHCP, never by both. */
  predicate Exclusive(r: Records) {
    if r.fixed.active then r.eth == IDLE_LINK else r.fixed == NO_STATIC
  }

  /** The recorded identities are exactly the routes in the call log's ledger. */
  ghost predicate Ledgered(w: World) {
    && WithdrawsOwnOnly(w.k.log)
    && (forall id :: Route(Eth, id) in Ledger(w.k.log) <==> w.r.ethRoute == Some(id))
    && (forall id :: Route(Wifi, id) in Ledger(w.k.log) <==> w.r.wifiRoute == Some(id))
  }

  predicate MarkerKnown(w: World) {
    w.r.dnsKnown && w.k.resolver.marked ==> w.r.managedDns
  }

  ghost predicate Sound(w: World) { Exclusive(w.r) && Ledgered(w) && MarkerKnown(w) }

  // ---------------------------------------------------------------- owned routes

  lemma ClearOwnedLedgered(w: World, o: Oracle, iface: Iface)
    requires Ledgered(w) && Known(iface)
    ensures Ledgered(ClearOwned(w, o, iface).w)
    ensures w.k.log <= ClearOwned(w, o, iface).w.k.log
  {
    if OwnedOf(w.r, iface).Some? {
      var route := Route(iface, OwnedOf(w.r, iface).value);
      LedgerExtend(w.k.log, ClearRoute(route, o(w.k.calls).Success?));
    }
  }

  lemma ClearedIsNone(w: World, o: Oracle, iface: Iface)
    requires Known(iface) && ClearOwned(w, o, iface).Done?
    ensures OwnedOf(ClearOwned(w, o, iface).w.r, iface).None?
  {
  }

  /** Setting a route where none, or the same one, is recorded. */
  lemma SetLedgered(w: World, o: Oracle, iface: Iface, id: RouteId)
    requires Ledgered(w) && Known(iface) && (OwnedOf(w.r, iface).None? || OwnedOf(w.r, iface) == Some(id))
    ensures var (out, k) := SetDefaultRoute(w.k, o, Route(iface, id));
            && Ledgered(World(if out.Success? then WithOwned(w.r, iface, Some(id)) else w.r, k))
            && w.k.log <= k.log
  {
    hide WithdrawsOwnOnly, Ledger;
    LedgerExtend(w.k.log, SetRoute(Route(iface, id), o(w.k.calls).Success?));
  }

  lemma EnsureOwnedLedgered(w: World, o: Oracle, iface: Iface, gateway: string, metric: int)
    requires Ledgered(w) && Known(iface)
    ensures Ledgered(EnsureOwned(w, o, iface, gateway, metric).w)
    ensures w.k.log <= EnsureOwned(w, o, iface, gateway, metric).w.k.log
  {
    hide Ledgered, ClearOwned, SetDefaultRoute, OnlyRoutes, Obeys;
    ClearOwnedLedgered(w, o, iface);
    if gateway != "" {
      var id := RouteId(gateway, metric);
      if OwnedOf(w.r, iface).Some? && OwnedOf(w.r, iface) != Some(id) {
        var s := ClearOwned(w, o, iface);
        if s.Done? {
          ClearedIsNone(w, o, iface);
          SetLedgered(s.w, o, iface, id);
        }
      } else {
        SetLedgered(w, o, iface, id);
      }
    }
  }

  lemma ApplyEthRouteLedgered(w: World, o: Oracle)
    requires Ledgered(w)
    ensures Ledgered(ApplyEthRoute(w, o).w)
    ensures w.k.log <= ApplyEthRoute(w, o).w.k.log
  {
    if w.r.fixed.active && RouteAllowed(w.r.policy, Eth) && w.r.fixed.gateway4 != "" {
      EnsureOwnedLedgered(w, o, Eth, w.r.fixed.gateway4, RouteMetric(w.r.policy, Eth, w.r.fixed.manualMetric));
    } else if w.r.eth.active && RouteAllowed(w.r.policy, Eth) && w.r.eth.lease.gateway4 != "" {
      EnsureOwnedLedgered(w, o, Eth, w.r.eth.lease.gateway4, RouteMetric(w.r.policy, Eth, -1));
    } else {
      ClearOwnedLedgered(w, o, Eth);
    }
  }

  lemma ApplyWifiRouteLedgered(w: World, o: Oracle)
    requires Ledgered(w)
    ensures Ledgered(ApplyWifiRoute(w, o).w)
    ensures w.k.log <= ApplyWifiRoute(w, o).w.k.log
  {
    if w.r.wifi.active && RouteAllowed(w.r.policy, Wifi) && w.r.wifi.lease.gateway4 != "" {
      EnsureOwnedLedgered(w, o, Wifi, w.r.wifi.lease.gateway4, RouteMetric(w.r.policy, Wifi, -1));
    } else {
      ClearOwnedLedgered(w, o, Wifi);
    }
  }

  lemma ApplyRoutesLedgered(w: World, o: Oracle)
    requires Ledgered(w)
    ensures Ledgered(ApplyRoutes(w, o).w)
    ensures ApplyEthRoute(w, o).w.k.log <= ApplyRoutes(w, o).w.k.log
    ensures w.k.log <= ApplyRoutes(w, o).w.k.log
  {
    ApplyEthRouteLedgered(w, o);
    var e := ApplyEthRoute(w, o);
    if e.Done? {
      ApplyWifiRouteLedgered(e.w, o);
    }
  }

  lemma RepairIfaceLedgered(w: World, o: Oracle, live: Kernel, iface: Iface,
                            ip4: string, netmask4: string, gateway4: string, metric: int)
    requires Ledgered(w) && Known(iface)
    ensures Ledgered(RepairIface(w, o, live, iface, ip4, netmask4, gateway4, metric).w)
    ensures w.k.log <= RepairIface(w, o, live, iface, ip4, netmask4, gateway4, metric).w.k.log
  {
    EnsureOwnedLedgered(World(w.r, ApplyIpv4(w.k, o, iface, Address(ip4, netmask4)).1), o, iface, gateway4, metric);
    EnsureOwnedLedgered(w, o, iface, gateway4, metric);
  }

  lemma RepairLedgered(w: World, o: Oracle)
    requires Ledgered(w)
    ensures Ledgered(Repair(w, o).w)
    ensures w.k.log <= Repair(w, o).w.k.log
  {
    var r, k := w.r, w.k;
    RepairIfaceLedgered(w, o, k, Eth, r.fixed.ip4, r.fixed.netmask4, r.fixed.gateway4,
                        RouteMetric(r.policy, Eth, r.fixed.manualMetric));
    RepairIfaceLedgered(w, o, k, Eth, r.eth.lease.ip4, r.eth.lease.netmask4, r.eth.lease.gateway4,
                        RouteMetric(r.policy, Eth, -1));
    var e := RepairEth(w, o, k);
    if e.Done? {
      RepairIfaceLedgered(e.w, o, k, Wifi, r.wifi.lease.ip4, r.wifi.lease.netmask4, r.wifi.lease.gateway4,
                          RouteMetric(r.policy, Wifi, -1));
    }
  }

  // ---------------------------------------------------------------- each operation

  lemma RecomputeDnsSound(w: World, o: Oracle)
    requires Sound(w)
    ensures Sound(RecomputeDns(w, o).w)
    ensures w.k.log == RecomputeDns(w, o).w.k.log
  {
  }

  lemma QuiesceSound(w: World, o: Oracle, iface: Iface)
    requires Sound(w) && Known(iface)
    ensures Sound(Quiesce(w, o, iface)) && w.k.log == Quiesce(w, o, iface).k.log
  {
  }

  lemma LaunchSound(w: World, o: Oracle, iface: Iface)
    requires Sound(w) && (iface == Eth ==> !w.r.fixed.active)
    ensures Sound(Launch(w, o, iface).w) && w.k.log == Launch(w, o, iface).w.k.log
  {
  }

  lemma StartDhcpSound(w: World, o: Oracle, iface: Iface)
    requires Sound(w)
    ensures Sound(StartDhcp(w, o, iface).w)
    ensures w.k.log <= StartDhcp(w, o, iface).w.k.log
  {
    if Known(iface) {
      ClearOwnedLedgered(w, o, iface);
      var c := ClearOwned(w, o, iface);
      if c.Done? {
        QuiesceSound(c.w, o, iface);
        var q := Quiesce(c.w, o, iface);
        var q' := if iface == Eth then q.(r := q.r.(fixed := NO_STATIC)) else q;
        RecomputeDnsSound(q', o);
        LaunchSound(RecomputeDns(q', o).w, o, iface);
      }
    }
  }

  lemma StopDhcpSound(w: World, o: Oracle, iface: Iface)
    requires Sound(w)
    ensures Sound(StopDhcp(w, o, iface))
    ensures w.k.log <= StopDhcp(w, o, iface).k.log
  {
    if Known(iface) {
      ClearOwnedLedgered(w, o, iface);
      var c := ClearOwned(w, o, iface);
      QuiesceSound(c.w, o, iface);
      RecomputeDnsSound(Quiesce(c.w, o, iface), o);
    }
  }

  lemma SteerSound(w: World, o: Oracle)
    requires Sound(w)
    ensures Sound(ApplyRoutes(w, o).w) && Sound(Steer(w, o).w)
    ensures w.k.log <= ApplyRoutes(w, o).w.k.log <= Steer(w, o).w.k.log
  {
    ApplyRoutesLedgered(w, o);
    RecomputeDnsSound(ApplyRoutes(w, o).w, o);
  }

  lemma ApplyStaticSound(w: World, o: Oracle, ip4: string, netmask4: string, gateway4: string,
                         dns4: string, metric: int)
    requires Sound(w)
    ensures Sound(ApplyStatic(w, o, ip4, netmask4, gateway4, dns4, metric).w)
    ensures w.k.log <= ApplyStatic(w, o, ip4, netmask4, gateway4, dns4, metric).w.k.log
  {
    hide ClearOwned, ApplyRoutes, RecomputeDns, WithdrawsOwnOnly, Ledger;
    ClearOwnedLedgered(w, o, Eth);
    var s := ClearOwned(w, o, Eth);
    var k := ClearLease(StopClient(s.w.k, Eth), Eth);
    var r := s.w.r.(eth := IDLE_LINK, fixed := StaticEthernet(true, ip4, netmask4, gateway4, dns4, metric));
    SteerSound(World(r, ApplyIpv4(k, o, Eth, Address(ip4, netmask4)).1), o);
  }

  lemma ConsumeDeconfigSound(w: World, o: Oracle, iface: Iface, fact: Lease)
    requires Sound(w) && Known(iface) && LinkOf(w.r, iface).managed
    ensures Sound(ConsumeDeconfig(w, o, iface, fact).0.w)
    ensures w.k.log <= ConsumeDeconfig(w, o, iface, fact).0.w.k.log
  {
    ClearOwnedLedgered(w, o, iface);
  }

  lemma ConsumeConfiguredSound(w: World, o: Oracle, iface: Iface, fact: Lease)
    requires Sound(w) && Known(iface) && LinkOf(w.r, iface).managed
    ensures Sound(ConsumeConfigured(w, o, iface, fact).0.w)
    ensures w.k.log <= ConsumeConfigured(w, o, iface, fact).0.w.k.log
  {
    var w1 := World(w.r, ApplyIpv4(w.k, o, iface, Address(fact.ip4, fact.netmask4)).1);
    if RouteAllowed(w.r.policy, iface) && fact.gateway4 != "" {
      EnsureOwnedLedgered(w1, o, iface, fact.gateway4, RouteMetric(w.r.policy, iface, -1));
    } else {
      ClearOwnedLedgered(w1, o, iface);
    }
  }

  lemma ReconcileLinkSound(w: World, o: Oracle, iface: Iface)
    requires Sound(w) && Known(iface)
    ensures Sound(ReconcileLink(w, o, iface).0.w)
    ensures w.k.log <= ReconcileLink(w, o, iface).0.w.k.log
  {
    if LinkOf(w.r, iface).managed {
      var (out, found, k) := ReadLease(w.k, o, iface);
      if found.None? || Fingerprint(found.value) == LinkOf(w.r, iface).fingerprint {
      } else if found.value.event == Deconfig {
        ConsumeDeconfigSound(World(w.r, k), o, iface, found.value);
      } else if found.value.Configured() {
        ConsumeConfiguredSound(World(w.r, k), o, iface, found.value);
      }
    }
  }

  lemma RefreshSound(w: World, o: Oracle)
    requires Sound(w)
    ensures Sound(Refresh(w, o).w)
    ensures w.k.log <= Refresh(w, o).w.k.log
  {
    RepairLedgered(w, o);
    RecomputeDnsSound(Repair(w, o).w, o);
  }

  lemma ReconcileSound(w: World, o: Oracle)
    requires Sound(w)
    ensures Sound(Reconcile(w, o).w) && Sound(ReconcileChanged(w, o).0.w)
    ensures w.k.log <= Reconcile(w, o).w.k.log && w.k.log <= ReconcileChanged(w, o).0.w.k.log
  {
    ReconcileLinkSound(w, o, Eth);
    var e := ReconcileLink(w, o, Eth).0;
    if e.Done? {
      ReconcileLinkSound(e.w, o, Wifi);
      var i := ReconcileLink(e.w, o, Wifi).0;
      RefreshSound(i.w, o);
      RecomputeDnsSound(i.w, o);
    }
  }

  lemma SetPolicySound(w: World, o: Oracle, p: Policy)
    requires Sound(w)
    ensures Sound(SetPolicy(w, o, p).w)
    ensures w.k.log <= SetPolicy(w, o, p).w.k.log
  {
    var w1 := w.(r := w.r.(policy := p));
    SteerSound(w1, o);
    var s := Steer(w1, o);
    if s.Fault? {
      var w2 := s.w.(r := s.w.r.(policy := w.r.policy));
      SteerSound(w2, o);
      RecomputeDnsSound(ApplyRoutes(w2, o).w, o);
    }
  }

  // ---------------------------------------------------------------- WifiOnly

  ghost predicate WifiOnlyClean(w: World) {
    WithdrawalsSucceed(w.k.log) && w.r.policy == WifiOnly ==> w.r.ethRoute.None?
  }

  lemma WithdrawalPrefix(log: seq<Call>, longer: seq<Call>)
    requires log <= longer && WithdrawalsSucceed(longer)
    ensures WithdrawalsSucceed(log)
  {
    assert forall i :: 0 <= i < |log| ==> log[i] == longer[i];
  }

  lemma ClearedOrFailed(w: World, o: Oracle, iface: Iface)
    ensures ClearOwned(w, o, iface).Fault? ==> !WithdrawalsSucceed(ClearOwned(w, o, iface).w.k.log)
  {
    var s := ClearOwned(w, o, iface);
    if s.Fault? {
      assert s.w.k.log[|w.k.log|].ClearRoute? && !s.w.k.log[|w.k.log|].ok;
    }
  }

  /** Steering to WifiOnly withdraws the Ethernet route before anything else. */
  lemma SteerClean(w: World, o: Oracle)
    requires Ledgered(w)
    ensures WifiOnlyClean(ApplyRoutes(w, o).w) && WifiOnlyClean(Steer(w, o).w)
  {
    if w.r.policy == WifiOnly && WithdrawalsSucceed(ApplyRoutes(w, o).w.k.log) {
      ApplyRoutesLedgered(w, o);
      WithdrawalPrefix(ApplyEthRoute(w, o).w.k.log, ApplyRoutes(w, o).w.k.log);
      ClearedOrFailed(w, o, Eth);
    }
  }

  lemma SetPolicyClean(w: World, o: Oracle, p: Policy)
    requires Sound(w)
    ensures WifiOnlyClean(SetPolicy(w, o, p).w)
  {
    var w1 := w.(r := w.r.(policy := p));
    SteerClean(w1, o);
    SteerSound(w1, o);
    var s := Steer(w1, o);
    if s.Fault? {
      SteerClean(s.w.(r := s.w.r.(policy := w.r.policy)), o);
    }
  }

  // ---------------------------------------------------------------- every run

  lemma PerformSound(w: World, o: Oracle, op: Op)
    requires Sound(w)
    ensures Sound(Perform(w, o, op))
    ensures w.k.log <= Perform(w, o, op).k.log
  {
    match op
    case OpStartDhcp(i) => StartDhcpSound(w, o, i);
    case OpStopDhcp(i) => StopDhcpSound(w, o, i);
    case OpStatic(ip4, netmask4, gateway4, dns4, metric) =>
      ApplyStaticSound(w, o, ip4, netmask4, gateway4, dns4, metric);
    case OpReconcile => ReconcileSound(w, o);
    case OpReconcileChanged => ReconcileSound(w, o);
    case OpRefresh => RefreshSound(w, o);
    case OpPolicy(p) => SetPolicySound(w, o, p);
    case OpOutside(_, _, _, _, _, _) =>
  }

  lemma PerformClean(w: World, o: Oracle, op: Op)
    requires Sound(w) && WifiOnlyClean(w)
    ensures WifiOnlyClean(Perform(w, o, op))
  {
    var v := Perform(w, o, op);
    if op.OpPolicy? {
      SetPolicyClean(w, o, op.policy);
    } else if WithdrawalsSucceed(v.k.log) && v.r.policy == WifiOnly {
      PerformSound(w, o, op);
      WithdrawalPrefix(w.k.log, v.k.log);
      assert Obeys(w, v);
    }
  }

  /** From any boot, after any calls with any port failures and any outside changes:
      what the service set and did not withdraw is exactly its recorded routes, it
      never tried to withdraw anything else, a marked resolver is never forgotten,
      and no Ethernet route is owned under WifiOnly unless a withdrawal failed. */
  lemma {:induction false} EveryRunSafe(k: Kernel, adoptEth: bool, adoptWifi: bool, o: Oracle, ops: seq<Op>)
    ensures Sound(Run(Boot(k, adoptEth, adoptWifi), o, ops))
    ensures WifiOnlyClean(Run(Boot(k, adoptEth, adoptWifi), o, ops))
  {
    var w := Boot(k, adoptEth, adoptWifi);
    if ops == [] {
      assert w.k.log == [];
    } else {
      EveryRunSafe(k, adoptEth, adoptWifi, o, ops[..|ops| - 1]);
      PerformSound(Run(w, o, ops[..|ops| - 1]), o, ops[|ops| - 1]);
      PerformClean(Run(w, o, ops[..|ops| - 1]), o, ops[|ops| - 1]);
    }
  }

  /** Importing a client forgets the recorded route without withdrawing it, so it is
      safe exactly when there is none: at construction. */
  lemma AdoptLedgered(w: World, iface: Iface)
    requires Ledgered(w) && Known(iface)
    ensures Ledgered(Adopt(w, iface).w) <==> OwnedOf(w.r, iface).None?
  {
    if OwnedOf(w.r, iface).Some? {
      assert Route(iface, OwnedOf(w.r, iface).value) in Ledger(w.k.log);
    }
  }
}
