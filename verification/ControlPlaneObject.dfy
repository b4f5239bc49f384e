/** The controller as the object the daemon holds: fields updated in place, one method
    per source method. Each method is proved equal to the function that the safety and
    refinement theorems are about. Every public method holds the object's mutex for
    its whole body, so a method is one atomic step. */
module ControlPlaneObject {
  import opened Platform
  import opened ControlPlane
  import opened ControlPlaneSafety

  /** The outcome of a method that returns `true`, or `false` with an error text. */
  function Report(error: Option<Error>, w: World): Step {
    if error.None? then Done(w) else Fault(error.value, w)
  }

  class NetworkControlPlane {
    const oracle: Oracle
    var platform: Kernel
    var eth: Link
    var wifi: Link
    var fixed: StaticEthernet
    var ethRoute: Option<RouteId>
    var wifiRoute: Option<RouteId>
    var policy: Policy
    var dnsKnown: bool
    var managedDns: bool
    var lastDns: string

    function View(): World
      reads this
    {
      World(Records(eth, wifi, fixed, ethRoute, wifiRoute, policy, dnsKnown, managedDns, lastDns), platform)
    }

    /** What every public method keeps: exclusive ownership of Ethernet, route records
        equal to the ledger of the call log, and no forgotten resolver. */
    ghost predicate Valid()
      reads this
    {
      Sound(View())
    }

    constructor (k: Kernel, o: Oracle)
      ensures oracle == o && View() == World(FRESH, k)
      ensures k.log == [] ==> Valid()
    {
      oracle, platform := o, k;
      eth, wifi, fixed := IDLE_LINK, IDLE_LINK, NO_STATIC;
      ethRoute, wifiRoute, policy := None, None, EthernetPreferred;
      dnsKnown, managedDns, lastDns := false, false, "";
      new;
      assert k.log == [] ==> Ledger(k.log) == {};
    }

    method SetLink(iface: Iface, l: Link)
      modifies this
      ensures View() == old(View()).(r := WithLink(old(View()).r, iface, l))
    {
      if iface == Eth { eth := l; } else { wifi := l; }
    }

    method SetOwned(iface: Iface, id: Option<RouteId>)
      modifies this
      ensures View() == old(View()).(r := WithOwned(old(View()).r, iface, id))
    {
      if iface == Eth { ethRoute := id; } else { wifiRoute := id; }
    }

    method ClearOwnedRoute(iface: Iface) returns (error: Option<Error>)
      modifies this
      ensures Report(error, View()) == ClearOwned(old(View()), oracle, iface)
    {
      var owned := if iface == Eth then ethRoute else wifiRoute;
      if owned.None? { return None; }
      var (out, k) := ClearDefaultRoute(platform, oracle, Route(iface, owned.value));
      platform := k;
      if out.Failure? { return Some(Port(out.message)); }
      SetOwned(iface, None);
      return None;
    }

    method EnsureOwnedRoute(iface: Iface, gateway: string, metric: int) returns (error: Option<Error>)
      modifies this
      ensures Report(error, View()) == EnsureOwned(old(View()), oracle, iface, gateway, metric)
    {
      if gateway == "" {
        error := ClearOwnedRoute(iface);
        return;
      }
      var owned := if iface == Eth then ethRoute else wifiRoute;
      if owned.Some? && (owned.value.gateway != gateway || owned.value.metric != metric) {
        error := ClearOwnedRoute(iface);
        if error.Some? { return; }
      }
      var (out, k) := SetDefaultRoute(platform, oracle, Route(iface, RouteId(gateway, metric)));
      platform := k;
      if out.Failure? { return Some(Port(out.message)); }
      SetOwned(iface, Some(RouteId(gateway, metric)));
      return None;
    }

    method ApplyEthernetRoute() returns (error: Option<Error>)
      modifies this
      ensures Report(error, View()) == ApplyEthRoute(old(View()), oracle)
    {
      if fixed.active && RouteAllowed(policy, Eth) && fixed.gateway4 != "" {
        error := EnsureOwnedRoute(Eth, fixed.gateway4, RouteMetric(policy, Eth, fixed.manualMetric));
        if error == Some(Port("")) { error := Some(StaticRouteFailed); }
      } else if eth.active && RouteAllowed(policy, Eth) && eth.lease.gateway4 != "" {
        error := EnsureOwnedRoute(Eth, eth.lease.gateway4, RouteMetric(policy, Eth, -1));
        if error == Some(Port("")) { error := Some(EthernetRouteFailed); }
      } else {
        error := ClearOwnedRoute(Eth);
      }
    }

    method ApplyAllRoutes() returns (error: Option<Error>)
      modifies this
      ensures Report(error, View()) == ApplyRoutes(old(View()), oracle)
    {
      error := ApplyEthernetRoute();
      if error.Some? { return; }
      if wifi.active && RouteAllowed(policy, Wifi) && wifi.lease.gateway4 != "" {
        error := EnsureOwnedRoute(Wifi, wifi.lease.gateway4, RouteMetric(policy, Wifi, -1));
        if error == Some(Port("")) { error := Some(WifiRouteFailed); }
      } else {
        error := ClearOwnedRoute(Wifi);
      }
    }

    method RelinquishDns() returns (error: Option<Error>)
      modifies this
      ensures Report(error, View()) == ReleaseDns(old(View()), oracle)
    {
      if !managedDns { return None; }
      var (out, k) := ClearDns(platform, oracle);
      platform := k;
      if out.Failure? { return Some(Port(out.message)); }
      managedDns, lastDns := false, "";
      return None;
    }

    /** Selects the nameserver branch by branch, as the source's switch does. */
    method SelectDns() returns (selected: string, preserve: bool)
      ensures selected == SelectedDns(View().r, HasDefaultRoute(platform, Eth))
      ensures preserve == PreserveExternal(View().r, HasDefaultRoute(platform, Eth))
    {
      var ethWanted := (fixed.active && RouteAllowed(policy, Eth) && fixed.gateway4 != "") ||
                       (eth.active && RouteAllowed(policy, Eth) && eth.lease.gateway4 != "");
      var wifiWanted := wifi.active && RouteAllowed(policy, Wifi) && wifi.lease.gateway4 != "";
      var ethDns := if fixed.active then fixed.dns4 else eth.lease.dns4;
      var wifiDns := wifi.lease.dns4;
      assert ethWanted == EthRouteWanted(View().r) && wifiWanted == WifiRouteWanted(View().r);
      selected, preserve := "", false;
      match policy
      case WifiPreferred =>
        if wifiWanted && wifiDns != "" { selected := wifiDns; }
        else if ethWanted && ethDns != "" { selected := ethDns; }
      case WifiOnly =>
        if wifiWanted && wifiDns != "" { selected := wifiDns; }
      case ManualMetric =>
        var ethMetric := RouteMetric(policy, Eth, fixed.manualMetric);
        if wifiWanted && (!ethWanted || RouteMetric(policy, Wifi, -1) < ethMetric) {
          selected := wifiDns;
        } else if ethWanted && ethDns != "" {
          selected := ethDns;
        }
      case EthernetPreferred =>
        if ethWanted && ethDns != "" {
          selected := ethDns;
        } else {
          preserve := HasDefaultRoute(platform, Eth) && !ethWanted;
          if !preserve && wifiWanted && wifiDns != "" { selected := wifiDns; }
        }
    }

    method RecomputeResolver() returns (error: Option<Error>)
      modifies this
      ensures Report(error, View()) == RecomputeDns(old(View()), oracle)
    {
      if !dnsKnown {
        managedDns := platform.resolver.marked;
        lastDns := if platform.resolver.marked then platform.resolver.nameserver else "";
        dnsKnown := true;
      }
      assert View() == LearnDns(old(View()));
      var selected, preserve := SelectDns();
      if preserve || selected == "" {
        error := RelinquishDns();
        return;
      }
      if managedDns && selected == lastDns && platform.resolver.nameserver == selected { return None; }
      var (out, k) := SetDns(platform, oracle, selected);
      platform := k;
      if out.Failure? { return Some(Port(out.message)); }
      managedDns, lastDns := true, selected;
      return None;
    }

    /** stop_dhcp, clear_lease and clear_ipv4 ports, then the link record reset. */
    method QuiesceLink(iface: Iface)
      modifies this
      ensures View() == Quiesce(old(View()), oracle, iface)
    {
      platform := StopClient(platform, iface);
      platform := ClearLease(platform, iface);
      platform := ClearIpv4(platform, oracle, iface).1;
      SetLink(iface, IDLE_LINK);
    }

    method StartDhcpClient(iface: Iface) returns (error: Option<Error>)
      modifies this
      ensures Report(error, View()) == StartDhcp(old(View()), oracle, iface)
      ensures old(Valid()) ==> Valid()
    {
      hide Sound;
      KeepsSound(View(), oracle, OpStartDhcp(iface));
      if !Known(iface) { return Some(UnknownInterface); }
      error := ClearOwnedRoute(iface);
      if error.Some? { return; }
      QuiesceLink(iface);
      if iface == Eth { fixed := NO_STATIC; }
      error := RecomputeResolver();
      if error.Some? { return; }
      var (out, k) := StartClient(platform, oracle, iface);
      platform := k;
      if out.Failure? { return Some(Port(out.message)); }
      SetLink(iface, (if iface == Eth then eth else wifi).(managed := true));
      return None;
    }

    method StopDhcpClient(iface: Iface)
      modifies this
      ensures View() == StopDhcp(old(View()), oracle, iface)
      ensures old(Valid()) ==> Valid()
    {
      hide Sound;
      KeepsSound(View(), oracle, OpStopDhcp(iface));
      if !Known(iface) { return; }
      var ignored := ClearOwnedRoute(iface);
      QuiesceLink(iface);
      ignored := RecomputeResolver();
    }

    method ApplyEthernetStatic(ip4: string, netmask4: string, gateway4: string, dns4: string, manualMetric: int)
      returns (error: Option<Error>)
      modifies this
      ensures Report(error, View()) == ApplyStatic(old(View()), oracle, ip4, netmask4, gateway4, dns4, manualMetric)
      ensures old(Valid()) ==> Valid()
    {
      hide Sound;
      KeepsSound(View(), oracle, OpStatic(ip4, netmask4, gateway4, dns4, manualMetric));
      error := ClearOwnedRoute(Eth);
      if error.Some? { return; }
      platform := StopClient(platform, Eth);
      platform := ClearLease(platform, Eth);
      eth, fixed := IDLE_LINK, NO_STATIC;
      var (out, k) := ApplyIpv4(platform, oracle, Eth, Address(ip4, netmask4));
      platform := k;
      if out.Failure? { return Some(Port(out.message)); }
      fixed := StaticEthernet(true, ip4, netmask4, gateway4, dns4, manualMetric);
      error := ApplyAllRoutes();
      if error.Some? { return; }
      error := RecomputeResolver();
    }

    method AdoptDhcp(iface: Iface) returns (error: Option<Error>)
      modifies this
      ensures Report(error, View()) == Adopt(old(View()), iface)
      ensures old(Valid()) && OwnedOf(old(View()).r, iface).None? ==> Valid()
    {
      ghost var before := View();
      if Known(iface) && Sound(before) { AdoptLedgered(before, iface); }
      if !Known(iface) { return Some(UnknownInterface); }
      SetLink(iface, IDLE_LINK.(managed := true));
      SetOwned(iface, None);
      if iface == Eth { fixed := NO_STATIC; }
      return None;
    }

    method ConsumeLease(iface: Iface, fact: Lease) returns (error: Option<Error>, changed: bool)
      requires fact.event == Deconfig || fact.Configured()
      modifies this
      ensures (Report(error, View()), changed) ==
              if fact.event == Deconfig then ConsumeDeconfig(old(View()), oracle, iface, fact)
              else ConsumeConfigured(old(View()), oracle, iface, fact)
    {
      changed := false;
      if fact.event == Deconfig {
        error := ClearOwnedRoute(iface);
        if error.Some? { return; }
        var (out, k) := ClearIpv4(platform, oracle, iface);
        platform := k;
        if out.Failure? { return Some(Port(out.message)), false; }
      } else {
        var (out, k) := ApplyIpv4(platform, oracle, iface, Address(fact.ip4, fact.netmask4));
        platform := k;
        if out.Failure? { return Some(Port(out.message)), false; }
        if RouteAllowed(policy, iface) && fact.gateway4 != "" {
          error := EnsureOwnedRoute(iface, fact.gateway4, RouteMetric(policy, iface, -1));
        } else {
          error := ClearOwnedRoute(iface);
        }
        if error.Some? { return; }
      }
      var state := if iface == Eth then eth else wifi;
      SetLink(iface, state.(active := fact.Configured(), lease := fact, fingerprint := Fingerprint(fact)));
      return None, true;
    }

    method ReconcileOneLink(iface: Iface) returns (error: Option<Error>, changed: bool)
      modifies this
      ensures (Report(error, View()), changed) == ReconcileLink(old(View()), oracle, iface)
    {
      var state := if iface == Eth then eth else wifi;
      if !state.managed { return None, false; }
      var (out, found, k) := ReadLease(platform, oracle, iface);
      platform := k;
      if out.Failure? { return Some(Port(out.message)), false; }
      if found.None? || Fingerprint(found.value) == state.fingerprint { return None, false; }
      if found.value.event != Deconfig && !found.value.Configured() { return Some(UnsupportedLease), false; }
      error, changed := ConsumeLease(iface, found.value);
    }

    method RepairInterface(live: Kernel, iface: Iface, ip4: string, netmask4: string, gateway4: string, metric: int)
      returns (error: Option<Error>)
      modifies this
      ensures Report(error, View()) == RepairIface(old(View()), oracle, live, iface, ip4, netmask4, gateway4, metric)
    {
      var address := Address(ip4, netmask4);
      if iface in live.present && ip4 != "" && netmask4 != "" &&
         !(iface in live.addresses && live.addresses[iface] == address) {
        var (out, k) := ApplyIpv4(platform, oracle, iface, address);
        platform := k;
        if out.Failure? { return Some(Port(out.message)); }
      }
      if iface !in live.present || !RouteAllowed(policy, iface) || gateway4 == "" { return None; }
      var wanted := Some(RouteId(gateway4, metric));
      var owned := if iface == Eth then ethRoute else wifiRoute;
      if owned == wanted && ShownRoute(live.routes, iface) == wanted { return None; }
      error := EnsureOwnedRoute(iface, gateway4, metric);
    }

    method RepairOwnedState() returns (error: Option<Error>)
      modifies this
      ensures Report(error, View()) == Repair(old(View()), oracle)
    {
      var live := platform;
      error := None;
      if fixed.active {
        error := RepairInterface(live, Eth, fixed.ip4, fixed.netmask4, fixed.gateway4,
                                 RouteMetric(policy, Eth, fixed.manualMetric));
      } else if eth.active && eth.lease.Configured() {
        error := RepairInterface(live, Eth, eth.lease.ip4, eth.lease.netmask4, eth.lease.gateway4,
                                 RouteMetric(policy, Eth, -1));
      }
      if error.Some? { return; }
      if wifi.active && wifi.lease.Configured() {
        error := RepairInterface(live, Wifi, wifi.lease.ip4, wifi.lease.netmask4, wifi.lease.gateway4,
                                 RouteMetric(policy, Wifi, -1));
      }
    }

    method RefreshExternalState() returns (error: Option<Error>)
      modifies this
      ensures Report(error, View()) == Refresh(old(View()), oracle)
      ensures old(Valid()) ==> Valid()
    {
      hide Sound;
      KeepsSound(View(), oracle, OpRefresh);
      error := RepairOwnedState();
      if error.Some? { return; }
      error := RecomputeResolver();
    }

    method FullReconcile() returns (error: Option<Error>)
      modifies this
      ensures Report(error, View()) == Reconcile(old(View()), oracle)
      ensures old(Valid()) ==> Valid()
    {
      hide Sound;
      KeepsSound(View(), oracle, OpReconcile);
      var changed;
      error, changed := ReconcileOneLink(Eth);
      if error.Some? { return; }
      error, changed := ReconcileOneLink(Wifi);
      if error.Some? { return; }
      error := RefreshExternalState();
    }

    method ReconcileIfChanged() returns (error: Option<Error>, changed: bool)
      modifies this
      ensures (Report(error, View()), changed) == ReconcileChanged(old(View()), oracle)
      ensures old(Valid()) ==> Valid()
    {
      hide Sound;
      KeepsSound(View(), oracle, OpReconcileChanged);
      var ethChanged, wifiChanged;
      error, ethChanged := ReconcileOneLink(Eth);
      if error.Some? { return error, false; }
      error, wifiChanged := ReconcileOneLink(Wifi);
      if error.Some? { return error, false; }
      changed := ethChanged || wifiChanged || !dnsKnown;
      if !changed { return None, false; }
      error := RecomputeResolver();
    }

    method SetRoutePolicy(p: Policy) returns (error: Option<Error>)
      modifies this
      ensures Report(error, View()) == SetPolicy(old(View()), oracle, p)
      ensures old(Valid()) ==> Valid()
    {
      hide Sound, ApplyRoutes, RecomputeDns;
      KeepsSound(View(), oracle, OpPolicy(p));
      var previous := policy;
      policy := p;
      error := ApplyAllRoutes();
      if error.None? { error := RecomputeResolver(); }
      if error.Some? {
        policy := previous;
        var ignored := ApplyAllRoutes();
        ignored := RecomputeResolver();
      }
    }
  }

  lemma KeepsSound(w: World, o: Oracle, op: Op)
    ensures Sound(w) ==> Sound(Perform(w, o, op))
  {
    hide Sound, Perform;
    if Sound(w) { PerformSound(w, o, op); }
  }
}
