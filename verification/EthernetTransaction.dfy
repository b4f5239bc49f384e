/** Changing the Ethernet configuration: stage the file, drive the runtime, commit the
    file, and drive the runtime back when something in between fails. */
module EthernetTransaction {
  import opened Decimal
  import opened Platform
  import opened ControlPlane
  import opened ControlPlaneSafety
  import opened ControlPlaneRefinement
  import opened EthernetConfig

  // ---------------------------------------------------------------- files

  type Files = map<string, string>

  /** Which file operations of a transaction succeed, what a failed one says, and the
      stage's unique suffix. */
  datatype Io = Io(pid: nat, sequence: nat, directory: bool, create: bool, write: bool, unlink: bool,
                   rename: bool, directorySync: bool, message: string)

  /** A staged configuration; `valid` until it is committed or discarded. */
  datatype Stage = Stage(temp: string, final: string, valid: bool)

  const NO_STAGE := Stage("", "", false)

  const FILE_NAME := "/smart_hmi_ethernet.conf"

  function ConfigPath(dir: string): string {
    var d := if dir == "" then "/dnake/data" else dir;
    (if d[|d| - 1] == '/' then d[..|d| - 1] else d) + FILE_NAME
  }

  function StagePath(path: string, io: Io): string {
    path + "." + Print(io.pid) + "." + Print(io.sequence) + ".stage"
  }

  function FileAt(files: Files, path: string): File {
    if path in files then Text(files[path]) else Missing
  }

  function Unlink(files: Files, io: Io, path: string): Files { if io.unlink then files - {path} else files }

  /** Creates the stage exclusively and writes it whole; what could not be written is
      removed again. */
  function StageConfig(files: Files, io: Io, path: string, c: Config): (Files, Stage) {
    var temp := StagePath(path, io);
    if !io.directory || !io.create || temp in files then (files, NO_STAGE)
    else if !io.write then (Unlink(files[temp := ""], io, temp), NO_STAGE)
    else (files[temp := Serialize(c)], Stage(temp, path, true))
  }

  datatype Commit = CommitFailed | Durable | DurabilityUncertain

  /** Renaming is the commit point. */
  function CommitStage(files: Files, io: Io, s: Stage): (Files, Commit) {
    if !s.valid || !io.rename || s.temp !in files then (files, CommitFailed)
    else ((files - {s.temp})[s.final := files[s.temp]], if io.directorySync then Durable else DurabilityUncertain)
  }

  function Discard(files: Files, io: Io, s: Stage): Files { if s.valid then Unlink(files, io, s.temp) else files }

  // ---------------------------------------------------------------- runtime

  function ApplyRuntime(w: World, o: Oracle, c: Config): Step {
    if c.method_ == STATIC
    then ApplyStatic(w, o, c.ip4, c.netmask4, c.gateway4, if c.dnsEnabled then c.dns4 else "", c.metric)
    else StartDhcp(w, o, Eth)
  }

  /** The controller and the kernel carry a configuration: a static one with its address,
      its route under the policy and its nameserver, or a fresh DHCP client and no
      leftovers of what was there before. */
  predicate RuntimeHolds(w: World, c: Config) {
    && w.r.ethRoute == Desired(w.r, Eth) && DnsAgrees(w)
    && if c.method_ == STATIC
       then && w.r.fixed == StaticEthernet(true, c.ip4, c.netmask4, c.gateway4,
                                           if c.dnsEnabled then c.dns4 else "", c.metric)
            && w.r.eth == IDLE_LINK && Eth !in w.k.clients && Eth !in w.k.leases
            && Eth in w.k.addresses && w.k.addresses[Eth] == Address(c.ip4, c.netmask4)
       else && w.r.fixed == NO_STATIC && w.r.eth == IDLE_LINK.(managed := true)
            && Eth in w.k.clients && Eth !in w.k.leases && w.r.ethRoute == None
  }

  // ---------------------------------------------------------------- the transaction

  datatype Result =
    | Applied(config: Config)
    | Refused(reason: string, rollback: string)

  function MessageOf(e: Error): string {
    match e
    case Port(m) => m
    case UnknownInterface => "unknown DHCP interface"
    case UnsupportedLease => "unsupported DHCP lease fact"
    case StaticRouteFailed => "failed to apply Ethernet static route"
    case EthernetRouteFailed => "failed to apply Ethernet DHCP route"
    case WifiRouteFailed => "failed to apply Wi-Fi DHCP route"
  }

  /** The text a client sees; a failed way back is appended when it has a message. */
  function ErrorText(r: Result): string
    requires r.Refused?
  {
    if r.rollback == "" then r.reason else r.reason + "; rollback_failed: " + r.rollback
  }

  function RollBackTo(files: Files, w: World, o: Oracle, previous: Config, reason: string): (Result, Files, World) {
    var back := ApplyRuntime(w, o, previous);
    (Refused(reason, if back.Fault? then MessageOf(back.error) else ""), files, back.w)
  }

  function OrElse(message: string, fallback: string): string { if message == "" then fallback else message }

  function Transact(files: Files, w: World, o: Oracle, io: Io, dir: string, iface: string,
                    desired: Config): (Result, Files, World)
  {
    var path := ConfigPath(dir);
    var previous := Load(FileAt(files, path), iface);
    var (staged, stage) := StageConfig(files, io, path, desired);
    if !stage.valid then (Refused("failed to stage ethernet config: " + io.message, ""), staged, w) else
    var s := ApplyRuntime(w, o, desired);
    if s.Fault? then
      RollBackTo(Discard(staged, io, stage), s.w, o, previous,
                 OrElse(MessageOf(s.error), "failed to apply ethernet runtime config"))
    else
      var (after, commit) := CommitStage(staged, io, stage);
      if commit == CommitFailed then
        RollBackTo(Discard(staged, io, stage), s.w, o, previous, OrElse(io.message, "failed to commit ethernet config"))
      else (Applied(desired), after, s.w)
  }

  /** The daemon's side of it: a disk and a control plane changed in place. */
  class EthernetDaemon {
    var files: Files
    var world: World

    constructor (f: Files, w: World)
      ensures files == f && world == w
    {
      files, world := f, w;
    }

    method Drive(o: Oracle, c: Config) returns (error: string, ok: bool)
      modifies this`world
      ensures var s := ApplyRuntime(old(world), o, c);
              world == s.w && ok == s.Done? && error == if s.Fault? then MessageOf(s.error) else ""
    {
      var s := ApplyRuntime(world, o, c);
      world := s.w;
      ok := s.Done?;
      error := if s.Fault? then MessageOf(s.error) else "";
    }

    method ApplyTransaction(o: Oracle, io: Io, dir: string, iface: string, desired: Config) returns (r: Result)
      modifies this
      ensures (r, files, world) == Transact(old(files), old(world), o, io, dir, iface, desired)
    {
      hide ApplyRuntime, MessageOf, Load;
      var path := ConfigPath(dir);
      var previous := LoadConfig(FileAt(files, path), iface);
      var (staged, stage) := StageConfig(files, io, path, desired);
      files := staged;
      if !stage.valid { return Refused("failed to stage ethernet config: " + io.message, ""); }
      var error, ok := Drive(o, desired);
      if !ok {
        var reason := OrElse(error, "failed to apply ethernet runtime config");
        files := Discard(files, io, stage);
        var rollback, _ := Drive(o, previous);
        return Refused(reason, rollback);
      }
      var (after, commit) := CommitStage(files, io, stage);
      if commit == CommitFailed {
        files := Discard(files, io, stage);
        var rollback, _ := Drive(o, previous);
        return Refused(OrElse(io.message, "failed to commit ethernet config"), rollback);
      }
      files := after;
      return Applied(desired);
    }
  }

  // ---------------------------------------------------------------- what success means

  lemma ClearDone(w: World, o: Oracle, iface: Iface)
    requires Known(iface) && ClearOwned(w, o, iface).Done?
    ensures ClearOwned(w, o, iface).w.r == WithOwned(w.r, iface, None)
  {
  }

  /** Whenever the route pass reports success, the routes are the wanted ones. */
  lemma RoutesDone(w: World, o: Oracle)
    requires ApplyRoutes(w, o).Done?
    ensures ApplyRoutes(w, o).w.r == w.r.(ethRoute := Desired(w.r, Eth), wifiRoute := Desired(w.r, Wifi))
    ensures RoutesOnly(w.k, ApplyRoutes(w, o).w.k)
  {
    EthRouteDone(w, o);
    WifiRouteDone(ApplyEthRoute(w, o).w, o);
  }

  predicate RoutesOnly(k: Kernel, l: Kernel) {
    l == k.(routes := l.routes, log := l.log, calls := l.calls)
  }

  lemma EthRouteDone(w: World, o: Oracle)
    requires ApplyEthRoute(w, o).Done?
    ensures ApplyEthRoute(w, o).w.r == w.r.(ethRoute := Desired(w.r, Eth))
    ensures RoutesOnly(w.k, ApplyEthRoute(w, o).w.k)
  {
  }

  lemma WifiRouteDone(w: World, o: Oracle)
    requires ApplyWifiRoute(w, o).Done?
    ensures ApplyWifiRoute(w, o).w.r == w.r.(wifiRoute := Desired(w.r, Wifi))
    ensures RoutesOnly(w.k, ApplyWifiRoute(w, o).w.k)
  {
  }

  lemma StaticHolds(w: World, o: Oracle, c: Config)
    requires MarkerKnown(w) && c.method_ == STATIC && ApplyRuntime(w, o, c).Done?
    ensures RuntimeHolds(ApplyRuntime(w, o, c).w, c)
  {
    hide ApplyRoutes, RecomputeDns, DnsAgrees;
    var s := ClearOwned(w, o, Eth);
    var k := ClearLease(StopClient(s.w.k, Eth), Eth);
    var k' := ApplyIpv4(k, o, Eth, Address(c.ip4, c.netmask4)).1;
    var dns := if c.dnsEnabled then c.dns4 else "";
    var r' := s.w.r.(eth := IDLE_LINK, fixed := StaticEthernet(true, c.ip4, c.netmask4, c.gateway4, dns, c.metric));
    var a := ApplyRoutes(World(r', k'), o);
    RoutesDone(World(r', k'), o);
    RecomputeDnsAgrees(a.w, o);
  }

  lemma DhcpHolds(w: World, o: Oracle, c: Config)
    requires MarkerKnown(w) && c.method_ != STATIC && ApplyRuntime(w, o, c).Done?
    ensures RuntimeHolds(ApplyRuntime(w, o, c).w, c)
  {
    hide RecomputeDns;
    var s := ClearOwned(w, o, Eth);
    ClearDone(w, o, Eth);
    var q := Quiesce(s.w, o, Eth);
    var d := RecomputeDns(q.(r := q.r.(fixed := NO_STATIC)), o);
    RecomputeDnsAgrees(q.(r := q.r.(fixed := NO_STATIC)), o);
  }

  /** A runtime change that reports success leaves the runtime holding the
      configuration, whatever failed before it. */
  lemma AppliedHolds(w: World, o: Oracle, c: Config)
    requires MarkerKnown(w) && ApplyRuntime(w, o, c).Done?
    ensures RuntimeHolds(ApplyRuntime(w, o, c).w, c)
  {
    hide ApplyRuntime, RuntimeHolds;
    if c.method_ == STATIC { StaticHolds(w, o, c); } else { DhcpHolds(w, o, c); }
  }

  lemma RuntimeMarker(w: World, o: Oracle, c: Config)
    requires Sound(w)
    ensures Sound(ApplyRuntime(w, o, c).w)
  {
    hide Sound, StartDhcp, ApplyStatic;
    StartDhcpSound(w, o, Eth);
    ApplyStaticSound(w, o, c.ip4, c.netmask4, c.gateway4, if c.dnsEnabled then c.dns4 else "", c.metric);
  }

  // ---------------------------------------------------------------- files

  lemma StageApart(path: string, io: Io)
    ensures StagePath(path, io) != path
  {
    assert |StagePath(path, io)| > |path|;
  }

  /** Whether staging gets as far as creating its file. */
  predicate Creates(files: Files, io: Io, path: string) {
    io.directory && io.create && StagePath(path, io) !in files
  }

  /** Staging leaves every other file alone; without success nothing stays behind exactly
      when the stage was never created or could be removed again. */
  lemma StageMeans(files: Files, io: Io, path: string, c: Config)
    ensures var (staged, s) := StageConfig(files, io, path, c);
            if s.valid then s == Stage(StagePath(path, io), path, true) && Creates(files, io, path)
                            && staged == files[s.temp := Serialize(c)]
            else staged == files <==> io.unlink || !Creates(files, io, path)
  {
    hide Serialize, StagePath;
    var temp := StagePath(path, io);
    if temp !in files {
      assert files[temp := ""] - {temp} == files;
    }
  }

  /** The runtime after the desired configuration was tried and the previous one tried
      again. */
  function WayBack(w: World, o: Oracle, desired: Config, previous: Config): Step {
    ApplyRuntime(ApplyRuntime(w, o, desired).w, o, previous)
  }

  /** What a transaction comes down to: it was never staged, or it was driven back, or it
      was committed. */
  lemma TransactionCases(files: Files, w: World, o: Oracle, io: Io, dir: string, iface: string, desired: Config)
    ensures var path := ConfigPath(dir);
            var back := WayBack(w, o, desired, Load(FileAt(files, path), iface));
            var (r, files', w') := Transact(files, w, o, io, dir, iface, desired);
            && (r.Applied? ==> r.config == desired && files' == files[path := Serialize(desired)]
                               && ApplyRuntime(w, o, desired) == Done(w'))
            && (r.Refused? ==> (files' == files <==> io.unlink || !Creates(files, io, path)))
            && (r.Refused? ==> FileAt(files', path) == FileAt(files, path))
            && (r.Refused? ==> if StageConfig(files, io, path, desired).1.valid
                               then w' == back.w && r.rollback == (if back.Fault? then MessageOf(back.error) else "")
                               else w' == w && r.rollback == "")
  {
    hide ApplyRuntime, Serialize, StagePath, ConfigPath, Load, MessageOf, OrElse, StageConfig, CommitStage, Discard, FileAt,
         Creates;
    var path := ConfigPath(dir);
    StageMeans(files, io, path, desired);
    var s := StageConfig(files, io, path, desired).1;
    if s.valid {
      FilesAfter(files, io, path, desired);
    } else {
      StageOthers(files, io, path, desired);
    }
  }

  /** Committing replaces the file and removes the stage; discarding leaves all files as
      they were, except that the stage stays when it cannot be removed. */
  lemma FilesAfter(files: Files, io: Io, path: string, c: Config)
    requires StageConfig(files, io, path, c).1.valid
    ensures var (staged, s) := StageConfig(files, io, path, c);
            var (after, commit) := CommitStage(staged, io, s);
            && (commit != CommitFailed ==> after == files[path := Serialize(c)])
            && (Discard(staged, io, s) == files <==> io.unlink) && Creates(files, io, path)
            && FileAt(Discard(staged, io, s), path) == FileAt(files, path)
  {
    hide Serialize, StagePath, StageConfig;
    StageApart(path, io);
    StageMeans(files, io, path, c);
    var (staged, s) := StageConfig(files, io, path, c);
    assert staged - {s.temp} == files;
  }

  lemma StageOthers(files: Files, io: Io, path: string, c: Config)
    requires !StageConfig(files, io, path, c).1.valid
    ensures FileAt(StageConfig(files, io, path, c).0, path) == FileAt(files, path)
  {
    hide Serialize, StagePath;
    StageApart(path, io);
  }

  /** The file's place. */
  lemma PathMeans(dir: string)
    ensures ConfigPath("") == "/dnake/data" + "/smart_hmi_ethernet.conf"
    ensures dir != "" && dir[|dir| - 1] != '/' ==>
              ConfigPath(dir) == dir + "/smart_hmi_ethernet.conf" && ConfigPath(dir + "/") == ConfigPath(dir)
  {
    assert (dir + "/")[..|dir|] == dir;
  }

  /** Why a transaction was refused: the failed stage, the runtime's own message, or the
      failed commit; a failed way back is added to the text exactly if it has a message. */
  lemma ReasonMeans(files: Files, w: World, o: Oracle, io: Io, dir: string, iface: string, desired: Config)
    requires Transact(files, w, o, io, dir, iface, desired).0.Refused?
    ensures var r := Transact(files, w, o, io, dir, iface, desired).0;
            ErrorText(r) == if r.rollback == "" then r.reason else r.reason + "; rollback_failed: " + r.rollback
    ensures var reason := Transact(files, w, o, io, dir, iface, desired).0.reason;
            var s := ApplyRuntime(w, o, desired);
            reason == if !StageConfig(files, io, ConfigPath(dir), desired).1.valid
                      then "failed to stage ethernet config: " + io.message
                      else if s.Fault? && MessageOf(s.error) != "" then MessageOf(s.error)
                      else if s.Fault? then "failed to apply ethernet runtime config"
                      else if io.message != "" then io.message else "failed to commit ethernet config"
  {
    hide ApplyRuntime, Serialize, StagePath, ConfigPath, Load, MessageOf, StageConfig, CommitStage, Discard, FileAt;
  }

  /** Success: the committed file and the runtime both hold the desired configuration,
      and no stage is left. Refusal: the committed file is unchanged, and all files are
      exactly when the stage was never created or could be removed; and the runtime is
      untouched, or was driven back
      and holds the configuration on disk, or that failed too, in which case the message
      of that failure is reported. */
  lemma TransactionAgrees(files: Files, w: World, o: Oracle, io: Io, dir: string, iface: string, desired: Config)
    requires Sound(w)
    ensures var path := ConfigPath(dir);
            var previous := Load(FileAt(files, path), iface);
            var back := WayBack(w, o, desired, previous);
            var (r, files', w') := Transact(files, w, o, io, dir, iface, desired);
            && (r.Applied? ==>
                  && files' == files[path := Serialize(desired)] && RuntimeHolds(w', desired)
                  && (Storable(desired) ==> Load(FileAt(files', path), iface) == desired))
            && (r.Refused? ==>
                  && (files' == files <==> io.unlink || !Creates(files, io, path))
                  && FileAt(files', path) == FileAt(files, path)
                  && (w' == w || RuntimeHolds(w', previous) || (back.Fault? && r.rollback == MessageOf(back.error))))
  {
    hide ApplyRuntime, Serialize, ConfigPath, Load, MessageOf, Transact, RuntimeHolds, Sound, StageConfig, Creates;
    TransactionCases(files, w, o, io, dir, iface, desired);
    var path := ConfigPath(dir);
    var previous := Load(FileAt(files, path), iface);
    SoundMarker(w);
    RuntimeMarker(w, o, desired);
    SoundMarker(ApplyRuntime(w, o, desired).w);
    if ApplyRuntime(w, o, desired).Done? { AppliedHolds(w, o, desired); }
    if WayBack(w, o, desired, previous).Done? { AppliedHolds(ApplyRuntime(w, o, desired).w, o, previous); }
    if Storable(desired) { StorableReadsBack(desired, iface); }
  }

  lemma SoundMarker(w: World)
    requires Sound(w)
    ensures MarkerKnown(w)
  {
  }

  // ---------------------------------------------------------------- silent failures

  /** From some call on, every failing port call says why. */
  ghost predicate Explains(o: Oracle, from: nat) { forall i: nat :: i >= from ==> o(i) != Failure("") }

  ghost predicate Explained(s: Step) { s.Fault? ==> MessageOf(s.error) != "" }

  lemma OwnedExplained(w: World, o: Oracle, iface: Iface, gateway: string, metric: int)
    requires Explains(o, w.k.calls)
    ensures Explained(ClearOwned(w, o, iface)) && Explained(EnsureOwned(w, o, iface, gateway, metric))
  {
  }

  lemma RoutePassExplained(w: World, o: Oracle)
    requires Explains(o, w.k.calls)
    ensures Explained(ApplyEthRoute(w, o)) && Explained(ApplyWifiRoute(w, o))
  {
    hide ClearOwned, EnsureOwned, RouteMetric, RouteAllowed;
    OwnedExplained(w, o, Eth, w.r.fixed.gateway4, RouteMetric(w.r.policy, Eth, w.r.fixed.manualMetric));
    OwnedExplained(w, o, Eth, w.r.eth.lease.gateway4, RouteMetric(w.r.policy, Eth, -1));
    OwnedExplained(w, o, Wifi, w.r.wifi.lease.gateway4, RouteMetric(w.r.policy, Wifi, -1));
  }

  lemma DnsExplained(w: World, o: Oracle)
    requires Explains(o, w.k.calls)
    ensures Explained(RecomputeDns(w, o))
  {
    hide SelectedDns, PreserveExternal, HasDefaultRoute;
  }

  lemma RoutesExplained(w: World, o: Oracle)
    requires Explains(o, w.k.calls)
    ensures Explained(ClearOwned(w, o, Eth)) && Explained(ApplyRoutes(w, o)) && Explained(RecomputeDns(w, o))
  {
    hide ClearOwned, ApplyEthRoute, ApplyWifiRoute, RecomputeDns, MessageOf;
    OwnedExplained(w, o, Eth, "", 0);
    RoutePassExplained(w, o);
    RoutePassExplained(ApplyEthRoute(w, o).w, o);
    DnsExplained(w, o);
  }

  lemma RuntimeExplained(w: World, o: Oracle, c: Config)
    requires Explains(o, w.k.calls)
    ensures Explained(ApplyRuntime(w, o, c))
  {
    hide ApplyRoutes, RecomputeDns, ClearOwned, MessageOf;
    RoutesExplained(w, o);
    var s := ClearOwned(w, o, Eth);
    if s.Done? {
      var q := Quiesce(s.w, o, Eth);
      RoutesExplained(q.(r := q.r.(fixed := NO_STATIC)), o);
      var k := ApplyIpv4(ClearLease(StopClient(s.w.k, Eth), Eth), o, Eth, Address(c.ip4, c.netmask4)).1;
      var dns := if c.dnsEnabled then c.dns4 else "";
      var r := s.w.r.(eth := IDLE_LINK, fixed := StaticEthernet(true, c.ip4, c.netmask4, c.gateway4, dns, c.metric));
      RoutesExplained(World(r, k), o);
      RoutesExplained(ApplyRoutes(World(r, k), o).w, o);
      PortExplained();
    }
  }

  lemma PortExplained()
    ensures forall m :: MessageOf(Port(m)) == m
  {
  }

  /** Driving the runtime takes at least one port call. */
  lemma RuntimeCalls(w: World, o: Oracle, c: Config)
    ensures ApplyRuntime(w, o, c).w.k.calls >= w.k.calls + 1
  {
    hide ApplyRoutes, RecomputeDns, OnlyRoutes;
  }

  /** Where ports explain their failures, a refusal that reports no failed rollback left
      the runtime untouched or holding the configuration on disk. The very first call of a
      process is never part of a way back. */
  lemma UnreportedIsRestored(files: Files, w: World, o: Oracle, io: Io, dir: string, iface: string, desired: Config)
    requires Sound(w) && Explains(o, 1)
    requires var r := Transact(files, w, o, io, dir, iface, desired).0; r.Refused? && r.rollback == ""
    ensures var w' := Transact(files, w, o, io, dir, iface, desired).2;
            w' == w || RuntimeHolds(w', Load(FileAt(files, ConfigPath(dir)), iface))
  {
    hide ApplyRuntime, Transact, RuntimeHolds, ConfigPath, Load, Sound;
    TransactionAgrees(files, w, o, io, dir, iface, desired);
    RuntimeCalls(w, o, desired);
    RuntimeExplained(ApplyRuntime(w, o, desired).w, o, Load(FileAt(files, ConfigPath(dir)), iface));
  }

  /** No refusal under these ports that reports no failed rollback left the runtime
      anything but untouched or restored. */
  ghost predicate Restores(o: Oracle) {
    forall files: Files, w: World, io: Io, dir: string, iface: string, desired: Config ::
      var (r, _, w') := Transact(files, w, o, io, dir, iface, desired);
      Sound(w) && r.Refused? && r.rollback == "" ==>
        w' == w || RuntimeHolds(w', Load(FileAt(files, ConfigPath(dir)), iface))
  }

  function StaticAddress(ip4: string): Config { Config("eth0", STATIC, ip4, "255.0.0.0", "", "", 10, false) }

  function QuietWorld(calls: nat): World {
    World(FRESH.(dnsKnown := true), Kernel([], {}, map[], Resolver(false, ""), map[], {}, [], calls))
  }

  lemma QuietIsSound(calls: nat)
    ensures Sound(QuietWorld(calls))
  {
    assert Ledger([]) == {};
  }

  /** Driving a quiet world to a static address without gateway or nameserver is one port
      call, and nothing else happens. */
  lemma QuietStatic(w: World, o: Oracle, ip4: string)
    requires w.r.ethRoute.None? && w.r.wifiRoute.None? && !w.r.wifi.active && w.k.routes == []
    requires w.r.dnsKnown && !w.r.managedDns && w.r.policy == EthernetPreferred
    ensures var s := ApplyRuntime(w, o, StaticAddress(ip4));
            && s.w.k.calls == w.k.calls + 1 && s.w.k.routes == []
            && s.w.r.ethRoute.None? && s.w.r.wifiRoute.None? && !s.w.r.wifi.active
            && s.w.r.dnsKnown && !s.w.r.managedDns && s.w.r.policy == EthernetPreferred
            && (o(w.k.calls).Failure? ==> s == Fault(Port(o(w.k.calls).message), s.w) && s.w.r.fixed == NO_STATIC)
  {
  }

  /** One wordless failure anywhere behind the first call is enough: a static address is
      replaced, the file cannot be renamed, and the way back fails without a word. */
  lemma SilentRollback(o: Oracle, i: nat) returns (files: Files, w: World, io: Io, desired: Config)
    requires i >= 1 && o(i) == Failure("")
    ensures Sound(w)
    ensures var (r, _, w') := Transact(files, w, o, io, "", "eth0", desired);
            && r.Refused? && r.rollback == ""
            && w' != w && !RuntimeHolds(w', Load(FileAt(files, ConfigPath("")), "eth0"))
  {
    hide Serialize, StagePath, ConfigPath, Load, RecomputeDns, ApplyRoutes, ClearOwned, Sound, StageConfig, DnsAgrees, Desired;
    var path, previous := ConfigPath(""), StaticAddress("10.0.0.1");
    files, w := map[path := Serialize(previous)], QuietWorld(i - 1);
    io := Io(1, 0, true, true, true, true, false, true, "rename failed");
    desired := StaticAddress("10.0.0.2");
    QuietIsSound(i - 1);
    AddressStorable("10.0.0.1");
    StorableReadsBack(previous, "eth0");
    QuietStatic(w, o, "10.0.0.2");
    QuietStatic(ApplyRuntime(w, o, desired).w, o, "10.0.0.1");
    hide ApplyRuntime;
    StageWorks(files, io, path, desired);
    TransactionCases(files, w, o, io, "", "eth0", desired);
  }

  lemma AddressStorable(ip4: string)
    requires ip4 == "10.0.0.1"
    ensures Storable(StaticAddress(ip4))
  {
    WordsAreClean(10);
  }

  lemma StageWorks(files: Files, io: Io, path: string, c: Config)
    requires io.directory && io.create && io.write && files.Keys == {path}
    ensures StageConfig(files, io, path, c).1.valid
  {
    StageApart(path, io);
  }

  /** Refusals that report nothing restore the runtime exactly if no port call but the
      first of a process can fail without a message. */
  lemma RestoredExactly(o: Oracle)
    ensures Restores(o) <==> Explains(o, 1)
  {
    hide Transact, RuntimeHolds, Sound, ConfigPath, Load;
    if Explains(o, 1) {
      forall files: Files, w: World, io: Io, dir: string, iface: string, desired: Config |
        var (r, _, _) := Transact(files, w, o, io, dir, iface, desired);
        Sound(w) && r.Refused? && r.rollback == ""
        ensures var w' := Transact(files, w, o, io, dir, iface, desired).2;
                w' == w || RuntimeHolds(w', Load(FileAt(files, ConfigPath(dir)), iface))
      {
        UnreportedIsRestored(files, w, o, io, dir, iface, desired);
      }
    } else {
      var i: nat :| i >= 1 && o(i) == Failure("");
      var files, w, io, desired := SilentRollback(o, i);
      assert !Restores(o);
    }
  }
}
