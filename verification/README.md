# network_service: a model of its hard parts

network_service owns default routes, DNS and DHCP on a device and serves clients over a
framed, sequenced IPC protocol. This project models five pieces of it and proves what
they promise, for every input, every run and every interleaving.

* **Route and DNS control plane** (`Platform`, `ControlPlane*`). The controller over a
  kernel of default routes, addresses, resolver, leases and DHCP clients. Each port call
  asks an oracle whether it succeeds; route calls are logged, so ownership is stated
  against the log and not against the controller's own records. The functions of
  `ControlPlane` are the steps, the class of `ControlPlaneObject` runs them in place.
* **Wire layer** (`Codec`, `FrameDecoding`, `Outbound`, `Wire`, `Decimal`, `JsonText`,
  `SessionScanner`, `DispatchReader`, `JsonAgreement`, `JsonStrings`, `JsonValues`,
  `Embedding`, `JsonObjects`, `Requests`, `RequestRoundTrip`, `RequestMembers`). Frames,
  queues with partial sends, two JSON scanners against a reference printer of JSON values,
  escaping, lookup of members, request parsing as a fold over an object's members, and the
  identity of a request from the client's printer to the response it reads.
* **Sessions, reactor and events** (`Sessions`, `Handshake`, `HelloMembers`, `ReplyTexts`,
  `Events`, `DaemonTexts`, `Reactor*`, `Broadcasts`, `EventDelivery`). Connections with
  decoder, session and queue, one sequencer, fan-out with eviction, snapshots with
  watermarks, and the client's rebase tracker. The reactor runs on one thread, so a run is
  a sequence of its pieces; finer interleavings than a real turn are allowed. Peers
  read bytes, decode them and take names, numbers, payloads and snapshots from the text.
* **Concurrent lifecycles** (`WifiLifecycle`, `ScanFence`, `KeyValueText`, `LeaseStore`,
  `LeaseFence`). Wi-Fi DHCP start and stop with two locks, the scan generation fence over
  the supplicant's event counters, and the lease generation fence against late callback
  scripts. Every block under one lock and every shell command is one step.
* **Ethernet transaction** (`EthernetConfig`, `EthernetTransaction`). Stage, apply,
  commit and roll back over a file map and the control plane, and the configuration
  file's printer and reader.

Bytes are characters of a string. Clocks, sockets, the daemon's answers and the outcome
of every port or file operation are parameters. `dafny verify dfyconfig.toml` checks
everything.

What the proofs found out about the code:

* Stopping DHCP on Ethernet withdraws a wanted static route but keeps the static
  configuration (`StopDhcpConverges` says exactly when). The daemon stops DHCP only on
  Wi-Fi.
* Adoption forgets a recorded route without withdrawing it, so it is safe exactly when
  none is recorded (`AdoptLedgered`). The daemon adopts only at construction.
* At equal depth the two JSON scanners differ on a value exactly when it is a number with
  a digit behind a leading zero (`ValuesDifferExactly`): the session stops behind the zero,
  the dispatcher refuses; inside an object or array both refuse the whole. Their container
  functions are called with different depths, the session's with the container's own and the
  dispatcher's with that of its elements, hence the shift by one in the lemmas about
  arrays and objects; and the session scans parameters from depth 1 while the dispatcher
  looks their members up from depth 0, which monotonicity covers.
* The scan fence fails once the 64-bit event counter wraps, and not before
  (`FencedExactly`).
* A rollback failure is reported only if it has a message, so refusals restore or report
  exactly if no port call behind the first can fail without one (`RestoredExactly`). The
  daemon's own ports meet this: each sets a message on every failure
  (src/platform/network_configurator.cpp:32-39 and 102-205,
  src/platform/udhcpc_process.cpp:46-55 and 333-386).
* The callback script prints its lines in a group whose status is that of the last
  `printf`. A line before it that cannot be written is lost without notice, and the short
  file is published and read (`ShortLeaseIsRead`); `ReadIsFresh` says exactly when that
  matters. The fence against other generations is not affected.
* Lease file names of different interfaces can be equal in principle; one's callback would
  then replace or remove the other's file, which is never read as a lease
  (`CollidingLeaseIgnored`). The generations that the service names exclude it
  (`ServiceKeysDistinct`, `OthersAreHarmless`).

## Model

| member | source | states |
|---|---|---|
| `Platform.Without` | src/platform/network_configurator.cpp:148-164 | deleting an exact default route removes that route and no other |
| `ControlPlane.ClearOwned` | src/service/network_control_plane.cpp:31-45 | withdrawing the recorded route of an interface touches nothing but route records, and under WifiOnly installs nothing |
| `ControlPlane.EnsureOwned` | src/service/network_control_plane.cpp:47-71 | replacing or keeping the one recorded route touches only route records; on an allowed interface it obeys the policy |
| `ControlPlane.ApplyRoutes` | src/service/network_control_plane.cpp:259-294 | a route pass changes only the two route records and never owns a new Ethernet route under WifiOnly |
| `ControlPlane.RecomputeDns` | src/service/network_control_plane.cpp:296-415 | a resolver pass changes only resolver ownership and the resolver |
| `ControlPlane.StartDhcp` | src/service/network_control_plane.cpp:92-126 | starting DHCP keeps the policy and installs no Ethernet route under WifiOnly, also when it fails midway |
| `ControlPlane.ApplyStatic` | src/service/network_control_plane.cpp:142-173 | applying a static configuration keeps the policy and obeys it, also when it fails midway |
| `ControlPlane.ReconcileLink` | src/service/network_control_plane.cpp:175-233 | consuming a lease keeps the policy and obeys it |
| `ControlPlane.Repair` | src/service/network_control_plane_reconcile.cpp:34-111 | repairing from a live snapshot touches only routes and addresses and obeys the policy |
| `ControlPlaneSafety.EnsureOwnedLedgered` | src/service/network_control_plane.cpp:47-71 | whatever the ports do, recorded routes stay equal to the ledger of set and not withdrawn routes, and withdrawals name ledger routes only |
| `ControlPlaneSafety.RepairLedgered` | src/service/network_control_plane_reconcile.cpp:34-111 | repair keeps records equal to the ledger |
| `ControlPlaneSafety.StartDhcpSound` | src/service/network_control_plane.cpp:92-126 | starting DHCP keeps ownership exclusive, the ledger exact and a marked resolver known, failing or not |
| `ControlPlaneSafety.StopDhcpSound` | src/service/network_control_plane.cpp:128-140 | stopping DHCP keeps the same, although it ignores its failures |
| `ControlPlaneSafety.ApplyStaticSound` | src/service/network_control_plane.cpp:142-173 | a static configuration keeps the same, failing or not |
| `ControlPlaneSafety.ReconcileLinkSound` | src/service/network_control_plane.cpp:175-233 | lease consumption keeps the same, failing or not |
| `ControlPlaneSafety.SetPolicySound` | src/service/network_control_plane.cpp:417-432 | a policy change keeps the same through failure and roll-back |
| `ControlPlaneSafety.PerformSound` | src/service/network_control_plane.cpp:92-257 | every public call keeps the same under arbitrary port failures and outside changes |
| `ControlPlaneSafety.EveryRunSafe` | src/service/network_control_plane.cpp:31-432 | in every run from any boot: recorded routes are exactly the routes set and not withdrawn, no withdrawal names another route, marker present implies managed, and no Ethernet route is owned under WifiOnly unless a withdrawal failed |
| `ControlPlaneSafety.AdoptLedgered` | src/service/network_control_plane_reconcile.cpp:5-32 | adoption keeps the ledger if and only if no route is recorded, which is the case at construction |
| `ControlPlaneRefinement.RecomputeDnsAgrees` | src/service/network_control_plane.cpp:296-415 | every successful recompute leaves the selected nameserver in place, or no marker when none is selected |
| `ControlPlaneRefinement.DnsFollowsPrimaryRoute` | src/service/network_control_plane.cpp:296-372 | the selected nameserver is that of the competing interface with the smallest metric, and none if under EthernetPreferred Ethernet has a default route although the service wants none there |
| `ControlPlaneRefinement.ApplyRoutesReaches` | src/service/network_control_plane.cpp:259-294 | with working ports a route pass reaches exactly the wanted route on both interfaces |
| `ControlPlaneRefinement.StopDhcpConverges` | src/service/network_control_plane.cpp:128-140 | stopping DHCP leaves routes as wanted if and only if it does not hit Ethernet while a static route is wanted there |
| `ControlPlaneRefinement.ExceptionsReachable` | src/service/network_control_plane.cpp:128-140 | after a run that sets a static route, stopping DHCP on Ethernet leaves unwanted routes and adopting a client there loses the recorded route |
| `ControlPlaneRefinement.EveryRunConverged` | src/service/network_control_plane.cpp:47-294 | with working ports, after every call of every run the owned routes equal a pure function of policy, static configuration and consumed lease |
| `ControlPlaneRefinement.PolicyRollBack` | src/service/network_control_plane.cpp:417-432 | a policy change that fails anywhere and rolls back leaves, from any sound state, the previous policy with the routes it wants, the links and its nameserver selection; from a converged state, the previous routes |
| `ControlPlaneRefinement.ReconcileSettles` | src/service/network_control_plane.cpp:235-247 | a reconcile that reports success has consumed leases, restored addresses and routes and settled the resolver, whatever failed earlier |
| `ControlPlaneRefinement.ReconcileQuiet` | src/service/network_control_plane_reconcile.cpp:34-111 | reconciling a settled world changes neither records nor platform, foreign routes or not |
| `ControlPlaneRefinement.ReconcileFixedPoint` | src/service/network_control_plane.cpp:175-247 | a second full reconcile changes nothing |
| `ControlPlaneLeases.FingerprintInjective` | include/network_service_contracts.h:62-72 | equal fingerprints mean equal lease facts when no field holds the separator |
| `ControlPlaneLeases.EveryRunFaithful` | src/service/network_control_plane.cpp:175-233 | in every run a link remembers the fingerprint of the lease it holds and is active exactly while that lease configures it |
| `ControlPlaneLeases.ReconciledRoutesAreCurrent` | src/service/network_control_plane.cpp:175-247 | after any run with working ports in which published leases hold no separator, a successful reconcile owns exactly the route that the lease published now asks for |
| `ControlPlaneLeases.EveryRunPlain` | src/service/network_control_plane.cpp:175-233 | in every run in which published leases hold no separator, neither do the leases that links remember |
| `Platform.ShownIsLast` | src/platform/interface_snapshot.cpp:99-128 | the default route that a snapshot shows for an interface is the last one listed |
| `ControlPlaneCalls.MetricMeans` | src/service/network_control_plane.cpp:77-90 | metric 10 for the preferred and 20 for the other interface under each policy; a manual metric that is not negative is used as given |
| `ControlPlaneCalls.StaticRouteMeans` | src/service/network_control_plane.cpp:142-173 | a static configuration with working ports owns the route through its gateway with the metric of the policy, or its own under ManualMetric |
| `ControlPlaneCalls.StartDhcpMeans` | src/service/network_control_plane.cpp:92-126 | a start that succeeds leaves a client, no lease, no route and a fresh link on the interface, the other link as before and the resolver as selected |
| `ControlPlaneCalls.StopDhcpMeans` | src/service/network_control_plane.cpp:128-140 | a stop leaves no client, lease or link state, whatever failed; with working ports no address and no route, and the resolver as selected |
| `ControlPlaneCalls.AdoptMeans` | src/service/network_control_plane_reconcile.cpp:5-32 | adoption leaves the platform alone and a managed link with nothing consumed; on Ethernet it ends a static configuration |
| `ControlPlaneCalls.SetPolicyMeans` | src/service/network_control_plane.cpp:417-432 | a policy change that succeeds leaves its routes on both interfaces and its nameserver; links and static configuration stay |
| `ControlPlaneCalls.ResolverMeans` | src/service/network_control_plane.cpp:296-415 | a resolver pass that succeeds leaves the selected nameserver; with none selected an empty file if it was the own one, else the file as it was |
| `ControlPlaneCalls.LinkConsumed` | src/service/network_control_plane.cpp:175-233 | one link: the flag says exactly whether a published lease differs from the one remembered; then link, address and route follow it, else nothing changes |
| `ControlPlaneCalls.ReconcileChangedMeans` | src/service/network_control_plane_reconcile.cpp:113-130 | the changed-aware pass, when it succeeds: both links consumed what was waiting; the flag is true exactly if something was waiting or DNS unknown; then the resolver is settled, else nothing changed |
| `ControlPlaneCalls.ChangedRoutesAreCurrent` | src/service/network_control_plane_reconcile.cpp:113-130 | after any run with working ports in which published leases hold no separator, the changed-aware pass owns exactly the route that the lease published now asks for |
| `ControlPlaneObject.NetworkControlPlane.ClearOwnedRoute` | src/service/network_control_plane.cpp:31-45 | in place, equal to the withdrawal step |
| `ControlPlaneObject.NetworkControlPlane.EnsureOwnedRoute` | src/service/network_control_plane.cpp:47-71 | in place, equal to the ensure step |
| `ControlPlaneObject.NetworkControlPlane.ApplyAllRoutes` | src/service/network_control_plane.cpp:259-294 | in place, equal to the route pass |
| `ControlPlaneObject.NetworkControlPlane.RecomputeResolver` | src/service/network_control_plane.cpp:296-415 | in place, equal to the resolver pass |
| `ControlPlaneObject.NetworkControlPlane.StartDhcpClient` | src/service/network_control_plane.cpp:92-126 | in place, equal to the start step; keeps the object valid |
| `ControlPlaneObject.NetworkControlPlane.StopDhcpClient` | src/service/network_control_plane.cpp:128-140 | in place, equal to the stop step; keeps the object valid |
| `ControlPlaneObject.NetworkControlPlane.ApplyEthernetStatic` | src/service/network_control_plane.cpp:142-173 | in place, equal to the static step; keeps the object valid |
| `ControlPlaneObject.NetworkControlPlane.AdoptDhcp` | src/service/network_control_plane_reconcile.cpp:5-32 | in place, equal to adoption; keeps the object valid where no route is recorded |
| `ControlPlaneObject.NetworkControlPlane.ReconcileOneLink` | src/service/network_control_plane.cpp:175-233 | in place, equal to lease consumption |
| `ControlPlaneObject.NetworkControlPlane.RepairOwnedState` | src/service/network_control_plane_reconcile.cpp:34-111 | in place, equal to repair |
| `ControlPlaneObject.NetworkControlPlane.RefreshExternalState` | src/service/network_control_plane.cpp:249-257 | in place, equal to a refresh; keeps the object valid |
| `ControlPlaneObject.NetworkControlPlane.FullReconcile` | src/service/network_control_plane.cpp:235-247 | in place, equal to the full reconcile; keeps the object valid |
| `ControlPlaneObject.NetworkControlPlane.ReconcileIfChanged` | src/service/network_control_plane_reconcile.cpp:113-130 | in place, equal to the changed-aware reconcile with its flag; keeps the object valid |
| `ControlPlaneObject.NetworkControlPlane.SetRoutePolicy` | src/service/network_control_plane.cpp:417-432 | in place, equal to the policy change with roll-back; keeps the object valid |
| `Codec.Be32` | src/ipc/network_ipc_v1_codec.cpp:19-38 | the four length bytes read back as the length |
| `Codec.DecodeHeader` | src/ipc/network_ipc_v1_codec.cpp:57-95 | an accepted header has a valid type and a payload within the limit; a refused one has an error; too short exactly below 12 bytes |
| `Codec.FrameLayout` | src/ipc/network_ipc_v1_codec.cpp:97-119 | the bytes of a frame: magic, version 1, type, two zero bytes, length with the highest byte first, payload |
| `Codec.EncodesExactly` | src/ipc/network_ipc_v1_codec.cpp:97-119 | exactly payloads of up to 65536 bytes under one of the six types are encoded |
| `Codec.ParseResumes` | src/ipc/network_ipc_v1_codec.cpp:163-192 | parsing may stop after any prefix and resume from what was left; an error in the prefix is final |
| `Codec.ParsePrefix` | src/ipc/network_ipc_v1_codec.cpp:97-119 | any prefix of encoded frames decodes without error to a prefix of them, the whole to all |
| `FrameDecoding.FrameDecoder.FeedBytes` | src/ipc/network_ipc_v1_codec.cpp:121-192 | the feeding loop equals the meaning of the buffered stream, status included |
| `FrameDecoding.FrameDecoder.TakeFrame` | src/ipc/network_ipc_v1_codec.cpp:144-151 | takes exactly the oldest frame |
| `FrameDecoding.ChunkingInvariance` | src/ipc/network_ipc_v1_codec.cpp:121-192 | frames emitted in total and the error depend only on the concatenated bytes; without error less than one frame is buffered |
| `FrameDecoding.SameBytesSameFrames` | src/ipc/network_ipc_v1_codec.cpp:121-192 | two histories fed the same bytes emitted the same frames and error |
| `FrameDecoding.FirstErrorSticks` | src/ipc/network_ipc_v1_codec.cpp:121-134 | after the first error neither error nor emitted frames ever change |
| `Outbound.EnqueueAppends` | src/ipc/network_ipc_v1_outbound.cpp:14-26 | an accepted frame goes to the end of the unsent bytes, a refused one changes nothing; counter and bounds stay exact |
| `Outbound.EnqueueExactly` | src/ipc/network_ipc_v1_outbound.cpp:14-26 | a frame is accepted exactly if it is not empty and both bounds leave room; a refused one changes nothing |
| `Outbound.ConsumeDrops` | src/ipc/network_ipc_v1_outbound.cpp:60-70 | consuming removes exactly the sent bytes; counter and bounds stay exact |
| `Outbound.EmptyAccepts` | src/ipc/network_ipc_v1_outbound.cpp:14-26 | an empty queue takes any frame that fits its bounds |
| `Outbound.OutboundQueue.Push` | src/ipc/network_ipc_v1_outbound.cpp:14-26 | in place, equal to enqueue, keeping the queue valid |
| `Outbound.OutboundQueue.Drop` | src/ipc/network_ipc_v1_outbound.cpp:60-70 | in place, equal to consume, keeping the queue valid |
| `Wire.EndToEnd` | src/ipc/network_ipc_server.cpp:397-447 | for any accepted frames, partial writes and receive chunks the peer decodes exactly a prefix of the accepted frames, all of them once drained; the byte counter is exact and bounded |
| `Decimal.ParseUint64` | src/ipc/network_ipc_v1_session.cpp:188-205 | accepts a digit run exactly when its value fits 64 bits, with that value |
| `Decimal.PrintReadsBack` | src/ipc/network_ipc_v1_session.cpp:188-205 | a printed number reads back wherever it stands, unless a digit follows |
| `SessionScanner.ParseString` | src/ipc/network_ipc_v1_session.cpp:21-75 | the string loop equals the recursive meaning of a string |
| `SessionScanner.ScanNumber` | src/ipc/network_ipc_v1_session.cpp:128-161 | the number scan equals its grammar |
| `SessionScanner.ScanValue` | src/ipc/network_ipc_v1_session.cpp:173-186 | the recursive value scan equals its grammar and ends |
| `SessionScanner.ScanArray` | src/ipc/network_ipc_v1_session.cpp:79-99 | the array loop equals its grammar |
| `SessionScanner.ScanObject` | src/ipc/network_ipc_v1_session.cpp:101-126 | the object loop equals its grammar |
| `DispatchReader.JsonReader.ParseString` | src/ipc/network_ipc_v1_business_dispatch.cpp:107-154 | the string loop with surrogate pairs equals the recursive meaning of a string |
| `DispatchReader.JsonReader.SkipAny` | src/ipc/network_ipc_v1_business_dispatch.cpp:161-172 | the value skip equals its grammar and ends |
| `DispatchReader.JsonReader.SkipBraces` | src/ipc/network_ipc_v1_business_dispatch.cpp:174-189 | the object skip equals its grammar |
| `DispatchReader.JsonReader.SkipBrackets` | src/ipc/network_ipc_v1_business_dispatch.cpp:191-202 | the array skip equals its grammar |
| `DispatchReader.JsonReader.SkipOneNumber` | src/ipc/network_ipc_v1_business_dispatch.cpp:204-236 | the number skip equals its grammar |
| `DispatchReader.JsonReader.FindMember` | src/ipc/network_ipc_v1_business_dispatch.cpp:23-54 | finds the span of a key exactly when the object is well formed and the key occurs once |
| `DispatchReader.JsonReader.ParseFullString` | src/ipc/network_ipc_v1_business_dispatch.cpp:56-62 | succeeds exactly on a quoted string with only white space around it |
| `JsonValues.ValueScans` | src/ipc/network_ipc_v1_session.cpp:77-186 | every printed JSON value, in any layout and wherever it stands, is scanned to exactly its end by both scanners if its depth and height stay within 16, and refused by both if not |
| `JsonValues.PrintedScans` | src/ipc/network_ipc_v1_business_dispatch.cpp:161-236 | the same for a printed value on its own |
| `Embedding.WholeStands` | src/ipc/network_ipc_v1_business_dispatch.cpp:161-236 | a text that scans as one value keeps its extent inside any text, unless a number goes on behind it |
| `JsonObjects.EntryFound` | src/ipc/network_ipc_v1_business_dispatch.cpp:23-54 | in a printed object with distinct keys a lookup finds exactly the text printed under the key, whatever JSON it is |
| `JsonObjects.OtherNotFound` | src/ipc/network_ipc_v1_business_dispatch.cpp:23-54 | and nothing under any other key |
| `JsonObjects.ObjectWhole` | src/ipc/network_ipc_v1_business_dispatch.cpp:174-189 | a printed object scans as one value, one level above its members |
| `JsonAgreement.SkipValueAgrees` | src/ipc/network_ipc_v1_session.cpp:173-186 | at equal depth the dispatcher accepts a value only with the session span, and the session only where the dispatcher does or a digit follows a zero |
| `JsonAgreement.ValuesDifferExactly` | src/ipc/network_ipc_v1_business_dispatch.cpp:204-215 | at equal depth the two scanners differ on a value if and only if it is a number with a digit behind a leading zero |
| `JsonAgreement.ZeroOneDiffers` | src/ipc/network_ipc_v1_business_dispatch.cpp:204-215 | such a text |
| `JsonAgreement.SkipArrayAgrees` | src/ipc/network_ipc_v1_session.cpp:79-99 | on texts without surrogate escapes both scanners accept the same array spans |
| `JsonAgreement.SkipObjectAgrees` | src/ipc/network_ipc_v1_session.cpp:101-126 | on texts without surrogate escapes both scanners accept the same object spans |
| `JsonAgreement.DepthMonotone` | src/ipc/network_ipc_v1_business_dispatch.cpp:161-202 | what is accepted with less depth left is accepted with more, with the same span |
| `JsonAgreement.SessionDepthMonotone` | src/ipc/network_ipc_v1_session.cpp:77-186 | the same for the session scanner, on any text |
| `JsonAgreement.ParametersReadable` | src/ipc/network_ipc_v1_business_dispatch.cpp:23-54 | on every acceptable parameter object a lookup fails only for a missing or repeated key |
| `JsonAgreement.HandedOverReadable` | src/ipc/network_ipc_v1_session.cpp:280-349 | the parameters of every request that parses are such an object |
| `JsonStrings.EscapeText` | src/ipc/network_ipc_representation.cpp:51-76 | the escaping loop equals escaping character by character |
| `JsonStrings.EscapeRoundTrip` | src/ipc/network_ipc_representation.cpp:51-76 | every byte string survives escaping, quoting and reading |
| `JsonStrings.Utf8RoundTrip` | src/ipc/network_ipc_v1_business_dispatch.cpp:65-93 | the octets of a scalar decode by the table of section 3 of RFC 3629 to that scalar |
| `JsonStrings.ItemsReadBack` | src/ipc/network_ipc_v1_business_dispatch.cpp:107-154 | every string of plain characters, letter escapes and scalars in escapes, as pairs above U+FFFF, reads in full as its octets |
| `JsonStrings.LoneSurrogateRejected` | src/ipc/network_ipc_v1_business_dispatch.cpp:107-154 | a string in which the reader comes upon a lone surrogate escape is refused, whatever it passed before and whatever follows |
| `JsonStrings.LoneSurrogateInText` | src/ipc/network_ipc_v1_business_dispatch.cpp:107-154 | the same for any run of characters and escapes in front and any text behind |
| `Requests.ParseRequest` | src/ipc/network_ipc_v1_session.cpp:280-349 | the request loop equals its recursive meaning, errors and partial results included |
| `Requests.ResponseReadsBack` | tools/rc/network_service_rc_probe.cpp:251-267 | the id in any response text reads back equal |
| `RequestRoundTrip.ParamsInside` | src/ipc/network_ipc_v1_session.cpp:320-328 | a parameter object stays acceptable inside any text |
| `RequestRoundTrip.ParamsCutOut` | src/ipc/network_ipc_v1_session.cpp:320-328 | what the session cuts out as parameters is an acceptable object on its own |
| `RequestRoundTrip.ParseInvertsPrint` | tools/rc/network_service_rc_probe.cpp:328-335 | for every non-zero 64-bit id, plain non-empty method and parameter object, parsing inverts the client printer |
| `RequestMembers.ParseIsFold` | src/ipc/network_ipc_v1_session.cpp:280-349 | on every JSON object, in any layout, the parser gives the verdict and the request of a fold over the members with one rule per key: duplicates, types, ranges, depth and missing members |
| `HelloMembers.HelloIsFold` | src/ipc/network_ipc_v1_session.cpp:207-256 | the same for the version range of a HELLO |
| `Sessions.ParseHelloVersions` | src/ipc/network_ipc_v1_session.cpp:207-256 | the HELLO loop equals its recursive meaning |
| `Sessions.RequestAnswered` | src/ipc/network_ipc_v1_session.cpp:461-507 | a request is answered under its id, or handed on with that id and the session untouched; only the first subscription emits |
| `Sessions.FrameAnswered` | src/ipc/network_ipc_v1_session.cpp:380-410 | an open session answers every frame or hands it on; only a valid HELLO makes it ready, only a ready one acts |
| `Sessions.SessionEndpoint.OnRequest` | src/ipc/network_ipc_v1_session.cpp:461-507 | in place, equal to request handling |
| `Sessions.SessionEndpoint.OnFrame` | src/ipc/network_ipc_v1_session.cpp:380-410 | in place, equal to frame handling |
| `ReplyTexts.RequestMeans` | src/ipc/network_ipc_v1_session.cpp:461-507 | a ready session answers a printed network.ping with the ping result, leaves network.snapshot to the server, records, answers and announces network.events.subscribe, and dispatches any other method with its id and parameters; results are read back from the reply |
| `ReplyTexts.BadRequestMeans` | src/ipc/network_ipc_v1_session.cpp:461-476 | a request that does not parse changes nothing: status 400 under its id where that is known, an INVALID_REQUEST_ID error otherwise |
| `ReplyTexts.InvalidReads` | src/ipc/network_ipc_v1_session.cpp:449-459 | from such a response a client reads id, status 400, code and the message of the error |
| `ReplyTexts.RefusalMeans` | src/ipc/network_ipc_v1_session.cpp:380-410 | each wrong frame closes the session with its own error code; a closed session says nothing |
| `ReplyTexts.ReadyReads` | src/ipc/network_ipc_v1_session.cpp:433-439 | from READY a client reads version, service, session name, generation and capabilities |
| `ReplyTexts.HelloMeans` | src/ipc/network_ipc_v1_session.cpp:380-401 | a HELLO whose range contains version 1 makes the session ready and is answered by READY with its name and generation |
| `ReplyTexts.ResponseReads` | src/ipc/network_ipc_v1_business_dispatch.cpp:328-336 | from a response a client reads id, status and result or error exactly as printed |
| `DaemonTexts.OutcomeReads` | src/ipc/network_ipc_v1_business_dispatch.cpp:314-346 | from the response to an operation a client reads id, status and result, or status, code and message, for any message |
| `Handshake.HelloReadsBack` | src/ipc/network_ipc_v1_session.cpp:207-256 | a printed version range reads back, unless it is upside down |
| `Handshake.HelloNegotiates` | src/ipc/network_ipc_v1_session.cpp:380-401 | a fresh session becomes ready exactly when the offered range contains version 1 |
| `Events.EventSequencer.Encode` | src/ipc/network_ipc_v1_event.cpp:55-76 | in place: a sequence is given out exactly when an event is encoded, never after the last one; the text is that of EventMembersRead |
| `Events.RebaseTracker.RebaseTo` | src/ipc/network_ipc_v1_rebase.cpp:17-26 | in place: generation 0 invalidates, any other sets the baseline |
| `Events.RebaseTracker.ObserveEvent` | src/ipc/network_ipc_v1_rebase.cpp:28-47 | in place: accepts only the next sequence of its generation, ignores older ones, otherwise drops the baseline |
| `Events.EventReadsBack` | src/ipc/network_ipc_v1_event.cpp:55-66 | generation and sequence read back from the text of an event of any name, by first occurrence of their keys |
| `Events.EventMembersRead` | src/ipc/network_ipc_v1_event.cpp:55-66 | from the text of an event a client finds its name, both numbers and exactly the payload that was printed, for every payload that is a JSON value |
| `Events.ObserveExactly` | src/ipc/network_ipc_v1_rebase.cpp:28-47 | an event is accepted exactly if it is the next of the baseline generation, ignored exactly if the baseline covers it, and drops the baseline otherwise |
| `Events.SnapshotReadsBack` | src/ipc/network_ipc_v1_rebase.cpp:61-77 | generation and watermark read back from a snapshot response |
| `DaemonTexts.SnapshotMembersRead` | src/ipc/network_ipc_v1_rebase.cpp:61-77 | from a snapshot response a client reads id, status, generation, watermark and exactly the snapshot that was printed |
| `DaemonTexts.ChangedNames` | src/ipc/network_ipc_representation.cpp:94-110 | the list names exactly the parts that changed |
| `Broadcasts.ChangesRead` | src/ipc/network_ipc_representation.cpp:94-110 | from a state-change payload a client reads exactly that list |
| `Broadcasts.BroadcastReaches` | src/ipc/network_ipc_server.cpp:322-343 | an event is logged under the next sequence unless all were given out; a listener with room is sent a frame that reads as it, one without is closed, and nobody else changes |
| `Broadcasts.StateChangeTold` | src/ipc/network_ipc_server.cpp:345-355 | a change set with nothing in it is not told; any other goes to every listener as network.state.changed with its list |
| `Broadcasts.SubscriptionTold` | src/ipc/network_ipc_server.cpp:449-463 | the first subscription of a session is answered and then told to every listener, itself included, as network.events.subscribed |
| `ReactorSafety.BroadcastOk` | src/ipc/network_ipc_server.cpp:322-343 | after a broadcast every ready, open subscriber holds it, whoever overflowed; a refused event gives out no sequence |
| `ReactorSafety.ServeSnapshot` | src/ipc/network_ipc_server.cpp:464-474 | a snapshot response carries the last sequence, covers exactly the events so far and answers its request; it fails to go out only if it cannot be encoded |
| `ReactorSafety.ServeDispatch` | src/ipc/network_ipc_server.cpp:475-486 | a dispatched request is answered under its id, or the connection closes exactly when the answer cannot be encoded |
| `ReactorSafety.ServeOk` | src/ipc/network_ipc_server.cpp:449-490 | serving a frame keeps the invariant of every connection |
| `ReactorRuns.StepOk` | src/ipc/network_ipc_server.cpp:277-604 | every step of the reactor and of a peer keeps the invariant |
| `ReactorRuns.EveryRunOk` | src/ipc/network_ipc_server.cpp:277-604 | the invariant holds in every reachable state |
| `ReactorRuns.FanOutContiguous` | src/ipc/network_ipc_server.cpp:299-343 | the sequences sent to a ready, open, subscribed session are consecutive and end at the last one given out |
| `ReactorRuns.OneReplyEach` | src/ipc/network_ipc_server.cpp:449-503 | on an open connection every frame taken has exactly one reply, in order and correlated; nothing is dispatched and nobody subscribes before a valid HELLO; a session announces itself at most once |
| `ReactorRuns.ServedUnlessUnanswerable` | src/ipc/network_ipc_server.cpp:449-490 | serving closes a connection if and only if the answer text is too long, the snapshot empty or the sequencer exhausted: never by overflow |
| `ReactorSteps.ConnectMeans` | src/ipc/network_ipc_server.cpp:763-791 | up to eight connections are accepted, each undecided and silent; further ones are turned away |
| `ReactorSteps.CommitMeans` | src/ipc/network_ipc_server.cpp:520-549 | four bytes decide: the magic makes a session of this generation with a fresh name that has received every byte so far, anything else the old protocol; too many bytes close |
| `ReactorSteps.ReceiveMeans` | src/ipc/network_ipc_server.cpp:551-604 | bytes of a session reach its decoder in order; it closes exactly when they cannot be decoded |
| `ReactorSteps.ServeTakes` | src/ipc/network_ipc_server.cpp:449-490 | serving takes exactly the oldest decoded frame and the session becomes what it makes of that frame |
| `ReactorSteps.ServeDispatches` | src/ipc/network_ipc_server.cpp:475-486 | a dispatched request is handed over once with its method and parameters and answered by the outcome under its id |
| `ReactorSteps.ServeSnapshots` | src/ipc/network_ipc_server.cpp:464-474 | a snapshot request is answered by the daemon snapshot with the last sequence as watermark |
| `ReactorSteps.FlushMeans` | src/ipc/network_ipc_server.cpp:397-447 | a send writes exactly the next unsent bytes; a connection that is to close does so exactly when nothing is left |
| `ReactorObject.IpcReactor.BroadcastEvent` | src/ipc/network_ipc_server.cpp:322-343 | the fan-out loop equals delivering to every connection |
| `ReactorObject.IpcReactor.CleanupClients` | src/ipc/network_ipc_server.cpp:286-297 | the erasing loop keeps exactly the open connections, in order |
| `ReactorObject.IpcReactor.FlushClient` | src/ipc/network_ipc_server.cpp:397-447 | the sending loop under its byte budget equals its meaning |
| `ReactorObject.IpcReactor.ProcessV1Frame` | src/ipc/network_ipc_server.cpp:449-490 | in place, equal to serving a frame; tells whether to go on |
| `ReactorObject.IpcReactor.ServiceBuffered` | src/ipc/network_ipc_server.cpp:492-503 | the loop over at most four frames equals its meaning |
| `ReactorObject.ServiceTurnOk` | src/ipc/network_ipc_server.cpp:492-503 | a whole service turn keeps the invariant |
| `EventDelivery.NoHolesEndToEnd` | src/ipc/network_ipc_v1_rebase.cpp:17-47 | a client that decoded any number of frames and has a baseline knows exactly the events up to its latest sequence, none missing: names, payloads and numbers are those it reads from the texts |
| `EventDelivery.SnapshotDelivered` | src/ipc/network_ipc_server.cpp:464-474 | the snapshot a client digs out of a response in any run is the one the daemon gave, and covers exactly the events up to its watermark |
| `EventDelivery.LiveAfterSnapshot` | src/ipc/network_ipc_server.cpp:449-474 | once a snapshot was sent to a subscribed session, its client accepts every later event, whatever others do |
| `WifiLifecycle.LinkKeeps` | src/service/wifi_manager.cpp:21-83 | every block of the link-event thread keeps the invariant |
| `WifiLifecycle.WorkerKeeps` | src/service/wifi_manager.cpp:85-128 | every block of a stop or a process check keeps the invariant |
| `WifiLifecycle.EveryRunAccounted` | src/service/wifi_manager.cpp:21-128 | in every interleaving a running client is accounted for by an active state, a pending stop or an unpublished start, and the operation lock has one holder |
| `WifiLifecycle.NoLeakedClient` | src/service/wifi_manager.cpp:69-98 | after a disconnect with nothing in flight no DHCP client runs |
| `WifiLifecycle.OnlyActiveRuns` | src/service/wifi_manager.cpp:100-108 | with nothing in flight a client runs only while the state is active |
| `WifiLifecycle.NeverStuck` | src/service/wifi_manager.cpp:21-128 | a thread in flight can always move |
| `WifiLifecycle.ConnectStarts` | src/service/wifi_manager.cpp:21-67 | run alone, a connect without an active lifecycle counts a request, starts the client and publishes Running, or Failed with its reason; with one it starts nothing |
| `WifiLifecycle.ConnectSettles` | src/service/wifi_manager.cpp:21-67 | in every interleaving: after a connect, as long as nothing stops or kills the client and no start fails, once nothing is in flight the client runs and the state is Running |
| `WifiLifecycle.StopsAlone` | src/service/wifi_manager.cpp:69-98 | run alone, a disconnect and an explicit stop leave the lifecycle idle without a reason and stop the client of an active one |
| `WifiLifecycle.CheckAlone` | src/service/wifi_manager.cpp:110-128 | run alone, a check reports a running lifecycle whose client is gone as failed and changes nothing otherwise |
| `WifiLifecycle.WifiManager.OnConnected` | src/service/wifi_manager.cpp:21-67 | run alone, equal to its blocks in order |
| `WifiLifecycle.WifiManager.OnDisconnected` | src/service/wifi_manager.cpp:69-83 | run alone, equal to its blocks in order |
| `WifiLifecycle.WifiManager.StopDhcp` | src/service/wifi_manager.cpp:85-98 | run alone, equal to its blocks in order |
| `WifiLifecycle.WifiManager.ReconcileProcess` | src/service/wifi_manager.cpp:110-128 | run alone, equal to its blocks in order; reports exactly whether anything changed |
| `ScanFence.WifiScanLifecycle.Start` | src/service/wifi_scan_lifecycle.cpp:32-50 | in place, equal to opening a scan |
| `ScanFence.WifiScanLifecycle.Poll` | src/service/wifi_scan_lifecycle.cpp:52-83 | in place, equal to polling a scan |
| `ScanFence.MarkersMean` | src/platform/wpa_event_monitor.cpp:171-191 | the counters compare exactly as the latest events stand in the log |
| `ScanFence.PollIsFenced` | src/service/wifi_scan_lifecycle.cpp:52-83 | a poll reports ready exactly when a start was seen after the baseline, results after the latest start, no later failure, and records, which are those fetched; a failed one says why and holds none; past the deadline never scanning |
| `ScanFence.StartOpensGeneration` | src/service/wifi_scan_lifecycle.cpp:32-42 | starting while scanning changes nothing, otherwise the baseline is the present and nothing earlier counts |
| `ScanFence.StartMeans` | src/service/wifi_scan_lifecycle.cpp:32-50 | a launched scan scans against the markers of now until its timeout from now; one that cannot be launched has failed with the reason given |
| `ScanFence.DeadlineStays` | src/service/wifi_scan_lifecycle.cpp:52-83 | no step but one that ends it moves the baseline or the deadline of a running scan |
| `ScanFence.WrapDefeatsFence` | src/platform/wpa_event_monitor.cpp:89-92 | with more counted events than the counter has values, a stale scan completes a new one |
| `ScanFence.FencedExactly` | src/platform/wpa_event_monitor.cpp:89-92 | the fence holds for all runs of n counted events if and only if n is at most 2^64 - 1 |
| `LeaseStore.PathsDistinct` | src/platform/dhcp_lease_store.cpp:50-57 | marker, lease and temporary files with different names are different files |
| `LeaseStore.ServiceKeysDistinct` | src/platform/udhcpc_process.cpp:138-146 | lease files of generations as the service names them never coincide, whatever the interfaces are called |
| `LeaseStore.WholeExactly` | src/platform/udhcpc_process.cpp:176-183 | a lease file is the whole report if and only if no line is missing |
| `LeaseStore.ParseLease` | src/platform/dhcp_lease_store.cpp:125-146 | the reading loop equals absorbing line by line |
| `LeaseStore.LeaseReadsBack` | src/platform/udhcpc_process.cpp:176-183 | a lease file reads back, field by field, what its lines say |
| `LeaseStore.LeaseLayout` | src/platform/udhcpc_process.cpp:176-183 | the lines of a lease file, in order |
| `LeaseStore.FirstTokenExactly` | src/platform/dhcp_lease_store.cpp:34-39 | of a list of addresses exactly the first word is kept: white space before it is passed over, white space or the end stops it, and blank text gives none |
| `LeaseFence.EveryRunOk` | src/platform/udhcpc_process.cpp:164-192 | in every interleaving each lease file is one publication of a callback with that file name: lines of one report, the last among them |
| `LeaseFence.ReadIsFresh` | src/platform/dhcp_lease_store.cpp:109-164 | a fact that is read was reported to a callback of the active generation of that interface and tells what its lines say, gateway and nameserver being first words; it is the full report if and only if no missing line held anything |
| `LeaseFence.LaterReadIsFresh` | src/platform/dhcp_lease_store.cpp:117-123 | the same when anything happens between reading the marker and opening the lease |
| `LeaseFence.CallbacksKeepMarker` | src/platform/udhcpc_process.cpp:164-192 | callbacks never change which generation is active |
| `LeaseFence.StaleIsHarmless` | src/platform/udhcpc_process.cpp:164-192 | no command of a callback of another generation touches the lease of the active one |
| `LeaseFence.OthersAreHarmless` | src/platform/udhcpc_process.cpp:164-192 | with generations as the service names them, no callback of any other interface or generation touches an active lease |
| `LeaseFence.PublishedIsRead` | src/platform/dhcp_lease_store.cpp:125-164 | what reading a published file gives, for any missing lines |
| `LeaseFence.ShortLeaseIsRead` | src/platform/udhcpc_process.cpp:174-187 | a run in which a lost line goes unnoticed and a lease is read without its gateway |
| `LeaseFence.CollidingLeaseIgnored` | src/platform/dhcp_lease_store.cpp:148-151 | a file that another interface left under a colliding name is never taken for a lease |
| `LeaseFence.CallbackDelivers` | src/platform/udhcpc_process.cpp:169-192 | an undisturbed callback of the active generation publishes the lines it could write; the reader gets the full report if and only if no missing line held anything |
| `LeaseFence.ActivateMeans` | src/platform/dhcp_lease_store.cpp:58-82 | activating makes a generation the active one and changes no other file |
| `LeaseFence.ClearMeans` | src/platform/dhcp_lease_store.cpp:166-176 | after a clear no lease and no generation is read; exactly the marker and the lease file of the active generation are gone |
| `EthernetConfig.TrimText` | src/config/ethernet_config.cpp:22-36 | the two index loops equal trimming from both ends |
| `EthernetConfig.LoadConfig` | src/config/ethernet_config.cpp:100-126 | the reading loop equals absorbing line by line, with the fall-backs |
| `EthernetConfig.LoadInvertsSerialize` | src/config/ethernet_config.cpp:75-126 | loading inverts printing if and only if the interface has a name, the method is dhcp or static and the text fields are trimmed single lines |
| `EthernetConfig.SerializeLayout` | src/config/ethernet_config.cpp:75-86 | the lines of a configuration file, in order |
| `EthernetConfig.LoadMeans` | src/config/ethernet_config.cpp:100-126 | whatever a file holds, each setting is that of the last line with its key, trimmed; missing ones are DHCP, metric 10, DNS enabled and the given interface or eth0; any method but static is DHCP and any flag but 0 enables DNS |
| `EthernetConfig.NumberMeans` | src/config/ethernet_config.cpp:120-121 | the metric is read from a sign and digits, whatever stands behind them |
| `EthernetTransaction.AppliedHolds` | src/service/network_daemon.cpp:121-135 | a runtime change that reports success leaves records, address or client, route and resolver as configured |
| `EthernetTransaction.StageMeans` | src/config/ethernet_config.cpp:128-178 | a stage is a new file with the whole text; a failed one leaves nothing if and only if it was never created or could be removed |
| `EthernetTransaction.PathMeans` | src/config/ethernet_config.cpp:88-98 | where the file lies, with or without a closing slash in the directory |
| `EthernetTransaction.ReasonMeans` | src/service/network_daemon.cpp:137-199 | the text a refusal gives: the stage, the message of the runtime, or the commit, and behind it a failed way back exactly if that has a message |
| `EthernetTransaction.EthernetDaemon.ApplyTransaction` | src/service/network_daemon.cpp:143-199 | in place, equal to the transaction on files and runtime |
| `EthernetTransaction.TransactionCases` | src/service/network_daemon.cpp:143-199 | a transaction is exactly one of: not staged and runtime untouched, driven back through the previous configuration, or committed |
| `EthernetTransaction.TransactionAgrees` | src/service/network_daemon.cpp:143-199 | success: file and runtime hold the desired configuration; refusal: the configuration file is unchanged, all files are if and only if the stage was never created or could be removed, and the runtime is untouched or holds the previous configuration or the failed way back is the reported one |
| `EthernetTransaction.UnreportedIsRestored` | src/service/network_daemon.cpp:137-141 | where ports explain their failures, a refusal without a reported rollback failure restored the runtime |
| `EthernetTransaction.RestoredExactly` | src/service/network_daemon.cpp:137-199 | refusals that report no failed rollback leave the runtime untouched or restored, from every sound state, if and only if no port call behind the first can fail without a message |
| `EthernetTransaction.SilentRollback` | src/service/network_daemon.cpp:137-199 | for every port behaviour with a wordless failure behind the first call, a transaction whose way back fails unreported |

## Left out

- Absent ports: the control plane's checks for ports that were never supplied are not
  modelled; the daemon supplies all of them.
- Interfaces: the two managed interfaces are taken to have different names.
- A failed `set_primary_dns` may leave a half-written resolver file; in the model a
  failing port call has no effect.
- Snapshot reading, `/proc` parsing, netlink, process probing and signalling: the kernel
  is a value, and DHCP clients are a set of interfaces.
- The session's codes and messages are constants without anything to escape; the model
  prints them through the escaping printer, which gives the same texts.
- Business operations: the snapshot text and the dispatcher's answer to a request are
  parameters; the method table and payload field lists would only add easy members.
- Protocol version 0: such connections are recognised and never hear events; their
  requests and raw replies are not modelled.
- Sockets, poll, accept and deadlines: byte counts, step choice and hang-ups stand for
  them. `OutboundWriter` is not used by the reactor.
- LeaseStore.LeaseReadsBack: callback values are single lines, as the DHCP client
  formats addresses, and a line is written whole or not at all.
- The temporary file of a generation marker: activation is its final rename.
- EthernetConfig.LoadConfig: `atoi` outside the range of int is undefined in the
  source; the model reads the mathematical value.
- WifiLifecycle.NoLeakedClient: a stop is taken to end the client; a client of another
  owner, which the platform refuses to touch, is outside the model.
- WifiLifecycle.WifiManager.OnConnected: one call run alone, without the locks; the
  interleavings are those of the steps it is equal to.
- WifiLifecycle.WifiManager.OnDisconnected: one call run alone, as above.
- WifiLifecycle.WifiManager.StopDhcp: one call run alone, as above.
- WifiLifecycle.WifiManager.ReconcileProcess: one call run alone, as above.
- Link-state text and failure reasons of the supplicant monitor: only its counters and
  scan markers are modelled.
- `NetworkStateChangeDetector`, `WifiProfilePolicy`, `normalize_network_snapshot`, name
  tables, the singleton lock, supervision scripts and release tooling: each is settled by
  reading one function.
