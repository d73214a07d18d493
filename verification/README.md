# Blixt: a verified model

Blixt is a layer-4 load balancer for Kubernetes. This project models, in Dafny 4.11, the parts of
it where a mistake is hard to see:

- **The data plane.** eBPF programs and an API server share three bounded maps: `BACKENDS` (the
  backends of a virtual address, a VIP), `GATEWAY_INDEXES` (whose turn it is) and `LB_CONNECTIONS`
  (tracked clients). Four kinds of packet and two RPCs change them.
- **Header checksums.** Egress programs rebuild IPv4 checksums by folding; ingress programs update
  them incrementally.
- **The Gateway reconciler.** It computes listener and Gateway conditions, keeps a LoadBalancer
  Service in line with the Gateway, and writes the status.

`dafny verify dfyconfig.toml` checks everything.

## How it is built

| file | content |
|---|---|
| `Wire.dfy`, `Checksum.dfy`, `Headers.dfy` | bytes and byte order, RFC 1071 sums, header rewriting |
| `Types.dfy`, `Tracker.dfy`, `Machine.dfy` | map contents, the TCP closing states, one step per packet or RPC |
| `DataPlane.dfy` | handlers and RPCs in place on maps and packet buffers, each proved equal to its step |
| `Invariant.dfy`, `Affinity.dfy`, `RoundRobin.dfy`, `TcpClose.dfy` | properties of all runs of atomic steps |
| `DeleteProtocol.dfy` | Delete cut into its removals, with packets in between |
| `Interleaving.dfy` | every handler and RPC cut at every map operation, in any interleaving |
| `Witnesses.dfy` | runs from empty maps that end where a promise fails |
| `GatewayTypes.dfy`, `Conditions.dfy`, `Listeners.dfy`, `ServiceSync.dfy`, `Reconcile.dfy` | the reconciler's decisions as functions, and their properties |
| `GatewayController.dfy` | the reconciler's loops and in-place updates, proved equal to those functions |

The maps hold 128 entries: a new key in a full map is refused, an overwrite is not, and removing an
absent key fails. Where such a failure ends a handler early, so does the model. Kernel helpers
appear as methods whose contract is one congruence modulo 65535; callers see nothing else of them.
Whether a rewriting helper succeeds, what the routing lookup answers, what the Kubernetes API
answers, and what the clock shows are parameters.

The code does not always do what its comments promise. The model follows the code. Each case has a
lemma with the exact condition, followed here by the concrete input that shows it:

- RST does not drop a connection that the same packet also moves to a later closing state
  (`TcpClose.ResetDropsUnlessAdvancing`; `Witnesses.ResetSurvivor`).
- RST with ACK on a connection in TimeWait ends it but is not passed on to the backend, because the
  entry is removed twice (`Affinity.ForwardedExactly`; `Witnesses.LastResetIsLost`).
- A first TCP packet with RST, or with FIN while tracking is full, or whose rewriting fails, uses up
  a turn and goes nowhere (`RoundRobin.TurnTarget`; `Witnesses.TurnIsLost`).
- Entries under port 0 can be rebound by a datagram (`Affinity.StepBinding`;
  `Witnesses.PortZeroIsRebound`).
- A rewriting that stops half-way can leave an invalid IPv4 checksum. UDP ingress stores the new
  address before it knows whether it will update the checksum (`Headers.StoredFirstValidIff`), and
  TCP ingress updates the checksum before it knows whether the address will be stored
  (`Headers.UpdatedFirstValidIff`; `Headers.HalfRewrittenExample` for both).
- Rebuilt checksums cover twenty bytes, whatever the header length (`Headers.RebuiltWithOptions`;
  `Headers.NoOperationOptionsFail`).
- Delete fails exactly if one of its removals finds nothing left to remove. It then leaves the rest
  behind, and cannot be repeated (`DeleteProtocol.FailsIffMisses`, `DeleteProtocol.FailureIsFinal`;
  `Witnesses.FailedSweepLeavesClients`).
- The sweep of Delete removes by client. It drops an entry of another VIP exactly when a listed
  client has been bound elsewhere since the snapshot (`DeleteProtocol.DropsForeignIff`;
  `Witnesses.ReboundClientIsSwept`).
- An index without a list appears exactly when an index write, by an Update or by a packet, finds
  neither the VIP's list nor a Delete about to remove its index. Taking RPCs one at a time does not
  prevent it (`Interleaving.IndexesBackedIff`; `Witnesses.LateIndexWrite`).
- A Gateway without a status is accepted whatever its listeners, and its first run can report
  Programmed for listeners that every later run rejects (`Listeners.AcceptanceFromSpec`,
  `Reconcile.WrittenFromAbsent`; `Reconcile.InvalidListenerProgrammed`).
- An absent load balancer address is never set, and filling in an absent type or absent ports is not
  reported (`ServiceSync.AddressReflectedIff`, `Reconcile.CreatedService`, `ServiceSync.FlagIsExact`;
  `ServiceSync.FreshServiceExample` for both).
- `set_ipv4_dest_port` stores the port at the checksum offset. TCP ingress therefore leaves the
  destination port as it was and puts the port into the checksum field (`Headers.SetIpv4DestPort`,
  `DataPlane.LoadBalancer.HandleTcpIngress`).

## Model

| member | source | states |
|---|---|---|
| `Checksum.CsumFoldHelper` | dataplane/ebpf/src/utils.rs:45-52 | the result is the complement of a value congruent to the 64-bit input modulo 65535 that is zero only for zero |
| `Checksum.FoldIsDetermined` | dataplane/ebpf/src/utils.rs:45-52 | those two facts determine the folded checksum |
| `Checksum.FourFoldsFit` | dataplane/ebpf/src/utils.rs:46-51 | four conditional folds bring every 64-bit value into 16 bits, so the cast loses nothing |
| `Checksum.ThreeFoldsDoNotFit` | dataplane/ebpf/src/utils.rs:46-51 | three folds do not |
| `Headers.WordsCoverBytes` | dataplane/ebpf/src/egress/tcp.rs:64-72 | the five native words given to the helper are exactly the twenty header bytes, on either byte order |
| `Headers.RebuildCheck` | dataplane/ebpf/src/egress/tcp.rs:63-73 | zero, sum, fold, store: only the checksum changes, and it is the one the header calls for |
| `Headers.RebuiltVerifies` | dataplane/ebpf/src/egress/icmp.rs:48-62 | a rebuilt header passes the receiver's check of RFC 1071 on hosts of either byte order, and no other value counts as rebuilt |
| `Headers.RebuiltWithOptions` | dataplane/ebpf/src/egress/tcp.rs:64-72 | with IP options the rebuilt header verifies exactly when the options sum to a multiple of 65535 |
| `Headers.NoOperationOptionsFail` | dataplane/ebpf/src/egress/tcp.rs:64-72 | four no-operation options make every rebuilt header fail |
| `Headers.SetIpv4IpDst` | dataplane/ebpf/src/utils.rs:142-196 | both checksums move by the difference of the addresses, and each failing helper stops the later writes |
| `Headers.SetIpv4DestPort` | dataplane/ebpf/src/utils.rs:200-242 | on success the checksum field holds the new port and the port field is as before; what a failing helper leaves instead |
| `Headers.IncrementalKeepsValidity` | dataplane/ebpf/src/utils.rs:161-186 | an incremental update neither breaks a valid header nor repairs an invalid one |
| `Headers.IncrementalAgreesWithRebuild` | dataplane/ebpf/src/utils.rs:161-186 | incremental and rebuilt checksum agree, up to the two encodings of zero, exactly when the header was right before |
| `Headers.StoredFirstValidIff` | dataplane/ebpf/src/ingress/udp.rs:71-102 | a datagram rewritten but not updated stays valid exactly when old and new address agree modulo 65535 |
| `Headers.UpdatedFirstValidIff` | dataplane/ebpf/src/utils.rs:161-193 | a header whose checksum was updated but whose address was not stored stays valid exactly when the two addresses agree modulo 65535 |
| `Headers.HalfRewrittenExample` | dataplane/ebpf/src/utils.rs:161-193 | a concrete valid header that either half of the rewriting alone makes invalid |
| `Headers.IcmpChecksumSurvives` | dataplane/ebpf/src/egress/icmp.rs:64-82 | rewriting and rebuilding the quoted header keeps the untouched ICMP checksum valid, for any payload, exactly when the quoted header summed to zero before |
| `Wire.FromBeReadsNetworkOrder` | dataplane/ebpf/src/ingress/tcp.rs:36-39 | keys hold the network-order value of the wire bytes on either host |
| `Wire.BeRoundTrip` | dataplane/ebpf/src/egress/tcp.rs:51-56 | converting a field to host order and back restores it |
| `Tracker.ProcessTcpStateTransition` | dataplane/ebpf/src/utils.rs:59-111 | the next closing state; a transition is reported exactly when the rank rises |
| `DataPlane.LoadBalancer.UpdateTcpConns` | dataplane/ebpf/src/utils.rs:116-137 | remove on Closed, store on a transition, report whether the map operation succeeded |
| `DataPlane.LoadBalancer.Select` | dataplane/ebpf/src/ingress/tcp.rs:62-95 | a choice exists exactly when both lookups and both checks pass; it is the backend in the slot in turn, with the next slot |
| `DataPlane.LoadBalancer.RewriteDestination` | dataplane/ebpf/src/ingress/tcp.rs:131-141 | what each combination of failing helpers leaves in address, header checksum and TCP or UDP checksum |
| `DataPlane.KeysIdentify` | dataplane/ebpf/src/ingress/tcp.rs:32-57 | keys hold the numbers on the wire, on either host, so two endpoints never share one |
| `DataPlane.LoadBalancer.HandleTcpIngress` | dataplane/ebpf/src/ingress/tcp.rs:25-165 | the maps take the step of the packet; the packet is rewritten towards the backend `Affinity.ForwardedExactly` names, or untouched; the port field never changes, and the checksum field takes the port or moves as far as the helpers got |
| `DataPlane.LoadBalancer.HandleUdpIngress` | dataplane/ebpf/src/ingress/udp.rs:23-131 | likewise, with address and port stored before the entry is recorded |
| `DataPlane.LoadBalancer.HandleTcpEgress` | dataplane/ebpf/src/egress/tcp.rs:23-90 | a tracked reply leaves with the VIP's address and port, a rebuilt IPv4 checksum and a zero TCP checksum; any other packet is untouched |
| `DataPlane.LoadBalancer.HandleIcmpEgress` | dataplane/ebpf/src/egress/icmp.rs:21-87 | outer and quoted header rewritten and rebuilt, the entry removed; a truncated message changes the outer header only |
| `DataPlane.LoadBalancer.FillArray` | dataplane/api-server/src/server.rs:122-162 | the counted array is the list of the targets, padded with zero; `Invariant.SlotsHoldTargets` says this field by field |
| `DataPlane.LoadBalancer.Update` | dataplane/api-server/src/server.rs:110-174 | the maps and the result are those of the Update step |
| `DataPlane.LoadBalancer.Remove` | dataplane/api-server/src/server.rs:54-89 | the maps and the result are those of the Delete step, whatever the order of the snapshot |
| `Machine.CollectMeaning` | dataplane/api-server/src/server.rs:127-157 | accepted exactly when all targets are routable and at most 128, then in order, each with its own address, port and interface; which error otherwise |
| `Invariant.StepKeepsInv` | dataplane/ebpf/src/main.rs:39-49 | every packet and RPC keeps the maps aligned and bounded, indexes in range, connections referring to a configured VIP, never Closed, and stateless only under port 0 |
| `Invariant.ReachableInv` | dataplane/ebpf/src/main.rs:39-49 | so it holds after every run from empty maps |
| `Invariant.UpdateAllOrNothing` | dataplane/api-server/src/server.rs:41-52 | the second write cannot fail after the first: Update installs exactly the targets with index 0, or changes nothing; exactly which error when |
| `Invariant.SlotsHoldTargets` | dataplane/api-server/src/server.rs:122-162 | after a successful Update slot i has the address and port of target i and the interface requested, else the route's, cut to 16 bits; later slots are zero |
| `Invariant.SelectableIff` | dataplane/ebpf/src/ingress/tcp.rs:62-77 | in every reachable state a VIP is served exactly if it is configured with at least one backend |
| `Invariant.DeleteExact` | dataplane/api-server/src/server.rs:54-89 | Delete succeeds exactly for a known VIP and removes exactly what belongs to it, else nothing |
| `Affinity.PacketFrame` | dataplane/ebpf/src/utils.rs:116-137 | a packet touches no tracked client but its own |
| `Affinity.ForwardedExactly` | dataplane/ebpf/src/ingress/tcp.rs:51-141 | in every reachable state, where each ingress packet is sent: resets included, to the recorded backend; the one packet of a tracked client, and the new packets, that go nowhere |
| `Affinity.NewConnectionRecorded` | dataplane/ebpf/src/ingress/tcp.rs:117-156 | exactly when a first TCP packet is tracked, and with which backend and state |
| `Affinity.NewEntry` | dataplane/ebpf/src/ingress/tcp.rs:51-99 | an entry appears only for a packet to a selectable VIP and is bound to the slot in turn |
| `Affinity.StepBinding` | dataplane/ebpf/src/ingress/tcp.rs:51-54 | for every client and step, a surviving entry is rebound exactly by a datagram that picks something else under port 0 |
| `Affinity.SessionAffinity` | dataplane/ebpf/src/ingress/tcp.rs:51-156 | from creation to removal of an entry, across any other traffic and RPCs, all packets of the client go to the backend chosen first; the exact exception is RST with ACK in TimeWait |
| `Affinity.NatUndo` | dataplane/ebpf/src/egress/tcp.rs:32-56 | while the entry lives, replies carry byte for byte the address and port the first packet was sent to |
| `Affinity.IcmpUndo` | dataplane/ebpf/src/egress/icmp.rs:30-82 | a datagram to a served VIP is recorded even if its rewriting fails; until a displacing event, over any run, ICMP egress writes byte for byte the address it was sent to |
| `Affinity.UnreachableOnce` | dataplane/ebpf/src/egress/icmp.rs:30-84 | after a complete unreachable message the client stays untracked over any run in which it sends nothing that records it, and further messages change nothing; other and truncated messages never do |
| `RoundRobin.TurnsInOrder` | dataplane/ebpf/src/ingress/tcp.rs:91-98 | between reconfigurations the j-th turn, TCP or UDP, uses slot (start + j) mod n, whatever other traffic is mixed in |
| `RoundRobin.Share` | dataplane/ebpf/src/ingress/udp.rs:119-126 | the exact number of turns each slot gets |
| `RoundRobin.ExactFairness` | dataplane/ebpf/src/ingress/udp.rs:119-126 | after m turns every slot had floor(m/n) or ceil(m/n) |
| `RoundRobin.TurnTarget` | dataplane/ebpf/src/ingress/tcp.rs:79-165 | a turn delivers its packet to the backend in its slot; exactly when it is lost instead |
| `RoundRobin.DeliveriesInOrder` | dataplane/ebpf/src/ingress/tcp.rs:79-165 | over any run between reconfigurations, the packet of the j-th turn reaches the backend j places on, around the list, unless that turn is lost |
| `TcpClose.ResetDropsUnlessAdvancing` | dataplane/ebpf/src/ingress/tcp.rs:115-129 | RST drops the entry exactly when the packet does not also advance it before its end, listed state by state; which state survives |
| `TcpClose.ClosingSequence` | dataplane/ebpf/src/utils.rs:59-137 | for every packet without RST, exactly when the entry goes away and when it is in each closing state afterwards |
| `TcpClose.FewRewrites` | dataplane/ebpf/src/utils.rs:59-111 | at most three state rewrites in the life of an entry |
| `TcpClose.FinThenThreeAcksRemoves` | dataplane/ebpf/src/utils.rs:116-137 | a FIN and then three packets with ACK remove the entry, in any direction and mixed with anything |
| `TcpClose.ClosedExactly` | dataplane/ebpf/src/utils.rs:59-137 | over any run without RST or Delete, an open connection is over exactly after its FIN and two ACKs if another FIN comes by the first of them, else three |
| `DeleteProtocol.PacketsOnlyUnbind` | dataplane/ebpf/src/ingress/tcp.rs:58-63 | once a VIP has no list, no packet binds a client to it |
| `DeleteProtocol.DeleteIsComplete` | dataplane/api-server/src/server.rs:54-89 | with packets between the removals the bound clients only get fewer, and none is left on success |
| `DeleteProtocol.FailsIffMisses` | dataplane/api-server/src/server.rs:54-89 | over every run, Delete fails exactly if one of its removals finds nothing to remove |
| `DeleteProtocol.LostClientDooms` | dataplane/api-server/src/server.rs:68-87 | once a listed client is gone and sends nothing more, no continuation ends in success |
| `DeleteProtocol.SweepSucceedsIff` | dataplane/api-server/src/server.rs:68-87 | as long as the listed clients keep quiet, a sweep that ends has succeeded exactly if all of them were still tracked |
| `DeleteProtocol.QuietDeleteSucceeds` | dataplane/api-server/src/server.rs:54-89 | if the clients bound at the start keep quiet, Delete cannot fail, whatever other traffic and index resets come in between |
| `DeleteProtocol.BothMapsStayClear` | dataplane/api-server/src/server.rs:54-58 | over any run, from its second removal on a Delete that has not failed leaves the VIP in neither map, and nothing brings it back |
| `DeleteProtocol.LateResetRescues` | dataplane/api-server/src/server.rs:47-58 | a Delete that overtakes an Update's second write fails exactly where it succeeds if that write lands in time |
| `DeleteProtocol.FailureIsFinal` | dataplane/api-server/src/server.rs:54-66 | after any run of a Delete, a second Delete of the VIP finds nothing and changes nothing |
| `DeleteProtocol.DropsForeignIff` | dataplane/api-server/src/server.rs:68-87 | a step of the sweep drops an entry of another VIP exactly when it treats a listed client that has been bound elsewhere since |
| `DeleteProtocol.OthersUntouched` | dataplane/api-server/src/server.rs:68-87 | over any run, no removal touches a client that was not bound to the VIP at the start |
| `DeleteProtocol.AloneIsAtomic` | dataplane/api-server/src/server.rs:54-89 | without packets in between, the removals end, in any order of the sweep, with the state and result of the atomic Delete |
| `Interleaving.InstalledSlot` | dataplane/ebpf/src/ingress/tcp.rs:68-95 | with list and index read at different times, the first bounds check implies the second, the next index stays below 128, and the slot holds a requested backend |
| `Interleaving.EveryInterleavingSafe` | dataplane/ebpf/src/ingress/udp.rs:33-69 | in every interleaving of map operations, stored indexes are below 128 and every tracked or chosen backend was requested for that VIP by an installed Update |
| `Interleaving.SoloFinishes` | dataplane/ebpf/src/ingress/tcp.rs:51-156 | undisturbed, every packet and Update is over after at most seven map operations |
| `Interleaving.SoloIsAtomic` | dataplane/ebpf/src/ingress/tcp.rs:51-156 | cut into map operations but undisturbed, every handler and RPC has its atomic effect |
| `Interleaving.DeleteFinishes` | dataplane/api-server/src/server.rs:54-89 | an undisturbed Delete ends, with its atomic effect, once its sweep has treated every tracked client in any order |
| `Interleaving.IndexesBackedIff` | dataplane/ebpf/src/ingress/tcp.rs:91-98 | over every interleaved run: each index has a list, or a Delete about to remove it, in all states, exactly if each index write finds its VIP in that condition |
| `Interleaving.QuietRemovalsKeepBacked` | dataplane/api-server/src/server.rs:54-66 | it suffices that no Delete removes a list while a packet or Update is on its way to that VIP's index write |
| `Interleaving.DeleteInsidePacketMisaligns` | dataplane/ebpf/src/ingress/udp.rs:119-126 | a whole Delete between a packet's choice and its index write always leaves an index without a list, for TCP and UDP |
| `Interleaving.DeleteInsideUpdateMisaligns` | dataplane/api-server/src/server.rs:47-52 | so does a whole Delete between the two writes of an Update |
| `Witnesses.OrdinaryClose` | dataplane/ebpf/src/utils.rs:59-137 | FIN, FIN with ACK, ACK: a run from empty maps in which the entry is gone exactly after the last |
| `Witnesses.ResetSurvivor` | dataplane/ebpf/src/egress/tcp.rs:78-87 | a run from empty maps in which RST with ACK leaves the entry, in FinWait2 |
| `Witnesses.LastResetIsLost` | dataplane/ebpf/src/ingress/tcp.rs:115-129 | a run after which a plain RST reaches the backend and RST with ACK does not |
| `Witnesses.PortZeroIsRebound` | dataplane/ebpf/src/ingress/udp.rs:77-90 | a run in which a datagram rebinds a TCP client with source port 0 |
| `Witnesses.TurnIsLost` | dataplane/ebpf/src/ingress/tcp.rs:79-165 | a run in which a first packet with RST, or with failing helpers, uses up the first backend's turn, and the retry goes to the second |
| `Witnesses.FailedSweepLeavesClients` | dataplane/api-server/src/server.rs:68-87 | a run in which a reset during the sweep fails Delete and leaves the other client bound for good |
| `Witnesses.ReboundClientIsSwept` | dataplane/api-server/src/server.rs:68-87 | a run in which a successful Delete drops an entry of another VIP |
| `Witnesses.LateIndexWrite` | dataplane/ebpf/src/ingress/udp.rs:119-126 | an interleaved run without overlapping RPCs that ends, with nothing in flight, in an index without a list |
| `Conditions.ReplayIsHistory` | controlplane/src/gateway_utils.rs:320-339 | after any calls: one condition per type in order of first appearance, being the call that began the latest run of its status, with the latest generation |
| `Conditions.RunStartMeaning` | controlplane/src/gateway_utils.rs:324-331 | what "began the latest run" means |
| `Conditions.DistinctIsHistory` | controlplane/src/gateway_utils.rs:320-339 | any list with distinct types can serve as the start of a history |
| `Conditions.SettledIsFixed` | controlplane/src/gateway_utils.rs:325-329 | repeating a status changes nothing, whatever time, reason and message come with it |
| `Listeners.ConditionsReflectValidity` | controlplane/src/gateway_utils.rs:463-643 | the computed conditions contain a False one exactly for an unsupported protocol or disallowed route kinds |
| `Listeners.ConditionPerType` | controlplane/src/gateway_utils.rs:463-606 | each of ResolvedRefs, Accepted and Programmed has the status, reason and message the listener deserves |
| `Listeners.SupportedKindsExactly` | controlplane/src/gateway_utils.rs:506-569 | the route kind offered for each protocol |
| `Listeners.AbsorbingKeepsVerdict` | controlplane/src/gateway_utils.rs:411-432 | no previous condition, duplicate or not, changes whether a False one results |
| `Listeners.AbsorbCount` | controlplane/src/gateway_utils.rs:411-429 | no previous condition of a type is lost or doubled, and one is added if there was none |
| `Listeners.WrittenConditions` | controlplane/src/gateway_utils.rs:408-440 | whatever the previous status held, every condition written shows the status owed to its type, explained unless carried over, and no type is missing |
| `Listeners.AbsorbingIsIdempotent` | controlplane/src/gateway_utils.rs:411-432 | absorbing its own result changes nothing at any later time |
| `Listeners.StatusesAreFixed` | controlplane/src/gateway_utils.rs:389-446 | with distinct names, recomputing all listener statuses from themselves gives the same list |
| `Listeners.AcceptanceFromSpec` | controlplane/src/gateway_utils.rs:344-446 | acceptance is False exactly for a foreign address type or, given a status, an invalid listener; the previous status has no influence |
| `Listeners.RefusedForAddress` | controlplane/src/gateway_utils.rs:370-384 | a refusal names the first unsupported address type, before any listener |
| `Listeners.RefusedForListener` | controlplane/src/gateway_utils.rs:356-368 | otherwise it names the last invalid listener, whatever the previous status held |
| `Listeners.NoStatusAcceptsInvalidListener` | controlplane/src/gateway_utils.rs:442-444 | a concrete invalid listener accepted for want of a status |
| `ServiceSync.Converges` | controlplane/src/gateway_utils.rs:198-280 | a second call returns false and changes nothing, an error changes nothing, and when each error occurs |
| `ServiceSync.FlagIsExact` | controlplane/src/gateway_utils.rs:238-279 | the spec changed exactly when the flag says so or type or ports were absent |
| `ServiceSync.LastGatewayWins` | controlplane/src/gateway_utils.rs:249-277 | type and compared port fields depend on the last Gateway only |
| `ServiceSync.AddressReflectedIff` | controlplane/src/gateway_utils.rs:238-248 | the first wanted address is reflected exactly when one was set before or none is wanted; otherwise there is none |
| `ServiceSync.FreshServiceExample` | controlplane/src/gateway_utils.rs:238-279 | a fresh Service with one wanted address: filled in without being reported, and without the address |
| `ServiceSync.AcceptedGatewaySyncs` | controlplane/src/gateway_utils.rs:198-280 | for an acceptable Gateway the update succeeds with one port per listener, in order, each with its name, its number, and UDP for UDP and TCP otherwise |
| `Reconcile.FirstIpIsFirstAddress` | controlplane/src/gateway_utils.rs:52-107 | the address selected for the Endpoints object is the first status address |
| `Reconcile.FirstIpExactly` | controlplane/src/gateway_utils.rs:99-107 | and it is that of the first ingress with an IP |
| `Reconcile.AddressesInOrder` | controlplane/src/gateway_utils.rs:52-66 | status addresses follow the ingress list piece by piece, skipping those without an IP |
| `Reconcile.StatusIsFixedPoint` | controlplane/src/gateway_controller.rs:78-201 | a second run on what the first wrote, at any time and on every branch, stores the same status |
| `Reconcile.WrittenFromPresent` | controlplane/src/gateway_controller.rs:78-201 | from a present status: one verdict per condition type, of the Gateway and of every listener; Programmed True exactly on success, and then Accepted, listeners, address and ports all agree |
| `Reconcile.WrittenStatusIsCoherent` | controlplane/src/gateway_controller.rs:78-201 | from any status, present or absent: Programmed True exactly on success, then with agreeing address and no False listener condition; Accepted as the specification deserves exactly if there was a status; which error |
| `Reconcile.ProgramsIff` | controlplane/src/gateway_controller.rs:78-201 | from any status, present or absent, exactly when a run writes a status and when it programs the Gateway, with its Service found or created |
| `Reconcile.OutcomeExactly` | controlplane/src/gateway_controller.rs:42-201 | exactly when a run succeeds, calls the configuration invalid, or reports a failed API call; the rest is the Service's fault |
| `Reconcile.ProgrammedIsExplained` | controlplane/src/gateway_controller.rs:84-201 | whenever the Programmed condition changes, the status written holds its reason, message, generation and time |
| `Reconcile.CreatedService` | controlplane/src/gateway_utils.rs:170-194 | a created Service is asked for with the listeners' ports and never with the wanted address |
| `Reconcile.WrittenFromAbsent` | controlplane/src/gateway_controller.rs:78-201 | what the first run on an absent status writes: on success Programmed True and addresses but no Accepted and no listeners, otherwise empty lists |
| `Reconcile.FixedFromSecondRun` | controlplane/src/gateway_controller.rs:78-201 | from an absent status, the second run writes something else, with a verdict, and later runs store that unchanged |
| `Reconcile.InvalidListenerProgrammed` | controlplane/src/gateway_controller.rs:78-201 | a concrete Gateway that is programmed from an absent status and rejected from every present one |
| `GatewayController.UpdateServiceForGateway` | controlplane/src/gateway_utils.rs:198-280 | the loops and in-place edits have the effect and result of `ServiceSync.UpdateService` |
| `GatewayController.PortsDiffer` | controlplane/src/gateway_utils.rs:258-269 | the loop finds a difference exactly when the port lists differ in a compared field or in length |
| `GatewayController.GetListenerStatus` | controlplane/src/gateway_utils.rs:463-606 | overwriting three True conditions ends in the listener's conditions |
| `GatewayController.AbsorbCondition` | controlplane/src/gateway_utils.rs:412-429 | the inner loop computes what one condition absorbs |
| `GatewayController.SelectAddress` | controlplane/src/gateway_utils.rs:99-107 | the loop selects the first ingress with an IP |
| `GatewayController.GatewayObject.SetCondition` | controlplane/src/gateway_utils.rs:320-339 | the walk updates the first condition of the type or appends, and stores nothing without a status |
| `GatewayController.GatewayObject.SetListenerStatus` | controlplane/src/gateway_utils.rs:389-446 | the loops build the listener statuses; without a generation nothing changes |
| `GatewayController.GatewayObject.ListenerStatusFor` | controlplane/src/gateway_utils.rs:408-440 | one pass of the outer loop |
| `GatewayController.GatewayObject.GetAcceptedCondition` | controlplane/src/gateway_utils.rs:344-386 | the loops compute the Accepted condition |
| `GatewayController.GatewayObject.SetGatewayStatusAddresses` | controlplane/src/gateway_utils.rs:52-75 | the loop collects the ingress addresses, creating a status if there is none |
| `GatewayController.GatewayObject.Reconcile` | controlplane/src/gateway_controller.rs:42-206 | the whole run, with its early returns, does what `Reconcile.ReconcileGateway` says |

## Left out

- Validity of TCP and UDP checksums beyond the congruence each helper keeps, because `set_ipv4_dest_port` overwrites the field with a port and TCP egress zeroes it; payloads are not modelled.
- The verdict of the classifier and packet redirection: both programs discard it and return TC_ACT_OK.
- Packet bounds checks, except for the quoted header of an ICMP message: headers are taken as parsed.
- Pointers into live map values and restarts of map iteration: lookups and the sweep of Delete use snapshots.
- Errors while iterating over the tracked connections, which end Delete early in the same way as a failed removal.
- Affinity, fairness and completeness of Delete for handlers cut at map operations: two handlers may read one index, or write after a removal.
- The text by which `delete` tells a missing VIP from other failures, and all wording of RPC replies.
- `get_interface_index`, the routing lookup, TLS, the gRPC layer, the loader and the build tools: plumbing and foreign calls.
- Failure of the status write itself, requeue timing, patch semantics and metadata of created objects.
- `GatewayController.GatewayObject.Reconcile`: creating the Endpoints object is one success-or-failure input, because the object's ports and metadata play no part in the status.
- The branch of `check_route_kinds` without a kind, which no caller reaches.
