/** Keeping the LoadBalancer Service in line with its Gateway. */
module ServiceSync {
  import opened Types
  import opened GatewayTypes
  import opened Listeners

  /** The transport a listener protocol needs from the Service, if it is served at all. */
  function TransportOf(protocol: string): Option<string> {
    if protocol == "TCP" || protocol == "HTTP" || protocol == "HTTPS" then Some("TCP")
    else if protocol == "UDP" then Some("UDP")
    else None
  }

  function PortFor(l: Listener): ServicePort
    requires TransportOf(l.protocol).Some?
  {
    ServicePort(Some(l.name), l.port, TransportOf(l.protocol), None)
  }

  /** One port per served listener, in order; other listeners are skipped. */
  function DesiredPorts(ls: seq<Listener>): seq<ServicePort> {
    if ls == [] then []
    else
      var l := ls[|ls| - 1];
      DesiredPorts(ls[..|ls| - 1]) + if TransportOf(l.protocol).Some? then [PortFor(l)] else []
  }

  /** Only the first address counts, and it must not be of a foreign type. */
  predicate AddressRefused(spec: GatewaySpec) {
    Addresses(spec) != [] && Foreign(Addresses(spec)[0])
  }

  function DesiredIp(spec: GatewaySpec): Option<string> {
    if Addresses(spec) == [] then None else Some(Addresses(spec)[0].value)
  }

  predicate SamePort(a: ServicePort, b: ServicePort) {
    a.name == b.name && a.port == b.port && a.protocol == b.protocol
  }

  predicate SamePorts(a: seq<ServicePort>, b: seq<ServicePort>) {
    |a| == |b| && forall i :: 0 <= i < |a| ==> SamePort(a[i], b[i])
  }

  /** The body of `update_service_for_gateway` on a Service that has a spec; the flag is its result. */
  function Sync(spec: GatewaySpec, s: ServiceSpec): (ServiceSpec, bool) {
    var ip := if s.loadBalancerIp.None? then None else DesiredIp(spec);
    var ports := DesiredPorts(spec.listeners);
    var portsKept := s.ports.Some? && SamePorts(s.ports.value, ports);
    (s.(loadBalancerIp := ip, type_ := Some(LOAD_BALANCER), ports := if portsKept then s.ports else Some(ports)),
     ip != s.loadBalancerIp || (s.type_.Some? && s.type_.value != LOAD_BALANCER) || (s.ports.Some? && !portsKept))
  }

  /** `update_service_for_gateway`. */
  function UpdateService(spec: GatewaySpec, svc: Service): (Service, Outcome<bool>) {
    if AddressRefused(spec) then (svc, Failure(InvalidConfigError))
    else if svc.spec.None? then (svc, Failure(LoadBalancerError))
    else (svc.(spec := Some(Sync(spec, svc.spec.value).0)), Success(Sync(spec, svc.spec.value).1))
  }

  /** After one call a second finds nothing to do and says so; an error leaves the Service alone. */
  lemma Converges(spec: GatewaySpec, svc: Service)
    ensures var (svc', r) := UpdateService(spec, svc);
            && (r.Success? ==> UpdateService(spec, svc') == (svc', Success(false)))
            && (r.Failure? ==> svc' == svc)
            && (r == Failure(InvalidConfigError) <==> AddressRefused(spec))
            && (r.Success? <==> !AddressRefused(spec) && svc.spec.Some?)
            && (AddressRefused(spec) <==>
                  && spec.addresses.Some? && spec.addresses.value != []
                  && spec.addresses.value[0].type_ !in {None, Some("IPAddress")})
  {
    hide DesiredPorts;
  }

  /** The flag reports every change except the filling in of an absent type or absent ports. */
  lemma FlagIsExact(spec: GatewaySpec, s: ServiceSpec)
    ensures var (s', updated) := Sync(spec, s);
            s' != s <==> updated || s.type_.None? || s.ports.None?
  {
    hide DesiredPorts;
  }

  /** Type, and ports up to the fields never compared, depend on the last Gateway applied only. */
  lemma LastGatewayWins(first: GatewaySpec, last: GatewaySpec, s: ServiceSpec)
    ensures var s1, s2 := Sync(last, s).0, Sync(last, Sync(first, s).0).0;
            && s1.type_ == s2.type_ == Some("LoadBalancer")
            && s1.ports.Some? && s2.ports.Some?
            && SamePorts(s1.ports.value, DesiredPorts(last.listeners))
            && SamePorts(s2.ports.value, DesiredPorts(last.listeners))
            && s1.clusterIp == s2.clusterIp == s.clusterIp
  {
    hide DesiredPorts;
  }

  /**
   * The first requested address is reflected exactly when the Service had an address already, or
   * none is wanted; in every other case the Service ends up without one.
   */
  lemma AddressReflectedIff(spec: GatewaySpec, s: ServiceSpec)
    ensures var wanted := if spec.addresses.Some? && spec.addresses.value != [] then Some(spec.addresses.value[0].value)
                          else None;
            var got := Sync(spec, s).0.loadBalancerIp;
            && (got == wanted <==> s.loadBalancerIp.Some? || wanted.None?)
            && (got != wanted ==> got.None?)
  {
    hide DesiredPorts;
  }

  /** A fresh Service and one wanted address: everything but the address is filled in, unreported. */
  lemma FreshServiceExample(address: Address)
    ensures var spec := GatewaySpec([], Some([address]));
            var s := ServiceSpec(None, None, None, None);
            var (s', updated) := Sync(spec, s);
            s' != s && !updated && s'.loadBalancerIp == None && s'.type_ == Some("LoadBalancer") && s'.ports == Some([])
  {
  }

  /** The port a listener needs: its own name and number, over UDP for UDP and over TCP otherwise. */
  predicate ServesListener(p: ServicePort, l: Listener) {
    p.name == Some(l.name) && p.port == l.port && p.protocol == Some(if l.protocol == "UDP" then "UDP" else "TCP")
  }

  lemma TransportExactly(l: Listener)
    ensures TransportOf(l.protocol).Some? <==> StreamProtocol(l.protocol) || l.protocol == "UDP"
    ensures TransportOf(l.protocol).Some? ==> ServesListener(PortFor(l), l)
  {
    assert l.protocol == "UDP" ==> l.protocol[0] != 'T' && l.protocol[0] != 'H';
  }

  lemma {:induction false} PortsMatchListeners(ls: seq<Listener>)
    requires forall i :: 0 <= i < |ls| ==> ListenerValid(ls[i])
    ensures |DesiredPorts(ls)| == |ls|
    ensures forall i :: 0 <= i < |ls| ==> ServesListener(DesiredPorts(ls)[i], ls[i])
  {
    hide TransportOf, RefsResolved, ServesListener, PortFor;
    if ls != [] {
      PortsMatchListeners(ls[..|ls| - 1]);
      assert ListenerValid(ls[|ls| - 1]);
      TransportExactly(ls[|ls| - 1]);
    }
  }

  /**
   * Once the Gateway is accepted on its specification, the update cannot fail with an invalid
   * configuration, and the Service has one port per listener, in order, none dropped, each with
   * its listener's name and number and the right transport.
   */
  lemma AcceptedGatewaySyncs(spec: GatewaySpec, svc: Service)
    requires SpecAcceptable(spec, true) && svc.spec.Some?
    ensures var (svc', r) := UpdateService(spec, svc);
            && r.Success? && svc'.spec.Some? && svc'.spec.value.ports.Some?
            && var ports := svc'.spec.value.ports.value;
               && |ports| == |spec.listeners|
               && forall i :: 0 <= i < |ports| ==>
                    var l := spec.listeners[i];
                    && ports[i].name == Some(l.name) && ports[i].port == l.port
                    && ports[i].protocol == Some(if l.protocol == "UDP" then "UDP" else "TCP")
  {
    hide ListenerValid, DesiredPorts, TransportOf;
    PortsMatchListeners(spec.listeners);
    assert forall i :: 0 <= i < |spec.listeners| ==> ServesListener(DesiredPorts(spec.listeners)[i], spec.listeners[i]);
  }
}
