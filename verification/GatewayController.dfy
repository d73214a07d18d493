/** The Gateway reconciler as it works: updating the Gateway and Service objects in place. */
module GatewayController {
  import opened Types
  import opened GatewayTypes
  import opened Conditions
  import opened Listeners
  import opened ServiceSync
  import opened Reconcile

  class ServiceObject {
    const name: Option<string>
    const namespace: Option<string>
    const status: Option<ServiceStatus>
    var spec: Option<ServiceSpec>

    constructor (s: Service)
      ensures View() == s
    {
      name, namespace, status, spec := s.name, s.namespace, s.status, s.spec;
    }

    function View(): Service
      reads this
    {
      Service(name, namespace, spec, status)
    }
  }

  /** `update_service_for_gateway`. */
  method UpdateServiceForGateway(gateway: GatewaySpec, svc: ServiceObject) returns (r: Outcome<bool>)
    modifies svc
    ensures (svc.View(), r) == UpdateService(gateway, old(svc.View()))
  {
    hide TransportOf;
    var ls := gateway.listeners;
    var ports := [];
    for i := 0 to |ls|
      invariant ports == DesiredPorts(ls[..i])
    {
      assert ls[..i + 1][..i] == ls[..i];
      var transport := TransportOf(ls[i].protocol);
      if transport.Some? {
        ports := ports + [ServicePort(Some(ls[i].name), ls[i].port, transport, None)];
      }
    }
    assert ls[..|ls|] == ls;
    var address := None;
    if gateway.addresses.Some? && gateway.addresses.value != [] {
      var first := gateway.addresses.value[0];
      if first.type_.Some? && first.type_.value != IP_ADDRESS {
        return Failure(InvalidConfigError);
      }
      address := Some(first.value);
    }
    if svc.spec.None? {
      return Failure(LoadBalancerError);
    }

    hide DesiredPorts;
    var s, updated := svc.spec.value, false;
    var lbIp := s.loadBalancerIp;
    if address.Some? && lbIp.Some? && lbIp != address {
      s := s.(loadBalancerIp := address);
      updated := true;
    }
    if address.None? && lbIp.Some? {
      s := s.(loadBalancerIp := None);
      updated := true;
    }
    if s.type_.Some? && s.type_.value != LOAD_BALANCER {
      updated := true;
    }
    s := s.(type_ := Some(LOAD_BALANCER));
    if s.ports.Some? {
      var diff := PortsDiffer(s.ports.value, ports);
      if diff {
        s := s.(ports := Some(ports));
        updated := true;
      }
    } else {
      s := s.(ports := Some(ports));
    }
    svc.spec := Some(s);
    r := Success(updated);
  }

  /** The comparison of lengths and then of pairs, stopping at the first difference. */
  method PortsDiffer(a: seq<ServicePort>, b: seq<ServicePort>) returns (diff: bool)
    ensures diff <==> !SamePorts(a, b)
  {
    diff := |a| != |b|;
    var n := if |a| < |b| then |a| else |b|;
    for i := 0 to n
      invariant diff == (|a| != |b|)
      invariant forall j :: 0 <= j < i ==> SamePort(a[j], b[j])
    {
      if !SamePort(a[i], b[i]) {
        return true;
      }
    }
  }

  /** `get_listener_status`: start from three True conditions and overwrite those that fail. */
  method GetListenerStatus(l: Listener, gen: int, now: int) returns (kinds: seq<RouteKind>, cs: seq<Condition>)
    ensures kinds == SupportedKinds(l) && cs == ListenerConditions(l, gen, now)
  {
    hide CheckRouteKinds, RouteKindOf;
    cs := [Holds(RESOLVED_REFS, "All references resolved", gen, now),
           Holds(ACCEPTED, "Listener is valid", gen, now),
           Holds(PROGRAMMED, "Listener is valid", gen, now)];
    var kind := RouteKindOf(l.protocol);
    if kind.Some? {
      kinds := [RouteKind(Some(GROUP), kind.value)];
      if l.allowedRoutes.Some? && l.allowedRoutes.value.kinds.Some? {
        var msg := CheckRouteKinds(kind.value, l.allowedRoutes.value.kinds.value);
        if msg.Some? {
          cs := cs[0 := Fails(RESOLVED_REFS, "InvalidRouteKinds", msg.value, gen, now)];
          cs := cs[1 := Fails(ACCEPTED, "InvalidRouteKinds", msg.value, gen, now)];
          cs := cs[2 := Fails(PROGRAMMED, "Invalid", msg.value, gen, now)];
        }
      }
    } else {
      kinds := [];
      cs := cs[1 := Fails(ACCEPTED, "UnsupportedProtocol", UnsupportedMessage(l), gen, now)];
      if l.allowedRoutes.Some? && l.allowedRoutes.value.kinds.Some? {
        var msg := CheckRouteKinds(UDP_ROUTE, l.allowedRoutes.value.kinds.value);
        if msg.Some? {
          cs := cs[0 := Fails(RESOLVED_REFS, "InvalidRouteKinds", msg.value, gen, now)];
        }
      }
      cs := cs[2 := Fails(PROGRAMMED, "Invalid", UnsupportedMessage(l), gen, now)];
    }
  }

  /** The inner loop of `set_listener_status` over the previous conditions of one listener. */
  method AbsorbCondition(cond: Condition, current: seq<Condition>, gen: Option<int>) returns (out: seq<Condition>)
    ensures out == Absorb(cond, current, gen)
  {
    hide Kept;
    out := [];
    var present := false;
    KeptNothing(cond, gen);
    for i := 0 to |current|
      invariant out == Kept(cond, current[..i], gen)
      invariant present <==> out != []
    {
      assert current[..i + 1] == current[..i] + [current[i]];
      KeptConcat(cond, current[..i], [current[i]], gen);
      KeptCons(cond, current[i], [], gen);
      if cond.type_ == current[i].type_ {
        present := true;
        if cond.status == current[i].status {
          out := out + [current[i].(generation := gen)];
        } else {
          out := out + [cond];
        }
      }
    }
    assert current[..|current|] == current;
    if !present {
      out := out + [cond];
    }
  }

  /** The loop of `create_endpoint_if_not_exists` that selects the address. */
  method SelectAddress(ingress: seq<Ingress>) returns (ip: Option<string>)
    ensures ip == FirstIp(ingress)
  {
    for i := 0 to |ingress|
      invariant FirstIp(ingress) == FirstIp(ingress[i..])
    {
      if ingress[i].ip.Some? {
        return ingress[i].ip;
      }
      assert ingress[i..][1..] == ingress[i + 1..];
    }
    ip := None;
  }

  class GatewayObject {
    const spec: GatewaySpec
    const generation: Option<int>
    var status: Option<GatewayStatus>

    constructor (spec: GatewaySpec, generation: Option<int>, status: Option<GatewayStatus>)
      ensures this.spec == spec && this.generation == generation && this.status == status
    {
      this.spec, this.generation, this.status := spec, generation, status;
    }

    /** `set_condition`: walk to the first condition of the type; store nothing without a status. */
    method SetCondition(c: Condition)
      modifies this
      ensures status == WithCondition(old(status), c)
    {
      if status.None? {
        return;
      }
      var st := status.value;
      if st.conditions.None? {
        status := Some(st.(conditions := Some([c])));
        return;
      }
      var cs := st.conditions.value;
      UpsertAt(cs, c);
      for i := 0 to |cs|
        invariant i <= Position(cs, c.type_)
        invariant status == old(status)
      {
        if cs[i].type_ == c.type_ {
          if cs[i].status == c.status {
            cs := cs[i := cs[i].(generation := c.generation)];
          } else {
            cs := cs[i := c];
          }
          status := Some(st.(conditions := Some(cs)));
          return;
        }
      }
      status := Some(st.(conditions := Some(cs + [c])));
    }

    /** `set_listener_status`. */
    method SetListenerStatus(clock: nat -> int) returns (r: Outcome<()>)
      modifies this
      ensures if generation.None? then r == Failure(InvalidConfigError) && status == old(status)
              else r == Success(()) && status == WithListeners(old(status), spec, generation.value, clock)
    {
      hide FinalConditions, ListenerConditions;
      var current: map<string, ListenerStatus> := map[];
      var previous := PreviousListeners(status);
      for i := 0 to |previous|
        invariant current == ByName(previous[..i])
      {
        assert previous[..i + 1][..i] == previous[..i];
        current := current[previous[i].name := previous[i]];
      }
      assert previous[..|previous|] == previous;
      if generation.None? {
        return Failure(InvalidConfigError);
      }
      var statuses := [];
      for i := 0 to |spec.listeners|
        invariant statuses == Statuses(spec.listeners[..i], current, generation.value, clock)
        invariant status == old(status)
      {
        assert spec.listeners[..i + 1][..i] == spec.listeners[..i];
        var st := ListenerStatusFor(spec.listeners[i], current, generation.value, clock(i));
        statuses := statuses + [st];
      }
      assert spec.listeners[..|spec.listeners|] == spec.listeners;
      if status.Some? {
        status := Some(status.value.(listeners := Some(statuses)));
      }
      r := Success(());
    }

    /** One pass of the outer loop of `set_listener_status`. */
    method ListenerStatusFor(l: Listener, current: map<string, ListenerStatus>, gen: int,
                             now: int) returns (st: ListenerStatus)
      ensures st == StatusOf(l, current, gen, now)
    {
      hide Absorb, ListenerConditions;
      var kinds, conds := GetListenerStatus(l, gen, now);
      var final := conds;
      if l.name in current {
        final := [];
        for i := 0 to |conds|
          invariant final == FinalConditions(conds[..i], current[l.name].conditions, Some(gen))
        {
          assert conds[..i + 1][..i] == conds[..i];
          var out := AbsorbCondition(conds[i], current[l.name].conditions, Some(gen));
          final := final + out;
        }
        assert conds[..|conds|] == conds;
      }
      st := ListenerStatus(l.name, 0, kinds, final);
    }

    /** `get_accepted_condition`: later findings overwrite earlier ones. */
    method GetAcceptedCondition(now: int) returns (r: Condition)
      ensures r == AcceptedCondition(status, spec, generation, now)
    {
      var base := Condition(ACCEPTED, TRUE, "Accepted", "Blixt accepts responsibility for this Gateway", generation, now);
      r := base;
      var ls := PreviousListeners(status);
      for i := 0 to |ls|
        invariant r == match LastInvalid(ls[..i])
                       case None => base
                       case Some(name) => base.(status := FALSE, reason := "ListenersNotValid",
                                                message := "listener " + name + " is invalid")
      {
        assert ls[..i + 1][..i] == ls[..i];
        var bad := ShowsFalse(ls[i].conditions);
        if bad {
          r := r.(status := FALSE, reason := "ListenersNotValid", message := "listener " + ls[i].name + " is invalid");
        }
      }
      assert ls[..|ls|] == ls;
      var as_ := Addresses(spec);
      for i := 0 to |as_|
        invariant ForeignType(as_) == ForeignType(as_[i..])
      {
        if as_[i].type_.Some? && as_[i].type_.value != IP_ADDRESS {
          r := r.(status := FALSE, reason := "UnsupportedAddress",
                  message := "found an addres of type " + as_[i].type_.value + ", only type IPAddress is supported");
          return;
        }
        assert as_[i..][1..] == as_[i + 1..];
      }
    }

    /** The inner loop of `get_accepted_condition`. */
    method ShowsFalse(cs: seq<Condition>) returns (bad: bool)
      ensures bad <==> AnyFalse(cs)
    {
      bad := false;
      for i := 0 to |cs|
        invariant bad <==> exists j :: 0 <= j < i && cs[j].status == FALSE
      {
        if cs[i].status == FALSE {
          bad := true;
        }
      }
    }

    /** `set_gateway_status_addresses`; here a missing status is created. */
    method SetGatewayStatusAddresses(svc: ServiceStatus)
      modifies this
      ensures status == WithAddresses(old(status), svc)
    {
      var ingress := IngressList(svc);
      var addrs := [];
      for i := 0 to |ingress|
        invariant addrs == IngressAddresses(ingress[..i])
        invariant status == old(status)
      {
        assert ingress[..i + 1][..i] == ingress[..i];
        if ingress[i].ip.Some? {
          addrs := addrs + [Address(Some(IP_ADDRESS), ingress[i].ip.value)];
        }
      }
      assert ingress[..|ingress|] == ingress;
      var st := if status.Some? then status.value else EMPTY_STATUS;
      status := Some(st.(addresses := Some(addrs)));
    }

    /** The first half of `reconcile`: listener statuses and the verdict. */
    method Judge(clock: nat -> int) returns (verdict: Condition)
      requires generation.Some?
      modifies this
      ensures status == Judged(old(status), spec, generation.value, clock)
      ensures verdict == Verdict(old(status), spec, generation.value, clock)
    {
      hide WithListeners, AcceptedCondition, WithCondition;
      var _ := SetListenerStatus(clock);
      verdict := GetAcceptedCondition(clock(|spec.listeners|));
      SetCondition(verdict);
    }

    /** The middle of `reconcile`: correct the drift of the Service found, or create one. */
    method ProvideService(c: Cluster) returns (report: Report, r: Outcome<Service>)
      ensures (report, r) == Provide(spec, c)
    {
      hide UpdateService;
      report := Quiet(Success(()));
      if c.services.None? {
        return report, Failure(KubeError);
      }
      if |c.services.value| > 1 {
        return report, Failure(LoadBalancerError);
      }
      var found := c.services.value != [];
      var svc := new ServiceObject(if found then c.services.value[0] else BLANK);
      var updated := UpdateServiceForGateway(spec, svc);
      if updated.Failure? {
        return report, Failure(updated.error);
      }
      report := report.(desired := Some(svc.View()));
      if found {
        if updated.value && !c.patchOk {
          return report, Failure(KubeError);
        }
        return report, Success(svc.View());
      }
      if c.created.None? {
        return report, Failure(KubeError);
      }
      r := Success(c.created.value);
    }

    /** The end of `reconcile`: the checks on the Service, the addresses and the Programmed condition. */
    method ProgramService(before: Report, svc: Service, c: Cluster, t1: int, t2: int) returns (report: Report)
      requires generation.Some?
      modifies this
      ensures report == Program(before, svc, old(status), generation.value, c, t1, t2)
    {
      hide WithCondition, Patched, FirstIp, IngressAddresses;
      report := before.(service := Some(svc), result := Failure(LoadBalancerError));
      var gen := generation.value;
      if svc.spec.None? {
        SetCondition(NotAssigned(NO_SPEC, gen, t1));
        return report.(written := Some(Patched(status)));
      }
      if svc.status.None? {
        SetCondition(NotAssigned(NO_STATUS, gen, t1));
        return report.(written := Some(Patched(status)));
      }
      if svc.name.None? || svc.namespace.None? {
        return;
      }
      var ingress := IngressList(svc.status.value);
      if |ingress| == 0 || svc.spec.value.clusterIp.None? {
        SetCondition(NotAssigned(NO_INGRESS, gen, t1));
        return report.(written := Some(Patched(status)));
      }
      var ip := SelectAddress(ingress);
      if ip.None? {
        return;
      }
      if !c.endpointsOk {
        return report.(result := Failure(KubeError));
      }
      SetGatewayStatusAddresses(svc.status.value);
      SetCondition(Configured(gen, t2));
      report := report.(written := Some(Patched(status)), endpoint := ip, result := Success(()));
    }

    /** `reconcile`, on a copy of the Gateway. */
    method Reconcile(c: Cluster, clock: nat -> int) returns (report: Report)
      modifies this
      ensures report == ReconcileGateway(old(status), spec, generation, c, clock)
    {
      hide Judged, Verdict, Provide, Program, WithCondition, Patched;
      if !c.named {
        return Quiet(Failure(InvalidConfigError));
      }
      if c.ours.None? {
        return Quiet(Failure(KubeError));
      }
      if !c.ours.value {
        return Quiet(Success(()));
      }
      if generation.None? {
        return Quiet(Failure(InvalidConfigError));
      }
      var verdict := Judge(clock);
      if verdict.status == FALSE {
        SetCondition(Rejected(verdict));
        return Report(Some(Patched(status)), None, None, None, Failure(InvalidConfigError));
      }
      var before, svc := ProvideService(c);
      if svc.Failure? {
        return before.(result := Failure(svc.error));
      }
      var n := |spec.listeners|;
      report := ProgramService(before, svc.value, c, clock(n + 1), clock(n + 2));
    }
  }
}
