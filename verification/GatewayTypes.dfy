/** The parts of the Kubernetes objects that the Gateway reconciler reads or writes. */
module GatewayTypes {
  import opened Types

  datatype Condition = Condition(
    type_: string, status: string, reason: string, message: string, generation: Option<int>, time: int)

  datatype RouteKind = RouteKind(group: Option<string>, kind: string)

  datatype AllowedRoutes = AllowedRoutes(kinds: Option<seq<RouteKind>>)

  datatype Listener = Listener(name: string, port: int, protocol: string, allowedRoutes: Option<AllowedRoutes>)

  datatype Address = Address(type_: Option<string>, value: string)

  datatype GatewaySpec = GatewaySpec(listeners: seq<Listener>, addresses: Option<seq<Address>>)

  datatype ListenerStatus = ListenerStatus(
    name: string, attachedRoutes: int, supportedKinds: seq<RouteKind>, conditions: seq<Condition>)

  datatype GatewayStatus = GatewayStatus(
    addresses: Option<seq<Address>>,
    conditions: Option<seq<Condition>>,
    listeners: Option<seq<ListenerStatus>>)

  const EMPTY_STATUS := GatewayStatus(None, None, None)

  /** `nodePort` stands for the fields the reconciler never compares. */
  datatype ServicePort = ServicePort(name: Option<string>, port: int, protocol: Option<string>, nodePort: Option<int>)

  datatype ServiceSpec = ServiceSpec(
    type_: Option<string>, loadBalancerIp: Option<string>, clusterIp: Option<string>, ports: Option<seq<ServicePort>>)

  datatype Ingress = Ingress(ip: Option<string>)

  datatype LoadBalancerStatus = LoadBalancerStatus(ingress: Option<seq<Ingress>>)

  datatype ServiceStatus = ServiceStatus(loadBalancer: Option<LoadBalancerStatus>)

  datatype Service = Service(
    name: Option<string>, namespace: Option<string>, spec: Option<ServiceSpec>, status: Option<ServiceStatus>)

  datatype Error = InvalidConfigError | LoadBalancerError | KubeError

  datatype Outcome<+T> = Success(value: T) | Failure(error: Error)

  const TRUE := "True"
  const FALSE := "False"
  const ACCEPTED := "Accepted"
  const PROGRAMMED := "Programmed"
  const RESOLVED_REFS := "ResolvedRefs"
  const IP_ADDRESS := "IPAddress"
  const LOAD_BALANCER := "LoadBalancer"

  lemma ConstantsDiffer()
    ensures TRUE != FALSE && ACCEPTED != PROGRAMMED && ACCEPTED != RESOLVED_REFS && PROGRAMMED != RESOLVED_REFS
  {
    assert TRUE[0] != FALSE[0] && ACCEPTED[0] != PROGRAMMED[0];
    assert ACCEPTED[0] != RESOLVED_REFS[0] && PROGRAMMED[0] != RESOLVED_REFS[0];
  }
}
