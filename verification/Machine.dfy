/** The data plane as a state machine whose steps are whole packets and whole RPCs. */
module Machine {
  import opened Wire
  import opened Types
  import opened Tracker

  /** A backend in an Update request; `route` is what the routing lookup would answer. */
  datatype Target = Target(daddr: u32, dport: u32, ifindex: Option<u32>, route: Option<u32>)

  datatype RpcError = MissingVip | NoRoute | TooManyBackends | MapFull | NotFound

  datatype Result<+T> = Ok(value: T) | Err(error: RpcError)

  /**
   * One step. Addresses and ports are in host order. `rewritten` says whether every helper call
   * that rewrites the packet succeeded; `complete` whether the quoted header is long enough.
   */
  datatype Event =
    | TcpIn(client: ClientKey, vip: BackendKey, flags: TcpFlags, rewritten: bool)
    | UdpIn(clientIp: u32, vip: BackendKey, rewritten: bool)
    | TcpOut(client: ClientKey, flags: TcpFlags)
    | IcmpOut(clientIp: u32, icmpType: byte, complete: bool)
    | Update(key: Option<BackendKey>, targets: seq<Target>)
    | Delete(vip: BackendKey)

  const ICMP_UNREACHABLE: byte := 3

  // ---------------------------------------------------------------------------
  // Round-robin choice
  // ---------------------------------------------------------------------------

  /** Both lookups succeed and the index passes both bounds checks. */
  predicate Selectable(s: State, vip: BackendKey) {
    && vip in s.backends && vip in s.indexes
    && s.indexes[vip] < s.backends[vip].backendsLen
    && s.indexes[vip] < CAPACITY
  }

  function Pick(s: State, vip: BackendKey): Backend
    requires Selectable(s, vip)
  {
    s.backends[vip].backends[s.indexes[vip]]
  }

  function NextIndex(index: u16, len: u16): u16
    requires index < len
  {
    if index + 1 >= len then 0 else index + 1
  }

  function Advance(s: State, vip: BackendKey): State
    requires Selectable(s, vip)
  {
    s.(indexes := s.indexes[vip := NextIndex(s.indexes[vip], s.backends[vip].backendsLen)])
  }

  // ---------------------------------------------------------------------------
  // Packets
  // ---------------------------------------------------------------------------

  function NewMapping(s: State, vip: BackendKey): Mapping
    requires Selectable(s, vip)
  {
    Mapping(Pick(s, vip), vip, Some(Established))
  }

  function TcpInStep(s: State, c: ClientKey, vip: BackendKey, fl: TcpFlags, rewritten: bool): State {
    if c in s.conns then s.(conns := RstAndUpdate(s.conns, c, s.conns[c], fl).conns)
    else if !Selectable(s, vip) then s
    else
      var r := RstAndUpdate(s.conns, c, NewMapping(s, vip), fl);
      Advance(s, vip).(
        conns := if r.ok && rewritten && CanInsert(r.conns, c) then r.conns[c := r.mapping] else r.conns)
  }

  function UdpInStep(s: State, ip: u32, vip: BackendKey, rewritten: bool): State {
    var c := ClientKey(ip, 0);
    if !Selectable(s, vip) || !CanInsert(s.conns, c) then s
    else
      (if rewritten then Advance(s, vip) else s).(
        conns := s.conns[c := Mapping(Pick(s, vip), vip, None)])
  }

  function TcpOutStep(s: State, c: ClientKey, fl: TcpFlags): State {
    if c in s.conns then s.(conns := RstAndUpdate(s.conns, c, s.conns[c], fl).conns) else s
  }

  function IcmpOutStep(s: State, ip: u32, icmpType: byte, complete: bool): State {
    if icmpType == ICMP_UNREACHABLE && complete then s.(conns := s.conns - {ClientKey(ip, 0)}) else s
  }

  /** The backend an ingress packet is rewritten towards, if the handler gets that far. */
  function Forwarded(s: State, e: Event): Option<Backend> {
    match e
    case TcpIn(c, vip, fl, _) =>
      if c in s.conns then
        if RstAndUpdate(s.conns, c, s.conns[c], fl).ok then Some(s.conns[c].backend) else None
      else if Selectable(s, vip) && RstAndUpdate(s.conns, c, NewMapping(s, vip), fl).ok then Some(Pick(s, vip))
      else None
    case UdpIn(ip, vip, _) => if Selectable(s, vip) then Some(Pick(s, vip)) else None
    case _ => None
  }

  // ---------------------------------------------------------------------------
  // RPCs
  // ---------------------------------------------------------------------------

  /** The interface of a target: the requested one, else the routing lookup's answer. */
  function Interface(t: Target): Option<u32> {
    if t.ifindex.Some? then t.ifindex else t.route
  }

  function ToBackend(t: Target): Backend
    requires Interface(t).Some?
  {
    Backend(t.daddr, t.dport, Interface(t).value % 0x1_0000)
  }

  /** The loop of `update` over the targets: the first that cannot be added decides the error. */
  function Collect(ts: seq<Target>): Result<seq<Backend>> {
    if ts == [] then Ok([])
    else
      match Collect(ts[..|ts| - 1])
      case Err(e) => Err(e)
      case Ok(bs) =>
        var t := ts[|ts| - 1];
        if Interface(t).None? then Err(NoRoute)
        else if |bs| >= CAPACITY then Err(TooManyBackends)
        else Ok(bs + [ToBackend(t)])
  }

  /** The request names an interface for the target, or the routing lookup knows one. */
  predicate Routable(t: Target) {
    t.ifindex.Some? || t.route.Some?
  }

  /** Field by field: the target's address and port, and the interface requested, else the route's, cut to 16 bits. */
  predicate Copies(b: Backend, t: Target) {
    && b.daddr == t.daddr && b.dport == t.dport
    && Routable(t) && b.ifindex == (if t.ifindex.Some? then t.ifindex.value else t.route.value) % 0x1_0000
  }

  /** An accepted request lists every target in order; otherwise the error says which limit was hit. */
  lemma {:induction false} CollectMeaning(ts: seq<Target>)
    ensures Collect(ts).Ok? <==> |ts| <= 128 && forall i :: 0 <= i < |ts| ==> Routable(ts[i])
    ensures Collect(ts).Ok? ==> |Collect(ts).value| == |ts|
    ensures Collect(ts).Ok? ==> forall i :: 0 <= i < |ts| ==> Copies(Collect(ts).value[i], ts[i])
    ensures Collect(ts) == Err(NoRoute) <==> exists i :: 0 <= i < |ts| && i <= 128 && !Routable(ts[i])
    ensures Collect(ts) == Err(TooManyBackends) <==> |ts| > 128 && forall i :: 0 <= i <= 128 ==> Routable(ts[i])
  {
    if ts != [] {
      var front := ts[..|ts| - 1];
      CollectMeaning(front);
      assert forall i :: 0 <= i < |front| ==> front[i] == ts[i];
      assert forall i :: 0 <= i < |ts| ==> i < |front| || ts[i] == ts[|ts| - 1];
    }
  }

  function Padded(bs: seq<Backend>): BackendList
    requires |bs| <= CAPACITY
  {
    BackendList(bs + seq(CAPACITY - |bs|, _ => ZERO_BACKEND), |bs|)
  }

  function BuildList(ts: seq<Target>): Result<BackendList> {
    match Collect(ts)
    case Err(e) => Err(e)
    case Ok(bs) => CollectMeaning(ts); Ok(Padded(bs))
  }

  /** `insert_and_reset_index`: two writes, the second skipped if the first fails. */
  function InsertAndReset(s: State, key: BackendKey, list: BackendList): (State, Result<()>) {
    if !CanInsert(s.backends, key) then (s, Err(MapFull))
    else
      var s' := s.(backends := s.backends[key := list]);
      if !CanInsert(s'.indexes, key) then (s', Err(MapFull))
      else (s'.(indexes := s'.indexes[key := 0]), Ok(()))
  }

  function UpdateRpc(s: State, key: Option<BackendKey>, ts: seq<Target>): (State, Result<()>) {
    if key.None? then (s, Err(MissingVip))
    else
      match BuildList(ts)
      case Err(e) => (s, Err(e))
      case Ok(list) => InsertAndReset(s, key.value, list)
  }

  function Unbound(conns: map<ClientKey, Mapping>, vip: BackendKey): map<ClientKey, Mapping> {
    map c | c in conns && conns[c].key != vip :: conns[c]
  }

  /** `remove`: three removals, each skipped if an earlier one fails. */
  function DeleteRpc(s: State, vip: BackendKey): (State, Result<()>) {
    if vip !in s.backends then (s, Err(NotFound))
    else
      var s' := s.(backends := s.backends - {vip});
      if vip !in s'.indexes then (s', Err(NotFound))
      else (s'.(indexes := s'.indexes - {vip}, conns := Unbound(s'.conns, vip)), Ok(()))
  }

  // ---------------------------------------------------------------------------
  // Steps and runs
  // ---------------------------------------------------------------------------

  function Step(s: State, e: Event): State {
    match e
    case TcpIn(c, vip, fl, rewritten) => TcpInStep(s, c, vip, fl, rewritten)
    case UdpIn(ip, vip, rewritten) => UdpInStep(s, ip, vip, rewritten)
    case TcpOut(c, fl) => TcpOutStep(s, c, fl)
    case IcmpOut(ip, icmpType, complete) => IcmpOutStep(s, ip, icmpType, complete)
    case Update(key, ts) => UpdateRpc(s, key, ts).0
    case Delete(vip) => DeleteRpc(s, vip).0
  }

  function Run(s: State, es: seq<Event>): State
    decreases |es|
  {
    if es == [] then s else Run(Step(s, es[0]), es[1..])
  }
}
