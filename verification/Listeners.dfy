/** Listener conditions, how they absorb the previous status, and acceptance of the Gateway. */
module Listeners {
  import opened Types
  import opened GatewayTypes

  const GROUP := "gateway.networking.k8s.io"
  const TCP_ROUTE := "TCPRoute"
  const UDP_ROUTE := "UDPRoute"

  // ---------------------------------------------------------------------------
  // One listener
  // ---------------------------------------------------------------------------

  /** `check_route_kinds` for a given kind: a message if the list is not acceptable. */
  function CheckRouteKinds(kind: string, rgks: seq<RouteKind>): Option<string> {
    if rgks == [] then None
    else if |rgks| > 1 then Some("Multiple route kinds for a single listener is unsupported")
    else if rgks[0].kind != kind then
      Some("Unsupported route kind " + rgks[0].kind + "; only " + kind + " is supported")
    else if rgks[0].group.Some? && rgks[0].group.value != GROUP then
      Some("Unsupported API group: " + rgks[0].group.value)
    else None
  }

  /** The kind of route a protocol serves; the others are unsupported. */
  function RouteKindOf(protocol: string): Option<string> {
    if protocol == "TCP" || protocol == "HTTP" || protocol == "HTTPS" then Some(TCP_ROUTE)
    else if protocol == "UDP" then Some(UDP_ROUTE)
    else None
  }

  function KindsMessage(l: Listener, kind: string): Option<string> {
    if l.allowedRoutes.Some? && l.allowedRoutes.value.kinds.Some?
    then CheckRouteKinds(kind, l.allowedRoutes.value.kinds.value)
    else None
  }

  /** At most one route kind, and if there is one it is the right kind of the Gateway API group. */
  predicate KindsAllowed(l: Listener, kind: string) {
    l.allowedRoutes.Some? && l.allowedRoutes.value.kinds.Some? ==>
      var ks := l.allowedRoutes.value.kinds.value;
      |ks| <= 1 && forall k :: k in ks ==>
        k.kind == kind && (k.group.Some? ==> k.group.value == "gateway.networking.k8s.io")
  }

  predicate StreamProtocol(protocol: string) {
    protocol == "TCP" || protocol == "HTTP" || protocol == "HTTPS"
  }

  /** The listener's routes can be resolved; an unsupported protocol is held to the rule for UDP. */
  predicate RefsResolved(l: Listener) {
    KindsAllowed(l, if StreamProtocol(l.protocol) then "TCPRoute" else "UDPRoute")
  }

  /** What the specification alone says about a listener. */
  predicate ListenerValid(l: Listener) {
    (StreamProtocol(l.protocol) || l.protocol == "UDP") && RefsResolved(l)
  }

  function Holds(type_: string, message: string, gen: int, now: int): Condition {
    Condition(type_, TRUE, type_, message, Some(gen), now)
  }

  function Fails(type_: string, reason: string, message: string, gen: int, now: int): Condition {
    Condition(type_, FALSE, reason, message, Some(gen), now)
  }

  function UnsupportedMessage(l: Listener): string {
    "Unsupported protocol: " + l.protocol + ", must be one of TCP or UDP"
  }

  /** `get_listener_status`: ResolvedRefs, Accepted and Programmed, in this order. */
  function ListenerConditions(l: Listener, gen: int, now: int): (r: seq<Condition>)
    ensures |r| == 3
  {
    var resolved := Holds(RESOLVED_REFS, "All references resolved", gen, now);
    match RouteKindOf(l.protocol)
    case Some(kind) =>
      (match KindsMessage(l, kind)
       case None =>
         [resolved,
          Holds(ACCEPTED, "Listener is valid", gen, now),
          Holds(PROGRAMMED, "Listener is valid", gen, now)]
       case Some(msg) =>
         [Fails(RESOLVED_REFS, "InvalidRouteKinds", msg, gen, now),
          Fails(ACCEPTED, "InvalidRouteKinds", msg, gen, now),
          Fails(PROGRAMMED, "Invalid", msg, gen, now)])
    case None =>
      [match KindsMessage(l, UDP_ROUTE)
       case None => resolved
       case Some(msg) => Fails(RESOLVED_REFS, "InvalidRouteKinds", msg, gen, now),
       Fails(ACCEPTED, "UnsupportedProtocol", UnsupportedMessage(l), gen, now),
       Fails(PROGRAMMED, "Invalid", UnsupportedMessage(l), gen, now)]
  }

  function SupportedKinds(l: Listener): seq<RouteKind> {
    match RouteKindOf(l.protocol)
    case Some(kind) => [RouteKind(Some(GROUP), kind)]
    case None => []
  }

  predicate AnyFalse(cs: seq<Condition>) {
    exists i :: 0 <= i < |cs| && cs[i].status == FALSE
  }

  lemma KindsMessageIff(l: Listener, kind: string)
    ensures KindsMessage(l, kind).None? <==> KindsAllowed(l, kind)
  {
    if l.allowedRoutes.Some? && l.allowedRoutes.value.kinds.Some? {
      var ks := l.allowedRoutes.value.kinds.value;
      if |ks| == 1 {
        assert ks[0] in ks;
      }
    }
  }

  /** A refused list of route kinds is explained by the first rule it breaks. */
  lemma KindsMessageNames(l: Listener, kind: string)
    requires !KindsAllowed(l, kind)
    ensures var ks := l.allowedRoutes.value.kinds.value;
            KindsMessage(l, kind) == Some(
              if |ks| > 1 then "Multiple route kinds for a single listener is unsupported"
              else if ks[0].kind != kind then "Unsupported route kind " + ks[0].kind + "; only " + kind + " is supported"
              else "Unsupported API group: " + ks[0].group.value)
  {
  }

  /** The status a condition of this type must show for this listener. */
  predicate Owed(l: Listener, type_: string, status: string) {
    || (type_ == "ResolvedRefs" && status == if RefsResolved(l) then "True" else "False")
    || (type_ == "Accepted" && status == if ListenerValid(l) then "True" else "False")
    || (type_ == "Programmed" && status == if ListenerValid(l) then "True" else "False")
  }

  /** The reason and message that go with it. */
  predicate Explained(l: Listener, c: Condition) {
    var served := StreamProtocol(l.protocol) || l.protocol == "UDP";
    var refused := KindsMessage(l, if StreamProtocol(l.protocol) then "TCPRoute" else "UDPRoute");
    if c.type_ == "ResolvedRefs" then
      && c.reason == (if RefsResolved(l) then "ResolvedRefs" else "InvalidRouteKinds")
      && Some(c.message) == if RefsResolved(l) then Some("All references resolved") else refused
    else
      && c.reason == (if ListenerValid(l) then c.type_
                      else if c.type_ == "Programmed" then "Invalid"
                      else if served then "InvalidRouteKinds" else "UnsupportedProtocol")
      && Some(c.message) ==
         if ListenerValid(l) then Some("Listener is valid")
         else if served then refused
         else Some("Unsupported protocol: " + l.protocol + ", must be one of TCP or UDP")
  }

  /** The three computed conditions, type by type: the status owed, explained, and the time and generation given. */
  lemma ConditionPerType(l: Listener, gen: int, now: int, i: nat)
    requires i < 3
    ensures var c := ListenerConditions(l, gen, now)[i];
            && c.type_ == ["ResolvedRefs", "Accepted", "Programmed"][i]
            && Owed(l, c.type_, c.status) && Explained(l, c)
            && c.generation == Some(gen) && c.time == now
  {
    KindsMessageIff(l, "TCPRoute");
    KindsMessageIff(l, "UDPRoute");
    hide KindsMessage, KindsAllowed;
  }

  /** The computed conditions contain a False one exactly for an invalid listener. */
  lemma ConditionsReflectValidity(l: Listener, gen: int, now: int)
    ensures AnyFalse(ListenerConditions(l, gen, now)) <==> !ListenerValid(l)
  {
    ConstantsDiffer();
    ConditionPerType(l, gen, now, 0);
    ConditionPerType(l, gen, now, 1);
    ConditionPerType(l, gen, now, 2);
    hide ListenerConditions, KindsAllowed;
    var cs := ListenerConditions(l, gen, now);
    AnyFalseThree(cs);
    assert cs[0].type_[0] == 'R' && cs[1].type_[0] == 'A' && cs[2].type_[0] == 'P';
  }

  /** Exactly the route kind of a supported protocol is offered. */
  lemma SupportedKindsExactly(l: Listener)
    ensures SupportedKinds(l) ==
            if StreamProtocol(l.protocol) then [RouteKind(Some("gateway.networking.k8s.io"), "TCPRoute")]
            else if l.protocol == "UDP" then [RouteKind(Some("gateway.networking.k8s.io"), "UDPRoute")]
            else []
  {
  }

  // ---------------------------------------------------------------------------
  // Absorbing the previous status
  // ---------------------------------------------------------------------------

  /** For a previous condition of the same type: itself if the status agrees, else the new one. */
  function KeptFrom(cond: Condition, previous: Condition, gen: Option<int>): seq<Condition> {
    if previous.type_ != cond.type_ then []
    else if previous.status == cond.status then [previous.(generation := gen)]
    else [cond]
  }

  function Kept(cond: Condition, current: seq<Condition>, gen: Option<int>): seq<Condition> {
    if current == [] then [] else KeptFrom(cond, current[0], gen) + Kept(cond, current[1..], gen)
  }

  function Absorb(cond: Condition, current: seq<Condition>, gen: Option<int>): seq<Condition> {
    if Kept(cond, current, gen) == [] then [cond] else Kept(cond, current, gen)
  }

  function FinalConditions(conds: seq<Condition>, current: seq<Condition>, gen: Option<int>): seq<Condition> {
    if conds == [] then []
    else FinalConditions(conds[..|conds| - 1], current, gen) + Absorb(conds[|conds| - 1], current, gen)
  }

  /** Every condition of the block is of this type, status and generation. */
  predicate BlockOf(block: seq<Condition>, cond: Condition, gen: Option<int>) {
    forall i :: 0 <= i < |block| ==>
      block[i].type_ == cond.type_ && block[i].status == cond.status && block[i].generation == gen
  }

  lemma {:induction false} KeptIsBlock(cond: Condition, current: seq<Condition>, gen: Option<int>)
    requires cond.generation == gen
    ensures BlockOf(Kept(cond, current, gen), cond, gen)
  {
    if current != [] {
      KeptIsBlock(cond, current[1..], gen);
    }
  }

  /** Whatever the previous status held, only conditions agreeing with the computed one come out. */
  lemma AbsorbIsBlock(cond: Condition, current: seq<Condition>, gen: Option<int>)
    requires cond.generation == gen
    ensures Absorb(cond, current, gen) != [] && BlockOf(Absorb(cond, current, gen), cond, gen)
  {
    KeptIsBlock(cond, current, gen);
  }

  lemma {:induction false} KeptConcat(cond: Condition, a: seq<Condition>, b: seq<Condition>, gen: Option<int>)
    ensures Kept(cond, a + b, gen) == Kept(cond, a, gen) + Kept(cond, b, gen)
  {
    hide Kept, KeptFrom;
    if a == [] {
      KeptNothing(cond, gen);
      assert a + b == b;
    } else {
      var p, rest := a[0], a[1..];
      assert a == [p] + rest && a + b == [p] + (rest + b);
      KeptCons(cond, p, rest, gen);
      KeptCons(cond, p, rest + b, gen);
      KeptConcat(cond, rest, b, gen);
      Regroup(KeptFrom(cond, p, gen), Kept(cond, rest, gen), Kept(cond, b, gen));
    }
  }

  lemma KeptNothing(cond: Condition, gen: Option<int>)
    ensures Kept(cond, [], gen) == []
  {
  }

  lemma KeptCons(cond: Condition, p: Condition, rest: seq<Condition>, gen: Option<int>)
    ensures Kept(cond, [p] + rest, gen) == KeptFrom(cond, p, gen) + Kept(cond, rest, gen)
    ensures Kept(cond, [p], gen) == KeptFrom(cond, p, gen)
  {
    hide KeptFrom;
    assert ([p] + rest)[1..] == rest && [p][1..] == [];
  }

  lemma Regroup(a: seq<Condition>, b: seq<Condition>, c: seq<Condition>)
    ensures a + (b + c) == (a + b) + c
  {
  }

  lemma {:induction false} KeptOfBlock(cond: Condition, block: seq<Condition>, from: Condition, gen: Option<int>)
    requires BlockOf(block, from, gen)
    ensures from.type_ != cond.type_ ==> Kept(cond, block, gen) == []
    ensures from.type_ == cond.type_ && from.status == cond.status ==> Kept(cond, block, gen) == block
  {
    if block != [] {
      KeptOfBlock(cond, block[1..], from, gen);
      assert block[0].(generation := gen) == block[0];
    }
  }

  lemma FinalThree(conds: seq<Condition>, current: seq<Condition>, gen: Option<int>)
    requires |conds| == 3
    ensures FinalConditions(conds, current, gen)
         == Absorb(conds[0], current, gen) + Absorb(conds[1], current, gen) + Absorb(conds[2], current, gen)
  {
    hide Absorb;
    var two, one := conds[..2], conds[..2][..1];
    assert one[..0] == [] && one[0] == conds[0] && two[1] == conds[1];
    assert FinalConditions(one, current, gen) == FinalConditions(one[..0], current, gen) + Absorb(conds[0], current, gen);
    assert FinalConditions(two, current, gen) == FinalConditions(one, current, gen) + Absorb(conds[1], current, gen);
  }

  predicate ThreeTypes(conds: seq<Condition>, gen: Option<int>) {
    && |conds| == 3
    && conds[0].type_ == RESOLVED_REFS && conds[1].type_ == ACCEPTED && conds[2].type_ == PROGRAMMED
    && conds[0].generation == conds[1].generation == conds[2].generation == gen
  }

  lemma ComputedTypes(l: Listener, gen: int, now: int)
    ensures ThreeTypes(ListenerConditions(l, gen, now), Some(gen))
  {
    hide RouteKindOf, KindsMessage;
  }

  /** Only the time of the computed conditions depends on the clock. */
  lemma ComputedAnyTime(l: Listener, gen: int, now: int, later: int, i: nat)
    requires i < 3
    ensures ListenerConditions(l, gen, later)[i] == ListenerConditions(l, gen, now)[i].(time := later)
  {
    hide RouteKindOf, KindsMessage;
  }

  lemma BlockFalse(block: seq<Condition>, cond: Condition, gen: Option<int>)
    requires block != [] && BlockOf(block, cond, gen)
    ensures AnyFalse(block) <==> cond.status == FALSE
  {
    assert block[0].status == cond.status;
  }

  lemma AnyFalseConcat(a: seq<Condition>, b: seq<Condition>)
    ensures AnyFalse(a + b) <==> AnyFalse(a) || AnyFalse(b)
  {
    if AnyFalse(a) {
      var i :| 0 <= i < |a| && a[i].status == FALSE;
      assert (a + b)[i].status == FALSE;
    }
    if AnyFalse(b) {
      var i :| 0 <= i < |b| && b[i].status == FALSE;
      assert (a + b)[|a| + i].status == FALSE;
    }
  }

  /** The previous status, even with duplicates, cannot change whether a listener shows a False condition. */
  lemma AbsorbingKeepsVerdict(conds: seq<Condition>, current: seq<Condition>, gen: Option<int>)
    requires ThreeTypes(conds, gen)
    ensures AnyFalse(FinalConditions(conds, current, gen)) <==> AnyFalse(conds)
  {
    hide AnyFalse, Absorb, BlockOf;
    FinalThree(conds, current, gen);
    var a, b, c := Absorb(conds[0], current, gen), Absorb(conds[1], current, gen), Absorb(conds[2], current, gen);
    AbsorbIsBlock(conds[0], current, gen);
    AbsorbIsBlock(conds[1], current, gen);
    AbsorbIsBlock(conds[2], current, gen);
    BlockFalse(a, conds[0], gen);
    BlockFalse(b, conds[1], gen);
    BlockFalse(c, conds[2], gen);
    AnyFalseConcat(a, b);
    AnyFalseConcat(a + b, c);
    AnyFalseThree(conds);
  }

  lemma AnyFalseThree(cs: seq<Condition>)
    requires |cs| == 3
    ensures AnyFalse(cs) <==> cs[0].status == FALSE || cs[1].status == FALSE || cs[2].status == FALSE
  {
  }

  /** Absorbing a status that was itself produced this way changes nothing, whatever the clock says. */
  lemma AbsorbingIsIdempotent(conds: seq<Condition>, later: seq<Condition>, current: seq<Condition>, gen: Option<int>)
    requires ThreeTypes(conds, gen) && ThreeTypes(later, gen)
    requires forall i :: 0 <= i < 3 ==> later[i].status == conds[i].status
    ensures FinalConditions(later, FinalConditions(conds, current, gen), gen) == FinalConditions(conds, current, gen)
  {
    ConstantsDiffer();
    var a, b, c := Absorb(conds[0], current, gen), Absorb(conds[1], current, gen), Absorb(conds[2], current, gen);
    AbsorbIsBlock(conds[0], current, gen);
    AbsorbIsBlock(conds[1], current, gen);
    AbsorbIsBlock(conds[2], current, gen);
    FinalThree(conds, current, gen);
    FinalThree(later, a + b + c, gen);
    hide FinalConditions, BlockOf, Kept, Absorb;
    assert later[0].status == conds[0].status && later[1].status == conds[1].status && later[2].status == conds[2].status;
    PickBlock(later[0], conds, a, b, c, gen);
    PickBlock(later[1], conds, a, b, c, gen);
    PickBlock(later[2], conds, a, b, c, gen);
    AbsorbNonEmpty(later[0], a + b + c, gen, a);
    AbsorbNonEmpty(later[1], a + b + c, gen, b);
    AbsorbNonEmpty(later[2], a + b + c, gen, c);
  }

  lemma AbsorbNonEmpty(cond: Condition, current: seq<Condition>, gen: Option<int>, kept: seq<Condition>)
    requires Kept(cond, current, gen) == kept && kept != []
    ensures Absorb(cond, current, gen) == kept
  {
  }

  lemma PickBlock(cond: Condition, conds: seq<Condition>, a: seq<Condition>, b: seq<Condition>,
                  c: seq<Condition>, gen: Option<int>)
    requires |conds| == 3 && BlockOf(a, conds[0], gen) && BlockOf(b, conds[1], gen) && BlockOf(c, conds[2], gen)
    requires conds[0].type_ != conds[1].type_ && conds[1].type_ != conds[2].type_ && conds[0].type_ != conds[2].type_
    requires exists i :: 0 <= i < 3 && cond.type_ == conds[i].type_ && cond.status == conds[i].status
    ensures Kept(cond, a + b + c, gen) ==
            if cond.type_ == conds[0].type_ then a else if cond.type_ == conds[1].type_ then b else c
  {
    KeptConcat(cond, a + b, c, gen);
    KeptConcat(cond, a, b, gen);
    hide Kept;
    KeptOfBlock(cond, a, conds[0], gen);
    KeptOfBlock(cond, b, conds[1], gen);
    KeptOfBlock(cond, c, conds[2], gen);
  }

  // ---------------------------------------------------------------------------
  // All listeners
  // ---------------------------------------------------------------------------

  /** The previous statuses by name; of two with one name the later counts. */
  function ByName(ls: seq<ListenerStatus>): map<string, ListenerStatus> {
    if ls == [] then map[] else ByName(ls[..|ls| - 1])[ls[|ls| - 1].name := ls[|ls| - 1]]
  }

  function StatusOf(l: Listener, current: map<string, ListenerStatus>, gen: int, now: int): ListenerStatus {
    var conds := ListenerConditions(l, gen, now);
    ListenerStatus(l.name, 0, SupportedKinds(l),
                   if l.name in current then FinalConditions(conds, current[l.name].conditions, Some(gen)) else conds)
  }

  /** The list `set_listener_status` builds; each listener reads the clock once. */
  function Statuses(ls: seq<Listener>, current: map<string, ListenerStatus>, gen: int,
                    clock: nat -> int): (r: seq<ListenerStatus>)
    ensures |r| == |ls|
    ensures forall i :: 0 <= i < |ls| ==> r[i] == StatusOf(ls[i], current, gen, clock(i))
  {
    if ls == [] then []
    else
      Statuses(ls[..|ls| - 1], current, gen, clock) + [StatusOf(ls[|ls| - 1], current, gen, clock(|ls| - 1))]
  }

  function PreviousListeners(status: Option<GatewayStatus>): seq<ListenerStatus> {
    if status.Some? && status.value.listeners.Some? then status.value.listeners.value else []
  }

  function WithListeners(status: Option<GatewayStatus>, spec: GatewaySpec, gen: int,
                         clock: nat -> int): Option<GatewayStatus> {
    match status
    case None => None
    case Some(st) =>
      Some(st.(listeners := Some(Statuses(spec.listeners, ByName(PreviousListeners(status)), gen, clock))))
  }

  lemma StatusReflectsValidity(l: Listener, current: map<string, ListenerStatus>, gen: int, now: int)
    ensures AnyFalse(StatusOf(l, current, gen, now).conditions) <==> !ListenerValid(l)
  {
    hide AnyFalse, ListenerConditions, ListenerValid, FinalConditions;
    ConditionsReflectValidity(l, gen, now);
    ComputedTypes(l, gen, now);
    if l.name in current {
      AbsorbingKeepsVerdict(ListenerConditions(l, gen, now), current[l.name].conditions, Some(gen));
    }
  }

  lemma {:induction false} KeptOrigin(cond: Condition, current: seq<Condition>, gen: Option<int>, i: nat)
    requires i < |Kept(cond, current, gen)|
    ensures var k := Kept(cond, current, gen)[i];
            k == cond || exists j :: 0 <= j < |current| && k == current[j].(generation := gen)
  {
    if current != [] {
      var first := |Kept(cond, current, gen)| - |Kept(cond, current[1..], gen)|;
      if i < first {
        assert Kept(cond, current, gen)[i] == cond || Kept(cond, current, gen)[i] == current[0].(generation := gen);
      } else {
        KeptOrigin(cond, current[1..], gen, i - first);
        assert forall j :: 0 <= j < |current[1..]| ==> current[1..][j] == current[j + 1];
      }
    }
  }

  function CountType(cs: seq<Condition>, type_: string): nat {
    if cs == [] then 0 else (if cs[0].type_ == type_ then 1 else 0) + CountType(cs[1..], type_)
  }

  lemma {:induction false} KeptCount(cond: Condition, current: seq<Condition>, gen: Option<int>)
    ensures |Kept(cond, current, gen)| == CountType(current, cond.type_)
  {
    if current != [] {
      KeptCount(cond, current[1..], gen);
    }
  }

  /** No previous condition of the type is lost or doubled; one is added if there was none. */
  lemma AbsorbCount(cond: Condition, current: seq<Condition>, gen: Option<int>)
    ensures var n := CountType(current, cond.type_); |Absorb(cond, current, gen)| == if n == 0 then 1 else n
  {
    hide Kept;
    KeptCount(cond, current, gen);
  }

  /** A condition as it may stand in a written listener status: fresh, or carried over with its status still right. */
  ghost predicate Justified(l: Listener, c: Condition, before: seq<Condition>, gen: int) {
    && Owed(l, c.type_, c.status) && c.generation == Some(gen)
    && (Explained(l, c) || exists j :: 0 <= j < |before| && c == before[j].(generation := Some(gen)))
  }

  lemma BlockJustified(l: Listener, cond: Condition, before: seq<Condition>, gen: int, i: nat)
    requires Owed(l, cond.type_, cond.status) && Explained(l, cond) && cond.generation == Some(gen)
    requires i < |Absorb(cond, before, Some(gen))|
    ensures Justified(l, Absorb(cond, before, Some(gen))[i], before, gen)
    ensures Absorb(cond, before, Some(gen))[i].type_ == cond.type_
  {
    hide Owed, Explained;
    AbsorbIsBlock(cond, before, Some(gen));
    if Kept(cond, before, Some(gen)) != [] {
      KeptOrigin(cond, before, Some(gen), i);
    }
  }

  predicate Present(cs: seq<Condition>, type_: string) {
    exists i :: 0 <= i < |cs| && cs[i].type_ == type_
  }

  ghost predicate AllJustified(l: Listener, cs: seq<Condition>, before: seq<Condition>, gen: int) {
    forall i :: 0 <= i < |cs| ==> Justified(l, cs[i], before, gen)
  }

  lemma ComputedBlock(l: Listener, before: seq<Condition>, gen: int, now: int, k: nat)
    requires k < 3
    ensures var block := Absorb(ListenerConditions(l, gen, now)[k], before, Some(gen));
            AllJustified(l, block, before, gen) && Present(block, ["ResolvedRefs", "Accepted", "Programmed"][k])
  {
    hide Owed, Explained, Justified, ListenerConditions, Absorb;
    var cond := ListenerConditions(l, gen, now)[k];
    ConditionPerType(l, gen, now, k);
    AbsorbIsBlock(cond, before, Some(gen));
    var block := Absorb(cond, before, Some(gen));
    forall i | 0 <= i < |block|
      ensures Justified(l, block[i], before, gen) && block[i].type_ == cond.type_
    {
      BlockJustified(l, cond, before, gen, i);
    }
    assert block[0].type_ == cond.type_;
  }

  lemma JustifiedConcat(l: Listener, a: seq<Condition>, b: seq<Condition>, before: seq<Condition>, gen: int, t: string)
    ensures AllJustified(l, a, before, gen) && AllJustified(l, b, before, gen) ==> AllJustified(l, a + b, before, gen)
    ensures Present(a, t) || Present(b, t) ==> Present(a + b, t)
  {
    hide Justified;
    if Present(a, t) {
      var i :| 0 <= i < |a| && a[i].type_ == t;
      assert (a + b)[i].type_ == t;
    } else if Present(b, t) {
      var i :| 0 <= i < |b| && b[i].type_ == t;
      assert (a + b)[|a| + i].type_ == t;
    }
  }

  /**
   * What is written for a listener, whatever its previous status held: every condition is of one of
   * the three types and shows the status owed, with its reason unless carried over, and all three
   * types are there.
   */
  lemma WrittenConditions(l: Listener, current: map<string, ListenerStatus>, gen: int, now: int)
    ensures var st := StatusOf(l, current, gen, now);
            && st.name == l.name && st.attachedRoutes == 0
            && AllJustified(l, st.conditions, if l.name in current then current[l.name].conditions else [], gen)
            && Present(st.conditions, "ResolvedRefs")
            && Present(st.conditions, "Accepted")
            && Present(st.conditions, "Programmed")
  {
    hide AllJustified, Present, ListenerConditions, SupportedKinds, FinalConditions, Absorb;
    var conds, before := ListenerConditions(l, gen, now), if l.name in current then current[l.name].conditions else [];
    FreshIsFinal(conds, Some(gen));
    FinalThree(conds, before, Some(gen));
    ComputedBlock(l, before, gen, now, 0);
    ComputedBlock(l, before, gen, now, 1);
    ComputedBlock(l, before, gen, now, 2);
    var a, b, c := Absorb(conds[0], before, Some(gen)), Absorb(conds[1], before, Some(gen)),
      Absorb(conds[2], before, Some(gen));
    JustifiedConcat(l, a, b, before, gen, "ResolvedRefs");
    JustifiedConcat(l, a, b, before, gen, "Accepted");
    JustifiedConcat(l, a + b, c, before, gen, "ResolvedRefs");
    JustifiedConcat(l, a + b, c, before, gen, "Accepted");
    JustifiedConcat(l, a + b, c, before, gen, "Programmed");
  }

  predicate DistinctNames(ls: seq<Listener>) {
    forall i, j :: 0 <= i < j < |ls| ==> ls[i].name != ls[j].name
  }

  lemma {:induction false} ByNameFinds(ls: seq<ListenerStatus>, i: nat)
    requires i < |ls| && forall j :: i < j < |ls| ==> ls[j].name != ls[i].name
    ensures ls[i].name in ByName(ls) && ByName(ls)[ls[i].name] == ls[i]
  {
    if i < |ls| - 1 {
      ByNameFinds(ls[..|ls| - 1], i);
    }
  }

  lemma StatusIsFixed(l: Listener, current: map<string, ListenerStatus>, next: map<string, ListenerStatus>,
                      gen: int, now: int, later: int)
    requires l.name in next && next[l.name] == StatusOf(l, current, gen, now)
    ensures StatusOf(l, next, gen, later) == StatusOf(l, current, gen, now)
  {
    hide ListenerConditions, FinalConditions, SupportedKinds, ThreeTypes;
    var conds, conds' := ListenerConditions(l, gen, now), ListenerConditions(l, gen, later);
    ComputedTypes(l, gen, now);
    ComputedTypes(l, gen, later);
    forall i | 0 <= i < 3
      ensures conds'[i].status == conds[i].status
    {
      ComputedAnyTime(l, gen, now, later, i);
    }
    var before := if l.name in current then current[l.name].conditions else [];
    FreshIsFinal(conds, Some(gen));
    AbsorbingIsIdempotent(conds, conds', before, Some(gen));
  }

  /** With no previous conditions the computed ones come out as they are. */
  lemma FreshIsFinal(conds: seq<Condition>, gen: Option<int>)
    requires |conds| == 3
    ensures FinalConditions(conds, [], gen) == conds
  {
    FinalThree(conds, [], gen);
    assert forall c :: Absorb(c, [], gen) == [c];
  }

  /** Recomputing the listener statuses from ones just computed gives the same list, at any time. */
  lemma StatusesAreFixed(ls: seq<Listener>, current: map<string, ListenerStatus>, gen: int, clock: nat -> int,
                         clock': nat -> int)
    requires DistinctNames(ls)
    ensures var st := Statuses(ls, current, gen, clock); Statuses(ls, ByName(st), gen, clock') == st
  {
    hide Statuses;
    var st := Statuses(ls, current, gen, clock);
    hide StatusOf;
    forall i | 0 <= i < |ls|
      ensures StatusOf(ls[i], ByName(st), gen, clock'(i)) == st[i]
    {
      NamesCarryOver(ls, st, current, gen, clock);
      ByNameFinds(st, i);
      StatusIsFixed(ls[i], current, ByName(st), gen, clock(i), clock'(i));
    }
  }

  lemma NamesCarryOver(ls: seq<Listener>, st: seq<ListenerStatus>, current: map<string, ListenerStatus>,
                       gen: int, clock: nat -> int)
    requires st == Statuses(ls, current, gen, clock)
    ensures |st| == |ls| && forall i :: 0 <= i < |ls| ==> st[i].name == ls[i].name
  {
    hide Statuses, FinalConditions, ListenerConditions;
  }

  // ---------------------------------------------------------------------------
  // Acceptance
  // ---------------------------------------------------------------------------

  /** The last listener that shows a False condition. */
  function LastInvalid(ls: seq<ListenerStatus>): Option<string> {
    if ls == [] then None
    else if AnyFalse(ls[|ls| - 1].conditions) then Some(ls[|ls| - 1].name)
    else LastInvalid(ls[..|ls| - 1])
  }

  predicate Foreign(a: Address) {
    a.type_.Some? && a.type_.value != IP_ADDRESS
  }

  /** The first address type that is not IPAddress. */
  function ForeignType(as_: seq<Address>): Option<string> {
    if as_ == [] then None
    else if Foreign(as_[0]) then as_[0].type_
    else ForeignType(as_[1..])
  }

  function Addresses(spec: GatewaySpec): seq<Address> {
    if spec.addresses.Some? then spec.addresses.value else []
  }

  /** `get_accepted_condition`; an unsupported address outranks an invalid listener. */
  function AcceptedCondition(status: Option<GatewayStatus>, spec: GatewaySpec, gen: Option<int>, now: int): Condition {
    var foreign, invalid := ForeignType(Addresses(spec)), LastInvalid(PreviousListeners(status));
    if foreign.Some? then
      Condition(ACCEPTED, FALSE, "UnsupportedAddress",
                "found an addres of type " + foreign.value + ", only type IPAddress is supported", gen, now)
    else if invalid.Some? then
      Condition(ACCEPTED, FALSE, "ListenersNotValid", "listener " + invalid.value + " is invalid", gen, now)
    else Condition(ACCEPTED, TRUE, "Accepted", "Blixt accepts responsibility for this Gateway", gen, now)
  }

  lemma {:induction false} LastInvalidIff(ls: seq<ListenerStatus>)
    ensures LastInvalid(ls).Some? <==> exists i :: 0 <= i < |ls| && AnyFalse(ls[i].conditions)
  {
    if ls != [] {
      LastInvalidIff(ls[..|ls| - 1]);
      assert forall i :: 0 <= i < |ls| - 1 ==> ls[..|ls| - 1][i] == ls[i];
    }
  }

  lemma {:induction false} ForeignTypeIff(as_: seq<Address>)
    ensures ForeignType(as_).Some? <==> exists i :: 0 <= i < |as_| && Foreign(as_[i])
  {
    if as_ != [] {
      ForeignTypeIff(as_[1..]);
      assert forall i :: 0 < i < |as_| ==> as_[1..][i - 1] == as_[i];
    }
  }

  /** What the Gateway's specification alone says about acceptance. */
  predicate SpecAcceptable(spec: GatewaySpec, withListeners: bool) {
    && (spec.addresses.Some? ==>
          forall i :: 0 <= i < |spec.addresses.value| ==> spec.addresses.value[i].type_ in {None, Some("IPAddress")})
    && (withListeners ==> forall i :: 0 <= i < |spec.listeners| ==> ListenerValid(spec.listeners[i]))
  }

  lemma SupportedAddresses(spec: GatewaySpec)
    ensures ForeignType(Addresses(spec)).None? <==> SpecAcceptable(spec, false)
  {
    ForeignTypeIff(Addresses(spec));
    hide ForeignType;
    assert forall a: Address :: Foreign(a) <==> a.type_ !in {None, Some("IPAddress")};
  }

  /**
   * After `set_listener_status`, acceptance depends on the specification alone, whatever the
   * previous status held. Without any status to write to, listeners are not looked at.
   */
  lemma AcceptanceFromSpec(status: Option<GatewayStatus>, spec: GatewaySpec, gen: int, clock: nat -> int, now: int)
    ensures var status' := WithListeners(status, spec, gen, clock);
            AcceptedCondition(status', spec, Some(gen), now).status == FALSE <==> !SpecAcceptable(spec, status.Some?)
  {
    hide AnyFalse, ListenerValid, LastInvalid, ForeignType, Foreign, ListenerConditions, FinalConditions;
    ConstantsDiffer();
    var status' := WithListeners(status, spec, gen, clock);
    var ls := PreviousListeners(status');
    LastInvalidIff(ls);
    SupportedAddresses(spec);
    if status.Some? {
      var current := ByName(PreviousListeners(status));
      forall i | 0 <= i < |spec.listeners|
        ensures AnyFalse(ls[i].conditions) <==> !ListenerValid(spec.listeners[i])
      {
        StatusReflectsValidity(spec.listeners[i], current, gen, clock(i));
      }
    }
  }

  lemma {:induction false} LastInvalidIs(ls: seq<ListenerStatus>, i: nat)
    requires i < |ls| && AnyFalse(ls[i].conditions)
    requires forall j :: i < j < |ls| ==> !AnyFalse(ls[j].conditions)
    ensures LastInvalid(ls) == Some(ls[i].name)
  {
    hide AnyFalse;
    if i < |ls| - 1 {
      assert ls[..|ls| - 1][i] == ls[i];
      LastInvalidIs(ls[..|ls| - 1], i);
    }
  }

  lemma {:induction false} ForeignTypeIs(as_: seq<Address>, i: nat)
    requires i < |as_| && Foreign(as_[i])
    requires forall j :: 0 <= j < i ==> !Foreign(as_[j])
    ensures ForeignType(as_) == as_[i].type_
  {
    if i > 0 {
      ForeignTypeIs(as_[1..], i - 1);
    }
  }

  /** The reason given names the first unsupported address type. */
  lemma RefusedForAddress(status: Option<GatewayStatus>, spec: GatewaySpec, gen: Option<int>, now: int, i: nat)
    requires spec.addresses.Some? && i < |spec.addresses.value|
    requires spec.addresses.value[i].type_ !in {None, Some("IPAddress")}
    requires forall j :: 0 <= j < i ==> spec.addresses.value[j].type_ in {None, Some("IPAddress")}
    ensures AcceptedCondition(status, spec, gen, now) ==
            Condition("Accepted", "False", "UnsupportedAddress",
                      "found an addres of type " + spec.addresses.value[i].type_.value
                      + ", only type IPAddress is supported", gen, now)
  {
    hide LastInvalid;
    ForeignTypeIs(spec.addresses.value, i);
  }

  /** With supported addresses it names the last invalid listener, whatever the previous status held. */
  lemma RefusedForListener(status: GatewayStatus, spec: GatewaySpec, gen: int, clock: nat -> int, now: int, i: nat)
    requires SpecAcceptable(spec, false)
    requires i < |spec.listeners| && !ListenerValid(spec.listeners[i])
    requires forall j :: i < j < |spec.listeners| ==> ListenerValid(spec.listeners[j])
    ensures AcceptedCondition(WithListeners(Some(status), spec, gen, clock), spec, Some(gen), now) ==
            Condition("Accepted", "False", "ListenersNotValid",
                      "listener " + spec.listeners[i].name + " is invalid", Some(gen), now)
  {
    var current := ByName(PreviousListeners(Some(status)));
    var ls := Statuses(spec.listeners, current, gen, clock);
    SupportedAddresses(spec);
    hide AnyFalse, ListenerValid, LastInvalid, ForeignType, ListenerConditions, FinalConditions;
    forall j | 0 <= j < |ls|
      ensures AnyFalse(ls[j].conditions) <==> !ListenerValid(spec.listeners[j])
    {
      StatusReflectsValidity(spec.listeners[j], current, gen, clock(j));
    }
    LastInvalidIs(ls, i);
  }

  /** An acceptable Gateway is told so. */
  lemma AcceptedPlainly(status: Option<GatewayStatus>, spec: GatewaySpec, gen: int, clock: nat -> int, now: int)
    requires SpecAcceptable(spec, status.Some?)
    ensures AcceptedCondition(WithListeners(status, spec, gen, clock), spec, Some(gen), now) ==
            Condition("Accepted", "True", "Accepted", "Blixt accepts responsibility for this Gateway", Some(gen), now)
  {
    hide SpecAcceptable, WithListeners, ForeignType, LastInvalid;
    ConstantsDiffer();
    AcceptanceFromSpec(status, spec, gen, clock, now);
  }

  /** Smallest case of the exception: an unsupported listener is accepted when there is no status. */
  lemma NoStatusAcceptsInvalidListener(gen: int, clock: nat -> int, now: int)
    ensures var spec := GatewaySpec([Listener("l", 1, "SCTP", None)], None);
            && !ListenerValid(spec.listeners[0])
            && AcceptedCondition(WithListeners(None, spec, gen, clock), spec, Some(gen), now).status == TRUE
  {
    assert "SCTP"[0] != "TCP"[0] && "SCTP"[0] != "UDP"[0] && "SCTP"[0] != "HTTP"[0] && "SCTP"[0] != "HTTPS"[0];
  }
}
