/** One reconciliation of a Gateway, with the API server's answers as inputs. */
module Reconcile {
  import opened Types
  import opened GatewayTypes
  import opened Conditions
  import opened Listeners
  import opened ServiceSync

  /**
   * What the cluster answers. `ours` is None when the GatewayClass cannot be fetched; `services`
   * are those labelled for this Gateway; `created` is the Service as the API server returns it.
   */
  datatype Cluster = Cluster(
    named: bool, ours: Option<bool>, services: Option<seq<Service>>,
    patchOk: bool, created: Option<Service>, endpointsOk: bool)

  /**
   * What a reconciliation does: the status it writes, the Service it wants, the Service it goes on
   * with, the address it selects for the Endpoints object, and its result.
   */
  datatype Report = Report(
    written: Option<GatewayStatus>, desired: Option<Service>, service: Option<Service>,
    endpoint: Option<string>, result: Outcome<()>)

  function Quiet(result: Outcome<()>): Report {
    Report(None, None, None, None, result)
  }

  // ---------------------------------------------------------------------------
  // Pieces
  // ---------------------------------------------------------------------------

  /** `patch_status` sends empty lists for absent parts. */
  function Patched(status: Option<GatewayStatus>): GatewayStatus {
    match status
    case None => GatewayStatus(Some([]), Some([]), Some([]))
    case Some(st) =>
      GatewayStatus(if st.addresses.Some? then st.addresses else Some([]),
                    if st.conditions.Some? then st.conditions else Some([]),
                    if st.listeners.Some? then st.listeners else Some([]))
  }

  function IngressList(st: ServiceStatus): seq<Ingress> {
    if st.loadBalancer.Some? && st.loadBalancer.value.ingress.Some? then st.loadBalancer.value.ingress.value else []
  }

  /** The addresses `set_gateway_status_addresses` collects. */
  function IngressAddresses(ingress: seq<Ingress>): seq<Address> {
    if ingress == [] then []
    else
      IngressAddresses(ingress[..|ingress| - 1])
      + if ingress[|ingress| - 1].ip.Some? then [Address(Some(IP_ADDRESS), ingress[|ingress| - 1].ip.value)] else []
  }

  /** The address `create_endpoint_if_not_exists` selects: the first ingress that has an IP. */
  function FirstIp(ingress: seq<Ingress>): Option<string> {
    if ingress == [] then None
    else if ingress[0].ip.Some? then ingress[0].ip
    else FirstIp(ingress[1..])
  }

  function WithAddresses(status: Option<GatewayStatus>, svc: ServiceStatus): Option<GatewayStatus> {
    Some((if status.Some? then status.value else EMPTY_STATUS).(addresses := Some(IngressAddresses(IngressList(svc)))))
  }

  function Rejected(accepted: Condition): Condition {
    Condition(PROGRAMMED, FALSE, "Programmed", accepted.message, accepted.generation, accepted.time)
  }

  function NotAssigned(message: string, gen: int, now: int): Condition {
    Condition(PROGRAMMED, FALSE, "AddressNotAssigned", message, Some(gen), now)
  }

  function Configured(gen: int, now: int): Condition {
    Condition(PROGRAMMED, TRUE, "Programmed", "Dataplane configured for gateway", Some(gen), now)
  }

  const NO_SPEC := "error reconciling loadbalancer service: `Loadbalancer service spec not found`"
  const NO_STATUS := "error reconciling loadbalancer service: `Loadbalancer service status not found`"
  const NO_INGRESS := "LoadBalancer does not have a ingress IP address"

  /** Why the Service cannot be programmed yet, in the order of the checks. */
  function Unready(svc: Service): Option<string> {
    if svc.spec.None? then Some(NO_SPEC)
    else if svc.status.None? then Some(NO_STATUS)
    else if svc.name.None? || svc.namespace.None? then None
    else if IngressList(svc.status.value) == [] || svc.spec.value.clusterIp.None? then Some(NO_INGRESS)
    else None
  }

  /** From the checks on the Service to the end. `report` carries the Service found so far. */
  function Program(report: Report, svc: Service, status: Option<GatewayStatus>, gen: int, c: Cluster, t1: int,
                   t2: int): Report {
    var r := report.(service := Some(svc));
    if Unready(svc).Some? then
      r.(written := Some(Patched(WithCondition(status, NotAssigned(Unready(svc).value, gen, t1)))),
         result := Failure(LoadBalancerError))
    else if svc.name.None? || svc.namespace.None? then r.(result := Failure(LoadBalancerError))
    else
      var ip := FirstIp(IngressList(svc.status.value));
      if ip.None? then r.(result := Failure(LoadBalancerError))
      else if !c.endpointsOk then r.(result := Failure(KubeError))
      else
        r.(written := Some(Patched(WithCondition(WithAddresses(status, svc.status.value), Configured(gen, t2)))),
           endpoint := ip, result := Success(()))
  }

  const BLANK := Service(None, None, Some(ServiceSpec(None, None, None, None)), Some(ServiceStatus(None)))

  /** Find or create the Service; the report records the one that was wanted. */
  function Provide(spec: GatewaySpec, c: Cluster): (Report, Outcome<Service>) {
    var quiet := Quiet(Success(()));
    if c.services.None? then (quiet, Failure(KubeError))
    else if |c.services.value| > 1 then (quiet, Failure(LoadBalancerError))
    else
      var found := c.services.value != [];
      var (svc, r) := UpdateService(spec, if found then c.services.value[0] else BLANK);
      if r.Failure? then (quiet, Failure(r.error))
      else if found && r.value && !c.patchOk then (quiet.(desired := Some(svc)), Failure(KubeError))
      else if found then (quiet.(desired := Some(svc)), Success(svc))
      else if c.created.None? then (quiet.(desired := Some(svc)), Failure(KubeError))
      else (quiet.(desired := Some(svc)), Success(c.created.value))
  }

  /** The status once the listener conditions and the Accepted condition are in. */
  function Judged(status: Option<GatewayStatus>, spec: GatewaySpec, gen: int,
                  clock: nat -> int): Option<GatewayStatus> {
    WithCondition(WithListeners(status, spec, gen, clock), Verdict(status, spec, gen, clock))
  }

  function Verdict(status: Option<GatewayStatus>, spec: GatewaySpec, gen: int, clock: nat -> int): Condition {
    AcceptedCondition(WithListeners(status, spec, gen, clock), spec, Some(gen), clock(|spec.listeners|))
  }

  /** `reconcile`. The clock is read once per listener, then for Accepted, then for Programmed. */
  function ReconcileGateway(status: Option<GatewayStatus>, spec: GatewaySpec, gen: Option<int>, c: Cluster,
                            clock: nat -> int): Report {
    if !c.named then Quiet(Failure(InvalidConfigError))
    else if c.ours.None? then Quiet(Failure(KubeError))
    else if !c.ours.value then Quiet(Success(()))
    else if gen.None? then Quiet(Failure(InvalidConfigError))
    else
      var judged, verdict := Judged(status, spec, gen.value, clock), Verdict(status, spec, gen.value, clock);
      if verdict.status == FALSE then
        Report(Some(Patched(WithCondition(judged, Rejected(verdict)))), None, None, None, Failure(InvalidConfigError))
      else
        var (report, svc) := Provide(spec, c);
        if svc.Failure? then report.(result := Failure(svc.error))
        else
          var n := |spec.listeners|;
          Program(report, svc.value, judged, gen.value, c, clock(n + 1), clock(n + 2))
  }

  // ---------------------------------------------------------------------------
  // Fixed point
  // ---------------------------------------------------------------------------

  function Conds(st: GatewayStatus): seq<Condition> {
    if st.conditions.Some? then st.conditions.value else []
  }

  /** A status as a reconciliation writes it: complete, with its listener and Accepted parts settled. */
  ghost predicate Settles(w: GatewayStatus, spec: GatewaySpec, gen: int, accepted: string) {
    && w.addresses.Some? && w.conditions.Some? && w.listeners.Some?
    && (exists current, clock :: w.listeners.value == Statuses(spec.listeners, current, gen, clock))
    && Settled(w.conditions.value, Condition(ACCEPTED, accepted, "", "", Some(gen), 0))
  }

  lemma WithConditionConds(st: GatewayStatus, c: Condition)
    ensures WithCondition(Some(st), c) == Some(st.(conditions := Some(Upsert(Conds(st), c))))
  {
  }

  lemma SettledLike(cs: seq<Condition>, c: Condition, d: Condition)
    requires Settled(cs, c) && c.type_ == d.type_ && c.status == d.status && c.generation == d.generation
    ensures Settled(cs, d)
  {
  }

  /** What is written after the verdict, with a Programmed condition put on top, settles both. */
  lemma WritingSettles(status: GatewayStatus, spec: GatewaySpec, gen: int, clock: nat -> int,
                       addresses: Option<seq<Address>>, p: Condition)
    requires p.type_ == PROGRAMMED
    ensures var judged := Judged(Some(status), spec, gen, clock);
            && judged.Some?
            && var w := Patched(WithCondition(Some(judged.value.(addresses := addresses)), p));
               && Settles(w, spec, gen, Verdict(Some(status), spec, gen, clock).status)
               && Settled(w.conditions.value, p)
               && w.addresses == (if addresses.Some? then addresses else Some([]))
  {
    hide Upsert, Settled, Statuses, AcceptedCondition, ByName;
    ConstantsDiffer();
    var current := ByName(PreviousListeners(Some(status)));
    var st1 := WithListeners(Some(status), spec, gen, clock).value;
    assert st1.listeners.value == Statuses(spec.listeners, current, gen, clock);
    var a := Verdict(Some(status), spec, gen, clock);
    VerdictShape(Some(status), spec, gen, clock);
    WithConditionConds(st1, a);
    var cs := Upsert(Conds(st1), a);
    UpsertSettles(Conds(st1), a);
    UpsertSettles(cs, p);
    UpsertKeepsSettled(cs, a, p);
    SettledLike(Upsert(cs, p), a, Condition(ACCEPTED, a.status, "", "", Some(gen), 0));
    WithConditionConds(st1.(conditions := Some(cs), addresses := addresses), p);
  }

  lemma VerdictShape(status: Option<GatewayStatus>, spec: GatewaySpec, gen: int, clock: nat -> int)
    ensures var a := Verdict(status, spec, gen, clock);
            && a.type_ == ACCEPTED && a.generation == Some(gen) && (a.status == TRUE || a.status == FALSE)
            && (a.status == FALSE <==> !SpecAcceptable(spec, status.Some?))
  {
    hide SpecAcceptable, LastInvalid, ForeignType, Statuses;
    ConstantsDiffer();
    AcceptanceFromSpec(status, spec, gen, clock, clock(|spec.listeners|));
  }

  /** Judging a settled status again changes nothing, at any time. */
  lemma JudgingIsFixed(w: GatewayStatus, spec: GatewaySpec, gen: int, clock: nat -> int, accepted: string)
    requires DistinctNames(spec.listeners) && Settles(w, spec, gen, accepted)
    requires accepted == (if SpecAcceptable(spec, true) then TRUE else FALSE)
    ensures Judged(Some(w), spec, gen, clock) == Some(w)
    ensures Verdict(Some(w), spec, gen, clock).status == accepted
  {
    hide Upsert, Settled, Statuses, AcceptedCondition, ByName, SpecAcceptable, DistinctNames;
    ConstantsDiffer();
    var current, clock0 :| w.listeners.value == Statuses(spec.listeners, current, gen, clock0);
    StatusesAreFixed(spec.listeners, current, gen, clock0, clock);
    assert WithListeners(Some(w), spec, gen, clock) == Some(w);
    VerdictShape(Some(w), spec, gen, clock);
    var a := Verdict(Some(w), spec, gen, clock);
    SettledLike(w.conditions.value, Condition(ACCEPTED, accepted, "", "", Some(gen), 0), a);
    SettledIsFixed(w.conditions.value, a);
  }

  lemma RewritingIsFixed(w: GatewayStatus, p: Condition, p': Condition, spec: GatewaySpec, gen: int, accepted: string)
    requires Settles(w, spec, gen, accepted) && Settled(w.conditions.value, p)
    requires p.type_ == p'.type_ && p.status == p'.status && p.generation == p'.generation
    ensures Patched(WithCondition(Some(w), p')) == w
  {
    hide Upsert, Settled, Statuses;
    SettledLike(w.conditions.value, p, p');
    SettledIsFixed(w.conditions.value, p');
  }

  /** The two Services look alike to every check on the way to Programmed. */
  predicate Alike(a: Service, b: Service) {
    && a.name == b.name && a.namespace == b.namespace && a.status == b.status
    && (a.spec.Some? <==> b.spec.Some?)
    && (a.spec.Some? ==> a.spec.value.clusterIp == b.spec.value.clusterIp)
  }

  lemma JudgedKeepsStatus(status: GatewayStatus, spec: GatewaySpec, gen: int, clock: nat -> int)
    ensures Judged(Some(status), spec, gen, clock).Some?
  {
  }

  lemma ProgrammingIsFixed(report: Report, report': Report, svc: Service, svc': Service, status: GatewayStatus,
                           spec: GatewaySpec,
                           gen: int, c: Cluster, c': Cluster, clock: nat -> int, t1: int, t2: int, t1': int, t2': int)
    requires Alike(svc, svc') && report.written.None? && report'.written.None?
    requires var o := Program(report, svc, Judged(Some(status), spec, gen, clock), gen, c, t1, t2);
             o.written.Some?
    ensures var w := Program(report, svc, Judged(Some(status), spec, gen, clock), gen, c, t1, t2).written.value;
            var o' := Program(report', svc', Some(w), gen, c', t1', t2');
            && Settles(w, spec, gen, Verdict(Some(status), spec, gen, clock).status)
            && (o'.written.None? || o'.written == Some(w))
            && (c'.endpointsOk ==> o'.written == Some(w))
  {
    hide Settles, Settled, Judged, Verdict, Patched, FirstIp, IngressAddresses;
    var a := Verdict(Some(status), spec, gen, clock).status;
    JudgedKeepsStatus(status, spec, gen, clock);
    if Unready(svc).Some? {
      var p := NotAssigned(Unready(svc).value, gen, t1);
      WritingSettles(status, spec, gen, clock, Judged(Some(status), spec, gen, clock).value.addresses, p);
      var w := Patched(WithCondition(Judged(Some(status), spec, gen, clock), p));
      RewritingIsFixed(w, p, NotAssigned(Unready(svc').value, gen, t1'), spec, gen, a);
    } else {
      var addresses := Some(IngressAddresses(IngressList(svc.status.value)));
      WritingSettles(status, spec, gen, clock, addresses, Configured(gen, t2));
      var judged := Judged(Some(status), spec, gen, clock).value;
      var w := Patched(WithCondition(Some(judged.(addresses := addresses)), Configured(gen, t2)));
      assert WithAddresses(Some(w), svc'.status.value) == Some(w);
      RewritingIsFixed(w, Configured(gen, t2), Configured(gen, t2'), spec, gen, a);
    }
  }

  /** Finding the Service again that a run ended with leads on with one that looks alike. */
  lemma ProvideAgain(spec: GatewaySpec, svc: Service, c: Cluster)
    requires c.services == Some([svc]) && SpecAcceptable(spec, true)
    ensures var (report, r) := Provide(spec, c);
            && report.written.None?
            && (r.Success? ==> Alike(svc, r.value))
            && (c.patchOk && svc.spec.Some? ==> r.Success?)
  {
    hide DesiredPorts, ListenerValid;
  }

  predicate Healthy(c: Cluster) {
    c.named && c.ours == Some(true) && c.patchOk && c.endpointsOk
  }

  /**
   * A second run, at any time, on the status the first one wrote and the Service it ended with,
   * never stores a different status; if no API call fails it writes exactly the same one. This
   * covers every branch, and any status present before the first run.
   */
  lemma StatusIsFixedPoint(status: GatewayStatus, spec: GatewaySpec, gen: Option<int>, c: Cluster, c': Cluster,
                           clock: nat -> int, clock': nat -> int)
    requires DistinctNames(spec.listeners)
    requires var o := ReconcileGateway(Some(status), spec, gen, c, clock);
             o.written.Some? && (o.service.Some? ==> c'.services == Some([o.service.value]))
    ensures var o := ReconcileGateway(Some(status), spec, gen, c, clock);
            var o' := ReconcileGateway(o.written, spec, gen, c', clock');
            && (o'.written.None? || o'.written == o.written)
            && (Healthy(c') && (o.service.Some? ==> o.service.value.spec.Some?) ==> o'.written == o.written)
  {
    hide Settles, Settled, Judged, Verdict, Provide, Program, Patched, WithCondition, SpecAcceptable, DistinctNames;
    var g, n := gen.value, |spec.listeners|;
    var o := ReconcileGateway(Some(status), spec, gen, c, clock);
    var w := o.written.value;
    var judged, verdict := Judged(Some(status), spec, g, clock), Verdict(Some(status), spec, g, clock);
    JudgedKeepsStatus(status, spec, g, clock);
    VerdictShape(Some(status), spec, g, clock);
    ConstantsDiffer();
    ProvideIsQuiet(spec, c);
    ProvideIsQuiet(spec, c');
    if verdict.status == FALSE {
      WritingSettles(status, spec, g, clock, judged.value.addresses, Rejected(verdict));
      JudgingIsFixed(w, spec, g, clock', FALSE);
      VerdictShape(Some(w), spec, g, clock');
      RewritingIsFixed(w, Rejected(verdict), Rejected(Verdict(Some(w), spec, g, clock')), spec, g, FALSE);
    } else {
      var (report, svc) := Provide(spec, c);
      var (report', svc') := Provide(spec, c');
      ProgramReports(report, svc.value, judged, g, c, clock(n + 1), clock(n + 2));
      ProvideAgain(spec, svc.value, c');
      var seen := if svc'.Success? then svc'.value else svc.value;
      ProgrammingIsFixed(report, report', svc.value, seen, status, spec, g, c, c', clock,
                         clock(n + 1), clock(n + 2), clock'(n + 1), clock'(n + 2));
      JudgingIsFixed(w, spec, g, clock', TRUE);
    }
  }

  lemma ProvideIsQuiet(spec: GatewaySpec, c: Cluster)
    ensures Provide(spec, c).0.written.None?
  {
  }

  lemma ProgramReports(report: Report, svc: Service, status: Option<GatewayStatus>, gen: int, c: Cluster,
                       t1: int, t2: int)
    ensures Program(report, svc, status, gen, c, t1, t2).service == Some(svc)
    ensures Program(report, svc, status, gen, c, t1, t2).desired == report.desired
  {
  }

  // ---------------------------------------------------------------------------
  // Coherence
  // ---------------------------------------------------------------------------

  lemma {:induction false} FirstIpIsFirstAddress(ingress: seq<Ingress>)
    ensures FirstIp(ingress).Some? <==> IngressAddresses(ingress) != []
    ensures FirstIp(ingress).Some? ==> IngressAddresses(ingress)[0].value == FirstIp(ingress).value
    decreases |ingress|
  {
    if ingress != [] {
      var front, last := ingress[..|ingress| - 1], ingress[|ingress| - 1];
      FirstIpIsFirstAddress(front);
      FirstIpSnoc(front, last);
      assert front + [last] == ingress;
    }
  }

  lemma {:induction false} FirstIpSnoc(front: seq<Ingress>, last: Ingress)
    ensures FirstIp(front + [last]) == if FirstIp(front).Some? then FirstIp(front) else last.ip
  {
    if front == [] {
      assert front + [last] == [last];
    } else {
      FirstIpSnoc(front[1..], last);
      assert (front + [last])[1..] == front[1..] + [last];
    }
  }

  /** The first ingress with an IP is the one selected. */
  lemma {:induction false} FirstIpExactly(ingress: seq<Ingress>, i: nat)
    requires i < |ingress| && ingress[i].ip.Some? && forall j :: 0 <= j < i ==> ingress[j].ip.None?
    ensures FirstIp(ingress) == ingress[i].ip
  {
    if i > 0 {
      FirstIpExactly(ingress[1..], i - 1);
    }
  }

  /** The collected addresses are those of the parts, in order; an ingress without an IP adds none. */
  lemma {:induction false} AddressesInOrder(a: seq<Ingress>, b: seq<Ingress>, g: Ingress)
    ensures IngressAddresses(a + b) == IngressAddresses(a) + IngressAddresses(b)
    ensures IngressAddresses([g]) == if g.ip.Some? then [Address(Some("IPAddress"), g.ip.value)] else []
    decreases |b|
  {
    assert [g][..0] == [];
    if b == [] {
      assert a + b == a;
    } else {
      AddressesInOrder(a, b[..|b| - 1], g);
      assert (a + b)[..|a + b| - 1] == a + b[..|b| - 1];
    }
  }

  /** Every condition of this type has this status, and there is one. */
  ghost predicate Shows(cs: seq<Condition>, type_: string, status: string) {
    && HasType(cs, type_)
    && forall i :: 0 <= i < |cs| && cs[i].type_ == type_ ==> cs[i].status == status
  }

  lemma SettledShows(cs: seq<Condition>, c: Condition)
    requires DistinctTypes(cs) && Settled(cs, c)
    ensures Shows(cs, c.type_, c.status)
  {
    UpsertAt(cs, c);
    assert cs[Position(cs, c.type_)].type_ == c.type_;
    forall i | 0 <= i < |cs| && cs[i].type_ == c.type_
      ensures cs[i].status == c.status
    {
      SettledIsOnly(cs, c, i);
    }
  }

  lemma WrittenShows(status: GatewayStatus, spec: GatewaySpec, gen: int, clock: nat -> int,
                     addresses: Option<seq<Address>>, p: Condition)
    requires p.type_ == PROGRAMMED && DistinctTypes(Conds(status))
    ensures var judged := Judged(Some(status), spec, gen, clock);
            && judged.Some?
            && var w := Patched(WithCondition(Some(judged.value.(addresses := addresses)), p));
               && w.conditions.Some? && w.listeners.Some?
               && Shows(w.conditions.value, ACCEPTED, Verdict(Some(status), spec, gen, clock).status)
               && Shows(w.conditions.value, PROGRAMMED, p.status)
               && w.listeners == WithListeners(Some(status), spec, gen, clock).value.listeners
               && w.addresses == (if addresses.Some? then addresses else Some([]))
  {
    hide Upsert, Settled, Statuses, Verdict, Shows, DistinctTypes;
    WritingSettles(status, spec, gen, clock, addresses, p);
    var st1 := WithListeners(Some(status), spec, gen, clock).value;
    var a := Verdict(Some(status), spec, gen, clock);
    WithConditionConds(st1, a);
    UpsertKeepsDistinct(Conds(st1), a);
    UpsertKeepsDistinct(Upsert(Conds(st1), a), p);
    WithConditionConds(st1.(conditions := Some(Upsert(Conds(st1), a)), addresses := addresses), p);
    var cs := Upsert(Upsert(Conds(st1), a), p);
    SettledShows(cs, Condition(ACCEPTED, a.status, "", "", Some(gen), 0));
    SettledShows(cs, p);
  }

  /** Accepted means that no written listener condition is False. */
  lemma AcceptedListenersHold(status: GatewayStatus, spec: GatewaySpec, gen: int, clock: nat -> int)
    requires Verdict(Some(status), spec, gen, clock).status == TRUE
    ensures var ls := WithListeners(Some(status), spec, gen, clock).value.listeners.value;
            forall i :: 0 <= i < |ls| ==> !AnyFalse(ls[i].conditions)
  {
    hide AnyFalse, Statuses;
    ConstantsDiffer();
    LastInvalidIff(WithListeners(Some(status), spec, gen, clock).value.listeners.value);
  }

  /** The Service wanted has exactly one matching port per listener, in order. */
  ghost predicate ServesAll(svc: Option<Service>, ls: seq<Listener>) {
    && svc.Some? && svc.value.spec.Some? && svc.value.spec.value.ports.Some?
    && var ports := svc.value.spec.value.ports.value;
       && |ports| == |ls|
       && forall i :: 0 <= i < |ls| ==>
            && ports[i].name == Some(ls[i].name) && ports[i].port == ls[i].port
            && ports[i].protocol == Some(if ls[i].protocol == "UDP" then "UDP" else "TCP")
  }

  lemma ProvidedServesAll(spec: GatewaySpec, c: Cluster)
    requires SpecAcceptable(spec, true)
    ensures var (report, r) := Provide(spec, c);
            && (r.Success? ==> ServesAll(report.desired, spec.listeners))
            && r != Failure(InvalidConfigError)
  {
    hide UpdateService, SpecAcceptable, TransportOf;
    if c.services.Some? && |c.services.value| <= 1 {
      var svc := if c.services.value != [] then c.services.value[0] else BLANK;
      Converges(spec, svc);
      AcceptableAddress(spec, true);
      if svc.spec.Some? {
        AcceptedGatewaySyncs(spec, svc);
      }
    }
  }

  /** One status per listener, in order, with the conditions and route kinds it deserves. */
  ghost predicate ShowsListeners(ls: seq<ListenerStatus>, spec: GatewaySpec, gen: int) {
    && |ls| == |spec.listeners|
    && forall i :: 0 <= i < |ls| ==>
         && ls[i].name == spec.listeners[i].name
         && ls[i].supportedKinds == SupportedKinds(spec.listeners[i])
         && ShowsVerdicts(ls[i].conditions, spec.listeners[i], gen)
  }

  ghost predicate ShowsVerdicts(cs: seq<Condition>, l: Listener, gen: int) {
    && Shows(cs, "ResolvedRefs", if RefsResolved(l) then "True" else "False")
    && Shows(cs, "Accepted", if ListenerValid(l) then "True" else "False")
    && Shows(cs, "Programmed", if ListenerValid(l) then "True" else "False")
    && forall i :: 0 <= i < |cs| ==>
         cs[i].type_ in {"ResolvedRefs", "Accepted", "Programmed"} && cs[i].generation == Some(gen)
  }

  lemma VerdictsShown(l: Listener, current: map<string, ListenerStatus>, gen: int, now: int)
    ensures ShowsVerdicts(StatusOf(l, current, gen, now).conditions, l, gen)
  {
    hide StatusOf, RefsResolved, ListenerValid, Explained;
    ConstantsDiffer();
    WrittenConditions(l, current, gen, now);
    var cs := StatusOf(l, current, gen, now).conditions;
  }

  lemma ListenersShown(status: GatewayStatus, spec: GatewaySpec, gen: int, clock: nat -> int)
    ensures ShowsListeners(WithListeners(Some(status), spec, gen, clock).value.listeners.value, spec, gen)
  {
    hide ShowsVerdicts, ListenerConditions, FinalConditions, SupportedKinds;
    var current := ByName(PreviousListeners(Some(status)));
    forall i | 0 <= i < |spec.listeners|
      ensures ShowsVerdicts(StatusOf(spec.listeners[i], current, gen, clock(i)).conditions, spec.listeners[i], gen)
    {
      VerdictsShown(spec.listeners[i], current, gen, clock(i));
    }
  }

  lemma AcceptableAddress(spec: GatewaySpec, withListeners: bool)
    requires SpecAcceptable(spec, withListeners)
    ensures !AddressRefused(spec)
  {
    hide ListenerValid;
  }

  /**
   * Every status written from a present one with distinct condition types shows exactly one
   * verdict per type, and for every listener the verdicts it deserves. It shows Programmed True
   * exactly when the run succeeded, and then: Accepted is True, no listener condition is False, the
   * first address is the one selected for the Endpoints object, and the Service wanted has one port
   * per listener, in order.
   */
  lemma WrittenFromPresent(status: GatewayStatus, spec: GatewaySpec, gen: Option<int>, c: Cluster, clock: nat -> int)
    requires DistinctTypes(Conds(status))
    requires ReconcileGateway(Some(status), spec, gen, c, clock).written.Some?
    ensures var o := ReconcileGateway(Some(status), spec, gen, c, clock);
            var w := o.written.value;
            && w.addresses.Some? && w.conditions.Some? && w.listeners.Some?
            && Shows(w.conditions.value, PROGRAMMED, if o.result.Success? then TRUE else FALSE)
            && Shows(w.conditions.value, ACCEPTED, if SpecAcceptable(spec, true) then TRUE else FALSE)
            && gen.Some? && ShowsListeners(w.listeners.value, spec, gen.value)
            && (o.result.Success? ==>
                  && SpecAcceptable(spec, true)
                  && (forall i :: 0 <= i < |w.listeners.value| ==> !AnyFalse(w.listeners.value[i].conditions))
                  && o.endpoint.Some? && w.addresses.value != []
                  && w.addresses.value[0].value == o.endpoint.value
                  && ServesAll(o.desired, spec.listeners))
            && (o.result == Failure(InvalidConfigError) <==> !SpecAcceptable(spec, true))
  {
    hide Settled, Judged, Verdict, Provide, Patched, WithCondition, WithListeners, SpecAcceptable, Shows, AnyFalse,
         ShowsListeners, ServesAll, FirstIp, IngressAddresses, DistinctTypes;
    var g, n := gen.value, |spec.listeners|;
    var judged, verdict := Judged(Some(status), spec, g, clock), Verdict(Some(status), spec, g, clock);
    JudgedKeepsStatus(status, spec, g, clock);
    VerdictShape(Some(status), spec, g, clock);
    ConstantsDiffer();
    ListenersShown(status, spec, g, clock);
    if verdict.status == FALSE {
      WrittenShows(status, spec, g, clock, judged.value.addresses, Rejected(verdict));
    } else {
      AcceptedListenersHold(status, spec, g, clock);
      ProvideIsQuiet(spec, c);
      ProvidedServesAll(spec, c);
      var (report, r) := Provide(spec, c);
      var svc := r.value;
      if Unready(svc).Some? {
        WrittenShows(status, spec, g, clock, judged.value.addresses, NotAssigned(Unready(svc).value, g, clock(n + 1)));
      } else {
        var ingress := IngressList(svc.status.value);
        FirstIpIsFirstAddress(ingress);
        WrittenShows(status, spec, g, clock, Some(IngressAddresses(ingress)), Configured(g, clock(n + 2)));
      }
    }
  }

  /** The Service has a name, a cluster IP and an ingress IP. */
  predicate Ready(svc: Service) {
    && svc.name.Some? && svc.namespace.Some?
    && svc.spec.Some? && svc.spec.value.clusterIp.Some?
    && svc.status.Some?
    && var ingress := IngressList(svc.status.value); exists i :: 0 <= i < |ingress| && ingress[i].ip.Some?
  }

  lemma {:induction false} FirstIpIff(ingress: seq<Ingress>)
    ensures FirstIp(ingress).Some? <==> exists i :: 0 <= i < |ingress| && ingress[i].ip.Some?
  {
    if ingress != [] {
      FirstIpIff(ingress[1..]);
      assert forall i :: 0 < i < |ingress| ==> ingress[1..][i - 1] == ingress[i];
    }
  }

  /** The Service a run goes on with: the one found, its drift patched if need be, or the one created. */
  function Obtained(spec: GatewaySpec, c: Cluster): Option<Service> {
    if c.services.None? || |c.services.value| > 1 then None
    else if c.services.value == [] then c.created
    else
      var svc := c.services.value[0];
      if svc.spec.Some? && (Sync(spec, svc.spec.value).1 ==> c.patchOk) then Some(svc) else None
  }

  /** There is more than one Service, or one without a spec. */
  predicate Unusable(c: Cluster) {
    c.services.Some? && (|c.services.value| > 1 || (|c.services.value| == 1 && c.services.value[0].spec.None?))
  }

  /** The run reports that the address is not assigned yet. */
  predicate Waiting(svc: Service) {
    || svc.spec.None? || svc.status.None?
    || (svc.name.Some? && svc.namespace.Some?
        && (IngressList(svc.status.value) == [] || svc.spec.value.clusterIp.None?))
  }

  lemma ProvidedExactly(spec: GatewaySpec, c: Cluster, withListeners: bool)
    requires SpecAcceptable(spec, withListeners)
    ensures var (report, r) := Provide(spec, c);
            && report.written.None?
            && (r.Success? <==> Obtained(spec, c).Some?)
            && (r.Success? ==> Alike(Obtained(spec, c).value, r.value))
            && (r.Failure? ==> r.error == if Unusable(c) then LoadBalancerError else KubeError)
  {
    hide SpecAcceptable, Sync, AddressRefused;
    AcceptableAddress(spec, withListeners);
    if c.services.Some? && |c.services.value| == 1 && c.services.value[0].spec.Some? {
      SyncKeepsClusterIp(spec, c.services.value[0].spec.value);
    }
  }

  /** A Service that has to be created is asked for with the listeners' ports, but never with the wanted address. */
  lemma CreatedService(spec: GatewaySpec, c: Cluster, withListeners: bool)
    requires SpecAcceptable(spec, withListeners) && c.services == Some([])
    ensures var (report, r) := Provide(spec, c);
            && report.desired ==
               Some(Service(None, None, Some(ServiceSpec(Some("LoadBalancer"), None, None,
                                                         Some(DesiredPorts(spec.listeners)))),
                            Some(ServiceStatus(None))))
            && r == if c.created.Some? then Success(c.created.value) else Failure(KubeError)
  {
    hide SpecAcceptable, AddressRefused, DesiredPorts;
    AcceptableAddress(spec, withListeners);
  }

  lemma ProgramExactly(report: Report, svc: Service, svc': Service, status: Option<GatewayStatus>, gen: int, c: Cluster,
                       t1: int, t2: int)
    requires report.written.None? && Alike(svc, svc')
    ensures var o := Program(report, svc', status, gen, c, t1, t2);
            && (o.result.Success? <==> Ready(svc) && c.endpointsOk)
            && (o.result.Failure? ==> o.result.error == if Ready(svc) then KubeError else LoadBalancerError)
            && (o.written.Some? <==> Waiting(svc) || o.result.Success?)
  {
    hide WithCondition, Patched, FirstIp;
    if svc.status.Some? {
      FirstIpIff(IngressList(svc.status.value));
    }
  }

  /**
   * The result of a run, from any status, present or absent, and for every answer of the cluster:
   * exactly when it succeeds, when the configuration is invalid, when an API call has failed, and
   * (the remaining cases) when the Service is not in order. A run that succeeds on a Gateway of
   * another class does nothing.
   */
  lemma OutcomeExactly(status: Option<GatewayStatus>, spec: GatewaySpec, gen: Option<int>, c: Cluster,
                       clock: nat -> int)
    ensures var r := ReconcileGateway(status, spec, gen, c, clock).result;
            var ours := c.named && c.ours == Some(true);
            var acceptable := SpecAcceptable(spec, status.Some?);
            var svc := Obtained(spec, c);
            var ready := svc.Some? && Ready(svc.value);
            && (r.Success? <==>
                  || (c.named && c.ours == Some(false))
                  || (ours && gen.Some? && acceptable && ready && c.endpointsOk))
            && (r == Failure(InvalidConfigError) <==> !c.named || (ours && (gen.None? || !acceptable)))
            && (r == Failure(KubeError) <==>
                  || (c.named && c.ours.None?)
                  || (ours && gen.Some? && acceptable
                      && ((svc.None? && !Unusable(c)) || (ready && !c.endpointsOk))))
  {
    hide Judged, Verdict, Patched, WithCondition, SpecAcceptable, Provide, Program, Obtained, Ready, Unusable, Alike;
    ConstantsDiffer();
    if c.named && c.ours == Some(true) && gen.Some? {
      VerdictShape(status, spec, gen.value, clock);
      if SpecAcceptable(spec, status.Some?) {
        RunExactly(status, spec, gen.value, c, clock);
      }
    }
  }

  lemma RunExactly(status: Option<GatewayStatus>, spec: GatewaySpec, gen: int, c: Cluster, clock: nat -> int)
    requires c.named && c.ours == Some(true) && SpecAcceptable(spec, status.Some?)
    ensures var o := ReconcileGateway(status, spec, Some(gen), c, clock);
            var svc := Obtained(spec, c);
            && (o.result.Success? <==> svc.Some? && Ready(svc.value) && c.endpointsOk)
            && (o.result.Failure? ==>
                  o.result.error ==
                  if svc.None? then (if Unusable(c) then LoadBalancerError else KubeError)
                  else if Ready(svc.value) then KubeError else LoadBalancerError)
            && (o.written.Some? <==> o.result.Success? || (svc.Some? && Waiting(svc.value)))
  {
    hide Judged, Verdict, Patched, WithCondition, SpecAcceptable, Provide, Program, Obtained, Ready, Unusable, Alike,
         Waiting;
    VerdictShape(status, spec, gen, clock);
    ProvidedExactly(spec, c, status.Some?);
    var (report, r) := Provide(spec, c);
    if r.Success? {
      var n := |spec.listeners|;
      ProgramExactly(report, Obtained(spec, c).value, r.value, Judged(status, spec, gen, clock), gen, c,
                     clock(n + 1), clock(n + 2));
    }
  }

  /**
   * From any status, present or absent: a status is written exactly when the Gateway is named, of
   * our class and has a generation, and either it is rejected, or its Service, found or created, is
   * waiting for an address, or is ready and every call succeeds. In the last case, and only then,
   * the Gateway is programmed.
   */
  lemma ProgramsIff(status: Option<GatewayStatus>, spec: GatewaySpec, gen: Option<int>, c: Cluster, clock: nat -> int)
    ensures var o := ReconcileGateway(status, spec, gen, c, clock);
            var asked := c.named && c.ours == Some(true) && gen.Some?;
            var acceptable := SpecAcceptable(spec, status.Some?);
            var svc := Obtained(spec, c);
            var programs := asked && acceptable && svc.Some? && Ready(svc.value) && c.endpointsOk;
            && (o.written.Some? && o.result.Success? <==> programs)
            && (o.written.Some? <==>
                  (asked && !acceptable) || (asked && acceptable && svc.Some? && Waiting(svc.value)) || programs)
            && (asked ==> (o.result == Failure(InvalidConfigError) <==> !acceptable))
  {
    hide Judged, Verdict, Patched, WithCondition, SpecAcceptable, Provide, Program, Obtained, Ready, Waiting;
    ConstantsDiffer();
    if c.named && c.ours == Some(true) && gen.Some? {
      VerdictShape(status, spec, gen.value, clock);
      if SpecAcceptable(spec, status.Some?) {
        RunExactly(status, spec, gen.value, c, clock);
      }
    }
  }

  // ---------------------------------------------------------------------------
  // The Programmed condition
  // ---------------------------------------------------------------------------

  /** The condition the run wants to set: why it is rejected, what it waits for, or that it is done. */
  function Wanted(status: GatewayStatus, spec: GatewaySpec, gen: int, c: Cluster, clock: nat -> int): Condition {
    var n, svc := |spec.listeners|, Obtained(spec, c);
    if !SpecAcceptable(spec, true) then
      Condition("Programmed", "False", "Programmed", Verdict(Some(status), spec, gen, clock).message,
                Some(gen), clock(n))
    else if svc.Some? && Waiting(svc.value) then
      Condition("Programmed", "False", "AddressNotAssigned",
                if svc.value.spec.None? then
                  "error reconciling loadbalancer service: `Loadbalancer service spec not found`"
                else if svc.value.status.None? then
                  "error reconciling loadbalancer service: `Loadbalancer service status not found`"
                else "LoadBalancer does not have a ingress IP address",
                Some(gen), clock(n + 1))
    else Condition("Programmed", "True", "Programmed", "Dataplane configured for gateway", Some(gen), clock(n + 2))
  }

  lemma UpsertOverwrites(cs: seq<Condition>, c: Condition)
    requires forall i :: 0 <= i < |cs| && cs[i].type_ == c.type_ ==> cs[i].status != c.status
    ensures c in Upsert(cs, c)
  {
    UpsertAt(cs, c);
    var p := Position(cs, c.type_);
    assert Upsert(cs, c)[p] == c;
  }

  lemma UpsertSparesOthers(cs: seq<Condition>, c: Condition, i: nat)
    requires i < |Upsert(cs, c)| && Upsert(cs, c)[i].type_ != c.type_
    ensures Upsert(cs, c)[i] in cs
  {
    UpsertAt(cs, c);
    assert i < |cs| && Upsert(cs, c)[i] == cs[i];
  }

  lemma WantedIsStored(status: GatewayStatus, spec: GatewaySpec, gen: int, clock: nat -> int,
                       addresses: Option<seq<Address>>, p: Condition)
    requires p.type_ == PROGRAMMED
    requires forall i :: 0 <= i < |Conds(status)| && Conds(status)[i].type_ == PROGRAMMED ==>
               Conds(status)[i].status != p.status
    ensures var judged := Judged(Some(status), spec, gen, clock);
            && judged.Some?
            && var w := Patched(WithCondition(Some(judged.value.(addresses := addresses)), p));
               w.conditions.Some? && p in w.conditions.value
  {
    hide Upsert, Statuses, AcceptedCondition, ByName;
    ConstantsDiffer();
    var st1 := WithListeners(Some(status), spec, gen, clock).value;
    var a := Verdict(Some(status), spec, gen, clock);
    VerdictShape(Some(status), spec, gen, clock);
    WithConditionConds(st1, a);
    var cs := Upsert(Conds(st1), a);
    forall i | 0 <= i < |cs| && cs[i].type_ == PROGRAMMED
      ensures cs[i].status != p.status
    {
      UpsertSparesOthers(Conds(st1), a, i);
      var j :| 0 <= j < |Conds(status)| && Conds(status)[j] == cs[i];
    }
    UpsertOverwrites(cs, p);
    WithConditionConds(st1.(conditions := Some(cs), addresses := addresses), p);
  }

  /**
   * Whenever the Programmed condition changes, the written status holds the new one in full: its
   * status, reason, message, generation and time.
   */
  lemma ProgrammedIsExplained(status: GatewayStatus, spec: GatewaySpec, gen: int, c: Cluster, clock: nat -> int)
    requires var p := Wanted(status, spec, gen, c, clock);
             forall i :: 0 <= i < |Conds(status)| && Conds(status)[i].type_ == p.type_ ==>
               Conds(status)[i].status != p.status
    requires ReconcileGateway(Some(status), spec, Some(gen), c, clock).written.Some?
    ensures var w := ReconcileGateway(Some(status), spec, Some(gen), c, clock).written.value;
            w.conditions.Some? && Wanted(status, spec, gen, c, clock) in w.conditions.value
  {
    hide Judged, Provide, Patched, WithCondition, SpecAcceptable, Obtained, FirstIp, IngressAddresses, Verdict;
    var n := |spec.listeners|;
    var judged, verdict := Judged(Some(status), spec, gen, clock), Verdict(Some(status), spec, gen, clock);
    JudgedKeepsStatus(status, spec, gen, clock);
    VerdictShape(Some(status), spec, gen, clock);
    VerdictTime(Some(status), spec, gen, clock);
    ConstantsDiffer();
    var p := Wanted(status, spec, gen, c, clock);
    if verdict.status == FALSE {
      assert p == Rejected(verdict);
      WantedIsStored(status, spec, gen, clock, judged.value.addresses, p);
    } else {
      ProvidedExactly(spec, c, true);
      var svc := Provide(spec, c).1.value;
      if Unready(svc).Some? {
        assert p == NotAssigned(Unready(svc).value, gen, clock(n + 1));
        WantedIsStored(status, spec, gen, clock, judged.value.addresses, p);
      } else {
        assert p == Configured(gen, clock(n + 2));
        WantedIsStored(status, spec, gen, clock, Some(IngressAddresses(IngressList(svc.status.value))), p);
      }
    }
  }

  lemma VerdictTime(status: Option<GatewayStatus>, spec: GatewaySpec, gen: int, clock: nat -> int)
    ensures Verdict(status, spec, gen, clock).time == clock(|spec.listeners|)
  {
    hide Statuses, ForeignType, LastInvalid;
  }

  lemma SyncKeepsClusterIp(spec: GatewaySpec, s: ServiceSpec)
    ensures Sync(spec, s).0.clusterIp == s.clusterIp
  {
  }

  // ---------------------------------------------------------------------------
  // From an absent status
  // ---------------------------------------------------------------------------

  /**
   * From an absent status a successful run writes Programmed True and the addresses, but neither
   * Accepted nor any listener, and it succeeds whether or not the listeners are valid. A run that
   * fails and writes, writes empty lists.
   */
  lemma WrittenFromAbsent(spec: GatewaySpec, gen: Option<int>, c: Cluster, clock: nat -> int)
    requires ReconcileGateway(None, spec, gen, c, clock).written.Some?
    ensures var o := ReconcileGateway(None, spec, gen, c, clock);
            var w := o.written.value;
            && w.listeners == Some([]) && w.conditions.Some? && w.addresses.Some?
            && !HasType(w.conditions.value, ACCEPTED) && DistinctTypes(w.conditions.value)
            && if o.result.Success? then
                 && |w.conditions.value| == 1 && w.conditions.value[0].generation == gen
                 && Shows(w.conditions.value, PROGRAMMED, TRUE)
                 && o.endpoint.Some? && w.addresses.value != []
                 && w.addresses.value[0].value == o.endpoint.value
               else w.conditions == Some([]) && w.addresses == Some([])
  {
    hide Verdict, Provide, Upsert, FirstIp, IngressAddresses;
    ConstantsDiffer();
    ProvideIsQuiet(spec, c);
    var o := ReconcileGateway(None, spec, gen, c, clock);
    if o.result.Success? {
      var (report, r) := Provide(spec, c);
      FirstIpIsFirstAddress(IngressList(r.value.status.value));
      assert o.written.value.conditions.value[0].type_ == PROGRAMMED;
    }
  }

  /**
   * Whether or not there was a status: what a successful run writes shows Programmed True, no False
   * listener condition, and first the address selected for the Endpoints object; what a failing run
   * writes never shows Programmed True. Accepted is shown, exactly as the specification deserves,
   * if and only if there was a status, and the configuration is called invalid accordingly.
   */
  lemma WrittenStatusIsCoherent(status: Option<GatewayStatus>, spec: GatewaySpec, gen: Option<int>, c: Cluster,
                                clock: nat -> int)
    requires status.Some? ==> DistinctTypes(Conds(status.value))
    requires ReconcileGateway(status, spec, gen, c, clock).written.Some?
    ensures var o := ReconcileGateway(status, spec, gen, c, clock);
            var w := o.written.value;
            var acceptable := SpecAcceptable(spec, status.Some?);
            && w.addresses.Some? && w.conditions.Some? && w.listeners.Some?
            && (Shows(w.conditions.value, PROGRAMMED, TRUE) <==> o.result.Success?)
            && (if status.Some? then Shows(w.conditions.value, ACCEPTED, if acceptable then TRUE else FALSE)
                else !HasType(w.conditions.value, ACCEPTED) && w.listeners.value == [])
            && (o.result == Failure(InvalidConfigError) <==> !acceptable)
            && (o.result.Success? ==>
                  && acceptable
                  && (forall i :: 0 <= i < |w.listeners.value| ==> !AnyFalse(w.listeners.value[i].conditions))
                  && o.endpoint.Some? && w.addresses.value != []
                  && w.addresses.value[0].value == o.endpoint.value
                  && (status.Some? ==> ServesAll(o.desired, spec.listeners)))
  {
    hide ReconcileGateway, SpecAcceptable, AnyFalse, ServesAll, DistinctTypes;
    ConstantsDiffer();
    ProgramsIff(status, spec, gen, c, clock);
    match status
    case Some(st) => WrittenFromPresent(st, spec, gen, c, clock);
    case None => WrittenFromAbsent(spec, gen, c, clock);
  }

  /**
   * The status becomes a fixed point one run later: what a second run writes differs from what the
   * first wrote from an absent status, shows the verdict on the listeners, and is stored unchanged
   * by every later run.
   */
  lemma FixedFromSecondRun(spec: GatewaySpec, gen: Option<int>, c0: Cluster, c1: Cluster, c2: Cluster,
                           clock0: nat -> int, clock1: nat -> int, clock2: nat -> int)
    requires DistinctNames(spec.listeners)
    requires var o0 := ReconcileGateway(None, spec, gen, c0, clock0);
             var o1 := ReconcileGateway(o0.written, spec, gen, c1, clock1);
             && o0.written.Some? && o1.written.Some?
             && (o1.service.Some? ==> c2.services == Some([o1.service.value]))
    ensures var o0 := ReconcileGateway(None, spec, gen, c0, clock0);
            var o1 := ReconcileGateway(o0.written, spec, gen, c1, clock1);
            var o2 := ReconcileGateway(o1.written, spec, gen, c2, clock2);
            && o1.written != o0.written && o1.written.value.conditions.Some?
            && Shows(o1.written.value.conditions.value, ACCEPTED, if SpecAcceptable(spec, true) then TRUE else FALSE)
            && (o2.written.None? || o2.written == o1.written)
            && (Healthy(c2) && (o1.service.Some? ==> o1.service.value.spec.Some?) ==> o2.written == o1.written)
  {
    hide ReconcileGateway, SpecAcceptable, DistinctNames, DistinctTypes, HasType;
    WrittenFromAbsent(spec, gen, c0, clock0);
    var w := ReconcileGateway(None, spec, gen, c0, clock0).written.value;
    WrittenFromPresent(w, spec, gen, c1, clock1);
    StatusIsFixedPoint(w, spec, gen, c1, c2, clock1, clock2);
  }

  const SCTP_ONLY := GatewaySpec([Listener("signalling", 36412, "SCTP", None)], None)

  const READY_SERVICE :=
    Service(Some("gw"), Some("default"), Some(ServiceSpec(None, None, Some("10.0.0.1"), None)),
            Some(ServiceStatus(Some(LoadBalancerStatus(Some([Ingress(Some("1.2.3.4"))]))))))

  const ANSWERS := Cluster(true, Some(true), Some([]), true, Some(READY_SERVICE), true)

  /** A first run programs a Gateway whose listener every run on a present status rejects. */
  lemma InvalidListenerProgrammed(status: GatewayStatus, gen: int, clock: nat -> int)
    ensures ReconcileGateway(None, SCTP_ONLY, Some(gen), ANSWERS, clock).result.Success?
    ensures ReconcileGateway(Some(status), SCTP_ONLY, Some(gen), ANSWERS, clock).result == Failure(InvalidConfigError)
  {
    ProgramsIff(None, SCTP_ONLY, Some(gen), ANSWERS, clock);
    ProgramsIff(Some(status), SCTP_ONLY, Some(gen), ANSWERS, clock);
    hide ReconcileGateway;
    SctpIsInvalid();
    assert IngressList(READY_SERVICE.status.value)[0].ip.Some?;
  }

  lemma SctpIsInvalid()
    ensures SpecAcceptable(SCTP_ONLY, false) && !SpecAcceptable(SCTP_ONLY, true)
  {
    var l := SCTP_ONLY.listeners[0];
    assert l.protocol[0] == 'S';
    assert !ListenerValid(l);
  }
}
