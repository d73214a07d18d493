/** What holds in every reachable state of the atomic machine, and what it buys the RPCs. */
module Invariant {
  import opened Wire
  import opened Types
  import opened Tracker
  import opened Machine

  predicate MapsAligned(s: State) {
    && s.backends.Keys == s.indexes.Keys
    && |s.backends| <= CAPACITY && |s.conns| <= CAPACITY
  }

  /** Every index points into its list, except that an empty list has index zero. */
  predicate IndexesInRange(s: State) {
    forall k :: k in s.backends && k in s.indexes ==>
      && s.backends[k].backendsLen <= CAPACITY
      && (s.indexes[k] < s.backends[k].backendsLen || s.indexes[k] == s.backends[k].backendsLen == 0)
  }

  /** A tracked connection belongs to a configured VIP, is not closed, and is TCP unless its port is 0. */
  predicate MappingOk(s: State, c: ClientKey, m: Mapping) {
    && m.key in s.backends
    && m.tcpState != Some(Closed)
    && (m.tcpState.None? ==> c.port == 0)
  }

  predicate ConnsOk(s: State) {
    forall c :: c in s.conns ==> MappingOk(s, c, s.conns[c])
  }

  predicate Inv(s: State) {
    MapsAligned(s) && IndexesInRange(s) && ConnsOk(s)
  }

  lemma {:induction false} SubsetSize<K>(a: set<K>, b: set<K>)
    requires a <= b
    ensures |a| <= |b|
  {
    if a != {} {
      var x :| x in a;
      SubsetSize(a - {x}, b - {x});
    }
  }

  lemma RemovalShrinks<K, V>(m: map<K, V>, m': map<K, V>)
    requires m'.Keys <= m.Keys
    ensures |m'| <= |m|
  {
    SubsetSize(m'.Keys, m.Keys);
    assert |m'| == |m'.Keys| && |m| == |m.Keys|;
  }

  lemma InsertKeepsBound<K, V>(m: map<K, V>, k: K, v: V)
    requires |m| <= CAPACITY && CanInsert(m, k)
    ensures |m[k := v]| <= CAPACITY
  {
    assert m[k := v].Keys == m.Keys + {k};
    assert |m| == |m.Keys| && |m[k := v]| == |m[k := v].Keys|;
  }

  /** All a TCP packet can do to LB_CONNECTIONS: nothing, drop its client, or store `m` for it. */
  ghost predicate ConnChange(conns: map<ClientKey, Mapping>, conns': map<ClientKey, Mapping>, c: ClientKey,
                             m: Mapping) {
    || conns' == conns
    || conns' == conns - {c}
    || (conns' == conns[c := m] && CanInsert(conns, c) && m.tcpState.Some? && m.tcpState != Some(Closed))
  }

  /** What a tracker outcome owes to the mapping it started from. */
  ghost predicate OutcomeOf(conns: map<ClientKey, Mapping>, c: ClientKey, m: Mapping, r: ConnStep) {
    && ConnChange(conns, r.conns, c, r.mapping)
    && r.mapping.backend == m.backend && r.mapping.key == m.key
    && (r.mapping.tcpState.None? <==> m.tcpState.None?)
    && (m.tcpState == Some(Established) ==> r.mapping.tcpState != Some(Closed))
  }

  lemma UpdateConnsShape(conns: map<ClientKey, Mapping>, c: ClientKey, m: Mapping, fl: TcpFlags)
    ensures OutcomeOf(conns, c, m, UpdateConns(conns, c, m, fl))
  {
  }

  lemma RstAndUpdateShape(conns: map<ClientKey, Mapping>, c: ClientKey, m: Mapping, fl: TcpFlags)
    ensures OutcomeOf(conns, c, m, RstAndUpdate(conns, c, m, fl))
  {
    hide UpdateConns, Next;
    if fl.rst && c in conns {
      var r := UpdateConns(conns - {c}, c, m, fl);
      UpdateConnsShape(conns - {c}, c, m, fl);
      assert (conns - {c}) - {c} == conns - {c};
      assert (conns - {c})[c := r.mapping] == conns[c := r.mapping];
    } else if !fl.rst {
      UpdateConnsShape(conns, c, m, fl);
    }
  }

  lemma ConnChangeKeepsInv(s: State, conns': map<ClientKey, Mapping>, c: ClientKey, m: Mapping)
    requires Inv(s) && ConnChange(s.conns, conns', c, m)
    requires conns' == s.conns[c := m] ==> MappingOk(s, c, m)
    ensures Inv(s.(conns := conns'))
  {
    if conns' == s.conns[c := m] && CanInsert(s.conns, c) {
      InsertKeepsBound(s.conns, c, m);
    } else if conns' == s.conns - {c} {
      RemovalShrinks(s.conns, conns');
    }
  }

  lemma AdvanceKeepsInv(s: State, vip: BackendKey)
    requires Inv(s) && Selectable(s, vip)
    ensures Inv(Advance(s, vip))
  {
  }

  lemma TrackedKeepsInv(s: State, c: ClientKey, fl: TcpFlags)
    requires Inv(s) && c in s.conns
    ensures Inv(s.(conns := RstAndUpdate(s.conns, c, s.conns[c], fl).conns))
  {
    hide RstAndUpdate;
    RstAndUpdateShape(s.conns, c, s.conns[c], fl);
    var r := RstAndUpdate(s.conns, c, s.conns[c], fl);
    ConnChangeKeepsInv(s, r.conns, c, r.mapping);
  }

  lemma TcpInKeepsInv(s: State, c: ClientKey, vip: BackendKey, fl: TcpFlags, rewritten: bool)
    requires Inv(s)
    ensures Inv(TcpInStep(s, c, vip, fl, rewritten))
  {
    hide RstAndUpdate;
    if c in s.conns {
      TrackedKeepsInv(s, c, fl);
    } else if Selectable(s, vip) {
      var m := NewMapping(s, vip);
      var r := RstAndUpdate(s.conns, c, m, fl);
      RstAndUpdateShape(s.conns, c, m, fl);
      assert MappingOk(s, c, r.mapping);
      ConnChangeKeepsInv(s, r.conns, c, r.mapping);
      var s1 := s.(conns := r.conns);
      if r.ok && rewritten && CanInsert(r.conns, c) {
        ConnChangeKeepsInv(s1, r.conns[c := r.mapping], c, r.mapping);
        AdvanceKeepsInv(s1.(conns := r.conns[c := r.mapping]), vip);
      } else {
        AdvanceKeepsInv(s1, vip);
      }
    }
  }

  lemma UdpInKeepsInv(s: State, ip: u32, vip: BackendKey, rewritten: bool)
    requires Inv(s)
    ensures Inv(UdpInStep(s, ip, vip, rewritten))
  {
    var c := ClientKey(ip, 0);
    if Selectable(s, vip) && CanInsert(s.conns, c) {
      InsertKeepsBound(s.conns, c, Mapping(Pick(s, vip), vip, None));
    }
  }

  lemma InstallKeepsInv(s: State, key: BackendKey, list: BackendList)
    requires Inv(s) && CanInsert(s.backends, key) && list.backendsLen <= CAPACITY
    ensures CanInsert(s.indexes, key)
    ensures Inv(s.(backends := s.backends[key := list], indexes := s.indexes[key := 0]))
  {
    assert |s.backends| == |s.backends.Keys| == |s.indexes.Keys| == |s.indexes|;
    InsertKeepsBound(s.backends, key, list);
  }

  /**
   * Update either installs exactly the requested backends, in order, with the index reset and
   * every other VIP and connection untouched, or it changes nothing; it succeeds exactly when the
   * request names a VIP, is routable, fits the array, and the VIP is known or the map has room.
   * Otherwise the error names the first of these that fails.
   */
  lemma UpdateAllOrNothing(s: State, key: Option<BackendKey>, ts: seq<Target>)
    requires Inv(s)
    ensures var (s', r) := UpdateRpc(s, key, ts);
            && Inv(s') && s' == Step(s, Update(key, ts))
            && (r.Ok? <==> key.Some? && Collect(ts).Ok? && CanInsert(s.backends, key.value))
            && (r.Err? ==> s' == s)
            && (r.Ok? ==> Installed(s, s', key.value, ts))
            && (r == Err(MissingVip) <==> key.None?)
            && (r == Err(MapFull) <==> key.Some? && Collect(ts).Ok? && !CanInsert(s.backends, key.value))
            && (key.Some? && Collect(ts).Err? ==> r == Err(Collect(ts).error))
  {
    hide Collect, BuildList, Installed, Inv;
    BuildListMeaning(ts);
    CollectErrors(ts);
    if key.Some? && Collect(ts).Ok? && CanInsert(s.backends, key.value) {
      InstallKeepsInv(s, key.value, BuildList(ts).value);
      InstallMeaning(s, key.value, ts);
    }
  }

  lemma BuildListMeaning(ts: seq<Target>)
    ensures BuildList(ts).Ok? <==> Collect(ts).Ok?
    ensures BuildList(ts).Ok? ==>
              var list := BuildList(ts).value;
              && list.backendsLen == |ts| <= CAPACITY
              && forall i :: 0 <= i < |ts| ==> Copies(list.backends[i], ts[i])
    ensures BuildList(ts).Err? ==> Collect(ts) == Err(BuildList(ts).error)
  {
    hide Collect, Copies;
    CollectMeaning(ts);
  }

  lemma {:induction false} CollectErrors(ts: seq<Target>)
    ensures Collect(ts).Err? ==> Collect(ts).error in {NoRoute, TooManyBackends}
  {
    if ts != [] {
      CollectErrors(ts[..|ts| - 1]);
    }
  }

  lemma InstallMeaning(s: State, key: BackendKey, ts: seq<Target>)
    requires BuildList(ts).Ok?
    ensures Installed(s, s.(backends := s.backends[key := BuildList(ts).value], indexes := s.indexes[key := 0]), key, ts)
  {
    hide BuildList, Copies;
    BuildListMeaning(ts);
  }

  ghost predicate Installed(s: State, s': State, key: BackendKey, ts: seq<Target>) {
    && s'.backends.Keys == s.backends.Keys + {key} && s'.indexes.Keys == s.indexes.Keys + {key}
    && (forall k :: k in s.backends && k != key ==> s'.backends[k] == s.backends[k])
    && (forall k :: k in s.indexes && k != key ==> s'.indexes[k] == s.indexes[k])
    && s'.conns == s.conns
    && s'.indexes[key] == 0
    && s'.backends[key].backendsLen == |ts| <= CAPACITY
    && forall i :: 0 <= i < |ts| ==> Copies(s'.backends[key].backends[i], ts[i])
  }

  /** After a successful Update slot i holds target i, field by field, and the slots after the last target are zero. */
  lemma SlotsHoldTargets(s: State, key: Option<BackendKey>, ts: seq<Target>, i: nat)
    requires Inv(s) && UpdateRpc(s, key, ts).1.Ok? && i < 128
    ensures key.Some? && key.value in Step(s, Update(key, ts)).backends
    ensures var slot := Step(s, Update(key, ts)).backends[key.value].backends[i];
            if i < |ts| then
              && slot.daddr == ts[i].daddr && slot.dport == ts[i].dport
              && (ts[i].ifindex.Some? ==> slot.ifindex == ts[i].ifindex.value % 0x1_0000)
              && (ts[i].ifindex.None? ==> ts[i].route.Some? && slot.ifindex == ts[i].route.value % 0x1_0000)
            else slot == Backend(0, 0, 0)
  {
    UpdateAllOrNothing(s, key, ts);
    if i < |ts| {
      hide Collect, Inv;
      assert Copies(Step(s, Update(key, ts)).backends[key.value].backends[i], ts[i]);
    } else {
      hide Collect, Inv;
      BuildListMeaning(ts);
    }
  }

  /** A VIP is served exactly while it is configured with at least one backend; no index stands in the way. */
  lemma SelectableIff(s: State, vip: BackendKey)
    requires Inv(s)
    ensures Selectable(s, vip) <==> vip in s.backends && s.backends[vip].backendsLen > 0
  {
  }

  /**
   * Delete succeeds exactly for a configured VIP; it then removes that VIP from both maps and
   * exactly the connections bound to it, and otherwise changes nothing.
   */
  lemma DeleteExact(s: State, vip: BackendKey)
    requires Inv(s)
    ensures var (s', r) := DeleteRpc(s, vip);
            && Inv(s') && s' == Step(s, Delete(vip))
            && (r.Ok? <==> vip in s.backends)
            && (r.Err? ==> s' == s)
            && (r.Ok? ==>
                  && s'.backends == s.backends - {vip}
                  && s'.indexes == s.indexes - {vip}
                  && (forall c :: c in s'.conns <==> c in s.conns && s.conns[c].key != vip)
                  && forall c :: c in s'.conns ==> s'.conns[c] == s.conns[c])
  {
    RemovalShrinks(s.conns, Unbound(s.conns, vip));
    RemovalShrinks(s.backends, s.backends - {vip});
  }

  lemma StepKeepsInv(s: State, e: Event)
    requires Inv(s)
    ensures Inv(Step(s, e))
  {
    match e
    case TcpIn(c, vip, fl, rewritten) => TcpInKeepsInv(s, c, vip, fl, rewritten);
    case UdpIn(ip, vip, rewritten) => UdpInKeepsInv(s, ip, vip, rewritten);
    case TcpOut(c, fl) =>
      if c in s.conns {
        TrackedKeepsInv(s, c, fl);
      }
    case IcmpOut(ip, _, _) => RemovalShrinks(s.conns, s.conns - {ClientKey(ip, 0)});
    case Update(key, ts) => UpdateAllOrNothing(s, key, ts);
    case Delete(vip) => DeleteExact(s, vip);
  }

  lemma {:induction false} RunKeepsInv(s: State, es: seq<Event>)
    requires Inv(s)
    ensures Inv(Run(s, es))
    decreases |es|
  {
    if es != [] {
      StepKeepsInv(s, es[0]);
      RunKeepsInv(Step(s, es[0]), es[1..]);
    }
  }

  /** Whatever packets and RPCs arrive, in whatever order, starting from empty maps. */
  lemma ReachableInv(es: seq<Event>)
    ensures Inv(Run(EMPTY, es))
  {
    RunKeepsInv(EMPTY, es);
  }
}
