/**
 * Handlers and RPCs cut at every map operation and interleaved arbitrarily. Locks are left out, so
 * what holds here holds in particular for the schedules the API server's mutexes allow.
 */
module Interleaving {
  import opened Wire
  import opened Types
  import opened Tracker
  import opened Machine
  import opened Invariant

  /** A TCP handler in flight; each constructor names the map operation that comes next. */
  datatype TcpTask =
    | TcpFind(c: ClientKey, vip: BackendKey, fl: TcpFlags, rewritten: bool)
    | TcpGetList(c: ClientKey, vip: BackendKey, fl: TcpFlags, rewritten: bool)
    | TcpGetIndex(c: ClientKey, vip: BackendKey, fl: TcpFlags, rewritten: bool, list: BackendList)
    | TcpAdvance(c: ClientKey, fl: TcpFlags, rewritten: bool, m: Mapping, next: u16)
    | TcpReset(c: ClientKey, fl: TcpFlags, rewritten: bool, m: Mapping, isNew: bool)
    | TcpTrack(c: ClientKey, fl: TcpFlags, rewritten: bool, m: Mapping, isNew: bool)
    | TcpRecord(c: ClientKey, m: Mapping)
    | ReplyFind(c: ClientKey, fl: TcpFlags)

  datatype UdpTask =
    | UdpGetList(ip: u32, vip: BackendKey, rewritten: bool)
    | UdpGetIndex(ip: u32, vip: BackendKey, rewritten: bool, list: BackendList)
    | UdpRecord(ip: u32, rewritten: bool, m: Mapping, next: u16)
    | UdpAdvance(key: BackendKey, next: u16)
    | IcmpFind(ip: u32, complete: bool)
    | IcmpRemove(ip: u32)

  datatype RpcTask =
    | UpdateList(key: BackendKey, targets: seq<Target>, list: BackendList)
    | UpdateIndex(key: BackendKey)
    | DeleteList(vip: BackendKey)
    | DeleteIndex(vip: BackendKey)
    | DeleteCollect(vip: BackendKey)
    | DeleteSweep(vip: BackendKey, todo: map<ClientKey, Mapping>)

  datatype Task = Tcp(tcp: TcpTask) | Udp(udp: UdpTask) | Rpc(rpc: RpcTask) | Done

  function Start(e: Event): Task {
    match e
    case TcpIn(c, vip, fl, rewritten) => Tcp(TcpFind(c, vip, fl, rewritten))
    case UdpIn(ip, vip, rewritten) => Udp(UdpGetList(ip, vip, rewritten))
    case TcpOut(c, fl) => Tcp(ReplyFind(c, fl))
    case IcmpOut(ip, icmpType, complete) => if icmpType == ICMP_UNREACHABLE then Udp(IcmpFind(ip, complete)) else Done
    case Update(key, ts) =>
      if key.Some? && BuildList(ts).Ok? then Rpc(UpdateList(key.value, ts, BuildList(ts).value)) else Done
    case Delete(vip) => Rpc(DeleteList(vip))
  }

  /** Both bounds checks on a list and an index that were read at different times. */
  predicate InBounds(list: BackendList, index: u16) {
    index < list.backendsLen && index < CAPACITY
  }

  predicate IndexUsable(s: State, vip: BackendKey, list: BackendList) {
    vip in s.indexes && InBounds(list, s.indexes[vip])
  }

  function TcpMicro(s: State, t: TcpTask): (State, Task) {
    match t
    case TcpFind(c, vip, fl, rewritten) =>
      (s, Tcp(if c in s.conns then TcpReset(c, fl, rewritten, s.conns[c], false)
              else TcpGetList(c, vip, fl, rewritten)))
    case TcpGetList(c, vip, fl, rewritten) =>
      (s, if vip in s.backends then Tcp(TcpGetIndex(c, vip, fl, rewritten, s.backends[vip])) else Done)
    case TcpGetIndex(c, vip, fl, rewritten, list) =>
      if IndexUsable(s, vip, list) then
        var i := s.indexes[vip];
        var m := Mapping(list.backends[i], vip, Some(Established));
        (s, Tcp(TcpAdvance(c, fl, rewritten, m, NextIndex(i, list.backendsLen))))
      else (s, Done)
    case TcpAdvance(c, fl, rewritten, m, next) =>
      if CanInsert(s.indexes, m.key) then
        (s.(indexes := s.indexes[m.key := next]), Tcp(TcpReset(c, fl, rewritten, m, true)))
      else (s, Done)
    case TcpReset(c, fl, rewritten, m, isNew) =>
      if fl.rst && c !in s.conns then (s, Done)
      else (s.(conns := if fl.rst then s.conns - {c} else s.conns), Tcp(TcpTrack(c, fl, rewritten, m, isNew)))
    case TcpTrack(c, fl, rewritten, m, isNew) =>
      var r := UpdateConns(s.conns, c, m, fl);
      (s.(conns := r.conns), if r.ok && rewritten && isNew then Tcp(TcpRecord(c, r.mapping)) else Done)
    case TcpRecord(c, m) => (if CanInsert(s.conns, c) then s.(conns := s.conns[c := m]) else s, Done)
    case ReplyFind(c, fl) => (s, if c in s.conns then Tcp(TcpReset(c, fl, true, s.conns[c], false)) else Done)
  }

  function UdpMicro(s: State, t: UdpTask): (State, Task) {
    match t
    case UdpGetList(ip, vip, rewritten) =>
      (s, if vip in s.backends then Udp(UdpGetIndex(ip, vip, rewritten, s.backends[vip])) else Done)
    case UdpGetIndex(ip, vip, rewritten, list) =>
      if IndexUsable(s, vip, list) then
        var i := s.indexes[vip];
        (s, Udp(UdpRecord(ip, rewritten, Mapping(list.backends[i], vip, None), NextIndex(i, list.backendsLen))))
      else (s, Done)
    case UdpRecord(ip, rewritten, m, next) =>
      if CanInsert(s.conns, ClientKey(ip, 0)) then
        (s.(conns := s.conns[ClientKey(ip, 0) := m]), if rewritten then Udp(UdpAdvance(m.key, next)) else Done)
      else (s, Done)
    case UdpAdvance(key, next) =>
      (if CanInsert(s.indexes, key) then s.(indexes := s.indexes[key := next]) else s, Done)
    case IcmpFind(ip, complete) => (s, if ClientKey(ip, 0) in s.conns && complete then Udp(IcmpRemove(ip)) else Done)
    case IcmpRemove(ip) => (s.(conns := s.conns - {ClientKey(ip, 0)}), Done)
  }

  /** A sweep treats client `pick`, so every order of its snapshot is covered. */
  function RpcMicro(s: State, t: RpcTask, pick: ClientKey): (State, Task) {
    match t
    case UpdateList(key, _, list) =>
      if CanInsert(s.backends, key) then (s.(backends := s.backends[key := list]), Rpc(UpdateIndex(key))) else (s, Done)
    case UpdateIndex(key) => (if CanInsert(s.indexes, key) then s.(indexes := s.indexes[key := 0]) else s, Done)
    case DeleteList(vip) =>
      if vip in s.backends then (s.(backends := s.backends - {vip}), Rpc(DeleteIndex(vip))) else (s, Done)
    case DeleteIndex(vip) =>
      if vip in s.indexes then (s.(indexes := s.indexes - {vip}), Rpc(DeleteCollect(vip))) else (s, Done)
    case DeleteCollect(vip) => (s, Rpc(DeleteSweep(vip, s.conns)))
    case DeleteSweep(vip, todo) =>
      if todo == map[] then (s, Done)
      else if pick !in todo then (s, Rpc(t))
      else if todo[pick].key != vip then (s, Rpc(DeleteSweep(vip, todo - {pick})))
      else if pick in s.conns then (s.(conns := s.conns - {pick}), Rpc(DeleteSweep(vip, todo - {pick})))
      else (s, Done)
  }

  /** One map operation and the local work up to the next. */
  function Micro(s: State, t: Task, pick: ClientKey): (State, Task) {
    match t
    case Tcp(tcp) => TcpMicro(s, tcp)
    case Udp(udp) => UdpMicro(s, udp)
    case Rpc(rpc) => RpcMicro(s, rpc, pick)
    case Done => (s, Done)
  }

  // ---------------------------------------------------------------------------
  // Interleaved runs
  // ---------------------------------------------------------------------------

  /** The maps, the tasks in flight, and the Update requests whose list has been installed so far. */
  datatype World = World(s: State, tasks: map<nat, Task>, requests: set<(BackendKey, seq<Target>)>)

  datatype Move =
    | Arrive(id: nat, e: Event)
    | Go(id: nat, pick: ClientKey)

  function MoveStep(w: World, mv: Move): World {
    match mv
    case Arrive(id, e) =>
      if id in w.tasks then w
      else w.(tasks := w.tasks[id := Start(e)])
    case Go(id, pick) =>
      if id !in w.tasks then w
      else
        var (s', t') := Micro(w.s, w.tasks[id], pick);
        World(s', w.tasks[id := t'], w.requests + Installing(w.s, w.tasks[id]))
  }

  /** The request whose list this step writes into BACKENDS, if it does. */
  function Installing(s: State, t: Task): set<(BackendKey, seq<Target>)> {
    if t.Rpc? && t.rpc.UpdateList? && CanInsert(s.backends, t.rpc.key) then {(t.rpc.key, t.rpc.targets)} else {}
  }

  function Moves(w: World, moves: seq<Move>): World
    decreases |moves|
  {
    if moves == [] then w else Moves(MoveStep(w, moves[0]), moves[1..])
  }

  const IDLE := World(EMPTY, map[], {})

  // ---------------------------------------------------------------------------
  // Safety
  // ---------------------------------------------------------------------------

  /** The list was built from the targets of an installed Update for this VIP. */
  ghost predicate Requested(rs: set<(BackendKey, seq<Target>)>, key: BackendKey, list: BackendList) {
    exists ts :: (key, ts) in rs && BuildList(ts) == Ok(list)
  }

  /** The backend is a target of an installed Update for the mapping's VIP: never padding, never another VIP's. */
  ghost predicate Offered(rs: set<(BackendKey, seq<Target>)>, m: Mapping) {
    exists ts, i :: (m.key, ts) in rs && Targets(ts, i, m.backend)
  }

  predicate Targets(ts: seq<Target>, i: nat, b: Backend) {
    i < |ts| && Copies(b, ts[i])
  }

  ghost predicate MapsOk(s: State, rs: set<(BackendKey, seq<Target>)>) {
    && (forall k :: k in s.backends ==> Requested(rs, k, s.backends[k]))
    && (forall k :: k in s.indexes ==> s.indexes[k] < CAPACITY)
    && (forall c :: c in s.conns ==> Offered(rs, s.conns[c]))
  }

  ghost predicate TcpTaskOk(t: TcpTask, rs: set<(BackendKey, seq<Target>)>) {
    match t
    case TcpGetIndex(_, vip, _, _, list) => Requested(rs, vip, list)
    case TcpAdvance(_, _, _, m, next) => Offered(rs, m) && next < CAPACITY
    case TcpReset(_, _, _, m, _) => Offered(rs, m)
    case TcpTrack(_, _, _, m, _) => Offered(rs, m)
    case TcpRecord(_, m) => Offered(rs, m)
    case _ => true
  }

  ghost predicate UdpTaskOk(t: UdpTask, rs: set<(BackendKey, seq<Target>)>) {
    match t
    case UdpGetIndex(_, vip, _, list) => Requested(rs, vip, list)
    case UdpRecord(_, _, m, next) => Offered(rs, m) && next < CAPACITY
    case UdpAdvance(_, next) => next < CAPACITY
    case _ => true
  }

  ghost predicate TaskOk(t: Task, rs: set<(BackendKey, seq<Target>)>) {
    match t
    case Tcp(tcp) => TcpTaskOk(tcp, rs)
    case Udp(udp) => UdpTaskOk(udp, rs)
    case Rpc(rpc) => rpc.UpdateList? ==> BuildList(rpc.targets) == Ok(rpc.list)
    case Done => true
  }

  ghost predicate Safe(w: World) {
    && MapsOk(w.s, w.requests)
    && forall id :: id in w.tasks ==> TaskOk(w.tasks[id], w.requests)
  }

  /** Any index that passes the first check against any installed list also passes the second. */
  lemma InstalledSlot(rs: set<(BackendKey, seq<Target>)>, key: BackendKey, list: BackendList, i: u16,
                      st: Option<TcpState>)
    requires Requested(rs, key, list) && i < list.backendsLen
    ensures list.backendsLen <= CAPACITY && InBounds(list, i)
    ensures NextIndex(i, list.backendsLen) < CAPACITY
    ensures Offered(rs, Mapping(list.backends[i], key, st))
  {
    var ts :| (key, ts) in rs && BuildList(ts) == Ok(list);
    BuildListMeaning(ts);
    assert Targets(ts, i, list.backends[i]);
  }

  lemma OfferedAgain(rs: set<(BackendKey, seq<Target>)>, m: Mapping, m': Mapping)
    requires Offered(rs, m) && m'.backend == m.backend && m'.key == m.key
    ensures Offered(rs, m')
  {
    var ts, i :| (m.key, ts) in rs && Targets(ts, i, m.backend);
    assert (m'.key, ts) in rs && Targets(ts, i, m'.backend);
  }

  /** What a step must leave behind, given the requests installed by then. */
  ghost predicate PairOk(p: (State, Task), rs: set<(BackendKey, seq<Target>)>) {
    MapsOk(p.0, rs) && TaskOk(p.1, rs)
  }

  lemma FewerConnsOk(s: State, conns: map<ClientKey, Mapping>, rs: set<(BackendKey, seq<Target>)>)
    requires MapsOk(s, rs) && forall c :: c in conns ==> c in s.conns && conns[c] == s.conns[c]
    ensures MapsOk(s.(conns := conns), rs)
  {
    hide Offered, Requested;
  }

  lemma StoredConnOk(s: State, c: ClientKey, m: Mapping, rs: set<(BackendKey, seq<Target>)>)
    requires MapsOk(s, rs) && Offered(rs, m)
    ensures MapsOk(s.(conns := s.conns[c := m]), rs)
  {
    hide Offered, Requested;
  }

  lemma StoredIndexOk(s: State, k: BackendKey, i: u16, rs: set<(BackendKey, seq<Target>)>)
    requires MapsOk(s, rs) && i < CAPACITY
    ensures MapsOk(s.(indexes := s.indexes[k := i]), rs)
    ensures MapsOk(s.(indexes := s.indexes - {k}), rs)
    ensures MapsOk(s.(backends := s.backends - {k}), rs)
  {
    hide Offered, Requested;
  }

  lemma StoredList(s: State, k: BackendKey, rs: set<(BackendKey, seq<Target>)>)
    requires MapsOk(s, rs) && k in s.backends
    ensures Requested(rs, k, s.backends[k])
  {
    hide Offered, Requested;
  }

  lemma StoredMapping(s: State, c: ClientKey, rs: set<(BackendKey, seq<Target>)>)
    requires MapsOk(s, rs) && c in s.conns
    ensures Offered(rs, s.conns[c])
  {
    hide Offered, Requested;
  }

  lemma TcpLookupsSafe(s: State, t: TcpTask, rs: set<(BackendKey, seq<Target>)>)
    requires t.TcpFind? || t.TcpGetList? || t.TcpGetIndex? || t.TcpAdvance? || t.ReplyFind?
    requires MapsOk(s, rs) && TcpTaskOk(t, rs)
    ensures PairOk(TcpMicro(s, t), rs)
  {
    hide Offered, Requested, MapsOk;
    if (t.TcpFind? || t.ReplyFind?) && t.c in s.conns {
      StoredMapping(s, t.c, rs);
    } else if t.TcpGetList? && t.vip in s.backends {
      StoredList(s, t.vip, rs);
    } else if t.TcpAdvance? {
      StoredIndexOk(s, t.m.key, t.next, rs);
    } else if t.TcpGetIndex? && IndexUsable(s, t.vip, t.list) {
      InstalledSlot(rs, t.vip, t.list, s.indexes[t.vip], Some(Established));
    }
  }

  lemma TcpUpdatesSafe(s: State, t: TcpTask, rs: set<(BackendKey, seq<Target>)>)
    requires t.TcpReset? || t.TcpTrack? || t.TcpRecord?
    requires MapsOk(s, rs) && TcpTaskOk(t, rs)
    ensures PairOk(TcpMicro(s, t), rs)
  {
    hide Offered, Requested, UpdateConns, MapsOk;
    FewerConnsOk(s, s.conns - {t.c}, rs);
    StoredConnOk(s, t.c, t.m, rs);
    if t.TcpTrack? {
      var r := UpdateConns(s.conns, t.c, t.m, t.fl);
      UpdateConnsShape(s.conns, t.c, t.m, t.fl);
      OfferedAgain(rs, t.m, r.mapping);
      StoredConnOk(s, t.c, r.mapping, rs);
    }
  }

  lemma UdpSafe(s: State, t: UdpTask, rs: set<(BackendKey, seq<Target>)>)
    requires MapsOk(s, rs) && UdpTaskOk(t, rs)
    ensures PairOk(UdpMicro(s, t), rs)
  {
    hide Offered, Requested, MapsOk;
    match t
    case UdpGetList(_, vip, _) =>
      if vip in s.backends {
        StoredList(s, vip, rs);
      }
    case UdpGetIndex(_, vip, _, list) =>
      if IndexUsable(s, vip, list) {
        InstalledSlot(rs, vip, list, s.indexes[vip], None);
      }
    case UdpRecord(ip, _, m, _) => StoredConnOk(s, ClientKey(ip, 0), m, rs);
    case UdpAdvance(key, next) => StoredIndexOk(s, key, next, rs);
    case IcmpFind(_, _) =>
    case IcmpRemove(ip) => FewerConnsOk(s, s.conns - {ClientKey(ip, 0)}, rs);
  }

  lemma InstallSafe(s: State, key: BackendKey, ts: seq<Target>, list: BackendList, rs: set<(BackendKey, seq<Target>)>)
    requires MapsOk(s, rs) && (key, ts) in rs && BuildList(ts) == Ok(list)
    ensures MapsOk(s.(backends := s.backends[key := list]), rs)
  {
    assert Requested(rs, key, list);
    hide Offered, Requested;
  }

  lemma RpcSafe(s: State, t: RpcTask, pick: ClientKey, rs: set<(BackendKey, seq<Target>)>)
    requires MapsOk(s, rs) && TaskOk(Rpc(t), rs) && Installing(s, Rpc(t)) <= rs
    ensures PairOk(RpcMicro(s, t, pick), rs)
  {
    hide MapsOk, BuildList;
    match t
    case UpdateList(key, ts, list) =>
      if CanInsert(s.backends, key) {
        assert (key, ts) in rs;
        InstallSafe(s, key, ts, list, rs);
      }
    case UpdateIndex(key) => StoredIndexOk(s, key, 0, rs);
    case DeleteList(vip) => StoredIndexOk(s, vip, 0, rs);
    case DeleteIndex(vip) => StoredIndexOk(s, vip, 0, rs);
    case DeleteCollect(_) =>
    case DeleteSweep(_, _) => FewerConnsOk(s, s.conns - {pick}, rs);
  }

  lemma MicroSafe(s: State, t: Task, pick: ClientKey, rs: set<(BackendKey, seq<Target>)>)
    requires MapsOk(s, rs) && TaskOk(t, rs) && Installing(s, t) <= rs
    ensures PairOk(Micro(s, t, pick), rs)
  {
    hide MapsOk, TcpTaskOk, UdpTaskOk, TcpMicro, UdpMicro, RpcMicro, Installing;
    match t
    case Tcp(tcp) =>
      if tcp.TcpReset? || tcp.TcpTrack? || tcp.TcpRecord? {
        TcpUpdatesSafe(s, tcp, rs);
      } else {
        TcpLookupsSafe(s, tcp, rs);
      }
    case Udp(udp) => UdpSafe(s, udp, rs);
    case Rpc(rpc) => RpcSafe(s, rpc, pick, rs);
    case Done =>
  }

  lemma MoreRequests(w: World, rs: set<(BackendKey, seq<Target>)>)
    requires Safe(w) && w.requests <= rs
    ensures Safe(w.(requests := rs))
  {
    forall k, list | Requested(w.requests, k, list)
      ensures Requested(rs, k, list)
    {
      var ts :| (k, ts) in w.requests && BuildList(ts) == Ok(list);
    }
    forall m | Offered(w.requests, m)
      ensures Offered(rs, m)
    {
      var ts, i :| (m.key, ts) in w.requests && Targets(ts, i, m.backend);
    }
    hide Requested, Offered;
    assert MapsOk(w.s, rs);
  }

  lemma ReplaceTask(w: World, id: nat, p: (State, Task))
    requires Safe(w) && PairOk(p, w.requests)
    ensures Safe(World(p.0, w.tasks[id := p.1], w.requests))
  {
    hide MapsOk, TaskOk;
  }

  lemma StartOk(e: Event, rs: set<(BackendKey, seq<Target>)>)
    ensures TaskOk(Start(e), rs)
  {
    hide BuildList, Requested, Offered;
  }

  lemma TaskOfSafe(w: World, id: nat)
    requires Safe(w) && id in w.tasks
    ensures MapsOk(w.s, w.requests) && TaskOk(w.tasks[id], w.requests)
  {
    hide MapsOk, TaskOk;
  }

  lemma MoveSafe(w: World, mv: Move)
    requires Safe(w)
    ensures Safe(MoveStep(w, mv))
  {
    hide Safe, MapsOk, TaskOk, Micro, Installing, Start;
    if mv.Arrive? {
      if mv.id !in w.tasks {
        StartOk(mv.e, w.requests);
        SafeMaps(w);
        ReplaceTask(w, mv.id, (w.s, Start(mv.e)));
      }
    } else if mv.id in w.tasks {
      var w' := w.(requests := w.requests + Installing(w.s, w.tasks[mv.id]));
      MoreRequests(w, w'.requests);
      TaskOfSafe(w', mv.id);
      MicroSafe(w.s, w.tasks[mv.id], mv.pick, w'.requests);
      ReplaceTask(w', mv.id, Micro(w.s, w.tasks[mv.id], mv.pick));
    }
  }

  lemma SafeMaps(w: World)
    requires Safe(w)
    ensures MapsOk(w.s, w.requests)
  {
    hide MapsOk, TaskOk;
  }

  lemma {:induction false} MovesSafe(w: World, moves: seq<Move>)
    requires Safe(w)
    ensures Safe(Moves(w, moves))
    decreases |moves|
  {
    if moves != [] {
      hide MoveStep, Safe;
      MoveSafe(w, moves[0]);
      MovesSafe(MoveStep(w, moves[0]), moves[1..]);
    }
  }

  /**
   * In every interleaving from empty maps: every stored index is below 128, and every backend that
   * is tracked, or that a handler has chosen and is about to forward to, is one that an installed
   * Update requested for that VIP.
   */
  lemma EveryInterleavingSafe(moves: seq<Move>)
    ensures Safe(Moves(IDLE, moves))
  {
    MovesSafe(IDLE, moves);
  }

  // ---------------------------------------------------------------------------
  // Tasks that run undisturbed
  // ---------------------------------------------------------------------------

  function Recorded(s: State, c: ClientKey, rewritten: bool, isNew: bool, r: ConnStep): State {
    s.(conns := if r.ok && rewritten && isNew && CanInsert(r.conns, c) then r.conns[c := r.mapping] else r.conns)
  }

  function Picked(s: State, c: ClientKey, fl: TcpFlags, rewritten: bool, m: Mapping, next: u16): State {
    if CanInsert(s.indexes, m.key) then
      Recorded(s.(indexes := s.indexes[m.key := next]), c, rewritten, true, RstAndUpdate(s.conns, c, m, fl))
    else s
  }

  function UdpPicked(s: State, ip: u32, rewritten: bool, m: Mapping, next: u16): State {
    if CanInsert(s.conns, ClientKey(ip, 0)) then
      var s' := s.(conns := s.conns[ClientKey(ip, 0) := m]);
      if rewritten && CanInsert(s'.indexes, m.key) then s'.(indexes := s'.indexes[m.key := next]) else s'
    else s
  }

  function Swept(s: State, vip: BackendKey, todo: map<ClientKey, Mapping>): State {
    s.(conns := map c | c in s.conns && !(c in todo && todo[c].key == vip) :: s.conns[c])
  }

  function TcpComplete(s: State, t: TcpTask): State {
    match t
    case TcpFind(c, vip, fl, rewritten) => TcpInStep(s, c, vip, fl, rewritten)
    case TcpGetList(c, vip, fl, rewritten) =>
      if Selectable(s, vip) then
        Picked(s, c, fl, rewritten, NewMapping(s, vip), NextIndex(s.indexes[vip], s.backends[vip].backendsLen))
      else s
    case TcpGetIndex(c, vip, fl, rewritten, list) =>
      if IndexUsable(s, vip, list) then
        Picked(s, c, fl, rewritten, Mapping(list.backends[s.indexes[vip]], vip, Some(Established)),
               NextIndex(s.indexes[vip], list.backendsLen))
      else s
    case TcpAdvance(c, fl, rewritten, m, next) => Picked(s, c, fl, rewritten, m, next)
    case TcpReset(c, fl, rewritten, m, isNew) => Recorded(s, c, rewritten, isNew, RstAndUpdate(s.conns, c, m, fl))
    case TcpTrack(c, fl, rewritten, m, isNew) => Recorded(s, c, rewritten, isNew, UpdateConns(s.conns, c, m, fl))
    case TcpRecord(c, m) => if CanInsert(s.conns, c) then s.(conns := s.conns[c := m]) else s
    case ReplyFind(c, fl) => TcpOutStep(s, c, fl)
  }

  function UdpComplete(s: State, t: UdpTask): State {
    match t
    case UdpGetList(ip, vip, rewritten) => UdpInStep(s, ip, vip, rewritten)
    case UdpGetIndex(ip, vip, rewritten, list) =>
      if IndexUsable(s, vip, list) then
        UdpPicked(s, ip, rewritten, Mapping(list.backends[s.indexes[vip]], vip, None),
                  NextIndex(s.indexes[vip], list.backendsLen))
      else s
    case UdpRecord(ip, rewritten, m, next) => UdpPicked(s, ip, rewritten, m, next)
    case UdpAdvance(key, next) => if CanInsert(s.indexes, key) then s.(indexes := s.indexes[key := next]) else s
    case IcmpFind(ip, complete) => IcmpOutStep(s, ip, ICMP_UNREACHABLE, complete)
    case IcmpRemove(ip) => s.(conns := s.conns - {ClientKey(ip, 0)})
  }

  function RpcComplete(s: State, t: RpcTask): State {
    match t
    case UpdateList(key, _, list) => InsertAndReset(s, key, list).0
    case UpdateIndex(key) => if CanInsert(s.indexes, key) then s.(indexes := s.indexes[key := 0]) else s
    case DeleteList(vip) => DeleteRpc(s, vip).0
    case DeleteIndex(vip) =>
      if vip in s.indexes then s.(indexes := s.indexes - {vip}, conns := Unbound(s.conns, vip)) else s
    case DeleteCollect(vip) => s.(conns := Unbound(s.conns, vip))
    case DeleteSweep(vip, todo) => Swept(s, vip, todo)
  }

  /** The state in which a task ends when nothing else runs any more. */
  function Complete(s: State, t: Task): State {
    match t
    case Tcp(tcp) => TcpComplete(s, tcp)
    case Udp(udp) => UdpComplete(s, udp)
    case Rpc(rpc) => RpcComplete(s, rpc)
    case Done => s
  }

  /** The snapshot of a sweep is still accurate. */
  predicate Fresh(s: State, t: Task) {
    t.Rpc? && t.rpc.DeleteSweep? ==>
      forall c :: c in t.rpc.todo && t.rpc.todo[c].key == t.rpc.vip ==> c in s.conns
  }

  lemma TcpFindCompletes(s: State, t: TcpTask)
    requires t.TcpFind? || t.ReplyFind?
    ensures Complete(TcpMicro(s, t).0, TcpMicro(s, t).1) == TcpComplete(s, t)
  {
    hide UpdateConns, NextIndex;
  }

  lemma TcpGetListCompletes(s: State, t: TcpTask)
    requires t.TcpGetList?
    ensures Complete(TcpMicro(s, t).0, TcpMicro(s, t).1) == TcpComplete(s, t)
  {
    hide UpdateConns, NextIndex, Picked;
  }

  lemma TcpGetIndexCompletes(s: State, t: TcpTask)
    requires t.TcpGetIndex? || t.TcpAdvance?
    ensures Complete(TcpMicro(s, t).0, TcpMicro(s, t).1) == TcpComplete(s, t)
  {
    hide UpdateConns, NextIndex;
  }

  lemma TcpResetCompletes(s: State, t: TcpTask)
    requires t.TcpReset?
    ensures Complete(TcpMicro(s, t).0, TcpMicro(s, t).1) == TcpComplete(s, t)
  {
    hide UpdateConns;
  }

  lemma TcpTrackCompletes(s: State, t: TcpTask)
    requires t.TcpTrack? || t.TcpRecord?
    ensures Complete(TcpMicro(s, t).0, TcpMicro(s, t).1) == TcpComplete(s, t)
  {
    hide UpdateConns;
  }

  lemma TcpStepCompletes(s: State, t: TcpTask)
    ensures Complete(TcpMicro(s, t).0, TcpMicro(s, t).1) == TcpComplete(s, t)
  {
    hide TcpComplete, TcpMicro, Complete;
    if t.TcpFind? || t.ReplyFind? {
      TcpFindCompletes(s, t);
    } else if t.TcpGetList? {
      TcpGetListCompletes(s, t);
    } else if t.TcpGetIndex? || t.TcpAdvance? {
      TcpGetIndexCompletes(s, t);
    } else if t.TcpReset? {
      TcpResetCompletes(s, t);
    } else {
      TcpTrackCompletes(s, t);
    }
  }

  lemma UdpGetListCompletes(s: State, t: UdpTask)
    requires t.UdpGetList?
    ensures Complete(UdpMicro(s, t).0, UdpMicro(s, t).1) == UdpComplete(s, t)
  {
    hide NextIndex;
  }

  lemma UdpGetIndexCompletes(s: State, t: UdpTask)
    requires t.UdpGetIndex?
    ensures Complete(UdpMicro(s, t).0, UdpMicro(s, t).1) == UdpComplete(s, t)
  {
    hide NextIndex;
  }

  lemma UdpRecordCompletes(s: State, t: UdpTask)
    requires t.UdpRecord? || t.UdpAdvance?
    ensures Complete(UdpMicro(s, t).0, UdpMicro(s, t).1) == UdpComplete(s, t)
  {
    hide NextIndex;
  }

  lemma IcmpCompletes(s: State, t: UdpTask)
    requires t.IcmpFind? || t.IcmpRemove?
    ensures Complete(UdpMicro(s, t).0, UdpMicro(s, t).1) == UdpComplete(s, t)
  {
    if t.IcmpFind? && ClientKey(t.ip, 0) !in s.conns {
      assert s.conns - {ClientKey(t.ip, 0)} == s.conns;
    }
  }

  lemma UdpStepCompletes(s: State, t: UdpTask)
    ensures Complete(UdpMicro(s, t).0, UdpMicro(s, t).1) == UdpComplete(s, t)
  {
    hide UdpComplete, UdpMicro, Complete;
    if t.UdpGetList? {
      UdpGetListCompletes(s, t);
    } else if t.UdpGetIndex? {
      UdpGetIndexCompletes(s, t);
    } else if t.UdpRecord? || t.UdpAdvance? {
      UdpRecordCompletes(s, t);
    } else {
      IcmpCompletes(s, t);
    }
  }

  lemma SweepStepCompletes(s: State, vip: BackendKey, todo: map<ClientKey, Mapping>, pick: ClientKey)
    requires Fresh(s, Rpc(DeleteSweep(vip, todo)))
    ensures var p := RpcMicro(s, DeleteSweep(vip, todo), pick);
            Complete(p.0, p.1) == Swept(s, vip, todo) && Fresh(p.0, p.1)
  {
    var p := RpcMicro(s, DeleteSweep(vip, todo), pick);
    assert Complete(p.0, p.1).conns == Swept(s, vip, todo).conns;
  }

  lemma CollectCompletes(s: State, vip: BackendKey)
    ensures Swept(s, vip, s.conns) == s.(conns := Unbound(s.conns, vip))
  {
    assert Swept(s, vip, s.conns).conns == Unbound(s.conns, vip);
  }

  lemma UpdateStepCompletes(s: State, t: RpcTask, pick: ClientKey)
    requires t.UpdateList? || t.UpdateIndex?
    ensures var p := RpcMicro(s, t, pick); Complete(p.0, p.1) == RpcComplete(s, t) && Fresh(p.0, p.1)
  {
    hide Unbound, Swept, TcpComplete, UdpComplete;
  }

  lemma DeleteStepCompletes(s: State, t: RpcTask, pick: ClientKey)
    requires t.DeleteList? || t.DeleteIndex?
    ensures var p := RpcMicro(s, t, pick); Complete(p.0, p.1) == RpcComplete(s, t) && Fresh(p.0, p.1)
  {
    hide Unbound, Swept, TcpComplete, UdpComplete;
  }

  lemma CollectStepCompletes(s: State, t: RpcTask, pick: ClientKey)
    requires t.DeleteCollect?
    ensures var p := RpcMicro(s, t, pick); Complete(p.0, p.1) == RpcComplete(s, t) && Fresh(p.0, p.1)
  {
    hide Unbound, Swept, TcpComplete, UdpComplete;
    CollectCompletes(s, t.vip);
  }

  lemma RpcStepCompletes(s: State, t: RpcTask, pick: ClientKey)
    requires Fresh(s, Rpc(t))
    ensures var p := RpcMicro(s, t, pick); Complete(p.0, p.1) == RpcComplete(s, t) && Fresh(p.0, p.1)
  {
    hide Complete, RpcMicro, Fresh, Unbound;
    if t.UpdateList? || t.UpdateIndex? {
      UpdateStepCompletes(s, t, pick);
    } else if t.DeleteList? || t.DeleteIndex? {
      DeleteStepCompletes(s, t, pick);
    } else if t.DeleteCollect? {
      CollectStepCompletes(s, t, pick);
    } else {
      SweepStepCompletes(s, t.vip, t.todo, pick);
    }
  }

  lemma StepCompletes(s: State, t: Task, pick: ClientKey)
    requires Fresh(s, t)
    ensures var p := Micro(s, t, pick); Complete(p.0, p.1) == Complete(s, t) && Fresh(p.0, p.1)
  {
    hide TcpComplete, UdpComplete, RpcComplete, RpcMicro, UpdateConns;
    match t
    case Tcp(tcp) => TcpStepCompletes(s, tcp);
    case Udp(udp) => UdpStepCompletes(s, udp);
    case Rpc(rpc) => RpcStepCompletes(s, rpc, pick);
    case Done =>
  }

  function Solo(s: State, t: Task, picks: seq<ClientKey>): (State, Task)
    decreases |picks|
  {
    if picks == [] then (s, t)
    else
      var (s', t') := Micro(s, t, picks[0]);
      Solo(s', t', picks[1..])
  }

  lemma {:induction false} SoloCompletes(s: State, t: Task, picks: seq<ClientKey>)
    requires Fresh(s, t) && Solo(s, t, picks).1.Done?
    ensures Solo(s, t, picks).0 == Complete(s, t)
    decreases |picks|
  {
    hide Micro, Fresh;
    if picks == [] {
    } else {
      hide Complete;
      StepCompletes(s, t, picks[0]);
      var (s', t') := Micro(s, t, picks[0]);
      SoloCompletes(s', t', picks[1..]);
    }
  }

  lemma StartCompletes(s: State, e: Event)
    ensures Fresh(s, Start(e)) && Complete(s, Start(e)) == Step(s, e)
  {
    hide BuildList, InsertAndReset, DeleteRpc, TcpInStep, UdpInStep, TcpOutStep;
  }

  /** How many steps a packet or an Update can still take. */
  function Stage(t: Task): nat {
    match t
    case Tcp(tcp) =>
      (match tcp
       case TcpFind(_, _, _, _) => 7
       case TcpGetList(_, _, _, _) => 6
       case TcpGetIndex(_, _, _, _, _) => 5
       case TcpAdvance(_, _, _, _, _) => 4
       case TcpReset(_, _, _, _, _) => 3
       case TcpTrack(_, _, _, _, _) => 2
       case TcpRecord(_, _) => 1
       case ReplyFind(_, _) => 4)
    case Udp(udp) =>
      (match udp
       case UdpGetList(_, _, _) => 4
       case UdpGetIndex(_, _, _, _) => 3
       case UdpRecord(_, _, _, _) => 2
       case UdpAdvance(_, _) => 1
       case IcmpFind(_, _) => 2
       case IcmpRemove(_) => 1)
    case Rpc(rpc) => if rpc.UpdateList? then 2 else 1
    case Done => 0
  }

  predicate ShortTask(t: Task) {
    t.Rpc? ==> t.rpc.UpdateList? || t.rpc.UpdateIndex?
  }

  lemma StageDrops(s: State, t: Task, pick: ClientKey)
    requires ShortTask(t) && !t.Done?
    ensures ShortTask(Micro(s, t, pick).1) && Stage(Micro(s, t, pick).1) < Stage(t)
  {
    hide UpdateConns, NextIndex;
  }

  /** Left alone, every packet handler and Update is over after at most seven map operations. */
  lemma {:induction false} SoloFinishes(s: State, t: Task, picks: seq<ClientKey>)
    requires ShortTask(t) && Stage(t) <= |picks|
    ensures Solo(s, t, picks).1.Done?
    decreases |picks|
  {
    hide Micro, Stage, ShortTask;
    StageZero(t);
    if picks != [] {
      var p := Micro(s, t, picks[0]);
      if t.Done? {
        DoneStays(s, picks[0]);
      } else {
        StageDrops(s, t, picks[0]);
      }
      SoloFinishes(p.0, p.1, picks[1..]);
    }
  }

  lemma {:induction false} DoneSolo(s: State, picks: seq<ClientKey>)
    ensures Solo(s, Done, picks) == (s, Done)
    decreases |picks|
  {
    if picks != [] {
      DoneSolo(s, picks[1..]);
    }
  }

  lemma {:induction false} SweepFinishes(s: State, vip: BackendKey, todo: map<ClientKey, Mapping>,
                                         picks: seq<ClientKey>)
    requires picks != [] && forall c :: c in todo ==> c in picks[..|picks| - 1]
    ensures Solo(s, Rpc(DeleteSweep(vip, todo)), picks).1.Done?
    decreases |picks|
  {
    var (s', t') := Micro(s, Rpc(DeleteSweep(vip, todo)), picks[0]);
    if t'.Done? {
      DoneSolo(s', picks[1..]);
    } else {
      forall c | c in t'.rpc.todo
        ensures c in picks[1..][..|picks| - 2]
      {
        var i :| 0 <= i < |picks| - 1 && picks[i] == c;
        assert picks[1..][..|picks| - 2][i - 1] == c;
      }
      SweepFinishes(s', vip, t'.rpc.todo, picks[1..]);
    }
  }

  lemma DeleteEnds(s: State, vip: BackendKey, picks: seq<ClientKey>)
    requires |picks| >= 4 && forall c :: c in s.conns ==> c in picks[3..][..|picks| - 4]
    ensures Solo(s, Start(Delete(vip)), picks).1.Done?
  {
    var t0 := Rpc(DeleteList(vip));
    var (s1, t1) := Micro(s, t0, picks[0]);
    var (s2, t2) := Micro(s1, t1, picks[1]);
    var (s3, t3) := Micro(s2, t2, picks[2]);
    assert picks[1..][1..] == picks[2..] && picks[2..][1..] == picks[3..];
    assert Solo(s, t0, picks) == Solo(s1, t1, picks[1..]);
    assert Solo(s1, t1, picks[1..]) == Solo(s2, t2, picks[2..]);
    assert Solo(s2, t2, picks[2..]) == Solo(s3, t3, picks[3..]);
    if t3.Done? {
      DoneSolo(s3, picks[3..]);
    } else {
      SweepFinishes(s3, vip, t3.rpc.todo, picks[3..]);
    }
  }

  lemma StageZero(t: Task)
    ensures Stage(t) <= 7 && (Stage(t) == 0 <==> t.Done?)
  {
  }

  lemma DoneStays(s: State, pick: ClientKey)
    ensures Micro(s, Done, pick) == (s, Done) && ShortTask(Done) && Stage(Done) == 0
  {
  }

  /** A handler or RPC that runs to its end without interference has exactly its atomic effect. */
  lemma SoloIsAtomic(s: State, e: Event, picks: seq<ClientKey>)
    requires Solo(s, Start(e), picks).1.Done?
    ensures Solo(s, Start(e), picks).0 == Step(s, e)
  {
    hide *;
    StartCompletes(s, e);
    SoloCompletes(s, Start(e), picks);
  }

  /**
   * A Delete left alone ends, with its atomic effect: after three operations its sweep treats every
   * tracked client, in any order, and then looks once more.
   */
  lemma DeleteFinishes(s: State, vip: BackendKey, picks: seq<ClientKey>)
    requires |picks| >= 4 && forall c :: c in s.conns ==> c in picks[3..][..|picks| - 4]
    ensures Solo(s, Start(Delete(vip)), picks) == (Step(s, Delete(vip)), Done)
  {
    hide *;
    DeleteEnds(s, vip, picks);
    SoloIsAtomic(s, Delete(vip), picks);
    var (s', t') := Solo(s, Start(Delete(vip)), picks);
  }

  // ---------------------------------------------------------------------------
  // Indexes without a list
  // ---------------------------------------------------------------------------

  /** The VIP whose index the task's next operation tries to write. */
  function IndexTarget(t: Task): Option<BackendKey> {
    match t
    case Tcp(tcp) => if tcp.TcpAdvance? then Some(tcp.m.key) else None
    case Udp(udp) => if udp.UdpAdvance? then Some(udp.key) else None
    case Rpc(rpc) => if rpc.UpdateIndex? then Some(rpc.key) else None
    case Done => None
  }

  /** The VIP whose index this move writes, if it writes one. */
  function IndexWrite(w: World, mv: Move): Option<BackendKey> {
    if mv.Arrive? || mv.id !in w.tasks then None
    else
      var target := IndexTarget(w.tasks[mv.id]);
      if target.Some? && CanInsert(w.s.indexes, target.value) then target else None
  }

  /** A Delete of the VIP has removed the list and is about to remove the index. */
  ghost predicate BetweenRemovals(w: World, k: BackendKey) {
    exists id :: id in w.tasks && w.tasks[id] == Rpc(DeleteIndex(k))
  }

  ghost predicate Backed(w: World, k: BackendKey) {
    k in w.s.backends || BetweenRemovals(w, k)
  }

  ghost predicate IndexesBacked(w: World) {
    forall k :: k in w.s.indexes ==> Backed(w, k)
  }

  ghost predicate WriteBacked(w: World, mv: Move) {
    IndexWrite(w, mv).Some? ==> Backed(w, IndexWrite(w, mv).value)
  }

  /** How a move changes the two maps, and which Deletes it leaves between their removals. */
  lemma MoveEffect(w: World, mv: Move, k: BackendKey)
    ensures var w' := MoveStep(w, mv);
            && (k in w'.s.indexes && k !in w.s.indexes ==> IndexWrite(w, mv) == Some(k))
            && (IndexWrite(w, mv) == Some(k) ==>
                  k in w'.s.indexes && (k in w'.s.backends <==> k in w.s.backends)
                  && (BetweenRemovals(w', k) <==> BetweenRemovals(w, k)))
            && (k in w'.s.indexes && Backed(w, k) ==> Backed(w', k))
  {
    hide UpdateConns, NextIndex, BuildList;
    if mv.Arrive? {
      ArriveEffect(w, mv, k);
    } else if mv.id in w.tasks {
      GoEffect(w, mv, k);
    }
  }

  /** What a step does to the entries of one VIP; only an Update adds a list, only a Delete removes one. */
  ghost predicate Effect(s: State, t: Task, s': State, t': Task, k: BackendKey) {
    var writes := IndexTarget(t) == Some(k);
    && (k in s'.indexes && k !in s.indexes ==> writes && CanInsert(s.indexes, k))
    && (writes && CanInsert(s.indexes, k) ==> k in s'.indexes && s'.backends == s.backends)
    && (writes ==> t' != Rpc(DeleteIndex(k)))
    && (k in s.backends && k !in s'.backends ==> t' == Rpc(DeleteIndex(k)))
    && (t == Rpc(DeleteIndex(k)) ==> k !in s'.indexes)
  }

  lemma TcpEffect(s: State, t: TcpTask, k: BackendKey)
    ensures var (s', t') := TcpMicro(s, t); Effect(s, Tcp(t), s', t', k)
  {
    hide UpdateConns, NextIndex;
  }

  lemma UdpEffect(s: State, t: UdpTask, k: BackendKey)
    ensures var (s', t') := UdpMicro(s, t); Effect(s, Udp(t), s', t', k)
  {
    hide NextIndex;
  }

  lemma UpdateEffect(s: State, t: RpcTask, pick: ClientKey, k: BackendKey)
    requires t.UpdateList? || t.UpdateIndex?
    ensures var (s', t') := RpcMicro(s, t, pick); Effect(s, Rpc(t), s', t', k)
  {
  }

  lemma DeleteEffect(s: State, t: RpcTask, pick: ClientKey, k: BackendKey)
    requires !t.UpdateList? && !t.UpdateIndex?
    ensures var (s', t') := RpcMicro(s, t, pick); Effect(s, Rpc(t), s', t', k)
  {
    hide CanInsert;
  }

  lemma RpcEffect(s: State, t: RpcTask, pick: ClientKey, k: BackendKey)
    ensures var (s', t') := RpcMicro(s, t, pick); Effect(s, Rpc(t), s', t', k)
  {
    hide RpcMicro, Effect;
    if t.UpdateList? || t.UpdateIndex? {
      UpdateEffect(s, t, pick, k);
    } else {
      DeleteEffect(s, t, pick, k);
    }
  }

  lemma MicroEffect(s: State, t: Task, pick: ClientKey, k: BackendKey)
    ensures var (s', t') := Micro(s, t, pick); Effect(s, t, s', t', k)
  {
    hide TcpMicro, UdpMicro, RpcMicro;
    match t
    case Tcp(tcp) => TcpEffect(s, tcp, k);
    case Udp(udp) => UdpEffect(s, udp, k);
    case Rpc(rpc) => RpcEffect(s, rpc, pick, k);
    case Done =>
  }

  lemma ArriveEffect(w: World, mv: Move, k: BackendKey)
    requires mv.Arrive?
    ensures var w' := MoveStep(w, mv);
            w'.s == w.s && (BetweenRemovals(w, k) ==> BetweenRemovals(w', k))
  {
    hide BuildList;
    if BetweenRemovals(w, k) {
      var id :| id in w.tasks && w.tasks[id] == Rpc(DeleteIndex(k));
      assert MoveStep(w, mv).tasks[id] == Rpc(DeleteIndex(k));
    }
  }

  lemma GoEffect(w: World, mv: Move, k: BackendKey)
    requires mv.Go? && mv.id in w.tasks
    ensures var w' := MoveStep(w, mv);
            && (k in w'.s.indexes && k !in w.s.indexes ==> IndexWrite(w, mv) == Some(k))
            && (IndexWrite(w, mv) == Some(k) ==>
                  k in w'.s.indexes && (k in w'.s.backends <==> k in w.s.backends)
                  && (BetweenRemovals(w', k) <==> BetweenRemovals(w, k)))
            && (k in w'.s.indexes && Backed(w, k) ==> Backed(w', k))
  {
    hide Micro;
    var t := w.tasks[mv.id];
    var (s', t') := Micro(w.s, t, mv.pick);
    var w' := MoveStep(w, mv);
    MicroEffect(w.s, t, mv.pick, k);
    assert w'.s == s' && w'.tasks == w.tasks[mv.id := t'];
    OthersBetween(w, w', mv.id, k);
    if t' == Rpc(DeleteIndex(k)) {
      assert w'.tasks[mv.id] == Rpc(DeleteIndex(k));
    }
  }

  lemma OthersBetween(w: World, w': World, id: nat, k: BackendKey)
    requires id in w.tasks && id in w'.tasks && w'.tasks == w.tasks[id := w'.tasks[id]]
    ensures BetweenRemovals(w, k) && w.tasks[id] != Rpc(DeleteIndex(k)) ==> BetweenRemovals(w', k)
    ensures BetweenRemovals(w', k) && w'.tasks[id] != Rpc(DeleteIndex(k)) ==> BetweenRemovals(w, k)
  {
    if BetweenRemovals(w, k) && w.tasks[id] != Rpc(DeleteIndex(k)) {
      var d :| d in w.tasks && w.tasks[d] == Rpc(DeleteIndex(k));
      assert w'.tasks[d] == Rpc(DeleteIndex(k));
    }
    if BetweenRemovals(w', k) && w'.tasks[id] != Rpc(DeleteIndex(k)) {
      var d :| d in w'.tasks && w'.tasks[d] == Rpc(DeleteIndex(k));
      assert w.tasks[d] == Rpc(DeleteIndex(k));
    }
  }

  lemma MoveBackedIff(w: World, mv: Move)
    requires IndexesBacked(w)
    ensures IndexesBacked(MoveStep(w, mv)) <==> WriteBacked(w, mv)
  {
    hide MoveStep, IndexWrite, Backed;
    var w' := MoveStep(w, mv);
    forall k
      ensures k in w'.s.indexes && Backed(w, k) ==> Backed(w', k)
      ensures k in w'.s.indexes && k !in w.s.indexes ==> IndexWrite(w, mv) == Some(k)
      ensures IndexWrite(w, mv) == Some(k) ==> k in w'.s.indexes && (Backed(w', k) <==> Backed(w, k))
    {
      MoveEffect(w, mv, k);
      BackedMeans(w, k);
      BackedMeans(w', k);
    }
  }

  lemma BackedMeans(w: World, k: BackendKey)
    ensures Backed(w, k) <==> k in w.s.backends || BetweenRemovals(w, k)
  {
  }

  /** In every state of the run each index has a list, or a Delete about to remove it. */
  ghost predicate AlwaysBacked(w: World, moves: seq<Move>)
    decreases |moves|
  {
    IndexesBacked(w) && (moves == [] || AlwaysBacked(MoveStep(w, moves[0]), moves[1..]))
  }

  /** Every index write of the run finds a list, or such a Delete. */
  ghost predicate WritesBacked(w: World, moves: seq<Move>)
    decreases |moves|
  {
    moves == [] || (WriteBacked(w, moves[0]) && WritesBacked(MoveStep(w, moves[0]), moves[1..]))
  }

  lemma {:induction false} BackedIff(w: World, moves: seq<Move>)
    requires IndexesBacked(w)
    ensures AlwaysBacked(w, moves) <==> WritesBacked(w, moves)
    decreases |moves|
  {
    if moves != [] {
      hide IndexesBacked, WriteBacked, MoveStep;
      MoveBackedIff(w, moves[0]);
      if WriteBacked(w, moves[0]) {
        BackedIff(MoveStep(w, moves[0]), moves[1..]);
      } else {
        NotAlways(MoveStep(w, moves[0]), moves[1..]);
      }
    }
  }

  lemma NotAlways(w: World, moves: seq<Move>)
    requires !IndexesBacked(w)
    ensures !AlwaysBacked(w, moves)
  {
  }

  /**
   * Over every interleaved run from empty maps: outside a Delete between its two removals, every
   * index has a list throughout, if and only if every index write, by an Update or by a packet,
   * finds the VIP in BACKENDS or such a Delete under way. Taking RPCs one at a time is not enough.
   */
  lemma IndexesBackedIff(moves: seq<Move>)
    ensures AlwaysBacked(IDLE, moves) <==> WritesBacked(IDLE, moves)
  {
    BackedIff(IDLE, moves);
  }

  /** The VIP a task has found or installed a list for, on its way to the index write. */
  function Holds(t: Task): Option<BackendKey> {
    match t
    case Tcp(tcp) =>
      if tcp.TcpGetIndex? then Some(tcp.vip) else if tcp.TcpAdvance? then Some(tcp.m.key) else None
    case Udp(udp) =>
      if udp.UdpGetIndex? then Some(udp.vip)
      else if udp.UdpRecord? then Some(udp.m.key)
      else if udp.UdpAdvance? then Some(udp.key)
      else None
    case Rpc(rpc) => if rpc.UpdateIndex? then Some(rpc.key) else None
    case Done => None
  }

  ghost predicate HolderListed(s: State, t: Task) {
    Holds(t).Some? ==> Holds(t).value in s.backends
  }

  ghost predicate HoldersListed(w: World) {
    forall id :: id in w.tasks ==> HolderListed(w.s, w.tasks[id])
  }

  /** A Delete takes the list away only while no task is on its way to that VIP's index write. */
  ghost predicate QuietRemoval(w: World, mv: Move) {
    mv.Go? && mv.id in w.tasks && w.tasks[mv.id].Rpc? && w.tasks[mv.id].rpc.DeleteList? ==>
      forall id :: id in w.tasks ==> Holds(w.tasks[id]) != Some(w.tasks[mv.id].rpc.vip)
  }

  ghost predicate QuietRemovals(w: World, moves: seq<Move>)
    decreases |moves|
  {
    moves == [] || (QuietRemoval(w, moves[0]) && QuietRemovals(MoveStep(w, moves[0]), moves[1..]))
  }

  lemma TcpHolds(s: State, t: TcpTask)
    requires HolderListed(s, Tcp(t))
    ensures var (s', t') := TcpMicro(s, t); s'.backends == s.backends && HolderListed(s', t')
  {
    hide UpdateConns, NextIndex;
  }

  lemma UdpHolds(s: State, t: UdpTask)
    requires HolderListed(s, Udp(t))
    ensures var (s', t') := UdpMicro(s, t); s'.backends == s.backends && HolderListed(s', t')
  {
    hide NextIndex;
  }

  lemma RpcHolds(s: State, t: RpcTask, pick: ClientKey)
    requires HolderListed(s, Rpc(t))
    ensures var (s', t') := RpcMicro(s, t, pick);
            && HolderListed(s', t')
            && forall k :: k in s.backends && k !in s'.backends ==> t == DeleteList(k)
  {
  }

  lemma MicroHolds(s: State, t: Task, pick: ClientKey)
    requires HolderListed(s, t)
    ensures var (s', t') := Micro(s, t, pick);
            && HolderListed(s', t')
            && forall k :: k in s.backends && k !in s'.backends ==> t == Rpc(DeleteList(k))
  {
    hide TcpMicro, UdpMicro, RpcMicro, HolderListed;
    match t
    case Tcp(tcp) => TcpHolds(s, tcp);
    case Udp(udp) => UdpHolds(s, udp);
    case Rpc(rpc) => RpcHolds(s, rpc, pick);
    case Done =>
  }

  lemma QuietMove(w: World, mv: Move)
    requires HoldersListed(w) && QuietRemoval(w, mv)
    ensures HoldersListed(MoveStep(w, mv)) && WriteBacked(w, mv)
  {
    hide Micro, BuildList;
    if mv.Go? && mv.id in w.tasks {
      var t := w.tasks[mv.id];
      MicroHolds(w.s, t, mv.pick);
      assert IndexTarget(t).Some? ==> Holds(t) == IndexTarget(t);
    }
  }

  /** A schedule whose removals are all quiet never leaves an index without a list. */
  lemma {:induction false} QuietRemovalsKeepBacked(w: World, moves: seq<Move>)
    requires IndexesBacked(w) && HoldersListed(w) && QuietRemovals(w, moves)
    ensures AlwaysBacked(w, moves)
    decreases |moves|
  {
    if moves != [] {
      hide IndexesBacked, HoldersListed, QuietRemoval, WriteBacked, MoveStep;
      QuietMove(w, moves[0]);
      MoveBackedIff(w, moves[0]);
      QuietRemovalsKeepBacked(MoveStep(w, moves[0]), moves[1..]);
    }
  }

  /** The Update case: whenever a whole Delete falls between its two writes, an index without a list remains. */
  lemma DeleteInsideUpdateMisaligns(s: State, vip: BackendKey, ts: seq<Target>, list: BackendList, c: ClientKey)
    requires MapsAligned(s) && vip in s.backends
    ensures var s1 := RpcMicro(s, UpdateList(vip, ts, list), c).0;
            var s2 := DeleteRpc(s1, vip).0;
            var s3 := RpcMicro(s2, UpdateIndex(vip), c).0;
            MapsAligned(s1) && MapsAligned(s2) && vip in s3.indexes && vip !in s3.backends
  {
    var s1 := s.(backends := s.backends[vip := list]);
    assert s1.backends.Keys == s.backends.Keys;
    assert |s1.backends| == |s1.backends.Keys| && |s.backends| == |s.backends.Keys|;
    DeleteLeavesRoom(s1, vip);
  }

  /** The packet case: a whole Delete falls between a packet's choice and its index write. */
  lemma DeleteInsidePacketMisaligns(s: State, vip: BackendKey, next: u16, c: ClientKey, fl: TcpFlags, m: Mapping)
    requires MapsAligned(s) && vip in s.backends && m.key == vip
    ensures var s1 := DeleteRpc(s, vip).0;
            var udp := UdpMicro(s1, UdpAdvance(vip, next)).0;
            var tcp := TcpMicro(s1, TcpAdvance(c, fl, true, m, next)).0;
            && MapsAligned(s1)
            && vip in udp.indexes && vip !in udp.backends
            && vip in tcp.indexes && vip !in tcp.backends
  {
    DeleteLeavesRoom(s, vip);
  }

  lemma DeleteLeavesRoom(s: State, vip: BackendKey)
    requires MapsAligned(s) && vip in s.backends
    ensures var s' := DeleteRpc(s, vip).0;
            MapsAligned(s') && vip !in s'.backends && vip !in s'.indexes && CanInsert(s'.indexes, vip)
  {
    hide Unbound;
    var s' := DeleteRpc(s, vip).0;
    assert s'.indexes.Keys == s.indexes.Keys - {vip};
    assert |s'.indexes| == |s'.indexes.Keys| && |s.indexes| == |s.indexes.Keys| && |s.backends| == |s.backends.Keys|;
    assert |s'.backends| == |s'.backends.Keys|;
    UnboundIsSmaller(s.conns, vip);
  }

  lemma UnboundIsSmaller(conns: map<ClientKey, Mapping>, vip: BackendKey)
    ensures |Unbound(conns, vip)| <= |conns|
  {
    RemovalShrinks(conns, Unbound(conns, vip));
  }
}
