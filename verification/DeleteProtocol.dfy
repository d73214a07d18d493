/** Delete as the separate removals it performs, with packets arriving in between. */
module DeleteProtocol {
  import opened Types
  import opened Machine
  import opened Invariant
  import opened Affinity

  /** Where a Delete stands once the VIP has left BACKENDS. The BACKENDS lock is held throughout. */
  datatype Phase =
    | BackendsGone
    | IndexGone
    | Sweeping(todo: map<ClientKey, Mapping>)
    | Finished(ok: bool)

  datatype Progress = Progress(s: State, phase: Phase)

  /**
   * `Packet` is any packet. `IndexReset` is the tail of an Update that wrote its list earlier; it
   * needs the GATEWAY_INDEXES lock, which Delete takes after its first phase. `Proceed` is the next
   * removal of Delete; while sweeping it treats `pick`, so every order of the snapshot is covered.
   */
  datatype Action =
    | Packet(e: Event)
    | IndexReset(key: BackendKey)
    | Proceed(pick: ClientKey)

  predicate IsPacket(e: Event) {
    e.TcpIn? || e.UdpIn? || e.TcpOut? || e.IcmpOut?
  }

  function Removal(p: Progress, vip: BackendKey, pick: ClientKey): Progress {
    var s := p.s;
    match p.phase
    case BackendsGone =>
      if vip in s.indexes then Progress(s.(indexes := s.indexes - {vip}), IndexGone)
      else Progress(s, Finished(false))
    case IndexGone => Progress(s, Sweeping(s.conns))
    case Sweeping(todo) =>
      if todo == map[] then Progress(s, Finished(true))
      else if pick !in todo then p
      else if todo[pick].key != vip then Progress(s, Sweeping(todo - {pick}))
      else if pick in s.conns then Progress(s.(conns := s.conns - {pick}), Sweeping(todo - {pick}))
      else Progress(s, Finished(false))
    case Finished(_) => p
  }

  function Act(p: Progress, vip: BackendKey, a: Action): Progress {
    match a
    case Packet(e) => if IsPacket(e) then p.(s := Step(p.s, e)) else p
    case IndexReset(key) =>
      if p.phase.BackendsGone? && CanInsert(p.s.indexes, key)
      then p.(s := p.s.(indexes := p.s.indexes[key := 0]))
      else p
    case Proceed(pick) => Removal(p, vip, pick)
  }

  function Acts(p: Progress, vip: BackendKey, actions: seq<Action>): Progress
    decreases |actions|
  {
    if actions == [] then p else Acts(Act(p, vip, actions[0]), vip, actions[1..])
  }

  /** Delete after its first removal. */
  function Begin(s: State, vip: BackendKey): Progress {
    Progress(s.(backends := s.backends - {vip}), BackendsGone)
  }

  /** The clients with a connection bound to the VIP. */
  function Bound(s: State, vip: BackendKey): set<ClientKey> {
    set c | c in s.conns && s.conns[c].key == vip
  }

  /** The snapshot still holds, marked for removal, every client that is bound. */
  predicate SweepCovers(p: Progress, vip: BackendKey) {
    match p.phase
    case Sweeping(todo) => forall c :: c in Bound(p.s, vip) ==> c in todo && todo[c].key == vip
    case Finished(ok) => ok ==> Bound(p.s, vip) == {}
    case _ => true
  }

  /** Without a backend list no packet can bind a client to the VIP. */
  lemma PacketsOnlyUnbind(s: State, e: Event, vip: BackendKey)
    requires vip !in s.backends && IsPacket(e)
    ensures vip !in Step(s, e).backends
    ensures Bound(Step(s, e), vip) <= Bound(s, vip)
  {
    hide Step;
    PacketsKeepBackends(s, e);
    forall c | c in Bound(Step(s, e), vip)
      ensures c in Bound(s, vip)
    {
      if c in s.conns {
        StepBinding(s, e, c);
        if Overwrites(s, e, c) && !SameBinding(s.conns[c], Step(s, e).conns[c]) {
          ForeignStep(s, e, c);
        }
      } else {
        NewEntry(s, e, c);
      }
    }
  }

  lemma PacketsKeepBackends(s: State, e: Event)
    requires IsPacket(e)
    ensures Step(s, e).backends == s.backends
  {
  }

  lemma ActKeeps(p: Progress, vip: BackendKey, a: Action)
    requires vip !in p.s.backends && SweepCovers(p, vip)
    ensures var p' := Act(p, vip, a);
            && vip !in p'.s.backends && SweepCovers(p', vip)
            && Bound(p'.s, vip) <= Bound(p.s, vip)
  {
    hide Step;
    if a.Packet? && IsPacket(a.e) {
      PacketsOnlyUnbind(p.s, a.e, vip);
    }
  }

  lemma {:induction false} ActsKeep(p: Progress, vip: BackendKey, actions: seq<Action>)
    requires vip !in p.s.backends && SweepCovers(p, vip)
    ensures var p' := Acts(p, vip, actions);
            && vip !in p'.s.backends && SweepCovers(p', vip)
            && Bound(p'.s, vip) <= Bound(p.s, vip)
    decreases |actions|
  {
    if actions != [] {
      hide Act, Bound, SweepCovers;
      ActKeeps(p, vip, actions[0]);
      ActsKeep(Act(p, vip, actions[0]), vip, actions[1..]);
    }
  }

  /**
   * However packets and a late index reset interleave with its removals: from the first removal on
   * the clients bound to the VIP only get fewer, and none is left when Delete reports success.
   */
  lemma DeleteIsComplete(s: State, vip: BackendKey, before: seq<Action>, after: seq<Action>)
    ensures var p := Acts(Begin(s, vip), vip, before);
            var p' := Acts(p, vip, after);
            && Bound(p'.s, vip) <= Bound(p.s, vip) <= Bound(s, vip)
            && (p'.phase == Finished(true) ==> Bound(p'.s, vip) == {})
  {
    hide Acts;
    ActsKeep(Begin(s, vip), vip, before);
    ActsKeep(Acts(Begin(s, vip), vip, before), vip, after);
  }

  // ---------------------------------------------------------------------------
  // Success and failure
  // ---------------------------------------------------------------------------

  /** The clients a sweep has still to remove. */
  function Listed(p: Progress, vip: BackendKey): set<ClientKey> {
    if p.phase.Sweeping? then set c | c in p.phase.todo && p.phase.todo[c].key == vip else {}
  }

  /** This removal finds nothing to remove. */
  predicate Misses(p: Progress, vip: BackendKey, a: Action) {
    a.Proceed? &&
    match p.phase
    case BackendsGone => vip !in p.s.indexes
    case Sweeping(_) => a.pick in Listed(p, vip) && a.pick !in p.s.conns
    case _ => false
  }

  predicate NeverMisses(p: Progress, vip: BackendKey, actions: seq<Action>)
    decreases |actions|
  {
    actions == [] || (!Misses(p, vip, actions[0]) && NeverMisses(Act(p, vip, actions[0]), vip, actions[1..]))
  }

  /** Over every run: Delete fails exactly if one of its removals comes too late. */
  lemma {:induction false} FailsIffMisses(p: Progress, vip: BackendKey, actions: seq<Action>)
    ensures Acts(p, vip, actions).phase == Finished(false) <==>
            p.phase == Finished(false) || !NeverMisses(p, vip, actions)
    decreases |actions|
  {
    if actions != [] {
      hide Step;
      FailsIffMisses(Act(p, vip, actions[0]), vip, actions[1..]);
    }
  }

  /** An ingress packet of the client. */
  predicate BringsBack(a: Action, c: ClientKey) {
    a.Packet? && (a.e.TcpIn? || a.e.UdpIn?) && Subject(a.e) == Some(c)
  }

  lemma LostStaysLost(p: Progress, vip: BackendKey, a: Action, c: ClientKey)
    requires c in Listed(p, vip) && c !in p.s.conns && !BringsBack(a, c)
    ensures var p' := Act(p, vip, a);
            p'.phase == Finished(false) || (c in Listed(p', vip) && c !in p'.s.conns)
  {
    hide Step;
    if a.Packet? && IsPacket(a.e) && c in Step(p.s, a.e).conns {
      NewEntry(p.s, a.e, c);
    }
  }

  /** Once a listed client is gone and sends nothing that brings it back, Delete cannot succeed any more. */
  lemma {:induction false} LostClientDooms(p: Progress, vip: BackendKey, actions: seq<Action>, c: ClientKey)
    requires p.phase == Finished(false) || (c in Listed(p, vip) && c !in p.s.conns)
    requires forall i :: 0 <= i < |actions| ==> !BringsBack(actions[i], c)
    ensures Acts(p, vip, actions).phase != Finished(true)
    decreases |actions|
  {
    if actions != [] {
      if p.phase != Finished(false) {
        LostStaysLost(p, vip, actions[0], c);
      }
      LostClientDooms(Act(p, vip, actions[0]), vip, actions[1..], c);
    }
  }

  /** No packet among the actions is one of these clients' own. */
  predicate SparedBy(clients: set<ClientKey>, a: Action) {
    a.Packet? && Subject(a.e).Some? ==> Subject(a.e).value !in clients
  }

  /** Every client still to be removed is there to be removed. */
  predicate AllPresent(p: Progress, vip: BackendKey) {
    p.phase != Finished(false) && Listed(p, vip) <= p.s.conns.Keys
  }

  lemma PresentStays(p: Progress, vip: BackendKey, a: Action)
    requires (p.phase.Sweeping? || p.phase.Finished?) && AllPresent(p, vip) && SparedBy(Listed(p, vip), a)
    ensures var p' := Act(p, vip, a);
            (p'.phase.Sweeping? || p'.phase.Finished?) && AllPresent(p', vip) && Listed(p', vip) <= Listed(p, vip)
  {
    hide Step;
    if a.Packet? && IsPacket(a.e) {
      forall c | c in Listed(p, vip)
        ensures c in Step(p.s, a.e).conns
      {
        PacketFrame(p.s, a.e, c);
      }
    }
  }

  lemma {:induction false} PresentToTheEnd(p: Progress, vip: BackendKey, actions: seq<Action>)
    requires (p.phase.Sweeping? || p.phase.Finished?) && AllPresent(p, vip)
    requires forall i :: 0 <= i < |actions| ==> SparedBy(Listed(p, vip), actions[i])
    ensures Acts(p, vip, actions).phase != Finished(false)
    decreases |actions|
  {
    if actions != [] {
      hide Act, Listed;
      PresentStays(p, vip, actions[0]);
      var p' := Act(p, vip, actions[0]);
      assert forall i :: 0 <= i < |actions[1..]| ==> SparedBy(Listed(p', vip), actions[1..][i]);
      PresentToTheEnd(p', vip, actions[1..]);
    }
  }

  /**
   * The outcome of a sweep that ends, as long as the listed clients send and receive nothing more:
   * it succeeds if and only if all of them are still tracked.
   */
  lemma SweepSucceedsIff(p: Progress, vip: BackendKey, actions: seq<Action>)
    requires p.phase.Sweeping? && Acts(p, vip, actions).phase.Finished?
    requires forall i :: 0 <= i < |actions| ==> SparedBy(Listed(p, vip), actions[i])
    ensures Acts(p, vip, actions).phase.ok <==> Listed(p, vip) <= p.s.conns.Keys
  {
    hide Acts;
    if Listed(p, vip) <= p.s.conns.Keys {
      PresentToTheEnd(p, vip, actions);
    } else {
      var c :| c in Listed(p, vip) && c !in p.s.conns;
      assert forall i :: 0 <= i < |actions| ==> SparedBy(Listed(p, vip), actions[i]) ==> !BringsBack(actions[i], c);
      LostClientDooms(p, vip, actions, c);
    }
  }

  /** What holds from the first removal on, for the clients `b` bound at the start. */
  predicate OnCourse(p: Progress, vip: BackendKey, b: set<ClientKey>) {
    && vip !in p.s.backends
    && Bound(p.s, vip) <= b && Listed(p, vip) <= b
  }

  lemma StaysOnCourse(p: Progress, vip: BackendKey, a: Action, b: set<ClientKey>)
    requires OnCourse(p, vip, b)
    ensures OnCourse(Act(p, vip, a), vip, b)
  {
    hide Step;
    if a.Packet? && IsPacket(a.e) {
      PacketsOnlyUnbind(p.s, a.e, vip);
    }
  }

  lemma {:induction false} RunsOnCourse(p: Progress, vip: BackendKey, actions: seq<Action>, b: set<ClientKey>)
    requires OnCourse(p, vip, b)
    ensures OnCourse(Acts(p, vip, actions), vip, b)
    decreases |actions|
  {
    if actions != [] {
      hide Act, OnCourse;
      StaysOnCourse(p, vip, actions[0], b);
      RunsOnCourse(Act(p, vip, actions[0]), vip, actions[1..], b);
    }
  }

  /** Nothing has gone wrong and nothing can while the bound clients keep quiet. */
  predicate Smooth(p: Progress, vip: BackendKey) {
    (p.phase.BackendsGone? ==> vip in p.s.indexes) && AllPresent(p, vip)
  }

  lemma PacketsKeepIndexKeys(s: State, e: Event, vip: BackendKey)
    requires IsPacket(e) && vip in s.indexes
    ensures vip in Step(s, e).indexes
  {
  }

  lemma StaysSmooth(p: Progress, vip: BackendKey, a: Action, b: set<ClientKey>)
    requires OnCourse(p, vip, b) && Smooth(p, vip) && SparedBy(b, a)
    ensures Smooth(Act(p, vip, a), vip)
  {
    if p.phase.Sweeping? || p.phase.Finished? {
      PresentStays(p, vip, a);
    } else {
      hide Step;
      if a.Packet? && IsPacket(a.e) && p.phase.BackendsGone? {
        PacketsKeepIndexKeys(p.s, a.e, vip);
      }
    }
  }

  lemma {:induction false} RunsSmooth(p: Progress, vip: BackendKey, actions: seq<Action>, b: set<ClientKey>)
    requires OnCourse(p, vip, b) && Smooth(p, vip)
    requires forall i :: 0 <= i < |actions| ==> SparedBy(b, actions[i])
    ensures Smooth(Acts(p, vip, actions), vip)
    decreases |actions|
  {
    if actions != [] {
      hide Act, OnCourse, Smooth, SparedBy;
      StaysOnCourse(p, vip, actions[0], b);
      StaysSmooth(p, vip, actions[0], b);
      RunsSmooth(Act(p, vip, actions[0]), vip, actions[1..], b);
    }
  }

  /**
   * From the state before Delete: if the clients bound to the VIP send and receive nothing during
   * it, Delete cannot fail, whatever other packets and a late index reset come in between.
   */
  lemma QuietDeleteSucceeds(s: State, vip: BackendKey, actions: seq<Action>)
    requires Inv(s) && vip in s.backends
    requires forall i :: 0 <= i < |actions| ==> SparedBy(Bound(s, vip), actions[i])
    ensures Acts(Begin(s, vip), vip, actions).phase != Finished(false)
  {
    hide Acts, SparedBy;
    RunsSmooth(Begin(s, vip), vip, actions, Bound(s, vip));
  }

  /**
   * A Delete that overtakes the second write of an Update finds no index and fails at its second
   * removal, unless that write lands first; then the removal takes the index away again.
   */
  lemma LateResetRescues(s: State, vip: BackendKey, pick: ClientKey)
    requires vip in s.backends && vip !in s.indexes && |s.indexes| < CAPACITY
    ensures var p, p' := Acts(Begin(s, vip), vip, [Proceed(pick)]),
                         Acts(Begin(s, vip), vip, [IndexReset(vip), Proceed(pick)]);
            && p.phase == Finished(false) && p'.phase == IndexGone
            && p'.s == p.s == s.(backends := s.backends - {vip})
  {
    var p0, reset, go := Begin(s, vip), IndexReset(vip), Proceed(pick);
    assert [reset, go][1..] == [go] && [go][1..] == [];
    assert Acts(p0, vip, [go]) == Act(p0, vip, go);
    var p1 := Act(p0, vip, reset);
    assert Acts(p0, vip, [reset, go]) == Acts(p1, vip, [go]) == Act(p1, vip, go);
    assert s.indexes[vip := 0] - {vip} == s.indexes;
  }

  /** The list is gone; the index too once Delete is past its second removal. */
  predicate Gone(p: Progress, vip: BackendKey) {
    && vip !in p.s.backends
    && (p.phase.BackendsGone? || p.phase == Finished(false) || vip !in p.s.indexes)
  }

  lemma PacketsNeedAList(s: State, e: Event, vip: BackendKey)
    requires vip !in s.backends && vip !in s.indexes && IsPacket(e)
    ensures vip !in Step(s, e).indexes
  {
  }

  lemma {:induction false} StaysGone(p: Progress, vip: BackendKey, actions: seq<Action>)
    requires Gone(p, vip)
    ensures Gone(Acts(p, vip, actions), vip)
    decreases |actions|
  {
    if actions != [] {
      hide Step;
      var a := actions[0];
      if a.Packet? && IsPacket(a.e) {
        PacketsKeepBackends(p.s, a.e);
        if vip !in p.s.indexes {
          PacketsNeedAList(p.s, a.e, vip);
        }
      }
      StaysGone(Act(p, vip, a), vip, actions[1..]);
    }
  }

  /**
   * However packets and index resets interleave with it: from its second removal on, a Delete that
   * has not failed leaves no trace of the VIP in either map, and nothing brings one back.
   */
  lemma BothMapsStayClear(s: State, vip: BackendKey, actions: seq<Action>)
    ensures var p := Acts(Begin(s, vip), vip, actions);
            && vip !in p.s.backends
            && (p.phase.IndexGone? || p.phase.Sweeping? || p.phase == Finished(true) ==> vip !in p.s.indexes)
  {
    hide Acts;
    StaysGone(Begin(s, vip), vip, actions);
  }

  /** A repeated Delete cannot finish the work of a failed one: without a list it changes nothing. */
  lemma FailureIsFinal(s: State, vip: BackendKey, actions: seq<Action>)
    ensures var p := Acts(Begin(s, vip), vip, actions);
            DeleteRpc(p.s, vip) == (p.s, Err(NotFound))
  {
    hide Acts;
    RunsOnCourse(Begin(s, vip), vip, actions, Bound(s, vip));
  }

  // ---------------------------------------------------------------------------
  // Other clients
  // ---------------------------------------------------------------------------

  /**
   * The sweep removes by client, so it drops an entry of another VIP exactly when it treats a
   * listed client that has been bound elsewhere since the snapshot.
   */
  lemma DropsForeignIff(p: Progress, vip: BackendKey, pick: ClientKey)
    requires p.phase.Sweeping?
    ensures var p' := Act(p, vip, Proceed(pick));
            (exists c :: c in p.s.conns && p.s.conns[c].key != vip && c !in p'.s.conns) <==>
            (pick in Listed(p, vip) && pick in p.s.conns && p.s.conns[pick].key != vip)
  {
    var p' := Act(p, vip, Proceed(pick));
    if pick in Listed(p, vip) && pick in p.s.conns && p.s.conns[pick].key != vip {
      assert pick in p.phase.todo && p.phase.todo != map[];
      assert pick !in p'.s.conns;
    }
  }

  /** A client not bound to the VIP at the start of Delete is never touched by its removals. */
  lemma OthersUntouched(s: State, vip: BackendKey, actions: seq<Action>, pick: ClientKey, c: ClientKey)
    requires c !in Bound(s, vip)
    ensures var p := Acts(Begin(s, vip), vip, actions);
            var p' := Act(p, vip, Proceed(pick));
            (c in p'.s.conns <==> c in p.s.conns) && (c in p.s.conns ==> p'.s.conns[c] == p.s.conns[c])
  {
    hide Acts;
    RunsOnCourse(Begin(s, vip), vip, actions, Bound(s, vip));
  }

  // ---------------------------------------------------------------------------
  // Without interference
  // ---------------------------------------------------------------------------

  /** Progress of a Delete that started from `s0` and was not interrupted. */
  ghost predicate Undisturbed(s0: State, p: Progress, vip: BackendKey) {
    match p.phase
    case BackendsGone => p == Begin(s0, vip)
    case IndexGone => vip in s0.indexes && p.s == Begin(s0, vip).s.(indexes := s0.indexes - {vip})
    case Sweeping(todo) =>
      && vip in s0.indexes
      && p.s == Begin(s0, vip).s.(indexes := s0.indexes - {vip}, conns := p.s.conns)
      && (forall c :: c in todo ==> c in s0.conns && todo[c] == s0.conns[c])
      && (forall c :: c in p.s.conns <==> c in s0.conns && (c in todo || s0.conns[c].key != vip))
      && (forall c :: c in p.s.conns ==> p.s.conns[c] == s0.conns[c])
    case Finished(ok) => p.s == DeleteRpc(s0, vip).0 && (ok <==> DeleteRpc(s0, vip).1.Ok?)
  }

  lemma ProceedUndisturbed(s0: State, p: Progress, vip: BackendKey, pick: ClientKey)
    requires vip in s0.backends && Undisturbed(s0, p, vip)
    ensures Undisturbed(s0, Removal(p, vip, pick), vip)
  {
    if p.phase.Sweeping? && p.phase.todo == map[] {
      assert p.s.conns == Unbound(s0.conns, vip);
    }
  }

  lemma {:induction false} AloneStays(s0: State, p: Progress, vip: BackendKey, actions: seq<Action>)
    requires vip in s0.backends && Undisturbed(s0, p, vip)
    requires forall i :: 0 <= i < |actions| ==> actions[i].Proceed?
    ensures Undisturbed(s0, Acts(p, vip, actions), vip)
    decreases |actions|
  {
    if actions != [] {
      hide Removal, Undisturbed;
      ProceedUndisturbed(s0, p, vip, actions[0].pick);
      AloneStays(s0, Removal(p, vip, actions[0].pick), vip, actions[1..]);
    }
  }

  lemma {:induction false} FinishedStays(p: Progress, vip: BackendKey, actions: seq<Action>)
    requires p.phase.Finished?
    ensures Acts(p, vip, actions).phase == p.phase
    decreases |actions|
  {
    if actions != [] {
      hide Step;
      FinishedStays(Act(p, vip, actions[0]), vip, actions[1..]);
    }
  }

  /** A sweep that treats every client of its snapshot, and then one more time looks for work, ends. */
  lemma {:induction false} SweepEnds(p: Progress, vip: BackendKey, actions: seq<Action>)
    requires p.phase.Sweeping? && actions != []
    requires forall i :: 0 <= i < |actions| ==> actions[i].Proceed?
    requires forall c :: c in p.phase.todo ==> Proceed(c) in actions[..|actions| - 1]
    ensures Acts(p, vip, actions).phase.Finished?
    decreases |actions|
  {
    var p' := Act(p, vip, actions[0]);
    if p'.phase.Finished? {
      FinishedStays(p', vip, actions[1..]);
    } else {
      forall c | c in p'.phase.todo
        ensures Proceed(c) in actions[1..][..|actions| - 2]
      {
        var i :| 0 <= i < |actions| - 1 && actions[i] == Proceed(c);
        assert actions[1..][..|actions| - 2][i - 1] == Proceed(c);
      }
      SweepEnds(p', vip, actions[1..]);
    }
  }

  /**
   * Run alone, the separate removals end, in any order of the sweep, and come to the same result as
   * the atomic Delete: the first two removals, the collect, every tracked client, one last look.
   */
  lemma AloneIsAtomic(s: State, vip: BackendKey, actions: seq<Action>)
    requires vip in s.backends && |actions| >= 3
    requires forall i :: 0 <= i < |actions| ==> actions[i].Proceed?
    requires forall c :: c in s.conns ==> Proceed(c) in actions[2..][..|actions| - 3]
    ensures var (s', r) := DeleteRpc(s, vip);
            Acts(Begin(s, vip), vip, actions) == Progress(s', Finished(r.Ok?))
  {
    var p0 := Begin(s, vip);
    AloneStays(s, p0, vip, actions);
    var p1 := Act(p0, vip, actions[0]);
    var p2 := Act(p1, vip, actions[1]);
    assert actions[1..][1..] == actions[2..];
    assert Acts(p0, vip, actions) == Acts(p2, vip, actions[2..]);
    if p2.phase.Finished? {
      FinishedStays(p2, vip, actions[2..]);
    } else {
      SweepEnds(p2, vip, actions[2..]);
    }
  }
}
