/**
 * Runs from empty maps that end where a promise fails. Each is the concrete input for a condition
 * proved elsewhere for all inputs.
 */
module Witnesses {
  import opened Wire
  import opened Types
  import opened Tracker
  import opened Machine
  import opened Affinity
  import opened RoundRobin
  import opened DeleteProtocol
  import I = Interleaving

  const FIRST := Target(0x0A00_0001, 8080, Some(1), None)
  const SECOND := Target(0x0A00_0002, 8080, Some(1), None)

  const PAIR := Padded([ToBackend(FIRST), ToBackend(SECOND)])

  const PLAIN := TcpFlags(false, false, false)
  const FIN := TcpFlags(true, false, false)
  const ACK := TcpFlags(false, true, false)
  const FIN_ACK := TcpFlags(true, true, false)
  const RST := TcpFlags(false, false, true)
  const RST_ACK := TcpFlags(false, true, true)

  function Install(vip: BackendKey): Event {
    Update(Some(vip), [FIRST, SECOND])
  }

  lemma PairIsBuilt()
    ensures BuildList([FIRST, SECOND]) == Ok(PAIR)
  {
    CollectMeaning([FIRST, SECOND]);
    assert Collect([FIRST, SECOND]).value == [ToBackend(FIRST), ToBackend(SECOND)];
  }

  lemma Installed(s: State, vip: BackendKey)
    requires CanInsert(s.backends, vip) && CanInsert(s.indexes, vip)
    ensures Step(s, Install(vip)) == s.(backends := s.backends[vip := PAIR], indexes := s.indexes[vip := 0])
  {
    hide BuildList, Collect;
    PairIsBuilt();
  }

  /** One VIP installed, index at `i`. */
  function One(vip: BackendKey, i: u16, conns: map<ClientKey, Mapping>): State {
    State(map[vip := PAIR], map[vip := i], conns)
  }

  function Two(vip: BackendKey, i: u16, other: BackendKey, j: u16, conns: map<ClientKey, Mapping>): State {
    State(map[vip := PAIR, other := PAIR], map[vip := i, other := j], conns)
  }

  lemma {:induction false} Unroll(s: State, e: Event, es: seq<Event>)
    ensures Run(s, [e] + es) == Run(Step(s, e), es)
  {
    hide Step;
    assert ([e] + es)[1..] == es;
  }

  lemma NoEvents(s: State)
    ensures Run(s, []) == s
  {
  }

  lemma ThreeEvents(s: State, e1: Event, e2: Event, e3: Event, rest: seq<Event>)
    ensures Run(s, [e1, e2, e3] + rest) == Run(Step(Step(Step(s, e1), e2), e3), rest)
  {
    hide Step, Run;
    assert [e1, e2, e3] + rest == [e1] + ([e2] + ([e3] + rest));
    Unroll(s, e1, [e2] + ([e3] + rest));
    Unroll(Step(s, e1), e2, [e3] + rest);
    Unroll(Step(Step(s, e1), e2), e3, rest);
  }

  lemma OneInstalled(vip: BackendKey)
    ensures Step(EMPTY, Install(vip)) == One(vip, 0, map[])
  {
    Installed(EMPTY, vip);
  }

  lemma TwoInstalled(vip: BackendKey, other: BackendKey)
    requires vip != other
    ensures Step(Step(EMPTY, Install(vip)), Install(other)) == Two(vip, 0, other, 0, map[])
  {
    OneInstalled(vip);
    Installed(One(vip, 0, map[]), other);
  }

  // ---------------------------------------------------------------------------
  // Packets
  // ---------------------------------------------------------------------------

  /** The backend resets a connection its client is closing, and the entry stays. */
  lemma ResetSurvivor(vip: BackendKey, c: ClientKey)
    ensures var s := Run(EMPTY, [Install(vip), TcpIn(c, vip, FIN, true), TcpOut(c, RST_ACK)]);
            c in s.conns && s.conns[c].tcpState == Some(FinWait2)
  {
    var e1, e2, e3 := Install(vip), TcpIn(c, vip, FIN, true), TcpOut(c, RST_ACK);
    assert [e1, e2, e3] == [e1, e2, e3] + [];
    ThreeEvents(EMPTY, e1, e2, e3, []);
    OneInstalled(vip);
    assert Step(One(vip, 0, map[]), e2) == One(vip, 1, map[c := Mapping(ToBackend(FIRST), vip, Some(FinWait1))]);
  }

  /** The ordinary close: the client's FIN, the backend's FIN with ACK, and the last ACK removes the entry. */
  lemma OrdinaryClose(vip: BackendKey, c: ClientKey)
    ensures var es := [Install(vip), TcpIn(c, vip, PLAIN, true), TcpIn(c, vip, FIN, true)];
            && c in Run(EMPTY, es + [TcpOut(c, FIN_ACK)]).conns
            && c !in Run(EMPTY, es + [TcpOut(c, FIN_ACK), TcpIn(c, vip, ACK, true)]).conns
  {
    hide Step, Run;
    var e1, e2, e3, e4, e5 :=
      Install(vip), TcpIn(c, vip, PLAIN, true), TcpIn(c, vip, FIN, true), TcpOut(c, FIN_ACK), TcpIn(c, vip, ACK, true);
    ThreeEvents(EMPTY, e1, e2, e3, [e4]);
    ThreeEvents(EMPTY, e1, e2, e3, [e4, e5]);
    OneInstalled(vip);
    CloseSteps(vip, c);
    var s3 := One(vip, 1, map[c := Mapping(ToBackend(FIRST), vip, Some(FinWait1))]);
    assert [e4] == [e4] + [] && [e4, e5] == [e4] + ([e5] + []);
    Unroll(s3, e4, []);
    Unroll(s3, e4, [e5] + []);
    Unroll(Step(s3, e4), e5, []);
    NoEvents(Step(s3, e4));
    NoEvents(Step(Step(s3, e4), e5));
  }

  lemma CloseSteps(vip: BackendKey, c: ClientKey)
    ensures var m := Mapping(ToBackend(FIRST), vip, Some(Established));
            var s2, s3 := One(vip, 1, map[c := m]), One(vip, 1, map[c := m.(tcpState := Some(FinWait1))]);
            && Step(One(vip, 0, map[]), TcpIn(c, vip, PLAIN, true)) == s2
            && Step(s2, TcpIn(c, vip, FIN, true)) == s3
            && Step(s3, TcpOut(c, FIN_ACK)) == One(vip, 1, map[c := m.(tcpState := Some(TimeWait))])
            && c !in Step(Step(s3, TcpOut(c, FIN_ACK)), TcpIn(c, vip, ACK, true)).conns
  {
  }

  /** In TimeWait a plain RST still reaches the backend, but one with ACK goes nowhere. */
  lemma LastResetIsLost(vip: BackendKey, c: ClientKey)
    ensures var s := Run(EMPTY, [Install(vip), TcpIn(c, vip, PLAIN, true), TcpIn(c, vip, FIN, true)]
                                + [TcpOut(c, FIN_ACK)]);
            && Delivered(s, TcpIn(c, vip, RST, true)) == Some(Backend(0x0A00_0001, 8080, 1))
            && Delivered(s, TcpIn(c, vip, RST_ACK, true)).None?
  {
    hide Step, Run;
    var e1, e2, e3, e4 := Install(vip), TcpIn(c, vip, PLAIN, true), TcpIn(c, vip, FIN, true), TcpOut(c, FIN_ACK);
    ThreeEvents(EMPTY, e1, e2, e3, [e4]);
    OneInstalled(vip);
    CloseSteps(vip, c);
    var m := Mapping(ToBackend(FIRST), vip, Some(FinWait1));
    assert [e4] == [e4] + [];
    Unroll(One(vip, 1, map[c := m]), e4, []);
    NoEvents(One(vip, 1, map[c := m.(tcpState := Some(TimeWait))]));
  }

  /** A TCP client with source port 0 loses its binding to a datagram from the same address. */
  lemma PortZeroIsRebound(vip: BackendKey, other: BackendKey, ip: u32)
    requires vip != other
    ensures var c := ClientKey(ip, 0);
            var es := [Install(vip), Install(other), TcpIn(c, vip, PLAIN, true)];
            var s, s' := Run(EMPTY, es), Run(EMPTY, es + [UdpIn(ip, other, true)]);
            && c in s.conns && s.conns[c].key == vip && s.conns[c].tcpState == Some(Established)
            && c in s'.conns && s'.conns[c].key == other && s'.conns[c].tcpState.None?
  {
    hide Step, Run;
    var c := ClientKey(ip, 0);
    var e1, e2, e3, e4 := Install(vip), Install(other), TcpIn(c, vip, PLAIN, true), UdpIn(ip, other, true);
    ThreeEvents(EMPTY, e1, e2, e3, []);
    ThreeEvents(EMPTY, e1, e2, e3, [e4]);
    assert [e1, e2, e3] + [] == [e1, e2, e3];
    TwoInstalled(vip, other);
    PortZeroSteps(vip, other, ip);
    var s3 := Step(Two(vip, 0, other, 0, map[]), e3);
    NoEvents(s3);
    Unroll(s3, e4, []);
    NoEvents(Step(s3, e4));
    assert [e4] == [e4] + [];
  }

  lemma PortZeroSteps(vip: BackendKey, other: BackendKey, ip: u32)
    requires vip != other
    ensures var c := ClientKey(ip, 0);
            var s := Step(Two(vip, 0, other, 0, map[]), TcpIn(c, vip, PLAIN, true));
            && s == Two(vip, 1, other, 0, map[c := Mapping(ToBackend(FIRST), vip, Some(Established))])
            && var s' := Step(s, UdpIn(ip, other, true));
               c in s'.conns && s'.conns[c] == Mapping(ToBackend(FIRST), other, None)
  {
    hide Advance;
    var s := Two(vip, 0, other, 0, map[]);
    assert Advance(s, vip) == Two(vip, 1, other, 0, map[]) by {
      FirstTurn(vip, other);
    }
  }

  lemma FirstTurn(vip: BackendKey, other: BackendKey)
    requires vip != other
    ensures Advance(Two(vip, 0, other, 0, map[]), vip) == Two(vip, 1, other, 0, map[])
  {
  }

  /** A first packet that resets, or cannot be rewritten, uses up the turn of the first backend. */
  lemma TurnIsLost(vip: BackendKey, c: ClientKey)
    ensures var s := Run(EMPTY, [Install(vip)]);
            var rst, failing := TcpIn(c, vip, RST, true), TcpIn(c, vip, PLAIN, false);
            var retry := TcpIn(c, vip, PLAIN, true);
            && TakesTurn(s, rst, vip) && Delivered(s, rst).None?
            && TakesTurn(s, failing, vip) && Delivered(s, failing).None?
            && Delivered(s, retry) == Some(Backend(0x0A00_0001, 8080, 1))
            && Delivered(Step(s, rst), retry) == Delivered(Step(s, failing), retry)
            && Delivered(Step(s, rst), retry) == Some(Backend(0x0A00_0002, 8080, 1))
  {
    assert [Install(vip)] == [Install(vip)] + [];
    Unroll(EMPTY, Install(vip), []);
    OneInstalled(vip);
    var s := One(vip, 0, map[]);
    assert Step(s, TcpIn(c, vip, RST, true)) == One(vip, 1, map[]);
    assert Step(s, TcpIn(c, vip, PLAIN, false)) == One(vip, 1, map[]);
  }

  // ---------------------------------------------------------------------------
  // Delete
  // ---------------------------------------------------------------------------

  lemma UnrollActs(p: Progress, vip: BackendKey, a: Action, actions: seq<Action>)
    ensures Acts(p, vip, [a] + actions) == Acts(Act(p, vip, a), vip, actions)
  {
    hide Act;
    assert ([a] + actions)[1..] == actions;
  }

  /**
   * One of two clients resets its connection during the sweep: Delete fails, the other client stays
   * bound to a VIP without backends, and repeating Delete does not help.
   */
  lemma FailedSweepLeavesClients(vip: BackendKey, c: ClientKey, d: ClientKey)
    requires c != d
    ensures var s := Run(EMPTY, [Install(vip), TcpIn(c, vip, PLAIN, true), TcpIn(d, vip, PLAIN, true)]);
            var p := Acts(Begin(s, vip), vip, [Proceed(c), Proceed(c), Packet(TcpOut(c, RST)), Proceed(c)]);
            && p.phase == Finished(false)
            && vip !in p.s.backends && d in Bound(p.s, vip)
            && DeleteRpc(p.s, vip) == (p.s, Err(NotFound))
  {
    var e1, e2, e3 := Install(vip), TcpIn(c, vip, PLAIN, true), TcpIn(d, vip, PLAIN, true);
    assert [e1, e2, e3] == [e1, e2, e3] + [];
    ThreeEvents(EMPTY, e1, e2, e3, []);
    OneInstalled(vip);
    var s1 := One(vip, 0, map[]);
    var toFirst := Mapping(ToBackend(FIRST), vip, Some(Established));
    var toSecond := Mapping(ToBackend(SECOND), vip, Some(Established));
    var s2 := One(vip, 1, map[c := toFirst]);
    assert Step(s1, e2) == s2;
    var both := map[c := toFirst, d := toSecond];
    assert Step(s2, e3) == One(vip, 0, both);
    SweepFails(vip, c, d, both);
  }

  lemma SweepFails(vip: BackendKey, c: ClientKey, d: ClientKey, conns: map<ClientKey, Mapping>)
    requires c != d && c in conns && d in conns && conns[c].key == conns[d].key == vip
    requires conns[c].tcpState == Some(Established)
    ensures var p := Acts(Begin(One(vip, 0, conns), vip), vip,
                          [Proceed(c), Proceed(c), Packet(TcpOut(c, RST)), Proceed(c)]);
            p == Progress(State(map[], map[], conns - {c}), Finished(false)) && d in Bound(p.s, vip)
  {
    var go, reset := Proceed(c), Packet(TcpOut(c, RST));
    assert [go, go, reset, go] == [go] + ([go] + ([reset] + ([go] + [])));
    var p0 := Begin(One(vip, 0, conns), vip);
    UnrollActs(p0, vip, go, [go] + ([reset] + ([go] + [])));
    var p1 := Progress(State(map[], map[], conns), IndexGone);
    assert Act(p0, vip, go) == p1;
    UnrollActs(p1, vip, go, [reset] + ([go] + []));
    var p2 := Progress(p1.s, Sweeping(conns));
    UnrollActs(p2, vip, reset, [go] + []);
    var p3 := Progress(State(map[], map[], conns - {c}), Sweeping(conns));
    assert Act(p2, vip, reset) == p3;
    UnrollActs(p3, vip, go, []);
  }

  /** A client that turns to another VIP during the sweep loses its new entry, and Delete succeeds. */
  lemma ReboundClientIsSwept(vip: BackendKey, other: BackendKey, ip: u32)
    requires vip != other
    ensures var c := ClientKey(ip, 0);
            var s := Run(EMPTY, [Install(vip), Install(other), UdpIn(ip, vip, true)]);
            var p := Acts(Begin(s, vip), vip, [Proceed(c), Proceed(c), Packet(UdpIn(ip, other, true))]);
            var p' := Acts(p, vip, [Proceed(c), Proceed(c)]);
            && c in Bound(p.s, other)
            && p'.phase == Finished(true) && c !in p'.s.conns && other in p'.s.backends
  {
    var e1, e2, e3 := Install(vip), Install(other), UdpIn(ip, vip, true);
    hide Step, Acts, Run;
    assert [e1, e2, e3] == [e1, e2, e3] + [];
    ThreeEvents(EMPTY, e1, e2, e3, []);
    TwoInstalled(vip, other);
    FirstDatagram(vip, other, ip);
    NoEvents(Step(Two(vip, 0, other, 0, map[]), e3));
    AwayDuringSweep(vip, other, ip);
    SweptAnyway(vip, other, ip);
  }

  lemma FirstDatagram(vip: BackendKey, other: BackendKey, ip: u32)
    requires vip != other
    ensures Step(Two(vip, 0, other, 0, map[]), UdpIn(ip, vip, true)) ==
            Two(vip, 1, other, 0, map[ClientKey(ip, 0) := Mapping(ToBackend(FIRST), vip, None)])
  {
    hide Advance;
    FirstTurn(vip, other);
  }

  lemma AwayDuringSweep(vip: BackendKey, other: BackendKey, ip: u32)
    requires vip != other
    ensures var c := ClientKey(ip, 0);
            var snapshot := map[c := Mapping(ToBackend(FIRST), vip, None)];
            Acts(Begin(Two(vip, 1, other, 0, snapshot), vip), vip,
                 [Proceed(c), Proceed(c), Packet(UdpIn(ip, other, true))]) ==
            Progress(One(other, 1, map[c := Mapping(ToBackend(FIRST), other, None)]), Sweeping(snapshot))
  {
    var c := ClientKey(ip, 0);
    var snapshot := map[c := Mapping(ToBackend(FIRST), vip, None)];
    var go, away := Proceed(c), Packet(UdpIn(ip, other, true));
    assert [go, go, away] == [go] + ([go] + ([away] + []));
    var p0 := Begin(Two(vip, 1, other, 0, snapshot), vip);
    UnrollActs(p0, vip, go, [go] + ([away] + []));
    var left := One(other, 0, snapshot);
    assert Act(p0, vip, go) == Progress(left, IndexGone);
    UnrollActs(Progress(left, IndexGone), vip, go, [away] + []);
    UnrollActs(Progress(left, Sweeping(snapshot)), vip, away, []);
    assert Step(left, away.e) == One(other, 1, map[c := Mapping(ToBackend(FIRST), other, None)]);
  }

  lemma SweptAnyway(vip: BackendKey, other: BackendKey, ip: u32)
    ensures var c := ClientKey(ip, 0);
            var p := Progress(One(other, 1, map[c := Mapping(ToBackend(FIRST), other, None)]),
                              Sweeping(map[c := Mapping(ToBackend(FIRST), vip, None)]));
            Acts(p, vip, [Proceed(c), Proceed(c)]) == Progress(One(other, 1, map[]), Finished(true))
  {
    var c := ClientKey(ip, 0);
    var go := Proceed(c);
    var p := Progress(One(other, 1, map[c := Mapping(ToBackend(FIRST), other, None)]),
                      Sweeping(map[c := Mapping(ToBackend(FIRST), vip, None)]));
    assert [go, go] == [go] + ([go] + []);
    UnrollActs(p, vip, go, [go] + []);
    var done := Progress(One(other, 1, map[]), Sweeping(map[]));
    assert Act(p, vip, go) == done;
    UnrollActs(done, vip, go, []);
  }

  // ---------------------------------------------------------------------------
  // Interleaved map operations
  // ---------------------------------------------------------------------------

  lemma UnrollMoves(w: I.World, mv: I.Move, moves: seq<I.Move>)
    ensures I.Moves(w, [mv] + moves) == I.Moves(I.MoveStep(w, mv), moves)
  {
    hide I.MoveStep;
    assert ([mv] + moves)[1..] == moves;
  }

  lemma {:induction false} JoinMoves(w: I.World, first: seq<I.Move>, rest: seq<I.Move>)
    ensures I.Moves(w, first + rest) == I.Moves(I.Moves(w, first), rest)
    decreases |first|
  {
    hide I.MoveStep;
    if first == [] {
      assert first + rest == rest;
    } else {
      JoinMoves(I.MoveStep(w, first[0]), first[1..], rest);
      assert (first + rest)[1..] == first[1..] + rest;
    }
  }

  function After(s: State, tasks: map<nat, I.Task>, vip: BackendKey): I.World {
    I.World(s, tasks, {(vip, [FIRST, SECOND])})
  }

  lemma UpdateAlone(vip: BackendKey, c: ClientKey)
    ensures I.Moves(I.IDLE, [I.Arrive(0, Install(vip)), I.Go(0, c), I.Go(0, c)]) ==
            After(One(vip, 0, map[]), map[0 := I.Done], vip)
  {
    hide BuildList;
    PairIsBuilt();
    var arrive, go := I.Arrive(0, Install(vip)), I.Go(0, c);
    assert [arrive, go, go] == [arrive] + ([go] + ([go] + []));
    UnrollMoves(I.IDLE, arrive, [go] + ([go] + []));
    var w1 := I.World(EMPTY, map[0 := I.Rpc(I.UpdateList(vip, [FIRST, SECOND], PAIR))], {});
    assert I.MoveStep(I.IDLE, arrive) == w1;
    UnrollMoves(w1, go, [go] + []);
    var w2 := After(State(map[vip := PAIR], map[], map[]), map[0 := I.Rpc(I.UpdateIndex(vip))], vip);
    assert I.MoveStep(w1, go) == w2;
    UnrollMoves(w2, go, []);
  }

  lemma ArriveFirst(id: nat, e: Event, t: I.Task, s: State, tasks: map<nat, I.Task>, vip: BackendKey, rest: seq<I.Move>)
    requires id !in tasks && I.Start(e) == t
    ensures I.Moves(After(s, tasks, vip), [I.Arrive(id, e)] + rest) == I.Moves(After(s, tasks[id := t], vip), rest)
  {
    hide I.Start;
    UnrollMoves(After(s, tasks, vip), I.Arrive(id, e), rest);
  }

  /** One operation of task `id`, whatever else is in flight. */
  lemma GoOn(id: nat, s: State, t: I.Task, s': State, t': I.Task, tasks: map<nat, I.Task>, pick: ClientKey,
             vip: BackendKey, rest: seq<I.Move>)
    requires I.Installing(s, t) == {} && I.Micro(s, t, pick) == (s', t')
    ensures I.Moves(After(s, tasks[id := t], vip), [I.Go(id, pick)] + rest) ==
            I.Moves(After(s', tasks[id := t'], vip), rest)
  {
    hide I.Micro, I.Installing;
    var w := After(s, tasks[id := t], vip);
    UnrollMoves(w, I.Go(id, pick), rest);
    assert w.tasks[id := t'] == tasks[id := t'];
    assert I.MoveStep(w, I.Go(id, pick)) == After(s', tasks[id := t'], vip);
  }

  lemma DatagramSteps(vip: BackendKey, ip: u32, c: ClientKey)
    ensures var s, m := One(vip, 0, map[]), Mapping(ToBackend(FIRST), vip, None);
            && I.UdpMicro(s, I.UdpGetList(ip, vip, true)) == (s, I.Udp(I.UdpGetIndex(ip, vip, true, PAIR)))
            && I.UdpMicro(s, I.UdpGetIndex(ip, vip, true, PAIR)) == (s, I.Udp(I.UdpRecord(ip, true, m, 1)))
            && I.UdpMicro(s, I.UdpRecord(ip, true, m, 1)) ==
               (One(vip, 0, map[ClientKey(ip, 0) := m]), I.Udp(I.UdpAdvance(vip, 1)))
  {
  }

  lemma DatagramUpToAdvance(vip: BackendKey, ip: u32)
    ensures var c := ClientKey(ip, 0);
            I.Moves(After(One(vip, 0, map[]), map[0 := I.Done], vip),
                    [I.Arrive(1, UdpIn(ip, vip, true)), I.Go(1, c), I.Go(1, c), I.Go(1, c)]) ==
            After(One(vip, 0, map[c := Mapping(ToBackend(FIRST), vip, None)]),
                  map[0 := I.Done, 1 := I.Udp(I.UdpAdvance(vip, 1))], vip)
  {
    hide I.MoveStep, I.Moves, I.UdpMicro;
    var c := ClientKey(ip, 0);
    var m := Mapping(ToBackend(FIRST), vip, None);
    var arrive, go := I.Arrive(1, UdpIn(ip, vip, true)), I.Go(1, c);
    assert [arrive, go, go, go] == [arrive] + ([go] + ([go] + ([go] + [])));
    var s, tasks := One(vip, 0, map[]), map[0 := I.Done];
    var t1, t2, t3 := I.UdpGetList(ip, vip, true), I.UdpGetIndex(ip, vip, true, PAIR), I.UdpRecord(ip, true, m, 1);
    ArriveFirst(1, UdpIn(ip, vip, true), I.Udp(t1), s, tasks, vip, [go] + ([go] + ([go] + [])));
    DatagramSteps(vip, ip, c);
    var s', t4 := One(vip, 0, map[c := m]), I.Udp(I.UdpAdvance(vip, 1));
    GoOn(1, s, I.Udp(t1), s, I.Udp(t2), tasks, c, vip, [go] + ([go] + []));
    GoOn(1, s, I.Udp(t2), s, I.Udp(t3), tasks, c, vip, [go] + []);
    GoOn(1, s, I.Udp(t3), s', t4, tasks, c, vip, []);
    NoMoves(After(s', tasks[1 := t4], vip));
  }

  lemma DeleteRemoves(vip: BackendKey, c: ClientKey, m: Mapping, tasks: map<nat, I.Task>)
    requires m.key == vip && 2 !in tasks
    ensures I.Moves(After(One(vip, 0, map[c := m]), tasks, vip),
                    [I.Arrive(2, Delete(vip)), I.Go(2, c), I.Go(2, c), I.Go(2, c)]) ==
            After(State(map[], map[], map[c := m]), tasks[2 := I.Rpc(I.DeleteSweep(vip, map[c := m]))], vip)
  {
    hide I.MoveStep, I.Moves, I.RpcMicro;
    var arrive, go := I.Arrive(2, Delete(vip)), I.Go(2, c);
    assert [arrive, go, go, go] == [arrive] + ([go] + ([go] + ([go] + [])));
    var w0 := After(One(vip, 0, map[c := m]), tasks, vip);
    var t1, t2, t3 := I.Rpc(I.DeleteList(vip)), I.Rpc(I.DeleteIndex(vip)), I.Rpc(I.DeleteCollect(vip));
    var t4 := I.Rpc(I.DeleteSweep(vip, map[c := m]));
    ArriveFirst(2, Delete(vip), t1, w0.s, tasks, vip, [go] + ([go] + ([go] + [])));
    DeleteSteps(vip, c, m);
    var s2, s3 := State(map[], map[vip := 0], map[c := m]), State(map[], map[], map[c := m]);
    GoOn(2, w0.s, t1, s2, t2, tasks, c, vip, [go] + ([go] + []));
    GoOn(2, s2, t2, s3, t3, tasks, c, vip, [go] + []);
    GoOn(2, s3, t3, s3, t4, tasks, c, vip, []);
    NoMoves(After(s3, tasks[2 := t4], vip));
  }

  lemma DeleteSweeps(vip: BackendKey, c: ClientKey, m: Mapping, tasks: map<nat, I.Task>)
    requires m.key == vip
    ensures I.Moves(After(State(map[], map[], map[c := m]), tasks[2 := I.Rpc(I.DeleteSweep(vip, map[c := m]))], vip),
                    [I.Go(2, c), I.Go(2, c)]) ==
            After(EMPTY, tasks[2 := I.Done], vip)
  {
    hide I.MoveStep, I.Moves, I.RpcMicro;
    DeleteSteps(vip, c, m);
    var go := I.Go(2, c);
    assert [go, go] == [go] + ([go] + []);
    var s, t5 := State(map[], map[], map[c := m]), I.Rpc(I.DeleteSweep(vip, map[]));
    GoOn(2, s, I.Rpc(I.DeleteSweep(vip, map[c := m])), EMPTY, t5, tasks, c, vip, [go] + []);
    GoOn(2, EMPTY, t5, EMPTY, I.Done, tasks, c, vip, []);
    NoMoves(After(EMPTY, tasks[2 := I.Done], vip));
  }

  lemma DeleteSteps(vip: BackendKey, c: ClientKey, m: Mapping)
    requires m.key == vip
    ensures var conns := map[c := m];
            var s1, s2, s3 := One(vip, 0, conns), State(map[], map[vip := 0], conns), State(map[], map[], conns);
            && I.RpcMicro(s1, I.DeleteList(vip), c) == (s2, I.Rpc(I.DeleteIndex(vip)))
            && I.RpcMicro(s2, I.DeleteIndex(vip), c) == (s3, I.Rpc(I.DeleteCollect(vip)))
            && I.RpcMicro(s3, I.DeleteCollect(vip), c) == (s3, I.Rpc(I.DeleteSweep(vip, conns)))
            && I.RpcMicro(s3, I.DeleteSweep(vip, conns), c) == (EMPTY, I.Rpc(I.DeleteSweep(vip, map[])))
            && I.RpcMicro(EMPTY, I.DeleteSweep(vip, map[]), c) == (EMPTY, I.Done)
  {
    assert map[c := m] - {c} == map[];
  }

  lemma NoMoves(w: I.World)
    ensures I.Moves(w, []) == w
  {
  }

  /**
   * An Update runs to its end; a datagram runs up to its index write; a Delete runs to its end; the
   * datagram's write follows. No two RPCs overlap, nothing is left running, and the VIP has an
   * index without a list.
   */
  lemma LateIndexWrite(vip: BackendKey, ip: u32)
    ensures var c := ClientKey(ip, 0);
            var w := I.Moves(I.IDLE,
                             [I.Arrive(0, Install(vip)), I.Go(0, c), I.Go(0, c)]
                             + [I.Arrive(1, UdpIn(ip, vip, true)), I.Go(1, c), I.Go(1, c), I.Go(1, c)]
                             + [I.Arrive(2, Delete(vip)), I.Go(2, c), I.Go(2, c), I.Go(2, c)]
                             + [I.Go(2, c), I.Go(2, c)]
                             + [I.Go(1, c)]);
            && w.s == State(map[], map[vip := 1], map[])
            && w.tasks == map[0 := I.Done, 1 := I.Done, 2 := I.Done]
            && !I.IndexesBacked(w)
  {
    hide I.Moves, I.IndexesBacked;
    var c, m := ClientKey(ip, 0), Mapping(ToBackend(FIRST), vip, None);
    var a := [I.Arrive(0, Install(vip)), I.Go(0, c), I.Go(0, c)];
    var b := [I.Arrive(1, UdpIn(ip, vip, true)), I.Go(1, c), I.Go(1, c), I.Go(1, c)];
    var d := [I.Arrive(2, Delete(vip)), I.Go(2, c), I.Go(2, c), I.Go(2, c)];
    JoinMoves(I.IDLE, a + b + d + [I.Go(2, c), I.Go(2, c)], [I.Go(1, c)]);
    JoinMoves(I.IDLE, a + b + d, [I.Go(2, c), I.Go(2, c)]);
    JoinMoves(I.IDLE, a + b, d);
    JoinMoves(I.IDLE, a, b);
    UpdateAlone(vip, c);
    DatagramUpToAdvance(vip, ip);
    var tasks := map[0 := I.Done, 1 := I.Udp(I.UdpAdvance(vip, 1))];
    DeleteRemoves(vip, c, m, tasks);
    DeleteSweeps(vip, c, m, tasks);
    LastWrite(vip, c);
  }

  lemma LastWrite(vip: BackendKey, c: ClientKey)
    ensures var tasks := map[0 := I.Done, 1 := I.Udp(I.UdpAdvance(vip, 1)), 2 := I.Done];
            var w := I.Moves(After(EMPTY, tasks, vip), [I.Go(1, c)]);
            && w == After(State(map[], map[vip := 1], map[]), map[0 := I.Done, 1 := I.Done, 2 := I.Done], vip)
            && !I.IndexesBacked(w)
  {
    var w0 := After(EMPTY, map[0 := I.Done, 1 := I.Udp(I.UdpAdvance(vip, 1)), 2 := I.Done], vip);
    assert [I.Go(1, c)] == [I.Go(1, c)] + [];
    UnrollMoves(w0, I.Go(1, c), []);
    var w := After(State(map[], map[vip := 1], map[]), map[0 := I.Done, 1 := I.Done, 2 := I.Done], vip);
    assert I.MoveStep(w0, I.Go(1, c)) == w;
    assert vip in w.s.indexes && !I.Backed(w, vip);
  }
}
