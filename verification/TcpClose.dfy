/** How tracked TCP connections go away. */
module TcpClose {
  import opened Types
  import opened Tracker
  import opened Machine
  import opened Invariant
  import opened Affinity

  /** Rank of the tracked state of a client; entries without a TCP state count as open. */
  function RankOf(s: State, c: ClientKey): nat
    requires c in s.conns
  {
    if s.conns[c].tcpState.Some? then Rank(s.conns[c].tcpState.value) else 0
  }

  predicate IsAck(e: Event, c: ClientKey) {
    ConcernsTcp(e, c) && e.flags.ack
  }

  predicate IsFin(e: Event, c: ClientKey) {
    ConcernsTcp(e, c) && e.flags.fin
  }

  function Acks(es: seq<Event>, c: ClientKey): nat {
    if es == [] then 0 else (if IsAck(es[0], c) then 1 else 0) + Acks(es[1..], c)
  }

  /** How often the tracked state of a client is rewritten during a run. */
  function Rewrites(s: State, es: seq<Event>, c: ClientKey): nat
    requires TrackedThroughout(s, es, c)
    decreases |es|
  {
    if es == [] then 0
    else
      var s' := Step(s, es[0]);
      assert TrackedThroughout(s', es[1..], c);
      (if s'.conns[c].tcpState != s.conns[c].tcpState then 1 else 0) + Rewrites(s', es[1..], c)
  }

  /** What one of the client's own packets leaves behind. */
  lemma OwnPacketState(s: State, e: Event, c: ClientKey)
    requires |s.conns| <= CAPACITY
    requires c in s.conns && ConcernsTcp(e, c) && s.conns[c].tcpState.Some?
    ensures var st := s.conns[c].tcpState.value;
            var kept := Next(e.flags, st) != Closed && (e.flags.rst ==> Next(e.flags, st) != st);
            && (c in Step(s, e).conns <==> kept)
            && (kept ==> Step(s, e).conns[c].tcpState == Some(Next(e.flags, st)))
  {
    hide Next;
    assert (s.conns - {c}).Keys == s.conns.Keys - {c};
    assert |s.conns - {c}| == |(s.conns - {c}).Keys| && |s.conns| == |s.conns.Keys|;
  }

  /** The client is tracked, in this closing state. */
  predicate In(s: State, c: ClientKey, st: TcpState) {
    c in s.conns && s.conns[c].tcpState == Some(st)
  }

  /**
   * The closing sequence, seen from outside: what a packet of the client, in either direction and
   * without RST, does to its entry in every reachable state. The entry goes away exactly on an ACK
   * in TimeWait, and each state is entered or kept exactly as listed.
   */
  lemma ClosingSequence(s: State, e: Event, c: ClientKey)
    requires Inv(s) && c.port != 0 && c in s.conns && ConcernsTcp(e, c) && !e.flags.rst
    ensures var s', fin, ack := Step(s, e), e.flags.fin, e.flags.ack;
            && (c !in s'.conns <==> In(s, c, TimeWait) && ack)
            && (In(s', c, Established) <==> In(s, c, Established) && !fin)
            && (In(s', c, FinWait1) <==> (In(s, c, Established) && fin) || (In(s, c, FinWait1) && !fin && !ack))
            && (In(s', c, FinWait2) <==> (In(s, c, FinWait1) && !fin && ack) || (In(s, c, FinWait2) && !ack))
            && (In(s', c, Closing) <==> (In(s, c, FinWait1) && fin && !ack) || (In(s, c, Closing) && !ack))
            && (In(s', c, TimeWait) <==>
                  || (In(s, c, FinWait1) && fin && ack)
                  || ((In(s, c, FinWait2) || In(s, c, Closing)) && ack)
                  || (In(s, c, TimeWait) && !ack))
  {
    hide Step, Inv;
    TrackedState(s, c);
    OwnPacketState(s, e, c);
  }

  /**
   * RST is meant to drop the connection. It does so exactly when the same packet does not also move
   * the connection on to a later state before its end; otherwise the entry is inserted again, in
   * that state.
   */
  lemma ResetDropsUnlessAdvancing(s: State, e: Event, c: ClientKey)
    requires |s.conns| <= CAPACITY
    requires c in s.conns && ConcernsTcp(e, c) && e.flags.rst && s.conns[c].tcpState.Some?
    ensures var fin, ack := e.flags.fin, e.flags.ack;
            && (c in Step(s, e).conns <==>
                  || (In(s, c, Established) && fin)
                  || (In(s, c, FinWait1) && (fin || ack))
                  || ((In(s, c, FinWait2) || In(s, c, Closing)) && ack))
            && (c in Step(s, e).conns ==>
                  In(Step(s, e), c,
                     if In(s, c, Established) then FinWait1
                     else if In(s, c, FinWait1) && !ack then Closing
                     else if In(s, c, FinWait1) && !fin then FinWait2
                     else TimeWait))
  {
    hide Step;
    OwnPacketState(s, e, c);
  }

  /** What a packet with these flags does to the rank of a state that stays tracked. */
  lemma NextRank(fl: TcpFlags, st: TcpState)
    requires Next(fl, st) != Closed
    ensures Rank(Next(fl, st)) <= 3
    ensures Rank(st) + (if Next(fl, st) != st then 1 else 0) <= Rank(Next(fl, st))
    ensures fl.fin ==> 1 <= Rank(Next(fl, st))
    ensures fl.ack && 1 <= Rank(st) ==> Rank(st) + 1 <= Rank(Next(fl, st))
  {
  }

  lemma TrackedState(s: State, c: ClientKey)
    requires Inv(s) && c in s.conns && c.port != 0
    ensures s.conns[c].tcpState.Some? && RankOf(s, c) <= 3 && |s.conns| <= CAPACITY
  {
    assert MappingOk(s, c, s.conns[c]);
  }

  /** While a client stays tracked its rank never falls, rises with every change, and every ACK counts. */
  lemma StepRank(s: State, e: Event, c: ClientKey)
    requires Inv(s) && c.port != 0 && c in s.conns && c in Step(s, e).conns
    ensures s.conns[c].tcpState.Some? && Step(s, e).conns[c].tcpState.Some?
    ensures RankOf(Step(s, e), c) <= 3
    ensures RankOf(s, c) + (if Step(s, e).conns[c].tcpState != s.conns[c].tcpState then 1 else 0)
         <= RankOf(Step(s, e), c)
    ensures IsFin(e, c) ==> 1 <= RankOf(Step(s, e), c)
    ensures IsAck(e, c) && 1 <= RankOf(s, c) ==> RankOf(s, c) + 1 <= RankOf(Step(s, e), c)
  {
    hide Step, Inv, Next, Rank;
    TrackedState(s, c);
    if ConcernsTcp(e, c) {
      OwnPacketState(s, e, c);
      NextRank(e.flags, s.conns[c].tcpState.value);
    } else {
      ForeignStep(s, e, c);
    }
  }

  /** A connection's state is rewritten at most three times before its entry goes away. */
  lemma {:induction false} FewRewrites(s: State, es: seq<Event>, c: ClientKey)
    requires Inv(s) && c.port != 0 && TrackedThroughout(s, es, c)
    ensures c in Run(s, es).conns
    ensures RankOf(s, c) + Rewrites(s, es, c) <= RankOf(Run(s, es), c) <= 3
    ensures Rewrites(s, es, c) <= 3
    decreases |es|
  {
    hide Step;
    if es == [] {
      TrackedState(s, c);
    } else {
      StepKeepsInv(s, es[0]);
      StepRank(s, es[0], c);
      FewRewrites(Step(s, es[0]), es[1..], c);
    }
  }

  lemma {:induction false} AcksRaiseRank(s: State, es: seq<Event>, c: ClientKey)
    requires Inv(s) && c.port != 0 && TrackedThroughout(s, es, c) && 1 <= RankOf(s, c)
    ensures RankOf(s, c) + Acks(es, c) <= 3
    decreases |es|
  {
    hide Step;
    if es == [] {
      TrackedState(s, c);
    } else {
      StepKeepsInv(s, es[0]);
      StepRank(s, es[0], c);
      AcksRaiseRank(Step(s, es[0]), es[1..], c);
    }
  }

  /**
   * A FIN followed by three packets carrying ACK, in either direction and mixed with anything
   * else, always takes the entry away at some point of the run.
   */
  lemma FinThenThreeAcksRemoves(s: State, es: seq<Event>, c: ClientKey, f: nat)
    requires Inv(s) && c.port != 0
    requires f < |es| && IsFin(es[f], c) && Acks(es[f + 1..], c) >= 3
    ensures !TrackedThroughout(s, es, c)
  {
    hide Step;
    if TrackedThroughout(s, es, c) {
      var s1 := Run(s, es[..f]);
      TrackedPrefix(s, es, c, f);
      RunKeepsInv(s, es[..f]);
      var rest := es[f..];
      assert rest[0] == es[f] && rest[1..] == es[f + 1..];
      StepRank(s1, es[f], c);
      StepKeepsInv(s1, es[f]);
      AcksRaiseRank(Step(s1, es[f]), es[f + 1..], c);
    }
  }

  // ---------------------------------------------------------------------------
  // How many acknowledgements a close takes
  // ---------------------------------------------------------------------------

  /** Nothing but its own handshake ends the connection: no RST of the client, no Delete of its VIP. */
  predicate Leaves(e: Event, c: ClientKey, vip: BackendKey) {
    !(ConcernsTcp(e, c) && e.flags.rst) && e != Delete(vip)
  }

  /** Another FIN of the connection comes no later than its first ACK. */
  predicate FinByFirstAck(es: seq<Event>, c: ClientKey) {
    es != [] &&
    if IsFin(es[0], c) then true else if IsAck(es[0], c) then false else FinByFirstAck(es[1..], c)
  }

  /** ACKs needed to end a connection in this closing state. */
  function AcksNeeded(st: TcpState, es: seq<Event>, c: ClientKey): nat {
    match st
    case FinWait1 => if FinByFirstAck(es, c) then 2 else 3
    case TimeWait => 1
    case _ => 2
  }

  /** A step that leaves the connection alone keeps its entry as it is. */
  lemma LeftAlone(s: State, e: Event, c: ClientKey)
    requires c.port != 0 && c in s.conns && !ConcernsTcp(e, c) && Leaves(e, c, s.conns[c].key)
    ensures c in Step(s, e).conns && Step(s, e).conns[c] == s.conns[c]
  {
    hide Collect;
    if e.TcpIn? || e.TcpOut? {
      OtherTcpPacket(s, e, c);
    }
  }

  lemma {:induction false} TrackedUntilAcks(s: State, es: seq<Event>, c: ClientKey, st: TcpState)
    requires Inv(s) && c.port != 0 && In(s, c, st) && st != Established
    requires forall i :: 0 <= i < |es| ==> Leaves(es[i], c, s.conns[c].key)
    ensures TrackedThroughout(s, es, c) <==> Acks(es, c) < AcksNeeded(st, es, c)
    decreases |es|
  {
    hide Step, Inv;
    TrackedState(s, c);
    if es != [] {
      var e, s' := es[0], Step(s, es[0]);
      StepKeepsInv(s, e);
      if ConcernsTcp(e, c) {
        ClosingSequence(s, e, c);
        if c in s'.conns {
          StepBinding(s, e, c);
          OwnPacketState(s, e, c);
          TrackedUntilAcks(s', es[1..], c, s'.conns[c].tcpState.value);
        }
      } else {
        LeftAlone(s, e, c);
        TrackedUntilAcks(s', es[1..], c, st);
      }
    }
  }

  lemma {:induction false} OpenUntilFin(s: State, es: seq<Event>, c: ClientKey)
    requires Inv(s) && c.port != 0 && In(s, c, Established)
    requires forall i :: 0 <= i < |es| ==> Leaves(es[i], c, s.conns[c].key) && !IsFin(es[i], c)
    ensures Inv(Run(s, es)) && In(Run(s, es), c, Established) && Run(s, es).conns[c].key == s.conns[c].key
    ensures TrackedThroughout(s, es, c)
    decreases |es|
  {
    hide Step, Inv;
    if es != [] {
      var e, s' := es[0], Step(s, es[0]);
      StepKeepsInv(s, e);
      if ConcernsTcp(e, c) {
        ClosingSequence(s, e, c);
        StepBinding(s, e, c);
      } else {
        LeftAlone(s, e, c);
      }
      OpenUntilFin(s', es[1..], c);
    }
  }

  lemma {:induction false} TrackedJoin(s: State, first: seq<Event>, rest: seq<Event>, c: ClientKey)
    requires TrackedThroughout(s, first, c)
    ensures TrackedThroughout(s, first + rest, c) <==> TrackedThroughout(Run(s, first), rest, c)
    decreases |first|
  {
    hide Step;
    if first == [] {
      assert first + rest == rest;
    } else {
      TrackedJoin(Step(s, first[0]), first[1..], rest, c);
      assert (first + rest)[1..] == first[1..] + rest;
    }
  }

  /**
   * Exactly when an open connection that is neither reset nor deleted is over: after its first FIN,
   * at event f, it takes two ACKs if another FIN comes no later than the first of them, and three
   * otherwise. ACKs up to and including the packet with the first FIN do not count.
   */
  lemma ClosedExactly(s: State, es: seq<Event>, c: ClientKey, f: nat)
    requires Inv(s) && c.port != 0 && In(s, c, Established)
    requires forall i :: 0 <= i < |es| ==> Leaves(es[i], c, s.conns[c].key)
    requires f < |es| && IsFin(es[f], c) && forall i :: 0 <= i < f ==> !IsFin(es[i], c)
    ensures var after := es[f + 1..];
            TrackedThroughout(s, es, c) <==> Acks(after, c) < if FinByFirstAck(after, c) then 2 else 3
  {
    hide Step, Inv;
    var s1 := Run(s, es[..f]);
    OpenUntilFin(s, es[..f], c);
    assert es == es[..f] + es[f..] && es[f..][0] == es[f] && es[f..][1..] == es[f + 1..];
    TrackedJoin(s, es[..f], es[f..], c);
    ClosingSequence(s1, es[f], c);
    StepBinding(s1, es[f], c);
    StepKeepsInv(s1, es[f]);
    TrackedUntilAcks(Step(s1, es[f]), es[f + 1..], c, FinWait1);
  }
}
