/** Session affinity and address translation over whole runs. */
module Affinity {
  import opened Wire
  import opened Types
  import opened Tracker
  import opened Machine
  import opened Invariant
  import opened DataPlane

  /** Client `c` is tracked before the run and after each of its steps. */
  ghost predicate TrackedThroughout(s: State, es: seq<Event>, c: ClientKey)
    decreases |es|
  {
    c in s.conns && (es == [] || TrackedThroughout(Step(s, es[0]), es[1..], c))
  }

  predicate SameBinding(m: Mapping, m': Mapping) {
    m'.backend == m.backend && m'.key == m.key
  }

  /** A datagram from this address replaces the entry, which happens only to keys with port 0. */
  predicate Overwrites(s: State, e: Event, c: ClientKey) {
    e.UdpIn? && c == ClientKey(e.clientIp, 0) && Selectable(s, e.vip)
  }

  predicate ConcernsTcp(e: Event, c: ClientKey) {
    (e.TcpIn? || e.TcpOut?) && e.client == c
  }

  // ---------------------------------------------------------------------------
  // One step
  // ---------------------------------------------------------------------------

  /** A tracked client that stays tracked through its own TCP packet has its entry advanced. */
  lemma OwnPacket(s: State, e: Event, c: ClientKey)
    requires c in s.conns && ConcernsTcp(e, c)
    ensures Step(s, e) == s.(conns := RstAndUpdate(s.conns, c, s.conns[c], e.flags).conns)
  {
  }

  lemma OtherTcpPacket(s: State, e: Event, c: ClientKey)
    requires (e.TcpIn? || e.TcpOut?) && e.client != c
    ensures c in Step(s, e).conns <==> c in s.conns
    ensures c in s.conns ==> Step(s, e).conns[c] == s.conns[c]
  {
    hide RstAndUpdate;
    var d := e.client;
    if d in s.conns {
      RstAndUpdateShape(s.conns, d, s.conns[d], e.flags);
    } else if e.TcpIn? && Selectable(s, e.vip) {
      RstAndUpdateShape(s.conns, d, NewMapping(s, e.vip), e.flags);
    }
  }

  /** Steps other than the client's own TCP packets keep, drop or (for port 0) overwrite its entry. */
  lemma ForeignStep(s: State, e: Event, c: ClientKey)
    requires c in s.conns && !ConcernsTcp(e, c) && c in Step(s, e).conns
    ensures if Overwrites(s, e, c) then Step(s, e).conns[c] == Mapping(Pick(s, e.vip), e.vip, None)
            else Step(s, e).conns[c] == s.conns[c]
  {
    hide Collect;
    if e.TcpIn? || e.TcpOut? {
      OtherTcpPacket(s, e, c);
    }
  }

  /** For every client and step: a surviving entry is rebound exactly by a differing overwrite. */
  lemma StepBinding(s: State, e: Event, c: ClientKey)
    requires c in s.conns && c in Step(s, e).conns
    ensures SameBinding(s.conns[c], Step(s, e).conns[c]) <==>
            (Overwrites(s, e, c) ==> Pick(s, e.vip) == s.conns[c].backend && e.vip == s.conns[c].key)
  {
    hide RstAndUpdate, Step;
    if ConcernsTcp(e, c) {
      OwnPacket(s, e, c);
      RstAndUpdateShape(s.conns, c, s.conns[c], e.flags);
    } else {
      ForeignStep(s, e, c);
    }
  }

  lemma {:induction false} RunBinding(s: State, es: seq<Event>, c: ClientKey)
    requires c.port != 0 && TrackedThroughout(s, es, c)
    ensures c in Run(s, es).conns && SameBinding(s.conns[c], Run(s, es).conns[c])
    decreases |es|
  {
    if es != [] {
      hide Step;
      StepBinding(s, es[0], c);
      RunBinding(Step(s, es[0]), es[1..], c);
    }
  }

  lemma {:induction false} TrackedPrefix(s: State, es: seq<Event>, c: ClientKey, i: nat)
    requires TrackedThroughout(s, es, c) && i <= |es|
    ensures TrackedThroughout(s, es[..i], c)
    ensures TrackedThroughout(Run(s, es[..i]), es[i..], c)
    decreases i
  {
    hide Step;
    if i == 0 {
      assert es[..0] == [] && es[0..] == es;
    } else {
      TrackedPrefix(Step(s, es[0]), es[1..], c, i - 1);
      assert es[..i][1..] == es[1..][..i - 1] && es[i..] == es[1..][i - 1..];
    }
  }

  /** A packet of a tracked client goes to the recorded backend, or nowhere if it resets the connection. */
  lemma TrackedForward(s: State, e: Event)
    requires e.TcpIn? && e.client in s.conns
    ensures Forwarded(s, e) == Some(s.conns[e.client].backend) || (Forwarded(s, e).None? && e.flags.rst)
  {
  }

  /**
   * Where an ingress packet is sent, in every reachable state. A tracked client's packet, RST
   * included, goes to the recorded backend, unless the same packet both resets the connection and
   * acknowledges its last step: then its entry is removed twice, which fails. Any other packet to a
   * served VIP goes to the backend in turn, unless it opens a connection with RST, or with FIN while
   * tracking is full.
   */
  lemma ForwardedExactly(s: State, e: Event)
    requires Inv(s)
    ensures Forwarded(s, e) ==
            if e.TcpIn? && e.client in s.conns then
              var m := s.conns[e.client];
              if e.flags.rst && e.flags.ack && m.tcpState == Some(TimeWait) then None else Some(m.backend)
            else if
              && (e.TcpIn? || e.UdpIn?) && e.vip in s.backends && s.backends[e.vip].backendsLen > 0
              && (e.TcpIn? ==> !e.flags.rst && (e.flags.fin ==> |s.conns| < 128))
            then Some(s.backends[e.vip].backends[s.indexes[e.vip]])
            else None
  {
    if e.TcpIn? && e.client in s.conns {
      TrackedForwardExactly(s, e);
    } else if e.TcpIn? || e.UdpIn? {
      SelectableIff(s, e.vip);
    }
  }

  lemma TrackedForwardExactly(s: State, e: Event)
    requires e.TcpIn? && e.client in s.conns && |s.conns| <= CAPACITY && s.conns[e.client].tcpState != Some(Closed)
    ensures var m := s.conns[e.client];
            Forwarded(s, e) ==
            if e.flags.rst && e.flags.ack && m.tcpState == Some(TimeWait) then None else Some(m.backend)
  {
    var c := e.client;
    assert (s.conns - {c}).Keys == s.conns.Keys - {c};
    assert |s.conns - {c}| == |(s.conns - {c}).Keys| && |s.conns| == |s.conns.Keys|;
  }

  /** An entry only ever appears for a packet to a selectable VIP, and is bound to the slot in turn. */
  lemma NewEntry(s: State, e: Event, c: ClientKey)
    requires c !in s.conns && c in Step(s, e).conns
    ensures (e.TcpIn? && e.client == c) || (e.UdpIn? && c == ClientKey(e.clientIp, 0))
    ensures Selectable(s, e.vip) && SameBinding(NewMapping(s, e.vip), Step(s, e).conns[c])
  {
    hide RstAndUpdate, Collect;
    if e.TcpIn? && e.client == c && Selectable(s, e.vip) {
      RstAndUpdateShape(s.conns, c, NewMapping(s, e.vip), e.flags);
    } else if (e.TcpIn? || e.TcpOut?) && e.client != c {
      OtherTcpPacket(s, e, c);
    }
  }

  /** The key under which a packet may be tracked. */
  function Subject(e: Event): Option<ClientKey> {
    match e
    case TcpIn(c, _, _, _) => Some(c)
    case TcpOut(c, _) => Some(c)
    case UdpIn(ip, _, _) => Some(ClientKey(ip, 0))
    case IcmpOut(ip, _, _) => Some(ClientKey(ip, 0))
    case _ => None
  }

  /** No packet touches any entry but its own. */
  lemma PacketFrame(s: State, e: Event, c: ClientKey)
    requires Subject(e).Some? && Subject(e) != Some(c)
    ensures c in Step(s, e).conns <==> c in s.conns
    ensures c in s.conns ==> Step(s, e).conns[c] == s.conns[c]
  {
    if e.TcpIn? || e.TcpOut? {
      OtherTcpPacket(s, e, c);
    }
  }

  /** Exactly when a first TCP packet is recorded: with FIN this happens before the packet is rewritten. */
  lemma NewConnectionRecorded(s: State, e: Event)
    requires e.TcpIn? && e.client !in s.conns
    ensures var c, s' := e.client, Step(s, e);
            && (c in s'.conns <==>
                  Selectable(s, e.vip) && !e.flags.rst && CanInsert(s.conns, c) && (e.rewritten || e.flags.fin))
            && (c in s'.conns ==>
                  s'.conns[c] == Mapping(s.backends[e.vip].backends[s.indexes[e.vip]], e.vip,
                                         Some(if e.flags.fin then FinWait1 else Established)))
  {
  }

  // ---------------------------------------------------------------------------
  // Whole sessions
  // ---------------------------------------------------------------------------

  /**
   * From the packet that creates an entry until the entry goes away, every packet of that client
   * is sent to the backend chosen at creation, whatever else happens in between. In reachable states
   * the only packet that goes nowhere is one with RST and ACK in TimeWait.
   */
  lemma SessionAffinity(s: State, e0: Event, es: seq<Event>, c: ClientKey, i: nat)
    requires c.port != 0 && c !in s.conns
    requires TrackedThroughout(Step(s, e0), es, c)
    ensures e0.TcpIn? && e0.client == c && Selectable(s, e0.vip)
    ensures c in Run(Step(s, e0), es).conns
    ensures SameBinding(NewMapping(s, e0.vip), Run(Step(s, e0), es).conns[c])
    ensures i < |es| && es[i].TcpIn? && es[i].client == c ==>
              var to := Forwarded(Run(Step(s, e0), es[..i]), es[i]);
              to == Some(Pick(s, e0.vip)) || (to.None? && es[i].flags.rst)
    ensures Inv(s) && i < |es| && es[i].TcpIn? && es[i].client == c ==>
              var si := Run(Step(s, e0), es[..i]);
              && c in si.conns
              && Forwarded(si, es[i]) ==
                 if es[i].flags.rst && es[i].flags.ack && si.conns[c].tcpState == Some(TimeWait) then None
                 else Some(Pick(s, e0.vip))
  {
    hide Step, Forwarded;
    var s1 := Step(s, e0);
    NewEntry(s, e0, c);
    RunBinding(s1, es, c);
    if i < |es| && es[i].TcpIn? && es[i].client == c {
      TrackedPrefix(s1, es, c, i);
      RunBinding(s1, es[..i], c);
      TrackedForward(Run(s1, es[..i]), es[i]);
      if Inv(s) {
        StepKeepsInv(s, e0);
        RunKeepsInv(s1, es[..i]);
        ForwardedExactly(Run(s1, es[..i]), es[i]);
      }
    }
  }

  /**
   * Replies undo the translation: as long as the entry lives, the source address and port that
   * `HandleTcpEgress` writes are, byte for byte, the destination of the packet that created it.
   */
  lemma NatUndo(o: Endian, s: State, src: u32, dst: u32, sport: u16, dport: u16, fl: TcpFlags,
                rewritten: bool, es: seq<Event>)
    requires var c := Client(o, src, sport);
             && c.port != 0 && c !in s.conns
             && TrackedThroughout(Step(s, TcpIn(c, Vip(o, dst, dport), fl, rewritten)), es, c)
    ensures var c := Client(o, src, sport);
            var s' := Run(Step(s, TcpIn(c, Vip(o, dst, dport), fl, rewritten)), es);
            && c in s'.conns
            && Store32(o, FromBe32(o, s'.conns[c].key.ip)) == Store32(o, dst)
            && Store16(o, FromBe16(o, s'.conns[c].key.port % 0x1_0000)) == Store16(o, dport)
  {
    hide Step, FromBe32, FromBe16, Store32, Store16;
    var c := Client(o, src, sport);
    SessionAffinity(s, TcpIn(c, Vip(o, dst, dport), fl, rewritten), es, c, 0);
    RunBinding(Step(s, TcpIn(c, Vip(o, dst, dport), fl, rewritten)), es, c);
    BeRoundTrip(o, dst, dport);
  }

  // ---------------------------------------------------------------------------
  // Datagrams, tracked by address only
  // ---------------------------------------------------------------------------

  /** A datagram of this address, or a TCP packet with source port 0. */
  predicate MayRecord(e: Event, ip: u32) {
    (e.UdpIn? && e.clientIp == ip) || (e.TcpIn? && e.client == ClientKey(ip, 0))
  }

  lemma {:induction false} UnrecordedStaysUntracked(s: State, es: seq<Event>, ip: u32)
    requires ClientKey(ip, 0) !in s.conns
    requires forall i :: 0 <= i < |es| ==> !MayRecord(es[i], ip)
    ensures ClientKey(ip, 0) !in Run(s, es).conns
    decreases |es|
  {
    if es != [] {
      hide Step;
      if ClientKey(ip, 0) in Step(s, es[0]).conns {
        NewEntry(s, es[0], ClientKey(ip, 0));
      }
      UnrecordedStaysUntracked(Step(s, es[0]), es[1..], ip);
    }
  }

  /**
   * An unreachable message is passed on once: after it, whatever happens, the client stays unknown
   * to ICMP egress until it sends a datagram or a TCP packet from port 0 again, and further
   * messages change nothing. Other or truncated messages never change anything.
   */
  lemma UnreachableOnce(s: State, ip: u32, es: seq<Event>, again: Event)
    requires forall i :: 0 <= i < |es| ==> !MayRecord(es[i], ip)
    requires again.IcmpOut? && again.clientIp == ip
    ensures var s' := Run(Step(s, IcmpOut(ip, 3, true)), es);
            ClientKey(ip, 0) !in s'.conns && Step(s', again) == s'
    ensures again.icmpType != 3 || !again.complete ==> Step(s, again) == s
  {
    var s1 := Step(s, IcmpOut(ip, 3, true));
    UnrecordedStaysUntracked(s1, es, ip);
    var s' := Run(s1, es);
    assert s'.conns - {ClientKey(ip, 0)} == s'.conns;
  }

  /** The events that end or replace the entry of a datagram from this address to this VIP. */
  predicate Displaces(e: Event, ip: u32, vip: BackendKey) {
    || (e.UdpIn? && e.clientIp == ip)
    || (e.IcmpOut? && e.clientIp == ip && e.icmpType == 3 && e.complete)
    || (ConcernsTcp(e, ClientKey(ip, 0)) && e.flags.rst)
    || e == Delete(vip)
  }

  lemma DatagramEntryStays(s: State, e: Event, ip: u32)
    requires var c := ClientKey(ip, 0); c in s.conns && s.conns[c].tcpState.None? && !Displaces(e, ip, s.conns[c].key)
    ensures var c := ClientKey(ip, 0); c in Step(s, e).conns && Step(s, e).conns[c] == s.conns[c]
  {
    hide Collect;
    if (e.TcpIn? || e.TcpOut?) && e.client != ClientKey(ip, 0) {
      OtherTcpPacket(s, e, ClientKey(ip, 0));
    }
  }

  lemma {:induction false} DatagramEntryLasts(s: State, es: seq<Event>, ip: u32, m: Mapping)
    requires ClientKey(ip, 0) in s.conns && s.conns[ClientKey(ip, 0)] == m && m.tcpState.None?
    requires forall i :: 0 <= i < |es| ==> !Displaces(es[i], ip, m.key)
    ensures ClientKey(ip, 0) in Run(s, es).conns && Run(s, es).conns[ClientKey(ip, 0)] == m
    decreases |es|
  {
    if es != [] {
      hide Step;
      DatagramEntryStays(s, es[0], ip);
      DatagramEntryLasts(Step(s, es[0]), es[1..], ip, m);
    }
  }

  /**
   * ICMP errors undo the translation of the latest datagram. A datagram to a served VIP is recorded
   * if tracking has room, even if its rewriting fails. From then on, until a displacing event, the
   * entry holds its backend, and the address `HandleIcmpEgress` writes as outer source and as quoted
   * destination is, byte for byte, the destination the datagram was sent to.
   */
  lemma IcmpUndo(o: Endian, s: State, src: u32, dst: u32, dport: u16, rewritten: bool, es: seq<Event>)
    requires var ip, vip := FromBe32(o, src), Vip(o, dst, dport);
             && Selectable(s, vip) && CanInsert(s.conns, ClientKey(ip, 0))
             && forall i :: 0 <= i < |es| ==> !Displaces(es[i], ip, vip)
    ensures var c := ClientKey(FromBe32(o, src), 0);
            var vip := Vip(o, dst, dport);
            var s' := Run(Step(s, UdpIn(c.ip, vip, rewritten)), es);
            && c in s'.conns
            && s'.conns[c] == Mapping(s.backends[vip].backends[s.indexes[vip]], vip, None)
            && Store32(o, FromBe32(o, s'.conns[c].key.ip)) == Store32(o, dst)
  {
    hide FromBe32, FromBe16, Store32;
    var ip, vip := FromBe32(o, src), Vip(o, dst, dport);
    var s1 := Step(s, UdpIn(ip, vip, rewritten));
    DatagramEntryLasts(s1, es, ip, Mapping(s.backends[vip].backends[s.indexes[vip]], vip, None));
    BeRoundTrip(o, dst, dport);
  }
}
