/** The packet handlers and the API server, working in place on the maps and on packet buffers. */
module DataPlane {
  import opened Wire
  import opened Checksum
  import opened Headers
  import opened Types
  import opened Tracker
  import opened Machine

  function Client(e: Endian, addr: u32, port: u16): ClientKey {
    ClientKey(FromBe32(e, addr), FromBe16(e, port))
  }

  function Vip(e: Endian, addr: u32, port: u16): BackendKey {
    BackendKey(FromBe32(e, addr), FromBe16(e, port))
  }

  /** On either host the keys hold the numbers on the wire, so different endpoints never share a key. */
  lemma KeysIdentify(e: Endian, addr: u32, port: u16, addr': u32, port': u16)
    ensures Client(e, addr, port).ip == Vip(e, addr, port).ip == BeValue(Store32(e, addr))
    ensures Client(e, addr, port).port == Vip(e, addr, port).port == BeValue(Store16(e, port))
    ensures Client(e, addr, port) == Client(e, addr', port') <==> addr == addr' && port == port'
    ensures Vip(e, addr, port) == Vip(e, addr', port') <==> addr == addr' && port == port'
  {
    hide FromBe32, FromBe16, Store32, Store16, BeValue;
    FromBeReadsNetworkOrder(e, addr, port);
    BeRoundTrip(e, addr, port);
    BeRoundTrip(e, addr', port');
  }

  /** Effect of `set_ipv4_ip_dst` on a header, seen after the fact. */
  ghost predicate DstReplaced(h: IpHeader, h': IpHeader, newIp: u32, k: HelperResults) {
    && h' == h.(check := h'.check, dst := h'.dst)
    && h'.dst == (if k.IpDone() then newIp else h.dst)
    && if k.l4Ip && k.l3Ip then Cong(h'.check + newIp, h.check + h.dst) else h'.check == h.check
  }

  class LoadBalancer {
    const order: Endian
    var backends: map<BackendKey, BackendList>
    var indexes: map<BackendKey, u16>
    var conns: map<ClientKey, Mapping>

    constructor (order: Endian)
      ensures this.order == order && View() == EMPTY
    {
      this.order := order;
      backends, indexes, conns := map[], map[], map[];
    }

    function View(): State
      reads this
    {
      State(backends, indexes, conns)
    }

    // -------------------------------------------------------------------------
    // Connection tracking
    // -------------------------------------------------------------------------

    method UpdateTcpConns(fl: TcpFlags, c: ClientKey, m: Mapping) returns (ok: bool, m': Mapping)
      modifies this`conns
      ensures ConnStep(ok, conns, m') == UpdateConns(old(conns), c, m, fl)
    {
      m' := m;
      if m.tcpState.Some? {
        var st, transitioned := ProcessTcpStateTransition(fl, m.tcpState.value);
        m' := m.(tcpState := Some(st));
        if st == Closed {
          ok := c in conns;
          conns := conns - {c};
          return;
        }
        if transitioned {
          if !CanInsert(conns, c) {
            return false, m';
          }
          conns := conns[c := m'];
          return true, m';
        }
      }
      ok := true;
    }

    // -------------------------------------------------------------------------
    // Ingress
    // -------------------------------------------------------------------------

    /** The lookups, bounds checks and index arithmetic both ingress handlers share. */
    method Select(vip: BackendKey) returns (r: Option<(Backend, u16)>)
      ensures r.Some? <==> Selectable(View(), vip)
      ensures r.Some? ==>
                && r.value.0 == Pick(View(), vip)
                && r.value.1 == NextIndex(indexes[vip], backends[vip].backendsLen)
    {
      if vip !in backends {
        return None;
      }
      var list := backends[vip];
      if vip !in indexes {
        return None;
      }
      var index := indexes[vip];
      if list.backendsLen <= index {
        return None;
      }
      if index >= CAPACITY {
        return None;
      }
      var backend := list.backends[0];
      if index < |list.backends| {
        backend := list.backends[index];
      }
      var next: u16 := index + 1;
      if next >= list.backendsLen {
        next := 0;
      }
      r := Some((backend, next));
    }

    /** The calls of `set_ipv4_ip_dst` and `set_ipv4_dest_port` both ingress handlers make. */
    method RewriteDestination(ip: IpBuffer, l4: PortBuffer, oldIp: u32, oldPort: u16, to: Backend, k: HelperResults)
      returns (ok: bool)
      modifies ip, l4`check
      ensures ok == k.AllDone()
      ensures ip.hdr == old(ip.hdr).(check := ip.hdr.check, dst := ip.hdr.dst)
      ensures ip.hdr.dst == if k.IpDone() then FromBe32(order, to.daddr) else old(ip.hdr.dst)
      ensures if k.l4Ip && k.l3Ip then Cong(ip.hdr.check + FromBe32(order, to.daddr), old(ip.hdr.check) + oldIp)
              else ip.hdr.check == old(ip.hdr.check)
      ensures L4CheckMoved(old(l4.check), l4.check, oldIp, FromBe32(order, to.daddr), oldPort,
                           FromBe16(order, to.dport % 0x1_0000), k)
    {
      hide FromBe32, FromBe16, Cong;
      var newIp, newPort := FromBe32(order, to.daddr), FromBe16(order, to.dport % 0x1_0000);
      ok := SetIpv4IpDst(ip, l4, oldIp, newIp, k);
      if !ok {
        return;
      }
      ghost var mid := l4.check;
      ok := SetIpv4DestPort(l4, oldPort, newPort, k);
      if k.l4Port && !k.storePort {
        L4ChecksMove(old(l4.check), mid, l4.check, oldIp, newIp, oldPort, newPort);
      }
    }

    /** `handle_tcp_ingress`. The destination port is untouched; see `SetIpv4DestPort`. */
    method HandleTcpIngress(ip: IpBuffer, tcp: PortBuffer, k: HelperResults)
      modifies this`indexes, this`conns, ip, tcp`check
      ensures var e := TcpIn(Client(order, old(ip.hdr.src), tcp.source), Vip(order, old(ip.hdr.dst), tcp.dest),
                             tcp.flags, k.AllDone());
              && View() == Step(old(View()), e)
              && var to := Forwarded(old(View()), e);
                 if to.Some? then
                   && DstReplaced(old(ip.hdr), ip.hdr, FromBe32(order, to.value.daddr), k)
                   && L4CheckMoved(old(tcp.check), tcp.check, old(ip.hdr.dst), FromBe32(order, to.value.daddr),
                                   tcp.dest, FromBe16(order, to.value.dport % 0x1_0000), k)
                 else ip.hdr == old(ip.hdr) && tcp.check == old(tcp.check)
    {
      hide FromBe32, FromBe16, Cong;
      var originalDaddr := ip.hdr.dst;
      var c := Client(order, ip.hdr.src, tcp.source);
      var m: Mapping;
      var newConn := false;

      if c in conns {
        m := conns[c];
      } else {
        newConn := true;
        var vip := Vip(order, originalDaddr, tcp.dest);
        var choice := Select(vip);
        if choice.None? {
          return;
        }
        m := Mapping(choice.value.0, vip, Some(Established));
        indexes := indexes[vip := choice.value.1];
      }

      if tcp.flags.rst {
        if c !in conns {
          return;
        }
        conns := conns - {c};
      }

      var ok, m' := UpdateTcpConns(tcp.flags, c, m);
      if !ok {
        return;
      }

      ok := RewriteDestination(ip, tcp, originalDaddr, tcp.dest, m.backend, k);
      if !ok {
        return;
      }

      if newConn && CanInsert(conns, c) {
        conns := conns[c := m'];
      }
    }

    /** `handle_udp_ingress`: the header is rewritten before the entry is recorded and the sum updated. */
    method HandleUdpIngress(ip: IpBuffer, udp: PortBuffer, k: HelperResults)
      modifies this`indexes, this`conns, ip, udp
      ensures var e := UdpIn(FromBe32(order, old(ip.hdr.src)), Vip(order, old(ip.hdr.dst), old(udp.dest)), k.AllDone());
              var h, h' := old(ip.hdr), ip.hdr;
              && View() == Step(old(View()), e)
              && udp.source == old(udp.source)
              && var to := Forwarded(old(View()), e);
                 if to.None? then h' == h && udp.dest == old(udp.dest) && udp.check == old(udp.check)
                 else
                   && udp.dest == FromBe16(order, to.value.dport % 0x1_0000)
                   && h' == h.(dst := FromBe32(order, to.value.daddr), check := h'.check)
                   && (if CanInsert(old(conns), ClientKey(e.clientIp, 0))
                       then L4CheckMoved(old(udp.check), udp.check, h.dst, h'.dst, old(udp.dest), udp.dest, k)
                       else udp.check == old(udp.check))
                   && if CanInsert(old(conns), ClientKey(e.clientIp, 0)) && k.l4Ip && k.l3Ip
                      then Cong(h'.check + h'.dst, h.check + h.dst) else h'.check == h.check
    {
      hide FromBe32, FromBe16, Cong;
      var originalDaddr := ip.hdr.dst;
      var originalDport := udp.dest;
      var vip := Vip(order, originalDaddr, originalDport);
      var choice := Select(vip);
      if choice.None? {
        return;
      }
      var backend := choice.value.0;

      ip.hdr := ip.hdr.(dst := FromBe32(order, backend.daddr));
      udp.dest := FromBe16(order, backend.dport % 0x1_0000);
      var c := ClientKey(FromBe32(order, ip.hdr.src), 0);
      if !CanInsert(conns, c) {
        return;
      }
      conns := conns[c := Mapping(backend, vip, None)];

      var ok := RewriteDestination(ip, udp, originalDaddr, originalDport, backend, k);
      if !ok {
        return;
      }

      indexes := indexes[vip := choice.value.1];
    }

    // -------------------------------------------------------------------------
    // Egress
    // -------------------------------------------------------------------------

    /** `handle_tcp_egress`: a tracked reply leaves with the virtual address, port and a valid header. */
    method HandleTcpEgress(ip: IpBuffer, tcp: PortBuffer)
      modifies this`conns, ip, tcp
      ensures var c := Client(order, old(ip.hdr.dst), old(tcp.dest));
              && View() == Step(old(View()), TcpOut(c, tcp.flags))
              && tcp.dest == old(tcp.dest)
              && if c in old(conns) then
                   var vip := old(conns)[c].key;
                   && ip.hdr == old(ip.hdr).(src := FromBe32(order, vip.ip), check := ip.hdr.check)
                   && tcp.source == FromBe16(order, vip.port % 0x1_0000)
                   && Rebuilt(ip.hdr)
                   && tcp.check == 0
                 else ip.hdr == old(ip.hdr) && tcp.source == old(tcp.source) && tcp.check == old(tcp.check)
    {
      hide FromBe32, FromBe16, Rebuilt, UpdateConns;
      var c := Client(order, ip.hdr.dst, tcp.dest);
      if c !in conns {
        return;
      }
      var m := conns[c];
      ip.hdr := ip.hdr.(src := FromBe32(order, m.key.ip));
      tcp.source := FromBe16(order, m.key.port % 0x1_0000);
      RebuildCheck(order, ip);
      tcp.check := 0;

      if tcp.flags.rst {
        conns := conns - {c};
      }
      var _, _ := UpdateTcpConns(tcp.flags, c, m);
    }

    /**
     * `handle_icmp_egress`. `inner` is null when the packet is too short to quote a whole header;
     * the outer header has been rewritten by then and the entry stays.
     */
    method HandleIcmpEgress(ip: IpBuffer, icmpType: byte, inner: IpBuffer?)
      requires inner != ip
      modifies this`conns, ip, inner
      ensures var c := ClientKey(FromBe32(order, old(ip.hdr.dst)), 0);
              && View() == Step(old(View()), IcmpOut(c.ip, icmpType, inner != null))
              && if icmpType == ICMP_UNREACHABLE && c in old(conns) then
                   var vip := FromBe32(order, old(conns)[c].key.ip);
                   && ip.hdr == old(ip.hdr).(src := vip, check := ip.hdr.check)
                   && Rebuilt(ip.hdr)
                   && (inner != null ==>
                         && inner.hdr == old(inner.hdr).(dst := vip, check := inner.hdr.check)
                         && Rebuilt(inner.hdr))
                 else unchanged(ip) && (inner != null ==> unchanged(inner))
    {
      hide FromBe32, FromBe16, Rebuilt;
      if icmpType != ICMP_UNREACHABLE {
        return;
      }
      var c := ClientKey(FromBe32(order, ip.hdr.dst), 0);
      if c !in conns {
        return;
      }
      var vip := FromBe32(order, conns[c].key.ip);
      ip.hdr := ip.hdr.(src := vip);
      RebuildCheck(order, ip);
      if inner == null {
        return;
      }
      inner.hdr := inner.hdr.(dst := vip);
      RebuildCheck(order, inner);
      conns := conns - {c};
    }

    // -------------------------------------------------------------------------
    // RPCs
    // -------------------------------------------------------------------------

    /** The body of `update` up to the map writes: fill a fixed array, counting. */
    method FillArray(targets: seq<Target>) returns (r: Result<BackendList>)
      ensures r == BuildList(targets)
    {
      var backends := new Backend[CAPACITY](_ => ZERO_BACKEND);
      var count := 0;
      for i := 0 to |targets|
        invariant count == i <= CAPACITY
        invariant Collect(targets[..i]) == Ok(backends[..count])
        invariant forall j :: count <= j < CAPACITY ==> backends[j] == ZERO_BACKEND
      {
        var t := targets[i];
        assert targets[..i + 1][..i] == targets[..i];
        var ifindex := if t.ifindex.Some? then t.ifindex else t.route;
        if ifindex.None? {
          CollectError(targets, i + 1);
          return Err(NoRoute);
        }
        if count >= CAPACITY {
          CollectError(targets, i + 1);
          return Err(TooManyBackends);
        }
        backends[count] := Backend(t.daddr, t.dport, ifindex.value % 0x1_0000);
        count := count + 1;
        assert backends[..count] == backends[..i] + [backends[i]];
      }
      assert targets[..|targets|] == targets;
      assert backends[..] == backends[..count] + seq(CAPACITY - count, _ => ZERO_BACKEND);
      r := Ok(BackendList(backends[..], count));
    }

    method Update(key: Option<BackendKey>, targets: seq<Target>) returns (r: Result<()>)
      modifies this`backends, this`indexes
      ensures (View(), r) == UpdateRpc(old(View()), key, targets)
    {
      if key.None? {
        return Err(MissingVip);
      }
      var list := FillArray(targets);
      if list.Err? {
        return Err(list.error);
      }
      if !CanInsert(backends, key.value) {
        return Err(MapFull);
      }
      backends := backends[key.value := list.value];
      if !CanInsert(indexes, key.value) {
        return Err(MapFull);
      }
      indexes := indexes[key.value := 0];
      r := Ok(());
    }

    method Remove(vip: BackendKey) returns (r: Result<()>)
      modifies this`backends, this`indexes, this`conns
      ensures (View(), r) == DeleteRpc(old(View()), vip)
    {
      if vip !in backends {
        return Err(NotFound);
      }
      backends := backends - {vip};
      if vip !in indexes {
        return Err(NotFound);
      }
      indexes := indexes - {vip};
      var snapshot := conns;
      var todo := snapshot.Keys;
      while todo != {}
        invariant todo <= snapshot.Keys
        invariant forall c :: c in conns <==> c in snapshot && (c in todo || snapshot[c].key != vip)
        invariant forall c :: c in conns ==> conns[c] == snapshot[c]
        modifies this`conns
        decreases todo
      {
        var c :| c in todo;
        todo := todo - {c};
        if snapshot[c].key == vip {
          conns := conns - {c};
        }
      }
      assert conns == Unbound(snapshot, vip);
      r := Ok(());
    }
  }

  /** Once a prefix of the targets is refused, the whole request is refused with the same error. */
  lemma {:induction false} CollectError(ts: seq<Target>, i: nat)
    requires i <= |ts| && Collect(ts[..i]).Err?
    ensures Collect(ts) == Collect(ts[..i])
    decreases |ts|
  {
    if i == |ts| {
      assert ts[..i] == ts;
    } else {
      assert ts[..|ts| - 1][..i] == ts[..i];
      CollectError(ts[..|ts| - 1], i);
    }
  }
}
