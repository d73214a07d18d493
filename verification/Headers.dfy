/** IPv4 headers in a packet buffer, and the two ways the programs repair their checksum. */
module Headers {
  import opened Wire
  import opened Types
  import opened Checksum

  /** A 20-byte IPv4 header; each field holds the value a native load of its bytes gives. */
  datatype IpHeader = IpHeader(
    verLen: u32, idFrag: u32, ttlProto: u16, check: u16, src: u32, dst: u32)

  function Bytes(e: Endian, h: IpHeader): seq<byte> {
    Store32(e, h.verLen) + Store32(e, h.idFrag) + (Store16(e, h.ttlProto) + Store16(e, h.check))
    + Store32(e, h.src) + Store32(e, h.dst)
  }

  /** A native 32-bit load over two adjacent 16-bit fields. */
  function Join(e: Endian, first: u16, second: u16): u32 {
    if e.Big? then 0x1_0000 * first + second else 0x1_0000 * second + first
  }

  /** The header as `bpf_csum_diff` reads it: five native 32-bit words. */
  function Words(e: Endian, h: IpHeader): seq<u32> {
    [h.verLen, h.idFrag, Join(e, h.ttlProto, h.check), h.src, h.dst]
  }

  function StoreAll(e: Endian, ws: seq<u32>): seq<byte> {
    if ws == [] then [] else StoreAll(e, ws[..|ws| - 1]) + Store32(e, ws[|ws| - 1])
  }

  lemma JoinStores(e: Endian, a: u16, b: u16)
    ensures Store32(e, Join(e, a, b)) == Store16(e, a) + Store16(e, b)
  {
    var hi, lo := if e.Big? then a else b, if e.Big? then b else a;
    assert (0x1_0000 * hi + lo) / 0x1_0000 == hi && (0x1_0000 * hi + lo) % 0x1_0000 == lo;
  }

  lemma StoreAllSnoc(e: Endian, ws: seq<u32>, w: u32)
    ensures StoreAll(e, ws + [w]) == StoreAll(e, ws) + Store32(e, w)
  {
    assert (ws + [w])[..|ws|] == ws;
  }

  lemma StoreFive(e: Endian, a: u32, b: u32, c: u32, d: u32, f: u32)
    ensures StoreAll(e, [a, b, c, d, f])
         == Store32(e, a) + Store32(e, b) + Store32(e, c) + Store32(e, d) + Store32(e, f)
    ensures Sum([a, b, c, d, f]) == a + b + c + d + f
  {
    hide Store32;
    StoreAllSnoc(e, [], a);
    StoreAllSnoc(e, [a], b);
    StoreAllSnoc(e, [a, b], c);
    StoreAllSnoc(e, [a, b, c], d);
    StoreAllSnoc(e, [a, b, c, d], f);
    SumSnoc([], a);
    SumSnoc([a], b);
    SumSnoc([a, b], c);
    SumSnoc([a, b, c], d);
    SumSnoc([a, b, c, d], f);
    assert [] + [a] == [a] && [a] + [b] == [a, b] && [a, b] + [c] == [a, b, c];
    assert [a, b, c] + [d] == [a, b, c, d] && [a, b, c, d] + [f] == [a, b, c, d, f];
  }

  /** The five words the helper sums cover exactly the twenty bytes on the wire. */
  lemma WordsCoverBytes(e: Endian, h: IpHeader)
    ensures Bytes(e, h) == StoreAll(e, Words(e, h))
  {
    hide Store32, Store16, Join;
    JoinStores(e, h.ttlProto, h.check);
    StoreFive(e, h.verLen, h.idFrag, Join(e, h.ttlProto, h.check), h.src, h.dst);
  }

  lemma {:induction false} StoreAllLength(e: Endian, ws: seq<u32>)
    ensures |StoreAll(e, ws)| == 4 * |ws|
  {
    if ws != [] {
      StoreAllLength(e, ws[..|ws| - 1]);
    }
  }

  lemma StoreNothing(e: Endian)
    ensures Cong(SumBe(StoreAll(e, [])), Scaled(e, Sum([])))
    ensures SumBe(StoreAll(e, [])) == 0 && Sum([]) == 0
  {
  }

  lemma {:induction false} StoreAllSum(e: Endian, ws: seq<u32>)
    ensures Cong(SumBe(StoreAll(e, ws)), Scaled(e, Sum(ws)))
    ensures SumBe(StoreAll(e, ws)) == 0 <==> Sum(ws) == 0
  {
    hide *;
    if ws == [] {
      StoreNothing(e);
    } else {
      var front, last := ws[..|ws| - 1], ws[|ws| - 1];
      StoreAllSum(e, front);
      StoreSum32(e, last);
      StoreAllLength(e, front);
      StoreAllSnoc(e, front, last);
      SumSnoc(front, last);
      assert ws == front + [last];
      SumBeConcat(StoreAll(e, front), Store32(e, last));
      CongAdd(SumBe(StoreAll(e, front)), Scaled(e, Sum(front)), SumBe(Store32(e, last)), Scaled(e, last));
      ScaledSum(e, Sum(front), last);
    }
  }

  /** Sum of all header fields but the checksum, up to multiples of 65535. */
  function Rest(h: IpHeader): nat {
    h.verLen + h.idFrag + h.ttlProto + h.src + h.dst
  }

  lemma JoinSum(e: Endian, a: u16, b: u16)
    ensures Cong(Join(e, a, b), a + b)
    ensures Join(e, a, b) == 0 <==> a + b == 0
  {
    var hi := if e.Big? then a else b;
    assert Join(e, a, b) - (a + b) == hi * M;
  }

  lemma WordSum(e: Endian, h: IpHeader)
    ensures Cong(Sum(Words(e, h)), Rest(h) + h.check)
    ensures Sum(Words(e, h)) == 0 <==> Rest(h) + h.check == 0
  {
    hide Join, Sum, StoreAll;
    StoreFive(e, h.verLen, h.idFrag, Join(e, h.ttlProto, h.check), h.src, h.dst);
    JoinSum(e, h.ttlProto, h.check);
  }

  lemma StoredVerifiesIff(e: Endian, ws: seq<u32>)
    ensures SumBe(StoreAll(e, ws)) % M == 0 <==> Sum(ws) % M == 0
    ensures SumBe(StoreAll(e, ws)) == 0 <==> Sum(ws) == 0
  {
    hide *;
    StoreAllSum(e, ws);
    ScaleIsUnit(e, Sum(ws));
    SameResidue(SumBe(StoreAll(e, ws)), Scaled(e, Sum(ws)));
  }

  /** A header verifies on the wire, whatever the host's byte order, exactly when its field sum does. */
  lemma HeaderVerifiesIff(e: Endian, h: IpHeader)
    ensures SumBe(Bytes(e, h)) % M == 0 <==> (Rest(h) + h.check) % M == 0
    ensures SumBe(Bytes(e, h)) == 0 <==> Rest(h) + h.check == 0
    ensures Verifies(Bytes(e, h)) <==> Rest(h) + h.check > 0 && (Rest(h) + h.check) % M == 0
  {
    hide *;
    WordsCoverBytes(e, h);
    StoredVerifiesIff(e, Words(e, h));
    WordSum(e, h);
    SameResidue(Sum(Words(e, h)), Rest(h) + h.check);
    VerifiesIff(Bytes(e, h));
  }

  // ---------------------------------------------------------------------------
  // Kernel helpers: callers see these contracts and nothing else
  // ---------------------------------------------------------------------------

  /** `bpf_csum_diff` with an empty "from" buffer: a one's-complement sum of 32-bit words. */
  method BpfCsumDiff(words: seq<u32>) returns (r: u64)
    ensures Cong(r, Sum(words)) && (r == 0 <==> Sum(words) == 0)
  {
    var acc: nat := 0;
    for i := 0 to |words|
      invariant acc <= 0xFFFF_FFFF
      invariant Cong(acc, Sum(words[..i])) && (acc == 0 <==> Sum(words[..i]) == 0)
    {
      assert words[..i + 1][..i] == words[..i];
      acc := acc + words[i];
      if acc > 0xFFFF_FFFF {
        acc := acc - 0xFFFF_FFFF;
      }
    }
    assert words[..|words|] == words;
    r := acc;
  }

  /** `bpf_l3_csum_replace` on a 32-bit field: equation 3 in section 3 of RFC 1624. */
  method BpfL3CsumReplace(check: u16, from: u32, to: u32) returns (r: u16)
    ensures Cong(r + to, check + from)
  {
    var csum: u64 := (M - check) + (0xFFFF_FFFF - from) + to;
    assert Cong(csum, to - check - from);
    r := CsumFoldHelper(csum);
    var n: int := r;
    assert Cong(-n, to - check - from);
  }

  // ---------------------------------------------------------------------------
  // Rebuilding a checksum from scratch
  // ---------------------------------------------------------------------------

  /** A header living in the packet buffer. */
  class IpBuffer {
    var hdr: IpHeader

    constructor (h: IpHeader)
      ensures hdr == h
    {
      hdr := h;
    }
  }

  /** `h.check` is the complement of the folded sum of the header with a zero checksum. */
  ghost predicate Rebuilt(h: IpHeader) {
    Cong(M - h.check, Rest(h)) && (M - h.check == 0 <==> Rest(h) == 0)
  }

  /** Zero `check`, sum the words with the helper, fold, store the complement. */
  method RebuildCheck(e: Endian, ip: IpBuffer)
    modifies ip
    ensures ip.hdr == old(ip.hdr).(check := ip.hdr.check)
    ensures Rebuilt(ip.hdr)
  {
    ip.hdr := ip.hdr.(check := 0);
    var full := BpfCsumDiff(Words(e, ip.hdr));
    WordSum(e, ip.hdr);
    var c := CsumFoldHelper(full);
    CongTrans(M - c, full, Sum(Words(e, ip.hdr)));
    CongTrans(M - c, Sum(Words(e, ip.hdr)), Rest(ip.hdr));
    ip.hdr := ip.hdr.(check := c);
  }

  lemma ComplementFits(rest: nat, r: u16, r': u16)
    requires Cong(M - r, rest) && (M - r == 0 <==> rest == 0)
    ensures rest + r > 0 && (rest + r) % M == 0
    ensures Cong(M - r', rest) && (M - r' == 0 <==> rest == 0) ==> r == r'
  {
    if Cong(M - r', rest) {
      assert (r - r') % M == 0;
    }
  }

  lemma RebuiltMeaning(h: IpHeader, c: u16)
    requires Rebuilt(h)
    ensures Rest(h) + h.check > 0 && (Rest(h) + h.check) % M == 0
    ensures Rebuilt(h.(check := c)) ==> c == h.check
  {
    ComplementFits(Rest(h), h.check, c);
  }

  /** Rebuilding fixes the checksum completely, and the header then verifies on either host. */
  lemma RebuiltVerifies(e: Endian, h: IpHeader, c: u16)
    requires Rebuilt(h)
    ensures Verifies(Bytes(e, h))
    ensures Rebuilt(h.(check := c)) ==> c == h.check
  {
    hide *;
    RebuiltMeaning(h, c);
    HeaderVerifiesIff(e, h);
  }

  lemma EvenHeader(e: Endian, h: IpHeader)
    ensures |Bytes(e, h)| == 20
  {
  }

  /**
   * Only the first twenty bytes are summed, so a header with options verifies after a rebuild
   * exactly when the options alone sum to a multiple of 65535.
   */
  lemma RebuiltWithOptions(e: Endian, h: IpHeader, options: seq<byte>)
    requires Rebuilt(h)
    ensures Verifies(Bytes(e, h) + options) <==> SumBe(options) % M == 0
  {
    hide *;
    RebuiltVerifies(e, h, h.check);
    EvenHeader(e, h);
    VerifiesIff(Bytes(e, h));
    VerifiesIff(Bytes(e, h) + options);
    SumBeConcat(Bytes(e, h), options);
    DropMultiple(SumBe(Bytes(e, h)), SumBe(options));
  }

  lemma NoOperationSum()
    ensures SumBe([1, 1, 1, 1]) == 0x202 && SumBe([1, 1, 1, 1]) % M != 0
  {
    assert WordsBe([1, 1, 1, 1]) == [0x101] + WordsBe([1, 1]);
    assert WordsBe([1, 1]) == [0x101] + WordsBe([]);
    SumSnoc([0x101], 0x101);
    SumSnoc([], 0x101);
    assert [] + [0x101] == [0x101];
  }

  /** Four no-operation options are enough to make every rebuilt header fail. */
  lemma NoOperationOptionsFail(e: Endian, h: IpHeader)
    requires Rebuilt(h)
    ensures !Verifies(Bytes(e, h) + [1, 1, 1, 1])
  {
    hide *;
    RebuiltWithOptions(e, h, [1, 1, 1, 1]);
    NoOperationSum();
  }

  // ---------------------------------------------------------------------------
  // The incremental update of set_ipv4_ip_dst
  // ---------------------------------------------------------------------------

  /** Whether each helper call made while rewriting an ingress packet succeeds. */
  datatype HelperResults = HelperResults(
    l4Ip: bool, l3Ip: bool, storeIp: bool, l4Port: bool, storePort: bool)
  {
    predicate IpDone() {
      l4Ip && l3Ip && storeIp
    }

    predicate AllDone() {
      IpDone() && l4Port && storePort
    }
  }

  /** The ports and checksum (native loads) and flags of a TCP or UDP header in the packet buffer. */
  class PortBuffer {
    var source: u16
    var dest: u16
    var check: u16
    const flags: TcpFlags

    constructor (source: u16, dest: u16, check: u16, flags: TcpFlags)
      ensures this.source == source && this.dest == dest && this.check == check && this.flags == flags
    {
      this.source, this.dest, this.check, this.flags := source, dest, check, flags;
    }
  }

  /** `bpf_l4_csum_replace`: the same equation on the checksum of TCP or UDP. */
  method BpfL4CsumReplace(check: u16, from: u32, to: u32) returns (r: u16)
    ensures Cong(r + to, check + from)
  {
    r := BpfL3CsumReplace(check, from, to);
  }

  /** `set_ipv4_ip_dst`: stops at the first helper that fails. */
  method SetIpv4IpDst(ip: IpBuffer, l4: PortBuffer, oldIp: u32, newIp: u32, k: HelperResults) returns (ok: bool)
    modifies ip, l4`check
    ensures ok == k.IpDone()
    ensures ip.hdr == old(ip.hdr).(check := ip.hdr.check, dst := ip.hdr.dst)
    ensures ip.hdr.dst == if ok then newIp else old(ip.hdr.dst)
    ensures if k.l4Ip && k.l3Ip then Cong(ip.hdr.check + newIp, old(ip.hdr.check) + oldIp)
            else ip.hdr.check == old(ip.hdr.check)
    ensures if k.l4Ip then Cong(l4.check + newIp, old(l4.check) + oldIp) else l4.check == old(l4.check)
  {
    hide Cong;
    if !k.l4Ip {
      return false;
    }
    l4.check := BpfL4CsumReplace(l4.check, oldIp, newIp);
    if !k.l3Ip {
      return false;
    }
    var c := BpfL3CsumReplace(ip.hdr.check, oldIp, newIp);
    ip.hdr := ip.hdr.(check := c);
    if !k.storeIp {
      return false;
    }
    ip.hdr := ip.hdr.(dst := newIp);
    ok := true;
  }

  /** `set_ipv4_dest_port`: the new port is stored at the checksum offset; the port field stays. */
  method SetIpv4DestPort(l4: PortBuffer, oldPort: u16, newPort: u16, k: HelperResults) returns (ok: bool)
    modifies l4`check
    ensures ok == (k.l4Port && k.storePort)
    ensures if ok then l4.check == newPort
            else if k.l4Port then Cong(l4.check + newPort, old(l4.check) + oldPort)
            else l4.check == old(l4.check)
  {
    hide Cong;
    if !k.l4Port {
      return false;
    }
    l4.check := BpfL4CsumReplace(l4.check, oldPort, newPort);
    if !k.storePort {
      return false;
    }
    l4.check := newPort;
    ok := true;
  }

  /**
   * What the two calls leave in the checksum field of TCP or UDP: the new port if both complete,
   * else the checksum moved by the addresses, and by the ports if that was the last helper to succeed.
   */
  ghost predicate L4CheckMoved(check: u16, check': u16, oldIp: u32, newIp: u32, oldPort: u16, newPort: u16,
                               k: HelperResults) {
    if !k.l4Ip then check' == check
    else if !k.IpDone() || !k.l4Port then Cong(check' + newIp, check + oldIp)
    else if !k.storePort then Cong(check' + newIp + newPort, check + oldIp + oldPort)
    else check' == newPort
  }

  lemma L4ChecksMove(check: u16, mid: u16, check': u16, oldIp: u32, newIp: u32, oldPort: u16, newPort: u16)
    requires Cong(mid + newIp, check + oldIp) && Cong(check' + newPort, mid + oldPort)
    ensures Cong(check' + newIp + newPort, check + oldIp + oldPort)
  {
    CongAdd(mid + newIp, check + oldIp, check' + newPort, mid + oldPort);
  }

  lemma ReplaceKeepsResidue(rest: int, check: int, from: int, to: int, c: int)
    requires Cong(c + to, check + from)
    ensures Cong(rest - from + to + c, rest + check)
  {
  }

  lemma RestAfterReplace(h: IpHeader, c: u16, newIp: u32)
    ensures Rest(h.(check := c, dst := newIp)) == Rest(h) - h.dst + newIp
    ensures Rest(h.(check := c)) == Rest(h)
  {
  }

  /**
   * Replacing the destination incrementally neither repairs nor breaks a header's checksum. Some
   * field besides it is non-zero: the programs see TCP and UDP only, so the protocol is.
   */
  lemma IncrementalKeepsValidity(e: Endian, h: IpHeader, c: u16, newIp: u32)
    requires Cong(c + newIp, h.check + h.dst)
    requires Rest(h) > h.dst
    ensures Verifies(Bytes(e, h.(check := c, dst := newIp))) <==> Verifies(Bytes(e, h))
  {
    hide *;
    var h' := h.(check := c, dst := newIp);
    RestAfterReplace(h, c, newIp);
    ReplaceKeepsResidue(Rest(h), h.check, h.dst, newIp, c);
    SameResidue(Rest(h') + c, Rest(h) + h.check);
    HeaderVerifiesIff(e, h);
    HeaderVerifiesIff(e, h');
  }

  lemma TwoZeros(a: u16, b: u16)
    ensures Cong(a, b) <==> a == b || {a, b} == {0, 0xFFFF}
  {
    if Cong(a, b) && a != b {
      assert a - b == M || b - a == M;
    }
    if {a, b} == {0, 0xFFFF} {
      assert a in {0, 0xFFFF} && b in {0, 0xFFFF};
    }
  }

  lemma RebuiltResidue(h: IpHeader)
    requires Rebuilt(h)
    ensures Cong(M - h.check, Rest(h))
  {
  }

  lemma AgreementResidue(total: int, rest': int, c: int, rebuilt: int)
    requires Cong(rest' + c, total)
    requires Cong(M - rebuilt, rest')
    ensures Cong(c, rebuilt) <==> total % M == 0
  {
  }

  /**
   * The incremental checksum and one rebuilt from scratch agree, up to the two encodings of zero,
   * exactly when the header's checksum was right before the rewrite.
   */
  lemma IncrementalAgreesWithRebuild(h: IpHeader, c: u16, newIp: u32, rebuilt: u16)
    requires Cong(c + newIp, h.check + h.dst)
    requires Rebuilt(h.(check := rebuilt, dst := newIp))
    ensures (c == rebuilt || {c, rebuilt} == {0, 0xFFFF}) <==> (Rest(h) + h.check) % M == 0
  {
    hide *;
    var rest' := Rest(h.(check := rebuilt, dst := newIp));
    RebuiltResidue(h.(check := rebuilt, dst := newIp));
    RestAfterReplace(h, rebuilt, newIp);
    ReplaceKeepsResidue(Rest(h), h.check, h.dst, newIp, c);
    AgreementResidue(Rest(h) + h.check, rest', c, rebuilt);
    TwoZeros(c, rebuilt);
  }

  /**
   * UDP ingress stores the new destination first. If the incremental update is then not reached,
   * a valid header stays valid exactly when the two addresses agree modulo 65535.
   */
  lemma StoredFirstValidIff(e: Endian, h: IpHeader, c: u16, newIp: u32, updated: bool)
    requires Rest(h) > h.dst && Verifies(Bytes(e, h))
    requires if updated then Cong(c + newIp, h.check + h.dst) else c == h.check
    ensures Verifies(Bytes(e, h.(check := c, dst := newIp))) <==> updated || Cong(newIp, h.dst)
  {
    hide *;
    if updated {
      IncrementalKeepsValidity(e, h, c, newIp);
    } else {
      HeaderVerifiesIff(e, h);
      HeaderVerifiesIff(e, h.(check := c, dst := newIp));
      RestAfterReplace(h, c, newIp);
      ShiftedResidue(Rest(h) + h.check, h.dst, newIp);
    }
  }

  /**
   * TCP ingress updates the checksum first. If the store of the address then fails, a valid header
   * stays valid exactly when the two addresses agree modulo 65535.
   */
  lemma UpdatedFirstValidIff(e: Endian, h: IpHeader, c: u16, newIp: u32)
    requires Rest(h) > h.dst && Verifies(Bytes(e, h))
    requires Cong(c + newIp, h.check + h.dst)
    ensures Verifies(Bytes(e, h.(check := c))) <==> Cong(newIp, h.dst)
  {
    hide *;
    HeaderVerifiesIff(e, h);
    HeaderVerifiesIff(e, h.(check := c));
    RestAfterReplace(h, c, newIp);
    SwappedResidue(Rest(h), h.check, h.dst, newIp, c);
  }

  lemma SwappedResidue(rest: int, check: int, from: int, to: int, c: int)
    requires (rest + check) % M == 0 && Cong(c + to, check + from)
    ensures (rest + c) % M == 0 <==> Cong(to, from)
  {
  }

  /** From 10.0.0.2 to 10.0.0.3: the new address alone breaks the header, and so does the new checksum alone. */
  lemma HalfRewrittenExample(e: Endian)
    ensures var h := IpHeader(0x4500_0014, 0, 0x4011, 0x66D7, 0x0A00_0001, 0x0A00_0002);
            && Verifies(Bytes(e, h))
            && !Verifies(Bytes(e, h.(dst := 0x0A00_0003)))
            && !Verifies(Bytes(e, h.(check := 0x66D6)))
            && Cong(0x66D6 + 0x0A00_0003, 0x66D7 + 0x0A00_0002)
  {
    hide Bytes, Verifies, SumBe;
    var h := IpHeader(0x4500_0014, 0, 0x4011, 0x66D7, 0x0A00_0001, 0x0A00_0002);
    HeaderVerifiesIff(e, h);
    HeaderVerifiesIff(e, h.(dst := 0x0A00_0003));
    HeaderVerifiesIff(e, h.(check := 0x66D6));
  }

  lemma ShiftedResidue(total: int, from: int, to: int)
    requires total % M == 0
    ensures (total - from + to) % M == 0 <==> Cong(to, from)
  {
  }

  // ---------------------------------------------------------------------------
  // ICMP error messages that quote an IPv4 header
  // ---------------------------------------------------------------------------

  /** An ICMP message: its own header, the quoted IPv4 header, and whatever follows. */
  function IcmpMessage(e: Endian, icmp: seq<byte>, inner: IpHeader, payload: seq<byte>): seq<byte> {
    icmp + (Bytes(e, inner) + payload)
  }

  /**
   * The ICMP checksum is never written, yet rewriting and rebuilding the quoted header keeps the
   * message valid, for every payload, exactly when that header summed to zero before.
   */
  lemma IcmpChecksumSurvives(e: Endian, icmp: seq<byte>, inner: IpHeader, inner': IpHeader, payload: seq<byte>)
    requires |icmp| % 2 == 0
    requires Verifies(IcmpMessage(e, icmp, inner, payload))
    requires Rebuilt(inner')
    ensures Verifies(IcmpMessage(e, icmp, inner', payload)) <==> SumBe(Bytes(e, inner)) % M == 0
    ensures Verifies(Bytes(e, inner)) ==> Verifies(IcmpMessage(e, icmp, inner', payload))
  {
    hide *;
    MessageSum(e, icmp, inner, payload);
    MessageSum(e, icmp, inner', payload);
    VerifiesIff(IcmpMessage(e, icmp, inner, payload));
    VerifiesIff(IcmpMessage(e, icmp, inner', payload));
    RebuiltVerifies(e, inner', inner'.check);
    VerifiesIff(Bytes(e, inner'));
    VerifiesIff(Bytes(e, inner));
    DropMultiple(SumBe(Bytes(e, inner')), SumBe(icmp) + SumBe(payload));
    Cancel(SumBe(Bytes(e, inner)), SumBe(icmp) + SumBe(payload));
  }

  lemma SplitMessage(a: seq<byte>, b: seq<byte>, c: seq<byte>)
    requires |a| % 2 == 0 && |b| % 2 == 0
    ensures SumBe(a + (b + c)) == SumBe(a) + SumBe(b) + SumBe(c)
  {
    hide *;
    SumBeConcat(a, b + c);
    SumBeConcat(b, c);
  }

  lemma MessageSum(e: Endian, icmp: seq<byte>, inner: IpHeader, payload: seq<byte>)
    requires |icmp| % 2 == 0
    ensures SumBe(IcmpMessage(e, icmp, inner, payload))
         == SumBe(icmp) + SumBe(Bytes(e, inner)) + SumBe(payload)
  {
    EvenHeader(e, inner);
    SplitMessage(icmp, Bytes(e, inner), payload);
  }
}
