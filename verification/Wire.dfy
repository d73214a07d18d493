/** Machine integers, the bytes a native store puts on the wire, and byte-order conversion. */
module Wire {
  type byte = x: int | 0 <= x < 0x100
  type u16 = x: int | 0 <= x < 0x1_0000
  type u32 = x: int | 0 <= x < 0x1_0000_0000
  type u64 = x: int | 0 <= x < 0x1_0000_0000_0000_0000

  /** Byte order of the host that runs the eBPF programs. */
  datatype Endian = Little | Big

  function Swap16(x: u16): u16 {
    x % 0x100 * 0x100 + x / 0x100
  }

  function Swap32(x: u32): u32 {
    Swap16(x % 0x1_0000) * 0x1_0000 + Swap16(x / 0x1_0000)
  }

  /** `u16::from_be`; `to_be` is the same function. */
  function FromBe16(e: Endian, x: u16): u16 {
    if e.Big? then x else Swap16(x)
  }

  /** `u32::from_be`; `to_be` is the same function. */
  function FromBe32(e: Endian, x: u32): u32 {
    if e.Big? then x else Swap32(x)
  }

  /** The two bytes a native store of `x` leaves in memory. */
  function Store16(e: Endian, x: u16): seq<byte> {
    if e.Big? then [x / 0x100, x % 0x100] else [x % 0x100, x / 0x100]
  }

  /** The four bytes a native store of `x` leaves in memory. */
  function Store32(e: Endian, x: u32): seq<byte> {
    if e.Big? then Store16(e, x / 0x1_0000) + Store16(e, x % 0x1_0000)
    else Store16(e, x % 0x1_0000) + Store16(e, x / 0x1_0000)
  }

  /** Two bytes read as a big-endian 16-bit number. */
  function Be16(hi: byte, lo: byte): u16 {
    0x100 * (hi as int) + lo
  }

  /** The number a byte sequence denotes in network order. */
  function BeValue(bs: seq<byte>): nat {
    if bs == [] then 0 else BeValue(bs[..|bs| - 1]) * 0x100 + bs[|bs| - 1]
  }

  lemma BeValue4(bs: seq<byte>)
    requires |bs| == 4
    ensures BeValue(bs) == 0x1_0000 * (Be16(bs[0], bs[1]) as int) + Be16(bs[2], bs[3])
  {
    assert bs[..3][..2] == [bs[0], bs[1]];
    assert bs[..3][..2][..1] == [bs[0]];
    assert bs[..3][2] == bs[2];
    assert BeValue(bs[..3]) == BeValue(bs[..3][..2]) * 0x100 + bs[2];
    assert BeValue([bs[0], bs[1]]) == BeValue([bs[0], bs[1]][..1]) * 0x100 + bs[1];
    assert BeValue([bs[0]]) == BeValue([bs[0]][..0]) * 0x100 + bs[0];
  }

  lemma BeValue2(bs: seq<byte>)
    requires |bs| == 2
    ensures BeValue(bs) == Be16(bs[0], bs[1])
  {
    assert bs[..1] == [bs[0]];
    assert BeValue([bs[0]]) == BeValue([bs[0]][..0]) * 0x100 + bs[0];
  }

  /** Reading a wire field natively and converting gives its network-order value, on either host. */
  lemma FromBeReadsNetworkOrder(e: Endian, x: u32, p: u16)
    ensures FromBe32(e, x) == BeValue(Store32(e, x))
    ensures FromBe16(e, p) == BeValue(Store16(e, p))
  {
    BeValue4(Store32(e, x));
    BeValue2(Store16(e, p));
  }

  lemma SwapInvolution16(x: u16)
    ensures Swap16(Swap16(x)) == x
  {
    var hi, lo := x / 0x100, x % 0x100;
    assert Swap16(x) == lo * 0x100 + hi;
  }

  lemma SwapInvolution32(x: u32)
    ensures Swap32(Swap32(x)) == x
  {
    var hi, lo := x / 0x1_0000, x % 0x1_0000;
    assert Swap32(x) / 0x1_0000 == Swap16(lo) && Swap32(x) % 0x1_0000 == Swap16(hi);
    SwapInvolution16(hi);
    SwapInvolution16(lo);
  }

  /** Converting a field to host order and back restores the exact value, hence the exact bytes. */
  lemma BeRoundTrip(e: Endian, x: u32, p: u16)
    ensures FromBe32(e, FromBe32(e, x)) == x
    ensures FromBe16(e, FromBe16(e, p)) == p
  {
    SwapInvolution32(x);
    SwapInvolution16(p);
  }
}
