/** The Internet checksum of RFC 1071, and the folding routine the egress programs use. */
module Checksum {
  import opened Wire

  // ---------------------------------------------------------------------------
  // Reference definition: sections 1 and 2 of RFC 1071
  // ---------------------------------------------------------------------------

  /** 16-bit one's-complement addition: the carry out of the top is added back in. */
  function OnesAdd(a: u16, b: u16): u16 {
    if a + b > 0xFFFF then a + b - 0xFFFF else a + b
  }

  function OnesSum(ws: seq<u16>): u16 {
    if ws == [] then 0 else OnesAdd(OnesSum(ws[..|ws| - 1]), ws[|ws| - 1])
  }

  /** The big-endian 16-bit words of a byte string, an odd last byte being padded with zero. */
  function WordsBe(bs: seq<byte>): seq<u16> {
    if bs == [] then []
    else if |bs| == 1 then [Be16(bs[0], 0)]
    else [Be16(bs[0], bs[1])] + WordsBe(bs[2..])
  }

  /** What a receiver checks: the one's-complement sum, checksum field included, is all ones. */
  predicate Verifies(bs: seq<byte>) {
    OnesSum(WordsBe(bs)) == 0xFFFF
  }

  // ---------------------------------------------------------------------------
  // Arithmetic modulo 65535
  // ---------------------------------------------------------------------------

  const M := 0xFFFF

  ghost predicate Cong(a: int, b: int) {
    (a - b) % M == 0
  }

  function Sum(ws: seq<nat>): nat {
    if ws == [] then 0 else Sum(ws[..|ws| - 1]) + ws[|ws| - 1]
  }

  /** Sum of the network-order words of a byte string. */
  function SumBe(bs: seq<byte>): nat {
    Sum(WordsBe(bs))
  }

  lemma CongAdd(a: int, b: int, c: int, d: int)
    requires Cong(a, b) && Cong(c, d)
    ensures Cong(a + c, b + d) && Cong(a - c, b - d)
  {
  }

  lemma SameResidue(a: int, b: int)
    requires Cong(a, b)
    ensures a % M == 0 <==> b % M == 0
  {
    var q := (a - b) / M;
    assert a == b + q * M;
  }

  lemma DropMultiple(a: int, b: int)
    requires a % M == 0
    ensures (a + b) % M == 0 <==> b % M == 0
  {
  }

  lemma Cancel(a: int, b: int)
    requires (a + b) % M == 0
    ensures a % M == 0 <==> b % M == 0
  {
  }

  lemma {:induction false} OnesSumMeaning(ws: seq<u16>)
    ensures Cong(OnesSum(ws), Sum(ws))
    ensures OnesSum(ws) == 0 <==> Sum(ws) == 0
  {
    if ws != [] {
      OnesSumMeaning(ws[..|ws| - 1]);
    }
  }

  /** A byte string verifies exactly when its word sum is a positive multiple of 65535. */
  lemma VerifiesIff(bs: seq<byte>)
    ensures Verifies(bs) <==> SumBe(bs) > 0 && SumBe(bs) % M == 0
  {
    OnesSumMeaning(WordsBe(bs));
  }

  lemma {:induction false} SumConcat(a: seq<nat>, b: seq<nat>)
    ensures Sum(a + b) == Sum(a) + Sum(b)
  {
    if b == [] {
      assert a + b == a;
    } else {
      SumConcat(a, b[..|b| - 1]);
      assert (a + b)[..|a + b| - 1] == a + b[..|b| - 1];
    }
  }

  lemma SumSnoc(ws: seq<nat>, x: nat)
    ensures Sum(ws + [x]) == Sum(ws) + x
  {
    assert (ws + [x])[..|ws|] == ws;
  }

  lemma {:induction false} WordsConcat(a: seq<byte>, b: seq<byte>)
    requires |a| % 2 == 0
    ensures WordsBe(a + b) == WordsBe(a) + WordsBe(b)
  {
    if a == [] {
      assert a + b == b;
    } else {
      hide Be16;
      WordsConcat(a[2..], b);
      assert (a + b)[2..] == a[2..] + b;
      assert WordsBe(a + b) == [Be16(a[0], a[1])] + WordsBe(a[2..] + b);
      assert WordsBe(a) == [Be16(a[0], a[1])] + WordsBe(a[2..]);
    }
  }

  lemma SumBeConcat(a: seq<byte>, b: seq<byte>)
    requires |a| % 2 == 0
    ensures SumBe(a + b) == SumBe(a) + SumBe(b)
  {
    WordsConcat(a, b);
    SumConcat(WordsBe(a), WordsBe(b));
  }

  /** Storing natively multiplies the network-order word by 1 or by 256, a unit modulo 65535. */
  function Scaled(e: Endian, x: nat): nat {
    if e.Big? then x else 0x100 * x
  }

  lemma StoreSum16(e: Endian, x: u16)
    ensures Cong(SumBe(Store16(e, x)), Scaled(e, x))
    ensures SumBe(Store16(e, x)) == 0 <==> x == 0
  {
    var bs := Store16(e, x);
    var w := Be16(bs[0], bs[1]);
    assert WordsBe(bs) == [w];
    assert Sum([w]) == Sum([w][..0]) + w;
    assert e.Little? ==> w - 0x100 * x == -(x / 0x100) * M;
  }

  lemma ScaledSum(e: Endian, a: nat, b: nat)
    ensures Scaled(e, a) + Scaled(e, b) == Scaled(e, a + b)
  {
  }

  lemma HalvesCong(e: Endian, hi: u16, lo: u16)
    ensures Cong(Scaled(e, hi) + Scaled(e, lo), Scaled(e, 0x1_0000 * hi + lo))
  {
    var q: int := if e.Big? then hi else 0x100 * hi;
    assert Scaled(e, 0x1_0000 * hi + lo) - Scaled(e, hi) - Scaled(e, lo) == q * M;
  }

  lemma CongTrans(a: int, b: int, c: int)
    requires Cong(a, b) && Cong(b, c)
    ensures Cong(a, c)
  {
  }

  lemma StoreSumHalves(e: Endian, hi: u16, lo: u16)
    ensures Cong(SumBe(Store16(e, hi)) + SumBe(Store16(e, lo)), Scaled(e, 0x1_0000 * hi + lo))
    ensures SumBe(Store16(e, hi)) + SumBe(Store16(e, lo)) == 0 <==> hi == 0 && lo == 0
  {
    hide *;
    StoreSum16(e, hi);
    StoreSum16(e, lo);
    var a, b := SumBe(Store16(e, hi)), SumBe(Store16(e, lo));
    CongAdd(a, Scaled(e, hi), b, Scaled(e, lo));
    HalvesCong(e, hi, lo);
    CongTrans(a + b, Scaled(e, hi) + Scaled(e, lo), Scaled(e, 0x1_0000 * hi + lo));
  }

  lemma StoreSum32(e: Endian, x: u32)
    ensures Cong(SumBe(Store32(e, x)), Scaled(e, x))
    ensures SumBe(Store32(e, x)) == 0 <==> x == 0
  {
    var hi, lo := x / 0x1_0000, x % 0x1_0000;
    StoreSumHalves(e, hi, lo);
    SumBeConcat(Store16(e, hi), Store16(e, lo));
    SumBeConcat(Store16(e, lo), Store16(e, hi));
    assert x == 0x1_0000 * hi + lo;
  }

  /** Multiplying by the scale neither creates nor hides a multiple of 65535. */
  lemma ScaleIsUnit(e: Endian, x: nat)
    ensures Scaled(e, x) % M == 0 <==> x % M == 0
  {
    if x % M == 0 {
      MultipleIsZero(0x100 * (x / M));
      assert 0x100 * x == 0x100 * (x / M) * M;
    }
    if (0x100 * x) % M == 0 {
      var q := 0x100 * x / M;
      MultipleIsZero(0x100 * q - x);
      assert x == (0x100 * q - x) * M;
    }
  }

  lemma MultipleIsZero(q: int)
    ensures (q * M) % M == 0
  {
  }

  // ---------------------------------------------------------------------------
  // csum_fold_helper
  // ---------------------------------------------------------------------------

  /** One conditional fold of the loop in `csum_fold_helper`. */
  function Fold(c: nat): nat {
    if c / 0x1_0000 > 0 then c % 0x1_0000 + c / 0x1_0000 else c
  }

  function Folds(n: nat, c: nat): nat {
    if n == 0 then c else Fold(Folds(n - 1, c))
  }

  lemma FoldKeepsResidue(c: nat)
    ensures Cong(Fold(c), c)
    ensures Fold(c) == 0 <==> c == 0
  {
    assert c / 0x1_0000 > 0 ==> c - Fold(c) == (c / 0x1_0000) * M;
  }

  lemma {:induction false} FoldsKeepResidue(n: nat, c: nat)
    ensures Cong(Folds(n, c), c)
    ensures Folds(n, c) == 0 <==> c == 0
  {
    if n > 0 {
      FoldsKeepResidue(n - 1, c);
      FoldKeepsResidue(Folds(n - 1, c));
    }
  }

  /** Four folds bring every 64-bit value into 16 bits, so the truncating cast drops nothing. */
  lemma FourFoldsFit(c: u64)
    ensures Folds(4, c) <= 0xFFFF
  {
    var f1, f2, f3 := Folds(1, c), Folds(2, c), Folds(3, c);
    assert f1 == Fold(Folds(0, c)) && f1 <= 0x1_0000_0000_FFFE;
    assert f2 == Fold(f1) && f2 <= 0x1_0001_FFFE;
    assert f3 == Fold(f2) && f3 <= 0x2_0000;
    assert f3 != 0x2_0000 && f3 != 0x1_FFFF;
  }

  /** Three folds do not: the largest 64-bit value is still 17 bits wide after them. */
  lemma ThreeFoldsDoNotFit()
    ensures Folds(3, 0xFFFF_FFFF_FFFF_FFFF) == 0x1_FFFE
  {
    assert Folds(1, 0xFFFF_FFFF_FFFF_FFFF) == Fold(0xFFFF_FFFF_FFFF_FFFF) == 0x1_0000_0000_FFFE;
    assert Folds(2, 0xFFFF_FFFF_FFFF_FFFF) == Fold(0x1_0000_0000_FFFE) == 0x1_0000_FFFE;
  }

  /** `csum_fold_helper`: the complement of the unique 16-bit residue that is zero only for zero. */
  method CsumFoldHelper(csum: u64) returns (r: u16)
    ensures Cong(M - r, csum)
    ensures M - r == 0 <==> csum == 0
  {
    var c: nat := csum;
    for i := 0 to 4
      invariant c == Folds(i, csum)
    {
      if c / 0x1_0000 > 0 {
        c := c % 0x1_0000 + c / 0x1_0000;
      }
    }
    FourFoldsFit(csum);
    FoldsKeepResidue(4, csum);
    r := 0xFFFF - c;
  }

  /** The two postconditions of `CsumFoldHelper` leave no choice of result. */
  lemma FoldIsDetermined(csum: u64, r: u16, r': u16)
    requires Cong(M - r, csum) && (M - r == 0 <==> csum == 0)
    requires Cong(M - r', csum) && (M - r' == 0 <==> csum == 0)
    ensures r == r'
  {
    assert (r - r') % M == 0;
  }
}
