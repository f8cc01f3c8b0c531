/** Products modulo the polynomial of CRC-32 on 32-bit vectors: the same bits as the words of Gf32, with rounds of
    gf32_mul (common/crc32.c) that can be computed with. */
module Gf32Vectors {
  import opened Gf32
  import opened Crc32

  // ----- words as bit vectors -----

  /** 1 << i. */
  function Mask(i: nat): bv32 {
    if i == 0 then 1 else Mask(i - 1) << 1
  }

  predicate Has(v: bv32, m: bv32) {
    v & m != 0
  }

  predicate Bit(v: bv32, i: nat) {
    Has(v, Mask(i))
  }

  function AsWord(v: bv32): Word {
    seq(32, i requires 0 <= i < 32 => Bit(v, i))
  }

  /** gf32_mulx with the polynomial of CRC-32. */
  function Shifted(v: bv32): bv32 {
    if v & 1 != 0 then (v >> 1) ^ 0xedb88320 else v >> 1
  }

  lemma {:induction false} MaskIs(i: nat)
    ensures Mask(i) & (Mask(i) - 1) == 0
  {
    if i > 0 {
      MaskIs(i - 1);
      TwiceMask(Mask(i - 1));
    }
  }

  lemma TwiceMask(m: bv32)
    requires m & (m - 1) == 0
    ensures (m << 1) & ((m << 1) - 1) == 0
  {
  }

  lemma HasXor(a: bv32, b: bv32, c: bv32, m: bv32)
    requires m & (m - 1) == 0 && c == a ^ b
    ensures Has(c, m) == (Has(a, m) != Has(b, m))
  {
  }

  lemma HasHalf(v: bv32, w: bv32, m: bv32, n: bv32)
    requires n == m << 1 && w == v >> 1
    ensures Has(w, m) == Has(v, n)
  {
  }

  lemma MaskNext(i: nat)
    ensures Mask(i + 1) == Mask(i) << 1
  {
  }

  lemma BitXor(a: bv32, b: bv32, i: nat)
    ensures Bit(a ^ b, i) == (Bit(a, i) != Bit(b, i))
  {
    MaskIs(i);
    HasXor(a, b, a ^ b, Mask(i));
  }

  lemma BitHalf(v: bv32, i: nat)
    ensures Bit(v >> 1, i) == Bit(v, i + 1)
  {
    MaskNext(i);
    HasHalf(v, v >> 1, Mask(i), Mask(i + 1));
  }

  lemma WordXor(a: bv32, b: bv32)
    ensures AsWord(a ^ b) == Xor(AsWord(a), AsWord(b))
  {
    forall i: nat | i < 32 ensures AsWord(a ^ b)[i] == Xor(AsWord(a), AsWord(b))[i] {
      BitXor(a, b, i);
    }
  }

  lemma NoMask(v: bv32)
    ensures !Bit(v, 32)
  {
    assert Mask(8) == 0x100;
    assert Mask(16) == 0x10000;
    assert Mask(24) == 0x1000000;
    assert Mask(32) == 0;
  }

  lemma HalfAt(a: Word, i: nat)
    requires i < 32
    ensures Half(a)[i] == (i < 31 && a[i + 1])
  {
  }

  lemma WordHalf(v: bv32)
    ensures AsWord(v >> 1) == Half(AsWord(v))
  {
    forall i: nat | i < 32 ensures AsWord(v >> 1)[i] == Half(AsWord(v))[i] {
      HalfAt(AsWord(v), i);
      BitHalf(v, i);
      if i == 31 { NoMask(v); }
    }
  }

  lemma PolyIs()
    ensures AsWord(0xedb88320) == CRC32_POLY
  {
    forall i: nat | i < 32 ensures AsWord(0xedb88320)[i] == CRC32_POLY[i] {
      PolyBit(i);
    }
  }

  /** The masks as literals. */
  lemma Masks()
    ensures Mask(0) == 0x00000001 && Mask(1) == 0x00000002 && Mask(2) == 0x00000004 && Mask(3) == 0x00000008
    ensures Mask(4) == 0x00000010 && Mask(5) == 0x00000020 && Mask(6) == 0x00000040 && Mask(7) == 0x00000080
    ensures Mask(8) == 0x00000100 && Mask(9) == 0x00000200 && Mask(10) == 0x00000400 && Mask(11) == 0x00000800
    ensures Mask(12) == 0x00001000 && Mask(13) == 0x00002000 && Mask(14) == 0x00004000 && Mask(15) == 0x00008000
    ensures Mask(16) == 0x00010000 && Mask(17) == 0x00020000 && Mask(18) == 0x00040000 && Mask(19) == 0x00080000
    ensures Mask(20) == 0x00100000 && Mask(21) == 0x00200000 && Mask(22) == 0x00400000 && Mask(23) == 0x00800000
    ensures Mask(24) == 0x01000000 && Mask(25) == 0x02000000 && Mask(26) == 0x04000000 && Mask(27) == 0x08000000
    ensures Mask(28) == 0x10000000 && Mask(29) == 0x20000000 && Mask(30) == 0x40000000 && Mask(31) == 0x80000000
  {
  }

  lemma PolyBit(i: nat)
    requires i < 32
    ensures Bit(0xedb88320, i) == CRC32_POLY[i]
  {
    Masks();
  }

  lemma WordConstants()
    ensures AsWord(0) == ZERO && AsWord(0x80000000) == ONE
  {
    Masks();
  }

  lemma WordShifted(v: bv32)
    ensures AsWord(Shifted(v)) == MulX(AsWord(v), CRC32_POLY)
  {
    WordHalf(v);
    PolyIs();
    WordXor(v >> 1, 0xedb88320);
    assert Mask(0) == 1;
  }

  // ----- products -----

  /** One round of gf32_mul. */
  function Round(x: bv32, a: bv32, b: bv32): bv32 {
    Shifted(x) ^ (if b & 1 != 0 then a else 0)
  }

  /** n rounds. */
  function Rounds(x: bv32, a: bv32, b: bv32, n: nat): bv32
    decreases n
  {
    if n == 0 then x else Rounds(Round(x, a, b), a, b >> 1, n - 1)
  }

  lemma LowestBits(b: bv32, n: nat)
    requires 0 < n <= 32
    ensures AsWord(b)[..n][0] == (b & 1 != 0) && AsWord(b)[..n][1..] == AsWord(b >> 1)[..n - 1]
  {
    assert Mask(0) == 1;
    forall i: nat | i < n - 1 ensures AsWord(b)[..n][1..][i] == AsWord(b >> 1)[..n - 1][i] {
      BitHalf(b, i);
    }
  }

  lemma RoundDef(x: bv32, a: bv32, b: bv32)
    ensures Round(x, a, b) == if b & 1 != 0 then Shifted(x) ^ a else Shifted(x)
  {
  }

  lemma WordAdd(x: bv32, s: bv32, a: bv32, r: bv32)
    requires r == s ^ a && AsWord(s) == MulX(AsWord(x), CRC32_POLY)
    ensures AsWord(r) == Xor(MulX(AsWord(x), CRC32_POLY), AsWord(a))
  {
    WordXor(s, a);
  }

  lemma WordSame(x: bv32, s: bv32)
    requires AsWord(s) == MulX(AsWord(x), CRC32_POLY)
    ensures AsWord(s) == Xor(MulX(AsWord(x), CRC32_POLY), ZERO)
  {
    XorLaws(AsWord(s), ZERO, ZERO);
  }

  lemma RoundIs(x: bv32, a: bv32, b: bv32, r: bv32)
    requires r == Round(x, a, b)
    ensures b & 1 != 0 ==> Xor(MulX(AsWord(x), CRC32_POLY), AsWord(a)) == AsWord(r)
    ensures b & 1 == 0 ==> Xor(MulX(AsWord(x), CRC32_POLY), ZERO) == AsWord(r)
  {
    RoundDef(x, a, b);
    WordShifted(x);
    if b & 1 != 0 { WordAdd(x, Shifted(x), a, r); } else { WordSame(x, Shifted(x)); }
  }

  lemma HornerStep(a: bv32, x: bv32, bits: seq<bool>, r: bv32)
    requires bits != [] && Xor(MulX(AsWord(x), CRC32_POLY), if bits[0] then AsWord(a) else ZERO) == AsWord(r)
    ensures Horner(AsWord(a), AsWord(x), bits, CRC32_POLY) == Horner(AsWord(a), AsWord(r), bits[1..], CRC32_POLY)
  {
  }

  lemma {:induction false} RoundsAre(x: bv32, a: bv32, b: bv32, n: nat)
    requires n <= 32
    ensures Horner(AsWord(a), AsWord(x), AsWord(b)[..n], CRC32_POLY) == AsWord(Rounds(x, a, b, n))
    decreases n
  {
    if n > 0 {
      RoundsNext(x, a, b, b >> 1, n, Round(x, a, b));
      RoundsAre(Round(x, a, b), a, b >> 1, n - 1);
    }
  }

  lemma RoundsNext(x: bv32, a: bv32, b: bv32, b1: bv32, n: nat, r: bv32)
    requires 0 < n <= 32 && r == Round(x, a, b) && b1 == b >> 1
    ensures Horner(AsWord(a), AsWord(x), AsWord(b)[..n], CRC32_POLY)
            == Horner(AsWord(a), AsWord(r), AsWord(b1)[..n - 1], CRC32_POLY)
  {
    LowestBits(b, n);
    RoundIs(x, a, b, r);
    HornerStep(a, x, AsWord(b)[..n], r);
  }

  lemma ProductIs(a: bv32, b: bv32, c: bv32)
    requires Rounds(0, a, b, 32) == c
    ensures Product(AsWord(a), AsWord(b), CRC32_POLY) == AsWord(c)
  {
    WordConstants();
    RoundsAre(0, a, b, 32);
    assert AsWord(b)[..32] == AsWord(b);
  }

  lemma OneMore(x: bv32, a: bv32, b: bv32, x1: bv32, b1: bv32, n: nat)
    requires Round(x, a, b) == x1 && b >> 1 == b1
    ensures Rounds(x, a, b, n + 1) == Rounds(x1, a, b1, n)
  {
  }

  // The same two, four, eight and sixteen at a time, as expressions; the number says how many.

  function Shift2(b: bv32): bv32 {
    (b >> 1) >> 1
  }

  function Rounds2(x: bv32, a: bv32, b: bv32): bv32 {
    Round(Round(x, a, b), a, b >> 1)
  }

  lemma TwoVia(x: bv32, a: bv32, b: bv32, x1: bv32, b1: bv32, x2: bv32, b2: bv32, n: nat)
    requires Round(x, a, b) == x1 && b >> 1 == b1 && Round(x1, a, b1) == x2 && b1 >> 1 == b2
    ensures Rounds(x, a, b, n + 2) == Rounds(x2, a, b2, n)
  {
    OneMore(x, a, b, x1, b1, n + 1);
    OneMore(x1, a, b1, x2, b2, n);
  }

  lemma TwoMore(x: bv32, a: bv32, b: bv32, x2: bv32, b2: bv32, n: nat)
    requires Rounds2(x, a, b) == x2 && Shift2(b) == b2
    ensures Rounds(x, a, b, n + 2) == Rounds(x2, a, b2, n)
  {
    TwoVia(x, a, b, Round(x, a, b), b >> 1, x2, b2, n);
  }

  function Shift4(b: bv32): bv32 {
    Shift2(Shift2(b))
  }

  function Rounds4(x: bv32, a: bv32, b: bv32): bv32 {
    Rounds2(Rounds2(x, a, b), a, Shift2(b))
  }

  lemma FourVia(x: bv32, a: bv32, b: bv32, x1: bv32, b1: bv32, x2: bv32, b2: bv32, n: nat)
    requires Rounds2(x, a, b) == x1 && Shift2(b) == b1 && Rounds2(x1, a, b1) == x2 && Shift2(b1) == b2
    ensures Rounds(x, a, b, n + 4) == Rounds(x2, a, b2, n)
  {
    TwoMore(x, a, b, x1, b1, n + 2);
    TwoMore(x1, a, b1, x2, b2, n);
  }

  lemma FourMore(x: bv32, a: bv32, b: bv32, x2: bv32, b2: bv32, n: nat)
    requires Rounds4(x, a, b) == x2 && Shift4(b) == b2
    ensures Rounds(x, a, b, n + 4) == Rounds(x2, a, b2, n)
  {
    FourVia(x, a, b, Rounds2(x, a, b), Shift2(b), x2, b2, n);
  }

  function Shift8(b: bv32): bv32 {
    Shift4(Shift4(b))
  }

  function Rounds8(x: bv32, a: bv32, b: bv32): bv32 {
    Rounds4(Rounds4(x, a, b), a, Shift4(b))
  }

  lemma EightVia(x: bv32, a: bv32, b: bv32, x1: bv32, b1: bv32, x2: bv32, b2: bv32, n: nat)
    requires Rounds4(x, a, b) == x1 && Shift4(b) == b1 && Rounds4(x1, a, b1) == x2 && Shift4(b1) == b2
    ensures Rounds(x, a, b, n + 8) == Rounds(x2, a, b2, n)
  {
    FourMore(x, a, b, x1, b1, n + 4);
    FourMore(x1, a, b1, x2, b2, n);
  }

  lemma EightMore(x: bv32, a: bv32, b: bv32, x2: bv32, b2: bv32, n: nat)
    requires Rounds8(x, a, b) == x2 && Shift8(b) == b2
    ensures Rounds(x, a, b, n + 8) == Rounds(x2, a, b2, n)
  {
    EightVia(x, a, b, Rounds4(x, a, b), Shift4(b), x2, b2, n);
  }

  function Shift16(b: bv32): bv32 {
    Shift8(Shift8(b))
  }

  function Rounds16(x: bv32, a: bv32, b: bv32): bv32 {
    Rounds8(Rounds8(x, a, b), a, Shift8(b))
  }

  lemma SixteenVia(x: bv32, a: bv32, b: bv32, x1: bv32, b1: bv32, x2: bv32, b2: bv32, n: nat)
    requires Rounds8(x, a, b) == x1 && Shift8(b) == b1 && Rounds8(x1, a, b1) == x2 && Shift8(b1) == b2
    ensures Rounds(x, a, b, n + 16) == Rounds(x2, a, b2, n)
  {
    EightMore(x, a, b, x1, b1, n + 8);
    EightMore(x1, a, b1, x2, b2, n);
  }

  lemma SixteenMore(x: bv32, a: bv32, b: bv32, x2: bv32, b2: bv32, n: nat)
    requires Rounds16(x, a, b) == x2 && Shift16(b) == b2
    ensures Rounds(x, a, b, n + 16) == Rounds(x2, a, b2, n)
  {
    SixteenVia(x, a, b, Rounds8(x, a, b), Shift8(b), x2, b2, n);
  }

  /** gf32_mul. */
  function Multiplied(a: bv32, b: bv32): bv32 {
    Rounds16(Rounds16(0, a, b), a, Shift16(b))
  }

  lemma MultipliedVia(a: bv32, b: bv32, x1: bv32, b1: bv32, c: bv32, b2: bv32)
    requires Rounds16(0, a, b) == x1 && Shift16(b) == b1 && Rounds16(x1, a, b1) == c && Shift16(b1) == b2
    ensures Rounds(0, a, b, 32) == c
  {
    SixteenMore(0, a, b, x1, b1, 16);
    SixteenMore(x1, a, b1, c, b2, 0);
  }

  /** It is the product of the words. */
  lemma MultipliedIs(a: bv32, b: bv32, c: bv32)
    requires Multiplied(a, b) == c
    ensures Product(AsWord(a), AsWord(b), CRC32_POLY) == AsWord(c)
  {
    MultipliedVia(a, b, Rounds16(0, a, b), Shift16(b), c, Shift16(Shift16(b)));
    ProductIs(a, b, c);
  }
}
