/** The checksum of common/crc32.c on an example, so that its start value, its final complement, the order of the bits
    and the polynomial are those of every other CRC-32. */
module CrcValue {
  import opened Gf32
  import opened Gf32Vectors
  import opened Crc32

  /** Four divisions. */
  function Quarter(v: bv32): bv32 {
    Shifted(Shifted(Shifted(Shifted(v))))
  }

  /** Eight. */
  function Divided(v: bv32): bv32 {
    Quarter(Quarter(v))
  }

  lemma Divide(n: nat, v: bv32, w: bv32)
    requires n > 0 && w == Shifted(v)
    ensures Iter(n, AsWord(v), CRC32_POLY) == Iter(n - 1, AsWord(w), CRC32_POLY)
  {
    WordShifted(v);
  }

  lemma QuarterIs(n: nat, v: bv32)
    ensures Iter(n + 4, AsWord(v), CRC32_POLY) == Iter(n, AsWord(Quarter(v)), CRC32_POLY)
  {
    var v1 := Shifted(v);
    var v2 := Shifted(v1);
    var v3 := Shifted(v2);
    Divide(n + 4, v, v1);
    Divide(n + 3, v1, v2);
    Divide(n + 2, v2, v3);
    Divide(n + 1, v3, Shifted(v3));
  }

  lemma DividedIs(v: bv32)
    ensures Iter(8, AsWord(v), CRC32_POLY) == AsWord(Divided(v))
  {
    QuarterIs(4, v);
    QuarterIs(0, Quarter(v));
  }

  /** A character. */
  function Octet(b: bv32): Byte {
    AsWord(b)[..8]
  }

  lemma OctetIs(b: bv32)
    requires b < 0x100
    ensures At(Octet(b), 0) == AsWord(b)
  {
    forall i: nat | 8 <= i < 32 ensures !AsWord(b)[i] {
      HighBit(b, i);
    }
  }

  lemma HighBit(b: bv32, i: nat)
    requires b < 0x100 && 8 <= i < 32
    ensures !Bit(b, i)
  {
    Masks();
  }

  /** One byte of the checksum. */
  lemma ByteIs(c: bv32, b: bv32, x: bv32, d: bv32)
    requires b < 0x100 && x == c ^ b && d == Divided(x)
    ensures Step(AsWord(c), Octet(b), CRC32_POLY) == AsWord(d)
  {
    OctetIs(b);
    WordXor(c, b);
    DividedIs(x);
  }

  lemma StartIs()
    ensures AsWord(0xffffffff) == ONES
  {
    forall i: nat | i < 32 ensures Bit(0xffffffff, i) {
      Masks();
    }
  }

  /** "123456789" */
  function Nine(): seq<Byte> {
    [Octet(0x31), Octet(0x32), Octet(0x33), Octet(0x34), Octet(0x35), Octet(0x36), Octet(0x37), Octet(0x38), Octet(0x39)]
  }

  lemma NextByte(data: seq<Byte>, i: nat, c: bv32, d: bv32)
    requires i < |data| && Step(AsWord(c), data[i], CRC32_POLY) == AsWord(d)
    ensures Crc(data[i..], AsWord(c), CRC32_POLY) == Crc(data[i + 1..], AsWord(d), CRC32_POLY)
  {
    assert data[i..][0] == data[i] && data[i..][1..] == data[i + 1..];
  }

  lemma First()
    ensures Crc(Nine()[0..], AsWord(0xffffffff), CRC32_POLY) == Crc(Nine()[3..], AsWord(0x77b79c2d), CRC32_POLY)
  {
    ByteIs(0xffffffff, 0x31, 0xffffffce, 0x7c231048);
    NextByte(Nine(), 0, 0xffffffff, 0x7c231048);
    ByteIs(0x7c231048, 0x32, 0x7c23107a, 0xb0acbb32);
    NextByte(Nine(), 1, 0x7c231048, 0xb0acbb32);
    ByteIs(0xb0acbb32, 0x33, 0xb0acbb01, 0x77b79c2d);
    NextByte(Nine(), 2, 0xb0acbb32, 0x77b79c2d);
  }

  lemma Middle()
    ensures Crc(Nine()[3..], AsWord(0x77b79c2d), CRC32_POLY) == Crc(Nine()[6..], AsWord(0xf68d2c9e), CRC32_POLY)
  {
    ByteIs(0x77b79c2d, 0x34, 0x77b79c19, 0x641c1f5c);
    NextByte(Nine(), 3, 0x77b79c2d, 0x641c1f5c);
    ByteIs(0x641c1f5c, 0x35, 0x641c1f69, 0x340ac5e3);
    NextByte(Nine(), 4, 0x641c1f5c, 0x340ac5e3);
    ByteIs(0x340ac5e3, 0x36, 0x340ac5d5, 0xf68d2c9e);
    NextByte(Nine(), 5, 0x340ac5e3, 0xf68d2c9e);
  }

  lemma Last()
    ensures Crc(Nine()[6..], AsWord(0xf68d2c9e), CRC32_POLY) == Crc(Nine()[9..], AsWord(0x340bc6d9), CRC32_POLY)
  {
    ByteIs(0xf68d2c9e, 0x37, 0xf68d2ca9, 0xaffc9660);
    NextByte(Nine(), 6, 0xf68d2c9e, 0xaffc9660);
    ByteIs(0xaffc9660, 0x38, 0xaffc9658, 0x651f2550);
    NextByte(Nine(), 7, 0xaffc9660, 0x651f2550);
    ByteIs(0x651f2550, 0x39, 0x651f2569, 0x340bc6d9);
    NextByte(Nine(), 8, 0x651f2550, 0x340bc6d9);
  }

  /** The checksum of "123456789" is 0xcbf43926. */
  lemma CheckValue()
    ensures Compute(Nine(), CRC32_POLY) == AsWord(0xcbf43926)
  {
    StartIs();
    First();
    Middle();
    Last();
    assert Nine()[0..] == Nine() && Nine()[9..] == [];
    WordXor(0x340bc6d9, 0xffffffff);
  }
}
