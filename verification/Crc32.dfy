/** CRC-32 in common/crc32.c: the sliced-table loop, concatenation by matrix powers, and single-bit repair. */
module Crc32 {
  import opened Gf32
  import opened PowersOfTwo

  type Byte = b: seq<bool> | |b| == 8 witness Zeros(8)

  /** 0xedb88320, lowest bit first. */
  const CRC32_POLY: Poly :=
    [false, false, false, false, false, true, false, false,
     true, true, false, false, false, false, false, true,
     false, false, false, true, true, true, false, true,
     true, false, true, true, false, true, true, true]

  /** -1. */
  const ONES: Word := Ones(32)

  function Ones(n: nat): (r: seq<bool>)
    ensures |r| == n
  {
    seq(n, i => true)
  }

  // ----- bit-at-a-time division -----

  /** A byte placed k bits up. */
  function At(b: Byte, k: nat): Word
    requires k <= 24
  {
    Zeros(k) + b + Zeros(24 - k)
  }

  function Step(crc: Word, b: Byte, p: Poly): Word {
    Iter(8, Xor(crc, At(b, 0)), p)
  }

  /** The reference: each byte is added to the low bits, then divided out bit by bit. */
  function Crc(data: seq<Byte>, crc: Word, p: Poly): Word {
    if data == [] then crc else Crc(data[1..], Step(crc, data[0], p), p)
  }

  /** compute_crc32. */
  function Compute(data: seq<Byte>, p: Poly): Word {
    Xor(Crc(data, ONES, p), ONES)
  }

  lemma {:induction false} CrcAppend(a: seq<Byte>, b: seq<Byte>, crc: Word, p: Poly)
    ensures Crc(a + b, crc, p) == Crc(b, Crc(a, crc, p), p)
  {
    if a == [] {
      assert a + b == b;
    } else {
      assert (a + b)[1..] == a[1..] + b;
      CrcAppend(a[1..], b, Step(crc, a[0], p), p);
    }
  }

  lemma StepLinear(crc: Word, d: Word, b: Byte, p: Poly)
    ensures Step(Xor(crc, d), b, p) == Xor(Step(crc, b, p), Iter(8, d, p))
  {
    var w := At(b, 0);
    assert Xor(Xor(crc, d), w) == Xor(Xor(crc, w), d) by {
      XorLaws(crc, d, w);
      XorLaws(crc, w, d);
      XorLaws(d, w, crc);
    }
    IterLinear(8, Xor(crc, w), d, p);
  }

  /** A difference in the start value shows multiplied by x^8 per byte. */
  lemma {:induction false} CrcLinear(data: seq<Byte>, crc: Word, d: Word, p: Poly)
    ensures Crc(data, Xor(crc, d), p) == Xor(Crc(data, crc, p), Iter(8 * |data|, d, p))
    decreases |data|
  {
    if data != [] {
      StepLinear(crc, d, data[0], p);
      CrcLinear(data[1..], Step(crc, data[0], p), Iter(8, d, p), p);
      IterPlus(8 * (|data| - 1), 8, d, p);
    }
  }

  /** The checksum of a concatenation. */
  lemma Concatenation(a: seq<Byte>, b: seq<Byte>, p: Poly)
    ensures Compute(a + b, p) == Xor(Iter(8 * |b|, Compute(a, p), p), Compute(b, p))
  {
    var c := Crc(a, ONES, p);
    var shifted := Iter(8 * |b|, Compute(a, p), p);
    CrcAppend(a, b, ONES, p);
    XorLaws(c, ONES, ZERO);
    XorLaws(ONES, Compute(a, p), ZERO);
    assert c == Xor(ONES, Compute(a, p));
    CrcLinear(b, ONES, Compute(a, p), p);
    XorLaws(Crc(b, ONES, p), shifted, ONES);
    XorLaws(shifted, Crc(b, ONES, p), ONES);
  }

  /** The checksum as bytes, lowest first. */
  function BytesOf(crc: Word): (r: seq<Byte>)
    ensures |r| == 4
  {
    [ByteOf(crc, 0), ByteOf(crc, 8), ByteOf(crc, 16), ByteOf(crc, 24)]
  }

  /** Data with its checksum behind it: whatever the data, the division leaves the same remainder. */
  lemma Residue(data: seq<Byte>, p: Poly)
    ensures Crc(data + BytesOf(Compute(data, p)), ONES, p) == Iter(32, ONES, p)
  {
    var c, sum := Crc(data, ONES, p), Compute(data, p);
    CrcAppend(data, BytesOf(sum), ONES, p);
    DoOneIs(c, BytesOf(sum), p);
    WordOfBytes(sum);
    BackToOnes(c);
    FourTables(ONES, p);
  }

  lemma WordOfBytes(w: Word)
    ensures WordOf(BytesOf(w)) == w
  {
  }

  lemma BackToOnes(c: Word)
    ensures Xor(c, Xor(c, ONES)) == ONES
  {
    forall i | 0 <= i < 32 ensures Xor(c, Xor(c, ONES))[i] == ONES[i] {
      assert Xor(c, ONES)[i] == (c[i] != ONES[i]);
    }
  }

  // ----- the tables -----

  /** Entry b of the table for n bits: crc32_table is for 8, crc32_table2 for 16, crc32_table1 for 24 and
      crc32_table0 for 32. */
  function Table(n: nat, b: Byte, p: Poly): Word {
    Iter(n, At(b, 0), p)
  }

  /** (crc >> k) & 0xff. */
  function ByteOf(crc: Word, k: nat): Byte
    requires k <= 24
  {
    crc[k..k + 8]
  }

  /** One byte: crc = crc32_table[(crc ^ q) & 0xff] ^ (crc >> 8). */
  function TableStep(crc: Word, b: Byte, p: Poly): Word {
    Xor(Table(8, ByteOf(Xor(crc, At(b, 0)), 0), p), crc[8..] + Zeros(8))
  }

  lemma TableStepIs(crc: Word, b: Byte, p: Poly)
    ensures TableStep(crc, b, p) == Step(crc, b, p)
  {
    var c := Xor(crc, At(b, 0));
    var high: Word := Zeros(8) + crc[8..];
    assert c == Xor(At(ByteOf(c, 0), 0), high);
    IterLinear(8, At(ByteOf(c, 0), 0), high, p);
    IterShift(8, high, p);
    assert high[8..] == crc[8..];
  }

  /** DO_ONE. */
  function DoOne(crc: Word, v: Word, p: Poly): Word {
    var c := Xor(crc, v);
    Xor(Xor(Xor(Table(32, ByteOf(c, 0), p), Table(24, ByteOf(c, 8), p)), Table(16, ByteOf(c, 16), p)), Table(8, ByteOf(c, 24), p))
  }

  lemma AtShift(b: Byte, k: nat, n: nat, p: Poly)
    requires k <= 24
    ensures Iter(n + k, At(b, k), p) == Table(n, b, p)
  {
    IterPlus(n, k, At(b, k), p);
    IterShift(k, At(b, k), p);
    assert At(b, k)[k..] + Zeros(k) == At(b, 0);
  }

  lemma FourTables(c: Word, p: Poly)
    ensures Xor(Xor(Xor(Table(32, ByteOf(c, 0), p), Table(24, ByteOf(c, 8), p)), Table(16, ByteOf(c, 16), p)),
                Table(8, ByteOf(c, 24), p)) == Iter(32, c, p)
  {
    var c0, c1, c2, c3 := At(ByteOf(c, 0), 0), At(ByteOf(c, 8), 8), At(ByteOf(c, 16), 16), At(ByteOf(c, 24), 24);
    assert c == Xor(Xor(Xor(c0, c1), c2), c3);
    IterLinear(32, Xor(Xor(c0, c1), c2), c3, p);
    IterLinear(32, Xor(c0, c1), c2, p);
    IterLinear(32, c0, c1, p);
    AtShift(ByteOf(c, 8), 8, 24, p);
    AtShift(ByteOf(c, 16), 16, 16, p);
    AtShift(ByteOf(c, 24), 24, 8, p);
  }

  /** Adding a byte after k bits are divided out is adding it k bits up before. */
  lemma Absorb(x: Word, b: Byte, k: nat, p: Poly)
    requires k <= 24
    ensures Step(Iter(k, x, p), b, p) == Iter(8 + k, Xor(x, At(b, k)), p)
  {
    AtShift(b, k, 0, p);
    IterLinear(k, x, At(b, k), p);
    IterPlus(8, k, Xor(x, At(b, k)), p);
  }

  function WordOf(data: seq<Byte>): Word
    requires |data| == 4
  {
    var low: seq<bool> := data[0];
    low + data[1] + data[2] + data[3]
  }

  /** Four bytes through the four tables are four bytes divided bit by bit. */
  lemma DoOneIs(crc: Word, data: seq<Byte>, p: Poly)
    requires |data| == 4
    ensures DoOne(crc, WordOf(data), p) == Crc(data, crc, p)
  {
    var x1 := Xor(crc, At(data[0], 0));
    var x2 := Xor(x1, At(data[1], 8));
    var x3 := Xor(x2, At(data[2], 16));
    var x4 := Xor(x3, At(data[3], 24));
    assert x4 == Xor(crc, WordOf(data));
    Absorb(x1, data[1], 8, p);
    Absorb(x2, data[2], 16, p);
    Absorb(x3, data[3], 24, p);
    FourTables(x4, p);
    FourSteps(data, crc, p);
  }

  lemma CrcStep(data: seq<Byte>, crc: Word, p: Poly)
    requires data != []
    ensures Crc(data, crc, p) == Crc(data[1..], Step(crc, data[0], p), p)
  {
  }

  lemma FourSteps(data: seq<Byte>, crc: Word, p: Poly)
    requires |data| == 4
    ensures Crc(data, crc, p) == Step(Step(Step(Step(crc, data[0], p), data[1], p), data[2], p), data[3], p)
  {
    var s1 := Step(crc, data[0], p);
    var s2 := Step(s1, data[1], p);
    var s3 := Step(s2, data[2], p);
    CrcStep(data, crc, p);
    CrcStep(data[1..], s1, p);
    assert data[1..][1..] == data[2..];
    CrcStep(data[2..], s2, p);
    assert data[2..][1..] == data[3..];
    CrcStep(data[3..], s3, p);
    assert data[3..][1..] == [];
  }

  /** The checksum grows by the next n bytes. */
  lemma CrcNext(data: seq<Byte>, at: nat, n: nat, crc: Word, p: Poly)
    requires at + n <= |data|
    ensures Crc(data[..at + n], crc, p) == Crc(data[at..at + n], Crc(data[..at], crc, p), p)
  {
    assert data[..at + n] == data[..at] + data[at..at + n];
    CrcAppend(data[..at], data[at..at + n], crc, p);
  }

  // ----- crc32_partial_generic -----

  method FourBytes(data: seq<Byte>, at: nat, start: Word, crc: Word, p: Poly) returns (r: Word)
    requires at + 4 <= |data| && crc == Crc(data[..at], start, p)
    ensures r == Crc(data[..at + 4], start, p)
  {
    r := DoOne(crc, WordOf(data[at..at + 4]), p);
    DoOneIs(crc, data[at..at + 4], p);
    CrcNext(data, at, 4, start, p);
  }

  /** DO_FOUR. */
  method SixteenBytes(data: seq<Byte>, at: nat, start: Word, crc: Word, p: Poly) returns (r: Word)
    requires at + 16 <= |data| && crc == Crc(data[..at], start, p)
    ensures r == Crc(data[..at + 16], start, p)
  {
    r := FourBytes(data, at, start, crc, p);
    r := FourBytes(data, at + 4, start, r, p);
    r := FourBytes(data, at + 8, start, r, p);
    r := FourBytes(data, at + 12, start, r, p);
  }

  method OneByte(data: seq<Byte>, at: nat, start: Word, crc: Word, p: Poly) returns (r: Word)
    requires at < |data| && crc == Crc(data[..at], start, p)
    ensures r == Crc(data[..at + 1], start, p)
  {
    r := TableStep(crc, data[at], p);
    TableStepIs(crc, data[at], p);
    CrcNext(data, at, 1, start, p);
    var one := data[at..at + 1];
    assert one[1..] == [] && one[0] == data[at];
    assert Crc(one, crc, p) == Crc([], Step(crc, data[at], p), p);
  }

  lemma Digits(len: nat)
    ensures 32 * (len / 32) + 16 * (len / 16 % 2) + 8 * (len / 8 % 2) + 4 * (len / 4 % 2) + 2 * (len / 2 % 2) + len % 2 == len
  {
    assert len == 2 * (len / 2) + len % 2;
    assert len / 4 == len / 2 / 2 && len / 2 == 2 * (len / 4) + len / 2 % 2;
    assert len / 8 == len / 4 / 2 && len / 4 == 2 * (len / 8) + len / 4 % 2;
    assert len / 16 == len / 8 / 2 && len / 8 == 2 * (len / 16) + len / 8 % 2;
    assert len / 32 == len / 16 / 2 && len / 16 == 2 * (len / 32) + len / 16 % 2;
  }

  /** 32 bytes at a time, then 16, 8, 4, 2 and 1. */
  method Partial(data: seq<Byte>, start: Word, p: Poly) returns (crc: Word)
    ensures crc == Crc(data, start, p)
  {
    var len, at := |data|, 0;
    Digits(len);
    crc := start;
    var x := len / 32;
    while x > 0
      invariant 0 <= x && at == 32 * (len / 32 - x) && crc == Crc(data[..at], start, p)
    {
      crc := SixteenBytes(data, at, start, crc, p);
      crc := SixteenBytes(data, at + 16, start, crc, p);
      at, x := at + 32, x - 1;
    }
    if len / 16 % 2 == 1 {
      crc := SixteenBytes(data, at, start, crc, p);
      at := at + 16;
    }
    if len / 8 % 2 == 1 {
      crc := FourBytes(data, at, start, crc, p);
      crc := FourBytes(data, at + 4, start, crc, p);
      at := at + 8;
    }
    if len / 4 % 2 == 1 {
      crc := FourBytes(data, at, start, crc, p);
      at := at + 4;
    }
    crc := LastBytes(data, at, start, crc, p);
  }

  /** The bytes that are left of the last four. */
  method LastBytes(data: seq<Byte>, from: nat, start: Word, crc0: Word, p: Poly) returns (crc: Word)
    requires from + 2 * (|data| / 2 % 2) + |data| % 2 == |data| && crc0 == Crc(data[..from], start, p)
    ensures crc == Crc(data, start, p)
  {
    var len, at := |data|, from;
    crc := crc0;
    if len / 2 % 2 == 1 {
      crc := OneByte(data, at, start, crc, p);
      crc := OneByte(data, at + 1, start, crc, p);
      at := at + 2;
    }
    if len % 2 == 1 {
      crc := OneByte(data, at, start, crc, p);
      at := at + 1;
    }
    assert data[..at] == data;
  }

  // ----- powers of the shift matrix -----

  /** The first n matrices multiply by x, x^2, x^4, ... */
  ghost predicate Powers(P: seq<Word>, n: nat, p: Poly) {
    && |P| >= 32 * n
    && forall j: nat {:trigger Columns(P[32 * j..32 * j + 32], 0, Two(j), p)} ::
         j < n ==> Columns(P[32 * j..32 * j + 32], 0, Two(j), p)
  }

  lemma FirstColumns(P: seq<Word>, p: Poly)
    requires |P| == 32 && P[0] == p && forall n :: 0 <= n < 31 ==> P[n + 1] == Unit(n)
    ensures Columns(P, 0, Two(0), p)
  {
    forall i | 0 <= i < 32 ensures Iter(0, P[i], p) == Iter(Two(0), Unit(i), p) {
      if i > 0 {
        UnitStep(i - 1, p);
        assert P[(i - 1) + 1] == Unit(i - 1);
      } else {
        assert MulX(Unit(0), p) == p;
      }
    }
  }

  lemma SquareColumn(M: seq<Word>, k: nat, i: nat, p: Poly)
    requires Columns(M, 0, k, p) && i < 32
    ensures Iter(0, Times(M, M[i]), p) == Iter(2 * k, Unit(i), p)
  {
    TimesIs(M, 0, k, M[i], p);
    assert Iter(0, M[i], p) == Iter(k, Unit(i), p);
    IterPlus(k, k, Unit(i), p);
  }

  lemma NotZero(M: seq<Word>, k: nat, p: Poly)
    requires Columns(M, 0, k, p)
    ensures M[31] != ZERO
  {
    assert Iter(0, M[31], p) == Iter(k, Unit(31), p);
    assert Unit(31) != ZERO by { assert Unit(31)[31] && !ZERO[31]; }
    if M[31] == ZERO {
      IterNonZero(k, Unit(31), p);
    }
  }

  /** compute_crc32_combine_generic with its static table. */
  class Combiner {
    const p: Poly
    var powers: array<Word>

    ghost predicate Valid() reads this, powers {
      powers.Length == 32 * 67 && (powers[32 * 67 - 1] != ZERO ==> Powers(powers[..], 67, p))
    }

    constructor (modulus: Poly)
      ensures Valid() && p == modulus && fresh(powers)
    {
      p := modulus;
      powers := new Word[32 * 67](i => ZERO);
    }

    /** gf32_matrix_square. */
    method Square(n: nat)
      requires 0 < n < 67 && powers.Length == 32 * 67 && Powers(powers[..], n, p)
      modifies powers
      ensures Powers(powers[..], n + 1, p)
    {
      ghost var before := powers[..];
      var from, to := 32 * (n - 1), 32 * n;
      ghost var M := powers[from..from + 32];
      assert M == before[32 * (n - 1)..32 * (n - 1) + 32];
      var i := 0;
      while i < 32
        invariant 0 <= i <= 32 && powers[..to] == before[..to]
        invariant forall j :: 0 <= j < i ==> powers[to + j] == Times(M, M[j])
      {
        assert powers[from..from + 32] == powers[..to][from..] == M;
        var column := MatrixTimes(powers, from, powers[from + i]);
        powers[to + i] := column;
        i := i + 1;
      }
      ghost var now := powers[..];
      SquareDone(before, now, n, p);
    }

    /** The matrix of the multiplication by x. */
    method First()
      requires powers.Length == 32 * 67
      modifies powers
      ensures Powers(powers[..], 1, p)
    {
      powers[0] := p;
      var n := 0;
      while n < 31
        invariant 0 <= n <= 31 && powers[0] == p && forall i :: 0 <= i < n ==> powers[i + 1] == Unit(i)
      {
        powers[n + 1] := Unit(n);
        n := n + 1;
      }
      ghost var P := powers[..];
      FirstColumns(P[0..32], p);
    }

    /** gf32_compute_powers_generic. */
    method ComputePowers()
      requires powers.Length == 32 * 67
      modifies powers
      ensures Powers(powers[..], 67, p) && powers[32 * 67 - 1] != ZERO
    {
      First();
      var n := 1;
      while n < powers.Length / 32
        invariant 1 <= n <= 67 && Powers(powers[..], n, p)
      {
        Square(n);
        n := n + 1;
      }
      NotZero(powers[..][32 * 66..32 * 66 + 32], Two(66), p);
    }

    /** gf32_combine_generic. */
    method CombineLoop(crc1: Word, len2: int) returns (crc: Word)
      requires Valid() && powers[32 * 67 - 1] != ZERO && 0 < len2 < Two(63)
      ensures crc == Iter(8 * len2, crc1, p)
    {
      ghost var j: nat, P, goal := 0, powers[..], Iter(8 * len2, crc1, p);
      var at, len, more := 64, len2, true;
      crc := crc1;
      FirstBit(len2, crc1, goal, p);
      while more
        invariant at == 64 + 32 * j && len >= 0 && more == (len > 0) && Remaining(j, len, crc, goal, p)
        decreases len
      {
        at := at + 32;
        CombineBit(P, j, len, crc, goal, p);
        if len % 2 == 1 {
          assert powers[at..at + 32] == P[at..at + 32];
          crc := MatrixTimes(powers, at, crc);
        }
        len, j := len / 2, j + 1;
        more := len > 0;
      }
      LastBit(j, crc, goal, p);
    }

    /** crc32 of a concatenation from the checksums of its halves. */
    method Combine(crc1: Word, crc2: Word, len2: int) returns (crc: Word)
      requires Valid() && len2 < Two(63)
      modifies powers
      ensures Valid()
      ensures crc == if len2 <= 0 then crc1 else Xor(Iter(8 * len2, crc1, p), crc2)
      ensures forall a, b :: |b| == len2 && crc1 == Compute(a, p) && crc2 == Compute(b, p) ==> crc == Compute(a + b, p)
    {
      if len2 <= 0 {
        crc := crc1;
        forall a: seq<Byte>, b | |b| == len2 ensures Compute(a + b, p) == Compute(a, p) {
          assert a + b == a;
        }
        return;
      }
      if powers[32 * 67 - 1] == ZERO {
        ComputePowers();
      }
      crc := CombineLoop(crc1, len2);
      crc := Xor(crc, crc2);
      forall a: seq<Byte>, b | |b| == len2 && crc1 == Compute(a, p) && crc2 == Compute(b, p)
        ensures crc == Compute(a + b, p)
      {
        Concatenation(a, b, p);
      }
    }
  }

  lemma SquareDone(before: seq<Word>, now: seq<Word>, n: nat, p: Poly)
    requires 0 < n && |now| == |before| >= 32 * n + 32 && Powers(before, n, p) && now[..32 * n] == before[..32 * n]
    requires var M := before[32 * (n - 1)..32 * (n - 1) + 32];
             forall j :: 0 <= j < 32 ==> now[32 * n + j] == Times(M, M[j])
    ensures Powers(now, n + 1, p)
  {
    var M := before[32 * (n - 1)..32 * (n - 1) + 32];
    forall j: nat | j < n + 1 ensures Columns(now[32 * j..32 * j + 32], 0, Two(j), p) {
      var N := now[32 * j..32 * j + 32];
      if j < n {
        assert N == now[..32 * n][32 * j..32 * j + 32] == before[32 * j..32 * j + 32];
      } else {
        assert Columns(M, 0, Two(n - 1), p);
        forall i | 0 <= i < 32 ensures Iter(0, N[i], p) == Iter(Two(n), Unit(i), p) {
          assert N[i] == now[32 * n + i];
          SquareColumn(M, Two(n - 1), i, p);
        }
      }
    }
  }

  /** The shift that the length `len` stands for, with its lowest bit counting 2^j bytes. */
  function Span(j: nat, len: nat): nat
    decreases len
  {
    if len == 0 then 0 else (if len % 2 == 1 then Two(j + 3) else 0) + Span(j + 1, len / 2)
  }

  lemma {:induction false} SpanIs(j: nat, len: nat)
    ensures Span(j, len) == Two(j + 3) * len
    decreases len
  {
    if len > 0 {
      SpanIs(j + 1, len / 2);
      assert Two(j + 4) == 2 * Two(j + 3);
      Doubled(Two(j + 3), len / 2);
    }
  }

  lemma Doubled(t: nat, h: nat)
    ensures 2 * t * h == t * (2 * h) && t * (2 * h + 1) == t * (2 * h) + t
  {
  }

  lemma TimesBit(P: seq<Word>, k: nat, crc: Word, p: Poly)
    requires Powers(P, 67, p) && k < 67
    ensures Times(P[32 * k..32 * k + 32], crc) == Iter(Two(k), crc, p)
  {
    TimesIs(P[32 * k..32 * k + 32], 0, Two(k), crc, p);
  }

  lemma HalfFits(j: nat, len: nat, limit: nat)
    requires j <= limit && 0 < len < Two(limit - j)
    ensures j < limit && len / 2 < Two(limit - (j + 1))
  {
    assert j < limit && Two(limit - j) == 2 * Two(limit - (j + 1));
  }

  /** What is still to be done: shifting crc by the rest of the length gives the goal. */
  ghost predicate Remaining(j: nat, len: nat, crc: Word, goal: Word, p: Poly) {
    j <= 63 && len < Two(63 - j) && Iter(Span(j, len), crc, p) == goal
  }

  lemma FirstBit(len: nat, crc: Word, goal: Word, p: Poly)
    requires len < Two(63) && goal == Iter(8 * len, crc, p)
    ensures Remaining(0, len, crc, goal, p)
  {
    SpanIs(0, len);
    assert Two(3) == 8;
  }

  lemma LastBit(j: nat, crc: Word, goal: Word, p: Poly)
    requires Remaining(j, 0, crc, goal, p)
    ensures crc == goal
  {
  }

  /** One bit of the length. */
  lemma CombineBit(P: seq<Word>, j: nat, len: nat, crc: Word, goal: Word, p: Poly)
    requires Powers(P, 67, p) && Remaining(j, len, crc, goal, p) && len > 0
    ensures j < 63
    ensures Remaining(j + 1, len / 2, if len % 2 == 1 then Times(P[96 + 32 * j..128 + 32 * j], crc) else crc, goal, p)
  {
    HalfFits(j, len, 63);
    if len % 2 == 1 { OddBit(P, j, Span(j + 1, len / 2), crc, p); }
  }

  lemma OddBit(P: seq<Word>, j: nat, rest: nat, crc: Word, p: Poly)
    requires Powers(P, 67, p) && j < 63
    ensures Iter(rest + Two(j + 3), crc, p) == Iter(rest, Times(P[96 + 32 * j..128 + 32 * j], crc), p)
  {
    TimesBit(P, j + 3, crc, p);
    IterPlus(rest, Two(j + 3), crc, p);
  }
}
