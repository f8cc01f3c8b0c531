/** Arithmetic modulo the CRC-32 polynomial in common/crc32.c.

    An unsigned int is the sequence of its 32 bits, lowest first.  As a polynomial over GF(2) bit i is the
    coefficient of x^(31-i); the modulus of CRC-32 is 0xedb88320. */
module Gf32 {
  type Word = w: seq<bool> | |w| == 32 witness seq(32, i => false)

  function Zeros(n: nat): (r: seq<bool>)
    ensures |r| == n && forall i :: 0 <= i < n ==> !r[i]
  {
    seq(n, i => false)
  }

  const ZERO: Word := Zeros(32)

  /** 0x80000000, the polynomial 1. */
  const ONE: Word := Zeros(31) + [true]

  /** A modulus x^32 + ... + 1, given like 0xedb88320 by its lower coefficients. */
  type Poly = p: Word | p[31] witness ONE

  function Xor(a: Word, b: Word): (r: Word)
    ensures forall i :: 0 <= i < 32 ==> r[i] == (a[i] != b[i])
  {
    seq(32, i requires 0 <= i < 32 => a[i] != b[i])
  }

  /** a >> 1. */
  function Half(a: Word): Word {
    a[1..] + [false]
  }

  /** gf32_mulx: multiplication by x. */
  function MulX(a: Word, p: Poly): Word {
    if a[0] then Xor(Half(a), p) else Half(a)
  }

  /** Multiplication by x^n. */
  function Iter(n: nat, a: Word, p: Poly): Word {
    if n == 0 then a else Iter(n - 1, MulX(a, p), p)
  }

  /** The inverse of x: for the modulus 0xedb88320 this is 0xdb710641. */
  function XInv(p: Poly): Word {
    [true] + p[..31]
  }

  lemma OneIs()
    ensures ONE == Unit(31)
  {
  }

  lemma XInvIsInverse(p: Poly)
    ensures MulX(XInv(p), p) == ONE
  {
    var y := MulX(XInv(p), p);
    forall j | 0 <= j < 32 ensures y[j] == ONE[j] {
    }
  }

  // ----- linearity -----

  lemma XorLaws(a: Word, b: Word, c: Word)
    ensures Xor(a, b) == Xor(b, a) && Xor(Xor(a, b), c) == Xor(a, Xor(b, c))
    ensures Xor(a, a) == ZERO && Xor(a, ZERO) == a && Xor(ZERO, a) == a
    ensures Xor(a, b) == ZERO ==> a == b
    ensures Xor(Xor(a, b), b) == a
  {
    if Xor(a, b) == ZERO {
      forall i | 0 <= i < 32 ensures a[i] == b[i] { assert !Xor(a, b)[i]; }
    }
  }

  lemma MulXLinear(a: Word, b: Word, p: Poly)
    ensures MulX(Xor(a, b), p) == Xor(MulX(a, p), MulX(b, p))
  {
  }

  lemma MulXInjective(a: Word, p: Poly)
    requires MulX(a, p) == ZERO
    ensures a == ZERO
  {
    var b := MulX(a, p);
    assert !b[31];
    assert !a[0];
    forall i | 0 < i < 32 ensures !a[i] { assert !b[i - 1]; }
  }

  lemma {:induction false} IterLinear(n: nat, a: Word, b: Word, p: Poly)
    ensures Iter(n, Xor(a, b), p) == Xor(Iter(n, a, p), Iter(n, b, p))
  {
    if n > 0 {
      MulXLinear(a, b, p);
      IterLinear(n - 1, MulX(a, p), MulX(b, p), p);
    }
  }

  lemma {:induction false} IterPlus(m: nat, n: nat, a: Word, p: Poly)
    ensures Iter(m + n, a, p) == Iter(m, Iter(n, a, p), p)
    decreases n
  {
    if n > 0 {
      var b := MulX(a, p);
      IterPlus(m, n - 1, b, p);
      assert m + n - 1 == m + (n - 1) && Iter(m + n, a, p) == Iter(m + n - 1, b, p);
    }
  }

  lemma {:induction false} IterZero(n: nat, p: Poly)
    ensures Iter(n, ZERO, p) == ZERO
  {
    if n > 0 {
      assert MulX(ZERO, p) == ZERO;
      IterZero(n - 1, p);
    }
  }

  lemma {:induction false} IterNonZero(n: nat, a: Word, p: Poly)
    requires Iter(n, a, p) == ZERO
    ensures a == ZERO
  {
    if n > 0 {
      IterNonZero(n - 1, MulX(a, p), p);
      MulXInjective(a, p);
    }
  }

  /** Multiplication by x^n loses nothing. */
  lemma IterInjective(n: nat, a: Word, b: Word, p: Poly)
    requires Iter(n, a, p) == Iter(n, b, p)
    ensures a == b
  {
    IterLinear(n, a, b, p);
    XorLaws(Iter(n, a, p), Iter(n, b, p), ZERO);
    IterNonZero(n, Xor(a, b), p);
    XorLaws(a, b, ZERO);
  }

  /** While the low bits are 0, multiplication by x only shifts. */
  lemma {:induction false} IterShift(n: nat, a: Word, p: Poly)
    requires n <= 32 && forall i :: 0 <= i < n ==> !a[i]
    ensures Iter(n, a, p) == a[n..] + Zeros(n)
  {
    if n > 0 {
      var b := MulX(a, p);
      assert b == a[1..] + [false];
      IterShift(n - 1, b, p);
      assert [false] + Zeros(n - 1) == Zeros(n);
      assert b[n - 1..] == a[n..] + [false];
    }
  }

  // ----- single bits -----

  /** 1U << i. */
  function Unit(i: nat): Word
    requires i < 32
  {
    Zeros(i) + [true] + Zeros(31 - i)
  }

  /** The i-th bit is x^(31-i). */
  lemma UnitIs(i: nat, p: Poly)
    requires i < 32
    ensures Iter(31 - i, ONE, p) == Unit(i)
  {
    OneIs();
    IterShift(31 - i, Unit(31), p);
    assert Unit(31)[31 - i..] + Zeros(31 - i) == Unit(i);
  }

  lemma UnitStep(i: nat, p: Poly)
    requires i < 31
    ensures MulX(Unit(i + 1), p) == Unit(i)
  {
    var u, v := MulX(Unit(i + 1), p), Unit(i);
    forall j | 0 <= j < 32 ensures u[j] == v[j] {
    }
  }

  // ----- matrices -----

  /** The product of a vector and the matrix with the given columns. */
  function Times(M: seq<Word>, v: seq<bool>): Word
    requires |M| == |v|
  {
    if v == [] then ZERO else Xor(if v[0] then M[0] else ZERO, Times(M[1..], v[1..]))
  }

  function Tail(v: Word, i: nat): Word
    requires i <= 32
  {
    Zeros(i) + v[i..]
  }

  lemma TailStep(v: Word, i: nat)
    requires i < 32
    ensures Tail(v, i) == Xor(if v[i] then Unit(i) else ZERO, Tail(v, i + 1))
  {
    var t, u := Tail(v, i), Xor(if v[i] then Unit(i) else ZERO, Tail(v, i + 1));
    forall j | 0 <= j < 32 ensures t[j] == u[j] {
    }
  }

  /** Column i of M, multiplied by x^r, is x^k times the i-th bit. */
  ghost predicate Columns(M: seq<Word>, r: nat, k: nat, p: Poly) {
    |M| == 32 && forall i :: 0 <= i < 32 ==> Iter(r, M[i], p) == Iter(k, Unit(i), p)
  }

  lemma {:induction false} TimesFrom(M: seq<Word>, r: nat, k: nat, i: nat, v: Word, p: Poly)
    requires Columns(M, r, k, p) && i <= 32
    ensures Iter(r, Times(M[i..], v[i..]), p) == Iter(k, Tail(v, i), p)
    decreases 32 - i
  {
    IterZero(r, p);
    IterZero(k, p);
    if i == 32 {
      assert Tail(v, 32) == ZERO;
    } else {
      TimesFrom(M, r, k, i + 1, v, p);
      TailStep(v, i);
      assert M[i..][1..] == M[i + 1..] && v[i..][1..] == v[i + 1..];
      IterLinear(r, if v[i] then M[i] else ZERO, Times(M[i + 1..], v[i + 1..]), p);
      IterLinear(k, if v[i] then Unit(i) else ZERO, Tail(v, i + 1), p);
    }
  }

  /** Such a matrix multiplies by x^(k-r). */
  lemma TimesIs(M: seq<Word>, r: nat, k: nat, v: Word, p: Poly)
    requires Columns(M, r, k, p)
    ensures Iter(r, Times(M, v), p) == Iter(k, v, p)
  {
    TimesFrom(M, r, k, 0, v, p);
    assert Tail(v, 0) == v && M[0..] == M && v[0..] == v;
  }

  lemma {:induction false} TimesRest(M: seq<Word>, v: seq<bool>)
    requires |M| == |v| && forall j :: 0 <= j < |v| ==> !v[j]
    ensures Times(M, v) == ZERO
  {
    if v != [] {
      TimesRest(M[1..], v[1..]);
      XorLaws(ZERO, ZERO, ZERO);
    }
  }

  lemma TimesStep(M: seq<Word>, v: seq<bool>, sum: Word)
    requires |M| == |v| > 0
    ensures Xor(sum, Times(M, v)) == Xor(if v[0] then Xor(sum, M[0]) else sum, Times(M[1..], v[1..]))
  {
    XorLaws(sum, M[0], Times(M[1..], v[1..]));
    XorLaws(Times(M[1..], v[1..]), ZERO, ZERO);
  }

  /** gf32_matrix_times, for the matrix that starts at M[base]. */
  method MatrixTimes(M: array<Word>, base: nat, vector: Word) returns (sum: Word)
    requires base + 32 <= M.Length
    ensures sum == Times(M[base..base + 32], vector)
  {
    ghost var cols, rest, todo := M[base..base + 32], M[base..base + 32], vector[..];
    sum := ZERO;
    var v, i := vector, 0;
    XorLaws(Times(cols, vector), ZERO, ZERO);
    while v != ZERO
      invariant 0 <= i <= 32 && |rest| == |todo| == 32 - i && v == todo + Zeros(i)
      invariant forall j :: 0 <= j < 32 - i ==> rest[j] == M[base + i + j]
      invariant Xor(sum, Times(rest, todo)) == Times(cols, vector)
      decreases 32 - i
    {
      if i == 32 {
        assert false;
      }
      TimesStep(rest, todo, sum);
      if v[0] { sum := Xor(sum, M[base + i]); }
      rest, todo := rest[1..], todo[1..];
      v, i := Half(v), i + 1;
    }
    forall j | 0 <= j < 32 - i ensures !todo[j] { assert !v[j]; }
    TimesRest(rest, todo);
    XorLaws(sum, ZERO, ZERO);
  }

  // ----- products and powers -----

  /** gf32_mul with the given bits of the second factor still to come. */
  function Horner(a: Word, x: Word, bits: seq<bool>, p: Poly): Word
    decreases |bits|
  {
    if bits == [] then x else Horner(a, Xor(MulX(x, p), if bits[0] then a else ZERO), bits[1..], p)
  }

  function Product(a: Word, b: Word, p: Poly): Word {
    Horner(a, ZERO, b, p)
  }

  method Mul(a: Word, b: Word, p: Poly) returns (x: Word)
    ensures x == Product(a, b, p)
  {
    x := ZERO;
    var rest, i := b, 0;
    ghost var todo: seq<bool> := b;
    while i < 32
      invariant 0 <= i <= 32 && |todo| == 32 - i && rest == todo + Zeros(i)
      invariant Horner(a, x, todo, p) == Product(a, b, p)
    {
      x := MulX(x, p);
      XorLaws(x, ZERO, ZERO);
      if rest[0] { x := Xor(x, a); }
      todo := todo[1..];
      rest, i := Half(rest), i + 1;
    }
  }

  lemma MulXZero(p: Poly)
    ensures MulX(ZERO, p) == ZERO
  {
  }

  lemma {:induction false} HornerMulX(a: Word, x: Word, bits: seq<bool>, p: Poly)
    ensures Horner(MulX(a, p), MulX(x, p), bits, p) == MulX(Horner(a, x, bits, p), p)
    decreases |bits|
  {
    if bits != [] {
      MulXLinear(MulX(x, p), if bits[0] then a else ZERO, p);
      MulXZero(p);
      HornerMulX(a, Xor(MulX(x, p), if bits[0] then a else ZERO), bits[1..], p);
    }
  }

  lemma {:induction false} ProductIter(n: nat, a: Word, b: Word, p: Poly)
    ensures Iter(n, Product(a, b, p), p) == Product(Iter(n, a, p), b, p)
  {
    if n > 0 {
      MulXZero(p);
      HornerMulX(a, ZERO, b, p);
      ProductIter(n - 1, MulX(a, p), b, p);
    }
  }

  lemma {:induction false} HornerOne(x: Word, b: Word, i: nat, p: Poly)
    requires i <= 32 && x == Zeros(32 - i) + b[..i]
    ensures Horner(ONE, x, b[i..], p) == b
    decreases 32 - i
  {
    if i < 32 {
      OneIs();
      var y := Xor(MulX(x, p), if b[i] then ONE else ZERO);
      forall j | 0 <= j < 32 ensures y[j] == (Zeros(31 - i) + b[..i + 1])[j] {
      }
      assert b[i..][1..] == b[i + 1..];
      HornerOne(y, b, i + 1, p);
    } else {
      assert Zeros(0) + b[..32] == b;
    }
  }

  lemma ProductOne(b: Word, p: Poly)
    ensures Product(ONE, b, p) == b
  {
    assert ZERO == Zeros(32) + b[..0];
    HornerOne(ZERO, b, 0, p);
    assert b[0..] == b;
  }

  /** If a is x^-j and b is x^-k, their product is x^-(j+k). */
  lemma ProductInverse(a: Word, b: Word, j: nat, k: nat, p: Poly)
    requires Iter(j, a, p) == ONE && Iter(k, b, p) == ONE
    ensures Iter(k + j, Product(a, b, p), p) == ONE
  {
    ProductIter(j, a, b, p);
    ProductOne(b, p);
    IterPlus(k, j, Product(a, b, p), p);
  }

  lemma Halves(j: nat, k: nat)
    ensures j * k == (j + j) * (k / 2) + if k % 2 == 1 then j else 0
  {
    var h := k / 2;
    assert k == if k % 2 == 1 then 2 * h + 1 else 2 * h;
    assert (j + j) * h == j * (2 * h) && j * (2 * h + 1) == j * (2 * h) + j;
  }

  /** gf32_pow, for a power of an inverse of x^j. */
  method Pow(a: Word, k: nat, ghost j: nat, p: Poly) returns (x: Word)
    requires Iter(j, a, p) == ONE
    ensures Iter(j * k, x, p) == ONE
    decreases k
  {
    if k == 0 {
      return ONE;
    }
    var square := Mul(a, a, p);
    ProductInverse(a, a, j, j, p);
    x := Pow(square, k / 2, j + j, p);
    Halves(j, k);
    if k % 2 == 1 {
      ProductInverse(x, a, (j + j) * (k / 2), j, p);
      x := Mul(x, a, p);
    }
  }
}
