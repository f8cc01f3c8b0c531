/** The order of x modulo the polynomial of CRC-32 (common/crc32.c): it is 2^32 - 1, so that no two exponents below
    that give the same difference and every single wrong bit is found and repaired. */
module CrcOrder {
  import opened Gf32
  import opened Gf32Vectors
  import opened Crc32
  import opened Crc32Repair
  import opened PowersOfTwo

  // ----- powers of x -----

  ghost predicate PowerIs(n: nat, v: bv32) {
    Iter(n, ONE, CRC32_POLY) == AsWord(v)
  }

  lemma Multiply(m: nat, n: nat, a: bv32, b: bv32, c: bv32)
    requires PowerIs(m, a) && PowerIs(n, b) && Multiplied(a, b) == c
    ensures PowerIs(m + n, c)
  {
    MultipliedIs(a, b, c);
    ProductIter(m, ONE, AsWord(b), CRC32_POLY);
    ProductOne(AsWord(b), CRC32_POLY);
    IterPlus(m, n, ONE, CRC32_POLY);
  }

  lemma FirstPowers()
    ensures PowerIs(0, 0x80000000) && PowerIs(Two(0), 0x40000000)
  {
    WordConstants();
    WordShifted(0x80000000);
    assert Shifted(0x80000000) == 0x40000000;
    assert Iter(1, ONE, CRC32_POLY) == Iter(0, MulX(ONE, CRC32_POLY), CRC32_POLY);
  }

  lemma Square(k: nat, a: bv32, b: bv32)
    requires PowerIs(Two(k), a) && Multiplied(a, a) == b
    ensures PowerIs(Two(k + 1), b)
  {
    Multiply(Two(k), Two(k), a, a, b);
  }

  lemma Squares0()
    requires PowerIs(Two(0), 0x40000000)
    ensures PowerIs(Two(4), 0x00008000)
  {
    Square(0, 0x40000000, 0x20000000);
    Square(1, 0x20000000, 0x08000000);
    Square(2, 0x08000000, 0x00800000);
    Square(3, 0x00800000, 0x00008000);
  }

  lemma Squares1()
    requires PowerIs(Two(4), 0x00008000)
    ensures PowerIs(Two(8), 0xed627dae)
  {
    Square(4, 0x00008000, 0xedb88320);
    Square(5, 0xedb88320, 0xb1e6b092);
    Square(6, 0xb1e6b092, 0xa06a2517);
    Square(7, 0xa06a2517, 0xed627dae);
  }

  lemma Squares2()
    requires PowerIs(Two(8), 0xed627dae)
    ensures PowerIs(Two(12), 0x8e7ea170)
  {
    Square(8, 0xed627dae, 0x88d14467);
    Square(9, 0x88d14467, 0xd7bbfe6a);
    Square(10, 0xd7bbfe6a, 0xec447f11);
    Square(11, 0xec447f11, 0x8e7ea170);
  }

  lemma Squares3()
    requires PowerIs(Two(12), 0x8e7ea170)
    ensures PowerIs(Two(16), 0x83852d0f)
  {
    Square(12, 0x8e7ea170, 0x6427800e);
    Square(13, 0x6427800e, 0x4d47bae0);
    Square(14, 0x4d47bae0, 0x09fe548f);
    Square(15, 0x09fe548f, 0x83852d0f);
  }

  lemma Squares4()
    requires PowerIs(Two(16), 0x83852d0f)
    ensures PowerIs(Two(20), 0x9fec022a)
  {
    Square(16, 0x83852d0f, 0x30362f1a);
    Square(17, 0x30362f1a, 0x7b5a9cc3);
    Square(18, 0x7b5a9cc3, 0x31fec169);
    Square(19, 0x31fec169, 0x9fec022a);
  }

  lemma Squares5()
    requires PowerIs(Two(20), 0x9fec022a)
    ensures PowerIs(Two(24), 0xbad90e37)
  {
    Square(20, 0x9fec022a, 0x6c8dedc4);
    Square(21, 0x6c8dedc4, 0x15d6874d);
    Square(22, 0x15d6874d, 0x5fde7a4e);
    Square(23, 0x5fde7a4e, 0xbad90e37);
  }

  lemma Squares6()
    requires PowerIs(Two(24), 0xbad90e37)
    ensures PowerIs(Two(28), 0x429a969e)
  {
    Square(24, 0xbad90e37, 0x2e4e5eef);
    Square(25, 0x2e4e5eef, 0x4eaba214);
    Square(26, 0x4eaba214, 0xa8a472c0);
    Square(27, 0xa8a472c0, 0x429a969e);
  }

  lemma Squares7()
    requires PowerIs(Two(28), 0x429a969e)
    ensures PowerIs(Two(32), 0x40000000)
  {
    Square(28, 0x429a969e, 0x148d302a);
    Square(29, 0x148d302a, 0xc40ba6d0);
    Square(30, 0xc40ba6d0, 0xc4e22c3c);
    Square(31, 0xc4e22c3c, 0x40000000);
  }

  lemma AllSquares()
    ensures PowerIs(Two(0), 0x40000000) && PowerIs(Two(4), 0x00008000) && PowerIs(Two(8), 0xed627dae) && PowerIs(Two(12), 0x8e7ea170)
    ensures PowerIs(Two(16), 0x83852d0f) && PowerIs(Two(20), 0x9fec022a) && PowerIs(Two(24), 0xbad90e37) && PowerIs(Two(28), 0x429a969e)
    ensures PowerIs(Two(32), 0x40000000)
  {
    FirstPowers();
    Squares0();
    Squares1();
    Squares2();
    Squares3();
    Squares4();
    Squares5();
    Squares6();
    Squares7();
  }

  /** Powers whose exponents differ by (2^32 - 1) / 257. */
  lemma LargeProducts()
    ensures PowerIs(Two(0) + Two(16), 0xac7a15a7) && PowerIs(Two(8) + Two(24), 0x4630d51a)
  {
    AllSquares();
    LargePair(Two(0), Two(16), Two(8), Two(24));
  }

  lemma LargePair(k: nat, l: nat, m: nat, n: nat)
    requires PowerIs(k, 0x40000000) && PowerIs(l, 0x83852d0f) && PowerIs(m, 0xed627dae) && PowerIs(n, 0xbad90e37)
    ensures PowerIs(k + l, 0xac7a15a7) && PowerIs(m + n, 0x4630d51a)
  {
    Multiply(k, l, 0x40000000, 0x83852d0f, 0xac7a15a7);
    Multiply(m, n, 0xed627dae, 0xbad90e37, 0x4630d51a);
  }

  /** Powers whose exponents differ by (2^32 - 1) / 17. */
  lemma SmallProducts()
    ensures PowerIs(Two(0) + Two(16) + (Two(8) + Two(24)), 0x316b5ba1)
    ensures PowerIs(Two(4) + Two(20) + (Two(12) + Two(28)), 0x0c283ca0)
  {
    LargeProducts();
    Multiply(Two(0) + Two(16), Two(8) + Two(24), 0xac7a15a7, 0x4630d51a, 0x316b5ba1);
    OtherProduct();
  }

  lemma OtherProduct()
    ensures PowerIs(Two(4) + Two(20) + (Two(12) + Two(28)), 0x0c283ca0)
  {
    AllSquares();
    OtherPair(Two(4), Two(20), Two(12), Two(28));
  }

  lemma OtherPair(k: nat, l: nat, m: nat, n: nat)
    requires PowerIs(k, 0x00008000) && PowerIs(l, 0x9fec022a) && PowerIs(m, 0x8e7ea170) && PowerIs(n, 0x429a969e)
    ensures PowerIs(k + l + (m + n), 0x0c283ca0)
  {
    Multiply(k, l, 0x00008000, 0x9fec022a, 0x816532e8);
    Multiply(m, n, 0x8e7ea170, 0x429a969e, 0xac191907);
    Multiply(k + l, m + n, 0x816532e8, 0xac191907, 0x0c283ca0);
  }

  /** m stands for the exponent 0x11111111, of which the others are multiples. */
  lemma FifthAndThird(m17: nat, n17: nat, m: nat)
    requires PowerIs(m17, 0x316b5ba1) && PowerIs(n17, 0x0c283ca0) && m == m17 + n17
    ensures PowerIs(m, 0x3d436701) && PowerIs(4 * m, 0xbd436701) && PowerIs(5 * m, 0xc736eb52)
  {
    Multiply(m17, n17, 0x316b5ba1, 0x0c283ca0, 0x3d436701);
    Multiply(m, m, 0x3d436701, 0x3d436701, 0xfa758c53);
    Multiply(m + m, m + m, 0xfa758c53, 0xfa758c53, 0xbd436701);
    assert m + m + (m + m) == 4 * m;
    Multiply(m, 4 * m, 0x3d436701, 0xbd436701, 0xc736eb52);
  }

  // ----- exponents that give 1 -----

  ghost predicate Unity(e: nat) {
    Iter(e, ONE, CRC32_POLY) == ONE
  }

  /** Powers that differ: their exponents do not differ by one that gives 1. */
  lemma NotUnity(c: nat, m: nat, u: bv32, v: bv32, i: nat)
    requires PowerIs(m, u) && PowerIs(m + c, v) && i < 32 && Bit(u, i) != Bit(v, i)
    ensures !Unity(c)
  {
    IterPlus(m, c, ONE, CRC32_POLY);
    assert AsWord(u)[i] != AsWord(v)[i];
  }

  lemma UnityPlus(a: nat, b: nat)
    requires Unity(b)
    ensures Unity(a + b) <==> Unity(a)
  {
    IterPlus(a, b, ONE, CRC32_POLY);
  }

  lemma {:induction false} UnityTimes(a: nat, k: nat)
    requires Unity(a)
    ensures Unity(a * k)
    decreases k
  {
    if k > 0 {
      UnityTimes(a, k - 1);
      UnityPlus(a, a * (k - 1));
      assert a * k == a + a * (k - 1);
    }
  }

  /** The least exponent that gives 1. */
  ghost predicate Order(g: nat) {
    g > 0 && Unity(g) && forall e: nat :: 0 < e < g ==> !Unity(e)
  }

  lemma {:induction false} HasOrder(e: nat) returns (g: nat)
    requires e > 0 && Unity(e)
    ensures Order(g) && g <= e
  {
    if f: nat :| 0 < f < e && Unity(f) {
      g := HasOrder(f);
    } else {
      g := e;
    }
  }

  lemma OrderDivides(g: nat, e: nat)
    requires Order(g) && Unity(e)
    ensures e % g == 0
  {
    var k, r := e / g, e % g;
    UnityTimes(g, k);
    assert e == r + g * k;
    UnityPlus(r, g * k);
  }

  // ----- primes -----

  ghost predicate Prime(q: nat) {
    q > 1 && forall d: nat :: 1 < d < q ==> q % d != 0
  }

  /** The greatest common divisor of a and b is ua + vb. */
  lemma {:induction false} Bezout(a: nat, b: nat) returns (d: nat, u: int, v: int)
    requires a > 0
    ensures d > 0 && a % d == 0 && b % d == 0 && d == u * a + v * b
    decreases b
  {
    if b == 0 {
      d, u, v := a, 1, 0;
      assert a == 1 * a && a % a == 0 && 0 % a == 0;
    } else {
      var u', v';
      d, u', v' := Bezout(b, a % b);
      u, v := v', u' - v' * (a / b);
      BezoutStep(a, b, d, u', v');
    }
  }

  lemma BezoutStep(a: nat, b: nat, d: nat, u: int, v: int)
    requires b > 0 && d > 0 && b % d == 0 && a % b % d == 0 && d == u * b + v * (a % b)
    ensures a % d == 0 && d == v * a + (u - v * (a / b)) * b
  {
    var k, r := a / b, a % b;
    assert a == k * b + r;
    assert v * a == v * (k * b) + v * r && (u - v * k) * b == u * b - v * (k * b);
    Multiples(k * (b / d) + r / d, k * b + r, d, k, b, r);
  }

  lemma Multiples(q: int, a: int, d: nat, k: int, b: nat, r: nat)
    requires d > 0 && b % d == 0 && r % d == 0 && a == k * b + r && q == k * (b / d) + r / d
    ensures a % d == 0
  {
    var b', r' := b / d, r / d;
    assert b == d * b' && r == d * r';
    assert k * (d * b') == d * (k * b') && d * (k * b') + d * r' == d * q;
    assert a == d * q;
    MultipleOf(d, q);
  }

  lemma AtLeast(d: nat, k: int)
    ensures k > 0 ==> d * k >= d
    ensures k < 0 ==> d * k + d <= 0
  {
  }

  lemma NoMultiple(d: nat, k: int, r: nat)
    requires r == d * k && r < d
    ensures r == 0
  {
    AtLeast(d, k);
  }

  lemma MultipleOf(d: nat, q: int)
    requires d > 0
    ensures (d * q) % d == 0
  {
    var a := d * q;
    var k, r := a / d, a % d;
    assert a == d * k + r;
    assert d * (q - k) == d * q - d * k;
    NoMultiple(d, q - k, r);
  }

  /** None of the odd numbers from 3 to d divides q. */
  predicate NoOddDivisor(q: nat, d: nat) {
    d < 3 || (q % d != 0 && NoOddDivisor(q, d - 2))
  }

  lemma {:induction false} NoOddAt(q: nat, d: nat, e: nat)
    requires NoOddDivisor(q, d) && 3 <= e <= d && e % 2 == d % 2
    ensures q % e != 0
    decreases d
  {
    if e < d { NoOddAt(q, d - 2, e); }
  }

  /** The smaller of two factors. */
  lemma SmallFactor(q: nat, e: nat, f: nat) returns (s: nat)
    requires q == e * f && e > 1 && f > 1 && q % 2 == 1
    ensures s >= 3 && s % 2 == 1 && s * s <= q && q % s == 0
  {
    var r: nat;
    s, r := if e <= f then e else f, if e <= f then f else e;
    assert q == s * r;
    OddFactor(s, r, s / 2, s % 2);
    MultipleOf(s, r);
    AtLeastSquare(s, r);
  }

  lemma AtLeastSquare(s: nat, r: nat)
    requires s <= r
    ensures s * s <= s * r
  {
  }

  lemma OddFactor(s: nat, r: nat, h: nat, p: nat)
    requires s == 2 * h + p && p < 2 && (s * r) % 2 == 1
    ensures p == 1
  {
    assert (2 * h + p) * r == 2 * (h * r) + p * r;
  }

  lemma SquareGrows(a: nat, b: nat)
    requires a <= b
    ensures a * a <= b * b
  {
    assert a * a <= a * b;
    assert a * b <= b * b;
  }

  lemma Below(s: nat, d: nat)
    requires s * s < (d + 2) * (d + 2)
    ensures s < d + 2
  {
    if s >= d + 2 { SquareGrows(d + 2, s); }
  }

  lemma NoSmallFactor(q: nat, d: nat, s: nat)
    requires d % 2 == 1 && NoOddDivisor(q, d) && q < (d + 2) * (d + 2) && s >= 3 && s % 2 == 1 && s * s <= q
    ensures q % s != 0
  {
    Below(s, d);
    NoOddAt(q, d, s);
  }

  lemma PrimeIs(q: nat, d: nat)
    requires q > 2 && q % 2 == 1 && d % 2 == 1 && NoOddDivisor(q, d) && q < (d + 2) * (d + 2)
    ensures Prime(q)
  {
    forall e: nat | 1 < e < q ensures q % e != 0 {
      NotDivided(q, d, e);
    }
  }

  lemma NotDivided(q: nat, d: nat, e: nat)
    requires q % 2 == 1 && d % 2 == 1 && NoOddDivisor(q, d) && q < (d + 2) * (d + 2) && 1 < e < q
    ensures q % e != 0
  {
    if q % e == 0 {
      var f := q / e;
      assert q == e * f;
      Cofactor(e, f, q);
      var s := SmallFactor(q, e, f);
      NoSmallFactor(q, d, s);
    }
  }

  lemma Cofactor(e: nat, f: nat, q: nat)
    requires q == e * f && e < q
    ensures f > 1
  {
  }

  lemma Primes()
    ensures Prime(3) && Prime(5) && Prime(17) && Prime(257) && Prime(65537)
  {
    PrimeIs(3, 1);
    PrimeIs(5, 1);
    PrimeIs(17, 3);
    assert NoOddDivisor(257, 15);
    PrimeIs(257, 15);
    LargestPrime();
  }

  lemma LargestPrime()
    ensures Prime(65537)
  {
    NoneTo127();
    assert NoOddDivisor(65537, 143);
    assert NoOddDivisor(65537, 159);
    assert NoOddDivisor(65537, 175);
    assert NoOddDivisor(65537, 191);
    assert NoOddDivisor(65537, 207);
    assert NoOddDivisor(65537, 223);
    assert NoOddDivisor(65537, 239);
    assert NoOddDivisor(65537, 255);
    PrimeIs(65537, 255);
  }

  lemma NoneTo127()
    ensures NoOddDivisor(65537, 127)
  {
    assert NoOddDivisor(65537, 15);
    assert NoOddDivisor(65537, 31);
    assert NoOddDivisor(65537, 47);
    assert NoOddDivisor(65537, 63);
    assert NoOddDivisor(65537, 79);
    assert NoOddDivisor(65537, 95);
    assert NoOddDivisor(65537, 111);
    assert NoOddDivisor(65537, 127);
  }

  /** A divisor of a prime q other than q itself is 1. */
  lemma DivisorOfPrime(q: nat, d: nat)
    requires Prime(q) && d > 0 && q % d == 0 && d != q
    ensures d == 1
  {
    assert q == d * (q / d);
    AtLeast(d, q / d);
  }

  /** A prime that divides a product divides a factor. */
  lemma Euclid(q: nat, a: nat, b: nat)
    requires Prime(q) && (a * b) % q == 0 && b % q != 0
    ensures a % q == 0
  {
    var d, u, v := Bezout(q, b);
    DivisorOfPrime(q, d);
    var k := a * b / q;
    assert a * b == q * k;
    assert a == a * (u * q + v * b);
    assert a * (u * q) == q * (a * u) && a * (v * b) == v * (a * b) && v * (q * k) == q * (v * k);
    assert a == q * (a * u + v * k);
    MultipleOf(q, a * u + v * k);
  }

  // ----- the order of x -----

  /** A prime q divides the order, if q times c gives 1 and c does not. */
  lemma PrimeInOrder(g: nat, q: nat, c: nat)
    requires Order(g) && Prime(q) && Unity(q * c) && !Unity(c)
    ensures g % q == 0
  {
    OrderDivides(g, q * c);
    var m := q * c / g;
    assert g * m == q * c;
    MultipleOf(q, c);
    if m % q == 0 {
      var k := m / q;
      assert m == q * k && g * (q * k) == q * (g * k);
      assert g * k == c;
      UnityTimes(g, k);
    } else {
      Euclid(q, g, m);
    }
  }

  lemma UnityFrom(c: nat, m: nat, u: bv32)
    requires PowerIs(m, u) && PowerIs(m + c, u)
    ensures Unity(c)
  {
    IterPlus(m, c, ONE, CRC32_POLY);
    IterInjective(m, Iter(c, ONE, CRC32_POLY), ONE, CRC32_POLY);
  }

  lemma Sums(e: nat)
    requires e == 0xffffffff
    ensures Two(0) + e == Two(32) && Two(0) + 65535 == Two(16)
    ensures Two(0) + Two(16) + 16711935 == Two(8) + Two(24)
    ensures Two(0) + Two(16) + (Two(8) + Two(24)) + 252645135 == Two(4) + Two(20) + (Two(12) + Two(28))
    ensures Two(0) + Two(16) + (Two(8) + Two(24)) + (Two(4) + Two(20) + (Two(12) + Two(28))) == 0x11111111
  {
    SmallPowers();
    assert Two(4) == 0x10;
    assert Two(12) == 0x1000;
    assert Two(16) == 0x10000;
    assert Two(20) == 0x100000;
    assert Two(24) == 0x1000000;
    assert Two(28) == 0x10000000;
  }

  lemma LargeExponents(e: nat, c: nat, d: nat)
    requires e == 0xffffffff && c == 65535 && d == 16711935
    ensures Unity(e) && !Unity(c) && !Unity(d)
  {
    Sums(e);
    AllSquares();
    LargeProducts();
    Masks();
    UnityFrom(e, Two(0), 0x40000000);
    NotUnity(c, Two(0), 0x40000000, 0x83852d0f, 0);
    NotUnity(d, Two(0) + Two(16), 0xac7a15a7, 0x4630d51a, 0);
  }

  lemma SmallExponents(c: nat, d: nat, e: nat)
    requires c == 252645135 && d == 858993459 && e == 1431655765
    ensures !Unity(c) && !Unity(d) && !Unity(e)
  {
    Sums(0xffffffff);
    SmallProducts();
    FirstPowers();
    Masks();
    var m17, n17 := Two(0) + Two(16) + (Two(8) + Two(24)), Two(4) + Two(20) + (Two(12) + Two(28));
    NotUnity(c, m17, 0x316b5ba1, 0x0c283ca0, 0);
    var m := m17 + n17;
    FifthAndThird(m17, n17, m);
    NotUnity(d, m, 0x3d436701, 0xbd436701, 31);
    NotUnity(e, 0, 0x80000000, 0xc736eb52, 1);
  }

  /** 3, 5, 17, 257 and 65537 divide the order, so it is not below their product. */
  lemma OrderIs(g: nat)
    requires Order(g)
    ensures g >= 0xffffffff
  {
    Primes();
    LargeExponents(0xffffffff, 65535, 16711935);
    SmallExponents(252645135, 858993459, 1431655765);
    PrimeInOrder(g, 3, 1431655765);
    PrimeInOrder(g, 5, 858993459);
    PrimeInOrder(g, 17, 252645135);
    PrimeInOrder(g, 257, 16711935);
    PrimeInOrder(g, 65537, 65535);
    AllFive(g);
  }

  /** Two numbers of which ua + vb = 1 divide g together, if they do each. */
  lemma BothDivide(g: nat, a: nat, b: nat, u: int, v: int)
    requires a > 0 && b > 0 && g % a == 0 && g % b == 0 && u * a + v * b == 1
    ensures g % (a * b) == 0
  {
    var k, l := g / a, g / b;
    assert g == a * k && g == b * l;
    assert g == g * (u * a + v * b) == g * (u * a) + g * (v * b);
    assert (b * l) * (u * a) == (a * b) * (l * u) && (a * k) * (v * b) == (a * b) * (k * v);
    assert g == (a * b) * (l * u + k * v);
    MultipleOf(a * b, l * u + k * v);
  }

  lemma AllFive(g: nat)
    requires g > 0 && g % 3 == 0 && g % 5 == 0 && g % 17 == 0 && g % 257 == 0 && g % 65537 == 0
    ensures g >= 0xffffffff
  {
    BothDivide(g, 3, 5, 2, -1);
    BothDivide(g, 15, 17, 8, -7);
    BothDivide(g, 255, 257, 128, -127);
    BothDivide(g, 65535, 65537, 32768, -32767);
    AtLeast(0xffffffff, g / 0xffffffff);
  }

  /** The powers of x below 2^32 - 1 all differ. */
  lemma PowersDiffer()
    ensures Distinct(0xffffffff, CRC32_POLY)
  {
    forall e: nat | 0 < e < 0xffffffff ensures Iter(e, ONE, CRC32_POLY) != ONE {
      if Unity(e) {
        var g := HasOrder(e);
        OrderIs(g);
      }
    }
  }

  // ----- repair -----

  /** crc32_check_and_repair with the program's polynomial, for every length whose bits can be counted in 32 bits:
      any single wrong bit is repaired, and only what no single bit explains is given up. */
  method CheckAndRepairCrc32(input: array<Byte>, stored: Word, forceExit: bool) returns (r: int, stored': Word, failed: bool)
    requires 8 * (input.Length + 4) <= 0xffffffff
    modifies input
    ensures failed <==> forceExit && r == -1
    ensures !failed ==> Repaired(old(input[..]), stored, input[..], stored', r, CRC32_POLY)
    ensures Explained(old(input[..]), stored, input[..], stored', r, CRC32_POLY)
  {
    r, stored', failed := CheckAndRepair(input, stored, CRC32_POLY, forceExit);
    PowersDiffer();
  }

  /** A flipped bit of the data comes back. */
  lemma AnyFlip(data: seq<Byte>, k: nat, data': seq<Byte>, stored': Word, r: int)
    requires 32 <= k < 8 * (|data| + 4) <= 0xffffffff
    requires Explained(Flip(data, k), Compute(data, CRC32_POLY), data', stored', r, CRC32_POLY)
    ensures r == 1 && data' == data
  {
    FlippedDiffers(data, k, CRC32_POLY);
  }
}
