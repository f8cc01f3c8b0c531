/** From the address of a buffer to its number without dividing (net/net-msg-buffers.c): prepare_bs_inv computes
    the inverse of the odd part of the stride modulo 2^32, and get_buffer_no multiplies by it.

    Arithmetic is on residues modulo 2^32. */
module BufferIndex {
  import opened PowersOfTwo

  const M: int := 0x1_0000_0000

  /** Reduction modulo 2^32 subtracts a multiple. */
  lemma Reduce(a: int) returns (c: int)
    ensures 0 <= a % M < M && a == a % M + c * M
  {
    c := a / M;
  }

  /** (1 - x)(1 + x) = 1 - x^2, with everything modulo 2^32. */
  lemma Telescope(y: int, z: int, x: int, c: int, y': int, d: int, x': int, f: int)
    requires y * z == 1 - x + c * M
    requires y * (1 + x) == y' + d * M && x * x == x' + f * M
    ensures y' * z == 1 - x' + (c * (1 + x) - d * z - f) * M
  {
    var e := c * (1 + x);
    assert y * (1 + x) * z == (y * z) * (1 + x);
    assert (1 - x + c * M) * (1 + x) == (1 - x) * (1 + x) + (c * M) * (1 + x);
    assert (1 - x) * (1 + x) == 1 - x * x;
    assert (c * M) * (1 + x) == e * M;
    assert (y' + d * M) * z == y' * z + (d * z) * M;
  }

  lemma NotNegative(p: nat, a: int)
    requires p > 0 && p * a >= 0
    ensures a >= 0
  {
    if a < 0 { AtLeast(p, -a); }
  }

  lemma AtLeast(p: int, a: int)
    ensures p >= 1 && a >= 1 ==> p * a >= p && p * a >= a
  {
    if p >= 1 && a >= 1 {
      assert p * a == p * (a - 1) + p;
      assert p * a == (p - 1) * a + a;
      Positive(p, a - 1);
      Positive(p - 1, a);
    }
  }

  lemma Positive(p: nat, a: nat)
    ensures p * a >= 0
  {
  }

  lemma Square(p: nat, q: nat, x: nat)
    requires x == p * q
    ensures x * x == (p * p) * (q * q)
  {
    assert x * x == (p * q) * (p * q);
    assert (p * q) * (p * q) == (p * p) * (q * q);
  }

  lemma Factor(xx: int, p: nat, a: nat, b: nat, f: int, x': nat)
    requires xx == p * a && xx == x' + f * (p * b)
    ensures x' == p * (a - b * f)
  {
    assert f * (p * b) == p * (b * f);
    assert p * (a - b * f) == p * a - p * (b * f);
  }

  lemma Quotients(xx: int, p: nat, a: nat, b: nat, f: int, x': nat, m: int) returns (q': nat)
    requires p > 0 && xx == p * a && m == p * b && xx == x' + f * m
    ensures x' == p * q'
  {
    Factor(xx, p, a, b, f, x');
    NotNegative(p, a - b * f);
    q' := a - b * f;
  }

  /** The square of x has at least the given power of two. */
  lemma SquareHas(x: nat, k: nat, q: nat, k': nat) returns (a: nat)
    requires x == Two(k) * q && k' <= 2 * k
    ensures x * x == Two(k') * a
  {
    TwoPlus(k, k);
    Square(Two(k), q, x);
    TwoPlus(k', 2 * k - k');
    a := Two(2 * k - k') * (q * q);
    assert (Two(k') * Two(2 * k - k')) * (q * q) == Two(k') * (Two(2 * k - k') * (q * q));
  }

  /** The power of two that divides x doubles its exponent with each squaring. */
  lemma Doubles(x: nat, k: nat, q: nat, x': nat, f: int) returns (k': nat, q': nat)
    requires k >= 1 && x == Two(k) * q && x * x == x' + f * M && 0 <= x' < M && k < 32
    ensures k < k' <= 32 && k' == (if 2 * k <= 32 then 2 * k else 32) && x' == Two(k') * q'
  {
    k' := if 2 * k <= 32 then 2 * k else 32;
    SmallPowers();
    TwoPlus(k', 32 - k');
    TwoPositive(k');
    var a := SquareHas(x, k, q, k');
    q' := Quotients(x * x, Two(k'), a, Two(32 - k'), f, x', M);
  }

  lemma FullPower(x: nat, q: nat)
    requires x == Two(32) * q && x < M
    ensures x == 0
  {
    SmallPowers();
  }

  /** The loop of prepare_bs_inv for the odd part z of the stride. */
  method Inverse(z: nat) returns (y: nat)
    requires z % 2 == 1 && z < M
    ensures y < M && (y * z) % M == 1
  {
    var x := (1 - z) % M;
    y := 1;
    ghost var c0 := Reduce(1 - z);
    ghost var c, k, q := -c0, 1, x / 2;
    assert Two(1) == 2 && x % 2 == 0;
    assert y * z == 1 - x + c * M;
    while x != 0
      invariant 0 <= x < M && 0 <= y < M && y * z == 1 - x + c * M
      invariant 1 <= k <= 32 && x == Two(k) * q
      decreases 32 - k, x
    {
      if k == 32 {
        FullPower(x, q);
      }
      ghost var d := Reduce(y * (1 + x));
      ghost var f := Reduce(x * x);
      Telescope(y, z, x, c, (y * (1 + x)) % M, d, (x * x) % M, f);
      ghost var k', q' := Doubles(x, k, q, (x * x) % M, f);
      y, c := (y * (1 + x)) % M, c * (1 + x) - d * z - f;
      x, k, q := (x * x) % M, k', q';
    }
    OneLeft(y * z, c);
  }

  lemma OneLeft(a: int, c: int)
    requires a == 1 + c * M
    ensures a % M == 1
  {
  }

  /** __builtin_ctz, and the odd part. */
  method Odd(x: nat) returns (shift: nat, z: nat)
    requires x > 0
    ensures x == z * Two(shift) && z % 2 == 1
  {
    shift, z := 0, x;
    while z % 2 == 0
      invariant z > 0 && x == z * Two(shift)
      decreases z
    {
      assert (z / 2) * (2 * Two(shift)) == (z / 2 * 2) * Two(shift);
      shift, z := shift + 1, z / 2;
    }
  }

  class ChunkIndex {
    var bufferSize: nat
    var bsShift: nat
    var bsInverse: nat
    ghost var odd: nat

    ghost predicate Valid() reads this {
      && bufferSize + 16 == odd * Two(bsShift) && odd % 2 == 1 && bufferSize + 16 < M
      && 0 <= bsInverse < M && (bsInverse * odd) % M == 1
    }

    /** prepare_bs_inv. */
    method Prepare()
      requires bufferSize + 16 < M
      modifies this
      ensures Valid() && bufferSize == old(bufferSize)
    {
      var shift, z := Odd(bufferSize + 16);
      TwoPositive(shift);
      assert z <= bufferSize + 16 by { Grows(z, Two(shift)); }
      bsInverse := Inverse(z);
      bsShift := shift;
      odd := z;
    }

    /** get_buffer_no for the buffer that starts `offset` bytes behind the first one. */
    method BufferNo(offset: nat, ghost n: nat) returns (x: nat)
      requires Valid() && offset == n * (bufferSize + 16) && offset < M
      ensures x == n
    {
      TwoPositive(bsShift);
      x := offset / Two(bsShift);
      Shifted(n, odd, Two(bsShift));
      Grows(n, bufferSize + 16);
      x := (x * bsInverse) % M;
      Recovers(n, odd, bsInverse);
    }
  }

  lemma Grows(z: nat, t: nat)
    requires t > 0
    ensures z <= z * t
  {
  }

  lemma Shifted(n: nat, z: nat, t: nat)
    requires t > 0
    ensures n * (z * t) / t == n * z
  {
    assert n * (z * t) == (n * z) * t;
    Quotient(n * z, t);
  }

  lemma Quotient(a: nat, t: nat)
    requires t > 0
    ensures a * t / t == a
  {
    var q, r := a * t / t, a * t % t;
    assert (a - q) * t == r;
    AtLeast(a - q, t);
    assert (q - a) * t == -r;
    AtLeast(q - a, t);
  }

  /** Multiplying by the inverse of the odd part recovers the number. */
  lemma Recovers(n: nat, z: nat, y: nat)
    requires (y * z) % M == 1 && n < M
    ensures (n * z * y) % M == n
  {
    var c := Reduce(y * z);
    assert n * z * y == n * (y * z);
    assert n * (1 + c * M) == n + (n * c) * M;
    Remainder(n, n * c);
  }

  lemma Remainder(n: nat, c: int)
    requires n < M
    ensures (n + c * M) % M == n
  {
  }

  // ----- the layout of a chunk -----

  /** An unsigned long, and an int that one is assigned to. */
  function ULong(x: int): nat {
    x % 0x1_0000_0000_0000_0000
  }

  function ToInt(x: nat): int {
    (x + 0x8000_0000) % M - 0x8000_0000
  }

  /** The number of buffers that alloc_new_msg_buffers_chunk puts into `space` bytes of stride h, and the number
      of leaves of their tree.  The difference is an unsigned long: it must not be negative, and is not if there is
      space for two buffers and h is not too small. */
  method Layout(space: nat, h: nat, align: nat) returns (leaves: nat, buffers: int, ghost e: nat)
    requires 0 < h && space < 0x8000_0000
    ensures leaves == Two(e) && buffers == ToInt(ULong(space - leaves * 4 - align) / h)
    ensures space >= leaves * 4 + align ==> 0 <= buffers <= leaves && leaves * 4 + align + buffers * h <= space
    ensures space >= 2 * (h + 4) && 2 * h >= align + 8 ==> space >= leaves * 4 + align
  {
    var t := space / (h + 4);
    leaves, e := 1, 0;
    while leaves <= t
      invariant leaves == Two(e) && 0 < leaves && (leaves == 1 || leaves <= 2 * t)
      decreases t + 1 - leaves
    {
      leaves, e := 2 * leaves, e + 1;
    }
    buffers := ToInt(ULong(space - leaves * 4 - align) / h);
    if space >= leaves * 4 + align {
      Fits(space, h, align, leaves, t, (space - leaves * 4 - align) / h);
      SmallQuotient(space - leaves * 4 - align, h);
    } else if space >= 2 * (h + 4) && 2 * h >= align + 8 {
      HasRoom(space, h, align, leaves, t);
    }
  }

  /** Neither the division nor the assignment changes a number that is not negative. */
  lemma SmallQuotient(room: nat, h: nat)
    requires h > 0 && room < 0x8000_0000
    ensures ToInt(ULong(room) / h) == room / h
  {
    Divides(room, h);
    More(h, 1, room / h);
  }

  lemma HasRoom(space: nat, h: nat, align: nat, leaves: nat, t: nat)
    requires h > 0 && t == space / (h + 4) && (leaves == 1 || leaves <= 2 * t)
    requires space >= 2 * (h + 4) && 2 * h >= align + 8
    ensures space >= leaves * 4 + align
  {
    Divides(space, h + 4);
    AtLeastTwo(space, t, h + 4);
    assert t * (h + 4) == t * (h - 4) + t * 8;
    More(t, 2, h - 4);
  }

  lemma AtLeastTwo(space: nat, t: nat, d: nat)
    requires d > 0 && space >= 2 * d && space < t * d + d
    ensures t >= 2
  {
    if t < 2 { More(2, t + 1, d); }
  }

  lemma Fits(space: nat, h: nat, align: nat, leaves: nat, t: nat, buffers: nat)
    requires h > 0 && t == space / (h + 4) && leaves >= t + 1
    requires space >= leaves * 4 + align && buffers == (space - leaves * 4 - align) / h
    ensures buffers <= leaves && leaves * 4 + align + buffers * h <= space
  {
    var room := space - leaves * 4 - align;
    Divides(room, h);
    Divides(space, h + 4);
    assert buffers * h <= room;
    assert (t + 1) * (h + 4) == t * (h + 4) + (h + 4);
    More(leaves, t + 1, h + 4);
    assert leaves * (h + 4) == leaves * h + leaves * 4;
    More(buffers, leaves + 1, h);
    assert (leaves + 1) * h == leaves * h + h;
  }

  lemma Divides(a: nat, d: nat)
    requires d > 0
    ensures (a / d) * d <= a < (a / d) * d + d
  {
    assert a == d * (a / d) + a % d;
  }

  lemma More(a: nat, b: nat, h: nat)
    ensures a >= b ==> a * h >= b * h
  {
    if a >= b {
      assert a * h == b * h + (a - b) * h;
      Positive(a - b, h);
    }
  }
}
