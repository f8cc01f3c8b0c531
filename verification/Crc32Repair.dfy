/** Finding and repairing a single wrong bit by its CRC-32 (common/crc32.c, crc32_find_corrupted_bit,
    crc32_repair_bit and crc32_check_and_repair). */
module Crc32Repair {
  import opened Gf32
  import opened Crc32
  import opened PowersOfTwo

  // ----- words as unsigned numbers -----

  function Value(w: seq<bool>): nat {
    if w == [] then 0 else (if w[0] then 1 else 0) + 2 * Value(w[1..])
  }

  lemma {:induction false} ValueInjective(a: seq<bool>, b: seq<bool>)
    requires |a| == |b| && Value(a) == Value(b)
    ensures a == b
  {
    if a != [] {
      ValueInjective(a[1..], b[1..]);
      assert a == [a[0]] + a[1..] && b == [b[0]] + b[1..];
    }
  }

  /** A hexadecimal digit. */
  function Nibble(w: seq<bool>, at: nat): nat
    requires at + 4 <= |w|
  {
    (if w[at] then 1 else 0) + (if w[at + 1] then 2 else 0) + (if w[at + 2] then 4 else 0) + if w[at + 3] then 8 else 0
  }

  lemma Value1(w: seq<bool>, at: nat)
    requires at < |w|
    ensures Value(w[at..]) == (if w[at] then 1 else 0) + 2 * Value(w[at + 1..])
  {
    assert w[at..][1..] == w[at + 1..];
  }

  lemma Value4(w: seq<bool>, at: nat)
    requires at + 4 <= |w|
    ensures Value(w[at..]) == Nibble(w, at) + 16 * Value(w[at + 4..])
  {
    Value1(w, at);
    Value1(w, at + 1);
    Value1(w, at + 2);
    Value1(w, at + 3);
  }

  /** The modulus is CRC32_REFLECTED_POLY, and the inverse of x modulo it is the constant of
      crc32_find_corrupted_bit. */
  lemma Constants()
    ensures Value(CRC32_POLY) == 0xedb88320
    ensures Value(XInv(CRC32_POLY)) == 0xdb710641
  {
    PolyConstant();
    InverseConstant();
    SmallPowers();
  }

  lemma PolyConstant()
    ensures Value(CRC32_POLY) == 0xedb88320
  {
    var w := CRC32_POLY;
    Constant(w);
    LowDigits();
    HighDigits();
  }

  lemma LowDigits()
    ensures var w := CRC32_POLY; Nibble(w, 0) == 0 && Nibble(w, 4) == 2 && Nibble(w, 8) == 3 && Nibble(w, 12) == 8
  {
  }

  lemma HighDigits()
    ensures var w := CRC32_POLY; Nibble(w, 16) == 8 && Nibble(w, 20) == 11 && Nibble(w, 24) == 13 && Nibble(w, 28) == 14
  {
  }

  /** Appending the highest coefficient adds 2 to the length. */
  lemma {:induction false} ValueTop(a: seq<bool>)
    ensures Value(a + [true]) == Value(a) + Two(|a|)
  {
    if a != [] {
      assert (a + [true])[1..] == a[1..] + [true];
      ValueTop(a[1..]);
    }
  }

  lemma InverseConstant()
    ensures Value(XInv(CRC32_POLY)) == 1 + 2 * (Value(CRC32_POLY) - Two(31))
  {
    var low := CRC32_POLY[..31];
    ValueTop(low);
    assert low + [true] == CRC32_POLY;
    assert XInv(CRC32_POLY)[1..] == low;
  }

  lemma Constant(w: Word)
    ensures Value(w) == Nibble(w, 0) + 16 * (Nibble(w, 4) + 16 * (Nibble(w, 8) + 16 * (Nibble(w, 12)
              + 16 * (Nibble(w, 16) + 16 * (Nibble(w, 20) + 16 * (Nibble(w, 24) + 16 * Nibble(w, 28)))))))
  {
    assert w[0..] == w;
    Value4(w, 0);
    Value4(w, 4);
    Value4(w, 8);
    Value4(w, 12);
    Value4(w, 16);
    Value4(w, 20);
    Value4(w, 24);
    Value4(w, 28);
    assert w[32..] == [];
  }

  /** struct fcb_table_entry: the i-th power of x. */
  datatype Entry = Entry(p: Word, i: nat)

  /** cmp_fcb_table_entry. */
  predicate Before(x: Entry, y: Entry) {
    Value(x.p) < Value(y.p) || (x.p == y.p && x.i <= y.i)
  }

  // ----- qsort -----

  function Insert(e: Entry, t: seq<Entry>): (r: seq<Entry>)
    ensures multiset(r) == multiset(t) + multiset{e}
  {
    if t == [] || Before(e, t[0]) then
      assert [e] + t == [e] + t;
      [e] + t
    else
      assert t == [t[0]] + t[1..];
      [t[0]] + Insert(e, t[1..])
  }

  function Sorted(t: seq<Entry>): (r: seq<Entry>)
    ensures multiset(r) == multiset(t)
  {
    if t == [] then [] else
      assert t == [t[0]] + t[1..];
      Insert(t[0], Sorted(t[1..]))
  }

  ghost predicate InOrder(t: seq<Entry>) {
    forall i, j :: 0 <= i <= j < |t| ==> Value(t[i].p) <= Value(t[j].p)
  }

  lemma {:induction false} InsertInOrder(e: Entry, t: seq<Entry>)
    requires InOrder(t)
    ensures InOrder(Insert(e, t))
  {
    if t != [] && !Before(e, t[0]) {
      InsertInOrder(e, t[1..]);
      var r := Insert(e, t[1..]);
      forall j | 0 <= j < |r| ensures Value(t[0].p) <= Value(r[j].p) {
        assert r[j] in multiset(r);
        assert r[j] == e || r[j] in t[1..];
      }
    }
  }

  lemma {:induction false} SortedInOrder(t: seq<Entry>)
    ensures InOrder(Sorted(t))
  {
    if t != [] {
      SortedInOrder(t[1..]);
      InsertInOrder(t[0], Sorted(t[1..]));
    }
  }

  lemma SortedSame(t: seq<Entry>, e: Entry)
    ensures e in t <==> e in Sorted(t)
  {
    assert e in t <==> e in multiset(t);
    assert e in Sorted(t) <==> e in multiset(Sorted(t));
  }

  /** The powers of x below r. */
  ghost predicate PowerTable(t: seq<Entry>, r: nat, p: Poly) {
    && InOrder(t) && |t| == r
    && (forall c :: 0 <= c < |t| ==> t[c].i < r && t[c].p == Iter(t[c].i, ONE, p))
    && (forall i: nat :: i < r ==> Entry(Iter(i, ONE, p), i) in t)
  }

  /** The table that is built first, and its sorted form. */
  method BuildTable(r: nat, p: Poly) returns (t: seq<Entry>)
    requires r > 0
    ensures PowerTable(t, r, p)
  {
    var raw := [Entry(ONE, 0)];
    var i := 1;
    while i < r
      invariant 1 <= i <= r && |raw| == i && forall c: nat :: c < i ==> raw[c] == Entry(Iter(c, ONE, p), c)
    {
      IterNext(i - 1, p);
      raw := raw + [Entry(MulX(raw[i - 1].p, p), i)];
      i := i + 1;
    }
    t := Sorted(raw);
    SortedPowers(raw, p);
  }

  lemma SortedPowers(raw: seq<Entry>, p: Poly)
    requires forall c: nat :: c < |raw| ==> raw[c] == Entry(Iter(c, ONE, p), c)
    ensures PowerTable(Sorted(raw), |raw|, p)
  {
    var t := Sorted(raw);
    SortedInOrder(raw);
    assert |t| == |raw| by { assert |multiset(t)| == |multiset(raw)|; }
    forall c | 0 <= c < |t| ensures t[c].i < |raw| && t[c].p == Iter(t[c].i, ONE, p) {
      SortedSame(raw, t[c]);
    }
    forall k: nat | k < |raw| ensures Entry(Iter(k, ONE, p), k) in t {
      assert raw[k] in raw;
      SortedSame(raw, raw[k]);
    }
  }

  lemma IterNext(n: nat, p: Poly)
    ensures Iter(n + 1, ONE, p) == MulX(Iter(n, ONE, p), p)
  {
    IterPlus(1, n, ONE, p);
    assert Iter(1, Iter(n, ONE, p), p) == Iter(0, MulX(Iter(n, ONE, p), p), p);
  }

  /** The binary search: a power of x that equals x, if there is one in the table. */
  method Search(t: seq<Entry>, r: nat, x: Word, ghost p: Poly) returns (found: bool, i: nat)
    requires PowerTable(t, r, p)
    ensures found ==> i < r && Iter(i, ONE, p) == x
    ensures !found ==> forall k: nat :: k < r ==> Iter(k, ONE, p) != x
  {
    var a, b := -1, r;
    while b - a > 1
      invariant -1 <= a < b <= r
      invariant a >= 0 ==> Value(t[a].p) <= Value(x)
      invariant b < r ==> Value(x) < Value(t[b].p)
    {
      var c := (a + b) / 2;
      if Value(t[c].p) <= Value(x) { a := c; } else { b := c; }
    }
    found, i := false, 0;
    if a >= 0 && t[a].p == x {
      found, i := true, t[a].i;
      assert i < r && Iter(i, ONE, p) == x;
    } else {
      forall k: nat | k < r ensures Iter(k, ONE, p) != x {
        var e := Entry(Iter(k, ONE, p), k);
        assert e in t;
        var c :| 0 <= c < |t| && t[c] == e;
        if e.p == x {
          assert c <= a;
          ValueInjective(t[a].p, x);
        }
      }
    }
  }

  // ----- crc32_find_corrupted_bit -----

  lemma InverseColumn(q: Word, r: nat, i: nat, p: Poly)
    requires Iter(r, q, p) == ONE && i < 32
    ensures Iter(r, Iter(31 - i, q, p), p) == Iter(0, Unit(i), p)
  {
    IterPlus(r, 31 - i, q, p);
    IterPlus(31 - i, r, q, p);
    UnitIs(i, p);
  }

  /** The matrix that divides by x^r. */
  method Division(r: nat, p: Poly) returns (A: array<Word>)
    ensures fresh(A) && A.Length == 32 && Columns(A[..], r, 0, p)
  {
    XInvIsInverse(p);
    assert Iter(1, XInv(p), p) == Iter(0, MulX(XInv(p), p), p);
    var q := Pow(XInv(p), r, 1, p);
    assert 1 * r == r;
    A := new Word[32](i => ZERO);
    A[31] := q;
    var i := 30;
    while i >= 0
      invariant -1 <= i <= 30 && forall k: nat :: i < k < 32 ==> A[k] == Iter(31 - k, q, p)
    {
      IterPlus(1, 30 - i, q, p);
      assert Iter(1, A[i + 1], p) == Iter(0, MulX(A[i + 1], p), p);
      A[i] := MulX(A[i + 1], p);
      i := i - 1;
    }
    forall k: nat | k < 32 ensures Iter(r, A[k], p) == Iter(0, Unit(k), p) {
      InverseColumn(q, r, k, p);
    }
  }

  /** x^s divides out of the difference; a giant step takes r more. */
  lemma GiantStep(A: seq<Word>, r: nat, s: nat, x: Word, d: Word, p: Poly)
    requires Columns(A, r, 0, p) && Iter(s, x, p) == d
    ensures Iter(s + r, Times(A, x), p) == d
  {
    TimesIs(A, r, 0, x, p);
    IterPlus(s, r, Times(A, x), p);
  }

  /** An exponent that is not below s. */
  lemma BabySteps(s: nat, k: nat, x: Word, d: Word, p: Poly)
    requires Iter(s, x, p) == d && s <= k && Iter(k, ONE, p) == d
    ensures Iter(k - s, ONE, p) == x
  {
    IterPlus(s, k - s, ONE, p);
    IterInjective(s, Iter(k - s, ONE, p), x, p);
  }

  /** crc32_find_corrupted_bit for any rounding r of the square root of n, the number of bits: the exponent of a
      power of x that equals d, if there is one up to n. */
  method FindCorruptedBit(size: nat, d: Word, r: nat, p: Poly) returns (res: int)
    requires r > 0
    ensures -1 <= res && (res >= 0 ==> Iter(res, ONE, p) == d)
    ensures forall k: nat :: k <= 8 * (size + 4) && Iter(k, ONE, p) == d ==> 0 <= res < k + r
  {
    var n := 8 * (size + 4);
    var t := BuildTable(r, p);
    var A := Division(r, p);
    var x, j, last := d, 0, n / r;
    ghost var s: nat := 0;
    res := -1;
    while j <= last
      invariant 0 <= j <= last + 1 && A.Length == 32 && Columns(A[..], r, 0, p) && Searched(r, j, s, x, d, p)
    {
      var found, i := Search(t, r, x, p);
      if found {
        res := i + r * j;
        Found(r, j, s, i, x, d, res, p);
        return;
      }
      SearchedOn(A[..], r, j, s, x, d, p);
      assert A[0..0 + 32] == A[..];
      x := MatrixTimes(A, 0, x);
      j, s := j + 1, s + r;
    }
    LastStep(n, r, j, s);
  }

  /** After j giant steps: no exponent below s = rj gives the difference, and x is the difference divided by x^s. */
  ghost predicate Searched(r: nat, j: nat, s: nat, x: Word, d: Word, p: Poly) {
    s == r * j && Iter(s, x, p) == d && forall k: nat :: k < s ==> Iter(k, ONE, p) != d
  }

  lemma Found(r: nat, j: nat, s: nat, i: nat, x: Word, d: Word, res: int, p: Poly)
    requires Searched(r, j, s, x, d, p) && i < r && Iter(i, ONE, p) == x && res == i + r * j
    ensures res >= 0 && Iter(res, ONE, p) == d
    ensures forall k: nat :: Iter(k, ONE, p) == d ==> res < k + r
  {
    IterPlus(s, i, ONE, p);
  }

  lemma SearchedOn(A: seq<Word>, r: nat, j: nat, s: nat, x: Word, d: Word, p: Poly)
    requires Columns(A, r, 0, p) && Searched(r, j, s, x, d, p) && forall k: nat :: k < r ==> Iter(k, ONE, p) != x
    ensures Searched(r, j + 1, s + r, Times(A, x), d, p)
  {
    NoneSoFar(r, s, x, d, p);
    GiantStep(A, r, s, x, d, p);
    NextMultiple(r, j);
  }

  lemma NoneSoFar(r: nat, s: nat, x: Word, d: Word, p: Poly)
    requires Iter(s, x, p) == d && forall k: nat :: k < r ==> Iter(k, ONE, p) != x
    requires forall k: nat :: k < s ==> Iter(k, ONE, p) != d
    ensures forall k: nat :: k < s + r ==> Iter(k, ONE, p) != d
  {
    forall k: nat | k < s + r ensures Iter(k, ONE, p) != d {
      if k >= s && Iter(k, ONE, p) == d { BabySteps(s, k, x, d, p); }
    }
  }

  lemma NextMultiple(r: nat, j: nat)
    ensures r * (j + 1) == r * j + r
  {
  }

  lemma LastStep(n: nat, r: nat, j: nat, s: nat)
    requires r > 0 && j == n / r + 1 && s == r * j
    ensures s > n
  {
  }

  /** (int) (sqrt (n) + 0.5). */
  method Root(n: nat) returns (r: nat)
    requires n > 0
    ensures r > 0 && r * r < n + r <= r * r + 2 * r
  {
    r := 1;
    while r * r + r < n
      invariant r > 0 && r * r < n + r
      decreases n + r - r * r
    {
      r := r + 1;
    }
  }

  // ----- crc32_repair_bit -----

  function FlipByte(b: Byte, j: nat): Byte
    requires j < 8
  {
    b[j := !b[j]]
  }

  /** The bit that the exponent k stands for, counted from the end of the data with the checksum behind it. */
  function Flip(data: seq<Byte>, k: nat): (r: seq<Byte>)
    requires 32 <= k < 8 * (|data| + 4)
    ensures |r| == |data|
  {
    var i := |data| + 3 - k / 8;
    data[i := FlipByte(data[i], 7 - k % 8)]
  }

  lemma FlipTwice(data: seq<Byte>, k: nat)
    requires 32 <= k < 8 * (|data| + 4)
    ensures Flip(Flip(data, k), k) == data
  {
    var i := |data| + 3 - k / 8;
    assert FlipByte(FlipByte(data[i], 7 - k % 8), 7 - k % 8) == data[i];
  }

  lemma Octets(k: nat, bit: nat, octets: nat)
    requires bit < 8 && bit + 8 * octets == k % 32
    ensures 4 * (k / 32) + octets == k / 8 && bit == k % 8
  {
    assert k == 32 * (k / 32) + k % 32;
    assert k == 8 * (4 * (k / 32) + octets) + bit;
  }

  method RepairBit(input: array<Byte>, k: int) returns (r: int)
    modifies input
    ensures r == if k < 0 then -1 else if k >= 8 * (input.Length + 4) then -2 else if k < 32 then -3 else 0
    ensures input[..] == if r == 0 then Flip(old(input[..]), k) else old(input[..])
  {
    if k < 0 {
      return -1;
    }
    var l := input.Length;
    var idx, bit := k / 32, k % 32;
    var i := l - 1 - (idx - 1) * 4;
    ghost var octets: nat := 0;
    while bit >= 8
      invariant 0 <= bit && bit + 8 * octets == k % 32 && i == l + 3 - 4 * (k / 32) - octets
      decreases bit
    {
      i, bit, octets := i - 1, bit - 8, octets + 1;
    }
    Octets(k, bit, octets);
    if i < 0 {
      return -2;
    }
    if i >= l {
      return -3;
    }
    var j := 7 - bit;
    input[i] := FlipByte(input[i], j);
    return 0;
  }

  lemma FlipStep(crc: Word, b: Byte, j: nat, p: Poly)
    requires j < 8
    ensures Step(crc, FlipByte(b, j), p) == Xor(Step(crc, b, p), Iter(8, Unit(j), p))
  {
    assert Xor(crc, At(FlipByte(b, j), 0)) == Xor(Xor(crc, At(b, 0)), Unit(j));
    IterLinear(8, Xor(crc, At(b, 0)), Unit(j), p);
  }

  /** Flipping bit k changes the checksum by x^k. */
  lemma {:induction false} FlipCrc(data: seq<Byte>, k: nat, crc: Word, p: Poly)
    requires 32 <= k < 8 * (|data| + 4)
    ensures Crc(Flip(data, k), crc, p) == Xor(Crc(data, crc, p), Iter(k, ONE, p))
    decreases |data|
  {
    if |data| + 3 - k / 8 == 0 {
      FlipHere(data, k, crc, p);
    } else {
      FlipLater(data, k);
      FlipCrc(data[1..], k, Step(crc, data[0], p), p);
    }
  }

  lemma FlipLater(data: seq<Byte>, k: nat)
    requires 32 <= k < 8 * (|data| + 4) && |data| + 3 - k / 8 > 0
    ensures k < 8 * (|data[1..]| + 4) && Flip(data, k)[1..] == Flip(data[1..], k) && Flip(data, k)[0] == data[0]
  {
  }

  lemma FlipHere(data: seq<Byte>, k: nat, crc: Word, p: Poly)
    requires 32 <= k < 8 * (|data| + 4) && |data| + 3 - k / 8 == 0
    ensures Crc(Flip(data, k), crc, p) == Xor(Crc(data, crc, p), Iter(k, ONE, p))
  {
    var j, rest := 7 - k % 8, data[1..];
    assert Flip(data, k)[1..] == rest && Flip(data, k)[0] == FlipByte(data[0], j);
    FlipStep(crc, data[0], j, p);
    CrcLinear(rest, Step(crc, data[0], p), Iter(8, Unit(j), p), p);
    FlipFirst(|data|, k, p);
  }

  lemma FlipFirst(l: nat, k: nat, p: Poly)
    requires l > 0 && k / 8 == l + 3
    ensures Iter(8 * (l - 1), Iter(8, Unit(7 - k % 8), p), p) == Iter(k, ONE, p)
  {
    var j := 7 - k % 8;
    UnitIs(j, p);
    IterPlus(8 * (l - 1), 8, Unit(j), p);
    IterPlus(8 * l, 31 - j, ONE, p);
  }

  lemma FlipCompute(data: seq<Byte>, k: nat, p: Poly)
    requires 32 <= k < 8 * (|data| + 4)
    ensures Compute(Flip(data, k), p) == Xor(Compute(data, p), Iter(k, ONE, p))
  {
    var c, e := Crc(data, ONES, p), Iter(k, ONE, p);
    FlipCrc(data, k, ONES, p);
    XorLaws(c, e, ONES);
    XorLaws(c, ONES, e);
    XorLaws(e, ONES, ZERO);
  }

  // ----- crc32_check_and_repair -----

  predicate PowerOfTwo(w: Word) {
    exists i :: 0 <= i < 32 && w == Unit(i)
  }

  /** What crc32_check_and_repair may do to the data and the stored checksum. */
  ghost predicate Repaired(data: seq<Byte>, stored: Word, data': seq<Byte>, stored': Word, r: int, p: Poly) {
    && stored' == Compute(data', p)
    && (r == 0 <==> Compute(data, p) == stored)
    && (r == 0 ==> data' == data && stored' == stored)
    && (r == 1 ==> stored' == stored && exists k: nat :: 32 <= k < 8 * (|data| + 4) && data' == Flip(data, k))
    && (r == 2 ==> data' == data && PowerOfTwo(Xor(stored', stored)))
    && (r == -1 ==> data' == data)
  }

  lemma DiffZero(a: Word, b: Word)
    ensures Xor(a, b) == ZERO <==> a == b
    ensures Xor(a, Xor(a, b)) == b && Xor(a, b) == Xor(b, a)
  {
    XorLaws(a, b, ZERO);
    XorLaws(a, a, b);
    XorLaws(b, ZERO, ZERO);
  }

  /** The order of x is not below n. */
  ghost predicate Distinct(n: nat, p: Poly) {
    forall e: nat :: 0 < e < n ==> Iter(e, ONE, p) != ONE
  }

  lemma SameExponent(j: nat, k: nat, n: nat, p: Poly)
    requires Distinct(n, p) && j <= k < j + n && Iter(j, ONE, p) == Iter(k, ONE, p)
    ensures j == k
  {
    IterPlus(j, k - j, ONE, p);
    IterInjective(j, Iter(k - j, ONE, p), ONE, p);
  }

  lemma PowerNotZero(k: nat, p: Poly)
    ensures Iter(k, ONE, p) != ZERO
  {
    assert ONE[31] && !ZERO[31];
    if Iter(k, ONE, p) == ZERO { IterNonZero(k, ONE, p); }
  }

  /** The bit that was flipped is the only one whose power of x is the difference. */
  lemma OnlyExponent(k: nat, res: nat, n: nat, r: nat, p: Poly)
    requires Distinct(n, p) && k < n && res < k + r && r <= n && Iter(res, ONE, p) == Iter(k, ONE, p)
    ensures res == k
  {
    if res >= k { SameExponent(k, res, n, p); } else { SameExponent(res, k, n, p); }
  }

  /** If a bit of the data was flipped after its checksum was stored, the exponent of that bit is the difference;
      flipping it once more restores the data. */
  lemma FlippedDiffers(data: seq<Byte>, k: nat, p: Poly)
    requires 32 <= k < 8 * (|data| + 4)
    ensures Xor(Compute(Flip(data, k), p), Compute(data, p)) == Iter(k, ONE, p)
    ensures Flip(Flip(data, k), k) == data
  {
    FlipTwice(data, k);
    FlipCompute(data, k, p);
    var c, e := Compute(data, p), Iter(k, ONE, p);
    XorLaws(c, e, c);
    XorLaws(e, c, c);
  }

  /** crc32_check_and_repair; `failed` says that the assertion !force_exit fails, which ends the program. */
  method CheckAndRepair(input: array<Byte>, stored: Word, p: Poly, forceExit: bool) returns (r: int, stored': Word, failed: bool)
    modifies input
    ensures failed <==> forceExit && r == -1
    ensures failed ==> input[..] == old(input[..]) && stored' == stored
    ensures !failed ==> Repaired(old(input[..]), stored, input[..], stored', r, p)
    ensures r in {0, 1, 2, -1}
    ensures Decided(old(input[..]), stored, input[..], stored', r, p)
  {
    ghost var data := input[..];
    var computed := Partial(input[..], ONES, p);
    computed := Xor(computed, ONES);
    var diff := Xor(computed, stored);
    DiffZero(computed, stored);
    UnitPowers(p);
    if diff == ZERO {
      forall k: nat ensures Iter(k, ONE, p) != ZERO { PowerNotZero(k, p); }
      return 0, stored, false;
    }
    var root := Root(8 * (input.Length + 4));
    RootBelow(8 * (input.Length + 4), root);
    var k := FindCorruptedBit(input.Length, diff, root, p);
    forall k0: nat | k0 < 8 * (|data| + 4) && Distinct(8 * (|data| + 4), p) && diff == Iter(k0, ONE, p) ensures k == k0 {
      OnlyExponent(k0, k, 8 * (|data| + 4), root, p);
    }
    var done := RepairBit(input, k);
    if done == 0 {
      FlipCompute(data, k, p);
      assert Compute(input[..], p) == stored;
      return 1, stored, false;
    }
    if PowerOfTwo(diff) {
      return 2, computed, false;
    }
    return -1, if forceExit then stored else computed, forceExit;
  }

  /** The difference d is a power of x that stands for one of the n bits. */
  ghost predicate OneBit(d: Word, n: nat, p: Poly) {
    exists k: nat :: k < n && d == Iter(k, ONE, p)
  }

  /** Nothing is given up that the flip of no single bit explains.  If the powers of x differ for all bits, then a
      flipped bit of the data is flipped back, after a flipped bit of the checksum that is computed anew, and only
      what no single bit explains is given up. */
  ghost predicate Decided(data: seq<Byte>, stored: Word, data': seq<Byte>, stored': Word, r: int, p: Poly) {
    var n, d := 8 * (|data| + 4), Xor(Compute(data, p), stored);
    && (d != ZERO && !OneBit(d, n, p) ==> r == -1)
    && (Distinct(n, p) ==> Explained(data, stored, data', stored', r, p))
  }

  ghost predicate Explained(data: seq<Byte>, stored: Word, data': seq<Byte>, stored': Word, r: int, p: Poly) {
    var n, d := 8 * (|data| + 4), Xor(Compute(data, p), stored);
    && (r == -1 <==> d != ZERO && !OneBit(d, n, p))
    && (forall k: nat :: 32 <= k < n && d == Iter(k, ONE, p) ==> r == 1 && data' == Flip(data, k))
    && (forall i: nat :: i < 32 && d == Unit(i) ==> r == 2 && stored' == Compute(data, p))
  }

  /** The bits of the checksum have the lowest powers. */
  lemma UnitPowers(p: Poly)
    ensures forall i: nat :: i < 32 ==> Unit(i) == Iter(31 - i, ONE, p)
    ensures forall k: nat :: k < 32 ==> Iter(k, ONE, p) == Unit(31 - k)
  {
    forall k: nat | k < 32 ensures Iter(k, ONE, p) == Unit(31 - k) {
      UnitIs(31 - k, p);
    }
    forall i: nat | i < 32 ensures Unit(i) == Iter(31 - i, ONE, p) {
      UnitIs(i, p);
    }
  }

  lemma RootBelow(n: nat, r: nat)
    requires n >= 32 && r > 0 && r * r < n + r
    ensures r <= n
  {
    MulMono(r, n);
  }

  lemma MulMono(r: nat, n: nat)
    ensures r > n > 0 ==> r * r >= n + r
  {
    if r > n > 0 {
      assert r * r == r * (r - 1) + r;
      assert r * (r - 1) >= 1 * (r - 1);
    }
  }
}
