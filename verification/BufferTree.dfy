/** The tree of free counts in a buffer chunk (net/net-msg-buffers.c): free_cnt[1] is the root, the children of
    node i are 2i and 2i+1, and the leaves from two_power on say of each buffer whether it is free. */
module BufferTree {
  import opened PowersOfTwo

  /** The count of the inner node y is that of its children; it is one more at `up`, one less at `down`. */
  predicate Node(t: seq<nat>, y: nat, up: nat, down: nat)
    requires 2 * y + 1 < |t|
  {
    t[y] + (if y == down then 1 else 0) == t[2 * y] + t[2 * y + 1] + (if y == up then 1 else 0)
  }

  /** Every inner node from `low` on counts its children, give or take one at up and down. */
  predicate Near(t: seq<nat>, tp: nat, low: nat, up: nat, down: nat) {
    |t| == 2 * tp && forall y: nat :: low <= y < tp && 1 <= y ==> Node(t, y, up, down)
  }

  predicate Leaves(t: seq<nat>, tp: nat) {
    |t| == 2 * tp && forall x :: tp <= x < 2 * tp ==> t[x] <= 1
  }

  /** What every operation keeps. */
  predicate TreeOk(t: seq<nat>, tp: nat) {
    Leaves(t, tp) && Near(t, tp, 1, 0, 0)
  }

  /** The entry of buffer x: 1 if it is free. */
  function Leaf(t: seq<nat>, tp: nat, x: nat): nat
    requires |t| == 2 * tp && x < tp
  {
    t[tp + x]
  }

  /** The number of free buffers among the n from the l-th on. */
  function Count(t: seq<nat>, tp: nat, l: nat, n: nat): nat
    requires |t| == 2 * tp && l + n <= tp
    decreases n
  {
    if n == 0 then 0 else Leaf(t, tp, l) + Count(t, tp, l + 1, n - 1)
  }

  lemma {:induction false} CountSplit(t: seq<nat>, tp: nat, l: nat, n: nat, m: nat)
    requires |t| == 2 * tp && m <= n && l + n <= tp
    ensures Count(t, tp, l, n) == Count(t, tp, l, m) + Count(t, tp, l + m, n - m)
    decreases m
  {
    if m > 0 { CountSplit(t, tp, l + 1, n - 1, m - 1); }
  }

  /** Node i is the root of the subtree over the s leaves from l on. */
  predicate Over(tp: nat, i: nat, l: nat, s: nat) {
    s > 0 && i > 0 && i * s == tp + l && l + s <= tp
  }

  /** Its children halve the range. */
  lemma Halves(tp: nat, i: nat, l: nat, e: nat)
    requires Over(tp, i, l, Two(e)) && e > 0
    ensures i < tp && Over(tp, 2 * i, l, Two(e - 1)) && Over(tp, 2 * i + 1, l + Two(e - 1), Two(e - 1))
  {
    var h := Two(e - 1);
    assert i * (2 * h) == 2 * i * h && (2 * i + 1) * h == 2 * i * h + h;
    TwoPositive(e - 1);
    if i >= tp { Product(i, tp, 2 * h); }
  }

  lemma Product(i: nat, tp: nat, s: nat)
    requires s >= 2 && i >= tp
    ensures i * s >= 2 * tp
  {
    assert i * s >= i * 2;
  }

  lemma LeafIs(tp: nat, i: nat, l: nat)
    requires Over(tp, i, l, Two(0))
    ensures i == tp + l
  {
  }

  /** A count is the number of free leaves below the node. */
  lemma {:induction false} CountIs(t: seq<nat>, tp: nat, low: nat, up: nat, down: nat, i: nat, l: nat, e: nat)
    requires Near(t, tp, low, up, down) && low <= i && up < i && down < i && Over(tp, i, l, Two(e))
    ensures i < |t| && l + Two(e) <= tp && t[i] == Count(t, tp, l, Two(e))
    decreases e
  {
    if e == 0 {
      LeafIs(tp, i, l);
      assert Count(t, tp, l, 1) == Leaf(t, tp, l) + Count(t, tp, l + 1, 0);
    } else {
      Halves(tp, i, l, e);
      CountIs(t, tp, low, up, down, 2 * i, l, e - 1);
      CountIs(t, tp, low, up, down, 2 * i + 1, l + Two(e - 1), e - 1);
      CountSplit(t, tp, l, Two(e), Two(e - 1));
      assert Node(t, i, up, down);
    }
  }

  lemma RootOver(tp: nat, e: nat)
    requires tp == Two(e)
    ensures Over(tp, 1, 0, tp)
  {
    TwoPositive(e);
  }

  /** The leaves determine the whole tree. */
  lemma {:induction false} Determined(t: seq<nat>, t': seq<nat>, tp: nat, i: nat)
    requires TreeOk(t, tp) && TreeOk(t', tp) && t[tp..] == t'[tp..] && 1 <= i < 2 * tp
    ensures t[i] == t'[i]
    decreases 2 * tp - i
  {
    if i < tp {
      Determined(t, t', tp, 2 * i);
      Determined(t, t', tp, 2 * i + 1);
      assert Node(t, i, 0, 0) && Node(t', i, 0, 0);
    } else {
      assert t[i] == t[tp..][i - tp] && t'[i] == t'[tp..][i - tp];
    }
  }

  /** None of the buffers from l up to r is free. */
  predicate NoneFree(t: seq<nat>, tp: nat, l: nat, r: nat) {
    |t| == 2 * tp && r <= tp && forall y: nat :: l <= y < r ==> Leaf(t, tp, y) == 0
  }

  /** x is the first free buffer from l on. */
  predicate FirstFree(t: seq<nat>, tp: nat, l: nat, x: nat) {
    l <= x < tp && NoneFree(t, tp, l, x) && Leaf(t, tp, x) == 1
  }

  /** The choice next to a live neighbour x: the first free buffer behind it, or else the first of all. */
  predicate Nearest(t: seq<nat>, tp: nat, x: nat, r: nat) {
    FirstFree(t, tp, x + 1, r) || (NoneFree(t, tp, x + 1, tp) && FirstFree(t, tp, 0, r))
  }

  lemma {:induction false} CountZero(t: seq<nat>, tp: nat, l: nat, n: nat)
    requires |t| == 2 * tp && l + n <= tp
    ensures Count(t, tp, l, n) == 0 <==> NoneFree(t, tp, l, l + n)
    decreases n
  {
    if n > 0 {
      CountZero(t, tp, l + 1, n - 1);
      assert NoneFree(t, tp, l, l + n) ==> Leaf(t, tp, l) == 0;
    }
  }

  class Chunk {
    const twoPower: nat
    const totBuffers: nat
    const freeCnt: array<nat>
    ghost const depth: nat

    /** The counts are right. */
    ghost predicate Counted() reads freeCnt {
      twoPower == Two(depth) > 0 && TreeOk(freeCnt[..], twoPower)
    }

    /** And no leaf behind the last buffer of the chunk is free. */
    ghost predicate Valid() reads freeCnt {
      Counted() && totBuffers <= twoPower && NoneFree(freeCnt[..], twoPower, totBuffers, twoPower)
    }

    /** The part of alloc_new_msg_buffers_chunk that sets the tree up: all buffers free. */
    constructor (two: nat, total: nat, ghost e: nat)
      requires 0 < total <= two == Two(e)
      ensures Valid() && fresh(freeCnt) && twoPower == two && totBuffers == total
      ensures forall x: nat :: x < two ==> Leaf(freeCnt[..], two, x) == if x < total then 1 else 0
    {
      twoPower, totBuffers, depth := two, total, e;
      var t := new nat[2 * two](i => 0);
      freeCnt := t;
      new;
      var i := 0;
      while i < total
        invariant 0 <= i <= total && freeCnt == t
        invariant forall x :: two <= x < 2 * two ==> freeCnt[x] == if x < two + i then 1 else 0
      {
        freeCnt[two + i] := 1;
        i := i + 1;
      }
      i := two - 1;
      while i > 0
        invariant 0 <= i < two
        invariant forall x :: two <= x < 2 * two ==> freeCnt[x] == if x < two + total then 1 else 0
        invariant Near(freeCnt[..], two, i + 1, 0, 0)
      {
        ghost var before := freeCnt[..];
        freeCnt[i] := freeCnt[2 * i] + freeCnt[2 * i + 1];
        SetUp(before, freeCnt[..], two, i);
        i := i - 1;
      }
    }

    /** while (k > 0) { -- free_cnt[k]; k >>= 1; } from a leaf, or from a node whose subtree is one short already. */
    method TakeUp(k0: nat)
      requires 0 < k0 < freeCnt.Length && twoPower > 0 && Leaves(freeCnt[..], twoPower)
      requires Near(freeCnt[..], twoPower, 1, if k0 < twoPower then k0 else 0, 0) && freeCnt[k0] > 0
      modifies freeCnt
      ensures TreeOk(freeCnt[..], twoPower)
      ensures freeCnt[twoPower..] == if k0 < twoPower then old(freeCnt[twoPower..])
                                     else old(freeCnt[twoPower..])[k0 - twoPower := old(freeCnt[k0]) - 1]
    {
      var k := k0;
      while k > 0
        invariant 0 <= k < freeCnt.Length && Leaves(freeCnt[..], twoPower)
        invariant Near(freeCnt[..], twoPower, 1, if k < twoPower then k else 0, 0) && (k > 0 ==> freeCnt[k] > 0)
        invariant k == k0 ==> freeCnt[..] == old(freeCnt[..])
        invariant k < k0 ==> k < twoPower
        invariant k < k0 ==> freeCnt[twoPower..] == if k0 < twoPower then old(freeCnt[twoPower..])
                                         else old(freeCnt[twoPower..])[k0 - twoPower := old(freeCnt[k0]) - 1]
      {
        ghost var before := freeCnt[..];
        freeCnt[k] := freeCnt[k] - 1;
        TakenUp(before, freeCnt[..], twoPower, k);
        k := k / 2;
      }
    }

    /** free_std_msg_buffer. */
    method Free(x0: nat)
      requires Valid() && x0 < totBuffers && freeCnt[twoPower + x0] == 0
      modifies freeCnt
      ensures Valid() && freeCnt[twoPower..] == old(freeCnt[twoPower..])[x0 := 1]
    {
      var x := x0 + twoPower;
      while x > 0
        invariant 0 <= x < freeCnt.Length && Leaves(freeCnt[..], twoPower)
        invariant Near(freeCnt[..], twoPower, 1, 0, if x < twoPower then x else 0)
        invariant x >= twoPower ==> x == x0 + twoPower && freeCnt[..] == old(freeCnt[..])
        invariant x < twoPower ==> freeCnt[twoPower..] == old(freeCnt[twoPower..])[x0 := 1]
      {
        ghost var before := freeCnt[..];
        freeCnt[x] := freeCnt[x] + 1;
        GivenUp(before, freeCnt[..], twoPower, x);
        x := x / 2;
      }
      BehindKept(old(freeCnt[..]), freeCnt[..], twoPower, totBuffers, x0, 1);
    }

    /** The random choice of alloc_msg_buffer_internal, with the number that lrand48_j returns: one of the first
        16 free buffers. */
    method AllocRandom(random: nat) returns (r: nat)
      requires Valid() && freeCnt[1] > 0 && random < 0x8000_0000
      modifies freeCnt
      ensures Valid() && r < totBuffers && old(Leaf(freeCnt[..], twoPower, r)) == 1
      ensures Count(old(freeCnt[..]), twoPower, 0, r) == random * Lesser(old(freeCnt[1]), 16) / 0x8000_0000 < old(freeCnt[1])
      ensures freeCnt[twoPower..] == old(freeCnt[twoPower..])[r := 0]
    {
      ChoiceBelow(random, Lesser(freeCnt[1], 16));
      r := TakeNth(random * Lesser(freeCnt[1], 16) / 0x8000_0000);
      BehindKept(old(freeCnt[..]), freeCnt[..], twoPower, totBuffers, r, 0);
    }

    /** The way down to the j0-th free buffer. */
    method TakeNth(j0: nat) returns (r: nat)
      requires Counted() && j0 < freeCnt[1]
      modifies freeCnt
      ensures Counted() && r < twoPower && old(Leaf(freeCnt[..], twoPower, r)) == 1
      ensures Count(old(freeCnt[..]), twoPower, 0, r) == j0
      ensures freeCnt[twoPower..] == old(freeCnt[twoPower..])[r := 0]
    {
      var i: nat, j: nat := 1, j0;
      ghost var l: nat, e, t0 := 0, depth, freeCnt[..];
      RootOver(twoPower, depth);
      while i < twoPower
        invariant Descending(t0, freeCnt[..], twoPower, i, l, e, j, j0)
        decreases e
      {
        ghost var t := freeCnt[..];
        DescendTop(t0, t, twoPower, i, l, e, j, j0);
        freeCnt[i] := freeCnt[i] - 1;
        i := 2 * i;
        DescendStep(t0, t, freeCnt[..], twoPower, i / 2, l, e, j, j0);
        e := e - 1;
        if freeCnt[i] <= j {
          j := j - freeCnt[i];
          i := i + 1;
          l := l + Two(e);
        }
      }
      ghost var t := freeCnt[..];
      DescendEnd(t0, t, twoPower, i, l, e, j, j0);
      assert freeCnt[i] == 1;
      freeCnt[i] := freeCnt[i] - 1;
      TakenDown(t, freeCnt[..], twoPower, i);
      return i - twoPower;
    }

    /** From node j down to its first free leaf, taking one off every node below j. */
    method Leftmost(j: nat, ghost l0: nat, ghost e0: nat) returns (i: nat)
      requires Counted() && Over(twoPower, j, l0, Two(e0)) && j < freeCnt.Length && freeCnt[j] > 0
      modifies freeCnt
      ensures twoPower <= i < freeCnt.Length && FirstFree(old(freeCnt[..]), twoPower, l0, i - twoPower)
      ensures Leaves(freeCnt[..], twoPower) && Near(freeCnt[..], twoPower, 1, if j < twoPower then j else 0, 0)
      ensures freeCnt[j] > 0 && (j >= twoPower ==> i == j && freeCnt[j] == 1)
      ensures freeCnt[twoPower..] == if j < twoPower then old(freeCnt[twoPower..])[i - twoPower := 0] else old(freeCnt[twoPower..])
    {
      i := j;
      ghost var l: nat, e, t0 := l0, e0, freeCnt[..];
      while i < twoPower
        invariant LeftDown(t0, freeCnt[..], twoPower, j, l0, i, l, e)
        decreases e
      {
        ghost var t := freeCnt[..];
        LeftTop(t0, t, twoPower, j, l0, i, l, e);
        i := 2 * i;
        if freeCnt[i] == 0 { i := i + 1; }
        freeCnt[i] := freeCnt[i] - 1;
        assert freeCnt[..] == t[i := t[i] - 1];
        LeftStep(t0, t, freeCnt[..], twoPower, j, l0, i, l, e);
        l, e := if i % 2 == 0 then l else l + Two(e - 1), e - 1;
      }
      LeftEnd(t0, freeCnt[..], twoPower, j, l0, i, l, e);
    }

    /** The choice of alloc_msg_buffer_internal next to a live neighbour. */
    method AllocNear(x: nat) returns (b: nat)
      requires Valid() && x < totBuffers && Leaf(freeCnt[..], twoPower, x) == 0 && freeCnt[1] > 0
      modifies freeCnt
      ensures Valid() && b < totBuffers && Nearest(old(freeCnt[..]), twoPower, x, b)
      ensures freeCnt[twoPower..] == old(freeCnt[twoPower..])[b := 0]
    {
      var i: nat, k: nat := 1, 0;
      if x < twoPower - 1 && freeCnt[twoPower + x + 1] > 0 {
        i := twoPower + x + 1;
        NextIsFree(freeCnt[..], twoPower, x);
      } else {
        i, k := SearchNear(x);
      }
      if k == 0 {
        k := i;
      }
      TakeUp(k);
      b := i - twoPower;
      BehindKept(old(freeCnt[..]), freeCnt[..], twoPower, totBuffers, b, 0);
    }

    /** The search itself: a free leaf i, with the path to it untouched if k is 0, and one less below node k
        otherwise. */
    method SearchNear(x: nat) returns (i: nat, k: nat)
      requires Counted() && x < twoPower && Leaf(freeCnt[..], twoPower, x) == 0 && freeCnt[1] > 0
      modifies freeCnt
      ensures k == 0 ==> freeCnt[..] == old(freeCnt[..]) && twoPower <= i < freeCnt.Length && freeCnt[i] == 1
      ensures k == 0 ==> Nearest(freeCnt[..], twoPower, x, i - twoPower)
      ensures k > 0 ==> Found(old(freeCnt[..]), freeCnt[..], twoPower, x, i, k)
    {
      i, k := 1, 0;
      ghost var t := freeCnt[..];
      var j: nat, l: nat, r: nat := 1, 0, twoPower;
      ghost var e, lj: nat, ej := depth, 0, depth;
      RootOver(twoPower, depth);
      while i < twoPower && k == 0
        invariant k == 0 ==> freeCnt[..] == t && Searching(t, twoPower, x, i, l, r, e, j, lj, ej)
        invariant k > 0 ==> Found(t, freeCnt[..], twoPower, x, i, k)
        decreases k == 0, e
      {
        var m := (l + r) / 2;
        SearchStep(t, twoPower, x, i, l, r, m, e, j, lj, ej);
        i := 2 * i;
        if x < m {
          if freeCnt[i] > 0 {
            r := m;
            if freeCnt[i + 1] > 0 { j, lj, ej := i + 1, m, e - 1; }
          } else {
            l, i := m, i + 1;
          }
        } else if freeCnt[i + 1] > 0 {
          l, i := m, i + 1;
        } else {
          k := j;
          i := Leftmost(j, lj, ej);
        }
        e := e - 1;
      }
      if k == 0 { SearchEnd(t, twoPower, x, i, l, r, e, j, lj, ej); }
    }
  }

  function Lesser(a: nat, b: nat): nat {
    if a < b then a else b
  }

  lemma ChoiceBelow(random: nat, n: nat)
    requires random < 0x8000_0000 && n > 0
    ensures random * n / 0x8000_0000 < n
  {
    assert random * n < 0x8000_0000 * n;
  }

  /** Only buffers of the chunk come and go. */
  lemma BehindKept(t: seq<nat>, t': seq<nat>, tp: nat, total: nat, r: nat, v: nat)
    requires |t| == |t'| == 2 * tp && r < tp && t'[tp..] == t[tp..][r := v] && NoneFree(t, tp, total, tp)
    requires r < total || Leaf(t, tp, r) == 1
    ensures r < total && NoneFree(t', tp, total, tp)
  {
    assert r < total;
    forall y: nat | total <= y < tp ensures Leaf(t', tp, y) == 0 {
      assert t'[tp..][y] == t[tp..][y] && Leaf(t, tp, y) == 0;
    }
  }

  /** Freeing a buffer right after it was allocated puts the whole tree back. */
  lemma FreeUndoesAlloc(t: seq<nat>, t1: seq<nat>, t2: seq<nat>, tp: nat, r: nat)
    requires TreeOk(t, tp) && TreeOk(t1, tp) && TreeOk(t2, tp) && r < tp && Leaf(t, tp, r) == 1
    requires t1[tp..] == t[tp..][r := 0] && t2[tp..] == t1[tp..][r := 1]
    ensures t2[1..] == t[1..]
  {
    assert t2[tp..] == t[tp..];
    forall i: nat | 1 <= i < 2 * tp ensures t2[i] == t[i] {
      Determined(t2, t, tp, i);
    }
  }

  lemma NextIsFree(t: seq<nat>, tp: nat, x: nat)
    requires Leaves(t, tp) && x + 1 < tp && t[tp + x + 1] > 0
    ensures t[tp + x + 1] == 1 && FirstFree(t, tp, x + 1, x + 1)
  {
  }

  /** The way down from node j to its first free leaf, now at node i over the leaves from l on. */
  ghost predicate LeftDown(t0: seq<nat>, t: seq<nat>, tp: nat, j: nat, l0: nat, i: nat, l: nat, e: nat) {
    && TreeOk(t0, tp) && Leaves(t, tp) && 0 < j <= i < |t| && Over(tp, i, l, Two(e)) && l0 <= l && NoneFree(t0, tp, l0, l)
    && t0[j] > 0 && t[j] == t0[j]
    && (if i == j then t == t0
        else j < tp && Near(t, tp, 1, j, if i < tp then i else 0)
             && t[tp..] == (if i < tp then t0[tp..] else t0[tp..][i - tp := 0])
             && (i >= tp ==> Leaf(t0, tp, i - tp) == 1))
  }

  lemma LeftTop(t0: seq<nat>, t: seq<nat>, tp: nat, j: nat, l0: nat, i: nat, l: nat, e: nat)
    requires LeftDown(t0, t, tp, j, l0, i, l, e) && i < tp
    ensures e > 0 && 2 * i + 1 < |t| && t[2 * i] + t[2 * i + 1] > 0
  {
    if e == 0 { LeafIs(tp, i, l); }
    assert Node(t, i, if i == j then 0 else j, if i == j then 0 else i);
  }

  lemma LeftStep(t0: seq<nat>, t: seq<nat>, t': seq<nat>, tp: nat, j: nat, l0: nat, c: nat, l: nat, e: nat)
    requires LeftDown(t0, t, tp, j, l0, c / 2, l, e) && c / 2 < tp && e > 0 && c < |t|
    requires c % 2 == 1 ==> t[c - 1] == 0
    requires t[c] > 0 && t' == t[c := t[c] - 1]
    ensures LeftDown(t0, t', tp, j, l0, c, if c % 2 == 0 then l else l + Two(e - 1), e - 1)
  {
    var i, h := c / 2, Two(e - 1);
    var up, down := if i == j then 0 else j, if i == j then 0 else i;
    Halves(tp, i, l, e);
    var below := if c < tp then c else 0;
    forall y: nat | 1 <= y < tp ensures Node(t', y, j, below) {
      assert Node(t, y, up, down);
    }
    CountIs(t, tp, i + 1, up, down, 2 * i, l, e - 1);
    SameCount(t, t0, tp, l, h);
    CountZero(t0, tp, l, h);
    if c >= tp { assert t[tp..][c - tp] == t0[tp..][c - tp]; }
  }

  lemma LeftEnd(t0: seq<nat>, t: seq<nat>, tp: nat, j: nat, l0: nat, i: nat, l: nat, e: nat)
    requires LeftDown(t0, t, tp, j, l0, i, l, e) && i >= tp
    ensures FirstFree(t0, tp, l0, i - tp) && t[j] > 0 && Leaves(t, tp) && Near(t, tp, 1, if j < tp then j else 0, 0)
    ensures j >= tp ==> i == j && t[j] == 1
    ensures t[tp..] == if j < tp then t0[tp..][i - tp := 0] else t0[tp..]
  {
    if e > 0 { Halves(tp, i, l, e); }
    LeafIs(tp, i, l);
  }

  /** The search next to x is at node i over the leaves from l up to r.  While these contain x, node j over the
      leaves from lj on has the first free leaf behind them, or there is none and j is the root. */
  ghost predicate Searching(t: seq<nat>, tp: nat, x: nat, i: nat, l: nat, r: nat, e: nat, j: nat, lj: nat, ej: nat) {
    && TreeOk(t, tp) && x < tp && Leaf(t, tp, x) == 0 && Over(tp, i, l, Two(e)) && r == l + Two(e) && i < |t| && t[i] > 0
    && x < r && (x < l ==> NoneFree(t, tp, x + 1, l))
    && Over(tp, j, lj, Two(ej)) && j < |t| && t[j] > 0
    && (l <= x ==> if j == 1 then lj == 0 && NoneFree(t, tp, r, tp) else r <= lj && NoneFree(t, tp, r, lj))
  }

  /** The search has ended below node k, and the nodes below it are one less already. */
  ghost predicate Found(t: seq<nat>, t': seq<nat>, tp: nat, x: nat, i: nat, k: nat) {
    && |t| == |t'| == 2 * tp && tp <= i < |t| && Nearest(t, tp, x, i - tp) && Leaves(t', tp) && 0 < k < |t'| && t'[k] > 0
    && Near(t', tp, 1, if k < tp then k else 0, 0) && (k >= tp ==> i == k && t'[k] == 1)
    && t'[tp..] == if k < tp then t[tp..][i - tp := 0] else t[tp..]
  }

  lemma SearchTop(t: seq<nat>, tp: nat, x: nat, i: nat, l: nat, r: nat, e: nat, j: nat, lj: nat, ej: nat)
    requires Searching(t, tp, x, i, l, r, e, j, lj, ej) && i < tp
    ensures e > 0 && 2 * i + 1 < |t| && (l + r) / 2 == l + Two(e - 1)
  {
    if e == 0 { LeafIs(tp, i, l); }
  }

  lemma SearchStep(t: seq<nat>, tp: nat, x: nat, i: nat, l: nat, r: nat, m: nat, e: nat, j: nat, lj: nat, ej: nat)
    requires Searching(t, tp, x, i, l, r, e, j, lj, ej) && i < tp && m == (l + r) / 2
    ensures e > 0 && 2 * i + 1 < |t|
    ensures x < m && t[2 * i] > 0 && t[2 * i + 1] > 0 ==> Searching(t, tp, x, 2 * i, l, m, e - 1, 2 * i + 1, m, e - 1)
    ensures x < m && t[2 * i] > 0 && t[2 * i + 1] == 0 ==> Searching(t, tp, x, 2 * i, l, m, e - 1, j, lj, ej)
    ensures x < m && t[2 * i] == 0 ==> Searching(t, tp, x, 2 * i + 1, m, r, e - 1, j, lj, ej)
    ensures x >= m && t[2 * i + 1] > 0 ==> Searching(t, tp, x, 2 * i + 1, m, r, e - 1, j, lj, ej)
    ensures x >= m && t[2 * i + 1] == 0 ==> forall b: nat :: FirstFree(t, tp, lj, b) ==> Nearest(t, tp, x, b)
  {
    SearchTop(t, tp, x, i, l, r, e, j, lj, ej);
    var h := Two(e - 1);
    Halves(tp, i, l, e);
    assert Node(t, i, 0, 0);
    CountIs(t, tp, 1, 0, 0, 2 * i, l, e - 1);
    CountIs(t, tp, 1, 0, 0, 2 * i + 1, m, e - 1);
    CountZero(t, tp, l, h);
    CountZero(t, tp, m, h);
    if x >= m && t[2 * i + 1] == 0 {
      NoneJoined(t, tp, x + 1, r, if j == 1 then tp else lj);
      forall b: nat | FirstFree(t, tp, lj, b) ensures Nearest(t, tp, x, b) {
        if j != 1 { NoneJoined(t, tp, x + 1, lj, b); }
      }
    }
  }

  lemma NoneJoined(t: seq<nat>, tp: nat, l: nat, m: nat, r: nat)
    requires |t| == 2 * tp
    ensures NoneFree(t, tp, l, m) && NoneFree(t, tp, m, r) ==> NoneFree(t, tp, l, r)
  {
  }

  lemma SearchEnd(t: seq<nat>, tp: nat, x: nat, i: nat, l: nat, r: nat, e: nat, j: nat, lj: nat, ej: nat)
    requires Searching(t, tp, x, i, l, r, e, j, lj, ej) && i >= tp
    ensures Nearest(t, tp, x, i - tp) && t[i] == 1
  {
    if e > 0 { Halves(tp, i, l, e); }
    LeafIs(tp, i, l);
  }

  lemma SetUp(t: seq<nat>, t': seq<nat>, tp: nat, i: nat)
    requires 0 < i < tp && Near(t, tp, i + 1, 0, 0) && t' == t[i := t[2 * i] + t[2 * i + 1]]
    ensures Near(t', tp, i, 0, 0)
  {
    forall y: nat | i <= y < tp ensures Node(t', y, 0, 0) {
      assert y > i ==> Node(t, y, 0, 0);
    }
  }

  lemma TakenUp(t: seq<nat>, t': seq<nat>, tp: nat, k: nat)
    requires Leaves(t, tp) && 0 < k < 2 * tp && t[k] > 0 && t' == t[k := t[k] - 1]
    requires Near(t, tp, 1, if k < tp then k else 0, 0)
    ensures Leaves(t', tp) && Near(t', tp, 1, k / 2, 0) && k / 2 < tp && (k / 2 > 0 ==> t'[k / 2] > 0)
  {
    forall y: nat | 1 <= y < tp ensures Node(t', y, k / 2, 0) {
      assert Node(t, y, if k < tp then k else 0, 0);
    }
    assert k / 2 > 0 ==> Node(t', k / 2, k / 2, 0);
  }

  lemma GivenUp(t: seq<nat>, t': seq<nat>, tp: nat, k: nat)
    requires Leaves(t, tp) && 0 < k < 2 * tp && t' == t[k := t[k] + 1] && (k >= tp ==> t[k] == 0)
    requires Near(t, tp, 1, 0, if k < tp then k else 0)
    ensures Leaves(t', tp) && Near(t', tp, 1, 0, k / 2) && k / 2 < tp
  {
    forall y: nat | 1 <= y < tp ensures Node(t', y, 0, k / 2) {
      assert Node(t, y, 0, if k < tp then k else 0);
    }
  }

  /** One less at node k: its parent, which was one short, is in order again. */
  lemma TakenDown(t: seq<nat>, t': seq<nat>, tp: nat, k: nat)
    requires Leaves(t, tp) && 0 < k < 2 * tp && t[k] > 0 && t' == t[k := t[k] - 1]
    requires Near(t, tp, 1, 0, k / 2)
    ensures Leaves(t', tp) && Near(t', tp, 1, 0, if k < tp then k else 0)
  {
    var down := if k < tp then k else 0;
    forall y: nat | 1 <= y < tp ensures Node(t', y, 0, down) {
      assert Node(t, y, 0, k / 2);
    }
  }

  /** The way down from the root to the j0-th free buffer: node i is not decremented yet, and j buffers below it
      are to be passed. */
  ghost predicate Descending(t0: seq<nat>, t: seq<nat>, tp: nat, i: nat, l: nat, e: nat, j: nat, j0: nat) {
    && TreeOk(t0, tp) && Leaves(t, tp) && Over(tp, i, l, Two(e)) && i < |t| && j < t[i]
    && Near(t, tp, 1, 0, i / 2) && t[tp..] == t0[tp..] && Count(t0, tp, 0, l) + j == j0
  }

  lemma {:induction false} SameCount(t: seq<nat>, t': seq<nat>, tp: nat, l: nat, n: nat)
    requires |t| == |t'| == 2 * tp && t[tp..] == t'[tp..] && l + n <= tp
    ensures Count(t, tp, l, n) == Count(t', tp, l, n)
    decreases n
  {
    if n > 0 {
      assert t[tp..][l] == t'[tp..][l];
      SameCount(t, t', tp, l + 1, n - 1);
    }
  }

  lemma DescendTop(t0: seq<nat>, t: seq<nat>, tp: nat, i: nat, l: nat, e: nat, j: nat, j0: nat)
    requires Descending(t0, t, tp, i, l, e, j, j0) && i < tp
    ensures e > 0 && t[i] > 0 && 2 * i + 1 < |t|
  {
    if e == 0 { LeafIs(tp, i, l); }
  }

  lemma DescendStep(t0: seq<nat>, t: seq<nat>, t': seq<nat>, tp: nat, i: nat, l: nat, e: nat, j: nat, j0: nat)
    requires Descending(t0, t, tp, i, l, e, j, j0) && i < tp && e > 0 && t' == t[i := t[i] - 1]
    ensures 2 * i + 1 < |t'|
    ensures j < t'[2 * i] ==> Descending(t0, t', tp, 2 * i, l, e - 1, j, j0)
    ensures j >= t'[2 * i] ==> Descending(t0, t', tp, 2 * i + 1, l + Two(e - 1), e - 1, j - t'[2 * i], j0)
  {
    TakenDown(t, t', tp, i);
    Halves(tp, i, l, e);
    assert Node(t, i, 0, i / 2);
    assert (2 * i + 1) / 2 == i && 2 * i / 2 == i;
    CountIs(t, tp, 1, 0, i / 2, 2 * i, l, e - 1);
    SameCount(t, t0, tp, l, Two(e - 1));
    CountSplit(t0, tp, 0, l + Two(e - 1), l);
  }

  lemma DescendEnd(t0: seq<nat>, t: seq<nat>, tp: nat, i: nat, l: nat, e: nat, j: nat, j0: nat)
    requires Descending(t0, t, tp, i, l, e, j, j0) && i >= tp
    ensures i == tp + l && j == 0 && t[i] == 1 && Leaf(t0, tp, l) == 1 && Count(t0, tp, 0, l) == j0
  {
    if e > 0 { Halves(tp, i, l, e); }
    LeafIs(tp, i, l);
    assert t[tp..][l] == t0[tp..][l];
  }
}
