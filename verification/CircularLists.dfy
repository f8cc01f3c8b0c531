/** Doubly linked circular lists with heads, as mtproto/mtproto-proxy.c keeps them for every descriptor and for the
    LRU order.  Nodes are positive numbers, heads are not; a node that is in no list has no links (its pointers
    are NULL). */
module CircularLists {
  datatype Links = Links(next: map<int, int>, prev: map<int, int>)

  function Up(i: nat, n: nat): nat {
    if i + 1 < n then i + 1 else 0
  }

  predicate NoDup(c: seq<int>) {
    forall i, j :: 0 <= i < j < |c| ==> c[i] != c[j]
  }

  /** The i-th element of the circle c is linked to its successor, in both directions. */
  predicate Linked(l: Links, c: seq<int>, i: nat)
    requires i < |c|
  {
    var a, b := c[i], c[Up(i, |c|)];
    a in l.next && b in l.prev && l.next[a] == b && l.prev[b] == a
  }

  predicate Circle(l: Links, c: seq<int>) {
    NoDup(c) && forall i: nat :: i < |c| ==> Linked(l, c, i)
  }

  predicate Nodes(s: seq<int>) {
    forall i :: 0 <= i < |s| ==> s[i] > 0
  }

  predicate InSome(m: map<int, seq<int>>, x: int) {
    exists h :: h in m && x in m[h]
  }

  /** The links make up exactly the lists m: for each head its elements in order. */
  predicate Lists(l: Links, m: map<int, seq<int>>) {
    && (forall h :: h in m ==> h <= 0 && Nodes(m[h]) && Circle(l, [h] + m[h]))
    && (forall g, h, x :: g in m && h in m && x in m[g] && x in m[h] ==> g == h)
    && (forall x :: x in l.next ==> x in m || InSome(m, x))
    && l.prev.Keys == l.next.Keys
  }

  function Insert(l: Links, h: int, x: int): Links
    requires h in l.prev
  {
    var last := l.prev[h];
    Links(l.next[last := x][x := h], l.prev[h := x][x := last])
  }

  function Delete(l: Links, x: int): Links
    requires x in l.next && x in l.prev
  {
    var a, b := l.prev[x], l.next[x];
    var next, prev := l.next[a := b], l.prev[b := a];
    Links(map y | y in next && y != x :: next[y], map y | y in prev && y != x :: prev[y])
  }

  function NewHead(l: Links, h: int): Links {
    Links(l.next[h := h], l.prev[h := h])
  }

  function DropHead(l: Links, h: int): Links {
    Links(map y | y in l.next && y != h :: l.next[y], map y | y in l.prev && y != h :: l.prev[y])
  }

  function Without(s: seq<int>, x: int): seq<int> {
    if s == [] then [] else if s[0] == x then s[1..] else [s[0]] + Without(s[1..], x)
  }

  // ----- what is in a list -----

  lemma CircleIn(l: Links, m: map<int, seq<int>>, h: int, x: int)
    requires Lists(l, m) && h in m && (x == h || x in m[h])
    ensures x in l.next && x in l.prev
  {
    var c := [h] + m[h];
    assert x in c;
    var i: nat :| i < |c| && c[i] == x;
    assert Linked(l, c, i);
    var j: nat := if i == 0 then |c| - 1 else i - 1;
    assert Up(j, |c|) == i && Linked(l, c, j);
  }

  lemma InLinks(l: Links, m: map<int, seq<int>>, x: int)
    requires Lists(l, m) && x > 0
    ensures x in l.next <==> InSome(m, x)
  {
    if InSome(m, x) {
      var h :| h in m && x in m[h];
      CircleIn(l, m, h, x);
    }
  }

  /** A circle that an update does not touch. */
  lemma Untouched(l: Links, l': Links, c: seq<int>)
    requires Circle(l, c)
    requires forall x :: x in c && x in l.next ==> x in l'.next && l'.next[x] == l.next[x]
    requires forall x :: x in c && x in l.prev ==> x in l'.prev && l'.prev[x] == l.prev[x]
    ensures Circle(l', c)
  {
    forall i: nat | i < |c| ensures Linked(l', c, i) {
      assert Linked(l, c, i);
      assert c[i] in c && c[Up(i, |c|)] in c;
    }
  }

  /** The links of a head or element stay within its circle. */
  lemma Within(l: Links, m: map<int, seq<int>>, h: int, x: int)
    requires Lists(l, m) && h in m && x in [h] + m[h]
    ensures x in l.next && x in l.prev && l.next[x] in [h] + m[h] && l.prev[x] in [h] + m[h]
  {
    var c := [h] + m[h];
    var i: nat :| i < |c| && c[i] == x;
    assert Linked(l, c, i);
    var j: nat := if i == 0 then |c| - 1 else i - 1;
    assert Up(j, |c|) == i && Linked(l, c, j);
  }

  lemma Apart(l: Links, m: map<int, seq<int>>, g: int, h: int)
    requires Lists(l, m) && g in m && h in m && g != h
    ensures forall x :: x in [g] + m[g] ==> x !in [h] + m[h]
  {
    Positive(m[g]);
    Positive(m[h]);
  }

  lemma Positive(s: seq<int>)
    requires Nodes(s)
    ensures forall x :: x in s ==> x > 0
  {
  }

  // ----- insertion at the end -----

  lemma InsertCircle(l: Links, h: int, s: seq<int>, x: int)
    requires Circle(l, [h] + s) && x !in [h] + s
    ensures h in l.prev && l.prev[h] in [h] + s && Circle(Insert(l, h, x), [h] + s + [x])
  {
    var c := [h] + s;
    var n := |c|;
    assert Linked(l, c, n - 1);
    var l', d := Insert(l, h, x), c + [x];
    forall i: nat | i < |d| ensures Linked(l', d, i) {
      if i < n - 1 {
        assert Linked(l, c, i);
        assert c[i] != c[n - 1] && c[i + 1] != c[0];
        assert c[i] in c && c[i + 1] in c;
      }
    }
    forall i, j | 0 <= i < j < |d| ensures d[i] != d[j] {
      assert j == n ==> d[i] in c;
    }
  }

  lemma InsertOk(l: Links, m: map<int, seq<int>>, h: int, x: int)
    requires Lists(l, m) && h in m && x > 0 && x !in l.next
    ensures h in l.prev && Lists(Insert(l, h, x), m[h := m[h] + [x]])
  {
    var c := [h] + m[h];
    CircleIn(l, m, h, h);
    assert x !in c by { if x in m[h] { CircleIn(l, m, h, x); } }
    InsertCircle(l, h, m[h], x);
    var l', m' := Insert(l, h, x), m[h := m[h] + [x]];
    assert [h] + (m[h] + [x]) == c + [x];
    Within(l, m, h, h);
    forall g | g in m' ensures g <= 0 && Nodes(m'[g]) && Circle(l', [g] + m'[g]) {
      if g != h {
        Apart(l, m, g, h);
        forall y | y in [g] + m[g] ensures y != x {
          if y == x { CircleIn(l, m, g, x); }
        }
        Untouched(l, l', [g] + m[g]);
      }
    }
    InsertRest(l, m, h, x);
  }

  lemma InsertRest(l: Links, m: map<int, seq<int>>, h: int, x: int)
    requires Lists(l, m) && h in m && x > 0 && x !in l.next && h in l.prev && l.prev[h] in [h] + m[h]
    ensures var l', m' := Insert(l, h, x), m[h := m[h] + [x]];
            && (forall f, g, y :: f in m' && g in m' && y in m'[f] && y in m'[g] ==> f == g)
            && (forall y :: y in l'.next ==> y in m' || InSome(m', y))
            && l'.prev.Keys == l'.next.Keys
  {
    var l', m' := Insert(l, h, x), m[h := m[h] + [x]];
    forall f, g, y | f in m' && g in m' && y in m'[f] && y in m'[g] ensures f == g {
      if y == x {
        if f != h { CircleIn(l, m, f, x); }
        if g != h { CircleIn(l, m, g, x); }
      }
    }
    CircleIn(l, m, h, l.prev[h]);
    CircleIn(l, m, h, h);
    forall y | y in l'.next ensures y in m' || InSome(m', y) {
      if y == x {
        assert x in m'[h];
      } else if y !in m {
        var g :| g in m && y in m[g];
        assert y in m'[g];
      }
    }
  }

  // ----- deletion -----

  lemma {:induction false} WithoutIs(s: seq<int>, x: int, k: nat)
    requires k < |s| && s[k] == x && NoDup(s)
    ensures Without(s, x) == s[..k] + s[k + 1..]
  {
    if k > 0 {
      WithoutIs(s[1..], x, k - 1);
      assert s[..k] == [s[0]] + s[1..][..k - 1];
    }
  }

  lemma {:induction false} WithoutSame(s: seq<int>, x: int)
    requires x !in s
    ensures Without(s, x) == s
  {
    if s != [] { WithoutSame(s[1..], x); }
  }

  lemma {:induction false} WithoutHas(s: seq<int>, x: int)
    requires NoDup(s)
    ensures forall y :: y in Without(s, x) <==> y in s && y != x
    ensures NoDup(Without(s, x)) && (Nodes(s) ==> Nodes(Without(s, x)))
  {
    if x in s {
      var k: nat :| k < |s| && s[k] == x;
      WithoutIs(s, x, k);
      var r := s[..k] + s[k + 1..];
      forall y | y in s && y != x ensures y in r {
        var i :| 0 <= i < |s| && s[i] == y;
        assert r[if i < k then i else i - 1] == y;
      }
    } else {
      WithoutSame(s, x);
    }
  }

  lemma DeleteCircle(l: Links, h: int, s: seq<int>, k: nat)
    requires k < |s| && Circle(l, [h] + s)
    ensures s[k] in l.next && s[k] in l.prev && l.prev[s[k]] in [h] + s && l.next[s[k]] in [h] + s
    ensures Circle(Delete(l, s[k]), [h] + (s[..k] + s[k + 1..]))
  {
    var c := [h] + s;
    var n, x := |c|, s[k];
    assert Linked(l, c, k) && Linked(l, c, k + 1) && c[k + 1] == x;
    var d, l' := [h] + (s[..k] + s[k + 1..]), Delete(l, x);
    assert forall i :: 0 <= i < |d| ==> d[i] == if i <= k then c[i] else c[i + 1];
    forall i, j | 0 <= i < j < |d| ensures d[i] != d[j] {
      var i', j' := if i <= k then i else i + 1, if j <= k then j else j + 1;
      assert c[i'] != c[j'];
    }
    assert Up(k, n) == k + 1 && l.prev[x] == c[k];
    forall i: nat | i < |d| ensures Linked(l', d, i) {
      var j: nat := if i <= k then i else i + 1;
      assert Linked(l, c, j);
      assert c[j] != x && d[i] == c[j];
      if i == k {
        assert l.next[c[k]] == x;
      } else {
        assert d[Up(i, |d|)] == c[Up(j, n)];
      }
    }
  }

  lemma DeleteOk(l: Links, m: map<int, seq<int>>, h: int, x: int)
    requires Lists(l, m) && h in m && x in m[h]
    ensures x in l.next && x in l.prev && x !in Delete(l, x).next
    ensures Lists(Delete(l, x), m[h := Without(m[h], x)])
  {
    var k: nat :| k < |m[h]| && m[h][k] == x;
    var s := m[h];
    assert NoDup(s) by { assert forall i, j :: 0 <= i < j < |s| ==> s[i] == ([h] + s)[i + 1] && s[j] == ([h] + s)[j + 1]; }
    WithoutIs(s, x, k);
    WithoutHas(s, x);
    DeleteCircle(l, h, s, k);
    var l', m' := Delete(l, x), m[h := Without(s, x)];
    forall g | g in m' ensures g <= 0 && Nodes(m'[g]) && Circle(l', [g] + m'[g]) {
      if g != h {
        Apart(l, m, g, h);
        Untouched(l, l', [g] + m[g]);
      }
    }
    DeleteRest(l, m, h, x);
  }

  lemma DeleteRest(l: Links, m: map<int, seq<int>>, h: int, x: int)
    requires Lists(l, m) && h in m && x in m[h] && x in l.next && x in l.prev
    requires l.prev[x] in [h] + m[h] && l.next[x] in [h] + m[h]
    requires forall y :: y in Without(m[h], x) <==> y in m[h] && y != x
    ensures var l', m' := Delete(l, x), m[h := Without(m[h], x)];
            && (forall f, g, y :: f in m' && g in m' && y in m'[f] && y in m'[g] ==> f == g)
            && (forall y :: y in l'.next ==> y in m' || InSome(m', y))
            && l'.prev.Keys == l'.next.Keys
  {
    var l', m' := Delete(l, x), m[h := Without(m[h], x)];
    CircleIn(l, m, h, l.prev[x]);
    CircleIn(l, m, h, l.next[x]);
    forall y | y in l'.next ensures y in m' || InSome(m', y) {
      if y !in m {
        var g :| g in m && y in m[g];
        assert y in m'[g];
      }
    }
  }

  // ----- heads -----

  lemma NewHeadOk(l: Links, m: map<int, seq<int>>, h: int)
    requires Lists(l, m) && h <= 0 && h !in m
    ensures h !in l.next && Lists(NewHead(l, h), m[h := []])
  {
    var l', m' := NewHead(l, h), m[h := []];
    assert h !in l.next by {
      forall g | g in m ensures h !in m[g] {
        Positive(m[g]);
      }
    }
    forall g | g in m' ensures g <= 0 && Nodes(m'[g]) && Circle(l', [g] + m'[g]) {
      if g != h {
        Positive(m[g]);
        Untouched(l, l', [g] + m[g]);
      }
    }
    forall y | y in l'.next ensures y in m' || InSome(m', y) {
      if y !in m' {
        var g :| g in m && y in m[g];
        assert y in m'[g];
      }
    }
  }

  lemma DropHeadOk(l: Links, m: map<int, seq<int>>, h: int)
    requires Lists(l, m) && h in m && m[h] == []
    ensures Lists(DropHead(l, h), map g | g in m && g != h :: m[g])
  {
    var l', m' := DropHead(l, h), map g | g in m && g != h :: m[g];
    forall g | g in m' ensures g <= 0 && Nodes(m'[g]) && Circle(l', [g] + m'[g]) {
      Positive(m[g]);
      Untouched(l, l', [g] + m[g]);
    }
    forall y | y in l'.next ensures y in m' || InSome(m', y) {
      if y !in m {
        var g :| g in m && y in m[g];
        assert y in m'[g];
      }
    }
  }
}
