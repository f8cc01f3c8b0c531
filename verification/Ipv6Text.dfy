/** IPv6 addresses as text (section 2.2 of RFC 4291): the printer conv_ipv6_internal of net/net-events.c and the
    parser parse_text_ipv6 of mtproto/mtproto-proxy.c.

    An address is the sequence of its eight groups, that is ntohs of the array elements; a group is the two bytes
    g / 256 and g % 256.  Strings do not contain the character 0, which ends them in C. */
module Ipv6Text {
  import opened Sequences

  datatype Option<T> = None | Some(value: T)

  type Group = g: int | 0 <= g < 65536

  predicate Address(a: seq<Group>) {
    |a| == 8
  }

  // ----- printing -----

  /** sprintf ("%x") of one digit. */
  function HexDigit(v: int): char
    requires 0 <= v < 16
  {
    "0123456789abcdef"[v]
  }

  /** sprintf ("%x"). */
  function Hex(v: nat): (r: string)
    ensures r != []
  {
    if v < 16 then [HexDigit(v)] else Hex(v / 16) + [HexDigit(v % 16)]
  }

  /** sprintf ("%d") of a byte or a group. */
  function Dec(v: nat): (r: string)
    ensures r != []
  {
    if v < 10 then [HexDigit(v)] else Dec(v / 10) + [HexDigit(v % 10)]
  }

  /** The state of the loop that looks for the longest run of zeros: j zeros precede group i; the longest run that
      has ended so far has l groups and ends before group k. */
  datatype Scan = Scan(j: nat, k: nat, l: nat)

  function ScanStep(s: Scan, i: nat, g: Group): Scan {
    if g == 0 then s.(j := s.j + 1)
    else if s.j > s.l then Scan(0, i, s.j)
    else s.(j := 0)
  }

  function ScanUp(a: seq<Group>, n: nat): Scan
    requires n <= |a|
  {
    if n == 0 then Scan(0, 0, 0) else ScanStep(ScanUp(a, n - 1), n - 1, a[n - 1])
  }

  /** Groups from i up to m, each with a colon behind it. */
  function Heads(a: seq<Group>, i: nat, m: nat): string
    requires i <= m <= |a|
    decreases m - i
  {
    if i == m then [] else Hex(a[i]) + ":" + Heads(a, i + 1, m)
  }

  /** Groups from i on, each with a colon before it. */
  function Tails(a: seq<Group>, i: nat): string
    requires i <= |a|
    decreases |a| - i
  {
    if i == |a| then [] else ":" + Hex(a[i]) + Tails(a, i + 1)
  }

  function Dotted(x: Group, y: Group): string {
    Dec(x / 256) + "." + Dec(x % 256) + "." + Dec(y / 256) + "." + Dec(y % 256)
  }

  function Print(a: seq<Group>): string
    requires Address(a)
  {
    var s := ScanUp(a, 8);
    if s.j == 8 then "::"
    else if s.l == 5 && a[5] == 0xffff then "::ffff:" + Dotted(a[6], a[7])
    else if s.l > 0 && s.l <= s.k <= 8 then
      Heads(a, 0, s.k - s.l) + (if s.k == s.l || s.k == 8 then ":" else "") + Tails(a, s.k)
    else Heads(a, 0, 7) + Hex(a[7])
  }

  // ----- parsing -----

  predicate IsHex(c: char) {
    '0' <= c <= '9' || 'A' <= c <= 'F' || 'a' <= c <= 'f'
  }

  function HexValue(c: char): int
    requires IsHex(c)
  {
    if c <= '9' then c as int - '0' as int else if c <= 'F' then c as int - 'A' as int + 10 else c as int - 'a' as int + 10
  }

  datatype Digits = Digits(value: nat, count: nat, rest: string)

  /** The digits of one group; nothing if there are more than four. */
  function TakeDigits(s: string, v: nat, j: nat): Option<Digits>
    decreases |s|
  {
    if s != [] && IsHex(s[0]) then
      if j + 1 > 4 then None else TakeDigits(s[1..], 16 * v + HexValue(s[0]), j + 1)
    else Some(Digits(v, j, s))
  }

  function Zeros(n: nat): seq<int> {
    seq(n, i => 0)
  }

  /** The end of the loop: nothing may follow, and missing groups are zeros where the double colon was. */
  function End(s: string, k: int, gs: seq<int>): Option<seq<int>> {
    if s != [] then None
    else if |gs| < 8 && 0 <= k <= |gs| then Some(gs[..k] + Zeros(8 - |gs|) + gs[k..])
    else Some(gs)
  }

  predicate Colon(s: string) {
    s != [] && s[0] == ':'
  }

  /** The digits of group |gs|, and the rest of the loop. */
  function Component(s: string, k: int, gs: seq<int>): Option<seq<int>>
    requires |gs| < 8
    decreases 8 - |gs|, 0
  {
    match TakeDigits(s, 0, 0)
    case None => None
    case Some(d) =>
      if d.count == 0 then if k == |gs| then End(s, k, gs) else None
      else Loop(d.rest, k, gs + [d.value])
  }

  /** The loop of parse_text_ipv6 with the groups gs read, for the part s of the string not yet read. */
  function Loop(s: string, k: int, gs: seq<int>): Option<seq<int>>
    requires |gs| <= 8
    decreases 8 - |gs|, 1
  {
    if |gs| == 8 then End(s, k, gs)
    else if |gs| == 0 then Component(s, k, gs)
    else if !Colon(s) then if k >= 0 then End(s, k, gs) else None
    else if !Colon(s[1..]) then Component(s[1..], k, gs)
    else if k >= 0 then None
    else Component(s[2..], |gs|, gs)
  }

  function Parse(s: string): Option<seq<int>> {
    if Colon(s) && Colon(s[1..]) then Loop(s[2..], 0, []) else Loop(s, -1, [])
  }

  // ----- digits -----

  lemma HexDigitIs(v: int)
    requires 0 <= v < 16
    ensures IsHex(HexDigit(v)) && HexValue(HexDigit(v)) == v && HexDigit(v) != ':'
  {
  }

  lemma {:induction false} HexShort(v: nat, n: nat, limit: nat)
    requires n > 0 && v < limit && limit == Sixteen(n)
    ensures |Hex(v)| <= n
  {
    if v >= 16 { HexShort(v / 16, n - 1, Sixteen(n - 1)); }
  }

  function Sixteen(n: nat): nat {
    if n == 0 then 1 else 16 * Sixteen(n - 1)
  }

  lemma {:induction false} HexChars(v: nat)
    ensures forall i :: 0 <= i < |Hex(v)| ==> IsHex(Hex(v)[i])
  {
    if v >= 16 {
      HexChars(v / 16);
      HexDigitIs(v % 16);
    } else {
      HexDigitIs(v);
    }
  }

  lemma Front(c: char, s: string)
    ensures ([c] + s)[0] == c && ([c] + s)[1..] == s
  {
  }

  /** Reading back what was printed. */
  lemma {:induction false} ReadHex(v: nat, rest: string)
    requires |Hex(v)| <= 4
    ensures TakeDigits(Hex(v) + rest, 0, 0) == TakeDigits(rest, v, |Hex(v)|)
  {
    if v < 16 {
      HexDigitIs(v);
      Front(HexDigit(v), rest);
    } else {
      var d := [HexDigit(v % 16)];
      ReadHex(v / 16, d + rest);
      HexDigitIs(v % 16);
      Assoc(Hex(v / 16), d, rest);
      Front(HexDigit(v % 16), rest);
    }
  }

  lemma ReadGroup(g: Group, rest: string)
    requires rest != [] ==> !IsHex(rest[0])
    ensures TakeDigits(Hex(g) + rest, 0, 0) == Some(Digits(g, |Hex(g)|, rest)) && |Hex(g)| > 0
    ensures !Colon(Hex(g) + rest)
  {
    assert Sixteen(2) == 256;
    HexShort(g, 4, 65536);
    ReadHex(g, rest);
    HexChars(g);
    assert (Hex(g) + rest)[0] == Hex(g)[0];
  }

  // ----- the round trip -----

  /** One component behind a colon. */
  lemma ReadTail(g: Group, rest: string, k: int, gs: seq<int>)
    requires 0 < |gs| < 8 && (rest != [] ==> !IsHex(rest[0]))
    ensures Loop(":" + Hex(g) + rest, k, gs) == Loop(rest, k, gs + [g])
  {
    var s := ":" + Hex(g) + rest;
    assert s[1..] == Hex(g) + rest;
    ReadGroup(g, rest);
  }

  lemma TailsStart(a: seq<Group>, i: nat)
    requires i <= |a|
    ensures Tails(a, i) != [] ==> Tails(a, i)[0] == ':' && !IsHex(Tails(a, i)[0])
    ensures Tails(a, i) == [] <==> i == |a|
  {
  }

  lemma {:induction false} ReadTails(a: seq<Group>, i: nat, k: int, gs: seq<int>)
    requires i <= |a| && 0 < |gs| && |gs| + |a| - i <= 8
    ensures Loop(Tails(a, i), k, gs) == Loop("", k, gs + a[i..])
    decreases |a| - i
  {
    if i < |a| {
      TailsStart(a, i + 1);
      ReadTail(a[i], Tails(a, i + 1), k, gs);
      ReadTails(a, i + 1, k, gs + [a[i]]);
      assert gs + [a[i]] + a[i + 1..] == gs + a[i..];
    } else {
      assert gs + a[i..] == gs;
    }
  }

  /** Groups with a colon behind each, after the first one. */
  lemma {:induction false} ReadHeads(a: seq<Group>, i: nat, m: nat, gs: seq<int>, rest: string)
    requires i <= m <= |a| && 0 < |gs| && |gs| + m - i <= 8
    ensures Loop(":" + (Heads(a, i, m) + rest), -1, gs) == Loop(":" + rest, -1, gs + a[i..m])
    decreases m - i
  {
    if i < m {
      var later := ":" + (Heads(a, i + 1, m) + rest);
      HeadsStep(a, i, m, rest);
      Assoc(":", Hex(a[i]), later);
      Front(':', Heads(a, i + 1, m) + rest);
      ReadTail(a[i], later, -1, gs);
      ReadHeads(a, i + 1, m, gs + [a[i]], rest);
      assert gs + [a[i]] + a[i + 1..m] == gs + a[i..m];
    } else {
      assert gs + a[i..m] == gs && Heads(a, i, m) + rest == rest;
    }
  }

  lemma HeadsStep(a: seq<Group>, i: nat, m: nat, rest: string)
    requires i < m <= |a|
    ensures Heads(a, i, m) + rest == Hex(a[i]) + (":" + (Heads(a, i + 1, m) + rest))
  {
    Assoc(Hex(a[i]) + ":", Heads(a, i + 1, m), rest);
    Assoc(Hex(a[i]), ":", Heads(a, i + 1, m) + rest);
  }

  /** The first group of a string without leading colons. */
  lemma ReadFirst(g: Group, rest: string, k: int)
    requires rest != [] ==> !IsHex(rest[0])
    ensures Loop(Hex(g) + rest, k, []) == Loop(rest, k, [g])
  {
    ReadGroup(g, rest);
    assert [] + [g] == [g];
  }

  /** All groups before the double colon, or the last one. */
  lemma ReadAllHeads(a: seq<Group>, m: nat, rest: string)
    requires 0 < m <= |a| && m <= 8
    ensures Loop(Heads(a, 0, m) + rest, -1, []) == Loop(":" + rest, -1, a[..m])
    ensures !Colon(Heads(a, 0, m) + rest)
  {
    HeadsStep(a, 0, m, rest);
    FirstHead(a[0], Heads(a, 1, m) + rest);
    FirstAndRest(a, m, rest);
  }

  lemma FirstHead(g: Group, rest: string)
    ensures Loop(Hex(g) + (":" + rest), -1, []) == Loop(":" + rest, -1, [g]) && !Colon(Hex(g) + (":" + rest))
  {
    Front(':', rest);
    ReadGroup(g, ":" + rest);
    ReadFirst(g, ":" + rest, -1);
  }

  lemma FirstAndRest(a: seq<Group>, m: nat, rest: string)
    requires 0 < m <= |a| && m <= 8
    ensures Loop(":" + (Heads(a, 1, m) + rest), -1, [a[0]]) == Loop(":" + rest, -1, a[..m])
  {
    ReadHeads(a, 1, m, [a[0]], rest);
    assert [a[0]] + a[1..m] == a[..m];
  }

  /** What the search for zeros keeps. */
  lemma {:induction false} ScanIs(a: seq<Group>, n: nat)
    requires n <= |a|
    ensures var s := ScanUp(a, n);
            && s.j <= n && (forall x :: n - s.j <= x < n ==> a[x] == 0)
            && (s.l > 0 ==> s.l <= s.k < n && forall x :: s.k - s.l <= x < s.k ==> a[x] == 0)
            && (s.j == n || s.l <= s.k)
  {
    if n > 0 { ScanIs(a, n - 1); }
  }

  /** The groups behind a double colon, up to the end. */
  lemma ReadBehind(a: seq<Group>, k: nat, m: nat)
    requires Address(a) && m < k < 8 && forall x :: m <= x < k ==> a[x] == 0
    ensures m > 0 ==> Loop(":" + Tails(a, k), -1, a[..m]) == Some(a)
    ensures Colon(Tails(a, k)) && (m == 0 ==> Loop(Tails(a, k)[1..], 0, []) == Some(a))
  {
    var rest := Tails(a, k + 1);
    var body := Hex(a[k]) + rest;
    Assoc(":", Hex(a[k]), rest);
    assert Tails(a, k) == ":" + body;
    Front(':', body);
    Front(':', Tails(a, k));
    TailsStart(a, k + 1);
    ReadGroup(a[k], rest);
    var gs := a[..m] + [a[k]];
    BehindIs(a, k, m, gs);
    if m > 0 {
      assert (":" + Tails(a, k))[2..] == body by { assert (":" + Tails(a, k))[2..] == Tails(a, k)[1..]; }
    } else {
      assert [] + [a[k]] == gs;
    }
  }

  lemma Restored(a: seq<Group>, k: nat, m: nat)
    requires Address(a) && m < k < 8 && forall x :: m <= x < k ==> a[x] == 0
    ensures Loop("", m, a[..m] + a[k..]) == Some(a)
  {
    var gs := a[..m] + a[k..];
    assert gs[..m] + Zeros(8 - |gs|) + gs[m..] == a;
  }

  /** The addresses that are printed with a dotted quad. */
  predicate Mapped(a: seq<Group>)
    requires Address(a)
  {
    a[..5] == Zeros(5) && a[5] == 0xffff
  }

  lemma MappedIs(a: seq<Group>)
    requires Address(a)
    ensures var s := ScanUp(a, 8); (s.j != 8 && s.l == 5 && a[5] == 0xffff) <==> Mapped(a)
  {
    ScanIs(a, 8);
    var s := ScanUp(a, 8);
    if s.l == 5 && a[5] == 0xffff {
      assert s.k == 5;
      assert forall x :: 0 <= x < 5 ==> a[x] == 0;
      assert a[..5] == Zeros(5);
    }
    if Mapped(a) {
      forall x | 0 <= x < 5 ensures a[x] == 0 { assert a[..5][x] == Zeros(5)[x]; }
      FiveZeros(a);
    }
  }

  lemma FiveZeros(a: seq<Group>)
    requires Address(a) && a[5] == 0xffff && forall x :: 0 <= x < 5 ==> a[x] == 0
    ensures ScanUp(a, 8).l == 5 && ScanUp(a, 8).j < 8
  {
    assert ScanUp(a, 1) == Scan(1, 0, 0) && ScanUp(a, 2) == Scan(2, 0, 0) && ScanUp(a, 3) == Scan(3, 0, 0);
    assert ScanUp(a, 4) == Scan(4, 0, 0) && ScanUp(a, 5) == Scan(5, 0, 0) && ScanUp(a, 6) == Scan(0, 5, 5);
    assert ScanUp(a, 7).l == 5 && ScanUp(a, 7).j <= 1;
  }

  // ----- digits -----

  /** A capital letter counts as the small one. */
  lemma CaseBlind(c: char)
    requires 'a' <= c <= 'f'
    ensures IsHex(c - 32 as char) && HexValue(c - 32 as char) == HexValue(c) == 10 + (c as int - 'a' as int)
  {
  }

  /** A decimal number read digit by digit. */
  function ReadDec(s: string, v: int): int {
    if s == [] then v else ReadDec(s[1..], 10 * v + (s[0] as int - '0' as int))
  }

  lemma {:induction false} ReadDecLast(s: string, c: char, v: int)
    ensures ReadDec(s + [c], v) == 10 * ReadDec(s, v) + (c as int - '0' as int)
    decreases |s|
  {
    if s == [] {
      assert s + [c] == [c];
    } else {
      assert (s + [c])[1..] == s[1..] + [c];
      ReadDecLast(s[1..], c, 10 * v + (s[0] as int - '0' as int));
    }
  }

  lemma DecDigit(v: int)
    requires 0 <= v < 10
    ensures HexDigit(v) as int - '0' as int == v
  {
  }

  /** A decimal number reads as what was printed, and has no zero before it. */
  lemma {:induction false} DecIs(v: nat)
    ensures ReadDec(Dec(v), 0) == v && (v > 0 ==> Dec(v)[0] != '0')
    decreases v
  {
    if v < 10 {
      DecDigit(v);
      assert ReadDec([HexDigit(v)], 0) == ReadDec([], v);
    } else {
      DecIs(v / 10);
      DecDigit(v % 10);
      ReadDecLast(Dec(v / 10), HexDigit(v % 10), 0);
    }
  }

  // ----- which zeros are left out -----

  /** Groups from x up to y are zeros, and group y is not. */
  predicate ZeroRun(a: seq<Group>, x: int, y: int) {
    0 <= x <= y < |a| && a[y] != 0 && forall i :: x <= i < y ==> a[i] == 0
  }

  /** Of the runs of zeros that end before a group below n, that of the scan is the longest, and the first one of that
      length. */
  ghost predicate Longest(a: seq<Group>, n: nat, s: Scan) {
    && (s.l > 0 ==> s.l <= s.k < n && ZeroRun(a, s.k - s.l, s.k))
    && (forall x: nat, y: nat :: y < n && ZeroRun(a, x, y) ==> y - x <= s.l && (s.l > 0 && y < s.k ==> y - x < s.l))
  }

  lemma RunAtMost(a: seq<Group>, x: nat, y: nat, j: nat)
    requires ZeroRun(a, x, y) && j < y && a[y - 1 - j] != 0
    ensures y - x <= j
  {
  }

  lemma {:induction false} ScanLongest(a: seq<Group>, n: nat)
    requires n <= |a|
    ensures Longest(a, n, ScanUp(a, n)) && ScanUp(a, n).j <= n
    ensures forall x :: n - ScanUp(a, n).j <= x < n ==> a[x] == 0
    ensures ScanUp(a, n).j < n ==> a[n - 1 - ScanUp(a, n).j] != 0
  {
    if n > 0 {
      ScanLongest(a, n - 1);
      var s := ScanUp(a, n - 1);
      if a[n - 1] != 0 {
        forall x: nat, y: nat | y == n - 1 && ZeroRun(a, x, y) ensures y - x <= s.j {
          if s.j < n - 1 { RunAtMost(a, x, y, s.j); }
        }
      }
    }
  }

  function Colons(s: string): nat {
    if s == [] then 0 else (if s[0] == ':' then 1 else 0) + Colons(s[1..])
  }

  lemma {:induction false} ColonsAppend(s: string, t: string)
    ensures Colons(s + t) == Colons(s) + Colons(t)
  {
    if s == [] {
      assert s + t == t;
    } else {
      assert (s + t)[1..] == s[1..] + t;
      ColonsAppend(s[1..], t);
    }
  }

  lemma {:induction false} ColonsHex(v: nat)
    ensures Colons(Hex(v)) == 0
    decreases v
  {
    HexDigitIs(v % 16);
    assert Colons([HexDigit(v % 16)]) == Colons([]);
    if v >= 16 {
      ColonsHex(v / 16);
      ColonsAppend(Hex(v / 16), [HexDigit(v % 16)]);
    }
  }

  lemma {:induction false} ColonsHeads(a: seq<Group>, i: nat, m: nat)
    requires i <= m <= |a|
    ensures Colons(Heads(a, i, m)) == m - i
    decreases m - i
  {
    if i < m {
      ColonsHeads(a, i + 1, m);
      ColonsHex(a[i]);
      ColonsAppend(Hex(a[i]), ":");
      ColonsAppend(Hex(a[i]) + ":", Heads(a, i + 1, m));
      assert Colons(":") == 1 + Colons(":"[1..]);
    }
  }

  lemma {:induction false} ColonsTails(a: seq<Group>, i: nat)
    requires i <= |a|
    ensures Colons(Tails(a, i)) == |a| - i
    decreases |a| - i
  {
    if i < |a| {
      ColonsTails(a, i + 1);
      ColonsHex(a[i]);
      ColonsAppend(":", Hex(a[i]));
      ColonsAppend(":" + Hex(a[i]), Tails(a, i + 1));
      assert Colons(":") == 1 + Colons(":"[1..]);
    }
  }

  /** Exactly the groups outside of the longest run are written, each with one colon, but for a colon more if the text
      starts with the run and one less if there is no run. */
  lemma LongestLeftOut(a: seq<Group>)
    requires Address(a) && !Mapped(a) && exists i :: 0 <= i < 8 && a[i] != 0
    ensures var s := ScanUp(a, 8);
            Longest(a, 8, s) && Colons(Print(a)) == if s.l == 0 then 7 else 8 - s.l + if s.k == s.l then 1 else 0
  {
    var s := ScanUp(a, 8);
    ScanLongest(a, 8);
    MappedIs(a);
    if s.l == 0 {
      ColonsHeads(a, 0, 7);
      ColonsHex(a[7]);
      ColonsAppend(Heads(a, 0, 7), Hex(a[7]));
    } else {
      var lead := if s.k == s.l then ":" else "";
      ColonsHeads(a, 0, s.k - s.l);
      ColonsTails(a, s.k);
      ColonsAppend(Heads(a, 0, s.k - s.l), lead);
      ColonsAppend(Heads(a, 0, s.k - s.l) + lead, Tails(a, s.k));
      assert Colons(":") == 1 + Colons(":"[1..]);
    }
  }

  /** A dotted quad read number by number. */
  function ReadQuad(s: string, v: int): seq<int> {
    if s == [] then [v]
    else if s[0] == '.' then [v] + ReadQuad(s[1..], 0)
    else ReadQuad(s[1..], 10 * v + (s[0] as int - '0' as int))
  }

  lemma {:induction false} ReadQuadNumber(s: string, t: string, v: int)
    requires '.' !in s
    ensures ReadQuad(s + t, v) == ReadQuad(t, ReadDec(s, v))
    decreases |s|
  {
    if s == [] {
      assert s + t == t;
    } else {
      assert (s + t)[0] == s[0] && (s + t)[1..] == s[1..] + t;
      ReadQuadNumber(s[1..], t, 10 * v + (s[0] as int - '0' as int));
    }
  }

  lemma {:induction false} DecNoDot(v: nat)
    ensures '.' !in Dec(v)
    decreases v
  {
    DecDigit(v % 10);
    if v >= 10 { DecNoDot(v / 10); }
  }

  lemma QuadNumber(v: nat, rest: string)
    ensures ReadQuad(Dec(v) + ("." + rest), 0) == [v] + ReadQuad(rest, 0)
  {
    DecNoDot(v);
    DecIs(v);
    ReadQuadNumber(Dec(v), "." + rest, 0);
    assert ("." + rest)[1..] == rest;
  }

  /** The dotted form shows the last four bytes of the address, in order. */
  lemma DottedIs(x: Group, y: Group)
    ensures ReadQuad(Dotted(x, y), 0) == [x / 256, x % 256, y / 256, y % 256]
  {
    var d := Dec(y % 256);
    var c := Dec(y / 256) + ("." + d);
    var b := Dec(x % 256) + ("." + c);
    assert Dotted(x, y) == Dec(x / 256) + ("." + b);
    QuadNumber(x / 256, b);
    QuadNumber(x % 256, c);
    QuadNumber(y / 256, d);
    DecNoDot(y % 256);
    DecIs(y % 256);
    assert d + "" == d;
    ReadQuadNumber(d, "", 0);
  }

  // ----- the dotted quad is not accepted -----

  lemma DecDigits(v: nat)
    requires v < 1000
    ensures |Dec(v)| <= 3 && forall i :: 0 <= i < |Dec(v)| ==> IsHex(Dec(v)[i])
  {
    if v >= 10 {
      HexDigitIs(v % 10);
      if v / 10 >= 10 {
        HexDigitIs(v / 10 % 10);
        HexDigitIs(v / 10 / 10);
        assert Dec(v / 10) == Dec(v / 10 / 10) + [HexDigit(v / 10 % 10)];
      } else {
        HexDigitIs(v / 10);
      }
    } else {
      HexDigitIs(v);
    }
  }

  lemma {:induction false} SomeDigits(s: string, rest: string, v: nat, j: nat)
    requires j + |s| <= 4 && (forall i :: 0 <= i < |s| ==> IsHex(s[i])) && rest != [] && !IsHex(rest[0])
    ensures TakeDigits(s + rest, v, j).Some?
    ensures var d := TakeDigits(s + rest, v, j).value; d.count == j + |s| && d.rest == rest
    decreases |s|
  {
    if s == [] {
      assert s + rest == rest;
    } else {
      assert s + rest == [s[0]] + (s[1..] + rest);
      Front(s[0], s[1..] + rest);
      SomeDigits(s[1..], rest, 16 * v + HexValue(s[0]), j + 1);
    }
  }

  lemma HexFfff()
    ensures Hex(0xffff) == "ffff"
  {
    assert Hex(0xf) == "f" && Hex(0xff) == "ff" && Hex(0xfff) == "fff";
  }

  function DottedTail(x: Group, y: Group): string {
    Dec(x % 256) + "." + Dec(y / 256) + "." + Dec(y % 256)
  }

  lemma DottedStarts(x: Group, y: Group)
    ensures Dotted(x, y) == Dec(x / 256) + ("." + DottedTail(x, y)) && !Colon(Dotted(x, y))
    ensures var s := "::ffff:" + Dotted(x, y);
            Colon(s) && Colon(s[1..]) && s[2..] == Hex(0xffff) + (":" + Dotted(x, y))
  {
    HexFfff();
    DecDigits(x / 256);
    FourParts(Dec(x / 256), Dec(x % 256), Dec(y / 256), Dec(y % 256));
    MappedPrefix(Dotted(x, y));
  }

  lemma FourParts(a: string, b: string, c: string, d: string)
    requires a != []
    ensures a + "." + b + "." + c + "." + d == a + ("." + (b + "." + c + "." + d))
    ensures (a + "." + b + "." + c + "." + d)[0] == a[0]
  {
  }

  lemma MappedPrefix(text: string)
    ensures var s := "::ffff:" + text; Colon(s) && Colon(s[1..]) && s[2..] == "ffff" + (":" + text)
  {
  }

  lemma DottedFails(x: Group, y: Group)
    ensures Parse("::ffff:" + Dotted(x, y)) == None
  {
    var text := Dotted(x, y);
    var tail := DottedTail(x, y);
    DottedStarts(x, y);
    Front(':', text);
    ReadFirst(0xffff, ":" + text, 0);
    DecDigits(x / 256);
    Front('.', tail);
    SomeDigits(Dec(x / 256), "." + tail, 0, 0);
    DotEnds("." + tail, 0, [0xffff], TakeDigits(text, 0, 0).value);
  }

  lemma DotEnds(rest: string, k: int, gs: seq<int>, d: Digits)
    requires rest != [] && rest[0] == '.' && k >= 0 && 0 < |gs| < 7 && d.rest == rest && d.count > 0
    ensures Loop(d.rest, k, gs + [d.value]) == None
  {
  }

  lemma AllZeros(a: seq<Group>)
    requires Address(a) && ScanUp(a, 8).j == 8
    ensures Parse(Print(a)) == Some(a) && !Mapped(a)
  {
    ScanIs(a, 8);
    assert Zeros(8) == a && [] + Zeros(8) + [] == Zeros(8);
    MappedIs(a);
  }

  /** Printing and parsing an address gives it back, whichever zeros were left out; only the form with a dotted
      quad, for the addresses ::ffff:0:0/96, is not accepted. */
  lemma RoundTrip(a: seq<Group>)
    requires Address(a)
    ensures Parse(Print(a)) == if Mapped(a) then None else Some(a)
  {
    var s := ScanUp(a, 8);
    ScanIs(a, 8);
    MappedIs(a);
    if s.j == 8 {
      AllZeros(a);
    } else if s.l == 5 && a[5] == 0xffff {
      DottedFails(a[6], a[7]);
    } else if s.l > 0 {
      Compressed(a, s.k, s.k - s.l);
    } else {
      Plain(a);
    }
  }

  lemma Plain(a: seq<Group>)
    requires Address(a)
    ensures Parse(Heads(a, 0, 7) + Hex(a[7])) == Some(a)
  {
    ReadAllHeads(a, 7, Hex(a[7]));
    LastGroup(a);
  }

  lemma LastGroup(a: seq<Group>)
    requires Address(a)
    ensures Loop(":" + Hex(a[7]), -1, a[..7]) == Some(a)
  {
    assert ":" + Hex(a[7]) + [] == ":" + Hex(a[7]);
    ReadTail(a[7], [], -1, a[..7]);
    assert a[..7] + [a[7]] == a;
  }

  lemma BehindIs(a: seq<Group>, k: nat, m: nat, gs: seq<int>)
    requires Address(a) && m < k < 8 && (forall x :: m <= x < k ==> a[x] == 0) && gs == a[..m] + [a[k]]
    ensures Loop(Tails(a, k + 1), m, gs) == Some(a)
  {
    ReadTails(a, k + 1, m, gs);
    assert gs + a[k + 1..] == a[..m] + a[k..];
    Restored(a, k, m);
  }

  lemma Compressed(a: seq<Group>, k: nat, m: nat)
    requires Address(a) && m < k < 8 && forall x :: m <= x < k ==> a[x] == 0
    ensures Parse(Heads(a, 0, m) + (if m == 0 then ":" else "") + Tails(a, k)) == Some(a)
  {
    ReadBehind(a, k, m);
    if m == 0 {
      Front(':', Tails(a, k));
      assert Heads(a, 0, 0) + ":" + Tails(a, k) == ":" + Tails(a, k);
      assert (":" + Tails(a, k))[2..] == Tails(a, k)[1..];
    } else {
      assert Heads(a, 0, m) + "" + Tails(a, k) == Heads(a, 0, m) + Tails(a, k);
      ReadAllHeads(a, m, Tails(a, k));
    }
  }

  // ----- the printer in place -----

  /** conv_ipv6_internal; the length it returns is that of the text. */
  method ConvIpv6(a: seq<Group>) returns (buf: string)
    requires Address(a)
    ensures buf == Print(a)
  {
    var i, j, k, l := 0, 0, 0, 0;
    while i < 8
      invariant 0 <= i <= 8 && ScanUp(a, i) == Scan(j, k, l)
    {
      if a[i] != 0 {
        if j > l {
          l, k := j, i;
        }
        j := 0;
      } else {
        j := j + 1;
      }
      i := i + 1;
    }
    ScanIs(a, 8);
    if j == 8 {
      return "::";
    }
    if l == 5 && a[5] == 0xffff {
      return "::ffff:" + (Dec(a[6] / 256) + "." + Dec(a[6] % 256) + "." + Dec(a[7] / 256) + "." + Dec(a[7] % 256));
    }
    if l != 0 {
      buf, i := PrintHeads(a, k - l);
      if i == 0 || k == 8 {
        buf := buf + ":";
      }
      assert buf == Heads(a, 0, k - l) + if k == l || k == 8 then ":" else "";
      i := k;
      ghost var start := buf;
      while i < 8
        invariant k <= i <= 8 && buf + Tails(a, i) == start + Tails(a, k)
      {
        Assoc(buf, ":" + Hex(a[i]), Tails(a, i + 1));
        buf := buf + (":" + Hex(a[i]));
        i := i + 1;
      }
    } else {
      buf, i := PrintHeads(a, 7);
      buf := buf + Hex(a[i]);
    }
  }

  /** for (i = 0; i < m; i++) sprintf ("%x:"). */
  method PrintHeads(a: seq<Group>, m: nat) returns (buf: string, i: nat)
    requires m <= |a|
    ensures i == m && buf == Heads(a, 0, m)
  {
    buf, i := "", 0;
    while i < m
      invariant 0 <= i <= m && buf + Heads(a, i, m) == Heads(a, 0, m)
    {
      Assoc(buf, Hex(a[i]) + ":", Heads(a, i + 1, m));
      buf := buf + (Hex(a[i]) + ":");
      i := i + 1;
    }
  }

  // ----- the parser in place -----

  /** *ptr. */
  function CharAt(s: string, p: nat): char {
    if p < |s| then s[p] else '\0'
  }

  /** The 16 bytes of eight groups. */
  predicate BytesOf(ip: seq<int>, gs: seq<int>) {
    |ip| == 16 && |gs| <= 8 && forall x :: 0 <= x < |gs| ==> 0 <= gs[x] && ip[2 * x] == gs[x] / 256 && ip[2 * x + 1] == gs[x] % 256
  }

  /** The digits of one component; p stays behind them. */
  method ReadDigits(str: string, p0: nat) returns (ok: bool, v: nat, j: nat, p: nat)
    requires p0 <= |str|
    ensures ok <==> TakeDigits(str[p0..], 0, 0).Some?
    ensures ok ==> p <= |str| && TakeDigits(str[p0..], 0, 0) == Some(Digits(v, j, str[p..])) && (j == 0 ==> p == p0)
  {
    v, j, p := 0, 0, p0;
    while p < |str| && IsHex(str[p])
      invariant p <= |str| && p == p0 + j && TakeDigits(str[p..], v, j) == TakeDigits(str[p0..], 0, 0)
      decreases |str| - p
    {
      assert str[p..][1..] == str[p + 1..];
      v, j := 16 * v + HexValue(str[p]), j + 1;
      if j > 4 {
        return false, v, j, p;
      }
      p := p + 1;
    }
    ok := true;
  }

  /** memmove and memset: the groups from k on go to the end, and zeros between. */
  method SpreadGap(ip: array<int>, k: nat, i: nat, ghost gs: seq<int>)
    requires ip.Length == 16 && k <= i < 8 && |gs| == i && BytesOf(ip[..], gs)
    modifies ip
    ensures BytesOf(ip[..], gs[..k] + Zeros(8 - i) + gs[k..])
  {
    var gap := 2 * (8 - i);
    ghost var before := ip[..];
    MoveUp(ip, k, i);
    var t := 0;
    while t < gap
      invariant 0 <= t <= gap
      invariant forall x :: 0 <= x < 2 * k ==> ip[x] == before[x]
      invariant forall x :: 2 * k <= x < 2 * k + t ==> ip[x] == 0
      invariant forall x :: 2 * k + gap <= x < 16 ==> ip[x] == before[x - gap]
    {
      ip[2 * k + t] := 0;
      t := t + 1;
    }
    Spread(before, ip[..], k, i, gs);
  }

  lemma Spread(before: seq<int>, now: seq<int>, k: nat, i: nat, gs: seq<int>)
    requires |before| == |now| == 16 && k <= i < 8 && |gs| == i && BytesOf(before, gs)
    requires forall x :: 0 <= x < 2 * k ==> now[x] == before[x]
    requires forall x :: 2 * k <= x < 2 * k + 2 * (8 - i) ==> now[x] == 0
    requires forall x :: 2 * k + 2 * (8 - i) <= x < 16 ==> now[x] == before[x - 2 * (8 - i)]
    ensures BytesOf(now, gs[..k] + Zeros(8 - i) + gs[k..])
  {
    var all := gs[..k] + Zeros(8 - i) + gs[k..];
    forall x | 0 <= x < 8 ensures 0 <= all[x] && now[2 * x] == all[x] / 256 && now[2 * x + 1] == all[x] % 256 {
      if x >= k + 8 - i { assert all[x] == gs[x - (8 - i)]; }
    }
  }

  /** memmove: the groups from k on go to the end. */
  method MoveUp(ip: array<int>, k: nat, i: nat)
    requires ip.Length == 16 && k <= i < 8
    modifies ip
    ensures forall x :: 0 <= x < 2 * k ==> ip[x] == old(ip[x])
    ensures forall x :: 2 * k + 2 * (8 - i) <= x < 16 ==> ip[x] == old(ip[x - 2 * (8 - i)])
  {
    var gap := 2 * (8 - i);
    ghost var before := ip[..];
    var t := 2 * (i - k);
    while t > 0
      invariant 0 <= t <= 2 * (i - k)
      invariant forall x :: 0 <= x < 2 * k + t ==> ip[x] == before[x]
      invariant forall x :: 2 * k + gap + t <= x < 16 ==> ip[x] == before[x - gap]
    {
      t := t - 1;
      ip[2 * k + gap + t] := ip[2 * k + t];
    }
  }

  lemma Stored(ip: seq<int>, gs: seq<int>, v: int)
    requires BytesOf(ip, gs) && |gs| < 8 && v >= 0
    ensures BytesOf(ip[2 * |gs| := v / 256][2 * |gs| + 1 := v % 256], gs + [v])
  {
  }

  /** What stands before the digits of group |gs|: nothing, one colon, or the one "::" of the string. */
  method Separator(str: string, p0: nat, k0: int, i: nat, ghost gs: seq<int>) returns (twice: bool, p: nat, k: int)
    requires p0 <= |str| && '\0' !in str && i == |gs| < 8 && -1 <= k0 <= i && (i > 0 ==> CharAt(str, p0) == ':')
    ensures p <= |str| && -1 <= k <= |gs|
    ensures Loop(str[p0..], k0, gs) == if twice then None else Component(str[p..], k, gs)
  {
    twice, p, k := false, p0, k0;
    if i > 0 {
      p := p + 1;
      assert str[p - 1..][1..] == str[p..];
      if CharAt(str, p) == ':' {
        if k >= 0 {
          twice := true;
          return;
        }
        k, p := i, p + 1;
        assert str[p - 2..][2..] == str[p..];
      }
    }
  }

  /** Behind the loop: nothing may be left of the string, and groups left out are filled in. */
  method Finish(ip: array<int>, str: string, p: nat, k: int, i: nat, ghost gs: seq<int>, ghost result: Option<seq<int>>)
    returns (r: int)
    requires ip.Length == 16 && '\0' !in str && p <= |str| && |gs| == i <= 8 && -1 <= k <= i && BytesOf(ip[..], gs)
    requires (i < 8 ==> 0 <= k) && End(str[p..], k, gs) == result
    modifies ip
    ensures r == if result.Some? then |str| else -1
    ensures result.Some? ==> |result.value| == 8 && BytesOf(ip[..], result.value)
  {
    if CharAt(str, p) != '\0' {
      return -1;
    }
    if i < 8 {
      SpreadGap(ip, k, i, gs);
    }
    return p;
  }

  /** parse_text_ipv6: the length of the text, with the address in ip, or -1. */
  method ParseTextIpv6(ip: array<int>, str: string) returns (r: int)
    requires ip.Length == 16 && '\0' !in str
    modifies ip
    ensures r == if Parse(str).Some? then |str| else -1
    ensures Parse(str).Some? ==> |Parse(str).value| == 8 && BytesOf(ip[..], Parse(str).value)
  {
    var p: nat, k, i := 0, -1, 0;
    ghost var gs: seq<int> := [];
    if CharAt(str, 0) == ':' && CharAt(str, 1) == ':' {
      k, p := 0, 2;
    }
    assert str[0..] == str;
    var more := true;
    while i < 8 && more
      invariant 0 <= i <= 8 && |gs| == i && p <= |str| && -1 <= k <= i && BytesOf(ip[..], gs)
      invariant more ==> Loop(str[p..], k, gs) == Parse(str)
      invariant !more ==> i < 8 && 0 <= k && End(str[p..], k, gs) == Parse(str)
      decreases 8 - i, more
    {
      if i > 0 && CharAt(str, p) != ':' {
        if k < 0 {
          return -1;
        }
        more := false;
      } else {
        var twice;
        twice, p, k := Separator(str, p, k, i, gs);
        if twice {
          return -1;
        }
        var ok, v, j, q := ReadDigits(str, p);
        if !ok {
          return -1;
        }
        p := q;
        if j == 0 {
          if k != i {
            return -1;
          }
          more := false;
        } else {
          Stored(ip[..], gs, v);
          ip[2 * i], ip[2 * i + 1] := v / 256, v % 256;
          gs, i := gs + [v], i + 1;
        }
      }
    }
    r := Finish(ip, str, p, k, i, gs, Parse(str));
  }
}
