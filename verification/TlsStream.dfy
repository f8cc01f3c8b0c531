/** The counter-mode streams of net/net-tcp-connections.c: plaintext is encrypted by a keystream that runs on
    from call to call, and on TLS-shaped connections framed into records of at most 1425 bytes with a header of
    five bytes (section 5.2 of RFC 8446).  The decoder takes the bytes as they arrive, cut anywhere. */
module TlsStream {
  import opened PowersOfTwo
  import opened Sequences

  type byte = x: int | 0 <= x < 256

  const MAX_PACKET_LENGTH := 1425

  // ----- the cipher -----

  /** Exclusive or of the low n bits. */
  function Xor(a: nat, b: nat, n: nat): nat {
    if n == 0 then 0 else (a % 2 + b % 2) % 2 + 2 * Xor(a / 2, b / 2, n - 1)
  }

  lemma {:induction false} XorBelow(a: nat, b: nat, n: nat)
    ensures Xor(a, b, n) < Two(n)
  {
    if n > 0 { XorBelow(a / 2, b / 2, n - 1); }
  }

  lemma LowBit(bit: nat, rest: nat)
    requires bit < 2
    ensures (bit + 2 * rest) / 2 == rest && (bit + 2 * rest) % 2 == bit
  {
  }

  lemma BitTwice(a: nat, b: nat)
    ensures ((a % 2 + b % 2) % 2 + b % 2) % 2 == a % 2 && a == a % 2 + 2 * (a / 2)
  {
  }

  lemma {:induction false} XorTwice(a: nat, b: nat, n: nat)
    requires a < Two(n)
    ensures Xor(Xor(a, b, n), b, n) == a
  {
    if n > 0 {
      XorTwice(a / 2, b / 2, n - 1);
      LowBit((a % 2 + b % 2) % 2, Xor(a / 2, b / 2, n - 1));
      BitTwice(a, b);
    }
  }

  function Mask(a: byte, k: byte): byte {
    XorBelow(a, k, 8);
    SmallPowers();
    Xor(a, k, 8)
  }

  lemma MaskTwice(a: byte, k: byte)
    ensures Mask(Mask(a, k), k) == a
  {
    SmallPowers();
    XorTwice(a, k, 8);
  }

  /** Bit i of a number. */
  predicate Bit(a: nat, i: nat) {
    if i == 0 then a % 2 == 1 else Bit(a / 2, i - 1)
  }

  lemma {:induction false} XorBit(a: nat, b: nat, n: nat, i: nat)
    requires i < n
    ensures Bit(Xor(a, b, n), i) == (Bit(a, i) != Bit(b, i))
    decreases n
  {
    LowBit((a % 2 + b % 2) % 2, Xor(a / 2, b / 2, n - 1));
    if i > 0 { XorBit(a / 2, b / 2, n - 1, i - 1); } else { TwoBits(a % 2, b % 2); }
  }

  lemma TwoBits(x: nat, y: nat)
    requires x < 2 && y < 2
    ensures ((x + y) % 2 == 1) == ((x == 1) != (y == 1))
  {
  }

  type Stream = nat -> byte

  /** AES in counter mode: the keystream ks from position pos on.  Decryption is the same. */
  function Crypt(ks: Stream, pos: nat, s: seq<byte>): (r: seq<byte>)
    ensures |r| == |s|
  {
    seq(|s|, i requires 0 <= i < |s| => Mask(s[i], ks(pos + i)))
  }

  lemma CryptTwice(ks: Stream, pos: nat, s: seq<byte>)
    ensures Crypt(ks, pos, Crypt(ks, pos, s)) == s
  {
    forall i | 0 <= i < |s| ensures Crypt(ks, pos, Crypt(ks, pos, s))[i] == s[i] {
      MaskTwice(s[i], ks(pos + i));
    }
  }

  /** A bit on the wire is the exclusive or of the plain bit and the bit of the keystream at that position. */
  lemma WireBit(ks: Stream, pos: nat, s: seq<byte>, j: nat, i: nat)
    requires j < |s| && i < 8
    ensures Bit(Crypt(ks, pos, s)[j], i) == (Bit(s[j], i) != Bit(ks(pos + j), i))
  {
    XorBit(s[j], ks(pos + j), 8, i);
  }

  lemma CryptAppend(ks: Stream, pos: nat, a: seq<byte>, b: seq<byte>)
    ensures Crypt(ks, pos, a + b) == Crypt(ks, pos, a) + Crypt(ks, pos + |a|, b)
  {
  }

  // ----- what is on the wire -----

  function Header(n: nat): seq<byte>
    requires n < 65536
  {
    [0x17, 3, 3, n / 256, n % 256]
  }

  function Min(a: int, b: int): int {
    if a < b then a else b
  }

  /** The records for a plaintext. */
  function Wire(ks: Stream, pos: nat, plain: seq<byte>): seq<byte>
    decreases |plain|
  {
    if plain == [] then []
    else
      var n := Min(MAX_PACKET_LENGTH, |plain|);
      Header(n) + Crypt(ks, pos, plain[..n]) + Wire(ks, pos + n, plain[n..])
  }

  // ----- the decoder -----

  function RecordLength(s: seq<byte>): (r: nat)
    requires |s| >= 5
  {
    var high: int, low: int := s[3], s[4];
    256 * high + low
  }

  /** left_tls_packet_length, the position in the keystream, and the bytes not yet consumed. */
  datatype Decoder = Decoder(left: nat, pos: nat, rest: seq<byte>, failed: bool)

  datatype Decoded = Decoded(d: Decoder, out: seq<byte>)

  predicate BadHeader(s: seq<byte>)
    requires |s| >= 5
  {
    s[0] != 0x17 || s[1] != 3 || s[2] != 3
  }

  /** Everything that can be decoded now. */
  function Decode(ks: Stream, d: Decoder): Decoded
    decreases |d.rest|
  {
    if d.failed || d.rest == [] then Decoded(d, [])
    else if d.left == 0 then
      if |d.rest| < 5 then Decoded(d, [])
      else if BadHeader(d.rest) then Decoded(d.(failed := true), [])
      else Decode(ks, Decoder(RecordLength(d.rest), d.pos, d.rest[5..], false))
    else
      var n := Min(d.left, |d.rest|);
      var later := Decode(ks, Decoder(d.left - n, d.pos + n, d.rest[n..], false));
      later.(out := Crypt(ks, d.pos, d.rest[..n]) + later.out)
  }

  /** The output of one call before that of the next. */
  function Before(out: seq<byte>, later: Decoded): Decoded {
    later.(out := out + later.out)
  }

  function Got(d: Decoder, more: seq<byte>): Decoder {
    d.(rest := d.rest + more)
  }

  lemma BeforeTwice(a: seq<byte>, b: seq<byte>, later: Decoded)
    ensures Before(a, Before(b, later)) == Before(a + b, later)
    ensures Before([], later) == later
  {
    assert a + (b + later.out) == (a + b) + later.out;
  }

  /** Bytes may arrive in two pieces: decoding the first one at once changes nothing. */
  lemma {:induction false} Resume(ks: Stream, d: Decoder, more: seq<byte>)
    requires !d.failed
    ensures var first, whole := Decode(ks, d), Decode(ks, Got(d, more));
            if first.d.failed then whole.d.failed && whole.out == first.out
            else whole == Before(first.out, Decode(ks, Got(first.d, more)))
    decreases |d.rest|
  {
    var first := Decode(ks, d);
    if d.rest == [] || (d.left == 0 && |d.rest| < 5) {
      BeforeTwice([], [], Decode(ks, Got(d, more)));
    } else if d.left == 0 {
      HeaderGot(d, more);
      if !BadHeader(d.rest) {
        BehindHeader(ks, d);
        BehindHeader(ks, Got(d, more));
        Resume(ks, Opened(d), more);
      }
    } else if |d.rest| < d.left {
      ResumeInside(ks, d, more);
    } else {
      ResumeBehind(ks, d, more);
    }
  }

  /** The decoder behind the header of a record. */
  function Opened(d: Decoder): Decoder
    requires |d.rest| >= 5
  {
    Decoder(RecordLength(d.rest), d.pos, d.rest[5..], false)
  }

  lemma BehindHeader(ks: Stream, d: Decoder)
    requires !d.failed && d.left == 0 && |d.rest| >= 5 && !BadHeader(d.rest)
    ensures Decode(ks, d) == Decode(ks, Opened(d))
  {
  }

  lemma HeaderGot(d: Decoder, more: seq<byte>)
    requires !d.failed && d.left == 0 && |d.rest| >= 5
    ensures BadHeader(Got(d, more).rest) == BadHeader(d.rest) && Opened(Got(d, more)) == Got(Opened(d), more)
  {
    Cut(d.rest, more, 5);
  }

  lemma Cut(a: seq<byte>, b: seq<byte>, n: nat)
    requires n <= |a|
    ensures (a + b)[..n] == a[..n] && (a + b)[n..] == a[n..] + b
  {
  }

  lemma Halves(a: seq<byte>, n: nat)
    requires n <= |a|
    ensures a[..n] + a[n..] == a && n + |a[n..]| == |a|
  {
  }

  lemma BeforeHalves(a: seq<byte>, n: nat, later: Decoded)
    requires n <= |a|
    ensures Before(a[..n], Before(a[n..], later)) == Before(a, later) && n + |a[n..]| == |a|
  {
    BeforeTwice(a[..n], a[n..], later);
    Halves(a, n);
  }

  lemma CutBehind(a: seq<byte>, b: seq<byte>, n: nat)
    requires n <= |b|
    ensures (a + b)[..|a| + n] == a + b[..n] && (a + b)[|a| + n..] == b[n..]
  {
  }

  lemma Whole(a: seq<byte>)
    ensures a[..|a|] == a && a[|a|..] == [] && a + [] == a && [] + a == a
  {
    NoneAdded(a);
  }

  function Next(d: Decoder, n: nat): Decoder
    requires n <= d.left && n <= |d.rest|
  {
    Decoder(d.left - n, d.pos + n, d.rest[n..], false)
  }

  /** The body of a record, as far as it has arrived. */
  lemma Body(ks: Stream, d: Decoder, n: nat)
    requires !d.failed && d.left > 0 && n == Min(d.left, |d.rest|)
    ensures Decode(ks, d) == Before(Crypt(ks, d.pos, d.rest[..n]), Decode(ks, Next(d, n)))
  {
    if d.rest == [] { BeforeTwice([], [], Decode(ks, d)); }
  }

  lemma Nothing(ks: Stream, d: Decoder)
    requires d.rest == []
    ensures Decode(ks, d) == Decoded(d, [])
  {
  }

  lemma InsideFirst(ks: Stream, d: Decoder)
    requires !d.failed && d.rest != [] && |d.rest| < d.left
    ensures Decode(ks, d) == Decoded(Next(d, |d.rest|), Crypt(ks, d.pos, d.rest)) && Next(d, |d.rest|).rest == []
  {
    Whole(d.rest);
    Body(ks, d, |d.rest|);
    Nothing(ks, Next(d, |d.rest|));
    Whole(Crypt(ks, d.pos, d.rest));
  }

  lemma InsideBoth(ks: Stream, d: Decoder, more: seq<byte>, e: Decoder, k: nat)
    requires !d.failed && |d.rest| < d.left && k == Min(d.left - |d.rest|, |more|)
    requires e == Decoder(d.left - |d.rest|, d.pos + |d.rest|, more, false)
    ensures Decode(ks, Got(d, more))
            == Before(Crypt(ks, d.pos, d.rest) + Crypt(ks, e.pos, more[..k]), Decode(ks, Next(e, k)))
  {
    var m := |d.rest|;
    Body(ks, Got(d, more), m + k);
    CutBehind(d.rest, more, k);
    CryptAppend(ks, d.pos, d.rest, more[..k]);
    assert Next(Got(d, more), m + k) == Next(e, k);
  }

  /** The first piece ends inside a record. */
  lemma ResumeInside(ks: Stream, d: Decoder, more: seq<byte>)
    requires !d.failed && d.rest != [] && |d.rest| < d.left
    ensures !Decode(ks, d).d.failed
    ensures Decode(ks, Got(d, more)) == Before(Decode(ks, d).out, Decode(ks, Got(Decode(ks, d).d, more)))
  {
    var next, k := Next(d, |d.rest|), Min(d.left - |d.rest|, |more|);
    InsideFirst(ks, d);
    Whole(more);
    var e := Got(next, more);
    InsideBoth(ks, d, more, e, k);
    Body(ks, e, k);
    BeforeTwice(Crypt(ks, d.pos, d.rest), Crypt(ks, e.pos, more[..k]), Decode(ks, Next(e, k)));
  }

  lemma ResumeBehind(ks: Stream, d: Decoder, more: seq<byte>)
    requires !d.failed && d.left > 0 && |d.rest| >= d.left
    ensures var first, whole := Decode(ks, d), Decode(ks, Got(d, more));
            if first.d.failed then whole.d.failed && whole.out == first.out
            else whole == Before(first.out, Decode(ks, Got(first.d, more)))
    decreases |d.rest|, 0
  {
    var n := d.left;
    var body, next := Crypt(ks, d.pos, d.rest[..n]), Next(d, n);
    Body(ks, d, n);
    Body(ks, Got(d, more), n);
    Cut(d.rest, more, n);
    assert Next(Got(d, more), n) == Got(next, more);
    Resume(ks, next, more);
    var later := Decode(ks, next);
    if !later.d.failed { BeforeTwice(body, later.out, Decode(ks, Got(later.d, more))); }
  }

  // ----- the round trip -----

  /** Records are decoded to the plaintext, whatever follows them. */
  lemma {:induction false} WireDecodes(ks: Stream, pos: nat, plain: seq<byte>, tail: seq<byte>)
    ensures From(ks, pos, Wire(ks, pos, plain) + tail) == Before(plain, From(ks, pos + |plain|, tail))
    decreases |plain|
  {
    var later := From(ks, pos + |plain|, tail);
    if plain == [] {
      Whole(tail);
      BeforeTwice([], [], later);
    } else {
      var n := Min(MAX_PACKET_LENGTH, |plain|);
      OneRecord(ks, pos, plain, tail, n);
      WireDecodes(ks, pos + n, plain[n..], tail);
      BeforeHalves(plain, n, later);
    }
  }

  /** What is decoded from s when a record begins at position pos of the keystream. */
  function From(ks: Stream, pos: nat, s: seq<byte>): Decoded {
    Decode(ks, Decoder(0, pos, s, false))
  }

  lemma HeaderStep(ks: Stream, pos: nat, n: nat, x: seq<byte>)
    requires n < 65536
    ensures From(ks, pos, Header(n) + x) == Decode(ks, Decoder(n, pos, x, false))
  {
    var all := Header(n) + x;
    CutBehind(Header(n), x, 0);
    assert all[5..] == x && RecordLength(all) == n && !BadHeader(all);
  }

  lemma BodyStep(ks: Stream, pos: nat, part: seq<byte>, n: nat, rest: seq<byte>)
    requires |part| == n > 0
    ensures Decode(ks, Decoder(n, pos, Crypt(ks, pos, part) + rest, false)) == Before(part, From(ks, pos + n, rest))
  {
    Body(ks, Decoder(n, pos, Crypt(ks, pos, part) + rest, false), n);
    BodyCut(ks, pos, part, n, rest);
  }

  lemma BodyCut(ks: Stream, pos: nat, part: seq<byte>, n: nat, rest: seq<byte>)
    requires |part| == n
    ensures var d := Decoder(n, pos, Crypt(ks, pos, part) + rest, false);
            && |d.rest| >= n && Crypt(ks, pos, d.rest[..n]) == part && Next(d, n) == Decoder(0, pos + n, rest, false)
  {
    CutBehind(Crypt(ks, pos, part), rest, 0);
    Whole(Crypt(ks, pos, part));
    Whole(rest);
    CryptTwice(ks, pos, part);
  }

  lemma OneRecord(ks: Stream, pos: nat, plain: seq<byte>, tail: seq<byte>, n: nat)
    requires plain != [] && n == Min(MAX_PACKET_LENGTH, |plain|)
    ensures From(ks, pos, Wire(ks, pos, plain) + tail)
            == Before(plain[..n], From(ks, pos + n, Wire(ks, pos + n, plain[n..]) + tail))
  {
    var rest := Wire(ks, pos + n, plain[n..]) + tail;
    FirstRecord(ks, pos, plain, tail, n);
    HeaderStep(ks, pos, n, Crypt(ks, pos, plain[..n]) + rest);
    BodyStep(ks, pos, plain[..n], n, rest);
  }

  lemma FirstRecord(ks: Stream, pos: nat, plain: seq<byte>, tail: seq<byte>, n: nat)
    requires plain != [] && n == Min(MAX_PACKET_LENGTH, |plain|)
    ensures Wire(ks, pos, plain) + tail == Header(n) + (Crypt(ks, pos, plain[..n]) + (Wire(ks, pos + n, plain[n..]) + tail))
  {
    AssocFour(Header(n), Crypt(ks, pos, plain[..n]), Wire(ks, pos + n, plain[n..]), tail);
  }

  function Join(ss: seq<seq<byte>>): seq<byte> {
    if ss == [] then [] else ss[0] + Join(ss[1..])
  }

  /** The wire bytes of several calls of the encoder. */
  function WireAll(ks: Stream, pos: nat, plains: seq<seq<byte>>): seq<byte>
    decreases |plains|
  {
    if plains == [] then [] else Wire(ks, pos, plains[0]) + WireAll(ks, pos + |plains[0]|, plains[1..])
  }

  /** The decoder is called after each piece that arrives. */
  function Feed(ks: Stream, d: Decoder, pieces: seq<seq<byte>>): Decoded
    decreases |pieces|
  {
    if pieces == [] then Decoded(d, [])
    else
      var now := Decode(ks, Got(d, pieces[0]));
      Before(now.out, Feed(ks, now.d, pieces[1..]))
  }

  lemma {:induction false} FailedFeed(ks: Stream, d: Decoder, pieces: seq<seq<byte>>)
    requires d.failed
    ensures Feed(ks, d, pieces).out == [] && Feed(ks, d, pieces).d.failed
    decreases |pieces|
  {
    if pieces != [] { FailedFeed(ks, Got(d, pieces[0]), pieces[1..]); }
  }

  /** What has been decoded does not depend on where the bytes were cut. */
  lemma {:induction false} FeedIsDecode(ks: Stream, d: Decoder, pieces: seq<seq<byte>>)
    requires !d.failed && Decode(ks, d) == Decoded(d, [])
    ensures var fed, whole := Feed(ks, d, pieces), Decode(ks, Got(d, Join(pieces)));
            fed.out == whole.out && fed.d.failed == whole.d.failed && (!fed.d.failed ==> fed == whole)
    decreases |pieces|
  {
    if pieces == [] {
      assert d.rest + [] == d.rest;
    } else {
      var now := Decode(ks, Got(d, pieces[0]));
      Resume(ks, Got(d, pieces[0]), Join(pieces[1..]));
      Assoc(d.rest, pieces[0], Join(pieces[1..]));
      if now.d.failed {
        FailedFeed(ks, now.d, pieces[1..]);
        Whole(now.out);
      } else {
        Settled(ks, Got(d, pieces[0]));
        FeedIsDecode(ks, now.d, pieces[1..]);
      }
    }
  }

  /** After a call nothing more can be decoded. */
  lemma {:induction false} Settled(ks: Stream, d: Decoder)
    ensures Decode(ks, Decode(ks, d).d) == Decoded(Decode(ks, d).d, [])
    ensures var e := Decode(ks, d).d; !e.failed && e.rest != [] ==> e.left == 0 && |e.rest| < 5
    decreases |d.rest|
  {
    if d.failed || d.rest == [] || (d.left == 0 && (|d.rest| < 5 || BadHeader(d.rest))) {
    } else if d.left == 0 {
      Settled(ks, Decoder(RecordLength(d.rest), d.pos, d.rest[5..], false));
    } else {
      var n := Min(d.left, |d.rest|);
      Settled(ks, Decoder(d.left - n, d.pos + n, d.rest[n..], false));
    }
  }

  lemma {:induction false} WireAllDecodes(ks: Stream, pos: nat, plains: seq<seq<byte>>)
    ensures From(ks, pos, WireAll(ks, pos, plains))
            == Decoded(Decoder(0, pos + |Join(plains)|, [], false), Join(plains))
    decreases |plains|
  {
    if plains != [] {
      WireDecodes(ks, pos, plains[0], WireAll(ks, pos + |plains[0]|, plains[1..]));
      WireAllDecodes(ks, pos + |plains[0]|, plains[1..]);
    }
  }

  const START := Decoder(0, 0, [], false)

  /** For any plaintexts and any cutting of the wire bytes, the decoder gives back exactly the plaintexts. */
  lemma RoundTrip(ks: Stream, plains: seq<seq<byte>>, pieces: seq<seq<byte>>)
    requires Join(pieces) == WireAll(ks, 0, plains)
    ensures Feed(ks, START, pieces) == Decoded(Decoder(0, |Join(plains)|, [], false), Join(plains))
  {
    FeedIsDecode(ks, START, pieces);
    Whole(Join(pieces));
    WireAllDecodes(ks, 0, plains);
  }

  lemma FirstPart(ks: Stream, s: seq<byte>, later: seq<byte>, plains: seq<seq<byte>>)
    requires s + later == WireAll(ks, 0, plains)
    ensures !From(ks, 0, s).d.failed && From(ks, 0, s).out <= Join(plains)
  {
    Resume(ks, Decoder(0, 0, s, false), later);
    WireAllDecodes(ks, 0, plains);
  }

  /** As long as only some of the wire bytes have arrived, what was decoded is a prefix of the plaintexts. */
  lemma PrefixOnly(ks: Stream, plains: seq<seq<byte>>, pieces: seq<seq<byte>>, later: seq<byte>)
    requires Join(pieces) + later == WireAll(ks, 0, plains)
    ensures var fed := Feed(ks, START, pieces); !fed.d.failed && fed.out <= Join(plains)
  {
    FeedIsDecode(ks, START, pieces);
    Whole(Join(pieces));
    FirstPart(ks, Join(pieces), later, plains);
  }

  /** No record is longer than the limit, and none is empty. */
  lemma {:induction false} Records(ks: Stream, pos: nat, plain: seq<byte>)
    requires plain != []
    ensures var w := Wire(ks, pos, plain);
            && |w| >= 5 && !BadHeader(w) && 0 < RecordLength(w) <= MAX_PACKET_LENGTH && 5 + RecordLength(w) <= |w|
            && w[5 + RecordLength(w)..] == Wire(ks, pos + RecordLength(w), plain[RecordLength(w)..])
  {
    var n, w := Min(MAX_PACKET_LENGTH, |plain|), Wire(ks, pos, plain);
    assert RecordLength(w) == n;
    assert w == Header(n) + Crypt(ks, pos, plain[..n]) + Wire(ks, pos + n, plain[n..]);
  }

  // ----- any bytes -----

  /** Complete records with these bodies. */
  function Framed(bodies: seq<seq<byte>>): seq<byte>
    requires forall b :: b in bodies ==> |b| < 65536
  {
    if bodies == [] then [] else Header(|bodies[0]|) + bodies[0] + Framed(bodies[1..])
  }

  /** What is left behind complete records, and where it leaves the decoder: less than a header; something that is not a
      header, on which it fails; or a header with the first bytes of its record. */
  predicate Ends(ks: Stream, pos: nat, plain: seq<byte>, tail: seq<byte>, r: Decoded) {
    if |tail| < 5 then r == Decoded(Decoder(0, pos, tail, false), plain)
    else if BadHeader(tail) then r == Decoded(Decoder(0, pos, tail, true), plain)
    else
      var n, part := RecordLength(tail), tail[5..];
      |part| < n && r == Decoded(Decoder(n - |part|, pos + |part|, [], false), plain + Crypt(ks, pos, part))
  }

  lemma HeaderBack(s: seq<byte>)
    requires |s| >= 5 && !BadHeader(s)
    ensures RecordLength(s) < 65536 && Header(RecordLength(s)) == s[..5] && s == s[..5] + s[5..]
  {
    TwoDigits(s[3], s[4]);
  }

  lemma TwoDigits(high: byte, low: byte)
    ensures (256 * high as int + low as int) / 256 == high && (256 * high as int + low as int) % 256 == low
  {
  }

  /** s consists of the complete records with these bodies and of tail, and is read accordingly. */
  predicate Split(ks: Stream, pos: nat, s: seq<byte>, bodies: seq<seq<byte>>, tail: seq<byte>) {
    && (forall b :: b in bodies ==> |b| < 65536) && s == Framed(bodies) + tail
    && Ends(ks, pos + |Join(bodies)|, Crypt(ks, pos, Join(bodies)), tail, From(ks, pos, s))
  }

  /** A decoder at the beginning of a record, on any bytes whatever: it outputs the decrypted bodies of the complete
      records there are, each as long as its header says, and of an incomplete one as much as there is, and it fails
      exactly if something else than a header follows a record. */
  lemma {:induction false} OnlyRecords(ks: Stream, pos: nat, s: seq<byte>) returns (bodies: seq<seq<byte>>, tail: seq<byte>)
    ensures Split(ks, pos, s, bodies, tail)
    decreases |s|
  {
    if |s| < 5 || BadHeader(s) || |s| - 5 < RecordLength(s) {
      NoRecord(ks, pos, s);
      bodies, tail := [], s;
    } else {
      var n := RecordLength(s);
      bodies, tail := OnlyRecords(ks, pos + n, s[5..][n..]);
      OneMoreRecord(ks, pos, s, n, bodies, tail);
      bodies := [s[5..][..n]] + bodies;
    }
  }

  lemma NoRecord(ks: Stream, pos: nat, s: seq<byte>)
    requires |s| < 5 || BadHeader(s) || |s| - 5 < RecordLength(s)
    ensures Split(ks, pos, s, [], s)
  {
    Whole(s);
    assert Crypt(ks, pos, Join([])) == [];
    if |s| >= 5 && !BadHeader(s) {
      BehindHeader(ks, Decoder(0, pos, s, false));
      Unfinished(ks, pos, RecordLength(s), s[5..]);
    }
  }

  lemma Unfinished(ks: Stream, pos: nat, n: nat, x: seq<byte>)
    requires |x| < n
    ensures Decode(ks, Decoder(n, pos, x, false)) == Decoded(Decoder(n - |x|, pos + |x|, [], false), [] + Crypt(ks, pos, x))
  {
    Whole(Crypt(ks, pos, x));
    if x != [] { InsideFirst(ks, Decoder(n, pos, x, false)); }
  }

  lemma OneMoreRecord(ks: Stream, pos: nat, s: seq<byte>, n: nat, bodies: seq<seq<byte>>, tail: seq<byte>)
    requires |s| >= 5 && !BadHeader(s) && n == RecordLength(s) <= |s| - 5
    requires Split(ks, pos + n, s[5..][n..], bodies, tail)
    ensures Split(ks, pos, s, [s[5..][..n]] + bodies, tail)
  {
    var body, rest := s[5..][..n], s[5..][n..];
    MoreFramed(s, n, bodies, tail);
    RecordRead(ks, pos, s, n);
    CryptAppend(ks, pos, body, Join(bodies));
    EndsBefore(ks, pos + n + |Join(bodies)|, Crypt(ks, pos, body), Crypt(ks, pos + n, Join(bodies)), tail, From(ks, pos + n, rest));
    assert Join([body] + bodies) == body + Join(bodies) by { assert ([body] + bodies)[1..] == bodies; }
  }

  lemma MoreFramed(s: seq<byte>, n: nat, bodies: seq<seq<byte>>, tail: seq<byte>)
    requires |s| >= 5 && !BadHeader(s) && n == RecordLength(s) <= |s| - 5
    requires (forall b :: b in bodies ==> |b| < 65536) && s[5..][n..] == Framed(bodies) + tail
    ensures var all := [s[5..][..n]] + bodies; (forall b :: b in all ==> |b| < 65536) && s == Framed(all) + tail
  {
    var body := s[5..][..n];
    HeaderBack(s);
    Halves(s[5..], n);
    assert ([body] + bodies)[1..] == bodies;
    AssocFour(Header(n), body, Framed(bodies), tail);
  }

  lemma RecordRead(ks: Stream, pos: nat, s: seq<byte>, n: nat)
    requires |s| >= 5 && !BadHeader(s) && n == RecordLength(s) <= |s| - 5
    ensures From(ks, pos, s) == Before(Crypt(ks, pos, s[5..][..n]), From(ks, pos + n, s[5..][n..]))
  {
    BehindHeader(ks, Decoder(0, pos, s, false));
    DecodeStep(ks, Decoder(n, pos, s[5..], false), n, []);
    var later := From(ks, pos + n, s[5..][n..]);
    BeforeTwice([], [], Decode(ks, Decoder(n, pos, s[5..], false)));
    Whole(Crypt(ks, pos, s[5..][..n]));
  }

  lemma EndsBefore(ks: Stream, pos: nat, first: seq<byte>, plain: seq<byte>, tail: seq<byte>, r: Decoded)
    requires Ends(ks, pos, plain, tail, r)
    ensures Ends(ks, pos, first + plain, tail, Before(first, r))
  {
    if |tail| >= 5 && !BadHeader(tail) { Assoc(first, plain, Crypt(ks, pos, tail[5..])); }
  }

  // ----- the connection -----

  class Connection {
    const isTls: bool                  // C_IS_TLS
    const readKey: Stream
    const writeKey: Stream
    var writePos: nat
    var out: seq<byte>
    var outP: seq<byte>
    var decoder: Decoder               // left_tls_packet_length, the read position, in_u
    var input: seq<byte>               // in

    constructor (tls: bool, read: Stream, write: Stream)
      ensures isTls == tls && readKey == read && writeKey == write
      ensures writePos == 0 && out == [] && outP == [] && decoder == START && input == []
    {
      isTls, readKey, writeKey := tls, read, write;
      writePos, out, outP, decoder, input := 0, [], [], START, [];
    }

    /** cpu_tcp_aes_crypto_ctr128_encrypt_output. */
    method EncryptOutput()
      modifies this`out, this`outP, this`writePos
      ensures out == [] && writePos == old(writePos) + |old(out)|
      ensures outP == old(outP) + Sent(isTls, writeKey, old(writePos), old(out))
    {
      ghost var target := outP + Sent(isTls, writeKey, writePos, out);
      while out != []
        invariant writePos + |out| == old(writePos) + |old(out)|
        invariant outP + Sent(isTls, writeKey, writePos, out) == target
        decreases |out|
      {
        var len := |out|;
        if isTls {
          if MAX_PACKET_LENGTH < len {
            len := MAX_PACKET_LENGTH;
          }
        }
        SentStep(isTls, writeKey, writePos, out, len, outP);
        if isTls {
          outP := outP + Header(len);
        }
        outP := outP + Crypt(writeKey, writePos, out[..len]);
        writePos, out := writePos + len, out[len..];
      }
      Whole(outP);
    }

    /** The bytes that have arrived are put behind in_u. */
    method Receive(bytes: seq<byte>)
      modifies this`decoder
      ensures decoder == Got(old(decoder), bytes)
    {
      decoder := Got(decoder, bytes);
    }

    /** cpu_tcp_aes_crypto_ctr128_decrypt_input: returns how many bytes of a header are still missing. */
    method DecryptInput() returns (r: int)
      requires !decoder.failed
      modifies this`decoder, this`input
      ensures isTls ==> Decoded(decoder, input) == Before(old(input), Decode(readKey, old(decoder)))
      ensures isTls ==> r == if !decoder.failed && decoder.rest != [] then 5 - |decoder.rest| else 0
      ensures isTls ==> 0 <= r < 5
      ensures !isTls ==> r == 0 && decoder.rest == [] && decoder.pos == old(decoder).pos + |old(decoder).rest|
      ensures !isTls ==> input == old(input) + Crypt(readKey, old(decoder).pos, old(decoder).rest)
    {
      ghost var d0, in0 := decoder, input;
      Settled(readKey, decoder);
      while decoder.rest != []
        invariant Reading(isTls, readKey, d0, in0, decoder, input)
        decreases |decoder.rest|, decoder.left
      {
        var len := |decoder.rest|;
        if isTls {
          if decoder.left == 0 {
            if len < 5 {
              Whole(input);
              return 5 - len;
            }
            if BadHeader(decoder.rest) {
              decoder := decoder.(failed := true);
              Whole(input);
              return 0;
            }
            decoder := Decoder(RecordLength(decoder.rest), decoder.pos, decoder.rest[5..], false);
            len := len - 5;
          }
          if decoder.left < len {
            len := decoder.left;
          }
        }
        ReadingStep(isTls, readKey, d0, in0, decoder, input, len);
        input := input + Crypt(readKey, decoder.pos, decoder.rest[..len]);
        decoder := Decoder(if isTls then decoder.left - len else decoder.left, decoder.pos + len, decoder.rest[len..], false);
      }
      Whole(input);
      return 0;
    }
  }

  /** What the loop of the decoder keeps. */
  ghost predicate Reading(tls: bool, ks: Stream, d0: Decoder, in0: seq<byte>, d: Decoder, input: seq<byte>) {
    && !d.failed
    && (if tls then Before(input, Decode(ks, d)) == Before(in0, Decode(ks, d0))
        else input + Crypt(ks, d.pos, d.rest) == in0 + Crypt(ks, d0.pos, d0.rest)
             && d.pos + |d.rest| == d0.pos + |d0.rest|)
  }

  lemma ReadingStep(tls: bool, ks: Stream, d0: Decoder, in0: seq<byte>, d: Decoder, input: seq<byte>, n: nat)
    requires Reading(tls, ks, d0, in0, d, input) && n <= |d.rest| && n == if tls then Min(d.left, |d.rest|) else |d.rest|
    ensures Reading(tls, ks, d0, in0,
                    Decoder(if tls then d.left - n else d.left, d.pos + n, d.rest[n..], false),
                    input + Crypt(ks, d.pos, d.rest[..n]))
  {
    if tls {
      DecodeStep(ks, d, n, input);
    } else {
      CryptStep(ks, d.pos, d.rest, n, input);
    }
  }

  /** What the encoder makes of a plaintext. */
  function Sent(tls: bool, ks: Stream, pos: nat, plain: seq<byte>): (r: seq<byte>)
    ensures plain == [] ==> r == []
  {
    if tls then Wire(ks, pos, plain) else Crypt(ks, pos, plain)
  }

  lemma SentStep(tls: bool, ks: Stream, pos: nat, plain: seq<byte>, n: nat, done: seq<byte>)
    requires plain != [] && n == if tls then Min(MAX_PACKET_LENGTH, |plain|) else |plain|
    ensures var head := if tls then done + Header(n) else done;
            done + Sent(tls, ks, pos, plain) == (head + Crypt(ks, pos, plain[..n])) + Sent(tls, ks, pos + n, plain[n..])
  {
    Whole(plain);
    var body, rest := Crypt(ks, pos, plain[..n]), Sent(tls, ks, pos + n, plain[n..]);
    if tls {
      AssocFour(done, Header(n), body, rest);
    } else {
      Whole(done + body);
    }
  }

  /** One block of a record, possibly empty. */
  lemma DecodeStep(ks: Stream, d: Decoder, n: nat, input: seq<byte>)
    requires !d.failed && n == Min(d.left, |d.rest|)
    ensures Before(input, Decode(ks, d)) == Before(input + Crypt(ks, d.pos, d.rest[..n]), Decode(ks, Next(d, n)))
  {
    if n == 0 {
      assert Next(d, n) == d;
      Whole(input);
    } else {
      Body(ks, d, n);
      BeforeTwice(input, Crypt(ks, d.pos, d.rest[..n]), Decode(ks, Next(d, n)));
    }
  }

  lemma CryptStep(ks: Stream, pos: nat, s: seq<byte>, n: nat, input: seq<byte>)
    requires n <= |s|
    ensures input + Crypt(ks, pos, s) == (input + Crypt(ks, pos, s[..n])) + Crypt(ks, pos + n, s[n..])
  {
    Halves(s, n);
    CryptAppend(ks, pos, s[..n], s[n..]);
    Assoc(input, Crypt(ks, pos, s[..n]), Crypt(ks, pos + n, s[n..]));
  }
}
