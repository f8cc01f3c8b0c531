/** The memory behind raw messages (net/net-msg.c): message parts and buffers addressed by number, and
    the byte strings that chains of parts denote.  Address 0 is NULL. */
module RawMem {
  type byte = bv8

  /** struct msg_part; `locked` stands for MSG_PART_LOCKED_MAGIC. */
  datatype Part = Part(refcnt: nat, locked: bool, next: nat, buf: nat, offset: int, dataEnd: int)

  /** struct msg_buffer; buffer_size of its chunk is the length of `data`. */
  datatype Buffer = Buffer(refcnt: nat, data: seq<byte>)

  /** struct raw_message (RM_INIT_MAGIC). */
  datatype Raw = Raw(first: nat, last: nat, total: int, firstOffset: int, lastOffset: int)

  const EMPTY: Raw := Raw(0, 0, 0, 0, 0)

  /** Everything the functions of net-msg.c share: live parts, live buffers and initialised messages. */
  datatype World = World(parts: map<nat, Part>, bufs: map<nat, Buffer>, msgs: map<nat, Raw>)

  // ----- the bytes denoted by a path of parts -----

  function Concat(pieces: seq<seq<byte>>): seq<byte> {
    if pieces == [] then [] else pieces[0] + Concat(pieces[1..])
  }

  lemma {:induction false} ConcatAppend(xs: seq<seq<byte>>, ys: seq<seq<byte>>)
    ensures Concat(xs + ys) == Concat(xs) + Concat(ys)
  {
    if xs == [] {
      assert xs + ys == ys;
    } else {
      ConcatAppend(xs[1..], ys);
      assert (xs + ys)[1..] == xs[1..] + ys;
    }
  }

  lemma ConcatOne(x: seq<byte>)
    ensures Concat([x]) == x
  {
    assert [x][1..] == [];
  }

  function Bytes(w: World, p: nat, lo: int, hi: int): seq<byte> {
    if p in w.parts && w.parts[p].buf in w.bufs && 0 <= lo <= hi <= |w.bufs[w.parts[p].buf].data|
    then w.bufs[w.parts[p].buf].data[lo..hi] else []
  }

  function Start(w: World, path: seq<nat>, lo: int, i: nat): int
    requires i < |path|
  {
    if i == 0 || path[i] !in w.parts then lo else w.parts[path[i]].offset
  }

  function End(w: World, path: seq<nat>, hi: int, i: nat): int
    requires i < |path|
  {
    if i == |path| - 1 || path[i] !in w.parts then hi else w.parts[path[i]].dataEnd
  }

  function Piece(w: World, path: seq<nat>, lo: int, hi: int, i: nat): seq<byte>
    requires i < |path|
  {
    Bytes(w, path[i], Start(w, path, lo, i), End(w, path, hi, i))
  }

  function Pieces(w: World, path: seq<nat>, lo: int, hi: int): seq<seq<byte>> {
    seq(|path|, i requires 0 <= i < |path| => Piece(w, path, lo, hi, i))
  }

  /** The bytes from offset lo of the first part of a path to offset hi of its last. */
  function Content(w: World, path: seq<nat>, lo: int, hi: int): seq<byte> {
    Concat(Pieces(w, path, lo, hi))
  }

  ghost predicate Bounded(w: World, p: nat) {
    && p in w.parts && w.parts[p].buf in w.bufs
    && 0 <= w.parts[p].offset <= w.parts[p].dataEnd <= |w.bufs[w.parts[p].buf].data|
  }

  /** A chain of parts, and offsets that lie in its first and last parts. */
  ghost predicate PathOk(w: World, path: seq<nat>, lo: int, hi: int) {
    && path != []
    && (forall i :: 0 <= i < |path| ==> path[i] in w.parts)
    && (forall i {:trigger Bounded(w, path[i])} :: 0 <= i < |path| ==> Bounded(w, path[i]))
    && (forall i :: 0 <= i < |path| - 1 ==> w.parts[path[i]].next == path[i + 1])
    && w.parts[path[0]].offset <= lo && hi <= w.parts[path[|path| - 1]].dataEnd
    && lo <= End(w, path, hi, 0) && Start(w, path, lo, |path| - 1) <= hi
  }

  /** What a message keeps: its chain runs along `next` from `first` to `last`, and `total_bytes` is exact. */
  ghost predicate MsgOk(w: World, raw: Raw, chain: seq<nat>) {
    if raw.first == 0 then raw == EMPTY && chain == []
    else
      && PathOk(w, chain, raw.firstOffset, raw.lastOffset)
      && chain[0] == raw.first && chain[|chain| - 1] == raw.last
      && raw.total == |MsgBytes(w, raw, chain)|
  }

  function MsgBytes(w: World, raw: Raw, chain: seq<nat>): seq<byte> {
    Content(w, chain, raw.firstOffset, raw.lastOffset)
  }

  // ----- what leaves the bytes of a path alone -----

  /** A part keeps all that a path through it sees. */
  ghost predicate SamePart(w: World, w': World, p: nat) {
    && p in w.parts && p in w'.parts
    && w'.parts[p] == w.parts[p].(refcnt := w'.parts[p].refcnt, locked := w'.parts[p].locked)
    && (w.parts[p].buf in w.bufs ==>
          w.parts[p].buf in w'.bufs && w'.bufs[w.parts[p].buf].data == w.bufs[w.parts[p].buf].data)
  }

  /** A part keeps all that a path ending in it at offset hi sees. */
  ghost predicate SameTail(w: World, w': World, p: nat, hi: int) {
    && Bounded(w, p) && Bounded(w', p)
    && (var part, part' := w.parts[p], w'.parts[p];
        && part'.buf == part.buf && part'.offset == part.offset && part.dataEnd <= part'.dataEnd
        && (0 <= hi <= |w.bufs[part.buf].data| ==>
              && hi <= |w'.bufs[part.buf].data|
              && w'.bufs[part.buf].data[..hi] == w.bufs[part.buf].data[..hi]))
  }

  ghost predicate Alike(w: World, w': World, path: seq<nat>, hi: int) {
    path != [] ==>
      && (forall i :: 0 <= i < |path| - 1 ==> SamePart(w, w', path[i]))
      && SameTail(w, w', path[|path| - 1], hi)
  }

  lemma AlikePiece(w: World, w': World, path: seq<nat>, lo: int, hi: int, i: nat)
    requires PathOk(w, path, lo, hi) && Alike(w, w', path, hi) && i < |path|
    ensures Piece(w', path, lo, hi, i) == Piece(w, path, lo, hi, i)
  {
    var p := path[i];
    var from := Start(w, path, lo, i);
    assert Bounded(w, p);
    if i == |path| - 1 {
      var data, data' := w.bufs[w.parts[p].buf].data, w'.bufs[w'.parts[p].buf].data;
      if 0 <= from <= hi {
        assert data'[..hi][from..] == data'[from..hi];
        assert data[..hi][from..] == data[from..hi];
      }
    } else {
      assert SamePart(w, w', p);
    }
  }

  lemma AlikeKeeps(w: World, w': World, raw: Raw, chain: seq<nat>)
    requires MsgOk(w, raw, chain) && Alike(w, w', chain, raw.lastOffset)
    ensures MsgOk(w', raw, chain) && MsgBytes(w', raw, chain) == MsgBytes(w, raw, chain)
  {
    forall i: nat | i < |chain| ensures Piece(w', chain, raw.firstOffset, raw.lastOffset, i)
                                        == Piece(w, chain, raw.firstOffset, raw.lastOffset, i) {
      AlikePiece(w, w', chain, raw.firstOffset, raw.lastOffset, i);
    }
    assert Pieces(w', chain, raw.firstOffset, raw.lastOffset) == Pieces(w, chain, raw.firstOffset, raw.lastOffset);
    if chain != [] {
      forall i | 0 <= i < |chain| ensures Bounded(w', chain[i]) {
        assert Bounded(w, chain[i]);
        if i < |chain| - 1 { assert SamePart(w, w', chain[i]); }
      }
    }
  }

  lemma SameIsAlike(w: World, w': World, path: seq<nat>, hi: int)
    requires forall i :: 0 <= i < |path| ==> SamePart(w, w', path[i]) && Bounded(w, path[i])
    ensures Alike(w, w', path, hi)
  {
    if path != [] { assert SamePart(w, w', path[|path| - 1]); }
  }

  // ----- cutting and joining paths -----

  lemma PathBytes(w: World, path: seq<nat>, lo: int, hi: int)
    requires PathOk(w, path, lo, hi)
    ensures |path| == 1 ==> 0 <= lo <= hi && Content(w, path, lo, hi) == Bytes(w, path[0], lo, hi)
  {
    if |path| == 1 {
      assert Bounded(w, path[0]);
      assert Pieces(w, path, lo, hi) == [Bytes(w, path[0], lo, hi)];
      ConcatOne(Bytes(w, path[0], lo, hi));
    }
  }

  /** Joining two paths end to end. */
  lemma Join(w: World, left: seq<nat>, right: seq<nat>, lo: int, mid: int, from: int, hi: int)
    requires PathOk(w, left, lo, mid) && PathOk(w, right, from, hi)
    requires w.parts[left[|left| - 1]].dataEnd == mid && w.parts[right[0]].offset == from
    requires w.parts[left[|left| - 1]].next == right[0]
    ensures PathOk(w, left + right, lo, hi)
    ensures Content(w, left + right, lo, hi) == Content(w, left, lo, mid) + Content(w, right, from, hi)
  {
    var path := left + right;
    assert Pieces(w, path, lo, hi) == Pieces(w, left, lo, mid) + Pieces(w, right, from, hi);
    ConcatAppend(Pieces(w, left, lo, mid), Pieces(w, right, from, hi));
  }

  /** Cutting a path inside its k-th part. */
  lemma Cut(w: World, path: seq<nat>, lo: int, hi: int, k: nat, cut: int)
    requires PathOk(w, path, lo, hi) && k < |path|
    requires Start(w, path, lo, k) <= cut <= End(w, path, hi, k)
    ensures PathOk(w, path[..k + 1], lo, cut) && PathOk(w, path[k..], cut, hi)
    ensures Content(w, path, lo, hi) == Content(w, path[..k + 1], lo, cut) + Content(w, path[k..], cut, hi)
  {
    CutPaths(w, path, lo, hi, k, cut);
    CutContent(w, path, lo, hi, k, cut);
  }

  lemma CutPaths(w: World, path: seq<nat>, lo: int, hi: int, k: nat, cut: int)
    requires PathOk(w, path, lo, hi) && k < |path|
    requires Start(w, path, lo, k) <= cut <= End(w, path, hi, k)
    ensures PathOk(w, path[..k + 1], lo, cut) && PathOk(w, path[k..], cut, hi)
  {
    assert Bounded(w, path[0]) && Bounded(w, path[k]) && Bounded(w, path[|path| - 1]);
  }

  lemma CutContent(w: World, path: seq<nat>, lo: int, hi: int, k: nat, cut: int)
    requires PathOk(w, path, lo, hi) && k < |path|
    requires Start(w, path, lo, k) <= cut <= End(w, path, hi, k)
    ensures Content(w, path, lo, hi) == Content(w, path[..k + 1], lo, cut) + Content(w, path[k..], cut, hi)
  {
    var whole := Pieces(w, path, lo, hi);
    var x, y := Bytes(w, path[k], Start(w, path, lo, k), cut), Bytes(w, path[k], cut, End(w, path, hi, k));
    PieceCut(w, path, lo, hi, k, cut);
    PiecesBefore(w, path, lo, hi, k, cut);
    PiecesBehind(w, path, lo, hi, k, cut);
    assert whole == whole[..k] + [x + y] + whole[k + 1..];
    ConcatCut(whole[..k], x, y, whole[k + 1..]);
  }

  lemma PieceCut(w: World, path: seq<nat>, lo: int, hi: int, k: nat, cut: int)
    requires PathOk(w, path, lo, hi) && k < |path|
    requires Start(w, path, lo, k) <= cut <= End(w, path, hi, k)
    ensures Pieces(w, path, lo, hi)[k]
            == Bytes(w, path[k], Start(w, path, lo, k), cut) + Bytes(w, path[k], cut, End(w, path, hi, k))
  {
    assert Bounded(w, path[k]) && Bounded(w, path[|path| - 1]);
  }

  lemma PiecesBefore(w: World, path: seq<nat>, lo: int, hi: int, k: nat, cut: int)
    requires PathOk(w, path, lo, hi) && k < |path|
    ensures Pieces(w, path[..k + 1], lo, cut) == Pieces(w, path, lo, hi)[..k] + [Bytes(w, path[k], Start(w, path, lo, k), cut)]
  {
  }

  lemma PiecesBehind(w: World, path: seq<nat>, lo: int, hi: int, k: nat, cut: int)
    requires PathOk(w, path, lo, hi) && k < |path|
    ensures Pieces(w, path[k..], cut, hi) == [Bytes(w, path[k], cut, End(w, path, hi, k))] + Pieces(w, path, lo, hi)[k + 1..]
  {
  }

  lemma ConcatCut(before: seq<seq<byte>>, x: seq<byte>, y: seq<byte>, after: seq<seq<byte>>)
    ensures Concat(before + [x + y] + after) == Concat(before + [x]) + Concat([y] + after)
  {
    ConcatAppend(before + [x + y], after);
    ConcatLast(before, x + y);
    ConcatLast(before, x);
    ConcatAppend([y], after);
    ConcatOne(y);
    Regroup(Concat(before), x, y, Concat(after));
  }

  lemma ConcatLast(before: seq<seq<byte>>, x: seq<byte>)
    ensures Concat(before + [x]) == Concat(before) + x
  {
    ConcatAppend(before, [x]);
    ConcatOne(x);
  }

  lemma Regroup(a: seq<byte>, b: seq<byte>, c: seq<byte>, d: seq<byte>)
    ensures (a + (b + c)) + d == (a + b) + (c + d)
  {
  }

  /** Stepping from the end of one part to the start of the next adds nothing. */
  lemma Across(w: World, path: seq<nat>, lo: int, hi: int, k: nat)
    requires PathOk(w, path, lo, hi) && k + 1 < |path|
    ensures Content(w, path[..k + 2], lo, w.parts[path[k + 1]].offset)
            == Content(w, path[..k + 1], lo, w.parts[path[k]].dataEnd)
  {
    var end, off := w.parts[path[k]].dataEnd, w.parts[path[k + 1]].offset;
    assert Bounded(w, path[k + 1]);
    var left, both := Pieces(w, path[..k + 1], lo, end), Pieces(w, path[..k + 2], lo, off);
    assert Bytes(w, path[k + 1], off, off) == [];
    assert both == left + [[]];
    ConcatAppend(left, [[]]);
    ConcatOne([]);
  }

  /** The number of bytes before the k-th part of a path. */
  function Before(w: World, path: seq<nat>, lo: int, k: nat): nat
    requires k < |path|
  {
    |Content(w, path[..k + 1], lo, Start(w, path, lo, k))|
  }

  lemma BeforeZero(w: World, path: seq<nat>, lo: int, hi: int)
    requires PathOk(w, path, lo, hi)
    ensures Before(w, path, lo, 0) == 0
  {
    CutPaths(w, path, lo, hi, 0, lo);
    PathBytes(w, path[..1], lo, lo);
    assert Bounded(w, path[0]);
  }

  /** Offset c of the k-th part is position Before(k) + c - start of the content. */
  lemma CutAt(w: World, path: seq<nat>, lo: int, hi: int, k: nat, c: int)
    requires PathOk(w, path, lo, hi) && k < |path|
    requires Start(w, path, lo, k) <= c <= End(w, path, hi, k)
    ensures PathOk(w, path[..k + 1], lo, c) && PathOk(w, path[k..], c, hi)
    ensures var at := Before(w, path, lo, k) + c - Start(w, path, lo, k);
            && at <= |Content(w, path, lo, hi)|
            && Content(w, path[..k + 1], lo, c) == Content(w, path, lo, hi)[..at]
            && Content(w, path[k..], c, hi) == Content(w, path, lo, hi)[at..]
  {
    Cut(w, path, lo, hi, k, c);
    CutSize(w, path, lo, hi, k, c);
  }

  lemma CutSize(w: World, path: seq<nat>, lo: int, hi: int, k: nat, c: int)
    requires PathOk(w, path, lo, hi) && k < |path|
    requires Start(w, path, lo, k) <= c <= End(w, path, hi, k)
    ensures |Content(w, path[..k + 1], lo, c)| == Before(w, path, lo, k) + c - Start(w, path, lo, k)
  {
    var head, from := path[..k + 1], Start(w, path, lo, k);
    CutPaths(w, path, lo, hi, k, c);
    Cut(w, head, lo, c, k, from);
    assert head[..k + 1] == head && head[k..] == [path[k]];
    PathBytes(w, head[k..], from, c);
    assert Bounded(w, path[k]);
  }

  lemma BeforeNext(w: World, path: seq<nat>, lo: int, hi: int, k: nat)
    requires PathOk(w, path, lo, hi) && k + 1 < |path|
    ensures Before(w, path, lo, k + 1) == Before(w, path, lo, k) + End(w, path, hi, k) - Start(w, path, lo, k)
  {
    assert Bounded(w, path[k]);
    Across(w, path, lo, hi, k);
    CutSize(w, path, lo, hi, k, w.parts[path[k]].dataEnd);
  }

  lemma BeforeLast(w: World, path: seq<nat>, lo: int, hi: int)
    requires PathOk(w, path, lo, hi)
    ensures |Content(w, path, lo, hi)| == Before(w, path, lo, |path| - 1) + hi - Start(w, path, lo, |path| - 1)
  {
    assert Bounded(w, path[|path| - 1]);
    CutSize(w, path, lo, hi, |path| - 1, hi);
    assert path[..|path|] == path;
  }

  /** Bytes inside one part are a slice of the content. */
  lemma Slice(w: World, path: seq<nat>, lo: int, hi: int, k: nat, a: int, b: int)
    requires PathOk(w, path, lo, hi) && k < |path|
    requires Start(w, path, lo, k) <= a <= b <= End(w, path, hi, k)
    ensures var at := Before(w, path, lo, k) - Start(w, path, lo, k);
            && 0 <= at + a <= at + b <= |Content(w, path, lo, hi)|
            && Bytes(w, path[k], a, b) == Content(w, path, lo, hi)[at + a..at + b]
            && |Bytes(w, path[k], a, b)| == b - a
  {
    CutAt(w, path, lo, hi, k, a);
    CutAt(w, path, lo, hi, k, b);
    var rest := path[k..];
    Cut(w, rest, a, hi, 0, b);
    assert rest[..1] == [path[k]];
    PathBytes(w, rest[..1], a, b);
    assert Bounded(w, path[k]);
  }
}
