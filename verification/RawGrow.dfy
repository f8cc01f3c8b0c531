/** Adding bytes at either end of a message, and joining two messages. */
module RawGrow {
  import opened RawMem
  import opened RawHeap
  import opened RawSteps
  import opened RawOps
  import opened Sequences

  // ----- behind the last byte, in place -----

  /** memcpy of `bytes` into data at offset `at`. */
  function Patch(data: seq<byte>, at: int, bytes: seq<byte>): (r: seq<byte>)
    requires 0 <= at && at + |bytes| <= |data|
    ensures |r| == |data|
  {
    data[..at] + bytes + data[at + |bytes|..]
  }

  /** The last part of m has its buffer for itself, and there is room in it. */
  ghost predicate Room(w: World, m: nat, n: int) {
    && m in w.msgs && w.msgs[m].last in w.parts && w.parts[w.msgs[m].last].buf in w.bufs
    && (var raw := w.msgs[m];
        var buffer := w.bufs[w.parts[raw.last].buf];
        raw.first != 0 && buffer.refcnt == 1 && OpenEnd(w, raw) && 0 <= raw.lastOffset && raw.lastOffset + n <= |buffer.data|)
  }

  function GrownPart(w: World, m: nat, bytes: seq<byte>): World
    requires Room(w, m, |bytes|)
  {
    var raw := w.msgs[m];
    var part := w.parts[raw.last];
    SetPart(w, raw.last, part.(dataEnd := part.dataEnd + |bytes|), Patch(w.bufs[part.buf].data, raw.lastOffset, bytes))
  }

  function Longer(raw: Raw, n: int): Raw {
    raw.(total := raw.total + n, lastOffset := raw.lastOffset + n)
  }

  function Grown(w: World, m: nat, bytes: seq<byte>): World
    requires Room(w, m, |bytes|)
  {
    SetMsg(GrownPart(w, m, bytes), m, Longer(w.msgs[m], |bytes|))
  }

  lemma GrownHeap(w: World, rank: map<nat, nat>, m: nat, bytes: seq<byte>)
    requires HeapOk(w, multiset{}) && Ranked(w, rank) && Room(w, m, |bytes|)
    ensures HeapOk(Grown(w, m, bytes), multiset{}) && Ranked(Grown(w, m, bytes), rank)
    ensures forall p :: p in w.parts && p != w.msgs[m].last ==> SamePart(w, GrownPart(w, m, bytes), p)
    ensures Grows(w, GrownPart(w, m, bytes), w.msgs[m].last)
  {
    var raw := w.msgs[m];
    var part := w.parts[raw.last];
    var w1 := GrownPart(w, m, bytes);
    var data := w.bufs[part.buf].data;
    assert PartOk(w, multiset{}, raw.last);
    SetPartOk(w, multiset{}, multiset{}, raw.last, part.(dataEnd := part.dataEnd + |bytes|), Patch(data, raw.lastOffset, bytes));
    SetRangeOk(w1, multiset{}, m, Longer(raw, |bytes|));
    assert w1.bufs[part.buf].data[..part.dataEnd] == data[..part.dataEnd];
    forall p | p in w.parts && p != raw.last ensures SamePart(w, w1, p) {
      if w.parts[p].buf == part.buf { AnotherUser(w, multiset{}, raw.last, p); }
    }
  }

  lemma GrownPiece(w: World, rank: map<nat, nat>, m: nat, chain: seq<nat>, bytes: seq<byte>, i: nat)
    requires HeapOk(w, multiset{}) && Ranked(w, rank) && Room(w, m, |bytes|) && MsgOk(w, w.msgs[m], chain) && i < |chain|
    requires forall p :: p in w.parts && p != w.msgs[m].last ==> SamePart(w, GrownPart(w, m, bytes), p)
    ensures var w', lo, hi := Grown(w, m, bytes), w.msgs[m].firstOffset, w.msgs[m].lastOffset;
            && Bounded(w', chain[i]) && (i < |chain| - 1 ==> w'.parts[chain[i]].next == chain[i + 1])
            && Piece(w', chain, lo, hi + |bytes|, i)
               == if i < |chain| - 1 then Piece(w, chain, lo, hi, i) else Piece(w, chain, lo, hi, i) + bytes
  {
    var w1, last := GrownPart(w, m, bytes), w.msgs[m].last;
    ChainDistinct(w, rank, multiset{}, w.msgs[m], chain);
    assert Bounded(w, chain[i]) && Bounded(w, chain[0]);
    if i < |chain| - 1 {
      assert SamePart(w, w1, chain[i]);
    } else {
      PatchSlice(w.bufs[w.parts[last].buf].data, Start(w, chain, w.msgs[m].firstOffset, i), w.msgs[m].lastOffset, bytes);
    }
  }

  lemma PatchSlice(data: seq<byte>, from: int, at: int, bytes: seq<byte>)
    requires 0 <= from <= at && at + |bytes| <= |data|
    ensures Patch(data, at, bytes)[from..at + |bytes|] == data[from..at] + bytes
  {
  }

  lemma GrownMsg(w: World, rank: map<nat, nat>, m: nat, chain: seq<nat>, bytes: seq<byte>)
    requires HeapOk(w, multiset{}) && Ranked(w, rank) && Room(w, m, |bytes|) && MsgOk(w, w.msgs[m], chain)
    requires forall p :: p in w.parts && p != w.msgs[m].last ==> SamePart(w, GrownPart(w, m, bytes), p)
    ensures var w', raw' := Grown(w, m, bytes), Longer(w.msgs[m], |bytes|);
            && MsgOk(w', raw', chain) && OpenEnd(w', raw')
            && MsgBytes(w', raw', chain) == MsgBytes(w, w.msgs[m], chain) + bytes
  {
    var raw, raw', w' := w.msgs[m], Longer(w.msgs[m], |bytes|), Grown(w, m, bytes);
    var pieces, now := Pieces(w, chain, raw.firstOffset, raw.lastOffset), Pieces(w', chain, raw.firstOffset, raw'.lastOffset);
    forall i: nat | i < |chain|
      ensures Bounded(w', chain[i]) && (i < |chain| - 1 ==> w'.parts[chain[i]].next == chain[i + 1])
      ensures now[i] == if i < |chain| - 1 then pieces[i] else pieces[i] + bytes
    {
      GrownPiece(w, rank, m, chain, bytes, i);
    }
    LongerConcat(pieces, now, bytes);
    assert Bounded(w, chain[0]) && Bounded(w', chain[0]);
  }

  lemma ConcatLonger(xs: seq<seq<byte>>, x: seq<byte>, y: seq<byte>)
    ensures Concat(xs + [x + y]) == Concat(xs + [x]) + y
  {
    ConcatAppend(xs, [x]);
    ConcatAppend(xs, [x + y]);
    ConcatOne(x);
    ConcatOne(x + y);
    Assoc(Concat(xs), x, y);
  }

  lemma LongerConcat(pieces: seq<seq<byte>>, now: seq<seq<byte>>, bytes: seq<byte>)
    requires |now| == |pieces| > 0
    requires forall i: nat :: i < |pieces| - 1 ==> now[i] == pieces[i]
    requires now[|pieces| - 1] == pieces[|pieces| - 1] + bytes
    ensures Concat(now) == Concat(pieces) + bytes
  {
    var n := |pieces| - 1;
    assert pieces[..n] + [pieces[n]] == pieces;
    assert pieces[..n] + [pieces[n] + bytes] == now;
    ConcatLonger(pieces[..n], pieces[n], bytes);
  }

  /** A message in the middle of rwm_push_data: it has got `done` so far. */
  ghost predicate Pushing(s0: State, s: State, m: nat, L: set<nat>, done: seq<byte>) {
    && Sound(s.w, s.chains, s.rank, multiset{}) && LocksOk(s.w, s.chains, {}, L) && In(s0, m) && In(s, m)
    && Others(s0, s, {m}) && ViewOf(s, m) == ViewOf(s0, m) + done
    && s.w.msgs[m].first != 0 && OpenEnd(s.w, s.w.msgs[m]) && s.w.msgs.Keys == s0.w.msgs.Keys
  }

  lemma PushMore(s0: State, s: State, s': State, m: nat, L: set<nat>, done: seq<byte>, bytes: seq<byte>)
    requires Pushing(s0, s, m, L, done) && In(s', m) && s'.w.msgs[m].first != 0 && OpenEnd(s'.w, s'.w.msgs[m])
    requires Sound(s'.w, s'.chains, s'.rank, multiset{}) && LocksOk(s'.w, s'.chains, {}, L)
    requires SameBytes(s.w, s'.w, s.chains, s'.chains, {m}) && ViewOf(s', m) == ViewOf(s, m) + bytes
    requires s'.w.msgs.Keys == s.w.msgs.Keys
    ensures Pushing(s0, s', m, L, done + bytes)
  {
    Assoc(ViewOf(s0, m), done, bytes);
    OthersOnward(s0, s, s', {m});
  }

  lemma GrownOn(w: World, chains: map<nat, seq<nat>>, rank: map<nat, nat>, L: set<nat>, m: nat, bytes: seq<byte>)
    requires Sound(w, chains, rank, multiset{}) && LocksOk(w, chains, {}, L) && Room(w, m, |bytes|)
    ensures var w' := Grown(w, m, bytes);
            && Sound(w', chains, rank, multiset{}) && LocksOk(w', chains, {}, L) && SameBytes(w, w', chains, chains, {m})
            && MsgBytes(w', w'.msgs[m], chains[m]) == MsgBytes(w, w.msgs[m], chains[m]) + bytes && OpenEnd(w', w'.msgs[m])
  {
    var w1 := GrownPart(w, m, bytes);
    GrownHeap(w, rank, m, bytes);
    GrownMsg(w, rank, m, chains[m], bytes);
    ZeroNotPart(w);
    FrameGrows(w, w1, chains, {m}, w.msgs[m].last);
    GrownKept(w, w1, chains, m, Longer(w.msgs[m], |bytes|));
    LocksStay(w, Grown(w, m, bytes), chains, {}, L);
  }

  lemma GrownOk(s0: State, s: State, m: nat, L: set<nat>, done: seq<byte>, bytes: seq<byte>)
    requires Pushing(s0, s, m, L, done) && Room(s.w, m, |bytes|)
    ensures Pushing(s0, s.(w := Grown(s.w, m, bytes)), m, L, done + bytes)
  {
    GrownOn(s.w, s.chains, s.rank, L, m, bytes);
    KeysSet(GrownPart(s.w, m, bytes), m, Longer(s.w.msgs[m], |bytes|));
    PushMore(s0, s, s.(w := Grown(s.w, m, bytes)), m, L, done, bytes);
  }

  lemma ZeroNotPart(w: World)
    requires HeapOk(w, multiset{})
    ensures 0 !in w.parts
  {
    assert 0 in w.parts ==> PartOk(w, multiset{}, 0);
  }

  /** The other messages when the structure of m is updated last. */
  lemma GrownKept(w: World, w1: World, chains: map<nat, seq<nat>>, m: nat, raw: Raw)
    requires SameBytes(w, w1, chains, chains, {m}) && MsgsOk(w1, chains, {m})
    requires m in chains && w1.msgs == w.msgs && MsgOk(SetMsg(w1, m, raw), raw, chains[m])
    ensures MsgsOk(SetMsg(w1, m, raw), chains, {}) && SameBytes(w, SetMsg(w1, m, raw), chains, chains, {m})
  {
    var w' := SetMsg(w1, m, raw);
    forall k | k in w1.msgs && k != m
      ensures MsgOk(w', w1.msgs[k], chains[k])
      ensures MsgBytes(w', w1.msgs[k], chains[k]) == MsgBytes(w1, w1.msgs[k], chains[k])
    {
      SameMem(w1, w', w1.msgs[k], chains[k]);
    }
  }

  // ----- behind the last byte, in a new part -----

  lemma ShiftOk(w: World, rank: map<nat, nat>)
    requires Ranked(w, rank)
    ensures Ranked(w, Shifted(rank))
  {
    var shifted := Shifted(rank);
    forall p | p in w.parts
      ensures p in shifted && (w.parts[p].next != 0 ==> w.parts[p].next in shifted && shifted[w.parts[p].next] < shifted[p])
    {
      assert p in rank;
    }
  }

  /** A new part p with its own buffer b holds n bytes of data and follows the last part of m. */
  function Appended(w: World, m: nat, p: nat, b: nat, data: seq<byte>, n: int): World
    requires m in w.msgs && w.msgs[m].last in w.parts
  {
    SetNext(AddPart(w, p, Part(1, false, 0, b, 0, n), data), w.msgs[m].last, p)
  }

  lemma AppendedOk(w: World, chains: map<nat, seq<nat>>, rank: map<nat, nat>, L: set<nat>, m: nat, p: nat, b: nat, data: seq<byte>, n: int)
    requires Sound(w, chains, rank, multiset{}) && LocksOk(w, chains, {}, L) && m in w.msgs && w.msgs[m].last in w.parts
    requires w.msgs[m].first != 0 && OpenEnd(w, w.msgs[m]) && p != 0 && p !in w.parts && b !in w.bufs && 0 <= n <= |data|
    ensures var w' := Appended(w, m, p, b, data, n);
            && Sound(w', chains, Shifted(rank)[p := 0], multiset{}) && LocksOk(w', chains, {}, L)
            && SameBytes(w, w', chains, chains, {}) && w'.msgs == w.msgs
            && p in w'.parts && w'.parts[p] == Part(1, false, 0, b, 0, n) && b in w'.bufs && w'.bufs[b].data == data
            && w'.parts[w.msgs[m].last] == w.parts[w.msgs[m].last].(next := p)
  {
    var part, last := Part(1, false, 0, b, 0, n), w.msgs[m].last;
    var w1, w', rank' := AddPart(w, p, part, data), Appended(w, m, p, b, data, n), Shifted(rank)[p := 0];
    ShiftOk(w, rank);
    AddAway(w, chains, Shifted(rank), multiset{}, {}, L, p, part, data, 0);
    assert multiset{} + Tok(p) == Tok(p);
    AppendedLink(w1, chains, rank', L, last, p);
  }

  lemma AppendedLink(w: World, chains: map<nat, seq<nat>>, rank: map<nat, nat>, L: set<nat>, last: nat, p: nat)
    requires Sound(w, chains, rank, Tok(p)) && LocksOk(w, chains, {}, L) && p in w.parts && last in w.parts && p != 0
    requires w.parts[last].next == 0 && rank[p] < rank[last]
    ensures var w' := SetNext(w, last, p);
            Sound(w', chains, rank, multiset{}) && LocksOk(w', chains, {}, L) && SameBytes(w, w', chains, chains, {})
  {
    var w' := SetNext(w, last, p);
    SetNextOk(w, Tok(p), last, p);
    assert Tok(p) - Tok(p) + Tok(0) == multiset{};
    ZeroNotPart(w');
    assert PartOk(w, Tok(p), last);
    FrameGrows(w, w', chains, {}, last);
    LocksStay(w, w', chains, {}, L);
  }

  function Continued(raw: Raw, p: nat, n: int): Raw {
    raw.(last := p, lastOffset := n, total := raw.total + n)
  }

  lemma AppendedMsg(w: World, raw: Raw, chain: seq<nat>, p: nat, b: nat, data: seq<byte>, n: int)
    requires MsgOk(w, raw, chain) && raw.first != 0 && raw.last in w.parts && p in w.parts && p != 0
    requires w.parts[p] == Part(1, false, 0, b, 0, n) && b in w.bufs && w.bufs[b].data == data && 0 <= n <= |data|
    requires w.parts[raw.last].next == p && w.parts[raw.last].dataEnd == raw.lastOffset
    ensures MsgOk(w, Continued(raw, p, n), chain + [p]) && OpenEnd(w, Continued(raw, p, n))
    ensures MsgBytes(w, Continued(raw, p, n), chain + [p]) == MsgBytes(w, raw, chain) + data[..n]
  {
    assert Bounded(w, p);
    PathBytes(w, [p], 0, n);
    Join(w, chain, [p], raw.firstOffset, raw.lastOffset, 0, n);
  }

  lemma AppendedOn(w: World, chains: map<nat, seq<nat>>, rank: map<nat, nat>, L: set<nat>, m: nat, p: nat, b: nat, data: seq<byte>, n: int)
    requires Sound(w, chains, rank, multiset{}) && LocksOk(w, chains, {}, L) && m in w.msgs && w.msgs[m].last in w.parts
    requires w.msgs[m].first != 0 && OpenEnd(w, w.msgs[m]) && p != 0 && p !in w.parts && b !in w.bufs && 0 <= n <= |data|
    ensures var w', chains' := SetMsg(Appended(w, m, p, b, data, n), m, Continued(w.msgs[m], p, n)), chains[m := chains[m] + [p]];
            && Sound(w', chains', Shifted(rank)[p := 0], multiset{}) && LocksOk(w', chains', {}, L)
            && SameBytes(w, w', chains, chains', {m}) && OpenEnd(w', w'.msgs[m])
            && MsgBytes(w', w'.msgs[m], chains'[m]) == MsgBytes(w, w.msgs[m], chains[m]) + data[..n]
  {
    var raw, chain := w.msgs[m], chains[m];
    AppendedOk(w, chains, rank, L, m, p, b, data, n);
    var w1 := Appended(w, m, p, b, data, n);
    AppendedMsg(w1, raw, chain, p, b, data, n);
    SetRangeOk(w1, multiset{}, m, Continued(raw, p, n));
    MsgsWith(w1, chains, m, Continued(raw, p, n), chain + [p]);
    LocksLonger(w1, chains, {}, L, m, Continued(raw, p, n), [p]);
  }

  lemma AppendedDone(s0: State, s: State, m: nat, L: set<nat>, done: seq<byte>, p: nat, b: nat, data: seq<byte>, n: int)
    requires Pushing(s0, s, m, L, done) && p != 0 && p !in s.w.parts && b !in s.w.bufs && 0 <= n <= |data|
    ensures s.w.msgs[m].last in s.w.parts
    ensures Pushing(s0, s.(w := SetMsg(Appended(s.w, m, p, b, data, n), m, Continued(s.w.msgs[m], p, n)),
                           chains := s.chains[m := s.chains[m] + [p]], rank := Shifted(s.rank)[p := 0]), m, L, done + data[..n])
  {
    LastIsPart(s.w, s.chains, s.rank, multiset{}, m);
    AppendedOn(s.w, s.chains, s.rank, L, m, p, b, data, n);
    KeysSet(Appended(s.w, m, p, b, data, n), m, Continued(s.w.msgs[m], p, n));
    PushMore(s0, s, s.(w := SetMsg(Appended(s.w, m, p, b, data, n), m, Continued(s.w.msgs[m], p, n)),
                       chains := s.chains[m := s.chains[m] + [p]], rank := Shifted(s.rank)[p := 0]), m, L, done, data[..n]);
  }

  lemma LocksLonger(w: World, chains: map<nat, seq<nat>>, X: set<nat>, L: set<nat>, m: nat, raw: Raw, more: seq<nat>)
    requires LocksOk(w, chains, X, L) && m in w.msgs && m in chains
    ensures LocksOk(SetMsg(w, m, raw), chains[m := chains[m] + more], X, L)
  {
    var chains' := chains[m := chains[m] + more];
    forall l | l in L ensures OnChain(SetMsg(w, m, raw), chains', X, l) {
      assert OnChain(w, chains, X, l);
      var k: nat, i: nat :| k in w.msgs && k !in X && k in chains && i < |chains[k]| && chains[k][i] == l;
      assert chains'[k][i] == l;
    }
  }

  // ----- the first part of an empty message -----

  function FirstRaw(p: nat, offset: int, n: int): Raw {
    Raw(p, p, n, offset, offset + n)
  }

  function Begun(w: World, m: nat, p: nat, b: nat, data: seq<byte>, offset: int, n: int): World {
    SetMsg(AddPart(w, p, Part(1, false, 0, b, offset, offset + n), data), m, FirstRaw(p, offset, n))
  }

  lemma BegunOn(w: World, chains: map<nat, seq<nat>>, rank: map<nat, nat>, m: nat, p: nat, b: nat, data: seq<byte>, offset: int, n: int)
    requires Sound(w, chains, rank, multiset{}) && LocksOk(w, chains, {}, {}) && m in w.msgs && w.msgs[m].first == 0
    requires p != 0 && p !in w.parts && b !in w.bufs && 0 <= offset && 0 <= n && offset + n <= |data|
    ensures var w', chains' := Begun(w, m, p, b, data, offset, n), chains[m := [p]];
            && Sound(w', chains', rank[p := 0], multiset{}) && LocksOk(w', chains', {}, {})
            && SameBytes(w, w', chains, chains', {m}) && OpenEnd(w', w'.msgs[m])
            && MsgBytes(w', w'.msgs[m], [p]) == data[offset..offset + n]
            && p in w'.parts && w'.parts[p].offset == offset
  {
    var part, raw := Part(1, false, 0, b, offset, offset + n), FirstRaw(p, offset, n);
    var w1 := AddPart(w, p, part, data);
    AddAway(w, chains, rank, multiset{}, {}, {}, p, part, data, 0);
    BegunPart(w1, p, b, data, offset, n);
    BegunSet(w1, chains, rank[p := 0], m, raw, p);
    BegunKept(w, w1, chains, m, raw, [p]);
    BegunShape(w, m, p, b, data, offset, n);
  }

  lemma BegunPart(w1: World, p: nat, b: nat, data: seq<byte>, offset: int, n: int)
    requires p != 0 && p in w1.parts && w1.parts[p] == Part(1, false, 0, b, offset, offset + n)
    requires b in w1.bufs && w1.bufs[b].data == data && 0 <= offset && 0 <= n && offset + n <= |data|
    ensures MsgOk(w1, FirstRaw(p, offset, n), [p]) && MsgBytes(w1, FirstRaw(p, offset, n), [p]) == data[offset..offset + n]
  {
    assert Bounded(w1, p);
    PathBytes(w1, [p], offset, offset + n);
  }

  lemma BegunSet(w1: World, chains: map<nat, seq<nat>>, rank: map<nat, nat>, m: nat, raw: Raw, p: nat)
    requires Sound(w1, chains, rank, multiset{} + Tok(p)) && LocksOk(w1, chains, {}, {}) && MsgOk(w1, raw, [p])
    requires raw.first == p != 0 && m in w1.msgs && w1.msgs[m].first == 0
    ensures var w', chains' := SetMsg(w1, m, raw), chains[m := [p]];
            && Sound(w', chains', rank, multiset{}) && LocksOk(w', chains', {}, {})
            && SameBytes(w1, w', chains, chains', {m}) && MsgBytes(w', raw, [p]) == MsgBytes(w1, raw, [p])
  {
    Retarget(w1, chains, rank, multiset{}, {}, m, raw, [p]);
    Plus(multiset{});
  }

  lemma BegunShape(w: World, m: nat, p: nat, b: nat, data: seq<byte>, offset: int, n: int)
    ensures var w' := Begun(w, m, p, b, data, offset, n);
            && m in w'.msgs && w'.msgs[m] == FirstRaw(p, offset, n) && OpenEnd(w', w'.msgs[m])
            && p in w'.parts && w'.parts[p].offset == offset
  {
  }

  lemma BegunKept(w: World, w1: World, chains: map<nat, seq<nat>>, m: nat, raw: Raw, chain: seq<nat>)
    requires SameBytes(w, w1, chains, chains, {}) && SameBytes(w1, SetMsg(w1, m, raw), chains, chains[m := chain], {m})
    ensures SameBytes(w, SetMsg(w1, m, raw), chains, chains[m := chain], {m})
  {
  }

  lemma PushStart(s0: State, s: State, m: nat, L: set<nat>, done: seq<byte>)
    requires Sound(s.w, s.chains, s.rank, multiset{}) && LocksOk(s.w, s.chains, {}, L) && In(s0, m) && In(s, m)
    requires Others(s0, s, {m}) && ViewOf(s, m) == ViewOf(s0, m) + done && s.w.msgs[m].first != 0 && OpenEnd(s.w, s.w.msgs[m])
    requires s.w.msgs.Keys == s0.w.msgs.Keys
    ensures Pushing(s0, s, m, L, done)
  {
  }

  lemma EmptyView(s: State, m: nat)
    requires Good(s) && In(s, m) && s.w.msgs[m].first == 0
    ensures ViewOf(s, m) == [] && forall x: seq<byte> :: x + ViewOf(s, m) == x && ViewOf(s, m) + x == x
  {
  }

  /** The first part of an empty message. */
  lemma BegunOk(s: State, m: nat, p: nat, b: nat, data: seq<byte>, offset: int, n: int)
    requires Good(s) && In(s, m) && s.w.msgs[m].first == 0
    requires p != 0 && p !in s.w.parts && b !in s.w.bufs && 0 <= offset && 0 <= n && offset + n <= |data|
    ensures Pushing(s, s.(w := Begun(s.w, m, p, b, data, offset, n), chains := s.chains[m := [p]], rank := s.rank[p := 0]),
                    m, {}, data[offset..offset + n])
  {
    BegunOn(s.w, s.chains, s.rank, m, p, b, data, offset, n);
    KeysSet(s.w, m, FirstRaw(p, offset, n));
    EmptyView(s, m);
    PushStart(s, s.(w := Begun(s.w, m, p, b, data, offset, n), chains := s.chains[m := [p]], rank := s.rank[p := 0]), m, {},
              data[offset..offset + n]);
  }

  lemma PatchIs(data: seq<byte>, at: int, bytes: seq<byte>)
    requires 0 <= at && at + |bytes| <= |data|
    ensures Patch(data, at, bytes)[at..at + |bytes|] == bytes
  {
  }

  lemma PatchEnd(data: seq<byte>, at: int, bytes: seq<byte>)
    requires 0 <= at && at + |bytes| == |data|
    ensures Patch(data, at, bytes)[at..] == bytes
  {
  }

  lemma Prefixes(bytes: seq<byte>, at: int, n: int)
    requires 0 <= at && 0 <= n && at + n <= |bytes|
    ensures bytes[..at] + bytes[at..][..n] == bytes[..at + n] && bytes[..|bytes|] == bytes && bytes[..at] + bytes[at..] == bytes
  {
  }

  lemma PushedOn(whole: seq<byte>, done: seq<byte>, rest: seq<byte>, n: int)
    requires done + rest == whole && 0 <= n <= |rest|
    ensures done + rest[..n] + rest[n..] == whole
  {
    assert rest[..n] + rest[n..] == rest;
    Assoc(done, rest[..n], rest[n..]);
  }

  lemma Suffixes(bytes: seq<byte>, left: int, n: int)
    requires 0 <= n <= left <= |bytes|
    ensures bytes[..left][left - n..] + bytes[left..] == bytes[left - n..] && bytes[0..] == bytes
  {
  }

  /** Unlocking the part that was locked for a push ends it. */
  lemma PushEnd(s0: State, s: State, m: nat, locked: nat, done: seq<byte>)
    requires Pushing(s0, s, m, {locked}, done)
    ensures locked in s.w.parts
    ensures var s' := s.(w := SetLock(s.w, locked, false));
            && Good(s') && In(s', m) && Others(s0, s', {m}) && ViewOf(s', m) == ViewOf(s0, m) + done
            && s'.w.msgs == s.w.msgs
  {
    LockOk(s.w, s.chains, s.rank, multiset{}, locked, false);
    assert {} + {locked} == {locked};
    LocksMinus(s.w, s.chains, {}, {}, locked);
  }

  // ----- before the first byte, in place -----

  /** m alone refers to its first part, which has its buffer for itself, and there is room before it. */
  ghost predicate FrontRoom(w: World, m: nat, n: int) {
    && m in w.msgs && w.msgs[m].first in w.parts && w.parts[w.msgs[m].first].buf in w.bufs
    && (var raw := w.msgs[m];
        var part := w.parts[raw.first];
        && raw.first != 0 && part.refcnt == 1 && w.bufs[part.buf].refcnt == 1
        && part.offset == raw.firstOffset && 0 <= n <= raw.firstOffset <= |w.bufs[part.buf].data|)
  }

  function FrontPart(w: World, m: nat, bytes: seq<byte>): World
    requires FrontRoom(w, m, |bytes|)
  {
    var raw := w.msgs[m];
    var part := w.parts[raw.first];
    SetPart(w, raw.first, part.(offset := raw.firstOffset - |bytes|),
            Patch(w.bufs[part.buf].data, raw.firstOffset - |bytes|, bytes))
  }

  function Earlier(raw: Raw, n: int): Raw {
    raw.(total := raw.total + n, firstOffset := raw.firstOffset - n)
  }

  function FrontGrown(w: World, m: nat, bytes: seq<byte>): World
    requires FrontRoom(w, m, |bytes|)
  {
    SetMsg(FrontPart(w, m, bytes), m, Earlier(w.msgs[m], |bytes|))
  }

  lemma FrontHeap(w: World, rank: map<nat, nat>, m: nat, bytes: seq<byte>)
    requires HeapOk(w, multiset{}) && Ranked(w, rank) && FrontRoom(w, m, |bytes|)
    ensures HeapOk(FrontGrown(w, m, bytes), multiset{}) && Ranked(FrontGrown(w, m, bytes), rank)
    ensures forall p :: p in w.parts && p != w.msgs[m].first ==> SamePart(w, FrontPart(w, m, bytes), p)
  {
    var raw := w.msgs[m];
    var part := w.parts[raw.first];
    var w1 := FrontPart(w, m, bytes);
    assert PartOk(w, multiset{}, raw.first);
    SetPartOk(w, multiset{}, multiset{}, raw.first, part.(offset := raw.firstOffset - |bytes|),
              Patch(w.bufs[part.buf].data, raw.firstOffset - |bytes|, bytes));
    SetRangeOk(w1, multiset{}, m, Earlier(raw, |bytes|));
    forall p | p in w.parts && p != raw.first ensures SamePart(w, w1, p) {
      if w.parts[p].buf == part.buf { AnotherUser(w, multiset{}, raw.first, p); }
    }
  }

  lemma FrontSlice(data: seq<byte>, at: int, to: int, bytes: seq<byte>)
    requires 0 <= at && at + |bytes| <= to <= |data|
    ensures Patch(data, at, bytes)[at..to] == bytes + data[at + |bytes|..to]
  {
  }

  lemma FrontPiece(w: World, rank: map<nat, nat>, m: nat, chain: seq<nat>, bytes: seq<byte>, i: nat)
    requires HeapOk(w, multiset{}) && Ranked(w, rank) && FrontRoom(w, m, |bytes|) && MsgOk(w, w.msgs[m], chain) && i < |chain|
    requires forall p :: p in w.parts && p != w.msgs[m].first ==> SamePart(w, FrontPart(w, m, bytes), p)
    ensures var w', lo, hi := FrontGrown(w, m, bytes), w.msgs[m].firstOffset, w.msgs[m].lastOffset;
            && Bounded(w', chain[i]) && (i < |chain| - 1 ==> w'.parts[chain[i]].next == chain[i + 1])
            && Piece(w', chain, lo - |bytes|, hi, i)
               == if i > 0 then Piece(w, chain, lo, hi, i) else bytes + Piece(w, chain, lo, hi, i)
  {
    var raw := w.msgs[m];
    ChainDistinct(w, rank, multiset{}, raw, chain);
    assert Bounded(w, chain[i]) && Bounded(w, chain[|chain| - 1]);
    if i > 0 {
      assert SamePart(w, FrontPart(w, m, bytes), chain[i]);
    } else {
      FrontSlice(w.bufs[w.parts[raw.first].buf].data, raw.firstOffset - |bytes|, End(w, chain, raw.lastOffset, 0), bytes);
    }
  }

  lemma FrontConcat(pieces: seq<seq<byte>>, now: seq<seq<byte>>, bytes: seq<byte>)
    requires |now| == |pieces| > 0
    requires forall i: nat :: 0 < i < |pieces| ==> now[i] == pieces[i]
    requires now[0] == bytes + pieces[0]
    ensures Concat(now) == bytes + Concat(pieces)
  {
    assert now[1..] == pieces[1..];
    Assoc(bytes, pieces[0], Concat(pieces[1..]));
  }

  lemma FrontMsg(w: World, rank: map<nat, nat>, m: nat, chain: seq<nat>, bytes: seq<byte>)
    requires HeapOk(w, multiset{}) && Ranked(w, rank) && FrontRoom(w, m, |bytes|) && MsgOk(w, w.msgs[m], chain)
    requires forall p :: p in w.parts && p != w.msgs[m].first ==> SamePart(w, FrontPart(w, m, bytes), p)
    ensures var w', raw' := FrontGrown(w, m, bytes), Earlier(w.msgs[m], |bytes|);
            MsgOk(w', raw', chain) && MsgBytes(w', raw', chain) == bytes + MsgBytes(w, w.msgs[m], chain)
  {
    var raw, raw', w' := w.msgs[m], Earlier(w.msgs[m], |bytes|), FrontGrown(w, m, bytes);
    var pieces, now := Pieces(w, chain, raw.firstOffset, raw.lastOffset), Pieces(w', chain, raw'.firstOffset, raw.lastOffset);
    forall i: nat | i < |chain|
      ensures Bounded(w', chain[i]) && (i < |chain| - 1 ==> w'.parts[chain[i]].next == chain[i + 1])
      ensures now[i] == if i > 0 then pieces[i] else bytes + pieces[i]
    {
      FrontPiece(w, rank, m, chain, bytes, i);
    }
    FrontConcat(pieces, now, bytes);
    assert Bounded(w, chain[|chain| - 1]) && Bounded(w', chain[|chain| - 1]) && Bounded(w', chain[0]);
  }

  lemma FrontOn(w: World, chains: map<nat, seq<nat>>, rank: map<nat, nat>, m: nat, bytes: seq<byte>)
    requires Sound(w, chains, rank, multiset{}) && LocksOk(w, chains, {}, {}) && FrontRoom(w, m, |bytes|)
    ensures var w' := FrontGrown(w, m, bytes);
            && Sound(w', chains, rank, multiset{}) && LocksOk(w', chains, {}, {}) && SameBytes(w, w', chains, chains, {m})
            && MsgBytes(w', w'.msgs[m], chains[m]) == bytes + MsgBytes(w, w.msgs[m], chains[m])
  {
    var w1, first := FrontPart(w, m, bytes), w.msgs[m].first;
    FrontHeap(w, rank, m, bytes);
    FrontMsg(w, rank, m, chains[m], bytes);
    assert Sole(w, chains[m][..1]);
    SoleAway(w, chains, rank, multiset{}, m, 1);
    FrameAway(w, w1, chains, {m}, {first});
    GrownKept(w, w1, chains, m, Earlier(w.msgs[m], |bytes|));
    LocksStay(w, FrontGrown(w, m, bytes), chains, {}, {});
  }

  // ----- before the first byte, in a new part -----

  /** A new part p whose buffer b is filled to its end comes before the first part of m. */
  function Prefixed(w: World, m: nat, p: nat, b: nat, data: seq<byte>, offset: int): World
    requires m in w.msgs
  {
    var raw := w.msgs[m];
    SetNext(SetMsg(AddPart(w, p, Part(1, false, 0, b, offset, |data|), data), m, Preceded(raw, p, offset, |data| - offset)), p, raw.first)
  }

  function Preceded(raw: Raw, p: nat, offset: int, n: int): Raw {
    raw.(first := p, firstOffset := offset, total := raw.total + n)
  }

  lemma PrefixedHeap(w: World, rank: map<nat, nat>, m: nat, p: nat, b: nat, data: seq<byte>, offset: int)
    requires HeapOk(w, multiset{}) && Ranked(w, rank) && m in w.msgs && w.msgs[m].first != 0 && w.msgs[m].first in rank
    requires p != 0 && p !in w.parts && b !in w.bufs && 0 <= offset <= |data|
    ensures HeapOk(Prefixed(w, m, p, b, data, offset), multiset{})
    ensures Ranked(Prefixed(w, m, p, b, data, offset), rank[p := rank[w.msgs[m].first] + 1])
  {
    var raw, part := w.msgs[m], Part(1, false, 0, b, offset, |data|);
    var w1 := AddPart(w, p, part, data);
    var w2 := SetMsg(w1, m, Preceded(raw, p, offset, |data| - offset));
    AddPartOk(w, multiset{}, p, part, data);
    SetMsgOk(w1, multiset{} + Tok(p), m, Preceded(raw, p, offset, |data| - offset));
    assert multiset{} + Tok(p) - Tok(p) + Tok(raw.first) == Tok(raw.first);
    SetNextOk(w2, Tok(raw.first), p, raw.first);
    assert Tok(raw.first) - Tok(raw.first) + Tok(0) == multiset{};
    forall q | q in w.parts ensures w.parts[q].next != p {
      assert PartOk(w, multiset{}, q);
    }
  }

  lemma PrefixedMsg(w: World, held: multiset<nat>, m: nat, chain: seq<nat>, p: nat, b: nat, data: seq<byte>, offset: int)
    requires HeapOk(w, held) && m in w.msgs && MsgOk(w, w.msgs[m], chain) && w.msgs[m].first != 0
    requires w.msgs[m].first in w.parts && w.parts[w.msgs[m].first].offset == w.msgs[m].firstOffset
    requires p != 0 && p !in w.parts && b !in w.bufs && 0 <= offset <= |data|
    ensures var w', raw' := Prefixed(w, m, p, b, data, offset), Preceded(w.msgs[m], p, offset, |data| - offset);
            && MsgOk(w', raw', [p] + chain) && MsgBytes(w', raw', [p] + chain) == data[offset..] + MsgBytes(w, w.msgs[m], chain)
            && p in w'.parts && w'.parts[p].offset == offset && forall q :: q in w.parts ==> SamePart(w, w', q)
  {
    var w', raw := Prefixed(w, m, p, b, data, offset), w.msgs[m];
    CountsOnly(w, w', raw, chain);
    assert Bounded(w', p);
    PathBytes(w', [p], offset, |data|);
    Join(w', [p], chain, offset, |data|, raw.firstOffset, raw.lastOffset);
  }

  lemma PrefixedOn(w: World, chains: map<nat, seq<nat>>, rank: map<nat, nat>, m: nat, p: nat, b: nat, data: seq<byte>, offset: int)
    requires Sound(w, chains, rank, multiset{}) && LocksOk(w, chains, {}, {}) && m in w.msgs && w.msgs[m].first != 0
    requires w.msgs[m].first in w.parts && w.parts[w.msgs[m].first].offset == w.msgs[m].firstOffset
    requires p != 0 && p !in w.parts && b !in w.bufs && 0 <= offset <= |data|
    ensures w.msgs[m].first in rank
    ensures var w', chains' := Prefixed(w, m, p, b, data, offset), chains[m := [p] + chains[m]];
            && Sound(w', chains', rank[p := rank[w.msgs[m].first] + 1], multiset{}) && LocksOk(w', chains', {}, {})
            && SameBytes(w, w', chains, chains', {m})
            && MsgBytes(w', w'.msgs[m], chains'[m]) == data[offset..] + MsgBytes(w, w.msgs[m], chains[m])
            && p in w'.parts && w'.parts[p].offset == offset
  {
    PrefixedHeap(w, rank, m, p, b, data, offset);
    PrefixedMsg(w, multiset{}, m, chains[m], p, b, data, offset);
    FrameAway(w, Prefixed(w, m, p, b, data, offset), chains, {m}, {});
    MsgsBack(w, Prefixed(w, m, p, b, data, offset), chains, m, [p] + chains[m]);
  }

  /** A message in the middle of rwm_push_data_front: it has got `done`, and starts where its first part does. */
  ghost predicate Fronting(s0: State, s: State, m: nat, done: seq<byte>) {
    && Good(s) && In(s0, m) && In(s, m) && Others(s0, s, {m}) && ViewOf(s, m) == done + ViewOf(s0, m)
    && (s.w.msgs[m].first != 0 ==>
          s.w.msgs[m].first in s.w.parts && s.w.parts[s.w.msgs[m].first].offset == s.w.msgs[m].firstOffset)
    && s.w.msgs.Keys == s0.w.msgs.Keys
  }

  lemma FrontMore(s0: State, s: State, s': State, m: nat, done: seq<byte>, bytes: seq<byte>)
    requires Fronting(s0, s, m, done) && In(s', m) && s'.w.msgs[m].first in s'.w.parts
    requires s'.w.parts[s'.w.msgs[m].first].offset == s'.w.msgs[m].firstOffset
    requires Sound(s'.w, s'.chains, s'.rank, multiset{}) && LocksOk(s'.w, s'.chains, {}, {})
    requires SameBytes(s.w, s'.w, s.chains, s'.chains, {m}) && ViewOf(s', m) == bytes + ViewOf(s, m)
    requires s'.w.msgs.Keys == s.w.msgs.Keys
    ensures Fronting(s0, s', m, bytes + done)
  {
    Assoc(bytes, done, ViewOf(s0, m));
    OthersOnward(s0, s, s', {m});
  }

  lemma FrontInPlace(s0: State, s: State, m: nat, done: seq<byte>, bytes: seq<byte>)
    requires Fronting(s0, s, m, done) && FrontRoom(s.w, m, |bytes|)
    ensures Fronting(s0, s.(w := FrontGrown(s.w, m, bytes)), m, bytes + done)
  {
    FrontOn(s.w, s.chains, s.rank, m, bytes);
    KeysSet(FrontPart(s.w, m, bytes), m, Earlier(s.w.msgs[m], |bytes|));
    FrontMore(s0, s, s.(w := FrontGrown(s.w, m, bytes)), m, done, bytes);
  }

  lemma FrontNothing(s: State, m: nat, bytes: seq<byte>)
    requires Fronting(s, s, m, [])
    ensures Fronting(s, s, m, bytes[|bytes|..])
  {
    assert bytes[|bytes|..] == [];
  }

  lemma FrontFilled(s: State, m: nat, bytes: seq<byte>)
    requires Fronting(s, s, m, []) && FrontRoom(s.w, m, |bytes|)
    ensures Fronting(s, s.(w := FrontGrown(s.w, m, bytes)), m, bytes)
  {
    FrontInPlace(s, s, m, [], bytes);
    assert bytes + [] == bytes;
  }

  /** The state with a new first part. */
  function WithFront(s: State, m: nat, p: nat, b: nat, data: seq<byte>, offset: int): State
    requires In(s, m) && s.w.msgs[m].first in s.rank
  {
    s.(w := Prefixed(s.w, m, p, b, data, offset), chains := s.chains[m := [p] + s.chains[m]],
       rank := s.rank[p := s.rank[s.w.msgs[m].first] + 1])
  }

  lemma FrontInPart(s0: State, s: State, m: nat, done: seq<byte>, p: nat, b: nat, data: seq<byte>, offset: int, bytes: seq<byte>)
    requires Fronting(s0, s, m, done) && s.w.msgs[m].first != 0
    requires p != 0 && p !in s.w.parts && b !in s.w.bufs && 0 <= offset <= |data| && data[offset..] == bytes
    ensures s.w.msgs[m].first in s.rank
    ensures Fronting(s0, WithFront(s, m, p, b, data, offset), m, bytes + done)
  {
    FrontedOn(s, m, p, b, data, offset);
    FrontMore(s0, s, WithFront(s, m, p, b, data, offset), m, done, bytes);
  }

  lemma FrontedOn(s: State, m: nat, p: nat, b: nat, data: seq<byte>, offset: int)
    requires Fronting(s, s, m, []) && s.w.msgs[m].first != 0
    requires p != 0 && p !in s.w.parts && b !in s.w.bufs && 0 <= offset <= |data|
    ensures s.w.msgs[m].first in s.rank
    ensures var s' := WithFront(s, m, p, b, data, offset);
            && In(s', m) && s'.w.msgs[m].first in s'.w.parts
            && s'.w.parts[s'.w.msgs[m].first].offset == s'.w.msgs[m].firstOffset
            && Sound(s'.w, s'.chains, s'.rank, multiset{}) && LocksOk(s'.w, s'.chains, {}, {})
            && SameBytes(s.w, s'.w, s.chains, s'.chains, {m}) && ViewOf(s', m) == data[offset..] + ViewOf(s, m)
            && s'.w.msgs.Keys == s.w.msgs.Keys
  {
    PrefixedOn(s.w, s.chains, s.rank, m, p, b, data, offset);
    KeysSet(s.w, m, Preceded(s.w.msgs[m], p, offset, |data| - offset));
  }

  lemma FrontFirst(s0: State, s: State, m: nat, done: seq<byte>, p: nat, b: nat, data: seq<byte>, offset: int, bytes: seq<byte>)
    requires Fronting(s0, s, m, done) && s.w.msgs[m].first == 0
    requires p != 0 && p !in s.w.parts && b !in s.w.bufs && 0 <= offset <= |data| && data[offset..] == bytes
    ensures Fronting(s0, s.(w := Begun(s.w, m, p, b, data, offset, |data| - offset), chains := s.chains[m := [p]],
                            rank := s.rank[p := 0]), m, bytes + done)
  {
    BegunOn(s.w, s.chains, s.rank, m, p, b, data, offset, |data| - offset);
    KeysSet(s.w, m, FirstRaw(p, offset, |data| - offset));
    EmptyView(s, m);
    FrontMore(s0, s, s.(w := Begun(s.w, m, p, b, data, offset, |data| - offset), chains := s.chains[m := [p]],
                        rank := s.rank[p := 0]), m, done, bytes);
  }

  // ----- one message behind another -----

  /** The parts on `chain` keep their rank, all others come before them. */
  function Raised(rank: map<nat, nat>, chain: seq<nat>, step: nat): map<nat, nat> {
    map q | q in rank :: if q in chain then rank[q] else rank[q] + step
  }

  lemma RaisedOk(w: World, rank: map<nat, nat>, chain: seq<nat>, last: nat)
    requires Ranked(w, rank) && chain != [] && last in w.parts && last !in chain
    requires forall i :: 0 <= i < |chain| ==> chain[i] in w.parts
    requires forall i: nat :: i < |chain| ==> w.parts[chain[i]].next == if i + 1 < |chain| then chain[i + 1] else 0
    ensures chain[0] in rank && Ranked(SetNext(w, last, chain[0]), Raised(rank, chain, rank[chain[0]] + 1))
  {
    var w', rank' := SetNext(w, last, chain[0]), Raised(rank, chain, rank[chain[0]] + 1);
    forall p | p in w'.parts
      ensures p in rank' && (w'.parts[p].next != 0 ==> w'.parts[p].next in rank' && rank'[w'.parts[p].next] < rank'[p])
    {
      var next := w.parts[p].next;
      if p in chain {
        var i: nat :| i < |chain| && chain[i] == p;
        assert next == if i + 1 < |chain| then chain[i + 1] else 0;
      }
    }
  }

  function Both(r: Raw, t: Raw): Raw {
    r.(last := t.last, lastOffset := t.lastOffset, total := r.total + t.total)
  }

  /** rwm_union: the last part of r is followed by the first one of t, which has one more reference. */
  function Joined(w: World, r: nat, t: nat): World
    requires r in w.msgs && t in w.msgs && w.msgs[t].first in w.parts && w.msgs[r].last in w.parts
  {
    SetMsg(Tied(w, w.msgs[r].last, w.msgs[t].first), r, Both(w.msgs[r], w.msgs[t]))
  }

  function Tied(w: World, last: nat, first: nat): World
    requires last in w.parts && first in w.parts
  {
    SetNext(AddRef(w, first), last, first)
  }

  /** When two messages can be joined. */
  ghost predicate Joinable(w: World, r: nat, t: nat) {
    && r in w.msgs && t in w.msgs && r != t && w.msgs[r].first != 0 && w.msgs[t].first != 0
    && w.msgs[t].first in w.parts && w.msgs[r].last in w.parts && w.msgs[r].last != w.msgs[t].last
    && OpenEnd(w, w.msgs[r]) && OpenEnd(w, w.msgs[t]) && w.parts[w.msgs[t].first].offset == w.msgs[t].firstOffset
  }

  lemma TailChain(w: World, rank: map<nat, nat>, held: multiset<nat>, raw: Raw, chain: seq<nat>, last: nat)
    requires HeapOk(w, held) && Ranked(w, rank) && MsgOk(w, raw, chain) && raw.first != 0 && OpenEnd(w, raw)
    requires last in w.parts && w.parts[last].next == 0 && last != raw.last
    ensures last !in chain && forall i :: 0 <= i < |chain| ==> chain[i] in w.parts
    ensures forall i: nat :: i < |chain| ==> w.parts[chain[i]].next == if i + 1 < |chain| then chain[i + 1] else 0
  {
    ChainDistinct(w, rank, held, raw, chain);
    forall i: nat | i < |chain| ensures w.parts[chain[i]].next == if i + 1 < |chain| then chain[i + 1] else 0 {
    }
    forall i: nat | i < |chain| ensures chain[i] != last {
      assert w.parts[chain[i]].next == if i + 1 < |chain| then chain[i + 1] else 0;
    }
  }

  /** The structure is sound, the locks are those in L, outside X, and only the messages in Y have changed. */
  ghost predicate Stays(w: World, w': World, chains: map<nat, seq<nat>>, chains': map<nat, seq<nat>>,
                        rank': map<nat, nat>, X: set<nat>, L: set<nat>, Y: set<nat>) {
    Sound(w', chains', rank', multiset{}) && LocksOk(w', chains', X, L) && SameBytes(w, w', chains, chains', Y)
  }

  lemma JoinedLink(w: World, chains: map<nat, seq<nat>>, rank: map<nat, nat>, L: set<nat>, last: nat, t: nat)
    returns (rank': map<nat, nat>)
    requires t in w.msgs && w.msgs[t].first != 0 && OpenEnd(w, w.msgs[t])
    requires Sound(w, chains, rank, Tok(w.msgs[t].first)) && LocksOk(w, chains, {t}, L)
    requires last in w.parts && w.parts[last].next == 0 && last != w.msgs[t].last
    ensures Stays(w, SetNext(w, last, w.msgs[t].first), chains, chains, rank', {t}, L, {})
  {
    var first := w.msgs[t].first;
    rank' := JoinedCounts(w, rank, chains[t], last, t);
    JoinedFrame(w, chains, Tok(first), last, first);
    LocksStay(w, SetNext(w, last, first), chains, {t}, L);
  }

  lemma JoinedCounts(w: World, rank: map<nat, nat>, chain: seq<nat>, last: nat, t: nat)
    returns (rank': map<nat, nat>)
    requires t in w.msgs && w.msgs[t].first != 0 && OpenEnd(w, w.msgs[t]) && MsgOk(w, w.msgs[t], chain)
    requires HeapOk(w, Tok(w.msgs[t].first)) && Ranked(w, rank)
    requires last in w.parts && w.parts[last].next == 0 && last != w.msgs[t].last
    ensures var w' := SetNext(w, last, w.msgs[t].first); HeapOk(w', multiset{}) && Ranked(w', rank')
  {
    var first := w.msgs[t].first;
    TailChain(w, rank, Tok(first), w.msgs[t], chain, last);
    RaisedOk(w, rank, chain, last);
    rank' := Raised(rank, chain, rank[first] + 1);
    SetNextOk(w, Tok(first), last, first);
    assert Tok(first) - Tok(first) + Tok(0) == multiset{};
  }

  lemma JoinedFrame(w: World, chains: map<nat, seq<nat>>, held: multiset<nat>, last: nat, first: nat)
    requires HeapOk(w, held) && MsgsOk(w, chains, {}) && last in w.parts && w.parts[last].next == 0
    ensures MsgsOk(SetNext(w, last, first), chains, {}) && SameBytes(w, SetNext(w, last, first), chains, chains, {})
  {
    assert 0 in w.parts ==> PartOk(w, held, 0);
    assert PartOk(w, held, last);
    FrameGrows(w, SetNext(w, last, first), chains, {}, last);
  }

  lemma JoinedHeap(w: World, chains: map<nat, seq<nat>>, rank: map<nat, nat>, L: set<nat>, r: nat, t: nat)
    returns (rank': map<nat, nat>)
    requires Sound(w, chains, rank, multiset{}) && LocksOk(w, chains, {t}, L) && Joinable(w, r, t)
    ensures Stays(w, Tied(w, w.msgs[r].last, w.msgs[t].first), chains, chains, rank', {t}, L, {})
  {
    var first, last := w.msgs[t].first, w.msgs[r].last;
    JoinedRef(w, chains, rank, {t}, L, first);
    rank' := JoinedLink(AddRef(w, first), chains, rank, L, last, t);
    JoinedBytes(w, AddRef(w, first), Tied(w, last, first), chains);
  }

  lemma JoinedRef(w: World, chains: map<nat, seq<nat>>, rank: map<nat, nat>, X: set<nat>, L: set<nat>, first: nat)
    requires Sound(w, chains, rank, multiset{}) && LocksOk(w, chains, X, L) && first in w.parts && first != 0
    ensures var w' := AddRef(w, first);
            && w'.msgs == w.msgs && Sound(w', chains, rank, Tok(first)) && LocksOk(w', chains, X, L)
            && SameBytes(w, w', chains, chains, {})
  {
    Incref(w, chains, rank, multiset{}, X, L, first);
    assert multiset{} + Tok(first) == Tok(first);
  }

  lemma JoinedBytes(w: World, w1: World, w2: World, chains: map<nat, seq<nat>>)
    requires SameBytes(w, w1, chains, chains, {}) && SameBytes(w1, w2, chains, chains, {})
    ensures SameBytes(w, w2, chains, chains, {})
  {
  }

  lemma JoinedMsg(w: World, rr: Raw, rt: Raw, chain: seq<nat>, more: seq<nat>)
    requires MsgOk(w, rr, chain) && MsgOk(w, rt, more) && rr.first != 0 && rt.first != 0
    requires rr.last in w.parts && w.parts[rr.last].dataEnd == rr.lastOffset && w.parts[rr.last].next == rt.first
    requires rt.first in w.parts && w.parts[rt.first].offset == rt.firstOffset
    ensures MsgOk(w, Both(rr, rt), chain + more)
    ensures MsgBytes(w, Both(rr, rt), chain + more) == MsgBytes(w, rr, chain) + MsgBytes(w, rt, more)
  {
    Join(w, chain, more, rr.firstOffset, rr.lastOffset, rt.firstOffset, rt.lastOffset);
  }

  lemma JoinedOn(w: World, chains: map<nat, seq<nat>>, rank: map<nat, nat>, L: set<nat>, r: nat, t: nat)
    returns (rank': map<nat, nat>)
    requires Sound(w, chains, rank, multiset{}) && LocksOk(w, chains, {t}, L) && Joinable(w, r, t)
    ensures var w', chains' := Joined(w, r, t), chains[r := chains[r] + chains[t]];
            && Stays(w, w', chains, chains', rank', {t}, L, {r})
            && MsgBytes(w', w'.msgs[r], chains'[r]) == MsgBytes(w, w.msgs[r], chains[r]) + MsgBytes(w, w.msgs[t], chains[t])
  {
    rank' := JoinedHeap(w, chains, rank, L, r, t);
    JoinedParts(w, r, t);
    JoinedWhole(w, Tied(w, w.msgs[r].last, w.msgs[t].first), chains, rank', L, r, t);
  }

  /** The ends of r and t meet in w2. */
  ghost predicate Meeting(w: World, w2: World, r: nat, t: nat) {
    && r in w.msgs && t in w.msgs && w2.msgs == w.msgs && w.msgs[r].first != 0 && w.msgs[t].first != 0
    && w.msgs[r].last in w2.parts && w.msgs[t].first in w2.parts
    && w2.parts[w.msgs[r].last].dataEnd == w.msgs[r].lastOffset && w2.parts[w.msgs[r].last].next == w.msgs[t].first
    && w2.parts[w.msgs[t].first].offset == w.msgs[t].firstOffset
  }

  lemma JoinedParts(w: World, r: nat, t: nat)
    requires Joinable(w, r, t)
    ensures Meeting(w, Tied(w, w.msgs[r].last, w.msgs[t].first), r, t)
  {
  }

  lemma JoinedWhole(w: World, w2: World, chains: map<nat, seq<nat>>, rank: map<nat, nat>, L: set<nat>, r: nat, t: nat)
    requires Stays(w, w2, chains, chains, rank, {t}, L, {}) && Meeting(w, w2, r, t)
    ensures var raw, chains' := Both(w.msgs[r], w.msgs[t]), chains[r := chains[r] + chains[t]];
            && Stays(w, SetMsg(w2, r, raw), chains, chains', rank, {t}, L, {r})
            && MsgBytes(SetMsg(w2, r, raw), raw, chains'[r]) == MsgBytes(w, w.msgs[r], chains[r]) + MsgBytes(w, w.msgs[t], chains[t])
  {
    JoinedMsg(w2, w.msgs[r], w.msgs[t], chains[r], chains[t]);
    JoinedSet(w2, chains, rank, L, r, t, Both(w.msgs[r], w.msgs[t]));
    JoinedSame(w, w2, SetMsg(w2, r, Both(w.msgs[r], w.msgs[t])), chains, r, chains[r] + chains[t]);
  }

  lemma JoinedSet(w: World, chains: map<nat, seq<nat>>, rank: map<nat, nat>, L: set<nat>, r: nat, t: nat, raw: Raw)
    requires Sound(w, chains, rank, multiset{}) && LocksOk(w, chains, {t}, L) && r in w.msgs && t in chains
    requires raw.first == w.msgs[r].first && MsgOk(w, raw, chains[r] + chains[t])
    ensures var w', chains' := SetMsg(w, r, raw), chains[r := chains[r] + chains[t]];
            && Stays(w, w', chains, chains', rank, {t}, L, {r})
            && MsgBytes(w', raw, chains'[r]) == MsgBytes(w, raw, chains'[r])
  {
    SetRangeOk(w, multiset{}, r, raw);
    MsgsWith(w, chains, r, raw, chains[r] + chains[t]);
    LocksLonger(w, chains, {t}, L, r, raw, chains[t]);
  }

  lemma JoinedSame(w: World, w2: World, w': World, chains: map<nat, seq<nat>>, r: nat, chain: seq<nat>)
    requires SameBytes(w, w2, chains, chains, {}) && SameBytes(w2, w', chains, chains[r := chain], {r})
    ensures SameBytes(w, w', chains, chains[r := chain], {r})
  {
  }

  /** Both messages are ready, and what has been done to them so far left their bytes and all others alone. */
  ghost predicate Joining(s0: State, s: State, r: nat, t: nat, L: set<nat>) {
    && Sound(s.w, s.chains, s.rank, multiset{}) && LocksOk(s.w, s.chains, {t}, L)
    && In(s0, r) && In(s0, t) && In(s, r) && In(s, t) && r != t && s.w.msgs.Keys == s0.w.msgs.Keys
    && Others(s0, s, {r} + {t}) && ViewOf(s, r) == ViewOf(s0, r) && ViewOf(s, t) == ViewOf(s0, t)
  }

  /** After rwm_lock_last_part of r; the lock counts as one that a message other than t holds. */
  lemma JoiningFirst(s0: State, s: State, r: nat, t: nat, locked: nat)
    requires In(s0, r) && In(s0, t) && In(s, r) && r != t && Sound(s.w, s.chains, s.rank, multiset{})
    requires s.w.msgs.Keys == s0.w.msgs.Keys && s.w.msgs[r].first != 0
    requires Kept(s0.w, s.w, s0.chains, s.chains, {r}) && ViewOf(s, r) == ViewOf(s0, r)
    requires locked == 0 ==> LocksOk(s.w, s.chains, {r}, {})
    requires locked != 0 ==> locked == s.w.msgs[r].last && LocksOk(s.w, s.chains, {}, {} + {locked})
    ensures Joining(s0, s, r, t, if locked == 0 then {} else {locked})
  {
    JoiningLocks(s, r, t, locked);
    assert ViewOf(s, t) == ViewOf(s0, t);
  }

  lemma JoiningLocks(s: State, r: nat, t: nat, locked: nat)
    requires In(s, r) && r != t && MsgsOk(s.w, s.chains, {}) && s.w.msgs[r].first != 0
    requires locked == 0 ==> LocksOk(s.w, s.chains, {r}, {})
    requires locked != 0 ==> locked == s.w.msgs[r].last && LocksOk(s.w, s.chains, {}, {} + {locked})
    ensures LocksOk(s.w, s.chains, {t}, if locked == 0 then {} else {locked})
  {
    var L := if locked == 0 then {} else {locked};
    assert {} + {locked} == {locked};
    forall l | l in L ensures OnChain(s.w, s.chains, {t}, l) {
      assert s.chains[r][|s.chains[r]| - 1] == l;
    }
  }

  lemma JoiningMore(s0: State, s: State, s': State, r: nat, t: nat, L: set<nat>)
    requires Joining(s0, s, r, t, L) && In(s', t) && Sound(s'.w, s'.chains, s'.rank, multiset{}) && LocksOk(s'.w, s'.chains, {t}, L)
    requires s'.w.msgs.Keys == s.w.msgs.Keys && Kept(s.w, s'.w, s.chains, s'.chains, {t}) && ViewOf(s', t) == ViewOf(s, t)
    ensures Joining(s0, s', r, t, L) && s'.w.msgs[r] == s.w.msgs[r]
    ensures OpenEnd(s.w, s.w.msgs[r]) ==> OpenEnd(s'.w, s'.w.msgs[r])
  {
    JoiningOthers(s0, s, s', r, t);
    assert In(s', r) && ViewOf(s', r) == ViewOf(s, r) && s'.w.msgs[r] == s.w.msgs[r];
  }

  lemma JoiningOthers(s0: State, s: State, s': State, r: nat, t: nat)
    requires Others(s0, s, {r} + {t}) && Kept(s.w, s'.w, s.chains, s'.chains, {t})
    ensures Others(s0, s', {r} + {t})
  {
  }

  /** The ends of r and t differ: one of the two messages has its last part for itself. */
  lemma EndsDiffer(s: State, r: nat, t: nat)
    requires Sound(s.w, s.chains, s.rank, multiset{}) && In(s, r) && In(s, t) && r != t
    requires s.w.msgs[r].first != 0 && s.w.msgs[t].first != 0
    requires Own(s.w, s.w.msgs[r], s.chains[r]) || Own(s.w, s.w.msgs[t], s.chains[t])
    ensures s.w.msgs[r].last != s.w.msgs[t].last
  {
    var a, b := if Own(s.w, s.w.msgs[r], s.chains[r]) then r else t, if Own(s.w, s.w.msgs[r], s.chains[r]) then t else r;
    var chain := s.chains[a];
    assert chain[..|chain|] == chain;
    SoleAway(s.w, s.chains, s.rank, multiset{}, a, |chain|);
    assert s.chains[b][|s.chains[b]| - 1] == s.w.msgs[b].last;
    assert OnChain(s.w, s.chains, {a}, s.w.msgs[b].last);
    assert chain[|chain| - 1] == s.w.msgs[a].last;
  }

  lemma JoinedDone(s0: State, s: State, r: nat, t: nat, L: set<nat>) returns (chains': map<nat, seq<nat>>, rank': map<nat, nat>)
    requires Joining(s0, s, r, t, L) && Joinable(s.w, r, t)
    ensures JoinedTo(s0, State(Joined(s.w, r, t), chains', rank'), r, t, L)
  {
    chains' := s.chains[r := s.chains[r] + s.chains[t]];
    rank' := JoinedOn(s.w, s.chains, s.rank, L, r, t);
    JoinedKeys(s.w, r, t);
  }

  lemma JoinedKeys(w: World, r: nat, t: nat)
    requires Joinable(w, r, t)
    ensures Joined(w, r, t).msgs.Keys == w.msgs.Keys
  {
    KeysSet(Tied(w, w.msgs[r].last, w.msgs[t].first), r, Both(w.msgs[r], w.msgs[t]));
  }

  /** The two messages are joined, and the structure of t is still in place. */
  ghost predicate JoinedTo(s0: State, s: State, r: nat, t: nat, L: set<nat>) {
    && Sound(s.w, s.chains, s.rank, multiset{}) && LocksOk(s.w, s.chains, {t}, L)
    && In(s0, r) && In(s0, t) && In(s, r) && In(s, t) && s.w.msgs.Keys == s0.w.msgs.Keys
    && Others(s0, s, {r} + {t}) && ViewOf(s, r) == ViewOf(s0, r) + ViewOf(s0, t)
  }

  lemma UnlockDone(s: State, l: nat, L: set<nat>, X: set<nat>)
    requires Sound(s.w, s.chains, s.rank, multiset{}) && LocksOk(s.w, s.chains, X, L + {l}) && l !in L
    ensures l in s.w.parts
    ensures var s' := s.(w := SetLock(s.w, l, false));
            && Sound(s'.w, s'.chains, s'.rank, multiset{}) && LocksOk(s'.w, s'.chains, X, L)
            && Kept(s.w, s'.w, s.chains, s'.chains, {}) && s'.w.msgs == s.w.msgs
  {
    assert l in L + {l};
    LockOk(s.w, s.chains, s.rank, multiset{}, l, false);
    LocksMinus(s.w, s.chains, X, L, l);
  }

  // ----- what the methods start from -----

  lemma LastRoom(w: World, rank: map<nat, nat>, held: multiset<nat>, m: nat)
    requires HeapOk(w, held) && m in w.msgs && w.msgs[m].last in w.parts && OpenEnd(w, w.msgs[m]) && w.msgs[m].first != 0
    ensures var raw := w.msgs[m];
            w.parts[raw.last].buf in w.bufs && 0 <= raw.lastOffset <= |w.bufs[w.parts[raw.last].buf].data|
  {
    assert PartOk(w, held, w.msgs[m].last);
  }

  lemma FirstRoom(w: World, rank: map<nat, nat>, held: multiset<nat>, m: nat, chain: seq<nat>)
    requires HeapOk(w, held) && m in w.msgs && MsgOk(w, w.msgs[m], chain) && w.msgs[m].first != 0
    ensures var raw := w.msgs[m];
            && raw.first in w.parts && w.parts[raw.first].buf in w.bufs
            && 0 <= raw.firstOffset <= |w.bufs[w.parts[raw.first].buf].data|
  {
    assert Bounded(w, chain[0]);
  }

  lemma PushNothing(s: State, m: nat)
    requires Good(s) && In(s, m)
    ensures Others(s, s, {m}) && ViewOf(s, m) + [] == ViewOf(s, m) && [] + ViewOf(s, m) == ViewOf(s, m)
  {
  }

  /** rwm_lock_last_part has made m ready to grow. */
  lemma PushReady(s0: State, s: State, m: nat, locked: nat)
    requires In(s0, m) && In(s, m) && Sound(s.w, s.chains, s.rank, multiset{}) && s.w.msgs.Keys == s0.w.msgs.Keys
    requires Kept(s0.w, s.w, s0.chains, s.chains, {m}) && ViewOf(s, m) == ViewOf(s0, m)
    requires s.w.msgs[m].first != 0 && OpenEnd(s.w, s.w.msgs[m])
    requires locked == 0 ==> LocksOk(s.w, s.chains, {m}, {})
    requires locked != 0 ==> LocksOk(s.w, s.chains, {}, {} + {locked})
    ensures var L := if locked == 0 then {} else {locked};
            && Pushing(s, s, m, L, []) && Others(s0, s, {m}) && ViewOf(s, m) == ViewOf(s0, m)
            && s.w.msgs.Keys == s0.w.msgs.Keys
  {
    assert {} + {locked} == {locked};
    assert ViewOf(s, m) + [] == ViewOf(s, m);
  }

  lemma PushOnward(s0: State, s1: State, s: State, m: nat, L: set<nat>, done: seq<byte>)
    requires In(s0, m) && In(s1, m) && Others(s0, s1, {m}) && ViewOf(s1, m) == ViewOf(s0, m) && s1.w.msgs.Keys == s0.w.msgs.Keys
    requires Pushing(s1, s, m, L, done)
    ensures Pushing(s0, s, m, L, done)
  {
  }

  lemma FrontReady(s0: State, s: State, m: nat)
    requires In(s0, m) && Fronted(s0.w, s.w, s0.chains, s.chains, s.rank, m, {})
    ensures Fronting(s, s, m, []) && In(s, m) && Others(s0, s, {m}) && ViewOf(s, m) == ViewOf(s0, m)
    ensures s.w.msgs.Keys == s0.w.msgs.Keys
  {
    assert [] + ViewOf(s, m) == ViewOf(s, m);
  }

  lemma FrontOnward(s0: State, s1: State, s: State, m: nat, done: seq<byte>)
    requires In(s0, m) && In(s1, m) && Others(s0, s1, {m}) && ViewOf(s1, m) == ViewOf(s0, m) && s1.w.msgs.Keys == s0.w.msgs.Keys
    requires Fronting(s1, s, m, done)
    ensures Fronting(s0, s, m, done)
  {
  }

  /** The lock on t is off again, and the one on r still counts as held by another message than t. */
  lemma LocksOther(s1: State, s2: State, s: State, r: nat, t: nat, locked: nat, L: set<nat>)
    requires In(s1, r) && In(s1, t) && In(s2, t) && In(s, t) && r != t && s1.w.msgs[r].first != 0
    requires L == (if locked == 0 then {} else {locked}) && (locked != 0 ==> locked == s1.w.msgs[r].last)
    requires Kept(s1.w, s2.w, s1.chains, s2.chains, {t}) && Kept(s2.w, s.w, s2.chains, s.chains, {})
    requires ViewOf(s2, t) == ViewOf(s1, t) && OpenEnd(s2.w, s2.w.msgs[t]) && s.w.msgs == s2.w.msgs
    requires Sound(s.w, s.chains, s.rank, multiset{}) && LocksOk(s.w, s.chains, {}, L)
    ensures LocksOk(s.w, s.chains, {t}, L) && Kept(s1.w, s.w, s1.chains, s.chains, {t}) && ViewOf(s, t) == ViewOf(s1, t)
    ensures OpenEnd(s.w, s.w.msgs[t])
  {
    KeptFewer(s2.w, s.w, s2.chains, s.chains, {t});
    KeptOnward(s1.w, s2.w, s.w, s1.chains, s2.chains, s.chains, {t});
    forall l | l in L ensures OnChain(s.w, s.chains, {t}, l) {
      assert s.chains[r][|s.chains[r]| - 1] == l;
    }
  }

  lemma UnionStart(s: State, r: nat, t: nat)
    requires Good(s) && In(s, r) && In(s, t) && r != t
    ensures s.w.msgs[r].last == 0 <==> s.w.msgs[r].first == 0
    ensures s.w.msgs[r].first == 0 ==> ViewOf(s, r) + ViewOf(s, t) == ViewOf(s, t)
    ensures s.w.msgs[t].first == 0 ==> JoinedTo(s, s, r, t, {})
  {
    if s.w.msgs[r].first != 0 { LastIsPart(s.w, s.chains, s.rank, multiset{}, r); } else { EmptyView(s, r); }
    if s.w.msgs[t].first == 0 { EmptyView(s, t); }
  }

  /** What rwm_union does to the bytes of r. */
  ghost predicate Merged(s0: State, s: State, r: nat, t: nat) {
    && In(s0, r) && In(s0, t) && In(s, r) && s.w.msgs.Keys == s0.w.msgs.Keys - {t}
    && ViewOf(s, r) == ViewOf(s0, r) + ViewOf(s0, t) && Others(s0, s, {r} + {t})
  }

  /** Its result once no lock is left. */
  ghost predicate United(s0: State, s: State, r: nat, t: nat) {
    Good(s) && Merged(s0, s, r, t)
  }

  lemma UnitedByMove(s0: State, s: State, r: nat, t: nat)
    requires In(s0, r) && In(s0, t) && Good(s) && In(s, r) && r != t && s.w.msgs.Keys == s0.w.msgs.Keys - {t} + {r}
    requires ViewOf(s, r) == ViewOf(s0, t) && ViewOf(s0, r) + ViewOf(s0, t) == ViewOf(s0, t) && Others(s0, s, {t} + {r})
    ensures United(s0, s, r, t)
  {
    assert s0.w.msgs.Keys - {t} + {r} == s0.w.msgs.Keys - {t} && {t} + {r} == {r} + {t};
  }

  lemma UnitedByJoin(s0: State, s1: State, s: State, r: nat, t: nat, L: set<nat>)
    requires r != t && JoinedTo(s0, s1, r, t, L)
    requires Kept(s1.w, s.w, s1.chains, s.chains, {t}) && s.w.msgs.Keys == s1.w.msgs.Keys - {t}
    ensures Merged(s0, s, r, t)
  {
  }

  lemma UnitedUnlocked(s0: State, s: State, r: nat, t: nat, l: nat)
    requires Merged(s0, s, r, t) && Sound(s.w, s.chains, s.rank, multiset{}) && LocksOk(s.w, s.chains, {}, {l})
    ensures l in s.w.parts
    ensures United(s0, s.(w := SetLock(s.w, l, false)), r, t)
  {
    assert {} + {l} == {l};
    UnlockDone(s, l, {}, {});
  }
}
