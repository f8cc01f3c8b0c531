/** The steps that the functions of net-msg.c are made of, each with what it keeps: counts, acyclicity,
    locks, and the bytes of every message it is not about. */
module RawSteps {
  import opened RawMem
  import opened RawHeap

  /** The memory, with what its invariant speaks of: the parts of each message, and a measure that falls
      along `next`. */
  datatype State = State(w: World, ghost chains: map<nat, seq<nat>>, ghost rank: map<nat, nat>)

  /** The invariant between steps.  chains and rank are ghost: the parts of each message, and a measure
      that falls along `next`. */
  ghost predicate Sound(w: World, chains: map<nat, seq<nat>>, rank: map<nat, nat>, held: multiset<nat>) {
    HeapOk(w, held) && Ranked(w, rank) && MsgsOk(w, chains, {})
  }

  /** The locked parts are those in L, and they belong to messages outside X. */
  ghost predicate LocksOk(w: World, chains: map<nat, seq<nat>>, X: set<nat>, L: set<nat>) {
    && (forall p :: p in w.parts && w.parts[p].locked ==> p in L)
    && (forall l :: l in L ==> l in w.parts && w.parts[l].locked && OnChain(w, chains, X, l))
  }

  lemma KeptOnward(w: World, w1: World, w2: World, c: map<nat, seq<nat>>, c1: map<nat, seq<nat>>, c2: map<nat, seq<nat>>, X: set<nat>)
    requires Kept(w, w1, c, c1, X) && Kept(w1, w2, c1, c2, X)
    ensures Kept(w, w2, c, c2, X)
  {
  }

  lemma KeptUnion(w: World, w1: World, w2: World, c: map<nat, seq<nat>>, c1: map<nat, seq<nat>>, c2: map<nat, seq<nat>>, X: set<nat>, Y: set<nat>)
    requires Kept(w, w1, c, c1, X) && Kept(w1, w2, c1, c2, Y)
    ensures Kept(w, w2, c, c2, X + Y)
  {
  }

  lemma KeptFewer(w: World, w': World, c: map<nat, seq<nat>>, c': map<nat, seq<nat>>, X: set<nat>)
    requires Kept(w, w', c, c', {})
    ensures Kept(w, w', c, c', X)
  {
  }

  function PutPart(w: World, p: nat, part: Part): World {
    w.(parts := w.parts[p := part])
  }

  function AddRef(w: World, p: nat): World
    requires p in w.parts
  {
    PutPart(w, p, w.parts[p].(refcnt := w.parts[p].refcnt + 1))
  }

  function DropRef(w: World, p: nat): World
    requires p in w.parts && w.parts[p].refcnt > 0
  {
    PutPart(w, p, w.parts[p].(refcnt := w.parts[p].refcnt - 1))
  }

  lemma PutPartOk(w: World, held: multiset<nat>, held': multiset<nat>, p: nat, part: Part)
    requires HeapOk(w, held) && p in w.parts
    requires part.buf == w.parts[p].buf && part.next == w.parts[p].next && Bounded(PutPart(w, p, part), p)
    requires part.refcnt >= 1 && part.refcnt + held[p] == w.parts[p].refcnt + held'[p]
    requires forall x :: x != p ==> held'[x] == held[x]
    ensures HeapOk(PutPart(w, p, part), held')
  {
    assert PartOk(w, held, p);
    SetPartOk(w, held, held', p, part, w.bufs[part.buf].data);
    assert SetPart(w, p, part, w.bufs[part.buf].data) == PutPart(w, p, part);
  }

  /** A message is as before when neither parts nor buffers change. */
  lemma SameMem(w: World, w': World, raw: Raw, chain: seq<nat>)
    requires MsgOk(w, raw, chain) && w'.parts == w.parts && w'.bufs == w.bufs
    ensures MsgOk(w', raw, chain) && MsgBytes(w', raw, chain) == MsgBytes(w, raw, chain)
  {
    forall i | 0 <= i < |chain| ensures SamePart(w, w', chain[i]) && Bounded(w, chain[i]) {
    }
    SameIsAlike(w, w', chain, raw.lastOffset);
    AlikeKeeps(w, w', raw, chain);
  }

  lemma ChainInParts(w: World, held: multiset<nat>, raw: Raw, chain: seq<nat>)
    requires MsgOk(w, raw, chain) && HeapOk(w, held)
    ensures forall i :: 0 <= i < |chain| ==> chain[i] in w.parts && chain[i] != 0
  {
    forall i | 0 <= i < |chain| ensures chain[i] in w.parts && chain[i] != 0 {
      assert Bounded(w, chain[i]) && PartOk(w, held, chain[i]);
    }
  }

  lemma ChainDistinct(w: World, rank: map<nat, nat>, held: multiset<nat>, raw: Raw, chain: seq<nat>)
    requires MsgOk(w, raw, chain) && HeapOk(w, held) && Ranked(w, rank)
    ensures forall i :: 0 <= i < |chain| ==> chain[i] in w.parts && chain[i] != 0
    ensures forall i, j :: 0 <= i < j < |chain| ==> chain[i] != chain[j]
  {
    ChainInParts(w, held, raw, chain);
    Distinct(w, rank, chain);
  }

  lemma {:induction false} SameSteps(w: World, raw: Raw, chain: seq<nat>, chain': seq<nat>, i: nat)
    requires MsgOk(w, raw, chain) && MsgOk(w, raw, chain') && i < |chain| && i < |chain'|
    ensures chain[i] == chain'[i]
  {
    if i > 0 {
      SameSteps(w, raw, chain, chain', i - 1);
      assert w.parts[chain[i - 1]].next == chain[i];
      assert w.parts[chain'[i - 1]].next == chain'[i];
    }
  }

  /** The memory alone determines the chain of a message, and so its bytes. */
  lemma OneChain(w: World, rank: map<nat, nat>, held: multiset<nat>, raw: Raw, chain: seq<nat>, chain': seq<nat>)
    requires HeapOk(w, held) && Ranked(w, rank) && MsgOk(w, raw, chain) && MsgOk(w, raw, chain')
    ensures chain == chain'
  {
    ChainDistinct(w, rank, held, raw, chain);
    ChainDistinct(w, rank, held, raw, chain');
    forall i: nat | i < |chain| && i < |chain'| ensures chain[i] == chain'[i] {
      SameSteps(w, raw, chain, chain', i);
    }
    if raw.first != 0 {
      assert forall i :: 0 <= i < |chain'| - 1 ==> chain'[i] != raw.last;
      assert forall i :: 0 <= i < |chain| - 1 ==> chain[i] != raw.last;
      assert |chain| == |chain'|;
    }
  }

  lemma LocksStay(w: World, w': World, chains: map<nat, seq<nat>>, X: set<nat>, L: set<nat>)
    requires LocksOk(w, chains, X, L)
    requires forall m :: m in w.msgs && m !in X ==> m in w'.msgs
    requires forall p :: p in w'.parts && w'.parts[p].locked ==> p in w.parts && w.parts[p].locked
    requires forall p :: p in w.parts && w.parts[p].locked ==> p in w'.parts && w'.parts[p].locked
    ensures LocksOk(w', chains, X, L)
  {
    forall l | l in L ensures OnChain(w', chains, X, l) {
      assert OnChain(w, chains, X, l);
    }
  }

  // ----- releasing references -----

  lemma Unheld(held: multiset<nat>, p: nat)
    requires p != 0
    ensures held + Tok(p) - Tok(p) == held
    ensures (held + Tok(p))[p] == held[p] + 1
  {
  }

  /** A decref of a part that others still refer to. */
  lemma DecrefShared(w: World, chains: map<nat, seq<nat>>, rank: map<nat, nat>, held: multiset<nat>, L: set<nat>, p: nat)
    requires p in w.parts && w.parts[p].refcnt > 1 && p != 0
    requires Sound(w, chains, rank, held + Tok(p)) && LocksOk(w, chains, {}, L)
    ensures var w' := DropRef(w, p);
            Sound(w', chains, rank, held) && LocksOk(w', chains, {}, L) && Kept(w, w', chains, chains, {})
  {
    var w' := DropRef(w, p);
    assert PartOk(w, held + Tok(p), p);
    PutPartOk(w, held + Tok(p), held, p, w.parts[p].(refcnt := w.parts[p].refcnt - 1));
    FrameAway(w, w', chains, {}, {});
    LocksStay(w, w', chains, {}, L);
  }

  /** A decref that frees the part and hands on its reference to the next one. */
  lemma DecrefLast(w: World, chains: map<nat, seq<nat>>, rank: map<nat, nat>, held: multiset<nat>, L: set<nat>, p: nat)
    requires p in w.parts && w.parts[p].refcnt == 1 && p != 0
    requires Sound(w, chains, rank, held + Tok(p)) && LocksOk(w, chains, {}, L)
    ensures w.parts[p].buf in w.bufs && !w.parts[p].locked
    ensures var w' := FreePart(w, p);
            && Sound(w', chains, rank, held + Tok(w.parts[p].next)) && LocksOk(w', chains, {}, L)
            && Kept(w, w', chains, chains, {}) && forall x :: x in w.parts && x != p ==> SamePart(w, w', x)
  {
    assert PartOk(w, held + Tok(p), p);
    HeldIsAway(w, held + Tok(p), chains, {}, p);
    var w' := FreePart(w, p);
    FreePartOk(w, held + Tok(p), p);
    Unheld(held, p);
    FrameAway(w, w', chains, {}, {p});
    LocksStay(w, w', chains, {}, L);
  }

  /** What releasing references leaves: some parts, unchanged but for fewer references. */
  ghost predicate Shrinks(w: World, w': World) {
    && w'.msgs == w.msgs
    && forall p :: p in w'.parts ==>
         && p in w.parts && SamePart(w, w', p)
         && w'.parts[p].refcnt <= w.parts[p].refcnt && w'.parts[p].locked == w.parts[p].locked
  }

  lemma ShrinksMore(w: World, w1: World, w2: World)
    requires Shrinks(w, w1) && Shrinks(w1, w2)
    ensures Shrinks(w, w2)
  {
    forall p | p in w2.parts ensures p in w.parts && SamePart(w, w2, p) {
      assert SamePart(w1, w2, p) && SamePart(w, w1, p);
    }
  }

  /** The state of msg_part_decref with the reference to p still to be given up. */
  ghost predicate Releasing(w0: World, w: World, chains: map<nat, seq<nat>>, rank: map<nat, nat>, held: multiset<nat>, L: set<nat>, p: nat) {
    && Sound(w, chains, rank, held + Tok(p)) && LocksOk(w, chains, {}, L)
    && Kept(w0, w, chains, chains, {}) && Shrinks(w0, w)
  }

  lemma ReleasingPart(w: World, chains: map<nat, seq<nat>>, rank: map<nat, nat>, held: multiset<nat>, p: nat)
    requires p != 0 && Sound(w, chains, rank, held + Tok(p))
    ensures p in w.parts && w.parts[p].buf in w.bufs && w.parts[p].refcnt >= 1
  {
    assert p in held + Tok(p);
    assert PartOk(w, held + Tok(p), p);
  }

  lemma ReleaseStart(w: World, chains: map<nat, seq<nat>>, rank: map<nat, nat>, held: multiset<nat>, L: set<nat>, p: nat)
    requires Sound(w, chains, rank, held + Tok(p)) && LocksOk(w, chains, {}, L)
    ensures Releasing(w, w, chains, rank, held, L, p)
  {
  }

  lemma ReleaseEnd(w0: World, w: World, chains: map<nat, seq<nat>>, rank: map<nat, nat>, held: multiset<nat>, L: set<nat>)
    requires Releasing(w0, w, chains, rank, held, L, 0)
    ensures Sound(w, chains, rank, held) && LocksOk(w, chains, {}, L)
    ensures Kept(w0, w, chains, chains, {}) && Shrinks(w0, w)
  {
    assert held + Tok(0) == held;
  }

  lemma ReleaseShared(w0: World, w: World, chains: map<nat, seq<nat>>, rank: map<nat, nat>, held: multiset<nat>, L: set<nat>, p: nat)
    requires p != 0 && p in w.parts && w.parts[p].refcnt > 1 && Releasing(w0, w, chains, rank, held, L, p)
    ensures Releasing(w0, DropRef(w, p), chains, rank, held, L, 0)
  {
    var w' := DropRef(w, p);
    DecrefShared(w, chains, rank, held, L, p);
    ShrinksMore(w0, w, w');
    KeptOnward(w0, w, w', chains, chains, chains, {});
    assert held + Tok(0) == held;
  }

  lemma ReleaseLast(w0: World, w: World, chains: map<nat, seq<nat>>, rank: map<nat, nat>, held: multiset<nat>, L: set<nat>, p: nat)
    requires p != 0 && p in w.parts && w.parts[p].buf in w.bufs && w.parts[p].refcnt == 1
    requires Releasing(w0, w, chains, rank, held, L, p)
    ensures !w.parts[p].locked && |FreePart(w, p).parts| < |w.parts|
    ensures Releasing(w0, FreePart(w, p), chains, rank, held, L, w.parts[p].next)
  {
    var w' := FreePart(w, p);
    DecrefLast(w, chains, rank, held, L, p);
    assert Shrinks(w, w');
    ShrinksMore(w0, w, w');
    KeptOnward(w0, w, w', chains, chains, chains, {});
    assert w'.parts.Keys == w.parts.Keys - {p};
    assert |w'.parts.Keys| == |w.parts.Keys| - 1;
  }

  // ----- taking references, and pointing a message elsewhere -----

  lemma Incref(w: World, chains: map<nat, seq<nat>>, rank: map<nat, nat>, held: multiset<nat>, X: set<nat>, L: set<nat>, p: nat)
    requires p in w.parts && p != 0 && Sound(w, chains, rank, held) && LocksOk(w, chains, X, L)
    ensures var w' := AddRef(w, p);
            && Sound(w', chains, rank, held + Tok(p)) && LocksOk(w', chains, X, L) && Kept(w, w', chains, chains, {})
  {
    var w' := AddRef(w, p);
    assert PartOk(w, held, p);
    PutPartOk(w, held, held + Tok(p), p, w.parts[p].(refcnt := w.parts[p].refcnt + 1));
    FrameAway(w, w', chains, {}, {});
    LocksStay(w, w', chains, X, L);
  }

  /** Only counts and locks differ. */
  lemma CountsOnly(w: World, w': World, raw: Raw, chain: seq<nat>)
    requires MsgOk(w, raw, chain) && forall p :: p in w.parts ==> SamePart(w, w', p)
    ensures MsgOk(w', raw, chain) && MsgBytes(w', raw, chain) == MsgBytes(w, raw, chain)
  {
    ChainAlike(w, w', raw, chain, {});
    AlikeKeeps(w, w', raw, chain);
  }

  lemma MsgsWith(w: World, chains: map<nat, seq<nat>>, m: nat, raw: Raw, chain: seq<nat>)
    requires MsgsOk(w, chains, {}) && MsgOk(w, raw, chain)
    ensures MsgsOk(SetMsg(w, m, raw), chains[m := chain], {})
    ensures Kept(w, SetMsg(w, m, raw), chains, chains[m := chain], {m})
    ensures MsgBytes(SetMsg(w, m, raw), raw, chain) == MsgBytes(w, raw, chain)
  {
    SameMem(w, SetMsg(w, m, raw), raw, chain);
    OthersWith(w, chains, m, raw, chain);
  }

  lemma OthersWith(w: World, chains: map<nat, seq<nat>>, m: nat, raw: Raw, chain: seq<nat>)
    requires MsgsOk(w, chains, {})
    ensures MsgsOk(SetMsg(w, m, raw), chains[m := chain], {m}) && Kept(w, SetMsg(w, m, raw), chains, chains[m := chain], {m})
  {
    var w' := SetMsg(w, m, raw);
    forall k | k in w.msgs && k != m
      ensures MsgOk(w', w.msgs[k], chains[k])
      ensures MsgBytes(w', w.msgs[k], chains[k]) == MsgBytes(w, w.msgs[k], chains[k])
    {
      SameMem(w, w', w.msgs[k], chains[k]);
    }
  }

  lemma LocksWith(w: World, w': World, chains: map<nat, seq<nat>>, m: nat, chain: seq<nat>, L: set<nat>)
    requires LocksOk(w, chains, {m}, L)
    requires w'.parts == w.parts && forall k :: k in w.msgs && k != m ==> k in w'.msgs
    ensures LocksOk(w', chains[m := chain], {m}, L)
  {
    forall l | l in L ensures OnChain(w', chains[m := chain], {m}, l) {
      assert OnChain(w, chains, {m}, l);
      var k: nat, i: nat :| k in w.msgs && k !in {m} && k in chains && i < |chains[k]| && chains[k][i] == l;
      assert chains[m := chain][k][i] == l;
    }
  }

  /** A message structure is overwritten; the reference it held is now held by the caller. */
  lemma Retarget(w: World, chains: map<nat, seq<nat>>, rank: map<nat, nat>, held: multiset<nat>, L: set<nat>, m: nat, raw: Raw, chain: seq<nat>)
    requires Sound(w, chains, rank, held + Tok(raw.first)) && LocksOk(w, chains, {m}, L) && MsgOk(w, raw, chain)
    ensures var w', chains' := SetMsg(w, m, raw), chains[m := chain];
            && Sound(w', chains', rank, held + Tok(FirstOf(w, m))) && LocksOk(w', chains', {m}, L)
            && Kept(w, w', chains, chains', {m})
            && MsgBytes(w', raw, chain) == MsgBytes(w, raw, chain)
  {
    if raw.first != 0 {
      Unheld(held, raw.first);
      ChainInParts(w, held + Tok(raw.first), raw, chain);
    }
    SetMsgOk(w, held + Tok(raw.first), m, raw);
    assert held + Tok(raw.first) - Tok(raw.first) == held;
    MsgsWith(w, chains, m, raw, chain);
    LocksWith(w, SetMsg(w, m, raw), chains, m, chain, L);
  }

  /** The range of a message changes, its first part does not. */
  lemma Rerange(w: World, chains: map<nat, seq<nat>>, rank: map<nat, nat>, held: multiset<nat>, L: set<nat>, m: nat, raw: Raw, chain: seq<nat>)
    requires Sound(w, chains, rank, held) && LocksOk(w, chains, {m}, L) && MsgOk(w, raw, chain)
    requires m in w.msgs && raw.first == w.msgs[m].first
    ensures var w', chains' := SetMsg(w, m, raw), chains[m := chain];
            && Sound(w', chains', rank, held) && LocksOk(w', chains', {m}, L)
            && Kept(w, w', chains, chains', {m})
            && MsgBytes(w', raw, chain) == MsgBytes(w, raw, chain)
  {
    SetRangeOk(w, held, m, raw);
    MsgsWith(w, chains, m, raw, chain);
    LocksWith(w, SetMsg(w, m, raw), chains, m, chain, L);
  }

  /** A message structure goes out of use. */
  lemma Drop(w: World, chains: map<nat, seq<nat>>, rank: map<nat, nat>, held: multiset<nat>, L: set<nat>, m: nat)
    requires Sound(w, chains, rank, held) && LocksOk(w, chains, {m}, L) && m in w.msgs
    ensures var w' := DropMsg(w, m);
            && Sound(w', chains, rank, held + Tok(w.msgs[m].first)) && LocksOk(w', chains, {}, L)
            && Kept(w, w', chains, chains, {m})
  {
    var w' := DropMsg(w, m);
    DropMsgOk(w, held, m);
    forall k | k in w'.msgs
      ensures MsgOk(w', w.msgs[k], chains[k])
      ensures MsgBytes(w', w.msgs[k], chains[k]) == MsgBytes(w, w.msgs[k], chains[k])
    {
      SameMem(w, w', w.msgs[k], chains[k]);
    }
    forall l | l in L ensures OnChain(w', chains, {}, l) {
      assert OnChain(w, chains, {m}, l);
    }
  }

  // ----- trimming parts to the message that owns them alone -----

  ghost predicate Sole(w: World, path: seq<nat>) {
    forall i {:trigger w.parts[path[i]]} {:trigger path[i] in w.parts} :: 0 <= i < |path| ==> path[i] in w.parts && w.parts[path[i]].refcnt == 1
  }

  lemma SoleAway(w: World, chains: map<nat, seq<nat>>, rank: map<nat, nat>, held: multiset<nat>, m: nat, k: nat)
    requires Sound(w, chains, rank, held) && m in w.msgs && m in chains && k <= |chains[m]| && Sole(w, chains[m][..k])
    ensures forall i :: 0 <= i < k ==> !OnChain(w, chains, {m}, chains[m][i])
    ensures forall i :: 0 <= i < k ==> held[chains[m][i]] == 0
  {
    var path := chains[m][..k];
    ChainRuns(w, m, chains[m]);
    assert Runs(w, m, path);
    Exclusive(w, held, chains, {m}, m, path);
    forall i | 0 <= i < k ensures !OnChain(w, chains, {m}, chains[m][i]) && held[chains[m][i]] == 0 {
      assert path[i] in path;
      OneWayIn(w, held, m, path, i);
    }
  }

  lemma Unlocked(w: World, chains: map<nat, seq<nat>>, m: nat, L: set<nat>, p: nat)
    requires LocksOk(w, chains, {m}, L) && p in w.parts && !OnChain(w, chains, {m}, p)
    ensures !w.parts[p].locked
  {
  }

  function Aligned(w: World, raw: Raw): World
    requires raw.first in w.parts
  {
    PutPart(w, raw.first, w.parts[raw.first].(offset := raw.firstOffset))
  }

  /** The pieces of a chain do not depend on the offset of its first part. */
  lemma AlignedMsg(w: World, rank: map<nat, nat>, held: multiset<nat>, raw: Raw, chain: seq<nat>)
    requires HeapOk(w, held) && Ranked(w, rank) && MsgOk(w, raw, chain) && raw.first != 0 && raw.first in w.parts
    ensures var w' := Aligned(w, raw);
            && Bounded(w', raw.first)
            && MsgOk(w', raw, chain) && MsgBytes(w', raw, chain) == MsgBytes(w, raw, chain)
  {
    var w' := Aligned(w, raw);
    var lo, hi := raw.firstOffset, raw.lastOffset;
    ChainDistinct(w, rank, held, raw, chain);
    forall i | 0 <= i < |chain| ensures Bounded(w', chain[i]) {
      assert Bounded(w, chain[i]);
    }
    forall i: nat | i < |chain| ensures Piece(w', chain, lo, hi, i) == Piece(w, chain, lo, hi, i) {
    }
    assert Pieces(w', chain, lo, hi) == Pieces(w, chain, lo, hi);
  }

  lemma AlignHeap(w: World, rank: map<nat, nat>, raw: Raw)
    requires HeapOk(w, multiset{}) && Ranked(w, rank) && raw.first in w.parts && Bounded(Aligned(w, raw), raw.first)
    ensures HeapOk(Aligned(w, raw), multiset{}) && Ranked(Aligned(w, raw), rank)
  {
    assert PartOk(w, multiset{}, raw.first);
    PutPartOk(w, multiset{}, multiset{}, raw.first, w.parts[raw.first].(offset := raw.firstOffset));
  }

  /** raw->first->offset = raw->first_offset, when the message alone refers to that part. */
  lemma Align(w: World, chains: map<nat, seq<nat>>, rank: map<nat, nat>, L: set<nat>, m: nat)
    requires Sound(w, chains, rank, multiset{}) && LocksOk(w, chains, {m}, L)
    requires m in w.msgs && w.msgs[m].first in w.parts && w.parts[w.msgs[m].first].refcnt == 1
    ensures var w' := Aligned(w, w.msgs[m]);
            && Sound(w', chains, rank, multiset{}) && LocksOk(w', chains, {m}, L)
            && Kept(w, w', chains, chains, {})
  {
    var raw, chain := w.msgs[m], chains[m];
    var w' := Aligned(w, raw);
    assert raw.first != 0 by { assert PartOk(w, multiset{}, raw.first); }
    AlignedMsg(w, rank, multiset{}, raw, chain);
    AlignHeap(w, rank, raw);
    assert Sole(w, chain[..1]);
    SoleAway(w, chains, rank, multiset{}, m, 1);
    FrameAway(w, w', chains, {m}, {raw.first});
    MsgsAll(w, w', chains, m);
    LocksStay(w, w', chains, {m}, L);
  }

  /** One message besides the others. */
  lemma MsgsAll(w: World, w': World, chains: map<nat, seq<nat>>, m: nat)
    requires MsgsOk(w, chains, {}) && MsgsOk(w', chains, {m}) && Kept(w, w', chains, chains, {m})
    requires m in w.msgs && w'.msgs == w.msgs && m in chains && MsgOk(w', w'.msgs[m], chains[m])
    requires MsgBytes(w', w'.msgs[m], chains[m]) == MsgBytes(w, w.msgs[m], chains[m])
    requires OpenEnd(w, w.msgs[m]) ==> OpenEnd(w', w.msgs[m])
    ensures MsgsOk(w', chains, {}) && Kept(w, w', chains, chains, {})
  {
  }

  function Trimmed(w: World, raw: Raw): World
    requires raw.last in w.parts
  {
    PutPart(w, raw.last, w.parts[raw.last].(dataEnd := raw.lastOffset, next := 0))
  }

  lemma TrimmedMsg(w: World, rank: map<nat, nat>, held: multiset<nat>, raw: Raw, chain: seq<nat>)
    requires HeapOk(w, held) && Ranked(w, rank) && MsgOk(w, raw, chain) && raw.first != 0 && raw.last in w.parts
    ensures Bounded(Trimmed(w, raw), raw.last)
    ensures MsgOk(Trimmed(w, raw), raw, chain) && MsgBytes(Trimmed(w, raw), raw, chain) == MsgBytes(w, raw, chain)
  {
    var w' := Trimmed(w, raw);
    var lo, hi := raw.firstOffset, raw.lastOffset;
    ChainDistinct(w, rank, held, raw, chain);
    assert Bounded(w, chain[0]);
    forall i | 0 <= i < |chain| ensures Bounded(w', chain[i]) {
      assert Bounded(w, chain[i]);
    }
    forall i: nat | i < |chain| ensures Piece(w', chain, lo, hi, i) == Piece(w, chain, lo, hi, i) {
    }
    assert Pieces(w', chain, lo, hi) == Pieces(w, chain, lo, hi);
  }

  lemma TrimmedHeap(w: World, rank: map<nat, nat>, raw: Raw)
    requires HeapOk(w, multiset{}) && Ranked(w, rank) && raw.last in w.parts && Bounded(Trimmed(w, raw), raw.last)
    ensures HeapOk(Trimmed(w, raw), Tok(w.parts[raw.last].next)) && Ranked(Trimmed(w, raw), rank)
  {
    var w1 := PutPart(w, raw.last, w.parts[raw.last].(dataEnd := raw.lastOffset));
    assert PartOk(w, multiset{}, raw.last);
    PutPartOk(w, multiset{}, multiset{}, raw.last, w.parts[raw.last].(dataEnd := raw.lastOffset));
    SetNextOk(w1, multiset{}, raw.last, 0);
    assert SetNext(w1, raw.last, 0) == Trimmed(w, raw);
    assert multiset{} - Tok(0) + Tok(w.parts[raw.last].next) == Tok(w.parts[raw.last].next);
  }

  /** The last part of a message whose parts are all its own: what lies behind the message is let go. */
  lemma Trim(w: World, chains: map<nat, seq<nat>>, rank: map<nat, nat>, L: set<nat>, m: nat)
    requires Sound(w, chains, rank, multiset{}) && LocksOk(w, chains, {m}, L)
    requires m in w.msgs && w.msgs[m].first != 0 && Sole(w, chains[m]) && w.msgs[m].last in w.parts
    ensures var w' := Trimmed(w, w.msgs[m]);
            && Sound(w', chains, rank, Tok(w.parts[w.msgs[m].last].next)) && LocksOk(w', chains, {m}, L)
            && Kept(w, w', chains, chains, {})
  {
    var raw, chain := w.msgs[m], chains[m];
    var w' := Trimmed(w, raw);
    assert chain[..|chain|] == chain;
    TrimmedMsg(w, rank, multiset{}, raw, chain);
    TrimmedHeap(w, rank, raw);
    SoleAway(w, chains, rank, multiset{}, m, |chain|);
    FrameAway(w, w', chains, {m}, {raw.last});
    MsgsAll(w, w', chains, m);
    LocksStay(w, w', chains, {m}, L);
  }

  // ----- copying the parts of a message that it shares -----

  /** What a link of the chain of m points to: the structure itself (pred is 0) or its last private part. */
  function Target(w: World, m: nat, pred: nat): nat
    requires if pred == 0 then m in w.msgs else pred in w.parts
  {
    if pred == 0 then w.msgs[m].first else w.parts[pred].next
  }

  function Linked(w: World, m: nat, pred: nat, p: nat): World
    requires if pred == 0 then m in w.msgs else pred in w.parts
  {
    if pred == 0 then SetMsg(w, m, w.msgs[m].(first := p)) else SetNext(w, pred, p)
  }

  lemma LinkedOk(w: World, held: multiset<nat>, m: nat, pred: nat, p: nat)
    requires if pred == 0 then m in w.msgs else pred in w.parts
    requires HeapOk(w, held + Tok(p)) && p in w.parts && p != 0
    ensures HeapOk(Linked(w, m, pred, p), held + Tok(Target(w, m, pred)))
  {
    Unheld(held, p);
    if pred == 0 {
      SetMsgOk(w, held + Tok(p), m, w.msgs[m].(first := p));
    } else {
      SetNextOk(w, held + Tok(p), pred, p);
    }
  }

  /** One more private part p behind pred; `last` says that it ends the message. */
  function Copied(w: World, m: nat, pred: nat, p: nat, part: Part, last: bool): World
    requires m in w.msgs && part.buf in w.bufs && (pred == 0 || pred in w.parts)
  {
    var added := AddPart(w, p, part, w.bufs[part.buf].data);
    Linked(if last then SetMsg(added, m, added.msgs[m].(last := p)) else added, m, pred, p)
  }

  lemma CopiedHeap(w: World, held: multiset<nat>, m: nat, pred: nat, p: nat, part: Part, last: bool)
    requires HeapOk(w, held) && m in w.msgs && (pred == 0 || pred in w.parts)
    requires p != 0 && p !in w.parts && part.buf in w.bufs
    requires part.refcnt == 1 && part.next == 0 && 0 <= part.offset <= part.dataEnd <= |w.bufs[part.buf].data|
    ensures HeapOk(Copied(w, m, pred, p, part, last), held + Tok(Target(w, m, pred)))
  {
    var added := AddPart(w, p, part, w.bufs[part.buf].data);
    AddPartOk(w, held, p, part, w.bufs[part.buf].data);
    if last {
      SetRangeOk(added, held + Tok(p), m, added.msgs[m].(last := p));
      LinkedOk(SetMsg(added, m, added.msgs[m].(last := p)), held, m, pred, p);
    } else {
      LinkedOk(added, held, m, pred, p);
    }
  }

  lemma CopiedRank(w: World, rank: map<nat, nat>, held: multiset<nat>, m: nat, pred: nat, p: nat, part: Part, last: bool, r: nat)
    requires HeapOk(w, held) && Ranked(w, rank)
    requires m in w.msgs && part.buf in w.bufs && p != 0 && p !in w.parts && part.next == 0
    requires pred == 0 || (pred in w.parts && rank[pred] > r)
    ensures Ranked(Copied(w, m, pred, p, part, last), rank[p := r])
  {
    forall q | q in w.parts ensures w.parts[q].next != p {
      assert PartOk(w, held, q);
    }
  }

  lemma CopiedOthers(w: World, chains: map<nat, seq<nat>>, L: set<nat>,
                     m: nat, pred: nat, p: nat, part: Part, last: bool)
    requires MsgsOk(w, chains, {m}) && LocksOk(w, chains, {m}, L)
    requires m in w.msgs && part.buf in w.bufs && p !in w.parts && !part.locked
    requires pred == 0 || (pred in w.parts && !OnChain(w, chains, {m}, pred))
    ensures var w' := Copied(w, m, pred, p, part, last);
            && MsgsOk(w', chains, {m}) && LocksOk(w', chains, {m}, L) && Kept(w, w', chains, chains, {m})
  {
    var w' := Copied(w, m, pred, p, part, last);
    var S := if pred == 0 then {} else {pred};
    forall q | q in w.parts && q !in S ensures SamePart(w, w', q) {
    }
    FrameAway(w, w', chains, {m}, S);
    LocksStay(w, w', chains, {m}, L);
  }

  lemma FreshAway(w: World, chains: map<nat, seq<nat>>, m: nat, p: nat)
    requires MsgsOk(w, chains, {m}) && p !in w.parts
    ensures !OnChain(w, chains, {m}, p)
  {
    forall k: nat, i: nat | k in w.msgs && k !in {m} && k in chains && i < |chains[k]|
      ensures chains[k][i] != p
    {
      assert Bounded(w, chains[k][i]);
    }
  }

  /** The message is the only user of every part of its chain, and nothing of them lies outside it. */
  ghost predicate Own(w: World, raw: Raw, chain: seq<nat>) {
    raw.first != 0 ==>
      && Sole(w, chain) && raw.first in w.parts && raw.last in w.parts
      && w.parts[raw.first].offset == raw.firstOffset
      && w.parts[raw.last].dataEnd == raw.lastOffset && w.parts[raw.last].next == 0
  }

  ghost predicate CopyOf(w0: World, w: World, raw: Raw, chain: seq<nat>, k: nat, copies: seq<nat>, i: nat)
    requires i < |copies| && k + |copies| <= |chain|
  {
    && copies[i] in w.parts && copies[i] !in w0.parts && copies[i] != 0 && chain[k + i] in w0.parts
    && w.parts[copies[i]] == Part(1, false, if i + 1 < |copies| then copies[i + 1] else 0,
                                  w0.parts[chain[k + i]].buf,
                                  Start(w0, chain, raw.firstOffset, k + i), End(w0, chain, raw.lastOffset, k + i))
  }

  /** copies are private versions of the parts of chain from the k-th on, cut to the message. */
  ghost predicate CopiesOf(w0: World, w: World, raw: Raw, chain: seq<nat>, k: nat, copies: seq<nat>) {
    k + |copies| <= |chain| && forall i: nat :: i < |copies| ==> CopyOf(w0, w, raw, chain, k, copies, i)
  }

  ghost predicate HeadPart(w0: World, w: World, chain: seq<nat>, chain': seq<nat>, i: nat)
    requires i < |chain| && i + 1 < |chain'|
  {
    && chain'[i] == chain[i] && chain[i] in w0.parts && chain[i] in w.parts
    && w.parts[chain[i]] == w0.parts[chain[i]].(next := chain'[i + 1])
  }

  /** The private parts before the copies are as they were, except for the link between the two. */
  ghost predicate SameHead(w0: World, w: World, chain: seq<nat>, chain': seq<nat>, k: nat)
    requires k < |chain| && k < |chain'|
  {
    forall i: nat :: i < k ==> HeadPart(w0, w, chain, chain', i)
  }

  ghost predicate SameBufs(w0: World, w: World) {
    forall b :: b in w0.bufs ==> b in w.bufs && w.bufs[b].data == w0.bufs[b].data
  }

  lemma CopiedPiece(w0: World, w: World, raw: Raw, chain: seq<nat>, k: nat, copies: seq<nat>, chain': seq<nat>, i: nat)
    requires MsgOk(w0, raw, chain) && raw.first != 0 && k < |chain| && k + |copies| == |chain| && i < |chain|
    requires CopiesOf(w0, w, raw, chain, k, copies) && SameBufs(w0, w)
    requires chain' == chain[..k] + copies && SameHead(w0, w, chain, chain', k)
    ensures Bounded(w, chain'[i])
    ensures Piece(w, chain', raw.firstOffset, raw.lastOffset, i) == Piece(w0, chain, raw.firstOffset, raw.lastOffset, i)
  {
    assert Bounded(w0, chain[i]) && Bounded(w0, chain[0]) && Bounded(w0, chain[|chain| - 1]);
    if i < k {
      assert HeadPart(w0, w, chain, chain', i);
    } else {
      assert CopyOf(w0, w, raw, chain, k, copies, i - k);
      assert chain'[i] == copies[i - k] && chain[k + (i - k)] == chain[i];
    }
  }

  lemma CopiedPath(w0: World, w: World, raw: Raw, chain: seq<nat>, k: nat, copies: seq<nat>, chain': seq<nat>)
    requires MsgOk(w0, raw, chain) && raw.first != 0 && k < |chain| && k + |copies| == |chain|
    requires CopiesOf(w0, w, raw, chain, k, copies)
    requires chain' == chain[..k] + copies && SameHead(w0, w, chain, chain', k)
    requires Sole(w0, chain[..k]) && (k > 0 ==> w0.parts[chain[0]].offset == raw.firstOffset)
    ensures && Sole(w, chain') && (forall i :: 0 <= i < |chain'| ==> chain'[i] in w.parts)
            && (forall i :: 0 <= i < |chain'| - 1 ==> w.parts[chain'[i]].next == chain'[i + 1])
            && w.parts[chain'[|chain'| - 1]].next == 0
            && w.parts[chain'[0]].offset == raw.firstOffset
            && w.parts[chain'[|chain'| - 1]].dataEnd == raw.lastOffset
  {
    forall i: nat | i < |chain'|
      ensures chain'[i] in w.parts
      ensures w.parts[chain'[i]].refcnt == 1
      ensures w.parts[chain'[i]].next == (if i == |chain'| - 1 then 0 else chain'[i + 1])
    {
      if i < k {
        assert chain[..k][i] == chain[i] && HeadPart(w0, w, chain, chain', i);
      } else {
        assert CopyOf(w0, w, raw, chain, k, copies, i - k) && chain'[i] == copies[i - k];
      }
    }
    assert CopyOf(w0, w, raw, chain, k, copies, |copies| - 1);
    assert chain'[|chain'| - 1] == copies[|copies| - 1];
    if k == 0 {
      assert CopyOf(w0, w, raw, chain, k, copies, 0);
    } else {
      assert HeadPart(w0, w, chain, chain', 0);
    }
  }

  /** Once its parts from the k-th on are copied, a message is as long and has the same bytes as before. */
  lemma CopiedMsg(w0: World, w: World, raw: Raw, raw': Raw, chain: seq<nat>, k: nat, copies: seq<nat>, chain': seq<nat>)
    requires MsgOk(w0, raw, chain) && raw.first != 0 && k < |chain| && k + |copies| == |chain|
    requires CopiesOf(w0, w, raw, chain, k, copies) && SameBufs(w0, w)
    requires chain' == chain[..k] + copies && SameHead(w0, w, chain, chain', k)
    requires Sole(w0, chain[..k]) && (k > 0 ==> w0.parts[chain[0]].offset == raw.firstOffset)
    requires raw' == raw.(first := chain'[0], last := copies[|copies| - 1]) && raw'.first != 0
    ensures MsgOk(w, raw', chain') && Own(w, raw', chain')
    ensures MsgBytes(w, raw', chain') == MsgBytes(w0, raw, chain)
  {
    var lo, hi := raw.firstOffset, raw.lastOffset;
    CopiedPath(w0, w, raw, chain, k, copies, chain');
    forall i: nat | i < |chain|
      ensures Bounded(w, chain'[i]) && Piece(w, chain', lo, hi, i) == Piece(w0, chain, lo, hi, i)
    {
      CopiedPiece(w0, w, raw, chain, k, copies, chain', i);
    }
    assert Pieces(w, chain', lo, hi) == Pieces(w0, chain, lo, hi);
    assert Bounded(w, chain'[0]) && Bounded(w, chain'[|chain'| - 1]);
  }

  /** The link behind the private parts: to the first copy, or still to the part to be copied first. */
  function Head(chain: seq<nat>, k: nat, copies: seq<nat>): nat
    requires k < |chain|
  {
    if copies == [] then chain[k] else copies[0]
  }

  function Relinked(w0: World, chain: seq<nat>, k: nat, copies: seq<nat>, q: nat): Part
    requires k < |chain| && q in w0.parts
  {
    if k > 0 && q == chain[k - 1] then w0.parts[q].(next := Head(chain, k, copies)) else w0.parts[q]
  }

  /** The structure of m while its parts from the k-th on are being copied. */
  ghost predicate CopyingPath(w0: World, w: World, m: nat, chain: seq<nat>, k: nat, copies: seq<nat>, pred: nat, mp: nat)
    requires m in w0.msgs
  {
    var raw := w0.msgs[m];
    && raw.first != 0 && MsgOk(w0, raw, chain) && k < |chain| && CopiesOf(w0, w, raw, chain, k, copies) && SameBufs(w0, w)
    && (forall q :: q in w0.parts ==> q in w.parts && w.parts[q] == Relinked(w0, chain, k, copies, q))
    && pred == (if copies != [] then copies[|copies| - 1] else if k == 0 then 0 else chain[k - 1])
    && (k + |copies| < |chain| ==> mp == chain[k + |copies|])
    && m in w.msgs
    && w.msgs[m] == raw.(first := if k == 0 then Head(chain, k, copies) else raw.first,
                         last := if k + |copies| == |chain| && copies != [] then copies[|copies| - 1] else raw.last)
  }

  ghost predicate CopyingHeap(w0: World, w: World, chains: map<nat, seq<nat>>, rank: map<nat, nat>, L: set<nat>, m: nat, held: multiset<nat>) {
    && HeapOk(w, held) && Ranked(w, rank) && MsgsOk(w, chains, {m}) && LocksOk(w, chains, {m}, L)
    && Kept(w0, w, chains, chains, {m}) && w.msgs.Keys == w0.msgs.Keys
  }

  /** The private version of the part mp of message m. */
  function CopyPart(w: World, m: nat, mp: nat): Part
    requires m in w.msgs && mp in w.parts
  {
    var raw, part := w.msgs[m], w.parts[mp];
    Part(1, false, 0, part.buf,
         if mp == raw.first && raw.firstOffset != part.offset then raw.firstOffset else part.offset,
         if mp == raw.last then raw.lastOffset else part.dataEnd)
  }

  lemma CopyPartIs(w0: World, w: World, held: multiset<nat>, rank: map<nat, nat>, m: nat, chain: seq<nat>, k: nat, copies: seq<nat>, pred: nat, mp: nat)
    requires m in w0.msgs && HeapOk(w0, held) && Ranked(w0, rank)
    requires CopyingPath(w0, w, m, chain, k, copies, pred, mp) && k + |copies| < |chain|
    requires k > 0 ==> w0.parts[chain[0]].offset == w0.msgs[m].firstOffset
    ensures mp in w0.parts && mp in w.parts && w.parts[mp] == w0.parts[mp]
    ensures (mp == w.msgs[m].last) == (k + |copies| + 1 == |chain|)
    ensures var raw := w0.msgs[m];
            CopyPart(w, m, mp) == Part(1, false, 0, w0.parts[mp].buf, Start(w0, chain, raw.firstOffset, k + |copies|),
                                       End(w0, chain, raw.lastOffset, k + |copies|))
    ensures Bounded(w0, mp)
    ensures 0 <= CopyPart(w, m, mp).offset <= CopyPart(w, m, mp).dataEnd <= |w0.bufs[w0.parts[mp].buf].data|
  {
    var raw := w0.msgs[m];
    ChainDistinct(w0, rank, held, raw, chain);
    assert Bounded(w0, mp) && Bounded(w0, chain[0]) && Bounded(w0, chain[|chain| - 1]);
    if copies != [] { assert CopyOf(w0, w, raw, chain, k, copies, 0); }
  }

  lemma CopyStepHeap(w0: World, w: World, chains: map<nat, seq<nat>>, rank: map<nat, nat>, L: set<nat>, m: nat, held: multiset<nat>,
                     pred: nat, p: nat, part: Part, last: bool, r: nat)
    requires CopyingHeap(w0, w, chains, rank, L, m, held) && m in w.msgs
    requires pred == 0 || (pred in w.parts && rank[pred] > r && !OnChain(w, chains, {m}, pred))
    requires p != 0 && p !in w.parts && part.buf in w.bufs && !part.locked
    requires part.refcnt == 1 && part.next == 0 && 0 <= part.offset <= part.dataEnd <= |w.bufs[part.buf].data|
    ensures CopyingHeap(w0, Copied(w, m, pred, p, part, last), chains, rank[p := r], L, m, held + Tok(Target(w, m, pred)))
    ensures !OnChain(Copied(w, m, pred, p, part, last), chains, {m}, p)
  {
    var w' := Copied(w, m, pred, p, part, last);
    CopiedHeap(w, held, m, pred, p, part, last);
    CopiedRank(w, rank, held, m, pred, p, part, last, r);
    CopiedOthers(w, chains, L, m, pred, p, part, last);
    KeptOnward(w0, w, w', chains, chains, chains, {m});
    FreshAway(w, chains, m, p);
    assert OnChain(w', chains, {m}, p) ==> OnChain(w, chains, {m}, p);
  }

  lemma CopyStepCopies(w0: World, w: World, held: multiset<nat>, rank: map<nat, nat>, m: nat, chain: seq<nat>, k: nat, copies: seq<nat>,
                       pred: nat, mp: nat, p: nat)
    requires m in w0.msgs && HeapOk(w0, held) && Ranked(w0, rank)
    requires CopyingPath(w0, w, m, chain, k, copies, pred, mp) && k + |copies| < |chain|
    requires k > 0 ==> w0.parts[chain[0]].offset == w0.msgs[m].firstOffset
    requires p != 0 && p !in w.parts && mp in w.parts && w.parts[mp].buf in w.bufs && (pred == 0 || pred in w.parts)
    ensures CopiesOf(w0, Copied(w, m, pred, p, CopyPart(w, m, mp), mp == w.msgs[m].last), w0.msgs[m], chain, k, copies + [p])
  {
    var raw := w0.msgs[m];
    var w' := Copied(w, m, pred, p, CopyPart(w, m, mp), mp == w.msgs[m].last);
    CopyPartIs(w0, w, held, rank, m, chain, k, copies, pred, mp);
    forall i: nat | i < |copies + [p]| ensures CopyOf(w0, w', raw, chain, k, copies + [p], i) {
      if i < |copies| {
        assert CopyOf(w0, w, raw, chain, k, copies, i);
        if i + 1 < |copies| { CopyLinked(w0, w, raw, chain, k, copies, i, pred); }
      } else if k > 0 {
        ChainDistinct(w0, rank, held, raw, chain);
      }
    }
  }

  lemma CopyStepOld(w0: World, w: World, held: multiset<nat>, rank: map<nat, nat>, m: nat, chain: seq<nat>, k: nat, copies: seq<nat>,
                    pred: nat, mp: nat, p: nat, part: Part, last: bool)
    requires m in w0.msgs && HeapOk(w0, held) && Ranked(w0, rank)
    requires CopyingPath(w0, w, m, chain, k, copies, pred, mp) && k + |copies| < |chain|
    requires p != 0 && p !in w.parts && part.buf in w.bufs && (pred == 0 || pred in w.parts)
    ensures var w' := Copied(w, m, pred, p, part, last);
            && SameBufs(w0, w')
            && forall q :: q in w0.parts ==> q in w'.parts && w'.parts[q] == Relinked(w0, chain, k, copies + [p], q)
  {
    if copies != [] { assert CopyOf(w0, w, w0.msgs[m], chain, k, copies, |copies| - 1); }
    ChainInParts(w0, held, w0.msgs[m], chain);
    var w' := Copied(w, m, pred, p, part, last);
    forall q | q in w0.parts ensures q in w'.parts && w'.parts[q] == Relinked(w0, chain, k, copies + [p], q) {
      assert w.parts[q] == Relinked(w0, chain, k, copies, q);
    }
  }

  lemma CopyStepPath(w0: World, w: World, held: multiset<nat>, rank: map<nat, nat>, m: nat, chain: seq<nat>, k: nat, copies: seq<nat>,
                     pred: nat, mp: nat, p: nat)
    requires m in w0.msgs && HeapOk(w0, held) && Ranked(w0, rank)
    requires CopyingPath(w0, w, m, chain, k, copies, pred, mp) && k + |copies| < |chain|
    requires k > 0 ==> w0.parts[chain[0]].offset == w0.msgs[m].firstOffset
    requires p != 0 && p !in w.parts && mp in w.parts && w.parts[mp].buf in w.bufs && (pred == 0 || pred in w.parts)
    ensures CopyingPath(w0, Copied(w, m, pred, p, CopyPart(w, m, mp), mp == w.msgs[m].last), m, chain, k, copies + [p], p, w.parts[mp].next)
  {
    CopyPartIs(w0, w, held, rank, m, chain, k, copies, pred, mp);
    CopyStepCopies(w0, w, held, rank, m, chain, k, copies, pred, mp, p);
    CopyStepOld(w0, w, held, rank, m, chain, k, copies, pred, mp, p, CopyPart(w, m, mp), mp == w.msgs[m].last);
    if k > 0 { ChainDistinct(w0, rank, held, w0.msgs[m], chain); }
    CopyStepRaw(w0, w, m, chain, k, copies, pred, mp, p, CopyPart(w, m, mp));
  }

  lemma CopyStepRaw(w0: World, w: World, m: nat, chain: seq<nat>, k: nat, copies: seq<nat>, pred: nat, mp: nat, p: nat, part: Part)
    requires m in w0.msgs && CopyingPath(w0, w, m, chain, k, copies, pred, mp) && k + |copies| < |chain|
    requires (mp == w.msgs[m].last) == (k + |copies| + 1 == |chain|) && (pred == 0 || pred in w.parts)
    requires mp in w0.parts && mp in w.parts && w.parts[mp] == w0.parts[mp] && part.buf in w.bufs
    requires k > 0 ==> chain[k - 1] != 0
    ensures var w' := Copied(w, m, pred, p, part, mp == w.msgs[m].last);
            && m in w'.msgs && (k + |copies + [p]| < |chain| ==> w.parts[mp].next == chain[k + |copies + [p]|])
            && w'.msgs[m] == w0.msgs[m].(first := if k == 0 then Head(chain, k, copies + [p]) else w0.msgs[m].first,
                                         last := if k + |copies + [p]| == |chain| then p else w0.msgs[m].last)
  {
    if copies != [] { assert CopyOf(w0, w, w0.msgs[m], chain, k, copies, |copies| - 1); }
  }

  /** Only the last copy can be the predecessor of the next one. */
  lemma CopyLinked(w0: World, w: World, raw: Raw, chain: seq<nat>, k: nat, copies: seq<nat>, i: nat, pred: nat)
    requires CopiesOf(w0, w, raw, chain, k, copies) && i + 1 < |copies| && pred == copies[|copies| - 1]
    ensures copies[i] != pred
  {
    assert CopyOf(w0, w, raw, chain, k, copies, i);
    assert CopyOf(w0, w, raw, chain, k, copies, i + 1);
    assert CopyOf(w0, w, raw, chain, k, copies, |copies| - 1);
  }

  /** The state of the second loop of fork_message_chain. */
  ghost predicate Copying(w0: World, w: World, chains: map<nat, seq<nat>>, rank: map<nat, nat>, L: set<nat>, m: nat,
                          k: nat, copies: seq<nat>, pred: nat, mp: nat)
    requires m in w0.msgs && m in chains && k < |chains[m]|
  {
    && CopyingPath(w0, w, m, chains[m], k, copies, pred, mp)
    && CopyingHeap(w0, w, chains, rank, L, m, if copies == [] then multiset{} else Tok(chains[m][k]))
    && (pred != 0 ==> pred in w.parts && pred in rank && !OnChain(w, chains, {m}, pred))
    && (pred != 0 && k + |copies| < |chains[m]| ==> mp in rank && rank[pred] > rank[mp])
  }

  lemma CopyStart(w: World, chains: map<nat, seq<nat>>, rank: map<nat, nat>, L: set<nat>, m: nat, k: nat, pred: nat, mp: nat)
    requires Sound(w, chains, rank, multiset{}) && LocksOk(w, chains, {m}, L)
    requires m in w.msgs && w.msgs[m].first != 0 && m in chains && k < |chains[m]| && mp == chains[m][k]
    requires pred == (if k == 0 then 0 else chains[m][k - 1]) && Sole(w, chains[m][..k])
    ensures Copying(w, w, chains, rank, L, m, k, [], pred, mp)
  {
    SoleAway(w, chains, rank, multiset{}, m, k);
    ChainInParts(w, multiset{}, w.msgs[m], chains[m]);
    if k > 0 { assert w.parts[pred].next == mp; }
  }

  lemma CopyTarget(w0: World, w: World, m: nat, chain: seq<nat>, k: nat, copies: seq<nat>, pred: nat, mp: nat)
    requires m in w0.msgs && CopyingPath(w0, w, m, chain, k, copies, pred, mp)
    requires if pred == 0 then m in w.msgs else pred in w.parts
    requires forall i :: 0 <= i < |chain| ==> chain[i] in w0.parts && chain[i] != 0
    ensures Target(w, m, pred) == (if copies == [] then chain[k] else 0)
  {
    if copies != [] { assert CopyOf(w0, w, w0.msgs[m], chain, k, copies, |copies| - 1); }
    if k > 0 { assert w.parts[chain[k - 1]] == Relinked(w0, chain, k, copies, chain[k - 1]); }
  }

  lemma CopyStep(w0: World, rank0: map<nat, nat>, w: World, chains: map<nat, seq<nat>>, rank: map<nat, nat>, L: set<nat>, m: nat,
                 k: nat, copies: seq<nat>, pred: nat, mp: nat, p: nat)
    requires HeapOk(w0, multiset{}) && Ranked(w0, rank0) && m in w0.msgs && m in chains && k + |copies| < |chains[m]|
    requires k > 0 ==> chains[m][0] in w0.parts && w0.parts[chains[m][0]].offset == w0.msgs[m].firstOffset
    requires Copying(w0, w, chains, rank, L, m, k, copies, pred, mp) && p != 0 && p !in w.parts
    ensures mp in w.parts && mp in rank && w.parts[mp].buf in w.bufs
    ensures (mp == w.msgs[m].last) == (k + |copies| + 1 == |chains[m]|)
    ensures Copying(w0, Copied(w, m, pred, p, CopyPart(w, m, mp), mp == w.msgs[m].last), chains, rank[p := rank[mp]], L, m,
                    k, copies + [p], p, w.parts[mp].next)
  {
    var chain := chains[m];
    var held := if copies == [] then multiset{} else Tok(chain[k]);
    CopyPartIs(w0, w, multiset{}, rank0, m, chain, k, copies, pred, mp);
    CopyStepPath(w0, w, multiset{}, rank0, m, chain, k, copies, pred, mp, p);
    CopyStepHeap(w0, w, chains, rank, L, m, held, pred, p, CopyPart(w, m, mp), mp == w.msgs[m].last, rank[mp]);
    ChainInParts(w0, multiset{}, w0.msgs[m], chain);
    CopyTarget(w0, w, m, chain, k, copies, pred, mp);
    assert held + Tok(Target(w, m, pred)) == Tok(chain[k]);
    assert k + |copies| + 1 < |chain| ==> w0.parts[mp].next == chain[k + |copies| + 1];
  }

  lemma MsgsBack(w0: World, w: World, chains: map<nat, seq<nat>>, m: nat, chain: seq<nat>)
    requires MsgsOk(w, chains, {m}) && Kept(w0, w, chains, chains, {m})
    requires m in w.msgs && MsgOk(w, w.msgs[m], chain)
    ensures MsgsOk(w, chains[m := chain], {}) && Kept(w0, w, chains, chains[m := chain], {m})
  {
  }

  lemma CopyDone(w0: World, w: World, chains: map<nat, seq<nat>>, rank0: map<nat, nat>, rank: map<nat, nat>, L: set<nat>, m: nat,
                 k: nat, copies: seq<nat>, pred: nat, mp: nat, chain': seq<nat>)
    requires Sound(w0, chains, rank0, multiset{}) && m in w0.msgs && k < |chains[m]| && Sole(w0, chains[m][..k])
    requires Copying(w0, w, chains, rank, L, m, k, copies, pred, mp) && k + |copies| == |chains[m]|
    requires k > 0 ==> w0.parts[chains[m][0]].offset == w0.msgs[m].firstOffset
    requires chain' == chains[m][..k] + copies
    ensures Sound(w, chains[m := chain'], rank, Tok(chains[m][k])) && LocksOk(w, chains[m := chain'], {m}, L)
    ensures Kept(w0, w, chains, chains[m := chain'], {m})
    ensures Own(w, w.msgs[m], chain') && MsgOk(w, w.msgs[m], chain') && w.msgs[m].first != 0
    ensures MsgBytes(w, w.msgs[m], chain') == MsgBytes(w0, w0.msgs[m], chains[m])
  {
    var chain := chains[m];
    ChainInParts(w0, multiset{}, w0.msgs[m], chain);
    assert CopyOf(w0, w, w0.msgs[m], chain, k, copies, 0);
    CopiedHead(w0, w, rank0, m, chain, k, copies, pred, mp, chain');
    CopiedMsg(w0, w, w0.msgs[m], w.msgs[m], chain, k, copies, chain');
    MsgsBack(w0, w, chains, m, chain');
    LocksWith(w, w, chains, m, chain', L);
  }

  lemma CopiedHead(w0: World, w: World, rank0: map<nat, nat>, m: nat, chain: seq<nat>, k: nat, copies: seq<nat>, pred: nat, mp: nat, chain': seq<nat>)
    requires m in w0.msgs && HeapOk(w0, multiset{}) && Ranked(w0, rank0)
    requires CopyingPath(w0, w, m, chain, k, copies, pred, mp) && k + |copies| == |chain| && chain' == chain[..k] + copies
    ensures SameHead(w0, w, chain, chain', k)
  {
    ChainDistinct(w0, rank0, multiset{}, w0.msgs[m], chain);
    forall i: nat | i < k ensures HeadPart(w0, w, chain, chain', i) {
      assert w.parts[chain[i]] == Relinked(w0, chain, k, copies, chain[i]);
    }
  }

  /** What rewriting the chain of m leaves: m has the same bytes and a chain of its own, all else is as before. */
  ghost predicate Forked(w0: World, w: World, chains0: map<nat, seq<nat>>, chains: map<nat, seq<nat>>, rank: map<nat, nat>, m: nat, L: set<nat>) {
    && Sound(w, chains, rank, multiset{}) && LocksOk(w, chains, {m}, L)
    && Kept(w0, w, chains0, chains, {m}) && w.msgs.Keys == w0.msgs.Keys
    && m in w0.msgs && m in w.msgs && (w.msgs[m].first == 0) == (w0.msgs[m].first == 0) && m in chains && m in chains0 && Own(w, w.msgs[m], chains[m])
    && MsgBytes(w, w.msgs[m], chains[m]) == MsgBytes(w0, w0.msgs[m], chains0[m])
  }

  /** Dropping the reference to the part that was copied first ends the fork. */
  lemma ForkEnd(w0: World, w1: World, w: World, chains0: map<nat, seq<nat>>, chains: map<nat, seq<nat>>, rank: map<nat, nat>, m: nat, L: set<nat>)
    requires Kept(w0, w1, chains0, chains, {m}) && w1.msgs.Keys == w0.msgs.Keys
    requires m in w0.msgs && m in w1.msgs && (w1.msgs[m].first == 0) == (w0.msgs[m].first == 0)
    requires m in w0.msgs && m in w1.msgs && m in chains && m in chains0 && Own(w1, w1.msgs[m], chains[m])
    requires MsgBytes(w1, w1.msgs[m], chains[m]) == MsgBytes(w0, w0.msgs[m], chains0[m])
    requires LocksOk(w1, chains, {m}, L)
    requires Sound(w, chains, rank, multiset{}) && Kept(w1, w, chains, chains, {}) && Shrinks(w1, w)
    ensures Forked(w0, w, chains0, chains, rank, m, L)
  {
    KeptFewer(w1, w, chains, chains, {m});
    KeptOnward(w0, w1, w, chains0, chains, chains, {m});
    OwnStays(w1, w, multiset{}, w.msgs[m], chains[m]);
    LocksStay(w1, w, chains, {m}, L);
  }

  lemma LocksAll(w: World, chains: map<nat, seq<nat>>, X: set<nat>, L: set<nat>)
    requires LocksOk(w, chains, X, L)
    ensures LocksOk(w, chains, {}, L)
  {
    forall l | l in L ensures OnChain(w, chains, {}, l) {
      assert OnChain(w, chains, X, l);
      var m: nat, i: nat :| m in w.msgs && m !in X && m in chains && i < |chains[m]| && chains[m][i] == l;
      assert chains[m][i] == l;
    }
  }

  lemma OwnStays(w: World, w': World, held: multiset<nat>, raw: Raw, chain: seq<nat>)
    requires Own(w, raw, chain) && Shrinks(w, w') && MsgOk(w', raw, chain) && HeapOk(w', held)
    ensures Own(w', raw, chain)
  {
    if raw.first != 0 {
      ChainInParts(w', held, raw, chain);
      forall i | 0 <= i < |chain| ensures w'.parts[chain[i]].refcnt == 1 {
        assert PartOk(w', held, chain[i]);
      }
      assert raw.first == chain[0] && raw.last == chain[|chain| - 1];
    }
  }

  /** The first loop of fork_message_chain passes parts that only this message refers to, so none is locked. */
  lemma ForkWalk(w: World, chains: map<nat, seq<nat>>, rank: map<nat, nat>, L: set<nat>, m: nat, k: nat)
    requires Sound(w, chains, rank, multiset{}) && LocksOk(w, chains, {m}, L) && m in w.msgs && w.msgs[m].first != 0
    requires k < |chains[m]| && Sole(w, chains[m][..k]) && chains[m][k] in w.parts && w.parts[chains[m][k]].refcnt == 1
    ensures Sole(w, chains[m][..k + 1]) && !w.parts[chains[m][k]].locked
    ensures chains[m][k] != w.msgs[m].last ==> k + 1 < |chains[m]| && w.parts[chains[m][k]].next == chains[m][k + 1]
  {
    var chain := chains[m];
    SoleMore(w, chain, k);
    SoleAway(w, chains, rank, multiset{}, m, k + 1);
    Unlocked(w, chains, m, L, chain[k]);
  }

  lemma SoleMore(w: World, chain: seq<nat>, k: nat)
    requires k < |chain| && Sole(w, chain[..k]) && chain[k] in w.parts && w.parts[chain[k]].refcnt == 1
    ensures Sole(w, chain[..k + 1])
  {
    var d := chain[..k + 1];
    forall i | 0 <= i < |d| ensures d[i] in w.parts && w.parts[d[i]].refcnt == 1 {
      if i < k { assert chain[..k][i] in w.parts; }
    }
  }

  lemma ForkWhole(w: World, chains: map<nat, seq<nat>>, rank: map<nat, nat>, L: set<nat>, m: nat, k: nat)
    requires Sound(w, chains, rank, multiset{}) && LocksOk(w, chains, {m}, L) && m in w.msgs && w.msgs[m].first != 0
    requires k < |chains[m]| && Sole(w, chains[m][..k]) && chains[m][k] in w.parts && w.parts[chains[m][k]].refcnt == 1
    requires chains[m][k] == w.msgs[m].last
    ensures Sole(w, chains[m]) && !w.parts[chains[m][k]].locked
  {
    var chain := chains[m];
    ForkWalk(w, chains, rank, L, m, k);
    ChainDistinct(w, rank, multiset{}, w.msgs[m], chain);
    assert k == |chain| - 1 && chain[..k + 1] == chain;
  }

  lemma ForkInPlace(w0: World, w: World, chains: map<nat, seq<nat>>, rank: map<nat, nat>, m: nat, L: set<nat>)
    requires Sound(w, chains, rank, multiset{}) && LocksOk(w, chains, {m}, L) && w.msgs == w0.msgs && m in w.msgs && m in chains
    requires Kept(w0, w, chains, chains, {}) && Sole(w, chains[m]) && OpenEnd(w, w.msgs[m]) && w.msgs[m].first != 0
    requires w.msgs[m].first in w.parts && w.parts[w.msgs[m].first].offset == w.msgs[m].firstOffset
    ensures Forked(w0, w, chains, chains, rank, m, L)
  {
    KeptFewer(w0, w, chains, chains, {m});
  }

  lemma ForkedAfter(w0: World, w1: World, w: World, chains0: map<nat, seq<nat>>, chains: map<nat, seq<nat>>, rank: map<nat, nat>, m: nat, L: set<nat>)
    requires Kept(w0, w1, chains0, chains0, {}) && w1.msgs == w0.msgs && m in w0.msgs
    requires Forked(w1, w, chains0, chains, rank, m, L)
    ensures Forked(w0, w, chains0, chains, rank, m, L)
  {
    KeptFewer(w0, w1, chains0, chains0, {m});
    KeptOnward(w0, w1, w, chains0, chains0, chains, {m});
  }

  lemma KeptSame(w: World, chains: map<nat, seq<nat>>, X: set<nat>)
    requires MsgsOk(w, chains, {})
    ensures Kept(w, w, chains, chains, X)
  {
  }

  /** Trimming the last part and releasing what lay behind it. */
  lemma TrimEnd(w: World, w1: World, w2: World, chains: map<nat, seq<nat>>, rank: map<nat, nat>, m: nat, L: set<nat>)
    requires m in w.msgs && w.msgs[m].first != 0 && m in chains && w.msgs[m].last in w.parts
    requires Sole(w, chains[m]) && w1 == Trimmed(w, w.msgs[m]) && LocksOk(w1, chains, {m}, L)
    requires Kept(w, w1, chains, chains, {}) && Kept(w1, w2, chains, chains, {})
    requires Shrinks(w1, w2) && Sound(w2, chains, rank, multiset{})
    ensures LocksOk(w2, chains, {m}, L) && Kept(w, w2, chains, chains, {}) && w2.msgs == w.msgs && Sole(w2, chains[m])
    ensures w.msgs[m].last in w2.parts && w2.parts[w.msgs[m].last].next == 0
    ensures w2.parts[w.msgs[m].last].dataEnd == w.msgs[m].lastOffset
    ensures w.msgs[m].first in w2.parts && w.msgs[m].first in w.parts
    ensures w2.parts[w.msgs[m].first].offset == w.parts[w.msgs[m].first].offset
  {
    var raw, chain := w.msgs[m], chains[m];
    KeptOnward(w, w1, w2, chains, chains, chains, {});
    LocksStay(w1, w2, chains, {m}, L);
    ChainInParts(w2, multiset{}, raw, chain);
    forall i | 0 <= i < |chain| ensures w2.parts[chain[i]].refcnt == 1 {
      assert PartOk(w2, multiset{}, chain[i]);
      assert w.parts[chain[i]].refcnt == 1;
    }
    assert raw.first == chain[0] && raw.last == chain[|chain| - 1];
  }

  // ----- locking the ends of a message -----

  function SetLock(w: World, p: nat, locked: bool): World
    requires p in w.parts
  {
    PutPart(w, p, w.parts[p].(locked := locked))
  }

  lemma LockOk(w: World, chains: map<nat, seq<nat>>, rank: map<nat, nat>, held: multiset<nat>, p: nat, locked: bool)
    requires Sound(w, chains, rank, held) && p in w.parts
    ensures Sound(SetLock(w, p, locked), chains, rank, held) && Kept(w, SetLock(w, p, locked), chains, chains, {})
  {
    var w' := SetLock(w, p, locked);
    assert PartOk(w, held, p);
    PutPartOk(w, held, held, p, w.parts[p].(locked := locked));
    FrameAway(w, w', chains, {}, {});
  }

  lemma LocksPlus(w: World, chains: map<nat, seq<nat>>, L: set<nat>, m: nat, p: nat)
    requires LocksOk(w, chains, {m}, L) && m in w.msgs && m in chains && MsgOk(w, w.msgs[m], chains[m])
    requires w.msgs[m].first != 0 && p == w.msgs[m].last && p in w.parts
    ensures LocksOk(SetLock(w, p, true), chains, {}, L + {p})
  {
    LocksAll(w, chains, {m}, L);
    var w' := SetLock(w, p, true);
    forall l | l in L + {p} ensures OnChain(w', chains, {}, l) {
      if l == p {
        assert chains[m][|chains[m]| - 1] == p;
      } else {
        assert OnChain(w, chains, {}, l);
      }
    }
  }

  lemma LocksMinus(w: World, chains: map<nat, seq<nat>>, X: set<nat>, L: set<nat>, p: nat)
    requires LocksOk(w, chains, X, L + {p}) && p in w.parts && p !in L
    ensures LocksOk(SetLock(w, p, false), chains, X, L)
  {
    var w' := SetLock(w, p, false);
    forall l | l in L ensures OnChain(w', chains, X, l) {
      assert OnChain(w, chains, X, l);
    }
  }

  function Shifted(rank: map<nat, nat>): map<nat, nat> {
    map q | q in rank :: rank[q] + 1
  }

  /** A new part that nothing points to yet. */
  lemma AddAway(w: World, chains: map<nat, seq<nat>>, rank: map<nat, nat>, held: multiset<nat>, X: set<nat>, L: set<nat>,
                p: nat, part: Part, data: seq<byte>, r: nat)
    requires Sound(w, chains, rank, held) && LocksOk(w, chains, X, L) && p != 0 && p !in w.parts
    requires part.refcnt == 1 && part.next == 0 && !part.locked && 0 <= part.offset <= part.dataEnd <= |data|
    requires part.buf in w.bufs ==> data == w.bufs[part.buf].data
    ensures var w' := AddPart(w, p, part, data);
            && Sound(w', chains, rank[p := r], held + Tok(p)) && LocksOk(w', chains, X, L) && Kept(w, w', chains, chains, {})
            && (forall q :: q in w.parts ==> SamePart(w, w', q)) && w'.msgs == w.msgs && p in w'.parts && w'.parts[p] == part
  {
    var w' := AddPart(w, p, part, data);
    AddRanked(w, rank, held, p, part, data, r);
    FrameAway(w, w', chains, {}, {});
    LocksStay(w, w', chains, X, L);
  }

  lemma AddRanked(w: World, rank: map<nat, nat>, held: multiset<nat>, p: nat, part: Part, data: seq<byte>, r: nat)
    requires HeapOk(w, held) && Ranked(w, rank) && p != 0 && p !in w.parts
    requires part.refcnt == 1 && part.next == 0 && 0 <= part.offset <= part.dataEnd <= |data|
    requires part.buf in w.bufs ==> data == w.bufs[part.buf].data
    ensures var w' := AddPart(w, p, part, data); HeapOk(w', held + Tok(p)) && Ranked(w', rank[p := r])
  {
    AddPartOk(w, held, p, part, data);
    forall q | q in w.parts ensures w.parts[q].next != p {
      assert PartOk(w, held, q);
    }
  }

  // ----- a private first part -----

  /** The private version of the first part of a message, made by rwm_lock_first_part. */
  function FirstCopy(w: World, raw: Raw): Part
    requires raw.first in w.parts
  {
    var part := w.parts[raw.first];
    Part(1, false, 0, part.buf, raw.firstOffset, if raw.last == raw.first then raw.lastOffset else part.dataEnd)
  }

  function NextOf(w: World, raw: Raw): nat
    requires raw.first in w.parts
  {
    if raw.last == raw.first then 0 else w.parts[raw.first].next
  }

  /** The memory with the private version p in place; `next` has one more reference. */
  function WithFirst(w: World, raw: Raw, p: nat): World
    requires raw.first in w.parts && w.parts[raw.first].buf in w.bufs && p !in w.parts
    requires NextOf(w, raw) == 0 || NextOf(w, raw) in w.parts
  {
    var added := AddPart(w, p, FirstCopy(w, raw), w.bufs[w.parts[raw.first].buf].data);
    if NextOf(w, raw) == 0 then added else SetNext(AddRef(added, NextOf(w, raw)), p, NextOf(w, raw))
  }

  function Refirst(raw: Raw, p: nat): Raw {
    raw.(first := p, last := if raw.last == raw.first then p else raw.last)
  }

  lemma FirstShape(w: World, rank: map<nat, nat>, held: multiset<nat>, raw: Raw, chain: seq<nat>)
    requires HeapOk(w, held) && Ranked(w, rank) && MsgOk(w, raw, chain) && raw.first != 0
    ensures raw.first in w.parts && w.parts[raw.first].buf in w.bufs
    ensures NextOf(w, raw) == (if |chain| == 1 then 0 else chain[1])
    ensures NextOf(w, raw) != 0 ==> NextOf(w, raw) in w.parts && rank[NextOf(w, raw)] < rank[raw.first]
    ensures 0 <= FirstCopy(w, raw).offset <= FirstCopy(w, raw).dataEnd <= |w.bufs[w.parts[raw.first].buf].data|
  {
    ChainDistinct(w, rank, held, raw, chain);
    assert Bounded(w, chain[0]) && Bounded(w, chain[|chain| - 1]);
    if |chain| > 1 { assert w.parts[chain[0]].next == chain[1]; }
  }

  /** A held part that nothing points to yet gets a successor. */
  lemma SetNextAway(w: World, chains: map<nat, seq<nat>>, rank: map<nat, nat>, L: set<nat>, m: nat, p: nat, next: nat)
    requires Sound(w, chains, rank, Tok(p) + Tok(next)) && LocksOk(w, chains, {m}, L)
    requires p != 0 && p in w.parts && w.parts[p].refcnt == 1 && w.parts[p].next == 0
    requires next != 0 && next in w.parts && rank[next] < rank[p]
    ensures var w' := SetNext(w, p, next);
            && Sound(w', chains, rank, Tok(p)) && LocksOk(w', chains, {m}, L) && Kept(w, w', chains, chains, {})
            && w'.msgs == w.msgs && forall q :: q in w.parts && q != p ==> SamePart(w, w', q)
  {
    var w' := SetNext(w, p, next);
    SetNextOk(w, Tok(p) + Tok(next), p, next);
    assert Tok(p) + Tok(next) - Tok(next) + Tok(0) == Tok(p);
    HeldIsAway(w, Tok(p) + Tok(next), chains, {}, p);
    FrameAway(w, w', chains, {}, {p});
    LocksStay(w, w', chains, {m}, L);
  }

  lemma LinkNew(w: World, chains: map<nat, seq<nat>>, rank: map<nat, nat>, L: set<nat>, m: nat, p: nat, next: nat)
    requires Sound(w, chains, rank, Tok(p)) && LocksOk(w, chains, {m}, L)
    requires p != 0 && p in w.parts && w.parts[p].refcnt == 1 && w.parts[p].next == 0
    requires next != 0 && next in w.parts && rank[next] < rank[p]
    ensures var w' := SetNext(AddRef(w, next), p, next);
            && Sound(w', chains, rank, Tok(p)) && LocksOk(w', chains, {m}, L) && Kept(w, w', chains, chains, {})
            && w'.msgs == w.msgs && forall q :: q in w.parts && q != p ==> SamePart(w, w', q)
  {
    var more := AddRef(w, next);
    Incref(w, chains, rank, Tok(p), {m}, L, next);
    SetNextAway(more, chains, rank, L, m, p, next);
    KeptOnward(w, more, SetNext(more, p, next), chains, chains, chains, {});
    forall q | q in w.parts && q != p ensures SamePart(w, SetNext(more, p, next), q) {
      assert SamePart(more, SetNext(more, p, next), q);
    }
  }

  lemma WithFirstOk(w: World, chains: map<nat, seq<nat>>, rank: map<nat, nat>, m: nat, L: set<nat>, p: nat)
    requires Sound(w, chains, rank, multiset{}) && LocksOk(w, chains, {m}, L) && m in w.msgs && w.msgs[m].first != 0
    requires p != 0 && p !in w.parts
    ensures w.msgs[m].first in w.parts && w.parts[w.msgs[m].first].buf in w.bufs
    ensures NextOf(w, w.msgs[m]) == 0 || NextOf(w, w.msgs[m]) in w.parts
    ensures var w' := WithFirst(w, w.msgs[m], p);
            && Sound(w', chains, rank[p := rank[w.msgs[m].first]], Tok(p)) && LocksOk(w', chains, {m}, L)
            && Kept(w, w', chains, chains, {}) && w'.msgs == w.msgs && (forall q :: q in w.parts ==> SamePart(w, w', q))
  {
    var raw := w.msgs[m];
    FirstShape(w, rank, multiset{}, raw, chains[m]);
    var added := AddPart(w, p, FirstCopy(w, raw), w.bufs[w.parts[raw.first].buf].data);
    var rank' := rank[p := rank[raw.first]];
    AddAway(w, chains, rank, multiset{}, {m}, L, p, FirstCopy(w, raw), w.bufs[w.parts[raw.first].buf].data, rank[raw.first]);
    assert multiset{} + Tok(p) == Tok(p);
    var next := NextOf(w, raw);
    if next != 0 {
      LinkNew(added, chains, rank', L, m, p, next);
      KeptOnward(w, added, WithFirst(w, raw, p), chains, chains, chains, {});
      forall q | q in w.parts ensures SamePart(w, WithFirst(w, raw, p), q) {
        assert SamePart(w, added, q) && SamePart(added, WithFirst(w, raw, p), q);
      }
    }
  }

  lemma WithFirstMsg(w: World, rank: map<nat, nat>, held: multiset<nat>, raw: Raw, chain: seq<nat>, p: nat)
    requires HeapOk(w, held) && Ranked(w, rank) && MsgOk(w, raw, chain) && raw.first != 0
    requires p != 0 && p !in w.parts
    requires raw.first in w.parts && w.parts[raw.first].buf in w.bufs && (NextOf(w, raw) == 0 || NextOf(w, raw) in w.parts)
    requires forall q :: q in w.parts ==> SamePart(w, WithFirst(w, raw, p), q)
    ensures var w', raw', chain' := WithFirst(w, raw, p), Refirst(raw, p), [p] + chain[1..];
            && MsgOk(w', raw', chain') && MsgBytes(w', raw', chain') == MsgBytes(w, raw, chain)
            && p in w'.parts && w'.parts[p] == FirstCopy(w, raw).(next := NextOf(w, raw))
            && (OpenEnd(w, raw) ==> OpenEnd(w', raw'))
  {
    var w', raw', chain' := WithFirst(w, raw, p), Refirst(raw, p), [p] + chain[1..];
    var lo, hi := raw.firstOffset, raw.lastOffset;
    FirstShape(w, rank, held, raw, chain);
    ChainDistinct(w, rank, held, raw, chain);
    forall i: nat | i < |chain|
      ensures Bounded(w', chain'[i]) && Piece(w', chain', lo, hi, i) == Piece(w, chain, lo, hi, i)
    {
      assert Bounded(w, chain[i]);
      if i > 0 { assert SamePart(w, w', chain[i]); }
    }
    assert Pieces(w', chain', lo, hi) == Pieces(w, chain, lo, hi);
    forall i | 0 <= i < |chain'| - 1 ensures w'.parts[chain'[i]].next == chain'[i + 1] {
      if i > 0 { assert SamePart(w, w', chain[i]) && w.parts[chain[i]].next == chain[i + 1]; }
    }
    assert Bounded(w', chain'[0]) && Bounded(w', chain'[|chain'| - 1]);
    if |chain| > 1 { assert SamePart(w, w', chain[|chain| - 1]); }
  }

  lemma OwnIsOpen(w0: World, w: World, chains0: map<nat, seq<nat>>, chains: map<nat, seq<nat>>, rank: map<nat, nat>, m: nat, L: set<nat>)
    requires Forked(w0, w, chains0, chains, rank, m, L)
    ensures OpenEnd(w, w.msgs[m])
  {
  }

  lemma LastIsPart(w: World, chains: map<nat, seq<nat>>, rank: map<nat, nat>, held: multiset<nat>, m: nat)
    requires Sound(w, chains, rank, held) && m in w.msgs && w.msgs[m].first != 0
    ensures w.msgs[m].first in w.parts && w.msgs[m].last in w.parts && w.msgs[m].last != 0
    ensures 0 <= w.msgs[m].lastOffset <= w.parts[w.msgs[m].last].dataEnd
  {
    ChainInParts(w, held, w.msgs[m], chains[m]);
    assert Bounded(w, chains[m][0]) && Bounded(w, chains[m][|chains[m]| - 1]);
  }

  function Refirsted(w: World, m: nat, p: nat): World
    requires m in w.msgs && w.msgs[m].first in w.parts && w.parts[w.msgs[m].first].buf in w.bufs && p !in w.parts
    requires NextOf(w, w.msgs[m]) == 0 || NextOf(w, w.msgs[m]) in w.parts
  {
    SetMsg(WithFirst(w, w.msgs[m], p), m, Refirst(w.msgs[m], p))
  }

  /** The message gets a private first part; the reference to the old one is left to the caller. */
  lemma RefirstedOk(w: World, chains: map<nat, seq<nat>>, rank: map<nat, nat>, m: nat, L: set<nat>, p: nat)
    requires Sound(w, chains, rank, multiset{}) && LocksOk(w, chains, {m}, L) && m in w.msgs && w.msgs[m].first != 0
    requires p != 0 && p !in w.parts
    ensures w.msgs[m].first in w.parts && w.parts[w.msgs[m].first].buf in w.bufs
    ensures NextOf(w, w.msgs[m]) == 0 || NextOf(w, w.msgs[m]) in w.parts
    ensures var w', raw, chain := Refirsted(w, m, p), w.msgs[m], [p] + chains[m][1..];
            && Sound(w', chains[m := chain], rank[p := rank[raw.first]], multiset{} + Tok(raw.first))
            && LocksOk(w', chains[m := chain], {m}, L) && Kept(w, w', chains, chains[m := chain], {m})
            && MsgBytes(w', w'.msgs[m], chain) == MsgBytes(w, raw, chains[m])
            && p in w'.parts && w'.parts[p].offset == raw.firstOffset
            && (OpenEnd(w, raw) ==> OpenEnd(w', w'.msgs[m]))
  {
    var raw, chain := w.msgs[m], [p] + chains[m][1..];
    WithFirstOk(w, chains, rank, m, L, p);
    WithFirstMsg(w, rank, multiset{}, raw, chains[m], p);
    var w1 := WithFirst(w, raw, p);
    assert multiset{} + Tok(p) == Tok(p);
    Retarget(w1, chains, rank[p := rank[raw.first]], multiset{}, L, m, Refirst(raw, p), chain);
    KeptFewer(w, w1, chains, chains, {m});
    KeptOnward(w, w1, Refirsted(w, m, p), chains, chains, chains[m := chain], {m});
  }

  /** What rwm_lock_first_part leaves: m has the same bytes and starts where its first part starts. */
  ghost predicate Fronted(w0: World, w: World, chains0: map<nat, seq<nat>>, chains: map<nat, seq<nat>>, rank: map<nat, nat>, m: nat, L: set<nat>) {
    && Sound(w, chains, rank, multiset{}) && LocksOk(w, chains, {m}, L)
    && Kept(w0, w, chains0, chains, {m}) && w.msgs.Keys == w0.msgs.Keys
    && m in w0.msgs && m in w.msgs && m in chains && m in chains0
    && MsgBytes(w, w.msgs[m], chains[m]) == MsgBytes(w0, w0.msgs[m], chains0[m])
    && (w.msgs[m].first == 0) == (w0.msgs[m].first == 0)
    && (w.msgs[m].first != 0 ==>
          w.msgs[m].first in w.parts && w.parts[w.msgs[m].first].offset == w.msgs[m].firstOffset)
    && (OpenEnd(w0, w0.msgs[m]) ==> OpenEnd(w, w.msgs[m]))
    && (w.msgs[m].last == w0.msgs[m].last || w.msgs[m].last !in w0.parts)
  }

  lemma FrontedAlready(w: World, chains: map<nat, seq<nat>>, rank: map<nat, nat>, m: nat, L: set<nat>)
    requires Sound(w, chains, rank, multiset{}) && LocksOk(w, chains, {m}, L) && m in w.msgs
    requires w.msgs[m].first != 0 ==>
      w.msgs[m].first in w.parts && w.parts[w.msgs[m].first].offset == w.msgs[m].firstOffset
    ensures Fronted(w, w, chains, chains, rank, m, L)
  {
    KeptSame(w, chains, {m});
  }

  lemma FrontedInPlace(w: World, chains: map<nat, seq<nat>>, rank: map<nat, nat>, m: nat, L: set<nat>)
    requires Sound(w, chains, rank, multiset{}) && LocksOk(w, chains, {m}, L)
    requires m in w.msgs && w.msgs[m].first in w.parts && w.parts[w.msgs[m].first].refcnt == 1
    ensures Fronted(w, Aligned(w, w.msgs[m]), chains, chains, rank, m, L)
  {
    Align(w, chains, rank, L, m);
    KeptFewer(w, Aligned(w, w.msgs[m]), chains, chains, {m});
  }

  /** Once the message points to its private first part, the old one is let go. */
  lemma FrontedByCopy(w0: World, w1: World, w: World, chains0: map<nat, seq<nat>>, chains: map<nat, seq<nat>>,
                      rank: map<nat, nat>, m: nat, L: set<nat>, p: nat)
    requires m in w0.msgs && m in chains0 && w0.msgs[m].first in w0.parts && w0.parts[w0.msgs[m].first].buf in w0.bufs
    requires NextOf(w0, w0.msgs[m]) == 0 || NextOf(w0, w0.msgs[m]) in w0.parts
    requires p != 0 && p !in w0.parts && w0.msgs[m].first != 0 && w1 == Refirsted(w0, m, p) && m in chains
    requires LocksOk(w1, chains, {m}, L) && Kept(w0, w1, chains0, chains, {m})
    requires MsgBytes(w1, w1.msgs[m], chains[m]) == MsgBytes(w0, w0.msgs[m], chains0[m])
    requires p in w1.parts && w1.parts[p].offset == w0.msgs[m].firstOffset
    requires OpenEnd(w0, w0.msgs[m]) ==> OpenEnd(w1, w1.msgs[m])
    requires Kept(w1, w, chains, chains, {}) && Shrinks(w1, w) && Sound(w, chains, rank, multiset{})
    ensures Fronted(w0, w, chains0, chains, rank, m, L)
  {
    FrontedKept(w0, w1, w, chains0, chains, m, L);
    LastIsPart(w, chains, rank, multiset{}, m);
  }

  lemma FrontedKept(w0: World, w1: World, w: World, chains0: map<nat, seq<nat>>, chains: map<nat, seq<nat>>, m: nat, L: set<nat>)
    requires LocksOk(w1, chains, {m}, L) && Kept(w0, w1, chains0, chains, {m}) && m in w1.msgs && m in chains
    requires Kept(w1, w, chains, chains, {}) && Shrinks(w1, w) && MsgsOk(w, chains, {})
    ensures LocksOk(w, chains, {m}, L) && Kept(w0, w, chains0, chains, {m}) && m in w.msgs && w.msgs[m] == w1.msgs[m]
    ensures MsgBytes(w, w.msgs[m], chains[m]) == MsgBytes(w1, w1.msgs[m], chains[m])
    ensures OpenEnd(w1, w1.msgs[m]) ==> OpenEnd(w, w.msgs[m])
  {
    KeptFewer(w1, w, chains, chains, {m});
    KeptOnward(w0, w1, w, chains0, chains, chains, {m});
    LocksStay(w1, w, chains, {m}, L);
  }
}
