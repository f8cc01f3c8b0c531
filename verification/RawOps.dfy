/** What single operations on messages add up to: cloning, moving, splitting and cutting. */
module RawOps {
  import opened RawMem
  import opened RawHeap
  import opened RawSteps

  lemma Plus(held: multiset<nat>)
    ensures held + Tok(0) == held
  {
  }

  // ----- what a caller sees -----

  /** Between calls counts are exact, `next` is acyclic, every total_bytes is exact, and nothing is locked. */
  ghost predicate Good(s: State) {
    Sound(s.w, s.chains, s.rank, multiset{}) && LocksOk(s.w, s.chains, {}, {})
  }

  ghost predicate In(s: State, m: nat) {
    m in s.w.msgs && m in s.chains
  }

  /** The byte string that message m stands for. */
  ghost function ViewOf(s: State, m: nat): seq<byte>
    requires In(s, m)
  {
    MsgBytes(s.w, s.w.msgs[m], s.chains[m])
  }

  /** The messages outside X are what they were, down to their bytes. */
  ghost predicate Others(s: State, s': State, X: set<nat>) {
    SameBytes(s.w, s'.w, s.chains, s'.chains, X)
  }

  lemma OthersOnward(s: State, s1: State, s2: State, X: set<nat>)
    requires Others(s, s1, X) && Others(s1, s2, X)
    ensures Others(s, s2, X)
  {
  }

  lemma KeysSet(w: World, m: nat, raw: Raw)
    ensures SetMsg(w, m, raw).msgs.Keys == w.msgs.Keys + {m}
  {
  }

  lemma KeysDropped(w: World, m: nat)
    ensures DropMsg(w, m).msgs.Keys == w.msgs.Keys - {m}
  {
  }

  // ----- clone and move -----

  function Cloned(w: World, dst: nat, src: nat): World
    requires src in w.msgs && (w.msgs[src].first != 0 ==> w.msgs[src].first in w.parts)
  {
    SetMsg(if w.msgs[src].first == 0 then w else AddRef(w, w.msgs[src].first), dst, w.msgs[src])
  }

  lemma CloneOk(w: World, chains: map<nat, seq<nat>>, rank: map<nat, nat>, dst: nat, src: nat)
    requires Sound(w, chains, rank, multiset{}) && LocksOk(w, chains, {}, {}) && src in w.msgs && dst !in w.msgs
    ensures w.msgs[src].first != 0 ==> w.msgs[src].first in w.parts
    ensures var w', chains' := Cloned(w, dst, src), chains[dst := chains[src]];
            && Sound(w', chains', rank, multiset{}) && LocksOk(w', chains', {}, {})
            && Kept(w, w', chains, chains', {dst})
            && MsgBytes(w', w.msgs[src], chains[src]) == MsgBytes(w, w.msgs[src], chains[src])
  {
    var raw, chain := w.msgs[src], chains[src];
    var w1 := w;
    Plus(multiset{});
    if raw.first != 0 {
      LastIsPart(w, chains, rank, multiset{}, src);
      Incref(w, chains, rank, multiset{}, {}, {}, raw.first);
      w1 := AddRef(w, raw.first);
    } else {
      KeptSame(w, chains, {});
    }
    Retarget(w1, chains, rank, multiset{}, {}, dst, raw, chain);
    KeptFewer(w, w1, chains, chains, {dst});
    KeptOnward(w, w1, SetMsg(w1, dst, raw), chains, chains, chains[dst := chain], {dst});
  }

  lemma CloneDone(s: State, dst: nat, src: nat)
    requires Good(s) && In(s, src) && dst !in s.w.msgs
    ensures s.w.msgs[src].first != 0 ==> s.w.msgs[src].first in s.w.parts
    ensures var s' := s.(w := Cloned(s.w, dst, src), chains := s.chains[dst := s.chains[src]]);
            && Good(s') && In(s', src) && In(s', dst)
            && Others(s, s', {dst}) && ViewOf(s', dst) == ViewOf(s, src) && ViewOf(s', src) == ViewOf(s, src)
  {
    CloneOk(s.w, s.chains, s.rank, dst, src);
  }

  function Moved(w: World, dst: nat, src: nat): World
    requires src in w.msgs
  {
    SetMsg(DropMsg(w, src), dst, w.msgs[src])
  }

  lemma MoveSound(w: World, chains: map<nat, seq<nat>>, rank: map<nat, nat>, dst: nat, src: nat)
    requires Sound(w, chains, rank, multiset{}) && LocksOk(w, chains, {}, {}) && src in w.msgs
    requires dst != src && FirstOf(w, dst) == 0
    ensures var w1, w', chains' := DropMsg(w, src), Moved(w, dst, src), chains[dst := chains[src]];
            && Sound(w', chains', rank, multiset{}) && LocksOk(w', chains', {dst}, {})
            && Kept(w, w1, chains, chains, {src}) && Kept(w1, w', chains, chains', {dst})
            && MsgBytes(w', w.msgs[src], chains[src]) == MsgBytes(w1, w.msgs[src], chains[src])
  {
    var raw, chain := w.msgs[src], chains[src];
    var w1 := DropMsg(w, src);
    Drop(w, chains, rank, multiset{}, {}, src);
    SameMem(w, w1, raw, chain);
    Retarget(w1, chains, rank, multiset{}, {}, dst, raw, chain);
    Plus(multiset{});
  }

  lemma MoveOk(w: World, chains: map<nat, seq<nat>>, rank: map<nat, nat>, dst: nat, src: nat)
    requires Sound(w, chains, rank, multiset{}) && LocksOk(w, chains, {}, {}) && src in w.msgs
    requires dst != src && FirstOf(w, dst) == 0
    ensures var w', chains' := Moved(w, dst, src), chains[dst := chains[src]];
            && Sound(w', chains', rank, multiset{}) && LocksOk(w', chains', {}, {})
            && Kept(w, w', chains, chains', {src} + {dst})
            && MsgBytes(w', w.msgs[src], chains[src]) == MsgBytes(w, w.msgs[src], chains[src])
  {
    var w1, w', chains' := DropMsg(w, src), Moved(w, dst, src), chains[dst := chains[src]];
    MoveSound(w, chains, rank, dst, src);
    KeptUnion(w, w1, w', chains, chains, chains', {src}, {dst});
    LocksAll(w', chains', {dst}, {});
    SameMem(w, w1, w.msgs[src], chains[src]);
  }

  lemma MoveDone(s: State, dst: nat, src: nat)
    requires Good(s) && In(s, src) && dst != src && FirstOf(s.w, dst) == 0
    ensures var s' := s.(w := Moved(s.w, dst, src), chains := s.chains[dst := s.chains[src]]);
            && Good(s') && In(s', dst)
            && Others(s, s', {src} + {dst}) && ViewOf(s', dst) == ViewOf(s, src)
  {
    MoveOk(s.w, s.chains, s.rank, dst, src);
  }

  // ----- splitting -----

  function HeadOf(raw: Raw, p: nat, cut: int, bytes: int): Raw {
    raw.(last := p, lastOffset := cut, total := bytes)
  }

  function TailOf(raw: Raw, p: nat, cut: int, bytes: int): Raw {
    raw.(first := p, firstOffset := cut, total := raw.total - bytes)
  }

  /** Message m keeps the bytes up to offset cut of its part p; t gets those from there on. */
  function SplitUp(w: World, m: nat, t: nat, p: nat, cut: int, bytes: int): World
    requires m in w.msgs && p in w.parts
  {
    SetMsg(SetMsg(AddRef(w, p), t, TailOf(w.msgs[m], p, cut, bytes)), m, HeadOf(w.msgs[m], p, cut, bytes))
  }

  lemma SplitMsgs(w: World, raw: Raw, chain: seq<nat>, k: nat, cut: int, bytes: int)
    requires MsgOk(w, raw, chain) && raw.first != 0 && k < |chain| && chain[k] != 0
    requires Start(w, chain, raw.firstOffset, k) <= cut <= End(w, chain, raw.lastOffset, k)
    requires Before(w, chain, raw.firstOffset, k) + cut - Start(w, chain, raw.firstOffset, k) == bytes
    ensures var head, tail := HeadOf(raw, chain[k], cut, bytes), TailOf(raw, chain[k], cut, bytes);
            && 0 <= bytes <= |MsgBytes(w, raw, chain)|
            && MsgOk(w, head, chain[..k + 1]) && MsgOk(w, tail, chain[k..])
            && MsgBytes(w, head, chain[..k + 1]) == MsgBytes(w, raw, chain)[..bytes]
            && MsgBytes(w, tail, chain[k..]) == MsgBytes(w, raw, chain)[bytes..]
  {
    CutAt(w, chain, raw.firstOffset, raw.lastOffset, k, cut);
  }

  /** Where offset cut of the k-th part of m lies: behind `bytes` bytes. */
  ghost predicate CutsAt(w: World, chains: map<nat, seq<nat>>, m: nat, k: nat, cut: int, bytes: int) {
    && m in w.msgs && m in chains
    && (var raw, chain := w.msgs[m], chains[m];
        && raw.first != 0 && k < |chain| && chain[k] in w.parts && chain[k] != 0
        && Start(w, chain, raw.firstOffset, k) <= cut <= End(w, chain, raw.lastOffset, k)
        && Before(w, chain, raw.firstOffset, k) + cut - Start(w, chain, raw.firstOffset, k) == bytes)
  }

  lemma SplitTail(w: World, chains: map<nat, seq<nat>>, rank: map<nat, nat>, m: nat, t: nat, k: nat, cut: int, bytes: int)
    requires Sound(w, chains, rank, multiset{}) && LocksOk(w, chains, {}, {}) && t !in w.msgs
    requires CutsAt(w, chains, m, k, cut, bytes)
    ensures var raw, chain := w.msgs[m], chains[m];
            var head, tail := HeadOf(raw, chain[k], cut, bytes), TailOf(raw, chain[k], cut, bytes);
            var w', chains' := SetMsg(AddRef(w, chain[k]), t, tail), chains[t := chain[k..]];
            && Sound(w', chains', rank, multiset{}) && LocksOk(w', chains', {}, {}) && Kept(w, w', chains, chains', {t})
            && MsgOk(w', head, chain[..k + 1]) && 0 <= bytes <= |MsgBytes(w, raw, chain)|
            && MsgBytes(w', head, chain[..k + 1]) == MsgBytes(w, raw, chain)[..bytes]
            && MsgBytes(w', tail, chain[k..]) == MsgBytes(w, raw, chain)[bytes..]
  {
    var raw, chain, p := w.msgs[m], chains[m], chains[m][k];
    var head, tail := HeadOf(raw, p, cut, bytes), TailOf(raw, p, cut, bytes);
    Incref(w, chains, rank, multiset{}, {}, {}, p);
    var w1 := AddRef(w, p);
    SplitMsgs(w, raw, chain, k, cut, bytes);
    CountsOnly(w, w1, head, chain[..k + 1]);
    CountsOnly(w, w1, tail, chain[k..]);
    Retarget(w1, chains, rank, multiset{}, {}, t, tail, chain[k..]);
    Plus(multiset{});
    SameMem(w1, SetMsg(w1, t, tail), head, chain[..k + 1]);
    KeptFewer(w, w1, chains, chains, {t});
    KeptOnward(w, w1, SetMsg(w1, t, tail), chains, chains, chains[t := chain[k..]], {t});
  }

  lemma SplitOk(w: World, chains: map<nat, seq<nat>>, rank: map<nat, nat>, m: nat, t: nat, k: nat, cut: int, bytes: int)
    requires Sound(w, chains, rank, multiset{}) && LocksOk(w, chains, {}, {}) && t !in w.msgs
    requires CutsAt(w, chains, m, k, cut, bytes)
    ensures var chain := chains[m];
            var w', chains' := SplitUp(w, m, t, chain[k], cut, bytes), chains[t := chain[k..]][m := chain[..k + 1]];
            && Sound(w', chains', rank, multiset{}) && LocksOk(w', chains', {}, {}) && Kept(w, w', chains, chains', {t} + {m})
            && 0 <= bytes <= |MsgBytes(w, w.msgs[m], chain)|
            && MsgBytes(w', w'.msgs[m], chains'[m]) == MsgBytes(w, w.msgs[m], chain)[..bytes]
            && MsgBytes(w', w'.msgs[t], chains'[t]) == MsgBytes(w, w.msgs[m], chain)[bytes..]
  {
    var raw, chain, p := w.msgs[m], chains[m], chains[m][k];
    var head, tail := HeadOf(raw, p, cut, bytes), TailOf(raw, p, cut, bytes);
    SplitTail(w, chains, rank, m, t, k, cut, bytes);
    var w2, chains2 := SetMsg(AddRef(w, p), t, tail), chains[t := chain[k..]];
    Rerange(w2, chains2, rank, multiset{}, {}, m, head, chain[..k + 1]);
    KeptUnion(w, w2, SetMsg(w2, m, head), chains, chains2, chains2[m := chain[..k + 1]], {t}, {m});
    LocksAll(SetMsg(w2, m, head), chains2[m := chain[..k + 1]], {m}, {});
  }

  /** What rwm_split does to the bytes of m and t. */
  ghost predicate SplitAt(s: State, s': State, m: nat, t: nat, bytes: int, r: int) {
    && In(s, m) && In(s', m) && In(s', t)
    && (var v := ViewOf(s, m);
        && (bytes >= |v| ==> ViewOf(s', m) == v && ViewOf(s', t) == [] && r == if bytes == |v| then 0 else -1)
        && (0 <= bytes < |v| ==> ViewOf(s', m) == v[..bytes] && ViewOf(s', t) == v[bytes..] && r == 0))
  }

  /** m is cut, t is a message, and nothing else has changed. */
  ghost predicate Splits(s: State, s': State, m: nat, t: nat, bytes: int, r: int) {
    Good(s') && Others(s, s', {t} + {m}) && SplitAt(s, s', m, t, bytes, r) && s'.w.msgs.Keys == s.w.msgs.Keys + {t}
  }

  lemma SplitKeys(w: World, m: nat, t: nat, p: nat, cut: int, bytes: int)
    requires m in w.msgs && p in w.parts
    ensures SplitUp(w, m, t, p, cut, bytes).msgs.Keys == w.msgs.Keys + {t}
  {
  }

  function Halves(chains: map<nat, seq<nat>>, m: nat, t: nat, k: nat): map<nat, seq<nat>>
    requires m in chains && k < |chains[m]|
  {
    chains[t := chains[m][k..]][m := chains[m][..k + 1]]
  }

  lemma SplitDone(s: State, m: nat, t: nat, k: nat, cut: int, bytes: int)
    requires Good(s) && In(s, m) && t !in s.w.msgs && CutsAt(s.w, s.chains, m, k, cut, bytes) && bytes < s.w.msgs[m].total
    ensures var chain := s.chains[m];
            var s' := s.(w := SplitUp(s.w, m, t, chain[k], cut, bytes), chains := Halves(s.chains, m, t, k));
            Splits(s, s', m, t, bytes, 0)
  {
    SplitOk(s.w, s.chains, s.rank, m, t, k, cut, bytes);
    SplitKeys(s.w, m, t, s.chains[m][k], cut, bytes);
  }

  /** A new message without bytes. */
  lemma Created(s: State, t: nat)
    requires Good(s) && t !in s.w.msgs
    ensures var s' := s.(w := SetMsg(s.w, t, EMPTY), chains := s.chains[t := []]);
            Good(s') && In(s', t) && ViewOf(s', t) == [] && Others(s, s', {t}) && s'.w.msgs.Keys == s.w.msgs.Keys + {t}
  {
    Plus(multiset{});
    Retarget(s.w, s.chains, s.rank, multiset{}, {}, t, EMPTY, []);
    KeysSet(s.w, t, EMPTY);
  }

  lemma SplitNothing(s: State, m: nat, t: nat, bytes: int)
    requires Good(s) && In(s, m) && t !in s.w.msgs && bytes >= s.w.msgs[m].total
    ensures var s' := s.(w := SetMsg(s.w, t, EMPTY), chains := s.chains[t := []]);
            Splits(s, s', m, t, bytes, if bytes == s.w.msgs[m].total then 0 else -1)
  {
    NewEmpty(s.w, s.chains, s.rank, m, t);
    KeysSet(s.w, t, EMPTY);
  }

  /** What rwm_split_head does to the bytes of head and m. */
  ghost predicate SplitHeadAt(s: State, s': State, head: nat, m: nat, bytes: int, r: int) {
    && In(s, m) && In(s', m) && In(s', head)
    && (var v := ViewOf(s, m);
        && (bytes >= |v| ==> ViewOf(s', head) == v && ViewOf(s', m) == [] && r == if bytes == |v| then 0 else -1)
        && (0 <= bytes < |v| ==> ViewOf(s', head) == v[..bytes] && ViewOf(s', m) == v[bytes..] && r == 0))
  }

  lemma SplitHeadDone(s: State, s1: State, s': State, head: nat, m: nat, bytes: int, r: int)
    requires In(s, m) && In(s1, head) && ViewOf(s1, head) == ViewOf(s, m)
    requires Others(s, s1, {m} + {head}) && Others(s1, s', {m} + {head}) && SplitAt(s1, s', head, m, bytes, r)
    ensures SplitHeadAt(s, s', head, m, bytes, r) && Others(s, s', {m} + {head})
  {
  }

  // ----- cutting one end off -----

  /** The prefix up to offset cut of the part p is left out: first and first_offset are moved there. */
  function Advanced(w: World, m: nat, p: nat, cut: int, bytes: int): World
    requires m in w.msgs && p in w.parts
  {
    if p == w.msgs[m].first then SetMsg(w, m, TailOf(w.msgs[m], p, cut, bytes))
    else SetMsg(AddRef(w, p), m, TailOf(w.msgs[m], p, cut, bytes))
  }

  /** The reference that Advanced leaves to be given up. */
  function Passed(w: World, m: nat, p: nat): nat
    requires m in w.msgs
  {
    if p == w.msgs[m].first then 0 else w.msgs[m].first
  }

  lemma AdvanceOk(w: World, chains: map<nat, seq<nat>>, rank: map<nat, nat>, m: nat, k: nat, cut: int, bytes: int)
    requires Sound(w, chains, rank, multiset{}) && LocksOk(w, chains, {}, {}) && CutsAt(w, chains, m, k, cut, bytes)
    ensures var chain := chains[m];
            var w', chains' := Advanced(w, m, chain[k], cut, bytes), chains[m := chain[k..]];
            && Sound(w', chains', rank, multiset{} + Tok(Passed(w, m, chain[k]))) && LocksOk(w', chains', {}, {})
            && Kept(w, w', chains, chains', {m}) && 0 <= bytes <= |MsgBytes(w, w.msgs[m], chain)|
            && MsgBytes(w', w'.msgs[m], chains'[m]) == MsgBytes(w, w.msgs[m], chain)[bytes..]
  {
    var raw, chain, p := w.msgs[m], chains[m], chains[m][k];
    var tail := TailOf(raw, p, cut, bytes);
    SplitMsgs(w, raw, chain, k, cut, bytes);
    if p == raw.first {
      Plus(multiset{});
      Rerange(w, chains, rank, multiset{}, {}, m, tail, chain[k..]);
    } else {
      Incref(w, chains, rank, multiset{}, {}, {}, p);
      CountsOnly(w, AddRef(w, p), tail, chain[k..]);
      Retarget(AddRef(w, p), chains, rank, multiset{}, {}, m, tail, chain[k..]);
      KeptFewer(w, AddRef(w, p), chains, chains, {m});
      KeptOnward(w, AddRef(w, p), SetMsg(AddRef(w, p), m, tail), chains, chains, chains[m := chain[k..]], {m});
    }
  }

  lemma CutBackOk(w: World, chains: map<nat, seq<nat>>, rank: map<nat, nat>, m: nat, k: nat, cut: int, bytes: int)
    requires Sound(w, chains, rank, multiset{}) && LocksOk(w, chains, {}, {}) && CutsAt(w, chains, m, k, cut, bytes)
    ensures var chain := chains[m];
            var w', chains' := SetMsg(w, m, HeadOf(w.msgs[m], chain[k], cut, bytes)), chains[m := chain[..k + 1]];
            && Sound(w', chains', rank, multiset{}) && LocksOk(w', chains', {}, {})
            && Kept(w, w', chains, chains', {m}) && 0 <= bytes <= |MsgBytes(w, w.msgs[m], chain)|
            && MsgBytes(w', w'.msgs[m], chains'[m]) == MsgBytes(w, w.msgs[m], chain)[..bytes]
  {
    var raw, chain := w.msgs[m], chains[m];
    SplitMsgs(w, raw, chain, k, cut, bytes);
    Rerange(w, chains, rank, multiset{}, {}, m, HeadOf(raw, chain[k], cut, bytes), chain[..k + 1]);
  }

  /** Once its owner has moved on, the parts that it alone referred to are gone. */
  lemma {:induction false} Gone(w: World, w2: World, m: nat, path: seq<nat>, i: nat)
    requires HeapOk(w, multiset{}) && HeapOk(w2, multiset{}) && Runs(w, m, path) && Sole(w, path) && i + 1 < |path|
    requires forall j, k :: 0 <= j < k < |path| ==> path[j] != path[k]
    requires m in w2.msgs && w2.msgs == w.msgs[m := w2.msgs[m]] && w2.msgs[m].first == path[|path| - 1]
    requires forall p :: p in w2.parts ==> p in w.parts && w2.parts[p].next == w.parts[p].next
    ensures path[i] !in w2.parts
    decreases i
  {
    if i > 0 { Gone(w, w2, m, path, i - 1); }
    OneWayIn(w, multiset{}, m, path, i);
    assert Heads(w2, path[i]) == {} by {
      forall k | k in w2.msgs ensures w2.msgs[k].first != path[i] { assert k !in Heads(w, path[i]) || k == m; }
    }
    assert Preds(w2, path[i]) == {} by {
      forall q | q in w2.parts ensures w2.parts[q].next != path[i] {
        assert q !in Preds(w, path[i]);
      }
    }
    assert path[i] in w2.parts ==> PartOk(w2, multiset{}, path[i]);
  }

  lemma SoleAfter(w: World, w2: World, m: nat, path: seq<nat>)
    requires HeapOk(w, multiset{}) && HeapOk(w2, multiset{}) && Runs(w, m, path) && Sole(w, path) && path != []
    requires forall j, k :: 0 <= j < k < |path| ==> path[j] != path[k]
    requires m in w2.msgs && w2.msgs == w.msgs[m := w2.msgs[m]] && w2.msgs[m].first == path[|path| - 1]
    requires forall p :: p in w2.parts ==> p in w.parts && w2.parts[p].next == w.parts[p].next
    requires path[|path| - 1] in w2.parts
    ensures w2.parts[path[|path| - 1]].refcnt == 1
  {
    var p := path[|path| - 1];
    OneWayIn(w, multiset{}, m, path, |path| - 1);
    if |path| > 1 { Gone(w, w2, m, path, |path| - 2); }
    assert PartOk(w2, multiset{}, p);
    assert Heads(w2, p) == {m} by {
      forall k | k in w2.msgs && k != m ensures w2.msgs[k].first != p { assert k !in Heads(w, p); }
    }
    assert Preds(w2, p) == {} by {
      forall q | q in w2.parts ensures w2.parts[q].next != p {
        assert w.parts[q].next == p ==> q in Preds(w, p);
      }
    }
  }

  // ----- emptying -----

  lemma ClearOk(w: World, chains: map<nat, seq<nat>>, rank: map<nat, nat>, m: nat)
    requires Sound(w, chains, rank, multiset{}) && LocksOk(w, chains, {}, {}) && m in w.msgs
    ensures var w', chains' := SetMsg(w, m, EMPTY), chains[m := []];
            && Sound(w', chains', rank, multiset{} + Tok(w.msgs[m].first)) && LocksOk(w', chains', {}, {})
            && Kept(w, w', chains, chains', {m})
  {
    Plus(multiset{});
    Retarget(w, chains, rank, multiset{}, {}, m, EMPTY, []);
  }

  lemma NewEmpty(w: World, chains: map<nat, seq<nat>>, rank: map<nat, nat>, m: nat, t: nat)
    requires Sound(w, chains, rank, multiset{}) && LocksOk(w, chains, {}, {}) && m in w.msgs && t !in w.msgs
    ensures var w', chains' := SetMsg(w, t, EMPTY), chains[t := []];
            && Sound(w', chains', rank, multiset{}) && LocksOk(w', chains', {}, {})
            && Kept(w, w', chains, chains', {t} + {m}) && MsgBytes(w', EMPTY, []) == []
            && MsgBytes(w', w'.msgs[m], chains'[m]) == MsgBytes(w, w.msgs[m], chains[m])
            && |MsgBytes(w, w.msgs[m], chains[m])| == w.msgs[m].total
  {
    Plus(multiset{});
    Retarget(w, chains, rank, multiset{}, {}, t, EMPTY, []);
  }

  lemma SoleStep(w: World, chain: seq<nat>, k: nat)
    requires 0 < k < |chain| && chain[k] in w.parts
    ensures Sole(w, chain[..k + 1]) == (Sole(w, chain[..k]) && w.parts[chain[k]].refcnt == 1)
  {
    var c, d := chain[..k], chain[..k + 1];
    if Sole(w, d) {
      forall i | 0 <= i < |c| ensures c[i] in w.parts && w.parts[c[i]].refcnt == 1 { assert d[i] in w.parts; }
      assert d[k] in w.parts;
    }
    if Sole(w, c) && w.parts[chain[k]].refcnt == 1 {
      SoleMore(w, chain, k);
    }
  }

  lemma ClearDone(s: State, s1: State, s': State, m: nat)
    requires Good(s) && In(s, m) && s1 == s.(w := SetMsg(s.w, m, EMPTY), chains := s.chains[m := []])
    requires Sound(s'.w, s'.chains, s'.rank, multiset{}) && LocksOk(s'.w, s'.chains, {}, {}) && s' == s1.(w := s'.w)
    requires Kept(s1.w, s'.w, s1.chains, s'.chains, {}) && s'.w.msgs == s1.w.msgs
    ensures Good(s') && In(s', m) && ViewOf(s', m) == [] && Others(s, s', {m})
  {
    ClearOk(s.w, s.chains, s.rank, m);
    OthersAfter(s, s1, s', m);
  }

  // ----- searching for a position -----

  /** The search loops of rwm_split and rwm_process_ex have passed k parts; the position sought is `rest`
      bytes behind the start of the k-th, which has `len` bytes. */
  ghost predicate Sought(w: World, raw: Raw, chain: seq<nat>, n: int, k: nat, mp: nat, start: int, len: int, rest: int) {
    && k < |chain| && mp == chain[k] && rest >= 0
    && start == Start(w, chain, raw.firstOffset, k) && len == End(w, chain, raw.lastOffset, k) - start
    && Before(w, chain, raw.firstOffset, k) + rest == n
  }

  function StartOf(w: World, raw: Raw, mp: nat): int
    requires mp in w.parts
  {
    if mp == raw.first then raw.firstOffset else w.parts[mp].offset
  }

  function LenOf(w: World, raw: Raw, mp: nat): int
    requires mp in w.parts
  {
    (if mp == raw.last then raw.lastOffset else w.parts[mp].dataEnd) - StartOf(w, raw, mp)
  }

  /** Comparing a part with the first or last one tells whether it is at that end of the chain. */
  lemma LenIs(w: World, chains: map<nat, seq<nat>>, rank: map<nat, nat>, m: nat, k: nat)
    requires Sound(w, chains, rank, multiset{}) && m in w.msgs && w.msgs[m].first != 0 && k < |chains[m]|
    ensures var raw, chain := w.msgs[m], chains[m];
            && chain[k] in w.parts && chain[k] != 0
            && StartOf(w, raw, chain[k]) == Start(w, chain, raw.firstOffset, k)
            && LenOf(w, raw, chain[k]) == End(w, chain, raw.lastOffset, k) - Start(w, chain, raw.firstOffset, k)
            && 0 <= LenOf(w, raw, chain[k]) && 0 <= StartOf(w, raw, chain[k])
            && (k + 1 < |chain| ==> w.parts[chain[k]].next == chain[k + 1])
            && (chain[k] == raw.last) == (k == |chain| - 1) && (chain[k] == raw.first) == (k == 0)
  {
    var raw, chain := w.msgs[m], chains[m];
    ChainDistinct(w, rank, multiset{}, raw, chain);
    assert Bounded(w, chain[k]) && Bounded(w, chain[0]);
  }

  lemma SeekStart(w: World, chains: map<nat, seq<nat>>, rank: map<nat, nat>, m: nat, n: int)
    requires Sound(w, chains, rank, multiset{}) && m in w.msgs && w.msgs[m].first != 0 && n >= 0
    ensures w.msgs[m].first in w.parts
    ensures var raw := w.msgs[m];
            Sought(w, raw, chains[m], n, 0, raw.first, StartOf(w, raw, raw.first), LenOf(w, raw, raw.first), n)
  {
    LenIs(w, chains, rank, m, 0);
    BeforeZero(w, chains[m], w.msgs[m].firstOffset, w.msgs[m].lastOffset);
  }

  lemma SeekNext(w: World, chains: map<nat, seq<nat>>, rank: map<nat, nat>, m: nat, n: int, k: nat, mp: nat, start: int, len: int, rest: int)
    requires Sound(w, chains, rank, multiset{}) && m in w.msgs && w.msgs[m].first != 0 && n <= w.msgs[m].total
    requires Sought(w, w.msgs[m], chains[m], n, k, mp, start, len, rest) && len < rest
    ensures mp in w.parts && w.parts[mp].next in w.parts
    ensures var raw, next := w.msgs[m], w.parts[mp].next;
            Sought(w, raw, chains[m], n, k + 1, next, StartOf(w, raw, next), LenOf(w, raw, next), rest - len)
  {
    var raw, chain := w.msgs[m], chains[m];
    LenIs(w, chains, rank, m, k);
    if k + 1 == |chain| {
      BeforeLast(w, chain, raw.firstOffset, raw.lastOffset);
      assert false;
    }
    LenIs(w, chains, rank, m, k + 1);
    BeforeNext(w, chain, raw.firstOffset, raw.lastOffset, k);
  }

  /** The position found is a place to cut. */
  lemma SeekEnd(w: World, chains: map<nat, seq<nat>>, rank: map<nat, nat>, m: nat, n: int, k: nat, mp: nat, start: int, len: int, rest: int)
    requires Sound(w, chains, rank, multiset{}) && m in w.msgs && w.msgs[m].first != 0
    requires Sought(w, w.msgs[m], chains[m], n, k, mp, start, len, rest) && rest <= len
    ensures CutsAt(w, chains, m, k, start + rest, n)
  {
    LenIs(w, chains, rank, m, k);
  }

  /** The test of the short cut in rwm_split and rwm_process_ex: position n lies in the last part. */
  lemma InLast(w: World, chains: map<nat, seq<nat>>, rank: map<nat, nat>, m: nat, n: int)
    requires Sound(w, chains, rank, multiset{}) && m in w.msgs && w.msgs[m].first != 0
    requires w.msgs[m].last in w.parts && 0 <= n <= w.msgs[m].total
    requires w.msgs[m].total - n <= w.msgs[m].lastOffset - w.parts[w.msgs[m].last].offset
    ensures CutsAt(w, chains, m, |chains[m]| - 1, w.msgs[m].lastOffset - (w.msgs[m].total - n), n)
    ensures chains[m][|chains[m]| - 1] == w.msgs[m].last
  {
    var raw, chain := w.msgs[m], chains[m];
    LenIs(w, chains, rank, m, |chain| - 1);
    BeforeLast(w, chain, raw.firstOffset, raw.lastOffset);
    if |chain| == 1 { BeforeZero(w, chain, raw.firstOffset, raw.lastOffset); }
  }

  // ----- processing a range of bytes -----

  /** The flags of rwm_process_ex: none, RMPF_ADVANCE, RMPF_TRUNCATE. */
  datatype Mode = Look | Advance | Truncate

  /** What rwm_process_ex leaves of v once it has handed out the n bytes behind `offset`. */
  function Left(v: seq<byte>, offset: int, n: int, mode: Mode): seq<byte>
    requires 0 <= offset && 0 <= n && offset + n <= |v|
  {
    match mode
    case Look => v
    case Advance => v[offset + n..]
    case Truncate => v[..offset]
  }

  /** rwm_process_ex: `out` is what the callback was given, r what is returned. */
  ghost predicate Processed(s: State, s': State, m: nat, bytes: int, offset: int, mode: Mode, r: int, out: seq<byte>) {
    && In(s, m) && In(s', m) && 0 <= offset
    && (var v, v' := ViewOf(s, m), ViewOf(s', m);
        var n := if bytes + offset > |v| then |v| - offset else bytes;
        if n <= 0 then r == 0 && out == [] && v' == v
        else if r < 0 then v' == v && |out| <= n && out == v[offset..offset + |out|]
        else r == n && out == v[offset..offset + n] && v' == Left(v, offset, n, mode))
  }

  type Callback = (seq<byte>, seq<byte>) -> int

  /** The callback took the bytes of `out` in blocks, from each cut to the next, each block with the bytes before it
      behind it, and failed on none. */
  ghost predicate Accepts(callback: Callback, out: seq<byte>, cuts: seq<nat>)
    decreases |cuts|
  {
    if |cuts| <= 1 then cuts == [0] && out == []
    else
      var before := cuts[..|cuts| - 1];
      var p := cuts[|cuts| - 2];
      && p < |out| == cuts[|cuts| - 1] && Accepts(callback, out[..p], before) && callback(out[..p], out[p..]) >= 0
  }

  /** Everything in `out` was taken, or everything up to the last cut, and r is the failure on what lies behind it. */
  ghost predicate Called(callback: Callback, out: seq<byte>, cuts: seq<nat>, r: int) {
    if r >= 0 then Accepts(callback, out, cuts)
    else
      && cuts != [] && cuts[|cuts| - 1] < |out|
      && Accepts(callback, out[..cuts[|cuts| - 1]], cuts)
      && callback(out[..cuts[|cuts| - 1]], out[cuts[|cuts| - 1]..]) == r
  }

  lemma {:induction false} EndsAtLast(callback: Callback, out: seq<byte>, cuts: seq<nat>)
    requires Accepts(callback, out, cuts)
    ensures cuts != [] && cuts[|cuts| - 1] == |out|
  {
  }

  ghost function CutsAfter(cuts: seq<nat>, end: nat, r: int): seq<nat> {
    if r >= 0 && cuts != [] && cuts[|cuts| - 1] < end then cuts + [end] else cuts
  }

  /** One call of the callback; an empty block is not handed out. */
  function Offer(callback: Callback, out: seq<byte>, block: seq<byte>): int {
    if |block| > 0 then callback(out, block) else 0
  }

  /** One block more: taken, or the one that the callback fails on. */
  lemma CalledNext(callback: Callback, out: seq<byte>, cuts: seq<nat>, block: seq<byte>)
    requires Accepts(callback, out, cuts)
    ensures var r := Offer(callback, out, block); Called(callback, out + block, CutsAfter(cuts, |out + block|, r), r)
  {
    var all, cuts' := out + block, cuts + [|out + block|];
    EndsAtLast(callback, out, cuts);
    assert all[..|out|] == out && all[|out|..] == block;
    assert cuts'[..|cuts|] == cuts;
    if block == [] { assert all == out; }
  }

  /** All in one block. */
  lemma CalledOnce(callback: Callback, out: seq<byte>, r: int)
    requires out != [] && if callback([], out) < 0 then r == callback([], out) else r >= 0
    ensures Called(callback, out, CutsAfter([0], |out|, r), r)
  {
    CalledNext(callback, [], [0], out);
    assert [] + out == out;
  }

  /** No block before a failure failed, whichever two neighbouring cuts it lies between. */
  lemma {:induction false} EveryBlock(callback: Callback, out: seq<byte>, cuts: seq<nat>, i: nat)
    requires Accepts(callback, out, cuts) && i + 1 < |cuts|
    ensures cuts[i] < cuts[i + 1] <= |out| && callback(out[..cuts[i]], out[cuts[i]..cuts[i + 1]]) >= 0
    decreases |cuts|
  {
    var p := cuts[|cuts| - 2];
    if i + 2 < |cuts| {
      EveryBlock(callback, out[..p], cuts[..|cuts| - 1], i);
      assert out[..p][..cuts[i]] == out[..cuts[i]];
      assert out[..p][cuts[i]..cuts[i + 1]] == out[cuts[i]..cuts[i + 1]];
    } else {
      assert out[p..|out|] == out[p..];
    }
  }

  /** A callback that never fails: neither does the call. */
  lemma NeverFails(callback: Callback, out: seq<byte>, cuts: seq<nat>, r: int)
    requires Called(callback, out, cuts, r)
    ensures r < 0 ==> exists k :: 0 <= k < |out| && callback(out[..k], out[k..]) == r
    ensures (forall a, b :: callback(a, b) >= 0) ==> r >= 0
  {
  }

  /** What the branch of rwm_process_ex for the last part makes of the structure when it is called with both flags. */
  function BothFlags(raw: Raw, bytes: int, offset: int): Raw {
    var x := raw.total - offset;
    Raw(raw.last, raw.last, raw.total - (offset + bytes) - x, raw.lastOffset - x + bytes, raw.lastOffset - x)
  }

  /** The length becomes negative, so that no message is left: the two flags exclude each other. */
  lemma BothFlagsBreak(w: World, raw: Raw, bytes: int, offset: int, chain: seq<nat>)
    requires bytes > 0 && raw.last != 0
    ensures BothFlags(raw, bytes, offset).total == -bytes && !MsgOk(w, BothFlags(raw, bytes, offset), chain)
  {
  }

  lemma TotalIs(s: State, m: nat)
    requires Good(s) && In(s, m)
    ensures s.w.msgs[m].total == |ViewOf(s, m)|
    ensures s.w.msgs[m].total > 0 ==> s.w.msgs[m].first != 0
  {
  }

  lemma LastRange(w: World, chains: map<nat, seq<nat>>, rank: map<nat, nat>, m: nat, j: nat)
    requires Sound(w, chains, rank, multiset{}) && m in w.msgs && w.msgs[m].first != 0 && j == |chains[m]| - 1
    ensures End(w, chains[m], w.msgs[m].lastOffset, j) == w.msgs[m].lastOffset
  {
  }

  /** Bytes of the j-th part, handed out from where position pos lies. */
  lemma BlockIs(w: World, chains: map<nat, seq<nat>>, rank: map<nat, nat>, m: nat, j: nat, start: int, c: int, pos: int)
    requires Sound(w, chains, rank, multiset{}) && CutsAt(w, chains, m, j, start, pos)
    requires start <= c <= End(w, chains[m], w.msgs[m].lastOffset, j)
    ensures CutsAt(w, chains, m, j, c, pos + c - start)
    ensures var v := MsgBytes(w, w.msgs[m], chains[m]);
            && 0 <= pos <= pos + c - start <= |v| && Bytes(w, chains[m][j], start, c) == v[pos..pos + c - start]
  {
    var raw, chain := w.msgs[m], chains[m];
    Slice(w, chain, raw.firstOffset, raw.lastOffset, j, start, c);
  }

  /** The bytes of the range. */
  ghost predicate Ranged(s: State, m: nat, bytes: int, offset: int, out: seq<byte>) {
    && In(s, m) && bytes > 0 && offset >= 0 && bytes + offset <= |ViewOf(s, m)|
    && |out| == bytes && out == ViewOf(s, m)[offset..offset + bytes]
  }

  /** The range as a block of the last part. */
  lemma LastBlock(s: State, m: nat, bytes: int, offset: int) returns (start: int)
    requires Good(s) && In(s, m) && bytes > 0 && offset >= 0 && bytes + offset <= s.w.msgs[m].total
    requires s.w.msgs[m].last in s.w.parts
    requires s.w.msgs[m].total - offset <= s.w.msgs[m].lastOffset - s.w.parts[s.w.msgs[m].last].offset
    ensures start == s.w.msgs[m].lastOffset - (s.w.msgs[m].total - offset)
    ensures var k := |s.chains[m]| - 1;
            && k >= 0 && s.chains[m][k] == s.w.msgs[m].last && CutsAt(s.w, s.chains, m, k, start, offset)
            && CutsAt(s.w, s.chains, m, k, start + bytes, offset + bytes)
    ensures Ranged(s, m, bytes, offset, Bytes(s.w, s.w.msgs[m].last, start, start + bytes))
  {
    TotalIs(s, m);
    InLast(s.w, s.chains, s.rank, m, offset);
    start := s.w.msgs[m].lastOffset - (s.w.msgs[m].total - offset);
    LastRange(s.w, s.chains, s.rank, m, |s.chains[m]| - 1);
    BlockIs(s.w, s.chains, s.rank, m, |s.chains[m]| - 1, start, start + bytes, offset);
  }

  lemma BlockNext(w: World, chains: map<nat, seq<nat>>, rank: map<nat, nat>, m: nat, j: nat, end: int, pos: int)
    requires Sound(w, chains, rank, multiset{}) && CutsAt(w, chains, m, j, end, pos)
    requires end == End(w, chains[m], w.msgs[m].lastOffset, j) && pos < w.msgs[m].total
    ensures var raw, chain := w.msgs[m], chains[m];
            && j + 1 < |chain| && w.parts[chain[j]].next == chain[j + 1] && chain[j + 1] in w.parts
            && CutsAt(w, chains, m, j + 1, StartOf(w, raw, chain[j + 1]), pos)
            && StartOf(w, raw, chain[j + 1]) + LenOf(w, raw, chain[j + 1]) == End(w, chain, raw.lastOffset, j + 1)
            && LenOf(w, raw, chain[j + 1]) >= 0
  {
    var raw, chain := w.msgs[m], chains[m];
    LenIs(w, chains, rank, m, j);
    if j + 1 == |chain| {
      BeforeLast(w, chain, raw.firstOffset, raw.lastOffset);
      assert false;
    }
    BeforeNext(w, chain, raw.firstOffset, raw.lastOffset, j);
    LenIs(w, chains, rank, m, j + 1);
  }

  /** The inner loop of rwm_process_ex: `out` has been handed out, the next byte is at offset start of the
      j-th part, which has len more bytes, and left bytes are wanted. */
  ghost predicate Delivering(s: State, m: nat, pos: int, bytes: int, j: nat, mp: nat, start: int, len: int, ok: bool,
                             left: int, out: seq<byte>)
    requires In(s, m)
  {
    && CutsAt(s.w, s.chains, m, j, start, pos + |out|) && mp == s.chains[m][j] && mp in s.w.parts
    && start + len == End(s.w, s.chains[m], s.w.msgs[m].lastOffset, j) && len >= 0
    && 0 < left && |out| == bytes - left && 0 <= pos && pos + bytes <= |ViewOf(s, m)|
    && out == ViewOf(s, m)[pos..pos + |out|] && ok == Sole(s.w, s.chains[m][..j + 1])
  }

  lemma DeliverStart(s: State, m: nat, pos: int, bytes: int, j: nat, mp: nat, start: int, len: int, ok: bool)
    requires Good(s) && In(s, m) && CutsAt(s.w, s.chains, m, j, start, pos) && mp == s.chains[m][j]
    requires start + len == End(s.w, s.chains[m], s.w.msgs[m].lastOffset, j) && len >= 0
    requires bytes > 0 && pos + bytes <= s.w.msgs[m].total && ok == Sole(s.w, s.chains[m][..j + 1])
    ensures Delivering(s, m, pos, bytes, j, mp, start, len, ok, bytes, [])
  {
    BlockIs(s.w, s.chains, s.rank, m, j, start, start, pos);
    TotalIs(s, m);
  }

  /** One block more. */
  lemma DeliverBlock(s: State, m: nat, pos: int, bytes: int, j: nat, mp: nat, start: int, len: int, ok: bool, left: int,
                     out: seq<byte>, size: int)
    requires Good(s) && In(s, m) && Delivering(s, m, pos, bytes, j, mp, start, len, ok, left, out)
    requires 0 <= size <= len && size <= left
    ensures var out' := out + Bytes(s.w, mp, start, start + size);
            && |out'| == bytes - (left - size) && out' == ViewOf(s, m)[pos..pos + |out'|]
            && CutsAt(s.w, s.chains, m, j, start + size, pos + |out'|)
  {
    BlockIs(s.w, s.chains, s.rank, m, j, start, start + size, pos + |out|);
  }

  lemma DeliverNext(s: State, m: nat, pos: int, bytes: int, j: nat, mp: nat, start: int, len: int, ok: bool, left: int, out: seq<byte>)
    requires Good(s) && In(s, m) && Delivering(s, m, pos, bytes, j, mp, start, len, ok, left, out) && len < left
    ensures j + 1 < |s.chains[m]| && s.w.parts[mp].next in s.w.parts && |Bytes(s.w, mp, start, start + len)| == len
    ensures var raw, next := s.w.msgs[m], s.w.parts[mp].next;
            Delivering(s, m, pos, bytes, j + 1, next, StartOf(s.w, raw, next), LenOf(s.w, raw, next),
                       ok && s.w.parts[next].refcnt == 1, left - len, out + Bytes(s.w, mp, start, start + len))
  {
    DeliverBlock(s, m, pos, bytes, j, mp, start, len, ok, left, out, len);
    TotalIs(s, m);
    BlockNext(s.w, s.chains, s.rank, m, j, start + len, pos + bytes - (left - len));
    SoleStep(s.w, s.chains[m], j + 1);
  }

  /** How the inner loop ends: everything handed out, with the end at offset cut of the j-th part, or a failure. */
  ghost predicate Delivered(s: State, m: nat, pos: int, bytes: int, r: int, out: seq<byte>, j: nat, mp: nat, cut: int, ok: bool)
    requires In(s, m)
  {
    && 0 <= pos && |out| <= bytes && pos + bytes <= |ViewOf(s, m)| && out == ViewOf(s, m)[pos..pos + |out|]
    && (r >= 0 ==>
          && |out| == bytes && CutsAt(s.w, s.chains, m, j, cut, pos + bytes) && mp == s.chains[m][j]
          && ok == Sole(s.w, s.chains[m][..j + 1]))
  }

  lemma DeliverFails(s: State, m: nat, pos: int, bytes: int, r: int, j: nat, mp: nat, start: int, len: int, ok: bool, left: int,
                     out: seq<byte>, cut: int)
    requires Good(s) && In(s, m) && Delivering(s, m, pos, bytes, j, mp, start, len, ok, left, out) && len < left && r < 0
    ensures Delivered(s, m, pos, bytes, r, out + Bytes(s.w, mp, start, start + len), j, mp, cut, ok)
  {
    DeliverBlock(s, m, pos, bytes, j, mp, start, len, ok, left, out, len);
  }

  lemma DeliverEnd(s: State, m: nat, pos: int, bytes: int, r: int, j: nat, mp: nat, start: int, len: int, ok: bool, left: int, out: seq<byte>)
    requires Good(s) && In(s, m) && Delivering(s, m, pos, bytes, j, mp, start, len, ok, left, out) && left <= len
    ensures |Bytes(s.w, mp, start, start + left)| == left
    ensures Delivered(s, m, pos, bytes, r, out + Bytes(s.w, mp, start, start + left), j, mp, start + left, ok)
  {
    DeliverBlock(s, m, pos, bytes, j, mp, start, len, ok, left, out, left);
  }

  /** The loop together with what the callback has taken so far. */
  ghost predicate Handing(callback: Callback, s: State, m: nat, pos: int, bytes: int, j: nat, mp: nat, start: int, len: int,
                          ok: bool, left: int, out: seq<byte>, cuts: seq<nat>)
    requires In(s, m)
  {
    Delivering(s, m, pos, bytes, j, mp, start, len, ok, left, out) && Accepts(callback, out, cuts)
  }

  ghost predicate Handed(callback: Callback, s: State, m: nat, pos: int, bytes: int, r: int, out: seq<byte>, j: nat, mp: nat,
                         cut: int, ok: bool, cuts: seq<nat>)
    requires In(s, m)
  {
    Delivered(s, m, pos, bytes, r, out, j, mp, cut, ok) && Called(callback, out, cuts, r)
  }

  lemma HandStart(callback: Callback, s: State, m: nat, pos: int, bytes: int, j: nat, mp: nat, start: int, len: int, ok: bool)
    requires Good(s) && In(s, m) && CutsAt(s.w, s.chains, m, j, start, pos) && mp == s.chains[m][j]
    requires start + len == End(s.w, s.chains[m], s.w.msgs[m].lastOffset, j) && len >= 0
    requires bytes > 0 && pos + bytes <= s.w.msgs[m].total && ok == Sole(s.w, s.chains[m][..j + 1])
    ensures Handing(callback, s, m, pos, bytes, j, mp, start, len, ok, bytes, [], [0])
  {
    DeliverStart(s, m, pos, bytes, j, mp, start, len, ok);
  }

  /** A whole part is offered, and more is wanted. */
  lemma HandNext(callback: Callback, s: State, m: nat, pos: int, bytes: int, j: nat, mp: nat, start: int, len: int, ok: bool,
                 left: int, out: seq<byte>, cuts: seq<nat>, cut: int)
    requires Good(s) && In(s, m) && len < left && Handing(callback, s, m, pos, bytes, j, mp, start, len, ok, left, out, cuts)
    ensures j + 1 < |s.chains[m]| && s.w.parts[mp].next in s.w.parts
    ensures var raw, next := s.w.msgs[m], s.w.parts[mp].next;
            var block := Bytes(s.w, mp, start, start + len);
            var r := Offer(callback, out, block);
            var out', cuts' := out + block, CutsAfter(cuts, |out + block|, r);
            if r < 0 then Handed(callback, s, m, pos, bytes, r, out', j, mp, cut, ok, cuts')
            else Handing(callback, s, m, pos, bytes, j + 1, next, StartOf(s.w, raw, next), LenOf(s.w, raw, next),
                         ok && s.w.parts[next].refcnt == 1, left - len, out', cuts')
  {
    var block := Bytes(s.w, mp, start, start + len);
    DeliverNext(s, m, pos, bytes, j, mp, start, len, ok, left, out);
    CalledNext(callback, out, cuts, block);
    if Offer(callback, out, block) < 0 {
      DeliverFails(s, m, pos, bytes, Offer(callback, out, block), j, mp, start, len, ok, left, out, cut);
    }
  }

  /** The last block. */
  lemma HandEnd(callback: Callback, s: State, m: nat, pos: int, bytes: int, j: nat, mp: nat, start: int, len: int, ok: bool,
                left: int, out: seq<byte>, cuts: seq<nat>)
    requires Good(s) && In(s, m) && left <= len && Handing(callback, s, m, pos, bytes, j, mp, start, len, ok, left, out, cuts)
    ensures var block := Bytes(s.w, mp, start, start + left);
            var r := callback(out, block);
            Handed(callback, s, m, pos, bytes, r, out + block, j, mp, start + left, ok, CutsAfter(cuts, |out + block|, r))
  {
    var block := Bytes(s.w, mp, start, start + left);
    CalledNext(callback, out, cuts, block);
    DeliverEnd(s, m, pos, bytes, callback(out, block), j, mp, start, len, ok, left, out);
  }

  /** The whole effect of rwm_process_ex: on m, and on everything else none. */
  ghost predicate ProcessedOk(s: State, s': State, m: nat, bytes: int, offset: int, mode: Mode, r: int, out: seq<byte>) {
    Good(s') && Others(s, s', {m}) && s'.w.msgs.Keys == s.w.msgs.Keys && Processed(s, s', m, bytes, offset, mode, r, out)
  }

  /** The number of bytes asked for is cut down to what there is. */
  lemma Clipped(s: State, s': State, m: nat, bytes0: int, bytes: int, offset: int, mode: Mode, r: int, out: seq<byte>)
    requires In(s, m) && bytes == if bytes0 + offset > |ViewOf(s, m)| then |ViewOf(s, m)| - offset else bytes0
    requires ProcessedOk(s, s', m, bytes, offset, mode, r, out)
    ensures ProcessedOk(s, s', m, bytes0, offset, mode, r, out)
  {
  }

  lemma ProcessedNone(s: State, m: nat, bytes: int, offset: int, mode: Mode)
    requires Good(s) && In(s, m) && offset >= 0 && bytes <= 0 && bytes + offset <= |ViewOf(s, m)|
    ensures ProcessedOk(s, s, m, bytes, offset, mode, 0, [])
  {
    KeptSame(s.w, s.chains, {m});
  }

  /** The callback fails, or nothing is to be taken off. */
  lemma ProcessedLook(s: State, m: nat, bytes: int, offset: int, mode: Mode, r: int, out: seq<byte>)
    requires Good(s) && In(s, m) && bytes > 0 && offset >= 0 && bytes + offset <= |ViewOf(s, m)|
    requires |out| <= bytes && out == ViewOf(s, m)[offset..offset + |out|]
    requires r < 0 || (r == bytes && |out| == bytes && mode == Look)
    ensures ProcessedOk(s, s, m, bytes, offset, mode, r, out)
  {
    KeptSame(s.w, s.chains, {m});
  }

  lemma ProcessedAdvance(s: State, s': State, m: nat, bytes: int, offset: int, out: seq<byte>)
    requires Cropped(s, s', m, offset + bytes) && bytes > 0 && offset >= 0 && out == ViewOf(s, m)[offset..offset + bytes]
    ensures ProcessedOk(s, s', m, bytes, offset, Advance, bytes, out)
  {
  }

  lemma ProcessedTruncate(s: State, s': State, m: nat, bytes: int, offset: int, out: seq<byte>)
    requires Shortened(s, s', m, offset) && bytes > 0 && offset >= 0 && bytes + offset <= |ViewOf(s, m)|
    requires out == ViewOf(s, m)[offset..offset + bytes]
    ensures ProcessedOk(s, s', m, bytes, offset, Truncate, bytes, out)
  {
  }

  lemma RangedLook(s: State, m: nat, bytes: int, offset: int, mode: Mode, r: int, out: seq<byte>)
    requires Good(s) && Ranged(s, m, bytes, offset, out) && (r < 0 || (r == bytes && mode == Look))
    ensures ProcessedOk(s, s, m, bytes, offset, mode, r, out)
  {
    ProcessedLook(s, m, bytes, offset, mode, r, out);
  }

  lemma RangedAdvance(s: State, s': State, m: nat, bytes: int, offset: int, out: seq<byte>)
    requires Ranged(s, m, bytes, offset, out) && Cropped(s, s', m, offset + bytes)
    ensures ProcessedOk(s, s', m, bytes, offset, Advance, bytes, out)
  {
    ProcessedAdvance(s, s', m, bytes, offset, out);
  }

  lemma RangedTruncate(s: State, s': State, m: nat, bytes: int, offset: int, out: seq<byte>)
    requires Ranged(s, m, bytes, offset, out) && Shortened(s, s', m, offset)
    ensures ProcessedOk(s, s', m, bytes, offset, Truncate, bytes, out)
  {
    ProcessedTruncate(s, s', m, bytes, offset, out);
  }

  lemma Cleared(s: State, s': State, m: nat)
    requires Good(s') && In(s, m) && In(s', m) && ViewOf(s', m) == [] && Others(s, s', {m}) && s'.w.msgs == s.w.msgs[m := EMPTY]
    ensures Cropped(s, s', m, |ViewOf(s, m)|) && Shortened(s, s', m, 0)
  {
    assert s.w.msgs[m := EMPTY].Keys == s.w.msgs.Keys + {m};
  }

  /** Clearing a message without bytes changes no bytes. */
  lemma ProcessedCleared(s: State, s1: State, s': State, m: nat, bytes: int, offset: int, mode: Mode, r: int, out: seq<byte>)
    requires ProcessedOk(s, s1, m, bytes, offset, mode, r, out) && ViewOf(s1, m) == [] && Shortened(s1, s', m, 0)
    ensures ProcessedOk(s, s', m, bytes, offset, mode, r, out)
  {
    OthersOnward(s, s1, s', {m});
    SameProcessed(s, s1, s', m, bytes, offset, mode, r, out);
  }

  lemma SameProcessed(s: State, s1: State, s': State, m: nat, bytes: int, offset: int, mode: Mode, r: int, out: seq<byte>)
    requires Processed(s, s1, m, bytes, offset, mode, r, out) && In(s', m) && ViewOf(s', m) == ViewOf(s1, m)
    ensures Processed(s, s', m, bytes, offset, mode, r, out)
  {
  }

  /** What moving the start of m to position n leaves. */
  ghost predicate Cropped(s: State, s': State, m: nat, n: int) {
    && Good(s') && In(s, m) && In(s', m) && Others(s, s', {m}) && s'.w.msgs.Keys == s.w.msgs.Keys
    && 0 <= n <= |ViewOf(s, m)| && ViewOf(s', m) == ViewOf(s, m)[n..]
  }

  lemma OthersAfter(s: State, s1: State, s': State, m: nat)
    requires Others(s, s1, {m}) && s' == s1.(w := s'.w) && Kept(s1.w, s'.w, s1.chains, s'.chains, {})
    ensures Others(s, s', {m})
  {
  }

  lemma AdvanceDone(s: State, s1: State, s': State, m: nat, k: nat, cut: int, n: int)
    requires Good(s) && In(s, m) && CutsAt(s.w, s.chains, m, k, cut, n)
    requires s1 == s.(w := Advanced(s.w, m, s.chains[m][k], cut, n), chains := s.chains[m := s.chains[m][k..]])
    requires Sound(s'.w, s'.chains, s'.rank, multiset{}) && LocksOk(s'.w, s'.chains, {}, {}) && s' == s1.(w := s'.w)
    requires Kept(s1.w, s'.w, s1.chains, s'.chains, {}) && Shrinks(s1.w, s'.w)
    ensures Cropped(s, s', m, n)
  {
    AdvanceView(s, s1, m, k, cut, n);
    OthersAfter(s, s1, s', m);
    assert s'.w.msgs == s1.w.msgs && ViewOf(s', m) == ViewOf(s1, m);
  }

  lemma AdvanceView(s: State, s1: State, m: nat, k: nat, cut: int, n: int)
    requires Good(s) && In(s, m) && CutsAt(s.w, s.chains, m, k, cut, n)
    requires s1 == s.(w := Advanced(s.w, m, s.chains[m][k], cut, n), chains := s.chains[m := s.chains[m][k..]])
    ensures In(s1, m) && Others(s, s1, {m}) && s1.w.msgs.Keys == s.w.msgs.Keys
    ensures 0 <= n <= |ViewOf(s, m)| && ViewOf(s1, m) == ViewOf(s, m)[n..]
  {
    AdvanceOk(s.w, s.chains, s.rank, m, k, cut, n);
    KeysSet(s.w, m, s1.w.msgs[m]);
  }

  lemma AdvanceSole(s: State, s1: State, s': State, m: nat, k: nat, cut: int, n: int)
    requires Good(s) && In(s, m) && CutsAt(s.w, s.chains, m, k, cut, n) && Sole(s.w, s.chains[m][..k + 1])
    requires s1 == s.(w := Advanced(s.w, m, s.chains[m][k], cut, n), chains := s.chains[m := s.chains[m][k..]])
    requires Good(s') && In(s', m) && Shrinks(s1.w, s'.w)
    ensures var first := s'.w.msgs[m].first; first in s'.w.parts && s'.w.parts[first].refcnt == 1
  {
    var chain := s.chains[m];
    var path := chain[..k + 1];
    ChainDistinct(s.w, s.rank, multiset{}, s.w.msgs[m], chain);
    ChainRuns(s.w, m, chain);
    assert Runs(s.w, m, path);
    LastIsPart(s'.w, s'.chains, s'.rank, multiset{}, m);
    SoleAfter(s.w, s'.w, m, path);
  }

  /** After the first part of m has been cut to m. */
  lemma AlignDone(s: State, s1: State, m: nat, n: int)
    requires Cropped(s, s1, m, n) && s1.w.msgs[m].first in s1.w.parts && s1.w.parts[s1.w.msgs[m].first].refcnt == 1
    ensures Cropped(s, s1.(w := Aligned(s1.w, s1.w.msgs[m])), m, n)
  {
    var s' := s1.(w := Aligned(s1.w, s1.w.msgs[m]));
    Align(s1.w, s1.chains, s1.rank, {}, m);
    OthersAfter(s, s1, s', m);
  }

  /** What dropping the bytes of m from position n on leaves. */
  ghost predicate Shortened(s: State, s': State, m: nat, n: int) {
    && Good(s') && In(s, m) && In(s', m) && Others(s, s', {m}) && s'.w.msgs.Keys == s.w.msgs.Keys
    && 0 <= n <= |ViewOf(s, m)| && ViewOf(s', m) == ViewOf(s, m)[..n]
  }

  lemma CutBackDone(s: State, m: nat, k: nat, cut: int, n: int)
    requires Good(s) && In(s, m) && CutsAt(s.w, s.chains, m, k, cut, n)
    ensures Shortened(s, s.(w := SetMsg(s.w, m, HeadOf(s.w.msgs[m], s.chains[m][k], cut, n)),
                            chains := s.chains[m := s.chains[m][..k + 1]]), m, n)
  {
    CutBackOk(s.w, s.chains, s.rank, m, k, cut, n);
    KeysSet(s.w, m, HeadOf(s.w.msgs[m], s.chains[m][k], cut, n));
  }

  lemma TrimDone(s: State, s1: State, s': State, m: nat, n: int)
    requires Shortened(s, s1, m, n) && s' == s1.(w := s'.w) && s'.w.msgs == s1.w.msgs
    requires Sound(s'.w, s'.chains, s'.rank, multiset{}) && LocksOk(s'.w, s'.chains, {m}, {})
    requires Kept(s1.w, s'.w, s1.chains, s'.chains, {})
    ensures Shortened(s, s', m, n)
  {
    OthersAfter(s, s1, s', m);
    LocksAll(s'.w, s'.chains, {m}, {});
  }
}
