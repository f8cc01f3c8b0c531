/** Reference counting of message parts and buffers: each count is exactly the number of pointers to its
    object, and every elementary update of net-msg.c keeps it so.

    `held` are the references that a running function owns, that is, pointers in its local variables. */
module RawHeap {
  import opened RawMem

  ghost function Preds(w: World, p: nat): set<nat> {
    set q | q in w.parts && w.parts[q].next == p
  }

  ghost function Heads(w: World, p: nat): set<nat> {
    set m | m in w.msgs && w.msgs[m].first == p
  }

  ghost function Users(w: World, b: nat): set<nat> {
    set q | q in w.parts && w.parts[q].buf == b
  }

  /** One reference to p, or none when p is NULL. */
  function Tok(p: nat): multiset<nat> {
    if p == 0 then multiset{} else multiset{p}
  }

  ghost predicate PartOk(w: World, held: multiset<nat>, p: nat) {
    && p != 0 && Bounded(w, p)
    && w.parts[p].refcnt == |Preds(w, p)| + |Heads(w, p)| + held[p] && w.parts[p].refcnt >= 1
    && (w.parts[p].next == 0 || w.parts[p].next in w.parts)
  }

  ghost predicate BufOk(w: World, b: nat)
    requires b in w.bufs
  {
    w.bufs[b].refcnt == |Users(w, b)| && w.bufs[b].refcnt >= 1
  }

  ghost predicate HeapOk(w: World, held: multiset<nat>) {
    && (forall p {:trigger PartOk(w, held, p)} :: p in w.parts ==> PartOk(w, held, p))
    && (forall b {:trigger BufOk(w, b)} :: b in w.bufs ==> BufOk(w, b))
    && (forall m :: m in w.msgs ==> w.msgs[m].first == 0 || w.msgs[m].first in w.parts)
    && (forall p :: p in held ==> p in w.parts)
  }

  // ----- elementary updates -----

  function AddPart(w: World, p: nat, part: Part, data: seq<byte>): World {
    var users := if part.buf in w.bufs then w.bufs[part.buf].refcnt else 0;
    World(w.parts[p := part], w.bufs[part.buf := Buffer(users + 1, data)], w.msgs)
  }

  lemma AddPartAt(w: World, held: multiset<nat>, p: nat, part: Part, data: seq<byte>, x: nat)
    requires HeapOk(w, held) && p != 0 && p !in w.parts
    requires part.refcnt == 1 && part.next == 0 && 0 <= part.offset <= part.dataEnd <= |data|
    requires part.buf in w.bufs ==> data == w.bufs[part.buf].data
    requires x == p || x in w.parts
    ensures PartOk(AddPart(w, p, part, data), held + Tok(p), x)
  {
    var w' := AddPart(w, p, part, data);
    assert Heads(w', x) == Heads(w, x);
    if x == p {
      assert forall q :: q in w.parts ==> PartOk(w, held, q);
      assert Preds(w', p) == {} && Heads(w, p) == {};
    } else {
      assert PartOk(w, held, x);
      assert Preds(w', x) == Preds(w, x);
    }
  }

  lemma AddUser(w: World, held: multiset<nat>, p: nat, part: Part, data: seq<byte>, b: nat)
    requires HeapOk(w, held) && p !in w.parts && (b == part.buf || b in w.bufs)
    ensures BufOk(AddPart(w, p, part, data), b)
  {
    var w' := AddPart(w, p, part, data);
    if b in w.bufs {
      assert BufOk(w, b);
    } else {
      assert forall q :: q in w.parts ==> PartOk(w, held, q);
      assert Users(w, b) == {};
    }
    assert Users(w', b) == (if b == part.buf then Users(w, b) + {p} else Users(w, b));
  }

  lemma AddPartOk(w: World, held: multiset<nat>, p: nat, part: Part, data: seq<byte>)
    requires HeapOk(w, held) && p != 0 && p !in w.parts
    requires part.refcnt == 1 && part.next == 0 && 0 <= part.offset <= part.dataEnd <= |data|
    requires part.buf in w.bufs ==> data == w.bufs[part.buf].data
    ensures HeapOk(AddPart(w, p, part, data), held + Tok(p))
  {
    var w' := AddPart(w, p, part, data);
    forall x | x in w'.parts ensures PartOk(w', held + Tok(p), x) {
      AddPartAt(w, held, p, part, data, x);
    }
    forall b | b in w'.bufs ensures BufOk(w', b) {
      AddUser(w, held, p, part, data, b);
    }
  }

  function SetNext(w: World, q: nat, next: nat): World
    requires q in w.parts
  {
    w.(parts := w.parts[q := w.parts[q].(next := next)])
  }

  lemma PredsAfter(w: World, q: nat, next: nat, x: nat)
    requires q in w.parts
    ensures |Preds(SetNext(w, q, next), x)|
            == |Preds(w, x) - {q}| + (if x == next then 1 else 0)
    ensures |Preds(w, x)| == |Preds(w, x) - {q}| + (if x == w.parts[q].next then 1 else 0)
  {
    var others := Preds(w, x) - {q};
    assert Preds(SetNext(w, q, next), x) == (if x == next then others + {q} else others);
    assert Preds(w, x) == (if x == w.parts[q].next then others + {q} else others);
  }

  lemma SetNextAt(w: World, held: multiset<nat>, q: nat, next: nat, x: nat)
    requires q in w.parts && (next == 0 || (next in w.parts && held[next] >= 1))
    requires x in w.parts && PartOk(w, held, x) && PartOk(w, held, q)
    ensures PartOk(SetNext(w, q, next), held - Tok(next) + Tok(w.parts[q].next), x)
  {
    PredsAfter(w, q, next, x);
    assert Heads(SetNext(w, q, next), x) == Heads(w, x);
  }

  lemma SetNextOk(w: World, held: multiset<nat>, q: nat, next: nat)
    requires HeapOk(w, held) && q in w.parts && (next == 0 || (next in w.parts && held[next] >= 1))
    ensures HeapOk(SetNext(w, q, next), held - Tok(next) + Tok(w.parts[q].next))
  {
    var w' := SetNext(w, q, next);
    var held' := held - Tok(next) + Tok(w.parts[q].next);
    assert PartOk(w, held, q);
    forall x | x in w'.parts ensures PartOk(w', held', x) {
      assert PartOk(w, held, x);
      SetNextAt(w, held, q, next, x);
    }
    forall b | b in w'.bufs ensures BufOk(w', b) {
      assert BufOk(w, b) && Users(w', b) == Users(w, b);
    }
  }

  function FirstOf(w: World, m: nat): nat {
    if m in w.msgs then w.msgs[m].first else 0
  }

  function SetMsg(w: World, m: nat, raw: Raw): World {
    w.(msgs := w.msgs[m := raw])
  }

  lemma HeadsAfter(w: World, m: nat, raw: Raw, x: nat)
    requires x != 0
    ensures |Heads(SetMsg(w, m, raw), x)| == |Heads(w, x) - {m}| + (if x == raw.first then 1 else 0)
    ensures |Heads(w, x)| == |Heads(w, x) - {m}| + (if x == FirstOf(w, m) then 1 else 0)
  {
    var others := Heads(w, x) - {m};
    assert Heads(SetMsg(w, m, raw), x) == (if x == raw.first then others + {m} else others);
    assert Heads(w, x) == (if x == FirstOf(w, m) then others + {m} else others);
  }

  lemma SetMsgAt(w: World, held: multiset<nat>, m: nat, raw: Raw, x: nat)
    requires raw.first == 0 || (raw.first in w.parts && held[raw.first] >= 1)
    requires x in w.parts && PartOk(w, held, x)
    ensures PartOk(SetMsg(w, m, raw), held - Tok(raw.first) + Tok(FirstOf(w, m)), x)
  {
    HeadsAfter(w, m, raw, x);
    assert Preds(SetMsg(w, m, raw), x) == Preds(w, x);
  }

  lemma SetMsgOk(w: World, held: multiset<nat>, m: nat, raw: Raw)
    requires HeapOk(w, held) && (raw.first == 0 || (raw.first in w.parts && held[raw.first] >= 1))
    ensures HeapOk(SetMsg(w, m, raw), held - Tok(raw.first) + Tok(FirstOf(w, m)))
  {
    var w' := SetMsg(w, m, raw);
    var held' := held - Tok(raw.first) + Tok(FirstOf(w, m));
    forall x | x in w'.parts ensures PartOk(w', held', x) {
      assert PartOk(w, held, x);
      SetMsgAt(w, held, m, raw, x);
    }
    forall b | b in w'.bufs ensures BufOk(w', b) {
      assert BufOk(w, b) && Users(w', b) == Users(w, b);
    }
  }

  /** Changing fields of a message that are not references. */
  lemma SetRangeOk(w: World, held: multiset<nat>, m: nat, raw: Raw)
    requires HeapOk(w, held) && m in w.msgs && raw.first == w.msgs[m].first
    ensures HeapOk(SetMsg(w, m, raw), held)
  {
    var w' := SetMsg(w, m, raw);
    forall x | x in w'.parts ensures PartOk(w', held, x) {
      assert PartOk(w, held, x);
      assert Preds(w', x) == Preds(w, x) && Heads(w', x) == Heads(w, x);
    }
    forall b | b in w'.bufs ensures BufOk(w', b) {
      assert BufOk(w, b) && Users(w', b) == Users(w, b);
    }
  }

  function DropMsg(w: World, m: nat): World {
    w.(msgs := map k | k in w.msgs && k != m :: w.msgs[k])
  }

  lemma DropMsgOk(w: World, held: multiset<nat>, m: nat)
    requires HeapOk(w, held) && m in w.msgs
    ensures HeapOk(DropMsg(w, m), held + Tok(w.msgs[m].first))
  {
    var w' := DropMsg(w, m);
    var held' := held + Tok(w.msgs[m].first);
    forall x | x in w'.parts ensures PartOk(w', held', x) {
      assert PartOk(w, held, x);
      assert Preds(w', x) == Preds(w, x);
      assert Heads(w', x) == Heads(w, x) - {m};
      assert m in Heads(w, x) <==> x == w.msgs[m].first;
    }
    forall b | b in w'.bufs ensures BufOk(w', b) {
      assert BufOk(w, b) && Users(w', b) == Users(w, b);
    }
  }

  /** Changing a part's range, lock or count; the bytes of its buffer may be rewritten. */
  function SetPart(w: World, p: nat, part: Part, data: seq<byte>): World
    requires p in w.parts && part.buf in w.bufs
  {
    World(w.parts[p := part], w.bufs[part.buf := w.bufs[part.buf].(data := data)], w.msgs)
  }

  lemma SetPartOk(w: World, held: multiset<nat>, held': multiset<nat>, p: nat, part: Part, data: seq<byte>)
    requires HeapOk(w, held) && p in w.parts
    requires part.buf == w.parts[p].buf && part.buf in w.bufs && part.next == w.parts[p].next
    requires |data| == |w.bufs[part.buf].data| && 0 <= part.offset <= part.dataEnd <= |data|
    requires part.refcnt >= 1 && part.refcnt + held[p] == w.parts[p].refcnt + held'[p]
    requires forall x :: x != p ==> held'[x] == held[x]
    ensures HeapOk(SetPart(w, p, part, data), held')
  {
    var w' := SetPart(w, p, part, data);
    forall x | x in w'.parts ensures PartOk(w', held', x) {
      assert PartOk(w, held, x) && PartOk(w, held, p);
      assert Preds(w', x) == Preds(w, x) && Heads(w', x) == Heads(w, x);
    }
    forall b | b in w'.bufs ensures BufOk(w', b) {
      assert BufOk(w, b) && Users(w', b) == Users(w, b);
    }
    assert forall x :: x in held' ==> x == p || x in held;
  }

  /** free_msg_part together with msg_buffer_decref of its buffer. */
  function FreePart(w: World, p: nat): World
    requires p in w.parts && w.parts[p].buf in w.bufs
  {
    var b := w.parts[p].buf;
    World(map k | k in w.parts && k != p :: w.parts[k],
          if w.bufs[b].refcnt <= 1 then map k | k in w.bufs && k != b :: w.bufs[k]
          else w.bufs[b := w.bufs[b].(refcnt := w.bufs[b].refcnt - 1)],
          w.msgs)
  }

  lemma OnlyHeld(w: World, held: multiset<nat>, p: nat)
    requires HeapOk(w, held) && p in w.parts && w.parts[p].refcnt == 1 && held[p] >= 1
    ensures Preds(w, p) == {} && Heads(w, p) == {} && held[p] == 1
  {
    assert PartOk(w, held, p);
  }

  lemma AnotherUser(w: World, held: multiset<nat>, p: nat, x: nat)
    requires HeapOk(w, held) && p in w.parts && x in w.parts && x != p
    requires w.parts[x].buf == w.parts[p].buf && w.parts[p].buf in w.bufs
    ensures w.bufs[w.parts[p].buf].refcnt >= 2
  {
    var users := Users(w, w.parts[p].buf);
    assert BufOk(w, w.parts[p].buf);
    assert users == {p} + ({x} + (users - {p, x}));
  }

  lemma FreeAway(w: World, held: multiset<nat>, p: nat, x: nat)
    requires HeapOk(w, held) && p in w.parts && x in w.parts && x != p && w.parts[p].buf in w.bufs
    ensures SamePart(w, FreePart(w, p), x)
  {
    if w.parts[x].buf == w.parts[p].buf { AnotherUser(w, held, p, x); }
  }

  lemma FreeAt(w: World, held: multiset<nat>, p: nat, x: nat)
    requires HeapOk(w, held) && p in w.parts && x in w.parts && x != p && w.parts[p].buf in w.bufs
    requires w.parts[p].refcnt == 1 && held[p] >= 1
    ensures PartOk(FreePart(w, p), held - Tok(p) + Tok(w.parts[p].next), x)
  {
    var w' := FreePart(w, p);
    FreeAway(w, held, p, x);
    OnlyHeld(w, held, p);
    assert PartOk(w, held, x) && PartOk(w, held, p);
    var others := Preds(w, x) - {p};
    assert Heads(w', x) == Heads(w, x) && Preds(w', x) == others;
    assert Preds(w, x) == (if x == w.parts[p].next then others + {p} else others);
    assert x !in Preds(w, p);
  }

  lemma FreeUser(w: World, held: multiset<nat>, p: nat, b: nat)
    requires HeapOk(w, held) && p in w.parts && w.parts[p].buf in w.bufs
    requires b in FreePart(w, p).bufs
    ensures BufOk(FreePart(w, p), b)
  {
    var others := Users(w, b) - {p};
    assert BufOk(w, b);
    assert Users(FreePart(w, p), b) == others;
    assert Users(w, b) == (if b == w.parts[p].buf then others + {p} else others);
  }

  lemma FreePartOk(w: World, held: multiset<nat>, p: nat)
    requires HeapOk(w, held) && p in w.parts && w.parts[p].buf in w.bufs
    requires w.parts[p].refcnt == 1 && held[p] >= 1
    ensures HeapOk(FreePart(w, p), held - Tok(p) + Tok(w.parts[p].next))
    ensures forall x :: x in w.parts && x != p ==> SamePart(w, FreePart(w, p), x)
  {
    var w' := FreePart(w, p);
    var next := w.parts[p].next;
    OnlyHeld(w, held, p);
    assert next != p by { assert p !in Preds(w, p); }
    forall x | x in w.parts && x != p
      ensures SamePart(w, w', x) && PartOk(w', held - Tok(p) + Tok(next), x)
    {
      FreeAway(w, held, p, x);
      FreeAt(w, held, p, x);
    }
    forall b | b in w'.bufs ensures BufOk(w', b) {
      FreeUser(w, held, p, b);
    }
    forall m | m in w'.msgs ensures w'.msgs[m].first == 0 || w'.msgs[m].first in w'.parts {
      assert m !in Heads(w, p);
    }
    assert PartOk(w, held, p);
  }

  // ----- acyclicity -----

  /** A measure that falls along every `next` pointer. */
  ghost predicate Ranked(w: World, rank: map<nat, nat>) {
    forall p {:trigger w.parts[p]} :: p in w.parts ==>
      && p in rank
      && (w.parts[p].next != 0 ==> w.parts[p].next in rank && rank[w.parts[p].next] < rank[p])
  }

  lemma {:induction false} Falling(w: World, rank: map<nat, nat>, path: seq<nat>, i: nat, j: nat)
    requires Ranked(w, rank) && i < j < |path| && forall k :: 0 <= k < |path| ==> path[k] in w.parts && path[k] != 0
    requires forall k :: 0 <= k < |path| - 1 ==> w.parts[path[k]].next == path[k + 1]
    ensures rank[path[i]] > rank[path[j]]
    decreases j
  {
    assert w.parts[path[j - 1]].next == path[j];
    if i < j - 1 { Falling(w, rank, path, i, j - 1); }
  }

  /** No chain meets the same part twice. */
  lemma Distinct(w: World, rank: map<nat, nat>, path: seq<nat>)
    requires Ranked(w, rank) && forall k :: 0 <= k < |path| ==> path[k] in w.parts && path[k] != 0
    requires forall k :: 0 <= k < |path| - 1 ==> w.parts[path[k]].next == path[k + 1]
    ensures forall i, j :: 0 <= i < j < |path| ==> path[i] != path[j]
  {
    forall i, j | 0 <= i < j < |path| ensures path[i] != path[j] {
      Falling(w, rank, path, i, j);
    }
  }

  lemma {:induction false} Highest(keys: set<nat>, rank: map<nat, nat>) returns (top: nat)
    requires keys != {} && forall k :: k in keys ==> k in rank
    ensures top in keys && forall k :: k in keys ==> rank[k] <= rank[top]
  {
    top :| top in keys;
    if keys != {top} {
      var rest := keys - {top};
      var other := Highest(rest, rank);
      if rank[other] > rank[top] { top := other; }
    }
  }

  lemma Referenced(w: World, rank: map<nat, nat>)
    requires HeapOk(w, multiset{}) && Ranked(w, rank) && w.parts.Keys != {}
    ensures exists m :: m in w.msgs && w.msgs[m].first != 0
  {
    var top := Highest(w.parts.Keys, rank);
    assert PartOk(w, multiset{}, top);
    assert Preds(w, top) == {} by {
      forall q | q in w.parts.Keys ensures w.parts[q].next != top { assert rank[q] <= rank[top]; }
    }
    assert Heads(w, top) != {};
    var m :| m in Heads(w, top);
    assert m in w.msgs && w.msgs[m].first != 0;
  }

  lemma Used(w: World, b: nat)
    requires HeapOk(w, multiset{}) && b in w.bufs
    ensures w.parts.Keys != {}
  {
    assert BufOk(w, b);
    var q :| q in Users(w, b);
    assert q in w.parts.Keys;
  }

  /** Nothing leaks: when every message is empty and no reference is held, no part and no buffer is left. */
  lemma NothingLeaks(w: World, rank: map<nat, nat>)
    requires HeapOk(w, multiset{}) && Ranked(w, rank)
    requires forall m :: m in w.msgs ==> w.msgs[m].first == 0
    ensures w.parts == map[] && w.bufs == map[]
  {
    assert w.parts.Keys == {} by {
      if w.parts.Keys != {} { Referenced(w, rank); }
    }
    assert w.bufs.Keys == {} by {
      if w.bufs.Keys != {} {
        var b :| b in w.bufs.Keys;
        Used(w, b);
      }
    }
  }

  // ----- messages, and what an update of one leaves alone -----

  ghost predicate MsgsOk(w: World, chains: map<nat, seq<nat>>, X: set<nat>) {
    forall m :: m in w.msgs && m !in X ==> m in chains && MsgOk(w, w.msgs[m], chains[m])
  }

  /** The messages outside X have the bytes that they had. */
  ghost predicate SameBytes(w: World, w': World, chains: map<nat, seq<nat>>, chains': map<nat, seq<nat>>, X: set<nat>) {
    forall m :: m in w.msgs && m !in X ==>
      && m in w'.msgs && w'.msgs[m] == w.msgs[m]
      && m in chains && m in chains' && chains'[m] == chains[m]
      && MsgBytes(w', w'.msgs[m], chains'[m]) == MsgBytes(w, w.msgs[m], chains[m])
  }

  /** The condition under which bytes may be added behind the last part of a message. */
  ghost predicate OpenEnd(w: World, raw: Raw) {
    raw.first != 0 ==> raw.last in w.parts && w.parts[raw.last].next == 0 && w.parts[raw.last].dataEnd == raw.lastOffset
  }

  /** The messages outside X have the bytes that they had, and their ends have not been closed. */
  ghost predicate Kept(w: World, w': World, chains: map<nat, seq<nat>>, chains': map<nat, seq<nat>>, X: set<nat>) {
    && SameBytes(w, w', chains, chains', X)
    && forall m :: m in w.msgs && m !in X && OpenEnd(w, w.msgs[m]) ==> OpenEnd(w', w.msgs[m])
  }

  ghost predicate OnChain(w: World, chains: map<nat, seq<nat>>, X: set<nat>, p: nat) {
    exists m: nat, i: nat :: m in w.msgs && m !in X && m in chains && i < |chains[m]| && chains[m][i] == p
  }

  lemma Frame(w: World, w': World, chains: map<nat, seq<nat>>, X: set<nat>)
    requires MsgsOk(w, chains, X)
    requires forall m :: m in w'.msgs ==> m in X || m in w.msgs
    requires forall m :: m in w.msgs && m !in X ==>
      m in w'.msgs && w'.msgs[m] == w.msgs[m] && Alike(w, w', chains[m], w.msgs[m].lastOffset)
    ensures MsgsOk(w', chains, X) && SameBytes(w, w', chains, chains, X)
  {
    forall m | m in w.msgs && m !in X
      ensures MsgOk(w', w'.msgs[m], chains[m])
      ensures MsgBytes(w', w'.msgs[m], chains[m]) == MsgBytes(w, w.msgs[m], chains[m])
    {
      AlikeKeeps(w, w', w.msgs[m], chains[m]);
    }
  }

  lemma ChainAlike(w: World, w': World, raw: Raw, chain: seq<nat>, S: set<nat>)
    requires MsgOk(w, raw, chain)
    requires forall p :: p in w.parts && p !in S ==> SamePart(w, w', p)
    requires forall i :: 0 <= i < |chain| ==> chain[i] !in S
    ensures Alike(w, w', chain, raw.lastOffset)
  {
    SameIsAlike(w, w', chain, raw.lastOffset);
  }

  /** An update of the parts in S, none of which is on a chain outside X. */
  lemma FrameAway(w: World, w': World, chains: map<nat, seq<nat>>, X: set<nat>, S: set<nat>)
    requires MsgsOk(w, chains, X)
    requires forall m :: m in w'.msgs ==> m in X || m in w.msgs
    requires forall m :: m in w.msgs && m !in X ==> m in w'.msgs && w'.msgs[m] == w.msgs[m]
    requires forall p :: p in w.parts && p !in S ==> SamePart(w, w', p)
    requires forall p :: p in S ==> !OnChain(w, chains, X, p)
    ensures MsgsOk(w', chains, X) && Kept(w, w', chains, chains, X)
  {
    forall m | m in w.msgs && m !in X
      ensures Alike(w, w', chains[m], w.msgs[m].lastOffset)
      ensures OpenEnd(w, w.msgs[m]) ==> OpenEnd(w', w.msgs[m])
    {
      forall i: nat | i < |chains[m]| ensures chains[m][i] !in S {
        assert OnChain(w, chains, X, chains[m][i]);
      }
      ChainAlike(w, w', w.msgs[m], chains[m], S);
      if w.msgs[m].first != 0 {
        assert chains[m][|chains[m]| - 1] == w.msgs[m].last;
        assert w.msgs[m].last in w.parts ==> SamePart(w, w', w.msgs[m].last);
      }
    }
    Frame(w, w', chains, X);
  }

  /** The end q of some chains grows: bytes may be added behind its data, and a successor behind it. */
  ghost predicate Grows(w: World, w': World, q: nat) {
    && q in w.parts && w.parts[q].next == 0 && Bounded(w, q) && Bounded(w', q)
    && (var part, part' := w.parts[q], w'.parts[q];
        && part'.buf == part.buf && part'.offset == part.offset && part.dataEnd <= part'.dataEnd
        && w'.bufs[part.buf].data[..part.dataEnd] == w.bufs[part.buf].data[..part.dataEnd])
  }

  lemma ChainGrows(w: World, w': World, raw: Raw, chain: seq<nat>, q: nat)
    requires MsgOk(w, raw, chain) && 0 !in w.parts && Grows(w, w', q)
    requires forall p :: p in w.parts && p != q ==> SamePart(w, w', p)
    ensures Alike(w, w', chain, raw.lastOffset)
  {
    if chain != [] {
      forall i | 0 <= i < |chain| - 1 ensures SamePart(w, w', chain[i]) {
        assert Bounded(w, chain[i]) && Bounded(w, chain[i + 1]);
      }
      var last := chain[|chain| - 1];
      assert Bounded(w, last);
      if last == q {
        var data, data' := w.bufs[w.parts[q].buf].data, w'.bufs[w.parts[q].buf].data;
        var hi, end := raw.lastOffset, w.parts[q].dataEnd;
        if 0 <= hi <= |data| {
          assert data'[..end][..hi] == data'[..hi];
          assert data[..end][..hi] == data[..hi];
        }
      } else {
        assert SamePart(w, w', last);
      }
    }
  }

  lemma FrameGrows(w: World, w': World, chains: map<nat, seq<nat>>, X: set<nat>, q: nat)
    requires MsgsOk(w, chains, X) && 0 !in w.parts && Grows(w, w', q)
    requires forall m :: m in w'.msgs ==> m in X || m in w.msgs
    requires forall m :: m in w.msgs && m !in X ==> m in w'.msgs && w'.msgs[m] == w.msgs[m]
    requires forall p :: p in w.parts && p != q ==> SamePart(w, w', p)
    ensures MsgsOk(w', chains, X) && SameBytes(w, w', chains, chains, X)
  {
    forall m | m in w.msgs && m !in X ensures Alike(w, w', chains[m], w.msgs[m].lastOffset) {
      ChainGrows(w, w', w.msgs[m], chains[m], q);
    }
    Frame(w, w', chains, X);
  }

  // ----- exclusive ownership -----

  /** path runs along `next` from the first part of message m. */
  ghost predicate Runs(w: World, m: nat, path: seq<nat>) {
    && m in w.msgs
    && (forall i :: 0 <= i < |path| ==> path[i] in w.parts)
    && (path != [] ==> path[0] == w.msgs[m].first)
    && (forall i :: 0 <= i < |path| - 1 ==> w.parts[path[i]].next == path[i + 1])
  }

  /** A part with a single reference has a single way in. */
  lemma OneWayIn(w: World, held: multiset<nat>, m: nat, path: seq<nat>, j: nat)
    requires HeapOk(w, held) && Runs(w, m, path) && j < |path| && w.parts[path[j]].refcnt == 1
    ensures Preds(w, path[j]) == (if j == 0 then {} else {path[j - 1]})
    ensures Heads(w, path[j]) == (if j == 0 then {m} else {})
    ensures held[path[j]] == 0
  {
    var p := path[j];
    assert PartOk(w, held, p);
    if j == 0 {
      assert m in Heads(w, p);
      assert Heads(w, p) == {m} + (Heads(w, p) - {m});
    } else {
      assert path[j - 1] in Preds(w, p);
      assert Preds(w, p) == {path[j - 1]} + (Preds(w, p) - {path[j - 1]});
    }
  }

  lemma {:induction false} NotReached(w: World, held: multiset<nat>, m: nat, path: seq<nat>, other: nat, chain: seq<nat>, i: nat)
    requires HeapOk(w, held) && Runs(w, m, path) && forall j :: 0 <= j < |path| ==> w.parts[path[j]].refcnt == 1
    requires other != m && Runs(w, other, chain) && i < |chain|
    ensures chain[i] !in path
    decreases i
  {
    if i > 0 {
      NotReached(w, held, m, path, other, chain, i - 1);
      assert w.parts[chain[i - 1]].next == chain[i];
    }
    forall j: nat | j < |path| ensures path[j] != chain[i] {
      OneWayIn(w, held, m, path, j);
      assert other !in Heads(w, path[j]);
      assert i > 0 ==> chain[i - 1] !in Preds(w, path[j]);
    }
  }

  /** If the first parts of a message all have one reference, no other message runs through them. */
  lemma Exclusive(w: World, held: multiset<nat>, chains: map<nat, seq<nat>>, X: set<nat>, m: nat, path: seq<nat>)
    requires HeapOk(w, held) && MsgsOk(w, chains, X) && m in X
    requires Runs(w, m, path) && forall j :: 0 <= j < |path| ==> w.parts[path[j]].refcnt == 1
    ensures forall p :: p in path ==> !OnChain(w, chains, X, p)
  {
    forall p | p in path ensures !OnChain(w, chains, X, p) {
      if OnChain(w, chains, X, p) {
        var other: nat, i: nat :| other in w.msgs && other !in X && other in chains
                                  && i < |chains[other]| && chains[other][i] == p;
        ChainRuns(w, other, chains[other]);
        NotReached(w, held, m, path, other, chains[other], i);
        assert false;
      }
    }
  }

  lemma ChainRuns(w: World, m: nat, chain: seq<nat>)
    requires m in w.msgs && MsgOk(w, w.msgs[m], chain)
    ensures Runs(w, m, chain)
  {
    forall i | 0 <= i < |chain| ensures chain[i] in w.parts {
      assert Bounded(w, chain[i]);
    }
  }

  /** A part whose only reference is held by the running function is on no chain. */
  lemma HeldIsAway(w: World, held: multiset<nat>, chains: map<nat, seq<nat>>, X: set<nat>, p: nat)
    requires HeapOk(w, held) && MsgsOk(w, chains, X)
    requires p in w.parts && w.parts[p].refcnt == 1 && held[p] >= 1
    ensures !OnChain(w, chains, X, p)
  {
    OnlyHeld(w, held, p);
    forall m: nat, i: nat | m in w.msgs && m !in X && m in chains && i < |chains[m]|
      ensures chains[m][i] != p
    {
      ChainRuns(w, m, chains[m]);
      if i > 0 { assert w.parts[chains[m][i - 1]].next == chains[m][i]; }
      assert m !in Heads(w, p);
      assert i > 0 ==> chains[m][i - 1] !in Preds(w, p);
    }
  }
}
