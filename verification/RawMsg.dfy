/** Raw messages of net/net-msg.c: byte strings held as chains of reference-counted parts that clones,
    splits and unions share.

    The class holds the whole memory.  Each method promises what it does to the bytes of the messages it
    is given, and `Kept` says that every other message stays as it was, down to its bytes. */
module RawMsg {
  import opened RawMem
  import opened RawHeap
  import opened RawSteps
  import opened RawOps
  import opened RawGrow
  import opened Sequences

  const PREPEND := 128      // RM_PREPEND_RESERVE
  const SMALL := 512        // MSG_SMALL_BUFFER
  const STD := 2048         // MSG_STD_BUFFER
  const SIZES: seq<int> := [48, 512, 2048, 16384, 262144]

  class Messages {
    var s: State

    ghost predicate Valid() reads this {
      Good(s)
    }

    ghost predicate Has(m: nat) reads this {
      In(s, m)
    }

    /** The byte string that message m stands for. */
    ghost function View(m: nat): seq<byte>
      reads this
      requires Has(m)
    {
      ViewOf(s, m)
    }

    /** Nothing is allocated, and no message is in use. */
    constructor ()
      ensures Valid() && s.w.msgs == map[] && s.w.parts == map[] && s.w.bufs == map[]
    {
      s := State(World(map[], map[], map[]), map[], map[]);
    }

    /** When every message has been freed or cleared, no part and no buffer is left. */
    lemma AllGone()
      requires Valid() && forall m :: m in s.w.msgs ==> s.w.msgs[m] == EMPTY
      ensures s.w.parts == map[] && s.w.bufs == map[]
    {
      NothingLeaks(s.w, s.rank);
    }

    /** The bytes of a message are those of any chain that fits it: the memory alone determines them. */
    lemma ViewIs(m: nat, chain: seq<nat>)
      requires Valid() && Has(m) && MsgOk(s.w, s.w.msgs[m], chain)
      ensures View(m) == MsgBytes(s.w, s.w.msgs[m], chain)
    {
      OneChain(s.w, s.rank, multiset{}, s.w.msgs[m], s.chains[m], chain);
    }

    // ----- references -----

    /** msg_part_decref: the reference to p is given up, and every part that this leaves without one. */
    method Decref(first: nat, ghost held: multiset<nat>, ghost L: set<nat>)
      requires Sound(s.w, s.chains, s.rank, held + Tok(first)) && LocksOk(s.w, s.chains, {}, L)
      modifies this
      ensures s == old(s).(w := s.w)
      ensures Sound(s.w, s.chains, s.rank, held) && LocksOk(s.w, s.chains, {}, L)
      ensures Kept(old(s.w), s.w, s.chains, s.chains, {}) && Shrinks(old(s.w), s.w)
    {
      var p := first;
      ReleaseStart(s.w, s.chains, s.rank, held, L, p);
      while p != 0
        invariant s == old(s).(w := s.w) && Releasing(old(s.w), s.w, s.chains, s.rank, held, L, p)
        decreases if p == 0 then 0 else |s.w.parts| + 1
      {
        ReleasingPart(s.w, s.chains, s.rank, held, p);
        var part := s.w.parts[p];
        if part.refcnt > 1 {
          ReleaseShared(old(s.w), s.w, s.chains, s.rank, held, L, p);
          s := s.(w := DropRef(s.w, p));
          p := 0;
        } else {
          ReleaseLast(old(s.w), s.w, s.chains, s.rank, held, L, p);
          assert !part.locked;
          s := s.(w := FreePart(s.w, p));
          p := part.next;
        }
      }
      ReleaseEnd(old(s.w), s.w, s.chains, s.rank, held, L);
    }

    /** An address that malloc may return: not NULL, and not in use. */
    method NewAddress(used: set<nat>) returns (p: nat)
      ensures p != 0 && p !in used
    {
      p := 1;
      ghost var low: set<nat> := {};
      while p in used
        invariant p >= 1 && low <= used && forall q :: q in low <==> 1 <= q < p
        decreases |used - low|
      {
        assert used - (low + {p}) == (used - low) - {p};
        low := low + {p};
        p := p + 1;
      }
    }

    // ----- forking -----

    /** The second loop of fork_message_chain: from its k-th part on the message gets private parts. */
    method CopyRest(m: nat, np: nat, before: nat, ghost k: nat, ghost L: set<nat>)
      requires Sound(s.w, s.chains, s.rank, multiset{}) && LocksOk(s.w, s.chains, {m}, L)
      requires Has(m) && s.w.msgs[m].first != 0 && k < |s.chains[m]| && np == s.chains[m][k]
      requires before == (if k == 0 then 0 else s.chains[m][k - 1]) && Sole(s.w, s.chains[m][..k])
      requires k > 0 ==> s.w.parts[s.chains[m][0]].offset == s.w.msgs[m].firstOffset
      modifies this
      ensures Forked(old(s.w), s.w, old(s.chains), s.chains, s.rank, m, L)
    {
      var mp, pred, copyLast := np, before, false;
      ghost var chain := s.chains[m];
      ghost var copies: seq<nat> := [];
      CopyStart(s.w, s.chains, s.rank, L, m, k, pred, mp);
      while !copyLast
        invariant s.chains == old(s.chains) && copyLast == (k + |copies| == |chain|)
        invariant Copying(old(s.w), s.w, s.chains, s.rank, L, m, k, copies, pred, mp)
        decreases |chain| - |copies|
      {
        var p := NewAddress(s.w.parts.Keys);
        CopyStep(old(s.w), old(s.rank), s.w, s.chains, s.rank, L, m, k, copies, pred, mp, p);
        copyLast := mp == s.w.msgs[m].last;
        var next := s.w.parts[mp].next;
        s := s.(w := Copied(s.w, m, pred, p, CopyPart(s.w, m, mp), copyLast), rank := s.rank[p := s.rank[mp]]);
        pred, mp, copies := p, next, copies + [p];
      }
      CopyDone(old(s.w), s.w, s.chains, old(s.rank), s.rank, L, m, k, copies, pred, mp, chain[..k] + copies);
      s := s.(chains := s.chains[m := chain[..k] + copies]);
      ghost var copied := s;
      LocksAll(s.w, s.chains, {m}, L);
      assert multiset{} + Tok(np) == Tok(np);
      Decref(np, multiset{}, L);
      ForkEnd(old(s.w), copied.w, s.w, old(s.chains), s.chains, s.rank, m, L);
    }

    /** The end of a message is cut to it, and what lies behind is let go. */
    method TrimLast(m: nat, ghost L: set<nat>)
      requires Sound(s.w, s.chains, s.rank, multiset{}) && LocksOk(s.w, s.chains, {m}, L)
      requires Has(m) && s.w.msgs[m].first != 0 && Sole(s.w, s.chains[m])
      modifies this
      ensures s == old(s).(w := s.w) && s.w.msgs == old(s.w.msgs)
      ensures Sound(s.w, s.chains, s.rank, multiset{}) && LocksOk(s.w, s.chains, {m}, L)
      ensures Kept(old(s.w), s.w, s.chains, s.chains, {}) && Sole(s.w, s.chains[m]) && OpenEnd(s.w, s.w.msgs[m])
      ensures s.w.msgs[m].first in s.w.parts && s.w.msgs[m].first in old(s.w.parts)
      ensures s.w.parts[s.w.msgs[m].first].offset == old(s.w.parts[s.w.msgs[m].first].offset)
    {
      ChainInParts(s.w, multiset{}, s.w.msgs[m], s.chains[m]);
      Trim(s.w, s.chains, s.rank, L, m);
      var next := s.w.parts[s.w.msgs[m].last].next;
      s := s.(w := Trimmed(s.w, s.w.msgs[m]));
      ghost var w1 := s.w;
      LocksAll(s.w, s.chains, {m}, L);
      assert multiset{} + Tok(next) == Tok(next);
      Decref(next, multiset{}, L);
      TrimEnd(old(s.w), w1, s.w, s.chains, s.rank, m, L);
    }

    /** The start of fork_message_chain: the first part is cut to the message, unless it is shared. */
    method AlignFirst(m: nat, ghost L: set<nat>) returns (ok: bool)
      requires Sound(s.w, s.chains, s.rank, multiset{}) && LocksOk(s.w, s.chains, {m}, L)
      requires Has(m) && s.w.msgs[m].first != 0
      modifies this
      ensures s == old(s).(w := s.w) && s.w.msgs == old(s.w.msgs)
      ensures Sound(s.w, s.chains, s.rank, multiset{}) && LocksOk(s.w, s.chains, {m}, L)
      ensures Kept(old(s.w), s.w, s.chains, s.chains, {})
      ensures s.w.msgs[m].first in s.w.parts
      ensures ok ==> s.w.parts[s.w.msgs[m].first].offset == s.w.msgs[m].firstOffset
    {
      var raw := s.w.msgs[m];
      KeptSame(s.w, s.chains, {});
      FirstShape(s.w, s.rank, multiset{}, raw, s.chains[m]);
      ok := true;
      if raw.firstOffset != s.w.parts[raw.first].offset {
        if s.w.parts[raw.first].refcnt == 1 {
          Align(s.w, s.chains, s.rank, L, m);
          s := s.(w := Aligned(s.w, raw));
        } else {
          ok := false;
        }
      }
    }

    /** The first loop of fork_message_chain: past the parts that the message owns alone. */
    method Walk(m: nat, ok: bool, ghost L: set<nat>) returns (mp: nat, pred: nat, ghost k: nat)
      requires Sound(s.w, s.chains, s.rank, multiset{}) && LocksOk(s.w, s.chains, {m}, L)
      requires Has(m) && s.w.msgs[m].first != 0
      ensures k < |s.chains[m]| && mp == s.chains[m][k] && mp in s.w.parts
      ensures pred == (if k == 0 then 0 else s.chains[m][k - 1]) && Sole(s.w, s.chains[m][..k]) && (k > 0 ==> ok)
      ensures !ok || mp == s.w.msgs[m].last || s.w.parts[mp].refcnt != 1
    {
      mp, pred, k := s.w.msgs[m].first, 0, 0;
      ghost var chain := s.chains[m];
      ChainInParts(s.w, multiset{}, s.w.msgs[m], chain);
      while ok && mp != s.w.msgs[m].last && s.w.parts[mp].refcnt == 1
        invariant k < |chain| && mp == chain[k] && pred == (if k == 0 then 0 else chain[k - 1])
        invariant Sole(s.w, chain[..k]) && (k > 0 ==> ok)
        decreases |chain| - k
      {
        ForkWalk(s.w, s.chains, s.rank, L, m, k);
        assert !s.w.parts[mp].locked;
        pred, mp, k := mp, s.w.parts[mp].next, k + 1;
      }
    }

    /** fork_message_chain: the message gets a chain of its own, keeping the parts at its start that it
        already owns alone. */
    method Fork(m: nat, ghost L: set<nat>)
      requires Sound(s.w, s.chains, s.rank, multiset{}) && LocksOk(s.w, s.chains, {m}, L) && Has(m)
      modifies this
      ensures Forked(old(s.w), s.w, old(s.chains), s.chains, s.rank, m, L)
    {
      if s.w.msgs[m].first == 0 {
        KeptSame(s.w, s.chains, {m});
        return;
      }
      var ok := AlignFirst(m, L);
      ghost var w1 := s.w;
      var mp, pred; ghost var k;
      mp, pred, k := Walk(m, ok, L);
      if !ok || s.w.parts[mp].refcnt != 1 || mp != s.w.msgs[m].last {
        CopyRest(m, mp, pred, k, L);
        ForkedAfter(old(s.w), w1, s.w, old(s.chains), s.chains, s.rank, m, L);
      } else {
        ForkWhole(s.w, s.chains, s.rank, L, m, k);
        assert !s.w.parts[mp].locked;
        TrimLast(m, L);
        KeptOnward(old(s.w), w1, s.w, s.chains, s.chains, s.chains, {});
        ForkInPlace(old(s.w), s.w, s.chains, s.rank, m, L);
      }
    }

    // ----- locking the ends -----

    /** rwm_lock_last_part: afterwards bytes may be added behind the last part.  The second look at the part
        once it is locked is for other threads; here it finds what the first look found. */
    method LockLast(m: nat, ghost L: set<nat>) returns (locked: nat)
      requires Sound(s.w, s.chains, s.rank, multiset{}) && LocksOk(s.w, s.chains, {m}, L) && Has(m)
      modifies this
      ensures Sound(s.w, s.chains, s.rank, multiset{}) && Has(m) && s.w.msgs.Keys == old(s.w.msgs.Keys)
      ensures Kept(old(s.w), s.w, old(s.chains), s.chains, {m}) && View(m) == old(View(m))
      ensures OpenEnd(s.w, s.w.msgs[m]) && (s.w.msgs[m].first == 0) == (old(s.w.msgs[m].first) == 0)
      ensures locked == 0 ==> LocksOk(s.w, s.chains, {m}, L) && Own(s.w, s.w.msgs[m], s.chains[m])
      ensures locked != 0 ==> locked == s.w.msgs[m].last && locked !in L && LocksOk(s.w, s.chains, {}, L + {locked})
      ensures locked != 0 ==> s.w.msgs == old(s.w.msgs) && s.chains == old(s.chains)
    {
      locked := 0;
      if s.w.msgs[m].first == 0 {
        KeptSame(s.w, s.chains, {m});
        return;
      }
      LastIsPart(s.w, s.chains, s.rank, multiset{}, m);
      var mp := s.w.msgs[m].last;
      if s.w.parts[mp].next != 0 || s.w.msgs[m].lastOffset != s.w.parts[mp].dataEnd || s.w.parts[mp].locked {
        assert s.w.msgs[m].lastOffset <= s.w.parts[mp].dataEnd;
        Fork(m, L);
        OwnIsOpen(old(s.w), s.w, old(s.chains), s.chains, s.rank, m, L);
      } else {
        LockOk(s.w, s.chains, s.rank, multiset{}, mp, true);
        LocksPlus(s.w, s.chains, L, m, mp);
        KeptFewer(s.w, SetLock(s.w, mp, true), s.chains, s.chains, {m});
        s := s.(w := SetLock(s.w, mp, true));
        locked := mp;
      }
    }

    /** rwm_lock_first_part: afterwards the message starts where its first part starts. */
    method LockFirst(m: nat, ghost L: set<nat>)
      requires Sound(s.w, s.chains, s.rank, multiset{}) && LocksOk(s.w, s.chains, {m}, L) && Has(m)
      modifies this
      ensures Fronted(old(s.w), s.w, old(s.chains), s.chains, s.rank, m, L)
    {
      if s.w.msgs[m].first == 0 {
        FrontedAlready(s.w, s.chains, s.rank, m, L);
        return;
      }
      LastIsPart(s.w, s.chains, s.rank, multiset{}, m);
      var raw := s.w.msgs[m];
      if s.w.parts[raw.first].refcnt == 1 {
        FrontedInPlace(s.w, s.chains, s.rank, m, L);
        s := s.(w := Aligned(s.w, raw));
      } else if s.w.parts[raw.first].offset == raw.firstOffset {
        FrontedAlready(s.w, s.chains, s.rank, m, L);
      } else {
        var p := NewAddress(s.w.parts.Keys);
        RefirstedOk(s.w, s.chains, s.rank, m, L, p);
        s := s.(w := Refirsted(s.w, m, p), rank := s.rank[p := s.rank[raw.first]],
                chains := s.chains[m := [p] + s.chains[m][1..]]);
        ghost var w1 := s.w;
        LocksAll(s.w, s.chains, {m}, L);
        Decref(raw.first, multiset{}, L);
        FrontedByCopy(old(s.w), w1, s.w, old(s.chains), s.chains, s.rank, m, L, p);
      }
    }

    // ----- cloning, moving, emptying -----

    /** rwm_clone: dst shares the parts of src. */
    method Clone(dst: nat, src: nat)
      requires Valid() && Has(src) && dst !in s.w.msgs
      modifies this
      ensures Valid() && Has(src) && Has(dst) && s.w.msgs.Keys == old(s.w.msgs.Keys) + {dst}
      ensures View(dst) == old(View(src)) && View(src) == old(View(src)) && Others(old(s), s, {dst})
    {
      CloneDone(s, dst, src);
      KeysSet(if s.w.msgs[src].first == 0 then s.w else AddRef(s.w, s.w.msgs[src].first), dst, s.w.msgs[src]);
      s := s.(w := Cloned(s.w, dst, src), chains := s.chains[dst := s.chains[src]]);
    }

    /** rwm_move, and the assignment in rwm_union: dst, without parts so far, takes over what src has. */
    method Move(dst: nat, src: nat)
      requires Valid() && Has(src) && dst != src && FirstOf(s.w, dst) == 0
      modifies this
      ensures Valid() && Has(dst) && s.w.msgs.Keys == old(s.w.msgs.Keys) - {src} + {dst}
      ensures View(dst) == old(View(src)) && Others(old(s), s, {src} + {dst})
    {
      MoveDone(s, dst, src);
      KeysDropped(s.w, src);
      KeysSet(DropMsg(s.w, src), dst, s.w.msgs[src]);
      s := s.(w := Moved(s.w, dst, src), chains := s.chains[dst := s.chains[src]]);
    }

    /** rwm_clear. */
    method Clear(m: nat)
      requires Valid() && Has(m)
      modifies this
      ensures Valid() && Has(m) && s.w.msgs == old(s.w.msgs)[m := EMPTY] && View(m) == []
      ensures Others(old(s), s, {m})
    {
      var first := s.w.msgs[m].first;
      ClearOk(s.w, s.chains, s.rank, m);
      s := s.(w := SetMsg(s.w, m, EMPTY), chains := s.chains[m := []]);
      ghost var s1 := s;
      Decref(first, multiset{}, {});
      ClearDone(old(s), s1, s, m);
    }

    /** rwm_free: the structure goes out of use; L are the locks that other messages hold meanwhile. */
    method Free(m: nat, ghost L: set<nat>)
      requires Sound(s.w, s.chains, s.rank, multiset{}) && LocksOk(s.w, s.chains, {m}, L) && Has(m)
      modifies this
      ensures Sound(s.w, s.chains, s.rank, multiset{}) && LocksOk(s.w, s.chains, {}, L)
      ensures s.w.msgs.Keys == old(s.w.msgs.Keys) - {m} && s.chains == old(s.chains)
      ensures Kept(old(s.w), s.w, old(s.chains), s.chains, {m})
    {
      var first := s.w.msgs[m].first;
      Drop(s.w, s.chains, s.rank, multiset{}, L, m);
      s := s.(w := DropMsg(s.w, m));
      ghost var w1 := s.w;
      Decref(first, multiset{}, L);
      KeptFewer(w1, s.w, s.chains, s.chains, {m});
      KeptOnward(old(s.w), w1, s.w, s.chains, s.chains, s.chains, {m});
    }

    // ----- splitting -----

    /** The search of rwm_split and rwm_process_ex for position n; ok says that only this message refers to the
        parts passed and to the one found. */
    method Seek(m: nat, n: int) returns (mp: nat, start: int, len: int, rest: int, ok: bool, ghost k: nat)
      requires Valid() && Has(m) && s.w.msgs[m].first != 0 && 0 <= n <= s.w.msgs[m].total
      ensures Sought(s.w, s.w.msgs[m], s.chains[m], n, k, mp, start, len, rest) && rest <= len
      ensures ok == Sole(s.w, s.chains[m][..k + 1])
    {
      var raw := s.w.msgs[m];
      SeekStart(s.w, s.chains, s.rank, m, n);
      mp, rest, k := raw.first, n, 0;
      start, len := StartOf(s.w, raw, mp), LenOf(s.w, raw, mp);
      ok := s.w.parts[mp].refcnt == 1;
      while len < rest
        invariant mp in s.w.parts && Sought(s.w, raw, s.chains[m], n, k, mp, start, len, rest)
        invariant ok == Sole(s.w, s.chains[m][..k + 1])
        decreases |s.chains[m]| - k
      {
        SeekNext(s.w, s.chains, s.rank, m, n, k, mp, start, len, rest);
        mp, rest, k := s.w.parts[mp].next, rest - len, k + 1;
        start, len := StartOf(s.w, raw, mp), LenOf(s.w, raw, mp);
        if s.w.parts[mp].refcnt != 1 { ok := false; }
        SoleStep(s.w, s.chains[m], k);
      }
    }

    /** rwm_split: m keeps its first `bytes` bytes, and t, whose structure is not in use, gets the rest. */
    method Split(m: nat, t: nat, bytes: int) returns (r: int)
      requires Valid() && Has(m) && t !in s.w.msgs && bytes > 0
      modifies this
      ensures Valid() && SplitAt(old(s), s, m, t, bytes, r)
      ensures Others(old(s), s, {t} + {m}) && s.w.msgs.Keys == old(s.w.msgs.Keys) + {t}
    {
      var raw := s.w.msgs[m];
      if bytes >= raw.total {
        SplitNothing(s, m, t, bytes);
        s := s.(w := SetMsg(s.w, t, EMPTY), chains := s.chains[t := []]);
        return if bytes == raw.total then 0 else -1;
      }
      var p, cut; ghost var k;
      p, cut, k := SplitPoint(m, bytes);
      SplitDone(s, m, t, k, cut, bytes);
      s := s.(w := SplitUp(s.w, m, t, p, cut, bytes), chains := Halves(s.chains, m, t, k));
      return 0;
    }

    /** Where rwm_split cuts: in the last part if that has enough bytes, or where the search from the first
        part ends. */
    method SplitPoint(m: nat, bytes: int) returns (p: nat, cut: int, ghost k: nat)
      requires Valid() && Has(m) && 0 < bytes < s.w.msgs[m].total
      ensures CutsAt(s.w, s.chains, m, k, cut, bytes) && p == s.chains[m][k]
    {
      var raw := s.w.msgs[m];
      LastIsPart(s.w, s.chains, s.rank, multiset{}, m);
      if raw.total - bytes <= raw.lastOffset - s.w.parts[raw.last].offset {
        InLast(s.w, s.chains, s.rank, m, bytes);
        p, cut, k := raw.last, raw.lastOffset - (raw.total - bytes), |s.chains[m]| - 1;
      } else {
        var start, len, rest, ok;
        p, start, len, rest, ok, k := Seek(m, bytes);
        SeekEnd(s.w, s.chains, s.rank, m, bytes, k, p, start, len, rest);
        cut := start + rest;
      }
    }

    /** rwm_split_head: head, whose structure is not in use, gets the first `bytes` bytes, and m keeps the rest. */
    method SplitHead(head: nat, m: nat, bytes: int) returns (r: int)
      requires Valid() && Has(m) && head !in s.w.msgs && bytes > 0
      modifies this
      ensures Valid() && SplitHeadAt(old(s), s, head, m, bytes, r)
      ensures Others(old(s), s, {m} + {head}) && s.w.msgs.Keys == old(s.w.msgs.Keys) + {head}
    {
      Move(head, m);
      ghost var s1 := s;
      r := Split(head, m, bytes);
      SplitHeadDone(old(s), s1, s, head, m, bytes, r);
    }

    // ----- processing a range of bytes -----

    /** The inner loop of rwm_process_ex: the callback gets `bytes` bytes, part by part, until it fails. */
    method Deliver(m: nat, mp0: nat, start0: int, len0: int, ok0: bool, pos: int, bytes: int,
                   callback: Callback, ghost k: nat)
      returns (r: int, out: seq<byte>, mp: nat, cut: int, ok: bool, ghost j: nat, ghost cuts: seq<nat>)
      requires Valid() && Has(m) && CutsAt(s.w, s.chains, m, k, start0, pos) && mp0 == s.chains[m][k]
      requires start0 + len0 == End(s.w, s.chains[m], s.w.msgs[m].lastOffset, k) && len0 >= 0
      requires bytes > 0 && pos + bytes <= s.w.msgs[m].total && ok0 == Sole(s.w, s.chains[m][..k + 1])
      ensures Handed(callback, s, m, pos, bytes, r, out, j, mp, cut, ok, cuts)
    {
      var raw := s.w.msgs[m];
      var start, len, left := start0, len0, bytes;
      r, out, mp, cut, ok, j, cuts := 0, [], mp0, start0, ok0, k, [0];
      HandStart(callback, s, m, pos, bytes, j, mp, start, len, ok);
      while len < left
        invariant Handing(callback, s, m, pos, bytes, j, mp, start, len, ok, left, out, cuts)
        decreases |s.chains[m]| - j
      {
        HandNext(callback, s, m, pos, bytes, j, mp, start, len, ok, left, out, cuts, cut);
        var block := Bytes(s.w, mp, start, start + len);
        r := Offer(callback, out, block);
        cuts := CutsAfter(cuts, |out + block|, r);
        if r < 0 {
          out := out + block;
          return;
        }
        out, left := out + block, left - len;
        mp, j := s.w.parts[mp].next, j + 1;
        start, len := StartOf(s.w, raw, mp), LenOf(s.w, raw, mp);
        ok := ok && s.w.parts[mp].refcnt == 1;
      }
      HandEnd(callback, s, m, pos, bytes, j, mp, start, len, ok, left, out, cuts);
      var block := Bytes(s.w, mp, start, start + left);
      r := callback(out, block);
      cuts := CutsAfter(cuts, |out + block|, r);
      out, cut := out + block, start + left;
    }

    /** The start of m moves to offset cut of its part p.  The short cut of rwm_process_ex takes and drops a
        reference even when p is the first part already, to the same effect. */
    method AdvanceTo(m: nat, p: nat, cut: int, n: int, ok: bool, ghost k: nat)
      requires Valid() && Has(m) && CutsAt(s.w, s.chains, m, k, cut, n) && p == s.chains[m][k]
      requires ok ==> Sole(s.w, s.chains[m][..k + 1])
      modifies this
      ensures Cropped(old(s), s, m, n)
    {
      var first := Passed(s.w, m, p);
      AdvanceOk(s.w, s.chains, s.rank, m, k, cut, n);
      s := s.(w := Advanced(s.w, m, p, cut, n), chains := s.chains[m := s.chains[m][k..]]);
      ghost var s1 := s;
      Decref(first, multiset{}, {});
      AdvanceDone(old(s), s1, s, m, k, cut, n);
      if ok {
        AdvanceSole(old(s), s1, s, m, k, cut, n);
        AlignDone(old(s), s, m, n);
        s := s.(w := Aligned(s.w, s.w.msgs[m]));
      }
    }

    /** The end of m moves to offset cut of its part p. */
    method CutBack(m: nat, p: nat, cut: int, n: int, ok: bool, ghost k: nat)
      requires Valid() && Has(m) && CutsAt(s.w, s.chains, m, k, cut, n) && p == s.chains[m][k]
      requires ok ==> Sole(s.w, s.chains[m][..k + 1])
      modifies this
      ensures Shortened(old(s), s, m, n)
    {
      CutBackDone(s, m, k, cut, n);
      s := s.(w := SetMsg(s.w, m, HeadOf(s.w.msgs[m], p, cut, n)), chains := s.chains[m := s.chains[m][..k + 1]]);
      ghost var s1 := s;
      if ok {
        LocksWith(s.w, s.w, s.chains, m, s.chains[m], {});
        assert LocksOk(s.w, s.chains, {m}, {});
        TrimLast(m, {});
        TrimDone(old(s), s1, s, m, n);
      }
    }

    /** rwm_process_ex: the callback gets the `bytes` bytes behind `offset`, as far as there are any, and the
        message then loses what the mode says.  Nothing happens to the message if the callback fails. */
    method Process(m: nat, bytes0: int, offset: int, mode: Mode, callback: Callback)
      returns (r: int, out: seq<byte>, ghost cuts: seq<nat>)
      requires Valid() && Has(m) && bytes0 >= 0 && offset >= 0
      modifies this
      ensures ProcessedOk(old(s), s, m, bytes0, offset, mode, r, out) && Called(callback, out, cuts, r)
      ensures r < 0 ==> exists k :: 0 <= k < |out| && callback(out[..k], out[k..]) == r
      ensures (forall a, b :: callback(a, b) >= 0) ==> r >= 0
    {
      var raw, bytes := s.w.msgs[m], bytes0;
      TotalIs(s, m);
      if bytes + offset > raw.total {
        bytes := raw.total - offset;
      }
      if bytes <= 0 {
        ProcessedNone(s, m, bytes, offset, mode);
        r, out, cuts := 0, [], [0];
      } else {
        LastIsPart(s.w, s.chains, s.rank, multiset{}, m);
        if raw.total - offset <= raw.lastOffset - s.w.parts[raw.last].offset {
          r, out, cuts := ProcessLast(m, bytes, offset, mode, callback);
        } else {
          r, out, cuts := ProcessParts(m, bytes, offset, mode, callback);
        }
      }
      Clipped(old(s), s, m, bytes0, bytes, offset, mode, r, out);
      NeverFails(callback, out, cuts, r);
    }

    /** The short cut of rwm_process_ex: all bytes from `offset` on lie in the last part. */
    method ProcessLast(m: nat, bytes: int, offset: int, mode: Mode, callback: Callback)
      returns (r: int, out: seq<byte>, ghost cuts: seq<nat>)
      requires Valid() && Has(m) && bytes > 0 && offset >= 0 && bytes + offset <= s.w.msgs[m].total
      requires s.w.msgs[m].last in s.w.parts
      requires s.w.msgs[m].total - offset <= s.w.msgs[m].lastOffset - s.w.parts[s.w.msgs[m].last].offset
      modifies this
      ensures ProcessedOk(old(s), s, m, bytes, offset, mode, r, out) && Called(callback, out, cuts, r)
    {
      var raw := s.w.msgs[m];
      var x := raw.total - offset;
      var start := raw.lastOffset - x;
      ghost var _ := LastBlock(s, m, bytes, offset);
      out := Bytes(s.w, raw.last, start, start + bytes);
      r := callback([], out);
      if r >= 0 { r := bytes; }
      cuts := CutsAfter([0], |out|, r);
      CalledOnce(callback, out, r);
      if r < 0 {
        RangedLook(s, m, bytes, offset, mode, r, out);
      } else {
        LastOff(m, raw.last, start, bytes, offset, mode, out);
      }
    }

    /** What the mode says, for `bytes` bytes from offset start of the last part. */
    method LastOff(m: nat, p: nat, start: int, bytes: int, offset: int, mode: Mode, ghost out: seq<byte>)
      requires Valid() && Has(m) && Ranged(s, m, bytes, offset, out) && s.chains[m] != []
      requires var k := |s.chains[m]| - 1;
               && p == s.chains[m][k] && CutsAt(s.w, s.chains, m, k, start, offset)
               && CutsAt(s.w, s.chains, m, k, start + bytes, offset + bytes)
      modifies this
      ensures ProcessedOk(old(s), s, m, bytes, offset, mode, bytes, out)
    {
      match mode
      case Look =>
        RangedLook(s, m, bytes, offset, mode, bytes, out);
      case Advance =>
        AdvanceTo(m, p, start + bytes, offset + bytes, false, |s.chains[m]| - 1);
        RangedAdvance(old(s), s, m, bytes, offset, out);
      case Truncate =>
        CutBack(m, p, start, offset, false, |s.chains[m]| - 1);
        RangedTruncate(old(s), s, m, bytes, offset, out);
    }

    /** rwm_process_ex across parts; a message left without bytes is cleared. */
    method ProcessParts(m: nat, bytes: int, offset: int, mode: Mode, callback: Callback)
      returns (r: int, out: seq<byte>, ghost cuts: seq<nat>)
      requires Valid() && Has(m) && bytes > 0 && offset >= 0 && bytes + offset <= s.w.msgs[m].total
      modifies this
      ensures ProcessedOk(old(s), s, m, bytes, offset, mode, r, out) && Called(callback, out, cuts, r)
    {
      r, out, cuts := ProcessMost(m, bytes, offset, mode, callback);
      if r >= 0 && s.w.msgs[m].total == 0 {
        TotalIs(s, m);
        ghost var s1 := s;
        Clear(m);
        Cleared(s1, s, m);
        ProcessedCleared(old(s), s1, s, m, bytes, offset, mode, r, out);
      }
    }

    /** Its loops, and what the mode says. */
    method ProcessMost(m: nat, bytes: int, offset: int, mode: Mode, callback: Callback)
      returns (r: int, out: seq<byte>, ghost cuts: seq<nat>)
      requires Valid() && Has(m) && bytes > 0 && offset >= 0 && bytes + offset <= s.w.msgs[m].total
      modifies this
      ensures ProcessedOk(old(s), s, m, bytes, offset, mode, r, out) && Called(callback, out, cuts, r)
    {
      TotalIs(s, m);
      var np, start, len, rest, ok; ghost var k;
      np, start, len, rest, ok, k := Seek(m, offset);
      SeekEnd(s.w, s.chains, s.rank, m, offset, k, np, start, len, rest);
      var mp, cut, ok2; ghost var j;
      r, out, mp, cut, ok2, j, cuts := Deliver(m, np, start + rest, len - rest, ok, offset, bytes, callback, k);
      assert s == old(s);
      if r < 0 {
        ProcessedLook(s, m, bytes, offset, mode, r, out);
        return;
      }
      TakeOff(m, np, start + rest, ok, k, mp, cut, ok2, j, bytes, offset, mode, out);
      r := bytes;
    }

    /** What the mode says, for the bytes from offset cut1 of the part np to offset cut2 of the part mp. */
    method TakeOff(m: nat, np: nat, cut1: int, ok1: bool, ghost k: nat, mp: nat, cut2: int, ok2: bool, ghost j: nat,
                   bytes: int, offset: int, mode: Mode, ghost out: seq<byte>)
      requires Valid() && Has(m) && bytes > 0 && offset >= 0 && offset + bytes <= |View(m)|
      requires CutsAt(s.w, s.chains, m, k, cut1, offset) && np == s.chains[m][k] && ok1 == Sole(s.w, s.chains[m][..k + 1])
      requires CutsAt(s.w, s.chains, m, j, cut2, offset + bytes) && mp == s.chains[m][j] && ok2 == Sole(s.w, s.chains[m][..j + 1])
      requires out == View(m)[offset..offset + bytes]
      modifies this
      ensures ProcessedOk(old(s), s, m, bytes, offset, mode, bytes, out)
    {
      match mode
      case Look =>
        ProcessedLook(s, m, bytes, offset, mode, bytes, out);
      case Advance =>
        AdvancePast(m, mp, cut2, offset + bytes, ok2, j);
        ProcessedAdvance(old(s), s, m, bytes, offset, out);
      case Truncate =>
        TruncateAt(m, np, cut1, offset, ok1, k);
        ProcessedTruncate(old(s), s, m, bytes, offset, out);
    }

    /** RMPF_ADVANCE. */
    method AdvancePast(m: nat, p: nat, cut: int, n: int, ok: bool, ghost k: nat)
      requires Valid() && Has(m) && CutsAt(s.w, s.chains, m, k, cut, n) && p == s.chains[m][k]
      requires ok == Sole(s.w, s.chains[m][..k + 1])
      modifies this
      ensures Cropped(old(s), s, m, n)
    {
      TotalIs(s, m);
      if n == s.w.msgs[m].total {
        Clear(m);
        Cleared(old(s), s, m);
      } else {
        AdvanceTo(m, p, cut, n, ok, k);
      }
    }

    /** RMPF_TRUNCATE. */
    method TruncateAt(m: nat, p: nat, cut: int, n: int, ok: bool, ghost k: nat)
      requires Valid() && Has(m) && CutsAt(s.w, s.chains, m, k, cut, n) && p == s.chains[m][k]
      requires ok == Sole(s.w, s.chains[m][..k + 1])
      modifies this
      ensures Shortened(old(s), s, m, n)
    {
      if n == 0 {
        Clear(m);
        Cleared(old(s), s, m);
      } else {
        CutBack(m, p, cut, n, ok, k);
      }
    }

    // ----- adding bytes -----

    /** The size class that alloc_msg_buffer picks: the smallest that is not below the hint, or the largest. */
    method BufferSize(hint: int) returns (size: int)
      ensures size in SIZES
      ensures hint >= 0 ==> (size >= hint || size == 262144) && forall z :: z in SIZES && z < size ==> z < hint
      ensures hint < 0 ==> size == 262144
    {
      var si := 4;
      if hint >= 0 {
        while si > 0 && SIZES[si - 1] >= hint
          invariant 0 <= si <= 4 && (SIZES[si] >= hint || si == 4)
        {
          si := si - 1;
        }
      }
      size := SIZES[si];
    }

    /** alloc_msg_buffer: a buffer that is not in use; its bytes may be anything. */
    method NewBuffer(hint: int) returns (b: nat, data: seq<byte>)
      ensures b !in s.w.bufs
      ensures hint == SMALL ==> |data| == SMALL
      ensures hint == STD ==> |data| == STD
    {
      var size := BufferSize(hint);
      assert SIZES[1] == SMALL && SIZES[2] == STD && SMALL in SIZES && STD in SIZES;
      b := NewAddress(s.w.bufs.Keys);
      data := seq(size, i => 0);
    }

    /** The first part of an empty message: as many of the bytes as fit behind the reserve. */
    method PushFirst(m: nat, bytes: seq<byte>) returns (n: int)
      requires Valid() && Has(m) && s.w.msgs[m].first == 0 && bytes != []
      modifies this
      ensures 0 < n <= |bytes| && Pushing(old(s), s, m, {}, bytes[..n])
    {
      var b, blank;
      b, blank := NewBuffer(if |bytes| >= SMALL - PREPEND then STD else SMALL);
      var p := NewAddress(s.w.parts.Keys);
      var prepend := if |bytes| <= STD && PREPEND > STD - |bytes| then STD - |bytes| else PREPEND;
      var sz := |blank| - prepend;
      n := if sz >= |bytes| then |bytes| else sz;
      var data := Patch(blank, prepend, bytes[..n]);
      BegunOk(s, m, p, b, data, prepend, n);
      PatchIs(blank, prepend, bytes[..n]);
      s := s.(w := Begun(s.w, m, p, b, data, prepend, n), chains := s.chains[m := [p]], rank := s.rank[p := 0]);
    }

    /** The room in the last buffer, if no other part uses that buffer. */
    method FillLast(m: nat, bytes: seq<byte>, ghost L: set<nat>) returns (n: int)
      requires Pushing(s, s, m, L, [])
      modifies this
      ensures 0 <= n <= |bytes| && Pushing(old(s), s, m, L, bytes[..n])
    {
      LastIsPart(s.w, s.chains, s.rank, multiset{}, m);
      var raw := s.w.msgs[m];
      var part := s.w.parts[raw.last];
      LastRoom(s.w, s.rank, multiset{}, m);
      n := 0;
      if s.w.bufs[part.buf].refcnt == 1 {
        var sz := |s.w.bufs[part.buf].data| - raw.lastOffset;
        n := if sz >= |bytes| then |bytes| else sz;
        GrownOk(s, s, m, L, [], bytes[..n]);
        assert [] + bytes[..n] == bytes[..n];
        s := s.(w := Grown(s.w, m, bytes[..n]));
      }
    }

    /** A new last part with as many bytes as fit into its buffer. */
    method PushPart(m: nat, bytes: seq<byte>, ghost s0: State, ghost done: seq<byte>, ghost L: set<nat>) returns (n: int)
      requires Pushing(s0, s, m, L, done) && bytes != []
      modifies this
      ensures 0 < n <= |bytes| && Pushing(s0, s, m, L, done + bytes[..n])
    {
      var b, blank;
      b, blank := NewBuffer(if s.w.msgs[m].total + |bytes| >= STD then STD else SMALL);
      var p := NewAddress(s.w.parts.Keys);
      n := if |blank| >= |bytes| then |bytes| else |blank|;
      var data := Patch(blank, 0, bytes[..n]);
      PatchIs(blank, 0, bytes[..n]);
      AppendedDone(s0, s, m, L, done, p, b, data, n);
      s := s.(w := SetMsg(Appended(s.w, m, p, b, data, n), m, Continued(s.w.msgs[m], p, n)),
              chains := s.chains[m := s.chains[m] + [p]], rank := Shifted(s.rank)[p := 0]);
    }

    /** The loop of rwm_push_data_ext that adds parts until all bytes are stored. */
    method PushParts(m: nat, bytes: seq<byte>, ghost s0: State, ghost before: seq<byte>, ghost L: set<nat>)
      requires Pushing(s0, s, m, L, before)
      modifies this
      ensures Pushing(s0, s, m, L, before + bytes)
    {
      var rest := bytes;
      ghost var done := before;
      assert before + [] == before;
      while rest != []
        invariant done + rest == before + bytes && Pushing(s0, s, m, L, done)
        decreases |rest|
      {
        var n := PushPart(m, rest, s0, done, L);
        PushedOn(before + bytes, done, rest, n);
        done, rest := done + rest[..n], rest[n..];
      }
      assert done + [] == done;
    }

    /** rwm_push_data. */
    method Push(m: nat, bytes: seq<byte>) returns (r: int)
      requires Valid() && Has(m)
      modifies this
      ensures Valid() && Has(m) && s.w.msgs.Keys == old(s.w.msgs.Keys)
      ensures View(m) == old(View(m)) + bytes && r == |bytes|
      ensures Others(old(s), s, {m})
    {
      if bytes == [] {
        PushNothing(s, m);
        return 0;
      }
      if s.w.msgs[m].first == 0 {
        var n := PushFirst(m, bytes);
        PushParts(m, bytes[n..], old(s), bytes[..n], {});
        Prefixes(bytes, n, |bytes| - n);
      } else {
        var locked := LockLast(m, {});
        ghost var s1, L := s, if locked == 0 then {} else {locked};
        PushReady(old(s), s, m, locked);
        var n := FillLast(m, bytes, L);
        PushOnward(old(s), s1, s, m, L, bytes[..n]);
        PushParts(m, bytes[n..], old(s), bytes[..n], L);
        Prefixes(bytes, n, |bytes| - n);
        if locked != 0 {
          PushEnd(old(s), s, m, locked, bytes);
          s := s.(w := SetLock(s.w, locked, false));
        }
      }
      return |bytes|;
    }

    /** The room before the first byte, if only this message refers to its first part and only that part to
        its buffer. */
    method FillFront(m: nat, bytes: seq<byte>) returns (n: int)
      requires Fronting(s, s, m, [])
      modifies this
      ensures 0 <= n <= |bytes| && Fronting(old(s), s, m, bytes[|bytes| - n..])
    {
      n := 0;
      FrontNothing(s, m, bytes);
      if s.w.msgs[m].first == 0 {
        return;
      }
      var raw := s.w.msgs[m];
      LastIsPart(s.w, s.chains, s.rank, multiset{}, m);
      FirstRoom(s.w, s.rank, multiset{}, m, s.chains[m]);
      var part := s.w.parts[raw.first];
      if s.w.bufs[part.buf].refcnt == 1 && part.refcnt == 1 {
        n := if |bytes| > raw.firstOffset then raw.firstOffset else |bytes|;
        FrontFilled(s, m, bytes[|bytes| - n..]);
        s := s.(w := FrontGrown(s.w, m, bytes[|bytes| - n..]));
      }
    }

    /** A new first part whose buffer ends with the last n of the bytes.  rwm_push_data_front sets first_offset
        only with the last of the new parts; nothing reads it earlier. */
    method FrontPart(m: nat, bytes: seq<byte>, ghost s0: State, ghost done: seq<byte>) returns (n: int)
      requires Fronting(s0, s, m, done) && bytes != []
      modifies this
      ensures 0 < n <= |bytes| && Fronting(s0, s, m, bytes[|bytes| - n..] + done)
    {
      var b, blank;
      b, blank := NewBuffer(if |bytes| >= SMALL then STD else SMALL);
      var p := NewAddress(s.w.parts.Keys);
      n := if |bytes| > |blank| then |blank| else |bytes|;
      var offset := |blank| - n;
      var data := Patch(blank, offset, bytes[|bytes| - n..]);
      PatchEnd(blank, offset, bytes[|bytes| - n..]);
      if s.w.msgs[m].first == 0 {
        PutFirst(m, p, b, data, offset, s0, done, bytes[|bytes| - n..]);
      } else {
        PutBefore(m, p, b, data, offset, s0, done, bytes[|bytes| - n..]);
      }
    }

    method PutFirst(m: nat, p: nat, b: nat, data: seq<byte>, offset: int, ghost s0: State, ghost done: seq<byte>, ghost bytes: seq<byte>)
      requires Fronting(s0, s, m, done) && s.w.msgs[m].first == 0
      requires p != 0 && p !in s.w.parts && b !in s.w.bufs && 0 <= offset <= |data| && data[offset..] == bytes
      modifies this
      ensures Fronting(s0, s, m, bytes + done)
    {
      FrontFirst(s0, s, m, done, p, b, data, offset, bytes);
      s := s.(w := Begun(s.w, m, p, b, data, offset, |data| - offset), chains := s.chains[m := [p]], rank := s.rank[p := 0]);
    }

    method PutBefore(m: nat, p: nat, b: nat, data: seq<byte>, offset: int, ghost s0: State, ghost done: seq<byte>, ghost bytes: seq<byte>)
      requires Fronting(s0, s, m, done) && s.w.msgs[m].first != 0
      requires p != 0 && p !in s.w.parts && b !in s.w.bufs && 0 <= offset <= |data| && data[offset..] == bytes
      modifies this
      ensures Fronting(s0, s, m, bytes + done)
    {
      FrontInPart(s0, s, m, done, p, b, data, offset, bytes);
      s := WithFront(s, m, p, b, data, offset);
    }

    /** rwm_push_data_front. */
    method PushFront(m: nat, bytes: seq<byte>) returns (r: int)
      requires Valid() && Has(m)
      modifies this
      ensures Valid() && Has(m) && s.w.msgs.Keys == old(s.w.msgs.Keys)
      ensures View(m) == bytes + old(View(m)) && r == |bytes|
      ensures Others(old(s), s, {m})
    {
      if bytes == [] {
        PushNothing(s, m);
        return 0;
      }
      LockFirst(m, {});
      ghost var s1 := s;
      FrontReady(old(s), s, m);
      var n := FillFront(m, bytes);
      FrontOnward(old(s), s1, s, m, bytes[|bytes| - n..]);
      var left := |bytes| - n;
      while left > 0
        invariant 0 <= left <= |bytes| && Fronting(old(s), s, m, bytes[left..])
      {
        var k := FrontPart(m, bytes[..left], old(s), bytes[left..]);
        Suffixes(bytes, left, k);
        left := left - k;
      }
      Suffixes(bytes, 0, 0);
      return |bytes|;
    }

    /** rwm_create, of a structure that is not in use; rwm_init does the same with bytes that are not set. */
    method Create(m: nat, bytes: seq<byte>) returns (r: int)
      requires Valid() && m !in s.w.msgs
      modifies this
      ensures Valid() && Has(m) && s.w.msgs.Keys == old(s.w.msgs.Keys) + {m}
      ensures View(m) == bytes && r == |bytes|
      ensures Others(old(s), s, {m})
    {
      Created(s, m);
      s := s.(w := SetMsg(s.w, m, EMPTY), chains := s.chains[m := []]);
      ghost var s1 := s;
      r := Push(m, bytes);
      OthersOnward(old(s), s1, s, {m});
      NoneAdded(bytes);
    }

    // ----- joining -----

    /** The part of rwm_union for two messages that have parts; the structure of t is still in place. */
    method JoinTo(r: nat, t: nat) returns (locked: nat, ghost L: set<nat>)
      requires Valid() && Has(r) && Has(t) && r != t && s.w.msgs[r].first != 0 && s.w.msgs[t].first != 0
      modifies this
      ensures L == (if locked == 0 then {} else {locked}) && JoinedTo(old(s), s, r, t, L)
    {
      locked := LockLast(r, {});
      L := if locked == 0 then {} else {locked};
      JoiningFirst(old(s), s, r, t, locked);
      if locked == 0 { EndsDiffer(s, r, t); }
      CloseTail(r, t, locked, old(s), L);
      ghost var s2 := s;
      LockFirst(t, L);
      JoiningMore(old(s), s2, s, r, t, L);
      LastIsPart(s2.w, s2.chains, s2.rank, multiset{}, r);
      LastIsPart(s.w, s.chains, s.rank, multiset{}, r);
      ghost var chains', rank' := JoinedDone(old(s), s, r, t, L);
      s := State(Joined(s.w, r, t), chains', rank');
    }

    /** rwm_lock_last_part of t, and the lock taken off again: t now ends where its last part ends, and that is
        not the last part of r. */
    method CloseTail(r: nat, t: nat, locked: nat, ghost s0: State, ghost L: set<nat>)
      requires Joining(s0, s, r, t, L) && s.w.msgs[r].first != 0 && s.w.msgs[t].first != 0 && OpenEnd(s.w, s.w.msgs[r])
      requires L == (if locked == 0 then {} else {locked})
      requires if locked == 0 then s.w.msgs[r].last != s.w.msgs[t].last else locked == s.w.msgs[r].last
      modifies this
      ensures Joining(s0, s, r, t, L) && s.w.msgs[r].first != 0 && s.w.msgs[t].first != 0
      ensures OpenEnd(s.w, s.w.msgs[r]) && OpenEnd(s.w, s.w.msgs[t]) && s.w.msgs[r].last != s.w.msgs[t].last
    {
      ghost var s1 := s;
      var l2 := LockLast(t, L);
      if l2 == 0 {
        JoiningMore(s0, s1, s, r, t, L);
        EndsDiffer(s, r, t);
      } else {
        ghost var s2 := s;
        UnlockDone(s, l2, L, {});
        s := s.(w := SetLock(s.w, l2, false));
        LocksOther(s1, s2, s, r, t, locked, L);
        JoiningMore(s0, s1, s, r, t, L);
      }
    }

    /** rwm_union: the bytes of t are put behind those of r, and the structure of t goes out of use. */
    method Union(r: nat, t: nat)
      requires Valid() && Has(r) && Has(t) && r != t
      modifies this
      ensures United(old(s), s, r, t)
    {
      UnionStart(s, r, t);
      if s.w.msgs[r].last == 0 {
        Move(r, t);
        UnitedByMove(old(s), s, r, t);
      } else {
        var locked := 0;
        ghost var L := {};
        if s.w.msgs[t].first != 0 {
          locked, L := JoinTo(r, t);
        }
        ghost var s1 := s;
        Free(t, L);
        UnitedByJoin(old(s), s1, s, r, t, L);
        if locked != 0 {
          UnitedUnlocked(old(s), s, r, t, locked);
          s := s.(w := SetLock(s.w, locked, false));
        }
      }
    }
  }
}
