/** Proofs about the queue machine: every step keeps the invariant, and what follows for whole runs. */
module MpQueueSafety {
  import opened Counting
  import opened MpRing
  import opened MpQueue

  // ----- frames: what one thread's step leaves true for the others -----

  ghost predicate Grows(s: State, s': State, u: Tid) {
    && u < |s.threads| == |s'.threads| && s.gated == s'.gated
    && |s.rings| <= |s'.rings| && s.first <= s'.first
    && (forall b :: 0 <= b < |s.rings| ==>
          Evolves(s.rings[b], s'.rings[b], u) && KeepsPushSafe(s.rings[b], s'.rings[b]))
  }

  lemma Stable(s: State, s': State, u: Tid, w: Tid, pc: Pc)
    requires Grows(s, s', u) && w != u && ThreadOk(s, w, pc)
    ensures ThreadOk(s', w, pc)
  {
  }

  lemma Preserve(s: State, s': State, u: Tid)
    requires ThreadsOk(s) && Claimed(s) && Grows(s, s', u)
    requires s'.threads == s.threads[u := s'.threads[u]]
    requires ThreadOk(s', u, s'.threads[u])
    requires forall b :: |s.rings| <= b < |s'.rings| ==> s'.rings[b].popper == map[]
    requires forall b, h :: 0 <= b < |s.rings| && Open(s'.rings[b], h) && !Open(s.rings[b], h) ==>
               PopTicket(s'.threads[u]) == Ticket(b, h)
    requires match PopTicket(s.threads[u])
             case NoTicket => true
             case Ticket(b, h) => PopTicket(s'.threads[u]) == Ticket(b, h) || (b < |s.rings| && !Open(s'.rings[b], h))
    ensures ThreadsOk(s') && Claimed(s')
  {
    forall w | 0 <= w < |s'.threads| ensures ThreadOk(s', w, s'.threads[w]) {
      if w != u { Stable(s, s', u, w, s.threads[w]); }
    }
    forall b, h | 0 <= b < |s'.rings| && Open(s'.rings[b], h)
      ensures s'.rings[b].popper[h] < |s'.threads| && PopTicket(s'.threads[s'.rings[b].popper[h]]) == Ticket(b, h)
    {
      assert b < |s.rings|;
      if s'.rings[b].popper[h] != u {
        assert h in s.rings[b].popper && Open(s.rings[b], h);
      }
    }
  }

  lemma TokensStep(s: State, s': State, u: Tid)
    requires u < |s.threads| == |s'.threads| && s'.threads == s.threads[u := s'.threads[u]] && Tokens(s)
    requires var pc, pc' := s.threads[u], s'.threads[u];
             var undo := Ind(Undoes(pc')) - Ind(Undoes(pc));
             && s'.value - s.value + undo + Ind(Holds(pc')) - Ind(Holds(pc)) + Ind(Posts(pc')) - Ind(Posts(pc))
                == |Queued(s'.rings)| - |Queued(s.rings)|
             && (s'.value + undo >= s.value || s'.value + |Who(s'.threads, Undoes)| >= 0)
    ensures Tokens(s')
  {
    WhoCard(s.threads, u, s'.threads[u], Undoes);
    WhoCard(s.threads, u, s'.threads[u], Holds);
    WhoCard(s.threads, u, s'.threads[u], Posts);
  }

  lemma QueuedSame(rings: seq<Ring>, b: nat, r: Ring)
    requires b < |rings| && forall t :: r.Live(t) == rings[b].Live(t)
    ensures Queued(rings[b := r]) == Queued(rings)
  {
    forall x | x in Queued(rings) ensures x in Queued(rings[b := r]) {
      assert rings[x.0].Live(x.1) && rings[b := r][x.0].Live(x.1);
    }
    forall x | x in Queued(rings[b := r]) ensures x in Queued(rings) {
      assert rings[x.0].Live(x.1) && rings[b := r][x.0].Live(x.1);
    }
  }

  lemma EvolvesRefl(r: Ring, u: Tid)
    requires RingOk(r)
    ensures Evolves(r, r, u) && KeepsPushSafe(r, r)
  {
  }

  /** A step that leaves the rings and the list head alone. */
  lemma LocalOk(s: State, u: Tid, pc: Pc, last: nat, value: int)
    requires Inv(s) && u < |s.threads| && last < |s.rings|
    requires ThreadOk(s, u, pc)
    requires PopTicket(s.threads[u]) in {NoTicket, PopTicket(pc)} && PopTicket(pc) in {NoTicket, PopTicket(s.threads[u])}
    requires s.gated ==>
             var was := s.threads[u];
             var undo := Ind(Undoes(pc)) - Ind(Undoes(was));
             && value - s.value + undo + Ind(Holds(pc)) - Ind(Holds(was)) + Ind(Posts(pc)) - Ind(Posts(was)) == 0
             && (value + undo >= s.value || value >= 0)
    ensures Inv(Goto(s.(last := last, value := value), u, pc))
  {
    var s' := Goto(s.(last := last, value := value), u, pc);
    forall b | 0 <= b < |s.rings| ensures Evolves(s.rings[b], s'.rings[b], u) && KeepsPushSafe(s.rings[b], s'.rings[b]) {
      EvolvesRefl(s.rings[b], u);
    }
    Preserve(s, s', u);
    if s.gated { TokensStep(s, s', u); }
  }

  /** A step that changes only where thread u is. */
  lemma MoveOk(s: State, u: Tid, pc: Pc)
    requires Inv(s) && u < |s.threads| && ThreadOk(s, u, pc)
    requires PopTicket(s.threads[u]) == PopTicket(pc)
    requires s.gated ==> Holds(s.threads[u]) == Holds(pc) && Posts(s.threads[u]) == Posts(pc)
    requires !Undoes(s.threads[u]) && !Undoes(pc)
    ensures Inv(Goto(s, u, pc))
  {
    LocalOk(s, u, pc, s.last, s.value);
    assert s.(last := s.last, value := s.value) == s;
  }

  /** A step that moves the list head past a drained ring. */
  lemma UnlinkOk(s: State, u: Tid, b: nat, pc: Pc)
    requires Inv(s) && u < |s.threads|
    requires (s.threads[u] == PopUnlink(b) && pc == PopHead) || (s.threads[u] == EmptyUnlink(b) && pc == EmptyHead)
    ensures Inv(Goto(Unlink(s, b), u, pc))
  {
    var s' := Goto(Unlink(s, b), u, pc);
    assert ThreadOk(s, u, s.threads[u]);
    UnlinkGrows(s, u, b, pc);
    Preserve(s, s', u);
    if s.gated { TokensStep(s, s', u); }
  }

  lemma UnlinkGrows(s: State, u: Tid, b: nat, pc: Pc)
    requires StateOk(s) && u < |s.threads| && Observed(s, b, true)
    ensures StateOk(Goto(Unlink(s, b), u, pc)) && Grows(s, Goto(Unlink(s, b), u, pc), u)
  {
    var s' := Goto(Unlink(s, b), u, pc);
    forall i | 0 <= i < |s.rings| ensures Evolves(s.rings[i], s'.rings[i], u) && KeepsPushSafe(s.rings[i], s'.rings[i]) {
      EvolvesRefl(s.rings[i], u);
    }
  }

  /** A step that changes ring b, and by `queued` the number of values in it. */
  lemma RingStepOk(s: State, u: Tid, b: nat, r: Ring, pc: Pc, queued: int)
    requires Inv(s) && u < |s.threads| && b < |s.rings|
    requires RingOk(r) && Evolves(s.rings[b], r, u) && KeepsPushSafe(s.rings[b], r)
    requires ThreadOk(Goto(WithRing(s, b, r), u, pc), u, pc)
    requires forall h :: Open(r, h) && !Open(s.rings[b], h) ==> PopTicket(pc) == Ticket(b, h)
    requires match PopTicket(s.threads[u])
             case NoTicket => true
             case Ticket(i, h) => i == b && (PopTicket(pc) == Ticket(b, h) || !Open(r, h))
    requires |Queued(s.rings[b := r])| == |Queued(s.rings)| + queued
    requires s.gated ==>
             var was := s.threads[u];
             && !Undoes(was) && !Undoes(pc)
             && Ind(Holds(pc)) - Ind(Holds(was)) + Ind(Posts(pc)) - Ind(Posts(was)) == queued
    ensures Inv(Goto(WithRing(s, b, r), u, pc))
  {
    var s' := Goto(WithRing(s, b, r), u, pc);
    forall i | 0 <= i < |s.rings| ensures Evolves(s.rings[i], s'.rings[i], u) && KeepsPushSafe(s.rings[i], s'.rings[i]) {
      if i != b { EvolvesRefl(s.rings[i], u); }
    }
    assert StateOk(s');
    Preserve(s, s', u);
    if s.gated { TokensStep(s, s', u); }
  }

  // ----- every step keeps the invariant -----

  lemma SemGrantOk(s: State, u: Tid)
    requires Inv(s) && u < |s.threads| && s.threads[u].SemDec? && s.value > 0
    ensures Inv(Goto(s.(value := s.value - 1), u, PopHead))
  {
    LocalOk(s, u, PopHead, s.last, s.value - 1);
    assert s.(last := s.last, value := s.value - 1) == s.(value := s.value - 1);
  }

  lemma SemRefuseOk(s: State, u: Tid, wait: bool)
    requires Inv(s) && u < |s.threads| && s.threads[u] == SemDec(wait) && s.value <= 0
    ensures Inv(Goto(s.(value := s.value - 1), u, SemUndo(wait)))
  {
    LocalOk(s, u, SemUndo(wait), s.last, s.value - 1);
    assert s.(last := s.last, value := s.value - 1) == s.(value := s.value - 1);
  }

  lemma SemUndoOk(s: State, u: Tid, wait: bool, pc: Pc)
    requires Inv(s) && u < |s.threads| && s.threads[u] == SemUndo(wait) && (pc.SemDec? || pc.SemLoad? || pc.Idle?)
    ensures Inv(Goto(s.(value := s.value + 1), u, pc))
  {
    LocalOk(s, u, pc, s.last, s.value + 1);
    assert s.(last := s.last, value := s.value + 1) == s.(value := s.value + 1);
  }

  lemma StartOk(s: State, u: Tid, c: Choice)
    requires Inv(s) && u < |s.threads| && s.threads[u].Idle?
    ensures Inv(Goto(s, u, Start(s.gated, c)))
  {
    MoveOk(s, u, Start(s.gated, c));
  }

  lemma SemLoadOk(s: State, u: Tid, pc: Pc)
    requires Inv(s) && u < |s.threads| && s.threads[u].SemLoad? && (pc.SemDec? || pc.SemLoad? || pc.Idle?)
    ensures Inv(Goto(s, u, pc))
  {
    MoveOk(s, u, pc);
  }

  /** Neither popping nor between storing and posting. */
  predicate Outside(pc: Pc) {
    PopTicket(pc) == NoTicket && !Holds(pc) && !Posts(pc) && !Undoes(pc)
  }

  lemma FixReadOk(s: State, u: Tid, pc: Pc)
    requires StateOk(s) && ThreadOk(s, u, pc) && IsFixRead(pc)
    ensures ThreadOk(s, u, FixRead(s, pc))
  {
  }

  lemma PopReadOk(s: State, u: Tid, pc: Pc)
    requires StateOk(s) && ThreadOk(s, u, pc) && IsPopRead(pc)
    requires s.gated && pc.PopTail? && s.rings[pc.b].tail <= pc.h + 1 ==> pc.b + 1 < |s.rings|
    ensures ThreadOk(s, u, PopRead(s, pc)) && PopTicket(PopRead(s, pc)) == PopTicket(pc)
  {
  }

  lemma PushTestOk(s: State, u: Tid, pc: Pc)
    requires StateOk(s) && ThreadOk(s, u, pc) && pc.PushTest?
    ensures ThreadOk(s, u, PushRead(s, pc)) && Outside(PushRead(s, pc))
  {
  }

  lemma PushReadOk(s: State, u: Tid, pc: Pc)
    requires StateOk(s) && ThreadOk(s, u, pc) && IsPushRead(pc)
    ensures ThreadOk(s, u, PushRead(s, pc)) && Outside(PushRead(s, pc))
  {
    if pc.PushTest? { PushTestOk(s, u, pc); }
  }

  lemma EmptyReadOk(s: State, u: Tid, pc: Pc)
    requires StateOk(s) && ThreadOk(s, u, pc) && IsEmptyRead(pc)
    ensures ThreadOk(s, u, EmptyRead(s, pc)) && Outside(EmptyRead(s, pc))
  {
  }

  lemma PopDrawOk(s: State, u: Tid)
    requires Inv(s) && u < |s.threads| && s.threads[u].PopDraw?
    ensures Ready(s, s.threads[u]) && Inv(PopWrite(s, u))
  {
    var pc := s.threads[u];
    var r, r' := s.rings[pc.b], DrawPop(s.rings[pc.b], u);
    assert ThreadOk(s, u, pc);
    DrawPopOk(r, u);
    QueuedSame(s.rings, pc.b, r');
    RingStepOk(s, u, pc.b, r', PopVal(pc.b, pc.again, r.head), 0);
  }

  /** A pop gives up on its ticket, having left ring b as r'. */
  lemma GiveUpOk(s: State, u: Tid, r': Ring)
    requires Inv(s) && u < |s.threads| && (s.threads[u].PopIdx? || s.threads[u].PopCas?)
    requires var pc := s.threads[u];
             && pc.b < |s.rings| && RingOk(r') && Evolves(s.rings[pc.b], r', u) && KeepsPushSafe(s.rings[pc.b], r')
             && r'.given == s.rings[pc.b].given + {pc.h} && r'.taken == s.rings[pc.b].taken
             && r'.stored == s.rings[pc.b].stored && r'.popper == s.rings[pc.b].popper
    ensures var pc := s.threads[u];
            Inv(Goto(WithRing(s, pc.b, r'), u, PopTail(pc.b, pc.again, pc.h)))
  {
    var pc := s.threads[u];
    assert ThreadOk(s, u, pc);
    QueuedSame(s.rings, pc.b, r');
    RingStepOk(s, u, pc.b, r', PopTail(pc.b, pc.again, pc.h), 0);
  }

  lemma PopIdxOk(s: State, u: Tid)
    requires Inv(s) && u < |s.threads| && s.threads[u].PopIdx?
    ensures Ready(s, s.threads[u]) && Inv(PopWrite(s, u))
  {
    var pc := s.threads[u];
    assert ThreadOk(s, u, pc);
    if s.rings[pc.b].At(pc.h).idx > pc.h {
      SkipOk(s.rings[pc.b], pc.h, u);
      GiveUpOk(s, u, Skip(s.rings[pc.b], pc.h));
    } else {
      MoveOk(s, u, PopWrite(s, u).threads[u]);
    }
  }

  lemma QueuedLess(rings: seq<Ring>, b: nat, r: Ring, t0: nat)
    requires b < |rings| && rings[b].Live(t0)
    requires forall t :: r.Live(t) <==> rings[b].Live(t) && t != t0
    ensures Queued(rings[b := r]) == Queued(rings) - {(b, t0)}
    ensures |Queued(rings[b := r])| == |Queued(rings)| - 1
  {
    forall x | x in Queued(rings) - {(b, t0)} ensures x in Queued(rings[b := r]) {
      assert rings[x.0].Live(x.1) && rings[b := r][x.0].Live(x.1);
    }
    forall x | x in Queued(rings[b := r]) ensures x in Queued(rings) - {(b, t0)} {
      assert rings[x.0].Live(x.1) && rings[b := r][x.0].Live(x.1);
    }
    assert (b, t0) in Queued(rings);
  }

  lemma PopTakeOk(s: State, u: Tid)
    requires Inv(s) && u < |s.threads| && s.threads[u].PopCas?
    requires var pc := s.threads[u];
             pc.b < |s.rings| && |s.rings[pc.b].cells| > 0 && s.rings[pc.b].At(pc.h) == pc.seen && pc.seen.content.Full? && pc.seen.idx == pc.h
    ensures var pc := s.threads[u];
            Inv(Goto(WithRing(s, pc.b, Take(s.rings[pc.b], pc.h)), u, PopDone(pc.seen.content.v)))
  {
    var pc := s.threads[u];
    var r, r' := s.rings[pc.b], Take(s.rings[pc.b], pc.h);
    assert ThreadOk(s, u, pc);
    TakeOk(r, pc.h, u);
    assert forall t :: r'.Live(t) <==> r.Live(t) && t != pc.h;
    QueuedLess(s.rings, pc.b, r', pc.h);
    RingStepOk(s, u, pc.b, r', PopDone(pc.seen.content.v), -1);
  }

  lemma PopCasOk(s: State, u: Tid)
    requires Inv(s) && u < |s.threads| && s.threads[u].PopCas?
    ensures Ready(s, s.threads[u]) && Inv(PopWrite(s, u))
  {
    var pc := s.threads[u];
    var r := s.rings[pc.b];
    assert ThreadOk(s, u, pc);
    if r.At(pc.h) != pc.seen {
      MoveOk(s, u, PopWrite(s, u).threads[u]);
    } else if pc.seen.content.Empty? {
      BumpOk(r, pc.h, u);
      GiveUpOk(s, u, Bump(r, pc.h));
    } else if pc.seen.idx != pc.h {
      UnsafeOk(r, pc.h, u);
      GiveUpOk(s, u, Unsafe(r, pc.h));
    } else {
      PopTakeOk(s, u);
    }
  }

  // ----- a pop that holds a token finds a value -----

  /** The thread that drew the head ticket of a queued value. */
  ghost function Claimant(s: State, x: (nat, nat)): Tid
    requires x.0 < |s.rings| && x.1 in s.rings[x.0].popper
  {
    s.rings[x.0].popper[x.1]
  }

  ghost predicate AllClaimed(s: State) {
    forall b, t :: 0 <= b < |s.rings| && s.rings[b].Live(t) ==>
      && t in s.rings[b].popper
      && Claimant(s, (b, t)) < |s.threads|
      && PopTicket(s.threads[Claimant(s, (b, t))]) == Ticket(b, t)
  }

  /** If the last ring has a pop for every push ticket, each queued value is in the hands of a pop. */
  lemma ObservedClaims(s: State, b: nat)
    requires Inv(s) && b + 1 == |s.rings| && b <= s.first && s.rings[b].bound <= s.rings[b].head
    ensures AllClaimed(s)
  {
    forall i, t | 0 <= i < |s.rings| && s.rings[i].Live(t)
      ensures t in s.rings[i].popper && Claimant(s, (i, t)) < |s.threads|
              && PopTicket(s.threads[Claimant(s, (i, t))]) == Ticket(i, t)
    {
      assert s.rings[i].bound <= s.rings[i].head;
      assert Open(s.rings[i], t);
    }
  }

  lemma {:induction false} AtMostHolders(s: State, values: set<(nat, nat)>, pops: set<Tid>)
    requires AllClaimed(s) && values <= Queued(s.rings)
    requires forall x :: x in values ==> s.rings[x.0].Live(x.1) && Claimant(s, x) in pops
    ensures |values| <= |pops|
    decreases values
  {
    if values != {} {
      var x :| x in values;
      forall y | y in values - {x} ensures Claimant(s, y) in pops - {Claimant(s, x)} {
        assert s.rings[x.0].Live(x.1) && s.rings[y.0].Live(y.1);
        assert PopTicket(s.threads[Claimant(s, x)]) == Ticket(x.0, x.1);
        assert PopTicket(s.threads[Claimant(s, y)]) == Ticket(y.0, y.1);
      }
      AtMostHolders(s, values - {x}, pops - {Claimant(s, x)});
    }
  }

  /** If every queued value is in the hands of a pop, and thread u holds a token but no ticket, then
      there are fewer values than tokens held. */
  lemma ClaimsLeaveOne(s: State, u: Tid)
    requires AllClaimed(s) && u in Who(s.threads, Holds) && PopTicket(s.threads[u]) == NoTicket
    ensures |Queued(s.rings)| < |Who(s.threads, Holds)|
  {
    var others := Who(s.threads, Holds) - {u};
    forall x | x in Queued(s.rings)
      ensures x.0 < |s.rings| && s.rings[x.0].Live(x.1) && x.1 in s.rings[x.0].popper && Claimant(s, x) in others
    {
      ClaimHeld(s, u, x);
    }
    AtMostHolders(s, Queued(s.rings), others);
  }

  lemma ClaimHeld(s: State, u: Tid, x: (nat, nat))
    requires AllClaimed(s) && u < |s.threads| && PopTicket(s.threads[u]) == NoTicket && x in Queued(s.rings)
    ensures x.0 < |s.rings| && s.rings[x.0].Live(x.1) && x.1 in s.rings[x.0].popper
    ensures Claimant(s, x) in Who(s.threads, Holds) - {u}
  {
    assert s.rings[x.0].Live(x.1);
    assert PopTicket(s.threads[Claimant(s, (x.0, x.1))]) == Ticket(x.0, x.1);
  }

  /** A pop with a token that has given up on its ticket and sees the tail no higher than that ticket
      is not in the last ring. */
  lemma TokenMeansMore(s: State, u: Tid)
    requires Inv(s) && s.gated && u < |s.threads| && s.threads[u].PopTail?
    requires s.threads[u].b < |s.rings| && s.rings[s.threads[u].b].tail <= s.threads[u].h + 1
    ensures s.threads[u].b + 1 < |s.rings|
  {
    var pc := s.threads[u];
    assert ThreadOk(s, u, pc);
    if pc.b + 1 == |s.rings| {
      assert RingOk(s.rings[pc.b]);
      ObservedClaims(s, pc.b);
      ClaimsLeaveOne(s, u);
    }
  }

  // ----- pushes -----

  lemma QueuedMore(rings: seq<Ring>, b: nat, r: Ring, t0: nat)
    requires b < |rings| && !rings[b].Live(t0)
    requires forall t :: r.Live(t) <==> rings[b].Live(t) || t == t0
    ensures |Queued(rings[b := r])| == |Queued(rings)| + 1
  {
    QueuedLess(rings[b := r], b, rings[b], t0);
    assert rings[b := r][b := rings[b]] == rings;
  }

  lemma PushStoreOk(s: State, u: Tid)
    requires Inv(s) && u < |s.threads| && s.threads[u].PushCas?
    requires var pc := s.threads[u];
             && pc.b < |s.rings| && |s.rings[pc.b].cells| > 0
             && s.rings[pc.b].At(pc.t) == Cell(pc.safe, pc.idx, Empty)
    ensures var pc := s.threads[u];
            Inv(Goto(WithRing(s, pc.b, Store(s.rings[pc.b], pc.t, pc.v)), u, PushPost))
  {
    var pc := s.threads[u];
    var r, r' := s.rings[pc.b], Store(s.rings[pc.b], pc.t, pc.v);
    assert ThreadOk(s, u, pc);
    StoreOk(r, pc.t, pc.v, pc.safe, pc.idx, u);
    assert pc.t !in r.taken;
    assert forall t :: r'.Live(t) <==> r.Live(t) || t == pc.t;
    assert forall h :: Open(r', h) == Open(r, h);
    QueuedMore(s.rings, pc.b, r', pc.t);
    RingStepOk(s, u, pc.b, r', PushPost, 1);
  }

  lemma PushDrawOk(s: State, u: Tid)
    requires Inv(s) && u < |s.threads| && s.threads[u].PushDraw?
    ensures Ready(s, s.threads[u]) && Inv(PushWrite(s, u))
  {
    var pc := s.threads[u];
    var r, r' := s.rings[pc.b], DrawPush(s.rings[pc.b], u);
    assert ThreadOk(s, u, pc);
    DrawPushOk(r, u);
    QueuedSame(s.rings, pc.b, r');
    RingStepOk(s, u, pc.b, r', if r.closed then PushAlloc(pc.v, pc.b) else PushVal(pc.v, pc.b, pc.n, r.tail), 0);
  }

  lemma PushCloseOk(s: State, u: Tid)
    requires Inv(s) && u < |s.threads| && s.threads[u].PushClose?
    ensures Ready(s, s.threads[u]) && Inv(PushWrite(s, u))
  {
    var pc := s.threads[u];
    var r, r' := s.rings[pc.b], Close(s.rings[pc.b]);
    assert ThreadOk(s, u, pc);
    CloseOk(r, u);
    QueuedSame(s.rings, pc.b, r');
    RingStepOk(s, u, pc.b, r', PushAlloc(pc.v, pc.b), 0);
  }

  lemma QueuedLink(rings: seq<Ring>, v: Value, size: nat, u: Tid)
    requires size > 0
    ensures |Queued(rings + [NewRing(size, Full(v), u)])| == |Queued(rings)| + 1
  {
    var rings' := rings + [NewRing(size, Full(v), u)];
    forall x | x in Queued(rings) ensures x in Queued(rings') { assert rings'[x.0] == rings[x.0]; }
    assert rings'[|rings|].Live(0);
    assert Queued(rings') == Queued(rings) + {(|rings|, 0)};
  }

  lemma LinkStateOk(s: State, r: Ring, u: Tid)
    requires StateOk(s) && RingOk(r) && s.rings[|s.rings| - 1].closed && u < |s.threads|
    ensures StateOk(s.(rings := s.rings + [r]))
    ensures forall i :: 0 <= i < |s.rings| ==>
              Evolves(s.rings[i], (s.rings + [r])[i], u) && KeepsPushSafe(s.rings[i], (s.rings + [r])[i])
  {
    forall i | 0 <= i < |s.rings|
      ensures Evolves(s.rings[i], (s.rings + [r])[i], u) && KeepsPushSafe(s.rings[i], (s.rings + [r])[i])
    {
      EvolvesRefl(s.rings[i], u);
    }
  }

  lemma PushLinkOk(s: State, u: Tid, v: Value, b: nat, size: nat)
    requires Inv(s) && u < |s.threads| && s.threads[u] == PushLink(v, b, size) && b + 1 == |s.rings| && size > 0
    ensures Inv(Goto(s.(rings := s.rings + [NewRing(size, Full(v), u)]), u, PushSwing(b)))
  {
    assert ThreadOk(s, u, PushLink(v, b, size));
    var r := NewRing(size, Full(v), u);
    NewRingOk(size, Full(v), u);
    LinkStateOk(s, r, u);
    var s' := Goto(s.(rings := s.rings + [r]), u, PushSwing(b));
    Preserve(s, s', u);
    if s.gated {
      QueuedLink(s.rings, v, size, u);
      TokensStep(s, s', u);
    }
  }

  lemma ReadyOk(s: State, u: Tid)
    requires Inv(s) && u < |s.threads|
    ensures Ready(s, s.threads[u])
  {
    assert ThreadOk(s, u, s.threads[u]);
  }

  lemma FixReadStepOk(s: State, u: Tid)
    requires Inv(s) && u < |s.threads| && IsFixRead(s.threads[u]) && Ready(s, s.threads[u])
    ensures Inv(Goto(s, u, FixRead(s, s.threads[u])))
  {
    var pc := s.threads[u];
    assert ThreadOk(s, u, pc);
    FixReadOk(s, u, pc);
    MoveOk(s, u, FixRead(s, pc));
  }

  lemma PopReadStepOk(s: State, u: Tid)
    requires Inv(s) && u < |s.threads| && IsPopRead(s.threads[u]) && Ready(s, s.threads[u])
    ensures Inv(Goto(s, u, PopRead(s, s.threads[u])))
  {
    var pc := s.threads[u];
    assert ThreadOk(s, u, pc);
    if s.gated && pc.PopTail? && s.rings[pc.b].tail <= pc.h + 1 { TokenMeansMore(s, u); }
    PopReadOk(s, u, pc);
    MoveOk(s, u, PopRead(s, pc));
  }

  lemma PushReadStepOk(s: State, u: Tid)
    requires Inv(s) && u < |s.threads| && IsPushRead(s.threads[u]) && Ready(s, s.threads[u])
    ensures Inv(Goto(s, u, PushRead(s, s.threads[u])))
  {
    var pc := s.threads[u];
    assert ThreadOk(s, u, pc);
    PushReadOk(s, u, pc);
    MoveOk(s, u, PushRead(s, pc));
  }

  lemma EmptyReadStepOk(s: State, u: Tid)
    requires Inv(s) && u < |s.threads| && IsEmptyRead(s.threads[u]) && Ready(s, s.threads[u])
    ensures Inv(Goto(s, u, EmptyRead(s, s.threads[u])))
  {
    var pc := s.threads[u];
    assert ThreadOk(s, u, pc);
    EmptyReadOk(s, u, pc);
    MoveOk(s, u, EmptyRead(s, pc));
  }

  lemma FixCasOk(s: State, u: Tid)
    requires Inv(s) && u < |s.threads| && s.threads[u].FixCas?
    ensures Ready(s, s.threads[u]) && Inv(PopWrite(s, u))
  {
    var pc := s.threads[u];
    assert ThreadOk(s, u, pc);
    var r := s.rings[pc.b];
    if !r.closed && r.tail == pc.t {
      AdvanceTailOk(r, pc.h, u);
      QueuedSame(s.rings, pc.b, AdvanceTail(r, pc.h));
      RingStepOk(s, u, pc.b, AdvanceTail(r, pc.h), FixDone(pc.b, pc.again), 0);
    } else {
      MoveOk(s, u, FixTail(pc.b, pc.again));
    }
  }

  lemma PopWriteOk(s: State, u: Tid)
    requires Inv(s) && u < |s.threads| && IsPopWrite(s.threads[u]) && Ready(s, s.threads[u])
    ensures Inv(PopWrite(s, u))
  {
    match s.threads[u]
    case PopDraw(_, _) => PopDrawOk(s, u);
    case PopIdx(_, _, _, _) => PopIdxOk(s, u);
    case PopCas(_, _, _, _) => PopCasOk(s, u);
    case FixCas(_, _, _, _) => FixCasOk(s, u);
    case PopUnlink(b) => UnlinkOk(s, u, b, PopHead);
    case EmptyUnlink(b) => UnlinkOk(s, u, b, EmptyHead);
  }

  lemma PushCasOk(s: State, u: Tid)
    requires Inv(s) && u < |s.threads| && s.threads[u].PushCas? && Ready(s, s.threads[u])
    ensures Inv(PushWrite(s, u))
  {
    var pc := s.threads[u];
    assert ThreadOk(s, u, pc);
    if s.rings[pc.b].At(pc.t) == Cell(pc.safe, pc.idx, Empty) { PushStoreOk(s, u); }
    else { MoveOk(s, u, PushSize(pc.v, pc.b, pc.n, pc.t)); }
  }

  lemma PushTailOk(s: State, u: Tid)
    requires Inv(s) && u < |s.threads| && (s.threads[u].PushHelp? || s.threads[u].PushSwing? || s.threads[u].PushPost?)
    ensures Ready(s, s.threads[u]) && Inv(PushWrite(s, u))
  {
    var s' := PushWrite(s, u);
    assert ThreadOk(s, u, s.threads[u]);
    LocalOk(s, u, s'.threads[u], s'.last, s'.value);
  }

  lemma PushWriteOk(s: State, u: Tid)
    requires Inv(s) && u < |s.threads| && IsPushWrite(s.threads[u]) && Ready(s, s.threads[u])
    ensures Inv(PushWrite(s, u))
  {
    match s.threads[u]
    case PushDraw(_, _, _) => PushDrawOk(s, u);
    case PushCas(_, _, _, _, _, _) => PushCasOk(s, u);
    case PushClose(_, _) => PushCloseOk(s, u);
    case PushLink(v, b, size) =>
      if b + 1 == |s.rings| { PushLinkOk(s, u, v, b, size); } else { MoveOk(s, u, PushTail(v)); }
    case _ => PushTailOk(s, u);
  }

  /** One step of any thread, with any choice, keeps the invariant. */
  lemma StepOk(s: State, u: Tid, c: Choice)
    requires Inv(s) && u < |s.threads|
    ensures Inv(Step(s, u, c))
  {
    ReadyOk(s, u);
    var pc := s.threads[u];
    if IsFixRead(pc) { FixReadStepOk(s, u); }
    else if IsPopRead(pc) { PopReadStepOk(s, u); }
    else if IsPushRead(pc) { PushReadStepOk(s, u); }
    else if IsEmptyRead(pc) { EmptyReadStepOk(s, u); }
    else if IsPopWrite(pc) { PopWriteOk(s, u); }
    else if IsPushWrite(pc) { PushWriteOk(s, u); }
    else if pc.SemDec? { if s.value > 0 { SemGrantOk(s, u); } else { SemRefuseOk(s, u, pc.wait); } }
    else if pc.SemUndo? { SemUndoOk(s, u, pc.wait, Step(s, u, c).threads[u]); }
    else if pc.Idle? { StartOk(s, u, c); }
    else { SemLoadOk(s, u, Step(s, u, c).threads[u]); }
  }

  // ----- whole runs -----

  lemma InitOk(gated: bool, n: nat)
    ensures Inv(Init(gated, n))
  {
    var s := Init(gated, n);
    NewRingOk(SMALL_BLOCK, Empty, 0);
    assert Who(s.threads, Undoes) == {} && Who(s.threads, Holds) == {} && Who(s.threads, Posts) == {};
    assert Queued(s.rings) == {};
  }

  lemma {:induction false} RunOk(s: State, sched: seq<(Tid, Choice)>)
    requires Inv(s)
    ensures Inv(Run(s, sched))
    ensures Run(s, sched).gated == s.gated && |Run(s, sched).threads| == |s.threads|
    decreases sched
  {
    if sched != [] {
      var (u, c) := sched[0];
      if u < |s.threads| {
        StepOk(s, u, c);
        RunOk(Step(s, u, c), sched[1..]);
      } else {
        RunOk(s, sched[1..]);
      }
    }
  }

  lemma ReachableOk(s: State)
    requires Reachable(s)
    ensures Inv(s)
  {
    var gated, n: nat, sched: seq<(Tid, Choice)> :| s == Run(Init(gated, n), sched);
    InitOk(gated, n);
    RunOk(Init(gated, n), sched);
  }

  /** In every run in which each pop got a token first, no pop returns without a value: the assertion
      after mpq_pop in mpq_pop_w and mpq_pop_nw never fires. */
  lemma TokenNeverFails(n: nat, sched: seq<(Tid, Choice)>, u: Tid)
    requires u < n
    ensures |Run(Init(true, n), sched).threads| == n
    ensures Run(Init(true, n), sched).threads[u] != PopNull
  {
    InitOk(true, n);
    RunOk(Init(true, n), sched);
    var s := Run(Init(true, n), sched);
    assert ThreadOk(s, u, s.threads[u]);
  }

  lemma PopDoneIsTake(s: State, u: Tid, c: Choice, v: Value)
    requires u < |s.threads| && !s.threads[u].PopDone? && Step(s, u, c).threads[u] == PopDone(v)
    ensures var pc := s.threads[u];
            && pc.PopCas? && Ready(s, pc) && pc.seen.content == Full(v) && pc.seen.idx == pc.h
            && s.rings[pc.b].At(pc.h) == pc.seen
            && Step(s, u, c).rings == s.rings[pc.b := Take(s.rings[pc.b], pc.h)]
  {
    OnlyPopEnds(s, u, c, v);
  }

  lemma OnlyPopEnds(s: State, u: Tid, c: Choice, v: Value)
    requires u < |s.threads| && !s.threads[u].PopDone? && Step(s, u, c).threads[u] == PopDone(v)
    ensures Ready(s, s.threads[u]) && IsPopWrite(s.threads[u]) && Step(s, u, c) == PopWrite(s, u)
  {
    var pc := s.threads[u];
    if IsPushWrite(pc) {
      assert !PushWrite(s, u).threads[u].PopDone?;
    } else if IsSem(pc) {
      assert !SemStep(s, u, c).threads[u].PopDone?;
    }
  }

  ghost predicate Delivered(s: State, s': State, u: Tid, b: nat, h: nat, v: Value) {
    && b < |s.rings| && s.rings[b].Live(h) && s.rings[b].stored[h] == v
    && h in s.rings[b].popper && s.rings[b].popper[h] == u
    && Queued(s'.rings) == Queued(s.rings) - {(b, h)}
  }

  /** A pop that returns v took it from the cell of the head ticket it drew itself, where a push had
      stored v under the equal tail ticket; the value is in the queue before and not after. */
  lemma PopDelivers(s: State, u: Tid, c: Choice, v: Value, b: nat, h: nat)
    requires Reachable(s) && u < |s.threads| && !s.threads[u].PopDone? && PopTicket(s.threads[u]) == Ticket(b, h)
    requires Step(s, u, c).threads[u] == PopDone(v)
    ensures Delivered(s, Step(s, u, c), u, b, h, v)
  {
    ReachableOk(s);
    assert ThreadOk(s, u, s.threads[u]);
    PopDoneIsTake(s, u, c, v);
    TakeOk(s.rings[b], h, u);
    var r' := Take(s.rings[b], h);
    assert forall t :: r'.Live(t) <==> s.rings[b].Live(t) && t != h;
    QueuedLess(s.rings, b, r', h);
  }

  /** What a ring remembers is never forgotten or changed. */
  ghost predicate Remembers(r: Ring, r': Ring) {
    && (forall t :: t in r.stored ==> t in r'.stored && r'.stored[t] == r.stored[t])
    && r.taken <= r'.taken && r.given <= r'.given
  }

  ghost predicate RemembersAll(s: State, s': State) {
    |s.rings| <= |s'.rings| && forall b :: 0 <= b < |s.rings| ==> Remembers(s.rings[b], s'.rings[b])
  }

  lemma PopWriteRemembers(s: State, u: Tid)
    requires u < |s.threads| && IsPopWrite(s.threads[u]) && Ready(s, s.threads[u])
    ensures RemembersAll(s, PopWrite(s, u))
  {
    var pc := s.threads[u];
    if pc.PopCas? { PopSwapRemembers(s, u, pc.b, pc.again, pc.h, pc.seen); }
    else if pc.PopIdx? { RingRemembers(s, pc.b, Skip(s.rings[pc.b], pc.h)); }
    else if pc.PopDraw? { RingRemembers(s, pc.b, DrawPop(s.rings[pc.b], u)); }
    else if pc.FixCas? { RingRemembers(s, pc.b, AdvanceTail(s.rings[pc.b], pc.h)); }
  }

  lemma RingRemembers(s: State, b: nat, r: Ring)
    requires b < |s.rings| && Remembers(s.rings[b], r)
    ensures RemembersAll(s, WithRing(s, b, r))
  {
  }

  lemma PopSwapRemembers(s: State, u: Tid, b: nat, again: bool, h: nat, seen: Cell)
    requires u < |s.threads| && b < |s.rings| && |s.rings[b].cells| > 0
    ensures RemembersAll(s, PopSwap(s, u, b, again, h, seen))
  {
    var r := s.rings[b];
    RingRemembers(s, b, Take(r, h));
    RingRemembers(s, b, Unsafe(r, h));
    RingRemembers(s, b, Bump(r, h));
  }

  lemma PushWriteRemembers(s: State, u: Tid)
    requires u < |s.threads| && IsPushWrite(s.threads[u]) && Ready(s, s.threads[u]) && ThreadOk(s, u, s.threads[u])
    ensures RemembersAll(s, PushWrite(s, u))
  {
  }

  lemma StepRemembers(s: State, u: Tid, c: Choice)
    requires u < |s.threads| && ThreadOk(s, u, s.threads[u])
    ensures RemembersAll(s, Step(s, u, c))
  {
    var pc := s.threads[u];
    if Ready(s, pc) {
      if IsPopWrite(pc) { PopWriteRemembers(s, u); }
      else if IsPushWrite(pc) { PushWriteRemembers(s, u); }
    }
  }

  lemma {:induction false} RunRemembers(s: State, sched: seq<(Tid, Choice)>)
    requires Inv(s)
    ensures RemembersAll(s, Run(s, sched))
    decreases sched
  {
    if sched != [] {
      var (u, c) := sched[0];
      if u < |s.threads| {
        StepOk(s, u, c);
        StepRemembers(s, u, c);
        RunRemembers(Step(s, u, c), sched[1..]);
      } else {
        RunRemembers(s, sched[1..]);
      }
    }
  }

  /** Whatever happens later: a value taken from a ticket is not in the queue again, and the push of
      a ticket whose pop has given up never succeeds. */
  lemma TicketsResolveOnce(s: State, sched: seq<(Tid, Choice)>, b: nat, t: nat)
    requires Reachable(s) && b < |s.rings|
    ensures b < |Run(s, sched).rings|
    ensures t in s.rings[b].taken ==> !Run(s, sched).rings[b].Live(t)
    ensures t in s.rings[b].given ==> t !in Run(s, sched).rings[b].stored
  {
    ReachableOk(s);
    RunOk(s, sched);
    RunRemembers(s, sched);
    var r := Run(s, sched).rings[b];
    assert Remembers(s.rings[b], r) && RingOk(r);
  }

  lemma EmptyDoneIsRead(s: State, u: Tid, c: Choice)
    requires u < |s.threads| && !s.threads[u].EmptyDone? && Step(s, u, c).threads[u] == EmptyDone(true)
    ensures var pc := s.threads[u];
            && (pc.EmptyReadTail? || pc.EmptyNext?) && Ready(s, pc)
            && (pc.EmptyReadTail? ==> !s.rings[pc.b].closed && s.rings[pc.b].tail <= pc.h)
            && (pc.EmptyNext? ==> pc.b + 1 >= |s.rings|)
  {
  }

  /** When mpq_is_empty answers yes, every value in the queue is already in the hands of the pop
      that drew its ticket. */
  lemma EmptyMeansClaimed(s: State, u: Tid, c: Choice)
    requires Reachable(s) && u < |s.threads| && !s.threads[u].EmptyDone?
    requires Step(s, u, c).threads[u] == EmptyDone(true)
    ensures AllClaimed(s)
  {
    ReachableOk(s);
    EmptyDoneIsRead(s, u, c);
    var pc := s.threads[u];
    assert ThreadOk(s, u, pc);
    assert RingOk(s.rings[pc.b]);
    ObservedClaims(s, pc.b);
  }

  /** A ring behind the list head holds only values that pops have already drawn the tickets of. */
  lemma UnlinkedIsDrained(s: State, b: nat, t: nat)
    requires Reachable(s) && b < s.first && b < |s.rings| && s.rings[b].Live(t)
    ensures t in s.rings[b].popper && s.rings[b].popper[t] < |s.threads|
    ensures PopTicket(s.threads[s.rings[b].popper[t]]) == Ticket(b, t)
  {
    ReachableOk(s);
    assert RingOk(s.rings[b]) && s.rings[b].Drained();
    assert Open(s.rings[b], t);
  }

  /** The queue is first in, first out: every value stored under an earlier ticket than that of a pop at work is
      itself in the hands of the pop that drew its ticket. */
  lemma FirstOut(s: State, u: Tid, b: nat, h: nat, i: nat, t: nat)
    requires Reachable(s) && u < |s.threads| && PopTicket(s.threads[u]) == Ticket(b, h)
    requires i < |s.rings| && s.rings[i].Live(t) && (i < b || (i == b && t < h))
    ensures t in s.rings[i].popper && s.rings[i].popper[t] < |s.threads|
    ensures PopTicket(s.threads[s.rings[i].popper[t]]) == Ticket(i, t)
  {
    ReachableOk(s);
    assert ThreadOk(s, u, s.threads[u]);
    assert RingOk(s.rings[i]);
    assert Open(s.rings[i], t);
  }

  /** As long as every pop has a token, the compare-and-swap of mpq_fix_state is never reached. */
  lemma TailNeverFixed(s: State, u: Tid)
    requires Reachable(s) && s.gated && u < |s.threads|
    ensures !s.threads[u].FixCas?
  {
    ReachableOk(s);
    assert ThreadOk(s, u, s.threads[u]);
  }

  // ----- what a single consumer may rely on -----

  /** In mpq_pop_w or mpq_pop_nw. */
  predicate InPop(pc: Pc) { (IsSem(pc) && !pc.Idle?) || Holds(pc) || pc.PopDone? }

  predicate StartsPop(c: Choice) { c.StartPop? || c.StartRawPop? }

  /** No ring loses a value. */
  ghost predicate Keeps(rings: seq<Ring>, rings': seq<Ring>) {
    |rings| <= |rings'|
    && forall b :: 0 <= b < |rings| ==> rings[b].stored.Keys <= rings'[b].stored.Keys && rings'[b].taken == rings[b].taken
  }

  lemma KeepsQueued(rings: seq<Ring>, rings': seq<Ring>)
    requires Keeps(rings, rings')
    ensures Queued(rings) <= Queued(rings')
  {
    forall x | x in Queued(rings) ensures x in Queued(rings') {
      assert x.1 in rings[x.0].stored.Keys;
    }
  }

  lemma PushKeeps(s: State, w: Tid)
    requires w < |s.threads| && IsPushWrite(s.threads[w]) && Ready(s, s.threads[w])
    ensures Keeps(s.rings, PushWrite(s, w).rings) && PushWrite(s, w).value >= s.value
  {
    var pc := s.threads[w];
    if pc.PushDraw? { RingKeeps(s.rings, pc.b, DrawPush(s.rings[pc.b], w)); }
    else if pc.PushCas? { RingKeeps(s.rings, pc.b, Store(s.rings[pc.b], pc.t, pc.v)); }
    else if pc.PushClose? { RingKeeps(s.rings, pc.b, Close(s.rings[pc.b])); }
  }

  lemma RingKeeps(rings: seq<Ring>, b: nat, r: Ring)
    requires b < |rings| && rings[b].stored.Keys <= r.stored.Keys && r.taken == rings[b].taken
    ensures Keeps(rings, rings[b := r])
  {
  }

  /** Thread w pushes, tests for emptiness or rests: no token and no value goes. */
  lemma OthersOnlyAdd(s: State, w: Tid, c: Choice)
    requires w < |s.threads| && !InPop(s.threads[w]) && !StartsPop(c)
    ensures Step(s, w, c).value >= s.value && Keeps(s.rings, Step(s, w, c).rings)
  {
    var pc := s.threads[w];
    if Ready(s, pc) {
      if IsPushWrite(pc) { PushKeeps(s, w); }
      else if IsPopWrite(pc) { assert pc.EmptyUnlink?; }
    }
  }

  /** A step of a thread that is not in a pop and does not start one takes nothing away. */
  ghost predicate OnlyAdds(s: State, w: Tid, c: Choice)
    requires w < |s.threads|
  {
    !InPop(s.threads[w]) && !StartsPop(c) ==>
      Step(s, w, c).value >= s.value && Queued(s.rings) <= Queued(Step(s, w, c).rings)
  }

  /** A yes of mpq_is_empty while nobody pops means that no value is left. */
  ghost predicate YesIsTrue(s: State, w: Tid, c: Choice)
    requires w < |s.threads|
  {
    !s.threads[w].EmptyDone? && Step(s, w, c).threads[w] == EmptyDone(true) && Queued(s.rings) != {} ==>
      exists v :: 0 <= v < |s.threads| && InPop(s.threads[v])
  }

  /** A token that is there is seen and got. */
  ghost predicate TakesToken(s: State, u: Tid, c: Choice)
    requires u < |s.threads|
  {
    && (s.threads[u].SemLoad? && s.value > 0 ==> Step(s, u, c).threads[u] == SemDec(s.threads[u].wait))
    && (s.threads[u].SemDec? && s.value > 0 ==> Step(s, u, c).threads[u] == PopHead)
  }

  /** What a queue promises to thread u while no other thread pops: a posted token stays until u takes it and a
      value until u pops it, u takes a token that it has seen, its pop then returns a value, and a yes of
      mpq_is_empty means what it says. */
  ghost predicate Serves(s: State, u: Tid) {
    && (forall w, c :: 0 <= w < |s.threads| && w != u ==> OnlyAdds(s, w, c))
    && (u < |s.threads| ==> s.threads[u] != PopNull && forall c :: TakesToken(s, u, c))
    && (forall w, c :: 0 <= w < |s.threads| ==> YesIsTrue(s, w, c))
  }

  lemma ServesOne(s: State, u: Tid)
    requires Reachable(s) && s.gated
    ensures Serves(s, u)
  {
    forall w, c | 0 <= w < |s.threads| ensures OnlyAdds(s, w, c) { OnlyAddsOk(s, w, c); }
    forall w, c | 0 <= w < |s.threads| ensures YesIsTrue(s, w, c) { YesIsTrueOk(s, w, c); }
    if u < |s.threads| {
      NotNull(s, u);
      forall c ensures TakesToken(s, u, c) { TakesTokenOk(s, u, c); }
    }
  }

  lemma NotNull(s: State, u: Tid)
    requires Reachable(s) && s.gated && u < |s.threads|
    ensures s.threads[u] != PopNull
  {
    ReachableOk(s);
    assert ThreadOk(s, u, s.threads[u]);
  }

  lemma TakesTokenOk(s: State, u: Tid, c: Choice)
    requires u < |s.threads|
    ensures TakesToken(s, u, c)
  {
  }

  lemma OnlyAddsOk(s: State, w: Tid, c: Choice)
    requires w < |s.threads|
    ensures OnlyAdds(s, w, c)
  {
    if !InPop(s.threads[w]) && !StartsPop(c) {
      OthersOnlyAdd(s, w, c);
      KeepsQueued(s.rings, Step(s, w, c).rings);
    }
  }

  lemma YesIsTrueOk(s: State, w: Tid, c: Choice)
    requires Reachable(s) && w < |s.threads|
    ensures YesIsTrue(s, w, c)
  {
    if !s.threads[w].EmptyDone? && Step(s, w, c).threads[w] == EmptyDone(true) && Queued(s.rings) != {} {
      EmptyMeansClaimed(s, w, c);
      var x :| x in Queued(s.rings);
      assert s.rings[x.0].Live(x.1);
      assert PopTicket(s.threads[Claimant(s, (x.0, x.1))]) == Ticket(x.0, x.1);
      assert InPop(s.threads[Claimant(s, (x.0, x.1))]);
    }
  }
}
