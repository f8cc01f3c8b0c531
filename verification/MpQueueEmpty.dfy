/** The answers of mpq_is_empty: it comes to one whatever the others do, and it is right when no other call is at work. */
module MpQueueEmpty {
  import opened MpRing
  import opened MpQueue
  import opened MpQueueSafety
  import opened MpQueueAlone

  // ----- the rings between calls -----

  /** On the way to linking a ring behind ring b. */
  predicate Links(pc: Pc, b: nat) { (pc.PushAlloc? || pc.PushLink?) && pc.b == b }

  /** Has drawn ticket t of ring b and will store a value under it, or draw another one, or close the ring. */
  predicate Busy(pc: Pc, b: nat, t: nat) {
    || ((pc.PushVal? || pc.PushIdx? || pc.PushTest? || pc.PushCas? || pc.PushSize?) && pc.b == b && pc.t == t)
    || ((pc.PushDraw? || pc.PushClose?) && pc.b == b)
  }

  ghost predicate StaysBusy(pc: Pc, pc': Pc, b: nat) {
    forall t: nat :: Busy(pc, b, t) ==> Busy(pc', b, t)
  }

  /** If the thread was busy with a ticket of ring b, there is a value under it now. */
  ghost predicate Settled(pc: Pc, b: nat, r: Ring) {
    forall t: nat :: Busy(pc, b, t) ==> t in r.stored
  }

  /** The last ring: somebody is about to put another one behind it, or its last push ticket is that of a value, or of
      a push at work, or pops have drawn as many. */
  ghost predicate LastOk(s: State)
    requires |s.rings| > 0
  {
    var b := |s.rings| - 1;
    var r := s.rings[b];
    if r.closed then exists u :: 0 <= u < |s.threads| && Links(s.threads[u], b)
    else
      || r.tail <= r.head
      || r.tail - 1 in r.stored
      || exists u :: 0 <= u < |s.threads| && Busy(s.threads[u], b, r.tail - 1)
  }

  /** mpq_fix_state has read a head that was there. */
  ghost predicate FixOk(s: State, pc: Pc) {
    pc.FixRecheck? || pc.FixCas? ==> pc.b < |s.rings| && pc.h <= s.rings[pc.b].head
  }

  ghost predicate Shape(s: State) {
    && |s.rings| > 0 && LastOk(s)
    && (forall b :: s.first < b < |s.rings| ==> s.rings[b].popper == map[])
    && (forall b :: 0 < b < |s.rings| ==> 0 in s.rings[b].stored)
    && (forall u :: 0 <= u < |s.threads| ==> FixOk(s, s.threads[u]))
  }

  /** Thread u moves from pc to pc', and nothing else changes but the head of the list. */
  lemma MoveShape(s: State, s': State, u: Tid, pc': Pc)
    requires Shape(s) && u < |s.threads| && s'.threads == s.threads[u := pc'] && s'.rings == s.rings && s.first <= s'.first
    requires FixOk(s, pc')
    requires Links(s.threads[u], |s.rings| - 1) ==> Links(pc', |s.rings| - 1)
    requires StaysBusy(s.threads[u], pc', |s.rings| - 1)
    ensures Shape(s')
  {
    var b := |s.rings| - 1;
    if s.rings[b].closed {
      var w :| 0 <= w < |s.threads| && Links(s.threads[w], b);
      assert Links(s'.threads[w], b);
    } else if !(s.rings[b].tail <= s.rings[b].head || s.rings[b].tail - 1 in s.rings[b].stored) {
      var w :| 0 <= w < |s.threads| && Busy(s.threads[w], b, s.rings[b].tail - 1);
      assert Busy(s'.threads[w], b, s.rings[b].tail - 1);
    }
  }

  /** Thread u leaves ring b as r; if that is the last ring, what LastOk says of it is given. */
  lemma RingShape(s: State, s': State, u: Tid, b: nat, r: Ring, pc': Pc)
    requires Shape(s) && u < |s.threads| && b < |s.rings| && s' == Goto(WithRing(s, b, r), u, pc')
    requires s.rings[b].head <= r.head && s.rings[b].stored.Keys <= r.stored.Keys
    requires b <= s.first || r.popper == s.rings[b].popper
    requires FixOk(s', pc')
    requires LastOk(s')
    ensures Shape(s')
  {
  }

  /** A ring whose last ticket and closed bit stay as they are. */
  lemma SteadyLast(s: State, s': State, u: Tid, b: nat, r: Ring, pc': Pc)
    requires Shape(s) && u < |s.threads| && b < |s.rings| && s' == Goto(WithRing(s, b, r), u, pc')
    requires r.tail == s.rings[b].tail && r.closed == s.rings[b].closed
    requires s.rings[b].head <= r.head && s.rings[b].stored.Keys <= r.stored.Keys
    requires !Links(s.threads[u], |s.rings| - 1)
    requires Settled(s.threads[u], |s.rings| - 1, s'.rings[|s.rings| - 1])
    ensures LastOk(s')
  {
    var l := |s.rings| - 1;
    if s.rings[l].closed {
      var w :| 0 <= w < |s.threads| && Links(s.threads[w], l);
      assert Links(s'.threads[w], l);
    } else if !(s.rings[l].tail <= s.rings[l].head || s.rings[l].tail - 1 in s.rings[l].stored) {
      var w :| 0 <= w < |s.threads| && Busy(s.threads[w], l, s.rings[l].tail - 1);
      if w != u { assert Busy(s'.threads[w], l, s'.rings[l].tail - 1); }
    }
  }

  lemma PopDrawShape(s: State, u: Tid)
    requires Shape(s) && StateOk(s) && u < |s.threads| && s.threads[u].PopDraw? && ThreadOk(s, u, s.threads[u])
    ensures Ready(s, s.threads[u]) && Shape(PopWrite(s, u))
  {
    var pc := s.threads[u];
    var r', pc' := DrawPop(s.rings[pc.b], u), PopVal(pc.b, pc.again, s.rings[pc.b].head);
    SteadyLast(s, PopWrite(s, u), u, pc.b, r', pc');
    RingShape(s, PopWrite(s, u), u, pc.b, r', pc');
  }

  /** A pop is done with its ticket, or goes on. */
  lemma PopCellShape(s: State, u: Tid, b: nat, r: Ring, pc': Pc)
    requires Shape(s) && u < |s.threads| && b < |s.rings| && (s.threads[u].PopIdx? || s.threads[u].PopCas?)
    requires r == s.rings[b].(cells := r.cells, taken := r.taken, given := r.given)
    requires pc'.PopTail? || pc'.PopDone? || pc'.PopVal? || pc'.PopCas?
    ensures Shape(Goto(WithRing(s, b, r), u, pc'))
  {
    SteadyLast(s, Goto(WithRing(s, b, r), u, pc'), u, b, r, pc');
    RingShape(s, Goto(WithRing(s, b, r), u, pc'), u, b, r, pc');
  }

  lemma PopIdxShape(s: State, u: Tid)
    requires Shape(s) && StateOk(s) && u < |s.threads| && s.threads[u].PopIdx? && ThreadOk(s, u, s.threads[u])
    ensures Ready(s, s.threads[u]) && Shape(PopWrite(s, u))
  {
    var pc := s.threads[u];
    assert RingOk(s.rings[pc.b]);
    if s.rings[pc.b].At(pc.h).idx > pc.h { PopCellShape(s, u, pc.b, Skip(s.rings[pc.b], pc.h), PopTail(pc.b, pc.again, pc.h)); }
    else { MoveShape(s, PopWrite(s, u), u, PopWrite(s, u).threads[u]); }
  }

  lemma PopCasShape(s: State, u: Tid)
    requires Shape(s) && StateOk(s) && u < |s.threads| && s.threads[u].PopCas? && ThreadOk(s, u, s.threads[u])
    ensures Ready(s, s.threads[u]) && Shape(PopWrite(s, u))
  {
    var pc := s.threads[u];
    var r, tail := s.rings[pc.b], PopTail(pc.b, pc.again, pc.h);
    assert RingOk(r);
    if r.At(pc.h) != pc.seen { MoveShape(s, PopWrite(s, u), u, PopVal(pc.b, pc.again, pc.h)); }
    else if pc.seen.content.Empty? { PopCellShape(s, u, pc.b, Bump(r, pc.h), tail); }
    else if pc.seen.idx != pc.h { PopCellShape(s, u, pc.b, Unsafe(r, pc.h), tail); }
    else { PopCellShape(s, u, pc.b, Take(r, pc.h), PopDone(pc.seen.content.v)); }
  }

  lemma FixCasShape(s: State, u: Tid)
    requires Shape(s) && StateOk(s) && u < |s.threads| && s.threads[u].FixCas? && ThreadOk(s, u, s.threads[u])
    ensures Ready(s, s.threads[u]) && Shape(PopWrite(s, u))
  {
    var pc := s.threads[u];
    var r, s' := s.rings[pc.b], PopWrite(s, u);
    assert FixOk(s, pc);
    if !r.closed && r.tail == pc.t {
      assert pc.b == |s.rings| - 1;
      RingShape(s, s', u, pc.b, AdvanceTail(r, pc.h), FixDone(pc.b, pc.again));
    } else {
      MoveShape(s, s', u, FixTail(pc.b, pc.again));
    }
  }

  lemma PopWriteShape(s: State, u: Tid)
    requires Shape(s) && StateOk(s) && u < |s.threads| && IsPopWrite(s.threads[u]) && ThreadOk(s, u, s.threads[u])
    ensures Ready(s, s.threads[u]) && Shape(PopWrite(s, u))
  {
    match s.threads[u]
    case PopDraw(_, _) => PopDrawShape(s, u);
    case PopIdx(_, _, _, _) => PopIdxShape(s, u);
    case PopCas(_, _, _, _) => PopCasShape(s, u);
    case FixCas(_, _, _, _) => FixCasShape(s, u);
    case PopUnlink(b) => MoveShape(s, PopWrite(s, u), u, PopHead);
    case EmptyUnlink(b) => MoveShape(s, PopWrite(s, u), u, EmptyHead);
  }

  lemma PushDrawShape(s: State, u: Tid)
    requires Shape(s) && StateOk(s) && u < |s.threads| && s.threads[u].PushDraw? && ThreadOk(s, u, s.threads[u])
    ensures Ready(s, s.threads[u]) && Shape(PushWrite(s, u))
  {
    var pc := s.threads[u];
    var s' := PushWrite(s, u);
    var r' := DrawPush(s.rings[pc.b], u);
    if pc.b == |s.rings| - 1 {
      assert if r'.closed then Links(s'.threads[u], pc.b) else Busy(s'.threads[u], pc.b, r'.tail - 1);
    } else {
      OtherLast(s, s', u, pc.b, r', s'.threads[u]);
    }
    RingShape(s, s', u, pc.b, r', s'.threads[u]);
  }

  /** A step on a ring that is not the last one. */
  lemma OtherLast(s: State, s': State, u: Tid, b: nat, r: Ring, pc': Pc)
    requires Shape(s) && u < |s.threads| && b < |s.rings| - 1 && s' == Goto(WithRing(s, b, r), u, pc')
    requires (s.threads[u].PushDraw? || s.threads[u].PushClose? || s.threads[u].PushCas?) && s.threads[u].b == b
    ensures LastOk(s')
  {
    var l := |s.rings| - 1;
    if s.rings[l].closed {
      var w :| 0 <= w < |s.threads| && Links(s.threads[w], l);
      assert Links(s'.threads[w], l);
    } else if !(s.rings[l].tail <= s.rings[l].head || s.rings[l].tail - 1 in s.rings[l].stored) {
      var w :| 0 <= w < |s.threads| && Busy(s.threads[w], l, s.rings[l].tail - 1);
      assert Busy(s'.threads[w], l, s'.rings[l].tail - 1);
    }
  }

  lemma PushCloseShape(s: State, u: Tid)
    requires Shape(s) && StateOk(s) && u < |s.threads| && s.threads[u].PushClose? && ThreadOk(s, u, s.threads[u])
    ensures Ready(s, s.threads[u]) && Shape(PushWrite(s, u))
  {
    var pc := s.threads[u];
    var s' := PushWrite(s, u);
    if pc.b == |s.rings| - 1 { assert Links(s'.threads[u], pc.b); }
    else { OtherLast(s, s', u, pc.b, Close(s.rings[pc.b]), PushAlloc(pc.v, pc.b)); }
    RingShape(s, s', u, pc.b, Close(s.rings[pc.b]), PushAlloc(pc.v, pc.b));
  }

  lemma PushCasShape(s: State, u: Tid)
    requires Shape(s) && StateOk(s) && u < |s.threads| && s.threads[u].PushCas? && ThreadOk(s, u, s.threads[u])
    ensures Ready(s, s.threads[u]) && Shape(PushWrite(s, u))
  {
    var pc := s.threads[u];
    var r, s' := s.rings[pc.b], PushWrite(s, u);
    if r.At(pc.t) == Cell(pc.safe, pc.idx, Empty) {
      SteadyLast(s, s', u, pc.b, Store(r, pc.t, pc.v), PushPost);
      RingShape(s, s', u, pc.b, Store(r, pc.t, pc.v), PushPost);
    } else {
      MoveShape(s, s', u, PushSize(pc.v, pc.b, pc.n, pc.t));
    }
  }

  lemma LinkShape(s: State, s': State, size: nat, v: Value, u: Tid, pc': Pc)
    requires Shape(s) && StateOk(s) && u < |s.threads| && size > 0 && pc'.PushSwing?
    requires s'.rings == s.rings + [NewRing(size, Full(v), u)] && s'.threads == s.threads[u := pc'] && s'.first == s.first
    ensures Shape(s')
  {
    var r := NewRing(size, Full(v), u);
    assert r.tail == 1 && 0 in r.stored && !r.closed && r.popper == map[];
    assert s'.rings[|s'.rings| - 1] == r;
    forall w | 0 <= w < |s'.threads| ensures FixOk(s', s'.threads[w]) {
      if w != u { assert FixOk(s, s.threads[w]); }
    }
  }

  lemma PushLinkShape(s: State, u: Tid)
    requires Shape(s) && StateOk(s) && u < |s.threads| && s.threads[u].PushLink? && ThreadOk(s, u, s.threads[u])
    ensures Ready(s, s.threads[u]) && Shape(PushWrite(s, u))
  {
    var pc := s.threads[u];
    if pc.b + 1 == |s.rings| { LinkShape(s, PushWrite(s, u), pc.size, pc.v, u, PushSwing(pc.b)); }
    else { MoveShape(s, PushWrite(s, u), u, PushTail(pc.v)); }
  }

  lemma PushWriteShape(s: State, u: Tid)
    requires Shape(s) && StateOk(s) && u < |s.threads| && IsPushWrite(s.threads[u]) && ThreadOk(s, u, s.threads[u])
    ensures Ready(s, s.threads[u]) && Shape(PushWrite(s, u))
  {
    match s.threads[u]
    case PushDraw(_, _, _) => PushDrawShape(s, u);
    case PushCas(_, _, _, _, _, _) => PushCasShape(s, u);
    case PushClose(_, _) => PushCloseShape(s, u);
    case PushLink(_, _, _) => PushLinkShape(s, u);
    case PushHelp(v, b) => MoveShape(s, PushWrite(s, u), u, PushTail(v));
    case PushSwing(b) => MoveShape(s, PushWrite(s, u), u, PushPost);
    case PushPost => MoveShape(s, PushWrite(s, u), u, Idle);
  }

  lemma PushReadStays(s: State, pc: Pc, b: nat)
    requires IsPushRead(pc) && Ready(s, pc)
    ensures StaysBusy(pc, PushRead(s, pc), b) && (Links(pc, b) ==> Links(PushRead(s, pc), b)) && FixOk(s, PushRead(s, pc))
  {
  }

  lemma PushReadShape(s: State, u: Tid)
    requires Shape(s) && u < |s.threads| && IsPushRead(s.threads[u]) && Ready(s, s.threads[u])
    ensures Shape(Goto(s, u, PushRead(s, s.threads[u])))
  {
    PushReadStays(s, s.threads[u], |s.rings| - 1);
    MoveShape(s, Goto(s, u, PushRead(s, s.threads[u])), u, PushRead(s, s.threads[u]));
  }

  lemma FixReadShape(s: State, u: Tid)
    requires Shape(s) && StateOk(s) && u < |s.threads| && IsFixRead(s.threads[u]) && Ready(s, s.threads[u])
    ensures Shape(Goto(s, u, FixRead(s, s.threads[u])))
  {
    assert FixOk(s, s.threads[u]);
    MoveShape(s, Goto(s, u, FixRead(s, s.threads[u])), u, FixRead(s, s.threads[u]));
  }

  lemma PopReadStays(s: State, pc: Pc, b: nat)
    requires IsPopRead(pc) && Ready(s, pc)
    ensures StaysBusy(pc, PopRead(s, pc), b) && !Links(pc, b) && FixOk(s, PopRead(s, pc))
  {
  }

  lemma PopReadShape(s: State, u: Tid)
    requires Shape(s) && u < |s.threads| && IsPopRead(s.threads[u]) && Ready(s, s.threads[u])
    ensures Shape(Goto(s, u, PopRead(s, s.threads[u])))
  {
    PopReadStays(s, s.threads[u], |s.rings| - 1);
    MoveShape(s, Goto(s, u, PopRead(s, s.threads[u])), u, PopRead(s, s.threads[u]));
  }

  lemma EmptyReadShape(s: State, u: Tid)
    requires Shape(s) && StateOk(s) && u < |s.threads| && IsEmptyRead(s.threads[u]) && Ready(s, s.threads[u])
    ensures Shape(Goto(s, u, EmptyRead(s, s.threads[u])))
  {
    MoveShape(s, Goto(s, u, EmptyRead(s, s.threads[u])), u, EmptyRead(s, s.threads[u]));
  }

  lemma SemShape(s: State, u: Tid, c: Choice)
    requires Shape(s) && StateOk(s) && u < |s.threads| && IsSem(s.threads[u])
    ensures Shape(SemStep(s, u, c))
  {
    MoveShape(s, SemStep(s, u, c), u, SemStep(s, u, c).threads[u]);
  }

  lemma StepShape(s: State, u: Tid, c: Choice)
    requires Shape(s) && Inv(s) && u < |s.threads|
    ensures Shape(Step(s, u, c))
  {
    ReadyOk(s, u);
    var pc := s.threads[u];
    assert ThreadOk(s, u, pc);
    if IsFixRead(pc) { FixReadShape(s, u); }
    else if IsPopRead(pc) { PopReadShape(s, u); }
    else if IsPushRead(pc) { PushReadShape(s, u); }
    else if IsEmptyRead(pc) { EmptyReadShape(s, u); }
    else if IsPopWrite(pc) { PopWriteShape(s, u); }
    else if IsPushWrite(pc) { PushWriteShape(s, u); }
    else { SemShape(s, u, c); }
  }

  lemma {:induction false} RunShape(s: State, sched: seq<(Tid, Choice)>)
    requires Shape(s) && Inv(s)
    ensures Shape(Run(s, sched))
    decreases sched
  {
    if sched != [] {
      var (u, c) := sched[0];
      if u < |s.threads| {
        StepShape(s, u, c);
        StepOk(s, u, c);
        RunShape(Step(s, u, c), sched[1..]);
      } else {
        RunShape(s, sched[1..]);
      }
    }
  }

  lemma ReachableShape(s: State)
    requires Reachable(s)
    ensures Shape(s)
  {
    var gated, n: nat, sched: seq<(Tid, Choice)> :| s == Run(Init(gated, n), sched);
    InitOk(gated, n);
    RunShape(Init(gated, n), sched);
  }

  // ----- mpq_is_empty alone -----

  predicate InEmpty(pc: Pc) { (IsEmptyRead(pc) && !pc.EmptyDone?) || pc.EmptyUnlink? }

  /** What is left of the call: the rings from the one it looks at, and the steps for this one. */
  function EmptyRings(s: State, pc: Pc): int
    requires InEmpty(pc)
  {
    if pc.EmptyHead? || pc.EmptyCheck? then |s.rings| - s.first else |s.rings| - pc.b
  }

  function EmptySteps(s: State, pc: Pc): nat
    requires InEmpty(pc)
  {
    match pc
    case EmptyHead => 5
    case EmptyCheck(b) => if b == s.first then 4 else 6
    case EmptyReadHead(_) => 3
    case EmptyReadTail(_, _) => 2
    case EmptyNext(_) => 1
    case EmptyUnlink(_) => 0
  }

  predicate EmptyNearer(s: State, pc: Pc, s': State, pc': Pc)
    requires InEmpty(pc)
  {
    || pc'.EmptyDone?
    || (InEmpty(pc') && (EmptyRings(s', pc') < EmptyRings(s, pc)
          || (EmptyRings(s', pc') == EmptyRings(s, pc) && EmptySteps(s', pc') < EmptySteps(s, pc))))
  }

  lemma EmptyReadNearer(s: State, u: Tid, pc: Pc)
    requires StateOk(s) && IsEmptyRead(pc) && !pc.EmptyDone? && ThreadOk(s, u, pc)
    ensures EmptyNearer(s, pc, s, EmptyRead(s, pc)) && EmptyRings(s, pc) >= 0
  {
  }

  /** The step leaves the rings and the other threads alone. */
  predicate OnlyMoves(s: State, s': State, u: Tid)
    requires u < |s.threads|
  {
    |s'.threads| == |s.threads| && s'.threads == s.threads[u := s'.threads[u]] && s'.rings == s.rings
  }

  lemma EmptyStep(s: State, u: Tid)
    requires Inv(s) && u < |s.threads| && InEmpty(s.threads[u])
    ensures OnlyMoves(s, Step(s, u, GoOn), u) && EmptyRings(s, s.threads[u]) >= 0
    ensures EmptyNearer(s, s.threads[u], Step(s, u, GoOn), Step(s, u, GoOn).threads[u])
  {
    ReadyOk(s, u);
    var pc := s.threads[u];
    assert ThreadOk(s, u, pc);
    if IsEmptyRead(pc) { EmptyReadNearer(s, u, pc); } else { assert Step(s, u, GoOn) == Goto(Unlink(s, pc.b), u, EmptyHead); }
  }

  /** The call has looked at nothing, or at what is still so. */
  predicate Fresh(s: State, pc: Pc)
    requires s.first < |s.rings|
  {
    match pc
    case EmptyCheck(b) => b == s.first
    case EmptyReadHead(b) => b == s.first
    case EmptyReadTail(b, h) => b == s.first && h == s.rings[b].head
    case EmptyNext(b) => b == s.first
    case EmptyUnlink(b) => b == s.first
    case _ => true
  }

  lemma FreshRead(s: State, u: Tid, pc: Pc)
    requires StateOk(s) && IsEmptyRead(pc) && ThreadOk(s, u, pc) && Fresh(s, pc)
    ensures Fresh(s, EmptyRead(s, pc))
  {
  }

  lemma FreshStep(s: State, u: Tid)
    requires StateOk(s) && u < |s.threads| && InEmpty(s.threads[u]) && ThreadOk(s, u, s.threads[u]) && Fresh(s, s.threads[u])
    requires Ready(s, s.threads[u])
    ensures StateOk(Step(s, u, GoOn)) ==> Fresh(Step(s, u, GoOn), Step(s, u, GoOn).threads[u])
  {
    var pc := s.threads[u];
    if IsEmptyRead(pc) {
      FreshRead(s, u, pc);
      assert Step(s, u, GoOn) == Goto(s, u, EmptyRead(s, pc));
    }
  }

  predicate OthersIdle(s: State, u: Tid) {
    forall w :: 0 <= w < |s.threads| && w != u ==> s.threads[w].Idle?
  }

  /** No other call is at work, and this one has looked at nothing else than what is there. */
  ghost predicate Quietly(s: State, u: Tid) {
    Inv(s) && Shape(s) && u < |s.threads| && InEmpty(s.threads[u]) && Fresh(s, s.threads[u]) && OthersIdle(s, u)
  }

  /** A no means that there is a value: in the ring after a closed one, or under the last ticket. */
  lemma NextHasOne(s: State, b: nat)
    requires StateOk(s) && Shape(s) && b == s.first && b + 1 < |s.rings|
    ensures (b + 1, 0) in Queued(s.rings)
  {
    var next := s.rings[b + 1];
    assert RingOk(next) && next.popper == map[] && 0 !in next.popper;
    assert next.Live(0);
  }

  lemma LastHasOne(s: State, b: nat)
    requires StateOk(s) && Shape(s) && b + 1 == |s.rings| && !s.rings[b].closed && s.rings[b].tail > s.rings[b].head
    requires forall w :: 0 <= w < |s.threads| ==> !Busy(s.threads[w], b, s.rings[b].tail - 1)
    ensures (b, s.rings[b].tail - 1) in Queued(s.rings)
  {
    assert RingOk(s.rings[b]);
    assert s.rings[b].Live(s.rings[b].tail - 1);
  }

  lemma NoIsRight(s: State, u: Tid)
    requires Quietly(s, u) && Step(s, u, GoOn).threads[u] == EmptyDone(false)
    ensures Queued(s.rings) != {}
  {
    ReadyOk(s, u);
    NoIsRead(s, u);
    var b := s.threads[u].b;
    if b + 1 < |s.rings| { NextHasOne(s, b); } else { LastHasOne(s, b); }
  }

  lemma NoIsRead(s: State, u: Tid)
    requires Quietly(s, u) && Step(s, u, GoOn).threads[u] == EmptyDone(false) && Ready(s, s.threads[u])
    ensures var pc := s.threads[u];
            && pc.EmptyReadTail? && s.rings[pc.b].tail > s.rings[pc.b].head
            && (pc.b + 1 == |s.rings| ==> !s.rings[pc.b].closed)
  {
    NoFromTail(s, u);
    if s.threads[u].b + 1 == |s.rings| { NoLinker(s, s.threads[u].b); }
  }

  lemma NoFromTail(s: State, u: Tid)
    requires u < |s.threads| && InEmpty(s.threads[u]) && Ready(s, s.threads[u]) && Step(s, u, GoOn).threads[u] == EmptyDone(false)
    ensures s.threads[u].EmptyReadTail? && s.rings[s.threads[u].b].tail > s.threads[u].h
  {
  }

  lemma NoLinker(s: State, b: nat)
    requires Shape(s) && b + 1 == |s.rings| && forall w :: 0 <= w < |s.threads| ==> !Links(s.threads[w], b)
    ensures !s.rings[b].closed
  {
  }

  /** A yes means that there is none. */
  lemma YesIsRight(s: State, u: Tid)
    requires Inv(s) && u < |s.threads| && InEmpty(s.threads[u]) && OthersIdle(s, u)
    requires Step(s, u, GoOn).threads[u] == EmptyDone(true)
    ensures Queued(s.rings) == {}
  {
    YesMeansClaimed(s, u);
    if Queued(s.rings) != {} { SomeoneHolds(s); }
  }

  lemma SomeoneHolds(s: State)
    requires AllClaimed(s) && Queued(s.rings) != {}
    ensures exists w :: 0 <= w < |s.threads| && PopTicket(s.threads[w]) != NoTicket
  {
    var x :| x in Queued(s.rings);
    assert s.rings[x.0].Live(x.1);
    assert PopTicket(s.threads[Claimant(s, (x.0, x.1))]) == Ticket(x.0, x.1);
  }

  lemma YesMeansClaimed(s: State, u: Tid)
    requires Inv(s) && u < |s.threads| && InEmpty(s.threads[u]) && Step(s, u, GoOn).threads[u] == EmptyDone(true)
    ensures AllClaimed(s)
  {
    EmptyDoneIsRead(s, u, GoOn);
    assert ThreadOk(s, u, s.threads[u]);
    assert RingOk(s.rings[s.threads[u].b]);
    ObservedClaims(s, s.threads[u].b);
  }

  /** One step of a call that is alone: on, or to the right answer. */
  lemma QuietStep(s: State, u: Tid)
    requires Quietly(s, u)
    ensures var s1 := Step(s, u, GoOn);
            if s1.threads[u].EmptyDone? then s1.threads[u].empty <==> Queued(s.rings) == {}
            else Quietly(s1, u) && s1.rings == s.rings
  {
    var s1 := Step(s, u, GoOn);
    EmptyStep(s, u);
    if s1.threads[u].EmptyDone? {
      if s1.threads[u].empty { YesIsRight(s, u); } else { NoIsRight(s, u); }
    } else {
      assert ThreadOk(s, u, s.threads[u]);
      ReadyOk(s, u);
      StepOk(s, u, GoOn);
      FreshStep(s, u);
      StepShape(s, u, GoOn);
    }
  }

  lemma {:induction false} EmptyEnds(s: State, u: Tid) returns (k: nat)
    requires Inv(s) && u < |s.threads| && InEmpty(s.threads[u])
    ensures After(s, u, GoOn, k).threads[u].EmptyDone?
    ensures Quietly(s, u) ==> After(s, u, GoOn, k).threads[u] == EmptyDone(Queued(s.rings) == {})
    decreases EmptyRings(s, s.threads[u]), EmptySteps(s, s.threads[u])
  {
    var s1 := Step(s, u, GoOn);
    EmptyStep(s, u);
    StepOk(s, u, GoOn);
    if Quietly(s, u) { QuietStep(s, u); }
    if s1.threads[u].EmptyDone? { k := 0; } else { k := EmptyEnds(s1, u); }
    assert After(s, u, GoOn, k + 1) == After(s1, u, GoOn, k);
    k := k + 1;
  }

  /** mpq_is_empty comes to an answer when it runs alone, wherever the others have stopped. */
  lemma EmptyAlone(s: State, u: Tid) returns (k: nat)
    requires Reachable(s) && u < |s.threads| && InEmpty(s.threads[u])
    ensures |Run(s, Times(u, GoOn, k)).threads| == |s.threads| && Run(s, Times(u, GoOn, k)).threads[u].EmptyDone?
  {
    ReachableOk(s);
    k := EmptyEnds(s, u);
    AfterIsRun(s, u, GoOn, k);
  }

  /** And when no other call is at work, the answer is whether a value is in the queue. */
  lemma EmptyIsRight(s: State, u: Tid) returns (k: nat)
    requires Reachable(s) && u < |s.threads| && s.threads[u] == EmptyHead && OthersIdle(s, u)
    ensures |Run(s, Times(u, GoOn, k)).threads| == |s.threads|
    ensures Run(s, Times(u, GoOn, k)).threads[u] == EmptyDone(Queued(s.rings) == {})
  {
    ReachableOk(s);
    ReachableShape(s);
    k := EmptyEnds(s, u);
    AfterIsRun(s, u, GoOn, k);
  }
}
