/** No call of the queue waits for another one: wherever the other threads have stopped, in whatever reachable state, a
    call that runs on alone comes to its end. */
module MpQueueAlone {
  import opened MpRing
  import opened MpQueue
  import opened MpQueueSafety

  /** Thread u makes k steps, and nobody else any; c says whether a call without a token goes on trying. */
  function After(s: State, u: Tid, c: Choice, k: nat): (s': State)
    requires u < |s.threads|
    ensures |s'.threads| == |s.threads| && s'.gated == s.gated
    decreases k
  {
    if k == 0 then s else After(Step(s, u, c), u, c, k - 1)
  }

  function Times(u: Tid, c: Choice, k: nat): seq<(Tid, Choice)> {
    if k == 0 then [] else [(u, c)] + Times(u, c, k - 1)
  }

  /** Such steps are a run. */
  lemma {:induction false} AfterIsRun(s: State, u: Tid, c: Choice, k: nat)
    requires u < |s.threads|
    ensures After(s, u, c, k) == Run(s, Times(u, c, k))
    decreases k
  {
    if k > 0 {
      assert Times(u, c, k)[0] == (u, c) && Times(u, c, k)[1..] == Times(u, c, k - 1);
      AfterIsRun(Step(s, u, c), u, c, k - 1);
    }
  }

  // ----- mpq_push -----

  predicate InPush(pc: Pc) {
    pc.PushTail? || pc.PushCheck? || pc.PushNext? || pc.PushHelp? || pc.PushDraw? || pc.PushVal? || pc.PushIdx?
    || pc.PushTest? || pc.PushCas? || pc.PushSize? || pc.PushClose? || pc.PushAlloc? || pc.PushLink? || pc.PushSwing?
    || pc.PushPost?
  }

  /** Steps to the end of a push that starts over: a few for each ring the list tail lags behind, and those in the last
      ring. */
  function FromTail(s: State): int
    requires s.last < |s.rings|
  {
    4 * (|s.rings| - 1 - s.last) + 14 + 6 * MAX_ITERATIONS
  }

  function FromLink(s: State, b: nat): int
    requires s.last < |s.rings|
  {
    if b + 1 == |s.rings| then 3 else 1 + FromTail(s)
  }

  function FromDraw(s: State, b: nat, n: nat): int
    requires s.last < |s.rings|
  {
    8 + 6 * (if n < MAX_ITERATIONS then MAX_ITERATIONS - n else 0) + FromLink(s, b)
  }

  /** At most so many steps remain of a push at pc. */
  function PushLeft(s: State, pc: Pc): int
    requires s.last < |s.rings| && InPush(pc)
  {
    match pc
    case PushTail(_) => FromTail(s)
    case PushCheck(_, b) => if b == s.last then FromTail(s) - 1 else FromTail(s) + 1
    case PushNext(_, b) =>
      if b + 1 < |s.rings| then (if b == s.last then FromTail(s) - 2 else FromTail(s) + 2) else 1 + FromDraw(s, b, 0)
    case PushHelp(_, b) => if b == s.last then FromTail(s) - 3 else FromTail(s) + 1
    case PushDraw(_, b, n) => FromDraw(s, b, n)
    case PushVal(_, b, n, _) => FromDraw(s, b, n) - 1
    case PushIdx(_, b, n, _, _) => FromDraw(s, b, n) - 2
    case PushTest(_, b, n, _, _) => FromDraw(s, b, n) - 3
    case PushCas(_, b, n, _, _, _) => FromDraw(s, b, n) - 4
    case PushSize(_, b, n, _) => FromDraw(s, b, n) - 5
    case PushClose(_, b) => 2 + FromLink(s, b)
    case PushAlloc(_, b) => 1 + FromLink(s, b)
    case PushLink(_, b, _) => FromLink(s, b)
    case PushSwing(_) => 2
    case PushPost => 1
  }

  ghost predicate PushNearer(s: State, s': State, u: Tid)
    requires u < |s.threads| && InPush(s.threads[u]) && s.last < |s.rings|
  {
    u < |s'.threads| && s'.last < |s'.rings| &&
    if s.threads[u].PushPost? then s'.threads[u].Idle? && s'.value == s.value + 1
    else InPush(s'.threads[u]) && s'.value == s.value && 0 <= PushLeft(s', s'.threads[u]) < PushLeft(s, s.threads[u])
  }

  lemma PushReadNearer(s: State, u: Tid)
    requires StateOk(s) && u < |s.threads| && IsPushRead(s.threads[u]) && Ready(s, s.threads[u])
    ensures PushNearer(s, Goto(s, u, PushRead(s, s.threads[u])), u)
  {
  }

  lemma PushWriteNearer(s: State, u: Tid)
    requires StateOk(s) && u < |s.threads| && IsPushWrite(s.threads[u]) && Ready(s, s.threads[u]) && ThreadOk(s, u, s.threads[u])
    ensures PushNearer(s, PushWrite(s, u), u)
  {
    var pc := s.threads[u];
    if pc.PushDraw? || pc.PushCas? || pc.PushClose? { PushRingNearer(s, u); } else { PushListNearer(s, u); }
  }

  lemma PushRingNearer(s: State, u: Tid)
    requires StateOk(s) && u < |s.threads| && Ready(s, s.threads[u])
    requires s.threads[u].PushDraw? || s.threads[u].PushCas? || s.threads[u].PushClose?
    ensures PushNearer(s, PushWrite(s, u), u)
  {
  }

  lemma PushListNearer(s: State, u: Tid)
    requires StateOk(s) && u < |s.threads| && Ready(s, s.threads[u]) && ThreadOk(s, u, s.threads[u])
    requires s.threads[u].PushHelp? || s.threads[u].PushLink? || s.threads[u].PushSwing? || s.threads[u].PushPost?
    ensures PushNearer(s, PushWrite(s, u), u)
  {
  }

  lemma PushStep(s: State, u: Tid, c: Choice)
    requires StateOk(s) && u < |s.threads| && InPush(s.threads[u]) && ThreadOk(s, u, s.threads[u]) && Ready(s, s.threads[u])
    ensures PushNearer(s, Step(s, u, c), u)
  {
    if IsPushRead(s.threads[u]) { PushReadNearer(s, u); } else { PushWriteNearer(s, u); }
  }

  lemma {:induction false} PushEnds(s: State, u: Tid, c: Choice) returns (k: nat)
    requires Inv(s) && u < |s.threads| && InPush(s.threads[u])
    ensures After(s, u, c, k).threads[u] == Idle && After(s, u, c, k).value == s.value + 1
    decreases PushLeft(s, s.threads[u])
  {
    var s1 := Step(s, u, c);
    ReadyOk(s, u);
    assert ThreadOk(s, u, s.threads[u]);
    PushStep(s, u, c);
    StepOk(s, u, c);
    if s.threads[u].PushPost? {
      k := 1;
      assert After(s, u, c, 1) == After(s1, u, c, 0);
    } else {
      k := PushEnds(s1, u, c);
      k := k + 1;
    }
  }

  /** A push that runs alone, from wherever it and the others have got to, returns, and has posted one token. */
  lemma PushAlone(s: State, u: Tid, c: Choice) returns (k: nat)
    requires Reachable(s) && u < |s.threads| && InPush(s.threads[u])
    ensures |Run(s, Times(u, c, k)).threads| == |s.threads|
    ensures Run(s, Times(u, c, k)).threads[u] == Idle && Run(s, Times(u, c, k)).value == s.value + 1
  {
    ReachableOk(s);
    k := PushEnds(s, u, c);
    AfterIsRun(s, u, c, k);
  }

  // ----- mpq_pop -----

  predicate OnRing(pc: Pc) {
    pc.PopDraw? || pc.PopVal? || pc.PopIdx? || pc.PopCas? || pc.PopTail? || IsFixRead(pc) || pc.FixCas?
  }

  /** What is left of a pop, most significant first: the rings from the one at work on, the calls of mpq_block_pop for
      it, the tickets still to draw in it, and the steps for one ticket. */
  datatype Rank = Rank(rings: int, calls: int, draws: int, steps: int)

  predicate Below(r: Rank, r': Rank) {
    || r.rings < r'.rings
    || (r.rings == r'.rings && r.calls < r'.calls)
    || (r.rings == r'.rings && r.calls == r'.calls && r.draws < r'.draws)
    || (r.rings == r'.rings && r.calls == r'.calls && r.draws == r'.draws && r.steps < r'.steps)
  }

  /** The tickets between head and tail, and one more. */
  function Draws(r: Ring): int {
    2 * (1 + if r.tail > r.head then r.tail - r.head else 0)
  }

  function DrawsAt(r: Ring, h: nat): int {
    if r.tail > h + 1 then Draws(r) + 1 else 1
  }

  predicate Stale(r: Ring, t: nat) { r.closed || r.tail != t }

  function RingRank(r: Ring, pc: Pc): Rank
    requires OnRing(pc) && |r.cells| > 0
  {
    var calls := if pc.again then 2 else 4;
    match pc
    case PopDraw(_, _) => Rank(0, calls, Draws(r), 0)
    case PopVal(_, _, h) => Rank(0, calls, DrawsAt(r, h), 4)
    case PopIdx(_, _, h, content) => Rank(0, calls, DrawsAt(r, h), if content == r.At(h).content then 3 else 6)
    case PopCas(_, _, h, seen) => Rank(0, calls, DrawsAt(r, h), if seen == r.At(h) then 2 else 5)
    case PopTail(_, _, h) => Rank(0, calls, DrawsAt(r, h), 1)
    case FixTail(_, _) => Rank(0, calls, 0, 5)
    case FixHead(_, _, t, wasClosed) => Rank(0, calls, 0, if !wasClosed && Stale(r, t) then 7 else 4)
    case FixRecheck(_, _, t, _) => Rank(0, calls, 0, if Stale(r, t) then 6 else 3)
    case FixCas(_, _, t, _) => Rank(0, calls, 0, if Stale(r, t) then 6 else 2)
  }

  /** The ring that a pop works on is there. */
  predicate RingThere(s: State, pc: Pc) {
    s.first < |s.rings| && (OnRing(pc) ==> pc.b < |s.rings| && |s.rings[pc.b].cells| > 0)
  }

  function PopLeft(s: State, pc: Pc): Rank
    requires Holds(pc) && RingThere(s, pc)
  {
    if OnRing(pc) then RingRank(s.rings[pc.b], pc).(rings := |s.rings| - pc.b)
    else
      match pc
      case PopHead => Rank(|s.rings| - s.first, 6, 0, 0)
      case PopCheck(b) => Rank(|s.rings| - s.first, if b == s.first then 5 else 7, 0, 0)
      case PopNext(b) => Rank(|s.rings| - b, 3, 0, 0)
      case PopUnlink(b) => Rank(|s.rings| - b, 1, 0, 0)
      case PopNull => Rank(0, 0, 0, 0)
  }

  predicate PopNearer(s: State, pc: Pc, s': State, pc': Pc)
    requires Holds(pc) && RingThere(s, pc)
  {
    || pc'.PopDone? || pc'.PopNull?
    || (Holds(pc') && RingThere(s', pc') && Below(PopLeft(s', pc'), PopLeft(s, pc)))
  }

  lemma FixReadNearer(s: State, u: Tid, pc: Pc)
    requires StateOk(s) && IsFixRead(pc) && ThreadOk(s, u, pc)
    ensures PopNearer(s, pc, s, FixRead(s, pc))
  {
    assert RingOk(s.rings[pc.b]);
  }

  lemma PopReadNearer(s: State, u: Tid, pc: Pc)
    requires StateOk(s) && IsPopRead(pc) && !pc.PopDone? && !pc.PopNull? && ThreadOk(s, u, pc)
    ensures PopNearer(s, pc, s, PopRead(s, pc))
  {
    if OnRing(pc) { assert RingOk(s.rings[pc.b]); }
    else { assert RingOk(s.rings[s.first]); }
    if pc.PopNext? && pc.b + 1 < |s.rings| { assert RingOk(s.rings[pc.b]); }
  }

  /** A step that leaves ring b as r. */
  lemma RingNearer(s: State, s': State, pc: Pc, r: Ring, pc': Pc)
    requires OnRing(pc) && RingThere(s, pc) && OnRing(pc') && pc'.b == pc.b && |r.cells| > 0
    requires s'.rings == s.rings[pc.b := r] && s'.first == s.first
    requires Below(RingRank(r, pc'), RingRank(s.rings[pc.b], pc))
    ensures PopNearer(s, pc, s', pc')
  {
  }

  lemma PopDrawNearer(s: State, u: Tid)
    requires StateOk(s) && u < |s.threads| && s.threads[u].PopDraw? && ThreadOk(s, u, s.threads[u])
    ensures Ready(s, s.threads[u]) && PopNearer(s, s.threads[u], PopWrite(s, u), PopWrite(s, u).threads[u])
  {
    var pc := s.threads[u];
    assert RingOk(s.rings[pc.b]);
    RingNearer(s, PopWrite(s, u), pc, DrawPop(s.rings[pc.b], u), PopVal(pc.b, pc.again, s.rings[pc.b].head));
  }

  lemma PopIdxNearer(s: State, u: Tid)
    requires StateOk(s) && u < |s.threads| && s.threads[u].PopIdx? && ThreadOk(s, u, s.threads[u])
    ensures Ready(s, s.threads[u]) && PopNearer(s, s.threads[u], PopWrite(s, u), PopWrite(s, u).threads[u])
  {
    var pc := s.threads[u];
    var r := s.rings[pc.b];
    assert RingOk(r);
    var c := r.At(pc.h);
    if c.idx > pc.h { RingNearer(s, PopWrite(s, u), pc, Skip(r, pc.h), PopTail(pc.b, pc.again, pc.h)); }
    else { RingNearer(s, PopWrite(s, u), pc, r, PopCas(pc.b, pc.again, pc.h, Cell(c.safe, c.idx, pc.content))); }
  }

  lemma PopCasNearer(s: State, u: Tid)
    requires StateOk(s) && u < |s.threads| && s.threads[u].PopCas? && ThreadOk(s, u, s.threads[u])
    ensures Ready(s, s.threads[u]) && PopNearer(s, s.threads[u], PopWrite(s, u), PopWrite(s, u).threads[u])
  {
    var pc := s.threads[u];
    var r, s', tail := s.rings[pc.b], PopWrite(s, u), PopTail(pc.b, pc.again, pc.h);
    assert RingOk(r);
    if r.At(pc.h) != pc.seen { RingNearer(s, s', pc, r, PopVal(pc.b, pc.again, pc.h)); }
    else if pc.seen.content.Empty? { RingNearer(s, s', pc, Bump(r, pc.h), tail); }
    else if pc.seen.idx != pc.h { RingNearer(s, s', pc, Unsafe(r, pc.h), tail); }
  }

  lemma FixCasNearer(s: State, u: Tid)
    requires StateOk(s) && u < |s.threads| && s.threads[u].FixCas? && ThreadOk(s, u, s.threads[u])
    ensures Ready(s, s.threads[u]) && PopNearer(s, s.threads[u], PopWrite(s, u), PopWrite(s, u).threads[u])
  {
    var pc := s.threads[u];
    assert RingOk(s.rings[pc.b]);
  }

  lemma PopUnlinkNearer(s: State, u: Tid)
    requires StateOk(s) && u < |s.threads| && s.threads[u].PopUnlink? && ThreadOk(s, u, s.threads[u])
    ensures PopNearer(s, s.threads[u], PopWrite(s, u), PopWrite(s, u).threads[u])
  {
  }

  lemma PopWriteNearer(s: State, u: Tid)
    requires StateOk(s) && u < |s.threads| && IsPopWrite(s.threads[u]) && Holds(s.threads[u]) && ThreadOk(s, u, s.threads[u])
    ensures Ready(s, s.threads[u]) && RingThere(s, s.threads[u])
    ensures PopNearer(s, s.threads[u], PopWrite(s, u), PopWrite(s, u).threads[u])
  {
    match s.threads[u]
    case PopDraw(_, _) => PopDrawNearer(s, u);
    case PopIdx(_, _, _, _) => PopIdxNearer(s, u);
    case PopCas(_, _, _, _) => PopCasNearer(s, u);
    case FixCas(_, _, _, _) => FixCasNearer(s, u);
    case PopUnlink(_) => PopUnlinkNearer(s, u);
  }

  lemma IsThere(s: State, u: Tid, pc: Pc)
    requires StateOk(s) && Holds(pc) && ThreadOk(s, u, pc)
    ensures RingThere(s, pc)
    ensures var r := PopLeft(s, pc); r.rings >= 0 && r.calls >= 0 && r.draws >= 0 && r.steps >= 0
  {
    if OnRing(pc) { assert RingOk(s.rings[pc.b]); }
  }

  lemma PopStep(s: State, u: Tid, c: Choice)
    requires StateOk(s) && u < |s.threads| && Holds(s.threads[u]) && !s.threads[u].PopNull? && RingThere(s, s.threads[u])
    requires ThreadOk(s, u, s.threads[u]) && Ready(s, s.threads[u])
    ensures PopNearer(s, s.threads[u], Step(s, u, c), Step(s, u, c).threads[u])
  {
    var pc := s.threads[u];
    if IsFixRead(pc) { FixReadNearer(s, u, pc); GotoNearer(s, u, FixRead(s, pc)); }
    else if IsPopRead(pc) { PopReadNearer(s, u, pc); GotoNearer(s, u, PopRead(s, pc)); }
    else { PopWriteNearer(s, u); }
  }

  lemma GotoNearer(s: State, u: Tid, pc: Pc)
    requires u < |s.threads| && Holds(s.threads[u]) && RingThere(s, s.threads[u]) && PopNearer(s, s.threads[u], s, pc)
    ensures PopNearer(s, s.threads[u], Goto(s, u, pc), pc)
  {
  }

  /** Where a call of mpq_pop ends. */
  predicate Popped(pc: Pc) { pc.PopDone? || pc.PopNull? }

  lemma PopOnce(s: State, u: Tid, c: Choice)
    requires Inv(s) && u < |s.threads| && Holds(s.threads[u]) && !s.threads[u].PopNull?
    ensures Inv(Step(s, u, c)) && RingThere(s, s.threads[u])
    ensures PopNearer(s, s.threads[u], Step(s, u, c), Step(s, u, c).threads[u])
    ensures var r := PopLeft(s, s.threads[u]); r.rings >= 0 && r.calls >= 0 && r.draws >= 0 && r.steps >= 0
  {
    ReadyOk(s, u);
    assert ThreadOk(s, u, s.threads[u]);
    IsThere(s, u, s.threads[u]);
    PopStep(s, u, c);
    StepOk(s, u, c);
  }

  lemma {:induction false} PopEnds(s: State, u: Tid, c: Choice) returns (k: nat)
    requires Inv(s) && u < |s.threads| && Holds(s.threads[u]) && RingThere(s, s.threads[u])
    ensures Inv(After(s, u, c, k)) && Popped(After(s, u, c, k).threads[u])
    decreases PopLeft(s, s.threads[u]).rings, PopLeft(s, s.threads[u]).calls, PopLeft(s, s.threads[u]).draws,
              PopLeft(s, s.threads[u]).steps
  {
    if s.threads[u].PopNull? {
      return 0;
    }
    PopOnce(s, u, c);
    var s1 := Step(s, u, c);
    if Popped(s1.threads[u]) { k := 0; } else { k := PopEnds(s1, u, c); }
    assert After(s, u, c, k + 1) == After(s1, u, c, k);
    k := k + 1;
  }

  /** A pop that has a token and runs alone, from wherever it and the others have got to, gets a value. */
  lemma PopAlone(s: State, u: Tid, c: Choice) returns (k: nat)
    requires Reachable(s) && s.gated && u < |s.threads| && Holds(s.threads[u])
    ensures |Run(s, Times(u, c, k)).threads| == |s.threads| && Run(s, Times(u, c, k)).threads[u].PopDone?
  {
    ReachableOk(s);
    assert ThreadOk(s, u, s.threads[u]);
    IsThere(s, u, s.threads[u]);
    k := PopEnds(s, u, c);
    AfterIsRun(s, u, c, k);
    GatedPopped(After(s, u, c, k), u);
  }

  /** So does a call of mpq_pop_w or mpq_pop_nw that finds a token. */
  lemma TokenAlone(s: State, u: Tid, c: Choice) returns (k: nat)
    requires Reachable(s) && s.gated && u < |s.threads| && s.threads[u].SemLoad? && s.value > 0
    ensures |Run(s, Times(u, c, k)).threads| == |s.threads| && Run(s, Times(u, c, k)).threads[u].PopDone?
  {
    ReachableOk(s);
    var s1, s2 := GetsToken(s, u, c);
    var m := HeadEnds(s2, u, c);
    AfterIsRun(s2, u, c, m);
    k := m + 2;
    OneMore(s, s1, u, c, k);
    OneMore(s1, s2, u, c, k - 1);
  }

  lemma OneMore(s: State, s1: State, u: Tid, c: Choice, k: nat)
    requires u < |s.threads| && k > 0 && s1 == Step(s, u, c)
    ensures Run(s, Times(u, c, k)) == Run(s1, Times(u, c, k - 1))
  {
    assert Times(u, c, k)[0] == (u, c) && Times(u, c, k)[1..] == Times(u, c, k - 1);
  }

  lemma HeadEnds(s: State, u: Tid, c: Choice) returns (k: nat)
    requires Inv(s) && s.gated && u < |s.threads| && s.threads[u] == PopHead && RingThere(s, PopHead)
    ensures After(s, u, c, k).threads[u].PopDone?
  {
    k := PopEnds(s, u, c);
    GatedPopped(After(s, u, c, k), u);
  }

  lemma GatedPopped(s: State, u: Tid)
    requires Inv(s) && s.gated && u < |s.threads|
    ensures s.threads[u] != PopNull
  {
    assert ThreadOk(s, u, s.threads[u]);
  }

  lemma GetsToken(s: State, u: Tid, c: Choice) returns (s1: State, s2: State)
    requires Inv(s) && u < |s.threads| && s.threads[u].SemLoad? && s.value > 0
    ensures s1 == Step(s, u, c) && u < |s1.threads| && s2 == Step(s1, u, c)
    ensures Inv(s2) && s2.gated == s.gated && |s2.threads| == |s.threads| && s2.threads[u] == PopHead && RingThere(s2, PopHead)
  {
    s1 := Step(s, u, c);
    StepOk(s, u, c);
    TakesTokenOk(s, u, c);
    SemKeepsValue(s, u, c);
    s2 := Step(s1, u, c);
    StepOk(s1, u, c);
    TakesTokenOk(s1, u, c);
  }

  /** A call of mpq_pop_nw that runs alone ends: with a value if it finds a token, and without one otherwise. */
  lemma TryAlone(s: State, u: Tid) returns (k: nat)
    requires Reachable(s) && s.gated && u < |s.threads| && s.threads[u] == SemLoad(false)
    ensures var s' := Run(s, Times(u, GiveUp, k));
            |s'.threads| == |s.threads| && if s.value > 0 then s'.threads[u].PopDone? else s' == Goto(s, u, Idle)
  {
    if s.value > 0 {
      k := TokenAlone(s, u, GiveUp);
    } else {
      k := 1;
      assert After(s, u, GiveUp, 1) == After(Step(s, u, GiveUp), u, GiveUp, 0);
      AfterIsRun(s, u, GiveUp, 1);
    }
  }

  /** So does one that has found the token taken by another pop: it puts back what it took. */
  lemma UndoAlone(s: State, u: Tid) returns (k: nat)
    requires u < |s.threads| && s.threads[u] == SemUndo(false)
    ensures Run(s, Times(u, GiveUp, k)) == Goto(s.(value := s.value + 1), u, Idle)
  {
    k := 1;
    assert After(s, u, GiveUp, 1) == After(Step(s, u, GiveUp), u, GiveUp, 0);
    AfterIsRun(s, u, GiveUp, 1);
  }

  lemma SemKeepsValue(s: State, u: Tid, c: Choice)
    requires u < |s.threads| && s.threads[u].SemLoad?
    ensures Step(s, u, c).value == s.value
  {
  }

  /** A pop with no other pop at work gets the oldest value: none stored in an earlier ring, or under an earlier ticket
      of the same ring, is left. */
  lemma OldestOut(s: State, u: Tid, c: Choice, v: Value, b: nat, h: nat, i: nat, t: nat)
    requires Reachable(s) && u < |s.threads| && !s.threads[u].PopDone? && PopTicket(s.threads[u]) == Ticket(b, h)
    requires Step(s, u, c).threads[u] == PopDone(v) && forall w :: 0 <= w < |s.threads| && w != u ==> PopTicket(s.threads[w]) == NoTicket
    requires i < |s.rings| && s.rings[i].Live(t)
    ensures Delivered(s, Step(s, u, c), u, b, h, v) && (b < i || (b == i && h <= t))
  {
    PopDelivers(s, u, c, v, b, h);
    if i < b || (i == b && t < h) { FirstOut(s, u, b, h, i, t); }
  }
}
