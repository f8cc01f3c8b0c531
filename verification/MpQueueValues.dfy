/** What becomes of the values given to the queue, over whole runs: nothing is lost, made up or handed out twice.
    Everything is counted for one value x, whichever it is. */
module MpQueueValues {
  import opened Counting
  import opened MpRing
  import opened MpQueue
  import opened MpQueueSafety

  // ----- counting -----

  ghost function Sum<T>(xs: seq<T>, f: T -> int): int {
    if xs == [] then 0 else Sum(xs[..|xs| - 1], f) + f(xs[|xs| - 1])
  }

  lemma {:induction false} SumUpdate<T>(xs: seq<T>, i: nat, x: T, f: T -> int)
    requires i < |xs|
    ensures Sum(xs[i := x], f) == Sum(xs, f) - f(xs[i]) + f(x)
  {
    var n := |xs| - 1;
    if i < n {
      assert xs[i := x][..n] == xs[..n][i := x];
      SumUpdate(xs[..n], i, x, f);
    } else {
      assert xs[i := x][..n] == xs[..n];
    }
  }

  lemma SumAppend<T>(xs: seq<T>, x: T, f: T -> int)
    ensures Sum(xs + [x], f) == Sum(xs, f) + f(x)
  {
    assert (xs + [x])[..|xs|] == xs;
  }

  lemma {:induction false} SumNone<T>(xs: seq<T>, f: T -> int)
    requires forall i :: 0 <= i < |xs| ==> f(xs[i]) == 0
    ensures Sum(xs, f) == 0
  {
    if xs != [] { SumNone(xs[..|xs| - 1], f); }
  }

  // ----- the values of a ring -----

  /** How often x is stored under tickets below n, but for the tickets in gone. */
  ghost function Values(stored: map<nat, Value>, gone: set<nat>, n: nat, x: Value): int {
    if n == 0 then 0 else Values(stored, gone, n - 1, x) + Ind(n - 1 in stored && n - 1 !in gone && stored[n - 1] == x)
  }

  lemma {:induction false} ValuesPut(stored: map<nat, Value>, gone: set<nat>, n: nat, t: nat, v: Value, x: Value)
    requires t !in stored && t !in gone
    ensures Values(stored[t := v], gone, n, x) == Values(stored, gone, n, x) + Ind(t < n && v == x)
  {
    if n > 0 { ValuesPut(stored, gone, n - 1, t, v, x); }
  }

  lemma {:induction false} ValuesTake(stored: map<nat, Value>, gone: set<nat>, n: nat, t: nat, x: Value)
    requires t in stored && t !in gone
    ensures Values(stored, gone + {t}, n, x) == Values(stored, gone, n, x) - Ind(t < n && stored[t] == x)
  {
    if n > 0 { ValuesTake(stored, gone, n - 1, t, x); }
  }

  lemma {:induction false} ValuesBeyond(stored: map<nat, Value>, gone: set<nat>, n: nat, m: nat, x: Value)
    requires n <= m && forall t :: t in stored ==> t < n
    ensures Values(stored, gone, m, x) == Values(stored, gone, n, x)
  {
    if n < m { ValuesBeyond(stored, gone, n, m - 1, x); }
  }

  /** How often x was ever stored in a ring. */
  ghost function StoredOf(x: Value): Ring -> int { (r: Ring) => Values(r.stored, {}, r.bound, x) }

  /** How often it is there now. */
  ghost function LeftOf(x: Value): Ring -> int { (r: Ring) => Values(r.stored, r.taken, r.bound, x) }

  /** Whether a push of x has not stored it yet. */
  function Carries(pc: Pc): bool {
    pc.PushTail? || pc.PushCheck? || pc.PushNext? || pc.PushHelp? || pc.PushDraw? || pc.PushVal? || pc.PushIdx?
    || pc.PushTest? || pc.PushCas? || pc.PushSize? || pc.PushClose? || pc.PushAlloc? || pc.PushLink?
  }

  function Held(pc: Pc, x: Value): int { Ind(Carries(pc) && pc.v == x) }

  ghost function CarriesOf(x: Value): Pc -> int { (pc: Pc) => Held(pc, x) }

  ghost function InFlight(s: State, x: Value): int { Sum(s.threads, CarriesOf(x)) }
  ghost function EverStored(s: State, x: Value): int { Sum(s.rings, StoredOf(x)) }
  ghost function InQueue(s: State, x: Value): int { Sum(s.rings, LeftOf(x)) }

  // ----- history of a run -----

  /** How often x was given to mpq_push_w, by the calls accepted, and how often mpq_pop returned it. */
  datatype Log = Log(pushed: nat, popped: nat)

  /** The step of a thread from pc to pc'. */
  function LogOf(pc: Pc, c: Choice, pc': Pc, x: Value, log: Log): Log {
    Log(if pc.Idle? && c == StartPush(x) then log.pushed + 1 else log.pushed,
        if !pc.PopDone? && pc' == PopDone(x) then log.popped + 1 else log.popped)
  }

  function LogBy(s: State, u: Tid, c: Choice, x: Value, log: Log): Log
    requires u < |s.threads|
  {
    LogOf(s.threads[u], c, Step(s, u, c).threads[u], x, log)
  }

  function LogIn(s: State, sched: seq<(Tid, Choice)>, x: Value, log: Log): Log
    decreases sched
  {
    if sched == [] then log
    else
      var (u, c) := sched[0];
      if u < |s.threads| then LogIn(Step(s, u, c), sched[1..], x, LogBy(s, u, c, x, log)) else LogIn(s, sched[1..], x, log)
  }

  /** Every value pushed is on its way into the queue, in it, or popped, as often as it was pushed. */
  ghost predicate Balanced(s: State, x: Value, log: Log) {
    && EverStored(s, x) + InFlight(s, x) == log.pushed
    && log.popped + InQueue(s, x) + InFlight(s, x) == log.pushed
  }

  // ----- what one step does to the values -----

  /** x is stored `put` times more, and taken `taken` times. */
  ghost predicate Changes(rings: seq<Ring>, rings': seq<Ring>, x: Value, put: int, taken: int) {
    && Sum(rings', StoredOf(x)) == Sum(rings, StoredOf(x)) + put
    && Sum(rings', LeftOf(x)) == Sum(rings, LeftOf(x)) + put - taken
  }

  lemma RingChanges(rings: seq<Ring>, b: nat, r: Ring, x: Value, put: int, taken: int)
    requires b < |rings|
    requires StoredOf(x)(r) == StoredOf(x)(rings[b]) + put && LeftOf(x)(r) == LeftOf(x)(rings[b]) + put - taken
    ensures Changes(rings, rings[b := r], x, put, taken)
  {
    SumUpdate(rings, b, r, StoredOf(x));
    SumUpdate(rings, b, r, LeftOf(x));
  }

  /** No value is stored or taken. */
  ghost predicate Quiet(r: Ring, r': Ring) {
    r'.stored == r.stored && r'.taken == r.taken && r.bound <= r'.bound
  }

  lemma QuietChanges(rings: seq<Ring>, b: nat, r: Ring, x: Value)
    requires b < |rings| && RingOk(rings[b]) && Quiet(rings[b], r)
    ensures Changes(rings, rings[b := r], x, 0, 0)
  {
    ValuesBeyond(r.stored, {}, rings[b].bound, r.bound, x);
    ValuesBeyond(r.stored, r.taken, rings[b].bound, r.bound, x);
    RingChanges(rings, b, r, x, 0, 0);
  }

  lemma StoreChanges(rings: seq<Ring>, b: nat, t: nat, v: Value, x: Value)
    requires b < |rings| && RingOk(rings[b]) && t in rings[b].pusher && t !in rings[b].stored
    ensures Changes(rings, rings[b := Store(rings[b], t, v)], x, Ind(v == x), 0)
  {
    var r := rings[b];
    assert t !in r.taken && t < r.bound;
    ValuesPut(r.stored, {}, r.bound, t, v, x);
    ValuesPut(r.stored, r.taken, r.bound, t, v, x);
    RingChanges(rings, b, Store(r, t, v), x, Ind(v == x), 0);
  }

  lemma TakeChanges(rings: seq<Ring>, b: nat, h: nat, x: Value)
    requires b < |rings| && RingOk(rings[b]) && rings[b].Live(h)
    ensures Changes(rings, rings[b := Take(rings[b], h)], x, 0, Ind(rings[b].stored[h] == x))
  {
    var r := rings[b];
    assert h in r.pusher && h < r.bound;
    ValuesTake(r.stored, r.taken, r.bound, h, x);
    RingChanges(rings, b, Take(r, h), x, 0, Ind(r.stored[h] == x));
  }

  lemma LinkChanges(rings: seq<Ring>, size: nat, v: Value, u: Tid, x: Value)
    requires size > 0
    ensures Changes(rings, rings + [NewRing(size, Full(v), u)], x, Ind(v == x), 0)
  {
    var r := NewRing(size, Full(v), u);
    SumAppend(rings, r, StoredOf(x));
    SumAppend(rings, r, LeftOf(x));
    assert r.bound == 1 && r.stored == map[0 := v] && r.taken == {};
    assert Values(r.stored, {}, 0, x) == 0;
    assert Values(r.stored, {}, 1, x) == Ind(v == x);
  }

  /** A step of thread u that changes the rings so. */
  lemma BalancedOn(s: State, s': State, u: Tid, x: Value, log: Log, log': Log, put: int, taken: int)
    requires u < |s.threads| && Balanced(s, x, log)
    requires |s'.threads| == |s.threads| && s'.threads == s.threads[u := s'.threads[u]]
    requires Changes(s.rings, s'.rings, x, put, taken)
    requires log'.pushed == log.pushed + Held(s'.threads[u], x) + put - Held(s.threads[u], x)
    requires log'.popped == log.popped + taken
    ensures Balanced(s', x, log')
  {
    SumUpdate(s.threads, u, s'.threads[u], CarriesOf(x));
  }

  /** The balance after a step of thread u to s'. */
  ghost predicate BalancedAfter(s: State, s': State, u: Tid, c: Choice, x: Value, log: Log)
    requires u < |s.threads|
  {
    |s'.threads| == |s.threads| && Balanced(s', x, LogOf(s.threads[u], c, s'.threads[u], x, log))
  }

  /** No push starts, stores or ends, and no pop ends. */
  predicate Idles(pc: Pc, pc': Pc) {
    !pc.Idle? && !pc'.PopDone? && Carries(pc) == Carries(pc') && (Carries(pc) ==> pc'.v == pc.v)
  }

  /** A step that leaves the rings alone. */
  lemma QuietOn(s: State, s': State, u: Tid, c: Choice, x: Value, log: Log)
    requires u < |s.threads| && Balanced(s, x, log)
    requires |s'.threads| == |s.threads| && s'.threads == s.threads[u := s'.threads[u]] && s'.rings == s.rings
    requires Idles(s.threads[u], s'.threads[u])
    ensures BalancedAfter(s, s', u, c, x, log)
  {
    BalancedOn(s, s', u, x, log, LogOf(s.threads[u], c, s'.threads[u], x, log), 0, 0);
  }

  lemma QuietGoto(s: State, u: Tid, pc: Pc, c: Choice, x: Value, log: Log)
    requires u < |s.threads| && Balanced(s, x, log) && Idles(s.threads[u], pc)
    ensures BalancedAfter(s, Goto(s, u, pc), u, c, x, log)
  {
    QuietOn(s, Goto(s, u, pc), u, c, x, log);
  }

  /** A step that leaves ring b as r, with the same values. */
  lemma QuietRing(s: State, u: Tid, b: nat, r: Ring, pc: Pc, c: Choice, x: Value, log: Log)
    requires StateOk(s) && Balanced(s, x, log) && u < |s.threads| && b < |s.rings| && Quiet(s.rings[b], r)
    requires Idles(s.threads[u], pc)
    ensures BalancedAfter(s, Goto(WithRing(s, b, r), u, pc), u, c, x, log)
  {
    QuietChanges(s.rings, b, r, x);
    var s' := Goto(WithRing(s, b, r), u, pc);
    BalancedOn(s, s', u, x, log, LogOf(s.threads[u], c, pc, x, log), 0, 0);
  }

  lemma FixReadIdles(s: State, pc: Pc)
    requires IsFixRead(pc) && Ready(s, pc)
    ensures Idles(pc, FixRead(s, pc))
  {
  }

  lemma PopReadIdles(s: State, pc: Pc)
    requires IsPopRead(pc) && Ready(s, pc)
    ensures Idles(pc, PopRead(s, pc))
  {
  }

  lemma PushReadIdles(s: State, pc: Pc)
    requires IsPushRead(pc) && Ready(s, pc)
    ensures Idles(pc, PushRead(s, pc))
  {
  }

  lemma EmptyReadIdles(s: State, pc: Pc)
    requires IsEmptyRead(pc) && Ready(s, pc)
    ensures Idles(pc, EmptyRead(s, pc))
  {
  }

  lemma SemBalanced(s: State, u: Tid, c: Choice, x: Value, log: Log)
    requires Balanced(s, x, log) && u < |s.threads| && IsSem(s.threads[u])
    ensures BalancedAfter(s, SemStep(s, u, c), u, c, x, log)
  {
    if s.threads[u].Idle? {
      var pc := Start(s.gated, c);
      BalancedOn(s, Goto(s, u, pc), u, x, log, LogOf(Idle, c, pc, x, log), 0, 0);
    } else {
      QuietOn(s, SemStep(s, u, c), u, c, x, log);
    }
  }

  lemma TakeBalanced(s: State, u: Tid, b: nat, h: nat, v: Value, c: Choice, x: Value, log: Log)
    requires StateOk(s) && Balanced(s, x, log) && u < |s.threads| && s.threads[u].PopCas?
    requires b < |s.rings| && s.rings[b].Live(h) && s.rings[b].stored[h] == v
    ensures BalancedAfter(s, Goto(WithRing(s, b, Take(s.rings[b], h)), u, PopDone(v)), u, c, x, log)
  {
    TakeChanges(s.rings, b, h, x);
    var s' := Goto(WithRing(s, b, Take(s.rings[b], h)), u, PopDone(v));
    BalancedOn(s, s', u, x, log, LogOf(s.threads[u], c, PopDone(v), x, log), 0, Ind(v == x));
  }

  lemma PopSwapBalanced(s: State, u: Tid, b: nat, again: bool, h: nat, seen: Cell, c: Choice, x: Value, log: Log)
    requires StateOk(s) && Balanced(s, x, log) && u < |s.threads| && s.threads[u] == PopCas(b, again, h, seen)
    requires b < |s.rings| && PopOwns(s, u, b, h)
    ensures BalancedAfter(s, PopSwap(s, u, b, again, h, seen), u, c, x, log)
  {
    var r := s.rings[b];
    if r.At(h) != seen { QuietGoto(s, u, PopVal(b, again, h), c, x, log); }
    else if seen.content.Empty? { QuietRing(s, u, b, Bump(r, h), PopTail(b, again, h), c, x, log); }
    else if seen.idx != h { QuietRing(s, u, b, Unsafe(r, h), PopTail(b, again, h), c, x, log); }
    else { TakeOk(r, h, u); TakeBalanced(s, u, b, h, seen.content.v, c, x, log); }
  }

  lemma PopDrawBalanced(s: State, u: Tid, c: Choice, x: Value, log: Log)
    requires StateOk(s) && Balanced(s, x, log) && u < |s.threads| && s.threads[u].PopDraw? && Ready(s, s.threads[u])
    ensures BalancedAfter(s, PopWrite(s, u), u, c, x, log)
  {
    var pc := s.threads[u];
    QuietRing(s, u, pc.b, DrawPop(s.rings[pc.b], u), PopVal(pc.b, pc.again, s.rings[pc.b].head), c, x, log);
  }

  lemma PopIdxBalanced(s: State, u: Tid, c: Choice, x: Value, log: Log)
    requires StateOk(s) && Balanced(s, x, log) && u < |s.threads| && s.threads[u].PopIdx? && Ready(s, s.threads[u])
    ensures BalancedAfter(s, PopWrite(s, u), u, c, x, log)
  {
    var pc := s.threads[u];
    if s.rings[pc.b].At(pc.h).idx > pc.h { QuietRing(s, u, pc.b, Skip(s.rings[pc.b], pc.h), PopTail(pc.b, pc.again, pc.h), c, x, log); }
    else { QuietGoto(s, u, PopWrite(s, u).threads[u], c, x, log); }
  }

  lemma FixCasBalanced(s: State, u: Tid, c: Choice, x: Value, log: Log)
    requires StateOk(s) && Balanced(s, x, log) && u < |s.threads| && s.threads[u].FixCas? && Ready(s, s.threads[u])
    ensures BalancedAfter(s, PopWrite(s, u), u, c, x, log)
  {
    var pc := s.threads[u];
    var r := s.rings[pc.b];
    if !r.closed && r.tail == pc.t { QuietRing(s, u, pc.b, AdvanceTail(r, pc.h), FixDone(pc.b, pc.again), c, x, log); }
    else { QuietGoto(s, u, FixTail(pc.b, pc.again), c, x, log); }
  }

  lemma PopWriteBalanced(s: State, u: Tid, c: Choice, x: Value, log: Log)
    requires StateOk(s) && Balanced(s, x, log) && u < |s.threads| && ThreadOk(s, u, s.threads[u])
    requires IsPopWrite(s.threads[u]) && Ready(s, s.threads[u])
    ensures BalancedAfter(s, PopWrite(s, u), u, c, x, log)
  {
    match s.threads[u]
    case PopDraw(_, _) => PopDrawBalanced(s, u, c, x, log);
    case PopIdx(_, _, _, _) => PopIdxBalanced(s, u, c, x, log);
    case PopCas(b, again, h, seen) => PopSwapBalanced(s, u, b, again, h, seen, c, x, log);
    case FixCas(_, _, _, _) => FixCasBalanced(s, u, c, x, log);
    case PopUnlink(b) => QuietOn(s, Goto(Unlink(s, b), u, PopHead), u, c, x, log);
    case EmptyUnlink(b) => QuietOn(s, Goto(Unlink(s, b), u, EmptyHead), u, c, x, log);
  }

  lemma StoreBalanced(s: State, u: Tid, b: nat, t: nat, c: Choice, x: Value, log: Log)
    requires StateOk(s) && Balanced(s, x, log) && u < |s.threads| && s.threads[u].PushCas?
    requires b < |s.rings| && t in s.rings[b].pusher && t !in s.rings[b].stored
    ensures BalancedAfter(s, Goto(WithRing(s, b, Store(s.rings[b], t, s.threads[u].v)), u, PushPost), u, c, x, log)
  {
    var v := s.threads[u].v;
    StoreChanges(s.rings, b, t, v, x);
    var s' := Goto(WithRing(s, b, Store(s.rings[b], t, v)), u, PushPost);
    BalancedOn(s, s', u, x, log, LogOf(s.threads[u], c, PushPost, x, log), Ind(v == x), 0);
  }

  lemma PushCasBalanced(s: State, u: Tid, c: Choice, x: Value, log: Log)
    requires StateOk(s) && Balanced(s, x, log) && u < |s.threads| && ThreadOk(s, u, s.threads[u])
    requires s.threads[u].PushCas? && Ready(s, s.threads[u])
    ensures BalancedAfter(s, PushWrite(s, u), u, c, x, log)
  {
    var pc := s.threads[u];
    if s.rings[pc.b].At(pc.t) == Cell(pc.safe, pc.idx, Empty) { StoreBalanced(s, u, pc.b, pc.t, c, x, log); }
    else { QuietGoto(s, u, PushSize(pc.v, pc.b, pc.n, pc.t), c, x, log); }
  }

  lemma LinkBalanced(s: State, s': State, u: Tid, pc: Pc, size: nat, c: Choice, x: Value, log: Log)
    requires Balanced(s, x, log) && u < |s.threads| && s.threads[u].PushLink? && size > 0 && pc.PushSwing?
    requires s'.rings == s.rings + [NewRing(size, Full(s.threads[u].v), u)] && s'.threads == s.threads[u := pc]
    ensures BalancedAfter(s, s', u, c, x, log)
  {
    LinkChanges(s.rings, size, s.threads[u].v, u, x);
    BalancedOn(s, s', u, x, log, LogOf(s.threads[u], c, pc, x, log), Ind(s.threads[u].v == x), 0);
  }

  lemma PushLinkBalanced(s: State, u: Tid, c: Choice, x: Value, log: Log)
    requires Balanced(s, x, log) && u < |s.threads| && s.threads[u].PushLink? && Ready(s, s.threads[u])
    ensures BalancedAfter(s, PushWrite(s, u), u, c, x, log)
  {
    var pc := s.threads[u];
    if pc.b + 1 == |s.rings| { LinkBalanced(s, PushWrite(s, u), u, PushSwing(pc.b), pc.size, c, x, log); }
    else { QuietGoto(s, u, PushTail(pc.v), c, x, log); }
  }

  lemma PushDrawBalanced(s: State, u: Tid, c: Choice, x: Value, log: Log)
    requires StateOk(s) && Balanced(s, x, log) && u < |s.threads| && s.threads[u].PushDraw? && Ready(s, s.threads[u])
    ensures BalancedAfter(s, PushWrite(s, u), u, c, x, log)
  {
    var pc := s.threads[u];
    var r := s.rings[pc.b];
    assert RingOk(r);
    QuietRing(s, u, pc.b, DrawPush(r, u), if r.closed then PushAlloc(pc.v, pc.b) else PushVal(pc.v, pc.b, pc.n, r.tail), c, x, log);
  }

  lemma PushWriteBalanced(s: State, u: Tid, c: Choice, x: Value, log: Log)
    requires StateOk(s) && Balanced(s, x, log) && u < |s.threads| && ThreadOk(s, u, s.threads[u])
    requires IsPushWrite(s.threads[u]) && Ready(s, s.threads[u])
    ensures BalancedAfter(s, PushWrite(s, u), u, c, x, log)
  {
    match s.threads[u]
    case PushHelp(v, b) => QuietOn(s, Goto(Swing(s, b), u, PushTail(v)), u, c, x, log);
    case PushDraw(_, _, _) => PushDrawBalanced(s, u, c, x, log);
    case PushCas(_, _, _, _, _, _) => PushCasBalanced(s, u, c, x, log);
    case PushClose(v, b) => QuietRing(s, u, b, Close(s.rings[b]), PushAlloc(v, b), c, x, log);
    case PushLink(_, _, _) => PushLinkBalanced(s, u, c, x, log);
    case PushSwing(b) => QuietOn(s, Goto(Swing(s, b), u, PushPost), u, c, x, log);
    case PushPost => QuietOn(s, Goto(s.(value := s.value + 1), u, Idle), u, c, x, log);
  }

  /** One step of any thread keeps the balance. */
  lemma StepBalanced(s: State, u: Tid, c: Choice, x: Value, log: Log)
    requires Inv(s) && Balanced(s, x, log) && u < |s.threads|
    ensures BalancedAfter(s, Step(s, u, c), u, c, x, log)
  {
    ReadyOk(s, u);
    var pc := s.threads[u];
    assert ThreadOk(s, u, pc);
    if IsFixRead(pc) { FixReadIdles(s, pc); QuietGoto(s, u, FixRead(s, pc), c, x, log); }
    else if IsPopRead(pc) { PopReadIdles(s, pc); QuietGoto(s, u, PopRead(s, pc), c, x, log); }
    else if IsPushRead(pc) { PushReadIdles(s, pc); QuietGoto(s, u, PushRead(s, pc), c, x, log); }
    else if IsEmptyRead(pc) { EmptyReadIdles(s, pc); QuietGoto(s, u, EmptyRead(s, pc), c, x, log); }
    else if IsPopWrite(pc) { PopWriteBalanced(s, u, c, x, log); }
    else if IsPushWrite(pc) { PushWriteBalanced(s, u, c, x, log); }
    else { SemBalanced(s, u, c, x, log); }
  }

  // ----- whole runs -----

  lemma InitBalanced(gated: bool, n: nat, x: Value)
    ensures Balanced(Init(gated, n), x, Log(0, 0))
  {
    var s := Init(gated, n);
    SumNone(s.threads, CarriesOf(x));
    SumNone(s.rings, StoredOf(x));
    SumNone(s.rings, LeftOf(x));
  }

  lemma {:induction false} RunBalanced(s: State, sched: seq<(Tid, Choice)>, x: Value, log: Log)
    requires Inv(s) && Balanced(s, x, log)
    ensures Balanced(Run(s, sched), x, LogIn(s, sched, x, log))
    decreases sched
  {
    if sched != [] {
      var (u, c) := sched[0];
      if u < |s.threads| {
        StepBalanced(s, u, c, x, log);
        StepOk(s, u, c);
        RunBalanced(Step(s, u, c), sched[1..], x, LogBy(s, u, c, x, log));
      } else {
        RunBalanced(s, sched[1..], x, log);
      }
    }
  }

  /** In every run, for every value: the times it was pushed are those it was stored and those in which a push of it
      is still at work; and again those it was popped, those it lies in the queue, and those still at work. */
  lemma NothingLost(gated: bool, n: nat, sched: seq<(Tid, Choice)>, x: Value)
    ensures var s0 := Init(gated, n); Balanced(Run(s0, sched), x, LogIn(s0, sched, x, Log(0, 0)))
  {
    InitOk(gated, n);
    InitBalanced(gated, n, x);
    RunBalanced(Init(gated, n), sched, x, Log(0, 0));
  }

  lemma {:induction false} SumAtLeast<T>(xs: seq<T>, f: T -> int)
    requires forall i :: 0 <= i < |xs| ==> f(xs[i]) >= 0
    ensures Sum(xs, f) >= 0
  {
    if xs != [] { SumAtLeast(xs[..|xs| - 1], f); }
  }

  lemma {:induction false} ValuesAtLeast(stored: map<nat, Value>, gone: set<nat>, n: nat, x: Value)
    ensures Values(stored, gone, n, x) >= 0
  {
    if n > 0 { ValuesAtLeast(stored, gone, n - 1, x); }
  }

  /** Only what was pushed is popped, and not more often. */
  lemma PoppedWasPushed(gated: bool, n: nat, sched: seq<(Tid, Choice)>, x: Value)
    ensures var log := LogIn(Init(gated, n), sched, x, Log(0, 0)); log.popped <= log.pushed
  {
    NothingLost(gated, n, sched, x);
    var s := Run(Init(gated, n), sched);
    SumAtLeast(s.threads, CarriesOf(x));
    forall b | 0 <= b < |s.rings| ensures LeftOf(x)(s.rings[b]) >= 0 {
      ValuesAtLeast(s.rings[b].stored, s.rings[b].taken, s.rings[b].bound, x);
    }
    SumAtLeast(s.rings, LeftOf(x));
  }

  predicate AllIdle(s: State) {
    forall pc :: pc in s.threads ==> pc.Idle?
  }

  lemma NoneInFlight(s: State, x: Value)
    requires AllIdle(s)
    ensures InFlight(s, x) == 0
  {
    forall u | 0 <= u < |s.threads| ensures CarriesOf(x)(s.threads[u]) == 0 { assert s.threads[u] in s.threads; }
    SumNone(s.threads, CarriesOf(x));
  }

  /** When no call is at work, what was pushed and not popped lies in the queue. */
  lemma RestIsInQueue(gated: bool, n: nat, sched: seq<(Tid, Choice)>, x: Value)
    requires AllIdle(Run(Init(gated, n), sched))
    ensures var log := LogIn(Init(gated, n), sched, x, Log(0, 0));
            InQueue(Run(Init(gated, n), sched), x) == log.pushed - log.popped
  {
    NothingLost(gated, n, sched, x);
    NoneInFlight(Run(Init(gated, n), sched), x);
  }

  // ----- whose value is stored -----

  /** The value with which each thread has called mpq_push_w last. */
  function GivenBy(s: State, u: Tid, c: Choice, given: map<Tid, Value>): map<Tid, Value>
    requires u < |s.threads|
  {
    if s.threads[u].Idle? && c.StartPush? then given[u := c.v] else given
  }

  function GivenIn(s: State, sched: seq<(Tid, Choice)>, given: map<Tid, Value>): map<Tid, Value>
    decreases sched
  {
    if sched == [] then given
    else
      var (u, c) := sched[0];
      if u < |s.threads| then GivenIn(Step(s, u, c), sched[1..], GivenBy(s, u, c, given)) else GivenIn(s, sched[1..], given)
  }

  ghost predicate OwnOk(s: State, given: map<Tid, Value>) {
    forall u :: 0 <= u < |s.threads| && Carries(s.threads[u]) ==> u in given && given[u] == s.threads[u].v
  }

  lemma PopWriteCarries(s: State, u: Tid)
    requires u < |s.threads| && IsPopWrite(s.threads[u]) && Ready(s, s.threads[u])
    ensures |PopWrite(s, u).threads| == |s.threads| && PopWrite(s, u).threads == s.threads[u := PopWrite(s, u).threads[u]]
    ensures !Carries(PopWrite(s, u).threads[u])
  {
  }

  lemma PushWriteCarries(s: State, u: Tid)
    requires u < |s.threads| && IsPushWrite(s.threads[u]) && Ready(s, s.threads[u])
    ensures |PushWrite(s, u).threads| == |s.threads| && PushWrite(s, u).threads == s.threads[u := PushWrite(s, u).threads[u]]
    ensures Carries(PushWrite(s, u).threads[u]) ==> Carries(s.threads[u]) && PushWrite(s, u).threads[u].v == s.threads[u].v
  {
  }

  lemma StepOwn(s: State, u: Tid, c: Choice, given: map<Tid, Value>)
    requires Inv(s) && OwnOk(s, given) && u < |s.threads|
    ensures OwnOk(Step(s, u, c), GivenBy(s, u, c, given))
  {
    StepCarries(s, u, c);
    var s' := Step(s, u, c);
    forall w | 0 <= w < |s'.threads| && Carries(s'.threads[w])
      ensures w in GivenBy(s, u, c, given) && GivenBy(s, u, c, given)[w] == s'.threads[w].v
    {
      if w != u { assert s'.threads[w] == s.threads[w]; }
    }
  }

  /** A push goes on with its value, and a new one starts with that of its call. */
  lemma StepCarries(s: State, u: Tid, c: Choice)
    requires Inv(s) && u < |s.threads|
    ensures Step(s, u, c).threads == s.threads[u := Step(s, u, c).threads[u]]
    ensures var pc, pc' := s.threads[u], Step(s, u, c).threads[u];
            Carries(pc') ==> if pc.Idle? then c == StartPush(pc'.v) else Carries(pc) && pc'.v == pc.v
  {
    ReadyOk(s, u);
    var pc := s.threads[u];
    if IsFixRead(pc) { FixReadIdles(s, pc); }
    else if IsPopRead(pc) { PopReadIdles(s, pc); }
    else if IsPushRead(pc) { PushReadIdles(s, pc); }
    else if IsEmptyRead(pc) { EmptyReadIdles(s, pc); }
    else if IsPopWrite(pc) { PopWriteCarries(s, u); }
    else if IsPushWrite(pc) { PushWriteCarries(s, u); }
  }

  lemma {:induction false} RunOwn(s: State, sched: seq<(Tid, Choice)>, given: map<Tid, Value>)
    requires Inv(s) && OwnOk(s, given)
    ensures OwnOk(Run(s, sched), GivenIn(s, sched, given))
    decreases sched
  {
    if sched != [] {
      var (u, c) := sched[0];
      if u < |s.threads| {
        StepOwn(s, u, c, given);
        StepOk(s, u, c);
        RunOwn(Step(s, u, c), sched[1..], GivenBy(s, u, c, given));
      } else {
        RunOwn(s, sched[1..], given);
      }
    }
  }

  /** Ticket t of ring b has a value after the step that it had not before. */
  ghost predicate Stores(s: State, s': State, b: nat, t: nat) {
    b < |s'.rings| && t in s'.rings[b].stored && (b < |s.rings| ==> t !in s.rings[b].stored)
  }

  lemma StoresCarried(s: State, u: Tid, c: Choice, b: nat, t: nat)
    requires Inv(s) && u < |s.threads| && Stores(s, Step(s, u, c), b, t)
    ensures Carries(s.threads[u]) && Step(s, u, c).rings[b].stored[t] == s.threads[u].v
    ensures t in Step(s, u, c).rings[b].pusher && Step(s, u, c).rings[b].pusher[t] == u
  {
    assert ThreadOk(s, u, s.threads[u]);
    ReadyOk(s, u);
    if IsPopWrite(s.threads[u]) { PopStoresNone(s, u, b, t); }
    else if IsPushWrite(s.threads[u]) { PushStoresOwn(s, u, b, t); }
  }

  lemma PopStoresNone(s: State, u: Tid, b: nat, t: nat)
    requires u < |s.threads| && IsPopWrite(s.threads[u]) && Ready(s, s.threads[u])
    ensures !Stores(s, PopWrite(s, u), b, t)
  {
  }

  lemma PushStoresOwn(s: State, u: Tid, b: nat, t: nat)
    requires u < |s.threads| && IsPushWrite(s.threads[u]) && Ready(s, s.threads[u]) && ThreadOk(s, u, s.threads[u])
    requires Stores(s, PushWrite(s, u), b, t)
    ensures Carries(s.threads[u]) && PushWrite(s, u).rings[b].stored[t] == s.threads[u].v
    ensures t in PushWrite(s, u).rings[b].pusher && PushWrite(s, u).rings[b].pusher[t] == u
  {
  }

  /** In every run, what a thread stores is the value it was called with last, under a ticket it drew itself. */
  lemma StoresOwnValue(gated: bool, n: nat, sched: seq<(Tid, Choice)>, u: Tid, c: Choice, b: nat, t: nat)
    requires var s := Run(Init(gated, n), sched); u < |s.threads| && Stores(s, Step(s, u, c), b, t)
    ensures var s := Run(Init(gated, n), sched);
            var given, r := GivenIn(Init(gated, n), sched, map[]), Step(s, u, c).rings[b];
            u in given && r.stored[t] == given[u] && t in r.pusher && r.pusher[t] == u
  {
    var s := Run(Init(gated, n), sched);
    InitOk(gated, n);
    RunOk(Init(gated, n), sched);
    RunOwn(Init(gated, n), sched, map[]);
    StoresCarried(s, u, c, b, t);
  }
}
