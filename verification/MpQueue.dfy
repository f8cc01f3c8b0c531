/** The whole queue of common/mp-queue.c as used through mpq_push_w, mpq_pop_w, mpq_pop_nw and
    mpq_is_empty: a list of rings and a counting semaphore, driven by any number of threads.

    Every atomic instruction and every plain access to shared memory is one step.  Ring i + 1 is
    what `mqb_next` of ring i points to, so a ring whose next pointer is null is the last one. */
module MpQueue {
  import opened Counting
  import opened MpRing

  const SMALL_BLOCK: nat := 64
  const BLOCK: nat := 4096
  const MAX_ITERATIONS: nat := 10

  datatype Pc =
    | Idle
    // mp_sem_wait, mp_sem_trywait
    | SemLoad(wait: bool)
    | SemDec(wait: bool)
    | SemUndo(wait: bool)
    // mpq_pop; `again` marks the second call of mpq_block_pop
    | PopHead
    | PopCheck(b: nat)
    | PopDraw(b: nat, again: bool)
    | PopVal(b: nat, again: bool, h: nat)
    | PopIdx(b: nat, again: bool, h: nat, content: Content)
    | PopCas(b: nat, again: bool, h: nat, seen: Cell)
    | PopTail(b: nat, again: bool, h: nat)
    | FixTail(b: nat, again: bool)
    | FixHead(b: nat, again: bool, t: nat, wasClosed: bool)
    | FixRecheck(b: nat, again: bool, t: nat, h: nat)
    | FixCas(b: nat, again: bool, t: nat, h: nat)
    | PopNext(b: nat)
    | PopUnlink(b: nat)
    | PopDone(result: Value)
    | PopNull
    // mpq_push
    | PushTail(v: Value)
    | PushCheck(v: Value, b: nat)
    | PushNext(v: Value, b: nat)
    | PushHelp(v: Value, b: nat)
    | PushDraw(v: Value, b: nat, n: nat)
    | PushVal(v: Value, b: nat, n: nat, t: nat)
    | PushIdx(v: Value, b: nat, n: nat, t: nat, content: Content)
    | PushTest(v: Value, b: nat, n: nat, t: nat, idx: nat)
    | PushCas(v: Value, b: nat, n: nat, t: nat, safe: bool, idx: nat)
    | PushSize(v: Value, b: nat, n: nat, t: nat)
    | PushClose(v: Value, b: nat)
    | PushAlloc(v: Value, b: nat)
    | PushLink(v: Value, b: nat, size: nat)
    | PushSwing(b: nat)
    | PushPost
    // mpq_is_empty
    | EmptyHead
    | EmptyCheck(b: nat)
    | EmptyReadHead(b: nat)
    | EmptyReadTail(b: nat, h: nat)
    | EmptyNext(b: nat)
    | EmptyUnlink(b: nat)
    | EmptyDone(empty: bool)

  /** What the schedule decides: which operation an idle thread starts, and whether a thread that
      did not get a token goes on trying.  StartRawPop is a call of mpq_pop without a token. */
  datatype Choice = StartPush(v: Value) | StartPop(wait: bool) | StartRawPop | StartEmpty | GoOn | GiveUp

  /** `gated` says that nobody calls mpq_pop without a token. */
  datatype State = State(gated: bool, rings: seq<Ring>, first: nat, last: nat, value: int, threads: seq<Pc>)

  function Init(gated: bool, n: nat): State {
    State(gated, [NewRing(SMALL_BLOCK, Empty, 0)], 0, 0, 0, seq(n, _ => Idle))
  }

  // ----- steps that only read shared memory: where they lead -----

  function FixDone(b: nat, again: bool): Pc {
    if again then PopUnlink(b) else PopNext(b)
  }

  predicate IsFixRead(pc: Pc) { pc.FixTail? || pc.FixHead? || pc.FixRecheck? }

  function FixRead(s: State, pc: Pc): Pc
    requires IsFixRead(pc) && pc.b < |s.rings|
  {
    var r := s.rings[pc.b];
    match pc
    case FixTail(b, again) => FixHead(b, again, r.tail, r.closed)
    // head and tail are compared as unsigned numbers, and the closed bit is the highest one
    case FixHead(b, again, t, wasClosed) =>
      if wasClosed || r.head <= t then FixDone(b, again) else FixRecheck(b, again, t, r.head)
    case FixRecheck(b, again, t, h) => if r.closed || r.tail != t then FixTail(b, again) else FixCas(b, again, t, h)
  }

  predicate IsPopRead(pc: Pc) {
    pc.PopHead? || pc.PopCheck? || pc.PopVal? || pc.PopTail? || pc.PopNext? || pc.PopDone? || pc.PopNull?
  }

  function PopRead(s: State, pc: Pc): Pc
    requires IsPopRead(pc) && (pc.PopVal? || pc.PopTail? ==> pc.b < |s.rings| && |s.rings[pc.b].cells| > 0)
  {
    match pc
    case PopHead => PopCheck(s.first)
    case PopCheck(b) => if s.first == b then PopDraw(b, false) else PopHead
    case PopVal(b, again, h) => PopIdx(b, again, h, s.rings[b].At(h).content)
    case PopTail(b, again, h) => if s.rings[b].tail <= h + 1 then FixTail(b, again) else PopDraw(b, again)
    case PopNext(b) => if b + 1 < |s.rings| then PopDraw(b, true) else PopNull
    case PopDone(_) => Idle
    case PopNull => Idle
  }

  predicate IsPushRead(pc: Pc) {
    pc.PushTail? || pc.PushCheck? || pc.PushNext? || pc.PushVal? || pc.PushIdx? || pc.PushTest? || pc.PushSize?
    || pc.PushAlloc?
  }

  function PushRead(s: State, pc: Pc): Pc
    requires IsPushRead(pc) && (pc.PushTail? || (pc.b < |s.rings| && |s.rings[pc.b].cells| > 0))
  {
    match pc
    case PushTail(v) => PushCheck(v, s.last)
    case PushCheck(v, b) => if s.last == b then PushNext(v, b) else PushTail(v)
    case PushNext(v, b) => if b + 1 < |s.rings| then PushHelp(v, b) else PushDraw(v, b, 0)
    case PushVal(v, b, n, t) => PushIdx(v, b, n, t, s.rings[b].At(t).content)
    case PushIdx(v, b, n, t, content) =>
      var c := s.rings[b].At(t);
      if content.Full? || c.idx > t then PushSize(v, b, n, t)
      else if c.safe then PushCas(v, b, n, t, true, c.idx)
      else PushTest(v, b, n, t, c.idx)
    case PushTest(v, b, n, t, idx) =>
      if s.rings[b].head <= t then PushCas(v, b, n, t, false, idx) else PushSize(v, b, n, t)
    case PushSize(v, b, n, t) =>
      if t - s.rings[b].head >= |s.rings[b].cells| || n + 1 > MAX_ITERATIONS then PushClose(v, b)
      else PushDraw(v, b, n + 1)
    case PushAlloc(v, b) => PushLink(v, b, if b == s.first then SMALL_BLOCK else BLOCK)
  }

  predicate IsEmptyRead(pc: Pc) {
    pc.EmptyHead? || pc.EmptyCheck? || pc.EmptyReadHead? || pc.EmptyReadTail? || pc.EmptyNext? || pc.EmptyDone?
  }

  function EmptyRead(s: State, pc: Pc): Pc
    requires IsEmptyRead(pc) && (pc.EmptyReadHead? || pc.EmptyReadTail? ==> pc.b < |s.rings|)
  {
    match pc
    case EmptyHead => EmptyCheck(s.first)
    case EmptyCheck(b) => if s.first == b then EmptyReadHead(b) else EmptyHead
    case EmptyReadHead(b) => EmptyReadTail(b, s.rings[b].head)
    case EmptyReadTail(b, h) =>
      var r := s.rings[b];
      if !r.closed then EmptyDone(r.tail <= h)
      else if r.tail > h then EmptyDone(false)
      else EmptyNext(b)
    case EmptyNext(b) => if b + 1 < |s.rings| then EmptyUnlink(b) else EmptyDone(true)
    case EmptyDone(_) => Idle
  }

  /** The ring a step works on is there. */
  predicate Ready(s: State, pc: Pc) {
    match pc
    case PopDraw(b, _) => b < |s.rings|
    case PopVal(b, _, _) => b < |s.rings| && |s.rings[b].cells| > 0
    case PopIdx(b, _, _, _) => b < |s.rings| && |s.rings[b].cells| > 0
    case PopCas(b, _, _, _) => b < |s.rings| && |s.rings[b].cells| > 0
    case PopTail(b, _, _) => b < |s.rings| && |s.rings[b].cells| > 0
    case FixTail(b, _) => b < |s.rings|
    case FixHead(b, _, _, _) => b < |s.rings|
    case FixRecheck(b, _, _, _) => b < |s.rings|
    case FixCas(b, _, _, _) => b < |s.rings|
    case PushCheck(_, b) => b < |s.rings| && |s.rings[b].cells| > 0
    case PushNext(_, b) => b < |s.rings| && |s.rings[b].cells| > 0
    case PushDraw(_, b, _) => b < |s.rings|
    case PushVal(_, b, _, _) => b < |s.rings| && |s.rings[b].cells| > 0
    case PushIdx(_, b, _, _, _) => b < |s.rings| && |s.rings[b].cells| > 0
    case PushTest(_, b, _, _, _) => b < |s.rings| && |s.rings[b].cells| > 0
    case PushCas(_, b, _, _, _, _) => b < |s.rings| && |s.rings[b].cells| > 0
    case PushSize(_, b, _, _) => b < |s.rings| && |s.rings[b].cells| > 0
    case PushAlloc(_, b) => b < |s.rings| && |s.rings[b].cells| > 0
    case PushClose(_, b) => b < |s.rings|
    case PushLink(_, _, size) => size > 0
    case EmptyReadHead(b) => b < |s.rings|
    case EmptyReadTail(b, _) => b < |s.rings|
    case _ => true
  }

  // ----- steps that write -----

  function Goto(s: State, u: Tid, pc: Pc): State
    requires u < |s.threads|
  {
    s.(threads := s.threads[u := pc])
  }

  function WithRing(s: State, b: nat, r: Ring): State
    requires b < |s.rings|
  {
    s.(rings := s.rings[b := r])
  }

  predicate IsSem(pc: Pc) { pc.Idle? || pc.SemLoad? || pc.SemDec? || pc.SemUndo? }

  function SemStep(s: State, u: Tid, c: Choice): State
    requires u < |s.threads| && IsSem(s.threads[u])
  {
    match s.threads[u]
    case Idle => Goto(s, u, Start(s.gated, c))
    case SemLoad(wait) =>
      Goto(s, u, if s.value > 0 then SemDec(wait) else if !wait && c == GiveUp then Idle else SemLoad(wait))
    case SemDec(wait) =>
      Goto(s.(value := s.value - 1), u, if s.value > 0 then PopHead else SemUndo(wait))
    case SemUndo(wait) =>
      Goto(s.(value := s.value + 1), u,
           if wait && s.value + 1 > 0 && c == GoOn then SemDec(wait)
           else if !wait && c == GiveUp then Idle
           else SemLoad(wait))
  }

  function Start(gated: bool, c: Choice): Pc {
    match c
    case StartPush(v) => PushTail(v)
    case StartPop(wait) => SemLoad(wait)
    case StartRawPop => if gated then Idle else PopHead
    case StartEmpty => EmptyHead
    case _ => Idle
  }

  predicate IsPopWrite(pc: Pc) { pc.PopDraw? || pc.PopIdx? || pc.PopCas? || pc.FixCas? || pc.PopUnlink? || pc.EmptyUnlink? }

  function PopWrite(s: State, u: Tid): State
    requires u < |s.threads| && IsPopWrite(s.threads[u]) && Ready(s, s.threads[u])
  {
    match s.threads[u]
    case PopDraw(b, again) => Goto(WithRing(s, b, DrawPop(s.rings[b], u)), u, PopVal(b, again, s.rings[b].head))
    case PopIdx(b, again, h, content) =>
      var c := s.rings[b].At(h);
      if c.idx > h then Goto(WithRing(s, b, Skip(s.rings[b], h)), u, PopTail(b, again, h))
      else Goto(s, u, PopCas(b, again, h, Cell(c.safe, c.idx, content)))
    case PopCas(b, again, h, seen) => PopSwap(s, u, b, again, h, seen)
    case FixCas(b, again, t, h) =>
      if !s.rings[b].closed && s.rings[b].tail == t
      then Goto(WithRing(s, b, AdvanceTail(s.rings[b], h)), u, FixDone(b, again))
      else Goto(s, u, FixTail(b, again))
    case PopUnlink(b) => Goto(Unlink(s, b), u, PopHead)
    case EmptyUnlink(b) => Goto(Unlink(s, b), u, EmptyHead)
  }

  /** The three compare-and-swaps of mpq_block_pop; when the cell has changed, it is read again. */
  function PopSwap(s: State, u: Tid, b: nat, again: bool, h: nat, seen: Cell): State
    requires u < |s.threads| && b < |s.rings| && |s.rings[b].cells| > 0
  {
    var r := s.rings[b];
    if r.At(h) != seen then Goto(s, u, PopVal(b, again, h))
    else match seen.content
      case Full(v) =>
        if seen.idx == h then Goto(WithRing(s, b, Take(r, h)), u, PopDone(v))
        else Goto(WithRing(s, b, Unsafe(r, h)), u, PopTail(b, again, h))
      case Empty => Goto(WithRing(s, b, Bump(r, h)), u, PopTail(b, again, h))
  }

  /** The compare-and-swap of mq_head from ring b to its successor. */
  function Unlink(s: State, b: nat): State {
    s.(first := if s.first == b then b + 1 else s.first)
  }

  /** The compare-and-swap of mq_tail from ring b to its successor. */
  function Swing(s: State, b: nat): State {
    s.(last := if s.last == b then b + 1 else s.last)
  }

  predicate IsPushWrite(pc: Pc) {
    pc.PushHelp? || pc.PushDraw? || pc.PushCas? || pc.PushClose? || pc.PushLink? || pc.PushSwing? || pc.PushPost?
  }

  function PushWrite(s: State, u: Tid): State
    requires u < |s.threads| && IsPushWrite(s.threads[u]) && Ready(s, s.threads[u])
  {
    match s.threads[u]
    case PushHelp(v, b) => Goto(Swing(s, b), u, PushTail(v))
    case PushDraw(v, b, n) =>
      var r := s.rings[b];
      Goto(WithRing(s, b, DrawPush(r, u)), u, if r.closed then PushAlloc(v, b) else PushVal(v, b, n, r.tail))
    case PushCas(v, b, n, t, safe, idx) =>
      if s.rings[b].At(t) == Cell(safe, idx, Empty)
      then Goto(WithRing(s, b, Store(s.rings[b], t, v)), u, PushPost)
      else Goto(s, u, PushSize(v, b, n, t))
    case PushClose(v, b) => Goto(WithRing(s, b, Close(s.rings[b])), u, PushAlloc(v, b))
    case PushLink(v, b, size) =>
      if b + 1 == |s.rings|
      then Goto(s.(rings := s.rings + [NewRing(size, Full(v), u)]), u, PushSwing(b))
      else Goto(s, u, PushTail(v))
    case PushSwing(b) => Goto(Swing(s, b), u, PushPost)
    case PushPost => Goto(s.(value := s.value + 1), u, Idle)
  }

  /** One step of thread u. */
  function Step(s: State, u: Tid, c: Choice): (s': State)
    requires u < |s.threads|
    ensures s'.gated == s.gated && |s'.threads| == |s.threads|
  {
    var pc := s.threads[u];
    if !Ready(s, pc) then s
    else if IsFixRead(pc) then Goto(s, u, FixRead(s, pc))
    else if IsPopRead(pc) then Goto(s, u, PopRead(s, pc))
    else if IsPushRead(pc) then Goto(s, u, PushRead(s, pc))
    else if IsEmptyRead(pc) then Goto(s, u, EmptyRead(s, pc))
    else if IsPopWrite(pc) then PopWrite(s, u)
    else if IsPushWrite(pc) then PushWrite(s, u)
    else SemStep(s, u, c)
  }

  /** The state after a schedule: who moves, and what it chooses. */
  function Run(s: State, sched: seq<(Tid, Choice)>): State
    decreases sched
  {
    if sched == [] then s
    else
      var (u, c) := sched[0];
      Run(if u < |s.threads| then Step(s, u, c) else s, sched[1..])
  }

  ghost predicate Reachable(s: State) {
    exists gated: bool, n: nat, sched: seq<(Tid, Choice)> :: s == Run(Init(gated, n), sched)
  }

  // ----- what a thread holds -----

  datatype Ticket = NoTicket | Ticket(b: nat, t: nat)

  /** The head ticket a pop has drawn and not yet resolved. */
  function PopTicket(pc: Pc): Ticket {
    match pc
    case PopVal(b, _, h) => Ticket(b, h)
    case PopIdx(b, _, h, _) => Ticket(b, h)
    case PopCas(b, _, h, _) => Ticket(b, h)
    case _ => NoTicket
  }

  /** Got a token, has not got a value. */
  predicate Holds(pc: Pc) {
    IsFixRead(pc) || (IsPopRead(pc) && !pc.PopDone?) || (IsPopWrite(pc) && !pc.EmptyUnlink?)
  }
  /** Stored its value, has not posted the token. */
  predicate Posts(pc: Pc) { pc.PushSwing? || pc.PushPost? }
  /** Took the semaphore down without getting a token, has not put it back. */
  predicate Undoes(pc: Pc) { pc.SemUndo? }

  // ----- invariant -----

  ghost predicate StateOk(s: State) {
    && s.first < |s.rings| && s.last < |s.rings|
    && (forall b :: 0 <= b < |s.rings| ==> RingOk(s.rings[b]))
    && (forall b :: 0 <= b < |s.rings| - 1 ==> s.rings[b].closed)
    && (forall b :: 0 <= b < s.first ==> s.rings[b].Drained())
  }

  ghost predicate PopOwns(s: State, u: Tid, b: nat, h: nat) {
    b < |s.rings| && b <= s.first && h in s.rings[b].popper && s.rings[b].popper[h] == u
    && h !in s.rings[b].taken && h !in s.rings[b].given
  }

  ghost predicate Again(s: State, b: nat, again: bool) {
    b < |s.rings| && b <= s.first && (again ==> b + 1 < |s.rings|)
  }

  /** A call of mpq_block_pop has seen the tail at or below its ticket. */
  ghost predicate Observed(s: State, b: nat, again: bool) {
    && b < |s.rings| && b <= s.first
    && (again || s.gated ==> b + 1 < |s.rings|)
    && (again ==> s.rings[b].Drained())
  }

  ghost predicate PushOwns(s: State, u: Tid, b: nat, t: nat) {
    b < |s.rings| && |s.rings[b].cells| > 0
    && t in s.rings[b].pusher && s.rings[b].pusher[t] == u && t !in s.rings[b].stored
  }

  /** What thread u, at pc, knows about the shared state. */
  ghost predicate ThreadOk(s: State, u: Tid, pc: Pc) {
    match pc
    case PopCheck(b) => b <= s.first
    case PopDraw(b, again) => Again(s, b, again)
    case PopVal(b, again, h) => Again(s, b, again) && PopOwns(s, u, b, h)
    case PopIdx(b, again, h, _) => Again(s, b, again) && PopOwns(s, u, b, h)
    case PopCas(b, again, h, seen) => Again(s, b, again) && PopOwns(s, u, b, h) && seen.idx <= h
    case PopTail(b, again, h) => Again(s, b, again) && h in s.rings[b].popper
    case FixTail(b, again) => Observed(s, b, again)
    case FixHead(b, again, _, _) => Observed(s, b, again)
    case FixRecheck(b, again, t, h) => Observed(s, b, again) && t < h
    case FixCas(b, again, t, h) => Observed(s, b, again) && t < h && !s.gated
    case PopNext(b) => Observed(s, b, false)
    case PopUnlink(b) => Observed(s, b, true)
    case PopNull => !s.gated
    case PushCheck(_, b) => b < |s.rings|
    case PushNext(_, b) => b < |s.rings|
    case PushHelp(_, b) => b + 1 < |s.rings|
    case PushDraw(_, b, _) => b < |s.rings|
    case PushVal(_, b, _, t) => PushOwns(s, u, b, t)
    case PushIdx(_, b, _, t, _) => PushOwns(s, u, b, t)
    case PushTest(_, b, _, t, idx) => PushOwns(s, u, b, t) && idx <= t && idx <= s.rings[b].At(t).idx
    case PushCas(_, b, _, t, safe, idx) => PushOwns(s, u, b, t) && PushSafe(s.rings[b], t, safe, idx)
    case PushSize(_, b, _, _) => b < |s.rings|
    case PushClose(_, b) => b < |s.rings|
    case PushAlloc(_, b) => b < |s.rings| && s.rings[b].closed
    case PushLink(_, b, size) => b < |s.rings| && s.rings[b].closed && size > 0
    case PushSwing(b) => b + 1 < |s.rings|
    case EmptyCheck(b) => b <= s.first
    case EmptyReadHead(b) => b <= s.first
    case EmptyReadTail(b, h) => b <= s.first && b < |s.rings| && h <= s.rings[b].head
    case EmptyNext(b) => b < |s.rings| && b <= s.first && s.rings[b].Drained()
    case EmptyUnlink(b) => Observed(s, b, true)
    case _ => true
  }

  ghost predicate ThreadsOk(s: State) {
    forall w :: 0 <= w < |s.threads| ==> ThreadOk(s, w, s.threads[w])
  }

  ghost predicate Open(r: Ring, h: nat) {
    h in r.popper && h !in r.taken && h !in r.given
  }

  /** Every head ticket drawn and not resolved is in the hands of the thread that drew it. */
  ghost predicate Claimed(s: State) {
    forall b, h :: 0 <= b < |s.rings| && Open(s.rings[b], h) ==>
      s.rings[b].popper[h] < |s.threads| && PopTicket(s.threads[s.rings[b].popper[h]]) == Ticket(b, h)
  }

  /** The values in the queue: those stored under a ticket and not yet taken from it. */
  ghost function Queued(rings: seq<Ring>): set<(nat, nat)> {
    set b, t | 0 <= b < |rings| && t in rings[b].stored && t !in rings[b].taken :: (b, t)
  }

  /** Tokens: what the semaphore shows, what is out on loan from it, what pops hold and what pushes
      have still to post together make up the values in the queue, and none is granted unposted. */
  ghost predicate Tokens(s: State) {
    && s.value + |Who(s.threads, Undoes)| + |Who(s.threads, Holds)| + |Who(s.threads, Posts)| == |Queued(s.rings)|
    && s.value + |Who(s.threads, Undoes)| >= 0
  }

  ghost predicate Inv(s: State) {
    StateOk(s) && ThreadsOk(s) && Claimed(s) && (s.gated ==> Tokens(s))
  }
}
