/** The lock of one buffer chunk in net/net-msg-buffers.c and its queue of deferred frees: any number of
    threads allocate from the chunk and free buffers of it.

    The queue is used through mpq_push_w, mpq_pop_nw and mpq_is_empty.  Only the thread that holds the
    chunk pops, so a pop is one step here: it gets a buffer exactly when a token is posted. */
module ChunkLock {
  import opened Counting

  type Buf = nat

  /** Where a buffer is: free in the tree, handed out, waiting in the queue, or in the hands of a call. */
  datatype Place = Free | Out | Queued | Hand(u: nat)

  /** What try_lock_chunk and unlock_chunk go on with when the queue gives no more buffers. */
  datatype Then = ThenFree(b: Buf) | ThenAlloc | ThenUnlock | ThenRelease

  datatype Pc =
    | Idle
    | TryRead(op: Then)                // try_lock_chunk: C->magic != MSG_CHUNK_USED_MAGIC
    | TryCas(op: Then)
    | Drain(op: Then)                  // mpq_pop_nw
    | FreePopped(b: Buf, op: Then)
    | FreeOwn(b: Buf)
    | Take
    | PushStore(b: Buf)                // mpq_push_w: the store
    | PushPost                         //             and the post
    | Release                          // C->magic = MSG_CHUNK_USED_MAGIC
    | EmptyTest                        // mpq_is_empty

  datatype Choice = StartFree(b: Buf) | StartAlloc | Pick(b: Buf) | Answer(empty: bool)

  datatype State = State(locked: bool, tokens: int, place: map<Buf, Place>, threads: seq<Pc>)

  function Init(buffers: set<Buf>, threads: nat): State {
    State(false, 0, map b | b in buffers :: Free, seq(threads, _ => Idle))
  }

  function Goto(s: State, u: nat, pc: Pc): State
    requires u < |s.threads|
  {
    s.(threads := s.threads[u := pc])
  }

  function Put(s: State, b: Buf, p: Place): State {
    s.(place := s.place[b := p])
  }

  function Finish(op: Then): Pc {
    match op
    case ThenFree(b) => FreeOwn(b)
    case ThenAlloc => Take
    case ThenUnlock => Drain(ThenRelease)
    case ThenRelease => Release
  }

  /** What a call does when it cannot lock the chunk. */
  function Refused(op: Then): Pc {
    if op.ThenFree? then PushStore(op.b) else Idle
  }

  function Step(s: State, u: nat, c: Choice): State {
    if u >= |s.threads| then s
    else
      match s.threads[u]
      case Idle =>
        // only buffers that are handed out are freed, each by one call
        if c.StartFree? && c.b in s.place && s.place[c.b] == Out
        then Goto(Put(s, c.b, Hand(u)), u, TryRead(ThenFree(c.b)))
        else if c.StartAlloc? then Goto(s, u, TryRead(ThenAlloc))
        else s
      case TryRead(op) => Goto(s, u, if s.locked then Refused(op) else TryCas(op))
      case TryCas(op) => if s.locked then Goto(s, u, Refused(op)) else Goto(s.(locked := true), u, Drain(op))
      case Drain(op) =>
        if s.tokens <= 0 then Goto(s, u, Finish(op))
        else if c.Pick? && c.b in s.place && s.place[c.b] == Queued
        then Goto(Put(s.(tokens := s.tokens - 1), c.b, Hand(u)), u, FreePopped(c.b, op))
        else s
      case FreePopped(b, op) => Goto(Put(s, b, Free), u, Drain(op))
      case FreeOwn(b) => Goto(Put(s, b, Free), u, Drain(ThenRelease))
      case Take =>
        if c.Pick? && c.b in s.place && s.place[c.b] == Free
        then Goto(Put(s, c.b, Out), u, Drain(ThenRelease))
        else Goto(s, u, Drain(ThenRelease))
      case PushStore(b) => Goto(Put(s, b, Queued), u, PushPost)
      case PushPost => Goto(s.(tokens := s.tokens + 1), u, TryRead(ThenUnlock))
      case Release => Goto(s.(locked := false), u, EmptyTest)
      case EmptyTest =>
        // yes only if no buffer waits unclaimed: none waits, or the holder of the chunk is popping
        Goto(s, u, if c == Answer(true) && (s.locked || Waiting(s) == {}) then Idle else TryRead(ThenUnlock))
  }

  function Run(s: State, sched: seq<(nat, Choice)>): State
    decreases sched
  {
    if sched == [] then s else Run(Step(s, sched[0].0, sched[0].1), sched[1..])
  }

  ghost predicate Reachable(s: State) {
    exists buffers: set<Buf>, threads: nat, sched: seq<(nat, Choice)> :: s == Run(Init(buffers, threads), sched)
  }

  /** The buffers in the queue. */
  function Waiting(s: State): set<Buf> {
    set b | b in s.place && s.place[b] == Queued
  }

  predicate HasLock(pc: Pc) { pc.Drain? || pc.FreePopped? || pc.FreeOwn? || pc.Take? || pc.Release? }

  predicate Posts(pc: Pc) { pc.PushPost? }

  /** Between a push or a release and the next attempt to lock. */
  predicate Watches(pc: Pc) { pc.PushPost? || pc.EmptyTest? || ((pc.TryRead? || pc.TryCas?) && pc.op == ThenUnlock) }

  /** The buffer a call has in hand. */
  predicate InHand(pc: Pc, b: Buf) {
    || ((pc.TryRead? || pc.TryCas? || pc.Drain? || pc.FreePopped?) && pc.op == ThenFree(b))
    || (pc.FreePopped? && pc.b == b) || pc == FreeOwn(b) || pc == PushStore(b)
  }

  ghost predicate Inv(s: State) {
    && |Who(s.threads, HasLock)| == Ind(s.locked)
    && s.tokens + |Who(s.threads, Posts)| == |Waiting(s)| && s.tokens >= 0
    && (forall u, b :: 0 <= u < |s.threads| && InHand(s.threads[u], b) ==> b in s.place && s.place[b] == Hand(u))
    && (forall b :: b in s.place && s.place[b].Hand? ==>
          s.place[b].u < |s.threads| && InHand(s.threads[s.place[b].u], b))
    && (forall u :: 0 <= u < |s.threads| && s.threads[u].FreePopped? ==> s.threads[u].op != ThenFree(s.threads[u].b))
    && (forall u :: 0 <= u < |s.threads| && (s.threads[u].TryRead? || s.threads[u].TryCas?) ==> s.threads[u].op != ThenRelease)
    && (!s.locked && Waiting(s) != {} ==> exists u :: 0 <= u < |s.threads| && Watches(s.threads[u]))
  }

  lemma WaitingPut(s: State, b: Buf, p: Place)
    requires b in s.place
    ensures |Waiting(Put(s, b, p))| == |Waiting(s)| - Ind(s.place[b] == Queued) + Ind(p == Queued)
  {
    var others := Waiting(s) - {b};
    assert Waiting(Put(s, b, p)) == if p == Queued then others + {b} else others;
    assert Waiting(s) == if s.place[b] == Queued then others + {b} else others;
  }

  /** A step of thread u to pc that moves no buffer. */
  lemma MoveOk(s: State, u: nat, locked: bool, tokens: int, pc: Pc)
    requires Inv(s) && u < |s.threads| && tokens >= 0
    requires Ind(HasLock(pc)) - Ind(HasLock(s.threads[u])) == Ind(locked) - Ind(s.locked)
    requires tokens - s.tokens == Ind(Posts(s.threads[u])) - Ind(Posts(pc))
    requires forall b :: InHand(pc, b) <==> InHand(s.threads[u], b)
    requires pc.FreePopped? ==> pc.op != ThenFree(pc.b)
    requires pc.TryRead? || pc.TryCas? ==> pc.op != ThenRelease
    requires Watches(s.threads[u]) ==> Watches(pc) || locked || Waiting(s) == {}
    requires s.locked && !locked ==> Watches(pc)
    ensures Inv(State(locked, tokens, s.place, s.threads[u := pc]))
  {
    var s' := State(locked, tokens, s.place, s.threads[u := pc]);
    WhoCard(s.threads, u, pc, HasLock);
    WhoCard(s.threads, u, pc, Posts);
    assert Waiting(s') == Waiting(s);
    forall w, b | 0 <= w < |s'.threads| && InHand(s'.threads[w], b) ensures b in s'.place && s'.place[b] == Hand(w) {
      assert InHand(s.threads[w], b);
    }
    forall b | b in s'.place && s'.place[b].Hand?
      ensures s'.place[b].u < |s'.threads| && InHand(s'.threads[s'.place[b].u], b)
    {
      assert InHand(s.threads[s.place[b].u], b);
    }
    assert s'.threads[u] == pc;
    if !locked && Waiting(s) != {} && !Watches(pc) {
      var w :| 0 <= w < |s.threads| && Watches(s.threads[w]);
      assert Watches(s'.threads[w]);
    }
  }

  /** A step of thread u to pc that moves buffer b to p. */
  lemma PutOk(s: State, u: nat, tokens: int, b: Buf, p: Place, pc: Pc)
    requires Inv(s) && u < |s.threads| && tokens >= 0 && b in s.place
    requires HasLock(pc) == HasLock(s.threads[u])
    requires tokens - s.tokens == Ind(Posts(s.threads[u])) - Ind(Posts(pc)) - Ind(s.place[b] == Queued) + Ind(p == Queued)
    requires p.Hand? <==> InHand(pc, b)
    requires p.Hand? ==> p.u == u
    requires !s.place[b].Hand? || s.place[b] == Hand(u)
    requires forall x :: x != b ==> (InHand(pc, x) <==> InHand(s.threads[u], x))
    requires pc.FreePopped? ==> pc.op != ThenFree(pc.b)
    requires pc.TryRead? || pc.TryCas? ==> pc.op != ThenRelease
    requires Watches(s.threads[u]) ==> Watches(pc)
    requires p == Queued ==> Watches(pc)
    ensures Inv(Put(s, b, p).(tokens := tokens, threads := s.threads[u := pc]))
  {
    var s' := Put(s, b, p).(tokens := tokens, threads := s.threads[u := pc]);
    WhoCard(s.threads, u, pc, HasLock);
    WhoCard(s.threads, u, pc, Posts);
    WaitingPut(s, b, p);
    assert Waiting(s') == Waiting(Put(s, b, p));
    forall w, x | 0 <= w < |s'.threads| && InHand(s'.threads[w], x) ensures x in s'.place && s'.place[x] == Hand(w) {
      if w != u { assert InHand(s.threads[w], x); } else if x != b { assert InHand(s.threads[u], x); }
    }
    forall x | x in s'.place && s'.place[x].Hand?
      ensures s'.place[x].u < |s'.threads| && InHand(s'.threads[s'.place[x].u], x)
    {
      if x != b { assert InHand(s.threads[s.place[x].u], x); }
    }
    assert s'.threads[u] == pc;
    if !s.locked && Waiting(s') != {} && !Watches(pc) {
      assert Waiting(s') <= Waiting(s);
      var w :| 0 <= w < |s.threads| && Watches(s.threads[w]);
      assert w != u && Watches(s'.threads[w]);
    }
  }

  lemma Locked(s: State, u: nat)
    requires Inv(s) && u < |s.threads| && HasLock(s.threads[u])
    ensures s.locked
  {
    WhoOne(s.threads, u, HasLock);
  }

  lemma DrainOk(s: State, u: nat, c: Choice)
    requires Inv(s) && u < |s.threads| && s.threads[u].Drain?
    ensures Inv(Step(s, u, c))
  {
    var op := s.threads[u].op;
    Locked(s, u);
    if s.tokens <= 0 {
      MoveOk(s, u, s.locked, s.tokens, Finish(op));
    } else if c.Pick? && c.b in s.place && s.place[c.b] == Queued {
      assert !InHand(s.threads[u], c.b);
      PutOk(s, u, s.tokens - 1, c.b, Hand(u), FreePopped(c.b, op));
    }
  }

  lemma HolderOk(s: State, u: nat, c: Choice)
    requires Inv(s) && u < |s.threads| && HasLock(s.threads[u]) && !s.threads[u].Drain?
    ensures Inv(Step(s, u, c))
  {
    Locked(s, u);
    match s.threads[u]
    case FreePopped(b, op) => assert InHand(s.threads[u], b); PutOk(s, u, s.tokens, b, Free, Drain(op));
    case FreeOwn(b) => assert InHand(s.threads[u], b); PutOk(s, u, s.tokens, b, Free, Drain(ThenRelease));
    case Take =>
      if c.Pick? && c.b in s.place && s.place[c.b] == Free { PutOk(s, u, s.tokens, c.b, Out, Drain(ThenRelease)); }
      else { MoveOk(s, u, s.locked, s.tokens, Drain(ThenRelease)); }
    case Release => MoveOk(s, u, false, s.tokens, EmptyTest);
  }

  lemma StartOk(s: State, u: nat, c: Choice)
    requires Inv(s) && u < |s.threads| && s.threads[u].Idle?
    ensures Inv(Step(s, u, c))
  {
    if c.StartFree? && c.b in s.place && s.place[c.b] == Out { PutOk(s, u, s.tokens, c.b, Hand(u), TryRead(ThenFree(c.b))); }
    else if c.StartAlloc? { MoveOk(s, u, s.locked, s.tokens, TryRead(ThenAlloc)); }
  }

  lemma TryOk(s: State, u: nat, c: Choice)
    requires Inv(s) && u < |s.threads| && (s.threads[u].TryRead? || s.threads[u].TryCas?)
    ensures Inv(Step(s, u, c))
  {
    match s.threads[u]
    case TryRead(op) => MoveOk(s, u, s.locked, s.tokens, if s.locked then Refused(op) else TryCas(op));
    case TryCas(op) => MoveOk(s, u, true, s.tokens, if s.locked then Refused(op) else Drain(op));
  }

  lemma OutsideOk(s: State, u: nat, c: Choice)
    requires Inv(s) && u < |s.threads| && !HasLock(s.threads[u])
    ensures Inv(Step(s, u, c))
  {
    match s.threads[u]
    case Idle => StartOk(s, u, c);
    case PushStore(b) => assert InHand(s.threads[u], b); PutOk(s, u, s.tokens, b, Queued, PushPost);
    case PushPost => WhoOne(s.threads, u, Posts); MoveOk(s, u, s.locked, s.tokens + 1, TryRead(ThenUnlock));
    case EmptyTest =>
      MoveOk(s, u, s.locked, s.tokens, if c == Answer(true) && (s.locked || Waiting(s) == {}) then Idle else TryRead(ThenUnlock));
    case _ => TryOk(s, u, c);
  }

  /** One step of any thread, with any choice, keeps the invariant. */
  lemma StepOk(s: State, u: nat, c: Choice)
    requires Inv(s)
    ensures Inv(Step(s, u, c))
  {
    if u < |s.threads| {
      if HasLock(s.threads[u]) { if s.threads[u].Drain? { DrainOk(s, u, c); } else { HolderOk(s, u, c); } }
      else { OutsideOk(s, u, c); }
    }
  }

  lemma {:induction false} RunOk(s: State, sched: seq<(nat, Choice)>)
    requires Inv(s)
    ensures Inv(Run(s, sched)) && Run(s, sched).place.Keys == s.place.Keys
    decreases sched
  {
    if sched != [] {
      var (u, c) := sched[0];
      StepOk(s, u, c);
      if u < |s.threads| { SameBuffers(s, u, c); }
      RunOk(Step(s, u, c), sched[1..]);
    }
  }

  lemma SameBuffers(s: State, u: nat, c: Choice)
    requires Inv(s) && u < |s.threads|
    ensures Step(s, u, c).place.Keys == s.place.Keys
  {
    assert forall b :: InHand(s.threads[u], b) ==> b in s.place;
    match s.threads[u]
    case FreePopped(b, _) => assert InHand(s.threads[u], b);
    case FreeOwn(b) => assert InHand(s.threads[u], b);
    case PushStore(b) => assert InHand(s.threads[u], b);
    case _ =>
  }

  lemma InitOk(buffers: set<Buf>, threads: nat)
    ensures Inv(Init(buffers, threads))
  {
    var s := Init(buffers, threads);
    assert Who(s.threads, HasLock) == {} && Who(s.threads, Posts) == {} && Waiting(s) == {};
  }

  lemma ReachableOk(s: State)
    requires Reachable(s)
    ensures Inv(s)
  {
    var buffers: set<Buf>, threads: nat, sched: seq<(nat, Choice)> :| s == Run(Init(buffers, threads), sched);
    InitOk(buffers, threads);
    RunOk(Init(buffers, threads), sched);
  }

  /** At most one thread works on the chunk's tree. */
  lemma OneHolder(s: State, u: nat, w: nat)
    requires Reachable(s) && u < |s.threads| && w < |s.threads| && HasLock(s.threads[u]) && HasLock(s.threads[w])
    ensures u == w
  {
    ReachableOk(s);
    if u != w { WhoTwo(s.threads, u, w, HasLock); }
  }

  /** While the chunk is unlocked and a buffer waits in its queue, some thread is between its push or
      its release and its next attempt to lock the chunk. */
  lemma NoFreeStranded(s: State)
    requires Reachable(s) && !s.locked && Waiting(s) != {}
    ensures exists u :: 0 <= u < |s.threads| && Watches(s.threads[u])
  {
    ReachableOk(s);
  }

  // ----- what was freed -----

  /** The buffers that the callers do not have, by the calls alone: a call to free one that was handed out adds it, an
      allocation takes away the one it picks from the tree. */
  function FreedBy(s: State, u: nat, c: Choice, freed: set<Buf>): set<Buf> {
    if u >= |s.threads| then freed
    else if s.threads[u].Idle? && c.StartFree? && c.b in s.place && c.b !in freed then freed + {c.b}
    else if s.threads[u].Take? && c.Pick? && c.b in s.place && s.place[c.b] == Free then freed - {c.b}
    else freed
  }

  function Freed(s: State, sched: seq<(nat, Choice)>, freed: set<Buf>): set<Buf>
    decreases sched
  {
    if sched == [] then freed
    else Freed(Step(s, sched[0].0, sched[0].1), sched[1..], FreedBy(s, sched[0].0, sched[0].1, freed))
  }

  ghost predicate FreedOk(s: State, freed: set<Buf>) {
    forall b :: b in s.place ==> (b in freed <==> s.place[b] != Out)
  }

  /** Only the start of a free and an allocation change whether a buffer is handed out. */
  lemma StaysIn(s: State, u: nat, c: Choice, b: Buf)
    requires Inv(s) && u < |s.threads| && !s.threads[u].Idle? && !s.threads[u].Take? && b in s.place
    ensures b in Step(s, u, c).place && (Step(s, u, c).place[b] == Out <==> s.place[b] == Out)
  {
    match s.threads[u]
    case FreePopped(x, _) => assert InHand(s.threads[u], x);
    case FreeOwn(x) => assert InHand(s.threads[u], x);
    case PushStore(x) => assert InHand(s.threads[u], x);
    case _ =>
  }

  lemma FreedStepOk(s: State, u: nat, c: Choice, freed: set<Buf>)
    requires Inv(s) && FreedOk(s, freed)
    ensures FreedOk(Step(s, u, c), FreedBy(s, u, c, freed))
  {
    if u < |s.threads| && !s.threads[u].Idle? && !s.threads[u].Take? {
      SameBuffers(s, u, c);
      forall b | b in s.place ensures Step(s, u, c).place[b] == Out <==> s.place[b] == Out { StaysIn(s, u, c, b); }
    }
  }

  lemma {:induction false} FreedRunOk(s: State, sched: seq<(nat, Choice)>, freed: set<Buf>)
    requires Inv(s) && FreedOk(s, freed)
    ensures FreedOk(Run(s, sched), Freed(s, sched, freed))
    decreases sched
  {
    if sched != [] {
      var (u, c) := sched[0];
      FreedStepOk(s, u, c, freed);
      StepOk(s, u, c);
      FreedRunOk(Step(s, u, c), sched[1..], FreedBy(s, u, c, freed));
    }
  }

  /** In every run, a buffer is recorded as handed out exactly while the callers have it. */
  lemma OutIsHandedOut(buffers: set<Buf>, threads: nat, sched: seq<(nat, Choice)>, b: Buf)
    requires b in buffers
    ensures var s := Run(Init(buffers, threads), sched);
            b in s.place && (s.place[b] != Out <==> b in Freed(Init(buffers, threads), sched, buffers))
  {
    InitOk(buffers, threads);
    RunOk(Init(buffers, threads), sched);
    FreedRunOk(Init(buffers, threads), sched, buffers);
  }

  /** When all calls are over, the buffers in the tree are exactly those that were freed. */
  lemma QuiescentIsFree(buffers: set<Buf>, threads: nat, sched: seq<(nat, Choice)>, b: Buf)
    requires b in buffers
    requires var s := Run(Init(buffers, threads), sched); forall u :: 0 <= u < |s.threads| ==> s.threads[u].Idle?
    ensures var s := Run(Init(buffers, threads), sched);
            b in s.place && (s.place[b] == Free <==> b in Freed(Init(buffers, threads), sched, buffers))
  {
    var s := Run(Init(buffers, threads), sched);
    InitOk(buffers, threads);
    RunOk(Init(buffers, threads), sched);
    OutIsHandedOut(buffers, threads, sched, b);
    assert Who(s.threads, HasLock) == {};
    assert b !in Waiting(s);
  }
}
