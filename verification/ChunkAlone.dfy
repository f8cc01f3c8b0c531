/** When a call on a chunk (net/net-msg-buffers.c) waits for another one: unlock_chunk tests the queue of deferred frees
    for emptiness and pops from it, and a buffer that has been stored there without its token yet is seen by the test and
    not by the pop.  This module says exactly when a call that runs on alone comes to its end. */
module ChunkAlone {
  import opened Counting
  import opened ChunkLock

  /** Only thread u moves. */
  ghost predicate Alone(sched: seq<(nat, Choice)>, u: nat) {
    forall i :: 0 <= i < |sched| ==> sched[i].0 == u
  }

  ghost predicate EndsAlone(s: State, u: nat) {
    exists sched: seq<(nat, Choice)> :: Alone(sched, u) && IdleAfter(s, u, sched)
  }

  ghost predicate IdleAfter(s: State, u: nat, sched: seq<(nat, Choice)>) {
    u < |Run(s, sched).threads| && Run(s, sched).threads[u].Idle?
  }

  /** Another thread holds the chunk. */
  ghost predicate HeldByOther(s: State, u: nat) {
    exists w :: 0 <= w < |s.threads| && w != u && HasLock(s.threads[w])
  }

  /** Another thread has stored a buffer in the queue and not posted its token. */
  ghost predicate OtherPosts(s: State, u: nat) {
    exists w :: 0 <= w < |s.threads| && w != u && Posts(s.threads[w])
  }

  lemma StepThen(s: State, u: nat, c: Choice)
    requires EndsAlone(Step(s, u, c), u)
    ensures EndsAlone(s, u)
  {
    var rest: seq<(nat, Choice)> :| Alone(rest, u) && IdleAfter(Step(s, u, c), u, rest);
    var sched := [(u, c)] + rest;
    assert sched[0] == (u, c) && sched[1..] == rest;
    assert IdleAfter(s, u, sched);
    assert Alone(sched, u);
  }

  lemma Now(s: State, u: nat)
    requires u < |s.threads| && s.threads[u].Idle?
    ensures EndsAlone(s, u)
  {
    assert Alone([], u) && IdleAfter(s, u, []);
  }

  /** Only thread u has moved. */
  lemma OthersStay(s: State, u: nat, c: Choice, w: nat)
    requires w < |s.threads| && w != u
    ensures |Step(s, u, c).threads| == |s.threads| && Step(s, u, c).threads[w] == s.threads[w]
  {
  }

  // ----- the chunk is held by another -----

  function RefusedLeft(pc: Pc): nat {
    match pc
    case Idle => 0
    case EmptyTest => 1
    case TryRead(op) => if op.ThenFree? then 5 else 2
    case TryCas(op) => if op.ThenFree? then 5 else 2
    case PushStore(_) => 4
    case PushPost => 3
    case _ => 0
  }

  lemma {:induction false} RefusedEnds(s: State, u: nat, w: nat)
    requires Inv(s) && u < |s.threads| && w < |s.threads| && w != u && HasLock(s.threads[w])
    ensures EndsAlone(s, u)
    decreases RefusedLeft(s.threads[u])
  {
    if s.threads[u].Idle? {
      Now(s, u);
    } else {
      WhoOne(s.threads, w, HasLock);
      if HasLock(s.threads[u]) { WhoTwo(s.threads, u, w, HasLock); }
      var c := Answer(true);
      RefusedStep(s, u);
      OthersStay(s, u, c, w);
      StepOk(s, u, c);
      RefusedEnds(Step(s, u, c), u, w);
      StepThen(s, u, c);
    }
  }

  lemma RefusedStep(s: State, u: nat)
    requires Inv(s) && s.locked && u < |s.threads| && !s.threads[u].Idle? && !HasLock(s.threads[u])
    ensures RefusedLeft(Step(s, u, Answer(true)).threads[u]) < RefusedLeft(s.threads[u])
  {
  }

  // ----- no other thread is between storing and posting -----

  function ThenLeft(op: Then): int {
    if op.ThenRelease? then 3 else if op.ThenUnlock? then 4 else 5
  }

  /** Steps left, if no other thread holds the chunk: two for every token, and those of the call itself. */
  function HoldingLeft(s: State, pc: Pc): int {
    var again := if Waiting(s) == {} then 0 else 8 + 2 * s.tokens;
    match pc
    case Idle => 0
    case EmptyTest => 1 + again
    case Release => 2 + again
    case Drain(op) => ThenLeft(op) + 2 * s.tokens
    case FreePopped(_, op) => 1 + ThenLeft(op) + 2 * s.tokens
    case FreeOwn(_) => 4 + 2 * s.tokens
    case Take => 4 + 2 * s.tokens
    case TryCas(_) => 7 + 2 * s.tokens
    case TryRead(_) => 8 + 2 * s.tokens
    case PushPost => 11 + 2 * s.tokens
    case PushStore(_) => 12 + 2 * s.tokens
  }

  /** What the call does next: it takes a buffer out of the queue if there is one, and believes a yes. */
  ghost function Ahead(s: State): Choice {
    if Waiting(s) == {} then Answer(true) else var b :| b in Waiting(s); Pick(b)
  }

  lemma TokensAreAll(s: State, u: nat)
    requires Inv(s) && u < |s.threads| && !Posts(s.threads[u]) && !OtherPosts(s, u)
    ensures s.tokens == |Waiting(s)| && (Waiting(s) == {} <==> s.tokens == 0)
  {
    assert Who(s.threads, Posts) == {};
  }

  lemma DrainNearer(s: State, u: nat)
    requires Inv(s) && u < |s.threads| && s.threads[u].Drain? && s.tokens == |Waiting(s)|
    ensures var s' := Step(s, u, Ahead(s)); HoldingLeft(s', s'.threads[u]) < HoldingLeft(s, s.threads[u])
  {
  }

  lemma HoldingNearer(s: State, u: nat)
    requires Inv(s) && u < |s.threads| && !s.threads[u].Idle? && !s.threads[u].Drain? && (s.locked ==> HasLock(s.threads[u]))
    ensures var s' := Step(s, u, Ahead(s)); HoldingLeft(s', s'.threads[u]) < HoldingLeft(s, s.threads[u])
  {
    match s.threads[u]
    case FreePopped(b, _) => assert InHand(s.threads[u], b);
    case FreeOwn(b) => assert InHand(s.threads[u], b);
    case PushStore(b) => assert InHand(s.threads[u], b);
    case _ =>
  }

  lemma LockedByMe(s: State, u: nat)
    requires Inv(s) && u < |s.threads| && !HeldByOther(s, u) && s.locked
    ensures HasLock(s.threads[u])
  {
    var w :| w in Who(s.threads, HasLock);
  }

  lemma StillAlone(s: State, u: nat, c: Choice)
    requires u < |s.threads|
    ensures |Step(s, u, c).threads| == |s.threads|
    ensures HeldByOther(Step(s, u, c), u) == HeldByOther(s, u) && OtherPosts(Step(s, u, c), u) == OtherPosts(s, u)
  {
    var s' := Step(s, u, c);
    forall w | 0 <= w < |s.threads| && w != u ensures |s'.threads| == |s.threads| && s'.threads[w] == s.threads[w] {
      OthersStay(s, u, c, w);
    }
    SameCount(s, u, c);
  }

  lemma SameCount(s: State, u: nat, c: Choice)
    ensures |Step(s, u, c).threads| == |s.threads|
  {
  }

  lemma LeftAtLeast(s: State, pc: Pc)
    requires s.tokens >= 0
    ensures HoldingLeft(s, pc) >= 0
  {
  }

  lemma {:induction false} HoldingEnds(s: State, u: nat)
    requires Inv(s) && u < |s.threads| && !HeldByOther(s, u) && !OtherPosts(s, u)
    ensures EndsAlone(s, u)
    decreases HoldingLeft(s, s.threads[u])
  {
    if s.threads[u].Idle? {
      Now(s, u);
    } else {
      var c := Ahead(s);
      LeftAtLeast(s, s.threads[u]);
      if s.locked { LockedByMe(s, u); }
      if s.threads[u].Drain? {
        TokensAreAll(s, u);
        DrainNearer(s, u);
      } else {
        HoldingNearer(s, u);
      }
      StillAlone(s, u, c);
      StepOk(s, u, c);
      HoldingEnds(Step(s, u, c), u);
      StepThen(s, u, c);
    }
  }

  // ----- another thread is between storing and posting -----

  /** The call cannot end before thread w posts. */
  ghost predicate Spinning(s: State, u: nat, w: nat) {
    && Inv(s) && u < |s.threads| && w < |s.threads| && w != u && Posts(s.threads[w])
    && !s.threads[u].Idle? && (s.locked ==> HasLock(s.threads[u]))
  }

  lemma OneWaits(s: State, w: nat)
    requires Inv(s) && w < |s.threads| && Posts(s.threads[w])
    ensures Waiting(s) != {}
  {
    WhoOne(s.threads, w, Posts);
  }

  lemma SpinStep(s: State, u: nat, w: nat, c: Choice)
    requires Spinning(s, u, w)
    ensures Spinning(Step(s, u, c), u, w)
  {
    OneWaits(s, w);
    StepOk(s, u, c);
    OthersStay(s, u, c, w);
    if HasLock(s.threads[u]) { Locked(s, u); }
    SpinPlace(s, u, c);
  }

  lemma SpinPlace(s: State, u: nat, c: Choice)
    requires u < |s.threads| && !s.threads[u].Idle? && Waiting(s) != {} && (s.locked <==> HasLock(s.threads[u]))
    ensures var s' := Step(s, u, c);
            |s'.threads| == |s.threads| && !s'.threads[u].Idle? && (s'.locked ==> HasLock(s'.threads[u]))
  {
  }

  lemma {:induction false} Spins(s: State, u: nat, w: nat, sched: seq<(nat, Choice)>)
    requires Spinning(s, u, w) && Alone(sched, u)
    ensures !IdleAfter(s, u, sched)
    decreases sched
  {
    if sched != [] {
      var c := sched[0].1;
      SpinStep(s, u, w, c);
      assert Alone(sched[1..], u);
      Spins(Step(s, u, c), u, w, sched[1..]);
      assert Run(s, sched) == Run(Step(s, u, c), sched[1..]);
    }
  }

  /** A call at work that runs on alone, whatever it chooses, comes to its end exactly if another thread holds the
      chunk, or no other thread is between storing a freed buffer and posting its token.  Otherwise it goes round
      between unlocking, testing and locking until that thread posts. */
  lemma EndsExactly(s: State, u: nat)
    requires Reachable(s) && u < |s.threads| && !s.threads[u].Idle?
    ensures EndsAlone(s, u) <==> HeldByOther(s, u) || !OtherPosts(s, u)
  {
    ReachableOk(s);
    if HeldByOther(s, u) {
      var w :| 0 <= w < |s.threads| && w != u && HasLock(s.threads[w]);
      RefusedEnds(s, u, w);
    } else if !OtherPosts(s, u) {
      HoldingEnds(s, u);
    } else {
      var w :| 0 <= w < |s.threads| && w != u && Posts(s.threads[w]);
      if s.locked { LockedByMe(s, u); }
      forall sched: seq<(nat, Choice)> | Alone(sched, u) ensures !IdleAfter(s, u, sched) { Spins(s, u, w, sched); }
    }
  }
}
