/** Subclass scheduling of jobs/jobs.c: process_one_sublist run by the threads of one job class, and
    the two pushes with which unlock_job announces a job of a subclass.

    Subclass k of the model is subclass k - 2 of the source; index 1 is the exclusive subclass -1. */
module Sublist {
  import opened Counting

  const MAX_SUBCLASS_THREADS: nat := 16
  const EXCLUSIVE: nat := 1

  function Need(k: nat): nat {
    if k == EXCLUSIVE then MAX_SUBCLASS_THREADS else 1
  }

  /** `queued` counts the jobs in the subclass's own queue, `announced` its entries in the queue of
      the class. */
  datatype Sub = Sub(locked: bool, allowed: nat, processed: nat, queued: nat, announced: nat)

  datatype Pc =
    | Idle
    | Announce(k: nat)                  // the job is in the subclass's queue; its id goes to the class's
    | Allow(k: nat)                     // took an entry for k: allowed_to_run_jobs++
    | TryLock(k: nat)
    | Acquire(k: nat, got: nat)         // sem_wait until Need(k) permits are held
    | Loop(k: nat)                      // read processed_jobs
    | LoopTest(k: nat, p: nat)          // read allowed_to_run_jobs and compare
    | Pop(k: nat)
    | Work(k: nat)                      // process_one_job
    | Count(k: nat)                     // processed_jobs++
    | Unlock(k: nat)
    | Recheck(k: nat)
    | RecheckTest(k: nat, p: nat)
    | Relock(k: nat)
    | Release(k: nat, left: nat)        // sem_post
    | Failed                            // assert (job)

  datatype Choice = PushJob(k: nat) | TakeEntry(k: nat) | GoOn

  datatype State = State(subs: seq<Sub>, sem: nat, threads: seq<Pc>)

  function Init(subclasses: nat, threads: nat): State {
    State(seq(subclasses, _ => Sub(false, 0, 0, 0, 0)), MAX_SUBCLASS_THREADS, seq(threads, _ => Idle))
  }

  function Goto(s: State, u: nat, pc: Pc): State
    requires u < |s.threads|
  {
    s.(threads := s.threads[u := pc])
  }

  function With(s: State, u: nat, k: nat, sub: Sub, pc: Pc): State
    requires u < |s.threads| && k < |s.subs|
  {
    s.(subs := s.subs[k := sub], threads := s.threads[u := pc])
  }

  function Start(s: State, u: nat, choice: Choice): State
    requires u < |s.threads|
  {
    match choice
    case PushJob(k) =>
      if k < |s.subs| then With(s, u, k, s.subs[k].(queued := s.subs[k].queued + 1), Announce(k)) else s
    case TakeEntry(k) =>
      if k < |s.subs| && s.subs[k].announced > 0
      then With(s, u, k, s.subs[k].(announced := s.subs[k].announced - 1), Allow(k)) else s
    case GoOn => s
  }

  function Step(s: State, u: nat, choice: Choice): State {
    if u >= |s.threads| || s.threads[u].Failed? then s
    else if s.threads[u].Idle? then Start(s, u, choice)
    else if s.threads[u].k >= |s.subs| then s
    else
      var k := s.threads[u].k;
      var sub := s.subs[k];
      match s.threads[u]
      case Announce(_) => With(s, u, k, sub.(announced := sub.announced + 1), Idle)
      case Allow(_) => With(s, u, k, sub.(allowed := sub.allowed + 1), TryLock(k))
      case TryLock(_) => if sub.locked then Goto(s, u, Idle) else With(s, u, k, sub.(locked := true), Acquire(k, 0))
      case Acquire(_, got) =>
        if s.sem == 0 then s
        else Goto(s.(sem := s.sem - 1), u, if got + 1 < Need(k) then Acquire(k, got + 1) else Loop(k))
      case Loop(_) => Goto(s, u, LoopTest(k, sub.processed))
      case LoopTest(_, p) => Goto(s, u, if p < sub.allowed then Pop(k) else Unlock(k))
      case Pop(_) => if sub.queued == 0 then Goto(s, u, Failed) else With(s, u, k, sub.(queued := sub.queued - 1), Work(k))
      case Work(_) => Goto(s, u, Count(k))
      case Count(_) => With(s, u, k, sub.(processed := sub.processed + 1), Loop(k))
      case Unlock(_) => With(s, u, k, sub.(locked := false), Recheck(k))
      case Recheck(_) => Goto(s, u, RecheckTest(k, sub.processed))
      case RecheckTest(_, p) => Goto(s, u, if p < sub.allowed then Relock(k) else Release(k, Need(k)))
      case Relock(_) => if sub.locked then Goto(s, u, Release(k, Need(k))) else With(s, u, k, sub.(locked := true), Loop(k))
      case Release(_, left) => Goto(s.(sem := s.sem + 1), u, if left > 1 then Release(k, left - 1) else Idle)
  }

  function Run(s: State, sched: seq<(nat, Choice)>): State
    decreases sched
  {
    if sched == [] then s else Run(Step(s, sched[0].0, sched[0].1), sched[1..])
  }

  ghost predicate Reachable(s: State) {
    exists subclasses: nat, threads: nat, sched: seq<(nat, Choice)> :: s == Run(Init(subclasses, threads), sched)
  }

  // ----- what a thread holds -----

  /** Has its permits and works on the jobs of subclass k. */
  predicate Serves(pc: Pc, k: nat) {
    (pc.Loop? || pc.LoopTest? || pc.Pop? || pc.Work? || pc.Count? || pc.Unlock?) && pc.k == k
  }

  predicate HasLock(pc: Pc, k: nat) { Serves(pc, k) || (pc.Acquire? && pc.k == k) }

  /** Has popped a job of k and not yet counted it. */
  predicate InHand(pc: Pc, k: nat) { (pc.Work? || pc.Count?) && pc.k == k }

  /** Between the two pushes, or between taking the entry and counting it. */
  predicate Midway(pc: Pc, k: nat) { (pc.Announce? || pc.Allow?) && pc.k == k }

  /** Will look at the counters of k again, or try to lock it. */
  predicate Watches(pc: Pc, k: nat) {
    (pc.TryLock? || pc.Recheck? || pc.RecheckTest? || pc.Relock?) && pc.k == k
  }

  function Permits(pc: Pc): nat {
    match pc
    case Acquire(_, got) => got
    case Loop(k) => Need(k)
    case LoopTest(k, _) => Need(k)
    case Pop(k) => Need(k)
    case Work(k) => Need(k)
    case Count(k) => Need(k)
    case Unlock(k) => Need(k)
    case Recheck(k) => Need(k)
    case RecheckTest(k, _) => Need(k)
    case Relock(k) => Need(k)
    case Release(_, left) => left
    case _ => 0
  }

  function Total(threads: seq<Pc>): nat {
    if threads == [] then 0 else Permits(threads[0]) + Total(threads[1..])
  }

  // ----- invariant -----

  ghost predicate ThreadOk(s: State, pc: Pc) {
    && !pc.Failed?
    && (!pc.Idle? ==> pc.k < |s.subs|)
    && match pc
       case Acquire(k, got) => got < Need(k)
       case LoopTest(k, p) => p == s.subs[k].processed
       case Pop(k) => s.subs[k].processed < s.subs[k].allowed
       case Work(k) => s.subs[k].processed < s.subs[k].allowed
       case Count(k) => s.subs[k].processed < s.subs[k].allowed
       case RecheckTest(k, p) => p <= s.subs[k].processed
       case Release(_, left) => left > 0
       case _ => true
  }

  ghost predicate SubOk(s: State, k: nat)
    requires k < |s.subs|
  {
    var sub := s.subs[k];
    && sub.processed <= sub.allowed
    && |Who(s.threads, pc => HasLock(pc, k))| == Ind(sub.locked)
    // every job pushed for k is announced, being announced or allowed, and is processed once
    && sub.queued + |Who(s.threads, pc => InHand(pc, k))|
       == sub.announced + |Who(s.threads, pc => Midway(pc, k))| + sub.allowed - sub.processed
    && (!sub.locked && sub.processed < sub.allowed ==> exists u :: 0 <= u < |s.threads| && Watches(s.threads[u], k))
  }

  ghost predicate Inv(s: State) {
    && (forall u :: 0 <= u < |s.threads| ==> ThreadOk(s, s.threads[u]))
    && (forall k :: 0 <= k < |s.subs| ==> SubOk(s, k))
    && s.sem + Total(s.threads) == MAX_SUBCLASS_THREADS
  }

  // ----- counting lemmas -----

  lemma {:induction false} TotalUpdate(threads: seq<Pc>, u: nat, pc: Pc)
    requires u < |threads|
    ensures Total(threads[u := pc]) == Total(threads) - Permits(threads[u]) + Permits(pc)
  {
    if u > 0 {
      TotalUpdate(threads[1..], u - 1, pc);
      assert threads[u := pc][1..] == threads[1..][u - 1 := pc];
    } else {
      assert threads[0 := pc][1..] == threads[1..];
    }
  }

  lemma {:induction false} TotalAtLeast(threads: seq<Pc>, u: nat, w: nat)
    requires u < |threads| && w < |threads|
    ensures Total(threads) >= if u == w then Permits(threads[u]) else Permits(threads[u]) + Permits(threads[w])
  {
    if u > 0 && w > 0 { TotalAtLeast(threads[1..], u - 1, w - 1); }
    else if u > 0 { TotalAtLeast(threads[1..], u - 1, u - 1); }
    else if w > 0 { TotalAtLeast(threads[1..], w - 1, w - 1); }
  }

  lemma LockIsMine(s: State, u: nat, w: nat, k: nat)
    requires Inv(s) && u < |s.threads| && w < |s.threads| && k < |s.subs| && HasLock(s.threads[u], k)
    ensures s.subs[k].locked
    ensures u != w ==> !HasLock(s.threads[w], k)
  {
    assert SubOk(s, k);
    WhoOne(s.threads, u, pc => HasLock(pc, k));
    if u != w && HasLock(s.threads[w], k) { WhoTwo(s.threads, u, w, pc => HasLock(pc, k)); }
  }

  // ----- every step keeps the invariant -----

  /** Only thread u moves, and only the counters of subclass k and the semaphore change. */
  ghost predicate Local(s: State, s': State, u: nat, k: nat) {
    && u < |s.threads| == |s'.threads| && k < |s.subs| == |s'.subs|
    && s'.threads == s.threads[u := s'.threads[u]] && s'.subs == s.subs[k := s'.subs[k]]
    && !s.threads[u].Failed? && (s.threads[u].Idle? || s.threads[u].k == k)
    && !s'.threads[u].Failed? && (s'.threads[u].Idle? || s'.threads[u].k == k)
  }

  lemma OtherSubs(s: State, s': State, u: nat, k: nat, j: nat)
    requires Inv(s) && Local(s, s', u, k) && j < |s.subs| && j != k
    ensures SubOk(s', j)
  {
    assert SubOk(s, j);
    WhoCard(s.threads, u, s'.threads[u], pc => HasLock(pc, j));
    WhoCard(s.threads, u, s'.threads[u], pc => InHand(pc, j));
    WhoCard(s.threads, u, s'.threads[u], pc => Midway(pc, j));
    if !s.subs[j].locked && s.subs[j].processed < s.subs[j].allowed {
      var w :| 0 <= w < |s.threads| && Watches(s.threads[w], j);
      assert Watches(s'.threads[w], j);
    }
  }

  lemma LocalOk(s: State, s': State, u: nat, k: nat)
    requires Inv(s) && Local(s, s', u, k) && ThreadOk(s', s'.threads[u])
    requires s'.sem - s.sem == Permits(s.threads[u]) - Permits(s'.threads[u])
    requires var pc, pc', sub, sub' := s.threads[u], s'.threads[u], s.subs[k], s'.subs[k];
             && Ind(HasLock(pc', k)) - Ind(HasLock(pc, k)) == Ind(sub'.locked) - Ind(sub.locked)
             && sub'.processed <= sub'.allowed && sub.allowed <= sub'.allowed && sub.processed <= sub'.processed
             && (sub.processed == sub'.processed || HasLock(pc, k))
             && sub'.queued - sub.queued + Ind(InHand(pc', k)) - Ind(InHand(pc, k))
                == sub'.announced - sub.announced + Ind(Midway(pc', k)) - Ind(Midway(pc, k))
                   + sub'.allowed - sub.allowed - sub'.processed + sub.processed
             && (Watches(pc', k) || sub'.locked || sub'.processed >= sub'.allowed
                 || (!Watches(pc, k) && !sub.locked && sub.processed < sub.allowed))
    ensures Inv(s')
  {
    TotalUpdate(s.threads, u, s'.threads[u]);
    forall w | 0 <= w < |s.threads| ensures ThreadOk(s', s'.threads[w]) {
      if w != u {
        assert ThreadOk(s, s.threads[w]);
        if HasLock(s.threads[u], k) { LockIsMine(s, u, w, k); }
      }
    }
    forall j | 0 <= j < |s.subs| ensures SubOk(s', j) {
      if j != k { OtherSubs(s, s', u, k, j); }
      else {
        assert SubOk(s, k);
        WhoCard(s.threads, u, s'.threads[u], pc => HasLock(pc, k));
        WhoCard(s.threads, u, s'.threads[u], pc => InHand(pc, k));
        WhoCard(s.threads, u, s'.threads[u], pc => Midway(pc, k));
        if !s'.subs[k].locked && s'.subs[k].processed < s'.subs[k].allowed {
          if Watches(s'.threads[u], k) {
          } else {
            var w :| 0 <= w < |s.threads| && Watches(s.threads[w], k);
            assert Watches(s'.threads[w], k);
          }
        }
      }
    }
  }

  /** The thread that found processed_jobs < allowed_to_run_jobs finds a job in the queue. */
  lemma PopFinds(s: State, u: nat)
    requires Inv(s) && u < |s.threads| && s.threads[u].Pop?
    ensures s.threads[u].k < |s.subs| && s.subs[s.threads[u].k].queued > 0
  {
    var k := s.threads[u].k;
    assert ThreadOk(s, s.threads[u]) && SubOk(s, k);
    forall w | 0 <= w < |s.threads| ensures !InHand(s.threads[w], k) { LockIsMine(s, u, w, k); }
    assert Who(s.threads, pc => InHand(pc, k)) == {};
  }

  lemma StartOk(s: State, u: nat, choice: Choice)
    requires Inv(s) && u < |s.threads| && s.threads[u].Idle? && !choice.GoOn? && choice.k < |s.subs|
    requires choice.TakeEntry? ==> s.subs[choice.k].announced > 0
    ensures Inv(Step(s, u, choice))
  {
    assert SubOk(s, choice.k);
    LocalOk(s, Step(s, u, choice), u, choice.k);
  }

  lemma ServeOk(s: State, u: nat, choice: Choice)
    requires Inv(s) && u < |s.threads| && !s.threads[u].Idle? && !s.threads[u].Failed?
    requires HasLock(s.threads[u], s.threads[u].k)
    ensures Inv(Step(s, u, choice))
  {
    var pc := s.threads[u];
    assert ThreadOk(s, pc) && SubOk(s, pc.k);
    LockIsMine(s, u, u, pc.k);
    if pc.Acquire? { AcquireOk(s, u, choice); }
    else {
      if pc.Pop? { PopFinds(s, u); }
      LocalOk(s, Step(s, u, choice), u, pc.k);
    }
  }

  lemma AcquireOk(s: State, u: nat, choice: Choice)
    requires Inv(s) && u < |s.threads| && s.threads[u].Acquire?
    ensures Inv(Step(s, u, choice))
  {
    var pc := s.threads[u];
    assert ThreadOk(s, pc) && SubOk(s, pc.k);
    LockIsMine(s, u, u, pc.k);
    if Step(s, u, choice) != s { LocalOk(s, Step(s, u, choice), u, pc.k); }
  }

  lemma EnterOk(s: State, u: nat, choice: Choice)
    requires Inv(s) && u < |s.threads|
    requires s.threads[u].Announce? || s.threads[u].Allow? || s.threads[u].TryLock? || s.threads[u].Relock?
    ensures Inv(Step(s, u, choice))
  {
    var pc := s.threads[u];
    assert ThreadOk(s, pc) && SubOk(s, pc.k);
    LocalOk(s, Step(s, u, choice), u, pc.k);
  }

  lemma LeaveOk(s: State, u: nat, choice: Choice)
    requires Inv(s) && u < |s.threads| && (s.threads[u].Recheck? || s.threads[u].RecheckTest? || s.threads[u].Release?)
    ensures Inv(Step(s, u, choice))
  {
    var pc := s.threads[u];
    assert ThreadOk(s, pc) && SubOk(s, pc.k);
    LocalOk(s, Step(s, u, choice), u, pc.k);
  }

  lemma StepOk(s: State, u: nat, choice: Choice)
    requires Inv(s)
    ensures Inv(Step(s, u, choice))
  {
    if u < |s.threads| {
      var pc := s.threads[u];
      assert ThreadOk(s, pc);
      if pc.Idle? {
        if Step(s, u, choice) != s { StartOk(s, u, choice); }
      } else if HasLock(pc, pc.k) { ServeOk(s, u, choice); }
      else if pc.Recheck? || pc.RecheckTest? || pc.Release? { LeaveOk(s, u, choice); }
      else { EnterOk(s, u, choice); }
    }
  }

  // ----- whole runs -----

  lemma {:induction false} IdleTotal(n: nat)
    ensures Total(seq(n, _ => Idle)) == 0
  {
    if n > 0 {
      assert seq(n, _ => Idle)[1..] == seq(n - 1, _ => Idle);
      IdleTotal(n - 1);
    }
  }

  lemma InitOk(subclasses: nat, threads: nat)
    ensures Inv(Init(subclasses, threads))
  {
    var s := Init(subclasses, threads);
    IdleTotal(threads);
    assert s.threads == seq(threads, _ => Idle);
    forall k | 0 <= k < |s.subs| ensures SubOk(s, k) {
      assert Who(s.threads, pc => HasLock(pc, k)) == {};
      assert Who(s.threads, pc => InHand(pc, k)) == {};
      assert Who(s.threads, pc => Midway(pc, k)) == {};
    }
  }

  lemma {:induction false} RunOk(s: State, sched: seq<(nat, Choice)>)
    requires Inv(s)
    ensures Inv(Run(s, sched))
    decreases sched
  {
    if sched != [] {
      StepOk(s, sched[0].0, sched[0].1);
      RunOk(Step(s, sched[0].0, sched[0].1), sched[1..]);
    }
  }

  lemma ReachableOk(s: State)
    requires Reachable(s)
    ensures Inv(s)
  {
    var subclasses: nat, threads: nat, sched: seq<(nat, Choice)> :| s == Run(Init(subclasses, threads), sched);
    InitOk(subclasses, threads);
    RunOk(Init(subclasses, threads), sched);
  }

  /** At most one thread serves a subclass, and while one serves the exclusive subclass no other thread
      serves any. */
  lemma OneServer(s: State, u: nat, w: nat, k: nat, j: nat)
    requires Reachable(s) && u < |s.threads| && w < |s.threads| && u != w && k < |s.subs|
    requires Serves(s.threads[u], k) && Serves(s.threads[w], j)
    ensures k != j && k != EXCLUSIVE
  {
    ReachableOk(s);
    LockIsMine(s, u, w, k);
    TotalAtLeast(s.threads, u, w);
  }

  /** When a subclass is unlocked with jobs allowed and not processed, some thread is in the window in
      which it will look at the counters again or try to lock it. */
  lemma NoJobStranded(s: State, k: nat)
    requires Reachable(s) && k < |s.subs| && !s.subs[k].locked && s.subs[k].processed < s.subs[k].allowed
    ensures exists u :: 0 <= u < |s.threads| && Watches(s.threads[u], k)
  {
    ReachableOk(s);
    assert SubOk(s, k);
  }

  ghost predicate AtRest(s: State, k: nat) {
    k < |s.subs| && s.subs[k].announced == 0 && forall u :: 0 <= u < |s.threads| ==> s.threads[u].Idle?
  }

  /** When no thread is at work and no entry is left in the queue of the class, every job pushed for a
      subclass has been processed. */
  lemma QuiescentIsDone(s: State, k: nat)
    requires Reachable(s) && AtRest(s, k)
    ensures s.subs[k].queued == 0 && s.subs[k].processed == s.subs[k].allowed && !s.subs[k].locked
    ensures s.sem == MAX_SUBCLASS_THREADS
  {
    ReachableOk(s);
    assert SubOk(s, k);
    assert Who(s.threads, pc => HasLock(pc, k)) == {};
    assert Who(s.threads, pc => InHand(pc, k)) == {};
    assert Who(s.threads, pc => Midway(pc, k)) == {};
    assert s.threads == seq(|s.threads|, _ => Idle);
    IdleTotal(|s.threads|);
  }

  // ----- the jobs pushed and the jobs run -----

  /** How often a job was pushed for a subclass, by the calls accepted, and how often process_one_job was run for it. */
  datatype Log = Log(pushed: nat, run: nat)

  function LogBy(s: State, u: nat, choice: Choice, k: nat, log: Log): Log {
    if u >= |s.threads| then log
    else if s.threads[u].Idle? && choice == PushJob(k) then log.(pushed := log.pushed + 1)
    else if s.threads[u] == Work(k) then log.(run := log.run + 1)
    else log
  }

  function LogIn(s: State, sched: seq<(nat, Choice)>, k: nat, log: Log): Log
    decreases sched
  {
    if sched == [] then log
    else LogIn(Step(s, sched[0].0, sched[0].1), sched[1..], k, LogBy(s, sched[0].0, sched[0].1, k, log))
  }

  predicate AtWork(pc: Pc, k: nat) { pc == Work(k) }

  /** Every job pushed is in the queue of its subclass, about to be run, or was run. */
  ghost predicate JobsOk(s: State, k: nat, log: Log) {
    k < |s.subs| && log.pushed == s.subs[k].queued + |Who(s.threads, pc => AtWork(pc, k))| + log.run
  }

  /** A step of thread u to pc that changes the counters of one subclass. */
  lemma JobsOn(s: State, s': State, u: nat, pc: Pc, k: nat, log: Log, log': Log)
    requires JobsOk(s, k, log) && u < |s.threads| && s'.threads == s.threads[u := pc] && |s'.subs| == |s.subs|
    requires log'.pushed - log.pushed - log'.run + log.run
             == s'.subs[k].queued - s.subs[k].queued + Ind(AtWork(pc, k)) - Ind(AtWork(s.threads[u], k))
    ensures JobsOk(s', k, log')
  {
    WhoCard(s.threads, u, pc, pc => AtWork(pc, k));
  }

  lemma JobsStep(s: State, u: nat, choice: Choice, k: nat, log: Log)
    requires Inv(s) && JobsOk(s, k, log)
    ensures JobsOk(Step(s, u, choice), k, LogBy(s, u, choice, k, log))
  {
    if u < |s.threads| {
      assert ThreadOk(s, s.threads[u]);
      var s' := Step(s, u, choice);
      JobsOn(s, s', u, s'.threads[u], k, log, LogBy(s, u, choice, k, log));
    }
  }

  lemma {:induction false} JobsRun(s: State, sched: seq<(nat, Choice)>, k: nat, log: Log)
    requires Inv(s) && JobsOk(s, k, log)
    ensures JobsOk(Run(s, sched), k, LogIn(s, sched, k, log))
    decreases sched
  {
    if sched != [] {
      var (u, choice) := sched[0];
      JobsStep(s, u, choice, k, log);
      StepOk(s, u, choice);
      JobsRun(Step(s, u, choice), sched[1..], k, LogBy(s, u, choice, k, log));
    }
  }

  /** In every run, the jobs pushed for a subclass are those in its queue, those about to be run and those that were
      run: none is dropped, and none is run twice. */
  lemma EveryJobRuns(subclasses: nat, threads: nat, sched: seq<(nat, Choice)>, k: nat)
    requires k < subclasses
    ensures JobsOk(Run(Init(subclasses, threads), sched), k, LogIn(Init(subclasses, threads), sched, k, Log(0, 0)))
  {
    var s := Init(subclasses, threads);
    InitOk(subclasses, threads);
    assert Who(s.threads, pc => AtWork(pc, k)) == {};
    JobsRun(s, sched, k, Log(0, 0));
  }

  /** At rest all jobs pushed have been run. */
  lemma RestHasRun(subclasses: nat, threads: nat, sched: seq<(nat, Choice)>, k: nat)
    requires k < subclasses
    requires AtRest(Run(Init(subclasses, threads), sched), k)
    ensures var log := LogIn(Init(subclasses, threads), sched, k, Log(0, 0)); log.run == log.pushed
  {
    EveryJobRuns(subclasses, threads, sched, k);
    var s := Run(Init(subclasses, threads), sched);
    QuiescentIsDone(s, k);
    assert Who(s.threads, pc => AtWork(pc, k)) == {};
  }

  /** The assertion that mpq_pop_nw returned a job never fails. */
  lemma PopNeverFails(s: State, u: nat)
    requires Reachable(s) && u < |s.threads|
    ensures !s.threads[u].Failed?
  {
    ReachableOk(s);
    assert ThreadOk(s, s.threads[u]);
  }
}
