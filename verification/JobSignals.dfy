/** What becomes of a signal, over whole runs: whoever sends it, it is pending until its handler is started, and no
    handler is started for a signal that nobody sent. */
module JobSignals {
  import opened Counting
  import opened JobEngine
  import opened JobEngineSafety

  // ----- history of a run -----

  /** The agent was at such a place all the time, from s on. */
  ghost predicate Stays(s: State, sched: seq<Action>, i: nat, at: Pc -> bool)
    decreases sched
  {
    && i < |s.agents| && at(s.agents[i])
    && (sched != [] ==> Stays(Step(s, sched[0]), sched[1..], i, at))
  }

  /** The step starts the handler of the signal. */
  ghost predicate Starts(s: State, a: Action, sig: Sig) {
    a.Move? && a.i < |s.agents| && s.agents[a.i] != Running(sig) && Step(s, a).agents[a.i] == Running(sig)
  }

  /** The handler of the signal was started during the run. */
  ghost predicate Started(s: State, sched: seq<Action>, sig: Sig)
    decreases sched
  {
    sched != [] && (Starts(s, sched[0], sig) || Started(Step(s, sched[0]), sched[1..], sig))
  }

  ghost predicate PendingOrStarted(s: State, sched: seq<Action>, sig: Sig) {
    sig in Run(s, sched).flags.pending || Started(s, sched, sig)
  }

  /** Where an agent is changes only by its own steps. */
  lemma OthersStay(s: State, a: Action, i: nat)
    requires i < |s.agents| && (a.Consume? || a.i != i)
    ensures i < |Step(s, a).agents| && Step(s, a).agents[i] == s.agents[i]
  {
    if a.Move? && a.i < |s.agents| {
      if IsCas(s.agents[a.i]) { CasStay(s, a.i, i); }
      else if IsFlag(s.agents[a.i]) { FlagStay(s, a.i, i); }
    }
  }

  lemma CasStay(s: State, j: nat, i: nat)
    requires i < |s.agents| && j < |s.agents| && i != j && IsCas(s.agents[j])
    ensures |Cas(s, j).agents| == |s.agents| && Cas(s, j).agents[i] == s.agents[i]
  {
  }

  lemma FlagStay(s: State, j: nat, i: nat)
    requires i < |s.agents| && j < |s.agents| && i != j && IsFlag(s.agents[j])
    ensures |Flag(s, j).agents| == |s.agents| && Flag(s, j).agents[i] == s.agents[i]
  {
  }

  // ----- a pending signal waits for its handler -----

  lemma PendingStep(s: State, a: Action, sig: Sig)
    requires Inv(s) && sig in s.flags.pending
    ensures sig in Step(s, a).flags.pending || Starts(s, a, sig)
  {
    if a.Move? && a.i < |s.agents| && sig !in Step(s, a).flags.pending {
      assert AgentOk(s, a.i, s.agents[a.i]);
      ClearsOnlyAt(s, a.i, a.choice, sig);
    }
  }

  /** A pending signal stays so until its handler is started. */
  lemma {:induction false} PendingWaits(s: State, sched: seq<Action>, sig: Sig)
    requires Inv(s) && sig in s.flags.pending
    ensures PendingOrStarted(s, sched, sig)
    decreases sched
  {
    if sched != [] {
      PendingStep(s, sched[0], sig);
      StepOk(s, sched[0]);
      if sig in Step(s, sched[0]).flags.pending { PendingWaits(Step(s, sched[0]), sched[1..], sig); }
    }
  }

  // ----- job_send_signals -----

  /** Before the signals are set. */
  predicate Sending(pc: Pc, sigs: set<Sig>) {
    (pc.SendTest? || pc.SendSeen? || pc.SendRead? || pc.SendCas? || pc.SendOr?) && pc.sigs == sigs
  }

  function SendingOf(sigs: set<Sig>): Pc -> bool { (pc: Pc) => Sending(pc, sigs) }

  /** A call leaves these places only with its signals set. */
  lemma SendingStep(s: State, a: Action, i: nat, sigs: set<Sig>, sig: Sig)
    requires Inv(s) && i < |s.agents| && Sending(s.agents[i], sigs) && sig in sigs
    ensures i < |Step(s, a).agents|
    ensures Sending(Step(s, a).agents[i], sigs) || sig in Step(s, a).flags.pending
  {
    if a.Move? && a.i == i { SendingMove(s, i, a.choice, sigs, sig); } else { OthersStay(s, a, i); }
  }

  lemma SendingMove(s: State, i: nat, choice: Choice, sigs: set<Sig>, sig: Sig)
    requires Inv(s) && i < |s.agents| && Sending(s.agents[i], sigs) && sig in sigs
    ensures i < |Step(s, Move(i, choice)).agents|
    ensures Sending(Step(s, Move(i, choice)).agents[i], sigs) || sig in Step(s, Move(i, choice)).flags.pending
  {
    if s.agents[i].SendCas? { SendingCas(s, i, sig); }
    else if s.agents[i].SendOr? { SendingOr(s, i, sig); }
    else { SendingRead(s, i, choice, sig); NotFailed(s, i, choice); }
  }

  lemma NotFailed(s: State, i: nat, choice: Choice)
    requires Inv(s) && i < |s.agents| && IsRead(s.agents[i])
    ensures Read(s, i, s.agents[i], choice) != Failed
  {
    StepOk(s, Move(i, choice));
    var s' := Goto(s, i, Read(s, i, s.agents[i], choice));
    assert AgentOk(s', i, s'.agents[i]);
  }

  lemma SendingCas(s: State, i: nat, sig: Sig)
    requires i < |s.agents| && s.agents[i].SendCas? && sig in s.agents[i].sigs
    ensures Sending(Cas(s, i).agents[i], s.agents[i].sigs) || sig in Cas(s, i).flags.pending
  {
  }

  lemma SendingOr(s: State, i: nat, sig: Sig)
    requires i < |s.agents| && s.agents[i].SendOr? && sig in s.agents[i].sigs
    ensures sig in Flag(s, i).flags.pending
  {
  }

  lemma SendingRead(s: State, i: nat, choice: Choice, sig: Sig)
    requires i < |s.agents| && (s.agents[i].SendTest? || s.agents[i].SendSeen? || s.agents[i].SendRead?)
    requires sig in s.agents[i].sigs
    ensures var pc := Read(s, i, s.agents[i], choice);
            pc.Failed? || Sending(pc, s.agents[i].sigs) || sig in s.flags.pending
  {
  }

  lemma {:induction false} SendingWaits(s: State, sched: seq<Action>, i: nat, sigs: set<Sig>, sig: Sig)
    requires Inv(s) && i < |s.agents| && Sending(s.agents[i], sigs) && sig in sigs
    ensures Stays(s, sched, i, SendingOf(sigs)) || PendingOrStarted(s, sched, sig)
    decreases sched
  {
    if sched != [] {
      var s' := Step(s, sched[0]);
      SendingStep(s, sched[0], i, sigs, sig);
      StepOk(s, sched[0]);
      if Sending(s'.agents[i], sigs) { SendingWaits(s', sched[1..], i, sigs, sig); }
      else { PendingWaits(s', sched[1..], sig); }
    }
  }

  /** A signal sent is not lost: whatever everybody does after an owner has called job_send_signals, either the call
      has not got to setting the signals, or each of them is pending or has had its handler started since. */
  lemma SentIsPending(s: State, i: nat, sigs: set<Sig>, sched: seq<Action>, sig: Sig)
    requires Reachable(s) && i < |s.agents| && s.agents[i] == Own && FINISH !in sigs && sig in sigs
    ensures var s1 := Step(s, Move(i, Send(sigs)));
            Stays(s1, sched, i, SendingOf(sigs)) || PendingOrStarted(s1, sched, sig)
  {
    ReachableOk(s);
    StepOk(s, Move(i, Send(sigs)));
    SendingWaits(Step(s, Move(i, Send(sigs))), sched, i, sigs, sig);
  }

  /** The signals that the creator of the job has set are not lost either. */
  lemma CreatedIsPending(allowed: set<Sig>, classes: map<Sig, Cls>, pending: set<Sig>, owners: nat, sched: seq<Action>, sig: Sig)
    requires FINISH in allowed && FINISH !in pending && sig in pending
    ensures PendingOrStarted(Init(allowed, classes, pending, owners), sched, sig)
  {
    InitOk(allowed, classes, pending, owners);
    PendingWaits(Init(allowed, classes, pending, owners), sched, sig);
  }

  /** Nobody is at work on the job, and no queue holds an entry for it. */
  ghost predicate AtRest(s: State) {
    s.entries == multiset{} && forall j :: 0 <= j < |s.agents| ==> s.agents[j].Own? || s.agents[j].Gone?
  }

  /** When everybody has come to rest, every signal that was sent and is allowed has had its handler started. */
  lemma SentIsStarted(s: State, i: nat, sigs: set<Sig>, sched: seq<Action>, sig: Sig)
    requires Reachable(s) && i < |s.agents| && s.agents[i] == Own && FINISH !in sigs && sig in sigs
    requires Served(Run(Step(s, Move(i, Send(sigs))), sched), sig)
    ensures Started(Step(s, Move(i, Send(sigs))), sched, sig)
  {
    ReachableOk(s);
    StepOk(s, Move(i, Send(sigs)));
    SentIsPending(s, i, sigs, sched, sig);
    RestHasStarted(Step(s, Move(i, Send(sigs))), i, sigs, sched, sig);
  }

  /** The job is at rest, and not over, and the signal is allowed. */
  ghost predicate Served(s: State, sig: Sig) {
    AtRest(s) && sig in s.allowed && !s.destroyed
  }

  lemma RestHasStarted(s: State, i: nat, sigs: set<Sig>, sched: seq<Action>, sig: Sig)
    requires Inv(s) && Served(Run(s, sched), sig)
    requires Stays(s, sched, i, SendingOf(sigs)) || PendingOrStarted(s, sched, sig)
    ensures Started(s, sched, sig)
  {
    RunOk(s, sched);
    NonePending(Run(s, sched));
    if Stays(s, sched, i, SendingOf(sigs)) {
      StaysLast(s, sched, i, SendingOf(sigs));
      NotSending(Run(s, sched), i, sigs);
    }
  }

  lemma NotSending(s: State, i: nat, sigs: set<Sig>)
    requires AtRest(s) && i < |s.agents|
    ensures !SendingOf(sigs)(s.agents[i])
  {
  }

  lemma {:induction false} StaysLast(s: State, sched: seq<Action>, i: nat, at: Pc -> bool)
    requires Stays(s, sched, i, at)
    ensures i < |Run(s, sched).agents| && at(Run(s, sched).agents[i])
    decreases sched
  {
    if sched != [] { StaysLast(Step(s, sched[0]), sched[1..], i, at); }
  }

  lemma NonePending(s: State)
    requires Inv(s) && AtRest(s) && !s.destroyed
    ensures forall sig :: sig in s.flags.pending ==> sig !in s.allowed
  {
    assert Who(s.agents, HasLock) == {};
    assert forall sig :: sig in s.flags.pending && sig in s.allowed ==> sig in s.flags.pending * s.allowed;
  }

  // ----- the result of a handler -----

  function ResultOf(again: set<Sig>, complete: bool): Pc -> bool { (pc: Pc) => pc == RunResult(again, complete) }

  lemma ResultStep(s: State, a: Action, i: nat, again: set<Sig>, complete: bool)
    requires Inv(s) && i < |s.agents| && s.agents[i] == RunResult(again, complete)
    ensures i < |Step(s, a).agents|
    ensures Step(s, a).agents[i] == RunResult(again, complete)
         || (again <= Step(s, a).flags.pending && (complete ==> Step(s, a).agents[i] == RunComplete))
  {
    if a.Move? && a.i == i { assert Step(s, a) == Flag(s, i); } else { OthersStay(s, a, i); }
  }

  lemma {:induction false} ResultWaits(s: State, sched: seq<Action>, i: nat, again: set<Sig>, complete: bool, sig: Sig)
    requires Inv(s) && i < |s.agents| && s.agents[i] == RunResult(again, complete) && sig in again
    ensures Stays(s, sched, i, ResultOf(again, complete)) || PendingOrStarted(s, sched, sig)
    decreases sched
  {
    if sched != [] {
      var s' := Step(s, sched[0]);
      ResultStep(s, sched[0], i, again, complete);
      StepOk(s, sched[0]);
      if s'.agents[i] == RunResult(again, complete) { ResultWaits(s', sched[1..], i, again, complete, sig); }
      else { PendingWaits(s', sched[1..], sig); }
    }
  }

  /** The signals that a handler returns, to be run for again, are not lost. */
  lemma ReturnedIsPending(s: State, i: nat, sig0: Sig, again: set<Sig>, complete: bool, sched: seq<Action>, sig: Sig)
    requires Reachable(s) && i < |s.agents| && s.agents[i] == Running(sig0) && sig0 != FINISH && FINISH !in again && sig in again
    ensures var s1 := Step(s, Move(i, Return(again, complete)));
            Stays(s1, sched, i, ResultOf(again, complete)) || PendingOrStarted(s1, sched, sig)
  {
    ReachableOk(s);
    StepOk(s, Move(i, Return(again, complete)));
    ResultWaits(Step(s, Move(i, Return(again, complete))), sched, i, again, complete, sig);
  }

  // ----- completion -----

  predicate Completing(pc: Pc) { pc.RunComplete? || (pc.RunResult? && pc.complete) }

  lemma CompletingStep(s: State, a: Action, i: nat)
    requires i < |s.agents|
    ensures i < |Step(s, a).agents|
    ensures Completing(s.agents[i]) ==> Completing(Step(s, a).agents[i]) || Step(s, a).flags.completed
  {
    if Completing(s.agents[i]) && a.Move? && a.i == i { assert Step(s, a) == Flag(s, i); }
    else if a.Consume? || a.i != i { OthersStay(s, a, i); }
    else { AgentsStay(s, a); }
  }

  lemma AgentsStay(s: State, a: Action)
    ensures |Step(s, a).agents| >= |s.agents|
  {
  }

  lemma CompletedStays(s: State, a: Action)
    requires Inv(s) && s.flags.completed
    ensures Step(s, a).flags.completed
  {
    if a.Move? && a.i < |s.agents| { assert AgentOk(s, a.i, s.agents[a.i]); }
  }

  lemma {:induction false} CompletedForGood(s: State, sched: seq<Action>)
    requires Inv(s) && s.flags.completed
    ensures Run(s, sched).flags.completed
    decreases sched
  {
    if sched != [] {
      CompletedStays(s, sched[0]);
      StepOk(s, sched[0]);
      CompletedForGood(Step(s, sched[0]), sched[1..]);
    }
  }

  lemma {:induction false} CompletingWaits(s: State, sched: seq<Action>, i: nat)
    requires Inv(s) && i < |s.agents| && Completing(s.agents[i])
    ensures Stays(s, sched, i, Completing) || Run(s, sched).flags.completed
    decreases sched
  {
    if sched != [] {
      CompletingStep(s, sched[0], i);
      StepOk(s, sched[0]);
      if Completing(Step(s, sched[0]).agents[i]) { CompletingWaits(Step(s, sched[0]), sched[1..], i); }
      else { CompletedForGood(Step(s, sched[0]), sched[1..]); }
    }
  }

  /** A handler that returns JOB_COMPLETED completes the job, for good. */
  lemma CompletedByReturn(s: State, i: nat, sig0: Sig, again: set<Sig>, sched: seq<Action>)
    requires Reachable(s) && i < |s.agents| && s.agents[i] == Running(sig0) && sig0 != FINISH && FINISH !in again
    ensures var s1 := Step(s, Move(i, Return(again, true)));
            Stays(s1, sched, i, Completing) || Run(s1, sched).flags.completed
  {
    ReachableOk(s);
    StepOk(s, Move(i, Return(again, true)));
    CompletingWaits(Step(s, Move(i, Return(again, true))), sched, i);
  }

  // ----- nothing comes from nowhere -----

  /** What the callers have asked for: the signals sent or returned by accepted calls, and whether a handler has
      returned JOB_COMPLETED. */
  datatype Asked = Asked(sigs: set<Sig>, complete: bool)

  function AskedBy(s: State, a: Action, was: Asked): Asked {
    if a.Consume? || a.i >= |s.agents| then was
    else if s.agents[a.i].Own? && a.choice.Send? then was.(sigs := was.sigs + a.choice.sigs)
    else if s.agents[a.i].Running? && a.choice.Return? then
      Asked(was.sigs + a.choice.again, was.complete || a.choice.complete)
    else was
  }

  function AskedIn(s: State, sched: seq<Action>, was: Asked): Asked
    decreases sched
  {
    if sched == [] then was else AskedIn(Step(s, sched[0]), sched[1..], AskedBy(s, sched[0], was))
  }

  ghost predicate AskedPc(pc: Pc, asked: Asked) {
    match pc
    case SendTest(sigs) => sigs <= asked.sigs + {FINISH}
    case SendSeen(sigs) => sigs <= asked.sigs + {FINISH}
    case SendRead(sigs) => sigs <= asked.sigs + {FINISH}
    case SendCas(sigs, _) => sigs <= asked.sigs + {FINISH}
    case SendOr(sigs) => sigs <= asked.sigs + {FINISH}
    case RunClear(sig) => sig in asked.sigs + {FINISH}
    case Running(sig) => sig in asked.sigs + {FINISH}
    case RunResult(again, complete) => again <= asked.sigs && (complete ==> asked.complete)
    case RunComplete => asked.complete
    case _ => true
  }

  ghost predicate AskedOk(s: State, asked: Asked) {
    && s.flags.pending <= asked.sigs + {FINISH}
    && (s.flags.completed ==> asked.complete)
    && (forall i :: 0 <= i < |s.agents| ==> AskedPc(s.agents[i], asked))
  }

  /** What a step of agent i to pc with the flags f asks for, nobody else needs. */
  lemma AskedMore(s: State, s': State, asked: Asked, asked': Asked)
    requires AskedOk(s, asked) && asked.sigs <= asked'.sigs && (asked.complete ==> asked'.complete)
    requires s'.flags.pending <= asked'.sigs + {FINISH} && (s'.flags.completed ==> asked'.complete)
    requires forall i :: 0 <= i < |s'.agents| ==> (i < |s.agents| && s'.agents[i] == s.agents[i]) || AskedPc(s'.agents[i], asked')
    ensures AskedOk(s', asked')
  {
    forall i | 0 <= i < |s'.agents| ensures AskedPc(s'.agents[i], asked') {
      if i < |s.agents| && s'.agents[i] == s.agents[i] { AskedPcMore(s.agents[i], asked, asked'); }
    }
  }

  lemma AskedPcMore(pc: Pc, asked: Asked, asked': Asked)
    requires AskedPc(pc, asked) && asked.sigs <= asked'.sigs && (asked.complete ==> asked'.complete)
    ensures AskedPc(pc, asked')
  {
  }

  lemma AskedRead(s: State, i: nat, choice: Choice, asked: Asked)
    requires Inv(s) && AskedOk(s, asked) && i < |s.agents| && IsRead(s.agents[i])
    ensures AskedPc(Read(s, i, s.agents[i], choice), asked)
  {
    assert AskedPc(s.agents[i], asked);
    if s.agents[i].UnlockTodo? { HighestIn(s.flags.pending * s.allowed, 8); }
  }

  lemma AskedCas(s: State, i: nat, asked: Asked)
    requires AskedOk(s, asked) && i < |s.agents| && IsCas(s.agents[i])
    ensures AskedOk(Cas(s, i), asked)
  {
    assert AskedPc(s.agents[i], asked);
    AskedMore(s, Cas(s, i), asked, asked);
  }

  lemma AskedFlag(s: State, i: nat, asked: Asked)
    requires Inv(s) && AskedOk(s, asked) && i < |s.agents| && IsFlag(s.agents[i])
    ensures AskedOk(Flag(s, i), asked)
  {
    assert AskedPc(s.agents[i], asked) && AgentOk(s, i, s.agents[i]);
    AskedFlags(s, i, asked);
    AskedMore(s, Flag(s, i), asked, asked);
  }

  lemma AskedFlags(s: State, i: nat, asked: Asked)
    requires AskedOk(s, asked) && i < |s.agents| && IsFlag(s.agents[i])
    requires PcOk(s, i, s.agents[i]) && AskedPc(s.agents[i], asked)
    ensures var s' := Flag(s, i);
            && s'.flags.pending <= asked.sigs + {FINISH} && (s'.flags.completed ==> asked.complete)
            && |s'.agents| == |s.agents| && AskedPc(s'.agents[i], asked)
  {
  }

  lemma AskedRef(s: State, i: nat, asked: Asked)
    requires AskedOk(s, asked) && i < |s.agents| && IsRef(s.agents[i])
    ensures AskedOk(Ref(s, i), asked)
  {
    AskedMore(s, Ref(s, i), asked, asked);
  }

  lemma AskedAct(s: State, i: nat, choice: Choice, asked: Asked)
    requires AskedOk(s, asked) && i < |s.agents| && (s.agents[i].Own? || s.agents[i].Running?)
    ensures AskedOk(Act(s, i, choice), AskedBy(s, Move(i, choice), asked))
  {
    AskedMore(s, Act(s, i, choice), asked, AskedBy(s, Move(i, choice), asked));
  }

  lemma AskedConsume(s: State, a: Action, asked: Asked)
    requires AskedOk(s, asked) && a.Consume?
    ensures AskedOk(Step(s, a), asked)
  {
    AskedMore(s, Step(s, a), asked, asked);
  }

  lemma AskedStep(s: State, a: Action, asked: Asked)
    requires Inv(s) && AskedOk(s, asked)
    ensures AskedOk(Step(s, a), AskedBy(s, a, asked))
  {
    match a
    case Consume(_, _) => AskedConsume(s, a, asked);
    case Move(i, choice) =>
      if i < |s.agents| {
        var pc := s.agents[i];
        if IsRead(pc) { AskedRead(s, i, choice, asked); AskedMore(s, Step(s, a), asked, asked); }
        else if IsCas(pc) { AskedCas(s, i, asked); }
        else if IsRef(pc) { AskedRef(s, i, asked); }
        else if IsFlag(pc) { AskedFlag(s, i, asked); }
        else if pc.Own? || pc.Running? { AskedAct(s, i, choice, asked); }
      }
  }

  lemma {:induction false} AskedRun(s: State, sched: seq<Action>, asked: Asked)
    requires Inv(s) && AskedOk(s, asked)
    ensures AskedOk(Run(s, sched), AskedIn(s, sched, asked))
    decreases sched
  {
    if sched != [] {
      AskedStep(s, sched[0], asked);
      StepOk(s, sched[0]);
      AskedRun(Step(s, sched[0]), sched[1..], AskedBy(s, sched[0], asked));
    }
  }

  /** Only what was asked for is pending, run or recorded as complete. */
  ghost predicate NoMore(s: State, asked: Asked, i: nat) {
    && s.flags.pending <= asked.sigs + {FINISH}
    && (i < |s.agents| && s.agents[i].Running? ==> s.agents[i].sig in asked.sigs + {FINISH})
    && (s.flags.completed ==> asked.complete)
  }

  /** Nothing comes from nowhere: in every run, a signal that is pending or whose handler runs was set by the creator,
      sent, or returned by a handler, unless it is JS_FINISH; and a job is complete only if a handler said so. */
  lemma OnlyIfAsked(allowed: set<Sig>, classes: map<Sig, Cls>, pending: set<Sig>, owners: nat, sched: seq<Action>, i: nat)
    requires FINISH in allowed && FINISH !in pending
    ensures var s0 := Init(allowed, classes, pending, owners);
            NoMore(Run(s0, sched), AskedIn(s0, sched, Asked(pending, false)), i)
  {
    var s0 := Init(allowed, classes, pending, owners);
    InitOk(allowed, classes, pending, owners);
    AskedRun(s0, sched, Asked(pending, false));
    NoMoreOk(Run(s0, sched), AskedIn(s0, sched, Asked(pending, false)), i);
  }

  lemma NoMoreOk(s: State, asked: Asked, i: nat)
    requires AskedOk(s, asked)
    ensures NoMore(s, asked, i)
  {
    if i < |s.agents| { assert AskedPc(s.agents[i], asked); }
  }

  // ----- which signal is served -----

  /** The highest of the pending signals that are allowed. */
  ghost predicate First(s: State, sig: Sig) {
    sig in s.flags.pending * s.allowed && forall x :: x in s.flags.pending * s.allowed ==> x <= sig
  }

  /** unlock_job serves the highest pending signal that is allowed: it runs it here, or it puts the job into the queue
      of that signal's class, and it lets go of the job only if there is none. */
  lemma HighestFirst(s: State, i: nat, choice: Choice)
    requires i < |s.agents| && s.agents[i] == UnlockTodo
    ensures match Step(s, Move(i, choice)).agents[i]
            case UnlockCas(f) => f == s.flags && forall sig :: !First(s, sig)
            case RunClear(sig) => choice.RunHere? && First(s, sig)
            case QueueCas(f, c) => !choice.RunHere? && f == s.flags && exists sig :: First(s, sig) && c == QueueClass(s.classes, sig)
            case _ => false
  {
    var todo := s.flags.pending * s.allowed;
    HighestIn(todo, 8);
    if todo != {} { assert First(s, Highest(todo, 8)); }
  }
}
