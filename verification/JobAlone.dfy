/** No call on a job waits for another one: wherever the others have stopped, a call that runs on alone gives up its
    reference or gets into a handler. */
module JobAlone {
  import opened Counting
  import opened JobEngine
  import opened JobEngineSafety

  /** Agent i makes k steps, and nobody else any; choice says whether it may run signals itself. */
  function After(s: State, i: nat, choice: Choice, k: nat): State
    decreases k
  {
    if k == 0 then s else After(Step(s, Move(i, choice)), i, choice, k - 1)
  }

  function Times(i: nat, choice: Choice, k: nat): seq<Action> {
    if k == 0 then [] else [Move(i, choice)] + Times(i, choice, k - 1)
  }

  /** Such steps are a run. */
  lemma {:induction false} AfterIsRun(s: State, i: nat, choice: Choice, k: nat)
    ensures After(s, i, choice, k) == Run(s, Times(i, choice, k))
    decreases k
  {
    if k > 0 {
      assert Times(i, choice, k)[0] == Move(i, choice) && Times(i, choice, k)[1..] == Times(i, choice, k - 1);
      AfterIsRun(Step(s, Move(i, choice)), i, choice, k - 1);
    }
  }

  /** In a call, outside of handlers. */
  predicate Working(pc: Pc) { !pc.Gone? && !pc.Own? && !pc.Running? && !pc.Failed? }

  predicate Finishing(pc: Pc) {
    (pc.SendTest? || pc.SendSeen? || pc.SendRead? || pc.SendCas?) && FINISH in pc.sigs
  }

  /** An upper bound of the steps left, without those after JS_FINISH is raised: in the order in which a call passes, a
      call before the job is locked, the holder of the lock, job_decref, and the raising of JS_FINISH by it. */
  function Left(f: Flags, pc: Pc): nat {
    match pc
    case SendTest(_) => if Finishing(pc) then 9 else 69
    case SendSeen(_) => if Finishing(pc) then 8 else 68
    case SendRead(_) => if Finishing(pc) then 6 else 66
    case SendCas(_, seen) => if Finishing(pc) then (if seen == f then 5 else 7) else (if seen == f then 65 else 67)
    case SendOr(_) => 65
    case SendRetry => 62
    case SendRetryCas(seen) => if seen == f then 61 else 63
    case SendCount => 52
    case SendLast => 51
    case ProcRead(_, _) => 69
    case ProcTry(_) => 67
    case ProcCas(_, seen) => if seen == f then 66 else 68
    case ProcClear(_) => 65
    case ProcRetry => 62
    case ProcRetryCas(seen) => if seen == f then 61 else 63
    case LockStore => 50
    case UnlockCheck => 49
    case RunResult(_, _) => 49
    case RunComplete => 48
    case UnlockRead => 46
    case UnlockTodo => 45
    case UnlockCas(seen) => if seen == f then 44 else 47
    case QueueCas(seen, _) => if seen == f then 44 else 47
    case UnlockTest => 43
    case UnlockSub => 42
    case UnlockReset => 41
    case UnlockLast => 40
    case UnlockStatus => 39
    case UnlockLoad => 38
    case UnlockRaise(_) => 37
    case RunClear(_) => 36
    case Push(_) => 35
    case DecTest => 25
    case DecSub => 24
    case DecReset => 23
    case DecLast => 22
    case _ => 0
  }

  /** JS_FINISH is raised once at most. */
  function Rounds(s: State): int { if s.raised == 0 then 1 else 0 }

  ghost predicate Nearer(s: State, s': State, i: nat)
    requires i < |s.agents|
  {
    i < |s'.agents| &&
    var pc, pc' := s.agents[i], s'.agents[i];
    || pc'.Gone? || pc'.Running?
    || (Working(pc') && (Rounds(s') < Rounds(s) || (Rounds(s') == Rounds(s) && Left(s'.flags, pc') < Left(s.flags, pc))))
  }

  lemma ReadNearer(s: State, i: nat, choice: Choice)
    requires Inv(s) && !s.destroyed && i < |s.agents| && IsRead(s.agents[i]) && Inv(Goto(s, i, Read(s, i, s.agents[i], choice)))
    ensures Nearer(s, Goto(s, i, Read(s, i, s.agents[i], choice)), i)
  {
    assert AgentOk(s, i, s.agents[i]);
    var s' := Goto(s, i, Read(s, i, s.agents[i], choice));
    assert AgentOk(s', i, s'.agents[i]);
  }

  lemma CasNearer(s: State, i: nat)
    requires i < |s.agents| && IsCas(s.agents[i]) && AgentOk(s, i, s.agents[i])
    ensures Nearer(s, Cas(s, i), i)
  {
  }

  lemma RefNearer(s: State, i: nat)
    requires i < |s.agents| && IsRef(s.agents[i])
    ensures Nearer(s, Ref(s, i), i)
  {
  }

  lemma FlagNearer(s: State, i: nat)
    requires i < |s.agents| && IsFlag(s.agents[i]) && AgentOk(s, i, s.agents[i])
    ensures Nearer(s, Flag(s, i), i)
  {
  }

  lemma WorkStep(s: State, i: nat, choice: Choice)
    requires Inv(s) && i < |s.agents| && Working(s.agents[i])
    ensures Inv(Step(s, Move(i, choice))) && Nearer(s, Step(s, Move(i, choice)), i)
  {
    StepOk(s, Move(i, choice));
    assert AgentOk(s, i, s.agents[i]);
    if s.destroyed { GoneWhenDestroyed(s, i); }
    else if IsRead(s.agents[i]) { ReadNearer(s, i, choice); }
    else if IsCas(s.agents[i]) { CasNearer(s, i); }
    else if IsRef(s.agents[i]) { RefNearer(s, i); }
    else { FlagNearer(s, i); }
  }

  lemma GoneWhenDestroyed(s: State, i: nat)
    requires Inv(s) && s.destroyed && i < |s.agents|
    ensures s.agents[i] == Gone
  {
    if Holds(s.agents[i]) { WhoOne(s.agents, i, Holds); }
  }

  /** Where a call ends: without its reference, or in the handler of a signal. */
  predicate Ended(s: State, i: nat) {
    i < |s.agents| && (s.agents[i].Gone? || s.agents[i].Running?)
  }

  lemma {:induction false} WorkEnds(s: State, i: nat, choice: Choice) returns (k: nat)
    requires Inv(s) && i < |s.agents| && Working(s.agents[i])
    ensures Ended(After(s, i, choice, k), i)
    decreases Rounds(s), Left(s.flags, s.agents[i])
  {
    var s1 := Step(s, Move(i, choice));
    WorkStep(s, i, choice);
    if Ended(s1, i) { k := 0; } else { k := WorkEnds(s1, i, choice); }
    assert After(s, i, choice, k + 1) == After(s1, i, choice, k);
    k := k + 1;
  }

  /** A call at work that runs on alone ends, wherever it and the others have got to. */
  lemma WorkAlone(s: State, i: nat, choice: Choice) returns (k: nat)
    requires Reachable(s) && i < |s.agents| && Working(s.agents[i])
    ensures Ended(Run(s, Times(i, choice, k)), i)
  {
    ReachableOk(s);
    k := WorkEnds(s, i, choice);
    AfterIsRun(s, i, choice, k);
  }

  /** What an owner may do with its reference: send signals, or drop it. */
  predicate Call(c: Choice) { (c.Send? && FINISH !in c.sigs) || c.Drop? }

  /** An owner that calls job_send_signals or job_decref, and a handler that returns, end as well. */
  lemma CallAlone(s: State, i: nat, call: Choice, choice: Choice) returns (k: nat)
    requires Reachable(s) && i < |s.agents|
    requires (s.agents[i].Own? && Call(call)) || (s.agents[i].Running? && call.Return? && FINISH !in call.again)
    ensures Ended(Run(Step(s, Move(i, call)), Times(i, choice, k)), i)
  {
    Onward(s, Move(i, call));
    var s1 := Step(s, Move(i, call));
    if s.agents[i] == Running(FINISH) {
      k := 0;
      assert s1.agents[i] == Gone;
    } else {
      k := WorkAlone(s1, i, choice);
    }
  }
}
