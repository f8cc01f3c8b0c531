/** Proofs about one job: locking, delivery of signals, reference counting and destruction. */
module JobEngineSafety {
  import opened Counting
  import opened JobEngine

  // ----- consequences of the counts -----

  lemma RefsAtLeast(s: State, i: nat, j: nat)
    requires i < |s.agents| && j < |s.agents| && Holds(s.agents[i]) && Holds(s.agents[j])
    ensures Refs(s) >= 1 + Ind(i != j) + |s.entries|
  {
    WhoOne(s.agents, i, Holds);
    if i != j { WhoTwo(s.agents, i, j, Holds); }
  }

  /** The holder of the only reference, if it does not hold the lock, finds the job unlocked. */
  lemma SoleUnlocked(s: State, i: nat)
    requires Inv(s) && !s.destroyed && i < |s.agents| && Holds(s.agents[i]) && !HasLock(s.agents[i]) && Refs(s) == 1
    ensures !s.flags.locked
  {
    if s.flags.locked {
      var j :| j in Who(s.agents, HasLock);
      RefsAtLeast(s, i, j);
    }
  }

  lemma LockIsMine(s: State, i: nat, j: nat)
    requires Inv(s) && !s.destroyed && i < |s.agents| && j < |s.agents| && HasLock(s.agents[i]) && i != j
    ensures s.flags.locked && !HasLock(s.agents[j])
  {
    WhoOne(s.agents, i, HasLock);
    if HasLock(s.agents[j]) { WhoTwo(s.agents, i, j, HasLock); }
  }

  lemma LockedByMe(s: State, i: nat)
    requires Inv(s) && !s.destroyed && i < |s.agents| && HasLock(s.agents[i])
    ensures s.flags.locked
  {
    WhoOne(s.agents, i, HasLock);
  }

  /** If the only reference is with a call that will not lock the job again, no allowed signal waits. */
  lemma SoleIsIdle(s: State, i: nat)
    requires Inv(s) && !s.destroyed && i < |s.agents| && Refs(s) == 1
    requires Holds(s.agents[i]) && !HasLock(s.agents[i]) && !Watches(s.agents[i])
    ensures s.flags.pending * s.allowed == {}
  {
    SoleUnlocked(s, i);
    RefsAtLeast(s, i, i);
    if s.flags.pending * s.allowed != {} {
      var j :| 0 <= j < |s.agents| && Watches(s.agents[j]);
      RefsAtLeast(s, i, j);
    }
  }

  /** An agent that sees a count below 2 holds the last reference, and JS_FINISH is not yet raised. */
  lemma LastHolder(s: State, i: nat)
    requires Inv(s) && !s.destroyed && i < |s.agents| && s.refcnt < 2
    requires var pc := s.agents[i]; Holds(pc) && !AfterRaise(pc) && !pc.Running? && !Resets(pc)
    ensures Refs(s) == 1 && s.refcnt == 1 && FINISH !in s.flags.pending && s.raised == 0
    ensures var pc := s.agents[i]; !HasLock(pc) && !Watches(pc) ==> s.flags.pending * s.allowed == {}
  {
    assert AgentOk(s, i, s.agents[i]);
    RefsAtLeast(s, i, i);
    assert Who(s.agents, Resets) == {} by {
      if j :| j in Who(s.agents, Resets) {
        assert AgentOk(s, j, s.agents[j]);
        RefsAtLeast(s, i, j);
      }
    }
    if s.raised == 1 {
      var j :| 0 <= j < |s.agents| && s.agents[j] == Running(FINISH);
      assert AgentOk(s, j, s.agents[j]);
      RefsAtLeast(s, i, j);
    }
    if !HasLock(s.agents[i]) && !Watches(s.agents[i]) { SoleIsIdle(s, i); }
  }

  // ----- one step of one agent -----

  function RefsAfter(s: State, s': State, i: nat): int
    requires i < |s.agents| && i < |s'.agents|
  {
    Ind(Holds(s'.agents[i])) - Ind(Holds(s.agents[i])) + |s'.entries| - |s.entries|
  }

  /** The step may take place under the other agents' feet. */
  ghost predicate Gentle(s: State, s': State, i: nat)
    requires i < |s.agents|
  {
    && (HasLock(s.agents[i]) || (s'.thread == s.thread && s'.allowed == s.allowed && s.flags.pending <= s'.flags.pending))
    && (FINISH in s'.flags.pending ==> FINISH in s.flags.pending || Refs(s) == 1)
  }

  lemma OthersOk(s: State, s': State, i: nat)
    requires Inv(s) && !s.destroyed && i < |s.agents| && Holds(s.agents[i])
    requires |s'.agents| == |s.agents| && s'.agents == s.agents[i := s'.agents[i]] && Gentle(s, s', i)
    ensures forall j :: 0 <= j < |s.agents| && j != i ==> AgentOk(s', j, s'.agents[j])
  {
    forall j | 0 <= j < |s.agents| && j != i ensures AgentOk(s', j, s'.agents[j]) {
      assert AgentOk(s, j, s.agents[j]);
      if Holds(s.agents[j]) {
        RefsAtLeast(s, i, j);
        if HasLock(s.agents[i]) { LockIsMine(s, i, j); }
      }
    }
  }

  lemma CountsStep(s: State, s': State, i: nat)
    requires CountsOk(s) && !s.destroyed && i < |s.agents| == |s'.agents| && s'.agents == s.agents[i := s'.agents[i]]
    ensures Refs(s') == Refs(s) + RefsAfter(s, s', i)
    ensures var pc, pc' := s.agents[i], s'.agents[i];
            !s'.destroyed
            && s'.refcnt - s.refcnt + Ind(Resets(pc')) - Ind(Resets(pc)) == RefsAfter(s, s', i)
            && Ind(HasLock(pc')) - Ind(HasLock(pc)) == Ind(s'.flags.locked) - Ind(s.flags.locked)
            ==> CountsOk(s')
  {
    WhoCard(s.agents, i, s'.agents[i], Holds);
    WhoCard(s.agents, i, s'.agents[i], Resets);
    WhoCard(s.agents, i, s'.agents[i], HasLock);
  }

  ghost predicate QueueStep(s: State, s': State, i: nat)
    requires i < |s.agents| == |s'.agents|
  {
    && s.entries <= s'.entries
    && forall c :: c in s'.flags.queued ==>
         c in s'.entries || Carries(s'.agents[i], c) || (c in s.flags.queued && !Carries(s.agents[i], c))
  }

  lemma QueueStepOk(s: State, s': State, i: nat)
    requires QueueOk(s) && i < |s.agents| == |s'.agents| && s'.agents == s.agents[i := s'.agents[i]] && QueueStep(s, s', i)
    ensures QueueOk(s')
  {
    forall c | c in s'.flags.queued && c !in s'.entries
      ensures exists j :: 0 <= j < |s'.agents| && Carries(s'.agents[j], c)
    {
      if !Carries(s'.agents[i], c) {
        var j :| 0 <= j < |s.agents| && Carries(s.agents[j], c);
        assert Carries(s'.agents[j], c);
      }
    }
  }

  ghost predicate SignalStep(s: State, s': State, i: nat)
    requires i < |s.agents| == |s'.agents|
  {
    && s.entries <= s'.entries
    && (|| s'.flags.locked || s'.flags.pending * s'.allowed == {} || s'.entries != multiset{} || Watches(s'.agents[i])
        || (!s.flags.locked && s.flags.pending * s.allowed != {} && !Watches(s.agents[i]))
        || exists c :: c in s.flags.queued && !Carries(s.agents[i], c))
  }

  lemma SignalStepOk(s: State, s': State, i: nat)
    requires SignalOk(s) && QueueOk(s) && i < |s.agents| == |s'.agents| && s'.agents == s.agents[i := s'.agents[i]]
    requires SignalStep(s, s', i)
    ensures SignalOk(s')
  {
    if !s'.flags.locked && s'.flags.pending * s'.allowed != {} && s'.entries == multiset{} && !Watches(s'.agents[i]) {
      assert s.entries == multiset{};
      if c :| c in s.flags.queued && !Carries(s.agents[i], c) {
        var j :| 0 <= j < |s.agents| && Carries(s.agents[j], c);
        assert Watches(s'.agents[j]);
      } else {
        var j :| 0 <= j < |s.agents| && Watches(s.agents[j]);
        assert Watches(s'.agents[j]);
      }
    }
  }

  ghost predicate FinishStep(s: State, s': State, i: nat)
    requires i < |s.agents| == |s'.agents|
  {
    && FINISH in s'.allowed && s'.raised <= 1
    && (FINISH in s'.flags.pending ==> Refs(s') == 1 && s'.raised == 1)
    && (s'.raised == 1 ==>
          || FINISH in s'.flags.pending || s'.agents[i] == Running(FINISH)
          || (s.raised == 1 && FINISH !in s.flags.pending && s.agents[i] != Running(FINISH)))
  }

  lemma FinishStepOk(s: State, s': State, i: nat)
    requires FinishOk(s) && !s.destroyed && i < |s.agents| == |s'.agents| && s'.agents == s.agents[i := s'.agents[i]]
    requires FinishStep(s, s', i)
    ensures FinishOk(s')
  {
    if s.raised == 1 && FINISH !in s.flags.pending && s.agents[i] != Running(FINISH) {
      var j :| 0 <= j < |s.agents| && s.agents[j] == Running(FINISH);
      assert s'.agents[j] == Running(FINISH);
    }
  }

  /** A step of an agent that keeps the job alive. */
  lemma AgentStep(s: State, s': State, i: nat)
    requires Inv(s) && !s.destroyed && !s'.destroyed && i < |s.agents| == |s'.agents| && Holds(s.agents[i])
    requires s'.agents == s.agents[i := s'.agents[i]] && Gentle(s, s', i)
    requires var pc, pc' := s.agents[i], s'.agents[i];
             && s'.refcnt - s.refcnt + Ind(Resets(pc')) - Ind(Resets(pc)) == RefsAfter(s, s', i)
             && Ind(HasLock(pc')) - Ind(HasLock(pc)) == Ind(s'.flags.locked) - Ind(s.flags.locked)
    requires AgentOk(s', i, s'.agents[i]) && FinishStep(s, s', i)
    requires QueueStep(s, s', i) && SignalStep(s, s', i)
    ensures Inv(s')
  {
    CountsStep(s, s', i);
    OthersOk(s, s', i);
    FinishStepOk(s, s', i);
    QueueStepOk(s, s', i);
    SignalStepOk(s, s', i);
    assert AgentsOk(s');
  }

  /** A step that changes only where agent i is. */
  lemma MoveOk(s: State, i: nat, pc: Pc)
    requires Inv(s) && !s.destroyed && i < |s.agents| && Holds(s.agents[i]) && Holds(pc)
    requires HasLock(pc) == HasLock(s.agents[i]) && !Resets(pc) && !Resets(s.agents[i])
    requires AgentOk(s, i, pc) && s.agents[i] != Running(FINISH)
    requires forall c :: c in s.flags.queued && Carries(s.agents[i], c) ==> Carries(pc, c)
    requires Watches(s.agents[i]) ==> Watches(pc) || s.flags.locked
    ensures Inv(Goto(s, i, pc))
  {
    var s' := Goto(s, i, pc);
    CountsStep(s, s', i);
    AgentStep(s, s', i);
  }

  lemma {:induction false} HighestIn(todo: set<Sig>, below: nat)
    requires below <= 8
    ensures (exists x :: x in todo && x < below) ==> Highest(todo, below) in todo
    ensures forall x :: x in todo && x < below ==> x <= Highest(todo, below)
  {
    if below > 0 && (below - 1) !in todo { HighestIn(todo, below - 1); }
  }

  lemma UnlockReadOk(s: State, i: nat, choice: Choice)
    requires Inv(s) && !s.destroyed && i < |s.agents| && s.agents[i].UnlockTodo?
    ensures AgentOk(s, i, Read(s, i, UnlockTodo, choice)) && HasLock(Read(s, i, UnlockTodo, choice))
  {
    LockedByMe(s, i);
    assert AgentOk(s, i, UnlockTodo);
    TodoRead(s, i, choice);
  }

  /** The branches of unlock_job at the pending signals that are allowed. */
  lemma TodoRead(s: State, i: nat, choice: Choice)
    requires s.flags.locked && FINISH in s.allowed
    ensures var pc := Read(s, i, UnlockTodo, choice);
            && PcOk(s, i, pc) && (pc.UnlockCas? || pc.QueueCas? || pc.RunClear?)
            && (FINISH in s.flags.pending ==> AfterRaise(pc))
  {
    var todo := s.flags.pending * s.allowed;
    HighestIn(todo, 8);
    if FINISH in s.flags.pending { assert FINISH in todo && Highest(todo, 8) == FINISH; }
  }

  lemma SendReadOk(s: State, i: nat, choice: Choice)
    requires Inv(s) && !s.destroyed && i < |s.agents|
    requires var pc := s.agents[i]; pc.SendTest? || pc.SendSeen? || pc.SendCount? || pc.SendLast? || pc.SendRead? || pc.SendRetry?
    ensures Inv(Goto(s, i, Read(s, i, s.agents[i], choice)))
  {
    var pc := s.agents[i];
    assert AgentOk(s, i, pc);
    RefsAtLeast(s, i, i);
    if BeforeRaise(pc) { SoleUnlocked(s, i); }
    assert s.refcnt > 0 && (s.refcnt > 1 || FINISH !in s.flags.pending) by {
      if s.refcnt < 2 { LastHolder(s, i); }
    }
    MoveOk(s, i, Read(s, i, pc, choice));
  }

  lemma DecReadOk(s: State, i: nat, choice: Choice)
    requires Inv(s) && !s.destroyed && i < |s.agents|
    requires var pc := s.agents[i];
             pc.DecTest? || pc.DecLast? || pc.UnlockTest? || pc.UnlockLast? || pc.UnlockStatus? || pc.UnlockLoad?
    ensures Inv(Goto(s, i, Read(s, i, s.agents[i], choice)))
  {
    var pc := s.agents[i];
    assert AgentOk(s, i, pc);
    if s.refcnt < 2 { LastHolder(s, i); }
    if BeforeRaise(pc) {
      assert Who(s.agents, Resets) == {} by {
        if j :| j in Who(s.agents, Resets) { RefsAtLeast(s, i, j); }
      }
    }
    MoveOk(s, i, Read(s, i, pc, choice));
  }

  lemma ProcReadOk(s: State, i: nat, choice: Choice)
    requires Inv(s) && !s.destroyed && i < |s.agents|
    requires var pc := s.agents[i]; pc.ProcRead? || pc.ProcTry? || pc.ProcRetry?
    ensures Inv(Goto(s, i, Read(s, i, s.agents[i], choice)))
  {
    var pc := s.agents[i];
    assert AgentOk(s, i, pc);
    if FINISH in s.flags.pending { SoleUnlocked(s, i); }
    MoveOk(s, i, Read(s, i, pc, choice));
  }

  lemma UnlockMoveOk(s: State, i: nat, choice: Choice)
    requires Inv(s) && !s.destroyed && i < |s.agents|
    requires s.agents[i].UnlockCheck? || s.agents[i].UnlockRead? || s.agents[i].UnlockTodo?
    ensures Inv(Goto(s, i, Read(s, i, s.agents[i], choice)))
  {
    assert AgentOk(s, i, s.agents[i]);
    LockedByMe(s, i);
    if s.agents[i].UnlockTodo? { UnlockReadOk(s, i, choice); }
    MoveOk(s, i, Read(s, i, s.agents[i], choice));
  }

  lemma LockCasOk(s: State, i: nat)
    requires Inv(s) && !s.destroyed && i < |s.agents|
    requires var pc := s.agents[i];
             (pc.SendCas? || pc.SendRetryCas? || pc.ProcCas? || pc.ProcRetryCas?) && s.flags == pc.f
    ensures Inv(Cas(s, i))
  {
    var pc, s' := s.agents[i], Cas(s, i);
    assert AgentOk(s, i, pc);
    CountsStep(s, s', i);
    AgentStep(s, s', i);
  }

  lemma UnlockCasOk(s: State, i: nat)
    requires Inv(s) && !s.destroyed && i < |s.agents| && s.agents[i].UnlockCas? && s.flags == s.agents[i].f
    ensures Inv(Cas(s, i))
  {
    var s' := Cas(s, i);
    assert AgentOk(s, i, s.agents[i]);
    assert FINISH !in s.flags.pending * s.allowed;
    CountsStep(s, s', i);
    AgentStep(s, s', i);
  }

  lemma QueueCasOk(s: State, i: nat)
    requires Inv(s) && !s.destroyed && i < |s.agents| && s.agents[i].QueueCas? && s.flags == s.agents[i].f
    ensures Inv(Cas(s, i))
  {
    var pc, s' := s.agents[i], Cas(s, i);
    assert AgentOk(s, i, pc);
    if pc.c in s.flags.queued {
      assert Refs(s) >= 2 by {
        RefsAtLeast(s, i, i);
        if j :| 0 <= j < |s.agents| && Carries(s.agents[j], pc.c) { RefsAtLeast(s, i, j); }
      }
    }
    CountsStep(s, s', i);
    AgentStep(s, s', i);
  }

  lemma CasOk(s: State, i: nat)
    requires Inv(s) && !s.destroyed && i < |s.agents| && IsCas(s.agents[i])
    ensures Inv(Cas(s, i))
  {
    var pc := s.agents[i];
    if s.flags != pc.f {
      assert AgentOk(s, i, pc);
      MoveOk(s, i, CasTo(pc).2);
    } else if pc.UnlockCas? { UnlockCasOk(s, i); }
    else if pc.QueueCas? { QueueCasOk(s, i); }
    else { LockCasOk(s, i); }
  }

  lemma SubOk(s: State, i: nat)
    requires Inv(s) && !s.destroyed && i < |s.agents| && (s.agents[i].DecSub? || s.agents[i].UnlockSub?)
    ensures Inv(Ref(s, i))
  {
    var s' := Ref(s, i);
    assert AgentOk(s, i, s.agents[i]);
    if s.refcnt == 1 { LastHolder(s, i); }
    CountsStep(s, s', i);
    AgentStep(s, s', i);
  }

  lemma ResetOk(s: State, i: nat)
    requires Inv(s) && !s.destroyed && i < |s.agents| && Resets(s.agents[i])
    ensures s.refcnt == 0 && Inv(Ref(s, i))
  {
    var s' := Ref(s, i);
    assert AgentOk(s, i, s.agents[i]);
    WhoOne(s.agents, i, Resets);
    Subset(Who(s.agents, Resets), Who(s.agents, Holds));
    CountsStep(s, s', i);
    AgentStep(s, s', i);
  }

  lemma PushOk(s: State, i: nat)
    requires Inv(s) && !s.destroyed && i < |s.agents| && s.agents[i].Push?
    ensures Inv(Ref(s, i))
  {
    var s' := Ref(s, i);
    assert AgentOk(s, i, s.agents[i]);
    CountsStep(s, s', i);
    AgentStep(s, s', i);
  }

  lemma FreeFlagOk(s: State, i: nat)
    requires Inv(s) && !s.destroyed && i < |s.agents| && (s.agents[i].SendOr? || s.agents[i].ProcClear?)
    ensures Inv(Flag(s, i))
  {
    var pc, s' := s.agents[i], Flag(s, i);
    assert AgentOk(s, i, pc);
    CountsStep(s, s', i);
    AgentStep(s, s', i);
  }

  lemma RaiseOk(s: State, i: nat)
    requires Inv(s) && !s.destroyed && i < |s.agents| && s.agents[i].UnlockRaise?
    ensures Inv(Flag(s, i))
  {
    var pc, s' := s.agents[i], Flag(s, i);
    assert AgentOk(s, i, pc);
    SoleUnlocked(s, i);
    CountsStep(s, s', i);
    AgentStep(s, s', i);
  }

  lemma LockedFlagOk(s: State, i: nat)
    requires Inv(s) && !s.destroyed && i < |s.agents|
    requires var pc := s.agents[i]; pc.LockStore? || pc.RunClear? || pc.RunResult? || pc.RunComplete?
    ensures Inv(Flag(s, i))
  {
    if s.agents[i].RunClear? { DeliverOk(s, i); }
    else if s.agents[i].RunResult? { ResultOk(s, i); }
    else { OtherFlagOk(s, i); }
  }

  lemma DeliverOk(s: State, i: nat)
    requires Inv(s) && !s.destroyed && i < |s.agents| && s.agents[i].RunClear?
    ensures Inv(Flag(s, i))
  {
    var pc, s' := s.agents[i], Flag(s, i);
    assert AgentOk(s, i, pc);
    LockedByMe(s, i);
    CountsStep(s, s', i);
    AgentStep(s, s', i);
  }

  lemma ResultOk(s: State, i: nat)
    requires Inv(s) && !s.destroyed && i < |s.agents| && s.agents[i].RunResult?
    ensures Inv(Flag(s, i))
  {
    var pc, s' := s.agents[i], Flag(s, i);
    assert AgentOk(s, i, pc);
    LockedByMe(s, i);
    CountsStep(s, s', i);
    AgentStep(s, s', i);
  }

  lemma OtherFlagOk(s: State, i: nat)
    requires Inv(s) && !s.destroyed && i < |s.agents| && (s.agents[i].LockStore? || s.agents[i].RunComplete?)
    ensures Inv(Flag(s, i))
  {
    var pc, s' := s.agents[i], Flag(s, i);
    assert AgentOk(s, i, pc);
    LockedByMe(s, i);
    CountsStep(s, s', i);
    AgentStep(s, s', i);
  }

  // ----- owners, handlers, queues -----

  lemma SetAllowedOk(s: State, i: nat, sigs: set<Sig>, classes: map<Sig, Cls>)
    requires Inv(s) && !s.destroyed && i < |s.agents| && s.agents[i].Running? && s.agents[i] != Running(FINISH)
    requires FINISH in sigs
    ensures Inv(s.(allowed := sigs, classes := classes))
  {
    var s' := s.(allowed := sigs, classes := classes);
    assert AgentOk(s, i, s.agents[i]);
    assert s'.agents == s.agents[i := s.agents[i]];
    LockedByMe(s, i);
    CountsStep(s, s', i);
    AgentStep(s, s', i);
  }

  /** A new agent: one more reference, or one taken from a queue. */
  lemma SpawnOk(s: State, s': State, pc: Pc)
    requires Inv(s) && !s.destroyed && s'.agents == s.agents + [pc] && s' == s.(refcnt := s'.refcnt, entries := s'.entries, agents := s'.agents)
    requires Holds(pc) && !HasLock(pc) && !BeforeRaise(pc) && PcOk(s, |s.agents|, pc)
    requires s'.refcnt - s.refcnt == 1 + |s'.entries| - |s.entries|
    requires forall i :: 0 <= i < |s.agents| ==> !BeforeRaise(s.agents[i]) && s.agents[i] != Running(FINISH)
    requires FINISH in s.flags.pending ==> |s'.entries| == |s.entries| - 1 && AfterRaise(pc)
    requires forall c :: c in s.entries && c !in s'.entries ==> Carries(pc, c)
    requires s.entries != multiset{} ==> s'.entries != multiset{} || Watches(pc)
    ensures Inv(s')
  {
    WhoAppend(s.agents, pc, Holds);
    WhoAppend(s.agents, pc, Resets);
    WhoAppend(s.agents, pc, HasLock);
    forall j | 0 <= j < |s'.agents| ensures AgentOk(s', j, s'.agents[j]) {
      if j < |s.agents| {
        assert AgentOk(s, j, s.agents[j]);
        if Holds(s.agents[j]) { WhoOne(s.agents, j, Holds); }
      }
    }
    forall c | c in s'.flags.queued && c !in s'.entries
      ensures exists j :: 0 <= j < |s'.agents| && Carries(s'.agents[j], c)
    {
      if c in s.entries {
        assert Carries(s'.agents[|s.agents|], c);
      } else {
        var j :| 0 <= j < |s.agents| && Carries(s.agents[j], c);
        assert Carries(s'.agents[j], c);
      }
    }
    if !s'.flags.locked && s'.flags.pending * s'.allowed != {} && s'.entries == multiset{} {
      if Watches(pc) {
        assert Watches(s'.agents[|s.agents|]);
      } else {
        var j :| 0 <= j < |s.agents| && Watches(s.agents[j]);
        assert Watches(s'.agents[j]);
      }
    }
  }

  lemma IncrefOk(s: State, i: nat)
    requires Inv(s) && !s.destroyed && i < |s.agents| && (s.agents[i].Own? || s.agents[i].Running?)
    requires s.agents[i] != Running(FINISH)
    ensures Inv(Act(s, i, Incref))
  {
    assert AgentOk(s, i, s.agents[i]);
    forall j | 0 <= j < |s.agents| ensures !BeforeRaise(s.agents[j]) && s.agents[j] != Running(FINISH) {
      if BeforeRaise(s.agents[j]) || s.agents[j] == Running(FINISH) {
        assert AgentOk(s, j, s.agents[j]);
        RefsAtLeast(s, i, j);
      }
    }
    SpawnOk(s, Act(s, i, Incref), Own);
  }

  lemma ConsumeOk(s: State, c: Cls, mask: set<Cls>)
    requires Inv(s) && !s.destroyed && c in s.entries && c in mask
    ensures Inv(Step(s, Consume(c, mask)))
  {
    forall j | 0 <= j < |s.agents| ensures !BeforeRaise(s.agents[j]) && s.agents[j] != Running(FINISH) {
      if BeforeRaise(s.agents[j]) || s.agents[j] == Running(FINISH) {
        assert AgentOk(s, j, s.agents[j]);
        RefsAtLeast(s, j, j);
      }
    }
    assert |s.entries - multiset{c}| == |s.entries| - 1;
    SpawnOk(s, Step(s, Consume(c, mask)), ProcRead(c, mask));
  }

  lemma DestroyOk(s: State, i: nat)
    requires Inv(s) && !s.destroyed && i < |s.agents| && s.agents[i] == Running(FINISH)
    ensures Inv(Goto(s.(destroyed := true, refcnt := 0), i, Gone))
  {
    var s' := Goto(s.(destroyed := true, refcnt := 0), i, Gone);
    assert AgentOk(s, i, s.agents[i]);
    OthersOk(s, Goto(s, i, Gone), i);
    WhoCard(s.agents, i, Gone, Holds);
    forall j | 0 <= j < |s'.agents| ensures AgentOk(s', j, s'.agents[j]) {
      if j != i && Holds(s.agents[j]) { RefsAtLeast(s, i, j); }
    }
  }

  lemma ActOk(s: State, i: nat, choice: Choice)
    requires Inv(s) && !s.destroyed && i < |s.agents| && (s.agents[i].Own? || s.agents[i].Running?)
    ensures Inv(Act(s, i, choice))
  {
    var pc := s.agents[i];
    assert AgentOk(s, i, pc);
    if pc == Running(FINISH) {
      if choice.Return? { DestroyOk(s, i); }
    } else {
      match choice
      case Incref => IncrefOk(s, i);
      case Send(sigs) => if pc.Own? && FINISH !in sigs { MoveOk(s, i, SendTest(sigs)); }
      case Drop => if pc.Own? { MoveOk(s, i, DecTest); }
      case SetAllowed(sigs, classes) => if pc.Running? && FINISH in sigs { SetAllowedOk(s, i, sigs, classes); }
      case Return(again, complete) => if pc.Running? && FINISH !in again { MoveOk(s, i, RunResult(again, complete)); }
      case _ =>
    }
  }

  /** Once the job is destroyed, no agent and no queue entry is left to do anything to it. */
  lemma DestroyedIsFinal(s: State, a: Action)
    requires Inv(s) && s.destroyed
    ensures Step(s, a) == s
  {
    forall i | 0 <= i < |s.agents| ensures s.agents[i] == Gone {
      if Holds(s.agents[i]) { WhoOne(s.agents, i, Holds); }
    }
    assert s.entries == multiset{};
  }

  lemma ReadOk(s: State, i: nat, choice: Choice)
    requires Inv(s) && !s.destroyed && i < |s.agents| && IsRead(s.agents[i])
    ensures Inv(Goto(s, i, Read(s, i, s.agents[i], choice)))
  {
    var pc := s.agents[i];
    if pc.SendTest? || pc.SendSeen? || pc.SendCount? || pc.SendLast? || pc.SendRead? || pc.SendRetry? { SendReadOk(s, i, choice); }
    else if pc.ProcRead? || pc.ProcTry? || pc.ProcRetry? { ProcReadOk(s, i, choice); }
    else if pc.UnlockCheck? || pc.UnlockRead? || pc.UnlockTodo? { UnlockMoveOk(s, i, choice); }
    else { DecReadOk(s, i, choice); }
  }

  lemma WriteOk(s: State, i: nat)
    requires Inv(s) && !s.destroyed && i < |s.agents|
    ensures IsCas(s.agents[i]) ==> Inv(Cas(s, i))
    ensures IsRef(s.agents[i]) ==> Inv(Ref(s, i))
    ensures IsFlag(s.agents[i]) ==> Inv(Flag(s, i))
  {
    var pc := s.agents[i];
    if IsCas(pc) { CasOk(s, i); }
    else if pc.DecSub? || pc.UnlockSub? { SubOk(s, i); }
    else if Resets(pc) { ResetOk(s, i); }
    else if pc.Push? { PushOk(s, i); }
    else if pc.SendOr? || pc.ProcClear? { FreeFlagOk(s, i); }
    else if pc.UnlockRaise? { RaiseOk(s, i); }
    else if IsFlag(pc) { LockedFlagOk(s, i); }
  }

  /** One step of any agent keeps the invariant. */
  lemma StepOk(s: State, a: Action)
    requires Inv(s)
    ensures Inv(Step(s, a))
  {
    if s.destroyed { DestroyedIsFinal(s, a); }
    else {
      match a
      case Consume(c, mask) => if c in s.entries && c in mask { ConsumeOk(s, c, mask); }
      case Move(i, choice) =>
        if i < |s.agents| {
          var pc := s.agents[i];
          if IsRead(pc) { ReadOk(s, i, choice); }
          else if pc.Own? || pc.Running? { ActOk(s, i, choice); }
          else { WriteOk(s, i); }
        }
    }
  }

  // ----- whole runs -----

  lemma InitOk(allowed: set<Sig>, classes: map<Sig, Cls>, pending: set<Sig>, owners: nat)
    requires FINISH in allowed && FINISH !in pending
    ensures Inv(Init(allowed, classes, pending, owners))
  {
    var s := Init(allowed, classes, pending, owners);
    WhoAll(s.agents, Holds);
    assert Who(s.agents, HasLock) == {0} && Who(s.agents, Resets) == {};
  }

  lemma {:induction false} RunOk(s: State, sched: seq<Action>)
    requires Inv(s)
    ensures Inv(Run(s, sched))
    decreases sched
  {
    if sched != [] {
      StepOk(s, sched[0]);
      RunOk(Step(s, sched[0]), sched[1..]);
    }
  }

  lemma ReachableOk(s: State)
    requires Reachable(s)
    ensures Inv(s)
  {
    var allowed: set<Sig>, classes: map<Sig, Cls>, pending: set<Sig>, owners: nat, sched: seq<Action> :|
      FINISH in allowed && FINISH !in pending && s == Run(Init(allowed, classes, pending, owners), sched);
    InitOk(allowed, classes, pending, owners);
    RunOk(Init(allowed, classes, pending, owners), sched);
  }

  lemma {:induction false} RunMore(s: State, sched: seq<Action>, a: Action)
    ensures Run(s, sched + [a]) == Step(Run(s, sched), a)
    decreases sched
  {
    if sched == [] {
      assert Run(s, [a]) == Run(Step(s, a), []);
    } else {
      assert (sched + [a])[0] == sched[0] && (sched + [a])[1..] == sched[1..] + [a];
      RunMore(Step(s, sched[0]), sched[1..], a);
    }
  }

  /** One more step of a reachable state. */
  lemma Onward(s: State, a: Action)
    requires Reachable(s)
    ensures Reachable(Step(s, a))
  {
    var allowed: set<Sig>, classes: map<Sig, Cls>, pending: set<Sig>, owners: nat, sched: seq<Action> :|
      FINISH in allowed && FINISH !in pending && s == Run(Init(allowed, classes, pending, owners), sched);
    RunMore(Init(allowed, classes, pending, owners), sched, a);
  }

  /** The runs are not empty: a job scheduled with a signal runs its handler while one owner is about to set another
      signal in the locked flag word, and a second one holds a third reference. */
  lemma Busy(sig: Sig, other: Sig) returns (s: State)
    requires sig != FINISH && other != FINISH && sig != other
    ensures Reachable(s) && s.agents == [Running(sig), SendOr({other}), Own] && Refs(s) == 3 && s.raised == 0
  {
    var s0 := Init({sig, FINISH}, map[], {sig}, 2);
    assert s0 == Run(s0, []) && Reachable(s0);
    assert s0.agents == [UnlockCheck, Own, Own];
    s := HandlerRuns(s0, sig);
    s := OwnerSends(s, sig, other);
    WhoAll(s.agents, Holds);
  }

  lemma ReadOnward(s: State, i: nat, choice: Choice, pc: Pc)
    requires Reachable(s) && i < |s.agents| && IsRead(s.agents[i]) && Read(s, i, s.agents[i], choice) == pc
    ensures Reachable(Goto(s, i, pc))
  {
    Onward(s, Move(i, choice));
  }

  lemma HandlerRuns(s0: State, sig: Sig) returns (s: State)
    requires Reachable(s0) && s0.agents == [UnlockCheck, Own, Own] && s0.thread == 0 && sig != FINISH
    requires s0.flags == Flags(true, {}, {sig}, false) && sig in s0.allowed
    ensures Reachable(s) && s == s0.(agents := [Running(sig), Own, Own], flags := s0.flags.(pending := {}))
  {
    ReadOnward(s0, 0, RunHere, UnlockRead);
    var s1 := Goto(s0, 0, UnlockRead);
    ReadOnward(s1, 0, RunHere, UnlockTodo);
    HighestIn({sig}, 8);
    assert s1.flags.pending * s1.allowed == {sig};
    ReadOnward(Goto(s1, 0, UnlockTodo), 0, RunHere, RunClear(sig));
    s := HandlerStarts(Goto(Goto(s1, 0, UnlockTodo), 0, RunClear(sig)), sig);
  }

  lemma HandlerStarts(s0: State, sig: Sig) returns (s: State)
    requires Reachable(s0) && s0.agents == [RunClear(sig), Own, Own] && s0.flags == Flags(true, {}, {sig}, false)
    ensures Reachable(s) && s == s0.(agents := [Running(sig), Own, Own], flags := s0.flags.(pending := {}))
  {
    assert {sig} - {sig} == {};
    s := Step(s0, Move(0, RunHere));
    Onward(s0, Move(0, RunHere));
  }

  lemma OwnerSends(s0: State, sig: Sig, other: Sig) returns (s: State)
    requires Reachable(s0) && s0.agents == [Running(sig), Own, Own] && s0.refcnt > 0 && other != FINISH
    requires s0.flags == Flags(true, {}, {}, false)
    ensures Reachable(s) && s == s0.(agents := [Running(sig), SendOr({other}), Own])
  {
    Onward(s0, Move(1, Send({other})));
    var s1 := Goto(s0, 1, SendTest({other}));
    ReadOnward(s1, 1, Send({other}), SendSeen({other}));
    s := OwnerReads(Goto(s1, 1, SendSeen({other})), sig, other);
  }

  lemma OwnerReads(s0: State, sig: Sig, other: Sig) returns (s: State)
    requires Reachable(s0) && s0.agents == [Running(sig), SendSeen({other}), Own] && s0.flags == Flags(true, {}, {}, false)
    ensures Reachable(s) && s == s0.(agents := [Running(sig), SendOr({other}), Own])
  {
    assert other in {other};
    ReadOnward(s0, 1, QueueIt, SendRead({other}));
    var s1 := Goto(s0, 1, SendRead({other}));
    ReadOnward(s1, 1, QueueIt, SendOr({other}));
    s := Goto(s1, 1, SendOr({other}));
  }

  /** At most one agent is between locking the job and unlocking it; in particular at most one
      handler runs. */
  lemma MutualExclusion(s: State, i: nat, j: nat)
    requires Reachable(s) && i < |s.agents| && j < |s.agents| && HasLock(s.agents[i]) && HasLock(s.agents[j])
    ensures i == j
  {
    ReachableOk(s);
    if s.destroyed { WhoOne(s.agents, i, Holds); }
    else if i != j { WhoTwo(s.agents, i, j, HasLock); WhoOne(s.agents, i, HasLock); }
  }

  /** No signal is lost: while the job is unlocked with an allowed signal pending, a queue holds an
      entry for it or some call is at a step that will try to lock or enqueue it. */
  lemma NoSignalLost(s: State)
    requires Reachable(s) && !s.destroyed && !s.flags.locked && s.flags.pending * s.allowed != {}
    ensures s.entries != multiset{} || exists i :: 0 <= i < |s.agents| && Watches(s.agents[i])
  {
    ReachableOk(s);
  }

  lemma ClearsOnlyAt(s: State, i: nat, choice: Choice, sig: Sig)
    requires i < |s.agents| && PcOk(s, i, s.agents[i])
    requires sig in s.flags.pending && sig !in Step(s, Move(i, choice)).flags.pending
    ensures s.agents[i] == RunClear(sig) && sig in s.allowed
    ensures Step(s, Move(i, choice)).agents == s.agents[i := Running(sig)]
  {
  }

  /** A pending signal goes away only by being delivered: to a handler run for it, by the agent that
      holds the lock, while it is allowed. */
  lemma ClearedByDelivery(s: State, i: nat, choice: Choice, sig: Sig)
    requires Reachable(s) && i < |s.agents|
    requires sig in s.flags.pending && sig !in Step(s, Move(i, choice)).flags.pending
    ensures HasLock(s.agents[i]) && sig in s.allowed
    ensures Step(s, Move(i, choice)).agents == s.agents[i := Running(sig)]
  {
    ReachableOk(s);
    assert AgentOk(s, i, s.agents[i]);
    ClearsOnlyAt(s, i, choice, sig);
  }

  /** The reference count equals the references held by calls, owners and queues, except at the one
      step at which the last holder has taken it to 0 and is about to put it back to 1. */
  lemma CountIsExact(s: State)
    requires Reachable(s) && !s.destroyed
    ensures s.refcnt == Refs(s) || (s.refcnt == 0 && Refs(s) == 1 && |Who(s.agents, Resets)| == 1)
  {
    ReachableOk(s);
    if i :| i in Who(s.agents, Resets) {
      assert AgentOk(s, i, s.agents[i]);
      ResetOk(s, i);
    }
  }

  /** JS_FINISH is raised at most once, by the holder of the last reference, and only when no allowed
      signal is waiting. */
  lemma FinishRaisedOnce(s: State, a: Action)
    requires Reachable(s) && Step(s, a).raised != s.raised
    ensures s.raised == 0 && Step(s, a).raised == 1
    ensures a.Move? && a.i < |s.agents| && Holds(s.agents[a.i]) && Refs(s) == 1
    ensures s.flags.pending * s.allowed == {}
  {
    ReachableOk(s);
    StepOk(s, a);
    if s.destroyed { DestroyedIsFinal(s, a); }
    var i := a.i;
    var pc := s.agents[i];
    assert AgentOk(s, i, pc);
    assert BeforeRaise(pc);
  }

  /** From the raising of JS_FINISH on, there is at most one reference to the job, and none once it is
      destroyed; no step of anybody then changes it. */
  lemma NobodyElseAfterFinish(s: State, a: Action)
    requires Reachable(s) && s.raised == 1
    ensures Refs(s) <= 1
    ensures s.destroyed ==> Refs(s) == 0 && Step(s, a) == s
  {
    ReachableOk(s);
    if s.destroyed { DestroyedIsFinal(s, a); }
    else if FINISH !in s.flags.pending {
      var i :| 0 <= i < |s.agents| && s.agents[i] == Running(FINISH);
      assert AgentOk(s, i, s.agents[i]);
    }
  }

  // ----- the end of a job -----

  /** A job is destroyed after JS_FINISH was raised, and as long as it is not, somebody holds a reference. */
  ghost predicate EndOk(s: State) {
    if s.destroyed then s.raised == 1 else Refs(s) > 0
  }

  lemma EndStepOk(s: State, a: Action)
    requires Inv(s) && EndOk(s)
    ensures EndOk(Step(s, a))
  {
    if s.destroyed { DestroyedIsFinal(s, a); }
    else if a.Consume? { StillHeld(s, a, |s.agents|); }
    else { EndMoveOk(s, a.i, a.choice); }
  }

  lemma EndMoveOk(s: State, i: nat, choice: Choice)
    requires Inv(s) && EndOk(s) && !s.destroyed
    ensures EndOk(Step(s, Move(i, choice)))
  {
    var a := Move(i, choice);
    if i < |s.agents| && s.agents[i] != Gone {
      if Holds(Step(s, a).agents[i]) { StillHeld(s, a, i); } else { LeaveOk(s, i, choice); }
    }
  }

  lemma StillHeld(s: State, a: Action, i: nat)
    requires Refs(s) > 0 && (i < |Step(s, a).agents| ==> Holds(Step(s, a).agents[i]))
    requires i >= |Step(s, a).agents| ==> Step(s, a) == s
    ensures Refs(Step(s, a)) > 0
  {
    if i < |Step(s, a).agents| { WhoOne(Step(s, a).agents, i, Holds); }
  }

  /** The steps at which a reference is given up. */
  lemma LeavesAt(s: State, i: nat, choice: Choice)
    requires i < |s.agents| && Holds(s.agents[i]) && Step(s, Move(i, choice)).agents[i] == Gone
    ensures var pc, s' := s.agents[i], Step(s, Move(i, choice));
            || (pc.Push? && s' == Goto(s.(entries := s.entries + multiset{pc.c}), i, Gone))
            || ((pc.DecSub? || pc.UnlockSub?) && s.refcnt != 1 && s' == Goto(s.(refcnt := s.refcnt - 1), i, Gone))
            || (pc == Running(FINISH) && s' == Goto(s.(destroyed := true, refcnt := 0), i, Gone))
  {
    var pc := s.agents[i];
    if IsRead(pc) { ReadStays(s, i, choice); }
    else if IsCas(pc) { CasStays(s, i); }
    else if IsRef(pc) { RefLeaves(s, i); }
    else if IsFlag(pc) { FlagStays(s, i); }
    else { ActLeaves(s, i, choice); }
  }

  lemma RefLeaves(s: State, i: nat)
    requires i < |s.agents| && IsRef(s.agents[i]) && Ref(s, i).agents[i] == Gone
    ensures var pc, s' := s.agents[i], Ref(s, i);
            || (pc.Push? && s' == Goto(s.(entries := s.entries + multiset{pc.c}), i, Gone))
            || ((pc.DecSub? || pc.UnlockSub?) && s.refcnt != 1 && s' == Goto(s.(refcnt := s.refcnt - 1), i, Gone))
  {
  }

  lemma ActLeaves(s: State, i: nat, choice: Choice)
    requires i < |s.agents| && (s.agents[i].Own? || s.agents[i].Running?) && Act(s, i, choice).agents[i] == Gone
    ensures s.agents[i] == Running(FINISH) && Act(s, i, choice) == Goto(s.(destroyed := true, refcnt := 0), i, Gone)
  {
  }

  lemma ReadStays(s: State, i: nat, choice: Choice)
    requires i < |s.agents| && IsRead(s.agents[i])
    ensures Read(s, i, s.agents[i], choice) != Gone
  {
  }

  lemma CasStays(s: State, i: nat)
    requires i < |s.agents| && IsCas(s.agents[i])
    ensures Cas(s, i).agents[i] != Gone
  {
  }

  lemma FlagStays(s: State, i: nat)
    requires i < |s.agents| && IsFlag(s.agents[i])
    ensures Flag(s, i).agents[i] != Gone
  {
  }

  /** Who gives up a reference leaves another one, or has run the JS_FINISH handler. */
  lemma LeaveOk(s: State, i: nat, choice: Choice)
    requires Inv(s) && EndOk(s) && !s.destroyed && i < |s.agents| && Holds(s.agents[i]) && Step(s, Move(i, choice)).agents[i] == Gone
    ensures EndOk(Step(s, Move(i, choice)))
  {
    LeavesAt(s, i, choice);
    if s.agents[i].Push? {
      assert s.agents[i].c in s.entries + multiset{s.agents[i].c};
    } else if s.agents[i] == Running(FINISH) {
      assert AgentOk(s, i, s.agents[i]);
    } else {
      OneMore(s, i);
    }
  }

  lemma OneMore(s: State, i: nat)
    requires Inv(s) && !s.destroyed && i < |s.agents| && (s.agents[i].DecSub? || s.agents[i].UnlockSub?) && s.refcnt != 1
    ensures |Who(s.agents[i := Gone], Holds)| + |s.entries| > 0
  {
    WhoCard(s.agents, i, Gone, Holds);
    WhoOne(s.agents, i, Holds);
    if s.refcnt <= 0 {
      var j :| j in Who(s.agents, Resets);
      assert AgentOk(s, j, s.agents[j]);
      WhoTwo(s.agents, i, j, Holds);
      assert false;
    }
  }

  lemma {:induction false} EndRunOk(s: State, sched: seq<Action>)
    requires Inv(s) && EndOk(s)
    ensures EndOk(Run(s, sched))
    decreases sched
  {
    if sched != [] {
      EndStepOk(s, sched[0]);
      StepOk(s, sched[0]);
      EndRunOk(Step(s, sched[0]), sched[1..]);
    }
  }

  /** A job is destroyed exactly when nobody holds a reference to it any more, and JS_FINISH has been raised
      exactly once by then: no job is freed without it, and none is forgotten. */
  lemma EndsOnce(s: State)
    requires Reachable(s)
    ensures s.destroyed <==> Refs(s) == 0
    ensures s.destroyed ==> s.raised == 1
  {
    var allowed: set<Sig>, classes: map<Sig, Cls>, pending: set<Sig>, owners: nat, sched: seq<Action> :|
      FINISH in allowed && FINISH !in pending && s == Run(Init(allowed, classes, pending, owners), sched);
    var s0 := Init(allowed, classes, pending, owners);
    InitOk(allowed, classes, pending, owners);
    WhoOne(s0.agents, 0, Holds);
    EndRunOk(s0, sched);
    ReachableOk(s);
  }

  /** None of the assertions of unlock_job, job_send_signals and job_decref ever fails. */
  lemma NoAssertionFails(s: State, i: nat)
    requires Reachable(s) && i < |s.agents|
    ensures s.agents[i] != Failed
  {
    ReachableOk(s);
    assert AgentOk(s, i, s.agents[i]);
  }
}
