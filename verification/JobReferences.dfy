/** The references to one job over whole runs: each is made by a call and given up by one, and none is made or lost
    otherwise; and the signals allowed and their classes are those that a handler has set last. */
module JobReferences {
  import opened Counting
  import opened JobEngine
  import opened JobEngineSafety

  /** The references made and given up by accepted calls: job_incref makes one; whoever leaves without having put the
      job into a queue has given one up. */
  datatype Log = Log(made: nat, dropped: nat)

  predicate Makes(s: State, a: Action) {
    a.Move? && a.i < |s.agents| && (s.agents[a.i].Own? || s.agents[a.i].Running?) && s.agents[a.i] != Running(FINISH)
    && a.choice.Incref?
  }

  predicate Drops(s: State, a: Action) {
    a.Move? && a.i < |s.agents| && Holds(s.agents[a.i]) && !s.agents[a.i].Push? && !Holds(AgentAfter(s, a))
  }

  function AgentAfter(s: State, a: Action): Pc
    requires a.Move? && a.i < |s.agents|
  {
    if a.i < |Step(s, a).agents| then Step(s, a).agents[a.i] else Gone
  }

  function LogBy(s: State, a: Action, log: Log): Log {
    Log(if Makes(s, a) then log.made + 1 else log.made, if Drops(s, a) then log.dropped + 1 else log.dropped)
  }

  function LogIn(s: State, sched: seq<Action>, log: Log): Log
    decreases sched
  {
    if sched == [] then log else LogIn(Step(s, sched[0]), sched[1..], LogBy(s, sched[0], log))
  }

  // ----- one step -----

  lemma ConsumeRefs(s: State, c: Cls, mask: set<Cls>)
    ensures Refs(Step(s, Consume(c, mask))) == Refs(s)
  {
    if c in s.entries && c in mask { WhoAppend(s.agents, ProcRead(c, mask), Holds); }
  }

  lemma IncrefRefs(s: State, i: nat)
    requires i < |s.agents| && Makes(s, Move(i, Incref))
    ensures Refs(Step(s, Move(i, Incref))) == Refs(s) + 1 && !Drops(s, Move(i, Incref))
  {
    WhoAppend(s.agents, Own, Holds);
  }

  /** Nothing but Push adds an entry, nothing but job_incref an agent. */
  lemma MoveFrame(s: State, i: nat, choice: Choice)
    requires i < |s.agents| && !Makes(s, Move(i, choice)) && !s.agents[i].Push?
    ensures Step(s, Move(i, choice)).entries == s.entries
    ensures |Step(s, Move(i, choice)).agents| == |s.agents|
    ensures Step(s, Move(i, choice)).agents == s.agents[i := Step(s, Move(i, choice)).agents[i]]
  {
    var pc := s.agents[i];
    if IsCas(pc) { CasFrame(s, i); }
    else if IsRef(pc) { RefFrame(s, i); }
    else if IsFlag(pc) { FlagFrame(s, i); }
    else if pc.Own? || pc.Running? { ActFrame(s, i, choice); }
  }

  /** Only agent i moves, and no entry comes or goes. */
  predicate Frame(s: State, s': State, i: nat)
    requires i < |s.agents|
  {
    s'.entries == s.entries && |s'.agents| == |s.agents| && s'.agents == s.agents[i := s'.agents[i]]
  }

  lemma CasFrame(s: State, i: nat)
    requires i < |s.agents| && IsCas(s.agents[i])
    ensures Frame(s, Cas(s, i), i)
  {
  }

  lemma RefFrame(s: State, i: nat)
    requires i < |s.agents| && IsRef(s.agents[i]) && !s.agents[i].Push?
    ensures Frame(s, Ref(s, i), i)
  {
  }

  lemma FlagFrame(s: State, i: nat)
    requires i < |s.agents| && IsFlag(s.agents[i])
    ensures Frame(s, Flag(s, i), i)
  {
  }

  lemma ActFrame(s: State, i: nat, choice: Choice)
    requires i < |s.agents| && (s.agents[i].Own? || s.agents[i].Running?) && !Makes(s, Move(i, choice))
    ensures Frame(s, Act(s, i, choice), i)
  {
  }

  lemma GoneStays(s: State, i: nat, choice: Choice)
    requires i < |s.agents| && !Holds(s.agents[i])
    ensures Step(s, Move(i, choice)) == s
  {
  }

  lemma MoveRefs(s: State, i: nat, choice: Choice)
    requires i < |s.agents| && !Makes(s, Move(i, choice)) && !s.agents[i].Push?
    ensures Refs(Step(s, Move(i, choice))) == Refs(s) - Ind(Drops(s, Move(i, choice)))
  {
    if Holds(s.agents[i]) {
      MoveFrame(s, i, choice);
      WhoCard(s.agents, i, Step(s, Move(i, choice)).agents[i], Holds);
    } else {
      GoneStays(s, i, choice);
    }
  }

  lemma PushRefs(s: State, i: nat, choice: Choice)
    requires i < |s.agents| && s.agents[i].Push?
    ensures Refs(Step(s, Move(i, choice))) == Refs(s)
  {
    WhoCard(s.agents, i, Gone, Holds);
  }

  lemma StepRefs(s: State, a: Action, log: Log)
    ensures Refs(Step(s, a)) - Refs(s) == LogBy(s, a, log).made - log.made - LogBy(s, a, log).dropped + log.dropped
  {
    match a
    case Consume(c, mask) => ConsumeRefs(s, c, mask);
    case Move(i, choice) =>
      if i < |s.agents| {
        if Makes(s, a) { IncrefRefs(s, i); }
        else if s.agents[i].Push? { PushRefs(s, i, choice); }
        else { MoveRefs(s, i, choice); }
      }
  }

  // ----- whole runs -----

  lemma {:induction false} RunRefs(s: State, sched: seq<Action>, log: Log)
    ensures Refs(Run(s, sched)) - Refs(s) == LogIn(s, sched, log).made - log.made - LogIn(s, sched, log).dropped + log.dropped
    decreases sched
  {
    if sched != [] {
      StepRefs(s, sched[0], log);
      RunRefs(Step(s, sched[0]), sched[1..], LogBy(s, sched[0], log));
    }
  }

  /** In every run, the references to the job are those of its creator and its first owners, and those made since,
      without those given up. */
  lemma ReferencesBalance(allowed: set<Sig>, classes: map<Sig, Cls>, pending: set<Sig>, owners: nat, sched: seq<Action>)
    ensures var s0 := Init(allowed, classes, pending, owners);
            var log := LogIn(s0, sched, Log(0, 0));
            Refs(Run(s0, sched)) == 1 + owners + log.made - log.dropped
  {
    var s0 := Init(allowed, classes, pending, owners);
    WhoAll(s0.agents, Holds);
    RunRefs(s0, sched, Log(0, 0));
  }

  // ----- the signals allowed -----

  /** The signals allowed and their classes. */
  datatype Settings = Settings(allowed: set<Sig>, classes: map<Sig, Cls>)

  /** job_change_signals, by a handler other than that of JS_FINISH. */
  function SettingsBy(s: State, a: Action, was: Settings): Settings {
    if a.Move? && a.i < |s.agents| && s.agents[a.i].Running? && s.agents[a.i] != Running(FINISH)
       && a.choice.SetAllowed? && FINISH in a.choice.sigs
    then Settings(a.choice.sigs, a.choice.classes) else was
  }

  function SettingsIn(s: State, sched: seq<Action>, was: Settings): Settings
    decreases sched
  {
    if sched == [] then was else SettingsIn(Step(s, sched[0]), sched[1..], SettingsBy(s, sched[0], was))
  }

  lemma StepSettings(s: State, a: Action)
    ensures var s' := Step(s, a); Settings(s'.allowed, s'.classes) == SettingsBy(s, a, Settings(s.allowed, s.classes))
  {
  }

  /** The signals allowed and their classes are those that a handler has set last. */
  lemma {:induction false} SettingsAre(s: State, sched: seq<Action>)
    ensures var s' := Run(s, sched); Settings(s'.allowed, s'.classes) == SettingsIn(s, sched, Settings(s.allowed, s.classes))
    decreases sched
  {
    if sched != [] {
      StepSettings(s, sched[0]);
      SettingsAre(Step(s, sched[0]), sched[1..]);
    }
  }
}
