/** One job of jobs/jobs.c under any number of concurrent calls: its flag word, its reference count,
    the entries it has in execution queues, and the calls at work on it.

    An agent is one activation that owns exactly one reference: an idle owner, a call of
    job_send_signals, job_decref, process_one_job or unlock_job, or a handler run by unlock_job.
    Every atomic operation and every plain access to the job's words is one step. */
module JobEngine {
  import opened Counting

  type Sig = n: nat | n < 8
  type Cls = nat

  const FINISH: Sig := 7
  const MAIN: Cls := 3

  datatype Flags = Flags(locked: bool, queued: set<Cls>, pending: set<Sig>, completed: bool)

  datatype Pc =
    | Gone                                    // gave up its reference
    | Own                                     // idle owner of a reference
    // job_send_signals
    | SendTest(sigs: set<Sig>)                // j_refcnt > 0
    | SendSeen(sigs: set<Sig>)                // are they set already?
    | SendCount                               // they are: j_refcnt > 1, or else JS_FINISH is not among them
    | SendLast
    | SendRead(sigs: set<Sig>)
    | SendCas(sigs: set<Sig>, f: Flags)
    | SendOr(sigs: set<Sig>)
    | SendRetry
    | SendRetryCas(f: Flags)
    // job_decref
    | DecTest
    | DecSub
    | DecReset
    | DecLast
    // process_one_job, for an entry taken from the queue of class c by a thread that serves `mask`
    | ProcRead(c: Cls, mask: set<Cls>)
    | ProcTry(qf: set<Cls>)
    | ProcCas(qf: set<Cls>, f: Flags)
    | ProcClear(qf: set<Cls>)
    | ProcRetry
    | ProcRetryCas(f: Flags)
    // the end of try_lock_job, and unlock_job
    | LockStore
    | UnlockCheck
    | UnlockRead                              // JF_LOCKED is set
    | UnlockTodo
    | UnlockCas(f: Flags)
    | UnlockTest
    | UnlockSub
    | UnlockReset
    | UnlockLast
    | UnlockStatus                            // JS_FINISH is allowed
    | UnlockLoad
    | UnlockRaise(f: Flags)
    | RunClear(sig: Sig)
    | Running(sig: Sig)
    | RunResult(again: set<Sig>, complete: bool)
    | RunComplete
    | QueueCas(f: Flags, c: Cls)
    | Push(c: Cls)
    // an assertion of the source failed
    | Failed

  datatype Choice =
    | Incref                                  // an owner or a handler makes one more reference
    | Send(sigs: set<Sig>)
    | Drop
    | RunHere                                 // this thread serves the signal's class and may run it now
    | QueueIt
    | SetAllowed(sigs: set<Sig>, classes: map<Sig, Cls>) // job_change_signals, in a handler
    | Return(again: set<Sig>, complete: bool) // the handler's result

  datatype Action = Move(i: nat, choice: Choice) | Consume(c: Cls, mask: set<Cls>)

  datatype State = State(
    flags: Flags,
    refcnt: int,
    thread: nat,                 // j_thread: the agent that stored itself there last
    allowed: set<Sig>,
    classes: map<Sig, Cls>,      // j_sigclass; a class of 0 stands for any context
    entries: multiset<Cls>,      // entries for this job in the queues
    agents: seq<Pc>,
    raised: nat,                 // history: how often JS_FINISH was raised
    destroyed: bool)

  /** After create_async_job: the job is locked.  The creator, who goes on to unlock it and give up the first
      reference, has set the signals in `pending` (schedule_job sets JS_RUN) and made references for `owners`
      others, who use them from now on. */
  function Init(allowed: set<Sig>, classes: map<Sig, Cls>, pending: set<Sig>, owners: nat): State {
    State(Flags(true, {}, pending, false), owners + 1, 0, allowed, classes, multiset{},
          [UnlockCheck] + seq(owners, _ => Own), 0, false)
  }

  /** The highest pending signal: 7 - clz(todo). */
  function Highest(todo: set<Sig>, below: nat): Sig
    requires below <= 8
  {
    if below == 0 then 0
    else if below - 1 in todo then below - 1
    else Highest(todo, below - 1)
  }

  function QueueClass(classes: map<Sig, Cls>, sig: Sig): Cls {
    if sig in classes && classes[sig] != 0 then classes[sig] else MAIN
  }

  // ----- steps that only read -----

  predicate IsRead(pc: Pc) {
    pc.SendTest? || pc.SendSeen? || pc.SendCount? || pc.SendLast? || pc.SendRead? || pc.SendRetry?
    || pc.DecTest? || pc.DecLast? || pc.ProcRead? || pc.ProcTry? || pc.ProcRetry?
    || pc.UnlockCheck? || pc.UnlockRead? || pc.UnlockTodo? || pc.UnlockTest? || pc.UnlockLast? || pc.UnlockStatus?
    || pc.UnlockLoad?
  }

  function Read(s: State, i: nat, pc: Pc, choice: Choice): Pc
    requires IsRead(pc)
  {
    match pc
    case SendTest(sigs) => if s.refcnt > 0 then SendSeen(sigs) else Failed
    case SendSeen(sigs) => if sigs <= s.flags.pending then SendCount else SendRead(sigs)
    case SendCount => if s.refcnt > 1 then DecTest else SendLast
    case SendLast => if FINISH !in s.flags.pending then DecTest else Failed
    case SendRead(sigs) => if s.flags.locked then SendOr(sigs) else SendCas(sigs, s.flags)
    case SendRetry => if s.flags.locked then DecTest else SendRetryCas(s.flags)
    case DecTest => if s.refcnt >= 2 then DecSub else DecLast
    case DecLast => if s.refcnt == 1 then SendTest({FINISH}) else Failed
    case ProcRead(_, mask) => ProcTry(s.flags.queued * mask)
    case ProcTry(qf) => if s.flags.locked then ProcClear(qf) else ProcCas(qf, s.flags)
    case ProcRetry => if s.flags.locked then DecTest else ProcRetryCas(s.flags)
    case UnlockCheck => if s.thread == i then UnlockRead else Failed
    case UnlockRead => if s.flags.locked then UnlockTodo else Failed
    case UnlockTodo =>
      var todo := s.flags.pending * s.allowed;
      if todo == {} then UnlockCas(s.flags)
      else
        var sig := Highest(todo, 8);
        if choice.RunHere? then RunClear(sig) else QueueCas(s.flags, QueueClass(s.classes, sig))
    case UnlockTest => if s.refcnt >= 2 then UnlockSub else UnlockLast
    case UnlockLast => if s.refcnt == 1 then UnlockStatus else Failed
    case UnlockStatus => if FINISH in s.allowed then UnlockLoad else Failed
    case UnlockLoad => UnlockRaise(s.flags)
  }

  // ----- steps that write -----

  function Goto(s: State, i: nat, pc: Pc): State
    requires i < |s.agents|
  {
    s.(agents := s.agents[i := pc])
  }

  predicate IsCas(pc: Pc) {
    pc.SendCas? || pc.SendRetryCas? || pc.ProcCas? || pc.ProcRetryCas? || pc.UnlockCas? || pc.QueueCas?
  }

  /** The six compare-and-swaps of the flag word: to what, and where success and failure lead. */
  function CasTo(pc: Pc): (Flags, Pc, Pc)
    requires IsCas(pc)
  {
    match pc
    case SendCas(sigs, f) => (f.(pending := f.pending + sigs, locked := true), LockStore, SendRead(sigs))
    case SendRetryCas(f) => (f.(locked := true), LockStore, SendRetry)
    case ProcCas(qf, f) => (f.(queued := f.queued - qf, locked := true), LockStore, ProcTry(qf))
    case ProcRetryCas(f) => (f.(locked := true), LockStore, ProcRetry)
    case UnlockCas(f) => (f.(locked := false), UnlockTest, UnlockRead)
    case QueueCas(f, c) =>
      (f.(queued := f.queued + {c}, locked := false), if c in f.queued then DecTest else Push(c), UnlockRead)
  }

  function Cas(s: State, i: nat): State
    requires i < |s.agents| && IsCas(s.agents[i])
  {
    var (to, yes, no) := CasTo(s.agents[i]);
    if s.flags == s.agents[i].f
    then Goto(s.(flags := to, raised := if FINISH in to.pending - s.flags.pending then s.raised + 1 else s.raised), i, yes)
    else Goto(s, i, no)
  }

  predicate IsRef(pc: Pc) { pc.DecSub? || pc.DecReset? || pc.UnlockSub? || pc.UnlockReset? || pc.Push? }

  function Ref(s: State, i: nat): State
    requires i < |s.agents| && IsRef(s.agents[i])
  {
    match s.agents[i]
    case DecSub => Goto(s.(refcnt := s.refcnt - 1), i, if s.refcnt != 1 then Gone else DecReset)
    case DecReset => Goto(s.(refcnt := 1), i, DecLast)
    case UnlockSub => Goto(s.(refcnt := s.refcnt - 1), i, if s.refcnt != 1 then Gone else UnlockReset)
    case UnlockReset => Goto(s.(refcnt := 1), i, UnlockLast)
    case Push(c) => Goto(s.(entries := s.entries + multiset{c}), i, Gone)
  }

  predicate IsFlag(pc: Pc) {
    pc.SendOr? || pc.ProcClear? || pc.LockStore? || pc.UnlockRaise? || pc.RunClear? || pc.RunResult? || pc.RunComplete?
  }

  function Flag(s: State, i: nat): State
    requires i < |s.agents| && IsFlag(s.agents[i])
  {
    match s.agents[i]
    case SendOr(sigs) => Goto(s.(flags := s.flags.(pending := s.flags.pending + sigs)), i, SendRetry)
    case ProcClear(qf) => Goto(s.(flags := s.flags.(queued := s.flags.queued - qf)), i, ProcRetry)
    case LockStore => Goto(s.(thread := i), i, UnlockCheck)
    case UnlockRaise(f) =>
      Goto(s.(flags := f.(pending := f.pending + {FINISH}, locked := true), raised := s.raised + 1), i, UnlockRead)
    case RunClear(sig) => Goto(s.(flags := s.flags.(pending := s.flags.pending - {sig})), i, Running(sig))
    case RunResult(again, complete) =>
      Goto(s.(flags := s.flags.(pending := s.flags.pending + again)), i, if complete then RunComplete else UnlockRead)
    case RunComplete => Goto(s.(flags := s.flags.(completed := true)), i, UnlockRead)
  }

  /** What owners and handlers may do.  Only JS_FINISH handlers free the job, and they do nothing else
      to it; nobody sends JS_FINISH except by dropping the last reference. */
  function Act(s: State, i: nat, choice: Choice): State
    requires i < |s.agents| && (s.agents[i].Own? || s.agents[i].Running?)
  {
    var pc := s.agents[i];
    if pc == Running(FINISH) then
      if choice.Return? then Goto(s.(destroyed := true, refcnt := 0), i, Gone) else s
    else
      match choice
      case Incref => s.(refcnt := s.refcnt + 1, agents := s.agents + [Own])
      case Send(sigs) => if pc.Own? && FINISH !in sigs then Goto(s, i, SendTest(sigs)) else s
      case Drop => if pc.Own? then Goto(s, i, DecTest) else s
      case SetAllowed(sigs, classes) =>
        if pc.Running? && FINISH in sigs then s.(allowed := sigs, classes := classes) else s
      case Return(again, complete) =>
        if pc.Running? && FINISH !in again then Goto(s, i, RunResult(again, complete)) else s
      case _ => s
  }

  function Step(s: State, a: Action): State {
    match a
    case Consume(c, mask) =>
      if c in s.entries && c in mask
      then s.(entries := s.entries - multiset{c}, agents := s.agents + [ProcRead(c, mask)])
      else s
    case Move(i, choice) =>
      if i >= |s.agents| then s
      else
        var pc := s.agents[i];
        if IsRead(pc) then Goto(s, i, Read(s, i, pc, choice))
        else if IsCas(pc) then Cas(s, i)
        else if IsRef(pc) then Ref(s, i)
        else if IsFlag(pc) then Flag(s, i)
        else if pc.Own? || pc.Running? then Act(s, i, choice)
        else s
  }

  function Run(s: State, sched: seq<Action>): State
    decreases sched
  {
    if sched == [] then s else Run(Step(s, sched[0]), sched[1..])
  }

  ghost predicate Reachable(s: State) {
    exists allowed: set<Sig>, classes: map<Sig, Cls>, pending: set<Sig>, owners: nat, sched: seq<Action> ::
      FINISH in allowed && FINISH !in pending && s == Run(Init(allowed, classes, pending, owners), sched)
  }

  // ----- what an agent holds -----

  predicate Holds(pc: Pc) { !pc.Gone? }

  predicate HasLock(pc: Pc) {
    pc.LockStore? || pc.UnlockCheck? || pc.UnlockRead? || pc.UnlockTodo? || pc.UnlockCas? || pc.RunClear?
    || pc.Running? || pc.RunResult? || pc.RunComplete? || pc.QueueCas?
  }

  /** The count has gone to 0 and is about to be put back to 1. */
  predicate Resets(pc: Pc) { pc.DecReset? || pc.UnlockReset? }

  /** On the way to raising JS_FINISH. */
  predicate BeforeRaise(pc: Pc) {
    Resets(pc) || pc.DecLast? || pc.UnlockLast? || pc.UnlockStatus? || pc.UnlockLoad? || pc.UnlockRaise?
    || ((pc.SendTest? || pc.SendSeen? || pc.SendRead? || pc.SendCas?) && FINISH in pc.sigs)
  }

  /** Where the one holder can be between the raising of JS_FINISH and its delivery. */
  predicate AfterRaise(pc: Pc) {
    pc.LockStore? || pc.UnlockCheck? || pc.UnlockRead? || pc.UnlockTodo? || pc == RunClear(FINISH) || pc.QueueCas? || pc.Push?
    || pc.ProcRead? || pc.ProcTry? || pc.ProcCas? || pc.ProcClear? || pc.ProcRetry? || pc.ProcRetryCas?
  }

  /** Responsible for queue flag c. */
  predicate Carries(pc: Pc, c: Cls) {
    match pc
    case Push(d) => c == d
    case ProcRead(d, mask) => c == d && c in mask
    case ProcTry(qf) => c in qf
    case ProcCas(qf, _) => c in qf
    case ProcClear(qf) => c in qf
    case _ => false
  }

  /** At a step that will try to lock the job or put it into a queue. */
  predicate Watches(pc: Pc) {
    pc.SendRead? || pc.SendCas? || pc.SendOr? || pc.SendRetry? || pc.SendRetryCas? || pc.Push?
    || pc.ProcRead? || pc.ProcTry? || pc.ProcCas? || pc.ProcClear? || pc.ProcRetry? || pc.ProcRetryCas?
  }

  // ----- invariant -----

  ghost function Refs(s: State): int {
    |Who(s.agents, Holds)| + |s.entries|
  }

  ghost predicate PcOk(s: State, i: nat, pc: Pc) {
    match pc
    case Failed => false
    case SendCas(_, f) => !f.locked
    case SendOr(sigs) => FINISH !in sigs
    case SendRetryCas(f) => !f.locked
    case ProcCas(_, f) => !f.locked
    case ProcRetryCas(f) => !f.locked
    case UnlockCheck => s.thread == i
    case UnlockCas(f) => f.locked && f.pending * s.allowed == {}
    case QueueCas(f, _) => f.locked
    case UnlockRaise(f) => f == s.flags
    case RunClear(sig) => sig in s.flags.pending && sig in s.allowed
    case RunResult(again, _) => FINISH !in again
    case _ => true
  }

  ghost predicate AgentOk(s: State, i: nat, pc: Pc) {
    && PcOk(s, i, pc)
    && (BeforeRaise(pc) ==>
          Refs(s) == 1 && FINISH !in s.flags.pending && s.raised == 0 && s.flags.pending * s.allowed == {})
    && (pc == Running(FINISH) ==> Refs(s) == 1 && FINISH !in s.flags.pending && s.raised == 1)
    && (FINISH in s.flags.pending && Holds(pc) ==> AfterRaise(pc))
  }

  ghost predicate AgentsOk(s: State) {
    forall i :: 0 <= i < |s.agents| ==> AgentOk(s, i, s.agents[i])
  }

  ghost predicate CountsOk(s: State) {
    && (!s.destroyed ==> s.refcnt + |Who(s.agents, Resets)| == Refs(s))
    && (!s.destroyed ==> |Who(s.agents, HasLock)| == Ind(s.flags.locked))
    && (s.destroyed ==> Refs(s) == 0)
  }

  ghost predicate FinishOk(s: State) {
    && FINISH in s.allowed && s.raised <= 1
    && (FINISH in s.flags.pending ==> Refs(s) == 1 && s.raised == 1)
    && (s.raised == 1 ==> FINISH in s.flags.pending || s.destroyed || exists i :: 0 <= i < |s.agents| && s.agents[i] == Running(FINISH))
  }

  /** A queue flag is set only while someone answers for it. */
  ghost predicate QueueOk(s: State) {
    forall c :: c in s.flags.queued ==>
      c in s.entries || exists i :: 0 <= i < |s.agents| && Carries(s.agents[i], c)
  }

  /** No allowed signal is lost. */
  ghost predicate SignalOk(s: State) {
    !s.flags.locked && s.flags.pending * s.allowed != {} ==>
      s.entries != multiset{} || exists i :: 0 <= i < |s.agents| && Watches(s.agents[i])
  }

  ghost predicate Inv(s: State) {
    AgentsOk(s) && CountsOk(s) && FinishOk(s) && (!s.destroyed ==> QueueOk(s) && SignalOk(s))
  }
}
