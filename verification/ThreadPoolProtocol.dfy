/** The thread pool as a transition system: any number of posters and workers, one step per
    critical section of lock_ or of the condition's mutex, plus the destructor. */
module ThreadPoolProtocol {
  import opened Counting

  type Task = nat

  /** LNE_UINT is a 32-bit unsigned int; its arithmetic wraps. */
  const WORD := 0x1_0000_0000

  function Plus(a: nat, b: nat): nat {
    (a + b) % WORD
  }

  function Minus(a: nat, b: nat): nat {
    (a - b) % WORD
  }

  // ---------------------------------------------------------------------------------------
  // What lock_ protects, and the four critical sections that change it
  // ---------------------------------------------------------------------------------------

  datatype Shared = Shared(tasks: seq<Task>, numTasks: nat, runThread: nat, numThread: nat, limit: nat)

  /** The growth rule of PostTask, tested after the task has been appended. */
  predicate WantsThread(sh: Shared) {
    sh.numThread < sh.limit && sh.numTasks > Minus(sh.numThread, sh.runThread)
  }

  /** PostTask up to its Signal; `created` is what the thread creation call answers. */
  function Appended(sh: Shared, task: Task, created: bool): Shared {
    var a := sh.(tasks := sh.tasks + [task], numTasks := Plus(sh.numTasks, 1));
    if WantsThread(a) && created then a.(numThread := Plus(a.numThread, 1)) else a
  }

  /** A worker takes the head of the queue in order to service it. */
  function Taken(sh: Shared): Shared
    requires sh.tasks != []
  {
    sh.(tasks := sh.tasks[1..], numTasks := Minus(sh.numTasks, 1), runThread := Plus(sh.runThread, 1))
  }

  /** A leaving worker takes the head of the queue in order to discard it. */
  function Dropped(sh: Shared): Shared
    requires sh.tasks != []
  {
    sh.(tasks := sh.tasks[1..], numTasks := Minus(sh.numTasks, 1))
  }

  function CountedDown(sh: Shared): Shared {
    sh.(runThread := Minus(sh.runThread, 1))
  }

  // ---------------------------------------------------------------------------------------
  // States and steps
  // ---------------------------------------------------------------------------------------

  /** Where a worker stands in Service. */
  datatype Phase =
    | AtWait                   // about to call condition_.Wait
    | Blocked                  // inside pthread_cond_wait
    | Woken                    // wait over, mutex_ not yet reacquired
    | Passed                   // Wait returned, exit_request_ not yet tested
    | Draining                 // about to take a task
    | Running(task: Task)      // inside task->Service
    | Serviced                 // service over, run_thread_ not yet decremented
    | Rechecking(got: bool)    // at the inner loop's condition
    | Outer                    // at the outer loop's condition
    | Leaving                  // about to pass the exit signal on
    | CleaningUp               // about to take a task to discard
    | Discarding(task: Task)   // inside task->Discard
    | Finished

  datatype Destructor = Alive | ExitSet | Joining(next: nat) | Sweeping | Gone

  /** What has happened so far: tasks posted, taken off the queue, serviced and discarded. */
  datatype Log = Log(posted: seq<Task>, taken: seq<Task>, serviced: seq<Task>, discarded: seq<Task>)

  datatype State = State(
    sh: Shared, workers: seq<Phase>, signal: bool, exit: bool, posting: bool, dtor: Destructor, log: Log)

  /** Signals name the blocked worker that pthread_cond_signal picks.  The operating system
      may let further workers return: those are Spurious steps. */
  datatype Action =
    | PostAppend(task: Task, created: bool)
    | PostSignal(pick: nat)
    | WaitCall(w: nat)
    | WaitReturn(w: nat)
    | Spurious(w: nat)
    | TestExit(w: nat)
    | Take(w: nat)
    | RunTask(w: nat)
    | CountDown(w: nat)
    | Recheck(w: nat)
    | OuterCheck(w: nat)
    | LeaveSignal(w: nat, pick: nat)
    | CleanTake(w: nat)
    | DiscardTask(w: nat)
    | DtorBegin
    | DtorSignal(pick: nat)
    | DtorJoin
    | DtorSweep

  function IsBlocked(p: Phase): nat { if p.Blocked? then 1 else 0 }

  function IsWoken(p: Phase): nat { if p.Woken? then 1 else 0 }

  /** Workers that will look at the queue again before they wait. */
  function IsAwake(p: Phase): nat {
    if p.Passed? || p.Draining? || p.Running? || p.Serviced? || (p.Rechecking? && p.got) then 1 else 0
  }

  /** Workers counted by run_thread_. */
  function IsBusy(p: Phase): nat { if p.Running? || p.Serviced? then 1 else 0 }

  /** Workers that may have to be woken before they can finish. */
  function IsIdle(p: Phase): nat { if p.AtWait? || p.Blocked? then 1 else 0 }

  /** Workers that will still pass the exit signal on. */
  function IsLive(p: Phase): nat {
    if p.Woken? || p.Passed? || p.Draining? || p.Running? || p.Serviced? || p.Rechecking? || p.Outer? || p.Leaving?
    then 1 else 0
  }

  function IsPast(p: Phase): nat {
    if p.Leaving? || p.CleaningUp? || p.Discarding? || p.Finished? then 1 else 0
  }

  function IsFinished(p: Phase): nat { if p.Finished? then 1 else 0 }

  function IsUnfinished(p: Phase): nat { if p.Finished? then 0 else 1 }

  /** How often a worker in phase p holds task t: out of the queue, with its Service or Discard
      not returned yet. */
  function Holds(t: Task, p: Phase): nat {
    if (p.Running? || p.Discarding?) && p.task == t then 1 else 0
  }

  function Holding(t: Task): Phase -> nat {
    p => Holds(t, p)
  }

  predicate At(s: State, w: nat, p: Phase) {
    w < |s.workers| && s.workers[w] == p
  }

  function Put(s: State, w: nat, p: Phase): State
    requires w < |s.workers|
  {
    s.(workers := s.workers[w := p])
  }

  /** The choice made by Signal is legal: with signal_ clear and somebody blocked, a blocked
      worker is picked. */
  predicate SignalOk(s: State, pick: nat) {
    !s.signal && Count(s.workers, IsBlocked) > 0 ==> At(s, pick, Blocked)
  }

  /** ThreadCondition::Signal under mutex_. */
  function Signalled(s: State, pick: nat): State {
    if s.signal then s
    else if At(s, pick, Blocked) then Put(s, pick, Woken).(signal := true)
    else s.(signal := true)
  }

  predicate Enabled(s: State, a: Action) {
    match a
    case PostAppend(_, _) => s.dtor.Alive? && !s.posting
    case PostSignal(pick) => s.posting && SignalOk(s, pick)
    case WaitCall(w) => At(s, w, AtWait)
    case WaitReturn(w) => At(s, w, Woken)
    case Spurious(w) => At(s, w, Blocked)
    case TestExit(w) => At(s, w, Passed)
    case Take(w) => At(s, w, Draining) && !s.posting
    case RunTask(w) => w < |s.workers| && s.workers[w].Running?
    case CountDown(w) => At(s, w, Serviced) && !s.posting
    case Recheck(w) => w < |s.workers| && s.workers[w].Rechecking?
    case OuterCheck(w) => At(s, w, Outer)
    case LeaveSignal(w, pick) => At(s, w, Leaving) && SignalOk(s, pick)
    case CleanTake(w) => At(s, w, CleaningUp) && !s.posting
    case DiscardTask(w) => w < |s.workers| && s.workers[w].Discarding?
    case DtorBegin => s.dtor.Alive? && !s.posting
    case DtorSignal(pick) => s.dtor.ExitSet? && SignalOk(s, pick)
    case DtorJoin =>
      s.dtor.Joining? && (s.dtor.next < |s.workers| ==> s.workers[s.dtor.next].Finished?)
    case DtorSweep => s.dtor.Sweeping?
  }

  function Do(s: State, a: Action): State
    requires Enabled(s, a)
  {
    match a
    case PostAppend(task, created) =>
      var sh := Appended(s.sh, task, created);
      s.(sh := sh, posting := true, log := s.log.(posted := s.log.posted + [task]),
         workers := if sh.numThread != s.sh.numThread then s.workers + [AtWait] else s.workers)
    case PostSignal(pick) => Signalled(s, pick).(posting := false)
    case WaitCall(w) => if s.signal then Put(s, w, Passed).(signal := false) else Put(s, w, Blocked)
    case WaitReturn(w) => Put(s, w, Passed).(signal := false)
    case Spurious(w) => Put(s, w, Woken)
    case TestExit(w) => Put(s, w, if s.exit then Leaving else Draining)
    case Take(w) =>
      if s.sh.tasks == [] then Put(s, w, Rechecking(false))
      else Put(s, w, Running(s.sh.tasks[0])).(sh := Taken(s.sh), log := s.log.(taken := s.log.taken + [s.sh.tasks[0]]))
    case RunTask(w) => Put(s, w, Serviced).(log := s.log.(serviced := s.log.serviced + [s.workers[w].task]))
    case CountDown(w) => Put(s, w, Rechecking(true)).(sh := CountedDown(s.sh))
    case Recheck(w) => Put(s, w, if !s.exit && s.workers[w].got then Draining else Outer)
    case OuterCheck(w) => Put(s, w, if s.exit then Leaving else AtWait)
    case LeaveSignal(w, pick) => Put(Signalled(s, pick), w, CleaningUp)
    case CleanTake(w) =>
      if s.sh.tasks == [] then Put(s, w, Finished)
      else Put(s, w, Discarding(s.sh.tasks[0])).(sh := Dropped(s.sh), log := s.log.(taken := s.log.taken + [s.sh.tasks[0]]))
    case DiscardTask(w) => Put(s, w, CleaningUp).(log := s.log.(discarded := s.log.discarded + [s.workers[w].task]))
    case DtorBegin => s.(exit := true, dtor := ExitSet)
    case DtorSignal(pick) => Signalled(s, pick).(dtor := Joining(0))
    case DtorJoin => s.(dtor := if s.dtor.next < |s.workers| then Joining(s.dtor.next + 1) else Sweeping)
    case DtorSweep =>
      if s.sh.tasks == [] then s.(dtor := Gone)
      else s.(sh := s.sh.(tasks := s.sh.tasks[1..]),
              log := s.log.(taken := s.log.taken + [s.sh.tasks[0]], discarded := s.log.discarded + [s.sh.tasks[0]]))
  }

  /** The state the constructor leaves: `init` idle workers. */
  function Start(init: nat, limit: nat): State {
    State(Shared([], 0, 0, init, limit), seq(init, i => AtWait), false, false, false, Alive, Log([], [], [], []))
  }

  predicate Legal(s: State, run: seq<Action>)
    decreases |run|
  {
    run != [] ==> Enabled(s, run[0]) && Legal(Do(s, run[0]), run[1..])
  }

  function After(s: State, run: seq<Action>): State
    requires Legal(s, run)
    decreases |run|
  {
    if run == [] then s else After(Do(s, run[0]), run[1..])
  }

  ghost predicate Reachable(s: State) {
    exists init: nat, limit: nat, run: seq<Action> ::
      && 1 <= init <= limit < WORD
      && Legal(Start(init, limit), run)
      && s == After(Start(init, limit), run)
  }

  // ---------------------------------------------------------------------------------------
  // The invariant
  // ---------------------------------------------------------------------------------------

  predicate Counters(s: State) {
    && s.sh.limit < WORD
    && 1 <= s.sh.numThread == |s.workers| <= s.sh.limit
    && s.sh.runThread == Count(s.workers, IsBusy)
    && (!s.dtor.Sweeping? && !s.dtor.Gone? ==> s.sh.numTasks == |s.sh.tasks| % WORD)
  }

  /** A set signal_ with workers blocked means that one of them is already on its way. */
  predicate Wakeups(s: State) {
    s.signal ==> Count(s.workers, IsBlocked) == 0 || Count(s.workers, IsWoken) > 0
  }

  predicate Attended(s: State) {
    !s.exit && s.sh.tasks != [] ==>
      s.signal || s.posting || Count(s.workers, IsWoken) + Count(s.workers, IsAwake) > 0
  }

  predicate Fifo(s: State) {
    s.log.posted == s.log.taken + s.sh.tasks
  }

  function IsTask(t: Task): Task -> nat {
    u => if u == t then 1 else 0
  }

  /** How often t occurs in ts. */
  function Times(ts: seq<Task>, t: Task): nat {
    Count(ts, IsTask(t))
  }

  predicate Ledger(s: State, t: Task) {
    Times(s.log.taken, t) == Times(s.log.serviced, t) + Times(s.log.discarded, t) + Count(s.workers, Holding(t))
  }

  /** Every task taken was serviced, was discarded, or is being worked on: once. */
  ghost predicate Once(s: State) {
    forall t :: Ledger(s, t)
  }

  /** The exit signal is never lost: a worker that still has to be woken can count on a set
      signal_ or on a worker that has yet to pass the signal on. */
  predicate Cascade(s: State) {
    s.exit && !s.dtor.ExitSet? && Count(s.workers, IsIdle) > 0 ==>
      s.signal || Count(s.workers, IsLive) > 0
  }

  predicate Exiting(s: State) {
    && (s.exit <==> !s.dtor.Alive?)
    && (s.posting ==> s.dtor.Alive?)
    && (!s.exit ==> Count(s.workers, IsPast) == 0 && s.log.discarded == [])
  }

  predicate Joined(s: State) {
    && (Count(s.workers, IsFinished) > 0 ==> s.exit && s.sh.tasks == [])
    && (s.dtor.Joining? ==>
          s.dtor.next <= |s.workers| && forall i :: 0 <= i < s.dtor.next ==> s.workers[i].Finished?)
    && (s.dtor.Sweeping? || s.dtor.Gone? ==> Count(s.workers, IsUnfinished) == 0)
    && (s.dtor.Gone? ==> s.sh.tasks == [])
  }

  predicate Base(s: State) {
    Counters(s) && Wakeups(s) && Attended(s) && Fifo(s) && Cascade(s) && Exiting(s) && Joined(s)
  }

  ghost predicate Inv(s: State) {
    Base(s) && Once(s)
  }

  // ---------------------------------------------------------------------------------------
  // How a step moves workers between phases
  // ---------------------------------------------------------------------------------------

  predicate WorkerStep(a: Action) {
    Subject(a) >= 0 && !a.LeaveSignal?
  }

  /** One worker moves: the effect on one weight. */
  lemma WorkerMoves(s: State, a: Action, f: Phase -> nat)
    requires WorkerStep(a) && Enabled(s, a)
    ensures Count(Do(s, a).workers, f) + f(s.workers[Subject(a)])
            == Count(s.workers, f) + f(Do(s, a).workers[Subject(a)])
  {
    CountUpdate(s.workers, Subject(a), Do(s, a).workers[Subject(a)], f);
  }

  // ---------------------------------------------------------------------------------------
  // Every step keeps the invariant
  // ---------------------------------------------------------------------------------------

  lemma StartInv(init: nat, limit: nat)
    requires 1 <= init <= limit < WORD
    ensures Inv(Start(init, limit))
  {
    var ws := Start(init, limit).workers;
    AllZero(ws, IsBusy);
    AllZero(ws, IsPast);
    AllZero(ws, IsFinished);
    forall t ensures Ledger(Start(init, limit), t) {
      AllZero(ws, Holding(t));
    }
  }

  lemma BusyBound(ws: seq<Phase>)
    ensures Count(ws, IsBusy) <= |ws|
  {
    CountAtMost(ws, IsBusy);
  }

  lemma CountersKept(s: State, a: Action)
    requires Counters(s) && WorkerStep(a) && Enabled(s, a)
    requires a.Take? || a.CountDown? || a.CleanTake?
    requires s.dtor.Sweeping? || s.dtor.Gone? ==> Count(s.workers, IsUnfinished) == 0
    ensures Counters(Do(s, a))
  {
    WorkerMoves(s, a, IsBusy);
    BusyBound(s.workers);
    BusyBound(Do(s, a).workers);
    CountAtLeast(s.workers, Subject(a), IsUnfinished);
  }

  lemma CountersUntouched(s: State, a: Action)
    requires Counters(s) && WorkerStep(a) && Enabled(s, a)
    requires !a.Take? && !a.CountDown? && !a.CleanTake?
    ensures Counters(Do(s, a))
  {
    WorkerMoves(s, a, IsBusy);
  }

  lemma WakeupsKept(s: State, a: Action)
    requires Wakeups(s) && WorkerStep(a) && Enabled(s, a)
    ensures Wakeups(Do(s, a))
  {
    WorkerMoves(s, a, IsBlocked);
    WorkerMoves(s, a, IsWoken);
  }

  lemma AttendedKept(s: State, a: Action)
    requires Attended(s) && Exiting(s) && WorkerStep(a) && Enabled(s, a)
    ensures Attended(Do(s, a))
  {
    WorkerMoves(s, a, IsWoken);
    WorkerMoves(s, a, IsAwake);
    CountAtLeast(s.workers, Subject(a), IsPast);
  }

  lemma FifoKept(s: State, a: Action)
    requires Fifo(s) && WorkerStep(a) && Enabled(s, a)
    ensures Fifo(Do(s, a))
  {
    assert s.sh.tasks != [] ==> [s.sh.tasks[0]] + s.sh.tasks[1..] == s.sh.tasks;
  }

  lemma CascadeKept(s: State, a: Action)
    requires Cascade(s) && WorkerStep(a) && Enabled(s, a)
    ensures Cascade(Do(s, a))
  {
    WorkerMoves(s, a, IsIdle);
    WorkerMoves(s, a, IsLive);
    CountAtLeast(s.workers, Subject(a), IsLive);
  }

  lemma ExitingKept(s: State, a: Action)
    requires Exiting(s) && WorkerStep(a) && Enabled(s, a)
    ensures Exiting(Do(s, a))
  {
    WorkerMoves(s, a, IsPast);
    CountAtLeast(s.workers, Subject(a), IsPast);
  }

  lemma JoinedKept(s: State, a: Action)
    requires Exiting(s) && Joined(s) && WorkerStep(a) && Enabled(s, a)
    ensures Joined(Do(s, a))
  {
    WorkerMoves(s, a, IsFinished);
    WorkerMoves(s, a, IsUnfinished);
    CountAtLeast(s.workers, Subject(a), IsUnfinished);
    CountAtLeast(s.workers, Subject(a), IsPast);
  }

  lemma WorkerKeepsBase(s: State, a: Action)
    requires Base(s) && WorkerStep(a) && Enabled(s, a)
    ensures Base(Do(s, a))
  {
    if a.Take? || a.CountDown? || a.CleanTake? {
      CountersKept(s, a);
    } else {
      CountersUntouched(s, a);
    }
    WakeupsKept(s, a);
    AttendedKept(s, a);
    FifoKept(s, a);
    CascadeKept(s, a);
    ExitingKept(s, a);
    JoinedKept(s, a);
  }

  /** A worker's step, seen by the ledger of one task. */
  lemma LedgerKept(s: State, a: Action, t: Task)
    requires Once(s) && WorkerStep(a) && Enabled(s, a)
    ensures Ledger(Do(s, a), t)
  {
    WorkerMoves(s, a, Holding(t));
    assert Ledger(s, t);
    Recorded(s, a, t);
  }

  /** What a worker's step adds to the record of one task. */
  lemma Recorded(s: State, a: Action, t: Task)
    requires WorkerStep(a) && Enabled(s, a)
    ensures var s' := Do(s, a);
            Times(s'.log.taken, t) + Times(s.log.serviced, t) + Times(s.log.discarded, t) + Holds(t, s.workers[Subject(a)])
            == Times(s.log.taken, t) + Times(s'.log.serviced, t) + Times(s'.log.discarded, t) + Holds(t, s'.workers[Subject(a)])
  {
    match a
    case Take(w) => if s.sh.tasks != [] { Started(s.log.taken, s.sh.tasks[0]); }
    case CleanTake(w) => if s.sh.tasks != [] { Started(s.log.taken, s.sh.tasks[0]); }
    case RunTask(w) => Started(s.log.serviced, s.workers[w].task);
    case DiscardTask(w) => Started(s.log.discarded, s.workers[w].task);
    case WaitCall(_) =>
    case WaitReturn(_) =>
    case Spurious(_) =>
    case TestExit(_) =>
    case CountDown(_) =>
    case Recheck(_) =>
    case OuterCheck(_) =>
  }

  lemma OnceKept(s: State, a: Action)
    requires Once(s) && WorkerStep(a) && Enabled(s, a)
    ensures Once(Do(s, a))
  {
    forall t ensures Ledger(Do(s, a), t) {
      LedgerKept(s, a, t);
    }
  }

  lemma PostAppendKeepsBase(s: State, task: Task, created: bool)
    requires Base(s) && Enabled(s, PostAppend(task, created))
    ensures Base(Do(s, PostAppend(task, created)))
  {
    Started(s.workers, AtWait);
  }

  lemma PostAppendKeepsOnce(s: State, task: Task, created: bool)
    requires Once(s) && Enabled(s, PostAppend(task, created))
    ensures Once(Do(s, PostAppend(task, created)))
  {
    var s' := Do(s, PostAppend(task, created));
    forall t ensures Ledger(s', t) {
      assert Ledger(s, t);
      Started(s.workers, AtWait);
    }
  }

  lemma SignalKeepsBase(s: State, pick: nat)
    requires Base(s) && SignalOk(s, pick)
    ensures Base(Signalled(s, pick)) && Signalled(s, pick).signal
  {
    if At(s, pick, Blocked) && !s.signal {
      Moved(s.workers, pick, Woken);
    }
  }

  lemma SignalKeepsOnce(s: State, pick: nat)
    requires Once(s)
    ensures Once(Signalled(s, pick))
  {
    forall t ensures Ledger(Signalled(s, pick), t) {
      assert Ledger(s, t);
      if At(s, pick, Blocked) && !s.signal {
        CountUpdate(s.workers, pick, Woken, Holding(t));
      }
    }
  }

  lemma LeaveSignalKeepsBase(s: State, w: nat, pick: nat)
    requires Base(s) && Enabled(s, LeaveSignal(w, pick))
    ensures Base(Do(s, LeaveSignal(w, pick)))
  {
    SignalKeepsBase(s, pick);
    LeaveKeepsBase(Signalled(s, pick), w);
  }

  lemma LeaveKeepsBase(s: State, w: nat)
    requires Base(s) && At(s, w, Leaving) && s.signal
    ensures Base(Put(s, w, CleaningUp))
  {
    Moved(s.workers, w, CleaningUp);
    CountAtLeast(s.workers, w, IsUnfinished);
    CountAtLeast(s.workers, w, IsPast);
  }

  lemma LeaveSignalKeepsOnce(s: State, w: nat, pick: nat)
    requires Once(s) && Enabled(s, LeaveSignal(w, pick))
    ensures Once(Do(s, LeaveSignal(w, pick)))
  {
    SignalKeepsOnce(s, pick);
    var m := Signalled(s, pick);
    forall t ensures Ledger(Do(s, LeaveSignal(w, pick)), t) {
      assert Ledger(m, t);
      CountUpdate(m.workers, w, CleaningUp, Holding(t));
    }
  }

  lemma DtorKeepsBase(s: State, a: Action)
    requires a.DtorBegin? || a.DtorJoin? || a.DtorSweep?
    requires Base(s) && Enabled(s, a)
    ensures Base(Do(s, a))
  {
    if a.DtorJoin? && Do(s, a).dtor.Sweeping? {
      AllZero(s.workers, IsUnfinished);
    }
  }

  lemma DtorKeepsOnce(s: State, a: Action)
    requires a.DtorBegin? || a.DtorJoin? || a.DtorSweep?
    requires Once(s) && Enabled(s, a)
    ensures Once(Do(s, a))
  {
    forall t ensures Ledger(Do(s, a), t) {
      assert Ledger(s, t);
      if a.DtorSweep? && s.sh.tasks != [] {
        Started(s.log.taken, s.sh.tasks[0]);
        Started(s.log.discarded, s.sh.tasks[0]);
      }
    }
  }

  lemma StepKeepsInv(s: State, a: Action)
    requires Inv(s) && Enabled(s, a)
    ensures Inv(Do(s, a))
  {
    if a.PostAppend? {
      PostAppendKeepsBase(s, a.task, a.created);
      PostAppendKeepsOnce(s, a.task, a.created);
    } else if a.PostSignal? || a.DtorSignal? {
      SignalKeepsBase(s, a.pick);
      SignalKeepsOnce(s, a.pick);
      assert forall t :: Ledger(Signalled(s, a.pick), t) ==> Ledger(Do(s, a), t);
    } else if a.LeaveSignal? {
      LeaveSignalKeepsBase(s, a.w, a.pick);
      LeaveSignalKeepsOnce(s, a.w, a.pick);
    } else if Subject(a) >= 0 {
      WorkerKeepsBase(s, a);
      OnceKept(s, a);
    } else {
      DtorKeepsBase(s, a);
      DtorKeepsOnce(s, a);
    }
  }

  lemma {:induction false} RunKeepsInv(s: State, run: seq<Action>)
    requires Inv(s) && Legal(s, run)
    ensures Inv(After(s, run))
    decreases |run|
  {
    if run != [] {
      StepKeepsInv(s, run[0]);
      RunKeepsInv(Do(s, run[0]), run[1..]);
    }
  }

  lemma ReachableInv(s: State)
    requires Reachable(s)
    ensures Inv(s)
  {
    var init: nat, limit: nat, run :|
      1 <= init <= limit < WORD && Legal(Start(init, limit), run) && s == After(Start(init, limit), run);
    StartInv(init, limit);
    RunKeepsInv(Start(init, limit), run);
  }

  // ---------------------------------------------------------------------------------------
  // Safety over every run
  // ---------------------------------------------------------------------------------------

  /** The counters of lock_ never lie and never wrap; a new thread always fits the array. */
  lemma WorkerCounters(s: State)
    requires Reachable(s)
    ensures s.sh.numThread == |s.workers| <= s.sh.limit
    ensures s.sh.runThread == Count(s.workers, IsBusy) <= s.sh.numThread
    ensures Minus(s.sh.numThread, s.sh.runThread) == s.sh.numThread - s.sh.runThread
    ensures !s.dtor.Sweeping? && !s.dtor.Gone? && |s.sh.tasks| < WORD ==> s.sh.numTasks == |s.sh.tasks|
  {
    ReachableInv(s);
    BusyBound(s.workers);
  }

  // ---------------------------------------------------------------------------------------
  // Growth
  // ---------------------------------------------------------------------------------------

  /** PostTask asks for another worker exactly if the limit allows one and the queue, with the new
      task, is longer than there are workers not busy; it gets one exactly if the system creates
      it. */
  lemma GrowthExactly(s: State, t: Task, created: bool)
    requires Reachable(s) && Enabled(s, PostAppend(t, created))
    ensures var s' := Do(s, PostAppend(t, created));
            var wanted := |s.workers| < s.sh.limit
                          && (|s.sh.tasks| + 1) % WORD > |s.workers| - Count(s.workers, IsBusy);
            s'.workers == if created && wanted then s.workers + [AtWait] else s.workers
  {
    ReachableInv(s);
    PostGrows(s, t, created);
  }

  lemma PostGrows(s: State, t: Task, created: bool)
    requires Counters(s) && Enabled(s, PostAppend(t, created))
    ensures var wanted := |s.workers| < s.sh.limit
                          && (|s.sh.tasks| + 1) % WORD > |s.workers| - Count(s.workers, IsBusy);
            Do(s, PostAppend(t, created)).workers == if created && wanted then s.workers + [AtWait] else s.workers
  {
    BusyBound(s.workers);
  }

  /** Every queued task has a worker of its own to come, or the pool is at its limit. */
  predicate Staffed(s: State) {
    |s.sh.tasks| <= |s.workers| - Count(s.workers, IsBusy) || |s.workers| == s.sh.limit
  }

  lemma PostKeepsStaffed(s: State, t: Task)
    requires Counters(s) && Staffed(s) && Enabled(s, PostAppend(t, true)) && |s.sh.tasks| + 1 < WORD
    ensures Staffed(Do(s, PostAppend(t, true)))
  {
    BusyBound(s.workers);
    Started(s.workers, AtWait);
  }

  lemma WorkerKeepsStaffed(s: State, a: Action)
    requires Counters(s) && Staffed(s) && Enabled(s, a) && WorkerStep(a)
    ensures Staffed(Do(s, a)) && |Do(s, a).sh.tasks| <= |s.sh.tasks|
  {
    WorkerMoves(s, a, IsBusy);
  }

  lemma StaffedKept(s: State, a: Action)
    requires Counters(s) && Staffed(s) && Enabled(s, a) && |s.sh.tasks| + 1 < WORD
    requires a.PostAppend? ==> a.created
    ensures Staffed(Do(s, a)) && |Do(s, a).sh.tasks| <= |s.sh.tasks| + 1
  {
    if a.PostAppend? {
      PostKeepsStaffed(s, a.task);
    } else if a.PostSignal? || a.DtorSignal? {
      SignalKeepsBusy(s, a.pick);
    } else if a.LeaveSignal? {
      SignalKeepsBusy(s, a.pick);
      CountUpdate(Signalled(s, a.pick).workers, a.w, CleaningUp, IsBusy);
    } else if Subject(a) >= 0 {
      WorkerKeepsStaffed(s, a);
    }
  }

  lemma SignalKeepsBusy(s: State, pick: nat)
    ensures Count(Signalled(s, pick).workers, IsBusy) == Count(s.workers, IsBusy)
    ensures |Signalled(s, pick).workers| == |s.workers|
  {
    if At(s, pick, Blocked) {
      CountUpdate(s.workers, pick, Woken, IsBusy);
    }
  }

  lemma {:induction false} RunStaffed(s: State, run: seq<Action>)
    requires Inv(s) && Staffed(s) && Legal(s, run) && |s.sh.tasks| + |run| < WORD
    requires forall i :: 0 <= i < |run| && run[i].PostAppend? ==> run[i].created
    ensures Staffed(After(s, run))
    decreases |run|
  {
    if run != [] {
      StaffedKept(s, run[0]);
      StepKeepsInv(s, run[0]);
      RunStaffed(Do(s, run[0]), run[1..]);
    }
  }

  /** While threads can be created, no task waits behind busy workers only unless the pool is at
      its limit. */
  lemma EnoughWorkers(init: nat, limit: nat, run: seq<Action>)
    requires 1 <= init <= limit < WORD && Legal(Start(init, limit), run) && |run| < WORD
    requires forall i :: 0 <= i < |run| && run[i].PostAppend? ==> run[i].created
    ensures var s := After(Start(init, limit), run);
            |s.sh.tasks| <= |s.workers| - Count(s.workers, IsBusy) || |s.workers| == s.sh.limit
  {
    StartInv(init, limit);
    BusyBound(Start(init, limit).workers);
    RunStaffed(Start(init, limit), run);
  }

  /** Dequeue order is post order: the tasks taken so far are the first ones posted, and the
      queue holds the rest. */
  lemma FifoOrder(s: State)
    requires Reachable(s)
    ensures |s.log.taken| <= |s.log.posted|
    ensures s.log.taken == s.log.posted[..|s.log.taken|] && s.sh.tasks == s.log.posted[|s.log.taken|..]
  {
    ReachableInv(s);
  }

  /** A worker that will look at the queue, or any worker if signal_ is set and nobody blocked. */
  lemma SomeAttendant(s: State) returns (w: nat)
    requires Base(s) && !s.exit && !s.posting && s.sh.tasks != []
    ensures w < |s.workers|
    ensures IsWoken(s.workers[w]) + IsAwake(s.workers[w]) > 0
            || (s.signal && !s.workers[w].Blocked? && forall v :: 0 <= v < |s.workers| ==> !s.workers[v].Blocked?)
  {
    if Count(s.workers, IsWoken) > 0 {
      w := Witness(s.workers, IsWoken);
    } else if Count(s.workers, IsAwake) > 0 {
      w := Witness(s.workers, IsAwake);
    } else {
      w := 0;
      forall v: nat | v < |s.workers| ensures !s.workers[v].Blocked? {
        CountAtLeast(s.workers, v, IsBlocked);
      }
    }
  }

  /** No stranded task.  While tasks are queued, no poster is between its append and its
      Signal and no exit was requested, some worker is able to take a step that needs no
      spurious wake-up, and it is on its way to the queue or will pick up signal_. */
  lemma NoStrandedTask(s: State) returns (w: nat)
    requires Reachable(s) && !s.exit && !s.posting && s.sh.tasks != []
    ensures w < |s.workers|
    ensures IsWoken(s.workers[w]) + IsAwake(s.workers[w]) > 0
            || (s.signal && !s.workers[w].Blocked? && forall v :: 0 <= v < |s.workers| ==> !s.workers[v].Blocked?)
    ensures exists a :: Enabled(s, a) && !Outside(a) && Subject(a) == w
  {
    ReachableInv(s);
    w := SomeAttendant(s);
    CountAtLeast(s.workers, w, IsPast);
    assert Enabled(s, NextOf(s, w)) && Subject(NextOf(s, w)) == w;
  }

  /** Steps that the pool does not take by itself. */
  predicate Outside(a: Action) {
    a.PostAppend? || a.Spurious? || a.DtorBegin?
  }

  /** The worker that takes the step, if it is a worker's step. */
  function Subject(a: Action): int {
    match a
    case WaitCall(w) => w
    case WaitReturn(w) => w
    case Spurious(w) => w
    case TestExit(w) => w
    case Take(w) => w
    case RunTask(w) => w
    case CountDown(w) => w
    case Recheck(w) => w
    case OuterCheck(w) => w
    case LeaveSignal(w, _) => w
    case CleanTake(w) => w
    case DiscardTask(w) => w
    case _ => -1
  }

  /** The one step a worker in each phase takes next, unless it is blocked or finished. */
  function NextOf(s: State, w: nat): Action
    requires w < |s.workers| && !s.workers[w].Blocked? && !s.workers[w].Finished?
  {
    match s.workers[w]
    case AtWait => WaitCall(w)
    case Woken => WaitReturn(w)
    case Passed => TestExit(w)
    case Draining => Take(w)
    case Running(_) => RunTask(w)
    case Serviced => CountDown(w)
    case Rechecking(_) => Recheck(w)
    case Outer => OuterCheck(w)
    case Leaving => LeaveSignal(w, SomeBlocked(s.workers))
    case CleaningUp => CleanTake(w)
    case Discarding(_) => DiscardTask(w)
  }

  /** The worker a signal may pick: some blocked one, if there is one. */
  function SomeBlocked(ws: seq<Phase>): (i: nat)
    ensures Count(ws, IsBlocked) > 0 ==> i < |ws| && ws[i].Blocked?
  {
    BlockedBelow(ws, |ws|)
  }

  function BlockedBelow(ws: seq<Phase>, n: nat): (i: nat)
    requires n <= |ws|
    ensures Sum(ws, IsBlocked, n) > 0 ==> i < n && ws[i].Blocked?
  {
    if n == 0 then 0 else if ws[n - 1].Blocked? then n - 1 else BlockedBelow(ws, n - 1)
  }

  lemma {:induction false} TimesIsMultiset(ts: seq<Task>, t: Task)
    ensures Times(ts, t) == multiset(ts)[t]
  {
    if ts != [] {
      var init, last := ts[..|ts| - 1], ts[|ts| - 1];
      assert ts == init + [last];
      TimesIsMultiset(init, t);
      Started(init, last);
    }
  }

  lemma {:induction false} TimesConcat(ts: seq<Task>, us: seq<Task>, t: Task)
    ensures Times(ts + us, t) == Times(ts, t) + Times(us, t)
  {
    TimesIsMultiset(ts + us, t);
    TimesIsMultiset(ts, t);
    TimesIsMultiset(us, t);
  }

  /** Each task gets at most one of Service and Discard, whatever the interleaving. */
  lemma NeverBoth(s: State, t: Task)
    requires Reachable(s) && Times(s.log.posted, t) <= 1
    ensures Times(s.log.serviced, t) + Times(s.log.discarded, t) <= 1
  {
    ReachableInv(s);
    TimesConcat(s.log.taken, s.sh.tasks, t);
    assert Ledger(s, t);
  }

  // ---------------------------------------------------------------------------------------
  // Progress before exit
  // ---------------------------------------------------------------------------------------

  function RunRank(p: Phase): nat {
    match p
    case Blocked => 0
    case AtWait => 1
    case Outer => 2
    case Rechecking(got) => if got then 5 else 3
    case Draining => 4
    case Passed => 5
    case Serviced => 6
    case Woken => 6
    case Running(_) => 7
    case _ => 0
  }

  function RunMeasure(s: State): nat {
    4 * |s.sh.tasks| + Count(s.workers, RunRank) + (if s.signal then 5 else 0) + (if s.posting then 12 else 0)
  }

  lemma RunStepDown(s: State, a: Action)
    requires Inv(s) && !s.exit && Enabled(s, a) && !Outside(a)
    ensures RunMeasure(Do(s, a)) < RunMeasure(s) && !Do(s, a).exit
  {
    if a.PostSignal? {
      if At(s, a.pick, Blocked) {
        Moved(s.workers, a.pick, Woken);
      }
    } else if Subject(a) >= 0 {
      CountAtLeast(s.workers, Subject(a), IsPast);
      WorkerMoves(s, a, RunRank);
    }
  }

  /** Left alone, the pool takes only finitely many steps before it comes to rest. */
  lemma {:induction false} RunsBounded(s: State, run: seq<Action>)
    requires Inv(s) && !s.exit && Legal(s, run)
    requires forall i :: 0 <= i < |run| ==> !Outside(run[i])
    ensures |run| + RunMeasure(After(s, run)) <= RunMeasure(s)
    decreases |run|
  {
    if run != [] {
      RunStepDown(s, run[0]);
      StepKeepsInv(s, run[0]);
      RunsBounded(Do(s, run[0]), run[1..]);
    }
  }

  /** ... and where it comes to rest every posted task has been serviced. */
  lemma RestMeansServiced(s: State)
    requires Reachable(s) && !s.exit
    requires forall a :: Enabled(s, a) ==> Outside(a)
    ensures s.sh.tasks == [] && !s.signal && !s.posting
    ensures forall w :: 0 <= w < |s.workers| ==> s.workers[w].Blocked?
    ensures multiset(s.log.serviced) == multiset(s.log.posted)
  {
    ReachableInv(s);
    if s.posting {
      assert Enabled(s, PostSignal(SomeBlocked(s.workers)));
    }
    forall w: nat | w < |s.workers| ensures s.workers[w].Blocked? {
      CountAtLeast(s.workers, w, IsPast);
      if !s.workers[w].Blocked? {
        assert Enabled(s, NextOf(s, w));
      }
    }
    AllZero(s.workers, IsWoken);
    AllZero(s.workers, IsAwake);
    CountAtLeast(s.workers, 0, IsBlocked);
    assert s.log.posted == s.log.taken;
    forall t: Task ensures multiset(s.log.serviced)[t] == multiset(s.log.posted)[t] {
      AllZero(s.workers, Holding(t));
      assert Ledger(s, t);
      TimesIsMultiset(s.log.serviced, t);
      TimesIsMultiset(s.log.posted, t);
    }
  }

  // ---------------------------------------------------------------------------------------
  // The exit cascade
  // ---------------------------------------------------------------------------------------

  function ExitRank(p: Phase): nat {
    match p
    case AtWait => 12
    case Blocked => 11
    case Woken => 10
    case Passed => 9
    case Draining => 8
    case Running(_) => 7
    case Serviced => 6
    case Rechecking(_) => 5
    case Outer => 4
    case Leaving => 3
    case Discarding(_) => 2
    case CleaningUp => 1
    case Finished => 0
  }

  function DtorRank(s: State): nat {
    match s.dtor
    case Alive => |s.workers| + 4
    case ExitSet => |s.workers| + 3
    case Joining(next) => if next <= |s.workers| then |s.workers| - next + 2 else 2
    case Sweeping => 1
    case Gone => 0
  }

  function ExitMeasure(s: State): nat {
    3 * |s.sh.tasks| + Count(s.workers, ExitRank) + DtorRank(s)
  }

  lemma SignalNotUp(s: State, pick: nat)
    ensures Count(Signalled(s, pick).workers, ExitRank) <= Count(s.workers, ExitRank)
  {
    if At(s, pick, Blocked) {
      Moved(s.workers, pick, Woken);
    }
  }

  lemma OwnRankDown(s: State, a: Action)
    requires s.exit && WorkerStep(a) && Enabled(s, a)
    ensures 3 * |Do(s, a).sh.tasks| + ExitRank(Do(s, a).workers[Subject(a)])
            < 3 * |s.sh.tasks| + ExitRank(s.workers[Subject(a)])
    ensures Do(s, a).exit && DtorRank(Do(s, a)) == DtorRank(s)
  {
  }

  lemma WorkerRankDown(s: State, a: Action)
    requires s.exit && WorkerStep(a) && Enabled(s, a)
    ensures ExitMeasure(Do(s, a)) < ExitMeasure(s) && Do(s, a).exit
  {
    OwnRankDown(s, a);
    WorkerMoves(s, a, ExitRank);
  }

  /** Once exit is requested every step, even a spurious wake-up, brings the end nearer. */
  lemma ExitStepDown(s: State, a: Action)
    requires Inv(s) && s.exit && Enabled(s, a)
    ensures ExitMeasure(Do(s, a)) < ExitMeasure(s) && Do(s, a).exit
  {
    if a.DtorSignal? {
      SignalNotUp(s, a.pick);
    } else if a.LeaveSignal? {
      SignalNotUp(s, a.pick);
      CountUpdate(Signalled(s, a.pick).workers, a.w, CleaningUp, ExitRank);
    } else if Subject(a) >= 0 {
      WorkerRankDown(s, a);
    }
  }

  /** The exit cascade cannot get stuck: until the destructor is through, some step other
      than a spurious wake-up is enabled, however signals were coalesced. */
  lemma ExitNeverStuck(s: State) returns (a: Action)
    requires Inv(s) && s.exit && !s.dtor.Gone?
    ensures Enabled(s, a) && !a.Spurious?
  {
    if s.dtor.ExitSet? {
      a := DtorSignal(SomeBlocked(s.workers));
    } else if s.dtor.Sweeping? {
      a := DtorSweep;
    } else if s.dtor.next == |s.workers| || s.workers[s.dtor.next].Finished? {
      a := DtorJoin;
    } else if !s.workers[s.dtor.next].Blocked? {
      a := NextOf(s, s.dtor.next);
    } else {
      // Somebody is blocked, so somebody else is still going to signal.
      CountAtLeast(s.workers, s.dtor.next, IsIdle);
      CountAtLeast(s.workers, s.dtor.next, IsBlocked);
      CountLe(s.workers, IsWoken, IsLive);
      var w := Witness(s.workers, IsLive);
      a := NextOf(s, w);
    }
  }

  /** From the moment the destructor requests exit, any schedule is shorter than the measure. */
  lemma {:induction false} ExitRunsBounded(s: State, run: seq<Action>)
    requires Inv(s) && s.exit && Legal(s, run)
    ensures |run| + ExitMeasure(After(s, run)) <= ExitMeasure(s)
    ensures Inv(After(s, run)) && After(s, run).exit
    decreases |run|
  {
    if run != [] {
      ExitStepDown(s, run[0]);
      StepKeepsInv(s, run[0]);
      ExitRunsBounded(Do(s, run[0]), run[1..]);
    }
  }

  /** A schedule that cannot be continued has brought the destructor to its end, with every
      worker finished and every posted task serviced or discarded: each exactly as often as
      it was posted. */
  lemma DestructorReturns(s: State, run: seq<Action>)
    requires Reachable(s) && s.exit && Legal(s, run)
    requires forall a :: !Enabled(After(s, run), a)
    ensures var e := After(s, run);
            && e.dtor.Gone?
            && (forall w :: 0 <= w < |e.workers| ==> e.workers[w].Finished?)
            && multiset(e.log.posted) == multiset(e.log.serviced) + multiset(e.log.discarded)
  {
    ReachableInv(s);
    ExitRunsBounded(s, run);
    var e := After(s, run);
    if !e.dtor.Gone? {
      var a := ExitNeverStuck(e);
      assert false;
    }
    GoneAccounts(e);
  }

  lemma GoneAccounts(e: State)
    requires Inv(e) && e.dtor.Gone?
    ensures forall w :: 0 <= w < |e.workers| ==> e.workers[w].Finished?
    ensures multiset(e.log.posted) == multiset(e.log.serviced) + multiset(e.log.discarded)
  {
    forall w: nat | w < |e.workers| ensures e.workers[w].Finished? {
      CountAtLeast(e.workers, w, IsUnfinished);
    }
    assert e.log.posted == e.log.taken;
    forall t: Task ensures multiset(e.log.posted)[t] == (multiset(e.log.serviced) + multiset(e.log.discarded))[t] {
      AllZero(e.workers, Holding(t));
      assert Ledger(e, t);
      TimesIsMultiset(e.log.serviced, t);
      TimesIsMultiset(e.log.discarded, t);
      TimesIsMultiset(e.log.posted, t);
    }
  }

  /** The destructor's own sweep never finds a task: the last worker left none behind. */
  lemma SweepFindsNothing(s: State)
    requires Reachable(s) && s.dtor.Sweeping?
    ensures s.sh.tasks == [] && Do(s, DtorSweep).dtor.Gone?
  {
    ReachableInv(s);
    CountAtLeast(s.workers, 0, IsUnfinished);
    CountAtLeast(s.workers, 0, IsFinished);
  }

  /** Workers that may still run a task once exit is requested. */
  function IsServing(p: Phase): nat { if p.Draining? || p.Running? then 1 else 0 }

  lemma ExitStepServes(s: State, a: Action)
    requires s.exit && Enabled(s, a)
    ensures |Do(s, a).log.serviced| + Count(Do(s, a).workers, IsServing)
            <= |s.log.serviced| + Count(s.workers, IsServing)
  {
    if a.PostAppend? {
      Started(s.workers, AtWait);
    } else if a.PostSignal? || a.DtorSignal? {
      SignalKeepsServing(s, a.pick);
    } else if a.LeaveSignal? {
      SignalKeepsServing(s, a.pick);
      CountUpdate(Signalled(s, a.pick).workers, a.w, CleaningUp, IsServing);
    } else if Subject(a) >= 0 {
      WorkerMoves(s, a, IsServing);
    }
  }

  lemma SignalKeepsServing(s: State, pick: nat)
    ensures Count(Signalled(s, pick).workers, IsServing) == Count(s.workers, IsServing)
    ensures At(s, pick, Blocked) || Signalled(s, pick).workers == s.workers
  {
    if At(s, pick, Blocked) {
      CountUpdate(s.workers, pick, Woken, IsServing);
    }
  }

  /** After the exit request a worker that is past its test of exit_request_ services one more task
      at most, and no other worker services any: the rest is discarded. */
  lemma {:induction false} ExitServesFew(s: State, run: seq<Action>)
    requires Inv(s) && s.exit && Legal(s, run)
    ensures |After(s, run).log.serviced| <= |s.log.serviced| + Count(s.workers, IsServing)
    decreases |run|
  {
    if run != [] {
      ExitStepServes(s, run[0]);
      ExitStepDown(s, run[0]);
      StepKeepsInv(s, run[0]);
      ExitServesFew(Do(s, run[0]), run[1..]);
    }
  }
}
