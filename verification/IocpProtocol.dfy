/** Outstanding operations of a connection on the completion port: posted to the kernel,
    fetched by a reactor thread, counted off, and the choice of teardown.  One step per critical
    section; a drain of the receive or send section is one step that ends in one of the ways the
    source distinguishes. */
module IocpProtocol {
  import opened Counting
  import opened Sections

  datatype Op = ReadOp | WriteOp | DownOp

  /** Stages of __HandleRead and __HandleWrite. */
  datatype Stage =
    | Testing                              // about to test the shutdown flags
    | Claiming                             // about to test the section's already flag
    | Draining                             // owns the section
    | Closing(stop: bool, empty: bool)     // about to act on to_shutdown
    | Releasing(stop: bool, empty: bool)   // about to give the section up

  datatype Phase =
    | Fetched(op: Op)                      // HandleRead or HandleWrite is about to enter
    | Entered(op: Op)                      // and to count its operation off
    | Failed                               // HandleShutdown is about to count its operation off
    | Counted                              // and to enter
    | Marking                              // and to set shutdown_state_.already
    | Reading(stage: Stage)
    | Writing(stage: Stage, inside: bool)  // inside: not an application's Send
    | Leaving                              // LeaveThreadSafe: about to leave
    | Asking(none: bool)                   // about to look at shutdown_state_.already
    | Weighing(flags: nat)                 // about to look at the count
    | Chosen                               // decided to tear down
    | Out

  /** iocp_data_.count and the operations with the kernel. */
  datatype Io = Io(count: int, readOps: nat, writeOps: nat, downOps: nat)

  /** shutdown_state_, and how often DisconnectEx was accepted. */
  datatype Shut = Shut(already: bool, query: bool, invoke: bool, disconnects: nat)

  /** `unsent`: the send queue or cache_buf is not empty. */
  datatype Conn = Conn(io: Io, shut: Shut, recv: Section, send: Section, threadCount: int, chosen: bool, unsent: bool)

  datatype State = State(conn: Conn, threads: seq<Phase>)

  /** How the environment answers in a step; meaningless where a step needs no answer. */
  datatype Answer =
    | Rearmed      // the kernel would block and the zero-byte operation was posted
    | Stopped      // end of file, an error, no memory, a query, or the operation was refused
    | Emptied      // the send queue ran empty
    | Accepted     // DisconnectEx was accepted
    | Refused      // DisconnectEx was refused

  datatype Action =
    | Fetch(op: Op, ok: bool)    // GetQueuedCompletionStatus
    | SendCall                   // a Send that has passed its test appends all its blocks
    | ShortSend                  // ... or some of them, before memory runs out, and returns
    | Query                      // Shutdown sets query, or a Send's first append fails
    | OtherClose(answer: Answer) // __Shutdown by Shutdown or by the idle timeout
    | Step(t: nat, answer: Answer)

  // ---------------------------------------------------------------------------------------
  // Steps
  // ---------------------------------------------------------------------------------------

  function Posted(io: Io, op: Op): nat {
    match op case ReadOp => io.readOps case WriteOp => io.writeOps case DownOp => io.downOps
  }

  /** An operation is posted and counted in one section. */
  function Post(io: Io, op: Op): Io {
    match op
    case ReadOp => io.(readOps := io.readOps + 1, count := io.count + 1)
    case WriteOp => io.(writeOps := io.writeOps + 1, count := io.count + 1)
    case DownOp => io.(downOps := io.downOps + 1, count := io.count + 1)
  }

  /** The kernel completes it. */
  function Finish(io: Io, op: Op): Io
    requires Posted(io, op) > 0
  {
    match op
    case ReadOp => io.(readOps := io.readOps - 1)
    case WriteOp => io.(writeOps := io.writeOps - 1)
    case DownOp => io.(downOps := io.downOps - 1)
  }

  /** __Shutdown. */
  function ShutDown(c: Conn, answer: Answer): Conn {
    if c.shut.invoke then c
    else if answer.Accepted? then
      c.(io := Post(c.io, DownOp), shut := c.shut.(invoke := true, disconnects := c.shut.disconnects + 1))
    else c.(shut := c.shut.(invoke := true, already := true))
  }

  /** Where __HandleWrite returns to. */
  function Back(inside: bool): Phase {
    if inside then Leaving else Out
  }

  predicate Enabled(s: State, a: Action) {
    && !s.conn.chosen
    && match a
       case Fetch(op, _) => Posted(s.conn.io, op) > 0
       case SendCall => true
       case ShortSend => true
       case Query => true
       case OtherClose(_) => true
       case Step(t, answer) =>
         && t < |s.threads| && !s.threads[t].Out? && !s.threads[t].Chosen?
         && (s.threads[t] == Reading(Draining) ==> answer.Rearmed? || answer.Stopped?)
         && (s.threads[t].Writing? && s.threads[t].stage.Draining? ==>
               answer.Emptied? || (s.conn.unsent && (answer.Rearmed? || answer.Stopped?)))
  }

  /** After a drain: what it decided. */
  function Drained(answer: Answer): Stage {
    Closing(answer.Stopped?, answer.Emptied?)
  }

  function NextRead(c: Conn, stage: Stage, answer: Answer): Phase {
    match stage
    case Testing => if c.shut.already || c.shut.query then Leaving else Reading(Claiming)
    case Claiming => if c.recv.already then Leaving else Reading(Draining)
    case Draining => Reading(Drained(answer))
    case Closing(stop, empty) => Reading(Releasing(stop, empty))
    case Releasing(stop, _) => if !c.recv.ready || stop then Leaving else Reading(Draining)
  }

  function NextWrite(c: Conn, stage: Stage, inside: bool, answer: Answer): Phase {
    match stage
    case Testing => if c.shut.already then Back(inside) else Writing(Claiming, inside)
    case Claiming => if c.send.already then Back(inside) else Writing(Draining, inside)
    case Draining => Writing(Drained(answer), inside)
    case Closing(stop, empty) =>
      Writing(Releasing(stop || (!c.shut.already && empty && c.shut.query), empty), inside)
    case Releasing(stop, empty) => if !c.send.ready || stop || empty then Back(inside) else Writing(Draining, inside)
  }

  function Next(c: Conn, p: Phase, answer: Answer): Phase {
    match p
    case Fetched(op) => Entered(op)
    case Entered(op) => if op.ReadOp? then Reading(Testing) else Writing(Testing, true)
    case Failed => Counted
    case Counted => Marking
    case Marking => Leaving
    case Reading(stage) => NextRead(c, stage, answer)
    case Writing(stage, inside) => NextWrite(c, stage, inside, answer)
    case Leaving => Asking(c.threadCount == 1)
    case Asking(none) => Weighing((if none then 1 else 0) + (if c.shut.already then 1 else 0))
    case Weighing(flags) => if flags == 2 && c.io.count <= 0 then Chosen else Out
    case Chosen => Chosen
    case Out => Out
  }

  function ReadEffect(c: Conn, stage: Stage, answer: Answer): Conn {
    match stage
    case Testing => c
    case Claiming => c.(recv := Claimed(c.recv))
    case Draining => if answer.Rearmed? then c.(io := Post(c.io, ReadOp)) else c
    case Closing(stop, _) => if stop && !c.shut.already then ShutDown(c, answer) else c
    case Releasing(stop, _) => c.(recv := Given(c.recv, stop))
  }

  function WriteEffect(c: Conn, stage: Stage, answer: Answer): Conn {
    match stage
    case Testing => c
    case Claiming => c.(send := Claimed(c.send))
    case Draining =>
      if answer.Rearmed? then c.(io := Post(c.io, WriteOp))
      else if answer.Emptied? then c.(send := c.send.(ready := true), unsent := false)
      else c
    case Closing(stop, empty) => if !c.shut.already && (stop || (empty && c.shut.query)) then ShutDown(c, answer) else c
    case Releasing(stop, empty) => c.(send := Given(c.send, stop || empty))
  }

  function Effect(c: Conn, p: Phase, answer: Answer): Conn {
    match p
    case Fetched(_) => c.(threadCount := c.threadCount + 1)
    case Entered(_) => c.(io := c.io.(count := c.io.count - 1))
    case Failed => c.(io := c.io.(count := c.io.count - 1))
    case Counted => c.(threadCount := c.threadCount + 1)
    case Marking => c.(shut := c.shut.(already := true))
    case Reading(stage) => ReadEffect(c, stage, answer)
    case Writing(stage, _) => WriteEffect(c, stage, answer)
    case Leaving => c.(threadCount := c.threadCount - 1)
    case Weighing(flags) => c.(chosen := flags == 2 && c.io.count <= 0)
    case _ => c
  }

  /** A thread that a new action starts with. */
  function Begun(a: Action): Phase {
    if a.Fetch? && (a.op.DownOp? || !a.ok) then Failed
    else if a.Fetch? then Fetched(a.op)
    else Writing(Testing, false)
  }

  function Do(s: State, a: Action): State
    requires Enabled(s, a)
  {
    match a
    case Fetch(op, _) => State(s.conn.(io := Finish(s.conn.io, op)), s.threads + [Begun(a)])
    case SendCall => State(s.conn.(unsent := true), s.threads + [Begun(a)])
    case ShortSend => s.(conn := s.conn.(unsent := true, shut := s.conn.shut.(query := true)))
    case Query => s.(conn := s.conn.(shut := s.conn.shut.(query := true)))
    case OtherClose(answer) => s.(conn := ShutDown(s.conn, answer))
    case Step(t, answer) =>
      State(Effect(s.conn, s.threads[t], answer), s.threads[t := Next(s.conn, s.threads[t], answer)])
  }

  /** After a successful HandleBind: the first read has been posted. */
  const Bound: State := State(Conn(Io(1, 1, 0, 0), Shut(false, false, false, 0), Free, Free, 0, false, false), [])

  predicate Legal(s: State, run: seq<Action>)
    decreases |run|
  {
    run != [] ==> Enabled(s, run[0]) && Legal(Do(s, run[0]), run[1..])
  }

  function After(s: State, run: seq<Action>): State
    requires Legal(s, run)
    decreases |run|
  {
    if run == [] then s else After(Do(s, run[0]), run[1..])
  }

  ghost predicate Reachable(s: State) {
    exists run :: Legal(Bound, run) && After(Bound, run) == s
  }

  // ---------------------------------------------------------------------------------------
  // The invariant
  // ---------------------------------------------------------------------------------------

  /** Has fetched a completion that is not counted off yet. */
  function Owes(p: Phase): nat {
    if p.Fetched? || p.Entered? || p.Failed? then 1 else 0
  }

  /** Is between EnterThreadSafe and LeaveThreadSafe. */
  function IsInside(p: Phase): nat {
    if p.Entered? || p.Marking? || p.Reading? || (p.Writing? && p.inside) || p.Leaving? then 1 else 0
  }

  function OwnsRecv(p: Phase): nat {
    if p.Reading? && !p.stage.Testing? && !p.stage.Claiming? then 1 else 0
  }

  /** Carries a read completion that has not been answered by a new read yet. */
  function CarriesRead(p: Phase): nat {
    if p == Fetched(ReadOp) || p == Entered(ReadOp) then 1
    else if p.Reading? && (p.stage.Testing? || p.stage.Claiming? || p.stage.Draining?) then 1
    else 0
  }

  function FlaggedDown(p: Phase): nat {
    if p.Weighing? && p.flags >= 2 then 1 else 0
  }

  /** What the count says beyond the operations that are with the kernel. */
  function Excess(io: Io): int {
    io.count - io.readOps - io.writeOps - io.downOps
  }

  /** A read completion that the owner has been told of. */
  function Told(section: Section): nat {
    if section.already && section.ready then 1 else 0
  }

  predicate Conserved(s: State) {
    Excess(s.conn.io) == Count(s.threads, Owes)
  }

  predicate Populated(s: State) {
    s.conn.threadCount == Count(s.threads, IsInside)
  }

  /** One read operation at most is posted, fetched or on its way to being posted again. */
  predicate Single(c: Conn, owners: int, carriers: int) {
    owners == (if c.recv.already then 1 else 0) && c.io.readOps + carriers + Told(c.recv) <= 1
  }

  predicate ReadOnce(s: State) {
    Single(s.conn, Count(s.threads, OwnsRecv), Count(s.threads, CarriesRead))
  }

  predicate DownsOk(shut: Shut) {
    shut.disconnects <= if shut.invoke then 1 else 0
  }

  predicate DownOnce(s: State) {
    DownsOk(s.conn.shut)
  }

  predicate FlagsMean(s: State) {
    Count(s.threads, FlaggedDown) > 0 ==> s.conn.shut.already
  }

  predicate Inv(s: State) {
    Conserved(s) && Populated(s) && ReadOnce(s) && DownOnce(s) && FlagsMean(s)
  }

  // What one step of a thread does to the connection, set against what it does to the thread.

  lemma StepCounts(c: Conn, p: Phase, answer: Answer)
    ensures Excess(Effect(c, p, answer).io) - Owes(Next(c, p, answer)) == Excess(c.io) - Owes(p)
    ensures Effect(c, p, answer).threadCount - IsInside(Next(c, p, answer)) == c.threadCount - IsInside(p)
  {
  }

  lemma StepSingle(c: Conn, p: Phase, answer: Answer, owners: int, carriers: int)
    requires Single(c, owners, carriers) && OwnsRecv(p) <= owners && CarriesRead(p) <= carriers
    requires p == Reading(Draining) ==> answer.Rearmed? || answer.Stopped?
    ensures var p' := Next(c, p, answer);
            Single(Effect(c, p, answer), owners - OwnsRecv(p) + OwnsRecv(p'), carriers - CarriesRead(p) + CarriesRead(p'))
  {
  }

  lemma StepFlags(c: Conn, p: Phase, answer: Answer)
    ensures c.shut.already ==> Effect(c, p, answer).shut.already
    ensures FlaggedDown(Next(c, p, answer)) > 0 ==> c.shut.already
    ensures DownsOk(c.shut) ==> DownsOk(Effect(c, p, answer).shut)
  {
  }

  /** How one action changes the number of threads of a kind. */
  lemma Recount(s: State, a: Action, f: Phase -> nat)
    requires Enabled(s, a)
    ensures a.Step? ==>
              && f(s.threads[a.t]) <= Count(s.threads, f)
              && Count(Do(s, a).threads, f) + f(s.threads[a.t])
                 == Count(s.threads, f) + f(Next(s.conn, s.threads[a.t], a.answer))
    ensures a.Fetch? || a.SendCall? ==> Count(Do(s, a).threads, f) == Count(s.threads, f) + f(Begun(a))
    ensures a.Query? || a.OtherClose? || a.ShortSend? ==> Count(Do(s, a).threads, f) == Count(s.threads, f)
  {
    if a.Step? {
      CountAtLeast(s.threads, a.t, f);
      CountUpdate(s.threads, a.t, Next(s.conn, s.threads[a.t], a.answer), f);
    } else {
      Started(s.threads, Begun(a));
    }
  }

  lemma ThreadKeepsInv(s: State, t: nat, answer: Answer)
    requires Inv(s) && Enabled(s, Step(t, answer))
    ensures Inv(Do(s, Step(t, answer)))
  {
    var a := Step(t, answer);
    var s' := Do(s, a);
    assert Conserved(s') && Populated(s') by {
      Recount(s, a, Owes);
      Recount(s, a, IsInside);
      StepCounts(s.conn, s.threads[t], answer);
    }
    assert ReadOnce(s') by {
      Recount(s, a, OwnsRecv);
      Recount(s, a, CarriesRead);
      StepSingle(s.conn, s.threads[t], answer, Count(s.threads, OwnsRecv), Count(s.threads, CarriesRead));
    }
    assert DownOnce(s') && FlagsMean(s') by {
      Recount(s, a, FlaggedDown);
      StepFlags(s.conn, s.threads[t], answer);
    }
  }

  lemma StepKeepsInv(s: State, a: Action)
    requires Inv(s) && Enabled(s, a)
    ensures Inv(Do(s, a))
  {
    if a.Step? {
      ThreadKeepsInv(s, a.t, a.answer);
    } else {
      Recount(s, a, Owes);
      Recount(s, a, IsInside);
      Recount(s, a, OwnsRecv);
      Recount(s, a, CarriesRead);
      Recount(s, a, FlaggedDown);
    }
  }

  lemma {:induction false} RunKeepsInv(s: State, run: seq<Action>)
    requires Inv(s) && Legal(s, run)
    ensures Inv(After(s, run))
    decreases |run|
  {
    if run != [] {
      StepKeepsInv(s, run[0]);
      RunKeepsInv(Do(s, run[0]), run[1..]);
    }
  }

  lemma ReachableInv(s: State)
    requires Reachable(s)
    ensures Inv(s)
  {
    var run :| Legal(Bound, run) && After(Bound, run) == s;
    RunKeepsInv(Bound, run);
  }

  // ---------------------------------------------------------------------------------------
  // What holds in every reachable state
  // ---------------------------------------------------------------------------------------

  /** iocp_data_.count is the operations posted minus the completions counted off, and
      neither it nor thread_count_ is ever taken below zero. */
  lemma OutstandingConserved(s: State)
    requires Reachable(s)
    ensures s.conn.io.count == s.conn.io.readOps + s.conn.io.writeOps + s.conn.io.downOps + Count(s.threads, Owes)
    ensures forall t :: 0 <= t < |s.threads| && Owes(s.threads[t]) == 1 ==> s.conn.io.count >= 1
    ensures forall t :: 0 <= t < |s.threads| && IsInside(s.threads[t]) == 1 ==> s.conn.threadCount >= 1
  {
    ReachableInv(s);
    forall t | 0 <= t < |s.threads|
      ensures Owes(s.threads[t]) == 1 ==> s.conn.io.count >= 1
      ensures IsInside(s.threads[t]) == 1 ==> s.conn.threadCount >= 1
    {
      CountAtLeast(s.threads, t, Owes);
      CountAtLeast(s.threads, t, IsInside);
    }
  }

  /** No operation is with the kernel and no completion waits to be counted off. */
  predicate Quiet(s: State) {
    s.conn.io.readOps == s.conn.io.writeOps == s.conn.io.downOps == 0 && forall i :: 0 <= i < |s.threads| ==> Owes(s.threads[i]) == 0
  }

  /** A thread that has seen both conditions of LeaveThreadSafe chooses teardown exactly if
      nothing is outstanding at that moment; it has then seen the connection shut down. */
  lemma ChosenExactly(s: State, t: nat, answer: Answer)
    requires Reachable(s) && Enabled(s, Step(t, answer)) && s.threads[t].Weighing?
    ensures Do(s, Step(t, answer)).threads[t].Chosen? <==> s.threads[t].flags == 2 && Quiet(s)
    ensures Do(s, Step(t, answer)).threads[t].Chosen? ==> s.conn.shut.already
  {
    ReachableInv(s);
    CountAtLeast(s.threads, t, FlaggedDown);
    if Count(s.threads, Owes) > 0 {
      var i := Witness(s.threads, Owes);
      assert !Quiet(s);
    } else {
      forall i | 0 <= i < |s.threads| ensures Owes(s.threads[i]) == 0 {
        CountAtLeast(s.threads, i, Owes);
      }
    }
  }

  predicate NobodyElseInside(s: State, t: nat) {
    forall i :: 0 <= i < |s.threads| && i != t ==> IsInside(s.threads[i]) == 0
  }

  /** The first condition: a leaving thread has seen that nobody is left inside exactly if no
      other thread is inside when it leaves. */
  lemma LastLeaverExactly(s: State, t: nat, answer: Answer)
    requires Reachable(s) && Enabled(s, Step(t, answer)) && s.threads[t].Leaving?
    ensures Do(s, Step(t, answer)).threads[t] == Asking(NobodyElseInside(s, t))
  {
    ReachableInv(s);
    CountUpdate(s.threads, t, Out, IsInside);
    if NobodyElseInside(s, t) {
      AllZero(s.threads[t := Out], IsInside);
    } else {
      var i :| 0 <= i < |s.threads| && i != t && IsInside(s.threads[i]) != 0;
      CountAtLeast(s.threads[t := Out], i, IsInside);
    }
  }

  /** The thread takes none of the steps. */
  predicate Pauses(t: nat, run: seq<Action>) {
    forall i :: 0 <= i < |run| ==> !(run[i].Step? && run[i].t == t)
  }

  /** Both conditions: a thread that leaves, and asks after some steps of others, goes on to weigh
      the count with both of them exactly if it was the last one inside when it left, and the
      connection is shut down when it asks. */
  lemma BothSeenExactly(s: State, t: nat, leave: Answer, left: State, run: seq<Action>, ask: Answer)
    requires Reachable(s) && Enabled(s, Step(t, leave)) && s.threads[t].Leaving?
    requires left == Do(s, Step(t, leave)) && Legal(left, run) && Pauses(t, run)
    requires Enabled(After(left, run), Step(t, ask))
    ensures Do(After(left, run), Step(t, ask)).threads[t] == Weighing(2)
            <==> NobodyElseInside(s, t) && After(left, run).conn.shut.already
  {
    LastLeaverExactly(s, t, leave);
    Waits(left, run, t);
  }

  /** A thread stays where it is while others take steps. */
  lemma {:induction false} Waits(s: State, run: seq<Action>, t: nat)
    requires t < |s.threads| && Legal(s, run) && Pauses(t, run)
    ensures t < |After(s, run).threads| && After(s, run).threads[t] == s.threads[t]
    decreases |run|
  {
    if run != [] {
      Waits(Do(s, run[0]), run[1..], t);
    }
  }

  /** The read structure is never posted twice: when a drain re-arms, the previous read has been
      completed and no other thread carries it; DisconnectEx is issued at most once. */
  lemma ReadPostedOnce(s: State, t: nat)
    requires Reachable(s)
    ensures s.conn.io.readOps <= 1 && s.conn.shut.disconnects <= 1
    ensures t < |s.threads| && s.threads[t] == Reading(Draining) ==>
              s.conn.io.readOps == 0
              && forall i :: 0 <= i < |s.threads| && i != t ==> CarriesRead(s.threads[i]) == 0
  {
    ReachableInv(s);
    if t < |s.threads| && s.threads[t] == Reading(Draining) {
      CountUpdate(s.threads, t, Out, CarriesRead);
      forall i | 0 <= i < |s.threads| && i != t ensures CarriesRead(s.threads[i]) == 0 {
        CountAtLeast(s.threads[t := Out], i, CarriesRead);
      }
    }
  }

  lemma {:induction false} OneMore(s: State, run: seq<Action>, a: Action)
    requires Legal(s, run) && Enabled(After(s, run), a)
    ensures Legal(s, run + [a]) && After(s, run + [a]) == Do(After(s, run), a)
    decreases |run|
  {
    if run != [] {
      OneMore(Do(s, run[0]), run[1..], a);
      assert (run + [a])[1..] == run[1..] + [a];
    }
  }

  lemma Perform(s: State, a: Action) returns (s': State)
    requires Reachable(s) && Enabled(s, a)
    ensures s' == Do(s, a) && Reachable(s')
  {
    var run :| Legal(Bound, run) && After(Bound, run) == s;
    OneMore(Bound, run, a);
    s' := Do(s, a);
  }

  // ---------------------------------------------------------------------------------------
  // Why a connection is closed, and that it is followed up
  // ---------------------------------------------------------------------------------------

  /** Is about to close the connection, whatever it finds. */
  function WillClose(p: Phase): nat {
    if (p.Reading? || p.Writing?) && p.stage.Closing? && p.stage.stop then 1 else 0
  }

  /** A drain that stopped, an empty queue with query set, or somebody else's close. */
  predicate Cause(s: State, a: Action)
    requires Enabled(s, a)
  {
    match a
    case OtherClose(_) => true
    case Step(t, answer) =>
      var p := s.threads[t];
      || p.Marking?
      || ((p.Reading? || p.Writing?) && p.stage.Draining? && answer.Stopped?)
      || (p.Writing? && p.stage.Closing? && p.stage.empty && s.conn.shut.query)
    case _ => false
  }

  /** The connection is closed or counts as shut down, or a thread is about to close it. */
  predicate Doomed(s: State) {
    s.conn.shut.invoke || s.conn.shut.already || Count(s.threads, WillClose) > 0
  }

  lemma ReadStepCloses(c: Conn, stage: Stage, answer: Answer)
    ensures var c' := ReadEffect(c, stage, answer);
            && (c.shut.invoke ==> c'.shut.invoke) && (c.shut.already ==> c'.shut.already)
            && (stage.Closing? && stage.stop ==> c'.shut.invoke || c'.shut.already)
            && (!(stage.Closing? && stage.stop) ==> c'.shut == c.shut)
            && WillClose(NextRead(c, stage, answer)) == if stage.Draining? && answer.Stopped? then 1 else 0
  {
  }

  lemma WriteStepCloses(c: Conn, stage: Stage, inside: bool, answer: Answer)
    ensures var c' := WriteEffect(c, stage, answer);
            && (c.shut.invoke ==> c'.shut.invoke) && (c.shut.already ==> c'.shut.already)
            && (stage.Closing? && (stage.stop || (stage.empty && c.shut.query)) ==> c'.shut.invoke || c'.shut.already)
            && (!(stage.Closing? && (stage.stop || (stage.empty && c.shut.query))) ==> c'.shut == c.shut)
            && WillClose(NextWrite(c, stage, inside, answer)) == if stage.Draining? && answer.Stopped? then 1 else 0
  {
  }

  lemma ThreadDooms(s: State, t: nat, answer: Answer)
    requires Enabled(s, Step(t, answer))
    ensures Doomed(Do(s, Step(t, answer))) <==> Doomed(s) || Cause(s, Step(t, answer))
  {
    Recount(s, Step(t, answer), WillClose);
    var p := s.threads[t];
    if p.Reading? {
      ReadStepCloses(s.conn, p.stage, answer);
    } else if p.Writing? {
      WriteStepCloses(s.conn, p.stage, p.inside, answer);
    }
  }

  lemma DoomedExactly(s: State, a: Action)
    requires Enabled(s, a)
    ensures Doomed(Do(s, a)) <==> Doomed(s) || Cause(s, a)
  {
    if a.Step? {
      ThreadDooms(s, a.t, a.answer);
    } else {
      Recount(s, a, WillClose);
    }
  }

  predicate Caused(s: State, run: seq<Action>)
    requires Legal(s, run)
    decreases |run|
  {
    run != [] && (Cause(s, run[0]) || Caused(Do(s, run[0]), run[1..]))
  }

  lemma {:induction false} RunDoomed(s: State, run: seq<Action>)
    requires Legal(s, run)
    ensures Doomed(After(s, run)) <==> Doomed(s) || Caused(s, run)
    decreases |run|
  {
    if run != [] {
      DoomedExactly(s, run[0]);
      RunDoomed(Do(s, run[0]), run[1..]);
    }
  }

  /** No thread is under way. */
  predicate AtRest(s: State) {
    forall i :: 0 <= i < |s.threads| ==> s.threads[i].Out? || s.threads[i].Chosen?
  }

  /** Where no thread is under way, the connection has been closed exactly if one of the causes was
      met; a drain that re-arms is none. */
  lemma ClosedExactly(run: seq<Action>)
    requires Legal(Bound, run) && AtRest(After(Bound, run))
    ensures var shut := After(Bound, run).conn.shut;
            shut.invoke || shut.already <==> Caused(Bound, run)
  {
    RunDoomed(Bound, run);
    AllZero(After(Bound, run).threads, WillClose);
  }

  /** Will set shutdown_state_.already. */
  function MarksDown(p: Phase): nat {
    if p.Failed? || p.Counted? || p.Marking? then 1 else 0
  }

  /** A close is followed up: the connection counts as shut down, or DisconnectEx is still with
      the kernel, or its completion is with a thread that will say so. */
  predicate FollowedUp(s: State) {
    s.conn.shut.invoke ==> s.conn.shut.already || s.conn.io.downOps + Count(s.threads, MarksDown) > 0
  }

  lemma StepMarks(c: Conn, p: Phase, answer: Answer)
    ensures MarksDown(Next(c, p, answer)) < MarksDown(p) ==> Effect(c, p, answer).shut.already
    ensures MarksDown(Next(c, p, answer)) <= MarksDown(p) && c.io.downOps <= Effect(c, p, answer).io.downOps
    ensures c.shut.already ==> Effect(c, p, answer).shut.already
    ensures Effect(c, p, answer).shut.invoke && !c.shut.invoke ==>
              Effect(c, p, answer).shut.already || Effect(c, p, answer).io.downOps > 0
  {
  }

  lemma FollowedUpKept(s: State, a: Action)
    requires FollowedUp(s) && Enabled(s, a)
    ensures FollowedUp(Do(s, a))
  {
    Recount(s, a, MarksDown);
    if a.Step? {
      StepMarks(s.conn, s.threads[a.t], a.answer);
    }
  }

  lemma {:induction false} RunFollowedUp(s: State, run: seq<Action>)
    requires FollowedUp(s) && Legal(s, run)
    ensures FollowedUp(After(s, run))
    decreases |run|
  {
    if run != [] {
      FollowedUpKept(s, run[0]);
      RunFollowedUp(Do(s, run[0]), run[1..]);
    }
  }

  /** Where nothing is with the kernel and no thread is under way, a connection that was closed
      counts as shut down. */
  lemma ClosedIsMarked(s: State)
    requires Reachable(s) && AtRest(s) && s.conn.shut.invoke && s.conn.io.downOps == 0
    ensures s.conn.shut.already
  {
    var run :| Legal(Bound, run) && After(Bound, run) == s;
    RunFollowedUp(Bound, run);
    AllZero(s.threads, MarksDown);
  }

  // ---------------------------------------------------------------------------------------
  // The write structure
  // ---------------------------------------------------------------------------------------

  function OwnsSend(p: Phase): nat {
    if p.Writing? && !p.stage.Testing? && !p.stage.Claiming? then 1 else 0
  }

  /** Has yet to test whether the connection is closed, and will post a write if it blocks. */
  function ComesToWrite(p: Phase): nat {
    if ((p.Fetched? || p.Entered?) && !p.op.ReadOp?) || (p.Writing? && p.stage.Testing?) then 1 else 0
  }

  /** Is past that test. */
  function AboutToWrite(p: Phase): nat {
    if p.Writing? && (p.stage.Claiming? || p.stage.Draining?) then 1 else 0
  }

  /** An owner that will make another pass if it finds `ready`. */
  function MayReturn(p: Phase): nat {
    if p.Writing? && (p.stage.Draining? || p.stage == Closing(false, false) || p.stage == Releasing(false, false))
    then 1 else 0
  }

  /** The write operations that can be outstanding if no further Send is called: those posted, and
      one for each thread and each `ready` on its way to a post. */
  function Tokens(c: Conn, coming: nat, about: nat, returning: nat): nat {
    c.io.writeOps + about
    + (if c.shut.already then 0 else coming)
    + (if c.send.already && c.send.ready && returning > 0 then 1 else 0)
  }

  function WriteTokens(s: State): nat {
    Tokens(s.conn, Count(s.threads, ComesToWrite), Count(s.threads, AboutToWrite), Count(s.threads, MayReturn))
  }

  predicate Owned(c: Conn, owners: int, returning: int) {
    owners == (if c.send.already then 1 else 0) && returning <= owners
  }

  predicate SendOwned(s: State) {
    Owned(s.conn, Count(s.threads, OwnsSend), Count(s.threads, MayReturn))
  }

  /** The other threads: only owners return. */
  lemma OthersReturn(s: State, t: nat)
    requires t < |s.threads|
    ensures Count(s.threads, MayReturn) - MayReturn(s.threads[t]) <= Count(s.threads, OwnsSend) - OwnsSend(s.threads[t])
  {
    CountUpdate(s.threads, t, Out, MayReturn);
    CountUpdate(s.threads, t, Out, OwnsSend);
    CountLe(s.threads[t := Out], MayReturn, OwnsSend);
  }

  /** A thread's step makes no token. */
  lemma StepTokens(c: Conn, p: Phase, answer: Answer, owners: nat, coming: nat, about: nat, returning: nat)
    requires Owned(c, owners, returning) && OwnsSend(p) <= owners && MayReturn(p) <= returning
    requires ComesToWrite(p) <= coming && AboutToWrite(p) <= about && returning - MayReturn(p) <= owners - OwnsSend(p)
    ensures var p', c' := Next(c, p, answer), Effect(c, p, answer);
            && returning - MayReturn(p) + MayReturn(p') >= 0
            && Owned(c', owners - OwnsSend(p) + OwnsSend(p'), returning - MayReturn(p) + MayReturn(p'))
            && Tokens(c', coming - ComesToWrite(p) + ComesToWrite(p'), about - AboutToWrite(p) + AboutToWrite(p'),
                      returning - MayReturn(p) + MayReturn(p'))
               <= Tokens(c, coming, about, returning)
  {
    if p.Writing? {
      WriteStepTokens(c, p.stage, p.inside, answer, owners, coming, about, returning);
    }
  }

  lemma WriteStepTokens(c: Conn, stage: Stage, inside: bool, answer: Answer, owners: nat, coming: nat, about: nat, returning: nat)
    requires var p := Writing(stage, inside);
             && Owned(c, owners, returning) && OwnsSend(p) <= owners && MayReturn(p) <= returning
             && ComesToWrite(p) <= coming && AboutToWrite(p) <= about && returning - MayReturn(p) <= owners - OwnsSend(p)
    ensures var p := Writing(stage, inside);
            var p', c' := NextWrite(c, stage, inside, answer), WriteEffect(c, stage, answer);
            && returning - MayReturn(p) + MayReturn(p') >= 0
            && Owned(c', owners - OwnsSend(p) + OwnsSend(p'), returning - MayReturn(p) + MayReturn(p'))
            && Tokens(c', coming - ComesToWrite(p) + ComesToWrite(p'), about - AboutToWrite(p) + AboutToWrite(p'),
                      returning - MayReturn(p) + MayReturn(p'))
               <= Tokens(c, coming, about, returning)
  {
  }

  /** Only a Send on an open connection makes a token, and it makes one. */
  lemma TokensOfStep(s: State, a: Action)
    requires SendOwned(s) && Enabled(s, a)
    ensures SendOwned(Do(s, a))
    ensures a.SendCall? ==> WriteTokens(Do(s, a)) == WriteTokens(s) + (if s.conn.shut.already then 0 else 1)
    ensures !a.SendCall? ==> WriteTokens(Do(s, a)) <= WriteTokens(s)
  {
    Recount(s, a, OwnsSend);
    Recount(s, a, ComesToWrite);
    Recount(s, a, AboutToWrite);
    Recount(s, a, MayReturn);
    if a.Step? {
      OthersReturn(s, a.t);
      StepTokens(s.conn, s.threads[a.t], a.answer, Count(s.threads, OwnsSend), Count(s.threads, ComesToWrite),
                 Count(s.threads, AboutToWrite), Count(s.threads, MayReturn));
    }
  }

  // The other direction: a schedule that turns the tokens into posts.

  function Drive(p: Phase): nat {
    match p
    case Fetched(_) => 8
    case Entered(_) => 7
    case Writing(stage, _) =>
      (match stage
       case Testing => 6
       case Claiming => 5
       case Draining => 4
       case Closing(_, _) => 2
       case Releasing(_, _) => 1)
    case _ => 0
  }

  function DriveMeasure(s: State): nat {
    Count(s.threads, Drive) + (if s.conn.send.ready then 4 else 0)
  }

  /** The thread to let run: the owner if there is one, else one on its way to the section. */
  predicate Driven(c: Conn, p: Phase) {
    if c.send.already then OwnsSend(p) == 1
    else (p.Writing? && p.stage.Claiming?) || (ComesToWrite(p) == 1 && !c.shut.already)
  }

  function DriveAnswer(p: Phase): Answer {
    if p.Writing? && p.stage.Draining? then Rearmed else Accepted
  }

  lemma DriveStep(c: Conn, p: Phase, coming: nat, about: nat, returning: nat, owners: nat)
    requires Owned(c, owners, returning) && Driven(c, p) && OwnsSend(p) <= owners && MayReturn(p) <= returning
    requires ComesToWrite(p) <= coming && AboutToWrite(p) <= about && returning - MayReturn(p) <= owners - OwnsSend(p)
    ensures var p', c' := Next(c, p, DriveAnswer(p)), Effect(c, p, DriveAnswer(p));
            && returning - MayReturn(p) + MayReturn(p') >= 0
            && Tokens(c', coming - ComesToWrite(p) + ComesToWrite(p'), about - AboutToWrite(p) + AboutToWrite(p'),
                      returning - MayReturn(p) + MayReturn(p'))
               == Tokens(c, coming, about, returning)
            && c'.chosen == c.chosen && c'.unsent == c.unsent
            && Drive(p') + (if c'.send.ready then 4 else 0) < Drive(p) + (if c.send.ready then 4 else 0)
  {
  }

  lemma DriveOnce(s: State, t: nat)
    requires SendOwned(s) && !s.conn.chosen && s.conn.unsent && t < |s.threads| && Driven(s.conn, s.threads[t])
    ensures var a := Step(t, DriveAnswer(s.threads[t]));
            && Enabled(s, a) && SendOwned(Do(s, a)) && !Do(s, a).conn.chosen && Do(s, a).conn.unsent
            && WriteTokens(Do(s, a)) == WriteTokens(s) && DriveMeasure(Do(s, a)) < DriveMeasure(s)
  {
    var a := Step(t, DriveAnswer(s.threads[t]));
    Recount(s, a, OwnsSend);
    Recount(s, a, ComesToWrite);
    Recount(s, a, AboutToWrite);
    Recount(s, a, MayReturn);
    Recount(s, a, Drive);
    TokensOfStep(s, a);
    OthersReturn(s, t);
    DriveStep(s.conn, s.threads[t], Count(s.threads, ComesToWrite), Count(s.threads, AboutToWrite),
              Count(s.threads, MayReturn), Count(s.threads, OwnsSend));
  }

  /** While tokens are not all posted, somebody can be driven. */
  lemma SomeoneToDrive(s: State) returns (t: nat)
    requires SendOwned(s) && WriteTokens(s) > s.conn.io.writeOps
    ensures t < |s.threads| && Driven(s.conn, s.threads[t])
  {
    if s.conn.send.already {
      t := Witness(s.threads, OwnsSend);
    } else if Count(s.threads, AboutToWrite) > 0 {
      t := Witness(s.threads, AboutToWrite);
      CountAtLeast(s.threads, t, OwnsSend);
    } else {
      t := Witness(s.threads, ComesToWrite);
    }
  }

  predicate WithoutSends(run: seq<Action>) {
    forall i :: 0 <= i < |run| ==> !run[i].SendCall? && !run[i].ShortSend?
  }

  lemma {:induction false} AllPosted(s: State) returns (run: seq<Action>)
    requires SendOwned(s) && !s.conn.chosen && s.conn.unsent
    ensures Legal(s, run) && WithoutSends(run) && After(s, run).conn.io.writeOps >= WriteTokens(s)
    decreases DriveMeasure(s)
  {
    if WriteTokens(s) <= s.conn.io.writeOps {
      run := [];
    } else {
      var t := SomeoneToDrive(s);
      DriveOnce(s, t);
      var a := Step(t, DriveAnswer(s.threads[t]));
      var rest := AllPosted(Do(s, a));
      run := [a] + rest;
      assert run[1..] == rest;
    }
  }

  /** The operations that can be outstanding at once if no further Send is called: with nothing
      left to send nobody posts. */
  function Postable(s: State): nat {
    if s.conn.unsent then WriteTokens(s) else s.conn.io.writeOps
  }

  lemma StepPostable(s: State, a: Action)
    requires SendOwned(s) && Enabled(s, a) && !a.SendCall? && !a.ShortSend?
    ensures Postable(Do(s, a)) <= Postable(s)
  {
    TokensOfStep(s, a);
  }

  lemma {:induction false} PostableBound(s: State, run: seq<Action>)
    requires SendOwned(s) && Legal(s, run) && WithoutSends(run)
    ensures After(s, run).conn.io.writeOps <= Postable(s)
    decreases |run|
  {
    if run != [] {
      TokensOfStep(s, run[0]);
      StepPostable(s, run[0]);
      PostableBound(Do(s, run[0]), run[1..]);
    }
  }

  lemma {:induction false} RunSendOwned(s: State, run: seq<Action>)
    requires SendOwned(s) && Legal(s, run)
    ensures SendOwned(After(s, run))
    decreases |run|
  {
    if run != [] {
      TokensOfStep(s, run[0]);
      RunSendOwned(Do(s, run[0]), run[1..]);
    }
  }

  lemma ReachableSendOwned(s: State)
    requires Reachable(s)
    ensures SendOwned(s)
  {
    var run :| Legal(Bound, run) && After(Bound, run) == s;
    RunSendOwned(Bound, run);
  }

  ghost predicate CanPost(s: State, n: nat) {
    exists run :: Legal(s, run) && WithoutSends(run) && After(s, run).conn.io.writeOps >= n
  }

  /** The write structure has no guard like the read structure's.  How many operations can be
      outstanding on it without a further Send is exactly the number of tokens while anything is
      left to send, and exactly those already posted when nothing is. */
  lemma WritePostsExactly(s: State, n: nat)
    requires Reachable(s) && !s.conn.chosen
    ensures CanPost(s, n) <==> n <= if s.conn.unsent then WriteTokens(s) else s.conn.io.writeOps
  {
    ReachableSendOwned(s);
    if n > Postable(s) {
      forall run | Legal(s, run) && WithoutSends(run) ensures After(s, run).conn.io.writeOps < n {
        PostableBound(s, run);
      }
    } else if s.conn.unsent {
      var run := AllPosted(s);
    } else {
      assert Legal(s, []) && After(s, []) == s && WithoutSends([]);
    }
  }

  /** A Send on an open connection makes it possible that the structure is posted twice at once
      exactly if a token was there before. */
  lemma SendDoublesExactly(s: State)
    requires Reachable(s) && !s.conn.chosen && !s.conn.shut.already
    ensures CanPost(Do(s, SendCall), 2) <==> WriteTokens(s) >= 1
  {
    ReachableSendOwned(s);
    var s' := Perform(s, SendCall);
    TokensOfStep(s, SendCall);
    WritePostsExactly(s', 2);
  }

  /** Every Send on an open connection starts without tokens. */
  predicate Spaced(s: State, run: seq<Action>)
    requires Legal(s, run)
    decreases |run|
  {
    run != [] ==>
      && (run[0].SendCall? && !s.conn.shut.already ==> WriteTokens(s) == 0)
      && Spaced(Do(s, run[0]), run[1..])
  }

  lemma {:induction false} SpacedTokens(s: State, run: seq<Action>)
    requires SendOwned(s) && WriteTokens(s) <= 1 && Legal(s, run) && Spaced(s, run)
    ensures WriteTokens(After(s, run)) <= 1
    decreases |run|
  {
    if run != [] {
      TokensOfStep(s, run[0]);
      SpacedTokens(Do(s, run[0]), run[1..]);
    }
  }

  /** A run whose Sends are spaced in this way never has two write operations outstanding. */
  lemma SpacedSendsPostOnce(run: seq<Action>)
    requires Legal(Bound, run) && Spaced(Bound, run)
    ensures After(Bound, run).conn.io.writeOps <= 1
  {
    SpacedTokens(Bound, run);
  }

  /** A Send that meets a full kernel buffer, from the call to its drain's end. */
  lemma SendMeetsFull(s: State) returns (s': State)
    requires Reachable(s) && !s.conn.chosen && !s.conn.shut.already && !s.conn.send.already
    ensures Reachable(s') && s'.conn.io.writeOps == s.conn.io.writeOps + 1 && s'.conn.send.already && !s'.conn.send.ready
    ensures !s'.conn.chosen && !s'.conn.shut.already
    ensures s'.threads == s.threads + [Writing(Closing(false, false), false)]
  {
    var t := |s.threads|;
    s' := Perform(s, SendCall);
    s' := Perform(s', Step(t, Rearmed));
    s' := Perform(s', Step(t, Rearmed));
    s' := Perform(s', Step(t, Rearmed));
  }

  /** Two Sends, the second after the first has returned, suffice. */
  lemma WritePostedTwice() returns (s: State)
    ensures Reachable(s) && s.conn.io.writeOps == 2
  {
    assert Legal(Bound, []) && After(Bound, []) == Bound;
    s := SendMeetsFull(Bound);
    s := Perform(s, Step(0, Rearmed));
    s := Perform(s, Step(0, Rearmed));
    s := SendMeetsFull(s);
  }
}
