/** A connection seen by callers that do not overlap: Send, HandleWrite, HandleRead, Shutdown
    and recycling as complete calls, with the kernel's answers as a script. */
module SockSprays {
  import opened Streams
  import opened SendProtocol

  // ---------------------------------------------------------------------------------------
  // What the calls compute
  // ---------------------------------------------------------------------------------------

  /** The kernel's answers to send.  Takes(n) is clipped to what was offered, at least one
      byte; when the script is over the socket would block. */
  datatype SendAnswer = Takes(n: nat) | WouldBlock | Breaks

  datatype DrainEnd = Drained | Blocked | Failed

  function Clip(n: nat, room: nat): (k: nat)
    requires room > 0
    ensures 1 <= k <= room && (1 <= n <= room ==> k == n)
  {
    if n == 0 then 1 else if n > room then room else n
  }

  predicate Sendable(f: Flow) {
    NonEmpty(f.queue) && (f.cache.Loaded? ==> f.cache.len < |f.cache.block.data|)
  }

  /** The next answer lets bytes out. */
  predicate Moves(f: Flow, answers: seq<SendAnswer>) {
    Fetched(f).cache.Loaded? && answers != [] && answers[0].Takes?
  }

  /** How many: at most what is left of the cached block. */
  function Share(f: Flow, answers: seq<SendAnswer>): nat
    requires Sendable(f) && Moves(f, answers)
  {
    var Loaded(block, len) := Fetched(f).cache;
    Clip(answers[0].n, |block.data| - len)
  }

  function Advance(f: Flow, answers: seq<SendAnswer>): (g: Flow)
    requires Sendable(f) && Moves(f, answers)
    ensures Sendable(g)
  {
    Pushed(Fetched(f), Share(f, answers))
  }

  function Halt(f: Flow, answers: seq<SendAnswer>): DrainEnd {
    if Fetched(f).cache.Empty? then Drained
    else if answers == [] || answers[0].WouldBlock? then Blocked
    else Failed
  }

  /** The drain as a recursion over the kernel's answers. */
  function Drain(f: Flow, answers: seq<SendAnswer>): (r: (Flow, DrainEnd))
    requires Sendable(f)
    ensures Sendable(r.0)
    decreases |answers|
  {
    if Moves(f, answers) then Drain(Advance(f, answers), answers[1..])
    else (Fetched(f), Halt(f, answers))
  }

  /** The parts of a connection that outlive a call. */
  datatype Conn = Conn(flow: Flow, query: bool, invoke: bool, down: bool, closes: nat)

  function Disconnected(c: Conn): Conn {
    if c.invoke then c else c.(invoke := true, closes := c.closes + 1)
  }

  function Written(c: Conn, answers: seq<SendAnswer>): Conn
    requires Sendable(c.flow)
  {
    if c.down then c
    else
      var (flow, end) := Drain(c.flow, answers);
      var c' := c.(flow := flow);
      if end.Failed? || (end.Drained? && c.query) then Disconnected(c') else c'
  }

  /** How many of n appends to a queue of this length succeed, if memory for more nodes is found
      `memory` times. */
  function Appends(length: nat, n: nat, memory: nat): (k: nat)
    ensures k <= n && (k < n ==> Full(length + k))
    decreases n
  {
    if n == 0 || (Full(length) && memory == 0) then 0
    else 1 + Appends(length + 1, n - 1, if Full(length) then memory - 1 else memory)
  }

  /** All blocks find a node. */
  predicate Appendable(c: Conn, blocks: seq<Block>, memory: nat) {
    Appends(|c.flow.queue|, |blocks|, memory) == |blocks|
  }

  /** Send of some blocks. */
  function Sent(c: Conn, blocks: seq<Block>, memory: nat, answers: seq<SendAnswer>): Conn
    requires Sendable(c.flow) && NonEmpty(blocks)
  {
    if c.down || c.query then c
    else if !Appendable(c, blocks, memory) then
      c.(flow := Queued(c.flow, blocks[..Appends(|c.flow.queue|, |blocks|, memory)]), query := true)
    else Written(c.(flow := Queued(c.flow, blocks)), answers)
  }

  function ShutDown(c: Conn): Conn {
    if c.down || c.query then c
    else if c.flow.cache.Loaded? then c.(query := true)
    else Disconnected(c.(query := true))
  }

  /** Between calls an empty cache means an empty queue, unless a Send ran out of memory. */
  predicate Tidy(c: Conn) {
    && (c.flow.cache.Empty? ==> c.flow.queue == [] || c.query)
    && c.closes == (if c.invoke then 1 else 0)
  }

  predicate Settled(c: Conn) {
    FlowOk(c.flow) && Tidy(c)
  }

  ghost predicate KeptByDraining(p: Flow -> bool) {
    && (forall f {:trigger p(f)} :: p(f) ==> Sendable(f))
    && (forall f {:trigger Fetched(f)} :: p(f) ==> p(Fetched(f)))
    && (forall f, n: nat {:trigger Pushed(f, n)} :: p(f) && Fitting(f, n) ==> p(Pushed(f, n)))
  }

  /** What fetching and pushing keep, draining keeps. */
  lemma {:induction false} DrainKeeps(f: Flow, answers: seq<SendAnswer>, p: Flow -> bool)
    requires p(f) && KeptByDraining(p)
    ensures p(Drain(f, answers).0)
    decreases |answers|
  {
    if Moves(f, answers) {
      DrainKeeps(Advance(f, answers), answers[1..], p);
    }
  }

  /** The drain runs dry exactly when nothing is left unsent. */
  lemma {:induction false} DrainEnds(f: Flow, answers: seq<SendAnswer>)
    requires Sendable(f)
    ensures var (g, end) := Drain(f, answers);
            && (end.Drained? <==> !Unsent(g))
            && (end.Drained? <==> g.cache.Empty?)
            && g.accepted == f.accepted
    decreases |answers|
  {
    if Moves(f, answers) {
      DrainEnds(Advance(f, answers), answers[1..]);
    }
  }

  /** How many answers in a row let bytes out. */
  function Willingly(answers: seq<SendAnswer>): (k: nat)
    ensures k <= |answers|
  {
    if answers == [] || !answers[0].Takes? then 0 else 1 + Willingly(answers[1..])
  }

  /** A drain that stops with something unsent has met the first answer that lets no bytes out;
      it counts as failed exactly if that one is an error other than would-block. */
  lemma {:induction false} StopsExactly(f: Flow, answers: seq<SendAnswer>)
    requires Sendable(f) && !Drain(f, answers).1.Drained?
    ensures var k := Willingly(answers);
            && (Drain(f, answers).1.Failed? <==> k < |answers| && answers[k].Breaks?)
            && (Drain(f, answers).1.Blocked? <==> k == |answers| || answers[k].WouldBlock?)
    decreases |answers|
  {
    if Moves(f, answers) {
      StopsExactly(Advance(f, answers), answers[1..]);
    }
  }

  lemma FlowOkIsKept()
    ensures KeptByDraining(FlowOk)
  {
    forall f | FlowOk(f) ensures FlowOk(Fetched(f)) {
      FetchedOk(f);
    }
    forall f, n: nat | FlowOk(f) && Fitting(f, n) ensures FlowOk(Pushed(f, n)) {
      PushedOk(f, n);
    }
  }

  /** However the kernel answers, the drain conserves the stream and the references. */
  lemma DrainOk(f: Flow, answers: seq<SendAnswer>)
    requires FlowOk(f)
    ensures FlowOk(Drain(f, answers).0)
    ensures Drain(f, answers).1.Drained? ==> Drain(f, answers).0.sent == Flat(f.accepted)
  {
    FlowOkIsKept();
    DrainKeeps(f, answers, FlowOk);
    DrainEnds(f, answers);
    if Drain(f, answers).1.Drained? {
      NothingUnsent(Drain(f, answers).0);
    }
  }

  predicate Willing(answers: seq<SendAnswer>, n: nat) {
    n <= |answers| && forall i :: 0 <= i < |answers| ==> answers[i].Takes?
  }

  /** A willing kernel is enough: with one answer per byte, none of them a refusal, the drain
      runs dry and everything accepted has been sent. */
  lemma WillingKernelDrains(f: Flow, answers: seq<SendAnswer>)
    requires FlowOk(f) && Willing(answers, Bytes(f))
    ensures Drain(f, answers).1.Drained? && Drain(f, answers).0.sent == Flat(f.accepted)
  {
    RunsDry(f, answers);
    DrainOk(f, answers);
  }

  lemma {:induction false} RunsDry(f: Flow, answers: seq<SendAnswer>)
    requires Sendable(f) && Willing(answers, Bytes(f))
    ensures Drain(f, answers).1.Drained?
    decreases |answers|
  {
    FetchedBytes(f);
    if Fetched(f).cache.Loaded? {
      PushedBytes(Fetched(f), Share(f, answers));
      RunsDry(Advance(f, answers), answers[1..]);
    }
  }

  datatype Call =
    | SendCall(blocks: seq<Block>, memory: nat, answers: seq<SendAnswer>)
    | WriteCall(answers: seq<SendAnswer>)
    | ShutdownCall
    | CloseCall
    | DownCall

  predicate Callable(call: Call) {
    call.SendCall? ==> NonEmpty(call.blocks)
  }

  function Called(c: Conn, call: Call): Conn
    requires Sendable(c.flow) && Callable(call)
  {
    match call
    case SendCall(blocks, memory, answers) => Sent(c, blocks, memory, answers)
    case WriteCall(answers) => Written(c, answers)
    case ShutdownCall => ShutDown(c)
    case CloseCall => Disconnected(c)
    case DownCall => c.(down := true)
  }

  /** The kernel refused a send in this call. */
  predicate Refused(c: Conn, call: Call)
    requires Sendable(c.flow) && Callable(call)
  {
    match call
    case SendCall(blocks, memory, answers) =>
      !c.down && !c.query && Appendable(c, blocks, memory) && Drain(Queued(c.flow, blocks), answers).1.Failed?
    case WriteCall(answers) => !c.down && Drain(c.flow, answers).1.Failed?
    case _ => false
  }

  /** Graceful close, one call: if the call closes the connection - by Shutdown itself or by
      draining after a query - every accepted byte was sent before. */
  lemma CloseIsClean(c: Conn, call: Call)
    requires Settled(c) && Callable(call)
    requires Called(c, call).closes > c.closes && !Refused(c, call) && !call.CloseCall?
    ensures Called(c, call).flow.sent == Flat(Called(c, call).flow.accepted) && !Unsent(Called(c, call).flow)
  {
    if call.WriteCall? {
      DrainOk(c.flow, call.answers);
      DrainEnds(c.flow, call.answers);
    } else if call.ShutdownCall? {
      NothingUnsent(c.flow);
    }
  }

  /** What a race has left in the queue is sent by the next write event, and by the next Send that
      is accepted, if the kernel takes it. */
  lemma NextCallSends(c: Conn, call: Call)
    requires FlowOk(c.flow) && Callable(call) && !c.down
    requires match call
             case SendCall(blocks, memory, answers) =>
               !c.query && Appendable(c, blocks, memory) && Willing(answers, Bytes(Queued(c.flow, blocks)))
             case WriteCall(answers) => Willing(answers, Bytes(c.flow))
             case _ => false
    ensures Called(c, call).flow.sent == Flat(Called(c, call).flow.accepted)
  {
    if call.SendCall? {
      QueuedOk(c.flow, call.blocks);
      WillingKernelDrains(Queued(c.flow, call.blocks), call.answers);
      DrainEnds(Queued(c.flow, call.blocks), call.answers);
    } else {
      WillingKernelDrains(c.flow, call.answers);
      DrainEnds(c.flow, call.answers);
    }
  }

  /** Every call leaves the connection settled. */
  lemma CallSettles(c: Conn, call: Call)
    requires Settled(c) && Callable(call)
    ensures Settled(Called(c, call))
  {
    CallKeepsFlow(c, call);
    CallIsTidy(c, call);
  }

  lemma WrittenFlow(c: Conn, answers: seq<SendAnswer>)
    requires Sendable(c.flow)
    ensures Written(c, answers).flow == if c.down then c.flow else Drain(c.flow, answers).0
  {
  }

  lemma WriteKeepsFlow(c: Conn, answers: seq<SendAnswer>)
    requires FlowOk(c.flow)
    ensures FlowOk(Written(c, answers).flow)
  {
    DrainOk(c.flow, answers);
    WrittenFlow(c, answers);
  }

  lemma SendKeepsFlow(c: Conn, blocks: seq<Block>, memory: nat, answers: seq<SendAnswer>)
    requires FlowOk(c.flow) && NonEmpty(blocks)
    ensures FlowOk(Sent(c, blocks, memory, answers).flow)
  {
    if !Appendable(c, blocks, memory) {
      QueuedOk(c.flow, blocks[..Appends(|c.flow.queue|, |blocks|, memory)]);
    } else {
      QueuedOk(c.flow, blocks);
      WriteKeepsFlow(c.(flow := Queued(c.flow, blocks)), answers);
    }
  }

  lemma CallKeepsFlow(c: Conn, call: Call)
    requires FlowOk(c.flow) && Callable(call)
    ensures FlowOk(Called(c, call).flow)
  {
    if call.SendCall? {
      SendKeepsFlow(c, call.blocks, call.memory, call.answers);
    } else if call.WriteCall? {
      WriteKeepsFlow(c, call.answers);
    }
  }

  lemma CallIsTidy(c: Conn, call: Call)
    requires Tidy(c) && Sendable(c.flow) && Callable(call)
    ensures Tidy(Called(c, call))
  {
    if call.SendCall? {
      if Appendable(c, call.blocks, call.memory) {
        DrainEnds(Queued(c.flow, call.blocks), call.answers);
      }
    } else if call.WriteCall? {
      DrainEnds(c.flow, call.answers);
    }
  }

  predicate Calls(calls: seq<Call>) {
    forall i :: 0 <= i < |calls| ==> Callable(calls[i])
  }

  /** The connection after a series of calls. */
  function AfterCalls(c: Conn, calls: seq<Call>): (c': Conn)
    requires Settled(c) && Calls(calls)
    ensures Settled(c')
    decreases |calls|
  {
    if calls == [] then c
    else
      CallSettles(c, calls[0]);
      AfterCalls(Called(c, calls[0]), calls[1..])
  }

  const Opened: Conn := Conn(SendProtocol.Dry, false, false, false, 0)

  /** Whatever is called in whatever order, the operating system's close is issued at most
      once, and nothing is sent that was not accepted, nor out of order. */
  lemma CallsConserve(calls: seq<Call>)
    requires Calls(calls)
    ensures AfterCalls(Opened, calls).closes <= 1
    ensures var f := AfterCalls(Opened, calls).flow;
            f.sent <= Flat(f.accepted) && f.sent + Tail(f.cache) + Flat(f.queue) == Flat(f.accepted)
  {
    assert Settled(AfterCalls(Opened, calls));
  }

  /** No send of the series is refused, and nobody else closes the connection. */
  predicate Gentle(c: Conn, calls: seq<Call>)
    requires Settled(c) && Calls(calls)
    decreases |calls|
  {
    calls == []
    || (&& !calls[0].CloseCall? && !Refused(c, calls[0])
        && (CallSettles(c, calls[0]); Gentle(Called(c, calls[0]), calls[1..])))
  }

  /** A closed connection has nothing left to send and accepts nothing any more. */
  predicate ClosedClean(c: Conn) {
    c.invoke ==> c.query && !Unsent(c.flow)
  }

  lemma GentleCall(c: Conn, call: Call)
    requires Settled(c) && Callable(call) && ClosedClean(c) && !call.CloseCall? && !Refused(c, call)
    ensures ClosedClean(Called(c, call))
  {
    if call.WriteCall? {
      DrainEnds(c.flow, call.answers);
    } else if call.SendCall? && Appendable(c, call.blocks, call.memory) {
      DrainEnds(Queued(c.flow, call.blocks), call.answers);
    }
  }

  lemma {:induction false} GentleCalls(c: Conn, calls: seq<Call>)
    requires Settled(c) && Calls(calls) && ClosedClean(c) && Gentle(c, calls)
    ensures ClosedClean(AfterCalls(c, calls))
    decreases |calls|
  {
    if calls != [] {
      GentleCall(c, calls[0]);
      CallSettles(c, calls[0]);
      GentleCalls(Called(c, calls[0]), calls[1..]);
    }
  }

  /** Graceful close over a life: however Sends, write events and Shutdowns follow each other, a
      connection that ends up closed has sent every byte it ever accepted. */
  lemma LifeClosesClean(calls: seq<Call>)
    requires Calls(calls) && Gentle(Opened, calls)
    ensures var c := AfterCalls(Opened, calls);
            c.closes == 1 ==> c.flow.sent == Flat(c.flow.accepted) && c.flow.held == multiset{}
  {
    GentleCalls(Opened, calls);
    var c := AfterCalls(Opened, calls);
    if c.closes == 1 {
      NothingUnsent(c.flow);
    }
  }

  /** A Shutdown is not lost: the connection has closed, or there is something to send first. */
  predicate Heard(c: Conn) {
    c.query && !c.down ==> c.invoke || Unsent(c.flow)
  }

  /** A drain that goes dry with a query closes, whatever was before. */
  lemma WriteIsHeard(c: Conn, answers: seq<SendAnswer>)
    requires Sendable(c.flow)
    ensures Heard(Written(c, answers))
  {
    DrainEnds(c.flow, answers);
  }

  lemma ShutDownIsHeard(c: Conn)
    requires Tidy(c) && Heard(c)
    ensures Heard(ShutDown(c))
  {
  }

  lemma CallIsHeard(c: Conn, call: Call)
    requires Tidy(c) && Sendable(c.flow) && Callable(call) && Heard(c)
    ensures Heard(Called(c, call))
  {
    match call
    case SendCall(blocks, memory, answers) => SendIsHeard(c, blocks, memory, answers);
    case WriteCall(answers) => WriteIsHeard(c, answers);
    case ShutdownCall => ShutDownIsHeard(c);
    case CloseCall =>
    case DownCall =>
  }

  lemma SendIsHeard(c: Conn, blocks: seq<Block>, memory: nat, answers: seq<SendAnswer>)
    requires Sendable(c.flow) && NonEmpty(blocks) && Heard(c)
    ensures Heard(Sent(c, blocks, memory, answers))
  {
    if Appendable(c, blocks, memory) {
      WriteIsHeard(c.(flow := Queued(c.flow, blocks)), answers);
    } else {
      CutSendIsUnsent(c.flow, blocks, memory);
    }
  }

  /** A Send that is cut short leaves something in the queue: an empty one has room. */
  lemma CutSendIsUnsent(f: Flow, blocks: seq<Block>, memory: nat)
    requires Appends(|f.queue|, |blocks|, memory) < |blocks|
    ensures Unsent(Queued(f, blocks[..Appends(|f.queue|, |blocks|, memory)]))
  {
  }

  /** An open connection is closed by a call exactly if somebody else closes it, a send is
      refused, or the call leaves a query with nothing to send. */
  lemma CallClosesExactly(c: Conn, call: Call)
    requires Settled(c) && Callable(call) && Heard(c) && !c.invoke
    ensures var c' := Called(c, call);
            c'.closes == 1 <==>
            call.CloseCall? || Refused(c, call) || (c'.query && !c'.down && !Unsent(c'.flow))
  {
    CallIsHeard(c, call);
    CallSettles(c, call);
    if !Refused(c, call) && !call.CloseCall? && Called(c, call).invoke {
      CloseIsClean(c, call);
    }
  }

  lemma CallKeepsInvoke(c: Conn, call: Call)
    requires Sendable(c.flow) && Callable(call) && c.invoke
    ensures Called(c, call).invoke
  {
  }

  lemma {:induction false} InvokeStays(c: Conn, calls: seq<Call>)
    requires Settled(c) && Calls(calls) && c.invoke
    ensures AfterCalls(c, calls).invoke
    decreases |calls|
  {
    if calls != [] {
      CallSettles(c, calls[0]);
      CallKeepsInvoke(c, calls[0]);
      InvokeStays(Called(c, calls[0]), calls[1..]);
    }
  }

  lemma {:induction false} RunIsHeard(c: Conn, calls: seq<Call>)
    requires Settled(c) && Calls(calls) && Heard(c)
    ensures Heard(AfterCalls(c, calls)) && (!Gentle(c, calls) ==> AfterCalls(c, calls).invoke)
    decreases |calls|
  {
    if calls != [] {
      CallSettles(c, calls[0]);
      CallIsHeard(c, calls[0]);
      RunIsHeard(Called(c, calls[0]), calls[1..]);
      if calls[0].CloseCall? || Refused(c, calls[0]) {
        InvokeStays(Called(c, calls[0]), calls[1..]);
      }
    }
  }

  /** What closes a connection, over a life: after any series of calls it has been closed
      exactly if a send was refused, or somebody else closed it, or it was asked to shut down
      and has nothing left to send. */
  lemma LifeClosesExactly(calls: seq<Call>)
    requires Calls(calls) && !AfterCalls(Opened, calls).down
    ensures var c := AfterCalls(Opened, calls);
            c.closes == 1 <==> !Gentle(Opened, calls) || (c.query && !Unsent(c.flow))
  {
    RunIsHeard(Opened, calls);
    if Gentle(Opened, calls) {
      GentleCalls(Opened, calls);
    }
  }

  /** What is accepted: a Send takes all its blocks, or as many as find memory, unless it comes
      after a query or the final close; nothing else adds to the stream. */
  lemma AcceptsExactly(c: Conn, call: Call)
    requires Sendable(c.flow) && Callable(call)
    ensures Called(c, call).flow.accepted ==
            c.flow.accepted + if call.SendCall? && !c.down && !c.query
                              then call.blocks[..Appends(|c.flow.queue|, |call.blocks|, call.memory)] else []
  {
    if call.SendCall? && !c.down && !c.query && Appendable(c, call.blocks, call.memory) {
      WriteAccepts(c.(flow := Queued(c.flow, call.blocks)), call.answers);
      assert call.blocks[..|call.blocks|] == call.blocks;
    } else if call.WriteCall? {
      WriteAccepts(c, call.answers);
    }
  }

  lemma WriteAccepts(c: Conn, answers: seq<SendAnswer>)
    requires Sendable(c.flow)
    ensures Written(c, answers).flow.accepted == c.flow.accepted
  {
    DrainEnds(c.flow, answers);
    WrittenFlow(c, answers);
  }

  lemma CallAfterDown(c: Conn, call: Call)
    requires Sendable(c.flow) && Callable(call) && c.down
    ensures Called(c, call).flow == c.flow && Called(c, call).down
  {
  }

  /** Once the connection is being torn down no call sends or accepts anything. */
  lemma {:induction false} NothingAfterDown(c: Conn, calls: seq<Call>)
    requires Settled(c) && Calls(calls) && c.down
    ensures AfterCalls(c, calls).flow == c.flow
    decreases |calls|
  {
    if calls != [] {
      CallSettles(c, calls[0]);
      CallAfterDown(c, calls[0]);
      NothingAfterDown(Called(c, calls[0]), calls[1..]);
    }
  }

  // ---------------------------------------------------------------------------------------
  // Incoming blocks
  // ---------------------------------------------------------------------------------------

  /** The kernel's answers to recv, as long as it has bytes.  Gives(n) is clipped to what is
      there and to the room offered; when the script is over it gives as much as fits. */
  datatype RecvAnswer = Gives(n: nat) | Interrupted | Severs

  /** How a pass of reads ends: the socket runs dry, recv fails, or no block is left. */
  datatype ReadEnd = AllRead | Broken | NoBlock

  /** What recv hands out of n bytes, and how that ends, with `room` bytes free in the block at
      hand and `memory` more blocks to be had. */
  function Reading(n: nat, room: nat, cap: nat, memory: nat, answers: seq<RecvAnswer>): (r: (nat, ReadEnd))
    requires room <= cap && cap > 0
    ensures r.0 <= n
    decreases n, |answers|, cap - room
  {
    if room == 0 then
      if memory == 0 then (0, NoBlock) else Reading(n, cap, cap, memory - 1, answers)
    else if answers != [] && answers[0].Severs? then (0, Broken)
    else if answers != [] && answers[0].Interrupted? then Reading(n, room, cap, memory, answers[1..])
    else if n == 0 then (0, AllRead)
    else
      var len := Clip(if answers == [] then cap else answers[0].n, if room < n then room else n);
      Resumed(len, Reading(n - len, room - len, cap, memory, if answers == [] then [] else answers[1..]))
  }

  /** The same with n bytes read before. */
  function Resumed(n: nat, r: (nat, ReadEnd)): (nat, ReadEnd) {
    (n + r.0, r.1)
  }

  /** However recv cuts up the bytes, unless it fails: what fits in the blocks is read, and the
      pass ends in order exactly if that leaves room. */
  lemma {:induction false} ReadsExactly(n: nat, room: nat, cap: nat, memory: nat, answers: seq<RecvAnswer>)
    requires room <= cap && cap > 0 && Severs !in answers
    ensures var fits := room + memory * cap;
            Reading(n, room, cap, memory, answers) == if n < fits then (n, AllRead) else (fits, NoBlock)
    decreases n, |answers|, cap - room
  {
    if room == 0 {
      if memory > 0 {
        ReadsExactly(n, cap, cap, memory - 1, answers);
        assert cap + (memory - 1) * cap == memory * cap;
      }
    } else if answers != [] && answers[0].Interrupted? {
      ReadsExactly(n, room, cap, memory, answers[1..]);
    } else if n > 0 {
      var len := Clip(if answers == [] then cap else answers[0].n, if room < n then room else n);
      ReadsExactly(n - len, room - len, cap, memory, if answers == [] then [] else answers[1..]);
    } else {
      assert memory * cap >= 0;
    }
  }

  /** A pass that ends in order has read everything, and only recv's failure breaks it. */
  lemma {:induction false} ReadingEnds(n: nat, room: nat, cap: nat, memory: nat, answers: seq<RecvAnswer>)
    requires room <= cap && cap > 0
    ensures var (k, end) := Reading(n, room, cap, memory, answers);
            (end.AllRead? ==> k == n) && (end.Broken? ==> Severs in answers)
    decreases n, |answers|, cap - room
  {
    if room == 0 {
      if memory > 0 {
        ReadingEnds(n, cap, cap, memory - 1, answers);
      }
    } else if answers != [] && answers[0].Interrupted? {
      ReadingEnds(n, room, cap, memory, answers[1..]);
    } else if n > 0 && (answers == [] || answers[0].Gives?) {
      var len := Clip(if answers == [] then cap else answers[0].n, if room < n then room else n);
      ReadingEnds(n - len, room - len, cap, memory, if answers == [] then [] else answers[1..]);
    }
  }

  /** Cut into pieces of `cap` bytes; the last one may be shorter. */
  function Chop(bytes: seq<Byte>, cap: nat): seq<seq<Byte>>
    requires cap > 0
  {
    if bytes == [] then []
    else if |bytes| <= cap then [bytes]
    else [bytes[..cap]] + Chop(bytes[cap..], cap)
  }

  function Join(chunks: seq<seq<Byte>>): seq<Byte> {
    if chunks == [] then [] else chunks[0] + Join(chunks[1..])
  }

  predicate AllFull(chunks: seq<seq<Byte>>, cap: nat) {
    forall i :: 0 <= i < |chunks| ==> |chunks[i]| == cap
  }

  lemma {:induction false} ChopFull(chunks: seq<seq<Byte>>, rest: seq<Byte>, cap: nat)
    requires cap > 0 && AllFull(chunks, cap) && |rest| <= cap
    ensures Chop(Join(chunks) + rest, cap) == chunks + (if rest == [] then [] else [rest])
  {
    if chunks == [] {
      assert Join(chunks) + rest == rest;
    } else {
      var all := Join(chunks) + rest;
      assert all == chunks[0] + (Join(chunks[1..]) + rest);
      assert all[..cap] == chunks[0] && all[cap..] == Join(chunks[1..]) + rest;
      ChopFull(chunks[1..], rest, cap);
      if |all| <= cap {
        assert all == chunks[0];
        assert Join(chunks[1..]) + rest == [];
      }
      assert chunks == [chunks[0]] + chunks[1..];
    }
  }

  lemma {:induction false} JoinSnoc(chunks: seq<seq<Byte>>, c: seq<Byte>)
    ensures Join(chunks + [c]) == Join(chunks) + c
  {
    if chunks == [] {
      assert chunks + [c] == [c];
      assert [c][1..] == [];
    } else {
      assert (chunks + [c])[1..] == chunks[1..] + [c];
      JoinSnoc(chunks[1..], c);
      Reassociate(chunks[0], Join(chunks[1..]), c);
    }
  }

  /** Chopping loses nothing: the pieces joined are the bytes. */
  lemma {:induction false} JoinChop(bytes: seq<Byte>, cap: nat)
    requires cap > 0
    ensures Join(Chop(bytes, cap)) == bytes
  {
    if |bytes| > cap {
      JoinChop(bytes[cap..], cap);
      assert bytes == bytes[..cap] + bytes[cap..];
      assert ([bytes[..cap]] + Chop(bytes[cap..], cap))[1..] == Chop(bytes[cap..], cap);
    } else if bytes != [] {
      assert [bytes][1..] == [];
      assert bytes + [] == bytes;
    }
  }

  // ---------------------------------------------------------------------------------------
  // The object
  // ---------------------------------------------------------------------------------------

  /** How the do-while of __HandleWrite was left. */
  function Outcome(toShutdown: bool, blockEmpty: bool): DrainEnd {
    if blockEmpty then Drained else if toShutdown then Failed else Blocked
  }

  /** A connection with the fields of its bases: RefObject's and SockEventer's come first. */
  class SockSpray {
    var reference_: nat
    var prev_: SockSpray?
    var next_: SockSpray?
    var context_: SockSpray?
    var enableIdleCheck_: bool
    var handler_: bool                  // whether handler_ is set
    var poller_: bool                   // whether poller_ is set
    var threadCount_: nat
    var sendReady_: bool
    var sendAlready_: bool
    var cache_: Cache
    var sendBlocks_: seq<Block>
    var recvReady_: bool
    var recvAlready_: bool
    var query_: bool
    var invoke_: bool
    var already_: bool
    var closes_: nat
    var socket_: bool                   // whether skpad_ holds an open socket
    var iocpCount_: int
    var disconnectex_: bool             // whether iocp_data_.disconnectex is set
    var numEof_: nat
    /** Cache and queue with their history and the references held. */
    ghost var flow: Flow

    ghost function View(): Conn
      reads this`flow, this`query_, this`invoke_, this`already_, this`closes_
    {
      Conn(flow, query_, invoke_, already_, closes_)
    }

    ghost predicate Linked()
      reads this`flow, this`cache_, this`sendBlocks_
    {
      flow.cache == cache_ && flow.queue == sendBlocks_ && Sendable(flow)
    }

    /** No call is under way.  What holds between calls, Settled(View()), is proved of the
        functions that the methods are shown to compute. */
    ghost predicate Valid()
      reads this
    {
      Linked() && !sendAlready_ && !recvAlready_
    }

    /** Everything the constructors set has its first value; the context is not among that. */
    ghost predicate AsConstructed()
      reads this
    {
      BaseAsConstructed() && OwnAsConstructed()
    }

    ghost predicate BaseAsConstructed()
      reads this`reference_, this`prev_, this`next_
    {
      reference_ == 1 && prev_ == null && next_ == null
    }

    ghost predicate OwnAsConstructed()
      reads this`enableIdleCheck_, this`handler_, this`poller_, this`threadCount_, this`sendBlocks_, this`socket_
      reads this`sendReady_, this`sendAlready_, this`cache_, this`recvReady_, this`recvAlready_
      reads this`query_, this`invoke_, this`already_, this`iocpCount_, this`disconnectex_, this`numEof_
    {
      && enableIdleCheck_ && !handler_ && !poller_ && threadCount_ == 0
      && sendBlocks_ == [] && !socket_ && StatesZero()
    }

    /** send_state_, recv_state_, shutdown_state_, iocp_data_ and kevent_data_ are as the
        constructor's memset leaves them. */
    ghost predicate StatesZero()
      reads this`sendReady_, this`sendAlready_, this`cache_, this`recvReady_, this`recvAlready_
      reads this`query_, this`invoke_, this`already_, this`iocpCount_, this`disconnectex_, this`numEof_
    {
      && !sendReady_ && !sendAlready_ && cache_ == Empty
      && !recvReady_ && !recvAlready_ && !query_ && !invoke_ && !already_
      && iocpCount_ == 0 && !disconnectex_ && numEof_ == 0
    }

    /** What Clean asks: the block references are accounted for, as every call keeps them. */
    ghost predicate Cleanable()
      reads this`flow, this`cache_, this`sendBlocks_
    {
      Linked() && Referenced(flow)
    }

    constructor ()
      ensures Valid() && AsConstructed() && View() == Opened && Cleanable()
    {
      reference_, prev_, next_, context_ := 1, null, null, null;
      enableIdleCheck_, handler_, poller_, threadCount_ := true, false, false, 0;
      sendReady_, sendAlready_, cache_, sendBlocks_ := false, false, Empty, [];
      recvReady_, recvAlready_ := false, false;
      query_, invoke_, already_, closes_ := false, false, false, 0;
      socket_, iocpCount_, disconnectex_, numEof_ := false, 0, false, 0;
      flow := SendProtocol.Dry;
    }

    /** The operating system's close, once per life. */
    method Sever()
      modifies this`invoke_, this`closes_
      ensures View() == Disconnected(old(View()))
    {
      if !invoke_ {
        invoke_, closes_ := true, closes_ + 1;
      }
    }

    /** The section at the head of the send loop: load the cache, or report the queue empty. */
    method Load() returns (blockEmpty: bool)
      requires Linked()
      modifies this`cache_, this`sendBlocks_, this`sendReady_, this`flow
      ensures Linked() && flow == Fetched(old(flow))
      ensures blockEmpty <==> cache_.Empty?
      ensures sendReady_ <==> old(sendReady_) || blockEmpty
    {
      blockEmpty := false;
      flow := Fetched(flow);
      if cache_.Empty? {
        if sendBlocks_ == [] {
          sendReady_, blockEmpty := true, true;
        } else {
          cache_, sendBlocks_ := Loaded(sendBlocks_[0], 0), sendBlocks_[1..];
        }
      }
    }

    /** One call of send on the cached block; `out` are the bytes the kernel takes. */
    method SendOnce(answer: SendAnswer) returns (len: int, out: seq<Byte>)
      requires Linked() && cache_.Loaded?
      modifies this`cache_, this`flow
      ensures Linked() && (len > 0 <==> answer.Takes?) && flow.sent == old(flow.sent) + out
      ensures answer.Takes? ==>
                flow == Pushed(old(flow), Clip(answer.n, |old(cache_).block.data| - old(cache_).len))
      ensures !answer.Takes? ==> flow == old(flow)
    {
      if answer.Takes? {
        len := Clip(answer.n, |cache_.block.data| - cache_.len);
        out := cache_.block.data[cache_.len..cache_.len + len];
        flow := Pushed(flow, len);
        cache_ := cache_.(len := cache_.len + len);
        if cache_.len == |cache_.block.data| {
          cache_ := Empty;
        }
      } else {
        len, out := -1, [];
      }
    }

    /** One turn of the do-while. */
    method SendTurn(answers: seq<SendAnswer>, i: nat) returns (continueSend: bool, toShutdown: bool, blockEmpty: bool)
      requires Linked() && i <= |answers| && !sendReady_
      modifies this`cache_, this`sendBlocks_, this`sendReady_, this`flow
      ensures Linked() && (sendReady_ ==> blockEmpty) && !(toShutdown && blockEmpty)
      ensures continueSend <==> Moves(old(flow), answers[i..])
      ensures continueSend ==>
                !toShutdown && !blockEmpty && i < |answers| && flow == Advance(old(flow), answers[i..])
      ensures !continueSend ==>
                flow == Fetched(old(flow)) && Outcome(toShutdown, blockEmpty) == Halt(old(flow), answers[i..])
    {
      continueSend, toShutdown := false, false;
      blockEmpty := Load();
      if !blockEmpty {
        var answer := if i < |answers| then answers[i] else SendAnswer.WouldBlock;
        var len, _ := SendOnce(answer);
        continueSend, toShutdown := len > 0, answer.Breaks?;
      }
    }

    /** The do-while of __HandleWrite. */
    method SendLoop(answers: seq<SendAnswer>) returns (toShutdown: bool, blockEmpty: bool)
      requires Linked() && !sendReady_
      modifies this`cache_, this`sendBlocks_, this`sendReady_, this`flow
      ensures Linked() && Drain(old(flow), answers) == (flow, Outcome(toShutdown, blockEmpty))
      ensures sendReady_ ==> blockEmpty
      ensures !(toShutdown && blockEmpty)
    {
      var i, continueSend := 0, true;
      toShutdown, blockEmpty := false, false;
      while continueSend && !toShutdown
        invariant Linked() && i <= |answers|
        invariant sendReady_ ==> blockEmpty
        invariant !(toShutdown && blockEmpty)
        invariant continueSend ==> !toShutdown && !blockEmpty
        invariant continueSend ==> Drain(flow, answers[i..]) == Drain(old(flow), answers)
        invariant !continueSend ==> Drain(old(flow), answers) == (flow, Outcome(toShutdown, blockEmpty))
        decreases |answers| - i, continueSend
      {
        continueSend, toShutdown, blockEmpty := SendTurn(answers, i);
        if continueSend {
          assert answers[i..][1..] == answers[i + 1..];
          i := i + 1;
        }
      }
    }

    /** The loop, with what __HandleWrite makes of its end. */
    method WriteLoop(answers: seq<SendAnswer>, ghost result: Conn) returns (toShutdown: bool, blockEmpty: bool)
      requires Linked() && !sendReady_ && !already_ && result == Written(View(), answers)
      modifies this`cache_, this`sendBlocks_, this`sendReady_, this`flow
      ensures Linked() && (sendReady_ ==> blockEmpty)
      ensures result == if toShutdown || (blockEmpty && query_) then Disconnected(View()) else View()
    {
      toShutdown, blockEmpty := SendLoop(answers);
    }

    /** The last two sections of __HandleWrite: check for shutdown and give the section up. */
    method Conclude(toShutdown: bool, blockEmpty: bool)
      requires !already_ && (sendReady_ ==> blockEmpty)
      modifies this`invoke_, this`closes_, this`sendAlready_
      ensures !sendAlready_
      ensures View() == if toShutdown || (blockEmpty && query_) then Disconnected(old(View())) else old(View())
    {
      var closing := toShutdown;
      if !already_ && (toShutdown || (blockEmpty && query_)) {
        closing := true;
        Sever();
      }
      if !sendReady_ || closing || blockEmpty {
        sendAlready_ := false;
      } else {
        assert false;
      }
    }

    /** __HandleWrite past the test of the flag: between calls nobody owns the section, so it is
        acquired, and there is no missed event to jump back for. */
    method Write(answers: seq<SendAnswer>, ghost result: Conn)
      requires Valid() && !already_ && result == Written(View(), answers)
      modifies this
      ensures Linked() && !sendAlready_ && !recvAlready_ && View() == result
    {
      sendReady_, sendAlready_ := false, true;
      var toShutdown, blockEmpty := WriteLoop(answers, result);
      Conclude(toShutdown, blockEmpty);
    }

    method HandleWrite(answers: seq<SendAnswer>)
      requires Valid()
      modifies this
      ensures Valid() && View() == Written(old(View()), answers)
    {
      if already_ {
        return;
      }
      Write(answers, Written(View(), answers));
    }

    /** Both forms of Send; memory for more nodes is found `memory` times. */
    method Send(blocks: seq<Block>, memory: nat, answers: seq<SendAnswer>)
      requires Valid() && NonEmpty(blocks)
      modifies this
      ensures Valid() && View() == Sent(old(View()), blocks, memory, answers)
    {
      if already_ || query_ {
        return;
      }
      var complete := AppendAll(blocks, memory);
      assert blocks[..|blocks|] == blocks;
      if !complete {
        query_ := true;
      } else {
        HandleWrite(answers);
      }
    }

    /** The append section of Send: a reference per block, given back if the append fails. */
    method AppendAll(blocks: seq<Block>, memory: nat) returns (complete: bool)
      requires Linked() && NonEmpty(blocks)
      modifies this`sendBlocks_, this`flow
      ensures Linked() && (complete <==> Appendable(old(View()), blocks, memory))
      ensures flow == Queued(old(flow), blocks[..Appends(|old(flow).queue|, |blocks|, memory)])
    {
      complete := true;
      var i, left := 0, memory;
      ghost var k := Appends(|flow.queue|, |blocks|, memory);
      while complete && i < |blocks|
        invariant i <= k <= |blocks| && flow == old(flow) && sendBlocks_ == flow.queue + blocks[..i]
        invariant complete ==> k == i + Appends(|sendBlocks_|, |blocks| - i, left)
        invariant !complete ==> i == k < |blocks|
        decreases |blocks| - i, complete
      {
        if Full(|sendBlocks_|) && left == 0 {
          complete := false;
        } else {
          left := if Full(|sendBlocks_|) then left - 1 else left;
          sendBlocks_ := sendBlocks_ + [blocks[i]];
          i := i + 1;
        }
      }
      flow := Queued(flow, blocks[..i]);
    }

    method Shutdown()
      requires Valid()
      modifies this
      ensures Valid() && View() == ShutDown(old(View()))
    {
      if already_ || query_ {
        return;
      }
      query_ := true;
      if cache_.Empty? {
        Sever();
      }
    }

    /** The first part of Clean: every block reference the connection holds is given back. */
    method ReleaseBlocks() returns (released: multiset<Block>)
      requires Linked() && Referenced(flow)
      modifies this`cache_, this`sendBlocks_
      ensures released == old(flow.held) && sendBlocks_ == []
    {
      released := multiset{};
      if cache_.Loaded? {
        released := multiset{cache_.block};
      }
      var i := 0;
      while sendBlocks_ != []
        invariant i <= |flow.queue| && sendBlocks_ == flow.queue[i..]
        invariant released == Cached(old(cache_)) + multiset(flow.queue[..i])
        decreases |sendBlocks_|
      {
        assert flow.queue[..i + 1] == flow.queue[..i] + [flow.queue[i]];
        cache_, sendBlocks_ := Loaded(sendBlocks_[0], 0), sendBlocks_[1..];
        released, i := released + multiset{cache_.block}, i + 1;
      }
      assert flow.queue[..i] == flow.queue;
    }

    /** Clean: the references are given back, the fields are as the constructor sets them, and
        a new life begins. */
    method Clean() returns (released: multiset<Block>)
      requires Cleanable()
      modifies this
      ensures released == old(flow.held)
      ensures OwnAsConstructed() && Valid() && View() == Opened && Cleanable()
    {
      socket_ := false;
      released := ReleaseBlocks();
      Reset();
    }

    method Reset()
      requires sendBlocks_ == [] && !socket_
      modifies this
      ensures OwnAsConstructed() && Valid() && View() == Opened && Cleanable()
    {
      handler_, threadCount_ := false, 0;
      ZeroStates();
      poller_, enableIdleCheck_ := false, true;
      flow, closes_ := SendProtocol.Dry, 0;
    }

    method ZeroStates()
      modifies this`sendReady_, this`sendAlready_, this`cache_, this`recvReady_, this`recvAlready_,
               this`query_, this`invoke_, this`already_, this`iocpCount_, this`disconnectex_, this`numEof_
      ensures StatesZero()
    {
      sendReady_, sendAlready_, cache_ := false, false, Empty;
      recvReady_, recvAlready_ := false, false;
      query_, invoke_, already_ := false, false, false;
      iocpCount_, disconnectex_, numEof_ := 0, false, 0;
    }

    /** The inner recv loop: fill one block.  `incoming` is what the kernel has for us, `left`
        the number of blocks that can still be had after this one. */
    method Fill(incoming: seq<Byte>, cap: nat, answers: seq<RecvAnswer>, from: nat, ghost left: nat)
      returns (block: seq<Byte>, to: nat, dry: bool, severed: bool)
      requires cap > 0 && from <= |answers|
      ensures |block| <= cap && block <= incoming && from <= to <= |answers|
      ensures dry ==> block == incoming && |block| < cap
      ensures !dry && !severed ==> |block| == cap
      ensures severed ==> |block| < cap && !dry && Severs in answers
      ensures Reading(|incoming|, cap, cap, left, answers[from..]) ==
              Resumed(|block|, if dry then (0, AllRead) else if severed then (0, Broken)
                               else Reading(|incoming| - cap, 0, cap, left, answers[to..]))
    {
      block, to, dry, severed := [], from, false, false;
      while |block| < cap && !dry && !severed
        invariant |block| <= cap && block <= incoming && from <= to <= |answers|
        invariant dry ==> block == incoming && |block| < cap
        invariant severed ==> |block| < cap && !dry && Severs in answers
        invariant Reading(|incoming|, cap, cap, left, answers[from..]) ==
                  Resumed(|block|, if dry then (0, AllRead) else if severed then (0, Broken)
                                   else Reading(|incoming| - |block|, cap - |block|, cap, left, answers[to..]))
        decreases !dry && !severed, |answers| - to, |incoming| - |block|
      {
        var answer := if to < |answers| then answers[to] else Gives(cap);
        assert to < |answers| ==> answers[to..][0] == answer && answers[to..][1..] == answers[to + 1..];
        to := if to < |answers| then to + 1 else to;
        if answer.Severs? {
          severed := true;
        } else if answer.Gives? {
          if block == incoming {
            dry := true;
          } else {
            var room := cap - |block|;
            var there := |incoming| - |block|;
            var len := Clip(answer.n, if room < there then room else there);
            block := incoming[..|block| + len];
          }
        }
      }
    }

    /** __HandleRead: the blocks handed to HandleData are the bytes taken from the kernel, cut
        at the block capacity, however the kernel fragments them; all that recv handed out, also
        before it fails, and until the `memory` blocks that can be allocated are full.  `closed`
        says that the peer has ended its stream. */
    method HandleRead(incoming: seq<Byte>, closed: bool, cap: nat, memory: nat, answers: seq<RecvAnswer>)
      returns (chunks: seq<seq<Byte>>, taken: nat)
      requires Valid() && cap > 0
      modifies this
      ensures Valid() && taken <= |incoming| && |chunks| <= memory
      ensures chunks == Chop(incoming[..taken], cap)
      ensures old(already_ || query_) ==> taken == 0 && View() == old(View())
      ensures !old(already_ || query_) ==>
                var (k, end) := Reading(|incoming|, 0, cap, memory, answers);
                taken == k && View() == if end.AllRead? && !closed then old(View()) else Disconnected(old(View()))
    {
      chunks, taken := [], 0;
      if already_ || query_ {
        assert incoming[..0] == [];
        return;
      }
      recvReady_, recvAlready_ := false, true;
      var toShutdown;
      chunks, taken, toShutdown := ReadLoop(incoming, closed, cap, memory, answers);
      if toShutdown {
        Sever();
      }
      recvAlready_ := false;
    }

    /** The outer loop: a block at a time. */
    method ReadLoop(incoming: seq<Byte>, closed: bool, cap: nat, memory: nat, answers: seq<RecvAnswer>)
      returns (chunks: seq<seq<Byte>>, taken: nat, toShutdown: bool)
      requires cap > 0
      ensures taken <= |incoming| && |chunks| <= memory && chunks == Chop(incoming[..taken], cap)
      ensures var (k, end) := Reading(|incoming|, 0, cap, memory, answers);
              taken == k && (toShutdown <==> !end.AllRead? || closed)
    {
      chunks, taken := [], 0;
      var i := 0;
      var continueRecv := true;
      toShutdown := false;
      ghost var full: seq<seq<Byte>> := [];
      assert Join(full) == incoming[..0] && answers[0..] == answers;
      ghost var whole := Reading(|incoming|, 0, cap, memory, answers);
      while continueRecv && !toShutdown
        invariant i <= |answers| && taken <= |incoming| && AllFull(full, cap) && |chunks| <= memory
        invariant continueRecv ==> !toShutdown && chunks == full && Join(full) == incoming[..taken]
        invariant !continueRecv ==> chunks == Chop(incoming[..taken], cap)
        invariant continueRecv ==>
                    whole == Resumed(taken, Reading(|incoming| - taken, 0, cap, memory - |chunks|, answers[i..]))
        invariant !continueRecv ==> taken == whole.0 && (toShutdown <==> !whole.1.AllRead? || closed)
        decreases continueRecv, |incoming| - taken
      {
        if |chunks| == memory {
          ChopFull(full, [], cap);
          assert Join(full) + [] == incoming[..taken];
          continueRecv, toShutdown := false, true;
        } else {
          var block, to, dry, severed := Fill(incoming[taken..], cap, answers, i, memory - |chunks| - 1);
          i := to;
          ghost var read := incoming[..taken + |block|];
          assert read == Join(full) + block;
          ChopFull(full, block, cap);
          if block != [] {
            chunks := chunks + [block];
          }
          if dry || severed {
            continueRecv := false;
            toShutdown := severed || closed;
          } else {
            JoinSnoc(full, block);
            full := full + [block];
          }
          taken := taken + |block|;
          assert incoming[..taken] == read;
        }
      }
    }
  }
}
