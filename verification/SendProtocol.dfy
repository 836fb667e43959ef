/** The send side of a connection as a transition system: any number of threads in Send,
    HandleWrite and Shutdown, one step per critical section or kernel call. */
module SendProtocol {
  import opened Counting
  import opened Sections
  import opened Streams

  /** A data block whose bytes no longer change. */
  datatype Block = Block(id: nat, data: seq<Byte>)

  /** cache_buf with cache_len. */
  datatype Cache = Empty | Loaded(block: Block, len: nat)

  // ---------------------------------------------------------------------------------------
  // The bytes on their way out
  // ---------------------------------------------------------------------------------------

  /** The cache and the queue, with what was accepted, what the kernel took, and the block
      references the connection holds. */
  datatype Flow = Flow(cache: Cache, queue: seq<Block>, accepted: seq<Block>, sent: seq<Byte>, held: multiset<Block>)

  const Dry: Flow := Flow(Empty, [], [], [], multiset{})

  /** send_blocks_ has this many nodes in itself and is extended by as many at a time. */
  const NODES: nat := 128

  /** A queue of this length may have no free node, so that another append needs memory.  While a
      node is free an append succeeds. */
  predicate Full(length: nat) {
    length == NODES || (length > NODES && Full(length - NODES))
  }

  /** This is what the deque says of itself when it reports NOMEMORY: it holds all the nodes of one
      or more lots. */
  lemma {:induction false} FullIsLots(lots: nat)
    requires lots > 0
    ensures Full(Span(NODES, lots))
  {
    if lots > 1 {
      FullIsLots(lots - 1);
      assert Span(NODES, lots - 1) > 0;
    }
  }

  /** Blocks appended to the queue, one reference each. */
  function Queued(f: Flow, blocks: seq<Block>): Flow {
    f.(queue := f.queue + blocks, accepted := f.accepted + blocks, held := f.held + multiset(blocks))
  }

  /** The head of the queue becomes the cache, unless a cache is still there. */
  function Fetched(f: Flow): Flow {
    if f.cache.Loaded? || f.queue == [] then f
    else f.(cache := Loaded(f.queue[0], 0), queue := f.queue[1..])
  }

  predicate Fitting(f: Flow, n: nat) {
    f.cache.Loaded? && f.cache.len + n <= |f.cache.block.data|
  }

  /** The kernel took n bytes of the cache; a block that is through is released. */
  function Pushed(f: Flow, n: nat): Flow
    requires Fitting(f, n)
  {
    var Loaded(block, len) := f.cache;
    var sent := f.sent + block.data[len..len + n];
    if len + n == |block.data| then f.(sent := sent, cache := Empty, held := f.held - multiset{block})
    else f.(sent := sent, cache := Loaded(block, len + n))
  }

  function Flat(blocks: seq<Block>): seq<Byte> {
    if blocks == [] then [] else blocks[0].data + Flat(blocks[1..])
  }

  function Tail(c: Cache): seq<Byte> {
    if c.Loaded? && c.len <= |c.block.data| then c.block.data[c.len..] else []
  }

  function Cached(c: Cache): multiset<Block> {
    if c.Loaded? then multiset{c.block} else multiset{}
  }

  predicate NonEmpty(blocks: seq<Block>) {
    forall i :: 0 <= i < |blocks| ==> blocks[i].data != []
  }

  /** What the kernel took, the unsent rest of the cache and the queue are together the
      accepted blocks in append order. */
  predicate Conserved(f: Flow) {
    f.sent + Tail(f.cache) + Flat(f.queue) == Flat(f.accepted)
  }

  /** One reference per block in the queue and one for the cached block. */
  predicate Referenced(f: Flow) {
    f.held == multiset(f.queue) + Cached(f.cache)
  }

  predicate FlowOk(f: Flow) {
    && Conserved(f) && Referenced(f) && NonEmpty(f.queue)
    && (f.cache.Loaded? ==> f.cache.len < |f.cache.block.data|)
  }

  lemma {:induction false} FlatConcat(xs: seq<Block>, ys: seq<Block>)
    ensures Flat(xs + ys) == Flat(xs) + Flat(ys)
  {
    if xs == [] {
      assert xs + ys == ys;
    } else {
      assert (xs + ys)[1..] == xs[1..] + ys;
      FlatConcat(xs[1..], ys);
      Reassociate(xs[0].data, Flat(xs[1..]), Flat(ys));
    }
  }

  lemma QueuedOk(f: Flow, blocks: seq<Block>)
    requires FlowOk(f) && NonEmpty(blocks)
    ensures FlowOk(Queued(f, blocks))
  {
    FlatConcat(f.queue, blocks);
    FlatConcat(f.accepted, blocks);
    Reassociate(f.sent + Tail(f.cache), Flat(f.queue), Flat(blocks));
  }

  lemma FetchedOk(f: Flow)
    requires FlowOk(f)
    ensures FlowOk(Fetched(f))
  {
    if f.cache.Empty? && f.queue != [] {
      assert f.queue == [f.queue[0]] + f.queue[1..];
      assert f.sent + [] == f.sent;
      Reassociate(f.sent, f.queue[0].data, Flat(f.queue[1..]));
    }
  }

  lemma PushedConserves(f: Flow, n: nat)
    requires Conserved(f) && Fitting(f, n)
    ensures Conserved(Pushed(f, n))
  {
    var Loaded(block, len) := f.cache;
    var f' := Pushed(f, n);
    assert block.data[len..len + n] + Tail(f'.cache) == Tail(f.cache);
    Reassociate(f.sent, block.data[len..len + n], Tail(f'.cache));
  }

  lemma PushedOk(f: Flow, n: nat)
    requires FlowOk(f) && Fitting(f, n)
    ensures FlowOk(Pushed(f, n))
  {
    PushedConserves(f, n);
  }

  // ---------------------------------------------------------------------------------------
  // States and steps
  // ---------------------------------------------------------------------------------------

  /** Where a thread stands.  From Fetching to Releasing it owns the send section. */
  datatype Phase =
    | Offering(blocks: seq<Block>)            // Send: about to test the shutdown flags
    | Appending(blocks: seq<Block>)           // Send: about to append to the queue
    | Entering                                // __HandleWrite: about to test `already`
    | Claiming                                // about to test send_state_.already
    | Fetching                                // about to load the cache
    | Sending                                 // about to call send
    | Checking(stop: bool, empty: bool)       // about to test for shutdown
    | Releasing(stop: bool, empty: bool)      // about to give the section up
    | Asking                                  // Shutdown: about to set query
    | Looking                                 // Shutdown: about to look at cache_buf
    | Severing                                // Shutdown: about to call __Shutdown
    | Out

  /** shutdown_state_, with `down` for its `already`, and how often the operating system's close
      was issued. */
  datatype Shut = Shut(query: bool, invoke: bool, down: bool, closes: nat)

  /** `armed`: a would-block has been met, so a write edge will follow. */
  datatype State = State(threads: seq<Phase>, send: Section, shut: Shut, armed: bool, flow: Flow)

  datatype SendResult = Took(n: nat) | SendWouldBlock | SendFailed

  datatype Action =
    | CallSend(blocks: seq<Block>)
    | CallShutdown
    | Writable                       // the edge that follows a would-block
    | WritableAgain                  // a write event reported along with another edge
    | CloseElsewhere                 // reader or idle sweep calls __Shutdown
    | SetDown                        // HandleShutdown sets already
    | Offer(t: nat)
    | Append(t: nat, n: nat)         // n blocks appended before memory ran out
    | Enter(t: nat)
    | Claim(t: nat)
    | Fetch(t: nat)
    | Push(t: nat, r: SendResult)
    | Check(t: nat)
    | Release(t: nat)
    | Ask(t: nat)
    | Look(t: nat)
    | Sever(t: nat)

  function Subject(a: Action): int {
    match a
    case Offer(t) => t
    case Append(t, _) => t
    case Enter(t) => t
    case Claim(t) => t
    case Fetch(t) => t
    case Push(t, _) => t
    case Check(t) => t
    case Release(t) => t
    case Ask(t) => t
    case Look(t) => t
    case Sever(t) => t
    case _ => -1
  }

  /** The phase a thread's step starts from. */
  predicate Fits(s: State, a: Action, p: Phase) {
    match a
    case Offer(_) => p.Offering?
    case Append(_, n) => p.Appending? && n <= |p.blocks| && (n < |p.blocks| ==> Full(|s.flow.queue| + n))
    case Enter(_) => p.Entering?
    case Claim(_) => p.Claiming?
    case Fetch(_) => p.Fetching?
    case Push(_, r) =>
      p.Sending? && s.flow.cache.Loaded? && (r.Took? ==> 1 <= r.n && Fitting(s.flow, r.n))
    case Check(_) => p.Checking?
    case Release(_) => p.Releasing?
    case Ask(_) => p.Asking?
    case Look(_) => p.Looking?
    case Sever(_) => p.Severing?
    case _ => false
  }

  predicate Enabled(s: State, a: Action) {
    if Subject(a) >= 0 then Subject(a) < |s.threads| && Fits(s, a, s.threads[Subject(a)])
    else if a.CallSend? then a.blocks != [] && NonEmpty(a.blocks)
    else a.Writable? ==> s.armed
  }

  /** __Shutdown: the operating system's close is issued the first time only. */
  function Severed(shut: Shut): Shut {
    if shut.invoke then shut else shut.(invoke := true, closes := shut.closes + 1)
  }

  predicate Closes(s: State, p: Phase)
    requires p.Checking?
  {
    !s.shut.down && (p.stop || (p.empty && s.shut.query))
  }

  function Next(s: State, a: Action): Phase
    requires Subject(a) >= 0 && Enabled(s, a)
  {
    var p := s.threads[Subject(a)];
    match a
    case Offer(_) => if s.shut.down || s.shut.query then Out else Appending(p.blocks)
    case Append(_, n) => if n == |p.blocks| then Entering else Out
    case Enter(_) => if s.shut.down then Out else Claiming
    case Claim(_) => if s.send.already then Out else Fetching
    case Fetch(_) => if s.flow.cache.Empty? && s.flow.queue == [] then Checking(false, true) else Sending
    case Push(_, r) => if r.Took? then Fetching else Checking(r.SendFailed?, false)
    case Check(_) => Releasing(p.stop || Closes(s, p), p.empty)
    case Release(_) => if !s.send.ready || p.stop || p.empty then Out else Fetching
    case Ask(_) => if s.shut.down || s.shut.query then Out else Looking
    case Look(_) => if s.flow.cache.Loaded? then Out else Severing
    case Sever(_) => Out
  }

  function Effect(s: State, a: Action): State
    requires Subject(a) >= 0 && Enabled(s, a)
  {
    var p := s.threads[Subject(a)];
    match a
    case Append(_, n) =>
      s.(flow := Queued(s.flow, p.blocks[..n]), shut := s.shut.(query := s.shut.query || n < |p.blocks|))
    case Claim(_) => s.(send := Claimed(s.send))
    case Fetch(_) =>
      s.(flow := Fetched(s.flow),
         send := s.send.(ready := s.send.ready || (s.flow.cache.Empty? && s.flow.queue == [])))
    case Push(_, r) =>
      if r.Took? then s.(flow := Pushed(s.flow, r.n)) else s.(armed := s.armed || r.SendWouldBlock?)
    case Check(_) => if Closes(s, p) then s.(shut := Severed(s.shut)) else s
    case Release(_) => s.(send := Given(s.send, p.stop || p.empty))
    case Ask(_) => s.(shut := s.shut.(query := s.shut.query || !s.shut.down))
    case Sever(_) => s.(shut := Severed(s.shut))
    case _ => s
  }

  function Do(s: State, a: Action): State
    requires Enabled(s, a)
  {
    match a
    case CallSend(blocks) => s.(threads := s.threads + [Offering(blocks)])
    case CallShutdown => s.(threads := s.threads + [Asking])
    case Writable => s.(armed := false, threads := s.threads + [Entering])
    case WritableAgain => s.(threads := s.threads + [Entering])
    case CloseElsewhere => s.(shut := Severed(s.shut))
    case SetDown => s.(shut := s.shut.(down := true))
    case _ => Effect(s, a).(threads := s.threads[Subject(a) := Next(s, a)])
  }

  const Idle: State := State([], Free, Shut(false, false, false, 0), false, Dry)

  predicate Legal(s: State, run: seq<Action>)
    decreases |run|
  {
    run != [] ==> Enabled(s, run[0]) && Legal(Do(s, run[0]), run[1..])
  }

  function After(s: State, run: seq<Action>): State
    requires Legal(s, run)
    decreases |run|
  {
    if run == [] then s else After(Do(s, run[0]), run[1..])
  }

  // ---------------------------------------------------------------------------------------
  // The invariant
  // ---------------------------------------------------------------------------------------

  function IsOwner(p: Phase): nat {
    if p.Fetching? || p.Sending? || p.Checking? || p.Releasing? then 1 else 0
  }

  function IsSending(p: Phase): nat { if p.Sending? then 1 else 0 }

  /** Owners that found the queue empty: they will not look again. */
  function IsSpent(p: Phase): nat { if (p.Checking? || p.Releasing?) && p.empty then 1 else 0 }

  /** Threads that have yet to pass the send_lock_ test. */
  function IsComing(p: Phase): nat { if p.Entering? || p.Claiming? then 1 else 0 }

  /** Owners that will look at the cache and the queue again. */
  function IsDraining(p: Phase): nat { if p.Fetching? || p.Sending? then 1 else 0 }

  function IsStopping(p: Phase): nat { if p.Checking? && p.stop then 1 else 0 }

  function HasStopped(p: Phase): nat { if p.Releasing? && p.stop then 1 else 0 }

  predicate PhaseOk(p: Phase) {
    p.Offering? || p.Appending? ==> p.blocks != [] && NonEmpty(p.blocks)
  }

  predicate Sound(s: State) {
    && Count(s.threads, IsOwner) == (if s.send.already then 1 else 0)
    && (Count(s.threads, IsSending) > 0 ==> s.flow.cache.Loaded?)
    && (Count(s.threads, IsSpent) > 0 ==> s.flow.cache.Empty?)
    && (Count(s.threads, HasStopped) > 0 ==> s.shut.invoke || s.shut.down)
    && s.shut.closes == (if s.shut.invoke then 1 else 0)
  }

  predicate Blocks(s: State) {
    forall i :: 0 <= i < |s.threads| ==>
      PhaseOk(s.threads[i]) && (s.threads[i].Looking? || s.threads[i].Severing? ==> s.shut.query)
  }

  predicate Inv(s: State) {
    Sound(s) && Blocks(s) && FlowOk(s.flow)
  }

  // ---------------------------------------------------------------------------------------
  // Every step keeps the invariant
  // ---------------------------------------------------------------------------------------

  lemma ThreadMoves(s: State, a: Action, f: Phase -> nat)
    requires Subject(a) >= 0 && Enabled(s, a)
    ensures Count(Do(s, a).threads, f) + f(s.threads[Subject(a)]) == Count(s.threads, f) + f(Next(s, a))
    ensures f(s.threads[Subject(a)]) <= Count(s.threads, f)
  {
    CountUpdate(s.threads, Subject(a), Next(s, a), f);
    CountAtLeast(s.threads, Subject(a), f);
  }

  /** A step that is no thread's step starts a thread at most. */
  lemma OutsideMoves(s: State, a: Action, f: Phase -> nat)
    requires Subject(a) < 0 && Enabled(s, a)
    ensures Count(Do(s, a).threads, f) == Count(s.threads, f) + Comers(a, f)
  {
    if Comer(a).Out? {
      assert Do(s, a).threads == s.threads;
    } else {
      Started(s.threads, Comer(a));
    }
  }

  /** The thread that the step starts; Out for none. */
  function Comer(a: Action): Phase {
    match a
    case CallSend(blocks) => Offering(blocks)
    case CallShutdown => Asking
    case Writable => Entering
    case WritableAgain => Entering
    case _ => Out
  }

  function Comers(a: Action, f: Phase -> nat): nat {
    if Comer(a).Out? then 0 else f(Comer(a))
  }

  lemma OutsideKeepsSound(s: State, a: Action)
    requires Sound(s) && Enabled(s, a) && Subject(a) < 0
    ensures Sound(Do(s, a))
  {
    OutsideMoves(s, a, IsOwner);
    OutsideMoves(s, a, IsSending);
    OutsideMoves(s, a, IsSpent);
    OutsideMoves(s, a, HasStopped);
  }

  lemma SoundKept(s: State, a: Action)
    requires Sound(s) && Enabled(s, a)
    ensures Sound(Do(s, a))
  {
    if Subject(a) >= 0 {
      ThreadKeepsSound(s, a);
    } else {
      OutsideKeepsSound(s, a);
    }
  }

  lemma ThreadKeepsSound(s: State, a: Action)
    requires Sound(s) && Enabled(s, a) && Subject(a) >= 0
    ensures Sound(Do(s, a))
  {
    ThreadMoves(s, a, IsOwner);
    ThreadMoves(s, a, HasStopped);
    ThreadMoves(s, a, IsSending);
    ThreadMoves(s, a, IsSpent);
    if IsOwner(s.threads[Subject(a)]) == 1 {
      OnlyOwner(s, a);
    } else {
      CountLe(s.threads, IsSending, IsOwner);
      CountLe(s.threads, IsSpent, IsOwner);
    }
  }

  /** An owner's step: afterwards it alone may carry an owner's weight. */
  lemma OnlyOwner(s: State, a: Action)
    requires Sound(s) && Subject(a) >= 0 && Enabled(s, a) && IsOwner(s.threads[Subject(a)]) == 1
    ensures Count(Do(s, a).threads, IsSending) == IsSending(Next(s, a))
    ensures Count(Do(s, a).threads, IsSpent) == IsSpent(Next(s, a))
  {
    ThreadMoves(s, a, IsOwner);
    Others(s.threads, Subject(a), IsSending);
    Others(s.threads, Subject(a), IsSpent);
    ThreadMoves(s, a, IsSending);
    ThreadMoves(s, a, IsSpent);
  }

  lemma Others(ts: seq<Phase>, t: nat, f: Phase -> nat)
    requires t < |ts| && IsOwner(ts[t]) == 1 && Count(ts, IsOwner) == 1
    requires forall p :: f(p) <= IsOwner(p)
    ensures Count(ts, f) == f(ts[t])
  {
    CountUpdate(ts, t, Out, IsOwner);
    CountUpdate(ts, t, Out, f);
    CountLe(ts[t := Out], f, IsOwner);
  }

  lemma BlocksKept(s: State, a: Action)
    requires Blocks(s) && Enabled(s, a)
    ensures Blocks(Do(s, a))
  {
    if Subject(a) >= 0 {
      assert PhaseOk(s.threads[Subject(a)]);
      assert PhaseOk(Next(s, a));
    }
  }

  lemma FlowKept(s: State, a: Action)
    requires Blocks(s) && FlowOk(s.flow) && Enabled(s, a)
    ensures FlowOk(Do(s, a).flow)
  {
    if a.Append? {
      assert PhaseOk(s.threads[a.t]);
      QueuedOk(s.flow, s.threads[a.t].blocks[..a.n]);
    } else if a.Fetch? {
      FetchedOk(s.flow);
    } else if a.Push? && a.r.Took? {
      PushedOk(s.flow, a.r.n);
    } else {
      assert Do(s, a).flow == s.flow;
    }
  }

  lemma StepKeepsInv(s: State, a: Action)
    requires Inv(s) && Enabled(s, a)
    ensures Inv(Do(s, a))
  {
    SoundKept(s, a);
    BlocksKept(s, a);
    FlowKept(s, a);
  }

  lemma {:induction false} RunKeepsInv(s: State, run: seq<Action>)
    requires Inv(s) && Legal(s, run)
    ensures Inv(After(s, run))
    decreases |run|
  {
    if run != [] {
      StepKeepsInv(s, run[0]);
      RunKeepsInv(Do(s, run[0]), run[1..]);
    }
  }

  ghost predicate Reachable(s: State) {
    exists run: seq<Action> :: Legal(Idle, run) && s == After(Idle, run)
  }

  lemma ReachableInv(s: State)
    requires Reachable(s)
    ensures Inv(s)
  {
    var run :| Legal(Idle, run) && s == After(Idle, run);
    RunKeepsInv(Idle, run);
  }

  lemma {:induction false} RunSnoc(s: State, run: seq<Action>, a: Action)
    requires Legal(s, run) && Enabled(After(s, run), a)
    ensures Legal(s, run + [a]) && After(s, run + [a]) == Do(After(s, run), a)
    decreases |run|
  {
    if run == [] {
      assert [] + [a] == [a];
    } else {
      assert (run + [a])[1..] == run[1..] + [a];
      RunSnoc(Do(s, run[0]), run[1..], a);
    }
  }

  lemma ReachableStep(s: State, a: Action)
    requires Reachable(s) && Enabled(s, a)
    ensures Reachable(Do(s, a))
  {
    var run :| Legal(Idle, run) && s == After(Idle, run);
    RunSnoc(Idle, run, a);
  }

  // ---------------------------------------------------------------------------------------
  // What holds in every run
  // ---------------------------------------------------------------------------------------

  /** Never two threads in the send section. */
  lemma OneSender(s: State, t: nat, u: nat)
    requires Reachable(s) && t < |s.threads| && u < |s.threads|
    requires IsOwner(s.threads[t]) == 1 && IsOwner(s.threads[u]) == 1
    ensures t == u && s.send.already
  {
    ReachableInv(s);
    CountAtLeast(s.threads, t, IsOwner);
    if t != u {
      CountUpdate(s.threads, t, Out, IsOwner);
      CountAtLeast(s.threads[t := Out], u, IsOwner);
    }
  }

  /** Whatever the interleaving and however the kernel splits the sends: the bytes it took,
      the unsent rest of the cached block and the queue are the accepted blocks in append
      order; the connection holds one reference per queued or cached block; the operating
      system's close has been issued at most once. */
  lemma OutgoingStream(s: State)
    requires Reachable(s)
    ensures s.flow.sent + Tail(s.flow.cache) + Flat(s.flow.queue) == Flat(s.flow.accepted)
    ensures s.flow.sent <= Flat(s.flow.accepted)
    ensures s.flow.held == multiset(s.flow.queue) + Cached(s.flow.cache)
    ensures s.shut.closes == (if s.shut.invoke then 1 else 0)
  {
    ReachableInv(s);
  }

  // ---------------------------------------------------------------------------------------
  // Stranded blocks
  // ---------------------------------------------------------------------------------------

  predicate Unsent(f: Flow) {
    f.cache.Loaded? || f.queue != []
  }

  lemma NothingUnsent(f: Flow)
    requires FlowOk(f) && !Unsent(f)
    ensures f.sent == Flat(f.accepted) && f.held == multiset{}
  {
    assert f.sent + [] + [] == f.sent;
  }

  /** Something other than an owner will still look at the queue, or the connection closes. */
  predicate CoveredElsewhere(s: State) {
    s.armed || Count(s.threads, IsComing) > 0 || s.shut.invoke || s.shut.down
  }

  predicate Covered(s: State) {
    || CoveredElsewhere(s)
    || Count(s.threads, IsDraining) > 0
    || Count(s.threads, IsStopping) > 0
    || (s.send.already && s.send.ready)
  }

  predicate Attended(s: State) {
    Unsent(s.flow) ==> Covered(s)
  }

  /** The two steps that leave blocks behind.  An owner that found the queue empty gives the
      section up although blocks were queued since; and a Send that ran out of memory after
      appending some of its blocks returns without draining them. */
  predicate Strands(s: State, a: Action)
    requires Enabled(s, a)
  {
    match a
    case Release(t) =>
      s.threads[t].empty && !s.threads[t].stop && s.flow.queue != [] && !CoveredElsewhere(s)
    case Append(t, n) => 0 < n < |s.threads[t].blocks| && !Covered(s)
    case _ => false
  }

  /** A step loses the attention for unsent blocks exactly when it is one of those two. */
  lemma StrandsExactly(s: State, a: Action)
    requires Sound(s) && Attended(s) && Enabled(s, a)
    ensures Attended(Do(s, a)) <==> !Strands(s, a)
  {
    if Subject(a) >= 0 {
      if IsOwner(s.threads[Subject(a)]) == 1 {
        OwnerCoverage(s, a);
      } else {
        VisitorCoverage(s, a);
      }
    } else {
      OutsideCoverage(s, a);
    }
  }

  lemma OutsideCoverage(s: State, a: Action)
    requires Attended(s) && Enabled(s, a) && Subject(a) < 0
    ensures Attended(Do(s, a)) && !Strands(s, a)
  {
    OutsideMoves(s, a, IsComing);
    OutsideMoves(s, a, IsDraining);
    OutsideMoves(s, a, IsStopping);
  }

  lemma OwnerCoverage(s: State, a: Action)
    requires Sound(s) && Attended(s) && Enabled(s, a) && Subject(a) >= 0 && IsOwner(s.threads[Subject(a)]) == 1
    ensures Attended(Do(s, a)) <==> !Strands(s, a)
  {
    ThreadMoves(s, a, IsOwner);
    ThreadMoves(s, a, IsComing);
    ThreadMoves(s, a, IsDraining);
    ThreadMoves(s, a, IsStopping);
    ThreadMoves(s, a, IsSpent);
    ThreadMoves(s, a, HasStopped);
    Others(s.threads, Subject(a), IsDraining);
    Others(s.threads, Subject(a), IsStopping);
  }

  lemma AppendCoverage(s: State, t: nat, n: nat)
    requires Attended(s) && Enabled(s, Append(t, n))
    ensures Attended(Do(s, Append(t, n))) <==> !Strands(s, Append(t, n))
  {
    ThreadMoves(s, Append(t, n), IsComing);
    ThreadMoves(s, Append(t, n), IsDraining);
    ThreadMoves(s, Append(t, n), IsStopping);
  }

  lemma VisitorCoverage(s: State, a: Action)
    requires Attended(s) && Enabled(s, a) && Subject(a) >= 0 && IsOwner(s.threads[Subject(a)]) == 0
    ensures Attended(Do(s, a)) <==> !Strands(s, a)
  {
    if a.Append? {
      AppendCoverage(s, a.t, a.n);
    } else {
      ThreadMoves(s, a, IsComing);
      ThreadMoves(s, a, IsDraining);
      ThreadMoves(s, a, IsStopping);
      assert Do(s, a).flow == s.flow;
    }
  }

  /** No step of the run strands anything. */
  predicate StrandsNothing(s: State, run: seq<Action>)
    requires Legal(s, run)
    decreases |run|
  {
    run != [] ==> !Strands(s, run[0]) && StrandsNothing(Do(s, run[0]), run[1..])
  }

  lemma {:induction false} RunAttended(s: State, run: seq<Action>)
    requires Inv(s) && Attended(s) && Legal(s, run) && StrandsNothing(s, run)
    ensures Attended(After(s, run)) && Inv(After(s, run))
    decreases |run|
  {
    if run != [] {
      StrandsExactly(s, run[0]);
      StepKeepsInv(s, run[0]);
      RunAttended(Do(s, run[0]), run[1..]);
    }
  }

  predicate AtRest(s: State) {
    forall i :: 0 <= i < |s.threads| ==> s.threads[i].Out?
  }

  lemma RestIsQuiet(s: State)
    requires AtRest(s)
    ensures Count(s.threads, IsOwner) == Count(s.threads, IsComing) == 0
    ensures Count(s.threads, IsDraining) == Count(s.threads, IsStopping) == 0
  {
    AllZero(s.threads, IsOwner);
    AllZero(s.threads, IsComing);
    AllZero(s.threads, IsDraining);
    AllZero(s.threads, IsStopping);
  }

  /** A run without a stranding step that has come to rest, with no write edge to come and no
      close, has sent everything that was ever accepted and holds no block any more. */
  lemma RestMeansSent(run: seq<Action>)
    requires Legal(Idle, run) && StrandsNothing(Idle, run)
    ensures var s := After(Idle, run);
            AtRest(s) && !s.armed && !s.shut.invoke && !s.shut.down ==>
              s.flow.sent == Flat(s.flow.accepted) && s.flow.held == multiset{} && !s.send.already
  {
    RunAttended(Idle, run);
    var s := After(Idle, run);
    if AtRest(s) {
      RestIsQuiet(s);
      if !Unsent(s.flow) {
        NothingUnsent(s.flow);
      }
    }
  }

  // ---------------------------------------------------------------------------------------
  // Queries are remembered
  // ---------------------------------------------------------------------------------------

  function IsLooking(p: Phase): nat { if p.Looking? || p.Severing? then 1 else 0 }

  /** Owners whose next check closes the connection once query is set. */
  function IsConcluding(p: Phase): nat { if p.Checking? && (p.stop || p.empty) then 1 else 0 }

  predicate Minded(s: State) {
    || s.shut.invoke || s.shut.down
    || Unsent(s.flow)
    || Count(s.threads, IsLooking) > 0
    || Count(s.threads, IsDraining) > 0
    || Count(s.threads, IsConcluding) > 0
  }

  /** A set query means that somebody will close, or that there is something to drain first. */
  predicate Remembered(s: State) {
    s.shut.query ==> Minded(s)
  }

  /** No step forgets: a Send that is cut short has found the queue long. */
  lemma RememberedKept(s: State, a: Action)
    requires Inv(s) && Remembered(s) && Enabled(s, a)
    ensures Remembered(Do(s, a))
  {
    if Subject(a) < 0 {
      OutsideMoves(s, a, IsLooking);
      OutsideMoves(s, a, IsDraining);
      OutsideMoves(s, a, IsConcluding);
    } else if a.Append? {
      AppendRemembers(s, a.t, a.n);
    } else if IsOwner(s.threads[Subject(a)]) == 1 {
      OwnerRemembers(s, a);
    } else {
      VisitorRemembers(s, a);
    }
  }

  lemma AppendRemembers(s: State, t: nat, n: nat)
    requires Remembered(s) && Enabled(s, Append(t, n))
    ensures Remembered(Do(s, Append(t, n)))
  {
    ThreadMoves(s, Append(t, n), IsLooking);
    ThreadMoves(s, Append(t, n), IsDraining);
    ThreadMoves(s, Append(t, n), IsConcluding);
  }

  lemma OwnerRemembers(s: State, a: Action)
    requires Sound(s) && Remembered(s) && Enabled(s, a) && Subject(a) >= 0 && IsOwner(s.threads[Subject(a)]) == 1
    ensures Remembered(Do(s, a))
  {
    ThreadMoves(s, a, IsSending);
    ThreadMoves(s, a, IsLooking);
    ThreadMoves(s, a, IsDraining);
    ThreadMoves(s, a, IsConcluding);
  }

  lemma VisitorRemembers(s: State, a: Action)
    requires Remembered(s) && Enabled(s, a) && Subject(a) >= 0 && !a.Append?
    requires IsOwner(s.threads[Subject(a)]) == 0
    ensures Remembered(Do(s, a))
  {
    ThreadMoves(s, a, IsLooking);
    ThreadMoves(s, a, IsDraining);
    ThreadMoves(s, a, IsConcluding);
    assert Do(s, a).flow == s.flow;
  }

  lemma {:induction false} RunRemembered(s: State, run: seq<Action>)
    requires Inv(s) && Remembered(s) && Legal(s, run)
    ensures Remembered(After(s, run))
    decreases |run|
  {
    if run != [] {
      RememberedKept(s, run[0]);
      StepKeepsInv(s, run[0]);
      RunRemembered(Do(s, run[0]), run[1..]);
    }
  }

  /** A query is never forgotten: in every run that has come to rest after one was set, the
      connection was closed, or there are blocks left to send; and a run without a stranding step,
      with no write edge to come, has closed. */
  lemma RestMeansClosed(run: seq<Action>)
    requires Legal(Idle, run)
    ensures var s := After(Idle, run);
            AtRest(s) && s.shut.query ==> s.shut.invoke || s.shut.down || Unsent(s.flow)
    ensures var s := After(Idle, run);
            StrandsNothing(Idle, run) && AtRest(s) && !s.armed && s.shut.query ==> s.shut.invoke || s.shut.down
  {
    RunRemembered(Idle, run);
    var s := After(Idle, run);
    if AtRest(s) && s.shut.query {
      RestRemembers(s);
      if StrandsNothing(Idle, run) && !s.armed {
        RunAttended(Idle, run);
        RestIsQuiet(s);
      }
    }
  }

  lemma RestRemembers(s: State)
    requires Remembered(s) && AtRest(s) && s.shut.query
    ensures s.shut.invoke || s.shut.down || Unsent(s.flow)
  {
    RestIsQuiet(s);
    AllZero(s.threads, IsLooking);
    AllZero(s.threads, IsConcluding);
  }

  /** The second stranding step is real: an array Send of more blocks than there are nodes, with
      no memory for more, leaves the first of them in the queue of an idle, open connection, with
      query set and no event to come. */
  lemma CutSendCanStrand(blocks: seq<Block>) returns (s: State)
    requires |blocks| > NODES && NonEmpty(blocks)
    ensures Reachable(s) && AtRest(s) && !s.armed && s.shut.query && !s.shut.invoke && !s.shut.down
    ensures s.flow.queue == blocks[..NODES] && s.flow.sent == []
  {
    assert Legal(Idle, []) && After(Idle, []) == Idle;
    s := Perform(Idle, CallSend(blocks));
    s := Perform(s, Offer(0));
    s := Perform(s, Append(0, NODES));
  }

  /** The race is real: two Sends suffice to leave a block in the queue of an open, writable
      connection with no thread in it and no event to come. */
  lemma BlockCanBeStranded(b: Block, c: Block) returns (s: State)
    requires b.data != [] && c.data != []
    ensures Reachable(s) && AtRest(s) && !s.armed && !s.shut.query && !s.shut.invoke && !s.shut.down
    ensures s.flow.queue == [c] && s.flow.sent == b.data
  {
    s := FirstSend(b);
    s := SecondAppend(s, c);
    s := Perform(s, Enter(1));
    s := Perform(s, Claim(1));
    s := Perform(s, Check(0));
    s := Perform(s, Release(0));
  }

  /** Another Send appends its block. */
  lemma SecondAppend(s: State, c: Block) returns (s': State)
    requires Reachable(s) && |s.threads| == 1 && !s.shut.query && !s.shut.down && c.data != []
    ensures Reachable(s') && s' == s.(threads := s.threads + [Entering], flow := Queued(s.flow, [c]))
  {
    s' := Perform(s, CallSend([c]));
    s' := Perform(s', Offer(1));
    s' := Perform(s', Append(1, 1));
    assert [c][..1] == [c];
  }

  /** One Send, up to the point where its drain has found the queue empty. */
  lemma FirstSend(b: Block) returns (s: State)
    requires b.data != []
    ensures Reachable(s) && s.threads == [Checking(false, true)] && s.send.already
    ensures !s.armed && !s.shut.query && !s.shut.invoke && !s.shut.down
    ensures s.flow.cache == Empty && s.flow.queue == [] && s.flow.sent == b.data
  {
    s := FirstFetch(b);
    s := Perform(s, Push(0, Took(|b.data|)));
    s := Perform(s, Fetch(0));
  }

  /** ... and up to the point where it is about to call send. */
  lemma FirstFetch(b: Block) returns (s: State)
    requires b.data != []
    ensures Reachable(s) && s.threads == [Sending] && s.send.already
    ensures !s.armed && !s.shut.query && !s.shut.invoke && !s.shut.down
    ensures s.flow.cache == Loaded(b, 0) && s.flow.queue == [] && s.flow.sent == []
  {
    s := FirstAppend(b);
    s := Perform(s, Enter(0));
    s := Perform(s, Claim(0));
    s := Perform(s, Fetch(0));
  }

  /** A Send that has appended its block and not called __HandleWrite yet. */
  lemma FirstAppend(b: Block) returns (s: State)
    requires b.data != []
    ensures Reachable(s) && s.threads == [Entering] && !s.send.already
    ensures !s.armed && !s.shut.query && !s.shut.invoke && !s.shut.down && s.shut.closes == 0
    ensures s.flow.cache == Empty && s.flow.queue == [b] && s.flow.accepted == [b] && s.flow.sent == []
  {
    assert Legal(Idle, []) && After(Idle, []) == Idle;
    s := Perform(Idle, CallSend([b]));
    s := Perform(s, Offer(0));
    s := Perform(s, Append(0, 1));
  }

  lemma Perform(s: State, a: Action) returns (s': State)
    requires Reachable(s) && Enabled(s, a)
    ensures Reachable(s') && s' == Do(s, a)
  {
    ReachableStep(s, a);
    s' := Do(s, a);
  }

  // ---------------------------------------------------------------------------------------
  // Why a connection is closed
  // ---------------------------------------------------------------------------------------

  function IsSevering(p: Phase): nat { if p.Severing? then 1 else 0 }

  /** A thread is about to close the connection, or it has been closed. */
  predicate Doomed(s: State) {
    s.shut.invoke || s.shut.down || Count(s.threads, IsStopping) > 0 || Count(s.threads, IsSevering) > 0
  }

  /** A refused send, a Shutdown that finds cache_buf empty, an owner that finds the queue empty
      with query set, or somebody else's close. */
  predicate Cause(s: State, a: Action)
    requires Enabled(s, a)
  {
    match a
    case Push(_, r) => r.SendFailed?
    case Look(_) => s.flow.cache.Empty?
    case Check(t) => s.threads[t].empty && s.shut.query
    case CloseElsewhere => true
    case SetDown => true
    case _ => false
  }

  lemma DoomedExactly(s: State, a: Action)
    requires Enabled(s, a)
    ensures Doomed(Do(s, a)) <==> Doomed(s) || Cause(s, a)
  {
    if Subject(a) >= 0 {
      ThreadMoves(s, a, IsStopping);
      ThreadMoves(s, a, IsSevering);
    } else {
      OutsideMoves(s, a, IsStopping);
      OutsideMoves(s, a, IsSevering);
    }
  }

  /** Some step of the run is a cause. */
  predicate Caused(s: State, run: seq<Action>)
    requires Legal(s, run)
    decreases |run|
  {
    run != [] && (Cause(s, run[0]) || Caused(Do(s, run[0]), run[1..]))
  }

  lemma {:induction false} RunDoomed(s: State, run: seq<Action>)
    requires Legal(s, run)
    ensures Doomed(After(s, run)) <==> Doomed(s) || Caused(s, run)
    decreases |run|
  {
    if run != [] {
      DoomedExactly(s, run[0]);
      RunDoomed(Do(s, run[0]), run[1..]);
    }
  }

  /** A connection is closed for a reason, and for every reason: a run that has come to rest has
      closed it exactly if it has met one of the causes; a full kernel buffer is none. */
  lemma ClosedExactly(run: seq<Action>)
    requires Legal(Idle, run)
    ensures var s := After(Idle, run);
            && (s.shut.invoke || s.shut.down ==> Caused(Idle, run))
            && (AtRest(s) ==> (s.shut.invoke || s.shut.down <==> Caused(Idle, run)))
  {
    RunDoomed(Idle, run);
    var s := After(Idle, run);
    if AtRest(s) {
      RestIsQuiet(s);
      AllZero(s.threads, IsSevering);
    }
  }

  /** Steps that neither refuse a send nor ask for a close. */
  predicate Harmless(s: State, a: Action)
    requires Enabled(s, a)
  {
    match a
    case Push(_, r) => !r.SendFailed?
    case Append(t, n) => n == |s.threads[t].blocks|
    case CallShutdown => false
    case CloseElsewhere => false
    case _ => true
  }

  predicate AllHarmless(s: State, run: seq<Action>)
    requires Legal(s, run)
    decreases |run|
  {
    run != [] ==> Harmless(s, run[0]) && AllHarmless(Do(s, run[0]), run[1..])
  }

  function IsAsking(p: Phase): nat { if p.Asking? || p.Looking? || p.Severing? then 1 else 0 }

  predicate Untroubled(s: State) {
    && !s.shut.query && !s.shut.invoke && s.shut.closes == 0
    && Count(s.threads, IsStopping) == 0 && Count(s.threads, IsAsking) == 0
  }

  lemma HarmlessStep(s: State, a: Action)
    requires Untroubled(s) && Enabled(s, a) && Harmless(s, a)
    ensures Untroubled(Do(s, a))
  {
    if Subject(a) >= 0 {
      ThreadMoves(s, a, IsStopping);
      ThreadMoves(s, a, IsAsking);
    } else {
      OutsideMoves(s, a, IsStopping);
      OutsideMoves(s, a, IsAsking);
    }
  }

  lemma {:induction false} HarmlessRun(s: State, run: seq<Action>)
    requires Untroubled(s) && Legal(s, run) && AllHarmless(s, run)
    ensures Untroubled(After(s, run))
    decreases |run|
  {
    if run != [] {
      HarmlessStep(s, run[0]);
      HarmlessRun(Do(s, run[0]), run[1..]);
    }
  }

  /** Sending never closes a connection, however often the kernel's buffer is full. */
  lemma SendsStayOpen(run: seq<Action>)
    requires Legal(Idle, run) && AllHarmless(Idle, run)
    ensures !After(Idle, run).shut.invoke && After(Idle, run).shut.closes == 0
  {
    HarmlessRun(Idle, run);
  }

  /** At most one Shutdown is past its test of the flags. */
  predicate OneAsks(s: State) {
    Count(s.threads, IsLooking) <= if s.shut.query then 1 else 0
  }

  lemma OneAsksKept(s: State, a: Action)
    requires OneAsks(s) && Enabled(s, a)
    ensures OneAsks(Do(s, a))
  {
    if Subject(a) >= 0 {
      ThreadMoves(s, a, IsLooking);
    } else {
      OutsideMoves(s, a, IsLooking);
    }
  }

  lemma {:induction false} RunOneAsks(s: State, run: seq<Action>)
    requires OneAsks(s) && Legal(s, run)
    ensures OneAsks(After(s, run))
    decreases |run|
  {
    if run != [] {
      OneAsksKept(s, run[0]);
      RunOneAsks(Do(s, run[0]), run[1..]);
    }
  }

  /** Of all the threads that call Shutdown, however they interleave, one at most is past the test
      of the flags. */
  lemma OneShutdownPasses(s: State, t: nat, u: nat)
    requires Reachable(s) && t < |s.threads| && u < |s.threads|
    requires IsLooking(s.threads[t]) == 1 && IsLooking(s.threads[u]) == 1
    ensures t == u && s.shut.query
  {
    var run :| Legal(Idle, run) && After(Idle, run) == s;
    RunOneAsks(Idle, run);
    CountAtLeast(s.threads, t, IsLooking);
    if t != u {
      CountUpdate(s.threads, t, Out, IsLooking);
      CountAtLeast(s.threads[t := Out], u, IsLooking);
      assert false;
    }
  }

  /** A thread has passed its test of `already`, or the owner will go on. */
  predicate SenderIn(s: State) {
    Count(s.threads, IsClaiming) > 0 || Count(s.threads, IsDraining) > 0 || (s.send.already && s.send.ready)
  }

  function IsClaiming(p: Phase): nat { if p.Claiming? then 1 else 0 }

  lemma NobodySends(s: State, a: Action)
    requires Sound(s) && s.shut.down && !SenderIn(s) && Enabled(s, a)
    ensures !SenderIn(Do(s, a)) && Do(s, a).shut.down && !a.Push?
  {
    if Subject(a) >= 0 {
      ThreadMoves(s, a, IsClaiming);
      ThreadMoves(s, a, IsDraining);
      ThreadMoves(s, a, IsOwner);
    } else {
      OutsideMoves(s, a, IsClaiming);
      OutsideMoves(s, a, IsDraining);
    }
  }

  lemma {:induction false} RunNeverSends(s: State, run: seq<Action>)
    requires Sound(s) && s.shut.down && !SenderIn(s) && Legal(s, run)
    ensures forall i :: 0 <= i < |run| ==> !run[i].Push?
    decreases |run|
  {
    if run != [] {
      NobodySends(s, run[0]);
      SoundKept(s, run[0]);
      RunNeverSends(Do(s, run[0]), run[1..]);
    }
  }

  /** Once HandleShutdown has set its flag and no sender is in, send is never called again,
      whatever is appended and whatever events are reported. */
  lemma NothingMoreSent(s: State, run: seq<Action>)
    requires Reachable(s) && s.shut.down && !SenderIn(s) && Legal(s, run)
    ensures forall i :: 0 <= i < |run| ==> !run[i].Push?
  {
    ReachableInv(s);
    RunNeverSends(s, run);
  }

  // ---------------------------------------------------------------------------------------
  // What is accepted and what is turned away
  // ---------------------------------------------------------------------------------------

  /** A Shutdown before the final close, or a Send that runs out of memory. */
  predicate Queries(s: State, a: Action)
    requires Enabled(s, a)
  {
    (a.Ask? && !s.shut.down) || (a.Append? && a.n < |s.threads[a.t].blocks|)
  }

  predicate Queried(s: State, run: seq<Action>)
    requires Legal(s, run)
    decreases |run|
  {
    run != [] && (Queries(s, run[0]) || Queried(Do(s, run[0]), run[1..]))
  }

  lemma QueryStep(s: State, a: Action)
    requires Enabled(s, a)
    ensures Do(s, a).shut.query <==> s.shut.query || Queries(s, a)
    ensures Do(s, a).shut.down <==> s.shut.down || a.SetDown?
  {
  }

  lemma {:induction false} RunQueries(s: State, run: seq<Action>)
    requires Legal(s, run)
    ensures After(s, run).shut.query <==> s.shut.query || Queried(s, run)
    ensures s.shut.down ==> After(s, run).shut.down
    decreases |run|
  {
    if run != [] {
      QueryStep(s, run[0]);
      RunQueries(Do(s, run[0]), run[1..]);
    }
  }

  /** query is set exactly by Shutdowns and by Sends that run out of memory. */
  lemma QueriedExactly(run: seq<Action>)
    requires Legal(Idle, run)
    ensures After(Idle, run).shut.query <==> Queried(Idle, run)
  {
    RunQueries(Idle, run);
  }

  /** The blocks that Send was called with. */
  function Offered(run: seq<Action>): multiset<Block>
    decreases |run|
  {
    if run == [] then multiset{} else Brought(run[0]) + Offered(run[1..])
  }

  function Brought(a: Action): multiset<Block> {
    if a.CallSend? then multiset(a.blocks) else multiset{}
  }

  /** How often a thread still has the block to append. */
  function Carries(b: Block): Phase -> nat {
    (p: Phase) => if p.Offering? || p.Appending? then multiset(p.blocks)[b] else 0
  }

  /** How often the block is accepted or about to be. */
  function Taken(s: State, b: Block): nat {
    multiset(s.flow.accepted)[b] + Count(s.threads, Carries(b))
  }

  lemma Halves(blocks: seq<Block>, n: nat, b: Block)
    requires n <= |blocks|
    ensures multiset(blocks)[b] == multiset(blocks[..n])[b] + multiset(blocks[n..])[b]
  {
    assert blocks == blocks[..n] + blocks[n..];
  }

  lemma AppendTakes(s: State, t: nat, n: nat, b: Block)
    requires Enabled(s, Append(t, n))
    ensures Taken(Do(s, Append(t, n)), b) <= Taken(s, b)
    ensures n == |s.threads[t].blocks| ==> Taken(Do(s, Append(t, n)), b) == Taken(s, b)
  {
    ThreadMoves(s, Append(t, n), Carries(b));
    Halves(s.threads[t].blocks, n, b);
  }

  lemma StepTakes(s: State, a: Action, b: Block)
    requires Enabled(s, a)
    ensures Taken(Do(s, a), b) <= Taken(s, b) + Brought(a)[b]
    ensures !Do(s, a).shut.query && !Do(s, a).shut.down ==> Taken(Do(s, a), b) == Taken(s, b) + Brought(a)[b]
  {
    if a.Append? {
      AppendTakes(s, a.t, a.n, b);
    } else if Subject(a) >= 0 {
      OtherTakes(s, a, b);
    } else {
      OutsideMoves(s, a, Carries(b));
    }
  }

  lemma OtherTakes(s: State, a: Action, b: Block)
    requires Enabled(s, a) && Subject(a) >= 0 && !a.Append?
    ensures Taken(Do(s, a), b) <= Taken(s, b)
    ensures !s.shut.query && !s.shut.down ==> Taken(Do(s, a), b) == Taken(s, b)
  {
    ThreadMoves(s, a, Carries(b));
    assert Do(s, a).flow.accepted == s.flow.accepted;
  }

  lemma {:induction false} RunTakes(s: State, run: seq<Action>, b: Block)
    requires Legal(s, run)
    ensures Taken(After(s, run), b) <= Taken(s, b) + Offered(run)[b]
    ensures !After(s, run).shut.query && !After(s, run).shut.down ==>
              Taken(After(s, run), b) == Taken(s, b) + Offered(run)[b]
    decreases |run|
  {
    if run != [] {
      StepTakes(s, run[0], b);
      RunQueries(Do(s, run[0]), run[1..]);
      RunTakes(Do(s, run[0]), run[1..], b);
    }
  }

  /** No block is accepted that Send was not called with; and where the calls are over, without a
      query and before the final close, every one was accepted exactly as often as it was given. */
  lemma NothingTurnedAway(run: seq<Action>)
    requires Legal(Idle, run)
    ensures var s := After(Idle, run);
            && multiset(s.flow.accepted) <= Offered(run)
            && (AtRest(s) && !s.shut.query && !s.shut.down ==> multiset(s.flow.accepted) == Offered(run))
  {
    var s := After(Idle, run);
    forall b ensures multiset(s.flow.accepted)[b] <= Offered(run)[b] {
      RunTakes(Idle, run, b);
    }
    if AtRest(s) && !s.shut.query && !s.shut.down {
      forall b ensures multiset(s.flow.accepted)[b] == Offered(run)[b] {
        RunTakes(Idle, run, b);
        AllZero(s.threads, Carries(b));
      }
    }
  }

  // ---------------------------------------------------------------------------------------
  // Graceful close
  // ---------------------------------------------------------------------------------------

  function IsAppending(p: Phase): nat { if p.Appending? then 1 else 0 }

  /** However the run goes on, if it ends with the connection closed, all accepted is sent. */
  ghost predicate ClosesClean(s: State) {
    forall run :: Legal(s, run) && After(s, run).shut.invoke ==>
      After(s, run).flow.sent == Flat(After(s, run).flow.accepted)
  }

  /** Nothing is left to send, and nothing more will be accepted. */
  predicate Over(s: State) {
    s.shut.query && !Unsent(s.flow) && Count(s.threads, IsAppending) == 0
  }

  lemma StaysOver(s: State, a: Action)
    requires Inv(s) && Over(s) && Enabled(s, a)
    ensures Over(Do(s, a))
  {
    if Subject(a) >= 0 {
      CountAtLeast(s.threads, Subject(a), IsSending);
      ThreadMoves(s, a, IsAppending);
    } else {
      OutsideMoves(s, a, IsAppending);
    }
  }

  lemma {:induction false} RunStaysOver(s: State, run: seq<Action>)
    requires Inv(s) && Over(s) && Legal(s, run)
    ensures Inv(After(s, run)) && Over(After(s, run))
    decreases |run|
  {
    if run != [] {
      StaysOver(s, run[0]);
      StepKeepsInv(s, run[0]);
      RunStaysOver(Do(s, run[0]), run[1..]);
    }
  }

  lemma SomethingUnsent(f: Flow)
    requires FlowOk(f) && Unsent(f)
    ensures f.sent != Flat(f.accepted)
  {
    assert f.queue != [] ==> f.queue[0].data != [];
    assert |Flat(f.accepted)| == |f.sent| + |Tail(f.cache)| + |Flat(f.queue)|;
  }

  lemma OneStep(s: State, a: Action, run: seq<Action>)
    requires Enabled(s, a) && Legal(Do(s, a), run)
    ensures Legal(s, [a] + run) && After(s, [a] + run) == After(Do(s, a), run)
  {
    assert ([a] + run)[1..] == run;
  }

  /** With a set query and an empty cache a connection that is closed, or whose Shutdown is past
      its look, ends up cut exactly if a block is queued or a Send is past its test. */
  lemma CutExactly(s: State, t: nat)
    requires Inv(s) && s.shut.query && s.flow.cache.Empty?
    requires s.shut.invoke || (t < |s.threads| && s.threads[t].Severing?)
    ensures ClosesClean(s) <==> s.flow.queue == [] && Count(s.threads, IsAppending) == 0
  {
    if s.flow.queue == [] && Count(s.threads, IsAppending) == 0 {
      forall run | Legal(s, run) && After(s, run).shut.invoke
        ensures After(s, run).flow.sent == Flat(After(s, run).flow.accepted)
      {
        RunStaysOver(s, run);
        NothingUnsent(After(s, run).flow);
      }
    } else if s.flow.queue != [] {
      var run := CutNow(s, t);
    } else {
      var u := Witness(s.threads, IsAppending);
      assert PhaseOk(s.threads[u]);
      var a := Append(u, |s.threads[u].blocks|);
      StepKeepsInv(s, a);
      var run := CutNow(Do(s, a), t);
      OneStep(s, a, run);
    }
  }

  lemma CutNow(s: State, t: nat) returns (run: seq<Action>)
    requires Inv(s) && Unsent(s.flow) && (s.shut.invoke || (t < |s.threads| && s.threads[t].Severing?))
    ensures Legal(s, run) && After(s, run).shut.invoke
    ensures After(s, run).flow.sent != Flat(After(s, run).flow.accepted)
  {
    SomethingUnsent(s.flow);
    run := if s.shut.invoke then [] else [Sever(t)];
    if !s.shut.invoke {
      OneStep(s, Sever(t), []);
      assert [Sever(t)] + [] == [Sever(t)];
    }
  }

  /** When Shutdown passes its look at cache_buf, the close it goes on to issue is certain to be
      clean exactly if the queue is empty - which the code means to test, but IsEmpty() is
      constant - and no Send is between its test of the flags and its append. */
  lemma LookIsCleanExactly(s: State, t: nat)
    requires Reachable(s) && Enabled(s, Look(t)) && Next(s, Look(t)).Severing?
    ensures ClosesClean(Do(s, Look(t)))
            <==> s.flow.queue == [] && forall i :: 0 <= i < |s.threads| ==> !s.threads[i].Appending?
  {
    ReachableInv(s);
    StepKeepsInv(s, Look(t));
    ThreadMoves(s, Look(t), IsAppending);
    CutExactly(Do(s, Look(t)), t);
    NoneAppending(s.threads);
  }

  /** The same of the close that a drained owner issues for an earlier query; at the moment of
      the close itself everything accepted has been sent exactly if the queue is still empty. */
  lemma CheckIsCleanExactly(s: State, t: nat)
    requires Reachable(s) && Enabled(s, Check(t)) && s.threads[t] == Checking(false, true)
    requires s.shut.query && !s.shut.down
    ensures var s' := Do(s, Check(t));
            && s'.shut.invoke
            && (s'.flow.sent == Flat(s'.flow.accepted) <==> s.flow.queue == [])
            && (ClosesClean(s')
                <==> s.flow.queue == [] && forall i :: 0 <= i < |s.threads| ==> !s.threads[i].Appending?)
  {
    ReachableInv(s);
    CountAtLeast(s.threads, t, IsSpent);
    StepKeepsInv(s, Check(t));
    ThreadMoves(s, Check(t), IsAppending);
    CutExactly(Do(s, Check(t)), t);
    NoneAppending(s.threads);
    if Unsent(s.flow) {
      SomethingUnsent(s.flow);
    } else {
      NothingUnsent(s.flow);
    }
  }

  lemma NoneAppending(ts: seq<Phase>)
    ensures Count(ts, IsAppending) == 0 <==> forall i :: 0 <= i < |ts| ==> !ts[i].Appending?
  {
    if Count(ts, IsAppending) > 0 {
      var i := Witness(ts, IsAppending);
      assert ts[i].Appending?;
    } else {
      forall i | 0 <= i < |ts| ensures !ts[i].Appending? {
        CountAtLeast(ts, i, IsAppending);
      }
    }
  }

  /** A Shutdown that overlaps a Send can close the connection on a queued block. */
  lemma ShutdownCanCutABlock(b: Block) returns (s: State)
    requires b.data != []
    ensures Reachable(s) && s.shut.closes == 1 && s.flow.accepted == [b] && s.flow.sent == []
  {
    s := FirstAppend(b);
    s := Perform(s, CallShutdown);
    s := Perform(s, Ask(1));
    s := Perform(s, Look(1));
    s := Perform(s, Sever(1));
  }

  // ---------------------------------------------------------------------------------------
  // Every call returns
  // ---------------------------------------------------------------------------------------

  function Rank(p: Phase): nat {
    match p
    case Offering(blocks) => 12 + 2 * |Flat(blocks)|
    case Appending(blocks) => 11 + 2 * |Flat(blocks)|
    case Entering => 10
    case Claiming => 9
    case Fetching => 7
    case Sending => 6
    case Checking(_, empty) => if empty then 6 else 5
    case Releasing(_, empty) => if empty then 5 else 4
    case Asking => 3
    case Looking => 2
    case Severing => 1
    case Out => 0
  }

  /** A set `ready` is worth another pass, unless the owner is past the empty queue. */
  function Worth(s: State): nat {
    if s.send.ready && Count(s.threads, IsSpent) == 0 then 4 else 0
  }

  function Measure(s: State): nat {
    2 * Bytes(s.flow) + Count(s.threads, Rank) + Worth(s)
  }

  lemma {:induction false} FlatPrefix(blocks: seq<Block>, n: nat)
    requires n <= |blocks|
    ensures |Flat(blocks[..n])| <= |Flat(blocks)|
  {
    FlatConcat(blocks[..n], blocks[n..]);
    assert blocks[..n] + blocks[n..] == blocks;
  }

  function Bytes(f: Flow): nat {
    |Tail(f.cache)| + |Flat(f.queue)|
  }

  function Kept(r: SendResult): nat {
    if r.Took? then r.n else 0
  }

  /** What a step adds to the bytes in cache and queue, and what it takes from them. */
  function Incoming(s: State, a: Action): nat
    requires Enabled(s, a)
  {
    if a.Append? then |Flat(s.threads[a.t].blocks)| else 0
  }

  function Outgoing(a: Action): nat {
    if a.Push? then Kept(a.r) else 0
  }

  lemma FetchedBytes(f: Flow)
    ensures Bytes(Fetched(f)) == Bytes(f)
  {
  }

  lemma PushedBytes(f: Flow, n: nat)
    requires Fitting(f, n)
    ensures Bytes(Pushed(f, n)) + n == Bytes(f)
  {
  }

  lemma BytesLeft(s: State, a: Action)
    requires Enabled(s, a) && Subject(a) >= 0
    ensures Bytes(Do(s, a).flow) + Outgoing(a) <= Bytes(s.flow) + Incoming(s, a)
  {
    if a.Append? {
      FlatPrefix(s.threads[a.t].blocks, a.n);
      FlatConcat(s.flow.queue, s.threads[a.t].blocks[..a.n]);
    } else if a.Push? && a.r.Took? {
      PushedBytes(s.flow, a.r.n);
    } else if a.Fetch? {
      FetchedBytes(s.flow);
    } else {
      assert Do(s, a).flow == s.flow;
    }
  }

  lemma StepDown(s: State, a: Action)
    requires Sound(s) && Enabled(s, a) && Subject(a) >= 0
    ensures Measure(Do(s, a)) < Measure(s)
  {
    BytesLeft(s, a);
    ThreadMoves(s, a, Rank);
    if IsOwner(s.threads[Subject(a)]) == 1 {
      OwnerStepDown(s, a);
    } else {
      VisitorStepDown(s, a);
    }
  }

  lemma OwnerStepDown(s: State, a: Action)
    requires Sound(s) && Enabled(s, a) && Subject(a) >= 0 && IsOwner(s.threads[Subject(a)]) == 1
    ensures Rank(Next(s, a)) + Worth(Do(s, a)) < Rank(s.threads[Subject(a)]) + Worth(s) + 2 * Outgoing(a)
  {
    ThreadMoves(s, a, IsOwner);
    ThreadMoves(s, a, IsSpent);
    Others(s.threads, Subject(a), IsSpent);
  }

  lemma VisitorStepDown(s: State, a: Action)
    requires Enabled(s, a) && Subject(a) >= 0 && IsOwner(s.threads[Subject(a)]) == 0
    ensures Rank(Next(s, a)) + Worth(Do(s, a)) + 2 * Incoming(s, a) < Rank(s.threads[Subject(a)]) + Worth(s)
  {
    VisitorSteps(s, a);
    ThreadMoves(s, a, IsSpent);
  }

  lemma VisitorSteps(s: State, a: Action)
    requires Enabled(s, a) && Subject(a) >= 0 && IsOwner(s.threads[Subject(a)]) == 0
    ensures Rank(Next(s, a)) + 2 * Incoming(s, a) + (if a.Claim? && s.send.already then 5 else 1)
            <= Rank(s.threads[Subject(a)])
    ensures IsSpent(Next(s, a)) == IsSpent(s.threads[Subject(a)]) == 0
    ensures Do(s, a).send == if a.Claim? then Claimed(s.send) else s.send
  {
  }

  /** Without new calls and events every thread leaves after finitely many steps. */
  lemma {:induction false} CallsReturn(s: State, run: seq<Action>)
    requires Sound(s) && Legal(s, run) && forall i :: 0 <= i < |run| ==> Subject(run[i]) >= 0
    ensures |run| + Measure(After(s, run)) <= Measure(s)
    decreases |run|
  {
    if run != [] {
      StepDown(s, run[0]);
      SoundKept(s, run[0]);
      CallsReturn(Do(s, run[0]), run[1..]);
    }
  }
}
