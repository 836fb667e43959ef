/** The receive side of a connection as a transition system: any number of reactor workers in
    HandleRead, one step per critical section or kernel call, against an edge-triggered
    kernel that owns a stream of arriving bytes. */
module ReceiveProtocol {
  import opened Counting
  import opened Sections
  import opened Streams

  /** How the inner recv loop ended: the block is full, the kernel would block, or the
      connection has to be shut down (end of file or an error). */
  datatype Outcome = Full | Dry | Stop

  /** Where a thread stands in HandleRead.  From Allocating to Releasing it owns the receive
      section. */
  datatype Phase =
    | Entering                                  // about to test the shutdown flags
    | Claiming                                  // about to test recv_state_.already
    | Allocating                                // about to allocate a block
    | Filling(buf: seq<Byte>)                   // about to call recv with the block's free room
    | Handing(buf: seq<Byte>, how: Outcome)     // about to hand the block over and release it
    | Querying                                  // about to test shutdown_state_.query
    | Closing(stop: bool)                       // about to act on to_shutdown
    | Releasing(stop: bool)                     // about to give the section up
    | Out

  /** A block passed to HandleData, and the pass of the drain loop that passed it. */
  datatype Chunk = Chunk(data: seq<Byte>, pass: nat)

  /** shutdown_state_; `down` is its `already`. */
  datatype Shut = Shut(query: bool, invoke: bool, down: bool)

  /** The kernel's side: what the peer has sent, what is unread of it, whether the peer has
      ended its stream, and whether an edge is still to be reported. */
  datatype Wire = Wire(arrived: seq<Byte>, unread: seq<Byte>, eof: bool, edge: bool)

  /** `pass` counts the drains begun: by a thread that takes the section, and by an owner that
      finds `ready` set. */
  datatype State = State(
    cap: nat, threads: seq<Phase>, recv: Section, shut: Shut, wire: Wire, pass: nat, delivered: seq<Chunk>)

  datatype RecvResult = Got(n: nat) | WouldBlock | EndOfFile | Failed

  datatype Action =
    | Arrive(bytes: seq<Byte>)       // the peer sends
    | PeerClose                      // the peer ends its stream
    | Dispatch                       // epoll_wait reports the pending edge
    | DispatchAgain                  // epoll_wait reports EPOLLIN along with another edge
    | AskShutdown                    // Shutdown() sets query
    | OtherClose                     // some other path calls __Shutdown
    | MarkDown                       // HandleShutdown sets already
    | Test(t: nat)
    | Claim(t: nat)
    | Alloc(t: nat, ok: bool)
    | Recv(t: nat, r: RecvResult)
    | Hand(t: nat)
    | Ask(t: nat)
    | Close(t: nat)
    | Release(t: nat)

  /** The thread that takes the step, if it is a thread's step. */
  function Subject(a: Action): int {
    match a
    case Test(t) => t
    case Claim(t) => t
    case Alloc(t, _) => t
    case Recv(t, _) => t
    case Hand(t) => t
    case Ask(t) => t
    case Close(t) => t
    case Release(t) => t
    case _ => -1
  }

  predicate RecvOk(s: State, buf: seq<Byte>, r: RecvResult) {
    match r
    case Got(n) => 1 <= n <= |s.wire.unread| && |buf| + n <= s.cap
    case WouldBlock => s.wire.unread == [] && !s.wire.eof
    case EndOfFile => s.wire.unread == [] && s.wire.eof
    case Failed => true
  }

  predicate Enabled(s: State, a: Action) {
    match a
    case Arrive(bytes) => bytes != [] && !s.wire.eof
    case PeerClose => !s.wire.eof
    case Dispatch => s.wire.edge
    case DispatchAgain => true
    case AskShutdown => true
    case OtherClose => true
    case MarkDown => true
    case Test(t) => t < |s.threads| && s.threads[t].Entering?
    case Claim(t) => t < |s.threads| && s.threads[t].Claiming?
    case Alloc(t, _) => t < |s.threads| && s.threads[t].Allocating?
    case Recv(t, r) => t < |s.threads| && s.threads[t].Filling? && RecvOk(s, s.threads[t].buf, r)
    case Hand(t) => t < |s.threads| && s.threads[t].Handing?
    case Ask(t) => t < |s.threads| && s.threads[t].Querying?
    case Close(t) => t < |s.threads| && s.threads[t].Closing?
    case Release(t) => t < |s.threads| && s.threads[t].Releasing?
  }

  /** The block after recv returned n bytes: the loop goes on until it is full. */
  function Filled(cap: nat, buf: seq<Byte>): Phase {
    if |buf| == cap then Handing(buf, Full) else Filling(buf)
  }

  /** How many bytes recv moved. */
  function Taken(r: RecvResult): nat {
    if r.Got? then r.n else 0
  }

  function AfterRecv(s: State, buf: seq<Byte>, r: RecvResult): Phase
    requires RecvOk(s, buf, r)
  {
    match r
    case Got(n) => Filled(s.cap, buf + s.wire.unread[..n])
    case WouldBlock => Handing(buf, Dry)
    case EndOfFile => Handing(buf, Stop)
    case Failed => Handing(buf, Stop)
  }

  /** What HandleData is given: the block, unless it is empty. */
  function Handed(p: Phase, pass: nat): seq<Chunk>
    requires p.Handing?
  {
    if p.buf == [] then [] else [Chunk(p.buf, pass)]
  }

  /** Where a thread's step takes it. */
  function Next(s: State, a: Action): Phase
    requires Subject(a) >= 0 && Enabled(s, a)
  {
    match a
    case Test(t) => if s.shut.down || s.shut.query then Out else Claiming
    case Claim(t) => if s.recv.already then Out else Allocating
    case Alloc(t, ok) => if ok then Filling([]) else Closing(true)
    case Recv(t, r) => AfterRecv(s, s.threads[t].buf, r)
    case Hand(t) => if s.threads[t].how.Full? then Querying else Closing(s.threads[t].how.Stop?)
    case Ask(t) => if s.shut.query then Closing(true) else Allocating
    case Close(t) => Releasing(s.threads[t].stop)
    case Release(t) => if !s.recv.ready || s.threads[t].stop then Out else Allocating
  }

  /** What a thread's step does to the connection. */
  function Effect(s: State, a: Action): State
    requires Subject(a) >= 0 && Enabled(s, a)
  {
    match a
    case Claim(t) => s.(recv := Claimed(s.recv), pass := if s.recv.already then s.pass else s.pass + 1)
    case Recv(t, r) => s.(wire := s.wire.(unread := s.wire.unread[Taken(r)..]))
    case Hand(t) => s.(delivered := s.delivered + Handed(s.threads[t], s.pass))
    case Close(t) => s.(shut := s.shut.(invoke := s.shut.invoke || (s.threads[t].stop && !s.shut.down)))
    case Release(t) =>
      s.(recv := Given(s.recv, s.threads[t].stop),
         pass := if s.recv.ready && !s.threads[t].stop then s.pass + 1 else s.pass)
    case _ => s
  }

  function Do(s: State, a: Action): State
    requires Enabled(s, a)
  {
    match a
    case Arrive(bytes) =>
      s.(wire := Wire(s.wire.arrived + bytes, s.wire.unread + bytes, s.wire.eof, true))
    case PeerClose => s.(wire := s.wire.(eof := true, edge := true))
    case Dispatch => s.(wire := s.wire.(edge := false), threads := s.threads + [Entering])
    case DispatchAgain => s.(threads := s.threads + [Entering])
    case AskShutdown => s.(shut := s.shut.(query := true))
    case OtherClose => s.(shut := s.shut.(invoke := true))
    case MarkDown => s.(shut := s.shut.(down := true))
    case _ => Effect(s, a).(threads := s.threads[Subject(a) := Next(s, a)])
  }

  function Start(cap: nat): State {
    State(cap, [], Free, Shut(false, false, false), Wire([], [], false, false), 0, [])
  }

  predicate Legal(s: State, run: seq<Action>)
    decreases |run|
  {
    run != [] ==> Enabled(s, run[0]) && Legal(Do(s, run[0]), run[1..])
  }

  function After(s: State, run: seq<Action>): State
    requires Legal(s, run)
    decreases |run|
  {
    if run == [] then s else After(Do(s, run[0]), run[1..])
  }

  ghost predicate Reachable(s: State) {
    exists cap: nat, run: seq<Action> :: cap > 0 && Legal(Start(cap), run) && s == After(Start(cap), run)
  }

  // ---------------------------------------------------------------------------------------
  // The invariant
  // ---------------------------------------------------------------------------------------

  function IsOwner(p: Phase): nat {
    if p.Entering? || p.Claiming? || p.Out? then 0 else 1
  }

  /** Threads that have yet to pass the recv_lock_ test. */
  function IsComing(p: Phase): nat { if p.Entering? || p.Claiming? then 1 else 0 }

  /** Owners that will call recv again. */
  function IsDraining(p: Phase): nat {
    if p.Allocating? || p.Filling? || (p.Handing? && p.how.Full?) || p.Querying? then 1 else 0
  }

  /** Owners about to shut the connection down. */
  function IsStopping(p: Phase): nat {
    if (p.Handing? && p.how.Stop?) || (p.Closing? && p.stop) then 1 else 0
  }

  function HasStopped(p: Phase): nat { if p.Releasing? && p.stop then 1 else 0 }

  /** Bytes taken from the kernel that are not handed over yet. */
  function InHand(p: Phase): seq<Byte> {
    if p.Filling? || p.Handing? then p.buf else []
  }

  function Held(ts: seq<Phase>, n: nat): seq<Byte>
    requires n <= |ts|
  {
    if n == 0 then [] else Held(ts, n - 1) + InHand(ts[n - 1])
  }

  function Bytes(chunks: seq<Chunk>): seq<Byte> {
    if chunks == [] then [] else Bytes(chunks[..|chunks| - 1]) + chunks[|chunks| - 1].data
  }

  predicate RoomOk(cap: nat, p: Phase) {
    && (p.Filling? ==> |p.buf| < cap)
    && (p.Handing? ==> |p.buf| <= cap && (p.how.Full? <==> |p.buf| == cap))
  }

  predicate ChunkOk(cap: nat, c: Chunk) {
    c.data != [] && |c.data| <= cap
  }

  predicate Shapes(s: State) {
    && s.cap > 0
    && (forall i :: 0 <= i < |s.threads| ==> RoomOk(s.cap, s.threads[i]))
    && (forall i :: 0 <= i < |s.delivered| ==> ChunkOk(s.cap, s.delivered[i]))
  }

  predicate Owned(s: State) {
    Count(s.threads, IsOwner) == if s.recv.already then 1 else 0
  }

  predicate Stream(s: State) {
    Bytes(s.delivered) + Held(s.threads, |s.threads|) + s.wire.unread == s.wire.arrived
  }

  /** Owners that have not ended their pass yet. */
  function IsWorking(p: Phase): nat {
    if p.Allocating? || p.Filling? || p.Handing? || p.Querying? then 1 else 0
  }

  /** Chunks come pass by pass, and within a pass only the last one may be short. */
  predicate InPasses(delivered: seq<Chunk>, cap: nat) {
    forall i, j :: 0 <= i < j < |delivered| ==>
      delivered[i].pass <= delivered[j].pass
      && (delivered[i].pass == delivered[j].pass ==> |delivered[i].data| == cap)
  }

  /** The pass under way has delivered full chunks only, as long as it goes on. */
  predicate Passing(s: State) {
    && InPasses(s.delivered, s.cap)
    && (forall i :: 0 <= i < |s.delivered| ==>
          s.delivered[i].pass <= s.pass
          && (s.delivered[i].pass == s.pass && Count(s.threads, IsWorking) > 0 ==> |s.delivered[i].data| == s.cap))
  }

  predicate ShuttingDown(s: State) {
    s.shut.query || s.shut.invoke || s.shut.down
  }

  predicate Pending(s: State) {
    s.wire.unread != [] || s.wire.eof
  }

  predicate Covered(s: State) {
    || s.wire.edge
    || Count(s.threads, IsComing) > 0
    || Count(s.threads, IsDraining) > 0
    || (s.recv.already && s.recv.ready)
    || Count(s.threads, IsStopping) > 0
    || ShuttingDown(s)
  }

  predicate Attended(s: State) {
    && (Pending(s) ==> Covered(s))
    && (Count(s.threads, HasStopped) > 0 ==> s.shut.invoke || s.shut.down)
  }

  predicate Inv(s: State) {
    Shapes(s) && Owned(s) && Stream(s) && Passing(s) && Attended(s)
  }

  // ---------------------------------------------------------------------------------------
  // Every step keeps the invariant
  // ---------------------------------------------------------------------------------------

  lemma ThreadMoves(s: State, a: Action, f: Phase -> nat)
    requires Subject(a) >= 0 && Enabled(s, a)
    ensures Count(Do(s, a).threads, f) + f(s.threads[Subject(a)]) == Count(s.threads, f) + f(Next(s, a))
  {
    CountUpdate(s.threads, Subject(a), Next(s, a), f);
  }

  lemma {:induction false} NobodyHolds(ts: seq<Phase>, n: nat)
    requires n <= |ts| && Sum(ts, IsOwner, n) == 0
    ensures Held(ts, n) == []
  {
    if n > 0 {
      NobodyHolds(ts, n - 1);
    }
  }

  /** With one owner, what is held is what the owner holds. */
  lemma {:induction false} OwnerHolds(ts: seq<Phase>, t: nat, n: nat)
    requires t < n <= |ts| && IsOwner(ts[t]) == 1 && Sum(ts, IsOwner, n) == 1
    ensures Held(ts, n) == InHand(ts[t])
  {
    if t == n - 1 {
      NobodyHolds(ts, n - 1);
    } else {
      SumAtLeast(ts, t, IsOwner, n - 1);
      OwnerHolds(ts, t, n - 1);
    }
  }

  lemma BytesSnoc(chunks: seq<Chunk>, p: Phase, pass: nat)
    requires p.Handing?
    ensures Bytes(chunks + Handed(p, pass)) == Bytes(chunks) + p.buf
  {
    if p.buf == [] {
      assert chunks + [] == chunks;
    } else {
      assert (chunks + Handed(p, pass))[..|chunks|] == chunks;
    }
  }

  lemma ShapesKept(s: State, a: Action)
    requires Shapes(s) && Enabled(s, a)
    ensures Shapes(Do(s, a))
  {
    var s' := Do(s, a);
    if Subject(a) >= 0 {
      var t := Subject(a);
      assert RoomOk(s.cap, s.threads[t]);
      assert RoomOk(s.cap, Next(s, a));
      if a.Hand? {
        assert forall c :: c in Handed(s.threads[t], s.pass) ==> ChunkOk(s.cap, c);
      }
    }
  }

  lemma OwnedKept(s: State, a: Action)
    requires Owned(s) && Enabled(s, a)
    ensures Owned(Do(s, a))
  {
    if Subject(a) >= 0 {
      ThreadMoves(s, a, IsOwner);
      CountAtLeast(s.threads, Subject(a), IsOwner);
    } else {
      Started(s.threads, Entering);
    }
  }

  /** A thread's step moves bytes from the kernel into its block and from there to the
      handler, and drops none. */
  lemma StreamKept(s: State, a: Action)
    requires Shapes(s) && Owned(s) && Stream(s) && Enabled(s, a)
    ensures Stream(Do(s, a))
  {
    if Subject(a) < 0 {
      OutsideKeepsStream(s, a);
    } else {
      if a.Hand? {
        HandKeepsStream(s, a.t);
      } else if a.Recv? {
        RecvKeepsStream(s, a.t, a.r);
      } else {
        NoBytesMove(s, a);
      }
    }
  }

  lemma SameInHand(s: State, a: Action)
    requires Enabled(s, a) && Subject(a) >= 0 && !a.Hand? && !a.Recv?
    ensures InHand(s.threads[Subject(a)]) == InHand(Next(s, a)) == []
  {
  }

  lemma NoBytesMove(s: State, a: Action)
    requires Owned(s) && Enabled(s, a) && Subject(a) >= 0 && !a.Hand? && !a.Recv?
    ensures Held(Do(s, a).threads, |Do(s, a).threads|) == Held(s.threads, |s.threads|)
    ensures var s' := Do(s, a); s'.delivered == s.delivered && s'.wire == s.wire
  {
    HeldMoves(s, a);
    SameInHand(s, a);
  }

  lemma HandKeepsStream(s: State, t: nat)
    requires Owned(s) && Stream(s) && Enabled(s, Hand(t))
    ensures Stream(Do(s, Hand(t)))
  {
    HeldMoves(s, Hand(t));
    BytesSnoc(s.delivered, s.threads[t], s.pass);
    Regroup(Bytes(s.delivered), s.threads[t].buf, s.wire.unread);
  }

  lemma Received(s: State, t: nat, r: RecvResult)
    requires Enabled(s, Recv(t, r))
    ensures InHand(Next(s, Recv(t, r))) == s.threads[t].buf + s.wire.unread[..Taken(r)]
  {
  }

  lemma RecvKeepsStream(s: State, t: nat, r: RecvResult)
    requires Owned(s) && Stream(s) && Enabled(s, Recv(t, r))
    ensures Stream(Do(s, Recv(t, r)))
  {
    HeldMoves(s, Recv(t, r));
    Received(s, t, r);
    ReassociateFour(Bytes(s.delivered), s.threads[t].buf, s.wire.unread[..Taken(r)], s.wire.unread[Taken(r)..]);
    assert s.wire.unread[..Taken(r)] + s.wire.unread[Taken(r)..] == s.wire.unread;
  }

  lemma ReassociateFour(a: seq<Byte>, b: seq<Byte>, c: seq<Byte>, d: seq<Byte>)
    ensures a + (b + c) + d == a + b + (c + d)
  {
  }

  lemma Regroup(a: seq<Byte>, b: seq<Byte>, c: seq<Byte>)
    ensures (a + b) + [] + c == a + b + c
  {
  }

  lemma OutsideKeepsStream(s: State, a: Action)
    requires Stream(s) && Enabled(s, a) && Subject(a) < 0
    ensures Stream(Do(s, a))
  {
    HeldStarted(s.threads);
    if a.Arrive? {
      Append(Bytes(s.delivered), Held(s.threads, |s.threads|), s.wire.unread, a.bytes);
    }
  }

  lemma Append(a: seq<Byte>, b: seq<Byte>, c: seq<Byte>, d: seq<Byte>)
    ensures a + b + (c + d) == (a + b + c) + d
  {
  }

  lemma HeldStarted(ts: seq<Phase>)
    ensures Held(ts + [Entering], |ts| + 1) == Held(ts, |ts|)
  {
    HeldPrefix(ts, ts + [Entering], |ts|);
  }

  lemma {:induction false} HeldPrefix(ts: seq<Phase>, us: seq<Phase>, n: nat)
    requires n <= |ts| && n <= |us| && forall i :: 0 <= i < n ==> ts[i] == us[i]
    ensures Held(ts, n) == Held(us, n)
  {
    if n > 0 {
      HeldPrefix(ts, us, n - 1);
    }
  }

  /** Before and after its step the owner holds all that is held. */
  lemma HeldMoves(s: State, a: Action)
    requires Owned(s) && Subject(a) >= 0 && Enabled(s, a)
    ensures var s' := Do(s, a);
            var was, now := s.threads[Subject(a)], Next(s, a);
            && (IsOwner(was) == 1 ==> Held(s.threads, |s.threads|) == InHand(was))
            && (IsOwner(was) == 1 ==> Held(s'.threads, |s'.threads|) == InHand(now))
            && (IsOwner(was) == 0 ==> Held(s'.threads, |s'.threads|) == Held(s.threads, |s.threads|))
  {
    var s' := Do(s, a);
    var t: nat := Subject(a);
    if IsOwner(s.threads[t]) == 0 {
      SameHeld(s.threads, s'.threads, |s.threads|);
    } else {
      OwnedKept(s, a);
      CountAtLeast(s.threads, t, IsOwner);
      CountAtLeast(s'.threads, t, IsOwner);
      OwnerHolds(s.threads, t, |s.threads|);
      ThreadMoves(s, a, IsOwner);
      if IsOwner(s'.threads[t]) == 1 {
        OwnerHolds(s'.threads, t, |s.threads|);
      } else {
        NobodyHolds(s'.threads, |s.threads|);
      }
    }
  }

  lemma {:induction false} SameHeld(ts: seq<Phase>, us: seq<Phase>, n: nat)
    requires n <= |ts| && n <= |us| && forall i :: 0 <= i < n ==> InHand(ts[i]) == InHand(us[i])
    ensures Held(ts, n) == Held(us, n)
  {
    if n > 0 {
      SameHeld(ts, us, n - 1);
    }
  }

  lemma HandKeepsPassing(s: State, t: nat)
    requires Shapes(s) && Owned(s) && Passing(s) && Enabled(s, Hand(t))
    ensures Passing(Do(s, Hand(t)))
  {
    OnlyWorker(s, t);
    ThreadMoves(s, Hand(t), IsWorking);
    assert RoomOk(s.cap, s.threads[t]);
  }

  lemma OnlyWorker(s: State, t: nat)
    requires Owned(s) && t < |s.threads| && IsWorking(s.threads[t]) == 1
    ensures Count(s.threads, IsWorking) == 1
  {
    CountAtLeast(s.threads, t, IsWorking);
    CountLe(s.threads, IsWorking, IsOwner);
  }

  lemma PassingKept(s: State, a: Action)
    requires Shapes(s) && Owned(s) && Passing(s) && Enabled(s, a)
    ensures Passing(Do(s, a))
  {
    if a.Hand? {
      HandKeepsPassing(s, a.t);
    } else if Subject(a) < 0 {
      Started(s.threads, Entering);
    } else {
      ThreadMoves(s, a, IsWorking);
      CountAtLeast(s.threads, Subject(a), IsWorking);
      assert Do(s, a).delivered == s.delivered;
    }
  }

  lemma AttendedKept(s: State, a: Action)
    requires Owned(s) && Attended(s) && Enabled(s, a)
    ensures Attended(Do(s, a))
  {
    if Subject(a) >= 0 {
      ThreadMoves(s, a, IsComing);
      ThreadMoves(s, a, IsDraining);
      ThreadMoves(s, a, IsStopping);
      ThreadMoves(s, a, HasStopped);
      CountAtLeast(s.threads, Subject(a), IsOwner);
      CountAtLeast(s.threads, Subject(a), HasStopped);
      CountAtLeast(Do(s, a).threads, Subject(a), IsComing);
      CountAtLeast(Do(s, a).threads, Subject(a), IsDraining);
      CountAtLeast(Do(s, a).threads, Subject(a), IsStopping);
      if a.Release? || (a.Recv? && a.r.WouldBlock?) || a.Close? {
        OwnerAlone(s, a);
      }
    } else {
      Started(s.threads, Entering);
      CountAtLeast(s.threads + [Entering], |s.threads|, IsComing);
    }
  }

  lemma OwnerAlone(s: State, a: Action)
    requires Owned(s) && Subject(a) >= 0 && Enabled(s, a) && IsOwner(s.threads[Subject(a)]) == 1
    ensures Count(s.threads, IsDraining) == IsDraining(s.threads[Subject(a)])
    ensures Count(s.threads, IsStopping) == IsStopping(s.threads[Subject(a)])
  {
    CountAtLeast(s.threads, Subject(a), IsOwner);
    CountAtLeast(s.threads, Subject(a), IsDraining);
    CountAtLeast(s.threads, Subject(a), IsStopping);
    CountLe(s.threads, IsDraining, IsOwner);
    CountLe(s.threads, IsStopping, IsOwner);
    OthersNone(s.threads, Subject(a), IsDraining);
    OthersNone(s.threads, Subject(a), IsStopping);
  }

  /** Apart from the only owner nobody has a weight that owners alone carry. */
  lemma OthersNone(ts: seq<Phase>, t: nat, f: Phase -> nat)
    requires t < |ts| && IsOwner(ts[t]) == 1 && Count(ts, IsOwner) == 1
    requires forall p :: f(p) <= IsOwner(p)
    ensures Count(ts, f) == f(ts[t])
  {
    Moved(ts, t, Out);
    var us := ts[t := Out];
    assert Count(us, IsOwner) == 0;
    CountLe(us, f, IsOwner);
    assert Count(us, f) + f(ts[t]) == Count(ts, f) + f(Out);
  }

  lemma StepKeepsInv(s: State, a: Action)
    requires Inv(s) && Enabled(s, a)
    ensures Inv(Do(s, a))
  {
    ShapesKept(s, a);
    OwnedKept(s, a);
    StreamKept(s, a);
    PassingKept(s, a);
    AttendedKept(s, a);
  }

  lemma {:induction false} RunKeepsInv(s: State, run: seq<Action>)
    requires Inv(s) && Legal(s, run)
    ensures Inv(After(s, run))
    decreases |run|
  {
    if run != [] {
      StepKeepsInv(s, run[0]);
      RunKeepsInv(Do(s, run[0]), run[1..]);
    }
  }

  lemma ReachableInv(s: State)
    requires Reachable(s)
    ensures Inv(s)
  {
    var cap: nat, run :| cap > 0 && Legal(Start(cap), run) && s == After(Start(cap), run);
    RunKeepsInv(Start(cap), run);
  }

  // ---------------------------------------------------------------------------------------
  // What holds in every run
  // ---------------------------------------------------------------------------------------

  /** Never two threads in the receive section. */
  lemma OneReader(s: State, t: nat, u: nat)
    requires Reachable(s) && t < |s.threads| && u < |s.threads|
    requires IsOwner(s.threads[t]) == 1 && IsOwner(s.threads[u]) == 1
    ensures t == u && s.recv.already
  {
    ReachableInv(s);
    CountAtLeast(s.threads, t, IsOwner);
    if t != u {
      Moved(s.threads, t, Out);
      CountAtLeast(s.threads[t := Out], u, IsOwner);
    }
  }

  /** Chunking.  What the handler has seen, what the owner's block holds and what the kernel
      still keeps are together exactly the peer's bytes, in order; no chunk is empty, none
      exceeds the capacity, and all but the last chunk of a pass are full. */
  lemma IncomingStream(s: State)
    requires Reachable(s)
    ensures Bytes(s.delivered) + Held(s.threads, |s.threads|) + s.wire.unread == s.wire.arrived
    ensures Bytes(s.delivered) <= s.wire.arrived
    ensures forall i :: 0 <= i < |s.delivered| ==> 0 < |s.delivered[i].data| <= s.cap
    ensures forall i, j :: 0 <= i < j < |s.delivered| ==>
              s.delivered[i].pass <= s.delivered[j].pass <= s.pass
              && (s.delivered[i].pass == s.delivered[j].pass ==> |s.delivered[i].data| == s.cap)
  {
    ReachableInv(s);
    assert forall i :: 0 <= i < |s.delivered| ==> ChunkOk(s.cap, s.delivered[i]);
  }

  /** recv is never called without room, and a stopped or dried-up drain keeps what it read. */
  lemma RoomToRead(s: State, t: nat, r: RecvResult)
    requires Reachable(s) && Enabled(s, Recv(t, r))
    ensures s.cap - |s.threads[t].buf| > 0
    ensures Next(s, Recv(t, r)).buf == s.threads[t].buf + s.wire.unread[..Taken(r)]
    ensures Next(s, Recv(t, r)).Filling? <==> r.Got? && |s.threads[t].buf| + r.n < s.cap
  {
    ReachableInv(s);
    assert RoomOk(s.cap, s.threads[t]);
  }

  /** The receive section is given up only with `ready` clear, or to shut down. */
  lemma ReleaseOnlyWhenClear(s: State, a: Action)
    requires Reachable(s) && Enabled(s, a) && s.recv.already && !Do(s, a).recv.already
    ensures !s.recv.ready || s.shut.invoke || s.shut.down
  {
    ReachableInv(s);
    if s.recv.ready {
      CountAtLeast(s.threads, Subject(a), HasStopped);
    }
  }

  predicate Outside(a: Action) {
    Subject(a) < 0 && !a.Dispatch?
  }

  /** No lost wake-up.  While the kernel holds bytes or an end of file and no shutdown has
      begun, an edge is undelivered, or some thread in HandleRead will still call recv. */
  lemma NoLostWakeup(s: State) returns (a: Action)
    requires Reachable(s) && Pending(s) && !ShuttingDown(s)
    ensures Enabled(s, a) && !Outside(a)
    ensures a.Dispatch? || IsComing(s.threads[Subject(a)]) + IsDraining(s.threads[Subject(a)]) > 0
            || (s.recv.ready && IsOwner(s.threads[Subject(a)]) == 1) || IsStopping(s.threads[Subject(a)]) > 0
  {
    ReachableInv(s);
    if s.wire.edge {
      a := Dispatch;
    } else {
      var t: nat;
      if Count(s.threads, IsComing) > 0 {
        t := Witness(s.threads, IsComing);
      } else if Count(s.threads, IsDraining) > 0 {
        t := Witness(s.threads, IsDraining);
      } else if Count(s.threads, IsStopping) > 0 {
        t := Witness(s.threads, IsStopping);
      } else {
        t := Witness(s.threads, IsOwner);
      }
      assert RoomOk(s.cap, s.threads[t]);
      a := NextOf(s, t);
    }
  }

  /** A step that a thread still in HandleRead can take. */
  function NextOf(s: State, t: nat): (a: Action)
    requires t < |s.threads| && !s.threads[t].Out? && RoomOk(s.cap, s.threads[t])
    ensures Enabled(s, a) && Subject(a) == t
  {
    match s.threads[t]
    case Entering => Test(t)
    case Claiming => Claim(t)
    case Allocating => Alloc(t, true)
    case Filling(_) =>
      Recv(t, if s.wire.unread != [] then Got(1) else if s.wire.eof then EndOfFile else WouldBlock)
    case Handing(_, _) => Hand(t)
    case Querying => Ask(t)
    case Closing(_) => Close(t)
    case Releasing(_) => Release(t)
  }

  function Rank(p: Phase): nat {
    match p
    case Entering => 8
    case Claiming => 7
    case Handing(_, how) => if how.Full? then 7 else 3
    case Querying => 6
    case Allocating => 5
    case Filling(_) => 4
    case Closing(_) => 2
    case Releasing(_) => 1
    case Out => 0
  }

  function Measure(s: State): nat {
    4 * |s.wire.unread| + Count(s.threads, Rank) + (if s.recv.ready then 5 else 0) + (if s.wire.edge then 9 else 0)
  }

  lemma StepDown(s: State, a: Action)
    requires Enabled(s, a) && !Outside(a)
    ensures Measure(Do(s, a)) < Measure(s)
  {
    if Subject(a) >= 0 {
      ThreadMoves(s, a, Rank);
    } else {
      Started(s.threads, Entering);
    }
  }

  /** Left alone by the peer, the workers come to rest after finitely many steps. */
  lemma {:induction false} RunsBounded(s: State, run: seq<Action>)
    requires Legal(s, run) && forall i :: 0 <= i < |run| ==> !Outside(run[i])
    ensures |run| + Measure(After(s, run)) <= Measure(s)
    decreases |run|
  {
    if run != [] {
      StepDown(s, run[0]);
      RunsBounded(Do(s, run[0]), run[1..]);
    }
  }

  /** ... and at rest, unless a shutdown has begun, every byte that ever arrived has been
      handed over, in order, and nobody owns the section. */
  lemma RestMeansDelivered(s: State)
    requires Reachable(s) && !ShuttingDown(s)
    requires forall a :: Enabled(s, a) ==> Outside(a)
    ensures s.wire.unread == [] && !s.wire.eof && !s.recv.already
    ensures Bytes(s.delivered) == s.wire.arrived
  {
    ReachableInv(s);
    assert Enabled(s, Dispatch) ==> Outside(Dispatch);
    forall t: nat | t < |s.threads| ensures s.threads[t].Out? {
      assert RoomOk(s.cap, s.threads[t]);
      if !s.threads[t].Out? {
        var a := NextOf(s, t);
        assert false;
      }
    }
    AllZero(s.threads, IsOwner);
    AllZero(s.threads, IsComing);
    AllZero(s.threads, IsDraining);
    AllZero(s.threads, IsStopping);
    NobodyHolds(s.threads, |s.threads|);
  }

  // ---------------------------------------------------------------------------------------
  // Why a connection is closed
  // ---------------------------------------------------------------------------------------

  /** A thread is about to close the connection, or it has been closed. */
  predicate Doomed(s: State) {
    s.shut.invoke || s.shut.down || Count(s.threads, IsStopping) > 0
  }

  /** End of file, an error, no memory for a block, a query met after a full block, or somebody
      else's close. */
  predicate Cause(s: State, a: Action) {
    match a
    case Alloc(_, ok) => !ok
    case Recv(_, r) => r.EndOfFile? || r.Failed?
    case Ask(_) => s.shut.query
    case OtherClose => true
    case MarkDown => true
    case _ => false
  }

  lemma DoomedExactly(s: State, a: Action)
    requires Shapes(s) && Enabled(s, a)
    ensures Doomed(Do(s, a)) <==> Doomed(s) || Cause(s, a)
  {
    if Subject(a) >= 0 {
      assert RoomOk(s.cap, s.threads[Subject(a)]);
      ThreadMoves(s, a, IsStopping);
      CountAtLeast(s.threads, Subject(a), IsStopping);
    } else {
      Started(s.threads, Entering);
    }
  }

  /** Some step of the run is a cause. */
  predicate Caused(s: State, run: seq<Action>)
    requires Legal(s, run)
    decreases |run|
  {
    run != [] && (Cause(s, run[0]) || Caused(Do(s, run[0]), run[1..]))
  }

  lemma {:induction false} RunDoomed(s: State, run: seq<Action>)
    requires Inv(s) && Legal(s, run)
    ensures Doomed(After(s, run)) <==> Doomed(s) || Caused(s, run)
    decreases |run|
  {
    if run != [] {
      DoomedExactly(s, run[0]);
      StepKeepsInv(s, run[0]);
      RunDoomed(Do(s, run[0]), run[1..]);
    }
  }

  /** A connection is closed for a reason, and for every reason: a run that has come to rest has
      closed it exactly if it has met one of the causes; drained and would-block reads are none. */
  lemma ClosedExactly(cap: nat, run: seq<Action>)
    requires cap > 0 && Legal(Start(cap), run)
    ensures var s := After(Start(cap), run);
            && (s.shut.invoke || s.shut.down ==> Caused(Start(cap), run))
            && ((forall t :: 0 <= t < |s.threads| ==> s.threads[t].Out?) ==>
                  (s.shut.invoke || s.shut.down <==> Caused(Start(cap), run)))
  {
    RunDoomed(Start(cap), run);
    var s := After(Start(cap), run);
    if forall t :: 0 <= t < |s.threads| ==> s.threads[t].Out? {
      AllZero(s.threads, IsStopping);
    }
  }

  /** What a thread of this connection does not do by itself: it meets end of file, errors and
      exhausted memory, and is asked to close. */
  predicate Harmless(a: Action) {
    match a
    case Alloc(_, ok) => ok
    case Recv(_, r) => !r.EndOfFile? && !r.Failed?
    case OtherClose => false
    case AskShutdown => false
    case _ => true
  }

  lemma {:induction false} HarmlessRun(s: State, run: seq<Action>)
    requires Legal(s, run) && forall i :: 0 <= i < |run| ==> Harmless(run[i])
    requires Shapes(s) && !s.shut.query && !s.shut.invoke && Count(s.threads, IsStopping) == 0
    ensures !After(s, run).shut.invoke
    decreases |run|
  {
    if run != [] {
      HarmlessStep(s, run[0]);
      ShapesKept(s, run[0]);
      HarmlessRun(Do(s, run[0]), run[1..]);
    }
  }

  lemma HarmlessStep(s: State, a: Action)
    requires Shapes(s) && Enabled(s, a) && Harmless(a)
    requires !s.shut.query && !s.shut.invoke && Count(s.threads, IsStopping) == 0
    ensures !Do(s, a).shut.query && !Do(s, a).shut.invoke && Count(Do(s, a).threads, IsStopping) == 0
  {
    if Subject(a) >= 0 {
      ThreadMoves(s, a, IsStopping);
      CountAtLeast(s.threads, Subject(a), IsStopping);
    } else {
      Started(s.threads, Entering);
    }
  }

  /** Reading, would-blocks and full blocks never close a connection, whatever is reported to it. */
  lemma ReadsStayOpen(cap: nat, run: seq<Action>)
    requires cap > 0 && Legal(Start(cap), run) && forall i :: 0 <= i < |run| ==> Harmless(run[i])
    ensures !After(Start(cap), run).shut.invoke
  {
    HarmlessRun(Start(cap), run);
  }

  // ---------------------------------------------------------------------------------------
  // Deferred shutdowns
  // ---------------------------------------------------------------------------------------

  function IsClaiming(p: Phase): nat { if p.Claiming? then 1 else 0 }

  /** Owners whose pass may still end in a shutdown: recv can fail, memory can run out, and with
      query set a full block is the last. */
  function IsCutting(p: Phase): nat {
    if p.Allocating? || p.Filling? || (p.Handing? && !p.how.Dry?) || p.Querying? || (p.Closing? && p.stop) then 1 else 0
  }

  /** A reader is past its test of the flags and may go on to read, or the owner will. */
  predicate ReaderIn(s: State) {
    Count(s.threads, IsClaiming) > 0 || Count(s.threads, IsCutting) > 0 || (s.recv.already && s.recv.ready)
  }

  /** A Shutdown is waiting for unsent bytes: query is set and nothing has closed. */
  predicate Deferred(s: State) {
    s.shut.query && !s.shut.invoke && !s.shut.down
  }

  /** Steps of the readers, the kernel and the peer. */
  predicate ReadersOnly(run: seq<Action>) {
    forall i :: 0 <= i < |run| ==> !run[i].OtherClose? && !run[i].MarkDown?
  }

  ghost predicate ReaderCanCut(s: State) {
    exists run :: Legal(s, run) && ReadersOnly(run) && After(s, run).shut.invoke
  }

  /** A step that leads to the close. */
  lemma CutStep(s: State) returns (a: Action)
    requires Inv(s) && Deferred(s) && ReaderIn(s)
    ensures Enabled(s, a) && Subject(a) >= 0
    ensures Do(s, a).shut.invoke || (Deferred(Do(s, a)) && ReaderIn(Do(s, a)))
  {
    var t: nat;
    if Count(s.threads, IsCutting) > 0 {
      t := Witness(s.threads, IsCutting);
      a := match s.threads[t]
           case Allocating => Alloc(t, false)
           case Filling(_) => Recv(t, Failed)
           case Handing(_, _) => Hand(t)
           case Querying => Ask(t)
           case _ => Close(t);
    } else if Count(s.threads, IsClaiming) > 0 {
      t := Witness(s.threads, IsClaiming);
      a := Claim(t);
    } else {
      t := Witness(s.threads, IsOwner);
      CountAtLeast(s.threads, t, IsCutting);
      CountAtLeast(s.threads, t, HasStopped);
      a := match s.threads[t]
           case Handing(_, _) => Hand(t)
           case Closing(_) => Close(t)
           case _ => Release(t);
    }
    ThreadMoves(s, a, IsCutting);
    ThreadMoves(s, a, IsClaiming);
  }

  lemma {:induction false} CutRun(s: State) returns (run: seq<Action>)
    requires Inv(s) && Deferred(s) && ReaderIn(s)
    ensures Legal(s, run) && ReadersOnly(run) && After(s, run).shut.invoke
    decreases Measure(s)
  {
    var a := CutStep(s);
    StepDown(s, a);
    StepKeepsInv(s, a);
    var rest := [];
    if !Do(s, a).shut.invoke {
      rest := CutRun(Do(s, a));
    }
    run := [a] + rest;
    assert run[1..] == rest;
  }

  lemma NobodyEnters(s: State, a: Action)
    requires Inv(s) && (s.shut.query || s.shut.down) && !ReaderIn(s) && Enabled(s, a)
    ensures !ReaderIn(Do(s, a)) && !a.Recv?
    ensures Do(s, a).shut.query || Do(s, a).shut.down
  {
    if Subject(a) < 0 {
      Started(s.threads, Entering);
    } else {
      ThreadMoves(s, a, IsCutting);
      ThreadMoves(s, a, IsClaiming);
      CountAtLeast(s.threads, Subject(a), IsCutting);
      CountAtLeast(s.threads, Subject(a), IsClaiming);
      CountAtLeast(s.threads, Subject(a), IsOwner);
    }
  }

  lemma ReadersStayOut(s: State, a: Action)
    requires Inv(s) && Deferred(s) && !ReaderIn(s) && Enabled(s, a) && !a.OtherClose? && !a.MarkDown?
    ensures Deferred(Do(s, a)) && !ReaderIn(Do(s, a))
  {
    NobodyEnters(s, a);
    if Subject(a) >= 0 {
      CountAtLeast(s.threads, Subject(a), IsCutting);
    }
  }

  lemma {:induction false} RunStaysOut(s: State, run: seq<Action>)
    requires Inv(s) && Deferred(s) && !ReaderIn(s) && Legal(s, run) && ReadersOnly(run)
    ensures !After(s, run).shut.invoke
    decreases |run|
  {
    if run != [] {
      ReadersStayOut(s, run[0]);
      StepKeepsInv(s, run[0]);
      RunStaysOut(Do(s, run[0]), run[1..]);
    }
  }

  /** The receive side can cut a deferred Shutdown short exactly if a reader was past its test of
      the flags when query was set and has not ended its last pass. */
  lemma ReaderCutsExactly(s: State)
    requires Reachable(s) && Deferred(s)
    ensures ReaderCanCut(s) <==> ReaderIn(s)
  {
    ReachableInv(s);
    if ReaderIn(s) {
      var run := CutRun(s);
    } else {
      forall run | Legal(s, run) && ReadersOnly(run) ensures !After(s, run).shut.invoke {
        RunStaysOut(s, run);
      }
    }
  }

  lemma {:induction false} RunNeverReads(s: State, run: seq<Action>)
    requires Inv(s) && (s.shut.query || s.shut.down) && !ReaderIn(s) && Legal(s, run)
    ensures forall i :: 0 <= i < |run| ==> !run[i].Recv?
    decreases |run|
  {
    if run != [] {
      NobodyEnters(s, run[0]);
      StepKeepsInv(s, run[0]);
      RunNeverReads(Do(s, run[0]), run[1..]);
    }
  }

  /** Once a query or HandleShutdown has set its flag and no reader is in, recv is never
      called again, whatever events are reported. */
  lemma NothingMoreRead(s: State, run: seq<Action>)
    requires Reachable(s) && (s.shut.query || s.shut.down) && !ReaderIn(s) && Legal(s, run)
    ensures forall i :: 0 <= i < |run| ==> !run[i].Recv?
  {
    ReachableInv(s);
    RunNeverReads(s, run);
  }
}
