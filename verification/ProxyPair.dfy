/** The two connections of a proxied client: who holds a reference on whom, through set-up,
    forwarding and every order of teardown. */
module ProxyPairs {

  datatype Side = Inward | Outward

  function Peer(side: Side): Side {
    if side.Inward? then Outward else Inward
  }

  /** Where a connection is in its life.  A teardown is chosen by the last thread to leave, or
      by the reactor's destructor; it looks at the context (Unbound), asks the peer to shut down
      (Asking), drops the peer (Dropping) and drops itself (Closing). */
  datatype Phase = Absent | Idle | Live | Unbound(terminate: bool) | Asking | Dropping | Closing | Gone

  /** `inside` counts the threads between EnterThreadSafe and LeaveThreadSafe, `forwarding` those
      of them that have read the context and are in the peer's Send. */
  datatype Conn = Conn(ref: int, context: bool, phase: Phase, inside: nat, forwarding: nat, recycled: nat)

  /** What HandleClient does next. */
  datatype Setup =
    | SetIn | SetOut | AddIn | AddOut | BindIn | BindOut
    | Finished
    | FreeIn | FreeOut | Abandoned   // only one connection could be allocated, or none

  datatype State = State(inward: Conn, outward: Conn, setup: Setup)

  function At(s: State, side: Side): Conn {
    if side.Inward? then s.inward else s.outward
  }

  function With(s: State, side: Side, c: Conn): State {
    if side.Inward? then s.(inward := c) else s.(outward := c)
  }

  datatype Action =
    | Proceed                        // the next statement of HandleClient
    | Enter(side: Side)              // a thread starts to handle an event
    | Read(side: Side)               // HandleData reads the context
    | Sent(side: Side)               // and has sent the block to the peer
    | Leave(side: Side, last: bool)  // the thread leaves; the last one may find the close
    | Terminate(side: Side)          // the reactor's destructor
    | Look(side: Side)               // the handler takes the context and clears it
    | Ask(side: Side)                // pair->Shutdown()
    | Drop(side: Side)               // pair->Release()
    | Close(side: Side)              // Release()

  // ---------------------------------------------------------------------------------------
  // Steps
  // ---------------------------------------------------------------------------------------

  /** Release: the last reference sends the object back to its pool. */
  function Released(c: Conn): Conn {
    if c.ref == 1 then c.(ref := 0, recycled := c.recycled + 1) else c.(ref := c.ref - 1)
  }

  function Allocated(ok: bool): Conn {
    Conn(if ok then 1 else 0, false, if ok then Idle else Absent, 0, 0, 0)
  }

  function Init(inOk: bool, outOk: bool): State {
    State(Allocated(inOk), Allocated(outOk),
          if inOk && outOk then SetIn else if inOk then FreeIn else if outOk then FreeOut else Abandoned)
  }

  function Proceeded(s: State): State {
    match s.setup
    case SetIn => s.(inward := s.inward.(context := true), setup := SetOut)
    case SetOut => s.(outward := s.outward.(context := true), setup := AddIn)
    case AddIn => s.(inward := s.inward.(ref := s.inward.ref + 1), setup := AddOut)
    case AddOut => s.(outward := s.outward.(ref := s.outward.ref + 1), setup := BindIn)
    case BindIn => s.(inward := s.inward.(phase := Live), setup := BindOut)
    case BindOut => s.(outward := s.outward.(phase := Live), setup := Finished)
    case FreeIn => s.(inward := Released(s.inward).(phase := Gone), setup := Abandoned)
    case FreeOut => s.(outward := Released(s.outward).(phase := Gone), setup := Abandoned)
    case Finished | Abandoned => s
  }

  predicate Enabled(s: State, a: Action) {
    match a
    case Proceed => !s.setup.Finished? && !s.setup.Abandoned?
    case Enter(x) => At(s, x).phase.Live?
    case Read(x) => At(s, x).inside > At(s, x).forwarding
    case Sent(x) => At(s, x).forwarding > 0
    case Leave(x, last) => At(s, x).inside > At(s, x).forwarding
                           && (last ==> At(s, x).inside == 1 && At(s, x).phase.Live?)
    case Terminate(x) => At(s, x).phase.Live? && At(s, x).inside == 0
    case Look(x) => At(s, x).phase.Unbound?
    case Ask(x) => At(s, x).phase.Asking?
    case Drop(x) => At(s, x).phase.Dropping?
    case Close(x) => At(s, x).phase.Closing?
  }

  function Do(s: State, a: Action): State
    requires Enabled(s, a)
  {
    match a
    case Proceed => Proceeded(s)
    case Enter(x) => With(s, x, At(s, x).(inside := At(s, x).inside + 1))
    case Read(x) => With(s, x, At(s, x).(forwarding := At(s, x).forwarding + 1))
    case Sent(x) => With(s, x, At(s, x).(forwarding := At(s, x).forwarding - 1))
    case Leave(x, last) =>
      With(s, x, At(s, x).(inside := At(s, x).inside - 1,
                           phase := if last then Unbound(false) else At(s, x).phase))
    case Terminate(x) => With(s, x, At(s, x).(phase := Unbound(true)))
    case Look(x) =>
      var c := At(s, x);
      With(s, x, c.(context := false,
                    phase := if !c.context then Closing else if c.phase.terminate then Dropping else Asking))
    case Ask(x) => With(s, x, At(s, x).(phase := Dropping))
    case Drop(x) =>
      var s' := With(s, x, At(s, x).(phase := Closing));
      With(s', Peer(x), Released(At(s', Peer(x))))
    case Close(x) => With(s, x, Released(At(s, x)).(phase := Gone))
  }

  predicate Legal(s: State, actions: seq<Action>)
    decreases |actions|
  {
    actions != [] ==> Enabled(s, actions[0]) && Legal(Do(s, actions[0]), actions[1..])
  }

  function After(s: State, actions: seq<Action>): State
    requires Legal(s, actions)
    decreases |actions|
  {
    if actions == [] then s else After(Do(s, actions[0]), actions[1..])
  }

  ghost predicate Reachable(s: State) {
    exists inOk, outOk, actions :: Legal(Init(inOk, outOk), actions) && After(Init(inOk, outOk), actions) == s
  }

  // ---------------------------------------------------------------------------------------
  // The invariant
  // ---------------------------------------------------------------------------------------

  /** The teardown of this connection has not dropped its own reference yet. */
  function Own(c: Conn): int {
    if c.phase.Absent? || c.phase.Gone? then 0 else 1
  }

  /** It holds a reference on its peer: its context points there, or its teardown has taken the
      pointer and not dropped it yet. */
  function Holding(c: Conn): int {
    if c.context || c.phase.Asking? || c.phase.Dropping? then 1 else 0
  }

  /** HandleClient has taken the reference on this side that the peer's context stands for. */
  predicate Counted(setup: Setup, side: Side) {
    setup.BindIn? || setup.BindOut? || setup.Finished? || (setup.AddOut? && side.Inward?)
  }

  predicate ContextSet(setup: Setup, side: Side) {
    !setup.SetIn? && (setup.SetOut? ==> side.Inward?)
  }

  predicate Bound(setup: Setup, side: Side) {
    setup.Finished? || (setup.BindOut? && side.Inward?)
  }

  /** The reference count is one for the connection itself until its teardown drops it, plus one
      while the peer's context points at it. */
  predicate Referenced(c: Conn, peer: Conn, counted: bool) {
    && c.ref == Own(c) + (if counted then Holding(peer) else 0)
    && c.recycled == (if c.ref == 0 then 1 else 0)
  }

  /** The context points at the peer from set-up to the handler's look, and threads are only
      inside a connection before its teardown. */
  predicate Staged(c: Conn, bound: bool, contextSet: bool) {
    && !c.phase.Absent?
    && (c.phase.Idle? <==> !bound)
    && (c.context <==> (c.phase.Idle? && contextSet) || c.phase.Live? || c.phase.Unbound?)
    && c.forwarding <= c.inside
    && (c.inside > 0 ==> c.phase.Live?)
  }

  predicate Sound(s: State, side: Side) {
    && Referenced(At(s, side), At(s, Peer(side)), Counted(s.setup, side))
    && Staged(At(s, side), Bound(s.setup, side), ContextSet(s.setup, side))
  }

  /** Never allocated, or given back. */
  predicate Unused(c: Conn) {
    c == Allocated(false) || c == Released(Allocated(true)).(phase := Gone)
  }

  /** Without its peer a connection is released and never used. */
  predicate Alone(s: State) {
    && (if s.setup.FreeIn? then s.inward == Allocated(true) else Unused(s.inward))
    && (if s.setup.FreeOut? then s.outward == Allocated(true) else Unused(s.outward))
  }

  predicate Inv(s: State) {
    if s.setup.FreeIn? || s.setup.FreeOut? || s.setup.Abandoned? then Alone(s)
    else Sound(s, Inward) && Sound(s, Outward)
  }

  lemma ProceedKeepsInv(s: State)
    requires Inv(s) && Enabled(s, Proceed)
    ensures Inv(Do(s, Proceed))
  {
  }

  lemma InwardKeepsInv(s: State, a: Action)
    requires Inv(s) && !a.Proceed? && a.side.Inward? && Enabled(s, a)
    ensures Inv(Do(s, a))
  {
  }

  lemma OutwardKeepsInv(s: State, a: Action)
    requires Inv(s) && !a.Proceed? && a.side.Outward? && Enabled(s, a)
    ensures Inv(Do(s, a))
  {
  }

  lemma StepKeepsInv(s: State, a: Action)
    requires Inv(s) && Enabled(s, a)
    ensures Inv(Do(s, a))
  {
    if a.Proceed? {
      ProceedKeepsInv(s);
    } else if a.side.Inward? {
      InwardKeepsInv(s, a);
    } else {
      OutwardKeepsInv(s, a);
    }
  }

  lemma {:induction false} RunKeepsInv(s: State, actions: seq<Action>)
    requires Inv(s) && Legal(s, actions)
    ensures Inv(After(s, actions))
    decreases |actions|
  {
    if actions != [] {
      StepKeepsInv(s, actions[0]);
      RunKeepsInv(Do(s, actions[0]), actions[1..]);
    }
  }

  lemma ReachableInv(s: State)
    requires Reachable(s)
    ensures Inv(s)
  {
    var inOk, outOk, actions :| Legal(Init(inOk, outOk), actions) && After(Init(inOk, outOk), actions) == s;
    RunKeepsInv(Init(inOk, outOk), actions);
  }

  // ---------------------------------------------------------------------------------------
  // What holds in every reachable state
  // ---------------------------------------------------------------------------------------

  /** Reference counts: not yet torn down, plus the peer's context (or a teardown that has taken
      the pointer out of it) still pointing here. */
  lemma PairOwnership(s: State, side: Side)
    requires Reachable(s) && s.setup.Finished?
    ensures At(s, side).ref == Own(At(s, side)) + Holding(At(s, Peer(side)))
    ensures At(s, side).recycled == if At(s, side).ref == 0 then 1 else 0
  {
    ReachableInv(s);
  }

  /** The connections an action dereferences. */
  function Touched(s: State, a: Action): set<Side> {
    match a
    case Proceed =>
      if s.setup in {SetIn, AddIn, BindIn, FreeIn} then {Inward}
      else if s.setup in {SetOut, AddOut, BindOut, FreeOut} then {Outward}
      else {}
    case Sent(x) => {x, Peer(x)}
    case Ask(x) => {x, Peer(x)}
    case Drop(x) => {x, Peer(x)}
    case _ => {a.side}
  }

  /** No step of any run uses a connection that has gone back to its pool, and what HandleData
      reads from its context is the peer. */
  lemma NeverTouchesRecycled(s: State, a: Action)
    requires Reachable(s) && Enabled(s, a)
    ensures forall side :: side in Touched(s, a) ==> At(s, side).ref >= 1 && At(s, side).recycled == 0
    ensures a.Read? ==> At(s, a.side).context
  {
    ReachableInv(s);
    if !a.Proceed? {
      assert a.side.Inward? || a.side.Outward?;
    }
  }

  /** A block is only ever forwarded to a peer that is still there, for as long as it takes. */
  lemma PeerStaysWhileForwarding(s: State, side: Side)
    requires Reachable(s) && At(s, side).forwarding > 0
    ensures At(s, side).context && At(s, Peer(side)).ref >= 1 && At(s, Peer(side)).recycled == 0
  {
    ReachableInv(s);
  }

  predicate Over(s: State) {
    && (s.setup.Finished? || s.setup.Abandoned?)
    && forall side :: At(s, side).phase.Gone? || At(s, side).phase.Absent?
  }

  /** Both sides are recycled at most once at any time, and exactly once when both are over,
      whatever the order of their teardowns. */
  lemma RecycledExactlyOnce(s: State, side: Side)
    requires Reachable(s)
    ensures At(s, side).recycled <= 1
    ensures Over(s) ==> At(s, side).ref == 0 && (At(s, side).recycled == 1 <==> !At(s, side).phase.Absent?)
  {
    ReachableInv(s);
    assert At(s, Inward) == s.inward && At(s, Outward) == s.outward;
  }

  // ---------------------------------------------------------------------------------------
  // What a teardown has done so far
  // ---------------------------------------------------------------------------------------

  /** The past steps of a connection, as its phase tells them: a teardown has begun from Leave or
      from Terminate, has asked the peer or not, and has dropped it or not. */
  predicate Tells(c: Conn, past: seq<Action>, side: Side) {
    var torn := Leave(side, true) in past;
    var terminated := Terminate(side) in past;
    var asked := Ask(side) in past;
    var dropped := Drop(side) in past;
    match c.phase
    case Absent | Idle | Live => !torn && !terminated && !asked && !dropped
    case Unbound(terminate) => terminate == terminated == !torn && !asked && !dropped
    case Asking => torn && !terminated && !asked && !dropped
    case Dropping => terminated == !torn && asked == torn && !dropped
    case Closing | Gone => terminated == !torn && asked == torn && dropped
  }

  predicate Paired(s: State) {
    !s.setup.FreeIn? && !s.setup.FreeOut? && !s.setup.Abandoned?
  }

  lemma ProceedTells(s: State, past: seq<Action>, side: Side)
    requires Inv(s) && Paired(s) && Enabled(s, Proceed) && Tells(At(s, side), past, side)
    ensures Tells(At(Do(s, Proceed), side), past + [Proceed], side)
  {
  }

  lemma OwnStepTells(s: State, past: seq<Action>, a: Action)
    requires Inv(s) && Paired(s) && !a.Proceed? && Enabled(s, a) && Tells(At(s, a.side), past, a.side)
    ensures Tells(At(Do(s, a), a.side), past + [a], a.side)
  {
    assert Sound(s, Inward) && Sound(s, Outward);
  }

  lemma PeerStepTells(s: State, past: seq<Action>, a: Action)
    requires !a.Proceed? && Enabled(s, a) && Tells(At(s, Peer(a.side)), past, Peer(a.side))
    ensures Tells(At(Do(s, a), Peer(a.side)), past + [a], Peer(a.side))
  {
    assert At(Do(s, a), Peer(a.side)).phase == At(s, Peer(a.side)).phase;
  }

  lemma StepTells(s: State, past: seq<Action>, a: Action, side: Side)
    requires Inv(s) && Paired(s) && Enabled(s, a) && Tells(At(s, side), past, side)
    ensures Paired(Do(s, a)) && Tells(At(Do(s, a), side), past + [a], side)
  {
    if a.Proceed? {
      ProceedTells(s, past, side);
    } else if a.side == side {
      OwnStepTells(s, past, a);
    } else {
      assert side == Peer(a.side);
      PeerStepTells(s, past, a);
    }
  }

  lemma {:induction false} RunTells(s: State, past: seq<Action>, actions: seq<Action>, side: Side)
    requires Inv(s) && Paired(s) && Legal(s, actions) && Tells(At(s, side), past, side)
    ensures Tells(At(After(s, actions), side), past + actions, side)
    decreases |actions|
  {
    if actions == [] {
      assert past + actions == past;
    } else {
      StepKeepsInv(s, actions[0]);
      StepTells(s, past, actions[0], side);
      RunTells(Do(s, actions[0]), past + [actions[0]], actions[1..], side);
      assert past + [actions[0]] + actions[1..] == past + actions;
    }
  }

  /** A teardown drops its peer only after it has asked it to shut down, if a leaving thread began
      it, and without asking, if the reactor's destructor did; and it drops it before itself. */
  lemma AsksExactly(actions: seq<Action>, side: Side)
    requires Legal(Init(true, true), actions)
    ensures var s := After(Init(true, true), actions);
            && (Enabled(s, Drop(side)) ==>
                  (Ask(side) in actions <==> Leave(side, true) in actions)
                  && (Terminate(side) in actions <==> Leave(side, true) !in actions)
                  && Drop(side) !in actions)
            && (At(s, side).phase.Closing? || At(s, side).phase.Gone? ==>
                  Drop(side) in actions
                  && (Ask(side) in actions <==> Leave(side, true) in actions)
                  && (Terminate(side) in actions <==> Leave(side, true) !in actions))
  {
    RunTells(Init(true, true), [], actions, side);
    assert [] + actions == actions;
  }

  // ---------------------------------------------------------------------------------------
  // Teardown comes to an end
  // ---------------------------------------------------------------------------------------

  /** Once no more events are handled and no more blocks read. */
  predicate Winding(a: Action) {
    !a.Enter? && !a.Read?
  }

  function SetupRank(setup: Setup): nat {
    match setup
    case SetIn => 6 case SetOut => 5 case AddIn => 4 case AddOut => 3 case BindIn => 2 case BindOut => 1
    case FreeIn | FreeOut => 1
    case Finished | Abandoned => 0
  }

  function PhaseRank(phase: Phase): nat {
    match phase
    case Absent | Gone => 0
    case Closing => 1 case Dropping => 2 case Asking => 3 case Unbound(_) => 4 case Live => 5 case Idle => 5
  }

  function Rank(s: State): nat {
    SetupRank(s.setup)
    + PhaseRank(s.inward.phase) + s.inward.inside + s.inward.forwarding
    + PhaseRank(s.outward.phase) + s.outward.inside + s.outward.forwarding
  }

  lemma WindingStep(s: State, a: Action)
    requires Inv(s) && Enabled(s, a) && Winding(a)
    ensures Rank(Do(s, a)) < Rank(s)
  {
    if !a.Proceed? {
      assert a.side.Inward? || a.side.Outward?;
    }
  }

  lemma {:induction false} WindingBounded(s: State, actions: seq<Action>)
    requires Inv(s) && Legal(s, actions) && forall i :: 0 <= i < |actions| ==> Winding(actions[i])
    ensures |actions| + Rank(After(s, actions)) <= Rank(s)
    decreases |actions|
  {
    if actions != [] {
      StepKeepsInv(s, actions[0]);
      WindingStep(s, actions[0]);
      WindingBounded(Do(s, actions[0]), actions[1..]);
    }
  }

  /** What a state that is not over can still do without new events. */
  function Pending(s: State, side: Side): Action {
    var c := At(s, side);
    match c.phase
    case Live => if c.forwarding > 0 then Sent(side) else if c.inside > 0 then Leave(side, false) else Terminate(side)
    case Unbound(_) => Look(side)
    case Asking => Ask(side)
    case Dropping => Drop(side)
    case Closing => Close(side)
    case _ => Proceed
  }

  lemma NeverStuck(s: State)
    requires Inv(s) && !Over(s)
    ensures exists a :: Enabled(s, a) && Winding(a)
  {
    var side := if s.inward.phase.Gone? || s.inward.phase.Absent? then Outward else Inward;
    assert At(s, Inward) == s.inward && At(s, Outward) == s.outward;
    var a := if !s.setup.Finished? && !s.setup.Abandoned? then Proceed else Pending(s, side);
    assert Enabled(s, a) && Winding(a);
  }

  /** From every reachable state, once events stop, every maximal run is finite and ends with
      each connection recycled exactly once. */
  lemma PairTornDown(s: State, actions: seq<Action>, side: Side)
    requires Reachable(s) && Legal(s, actions) && forall i :: 0 <= i < |actions| ==> Winding(actions[i])
    ensures |actions| <= Rank(s)
    ensures var s' := After(s, actions);
            (forall a :: Enabled(s', a) ==> !Winding(a)) ==>
              Over(s') && At(s', side).recycled == if At(s', side).phase.Absent? then 0 else 1
  {
    ReachableInv(s);
    WindingBounded(s, actions);
    RunKeepsInv(s, actions);
    var s' := After(s, actions);
    if forall a :: Enabled(s', a) ==> !Winding(a) {
      if !Over(s') {
        NeverStuck(s');
        assert false;
      }
      assert At(s', Inward) == s'.inward && At(s', Outward) == s'.outward;
    }
  }
}
