/** The block pool as a transition system: any number of threads in Alloc, Free, AddRef and
    Release, one step per critical section.  Alloc takes a block and adds the pool reference
    in two sections, Free returns the block and drops the reference in two sections. */
module PoolProtocol {
  import Rings

  /** `live` maps a handed-out block to its reference count, `holds` counts the references that
      callers really have; `pending` are the handed-out
      blocks whose pool reference Alloc has not added yet; `dying` the blocks whose count
      reached zero and that Free has not put back yet; `dropping` counts threads in Free
      between putting a block back and dropping the pool reference.  `crashed` records an
      unchecked dereference of NULL, or the use of a block that is no longer out. */
  datatype State = State(
    avail: seq<nat>, spare: nat, live: map<nat, nat>, holds: multiset<nat>, pending: set<nat>, dying: set<nat>,
    dropping: nat, refs: nat, holders: nat, made: nat, chunk: nat, destroyed: nat, crashed: bool)

  datatype Action =
    | AllocTake(memory: bool)     // take a block, growing the pool when it is empty
    | AllocRef(b: nat)            // add the pool reference for it
    | BlockAddRef(b: nat)
    | BlockRelease(b: nat)
    | FreePut(b: nat)             // put a dead block back on a spare node
    | FreeDrop                    // drop the pool reference for it
    | HolderAddRef
    | HolderRelease

  /** What callers owe: a pool reference during Alloc, a block reference to add or release. */
  predicate Enabled(s: State, a: Action) {
    match a
    case AllocTake(_) => s.holders > 0
    case AllocRef(b) => b in s.pending
    case BlockAddRef(b) => s.holds[b] > 0 && b !in s.pending
    case BlockRelease(b) => s.holds[b] > 0 && b !in s.pending
    case FreePut(b) => b in s.dying
    case FreeDrop => s.dropping > 0
    case HolderAddRef => s.holders > 0
    case HolderRelease => s.holders > 1 || (s.holders == 1 && s.pending == {})
  }

  /** The blocks of one AppendCache, in the order in which they end up on the list. */
  function NewBlocks(from: nat, n: nat): (bs: seq<nat>)
    ensures |bs| == n && forall i :: 0 <= i < n ==> bs[i] == from + n - 1 - i
  {
    seq(n, i requires 0 <= i < n => from + n - 1 - i)
  }

  function Grown(s: State, memory: bool): State {
    if s.avail == [] && memory then
      s.(avail := NewBlocks(s.made, s.chunk), made := s.made + s.chunk)
    else s
  }

  /** RefObject::Release on the pool; the destructor dereferences the block of every spare
      node, which is NULL. */
  function PoolReleased(s: State): State {
    if s.refs == 0 then s
    else if s.refs == 1 then s.(refs := 0, destroyed := s.destroyed + 1, crashed := s.crashed || s.spare > 0)
    else s.(refs := s.refs - 1)
  }

  /** RefObject::Release on a block. */
  function BlockReleased(s: State, b: nat): State {
    if b !in s.live then s.(crashed := true)
    else if s.live[b] > 1 then s.(live := s.live[b := s.live[b] - 1])
    else s.(live := s.live - {b}, dying := s.dying + {b})
  }

  function Do(s: State, a: Action): State
    requires Enabled(s, a)
  {
    match a
    case AllocTake(memory) =>
      var g := Grown(s, memory);
      if g.avail == [] then g
      else g.(avail := g.avail[1..], spare := g.spare + 1, live := g.live[g.avail[0] := 1],
              holds := g.holds + multiset{g.avail[0]}, pending := g.pending + {g.avail[0]})
    case AllocRef(b) => s.(refs := s.refs + 1, pending := s.pending - {b})
    case BlockAddRef(b) =>
      if b !in s.live then s.(crashed := true)
      else s.(live := s.live[b := s.live[b] + 1], holds := s.holds + multiset{b})
    case BlockRelease(b) => BlockReleased(s.(holds := s.holds - multiset{b}), b)
    case FreePut(b) =>
      if s.spare == 0 then s.(crashed := true)
      else s.(avail := [b] + s.avail, spare := s.spare - 1, dying := s.dying - {b}, dropping := s.dropping + 1)
    case FreeDrop => PoolReleased(s.(dropping := s.dropping - 1))
    case HolderAddRef => s.(refs := s.refs + 1, holders := s.holders + 1)
    case HolderRelease => PoolReleased(s.(holders := s.holders - 1))
  }

  /** NewInstance: one chunk of blocks and one reference. */
  function Start(chunk: nat): State {
    State(NewBlocks(0, chunk), 0, map[], multiset{}, {}, {}, 0, 1, 1, chunk, chunk, 0, false)
  }

  predicate Legal(s: State, run: seq<Action>)
    decreases |run|
  {
    run != [] ==> Enabled(s, run[0]) && Legal(Do(s, run[0]), run[1..])
  }

  function After(s: State, run: seq<Action>): State
    requires Legal(s, run)
    decreases |run|
  {
    if run == [] then s else After(Do(s, run[0]), run[1..])
  }

  ghost predicate Reachable(s: State) {
    exists chunk: nat, run: seq<Action> ::
      chunk > 0 && Legal(Start(chunk), run) && s == After(Start(chunk), run)
  }

  // ---------------------------------------------------------------------------------------
  // The invariant
  // ---------------------------------------------------------------------------------------

  /** Every block ever made is on the list, handed out or dying: exactly one of them. */
  ghost predicate Placed(s: State) {
    && Rings.Distinct(s.avail)
    && (forall i :: 0 <= i < |s.avail| ==> s.avail[i] < s.made && s.avail[i] !in s.live && s.avail[i] !in s.dying)
    && (forall b :: b in s.live ==> b < s.made && b !in s.dying && s.live[b] >= 1)
    && (forall b :: b in s.dying ==> b < s.made)
    && (forall b :: b in s.pending ==> b in s.live)
  }

  /** The conservation laws of nodes and references. */
  predicate Balanced(s: State) {
    && s.spare == |s.live| + |s.dying|
    && |s.avail| + s.spare == s.made
    && s.refs + |s.pending| == s.holders + |s.live| + |s.dying| + s.dropping
    && (s.pending != {} ==> s.holders > 0)
  }

  predicate Ended(s: State) {
    && s.chunk > 0 && !s.crashed
    && s.destroyed == (if s.refs == 0 then 1 else 0)
    && (s.refs == 0 ==> s.holders == 0 && s.dropping == 0 && s.live == map[] && s.dying == {} && s.pending == {})
  }

  /** A block's count is the number of references that callers have. */
  ghost predicate Held(s: State) {
    forall b {:trigger s.holds[b]} :: s.holds[b] == if b in s.live then s.live[b] else 0
  }

  ghost predicate Inv(s: State) {
    Placed(s) && Held(s) && Balanced(s) && Ended(s)
  }

  lemma TakeKeepsPlaces(s: State, memory: bool)
    requires Placed(s) && Enabled(s, AllocTake(memory))
    ensures Placed(Do(s, AllocTake(memory)))
  {
    assert Placed(Grown(s, memory));
  }

  lemma BlockStepKeepsPlaces(s: State, a: Action)
    requires a.BlockAddRef? || a.BlockRelease?
    requires Placed(s) && Held(s) && Enabled(s, a)
    ensures Placed(Do(s, a))
  {
    assert a.b in s.live;
  }

  lemma FreeKeepsPlaces(s: State, b: nat)
    requires Placed(s) && Enabled(s, FreePut(b))
    ensures Placed(Do(s, FreePut(b)))
  {
  }

  lemma PlacedKept(s: State, a: Action)
    requires Placed(s) && Held(s) && Enabled(s, a)
    ensures Placed(Do(s, a))
  {
    match a
    case AllocTake(memory) => TakeKeepsPlaces(s, memory);
    case BlockAddRef(_) => BlockStepKeepsPlaces(s, a);
    case BlockRelease(_) => BlockStepKeepsPlaces(s, a);
    case FreePut(b) => FreeKeepsPlaces(s, b);
    case _ => KeepsBlocks(s, a);
  }

  /** The other steps leave the blocks where they are. */
  lemma KeepsBlocks(s: State, a: Action)
    requires a.AllocRef? || a.FreeDrop? || a.HolderAddRef? || a.HolderRelease?
    requires Enabled(s, a)
    ensures Do(s, a).avail == s.avail && Do(s, a).live == s.live && Do(s, a).dying == s.dying
    ensures Do(s, a).holds == s.holds && Do(s, a).made == s.made && Do(s, a).pending <= s.pending
  {
  }

  lemma TakeKeepsHolds(s: State, memory: bool)
    requires Placed(s) && Held(s) && Enabled(s, AllocTake(memory))
    ensures Held(Do(s, AllocTake(memory)))
  {
    assert Placed(Grown(s, memory));
  }

  lemma BlockStepKeepsHolds(s: State, a: Action)
    requires a.BlockAddRef? || a.BlockRelease?
    requires Held(s) && Enabled(s, a)
    ensures Held(Do(s, a))
  {
    assert a.b in s.live;
  }

  lemma HeldKept(s: State, a: Action)
    requires Placed(s) && Held(s) && Enabled(s, a)
    ensures Held(Do(s, a))
  {
    match a
    case AllocTake(memory) => TakeKeepsHolds(s, memory);
    case BlockAddRef(_) => BlockStepKeepsHolds(s, a);
    case BlockRelease(_) => BlockStepKeepsHolds(s, a);
    case FreePut(_) =>
    case _ => KeepsBlocks(s, a);
  }

  lemma PendingFits(s: State)
    requires Placed(s)
    ensures |s.pending| <= |s.live|
  {
    SubsetSize(s.pending, s.live.Keys);
  }

  lemma {:induction false} SubsetSize(xs: set<nat>, ys: set<nat>)
    requires xs <= ys
    ensures |xs| <= |ys|
  {
    if xs != {} {
      var x :| x in xs;
      SubsetSize(xs - {x}, ys - {x});
    }
  }

  lemma OneMoreOut(live: map<nat, nat>, b: nat)
    requires b !in live
    ensures |live[b := 1]| == |live| + 1
  {
    assert live[b := 1].Keys == live.Keys + {b};
  }

  lemma TakeKeepsBalance(s: State, memory: bool)
    requires Inv(s) && Enabled(s, AllocTake(memory))
    ensures Balanced(Do(s, AllocTake(memory)))
  {
    var g := Grown(s, memory);
    if g.avail != [] {
      OneMoreOut(s.live, g.avail[0]);
      assert g.avail[0] !in s.pending;
    }
  }

  lemma BlockStepKeepsBalance(s: State, a: Action)
    requires a.BlockAddRef? || a.BlockRelease?
    requires Inv(s) && Enabled(s, a)
    ensures Balanced(Do(s, a))
  {
    if a.BlockAddRef? || s.live[a.b] > 1 {
      assert Do(s, a).live.Keys == s.live.Keys;
    } else {
      assert Do(s, a).live.Keys == s.live.Keys - {a.b};
    }
  }

  lemma BalancedKept(s: State, a: Action)
    requires Inv(s) && Enabled(s, a)
    ensures Balanced(Do(s, a))
  {
    if a.AllocTake? {
      TakeKeepsBalance(s, a.memory);
    } else if a.BlockAddRef? || a.BlockRelease? {
      BlockStepKeepsBalance(s, a);
    } else {
      PendingFits(s);
      assert Do(s, a).live == s.live;
    }
  }

  lemma EndedKept(s: State, a: Action)
    requires Inv(s) && Enabled(s, a)
    ensures Ended(Do(s, a))
  {
    BalancedKept(s, a);
    PlacedKept(s, a);
    PendingFits(s);
    PendingFits(Do(s, a));
  }

  lemma StepKeepsInv(s: State, a: Action)
    requires Inv(s) && Enabled(s, a)
    ensures Inv(Do(s, a))
  {
    PlacedKept(s, a);
    HeldKept(s, a);
    BalancedKept(s, a);
    EndedKept(s, a);
  }

  lemma {:induction false} RunKeepsInv(s: State, run: seq<Action>)
    requires Inv(s) && Legal(s, run)
    ensures Inv(After(s, run))
    decreases |run|
  {
    if run != [] {
      StepKeepsInv(s, run[0]);
      RunKeepsInv(Do(s, run[0]), run[1..]);
    }
  }

  lemma ReachableInv(s: State)
    requires Reachable(s)
    ensures Inv(s)
  {
    var chunk: nat, run :| chunk > 0 && Legal(Start(chunk), run) && s == After(Start(chunk), run);
    RunKeepsInv(Start(chunk), run);
  }

  // ---------------------------------------------------------------------------------------
  // What holds in every run
  // ---------------------------------------------------------------------------------------

  /** Pool conservation: as many spare nodes as blocks out, and the pool's reference count is
      its outside holders plus the blocks out, up to the threads inside the two gaps. */
  lemma PoolConservation(s: State)
    requires Reachable(s)
    ensures s.spare == |s.live| + |s.dying|
    ensures |s.avail| + s.spare == s.made
    ensures s.refs == s.holders + |s.live| + |s.dying| - |s.pending| + s.dropping
  {
    ReachableInv(s);
    PendingFits(s);
  }

  /** The dereferences that the code does not check never meet NULL: Free finds a spare node,
      and the destructor finds no spare node. */
  lemma NoNullDereference(s: State)
    requires Reachable(s)
    ensures !s.crashed
    ensures forall b :: Enabled(s, FreePut(b)) ==> s.spare > 0
    ensures s.destroyed > 0 ==> s.spare == 0 && |s.avail| == s.made
  {
    ReachableInv(s);
    forall b | b in s.dying ensures s.spare > 0 {
      SubsetSize({b}, s.dying);
    }
  }

  /** The pool is destroyed at most once, exactly when its last reference goes, and then
      nothing is left that could still touch it. */
  lemma DestroyedOnceUnused(s: State)
    requires Reachable(s)
    ensures s.destroyed == (if s.refs == 0 then 1 else 0)
    ensures s.destroyed > 0 ==> forall a :: !Enabled(s, a)
    ensures s.holders == 0 && s.live == map[] && s.dying == {} && s.dropping == 0 ==> s.destroyed == 1
  {
    ReachableInv(s);
    PendingFits(s);
  }

  /** A block is never handed out twice: what Alloc returns was neither out nor dying, and
      comes back with one reference. */
  lemma AllocIsFresh(s: State, memory: bool)
    requires Reachable(s) && Enabled(s, AllocTake(memory))
    ensures var s' := Do(s, AllocTake(memory));
            if s.avail == [] && !memory then s' == s
            else exists b :: b !in s.live && b !in s.dying && s'.live == s.live[b := 1] && s'.pending == s.pending + {b}
  {
    ReachableInv(s);
    var g := Grown(s, memory);
    if g.avail != [] {
      assert g.avail[0] !in s.live;
    }
  }

  /** A block is used only while it is out, and it is out exactly while somebody has a reference:
      one that is dying or on the list has no holder left. */
  lemma OutWhileHeld(s: State, b: nat)
    requires Reachable(s)
    ensures b in s.live <==> s.holds[b] > 0
    ensures b in s.live ==> s.live[b] == s.holds[b]
    ensures b in s.dying || b in s.avail ==> s.holds[b] == 0
    ensures !s.crashed
  {
    ReachableInv(s);
  }

  /** Release gives a block up exactly if it was the last reference. */
  lemma LastReleaseExactly(s: State, b: nat)
    requires Reachable(s) && Enabled(s, BlockRelease(b))
    ensures b in Do(s, BlockRelease(b)).dying <==> s.holds[b] == 1
    ensures b !in Do(s, BlockRelease(b)).live <==> s.holds[b] == 1
  {
    ReachableInv(s);
  }
}
