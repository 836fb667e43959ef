/** The reactor's ring of connections and its idle sweep. */
module SockReactors {
  import opened Rings

  /** What the sweep looks at in a connection. */
  datatype Eventer = Eventer(id: nat, active: int, idleCheck: bool)

  // ---------------------------------------------------------------------------------------
  // The sweep as a function
  // ---------------------------------------------------------------------------------------

  // Connections are listed in the order in which sweeps inspect them: the successor of
  // eventer_circle_ comes first, eventer_circle_ itself last.

  /** HandleIdleTimeout switches the idle check off; set_active follows. */
  function Passed(e: Eventer, now: int): Eventer {
    e.(active := now, idleCheck := false)
  }

  predicate Expired(e: Eventer, current: int, timeout: int) {
    current - e.active >= timeout
  }

  /** The sweep from position k on; clock[0] is read at the start and clock[k + 1] after the
      k-th inspection.  The result is the list with its updates and the number of members
      inspected. */
  function Scan(order: seq<Eventer>, k: nat, clock: seq<int>, timeout: int): (r: (seq<Eventer>, nat))
    requires k < |order| < |clock|
    ensures |r.0| == |order| && k < r.1 <= |order|
    decreases |order| - k
  {
    var e := order[k];
    if e.idleCheck && !Expired(e, clock[0], timeout) then (order, k + 1)
    else
      var order' := order[k := Passed(e, clock[k + 1])];
      if k + 1 < |order| && clock[k + 1] == clock[0] then Scan(order', k + 1, clock, timeout)
      else (order', k + 1)
  }

  /** The list from place k on and then from the start. */
  function From<T>(xs: seq<T>, k: nat): seq<T>
    requires k <= |xs|
  {
    xs[k..] + xs[..k]
  }

  /** The list after a whole sweep: the inspected members go to the end. */
  function Swept(order: seq<Eventer>, clock: seq<int>, timeout: int): (o: seq<Eventer>)
    requires |order| < |clock|
    ensures |o| == |order|
  {
    if order == [] then []
    else
      var (o, p) := Scan(order, 0, clock, timeout);
      From(o, p)
  }

  function Inspected(order: seq<Eventer>, clock: seq<int>, timeout: int): nat
    requires 0 < |order| < |clock|
  {
    Scan(order, 0, clock, timeout).1
  }

  /** HandleIdleTimeout is called for the member at position i. */
  predicate Fires(order: seq<Eventer>, clock: seq<int>, timeout: int, i: nat)
    requires i < |order| < |clock|
  {
    order[i].idleCheck && !Scan(order, 0, clock, timeout).0[i].idleCheck
  }

  predicate SameIds(xs: seq<Eventer>, ys: seq<Eventer>) {
    |xs| == |ys| && forall i :: 0 <= i < |xs| ==> xs[i].id == ys[i].id
  }

  /** What a scan does to each member: before k and from the end on nothing; in between each
      is passed, except that the last one may have stopped the scan. */
  lemma {:induction false} ScanEffect(order: seq<Eventer>, k: nat, clock: seq<int>, timeout: int)
    requires k < |order| < |clock|
    ensures var (o, p) := Scan(order, k, clock, timeout);
            && (forall i :: 0 <= i < k || p <= i < |order| ==> o[i] == order[i])
            && (forall i :: k <= i < p ==>
                  if order[i].idleCheck && !Expired(order[i], clock[0], timeout) then i == p - 1 && o[i] == order[i]
                  else o[i] == Passed(order[i], clock[i + 1]))
    decreases |order| - k
  {
    var e := order[k];
    var order' := order[k := Passed(e, clock[k + 1])];
    assert forall i :: 0 <= i < |order| && i != k ==> order'[i] == order[i];
    if e.idleCheck && !Expired(e, clock[0], timeout) {
      assert Scan(order, k, clock, timeout) == (order, k + 1);
    } else if k + 1 < |order| && clock[k + 1] == clock[0] {
      ScanEffect(order', k + 1, clock, timeout);
    }
  }

  /** One sweep: membership and order are kept, the cursor moves past exactly the inspected
      members, at least one and each once; HandleIdleTimeout is called exactly for the
      inspected members whose idle check is on and whose silence has lasted long enough. */
  lemma SweepRotates(order: seq<Eventer>, clock: seq<int>, timeout: int)
    requires 0 < |order| < |clock|
    ensures var p := Inspected(order, clock, timeout);
            && 1 <= p <= |order|
            && SameIds(Swept(order, clock, timeout), From(order, p))
            && (forall i :: 0 <= i < |order| ==>
                  (Fires(order, clock, timeout, i)
                   <==> i < p && order[i].idleCheck && Expired(order[i], clock[0], timeout)))
  {
    ScanEffect(order, 0, clock, timeout);
  }

  /** The member at position i ends the sweep: it is not due yet, or the second is over. */
  predicate Stops(order: seq<Eventer>, clock: seq<int>, timeout: int, i: nat)
    requires i < |order| < |clock|
  {
    (order[i].idleCheck && !Expired(order[i], clock[0], timeout)) || clock[i + 1] != clock[0]
  }

  lemma {:induction false} ScanExtent(order: seq<Eventer>, k: nat, clock: seq<int>, timeout: int)
    requires k < |order| < |clock|
    ensures var p := Scan(order, k, clock, timeout).1;
            && (forall i :: k <= i < p - 1 ==> !Stops(order, clock, timeout, i))
            && (p == |order| || Stops(order, clock, timeout, p - 1))
    decreases |order| - k
  {
    var e := order[k];
    var order' := order[k := Passed(e, clock[k + 1])];
    if !(e.idleCheck && !Expired(e, clock[0], timeout)) && k + 1 < |order| && clock[k + 1] == clock[0] {
      ScanExtent(order', k + 1, clock, timeout);
      assert forall i :: k < i < |order| ==> Stops(order', clock, timeout, i) == Stops(order, clock, timeout, i);
    }
  }

  /** How far a sweep goes: up to the first member that stops it, or once round. */
  lemma InspectedExactly(order: seq<Eventer>, clock: seq<int>, timeout: int, p: nat)
    requires 0 < |order| < |clock| && 0 < p <= |order|
    ensures p == Inspected(order, clock, timeout)
            <==> (p == |order| || Stops(order, clock, timeout, p - 1))
                 && forall i :: 0 <= i < p - 1 ==> !Stops(order, clock, timeout, i)
  {
    ScanExtent(order, 0, clock, timeout);
  }

  /** Within one second, all due members ahead of the first one not yet due fire in one sweep. */
  lemma DueMembersFire(order: seq<Eventer>, clock: seq<int>, timeout: int, m: nat)
    requires m < |order| < |clock| && forall i :: 0 <= i < m ==> !Stops(order, clock, timeout, i)
    ensures forall i :: 0 <= i <= m && order[i].idleCheck && Expired(order[i], clock[0], timeout) ==>
              Fires(order, clock, timeout, i)
  {
    ScanExtent(order, 0, clock, timeout);
    SweepRotates(order, clock, timeout);
  }

  /** What the sweep leaves behind: an inspected member is active from the reading after its
      inspection and fires no more, but one that was not due is left as it was, like those the
      sweep did not come to. */
  lemma SweptMember(order: seq<Eventer>, clock: seq<int>, timeout: int, i: nat)
    requires i < |order| < |clock|
    ensures var p := Inspected(order, clock, timeout);
            Swept(order, clock, timeout)[if i < p then |order| - p + i else i - p] ==
            if i < p && !(order[i].idleCheck && !Expired(order[i], clock[0], timeout))
            then Eventer(order[i].id, clock[i + 1], false) else order[i]
  {
    ScanEffect(order, 0, clock, timeout);
  }

  // ---------------------------------------------------------------------------------------
  // Runs of the reactor
  // ---------------------------------------------------------------------------------------

  datatype Event =
    | Sweep(clock: seq<int>)
    | Unbind(i: nat)                 // the member at position i leaves
    | Touch(i: nat, at: int)         // the member at position i becomes active
    | Join(e: Eventer)               // a connection is bound

  predicate NonDecreasing(clock: seq<int>) {
    forall i, j :: 0 <= i <= j < |clock| ==> clock[i] <= clock[j]
  }

  predicate Possible(order: seq<Eventer>, now: int, ev: Event) {
    match ev
    case Sweep(clock) => |order| < |clock| && now <= clock[0] && NonDecreasing(clock)
    case Unbind(i) => i < |order|
    case Touch(i, at) => i < |order| && now <= at
    case Join(e) => forall i :: 0 <= i < |order| ==> order[i].id != e.id
  }

  function Remove<T>(order: seq<T>, i: nat): seq<T>
    requires i < |order|
  {
    order[..i] + order[i + 1..]
  }

  /** Bind puts the new member in front of the cursor and makes it the cursor: the old cursor
      is inspected again first, the new member last. */
  function Joined(order: seq<Eventer>, e: Eventer): seq<Eventer> {
    if order == [] then [e] else [order[|order| - 1]] + order[..|order| - 1] + [e]
  }

  function Next(order: seq<Eventer>, now: int, ev: Event, timeout: int): (seq<Eventer>, int)
    requires Possible(order, now, ev)
  {
    match ev
    case Sweep(clock) => (Swept(order, clock, timeout), clock[|clock| - 1])
    case Unbind(i) => (Remove(order, i), now)
    case Touch(i, at) => (order[i := order[i].(active := at)], at)
    case Join(e) => (Joined(order, e), now)
  }

  predicate Possibles(order: seq<Eventer>, now: int, evs: seq<Event>, timeout: int)
    decreases |evs|
  {
    evs != [] ==>
      Possible(order, now, evs[0])
      && var (o, t) := Next(order, now, evs[0], timeout); Possibles(o, t, evs[1..], timeout)
  }

  /** HandleIdleTimeout is called for this connection in this event. */
  predicate FiresNow(order: seq<Eventer>, ev: Event, timeout: int, id: nat) {
    ev.Sweep? && |order| < |ev.clock|
    && exists i: nat :: i < |order| && order[i].id == id && Fires(order, ev.clock, timeout, i)
  }

  /** How often HandleIdleTimeout is called for it in a run. */
  function Firings(order: seq<Eventer>, now: int, evs: seq<Event>, timeout: int, id: nat): nat
    requires Possibles(order, now, evs, timeout)
    decreases |evs|
  {
    if evs == [] then 0
    else
      var (o, t) := Next(order, now, evs[0], timeout);
      (if FiresNow(order, evs[0], timeout, id) then 1 else 0) + Firings(o, t, evs[1..], timeout, id)
  }

  predicate Unique(order: seq<Eventer>) {
    forall i, j :: 0 <= i < j < |order| ==> order[i].id != order[j].id
  }

  /** The connection may still be timed out. */
  predicate Armed(order: seq<Eventer>, id: nat) {
    exists i :: 0 <= i < |order| && order[i].id == id && order[i].idleCheck
  }

  lemma SweptUnique(order: seq<Eventer>, clock: seq<int>, timeout: int)
    requires Unique(order) && |order| < |clock|
    ensures Unique(Swept(order, clock, timeout))
  {
    if order != [] {
      SweepRotates(order, clock, timeout);
    }
  }

  lemma NextUnique(order: seq<Eventer>, now: int, ev: Event, timeout: int)
    requires Unique(order) && Possible(order, now, ev)
    ensures Unique(Next(order, now, ev, timeout).0)
  {
    if ev.Sweep? {
      SweptUnique(order, ev.clock, timeout);
    }
  }

  /** A sweep disarms what it fires and arms nothing. */
  lemma SweepDisarms(order: seq<Eventer>, clock: seq<int>, timeout: int, id: nat)
    requires Unique(order) && |order| < |clock|
    ensures FiresNow(order, Sweep(clock), timeout, id) ==> Armed(order, id)
    ensures Armed(Swept(order, clock, timeout), id) ==> Armed(order, id) && !FiresNow(order, Sweep(clock), timeout, id)
  {
    if order != [] {
      ScanEffect(order, 0, clock, timeout);
      SweepRotates(order, clock, timeout);
      var (o, p) := Scan(order, 0, clock, timeout);
      var s := Swept(order, clock, timeout);
      if Armed(s, id) {
        var i :| 0 <= i < |s| && s[i].id == id && s[i].idleCheck;
        var j := if i < |order| - p then p + i else i - (|order| - p);
        assert s[i] == o[j] && order[j].id == id && order[j].idleCheck;
      }
    }
  }

  /** At most one idle timeout per life: with the connection bound at most once, a run calls
      HandleIdleTimeout for it at most once, and never if the check is off. */
  lemma {:induction false} FiresAtMostOnce(order: seq<Eventer>, now: int, evs: seq<Event>, timeout: int, id: nat)
    requires Unique(order) && Possibles(order, now, evs, timeout)
    requires forall i :: 0 <= i < |evs| && evs[i].Join? ==> evs[i].e.id != id
    ensures Firings(order, now, evs, timeout, id) <= if Armed(order, id) then 1 else 0
    decreases |evs|
  {
    if evs != [] {
      var (o, t) := Next(order, now, evs[0], timeout);
      NextUnique(order, now, evs[0], timeout);
      FiresAtMostOnce(o, t, evs[1..], timeout, id);
      if evs[0].Sweep? {
        SweepDisarms(order, evs[0].clock, timeout, id);
      } else {
        ArmedBefore(order, now, evs[0], timeout, id);
      }
    }
  }

  lemma ArmedBefore(order: seq<Eventer>, now: int, ev: Event, timeout: int, id: nat)
    requires Possible(order, now, ev) && !ev.Sweep? && (ev.Join? ==> ev.e.id != id)
    ensures Armed(Next(order, now, ev, timeout).0, id) ==> Armed(order, id)
  {
    var o := Next(order, now, ev, timeout).0;
    if Armed(o, id) {
      var i :| 0 <= i < |o| && o[i].id == id && o[i].idleCheck;
      match ev
      case Unbind(k) => assert order[if i < k then i else i + 1] == o[i];
      case Touch(_, _) => assert order[i].id == id;
      case Join(_) =>
        if order != [] {
          assert order[if i == 0 then |order| - 1 else i - 1] == o[i];
        }
    }
  }

  /** At position i there is the connection, silent for long enough, with its check on. */
  predicate Due(order: seq<Eventer>, now: int, timeout: int, id: nat, i: nat) {
    i < |order| && order[i].id == id && order[i].idleCheck && Expired(order[i], now, timeout)
  }

  /** Until it is timed out, the connection stays silent and bound. */
  predicate LeftAlone(order: seq<Eventer>, now: int, evs: seq<Event>, timeout: int, id: nat)
    requires Possibles(order, now, evs, timeout)
    decreases |evs|
  {
    evs == [] || FiresNow(order, evs[0], timeout, id)
    || (&& (evs[0].Unbind? ==> order[evs[0].i].id != id)
        && (evs[0].Touch? ==> order[evs[0].i].id != id)
        && var (o, t) := Next(order, now, evs[0], timeout); LeftAlone(o, t, evs[1..], timeout, id))
  }

  function Sweeps(evs: seq<Event>): nat {
    if evs == [] then 0 else (if evs[0].Sweep? then 1 else 0) + Sweeps(evs[1..])
  }

  function Joins(evs: seq<Event>): nat {
    if evs == [] then 0 else (if evs[0].Join? then 1 else 0) + Joins(evs[1..])
  }

  /** One event moves a due connection nearer to its inspection or times it out; only a Bind can
      move it away, by one place. */
  lemma DueAdvances(order: seq<Eventer>, now: int, ev: Event, timeout: int, id: nat, i: nat) returns (j: nat)
    requires Unique(order) && Due(order, now, timeout, id, i) && Possible(order, now, ev)
    requires (ev.Unbind? || ev.Touch?) ==> order[ev.i].id != id
    requires !FiresNow(order, ev, timeout, id)
    ensures var (o, t) := Next(order, now, ev, timeout); Due(o, t, timeout, id, j)
    ensures j <= (if ev.Join? then i + 1 else i) && (ev.Sweep? ==> j < i)
  {
    match ev
    case Sweep(clock) =>
      ScanEffect(order, 0, clock, timeout);
      SweepRotates(order, clock, timeout);
      var p := Inspected(order, clock, timeout);
      assert i >= p;
      j := i - p;
      assert Swept(order, clock, timeout)[j] == order[i];
    case Unbind(k) =>
      j := if k < i then i - 1 else i;
    case Touch(_, _) =>
      j := i;
    case Join(e) =>
      j := if i == |order| - 1 then 0 else i + 1;
      assert Joined(order, e)[j] == order[i];
  }

  /** The idle bound: a connection that is due at position i gets HandleIdleTimeout before the
      sweeps outnumber i and the Binds together, whatever else leaves or becomes active in
      between; without a Bind, within as many sweeps as the ring has members. */
  lemma {:induction false} IdleBound(order: seq<Eventer>, now: int, evs: seq<Event>, timeout: int, id: nat, i: nat)
    requires Unique(order) && Due(order, now, timeout, id, i)
    requires Possibles(order, now, evs, timeout) && LeftAlone(order, now, evs, timeout, id)
    requires Sweeps(evs) > i + Joins(evs)
    ensures Firings(order, now, evs, timeout, id) >= 1
    decreases |evs|
  {
    var (o, t) := Next(order, now, evs[0], timeout);
    NextUnique(order, now, evs[0], timeout);
    if !FiresNow(order, evs[0], timeout, id) {
      var j := DueAdvances(order, now, evs[0], timeout, id, i);
      IdleBound(o, t, evs[1..], timeout, id, j);
    }
  }

  /** Timer sleeps this many seconds after a sweep. */
  const IDLE_CHECK_INTERVAL := 5

  /** A sweep starts no sooner than that after the last reading of the one before. */
  predicate Paced(last: int, evs: seq<Event>)
    decreases |evs|
  {
    evs != [] ==>
      if evs[0].Sweep? then
        evs[0].clock != [] && evs[0].clock[0] >= last + IDLE_CHECK_INTERVAL
        && Paced(evs[0].clock[|evs[0].clock| - 1], evs[1..])
      else Paced(last, evs[1..])
  }

  predicate Below(order: seq<Eventer>, nextId: nat) {
    forall i :: 0 <= i < |order| ==> order[i].id < nextId
  }

  /** A clock whose second changes during the first inspection. */
  function Ticking(n: nat, start: int): (clock: seq<int>)
    ensures |clock| == n + 2 && clock[0] == start && forall i :: 1 <= i < n + 2 ==> clock[i] == start + 1
    ensures NonDecreasing(clock)
  {
    seq(n + 2, i => if i == 0 then start else start + 1)
  }

  /** With such a clock a sweep inspects one member. */
  lemma OneInspected(order: seq<Eventer>, start: int, timeout: int)
    requires |order| >= 2 && Unique(order)
    ensures var clock := Ticking(|order|, start);
            Inspected(order, clock, timeout) == 1
            && forall i :: 0 < i < |order| ==>
                 !FiresNow(order, Sweep(clock), timeout, order[i].id) && Swept(order, clock, timeout)[i - 1] == order[i]
  {
    var clock := Ticking(|order|, start);
    ScanEffect(order, 0, clock, timeout);
    assert Inspected(order, clock, timeout) == 1;
  }

  /** A run with one more event in front that does not time the connection out. */
  lemma OneMore(order: seq<Eventer>, now: int, ev: Event, timeout: int, id: nat, rest: seq<Event>)
    requires Possible(order, now, ev) && !FiresNow(order, ev, timeout, id)
    requires (ev.Unbind? || ev.Touch?) ==> order[ev.i].id != id
    requires var (o, t) := Next(order, now, ev, timeout);
             && Possibles(o, t, rest, timeout) && LeftAlone(o, t, rest, timeout, id)
             && Firings(o, t, rest, timeout, id) == 0
    ensures var evs := [ev] + rest;
            && Possibles(order, now, evs, timeout) && LeftAlone(order, now, evs, timeout, id)
            && Firings(order, now, evs, timeout, id) == 0
            && Sweeps(evs) == Sweeps(rest) + (if ev.Sweep? then 1 else 0)
            && Joins(evs) == Joins(rest) + (if ev.Join? then 1 else 0)
  {
    assert ([ev] + rest)[1..] == rest;
  }

  lemma PacedRound(last: int, evs: seq<Event>, rest: seq<Event>)
    requires |evs| == |rest| + 3 && evs[3..] == rest && !evs[0].Sweep? && !evs[1].Sweep? && evs[2].Sweep?
    requires evs[2].clock != [] && evs[2].clock[0] >= last + IDLE_CHECK_INTERVAL
    requires Paced(evs[2].clock[|evs[2].clock| - 1], rest)
    ensures Paced(last, evs)
  {
    assert evs[1..][1..] == evs[2..] && evs[2..][1..] == rest;
    assert Paced(last, evs[2..]);
    assert Paced(last, evs[1..]);
  }

  /** The bound is sharp: in every ring of two members or more there are, for every number of
      Binds, paced runs with exactly i sweeps more than Binds that pass the connection over. */
  lemma {:induction false} IdleBoundTight(order: seq<Eventer>, now: int, timeout: int, i: nat, joins: nat, nextId: nat)
    returns (evs: seq<Event>)
    requires |order| >= 2 && Unique(order) && Below(order, nextId)
    requires i < |order| && Due(order, now, timeout, order[i].id, i)
    ensures Possibles(order, now, evs, timeout) && LeftAlone(order, now, evs, timeout, order[i].id)
    ensures Paced(now, evs) && Sweeps(evs) == i + joins && Joins(evs) == joins
    ensures Firings(order, now, evs, timeout, order[i].id) == 0
    decreases joins, i
  {
    if i > 0 {
      var clock := Ticking(|order|, now + IDLE_CHECK_INTERVAL);
      OneInspected(order, now + IDLE_CHECK_INTERVAL, timeout);
      NextUnique(order, now, Sweep(clock), timeout);
      SweepRotates(order, clock, timeout);
      var rest := IdleBoundTight(Swept(order, clock, timeout), clock[|clock| - 1], timeout, i - 1, joins, nextId);
      OneMore(order, now, Sweep(clock), timeout, order[i].id, rest);
      evs := [Sweep(clock)] + rest;
      assert evs[1..] == rest;
    } else if joins > 0 {
      var e := Eventer(nextId, now, true);
      NextUnique(order, now, Join(e), timeout);
      assert Joined(order, e)[1] == order[0];
      var rest := IdleBoundTight(Joined(order, e), now, timeout, 1, joins - 1, nextId + 1);
      OneMore(order, now, Join(e), timeout, order[0].id, rest);
      evs := [Join(e)] + rest;
      assert evs[1..] == rest;
    } else {
      evs := [];
    }
  }

  // One round that keeps a due connection waiting: the cursor is active, a connection is bound,
  // and the sweep stops at the old cursor, which it meets first.

  function Active(order: seq<Eventer>, at: int): seq<Eventer>
    requires order != []
  {
    order[|order| - 1 := order[|order| - 1].(active := at)]
  }

  /** The members in inspection order after the round. */
  function AfterRound(order: seq<Eventer>, e: Eventer, at: int): seq<Eventer>
    requires order != []
  {
    order[..|order| - 1] + [e, order[|order| - 1].(active := at)]
  }

  function Still(n: nat, at: int): (clock: seq<int>)
    ensures |clock| == n && forall i :: 0 <= i < n ==> clock[i] == at
  {
    seq(n, i => at)
  }

  lemma RoundSweep(order: seq<Eventer>, timeout: int, e: Eventer, at: int)
    requires |order| >= 2 && timeout > 0 && order[|order| - 1].idleCheck
    ensures var joined, clock := Joined(Active(order, at), e), Still(|order| + 2, at);
            && Swept(joined, clock, timeout) == AfterRound(order, e, at)
            && forall id :: !FiresNow(joined, Sweep(clock), timeout, id)
  {
    var joined := Joined(Active(order, at), e);
    assert Scan(joined, 0, Still(|order| + 2, at), timeout) == (joined, 1);
  }

  lemma RoundRun(order: seq<Eventer>, now: int, timeout: int, e: Eventer, at: int, rest: seq<Event>)
    returns (evs: seq<Event>)
    requires |order| >= 2 && timeout > 0 && Unique(order) && Below(order, e.id)
    requires order[|order| - 1].idleCheck && at == now + IDLE_CHECK_INTERVAL && Paced(at, rest)
    requires var o := AfterRound(order, e, at);
             && Possibles(o, at, rest, timeout) && LeftAlone(o, at, rest, timeout, order[0].id)
             && Firings(o, at, rest, timeout, order[0].id) == 0
    ensures Possibles(order, now, evs, timeout) && LeftAlone(order, now, evs, timeout, order[0].id)
    ensures Paced(now, evs) && Sweeps(evs) == Sweeps(rest) + 1
    ensures Firings(order, now, evs, timeout, order[0].id) == 0
  {
    var clock := Still(|order| + 2, at);
    RoundSweep(order, timeout, e, at);
    OneMore(Joined(Active(order, at), e), at, Sweep(clock), timeout, order[0].id, rest);
    OneMore(Active(order, at), at, Join(e), timeout, order[0].id, [Sweep(clock)] + rest);
    OneMore(order, now, Touch(|order| - 1, at), timeout, order[0].id, [Join(e)] + ([Sweep(clock)] + rest));
    evs := [Touch(|order| - 1, at)] + ([Join(e)] + ([Sweep(clock)] + rest));
    PacedRound(now, evs, rest);
  }

  lemma RoundKeepsWaiting(order: seq<Eventer>, now: int, timeout: int, e: Eventer, at: int)
    requires |order| >= 2 && Unique(order) && Below(order, e.id) && now <= at
    requires Due(order, now, timeout, order[0].id, 0) && order[|order| - 1].idleCheck
    ensures var o := AfterRound(order, e, at);
            && Unique(o) && Below(o, e.id + 1) && o[0] == order[0]
            && Due(o, at, timeout, o[0].id, 0) && o[|o| - 1].idleCheck
  {
  }

  /** With a Bind before each sweep there is no bound on the sweeps alone: however many sweeps, a
      connection that has long been due can wait for all of them. */
  lemma {:induction false} BindsStarve(order: seq<Eventer>, now: int, timeout: int, sweeps: nat, nextId: nat)
    returns (evs: seq<Event>)
    requires |order| >= 2 && timeout > 0 && Unique(order) && Below(order, nextId)
    requires Due(order, now, timeout, order[0].id, 0) && order[|order| - 1].idleCheck
    ensures Possibles(order, now, evs, timeout) && LeftAlone(order, now, evs, timeout, order[0].id)
    ensures Paced(now, evs) && Sweeps(evs) == sweeps
    ensures Firings(order, now, evs, timeout, order[0].id) == 0
    decreases sweeps
  {
    if sweeps == 0 {
      evs := [];
    } else {
      var at := now + IDLE_CHECK_INTERVAL;
      var e := Eventer(nextId, at, true);
      RoundKeepsWaiting(order, now, timeout, e, at);
      var rest := BindsStarve(AfterRound(order, e, at), at, timeout, sweeps - 1, nextId + 1);
      evs := RoundRun(order, now, timeout, e, at, rest);
    }
  }

  // ---------------------------------------------------------------------------------------
  // The object
  // ---------------------------------------------------------------------------------------

  /** The ring seen from the k-th inspected member. */
  lemma Toured(ring: seq<Node<Eventer>>, k: nat)
    requires ring != [] && Ring(ring[0], ring) && k < |ring|
    ensures Ring(Turned(ring)[k], From(Turned(ring), k))
  {
    if k == |ring| - 1 {
      assert From(Turned(ring), k) == ring;
    } else {
      Rotated(ring[0], ring, k + 1);
      assert From(Turned(ring), k) == ring[k + 1..] + ring[..k + 1];
    }
  }

  lemma TurnedFrom<T>(xs: seq<T>, k: nat)
    requires 0 < k <= |xs|
    ensures Turned(From(xs, k - 1)) == From(xs, k)
  {
    var x := From(xs, k - 1);
    assert x[0] == xs[k - 1] && x[1..] == xs[k..] + xs[..k - 1];
    assert xs[..k] == xs[..k - 1] + [xs[k - 1]];
  }

  lemma HeldFrom(nodes: seq<Node<Eventer>>, items: seq<Eventer>, k: nat)
    requires Holds(nodes, items) && k <= |nodes|
    ensures Holds(From(nodes, k), From(items, k))
  {
  }

  /** What the reactor holds once the cursor has moved. */
  lemma Landed(ring: seq<Node<Eventer>>, items: seq<Eventer>, k: nat)
    returns (seen: seq<Node<Eventer>>, members: seq<Eventer>)
    requires ring != [] && Ring(ring[0], ring) && Holds(Turned(ring), items) && 0 < k <= |ring|
    ensures Ring(Turned(ring)[k - 1], seen) && Holds(seen, members)
    ensures seen == From(Turned(ring), k - 1) && Turned(members) == From(items, k)
  {
    Toured(ring, k - 1);
    TurnedFrom(items, k);
    HeldFrom(Turned(ring), items, k - 1);
    seen, members := From(Turned(ring), k - 1), From(items, k - 1);
  }

  /** The ring's nodes in inspection order, as the links give them. */
  ghost predicate Tour(cursor: Node<Eventer>, tour: seq<Node<Eventer>>)
    reads tour`next
  {
    && tour != [] && Distinct(tour) && tour[|tour| - 1] == cursor
    && tour[|tour| - 1].next == tour[0]
    && forall i :: 0 <= i < |tour| - 1 ==> tour[i].next == tour[i + 1]
  }

  lemma Tours(cursor: Node<Eventer>, ring: seq<Node<Eventer>>)
    requires Ring(cursor, ring)
    ensures Tour(cursor, Turned(ring))
  {
    var tour := Turned(ring);
    forall i | 0 <= i < |tour| - 1 ensures tour[i].next == tour[i + 1] {
      assert tour[i] == ring[i + 1];
    }
  }

  /** One inspection, as the loop makes it. */
  lemma ScanStep(order: seq<Eventer>, k: nat, clock: seq<int>, timeout: int)
    requires k < |order| < |clock|
    ensures var e := order[k];
            var order' := order[k := Passed(e, clock[k + 1])];
            Scan(order, k, clock, timeout) ==
              if e.idleCheck && !Expired(e, clock[0], timeout) then (order, k + 1)
              else if k + 1 < |order| && clock[k + 1] == clock[0] then Scan(order', k + 1, clock, timeout)
              else (order', k + 1)
  {
  }

  /** The ring gains a member at the entry. */
  lemma JoinedMember(members: seq<Eventer>, e: Eventer)
    ensures Turned([e] + members) == Joined(Turned(members), e)
  {
  }

  /** The ring loses its k-th member. */
  lemma RemovedMember<T>(xs: seq<T>, k: nat)
    requires k < |xs|
    ensures Turned(Without(xs, k)) == Remove(Turned(xs), if k == 0 then |xs| - 1 else k - 1)
  {
  }

  class SockReactor {
    const idleTimeout_: int
    var eventerCircle_: Node?<Eventer>
    ghost var ring: seq<Node<Eventer>>
    ghost var members: seq<Eventer>

    ghost predicate Valid()
      reads this, ring
    {
      Ring(eventerCircle_, ring) && Holds(ring, members)
    }

    /** The members in inspection order. */
    ghost function Order(): seq<Eventer>
      reads this
    {
      Turned(members)
    }

    constructor (idleTimeout: int)
      ensures Valid() && Order() == [] && idleTimeout_ == idleTimeout
    {
      idleTimeout_ := idleTimeout;
      eventerCircle_, ring, members := null, [], [];
    }

    /** Bind, after HandleBind succeeded. */
    method Bind(eventer: Node<Eventer>, now: int)
      requires Valid() && eventer !in ring
      modifies this, eventer, ring
      ensures Valid() && ring == [eventer] + old(ring)
      ensures Order() == Joined(old(Order()), old(eventer.item).(active := now))
    {
      var item := eventer.item.(active := now);
      Link(eventer, eventerCircle_, item, ring, members);
      eventerCircle_ := eventer;
      JoinedMember(members, item);
      ring, members := [eventer] + ring, [item] + members;
    }

    /** UnBind of the member at place k of the ring. */
    method UnBind(eventer: Node<Eventer>, ghost k: nat)
      requires Valid() && k < |ring| && eventer == ring[k]
      modifies this, ring
      ensures Valid() && ring == Without(old(ring), k)
      ensures Order() == Remove(old(Order()), if k == 0 then |old(ring)| - 1 else k - 1)
    {
      eventerCircle_ := LeaveAt(eventer, eventerCircle_, ring, k);
      StillHolds(ring, members, k);
      RemovedMember(members, k);
      ring, members := Without(ring, k), Without(members, k);
    }

    /** The loop of Timer: from the cursor on it inspects and passes members. */
    method Walk(cursor: Node<Eventer>, clock: seq<int>, ghost tour: seq<Node<Eventer>>, ghost order: seq<Eventer>)
      returns (next: Node<Eventer>, ghost items: seq<Eventer>, ghost k: nat)
      requires Tour(cursor, tour) && Holds(tour, order) && |tour| < |clock|
      modifies tour`item
      ensures 0 < k <= |tour| && Scan(order, 0, clock, idleTimeout_) == (items, k)
      ensures next == tour[k - 1] && Holds(tour, items)
    {
      var start, current, readings := clock[0], clock[0], 1;
      next, items, k := cursor, order, 0;
      var go := true;
      while go
        invariant k <= |tour| && Holds(tour, items)
        invariant next == if k == 0 then cursor else tour[k - 1]
        invariant go ==> k < |tour| && readings == k + 1 && current == start
                         && Scan(items, k, clock, idleTimeout_) == Scan(order, 0, clock, idleTimeout_)
        invariant !go ==> Scan(order, 0, clock, idleTimeout_) == (items, k) && 0 < k
        decreases go, |tour| - k
      {
        ScanStep(items, k, clock, idleTimeout_);
        next, k := next.next, k + 1;
        assert next == tour[k - 1];
        if next.item.idleCheck && current - next.item.active < idleTimeout_ {
          break;
        }
        if next.item.idleCheck {
          next.item := next.item.(idleCheck := false);
        }
        current, readings := clock[readings], readings + 1;
        next.item := next.item.(active := current);
        items := items[k - 1 := next.item];
        go := next != cursor && current == start;
      }
    }

    /** The sweep of a ring that has members. */
    method Sweep(clock: seq<int>) returns (ghost inspected: nat)
      requires Valid() && 0 < |ring| < |clock|
      modifies this, ring`item
      ensures Valid() && 0 < inspected == Inspected(old(Order()), clock, idleTimeout_) <= |old(ring)|
      ensures ring == From(Turned(old(ring)), inspected - 1)
      ensures Order() == Swept(old(Order()), clock, idleTimeout_)
    {
      Tours(eventerCircle_, ring);
      ghost var order, items := Turned(members), [];
      eventerCircle_, items, inspected := Walk(eventerCircle_, clock, Turned(ring), order);
      assert Swept(order, clock, idleTimeout_) == From(items, inspected);
      ring, members := Landed(ring, items, inspected);
    }

    /** One sweep of Timer; `clock` are the readings of time() it makes. */
    method SweepOnce(clock: seq<int>) returns (ghost inspected: nat)
      requires Valid() && |ring| < |clock|
      modifies this, ring`item
      ensures Valid() && Order() == Swept(old(Order()), clock, idleTimeout_)
      ensures old(ring) == [] ==> ring == [] && inspected == 0
      ensures old(ring) != [] ==>
                && 0 < inspected == Inspected(old(Order()), clock, idleTimeout_) <= |old(ring)|
                && ring == From(Turned(old(ring)), inspected - 1)
    {
      inspected := 0;
      if eventerCircle_ != null {
        inspected := Sweep(clock);
      }
    }

    /** The destructor's walk: HandleTerminate for every member once, in ring order, although
        each call may recycle its member and, as the proxy's does, one terminated before. */
    method TerminateAll() returns (terminated: seq<Node<Eventer>>)
      requires Valid()
      modifies this, ring
      ensures terminated == old(ring)
    {
      terminated := [];
      if eventerCircle_ != null {
        var next := eventerCircle_;
        var go := true;
        while go
          invariant ring == old(ring) && eventerCircle_ == ring[0] && Distinct(ring)
          invariant |terminated| <= |ring| && terminated == ring[..|terminated|]
          invariant next == if |terminated| == |ring| then ring[0] else ring[|terminated|]
          invariant go <==> |terminated| < |ring|
          invariant forall i :: |terminated| <= i < |ring| - 1 ==> ring[i].next == ring[i + 1]
          invariant |terminated| < |ring| ==> ring[|ring| - 1].next == ring[0]
          decreases |ring| - |terminated|
        {
          assert next == ring[|terminated|];
          var p := next;
          next := next.next;
          terminated := terminated + [p];
          var earlier: int := *;
          if 0 <= earlier < |terminated| {
            terminated[earlier].prev, terminated[earlier].next := null, null;
          }
          if * {
            p.prev, p.next := null, null;
          }
          go := next != eventerCircle_;
        }
      }
    }
  }
}
