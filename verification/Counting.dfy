/** Weighted sums over a sequence of thread phases.  Every protocol invariant of this
    project that speaks of "some thread", "no thread" or "how many threads" is written with
    `Count`, so that one thread moving changes it by a difference of two weights. */
module Counting {

  function Count<T>(xs: seq<T>, f: T -> nat): nat {
    Sum(xs, f, |xs|)
  }

  function Sum<T>(xs: seq<T>, f: T -> nat, n: nat): nat
    requires n <= |xs|
  {
    if n == 0 then 0 else Sum(xs, f, n - 1) + f(xs[n - 1])
  }

  /** The sum looks at the first n elements only. */
  lemma {:induction false} SumPrefix<T>(xs: seq<T>, ys: seq<T>, f: T -> nat, n: nat)
    requires n <= |xs| && n <= |ys|
    requires forall i :: 0 <= i < n ==> xs[i] == ys[i]
    ensures Sum(xs, f, n) == Sum(ys, f, n)
  {
    if n > 0 {
      SumPrefix(xs, ys, f, n - 1);
    }
  }

  lemma {:induction false} SumUpdate<T>(xs: seq<T>, i: nat, x: T, f: T -> nat, n: nat)
    requires i < n <= |xs|
    ensures Sum(xs[i := x], f, n) + f(xs[i]) == Sum(xs, f, n) + f(x)
  {
    if n == i + 1 {
      SumPrefix(xs, xs[i := x], f, i);
    } else {
      SumUpdate(xs, i, x, f, n - 1);
    }
  }

  lemma CountUpdate<T>(xs: seq<T>, i: nat, x: T, f: T -> nat)
    requires i < |xs|
    ensures Count(xs[i := x], f) + f(xs[i]) == Count(xs, f) + f(x)
  {
    SumUpdate(xs, i, x, f, |xs|);
  }

  /** Moving one thread, for every weight at once. */
  lemma Moved<T>(xs: seq<T>, i: nat, x: T)
    requires i < |xs|
    ensures forall f: T -> nat {:trigger Count(xs[i := x], f)} ::
              Count(xs[i := x], f) + f(xs[i]) == Count(xs, f) + f(x)
  {
    forall f: T -> nat ensures Count(xs[i := x], f) + f(xs[i]) == Count(xs, f) + f(x) {
      CountUpdate(xs, i, x, f);
    }
  }

  /** Starting one thread, for every weight at once. */
  lemma Started<T>(xs: seq<T>, x: T)
    ensures forall f: T -> nat {:trigger Count(xs + [x], f)} ::
              Count(xs + [x], f) == Count(xs, f) + f(x)
  {
    forall f: T -> nat ensures Count(xs + [x], f) == Count(xs, f) + f(x) {
      SumPrefix(xs, xs + [x], f, |xs|);
    }
  }

  lemma CountAtLeast<T>(xs: seq<T>, i: nat, f: T -> nat)
    requires i < |xs|
    ensures f(xs[i]) <= Count(xs, f)
  {
    SumAtLeast(xs, i, f, |xs|);
  }

  lemma {:induction false} SumAtLeast<T>(xs: seq<T>, i: nat, f: T -> nat, n: nat)
    requires i < n <= |xs|
    ensures f(xs[i]) <= Sum(xs, f, n)
  {
    if i < n - 1 {
      SumAtLeast(xs, i, f, n - 1);
    }
  }

  /** A positive sum has a positive term. */
  lemma Witness<T>(xs: seq<T>, f: T -> nat) returns (i: nat)
    requires Count(xs, f) > 0
    ensures i < |xs| && f(xs[i]) > 0
  {
    var n := |xs|;
    while f(xs[n - 1]) == 0
      invariant 0 < n <= |xs| && Sum(xs, f, n) > 0
      decreases n
    {
      n := n - 1;
    }
    i := n - 1;
  }

  lemma AllZero<T>(xs: seq<T>, f: T -> nat)
    requires forall i :: 0 <= i < |xs| ==> f(xs[i]) == 0
    ensures Count(xs, f) == 0
  {
    if Count(xs, f) > 0 {
      var i := Witness(xs, f);
      assert false;
    }
  }

  /** A pointwise bound on the weights bounds the sums. */
  lemma {:induction false} SumLe<T>(xs: seq<T>, f: T -> nat, g: T -> nat, n: nat)
    requires n <= |xs|
    requires forall i :: 0 <= i < n ==> f(xs[i]) <= g(xs[i])
    ensures Sum(xs, f, n) <= Sum(xs, g, n)
  {
    if n > 0 {
      SumLe(xs, f, g, n - 1);
    }
  }

  lemma CountLe<T>(xs: seq<T>, f: T -> nat, g: T -> nat)
    requires forall i :: 0 <= i < |xs| ==> f(xs[i]) <= g(xs[i])
    ensures Count(xs, f) <= Count(xs, g)
  {
    SumLe(xs, f, g, |xs|);
  }

  lemma {:induction false} SumAtMost<T>(xs: seq<T>, f: T -> nat, n: nat)
    requires n <= |xs|
    requires forall i :: 0 <= i < |xs| ==> f(xs[i]) <= 1
    ensures Sum(xs, f, n) <= n
  {
    if n > 0 {
      SumAtMost(xs, f, n - 1);
    }
  }

  lemma CountAtMost<T>(xs: seq<T>, f: T -> nat)
    requires forall i :: 0 <= i < |xs| ==> f(xs[i]) <= 1
    ensures Count(xs, f) <= |xs|
  {
    SumAtMost(xs, f, |xs|);
  }

  /** How much n lots of a size come to, lot by lot. */
  function Span(size: nat, n: nat): nat {
    if n == 0 then 0 else Span(size, n - 1) + size
  }

  lemma {:induction false} SpanIsProduct(size: nat, n: nat)
    ensures Span(size, n) == size * n
  {
    if n > 0 {
      SpanIsProduct(size, n - 1);
    }
  }
}
