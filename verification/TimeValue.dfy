/** Times as seconds and microseconds, kept in a normal form. */
module TimeValues {

  const ONE_SECOND_IN_USECS: int := 1000000
  const WORD64: int := 0x1_0000_0000_0000_0000

  datatype Time = Time(sec: int, usec: int)

  function Total(t: Time): int {
    t.sec * ONE_SECOND_IN_USECS + t.usec
  }

  predicate Canonical(t: Time) {
    0 <= t.usec < ONE_SECOND_IN_USECS
  }

  /** The one canonical value with this total. */
  function Canon(total: int): (t: Time)
    ensures Canonical(t) && Total(t) == total
  {
    Time(total / ONE_SECOND_IN_USECS, total % ONE_SECOND_IN_USECS)
  }

  // ---------------------------------------------------------------------------------------
  // Normalize
  // ---------------------------------------------------------------------------------------

  /** Division that rounds towards zero. */
  function Quotient(n: int, d: nat): (q: int)
    requires d > 0
  {
    if n >= 0 then n / d else -(-n / d)
  }

  /** Whole seconds leave the microseconds, which keep their sign. */
  function Carried(t: Time): Time {
    var q := Quotient(t.usec, ONE_SECOND_IN_USECS);
    Time(t.sec + q, t.usec - q * ONE_SECOND_IN_USECS)
  }

  function Normalized(t: Time): Time {
    var c := Carried(t);
    if c.sec >= 1 && c.usec < 0 then Time(c.sec - 1, c.usec + ONE_SECOND_IN_USECS) else c
  }

  /** Normalize keeps the total and leaves less than a second of microseconds; it is canonical
      exactly if the total is not negative or the microseconds were not a negative fraction. */
  lemma NormalizedExactly(t: Time)
    ensures Total(Normalized(t)) == Total(t)
    ensures -ONE_SECOND_IN_USECS < Normalized(t).usec < ONE_SECOND_IN_USECS
    ensures Canonical(Normalized(t))
            <==> Total(t) >= 0 || t.usec >= 0 || t.usec % ONE_SECOND_IN_USECS == 0
    ensures Total(t) >= 0 ==> Normalized(t) == Canon(Total(t))
    ensures Normalized(Normalized(t)) == Normalized(t)
  {
    var q := Quotient(t.usec, ONE_SECOND_IN_USECS);
    var c := Carried(t);
    assert -ONE_SECOND_IN_USECS < c.usec < ONE_SECOND_IN_USECS;
    assert t.usec >= 0 ==> c.usec >= 0;
    assert t.usec <= 0 ==> c.usec <= 0;
    assert t.usec < 0 ==> (c.usec == 0 <==> t.usec % ONE_SECOND_IN_USECS == 0);
    if Total(t) >= 0 {
      CanonUnique(Normalized(t));
    }
    Settled(Normalized(t));
  }

  lemma CanonUnique(t: Time)
    requires Canonical(t)
    ensures t == Canon(Total(t))
  {
  }

  lemma Settled(t: Time)
    requires -ONE_SECOND_IN_USECS < t.usec < ONE_SECOND_IN_USECS && (t.sec >= 1 ==> t.usec >= 0)
    ensures Normalized(t) == t
  {
  }

  /** A negative total has two normal forms, so Normalize alone does not make values equal. */
  lemma NegativeTotalsDiffer()
    ensures var a, b := Time(-1, 500000), Time(0, -500000);
            Normalized(a) == a && Normalized(b) == b && Total(a) == Total(b) && a != b
  {
  }

  // ---------------------------------------------------------------------------------------
  // Comparisons
  // ---------------------------------------------------------------------------------------

  predicate Less(a: Time, b: Time) {
    if a.sec < b.sec then true else a.sec == b.sec && a.usec < b.usec
  }

  predicate LessOrEqual(a: Time, b: Time) {
    if a.sec < b.sec then true else a.sec == b.sec && a.usec <= b.usec
  }

  predicate Greater(a: Time, b: Time) {
    if a.sec > b.sec then true else a.sec == b.sec && a.usec > b.usec
  }

  predicate GreaterOrEqual(a: Time, b: Time) {
    if a.sec > b.sec then true else a.sec == b.sec && a.usec >= b.usec
  }

  /** All six comparisons order the two values as their totals are ordered. */
  predicate Faithful(a: Time, b: Time) {
    && (Less(a, b) <==> Total(a) < Total(b))
    && (LessOrEqual(a, b) <==> Total(a) <= Total(b))
    && (Greater(a, b) <==> Total(a) > Total(b))
    && (GreaterOrEqual(a, b) <==> Total(a) >= Total(b))
    && (a == b <==> Total(a) == Total(b))
    && (a != b <==> Total(a) != Total(b))
  }

  /** A value compares by its total with every canonical value exactly if it is canonical. */
  lemma FaithfulExactly(t: Time)
    ensures Canonical(t) <==> forall c :: Canonical(c) ==> Faithful(t, c)
  {
    if t.usec >= ONE_SECOND_IN_USECS {
      var c := Time(t.sec + 1, 0);
      assert Canonical(c) && Less(t, c) && Total(t) >= Total(c);
    } else if t.usec < 0 {
      var c := Time(t.sec - 1, ONE_SECOND_IN_USECS - 1);
      assert Canonical(c) && Less(c, t) && Total(c) >= Total(t);
    }
  }

  // ---------------------------------------------------------------------------------------
  // Addition and subtraction
  // ---------------------------------------------------------------------------------------

  function Plus(a: Time, b: Time): Time {
    Normalized(Time(a.sec + b.sec, a.usec + b.usec))
  }

  function Minus(a: Time, b: Time): Time {
    Normalized(Time(a.sec - b.sec, a.usec - b.usec))
  }

  lemma ArithmeticOnTotals(a: Time, b: Time)
    ensures Total(Plus(a, b)) == Total(a) + Total(b)
    ensures Total(Minus(a, b)) == Total(a) - Total(b)
    ensures Total(a) + Total(b) >= 0 ==> Plus(a, b) == Canon(Total(a) + Total(b))
    ensures Total(a) - Total(b) >= 0 ==> Minus(a, b) == Canon(Total(a) - Total(b))
  {
    NormalizedExactly(Time(a.sec + b.sec, a.usec + b.usec));
    NormalizedExactly(Time(a.sec - b.sec, a.usec - b.usec));
  }

  /** The seconds that an addition moves out of the microseconds: the whole seconds in their sum,
      less the one that is borrowed when a fraction is left negative beside positive seconds. */
  function Carry(a: Time, b: Time): int {
    var usec := a.usec + b.usec;
    var q := Quotient(usec, ONE_SECOND_IN_USECS);
    if a.sec + b.sec + q >= 1 && usec < q * ONE_SECOND_IN_USECS then q - 1 else q
  }

  lemma CarryMoved(a: Time, b: Time)
    ensures Plus(a, b) == Time(a.sec + b.sec + Carry(a, b), a.usec + b.usec - Carry(a, b) * ONE_SECOND_IN_USECS)
  {
  }

  /** Adding and subtracting again: what is not negative comes back exactly if it was canonical;
      what is negative comes back exactly if it had less than a second of microseconds and the
      addition carried nothing in the direction of their sign. */
  lemma RestoredExactly(a: Time, b: Time)
    ensures Total(Minus(Plus(a, b), b)) == Total(a)
    ensures Minus(Plus(a, b), b) == a
            <==> if Total(a) >= 0 then Canonical(a)
                 else && -ONE_SECOND_IN_USECS < a.usec < ONE_SECOND_IN_USECS
                      && (a.usec > 0 ==> Carry(a, b) <= 0)
                      && (a.usec < 0 ==> Carry(a, b) >= 0)
  {
    var p := Plus(a, b);
    var k := Carry(a, b);
    CarryMoved(a, b);
    ArithmeticOnTotals(a, b);
    ArithmeticOnTotals(p, b);
    var d := Time(p.sec - b.sec, p.usec - b.usec);
    assert d == Time(a.sec + k, a.usec - k * ONE_SECOND_IN_USECS);
    if Total(a) >= 0 {
      if Canonical(a) {
        CanonUnique(a);
      }
    } else {
      NormalizedExactly(d);
      NegativeMinus(a, k);
    }
  }

  lemma NegativeMinus(a: Time, k: int)
    requires Total(a) < 0
    ensures Normalized(Time(a.sec + k, a.usec - k * ONE_SECOND_IN_USECS)) == a
            <==> && -ONE_SECOND_IN_USECS < a.usec < ONE_SECOND_IN_USECS
                 && (a.usec > 0 ==> k <= 0)
                 && (a.usec < 0 ==> k >= 0)
  {
    var d := Time(a.sec + k, a.usec - k * ONE_SECOND_IN_USECS);
    var q := Quotient(d.usec, ONE_SECOND_IN_USECS);
    assert Total(Carried(d)) == Total(a);
    assert Normalized(d) == Carried(d);
  }

  // ---------------------------------------------------------------------------------------
  // Conversions
  // ---------------------------------------------------------------------------------------

  /** Conversion to and arithmetic in LNE_UINT64 wrap around. */
  function Wrap(n: int): (w: nat)
    ensures w < WORD64
  {
    n % WORD64
  }

  function ToMicroseconds(t: Time): nat {
    Wrap(Wrap(Wrap(Wrap(t.sec) * 1000) * 1000) + Wrap(t.usec))
  }

  function ToMillisecond(t: Time): nat {
    Wrap(Wrap(Wrap(t.sec) * 1000) + Wrap(Quotient(t.usec, 1000)))
  }

  lemma WrapTimes(n: int)
    ensures Wrap(Wrap(n) * 1000) == Wrap(n * 1000)
  {
    var q := n / WORD64;
    assert n == q * WORD64 + Wrap(n);
    WrapShift(Wrap(n) * 1000, q * 1000);
  }

  lemma WrapShift(n: int, k: int)
    ensures Wrap(n + k * WORD64) == Wrap(n)
  {
  }

  lemma WrapPlus(m: int, n: int)
    ensures Wrap(Wrap(m) + Wrap(n)) == Wrap(m + n)
  {
    WrapShift(Wrap(m) + Wrap(n), m / WORD64 + n / WORD64);
  }

  /** Microseconds are the total, modulo 2^64: correct for every total that fits, even when the
      fields are negative on the way. */
  lemma MicrosecondsAreTheTotal(t: Time)
    ensures ToMicroseconds(t) == Wrap(Total(t))
    ensures 0 <= Total(t) < WORD64 ==> ToMicroseconds(t) == Total(t)
  {
    WrapTimes(t.sec);
    WrapTimes(t.sec * 1000);
    WrapPlus(t.sec * 1000 * 1000, t.usec);
  }

  /** Milliseconds are the total rounded down exactly if the microseconds are not a negative
      fraction of a millisecond. */
  lemma MillisecondsRoundDownExactly(t: Time)
    requires 0 <= Total(t) / 1000 < WORD64
    ensures ToMillisecond(t) == Total(t) / 1000 <==> t.usec >= 0 || t.usec % 1000 == 0
  {
    WrapTimes(t.sec);
    WrapPlus(t.sec * 1000, Quotient(t.usec, 1000));
    var rounded := t.sec * 1000 + Quotient(t.usec, 1000);
    assert Total(t) / 1000 == t.sec * 1000 + t.usec / 1000;
    assert rounded == Total(t) / 1000 || rounded == Total(t) / 1000 + 1;
  }

  // ---------------------------------------------------------------------------------------
  // The object
  // ---------------------------------------------------------------------------------------

  class TimeValue {
    var tvSec: int
    var tvUsec: int

    function Value(): Time
      reads this
    {
      Time(tvSec, tvUsec)
    }

    constructor (sec: int, usec: int)
      ensures Value() == Time(sec, usec)
    {
      tvSec, tvUsec := sec, usec;
    }

    method Normalize()
      modifies this
      ensures Value() == Normalized(old(Value()))
    {
      ghost var before := Carried(Value());
      if tvUsec >= ONE_SECOND_IN_USECS {
        while tvUsec >= ONE_SECOND_IN_USECS
          invariant tvUsec >= 0 && Carried(Value()) == before
        {
          Shifted(Value(), 1);
          tvSec, tvUsec := tvSec + 1, tvUsec - ONE_SECOND_IN_USECS;
        }
      } else if tvUsec <= -ONE_SECOND_IN_USECS {
        while tvUsec <= -ONE_SECOND_IN_USECS
          invariant tvUsec <= 0 && Carried(Value()) == before
        {
          Shifted(Value(), -1);
          tvSec, tvUsec := tvSec - 1, tvUsec + ONE_SECOND_IN_USECS;
        }
      }
      assert Value() == before;
      if tvSec >= 1 && tvUsec < 0 {
        tvSec, tvUsec := tvSec - 1, tvUsec + ONE_SECOND_IN_USECS;
      }
    }

    /** += */
    method Add(tv: TimeValue)
      modifies this
      ensures Value() == Plus(old(Value()), old(tv.Value()))
    {
      tvSec := tvSec + tv.tvSec;
      tvUsec := tvUsec + tv.tvUsec;
      Normalize();
    }

    /** -= */
    method Subtract(tv: TimeValue)
      modifies this
      ensures Value() == Minus(old(Value()), old(tv.Value()))
    {
      tvSec := tvSec - tv.tvSec;
      tvUsec := tvUsec - tv.tvUsec;
      Normalize();
    }
  }

  lemma Shifted(t: Time, k: int)
    requires (k == 1 && t.usec >= ONE_SECOND_IN_USECS) || (k == -1 && t.usec <= -ONE_SECOND_IN_USECS)
    ensures Carried(Time(t.sec + k, t.usec - k * ONE_SECOND_IN_USECS)) == Carried(t)
  {
  }

  /** The deadline of a timed Wait.  With a proper clock reading and a waiting time that is not
      negative it is a valid timespec for exactly the sum of both; in general the nanosecond
      field is valid exactly when the sum is canonical. */
  method Deadline(now: Time, tv: TimeValue) returns (sec: int, nsec: int)
    requires Canonical(now)
    ensures Total(now) + Total(tv.Value()) >= 0 ==>
              0 <= nsec < 1000000000 && sec * 1000000000 + nsec == (Total(now) + Total(tv.Value())) * 1000
    ensures 0 <= nsec < 1000000000
            <==> var usec := now.usec + tv.tvUsec;
                 Total(now) + Total(tv.Value()) >= 0 || usec >= 0 || usec % ONE_SECOND_IN_USECS == 0
  {
    var dest := new TimeValue(now.sec, now.usec);
    dest.Add(tv);
    sec, nsec := dest.tvSec, dest.tvUsec * 1000;
    ArithmeticOnTotals(now, tv.Value());
    NormalizedExactly(Time(now.sec + tv.tvSec, now.usec + tv.tvUsec));
  }
}
