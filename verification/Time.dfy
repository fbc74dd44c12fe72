/** Signed time intervals and time stamps on seconds and nanoseconds of fixed width. */
module Time {
  import opened Common

  const BILLION := 1_000_000_000
  const TIME_MAX := 0x7fff_ffff_ffff_ffff

  newtype TimeT = x: int | -0x8000_0000_0000_0000 <= x <= 0x7fff_ffff_ffff_ffff
  /** A `long` has no fewer than 32 bits; nothing more is used. */
  newtype Long = x: int | -0x8000_0000 <= x <= 0x7fff_ffff

  datatype Interval = Interval(sec: int, nsec: int, negative: bool)

  /** The range that all operations stay in.  It includes a nanosecond part of a full second. */
  predicate InRange(a: Interval) {
    0 <= a.sec <= TIME_MAX && 0 <= a.nsec <= BILLION
  }

  predicate Normal(a: Interval) {
    0 <= a.sec <= TIME_MAX && 0 <= a.nsec < BILLION
  }

  /** The interval as a signed number of nanoseconds. */
  function Value(a: Interval): int {
    if a.negative then -(a.sec * BILLION + a.nsec) else a.sec * BILLION + a.nsec
  }

  predicate Infinite(a: Interval) {
    a.sec > TIME_MAX / 2
  }

  predicate AbsBigger(a: Interval, b: Interval) {
    a.sec > b.sec || (a.sec == b.sec && a.nsec > b.nsec)
  }

  predicate Bigger(a: Interval, b: Interval) {
    || (!a.negative && b.negative)
    || (!a.negative && !b.negative && AbsBigger(a, b))
    || (a.negative && b.negative && AbsBigger(b, a))
  }

  /** The guard of the overflow branch. */
  predicate Saturates(a: Interval, b: Interval) {
    a.negative == b.negative && (Infinite(a) || Infinite(b) || TIME_MAX - a.sec - 1 <= b.sec)
  }

  function Borrow(a: Interval): Interval {
    if a.nsec < 0 then a.(nsec := a.nsec + BILLION, sec := a.sec - 1) else a
  }

  function Add(a: Interval, b: Interval): Interval {
    if a.negative == b.negative then
      if Saturates(a, b) then a.(sec := TIME_MAX)
      else if a.nsec + b.nsec > BILLION then
        a.(sec := a.sec + b.sec + 1, nsec := a.nsec + b.nsec - BILLION)
      else a.(sec := a.sec + b.sec, nsec := a.nsec + b.nsec)
    else if AbsBigger(b, a) then
      Borrow(Interval(b.sec - a.sec, b.nsec - a.nsec, !a.negative))
    else Borrow(Interval(a.sec - b.sec, a.nsec - b.nsec, a.negative))
  }

  function Negate(a: Interval): Interval {
    a.(negative := !a.negative)
  }

  function Sub(a: Interval, b: Interval): Interval {
    Add(a, Negate(b))
  }

  /** Addition never leaves the range, and is exact arithmetic on nanoseconds just when it does not
      saturate (or saturates at the very sum). */
  lemma AddExact(a: Interval, b: Interval)
    requires InRange(a) && InRange(b)
    ensures InRange(Add(a, b))
    ensures Value(Add(a, b)) == Value(a) + Value(b) <==>
              !Saturates(a, b) || (a.sec + b.sec) * BILLION + b.nsec == TIME_MAX * BILLION
    ensures Saturates(a, b) ==> Infinite(Add(a, b)) && Add(a, b).negative == a.negative
  {
    if Saturates(a, b) {
      var r := Add(a, b);
      assert r.sec * BILLION + r.nsec == TIME_MAX * BILLION + a.nsec;
      assert (a.sec * BILLION + a.nsec) + (b.sec * BILLION + b.nsec)
             == (a.sec + b.sec) * BILLION + b.nsec + a.nsec;
    }
  }

  /** The carry is taken only above a full second.  So a sum of normal intervals is normal again
      unless both have the same sign and their nanoseconds make exactly one second. */
  lemma NormalSum(a: Interval, b: Interval)
    requires Normal(a) && Normal(b)
    ensures Normal(Add(a, b)) <==>
              Saturates(a, b) || a.negative != b.negative || a.nsec + b.nsec != BILLION
  {
    AddExact(a, b);
  }

  lemma HalfPlusHalf()
    ensures var half := Interval(0, 500_000_000, false);
            Normal(half) && !Normal(Add(half, half)) && Value(Add(half, half)) == BILLION
  {
    var half := Interval(0, 500_000_000, false);
    AddExact(half, half);
    NormalSum(half, half);
  }

  /** The comparison is that of the values.  Among intervals of the same value, a positive zero counts
      as bigger than a negative one, and one that has a full second in its seconds as farther from
      zero than one that has it in its nanoseconds. */
  lemma BiggerIsOrder(a: Interval, b: Interval)
    requires InRange(a) && InRange(b)
    ensures Bigger(a, b) <==>
              || Value(a) > Value(b)
              || (Value(a) == Value(b) &&
                    if a.negative != b.negative then b.negative
                    else if b.negative then a.sec < b.sec else a.sec > b.sec)
    ensures Normal(a) && Normal(b) && a.negative == b.negative ==> (Bigger(a, b) <==> Value(a) > Value(b))
  {
    LexicographicIsOrder(a, b);
    LexicographicIsOrder(b, a);
  }

  lemma LexicographicIsOrder(a: Interval, b: Interval)
    requires InRange(a) && InRange(b)
    ensures var x, y := a.sec * BILLION + a.nsec, b.sec * BILLION + b.nsec;
            && (AbsBigger(a, b) <==> x > y || (x == y && a.sec > b.sec))
            && (Normal(a) && Normal(b) && x == y ==> a.sec == b.sec)
  {
    if a.sec > b.sec {
      assert a.sec * BILLION >= (b.sec + 1) * BILLION;
    } else if a.sec < b.sec {
      assert b.sec * BILLION >= (a.sec + 1) * BILLION;
    }
  }

  // ---------------------------------------------------------------- time stamps

  datatype Timestamp = Timestamp(sec: int, nsec: int)

  function Since(t: Timestamp): Interval {
    Interval(t.sec, t.nsec, false)
  }

  predicate Before(t: Timestamp, u: Timestamp) {
    t.sec < u.sec || (t.sec == u.sec && t.nsec < u.nsec)
  }

  function TimeTo(t: Timestamp, u: Timestamp): Interval {
    Sub(Since(u), Since(t))
  }

  /** `Timestamp::add`; None stands for its assertion that the sum is positive. */
  function Later(t: Timestamp, dt: Interval): Option<Timestamp> {
    var s := Add(Since(t), dt);
    if s.negative then None else Some(Timestamp(s.sec, s.nsec))
  }

  /** The short cut for a time stamp that is not after `now`. */
  function Passed(t: Timestamp, now: Timestamp): Interval {
    Borrow(Interval(now.sec - t.sec, now.nsec - t.nsec, false))
  }

  /** Adding an interval and subtracting the start gives that interval back, whenever the addition
      passes its assertion and does not saturate; the assertion fails only for a negative interval
      that compares bigger than the time stamp. */
  lemma LaterRoundTrip(t: Timestamp, dt: Interval)
    requires InRange(Since(t)) && InRange(dt) && !Saturates(Since(t), dt)
    ensures Later(t, dt).Some? <==> !dt.negative || !AbsBigger(dt, Since(t))
    ensures Later(t, dt).Some? ==>
              var u := Later(t, dt).value;
              InRange(Since(u)) && Value(TimeTo(t, u)) == Value(dt)
  {
    AddExact(Since(t), dt);
    if Later(t, dt).Some? {
      var u := Later(t, dt).value;
      AddExact(Since(u), Negate(Since(t)));
    }
  }

  /** The short cut computes the very same fields as the general subtraction. */
  lemma PassedIsTimeTo(t: Timestamp, now: Timestamp)
    requires !Before(now, t)
    ensures Passed(t, now) == TimeTo(t, now)
  {
  }

  // ---------------------------------------------------------------- in place

  class TimeInterval {
    var sec: TimeT
    var nsec: Long
    var negative: bool

    function Get(): Interval
      reads this
    {
      Interval(sec as int, nsec as int, negative)
    }

    constructor (sec: TimeT, nsec: Long, negative: bool)
      ensures Get() == Interval(sec as int, nsec as int, negative)
    {
      this.sec, this.nsec, this.negative := sec, nsec, negative;
    }

    predicate IsInfinite()
      reads this
      ensures IsInfinite() <==> Infinite(Get())
    {
      sec > 0x7fff_ffff_ffff_ffff / 2
    }

    predicate IsAbsBiggerThan(t: TimeInterval)
      reads this, t
      ensures IsAbsBiggerThan(t) <==> AbsBigger(Get(), t.Get())
    {
      sec > t.sec || (sec == t.sec && nsec > t.nsec)
    }

    /** `t` may be this very object.  No intermediate result leaves its type. */
    method AddTo(t: TimeInterval)
      requires InRange(Get()) && InRange(t.Get())
      modifies this
      ensures Get() == Add(old(Get()), old(t.Get()))
    {
      if t.negative == negative {
        if IsInfinite() || t.IsInfinite() || 0x7fff_ffff_ffff_ffff - sec - 1 <= t.sec {
          sec := 0x7fff_ffff_ffff_ffff;
        } else {
          sec := sec + t.sec;
          nsec := nsec + t.nsec;
          if nsec > 1_000_000_000 {
            nsec := nsec - 1_000_000_000;
            sec := sec + 1;
          }
        }
      } else {
        if t.IsAbsBiggerThan(this) {
          sec := t.sec - sec;
          nsec := t.nsec - nsec;
          negative := !negative;
        } else {
          sec := sec - t.sec;
          nsec := nsec - t.nsec;
        }
        if nsec < 0 {
          nsec := nsec + 1_000_000_000;
          sec := sec - 1;
        }
      }
    }
  }
}
