/** Scaling a 64-bit tick count by a fraction of 32-bit numbers, without a 128-bit product. */
module Clock {
  import opened Common

  newtype Uint64 = x: int | 0 <= x < 0x1_0000_0000_0000_0000
  newtype Uint32 = x: int | 0 <= x < 0x1_0000_0000

  const HALF := 0x1_0000_0000

  /** Adding two rounded-down quotients loses at most one. */
  lemma FloorSum(x: int, y: int, d: int)
    requires d > 0
    ensures x / d + y / d == (x + y) / d - (if x % d + y % d >= d then 1 else 0)
  {
    var carry := if x % d + y % d >= d then 1 else 0;
    var rem := x % d + y % d - carry * d;
    assert x == d * (x / d) + x % d;
    assert y == d * (y / d) + y % d;
    assert x + y == d * (x / d + y / d + carry) + rem;
    QuotientUnique(x + y, d, x / d + y / d + carry, rem);
  }

  lemma ProductFits(a: int, b: int)
    requires 0 <= a < HALF && 0 <= b < HALF
    ensures 0 <= a * b <= (HALF - 1) * (HALF - 1)
  {
    ProductBelow(a, b, HALF - 1);
  }

  lemma ProductBelow(a: int, b: int, m: int)
    requires 0 <= a <= m && 0 <= b <= m
    ensures 0 <= a * b <= m * m
  {
    MulMono(0, a, b);
    MulMono(a, m, b);
    MulMono(b, m, m);
    assert m * b == b * m;
  }

  /** The true quotient splits into a high part, which is exact, and two rounded-down low parts. */
  lemma SplitQuotient(h: int, l: int, n: int, d: int)
    requires h >= 0 && l >= 0 && n >= 0 && d > 0
    ensures ((h * HALF + l) * n) / d == ((h * n) / d) * HALF + (((h * n) % d) * HALF + l * n) / d
  {
    var q, r := (h * n) / d, (h * n) % d;
    assert h * n == d * q + r;
    var low := r * HALF + l * n;
    assert (h * HALF + l) * n == (h * n) * HALF + l * n;
    assert (d * q + r) * HALF == d * (q * HALF) + r * HALF;
    assert (h * HALF + l) * n == d * (q * HALF) + low;
    assert low == d * (low / d) + low % d;
    assert (h * HALF + l) * n == d * (q * HALF + low / d) + low % d;
    QuotientUnique((h * HALF + l) * n, d, q * HALF + low / d, low % d);
  }

  /** The true number of nanoseconds, and the amount that the two roundings lose. */
  function Exact(c: int, numer: int, denom: int): int
    requires denom > 0
  {
    (c * numer) / denom
  }

  function Lost(c: int, numer: int, denom: int): int
    requires denom > 0
  {
    var high, low := c / HALF, c % HALF;
    if ((high * numer) % denom) * HALF % denom + low * numer % denom >= denom then 1 else 0
  }

  /** The arithmetic of the split: every intermediate value fits 64 bits if the true result does. */
  lemma SplitFits(h: int, l: int, n: int, d: int)
    requires 0 <= h < HALF && 0 <= l < HALF && 0 <= n < HALF && 0 < d < HALF
    requires Exact(h * HALF + l, n, d) < 0x1_0000_0000_0000_0000
    ensures var r, q := (h * n) % d, (h * n) / d;
            var rem, low := (r * HALF) / d, (l * n) / d;
            && 0 <= h * n < 0x1_0000_0000_0000_0000
            && 0 <= l * n < 0x1_0000_0000_0000_0000
            && 0 <= r < d
            && 0 <= rem && 0 <= low && low + rem < 0x1_0000_0000_0000_0000
            && 0 <= q && q * HALF < 0x1_0000_0000_0000_0000
            && q * HALF + low + rem == Exact(h * HALF + l, n, d) - Lost(h * HALF + l, n, d)
  {
    ProductFits(h, n);
    ProductFits(l, n);
    var r, q := (h * n) % d, (h * n) / d;
    DivAtLeast(h * n, d, 0);
    MulMono(0, r, HALF);
    DivAtLeast(r * HALF, d, 0);
    DivAtLeast(l * n, d, 0);
    SplitQuotient(h, l, n, d);
    FloorSum(r * HALF, l * n, d);
    QuotientUnique(h * HALF + l, HALF, h, l);
    assert r * HALF < HALF * d by { MulMono(r + 1, d, HALF); }
    DivLess(r * HALF, d, HALF);
    LowPart(l * n, d);
  }

  lemma LowPart(x: int, d: int)
    requires 0 <= x <= (HALF - 1) * (HALF - 1) && 0 < d
    ensures x / d <= (HALF - 1) * (HALF - 1)
  {
    MulMono(1, d, x + 1);
    assert x < (x + 1) * d;
    DivLess(x, d, x + 1);
  }

  /** Every product and sum below fits 64 bits when the true result does, and the outcome is the
      true result, or one less in exactly the cases that `Lost` names. */
  method Scale(c: Uint64, numer: Uint32, denom: Uint32) returns (ns: Uint64)
    requires denom > 0 && Exact(c as int, numer as int, denom as int) < 0x1_0000_0000_0000_0000
    ensures numer != denom ==>
              ns as int == Exact(c as int, numer as int, denom as int) - Lost(c as int, numer as int, denom as int)
    ensures numer == denom ==> ns as int == Exact(c as int, numer as int, denom as int)
  {
    if numer != denom {
      ghost var n, d := numer as int, denom as int;
      var h, l := c / 0x1_0000_0000, c % 0x1_0000_0000;
      SplitFits(h as int, l as int, n, d);
      var chigh := h * numer as Uint64;
      var chighrem := ((chigh % denom as Uint64) * 0x1_0000_0000) / denom as Uint64;
      chigh := chigh / denom as Uint64;
      var clow := l * numer as Uint64 / denom as Uint64;
      clow := clow + chighrem;
      ns := chigh * 0x1_0000_0000 + clow;
    } else {
      QuotientUnique(c as int * numer as int, denom as int, c as int, 0);
      ns := c;
    }
  }

  /** The loss is real: with the time base 125/3, one tick above 2^32 comes out a nanosecond short. */
  lemma LossOccurs()
    ensures Lost(0x1_0000_0001, 125, 3) == 1
    ensures Exact(0x1_0000_0001, 125, 3) == 178956970708
  {
    assert 0x1_0000_0001 / HALF == 1 && 0x1_0000_0001 % HALF == 1;
  }
}
