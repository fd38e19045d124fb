/**
 * The height arithmetic of the expand/collapse animation. The host reports the
 * interpolated time as a float in [0, 1]; the model takes it as an exact
 * fraction num/den, and the cast of the resulting height to int as truncation
 * toward zero.
 */
module Interpolation {

  datatype Fraction = Fraction(num: nat, den: nat)

  /** A point of the animation, from its start (0) to its end (1). */
  type Progress = t: Fraction | 0 < t.den && t.num <= t.den witness Fraction(0, 1)

  const Started: Progress := Fraction(0, 1)
  const Finished: Progress := Fraction(1, 1)

  /** n / d rounded toward zero, as a cast of a real to int does. */
  function TruncDiv(n: int, d: int): (q: int)
    requires 0 < d
    ensures 0 <= n ==> 0 <= q && q * d <= n < q * d + d
    ensures n < 0 ==> q <= 0 && q * d - d < n <= q * d
  {
    if 0 <= n then
      DivBounds(n, d);
      n / d
    else
      DivBounds(-n, d);
      assert (-((-n) / d)) * d == -(((-n) / d) * d);
      -((-n) / d)
  }

  /** Euclidean division of a non-negative m by a positive d. */
  lemma DivBounds(m: int, d: int)
    requires 0 <= m && 0 < d
    ensures 0 <= m / d && (m / d) * d <= m < (m / d) * d + d
  {
    assert m == (m / d) * d + m % d;
  }

  lemma MulMonotone(a: int, b: int, d: int)
    requires a <= b && 0 <= d
    ensures a * d <= b * d
  {
    assert b * d - a * d == (b - a) * d;
  }

  /** A nonzero integer multiple of d is at least d away from zero. */
  lemma MulAwayFromZero(x: int, d: int)
    requires 0 <= d
    ensures 1 <= x ==> d <= x * d
    ensures x <= -1 ==> x * d <= -d
  {
    if 1 <= x {
      MulMonotone(1, x, d);
    } else if x <= -1 {
      MulMonotone(x, -1, d);
    }
  }

  lemma TruncDivExact(k: int, d: int)
    requires 0 < d
    ensures TruncDiv(k * d, d) == k
  {
    var q := TruncDiv(k * d, d);
    MulAwayFromZero(q - k, d);
    assert (q - k) * d == q * d - k * d;
  }

  lemma TruncDivMonotone(n1: int, n2: int, d: int)
    requires 0 < d && n1 <= n2
    ensures TruncDiv(n1, d) <= TruncDiv(n2, d)
  {
    var q1, q2 := TruncDiv(n1, d), TruncDiv(n2, d);
    MulAwayFromZero(q1 - q2, d);
    assert (q1 - q2) * d == q1 * d - q2 * d;
  }

  /** The numerator of the exact height start + (end - start) * num / den, over den. */
  function Numerator(start: int, end: int, num: int, den: int): int
  {
    (end - start) * num + start * den
  }

  lemma NumeratorBetween(start: int, end: int, num: int, den: int)
    requires 0 <= num <= den
    ensures start <= end ==> start * den <= Numerator(start, end, num, den) <= end * den
    ensures end <= start ==> end * den <= Numerator(start, end, num, den) <= start * den
  {
    assert Numerator(start, end, num, den) - start * den == (end - start) * num;
    assert end * den - Numerator(start, end, num, den) == (end - start) * (den - num);
    if start <= end {
      MulMonotone(0, num, end - start);
      MulMonotone(0, den - num, end - start);
    } else {
      MulMonotone(0, num, start - end);
      MulMonotone(0, den - num, start - end);
    }
  }

  /**
   * The container height at time t of a run from start to end: the exact value
   * start + (end - start) * t, truncated toward zero.
   */
  function NewHeight(start: int, end: int, t: Progress): (h: int)
    ensures t.num == 0 ==> h == start
    ensures t.num == t.den ==> h == end
  {
    var n := Numerator(start, end, t.num, t.den);
    assert t.num == 0 ==> n == start * t.den;
    assert t.num == t.den ==> n == end * t.den;
    TruncDivExact(start, t.den);
    TruncDivExact(end, t.den);
    TruncDiv(n, t.den)
  }

  /** Every intermediate height lies between the run's two end heights. */
  lemma NewHeightBetween(start: int, end: int, t: Progress)
    ensures start <= end ==> start <= NewHeight(start, end, t) <= end
    ensures end <= start ==> end <= NewHeight(start, end, t) <= start
  {
    var n := Numerator(start, end, t.num, t.den);
    NumeratorBetween(start, end, t.num, t.den);
    TruncDivExact(start, t.den);
    TruncDivExact(end, t.den);
    if start <= end {
      TruncDivMonotone(start * t.den, n, t.den);
      TruncDivMonotone(n, end * t.den, t.den);
    } else {
      TruncDivMonotone(end * t.den, n, t.den);
      TruncDivMonotone(n, start * t.den, t.den);
    }
  }

  /** The bounds TruncDiv guarantees determine its result. */
  lemma TruncDivUnique(n: int, d: int, q: int)
    requires 0 < d
    requires 0 <= n ==> q * d <= n < q * d + d
    requires n < 0 ==> q * d - d < n <= q * d
    ensures TruncDiv(n, d) == q
  {
    var r := TruncDiv(n, d);
    MulAwayFromZero(r - q, d);
    assert (r - q) * d == r * d - q * d;
  }

  /** Scaling numerator and denominator alike leaves the truncated quotient unchanged. */
  lemma TruncDivScale(n: int, d: int, k: int)
    requires 0 < d && 0 < k
    ensures TruncDiv(n * k, d * k) == TruncDiv(n, d)
  {
    var q := TruncDiv(n, d);
    assert q * (d * k) == (q * d) * k;
    if 0 <= n {
      MulMonotone(0, n, k);
      MulMonotone(q * d, n, k);
      MulMonotone(n + 1, q * d + d, k);
      assert (n + 1) * k == n * k + k;
      assert (q * d + d) * k == q * (d * k) + d * k;
    } else {
      MulMonotone(n, -1, k);
      MulMonotone(n, q * d, k);
      MulMonotone(q * d - d + 1, n, k);
      assert (q * d - d + 1) * k == q * (d * k) - d * k + k;
    }
    TruncDivUnique(n * k, d * k, q);
  }

  /** Two fractions of equal value, one a multiple of the other, give the same height. */
  lemma NewHeightRescale(start: int, end: int, t: Progress, u: Progress, k: int)
    requires 0 < k && u.num == t.num * k && u.den == t.den * k
    ensures NewHeight(start, end, u) == NewHeight(start, end, t)
  {
    assert Numerator(start, end, u.num, u.den) == Numerator(start, end, t.num, t.den) * k;
    TruncDivScale(Numerator(start, end, t.num, t.den), t.den, k);
  }

  /** Frames on one time base d: a later frame is never farther from the end height. */
  lemma NewHeightMonotoneOnTimeBase(start: int, end: int, d: nat, k1: nat, k2: nat)
    requires 0 < d && k1 <= k2 <= d
    ensures start <= end ==> NewHeight(start, end, Fraction(k1, d)) <= NewHeight(start, end, Fraction(k2, d))
    ensures end <= start ==> NewHeight(start, end, Fraction(k2, d)) <= NewHeight(start, end, Fraction(k1, d))
  {
    var n1 := Numerator(start, end, k1, d);
    var n2 := Numerator(start, end, k2, d);
    if start <= end {
      MulMonotone(k1, k2, end - start);
      TruncDivMonotone(n1, n2, d);
    } else {
      MulMonotone(k1, k2, start - end);
      TruncDivMonotone(n2, n1, d);
    }
  }

  /**
   * Frames sampled later never move away from the end height: an expansion
   * only grows and a collapse only shrinks. Time t1 is no later than t2 when
   * t1.num / t1.den <= t2.num / t2.den.
   */
  lemma NewHeightMonotone(start: int, end: int, t1: Progress, t2: Progress)
    requires t1.num * t2.den <= t2.num * t1.den
    ensures start <= end ==> NewHeight(start, end, t1) <= NewHeight(start, end, t2)
    ensures end <= start ==> NewHeight(start, end, t2) <= NewHeight(start, end, t1)
  {
    var d := t1.den * t2.den;
    MulMonotone(t1.num, t1.den, t2.den);
    MulMonotone(t2.num, t2.den, t1.den);
    assert t2.den * t1.den == d;
    var u1: Progress := Fraction(t1.num * t2.den, d);
    var u2: Progress := Fraction(t2.num * t1.den, d);
    NewHeightRescale(start, end, t1, u1, t2.den);
    NewHeightRescale(start, end, t2, u2, t1.den);
    NewHeightMonotoneOnTimeBase(start, end, d, u1.num, u2.num);
  }
}
