/**
 * C#'s `decimal`: an exact base-10 number `units * 10^-scale`, and
 * `Math.Round(v, 2, MidpointRounding.AwayFromZero)`, which yields a whole
 * number of hundredths.
 */
module Decimals {

  function Pow10(n: nat): (r: nat)
    ensures r >= 1
  {
    if n == 0 then 1 else 10 * Pow10(n - 1)
  }

  lemma {:induction false} Pow10Add(a: nat, b: nat)
    ensures Pow10(a + b) == Pow10(a) * Pow10(b)
  {
    if a > 0 {
      Pow10Add(a - 1, b);
      assert Pow10(a + b) == 10 * Pow10(a - 1 + b);
    }
  }

  /** The exact value `units / 10^scale`. */
  datatype Decimal = Decimal(units: int, scale: nat)

  /** `lo <= d && d <= hi`, compared exactly, for whole-number bounds. */
  predicate InRange(d: Decimal, lo: int, hi: int) {
    lo * Pow10(d.scale) <= d.units <= hi * Pow10(d.scale)
  }

  /**
   * `z` is `m / p` rounded to an integer half away from zero: it is within
   * one half of `m / p`, and on an exact tie it lies on the far side from zero.
   * `e` is twice the error `m / p - z`, scaled by `p`.
   */
  predicate RoundsHalfAway(m: int, p: int, z: int)
    requires p > 0
  {
    var e := 2 * (m - z * p);
    -p <= e <= p && (e == p ==> m < 0) && (e == -p ==> m > 0)
  }

  lemma MulMonotone(a: int, b: int, c: int)
    requires a >= 0 && b <= c
    ensures a * b <= a * c
  {
    assert a * c - a * b == a * (c - b);
  }

  /** `m / p` rounded half away from zero. */
  function RoundHalfAwayFromZero(m: int, p: int): (z: int)
    requires p > 0
    ensures RoundsHalfAway(m, p, z)
  {
    if m == 0 then 0
    else if m > 0 then
      var z := (2 * m + p) / (2 * p);
      var rem := (2 * m + p) % (2 * p);
      assert 2 * m + p == z * (2 * p) + rem && 0 <= rem < 2 * p;
      assert 2 * (m - z * p) == rem - p;
      z
    else
      var z := (2 * -m + p) / (2 * p);
      var rem := (2 * -m + p) % (2 * p);
      assert 2 * -m + p == z * (2 * p) + rem && 0 <= rem < 2 * p;
      assert 2 * (m - (-z) * p) == p - rem;
      -z
  }

  /** Rounding half away from zero has one answer: any integer that rounds `m / p` that way is the function's. */
  lemma RoundingIsUnique(m: int, p: int, z: int)
    requires p > 0 && RoundsHalfAway(m, p, z)
    ensures z == RoundHalfAwayFromZero(m, p)
  {
    var q := RoundHalfAwayFromZero(m, p);
    ErrorDifference(m, p, z, q);
    MulCases(p, q - z);
  }

  lemma ErrorDifference(m: int, p: int, z: int, q: int)
    ensures 2 * (m - z * p) - 2 * (m - q * p) == 2 * (p * (q - z))
  {
  }

  lemma MulCases(p: int, d: int)
    requires p > 0
    ensures d >= 2 ==> p * d >= 2 * p
    ensures d <= -2 ==> p * d <= -2 * p
    ensures d == 1 ==> p * d == p
    ensures d == -1 ==> p * d == -p
  {
    if d >= 2 {
      MulMonotone(p, 2, d);
    } else if d <= -2 {
      MulMonotone(p, d, -2);
    }
  }

  /** Rounding never leaves whole-number bounds that hold of `m / p`. */
  lemma RoundingWithin(m: int, p: int, z: int, lo: int, hi: int)
    requires p > 0 && RoundsHalfAway(m, p, z)
    requires lo * p <= m <= hi * p
    ensures lo <= z <= hi
  {
    if z > hi {
      MulMonotone(p, hi + 1, z);
    }
    if z < lo {
      MulMonotone(p, z, lo - 1);
    }
  }

  /** Scaling numerator and denominator by 100 does not change how a quotient rounds. */
  lemma RoundsScaled(m: int, p: int, z: int)
    requires p > 0 && RoundsHalfAway(m, p, z)
    ensures RoundsHalfAway(100 * m, 100 * p, z)
  {
    assert 2 * (100 * m - z * (100 * p)) == 100 * (2 * (m - z * p));
  }

  /** Scaling the rounded quotient back down by 100 keeps the same rounding. */
  lemma RoundsUnscaled(m: int, p: int, z: int)
    requires p > 0 && RoundsHalfAway(100 * m, 100 * p, z)
    ensures RoundsHalfAway(m, p, z)
  {
    assert 2 * (100 * m - z * (100 * p)) == 100 * (2 * (m - z * p));
  }

  lemma CentsOfShortScale(u: int, s: nat)
    requires s <= 2
    ensures RoundsHalfAway(100 * u, Pow10(s), u * Pow10(2 - s))
  {
    Pow10Add(2 - s, s);
    assert Pow10(2) == 100;
    assert u * Pow10(2 - s) * Pow10(s) == u * (Pow10(2 - s) * Pow10(s));
  }

  lemma CentsOfLongScale(u: int, s: nat)
    requires s > 2
    ensures RoundsHalfAway(100 * u, Pow10(s), RoundHalfAwayFromZero(u, Pow10(s - 2)))
  {
    Pow10Add(2, s - 2);
    assert Pow10(2) == 100;
    RoundsScaled(u, Pow10(s - 2), RoundHalfAwayFromZero(u, Pow10(s - 2)));
  }

  /**
   * `Math.Round(d, 2, MidpointRounding.AwayFromZero)` as a whole number of
   * hundredths: the nearest one to `d`, ties going away from zero.
   */
  function ToCents(d: Decimal): (c: int)
    ensures RoundsHalfAway(100 * d.units, Pow10(d.scale), c)
  {
    if d.scale <= 2 then
      CentsOfShortScale(d.units, d.scale);
      d.units * Pow10(2 - d.scale)
    else
      CentsOfLongScale(d.units, d.scale);
      RoundHalfAwayFromZero(d.units, Pow10(d.scale - 2))
  }

  /** A decimal within whole-number bounds rounds to hundredths within the same bounds. */
  lemma CentsWithin(d: Decimal, lo: int, hi: int)
    requires InRange(d, lo, hi)
    ensures 100 * lo <= ToCents(d) <= 100 * hi
  {
    var p := Pow10(d.scale);
    assert (100 * lo) * p == 100 * (lo * p) && (100 * hi) * p == 100 * (hi * p);
    RoundingWithin(100 * d.units, p, ToCents(d), 100 * lo, 100 * hi);
  }

  /** A value that already has two decimal places is left as it is by rounding. */
  lemma CentsOfCents(c: int)
    ensures ToCents(Decimal(c, 2)) == c
  {
    assert Pow10(2) == 100;
    RoundingWithin(100 * c, 100, ToCents(Decimal(c, 2)), c, c);
  }
}
