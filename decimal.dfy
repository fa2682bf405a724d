/**
 * The two rounding operations of the shopspring decimal package that the
 * plan uses, on exact rational amounts (Dafny `real`).
 *
 * `Decimal.Round(2)` truncates to three places, adds five thousandths with the
 * sign of the value and truncates again; on the exact value that is rounding
 * to the nearest cent with ties away from zero. `Decimal.RoundBank(2)` takes
 * that result and, on an exact tie that produced an odd cent count, steps one
 * cent back towards zero: ties to even.
 */
module Decimal {

  /** True when `x` is a whole number of cents. */
  predicate IsCents(x: real) {
    (x * 100.0).Floor as real == x * 100.0
  }

  /** The number of cents in a whole-cent amount. */
  function Cents(x: real): int {
    (x * 100.0).Floor
  }

  /**
   * Round to two places, ties away from zero. For a non-negative value a tie
   * goes up, for a negative one down; the result is the unique cent amount in
   * the half-open interval of half a cent around `x` on that side.
   */
  function Round(x: real): (r: real)
    ensures IsCents(r)
    ensures x >= 0.0 ==> -0.005 < r - x <= 0.005
    ensures x < 0.0 ==> -0.005 <= r - x < 0.005
  {
    if x >= 0.0 then RoundHalfUp(x)
    else
      var up := RoundHalfUp(-x);
      CentsAddSub(0.0, up);
      -up
  }

  /** The nearest cent amount, a tie going to the larger one. */
  function RoundHalfUp(y: real): (r: real)
    ensures IsCents(r)
    ensures -0.005 < r - y <= 0.005
  {
    var f := (y * 100.0 + 0.5).Floor;
    WholeCents(f);
    f as real / 100.0
  }

  /** A whole number of cents is a cent amount. */
  lemma WholeCents(k: int)
    ensures IsCents(k as real / 100.0)
  {
    assert (k as real / 100.0) * 100.0 == k as real;
  }

  /**
   * Round to two places, ties to the even cent: the result is within half a
   * cent of `x`, and when it is exactly half a cent away its cent count is
   * even.
   */
  function RoundBank(x: real): (r: real)
    ensures IsCents(r)
    ensures -0.005 <= r - x <= 0.005
    ensures (r - x == 0.005 || x - r == 0.005) ==> Cents(r) % 2 == 0
  {
    var rounded := Round(x);
    var c := Cents(rounded);
    CentNeighbours(rounded);
    var remainder := if x >= rounded then x - rounded else rounded - x;
    if remainder == 0.005 && c % 2 != 0 then
      if rounded < 0.0 then rounded + 0.01 else rounded - 0.01
    else
      rounded
  }

  /** The cent amounts one cent either side of a cent amount, and their cent counts. */
  lemma CentNeighbours(a: real)
    requires IsCents(a)
    ensures IsCents(a + 0.01) && Cents(a + 0.01) == Cents(a) + 1
    ensures IsCents(a - 0.01) && Cents(a - 0.01) == Cents(a) - 1
  {
    var k := Cents(a);
    assert (a + 0.01) * 100.0 == (k + 1) as real;
    assert (a - 0.01) * 100.0 == (k - 1) as real;
  }

  /** Whole-cent amounts are closed under addition and subtraction. */
  lemma CentsAddSub(a: real, b: real)
    requires IsCents(a) && IsCents(b)
    ensures IsCents(a + b) && IsCents(a - b)
  {
    var ka, kb := Cents(a), Cents(b);
    assert ka as real == a * 100.0 && kb as real == b * 100.0;
    assert (a + b) * 100.0 == a * 100.0 + b * 100.0;
    assert (a - b) * 100.0 == a * 100.0 - b * 100.0;
    CountedCents(a + b, ka + kb);
    CountedCents(a - b, ka - kb);
  }

  /** An amount that is `k` hundredths is whole cents, `k` of them. */
  lemma CountedCents(x: real, k: int)
    requires x * 100.0 == k as real
    ensures IsCents(x) && Cents(x) == k
  {
  }

  /** Both roundings leave a whole-cent amount unchanged. */
  lemma RoundingFixesCents(x: real)
    requires IsCents(x)
    ensures Round(x) == x && RoundBank(x) == x
  {
    var r := Round(x);
    CentsAddSub(r, x);
    var d := Cents(r - x);
    assert (r - x) * 100.0 == d as real;
    assert d == 0;
    var b := RoundBank(x);
    CentsAddSub(b, x);
    var e := Cents(b - x);
    assert (b - x) * 100.0 == e as real;
    assert e == 0;
  }
}
