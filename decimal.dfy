/**
 * The .NET `decimal` arithmetic the payroll code relies on.
 *
 * An amount is held exactly as a whole number of ten-thousandths of a rupee, so every
 * amount with at most four fractional digits is represented without error, and the
 * products with the two-digit percentages of the salary rules are exact integers.
 * `Math.Round(x, 2)` on a decimal rounds half to even (banker's rounding).
 */
module Decimal {

  /**
   * A decimal amount, in units of 1/10000 of a rupee; literals are written with the
   * four fractional digits split off, so 1600_0000 is 1600 rupees.
   */
  type Money = int

  /** Bounds of a C# `long`. */
  const MinLong: int := -0x8000_0000_0000_0000
  const MaxLong: int := 0x7FFF_FFFF_FFFF_FFFF

  /** The amount has at most two fractional digits. */
  predicate IsWholeCents(x: Money) {
    x % 100 == 0
  }

  /** A whole number of paise is on a whole paisa. */
  lemma WholeCentsMultiple(k: int)
    ensures IsWholeCents(k * 100)
  {
  }

  /** An amount on a whole paisa is a whole number of paise. */
  lemma WholeCentsQuotient(x: Money)
    requires IsWholeCents(x)
    ensures x == (x / 100) * 100
  {
  }

  /** Sums and differences of amounts on whole paise are on whole paise. */
  lemma WholeCentsClosed(x: Money, y: Money)
    requires IsWholeCents(x) && IsWholeCents(y)
    ensures IsWholeCents(x + y) && IsWholeCents(x - y)
  {
    WholeCentsQuotient(x);
    WholeCentsQuotient(y);
    assert x + y == (x / 100 + y / 100) * 100;
    assert x - y == (x / 100 - y / 100) * 100;
    WholeCentsMultiple(x / 100 + y / 100);
    WholeCentsMultiple(x / 100 - y / 100);
  }

  /** The integer nearest to n / d, the even one on a tie. */
  function RoundHalfEven(n: int, d: int): (q: int)
    requires d > 0
    ensures -d <= 2 * (n - q * d) <= d
    ensures 2 * (n - q * d) == d || 2 * (n - q * d) == -d ==> q % 2 == 0
    ensures n % d == 0 ==> q * d == n
  {
    var q, r := n / d, n % d;
    if 2 * r < d then q
    else if 2 * r > d then q + 1
    else if q % 2 == 0 then q
    else q + 1
  }

  /** `Math.Round(x, 2)`: within half a paisa of x, on a whole paisa, ties to even. */
  function Round2(x: Money): (r: Money)
    ensures IsWholeCents(r)
    ensures -100 <= 2 * (x - r) <= 100
    ensures 2 * (x - r) == 100 || 2 * (x - r) == -100 ==> (r / 100) % 2 == 0
    ensures IsWholeCents(x) ==> r == x
  {
    RoundHalfEven(x, 100) * 100
  }

  /**
   * `Math.Round(x * (percent / 100m), 2)`: the exact product x * percent / 100 is
   * rounded to a whole paisa, within half a paisa, ties to an even number of paise.
   */
  function RoundedPercent(x: Money, percent: int): (r: Money)
    ensures IsWholeCents(r)
    ensures -10000 <= 2 * (x * percent - 100 * r) <= 10000
    ensures 2 * (x * percent - 100 * r) == 10000 || 2 * (x * percent - 100 * r) == -10000 ==>
      (r / 100) % 2 == 0
  {
    RoundHalfEven(x * percent, 10000) * 100
  }

  /** `(long)x`: the whole rupees of x, truncated toward zero (not floored). */
  function TruncateToRupees(x: Money): (r: int)
    ensures 0 <= x ==> 0 <= r * 10000 <= x < r * 10000 + 10000
    ensures x < 0 ==> r * 10000 - 10000 < x <= r * 10000 <= 0
  {
    if x >= 0 then x / 10000 else -((-x) / 10000)
  }

  /** The conversion `(long)x` followed by `Math.Abs` of the result is defined. */
  predicate FitsNegatableLong(n: int) {
    MinLong < n <= MaxLong
  }
}
