/**
 * The engine's fixed-point numbers: a scaled integer with 8 fractional bits, so the raw
 * value 0x100 stands for 1.0. Raw values are unbounded integers here; the 32-bit width
 * of the source is not modelled.
 */
module Fixed {
  /** The raw value of 1.0. */
  const One := 0x100

  /** `mLongToFixed` / `Fixed::from_long`: the whole number `x`. */
  function LongToFixed(x: int): (f: int)
    ensures f / One == x && f % One == 0
  {
    x * One
  }

  /**
   * `mFixedToLong`: an arithmetic shift right by 8, so the whole part rounded toward
   * minus infinity.
   */
  function FixedToLong(f: int): (x: int)
    ensures x * One <= f < x * One + One
  {
    f / One
  }

  /** A whole number read back from its fixed-point value is unchanged. */
  lemma LongRoundTrip(x: int)
    ensures FixedToLong(LongToFixed(x)) == x
  {
  }

  /**
   * Comparing a whole price with the whole part of an amount agrees with comparing the
   * price as a fixed-point value with the amount.
   */
  lemma WholeCompare(price: int, cash: int)
    ensures price <= FixedToLong(cash) <==> LongToFixed(price) <= cash
  {
    var w := FixedToLong(cash);
    if price <= w {
      assert LongToFixed(price) <= w * One;
    } else {
      assert price >= w + 1;
      assert LongToFixed(price) >= (w + 1) * One;
    }
  }

  /**
   * `mMultiplyFixed`: the product rescaled by 8 bits, truncated toward zero.
   */
  function MulFixed(a: int, b: int): (p: int)
    ensures 0 <= a * b ==> p * One <= a * b < p * One + One
    ensures a * b < 0 ==> p * One - One < a * b <= p * One
  {
    if a * b >= 0 then (a * b) / One else -((-(a * b)) / One)
  }

  /** Multiplying by 1.0 leaves a value unchanged. */
  lemma MulOne(a: int)
    ensures MulFixed(a, One) == a
  {
  }

  /** The product of two non-negative values is non-negative. */
  lemma MulNonNegative(a: int, b: int)
    requires 0 <= a && 0 <= b
    ensures 0 <= MulFixed(a, b)
  {
  }
}
