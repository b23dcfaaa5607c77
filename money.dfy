/**
 * Money arithmetic as the handlers perform it, on exact amounts: `toFixed(2)`
 * read back with a unary `+`, and `Math.floor`.
 */
module Money {

  function Max(a: real, b: real): real {
    if a >= b then a else b
  }

  /** `Math.abs` */
  function Abs(x: real): real {
    if x >= 0.0 then x else -x
  }

  /** `Math.floor` */
  function Floor(x: real): (r: int)
    ensures r as real <= x < r as real + 1.0
  {
    x.Floor
  }

  /**
   * The whole number of cents `x.toFixed(2)` prints: the nearest integer to
   * `100 * |x|`, ties going to the larger one, then the sign of `x` put back.
   */
  function Cents(x: real): int {
    if x >= 0.0 then Floor(x * 100.0 + 0.5) else -Floor(-x * 100.0 + 0.5)
  }

  /** `+x.toFixed(2)`: `x` rounded to cents, half away from zero. */
  function Round2(x: real): (r: real)
    ensures -0.005 <= r - x <= 0.005
    ensures x >= 0.0 ==> r >= 0.0
    ensures x <= 0.0 ==> r <= 0.0
  {
    Cents(x) as real / 100.0
  }

  /** A rounded amount passes the `> 0.001` test exactly when it was at least half a cent. */
  lemma RoundedPositive(x: real)
    ensures Round2(x) > 0.001 <==> x >= 0.005
  {
    if x >= 0.005 {
      assert Cents(x) >= 1;
    } else if x >= 0.0 {
      assert Cents(x) <= 0;
    }
  }

  /** A rounded amount passes the `< -0.001` test exactly when it was at most minus half a cent. */
  lemma RoundedNegative(x: real)
    ensures Round2(x) < -0.001 <==> x <= -0.005
  {
    if x <= -0.005 {
      assert Cents(x) <= -1;
    } else if x < 0.0 {
      assert Cents(x) >= 0;
    }
  }

  /** A non-negative amount rounds to at least one cent exactly when it is at least half a cent. */
  lemma RoundedAtLeastCent(x: real)
    requires x >= 0.0
    ensures Round2(x) >= 0.01 <==> x >= 0.005
  {
    if x >= 0.005 {
      assert Cents(x) >= 1;
    } else {
      assert Cents(x) <= 0;
    }
  }

  /** Rounding an amount already in whole cents leaves it alone. */
  lemma RoundWholeCents(c: int)
    ensures Round2(c as real / 100.0) == c as real / 100.0
  {
    var x := c as real / 100.0;
    if c >= 0 {
      assert x * 100.0 + 0.5 == c as real + 0.5;
      assert Floor(x * 100.0 + 0.5) == c;
    } else {
      assert -x * 100.0 + 0.5 == (-c) as real + 0.5;
      assert Floor(-x * 100.0 + 0.5) == -c;
    }
  }
}
