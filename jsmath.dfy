/**
 * The JavaScript number operations the core applies to integer amounts and
 * times: `Math.ceil(a / b)`, `Math.floor(a / b)`, the truncating `%`, and
 * `Math.round(n * p / 100)` for a whole-number percentage p, all in exact
 * integer arithmetic.
 */
module JsMath {

  /** `Math.ceil(a / b)` for a positive divisor: the least q with a <= q * b. */
  function CeilDiv(a: int, b: int): (q: int)
    requires b > 0
    ensures (q - 1) * b < a <= q * b
  {
    -((-a) / b)
  }

  /** `Math.floor(a / b)` for a positive divisor: the greatest q with q * b <= a. */
  function FloorDiv(a: int, b: int): (q: int)
    requires b > 0
    ensures q * b <= a < (q + 1) * b
  {
    a / b
  }

  /** JavaScript's `a % b` for a positive divisor: the sign follows the dividend. */
  function JsRem(a: int, b: int): (r: int)
    requires b > 0
    ensures a >= 0 ==> 0 <= r < b && a == FloorDiv(a, b) * b + r
    ensures a < 0 ==> -b < r <= 0
  {
    if a >= 0 then a % b else -((-a) % b)
  }

  /**
   * `Math.round(n * p / 100)`: rounds half up, so the result is the integer
   * nearest to n * p / 100, ties going towards +infinity.
   */
  function RoundPercent(n: int, p: int): (r: int)
    ensures 100 * r - 50 <= n * p < 100 * r + 50
  {
    (n * p + 50) / 100
  }

  /** Rounding a non-negative amount by a percentage in [0, 100] stays within [0, n]. */
  lemma RoundPercentBounds(n: int, p: int)
    requires n >= 0 && 0 <= p <= 100
    ensures 0 <= RoundPercent(n, p) <= n
  {
    var r := RoundPercent(n, p);
    assert n * p <= n * 100;
    assert 100 * r - 50 <= n * p < 100 * r + 50;
  }
}
