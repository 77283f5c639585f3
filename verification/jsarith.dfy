/** JavaScript's remainder operator on integers. */
module JsArith {

  /**
   * `a % b` as JavaScript computes it for b > 0: the remainder of truncating
   * division, which carries the sign of the dividend. Dafny's own `%` is
   * Euclidean and never negative, so the two agree exactly when a >= 0.
   */
  function JsRem(a: int, b: int): (r: int)
    requires b > 0
    ensures a >= 0 ==> r == a % b
    ensures a >= 0 ==> 0 <= r < b
    ensures a < 0 ==> -b < r <= 0
    ensures (a - r) % b == 0
  {
    if a >= 0 then
      MultipleOf(a / b, b);
      assert a - a % b == (a / b) * b;
      a % b
    else
      var q := (-a) / b;
      MultipleOf(-q, b);
      assert a + (-a) % b == (-q) * b;
      -((-a) % b)
  }

  /** Every whole multiple of b leaves no remainder. */
  lemma MultipleOf(q: int, b: int)
    requires b > 0
    ensures (q * b) % b == 0
  {
    var k := (q * b) / b;
    Difference(q, k, b);
    Scaled(q - k, b);
  }

  lemma Difference(q: int, k: int, b: int)
    ensures q * b - b * k == b * (q - k)
  {
  }

  /** A nonzero multiple of b is at least b away from zero. */
  lemma Scaled(x: int, b: int)
    requires b > 0
    ensures x > 0 ==> b * x >= b
    ensures x < 0 ==> b * x <= -b
  {
  }
}
