/** Exact integer forms of the `Math.floor` and `Math.ceil` divisions the
    calculators apply to positive divisors. */
module Arith {

  /** `Math.ceil(a / b)` for a positive divisor: the least `n` with
      `n * b >= a`. */
  function CeilDiv(a: int, b: int): (n: int)
    requires b > 0
    ensures n * b >= a
    ensures (n - 1) * b < a
  {
    -((-a) / b)
  }

  /** CeilDiv is the least multiplier reaching `a`, so any `m` that reaches
      `a` is at least it. */
  lemma CeilDivLeast(a: int, b: int, m: int)
    requires b > 0 && m * b >= a
    ensures CeilDiv(a, b) <= m
  {
    var n := CeilDiv(a, b);
    var d := m - (n - 1);
    assert d * b == m * b - (n - 1) * b;
    assert d * b > 0;
    assert d > 0;
  }

  /** `Math.floor(a / q)` for a positive divisor brackets `a` between two
      consecutive multiples of `q`. */
  lemma FloorBounds(a: int, q: int)
    requires q > 0
    ensures (a / q) * q <= a < (a / q + 1) * q
    ensures 0 <= a - (a / q) * q < q
    ensures a >= 0 ==> a / q >= 0
    ensures 0 <= a < q ==> a / q == 0
    ensures a >= q ==> a / q >= 1
  {
    var d := a / q;
    assert a == d * q + a % q;
    assert (d + 1) * q == d * q + q;
  }
}
