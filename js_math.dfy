/**
 * The JavaScript number operations the application relies on, stated over
 * exact rationals (`real`) and integers.  Floating-point rounding error is
 * not modelled.
 */
module JsMath {
  import opened Wrappers

  function Min(a: int, b: int): int { if a <= b then a else b }
  function Max(a: int, b: int): int { if a >= b then a else b }

  /** A nullable timestamp counts only when it is set and not 0, as JavaScript's truthiness test has it. */
  predicate Truthy(startTime: Option<int>)
  {
    startTime.Some? && startTime.value != 0
  }

  /** `Math.round(x)`: the nearest integer, halves rounded up, i.e. floor(x + 1/2). */
  function Round(x: real): (r: int)
    ensures x - 0.5 < r as real <= x + 0.5
  {
    (x + 0.5).Floor
  }

  /** `Math.round(a / b)` for integers with a positive divisor. */
  function RoundRatio(a: int, b: int): int
    requires b > 0
  {
    Round(a as real / b as real)
  }

  /** `Math.ceil(n / d)` for an integer numerator and a positive integer divisor. */
  function CeilDiv(n: int, d: int): (r: int)
    requires d > 0
    ensures (r - 1) * d < n <= r * d
  {
    if n % d == 0 then n / d else n / d + 1
  }

  /** Math.round is monotone. */
  lemma RoundMonotone(x: real, y: real)
    requires x <= y
    ensures Round(x) <= Round(y)
  {
  }

  /** Dividing by a positive real keeps the order. */
  lemma DivLe(p: real, q: real, c: real)
    requires c > 0.0 && p <= q
    ensures p / c <= q / c
  {
  }

  /** Rounding a ratio that lies between two integers stays between them. */
  lemma RoundRatioBounds(a: int, b: int, lo: int, hi: int)
    requires b > 0
    requires lo * b <= a <= hi * b
    ensures lo <= RoundRatio(a, b) <= hi
  {
    DivLe((lo * b) as real, a as real, b as real);
    DivLe(a as real, (hi * b) as real, b as real);
    assert (lo * b) as real / b as real == lo as real;
    assert (hi * b) as real / b as real == hi as real;
  }

}
