// Real-number helpers shared by the analyzer and the session summary.
module Numeric {

  /** JavaScript's Math.round on exact reals: the nearest integer, halves rounded up. */
  function Round(x: real): (r: int)
    ensures x - 0.5 < r as real <= x + 0.5
  {
    (x + 0.5).Floor
  }

  /** Math.min on reals. */
  function Min(x: real, y: real): (m: real)
    ensures m <= x && m <= y
    ensures m == x || m == y
  {
    if x < y then x else y
  }

  /** The larger of two reals. */
  function Max(x: real, y: real): (m: real)
    ensures x <= m && y <= m
    ensures m == x || m == y
  {
    if x < y then y else x
  }

  lemma RoundMonotone(x: real, y: real)
    requires x <= y
    ensures Round(x) <= Round(y)
  {
  }

  /** A real already on an integer rounds to that integer. */
  lemma RoundOfInt(n: int)
    ensures Round(n as real) == n
  {
  }

  /** Rounding never leaves an interval with integer end points. */
  lemma RoundWithin(x: real, lo: int, hi: int)
    requires lo as real <= x <= hi as real
    ensures lo <= Round(x) <= hi
  {
  }

  /** A quotient of integers bounded per unit of the divisor lies within the same bounds. */
  lemma QuotientWithin(total: int, count: int, lo: int, hi: int)
    requires count >= 1
    requires lo * count <= total <= hi * count
    ensures lo as real <= total as real / count as real <= hi as real
  {
    var q := total as real / count as real;
    var c := count as real;
    assert q * c == total as real;
    assert (q - lo as real) * c == total as real - (lo * count) as real;
    assert (hi as real - q) * c == (hi * count) as real - total as real;
    SignOfProduct(q - lo as real, c);
    SignOfProduct(hi as real - q, c);
  }

  lemma SignOfProduct(x: real, c: real)
    requires c > 0.0 && x * c >= 0.0
    ensures x >= 0.0
  {
  }
}
