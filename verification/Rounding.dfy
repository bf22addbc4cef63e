/** Python's `round`: to the nearest, halves to the even neighbour. */
module Rounding {
  /** n / d rounded to the nearest integer, halves to the even one. */
  function RoundHalfEven(n: int, d: int): int
    requires d > 0
  {
    var q, r := n / d, n % d;
    if 2 * r < d || (2 * r == d && q % 2 == 0) then q else q + 1
  }

  lemma RoundIsNearest(n: int, d: int)
    requires d > 0
    ensures -d <= 2 * (RoundHalfEven(n, d) * d - n) <= d
  {
  }

  lemma QuotientsOrdered(p: int, q: int, r: int, s: int, d: int)
    requires 0 <= r < d && 0 <= s < d
    ensures p * d + r <= q * d + s ==> p <= q
  {
    if p > q {
      assert (p - q - 1) * d >= 0;
    }
  }

  lemma RoundMonotone(m: int, n: int, d: int)
    requires d > 0 && m <= n
    ensures RoundHalfEven(m, d) <= RoundHalfEven(n, d)
  {
    QuotientsOrdered(m / d, n / d, m % d, n % d, d);
    if m / d == n / d {
      assert m % d <= n % d;
    }
  }

  lemma RoundOfMultiple(k: int, d: int)
    requires d > 0
    ensures RoundHalfEven(k * d, d) == k
  {
  }
}
