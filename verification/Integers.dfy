/** Order facts about products and quotients of integers. */
module Integers {

  lemma MultipleBounds(k: int, b: int)
    requires b > 0
    ensures k >= 1 ==> k * b >= b
    ensures k <= -1 ==> k * b <= -b
  {
    if k >= 1 {
      assert (k - 1) * b >= 0;
    } else if k <= -1 {
      assert (-1 - k) * b >= 0;
    }
  }

  lemma SmallMultiple(k: int, b: int)
    requires -b < k * b < b
    ensures k == 0
  {
    MultipleBounds(k, b);
  }

  lemma DivisionUnique(a: int, b: int, q: int, r: int)
    requires b > 0 && a == q * b + r && 0 <= r < b
    ensures a / b == q
  {
    assert a == a / b * b + a % b;
    assert (a / b - q) * b == r - a % b;
    SmallMultiple(a / b - q, b);
  }

  /** Which quotient a division has. */
  lemma QuotientIs(a: int, n: int, q: int)
    requires n > 0
    ensures a / n == q <==> 0 <= a - q * n < n
  {
    assert a == a / n * n + a % n;
    if 0 <= a - q * n < n { DivisionUnique(a, n, q, a - q * n); }
  }
}
