/** Quotients and remainders by a positive divisor. */
module Arithmetic {

  lemma MultipleHasNoRemainder(k: nat, n: int)
    requires 1 <= n
    ensures (k * n) % n == 0
  {
    if k > 0 {
      MultipleHasNoRemainder(k - 1, n);
      assert k * n == (k - 1) * n + n;
      AddDivisor((k - 1) * n, n);
    }
  }

  lemma AddDivisor(x: int, n: int)
    requires 1 <= n
    ensures (x + n) % n == x % n && (x + n) / n == x / n + 1
  {
    var q, r := x / n, x % n;
    assert x + n == n * (q + 1) + r;
    QuotientIsUnique(x + n, n, q + 1, r);
  }

  lemma QuotientIsUnique(x: int, n: int, q: int, r: int)
    requires 1 <= n && 0 <= r < n && x == n * q + r
    ensures x / n == q && x % n == r
  {
    var q', r' := x / n, x % n;
    assert x == n * q' + r';
    assert n * (q - q') == n * q - n * q';
    MultiplesAreApart(n, q, q', r, r');
  }

  lemma MultiplesAreApart(n: int, q: int, q': int, r: int, r': int)
    requires 0 <= r < n && 0 <= r' < n && n * (q - q') == r' - r
    ensures q == q' && r == r'
  {
    if q > q' {
      Multiple(n, q - q');
    } else if q < q' {
      Multiple(n, q' - q);
    }
  }

  lemma Multiple(n: nat, k: int)
    requires 1 <= k
    ensures n <= n * k
  {
  }

  /** Whole multiples of the divisor do not change the remainder. */
  lemma AddMultiple(x: int, k: int, n: int)
    requires 1 <= n
    ensures (x + k * n) % n == x % n && (x + k * n) / n == x / n + k
  {
    var q, r := x / n, x % n;
    assert x + k * n == n * (q + k) + r;
    QuotientIsUnique(x + k * n, n, q + k, r);
  }

  /** Adding `y` keeps the remainder exactly when `y` is a multiple of the divisor. */
  lemma SameRemainder(x: int, y: int, n: int)
    requires 1 <= n
    ensures (x + y) % n == x % n <==> y % n == 0
  {
    SumOfRemainders(x, y, n);
  }

  /** Quotient and remainder of a sum, with the carry written out. */
  lemma SumOfRemainders(x: int, y: int, n: int)
    requires 1 <= n
    ensures var carry := if x % n + y % n < n then 0 else 1;
            && (x + y) / n == x / n + y / n + carry
            && (x + y) % n == x % n + y % n - carry * n
  {
    var carry := if x % n + y % n < n then 0 else 1;
    assert x + y == n * (x / n + y / n) + (x % n + y % n);
    assert n * (x / n + y / n + carry) == n * (x / n + y / n) + n * carry;
    QuotientIsUnique(x + y, n, x / n + y / n + carry, x % n + y % n - carry * n);
  }

  lemma SmallRemainder(x: int, n: int)
    requires 0 <= x < n
    ensures x % n == x && x / n == 0
  {
    QuotientIsUnique(x, n, 0, x);
  }
}
