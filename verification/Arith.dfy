/** Division facts the solver does not find by itself. */
module Arith {

  lemma AtLeastOne(d: int, n: int)
    requires d >= 1 && n >= 1
    ensures d * n >= n
  {
  }

  /** Different multiples of `n` are at least `n` apart. */
  lemma Apart(x: int, y: int, n: int)
    requires n >= 1
    ensures x > y ==> x * n >= y * n + n
    ensures x * n < y * n <==> x < y
  {
    if x > y {
      AtLeastOne(x - y, n);
    } else if x < y {
      AtLeastOne(y - x, n);
    }
  }

  lemma Quotient(a: int, n: int, q: int, r: int)
    requires n >= 1 && a == q * n + r && 0 <= r < n
    ensures a / n == q && a % n == r
  {
    assert a == a / n * n + a % n;
    Apart(a / n, q, n);
    Apart(q, a / n, n);
  }

  lemma Shift(j: int, n: int)
    requires n >= 1
    ensures (j + n) % n == j % n && (j + n) / n == j / n + 1
  {
    var q := j / n;
    assert j == q * n + j % n;
    assert (q + 1) * n == q * n + n;
    Quotient(j + n, n, q + 1, j % n);
  }

  lemma Small(j: int, n: int)
    requires 0 <= j < n
    ensures j % n == j && j / n == 0
  {
    Quotient(j, n, 0, j);
  }

  lemma Distribute(a: int, j: int, b: int, n: int)
    ensures a * n - j * (b * n) == (a - j * b) * n
  {
    assert j * (b * n) == (j * b) * n;
  }
}
