/** Remainders. */
module Arithmetic {

  lemma MultipleOf(n: int, d: int)
    requires n > 0
    ensures d <= 0 ==> n * d <= 0
    ensures d >= 1 ==> n * d >= n
  {
  }

  lemma RemainderOf(x: int, n: int, q: int, r: int)
    requires n > 0 && x == n * q + r && 0 <= r < n
    ensures x % n == r
  {
    var d := q - x / n;
    assert n * d == x % n - r;
    MultipleOf(n, d);
    MultipleOf(n, -d);
  }

  lemma Associates(a: int, b: int, c: int)
    ensures a * b * c == a * (b * c)
  {
  }

  /** Reducing by a multiple first changes nothing. */
  lemma RemainderTwice(x: int, n: int, k: int)
    requires n > 0 && k > 0 && n * k > 0
    ensures x % (n * k) % n == x % n
  {
    var big := n * k;
    var y := x % big;
    assert x == big * (x / big) + y;
    Associates(n, k, x / big);
    assert x == n * (k * (x / big)) + n * (y / n) + y % n;
    assert n * (k * (x / big)) + n * (y / n) == n * (k * (x / big) + y / n);
    RemainderOf(x, n, k * (x / big) + y / n, y % n);
  }

  lemma SameRemainderIff(x: int, y: int, n: int)
    requires n > 0
    ensures x % n == y % n <==> (x - y) % n == 0
  {
    var d := x / n - y / n;
    assert x - y == n * d + (x % n - y % n);
    if x % n == y % n {
      RemainderOf(x - y, n, d, 0);
    }
    if (x - y) % n == 0 {
      var q := (x - y) / n;
      assert x == n * (y / n) + y % n + n * q;
      assert n * (y / n) + n * q == n * (y / n + q);
      RemainderOf(x, n, y / n + q, y % n);
    }
  }
}
