/** Order facts about products and quotients of reals, stated one at a time so that proofs
    elsewhere stay linear. */
module RealArithmetic {
  lemma Positive(x: real, y: real)
    requires 0.0 < x && 0.0 < y
    ensures 0.0 < x * y
  {}

  lemma ScaleBound(x: real, y: real, k: real)
    requires x <= y && 0.0 <= k
    ensures x * k <= y * k
  {}

  lemma StrictScale(x: real, y: real, k: real)
    requires x < y && 0.0 < k
    ensures x * k < y * k
  {}

  lemma DivideBound(x: real, y: real, b: real)
    requires x <= y && 0.0 < b
    ensures x / b <= y / b
  {}

  lemma SelfQuotient(x: real)
    requires 0.0 < x
    ensures x / x == 1.0
  {}

  lemma ProductQuotient(x: real, n: real, c: real)
    requires 0.0 < c
    ensures x * n / c == x * (n / c)
  {
    var q := n / c;
    assert q * c == n;
    assert x * n == (x * q) * c;
    var y := x * q;
    assert y * c / c == y;
  }
}
