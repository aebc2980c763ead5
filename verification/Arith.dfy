// Integer facts the solver should not rediscover in every proof.
module Arith {

  lemma MulMono(a: int, b: int, c: int)
    requires 0 <= c
    ensures a <= b ==> a * c <= b * c
  {
  }

  lemma MulZero(a: int, b: int)
    ensures a == 0 || b == 0 ==> a * b == 0
    ensures 0 < a && 0 < b ==> 0 < a * b
  {
  }

  lemma DivModUnique(x: int, q: int, n: int, r: int)
    requires x == q * n + r && 0 <= r < n
    ensures x / n == q && x % n == r
  {
    var q', r' := x / n, x % n;
    assert x == q' * n + r';
    MulMono(q + 1, q', n);
    MulMono(q' + 1, q, n);
    assert (q + 1) * n == q * n + n;
    assert (q' + 1) * n == q' * n + n;
  }

  lemma DivBound(i: int, a: int, n: int)
    requires 0 <= i < a * n && 0 < n
    ensures 0 <= i / n < a && 0 <= i % n < n && i == (i / n) * n + i % n
  {
    MulMono(a, i / n, n);
    MulMono(i / n, -1, n);
    assert i == (i / n) * n + i % n;
  }

  // Row-major position of (i, j) in rows of length n.
  function Ix(n: int, i: int, j: int): int {
    i * n + j
  }

  // Position of element (q, r) in a row-major m x n layout.
  lemma FlatBound(m: int, n: int, q: int, r: int)
    requires 0 <= q < m && 0 <= r < n
    ensures 0 <= Ix(n, q, r) < m * n && Ix(n, q, r) == q * n + r
    ensures (q * n + r) / n == q && (q * n + r) % n == r
  {
    MulMono(q + 1, m, n);
    MulMono(0, q, n);
    assert (q + 1) * n == q * n + n;
    DivModUnique(q * n + r, q, n, r);
  }
}
