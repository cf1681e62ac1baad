// Products, quotients and remainders.
module Arithmetic {

  function Div(x: nat, d: nat): nat
    requires d > 0
  {
    x / d
  }

  lemma MulMono(a: nat, b: nat, d: nat)
    requires a <= b
    ensures a * d <= b * d
  {
  }

  lemma Exchange(b: nat, c: nat, n: nat)
    ensures b * c * n == b * n * c
  {
  }

  lemma Exchange3(h: nat, m: nat, n: nat)
    ensures h * m * n == h * (m * n)
  {
  }

  lemma Distribute(q: nat, n: nat, r: nat, m: nat)
    ensures (q * n + r) * m == q * (m * n) + r * m
  {
  }

  lemma NextMultiple(q: nat, n: nat)
    ensures (q + 1) * n == q * n + n
  {
  }

  lemma DivParts(a: nat, d: nat)
    requires d > 0
    ensures a == a / d * d + a % d && a % d < d
  {
  }

  lemma Positive(m: nat, n: nat)
    requires m > 0 && n > 0
    ensures m * n > 0
  {
  }

  lemma Below(r: nat, m: nat, n: nat, s: nat)
    requires r < n && s < m
    ensures r * m + s < m * n
  {
    MulMono(r + 1, n, m);
    assert (r + 1) * m == r * m + m;
  }

  lemma QuotientIs(a: nat, d: nat, q: nat, r: nat)
    requires d > 0 && a == q * d + r && r < d
    ensures a / d == q && a % d == r
  {
    var q', r' := a / d, a % d;
    assert a == q' * d + r' && r' < d;
    assert (q + 1) * d == q * d + d && (q' + 1) * d == q' * d + d;
    if q < q' {
      MulMono(q + 1, q', d);
    } else if q' < q {
      MulMono(q' + 1, q, d);
    }
  }

  // Dividing by 2^k and then by the block size is dividing by both.
  lemma DivTwice(a: nat, m: nat, n: nat)
    requires m > 0 && n > 0
    ensures m * n > 0 && a / m / n == a / (m * n)
  {
    var b := a / m;
    var q, r := b / n, b % n;
    DivParts(a, m);
    DivParts(b, n);
    Distribute(q, n, r, m);
    Below(r, m, n, a % m);
    Positive(m, n);
    hide *;
    assert a == q * (m * n) + (r * m + a % m);
    QuotientIs(a, m * n, q, r * m + a % m);
  }

  lemma ModAdd(x: nat, b: nat, n: nat)
    requires n > 0
    ensures (x * n + b) % n == b % n
  {
    var q := b / n;
    assert b == q * n + b % n;
    assert (x + q) * n == x * n + q * n;
    QuotientIs(x * n + b, n, x + q, b % n);
  }

  lemma MulGap(a: nat, b: nat)
    requires a >= 1 && b >= 1
    ensures a * b >= a + b - 1
  {
    assert (a - 1) * (b - 1) >= 0;
    assert (a - 1) * (b - 1) == a * b - a - b + 1;
  }

  lemma DivBelow(x: nat, d: nat, n: nat)
    requires d > 0 && x < n * d
    ensures x / d < n
  {
    var q := x / d;
    assert q * d <= x;
    if n <= q { MulMono(n, q, d); }
  }

  lemma ModOfSum(a: nat, k: nat, n: nat)
    requires n > 0
    ensures (a % n + k) % n == (a + k) % n
  {
    DivParts(a, n);
    ModAdd(a / n, a % n + k, n);
  }
}
