/** Nonlinear facts about integers that the solver wants spelled out. */
module IntLemmas {
  lemma ProductGrows(a: int, b: int, c: int)
    requires a <= b && c >= 0
    ensures a * c <= b * c
  {
  }

  lemma Distributes(a: int, b: int, c: int)
    ensures (a + b) * c == a * c + b * c
  {
  }

  lemma QuotientIs(x: int, d: int)
    requires d > 0
    ensures x / d * d <= x < (x / d + 1) * d
  {
  }

  lemma FloorIsUnique(x: int, d: int, q: int)
    requires d > 0 && q * d <= x < (q + 1) * d
    ensures q == x / d
  {
    var p := x / d;
    QuotientIs(x, d);
    if p < q { ProductGrows(p + 1, q, d); }
    if q < p { ProductGrows(q + 1, p, d); }
  }

  lemma RemainderIs(x: int, d: int, q: int, r: int)
    requires 0 <= r < d && x == q * d + r
    ensures x % d == r
  {
    Distributes(q, 1, d);
    FloorIsUnique(x, d, q);
  }

  lemma RemainderSkips(n: int, d: int)
    requires d > 0
    ensures (n - d) % d == n % d
  {
    Distributes(n / d - 1, 1, d);
    RemainderIs(n - d, d, n / d - 1, n % d);
  }
}
