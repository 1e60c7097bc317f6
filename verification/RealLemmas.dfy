/** Nonlinear facts about reals that the solver wants spelled out. */
module RealLemmas {
  /** A share of a non-negative amount lies between zero and the amount. */
  lemma Share(d: real, t: real)
    requires 0.0 <= d && 0.0 <= t <= 1.0
    ensures 0.0 <= d * t <= d
  {
  }

  lemma ShareBelow(d: real, t: real)
    requires d <= 0.0 && 0.0 <= t <= 1.0
    ensures d <= d * t <= 0.0
  {
    Share(-d, t);
    assert d * t == -(-d * t);
  }

  function Square(x: real): real { x * x }

  lemma SquareIs(x: real)
    ensures Square(x) == x * x
  {
  }

  lemma SquareIsPositive(x: real)
    requires x != 0.0
    ensures Square(x) > 0.0
  {
    if x > 0.0 { ProductIsPositive(x, x, Square(x)); } else { ProductIsPositive(-x, -x, Square(x)); }
  }

  lemma ProductIsPositive(x: real, y: real, product: real)
    requires x > 0.0 && y > 0.0 && product == x * y
    ensures product > 0.0
  {
  }

  /** A factor below one shrinks and a factor above one grows. */
  lemma FactorMoves(x: real, y: real, product: real)
    requires x > 0.0 && y > 0.0 && product == x * y
    ensures x < 1.0 ==> product < y
    ensures x > 1.0 ==> product > y
  {
  }

  lemma MulMonotone(x: real, y: real, z: real)
    requires x <= y && z >= 0.0
    ensures x * z <= y * z
  {
  }

  lemma MulStrict(x: real, y: real, z: real)
    requires x < y && z > 0.0
    ensures x * z < y * z
  {
  }

  lemma DifferenceTimes(x: real, y: real, z: real)
    ensures (x - y) * z == x * z - y * z
  {
  }

  /** A factor whose product with `d` is at least `d` is at least one. */
  lemma FactorIsAtLeastOne(x: real, d: real, product: real)
    requires d > 0.0 && product == x * d && product >= d
    ensures x >= 1.0
  {
    if x < 1.0 { MulStrict(x, 1.0, d); }
  }

  lemma ProductsKeepOrder(x: real, y: real, z: real, p: real, q: real)
    requires x <= y && z >= 0.0 && p == x * z && q == y * z
    ensures p <= q && (x < y && z > 0.0 ==> p < q)
  {
    DifferenceTimes(y, x, z);
    if x < y && z > 0.0 { ProductIsPositive(y - x, z, q - p); } else { ProductIsNotNegative(y - x, z, q - p); }
  }

  lemma ProductIsNotNegative(x: real, y: real, product: real)
    requires x >= 0.0 && y >= 0.0 && product == x * y
    ensures product >= 0.0
  {
  }

  lemma ShareIs(d: real, t: real, product: real)
    requires d >= 0.0 && 0.0 <= t <= 1.0 && product == d * t
    ensures 0.0 <= product <= d
  {
    Share(d, t);
  }

  /** A part `x` of a length `d`. */
  function Part(d: real, x: real): real { d * x }

  lemma PartIsBetween(d: real, x: real)
    requires 0.0 <= x <= 1.0
    ensures d >= 0.0 ==> 0.0 <= Part(d, x) <= d
    ensures d <= 0.0 ==> d <= Part(d, x) <= 0.0
  {
    if d >= 0.0 { ShareIs(d, x, Part(d, x)); } else { ShareIs(-d, x, -Part(d, x)); }
  }

  /** `x / d` is the number whose product with `d` is `x`. */
  lemma DivideIs(x: real, d: real, q: real)
    requires d != 0.0 && q * d == x
    ensures x / d == q
  {
  }
}
