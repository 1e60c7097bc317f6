/** Peaking coefficients (the peakingEQ formulas of the W3C Audio EQ Cookbook) and the
    magnitude of their frequency response. */
module PeakingFilter {
  import opened EqualizerTypes
  import opened BiquadFilter
  import opened RealLemmas
  import opened ComplexPlane

  const PI: real := 3.14159265358979323846

  /** The library functions the code calls, of which only the facts below are used. */
  datatype Maths = Maths(sin: real -> real, cos: real -> real, pow10: real -> real, log10: real -> real,
                         sqrt: real -> real) {
    ghost predicate Lawful() {
      && (forall x :: Circle(x))
      && (forall x :: UpperHalf(x))
      && (forall x :: Even(x))
      && (forall x :: Root(x))
      && (forall x :: Power(x))
      && (forall x, y :: PowerAdds(x, y))
      && (forall x, y :: PowerGrows(x, y))
      && (forall x, y :: LogGrows(x, y))
      && Base()
    }

    predicate Base() { pow10(1.0) == 10.0 }

    predicate Circle(x: real) { Square(sin(x)) + Square(cos(x)) == 1.0 }

    predicate UpperHalf(x: real) { 0.0 < x < PI ==> sin(x) > 0.0 }

    predicate Even(x: real) { cos(-x) == cos(x) }

    predicate Root(x: real) { x >= 0.0 ==> sqrt(x) >= 0.0 && sqrt(x) * sqrt(x) == x }

    predicate Power(x: real) { pow10(x) > 0.0 && log10(pow10(x)) == x }

    predicate PowerAdds(x: real, y: real) { pow10(x + y) == pow10(x) * pow10(y) }

    predicate PowerGrows(x: real, y: real) { x < y ==> pow10(x) < pow10(y) }

    predicate LogGrows(x: real, y: real) { 0.0 < x < y ==> log10(x) < log10(y) }
  }

  /** The cookbook section for bandwidth `alpha`, amplitude `a` and cosine `c`. */
  function Design(alpha: real, a: real, c: real): Coefficients
    requires a != 0.0
  {
    var a0 := 1.0 + alpha / a;
    if a0 == 0.0 then IDENTITY
    else Coefficients((1.0 + alpha * a) / a0, (-2.0 * c) / a0, (1.0 - alpha * a) / a0, (-2.0 * c) / a0,
                      (1.0 - alpha / a) / a0)
  }

  /** The rates, frequencies and qualities for which there is a section to design. */
  predicate Designs(rate: real, frequency: real, q: real) {
    rate > 0.0 && frequency > 0.0 && q > 0.0 && rate * 0.5 * 0.9 >= 10.0
  }

  /** A centre that can be designed: at least 10 Hz, at most 0.45 of the rate. */
  function SafeFrequency(rate: real, frequency: real): (f: real)
    requires rate * 0.5 * 0.9 >= 10.0
    ensures 10.0 <= f <= rate * 0.45 && (10.0 <= frequency <= rate * 0.45 ==> f == frequency)
    ensures (frequency < 10.0 ==> f == 10.0) && (frequency > rate * 0.45 ==> f == rate * 0.45)
  {
    Clamp(frequency, 10.0, rate * 0.5 * 0.9)
  }

  function MakePeakingCoefficients(m: Maths, rate: real, frequency: real, q: real, gain: real): Coefficients
    requires m.Lawful()
  {
    if rate <= 0.0 || frequency <= 0.0 || q <= 0.0 then IDENTITY
    else
      var top := rate * 0.5 * 0.9;
      if top < 10.0 then IDENTITY
      else
        var omega := 2.0 * PI * (Clamp(frequency, 10.0, top) / rate);
        assert m.Power(gain / 40.0);
        Design(m.sin(omega) / (2.0 * q), m.pow10(gain / 40.0), m.cos(omega))
  }

  // ---------------------------------------------------------- the shape of every section

  /** The cookbook section before normalization: `beta` is the bandwidth over the amplitude, and
      the amplitude enters the numerator as `beta` times its square. */
  function Shape(beta: real, square: real, c: real): Coefficients
    requires beta > 0.0
  {
    var a0 := 1.0 + beta;
    Coefficients((1.0 + beta * square) / a0, (-2.0 * c) / a0, (1.0 - beta * square) / a0, (-2.0 * c) / a0,
                 (1.0 - beta) / a0)
  }

  lemma QuotientIsPositive(x: real, y: real)
    requires x > 0.0 && y > 0.0
    ensures x / y > 0.0
  {
  }

  lemma DesignHasShape(alpha: real, a: real, c: real)
    requires alpha > 0.0 && a > 0.0
    ensures alpha / a > 0.0 && Design(alpha, a, c) == Shape(alpha / a, a * a, c)
  {
    var beta := alpha / a;
    QuotientIsPositive(alpha, a);
    assert beta * a == alpha;
    assert beta * (a * a) == (beta * a) * a;
  }

  /** The angle of a clamped centre frequency lies strictly between 0 and pi. */
  lemma AngleIsProper(rate: real, frequency: real)
    requires rate > 0.0 && rate * 0.5 * 0.9 >= 10.0
    ensures 0.0 < 2.0 * PI * (SafeFrequency(rate, frequency) / rate) < PI
  {
    var f := SafeFrequency(rate, frequency);
    var x := f / rate;
    QuotientIsPositive(f, rate);
    assert x * rate == f;
    if x > 0.45 { MulStrict(0.45, x, rate); }
  }

  function Beta(m: Maths, rate: real, frequency: real, q: real, gain: real): (beta: real)
    requires m.Lawful() && Designs(rate, frequency, q)
    ensures beta > 0.0
  {
    var omega := 2.0 * PI * (SafeFrequency(rate, frequency) / rate);
    AngleIsProper(rate, frequency);
    assert m.UpperHalf(omega) && m.Power(gain / 40.0);
    QuotientIsPositive(m.sin(omega), 2.0 * q);
    QuotientIsPositive(m.sin(omega) / (2.0 * q), m.pow10(gain / 40.0));
    m.sin(omega) / (2.0 * q) / m.pow10(gain / 40.0)
  }

  lemma SquareBelowOne(p: real, c: real)
    requires p > 0.0 && p + Square(c) == 1.0
    ensures -1.0 < c < 1.0
  {
    if c >= 1.0 { SquareIsAboveOne(c); }
    if c <= -1.0 { SquareIsAboveOne(-c); }
  }

  lemma SquareIsAboveOne(x: real)
    requires x >= 1.0
    ensures Square(x) >= 1.0 && Square(-x) >= 1.0
  {
  }

  lemma CosineIsProper(m: Maths, x: real)
    requires m.Lawful() && 0.0 < x < PI
    ensures -1.0 < m.cos(x) < 1.0
  {
    assert m.UpperHalf(x) && m.Circle(x);
    SquareIsPositive(m.sin(x));
    SquareBelowOne(Square(m.sin(x)), m.cos(x));
  }

  /** Every designed section has the normalized shape, with a proper cosine. */
  lemma PeakingHasShape(m: Maths, rate: real, frequency: real, q: real, gain: real)
    requires m.Lawful() && Designs(rate, frequency, q)
    ensures
      var omega, a := 2.0 * PI * (SafeFrequency(rate, frequency) / rate), m.pow10(gain / 40.0);
      && -1.0 < m.cos(omega) < 1.0
      && MakePeakingCoefficients(m, rate, frequency, q, gain)
        == Shape(Beta(m, rate, frequency, q, gain), a * a, m.cos(omega))
  {
    var omega, a := 2.0 * PI * (SafeFrequency(rate, frequency) / rate), m.pow10(gain / 40.0);
    AngleIsProper(rate, frequency);
    assert m.UpperHalf(omega) && m.Power(gain / 40.0);
    CosineIsProper(m, omega);
    QuotientIsPositive(m.sin(omega), 2.0 * q);
    DesignHasShape(m.sin(omega) / (2.0 * q), a, m.cos(omega));
  }

  // ---------------------------------------------------------------------- the quality factor

  /** A shape's width, read off its coefficients. */
  lemma WidthOfShape(beta: real, square: real, c: real)
    requires beta > 0.0
    ensures
      var f := Shape(beta, square, c);
      1.0 - f.a2 == beta * (1.0 + f.a2) && f.b0 - f.b2 == beta * square * (1.0 + f.a2)
  {
    var a0, f, g := 1.0 + beta, Shape(beta, square, c), beta * square;
    OverSum(1.0, -beta, a0);
    OverSum(1.0, beta, a0);
    assert (1.0 + f.a2) * a0 == 2.0;
    assert (1.0 - f.a2) * a0 == 2.0 * beta;
    assert (f.b0 - f.b2) * a0 == 2.0 * g by { OverSum(1.0, g, a0); OverSum(1.0, -g, a0); }
    SameByProduct(1.0 - f.a2, beta, 1.0 + f.a2, a0);
    SameByProduct(f.b0 - f.b2, g, 1.0 + f.a2, a0);
  }

  lemma OverSum(x: real, y: real, d: real)
    requires d > 0.0
    ensures (x + y) / d * d == x + y
  {
  }

  lemma SameByProduct(p: real, k: real, w: real, d: real)
    requires d > 0.0 && w * d == 2.0 && p * d == 2.0 * k
    ensures p == k * w
  {
    assert (k * w) * d == k * (w * d);
    CancelFactor(p, k * w, d);
    CancelFactor(k * w, p, d);
  }

  lemma BetaIs(m: Maths, rate: real, frequency: real, q: real, gain: real, a: real, s: real)
    requires m.Lawful() && Designs(rate, frequency, q)
    requires a == m.pow10(gain / 40.0) && s == m.sin(2.0 * PI * (SafeFrequency(rate, frequency) / rate))
    ensures a > 0.0 && Beta(m, rate, frequency, q, gain) * a * (2.0 * q) == s
  {
    assert m.Power(gain / 40.0);
    QuotientTimes(s, 2.0 * q);
    QuotientTimes(s / (2.0 * q), a);
  }

  /** How wide a section is: the quality sets the distance of its poles from the unit circle, and with
      the amplitude that of its zeros. */
  lemma QualitySetsTheWidth(m: Maths, rate: real, frequency: real, q: real, gain: real)
    requires m.Lawful() && Designs(rate, frequency, q)
    ensures
      var a, s := m.pow10(gain / 40.0), m.sin(2.0 * PI * (SafeFrequency(rate, frequency) / rate));
      var c := MakePeakingCoefficients(m, rate, frequency, q, gain);
      && (1.0 - c.a2) * (2.0 * q * a) == (1.0 + c.a2) * s
      && (c.b0 - c.b2) * (2.0 * q) == (1.0 + c.a2) * a * s
      && c.a1 == c.b1 == -m.cos(2.0 * PI * (SafeFrequency(rate, frequency) / rate)) * (1.0 + c.a2)
  {
    var a, s := m.pow10(gain / 40.0), m.sin(2.0 * PI * (SafeFrequency(rate, frequency) / rate));
    var c, beta := MakePeakingCoefficients(m, rate, frequency, q, gain), Beta(m, rate, frequency, q, gain);
    PeakingHasShape(m, rate, frequency, q, gain);
    WidthOfShape(beta, a * a, m.cos(2.0 * PI * (SafeFrequency(rate, frequency) / rate)));
    BetaIs(m, rate, frequency, q, gain, a, s);
    WidthTimes(beta, 1.0 + c.a2, q, a, s);
  }

  lemma WidthTimes(beta: real, w: real, q: real, a: real, s: real)
    requires beta * a * (2.0 * q) == s
    ensures beta * w * (2.0 * q * a) == w * s && beta * (a * a) * w * (2.0 * q) == w * a * s
  {
    assert beta * w * (2.0 * q * a) == w * (beta * a * (2.0 * q));
    assert beta * (a * a) * w * (2.0 * q) == w * a * (beta * a * (2.0 * q));
  }

  // ------------------------------------------------------------------------ stability

  /** The triangle of stable second-order denominators. */
  predicate Stable(c: Coefficients) {
    -1.0 < c.a2 < 1.0 && -(1.0 + c.a2) < c.a1 < 1.0 + c.a2
  }

  lemma QuotientInside(x: real, d: real, bound: real)
    requires d > 0.0 && -(bound * d) < x < bound * d
    ensures -bound < x / d < bound
  {
    var q := x / d;
    assert q * d == x;
    if q >= bound { MulMonotone(bound, q, d); }
    if q <= -bound { MulMonotone(q, -bound, d); }
  }

  lemma ShapeIsStable(beta: real, square: real, c: real)
    requires beta > 0.0 && -1.0 < c < 1.0
    ensures Stable(Shape(beta, square, c))
  {
    var f, a0 := Shape(beta, square, c), 1.0 + beta;
    QuotientInside(1.0 - beta, a0, 1.0);
    QuotientInside(-2.0 * c, a0, 1.0 + f.a2);
  }

  /** Every section made is stable, whatever the rate, frequency, quality and gain. */
  lemma PeakingIsStable(m: Maths, rate: real, frequency: real, q: real, gain: real)
    requires m.Lawful()
    ensures Stable(MakePeakingCoefficients(m, rate, frequency, q, gain))
  {
    if Designs(rate, frequency, q) {
      PeakingHasShape(m, rate, frequency, q, gain);
      ShapeIsStable(Beta(m, rate, frequency, q, gain), m.pow10(gain / 40.0) * m.pow10(gain / 40.0),
                    m.cos(2.0 * PI * (SafeFrequency(rate, frequency) / rate)));
    }
  }

  /** Inside the triangle, every pole lies strictly inside the unit circle. */
  lemma PolesAreInside(c: Coefficients, z: Complex)
    requires Stable(c)
    requires z.Times(z).Plus(z.Scaled(c.a1)).Plus(Complex(c.a2, 0.0)) == Complex(0.0, 0.0)
    ensures z.Norm() < 1.0
  {
    var re, im := z.re, z.im;
    assert re * re - im * im + re * c.a1 + c.a2 == 0.0;
    assert re * im + im * re + im * c.a1 == 0.0;
    if im != 0.0 {
      assert im * (2.0 * re + c.a1) == 0.0;
      assert 2.0 * re + c.a1 == 0.0;
      assert re * c.a1 == -2.0 * (re * re);
    } else {
      RealPoleIsInside(c.a1, c.a2, re);
      SquareIsBelowOne(re);
    }
  }

  lemma RealPoleIsInside(a1: real, a2: real, r: real)
    requires -1.0 < a2 < 1.0 && -(1.0 + a2) < a1 < 1.0 + a2 && r * r + r * a1 + a2 == 0.0
    ensures -1.0 < r < 1.0
  {
    if r >= 1.0 { PositiveFromOneOn(a1, a2, r); }
    if r <= -1.0 { PositiveFromOneOn(-a1, a2, -r); }
  }

  lemma PositiveFromOneOn(a1: real, a2: real, r: real)
    requires r >= 1.0 && a2 < 1.0 && -(1.0 + a2) < a1
    ensures r * r + r * a1 + a2 > 0.0
  {
    MulMonotone(0.0, r - 1.0, r + 1.0 + a1);
    assert (r - 1.0) * (r + 1.0 + a1) == r * r + r * a1 - 1.0 - a1;
  }

  lemma SquareIsBelowOne(r: real)
    requires -1.0 < r < 1.0
    ensures r * r < 1.0
  {
    if r >= 0.0 { MulMonotone(r, 1.0, r); } else { MulMonotone(-r, 1.0, -r); assert r * r == (-r) * (-r); }
  }

  // --------------------------------------------------------------- squared magnitudes

  function Numerator(c: Coefficients, z: Complex): Complex {
    Complex(c.b0, 0.0).Plus(z.Scaled(c.b1)).Plus(z.Times(z).Scaled(c.b2))
  }

  function Denominator(c: Coefficients, z: Complex): Complex {
    Complex(1.0, 0.0).Plus(z.Scaled(c.a1)).Plus(z.Times(z).Scaled(c.a2))
  }

  /** On the unit circle, (1+g) - 2cz + (1-g)z^2 has squared magnitude 4(x-c)^2 + 4 g^2 y^2. */
  function Bell(g: real, c: real, z: Complex): real {
    4.0 * ((z.re - c) * (z.re - c)) + 4.0 * ((g * g) * (z.im * z.im))
  }

  lemma CircleSquares(z: Complex)
    requires z.Norm() == 1.0
    ensures z.Times(z).re == 1.0 - 2.0 * (z.im * z.im) && z.Times(z).im == 2.0 * (z.re * z.im)
  {
  }

  lemma BellIsNorm(g: real, c: real, z: Complex)
    requires z.Norm() == 1.0
    ensures Complex(1.0 + g, 0.0).Plus(z.Scaled(-2.0 * c)).Plus(z.Times(z).Scaled(1.0 - g)).Norm() == Bell(g, c, z)
  {
    var p := Complex(1.0 + g, 0.0).Plus(z.Scaled(-2.0 * c)).Plus(z.Times(z).Scaled(1.0 - g));
    var x, y := z.re, z.im;
    CircleSquares(z);
    // p is z times (2(x-c) - 2igy).
    var w := Complex(2.0 * (x - c), -2.0 * (g * y));
    TurnedBell(g, c, z);
    NormOfProduct(z, w);
    assert w.Norm() == Bell(g, c, z) by {
      assert (2.0 * (x - c)) * (2.0 * (x - c)) == 4.0 * ((x - c) * (x - c));
      assert (-2.0 * (g * y)) * (-2.0 * (g * y)) == 4.0 * ((g * g) * (y * y));
    }
  }

  lemma TurnedBell(g: real, c: real, z: Complex)
    requires z.Norm() == 1.0
    ensures Complex(1.0 + g, 0.0).Plus(z.Scaled(-2.0 * c)).Plus(z.Times(z).Scaled(1.0 - g))
         == z.Times(Complex(2.0 * (z.re - c), -2.0 * (g * z.im)))
  {
    var conjugate, middle := Complex(z.re, -z.im), Complex(-2.0 * c, 0.0);
    ConjugateInverts(z);
    RealScales(1.0 + g);
    ScaledInside(z, conjugate, 1.0 + g);
    ScaledIsTimes(z, -2.0 * c);
    ScaledInside(z, z, 1.0 - g);
    TimesDistributes(z, conjugate.Scaled(1.0 + g), middle);
    TimesDistributes(z, conjugate.Scaled(1.0 + g).Plus(middle), z.Scaled(1.0 - g));
    TurnedSum(g, c, z.re, z.im);
  }

  lemma TurnedSum(g: real, c: real, x: real, y: real)
    ensures Complex(x, -y).Scaled(1.0 + g).Plus(Complex(-2.0 * c, 0.0)).Plus(Complex(x, y).Scaled(1.0 - g))
         == Complex(2.0 * (x - c), -2.0 * (g * y))
  {
    assert x * (1.0 + g) == x + g * x && x * (1.0 - g) == x - g * x;
    assert (-y) * (1.0 + g) == -y - g * y && y * (1.0 - g) == y - g * y;
  }

  /** Clearing the common denominator of a section's coefficients. */
  lemma NormClears(p: real, q: real, r: real, a0: real, z: Complex, n: real, k: real)
    requires a0 > 0.0 && k == Square(a0)
    requires n == Complex(p / a0, 0.0).Plus(z.Scaled(q / a0)).Plus(z.Times(z).Scaled(r / a0)).Norm()
    ensures n * k == Complex(p, 0.0).Plus(z.Scaled(q)).Plus(z.Times(z).Scaled(r)).Norm()
  {
    var cleared := Complex(p / a0, 0.0).Plus(z.Scaled(q / a0)).Plus(z.Times(z).Scaled(r / a0));
    QuotientTimes(p, a0);
    ScaledQuotient(z, q, a0);
    ScaledQuotient(z.Times(z), r, a0);
    assert cleared.Scaled(a0) == Complex(p, 0.0).Plus(z.Scaled(q)).Plus(z.Times(z).Scaled(r)) by {
      Distributes(Complex(p / a0, 0.0), z.Scaled(q / a0), z.Times(z).Scaled(r / a0), a0);
    }
    NormOfScaled(cleared, a0, n, k);
  }

  lemma QuotientTimes(p: real, a0: real)
    requires a0 > 0.0
    ensures p / a0 * a0 == p
  {
  }

  lemma ScaledQuotient(z: Complex, q: real, a0: real)
    requires a0 > 0.0
    ensures z.Scaled(q / a0).Scaled(a0) == z.Scaled(q)
  {
    QuotientTimes(q, a0);
    var x := q / a0;
    assert (z.re * x) * a0 == z.re * (x * a0);
    assert (z.im * x) * a0 == z.im * (x * a0);
  }

  lemma Distributes(u: Complex, v: Complex, w: Complex, k: real)
    ensures u.Plus(v).Plus(w).Scaled(k) == u.Scaled(k).Plus(v.Scaled(k)).Plus(w.Scaled(k))
  {
  }

  /** On the unit circle a section's two polynomials are bells over the same constant. */
  lemma ShapeMagnitudes(beta: real, square: real, c: real, z: Complex, g: real, n: real, d: real, k: real)
    requires beta > 0.0 && z.Norm() == 1.0 && g == beta * square && k == Square(1.0 + beta)
    requires n == Numerator(Shape(beta, square, c), z).Norm() && d == Denominator(Shape(beta, square, c), z).Norm()
    ensures n * k == Bell(g, c, z) && d * k == Bell(beta, c, z)
  {
    NumeratorMagnitude(beta, square, c, z, g, n, k);
    DenominatorMagnitude(beta, square, c, z, d, k);
  }

  lemma DenominatorMagnitude(beta: real, square: real, c: real, z: Complex, d: real, k: real)
    requires beta > 0.0 && z.Norm() == 1.0
    requires d == Denominator(Shape(beta, square, c), z).Norm() && k == Square(1.0 + beta)
    ensures d * k == Bell(beta, c, z)
  {
    DivideIs(1.0 + beta, 1.0 + beta, 1.0);
    NormClears(1.0 + beta, -2.0 * c, 1.0 - beta, 1.0 + beta, z, d, k);
    BellIsNorm(beta, c, z);
  }

  lemma NumeratorMagnitude(beta: real, square: real, c: real, z: Complex, g: real, n: real, k: real)
    requires beta > 0.0 && z.Norm() == 1.0 && g == beta * square
    requires n == Numerator(Shape(beta, square, c), z).Norm() && k == Square(1.0 + beta)
    ensures n * k == Bell(g, c, z)
  {
    NormClears(1.0 + g, -2.0 * c, 1.0 - g, 1.0 + beta, z, n, k);
    BellIsNorm(g, c, z);
  }

  lemma BellIsPositive(g: real, c: real, z: Complex)
    requires g > 0.0 && -1.0 < c < 1.0 && z.Norm() == 1.0
    ensures Bell(g, c, z) > 0.0
  {
    SquaresAreNotNegative(z.re - c, g, z.im);
    if z.im != 0.0 {
      SquareIsPositive(g);
      SquareIsPositive(z.im);
      ProductIsPositive(Square(g), Square(z.im), (g * g) * (z.im * z.im));
    } else {
      UnitReal(z.re);
      SquareIsPositive(z.re - c);
    }
  }

  lemma SquaresAreNotNegative(x: real, g: real, y: real)
    ensures x * x >= 0.0 && (g * g) * (y * y) >= 0.0
  {
    assert (g * g) * (y * y) == (g * y) * (g * y);
  }

  lemma UnitReal(x: real)
    requires x * x == 1.0
    ensures x == 1.0 || x == -1.0
  {
    assert (x - 1.0) * (x + 1.0) == 0.0;
  }

  /** Scaling the width of a bell scales its height by at most the square. */
  lemma BellScales(g: real, s: real, c: real, z: Complex)
    requires s > 0.0
    ensures s >= 1.0 ==> Bell(g, c, z) <= Bell(g * s, c, z) <= Square(s) * Bell(g, c, z)
    ensures s <= 1.0 ==> Square(s) * Bell(g, c, z) <= Bell(g * s, c, z) <= Bell(g, c, z)
    ensures z.re == c ==> Bell(g * s, c, z) == Square(s) * Bell(g, c, z)
  {
    var x, y, w := (z.re - c) * (z.re - c), (g * g) * (z.im * z.im), Square(s);
    SquaresAreNotNegative(z.re - c, g, z.im);
    assert ((g * s) * (g * s)) * (z.im * z.im) == w * y;
    assert Bell(g * s, c, z) == 4.0 * x + 4.0 * (w * y);
    assert w * Bell(g, c, z) == 4.0 * (w * x) + 4.0 * (w * y);
    if s >= 1.0 {
      SquareIsAboveOne(s);
      MulMonotone(1.0, w, x);
      MulMonotone(1.0, w, y);
    }
    if s <= 1.0 {
      SquareIsAtMostOne(s);
      MulMonotone(w, 1.0, x);
      MulMonotone(w, 1.0, y);
    }
  }

  lemma SquareIsAtMostOne(s: real)
    requires 0.0 < s <= 1.0
    ensures 0.0 <= Square(s) <= 1.0
  {
    ShareIs(s, s, Square(s));
  }

  /** The squared magnitude that a gain in decibels stands for. */
  function PowerOf(m: Maths, gain: real): real { m.pow10(gain / 10.0) }

  lemma PowersOfGain(m: Maths, gain: real)
    requires m.Lawful()
    ensures var s := m.pow10(gain / 40.0) * m.pow10(gain / 40.0);
            && s == m.pow10(gain / 20.0) && s > 0.0 && Square(s) == PowerOf(m, gain)
            && (gain >= 0.0 ==> s >= 1.0) && (gain <= 0.0 ==> s <= 1.0)
  {
    var h := gain / 40.0;
    assert m.Power(gain / 20.0) && m.PowerAdds(h, h) && h + h == gain / 20.0;
    assert m.PowerAdds(gain / 20.0, gain / 20.0) && gain / 20.0 + gain / 20.0 == gain / 10.0;
    PowerOfZero(m);
    assert m.PowerGrows(0.0, gain / 20.0) && m.PowerGrows(gain / 20.0, 0.0);
  }

  lemma PowerOfZero(m: Maths)
    requires m.Lawful()
    ensures m.pow10(0.0) == 1.0
  {
    assert m.PowerAdds(0.0, 0.0) && m.Power(0.0);
    OnlyOneIsItsSquare(m.pow10(0.0));
  }

  lemma OnlyOneIsItsSquare(p: real)
    requires p > 0.0 && p == Square(p)
    ensures p == 1.0
  {
    SquareIs(p);
    FactorMoves(p, p, Square(p));
  }

  /** Cancels a common positive factor. */
  lemma CancelFactor(x: real, y: real, k: real)
    requires k > 0.0
    ensures x * k <= y * k <==> x <= y
  {
    if x < y { MulStrict(x, y, k); }
    if y < x { MulStrict(y, x, k); }
  }

  /** The response at `z` has a magnitude, and its square lies between 1 and `w`. */
  predicate MagnitudeWithin(c: Coefficients, z: Complex, w: real) {
    QuotientWithin(Numerator(c, z), Denominator(c, z), w)
  }

  predicate QuotientWithin(p: Complex, q: Complex, w: real) {
    var n, d := p.Norm(), q.Norm();
    d > 0.0 && ((d <= n <= w * d && w >= 1.0) || (w * d <= n <= d && w <= 1.0))
  }

  /** The squared magnitude of the response at `z` is exactly `w`. */
  predicate PeaksAt(c: Coefficients, z: Complex, w: real) {
    Numerator(c, z).Norm() == w * Denominator(c, z).Norm()
  }

  /** At every frequency the squared magnitude of a section lies between 1 and the power its gain
      stands for, and the denominator never vanishes. */
  lemma PeakingMagnitude(m: Maths, rate: real, frequency: real, q: real, gain: real, z: Complex)
    requires m.Lawful() && z.Norm() == 1.0
    ensures MagnitudeWithin(MakePeakingCoefficients(m, rate, frequency, q, gain), z, PowerOf(m, gain))
  {
    if Designs(rate, frequency, q) {
      DesignedMagnitude(m, rate, frequency, q, gain, z);
    } else {
      OtherwiseIdentity(m, rate, frequency, q, gain);
      IdentityIsWithin(z, PowerOf(m, gain));
    }
  }

  lemma OtherwiseIdentity(m: Maths, rate: real, frequency: real, q: real, gain: real)
    requires m.Lawful() && !Designs(rate, frequency, q)
    ensures MakePeakingCoefficients(m, rate, frequency, q, gain) == IDENTITY
  {
  }

  lemma IdentityIsWithin(z: Complex, w: real)
    ensures MagnitudeWithin(IDENTITY, z, w)
  {
    IdentityMagnitude(z);
    OneIsWithin(w);
  }

  lemma OneIsWithin(w: real)
    ensures QuotientWithin(Complex(1.0, 0.0), Complex(1.0, 0.0), w)
  {
    assert Complex(1.0, 0.0).Norm() == 1.0;
  }

  lemma PowerOfSign(m: Maths, gain: real)
    requires m.Lawful()
    ensures gain >= 0.0 ==> PowerOf(m, gain) >= 1.0
    ensures gain <= 0.0 ==> PowerOf(m, gain) <= 1.0
  {
    PowerOfZero(m);
    assert m.PowerGrows(0.0, gain / 10.0) && m.PowerGrows(gain / 10.0, 0.0);
  }

  lemma DesignedMagnitude(m: Maths, rate: real, frequency: real, q: real, gain: real, z: Complex)
    requires m.Lawful() && z.Norm() == 1.0 && Designs(rate, frequency, q)
    ensures MagnitudeWithin(MakePeakingCoefficients(m, rate, frequency, q, gain), z, PowerOf(m, gain))
    ensures z.re == m.cos(2.0 * PI * (SafeFrequency(rate, frequency) / rate))
        ==> PeaksAt(MakePeakingCoefficients(m, rate, frequency, q, gain), z, PowerOf(m, gain))
  {
    PowersOfGain(m, gain);
    PowerOfSign(m, gain);
    PeakingHasShape(m, rate, frequency, q, gain);
    ShapeIsWithin(Beta(m, rate, frequency, q, gain), m.pow10(gain / 40.0) * m.pow10(gain / 40.0),
                  m.cos(2.0 * PI * (SafeFrequency(rate, frequency) / rate)), z, PowerOf(m, gain));
  }

  lemma IdentityMagnitude(z: Complex)
    ensures Numerator(IDENTITY, z) == Denominator(IDENTITY, z) == Complex(1.0, 0.0)
  {
    ScaledByZero(z);
    ScaledByZero(z.Times(z));
  }

  lemma ScaledByZero(z: Complex)
    ensures z.Scaled(0.0) == Complex(0.0, 0.0)
  {
  }

  lemma ShapeBounds(beta: real, s: real, c: real, z: Complex, n: real, d: real, w: real)
    requires beta > 0.0 && s > 0.0 && -1.0 < c < 1.0 && z.Norm() == 1.0 && w == Square(s)
    requires n == Numerator(Shape(beta, s, c), z).Norm() && d == Denominator(Shape(beta, s, c), z).Norm()
    ensures Ordered(n, d, w * d, s) && (z.re == c ==> n == w * d)
  {
    var k, g := Square(1.0 + beta), beta * s;
    var top, bottom := Bell(g, c, z), Bell(beta, c, z);
    SquareIsPositive(1.0 + beta);
    ShapeMagnitudes(beta, s, c, z, g, n, d, k);
    BellIsOrdered(beta, s, c, z, top, bottom, w);
    CancelOrdered(n, d, w, top, bottom, k, s);
  }

  lemma ShapeIsWithin(beta: real, s: real, c: real, z: Complex, w: real)
    requires beta > 0.0 && s > 0.0 && -1.0 < c < 1.0 && z.Norm() == 1.0
    requires w == Square(s) && (s >= 1.0 ==> w >= 1.0) && (s <= 1.0 ==> w <= 1.0)
    ensures MagnitudeWithin(Shape(beta, s, c), z, w)
    ensures z.re == c ==> PeaksAt(Shape(beta, s, c), z, w)
  {
    ShapeBounds(beta, s, c, z, Numerator(Shape(beta, s, c), z).Norm(), Denominator(Shape(beta, s, c), z).Norm(), w);
  }

  lemma BellIsOrdered(g: real, s: real, c: real, z: Complex, top: real, bottom: real, w: real)
    requires g > 0.0 && s > 0.0 && -1.0 < c < 1.0 && z.Norm() == 1.0
    requires top == Bell(g * s, c, z) && bottom == Bell(g, c, z) && w == Square(s)
    ensures Ordered(top, bottom, w * bottom, s) && (z.re == c ==> top == w * bottom)
  {
    BellIsPositive(g, c, z);
    BellScales(g, s, c, z);
  }

  /** Between `d` and `wd`, upwards or downwards as the amplitude says. */
  predicate Ordered(n: real, d: real, wd: real, s: real) {
    d > 0.0 && (s >= 1.0 ==> d <= n <= wd) && (s <= 1.0 ==> wd <= n <= d)
  }

  /** Cancels the common factor of numerator and denominator. */
  lemma CancelOrdered(n: real, d: real, w: real, top: real, bottom: real, k: real, s: real)
    requires k > 0.0 && n * k == top && d * k == bottom && Ordered(top, bottom, w * bottom, s)
    ensures Ordered(n, d, w * d, s) && (top == w * bottom ==> n == w * d)
  {
    var wd := w * d;
    Regrouped(w, d, k, bottom);
    CancelFactor(d, 0.0, k);
    CancelFactor(d, n, k);
    CancelFactor(n, d, k);
    CancelFactor(wd, n, k);
    CancelFactor(n, wd, k);
  }

  lemma Regrouped(w: real, d: real, k: real, bottom: real)
    requires d * k == bottom
    ensures (w * d) * k == w * bottom
  {
  }

  /** At its clamped centre a section's squared magnitude is exactly the power of its gain. */
  lemma PeakingMagnitudeAtCentre(m: Maths, rate: real, frequency: real, q: real, gain: real, z: Complex)
    requires m.Lawful() && Designs(rate, frequency, q)
    requires z.Norm() == 1.0 && z.re == m.cos(2.0 * PI * (SafeFrequency(rate, frequency) / rate))
    ensures PeaksAt(MakePeakingCoefficients(m, rate, frequency, q, gain), z, PowerOf(m, gain))
  {
    DesignedMagnitude(m, rate, frequency, q, gain, z);
  }

  // --------------------------------------------------------------- a narrower section

  /** A greater quality makes a narrower bell. */
  lemma NarrowerBeta(m: Maths, rate: real, frequency: real, q: real, more: real, gain: real)
    requires m.Lawful() && Designs(rate, frequency, q) && q < more
    ensures 0.0 < Beta(m, rate, frequency, more, gain) < Beta(m, rate, frequency, q, gain)
  {
    var a, s := m.pow10(gain / 40.0), m.sin(2.0 * PI * (SafeFrequency(rate, frequency) / rate));
    var x, y := Beta(m, rate, frequency, q, gain), Beta(m, rate, frequency, more, gain);
    BetaIs(m, rate, frequency, q, gain, a, s);
    BetaIs(m, rate, frequency, more, gain, a, s);
    if x <= y {
      MulMonotone(x, y, a);
      ProductIsPositive(y, a, y * a);
      MulMonotone(x * a, y * a, 2.0 * q);
      MulStrict(2.0 * q, 2.0 * more, y * a);
    }
  }

  /** `n` over `d` lies strictly between 1 and `top` over `bottom`, above 1 or below it as `s` says. */
  predicate Nearer(n: real, d: real, top: real, bottom: real, s: real) {
    && (s > 1.0 ==> d < n && n * bottom < top * d)
    && (s < 1.0 ==> n < d && top * d < n * bottom)
  }

  /** The two ratios of bells at a point off the centre, in the squares of their widths. */
  lemma BellsNearer(x: real, y: real, u: real, v: real, w: real, s: real)
    requires x > 0.0 && y > 0.0 && 0.0 < v < u && (s > 1.0 ==> w > 1.0) && (s < 1.0 ==> w < 1.0)
    ensures Nearer(x + v * w * y, x + v * y, x + u * w * y, x + u * y, s)
  {
    var p, d := x * y, (u - v) * (w - 1.0);
    ProductIsPositive(x, y, p);
    var n, below, top, bottom := x + v * w * y, x + v * y, x + u * w * y, x + u * y;
    CrossProducts(x, y, u, v, w);
    assert top * below - n * bottom == p * d;
    var gain := v * y;
    ProductIsPositive(v, y, gain);
    assert n - below == gain * (w - 1.0);
    if s > 1.0 {
      ProductIsPositive(u - v, w - 1.0, d);
      ProductIsPositive(p, d, p * d);
      ProductIsPositive(gain, w - 1.0, n - below);
    }
    if s < 1.0 {
      ProductIsPositive(u - v, 1.0 - w, -d);
      ProductIsPositive(p, -d, -(p * d));
      ProductIsPositive(gain, 1.0 - w, below - n);
    }
  }

  lemma CrossProducts(x: real, y: real, u: real, v: real, w: real)
    ensures (x + u * w * y) * (x + v * y) - (x + v * w * y) * (x + u * y) == x * y * ((u - v) * (w - 1.0))
  {
    var a, b, c, d := u * w * y, v * y, v * w * y, u * y;
    assert (x + a) * (x + b) == x * x + x * b + a * x + a * b;
    assert (x + c) * (x + d) == x * x + x * d + c * x + c * d;
    assert a * b == c * d;
    assert x * y * ((u - v) * (w - 1.0)) == x * a - x * d - x * c + x * b;
  }

  /** Away from its centre, and off the ends of the spectrum, a section of greater quality has its
      squared magnitude strictly nearer to 1. */
  lemma NarrowerIsNearer(m: Maths, rate: real, frequency: real, q: real, more: real, gain: real, z: Complex)
    requires m.Lawful() && Designs(rate, frequency, q) && q < more && z.Norm() == 1.0 && z.im != 0.0
    requires z.re != m.cos(2.0 * PI * (SafeFrequency(rate, frequency) / rate))
    ensures
      var c := MakePeakingCoefficients(m, rate, frequency, q, gain);
      var f := MakePeakingCoefficients(m, rate, frequency, more, gain);
      Nearer(Numerator(f, z).Norm(), Denominator(f, z).Norm(), Numerator(c, z).Norm(), Denominator(c, z).Norm(),
             m.pow10(gain / 20.0))
  {
    var s, c := m.pow10(gain / 20.0), m.cos(2.0 * PI * (SafeFrequency(rate, frequency) / rate));
    var wide, narrow := Beta(m, rate, frequency, q, gain), Beta(m, rate, frequency, more, gain);
    PowersOfGain(m, gain);
    PeakingHasShape(m, rate, frequency, q, gain);
    PeakingHasShape(m, rate, frequency, more, gain);
    NarrowerBeta(m, rate, frequency, q, more, gain);
    NarrowerShape(wide, narrow, s, c, z, Numerator(Shape(narrow, s, c), z).Norm(),
                  Denominator(Shape(narrow, s, c), z).Norm(), Numerator(Shape(wide, s, c), z).Norm(),
                  Denominator(Shape(wide, s, c), z).Norm());
  }

  lemma NarrowerShape(wide: real, narrow: real, s: real, c: real, z: Complex,
                      n: real, d: real, top: real, bottom: real)
    requires 0.0 < narrow < wide && s > 0.0 && z.Norm() == 1.0 && z.im != 0.0 && z.re != c
    requires n == Numerator(Shape(narrow, s, c), z).Norm() && d == Denominator(Shape(narrow, s, c), z).Norm()
    requires top == Numerator(Shape(wide, s, c), z).Norm() && bottom == Denominator(Shape(wide, s, c), z).Norm()
    ensures Nearer(n, d, top, bottom, s)
  {
    var k, l := Square(1.0 + narrow), Square(1.0 + wide);
    SquareIsPositive(1.0 + narrow);
    SquareIsPositive(1.0 + wide);
    var gn, gw := narrow * s, wide * s;
    ShapeMagnitudes(narrow, s, c, z, gn, n, d, k);
    ShapeMagnitudes(wide, s, c, z, gw, top, bottom, l);
    NarrowerBells(wide, narrow, s, c, z, gn, gw);
    NearerClears(n, d, top, bottom, s, k, l, Bell(gn, c, z), Bell(narrow, c, z), Bell(gw, c, z), Bell(wide, c, z));
  }

  lemma NarrowerBells(wide: real, narrow: real, s: real, c: real, z: Complex, gn: real, gw: real)
    requires 0.0 < narrow < wide && s > 0.0 && z.im != 0.0 && z.re != c && gn == narrow * s && gw == wide * s
    ensures Nearer(Bell(gn, c, z), Bell(narrow, c, z), Bell(gw, c, z), Bell(wide, c, z), s)
  {
    var x, y, u, v, w := 4.0 * Square(z.re - c), 4.0 * Square(z.im), Square(wide), Square(narrow), Square(s);
    SquareIsPositive(z.re - c);
    SquareIsPositive(z.im);
    SquareIsPositive(narrow);
    SquaresKeepOrder(narrow, wide);
    if s > 1.0 { SquaresKeepOrder(1.0, s); }
    if s < 1.0 { SquaresKeepOrder(s, 1.0); }
    BellsNearer(x, y, u, v, w, s);
    BellInSquares(narrow, s, gn, c, z, x, y);
    BellInSquares(wide, s, gw, c, z, x, y);
  }

  lemma SquaresKeepOrder(x: real, y: real)
    requires 0.0 < x < y
    ensures Square(x) < Square(y)
  {
    MulStrict(x, y, x);
    MulStrict(x, y, y);
  }

  lemma BellInSquares(g: real, s: real, gs: real, c: real, z: Complex, x: real, y: real)
    requires gs == g * s && x == 4.0 * Square(z.re - c) && y == 4.0 * Square(z.im)
    ensures Bell(g, c, z) == x + Square(g) * y && Bell(gs, c, z) == x + Square(g) * Square(s) * y
  {
    assert gs * gs == (g * g) * (s * s);
  }

  lemma NearerClears(n: real, d: real, top: real, bottom: real, s: real, k: real, l: real,
                     nk: real, dk: real, tl: real, bl: real)
    requires k > 0.0 && l > 0.0 && n * k == nk && d * k == dk && top * l == tl && bottom * l == bl
    requires Nearer(nk, dk, tl, bl, s)
    ensures Nearer(n, d, top, bottom, s)
  {
    var p := k * l;
    ProductIsPositive(k, l, p);
    assert nk * bl == (n * bottom) * p;
    assert tl * dk == (top * d) * p;
    CancelFactor(n, d, k);
    CancelFactor(d, n, k);
    CancelFactor(n * bottom, top * d, p);
    CancelFactor(top * d, n * bottom, p);
  }

  // ---------------------------------------------------------------------- zero gain

  lemma FlatShape(beta: real, c: real)
    requires beta > 0.0
    ensures var f := Shape(beta, 1.0, c); f.b0 == 1.0 && f.b1 == f.a1 && f.b2 == f.a2
  {
    assert beta * 1.0 == beta;
    DivideIs(1.0 + beta, 1.0 + beta, 1.0);
  }

  /** A section whose numerator equals its denominator. */
  predicate IsFlat(c: Coefficients) { c.b0 == 1.0 && c.b1 == c.a1 && c.b2 == c.a2 }

  /** At 0 dB the numerator of every section equals its denominator. */
  lemma ZeroGainIsFlat(m: Maths, rate: real, frequency: real, q: real)
    requires m.Lawful()
    ensures IsFlat(MakePeakingCoefficients(m, rate, frequency, q, 0.0))
  {
    if Designs(rate, frequency, q) {
      PeakingHasShape(m, rate, frequency, q, 0.0);
      PowerOfZero(m);
      FlatShape(Beta(m, rate, frequency, q, 0.0), m.cos(2.0 * PI * (SafeFrequency(rate, frequency) / rate)));
    } else {
      OtherwiseIdentity(m, rate, frequency, q, 0.0);
    }
  }

  /** Where no band can be designed, the section, started from silence, passes every sample through. */
  lemma NoBandIsIdentity(m: Maths, rate: real, frequency: real, q: real, gain: real, xs: seq<real>, channels: nat)
    requires m.Lawful() && !Designs(rate, frequency, q) && channels > 0
    ensures Response(Silent(MakePeakingCoefficients(m, rate, frequency, q, gain), channels), xs) == xs
  {
    OtherwiseIdentity(m, rate, frequency, q, gain);
    FlatSectionIsIdentity(MakePeakingCoefficients(m, rate, frequency, q, gain), xs, channels);
  }

  /** A band at 0 dB, started from silence, passes every sample of every channel through. */
  lemma ZeroGainIsIdentity(m: Maths, rate: real, frequency: real, q: real, xs: seq<real>, channels: nat)
    requires m.Lawful() && channels > 0
    ensures Response(Silent(MakePeakingCoefficients(m, rate, frequency, q, 0.0), channels), xs) == xs
  {
    ZeroGainIsFlat(m, rate, frequency, q);
    FlatSectionIsIdentity(MakePeakingCoefficients(m, rate, frequency, q, 0.0), xs, channels);
  }
}

/** Complex arithmetic as the response sampler uses it. */
module ComplexPlane {
  datatype Complex = Complex(re: real, im: real) {
    function Plus(w: Complex): Complex { Complex(re + w.re, im + w.im) }

    function Times(w: Complex): Complex { Complex(re * w.re - im * w.im, re * w.im + im * w.re) }

    function Scaled(k: real): Complex { Complex(re * k, im * k) }

    /** The squared magnitude. */
    function Norm(): real { re * re + im * im }

    function Over(w: Complex): Complex
      requires w.Norm() != 0.0
    {
      Complex((re * w.re + im * w.im) / w.Norm(), (im * w.re - re * w.im) / w.Norm())
    }
  }

  /** On the unit circle the conjugate is the inverse. */
  lemma ConjugateInverts(z: Complex)
    requires z.Norm() == 1.0
    ensures z.Times(Complex(z.re, -z.im)) == Complex(1.0, 0.0)
  {
    assert z.im * (-z.im) == -(z.im * z.im) && z.re * (-z.im) == -(z.re * z.im);
  }

  lemma RealScales(k: real)
    ensures Complex(1.0, 0.0).Scaled(k) == Complex(k, 0.0)
  {
  }

  lemma ScaledIsTimes(z: Complex, k: real)
    ensures z.Scaled(k) == z.Times(Complex(k, 0.0))
  {
  }

  lemma ScaledInside(z: Complex, w: Complex, k: real)
    ensures z.Times(w).Scaled(k) == z.Times(w.Scaled(k))
  {
    assert (z.re * w.re - z.im * w.im) * k == z.re * (w.re * k) - z.im * (w.im * k);
    assert (z.re * w.im + z.im * w.re) * k == z.re * (w.im * k) + z.im * (w.re * k);
  }

  lemma TimesDistributes(z: Complex, v: Complex, w: Complex)
    ensures z.Times(v.Plus(w)) == z.Times(v).Plus(z.Times(w))
  {
  }

  lemma TimesCommutes(z: Complex, w: Complex)
    ensures z.Times(w) == w.Times(z)
  {
  }

  lemma TimesAssociates(u: Complex, v: Complex, w: Complex)
    ensures u.Times(v).Times(w) == u.Times(v.Times(w))
  {
  }

  lemma TimesOne(z: Complex)
    ensures Complex(1.0, 0.0).Times(z) == z && z.Times(Complex(1.0, 0.0)) == z
  {
  }

  lemma RealTimes(k: real, z: Complex)
    ensures Complex(k, 0.0).Times(z) == z.Scaled(k)
  {
  }

  lemma SumTimes(u: Complex, v: Complex, w: Complex)
    ensures u.Plus(v).Times(w) == u.Times(w).Plus(v.Times(w))
  {
  }

  lemma ScaledTimes(z: Complex, w: Complex, k: real)
    ensures z.Scaled(k).Times(w) == z.Times(w).Scaled(k)
  {
  }

  lemma TimesCommuteInner(u: Complex, v: Complex, w: Complex)
    ensures u.Times(v).Times(w) == u.Times(w).Times(v)
  {
    TimesCommutes(v, w);
    TimesAssociates(u, v, w);
    TimesAssociates(u, w, v);
  }

  lemma NormOfProduct(z: Complex, w: Complex)
    ensures z.Times(w).Norm() == z.Norm() * w.Norm()
  {
    var a, b, c, d := z.re, z.im, w.re, w.im;
    assert (a * c - b * d) * (a * c - b * d) == (a * a) * (c * c) - 2.0 * (a * b * c * d) + (b * b) * (d * d);
    assert (a * d + b * c) * (a * d + b * c) == (a * a) * (d * d) + 2.0 * (a * b * c * d) + (b * b) * (c * c);
    assert (a * a + b * b) * (c * c + d * d)
      == (a * a) * (c * c) + (a * a) * (d * d) + (b * b) * (c * c) + (b * b) * (d * d);
  }

  lemma NormOfScaled(z: Complex, a: real, n: real, k: real)
    requires n == z.Norm() && k == a * a
    ensures z.Scaled(a).Norm() == n * k
  {
    var x, y := z.re, z.im;
    assert (x * a) * (x * a) == (x * x) * k && (y * a) * (y * a) == (y * y) * k;
    assert n * k == (x * x) * k + (y * y) * k;
  }

  lemma SquaresScale(p: real, q: real, n: real, u: real, v: real)
    requires p * n == u && q * n == v
    ensures (p * p + q * q) * n * n == u * u + v * v
  {
    assert (p * p) * n * n == (p * n) * (p * n);
    assert (q * q) * n * n == (q * n) * (q * n);
  }

  lemma CancelDivisor(x: real, y: real, n: real)
    requires n != 0.0 && x * n == y * n
    ensures x == y
  {
    assert (x - y) * n == 0.0;
  }

  /** The conjugate has the same magnitude, so the product with it has that of the dividend. */
  lemma ConjugateProduct(z: Complex, w: Complex, u: real, v: real)
    requires u == z.re * w.re + z.im * w.im && v == z.im * w.re - z.re * w.im
    ensures u * u + v * v == z.Norm() * w.Norm()
  {
    var conjugate := Complex(w.re, -w.im);
    NormOfProduct(z, conjugate);
    assert z.Times(conjugate) == Complex(u, v);
    assert conjugate.Norm() == w.Norm();
  }

  lemma QuotientTimes(x: real, n: real)
    requires n != 0.0
    ensures x / n * n == x
  {
  }

  /** A quotient times its divisor is the dividend, so squared magnitudes divide. */
  lemma NormOfQuotient(z: Complex, w: Complex)
    requires w.Norm() != 0.0
    ensures z.Over(w).Norm() * w.Norm() == z.Norm()
  {
    var n, u, v := w.Norm(), z.re * w.re + z.im * w.im, z.im * w.re - z.re * w.im;
    ConjugateProduct(z, w, u, v);
    QuotientTimes(u, n);
    QuotientTimes(v, n);
    SquaresScale(u / n, v / n, n, u, v);
    CancelDivisor(z.Over(w).Norm() * n, z.Norm(), n);
  }

  /** Dividing and multiplying by the same number changes nothing. */
  lemma OverTimes(z: Complex, w: Complex)
    requires w.Norm() != 0.0
    ensures z.Over(w).Times(w) == z
  {
    var n, u, v := w.Norm(), z.re * w.re + z.im * w.im, z.im * w.re - z.re * w.im;
    Quotients(u, v, w.re, w.im, n, z.re);
    Quotients(v, -u, w.re, w.im, n, z.im);
    assert z.Over(w).Times(w) == Complex(u / n * w.re - v / n * w.im, u / n * w.im + v / n * w.re);
    NegativeQuotient(u, n, w.im);
  }

  lemma NegativeQuotient(u: real, n: real, x: real)
    requires n != 0.0
    ensures -u / n * x == -(u / n * x)
  {
  }

  lemma Quotients(u: real, v: real, x: real, y: real, n: real, r: real)
    requires n != 0.0 && n == x * x + y * y && u * x - v * y == r * n
    ensures u / n * x - v / n * y == r
  {
    var a, b := u / n, v / n;
    QuotientTimes(u, n);
    QuotientTimes(v, n);
    assert (a * x - b * y) * n == (a * n) * x - (b * n) * y;
    CancelDivisor(a * x - b * y, r, n);
  }
}
