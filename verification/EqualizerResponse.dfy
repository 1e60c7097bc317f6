/** The decibel response of peaking sections, its sum over the bands, and the preamp that
    compensates for it. */
module EqualizerResponse {
  import opened EqualizerTypes
  import opened BiquadFilter
  import opened RealLemmas
  import opened ComplexPlane
  import opened PeakingFilter

  /** The point e^(-2 pi i f) of the unit circle. */
  function Turn(m: Maths, f: real): Complex {
    Complex(m.cos(-2.0 * PI * f), m.sin(-2.0 * PI * f))
  }

  function Magnitude(m: Maths, z: Complex): real { m.sqrt(z.Norm()) }

  lemma MagnitudeOf(m: Maths, z: Complex)
    requires m.Lawful()
    ensures Magnitude(m, z) >= 0.0 && Square(Magnitude(m, z)) == z.Norm()
    ensures Magnitude(m, z) == 0.0 <==> z.Norm() == 0.0
  {
    assert m.Root(z.Norm());
    NormIsNotNegative(z);
    if Magnitude(m, z) != 0.0 { SquareIsPositive(Magnitude(m, z)); }
  }

  lemma NormIsNotNegative(z: Complex)
    ensures z.Norm() >= 0.0
  {
    assert z.re * z.re >= 0.0 && z.im * z.im >= 0.0;
  }

  function EvaluateFrequencyResponseDb(m: Maths, c: Coefficients, f: real): real
    requires m.Lawful()
  {
    var z := Turn(m, f);
    var denominator := Denominator(c, z);
    MagnitudeOf(m, denominator);
    if Magnitude(m, denominator) == 0.0 then 0.0
    else
      var magnitude := Magnitude(m, Numerator(c, z).Over(denominator));
      if magnitude <= 0.0 then -120.0 else 20.0 * m.log10(magnitude)
  }

  function BandResponse(m: Maths, b: Band, rate: real, frequency: real): real
    requires m.Lawful() && rate > 0.0
  {
    EvaluateFrequencyResponseDb(m, MakePeakingCoefficients(m, rate, b.frequency, b.q, b.gain), frequency / rate)
  }

  function SumOfResponses(m: Maths, bands: seq<Band>, rate: real, frequency: real): real
    requires m.Lawful() && rate > 0.0
  {
    if bands == [] then 0.0
    else
      var front := bands[..|bands| - 1];
      SumOfResponses(m, front, rate, frequency) + BandResponse(m, bands[|bands| - 1], rate, frequency)
  }

  function SampledResponse(m: Maths, bands: seq<Band>, rate: real, frequency: real): real
    requires m.Lawful()
  {
    if rate <= 0.0 || frequency <= 0.0 then 0.0 else SumOfResponses(m, bands, rate, frequency)
  }

  method SampleEqualizerBandResponseDb(m: Maths, bands: seq<Band>, rate: real, frequency: real) returns (response: real)
    requires m.Lawful()
    ensures response == SampledResponse(m, bands, rate, frequency)
  {
    response := 0.0;
    if rate <= 0.0 || frequency <= 0.0 || bands == [] {
      return;
    }
    for i := 0 to |bands|
      invariant response == SumOfResponses(m, bands[..i], rate, frequency)
    {
      OneMoreBand(m, bands, i, rate, frequency);
      response := response + BandResponse(m, bands[i], rate, frequency);
    }
    assert bands[..|bands|] == bands;
  }

  lemma OneMoreBand(m: Maths, bands: seq<Band>, i: nat, rate: real, frequency: real)
    requires m.Lawful() && rate > 0.0 && i < |bands|
    ensures SumOfResponses(m, bands[..i + 1], rate, frequency)
         == SumOfResponses(m, bands[..i], rate, frequency) + BandResponse(m, bands[i], rate, frequency)
  {
    assert bands[..i + 1][..i] == bands[..i];
  }

  // -------------------------------------------------------------- one band's response

  lemma TurnIsOnCircle(m: Maths, f: real)
    requires m.Lawful()
    ensures Turn(m, f).Norm() == 1.0
  {
    assert m.Circle(-2.0 * PI * f);
  }

  lemma LogKeepsOrder(m: Maths, x: real, y: real)
    requires m.Lawful() && 0.0 < x <= y
    ensures m.log10(x) <= m.log10(y)
  {
    assert m.LogGrows(x, y);
  }

  lemma RootsKeepOrder(x: real, y: real)
    requires x >= 0.0 && y >= 0.0 && Square(x) <= Square(y)
    ensures x <= y
  {
    if x > y { SquareGrows(y, x); }
  }

  lemma SquareGrows(x: real, y: real)
    requires 0.0 <= x < y
    ensures Square(x) < Square(y)
  {
    ProductsKeepOrder(x, y, x, Square(x), y * x);
    ProductsKeepOrder(x, y, y, y * x, Square(y));
  }

  /** The level, in decibels, of a magnitude whose square lies between 1 and the power of a gain. */
  predicate LevelWithin(level: real, gain: real) {
    if gain >= 0.0 then 0.0 <= level <= gain else gain <= level <= 0.0
  }

  lemma LevelOfMagnitude(m: Maths, magnitude: real, gain: real)
    requires m.Lawful() && magnitude >= 0.0
    requires if gain >= 0.0 then 1.0 <= Square(magnitude) <= PowerOf(m, gain)
             else PowerOf(m, gain) <= Square(magnitude) <= 1.0
    ensures magnitude > 0.0 && LevelWithin(20.0 * m.log10(magnitude), gain)
    ensures Square(magnitude) == PowerOf(m, gain) ==> 20.0 * m.log10(magnitude) == gain
  {
    var amplitude := m.pow10(gain / 20.0);
    PowersOfGain(m, gain);
    assert m.Power(gain / 20.0) && m.Power(0.0);
    PowerOfZero(m);
    SquareOfOne();
    if gain >= 0.0 {
      RootsKeepOrder(1.0, magnitude);
      RootsKeepOrder(magnitude, amplitude);
      LogKeepsOrder(m, 1.0, magnitude);
      LogKeepsOrder(m, magnitude, amplitude);
    } else {
      RootsKeepOrder(amplitude, magnitude);
      RootsKeepOrder(magnitude, 1.0);
      LogKeepsOrder(m, amplitude, magnitude);
      LogKeepsOrder(m, magnitude, 1.0);
    }
    if Square(magnitude) == PowerOf(m, gain) {
      RootsKeepOrder(amplitude, magnitude);
      RootsKeepOrder(magnitude, amplitude);
    }
  }

  lemma SquareOfOne()
    ensures Square(1.0) == 1.0
  {
  }

  /** Bounds on a product with a positive denominator are bounds on the quotient. */
  lemma QuotientBounds(n: real, d: real, w: real, x: real)
    requires d > 0.0 && x * d == n
    ensures d <= n <==> 1.0 <= x
    ensures n <= d <==> x <= 1.0
    ensures n <= w * d <==> x <= w
    ensures w * d <= n <==> w <= x
  {
    CancelFactor(1.0, x, d);
    CancelFactor(x, 1.0, d);
    CancelFactor(x, w, d);
    CancelFactor(w, x, d);
  }

  lemma QuotientLevel(m: Maths, p: Complex, q: Complex, gain: real)
    requires m.Lawful() && QuotientWithin(p, q, PowerOf(m, gain))
    ensures q.Norm() != 0.0 && Magnitude(m, p.Over(q)) > 0.0
    ensures LevelWithin(20.0 * m.log10(Magnitude(m, p.Over(q))), gain)
    ensures p.Norm() == PowerOf(m, gain) * q.Norm() ==> 20.0 * m.log10(Magnitude(m, p.Over(q))) == gain
  {
    var w, x := PowerOf(m, gain), p.Over(q).Norm();
    NormOfQuotient(p, q);
    QuotientBounds(p.Norm(), q.Norm(), w, x);
    PowerOfSign(m, gain);
    MagnitudeOf(m, p.Over(q));
    LevelOfMagnitude(m, Magnitude(m, p.Over(q)), gain);
  }

  /** The response of a section never leaves the range between 0 dB and its gain. */
  lemma ResponseStaysWithinGain(m: Maths, rate: real, center: real, q: real, gain: real, f: real)
    requires m.Lawful()
    ensures LevelWithin(EvaluateFrequencyResponseDb(m, MakePeakingCoefficients(m, rate, center, q, gain), f), gain)
  {
    TurnIsOnCircle(m, f);
    PeakingMagnitude(m, rate, center, q, gain, Turn(m, f));
    ResponseOfQuotient(m, MakePeakingCoefficients(m, rate, center, q, gain), f, gain);
  }

  lemma ResponseOfQuotient(m: Maths, c: Coefficients, f: real, gain: real)
    requires m.Lawful() && MagnitudeWithin(c, Turn(m, f), PowerOf(m, gain))
    ensures LevelWithin(EvaluateFrequencyResponseDb(m, c, f), gain)
    ensures PeaksAt(c, Turn(m, f), PowerOf(m, gain)) ==> EvaluateFrequencyResponseDb(m, c, f) == gain
  {
    var p, q := Numerator(c, Turn(m, f)), Denominator(c, Turn(m, f));
    QuotientLevel(m, p, q, gain);
    MagnitudeOf(m, q);
  }

  /** At its (clamped) centre frequency the response of a section is exactly its gain. */
  lemma ResponseAtCentreIsGain(m: Maths, rate: real, center: real, q: real, gain: real)
    requires m.Lawful() && Designs(rate, center, q)
    ensures EvaluateFrequencyResponseDb(m, MakePeakingCoefficients(m, rate, center, q, gain),
                                        SafeFrequency(rate, center) / rate) == gain
  {
    var f := SafeFrequency(rate, center) / rate;
    TurnIsOnCircle(m, f);
    assert m.Even(2.0 * PI * f) && -(2.0 * PI * f) == -2.0 * PI * f;
    PeakingMagnitude(m, rate, center, q, gain, Turn(m, f));
    PeakingMagnitudeAtCentre(m, rate, center, q, gain, Turn(m, f));
    ResponseOfQuotient(m, MakePeakingCoefficients(m, rate, center, q, gain), f, gain);
  }

  lemma PowerOfLog(m: Maths, x: real)
    requires m.Lawful() && x > 0.0
    ensures m.pow10(m.log10(x)) == x
  {
    var p := m.pow10(m.log10(x));
    assert m.Power(m.log10(x)) && m.LogGrows(p, x) && m.LogGrows(x, p);
  }

  /** What a response in decibels says: it is the level of the squared magnitude of the section's
      numerator over its denominator, at the point of the unit circle that the frequency stands for. */
  lemma ResponseIsPower(m: Maths, c: Coefficients, f: real, n: real, d: real)
    requires m.Lawful() && n == Numerator(c, Turn(m, f)).Norm() && d == Denominator(c, Turn(m, f)).Norm()
    requires n > 0.0 && d > 0.0
    ensures m.pow10(EvaluateFrequencyResponseDb(m, c, f) / 10.0) * d == n
  {
    var p, q := Numerator(c, Turn(m, f)), Denominator(c, Turn(m, f));
    var magnitude := Magnitude(m, p.Over(q));
    MagnitudeOf(m, q);
    NormOfQuotient(p, q);
    MagnitudeOf(m, p.Over(q));
    SquareIs(magnitude);
    var level := m.log10(magnitude);
    PowerOfLog(m, magnitude);
    assert m.PowerAdds(level, level) && 20.0 * level / 10.0 == level + level;
  }

  lemma LevelsKeepOrder(m: Maths, x: real, y: real)
    requires m.Lawful() && m.pow10(x / 10.0) < m.pow10(y / 10.0)
    ensures x < y
  {
    assert m.PowerGrows(y / 10.0, x / 10.0);
  }

  lemma RatiosInOrder(p: real, q: real, n: real, d: real, top: real, bottom: real)
    requires d > 0.0 && bottom > 0.0 && p * d == n && q * bottom == top && n * bottom < top * d
    ensures p < q
  {
    var k := d * bottom;
    ProductIsPositive(d, bottom, k);
    assert p * k == n * bottom && q * k == top * d;
    CancelFactor(q, p, k);
  }

  /** A squared magnitude of 1 is a level of 0 dB, and a greater one a positive level. */
  lemma LevelOfRatio(m: Maths, r: real, n: real, d: real)
    requires m.Lawful() && d > 0.0 && m.pow10(r / 10.0) * d == n
    ensures (r > 0.0 <==> n > d) && (r < 0.0 <==> n < d)
  {
    var p := m.pow10(r / 10.0);
    PowerOfZero(m);
    assert m.PowerGrows(0.0, r / 10.0) && m.PowerGrows(r / 10.0, 0.0);
    CancelFactor(p, 1.0, d);
    CancelFactor(1.0, p, d);
  }

  /** Of two bands that differ in quality alone the narrower one reaches strictly less, at every
      frequency but its centre and the ends of the spectrum. */
  lemma NarrowerBandReachesLess(m: Maths, rate: real, center: real, q: real, more: real, gain: real, f: real)
    requires m.Lawful() && Designs(rate, center, q) && q < more && m.sin(-2.0 * PI * f) != 0.0
    requires m.cos(-2.0 * PI * f) != m.cos(2.0 * PI * (SafeFrequency(rate, center) / rate))
    ensures
      var wide := EvaluateFrequencyResponseDb(m, MakePeakingCoefficients(m, rate, center, q, gain), f);
      var narrow := EvaluateFrequencyResponseDb(m, MakePeakingCoefficients(m, rate, center, more, gain), f);
      && (gain > 0.0 ==> 0.0 < narrow < wide)
      && (gain < 0.0 ==> wide < narrow < 0.0)
  {
    var z, a, b := Turn(m, f), MakePeakingCoefficients(m, rate, center, q, gain),
      MakePeakingCoefficients(m, rate, center, more, gain);
    TurnIsOnCircle(m, f);
    PeakingMagnitude(m, rate, center, q, gain, z);
    PeakingMagnitude(m, rate, center, more, gain, z);
    NarrowerIsNearer(m, rate, center, q, more, gain, z);
    AmplitudeOfSign(m, gain);
    NearerReachesLess(m, a, b, f, m.pow10(gain / 20.0), Numerator(b, z).Norm(), Denominator(b, z).Norm(),
                      Numerator(a, z).Norm(), Denominator(a, z).Norm());
  }

  lemma AmplitudeOfSign(m: Maths, gain: real)
    requires m.Lawful()
    ensures (gain > 0.0 ==> m.pow10(gain / 20.0) > 1.0) && (gain < 0.0 ==> m.pow10(gain / 20.0) < 1.0)
    ensures PowerOf(m, gain) > 0.0
  {
    PowerOfZero(m);
    assert m.PowerGrows(0.0, gain / 20.0) && m.PowerGrows(gain / 20.0, 0.0) && m.Power(gain / 10.0);
  }

  lemma NearerReachesLess(m: Maths, a: Coefficients, b: Coefficients, f: real, s: real,
                          n: real, d: real, top: real, bottom: real)
    requires m.Lawful() && n == Numerator(b, Turn(m, f)).Norm() && d == Denominator(b, Turn(m, f)).Norm()
    requires top == Numerator(a, Turn(m, f)).Norm() && bottom == Denominator(a, Turn(m, f)).Norm()
    requires n > 0.0 && d > 0.0 && top > 0.0 && bottom > 0.0 && Nearer(n, d, top, bottom, s)
    ensures
      var wide, narrow := EvaluateFrequencyResponseDb(m, a, f), EvaluateFrequencyResponseDb(m, b, f);
      (s > 1.0 ==> 0.0 < narrow < wide) && (s < 1.0 ==> wide < narrow < 0.0)
  {
    ResponseIsPower(m, a, f, top, bottom);
    ResponseIsPower(m, b, f, n, d);
    NearerLevels(m, EvaluateFrequencyResponseDb(m, a, f), EvaluateFrequencyResponseDb(m, b, f), s, n, d, top, bottom);
  }

  lemma NearerLevels(m: Maths, wide: real, narrow: real, s: real, n: real, d: real, top: real, bottom: real)
    requires m.Lawful() && d > 0.0 && bottom > 0.0 && Nearer(n, d, top, bottom, s)
    requires m.pow10(wide / 10.0) * bottom == top && m.pow10(narrow / 10.0) * d == n
    ensures (s > 1.0 ==> 0.0 < narrow < wide) && (s < 1.0 ==> wide < narrow < 0.0)
  {
    LevelOfRatio(m, narrow, n, d);
    if s > 1.0 {
      RatiosInOrder(m.pow10(narrow / 10.0), m.pow10(wide / 10.0), n, d, top, bottom);
      LevelsKeepOrder(m, narrow, wide);
    }
    if s < 1.0 {
      RatiosInOrder(m.pow10(wide / 10.0), m.pow10(narrow / 10.0), top, bottom, n, d);
      LevelsKeepOrder(m, wide, narrow);
    }
  }

  // ------------------------------------------------------------- all bands, and the preamp

  function SumOfBoosts(bands: seq<Band>): real {
    if bands == [] then 0.0 else SumOfBoosts(bands[..|bands| - 1]) + Max(bands[|bands| - 1].gain, 0.0)
  }

  function SumOfCuts(bands: seq<Band>): real {
    if bands == [] then 0.0 else SumOfCuts(bands[..|bands| - 1]) + Min(bands[|bands| - 1].gain, 0.0)
  }

  /** The response of a whole layout lies between the sum of its cuts and the sum of its boosts. */
  lemma {:induction false} ResponseStaysWithinGains(m: Maths, bands: seq<Band>, rate: real, frequency: real)
    requires m.Lawful()
    ensures SumOfCuts(bands) <= SampledResponse(m, bands, rate, frequency) <= SumOfBoosts(bands)
    ensures SumOfCuts(bands) <= 0.0 <= SumOfBoosts(bands)
    decreases |bands|
  {
    if bands != [] {
      ResponseStaysWithinGains(m, bands[..|bands| - 1], rate, frequency);
      if rate > 0.0 {
        var b := bands[|bands| - 1];
        ResponseStaysWithinGain(m, rate, b.frequency, b.q, b.gain, frequency / rate);
      }
    }
  }

  const FREQUENCY_POINTS: nat := 96

  /** Sampled frequency number `point`: logarithmic from 20 Hz, kept below 0.45 of the rate. */
  function GridFrequency(m: Maths, point: nat, rate: real): real {
    Min(20.0 * m.pow10(3.0 * (point as real / 95.0)), rate * 0.45)
  }

  function Spaced(m: Maths, point: nat): real { 20.0 * m.pow10(3.0 * (point as real / 95.0)) }

  lemma SpacedGrows(m: Maths, point: nat)
    requires m.Lawful()
    ensures Spaced(m, point + 1) == m.pow10(3.0 / 95.0) * Spaced(m, point)
    ensures Spaced(m, point + 1) > Spaced(m, point) > 0.0
  {
    PowerOfZero(m);
    assert m.PowerGrows(0.0, 3.0 / 95.0);
    var x, y := 3.0 * (point as real / 95.0), 3.0 / 95.0;
    assert 3.0 * ((point + 1) as real / 95.0) == x + y;
    assert m.PowerAdds(x, y) && m.Power(x);
    FactorMoves(m.pow10(y), Spaced(m, point), m.pow10(y) * Spaced(m, point));
  }

  lemma SpacedEnds(m: Maths)
    requires m.Lawful()
    ensures Spaced(m, 0) == 20.0 && Spaced(m, 95) == 20_000.0
  {
    PowerOfZero(m);
    assert 0.0 / 95.0 == 0.0 && 95.0 / 95.0 == 1.0;
    assert m.PowerAdds(1.0, 1.0) && m.PowerAdds(2.0, 1.0) && m.Base();
  }

  lemma {:induction false} SpacedBelow(m: Maths, f: real, from: nat) returns (point: nat)
    requires m.Lawful() && from < FREQUENCY_POINTS && Spaced(m, from) <= f <= 20_000.0
    ensures point < FREQUENCY_POINTS && Spaced(m, point) <= f <= m.pow10(3.0 / 95.0) * Spaced(m, point)
    decreases FREQUENCY_POINTS - from
  {
    SpacedGrows(m, from);
    if Spaced(m, from + 1) >= f {
      point := from;
    } else {
      SpacedEnds(m);
      assert from != 95;
      point := SpacedBelow(m, f, from + 1);
    }
  }

  /** The sampled frequencies cover what can be heard: every frequency from 20 Hz to 20 kHz that is
      within 0.45 of the rate lies at or above one of them, by at most the ratio of two neighbours. */
  lemma GridCoversHearing(m: Maths, rate: real, f: real) returns (point: nat)
    requires m.Lawful() && 20.0 <= f <= 20_000.0 && f <= rate * 0.45
    ensures point < FREQUENCY_POINTS
    ensures GridFrequency(m, point, rate) <= f <= m.pow10(3.0 / 95.0) * GridFrequency(m, point, rate)
  {
    SpacedEnds(m);
    point := SpacedBelow(m, f, 0);
  }

  lemma {:induction false} SpacedAtLeast(m: Maths, point: nat)
    requires m.Lawful()
    ensures Spaced(m, point) >= 20.0
  {
    if point == 0 {
      SpacedEnds(m);
    } else {
      SpacedAtLeast(m, point - 1);
      SpacedGrows(m, point - 1);
    }
  }

  lemma {:induction false} SpacedAtMost(m: Maths, point: nat)
    requires m.Lawful() && point < FREQUENCY_POINTS
    ensures 20.0 <= Spaced(m, point) <= 20_000.0
    decreases FREQUENCY_POINTS - point
  {
    SpacedEnds(m);
    SpacedGrows(m, point);
    if point + 1 < FREQUENCY_POINTS { SpacedAtMost(m, point + 1); }
    SpacedAtLeast(m, point);
  }

  /** None of them lies outside what can be heard, or beyond 0.45 of the rate. */
  lemma GridStaysAudible(m: Maths, rate: real, point: nat)
    requires m.Lawful() && point < FREQUENCY_POINTS
    ensures GridFrequency(m, point, rate) <= 20_000.0 && GridFrequency(m, point, rate) <= rate * 0.45
    ensures GridFrequency(m, point, rate) >= 20.0 || GridFrequency(m, point, rate) == rate * 0.45
  {
    SpacedAtMost(m, point);
  }

  function GridResponse(m: Maths, bands: seq<Band>, rate: real, point: nat): real
    requires m.Lawful()
  {
    SampledResponse(m, bands, rate, GridFrequency(m, point, rate))
  }

  /** `largest` is the greatest of zero and the first `n` grid responses, `best` where it is found. */
  ghost predicate LargestOf(m: Maths, bands: seq<Band>, rate: real, n: nat, largest: real, best: nat)
    requires m.Lawful()
  {
    && largest >= 0.0
    && (forall k :: 0 <= k < n ==> GridResponse(m, bands, rate, k) <= largest)
    && (largest > 0.0 ==> best < n && GridResponse(m, bands, rate, best) == largest)
  }

  lemma LargestOfOneMore(m: Maths, bands: seq<Band>, rate: real, n: nat, largest: real, best: nat, response: real)
    requires m.Lawful() && LargestOf(m, bands, rate, n, largest, best) && response == GridResponse(m, bands, rate, n)
    ensures if response > largest then LargestOf(m, bands, rate, n + 1, response, n)
            else LargestOf(m, bands, rate, n + 1, largest, best)
  {
  }

  /** The largest response on the grid, or zero. */
  method LargestGridResponse(m: Maths, bands: seq<Band>, rate: real) returns (largest: real, ghost best: nat)
    requires m.Lawful()
    ensures LargestOf(m, bands, rate, FREQUENCY_POINTS, largest, best) && largest <= SumOfBoosts(bands)
  {
    largest, best := 0.0, 0;
    ResponseStaysWithinGains(m, bands, rate, 0.0);
    for point := 0 to FREQUENCY_POINTS
      invariant LargestOf(m, bands, rate, point, largest, best) && largest <= SumOfBoosts(bands)
    {
      var frequency := GridFrequency(m, point, rate);
      var response := SampleEqualizerBandResponseDb(m, bands, rate, frequency);
      ResponseStaysWithinGains(m, bands, rate, frequency);
      LargestOfOneMore(m, bands, rate, point, largest, best, response);
      if response > largest {
        largest, best := response, point;
      }
    }
  }

  /** The preamp, in decibels, for a layout: no boost survives it at any sampled frequency, it is
      no stronger than one of them needs, and it leaves layouts without boost alone. */
  method ComputeTargetPreampDb(m: Maths, bands: seq<Band>, rate: real) returns (preamp: real)
    requires m.Lawful()
    ensures -(SumOfBoosts(bands) + 1.0) <= preamp <= 0.0
    ensures rate > 0.0 ==> forall k :: 0 <= k < FREQUENCY_POINTS ==>
            Compensated(GridResponse(m, bands, rate, k), preamp)
    ensures preamp != 0.0 ==> exists k ::
            0 <= k < FREQUENCY_POINTS && GridResponse(m, bands, rate, k) == -preamp - 1.0 > 0.0
    ensures SumOfBoosts(bands) == 0.0 ==> preamp == 0.0
  {
    ResponseStaysWithinGains(m, bands, rate, 0.0);
    if rate <= 0.0 || bands == [] {
      forall k | 0 <= k < FREQUENCY_POINTS ensures rate > 0.0 ==> GridResponse(m, bands, rate, k) == 0.0 {
      }
      return 0.0;
    }
    var largest, best := LargestGridResponse(m, bands, rate);
    preamp := if largest > 0.0 then -(largest + 1.0) else 0.0;
  }

  /** A preamp that acts takes a response at least 1 dB below full scale. */
  predicate Compensated(response: real, preamp: real) {
    response + preamp <= if preamp < 0.0 then -1.0 else 0.0
  }
}
