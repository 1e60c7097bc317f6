/** What the equalizer does to a steady tone: every section turns it by its frequency response, so a
    settled chain plays it at the level of the response curve, and the preamp keeps it from clipping. */
module SteadyTones {
  import opened EqualizerTypes
  import opened Lanes
  import opened BiquadFilter
  import opened RealLemmas
  import opened ComplexPlane
  import opened PeakingFilter
  import opened EqualizerResponse
  import opened EqualizerChain
  import opened EqualizerSettled

  // ------------------------------------------------------------------------- tones

  /** `p` turned `n` times by `z`. */
  function Turned(p: Complex, z: Complex, n: nat): Complex {
    if n == 0 then p else Turned(p, z, n - 1).Times(z)
  }

  function Conjugate(z: Complex): Complex { Complex(z.re, -z.im) }

  /** The first `n` samples of the tone whose phasor two samples before the first is `p`. */
  function Tone(p: Complex, z: Complex, n: nat): (xs: seq<real>)
    ensures |xs| == n
  {
    seq(n, k requires 0 <= k < n => Turned(p, z, k + 2).re)
  }

  lemma OneMoreSample(p: Complex, z: Complex, n: nat)
    ensures Tone(p, z, n + 1) == Tone(p, z, n) + [Turned(p, z, n + 2).re]
  {
  }

  /** A section's frequency response takes the phasor `p` to `q`. */
  predicate Answers(c: Coefficients, z: Complex, p: Complex, q: Complex) {
    q.Times(Denominator(c, Conjugate(z))) == p.Times(Numerator(c, Conjugate(z)))
  }

  /** What a section's delay elements hold between two samples of a tone that goes in at `p` and comes
      out at `q`. */
  function InStep(c: Coefficients, z: Complex, p: Complex, q: Complex): Delay {
    Kept(c, p.Times(z).re, p.re, q.Times(z).re, q.re)
  }

  /** What they hold after the latest two samples `x1`, `x0` and outputs `y1`, `y0`. */
  function Kept(c: Coefficients, x1: real, x0: real, y1: real, y0: real): Delay {
    Delay(c.b1 * x1 + c.b2 * x0 - c.a1 * y1 - c.a2 * y0, c.b2 * x1 - c.a2 * y1)
  }

  /** The section's difference equation at one sample. */
  predicate Equation(c: Coefficients, x2: real, x1: real, x0: real, y2: real, y1: real, y0: real) {
    y2 + c.a1 * y1 + c.a2 * y0 == c.b0 * x2 + c.b1 * x1 + c.b2 * x0
  }

  // ------------------------------------------------------------------ the turned equation

  lemma ConjugateNorm(z: Complex)
    ensures Conjugate(z).Norm() == z.Norm()
  {
  }

  lemma InverseTurns(z: Complex)
    requires z.Norm() == 1.0
    ensures Conjugate(z).Times(z.Times(z)) == z
    ensures Conjugate(z).Times(Conjugate(z)).Times(z.Times(z)) == Complex(1.0, 0.0)
  {
    var w := Conjugate(z);
    ConjugateInverts(z);
    TimesCommutes(w, z);
    TimesAssociates(w, z, z);
    TimesOne(z);
    TimesAssociates(w, w, z.Times(z));
  }

  /** A quadratic in the inverse of `z`, times the square of `z`. */
  lemma QuadraticTurns(c0: real, c1: real, c2: real, z: Complex)
    requires z.Norm() == 1.0
    ensures
      var w := Conjugate(z);
      Complex(c0, 0.0).Plus(w.Scaled(c1)).Plus(w.Times(w).Scaled(c2)).Times(z.Times(z))
      == z.Times(z).Scaled(c0).Plus(z.Scaled(c1)).Plus(Complex(c2, 0.0))
  {
    var w, s := Conjugate(z), z.Times(z);
    InverseTurns(z);
    SumTimes(Complex(c0, 0.0).Plus(w.Scaled(c1)), w.Times(w).Scaled(c2), s);
    SumTimes(Complex(c0, 0.0), w.Scaled(c1), s);
    ScaledTimes(w, s, c1);
    ScaledTimes(w.Times(w), s, c2);
    RealScales(c2);
    RealTimes(c0, s);
  }

  lemma PhasorTurns(c0: real, c1: real, c2: real, z: Complex, p: Complex)
    requires z.Norm() == 1.0
    ensures
      var w := Conjugate(z);
      p.Times(Complex(c0, 0.0).Plus(w.Scaled(c1)).Plus(w.Times(w).Scaled(c2))).Times(z.Times(z))
      == p.Times(z).Times(z).Scaled(c0).Plus(p.Times(z).Scaled(c1)).Plus(p.Scaled(c2))
  {
    var w, s := Conjugate(z), z.Times(z);
    var k := Complex(c0, 0.0).Plus(w.Scaled(c1)).Plus(w.Times(w).Scaled(c2));
    QuadraticTurns(c0, c1, c2, z);
    TimesAssociates(p, k, s);
    TimesDistributes(p, s.Scaled(c0).Plus(z.Scaled(c1)), Complex(c2, 0.0));
    TimesDistributes(p, s.Scaled(c0), z.Scaled(c1));
    ScaledInside(p, s, c0);
    ScaledInside(p, z, c1);
    ScaledIsTimes(p, c2);
    TimesAssociates(p, z, z);
  }

  lemma EquationOfPhasors(c: Coefficients, p2: Complex, p1: Complex, p: Complex, q2: Complex, q1: Complex, q: Complex)
    requires q2.Scaled(1.0).Plus(q1.Scaled(c.a1)).Plus(q.Scaled(c.a2))
          == p2.Scaled(c.b0).Plus(p1.Scaled(c.b1)).Plus(p.Scaled(c.b2))
    ensures Equation(c, p2.re, p1.re, p.re, q2.re, q1.re, q.re)
  {
  }

  /** The section's difference equation, of phasors. */
  lemma AnswerTurns(c: Coefficients, z: Complex, p: Complex, q: Complex)
    requires z.Norm() == 1.0 && Answers(c, z, p, q)
    ensures
      var p1, q1 := p.Times(z), q.Times(z);
      && Equation(c, p1.Times(z).re, p1.re, p.re, q1.Times(z).re, q1.re, q.re)
      && Answers(c, z, p1, q1)
  {
    PhasorTurns(c.b0, c.b1, c.b2, z, p);
    PhasorTurns(1.0, c.a1, c.a2, z, q);
    EquationOfPhasors(c, p.Times(z).Times(z), p.Times(z), p, q.Times(z).Times(z), q.Times(z), q);
    TimesCommuteInner(q, z, Denominator(c, Conjugate(z)));
    TimesCommuteInner(p, z, Numerator(c, Conjugate(z)));
  }

  // -------------------------------------------------------------------- one section

  lemma SampleInStep(c: Coefficients, z: Complex, p: Complex, q: Complex)
    requires z.Norm() == 1.0 && Answers(c, z, p, q)
    ensures Sample(c, InStep(c, z, p, q), p.Times(z).Times(z).re)
            == (InStep(c, z, p.Times(z), q.Times(z)), q.Times(z).Times(z).re)
  {
    AnswerTurns(c, z, p, q);
    var p1, q1 := p.Times(z), q.Times(z);
    KeptFurther(c, p1.Times(z).re, p1.re, p.re, q1.Times(z).re, q1.re, q.re);
  }

  lemma KeptFurther(c: Coefficients, x2: real, x1: real, x0: real, y2: real, y1: real, y0: real)
    requires Equation(c, x2, x1, x0, y2, y1, y0)
    ensures Sample(c, Kept(c, x1, x0, y1, y0), x2) == (Kept(c, x2, x1, y2, y1), y2)
  {
    StepIs(c, Kept(c, x1, x0, y1, y0), x2, y2, Kept(c, x2, x1, y2, y1));
  }

  /** One sample in step, in the real parts alone. */
  lemma StepIs(c: Coefficients, z: Delay, x: real, y: real, later: Delay)
    requires y == c.b0 * x + z.z1
    requires later.z1 == c.b1 * x - c.a1 * y + z.z2 && later.z2 == c.b2 * x - c.a2 * y
    ensures Sample(c, z, x) == (later, y)
  {
    SampleGives(c, z, x);
    SameFactor(c.a1, c.b0 * x + z.z1, y);
    SameFactor(c.a2, c.b0 * x + z.z1, y);
    var r := Sample(c, z, x);
    assert r.0.z1 == later.z1 && r.0.z2 == later.z2 && r.1 == y;
  }

  lemma SampleGives(c: Coefficients, z: Delay, x: real)
    ensures Sample(c, z, x).1 == c.b0 * x + z.z1
    ensures Sample(c, z, x).0.z1 == c.b1 * x - c.a1 * (c.b0 * x + z.z1) + z.z2
    ensures Sample(c, z, x).0.z2 == c.b2 * x - c.a2 * (c.b0 * x + z.z1)
  {
  }

  lemma SameFactor(a: real, x: real, y: real)
    requires x == y
    ensures a * x == a * y
  {
  }

  lemma {:induction false} AnswersTurned(c: Coefficients, z: Complex, p: Complex, q: Complex, n: nat)
    requires z.Norm() == 1.0 && Answers(c, z, p, q)
    ensures Answers(c, z, Turned(p, z, n), Turned(q, z, n))
  {
    if n > 0 {
      AnswersTurned(c, z, p, q, n - 1);
      AnswerTurns(c, z, Turned(p, z, n - 1), Turned(q, z, n - 1));
    }
  }

  /** A section in step with a tone answers it with the tone that its frequency response calls for,
      sample by sample and for as long as it lasts. */
  lemma {:induction false} ToneIsAnswered(f: Section, z: Complex, p: Complex, q: Complex, n: nat)
    requires f.Suits(1) && z.Norm() == 1.0 && Answers(f.c, z, p, q) && f.z[0] == InStep(f.c, z, p, q)
    ensures Response(f, Tone(p, z, n)) == Tone(q, z, n)
    ensures Fed(f, Tone(p, z, n)).z[0] == InStep(f.c, z, Turned(p, z, n), Turned(q, z, n))
    decreases n
  {
    if n > 0 {
      var k := n - 1;
      ToneIsAnswered(f, z, p, q, k);
      OneMoreSample(p, z, k);
      OneMoreSample(q, z, k);
      LaneOfOne(k);
      AfterOneMore(SectionKernel(f.c), f.z, Tone(p, z, k), Turned(p, z, k + 2).re);
      FilteredOneMore(SectionKernel(f.c), f.z, Tone(p, z, k), Turned(p, z, k + 2).re);
      AnswersTurned(f.c, z, p, q, k);
      TurnedTwice(p, z, k);
      TurnedTwice(q, z, k);
      SampleInStep(f.c, z, Turned(p, z, k), Turned(q, z, k));
    }
  }

  lemma TurnedTwice(p: Complex, z: Complex, k: nat)
    ensures Turned(p, z, k + 2) == Turned(p, z, k).Times(z).Times(z)
  {
    assert Turned(p, z, k + 2) == Turned(p, z, k + 1).Times(z);
  }

  // ----------------------------------------------------------------- sections in a row

  /** A section of one channel, in step with the tone that goes in at `p` and comes out at `q`. */
  predicate SectionInStep(f: Section, z: Complex, p: Complex, q: Complex) {
    f.Suits(1) && Answers(f.c, z, p, q) && f.z[0] == InStep(f.c, z, p, q)
  }

  /** The first `k` sections are in step, each with what the one before makes of the tone. */
  predicate AllInStep(units: seq<Unit>, k: nat, z: Complex, phasors: seq<Complex>) {
    k <= |units| && k < |phasors|
    && forall b :: 0 <= b < k ==> SectionInStep(units[b].filter, z, phasors[b], phasors[b + 1])
  }

  lemma {:induction false} CascadeAnswers(units: seq<Unit>, k: nat, z: Complex, phasors: seq<Complex>, n: nat)
    requires AllSuit(units, 1) && z.Norm() == 1.0 && AllInStep(units, k, z, phasors)
    ensures Passed(units, k, Tone(phasors[0], z, n), 1) == Tone(phasors[k], z, n)
  {
    if k > 0 {
      CascadeAnswers(units, k - 1, z, phasors, n);
      assert SectionInStep(units[k - 1].filter, z, phasors[k - 1], phasors[k]);
      ToneIsAnswered(units[k - 1].filter, z, phasors[k - 1], phasors[k], n);
    }
  }

  /** The parts of the sections that serve one channel. */
  function UnitsAlone(units: seq<Unit>, channels: nat, channel: nat): (alone: seq<Unit>)
    requires AllSuit(units, channels) && channel < channels
    ensures |alone| == |units| && AllSuit(alone, 1)
  {
    seq(|units|, b requires 0 <= b < |units| =>
        assert units[b].filter.Suits(channels); units[b].(filter := Alone(units[b].filter, channel)))
  }

  lemma {:induction false} PassedAlone(units: seq<Unit>, k: nat, xs: seq<real>, channels: nat, channel: nat)
    requires AllSuit(units, channels) && channel < channels && k <= |units|
    ensures Channel(Passed(units, k, xs, channels), channels, channel)
         == Passed(UnitsAlone(units, channels, channel), k, Channel(xs, channels, channel), 1)
  {
    if k > 0 {
      var f, ps := units[k - 1].filter, Passed(units, k - 1, xs, channels);
      PassedAlone(units, k - 1, xs, channels, channel);
      assert f.Suits(channels) && UnitsAlone(units, channels, channel)[k - 1].filter == Alone(f, channel);
      ResponseAlone(f, ps, channels, channel, Channel(ps, channels, channel));
    }
  }

  lemma ResponseAlone(f: Section, xs: seq<real>, channels: nat, channel: nat, lane: seq<real>)
    requires f.Suits(channels) && channel < channels && lane == Channel(xs, channels, channel)
    ensures Channel(Response(f, xs), channels, channel) == Response(Alone(f, channel), lane)
  {
    ChannelsAreSeparate(f, xs, channel);
  }

  /** A channel's sample of what the sections make of a stream with a tone on that channel. */
  lemma PassedTone(units: seq<Unit>, m: nat, xs: seq<real>, channels: nat, channel: nat, z: Complex,
                   phasors: seq<Complex>, frames: nat, k: nat)
    requires AllSuit(units, channels) && channel < channels && |xs| == Span(frames, channels) && k < frames
    requires z.Norm() == 1.0 && AllInStep(UnitsAlone(units, channels, channel), m, z, phasors)
    requires Channel(xs, channels, channel) == Tone(phasors[0], z, frames)
    ensures InFrame(Passed(units, m, xs, channels), k, channels, channel, Turned(phasors[m], z, k + 2).re)
  {
    var ps := Passed(units, m, xs, channels);
    PassedAlone(units, m, xs, channels, channel);
    CascadeAnswers(UnitsAlone(units, channels, channel), m, z, phasors, frames);
    ChannelAt(ps, frames, channels, channel);
    assert Channel(ps, channels, channel)[k] == Turned(phasors[m], z, k + 2).re;
  }

  /** `calls` bring a tone on one channel, for `frames` frames, and the sections are in step with it. */
  predicate BringTone(ch: Chain, calls: seq<Block>, channel: nat, z: Complex, phasors: seq<Complex>, frames: nat) {
    && ch.Ready() && ch.enabled && AllFit(calls, ch.channels) && z.Norm() == 1.0
    && |Samples(calls)| == Span(frames, ch.channels) && channel < ch.channels
    && AllInStep(UnitsAlone(ch.units, ch.channels, channel), ch.active, z, phasors)
    && Channel(Samples(calls), ch.channels, channel) == Tone(phasors[0], z, frames)
  }

  /** The sample `x` at three levels, held between -0.995 and 0.995. */
  function HeldAt(x: real, preamp: real, outputGain: real, volume: real): real {
    var y := Leveled(x, preamp, outputGain, volume);
    if y < -0.995 then -0.995 else if y > 0.995 then 0.995 else y
  }

  /** What a settled and switched-on chain plays where its sections in a row give the sample `x`. */
  lemma PassedPlayed(dsp: Voicing, ch: Chain, calls: seq<Block>, index: nat, x: real)
    requires ch.Ready() && AtRest(dsp, ch) && ch.enabled && AllFit(calls, ch.channels) && index < |Samples(calls)|
    requires Passed(ch.units, ch.active, Samples(calls), ch.channels)[index] == x
    ensures index < |ProcessedCalls(dsp, ch, calls).1|
    ensures ProcessedCalls(dsp, ch, calls).1[index]
         == HeldAt(x, dsp.linear(ch.headroomDb), dsp.linear(ch.outputGainDb), ch.volume.target)
  {
    FullyWet(dsp, ch, calls, index);
  }

  /** Over any calls, a settled and switched-on chain plays a tone on a channel as the tone that its
      sections in a row make of it, at preamp, output gain and volume, held within the ceiling. */
  lemma TonePlayed(dsp: Voicing, ch: Chain, calls: seq<Block>, channel: nat, z: Complex, phasors: seq<Complex>,
                   frames: nat, k: nat)
    requires BringTone(ch, calls, channel, z, phasors, frames) && AtRest(dsp, ch) && k < frames
    ensures
      var ys, index := ProcessedCalls(dsp, ch, calls).1, Span(k, ch.channels) + channel;
      && index < |ys|
      && ys[index] == HeldAt(Turned(phasors[ch.active], z, k + 2).re, dsp.linear(ch.headroomDb),
                             dsp.linear(ch.outputGainDb), ch.volume.target)
  {
    PassedTone(ch.units, ch.active, Samples(calls), ch.channels, channel, z, phasors, frames, k);
    PassedPlayed(dsp, ch, calls, Span(k, ch.channels) + channel, Turned(phasors[ch.active], z, k + 2).re);
  }

  // ------------------------------------------------------------------------- levels

  /** `norm` is the squared amplitude that `first` has after a change of `decibels`. */
  predicate AtLevel(m: Maths, norm: real, first: real, decibels: real) {
    norm == first * m.pow10(decibels / 10.0)
  }

  lemma LevelsMultiply(a: real, b: real, r: real, n: real, d: real)
    requires d > 0.0 && a * d == b * n && r * d == n
    ensures a == b * r
  {
    var y := b * r;
    assert y * d == b * (r * d);
    SameFactor(b, r * d, n);
    CancelFactor(a, y, d);
    CancelFactor(y, a, d);
  }

  /** The answer to a tone is at the level that the section's response in decibels says. */
  lemma AnswerLevel(m: Maths, c: Coefficients, f: real, p: Complex, q: Complex, n: real, d: real)
    requires m.Lawful() && Answers(c, Conjugate(Turn(m, f)), p, q)
    requires n == Numerator(c, Turn(m, f)).Norm() && d == Denominator(c, Turn(m, f)).Norm() && n > 0.0 && d > 0.0
    ensures AtLevel(m, q.Norm(), p.Norm(), EvaluateFrequencyResponseDb(m, c, f))
  {
    assert Conjugate(Conjugate(Turn(m, f))) == Turn(m, f);
    NormOfProduct(q, Denominator(c, Turn(m, f)));
    NormOfProduct(p, Numerator(c, Turn(m, f)));
    ResponseIsPower(m, c, f, n, d);
    NormsMultiply(p, q, Numerator(c, Turn(m, f)), Denominator(c, Turn(m, f)), n, d,
                  m.pow10(EvaluateFrequencyResponseDb(m, c, f) / 10.0));
  }

  lemma NormsMultiply(p: Complex, q: Complex, u: Complex, v: Complex, n: real, d: real, r: real)
    requires q.Times(v) == p.Times(u) && n == u.Norm() && d == v.Norm() && d > 0.0 && r * d == n
    ensures q.Norm() == p.Norm() * r
  {
    ProductNorm(q, v, q.Norm(), d);
    ProductNorm(p, u, p.Norm(), n);
    LevelsMultiply(q.Norm(), p.Norm(), r, n, d);
  }

  lemma ProductNorm(z: Complex, w: Complex, a: real, b: real)
    requires a == z.Norm() && b == w.Norm()
    ensures z.Times(w).Norm() == a * b
  {
    NormOfProduct(z, w);
    SameFactor(z.Norm(), w.Norm(), b);
    SameFactor(b, z.Norm(), a);
  }

  lemma SectionNorms(m: Maths, rate: real, band: Band, z: Complex)
    requires m.Lawful() && z.Norm() == 1.0
    ensures
      var c := MakePeakingCoefficients(m, rate, band.frequency, band.q, band.gain);
      Numerator(c, z).Norm() > 0.0 && Denominator(c, z).Norm() > 0.0
  {
    var c := MakePeakingCoefficients(m, rate, band.frequency, band.q, band.gain);
    PeakingMagnitude(m, rate, band.frequency, band.q, band.gain, z);
    AmplitudeOfSign(m, band.gain);
    var d, w := Denominator(c, z).Norm(), PowerOf(m, band.gain);
    ProductIsPositive(w, d, w * d);
  }

  /** Every band has an answer to every tone. */
  lemma TonesHaveAnswers(m: Maths, rate: real, band: Band, z: Complex, p: Complex) returns (q: Complex)
    requires m.Lawful() && z.Norm() == 1.0
    ensures Answers(MakePeakingCoefficients(m, rate, band.frequency, band.q, band.gain), z, p, q)
  {
    var c, w := MakePeakingCoefficients(m, rate, band.frequency, band.q, band.gain), Conjugate(z);
    ConjugateNorm(z);
    SectionNorms(m, rate, band, w);
    q := p.Times(Numerator(c, w)).Over(Denominator(c, w));
    OverTimes(p.Times(Numerator(c, w)), Denominator(c, w));
  }

  /** The section of every band is that band's peaking section. */
  predicate ServeBands(m: Maths, rate: real, units: seq<Unit>, bands: seq<Band>)
    requires m.Lawful()
  {
    |bands| <= |units|
    && forall b :: 0 <= b < |bands| ==>
         units[b].filter.c == MakePeakingCoefficients(m, rate, bands[b].frequency, bands[b].q, bands[b].gain)
  }

  /** Sections in a row play a tone at the level of the sampled response curve. */
  lemma {:induction false} CascadeLevel(m: Maths, rate: real, units: seq<Unit>, bands: seq<Band>, k: nat,
                                        frequency: real, phasors: seq<Complex>)
    requires m.Lawful() && rate > 0.0 && ServeBands(m, rate, units, bands) && k <= |bands|
    requires AllInStep(units, k, Conjugate(Turn(m, frequency / rate)), phasors)
    ensures AtLevel(m, phasors[k].Norm(), phasors[0].Norm(), SumOfResponses(m, bands[..k], rate, frequency))
  {
    if k == 0 {
      NoChange(m, phasors[0].Norm());
    } else {
      CascadeLevel(m, rate, units, bands, k - 1, frequency, phasors);
      LastLevel(m, rate, units[k - 1].filter, bands, k - 1, frequency, phasors[k - 1], phasors[k], phasors[0].Norm());
    }
  }

  lemma NoChange(m: Maths, norm: real)
    requires m.Lawful()
    ensures AtLevel(m, norm, norm, 0.0)
  {
    PowerOfZero(m);
    assert 0.0 / 10.0 == 0.0;
  }

  /** A band's section answers at the level of the band's response. */
  lemma BandAnswers(m: Maths, rate: real, f: Section, b: Band, frequency: real, p: Complex, q: Complex)
    requires m.Lawful() && rate > 0.0 && f.c == MakePeakingCoefficients(m, rate, b.frequency, b.q, b.gain)
    requires SectionInStep(f, Conjugate(Turn(m, frequency / rate)), p, q)
    ensures AtLevel(m, q.Norm(), p.Norm(), BandResponse(m, b, rate, frequency))
  {
    var w := Turn(m, frequency / rate);
    TurnIsOnCircle(m, frequency / rate);
    SectionNorms(m, rate, b, w);
    AnswerLevel(m, f.c, frequency / rate, p, q, Numerator(f.c, w).Norm(), Denominator(f.c, w).Norm());
  }

  lemma LastLevel(m: Maths, rate: real, f: Section, bands: seq<Band>, k: nat, frequency: real, p: Complex, q: Complex,
                  first: real)
    requires m.Lawful() && rate > 0.0 && k < |bands|
    requires f.c == MakePeakingCoefficients(m, rate, bands[k].frequency, bands[k].q, bands[k].gain)
    requires SectionInStep(f, Conjugate(Turn(m, frequency / rate)), p, q)
    requires AtLevel(m, p.Norm(), first, SumOfResponses(m, bands[..k], rate, frequency))
    ensures AtLevel(m, q.Norm(), first, SumOfResponses(m, bands[..k + 1], rate, frequency))
  {
    BandAnswers(m, rate, f, bands[k], frequency, p, q);
    OneMoreBand(m, bands, k, rate, frequency);
    LevelsAdd(m, SumOfResponses(m, bands[..k], rate, frequency), BandResponse(m, bands[k], rate, frequency),
              SumOfResponses(m, bands[..k + 1], rate, frequency), first, p.Norm(), q.Norm());
  }

  lemma LevelsAdd(m: Maths, x: real, y: real, total: real, first: real, middle: real, norm: real)
    requires m.Lawful() && AtLevel(m, middle, first, x) && AtLevel(m, norm, middle, y) && total == x + y
    ensures AtLevel(m, norm, first, total)
  {
    assert m.PowerAdds(x / 10.0, y / 10.0) && (x + y) / 10.0 == x / 10.0 + y / 10.0;
    var a, b := m.pow10(x / 10.0), m.pow10(y / 10.0);
    SameFactor(b, middle, first * a);
    assert (first * a) * b == first * (a * b);
  }

  // ------------------------------------------------------------------------- headroom

  lemma {:induction false} TurningKeepsNorm(p: Complex, z: Complex, n: nat)
    requires z.Norm() == 1.0
    ensures Turned(p, z, n).Norm() == p.Norm()
  {
    if n > 0 {
      TurningKeepsNorm(p, z, n - 1);
      ProductNorm(Turned(p, z, n - 1), z, p.Norm(), 1.0);
    }
  }

  lemma Doubled(m: Maths, t: real, x: real, y: real)
    requires m.Lawful() && x == m.pow10(t) && y == x * x
    ensures m.pow10(t + t) == y
  {
    assert m.PowerAdds(t, t);
  }

  lemma TenthOfTen(m: Maths, x: real)
    requires m.Lawful() && x == m.pow10(0.1)
    ensures x > 1.02
  {
    var x2 := x * x;
    var x4 := x2 * x2;
    var x8 := x4 * x4;
    assert m.Power(0.1);
    Doubled(m, 0.1, x, x2);
    Doubled(m, 0.2, x2, x4);
    Doubled(m, 0.4, x4, x8);
    assert m.PowerAdds(0.8, 0.2) && m.Base();
    if x <= 1.02 { TenthPower(x, x2, x4); }
  }

  /** 1 dB below full scale is well below the ceiling. */
  lemma DecibelBelow(m: Maths)
    requires m.Lawful()
    ensures 0.0 < m.pow10(-0.1) < 0.99
  {
    var x, y := m.pow10(0.1), m.pow10(-0.1);
    TenthOfTen(m, x);
    PowerOfZero(m);
    assert m.PowerAdds(0.1, -0.1) && m.Power(-0.1);
    InverseBelow(x, y);
  }

  lemma InverseBelow(x: real, y: real)
    requires x > 1.02 && y > 0.0 && x * y == 1.0
    ensures y < 0.99
  {
    if y >= 0.99 { MulMonotone(0.99, y, x); }
  }

  lemma TenthPower(x: real, x2: real, x4: real)
    requires 0.0 < x <= 1.02 && x2 == x * x && x4 == x2 * x2
    ensures x4 * x4 * x2 < 10.0
  {
    ProductBelow(x, x, 1.02, 1.02, x2);
    ProductBelow(x2, x2, 1.05, 1.05, x4);
    ProductBelow(x4, x4, 1.2, 1.2, x4 * x4);
    ProductBelow(x4 * x4, x2, 1.5, 1.05, x4 * x4 * x2);
  }

  lemma ProductBelow(x: real, y: real, a: real, b: real, product: real)
    requires 0.0 <= x <= a && 0.0 <= y <= b && product == x * y
    ensures 0.0 <= product <= a * b
  {
    MulMonotone(x, a, y);
    MulMonotone(y, b, a);
    ProductIsNotNegative(x, y, product);
  }

  /** A sample of a tone whose squared amplitude is `level`, at a gain whose square is `power`. */
  lemma SampleBelow(t: real, gain: real, v: real, a: real, level: real, power: real, total: real)
    requires v == t * gain && a == t * t && power == gain * gain && total == level * power
    requires a <= level && total < 0.99
    ensures -0.995 < v < 0.995
  {
    var square := a * power;
    SquareOfProduct(t, gain, v, a, power, square);
    PowersAreNotNegative(gain, power);
    MulMonotone(a, level, power);
    SquareInside(v, square);
  }

  lemma SquareOfProduct(x: real, y: real, v: real, a: real, b: real, square: real)
    requires v == x * y && a == x * x && b == y * y && square == a * b
    ensures square == v * v
  {
  }

  lemma PowersAreNotNegative(x: real, power: real)
    requires power == x * x
    ensures power >= 0.0
  {
  }

  lemma SquareInside(v: real, square: real)
    requires square == v * v && square < 0.99
    ensures -0.995 < v < 0.995
  {
    if v >= 0.995 { MulMonotone(0.995, v, v); MulMonotone(0.995, v, 0.995); }
    if v <= -0.995 { MulMonotone(0.995, -v, -v); MulMonotone(0.995, -v, 0.995); }
  }

  /** A settled and switched-on chain whose preamp acts, with no output gain, never clips a tone at a
      sampled frequency: on every channel and over any calls, a tone within full scale comes out as the
      tone its sections make of it, at preamp and volume, strictly inside the ceiling. */
  lemma TonesAreNotClipped(m: Maths, ch: Chain, bands: seq<Band>, point: nat, calls: seq<Block>, channel: nat,
                           z: Complex, phasors: seq<Complex>, frames: nat, k: nat)
    requires m.Lawful() && ch.rate > 0.0 && z == Conjugate(Turn(m, GridFrequency(m, point, ch.rate) / ch.rate))
    requires BringTone(ch, calls, channel, z, phasors, frames) && AtRest(PeakingVoicing(m), ch) && k < frames
    requires ch.active == |bands| && ServeBands(m, ch.rate, ch.units, bands)
    requires phasors[0].Norm() <= 1.0 && 0.0 <= ch.volume.target <= 1.0 && ch.outputGainDb == 0.0
    requires ch.headroomDb < 0.0 && Compensated(GridResponse(m, bands, ch.rate, point), ch.headroomDb)
    ensures
      var ys, index := ProcessedCalls(PeakingVoicing(m), ch, calls).1, Span(k, ch.channels) + channel;
      && index < |ys| && -0.995 < ys[index] < 0.995
      && ys[index] == Leveled(Turned(phasors[ch.active], z, k + 2).re, m.pow10(ch.headroomDb / 20.0), 1.0,
                              ch.volume.target)
  {
    LevelOnChannel(m, ch, bands, point, channel, z, phasors);
    TurningKeepsNorm(phasors[ch.active], z, k + 2);
    LeveledBelow(m, Turned(phasors[ch.active], z, k + 2), phasors[0].Norm(), GridResponse(m, bands, ch.rate, point),
                 ch.headroomDb, ch.volume.target);
    LinearOf(m, ch.headroomDb);
    ToneInside(PeakingVoicing(m), ch, calls, channel, z, phasors, frames, k, Turned(phasors[ch.active], z, k + 2).re,
               m.pow10(ch.headroomDb / 20.0),
               Leveled(Turned(phasors[ch.active], z, k + 2).re, m.pow10(ch.headroomDb / 20.0), 1.0, ch.volume.target));
  }

  lemma ToneHeld(dsp: Voicing, ch: Chain, calls: seq<Block>, channel: nat, z: Complex, phasors: seq<Complex>,
                 frames: nat, k: nat, x: real, ys: seq<real>, index: nat)
    requires BringTone(ch, calls, channel, z, phasors, frames) && AtRest(dsp, ch)
    requires k < frames && x == Turned(phasors[ch.active], z, k + 2).re
    requires ys == ProcessedCalls(dsp, ch, calls).1 && index == Span(k, ch.channels) + channel
    ensures index < |ys|
    ensures ys[index] == HeldAt(x, dsp.linear(ch.headroomDb), dsp.linear(ch.outputGainDb), ch.volume.target)
  {
    TonePlayed(dsp, ch, calls, channel, z, phasors, frames, k);
  }

  lemma ToneInside(dsp: Voicing, ch: Chain, calls: seq<Block>, channel: nat, z: Complex, phasors: seq<Complex>,
                   frames: nat, k: nat, x: real, gain: real, y: real)
    requires BringTone(ch, calls, channel, z, phasors, frames) && AtRest(dsp, ch) && k < frames
    requires x == Turned(phasors[ch.active], z, k + 2).re
    requires dsp.linear(ch.headroomDb) == gain && dsp.linear(ch.outputGainDb) == 1.0
    requires y == Leveled(x, gain, 1.0, ch.volume.target) && -0.995 < y < 0.995
    ensures
      var ys, index := ProcessedCalls(dsp, ch, calls).1, Span(k, ch.channels) + channel;
      index < |ys| && ys[index] == y
  {
    var ys, index := ProcessedCalls(dsp, ch, calls).1, Span(k, ch.channels) + channel;
    ToneHeld(dsp, ch, calls, channel, z, phasors, frames, k, x, ys, index);
    HeldInside(ys[index], x, gain, ch.volume.target, y);
  }

  lemma LevelOnChannel(m: Maths, ch: Chain, bands: seq<Band>, point: nat, channel: nat, z: Complex,
                       phasors: seq<Complex>)
    requires m.Lawful() && ch.Ready() && channel < ch.channels && ch.rate > 0.0
    requires z == Conjugate(Turn(m, GridFrequency(m, point, ch.rate) / ch.rate))
    requires AllInStep(UnitsAlone(ch.units, ch.channels, channel), ch.active, z, phasors)
    requires ch.active == |bands| && ServeBands(m, ch.rate, ch.units, bands)
    ensures AtLevel(m, phasors[ch.active].Norm(), phasors[0].Norm(), GridResponse(m, bands, ch.rate, point))
  {
    var alone := UnitsAlone(ch.units, ch.channels, channel);
    assert ServeBands(m, ch.rate, alone, bands);
    LevelAtGrid(m, ch.rate, alone, bands, point, phasors);
  }

  lemma HeldInside(out: real, x: real, gain: real, volume: real, y: real)
    requires out == HeldAt(x, gain, 1.0, volume) && y == Leveled(x, gain, 1.0, volume) && -0.995 < y < 0.995
    ensures out == y
  {
  }

  /** The chain's factor for a gain, and for none. */
  lemma LinearOf(m: Maths, gain: real)
    requires m.Lawful()
    ensures PeakingVoicing(m).linear(gain) == m.pow10(gain / 20.0) && PeakingVoicing(m).linear(0.0) == 1.0
  {
    PowerOfZero(m);
    assert 0.0 / 20.0 == 0.0;
  }

  lemma LevelAtGrid(m: Maths, rate: real, units: seq<Unit>, bands: seq<Band>, point: nat, phasors: seq<Complex>)
    requires m.Lawful() && rate > 0.0 && ServeBands(m, rate, units, bands)
    requires AllInStep(units, |bands|, Conjugate(Turn(m, GridFrequency(m, point, rate) / rate)), phasors)
    ensures AtLevel(m, phasors[|bands|].Norm(), phasors[0].Norm(), GridResponse(m, bands, rate, point))
  {
    var f := GridFrequency(m, point, rate);
    SpacedGrows(m, point);
    CascadeLevel(m, rate, units, bands, |bands|, f, phasors);
    assert bands[..|bands|] == bands;
  }

  /** A sample of a tone that the preamp takes 1 dB below full scale stays inside the ceiling. */
  lemma LeveledBelow(m: Maths, q: Complex, first: real, response: real, preamp: real, volume: real)
    requires m.Lawful() && AtLevel(m, q.Norm(), first, response) && first <= 1.0
    requires preamp < 0.0 && Compensated(response, preamp) && 0.0 <= volume <= 1.0
    ensures -0.995 < Leveled(q.re, m.pow10(preamp / 20.0), 1.0, volume) < 0.995
  {
    var gain, norm := m.pow10(preamp / 20.0), q.Norm();
    var power, v := gain * gain, q.re * gain;
    Doubled(m, preamp / 20.0, gain, power);
    assert preamp / 20.0 + preamp / 20.0 == preamp / 10.0;
    var total := norm * power;
    LevelsAdd(m, response, preamp, response + preamp, first, norm, total);
    TotalBelow(m, first, response + preamp, total);
    PartOfNorm(q, norm, q.re * q.re);
    SampleBelow(q.re, gain, v, q.re * q.re, norm, power, total);
    VolumeKeepsBelow(v, volume);
    LeveledIs(q.re, gain, volume, v);
  }

  lemma LeveledIs(x: real, gain: real, volume: real, v: real)
    requires v == x * gain
    ensures Leveled(x, gain, 1.0, volume) == v * volume
  {
    SameFactor(volume, x * gain * 1.0, v);
  }

  lemma PartOfNorm(q: Complex, norm: real, part: real)
    requires norm == q.Norm() && part == q.re * q.re
    ensures part <= norm
  {
  }

  lemma TotalBelow(m: Maths, first: real, decibels: real, norm: real)
    requires m.Lawful() && AtLevel(m, norm, first, decibels) && first <= 1.0 && decibels <= -1.0
    ensures norm < 0.99
  {
    DecibelBelow(m);
    assert m.PowerGrows(decibels / 10.0, -0.1) && m.Power(decibels / 10.0);
    FactorBelow(first, m.pow10(decibels / 10.0), norm);
  }

  lemma FactorBelow(first: real, p: real, norm: real)
    requires norm == first * p && first <= 1.0 && 0.0 < p < 0.99
    ensures norm < 0.99
  {
    MulMonotone(first, 1.0, p);
  }

  lemma VolumeKeepsBelow(x: real, volume: real)
    requires -0.995 < x < 0.995 && 0.0 <= volume <= 1.0
    ensures -0.995 < x * volume < 0.995
  {
    if x >= 0.0 { Share(x, volume); } else { ShareBelow(x, volume); }
  }
}
