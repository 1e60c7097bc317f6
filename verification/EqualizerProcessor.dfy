/** The mutable equalizer chain that a pipeline runs, proved against `EqualizerChain`. */
module EqualizerProcessor {
  import opened EqualizerTypes
  import opened BiquadFilter
  import opened ParameterSmoother
  import opened PeakingFilter
  import opened EqualizerChain
  import opened EqualizerSettled
  import opened EqualizerResponse
  import Equalizer

  const RAMP_MILLISECONDS: real := 24.0

  /** The whole samples in 24 ms. */
  function RampSamples(rate: real): (n: nat)
    ensures rate > 0.0 ==> n as real * 1000.0 <= rate * 24.0 < (n + 1) as real * 1000.0
  {
    if rate > 0.0 then (rate * RAMP_MILLISECONDS / 1000.0).Floor else 0
  }

  // ------------------------------------------------------------------ edits on values

  function Blank(): (u: Unit)
    ensures u.Tuned()
  {
    Unit(Section(IDENTITY, []), Still(0.0), Still(0.0), 0.0, 0.0, 0.0, 0.0, 0.0, 0.0)
  }

  /** A chain that has not been told anything. */
  function New(): (ch: Chain)
    ensures ch.Valid()
  {
    Chain(0.0, 0, seq(MAX_BAND_COUNT, _ => Blank()), 0, Still(0.0), Still(0.0), Still(0.0), Still(0.0), false, 0.0, 0.0)
  }

  function PositiveOr(x: real, default: real): real { if x <= 0.0 then default else x }

  function ConfiguredUnit(dsp: Voicing, u: Unit, rate: real, channels: nat, defaultFrequency: real): (v: Unit)
    ensures u.Tuned() ==> v.Tuned()
  {
    var targetFrequency, targetQ := PositiveOr(u.targetFrequency, defaultFrequency), PositiveOr(u.targetQ, DEFAULT_Q);
    var currentQ := PositiveOr(u.currentQ, targetQ);
    Unit(Configured(u.filter, channels, dsp.design(rate, targetFrequency, currentQ, u.currentGain)),
         Still(u.targetGain), Still(targetFrequency), u.targetGain, u.targetGain,
         PositiveOr(u.currentFrequency, targetFrequency), targetFrequency, currentQ, targetQ)
  }

  function ConfiguredChain(dsp: Voicing, ch: Chain, rate: real, channels: nat): (after: Chain)
    requires ch.Valid()
    ensures after.Valid()
  {
    ch.(rate := rate, channels := channels,
        units := seq(|ch.units|, b requires 0 <= b < |ch.units| =>
                   ConfiguredUnit(dsp, ch.units[b], rate, channels, Equalizer.REFERENCE[b])),
        wet := Still(WetTarget(ch.enabled)), preamp := Still(ch.headroomDb), outputGain := Still(ch.outputGainDb),
          volume := Still(1.0))
  }

  /** A band that takes part: sent to its new frequency and gain, with its quality set at once. */
  function TunedTo(u: Unit, b: Band, rampSamples: nat): (v: Unit)
    ensures v.Tuned() && v.filter == u.filter
  {
    var q := Clamp(b.q, MIN_Q, MAX_Q);
    u.(targetFrequency := b.frequency, targetGain := b.gain, targetQ := q, currentQ := q,
       gainRamp := Retargeted(u.gainRamp, b.gain, rampSamples),
       frequencyRamp := Retargeted(u.frequencyRamp, b.frequency, rampSamples))
  }

  /** A band that no longer takes part. */
  function Retired(u: Unit): (v: Unit)
    ensures v.Tuned() && v.filter == u.filter
  {
    u.(targetGain := 0.0, gainRamp := Still(0.0), frequencyRamp := Still(u.targetFrequency), targetQ := DEFAULT_Q,
       currentQ := DEFAULT_Q)
  }

  function ActiveCount(bands: seq<Band>): nat { if |bands| < MAX_BAND_COUNT then |bands| else MAX_BAND_COUNT }

  function WithBands(ch: Chain, bands: seq<Band>, headroomDb: real): (after: Chain)
    requires ch.Valid()
    ensures after.Valid() && after.channels == ch.channels
  {
    var ramp := RampSamples(ch.rate);
    ch.(active := ActiveCount(bands),
        units := seq(|ch.units|, b requires 0 <= b < |ch.units| =>
                   if b < ActiveCount(bands) then TunedTo(ch.units[b], bands[b], ramp) else Retired(ch.units[b])),
        headroomDb := headroomDb, preamp := Retargeted(ch.preamp, headroomDb, ramp))
  }

  function WithEnabled(ch: Chain, enabled: bool): (after: Chain)
    requires ch.Valid()
    ensures after.Valid() && after.channels == ch.channels
  {
    ch.(enabled := enabled, wet := Retargeted(ch.wet, WetTarget(enabled), RampSamples(ch.rate)))
  }

  function WithOutputGain(ch: Chain, outputGainDb: real): (after: Chain)
    requires ch.Valid()
    ensures after.Valid() && after.channels == ch.channels
  {
    ch.(outputGainDb := outputGainDb, outputGain := Retargeted(ch.outputGain, outputGainDb, RampSamples(ch.rate)))
  }

  function WithVolume(ch: Chain, volume: real): (after: Chain)
    requires ch.Valid()
    ensures after.Valid() && after.channels == ch.channels
  {
    ch.(volume := Retargeted(ch.volume, volume, RampSamples(ch.rate)))
  }

  /** The bands the chain was last told to play. */
  function TargetBandsOf(ch: Chain): (bands: seq<Band>)
    requires ch.Valid()
    ensures |bands| == ch.active
  {
    seq(ch.active, b requires 0 <= b < ch.active =>
        Band(ch.units[b].targetFrequency, ch.units[b].targetGain, ch.units[b].targetQ))
  }

  /** A valid layout is read back exactly as it was set. */
  lemma BandsRoundTrip(ch: Chain, bands: seq<Band>, headroomDb: real)
    requires ch.Valid() && ValidLayout(bands)
    ensures TargetBandsOf(WithBands(ch, bands, headroomDb)) == bands
  {
    forall b | 0 <= b < |bands| ensures TargetBandsOf(WithBands(ch, bands, headroomDb))[b] == bands[b] {
      assert InLimits(bands[b]);
    }
  }

  /** What the chain makes of any bands: the first ten, each with its quality held within the limits. */
  lemma BandsAreTaken(ch: Chain, bands: seq<Band>, headroomDb: real, b: nat)
    requires ch.Valid() && b < |bands| && b < MAX_BAND_COUNT
    ensures |TargetBandsOf(WithBands(ch, bands, headroomDb))| == if |bands| > 10 then 10 else |bands|
    ensures
      var got := TargetBandsOf(WithBands(ch, bands, headroomDb))[b];
      && (got.frequency, got.gain) == (bands[b].frequency, bands[b].gain)
      && (if bands[b].q < MIN_Q then got.q == MIN_Q else if bands[b].q > MAX_Q then got.q == MAX_Q
          else got.q == bands[b].q)
  {
    assert TunedTo(ch.units[b], bands[b], RampSamples(ch.rate)).Tuned();
  }

  /** Where a band stands before any of its 24 ms have passed. */
  predicate StandsAt(u: Unit, frequency: real, gain: real) {
    u.frequencyRamp.current == frequency && u.gainRamp.current == gain
  }

  /** A band that an edit has dropped joins again without a jump: it rises from 0 dB, at the frequency it
      was last told. */
  lemma JoiningBandRisesFromFlat(ch: Chain, few: seq<Band>, more: seq<Band>, before: real, after: real, b: nat)
    requires ch.Valid() && RampSamples(ch.rate) > 0 && |few| <= b < |more| && b < MAX_BAND_COUNT
    ensures StandsAt(WithBands(WithBands(ch, few, before), more, after).units[b], ch.units[b].targetFrequency, 0.0)
  {
    assert WithBands(ch, few, before).units[b] == Retired(ch.units[b]);
  }

  /** The first bands of a new chain rise from 0 dB, each at the default frequency of its place. */
  lemma FirstBandsRiseFromDefault(dsp: Voicing, rate: real, channels: nat, bands: seq<Band>, headroomDb: real, b: nat)
    requires RampSamples(rate) > 0 && b < |bands| && b < MAX_BAND_COUNT
    ensures StandsAt(WithBands(ConfiguredChain(dsp, New(), rate, channels), bands, headroomDb).units[b],
                     Equalizer.REFERENCE[b], 0.0)
  {
    var configured := ConfiguredChain(dsp, New(), rate, channels);
    assert configured.units[b] == ConfiguredUnit(dsp, Blank(), rate, channels, Equalizer.REFERENCE[b]);
  }

  /** The settings a callback hands to the chain when they have changed. */
  datatype Edit = Edit(bands: seq<Band>, headroomDb: real, enabled: bool, outputGainDb: real, volume: real)

  function Edited(ch: Chain, e: Edit): (after: Chain)
    requires ch.Valid()
    ensures after.Valid() && after.channels == ch.channels
  {
    WithVolume(WithOutputGain(WithEnabled(WithBands(ch, e.bands, e.headroomDb), e.enabled), e.outputGainDb), e.volume)
  }

  /** The section of band `b` is the peaking section of that band. */
  predicate Plays(dsp: Voicing, ch: Chain, bands: seq<Band>)
  {
    && ch.active == |bands| <= |ch.units|
    && forall b :: 0 <= b < |bands| ==>
         ch.units[b].filter.c == dsp.design(ch.rate, bands[b].frequency, bands[b].q, bands[b].gain)
  }

  /** An edit is complete once any calls have played 24 ms: every section, the mix, both gains and
      the volume are then exactly what was asked for, and stay so. */
  lemma EditsTakeEffect(dsp: Voicing, ch: Chain, e: Edit, calls: seq<Block>)
    requires ch.Ready() && ValidLayout(e.bands) && AllFit(calls, ch.channels)
    requires Frames(calls) > 0 && Frames(calls) >= RampSamples(ch.rate)
    ensures
      var after := ProcessedCalls(dsp, Edited(ch, e), calls).0;
      && after.Ready() && AtRest(dsp, after) && (after.rate, after.channels) == (ch.rate, ch.channels)
        && Plays(dsp, after, e.bands)
      && after.wet.current == WetTarget(e.enabled) && after.preamp.current == e.headroomDb
      && after.outputGain.current == e.outputGainDb && after.volume.current == e.volume
  {
    var edited := Edited(ch, e);
    var after := ProcessedCalls(dsp, edited, calls).0;
    EditHeadsFor(ch, e);
    ChainSettles(dsp, edited, calls);
    CallsAreReady(dsp, edited, calls);
    SettledIsAtRest(dsp, edited, after);
    SettledPlays(dsp, edited, after, e.bands);
  }

  /** Where an edit sends the chain, and how long every ramp then takes. */
  lemma EditHeadsFor(ch: Chain, e: Edit)
    requires ch.Valid() && ValidLayout(e.bands)
    ensures
      var edited := Edited(ch, e);
      && edited.rate == ch.rate && edited.active == |e.bands| && TargetBandsOf(edited) == e.bands
      && (edited.enabled, edited.headroomDb, edited.outputGainDb, edited.volume.target)
        == (e.enabled, e.headroomDb, e.outputGainDb, e.volume)
      && DoneWithin(edited, RampSamples(ch.rate))
  {
    BandsRoundTrip(ch, e.bands, e.headroomDb);
  }

  /** From then on the chain is a fixed filter: whatever calls follow, their samples in a row are
      sent through the sections of the edit's bands and mixed at the edit's levels. */
  lemma EditIsPlayed(dsp: Voicing, ch: Chain, e: Edit, calls: seq<Block>, later: seq<Block>)
    requires ch.Ready() && ValidLayout(e.bands) && AllFit(calls, ch.channels) && AllFit(later, ch.channels)
    requires Frames(calls) > 0 && Frames(calls) >= RampSamples(ch.rate)
    ensures
      var after := ProcessedCalls(dsp, Edited(ch, e), calls).0;
      var xs, ys := Samples(later), ProcessedCalls(dsp, after, later).1;
      && Plays(dsp, after, e.bands) && AllSuit(after.units, ch.channels) && |ys| == |xs|
      && forall i :: 0 <= i < |xs| ==>
           Sounds(ys[i], xs[i], Passed(after.units, |e.bands|, xs, ch.channels)[i], if e.enabled then 1.0 else 0.0,
                  dsp.linear(e.headroomDb), dsp.linear(e.outputGainDb), e.volume)
  {
    EditsTakeEffect(dsp, ch, e, calls);
    var after := ProcessedCalls(dsp, Edited(ch, e), calls).0;
    CallsAtRest(dsp, after, later);
    var xs := Samples(later);
    var ps := Passed(after.units, |e.bands|, xs, ch.channels);
    forall i | 0 <= i < |xs|
      ensures Sounds(Played(dsp, after, xs)[i], xs[i], ps[i], if e.enabled then 1.0 else 0.0,
                     dsp.linear(e.headroomDb), dsp.linear(e.outputGainDb), e.volume)
    {
      MixSounds(xs, ps, after.wet.current, dsp.linear(after.preamp.current), dsp.linear(after.outputGain.current),
                after.volume.current, i);
    }
  }

  /** What the chain multiplies by for a gain in decibels is the amplitude of that gain. */
  lemma LinearIsAmplitude(m: Maths, gainDb: real)
    requires m.Lawful()
    ensures PeakingVoicing(m).linear(gainDb) > 0.0 && 20.0 * m.log10(PeakingVoicing(m).linear(gainDb)) == gainDb
  {
    assert m.Power(gainDb / 20.0);
  }

  /** A configured chain plays at full volume and at its other levels from the first call on, and its
      bands are those it had. */
  lemma ConfiguredPlaysAtOnce(dsp: Voicing, ch: Chain, rate: real, channels: nat, calls: seq<Block>)
    requires ch.Valid() && channels > 0 && AllFit(calls, channels) && Frames(calls) > 0
    requires ValidLayout(TargetBandsOf(ch))
    ensures
      var after := ProcessedCalls(dsp, ConfiguredChain(dsp, ch, rate, channels), calls).0;
      && after.Ready() && AtRest(dsp, after) && (after.rate, after.channels) == (rate, channels)
      && Plays(dsp, after, TargetBandsOf(ch))
      && after.wet.current == WetTarget(ch.enabled) && after.preamp.current == ch.headroomDb
      && after.outputGain.current == ch.outputGainDb && after.volume.current == 1.0
  {
    var configured := ConfiguredChain(dsp, ch, rate, channels);
    var after := ProcessedCalls(dsp, configured, calls).0;
    ConfiguringKeepsBands(dsp, ch, rate, channels);
    ChainSettles(dsp, configured, calls);
    CallsAreReady(dsp, configured, calls);
    SettledIsAtRest(dsp, configured, after);
    SettledPlays(dsp, configured, after, TargetBandsOf(ch));
  }

  lemma ConfiguringKeepsBands(dsp: Voicing, ch: Chain, rate: real, channels: nat)
    requires ch.Valid() && ValidLayout(TargetBandsOf(ch))
    ensures TargetBandsOf(ConfiguredChain(dsp, ch, rate, channels)) == TargetBandsOf(ch)
    ensures DoneWithin(ConfiguredChain(dsp, ch, rate, channels), 0)
  {
    forall b | 0 <= b < ch.active
      ensures TargetBandsOf(ConfiguredChain(dsp, ch, rate, channels))[b] == TargetBandsOf(ch)[b]
    {
      assert InLimits(TargetBandsOf(ch)[b]);
    }
  }

  lemma SettledPlays(dsp: Voicing, ch: Chain, after: Chain, bands: seq<Band>)
    requires ch.Valid() && Settled(dsp, ch, after)
    requires after.rate == ch.rate && after.active == ch.active == |bands| && ValidLayout(bands)
    requires TargetBandsOf(ch) == bands
    ensures Plays(dsp, after, bands)
  {
    forall b | 0 <= b < |bands|
      ensures after.units[b].filter.c == dsp.design(after.rate, bands[b].frequency, bands[b].q, bands[b].gain)
    {
      assert OnTarget(dsp, ch.rate, ch.units[b], after.units[b]);
      assert TargetBandsOf(ch)[b] == bands[b];
    }
  }

  /** What is heard of an edit once it is complete: each band's section stays between 0 dB and the
      band's gain at every frequency and reaches the gain at the band's (clamped) centre. */
  lemma EditIsHeard(m: Maths, ch: Chain, e: Edit, calls: seq<Block>, b: nat, f: real)
    requires m.Lawful() && ch.Ready() && ValidLayout(e.bands) && b < |e.bands| && AllFit(calls, ch.channels)
    requires Frames(calls) > 0 && Frames(calls) >= RampSamples(ch.rate)
    ensures
      var after := ProcessedCalls(PeakingVoicing(m), Edited(ch, e), calls).0;
      && b < |after.units|
      && LevelWithin(EvaluateFrequencyResponseDb(m, after.units[b].filter.c, f), e.bands[b].gain)
      && (ch.rate * 0.5 * 0.9 >= 10.0 ==>
            EvaluateFrequencyResponseDb(m, after.units[b].filter.c,
                                        SafeFrequency(ch.rate, e.bands[b].frequency) / ch.rate) == e.bands[b].gain)
  {
    var band := e.bands[b];
    EditsTakeEffect(PeakingVoicing(m), ch, e, calls);
    ResponseStaysWithinGain(m, ch.rate, band.frequency, band.q, band.gain, f);
    assert InLimits(band);
    if ch.rate * 0.5 * 0.9 >= 10.0 {
      ResponseAtCentreIsGain(m, ch.rate, band.frequency, band.q, band.gain);
    }
  }

  // ---------------------------------------------------------------------- the object

  /** A buffer of `left` frames is the control block that gives `block` and `next`, then `tail`. */
  ghost predicate FirstBlock(dsp: Voicing, ch: Chain, xs: seq<real>, left: nat, block: seq<real>, next: Chain,
                             tail: seq<real>, more: nat) {
    && ch.Ready() && |xs| == left * ch.channels && next.Ready() && |tail| == more * next.channels
    && Processed(dsp, ch, xs, left) == Continued(block, Processed(dsp, next, tail, more))
  }

  lemma BlockFirst(dsp: Voicing, ch: Chain, xs: seq<real>, left: nat, n: nat, cut: nat, tail: seq<real>)
    requires ch.Ready() && |xs| == left * ch.channels && left > 0
    requires n == BlockFrames(left) && cut == n * ch.channels <= |xs|
    requires tail == xs[cut..] && |tail| == (left - n) * ch.channels
    ensures FirstBlock(dsp, ch, xs, left, BlockSamples(dsp, ch, xs[..cut], n), BlockChain(dsp, ch, xs[..cut], n),
                       tail, left - n)
  {
    var blocks := Blocks(xs, left, ch.channels);
    assert blocks[0] == Block(n, xs[..cut]) && blocks[1..] == Blocks(tail, left - n, ch.channels);
  }

  /** `front` is done; running `state` over the `left` frames of `rest` does what is left of `goal`. */
  ghost predicate Underway(dsp: Voicing, goal: (Chain, seq<real>), front: seq<real>, state: Chain, rest: seq<real>,
                           left: nat)
  {
    && state.Ready() && |rest| == left * state.channels
    && goal == Continued(front, Processed(dsp, state, rest, left))
  }

  function Continued(front: seq<real>, rest: (Chain, seq<real>)): (Chain, seq<real>) { (rest.0, front + rest.1) }

  lemma UnderwayStep(dsp: Voicing, goal: (Chain, seq<real>), front: seq<real>, state: Chain, rest: seq<real>,
                     left: nat, block: seq<real>, next: Chain, tail: seq<real>, more: nat)
    requires Underway(dsp, goal, front, state, rest, left)
    requires FirstBlock(dsp, state, rest, left, block, next, tail, more)
    ensures Underway(dsp, goal, front + block, next, tail, more)
  {
    ContinuedTwice(front, block, Processed(dsp, next, tail, more));
  }

  /** The next control block of a call underway. */
  lemma UnderwayByBlock(dsp: Voicing, goal: (Chain, seq<real>), front: seq<real>, state: Chain, rest: seq<real>,
                        left: nat, n: nat, cut: nat, tail: seq<real>)
    returns (next: Chain, block: seq<real>)
    requires Underway(dsp, goal, front, state, rest, left) && left > 0
    requires n == BlockFrames(left) && cut == n * state.channels <= |rest|
    requires tail == rest[cut..] && |tail| == (left - n) * state.channels
    ensures next == BlockChain(dsp, state, rest[..cut], n) && block == BlockSamples(dsp, state, rest[..cut], n)
    ensures Underway(dsp, goal, front + block, next, tail, left - n)
  {
    next, block := BlockChain(dsp, state, rest[..cut], n), BlockSamples(dsp, state, rest[..cut], n);
    BlockFirst(dsp, state, rest, left, n, cut, tail);
    UnderwayStep(dsp, goal, front, state, rest, left, block, next, tail, left - n);
  }

  lemma ContinuedTwice(front: seq<real>, block: seq<real>, later: (Chain, seq<real>))
    ensures Continued(front, Continued(block, later)) == Continued(front + block, later)
  {
    assert front + (block + later.1) == (front + block) + later.1;
  }

  lemma UnderwayStarts(dsp: Voicing, ch: Chain, xs: seq<real>, frames: nat)
    requires ch.Ready() && |xs| == frames * ch.channels
    ensures Underway(dsp, Processed(dsp, ch, xs, frames), [], ch, xs, frames)
  {
    assert [] + Processed(dsp, ch, xs, frames).1 == Processed(dsp, ch, xs, frames).1;
  }

  lemma UnderwayEnds(dsp: Voicing, goal: (Chain, seq<real>), front: seq<real>, state: Chain, rest: seq<real>)
    requires Underway(dsp, goal, front, state, rest, 0)
    ensures goal == (state, front) && rest == []
  {
    assert Blocks(rest, 0, state.channels) == [];
    assert front + [] == front;
  }

  lemma SliceOfRest(dry: seq<real>, cut: nat, size: nat, rest: seq<real>)
    requires cut <= |dry| && dry[cut..] == rest && size <= |rest|
    ensures cut + size <= |dry| && dry[cut..cut + size] == rest[..size] && dry[cut + size..] == rest[size..]
  {
  }

  /** The two results of a control block, field by field. */
  lemma BlockParts(dsp: Voicing, ch: Chain, block: seq<real>, n: nat, after: Chain, processed: seq<real>)
    requires ch.Ready()
    requires after == ch.(units := after.units, wet := Advanced(ch.wet, n), preamp := Advanced(ch.preamp, n),
                          outputGain := Advanced(ch.outputGain, n), volume := Advanced(ch.volume, n))
    requires after.units == PassedUnits(RefreshedUnits(dsp, ch, n), ch.active, block, ch.channels)
    requires processed == Passed(RefreshedUnits(dsp, ch, n), ch.active, block, ch.channels)
    ensures after == BlockChain(dsp, ch, block, n) && after.Valid() && |processed| == |block|
    ensures BlockSamples(dsp, ch, block, n)
         == Mixed(block, processed, after.wet.current, dsp.linear(after.preamp.current),
                  dsp.linear(after.outputGain.current), after.volume.current)
  {
  }

  lemma {:induction false} PassStep(units: seq<Unit>, k: nat, b: nat, block: seq<real>, channels: nat)
    requires AllSuit(units, channels) && k <= b < |units|
    ensures PassedUnits(units, k, block, channels)[b] == units[b]
  {
    if k > 0 { PassStep(units, k - 1, b, block, channels); }
  }

  /** The buffer holds finished samples, then what is still dry, then what is not part of the call. */
  ghost predicate Laid(now: seq<real>, dry: seq<real>, cut: nat, front: seq<real>, rest: seq<real>, tail: seq<real>) {
    && cut <= |dry| <= |now|
    && now[..cut] == front && now[cut..] == rest + tail && dry[cut..] == rest
  }

  lemma CutTwice(s: seq<real>, a: nat, b: nat)
    requires a <= b <= |s|
    ensures s[..b] == s[..a] + s[a..b] && s[b..] == s[a..][b - a..]
  {
  }

  lemma SamplesArePositive(frames: nat, channels: nat)
    requires frames > 0 && channels > 0
    ensures frames * channels > 0
  {
  }

  class Processor {
    const dsp: Voicing
    var rate: real
    var channels: nat
    var units: seq<Unit>
    var active: nat
    var wet: Ramp
    var preamp: Ramp
    var outputGain: Ramp
    var volume: Ramp
    var enabled: bool
    var outputGainDb: real
    var headroomDb: real
    /** The samples the copy of the dry signal has room for. */
    var capacity: nat

    ghost function State(): Chain
      reads this
    {
      Chain(rate, channels, units, active, wet, preamp, outputGain, volume, enabled, outputGainDb, headroomDb)
    }

    ghost predicate Valid()
      reads this
    {
      State().Valid()
    }

    constructor (dsp: Voicing)
      ensures Valid() && this.dsp == dsp && capacity == 0 && State() == New()
    {
      this.dsp := dsp;
      rate, channels, active, capacity := 0.0, 0, 0, 0;
      units := seq(MAX_BAND_COUNT, _ => Blank());
      wet, preamp, outputGain, volume := Still(0.0), Still(0.0), Still(0.0), Still(0.0);
      enabled, outputGainDb, headroomDb := false, 0.0, 0.0;
    }

    method Configure(sampleRate: real, channelCount: nat)
      requires Valid()
      modifies this
      ensures Valid() && capacity == old(capacity)
      ensures State() == ConfiguredChain(dsp, old(State()), sampleRate, channelCount)
    {
      rate := sampleRate;
      channels := channelCount;
      ConfigureUnits();
      wet := Still(WetTarget(enabled));
      preamp := Still(headroomDb);
      outputGain := Still(outputGainDb);
      volume := Still(1.0);
      assert units == ConfiguredChain(dsp, old(State()), sampleRate, channelCount).units;
    }

    /** The band loop of `Configure`. */
    method ConfigureUnits()
      requires |units| == MAX_BAND_COUNT
      modifies this`units
      ensures |units| == MAX_BAND_COUNT
      ensures forall i :: 0 <= i < |units| ==>
              units[i] == ConfiguredUnit(dsp, old(units)[i], rate, channels, Equalizer.REFERENCE[i])
    {
      ghost var before := units;
      for b := 0 to |units|
        invariant |units| == |before|
        invariant forall i :: 0 <= i < b ==>
                  units[i] == ConfiguredUnit(dsp, before[i], rate, channels, Equalizer.REFERENCE[i])
        invariant forall i :: b <= i < |units| ==> units[i] == before[i]
      {
        units := units[b := ConfiguredUnit(dsp, units[b], rate, channels, Equalizer.REFERENCE[b])];
      }
    }

    method Prepare(maxFrameCount: nat)
      modifies this`capacity
      ensures capacity >= maxFrameCount * channels && capacity >= old(capacity)
    {
      var needed := maxFrameCount * channels;
      capacity := if capacity < needed then needed else capacity;
    }

    method SetEnabled(value: bool)
      requires Valid()
      modifies this
      ensures Valid() && capacity == old(capacity) && State() == WithEnabled(old(State()), value)
    {
      enabled := value;
      wet := Retargeted(wet, WetTarget(value), RampSamples(rate));
    }

    method SetBandsPrecomputed(bands: seq<Band>, headroom: real)
      requires Valid()
      modifies this
      ensures Valid() && capacity == old(capacity) && State() == WithBands(old(State()), bands, headroom)
    {
      var ramp := RampSamples(rate);
      active := if |bands| < MAX_BAND_COUNT then |bands| else MAX_BAND_COUNT;
      TuneUnits(bands, ramp);
      RetireUnits();
      headroomDb := headroom;
      preamp := Retargeted(preamp, headroomDb, ramp);
      assert units == WithBands(old(State()), bands, headroom).units;
    }

    method TuneUnits(bands: seq<Band>, ramp: nat)
      requires active <= |bands| && active <= |units|
      modifies this`units
      ensures |units| == old(|units|)
      ensures forall i :: 0 <= i < |units| && i < active ==> units[i] == TunedTo(old(units)[i], bands[i], ramp)
      ensures forall i :: active <= i < |units| ==> units[i] == old(units)[i]
    {
      ghost var before := units;
      for b := 0 to active
        invariant |units| == |before|
        invariant forall i :: 0 <= i < b ==> units[i] == TunedTo(before[i], bands[i], ramp)
        invariant forall i :: b <= i < |units| ==> units[i] == before[i]
      {
        units := units[b := TunedTo(units[b], bands[b], ramp)];
      }
    }

    method RetireUnits()
      requires active <= |units|
      modifies this`units
      ensures |units| == old(|units|)
      ensures forall i :: 0 <= i < |units| && i < active ==> units[i] == old(units)[i]
      ensures forall i :: active <= i < |units| ==> units[i] == Retired(old(units)[i])
    {
      ghost var before := units;
      for b := active to |units|
        invariant |units| == |before|
        invariant forall i :: active <= i < b ==> units[i] == Retired(before[i])
        invariant forall i :: 0 <= i < |units| && !(active <= i < b) ==> units[i] == before[i]
      {
        units := units[b := Retired(units[b])];
      }
    }

    method SetOutputGainDb(value: real)
      requires Valid()
      modifies this
      ensures Valid() && capacity == old(capacity) && State() == WithOutputGain(old(State()), value)
    {
      outputGainDb := value;
      outputGain := Retargeted(outputGain, outputGainDb, RampSamples(rate));
    }

    method SetVolumeLinear(value: real)
      requires Valid()
      modifies this
      ensures Valid() && capacity == old(capacity) && State() == WithVolume(old(State()), value)
    {
      volume := Retargeted(volume, value, RampSamples(rate));
    }

    /** Clears every delay line. */
    method Reset()
      requires Valid()
      modifies this`units
      ensures Valid()
      ensures |units| == old(|units|)
      ensures forall b :: 0 <= b < |units| ==> units[b] == old(units)[b].(filter := Cleared(old(units)[b].filter))
    {
      ghost var before := units;
      for b := 0 to |units|
        invariant |units| == |before| == MAX_BAND_COUNT
        invariant forall i :: 0 <= i < |units| ==>
                  units[i] == if i < b then before[i].(filter := Cleared(before[i].filter)) else before[i]
      {
        units := units[b := units[b].(filter := Cleared(units[b].filter))];
      }
    }

    method TargetBands() returns (bands: seq<Band>)
      requires Valid()
      ensures bands == TargetBandsOf(State())
    {
      bands := [];
      for b := 0 to active
        invariant bands == TargetBandsOf(State())[..b]
      {
        bands := bands + [Band(units[b].targetFrequency, units[b].targetGain, units[b].targetQ)];
      }
    }

    /** Runs `frames` interleaved frames through the chain in place; an unprepared or empty call
        changes nothing. */
    method Process(samples: array<real>, frames: nat)
      requires Valid() && frames * channels <= samples.Length
      modifies this, samples
      ensures Valid() && capacity == old(capacity) && channels == old(channels)
      ensures var n := frames * channels;
              if n == 0 || n > capacity then samples[..] == old(samples[..]) && State() == old(State())
              else samples[..] == Processed(dsp, old(State()), old(samples[..n]), frames).1 + old(samples[n..])
                   && State() == Processed(dsp, old(State()), old(samples[..n]), frames).0
    {
      if frames == 0 || channels == 0 {
        return;
      }
      var sampleCount := frames * channels;
      SamplesArePositive(frames, channels);
      if sampleCount > capacity {
        return;
      }
      ProcessBlocks(samples, frames, sampleCount);
    }

    method ProcessBlocks(samples: array<real>, frames: nat, sampleCount: nat)
      requires Valid() && channels > 0 && sampleCount == frames * channels <= samples.Length
      modifies this, samples
      ensures Valid() && capacity == old(capacity) && channels == old(channels)
      ensures samples[sampleCount..] == old(samples[sampleCount..])
      ensures samples[..sampleCount] == Processed(dsp, old(State()), old(samples[..sampleCount]), frames).1
      ensures State() == Processed(dsp, old(State()), old(samples[..sampleCount]), frames).0
    {
      ghost var ch, xs, tail := State(), samples[..sampleCount], samples[sampleCount..];
      ghost var front, rest := [], xs;
      var dry := samples[..sampleCount];
      var left, cut := frames, 0;
      UnderwayStarts(dsp, ch, xs, frames);
      ghost var goal := Processed(dsp, ch, xs, frames);
      while left > 0
        invariant Valid() && capacity == old(capacity) && channels == ch.channels && |dry| == sampleCount
        invariant Laid(samples[..], dry, cut, front, rest, tail)
        invariant Underway(dsp, goal, front, State(), rest, left)
      {
        left, cut, front, rest := ProcessStep(samples, dry, left, cut, goal, front, rest, tail);
      }
      UnderwayEnds(dsp, goal, front, State(), rest);
    }

    /** The body of the block loop. */
    method ProcessStep(samples: array<real>, dry: seq<real>, left: nat, cut: nat, ghost goal: (Chain, seq<real>),
                       ghost front: seq<real>, ghost rest: seq<real>, ghost tail: seq<real>)
      returns (nextLeft: nat, nextCut: nat, ghost nextFront: seq<real>, ghost nextRest: seq<real>)
      requires Valid() && channels > 0 && left > 0 && Laid(samples[..], dry, cut, front, rest, tail)
      requires Underway(dsp, goal, front, State(), rest, left)
      modifies this, samples
      ensures Valid() && capacity == old(capacity) && channels == old(channels) && nextLeft < left
      ensures Laid(samples[..], dry, nextCut, nextFront, nextRest, tail)
      ensures Underway(dsp, goal, nextFront, State(), nextRest, nextLeft)
    {
      var n, size := NextBlock(left, channels, rest);
      ghost var state := State();
      ghost var next, block := UnderwayByBlock(dsp, goal, front, state, rest, left, n, size, rest[size..]);
      ProcessNext(samples, dry, cut, size, n, front, rest, tail, next, block);
      nextFront, nextRest := front + block, rest[size..];
      nextLeft, nextCut := left - n, cut + size;
    }

    /** The frames and the samples of the next control block. */
    static method NextBlock(left: nat, channels: nat, ghost rest: seq<real>) returns (n: nat, size: nat)
      requires |rest| == left * channels
      ensures n == BlockFrames(left) && size == n * channels && size <= |rest|
              && |rest[size..]| == (left - n) * channels
    {
      n := BlockFrames(left);
      CutFits(n, left, channels);
      size := n * channels;
    }

    /** One control block, given how the finished and the dry samples lie in the buffer. */
    method ProcessNext(samples: array<real>, dry: seq<real>, cut: nat, size: nat, n: nat,
                       ghost front: seq<real>, ghost rest: seq<real>, ghost tail: seq<real>,
                       ghost next: Chain, ghost block: seq<real>)
      requires Valid() && channels > 0 && size <= |rest| && Laid(samples[..], dry, cut, front, rest, tail)
      requires next == BlockChain(dsp, State(), rest[..size], n) && block == BlockSamples(dsp, State(), rest[..size], n)
      modifies this, samples
      ensures Valid() && capacity == old(capacity) && channels == old(channels) && State() == next
      ensures Laid(samples[..], dry, cut + size, front + block, rest[size..], tail)
    {
      SliceOfRest(dry, cut, size, rest);
      assert samples[..][cut..] == samples[cut..];
      assert (rest + tail)[..size] == rest[..size] && (rest + tail)[size..] == rest[size..] + tail;
      ProcessBlock(samples, dry[cut..cut + size], cut, size, n, rest + tail);
      assert samples[..][..cut + size] == samples[..cut + size] && samples[..][cut + size..] == samples[cut + size..];
    }

    /** One control block, from the copy of its dry samples. */
    method ProcessBlock(samples: array<real>, dry: seq<real>, start: nat, size: nat, n: nat, ghost rest: seq<real>)
      requires Valid() && channels > 0 && start + size <= samples.Length && size == |dry| <= |rest|
      requires samples[start..] == rest && rest[..size] == dry
      modifies this, samples
      ensures Valid() && capacity == old(capacity) && channels == old(channels)
      ensures State() == BlockChain(dsp, old(State()), dry, n)
      ensures samples[..start + size] == old(samples[..start]) + BlockSamples(dsp, old(State()), dry, n)
      ensures samples[start + size..] == rest[size..]
    {
      assert samples[start..start + size] == samples[start..][..size];
      var processed := AdvanceBlock(samples[start..start + size], n, State());
      MixBlock(samples, dry, processed, start, rest, wet.current, dsp.linear(preamp.current),
               dsp.linear(outputGain.current), volume.current);
    }

    /** The mix, told of the whole buffer. */
    static method MixBlock(samples: array<real>, dry: seq<real>, processed: seq<real>, start: nat,
                           ghost rest: seq<real>,
                           wet: real, preamp: real, outputGain: real, volume: real)
      requires |processed| == |dry| <= |rest| && start <= samples.Length && samples[start..] == rest
      modifies samples
      ensures samples[..start + |dry|] == old(samples[..start]) + Mixed(dry, processed, wet, preamp, outputGain, volume)
      ensures samples[start + |dry|..] == rest[|dry|..]
    {
      CutTwice(samples[..], start, start + |dry|);
      Mix(samples, dry, processed, start, wet, preamp, outputGain, volume);
      CutTwice(samples[..], start, start + |dry|);
    }

    /** Everything a control block does short of writing its samples. */
    method AdvanceBlock(block: seq<real>, n: nat, ghost ch: Chain) returns (processed: seq<real>)
      requires Valid() && channels > 0 && ch == State()
      modifies this`units, this`wet, this`preamp, this`outputGain, this`volume
      ensures Valid() && State() == BlockChain(dsp, ch, block, n) && |processed| == |block|
      ensures BlockSamples(dsp, ch, block, n)
           == Mixed(block, processed, wet.current, dsp.linear(preamp.current), dsp.linear(outputGain.current),
                    volume.current)
    {
      processed := FilterBlock(block, n, ch);
      AdvanceMix(n);
      BlockParts(dsp, ch, block, n, State(), processed);
    }

    method AdvanceMix(n: nat)
      modifies this`wet, this`preamp, this`outputGain, this`volume
      ensures wet == Advanced(old(wet), n) && preamp == Advanced(old(preamp), n)
      ensures outputGain == Advanced(old(outputGain), n) && volume == Advanced(old(volume), n)
    {
      wet := Advanced(wet, n);
      preamp := Advanced(preamp, n);
      outputGain := Advanced(outputGain, n);
      volume := Advanced(volume, n);
    }

    /** Redesigns the sections and sends a block through all of them. */
    method FilterBlock(block: seq<real>, n: nat, ghost ch: Chain) returns (processed: seq<real>)
      requires Valid() && channels > 0 && ch == State()
      modifies this`units
      ensures units == PassedUnits(RefreshedUnits(dsp, ch, n), ch.active, block, ch.channels)
      ensures processed == Passed(RefreshedUnits(dsp, ch, n), ch.active, block, ch.channels)
    {
      UpdateFilterCoefficients(n);
      processed := PassBlock(block);
    }

    /** Sends a block through the active sections, one after the other. */
    method PassBlock(block: seq<real>) returns (processed: seq<real>)
      requires channels > 0 && AllSuit(units, channels) && active <= |units|
      modifies this`units
      ensures units == PassedUnits(old(units), active, block, channels)
      ensures processed == Passed(old(units), active, block, channels)
    {
      ghost var before := units;
      processed := block;
      assert units == PassedUnits(before, 0, block, channels);
      for b := 0 to active
        invariant units == PassedUnits(before, b, block, channels)
        invariant processed == Passed(before, b, block, channels)
      {
        PassStep(before, b, b, block, channels);
        var filter := units[b].filter;
        units := units[b := FedUnit(units[b], processed, channels)];
        processed := Response(filter, processed);
      }
    }

    method UpdateFilterCoefficients(n: nat)
      requires Valid() && channels > 0
      modifies this`units
      ensures units == RefreshedUnits(dsp, old(State()), n) && AllSuit(units, channels)
    {
      ghost var ch := State();
      for b := 0 to active
        invariant |units| == |ch.units|
        invariant forall i :: 0 <= i < |units| ==>
                  units[i] == if i < b then Refreshed(dsp, rate, ch.units[i], n) else ch.units[i]
      {
        units := units[b := Refreshed(dsp, rate, units[b], n)];
      }
      assert units == RefreshedUnits(dsp, ch, n);
    }

    /** Writes the mix of the dry and the processed block over the block. */
    static method Mix(samples: array<real>, dry: seq<real>, processed: seq<real>, start: nat,
                      wet: real, preamp: real, outputGain: real, volume: real)
      requires |processed| == |dry| && start + |dry| <= samples.Length
      modifies samples
      ensures samples[..start] == old(samples[..start]) && samples[start + |dry|..] == old(samples[start + |dry|..])
      ensures samples[start..start + |dry|] == Mixed(dry, processed, wet, preamp, outputGain, volume)
    {
      for i := 0 to |dry|
        invariant samples[..start] == old(samples[..start])
        invariant samples[start + i..] == old(samples[start + i..])
        invariant samples[start..start + i] == Mixed(dry, processed, wet, preamp, outputGain, volume)[..i]
      {
        samples[start + i] := MixedSample(dry[i], processed[i], wet, preamp, outputGain, volume);
      }
    }
  }
}
