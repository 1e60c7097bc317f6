/** Runs of a machine over a sequence of blocks, each step giving a new state and some output. */
module BlockRuns {
  function Run<S, B, T>(step: (S, B) -> (S, seq<T>), s: S, blocks: seq<B>): (S, seq<T>)
    decreases |blocks|
  {
    if blocks == [] then (s, [])
    else
      var first := step(s, blocks[0]);
      var rest := Run(step, first.0, blocks[1..]);
      (rest.0, first.1 + rest.1)
  }

  /** Running two stretches in a row is running their concatenation. */
  lemma {:induction false} RunSplits<S, B, T>(step: (S, B) -> (S, seq<T>), s: S, front: seq<B>, back: seq<B>)
    ensures var first := Run(step, s, front); var second := Run(step, first.0, back);
            Run(step, s, front + back) == (second.0, first.1 + second.1)
    decreases |front|
  {
    if front == [] {
      assert front + back == back;
      assert [] + Run(step, s, back).1 == Run(step, s, back).1;
    } else {
      assert (front + back)[1..] == front[1..] + back;
      var next := step(s, front[0]);
      RunSplits(step, next.0, front[1..], back);
      var middle, last := Run(step, next.0, front[1..]), Run(step, Run(step, next.0, front[1..]).0, back);
      assert next.1 + (middle.1 + last.1) == (next.1 + middle.1) + last.1;
    }
  }

  function Total<B>(weight: B -> nat, blocks: seq<B>): nat {
    if blocks == [] then 0 else weight(blocks[0]) + Total(weight, blocks[1..])
  }

  ghost predicate Composes<S(!new)>(relates: (S, S, nat) -> bool) {
    forall a: S, b: S, c: S, n: nat, k: nat :: relates(a, b, n) && relates(b, c, k) ==> relates(a, c, n + k)
  }

  ghost predicate Steps<S(!new), B(!new), T>(step: (S, B) -> (S, seq<T>), weight: B -> nat,
                                            relates: (S, S, nat) -> bool) {
    forall s: S, b: B :: relates(s, step(s, b).0, weight(b))
  }

  /** A weighted relation that every step keeps and that composes holds from end to end. */
  lemma {:induction false} RunRelates<S(!new), B(!new), T>(step: (S, B) -> (S, seq<T>), weight: B -> nat,
                                                          relates: (S, S, nat) -> bool, s: S, blocks: seq<B>)
    requires Composes(relates) && Steps(step, weight, relates) && blocks != []
    ensures relates(s, Run(step, s, blocks).0, Total(weight, blocks))
    decreases |blocks|
  {
    var next := step(s, blocks[0]).0;
    assert relates(s, next, weight(blocks[0]));
    if |blocks| == 1 {
      assert Run(step, next, blocks[1..]).0 == next;
    } else {
      RunRelates(step, weight, relates, next, blocks[1..]);
    }
  }

  /** What every block gives, told from the weight run up to its end. */
  function Outputs<B, T>(out: (B, nat) -> seq<T>, weight: B -> nat, before: nat, blocks: seq<B>): seq<T>
    decreases |blocks|
  {
    if blocks == [] then []
    else
      var now := before + weight(blocks[0]);
      out(blocks[0], now) + Outputs(out, weight, now, blocks[1..])
  }

  /** One block gives what it should, and so do the others. */
  lemma OutputsFirst<S, B, T>(step: (S, B) -> (S, seq<T>), out: (B, nat) -> seq<T>, weight: B -> nat, s: S,
                              before: nat, blocks: seq<B>)
    requires blocks != [] && step(s, blocks[0]).1 == out(blocks[0], before + weight(blocks[0]))
    requires Run(step, step(s, blocks[0]).0, blocks[1..]).1
             == Outputs(out, weight, before + weight(blocks[0]), blocks[1..])
    ensures Run(step, s, blocks).1 == Outputs(out, weight, before, blocks)
  {
  }
}

/** The equalizer chain: smoothed band sections, preamp, output gain, volume and the final clamp,
    run over interleaved samples in control blocks of 64 frames. */
module EqualizerChain {
  import IntLemmas
  import opened EqualizerTypes
  import opened BiquadFilter
  import opened ParameterSmoother
  import opened PeakingFilter
  import opened BlockRuns

  const CONTROL_BLOCK: nat := 64
  const CEILING: real := 0.995

  /** The two computations the chain is built on: the section for a rate, frequency, quality and
      gain, and the amplitude of a gain in decibels. */
  datatype Voicing = Voicing(design: (real, real, real, real) -> Coefficients, linear: real -> real)

  function PeakingVoicing(m: Maths): Voicing
    requires m.Lawful()
  {
    Voicing((rate, frequency, q, gain) => MakePeakingCoefficients(m, rate, frequency, q, gain),
            gain => m.pow10(gain / 20.0))
  }

  /** One band of the chain: its section, its two ramps and the values they drive. */
  datatype Unit = Unit(filter: Section, gainRamp: Ramp, frequencyRamp: Ramp,
                       currentGain: real, targetGain: real,
                       currentFrequency: real, targetFrequency: real,
                       currentQ: real, targetQ: real) {
    /** The ramps head for the targets. */
    predicate Tuned() {
      && gainRamp.target == targetGain && frequencyRamp.target == targetFrequency && currentQ == targetQ
      && Coherent(gainRamp) && Coherent(frequencyRamp)
    }
  }

  datatype Chain = Chain(rate: real, channels: nat, units: seq<Unit>, active: nat,
                         wet: Ramp, preamp: Ramp, outputGain: Ramp, volume: Ramp,
                         enabled: bool, outputGainDb: real, headroomDb: real) {
    predicate Ready() { Valid() && channels > 0 }

    predicate Valid() {
      && |units| == MAX_BAND_COUNT && active <= MAX_BAND_COUNT
      && (channels > 0 ==> forall b :: 0 <= b < |units| ==> units[b].filter.Suits(channels))
      && AllTuned(units)
      && wet.target == WetTarget(enabled) && preamp.target == headroomDb && outputGain.target == outputGainDb
      && Coherent(wet) && Coherent(preamp) && Coherent(outputGain) && Coherent(volume)
    }
  }

  function WetTarget(enabled: bool): real { if enabled then 1.0 else 0.0 }

  // -------------------------------------------------------------- one control block

  /** A band after its ramps advanced by `n` frames and its section was redesigned. */
  function Refreshed(dsp: Voicing, rate: real, u: Unit, n: nat): Unit
  {
    var gain, frequency := Advanced(u.gainRamp, n), Advanced(u.frequencyRamp, n);
    u.(gainRamp := gain, frequencyRamp := frequency, currentGain := gain.current, currentFrequency := frequency.current,
       filter := u.filter.(c := dsp.design(rate, frequency.current, u.currentQ, gain.current)))
  }

  function RefreshedUnits(dsp: Voicing, ch: Chain, n: nat): (units: seq<Unit>)
    requires ch.Valid()
    ensures |units| == |ch.units|
  {
    seq(|ch.units|, b requires 0 <= b < |ch.units| =>
        if b < ch.active then Refreshed(dsp, ch.rate, ch.units[b], n) else ch.units[b])
  }

  predicate AllTuned(units: seq<Unit>) { forall b :: 0 <= b < |units| ==> units[b].Tuned() }

  predicate AllSuit(units: seq<Unit>, channels: nat) {
    forall b :: 0 <= b < |units| ==> units[b].filter.Suits(channels)
  }

  /** The block after the first `k` sections, one after the other. */
  function Passed(units: seq<Unit>, k: nat, xs: seq<real>, channels: nat): (ys: seq<real>)
    requires AllSuit(units, channels) && k <= |units|
    ensures |ys| == |xs|
  {
    if k == 0 then xs else Response(units[k - 1].filter, Passed(units, k - 1, xs, channels))
  }

  /** A band after a block went through its section. */
  function FedUnit(u: Unit, xs: seq<real>, channels: nat): (v: Unit)
    requires u.filter.Suits(channels)
    ensures SameButDelays(u, v) && v.filter.Suits(channels)
  {
    u.(filter := Fed(u.filter, xs))
  }

  /** Two states of a band that differ at most in the delay lines. */
  predicate SameButDelays(u: Unit, v: Unit) {
    v == u.(filter := v.filter) && v.filter.c == u.filter.c
  }

  /** The bands after the block went through the first `k` sections. */
  function PassedUnits(units: seq<Unit>, k: nat, xs: seq<real>, channels: nat): (after: seq<Unit>)
    requires AllSuit(units, channels) && k <= |units|
    ensures |after| == |units| && AllSuit(after, channels)
    ensures forall b :: 0 <= b < |units| ==> SameButDelays(units[b], after[b])
  {
    if k == 0 then units
    else PassedUnits(units, k - 1, xs, channels)
         [k - 1 := FedUnit(units[k - 1], Passed(units, k - 1, xs, channels), channels)]
  }

  /** A processed sample at the preamp and the output gain. */
  function Amplified(processed: real, preamp: real, outputGain: real): real { processed * preamp * outputGain }

  /** The dry and the wet sample at a wet mix. */
  function Blend(dry: real, wetSample: real, wet: real): real { dry * (1.0 - wet) + wetSample * wet }

  /** A sample at a volume, within the ceiling. */
  function Scaled(x: real, volume: real): (y: real)
    ensures -CEILING <= y <= CEILING
  {
    Clamp(x * volume, -CEILING, CEILING)
  }

  function MixedSample(dry: real, processed: real, wet: real, preamp: real, outputGain: real, volume: real): (y: real)
    ensures -CEILING <= y <= CEILING
  {
    Scaled(Blend(dry, Amplified(processed, preamp, outputGain), wet), volume)
  }

  function Mixed(dry: seq<real>, processed: seq<real>, wet: real, preamp: real, outputGain: real,
                 volume: real): (ys: seq<real>)
    requires |processed| == |dry|
    ensures |ys| == |dry|
  {
    seq(|dry|, i requires 0 <= i < |dry| => MixedSample(dry[i], processed[i], wet, preamp, outputGain, volume))
  }

  lemma PassingKeepsTuned(dsp: Voicing, ch: Chain, xs: seq<real>, n: nat)
    requires ch.Ready()
    ensures AllSuit(RefreshedUnits(dsp, ch, n), ch.channels)
    ensures AllTuned(PassedUnits(RefreshedUnits(dsp, ch, n), ch.active, xs, ch.channels))
  {
    var refreshed := RefreshedUnits(dsp, ch, n);
    var units := PassedUnits(refreshed, ch.active, xs, ch.channels);
    forall b | 0 <= b < |units| ensures units[b].Tuned() {
      assert ch.units[b].Tuned() && refreshed[b].Tuned() && SameButDelays(refreshed[b], units[b]);
    }
  }

  /** The chain after a control block of `n` frames with samples `xs`. */
  function BlockChain(dsp: Voicing, ch: Chain, xs: seq<real>, n: nat): (after: Chain)
    requires ch.Ready()
    ensures after.Ready() && after.channels == ch.channels
  {
    PassingKeepsTuned(dsp, ch, xs, n);
    ch.(units := PassedUnits(RefreshedUnits(dsp, ch, n), ch.active, xs, ch.channels),
        wet := Advanced(ch.wet, n), preamp := Advanced(ch.preamp, n),
        outputGain := Advanced(ch.outputGain, n), volume := Advanced(ch.volume, n))
  }

  /** What the chain makes of a control block. */
  function BlockSamples(dsp: Voicing, ch: Chain, xs: seq<real>, n: nat): (ys: seq<real>)
    requires ch.Ready()
    ensures |ys| == |xs|
  {
    Mixed(xs, Passed(RefreshedUnits(dsp, ch, n), ch.active, xs, ch.channels), Advanced(ch.wet, n).current,
          dsp.linear(Advanced(ch.preamp, n).current), dsp.linear(Advanced(ch.outputGain, n).current),
          Advanced(ch.volume, n).current)
  }

  // ----------------------------------------------------------------- a whole buffer

  function BlockFrames(frames: nat): (n: nat)
    ensures n <= frames && (frames > 0 ==> n > 0)
  {
    if frames < CONTROL_BLOCK then frames else CONTROL_BLOCK
  }

  lemma CutFits(n: nat, frames: nat, channels: nat)
    requires n <= frames
    ensures 0 <= n * channels <= frames * channels && frames * channels - n * channels == (frames - n) * channels
  {
    assert (frames - n) * channels >= 0;
  }

  datatype Block = Block(frames: nat, samples: seq<real>)

  /** The control blocks of a buffer: 64 frames each, and what is left. */
  function Blocks(xs: seq<real>, frames: nat, channels: nat): seq<Block>
    requires |xs| == frames * channels
    decreases frames
  {
    if frames == 0 then []
    else
      var n := BlockFrames(frames);
      CutFits(n, frames, channels);
      var cut := n * channels;
      [Block(n, xs[..cut])] + Blocks(xs[cut..], frames - n, channels)
  }

  /** One control block as a step of the chain. */
  function BlockStep(dsp: Voicing): (Chain, Block) -> (Chain, seq<real>)
  {
    (ch: Chain, b: Block) =>
      if ch.Ready() then (BlockChain(dsp, ch, b.samples, b.frames), BlockSamples(dsp, ch, b.samples, b.frames))
        else (ch, b.samples)
  }

  /** The chain and the samples after one call for a buffer of `frames` frames. */
  function Processed(dsp: Voicing, ch: Chain, xs: seq<real>, frames: nat): (r: (Chain, seq<real>))
    requires ch.Ready() && |xs| == frames * ch.channels
  {
    Run(BlockStep(dsp), ch, Blocks(xs, frames, ch.channels))
  }

  /** A run of blocks leaves the chain ready and the sample count as it was. */
  lemma {:induction false} RunIsReady(dsp: Voicing, ch: Chain, blocks: seq<Block>)
    requires ch.Ready()
    ensures Run(BlockStep(dsp), ch, blocks).0.Ready() && Run(BlockStep(dsp), ch, blocks).0.channels == ch.channels
    ensures |Run(BlockStep(dsp), ch, blocks).1| == |Samples(blocks)|
    decreases |blocks|
  {
    if blocks != [] {
      RunIsReady(dsp, BlockChain(dsp, ch, blocks[0].samples, blocks[0].frames), blocks[1..]);
    }
  }

  function Samples(blocks: seq<Block>): seq<real> {
    if blocks == [] then [] else blocks[0].samples + Samples(blocks[1..])
  }

  function Frames(blocks: seq<Block>): nat {
    if blocks == [] then 0 else blocks[0].frames + Frames(blocks[1..])
  }

  /** The first block of a buffer and the blocks of the rest. */
  lemma BlocksFirst(xs: seq<real>, frames: nat, channels: nat) returns (n: nat, cut: nat)
    requires |xs| == frames * channels && frames > 0
    ensures n == BlockFrames(frames) && cut == n * channels <= |xs| && |xs[cut..]| == (frames - n) * channels
    ensures Blocks(xs, frames, channels) == [Block(n, xs[..cut])] + Blocks(xs[cut..], frames - n, channels)
  {
    n := BlockFrames(frames);
    CutFits(n, frames, channels);
    cut := n * channels;
  }

  lemma {:induction false} BlocksHoldAll(xs: seq<real>, frames: nat, channels: nat)
    requires |xs| == frames * channels
    ensures Samples(Blocks(xs, frames, channels)) == xs && Frames(Blocks(xs, frames, channels)) == frames
    decreases frames
  {
    if frames > 0 {
      var n, cut := BlocksFirst(xs, frames, channels);
      BlocksHoldAll(xs[cut..], frames - n, channels);
    }
  }

  /** Every control block has 64 frames, but for the last one, which has what is left. */
  lemma {:induction false} ControlBlocksHave64(xs: seq<real>, frames: nat, channels: nat, i: nat)
    requires |xs| == frames * channels && i < |Blocks(xs, frames, channels)|
    ensures
      var blocks := Blocks(xs, frames, channels);
      && 0 < blocks[i].frames <= 64
      && blocks[i].frames == if i + 1 < |blocks| then 64 else frames - 64 * i
    decreases frames
  {
    var n, cut := BlocksFirst(xs, frames, channels);
    if i > 0 { ControlBlocksHave64(xs[cut..], frames - n, channels, i - 1); }
  }

  // -------------------------------------------------- cutting at control blocks does not matter

  lemma {:induction false} BlocksJoin(xs: seq<real>, ys: seq<real>, k: nat, a: nat, b: nat, channels: nat)
    requires a == CONTROL_BLOCK * k && |xs| == a * channels && |ys| == b * channels && |xs + ys| == (a + b) * channels
    ensures Blocks(xs + ys, a + b, channels) == Blocks(xs, a, channels) + Blocks(ys, b, channels)
    decreases k
  {
    if k == 0 {
      assert xs + ys == ys;
    } else {
      var n, cut := BlocksFirst(xs, a, channels);
      var m, cutAll := BlocksFirst(xs + ys, a + b, channels);
      assert m == n == CONTROL_BLOCK && cutAll == cut;
      JoinedSlices(xs, ys, cut);
      BlocksJoin(xs[cut..], ys, k - 1, a - n, b, channels);
      BlocksPrepend(Block(n, xs[..cut]), Blocks(xs[cut..], a - n, channels), Blocks(ys, b, channels));
    }
  }

  lemma BlocksPrepend(first: Block, front: seq<Block>, back: seq<Block>)
    ensures [first] + (front + back) == ([first] + front) + back
  {
  }

  lemma JoinedSlices(xs: seq<real>, ys: seq<real>, cut: nat)
    requires cut <= |xs|
    ensures (xs + ys)[..cut] == xs[..cut] && (xs + ys)[cut..] == xs[cut..] + ys
  {
  }

  /** Two calls in a row: `xs` of `a` frames, then `ys` of `b` frames. */
  function ProcessedInTwo(dsp: Voicing, ch: Chain, xs: seq<real>, ys: seq<real>, a: nat, b: nat): (Chain, seq<real>)
    requires ch.Ready() && |xs| == a * ch.channels && |ys| == b * ch.channels
  {
    RunIsReady(dsp, ch, Blocks(xs, a, ch.channels));
    var first := Processed(dsp, ch, xs, a);
    var second := Processed(dsp, first.0, ys, b);
    (second.0, first.1 + second.1)
  }

  /** Processing a buffer in two calls, cut at any multiple of 64 frames, gives the same samples
      and the same chain as processing it in one. */
  lemma CutsAtBlocksAreIrrelevant(dsp: Voicing, ch: Chain, xs: seq<real>, ys: seq<real>, a: nat, b: nat, k: nat)
    requires ch.Ready() && |xs| == a * ch.channels && |ys| == b * ch.channels
    requires a == CONTROL_BLOCK * k
    ensures |xs + ys| == (a + b) * ch.channels
    ensures ProcessedInTwo(dsp, ch, xs, ys, a, b) == Processed(dsp, ch, xs + ys, a + b)
  {
    IntLemmas.Distributes(a, b, ch.channels);
    var front, back := Blocks(xs, a, ch.channels), Blocks(ys, b, ch.channels);
    BlocksJoin(xs, ys, k, a, b, ch.channels);
    RunIsReady(dsp, ch, front);
    RunSplits(BlockStep(dsp), ch, front, back);
  }

  // ------------------------------------------------------------------------ the clamp

  predicate Clamped(ys: seq<real>) {
    forall i :: 0 <= i < |ys| ==> -0.995 <= ys[i] <= 0.995
  }

  /** No sample leaves the chain outside the ceiling. */
  lemma {:induction false} OutputIsClamped(dsp: Voicing, ch: Chain, blocks: seq<Block>)
    requires ch.Ready()
    ensures Clamped(Run(BlockStep(dsp), ch, blocks).1)
    decreases |blocks|
  {
    if blocks != [] {
      var b := blocks[0];
      OutputIsClamped(dsp, BlockChain(dsp, ch, b.samples, b.frames), blocks[1..]);
      assert Clamped(BlockSamples(dsp, ch, b.samples, b.frames));
    }
  }

  // ---------------------------------------------------------------------- the bypass

  lemma BlendAtZero(dry: real, wetSample: real)
    ensures Blend(dry, wetSample, 0.0) == dry
  {
  }

  lemma BlendOfEqual(x: real, wet: real)
    ensures Blend(x, x, wet) == x
  {
    assert x * (1.0 - wet) == x - x * wet;
  }

  lemma AmplifiedByOne(x: real)
    ensures Amplified(x, 1.0, 1.0) == x
  {
  }

  function AtVolume(xs: seq<real>, volume: real): (ys: seq<real>)
    ensures |ys| == |xs|
  {
    seq(|xs|, i requires 0 <= i < |xs| => Scaled(xs[i], volume))
  }

  function AtReached(volume: Ramp): (Block, nat) -> seq<real> {
    (b: Block, now: nat) => AtVolume(b.samples, Advanced(volume, now).current)
  }

  function Weight(): Block -> nat { (b: Block) => b.frames }

  /** Every block at the volume its ramp has reached `before` frames and the block's own later. */
  function VolumeOnly(volume: Ramp, before: nat, blocks: seq<Block>): seq<real> {
    Outputs(AtReached(volume), Weight(), before, blocks)
  }

  lemma BlockBypass(dsp: Voicing, ch: Chain, xs: seq<real>, n: nat)
    requires ch.Ready() && ch.wet == Still(0.0)
    ensures BlockSamples(dsp, ch, xs, n) == AtVolume(xs, Advanced(ch.volume, n).current)
  {
    MixedDry(xs, Passed(RefreshedUnits(dsp, ch, n), ch.active, xs, ch.channels),
             dsp.linear(Advanced(ch.preamp, n).current), dsp.linear(Advanced(ch.outputGain, n).current),
             Advanced(ch.volume, n).current);
  }

  lemma MixedDry(dry: seq<real>, processed: seq<real>, preamp: real, outputGain: real, volume: real)
    requires |processed| == |dry|
    ensures Mixed(dry, processed, 0.0, preamp, outputGain, volume) == AtVolume(dry, volume)
  {
    forall i | 0 <= i < |dry|
      ensures MixedSample(dry[i], processed[i], 0.0, preamp, outputGain, volume) == Scaled(dry[i], volume)
    {
      BlendAtZero(dry[i], Amplified(processed[i], preamp, outputGain));
    }
  }

  /** The wet mix is settled at 0 and the volume has moved for `n` frames. */
  predicate Bypassed(ch: Chain, volume: Ramp, n: nat) {
    ch.Ready() && ch.wet == Still(0.0) && ch.volume == Advanced(volume, n)
  }

  lemma BypassStep(dsp: Voicing, ch: Chain, volume: Ramp, n: nat, b: Block)
    requires Bypassed(ch, volume, n)
    ensures Bypassed(BlockStep(dsp)(ch, b).0, volume, n + Weight()(b))
    ensures BlockStep(dsp)(ch, b).1 == AtReached(volume)(b, n + Weight()(b))
  {
    BlockBypass(dsp, ch, b.samples, b.frames);
    AdvancesCompose(volume, n, b.frames);
  }

  /** With the wet mix settled at 0, every sample is its input times the volume, clamped, whatever
      the sections hold. */
  lemma {:induction false} BypassIsVolume(dsp: Voicing, ch: Chain, volume: Ramp, before: nat, blocks: seq<Block>)
    requires Bypassed(ch, volume, before)
    ensures Run(BlockStep(dsp), ch, blocks).1 == VolumeOnly(volume, before, blocks)
    decreases |blocks|
  {
    if blocks != [] {
      BypassStep(dsp, ch, volume, before, blocks[0]);
      BypassIsVolume(dsp, BlockStep(dsp)(ch, blocks[0]).0, volume, before + Weight()(blocks[0]), blocks[1..]);
      OutputsFirst(BlockStep(dsp), AtReached(volume), Weight(), ch, before, blocks);
    }
  }

  /** A switched-off chain whose volume has settled only scales and clamps. */
  lemma SettledBypass(dsp: Voicing, ch: Chain, xs: seq<real>, frames: nat)
    requires ch.Ready() && |xs| == frames * ch.channels
    requires ch.wet == Still(0.0) && ch.volume.remaining == 0
    ensures Processed(dsp, ch, xs, frames).1 == AtVolume(xs, ch.volume.current)
  {
    var blocks := Blocks(xs, frames, ch.channels);
    BypassIsVolume(dsp, ch, ch.volume, 0, blocks);
    SettledVolume(ch.volume, 0, blocks);
    BlocksHoldAll(xs, frames, ch.channels);
  }

  lemma VolumeOfJoin(xs: seq<real>, ys: seq<real>, volume: real)
    ensures AtVolume(xs + ys, volume) == AtVolume(xs, volume) + AtVolume(ys, volume)
  {
    forall i | 0 <= i < |xs + ys|
      ensures AtVolume(xs + ys, volume)[i] == (AtVolume(xs, volume) + AtVolume(ys, volume))[i] {
      var x := (xs + ys)[i];
      assert x == if i < |xs| then xs[i] else ys[i - |xs|];
      assert AtVolume(xs + ys, volume)[i] == Scaled(x, volume);
      if i >= |xs| {
        assert (AtVolume(xs, volume) + AtVolume(ys, volume))[i] == AtVolume(ys, volume)[i - |xs|] == Scaled(x, volume);
      }
    }
  }

  lemma {:induction false} SettledVolume(volume: Ramp, before: nat, blocks: seq<Block>)
    requires volume.remaining == 0
    ensures VolumeOnly(volume, before, blocks) == AtVolume(Samples(blocks), volume.current)
    decreases |blocks|
  {
    if blocks != [] {
      SettledVolume(volume, before + blocks[0].frames, blocks[1..]);
      VolumeOfJoin(blocks[0].samples, Samples(blocks[1..]), volume.current);
    }
  }

  // --------------------------------------------------------------------------- flat

  /** Bands at 0 dB are flat, and 0 dB is no gain. */
  ghost predicate FlatAtZero(dsp: Voicing) {
    (forall rate, frequency, q :: FlatAt(dsp, rate, frequency, q)) && dsp.linear(0.0) == 1.0
  }

  predicate FlatAt(dsp: Voicing, rate: real, frequency: real, q: real) { IsFlat(dsp.design(rate, frequency, q, 0.0)) }

  lemma PeakingIsFlatAtZero(m: Maths)
    requires m.Lawful()
    ensures FlatAtZero(PeakingVoicing(m))
  {
    forall rate, frequency, q ensures FlatAt(PeakingVoicing(m), rate, frequency, q) {
      ZeroGainIsFlat(m, rate, frequency, q);
    }
    PowerOfZero(m);
    assert 0.0 / 20.0 == 0.0;
  }

  /** Every band in use rests at 0 dB with silent delay lines. */
  ghost predicate FlatUnits(units: seq<Unit>, active: nat, channels: nat) {
    forall b :: 0 <= b < |units| && b < active ==>
      units[b].gainRamp == Still(0.0) && units[b].filter == Silent(units[b].filter.c, channels)
  }

  /** Nothing in the chain is set to change the level, whether it is switched on, off or between. */
  ghost predicate FlatChain(ch: Chain) {
    && FlatUnits(ch.units, ch.active, ch.channels)
    && ch.preamp == Still(0.0) && ch.outputGain == Still(0.0)
  }

  lemma {:induction false} FlatUnitsPass(units: seq<Unit>, k: nat, xs: seq<real>, channels: nat)
    requires AllSuit(units, channels) && k <= |units| && channels > 0
    requires forall b :: 0 <= b < k ==>
             IsFlat(units[b].filter.c) && units[b].filter == Silent(units[b].filter.c, channels)
    ensures Passed(units, k, xs, channels) == xs && PassedUnits(units, k, xs, channels) == units
  {
    if k > 0 {
      FlatUnitsPass(units, k - 1, xs, channels);
      var u := units[k - 1];
      assert IsFlat(u.filter.c) && u.filter == Silent(u.filter.c, channels);
      FlatSectionIsIdentity(u.filter.c, xs, channels);
      assert FedUnit(u, xs, channels) == u && Response(u.filter, xs) == xs;
    }
  }

  lemma FlatBlock(dsp: Voicing, ch: Chain, xs: seq<real>, n: nat)
    requires FlatAtZero(dsp) && ch.Ready() && FlatChain(ch)
    ensures FlatChain(BlockChain(dsp, ch, xs, n))
    ensures BlockSamples(dsp, ch, xs, n) == AtVolume(xs, Advanced(ch.volume, n).current)
  {
    var units := RefreshedUnits(dsp, ch, n);
    forall b | 0 <= b < ch.active
      ensures units[b].gainRamp == Still(0.0) && IsFlat(units[b].filter.c)
              && units[b].filter == Silent(units[b].filter.c, ch.channels)
    {
      assert FlatAt(dsp, ch.rate, units[b].currentFrequency, units[b].currentQ);
    }
    FlatUnitsPass(units, ch.active, xs, ch.channels);
    MixedFlat(xs, Advanced(ch.wet, n).current, Advanced(ch.volume, n).current);
  }

  lemma MixedFlat(xs: seq<real>, wet: real, volume: real)
    ensures Mixed(xs, xs, wet, 1.0, 1.0, volume) == AtVolume(xs, volume)
  {
    forall i | 0 <= i < |xs| ensures MixedSample(xs[i], xs[i], wet, 1.0, 1.0, volume) == Scaled(xs[i], volume) {
      AmplifiedByOne(xs[i]);
      BlendOfEqual(xs[i], wet);
    }
  }

  /** The chain is flat and the volume has moved for `n` frames. */
  ghost predicate FlatAfter(ch: Chain, volume: Ramp, n: nat) {
    ch.Ready() && FlatChain(ch) && ch.volume == Advanced(volume, n)
  }

  lemma FlatMoves(dsp: Voicing, ch: Chain, volume: Ramp, n: nat, xs: seq<real>, frames: nat)
    requires FlatAtZero(dsp) && FlatAfter(ch, volume, n)
    ensures FlatAfter(BlockChain(dsp, ch, xs, frames), volume, n + frames)
    ensures BlockSamples(dsp, ch, xs, frames) == AtVolume(xs, Advanced(volume, n + frames).current)
  {
    FlatBlock(dsp, ch, xs, frames);
    AdvancesCompose(volume, n, frames);
  }

  lemma FlatStep(dsp: Voicing, ch: Chain, volume: Ramp, n: nat, b: Block)
    requires FlatAtZero(dsp) && FlatAfter(ch, volume, n)
    ensures FlatAfter(BlockStep(dsp)(ch, b).0, volume, n + Weight()(b))
  {
    FlatMoves(dsp, ch, volume, n, b.samples, b.frames);
  }

  lemma FlatStepSamples(dsp: Voicing, ch: Chain, volume: Ramp, n: nat, b: Block)
    requires FlatAtZero(dsp) && FlatAfter(ch, volume, n)
    ensures BlockStep(dsp)(ch, b).1 == AtReached(volume)(b, n + Weight()(b))
  {
    FlatMoves(dsp, ch, volume, n, b.samples, b.frames);
  }

  lemma {:induction false} FlatRun(dsp: Voicing, ch: Chain, volume: Ramp, before: nat, blocks: seq<Block>)
    requires FlatAtZero(dsp) && FlatAfter(ch, volume, before)
    ensures Run(BlockStep(dsp), ch, blocks).1 == VolumeOnly(volume, before, blocks)
    decreases |blocks|
  {
    if blocks != [] {
      FlatStep(dsp, ch, volume, before, blocks[0]);
      FlatStepSamples(dsp, ch, volume, before, blocks[0]);
      FlatRun(dsp, BlockStep(dsp)(ch, blocks[0]).0, volume, before + Weight()(blocks[0]), blocks[1..]);
      OutputsFirst(BlockStep(dsp), AtReached(volume), Weight(), ch, before, blocks);
    }
  }

  /** A flat equalizer is transparent at any wet mix, on the way in, out or settled: with every
      band at 0 dB and silent, no preamp and no output gain, every sample is its input times the
      volume its block has reached, clamped. */
  lemma FlatIsTransparent(m: Maths, ch: Chain, volume: Ramp, before: nat, blocks: seq<Block>)
    requires m.Lawful() && FlatAfter(ch, volume, before)
    ensures Run(BlockStep(PeakingVoicing(m)), ch, blocks).1 == VolumeOnly(volume, before, blocks)
  {
    PeakingIsFlatAtZero(m);
    FlatRun(PeakingVoicing(m), ch, volume, before, blocks);
  }

  // ----------------------------------------------------------------------- settling

  /** What `n` frames do to an active band, apart from its delay lines. */
  predicate UnitMoves(dsp: Voicing, rate: real, u: Unit, v: Unit, n: nat)
  {
    && v.gainRamp == Advanced(u.gainRamp, n) && v.frequencyRamp == Advanced(u.frequencyRamp, n)
    && v.currentGain == v.gainRamp.current && v.currentFrequency == v.frequencyRamp.current
    && v.filter.c == dsp.design(rate, v.currentFrequency, v.currentQ, v.currentGain)
    && (v.targetGain, v.targetFrequency, v.currentQ, v.targetQ)
      == (u.targetGain, u.targetFrequency, u.currentQ, u.targetQ)
  }

  predicate UnitsMove(dsp: Voicing, ch: Chain, after: Chain, n: nat)
  {
    && |after.units| == |ch.units|
    && forall b :: 0 <= b < |ch.units| && b < ch.active ==> UnitMoves(dsp, ch.rate, ch.units[b], after.units[b], n)
  }

  /** What `n` frames do to the mixing ramps and what they leave alone. */
  predicate MixMoves(ch: Chain, after: Chain, n: nat) {
    && after.wet == Advanced(ch.wet, n) && after.preamp == Advanced(ch.preamp, n)
    && after.outputGain == Advanced(ch.outputGain, n) && after.volume == Advanced(ch.volume, n)
    && (after.rate, after.active, after.enabled, after.headroomDb, after.outputGainDb)
    == (ch.rate, ch.active, ch.enabled, ch.headroomDb, ch.outputGainDb)
  }

  predicate Moves(dsp: Voicing, ch: Chain, after: Chain, n: nat)
  {
    UnitsMove(dsp, ch, after, n) && MixMoves(ch, after, n)
  }

  lemma MovesCompose(dsp: Voicing, a: Chain, b: Chain, c: Chain, n: nat, k: nat)
    requires Moves(dsp, a, b, n) && Moves(dsp, b, c, k)
    ensures Moves(dsp, a, c, n + k)
  {
    AdvancesCompose(a.wet, n, k);
    AdvancesCompose(a.preamp, n, k);
    AdvancesCompose(a.outputGain, n, k);
    AdvancesCompose(a.volume, n, k);
    forall i | 0 <= i < |a.units| && i < a.active ensures UnitMoves(dsp, a.rate, a.units[i], c.units[i], n + k) {
      assert UnitMoves(dsp, a.rate, a.units[i], b.units[i], n) && UnitMoves(dsp, b.rate, b.units[i], c.units[i], k);
      AdvancesCompose(a.units[i].gainRamp, n, k);
      AdvancesCompose(a.units[i].frequencyRamp, n, k);
    }
  }

  lemma BlockMoves(dsp: Voicing, ch: Chain, xs: seq<real>, n: nat)
    requires ch.Ready()
    ensures Moves(dsp, ch, BlockChain(dsp, ch, xs, n), n)
  {
  }

  /** Whatever the samples, a run of blocks moves every smoothed parameter along its ramp by the
      frames of all blocks, and the sections follow the parameters. */
  lemma RunMoves(dsp: Voicing, ch: Chain, blocks: seq<Block>)
    requires ch.Ready() && blocks != []
    ensures Moves(dsp, ch, Run(BlockStep(dsp), ch, blocks).0, Frames(blocks))
  {
    var relates := (a: Chain, b: Chain, n: nat) => a.Ready() ==> b.Ready() && Moves(dsp, a, b, n);
    forall a: Chain, b: Chain, c: Chain, n: nat, k: nat | relates(a, b, n) && relates(b, c, k)
      ensures relates(a, c, n + k) {
      if a.Ready() { MovesCompose(dsp, a, b, c, n, k); }
    }
    forall a: Chain, b: Block ensures relates(a, BlockStep(dsp)(a, b).0, b.frames) {
      if a.Ready() { BlockMoves(dsp, a, b.samples, b.frames); }
    }
    RunRelates(BlockStep(dsp), Weight(), relates, ch, blocks);
    FramesAreTotal(Weight(), blocks);
  }

  lemma {:induction false} FramesAreTotal(weight: Block -> nat, blocks: seq<Block>)
    requires forall b :: weight(b) == b.frames
    ensures Total(weight, blocks) == Frames(blocks)
  {
    if blocks != [] { FramesAreTotal(weight, blocks[1..]); }
  }

  /** Every ramp of the chain is done within `n` frames. */
  predicate DoneWithin(ch: Chain, n: nat) {
    && ch.wet.remaining <= n && ch.preamp.remaining <= n && ch.outputGain.remaining <= n && ch.volume.remaining <= n
    && forall b :: 0 <= b < |ch.units| && b < ch.active ==>
      ch.units[b].gainRamp.remaining <= n && ch.units[b].frequencyRamp.remaining <= n
  }

  /** A band rests where `u` was headed, and its section is the one that calls for. */
  predicate OnTarget(dsp: Voicing, rate: real, u: Unit, v: Unit)
  {
    && v.gainRamp == Still(u.targetGain) && v.frequencyRamp == Still(u.targetFrequency)
    && v.currentGain == v.targetGain == u.targetGain && v.currentFrequency == v.targetFrequency == u.targetFrequency
    && v.currentQ == v.targetQ == u.targetQ
    && v.filter.c == dsp.design(rate, u.targetFrequency, u.targetQ, u.targetGain)
  }

  /** The chain rests where `ch` was headed. */
  predicate Settled(dsp: Voicing, ch: Chain, after: Chain)
  {
    && after.wet == Still(WetTarget(ch.enabled)) && after.preamp == Still(ch.headroomDb)
    && after.outputGain == Still(ch.outputGainDb) && after.volume == Still(ch.volume.target)
    && (after.rate, after.active, after.enabled, after.headroomDb, after.outputGainDb)
    == (ch.rate, ch.active, ch.enabled, ch.headroomDb, ch.outputGainDb)
    && |after.units| == |ch.units|
    && forall b :: 0 <= b < |ch.units| && b < ch.active ==> OnTarget(dsp, ch.rate, ch.units[b], after.units[b])
  }

  /** After as many frames as the longest ramp, in blocks of any sizes, the chain rests exactly
      where it was last told to go. */
  lemma BlocksSettle(dsp: Voicing, ch: Chain, blocks: seq<Block>)
    requires ch.Ready() && blocks != [] && DoneWithin(ch, Frames(blocks))
    ensures Settled(dsp, ch, Run(BlockStep(dsp), ch, blocks).0)
  {
    RunMoves(dsp, ch, blocks);
    MovesSettle(dsp, ch, Run(BlockStep(dsp), ch, blocks).0, Frames(blocks));
  }

  lemma MovesSettle(dsp: Voicing, ch: Chain, after: Chain, n: nat)
    requires ch.Ready() && Moves(dsp, ch, after, n) && DoneWithin(ch, n)
    ensures Settled(dsp, ch, after)
  {
    forall b | 0 <= b < |ch.units| && b < ch.active ensures OnTarget(dsp, ch.rate, ch.units[b], after.units[b]) {
      assert UnitMoves(dsp, ch.rate, ch.units[b], after.units[b], n);
      assert ch.units[b].Tuned();
    }
  }
}
