/** Any sequence of calls of the equalizer chain, and what a chain at rest makes of it. */
module EqualizerSettled {
  import opened BiquadFilter
  import opened Lanes
  import opened BlockRuns
  import opened EqualizerChain
  import opened ParameterSmoother

  // ------------------------------------------------------------------------- calls

  predicate Fits(b: Block, channels: nat) { |b.samples| == b.frames * channels }

  predicate AllFit(blocks: seq<Block>, channels: nat) {
    forall i :: 0 <= i < |blocks| ==> Fits(blocks[i], channels)
  }

  function CallStep(dsp: Voicing): (Chain, Block) -> (Chain, seq<real>)
  {
    (ch: Chain, b: Block) =>
      if ch.Ready() && Fits(b, ch.channels) then Processed(dsp, ch, b.samples, b.frames) else (ch, b.samples)
  }

  /** The chain and the samples after any number of calls, each with its own buffer. */
  function ProcessedCalls(dsp: Voicing, ch: Chain, calls: seq<Block>): (Chain, seq<real>) {
    Run(CallStep(dsp), ch, calls)
  }

  /** The control blocks of all calls in a row. */
  function ControlBlocks(calls: seq<Block>, channels: nat): seq<Block>
    requires AllFit(calls, channels)
  {
    if calls == [] then []
    else
      assert Fits(calls[0], channels);
      Blocks(calls[0].samples, calls[0].frames, channels) + ControlBlocks(calls[1..], channels)
  }

  lemma {:induction false} BlocksFit(xs: seq<real>, frames: nat, channels: nat)
    requires |xs| == frames * channels
    ensures AllFit(Blocks(xs, frames, channels), channels)
    decreases frames
  {
    if frames > 0 {
      var n := BlockFrames(frames);
      CutFits(n, frames, channels);
      BlocksFit(xs[n * channels..], frames - n, channels);
    }
  }

  lemma {:induction false} BlocksAppend(front: seq<Block>, back: seq<Block>)
    ensures Samples(front + back) == Samples(front) + Samples(back)
            && Frames(front + back) == Frames(front) + Frames(back)
  {
    if front == [] {
      assert front + back == back;
    } else {
      assert (front + back)[1..] == front[1..] + back;
      BlocksAppend(front[1..], back);
    }
  }

  lemma {:induction false} ControlBlocksHoldAll(calls: seq<Block>, channels: nat)
    requires AllFit(calls, channels)
    ensures AllFit(ControlBlocks(calls, channels), channels)
    ensures Samples(ControlBlocks(calls, channels)) == Samples(calls)
            && Frames(ControlBlocks(calls, channels)) == Frames(calls)
  {
    if calls != [] {
      assert Fits(calls[0], channels);
      var front := Blocks(calls[0].samples, calls[0].frames, channels);
      BlocksFit(calls[0].samples, calls[0].frames, channels);
      BlocksHoldAll(calls[0].samples, calls[0].frames, channels);
      ControlBlocksHoldAll(calls[1..], channels);
      BlocksAppend(front, ControlBlocks(calls[1..], channels));
    }
  }

  /** Any calls in a row are one run over the control blocks of all of them. */
  lemma {:induction false} CallsAreBlocks(dsp: Voicing, ch: Chain, calls: seq<Block>)
    requires ch.Ready() && AllFit(calls, ch.channels)
    ensures ProcessedCalls(dsp, ch, calls) == Run(BlockStep(dsp), ch, ControlBlocks(calls, ch.channels))
    decreases |calls|
  {
    if calls != [] {
      assert Fits(calls[0], ch.channels);
      var front := Blocks(calls[0].samples, calls[0].frames, ch.channels);
      RunIsReady(dsp, ch, front);
      var next := Run(BlockStep(dsp), ch, front).0;
      CallsAreBlocks(dsp, next, calls[1..]);
      RunSplits(BlockStep(dsp), ch, front, ControlBlocks(calls[1..], ch.channels));
    }
  }

  /** Once the frames of any calls add up to the longest ramp, the chain rests exactly where it was
      last told to go. */
  lemma ChainSettles(dsp: Voicing, ch: Chain, calls: seq<Block>)
    requires ch.Ready() && AllFit(calls, ch.channels) && Frames(calls) > 0 && DoneWithin(ch, Frames(calls))
    ensures Settled(dsp, ch, ProcessedCalls(dsp, ch, calls).0)
  {
    CallsAreBlocks(dsp, ch, calls);
    ControlBlocksHoldAll(calls, ch.channels);
    BlocksSettle(dsp, ch, ControlBlocks(calls, ch.channels));
  }

  lemma CallsAreReady(dsp: Voicing, ch: Chain, calls: seq<Block>)
    requires ch.Ready() && AllFit(calls, ch.channels)
    ensures ProcessedCalls(dsp, ch, calls).0.Ready() && ProcessedCalls(dsp, ch, calls).0.channels == ch.channels
  {
    CallsAreBlocks(dsp, ch, calls);
    RunIsReady(dsp, ch, ControlBlocks(calls, ch.channels));
  }

  // -------------------------------------------------------- a cascade of fixed sections

  /** The sections that a block has passed, one by one. */
  lemma {:induction false} PassedUnitAt(units: seq<Unit>, k: nat, b: nat, xs: seq<real>, channels: nat)
    requires AllSuit(units, channels) && b < |units| && k <= |units|
    ensures PassedUnits(units, k, xs, channels)[b]
         == if b < k then FedUnit(units[b], Passed(units, b, xs, channels), channels) else units[b]
  {
    if k > 0 && b != k - 1 { PassedUnitAt(units, k - 1, b, xs, channels); }
  }

  lemma WholeFrames(frames: nat, channels: nat)
    requires channels > 0
    ensures (frames * channels) % channels == 0
  {
    SpanIsProduct(frames, channels);
    SpanIsWhole(frames, channels);
    LaneIsRemainder(Span(frames, channels), channels);
  }

  /** `later` is `units` after `xs` has passed the first `k` of them. */
  predicate HavePassed(units: seq<Unit>, later: seq<Unit>, k: nat, xs: seq<real>, channels: nat)
    requires AllSuit(units, channels)
  {
    && k <= |units| == |later|
    && forall b :: 0 <= b < k ==> later[b] == FedUnit(units[b], Passed(units, b, xs, channels), channels)
  }

  lemma UnitsHavePassed(units: seq<Unit>, m: nat, xs: seq<real>, channels: nat)
    requires AllSuit(units, channels) && m <= |units|
    ensures HavePassed(units, PassedUnits(units, m, xs, channels), m, xs, channels)
  {
    forall b | 0 <= b < m
      ensures PassedUnits(units, m, xs, channels)[b] == FedUnit(units[b], Passed(units, b, xs, channels), channels)
    {
      PassedUnitAt(units, m, b, xs, channels);
    }
  }

  /** Sections in a row do not see where a stream is cut between frames. */
  lemma {:induction false} PassedComposes(units: seq<Unit>, later: seq<Unit>, k: nat, xs: seq<real>, ys: seq<real>,
                                          channels: nat)
    requires AllSuit(units, channels) && AllSuit(later, channels) && channels > 0 && |xs| % channels == 0
    requires HavePassed(units, later, k, xs, channels)
    ensures Passed(units, k, xs + ys, channels) == Passed(units, k, xs, channels) + Passed(later, k, ys, channels)
  {
    if k > 0 {
      var b := k - 1;
      PassedComposes(units, later, b, xs, ys, channels);
      assert later[b] == FedUnit(units[b], Passed(units, b, xs, channels), channels);
      OneMoreComposes(units, later, b, xs, ys, channels);
    }
  }

  lemma OneMoreComposes(units: seq<Unit>, later: seq<Unit>, k: nat, xs: seq<real>, ys: seq<real>, channels: nat)
    requires AllSuit(units, channels) && AllSuit(later, channels) && k < |units| == |later| && channels > 0
             && |xs| % channels == 0
    requires later[k] == FedUnit(units[k], Passed(units, k, xs, channels), channels)
    requires Passed(units, k, xs + ys, channels) == Passed(units, k, xs, channels) + Passed(later, k, ys, channels)
    ensures Passed(units, k + 1, xs + ys, channels)
            == Passed(units, k + 1, xs, channels) + Passed(later, k + 1, ys, channels)
  {
    ChunksCompose(units[k].filter, Passed(units, k, xs, channels), Passed(later, k, ys, channels));
  }

  lemma PassedUnitComposes(units: seq<Unit>, b: nat, m: nat, xs: seq<real>, ys: seq<real>, channels: nat)
    requires AllSuit(units, channels) && m <= |units| && b < |units| && channels > 0 && |xs| % channels == 0
    ensures PassedUnits(units, m, xs + ys, channels)[b]
            == PassedUnits(PassedUnits(units, m, xs, channels), m, ys, channels)[b]
  {
    var later := PassedUnits(units, m, xs, channels);
    PassedUnitAt(units, m, b, xs, channels);
    PassedUnitAt(units, m, b, xs + ys, channels);
    PassedUnitAt(later, m, b, ys, channels);
    if b < m {
      UnitsHavePassed(units, m, xs, channels);
      PassedComposes(units, later, b, xs, ys, channels);
      ChunksCompose(units[b].filter, Passed(units, b, xs, channels), Passed(later, b, ys, channels));
    }
  }

  lemma PassedUnitsCompose(units: seq<Unit>, m: nat, xs: seq<real>, ys: seq<real>, channels: nat)
    requires AllSuit(units, channels) && m <= |units| && channels > 0 && |xs| % channels == 0
    ensures PassedUnits(units, m, xs + ys, channels)
            == PassedUnits(PassedUnits(units, m, xs, channels), m, ys, channels)
  {
    forall b | 0 <= b < |units|
      ensures PassedUnits(units, m, xs + ys, channels)[b]
              == PassedUnits(PassedUnits(units, m, xs, channels), m, ys, channels)[b]
    {
      PassedUnitComposes(units, b, m, xs, ys, channels);
    }
  }

  // ------------------------------------------------------------------ a chain at rest

  /** Every ramp of the chain has arrived and every section in use is the one its band calls for. */
  predicate AtRest(dsp: Voicing, ch: Chain) { Settled(dsp, ch, ch) }

  lemma SettledIsAtRest(dsp: Voicing, ch: Chain, after: Chain)
    requires Settled(dsp, ch, after)
    ensures AtRest(dsp, after)
  {
    forall b | 0 <= b < |after.units| && b < after.active
      ensures OnTarget(dsp, after.rate, after.units[b], after.units[b]) {
      assert OnTarget(dsp, ch.rate, ch.units[b], after.units[b]);
    }
  }

  lemma RefreshingChangesNothing(dsp: Voicing, ch: Chain, n: nat)
    requires ch.Ready() && AtRest(dsp, ch)
    ensures RefreshedUnits(dsp, ch, n) == ch.units
  {
    forall b | 0 <= b < |ch.units| ensures RefreshedUnits(dsp, ch, n)[b] == ch.units[b] {
      if b < ch.active { assert OnTarget(dsp, ch.rate, ch.units[b], ch.units[b]); }
    }
  }

  /** What a chain at rest makes of samples: its sections in a row, mixed and scaled by constants. */
  function Played(dsp: Voicing, ch: Chain, xs: seq<real>): (ys: seq<real>)
    requires ch.Ready()
    ensures |ys| == |xs|
  {
    Mixed(xs, Passed(ch.units, ch.active, xs, ch.channels), ch.wet.current, dsp.linear(ch.preamp.current),
          dsp.linear(ch.outputGain.current), ch.volume.current)
  }

  /** The chain after that: only its delay lines have moved. */
  function AfterPlaying(ch: Chain, xs: seq<real>): (after: Chain)
    requires ch.Ready()
    ensures after.Ready() && after.channels == ch.channels
  {
    ch.(units := PassedUnits(ch.units, ch.active, xs, ch.channels))
  }

  lemma BlockAtRest(dsp: Voicing, ch: Chain, xs: seq<real>, n: nat)
    requires ch.Ready() && AtRest(dsp, ch)
    ensures BlockChain(dsp, ch, xs, n) == AfterPlaying(ch, xs) && BlockSamples(dsp, ch, xs, n) == Played(dsp, ch, xs)
    ensures AtRest(dsp, AfterPlaying(ch, xs))
  {
    RefreshingChangesNothing(dsp, ch, n);
    var after := AfterPlaying(ch, xs);
    forall b | 0 <= b < |after.units| && b < after.active
      ensures OnTarget(dsp, after.rate, after.units[b], after.units[b]) {
      assert OnTarget(dsp, ch.rate, ch.units[b], ch.units[b]) && SameButDelays(ch.units[b], after.units[b]);
    }
  }

  lemma MixedJoins(xs: seq<real>, ys: seq<real>, ps: seq<real>, qs: seq<real>, wet: real, preamp: real,
                   outputGain: real, volume: real)
    requires |ps| == |xs| && |qs| == |ys|
    ensures Mixed(xs + ys, ps + qs, wet, preamp, outputGain, volume)
         == Mixed(xs, ps, wet, preamp, outputGain, volume) + Mixed(ys, qs, wet, preamp, outputGain, volume)
  {
  }

  lemma PlayedComposes(dsp: Voicing, ch: Chain, xs: seq<real>, ys: seq<real>)
    requires ch.Ready() && |xs| % ch.channels == 0
    ensures Played(dsp, ch, xs + ys) == Played(dsp, ch, xs) + Played(dsp, AfterPlaying(ch, xs), ys)
    ensures AfterPlaying(ch, xs + ys) == AfterPlaying(AfterPlaying(ch, xs), ys)
  {
    var later := PassedUnits(ch.units, ch.active, xs, ch.channels);
    UnitsHavePassed(ch.units, ch.active, xs, ch.channels);
    PassedComposes(ch.units, later, ch.active, xs, ys, ch.channels);
    PassedUnitsCompose(ch.units, ch.active, xs, ys, ch.channels);
    MixedJoins(xs, ys, Passed(ch.units, ch.active, xs, ch.channels), Passed(later, ch.active, ys, ch.channels),
               ch.wet.current, dsp.linear(ch.preamp.current), dsp.linear(ch.outputGain.current), ch.volume.current);
  }

  /** A chain at rest is a fixed filter of the whole stream: however it is cut into blocks of whole
      frames, the output is its sections in a row, mixed at constant levels. */
  lemma {:induction false} RunAtRest(dsp: Voicing, ch: Chain, blocks: seq<Block>)
    requires ch.Ready() && AtRest(dsp, ch) && AllFit(blocks, ch.channels)
    ensures Run(BlockStep(dsp), ch, blocks) == (AfterPlaying(ch, Samples(blocks)), Played(dsp, ch, Samples(blocks)))
    decreases |blocks|
  {
    if blocks == [] {
      NothingPlayed(dsp, ch);
    } else {
      var b := blocks[0];
      assert Fits(b, ch.channels);
      WholeFrames(b.frames, ch.channels);
      BlockAtRest(dsp, ch, b.samples, b.frames);
      RunAtRest(dsp, AfterPlaying(ch, b.samples), blocks[1..]);
      PlayedComposes(dsp, ch, b.samples, Samples(blocks[1..]));
    }
  }

  lemma NothingPlayed(dsp: Voicing, ch: Chain)
    requires ch.Ready()
    ensures Played(dsp, ch, []) == [] && AfterPlaying(ch, []) == ch
  {
    forall b | 0 <= b < |ch.units| ensures PassedUnits(ch.units, ch.active, [], ch.channels)[b] == ch.units[b] {
      PassedUnitAt(ch.units, ch.active, b, [], ch.channels);
      assert Passed(ch.units, b, [], ch.channels) == [] || b >= ch.active;
    }
  }

  /** The same for calls. */
  lemma CallsAtRest(dsp: Voicing, ch: Chain, calls: seq<Block>)
    requires ch.Ready() && AtRest(dsp, ch) && AllFit(calls, ch.channels)
    ensures ProcessedCalls(dsp, ch, calls) == (AfterPlaying(ch, Samples(calls)), Played(dsp, ch, Samples(calls)))
  {
    CallsAreBlocks(dsp, ch, calls);
    ControlBlocksHoldAll(calls, ch.channels);
    RunAtRest(dsp, ch, ControlBlocks(calls, ch.channels));
  }

  // ------------------------------------------------------------- every sample, written out

  /** `out` is the sample the mix should give: the processed sample at preamp and output gain, blended
      with the dry one and brought to the volume, and held between -0.995 and 0.995. */
  predicate Sounds(out: real, dry: real, processed: real, wet: real, preamp: real, outputGain: real, volume: real) {
    Held(out, Blended(dry, processed, wet, preamp, outputGain, volume))
  }

  function Blended(dry: real, processed: real, wet: real, preamp: real, outputGain: real, volume: real): real {
    (dry * (1.0 - wet) + processed * preamp * outputGain * wet) * volume
  }

  /** The processed sample alone, at preamp, output gain and volume. */
  function Leveled(processed: real, preamp: real, outputGain: real, volume: real): real {
    processed * preamp * outputGain * volume
  }

  predicate Held(out: real, y: real) { out == if y < -0.995 then -0.995 else if y > 0.995 then 0.995 else y }

  lemma MixSounds(xs: seq<real>, ps: seq<real>, wet: real, preamp: real, outputGain: real, volume: real, i: nat)
    requires |ps| == |xs| && i < |xs|
    ensures Sounds(Mixed(xs, ps, wet, preamp, outputGain, volume)[i], xs[i], ps[i], wet, preamp, outputGain, volume)
  {
    MixedSampleIs(xs[i], ps[i], wet, preamp, outputGain, volume);
  }

  lemma MixedSampleIs(x: real, p: real, wet: real, preamp: real, outputGain: real, volume: real)
    ensures Sounds(MixedSample(x, p, wet, preamp, outputGain, volume), x, p, wet, preamp, outputGain, volume)
  {
    BlendIs(x, p, wet, preamp, outputGain);
    ScaledIsHeld(Blend(x, Amplified(p, preamp, outputGain), wet), x * (1.0 - wet) + p * preamp * outputGain * wet,
                 volume);
  }

  lemma BlendIs(x: real, p: real, wet: real, preamp: real, outputGain: real)
    ensures Blend(x, Amplified(p, preamp, outputGain), wet) == x * (1.0 - wet) + p * preamp * outputGain * wet
  {
  }

  lemma ScaledIsHeld(x: real, y: real, volume: real)
    requires x == y
    ensures Held(Scaled(x, volume), y * volume)
  {
    ScaledHolds(x, volume, x * volume);
  }

  lemma ScaledHolds(x: real, volume: real, u: real)
    requires u == x * volume
    ensures Held(Scaled(x, volume), u)
  {
  }

  /** Every sample that a chain at rest gives, over any calls. */
  lemma SamplesAtRest(dsp: Voicing, ch: Chain, calls: seq<Block>, i: nat)
    requires ch.Ready() && AtRest(dsp, ch) && AllFit(calls, ch.channels) && i < |Samples(calls)|
    ensures
      var xs, ys := Samples(calls), ProcessedCalls(dsp, ch, calls).1;
      && |ys| == |xs|
      && Sounds(ys[i], xs[i], Passed(ch.units, ch.active, xs, ch.channels)[i], if ch.enabled then 1.0 else 0.0,
                dsp.linear(ch.headroomDb), dsp.linear(ch.outputGainDb), ch.volume.target)
  {
    var xs := Samples(calls);
    CallsAtRest(dsp, ch, calls);
    MixSounds(xs, Passed(ch.units, ch.active, xs, ch.channels), ch.wet.current, dsp.linear(ch.preamp.current),
              dsp.linear(ch.outputGain.current), ch.volume.current, i);
  }

  /** The same while ramps are under way: every sample of a control block is mixed at the levels the
      ramps have reached at the block's end. */
  lemma SamplesUnderway(dsp: Voicing, ch: Chain, xs: seq<real>, n: nat, i: nat)
    requires ch.Ready() && i < |xs|
    ensures AllSuit(RefreshedUnits(dsp, ch, n), ch.channels)
    ensures Sounds(BlockSamples(dsp, ch, xs, n)[i], xs[i],
                   Passed(RefreshedUnits(dsp, ch, n), ch.active, xs, ch.channels)[i], Advanced(ch.wet, n).current,
                   dsp.linear(Advanced(ch.preamp, n).current), dsp.linear(Advanced(ch.outputGain, n).current),
                   Advanced(ch.volume, n).current)
  {
    MixSounds(xs, Passed(RefreshedUnits(dsp, ch, n), ch.active, xs, ch.channels), Advanced(ch.wet, n).current,
              dsp.linear(Advanced(ch.preamp, n).current), dsp.linear(Advanced(ch.outputGain, n).current),
              Advanced(ch.volume, n).current, i);
  }

  lemma FullyWetSounds(out: real, dry: real, p: real, preamp: real, outputGain: real, volume: real)
    requires Sounds(out, dry, p, 1.0, preamp, outputGain, volume)
    ensures Held(out, Leveled(p, preamp, outputGain, volume))
  {
  }

  /** A switched-on chain at rest plays no dry signal: over any calls the output is the cascade of
      its sections at the preamp, the output gain and the volume, clamped. */
  lemma FullyWet(dsp: Voicing, ch: Chain, calls: seq<Block>, i: nat)
    requires ch.Ready() && AtRest(dsp, ch) && ch.enabled && AllFit(calls, ch.channels) && i < |Samples(calls)|
    ensures
      var xs, ys := Samples(calls), ProcessedCalls(dsp, ch, calls).1;
      && |ys| == |xs|
      && Held(ys[i], Leveled(Passed(ch.units, ch.active, xs, ch.channels)[i], dsp.linear(ch.headroomDb),
                             dsp.linear(ch.outputGainDb), ch.volume.target))
  {
    var xs := Samples(calls);
    SamplesAtRest(dsp, ch, calls, i);
    FullyWetSounds(ProcessedCalls(dsp, ch, calls).1[i], xs[i], Passed(ch.units, ch.active, xs, ch.channels)[i],
                   dsp.linear(ch.headroomDb), dsp.linear(ch.outputGainDb), ch.volume.target);
  }
}
