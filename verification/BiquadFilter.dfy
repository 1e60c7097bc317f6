/** The in-place interleaved biquad section in transposed direct form II. */
module BiquadFilter {
  import opened Lanes

  datatype Coefficients = Coefficients(b0: real, b1: real, b2: real, a1: real, a2: real)

  const IDENTITY := Coefficients(1.0, 0.0, 0.0, 0.0, 0.0)

  /** The two delay elements of one channel. */
  datatype Delay = Delay(z1: real, z2: real)

  const SILENCE := Delay(0.0, 0.0)

  /** One sample of one channel. */
  function Sample(c: Coefficients, z: Delay, x: real): (Delay, real) {
    var y := c.b0 * x + z.z1;
    (Delay(c.b1 * x - c.a1 * y + z.z2, c.b2 * x - c.a2 * y), y)
  }

  function SectionKernel(c: Coefficients): Kernel<Delay> { (z, x) => Sample(c, z, x) }

  /** A section with its delay lines, one entry per channel. */
  datatype Section = Section(c: Coefficients, z: seq<Delay>) {
    predicate Suits(channels: nat) { channels > 0 && |z| == channels }
  }

  /** The section after a run of interleaved samples. */
  function Fed(f: Section, xs: seq<real>): (g: Section)
    requires f.z != []
    ensures g.c == f.c && |g.z| == |f.z|
  {
    f.(z := After(SectionKernel(f.c), f.z, xs))
  }

  /** What the section makes of a run of interleaved samples. */
  function Response(f: Section, xs: seq<real>): (ys: seq<real>)
    requires f.z != []
    ensures |ys| == |xs|
  {
    Filtered(SectionKernel(f.c), f.z, xs)
  }

  function Silent(c: Coefficients, channels: nat): (f: Section)
    ensures channels > 0 ==> f.Suits(channels)
  {
    Section(c, seq(channels, _ => SILENCE))
  }

  /** A section set to new coefficients; a change of channel count clears the delay lines. */
  function Configured(f: Section, channels: nat, c: Coefficients): (g: Section)
    ensures g.c == c && |g.z| == channels
  {
    if |f.z| == channels then f.(c := c) else Silent(c, channels)
  }

  /** A section with its delay lines cleared. */
  function Cleared(f: Section): (g: Section)
    ensures g.c == f.c && |g.z| == |f.z|
  {
    Silent(f.c, |f.z|)
  }

  // ---------------------------------------------------------------------- the object

  class Biquad {
    var coefficients: Coefficients
    var z1: array<real>
    var z2: array<real>

    ghost predicate Valid()
      reads this
    {
      z1 != z2 && z1.Length == z2.Length
    }

    ghost function Delays(): (z: seq<Delay>)
      requires Valid()
      reads this, z1, z2
      ensures |z| == z1.Length
    {
      seq(z1.Length, i reads this, z1, z2 requires z1.Length == z2.Length && 0 <= i < z1.Length => Delay(z1[i], z2[i]))
    }

    ghost function State(): (f: Section)
      requires Valid()
      reads this, z1, z2
      ensures |f.z| == z1.Length
    {
      Section(coefficients, Delays())
    }

    constructor ()
      ensures Valid() && fresh(z1) && fresh(z2) && State() == Section(IDENTITY, [])
    {
      coefficients := IDENTITY;
      z1 := new real[0];
      z2 := new real[0];
    }

    method Configure(channels: nat, c: Coefficients)
      requires Valid()
      modifies this
      ensures Valid() && (z1 == old(z1) || fresh(z1)) && (z2 == old(z2) || fresh(z2))
      ensures State() == Configured(old(State()), channels, c)
    {
      coefficients := c;
      if z1.Length != channels || z2.Length != channels {
        z1 := new real[channels](_ => 0.0);
        z2 := new real[channels](_ => 0.0);
        assert Delays() == seq(channels, _ => SILENCE);
      } else {
        assert Delays() == old(Delays());
      }
    }

    method SetCoefficients(c: Coefficients)
      requires Valid()
      modifies this`coefficients
      ensures Valid() && State() == old(State()).(c := c)
    {
      coefficients := c;
      assert Delays() == old(Delays());
    }

    method Reset()
      requires Valid()
      modifies z1, z2
      ensures Valid() && State() == Cleared(old(State()))
    {
      forall i | 0 <= i < z1.Length { z1[i] := 0.0; }
      forall i | 0 <= i < z2.Length { z2[i] := 0.0; }
      assert Delays() == seq(z1.Length, _ => SILENCE);
    }

    /** Filters `frames` interleaved frames in place; a section not configured for the channel
        count leaves everything alone. */
    method Process(samples: array<real>, frames: nat, channels: nat)
      requires Valid() && frames * channels <= samples.Length && samples != z1 && samples != z2
      modifies samples, z1, z2
      ensures Valid()
      ensures var n := frames * channels;
              if old(State()).Suits(channels)
              then samples[..] == Response(old(State()), old(samples[..n])) + old(samples[n..])
                   && State() == Fed(old(State()), old(samples[..n]))
              else samples[..] == old(samples[..]) && State() == old(State())
    {
      if channels == 0 || z1.Length != channels || z2.Length != channels {
        assert Delays() == old(Delays());
        return;
      }
      ghost var xs, n := samples[..], frames * channels;
      SpanIsProduct(frames, channels);
      ProcessFrames(samples, frames, channels, n);
      assert xs[..n] + xs[n..] == xs;
    }

    /** The frame loop. */
    method ProcessFrames(samples: array<real>, frames: nat, channels: nat, ghost n: nat)
      requires Valid() && samples != z1 && samples != z2
      requires channels == z1.Length > 0 && n == Span(frames, channels) <= samples.Length
      modifies samples, z1, z2
      ensures Valid()
      ensures Progress(SectionKernel(coefficients), old(Delays()), old(samples[..]), samples[..], Delays(), n)
    {
      ghost var z, xs := Delays(), samples[..];
      var frame := 0;
      for frameIndex := 0 to frames
        invariant frame == Span(frameIndex, channels)
        invariant Progress(SectionKernel(coefficients), z, xs, samples[..], Delays(), frame)
      {
        NextFrame(frameIndex, frames, channels);
        var end := frame + channels;
        ProcessFrame(samples, frame, end, channels, z, xs);
        frame := end;
      }
    }

    /** The channel loop: one frame, with what has been filtered before it. */
    method ProcessFrame(samples: array<real>, frame: nat, end: nat, channels: nat, ghost z: seq<Delay>,
                        ghost xs: seq<real>)
      requires Valid() && samples != z1 && samples != z2
      requires channels == z1.Length == |z| > 0 && end == frame + channels <= samples.Length
               && Lane(frame, channels) == 0
      requires Progress(SectionKernel(coefficients), z, xs, samples[..], Delays(), frame)
      modifies samples, z1, z2
      ensures Valid()
      ensures Progress(SectionKernel(coefficients), z, xs, samples[..], Delays(), end)
    {
      for channel := 0 to channels
        invariant Progress(SectionKernel(coefficients), z, xs, samples[..], Delays(), frame + channel)
      {
        LaneSkipsWhole(frame, channel, channels);
        ProgressStep(SectionKernel(coefficients), z, xs, samples[..], Delays(), frame + channel);
        ProcessSample(samples, frame + channel, channel);
      }
    }

    /** One sample of one channel: the body of the channel loop. */
    method ProcessSample(samples: array<real>, index: nat, channel: nat)
      requires Valid() && samples != z1 && samples != z2
      requires channel < z1.Length && index < samples.Length
      modifies samples, z1, z2
      ensures Valid()
      ensures var fed := SectionKernel(coefficients)(old(Delays())[channel], old(samples[index]));
              samples[..] == old(samples[..])[index := fed.1] && Delays() == old(Delays())[channel := fed.0]
    {
      var input := samples[index];
      ghost var fed := Sample(coefficients, Delay(z1[channel], z2[channel]), input);
      assert SectionKernel(coefficients)(Delays()[channel], input) == fed;
      var output := coefficients.b0 * input + z1[channel];
      assert output == fed.1;
      z1[channel] := coefficients.b1 * input - coefficients.a1 * output + z2[channel];
      assert z1[channel] == fed.0.z1;
      z2[channel] := coefficients.b2 * input - coefficients.a2 * output;
      assert z2[channel] == fed.0.z2;
      samples[index] := output;
      assert Delays() == old(Delays())[channel := fed.0];
    }
  }

  // ------------------------------------------------------------ chunks and channels

  /** Filtering a buffer in two pieces, cut between frames, gives the same samples and the
      same delay lines as filtering it whole. */
  lemma ChunksCompose(f: Section, xs: seq<real>, ys: seq<real>)
    requires f.z != [] && |xs| % |f.z| == 0
    ensures Fed(f, xs + ys) == Fed(Fed(f, xs), ys)
    ensures Response(f, xs + ys) == Response(f, xs) + Response(Fed(f, xs), ys)
  {
    LaneIsRemainder(|xs|, |f.z|);
    AfterComposes(SectionKernel(f.c), f.z, xs, ys);
    FilteredComposes(SectionKernel(f.c), f.z, xs, ys);
  }

  /** The part of a section that serves one channel. */
  function Alone(f: Section, channel: nat): Section
    requires channel < |f.z|
  {
    Section(f.c, [f.z[channel]])
  }

  /** Channels do not mix: what comes out on a channel is what a one-channel section makes of that
      channel's samples, and so is the state it leaves. */
  lemma ChannelsAreSeparate(f: Section, xs: seq<real>, channel: nat)
    requires channel < |f.z|
    ensures Channel(Response(f, xs), |f.z|, channel) == Response(Alone(f, channel), Channel(xs, |f.z|, channel))
    ensures Alone(Fed(f, xs), channel) == Fed(Alone(f, channel), Channel(xs, |f.z|, channel))
  {
    ChannelsAreIndependent(SectionKernel(f.c), f.z, xs, channel);
  }

  // ------------------------------------------------------------ the difference equation

  /** Sample `k`, or silence before the first. */
  function Tap(xs: seq<real>, k: int): real {
    if 0 <= k < |xs| then xs[k] else 0.0
  }

  /** What a channel's delay elements `z` add to its sample `k`. */
  function Tail(z: Delay, k: int): real {
    if k == 0 then z.z1 else if k == 1 then z.z2 else 0.0
  }

  /** y[k] = b0 x[k] + b1 x[k-1] + b2 x[k-2] - a1 y[k-1] - a2 y[k-2], with what was in the delay
      elements before the first sample. */
  predicate Recurrence(c: Coefficients, z: Delay, xs: seq<real>, ys: seq<real>, k: int) {
    Tap(ys, k) == c.b0 * Tap(xs, k) + c.b1 * Tap(xs, k - 1) + c.b2 * Tap(xs, k - 2)
                  - c.a1 * Tap(ys, k - 1) - c.a2 * Tap(ys, k - 2) + Tail(z, k)
  }

  /** What the delay elements hold after the latest two samples `x0`, `x1` and outputs `y0`, `y1`,
      when the tails of the next two samples are `t0` and `t1`. */
  predicate Holds(c: Coefficients, z: Delay, x0: real, y0: real, x1: real, y1: real, t0: real, t1: real) {
    z.z2 == c.b2 * x0 - c.a2 * y0 + t1 && z.z1 == c.b1 * x0 - c.a1 * y0 + (c.b2 * x1 - c.a2 * y1) + t0
  }

  lemma SampleHolds(c: Coefficients, z: Delay, x: real, x0: real, y0: real, x1: real, y1: real, t0: real, t1: real)
    requires Holds(c, z, x0, y0, x1, y1, t0, t1)
    ensures var r := Sample(c, z, x);
            Holds(c, r.0, x, r.1, x0, y0, t1, 0.0)
              && r.1 == c.b0 * x + c.b1 * x0 + c.b2 * x1 - c.a1 * y0 - c.a2 * y1 + t0
  {
  }

  /** After the run `xs` from `z0`, answered by `ys`. */
  predicate HoldsAfter(c: Coefficients, z0: Delay, z: Delay, xs: seq<real>, ys: seq<real>) {
    Holds(c, z, Tap(xs, |xs| - 1), Tap(ys, |xs| - 1), Tap(xs, |xs| - 2), Tap(ys, |xs| - 2),
          Tail(z0, |xs|), Tail(z0, |xs| + 1))
  }

  lemma {:induction false} DelaysHold(f: Section, xs: seq<real>)
    requires f.Suits(1)
    ensures HoldsAfter(f.c, f.z[0], Fed(f, xs).z[0], xs, Response(f, xs))
    ensures xs != [] ==> Recurrence(f.c, f.z[0], xs, Response(f, xs), |xs| - 1)
    decreases |xs|
  {
    if xs != [] {
      var front, x := xs[..|xs| - 1], xs[|xs| - 1];
      DelaysHold(f, front);
      LaneOfOne(|front|);
      assert xs == front + [x];
      AfterOneMore(SectionKernel(f.c), f.z, front, x);
      FilteredOneMore(SectionKernel(f.c), f.z, front, x);
      HoldsFurther(f.c, f.z[0], Fed(f, front).z[0], front, Response(f, front), x);
    }
  }

  lemma HoldsFurther(c: Coefficients, z0: Delay, z: Delay, xs: seq<real>, ys: seq<real>, x: real)
    requires |ys| == |xs| && HoldsAfter(c, z0, z, xs, ys)
    ensures var r := SectionKernel(c)(z, x);
            HoldsAfter(c, z0, r.0, xs + [x], ys + [r.1]) && Recurrence(c, z0, xs + [x], ys + [r.1], |xs|)
  {
    var r, n := Sample(c, z, x), |xs|;
    SampleHolds(c, z, x, Tap(xs, n - 1), Tap(ys, n - 1), Tap(xs, n - 2), Tap(ys, n - 2), Tail(z0, n), Tail(z0, n + 1));
    TapsExtend(xs, x);
    TapsExtend(ys, r.1);
  }

  lemma TapsExtend(xs: seq<real>, x: real)
    ensures Tap(xs + [x], |xs|) == x
    ensures Tap(xs + [x], |xs| - 1) == Tap(xs, |xs| - 1)
    ensures Tap(xs + [x], |xs| - 2) == Tap(xs, |xs| - 2)
  {
  }

  /** Every channel by itself obeys the section's difference equation, whatever is in its delay
      lines at the start: they reach the first two samples and no further. */
  lemma DifferenceEquation(f: Section, xs: seq<real>, channel: nat, k: nat)
    requires channel < |f.z| && k < |Channel(xs, |f.z|, channel)|
    ensures Recurrence(f.c, f.z[channel], Channel(xs, |f.z|, channel), Channel(Response(f, xs), |f.z|, channel), k)
  {
    var lane, g := Channel(xs, |f.z|, channel), Alone(f, channel);
    ChannelsAreSeparate(f, xs, channel);
    DelaysHold(g, lane[..k + 1]);
    FilteredPrefix(SectionKernel(f.c), g.z, lane, k + 1);
    RecurrenceIsLocal(f.c, f.z[channel], lane, Response(g, lane), k);
  }

  lemma RecurrenceIsLocal(c: Coefficients, z: Delay, xs: seq<real>, ys: seq<real>, k: nat)
    requires k < |xs| == |ys| && Recurrence(c, z, xs[..k + 1], ys[..k + 1], k)
    ensures Recurrence(c, z, xs, ys, k)
  {
    TapsOfPrefix(xs, k);
    TapsOfPrefix(ys, k);
  }

  lemma TapsOfPrefix(xs: seq<real>, k: nat)
    requires k < |xs|
    ensures Tap(xs[..k + 1], k) == Tap(xs, k) && Tap(xs[..k + 1], k - 1) == Tap(xs, k - 1)
            && Tap(xs[..k + 1], k - 2) == Tap(xs, k - 2)
  {
  }

  /** From silence, a section whose numerator equals its denominator passes samples through. */
  lemma {:induction false} FlatSectionIsIdentity(c: Coefficients, xs: seq<real>, channels: nat)
    requires channels > 0 && c.b0 == 1.0 && c.b1 == c.a1 && c.b2 == c.a2
    ensures Response(Silent(c, channels), xs) == xs && Fed(Silent(c, channels), xs) == Silent(c, channels)
    decreases |xs|
  {
    if xs != [] {
      var front, x := xs[..|xs| - 1], xs[|xs| - 1];
      FlatSectionIsIdentity(c, front, channels);
      FlatSample(c, x);
      assert xs == front + [x];
      AfterOneMore(SectionKernel(c), Silent(c, channels).z, front, x);
      FilteredOneMore(SectionKernel(c), Silent(c, channels).z, front, x);
    }
  }

  lemma FlatSample(c: Coefficients, x: real)
    requires c.b0 == 1.0 && c.b1 == c.a1 && c.b2 == c.a2
    ensures SectionKernel(c)(SILENCE, x) == (SILENCE, x)
  {
    assert Sample(c, SILENCE, x).1 == x;
    var d := Sample(c, SILENCE, x).0;
    assert d.z1 == 0.0 && d.z2 == 0.0;
  }
}
