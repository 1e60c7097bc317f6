/** Filters over interleaved samples: one state per channel, fed with that channel's samples. */
module Lanes {
  import opened IntLemmas

  /** What one sample does to the state of its channel, and what comes out. */
  type Kernel<!Z> = (Z, real) -> (Z, real)

  /** The channel that interleaved sample number `k` belongs to: `k` modulo the channel count. */
  function Lane(k: nat, channels: nat): (channel: nat)
    requires channels > 0
    ensures channel < channels
  {
    if k < channels then k else Lane(k - channels, channels)
  }

  /** The channel states after a run of interleaved samples that starts at channel 0. */
  function After<Z>(kernel: Kernel<Z>, z: seq<Z>, xs: seq<real>): (after: seq<Z>)
    requires z != []
    ensures |after| == |z|
  {
    if xs == [] then z
    else
      var front, lane := After(kernel, z, xs[..|xs| - 1]), Lane(|xs| - 1, |z|);
      front[lane := kernel(front[lane], xs[|xs| - 1]).0]
  }

  /** What comes out of a run of interleaved samples. */
  function Filtered<Z>(kernel: Kernel<Z>, z: seq<Z>, xs: seq<real>): (ys: seq<real>)
    requires z != []
    ensures |ys| == |xs|
  {
    if xs == [] then []
    else
      var front := xs[..|xs| - 1];
      Filtered(kernel, z, front) + [kernel(After(kernel, z, front)[Lane(|front|, |z|)], xs[|xs| - 1]).1]
  }

  lemma AfterOneMore<Z>(kernel: Kernel<Z>, z: seq<Z>, xs: seq<real>, x: real)
    requires z != []
    ensures var front, lane := After(kernel, z, xs), Lane(|xs|, |z|);
            After(kernel, z, xs + [x]) == front[lane := kernel(front[lane], x).0]
  {
    assert (xs + [x])[..|xs|] == xs;
  }

  lemma FilteredOneMore<Z>(kernel: Kernel<Z>, z: seq<Z>, xs: seq<real>, x: real)
    requires z != []
    ensures Filtered(kernel, z, xs + [x])
            == Filtered(kernel, z, xs) + [kernel(After(kernel, z, xs)[Lane(|xs|, |z|)], x).1]
  {
    assert (xs + [x])[..|xs|] == xs;
  }

  // ------------------------------------------------------------------------ lanes

  /** A sample's channel is its number modulo the channel count. */
  lemma {:induction false} LaneIsRemainder(k: nat, channels: nat)
    requires channels > 0
    ensures Lane(k, channels) == k % channels
  {
    if k >= channels {
      LaneIsRemainder(k - channels, channels);
      RemainderSkips(k, channels);
    }
  }

  lemma {:induction false} LaneSkipsWhole(whole: nat, k: nat, channels: nat)
    requires channels > 0 && Lane(whole, channels) == 0
    ensures Lane(whole + k, channels) == Lane(k, channels)
  {
    if whole >= channels {
      LaneSkipsWhole(whole - channels, k, channels);
    }
  }

  /** The samples of so many frames, added up frame by frame. */
  function Span(frames: nat, channels: nat): nat {
    if frames == 0 then 0 else Span(frames - 1, channels) + channels
  }

  lemma {:induction false} SpanIsProduct(frames: nat, channels: nat)
    ensures Span(frames, channels) == frames * channels
  {
    if frames > 0 {
      SpanIsProduct(frames - 1, channels);
      assert (frames - 1) * channels + channels == frames * channels;
    }
  }

  lemma {:induction false} SpanGrows(a: nat, b: nat, channels: nat)
    requires a <= b
    ensures Span(a, channels) <= Span(b, channels)
  {
    if a < b { SpanGrows(a, b - 1, channels); }
  }

  lemma {:induction false} SpanIsWhole(frames: nat, channels: nat)
    requires channels > 0
    ensures Lane(Span(frames, channels), channels) == 0
  {
    if frames > 0 { SpanIsWhole(frames - 1, channels); }
  }

  lemma NextFrame(frame: nat, frames: nat, channels: nat)
    requires frame < frames && channels > 0
    ensures Span(frame + 1, channels) == Span(frame, channels) + channels <= Span(frames, channels)
    ensures Lane(Span(frame, channels), channels) == 0
  {
    SpanGrows(frame + 1, frames, channels);
    SpanIsWhole(frame, channels);
  }

  // ------------------------------------------------------------------ in-place loops

  /** The first `n` samples of a buffer are filtered, the rest untouched. */
  ghost predicate Progress<Z>(kernel: Kernel<Z>, z: seq<Z>, xs: seq<real>, now: seq<real>, states: seq<Z>, n: nat) {
    && z != [] && n <= |xs|
    && now == Filtered(kernel, z, xs[..n]) + xs[n..]
    && states == After(kernel, z, xs[..n])
  }

  /** One more sample in its channel, in place. */
  lemma ProgressStep<Z>(kernel: Kernel<Z>, z: seq<Z>, xs: seq<real>, now: seq<real>, states: seq<Z>, n: nat)
    requires Progress(kernel, z, xs, now, states, n) && n < |xs|
    ensures now[n] == xs[n]
    ensures var lane := Lane(n, |z|);
            var fed := kernel(states[lane], now[n]);
            Progress(kernel, z, xs, now[n := fed.1], states[lane := fed.0], n + 1)
  {
    var ys := Filtered(kernel, z, xs[..n]);
    assert xs[..n + 1] == xs[..n] + [xs[n]];
    AfterOneMore(kernel, z, xs[..n], xs[n]);
    FilteredOneMore(kernel, z, xs[..n], xs[n]);
    UpdateExtends(ys, xs, n, kernel(states[Lane(n, |z|)], xs[n]).1);
  }

  lemma UpdateExtends(ys: seq<real>, xs: seq<real>, n: nat, y: real)
    requires |ys| == n < |xs|
    ensures (ys + xs[n..])[n] == xs[n] && (ys + xs[n..])[n := y] == (ys + [y]) + xs[n + 1..]
  {
  }

  // ------------------------------------------------------------------------- chunks

  /** The last steps of two runs of the same states with the same sample in the same lane agree. */
  lemma LastStepsAgree<Z>(kernel: Kernel<Z>, z: seq<Z>, g: seq<Z>, xs: seq<real>, ys: seq<real>)
    requires z != [] && |g| == |z| && xs != [] && ys != [] && xs[|xs| - 1] == ys[|ys| - 1]
    requires Lane(|xs| - 1, |z|) == Lane(|ys| - 1, |g|)
    requires After(kernel, z, xs[..|xs| - 1]) == After(kernel, g, ys[..|ys| - 1])
    ensures After(kernel, z, xs) == After(kernel, g, ys)
  {
  }

  lemma {:induction false} AfterComposes<Z>(kernel: Kernel<Z>, z: seq<Z>, xs: seq<real>, ys: seq<real>)
    requires z != [] && Lane(|xs|, |z|) == 0
    ensures After(kernel, z, xs + ys) == After(kernel, After(kernel, z, xs), ys)
    decreases |ys|
  {
    if ys == [] {
      assert xs + ys == xs;
    } else {
      var front, whole := ys[..|ys| - 1], xs + ys;
      AfterComposes(kernel, z, xs, front);
      assert whole[..|whole| - 1] == xs + front;
      LaneSkipsWhole(|xs|, |front|, |z|);
      LastStepsAgree(kernel, z, After(kernel, z, xs), whole, ys);
    }
  }

  lemma {:induction false} FilteredComposes<Z>(kernel: Kernel<Z>, z: seq<Z>, xs: seq<real>, ys: seq<real>)
    requires z != [] && Lane(|xs|, |z|) == 0
    ensures Filtered(kernel, z, xs + ys) == Filtered(kernel, z, xs) + Filtered(kernel, After(kernel, z, xs), ys)
    decreases |ys|
  {
    if ys == [] {
      assert xs + ys == xs;
    } else {
      var front, y := ys[..|ys| - 1], ys[|ys| - 1];
      FilteredComposes(kernel, z, xs, front);
      assert ys == front + [y] && xs + ys == (xs + front) + [y];
      FilteredComposesOnce(kernel, z, xs, front, y, xs + front, After(kernel, z, xs));
    }
  }

  lemma FilteredComposesOnce<Z>(kernel: Kernel<Z>, z: seq<Z>, xs: seq<real>, front: seq<real>, y: real,
                                joined: seq<real>, g: seq<Z>)
    requires z != [] && Lane(|xs|, |z|) == 0 && joined == xs + front && g == After(kernel, z, xs)
    requires Filtered(kernel, z, joined) == Filtered(kernel, z, xs) + Filtered(kernel, g, front)
    ensures Filtered(kernel, z, joined + [y]) == Filtered(kernel, z, xs) + Filtered(kernel, g, front + [y])
  {
    AfterComposes(kernel, z, xs, front);
    FilteredOneMore(kernel, z, joined, y);
    FilteredOneMore(kernel, g, front, y);
    LaneSkipsWhole(|xs|, |front|, |z|);
    JoinOne(Filtered(kernel, z, xs), Filtered(kernel, g, front),
            kernel(After(kernel, g, front)[Lane(|front|, |z|)], y).1);
  }

  lemma JoinOne(a: seq<real>, b: seq<real>, y: real)
    ensures (a + b) + [y] == a + (b + [y])
  {
  }

  lemma {:induction false} FilteredPrefix<Z>(kernel: Kernel<Z>, z: seq<Z>, xs: seq<real>, n: nat)
    requires z != [] && n <= |xs|
    ensures Filtered(kernel, z, xs[..n]) == Filtered(kernel, z, xs)[..n]
    decreases |xs|
  {
    if n == |xs| {
      assert xs[..n] == xs;
    } else {
      FilteredPrefix(kernel, z, xs[..|xs| - 1], n);
      assert xs[..|xs| - 1][..n] == xs[..n];
    }
  }

  // ------------------------------------------------------------------------ channels

  /** The samples of one channel, in order. */
  function Channel(xs: seq<real>, channels: nat, channel: nat): (lane: seq<real>)
    requires channel < channels
  {
    if xs == [] then []
    else
      var lane := Channel(xs[..|xs| - 1], channels, channel);
      if Lane(|xs| - 1, channels) == channel then lane + [xs[|xs| - 1]] else lane
  }

  /** A frame adds one sample to each channel. */
  lemma {:induction false} FrameAdds(xs: seq<real>, frame: seq<real>, channels: nat, channel: nat)
    requires channel < channels && Lane(|xs|, channels) == 0 && |frame| <= channels
    ensures Channel(xs + frame, channels, channel)
         == Channel(xs, channels, channel) + if channel < |frame| then [frame[channel]] else []
    decreases |frame|
  {
    if frame == [] {
      assert xs + frame == xs;
    } else {
      var front := frame[..|frame| - 1];
      FrameAdds(xs, front, channels, channel);
      assert (xs + frame)[..|xs + frame| - 1] == xs + front;
      LaneSkipsWhole(|xs|, |front|, channels);
    }
  }

  predicate InFrame(xs: seq<real>, n: nat, channels: nat, channel: nat, x: real) {
    var index := Span(n, channels) + channel;
    index < |xs| && xs[index] == x
  }

  /** Sample `n` of a channel is sample `channel` of frame `n`. */
  lemma {:induction false} ChannelAt(xs: seq<real>, frames: nat, channels: nat, channel: nat)
    requires channel < channels && |xs| == Span(frames, channels)
    ensures |Channel(xs, channels, channel)| == frames
    ensures forall n :: 0 <= n < frames ==> InFrame(xs, n, channels, channel, Channel(xs, channels, channel)[n])
    decreases frames
  {
    if frames > 0 {
      var cut := Span(frames - 1, channels);
      SpanIsWhole(frames - 1, channels);
      ChannelAt(xs[..cut], frames - 1, channels, channel);
      assert xs == xs[..cut] + xs[cut..];
      FrameAdds(xs[..cut], xs[cut..], channels, channel);
      forall n | 0 <= n < frames ensures InFrame(xs, n, channels, channel, Channel(xs, channels, channel)[n]) {
        if n < frames - 1 {
          assert InFrame(xs[..cut], n, channels, channel, Channel(xs[..cut], channels, channel)[n]);
        }
      }
    }
  }

  lemma LaneOfOne(k: nat)
    ensures Lane(k, 1) == 0
  {
  }

  /** Channels do not mix: what comes out on a channel is what a one-channel filter makes of that
      channel's samples. */
  lemma {:induction false} ChannelsAreIndependent<Z>(kernel: Kernel<Z>, z: seq<Z>, xs: seq<real>, channel: nat)
    requires channel < |z|
    ensures Channel(Filtered(kernel, z, xs), |z|, channel) == Filtered(kernel, [z[channel]], Channel(xs, |z|, channel))
    ensures [After(kernel, z, xs)[channel]] == After(kernel, [z[channel]], Channel(xs, |z|, channel))
    decreases |xs|
  {
    if xs != [] {
      var front, x := xs[..|xs| - 1], xs[|xs| - 1];
      ChannelsAreIndependent(kernel, z, front, channel);
      var lane := Lane(|front|, |z|);
      assert Filtered(kernel, z, xs)[..|front|] == Filtered(kernel, z, front);
      if lane == channel {
        var cs := Channel(front, |z|, channel);
        LaneOfOne(|cs|);
        AfterOneMore(kernel, [z[channel]], cs, x);
        FilteredOneMore(kernel, [z[channel]], cs, x);
      }
    }
  }
}
