/** The checked arithmetic of the decoder: sample counts and timestamps in 64-bit integers. */
module DecoderValidation {
  import opened IntLemmas
  import opened Wrappers

  const INT64_MAX: int := 0x7FFF_FFFF_FFFF_FFFF
  const TICKS_PER_SECOND: int := 10_000_000
  const TICKS_PER_MILLISECOND: int := 10_000

  function CheckedSampleCount(frames: nat, channels: nat, maximum: nat): (count: Option<nat>)
  {
    if channels == 0 || frames > maximum / channels then None
    else
      assert frames * channels >= 0;
      Some(frames * channels)
  }

  /** The division in the guard is an exact overflow test. */
  lemma CheckedSampleCountIsExact(frames: nat, channels: nat, maximum: nat)
    ensures CheckedSampleCount(frames, channels, maximum).Some? <==> channels > 0 && frames * channels <= maximum
    ensures CheckedSampleCount(frames, channels, maximum).Some? ==>
              CheckedSampleCount(frames, channels, maximum).value == frames * channels
  {
    if channels > 0 {
      var q := maximum / channels;
      QuotientIs(maximum, channels);
      if frames <= q { ProductGrows(frames, q, channels); } else { ProductGrows(q + 1, frames, channels); }
    }
  }

  /** `None` for a negative position or one whose tick count exceeds a 64-bit integer. */
  function MillisecondsTo100ns(position: int): (ticks: Option<int>)
    ensures ticks.Some? <==> 0 <= position && position * TICKS_PER_MILLISECOND <= INT64_MAX
    ensures ticks.Some? ==> ticks.value == position * TICKS_PER_MILLISECOND
  {
    if position < 0 || position > INT64_MAX / TICKS_PER_MILLISECOND then None
    else Some(position * TICKS_PER_MILLISECOND)
  }

  /** `position` is `ticks` in whole milliseconds. */
  predicate WholeMilliseconds(position: int, ticks: int) {
    position * TICKS_PER_MILLISECOND <= ticks < (position + 1) * TICKS_PER_MILLISECOND
  }

  function ToMilliseconds(ticks: int): (position: int)
    ensures 0 <= position
    ensures ticks >= 0 ==> WholeMilliseconds(position, ticks)
  {
    if ticks > 0 then ticks / TICKS_PER_MILLISECOND else 0
  }

  lemma MillisecondsRoundTrip(position: int)
    requires MillisecondsTo100ns(position).Some?
    ensures ToMilliseconds(MillisecondsTo100ns(position).value) == position
  {
  }

  function Increment(frames: nat, rate: nat): int
    requires rate > 0
  {
    frames * TICKS_PER_SECOND / rate
  }

  function AdvanceTimestamp100ns(now: int, frames: nat, rate: nat): (later: Option<int>)
  {
    if now < 0 || rate == 0 then None
    else if now > INT64_MAX - Increment(frames, rate) then None
    else Some(now + Increment(frames, rate))
  }

  /** How far `blocks` rounded-down advances over `frames` frames may fall behind exact time, in
      ticks scaled by the rate: less than one tick a block. */
  predicate Lags(elapsed: int, frames: nat, blocks: nat, rate: nat) {
    rate > 0 ==> 0 <= frames * TICKS_PER_SECOND - elapsed * rate <= blocks * (rate - 1)
  }

  lemma LagGrows(elapsed: int, frames: nat, blocks: nat, rate: nat, more: nat)
    requires rate > 0 && Lags(elapsed, frames, blocks, rate)
    ensures Lags(elapsed + Increment(more, rate), frames + more, blocks + 1, rate) && Increment(more, rate) >= 0
  {
    var i := Increment(more, rate);
    QuotientIs(more * TICKS_PER_SECOND, rate);
    Distributes(elapsed, i, rate);
    Distributes(blocks, 1, rate - 1);
    Distributes(i, 1, rate);
    if i < 0 { ProductGrows(i + 1, 0, rate); }
  }

  /** `k` blocks put a timestamp less than `k` ticks behind exact time: with `exact` the time of
      `frames` frames rounded down, the timestamp lies within `k` ticks of it. */
  lemma LessThanATickPerBlock(elapsed: int, frames: nat, blocks: nat, rate: nat)
    requires rate > 0 && Lags(elapsed, frames, blocks, rate)
    ensures elapsed <= frames * TICKS_PER_SECOND / rate
    ensures blocks > 0 ==> frames * TICKS_PER_SECOND / rate < elapsed + blocks
    ensures blocks == 0 ==> frames * TICKS_PER_SECOND == elapsed * rate
  {
    var x := frames * TICKS_PER_SECOND;
    var e := x / rate;
    QuotientIs(x, rate);
    Distributes(e, 1, rate);
    Distributes(elapsed, blocks, rate);
    assert blocks * (rate - 1) == blocks * rate - blocks;
    if elapsed > e { ProductGrows(e + 1, elapsed, rate); }
    if blocks > 0 && e >= elapsed + blocks { ProductGrows(elapsed + blocks, e, rate); }
  }

  /** The time that blocks of these frame counts advance a timestamp by, one after the other. */
  function Elapsed(blocks: seq<nat>, rate: nat): int {
    if blocks == [] || rate == 0 then 0
    else Elapsed(blocks[..|blocks| - 1], rate) + Increment(blocks[|blocks| - 1], rate)
  }

  function TotalFrames(blocks: seq<nat>): nat {
    if blocks == [] then 0 else TotalFrames(blocks[..|blocks| - 1]) + blocks[|blocks| - 1]
  }

  lemma {:induction false} BlocksLag(blocks: seq<nat>, rate: nat)
    requires rate > 0
    ensures Lags(Elapsed(blocks, rate), TotalFrames(blocks), |blocks|, rate)
  {
    if blocks != [] {
      BlocksLag(blocks[..|blocks| - 1], rate);
      LagGrows(Elapsed(blocks[..|blocks| - 1], rate), TotalFrames(blocks[..|blocks| - 1]), |blocks| - 1, rate,
               blocks[|blocks| - 1]);
    }
  }

  /** Any blocks put a timestamp less than a tick a block behind the exact time of their frames,
      and never ahead of it. */
  lemma BlocksTrailExactTime(blocks: seq<nat>, rate: nat)
    requires rate > 0 && blocks != []
    ensures Elapsed(blocks, rate) <= TotalFrames(blocks) * TICKS_PER_SECOND / rate < Elapsed(blocks, rate) + |blocks|
  {
    BlocksLag(blocks, rate);
    LessThanATickPerBlock(Elapsed(blocks, rate), TotalFrames(blocks), |blocks|, rate);
  }

  // --------------------------------------------------------------------- frame alignment

  /** A sample count that is a whole number of frames. */
  predicate Whole(samples: nat, channels: nat)
    requires channels > 0
  {
    samples == 0 || (samples >= channels && Whole(samples - channels, channels))
  }

  lemma {:induction false} WholeProduct(frames: nat, channels: nat)
    requires channels > 0
    ensures frames * channels >= 0 && Whole(frames * channels, channels)
  {
    if frames > 0 {
      WholeProduct(frames - 1, channels);
      assert frames * channels - channels == (frames - 1) * channels;
    }
  }

  /** A count is whole exactly when it is a multiple of the channel count. */
  lemma {:induction false} WholeIsMultiple(samples: nat, channels: nat)
    requires channels > 0
    ensures Whole(samples, channels) <==> samples % channels == 0
  {
    if samples >= channels {
      WholeIsMultiple(samples - channels, channels);
      RemainderSkips(samples, channels);
    } else {
      RemainderOfSmall(samples, channels);
    }
  }

  lemma RemainderOfSmall(n: nat, d: nat)
    requires n < d
    ensures n % d == n
  {
  }

  lemma {:induction false} WholeSum(a: nat, b: nat, channels: nat)
    requires channels > 0 && Whole(a, channels) && Whole(b, channels)
    ensures Whole(a + b, channels)
  {
    if a > 0 { WholeSum(a - channels, b, channels); }
  }

  lemma {:induction false} WholeDifference(a: nat, b: nat, channels: nat)
    requires channels > 0 && b <= a && Whole(a, channels) && Whole(b, channels)
    ensures Whole(a - b, channels)
  {
    if b > 0 { WholeDifference(a - channels, b - channels, channels); }
  }
}
