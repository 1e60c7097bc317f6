/** Bands, limits and clamps of the equalizer. */
module EqualizerTypes {
  datatype Band = Band(frequency: real, gain: real, q: real)

  const MAX_BAND_COUNT: nat := 10
  const MIN_FREQUENCY: real := 20.0
  const MAX_FREQUENCY: real := 20000.0
  const MIN_SPACING: real := 10.0
  const MIN_GAIN: real := -12.0
  const MAX_GAIN: real := 12.0
  const MIN_Q: real := 0.1
  const MAX_Q: real := 12.0
  const DEFAULT_Q: real := 1.414

  function Max(a: real, b: real): real { if a < b then b else a }
  function Min(a: real, b: real): real { if b < a then b else a }

  function Clamp(x: real, low: real, high: real): (y: real)
    requires low <= high
    ensures low <= y <= high && (low <= x <= high ==> y == x)
  {
    if x < low then low else if high < x then high else x
  }

  function ClampBand(b: Band): (c: Band)
    ensures InLimits(c) && (InLimits(b) ==> c == b)
  {
    Band(Clamp(b.frequency, MIN_FREQUENCY, MAX_FREQUENCY), Clamp(b.gain, MIN_GAIN, MAX_GAIN), Clamp(b.q, MIN_Q, MAX_Q))
  }

  predicate InLimits(b: Band) {
    && MIN_FREQUENCY <= b.frequency <= MAX_FREQUENCY
    && MIN_GAIN <= b.gain <= MAX_GAIN
    && MIN_Q <= b.q <= MAX_Q
  }

  /** Neighbouring bands keep the minimum spacing, in increasing order. */
  predicate Spaced(bands: seq<Band>) {
    forall i :: 0 <= i < |bands| - 1 ==> bands[i].frequency + MIN_SPACING <= bands[i + 1].frequency
  }

  predicate ValidLayout(bands: seq<Band>) {
    && |bands| <= MAX_BAND_COUNT
    && (forall i :: 0 <= i < |bands| ==> InLimits(bands[i]))
    && Spaced(bands)
  }

  /** Spacing adds up over any two bands of a layout. */
  lemma {:induction false} SpacingAddsUp(bands: seq<Band>, i: nat, j: nat)
    requires Spaced(bands) && i <= j < |bands|
    ensures bands[i].frequency + MIN_SPACING * (j - i) as real <= bands[j].frequency
    decreases j - i
  {
    if i < j {
      SpacingAddsUp(bands, i, j - 1);
      assert bands[j - 1].frequency + MIN_SPACING <= bands[j - 1 + 1].frequency;
    }
  }
}
