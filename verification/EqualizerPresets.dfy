/** The built-in preset curves, and when a layout matches one. */
module EqualizerPresets {
  import opened EqualizerTypes
  import opened Equalizer

  datatype PresetId =
    | Flat | BassBoost | TrebleBoost | Vocal | Pop | Rock | Electronic | HipHop | Jazz
    | Classical | Acoustic | Dance | Piano | SpokenPodcast | Loudness | Custom

  datatype Preset = Preset(id: PresetId, gains: seq<real>)

  const FIRST_PRESETS: seq<Preset> := [
    Preset(Flat, [0.0, 0.0, 0.0, 0.0, 0.0, 0.0, 0.0, 0.0, 0.0, 0.0]),
    Preset(BassBoost, [5.0, 4.5, 3.5, 2.0, 1.0, 0.0, -1.0, -1.5, -2.0, -2.5]),
    Preset(TrebleBoost, [-2.0, -1.5, -1.0, -0.5, 0.0, 1.0, 2.0, 3.5, 4.5, 5.0]),
    Preset(Vocal, [-2.0, -1.5, -0.5, 1.0, 2.5, 3.5, 3.0, 1.5, 0.5, -1.0]),
    Preset(Pop, [-1.0, 1.5, 3.0, 3.5, 2.0, -0.5, -1.0, 1.0, 2.0, 2.5]),
    Preset(Rock, [4.0, 3.0, 1.0, -1.0, -1.5, 0.5, 2.0, 3.0, 3.5, 4.0]),
    Preset(Electronic, [4.0, 3.5, 2.0, 0.5, -1.0, -0.5, 1.5, 3.0, 3.5, 3.0]),
    Preset(HipHop, [5.0, 4.5, 2.5, 1.0, -0.5, -1.0, 0.5, 1.5, 2.0, 1.0])
  ]

  const OTHER_PRESETS: seq<Preset> := [
    Preset(Jazz, [1.0, 1.5, 1.0, 0.5, 1.5, 2.5, 2.0, 1.5, 1.0, 1.0]),
    Preset(Classical, [0.0, 0.0, 0.5, 1.5, 2.0, 1.5, 0.5, 0.0, 0.5, 1.0]),
    Preset(Acoustic, [-0.5, 0.5, 1.5, 2.5, 2.0, 1.0, 0.5, 1.0, 1.5, 1.0]),
    Preset(Dance, [4.5, 4.0, 2.5, 0.5, -0.5, 1.0, 2.5, 3.5, 4.0, 3.0]),
    Preset(Piano, [-1.0, -0.5, 0.5, 1.5, 2.5, 3.0, 2.0, 1.0, 0.5, 0.0]),
    Preset(SpokenPodcast, [-4.0, -3.0, -1.0, 1.0, 3.0, 4.5, 4.0, 2.5, 0.0, -1.0]),
    Preset(Loudness, [3.0, 2.5, 2.0, 1.0, 0.0, 0.5, 1.5, 2.5, 3.0, 3.0]),
    Preset(Custom, [0.0, 0.0, 0.0, 0.0, 0.0, 0.0, 0.0, 0.0, 0.0, 0.0])
  ]

  const BUILTIN_PRESETS: seq<Preset> := FIRST_PRESETS + OTHER_PRESETS

  const TOLERANCE: real := 0.01

  function Abs(x: real): real { if x < 0.0 then -x else x }

  predicate BandGainsMatch(bands: seq<Band>, gains: seq<real>) {
    |bands| == |gains| && forall i :: 0 <= i < |bands| ==> Abs(bands[i].gain - gains[i]) <= TOLERANCE
  }

  /** The layout carries the preset's curve within the tolerance at every band. */
  predicate Carries(c: Scale, bands: seq<Band>, p: Preset) {
    BandGainsMatch(bands, ProjectGains(c, p.gains, bands))
  }

  /** Some built-in preset other than the placeholder for custom curves fits the layout. */
  ghost predicate SomePresetFits(c: Scale, presets: seq<Preset>, bands: seq<Band>) {
    exists i :: 0 <= i < |presets| && presets[i].id != Custom && Carries(c, bands, presets[i])
  }

  predicate GainsWithin(gains: seq<real>, low: real, high: real) {
    gains != [] && forall k :: 0 <= k < |gains| ==> low <= gains[k] <= high
  }

  /** What is required of a preset list: gains within the limits, and one preset per id. */
  ghost predicate ValidPresets(presets: seq<Preset>) {
    && Moderate(presets) && DistinctIds(presets)
    && (exists i :: 0 <= i < |presets| && presets[i].id == Flat && GainsWithin(presets[i].gains, 0.0, 0.0))
  }

  function Gains(bands: seq<Band>): (g: seq<real>)
    ensures |g| == |bands|
  {
    seq(|bands|, i requires 0 <= i < |bands| => bands[i].gain)
  }

  predicate NonFlat(bands: seq<Band>) {
    exists i :: 0 <= i < |bands| && Abs(bands[i].gain) > TOLERANCE
  }

  /** The layout with its gains replaced. */
  function WithGains(bands: seq<Band>, gains: seq<real>): (r: seq<Band>)
    requires |gains| == |bands|
    ensures |r| == |bands|
  {
    seq(|bands|, i requires 0 <= i < |bands| => bands[i].(gain := gains[i]))
  }

  /** A projection depends on the bands' frequencies only. */
  lemma ProjectionIgnoresGains(c: Scale, gains: seq<real>, a: seq<Band>, b: seq<Band>)
    requires |a| == |b| && forall i :: 0 <= i < |a| ==> a[i].frequency == b[i].frequency
    ensures ProjectGains(c, gains, a) == ProjectGains(c, gains, b)
  {
  }

  /** Taking over a preset's projected curve makes the layout carry that preset, and keeps it valid. */
  lemma SelectingMakesCarried(c: Scale, bands: seq<Band>, p: Preset)
    requires c.Valid() && ValidLayout(bands) && GainsWithin(p.gains, MIN_GAIN, MAX_GAIN)
    ensures
      var r := WithGains(bands, ProjectGains(c, p.gains, bands));
      ValidLayout(r) && Carries(c, r, p) && Gains(r) == ProjectGains(c, p.gains, bands)
  {
    var g := ProjectGains(c, p.gains, bands);
    var r := WithGains(bands, g);
    ProjectionIgnoresGains(c, p.gains, bands, r);
    forall i | 0 <= i < |r| ensures InLimits(r[i]) {
      assert InLimits(bands[i]);
      ProjectionStaysInRange(c, p.gains, bands[i].frequency, MIN_GAIN, MAX_GAIN);
    }
    forall i | 0 <= i < |r| - 1 ensures r[i].frequency + MIN_SPACING <= r[i + 1].frequency {
      assert bands[i].frequency + MIN_SPACING <= bands[i + 1].frequency;
    }
  }

  /** A flat curve projects to zero everywhere. */
  lemma FlatProjectsToZero(c: Scale, gains: seq<real>, bands: seq<Band>, i: nat)
    requires c.Valid() && i < |bands| && GainsWithin(gains, 0.0, 0.0)
    ensures ProjectGains(c, gains, bands)[i] == 0.0
  {
    ProjectionStaysInRange(c, gains, bands[i].frequency, 0.0, 0.0);
  }

  ghost predicate DistinctIds(presets: seq<Preset>) {
    forall i, j :: 0 <= i < j < |presets| ==> presets[i].id != presets[j].id
  }

  ghost predicate Moderate(presets: seq<Preset>) {
    forall i :: 0 <= i < |presets| ==> GainsWithin(presets[i].gains, MIN_GAIN, MAX_GAIN)
  }

  lemma FirstPresetsAreModerate()
    ensures Moderate(FIRST_PRESETS)
  {
  }

  lemma OtherPresetsAreModerate()
    ensures Moderate(OTHER_PRESETS)
  {
  }

  lemma ModerateTogether(first: seq<Preset>, other: seq<Preset>)
    requires Moderate(first) && Moderate(other)
    ensures Moderate(first + other)
  {
  }

  /** The number of an id, as the presets are listed. */
  function Rank(id: PresetId): nat {
    match id
    case Flat => 0
    case BassBoost => 1
    case TrebleBoost => 2
    case Vocal => 3
    case Pop => 4
    case Rock => 5
    case Electronic => 6
    case HipHop => 7
    case Jazz => 8
    case Classical => 9
    case Acoustic => 10
    case Dance => 11
    case Piano => 12
    case SpokenPodcast => 13
    case Loudness => 14
    case Custom => 15
  }

  lemma RanksAreInOrder(i: nat)
    requires i < 16
    ensures Rank(BUILTIN_PRESETS[i].id) == i
  {
  }

  lemma BuiltinIdsAreDistinct()
    ensures DistinctIds(BUILTIN_PRESETS)
  {
    forall i, j | 0 <= i < j < |BUILTIN_PRESETS| ensures BUILTIN_PRESETS[i].id != BUILTIN_PRESETS[j].id {
      RanksAreInOrder(i);
      RanksAreInOrder(j);
    }
  }

  lemma BuiltinPresetsAreValid()
    ensures ValidPresets(BUILTIN_PRESETS)
  {
    BuiltinIdsAreDistinct();
    FirstPresetsAreModerate();
    OtherPresetsAreModerate();
    ModerateTogether(FIRST_PRESETS, OTHER_PRESETS);
    assert BUILTIN_PRESETS[0].id == Flat;
  }

  /** The built-in preset with the given id. */
  method FindPreset(presets: seq<Preset>, id: PresetId) returns (index: nat)
    ensures index <= |presets| && (index < |presets| ==> presets[index].id == id)
    ensures index == |presets| ==> forall i :: 0 <= i < |presets| ==> presets[i].id != id
  {
    index := 0;
    while index < |presets| && presets[index].id != id
      invariant index <= |presets|
      invariant forall i :: 0 <= i < index ==> presets[i].id != id
    {
      index := index + 1;
    }
  }
}
