/** Default layouts, editable ranges and the projection of preset curves onto bands. */
module Equalizer {
  import opened Wrappers
  import opened EqualizerTypes
  import opened RealLemmas

  /** Logarithm and exponential, of which only these facts are used: both increase, they are
      inverse, and, for the spacing of default bands alone, interpolating between logarithms stays
      between the weighted harmonic and arithmetic means. */
  datatype Scale = Scale(log: real -> real, exp: real -> real) {
    ghost predicate Valid() {
      Increasing() && (forall a, b, t :: MeansBound(a, b, t))
    }

    ghost predicate Increasing() {
      && (forall x, y :: LogGrows(x, y))
      && (forall x, y :: ExpGrows(x, y))
      && (forall x :: Inverse(x))
    }

    predicate LogGrows(x: real, y: real) { 0.0 < x < y ==> log(x) < log(y) }

    predicate ExpGrows(x: real, y: real) { x < y ==> exp(x) < exp(y) }

    predicate Inverse(x: real) { 0.0 < x ==> exp(log(x)) == x }

    predicate MeansBound(a: real, b: real, t: real) {
      0.0 < a < b && 0.0 <= t <= 1.0 ==>
        Between(a, b, t) <= Mix(a, b, t) && Between(a, b, t) * Mix(b, a, t) >= a * b
    }

    /** The point a share `t` of the way from `a` to `b` on the logarithmic axis. */
    function Between(a: real, b: real, t: real): real {
      exp(Mix(log(a), log(b), t))
    }
  }

  /** A share `t` of the way from `x` to `y`. */
  function Mix(x: real, y: real, t: real): real { x + (y - x) * t }

  lemma MixEnds(x: real, y: real, t: real)
    requires x <= y && 0.0 <= t <= 1.0
    ensures x <= Mix(x, y, t) <= y
    ensures t == 0.0 ==> Mix(x, y, t) == x
  {
    MulMonotone(0.0, t, y - x);
    MulMonotone(t, 1.0, y - x);
  }

  lemma MixFalls(x: real, y: real, t: real)
    requires x >= y && 0.0 <= t <= 1.0
    ensures y <= Mix(x, y, t) <= x
  {
    ShareBelow(y - x, t);
  }

  lemma MixStaysBetween(x: real, y: real, t: real, low: real, high: real)
    requires 0.0 <= t <= 1.0 && low <= x <= high && low <= y <= high
    ensures low <= Mix(x, y, t) <= high
  {
    if x <= y { MixEnds(x, y, t); } else { MixFalls(x, y, t); }
  }

  lemma MixIncreases(x: real, y: real, t: real, u: real)
    requires x <= y && t <= u
    ensures Mix(x, y, t) <= Mix(x, y, u)
  {
    MulMonotone(t, u, y - x);
  }

  const REFERENCE: seq<real> := [60.0, 170.0, 310.0, 600.0, 1000.0, 3000.0, 6000.0, 12000.0, 14000.0, 16000.0]

  /** The reference curve at a fractional position between 0 and 9. */
  function AtPosition(c: Scale, position: real): real
    requires 0.0 <= position <= 9.0
  {
    var lower := position.Floor;
    var upper := if lower + 1 < |REFERENCE| then lower + 1 else |REFERENCE| - 1;
    if lower == upper then REFERENCE[lower]
    else c.Between(REFERENCE[lower], REFERENCE[upper], position - lower as real)
  }

  /** The share `9 * index / (count - 1)` of the reference positions. */
  function Position(count: nat, index: nat): (p: real)
    requires 2 <= count && index < count
    ensures 0.0 <= p <= 9.0
  {
    assert index as real / (count - 1) as real <= 1.0;
    index as real * 9.0 / (count - 1) as real
  }

  function InterpolateDefaultBandFrequency(c: Scale, count: nat, index: nat): real
    requires index < count
  {
    if count == 1 then REFERENCE[|REFERENCE| / 2] else AtPosition(c, Position(count, index))
  }

  function DefaultCount(count: nat): nat { if count < MAX_BAND_COUNT then count else MAX_BAND_COUNT }

  function DefaultBands(c: Scale, count: nat): (bands: seq<Band>)
    ensures |bands| == DefaultCount(count)
  {
    seq(DefaultCount(count),
        i requires 0 <= i < DefaultCount(count) =>
          Band(InterpolateDefaultBandFrequency(c, DefaultCount(count), i), 0.0, DEFAULT_Q))
  }

  method MakeDefaultEqualizerBands(c: Scale, count: nat) returns (bands: seq<Band>)
    ensures bands == DefaultBands(c, count)
  {
    var n := if count < MAX_BAND_COUNT then count else MAX_BAND_COUNT;
    bands := [];
    for index := 0 to n
      invariant bands == DefaultBands(c, count)[..index]
    {
      bands := bands + [Band(InterpolateDefaultBandFrequency(c, n, index), 0.0, DEFAULT_Q)];
    }
  }

  // --------------------------------------------------- default layouts are valid

  lemma ExpKeepsOrder(c: Scale, x: real, y: real)
    requires c.Increasing() && x <= y
    ensures c.exp(x) <= c.exp(y)
  {
    assert c.ExpGrows(x, y);
  }

  /** Interpolating between two frequencies stays between them and starts at the lower one. */
  lemma BetweenStaysInside(c: Scale, a: real, b: real, t: real)
    requires c.Increasing() && 0.0 < a < b && 0.0 <= t <= 1.0
    ensures a <= c.Between(a, b, t) <= b
    ensures t == 0.0 ==> c.Between(a, b, t) == a
  {
    var x, y := c.log(a), c.log(b);
    assert c.LogGrows(a, b) && c.Inverse(a) && c.Inverse(b);
    MixEnds(x, y, t);
    ExpKeepsOrder(c, x, Mix(x, y, t));
    ExpKeepsOrder(c, Mix(x, y, t), y);
  }

  lemma BetweenIncreases(c: Scale, a: real, b: real, t: real, u: real)
    requires c.Increasing() && 0.0 < a < b && t <= u
    ensures c.Between(a, b, t) <= c.Between(a, b, u)
  {
    var x, y := c.log(a), c.log(b);
    assert c.LogGrows(a, b);
    MixIncreases(x, y, t, u);
    ExpKeepsOrder(c, Mix(x, y, t), Mix(x, y, u));
  }

  lemma AtPositionIncreases(c: Scale, p: real, q: real)
    requires c.Increasing() && 0.0 <= p <= q <= 9.0
    ensures AtPosition(c, p) <= AtPosition(c, q)
  {
    var i, j := p.Floor, q.Floor;
    if i < 9 { BetweenStaysInside(c, REFERENCE[i], REFERENCE[i + 1], p - i as real); }
    if j < 9 { BetweenStaysInside(c, REFERENCE[j], REFERENCE[j + 1], q - j as real); }
    if i == j && i < 9 {
      BetweenIncreases(c, REFERENCE[i], REFERENCE[i + 1], p - i as real, q - j as real);
    } else if i < j {
      ReferenceIncreases(i + 1, j);
    }
  }

  lemma ReferenceIncreases(i: nat, j: nat)
    requires i <= j < |REFERENCE|
    ensures REFERENCE[i] <= REFERENCE[j]
    decreases j - i
  {
    if i < j { ReferenceIncreases(i, j - 1); }
  }

  lemma AtPositionInLimits(c: Scale, p: real)
    requires c.Increasing() && 0.0 <= p <= 9.0
    ensures REFERENCE[0] <= AtPosition(c, p) <= REFERENCE[9]
  {
    AtPositionIncreases(c, 0.0, p);
    AtPositionIncreases(c, p, 9.0);
    BetweenStaysInside(c, REFERENCE[0], REFERENCE[1], 0.0);
  }

  lemma ExpandCross(p: real, d: real, c: real, e: real, t: real)
    ensures (p + d * t) * (c - e * t) == p * c + (d * c - p * e) * t - (d * e) * (t * t)
  {
    calc {
      (p + d * t) * (c - e * t);
      p * (c - e * t) + (d * t) * (c - e * t);
      { assert p * (c - e * t) == p * c - (p * e) * t; }
      { assert (d * t) * (c - e * t) == (d * c) * t - (d * e) * (t * t); }
      p * c - (p * e) * t + (d * c) * t - (d * e) * (t * t);
      { assert (d * c - p * e) * t == (d * c) * t - (p * e) * t; }
      p * c + (d * c - p * e) * t - (d * e) * (t * t);
    }
  }

  lemma SquareTermIsPositive(d: real, e: real, t: real)
    requires d >= 0.0 && e >= 0.0
    ensures (d * e) * (t * t) >= 0.0
  {
    assert t * t >= 0.0;
    assert d * e >= 0.0;
    MulMonotone(0.0, d * e, t * t);
  }

  /** A linear bound on the product of two interpolations that move towards each other. */
  lemma CrossProduct(p: real, d: real, c: real, e: real, t: real, bound: real)
    requires 0.0 <= d && 0.0 <= e && 0.0 <= t <= 1.0
    requires p * c < bound && p * c + (d * c - p * e) < bound
    ensures (p + d * t) * (c - e * t) < bound
  {
    ExpandCross(p, d, c, e, t);
    SquareTermIsPositive(d, e, t);
    var slope := d * c - p * e;
    PartIsBetween(slope, t);
    CrossBound(p * c, slope, Part(slope, t), (d * e) * (t * t), (p + d * t) * (c - e * t), bound);
  }

  lemma CrossBound(start: real, slope: real, part: real, square: real, product: real, bound: real)
    requires product == start + part - square && square >= 0.0
    requires start < bound && start + slope < bound && (part <= slope || part <= 0.0)
    ensures product < bound
  {
  }

  /** Three frequencies far enough apart for `CrossProduct`: `p` is the first one raised by the
      minimum spacing, `d` and `e` are the two gaps. */
  ghost predicate Sparse(a: real, b: real, c: real, p: real, d: real, e: real) {
    && 0.0 < a && p == a + MIN_SPACING && d == b - a > 0.0 && e == c - b > 0.0
    && p * c < b * c && p * c + (d * c - p * e) < b * c
  }

  lemma ReferenceIsSparse(k: nat)
    requires k + 2 < |REFERENCE|
    ensures
      var a, b, c := REFERENCE[k], REFERENCE[k + 1], REFERENCE[k + 2];
      Sparse(a, b, c, a + MIN_SPACING, b - a, c - b)
  {
    assert k == 0 || k == 1 || k == 2 || k == 3 || k == 4 || k == 5 || k == 6 || k == 7;
  }

  lemma AboveByProduct(high: real, mean: real, w: real, product: real)
    requires w > 0.0 && high * w >= product && mean * w < product
    ensures mean <= high
  {
    if high < mean {
      MulMonotone(high, mean, w);
    }
  }

  /** The gap between a value under its arithmetic mean and one over its harmonic mean. */
  lemma GapFromMeans(low: real, high: real, p: real, d: real, c: real, e: real, t: real, bound: real, mean: real,
                     w: real)
    requires 0.0 <= d && 0.0 <= e < c && 0.0 <= t <= 1.0
    requires p * c < bound && p * c + (d * c - p * e) < bound
    requires mean == p + d * t && w == c - e * t
    requires low + MIN_SPACING <= mean && high * w >= bound
    ensures low + MIN_SPACING <= high
  {
    CrossProduct(p, d, c, e, t, bound);
    Share(e, t);
    AboveByProduct(high, mean, w, bound);
  }

  lemma MixUp(a: real, b: real, d: real, t: real)
    requires d == b - a
    ensures Mix(a, b, t) == a + d * t
  {
  }

  lemma MixDown(c: real, b: real, e: real, t: real)
    requires e == c - b
    ensures Mix(c, b, t) == c - e * t
  {
  }

  lemma GapOverSparse(a: real, b: real, c: real, p: real, d: real, e: real, t: real, low: real, high: real, mean: real,
                      w: real)
    requires Sparse(a, b, c, p, d, e) && 0.0 <= t <= 1.0
    requires mean == p + d * t && w == c - e * t && low + MIN_SPACING <= mean && high * w >= b * c
    ensures low + MIN_SPACING <= high
  {
    GapFromMeans(low, high, p, d, c, e, t, b * c, mean, w);
  }

  lemma MeansHold(s: Scale, a: real, b: real, c: real, t: real)
    requires s.Valid() && 0.0 < a < b < c && 0.0 <= t <= 1.0
    ensures s.Between(a, b, t) <= Mix(a, b, t) && s.Between(b, c, t) * Mix(c, b, t) >= b * c
  {
    assert s.MeansBound(a, b, t) && s.MeansBound(b, c, t);
  }

  /** One reference position apart, the curve rises by at least the minimum spacing. */
  lemma SegmentGap(s: Scale, k: nat, t: real)
    requires s.Valid() && k + 2 < |REFERENCE| && 0.0 <= t <= 1.0
    ensures s.Between(REFERENCE[k], REFERENCE[k + 1], t) + MIN_SPACING
            <= s.Between(REFERENCE[k + 1], REFERENCE[k + 2], t)
  {
    ReferenceIsSparse(k);
    var a, b, c := REFERENCE[k], REFERENCE[k + 1], REFERENCE[k + 2];
    MixUp(a, b, b - a, t);
    MixDown(c, b, c - b, t);
    MeansHold(s, a, b, c, t);
    GapOverSparse(a, b, c, a + MIN_SPACING, b - a, c - b, t, s.Between(a, b, t), s.Between(b, c, t),
                  Mix(a, b, t) + MIN_SPACING, Mix(c, b, t));
  }

  lemma PositionGap(c: Scale, p: real)
    requires c.Valid() && 0.0 <= p <= 8.0
    ensures AtPosition(c, p) + MIN_SPACING <= AtPosition(c, p + 1.0)
  {
    var k := p.Floor;
    assert (p + 1.0).Floor == k + 1;
    if k < 8 {
      SegmentGap(c, k, p - k as real);
    } else {
      BetweenStaysInside(c, REFERENCE[8], REFERENCE[9], 0.0);
    }
  }

  lemma PositionsAreApart(count: nat, index: nat)
    requires 2 <= count <= MAX_BAND_COUNT && index + 1 < count
    ensures Position(count, index) + 1.0 <= Position(count, index + 1)
  {
    var d := (count - 1) as real;
    var p, q := Position(count, index), Position(count, index + 1);
    assert p * d == index as real * 9.0 && q * d == (index + 1) as real * 9.0;
    DifferenceTimes(q, p, d);
    FactorIsAtLeastOne(q - p, d, q * d - p * d);
  }

  /** Every default layout, of any number of bands, is valid and flat. */
  lemma DefaultBandsAreValid(c: Scale, count: nat)
    requires c.Valid()
    ensures ValidLayout(DefaultBands(c, count))
    ensures forall i :: 0 <= i < DefaultCount(count) ==> DefaultBands(c, count)[i].gain == 0.0
  {
    var bands, n := DefaultBands(c, count), DefaultCount(count);
    forall i | 0 <= i < n ensures InLimits(bands[i]) {
      if n > 1 { AtPositionInLimits(c, Position(n, i)); }
    }
    forall i | 0 <= i < n - 1 ensures bands[i].frequency + MIN_SPACING <= bands[i + 1].frequency {
      PositionsAreApart(n, i);
      PositionGap(c, Position(n, i));
      AtPositionIncreases(c, Position(n, i) + 1.0, Position(n, i + 1));
    }
  }

  /** With ten bands the default layout is the reference layout. */
  lemma TenDefaultBandsAreTheReference(c: Scale, i: nat)
    requires c.Increasing() && i < MAX_BAND_COUNT
    ensures DefaultBands(c, MAX_BAND_COUNT)[i].frequency == REFERENCE[i]
  {
    DivideIs(i as real * 9.0, 9.0, i as real);
    assert Position(MAX_BAND_COUNT, i) == i as real;
    if i < 9 { BetweenStaysInside(c, REFERENCE[i], REFERENCE[i + 1], 0.0); }
  }

  /** Interpolating between two frequencies goes straight on the logarithmic axis. */
  lemma BetweenIsStraight(c: Scale, a: real, b: real, t: real)
    requires c.Increasing() && 0.0 < a < b && 0.0 <= t <= 1.0
    ensures c.log(c.Between(a, b, t)) - c.log(a) == (c.log(b) - c.log(a)) * t
  {
    var x := Mix(c.log(a), c.log(b), t);
    BetweenStaysInside(c, a, b, t);
    var y := c.log(c.exp(x));
    assert c.Inverse(c.exp(x)) && c.ExpGrows(x, y) && c.ExpGrows(y, x);
  }

  /** `f` lies at the share `t` of the way from reference band `j` to the next one, on the logarithmic
      axis, or on the last one. */
  predicate AtReference(c: Scale, f: real, j: nat, t: real) {
    && j < |REFERENCE| && 0.0 <= t < 1.0
    && (if j == |REFERENCE| - 1 then t == 0.0 && f == REFERENCE[j]
        else c.log(f) - c.log(REFERENCE[j]) == (c.log(REFERENCE[j + 1]) - c.log(REFERENCE[j])) * t)
  }

  lemma PositionAtReference(c: Scale, p: real) returns (j: nat, t: real)
    requires c.Increasing() && 0.0 <= p <= 9.0
    ensures AtReference(c, AtPosition(c, p), j, t) && p == j as real + t
  {
    j, t := p.Floor, p - p.Floor as real;
    if j < 9 { BetweenIsStraight(c, REFERENCE[j], REFERENCE[j + 1], t); }
  }

  /** Where the bands of a default layout are: a single one at 3 kHz, and several at equal steps `p` over
      the reference bands, from the first to the last. */
  lemma DefaultBandsAreEquallySpread(c: Scale, count: nat, i: nat) returns (p: real, j: nat, t: real)
    requires c.Increasing() && i < DefaultCount(count)
    ensures
      var n, f := DefaultCount(count), DefaultBands(c, count)[i].frequency;
      if n == 1 then f == 3000.0
      else AtReference(c, f, j, t) && p == j as real + t && EqualSteps(n, i, p)
  {
    p, j, t := 0.0, 0, 0.0;
    DefaultBandAt(c, count, i);
    if DefaultCount(count) > 1 {
      p := Position(DefaultCount(count), i);
      PositionTimes(DefaultCount(count), i);
      j, t := PositionAtReference(c, p);
    }
  }

  lemma DefaultBandAt(c: Scale, count: nat, i: nat)
    requires i < DefaultCount(count)
    ensures
      var n, f := DefaultCount(count), DefaultBands(c, count)[i].frequency;
      f == if n == 1 then 3000.0 else AtPosition(c, Position(n, i))
  {
  }

  /** `p` is step `i` of the `n - 1` equal steps from 0 to 9. */
  predicate EqualSteps(n: nat, i: nat, p: real) { p * (n - 1) as real == 9.0 * i as real }

  lemma PositionTimes(count: nat, index: nat)
    requires 2 <= count && index < count
    ensures EqualSteps(count, index, Position(count, index))
  {
  }

  // ------------------------------------------------------------- editable range

  datatype FrequencyRange = FrequencyRange(low: real, high: real)

  function EditableFrequencyRange(bands: seq<Band>, index: nat): Option<FrequencyRange> {
    if index >= |bands| then None
    else
      var low := if index > 0 then Max(MIN_FREQUENCY, bands[index - 1].frequency + MIN_SPACING) else MIN_FREQUENCY;
      var high := if index + 1 < |bands| then Min(MAX_FREQUENCY, bands[index + 1].frequency - MIN_SPACING)
                  else MAX_FREQUENCY;
      if low > high then None else Some(FrequencyRange(low, high))
  }

  /** In a valid layout every band has an editable range, its own frequency lies in it, and the
      range is exactly the set of frequencies the band may take without breaking the layout. */
  lemma EditableRangeIsExact(bands: seq<Band>, index: nat, f: real)
    requires ValidLayout(bands) && index < |bands|
    ensures
      var r := EditableFrequencyRange(bands, index);
      && r.Some? && r.value.low <= bands[index].frequency <= r.value.high
      && (r.value.low <= f <= r.value.high <==> ValidLayout(bands[index := bands[index].(frequency := f)]))
  {
    var moved := bands[index := bands[index].(frequency := f)];
    assert InLimits(bands[index]);
    if index > 0 {
      assert bands[index - 1].frequency + MIN_SPACING <= bands[index - 1 + 1].frequency;
      assert InLimits(bands[index - 1]);
    }
    if index + 1 < |bands| {
      assert InLimits(bands[index + 1]);
    }
    if ValidLayout(moved) {
      assert InLimits(moved[index]);
      if index > 0 { assert moved[index - 1].frequency + MIN_SPACING <= moved[index - 1 + 1].frequency; }
      if index + 1 < |bands| { assert moved[index].frequency + MIN_SPACING <= moved[index + 1].frequency; }
    }
    var r := EditableFrequencyRange(bands, index).value;
    if r.low <= f <= r.high {
      forall i | 0 <= i < |moved| ensures InLimits(moved[i]) {
        if i != index { assert moved[i] == bands[i]; }
      }
      forall i | 0 <= i < |moved| - 1 ensures moved[i].frequency + MIN_SPACING <= moved[i + 1].frequency {
        if i != index && i + 1 != index { assert bands[i].frequency + MIN_SPACING <= bands[i + 1].frequency; }
      }
    }
  }

  // ----------------------------------------------------------- preset projection

  /** The first reference band above a frequency. */
  function UpperBound(refs: seq<Band>, f: real): (u: nat)
    ensures u <= |refs| && (u < |refs| ==> f < refs[u].frequency)
    ensures forall k :: 0 <= k < u ==> refs[k].frequency <= f
  {
    if refs == [] || f < refs[0].frequency then 0
    else
      var v := UpperBound(refs[1..], f);
      assert forall k :: 0 < k < v + 1 ==> refs[k] == refs[1..][k - 1];
      v + 1
  }

  /** The gain a preset curve has at a frequency, read off between its reference bands. */
  function GainAt(c: Scale, gains: seq<real>, f: real): real
    requires gains != []
  {
    var refs := DefaultBands(c, |gains|);
    if f <= refs[0].frequency then gains[0]
    else if f >= refs[|refs| - 1].frequency then gains[|gains| - 1]
    else
      var upper := UpperBound(refs, f);
      var lower := upper - 1;
      Mix(gains[lower], gains[upper], ShareAt(c, |gains|, f))
  }

  /** Division, with an arbitrary answer where the program would divide by zero. */
  function Fraction(x: real, d: real): real { if d == 0.0 then 0.0 else x / d }

  function ProjectGains(c: Scale, gains: seq<real>, bands: seq<Band>): (r: seq<real>)
    ensures |r| == |bands|
  {
    seq(|bands|, i requires 0 <= i < |bands| => if gains == [] then 0.0 else GainAt(c, gains, bands[i].frequency))
  }

  /** `g` is read off between the reference bands around `u`, a share `t` of the way on the logarithmic
      axis from the lower to the upper one. */
  ghost predicate ReadOff(c: Scale, gains: seq<real>, refs: seq<Band>, f: real, g: real, u: nat, t: real) {
    && 0 < u < |refs| <= |gains| && refs[u - 1].frequency <= f < refs[u].frequency
    && 0.0 <= t < 1.0 && t * (c.log(refs[u].frequency) - c.log(refs[u - 1].frequency))
      == c.log(f) - c.log(refs[u - 1].frequency)
    && g == Mix(gains[u - 1], gains[u], t)
  }

  /** `g` is what a curve has at `f`: its first gain up to its first reference band, its last from
      the last on, and between two of them what is read off there. */
  ghost predicate OnCurve(c: Scale, gains: seq<real>, f: real, g: real) {
    var refs := DefaultBands(c, |gains|);
    if gains == [] then g == 0.0
    else if f <= refs[0].frequency then g == gains[0]
    else if f >= refs[|refs| - 1].frequency then g == gains[|gains| - 1]
    else exists u, t :: ReadOff(c, gains, refs, f, g, u, t)
  }

  lemma FractionTimes(x: real, d: real)
    requires d != 0.0
    ensures Fraction(x, d) * d == x
  {
  }

  lemma GainIsOnCurve(c: Scale, gains: seq<real>, f: real)
    requires c.Increasing() && gains != []
    ensures OnCurve(c, gains, f, GainAt(c, gains, f))
  {
    var refs, n := DefaultBands(c, |gains|), |gains|;
    if refs[0].frequency < f < refs[|refs| - 1].frequency {
      assert Inside(c, n, f);
      UpperBoundInside(c, n, f);
      ShareIsProper(c, n, f);
      var u := UpperBound(refs, f);
      ReadOffAt(c, gains, refs, f, u, ShareAt(c, n, f));
      assert ReadOff(c, gains, refs, f, GainAt(c, gains, f), u, ShareAt(c, n, f));
    }
  }

  lemma ReadOffAt(c: Scale, gains: seq<real>, refs: seq<Band>, f: real, u: nat, t: real)
    requires c.Increasing() && 0 < u < |refs| <= |gains| && 0.0 < refs[u - 1].frequency <= f < refs[u].frequency
    requires 0.0 <= t < 1.0
    requires t == Fraction(c.log(f) - c.log(refs[u - 1].frequency),
                           c.log(refs[u].frequency) - c.log(refs[u - 1].frequency))
    ensures ReadOff(c, gains, refs, f, Mix(gains[u - 1], gains[u], t), u, t)
  {
    var low, high := c.log(refs[u - 1].frequency), c.log(refs[u].frequency);
    assert c.LogGrows(refs[u - 1].frequency, refs[u].frequency);
    FractionTimes(c.log(f) - low, high - low);
  }

  method ProjectPresetGainsToBands(c: Scale, gains: seq<real>, bands: seq<Band>) returns (projected: seq<real>)
    ensures projected == ProjectGains(c, gains, bands)
    ensures c.Increasing() ==> forall i :: 0 <= i < |bands| ==> OnCurve(c, gains, bands[i].frequency, projected[i])
  {
    projected := [];
    for i := 0 to |bands|
      invariant projected == ProjectGains(c, gains, bands)[..i]
    {
      projected := projected + [if gains == [] then 0.0 else GainAt(c, gains, bands[i].frequency)];
    }
    ProjectionIsOnCurve(c, gains, bands);
  }

  lemma ProjectionIsOnCurve(c: Scale, gains: seq<real>, bands: seq<Band>)
    ensures c.Increasing() ==> forall i :: 0 <= i < |bands| ==>
            OnCurve(c, gains, bands[i].frequency, ProjectGains(c, gains, bands)[i])
  {
    if c.Increasing() && gains != [] {
      forall i | 0 <= i < |bands| ensures OnCurve(c, gains, bands[i].frequency, ProjectGains(c, gains, bands)[i]) {
        GainIsOnCurve(c, gains, bands[i].frequency);
      }
    }
  }

  /** The position of `f` among the reference bands of a preset curve with `n` gains. */
  ghost predicate Inside(c: Scale, n: nat, f: real) {
    n > 0 && DefaultBands(c, n)[0].frequency < f < DefaultBands(c, n)[DefaultCount(n) - 1].frequency
  }

  lemma DefaultFrequencyIsPositive(c: Scale, n: nat, i: nat)
    requires c.Increasing() && i < DefaultCount(n)
    ensures 0.0 < DefaultBands(c, n)[i].frequency
  {
    if DefaultCount(n) > 1 { AtPositionInLimits(c, Position(DefaultCount(n), i)); }
  }

  lemma UpperBoundIsInside(refs: seq<Band>, f: real)
    requires refs != [] && refs[0].frequency < f < refs[|refs| - 1].frequency
    ensures 0 < UpperBound(refs, f) < |refs|
    ensures refs[UpperBound(refs, f) - 1].frequency <= f < refs[UpperBound(refs, f)].frequency
  {
  }

  lemma UpperBoundInside(c: Scale, n: nat, f: real)
    requires c.Increasing() && Inside(c, n, f)
    ensures
      var refs := DefaultBands(c, n);
      var upper := UpperBound(refs, f);
      && 0 < upper < |refs| <= n
      && 0.0 < refs[upper - 1].frequency <= f < refs[upper].frequency
  {
    var refs := DefaultBands(c, n);
    UpperBoundIsInside(refs, f);
    DefaultFrequencyIsPositive(c, n, UpperBound(refs, f) - 1);
  }

  lemma QuotientIsShare(x: real, d: real, t: real)
    requires 0.0 <= x < d && t * d == x
    ensures 0.0 <= t < 1.0
  {
    if t < 0.0 { MulStrict(t, 0.0, d); }
    if t >= 1.0 { MulMonotone(1.0, t, d); }
  }

  lemma QuotientIsZero(x: real, d: real, t: real)
    requires 0.0 == x < d && t * d == x
    ensures t == 0.0
  {
    if t > 0.0 { MulStrict(0.0, t, d); }
    if t < 0.0 { MulStrict(t, 0.0, d); }
  }

  lemma FractionIsShare(x: real, d: real)
    requires 0.0 <= x < d
    ensures 0.0 <= Fraction(x, d) < 1.0 && (x == 0.0 ==> Fraction(x, d) == 0.0)
  {
    var t := x / d;
    assert t * d == x;
    QuotientIsShare(x, d, t);
    if x == 0.0 { QuotientIsZero(x, d, t); }
  }

  /** The share of the upper neighbour in the projection at `f`. */
  function ShareAt(c: Scale, n: nat, f: real): real
    requires n > 0
  {
    var refs := DefaultBands(c, n);
    var upper := UpperBound(refs, f);
    if 0 < upper < |refs|
    then Fraction(c.log(f) - c.log(refs[upper - 1].frequency),
                  c.log(refs[upper].frequency) - c.log(refs[upper - 1].frequency))
    else 0.0
  }

  lemma ShareOfLogs(c: Scale, low: real, f: real, high: real)
    requires c.Increasing() && 0.0 < low <= f < high
    ensures
      var t := Fraction(c.log(f) - c.log(low), c.log(high) - c.log(low));
      0.0 <= t < 1.0 && (low == f ==> t == 0.0)
  {
    assert c.LogGrows(low, f) && c.LogGrows(f, high);
    FractionIsShare(c.log(f) - c.log(low), c.log(high) - c.log(low));
  }

  /** Between two reference bands the projection weighs their two gains by a share in [0, 1);
      it never divides by zero and never leaves the gain list. */
  lemma ShareIsProper(c: Scale, n: nat, f: real)
    requires c.Increasing() && Inside(c, n, f)
    ensures 0.0 <= ShareAt(c, n, f) < 1.0
    ensures DefaultBands(c, n)[UpperBound(DefaultBands(c, n), f) - 1].frequency == f ==> ShareAt(c, n, f) == 0.0
  {
    UpperBoundInside(c, n, f);
    var refs := DefaultBands(c, n);
    var upper := UpperBound(refs, f);
    ShareOfLogs(c, refs[upper - 1].frequency, f, refs[upper].frequency);
  }

  /** The projection stays within the preset's smallest and greatest gain. */
  lemma ProjectionStaysInRange(c: Scale, gains: seq<real>, f: real, low: real, high: real)
    requires c.Increasing() && gains != [] && forall i :: 0 <= i < |gains| ==> low <= gains[i] <= high
    ensures low <= GainAt(c, gains, f) <= high
  {
    if Inside(c, |gains|, f) {
      UpperBoundInside(c, |gains|, f);
      ShareIsProper(c, |gains|, f);
      var upper := UpperBound(DefaultBands(c, |gains|), f);
      MixStaysBetween(gains[upper - 1], gains[upper], ShareAt(c, |gains|, f), low, high);
    }
  }

  /** Just below the next reference band the upper bound of a reference frequency is that band. */
  lemma UpperBoundOfReference(c: Scale, k: nat)
    requires c.Increasing() && 0 < k < 9
    ensures UpperBound(DefaultBands(c, MAX_BAND_COUNT), REFERENCE[k]) == k + 1
  {
    var refs := DefaultBands(c, MAX_BAND_COUNT);
    var upper := UpperBound(refs, REFERENCE[k]);
    TenDefaultBandsAreTheReference(c, k);
    TenDefaultBandsAreTheReference(c, k + 1);
    if upper <= k {
      TenDefaultBandsAreTheReference(c, upper);
      ReferenceIncreases(upper, k);
    }
  }

  /** At its own reference bands a ten-band preset projects to its own gains. */
  lemma ProjectionMeetsReference(c: Scale, gains: seq<real>, k: nat)
    requires c.Increasing() && |gains| == MAX_BAND_COUNT && k < MAX_BAND_COUNT
    ensures GainAt(c, gains, REFERENCE[k]) == gains[k]
  {
    TenDefaultBandsAreTheReference(c, 0);
    TenDefaultBandsAreTheReference(c, k);
    TenDefaultBandsAreTheReference(c, 9);
    if 0 < k < 9 {
      UpperBoundOfReference(c, k);
      ShareIsProper(c, |gains|, REFERENCE[k]);
    }
  }
}
