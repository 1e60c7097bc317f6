/** Normalization of an arbitrary band list into a valid layout. */
module EqualizerLayout {
  import opened EqualizerTypes

  // ------------------------------------------------------------------- sorting

  ghost predicate SortedByFrequency(bands: seq<Band>) {
    forall i, j :: 0 <= i < j < |bands| ==> bands[i].frequency <= bands[j].frequency
  }

  /** What a comparison sort by frequency promises: a sorted permutation, ties in any order. */
  ghost predicate IsSortOf(sorted: seq<Band>, bands: seq<Band>) {
    SortedByFrequency(sorted) && multiset(sorted) == multiset(bands)
  }

  function Without<T>(a: seq<T>, k: nat): seq<T>
    requires k < |a|
  {
    a[..k] + a[k + 1..]
  }

  /** Taking one element out of a sequence takes it out of the bag. */
  lemma BagWithout<T>(a: seq<T>, k: nat)
    requires k < |a|
    ensures multiset(Without(a, k)) == multiset(a) - multiset{a[k]}
  {
    assert a == a[..k] + [a[k]] + a[k + 1..];
  }

  lemma BagInsert<T>(x: T, a: seq<T>, i: nat)
    requires i <= |a|
    ensures multiset(a[..i] + [x] + a[i..]) == multiset([x] + a)
  {
    assert a == a[..i] + a[i..];
  }

  method Insert(band: Band, sorted: seq<Band>) returns (r: seq<Band>)
    requires SortedByFrequency(sorted)
    ensures IsSortOf(r, [band] + sorted)
  {
    var i := |sorted|;
    while i > 0 && band.frequency < sorted[i - 1].frequency
      invariant 0 <= i <= |sorted|
      invariant forall k :: i <= k < |sorted| ==> band.frequency < sorted[k].frequency
    {
      i := i - 1;
    }
    r := sorted[..i] + [band] + sorted[i..];
    BagInsert(band, sorted, i);
  }

  method SortByFrequency(bands: seq<Band>) returns (sorted: seq<Band>)
    ensures IsSortOf(sorted, bands)
  {
    sorted := [];
    for i := 0 to |bands|
      invariant IsSortOf(sorted, bands[..i])
    {
      sorted := Insert(bands[i], sorted);
      assert bands[..i + 1] == bands[..i] + [bands[i]];
    }
    assert bands[..|bands|] == bands;
  }

  lemma SortKeepsLength(sorted: seq<Band>, bands: seq<Band>)
    requires multiset(sorted) == multiset(bands)
    ensures |sorted| == |bands|
  {
    assert |multiset(sorted)| == |multiset(bands)|;
  }

  lemma SortKeepsMembers(sorted: seq<Band>, bands: seq<Band>, i: nat)
    requires multiset(sorted) == multiset(bands) && i < |sorted|
    ensures sorted[i] in bands
  {
    assert sorted[i] in multiset(sorted);
  }

  // --------------------------------------------------------------- closed form

  /** The first ten bands, clamped to the limits. */
  function Clamped(bands: seq<Band>): (c: seq<Band>)
    ensures |c| == if |bands| < MAX_BAND_COUNT then |bands| else MAX_BAND_COUNT
    ensures forall i :: 0 <= i < |c| ==> InLimits(c[i])
  {
    seq(if |bands| < MAX_BAND_COUNT then |bands| else MAX_BAND_COUNT,
        i requires 0 <= i < |bands| => ClampBand(bands[i]))
  }

  /** Where band `j` pushes band `i` when every step between them takes the minimum spacing. */
  function Pushed(s: seq<Band>, j: nat, i: nat): real
    requires j <= i < |s|
  {
    s[j].frequency + MIN_SPACING * (i - j) as real
  }

  /** `m` is the greatest of the pushes that bands up to `i` exert on band `i`. */
  ghost predicate IsRaised(s: seq<Band>, i: nat, m: real)
    requires i < |s|
  {
    && (exists j: nat :: j <= i && m == Pushed(s, j, i))
    && (forall j: nat :: j <= i ==> Pushed(s, j, i) <= m)
  }

  /** The highest frequency that leaves room for the bands above band `i` of `n`. */
  function Ceiling(n: nat, i: nat): real
    requires i < n
  {
    MAX_FREQUENCY - MIN_SPACING * (n - 1 - i) as real
  }

  /** Band `i` of the result: the greatest push on it, capped by its ceiling. */
  ghost predicate IsPlaced(s: seq<Band>, i: nat, b: Band)
    requires i < |s|
  {
    exists m: real :: IsRaised(s, i, m) && b == s[i].(frequency := Min(m, Ceiling(|s|, i)))
  }

  /** The closed form of normalization, over some sort of the clamped input. */
  ghost predicate PlacedFrom(s: seq<Band>, bands: seq<Band>, normalized: seq<Band>) {
    && IsSortOf(s, Clamped(bands)) && |normalized| == |s|
    && forall i :: 0 <= i < |s| ==> IsPlaced(s, i, normalized[i])
  }

  ghost predicate NormalizedFrom(bands: seq<Band>, normalized: seq<Band>) {
    exists s :: PlacedFrom(s, bands, normalized)
  }

  /** The forward pass turns the greatest push on one band into that on the next. */
  lemma RaisedStep(s: seq<Band>, i: nat, m: real)
    requires i + 1 < |s| && IsRaised(s, i, m)
    ensures IsRaised(s, i + 1, Max(s[i + 1].frequency, m + MIN_SPACING))
  {
    var j: nat :| j <= i && m == Pushed(s, j, i);
    var i' := i + 1;
    var next := Max(s[i'].frequency, m + MIN_SPACING);
    assert Pushed(s, i', i') == s[i'].frequency;
    assert Pushed(s, j, i') == m + MIN_SPACING;
    forall k: nat | k <= i' ensures Pushed(s, k, i') <= next {
      if k <= i { assert Pushed(s, k, i') == Pushed(s, k, i) + MIN_SPACING; }
    }
  }

  lemma RaisedBase(s: seq<Band>)
    requires |s| > 0
    ensures IsRaised(s, 0, s[0].frequency)
  {
    assert Pushed(s, 0, 0) == s[0].frequency;
  }

  lemma RaisedIsUnique(s: seq<Band>, i: nat, m: real, m': real)
    requires i < |s| && IsRaised(s, i, m) && IsRaised(s, i, m')
    ensures m == m'
  {
  }

  lemma SortedInLimits(s: seq<Band>, bands: seq<Band>)
    requires IsSortOf(s, Clamped(bands))
    ensures |s| == |Clamped(bands)| && forall i :: 0 <= i < |s| ==> InLimits(s[i])
  {
    SortKeepsLength(s, Clamped(bands));
    forall i | 0 <= i < |s| ensures InLimits(s[i]) {
      SortKeepsMembers(s, Clamped(bands), i);
    }
  }

  // ------------------------------------------------------------ the algorithm

  /** The state between the passes: bands up to `done` raised, the rest still as sorted. */
  ghost predicate RaisedUpTo(s: seq<Band>, bands: seq<Band>, done: nat) {
    && |bands| == |s|
    && (forall k :: 0 <= k < |s| ==> bands[k] == s[k].(frequency := bands[k].frequency))
    && (forall k :: 0 <= k < done && k < |s| ==> IsRaised(s, k, bands[k].frequency))
    && (forall k :: done <= k < |s| ==> bands[k] == s[k])
  }

  /** The first loop: clamped copies of at most ten bands. */
  method CollectClamped(bands: seq<Band>) returns (normalized: seq<Band>)
    ensures normalized == Clamped(bands)
  {
    normalized := [];
    for i := 0 to |bands|
      invariant normalized == Clamped(bands[..i])
    {
      if |normalized| == MAX_BAND_COUNT {
        break;
      }
      normalized := normalized + [ClampBand(bands[i])];
    }
    assert |normalized| < MAX_BAND_COUNT ==> bands[..|bands|] == bands;
  }

  /** Where the forward pass puts band `i`. */
  function Lifted(s: seq<Band>, i: nat): real
    requires i < |s|
  {
    if i == 0 then s[0].frequency else Max(s[i].frequency, Lifted(s, i - 1) + MIN_SPACING)
  }

  lemma {:induction false} LiftedIsRaised(s: seq<Band>, i: nat)
    requires i < |s|
    ensures IsRaised(s, i, Lifted(s, i))
  {
    if i == 0 {
      RaisedBase(s);
    } else {
      LiftedIsRaised(s, i - 1);
      RaisedStep(s, i - 1, Lifted(s, i - 1));
    }
  }

  /** The forward loop: every band at least the minimum spacing above the one before. */
  method RaiseForward(s: seq<Band>) returns (normalized: seq<Band>)
    ensures RaisedUpTo(s, normalized, |s|)
  {
    normalized := s;
    var index := 1;
    while index < |normalized|
      invariant 1 <= index && |normalized| == |s|
      invariant forall k :: 0 <= k < index && k < |s| ==> normalized[k] == s[k].(frequency := Lifted(s, k))
      invariant forall k :: index <= k < |s| ==> normalized[k] == s[k]
    {
      normalized := normalized[index := normalized[index].(
        frequency := Max(normalized[index].frequency, normalized[index - 1].frequency + MIN_SPACING))];
      index := index + 1;
    }
    forall k | 0 <= k < |s| ensures IsRaised(s, k, normalized[k].frequency) {
      LiftedIsRaised(s, k);
    }
  }

  function CapAt(raised: seq<Band>, k: nat): Band
    requires k < |raised|
  {
    raised[k].(frequency := Min(raised[k].frequency, Ceiling(|raised|, k)))
  }

  /** The backward pass: capping a band by its neighbour caps it by its own ceiling, and the
      lower clamp that follows changes nothing. */
  lemma CappingStep(s: seq<Band>, raised: seq<Band>, k: nat)
    requires |s| <= MAX_BAND_COUNT && k + 1 < |s| && RaisedUpTo(s, raised, |s|)
    requires InLimits(s[k])
    ensures CapAt(raised, k).frequency == Min(raised[k].frequency, CapAt(raised, k + 1).frequency - MIN_SPACING)
    ensures MIN_FREQUENCY <= CapAt(raised, k).frequency
  {
    RaisedStep(s, k, raised[k].frequency);
    RaisedIsUnique(s, k + 1, raised[k + 1].frequency, Max(s[k + 1].frequency, raised[k].frequency + MIN_SPACING));
    assert Pushed(s, k, k) == s[k].frequency;
    assert Ceiling(|s|, k) == Ceiling(|s|, k + 1) - MIN_SPACING;
  }

  /** `caps[k]` is `raised[k]` capped below the next cap, or by the limit if it is the last. */
  ghost predicate IsCap(caps: seq<Band>, raised: seq<Band>, k: nat)
    requires |caps| == |raised| && k < |caps|
  {
    var above := if k + 1 < |caps| then caps[k + 1].frequency - MIN_SPACING else MAX_FREQUENCY;
    caps[k] == raised[k].(frequency := Min(raised[k].frequency, above)) && MIN_FREQUENCY <= caps[k].frequency
  }

  ghost predicate AreCaps(caps: seq<Band>, raised: seq<Band>) {
    |caps| == |raised| && forall k :: 0 <= k < |caps| ==> IsCap(caps, raised, k)
  }

  function Caps(raised: seq<Band>): (caps: seq<Band>)
    ensures |caps| == |raised|
  {
    seq(|raised|, k requires 0 <= k < |raised| => CapAt(raised, k))
  }

  lemma ClosedFormIsCap(s: seq<Band>, raised: seq<Band>, k: nat)
    requires |s| <= MAX_BAND_COUNT && RaisedUpTo(s, raised, |s|) && k < |s| && InLimits(s[k])
    ensures IsCap(Caps(raised), raised, k)
  {
    if k + 1 < |s| {
      CappingStep(s, raised, k);
    } else {
      assert Ceiling(|s|, k) == MAX_FREQUENCY;
      assert Pushed(s, k, k) == s[k].frequency;
    }
  }

  /** The closed form meets the recurrence of the backward pass. */
  lemma ClosedFormCaps(s: seq<Band>, raised: seq<Band>)
    requires |s| <= MAX_BAND_COUNT && RaisedUpTo(s, raised, |s|)
    requires forall k :: 0 <= k < |s| ==> InLimits(s[k])
    ensures AreCaps(Caps(raised), raised)
  {
    forall k | 0 <= k < |raised| ensures IsCap(Caps(raised), raised, k) {
      ClosedFormIsCap(s, raised, k);
    }
  }

  /** The backward loop: every band at least the minimum spacing below the one after. */
  method CapBackward(ghost caps: seq<Band>, raised: seq<Band>) returns (normalized: seq<Band>)
    requires AreCaps(caps, raised)
    ensures normalized == caps
  {
    var n := |raised|;
    normalized := raised;
    if n > 0 {
      assert IsCap(caps, raised, n - 1);
      normalized := normalized[n - 1 := normalized[n - 1].(
        frequency := Min(normalized[n - 1].frequency, MAX_FREQUENCY))];
    }
    var index := n;
    while index > 1
      invariant 0 <= index <= n == |normalized| && (n > 0 ==> index >= 1)
      invariant forall k :: 0 <= k < index - 1 ==> normalized[k] == raised[k]
      invariant forall k :: index - 1 <= k < n && 0 <= k ==> normalized[k] == caps[k]
    {
      assert IsCap(caps, raised, index - 2);
      normalized := normalized[index - 2 := normalized[index - 2].(
        frequency := Min(normalized[index - 2].frequency, normalized[index - 1].frequency - MIN_SPACING))];
      normalized := normalized[index - 2 := normalized[index - 2].(
        frequency := Max(normalized[index - 2].frequency, MIN_FREQUENCY))];
      index := index - 1;
    }
  }

  method NormalizeEqualizerBands(bands: seq<Band>) returns (normalized: seq<Band>)
    ensures NormalizedFrom(bands, normalized)
  {
    var clamped := CollectClamped(bands);
    var sorted := SortByFrequency(clamped);
    SortedInLimits(sorted, bands);
    var raised := RaiseForward(sorted);
    ClosedFormCaps(sorted, raised);
    normalized := CapBackward(Caps(raised), raised);
    forall k | 0 <= k < |sorted| ensures IsPlaced(sorted, k, normalized[k]) {
      assert IsRaised(sorted, k, raised[k].frequency);
    }
    assert PlacedFrom(sorted, bands, normalized);
  }

  // ---------------------------------------------------------------- consequences

  lemma PlacedIsInLimits(s: seq<Band>, i: nat, b: Band)
    requires |s| <= MAX_BAND_COUNT && i < |s| && InLimits(s[i]) && IsPlaced(s, i, b)
    ensures InLimits(b)
  {
    var m: real :| IsRaised(s, i, m) && b == s[i].(frequency := Min(m, Ceiling(|s|, i)));
    assert Pushed(s, i, i) == s[i].frequency;
  }

  lemma PlacedAreApart(s: seq<Band>, i: nat, b: Band, c: Band)
    requires |s| <= MAX_BAND_COUNT && i + 1 < |s| && IsPlaced(s, i, b) && IsPlaced(s, i + 1, c)
    ensures b.frequency + MIN_SPACING <= c.frequency
  {
    var m: real :| IsRaised(s, i, m) && b == s[i].(frequency := Min(m, Ceiling(|s|, i)));
    var n: real :| IsRaised(s, i + 1, n) && c == s[i + 1].(frequency := Min(n, Ceiling(|s|, i + 1)));
    RaisedStep(s, i, m);
    RaisedIsUnique(s, i + 1, n, Max(s[i + 1].frequency, m + MIN_SPACING));
  }

  /** Every normalized band list is a valid layout of the first ten bands. */
  lemma NormalizedIsValid(bands: seq<Band>, normalized: seq<Band>)
    requires NormalizedFrom(bands, normalized)
    ensures ValidLayout(normalized) && |normalized| == |Clamped(bands)|
  {
    var s: seq<Band> :| PlacedFrom(s, bands, normalized);
    SortedInLimits(s, bands);
    forall i | 0 <= i < |s| ensures InLimits(normalized[i]) {
      PlacedIsInLimits(s, i, normalized[i]);
    }
    forall i | 0 <= i < |s| - 1 ensures normalized[i].frequency + MIN_SPACING <= normalized[i + 1].frequency {
      PlacedAreApart(s, i, normalized[i], normalized[i + 1]);
    }
  }

  function Tone(b: Band): (real, real) { (b.gain, b.q) }

  function Tones(bands: seq<Band>): seq<(real, real)> {
    seq(|bands|, i requires 0 <= i < |bands| => Tone(bands[i]))
  }

  lemma TonesWithout(bands: seq<Band>, k: nat)
    requires k < |bands|
    ensures multiset(Tones(bands)) == multiset(Tones(Without(bands, k))) + multiset{Tone(bands[k])}
  {
    assert Tones(bands) == Tones(bands[..k]) + [Tone(bands[k])] + Tones(bands[k + 1..]);
    assert Tones(Without(bands, k)) == Tones(bands[..k]) + Tones(bands[k + 1..]);
  }

  lemma {:induction false} EqualBagsHaveEqualTones(a: seq<Band>, b: seq<Band>)
    requires multiset(a) == multiset(b)
    ensures multiset(Tones(a)) == multiset(Tones(b))
    decreases |a|
  {
    SortKeepsLength(a, b);
    if a != [] {
      assert a[0] in multiset(b);
      var k :| 0 <= k < |b| && b[k] == a[0];
      BagWithout(a, 0);
      BagWithout(b, k);
      EqualBagsHaveEqualTones(Without(a, 0), Without(b, k));
      TonesWithout(a, 0);
      TonesWithout(b, k);
    }
  }

  /** Normalization moves bands along the frequency axis but keeps every band's gain and Q:
      the pairs of the result are a permutation of the clamped pairs of the input. */
  lemma NormalizationKeepsTones(bands: seq<Band>, normalized: seq<Band>)
    requires NormalizedFrom(bands, normalized)
    ensures multiset(Tones(normalized)) == multiset(Tones(Clamped(bands)))
  {
    var s: seq<Band> :| PlacedFrom(s, bands, normalized);
    EqualBagsHaveEqualTones(s, Clamped(bands));
    assert Tones(normalized) == Tones(s);
  }

  ghost predicate StrictlySorted(bands: seq<Band>) {
    forall i, j :: 0 <= i < j < |bands| ==> bands[i].frequency < bands[j].frequency
  }

  lemma SortOfStrictStartsTheSame(s: seq<Band>, bands: seq<Band>)
    requires IsSortOf(s, bands) && bands != [] && StrictlySorted(bands)
    ensures s != [] && s[0] == bands[0]
  {
    SortKeepsLength(s, bands);
    SortKeepsMembers(s, bands, 0);
    SortKeepsMembers(bands, s, 0);
  }

  lemma TailsAreSorted(s: seq<Band>, bands: seq<Band>)
    requires s != [] && bands != [] && SortedByFrequency(s) && StrictlySorted(bands)
    ensures SortedByFrequency(s[1..]) && StrictlySorted(bands[1..])
  {
    forall i, j | 0 <= i < j < |s[1..]| ensures s[1..][i].frequency <= s[1..][j].frequency {
      assert s[1..][i] == s[i + 1] && s[1..][j] == s[j + 1];
    }
    forall i, j | 0 <= i < j < |bands[1..]| ensures bands[1..][i].frequency < bands[1..][j].frequency {
      assert bands[1..][i] == bands[i + 1] && bands[1..][j] == bands[j + 1];
    }
  }

  lemma TailsHaveEqualBags(s: seq<Band>, bands: seq<Band>)
    requires s != [] && bands != [] && s[0] == bands[0] && multiset(s) == multiset(bands)
    ensures multiset(s[1..]) == multiset(bands[1..])
  {
    BagTail(s);
    BagTail(bands);
  }

  lemma BagTail<T>(a: seq<T>)
    requires a != []
    ensures multiset(a[1..]) == multiset(a) - multiset{a[0]}
  {
    assert a == [a[0]] + a[1..];
  }

  lemma {:induction false} SortOfStrictIsItself(s: seq<Band>, bands: seq<Band>)
    requires IsSortOf(s, bands) && StrictlySorted(bands)
    ensures s == bands
    decreases |bands|
  {
    SortKeepsLength(s, bands);
    if bands != [] {
      SortOfStrictStartsTheSame(s, bands);
      TailsAreSorted(s, bands);
      TailsHaveEqualBags(s, bands);
      SortOfStrictIsItself(s[1..], bands[1..]);
      assert s == [s[0]] + s[1..] && bands == [bands[0]] + bands[1..];
    }
  }

  /** In a valid layout no band is pushed and no ceiling is reached. */
  lemma PlacedOnValid(bands: seq<Band>, i: nat, b: Band)
    requires ValidLayout(bands) && i < |bands| && IsPlaced(bands, i, b)
    ensures b == bands[i]
  {
    var m: real :| IsRaised(bands, i, m) && b == bands[i].(frequency := Min(m, Ceiling(|bands|, i)));
    forall j: nat | j <= i ensures Pushed(bands, j, i) <= bands[i].frequency {
      SpacingAddsUp(bands, j, i);
    }
    assert Pushed(bands, i, i) == bands[i].frequency;
    SpacingAddsUp(bands, i, |bands| - 1);
  }

  lemma ValidIsItsSort(s: seq<Band>, bands: seq<Band>)
    requires ValidLayout(bands) && IsSortOf(s, Clamped(bands))
    ensures s == bands
  {
    assert Clamped(bands) == bands;
    forall i, j | 0 <= i < j < |bands| ensures bands[i].frequency < bands[j].frequency {
      SpacingAddsUp(bands, i, j);
    }
    SortOfStrictIsItself(s, bands);
  }

  /** A valid layout is left exactly as it is; so normalizing twice is normalizing once. */
  lemma NormalizationIsIdempotent(bands: seq<Band>, normalized: seq<Band>)
    requires ValidLayout(bands) && NormalizedFrom(bands, normalized)
    ensures normalized == bands
  {
    var s: seq<Band> :| PlacedFrom(s, bands, normalized);
    ValidIsItsSort(s, bands);
    forall i | 0 <= i < |bands| ensures normalized[i] == bands[i] {
      PlacedOnValid(bands, i, normalized[i]);
    }
  }

  lemma NormalizingTwiceIsNormalizingOnce(bands: seq<Band>, once: seq<Band>, twice: seq<Band>)
    requires NormalizedFrom(bands, once) && NormalizedFrom(once, twice)
    ensures twice == once
  {
    NormalizedIsValid(bands, once);
    NormalizationIsIdempotent(once, twice);
  }
}
