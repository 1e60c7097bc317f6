/** The equalizer part of a playback session: every edit keeps one invariant. */
module EqualizerSession {
  import opened EqualizerTypes
  import opened EqualizerLayout
  import opened Equalizer
  import opened EqualizerPresets

  /** Why an edit was refused. */
  datatype Outcome = Done | Closed | BadIndex | UnknownPreset | TooManyBands | NoSlot | NotMovable

  /** The state a host may restore. */
  datatype SavedState = SavedState(enabled: bool, bands: seq<Band>, lastNonflat: seq<real>, outputGain: real)

  /** The frequencies a new band may take between its neighbours at `index`. */
  function SlotLow(bands: seq<Band>, index: nat): real
    requires index <= |bands|
  {
    if index > 0 then Max(MIN_FREQUENCY, bands[index - 1].frequency + MIN_SPACING) else MIN_FREQUENCY
  }

  function SlotHigh(bands: seq<Band>, index: nat): real
    requires index <= |bands|
  {
    if index < |bands| then Min(MAX_FREQUENCY, bands[index].frequency - MIN_SPACING) else MAX_FREQUENCY
  }

  function Inserted(bands: seq<Band>, index: nat, b: Band): seq<Band>
    requires index <= |bands|
  {
    bands[..index] + [b] + bands[index..]
  }

  /** A band inserted at `index` keeps the layout valid exactly when its frequency lies in the slot. */
  lemma SlotIsExact(bands: seq<Band>, index: nat, b: Band)
    requires ValidLayout(bands) && |bands| < MAX_BAND_COUNT && index <= |bands|
    requires MIN_GAIN <= b.gain <= MAX_GAIN && MIN_Q <= b.q <= MAX_Q
    ensures ValidLayout(Inserted(bands, index, b)) <==> SlotLow(bands, index) <= b.frequency <= SlotHigh(bands, index)
  {
    var r := Inserted(bands, index, b);
    if index > 0 { assert InLimits(bands[index - 1]) && r[index - 1] == bands[index - 1]; }
    if index < |bands| { assert InLimits(bands[index]) && r[index + 1] == bands[index]; }
    if ValidLayout(r) {
      assert InLimits(r[index]);
      if index > 0 { assert r[index - 1].frequency + MIN_SPACING <= r[index - 1 + 1].frequency; }
      if index < |bands| { assert r[index].frequency + MIN_SPACING <= r[index + 1].frequency; }
    }
    if SlotLow(bands, index) <= b.frequency <= SlotHigh(bands, index) {
      forall i | 0 <= i < |r| ensures InLimits(r[i]) {
        assert r[i] == if i < index then bands[i] else if i == index then b else bands[i - 1];
      }
      forall i | 0 <= i < |r| - 1 ensures r[i].frequency + MIN_SPACING <= r[i + 1].frequency {
        if i + 1 < index { assert bands[i].frequency + MIN_SPACING <= bands[i + 1].frequency; }
        if i > index { assert bands[i - 1].frequency + MIN_SPACING <= bands[i - 1 + 1].frequency; }
      }
    }
  }

  lemma RemovalKeepsLayout(bands: seq<Band>, index: nat)
    requires ValidLayout(bands) && index < |bands|
    ensures ValidLayout(bands[..index] + bands[index + 1..])
  {
    var r := bands[..index] + bands[index + 1..];
    forall i | 0 <= i < |r| - 1 ensures r[i].frequency + MIN_SPACING <= r[i + 1].frequency {
      assert r[i] == bands[if i < index then i else i + 1] && r[i + 1] == bands[if i + 1 < index then i + 1 else i + 2];
      SpacingAddsUp(bands, if i < index then i else i + 1, if i + 1 < index then i + 1 else i + 2);
    }
  }

  lemma ReplacingKeepsLayout(bands: seq<Band>, index: nat, b: Band)
    requires ValidLayout(bands) && index < |bands| && InLimits(b) && b.frequency == bands[index].frequency
    ensures ValidLayout(bands[index := b])
  {
    var r := bands[index := b];
    forall i | 0 <= i < |r| - 1 ensures r[i].frequency + MIN_SPACING <= r[i + 1].frequency {
      assert bands[i].frequency + MIN_SPACING <= bands[i + 1].frequency;
    }
  }

  /** What `update_last_nonflat_state_locked` leaves behind. */
  function Remembered(memory: seq<real>, bands: seq<Band>): (r: seq<real>)
    ensures |r| == |bands|
  {
    if NonFlat(bands) then Gains(bands)
    else if |memory| == |bands| then memory
    else seq(|bands|, _ => 0.0)
  }

  /** The memory has one gain per band, and mirrors the bands whenever they are not flat. */
  ghost predicate Remembers(memory: seq<real>, bands: seq<Band>) {
    |memory| == |bands| && (NonFlat(bands) ==> memory == Gains(bands))
  }

  /** The active preset is the custom placeholder exactly when no built-in preset fits the
      layout, and otherwise one that does. */
  ghost predicate PresetTells(c: Scale, presets: seq<Preset>, bands: seq<Band>, active: PresetId) {
    if active == Custom then !SomePresetFits(c, presets, bands)
    else exists i :: 0 <= i < |presets| && presets[i].id == active && Carries(c, bands, presets[i])
  }

  /** Preset `i` fits the layout, and no built-in preset before it does. */
  ghost predicate FitsFirst(c: Scale, presets: seq<Preset>, bands: seq<Band>, i: nat)
    requires i < |presets|
  {
    && presets[i].id != Custom && Carries(c, bands, presets[i])
    && forall k :: 0 <= k < i ==> presets[k].id == Custom || !Carries(c, bands, presets[k])
  }

  /** The active preset is the first built-in one that fits the layout, or the custom placeholder if none does. */
  ghost predicate Picked(c: Scale, presets: seq<Preset>, bands: seq<Band>, active: PresetId) {
    if active == Custom then !SomePresetFits(c, presets, bands)
    else exists i :: 0 <= i < |presets| && presets[i].id == active && FitsFirst(c, presets, bands, i)
  }

  lemma PickedTells(c: Scale, presets: seq<Preset>, bands: seq<Band>, active: PresetId)
    requires Picked(c, presets, bands, active)
    ensures PresetTells(c, presets, bands, active)
  {
  }

  /** A saved memory clamped and cut or zero-padded to `n` bands. */
  function Restored(saved: seq<real>, n: nat): (r: seq<real>)
    ensures |r| == n
  {
    seq(n, i requires 0 <= i < n => if i < |saved| then Clamp(saved[i], MIN_GAIN, MAX_GAIN) else 0.0)
  }

  ghost predicate HasPreset(presets: seq<Preset>, id: PresetId) {
    exists i :: 0 <= i < |presets| && presets[i].id == id
  }

  /** `after` is `before` with the gains of the preset's projected curve. */
  ghost predicate CurveTaken(c: Scale, presets: seq<Preset>, id: PresetId, before: seq<Band>, after: seq<Band>) {
    exists i :: 0 <= i < |presets| && presets[i].id == id
      && after == WithGains(before, ProjectGains(c, presets[i].gains, before))
  }

  class Session {
    const scale: Scale
    const presets: seq<Preset>
    var closed: bool
    var enabled: bool
    var bands: seq<Band>
    var lastNonflat: seq<real>
    var activePreset: PresetId
    var outputGain: real
    var version: nat

    /** The invariant of every run of edits. */
    ghost predicate Valid()
      reads this
    {
      && scale.Valid() && ValidPresets(presets)
      && ValidLayout(bands)
      && Remembers(lastNonflat, bands)
      && PresetTells(scale, presets, bands, activePreset)
      && MIN_GAIN <= outputGain <= MAX_GAIN
    }

    /** What the active preset says about the bands, after any run of edits: it is the placeholder
        exactly when no built-in preset fits, it is flat only while no gain exceeds the tolerance,
        and bands like that never count as custom. */
    lemma ActivePresetTells()
      requires Valid()
      ensures activePreset == Custom <==> !SomePresetFits(scale, presets, bands)
      ensures activePreset == Flat ==> !NonFlat(bands)
      ensures !NonFlat(bands) ==> activePreset != Custom
    {
      var flat :| 0 <= flat < |presets| && presets[flat].id == Flat && GainsWithin(presets[flat].gains, 0.0, 0.0);
      var zeros := ProjectGains(scale, presets[flat].gains, bands);
      forall i | 0 <= i < |bands| ensures zeros[i] == 0.0 {
        FlatProjectsToZero(scale, presets[flat].gains, bands, i);
      }
      assert Carries(scale, bands, presets[flat]) <==> !NonFlat(bands);
    }

    constructor (scale: Scale, presets: seq<Preset>)
      requires scale.Valid() && ValidPresets(presets)
      ensures Valid() && this.scale == scale && this.presets == presets
      ensures !closed && !enabled && outputGain == 0.0 && activePreset == Flat
      ensures bands == DefaultBands(scale, MAX_BAND_COUNT)
    {
      this.scale := scale;
      this.presets := presets;
      closed, enabled := false, false;
      bands := DefaultBands(scale, MAX_BAND_COUNT);
      lastNonflat := seq(MAX_BAND_COUNT, _ => 0.0);
      activePreset := Flat;
      outputGain := 0.0;
      version := 0;
      new;
      DefaultBandsAreValid(scale, MAX_BAND_COUNT);
      var flat :| 0 <= flat < |presets| && presets[flat].id == Flat && GainsWithin(presets[flat].gains, 0.0, 0.0);
      forall i | 0 <= i < MAX_BAND_COUNT ensures ProjectGains(scale, presets[flat].gains, bands)[i] == 0.0 {
        FlatProjectsToZero(scale, presets[flat].gains, bands, i);
      }
      assert Carries(scale, bands, presets[flat]);
    }

    /** Picks the first preset that fits the layout, or the custom placeholder. */
    method RecalculateActivePreset()
      modifies this`activePreset
      ensures Picked(scale, presets, bands, activePreset)
    {
      for i := 0 to |presets|
        invariant forall k :: 0 <= k < i ==> presets[k].id == Custom || !Carries(scale, bands, presets[k])
      {
        if presets[i].id == Custom {
          continue;
        }
        var projected := ProjectPresetGainsToBands(scale, presets[i].gains, bands);
        if BandGainsMatch(bands, projected) {
          activePreset := presets[i].id;
          assert Carries(scale, bands, presets[i]) && FitsFirst(scale, presets, bands, i);
          return;
        }
      }
      activePreset := Custom;
    }

    method UpdateLastNonflat()
      modifies this`lastNonflat
      ensures lastNonflat == Remembered(old(lastNonflat), bands) && Remembers(lastNonflat, bands)
    {
      if |lastNonflat| != |bands| {
        lastNonflat := seq(|bands|, _ => 0.0);
      }
      var flat := true;
      for i := 0 to |bands|
        invariant flat <==> forall k :: 0 <= k < i ==> Abs(bands[k].gain) <= TOLERANCE
      {
        if Abs(bands[i].gain) > TOLERANCE {
          flat := false;
          break;
        }
      }
      if flat {
        return;
      }
      ghost var before := lastNonflat;
      for i := 0 to |bands|
        invariant |lastNonflat| == |bands|
        invariant lastNonflat[..i] == Gains(bands)[..i]
      {
        lastNonflat := lastNonflat[i := bands[i].gain];
      }
    }

    /** What every change of the bands ends with. Neither step looks at what the other changes, so
        the order the edits run them in does not matter. */
    method Refresh()
      modifies this`lastNonflat, this`activePreset, this`version
      ensures lastNonflat == Remembered(old(lastNonflat), bands) && Remembers(lastNonflat, bands)
      ensures Picked(scale, presets, bands, activePreset) && PresetTells(scale, presets, bands, activePreset)
      ensures version == old(version) + 1
    {
      RecalculateActivePreset();
      PickedTells(scale, presets, bands, activePreset);
      UpdateLastNonflat();
      version := version + 1;
    }

    method ReplaceGains(gains: seq<real>)
      requires |gains| == |bands|
      modifies this`bands
      ensures bands == WithGains(old(bands), gains)
    {
      ghost var before := bands;
      for i := 0 to |bands|
        invariant |bands| == |before|
        invariant forall k :: 0 <= k < i ==> bands[k] == before[k].(gain := gains[k])
        invariant forall k :: i <= k < |bands| ==> bands[k] == before[k]
      {
        bands := bands[i := bands[i].(gain := gains[i])];
      }
    }

    method RestoreMemory(saved: seq<real>)
      modifies this`lastNonflat
      ensures lastNonflat == Restored(saved, |bands|)
    {
      lastNonflat := seq(|bands|, _ => 0.0);
      for i := 0 to |bands|
        invariant |lastNonflat| == |bands|
        invariant lastNonflat[..i] == Restored(saved, |bands|)[..i]
        invariant forall k :: i <= k < |bands| ==> lastNonflat[k] == 0.0
      {
        if i < |saved| {
          lastNonflat := lastNonflat[i := Clamp(saved[i], MIN_GAIN, MAX_GAIN)];
        }
      }
    }

    /** What closing the session means here: every later edit is refused. */
    method Close()
      requires Valid()
      modifies this`closed
      ensures Valid() && closed
    {
      closed := true;
    }

    method SetEnabled(value: bool) returns (r: Outcome)
      requires Valid()
      modifies this`enabled, this`version
      ensures Valid()
      ensures r == if old(closed) then Closed else Done
      ensures r == Done ==> enabled == value && version == old(version) + 1
      ensures r != Done ==> enabled == old(enabled) && version == old(version)
    {
      if closed { return Closed; }
      enabled := value;
      version := version + 1;
      return Done;
    }

    /** Takes over the projected curve of the preset at `index`. */
    method TakeOver(index: nat)
      requires Valid() && index < |presets| && presets[index].id != Custom
      modifies this`bands, this`lastNonflat, this`activePreset, this`version
      ensures Valid() && version == old(version) + 1
      ensures activePreset == presets[index].id && lastNonflat == Remembered(old(lastNonflat), bands)
      ensures bands == WithGains(old(bands), ProjectGains(scale, presets[index].gains, old(bands)))
    {
      assert GainsWithin(presets[index].gains, MIN_GAIN, MAX_GAIN);
      SelectingMakesCarried(scale, bands, presets[index]);
      var projected := ProjectPresetGainsToBands(scale, presets[index].gains, bands);
      ReplaceGains(projected);
      activePreset := presets[index].id;
      UpdateLastNonflat();
      version := version + 1;
    }

    method SelectPreset(id: PresetId) returns (r: Outcome)
      requires Valid()
      modifies this`bands, this`lastNonflat, this`activePreset, this`version
      ensures Valid()
      ensures r == if closed then Closed else if id == Custom || HasPreset(presets, id) then Done else UnknownPreset
      ensures r == Done && id != Custom ==>
                && activePreset == id && version == old(version) + 1
                && lastNonflat == Remembered(old(lastNonflat), bands)
                && CurveTaken(scale, presets, id, old(bands), bands)
      ensures r != Done || id == Custom ==>
                && bands == old(bands) && lastNonflat == old(lastNonflat) && activePreset == old(activePreset)
                && version == old(version)
    {
      if closed { return Closed; }
      if id == Custom { return Done; }
      var index := FindPreset(presets, id);
      if index == |presets| { return UnknownPreset; }
      TakeOver(index);
      return Done;
    }

    method SetBandGain(index: nat, gain: real) returns (r: Outcome)
      requires Valid()
      modifies this
      ensures Valid() && closed == old(closed) && enabled == old(enabled) && outputGain == old(outputGain)
      ensures r == if old(closed) then Closed else if index >= |old(bands)| then BadIndex else Done
      ensures bands == if r == Done
                       then old(bands)[index := old(bands)[index].(gain := Clamp(gain, MIN_GAIN, MAX_GAIN))]
                       else old(bands)
      ensures r == Done ==>
              lastNonflat == Remembered(old(lastNonflat), bands) && Picked(scale, presets, bands, activePreset)
      ensures r != Done ==> lastNonflat == old(lastNonflat) && activePreset == old(activePreset)
      ensures version == old(version) + if r == Done then 1 else 0
    {
      if closed { return Closed; }
      if index >= |bands| { return BadIndex; }
      ChangeGain(index, Clamp(gain, MIN_GAIN, MAX_GAIN));
      return Done;
    }

    /** Gives a band its new gain and brings preset and memory up to date. */
    method ChangeGain(index: nat, gain: real)
      requires Valid() && index < |bands| && MIN_GAIN <= gain <= MAX_GAIN
      modifies this`bands, this`lastNonflat, this`activePreset, this`version
      ensures Valid() && bands == old(bands)[index := old(bands)[index].(gain := gain)] && version == old(version) + 1
      ensures lastNonflat == Remembered(old(lastNonflat), bands) && Picked(scale, presets, bands, activePreset)
    {
      assert InLimits(bands[index]);
      ReplacingKeepsLayout(bands, index, bands[index].(gain := gain));
      bands := bands[index := bands[index].(gain := gain)];
      Refresh();
    }

    method SetBandQ(index: nat, q: real) returns (r: Outcome)
      requires Valid()
      modifies this
      ensures Valid() && closed == old(closed) && enabled == old(enabled) && outputGain == old(outputGain)
      ensures r == if old(closed) then Closed else if index >= |old(bands)| then BadIndex else Done
      ensures bands == if r == Done then old(bands)[index := old(bands)[index].(q := Clamp(q, MIN_Q, MAX_Q))]
              else old(bands)
      ensures lastNonflat == old(lastNonflat) && activePreset == old(activePreset)
      ensures version == old(version) + if r == Done then 1 else 0
    {
      if closed { return Closed; }
      if index >= |bands| { return BadIndex; }
      assert InLimits(bands[index]);
      ReplacingKeepsLayout(bands, index, bands[index].(q := Clamp(q, MIN_Q, MAX_Q)));
      bands := bands[index := bands[index].(q := Clamp(q, MIN_Q, MAX_Q))];
      version := version + 1;
      SameGainsSameVerdicts(scale, presets, old(bands), bands);
      return Done;
    }

    /** Puts a band into its slot and brings memory and preset up to date. */
    method InsertBand(index: nat, band: Band)
      requires Valid() && |bands| < MAX_BAND_COUNT && index <= |bands| && InLimits(band)
      requires SlotLow(bands, index) <= band.frequency <= SlotHigh(bands, index)
      modifies this`bands, this`lastNonflat, this`activePreset, this`version
      ensures Valid() && bands == Inserted(old(bands), index, band) && version == old(version) + 1
      ensures lastNonflat == Remembered(old(lastNonflat), bands) && Picked(scale, presets, bands, activePreset)
    {
      SlotIsExact(bands, index, band);
      bands := bands[..index] + [band] + bands[index..];
      Refresh();
    }

    /** Inserts a band before the first one at or above the clamped frequency, moved into the
        slot between its neighbours; refuses exactly when that slot is empty. */
    method AddBand(frequency: real, gain: real) returns (r: Outcome, index: nat)
      requires Valid()
      modifies this`bands, this`lastNonflat, this`activePreset, this`version
      ensures Valid()
      ensures r == Closed <==> closed
      ensures r == TooManyBands <==> !closed && |old(bands)| >= MAX_BAND_COUNT
      ensures r == Done || r == NoSlot ==>
                && IsInsertionPoint(old(bands), Clamp(frequency, MIN_FREQUENCY, MAX_FREQUENCY), index)
                && (r == NoSlot <==> SlotLow(old(bands), index) > SlotHigh(old(bands), index))
      ensures r == Done ==>
                bands == Inserted(old(bands), index, Band(
                  Clamp(Clamp(frequency, MIN_FREQUENCY, MAX_FREQUENCY), SlotLow(old(bands), index),
                        SlotHigh(old(bands), index)),
                  Clamp(gain, MIN_GAIN, MAX_GAIN), DEFAULT_Q))
      ensures r == Done ==>
              lastNonflat == Remembered(old(lastNonflat), bands) && Picked(scale, presets, bands, activePreset)
      ensures r != Done ==> bands == old(bands) && lastNonflat == old(lastNonflat) && activePreset == old(activePreset)
      ensures version == old(version) + if r == Done then 1 else 0
    {
      index := 0;
      if closed { return Closed, 0; }
      if |bands| >= MAX_BAND_COUNT { return TooManyBands, 0; }
      var clamped := Clamp(frequency, MIN_FREQUENCY, MAX_FREQUENCY);
      index := LowerBound(bands, clamped);
      var low := MIN_FREQUENCY;
      var high := MAX_FREQUENCY;
      if index > 0 {
        low := Max(low, bands[index - 1].frequency + MIN_SPACING);
      }
      if index < |bands| {
        high := Min(high, bands[index].frequency - MIN_SPACING);
      }
      if low > high { return NoSlot, index; }
      InsertBand(index, Band(Clamp(clamped, low, high), Clamp(gain, MIN_GAIN, MAX_GAIN), DEFAULT_Q));
      return Done, index;
    }

    method RemoveBand(index: nat) returns (r: Outcome)
      requires Valid()
      modifies this
      ensures Valid() && closed == old(closed) && enabled == old(enabled) && outputGain == old(outputGain)
      ensures r == if old(closed) then Closed else if index >= |old(bands)| then BadIndex else Done
      ensures bands == if r == Done then old(bands)[..index] + old(bands)[index + 1..] else old(bands)
      ensures r == Done ==>
              lastNonflat == Remembered(old(lastNonflat), bands) && Picked(scale, presets, bands, activePreset)
      ensures r != Done ==> lastNonflat == old(lastNonflat) && activePreset == old(activePreset)
      ensures version == old(version) + if r == Done then 1 else 0
    {
      if closed { return Closed; }
      if index >= |bands| { return BadIndex; }
      DropBand(index);
      return Done;
    }

    /** Takes a band out and brings memory and preset up to date. */
    method DropBand(index: nat)
      requires Valid() && index < |bands|
      modifies this`bands, this`lastNonflat, this`activePreset, this`version
      ensures Valid() && bands == old(bands)[..index] + old(bands)[index + 1..] && version == old(version) + 1
      ensures lastNonflat == Remembered(old(lastNonflat), bands) && Picked(scale, presets, bands, activePreset)
    {
      RemovalKeepsLayout(bands, index);
      bands := bands[..index] + bands[index + 1..];
      Refresh();
    }

    /** Moves a band within its editable range and brings preset and memory up to date. */
    method MoveBand(index: nat, target: real)
      requires Valid() && index < |bands| && ValidLayout(bands[index := bands[index].(frequency := target)])
      modifies this`bands, this`lastNonflat, this`activePreset, this`version
      ensures Valid() && bands == old(bands)[index := old(bands)[index].(frequency := target)]
              && version == old(version) + 1
      ensures lastNonflat == Remembered(old(lastNonflat), bands) && Picked(scale, presets, bands, activePreset)
    {
      bands := bands[index := bands[index].(frequency := target)];
      Refresh();
    }

    method SetBandFrequency(index: nat, frequency: real) returns (r: Outcome)
      requires Valid()
      modifies this
      ensures Valid() && closed == old(closed) && enabled == old(enabled) && outputGain == old(outputGain)
      ensures r == if old(closed) then Closed else if index >= |old(bands)| then BadIndex else Done
      ensures r == Done ==>
                var range := EditableFrequencyRange(old(bands), index);
                && range.Some? && range.value.low <= range.value.high
                && bands == old(bands)[index := old(bands)[index].(frequency :=
                               Clamp(frequency, range.value.low, range.value.high))]
      ensures r != Done ==> bands == old(bands)
      ensures r == Done ==>
              lastNonflat == Remembered(old(lastNonflat), bands) && Picked(scale, presets, bands, activePreset)
      ensures r != Done ==> lastNonflat == old(lastNonflat) && activePreset == old(activePreset)
      ensures version == old(version) + if r == Done then 1 else 0
    {
      if closed { return Closed; }
      if index >= |bands| { return BadIndex; }
      var range := EditableFrequencyRange(bands, index);
      EditableRangeIsExact(bands, index, frequency);
      if range.None? { return NotMovable; }
      var target := Clamp(frequency, range.value.low, range.value.high);
      EditableRangeIsExact(bands, index, target);
      MoveBand(index, target);
      return Done;
    }

    /** The second half of a reset. The lock is released before it, so it may find the session
        closed or the bands edited; it keeps the invariant all the same. */
    method ClearOutputGain()
      requires Valid()
      modifies this`outputGain, this`version
      ensures Valid() && outputGain == 0.0 && version == old(version) + 1
    {
      outputGain := 0.0;
      version := version + 1;
    }

    /** A reset that nothing interrupts. */
    method Reset() returns (r: Outcome)
      requires Valid()
      modifies this
      ensures Valid() && closed == old(closed) && enabled == old(enabled)
      ensures r == if old(closed) then Closed else Done
      ensures r == Done ==>
                && outputGain == 0.0 && activePreset == Flat && !NonFlat(bands) && version == old(version) + 2
                && CurveTaken(scale, presets, Flat, old(bands), bands) && lastNonflat == old(lastNonflat)
      ensures r != Done ==>
                && bands == old(bands) && outputGain == old(outputGain) && activePreset == old(activePreset)
                && lastNonflat == old(lastNonflat) && version == old(version)
    {
      r := SelectPreset(Flat);
      if r != Done { return; }
      ClearOutputGain();
      ActivePresetTells();
    }

    method SetOutputGain(gain: real) returns (r: Outcome)
      requires Valid()
      modifies this`outputGain, this`version
      ensures Valid()
      ensures r == if old(closed) then Closed else Done
      ensures r == Done ==> outputGain == Clamp(gain, MIN_GAIN, MAX_GAIN) && version == old(version) + 1
      ensures r != Done ==> outputGain == old(outputGain) && version == old(version)
    {
      if closed { return Closed; }
      outputGain := Clamp(gain, MIN_GAIN, MAX_GAIN);
      version := version + 1;
      return Done;
    }

    /** Takes over requested bands, normalized, and a saved memory. */
    method Adopt(requested: seq<Band>, saved: seq<real>)
      requires |requested| <= MAX_BAND_COUNT
      modifies this`bands, this`lastNonflat, this`activePreset
      ensures NormalizedFrom(requested, bands) && ValidLayout(bands)
      ensures lastNonflat == Remembered(Restored(saved, |bands|), bands) && Remembers(lastNonflat, bands)
      ensures Picked(scale, presets, bands, activePreset) && PresetTells(scale, presets, bands, activePreset)
    {
      bands := NormalizeEqualizerBands(requested);
      NormalizedIsValid(requested, bands);
      RestoreMemory(saved);
      RecalculateActivePreset();
      PickedTells(scale, presets, bands, activePreset);
      UpdateLastNonflat();
    }

    method ApplyState(state: SavedState) returns (r: Outcome)
      requires Valid()
      modifies this
      ensures Valid() && closed == old(closed)
      ensures r == if old(closed) then Closed else if |state.bands| > MAX_BAND_COUNT then TooManyBands else Done
      ensures r == Done ==>
                && enabled == state.enabled && NormalizedFrom(state.bands, bands)
                && outputGain == Clamp(state.outputGain, MIN_GAIN, MAX_GAIN) && version == old(version) + 1
                && lastNonflat == Remembered(Restored(state.lastNonflat, |bands|), bands)
                && Picked(scale, presets, bands, activePreset)
      ensures r != Done ==>
                && enabled == old(enabled) && bands == old(bands) && lastNonflat == old(lastNonflat)
                && activePreset == old(activePreset) && outputGain == old(outputGain) && version == old(version)
    {
      if closed { return Closed; }
      if |state.bands| > MAX_BAND_COUNT { return TooManyBands; }
      TakeState(state);
      return Done;
    }

    method TakeState(state: SavedState)
      requires Valid() && |state.bands| <= MAX_BAND_COUNT
      modifies this`enabled, this`bands, this`lastNonflat, this`activePreset, this`outputGain, this`version
      ensures Valid() && NormalizedFrom(state.bands, bands)
      ensures enabled == state.enabled && outputGain == Clamp(state.outputGain, MIN_GAIN, MAX_GAIN)
              && version == old(version) + 1
      ensures lastNonflat == Remembered(Restored(state.lastNonflat, |bands|), bands)
      ensures Picked(scale, presets, bands, activePreset)
    {
      Adopt(state.bands, state.lastNonflat);
      enabled := state.enabled;
      outputGain := Clamp(state.outputGain, MIN_GAIN, MAX_GAIN);
      version := version + 1;
    }
  }

  /** Where `std::lower_bound` inserts a frequency into a layout. */
  predicate IsInsertionPoint(bands: seq<Band>, f: real, index: nat) {
    && index <= |bands|
    && (forall k :: 0 <= k < index ==> bands[k].frequency < f)
    && (index < |bands| ==> f <= bands[index].frequency)
  }

  method LowerBound(bands: seq<Band>, f: real) returns (index: nat)
    ensures IsInsertionPoint(bands, f, index)
  {
    index := 0;
    while index < |bands| && bands[index].frequency < f
      invariant index <= |bands|
      invariant forall k :: 0 <= k < index ==> bands[k].frequency < f
    {
      index := index + 1;
    }
  }

  /** Layouts with the same frequencies and gains carry the same presets. */
  lemma SameGainsSameVerdicts(c: Scale, presets: seq<Preset>, a: seq<Band>, b: seq<Band>)
    requires |a| == |b|
    requires forall i :: 0 <= i < |a| ==> a[i].frequency == b[i].frequency && a[i].gain == b[i].gain
    ensures forall p :: Carries(c, a, p) == Carries(c, b, p)
    ensures SomePresetFits(c, presets, a) == SomePresetFits(c, presets, b)
    ensures Gains(a) == Gains(b) && NonFlat(a) == NonFlat(b)
  {
    forall p: Preset ensures Carries(c, a, p) == Carries(c, b, p) {
      ProjectionIgnoresGains(c, p.gains, a, b);
      if Carries(c, a, p) || Carries(c, b, p) {
        forall i | 0 <= i < |a| ensures a[i].gain == b[i].gain { }
      }
    }
    if NonFlat(a) {
      var i :| 0 <= i < |a| && Abs(a[i].gain) > TOLERANCE;
      assert Abs(b[i].gain) > TOLERANCE;
    }
    if NonFlat(b) {
      var i :| 0 <= i < |b| && Abs(b[i].gain) > TOLERANCE;
      assert Abs(a[i].gain) > TOLERANCE;
    }
  }
}
