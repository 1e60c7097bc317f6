/** The linear ramp that smooths every user-visible audio parameter. */
module ParameterSmoother {
  import opened RealLemmas

  datatype Ramp = Ramp(current: real, target: real, remaining: nat)

  /** A ramp with nothing left to do has arrived. */
  predicate Coherent(r: Ramp) { r.remaining == 0 ==> r.current == r.target }

  function Ratio(k: nat, n: nat): real
    requires n > 0
  {
    k as real / n as real
  }

  function Advanced(r: Ramp, consumed: nat): Ramp {
    if r.remaining == 0 then r
    else if consumed >= r.remaining then Ramp(r.target, r.target, 0)
    else Ramp(r.current + Part(r.target - r.current, Ratio(consumed, r.remaining)), r.target, r.remaining - consumed)
  }

  function Still(value: real): Ramp { Ramp(value, value, 0) }

  /** A ramp sent to a new target from where it stands. */
  function Retargeted(r: Ramp, value: real, rampSamples: nat): (s: Ramp)
    ensures Coherent(s) && s.target == value && s.remaining == rampSamples
  {
    if rampSamples == 0 then Still(value) else Ramp(r.current, value, rampSamples)
  }

  class Smoother {
    var current: real
    var target: real
    var remaining: nat

    ghost function State(): Ramp
      reads this
    {
      Ramp(current, target, remaining)
    }

    constructor ()
      ensures State() == Still(0.0)
    {
      current, target, remaining := 0.0, 0.0, 0;
    }

    method Reset(value: real)
      modifies this
      ensures State() == Still(value)
    {
      current := value;
      target := value;
      remaining := 0;
    }

    method SetTarget(value: real, rampSamples: nat)
      modifies this
      ensures State() == Retargeted(old(State()), value, rampSamples)
    {
      target := value;
      if rampSamples == 0 {
        current := target;
        remaining := 0;
        return;
      }
      remaining := rampSamples;
    }

    method Advance(consumed: nat) returns (value: real)
      modifies this
      ensures State() == Advanced(old(State()), consumed) && value == current
    {
      if remaining == 0 {
        return current;
      }
      if consumed >= remaining {
        current := target;
        remaining := 0;
        return current;
      }
      var delta := target - current;
      current := current + delta * (consumed as real / remaining as real);
      remaining := remaining - consumed;
      return current;
    }
  }

  // ---------------------------------------------------------- chunking does not matter

  lemma RatioTimes(k: nat, n: nat)
    requires n > 0
    ensures Ratio(k, n) * n as real == k as real
  {
  }

  /** Shares of a whole: what is left after `a` of `n`, and `b` of the rest. */
  lemma SharesCompose(a: nat, b: nat, n: nat)
    requires a < n
    ensures Ratio(a, n) + (1.0 - Ratio(a, n)) * Ratio(b, n - a) == Ratio(a + b, n)
  {
    var x, y, z, m := Ratio(a, n), Ratio(b, n - a), Ratio(a + b, n), n as real;
    RatioTimes(a, n);
    RatioTimes(b, n - a);
    RatioTimes(a + b, n);
    assert (1.0 - x) * m == (n - a) as real by { assert (1.0 - x) * m == m - x * m; }
    assert ((1.0 - x) * y) * m == b as real by { assert ((1.0 - x) * y) * m == ((1.0 - x) * m) * y; }
    SameQuotient(x + (1.0 - x) * y, z, m);
  }

  lemma SameQuotient(p: real, q: real, m: real)
    requires m > 0.0 && p * m == q * m
    ensures p == q
  {
    if p < q { MulStrict(p, q, m); }
    if q < p { MulStrict(q, p, m); }
  }

  lemma InterpolationComposes(c: real, t: real, x: real, y: real, z: real)
    requires x + (1.0 - x) * y == z
    ensures (c + Part(t - c, x)) + Part(t - (c + Part(t - c, x)), y) == c + Part(t - c, z)
  {
    var d := t - c;
    assert t - (c + d * x) == d * (1.0 - x);
    assert (d * (1.0 - x)) * y == d * ((1.0 - x) * y);
    assert d * x + d * ((1.0 - x) * y) == d * (x + (1.0 - x) * y);
  }

  /** Two advances in a row are one advance by the sum. */
  lemma AdvancesCompose(r: Ramp, a: nat, b: nat)
    ensures Advanced(Advanced(r, a), b) == Advanced(r, a + b)
  {
    if a < r.remaining && a + b < r.remaining {
      SharesCompose(a, b, r.remaining);
      InterpolationComposes(r.current, r.target, Ratio(a, r.remaining), Ratio(b, r.remaining - a),
                            Ratio(a + b, r.remaining));
    }
  }

  function Sum(chunks: seq<nat>): nat {
    if chunks == [] then 0 else chunks[0] + Sum(chunks[1..])
  }

  function AdvancedBy(r: Ramp, chunks: seq<nat>): Ramp
    decreases |chunks|
  {
    if chunks == [] then r else AdvancedBy(Advanced(r, chunks[0]), chunks[1..])
  }

  /** How the ramp's samples are cut into chunks does not matter: only their sum does. */
  lemma {:induction false} ChunkingIsIrrelevant(r: Ramp, chunks: seq<nat>)
    requires Coherent(r)
    ensures AdvancedBy(r, chunks) == Advanced(r, Sum(chunks))
    decreases |chunks|
  {
    if chunks == [] {
      if r.remaining > 0 { RatioTimes(0, r.remaining); SameQuotient(Ratio(0, r.remaining), 0.0, r.remaining as real); }
    } else {
      ChunkingIsIrrelevant(Advanced(r, chunks[0]), chunks[1..]);
      AdvancesCompose(r, chunks[0], Sum(chunks[1..]));
    }
  }

  /** Where a ramp of `n` samples from `c` to `t` stands after `k` of them. */
  function Reached(c: real, t: real, k: nat, n: nat): real
    requires n > 0
  {
    if k < n then c + Part(t - c, Ratio(k, n)) else t
  }

  /** After any chunks adding up to `k`, a ramp of `n` samples stands at the share `k / n` of its
      way, at the target from `n` on, and never outside the interval it spans. */
  lemma RampClosedForm(r: Ramp, chunks: seq<nat>)
    requires Coherent(r) && r.remaining > 0
    ensures
      var now := AdvancedBy(r, chunks).current;
      && OnLine(r.current, r.target, Sum(chunks), r.remaining, now)
      && (r.current <= now <= r.target || r.target <= now <= r.current)
  {
    ChunkingIsIrrelevant(r, chunks);
    AdvancedReaches(r, Sum(chunks));
    StaysBetween(r.current, r.target, Sum(chunks), r.remaining);
    ReachedIsOnLine(r.current, r.target, Sum(chunks), r.remaining);
  }

  /** `now` is on the straight line from `c` to `t` after `k` of `n` steps, and at `t` from then on. */
  predicate OnLine(c: real, t: real, k: nat, n: nat, now: real) {
    if k < n then (now - c) * n as real == (t - c) * k as real else now == t
  }

  lemma ReachedIsOnLine(c: real, t: real, k: nat, n: nat)
    requires n > 0
    ensures OnLine(c, t, k, n, Reached(c, t, k, n))
  {
    if k < n { PartTimes(t - c, k, n); }
  }

  lemma PartTimes(d: real, k: nat, n: nat)
    requires n > 0
    ensures Part(d, Ratio(k, n)) * n as real == d * k as real
  {
    RatioTimes(k, n);
    var x, m := Ratio(k, n), n as real;
    assert (d * x) * m == d * (x * m);
  }

  /** A ramp that is given a new target, wherever it stands, goes there in a straight line. */
  lemma RetargetedIsStraight(r: Ramp, value: real, rampSamples: nat, chunks: seq<nat>)
    ensures
      OnLine(r.current, value, Sum(chunks), rampSamples, AdvancedBy(Retargeted(r, value, rampSamples), chunks).current)
  {
    if rampSamples > 0 {
      RampClosedForm(Retargeted(r, value, rampSamples), chunks);
    } else {
      ChunkingIsIrrelevant(Still(value), chunks);
    }
  }

  lemma AdvancedReaches(r: Ramp, k: nat)
    requires r.remaining > 0
    ensures Advanced(r, k).current == Reached(r.current, r.target, k, r.remaining)
  {
  }

  lemma StaysBetween(c: real, t: real, k: nat, n: nat)
    requires n > 0
    ensures c <= Reached(c, t, k, n) <= t || t <= Reached(c, t, k, n) <= c
  {
    if k < n {
      RatioIsShare(k, n);
      PartIsBetween(t - c, Ratio(k, n));
    }
  }

  lemma RatioIsShare(k: nat, n: nat)
    requires k <= n && n > 0
    ensures 0.0 <= Ratio(k, n) <= 1.0
  {
    RatioTimes(k, n);
    var x, m := Ratio(k, n), n as real;
    if x < 0.0 { MulStrict(x, 0.0, m); }
    if x > 1.0 { MulStrict(1.0, x, m); }
  }
}
