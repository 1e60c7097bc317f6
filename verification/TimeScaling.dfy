/**
 Exact scaling of a performance counter to 100 ns ticks with 64-bit words only: a
 64 by 64 to 128-bit product, and a binary search in place of a 128-bit division.
 */
module TimeScaling {
  import opened IntLemmas
  import opened Wrappers

  const TWO32: int := 0x1_0000_0000
  const TWO64: int := 0x1_0000_0000_0000_0000
  const MAX64: int := TWO64 - 1
  const TICKS_PER_SECOND: u64 := 10_000_000

  type u64 = x: int | 0 <= x < 0x1_0000_0000_0000_0000
  type i64 = x: int | -0x8000_0000_0000_0000 <= x < 0x8000_0000_0000_0000

  /** Unsigned arithmetic keeps the low 64 bits. */
  function Wrap(x: int): u64 { x % TWO64 }

  function Add(a: u64, b: u64): u64 { Wrap(a + b) }
  function Sub(a: u64, b: u64): u64 { Wrap(a - b) }
  function Mul(a: u64, b: u64): u64 { Wrap(a * b) }

  // ------------------------------------------------------------------ bitwise operators

  function Pow2(k: nat): (p: nat)
    ensures p > 0
  {
    if k == 0 then 1 else 2 * Pow2(k - 1)
  }

  lemma Pow2Of32()
    ensures Pow2(32) == TWO32
  {
    assert Pow2(8) == 0x100;
    assert Pow2(16) == 0x1_0000;
    assert Pow2(24) == 0x100_0000;
  }

  /** `a | b`, bit by bit. */
  function Or(a: nat, b: nat): nat {
    if a == 0 && b == 0 then 0 else 2 * Or(a / 2, b / 2) + if a % 2 == 1 || b % 2 == 1 then 1 else 0
  }

  /** `a & b`, bit by bit. */
  function And(a: nat, b: nat): nat {
    if a == 0 || b == 0 then 0 else 2 * And(a / 2, b / 2) + if a % 2 == 1 && b % 2 == 1 then 1 else 0
  }

  lemma {:induction false} OrOfNothing(a: nat)
    ensures Or(a, 0) == a
  {
    if a > 0 { OrOfNothing(a / 2); }
  }

  /** Where the set bits of two numbers do not overlap, `|` adds them. */
  lemma {:induction false} OrJoins(a: nat, low: nat, k: nat)
    requires low < Pow2(k)
    ensures Or(a * Pow2(k), low) == a * Pow2(k) + low
  {
    if k == 0 {
      OrOfNothing(a);
    } else {
      var half := a * Pow2(k - 1);
      assert a * Pow2(k) == 2 * half;
      OrJoins(a, low / 2, k - 1);
    }
  }

  /** Masking the low `k` bits leaves the remainder of division by 2^k. */
  lemma {:induction false} AndMasks(a: nat, k: nat)
    ensures And(a, Pow2(k) - 1) == a % Pow2(k)
  {
    if k > 0 {
      AndMasks(a / 2, k - 1);
      RemainderByTwice(a, Pow2(k - 1));
    }
  }

  lemma RemainderByTwice(a: nat, p: nat)
    requires p > 0
    ensures a % (2 * p) == 2 * ((a / 2) % p) + a % 2
  {
    var h := a / 2;
    var r := 2 * (h % p) + a % 2;
    assert h == h / p * p + h % p;
    assert a == h / p * (2 * p) + r;
    RemainderIs(a, 2 * p, h / p, r);
  }

  lemma LowIsRemainder(a: nat)
    ensures And(a, TWO32 - 1) == a % TWO32
  {
    Pow2Of32();
    AndMasks(a, 32);
  }

  /** Joining a shifted word, its upper half fallen off, and a half word by `|` is adding them. */
  lemma OrJoinsHalves(a: nat, low: nat)
    requires low < TWO32
    ensures Or(Wrap(a * TWO32), low) == Wrap(a * TWO32) + low < TWO64
  {
    Pow2Of32();
    OrJoins(a % TWO32, low, 32);
    ShiftedIs(a);
  }

  lemma ShiftedIs(a: nat)
    ensures Wrap(a * TWO32) == (a % TWO32) * TWO32
  {
  }

  /** `a & 0xFFFFFFFF` */
  function Low(a: u64): (w: u64)
    ensures w == a % TWO32
  {
    LowIsRemainder(a);
    And(a, TWO32 - 1)
  }

  /** `a >> 32` */
  function High(a: u64): u64 { a / TWO32 }

  /** `(a << 32) | low` */
  function Join(a: u64, low: u64): (w: u64)
    requires low < TWO32
    ensures w == Wrap(a * TWO32) + low
  {
    OrJoinsHalves(a, low);
    Or(Wrap(a * TWO32), low)
  }

  /** A 128-bit value as two words. */
  datatype Parts = Parts(high: u64, low: u64) {
    function Value(): nat { high * TWO64 + low }
  }

  function MultiplyU64(left: u64, right: u64): Parts {
    var lowLow := Mul(Low(left), Low(right));
    var lowHigh := Mul(Low(left), High(right));
    var highLow := Mul(High(left), Low(right));
    var highHigh := Mul(High(left), High(right));
    var carry := Add(Add(High(lowLow), Low(lowHigh)), Low(highLow));
    Parts(Add(Add(Add(highHigh, High(lowHigh)), High(highLow)), High(carry)), Join(carry, Low(lowLow)))
  }

  function LessOrEqual(left: Parts, right: Parts): bool {
    left.high < right.high || (left.high == right.high && left.low <= right.low)
  }

  lemma ProductBound(a: int, b: int, m: int)
    requires 0 <= a <= m && 0 <= b <= m
    ensures 0 <= a * b <= m * m
  {
    ProductGrows(a, m, b);
    ProductGrows(b, m, m);
  }

  /** A product of two 32-bit halves does not wrap. */
  lemma HalfProductFits(a: u64, b: u64)
    requires a < TWO32 && b < TWO32
    ensures Mul(a, b) == a * b <= (TWO32 - 1) * (TWO32 - 1)
  {
    ProductBound(a, b, TWO32 - 1);
  }

  lemma ProductOfHalves(left: int, right: int, lh: int, ll: int, rh: int, rl: int)
    requires left == lh * TWO32 + ll && right == rh * TWO32 + rl
    ensures left * right == (lh * rh) * TWO64 + (ll * rh + lh * rl) * TWO32 + ll * rl
  {
    calc {
      left * right;
      (lh * TWO32 + ll) * (rh * TWO32 + rl);
      (lh * TWO32) * (rh * TWO32 + rl) + ll * (rh * TWO32 + rl);
      (lh * TWO32) * (rh * TWO32) + (lh * TWO32) * rl + ll * (rh * TWO32) + ll * rl;
      { assert (lh * TWO32) * (rh * TWO32) == (lh * rh) * TWO64;
        assert (lh * TWO32) * rl == (lh * rl) * TWO32;
        assert ll * (rh * TWO32) == (ll * rh) * TWO32; }
      (lh * rh) * TWO64 + (ll * rh + lh * rl) * TWO32 + ll * rl;
    }
  }

  lemma AddFits(a: u64, b: u64)
    requires a + b < TWO64
    ensures Add(a, b) == a + b
  {
  }

  /** Adding up the four partial products with their carries loses nothing. */
  lemma CarriesAddUp(lowLow: int, lowHigh: int, highLow: int, highHigh: int, carry: int)
    requires lowLow >= 0 && lowHigh >= 0 && highLow >= 0 && highHigh >= 0
    requires carry == lowLow / TWO32 + lowHigh % TWO32 + highLow % TWO32
    ensures (highHigh + lowHigh / TWO32 + highLow / TWO32 + carry / TWO32) * TWO64
            + (carry * TWO32) % TWO64 + lowLow % TWO32
            == highHigh * TWO64 + (lowHigh + highLow) * TWO32 + lowLow
  {
    var q, r := carry / TWO32, carry % TWO32;
    assert carry * TWO32 == q * TWO64 + r * TWO32;
    assert (carry * TWO32) % TWO64 == r * TWO32;
  }

  /** The sums of `MultiplyU64` stay within 64 bits because the product stays within 128. */
  lemma SumsDoNotWrap(lowLow: u64, lowHigh: u64, highLow: u64, highHigh: u64)
    requires lowLow <= (TWO32 - 1) * (TWO32 - 1)
    requires highHigh * TWO64 + (lowHigh + highLow) * TWO32 + lowLow < TWO64 * TWO64
    ensures
      var carry := Add(Add(High(lowLow), Low(lowHigh)), Low(highLow));
      Parts(Add(Add(Add(highHigh, High(lowHigh)), High(highLow)), High(carry)), Join(carry, Low(lowLow))).Value()
      == highHigh * TWO64 + (lowHigh + highLow) * TWO32 + lowLow
  {
    var carry := lowLow / TWO32 + lowHigh % TWO32 + highLow % TWO32;
    CarriesAddUp(lowLow, lowHigh, highLow, highHigh, carry);
    var high := highHigh + lowHigh / TWO32 + highLow / TWO32 + carry / TWO32;
    assert high < TWO64;
    AddFits(High(lowLow), Low(lowHigh));
    AddFits(High(lowLow) + Low(lowHigh), Low(highLow));
    AddFits(highHigh, High(lowHigh));
    AddFits(highHigh + High(lowHigh), High(highLow));
    AddFits(highHigh + High(lowHigh) + High(highLow), High(carry));
  }

  /** The two words hold the whole product: no carry is lost and nothing but the intended
      shift wraps. */
  lemma MultiplyIsExact(left: u64, right: u64)
    ensures MultiplyU64(left, right).Value() == left * right
  {
    var ll, lh, rl, rh := Low(left), High(left), Low(right), High(right);
    HalfProductFits(ll, rl);
    HalfProductFits(ll, rh);
    HalfProductFits(lh, rl);
    HalfProductFits(lh, rh);
    ProductOfHalves(left, right, lh, ll, rh, rl);
    ProductBound(left, right, MAX64);
    SumsDoNotWrap(Mul(ll, rl), Mul(ll, rh), Mul(lh, rl), Mul(lh, rh));
  }

  /** Comparing words compares values. */
  lemma LessOrEqualComparesValues(left: Parts, right: Parts)
    ensures LessOrEqual(left, right) <==> left.Value() <= right.Value()
  {
  }

  /** The midpoint the search tries, in 64-bit arithmetic. */
  function Candidate(lower: u64, upper: u64): u64 {
    Add(lower, Add(Sub(upper, lower), 1) / 2)
  }

  /** One turn of the search, given whether the candidate's product fits. */
  function Narrow(lower: u64, upper: u64, fits: bool): (u64, u64) {
    if fits then (Candidate(lower, upper), upper) else (lower, Sub(Candidate(lower, upper), 1))
  }

  lemma SubFits(a: u64, b: u64)
    requires b <= a
    ensures Sub(a, b) == a - b
  {
  }

  lemma HalfFits(gap: nat)
    requires gap > 0
    ensures 0 < (gap + 1) / 2 <= gap
  {
  }

  lemma CandidateIsInRange(lower: u64, upper: u64)
    requires lower < upper && !(lower == 0 && upper == MAX64)
    ensures lower < Candidate(lower, upper) <= upper
  {
    var gap := upper - lower;
    SubFits(upper, lower);
    AddFits(gap, 1);
    HalfFits(gap);
    AddFits(lower, (gap + 1) / 2);
  }

  /** The search stands still exactly on the full 64-bit range, where `upper - lower + 1` wraps
      to zero: a multiplier of 2^64-1 would loop forever. */
  lemma NarrowStallsOnlyOnFullRange(lower: u64, upper: u64, fits: bool)
    requires lower < upper
    ensures Narrow(lower, upper, fits) == (lower, upper) <==> lower == 0 && upper == MAX64
  {
    if lower == 0 && upper == MAX64 {
      assert Candidate(lower, upper) == 0;
    } else {
      CandidateIsInRange(lower, upper);
      assert Sub(Candidate(lower, upper), 1) == Candidate(lower, upper) - 1;
    }
  }

  /** Does the candidate's product with the divisor fit under `product`? */
  method Fits(candidate: u64, divisor: u64, product: Parts) returns (fits: bool)
    ensures fits <==> candidate * divisor <= product.Value()
  {
    fits := LessOrEqual(MultiplyU64(candidate, divisor), product);
    MultiplyIsExact(candidate, divisor);
    LessOrEqualComparesValues(MultiplyU64(candidate, divisor), product);
  }

  /** The search's invariant: the floor of `product / divisor` lies between `lower` and `upper`. */
  ghost predicate Brackets(lower: int, upper: int, divisor: int, product: int) {
    lower * divisor <= product < (upper + 1) * divisor
  }

  /** A proper fraction of the multiplier is bracketed by zero and the multiplier. */
  lemma FractionIsBracketed(remainder: int, multiplier: int, divisor: int)
    requires 0 <= remainder < divisor && 0 <= multiplier
    ensures Brackets(0, multiplier, divisor, remainder * multiplier)
  {
    assert remainder * multiplier >= 0;
    ProductGrows(remainder, divisor, multiplier);
    assert (multiplier + 1) * divisor == divisor * multiplier + divisor;
  }

  /** The body of the loop: one turn keeps the bracket and shrinks it. */
  method NarrowBracket(low: u64, high: u64, divisor: u64, product: Parts) returns (lower: u64, upper: u64)
    requires low < high < MAX64 && Brackets(low, high, divisor, product.Value())
    ensures (lower, upper) == Narrow(low, high, Candidate(low, high) * divisor <= product.Value())
    ensures low <= lower <= upper <= high && upper - lower < high - low
    ensures Brackets(lower, upper, divisor, product.Value())
  {
    var candidate := Midpoint(low, high);
    var fits := Fits(candidate, divisor, product);
    lower := if fits then candidate else low;
    upper := if fits then high else Predecessor(candidate);
  }

  method Midpoint(lower: u64, upper: u64) returns (candidate: u64)
    requires lower < upper < MAX64
    ensures candidate == Candidate(lower, upper) && lower < candidate <= upper
  {
    candidate := Candidate(lower, upper);
    CandidateIsInRange(lower, upper);
  }

  function Predecessor(x: u64): (y: u64)
    requires x > 0
    ensures y == x - 1
  {
    Sub(x, 1)
  }

  /** The binary search finds the exact floor of `remainder * multiplier / divisor`. */
  method ScaleRemainder(remainder: u64, multiplier: u64, divisor: u64) returns (lower: u64)
    requires remainder < divisor && multiplier < MAX64
    ensures lower == remainder * multiplier / divisor && lower <= multiplier
  {
    var product := MultiplyU64(remainder, multiplier);
    MultiplyIsExact(remainder, multiplier);
    FractionIsBracketed(remainder, multiplier, divisor);
    lower := Search(multiplier, divisor, product);
    FloorIsUnique(product.Value(), divisor, lower);
  }

  /** The loop of the search. */
  method Search(multiplier: u64, divisor: u64, product: Parts) returns (lower: u64)
    requires multiplier < MAX64 && Brackets(0, multiplier, divisor, product.Value())
    ensures lower <= multiplier && Brackets(lower, lower, divisor, product.Value())
  {
    lower := 0;
    var upper := multiplier;
    while lower < upper
      invariant lower <= upper <= multiplier
      invariant Brackets(lower, upper, divisor, product.Value())
      decreases upper - lower
    {
      lower, upper := NarrowBracket(lower, upper, divisor, product);
    }
  }

  /** Splitting off the whole part before scaling does not change the floor. */
  lemma ScaleSplits(counter: int, frequency: int, multiplier: int)
    requires counter >= 0 && frequency > 0 && multiplier >= 0
    ensures counter * multiplier / frequency
            == (counter / frequency) * multiplier + (counter % frequency) * multiplier / frequency
  {
    var q, r := counter / frequency, counter % frequency;
    var t := r * multiplier / frequency;
    QuotientIs(r * multiplier, frequency);
    SplitProduct(counter, q, r, frequency, multiplier);
    Distributes(q * multiplier, t, frequency);
    Distributes(q * multiplier, t + 1, frequency);
    assert q * multiplier + (t + 1) == q * multiplier + t + 1;
    FloorIsUnique(counter * multiplier, frequency, q * multiplier + t);
  }

  lemma SplitProduct(x: int, q: int, r: int, d: int, m: int)
    requires x == q * d + r
    ensures x * m == (q * m) * d + r * m
  {
    Distributes(q * d, r, m);
    assert (q * d) * m == (q * m) * d;
  }

  /** The conversion returns the exact floor, and nothing exactly when the inputs are out of
      domain or the floor does not fit 64 bits. */
  method ScaleQpcTo100ns(counter: i64, frequency: i64) returns (ticks: Option<u64>)
    ensures ticks ==
            if counter < 0 || frequency <= 0 || counter * TICKS_PER_SECOND / frequency > MAX64 then None
            else Some(counter * TICKS_PER_SECOND / frequency)
  {
    if counter < 0 || frequency <= 0 {
      return None;
    }
    ScaleSplits(counter, frequency, TICKS_PER_SECOND);
    ticks := ScaleParts(counter / frequency, counter % frequency, frequency);
  }

  /** The conversion once the counter is split into whole seconds and the rest. */
  method ScaleParts(quotient: u64, remainder: u64, frequency: u64) returns (ticks: Option<u64>)
    requires remainder < frequency
    ensures
      var total := quotient * TICKS_PER_SECOND + remainder * TICKS_PER_SECOND / frequency;
      ticks == if 0 <= total <= MAX64 then Some(total) else None
  {
    if quotient > MAX64 / TICKS_PER_SECOND {
      assert remainder * TICKS_PER_SECOND / frequency >= 0;
      return None;
    }
    var whole := Mul(quotient, TICKS_PER_SECOND);
    var fractional := ScaleRemainder(remainder, TICKS_PER_SECOND, frequency);
    ticks := Sum(whole, fractional);
  }

  /** The sum of two words, unless it does not fit. */
  method Sum(whole: u64, fractional: u64) returns (ticks: Option<u64>)
    ensures ticks == if whole + fractional <= MAX64 then Some(whole + fractional) else None
  {
    if whole > Sub(MAX64, fractional) {
      return None;
    }
    return Some(Add(whole, fractional));
  }
}
