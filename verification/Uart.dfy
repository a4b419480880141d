/** The baud-rate divider search of the UART driver. */
module Uart {
  import opened Octets
  import opened Wrappers

  datatype BaudDividers = BaudDividers(predivider: u8, latch: u16, actual: u32, errorPpm: u32)

  function Denominator(divider: nat, baud: u32): nat {
    8 * divider * baud
  }

  /** The latch nearest to clock / (8 * divider * baud). */
  function RoundedLatch(clock: u32, baud: u32, divider: nat): nat
    requires 1 <= divider && 1 <= baud
  {
    var d := Denominator(divider, baud);
    DenominatorPositive(divider, baud);
    (clock + d / 2) / d
  }

  lemma DenominatorPositive(divider: nat, baud: u32)
    requires 1 <= divider && 1 <= baud
    ensures Denominator(divider, baud) == 8 * (divider * baud) >= 8
  {
    MulMonotone(1, divider, baud);
  }

  function Distance(a: int, b: int): nat {
    if a <= b then b - a else a - b
  }

  predicate Usable(clock: u32, baud: u32, divider: nat)
    requires 1 <= baud
  {
    1 <= divider <= 128 && 1 <= RoundedLatch(clock, baud, divider) <= 0xffff
  }

  function Actual(clock: u32, divider: nat, latch: nat): nat
    requires 1 <= divider && 1 <= latch
  {
    MulMonotone(1, latch, 8 * divider);
    clock / (8 * divider * latch)
  }

  function ErrorPpm(actual: nat, baud: u32): nat
    requires 1 <= baud
  {
    Distance(actual, baud) * 1_000_000 / baud
  }

  function CandidateError(clock: u32, baud: u32, divider: nat): nat
    requires 1 <= baud && Usable(clock, baud, divider)
  {
    ErrorPpm(Actual(clock, divider, RoundedLatch(clock, baud, divider)), baud)
  }

  /** `divider` is the smallest of the least-error usable dividers not above `limit`. */
  ghost predicate Best(clock: u32, baud: u32, limit: nat, divider: nat)
    requires 1 <= baud
  {
    && Usable(clock, baud, divider)
    && divider <= limit
    && forall other: nat :: other <= limit && Usable(clock, baud, other) ==>
         && CandidateError(clock, baud, divider) <= CandidateError(clock, baud, other)
         && (other < divider ==> CandidateError(clock, baud, divider) < CandidateError(clock, baud, other))
  }

  /** The stored register pair describes `divider`, with 128 stored as zero. */
  ghost predicate Describes(b: BaudDividers, clock: u32, baud: u32, divider: nat)
    requires 1 <= baud
  {
    && Usable(clock, baud, divider)
    && b.predivider == (if divider == 128 then 0 else divider)
    && b.latch == RoundedLatch(clock, baud, divider)
    && b.actual == Actual(clock, divider, b.latch)
    && b.errorPpm == CandidateError(clock, baud, divider)
  }

  method SelectBaud(clock: u32, baud: u32) returns (best: Option<BaudDividers>)
    ensures clock == 0 || baud == 0 ==> best == None
    ensures clock > 0 && baud > 0 ==>
      (best == None <==> clock < 4 * baud || RoundedLatch(clock, baud, 128) > 0xffff)
    ensures best.Some? ==> baud > 0 && exists divider ::
      && Best(clock, baud, 128, divider)
      && Describes(best.value, clock, baud, divider)
      && Distance(best.value.actual, baud) <= (baud + 2 * best.value.latch - 1) / (2 * best.value.latch)
    ensures clock > 0 && baud > 0 ==>
      (best.Some? && LeastOfAll(clock, baud, best.value.errorPpm) <==> RoundingSuffices(clock, baud))
  {
    if clock == 0 || baud == 0 {
      return None;
    }
    var predivider := 1;
    best := None;
    ghost var chosen: nat := 0;
    while predivider <= 128
      invariant 1 <= predivider <= 129
      invariant best == None ==> forall other: nat :: other < predivider ==> !Usable(clock, baud, other)
      invariant best.Some? ==>
        && Best(clock, baud, predivider - 1, chosen)
        && Describes(best.value, clock, baud, chosen)
    {
      DenominatorPositive(predivider, baud);
      var denominator := 8 * predivider * baud;
      var roundedLatch := (clock + denominator / 2) / denominator;
      assert roundedLatch == RoundedLatch(clock, baud, predivider);
      if 1 <= roundedLatch <= 0xffff {
        assert Usable(clock, baud, predivider);
        MulMonotone(1, roundedLatch, 8 * predivider);
        CastsAreLossless(clock, baud, predivider);
        var actual: u32 := clock / (8 * predivider * roundedLatch);
        var difference := if actual <= baud then baud - actual else actual - baud;
        var errorPpm: u32 := difference * 1_000_000 / baud;
        var candidate := BaudDividers(
          if predivider == 128 then 0 else predivider, roundedLatch, actual, errorPpm);
        if best == None || errorPpm < best.value.errorPpm {
          best := Some(candidate);
          chosen := predivider;
        }
      }
      predivider := predivider + 1;
    }
    if best.Some? {
      NearestRate(clock, baud, chosen);
      assert Best(clock, baud, 128, chosen);
      SomeCandidate(clock, baud, chosen);
      LeastExactly(clock, baud, chosen);
    } else {
      NoCandidate(clock, baud);
    }
  }

  lemma LatchBounds(clock: u32, baud: u32, divider: nat)
    requires 1 <= baud && 1 <= divider
    ensures var half := 4 * (divider * baud); var latch := RoundedLatch(clock, baud, divider);
      latch * (2 * half) <= clock + half < latch * (2 * half) + 2 * half
  {
    DenominatorPositive(divider, baud);
    var half := 4 * (divider * baud);
    DivisionBounds(clock + half, 2 * half);
  }

  lemma DivisionBounds(a: nat, d: nat)
    requires d > 0
    ensures (a / d) * d <= a < (a / d) * d + d
  {
  }

  /** The rate error is at most half a latch step, rounded up. */
  lemma NearestRate(clock: u32, baud: u32, divider: nat)
    requires 1 <= baud && Usable(clock, baud, divider)
    ensures var latch := RoundedLatch(clock, baud, divider);
      Distance(Actual(clock, divider, latch), baud) <= (baud + 2 * latch - 1) / (2 * latch)
  {
    var latch := RoundedLatch(clock, baud, divider);
    LatchBounds(clock, baud, divider);
    MulMonotone(1, latch, 8 * divider);
    var step := 8 * divider * latch;
    DivisionBounds(clock, step);
    var bound := (baud + 2 * latch - 1) / (2 * latch);
    DivisionBounds(baud + 2 * latch - 1, 2 * latch);
    HalfDenominator(baud, divider, latch, bound);
    QuotientWithin(clock / step, step, baud, bound, clock);
  }

  /** Half a denominator is at most `bound` steps, and a whole latch is `baud` steps. */
  lemma HalfDenominator(baud: nat, divider: nat, latch: nat, bound: nat)
    requires baud <= bound * (2 * latch)
    ensures var step := 8 * divider * latch; var half := 4 * (divider * baud);
      latch * (2 * half) == baud * step && half <= bound * step
  {
    var half := 4 * (divider * baud);
    assert baud * (8 * divider * latch) == latch * (2 * half) by {
      assert baud * (divider * latch) == latch * (divider * baud);
      assert 8 * divider * latch == 8 * (divider * latch);
    }
    assert half <= bound * (8 * divider * latch) by {
      MulMonotone(baud, bound * (2 * latch), 4 * divider);
      assert bound * (divider * latch) == bound * latch * divider;
      assert (bound * (2 * latch)) * (4 * divider) == 8 * (bound * latch * divider);
      assert 8 * divider * latch == 8 * (divider * latch);
      assert baud * (4 * divider) == half;
    }
  }

  lemma QuotientWithin(q: nat, step: nat, centre: nat, radius: nat, value: int)
    requires step > 0
    requires q * step <= value < q * step + step
    requires centre * step - radius * step <= value < centre * step + radius * step
    ensures Distance(q, centre) <= radius
  {
    Distribute(centre, radius, step);
    MulCancel(q, centre + radius, step);
    Distribute(q, radius, step);
    Distribute(q + radius, 1, step);
    MulCancel(centre, q + radius + 1, step);
  }

  /** Neither the rate nor its error overflows the `u32` it is stored in. */
  lemma CastsAreLossless(clock: u32, baud: u32, divider: nat)
    requires 1 <= baud && Usable(clock, baud, divider)
    ensures var latch := RoundedLatch(clock, baud, divider); var actual := Actual(clock, divider, latch);
      actual <= clock && CandidateError(clock, baud, divider) <= 1_000_000
  {
    var latch := RoundedLatch(clock, baud, divider);
    MulMonotone(1, latch, 8 * divider);
    NearestRate(clock, baud, divider);
    var actual := Actual(clock, divider, latch);
    DivisionBounds(clock, 8 * divider * latch);
    MulMonotone(1, 8 * divider * latch, actual);
    HalfStepAtMostRate(baud, latch);
    var difference := Distance(actual, baud);
    assert difference * 1_000_000 <= baud * 1_000_000;
    DivisionBounds(difference * 1_000_000, baud);
    if ErrorPpm(actual, baud) > 1_000_000 {
      MulMonotone(1_000_001, ErrorPpm(actual, baud), baud);
    }
  }

  lemma HalfStepAtMostRate(baud: nat, latch: nat)
    requires 1 <= baud && 1 <= latch
    ensures (baud + 2 * latch - 1) / (2 * latch) <= baud
  {
    DivisionBounds(baud + 2 * latch - 1, 2 * latch);
    var q := (baud + 2 * latch - 1) / (2 * latch);
    MulMonotone(2, 2 * latch, baud);
    Distribute(baud, 1, 2 * latch);
    MulCancel(q, baud + 1, 2 * latch);
  }

  lemma RoundedAtLeastOne(clock: u32, baud: u32, divider: nat)
    requires 1 <= baud && 1 <= divider
    ensures RoundedLatch(clock, baud, divider) >= 1 <==> clock >= 4 * (divider * baud)
  {
    LatchBounds(clock, baud, divider);
    DenominatorPositive(divider, baud);
    var latch := RoundedLatch(clock, baud, divider);
    if latch >= 1 {
      MulMonotone(1, latch, 8 * (divider * baud));
    }
  }

  /** A larger divider never needs a larger latch. */
  lemma LatchAntitone(clock: u32, baud: u32, small: nat, large: nat)
    requires 1 <= baud && 1 <= small <= large
    ensures RoundedLatch(clock, baud, large) <= RoundedLatch(clock, baud, small)
  {
    LatchBounds(clock, baud, small);
    LatchBounds(clock, baud, large);
    MulMonotone(small, large, baud);
    DenominatorPositive(small, baud);
    var s, l := 4 * (small * baud), 4 * (large * baud);
    var ls, ll := RoundedLatch(clock, baud, small), RoundedLatch(clock, baud, large);
    // (2 * ll - 1) * l <= clock < (2 * ls + 1) * s <= (2 * ls + 1) * l.
    if ll >= 1 {
      assert (2 * ll - 1) * l == ll * (2 * l) - l;
      assert (2 * ls + 1) * s == ls * (2 * s) + s;
      MulMonotone(s, l, 2 * ls + 1);
      MulCancel(2 * ll - 1, 2 * ls + 1, l);
    }
  }

  lemma SomeCandidate(clock: u32, baud: u32, divider: nat)
    requires 1 <= baud && Usable(clock, baud, divider)
    ensures clock >= 4 * baud && RoundedLatch(clock, baud, 128) <= 0xffff
  {
    RoundedAtLeastOne(clock, baud, divider);
    MulMonotone(1, divider, baud);
    LatchAntitone(clock, baud, divider, 128);
  }

  lemma NoCandidate(clock: u32, baud: u32)
    requires 1 <= baud
    requires forall other: nat :: other < 129 ==> !Usable(clock, baud, other)
    ensures clock < 4 * baud || RoundedLatch(clock, baud, 128) > 0xffff
  {
    if clock >= 4 * baud && RoundedLatch(clock, baud, 128) <= 0xffff {
      LastUsable(clock, baud, 1);
    }
  }

  /** From a divider that still fits the clock, some usable divider is found at or above it. */
  lemma LastUsable(clock: u32, baud: u32, divider: nat)
    requires 1 <= baud && 1 <= divider <= 128
    requires clock >= 4 * (divider * baud)
    requires RoundedLatch(clock, baud, 128) <= 0xffff
    ensures exists other: nat :: other < 129 && Usable(clock, baud, other)
    decreases 128 - divider
  {
    RoundedAtLeastOne(clock, baud, divider);
    if divider == 128 {
      assert Usable(clock, baud, 128);
    } else if clock >= 4 * ((divider + 1) * baud) {
      LastUsable(clock, baud, divider + 1);
    } else {
      LatchBounds(clock, baud, divider);
      var unit := divider * baud;
      assert (divider + 1) * baud == unit + baud;
      MulMonotone(1, divider, baud);
      var latch := RoundedLatch(clock, baud, divider);
      if latch >= 2 {
        MulMonotone(2, latch, 8 * unit);
      }
      assert Usable(clock, baud, divider);
    }
  }

  // All register pairs, not only the rounded candidates.

  predicate Legal(divider: nat, latch: nat) {
    1 <= divider <= 128 && 1 <= latch <= 0xffff
  }

  function PairError(clock: u32, baud: u32, divider: nat, latch: nat): nat
    requires 1 <= baud && 1 <= divider && 1 <= latch
  {
    ErrorPpm(Actual(clock, divider, latch), baud)
  }

  /** No register pair has a smaller error. */
  ghost predicate LeastOfAll(clock: u32, baud: u32, error: nat)
    requires 1 <= baud
  {
    forall divider: nat, latch: nat :: Legal(divider, latch) ==> error <= PairError(clock, baud, divider, latch)
  }

  /** The product of divider and latch that an exact rate needs, rounded down. */
  function ExactProduct(clock: u32, baud: u32): nat
    requires 1 <= baud
  {
    clock / (8 * baud)
  }

  /** `error` is no worse than either latch next to the exact one: rounding to nearest keeps only one of them. */
  predicate ReachesLatches(clock: u32, baud: u32, error: nat, divider: nat)
    requires 1 <= baud && 1 <= divider
  {
    var below := ExactProduct(clock, baud) / divider;
    && (1 <= below ==> error <= PairError(clock, baud, divider, Min(below, 0xffff)))
    && (below < 0xffff ==> error <= PairError(clock, baud, divider, below + 1))
  }

  /** Some rounded candidate is as good as the two latches next to the exact one, for every divider. */
  ghost predicate RoundingSuffices(clock: u32, baud: u32)
    requires 1 <= baud
  {
    exists divider: nat :: Usable(clock, baud, divider)
      && forall other: nat :: 1 <= other <= 128 ==>
           ReachesLatches(clock, baud, CandidateError(clock, baud, divider), other)
  }

  /** The rate of any pair with this product. */
  function Rate(clock: u32, product: nat): nat
    requires 1 <= product
  {
    Quotient(clock, 8 * product)
  }

  function Quotient(a: nat, d: nat): nat
    requires d > 0
  {
    a / d
  }

  lemma RateBounds(clock: u32, product: nat)
    requires 1 <= product
    ensures var rate := Rate(clock, product); rate * (8 * product) <= clock < (rate + 1) * (8 * product)
  {
    var step := 8 * product;
    DivisionBounds(clock, step);
    Distribute(Rate(clock, product), 1, step);
  }

  function ProductError(clock: u32, baud: u32, product: nat): nat
    requires 1 <= baud && 1 <= product
  {
    ErrorPpm(Rate(clock, product), baud)
  }

  lemma PairIsProduct(clock: u32, baud: u32, divider: nat, latch: nat)
    requires 1 <= baud && 1 <= divider && 1 <= latch
    ensures divider * latch >= 1
    ensures PairError(clock, baud, divider, latch) == ProductError(clock, baud, divider * latch)
  {
    MulMonotone(1, latch, divider);
    assert 8 * divider * latch == 8 * (divider * latch);
  }

  lemma ErrorGrows(a: nat, b: nat, baud: u32)
    requires 1 <= baud && Distance(a, baud) <= Distance(b, baud)
    ensures ErrorPpm(a, baud) <= ErrorPpm(b, baud)
  {
    DivisionBounds(Distance(a, baud) * 1_000_000, baud);
    DivisionBounds(Distance(b, baud) * 1_000_000, baud);
    MulCancel(ErrorPpm(a, baud), ErrorPpm(b, baud) + 1, baud);
  }

  lemma RateAntitone(clock: u32, p: nat, q: nat)
    requires 1 <= p <= q
    ensures Rate(clock, q) <= Rate(clock, p)
  {
    RateBounds(clock, p);
    RateBounds(clock, q);
    var small, large := 8 * p, 8 * q;
    MulMonotone(small, large, Rate(clock, q));
    MulCancel(Rate(clock, q), Rate(clock, p) + 1, small);
  }

  /** Products up to the exact one are too fast, larger ones too slow. */
  lemma ExactSeparates(clock: u32, baud: u32, p: nat)
    requires 1 <= baud && 1 <= p
    ensures p <= ExactProduct(clock, baud) <==> baud <= Rate(clock, p)
  {
    var exact, rate := ExactProduct(clock, baud), Rate(clock, p);
    DivisionBounds(clock, 8 * baud);
    RateBounds(clock, p);
    var step, unit := 8 * p, 8 * baud;
    assert p * unit == baud * step;
    if p <= exact {
      MulMonotone(p, exact, unit);
      MulCancel(baud, rate + 1, step);
    } else {
      Distribute(exact, 1, unit);
      MulMonotone(exact + 1, p, unit);
      MulCancel(rate, baud, step);
    }
  }

  lemma NearerRate(clock: u32, baud: u32, near: nat, far: nat)
    requires 1 <= baud && 1 <= near && 1 <= far
    requires far <= near <= ExactProduct(clock, baud) || ExactProduct(clock, baud) < near <= far
    ensures Distance(Rate(clock, near), baud) <= Distance(Rate(clock, far), baud)
  {
    ExactSeparates(clock, baud, near);
    ExactSeparates(clock, baud, far);
    if far <= near {
      RateAntitone(clock, far, near);
    }
    if near <= far {
      RateAntitone(clock, near, far);
    }
  }

  /** On either side, the product nearer to the exact one has the smaller error. */
  lemma NearerIsBetter(clock: u32, baud: u32, near: nat, far: nat)
    requires 1 <= baud && 1 <= near && 1 <= far
    requires far <= near <= ExactProduct(clock, baud) || ExactProduct(clock, baud) < near <= far
    ensures ProductError(clock, baud, near) <= ProductError(clock, baud, far)
  {
    NearerRate(clock, baud, near, far);
    ErrorGrows(Rate(clock, near), Rate(clock, far), baud);
  }

  /** For each divider the product nearest to the exact one, on the side of `latch`. */
  lemma NearestLatch(exact: nat, divider: nat, latch: nat) returns (near: nat)
    requires 1 <= divider && 1 <= latch <= 0xffff
    ensures var below := exact / divider;
      (latch <= below && near == Min(below, 0xffff)) || (below < latch && near == below + 1)
    ensures 1 <= near && divider * near >= 1 && divider * latch >= 1
    ensures divider * latch <= divider * near <= exact || exact < divider * near <= divider * latch
  {
    var below := exact / divider;
    DivisionBounds(exact, divider);
    Distribute(below, 1, divider);
    MulMonotone(1, latch, divider);
    near := if latch <= below then Min(below, 0xffff) else below + 1;
    if latch <= below {
      MulMonotone(latch, near, divider);
      MulMonotone(near, below, divider);
    } else {
      MulMonotone(near, latch, divider);
    }
  }

  /** For each divider the best latch is next to the exact one. */
  lemma LatchesSuffice(clock: u32, baud: u32, error: nat, divider: nat, latch: nat)
    requires 1 <= baud && Legal(divider, latch) && ReachesLatches(clock, baud, error, divider)
    ensures error <= PairError(clock, baud, divider, latch)
  {
    var near := NearestLatch(ExactProduct(clock, baud), divider, latch);
    assert error <= PairError(clock, baud, divider, near);
    PairIsProduct(clock, baud, divider, latch);
    PairIsProduct(clock, baud, divider, near);
    NearerIsBetter(clock, baud, divider * near, divider * latch);
  }

  lemma LeastByLatches(clock: u32, baud: u32, error: nat)
    requires 1 <= baud
    ensures LeastOfAll(clock, baud, error) <==>
      forall divider: nat :: 1 <= divider <= 128 ==> ReachesLatches(clock, baud, error, divider)
  {
    if LeastOfAll(clock, baud, error) {
      forall divider: nat | 1 <= divider <= 128
        ensures ReachesLatches(clock, baud, error, divider)
      {
        var below := ExactProduct(clock, baud) / divider;
        assert 1 <= below ==> Legal(divider, Min(below, 0xffff));
        assert below < 0xffff ==> Legal(divider, below + 1);
      }
    } else {
      var divider: nat, latch: nat :| Legal(divider, latch) && error > PairError(clock, baud, divider, latch);
      if ReachesLatches(clock, baud, error, divider) {
        LatchesSuffice(clock, baud, error, divider, latch);
      }
    }
  }

  /** The search finds a pair of least error over all pairs exactly when rounding loses nothing. */
  lemma LeastExactly(clock: u32, baud: u32, best: nat)
    requires 1 <= baud && Best(clock, baud, 128, best)
    ensures LeastOfAll(clock, baud, CandidateError(clock, baud, best)) <==> RoundingSuffices(clock, baud)
  {
    LeastByLatches(clock, baud, CandidateError(clock, baud, best));
    if RoundingSuffices(clock, baud) {
      var divider: nat :| Usable(clock, baud, divider) && forall other: nat :: 1 <= other <= 128 ==>
        ReachesLatches(clock, baud, CandidateError(clock, baud, divider), other);
      assert CandidateError(clock, baud, best) <= CandidateError(clock, baud, divider);
      forall other: nat | 1 <= other <= 128
        ensures ReachesLatches(clock, baud, CandidateError(clock, baud, best), other)
      {
        assert ReachesLatches(clock, baud, CandidateError(clock, baud, divider), other);
      }
    }
  }

  /** While the exact latch fits without a divider, two comparisons decide it. */
  lemma LeastByTwoProducts(clock: u32, baud: u32, error: nat)
    requires 1 <= baud && ExactProduct(clock, baud) < 0xffff
    ensures LeastOfAll(clock, baud, error) <==> ReachesLatches(clock, baud, error, 1)
  {
    LeastByLatches(clock, baud, error);
    if ReachesLatches(clock, baud, error, 1) {
      var exact := ExactProduct(clock, baud);
      forall divider: nat, latch: nat | Legal(divider, latch)
        ensures error <= PairError(clock, baud, divider, latch)
      {
        PairIsProduct(clock, baud, divider, latch);
        var near := if divider * latch <= exact then exact else exact + 1;
        PairIsProduct(clock, baud, 1, near);
        NearerIsBetter(clock, baud, near, divider * latch);
      }
    }
  }

  /** At 12 Hz and 1 baud every rounded candidate is off by the whole rate, but the pair (1, 1) is exact. */
  lemma RoundingCanMissTheBestPair()
    ensures forall divider: nat :: Usable(12, 1, divider) ==> CandidateError(12, 1, divider) == 1_000_000
    ensures Usable(12, 1, 1) && PairError(12, 1, 1, 1) == 0 && !RoundingSuffices(12, 1)
  {
    forall divider: nat | Usable(12, 1, divider)
      ensures CandidateError(12, 1, divider) == 1_000_000
    {
      RoundedAtLeastOne(12, 1, divider);
      assert divider == 1 || divider == 2 || divider == 3;
      if divider == 1 {
        assert RoundedLatch(12, 1, 1) == 2;
      } else if divider == 2 {
        assert RoundedLatch(12, 1, 2) == 1;
      } else {
        assert RoundedLatch(12, 1, 3) == 1;
      }
    }
    assert RoundedLatch(12, 1, 1) == 2;
    if RoundingSuffices(12, 1) {
      var divider: nat :| Usable(12, 1, divider) && forall other: nat :: 1 <= other <= 128 ==>
        ReachesLatches(12, 1, CandidateError(12, 1, divider), other);
      assert ReachesLatches(12, 1, CandidateError(12, 1, divider), 1);
    }
  }
}
