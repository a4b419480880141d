/** Sleep-clock widening, timing-field validation and modulo-65536 instants. */
module Timing {
  import opened Octets

  const PPM := 1_000_000

  /** Upper bound of each sleep-clock accuracy class, in parts per million. */
  function SleepClockAccuracyPpm(sca: u8): (ppm: u16)
    ensures 20 <= ppm <= 500
  {
    match sca % 8
    case 0 => 500
    case 1 => 250
    case 2 => 150
    case 3 => 100
    case 4 => 75
    case 5 => 50
    case 6 => 30
    case _ => 20
  }

  function DivCeil(a: nat, b: nat): nat
    requires b > 0
  {
    (a + b - 1) / b
  }

  /** The receive-window widening with the saturating arithmetic of the source. */
  function WindowWideningUs(elapsed: u64, centralSca: u8, localPpm: u16): u64
  {
    var totalPpm := SleepClockAccuracyPpm(centralSca) + localPpm;
    WideningBounds(elapsed, totalPpm);
    SaturatingAdd(SaturatingMul(elapsed / PPM, totalPpm),
                  DivCeil(SaturatingMul(elapsed % PPM, totalPpm), PPM))
  }

  lemma WideningBounds(elapsed: u64, ppm: nat)
    requires ppm < 0x2_0000
    ensures 0 <= (elapsed / PPM) * ppm < U64_MAX - 0x2_0000
    ensures 0 <= (elapsed % PPM) * ppm < PPM * 0x2_0000
    ensures DivCeil((elapsed % PPM) * ppm, PPM) < 0x2_0000
  {
    var whole, rest := elapsed / PPM, elapsed % PPM;
    assert 0 <= whole <= 18_446_744_073_710;
    MulMonotone(0, whole, ppm);
    MulMonotone(whole, 18_446_744_073_710, ppm);
    MulMonotone(0, rest, ppm);
    MulMonotone(rest, PPM - 1, ppm);
  }

  /** No `u64` saturates: the widening is the exact drift of both clocks, rounded up. */
  lemma WideningIsExactCeiling(elapsed: u64, centralSca: u8, localPpm: u16)
    ensures 0 <= elapsed * (SleepClockAccuracyPpm(centralSca) + localPpm)
    ensures WindowWideningUs(elapsed, centralSca, localPpm)
         == DivCeil(elapsed * (SleepClockAccuracyPpm(centralSca) + localPpm), PPM)
  {
    var ppm := SleepClockAccuracyPpm(centralSca) + localPpm;
    WideningBounds(elapsed, ppm);
    DivCeilByParts(elapsed, ppm);
  }

  lemma DivCeilByParts(elapsed: nat, ppm: nat)
    ensures 0 <= (elapsed / PPM) * ppm
    ensures 0 <= (elapsed % PPM) * ppm
    ensures 0 <= elapsed * ppm
    ensures DivCeil(elapsed * ppm, PPM) == (elapsed / PPM) * ppm + DivCeil((elapsed % PPM) * ppm, PPM)
  {
    var whole, rest := elapsed / PPM, elapsed % PPM;
    MulMonotone(0, whole, ppm);
    MulMonotone(0, rest, ppm);
    MulMonotone(0, elapsed, ppm);
    assert elapsed == PPM * whole + rest;
    Distribute(PPM * whole, rest, ppm);
    assert (PPM * whole) * ppm == PPM * (whole * ppm);
  }

  /** Longer silence never narrows the window, and splitting a silence never widens less. */
  lemma WideningMonotoneAndSubadditive(a: u64, b: u64, centralSca: u8, localPpm: u16)
    requires a + b <= U64_MAX
    ensures WindowWideningUs(a, centralSca, localPpm) <= WindowWideningUs(a + b, centralSca, localPpm)
    ensures WindowWideningUs(a + b, centralSca, localPpm)
         <= WindowWideningUs(a, centralSca, localPpm) + WindowWideningUs(b, centralSca, localPpm)
  {
    var ppm := SleepClockAccuracyPpm(centralSca) + localPpm;
    WideningIsExactCeiling(a, centralSca, localPpm);
    WideningIsExactCeiling(b, centralSca, localPpm);
    WideningIsExactCeiling(a + b, centralSca, localPpm);
    DivCeilSplit(a, b, ppm);
  }

  lemma DivCeilSplit(a: nat, b: nat, ppm: nat)
    ensures 0 <= a * ppm && 0 <= b * ppm && 0 <= (a + b) * ppm
    ensures DivCeil(a * ppm, PPM) <= DivCeil((a + b) * ppm, PPM)
    ensures DivCeil((a + b) * ppm, PPM) <= DivCeil(a * ppm, PPM) + DivCeil(b * ppm, PPM)
  {
    var x, y := a * ppm, b * ppm;
    assert (a + b) * ppm == x + y;
    MulMonotone(0, a, ppm);
    MulMonotone(0, b, ppm);
  }

  // Instants (section 5.1 of Bluetooth Core Vol 6 Part B).

  datatype InstantRelation = Current | Future(delta: nat) | Passed

  function Until(counter: u16, instant: u16): u16 {
    if counter <= instant then instant - counter else 0x1_0000 - (counter - instant)
  }

  function ClassifyInstant(counter: u16, instant: u16): InstantRelation {
    var delta := Until(counter, instant);
    if delta == 0 then Current
    else if delta <= 32_766 then Future(delta)
    else Passed
  }

  function Following(counter: u16): u16 {
    if counter == 0xffff then 0 else counter + 1
  }

  /** The counter `n` events later. */
  function CounterAfter(counter: u16, n: nat): u16 {
    if n == 0 then counter else Following(CounterAfter(counter, n - 1))
  }

  /** It wraps modulo 65536. */
  lemma {:induction false} CounterWraps(counter: u16, n: nat)
    ensures CounterAfter(counter, n) == (counter + n) % 0x1_0000
  {
    if n > 0 {
      CounterWraps(counter, n - 1);
    }
  }

  /** The distance to an instant is the wrapping difference; it counts the events until the instant. */
  lemma UntilWraps(counter: u16, instant: u16)
    ensures Until(counter, instant) == (instant - counter) % 0x1_0000
    ensures CounterAfter(counter, Until(counter, instant)) == instant
  {
    CounterWraps(counter, Until(counter, instant));
  }

  // Timing fields of CONNECT_IND and the connection update and parameter procedures.

  /** `rest` exceeds `n` intervals, by repeated subtraction instead of a product of two fields. */
  predicate Outlasts(rest: int, n: nat, interval: nat)
    decreases n
  {
    if n == 0 then rest > 0 else Outlasts(rest - interval, n - 1, interval)
  }

  lemma {:induction false} OutlastsProduct(rest: int, n: nat, interval: nat)
    ensures Outlasts(rest, n, interval) <==> rest > n * interval
    decreases n
  {
    if n > 0 {
      OutlastsProduct(rest - interval, n - 1, interval);
      Distribute(n - 1, 1, interval);
    }
  }

  predicate ConnectionTimingIsValid(
    windowSize: u8, windowOffset: u16, interval: u16, latency: u16, supervisionTimeout: u16)
  {
    && 1 <= windowSize <= 8
    && 6 <= interval <= 3_200
    && windowOffset <= interval
    && windowSize < interval
    && latency <= 499
    && 10 <= supervisionTimeout <= 3_200
    && Outlasts(supervisionTimeout * 8, 2 * (latency + 1), interval)
  }

  predicate ConnectionParameterRangeIsValid(
    intervalMin: u16, intervalMax: u16, latency: u16, supervisionTimeout: u16)
  {
    && 6 <= intervalMin <= intervalMax <= 3_200
    && latency <= 499
    && 10 <= supervisionTimeout <= 3_200
    && Outlasts(supervisionTimeout * 8, 2 * (latency + 1), intervalMax)
  }

  /** In products: the supervision timeout outlasts the longest silence of both directions. */
  lemma TimingInProducts(windowSize: u8, windowOffset: u16, interval: u16, latency: u16, supervisionTimeout: u16)
    ensures ConnectionTimingIsValid(windowSize, windowOffset, interval, latency, supervisionTimeout) <==>
      && 1 <= windowSize <= 8 && 6 <= interval <= 3_200 && windowOffset <= interval && windowSize < interval
      && latency <= 499 && 10 <= supervisionTimeout <= 3_200
      && supervisionTimeout * 8 > 2 * (latency + 1) * interval
  {
    OutlastsProduct(supervisionTimeout * 8, 2 * (latency + 1), interval);
  }

  lemma RangeInProducts(intervalMin: u16, intervalMax: u16, latency: u16, supervisionTimeout: u16)
    ensures ConnectionParameterRangeIsValid(intervalMin, intervalMax, latency, supervisionTimeout) <==>
      && 6 <= intervalMin <= intervalMax <= 3_200 && latency <= 499 && 10 <= supervisionTimeout <= 3_200
      && supervisionTimeout * 8 > 2 * (latency + 1) * intervalMax
  {
    OutlastsProduct(supervisionTimeout * 8, 2 * (latency + 1), intervalMax);
  }

  /** The sleep-clock accuracy classes of CONNECT_IND. */
  lemma AccuracyClasses(sca: u8)
    ensures SleepClockAccuracyPpm(sca) == [500, 250, 150, 100, 75, 50, 30, 20][sca % 8]
  {
  }
}
