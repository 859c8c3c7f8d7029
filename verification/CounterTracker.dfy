/**
 Counter continuity and rate derivation (src/store/counter_tracker.cpp).

 The original updates a `CounterContinuity` in place; it is a plain record held inside a map, so
 here it is a value and `Observe` returns the updated record beside the outcome.
 */
module CounterTracker {
  import opened Checked
  import opened Domain

  datatype Discontinuity = NoDiscontinuity | Reset | Wrap

  datatype Fault =
    | NoFault | MissingCapacity | MissingPreviousSample | CounterReset | NonMonotonicTime
    | WindowTooLarge | StaleSample | FencedSample | GapFault | Overflow

  datatype CounterSample = CounterSample(
    reading: CounterReading, observedAt: TimePoint, receivedAt: TimePoint, sequence: U64,
    scope: SequenceScope, generation: GenerationId, gapEpoch: nat)

  /** The newest sample and the one before it, as the original's flag-plus-value pairs. */
  datatype CounterContinuity = CounterContinuity(
    latest: Option<CounterSample>, previous: Option<CounterSample>, lastDiscontinuity: Discontinuity,
    resetCount: nat, wrapCount: nat, gapCount: nat)

  const EMPTY_CONTINUITY: CounterContinuity :=
    CounterContinuity(Option.None, Option.None, NoDiscontinuity, 0, 0, 0)

  datatype ContinuityOutcome = ContinuityOutcome(
    discontinuity: Discontinuity, deltaValid: bool, delta: U64, sequenceGap: bool,
    scopeChanged: bool, generationChanged: bool, firstSample: bool)

  predicate SameIdentity(a: CounterSample, b: CounterSample) {
    a.scope == b.scope && a.generation == b.generation
  }

  /** Three quarters of the counter range. */
  function WrapThreshold(width: CounterWidth): U64 {
    if width == Bits32 then 3221225472 else 13835058055282163712
  }

  /** What a raw step between two readings of one counter amounts to. */
  datatype Step = Forward(delta: U64) | Wrapped(total: Checked<U64>) | Backward | Declared

  /** Classifies a raw step; `range - raw + 1` is unsigned 64-bit arithmetic and wraps. */
  function RawStep(baseline: CounterReading, current: CounterReading): Step {
    if current.resetDeclared then Declared
    else if current.raw >= baseline.raw then Forward(current.raw - baseline.raw)
    else if baseline.raw >= WrapThreshold(baseline.width) then
      var head := (WrapSub(CounterRange(baseline.width), baseline.raw) + 1) % TWO_64;
      Wrapped(CheckedAdd(head, current.raw))
    else Backward
  }

  predicate StreamBreak(baseline: CounterSample, sample: CounterSample) {
    sample.sequence <= baseline.sequence || sample.gapEpoch != baseline.gapEpoch
  }

  function Boundary(latest: Option<CounterSample>, sample: CounterSample): ContinuityOutcome {
    var none := ContinuityOutcome(NoDiscontinuity, false, 0, false, false, false, false);
    match latest
    case None => none.(firstSample := true)
    case Some(baseline) =>
      if !SameIdentity(baseline, sample) then
        none.(scopeChanged := baseline.scope != sample.scope,
              generationChanged := baseline.generation != sample.generation)
      else
        var gap := StreamBreak(baseline, sample);
        match RawStep(baseline.reading, sample.reading)
        case Declared => none.(sequenceGap := gap, discontinuity := Reset)
        case Forward(delta) => none.(sequenceGap := gap, delta := delta, deltaValid := !gap)
        case Wrapped(Exact(delta)) =>
          none.(sequenceGap := gap, delta := delta, deltaValid := !gap, discontinuity := Wrap)
        case Wrapped(Failed) => none.(sequenceGap := gap, discontinuity := Reset)
        case Backward => none.(sequenceGap := gap, discontinuity := Reset)
  }

  /** observe_counter: folds one accepted sample into the continuity state. */
  function Observe(state: CounterContinuity, sample: CounterSample): (CounterContinuity, ContinuityOutcome) {
    var outcome := Boundary(state.latest, sample);
    (CounterContinuity(
      Some(sample),
      if state.latest.Some? then state.latest else state.previous,
      outcome.discontinuity,
      state.resetCount + (if outcome.discontinuity == Reset then 1 else 0),
      state.wrapCount + (if outcome.discontinuity == Wrap then 1 else 0),
      state.gapCount + (if outcome.sequenceGap then 1 else 0)),
     outcome)
  }

  /** Freshness from the larger of the two non-negative, representable ages. */
  function SampleFreshness(sample: CounterSample, now: TimePoint, policy: FreshnessPolicy): Freshness {
    var observed := Difference(now, sample.observedAt);
    var received := Difference(now, sample.receivedAt);
    var base := if observed.Exact? && observed.value >= 0 then observed.value else 0;
    var effective := if received.Exact? && received.value > base then received.value else base;
    if effective <= policy.freshWithin then Fresh
    else if effective <= policy.usableWithin then Stale
    else Expired
  }

  // ---------------------------------------------------------------------------
  // Derivation
  // ---------------------------------------------------------------------------

  datatype Request = Request(
    previous: Option<CounterSample>, current: CounterSample, previousUsable: bool, currentUsable: bool,
    capacityBps: U64, maxWindow: Duration)

  datatype DeltaResult = DeltaResult(
    fault: Fault, valid: bool, delta: U64, window: Duration, discontinuity: Discontinuity)

  function Refused(fault: Fault): DeltaResult {
    DeltaResult(fault, false, 0, 0, NoDiscontinuity)
  }

  function DeriveDelta(request: Request): DeltaResult {
    if request.previous.None? then Refused(MissingPreviousSample)
    else if !request.previousUsable || !request.currentUsable then Refused(StaleSample)
    else
      var previous, current := request.previous.value, request.current;
      if !SameIdentity(previous, current) then Refused(FencedSample)
      else if StreamBreak(previous, current) then Refused(GapFault)
      else
        match Difference(current.observedAt, previous.observedAt)
        case Failed => Refused(Overflow)
        case Exact(span) =>
          if span <= 0 then Refused(NonMonotonicTime)
          else if span > request.maxWindow then Refused(WindowTooLarge)
          else
            match RawStep(previous.reading, current.reading)
            case Declared => DeltaResult(Fault.CounterReset, false, 0, span, Reset)
            case Forward(delta) => DeltaResult(NoFault, true, delta, span, NoDiscontinuity)
            case Wrapped(Exact(delta)) => DeltaResult(NoFault, true, delta, span, Wrap)
            case Wrapped(Failed) => DeltaResult(Overflow, false, 0, span, NoDiscontinuity)
            case Backward => DeltaResult(Fault.CounterReset, false, 0, span, Reset)
  }

  datatype Derivation = Derivation(
    fault: Fault, valid: bool, deltaBytes: U64, bitsPerSecond: U64, utilizationPpb: U64,
    window: Duration, discontinuity: Discontinuity)

  const NANOS_PER_SECOND: nat := 1_000_000_000
  const PPB_NANOS: nat := 1_000_000_000_000_000_000

  /** The exact rate and utilization all fit in a word. */
  predicate Representable(delta: nat, capacity: nat, window: nat)
    requires capacity > 0 && window > 0
  {
    && 8 * delta < TWO_64
    && 8 * delta * NANOS_PER_SECOND / window < TWO_64
    && 8 * delta * PPB_NANOS / (capacity * window) < TWO_64
  }

  /**
   derive_utilization. With capacity and a valid delta the result is valid exactly when the bit
   count, the rate and the utilization are representable, and then both are the exact floors;
   otherwise the fault is Overflow. Without capacity or a delta the fault is passed on.
   */
  method DeriveUtilization(request: Request) returns (r: Derivation)
    ensures request.capacityBps == 0 ==> !r.valid && r.fault == MissingCapacity
    ensures
      var d := DeriveDelta(request);
      request.capacityBps > 0 && !d.valid ==> !r.valid && r.fault == d.fault && r.window == d.window
    ensures
      var d := DeriveDelta(request);
      request.capacityBps > 0 && d.valid ==>
        && d.window > 0
        && r.valid == Representable(d.delta, request.capacityBps, d.window)
        && r.fault == (if r.valid then NoFault else Overflow)
        && (r.valid ==>
              && r.deltaBytes == d.delta && r.window == d.window && r.discontinuity == d.discontinuity
              && r.bitsPerSecond == 8 * d.delta * NANOS_PER_SECOND / d.window
              && r.utilizationPpb == 8 * d.delta * PPB_NANOS / (request.capacityBps * d.window))
  {
    var none := Derivation(NoFault, false, 0, 0, 0, 0, NoDiscontinuity);
    if request.capacityBps == 0 {
      return none.(fault := MissingCapacity);
    }
    var delta := DeriveDelta(request);
    if !delta.valid {
      return none.(fault := delta.fault, discontinuity := delta.discontinuity, window := delta.window);
    }
    assert 0 < delta.window < TWO_63;
    Positive(request.capacityBps, delta.window);
    var bits := CheckedMul(delta.delta, 8);
    if bits.Failed? {
      return none.(fault := Overflow);
    }
    r := none.(deltaBytes := delta.delta, window := delta.window, discontinuity := delta.discontinuity);
    var windowNs: U64 := delta.window;
    var rate := CheckedMulDiv(bits.value, NANOS_PER_SECOND, windowNs);
    ShiftingQuotientComplete(bits.value * NANOS_PER_SECOND, windowNs);
    assert bits.value * NANOS_PER_SECOND == 8 * delta.delta * NANOS_PER_SECOND;
    if rate.Failed? {
      return r.(fault := Overflow);
    }
    var numerator := MulU64(bits.value, PPB_NANOS);
    var denominator := MulU64(request.capacityBps, windowNs);
    assert !denominator.IsZero();
    var utilization := DivU128(numerator, denominator);
    assert numerator.Value() == 8 * delta.delta * PPB_NANOS;
    if utilization.Failed? {
      return r.(bitsPerSecond := rate.value, fault := Overflow);
    }
    return r.(bitsPerSecond := rate.value, utilizationPpb := utilization.value, valid := true);
  }

  lemma Positive(a: nat, b: nat)
    requires a > 0 && b > 0
    ensures a * b > 0
  {
  }

  /** The utilization in closed form, or the fault that prevents it. */
  datatype Utilization = Underivable(fault: Fault) | PartsPerBillion(ppb: U64)

  function UtilizationOf(request: Request): Utilization {
    var d := DeriveDelta(request);
    if request.capacityBps == 0 then Underivable(MissingCapacity)
    else if !d.valid then Underivable(d.fault)
    else
      Positive(request.capacityBps, d.window);
      if Representable(d.delta, request.capacityBps, d.window)
      then PartsPerBillion(8 * d.delta * PPB_NANOS / (request.capacityBps * d.window))
      else Underivable(Overflow)
  }

  /** ratio_ppb: refuses a zero denominator and whatever the 64-bit division refuses. */
  method RatioPpb(numerator: U64, denominator: U64) returns (r: Checked<U64>)
    ensures r == RatioSpec(numerator, denominator)
  {
    if denominator == 0 {
      return Failed;
    }
    if numerator == 0 {
      ZeroRatio(denominator);
      return Exact(0);
    }
    r := DivU64(MulU64(numerator, NANOS_PER_SECOND), denominator);
  }

  function RatioSpec(numerator: U64, denominator: U64): Checked<U64> {
    ShiftingQuotient(numerator * NANOS_PER_SECOND, denominator)
  }

  lemma ZeroRatio(d: nat)
    requires d > 0
    ensures ShiftingQuotient(0, d) == Exact(0)
  {
    DivUnique(0, d, 0, 0);
    forall k | 1 <= k <= 128 ensures Shr(0, k) % d < TWO_63 {
      ShrZero(k);
    }
  }

  lemma {:induction false} ShrZero(k: nat)
    ensures Shr(0, k) == 0
  {
    if k != 0 { ShrZero(k - 1); }
  }

  // ---------------------------------------------------------------------------
  // Deltas against the true count
  // ---------------------------------------------------------------------------

  function Modulus(width: CounterWidth): nat {
    if width == Bits32 then TWO_32 else TWO_64
  }

  /** A reading of a true count: the count modulo the counter's range. */
  ghost predicate Reads(reading: CounterReading, width: CounterWidth, count: nat) {
    reading.width == width && reading.raw == count % Modulus(width)
  }

  /** For readings within their declared width the overflow branch cannot be taken. */
  lemma WrapNeverOverflows(baseline: CounterReading, current: CounterReading)
    requires baseline.raw <= CounterRange(baseline.width)
    ensures RawStep(baseline, current).Wrapped? ==>
              RawStep(baseline, current).total == Exact(CounterRange(baseline.width) + 1 - baseline.raw + current.raw)
  {
  }

  /** A step that yields a delta yields the true number of counted events. */
  lemma StepIsTrue(baseline: CounterReading, current: CounterReading, width: CounterWidth, before: nat, after: nat)
    requires Reads(baseline, width, before) && Reads(current, width, after)
    requires before <= after < before + Modulus(width)
    ensures RawStep(baseline, current).Forward? ==> RawStep(baseline, current).delta == after - before
    ensures RawStep(baseline, current).Wrapped? ==> RawStep(baseline, current).total == Exact(after - before)
  {
    var m := Modulus(width);
    ModularStep(before, after, m);
    WrapNeverOverflows(baseline, current);
  }

  lemma ModularStep(before: nat, after: nat, m: nat)
    requires 0 < m && before <= after < before + m
    ensures after % m >= before % m ==> after - before == after % m - before % m
    ensures after % m < before % m ==> after - before == m - before % m + after % m
  {
    var q, r := before / m, before % m;
    var step := after - before;
    assert before == q * m + r;
    if r + step < m {
      DivUnique(after, m, q, r + step);
    } else {
      assert after == (q + 1) * m + (r + step - m) by { Distribute(q, 1, m); }
      DivUnique(after, m, q + 1, r + step - m);
    }
  }

  /** Continuity state after a run of samples. */
  function AfterSamples(samples: seq<CounterSample>): CounterContinuity {
    if samples == [] then EMPTY_CONTINUITY
    else Observe(AfterSamples(samples[..|samples| - 1]), samples[|samples| - 1]).0
  }

  function OutcomeAt(samples: seq<CounterSample>, i: nat): ContinuityOutcome
    requires i < |samples|
  {
    Observe(AfterSamples(samples[..i]), samples[i]).1
  }

  lemma {:induction false} AfterSamplesPair(samples: seq<CounterSample>)
    ensures AfterSamples(samples).latest == (if |samples| == 0 then Option.None else Some(samples[|samples| - 1]))
    ensures AfterSamples(samples).previous == (if |samples| < 2 then Option.None else Some(samples[|samples| - 2]))
  {
    if |samples| > 0 {
      AfterSamplesPair(samples[..|samples| - 1]);
    }
  }

  function SumDeltas(samples: seq<CounterSample>, from: nat, upto: nat): nat
    requires from <= upto < |samples|
    decreases upto
  {
    if from == upto then 0 else SumDeltas(samples, from, upto - 1) + OutcomeAt(samples, upto).delta
  }

  /** The samples read a non-decreasing true count whose steps stay below the counter range. */
  ghost predicate CountedBy(samples: seq<CounterSample>, width: CounterWidth, counts: seq<nat>) {
    && |counts| == |samples|
    && (forall i | 0 <= i < |samples| :: Reads(samples[i].reading, width, counts[i]))
    && (forall i | 0 < i < |samples| :: counts[i - 1] <= counts[i] < counts[i - 1] + Modulus(width))
  }

  /** Every valid delta reported over any run is the true step. */
  lemma ValidDeltaIsTrue(samples: seq<CounterSample>, width: CounterWidth, counts: seq<nat>, i: nat)
    requires CountedBy(samples, width, counts) && i < |samples|
    requires OutcomeAt(samples, i).deltaValid
    ensures i > 0 && OutcomeAt(samples, i).delta == counts[i] - counts[i - 1]
  {
    AfterSamplesPair(samples[..i]);
    StepIsTrue(samples[i - 1].reading, samples[i].reading, width, counts[i - 1], counts[i]);
  }

  /** Consecutive valid deltas telescope to the events counted over the whole stretch. */
  lemma {:induction false} DeltasTelescope(samples: seq<CounterSample>, width: CounterWidth, counts: seq<nat>, from: nat, upto: nat)
    requires CountedBy(samples, width, counts) && from <= upto < |samples|
    requires forall i | from < i <= upto :: OutcomeAt(samples, i).deltaValid
    ensures counts[from] <= counts[upto] && SumDeltas(samples, from, upto) == counts[upto] - counts[from]
    decreases upto
  {
    if from != upto {
      DeltasTelescope(samples, width, counts, from, upto - 1);
      ValidDeltaIsTrue(samples, width, counts, upto);
    }
  }

  /** The window between two samples lies in the derivable range. */
  predicate WindowInBound(previous: CounterSample, current: CounterSample, maxWindow: Duration) {
    var span := Difference(current.observedAt, previous.observedAt);
    span.Exact? && 0 < span.value <= maxWindow
  }

  /**
   Re-deriving from the retained pair agrees with what was reported when the newer sample arrived:
   same validity and same delta, for usable samples and an in-bound window.
   */
  lemma RederivationAgrees(state: CounterContinuity, sample: CounterSample, capacity: U64, maxWindow: Duration)
    requires state.latest.Some? && WindowInBound(state.latest.value, sample, maxWindow)
    ensures
      var (after, outcome) := Observe(state, sample);
      var d := DeriveDelta(Request(after.previous, after.latest.value, true, true, capacity, maxWindow));
      && d.valid == outcome.deltaValid
      && (d.valid ==> d.delta == outcome.delta && d.discontinuity == outcome.discontinuity)
  {
  }
}
