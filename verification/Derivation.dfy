/**
 Deriving a utilization for a winner, and what a derived value rests on
 (src/classify/classifier.cpp:99-176).
 */
module Derivation {
  import opened Checked
  import opened Domain
  import opened CounterTracker
  import opened EvidenceAge
  import opened StoreSpec
  import opened StoreInvariant
  import opened StoreQuery
  import opened Winner

  datatype Derived = DerivedValues(
    hasDelta: bool, delta: U64, window: Duration, fault: Fault, utilization: Option<U64>)

  const NOTHING_DERIVED: Derived := DerivedValues(false, 0, 0, MissingPreviousSample, Option.None)

  /** In the source's current scope and the link's current generation, and not yet expired. */
  predicate SampleUsable(policy: Policy, st: StoreState, source: SourceId, sample: CounterSample, family: MetricFamily, ctx: EvaluationContext) {
    && source in st.streams && st.streams[source].hasScope && sample.scope == st.streams[source].scope
    && (ctx.hasGeneration ==> sample.generation == ctx.currentGeneration)
    && SampleFreshness(sample, ctx.now, FreshnessPolicyFor(policy, family)) != Expired
  }

  /** The retained pair of a source in a slot, when there is one. */
  function RetainedPair(st: StoreState, key: SlotKey, source: SourceId): Option<(CounterSample, CounterSample)> {
    if key in st.slots && source in st.slots[key].continuity then
      var c := st.slots[key].continuity[source];
      if c.latest.Some? && c.previous.Some? then Some((c.previous.value, c.latest.value)) else Option.None
    else Option.None
  }

  function RequestFor(policy: Policy, st: StoreState, key: SlotKey, source: SourceId, ctx: EvaluationContext,
                      pair: (CounterSample, CounterSample), capacity: U64): Request {
    Request(Some(pair.0), pair.1,
            SampleUsable(policy, st, source, pair.0, key.key.family, ctx),
            SampleUsable(policy, st, source, pair.1, key.key.family, ctx),
            capacity, policy.thresholds.derivationWindow)
  }

  function DerivedFor(policy: Policy, st: StoreState, facts: LinkFacts, key: SlotKey, source: SourceId, ctx: EvaluationContext): Derived {
    match RetainedPair(st, key, source)
    case None => NOTHING_DERIVED
    case Some(pair) =>
      var d := DeriveDelta(RequestFor(policy, st, key, source, ctx, pair, 0));
      if !d.valid then NOTHING_DERIVED.(fault := d.fault)
      else
        var base := DerivedValues(true, d.delta, d.window, NoFault, Option.None);
        match CapacityFor(facts, key.key.direction)
        case None => base.(fault := MissingCapacity)
        case Some(capacity) =>
          match UtilizationOf(RequestFor(policy, st, key, source, ctx, pair, capacity))
          case Underivable(fault) => base.(fault := fault)
          case PartsPerBillion(ppb) => base.(utilization := Some(ppb))
  }

  /** derive_for: as the code runs it, through the checked 128-bit arithmetic. */
  method DeriveFor(policy: Policy, st: StoreState, facts: LinkFacts, key: SlotKey, source: SourceId, ctx: EvaluationContext)
    returns (derived: Derived)
    ensures derived == DerivedFor(policy, st, facts, key, source, ctx)
  {
    var pair := RetainedPair(st, key, source);
    if pair.None? {
      return NOTHING_DERIVED;
    }
    var request := RequestFor(policy, st, key, source, ctx, pair.value, 0);
    var d := DeriveDelta(request);
    if !d.valid {
      return NOTHING_DERIVED.(fault := d.fault);
    }
    derived := DerivedValues(true, d.delta, d.window, NoFault, Option.None);
    var capacity := CapacityFor(facts, key.key.direction);
    if capacity.None? {
      return derived.(fault := MissingCapacity);
    }
    var r := DeriveUtilization(request.(capacityBps := capacity.value));
    assert DeriveDelta(request.(capacityBps := capacity.value)) == d;
    if r.valid {
      return derived.(utilization := Some(r.utilizationPpb));
    }
    return derived.(fault := r.fault);
  }

  // ---------------------------------------------------------------------------
  // What a derived value rests on
  // ---------------------------------------------------------------------------

  /** A sample and the evidence it was taken from age alike. */
  lemma SampleAgesLikeEvidence(sample: CounterSample, e: Evidence, now: TimePoint, policy: FreshnessPolicy)
    requires Samples(sample, e.observation)
    ensures SampleFreshness(sample, now, policy) == ClassifyFreshness(AgeEvidence(e, now), policy)
  {
  }

  /** Everything the design demands of the two samples behind a derived value. */
  ghost predicate Justified(policy: Policy, st: StoreState, key: SlotKey, w: EvaluatedEvidence, ctx: EvaluationContext,
                            previous: CounterSample, latest: CounterSample)
  {
    var source, windows := SourceOf(w.evidence), FreshnessPolicyFor(policy, key.key.family);
    var span := Difference(latest.observedAt, previous.observedAt);
    && RetainedPair(st, key, source) == Some((previous, latest))
    && Samples(latest, w.evidence.observation)
    && source in st.streams && latest.scope == st.streams[source].scope && previous.scope == st.streams[source].scope
    && (ctx.hasGeneration ==> latest.generation == ctx.currentGeneration && previous.generation == ctx.currentGeneration)
    && SampleFreshness(latest, ctx.now, windows) == Fresh && SampleFreshness(previous, ctx.now, windows) != Expired
    && previous.sequence < latest.sequence && previous.gapEpoch == latest.gapEpoch
    && span.Exact? && 0 < span.value <= policy.thresholds.derivationWindow
    && !latest.reading.resetDeclared
    && (latest.reading.raw >= previous.reading.raw || previous.reading.raw >= WrapThreshold(previous.reading.width))
  }

  lemma {:induction false} DeltaIsGuarded(request: Request)
    requires DeriveDelta(request).valid
    ensures request.previous.Some? && request.previousUsable && request.currentUsable
    ensures
      var p, c := request.previous.value, request.current;
      var span := Difference(c.observedAt, p.observedAt);
      && SameIdentity(p, c) && p.sequence < c.sequence && p.gapEpoch == c.gapEpoch
      && span.Exact? && 0 < span.value <= request.maxWindow
      && !c.reading.resetDeclared && (c.reading.raw >= p.reading.raw || p.reading.raw >= WrapThreshold(p.reading.width))
  {
  }

  lemma {:induction false} WinnerIsLatestSample(policy: Policy, st: StoreState, key: SlotKey, ctx: EvaluationContext)
    requires StoreInv(policy, st) && IsCounterFamily(key.key.family)
    requires WinnerOf(ContendersOf(policy, st, key, ctx)).Some?
    ensures
      var w := WinnerOf(ContendersOf(policy, st, key, ctx)).value;
      && key in st.slots && LatestIs(st.slots[key], w.evidence.observation)
      && w == Evaluate(policy, st, key, ctx, w.evidence) && w.eligible
  {
    var cs := ContendersOf(policy, st, key, ctx);
    WinnerIsMaximal(cs);
    var r :| 0 <= r < |cs| && cs[r] == WinnerOf(cs).value;
    var i := ContenderIsNewest(policy, st, key, ctx, r);
    assert SlotInv(policy, key, st.slots[key], st.streams.Keys);
  }

  /**
   In every sound store, at every instant and for any link facts, a delta derived for the winner of
   a counter slot rests on that source's retained pair: the newer sample is the winning evidence
   itself and fresh, both are in the source's current scope and the link's current generation, the
   older one is not expired, revisions increase, gap epochs are equal, the window is positive and
   within bound, and no reset lies between them.
   */
  lemma {:induction false} DerivedIsJustified(policy: Policy, st: StoreState, facts: LinkFacts, key: SlotKey, ctx: EvaluationContext)
    returns (previous: CounterSample, latest: CounterSample)
    requires StoreInv(policy, st) && IsCounterFamily(key.key.family)
    requires WinnerOf(ContendersOf(policy, st, key, ctx)).Some?
    requires
      var w := WinnerOf(ContendersOf(policy, st, key, ctx)).value;
      DerivedFor(policy, st, facts, key, SourceOf(w.evidence), ctx).hasDelta
    ensures Justified(policy, st, key, WinnerOf(ContendersOf(policy, st, key, ctx)).value, ctx, previous, latest)
  {
    var w := WinnerOf(ContendersOf(policy, st, key, ctx)).value;
    WinnerIsLatestSample(policy, st, key, ctx);
    var pair := RetainedPair(st, key, SourceOf(w.evidence)).value;
    previous, latest := pair.0, pair.1;
    DeltaIsGuarded(RequestFor(policy, st, key, SourceOf(w.evidence), ctx, pair, 0));
    SampleAgesLikeEvidence(latest, w.evidence, ctx.now, FreshnessPolicyFor(policy, key.key.family));
  }

  /**
   A derived utilization is, in addition, exactly the floor of 8e18 * delta / (capacity * window)
   for the declared capacity of the key's direction.
   */
  lemma {:induction false} DerivedUtilizationIsExact(policy: Policy, st: StoreState, facts: LinkFacts, key: SlotKey, source: SourceId, ctx: EvaluationContext)
    requires DerivedFor(policy, st, facts, key, source, ctx).utilization.Some?
    ensures
      var d := DerivedFor(policy, st, facts, key, source, ctx);
      && d.hasDelta && d.window > 0 && CapacityFor(facts, key.key.direction).Some?
      && var capacity := CapacityFor(facts, key.key.direction).value;
         capacity * d.window > 0 && d.utilization.value == 8 * d.delta * PPB_NANOS / (capacity * d.window)
  {
    var pair := RetainedPair(st, key, source).value;
    var capacity := CapacityFor(facts, key.key.direction).value;
    assert DeriveDelta(RequestFor(policy, st, key, source, ctx, pair, 0)) == DeriveDelta(RequestFor(policy, st, key, source, ctx, pair, capacity));
    DeltaIsGuarded(RequestFor(policy, st, key, source, ctx, pair, 0));
    Positive(capacity, DerivedFor(policy, st, facts, key, source, ctx).window);
  }
}
