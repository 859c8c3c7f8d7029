/**
 A link that loses everything inbound and is classified Healthy: its inbound quality reads zero and every
 inbound octet is in error, but the outbound readings, later in report order, replace both
 (src/classify/classifier.cpp:571-582 and 600-603).
 */
module MaskedLoss {
  import opened Checked
  import opened Domain
  import opened CounterTracker
  import opened EvidenceAge
  import opened StoreSpec
  import opened StoreQuery
  import opened Winner
  import opened Derivation
  import opened Classifier
  import opened ClassifierSoundness
  import opened QualityRule
  import opened RatioRule
  import opened LateFences
  import opened ChiefRuns

  const ERRORS_IN: MetricKey := MetricKey(Errors, In, ErrorClass.None)
  const ERRORS_OUT: MetricKey := MetricKey(Errors, Out, ErrorClass.None)
  const QUALITY_IN: MetricKey := MetricKey(SignalQuality, In, ErrorClass.None)
  const QUALITY_OUT: MetricKey := MetricKey(SignalQuality, Out, ErrorClass.None)

  function Count(raw: U64): MetricPayload { Counter(CounterReading(raw, Bits64, false)) }

  /** Two readings of each of three counters, 100 ns apart, and one of state and quality. */
  const LOSS: seq<Call> := [
    ChiefRuns.Reading(OCTETS_KEY, Count(0), 1, 100), ChiefRuns.Reading(ERRORS_IN, Count(0), 2, 100), ChiefRuns.Reading(ERRORS_OUT, Count(0), 3, 100),
    ChiefRuns.Reading(OCTETS_KEY, Count(1000), 4, 200), ChiefRuns.Reading(ERRORS_IN, Count(1000), 5, 200), ChiefRuns.Reading(ERRORS_OUT, Count(0), 6, 200),
    ChiefRuns.Reading(OPER_KEY, Oper(Up), 7, 200), ChiefRuns.Reading(QUALITY_IN, Quality(0, false), 8, 200),
    ChiefRuns.Reading(QUALITY_OUT, Quality(900_000_000, false), 9, 200)]

  /** A policy that keeps and believes these readings; its thresholds lie between the good and the bad ones. */
  predicate Ordinary(policy: Policy) {
    && policy.limits.maxLinks > 0 && policy.limits.maxEvidencePerKey >= 2
    && (forall family: MetricFamily :: FreshnessPolicyFor(policy, family).freshWithin >= 110)
    && policy.thresholds.derivationWindow >= 100 && policy.thresholds.flapThreshold > 0
    && policy.thresholds.degradedQualityPpb < 900_000_000 && 0 < policy.thresholds.errorRatioPpb <= 1_000_000_000
  }

  lemma {:induction false} LossInTurn(policy: Policy)
    ensures InTurn(policy, LOSS)
  {
  }

  // ---------------------------------------------------------------------------
  // The slots
  // ---------------------------------------------------------------------------

  /** The store holds what was built from the calls, and the chief is in its scope. */
  ghost predicate AfterLoss(policy: Policy, st: StoreState) {
    st.slots == Built(policy, LOSS) && Reached(StreamOf(st, CHIEF.id), 9)
  }

  const LINE_UP: LinkFacts := LinkFacts(LINK, "link", 0, 0, 0, 0, Physical, 3, false, 0, 0, Real)

  function LossInput(policy: Policy): Input { Input(policy, LINE_UP, LINK, 3, 210, []) }

  /** The call whose evidence is the newest of the i-th slot. */
  function LastCall(i: nat): Call
    requires i < 6
  {
    LOSS[i + 3]
  }

  /** A slot that holds the chief's readings only, the newest of them this call's. */
  ghost predicate LedBy(slot: Slot, c: Call) {
    && |slot.history| > 0 && slot.history[|slot.history| - 1] == EvidenceOf(c.observation, CHIEF, c.now)
    && (forall k | 0 <= k < |slot.history| :: StoreQuery.SourceOf(slot.history[k]) == CHIEF.id)
    && slot.accepted > 0 && !slot.hasGap
  }

  lemma KeysApart(i: nat, j: nat)
    requires i < 6 && j < 9 && j != i + 3 && (i < 3 ==> j != i)
    ensures LOSS[j].Key() != LastCall(i).Key()
  {
  }

  function FirstSample(i: nat): CounterSample
    requires i < 3
  {
    SampleOf(LOSS[i].observation, 0)
  }

  function SecondSample(i: nat): CounterSample
    requires i < 3
  {
    SampleOf(LOSS[i + 3].observation, 0)
  }

  lemma {:induction false} PairRecorded(policy: Policy, i: nat, slot: Slot)
    requires Ordinary(policy) && i < 3
    requires slot == WithReading(policy, WithReading(policy, NewSlot(LOSS[i].observation.key), LOSS[i]), LastCall(i))
    ensures LedBy(slot, LastCall(i)) && CHIEF.id in slot.continuity
    ensures slot.continuity[CHIEF.id].previous == Some(FirstSample(i)) && slot.continuity[CHIEF.id].latest == Some(SecondSample(i))
  {
  }

  /** The three counter slots hold a pair of samples. */
  lemma {:induction false} PairHeld(policy: Policy, st: StoreState, i: nat)
    requires Ordinary(policy) && AfterLoss(policy, st) && i < 3
    ensures LastCall(i).Key() in st.slots && LedBy(st.slots[LastCall(i).Key()], LastCall(i))
    ensures RetainedPair(st, LastCall(i).Key(), CHIEF.id) == Some((FirstSample(i), SecondSample(i)))
  {
    forall k | 0 <= k < 9 && k != i && k != i + 3 ensures LOSS[k].Key() != LOSS[i].Key() { KeysApart(i, k); }
    BuiltTwice(policy, LOSS, i, i + 3);
    PairRecorded(policy, i, st.slots[LastCall(i).Key()]);
  }

  lemma {:induction false} OneHeld(policy: Policy, st: StoreState, i: nat)
    requires Ordinary(policy) && AfterLoss(policy, st) && 3 <= i < 6
    ensures LastCall(i).Key() in st.slots && LedBy(st.slots[LastCall(i).Key()], LastCall(i))
  {
    forall k | 0 <= k < 9 && k != i + 3 ensures LOSS[k].Key() != LastCall(i).Key() { KeysApart(i, k); }
    BuiltOnce(policy, LOSS, i + 3);
  }

  // ---------------------------------------------------------------------------
  // One report
  // ---------------------------------------------------------------------------

  /** A source already listed is not listed again. */
  lemma {:induction false} NoneLeft(h: seq<Evidence>, n: nat, source: SourceId)
    requires n <= |h| && forall k | 0 <= k < n :: StoreQuery.SourceOf(h[k]) == source
    ensures NewestPerSource(h, n, {source}) == []
  {
    if n > 0 {
      NoneLeft(h, n - 1, source);
    }
  }

  lemma {:induction false} OneContender(policy: Policy, st: StoreState, slot: SlotKey, ctx: EvaluationContext, e: Evidence)
    requires slot in st.slots && st.slots[slot].history != []
    requires
      var h := st.slots[slot].history;
      h[|h| - 1] == e && forall k | 0 <= k < |h| :: StoreQuery.SourceOf(h[k]) == CHIEF.id
    ensures ContendersOf(policy, st, slot, ctx) == [Evaluate(policy, st, slot, ctx, e)]
  {
    var h := st.slots[slot].history;
    NoneLeft(h, |h| - 1, CHIEF.id);
    assert {} + {CHIEF.id} == {CHIEF.id};
    assert NewestPerSource(h, |h|, {}) == [e] + NewestPerSource(h, |h| - 1, {CHIEF.id});
  }

  lemma {:induction false} OnlyWinner(cs: seq<EvaluatedEvidence>)
    requires |cs| == 1 && cs[0].eligible
    ensures WinnerOf(cs) == Some(cs[0]) && forall authority :: |TopContenders(cs, authority)| < 2
  {
    assert cs[..0] == [];
  }

  lemma {:induction false} ReadingStands(policy: Policy, st: StoreState, i: nat)
    requires Ordinary(policy) && AfterLoss(policy, st) && i < 6
    ensures
      var c := LastCall(i);
      Evaluate(policy, st, c.Key(), LossInput(policy).Context(), EvidenceOf(c.observation, CHIEF, c.now)).eligible
  {
  }

  /** A report that raises no flag but those of its payload and its ratio. */
  ghost predicate Calm(r: FamilyReport) {
    && r.key.family !in {FlapReport, UtilReported, Discards} && r.conflict != ConflictState.Conflicting
    && r.completeness != Incomplete && (r.key.family == OperState ==> r.supported)
    && (r.derived.Some? ==> r.derived.value.utilization.None?)
    && (PayloadOf(r).Some? && PayloadOf(r).value.Quality? ==> !PayloadOf(r).value.degradedDeclared)
  }

  /** A reading's report: unopposed, it wins. */
  lemma {:induction false} ReportOfReading(policy: Policy, st: StoreState, i: nat)
    requires Ordinary(policy) && AfterLoss(policy, st) && i < 6
    requires LastCall(i).Key() in st.slots && LedBy(st.slots[LastCall(i).Key()], LastCall(i))
    ensures
      var input, c := LossInput(policy), LastCall(i);
      var r := ReportOf(input, st, c.observation.key);
      && r.key == c.observation.key && r.contenders == 1 && PayloadOf(r) == Some(c.observation.payload)
      && r.conflict != ConflictState.Conflicting && r.completeness != Incomplete && r.supported
      && r.derived == if i < 3 then Some(DerivedFor(policy, st, LINE_UP, c.Key(), CHIEF.id, input.Context())) else Option.None
  {
    var input, c := LossInput(policy), LastCall(i);
    OneContender(policy, st, c.Key(), input.Context(), EvidenceOf(c.observation, CHIEF, c.now));
    ReadingStands(policy, st, i);
    OnlyWinner(ContendersOf(policy, st, c.Key(), input.Context()));
  }

  lemma {:induction false} ReportOfNothing(policy: Policy, st: StoreState)
    requires SlotKey(LINK, ADMIN_KEY) !in st.slots
    ensures
      var r := ReportOf(LossInput(policy), st, ADMIN_KEY);
      Calm(r) && r.key == ADMIN_KEY && PayloadOf(r).None? && r.derived.None?
  {
  }

  function DeltaOf(i: nat): U64 { if i == 2 then 0 else 1000 }

  /** What each counter's pair derives to: a delta over 100 ns, and no utilization for want of a capacity. */
  lemma {:induction false} DerivedOf(policy: Policy, st: StoreState, i: nat)
    requires Ordinary(policy) && AfterLoss(policy, st) && i < 3
    requires RetainedPair(st, LastCall(i).Key(), CHIEF.id) == Some((FirstSample(i), SecondSample(i)))
    ensures DerivedFor(policy, st, LINE_UP, LastCall(i).Key(), CHIEF.id, LossInput(policy).Context())
         == DerivedValues(true, DeltaOf(i), 100, MissingCapacity, Option.None)
  {
    var ctx, slot, pair := LossInput(policy).Context(), LastCall(i).Key(), (FirstSample(i), SecondSample(i));
    assert SampleUsable(policy, st, CHIEF.id, pair.0, slot.key.family, ctx) && SampleUsable(policy, st, CHIEF.id, pair.1, slot.key.family, ctx);
    var d := DeriveDelta(RequestFor(policy, st, slot, CHIEF.id, ctx, pair, 0));
    assert d.valid && d.delta == DeltaOf(i) && d.window == 100;
  }

  // ---------------------------------------------------------------------------
  // Which keys are reported
  // ---------------------------------------------------------------------------

  const KEYS: seq<MetricKey> := [ADMIN_KEY, OPER_KEY, OCTETS_KEY, ERRORS_IN, ERRORS_OUT, QUALITY_IN, QUALITY_OUT]
  const PLACES: seq<nat> := [0, 32, 72, 104, 112, 200, 208]

  function Picked(at: nat -> MetricKey, places: seq<nat>): seq<MetricKey> {
    if places == [] then [] else Picked(at, places[..|places| - 1]) + [at(places[|places| - 1])]
  }

  ghost predicate Ascending(places: seq<nat>, n: nat) {
    (forall i, j | 0 <= i < j < |places| :: places[i] < places[j]) && (forall i | 0 <= i < |places| :: places[i] < n)
  }

  /** The last of ascending places, if one is the last there is. */
  lemma {:induction false} LastPlace(places: seq<nat>, n: nat)
    requires n > 0 && Ascending(places, n)
    ensures n - 1 !in places ==> Ascending(places, n - 1)
    ensures n - 1 in places ==>
      var m := |places| - 1;
      m >= 0 && places[m] == n - 1 && Ascending(places[..m], n - 1) && forall k | k < n - 1 :: k in places <==> k in places[..m]
  {
    if n - 1 in places {
      var m := |places| - 1;
      assert forall j | 0 <= j < |places| :: places[j] <= places[m];
      assert places == places[..m] + [places[m]];
    }
  }

  /** The reported keys are those at the places where a key is reported. */
  lemma {:induction false} ReportedPlaces(st: StoreState, link: LinkId, reported: nat -> bool, at: nat -> MetricKey, places: seq<nat>, n: nat)
    requires n <= MAX_KEYS_PER_LINK && Ascending(places, n)
    requires forall k: nat | k < n :: at(k) == KeyAt(k) && reported(k) == Reported(st, link, at(k))
    requires forall k: nat | k < n :: reported(k) <==> k in places
    ensures ReportedKeys(st, link, n) == Picked(at, places)
    decreases n
  {
    if n > 0 {
      assert at(n - 1) == KeyAt(n - 1);
      LastPlace(places, n);
      ReportedPlaces(st, link, reported, at, if reported(n - 1) then places[..|places| - 1] else places, n - 1);
    }
  }

  lemma KeyPlaces(i: nat)
    requires i < 7
    ensures KeyIndex(KEYS[i]) == PLACES[i] && KeyAt(PLACES[i]) == KEYS[i]
  {
    KeyPlace(KEYS[i]);
  }

  lemma {:induction false} SlotsOfLoss(policy: Policy, st: StoreState, key: MetricKey)
    requires AfterLoss(policy, st) && SlotKey(LINK, key) in st.slots
    ensures key in KEYS && key != ADMIN_KEY
  {
    var i := BuiltFor(policy, LOSS, SlotKey(LINK, key));
  }

  lemma {:induction false} ReportedIff(policy: Policy, st: StoreState, key: MetricKey)
    requires Ordinary(policy) && AfterLoss(policy, st)
    ensures Reported(st, LINK, key) <==> key in KEYS
  {
    if SlotKey(LINK, key) in st.slots {
      SlotsOfLoss(policy, st, key);
    }
    PairHeld(policy, st, 1);
    PairHeld(policy, st, 2);
    OneHeld(policy, st, 4);
    OneHeld(policy, st, 5);
  }

  lemma PlaceIff(k: nat)
    requires k < MAX_KEYS_PER_LINK
    ensures KeyAt(k) in KEYS <==> k in PLACES
  {
    PlaceOfKey(k);
    forall i | 0 <= i < 7 ensures KeyIndex(KEYS[i]) == PLACES[i] && KeyAt(PLACES[i]) == KEYS[i] { KeyPlaces(i); }
  }

  lemma {:induction false} SevenKeys(policy: Policy, st: StoreState)
    requires Ordinary(policy) && AfterLoss(policy, st)
    ensures ReportedKeys(st, LINK, MAX_KEYS_PER_LINK) == KEYS
  {
    var at := (k: nat) => if k < MAX_KEYS_PER_LINK then KeyAt(k) else OPER_KEY;
    var reported := (k: nat) => Reported(st, LINK, at(k));
    forall k: nat | k < MAX_KEYS_PER_LINK ensures reported(k) <==> k in PLACES {
      ReportedIff(policy, st, KeyAt(k));
      PlaceIff(k);
    }
    ReportedPlaces(st, LINK, reported, at, PLACES, MAX_KEYS_PER_LINK);
    PickedKeys(at);
  }

  lemma {:induction false} PickedKeys(at: nat -> MetricKey)
    requires forall i | 0 <= i < 7 :: at(PLACES[i]) == KeyAt(PLACES[i])
    ensures Picked(at, PLACES) == KEYS
  {
    forall n | 0 <= n < 7 ensures PLACES[..n + 1][..n] == PLACES[..n] && at(PLACES[n]) == KEYS[n] { KeyPlaces(n); }
    assert Picked(at, PLACES[..1]) == KEYS[..1] && Picked(at, PLACES[..2]) == KEYS[..2] && Picked(at, PLACES[..3]) == KEYS[..3];
    assert Picked(at, PLACES[..4]) == KEYS[..4] && Picked(at, PLACES[..5]) == KEYS[..5] && Picked(at, PLACES[..6]) == KEYS[..6];
    assert PLACES[..7] == PLACES;
  }

  // ---------------------------------------------------------------------------
  // The state
  // ---------------------------------------------------------------------------

  /** What the winner of the i-th report reads. */
  function PayloadAt(i: nat): Option<MetricPayload> {
    if 1 <= i < 7 then Some(LastCall([3, 0, 1, 2, 4, 5][i - 1]).observation.payload) else Option.None
  }

  ghost predicate LossReport(r: FamilyReport, i: nat)
    requires i < 7
  {
    && Calm(r) && r.key == KEYS[i] && PayloadOf(r) == PayloadAt(i) && (i == 1 ==> r.contenders == 1)
    && r.derived == if 2 <= i < 5 then Some(DerivedValues(true, DeltaOf(i - 2), 100, MissingCapacity, Option.None)) else Option.None
  }

  ghost predicate LossReports(rs: seq<FamilyReport>) { |rs| == 7 && forall i | 0 <= i < 7 :: LossReport(rs[i], i) }

  lemma {:induction false} ReportAtPlace(policy: Policy, st: StoreState, i: nat, j: nat)
    requires Ordinary(policy) && AfterLoss(policy, st) && 1 <= i < 7 && j == [3, 0, 1, 2, 4, 5][i - 1]
    ensures KEYS[i] == LastCall(j).observation.key && LossReport(ReportOf(LossInput(policy), st, LastCall(j).observation.key), i)
  {
    if j < 3 {
      PairHeld(policy, st, j);
      DerivedOf(policy, st, j);
    } else {
      OneHeld(policy, st, j);
    }
    ReportOfReading(policy, st, j);
  }

  lemma {:induction false} ReportsOfLoss(policy: Policy, st: StoreState)
    requires Ordinary(policy) && AfterLoss(policy, st)
    ensures LossReports(ReportsFor(LossInput(policy), st, KEYS))
  {
    forall i | 0 <= i < 7 ensures LossReport(ReportOf(LossInput(policy), st, KEYS[i]), i) {
      if i == 0 {
        if SlotKey(LINK, ADMIN_KEY) in st.slots { SlotsOfLoss(policy, st, ADMIN_KEY); }
        ReportOfNothing(policy, st);
      } else {
        ReportAtPlace(policy, st, i, [3, 0, 1, 2, 4, 5][i - 1]);
      }
    }
  }

  lemma {:induction false} CalmSummary(reports: seq<FamilyReport>, base: Option<Derived>)
    requires forall i | 0 <= i < |reports| :: Calm(reports[i])
    ensures
      var s := SummaryOf(reports, base);
      && !s.anyConflict && s.flapEvents.None? && s.reportedUtil.None? && s.derivedUtil.None?
      && s.discardRatio.None? && !s.declaredDegraded && !s.incomplete && !s.unsupported
  {
    if reports != [] {
      CalmSummary(reports[..|reports| - 1], base);
      assert Calm(reports[|reports| - 1]);
    }
  }

  /** The inbound ratio is a whole, the outbound one zero. */
  lemma {:induction false} TwoRatios(rs: seq<FamilyReport>)
    requires LossReports(rs)
    ensures RatioOf(rs[3], OctetBase(rs)) == Some(1_000_000_000) && KeptRatio(SummaryOf(rs, OctetBase(rs)), Errors) == Some(0)
  {
    var base := OctetBase(rs);
    assert LossReport(rs[0], 0) && LossReport(rs[1], 1) && LossReport(rs[2], 2) && LossReport(rs[3], 3) && LossReport(rs[4], 4);
    assert OctetBase(rs[1..]) == rs[2].derived by { assert OctetBase(rs[1..][1..]) == rs[2].derived; }
    ShiftingQuotientComplete(1000 * NANOS_PER_SECOND, 1000);
    ZeroRatio(1000);
    assert RatesLast(rs, 4, Errors, base) by { assert LossReport(rs[5], 5) && LossReport(rs[6], 6); }
    RatioIsLast(rs, base, Errors);
    var i :| RatesLast(rs, i, Errors, base) && KeptRatio(SummaryOf(rs, base), Errors) == RatioOf(rs[i], base);
    LastIsOne(rs, Errors, base, i, 4);
  }

  lemma {:induction false} TwoQualities(rs: seq<FamilyReport>)
    requires LossReports(rs)
    ensures WorstOf(Qualities(rs)) == Some(900_000_000)
  {
    forall i | 0 <= i < 7 ensures LossReport(rs[i], i) && rs[..i + 1][..i] == rs[..i] {}
    assert Qualities(rs[..1]) == [] && Qualities(rs[..2]) == [] && Qualities(rs[..3]) == [];
    assert Qualities(rs[..4]) == [] && Qualities(rs[..5]) == [];
    assert Qualities(rs[..6]) == [0] && rs[..7] == rs;
    assert Qualities(rs) == [0, 900_000_000];
    assert [0, 900_000_000][..1] == [0] && [0][..0] == [] && WorstOf([0]) == Some(0);
  }

  lemma {:induction false} HealthyFrom(policy: Policy, rs: seq<FamilyReport>)
    requires Ordinary(policy) && LossReports(rs)
    ensures StateFrom(FindingsOf(policy, SummaryOf(rs, OctetBase(rs)), OperValue(rs), AdminValue(rs), 0)) == Healthy
  {
    assert LossReport(rs[0], 0) && LossReport(rs[1], 1);
    CalmSummary(rs, OctetBase(rs));
    TwoRatios(rs);
    TwoQualities(rs);
    SummaryFoldsQualities(rs, OctetBase(rs));
    SummaryMeaning(rs, OctetBase(rs));
    assert FindReport(rs, ADMIN_KEY) == Some(rs[0]);
    assert FindReport(rs, OPER_KEY) == Some(rs[1]) by { assert FindReport(rs[1..], OPER_KEY) == Some(rs[1]); }
  }

  lemma {:induction false} HealthyAfterLoss(policy: Policy, st: StoreState)
    requires Ordinary(policy) && AfterLoss(policy, st)
    ensures
      var input, reports := LossInput(policy), AllReports(LossInput(policy), st);
      && PayloadOf(ReportOf(input, st, QUALITY_IN)) == Some(Quality(0, false))
      && RatioOf(ReportOf(input, st, ERRORS_IN), OctetBase(reports)) == Some(1_000_000_000)
      && KeptRatio(SummaryOf(reports, OctetBase(reports)), Errors) == Some(0) && StateOf(input, st) == Healthy
  {
    SevenKeys(policy, st);
    ReportsOfLoss(policy, st);
    var rs := ReportsFor(LossInput(policy), st, KEYS);
    assert LossReport(rs[5], 5);
    TwoRatios(rs);
    HealthyFrom(policy, rs);
  }

  /**
   Under any ordinary policy the run is accepted in full. A winning quality reading of zero and an error
   for every octet, both inbound, stand in the store; the ratio kept is zero, and the link is Healthy.
   */
  lemma {:induction false} TotalLossIsHealthy(policy: Policy)
    requires Ordinary(policy)
    ensures forall i | 0 <= i < 9 :: AnswerAt(policy, LOSS, i).accepted
    ensures
      var input, st := LossInput(policy), Run(policy, EMPTY_STORE, LOSS);
      var reports := AllReports(input, st);
      && PayloadOf(ReportOf(input, st, QUALITY_IN)) == Some(Quality(0, false))
      && RatioOf(ReportOf(input, st, ERRORS_IN), OctetBase(reports)) == Some(1_000_000_000)
      && KeptRatio(SummaryOf(reports, OctetBase(reports)), Errors) == Some(0) && StateOf(input, st) == Healthy
  {
    LossInTurn(policy);
    ChiefRun(policy, LOSS);
    forall i | 0 <= i < 9 ensures AnswerAt(policy, LOSS, i).accepted { ChiefAnswer(policy, LOSS, i); }
    HealthyAfterLoss(policy, Run(policy, EMPTY_STORE, LOSS));
  }
}
