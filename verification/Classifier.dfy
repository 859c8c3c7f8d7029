/**
 Deterministic link classification (src/classify/classifier.cpp:252-792).

 The report list, the summary flags and the precedence are modelled; rule texts, rendered values and
 the last-known state taken from the transition log are not.
 */
module Classifier {
  import opened Checked
  import opened Domain
  import opened CounterTracker
  import opened EvidenceAge
  import opened StoreSpec
  import opened StoreQuery
  import opened Winner
  import opened Derivation

  datatype LinkState =
    | Unknown | Healthy | Degraded | Down | Flapping | Saturated | Erroring | Stale | Conflicting

  /** What the runtime concluded about one metric key. A winner is always an eligible contender. */
  datatype FamilyReport = FamilyReport(
    key: MetricKey, supported: bool, freshness: Freshness, confidence: Confidence, completeness: Completeness,
    conflict: ConflictState, contenders: nat, winner: Option<EvaluatedEvidence>, derived: Option<Derived>)

  /** Everything a classification reads besides the store. */
  datatype Input = Input(
    policy: Policy, facts: LinkFacts, link: LinkId, currentGeneration: GenerationId, now: TimePoint,
    events: seq<TransitionEvent>)
  {
    function Context(): EvaluationContext {
      EvaluationContext(now, currentGeneration, ValidId(currentGeneration))
    }
    function Slot(key: MetricKey): SlotKey { SlotKey(link, key) }
  }

  // ---------------------------------------------------------------------------
  // Keys in order
  // ---------------------------------------------------------------------------

  const OPER_KEY: MetricKey := MetricKey(OperState, Direction.Unknown, ErrorClass.None)
  const ADMIN_KEY: MetricKey := MetricKey(AdminState, Direction.Unknown, ErrorClass.None)
  const OCTETS_KEY: MetricKey := MetricKey(Octets, In, ErrorClass.None)

  /** The i-th key in family, direction, error class order. */
  function KeyAt(i: nat): MetricKey
    requires i < MAX_KEYS_PER_LINK
  {
    MetricKey(FAMILIES[i / 32], DIRECTIONS[(i / 8) % 4], ERROR_CLASSES[i % 8])
  }

  /** Every key with a slot, plus the three that are always reported. */
  predicate Reported(st: StoreState, link: LinkId, key: MetricKey) {
    SlotKey(link, key) in st.slots || key in {OPER_KEY, ADMIN_KEY, OCTETS_KEY}
  }

  /** The reported keys among the first n, in key order. */
  function ReportedKeys(st: StoreState, link: LinkId, n: nat): seq<MetricKey>
    requires n <= MAX_KEYS_PER_LINK
  {
    if n == 0 then []
    else if Reported(st, link, KeyAt(n - 1)) then ReportedKeys(st, link, n - 1) + [KeyAt(n - 1)]
    else ReportedKeys(st, link, n - 1)
  }

  // ---------------------------------------------------------------------------
  // Disagreement
  // ---------------------------------------------------------------------------

  function RelativeDifference(lhs: U64, rhs: U64): U64 {
    var difference := if lhs > rhs then lhs - rhs else rhs - lhs;
    var scale := if lhs > rhs then lhs else rhs;
    if scale == 0 then 0
    else match RatioSpec(difference, scale)
      case Failed => 1_000_000_000
      case Exact(relative) => relative
  }

  method ComputeRelativeDifference(lhs: U64, rhs: U64) returns (r: U64)
    ensures r == RelativeDifference(lhs, rhs)
  {
    var difference := if lhs > rhs then lhs - rhs else rhs - lhs;
    var scale := if lhs > rhs then lhs else rhs;
    if scale == 0 {
      return 0;
    }
    var relative := RatioPpb(difference, scale);
    return if relative.Failed? then 1_000_000_000 else relative.value;
  }

  /** Two readings of one key contradict each other. */
  predicate ReadingsDisagree(lhs: MetricPayload, rhs: MetricPayload, tolerance: nat) {
    match lhs
    case Admin(a) => rhs.Admin? && a != rhs.admin && a != AdminStateValue.Unknown && rhs.admin != AdminStateValue.Unknown
    case Oper(o) => rhs.Oper? && o != rhs.oper && o != OperStateValue.Unknown && rhs.oper != OperStateValue.Unknown
    case Ratio(ppb) => rhs.Ratio? && RelativeDifference(ppb, rhs.ppb) > tolerance
    case Quality(ppb, _) => rhs.Quality? && RelativeDifference(ppb, rhs.qualityPpb) > tolerance
    case Counter(_) => false
    case Flap(_, _) => false
  }

  function TopAuthority(cs: seq<EvaluatedEvidence>): SourceAuthority {
    if cs == [] then SourceAuthority.Unknown
    else
      var best, c := TopAuthority(cs[..|cs| - 1]), cs[|cs| - 1];
      if c.eligible && c.evidence.authority.Rank() > best.Rank() then c.evidence.authority else best
  }

  function TopContenders(cs: seq<EvaluatedEvidence>, authority: SourceAuthority): seq<EvaluatedEvidence> {
    if cs == [] then []
    else
      var rest, c := TopContenders(cs[..|cs| - 1], authority), cs[|cs| - 1];
      if c.eligible && c.evidence.authority == authority then rest + [c] else rest
  }

  /** A counter family always compares the winner's utilization with the right-hand source's. */
  predicate Disagree(input: Input, st: StoreState, key: MetricKey, derived: Option<Derived>, lhs: EvaluatedEvidence, rhs: EvaluatedEvidence) {
    var tolerance := input.policy.thresholds.conflictTolerancePpb;
    if IsCounterFamily(key.family) then
      var right := DerivedFor(input.policy, st, input.facts, input.Slot(key), SourceOf(rhs.evidence), input.Context());
      && derived.Some? && derived.value.utilization.Some? && right.utilization.Some?
      && RelativeDifference(derived.value.utilization.value, right.utilization.value) > tolerance
    else ReadingsDisagree(lhs.evidence.observation.payload, rhs.evidence.observation.payload, tolerance)
  }

  ghost predicate Compared(top: seq<EvaluatedEvidence>, l: int, r: int) {
    0 <= l < r < |top| && SourceOf(top[l].evidence) != SourceOf(top[r].evidence)
  }

  ghost predicate DisagreementAmong(input: Input, st: StoreState, key: MetricKey, derived: Option<Derived>, top: seq<EvaluatedEvidence>) {
    exists l, r :: Compared(top, l, r) && Disagree(input, st, key, derived, top[l], top[r])
  }

  ghost function ConflictAmong(input: Input, st: StoreState, key: MetricKey, derived: Option<Derived>, top: seq<EvaluatedEvidence>): ConflictState {
    if |top| < 2 then Insufficient
    else if DisagreementAmong(input, st, key, derived, top) then ConflictState.Conflicting
    else if exists l, r :: Compared(top, l, r) then Corroborated
    else NoConflict
  }

  ghost function ConflictOf(input: Input, st: StoreState, key: MetricKey, winner: Option<EvaluatedEvidence>, derived: Option<Derived>,
                            cs: seq<EvaluatedEvidence>): ConflictState {
    var authority := TopAuthority(cs);
    if winner.None? || authority == SourceAuthority.Unknown then NoConflict
    else ConflictAmong(input, st, key, derived, TopContenders(cs, authority))
  }

  /** The pairwise comparison, stopping the outer loop at the first disagreement. */
  method CompareTop(input: Input, st: StoreState, key: MetricKey, derived: Option<Derived>, top: seq<EvaluatedEvidence>) returns (c: ConflictState)
    ensures c == ConflictAmong(input, st, key, derived, top)
  {
    if |top| < 2 {
      return Insufficient;
    }
    var conflicting, compared := false, false;
    var l := 0;
    while l < |top| && !conflicting
      invariant 0 <= l <= |top|
      invariant conflicting ==> DisagreementAmong(input, st, key, derived, top)
      invariant compared ==> exists p, q :: Compared(top, p, q)
      invariant !compared ==> forall p, q | 0 <= p < l :: !Compared(top, p, q)
      invariant !conflicting ==> forall p, q | 0 <= p < l && Compared(top, p, q) :: !Disagree(input, st, key, derived, top[p], top[q])
    {
      var r := l + 1;
      while r < |top|
        invariant l < r <= |top|
        invariant conflicting ==> DisagreementAmong(input, st, key, derived, top)
        invariant compared ==> exists p, q :: Compared(top, p, q)
        invariant !compared ==> forall p, q | 0 <= p < l || (p == l && q < r) :: !Compared(top, p, q)
        invariant !conflicting ==> forall p, q | (0 <= p < l || (p == l && q < r)) && Compared(top, p, q) :: !Disagree(input, st, key, derived, top[p], top[q])
      {
        if SourceOf(top[l].evidence) != SourceOf(top[r].evidence) {
          assert Compared(top, l, r);
          compared := true;
          var disagree := Compare(input, st, key, derived, top[l], top[r]);
          if disagree {
            conflicting := true;
          }
        }
        r := r + 1;
      }
      l := l + 1;
    }
    return if conflicting then ConflictState.Conflicting else if compared then Corroborated else NoConflict;
  }

  method Compare(input: Input, st: StoreState, key: MetricKey, derived: Option<Derived>, lhs: EvaluatedEvidence, rhs: EvaluatedEvidence) returns (b: bool)
    ensures b == Disagree(input, st, key, derived, lhs, rhs)
  {
    if !IsCounterFamily(key.family) {
      return ReadingsDisagree(lhs.evidence.observation.payload, rhs.evidence.observation.payload, input.policy.thresholds.conflictTolerancePpb);
    }
    var right := DeriveFor(input.policy, st, input.facts, input.Slot(key), SourceOf(rhs.evidence), input.Context());
    if derived.None? || derived.value.utilization.None? || right.utilization.None? {
      return false;
    }
    var difference := ComputeRelativeDifference(derived.value.utilization.value, right.utilization.value);
    return difference > input.policy.thresholds.conflictTolerancePpb;
  }

  // ---------------------------------------------------------------------------
  // One report
  // ---------------------------------------------------------------------------

  function FreshnessRank(f: Freshness): nat {
    match f
    case Fresh => 3
    case Stale => 2
    case Expired => 1
    case Unknown => 0
  }

  function StrongestFreshness(cs: seq<EvaluatedEvidence>): Freshness {
    if cs == [] then Freshness.Unknown
    else
      var best, c := StrongestFreshness(cs[..|cs| - 1]), cs[|cs| - 1];
      if FreshnessRank(best) >= FreshnessRank(c.freshness) then best else c.freshness
  }

  ghost function ReportOf(input: Input, st: StoreState, key: MetricKey): FamilyReport {
    var slot, ctx := input.Slot(key), input.Context();
    var cs := ContendersOf(input.policy, st, slot, ctx);
    var winner := WinnerOf(cs);
    var derived :=
      if winner.Some? && IsCounterFamily(key.family)
      then Some(DerivedFor(input.policy, st, input.facts, slot, SourceOf(winner.value.evidence), ctx)) else Option.None;
    var completeness := CompletenessOf(input.policy, st, slot, input.now);
    var conflict := ConflictOf(input, st, key, winner, derived, cs);
    FamilyReport(
      key, slot in st.slots && st.slots[slot].accepted > 0, StrongestFreshness(cs),
      if winner.Some? then DeriveConfidence(winner.value.evidence.authority, winner.value.freshness, conflict, completeness)
      else Confidence.Unknown,
      completeness, conflict, |cs|, winner, derived)
  }

  /** One report per key, in order. */
  ghost function ReportsFor(input: Input, st: StoreState, keys: seq<MetricKey>): seq<FamilyReport> {
    seq(|keys|, i requires 0 <= i < |keys| => ReportOf(input, st, keys[i]))
  }

  ghost function AllReports(input: Input, st: StoreState): seq<FamilyReport> {
    ReportsFor(input, st, ReportedKeys(st, input.link, MAX_KEYS_PER_LINK))
  }

  // ---------------------------------------------------------------------------
  // Summary flags
  // ---------------------------------------------------------------------------

  /** What the loops over the reports collect. */
  datatype Summary = Summary(
    anyEvidence: bool, anyEligible: bool, anyConflict: bool, flapEvents: Option<U64>,
    reportedUtil: Option<U64>, derivedUtil: Option<U64>, errorRatio: Option<U64>, discardRatio: Option<U64>,
    worstQuality: Option<U64>, declaredDegraded: bool, incomplete: bool, unsupported: bool)

  const BLANK_SUMMARY: Summary :=
    Summary(false, false, false, Option.None, Option.None, Option.None, Option.None, Option.None, Option.None, false, false, false)

  function Larger(best: Option<U64>, v: U64): Option<U64> {
    if best.Some? && best.value >= v then best else Some(v)
  }

  function PayloadOf(r: FamilyReport): Option<MetricPayload> {
    if r.winner.Some? then Some(r.winner.value.evidence.observation.payload) else Option.None
  }

  /** The traffic baseline of the ratios: the first inbound octet report with a delta. */
  function OctetBase(reports: seq<FamilyReport>): Option<Derived> {
    if reports == [] then Option.None
    else if reports[0].key.family == Octets && reports[0].key.direction == In && reports[0].winner.Some?
            && reports[0].derived.Some? && reports[0].derived.value.hasDelta then reports[0].derived
    else OctetBase(reports[1..])
  }

  /** Errors or discards per octet over the same window as the baseline. */
  function RatioOf(r: FamilyReport, base: Option<Derived>): Option<U64> {
    if r.derived.Some? && r.derived.value.hasDelta && base.Some? && base.value.window == r.derived.value.window then
      match RatioSpec(r.derived.value.delta, base.value.delta)
      case Failed => Option.None
      case Exact(v) => Some(v)
    else Option.None
  }

  /** A worst value of zero counts as unset, so any later reading replaces it. */
  function WorseQuality(worst: Option<U64>, v: U64): Option<U64> {
    if worst.None? || worst.value == 0 || v < worst.value then Some(v) else worst
  }

  predicate Decisive(r: FamilyReport) { r.key.family != FlapReport && r.key.direction != Both }

  function SummaryStep(s: Summary, r: FamilyReport, base: Option<Derived>): Summary {
    var family, payload, ratio := r.key.family, PayloadOf(r), RatioOf(r, base);
    Summary(
      s.anyEvidence || r.contenders > 0,
      s.anyEligible || r.winner.Some?,
      s.anyConflict || r.conflict == ConflictState.Conflicting,
      if family == FlapReport && payload.Some? && payload.value.Flap? then Larger(s.flapEvents, payload.value.events) else s.flapEvents,
      if family == UtilReported && payload.Some? then
        Larger(s.reportedUtil, match payload.value
                               case Ratio(ppb) => ppb
                               case Quality(ppb, _) => ppb
                               case Admin(_) => 0
                               case Oper(_) => 0
                               case Counter(_) => 0
                               case Flap(_, _) => 0)
      else s.reportedUtil,
      if family == Octets && r.derived.Some? && r.derived.value.utilization.Some?
      then Larger(s.derivedUtil, r.derived.value.utilization.value) else s.derivedUtil,
      if family == Errors && ratio.Some? then ratio else s.errorRatio,
      if family == Discards && ratio.Some? then ratio else s.discardRatio,
      if family == SignalQuality && payload.Some? && payload.value.Quality?
      then WorseQuality(s.worstQuality, payload.value.qualityPpb) else s.worstQuality,
      s.declaredDegraded || (family == SignalQuality && payload.Some? && payload.value.Quality? && payload.value.degradedDeclared),
      s.incomplete || (Decisive(r) && r.supported && r.completeness == Incomplete),
      s.unsupported || (Decisive(r) && !r.supported && family == OperState))
  }

  function SummaryOf(reports: seq<FamilyReport>, base: Option<Derived>): Summary {
    if reports == [] then BLANK_SUMMARY
    else SummaryStep(SummaryOf(reports[..|reports| - 1], base), reports[|reports| - 1], base)
  }

  function FindReport(reports: seq<FamilyReport>, key: MetricKey): Option<FamilyReport> {
    if reports == [] then Option.None
    else if reports[0].key == key then Some(reports[0])
    else FindReport(reports[1..], key)
  }

  function OperValue(reports: seq<FamilyReport>): OperStateValue {
    var r := FindReport(reports, OPER_KEY);
    if r.Some? && PayloadOf(r.value).Some? && PayloadOf(r.value).value.Oper? then PayloadOf(r.value).value.oper else OperStateValue.Unknown
  }

  function AdminValue(reports: seq<FamilyReport>): AdminStateValue {
    var r := FindReport(reports, ADMIN_KEY);
    if r.Some? && PayloadOf(r.value).Some? && PayloadOf(r.value).value.Admin? then PayloadOf(r.value).value.admin else AdminStateValue.Unknown
  }

  /** Observed administrative and operational changes inside the flap window. */
  function FlapCount(events: seq<TransitionEvent>, start: TimePoint): nat {
    if events == [] then 0
    else
      var e := events[|events| - 1];
      FlapCount(events[..|events| - 1], start)
      + (if e.at >= start && (e.kind == AdminStateChanged || e.kind == OperStateChanged) then 1 else 0)
  }

  function WindowStart(now: TimePoint, window: Duration): TimePoint {
    match CheckedSubI64(now, window)
    case Failed => 0
    case Exact(t) => t
  }

  predicate AtLeast(v: Option<U64>, threshold: nat) { v.Some? && v.value >= threshold }

  // ---------------------------------------------------------------------------
  // Rules and precedence
  // ---------------------------------------------------------------------------

  datatype Findings = Findings(
    noEvidence: bool, conflict: bool, operDown: bool, adminDisabled: bool, flapping: bool, sourceFlapping: bool,
    erroring: bool, saturated: bool, degraded: bool, unjustified: bool, staleEvidence: bool, healthy: bool)

  function FindingsOf(policy: Policy, s: Summary, oper: OperStateValue, admin: AdminStateValue, flaps: nat): Findings {
    var t := policy.thresholds;
    var flapping := flaps >= t.flapThreshold;
    var sourceFlapping := AtLeast(s.flapEvents, t.flapThreshold);
    var erroring := AtLeast(s.errorRatio, t.errorRatioPpb);
    var saturated := AtLeast(s.reportedUtil, t.saturationPpb) || AtLeast(s.derivedUtil, t.saturationPpb);
    var quality := s.declaredDegraded || (s.worstQuality.Some? && s.worstQuality.value <= t.degradedQualityPpb);
    var degraded := quality || AtLeast(s.discardRatio, t.discardRatioPpb) || oper == OperStateValue.Degraded;
    var unjustified := s.incomplete || s.unsupported;
    Findings(
      !s.anyEvidence, s.anyConflict, oper == OperStateValue.Down, admin == Disabled, flapping, sourceFlapping,
      erroring, saturated, degraded, unjustified, s.anyEvidence && !s.anyEligible,
      oper == Up && !s.anyConflict && !erroring && !saturated && !degraded && !flapping && !sourceFlapping && !unjustified)
  }

  /** The fixed precedence of the states. */
  function StateFrom(f: Findings): LinkState {
    if f.noEvidence then LinkState.Unknown
    else if f.conflict then LinkState.Conflicting
    else if f.operDown || f.adminDisabled then LinkState.Down
    else if f.flapping || f.sourceFlapping then Flapping
    else if f.erroring then Erroring
    else if f.saturated then Saturated
    else if f.degraded then LinkState.Degraded
    else if f.unjustified then LinkState.Unknown
    else if f.staleEvidence then LinkState.Stale
    else if f.healthy then Healthy
    else LinkState.Unknown
  }

  ghost function StateOf(input: Input, st: StoreState): LinkState {
    var reports := AllReports(input, st);
    var flaps := FlapCount(input.events, WindowStart(input.now, input.policy.thresholds.flapWindow));
    StateFrom(FindingsOf(input.policy, SummaryOf(reports, OctetBase(reports)), OperValue(reports), AdminValue(reports), flaps))
  }

  // ---------------------------------------------------------------------------
  // The computation
  // ---------------------------------------------------------------------------

  method BuildReport(input: Input, st: StoreState, key: MetricKey) returns (report: FamilyReport)
    ensures report == ReportOf(input, st, key)
  {
    var slot, ctx := input.Slot(key), input.Context();
    var cs := ContendersOf(input.policy, st, slot, ctx);
    var winner := SelectWinner(cs);
    var derived: Option<Derived> := Option.None;
    if winner.Some? && IsCounterFamily(key.family) {
      var values := DeriveFor(input.policy, st, input.facts, slot, SourceOf(winner.value.evidence), ctx);
      derived := Some(values);
    }
    var authority := TopAuthority(cs);
    var conflict := NoConflict;
    if winner.Some? && authority != SourceAuthority.Unknown {
      conflict := CompareTop(input, st, key, derived, TopContenders(cs, authority));
    }
    var completeness := CompletenessOf(input.policy, st, slot, input.now);
    var confidence := if winner.Some?
      then DeriveConfidence(winner.value.evidence.authority, winner.value.freshness, conflict, completeness)
      else Confidence.Unknown;
    return FamilyReport(key, slot in st.slots && st.slots[slot].accepted > 0, StrongestFreshness(cs), confidence,
                        completeness, conflict, |cs|, winner, derived);
  }

  /** Every key to report on, in key order. */
  method KeysFor(link: LinkId, st: StoreState) returns (keys: seq<MetricKey>)
    ensures keys == ReportedKeys(st, link, MAX_KEYS_PER_LINK)
  {
    keys := [];
    var n := 0;
    while n < MAX_KEYS_PER_LINK
      invariant 0 <= n <= MAX_KEYS_PER_LINK
      invariant keys == ReportedKeys(st, link, n)
    {
      if Reported(st, link, KeyAt(n)) {
        keys := keys + [KeyAt(n)];
      }
      n := n + 1;
    }
  }

  /** One report per key. */
  method BuildReports(input: Input, st: StoreState, keys: seq<MetricKey>) returns (reports: seq<FamilyReport>)
    ensures reports == ReportsFor(input, st, keys)
  {
    reports := [];
    var n := 0;
    while n < |keys|
      invariant 0 <= n <= |keys|
      invariant |reports| == n && forall i | 0 <= i < n :: reports[i] == ReportOf(input, st, keys[i])
    {
      var report := BuildReport(input, st, keys[n]);
      reports := reports + [report];
      n := n + 1;
    }
  }

  /** One pass over the reports. */
  method Summarise(reports: seq<FamilyReport>, base: Option<Derived>) returns (summary: Summary)
    ensures summary == SummaryOf(reports, base)
  {
    summary := BLANK_SUMMARY;
    var i := 0;
    while i < |reports|
      invariant 0 <= i <= |reports|
      invariant summary == SummaryOf(reports[..i], base)
    {
      assert reports[..i + 1][..i] == reports[..i];
      summary := SummaryStep(summary, reports[i], base);
      i := i + 1;
    }
    assert reports[..i] == reports;
  }

  /** classify: a report per key in key order, one pass over the reports, then the precedence. */
  method Classify(input: Input, st: StoreState) returns (state: LinkState, reports: seq<FamilyReport>)
    ensures reports == AllReports(input, st)
    ensures state == StateOf(input, st)
  {
    var keys := KeysFor(input.link, st);
    reports := BuildReports(input, st, keys);
    var summary := Summarise(reports, OctetBase(reports));
    var flaps := FlapCount(input.events, WindowStart(input.now, input.policy.thresholds.flapWindow));
    state := StateFrom(FindingsOf(input.policy, summary, OperValue(reports), AdminValue(reports), flaps));
  }
}
