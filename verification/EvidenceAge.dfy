/** How evidence is aged and trusted (src/domain/evidence.cpp). */
module EvidenceAge {
  import opened Checked
  import opened Domain

  datatype ConflictState = NoConflict | Corroborated | Conflicting | Insufficient

  datatype Confidence = Unknown | Low | Medium | High {
    function Rank(): nat {
      match this
      case Unknown => 0
      case Low => 1
      case Medium => 2
      case High => 3
    }
  }

  datatype AgeReport = AgeReport(observedAge: Duration, receivedAge: Duration, backwardsClock: bool)

  /** An age, or zero when the instant lies ahead or the difference does not fit. */
  function AgeSince(now: TimePoint, instant: TimePoint): Duration {
    var d := Difference(now, instant);
    if d.Exact? && d.value >= 0 then d.value else 0
  }

  predicate ClockSuspect(now: TimePoint, instant: TimePoint) {
    var d := Difference(now, instant);
    d.Failed? || d.value < 0
  }

  function AgeEvidence(e: Evidence, now: TimePoint): AgeReport {
    var o := e.observation;
    AgeReport(AgeSince(now, o.observedAt), AgeSince(now, o.receivedAt),
              ClockSuspect(now, o.observedAt) || ClockSuspect(now, o.receivedAt))
  }

  function ClassifyFreshness(age: AgeReport, policy: FreshnessPolicy): Freshness {
    var effective := EffectiveAge(age);
    if effective <= policy.freshWithin then Fresh
    else if effective <= policy.usableWithin then Stale
    else Expired
  }

  function DeriveConfidence(authority: SourceAuthority, freshness: Freshness, conflict: ConflictState, completeness: Completeness): Confidence {
    if freshness == Freshness.Unknown || freshness == Expired then Confidence.Unknown
    else if conflict == Conflicting then Low
    else if freshness == Stale then Low
    else
      var base := match authority
        case Primary => High
        case Secondary => Medium
        case Derived => Low
        case Synthetic => Low
        case Unknown => Confidence.Unknown;
      if completeness == Incomplete && base == High then Medium
      else if completeness == Incomplete && base == Medium then Low
      else base
  }

  /**
   As time advances an age grows exactly when the later difference still fits, or when there was no
   age to lose: a difference that overflows is clamped to zero.
   */
  lemma AgeGrowsIff(now: TimePoint, later: TimePoint, instant: TimePoint)
    requires now <= later
    ensures AgeSince(now, instant) <= AgeSince(later, instant) <==> Difference(later, instant).Exact? || AgeSince(now, instant) == 0
  {
  }

  /** The age freshness is judged by: the larger of the two. */
  function EffectiveAge(age: AgeReport): Duration {
    if age.observedAge > age.receivedAge then age.observedAge else age.receivedAge
  }

  /** While both differences fit, evidence that is fresh later was fresh before, and expired stays expired. */
  lemma FreshnessOnlyFades(e: Evidence, now: TimePoint, later: TimePoint, policy: FreshnessPolicy)
    requires now <= later
    requires Difference(later, e.observation.observedAt).Exact? && Difference(later, e.observation.receivedAt).Exact?
    ensures ClassifyFreshness(AgeEvidence(e, later), policy) == Fresh ==> ClassifyFreshness(AgeEvidence(e, now), policy) == Fresh
    ensures ClassifyFreshness(AgeEvidence(e, now), policy) == Expired ==> ClassifyFreshness(AgeEvidence(e, later), policy) == Expired
  {
    AgeGrowsIff(now, later, e.observation.observedAt);
    AgeGrowsIff(now, later, e.observation.receivedAt);
  }

  /** The age since one instant still fits later, or is made up for by that since the other. */
  predicate Lasts(now: TimePoint, later: TimePoint, instant: TimePoint, other: TimePoint) {
    Difference(later, instant).Exact? || AgeSince(now, instant) <= AgeSince(later, other)
  }

  /**
   As time advances freshness only fades, under every pair of windows, exactly when neither of the two
   differences overflows, or the one that does leaves an age the other makes up for.
   */
  lemma FadesIff(e: Evidence, now: TimePoint, later: TimePoint)
    requires now <= later
    ensures
      var observed, received := e.observation.observedAt, e.observation.receivedAt;
      (forall policy: FreshnessPolicy :: ClassifyFreshness(AgeEvidence(e, later), policy) == Fresh ==> ClassifyFreshness(AgeEvidence(e, now), policy) == Fresh)
      <==> Lasts(now, later, observed, received) && Lasts(now, later, received, observed)
  {
    var tight := FreshnessPolicy(EffectiveAge(AgeEvidence(e, later)), EffectiveAge(AgeEvidence(e, later)));
    assert ClassifyFreshness(AgeEvidence(e, later), tight) == Fresh;
    AgeGrowsIff(now, later, e.observation.observedAt);
    AgeGrowsIff(now, later, e.observation.receivedAt);
  }

  /**
   Before the epoch the clamp breaks this: the age of a far-past instant overflows and is clamped to
   zero, so evidence that was expired at instant 0 is fresh again one nanosecond later.
   */
  lemma ClampRevivesAncientEvidence(e: Evidence)
    requires e.observation.observedAt == MIN_I64 + 1 && e.observation.receivedAt == MIN_I64 + 1
    ensures
      var policy := FreshnessPolicy(10, 20);
      && ClassifyFreshness(AgeEvidence(e, 0), policy) == Expired
      && ClassifyFreshness(AgeEvidence(e, 1), policy) == Fresh
  {
  }
}
