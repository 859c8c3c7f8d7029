/**
 Soundness of classification: absent, old or superseded evidence never becomes a positive claim.
 */
module ClassifierSoundness {
  import opened Domain
  import opened CounterTracker
  import opened EvidenceAge
  import opened StoreSpec
  import opened StoreInvariant
  import opened StoreQuery
  import opened Winner
  import opened Derivation
  import opened Classifier

  /**
   Retained evidence that may speak about the present: held for this key, fresh at the instant, in
   its source's current scope and in the link's current generation.
   */
  ghost predicate Stands(input: Input, st: StoreState, key: MetricKey, e: Evidence) {
    var slot := input.Slot(key);
    && slot in st.slots && e in st.slots[slot].history
    && Evaluate(input.policy, st, slot, input.Context(), e).eligible
  }

  // ---------------------------------------------------------------------------
  // Reports
  // ---------------------------------------------------------------------------

  lemma ReportKey(input: Input, st: StoreState, key: MetricKey)
    ensures ReportOf(input, st, key).key == key
  {
  }

  lemma {:induction false} KeyIsReported(st: StoreState, link: LinkId, n: nat, k: nat)
    requires k < n <= MAX_KEYS_PER_LINK && Reported(st, link, KeyAt(k))
    ensures KeyAt(k) in ReportedKeys(st, link, n)
  {
    if k < n - 1 {
      KeyIsReported(st, link, n - 1, k);
    }
  }

  /** A key's place in key order. */
  function KeyIndex(key: MetricKey): (i: nat)
    ensures i < MAX_KEYS_PER_LINK
  {
    32 * FamilyIndex(key.family) + 8 * DirectionIndex(key.direction) + ClassIndex(key.errorClass)
  }

  lemma IndexParts(f: nat, d: nat, c: nat)
    requires f < 8 && d < 4 && c < 8
    ensures
      var i := 32 * f + 8 * d + c;
      i < 256 && i / 32 == f && (i / 8) % 4 == d && i % 8 == c
  {
    assert (32 * f + 8 * d + c) / 8 == 4 * f + d;
  }

  lemma FamilyKept(family: MetricFamily)
    ensures FAMILIES[FamilyIndex(family)] == family
  {
  }

  lemma KeyPlace(key: MetricKey)
    ensures KeyAt(KeyIndex(key)) == key
  {
    FamilyKept(key.family);
    var f, d, c := FamilyIndex(key.family), DirectionIndex(key.direction), ClassIndex(key.errorClass);
    IndexParts(f, d, c);
    assert KeyIndex(key) == 32 * f + 8 * d + c;
  }

  lemma DirectionPlace(i: nat)
    requires i < 4
    ensures DirectionIndex(DIRECTIONS[i]) == i
  {
  }

  lemma ErrorClassPlace(i: nat)
    requires i < 8
    ensures ClassIndex(ERROR_CLASSES[i]) == i
  {
  }

  lemma FamilyPlace(i: nat)
    requires i < 8
    ensures FamilyIndex(FAMILIES[i]) == i
  {
  }

  lemma PlaceParts(i: nat)
    requires i < 256
    ensures i / 32 < 8 && 32 * (i / 32) + 8 * ((i / 8) % 4) + i % 8 == i
  {
    assert i / 8 == 4 * (i / 32) + (i / 8) % 4;
  }

  /** Key order lists no key twice. */
  lemma PlaceOfKey(i: nat)
    requires i < MAX_KEYS_PER_LINK
    ensures KeyIndex(KeyAt(i)) == i
  {
    FamilyPlace(i / 32);
    DirectionPlace((i / 8) % 4);
    ErrorClassPlace(i % 8);
    PlaceParts(i);
  }

  lemma {:induction false} FindIsMember(reports: seq<FamilyReport>, key: MetricKey) returns (i: nat)
    requires FindReport(reports, key).Some?
    ensures i < |reports| && FindReport(reports, key) == Some(reports[i]) && reports[i].key == key
  {
    if reports[0].key == key {
      i := 0;
    } else {
      var j := FindIsMember(reports[1..], key);
      i := j + 1;
    }
  }

  lemma {:induction false} FindHits(reports: seq<FamilyReport>, i: nat)
    requires i < |reports|
    ensures FindReport(reports, reports[i].key).Some?
  {
    if i > 0 {
      FindHits(reports[1..], i - 1);
    }
  }

  /** Every report is the one the store gives its key. */
  lemma {:induction false} ReportsAreReports(input: Input, st: StoreState, keys: seq<MetricKey>, i: nat)
    requires i < |ReportsFor(input, st, keys)|
    ensures ReportsFor(input, st, keys)[i] == ReportOf(input, st, ReportsFor(input, st, keys)[i].key)
  {
    ReportKey(input, st, keys[i]);
  }

  lemma {:induction false} ReportIsFound(input: Input, st: StoreState, keys: seq<MetricKey>, key: MetricKey)
    requires key in keys
    ensures FindReport(ReportsFor(input, st, keys), key) == Some(ReportOf(input, st, key))
  {
    var p :| 0 <= p < |keys| && keys[p] == key;
    ReportKey(input, st, key);
    FindHits(ReportsFor(input, st, keys), p);
    var i := FindIsMember(ReportsFor(input, st, keys), key);
    ReportsAreReports(input, st, keys, i);
  }

  /** The operational and administrative reports the rules look at are those of the store. */
  lemma {:induction false} DecisiveReports(input: Input, st: StoreState)
    ensures FindReport(AllReports(input, st), OPER_KEY) == Some(ReportOf(input, st, OPER_KEY))
    ensures FindReport(AllReports(input, st), ADMIN_KEY) == Some(ReportOf(input, st, ADMIN_KEY))
  {
    assert KeyAt(32) == OPER_KEY && KeyAt(0) == ADMIN_KEY;
    KeyIsReported(st, input.link, MAX_KEYS_PER_LINK, 32);
    KeyIsReported(st, input.link, MAX_KEYS_PER_LINK, 0);
    ReportIsFound(input, st, ReportedKeys(st, input.link, MAX_KEYS_PER_LINK), OPER_KEY);
    ReportIsFound(input, st, ReportedKeys(st, input.link, MAX_KEYS_PER_LINK), ADMIN_KEY);
  }

  /** A report's winner is evidence that stands. */
  lemma {:induction false} WinnerStands(input: Input, st: StoreState, key: MetricKey)
    requires ReportOf(input, st, key).winner.Some?
    ensures Stands(input, st, key, ReportOf(input, st, key).winner.value.evidence)
  {
    var cs := ContendersOf(input.policy, st, input.Slot(key), input.Context());
    WinnerIsMaximal(cs);
    var r :| 0 <= r < |cs| && cs[r] == WinnerOf(cs).value;
    var i := ContenderIsNewest(input.policy, st, input.Slot(key), input.Context(), r);
  }

  // ---------------------------------------------------------------------------
  // What the summary flags mean
  // ---------------------------------------------------------------------------

  lemma {:induction false} SummaryMeaning(reports: seq<FamilyReport>, base: Option<Derived>)
    ensures
      var s := SummaryOf(reports, base);
      && (s.anyEvidence <==> exists i :: 0 <= i < |reports| && reports[i].contenders > 0)
      && (s.anyEligible <==> exists i :: 0 <= i < |reports| && reports[i].winner.Some?)
      && (s.anyConflict <==> exists i :: 0 <= i < |reports| && reports[i].conflict == ConflictState.Conflicting)
  {
    if reports != [] {
      var n := |reports| - 1;
      SummaryMeaning(reports[..n], base);
      var s, before := SummaryOf(reports, base), SummaryOf(reports[..n], base);
      assert s == SummaryStep(before, reports[n], base);
      assert forall i | 0 <= i < n :: reports[..n][i] == reports[i];
    }
  }

  /** A report that supports no claim. */
  ghost predicate Silent(r: FamilyReport) {
    r.winner.None? && r.derived.None? && r.conflict != ConflictState.Conflicting
  }

  lemma NoWinnerIsSilent(input: Input, st: StoreState, key: MetricKey)
    requires ReportOf(input, st, key).winner.None?
    ensures Silent(ReportOf(input, st, key))
  {
  }

  /** Without a winner anywhere, no flag that supports a claim is raised. */
  lemma {:induction false} NoWinnerNoFlag(reports: seq<FamilyReport>, base: Option<Derived>)
    requires forall i | 0 <= i < |reports| :: Silent(reports[i])
    ensures
      var s := SummaryOf(reports, base);
      && !s.anyEligible && !s.anyConflict && s.flapEvents.None? && s.reportedUtil.None? && s.derivedUtil.None?
      && s.errorRatio.None? && s.discardRatio.None? && s.worstQuality.None? && !s.declaredDegraded
  {
    if reports != [] {
      NoWinnerNoFlag(reports[..|reports| - 1], base);
      assert Silent(reports[|reports| - 1]);
    }
  }

  // ---------------------------------------------------------------------------
  // Theorems
  // ---------------------------------------------------------------------------

  /** Down is only claimed when standing evidence reads down, or administratively disabled. */
  lemma {:induction false} DownIsJustified(input: Input, st: StoreState)
    requires StateOf(input, st) == LinkState.Down
    ensures
      || (exists e :: Stands(input, st, OPER_KEY, e) && e.observation.payload == Oper(OperStateValue.Down))
      || (exists e :: Stands(input, st, ADMIN_KEY, e) && e.observation.payload == Admin(Disabled))
  {
    DecisiveReports(input, st);
    var oper, admin := ReportOf(input, st, OPER_KEY), ReportOf(input, st, ADMIN_KEY);
    if OperValue(AllReports(input, st)) == OperStateValue.Down {
      WinnerStands(input, st, OPER_KEY);
      assert Stands(input, st, OPER_KEY, oper.winner.value.evidence);
    } else {
      WinnerStands(input, st, ADMIN_KEY);
      assert Stands(input, st, ADMIN_KEY, admin.winner.value.evidence);
    }
  }

  /** A claim needs a contender: a winner or a conflict means evidence was seen. */
  lemma ClaimsHaveContenders(input: Input, st: StoreState, key: MetricKey)
    ensures
      var r := ReportOf(input, st, key);
      (r.winner.Some? || r.conflict == ConflictState.Conflicting) ==> r.contenders > 0
  {
  }

  ghost predicate SomeConflict(input: Input, st: StoreState) {
    exists i :: 0 <= i < |AllReports(input, st)| && AllReports(input, st)[i].conflict == ConflictState.Conflicting
  }

  /** What the two decisive winners read, if there are any. */
  ghost predicate ReadsDown(input: Input, st: StoreState) {
    var oper, admin := ReportOf(input, st, OPER_KEY).winner, ReportOf(input, st, ADMIN_KEY).winner;
    || (oper.Some? && oper.value.evidence.observation.payload == Oper(OperStateValue.Down))
    || (admin.Some? && admin.value.evidence.observation.payload == Admin(Disabled))
  }

  lemma {:induction false} SomeEvidence(input: Input, st: StoreState, i: nat)
    requires i < |AllReports(input, st)|
    requires AllReports(input, st)[i].winner.Some? || AllReports(input, st)[i].conflict == ConflictState.Conflicting
    ensures SummaryOf(AllReports(input, st), OctetBase(AllReports(input, st))).anyEvidence
  {
    var reports := AllReports(input, st);
    SummaryMeaning(reports, OctetBase(reports));
    ReportsAreReports(input, st, ReportedKeys(st, input.link, MAX_KEYS_PER_LINK), i);
    ClaimsHaveContenders(input, st, reports[i].key);
  }

  /** Conflicting is claimed exactly when some report is in conflict. */
  lemma {:induction false} ConflictingByFlag(input: Input, st: StoreState)
    ensures StateOf(input, st) == LinkState.Conflicting <==> SomeConflict(input, st)
  {
    var reports := AllReports(input, st);
    SummaryMeaning(reports, OctetBase(reports));
    if SomeConflict(input, st) {
      var i :| 0 <= i < |reports| && reports[i].conflict == ConflictState.Conflicting;
      SomeEvidence(input, st, i);
    }
  }

  lemma {:induction false} DownReadingIsEvidence(input: Input, st: StoreState)
    requires ReadsDown(input, st)
    ensures SummaryOf(AllReports(input, st), OctetBase(AllReports(input, st))).anyEvidence
  {
    var reports, key := AllReports(input, st), if ReportOf(input, st, OPER_KEY).winner.Some? then OPER_KEY else ADMIN_KEY;
    DecisiveReports(input, st);
    var i := FindIsMember(reports, key);
    SomeEvidence(input, st, i);
  }

  /** Down is claimed exactly when a decisive winner reads down or disabled and no report is in conflict. */
  lemma {:induction false} DownByFlag(input: Input, st: StoreState)
    ensures StateOf(input, st) == LinkState.Down <==> ReadsDown(input, st) && !SomeConflict(input, st)
  {
    var reports := AllReports(input, st);
    SummaryMeaning(reports, OctetBase(reports));
    DecisiveReports(input, st);
    if ReadsDown(input, st) {
      DownReadingIsEvidence(input, st);
    }
  }

  /**
   Healthy is only claimed when standing evidence reads operationally up, no family is in conflict,
   and no winning administrative reading says disabled.
   */
  lemma {:induction false} HealthyIsJustified(input: Input, st: StoreState)
    requires StateOf(input, st) == Healthy
    ensures exists e :: Stands(input, st, OPER_KEY, e) && e.observation.payload == Oper(Up)
    ensures forall i | 0 <= i < |AllReports(input, st)| :: AllReports(input, st)[i].conflict != ConflictState.Conflicting
    ensures
      var admin := ReportOf(input, st, ADMIN_KEY).winner;
      admin.Some? ==> admin.value.evidence.observation.payload != Admin(Disabled)
  {
    DecisiveReports(input, st);
    var reports := AllReports(input, st);
    SummaryMeaning(reports, OctetBase(reports));
    WinnerStands(input, st, OPER_KEY);
    assert Stands(input, st, OPER_KEY, ReportOf(input, st, OPER_KEY).winner.value.evidence);
  }

  /**
   When no retained evidence stands, the link is Unknown or Stale, or Flapping on the strength of
   recorded transitions alone; it is never Healthy, Degraded, Down, Saturated, Erroring or Conflicting.
   */
  lemma {:induction false} SilenceIsNoClaim(input: Input, st: StoreState)
    requires forall key, e :: !Stands(input, st, key, e)
    ensures
      || StateOf(input, st) in {LinkState.Unknown, LinkState.Stale}
      || (StateOf(input, st) == Flapping
          && FlapCount(input.events, WindowStart(input.now, input.policy.thresholds.flapWindow)) >= input.policy.thresholds.flapThreshold)
  {
    var reports := AllReports(input, st);
    forall i | 0 <= i < |reports| ensures Silent(reports[i]) {
      ReportsAreReports(input, st, ReportedKeys(st, input.link, MAX_KEYS_PER_LINK), i);
      NoWinner(input, st, reports[i].key);
      NoWinnerIsSilent(input, st, reports[i].key);
    }
    NoWinnerNoFlag(reports, OctetBase(reports));
    DecisiveReports(input, st);
    assert ReportOf(input, st, OPER_KEY).winner.None? by { NoWinner(input, st, OPER_KEY); }
    assert ReportOf(input, st, ADMIN_KEY).winner.None? by { NoWinner(input, st, ADMIN_KEY); }
  }

  lemma {:induction false} NoWinner(input: Input, st: StoreState, key: MetricKey)
    requires forall e :: !Stands(input, st, key, e)
    ensures ReportOf(input, st, key).winner.None?
  {
    if ReportOf(input, st, key).winner.Some? {
      WinnerStands(input, st, key);
    }
  }

  /**
   For a fixed store, the evidence that stands only shrinks as time advances, for as long as its
   age can be represented.
   */
  lemma {:induction false} StandingOnlyShrinks(input: Input, st: StoreState, key: MetricKey, e: Evidence, later: TimePoint)
    requires input.now <= later
    requires Difference(later, e.observation.observedAt).Exact? && Difference(later, e.observation.receivedAt).Exact?
    requires Stands(input.(now := later), st, key, e)
    ensures Stands(input, st, key, e)
  {
    FreshnessOnlyFades(e, input.now, later, FreshnessPolicyFor(input.policy, key.family));
  }

  /** A report with a derived value in any reachable state rests on the pair the design demands. */
  lemma {:induction false} DerivedReportIsJustified(input: Input, calls: seq<Call>, key: MetricKey)
    returns (previous: CounterSample, latest: CounterSample)
    requires
      var r := ReportOf(input, Run(input.policy, EMPTY_STORE, calls), key);
      r.derived.Some? && r.derived.value.hasDelta
    ensures
      var st := Run(input.policy, EMPTY_STORE, calls);
      && ReportOf(input, st, key).winner.Some?
      && Justified(input.policy, st, input.Slot(key), ReportOf(input, st, key).winner.value, input.Context(), previous, latest)
  {
    RunKeepsInv(input.policy, calls);
    previous, latest := DerivedReportIn(input, Run(input.policy, EMPTY_STORE, calls), key);
  }

  lemma {:induction false} DerivedReportIn(input: Input, st: StoreState, key: MetricKey) returns (previous: CounterSample, latest: CounterSample)
    requires StoreInv(input.policy, st)
    requires ReportOf(input, st, key).derived.Some? && ReportOf(input, st, key).derived.value.hasDelta
    ensures ReportOf(input, st, key).winner.Some?
    ensures Justified(input.policy, st, input.Slot(key), ReportOf(input, st, key).winner.value, input.Context(), previous, latest)
  {
    previous, latest := DerivedIsJustified(input.policy, st, input.facts, input.Slot(key), input.Context());
  }
}
