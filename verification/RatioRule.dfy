/**
 The rules on error and discard ratios (src/classify/classifier.cpp:536-586). The loop keeps the ratio
 of the last family it sees, not the largest, so a high ratio is forgotten at the next lower one.
 */
module RatioRule {
  import opened Checked
  import opened Domain
  import opened StoreSpec
  import opened Derivation
  import opened Classifier
  import opened ClassifierSoundness

  /** A report of the family that has a ratio to the traffic baseline. */
  predicate Rates(r: FamilyReport, family: MetricFamily, base: Option<Derived>) {
    r.key.family == family && RatioOf(r, base).Some?
  }

  /** The last such report, in key order. */
  ghost predicate RatesLast(reports: seq<FamilyReport>, i: int, family: MetricFamily, base: Option<Derived>) {
    0 <= i < |reports| && Rates(reports[i], family, base) && forall j | i < j < |reports| :: !Rates(reports[j], family, base)
  }

  /** What the summary keeps of a family's ratios. */
  function KeptRatio(s: Summary, family: MetricFamily): Option<U64> {
    if family == Errors then s.errorRatio else if family == Discards then s.discardRatio else Option.None
  }

  lemma {:induction false} RatioIsLast(reports: seq<FamilyReport>, base: Option<Derived>, family: MetricFamily)
    requires family in {Errors, Discards}
    ensures
      var kept := KeptRatio(SummaryOf(reports, base), family);
      && (kept.None? <==> forall i | 0 <= i < |reports| :: !Rates(reports[i], family, base))
      && (kept.Some? ==> exists i :: RatesLast(reports, i, family, base) && kept == RatioOf(reports[i], base))
  {
    if reports != [] {
      var n := |reports| - 1;
      var before := reports[..n];
      RatioIsLast(before, base, family);
      assert forall i | 0 <= i < n :: before[i] == reports[i];
      if Rates(reports[n], family, base) {
        assert RatesLast(reports, n, family, base);
      } else if KeptRatio(SummaryOf(before, base), family).Some? {
        var i :| RatesLast(before, i, family, base) && KeptRatio(SummaryOf(before, base), family) == RatioOf(before[i], base);
        assert RatesLast(reports, i, family, base);
      }
    }
  }

  lemma {:induction false} LastIsOne(reports: seq<FamilyReport>, family: MetricFamily, base: Option<Derived>, i: int, j: int)
    requires RatesLast(reports, i, family, base) && RatesLast(reports, j, family, base)
    ensures i == j
  {
  }

  lemma {:induction false} KeptAtLeastIff(reports: seq<FamilyReport>, base: Option<Derived>, family: MetricFamily, threshold: nat)
    requires family in {Errors, Discards}
    ensures
      AtLeast(KeptRatio(SummaryOf(reports, base), family), threshold)
      <==> exists i :: RatesLast(reports, i, family, base) && RatioOf(reports[i], base).value >= threshold
  {
    var kept := KeptRatio(SummaryOf(reports, base), family);
    RatioIsLast(reports, base, family);
    if kept.Some? {
      var i :| RatesLast(reports, i, family, base) && kept == RatioOf(reports[i], base);
      forall j | RatesLast(reports, j, family, base) ensures j == i {
        LastIsOne(reports, family, base, i, j);
      }
    }
  }

  /**
   For every store: the error (or discard) rule fires exactly when the last family in key order that
   has a ratio is at or above the threshold, whatever the ratios before it.
   */
  lemma {:induction false} RatioRuleIff(input: Input, st: StoreState, family: MetricFamily, threshold: nat)
    requires family in {Errors, Discards}
    ensures
      var reports := AllReports(input, st);
      var base := OctetBase(reports);
      AtLeast(KeptRatio(SummaryOf(reports, base), family), threshold)
      <==> exists i :: RatesLast(reports, i, family, base) && RatioOf(reports[i], base).value >= threshold
  {
    KeptAtLeastIff(AllReports(input, st), OctetBase(AllReports(input, st)), family, threshold);
  }

  /** The link flaps, by its recorded transitions or by what its sources report. */
  ghost predicate Flaps(input: Input, st: StoreState) {
    var t, reports := input.policy.thresholds, AllReports(input, st);
    || FlapCount(input.events, WindowStart(input.now, t.flapWindow)) >= t.flapThreshold
    || AtLeast(SummaryOf(reports, OctetBase(reports)).flapEvents, t.flapThreshold)
  }

  /** The last error ratio in key order reaches the threshold. */
  ghost predicate ErrsAtLast(input: Input, st: StoreState) {
    var reports := AllReports(input, st);
    var base := OctetBase(reports);
    exists i :: RatesLast(reports, i, Errors, base) && RatioOf(reports[i], base).value >= input.policy.thresholds.errorRatioPpb
  }

  lemma {:induction false} RatedIsEvidence(input: Input, st: StoreState, i: nat)
    requires i < |AllReports(input, st)| && AllReports(input, st)[i].derived.Some?
    ensures SummaryOf(AllReports(input, st), OctetBase(AllReports(input, st))).anyEvidence
  {
    ReportsAreReports(input, st, ReportedKeys(st, input.link, MAX_KEYS_PER_LINK), i);
    SomeEvidence(input, st, i);
  }

  lemma ErringFrom(policy: Policy, s: Summary, oper: OperStateValue, admin: AdminStateValue, flaps: nat)
    ensures StateFrom(FindingsOf(policy, s, oper, admin, flaps)) == Erroring
       <==> && s.anyEvidence && !s.anyConflict && oper != OperStateValue.Down && admin != Disabled
            && flaps < policy.thresholds.flapThreshold && !AtLeast(s.flapEvents, policy.thresholds.flapThreshold)
            && AtLeast(s.errorRatio, policy.thresholds.errorRatioPpb)
  {
  }

  lemma {:induction false} DownValues(input: Input, st: StoreState)
    ensures OperValue(AllReports(input, st)) == OperStateValue.Down || AdminValue(AllReports(input, st)) == Disabled <==> ReadsDown(input, st)
  {
    DecisiveReports(input, st);
  }

  lemma {:induction false} ErrsAtLastIff(input: Input, st: StoreState)
    ensures
      var s := SummaryOf(AllReports(input, st), OctetBase(AllReports(input, st)));
      && (AtLeast(s.errorRatio, input.policy.thresholds.errorRatioPpb) <==> ErrsAtLast(input, st))
      && (ErrsAtLast(input, st) ==> s.anyEvidence)
  {
    var reports := AllReports(input, st);
    RatioRuleIff(input, st, Errors, input.policy.thresholds.errorRatioPpb);
    if ErrsAtLast(input, st) {
      var i :| RatesLast(reports, i, Errors, OctetBase(reports)) && RatioOf(reports[i], OctetBase(reports)).value >= input.policy.thresholds.errorRatioPpb;
      RatedIsEvidence(input, st, i);
    }
  }

  /**
   Erroring is claimed exactly when the last error ratio in key order reaches the threshold and no
   report is in conflict, no decisive winner reads down or disabled, and the link does not flap.
   */
  lemma {:induction false} ErroringIff(input: Input, st: StoreState)
    ensures StateOf(input, st) == Erroring
       <==> ErrsAtLast(input, st) && !SomeConflict(input, st) && !ReadsDown(input, st) && !Flaps(input, st)
  {
    var reports := AllReports(input, st);
    SummaryMeaning(reports, OctetBase(reports));
    ErrsAtLastIff(input, st);
    DownValues(input, st);
    ErringFrom(input.policy, SummaryOf(reports, OctetBase(reports)), OperValue(reports), AdminValue(reports),
               FlapCount(input.events, WindowStart(input.now, input.policy.thresholds.flapWindow)));
  }
}
