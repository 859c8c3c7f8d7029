/**
 The rule on signal quality (src/classify/classifier.cpp:588-612). The loop keeps the worst reading in a
 number that starts at zero and takes zero for unset, so a total loss is forgotten at the next reading.
 */
module QualityRule {
  import opened Checked
  import opened Domain
  import opened StoreSpec
  import opened Derivation
  import opened Classifier

  // ---------------------------------------------------------------------------
  // The fold
  // ---------------------------------------------------------------------------

  /** The fold the classifier runs over the quality readings, in report order. */
  function WorstOf(values: seq<U64>): Option<U64> {
    if values == [] then Option.None
    else WorseQuality(WorstOf(values[..|values| - 1]), values[|values| - 1])
  }

  /** A zero reading is followed by readings that all exceed the threshold. */
  ghost predicate Masked(values: seq<U64>, threshold: nat) {
    exists z :: 0 <= z < |values| - 1 && values[z] == 0 && forall j | z < j < |values| :: values[j] > threshold
  }

  ghost predicate SomeAtMost(values: seq<U64>, threshold: nat) {
    exists i :: 0 <= i < |values| && values[i] <= threshold
  }

  /**
   The fold ends at or below a threshold exactly when some reading is at or below it and no zero
   reading is masked by later readings above it.
   */
  lemma {:induction false} WorstAtMostIff(values: seq<U64>, threshold: nat)
    ensures (WorstOf(values).Some? && WorstOf(values).value <= threshold)
            <==> SomeAtMost(values, threshold) && !Masked(values, threshold)
  {
    if values != [] {
      var n := |values| - 1;
      var before, v := values[..n], values[n];
      WorstAtMostIff(before, threshold);
      WorstIsMember(before);
      if v <= threshold {
        assert values[n] <= threshold;
      } else if WorstOf(before).Some? && WorstOf(before).value == 0 {
        WorstZeroIsLast(before);
        assert values[n - 1] == 0;
        assert Masked(values, threshold);
      } else {
        MaskedGrows(values, threshold);
        if SomeAtMost(before, threshold) {
          var i :| 0 <= i < |before| && before[i] <= threshold;
          assert values[i] <= threshold;
        }
        if SomeAtMost(values, threshold) {
          var i :| 0 <= i < |values| && values[i] <= threshold;
          assert before[i] <= threshold;
        }
      }
    }
  }

  lemma {:induction false} WorstIsMember(values: seq<U64>)
    ensures WorstOf(values).None? <==> values == []
    ensures WorstOf(values).Some? ==> WorstOf(values).value in values
  {
    if values != [] {
      WorstIsMember(values[..|values| - 1]);
    }
  }

  lemma {:induction false} WorstZeroIsLast(values: seq<U64>)
    requires WorstOf(values) == Some(0)
    ensures values[|values| - 1] == 0
  {
    WorstIsMember(values[..|values| - 1]);
  }

  lemma {:induction false} MaskedShrinks(values: seq<U64>, n: nat, threshold: nat)
    requires n + 1 == |values| && Masked(values, threshold)
    requires WorstOf(values[..n]) != Some(0)
    ensures Masked(values[..n], threshold)
  {
    var before := values[..n];
    var z :| 0 <= z < |values| - 1 && values[z] == 0 && forall j | z < j < |values| :: values[j] > threshold;
    LastIsNotZero(before);
    assert before[z] == 0;
    assert forall j | z < j < n :: before[j] == values[j];
  }

  lemma {:induction false} MaskedStays(values: seq<U64>, n: nat, threshold: nat)
    requires n + 1 == |values| && values[n] > threshold && Masked(values[..n], threshold)
    ensures Masked(values, threshold)
  {
    var before := values[..n];
    var z :| 0 <= z < n - 1 && before[z] == 0 && forall j | z < j < n :: before[j] > threshold;
    assert values[z] == 0;
    forall j | z < j < |values| ensures values[j] > threshold {
      if j < n { assert values[j] == before[j]; }
    }
  }

  lemma {:induction false} MaskedGrows(values: seq<U64>, threshold: nat)
    requires values != [] && values[|values| - 1] > threshold
    requires WorstOf(values[..|values| - 1]) != Some(0)
    ensures Masked(values, threshold) <==> Masked(values[..|values| - 1], threshold)
  {
    if Masked(values, threshold) {
      MaskedShrinks(values, |values| - 1, threshold);
    }
    if Masked(values[..|values| - 1], threshold) {
      MaskedStays(values, |values| - 1, threshold);
    }
  }

  lemma {:induction false} LastIsNotZero(values: seq<U64>)
    requires values != [] && WorstOf(values) != Some(0)
    ensures values[|values| - 1] != 0
  {
    WorstIsMember(values[..|values| - 1]);
  }

  // ---------------------------------------------------------------------------
  // What the classifier folds over
  // ---------------------------------------------------------------------------

  predicate ReadsQuality(r: FamilyReport) {
    r.key.family == SignalQuality && PayloadOf(r).Some? && PayloadOf(r).value.Quality?
  }

  /** The quality readings of the winners, in report order. */
  function Qualities(reports: seq<FamilyReport>): seq<U64> {
    if reports == [] then []
    else
      var r := reports[|reports| - 1];
      Qualities(reports[..|reports| - 1]) + (if ReadsQuality(r) then [PayloadOf(r).value.qualityPpb] else [])
  }

  /** The summary's worst quality is that fold over the reports' readings. */
  lemma {:induction false} SummaryFoldsQualities(reports: seq<FamilyReport>, base: Option<Derived>)
    ensures SummaryOf(reports, base).worstQuality == WorstOf(Qualities(reports))
  {
    if reports != [] {
      var n := |reports| - 1;
      SummaryFoldsQualities(reports[..n], base);
      var before, all := Qualities(reports[..n]), Qualities(reports);
      if ReadsQuality(reports[n]) {
        assert all[..|all| - 1] == before;
      } else {
        assert all == before;
      }
    }
  }

  /**
   For every store: the quality threshold rule fires exactly when some winning quality reading is at
   or below the threshold and no zero reading is followed, in report order, by readings all above it.
   */
  lemma {:induction false} QualityRuleIff(input: Input, st: StoreState)
    ensures
      var reports, threshold := AllReports(input, st), input.policy.thresholds.degradedQualityPpb;
      var worst := SummaryOf(reports, OctetBase(reports)).worstQuality;
      (worst.Some? && worst.value <= threshold)
      <==> SomeAtMost(Qualities(reports), threshold) && !Masked(Qualities(reports), threshold)
  {
    var reports := AllReports(input, st);
    SummaryFoldsQualities(reports, OctetBase(reports));
    WorstAtMostIff(Qualities(reports), input.policy.thresholds.degradedQualityPpb);
  }
}
