/**
 When a report is in conflict (src/classify/classifier.cpp:361-404). For a counter family the loop
 always takes the winner's utilization for the left side, so only the top contenders after the first
 in listing order are ever compared with it: a disagreement with the first one goes unseen.
 */
module Conflicts {
  import opened Checked
  import opened Domain
  import opened CounterTracker
  import opened EvidenceAge
  import opened StoreSpec
  import opened StoreQuery
  import opened Winner
  import opened Derivation
  import opened Classifier
  import opened ClassifierSoundness

  // ---------------------------------------------------------------------------
  // The contenders that may conflict
  // ---------------------------------------------------------------------------

  function ContendersAt(input: Input, st: StoreState, key: MetricKey): seq<EvaluatedEvidence> {
    ContendersOf(input.policy, st, input.Slot(key), input.Context())
  }

  /** The eligible contenders of the highest authority, in listing order; none while that is unknown. */
  function TopOf(input: Input, st: StoreState, key: MetricKey): seq<EvaluatedEvidence> {
    var cs := ContendersAt(input, st, key);
    if TopAuthority(cs) == SourceAuthority.Unknown then [] else TopContenders(cs, TopAuthority(cs))
  }

  lemma {:induction false} TopIsTop(cs: seq<EvaluatedEvidence>, c: EvaluatedEvidence)
    requires c in cs && c.eligible
    ensures c.evidence.authority.Rank() <= TopAuthority(cs).Rank()
  {
    var n := |cs| - 1;
    if c != cs[n] {
      assert cs == cs[..n] + [cs[n]];
      TopIsTop(cs[..n], c);
    } else if c in cs[..n] {
      TopIsTop(cs[..n], c);
    }
  }

  lemma {:induction false} TopIsHeld(cs: seq<EvaluatedEvidence>) returns (c: EvaluatedEvidence)
    requires TopAuthority(cs) != SourceAuthority.Unknown
    ensures c in cs && c.eligible && c.evidence.authority == TopAuthority(cs)
  {
    var n := |cs| - 1;
    if cs[n].eligible && cs[n].evidence.authority == TopAuthority(cs) {
      c := cs[n];
    } else {
      c := TopIsHeld(cs[..n]);
    }
  }

  /** Each top contender is a contender, and they keep the listing's order. */
  lemma {:induction false} TopPlace(cs: seq<EvaluatedEvidence>, authority: SourceAuthority, i: nat) returns (p: nat)
    requires i < |TopContenders(cs, authority)|
    ensures p < |cs| && cs[p] == TopContenders(cs, authority)[i] && cs[p].eligible && cs[p].evidence.authority == authority
    ensures i <= p
  {
    var n := |cs| - 1;
    if i < |TopContenders(cs[..n], authority)| {
      p := TopPlace(cs[..n], authority, i);
    } else {
      p := n;
      TopNotLonger(cs[..n], authority);
    }
  }

  lemma {:induction false} TopNotLonger(cs: seq<EvaluatedEvidence>, authority: SourceAuthority)
    ensures |TopContenders(cs, authority)| <= |cs|
  {
    if cs != [] {
      TopNotLonger(cs[..|cs| - 1], authority);
    }
  }

  lemma {:induction false} TopDistinct(cs: seq<EvaluatedEvidence>, authority: SourceAuthority)
    requires DistinctSources(cs)
    ensures DistinctSources(TopContenders(cs, authority))
  {
    if cs != [] {
      var n := |cs| - 1;
      var before, all := TopContenders(cs[..n], authority), TopContenders(cs, authority);
      TopDistinct(cs[..n], authority);
      forall i, j | 0 <= i < j < |all| ensures SourceOf(all[i].evidence) != SourceOf(all[j].evidence) {
        if j == |before| {
          var p := TopPlace(cs[..n], authority, i);
          assert cs[p] == cs[..n][p];
        }
      }
    }
  }

  lemma {:induction false} TopSourcesDistinct(input: Input, st: StoreState, key: MetricKey)
    ensures DistinctSources(TopOf(input, st, key))
  {
    ContendersDistinct(input.policy, st, input.Slot(key), input.Context());
    TopDistinct(ContendersAt(input, st, key), TopAuthority(ContendersAt(input, st, key)));
  }

  /** The winner has the highest authority. */
  lemma {:induction false} WinnerIsTop(cs: seq<EvaluatedEvidence>)
    requires WinnerOf(cs).Some? && TopAuthority(cs) != SourceAuthority.Unknown
    ensures WinnerOf(cs).value in cs && WinnerOf(cs).value.eligible && WinnerOf(cs).value.evidence.authority == TopAuthority(cs)
  {
    WinnerIsMaximal(cs);
    TopIsTop(cs, WinnerOf(cs).value);
    var c := TopIsHeld(cs);
  }

  lemma {:induction false} TopMeansWinner(input: Input, st: StoreState, key: MetricKey)
    requires TopOf(input, st, key) != []
    ensures WinnerOf(ContendersAt(input, st, key)).Some?
  {
    var cs := ContendersAt(input, st, key);
    WinnerIsMaximal(cs);
    var p := TopPlace(cs, TopAuthority(cs), 0);
  }

  // ---------------------------------------------------------------------------
  // Exactly when a report is in conflict
  // ---------------------------------------------------------------------------

  /** What a source's retained pair derives to under the key. */
  function UtilizationAt(input: Input, st: StoreState, key: MetricKey, source: SourceId): Option<U64> {
    DerivedFor(input.policy, st, input.facts, input.Slot(key), source, input.Context()).utilization
  }

  /** Both derive a utilization, and the two are further apart than the tolerance. */
  predicate Apart(input: Input, a: Option<U64>, b: Option<U64>) {
    a.Some? && b.Some? && RelativeDifference(a.value, b.value) > input.policy.thresholds.conflictTolerancePpb
  }

  function WinnerUtilization(input: Input, st: StoreState, key: MetricKey): Option<U64> {
    var winner := WinnerOf(ContendersAt(input, st, key));
    if winner.Some? then UtilizationAt(input, st, key, SourceOf(winner.value.evidence)) else Option.None
  }

  lemma {:induction false} ConflictOfReport(input: Input, st: StoreState, key: MetricKey)
    ensures ReportOf(input, st, key).conflict == ConflictState.Conflicting
       <==> |TopOf(input, st, key)| >= 2 && DisagreementAmong(input, st, key, ReportOf(input, st, key).derived, TopOf(input, st, key))
    ensures ReportOf(input, st, key).winner == WinnerOf(ContendersAt(input, st, key))
  {
    if |TopOf(input, st, key)| >= 2 {
      TopMeansWinner(input, st, key);
    }
  }

  /**
   A counter family is in conflict exactly when some top contender after the first, in listing order,
   derives a utilization further than the tolerance from the winner's.
   */
  lemma {:induction false} CounterConflictIff(input: Input, st: StoreState, key: MetricKey)
    requires IsCounterFamily(key.family)
    ensures ReportOf(input, st, key).conflict == ConflictState.Conflicting
       <==> exists r :: 1 <= r < |TopOf(input, st, key)|
                        && Apart(input, WinnerUtilization(input, st, key), UtilizationAt(input, st, key, SourceOf(TopOf(input, st, key)[r].evidence)))
  {
    var top, derived := TopOf(input, st, key), ReportOf(input, st, key).derived;
    ConflictOfReport(input, st, key);
    TopSourcesDistinct(input, st, key);
    CounterDisagreement(input, st, key, derived, top);
    if top != [] {
      TopMeansWinner(input, st, key);
    }
  }

  /** With distinct sources, every place but the first is some comparison's right-hand side. */
  lemma {:induction false} CounterDisagreement(input: Input, st: StoreState, key: MetricKey, derived: Option<Derived>, top: seq<EvaluatedEvidence>)
    requires IsCounterFamily(key.family) && DistinctSources(top)
    ensures DisagreementAmong(input, st, key, derived, top)
       <==> exists r :: 1 <= r < |top|
                        && Apart(input, if derived.Some? then derived.value.utilization else Option.None,
                                 UtilizationAt(input, st, key, SourceOf(top[r].evidence)))
  {
    var left := if derived.Some? then derived.value.utilization else Option.None;
    if DisagreementAmong(input, st, key, derived, top) {
      var l, r :| Compared(top, l, r) && Disagree(input, st, key, derived, top[l], top[r]);
      assert Apart(input, left, UtilizationAt(input, st, key, SourceOf(top[r].evidence)));
    }
    if r :| 1 <= r < |top| && Apart(input, left, UtilizationAt(input, st, key, SourceOf(top[r].evidence))) {
      assert Compared(top, 0, r) && Disagree(input, st, key, derived, top[0], top[r]);
    }
  }

  /** Any other family is in conflict exactly when the readings of some two top contenders disagree. */
  lemma {:induction false} ReadingConflictIff(input: Input, st: StoreState, key: MetricKey)
    requires !IsCounterFamily(key.family)
    ensures ReportOf(input, st, key).conflict == ConflictState.Conflicting
       <==> exists l, r :: 0 <= l < r < |TopOf(input, st, key)|
                           && ReadingsDisagree(TopOf(input, st, key)[l].evidence.observation.payload, TopOf(input, st, key)[r].evidence.observation.payload,
                                               input.policy.thresholds.conflictTolerancePpb)
  {
    var top, derived := TopOf(input, st, key), ReportOf(input, st, key).derived;
    var tolerance := input.policy.thresholds.conflictTolerancePpb;
    ConflictOfReport(input, st, key);
    TopSourcesDistinct(input, st, key);
    if l, r :| 0 <= l < r < |top| && ReadingsDisagree(top[l].evidence.observation.payload, top[r].evidence.observation.payload, tolerance) {
      assert Compared(top, l, r) && Disagree(input, st, key, derived, top[l], top[r]);
    }
  }

  lemma SelfAgrees(v: U64)
    ensures RelativeDifference(v, v) == 0
  {
    if v > 0 {
      ZeroRatio(v);
    }
  }

  /** What it means that two contenders contradict each other under the key. */
  ghost predicate Contradict(input: Input, st: StoreState, key: MetricKey, a: EvaluatedEvidence, b: EvaluatedEvidence) {
    if IsCounterFamily(key.family) then
      Apart(input, UtilizationAt(input, st, key, SourceOf(a.evidence)), UtilizationAt(input, st, key, SourceOf(b.evidence)))
    else ReadingsDisagree(a.evidence.observation.payload, b.evidence.observation.payload, input.policy.thresholds.conflictTolerancePpb)
  }

  /**
   A conflict always names two eligible contenders of different sources that share the highest
   authority present and contradict each other; for a counter family the first is the winner. A
   disagreement with a lower authority is never a conflict.
   */
  lemma {:induction false} ConflictNeedsTwoTopSources(input: Input, st: StoreState, key: MetricKey)
    returns (a: EvaluatedEvidence, b: EvaluatedEvidence)
    requires ReportOf(input, st, key).conflict == ConflictState.Conflicting
    ensures
      var cs := ContendersAt(input, st, key);
      && a in cs && b in cs && a.eligible && b.eligible && SourceOf(a.evidence) != SourceOf(b.evidence)
      && a.evidence.authority == b.evidence.authority
      && (forall c | c in cs && c.eligible :: c.evidence.authority.Rank() <= a.evidence.authority.Rank())
      && Contradict(input, st, key, a, b)
      && (IsCounterFamily(key.family) ==> Some(a) == WinnerOf(cs))
  {
    var cs := ContendersAt(input, st, key);
    if IsCounterFamily(key.family) {
      a, b := CounterConflictNames(input, st, key);
    } else {
      a, b := ReadingConflictNames(input, st, key);
    }
    forall c | c in cs && c.eligible ensures c.evidence.authority.Rank() <= a.evidence.authority.Rank() {
      TopIsTop(cs, c);
    }
  }

  lemma {:induction false} TopMember(input: Input, st: StoreState, key: MetricKey, i: nat)
    requires i < |TopOf(input, st, key)|
    ensures
      var cs, c := ContendersAt(input, st, key), TopOf(input, st, key)[i];
      c in cs && c.eligible && c.evidence.authority == TopAuthority(cs)
  {
    var cs := ContendersAt(input, st, key);
    var p := TopPlace(cs, TopAuthority(cs), i);
  }

  lemma {:induction false} CounterConflictNames(input: Input, st: StoreState, key: MetricKey) returns (a: EvaluatedEvidence, b: EvaluatedEvidence)
    requires IsCounterFamily(key.family) && ReportOf(input, st, key).conflict == ConflictState.Conflicting
    ensures
      var cs := ContendersAt(input, st, key);
      && a in cs && b in cs && a.eligible && b.eligible && SourceOf(a.evidence) != SourceOf(b.evidence)
      && a.evidence.authority == b.evidence.authority == TopAuthority(cs)
      && Contradict(input, st, key, a, b) && Some(a) == WinnerOf(cs)
  {
    var cs, top := ContendersAt(input, st, key), TopOf(input, st, key);
    CounterConflictIff(input, st, key);
    var r :| 1 <= r < |top| && Apart(input, WinnerUtilization(input, st, key), UtilizationAt(input, st, key, SourceOf(top[r].evidence)));
    WinnerIsTop(cs);
    a, b := WinnerOf(cs).value, top[r];
    TopMember(input, st, key, r);
    SelfAgrees(WinnerUtilization(input, st, key).value);
  }

  lemma {:induction false} ReadingConflictNames(input: Input, st: StoreState, key: MetricKey) returns (a: EvaluatedEvidence, b: EvaluatedEvidence)
    requires !IsCounterFamily(key.family) && ReportOf(input, st, key).conflict == ConflictState.Conflicting
    ensures
      var cs := ContendersAt(input, st, key);
      && a in cs && b in cs && a.eligible && b.eligible && SourceOf(a.evidence) != SourceOf(b.evidence)
      && a.evidence.authority == b.evidence.authority == TopAuthority(cs)
      && Contradict(input, st, key, a, b)
  {
    var cs, top := ContendersAt(input, st, key), TopOf(input, st, key);
    ReadingConflictIff(input, st, key);
    var l, r :| 0 <= l < r < |top|
                && ReadingsDisagree(top[l].evidence.observation.payload, top[r].evidence.observation.payload, input.policy.thresholds.conflictTolerancePpb);
    a, b := top[l], top[r];
    TopSourcesDistinct(input, st, key);
    TopMember(input, st, key, l);
    TopMember(input, st, key, r);
  }

  lemma NotApartFromSelf(input: Input, u: Option<U64>)
    ensures !Apart(input, u, u)
  {
    if u.Some? {
      SelfAgrees(u.value);
    }
  }

  lemma {:induction false} WinnerUtilizationIs(input: Input, st: StoreState, key: MetricKey, w: EvaluatedEvidence)
    requires WinnerOf(ContendersAt(input, st, key)) == Some(w)
    ensures WinnerUtilization(input, st, key) == UtilizationAt(input, st, key, SourceOf(w.evidence))
  {
  }

  /** A counter family is quiet when no top contender after the first is apart from the winner. */
  lemma {:induction false} QuietCounter(input: Input, st: StoreState, key: MetricKey, top: seq<EvaluatedEvidence>, u: Option<U64>)
    requires IsCounterFamily(key.family) && top == TopOf(input, st, key) && u == WinnerUtilization(input, st, key)
    requires forall r | 1 <= r < |top| :: !Apart(input, u, UtilizationAt(input, st, key, SourceOf(top[r].evidence)))
    ensures ReportOf(input, st, key).conflict != ConflictState.Conflicting
  {
    CounterConflictIff(input, st, key);
  }

  lemma {:induction false} SecondWinnerIsQuiet(input: Input, st: StoreState, key: MetricKey, top: seq<EvaluatedEvidence>, u: Option<U64>)
    requires |top| == 2 && u == UtilizationAt(input, st, key, SourceOf(top[1].evidence))
    ensures forall r | 1 <= r < |top| :: !Apart(input, u, UtilizationAt(input, st, key, SourceOf(top[r].evidence)))
  {
    NotApartFromSelf(input, u);
  }

  lemma {:induction false} TwoTopAreCompared(input: Input, st: StoreState, key: MetricKey)
    requires |TopOf(input, st, key)| == 2
    ensures ReportOf(input, st, key).conflict in {ConflictState.Conflicting, Corroborated}
  {
    TopSourcesDistinct(input, st, key);
    TopMeansWinner(input, st, key);
    assert Compared(TopOf(input, st, key), 0, 1);
  }

  /**
   The blind spot, for all inputs: with two top contenders of a counter family of which the second
   listed wins, no conflict is ever reported, whatever the two derive to.
   */
  lemma {:induction false} SecondWinnerSeesNoConflict(input: Input, st: StoreState, key: MetricKey)
    requires IsCounterFamily(key.family)
    requires |TopOf(input, st, key)| == 2 && WinnerOf(ContendersAt(input, st, key)) == Some(TopOf(input, st, key)[1])
    ensures ReportOf(input, st, key).conflict == Corroborated
  {
    var top := TopOf(input, st, key);
    WinnerUtilizationIs(input, st, key, top[1]);
    SecondWinnerIsQuiet(input, st, key, top, WinnerUtilization(input, st, key));
    QuietCounter(input, st, key, top, WinnerUtilization(input, st, key));
    TwoTopAreCompared(input, st, key);
  }

  // ---------------------------------------------------------------------------
  // The link state
  // ---------------------------------------------------------------------------

  /** The exact condition, by family, for one key's report to be in conflict. */
  ghost predicate KeyInConflict(input: Input, st: StoreState, key: MetricKey) {
    var top := TopOf(input, st, key);
    if IsCounterFamily(key.family) then
      exists r :: 1 <= r < |top| && Apart(input, WinnerUtilization(input, st, key), UtilizationAt(input, st, key, SourceOf(top[r].evidence)))
    else
      exists l, r :: 0 <= l < r < |top|
                     && ReadingsDisagree(top[l].evidence.observation.payload, top[r].evidence.observation.payload, input.policy.thresholds.conflictTolerancePpb)
  }

  lemma {:induction false} KeyInConflictIff(input: Input, st: StoreState, key: MetricKey)
    ensures ReportOf(input, st, key).conflict == ConflictState.Conflicting <==> KeyInConflict(input, st, key)
  {
    if IsCounterFamily(key.family) {
      CounterConflictIff(input, st, key);
    } else {
      ReadingConflictIff(input, st, key);
    }
  }

  lemma {:induction false} UnslottedIsQuiet(input: Input, st: StoreState, key: MetricKey)
    requires input.Slot(key) !in st.slots
    ensures !KeyInConflict(input, st, key)
  {
    assert TopOf(input, st, key) == [];
  }

  ghost predicate InConflict(input: Input, st: StoreState) { exists key: MetricKey :: KeyInConflict(input, st, key) }

  /** Some report is in conflict exactly when some key is. */
  lemma {:induction false} SomeConflictIff(input: Input, st: StoreState)
    ensures SomeConflict(input, st) <==> InConflict(input, st)
  {
    var keys := ReportedKeys(st, input.link, MAX_KEYS_PER_LINK);
    var reports := AllReports(input, st);
    if SomeConflict(input, st) {
      var i :| 0 <= i < |reports| && reports[i].conflict == ConflictState.Conflicting;
      KeyInConflictIff(input, st, keys[i]);
    }
    if InConflict(input, st) {
      var key: MetricKey :| KeyInConflict(input, st, key);
      KeyInConflictIff(input, st, key);
      if input.Slot(key) !in st.slots {
        UnslottedIsQuiet(input, st, key);
      }
      KeyPlace(key);
      KeyIsReported(st, input.link, MAX_KEYS_PER_LINK, KeyIndex(key));
      ReportIsFound(input, st, keys, key);
      var i := FindIsMember(reports, key);
    }
  }

  /** Conflicting is claimed exactly when some key's top contenders contradict each other where the code looks. */
  lemma {:induction false} ConflictingIff(input: Input, st: StoreState)
    ensures StateOf(input, st) == LinkState.Conflicting <==> InConflict(input, st)
  {
    SomeConflictIff(input, st);
    ConflictingByFlag(input, st);
  }

  /** Down is claimed exactly when a decisive winner reads down or disabled and no key is in conflict. */
  lemma {:induction false} DownIff(input: Input, st: StoreState)
    ensures StateOf(input, st) == LinkState.Down <==> ReadsDown(input, st) && !InConflict(input, st)
  {
    SomeConflictIff(input, st);
    DownByFlag(input, st);
  }
}
