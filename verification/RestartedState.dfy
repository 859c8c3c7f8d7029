/**
 When a restart leaves a link's classification alone: it reads the store, the registry and the link's
 listed transitions, and only the last can be cut short by a snapshot.
 */
module RestartedState {
  import opened Domain
  import opened StoreSpec
  import opened StoreRestart
  import opened StoreQuery
  import opened ObservatorySpec
  import opened ObservatoryRestart
  import opened Winner
  import opened Derivation
  import opened Classifier
  import T = TransitionLog

  lemma {:induction false} TwinsDeriveAlike(policy: Policy, facts: LinkFacts, a: StoreState, b: StoreState, slot: SlotKey, source: SourceId, ctx: EvaluationContext)
    requires Twins(a, b)
    ensures DerivedFor(policy, a, facts, slot, source, ctx) == DerivedFor(policy, b, facts, slot, source, ctx)
  {
    var pair := RetainedPair(a, slot, source);
    if pair.Some? {
      var capacity := CapacityFor(facts, slot.key.direction);
      assert RequestFor(policy, a, slot, source, ctx, pair.value, 0) == RequestFor(policy, b, slot, source, ctx, pair.value, 0);
      if capacity.Some? {
        assert RequestFor(policy, a, slot, source, ctx, pair.value, capacity.value) == RequestFor(policy, b, slot, source, ctx, pair.value, capacity.value);
      }
    }
  }

  lemma {:induction false} TwinsConflictAlike(input: Input, a: StoreState, b: StoreState, key: MetricKey, winner: Option<EvaluatedEvidence>,
                                              derived: Option<Derived>, cs: seq<EvaluatedEvidence>)
    requires Twins(a, b)
    ensures ConflictOf(input, a, key, winner, derived, cs) == ConflictOf(input, b, key, winner, derived, cs)
  {
    var top := TopContenders(cs, TopAuthority(cs));
    forall l, r | Compared(top, l, r) ensures Disagree(input, a, key, derived, top[l], top[r]) == Disagree(input, b, key, derived, top[l], top[r]) {
      TwinsDeriveAlike(input.policy, input.facts, a, b, input.Slot(key), StoreQuery.SourceOf(top[r].evidence), input.Context());
    }
  }

  /** Session fence counts are not classified. */
  lemma {:induction false} TwinsReportAlike(input: Input, a: StoreState, b: StoreState, key: MetricKey)
    requires Twins(a, b)
    ensures ReportOf(input, a, key) == ReportOf(input, b, key)
  {
    var slot, ctx := input.Slot(key), input.Context();
    TwinsShowTheSame(input.policy, a, b, slot, ctx);
    var cs := ContendersOf(input.policy, a, slot, ctx);
    var winner := WinnerOf(cs);
    if winner.Some? {
      TwinsDeriveAlike(input.policy, input.facts, a, b, slot, StoreQuery.SourceOf(winner.value.evidence), ctx);
    }
    TwinsConflictAlike(input, a, b, key, winner, ReportOf(input, a, key).derived, cs);
  }

  lemma {:induction false} TwinsListAlike(a: StoreState, b: StoreState, link: LinkId, n: nat)
    requires n <= MAX_KEYS_PER_LINK && Twins(a, b)
    ensures ReportedKeys(a, link, n) == ReportedKeys(b, link, n)
  {
    if n > 0 {
      TwinsListAlike(a, b, link, n - 1);
    }
  }

  lemma {:induction false} TwinsClassifyAlike(input: Input, a: StoreState, b: StoreState)
    requires Twins(a, b)
    ensures StateOf(input, a) == StateOf(input, b)
  {
    var keys := ReportedKeys(a, input.link, MAX_KEYS_PER_LINK);
    TwinsListAlike(a, b, input.link, MAX_KEYS_PER_LINK);
    forall i | 0 <= i < |keys| ensures ReportOf(input, a, keys[i]) == ReportOf(input, b, keys[i]) {
      TwinsReportAlike(input, a, b, keys[i]);
    }
    assert AllReports(input, a) == AllReports(input, b);
  }

  /** What classification lists of a link's transitions. */
  function Listed(limits: Limits, log: T.Log, link: LinkId): seq<TransitionEvent> {
    T.Newest(limits, T.BucketOf(log, link), limits.maxResultRows)
  }

  /**
   After any run of records and any recorded transitions, a link is classified the same after a restart
   at every instant, provided the saved transitions hold as many of the link's as were listed.
   */
  lemma {:induction false} StateSurvivesRestart(cfg: Config, recs: seq<Record>, saved: Saved, identify: T.Identify, events: seq<TransitionEvent>, input: Input)
    requires Collects(saved, Process(cfg, EMPTY_OBSERVATORY, recs))
    requires
      var log := T.RecordAll(cfg.policy.limits, identify, events);
      && input.events == Listed(cfg.policy.limits, log, input.link)
      && |input.events| <= |T.Of(T.Saved(cfg.policy.limits, log), input.link)|
    ensures
      var back := T.RecordAll(cfg.policy.limits, identify, T.Saved(cfg.policy.limits, T.RecordAll(cfg.policy.limits, identify, events)));
      && RestoreFrom(cfg, saved).Some? && RestoreFrom(cfg, saved).value.registry == Process(cfg, EMPTY_OBSERVATORY, recs).registry
      && StateOf(input.(events := Listed(cfg.policy.limits, back, input.link)), RestoreFrom(cfg, saved).value.store)
         == StateOf(input, Process(cfg, EMPTY_OBSERVATORY, recs).store)
  {
    var s := Process(cfg, EMPTY_OBSERVATORY, recs);
    RunRestorable(cfg, recs);
    Restores(cfg, s, saved);
    T.RestoredListing(cfg.policy.limits, identify, events, input.link, cfg.policy.limits.maxResultRows);
    TwinsClassifyAlike(input, s.store, RestoreFrom(cfg, saved).value.store);
  }
}
