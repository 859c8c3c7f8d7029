/**
 What the store answers about the evidence it holds: completeness and contenders
 (src/store/evidence_store.cpp:228-294).
 */
module StoreQuery {
  import opened Domain
  import opened EvidenceAge
  import opened StoreSpec
  import opened StoreInvariant

  datatype EvaluationContext = EvaluationContext(now: TimePoint, currentGeneration: GenerationId, hasGeneration: bool)

  datatype EvaluatedEvidence = EvaluatedEvidence(
    evidence: Evidence, age: AgeReport, freshness: Freshness, provisionalConfidence: Confidence,
    scopeCurrent: bool, generationCurrent: bool, eligible: bool, historical: bool)

  function CompletenessOf(policy: Policy, st: StoreState, key: SlotKey, now: TimePoint): Completeness {
    if key !in st.slots || st.slots[key].accepted == 0 then Completeness.Unknown
    else if !st.slots[key].hasGap then Complete
    else
      var since := Difference(now, st.slots[key].lastGapAt);
      if since.Exact? && 0 <= since.value <= policy.thresholds.derivationWindow then Incomplete else Complete
  }

  function Evaluate(policy: Policy, st: StoreState, key: SlotKey, ctx: EvaluationContext, e: Evidence): EvaluatedEvidence {
    var p := e.observation.provenance;
    var age := AgeEvidence(e, ctx.now);
    var freshness := ClassifyFreshness(age, FreshnessPolicyFor(policy, key.key.family));
    var scopeCurrent := p.source in st.streams && st.streams[p.source].hasScope && st.streams[p.source].scope == ScopeOf(p);
    var generationCurrent := !ctx.hasGeneration || p.generation == ctx.currentGeneration;
    EvaluatedEvidence(
      e, age, freshness,
      DeriveConfidence(e.authority, freshness, NoConflict, CompletenessOf(policy, st, key, ctx.now)),
      scopeCurrent, generationCurrent, freshness == Fresh && scopeCurrent && generationCurrent, !generationCurrent)
  }

  function SourceOf(e: Evidence): SourceId { e.observation.provenance.source }

  /** Newest first, one per source, among the first n retained. */
  function NewestPerSource(history: seq<Evidence>, n: nat, seen: set<SourceId>): seq<Evidence>
    requires n <= |history|
  {
    if n == 0 then []
    else if SourceOf(history[n - 1]) in seen then NewestPerSource(history, n - 1, seen)
    else [history[n - 1]] + NewestPerSource(history, n - 1, seen + {SourceOf(history[n - 1])})
  }

  /** The bound is checked after an element is pushed, so at least one is always returned. */
  function FirstFew<T>(s: seq<T>, bound: nat): seq<T> {
    var limit := if bound == 0 then 1 else bound;
    if |s| > limit then s[..limit] else s
  }

  function EvaluateAll(policy: Policy, st: StoreState, key: SlotKey, ctx: EvaluationContext, es: seq<Evidence>): (r: seq<EvaluatedEvidence>)
    ensures |r| == |es|
    ensures forall i | 0 <= i < |es| :: r[i] == Evaluate(policy, st, key, ctx, es[i])
  {
    if es == [] then [] else [Evaluate(policy, st, key, ctx, es[0])] + EvaluateAll(policy, st, key, ctx, es[1..])
  }

  lemma {:induction false} EvaluateAppend(policy: Policy, st: StoreState, key: SlotKey, ctx: EvaluationContext, es: seq<Evidence>, e: Evidence)
    ensures EvaluateAll(policy, st, key, ctx, es + [e]) == EvaluateAll(policy, st, key, ctx, es) + [Evaluate(policy, st, key, ctx, e)]
  {
  }

  /** Reaching the bound ends the listing there. */
  lemma {:induction false} FirstFewStops<T>(s: seq<T>, rest: seq<T>, bound: nat)
    requires |s| == 1 || |s| <= bound
    requires |s| >= bound && |s| > 0
    ensures FirstFew(s + rest, bound) == s
  {
  }

  function ContendersOf(policy: Policy, st: StoreState, key: SlotKey, ctx: EvaluationContext): seq<EvaluatedEvidence> {
    if key !in st.slots then []
    else
      var history := st.slots[key].history;
      EvaluateAll(policy, st, key, ctx, FirstFew(NewestPerSource(history, |history|, {}), policy.limits.maxContendersPerKey))
  }

  // ---------------------------------------------------------------------------
  // What a contender is
  // ---------------------------------------------------------------------------

  /** Element r of the listing, if any, is some source's newest retained evidence. */
  lemma {:induction false} ListedIsNewest(history: seq<Evidence>, n: nat, seen: set<SourceId>, r: nat) returns (i: nat)
    requires n <= |history| && r < |NewestPerSource(history, n, seen)|
    requires forall j | n <= j < |history| :: SourceOf(history[j]) in seen
    ensures i < n && history[i] == NewestPerSource(history, n, seen)[r]
    ensures SourceOf(history[i]) !in seen
    ensures NewestOfItsSource(history[..n], i)
  {
    if SourceOf(history[n - 1]) in seen {
      i := ListedIsNewest(history, n - 1, seen, r);
    } else if r == 0 {
      i := n - 1;
    } else {
      i := ListedIsNewest(history, n - 1, seen + {SourceOf(history[n - 1])}, r - 1);
    }
  }

  /** No source is listed twice. */
  lemma {:induction false} ListedOnce(history: seq<Evidence>, n: nat, seen: set<SourceId>, p: nat, q: nat)
    requires n <= |history| && p < q < |NewestPerSource(history, n, seen)|
    requires forall j | n <= j < |history| :: SourceOf(history[j]) in seen
    ensures SourceOf(NewestPerSource(history, n, seen)[p]) != SourceOf(NewestPerSource(history, n, seen)[q])
  {
    if SourceOf(history[n - 1]) in seen {
      ListedOnce(history, n - 1, seen, p, q);
    } else {
      var more := seen + {SourceOf(history[n - 1])};
      if p == 0 {
        var i := ListedIsNewest(history, n - 1, more, q - 1);
      } else {
        ListedOnce(history, n - 1, more, p - 1, q - 1);
      }
    }
  }

  /**
   Every contender is its source's newest evidence in the slot, evaluated against the store, and no
   two contenders share a source.
   */
  lemma {:induction false} ContenderIsNewest(policy: Policy, st: StoreState, key: SlotKey, ctx: EvaluationContext, r: nat) returns (i: nat)
    requires r < |ContendersOf(policy, st, key, ctx)|
    ensures key in st.slots && i < |st.slots[key].history| && NewestOfItsSource(st.slots[key].history, i)
    ensures ContendersOf(policy, st, key, ctx)[r] == Evaluate(policy, st, key, ctx, st.slots[key].history[i])
    ensures forall q | r < q < |ContendersOf(policy, st, key, ctx)| ::
              SourceOf(ContendersOf(policy, st, key, ctx)[q].evidence) != SourceOf(ContendersOf(policy, st, key, ctx)[r].evidence)
  {
    var history := st.slots[key].history;
    var listed := NewestPerSource(history, |history|, {});
    i := ListedIsNewest(history, |history|, {}, r);
    assert history[..|history|] == history;
    forall q | r < q < |ContendersOf(policy, st, key, ctx)|
      ensures SourceOf(ContendersOf(policy, st, key, ctx)[q].evidence) != SourceOf(ContendersOf(policy, st, key, ctx)[r].evidence)
    {
      ListedOnce(history, |history|, {}, r, q);
    }
  }
}
