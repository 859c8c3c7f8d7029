/** Winner selection among contenders (src/classify/classifier.cpp:15-51). */
module Winner {
  import opened Domain
  import opened StoreSpec
  import opened StoreQuery

  /** Authority, then observation time, then receive time, then the lower source identity. */
  predicate HigherPriority(lhs: EvaluatedEvidence, rhs: EvaluatedEvidence) {
    var a, b := lhs.evidence, rhs.evidence;
    if a.authority != b.authority then a.authority.Rank() > b.authority.Rank()
    else if a.observation.observedAt != b.observation.observedAt then a.observation.observedAt > b.observation.observedAt
    else if a.observation.receivedAt != b.observation.receivedAt then a.observation.receivedAt > b.observation.receivedAt
    else SourceOf(a) < SourceOf(b)
  }

  function WinnerOf(cs: seq<EvaluatedEvidence>): Option<EvaluatedEvidence> {
    if cs == [] then Option.None
    else
      var best, c := WinnerOf(cs[..|cs| - 1]), cs[|cs| - 1];
      if c.eligible && (best.None? || HigherPriority(c, best.value)) then Some(c) else best
  }

  method SelectWinner(cs: seq<EvaluatedEvidence>) returns (best: Option<EvaluatedEvidence>)
    ensures best == WinnerOf(cs)
  {
    best := Option.None;
    var i := 0;
    while i < |cs|
      invariant 0 <= i <= |cs|
      invariant best == WinnerOf(cs[..i])
    {
      assert cs[..i + 1][..i] == cs[..i];
      if cs[i].eligible {
        if best.None? || HigherPriority(cs[i], best.value) {
          best := Some(cs[i]);
        }
      }
      i := i + 1;
    }
    assert cs[..i] == cs;
  }

  ghost predicate DistinctSources(cs: seq<EvaluatedEvidence>) {
    forall i, j | 0 <= i < j < |cs| :: SourceOf(cs[i].evidence) != SourceOf(cs[j].evidence)
  }

  lemma PriorityTransitive(a: EvaluatedEvidence, b: EvaluatedEvidence, c: EvaluatedEvidence)
    requires HigherPriority(a, b) && HigherPriority(b, c)
    ensures HigherPriority(a, c)
  {
  }

  lemma PriorityTotal(a: EvaluatedEvidence, b: EvaluatedEvidence)
    requires SourceOf(a.evidence) != SourceOf(b.evidence)
    ensures HigherPriority(a, b) <==> !HigherPriority(b, a)
  {
  }

  /** The winner is an eligible contender that no eligible contender beats; there is one iff any is eligible. */
  lemma {:induction false} WinnerIsMaximal(cs: seq<EvaluatedEvidence>)
    ensures WinnerOf(cs).None? <==> forall c | c in cs :: !c.eligible
    ensures WinnerOf(cs).Some? ==>
              && WinnerOf(cs).value in cs && WinnerOf(cs).value.eligible
              && forall c | c in cs && c.eligible :: !HigherPriority(c, WinnerOf(cs).value)
  {
    if cs != [] {
      var n := |cs| - 1;
      WinnerIsMaximal(cs[..n]);
      assert cs == cs[..n] + [cs[n]];
      var best := WinnerOf(cs[..n]);
      if best.Some? && cs[n].eligible && HigherPriority(cs[n], best.value) {
        forall c | c in cs[..n] && c.eligible ensures !HigherPriority(c, cs[n]) {
          if HigherPriority(c, cs[n]) {
            PriorityTransitive(c, cs[n], best.value);
          }
        }
      }
    }
  }

  /** Two listings of the same contenders, one per source, have the same winner whatever their order. */
  lemma {:induction false} WinnerIgnoresOrder(cs: seq<EvaluatedEvidence>, ds: seq<EvaluatedEvidence>)
    requires DistinctSources(cs) && forall c :: c in cs <==> c in ds
    ensures WinnerOf(cs) == WinnerOf(ds)
  {
    WinnerIsMaximal(cs);
    WinnerIsMaximal(ds);
    if WinnerOf(cs).Some? && WinnerOf(ds).Some? {
      var v, w := WinnerOf(cs).value, WinnerOf(ds).value;
      if v != w {
        PriorityTotal(v, w);
      }
    }
  }

  /** Contenders of a slot never share a source, so the store's winner does not depend on their order. */
  lemma {:induction false} ContendersDistinct(policy: Policy, st: StoreState, key: SlotKey, ctx: EvaluationContext)
    ensures DistinctSources(ContendersOf(policy, st, key, ctx))
  {
    var cs := ContendersOf(policy, st, key, ctx);
    forall i, j | 0 <= i < j < |cs| ensures SourceOf(cs[i].evidence) != SourceOf(cs[j].evidence) {
      var at := ContenderIsNewest(policy, st, key, ctx, i);
    }
  }
}
