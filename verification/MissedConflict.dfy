/**
 A disagreement no report shows: two primary sources whose derived utilizations differ by nine tenths,
 in a run of four accepted readings, and no conflict (src/classify/classifier.cpp:374-398).
 */
module MissedConflict {
  import opened Checked
  import opened Domain
  import opened CounterTracker
  import opened EvidenceAge
  import opened StoreSpec
  import opened StoreQuery
  import opened StoreReplay
  import opened Winner
  import opened Derivation
  import opened Classifier
  import opened LateFences
  import opened Conflicts

  const ALPHA: SourceRecord := SourceRecord(11, "alpha", Primary, Real, true, false)
  const OMEGA: SourceRecord := SourceRecord(12, "omega", Primary, Real, true, false)

  /** An inbound octet reading of one of the two. */
  function Sampled(source: SourceRecord, sequence: U64, raw: U64, at: TimePoint): Call {
    Call(Observation(100 + sequence % 8, Provenance(source.id, 1, 1, 3, sequence), LINK, INBOUND,
                     Counter(CounterReading(raw, Bits64, false)), at, at),
         AcceptContext(Some(source), 3, true), at)
  }

  const A1: Call := Sampled(ALPHA, 1, 0, 90)
  const W1: Call := Sampled(OMEGA, 1, 0, 100)
  const W2: Call := Sampled(OMEGA, 2, 1000, 200)
  const A2: Call := Sampled(ALPHA, 2, 100, 190)

  const SLOT: SlotKey := SlotKey(LINK, INBOUND)

  /** A policy under which these readings are fresh, kept, listed and far apart. */
  predicate Sensitive(policy: Policy) {
    && policy.limits.maxLinks > 0 && policy.limits.maxEvidencePerKey >= 4 && policy.limits.maxContendersPerKey >= 2
    && FreshnessPolicyFor(policy, Octets).freshWithin >= 1000
    && policy.thresholds.derivationWindow >= 100 && policy.thresholds.conflictTolerancePpb < 900_000_000
  }

  function Sighted(c: Call, source: SourceRecord): Evidence { EvidenceOf(c.observation, source, c.now) }
  function SampleIn(c: Call): CounterSample
    requires c.observation.payload.Counter?
  {
    SampleOf(c.observation, 0)
  }

  function Once(c: Call): CounterContinuity
    requires c.observation.payload.Counter?
  {
    CounterContinuity(Some(SampleIn(c)), Option.None, NoDiscontinuity, 0, 0, 0)
  }

  function Twice(c: Call, d: Call): CounterContinuity
    requires c.observation.payload.Counter? && d.observation.payload.Counter?
  {
    CounterContinuity(Some(SampleIn(d)), Some(SampleIn(c)), NoDiscontinuity, 0, 0, 0)
  }

  /** One slot with this history and these continuity records. */
  ghost predicate Slotted(st: StoreState, history: seq<Evidence>, continuity: map<SourceId, CounterContinuity>) {
    && st.slots.Keys == {SLOT} && st.slots[SLOT].history == history && st.slots[SLOT].continuity == continuity
    && forall i | 0 <= i < |history| :: history[i].authority == Primary
  }

  /** A stream in its one scope, at this revision, without gaps. */
  ghost predicate InScope(stream: StreamState, c: Call) {
    && stream.hasScope && stream.scope == c.Scope() && stream.hasSequence && stream.lastSequence == c.Sequence()
    && stream.gapCount == 0 && stream.retiredScopes == []
  }

  predicate IsReading(c: Call, source: SourceRecord) {
    (source == ALPHA && (c == A1 || c == A2)) || (source == OMEGA && (c == W1 || c == W2))
  }

  ghost predicate HeldSoFar(st: StoreState, history: seq<Evidence>, continuity: map<SourceId, CounterContinuity>) {
    if history == [] then st.slots == map[] && continuity == map[] else Slotted(st, history, continuity)
  }

  lemma {:induction false} ReadingUnfenced(policy: Policy, st: StoreState, c: Call, source: SourceRecord,
                                           history: seq<Evidence>, continuity: map<SourceId, CounterContinuity>)
    requires Sensitive(policy) && IsReading(c, source) && HeldSoFar(st, history, continuity)
    ensures c.context.source == Some(source) && c.Key() == SLOT && EntryFence(policy, c.observation, c.context) == FenceReason.None
    ensures LateFence(policy, st.slots, c.observation, Primary) == FenceReason.None
  {
    if history == [] {
      assert |st.slots| == 0;
    } else {
      PrimaryNotOutranked(history, c.observation);
    }
  }

  lemma {:induction false} ReadingAdmitted(stream: StreamState, c: Call, source: SourceRecord)
    requires IsReading(c, source)
    requires if c.Sequence() == 1 then stream == NEW_STREAM else InScope(stream, Sampled(source, 1, 0, 0))
    ensures
      var a := Admit(stream, c.observation);
      && a.fence == FenceReason.None && !a.gap && a.stream.gapCount == 0
      && InScope(a.stream.(hasSequence := true, lastSequence := c.Sequence(), lastObservation := c.observation.id,
                           accepted := a.stream.accepted + 1), c)
  {
  }

  /** The record of a source's continuity with one more sample. */
  function Folded(continuity: map<SourceId, CounterContinuity>, c: Call): map<SourceId, CounterContinuity>
    requires c.observation.payload.Counter?
  {
    continuity[c.Source() := Observe(if c.Source() in continuity then continuity[c.Source()] else EMPTY_CONTINUITY, SampleIn(c)).0]
  }

  lemma {:induction false} ReadingSlotted(policy: Policy, st: StoreState, c: Call, source: SourceRecord, next: StoreState,
                                          history: seq<Evidence>, continuity: map<SourceId, CounterContinuity>)
    requires Sensitive(policy) && |history| < 4 && IsReading(c, source) && HeldSoFar(st, history, continuity)
    requires next.slots == st.slots[SLOT := RecordIn(policy, SlotOf(st, SLOT), c.observation, source, c.now, 0, false)]
    ensures Slotted(next, history + [Sighted(c, source)], Folded(continuity, c))
  {
    assert SlotOf(st, SLOT).history == history && SlotOf(st, SLOT).continuity == continuity;
  }

  /** A reading next in its source's order is recorded behind the others. */
  lemma {:induction false} NextReading(policy: Policy, st: StoreState, c: Call, source: SourceRecord,
                                       history: seq<Evidence>, continuity: map<SourceId, CounterContinuity>)
    requires Sensitive(policy) && |history| < 4 && IsReading(c, source) && HeldSoFar(st, history, continuity)
    requires if c.Sequence() == 1 then StreamOf(st, source.id) == NEW_STREAM else InScope(StreamOf(st, source.id), Sampled(source, 1, 0, 0))
    ensures
      var next := Apply(policy, st, c);
      && Answer(policy, st, c).accepted
      && Slotted(next, history + [Sighted(c, source)], Folded(continuity, c))
      && InScope(StreamOf(next, source.id), c)
      && (forall s | s != source.id :: StreamOf(next, s) == StreamOf(st, s))
  {
    ReadingUnfenced(policy, st, c, source, history, continuity);
    ReadingAdmitted(StreamOf(st, source.id), c, source);
    Recording(policy, st, c);
    ReadingSlotted(policy, st, c, source, Apply(policy, st, c), history, continuity);
  }

  const READINGS: seq<Call> := [A1, W1, W2, A2]

  /** The history after n of the readings. */
  function HistoryAt(n: nat): seq<Evidence>
    requires n <= 4
  {
    [Sighted(A1, ALPHA), Sighted(W1, OMEGA), Sighted(W2, OMEGA), Sighted(A2, ALPHA)][..n]
  }

  function ContinuityAt(n: nat): map<SourceId, CounterContinuity>
    requires n <= 4
  {
    if n == 0 then map[]
    else if n == 1 then map[11 := Once(A1)]
    else if n == 2 then map[11 := Once(A1), 12 := Once(W1)]
    else if n == 3 then map[11 := Once(A1), 12 := Twice(W1, W2)]
    else map[11 := Twice(A1, A2), 12 := Twice(W1, W2)]
  }

  /** The store after n of the readings. */
  ghost predicate Seen(st: StoreState, n: nat)
    requires n <= 4
  {
    && HeldSoFar(st, HistoryAt(n), ContinuityAt(n))
    && (if n == 0 then StreamOf(st, 11) == NEW_STREAM else InScope(StreamOf(st, 11), if n == 4 then A2 else A1))
    && (if n <= 1 then StreamOf(st, 12) == NEW_STREAM else InScope(StreamOf(st, 12), if n == 2 then W1 else W2))
  }

  lemma {:induction false} ContinuityGrows(n: nat)
    requires n < 4
    ensures Folded(ContinuityAt(n), READINGS[n]) == ContinuityAt(n + 1)
  {
  }

  lemma {:induction false} HistoryGrows(n: nat)
    requires n < 4
    ensures HistoryAt(n) + [Sighted(READINGS[n], if n == 0 || n == 3 then ALPHA else OMEGA)] == HistoryAt(n + 1)
  {
  }

  lemma {:induction false} NextSeen(policy: Policy, st: StoreState, n: nat)
    requires Sensitive(policy) && n < 4 && Seen(st, n)
    ensures Answer(policy, st, READINGS[n]).accepted && Seen(Apply(policy, st, READINGS[n]), n + 1)
  {
    var source := if n == 0 || n == 3 then ALPHA else OMEGA;
    ContinuityGrows(n);
    HistoryGrows(n);
    NextReading(policy, st, READINGS[n], source, HistoryAt(n), ContinuityAt(n));
  }

  lemma {:induction false} ReadingsRun(policy: Policy, n: nat)
    requires Sensitive(policy) && n <= 4
    ensures Seen(StateAfter(policy, READINGS, n), n)
    ensures forall i | 0 <= i < n :: AnswerAt(policy, READINGS, i).accepted
  {
    if n > 0 {
      ReadingsRun(policy, n - 1);
      RunStep(policy, READINGS, n - 1);
      NextSeen(policy, StateAfter(policy, READINGS, n - 1), n - 1);
    }
  }

  // ---------------------------------------------------------------------------
  // What the classifier makes of it
  // ---------------------------------------------------------------------------

  const FACTS: LinkFacts :=
    LinkFacts(LINK, "link", 0, 0, 0, 0, Physical, 3, true, 1_000_000_000_000, 0, Real)

  function ConflictInput(policy: Policy): Input { Input(policy, FACTS, LINK, 3, 210, []) }

  /** What each source's pair derives to: 1000 and 100 octets in 100 ns over a terabit. */
  lemma {:induction false} UtilizationOfPair(policy: Policy, st: StoreState, source: SourceRecord, first: Call, second: Call, delta: U64, ppb: U64)
    requires Sensitive(policy) && Seen(st, 4)
    requires (source == ALPHA && first == A1 && second == A2 && delta == 100 && ppb == 8_000_000)
          || (source == OMEGA && first == W1 && second == W2 && delta == 1000 && ppb == 80_000_000)
    ensures UtilizationAt(ConflictInput(policy), st, INBOUND, source.id) == Some(ppb)
  {
    var ctx := ConflictInput(policy).Context();
    var pair := (SampleIn(first), SampleIn(second));
    assert RetainedPair(st, SLOT, source.id) == Some(pair);
    assert SampleUsable(policy, st, source.id, pair.0, Octets, ctx) && SampleUsable(policy, st, source.id, pair.1, Octets, ctx);
    var d := DeriveDelta(RequestFor(policy, st, SLOT, source.id, ctx, pair, 1_000_000_000_000));
    assert d.valid && d.delta == delta && d.window == 100;
  }

  /** The two contenders, newest accepted first. */
  lemma {:induction false} BothContend(policy: Policy, st: StoreState)
    requires Sensitive(policy) && Seen(st, 4)
    ensures
      var input := ConflictInput(policy);
      ContendersAt(input, st, INBOUND) == [Evaluate(policy, st, SLOT, input.Context(), Sighted(A2, ALPHA)),
                                           Evaluate(policy, st, SLOT, input.Context(), Sighted(W2, OMEGA))]
  {
    var h := HistoryAt(4);
    assert NewestPerSource(h, 0, {11, 12}) == [];
    assert {11} + {12} == {11, 12};
    assert NewestPerSource(h, 2, {11, 12}) == [] by { assert NewestPerSource(h, 1, {11, 12}) == []; }
    assert NewestPerSource(h, 3, {11}) == [h[2]];
    assert {} + {11 as SourceId} == {11 as SourceId};
    assert NewestPerSource(h, 4, {}) == [h[3], h[2]];
    var es := [h[3], h[2]];
    assert FirstFew(es, policy.limits.maxContendersPerKey) == es;
  }

  lemma {:induction false} BothEligible(policy: Policy, st: StoreState)
    requires Sensitive(policy) && Seen(st, 4)
    ensures
      var input := ConflictInput(policy);
      && Evaluate(policy, st, SLOT, input.Context(), Sighted(A2, ALPHA)).eligible
      && Evaluate(policy, st, SLOT, input.Context(), Sighted(W2, OMEGA)).eligible
  {
  }

  lemma {:induction false} TopTwo(cs: seq<EvaluatedEvidence>)
    requires |cs| == 2 && cs[0].eligible && cs[1].eligible
    requires cs[0].evidence.authority == Primary && cs[1].evidence.authority == Primary && HigherPriority(cs[1], cs[0])
    ensures TopAuthority(cs) == Primary && TopContenders(cs, Primary) == cs && WinnerOf(cs) == Some(cs[1])
  {
    assert cs[..1] == [cs[0]] && cs[..1][..0] == [];
    assert TopAuthority([cs[0]]) == Primary && TopContenders([cs[0]], Primary) == [cs[0]] && WinnerOf([cs[0]]) == Some(cs[0]);
    assert [cs[0]] + [cs[1]] == cs;
  }

  lemma {:induction false} NineTenths()
    ensures RelativeDifference(80_000_000, 8_000_000) == 900_000_000
  {
    ShiftingQuotientComplete(72_000_000 * 1_000_000_000, 80_000_000);
  }

  /**
   Under any sensitive policy the run is accepted in full, both sources' top contenders derive a
   utilization, the two are nine tenths apart, and the report says Corroborated.
   */
  lemma {:induction false} ConflictGoesUnseen(policy: Policy)
    requires Sensitive(policy)
    ensures forall i | 0 <= i < 4 :: AnswerAt(policy, READINGS, i).accepted
    ensures
      var input, st := ConflictInput(policy), Run(policy, EMPTY_STORE, READINGS);
      && |TopOf(input, st, INBOUND)| == 2
      && Apart(input, UtilizationAt(input, st, INBOUND, OMEGA.id), UtilizationAt(input, st, INBOUND, ALPHA.id))
      && ReportOf(input, st, INBOUND).conflict == Corroborated
  {
    var input, st := ConflictInput(policy), Run(policy, EMPTY_STORE, READINGS);
    ReadingsRun(policy, 4);
    assert READINGS[..4] == READINGS;
    BothContend(policy, st);
    BothEligible(policy, st);
    TopTwo(ContendersAt(input, st, INBOUND));
    UtilizationOfPair(policy, st, ALPHA, A1, A2, 100, 8_000_000);
    UtilizationOfPair(policy, st, OMEGA, W1, W2, 1000, 80_000_000);
    NineTenths();
    ConflictOfReport(input, st, INBOUND);
    SecondWinnerSeesNoConflict(input, st, INBOUND);
  }
}
