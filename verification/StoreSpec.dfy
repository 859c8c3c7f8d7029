/**
 The evidence store as a value and one `accept` call as a function on it
 (src/store/evidence_store.cpp, include/linkobs/store/evidence_store.hpp).

 `EvidenceStore.dfy` holds the store as an object and proves its methods against these functions;
 the lemma files prove what runs of calls keep.
 */
module StoreSpec {
  import opened Checked
  import opened Domain
  import opened CounterTracker
  import opened Retirement

  const MAX_RETIRED_SCOPES: nat := 32
  /** Families times directions times error classes. */
  const MAX_KEYS_PER_LINK: nat := 256

  datatype SlotKey = SlotKey(link: LinkId, key: MetricKey)

  /** Per-source revision stream: the scope in force, its highest revision, the superseded scopes. */
  datatype StreamState = StreamState(
    hasScope: bool, scope: SequenceScope, hasSequence: bool, lastSequence: U64,
    lastObservation: ObservationId, gapOpen: bool, retiredScopes: seq<SequenceScope>,
    accepted: nat, fenced: nat, gapCount: nat, scopeChanges: nat)

  const NEW_STREAM: StreamState :=
    StreamState(false, SequenceScope(0, 0, 0), false, 0, 0, false, [], 0, 0, 0, 0)

  datatype Slot = Slot(
    key: MetricKey, history: seq<Evidence>, continuity: map<SourceId, CounterContinuity>,
    accepted: nat, fenced: nat, lastGapAt: TimePoint, hasGap: bool, resetCount: nat, wrapCount: nat)

  function NewSlot(key: MetricKey): Slot {
    Slot(key, [], map[], 0, 0, 0, false, 0, 0)
  }

  datatype StoreState = StoreState(
    slots: map<SlotKey, Slot>, streams: map<SourceId, StreamState>,
    totalAccepted: nat, totalFenced: nat, duplicates: nat, revisionGaps: nat,
    counterResets: nat, counterWraps: nat, fenceCounts: map<FenceReason, nat>)

  const EMPTY_STORE: StoreState := StoreState(map[], map[], 0, 0, 0, 0, 0, 0, map[])

  datatype AcceptContext = AcceptContext(
    source: Option<SourceRecord>, currentGeneration: GenerationId, familyEnabled: bool)

  datatype AcceptOutcome = AcceptOutcome(
    accepted: bool, fence: FenceReason, duplicate: bool, revisionGap: bool, scopeChanged: bool,
    discontinuity: Discontinuity, deltaValid: bool, delta: U64, counterWidth: CounterWidth)

  const BLANK_OUTCOME: AcceptOutcome :=
    AcceptOutcome(false, FenceReason.None, false, false, false, NoDiscontinuity, false, 0, Bits64)

  // ---------------------------------------------------------------------------
  // Lookups with the original's default construction
  // ---------------------------------------------------------------------------

  function StreamOf(st: StoreState, source: SourceId): StreamState {
    if source in st.streams then st.streams[source] else NEW_STREAM
  }

  function SlotKeyOf(o: Observation): SlotKey { SlotKey(o.link, o.key) }

  function SlotOf(st: StoreState, key: SlotKey): Slot {
    if key in st.slots then st.slots[key] else NewSlot(key.key)
  }

  function CountOf(counts: map<FenceReason, nat>, reason: FenceReason): nat {
    if reason in counts then counts[reason] else 0
  }

  // ---------------------------------------------------------------------------
  // The fences, in the order the code applies them
  // ---------------------------------------------------------------------------

  /** Fences that depend on the call alone, before any stream is touched. */
  function EntryFence(policy: Policy, o: Observation, ctx: AcceptContext): FenceReason {
    if ctx.source.None? || !ctx.source.value.registered || ctx.source.value.retired then UnknownSource
    else if ctx.source.value.provenance == ProvenanceClass.Unknown then UnsupportedProvenance
    else if !ctx.familyEnabled then UnsupportedFamily
    else if !ValidId(o.link) then UnknownLink
    else if ValidateObservation(o, policy) == Unsupported then UnsupportedFamily
    else if ValidateObservation(o, policy) == Invalid then InvalidValue
    else if ValidId(ctx.currentGeneration) && o.provenance.generation != ctx.currentGeneration then GenerationBehind
    else FenceReason.None
  }

  /** A superseded scope is refused; the reason says whether the incarnation moved on as well. */
  function StreamFence(stream: StreamState, scope: SequenceScope): FenceReason {
    if scope !in stream.retiredScopes then FenceReason.None
    else if scope.incarnation != stream.scope.incarnation then IncarnationBehind
    else EpochBehind
  }

  datatype Admission = Admission(
    stream: StreamState, fence: FenceReason, duplicate: bool, gap: bool, scopeChanged: bool)

  /** Adopts the observation's scope, or refuses it. A fence here already counted on the stream. */
  function EnterScope(stream: StreamState, scope: SequenceScope): Admission {
    if !stream.hasScope then
      Admission(stream.(hasScope := true, scope := scope, scopeChanges := stream.scopeChanges + 1),
                FenceReason.None, false, false, true)
    else if stream.scope != scope then
      var reason := StreamFence(stream, scope);
      if reason != FenceReason.None then
        Admission(stream.(fenced := stream.fenced + 1), reason, false, false, false)
      else
        Admission(
          stream.(retiredScopes := KeepLast(stream.retiredScopes + [stream.scope], MAX_RETIRED_SCOPES),
                  scope := scope, hasSequence := false, gapOpen := false,
                  scopeChanges := stream.scopeChanges + 1),
          FenceReason.None, false, false, true)
    else
      Admission(stream, FenceReason.None, false, false, false)
  }

  /** Compares the revision with the highest one seen in the scope. */
  function CheckRevision(entered: Admission, o: Observation): Admission {
    var s, sequence := entered.stream, o.provenance.sequence;
    if !s.hasSequence then entered
    else if sequence == s.lastSequence then
      var duplicate := o.id == s.lastObservation;
      entered.(stream := s.(fenced := s.fenced + 1), duplicate := duplicate,
               fence := if duplicate then DuplicateObservation else RevisionReplay)
    else if s.lastSequence == TWO_64 - 1 || sequence < s.lastSequence then
      entered.(stream := s.(fenced := s.fenced + 1), fence := RevisionReplay)
    else if sequence > s.lastSequence + 1 then
      entered.(stream := s.(gapOpen := true, gapCount := s.gapCount + 1), gap := true)
    else entered
  }

  /** Scope then revision: everything `accept` decides from the stream. */
  function Admit(stream: StreamState, o: Observation): Admission {
    var entered := EnterScope(stream, ScopeOf(o.provenance));
    if entered.fence != FenceReason.None then entered else CheckRevision(entered, o)
  }

  /** The newest evidence of the same generation outranks the source and is no older. */
  predicate Outranked(history: seq<Evidence>, o: Observation, authority: SourceAuthority)
  {
    if history == [] then false
    else
      var newest := history[|history| - 1];
      if newest.observation.provenance.generation != o.provenance.generation then
        Outranked(history[..|history| - 1], o, authority)
      else newest.authority.Rank() > authority.Rank() && newest.observation.observedAt >= o.observedAt
  }

  function MaxSlots(policy: Policy): nat { policy.limits.maxLinks * MAX_KEYS_PER_LINK }

  predicate Full(policy: Policy, slots: map<SlotKey, Slot>, key: SlotKey) {
    |slots| >= MaxSlots(policy) && key !in slots
  }

  /** Fences applied after the stream has been updated. */
  function LateFence(policy: Policy, slots: map<SlotKey, Slot>, o: Observation, authority: SourceAuthority): FenceReason {
    var key := SlotKeyOf(o);
    if key in slots && Outranked(slots[key].history, o, authority) then AuthorityDowngrade
    else if Full(policy, slots, key) then StoreFull
    else FenceReason.None
  }

  // ---------------------------------------------------------------------------
  // Recording
  // ---------------------------------------------------------------------------

  function SampleOf(o: Observation, gapEpoch: nat): CounterSample
    requires o.payload.Counter?
  {
    CounterSample(o.payload.counter, o.observedAt, o.receivedAt, o.provenance.sequence,
                  ScopeOf(o.provenance), o.provenance.generation, gapEpoch)
  }

  predicate CarriesCounter(o: Observation) { IsCounterFamily(o.key.family) && o.payload.Counter? }

  function ContinuityOf(slot: Slot, source: SourceId): CounterContinuity {
    if source in slot.continuity then slot.continuity[source] else EMPTY_CONTINUITY
  }

  /** Folds the sample into the slot's per-source continuity and the slot's own counters. */
  function TrackCounter(slot: Slot, o: Observation, gapEpoch: nat, now: TimePoint): Slot
    requires o.payload.Counter?
  {
    var source := o.provenance.source;
    var (continuity, seen) := Observe(ContinuityOf(slot, source), SampleOf(o, gapEpoch));
    var marks := seen.discontinuity == Reset || seen.sequenceGap;
    slot.(continuity := slot.continuity[source := continuity],
          resetCount := slot.resetCount + (if seen.discontinuity == Reset then 1 else 0),
          wrapCount := slot.wrapCount + (if seen.discontinuity == Wrap then 1 else 0),
          lastGapAt := if marks then now else slot.lastGapAt,
          hasGap := slot.hasGap || marks)
  }

  function CounterOutcome(slot: Slot, o: Observation, gapEpoch: nat): ContinuityOutcome
    requires o.payload.Counter?
  {
    Observe(ContinuityOf(slot, o.provenance.source), SampleOf(o, gapEpoch)).1
  }

  function EvidenceOf(o: Observation, source: SourceRecord, now: TimePoint): Evidence {
    Evidence(o, now, source.authority, source.provenance)
  }

  function RecordIn(policy: Policy, slot: Slot, o: Observation, source: SourceRecord, now: TimePoint,
                    gapEpoch: nat, gap: bool): Slot
  {
    var tracked := if CarriesCounter(o) then TrackCounter(slot, o, gapEpoch, now) else slot;
    tracked.(history := KeepLast(tracked.history + [EvidenceOf(o, source, now)], policy.limits.maxEvidencePerKey),
             accepted := tracked.accepted + 1,
             lastGapAt := if gap then now else tracked.lastGapAt,
             hasGap := tracked.hasGap || gap)
  }

  // ---------------------------------------------------------------------------
  // One call
  // ---------------------------------------------------------------------------

  function CountFence(st: StoreState, reason: FenceReason): StoreState {
    st.(totalFenced := st.totalFenced + 1,
        fenceCounts := st.fenceCounts[reason := CountOf(st.fenceCounts, reason) + 1])
  }

  /** The store after the stream half of the call. */
  function WithAdmission(st: StoreState, source: SourceId, a: Admission): StoreState {
    st.(streams := st.streams[source := a.stream],
        duplicates := st.duplicates + (if a.duplicate then 1 else 0),
        revisionGaps := st.revisionGaps + (if a.gap then 1 else 0))
  }

  /** Counts a fence on the stream itself. */
  function FencedOn(st: StoreState, source: SourceId, stream: StreamState): StoreState {
    st.(streams := st.streams[source := stream.(fenced := stream.fenced + 1)])
  }

  /** Why an admission leads to a refusal, or None. */
  function SettledFence(policy: Policy, st: StoreState, o: Observation, authority: SourceAuthority, a: Admission): FenceReason {
    if a.fence != FenceReason.None then a.fence else LateFence(policy, st.slots, o, authority)
  }

  /** The whole effect of an accepted call. */
  function Recorded(policy: Policy, st: StoreState, o: Observation, source: SourceRecord, now: TimePoint, a: Admission): StoreState {
    var key := SlotKeyOf(o);
    var seen := if CarriesCounter(o) then CounterOutcome(SlotOf(st, key), o, a.stream.gapCount).discontinuity else NoDiscontinuity;
    var admitted := WithAdmission(st, o.provenance.source, a);
    admitted.(
      slots := st.slots[key := RecordIn(policy, SlotOf(st, key), o, source, now, a.stream.gapCount, a.gap)],
      streams := admitted.streams[o.provenance.source :=
        a.stream.(hasSequence := true, lastSequence := o.provenance.sequence, lastObservation := o.id,
                  accepted := a.stream.accepted + 1)],
      totalAccepted := st.totalAccepted + 1,
      counterResets := st.counterResets + (if seen == Reset then 1 else 0),
      counterWraps := st.counterWraps + (if seen == Wrap then 1 else 0))
  }

  /** What follows the admission: the stream is updated even when a late fence refuses the call. */
  function Settle(policy: Policy, st: StoreState, o: Observation, source: SourceRecord, now: TimePoint, a: Admission): StoreState {
    var admitted := WithAdmission(st, o.provenance.source, a);
    var reason := SettledFence(policy, st, o, source.authority, a);
    if reason == FenceReason.None then Recorded(policy, st, o, source, now, a)
    else if reason == AuthorityDowngrade then CountFence(FencedOn(admitted, o.provenance.source, a.stream), reason)
    else CountFence(admitted, reason)
  }

  function SettledOutcome(policy: Policy, st: StoreState, o: Observation, authority: SourceAuthority, a: Admission): AcceptOutcome {
    var reason := SettledFence(policy, st, o, authority, a);
    var admitted := BLANK_OUTCOME.(fence := reason, accepted := reason == FenceReason.None, duplicate := a.duplicate,
                                   revisionGap := a.gap, scopeChanged := a.scopeChanged);
    if reason == FenceReason.None && CarriesCounter(o) then
      var seen := CounterOutcome(SlotOf(st, SlotKeyOf(o)), o, a.stream.gapCount);
      admitted.(discontinuity := seen.discontinuity, deltaValid := seen.deltaValid, delta := seen.delta,
                counterWidth := o.payload.counter.width)
    else admitted
  }

  function Accept(policy: Policy, st: StoreState, o: Observation, ctx: AcceptContext, now: TimePoint): StoreState {
    var entry := EntryFence(policy, o, ctx);
    if entry != FenceReason.None then CountFence(st, entry)
    else Settle(policy, st, o, ctx.source.value, now, Admit(StreamOf(st, o.provenance.source), o))
  }

  function OutcomeOf(policy: Policy, st: StoreState, o: Observation, ctx: AcceptContext): AcceptOutcome {
    var entry := EntryFence(policy, o, ctx);
    if entry != FenceReason.None then BLANK_OUTCOME.(fence := entry)
    else SettledOutcome(policy, st, o, ctx.source.value.authority, Admit(StreamOf(st, o.provenance.source), o))
  }

  // ---------------------------------------------------------------------------
  // Runs of calls
  // ---------------------------------------------------------------------------

  datatype Call = Call(observation: Observation, context: AcceptContext, now: TimePoint) {
    function Source(): SourceId { observation.provenance.source }
    function Scope(): SequenceScope { ScopeOf(observation.provenance) }
    function Key(): SlotKey { SlotKeyOf(observation) }
    function Sequence(): U64 { observation.provenance.sequence }
  }

  function Apply(policy: Policy, st: StoreState, c: Call): StoreState {
    Accept(policy, st, c.observation, c.context, c.now)
  }

  function Answer(policy: Policy, st: StoreState, c: Call): AcceptOutcome {
    OutcomeOf(policy, st, c.observation, c.context)
  }

  function Run(policy: Policy, st: StoreState, calls: seq<Call>): StoreState {
    if calls == [] then st
    else Apply(policy, Run(policy, st, calls[..|calls| - 1]), calls[|calls| - 1])
  }

  /** The outcome of the i-th call of a run from the empty store. */
  function AnswerAt(policy: Policy, calls: seq<Call>, i: nat): AcceptOutcome
    requires i < |calls|
  {
    Answer(policy, Run(policy, EMPTY_STORE, calls[..i]), calls[i])
  }

  function StateAfter(policy: Policy, calls: seq<Call>, n: nat): StoreState
    requires n <= |calls|
  {
    Run(policy, EMPTY_STORE, calls[..n])
  }

  lemma RunStep(policy: Policy, calls: seq<Call>, n: nat)
    requires n < |calls|
    ensures StateAfter(policy, calls, n + 1) == Apply(policy, StateAfter(policy, calls, n), calls[n])
    ensures AnswerAt(policy, calls, n) == Answer(policy, StateAfter(policy, calls, n), calls[n])
  {
    assert calls[..n + 1][..n] == calls[..n];
  }
}
