/**
 What every call keeps about the shape of the store: bounds, identities, and agreement between a
 slot's retained history and its per-source continuity index.
 */
module StoreInvariant {
  import opened Domain
  import opened CounterTracker
  import opened Retirement
  import opened StoreSpec

  predicate SameSource(a: Evidence, b: Evidence) {
    a.observation.provenance.source == b.observation.provenance.source
  }

  /** No later evidence in the history comes from the same source. */
  predicate NewestOfItsSource(history: seq<Evidence>, i: nat)
    requires i < |history|
  {
    forall j | i < j < |history| :: !SameSource(history[j], history[i])
  }

  /** The sample is this observation, seen under some gap epoch. */
  predicate Samples(sample: CounterSample, o: Observation) {
    o.payload.Counter? && sample == SampleOf(o, sample.gapEpoch)
  }

  predicate LatestIs(slot: Slot, o: Observation) {
    var source := o.provenance.source;
    && source in slot.continuity && slot.continuity[source].latest.Some?
    && Samples(slot.continuity[source].latest.value, o)
  }

  /** A source's newest retained evidence is the latest sample its continuity record holds. */
  ghost predicate ContinuityAgrees(slot: Slot) {
    forall i | 0 <= i < |slot.history| && NewestOfItsSource(slot.history, i) :: LatestIs(slot, slot.history[i].observation)
  }

  ghost predicate EvidenceInv(key: SlotKey, e: Evidence, sources: set<SourceId>) {
    && SlotKeyOf(e.observation) == key
    && PayloadMatchesFamily(key.key.family, e.observation.payload)
    && e.observation.provenance.source in sources
  }

  ghost predicate SlotInv(policy: Policy, key: SlotKey, slot: Slot, sources: set<SourceId>) {
    && slot.key == key.key && ValidId(key.link)
    && |slot.history| <= policy.limits.maxEvidencePerKey
    && slot.continuity.Keys <= sources
    && (forall i | 0 <= i < |slot.history| :: EvidenceInv(key, slot.history[i], sources))
    && (IsCounterFamily(key.key.family) ==> ContinuityAgrees(slot))
  }

  ghost predicate StreamInv(source: SourceId, stream: StreamState) {
    && ValidId(source) && stream.hasScope && stream.scope.source == source
    && |stream.retiredScopes| <= MAX_RETIRED_SCOPES
  }

  ghost predicate StoreInv(policy: Policy, st: StoreState) {
    SlotsInv(policy, st.slots, st.streams.Keys) && StreamsInv(st.streams)
  }

  // ---------------------------------------------------------------------------
  // Preservation
  // ---------------------------------------------------------------------------

  lemma {:induction false} AppendedHistory(history: seq<Evidence>, e: Evidence, bound: nat, i: nat)
    requires i < |KeepLast(history + [e], bound)|
    ensures
      var kept := KeepLast(history + [e], bound);
      var at := i + (|history| + 1 - |kept|);
      && kept[i] == (history + [e])[at]
      && (at == |history| ==> kept[i] == e)
      && (at < |history| && NewestOfItsSource(kept, i) ==> NewestOfItsSource(history, at) && !SameSource(e, history[at]))
  {
    var kept := KeepLast(history + [e], bound);
    var shift := |history| + 1 - |kept|;
    if i + shift < |history| && NewestOfItsSource(kept, i) {
      assert kept[|kept| - 1] == e;
      forall j | i + shift < j < |history| ensures !SameSource(history[j], history[i + shift]) {
        assert kept[j - shift] == history[j];
      }
    }
  }

  lemma {:induction false} RecordKeepsAgreement(policy: Policy, slot: Slot, o: Observation, source: SourceRecord, now: TimePoint, gapEpoch: nat, gap: bool)
    requires CarriesCounter(o) && ContinuityAgrees(slot)
    ensures ContinuityAgrees(RecordIn(policy, slot, o, source, now, gapEpoch, gap))
  {
    var after := RecordIn(policy, slot, o, source, now, gapEpoch, gap);
    var e := EvidenceOf(o, source, now);
    assert after.continuity[o.provenance.source].latest == Some(SampleOf(o, gapEpoch));
    forall i | 0 <= i < |after.history| && NewestOfItsSource(after.history, i)
      ensures LatestIs(after, after.history[i].observation)
    {
      AppendedHistory(slot.history, e, policy.limits.maxEvidencePerKey, i);
    }
  }

  lemma {:induction false} RecordKeepsSlotInv(policy: Policy, key: SlotKey, slot: Slot, o: Observation, source: SourceRecord,
                                              now: TimePoint, gapEpoch: nat, gap: bool, sources: set<SourceId>)
    requires SlotInv(policy, key, slot, sources) && SlotKeyOf(o) == key && o.provenance.source in sources
    requires PayloadMatchesFamily(o.key.family, o.payload)
    ensures SlotInv(policy, key, RecordIn(policy, slot, o, source, now, gapEpoch, gap), sources)
  {
    var after := RecordIn(policy, slot, o, source, now, gapEpoch, gap);
    var e := EvidenceOf(o, source, now);
    forall i | 0 <= i < |after.history| ensures EvidenceInv(key, after.history[i], sources) {
      AppendedHistory(slot.history, e, policy.limits.maxEvidencePerKey, i);
    }
    if IsCounterFamily(key.key.family) {
      RecordKeepsAgreement(policy, slot, o, source, now, gapEpoch, gap);
    }
  }

  lemma {:induction false} AdmitKeepsStream(source: SourceId, st: StoreState, o: Observation)
    requires source == o.provenance.source && ValidId(source)
    requires source in st.streams ==> StreamInv(source, st.streams[source])
    ensures StreamInv(source, Admit(StreamOf(st, source), o).stream)
  {
  }

  lemma {:induction false} MoreSources(policy: Policy, key: SlotKey, slot: Slot, few: set<SourceId>, many: set<SourceId>)
    requires SlotInv(policy, key, slot, few) && few <= many
    ensures SlotInv(policy, key, slot, many)
  {
    forall i | 0 <= i < |slot.history| ensures EvidenceInv(key, slot.history[i], many) {
      assert EvidenceInv(key, slot.history[i], few);
    }
  }

  ghost predicate SlotsInv(policy: Policy, slots: map<SlotKey, Slot>, sources: set<SourceId>) {
    |slots| <= MaxSlots(policy) && forall k | k in slots :: SlotInv(policy, k, slots[k], sources)
  }

  ghost predicate StreamsInv(streams: map<SourceId, StreamState>) {
    forall s | s in streams :: StreamInv(s, streams[s])
  }

  lemma {:induction false} WiderSources(policy: Policy, slots: map<SlotKey, Slot>, few: set<SourceId>, many: set<SourceId>)
    requires SlotsInv(policy, slots, few) && few <= many
    ensures SlotsInv(policy, slots, many)
  {
    forall k | k in slots ensures SlotInv(policy, k, slots[k], many) {
      MoreSources(policy, k, slots[k], few, many);
    }
  }

  lemma {:induction false} PutSlot(policy: Policy, slots: map<SlotKey, Slot>, key: SlotKey, slot: Slot, sources: set<SourceId>)
    requires SlotsInv(policy, slots, sources) && SlotInv(policy, key, slot, sources) && !Full(policy, slots, key)
    ensures SlotsInv(policy, slots[key := slot], sources)
  {
    var more := slots[key := slot];
    if key in slots {
      assert more.Keys == slots.Keys;
    } else {
      assert more.Keys == slots.Keys + {key};
    }
    assert |more| == |more.Keys| && |slots| == |slots.Keys|;
  }

  /** The stream a settled call leaves behind. */
  function SettledStream(policy: Policy, st: StoreState, o: Observation, authority: SourceAuthority, a: Admission): StreamState {
    var reason := SettledFence(policy, st, o, authority, a);
    if reason == FenceReason.None then
      a.stream.(hasSequence := true, lastSequence := o.provenance.sequence, lastObservation := o.id,
                accepted := a.stream.accepted + 1)
    else if reason == AuthorityDowngrade then a.stream.(fenced := a.stream.fenced + 1)
    else a.stream
  }

  lemma {:induction false} Overwrite<K, V>(m: map<K, V>, k: K, first: V, second: V)
    ensures m[k := first][k := second] == m[k := second]
  {
  }

  function SettledStreams(policy: Policy, st: StoreState, o: Observation, authority: SourceAuthority, a: Admission): map<SourceId, StreamState> {
    st.streams[o.provenance.source := SettledStream(policy, st, o, authority, a)]
  }

  function SettledSlots(policy: Policy, st: StoreState, o: Observation, source: SourceRecord, now: TimePoint, a: Admission): map<SlotKey, Slot> {
    var key := SlotKeyOf(o);
    if SettledFence(policy, st, o, source.authority, a) == FenceReason.None then
      st.slots[key := RecordIn(policy, SlotOf(st, key), o, source, now, a.stream.gapCount, a.gap)]
    else st.slots
  }

  /** Where a settled call leaves the streams, and the slots. */
  lemma {:induction false} SettleShape(policy: Policy, st: StoreState, o: Observation, source: SourceRecord, now: TimePoint, a: Admission)
    ensures Settle(policy, st, o, source, now, a).streams == SettledStreams(policy, st, o, source.authority, a)
    ensures Settle(policy, st, o, source, now, a).slots == SettledSlots(policy, st, o, source, now, a)
  {
    Overwrite(st.streams, o.provenance.source, a.stream, SettledStream(policy, st, o, source.authority, a));
  }

  lemma {:induction false} RecordingKeepsInv(policy: Policy, st: StoreState, o: Observation, source: SourceRecord, now: TimePoint,
                                             gapEpoch: nat, gap: bool, sources: set<SourceId>)
    requires SlotsInv(policy, st.slots, sources) && ValidateObservation(o, policy) == Ok
    requires !Full(policy, st.slots, SlotKeyOf(o)) && o.provenance.source in sources
    ensures SlotsInv(policy, st.slots[SlotKeyOf(o) := RecordIn(policy, SlotOf(st, SlotKeyOf(o)), o, source, now, gapEpoch, gap)], sources)
  {
    var key := SlotKeyOf(o);
    assert SlotInv(policy, key, SlotOf(st, key), sources);
    RecordKeepsSlotInv(policy, key, SlotOf(st, key), o, source, now, gapEpoch, gap, sources);
    PutSlot(policy, st.slots, key, RecordIn(policy, SlotOf(st, key), o, source, now, gapEpoch, gap), sources);
  }

  lemma {:induction false} SettledStreamsInv(policy: Policy, st: StoreState, o: Observation, authority: SourceAuthority, a: Admission)
    requires StreamsInv(st.streams) && StreamInv(o.provenance.source, a.stream)
    ensures
      var streams := SettledStreams(policy, st, o, authority, a);
      StreamsInv(streams) && streams.Keys == st.streams.Keys + {o.provenance.source}
  {
  }

  lemma {:induction false} SettledSlotsInv(policy: Policy, st: StoreState, o: Observation, source: SourceRecord, now: TimePoint, a: Admission,
                                           sources: set<SourceId>)
    requires SlotsInv(policy, st.slots, st.streams.Keys) && ValidateObservation(o, policy) == Ok
    requires sources == st.streams.Keys + {o.provenance.source}
    ensures SlotsInv(policy, SettledSlots(policy, st, o, source, now, a), sources)
  {
    WiderSources(policy, st.slots, st.streams.Keys, sources);
    if SettledFence(policy, st, o, source.authority, a) == FenceReason.None {
      RecordingKeepsInv(policy, st, o, source, now, a.stream.gapCount, a.gap, sources);
    }
  }

  lemma {:induction false} ApplyKeepsInv(policy: Policy, st: StoreState, c: Call)
    requires StoreInv(policy, st)
    ensures StoreInv(policy, Apply(policy, st, c))
  {
    var o := c.observation;
    if EntryFence(policy, o, c.context) == FenceReason.None {
      AdmitKeepsStream(c.Source(), st, o);
      var source, a := c.context.source.value, Admit(StreamOf(st, c.Source()), o);
      SettleShape(policy, st, o, source, c.now, a);
      SettledStreamsInv(policy, st, o, source.authority, a);
      SettledSlotsInv(policy, st, o, source, c.now, a, SettledStreams(policy, st, o, source.authority, a).Keys);
    }
  }

  /** Every reachable store satisfies the invariant. */
  lemma {:induction false} RunKeepsInv(policy: Policy, calls: seq<Call>)
    ensures StoreInv(policy, Run(policy, EMPTY_STORE, calls))
  {
    if calls != [] {
      var n := |calls| - 1;
      RunKeepsInv(policy, calls[..n]);
      ApplyKeepsInv(policy, Run(policy, EMPTY_STORE, calls[..n]), calls[n]);
    }
  }
}
