/**
 Restart: persisting a store and restoring it into a fresh one
 (src/store/evidence_store.cpp:362-444, src/runtime/observatory.cpp:694-710).
 */
module StoreRestart {
  import opened Domain
  import opened CounterTracker
  import opened StoreSpec
  import opened StoreInvariant
  import opened StoreConfluence
  import opened StoreQuery

  /** The serialisable form of a slot. */
  datatype PersistedSlot = PersistedSlot(
    slot: SlotKey, history: seq<Evidence>, continuity: map<SourceId, CounterContinuity>,
    accepted: nat, fenced: nat, lastGapAt: TimePoint, hasGap: bool, resetCount: nat, wrapCount: nat)

  datatype PersistedStream = PersistedStream(source: SourceId, state: StreamState)

  datatype Totals = Totals(accepted: nat, fenced: nat, duplicates: nat, gaps: nat, resets: nat, wraps: nat)

  function Freeze(key: SlotKey, s: Slot): PersistedSlot {
    PersistedSlot(key, s.history, s.continuity, s.accepted, s.fenced, s.lastGapAt, s.hasGap, s.resetCount, s.wrapCount)
  }

  function Thaw(p: PersistedSlot): Slot {
    Slot(p.slot.key, p.history, p.continuity, p.accepted, p.fenced, p.lastGapAt, p.hasGap, p.resetCount, p.wrapCount)
  }

  function TotalsOf(st: StoreState): Totals {
    Totals(st.totalAccepted, st.totalFenced, st.duplicates, st.revisionGaps, st.counterResets, st.counterWraps)
  }

  // ---------------------------------------------------------------------------
  // Restoring one record, and a whole snapshot
  // ---------------------------------------------------------------------------

  predicate SlotRestorable(policy: Policy, st: StoreState, p: PersistedSlot) {
    && ValidId(p.slot.link)
    && |p.history| <= policy.limits.maxEvidencePerKey
    && |p.continuity| <= policy.limits.maxSources
    && !Full(policy, st.slots, p.slot)
  }

  function RestoreSlot(policy: Policy, st: StoreState, p: PersistedSlot): Option<StoreState> {
    if SlotRestorable(policy, st, p) then Some(st.(slots := st.slots[p.slot := Thaw(p)])) else Option.None
  }

  predicate StreamRestorable(policy: Policy, st: StoreState, p: PersistedStream) {
    && ValidId(p.source)
    && |p.state.retiredScopes| <= MAX_RETIRED_SCOPES
    && (|st.streams| < policy.limits.maxSources || p.source in st.streams)
  }

  function RestoreStream(policy: Policy, st: StoreState, p: PersistedStream): Option<StoreState> {
    if StreamRestorable(policy, st, p) then Some(st.(streams := st.streams[p.source := p.state])) else Option.None
  }

  function RestoreSlots(policy: Policy, st: StoreState, ps: seq<PersistedSlot>): Option<StoreState>
    decreases |ps|
  {
    if ps == [] then Some(st)
    else match RestoreSlot(policy, st, ps[0])
      case None => Option.None
      case Some(next) => RestoreSlots(policy, next, ps[1..])
  }

  function RestoreStreams(policy: Policy, st: StoreState, ps: seq<PersistedStream>): Option<StoreState>
    decreases |ps|
  {
    if ps == [] then Some(st)
    else match RestoreStream(policy, st, ps[0])
      case None => Option.None
      case Some(next) => RestoreStreams(policy, next, ps[1..])
  }

  function WithTotals(st: StoreState, t: Totals): StoreState {
    st.(totalAccepted := t.accepted, totalFenced := t.fenced, duplicates := t.duplicates,
        revisionGaps := t.gaps, counterResets := t.resets, counterWraps := t.wraps)
  }

  /** Slots, then streams, then totals, into a fresh store; the first failure refuses everything. */
  function RestoreAll(policy: Policy, slots: seq<PersistedSlot>, streams: seq<PersistedStream>, totals: Totals): Option<StoreState> {
    match RestoreSlots(policy, EMPTY_STORE, slots)
    case None => Option.None
    case Some(st) =>
      match RestoreStreams(policy, st, streams)
      case None => Option.None
      case Some(full) => Some(WithTotals(full, totals))
  }

  // ---------------------------------------------------------------------------
  // Listings of a map
  // ---------------------------------------------------------------------------

  /** Each slot of the map is listed exactly once, in any order. */
  ghost predicate ListsSlots(ps: seq<PersistedSlot>, slots: map<SlotKey, Slot>) {
    && (forall i, j | 0 <= i < j < |ps| :: ps[i].slot != ps[j].slot)
    && (forall i | 0 <= i < |ps| :: ps[i].slot in slots && ps[i] == Freeze(ps[i].slot, slots[ps[i].slot]))
    && (forall k | k in slots :: exists i :: 0 <= i < |ps| && ps[i].slot == k)
  }

  ghost predicate ListsStreams(ps: seq<PersistedStream>, streams: map<SourceId, StreamState>) {
    && (forall i, j | 0 <= i < j < |ps| :: ps[i].source != ps[j].source)
    && (forall i | 0 <= i < |ps| :: ps[i].source in streams && ps[i].state == streams[ps[i].source])
    && (forall s | s in streams :: exists i :: 0 <= i < |ps| && ps[i].source == s)
  }

  lemma {:induction false} SubmapNotLarger<K, V>(m: map<K, V>, whole: map<K, V>, k: K)
    requires m.Keys <= whole.Keys && k in whole && k !in m
    ensures |m| < |whole|
  {
    StrictSubset(m.Keys, whole.Keys);
    assert |m| == |m.Keys| && |whole| == |whole.Keys|;
  }

  lemma {:induction false} ContinuityBounded(slot: Slot, sources: set<SourceId>)
    requires slot.continuity.Keys <= sources
    ensures |slot.continuity| <= |sources|
  {
    assert |slot.continuity| == |slot.continuity.Keys|;
    assert sources == slot.continuity.Keys + (sources - slot.continuity.Keys);
  }

  /** Restoring a listing of a sound slot map yields the map. */
  lemma {:induction false} SlotsRebuilt(policy: Policy, st: StoreState, ps: seq<PersistedSlot>, slots: map<SlotKey, Slot>, sources: set<SourceId>)
    requires SlotsInv(policy, slots, sources) && |sources| <= policy.limits.maxSources
    requires forall i, j | 0 <= i < j < |ps| :: ps[i].slot != ps[j].slot
    requires forall i | 0 <= i < |ps| :: ps[i].slot in slots && ps[i] == Freeze(ps[i].slot, slots[ps[i].slot])
    requires forall k | k in st.slots :: k in slots && st.slots[k] == slots[k]
    ensures
      var r := RestoreSlots(policy, st, ps);
      && r.Some? && r.value == st.(slots := r.value.slots)
      && (forall k | k in r.value.slots :: k in slots && r.value.slots[k] == slots[k])
      && (forall k | k in st.slots :: k in r.value.slots)
      && (forall i | 0 <= i < |ps| :: ps[i].slot in r.value.slots)
    decreases |ps|
  {
    if ps != [] {
      var p := ps[0];
      assert SlotInv(policy, p.slot, slots[p.slot], sources);
      ContinuityBounded(slots[p.slot], sources);
      if p.slot !in st.slots {
        SubmapNotLarger(st.slots, slots, p.slot);
      }
      assert Thaw(p) == slots[p.slot];
      SlotsRebuilt(policy, RestoreSlot(policy, st, p).value, ps[1..], slots, sources);
    }
  }

  lemma {:induction false} StreamsRebuilt(policy: Policy, st: StoreState, ps: seq<PersistedStream>, streams: map<SourceId, StreamState>)
    requires StreamsInv(streams) && |streams| <= policy.limits.maxSources
    requires forall i, j | 0 <= i < j < |ps| :: ps[i].source != ps[j].source
    requires forall i | 0 <= i < |ps| :: ps[i].source in streams && ps[i].state == streams[ps[i].source]
    requires forall s | s in st.streams :: s in streams && st.streams[s] == streams[s]
    ensures
      var r := RestoreStreams(policy, st, ps);
      && r.Some? && r.value == st.(streams := r.value.streams)
      && (forall s | s in r.value.streams :: s in streams && r.value.streams[s] == streams[s])
      && (forall s | s in st.streams :: s in r.value.streams)
      && (forall i | 0 <= i < |ps| :: ps[i].source in r.value.streams)
    decreases |ps|
  {
    if ps != [] {
      var p := ps[0];
      assert StreamInv(p.source, streams[p.source]);
      if p.source !in st.streams {
        SubmapNotLarger(st.streams, streams, p.source);
      }
      StreamsRebuilt(policy, RestoreStream(policy, st, p).value, ps[1..], streams);
    }
  }

  lemma {:induction false} AllSlotsRebuilt(policy: Policy, slots: map<SlotKey, Slot>, ps: seq<PersistedSlot>, sources: set<SourceId>)
    requires SlotsInv(policy, slots, sources) && |sources| <= policy.limits.maxSources && ListsSlots(ps, slots)
    ensures RestoreSlots(policy, EMPTY_STORE, ps) == Some(EMPTY_STORE.(slots := slots))
  {
    SlotsRebuilt(policy, EMPTY_STORE, ps, slots, sources);
    assert RestoreSlots(policy, EMPTY_STORE, ps).value.slots == slots;
  }

  lemma {:induction false} AllStreamsRebuilt(policy: Policy, st: StoreState, streams: map<SourceId, StreamState>, ps: seq<PersistedStream>)
    requires StreamsInv(streams) && |streams| <= policy.limits.maxSources && ListsStreams(ps, streams) && st.streams == map[]
    ensures RestoreStreams(policy, st, ps) == Some(st.(streams := streams))
  {
    StreamsRebuilt(policy, st, ps, streams);
    assert RestoreStreams(policy, st, ps).value.streams == streams;
  }

  /** A sound store with at most max_sources sources survives persist and restore, but for session fence counts. */
  lemma {:induction false} RestoreRebuilds(policy: Policy, st: StoreState, slots: seq<PersistedSlot>, streams: seq<PersistedStream>)
    requires StoreInv(policy, st) && |st.streams| <= policy.limits.maxSources
    requires ListsSlots(slots, st.slots) && ListsStreams(streams, st.streams)
    ensures RestoreAll(policy, slots, streams, TotalsOf(st)) == Some(st.(fenceCounts := map[]))
  {
    assert |st.streams.Keys| == |st.streams|;
    AllSlotsRebuilt(policy, st.slots, slots, st.streams.Keys);
    AllStreamsRebuilt(policy, EMPTY_STORE.(slots := st.slots), st.streams, streams);
  }

  // ---------------------------------------------------------------------------
  // Behaviour after the restart
  // ---------------------------------------------------------------------------

  /** Equal but for the per-reason fence counts, which are session statistics. */
  ghost predicate Twins(a: StoreState, b: StoreState) {
    a == b.(fenceCounts := a.fenceCounts)
  }

  lemma {:induction false} TwinsSettleAlike(policy: Policy, x: StoreState, y: StoreState, o: Observation, source: SourceRecord, now: TimePoint, a: Admission)
    requires Twins(x, y)
    ensures SettledEffect(policy, x, o, source, now, a) == SettledEffect(policy, y, o, source, now, a)
    ensures SettledOutcome(policy, x, o, source.authority, a) == SettledOutcome(policy, y, o, source.authority, a)
  {
    assert SlotOf(x, SlotKeyOf(o)) == SlotOf(y, SlotKeyOf(o));
  }

  lemma {:induction false} TwinsInstallAlike(x: StoreState, y: StoreState, source: SourceId, key: SlotKey, e: Effect)
    requires Twins(x, y)
    ensures Twins(Install(x, source, key, e), Install(y, source, key, e))
  {
  }

  lemma {:induction false} TwinsAnswerAlike(policy: Policy, x: StoreState, y: StoreState, c: Call)
    requires Twins(x, y)
    ensures Answer(policy, x, c) == Answer(policy, y, c) && Twins(Apply(policy, x, c), Apply(policy, y, c))
  {
    ApplyIsInstall(policy, x, c);
    ApplyIsInstall(policy, y, c);
    if EntryFence(policy, c.observation, c.context) == FenceReason.None {
      TwinsSettleAlike(policy, x, y, c.observation, c.context.source.value, c.now, Admit(StreamOf(x, c.Source()), c.observation));
      assert StreamOf(x, c.Source()) == StreamOf(y, c.Source());
    }
    TwinsInstallAlike(x, y, c.Source(), c.Key(), EffectOf(policy, x, c));
  }

  lemma {:induction false} TwinsStayTwins(policy: Policy, a: StoreState, b: StoreState, calls: seq<Call>)
    requires Twins(a, b)
    ensures Twins(Run(policy, a, calls), Run(policy, b, calls))
  {
    if calls != [] {
      var n := |calls| - 1;
      TwinsStayTwins(policy, a, b, calls[..n]);
      TwinsAnswerAlike(policy, Run(policy, a, calls[..n]), Run(policy, b, calls[..n]), calls[n]);
    }
  }

  lemma {:induction false} TwinsShowTheSame(policy: Policy, a: StoreState, b: StoreState, key: SlotKey, ctx: EvaluationContext)
    requires Twins(a, b)
    ensures ContendersOf(policy, a, key, ctx) == ContendersOf(policy, b, key, ctx)
  {
    if key in a.slots {
      var history := a.slots[key].history;
      var es := FirstFew(NewestPerSource(history, |history|, {}), policy.limits.maxContendersPerKey);
      forall i | 0 <= i < |es| ensures Evaluate(policy, a, key, ctx, es[i]) == Evaluate(policy, b, key, ctx, es[i]) {
      }
      assert EvaluateAll(policy, a, key, ctx, es) == EvaluateAll(policy, b, key, ctx, es);
    }
  }

  /**
   Restart equivalence. For every store reached from empty with at most max_sources sources,
   restoring any listing of its slots and streams with its totals succeeds, and from then on every
   sequence of calls is answered alike on the original and on the restored store, and every query
   of contenders in between returns the same.
   */
  lemma {:induction false} RestartEquivalent(policy: Policy, calls: seq<Call>, slots: seq<PersistedSlot>, streams: seq<PersistedStream>,
                                             later: seq<Call>, next: Call, key: SlotKey, ctx: EvaluationContext)
    requires
      var st := Run(policy, EMPTY_STORE, calls);
      |st.streams| <= policy.limits.maxSources && ListsSlots(slots, st.slots) && ListsStreams(streams, st.streams)
    ensures
      var st := Run(policy, EMPTY_STORE, calls);
      var restored := RestoreAll(policy, slots, streams, TotalsOf(st));
      && restored.Some?
      && Twins(Run(policy, st, later), Run(policy, restored.value, later))
      && Answer(policy, Run(policy, st, later), next) == Answer(policy, Run(policy, restored.value, later), next)
      && ContendersOf(policy, Run(policy, st, later), key, ctx) == ContendersOf(policy, Run(policy, restored.value, later), key, ctx)
  {
    var st := Run(policy, EMPTY_STORE, calls);
    RunKeepsInv(policy, calls);
    RestoreRebuilds(policy, st, slots, streams);
    RestoredBehaves(policy, st, st.(fenceCounts := map[]), later, next, key, ctx);
  }

  lemma {:induction false} RestoredBehaves(policy: Policy, st: StoreState, restored: StoreState, later: seq<Call>, next: Call, key: SlotKey, ctx: EvaluationContext)
    requires Twins(st, restored)
    ensures
      var a, b := Run(policy, st, later), Run(policy, restored, later);
      && Twins(a, b) && Answer(policy, a, next) == Answer(policy, b, next)
      && ContendersOf(policy, a, key, ctx) == ContendersOf(policy, b, key, ctx)
  {
    TwinsStayTwins(policy, st, restored, later);
    TwinsAnswerAlike(policy, Run(policy, st, later), Run(policy, restored, later), next);
    TwinsShowTheSame(policy, Run(policy, st, later), Run(policy, restored, later), key, ctx);
  }
}
