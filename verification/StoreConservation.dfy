/**
 Conservation: every total the store reports is the sum of its parts, after any run of calls.
 */
module StoreConservation {
  import opened Domain
  import opened CounterTracker
  import opened StoreSpec
  import opened Sums

  function SlotAccepted(s: Slot): nat { s.accepted }
  function SlotResets(s: Slot): nat { s.resetCount }
  function SlotWraps(s: Slot): nat { s.wrapCount }
  function StreamAccepted(s: StreamState): nat { s.accepted }
  function StreamGaps(s: StreamState): nat { s.gapCount }
  function StreamFenced(s: StreamState): nat { s.fenced }
  function ContinuityResets(c: CounterContinuity): nat { c.resetCount }
  function ContinuityWraps(c: CounterContinuity): nat { c.wrapCount }

  /** Fences that are also counted on the stream they hit. */
  function StreamFenceTotal(counts: map<FenceReason, nat>): nat {
    CountOf(counts, DuplicateObservation) + CountOf(counts, RevisionReplay) + CountOf(counts, EpochBehind)
    + CountOf(counts, IncarnationBehind) + CountOf(counts, AuthorityDowngrade)
  }

  /** A slot's reset and wrap counts are those of its per-source continuity records. */
  ghost predicate SlotBalanced(s: Slot) {
    && s.resetCount == SumOver(s.continuity, ContinuityResets)
    && s.wrapCount == SumOver(s.continuity, ContinuityWraps)
  }

  ghost predicate StreamBooks(st: StoreState) {
    && st.totalAccepted == SumOver(st.streams, StreamAccepted)
    && st.revisionGaps == SumOver(st.streams, StreamGaps)
    && SumOver(st.streams, StreamFenced) == StreamFenceTotal(st.fenceCounts)
  }

  ghost predicate SlotBooks(st: StoreState) {
    && st.totalAccepted == SumOver(st.slots, SlotAccepted)
    && st.counterResets == SumOver(st.slots, SlotResets)
    && st.counterWraps == SumOver(st.slots, SlotWraps)
    && forall k | k in st.slots :: SlotBalanced(st.slots[k])
  }

  ghost predicate FenceBooks(st: StoreState) {
    && st.totalFenced == SumOver(st.fenceCounts, Itself)
    && st.duplicates == CountOf(st.fenceCounts, DuplicateObservation)
  }

  ghost predicate Balanced(st: StoreState) {
    StreamBooks(st) && SlotBooks(st) && FenceBooks(st)
  }

  /** What a stream contributes to the totals, whether or not it exists yet. */
  lemma {:induction false} StreamPut(st: StoreState, source: SourceId, stream: StreamState)
    ensures
      var m, was := st.streams[source := stream], StreamOf(st, source);
      && SumOver(m, StreamAccepted) == SumOver(st.streams, StreamAccepted) - was.accepted + stream.accepted
      && SumOver(m, StreamGaps) == SumOver(st.streams, StreamGaps) - was.gapCount + stream.gapCount
      && SumOver(m, StreamFenced) == SumOver(st.streams, StreamFenced) - was.fenced + stream.fenced
  {
    SumPut(st.streams, source, stream, StreamAccepted);
    SumPut(st.streams, source, stream, StreamGaps);
    SumPut(st.streams, source, stream, StreamFenced);
  }

  lemma {:induction false} SlotPut(st: StoreState, key: SlotKey, slot: Slot)
    ensures
      var m, was := st.slots[key := slot], SlotOf(st, key);
      && SumOver(m, SlotAccepted) == SumOver(st.slots, SlotAccepted) - was.accepted + slot.accepted
      && SumOver(m, SlotResets) == SumOver(st.slots, SlotResets) - was.resetCount + slot.resetCount
      && SumOver(m, SlotWraps) == SumOver(st.slots, SlotWraps) - was.wrapCount + slot.wrapCount
  {
    SumPut(st.slots, key, slot, SlotAccepted);
    SumPut(st.slots, key, slot, SlotResets);
    SumPut(st.slots, key, slot, SlotWraps);
  }

  lemma {:induction false} TrackBalanced(slot: Slot, o: Observation, gapEpoch: nat, now: TimePoint)
    requires SlotBalanced(slot) && o.payload.Counter?
    ensures SlotBalanced(TrackCounter(slot, o, gapEpoch, now))
  {
    var source := o.provenance.source;
    var continuity := Observe(ContinuityOf(slot, source), SampleOf(o, gapEpoch)).0;
    SumPut(slot.continuity, source, continuity, ContinuityResets);
    SumPut(slot.continuity, source, continuity, ContinuityWraps);
  }

  lemma {:induction false} RecordBalanced(policy: Policy, slot: Slot, o: Observation, source: SourceRecord, now: TimePoint, gapEpoch: nat, gap: bool)
    requires SlotBalanced(slot)
    ensures SlotBalanced(RecordIn(policy, slot, o, source, now, gapEpoch, gap))
  {
    if CarriesCounter(o) {
      TrackBalanced(slot, o, gapEpoch, now);
    }
  }

  /** Counting a fence raises the fence total and that reason's count by one. */
  lemma {:induction false} FenceBalanced(st: StoreState, reason: FenceReason)
    ensures
      var counts := CountFence(st, reason).fenceCounts;
      && SumOver(counts, Itself) == SumOver(st.fenceCounts, Itself) + 1
      && (forall r :: CountOf(counts, r) == CountOf(st.fenceCounts, r) + (if r == reason then 1 else 0))
  {
    SumPut<FenceReason, nat>(st.fenceCounts, reason, CountOf(st.fenceCounts, reason) + 1, Itself);
  }

  /** How an admission moves the stream's own counters. */
  predicate AdmissionCounts(was: StreamState, a: Admission) {
    && a.stream.accepted == was.accepted
    && a.stream.gapCount == was.gapCount + (if a.gap then 1 else 0)
    && a.stream.fenced == was.fenced + (if a.fence == FenceReason.None then 0 else 1)
    && a.duplicate == (a.fence == DuplicateObservation)
    && a.fence in {FenceReason.None, DuplicateObservation, RevisionReplay, EpochBehind, IncarnationBehind}
  }

  lemma {:induction false} AdmitCounts(was: StreamState, o: Observation)
    ensures AdmissionCounts(was, Admit(was, o))
  {
  }

  lemma {:induction false} RecordedStreams(policy: Policy, st: StoreState, o: Observation, source: SourceRecord, now: TimePoint, a: Admission)
    requires StreamBooks(st) && AdmissionCounts(StreamOf(st, o.provenance.source), a) && a.fence == FenceReason.None
    ensures StreamBooks(Recorded(policy, st, o, source, now, a))
  {
    var id, after := o.provenance.source, Recorded(policy, st, o, source, now, a);
    assert after.streams == st.streams[id := after.streams[id]];
    StreamPut(st, id, after.streams[id]);
  }

  lemma {:induction false} RecordedSlots(policy: Policy, st: StoreState, o: Observation, source: SourceRecord, now: TimePoint, a: Admission)
    requires SlotBooks(st)
    ensures SlotBooks(Recorded(policy, st, o, source, now, a))
  {
    var key := SlotKeyOf(o);
    var slot := RecordIn(policy, SlotOf(st, key), o, source, now, a.stream.gapCount, a.gap);
    SlotPut(st, key, slot);
    assert SlotBalanced(NewSlot(key.key));
    RecordBalanced(policy, SlotOf(st, key), o, source, now, a.stream.gapCount, a.gap);
  }

  lemma {:induction false} RefusedStreams(st: StoreState, id: SourceId, stream: StreamState, gap: bool, reason: FenceReason)
    requires StreamBooks(st) && stream.accepted == StreamOf(st, id).accepted
    requires stream.gapCount == StreamOf(st, id).gapCount + (if gap then 1 else 0)
    requires stream.fenced == StreamOf(st, id).fenced
               + (if reason in {DuplicateObservation, RevisionReplay, EpochBehind, IncarnationBehind, AuthorityDowngrade} then 1 else 0)
    ensures
      SumOver(st.streams[id := stream], StreamFenced) == StreamFenceTotal(CountFence(st, reason).fenceCounts)
      && SumOver(st.streams[id := stream], StreamAccepted) == st.totalAccepted
      && SumOver(st.streams[id := stream], StreamGaps) == st.revisionGaps + (if gap then 1 else 0)
  {
    StreamPut(st, id, stream);
    FenceBalanced(st, reason);
  }

  /** A refusal after admission, as one update of the state. */
  function RefusedState(st: StoreState, id: SourceId, stream: StreamState, gap: bool, reason: FenceReason): StoreState {
    CountFence(
      st.(streams := st.streams[id := stream],
          duplicates := st.duplicates + (if reason == DuplicateObservation then 1 else 0),
          revisionGaps := st.revisionGaps + (if gap then 1 else 0)),
      reason)
  }

  lemma {:induction false} RefusedStateBalanced(st: StoreState, id: SourceId, stream: StreamState, gap: bool, reason: FenceReason)
    requires Balanced(st) && stream.accepted == StreamOf(st, id).accepted
    requires stream.gapCount == StreamOf(st, id).gapCount + (if gap then 1 else 0)
    requires stream.fenced == StreamOf(st, id).fenced
               + (if reason in {DuplicateObservation, RevisionReplay, EpochBehind, IncarnationBehind, AuthorityDowngrade} then 1 else 0)
    ensures Balanced(RefusedState(st, id, stream, gap, reason))
  {
    RefusedStreams(st, id, stream, gap, reason);
    FenceBalanced(st, reason);
  }

  /** The stream a refused call leaves behind. */
  function RefusedStream(a: Admission, reason: FenceReason): StreamState {
    if reason == AuthorityDowngrade then a.stream.(fenced := a.stream.fenced + 1) else a.stream
  }

  lemma {:induction false} RefusedShape(policy: Policy, st: StoreState, o: Observation, source: SourceRecord, now: TimePoint, a: Admission)
    requires a.duplicate == (a.fence == DuplicateObservation)
    requires SettledFence(policy, st, o, source.authority, a) != FenceReason.None
    ensures
      var reason := SettledFence(policy, st, o, source.authority, a);
      Settle(policy, st, o, source, now, a) == RefusedState(st, o.provenance.source, RefusedStream(a, reason), a.gap, reason)
  {
    var id, reason := o.provenance.source, SettledFence(policy, st, o, source.authority, a);
    assert st.streams[id := a.stream][id := RefusedStream(a, reason)] == st.streams[id := RefusedStream(a, reason)];
  }

  lemma {:induction false} RefusedBalanced(policy: Policy, st: StoreState, o: Observation, source: SourceRecord, now: TimePoint, a: Admission)
    requires Balanced(st) && AdmissionCounts(StreamOf(st, o.provenance.source), a)
    requires SettledFence(policy, st, o, source.authority, a) != FenceReason.None
    ensures Balanced(Settle(policy, st, o, source, now, a))
  {
    var reason := SettledFence(policy, st, o, source.authority, a);
    RefusedShape(policy, st, o, source, now, a);
    RefusedStateBalanced(st, o.provenance.source, RefusedStream(a, reason), a.gap, reason);
  }

  /** One call keeps the books balanced. */
  lemma {:induction false} ApplyBalanced(policy: Policy, st: StoreState, c: Call)
    requires Balanced(st)
    ensures Balanced(Apply(policy, st, c))
  {
    var o, entry := c.observation, EntryFence(policy, c.observation, c.context);
    if entry != FenceReason.None {
      FenceBalanced(st, entry);
    } else {
      var source, a := c.context.source.value, Admit(StreamOf(st, o.provenance.source), o);
      AdmitCounts(StreamOf(st, o.provenance.source), o);
      if SettledFence(policy, st, o, source.authority, a) == FenceReason.None {
        RecordedStreams(policy, st, o, source, c.now, a);
        RecordedSlots(policy, st, o, source, c.now, a);
      } else {
        RefusedBalanced(policy, st, o, source, c.now, a);
      }
    }
  }

  lemma {:induction false} SettleCounts(policy: Policy, st: StoreState, o: Observation, source: SourceRecord, now: TimePoint, a: Admission, r: FenceReason)
    ensures
      var after, fence := Settle(policy, st, o, source, now, a), SettledFence(policy, st, o, source.authority, a);
      && SettledOutcome(policy, st, o, source.authority, a).fence == fence
      && SettledOutcome(policy, st, o, source.authority, a).accepted == (fence == FenceReason.None)
      && after.totalAccepted == st.totalAccepted + (if fence == FenceReason.None then 1 else 0)
      && after.totalFenced == st.totalFenced + (if fence == FenceReason.None then 0 else 1)
      && (r != FenceReason.None ==>
            CountOf(after.fenceCounts, r) == CountOf(st.fenceCounts, r) + (if fence == r then 1 else 0))
  {
  }

  /** One call moves exactly one of the two grand totals, and one reason's count if refused. */
  lemma {:induction false} ApplyCounts(policy: Policy, st: StoreState, c: Call, r: FenceReason)
    ensures
      var after, fence := Apply(policy, st, c), Answer(policy, st, c).fence;
      && Answer(policy, st, c).accepted == (fence == FenceReason.None)
      && after.totalAccepted == st.totalAccepted + (if fence == FenceReason.None then 1 else 0)
      && after.totalFenced == st.totalFenced + (if fence == FenceReason.None then 0 else 1)
      && (r != FenceReason.None ==>
            CountOf(after.fenceCounts, r) == CountOf(st.fenceCounts, r) + (if fence == r then 1 else 0))
  {
    var o := c.observation;
    if EntryFence(policy, o, c.context) == FenceReason.None {
      SettleCounts(policy, st, o, c.context.source.value, c.now, Admit(StreamOf(st, o.provenance.source), o), r);
    }
  }

  /** How many calls of a run were answered with this fence; None counts the accepted ones. */
  function AnswersWith(policy: Policy, calls: seq<Call>, reason: FenceReason): nat {
    if calls == [] then 0
    else
      var n := |calls| - 1;
      AnswersWith(policy, calls[..n], reason) + (if AnswerAt(policy, calls, n).fence == reason then 1 else 0)
  }

  lemma {:induction false} RunKeepsBooks(policy: Policy, calls: seq<Call>)
    ensures Balanced(Run(policy, EMPTY_STORE, calls))
  {
    if calls != [] {
      var n := |calls| - 1;
      RunKeepsBooks(policy, calls[..n]);
      ApplyBalanced(policy, Run(policy, EMPTY_STORE, calls[..n]), calls[n]);
    }
  }

  lemma {:induction false} RunCounts(policy: Policy, calls: seq<Call>, reason: FenceReason)
    ensures
      var st := Run(policy, EMPTY_STORE, calls);
      && st.totalAccepted + st.totalFenced == |calls|
      && st.totalAccepted == AnswersWith(policy, calls, FenceReason.None)
      && (reason != FenceReason.None ==> CountOf(st.fenceCounts, reason) == AnswersWith(policy, calls, reason))
  {
    if calls != [] {
      var n := |calls| - 1;
      RunCounts(policy, calls[..n], reason);
      ApplyCounts(policy, Run(policy, EMPTY_STORE, calls[..n]), calls[n], reason);
    }
  }

  /**
   Conservation over every run from the empty store: accepted plus fenced is the number of calls,
   each reason's count is the number of calls it refused, and every total is the sum of its parts.
   */
  lemma {:induction false} RunBalanced(policy: Policy, calls: seq<Call>)
    ensures
      var st := Run(policy, EMPTY_STORE, calls);
      && Balanced(st)
      && st.totalAccepted + st.totalFenced == |calls|
      && st.totalAccepted == AnswersWith(policy, calls, FenceReason.None)
      && forall r | r != FenceReason.None :: CountOf(st.fenceCounts, r) == AnswersWith(policy, calls, r)
  {
    RunKeepsBooks(policy, calls);
    forall r ensures r != FenceReason.None ==>
        CountOf(Run(policy, EMPTY_STORE, calls).fenceCounts, r) == AnswersWith(policy, calls, r)
    {
      RunCounts(policy, calls, r);
    }
    RunCounts(policy, calls, StoreFull);
  }
}
