/**
 The evidence store as an object whose `Accept` updates slots, streams and counters in place
 (src/store/evidence_store.cpp).
 */
module EvidenceStore {
  import opened Domain
  import opened CounterTracker
  import opened Retirement
  import opened StoreSpec
  import opened StoreQuery
  import opened StoreRestart

  class EvidenceStore {
    const policy: Policy
    var slots: map<SlotKey, Slot>
    var streams: map<SourceId, StreamState>
    var totalAccepted: nat
    var totalFenced: nat
    var duplicates: nat
    var revisionGaps: nat
    var counterResets: nat
    var counterWraps: nat
    var fenceCounts: map<FenceReason, nat>

    function State(): StoreState
      reads this
    {
      StoreState(slots, streams, totalAccepted, totalFenced, duplicates, revisionGaps,
                 counterResets, counterWraps, fenceCounts)
    }

    constructor (policy: Policy)
      ensures State() == EMPTY_STORE && this.policy == policy
    {
      this.policy := policy;
      slots, streams, fenceCounts := map[], map[], map[];
      totalAccepted, totalFenced, duplicates, revisionGaps, counterResets, counterWraps := 0, 0, 0, 0, 0, 0;
    }

    method CountFenceReason(reason: FenceReason)
      modifies this
      ensures State() == CountFence(old(State()), reason)
    {
      totalFenced := totalFenced + 1;
      fenceCounts := fenceCounts[reason := CountOf(fenceCounts, reason) + 1];
    }

    /** Adopts a new scope, retiring the one in force, or refuses a superseded one. */
    static method NextScope(before: StreamState, scope: SequenceScope) returns (a: Admission)
      ensures a == EnterScope(before, scope)
    {
      var stream := before;
      if !stream.hasScope {
        stream := stream.(hasScope := true, scope := scope, scopeChanges := stream.scopeChanges + 1);
        return Admission(stream, FenceReason.None, false, false, true);
      } else if stream.scope != scope {
        var behind := StreamFence(stream, scope);
        if behind != FenceReason.None {
          return Admission(stream.(fenced := stream.fenced + 1), behind, false, false, false);
        }
        var retired := Trim(stream.retiredScopes + [stream.scope], MAX_RETIRED_SCOPES);
        stream := stream.(retiredScopes := retired, scope := scope, hasSequence := false, gapOpen := false,
                          scopeChanges := stream.scopeChanges + 1);
        return Admission(stream, FenceReason.None, false, false, true);
      }
      return Admission(stream, FenceReason.None, false, false, false);
    }

    /** Scope and revision fences on the source's stream, and the gap and duplicate counts. */
    method AdmitToStream(o: Observation) returns (a: Admission)
      modifies this
      ensures a == Admit(StreamOf(old(State()), o.provenance.source), o)
      ensures State() == WithAdmission(old(State()), o.provenance.source, a)
    {
      var id := o.provenance.source;
      a := NextScope(StreamOf(State(), id), ScopeOf(o.provenance));
      if a.fence == FenceReason.None {
        a := CheckRevision(a, o);
      }
      streams := streams[id := a.stream];
      if a.duplicate {
        duplicates := duplicates + 1;
      }
      if a.gap {
        revisionGaps := revisionGaps + 1;
      }
    }

    /** Appends the evidence to its slot and folds a counter reading into the continuity index. */
    method Record(o: Observation, source: SourceRecord, now: TimePoint, gapEpoch: nat, gap: bool)
      returns (seen: Option<ContinuityOutcome>)
      modifies this
      ensures slots == old(slots)[SlotKeyOf(o) :=
                RecordIn(policy, SlotOf(old(State()), SlotKeyOf(o)), o, source, now, gapEpoch, gap)]
      ensures seen == if CarriesCounter(o)
                      then Some(CounterOutcome(SlotOf(old(State()), SlotKeyOf(o)), o, gapEpoch)) else Option.None
      ensures counterResets == old(counterResets) + (if seen.Some? && seen.value.discontinuity == Reset then 1 else 0)
      ensures counterWraps == old(counterWraps) + (if seen.Some? && seen.value.discontinuity == Wrap then 1 else 0)
      ensures unchanged(`streams, `totalAccepted, `totalFenced, `duplicates, `revisionGaps, `fenceCounts)
    {
      var key, id := SlotKeyOf(o), o.provenance.source;
      var slot := SlotOf(State(), key);
      seen := Option.None;
      if CarriesCounter(o) {
        var (continuity, what) := Observe(ContinuityOf(slot, id), SampleOf(o, gapEpoch));
        seen := Some(what);
        slot := slot.(continuity := slot.continuity[id := continuity]);
        if what.discontinuity == Reset {
          slot := slot.(resetCount := slot.resetCount + 1, lastGapAt := now, hasGap := true);
          counterResets := counterResets + 1;
        } else if what.discontinuity == Wrap {
          slot := slot.(wrapCount := slot.wrapCount + 1);
          counterWraps := counterWraps + 1;
        }
        if what.sequenceGap {
          slot := slot.(lastGapAt := now, hasGap := true);
        }
      }
      if gap {
        slot := slot.(lastGapAt := now, hasGap := true);
      }
      var history := Trim(slot.history + [EvidenceOf(o, source, now)], policy.limits.maxEvidencePerKey);
      slot := slot.(history := history, accepted := slot.accepted + 1);
      slots := slots[key := slot];
    }

    /** Applies every fence in order, then records the observation as evidence. */
    method Accept(o: Observation, ctx: AcceptContext, now: TimePoint) returns (outcome: AcceptOutcome)
      modifies this
      ensures State() == StoreSpec.Accept(policy, old(State()), o, ctx, now)
      ensures outcome == StoreSpec.OutcomeOf(policy, old(State()), o, ctx)
    {
      var entry := EntryFence(policy, o, ctx);
      if entry != FenceReason.None {
        CountFenceReason(entry);
        return BLANK_OUTCOME.(fence := entry);
      }
      var a := AdmitToStream(o);
      outcome := SettleAdmission(o, ctx.source.value, now, a, old(State()));
    }

    /** The part of `accept` after the stream has been updated. */
    method SettleAdmission(o: Observation, source: SourceRecord, now: TimePoint, a: Admission, ghost before: StoreState)
      returns (outcome: AcceptOutcome)
      requires State() == WithAdmission(before, o.provenance.source, a)
      modifies this
      ensures State() == StoreSpec.Settle(policy, before, o, source, now, a)
      ensures outcome == SettledOutcome(policy, before, o, source.authority, a)
    {
      outcome := BLANK_OUTCOME.(duplicate := a.duplicate, revisionGap := a.gap, scopeChanged := a.scopeChanged);
      var reason := a.fence;
      if reason == FenceReason.None {
        reason := CheckSlot(o, source.authority);
      }
      if reason == AuthorityDowngrade {
        streams := streams[o.provenance.source := a.stream.(fenced := a.stream.fenced + 1)];
      }
      if reason != FenceReason.None {
        CountFenceReason(reason);
        return outcome.(fence := reason);
      }
      outcome := Commit(o, source, now, a, outcome, before);
    }

    /** Fences that look at the slot: a higher authority already spoke, or the store is full. */
    method CheckSlot(o: Observation, authority: SourceAuthority) returns (reason: FenceReason)
      ensures reason == LateFence(policy, slots, o, authority)
    {
      var key := SlotKeyOf(o);
      if key in slots {
        var outranked := NewestOutranks(slots[key].history, o, authority);
        if outranked {
          return AuthorityDowngrade;
        }
      }
      if |slots| >= policy.limits.maxLinks * MAX_KEYS_PER_LINK && key !in slots {
        return StoreFull;
      }
      return FenceReason.None;
    }

    /** Records an admitted observation and advances its stream. */
    method Commit(o: Observation, source: SourceRecord, now: TimePoint, a: Admission, admitted: AcceptOutcome,
                  ghost before: StoreState)
      returns (outcome: AcceptOutcome)
      requires State() == WithAdmission(before, o.provenance.source, a)
      modifies this
      ensures State() == Recorded(policy, before, o, source, now, a)
      ensures
        outcome == if CarriesCounter(o) then
          var seen := CounterOutcome(SlotOf(before, SlotKeyOf(o)), o, a.stream.gapCount);
          admitted.(accepted := true, discontinuity := seen.discontinuity, deltaValid := seen.deltaValid,
                    delta := seen.delta, counterWidth := o.payload.counter.width)
        else admitted.(accepted := true)
    {
      assert SlotOf(State(), SlotKeyOf(o)) == SlotOf(before, SlotKeyOf(o));
      var seen := Record(o, source, now, a.stream.gapCount, a.gap);
      outcome := admitted.(accepted := true);
      if seen.Some? {
        outcome := outcome.(discontinuity := seen.value.discontinuity, deltaValid := seen.value.deltaValid,
                            delta := seen.value.delta, counterWidth := o.payload.counter.width);
      }
      totalAccepted := totalAccepted + 1;
      streams := streams[o.provenance.source :=
        a.stream.(hasSequence := true, lastSequence := o.provenance.sequence,
                  lastObservation := o.id, accepted := a.stream.accepted + 1)];
    }

    /** Scans the history newest first for the first evidence of the same generation. */
    method NewestOutranks(history: seq<Evidence>, o: Observation, authority: SourceAuthority) returns (r: bool)
      ensures r == Outranked(history, o, authority)
    {
      var n := |history|;
      assert history[..n] == history;
      while n > 0
        invariant 0 <= n <= |history|
        invariant Outranked(history, o, authority) == Outranked(history[..n], o, authority)
      {
        var e := history[n - 1];
        assert history[..n][..n - 1] == history[..n - 1];
        if e.observation.provenance.generation == o.provenance.generation {
          return e.authority.Rank() > authority.Rank() && e.observation.observedAt >= o.observedAt;
        }
        n := n - 1;
      }
      return false;
    }

    /** Walks the history newest first and keeps the first evidence of each source, up to the bound. */
    static method ListNewest(history: seq<Evidence>, bound: nat) returns (listed: seq<Evidence>)
      ensures listed == FirstFew(NewestPerSource(history, |history|, {}), bound)
    {
      listed := [];
      var seen: set<SourceId> := {};
      var n := |history|;
      while n > 0
        invariant 0 <= n <= |history|
        invariant NewestPerSource(history, |history|, {}) == listed + NewestPerSource(history, n, seen)
        invariant |listed| == 0 || |listed| < bound
      {
        var e := history[n - 1];
        n := n - 1;
        if SourceOf(e) in seen {
          continue;
        }
        seen := seen + {SourceOf(e)};
        ghost var rest := NewestPerSource(history, n, seen);
        assert listed + ([e] + rest) == (listed + [e]) + rest;
        listed := listed + [e];
        if |listed| >= bound {
          FirstFewStops(listed, rest, bound);
          return;
        }
      }
    }

    /** Evidence held for one slot, newest first and one per source, evaluated against the context. */
    method Contenders(key: SlotKey, ctx: EvaluationContext) returns (out: seq<EvaluatedEvidence>)
      ensures out == ContendersOf(policy, State(), key, ctx)
    {
      out := [];
      if key !in slots {
        return;
      }
      var listed := ListNewest(slots[key].history, policy.limits.maxContendersPerKey);
      var i := 0;
      while i < |listed|
        invariant 0 <= i <= |listed| && out == EvaluateAll(policy, State(), key, ctx, listed[..i])
      {
        EvaluateAppend(policy, State(), key, ctx, listed[..i], listed[i]);
        assert listed[..i + 1] == listed[..i] + [listed[i]];
        out := out + [Evaluate(policy, State(), key, ctx, listed[i])];
        i := i + 1;
      }
      assert listed[..i] == listed;
    }

    /** Every slot, once, in its serialisable form. */
    method PersistedSlots() returns (out: seq<PersistedSlot>)
      ensures ListsSlots(out, slots)
    {
      out := [];
      var rest := slots.Keys;
      while rest != {}
        invariant rest <= slots.Keys
        invariant forall i, j | 0 <= i < j < |out| :: out[i].slot != out[j].slot
        invariant forall i | 0 <= i < |out| :: out[i].slot in slots && out[i].slot !in rest && out[i] == Freeze(out[i].slot, slots[out[i].slot])
        invariant forall k | k in slots && k !in rest :: exists i :: 0 <= i < |out| && out[i].slot == k
        decreases rest
      {
        var k :| k in rest;
        ghost var before := out;
        out := out + [Freeze(k, slots[k])];
        rest := rest - {k};
        assert out[|out| - 1].slot == k;
        assert forall i | 0 <= i < |before| :: out[i] == before[i];
      }
    }

    method PersistedStreams() returns (out: seq<PersistedStream>)
      ensures ListsStreams(out, streams)
    {
      out := [];
      var rest := streams.Keys;
      while rest != {}
        invariant rest <= streams.Keys
        invariant forall i, j | 0 <= i < j < |out| :: out[i].source != out[j].source
        invariant forall i | 0 <= i < |out| :: out[i].source in streams && out[i].source !in rest && out[i].state == streams[out[i].source]
        invariant forall s | s in streams && s !in rest :: exists i :: 0 <= i < |out| && out[i].source == s
        decreases rest
      {
        var s :| s in rest;
        ghost var before := out;
        out := out + [PersistedStream(s, streams[s])];
        rest := rest - {s};
        assert out[|out| - 1].source == s;
        assert forall i | 0 <= i < |before| :: out[i] == before[i];
      }
    }

    /** Restores one persisted slot, or refuses it and leaves the store alone. */
    method Restore(p: PersistedSlot) returns (ok: bool)
      modifies this
      ensures ok == RestoreSlot(policy, old(State()), p).Some?
      ensures State() == if ok then RestoreSlot(policy, old(State()), p).value else old(State())
    {
      if !ValidId(p.slot.link) || |p.history| > policy.limits.maxEvidencePerKey || |p.continuity| > policy.limits.maxSources {
        return false;
      }
      if |slots| >= policy.limits.maxLinks * MAX_KEYS_PER_LINK && p.slot !in slots {
        return false;
      }
      slots := slots[p.slot := Thaw(p)];
      return true;
    }

    method RestoreStreamRecord(p: PersistedStream) returns (ok: bool)
      modifies this
      ensures ok == RestoreStream(policy, old(State()), p).Some?
      ensures State() == if ok then RestoreStream(policy, old(State()), p).value else old(State())
    {
      if !ValidId(p.source) || |p.state.retiredScopes| > MAX_RETIRED_SCOPES {
        return false;
      }
      if |streams| >= policy.limits.maxSources && p.source !in streams {
        return false;
      }
      streams := streams[p.source := p.state];
      return true;
    }

    /** Restores a whole snapshot into a fresh store; on success the state is the restored one. */
    method RestoreSnapshot(slotRecords: seq<PersistedSlot>, streamRecords: seq<PersistedStream>, totals: Totals) returns (ok: bool)
      requires State() == EMPTY_STORE
      modifies this
      ensures ok == RestoreAll(policy, slotRecords, streamRecords, totals).Some?
      ensures ok ==> State() == RestoreAll(policy, slotRecords, streamRecords, totals).value
    {
      var i := 0;
      assert slotRecords[0..] == slotRecords;
      while i < |slotRecords|
        invariant 0 <= i <= |slotRecords|
        invariant RestoreSlots(policy, EMPTY_STORE, slotRecords) == RestoreSlots(policy, State(), slotRecords[i..])
      {
        assert slotRecords[i..][1..] == slotRecords[i + 1..];
        ok := Restore(slotRecords[i]);
        if !ok {
          return;
        }
        i := i + 1;
      }
      ghost var withSlots := State();
      i := 0;
      assert streamRecords[0..] == streamRecords;
      while i < |streamRecords|
        invariant 0 <= i <= |streamRecords|
        invariant RestoreStreams(policy, withSlots, streamRecords) == RestoreStreams(policy, State(), streamRecords[i..])
      {
        assert streamRecords[i..][1..] == streamRecords[i + 1..];
        ok := RestoreStreamRecord(streamRecords[i]);
        if !ok {
          return;
        }
        i := i + 1;
      }
      totalAccepted, totalFenced, duplicates := totals.accepted, totals.fenced, totals.duplicates;
      revisionGaps, counterResets, counterWraps := totals.gaps, totals.resets, totals.wraps;
      return true;
    }
  }
}
