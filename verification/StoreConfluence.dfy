/**
 Confluence: when sources write disjoint slots and the slot bound is not reached, every
 interleaving that keeps each source's own order leaves the same store. This is why the worker
 count does not change the evidence set (include/linkobs/runtime/worker.hpp:3-6).
 */
module StoreConfluence {
  import opened Domain
  import opened CounterTracker
  import opened StoreSpec
  import opened StoreInvariant

  // ---------------------------------------------------------------------------
  // A call's effect, separated from the state it is installed in
  // ---------------------------------------------------------------------------

  /** What a call writes: at most its own stream and its own slot, plus counter increments. */
  datatype Effect = Effect(
    stream: Option<StreamState>, slot: Option<Slot>, fence: FenceReason,
    duplicate: bool, gap: bool, reset: bool, wrap: bool)

  function SettledEffect(policy: Policy, st: StoreState, o: Observation, source: SourceRecord, now: TimePoint, a: Admission): Effect {
    var key := SlotKeyOf(o);
    var fence := SettledFence(policy, st, o, source.authority, a);
    var stream := Some(SettledStream(policy, st, o, source.authority, a));
    if fence != FenceReason.None then Effect(stream, Option.None, fence, a.duplicate, a.gap, false, false)
    else
      var seen := if CarriesCounter(o) then CounterOutcome(SlotOf(st, key), o, a.stream.gapCount).discontinuity else NoDiscontinuity;
      Effect(stream, Some(RecordIn(policy, SlotOf(st, key), o, source, now, a.stream.gapCount, a.gap)), fence,
             a.duplicate, a.gap, seen == Reset, seen == Wrap)
  }

  function EffectOf(policy: Policy, st: StoreState, c: Call): Effect {
    var entry := EntryFence(policy, c.observation, c.context);
    if entry != FenceReason.None then Effect(Option.None, Option.None, entry, false, false, false, false)
    else SettledEffect(policy, st, c.observation, c.context.source.value, c.now, Admit(StreamOf(st, c.Source()), c.observation))
  }

  function One(b: bool): nat { if b then 1 else 0 }

  function Install(st: StoreState, source: SourceId, key: SlotKey, e: Effect): StoreState {
    StoreState(
      if e.slot.Some? then st.slots[key := e.slot.value] else st.slots,
      if e.stream.Some? then st.streams[source := e.stream.value] else st.streams,
      st.totalAccepted + One(e.fence == FenceReason.None),
      st.totalFenced + One(e.fence != FenceReason.None),
      st.duplicates + One(e.duplicate),
      st.revisionGaps + One(e.gap),
      st.counterResets + One(e.reset),
      st.counterWraps + One(e.wrap),
      if e.fence == FenceReason.None then st.fenceCounts
      else st.fenceCounts[e.fence := CountOf(st.fenceCounts, e.fence) + 1])
  }

  lemma {:induction false} RecordedIsInstall(policy: Policy, st: StoreState, o: Observation, source: SourceRecord, now: TimePoint, a: Admission)
    requires SettledFence(policy, st, o, source.authority, a) == FenceReason.None
    ensures Recorded(policy, st, o, source, now, a)
         == Install(st, o.provenance.source, SlotKeyOf(o), SettledEffect(policy, st, o, source, now, a))
  {
    Overwrite(st.streams, o.provenance.source, a.stream, SettledStream(policy, st, o, source.authority, a));
  }

  lemma {:induction false} RefusalIsInstall(st: StoreState, id: SourceId, key: SlotKey, a: Admission, stream: StreamState, reason: FenceReason)
    requires reason != FenceReason.None
    ensures CountFence(WithAdmission(st, id, a).(streams := st.streams[id := stream]), reason)
         == Install(st, id, key, Effect(Some(stream), Option.None, reason, a.duplicate, a.gap, false, false))
  {
  }

  lemma {:induction false} SettleIsInstall(policy: Policy, st: StoreState, o: Observation, source: SourceRecord, now: TimePoint, a: Admission)
    ensures Settle(policy, st, o, source, now, a)
         == Install(st, o.provenance.source, SlotKeyOf(o), SettledEffect(policy, st, o, source, now, a))
  {
    var id, reason := o.provenance.source, SettledFence(policy, st, o, source.authority, a);
    if reason == FenceReason.None {
      RecordedIsInstall(policy, st, o, source, now, a);
    } else {
      var stream := SettledStream(policy, st, o, source.authority, a);
      Overwrite(st.streams, id, a.stream, stream);
      RefusalIsInstall(st, id, SlotKeyOf(o), a, stream, reason);
    }
  }

  lemma {:induction false} ApplyIsInstall(policy: Policy, st: StoreState, c: Call)
    ensures Apply(policy, st, c) == Install(st, c.Source(), c.Key(), EffectOf(policy, st, c))
  {
    var o := c.observation;
    if EntryFence(policy, o, c.context) == FenceReason.None {
      SettleIsInstall(policy, st, o, c.context.source.value, c.now, Admit(StreamOf(st, c.Source()), o));
    }
  }

  lemma {:induction false} SlotsCommute(st: StoreState, s: SourceId, k: SlotKey, e: Effect, s': SourceId, k': SlotKey, e': Effect)
    requires k != k'
    ensures Install(Install(st, s, k, e), s', k', e').slots == Install(Install(st, s', k', e'), s, k, e).slots
  {
    if e.slot.Some? && e'.slot.Some? {
      PutsCommute(st.slots, k, e.slot.value, k', e'.slot.value);
    }
  }

  lemma {:induction false} StreamsCommute(st: StoreState, s: SourceId, k: SlotKey, e: Effect, s': SourceId, k': SlotKey, e': Effect)
    requires s != s'
    ensures Install(Install(st, s, k, e), s', k', e').streams == Install(Install(st, s', k', e'), s, k, e).streams
  {
    if e.stream.Some? && e'.stream.Some? {
      PutsCommute(st.streams, s, e.stream.value, s', e'.stream.value);
    }
  }

  lemma {:induction false} CountsCommute(st: StoreState, s: SourceId, k: SlotKey, e: Effect, s': SourceId, k': SlotKey, e': Effect)
    ensures Install(Install(st, s, k, e), s', k', e').fenceCounts == Install(Install(st, s', k', e'), s, k, e).fenceCounts
  {
    FenceCountsCommute(st.fenceCounts, e.fence, e'.fence);
  }

  /** Effects on different streams and different slots commute, whatever they are. */
  lemma {:induction false} InstallsCommute(st: StoreState, s: SourceId, k: SlotKey, e: Effect, s': SourceId, k': SlotKey, e': Effect)
    requires s != s' && k != k'
    ensures Install(Install(st, s, k, e), s', k', e') == Install(Install(st, s', k', e'), s, k, e)
  {
    SlotsCommute(st, s, k, e, s', k', e');
    StreamsCommute(st, s, k, e, s', k', e');
    CountsCommute(st, s, k, e, s', k', e');
  }

  lemma PutsCommute<K, V>(m: map<K, V>, k: K, v: V, k': K, v': V)
    requires k != k'
    ensures m[k := v][k' := v'] == m[k' := v'][k := v]
  {
  }

  lemma FenceCountsCommute(counts: map<FenceReason, nat>, r: FenceReason, r': FenceReason)
    ensures
      var one, other := counts[r := CountOf(counts, r) + 1], counts[r' := CountOf(counts, r') + 1];
      one[r' := CountOf(one, r') + 1] == other[r := CountOf(other, r) + 1]
  {
  }

  // ---------------------------------------------------------------------------
  // Locality
  // ---------------------------------------------------------------------------

  /** Two stores that show a call the same stream and the same slot. */
  ghost predicate LooksTheSame(st: StoreState, st': StoreState, c: Call) {
    && StreamOf(st, c.Source()) == StreamOf(st', c.Source())
    && (c.Key() in st.slots <==> c.Key() in st'.slots)
    && SlotOf(st, c.Key()) == SlotOf(st', c.Key())
  }

  lemma {:induction false} SettledEffectIsLocal(policy: Policy, st: StoreState, st': StoreState, o: Observation, source: SourceRecord, now: TimePoint, a: Admission)
    requires (SlotKeyOf(o) in st.slots <==> SlotKeyOf(o) in st'.slots) && SlotOf(st, SlotKeyOf(o)) == SlotOf(st', SlotKeyOf(o))
    requires !Full(policy, st.slots, SlotKeyOf(o)) && !Full(policy, st'.slots, SlotKeyOf(o))
    ensures SettledEffect(policy, st, o, source, now, a) == SettledEffect(policy, st', o, source, now, a)
  {
    assert LateFence(policy, st.slots, o, source.authority) == LateFence(policy, st'.slots, o, source.authority);
  }

  /** With room in both stores, a call's effect depends only on its own stream and slot. */
  lemma {:induction false} EffectIsLocal(policy: Policy, st: StoreState, st': StoreState, c: Call)
    requires LooksTheSame(st, st', c)
    requires !Full(policy, st.slots, c.Key()) && !Full(policy, st'.slots, c.Key())
    ensures EffectOf(policy, st, c) == EffectOf(policy, st', c)
  {
    if EntryFence(policy, c.observation, c.context) == FenceReason.None {
      SettledEffectIsLocal(policy, st, st', c.observation, c.context.source.value, c.now, Admit(StreamOf(st, c.Source()), c.observation));
    }
  }

  lemma {:induction false} InstallIsInvisible(st: StoreState, s: SourceId, k: SlotKey, e: Effect, c: Call)
    requires s != c.Source() && k != c.Key()
    ensures LooksTheSame(Install(st, s, k, e), st, c)
  {
  }

  /** The store's slots stay within a key set that fits the slot bound. */
  ghost predicate Roomy(policy: Policy, st: StoreState, keys: set<SlotKey>) {
    st.slots.Keys <= keys && |keys| <= MaxSlots(policy)
  }

  lemma {:induction false} RoomyNotFull(policy: Policy, st: StoreState, keys: set<SlotKey>, key: SlotKey)
    requires Roomy(policy, st, keys) && key in keys
    ensures !Full(policy, st.slots, key)
  {
    if key !in st.slots {
      StrictSubset(st.slots.Keys, keys);
      assert |st.slots| == |st.slots.Keys|;
    }
  }

  lemma {:induction false} StrictSubset<T>(a: set<T>, b: set<T>)
    requires a < b
    ensures |a| < |b|
  {
    assert b == a + (b - a) && |b - a| > 0;
  }

  lemma {:induction false} RoomyStays(policy: Policy, st: StoreState, keys: set<SlotKey>, c: Call)
    requires Roomy(policy, st, keys) && c.Key() in keys
    ensures Roomy(policy, Apply(policy, st, c), keys)
  {
    ApplyIsInstall(policy, st, c);
  }

  /** Two calls of different sources on different slots commute. */
  lemma {:induction false} CallsCommute(policy: Policy, st: StoreState, keys: set<SlotKey>, c: Call, d: Call)
    requires c.Source() != d.Source() && c.Key() != d.Key()
    requires Roomy(policy, st, keys) && c.Key() in keys && d.Key() in keys
    ensures Apply(policy, Apply(policy, st, c), d) == Apply(policy, Apply(policy, st, d), c)
  {
    var e, f := EffectOf(policy, st, c), EffectOf(policy, st, d);
    var afterC, afterD := Apply(policy, st, c), Apply(policy, st, d);
    ApplyIsInstall(policy, st, c);
    ApplyIsInstall(policy, st, d);
    EffectUnmoved(policy, st, keys, c, d);
    EffectUnmoved(policy, st, keys, d, c);
    ApplyIsInstall(policy, afterC, d);
    ApplyIsInstall(policy, afterD, c);
    InstallsCommute(st, c.Source(), c.Key(), e, d.Source(), d.Key(), f);
  }

  /** Having applied c first does not change what d does. */
  lemma {:induction false} EffectUnmoved(policy: Policy, st: StoreState, keys: set<SlotKey>, c: Call, d: Call)
    requires c.Source() != d.Source() && c.Key() != d.Key()
    requires Roomy(policy, st, keys) && c.Key() in keys && d.Key() in keys
    ensures EffectOf(policy, Apply(policy, st, c), d) == EffectOf(policy, st, d)
  {
    ApplyIsInstall(policy, st, c);
    InstallIsInvisible(st, c.Source(), c.Key(), EffectOf(policy, st, c), d);
    RoomyStays(policy, st, keys, c);
    RoomyNotFull(policy, st, keys, d.Key());
    RoomyNotFull(policy, Apply(policy, st, c), keys, d.Key());
    EffectIsLocal(policy, Apply(policy, st, c), st, d);
  }

  // ---------------------------------------------------------------------------
  // Interleavings
  // ---------------------------------------------------------------------------

  /** The calls of one source, in order. */
  function OfSource(calls: seq<Call>, source: SourceId): seq<Call> {
    if calls == [] then []
    else
      var n := |calls| - 1;
      if calls[n].Source() == source then OfSource(calls[..n], source) + [calls[n]] else OfSource(calls[..n], source)
  }

  /** Both sequences hold the same calls of every source, in the same order. */
  ghost predicate SameOrders(xs: seq<Call>, ys: seq<Call>) {
    forall s: SourceId :: OfSource(xs, s) == OfSource(ys, s)
  }

  /** Different sources write different slots. */
  ghost predicate DisjointWriters(calls: seq<Call>) {
    forall c, d | c in calls && d in calls && c.Source() != d.Source() :: c.Key() != d.Key()
  }

  ghost predicate KeysWithin(calls: seq<Call>, keys: set<SlotKey>) {
    forall c | c in calls :: c.Key() in keys
  }

  lemma {:induction false} RunRoomy(policy: Policy, st: StoreState, calls: seq<Call>, keys: set<SlotKey>)
    requires Roomy(policy, st, keys) && KeysWithin(calls, keys)
    ensures Roomy(policy, Run(policy, st, calls), keys)
  {
    if calls != [] {
      var n := |calls| - 1;
      assert KeysWithin(calls[..n], keys);
      RunRoomy(policy, st, calls[..n], keys);
      RoomyStays(policy, Run(policy, st, calls[..n]), keys, calls[n]);
    }
  }

  lemma {:induction false} RunAppend(policy: Policy, st: StoreState, calls: seq<Call>, c: Call)
    ensures Run(policy, st, calls + [c]) == Apply(policy, Run(policy, st, calls), c)
  {
    assert (calls + [c])[..|calls|] == calls;
  }

  lemma {:induction false} RunConcat(policy: Policy, st: StoreState, a: seq<Call>, b: seq<Call>)
    ensures Run(policy, st, a + b) == Run(policy, Run(policy, st, a), b)
    decreases |b|
  {
    if b == [] {
      assert a + b == a;
    } else {
      var n := |b| - 1;
      assert (a + b)[..|a + b| - 1] == a + b[..n];
      RunConcat(policy, st, a, b[..n]);
    }
  }

  /** A call commutes with a whole run of calls of other sources on other slots. */
  lemma {:induction false} Postpone(policy: Policy, st: StoreState, keys: set<SlotKey>, b: Call, v: seq<Call>)
    requires Roomy(policy, st, keys) && b.Key() in keys && KeysWithin(v, keys)
    requires forall c | c in v :: c.Source() != b.Source() && c.Key() != b.Key()
    ensures Run(policy, Apply(policy, st, b), v) == Apply(policy, Run(policy, st, v), b)
    decreases |v|
  {
    if v != [] {
      var n := |v| - 1;
      Postpone(policy, st, keys, b, v[..n]);
      RunRoomy(policy, st, v[..n], keys);
      CallsCommute(policy, Run(policy, st, v[..n]), keys, b, v[n]);
    }
  }

  /** A call with no later call of its own source can be moved to the end. */
  lemma {:induction false} MoveToEnd(policy: Policy, st: StoreState, keys: set<SlotKey>, u: seq<Call>, b: Call, v: seq<Call>)
    requires Roomy(policy, st, keys) && KeysWithin(u, keys) && b.Key() in keys && KeysWithin(v, keys)
    requires forall c | c in v :: c.Source() != b.Source() && c.Key() != b.Key()
    ensures Run(policy, st, u + [b] + v) == Apply(policy, Run(policy, st, u + v), b)
  {
    RunConcat(policy, st, u + [b], v);
    RunAppend(policy, st, u, b);
    RunConcat(policy, st, u, v);
    RunRoomy(policy, st, u, keys);
    Postpone(policy, Run(policy, st, u), keys, b, v);
  }

  lemma {:induction false} OfSourceAppend(u: seq<Call>, v: seq<Call>, source: SourceId)
    ensures OfSource(u + v, source) == OfSource(u, source) + OfSource(v, source)
    decreases |v|
  {
    if v == [] {
      assert u + v == u;
    } else {
      var n := |v| - 1;
      assert (u + v)[..|u + v| - 1] == u + v[..n];
      OfSourceAppend(u, v[..n], source);
    }
  }

  lemma {:induction false} NoneOfSource(v: seq<Call>, source: SourceId)
    requires forall c | c in v :: c.Source() != source
    ensures OfSource(v, source) == []
  {
    if v != [] {
      NoneOfSource(v[..|v| - 1], source);
    }
  }

  /** Where a source's last call stands: everything after it comes from other sources. */
  lemma {:induction false} LastOfSource(ys: seq<Call>, source: SourceId) returns (p: nat)
    requires OfSource(ys, source) != []
    ensures p < |ys| && ys[p].Source() == source
    ensures forall c | c in ys[p + 1..] :: c.Source() != source
    ensures OfSource(ys, source) == OfSource(ys[..p], source) + [ys[p]]
  {
    var n := |ys| - 1;
    if ys[n].Source() == source {
      p := n;
    } else {
      p := LastOfSource(ys[..n], source);
      assert ys[p + 1..] == ys[..n][p + 1..] + [ys[n]];
      assert ys[..n][..p] == ys[..p];
    }
  }

  lemma {:induction false} SameOrdersSameLength(xs: seq<Call>, ys: seq<Call>)
    requires SameOrders(xs, ys) && xs == []
    ensures ys == []
  {
    if ys != [] {
      var c := ys[|ys| - 1];
      assert OfSource(ys, c.Source()) != [];
      assert OfSource(xs, c.Source()) == [];
    }
  }

  lemma {:induction false} MembersOfSource(calls: seq<Call>, c: Call)
    ensures c in calls <==> c in OfSource(calls, c.Source())
  {
    if calls != [] {
      MembersOfSource(calls[..|calls| - 1], c);
      assert calls == calls[..|calls| - 1] + [calls[|calls| - 1]];
    }
  }

  lemma {:induction false} SameMembers(xs: seq<Call>, ys: seq<Call>, c: Call)
    requires SameOrders(xs, ys)
    ensures c in xs <==> c in ys
  {
    MembersOfSource(xs, c);
    MembersOfSource(ys, c);
    assert OfSource(xs, c.Source()) == OfSource(ys, c.Source());
  }

  lemma {:induction false} CancelLast<T>(p: seq<T>, q: seq<T>, x: T)
    requires p + [x] == q + [x]
    ensures p == q
  {
    assert p == (p + [x])[..|p|] && q == (q + [x])[..|q|];
    assert |p + [x]| == |q + [x]|;
  }

  /** Removing a source's last call from both sides keeps the orders equal. */
  lemma {:induction false} SameOrdersWithoutLast(xs: seq<Call>, u: seq<Call>, b: Call, v: seq<Call>)
    requires SameOrders(xs + [b], u + [b] + v)
    requires forall c | c in v :: c.Source() != b.Source()
    ensures SameOrders(xs, u + v)
  {
    forall s: SourceId ensures OfSource(xs, s) == OfSource(u + v, s) {
      OfSourceAppend(xs, [b], s);
      OfSourceAppend(u + [b], v, s);
      OfSourceAppend(u, [b], s);
      OfSourceAppend(u, v, s);
      assert OfSource(xs + [b], s) == OfSource(u + [b] + v, s);
      assert [b][..0] == [];
      if s == b.Source() {
        NoneOfSource(v, s);
        assert OfSource([b], s) == [b];
        CancelLast(OfSource(xs, s), OfSource(u, s), b);
      } else {
        assert OfSource([b], s) == [];
      }
    }
  }

  lemma {:induction false} InterleavingStep(policy: Policy, st: StoreState, keys: set<SlotKey>, xs: seq<Call>, ys: seq<Call>)
    returns (u: seq<Call>, b: Call, v: seq<Call>)
    requires xs != [] && SameOrders(xs, ys) && DisjointWriters(xs) && Roomy(policy, st, keys) && KeysWithin(xs, keys)
    ensures b == xs[|xs| - 1] && ys == u + [b] + v && SameOrders(xs[..|xs| - 1], u + v)
    ensures Run(policy, st, ys) == Apply(policy, Run(policy, st, u + v), b)
  {
    b := xs[|xs| - 1];
    var source := b.Source();
    assert OfSource(xs, source) == OfSource(ys, source);
    var p := LastOfSource(ys, source);
    u, v := ys[..p], ys[p + 1..];
    assert OfSource(xs, source)[|OfSource(xs, source)| - 1] == b;
    assert ys[p] == b;
    assert ys == u + [b] + v;
    assert xs == xs[..|xs| - 1] + [b];
    SameOrdersWithoutLast(xs[..|xs| - 1], u, b, v);
    forall c ensures c in ys <==> c in xs { SameMembers(xs, ys, c); }
    forall c | c in v ensures c.Source() != source && c.Key() != b.Key() {
      assert c in ys && b in xs;
    }
    assert KeysWithin(ys, keys);
    MoveToEnd(policy, st, keys, u, b, v);
  }

  lemma {:induction false} ConfluentWithin(policy: Policy, st: StoreState, keys: set<SlotKey>, xs: seq<Call>, ys: seq<Call>)
    requires SameOrders(xs, ys) && DisjointWriters(xs) && Roomy(policy, st, keys) && KeysWithin(xs, keys)
    ensures Run(policy, st, xs) == Run(policy, st, ys)
    decreases |xs|
  {
    if xs == [] {
      SameOrdersSameLength(xs, ys);
    } else {
      var n := |xs| - 1;
      var u, b, v := InterleavingStep(policy, st, keys, xs, ys);
      assert forall c | c in xs[..n] :: c in xs;
      ConfluentWithin(policy, st, keys, xs[..n], u + v);
    }
  }

  function KeysOf(calls: seq<Call>): set<SlotKey> { set c | c in calls :: c.Key() }

  /**
   Confluence. From any store, two sequences of calls that hold the same calls of every source in
   the same order, whose sources write disjoint slots, and whose keys together with the existing
   slots fit the slot bound, leave equal stores: slots, streams, totals and fence counts.
   */
  lemma {:induction false} Confluent(policy: Policy, st: StoreState, xs: seq<Call>, ys: seq<Call>)
    requires SameOrders(xs, ys) && DisjointWriters(xs)
    requires |st.slots.Keys + KeysOf(xs)| <= MaxSlots(policy)
    ensures Run(policy, st, xs) == Run(policy, st, ys)
  {
    ConfluentWithin(policy, st, st.slots.Keys + KeysOf(xs), xs, ys);
  }
}
