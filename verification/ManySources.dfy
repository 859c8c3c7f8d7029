/**
 The decoder's fixed bound on a slot's sources, src/persist/codec.cpp:15 and 535-537, against the
 policy's own bound: a run in which n sources read one counter, and what becomes of its snapshot.
 */
module ManySources {
  import opened Checked
  import opened Domain
  import opened CounterTracker
  import opened Retirement
  import opened StoreSpec
  import opened StoreReplay
  import opened StoreRestart
  import opened RegistrySpec
  import opened ObservatorySpec
  import opened ObservatoryRuns
  import opened ObservatoryRestart
  import opened StagedRuns
  import opened LateFences
  import opened LongHistory
  import C = Codec
  import opened Snapshot
  import opened SnapshotSize
  import Representable
  import opened SnapshotRestart

  /** The i-th source and its only reading, of one counter for all. */
  function Probe(i: U64): SourceRecord { SourceRecord(i, "probe", Primary, Real, true, false) }

  function Sighting(i: U64): Observation {
    Observation(i, Provenance(i, 1, 1, 1, 1), LINK, INBOUND, Counter(CounterReading(0, Bits64, false)), 10, 10)
  }

  function SightingCall(i: U64): Call { Call(Sighting(i), AcceptContext(Some(Probe(i)), 1, true), 10) }

  const SHARED: SlotKey := SlotKey(LINK, INBOUND)

  // ---------------------------------------------------------------------------
  // What the run builds up
  // ---------------------------------------------------------------------------

  function Roster(n: U64): (m: map<SourceId, SourceRecord>)
    ensures forall id :: id in m <==> 1 <= id <= n
    ensures forall id | id in m :: m[id] == Probe(id)
    ensures |m| == n
  {
    if n == 0 then map[] else Roster(n - 1)[n := Probe(n)]
  }

  /** Every source's stream after its one reading. */
  function StreamWith(i: U64): StreamState {
    StreamState(true, SightingCall(i).Scope(), true, 1, i, false, [], 1, 0, 0, 1)
  }

  function StreamsTo(n: U64): (m: map<SourceId, StreamState>)
    ensures forall id :: id in m <==> 1 <= id <= n
    ensures forall id | id in m :: m[id] == StreamWith(id)
  {
    if n == 0 then map[] else StreamsTo(n - 1)[n := StreamWith(n)]
  }

  function Track(i: U64): CounterContinuity {
    CounterContinuity(Some(SampleOf(Sighting(i), 0)), Option.None, NoDiscontinuity, 0, 0, 0)
  }

  function TracksTo(n: U64): (m: map<SourceId, CounterContinuity>)
    ensures forall id :: id in m <==> 1 <= id <= n
    ensures forall id | id in m :: m[id] == Track(id)
    ensures |m| == n
  {
    if n == 0 then map[] else TracksTo(n - 1)[n := Track(n)]
  }

  function SightingsTo(n: U64): (h: seq<Evidence>)
    ensures |h| == n
  {
    if n == 0 then [] else SightingsTo(n - 1) + [EvidenceOf(Sighting(n), Probe(n), 10)]
  }

  function SharedSlot(policy: Policy, n: U64): Slot {
    Slot(INBOUND, KeepLast(SightingsTo(n), policy.limits.maxEvidencePerKey), TracksTo(n), n, 0, 0, false, 0, 0)
  }

  // ---------------------------------------------------------------------------
  // The run
  // ---------------------------------------------------------------------------

  const LINK_ONLY: seq<Record> := [LinkRecorded(LINE, 0)]
  const PROBES: nat -> Record := (k: nat) => SourceRecorded(Probe(if k < TWO_64 then k else 0))
  const SIGHTINGS: nat -> Record := (k: nat) => Observed(Sighting(if k < TWO_64 then k else 0), "link", 10)

  function Registered(n: nat): seq<Record> { Extended(LINK_ONLY, PROBES, n) }

  /** The link, then n sources, then one reading of each. */
  function WideRun(n: nat): seq<Record> { Extended(Registered(n), SIGHTINGS, n) }

  predicate RosterState(s: Observatory, k: U64) {
    && s.registry.sources == Roster(k)
    && s.registry.links == map[LINK := LinkRecord(EntryAfter(0), GenerationState(1, true, [], 0))]
    && s.store == EMPTY_STORE
  }

  predicate WideRegistry(r: Registry, n: U64, k: U64) {
    && r.sources == Roster(n)
    && r.links == map[LINK := LinkRecord(EntryAfter(k), GenerationState(1, true, [], 0))]
  }

  predicate WideStore(policy: Policy, st: StoreState, k: U64) {
    && st.slots == (if k == 0 then map[] else map[SHARED := SharedSlot(policy, k)])
    && st.streams == StreamsTo(k)
    && TotalsOf(st) == Totals(k, 0, 0, 0, 0, 0)
  }

  predicate Welcoming(cfg: Config) { Octets in cfg.families && cfg.policy.limits.maxLinks > 0 && cfg.policy.limits.maxEvidencePerKey > 0 }

  // ---------------------------------------------------------------------------
  // Registering
  // ---------------------------------------------------------------------------

  lemma {:induction false} ProbeRegisters(cfg: Config, s: Observatory, next: Observatory, k: U64)
    requires 0 < k <= cfg.policy.limits.maxSources
    requires RosterState(s, k - 1) && next == ApplySource(cfg, s, Probe(k))
    ensures RosterState(next, k)
  {
  }

  lemma ProbeIs(k: nat)
    requires k < TWO_64
    ensures PROBES(k) == SourceRecorded(Probe(k))
  {
  }

  const ROSTERS: (nat, Observatory) -> bool := (k: nat, s: Observatory) => k < TWO_64 && RosterState(s, k)

  lemma {:induction false} RostersKept(cfg: Config, s: Observatory, next: Observatory, k: nat)
    requires 0 < k < TWO_64 && k <= cfg.policy.limits.maxSources
    requires ROSTERS(k - 1, s) && next == Stepper(cfg)(s, PROBES(k))
    ensures ROSTERS(k, next)
  {
    ProbeIs(k);
    SourceApplied(cfg, s, PROBES(k));
    ProbeRegisters(cfg, s, next, k);
  }

  lemma {:induction false} LinkRegisters(cfg: Config)
    requires cfg.policy.limits.maxLinks > 0
    ensures RosterState(ApplyLink(cfg, EMPTY_OBSERVATORY, LINE, 0), 0)
  {
  }

  lemma {:induction false} RostersBegin(cfg: Config)
    requires cfg.policy.limits.maxLinks > 0
    ensures ROSTERS(0, Fold(Stepper(cfg), EMPTY_OBSERVATORY, LINK_ONLY))
  {
    assert LINK_ONLY[..0] == [];
    LinkApplied(cfg, EMPTY_OBSERVATORY, LINK_ONLY[0]);
    LinkRegisters(cfg);
  }

  lemma {:induction false} RostersHold(cfg: Config, n: nat)
    requires Welcoming(cfg) && n < TWO_64 && n <= cfg.policy.limits.maxSources
    ensures ROSTERS(n, Fold(Stepper(cfg), EMPTY_OBSERVATORY, Registered(n)))
  {
    var step := Stepper(cfg);
    RostersBegin(cfg);
    forall k: nat, s | 0 < k <= n && ROSTERS(k - 1, s) ensures ROSTERS(k, step(s, PROBES(k))) {
      RostersKept(cfg, s, step(s, PROBES(k)), k);
    }
    Staged(step, EMPTY_OBSERVATORY, LINK_ONLY, PROBES, n, ROSTERS);
  }

  // ---------------------------------------------------------------------------
  // Observing
  // ---------------------------------------------------------------------------

  lemma {:induction false} SightingAdmitted(i: U64)
    requires i > 0
    ensures
      var a := Admit(NEW_STREAM, Sighting(i));
      && a.fence == FenceReason.None && !a.gap && !a.duplicate && a.stream.gapCount == 0
      && a.stream.(hasSequence := true, lastSequence := 1, lastObservation := i, accepted := a.stream.accepted + 1) == StreamWith(i)
  {
  }

  lemma {:induction false} SightingEnters(policy: Policy, i: U64)
    requires i > 0
    ensures EntryFence(policy, Sighting(i), SightingCall(i).context) == FenceReason.None && CarriesCounter(Sighting(i))
  {
  }

  lemma {:induction false} SightingUnfenced(policy: Policy, slots: map<SlotKey, Slot>, i: U64)
    requires policy.limits.maxLinks > 0 && (slots == map[] || SHARED in slots)
    ensures LateFence(policy, slots, Sighting(i), Primary) == FenceReason.None
  {
    if SHARED in slots {
      PrimaryNotOutranked(slots[SHARED].history, Sighting(i));
    }
  }

  lemma {:induction false} SightingTracked(policy: Policy, slot: Slot, k: U64)
    requires policy.limits.maxEvidencePerKey > 0 && 0 < k
    requires slot == if k == 1 then NewSlot(INBOUND) else SharedSlot(policy, k - 1)
    ensures CounterOutcome(slot, Sighting(k), 0).discontinuity == NoDiscontinuity
    ensures RecordIn(policy, slot, Sighting(k), Probe(k), 10, 0, false) == SharedSlot(policy, k)
  {
    KeepLastTwice(SightingsTo(k - 1), EvidenceOf(Sighting(k), Probe(k), 10), policy.limits.maxEvidencePerKey);
    assert ContinuityOf(slot, k) == EMPTY_CONTINUITY;
  }

  lemma {:induction false} StreamIsNew(policy: Policy, st: StoreState, k: U64)
    requires 0 < k && WideStore(policy, st, k - 1)
    ensures StreamOf(st, k) == NEW_STREAM
    ensures SlotOf(st, SHARED) == if k == 1 then NewSlot(INBOUND) else SharedSlot(policy, k - 1)
  {
  }

  /** The call is admitted and unfenced, and its counter reading without incident: what it makes of slot and stream. */
  ghost predicate Clean(policy: Policy, st: StoreState, c: Call, slot: Slot, stream: StreamState) {
    var a := Admit(StreamOf(st, c.Source()), c.observation);
    && EntryFence(policy, c.observation, c.context) == FenceReason.None
    && a.fence == FenceReason.None && !a.gap && !a.duplicate && CarriesCounter(c.observation)
    && LateFence(policy, st.slots, c.observation, c.context.source.value.authority) == FenceReason.None
    && CounterOutcome(SlotOf(st, c.Key()), c.observation, a.stream.gapCount).discontinuity == NoDiscontinuity
    && slot == RecordIn(policy, SlotOf(st, c.Key()), c.observation, c.context.source.value, c.now, a.stream.gapCount, false)
    && stream == a.stream.(hasSequence := true, lastSequence := c.Sequence(), lastObservation := c.observation.id, accepted := a.stream.accepted + 1)
  }

  ghost predicate Grew(st: StoreState, next: StoreState, key: SlotKey, source: SourceId, slot: Slot, stream: StreamState) {
    && next.slots == st.slots[key := slot] && next.streams == st.streams[source := stream]
    && TotalsOf(next) == TotalsOf(st).(accepted := st.totalAccepted + 1)
  }

  lemma {:induction false} CleanIsRecorded(policy: Policy, st: StoreState, c: Call, slot: Slot, stream: StreamState)
    requires Clean(policy, st, c, slot, stream)
    ensures Answer(policy, st, c).accepted && Grew(st, Apply(policy, st, c), c.Key(), c.Source(), slot, stream)
  {
  }

  lemma {:induction false} WideStoreNext(policy: Policy, st: StoreState, next: StoreState, k: U64)
    requires 0 < k && WideStore(policy, st, k - 1)
    requires Grew(st, next, SHARED, k, SharedSlot(policy, k), StreamWith(k))
    ensures WideStore(policy, next, k)
  {
  }

  lemma {:induction false} CleanFrom(policy: Policy, st: StoreState, o: Observation, ctx: AcceptContext, now: TimePoint, a: Admission, was: Slot, slot: Slot, stream: StreamState)
    requires EntryFence(policy, o, ctx) == FenceReason.None && CarriesCounter(o)
    requires a == Admit(StreamOf(st, o.provenance.source), o) && was == SlotOf(st, SlotKeyOf(o))
    requires a.fence == FenceReason.None && !a.gap && !a.duplicate && a.stream.gapCount == 0
    requires LateFence(policy, st.slots, o, ctx.source.value.authority) == FenceReason.None
    requires CounterOutcome(was, o, 0).discontinuity == NoDiscontinuity && slot == RecordIn(policy, was, o, ctx.source.value, now, 0, false)
    requires stream == a.stream.(hasSequence := true, lastSequence := o.provenance.sequence, lastObservation := o.id, accepted := a.stream.accepted + 1)
    ensures Clean(policy, st, Call(o, ctx, now), slot, stream)
  {
  }

  /** One reading of a new source. */
  lemma {:induction false} SightingIsClean(policy: Policy, st: StoreState, was: Slot, k: U64)
    requires policy.limits.maxLinks > 0 && policy.limits.maxEvidencePerKey > 0 && 0 < k
    requires StreamOf(st, k) == NEW_STREAM && (st.slots == map[] || SHARED in st.slots)
    requires was == SlotOf(st, SHARED) && was == if k == 1 then NewSlot(INBOUND) else SharedSlot(policy, k - 1)
    ensures Clean(policy, st, SightingCall(k), SharedSlot(policy, k), StreamWith(k))
  {
    SightingAdmitted(k);
    SightingEnters(policy, k);
    SightingUnfenced(policy, st.slots, k);
    SightingTracked(policy, was, k);
    CleanFrom(policy, st, Sighting(k), SightingCall(k).context, 10, Admit(NEW_STREAM, Sighting(k)), was, SharedSlot(policy, k), StreamWith(k));
  }

  lemma {:induction false} SightingStored(policy: Policy, st: StoreState, next: StoreState, k: U64)
    requires policy.limits.maxLinks > 0 && policy.limits.maxEvidencePerKey > 0 && 0 < k
    requires WideStore(policy, st, k - 1) && next == Apply(policy, st, SightingCall(k))
    ensures Answer(policy, st, SightingCall(k)).accepted && WideStore(policy, next, k)
  {
    StreamIsNew(policy, st, k);
    SightingIsClean(policy, st, SlotOf(st, SHARED), k);
    CleanIsRecorded(policy, st, SightingCall(k), SharedSlot(policy, k), StreamWith(k));
    WideStoreNext(policy, st, next, k);
  }

  // ---------------------------------------------------------------------------
  // Observing through the registry
  // ---------------------------------------------------------------------------

  lemma {:induction false} SightingKnown(cfg: Config, r: Registry, n: U64, k: U64)
    requires Octets in cfg.families && 0 < k <= n && WideRegistry(r, n, k - 1)
    ensures Trusted(cfg, r, Sighting(k)) && ContextOf(cfg, r, Sighting(k)) == SightingCall(k).context
    ensures LINK in r.links && GenerationsOf(r, LINK) == GenerationState(1, true, [], 0)
    ensures WideRegistry(NoteAccepted(r, LINK, 10, 10), n, k)
  {
  }

  lemma {:induction false} SightingOffered(cfg: Config, s: Observatory, next: Observatory, n: U64, k: U64)
    requires Octets in cfg.families && 0 < k <= n && WideRegistry(s.registry, n, k - 1)
    requires Answer(cfg.policy, s.store, SightingCall(k)).accepted && next == ApplyObservation(cfg, s, Sighting(k), "link", 10)
    ensures WideRegistry(next.registry, n, k) && next.store == Apply(cfg.policy, s.store, SightingCall(k))
  {
    SightingKnown(cfg, s.registry, n, k);
    CurrentIsOffered(cfg, s, Sighting(k), "link", 10);
    OfferAccepted(cfg, s, Sighting(k), 10, SightingCall(k).context);
  }

  predicate WideState(policy: Policy, s: Observatory, n: U64, k: U64) {
    WideRegistry(s.registry, n, k) && WideStore(policy, s.store, k)
  }

  lemma {:induction false} WideStateKept(cfg: Config, s: Observatory, next: Observatory, n: U64, k: U64)
    requires Welcoming(cfg) && 0 < k <= n
    requires WideState(cfg.policy, s, n, k - 1) && next == ApplyObservation(cfg, s, Sighting(k), "link", 10)
    ensures WideState(cfg.policy, next, n, k)
  {
    SightingStored(cfg.policy, s.store, Apply(cfg.policy, s.store, SightingCall(k)), k);
    SightingOffered(cfg, s, next, n, k);
  }

  function WideStates(policy: Policy, n: U64): (nat, Observatory) -> bool {
    (k: nat, s: Observatory) => k <= n && WideState(policy, s, n, k)
  }

  lemma SightingIs(k: nat)
    requires k < TWO_64
    ensures SIGHTINGS(k) == Observed(Sighting(k), "link", 10)
  {
  }

  lemma {:induction false} WideStatesKept(cfg: Config, s: Observatory, next: Observatory, n: U64, k: nat)
    requires Welcoming(cfg) && 0 < k <= n
    requires WideStates(cfg.policy, n)(k - 1, s) && next == Stepper(cfg)(s, SIGHTINGS(k))
    ensures WideStates(cfg.policy, n)(k, next)
  {
    SightingIs(k);
    ObservedApplied(cfg, s, SIGHTINGS(k));
    WideStateKept(cfg, s, next, n, k);
  }

  lemma {:induction false} WideBegins(cfg: Config, s: Observatory, n: U64)
    requires ROSTERS(n, s)
    ensures WideStates(cfg.policy, n)(0, s)
  {
  }

  lemma {:induction false} WideHolds(cfg: Config, n: U64)
    requires Welcoming(cfg) && n <= cfg.policy.limits.maxSources
    ensures WideStates(cfg.policy, n)(n, Fold(Stepper(cfg), EMPTY_OBSERVATORY, WideRun(n)))
  {
    var step, p := Stepper(cfg), WideStates(cfg.policy, n);
    RostersHold(cfg, n);
    WideBegins(cfg, Fold(step, EMPTY_OBSERVATORY, Registered(n)), n);
    forall k: nat, s | 0 < k <= n && p(k - 1, s) ensures p(k, step(s, SIGHTINGS(k))) {
      WideStatesKept(cfg, s, step(s, SIGHTINGS(k)), n, k);
    }
    Staged(step, EMPTY_OBSERVATORY, Registered(n), SIGHTINGS, n, p);
  }

  /** Under any configuration with room, n sources are registered and all are tracked in one slot. */
  lemma {:induction false} WideRunTracks(cfg: Config, n: U64)
    requires Welcoming(cfg) && n <= cfg.policy.limits.maxSources
    ensures WideState(cfg.policy, Process(cfg, EMPTY_OBSERVATORY, WideRun(n)), n, n)
  {
    WideHolds(cfg, n);
    ProcessIsFold(cfg, EMPTY_OBSERVATORY, WideRun(n));
  }

  // ---------------------------------------------------------------------------
  // Its snapshot
  // ---------------------------------------------------------------------------

  function ProbeList(n: U64): (ps: seq<SourceRecord>)
    ensures |ps| == n && forall i | 0 <= i < n :: ps[i] == Probe(i + 1)
  {
    if n == 0 then [] else ProbeList(n - 1) + [Probe(n)]
  }

  function StreamList(n: U64): (ps: seq<PersistedStream>)
    ensures |ps| == n && forall i | 0 <= i < n :: ps[i] == PersistedStream(i + 1, StreamWith(i + 1))
  {
    if n == 0 then [] else StreamList(n - 1) + [PersistedStream(n, StreamWith(n))]
  }

  /** What a save collects after the run. */
  function WideContents(policy: Policy, n: U64): Contents {
    Contents(1, 1, 10, 0, [FreezeLink(LinkRecord(EntryAfter(n), GenerationState(1, true, [], 0)))], ProbeList(n),
             [Freeze(SHARED, SharedSlot(policy, n))], StreamList(n), [], Totals(n, 0, 0, 0, 0, 0), 0)
  }

  lemma {:induction false} ProbesListed(n: U64)
    ensures ListsSources(ProbeList(n), Roster(n))
  {
    forall id | id in Roster(n) ensures exists i :: 0 <= i < n && ProbeList(n)[i].id == id {
      assert ProbeList(n)[id - 1].id == id;
    }
  }

  lemma {:induction false} StreamsListed(n: U64)
    ensures ListsStreams(StreamList(n), StreamsTo(n))
  {
    forall id | id in StreamsTo(n) ensures exists i :: 0 <= i < n && StreamList(n)[i].source == id {
      assert StreamList(n)[id - 1].source == id;
    }
  }

  lemma {:induction false} WideCollected(policy: Policy, s: Observatory, n: U64)
    requires 0 < n && WideState(policy, s, n, n)
    ensures Collects(SavedOf(WideContents(policy, n)), s)
  {
    ProbesListed(n);
    StreamsListed(n);
    OneLinkListed(LinkRecord(EntryAfter(n), GenerationState(1, true, [], 0)));
    OneSlotListed(SHARED, SharedSlot(policy, n));
  }

  lemma {:induction false} WideHeld(policy: Policy, n: U64)
    requires 0 < n
    ensures Representable.Held(WideContents(policy, n))
  {
    assert |KeepLast(SightingsTo(n), policy.limits.maxEvidencePerKey)| <= n;
  }

  /** A save collects these contents after the run. */
  lemma {:induction false} WideStateSavable(policy: Policy, s: Observatory, n: U64, v: Contents)
    requires 0 < n && WideState(policy, s, n, n) && v == WideContents(policy, n)
    ensures Savable(policy.limits, s, v)
  {
    WideCollected(policy, s, n);
    WideHeld(policy, n);
    NothingLogged(policy.limits);
  }

  /** They take at most 569 bytes for each source, and 553. */
  lemma {:induction false} WideBytes(policy: Policy, n: U64)
    requires 0 < n
    ensures SnapshotBytes(WideContents(policy, n)) <= 553 + 569 * n
  {
    var v := WideContents(policy, n);
    assert |KeepLast(SightingsTo(n), policy.limits.maxEvidencePerKey)| <= n;
    TotalAtMost(LinkBytes, v.links, 329);
    TotalAtMost(SourceBytes, v.sources, 33);
    TotalAtMost(SlotBytes, v.slots, 76 + 405 * n);
    TotalAtMost(StreamBytes, v.streams, 131);
  }

  lemma WideSlot(policy: Policy, n: U64) returns (i: nat)
    requires n > C.MAX_SOURCES
    ensures i < |WideContents(policy, n).slots| && !C.SlotFits(WideContents(policy, n).slots[i])
  {
    i := 0;
  }

  /**
   A policy that admits more than 4096 sources, with room for 553 + 569 n bytes, has a run whose
   snapshot is collected, written and refused on load.
   */
  lemma {:induction false} WideRunIsLost(cfg: Config, sha: Hasher, n: U64)
    requires Welcoming(cfg) && C.MAX_SOURCES < n <= cfg.policy.limits.maxSources
    requires 553 + 569 * n <= cfg.policy.limits.maxSnapshotBytes && 553 + 569 * n < TWO_64
    ensures SavedAfter(cfg, WideRun(n), WideContents(cfg.policy, n)) && Lost(cfg.policy, sha, WideContents(cfg.policy, n))
  {
    WideRunTracks(cfg, n);
    WideStateSavable(cfg.policy, Process(cfg, EMPTY_OBSERVATORY, WideRun(n)), n, WideContents(cfg.policy, n));
    WideBytes(cfg.policy, n);
    var i := WideSlot(cfg.policy, n);
    CountedIsWritable(cfg.policy, WideContents(cfg.policy, n));
    OutgrownSlotIsLost(cfg.policy, sha, WideContents(cfg.policy, n), i);
  }
}
