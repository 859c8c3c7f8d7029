/**
 When no snapshot is lost: how large a snapshot can be, and the exact condition on the policy under
 which everything an observatory can collect and write loads back.
 */
module LosslessSnapshots {
  import opened Checked
  import opened Domain
  import opened StoreSpec
  import opened StoreInvariant
  import opened StoreRestart
  import opened RegistrySpec
  import opened ObservatorySpec
  import opened ObservatoryRestart
  import opened RefusedGeneration
  import opened LongHistory
  import opened ManySources
  import C = Codec
  import opened Snapshot
  import opened SnapshotSize
  import Representable
  import opened SnapshotRestart

  // ---------------------------------------------------------------------------
  // The largest snapshot
  // ---------------------------------------------------------------------------

  /** What a slot can take under the limits. */
  function LargestSlot(l: Limits): nat { 76 + 150 * l.maxEvidencePerKey + 255 * l.maxSources }

  /** What a whole snapshot can take under the limits. */
  function LargestSnapshot(l: Limits): nat {
    148 + 1089 * l.maxLinks + 1823 * l.maxSources + LargestSlot(l) * (l.maxLinks * MAX_KEYS_PER_LINK) + 225 * l.maxTotalTransitions
  }

  lemma {:induction false} LinksBytes(policy: Policy, r: Registry, links: seq<PersistedLink>)
    requires LinksInv(policy, r.links) && ListsLinks(links, r.links)
    ensures TotalBytes(LinkBytes, links) <= 1089 * policy.limits.maxLinks
  {
    LinksWithin(policy, r, links);
    forall i | 0 <= i < |links| ensures LinkBytes(links[i]) <= 1089 {
      assert LinkInv(links[i].facts.id, r.links[links[i].facts.id]);
    }
    TotalAtMost(LinkBytes, links, 1089);
  }

  lemma {:induction false} SourcesBytes(policy: Policy, r: Registry, sources: seq<SourceRecord>)
    requires SourcesInv(policy, r.sources) && ListsSources(sources, r.sources)
    ensures TotalBytes(SourceBytes, sources) <= 156 * policy.limits.maxSources
  {
    SourcesWithin(policy, r, sources);
    forall i | 0 <= i < |sources| ensures SourceBytes(sources[i]) <= 156 {
      assert SourceInv(sources[i].id, r.sources[sources[i].id]);
    }
    TotalAtMost(SourceBytes, sources, 156);
  }

  lemma {:induction false} SlotsBytes(policy: Policy, st: StoreState, slots: seq<PersistedSlot>)
    requires StoreInv(policy, st) && |st.streams| <= policy.limits.maxSources && ListsSlots(slots, st.slots)
    ensures TotalBytes(SlotBytes, slots) <= LargestSlot(policy.limits) * MaxSlots(policy)
  {
    DistinctWithin(seq(|slots|, i requires 0 <= i < |slots| => slots[i].slot), st.slots.Keys);
    assert |st.slots.Keys| == |st.slots| && |st.streams.Keys| == |st.streams|;
    var n := LargestSlot(policy.limits);
    forall i | 0 <= i < |slots| ensures SlotBytes(slots[i]) <= n {
      var k := slots[i].slot;
      assert SlotInv(policy, k, st.slots[k], st.streams.Keys);
      ContinuityBounded(st.slots[k], st.streams.Keys);
    }
    TotalAtMost(SlotBytes, slots, n);
    Product(n, |slots|, MaxSlots(policy));
  }

  lemma {:induction false} StreamsBytes(policy: Policy, st: StoreState, streams: seq<PersistedStream>)
    requires StoreInv(policy, st) && |st.streams| <= policy.limits.maxSources && ListsStreams(streams, st.streams)
    ensures TotalBytes(StreamBytes, streams) <= 1667 * policy.limits.maxSources
  {
    StreamsWithin(policy, st, streams);
    forall i | 0 <= i < |streams| ensures StreamBytes(streams[i]) <= 1667 {
      assert StreamInv(streams[i].source, st.streams[streams[i].source]);
    }
    TotalAtMost(StreamBytes, streams, 1667);
  }

  lemma {:induction false} EventsBytes(limits: Limits, events: seq<TransitionEvent>)
    requires Logged(limits, events)
    ensures TotalBytes(EventBytes, events) <= 225 * limits.maxTotalTransitions
  {
    LoggedShort(limits, events);
    TotalAtMost(EventBytes, events, 225);
  }

  lemma Product(a: nat, m: nat, n: nat)
    requires m <= n
    ensures a * m <= a * n
  {
  }

  /** Whatever an observatory in good order collects takes at most this many bytes. */
  lemma {:induction false} CollectedBytes(cfg: Config, s: Observatory, v: Contents)
    requires Restorable(cfg, s) && Savable(cfg.policy.limits, s, v)
    ensures SnapshotBytes(v) <= LargestSnapshot(cfg.policy.limits)
  {
    LinksBytes(cfg.policy, s.registry, v.links);
    SourcesBytes(cfg.policy, s.registry, v.sources);
    SlotsBytes(cfg.policy, s.store, v.slots);
    StreamsBytes(cfg.policy, s.store, v.streams);
    EventsBytes(cfg.policy.limits, v.transitions);
  }

  lemma {:induction false} FittingLoads(policy: Policy, sha: Hasher, v: Contents)
    requires Fits(policy, v) && Representable.Held(v) && Writable(policy, v)
    ensures Encode(policy, sha, v).Some? && LoadOnce(policy, sha, Encode(policy, sha, v)) == Loaded(v)
  {
    WritableEncodes(policy, sha, v);
    HeldLoadsIff(policy, sha, v);
  }

  lemma {:induction false} RestorableLoads(cfg: Config, sha: Hasher, s: Observatory, v: Contents)
    requires Restorable(cfg, s) && Savable(cfg.policy.limits, s, v) && Decodable(cfg.policy)
    requires LargestSnapshot(cfg.policy.limits) <= cfg.policy.limits.maxSnapshotBytes < TWO_64
    ensures Encode(cfg.policy, sha, v).Some? && LoadOnce(cfg.policy, sha, Encode(cfg.policy, sha, v)) == Loaded(v)
  {
    CollectedFits(cfg, s, v);
    CollectedBytes(cfg, s, v);
    CountedIsWritable(cfg.policy, v);
    FittingLoads(cfg.policy, sha, v);
  }

  /**
   Under a decodable policy whose size limit covers the largest snapshot, everything saved after any run
   is written and loads back in full.
   */
  lemma {:induction false} EverySnapshotLoads(cfg: Config, sha: Hasher, recs: seq<Record>, v: Contents)
    requires Savable(cfg.policy.limits, Process(cfg, EMPTY_OBSERVATORY, recs), v) && Decodable(cfg.policy)
    requires LargestSnapshot(cfg.policy.limits) <= cfg.policy.limits.maxSnapshotBytes < TWO_64
    ensures Encode(cfg.policy, sha, v).Some? && LoadOnce(cfg.policy, sha, Encode(cfg.policy, sha, v)) == Loaded(v)
  {
    RunRestorable(cfg, recs);
    RestorableLoads(cfg, sha, Process(cfg, EMPTY_OBSERVATORY, recs), v);
  }

  // ---------------------------------------------------------------------------
  // The exact condition
  // ---------------------------------------------------------------------------

  /** Whatever is saved after any run, and not refused for its size, loads back in full. */
  ghost predicate Lossless(cfg: Config, sha: Hasher) {
    forall recs, v | SavedAfter(cfg, recs, v) :: LoadOnce(cfg.policy, sha, Encode(cfg.policy, sha, v)) == Loaded(v)
  }

  lemma {:induction false} DecodableIsLossless(cfg: Config, sha: Hasher)
    requires Decodable(cfg.policy)
    ensures Lossless(cfg, sha)
  {
    forall recs, v | SavedAfter(cfg, recs, v) ensures LoadOnce(cfg.policy, sha, Encode(cfg.policy, sha, v)) == Loaded(v) {
      RunRestorable(cfg, recs);
      CollectedFits(cfg, Process(cfg, EMPTY_OBSERVATORY, recs), v);
      FittingLoads(cfg.policy, sha, v);
    }
  }

  lemma {:induction false} LostIsNotLossless(cfg: Config, sha: Hasher, recs: seq<Record>, v: Contents)
    requires SavedAfter(cfg, recs, v) && Lost(cfg.policy, sha, v)
    ensures !Lossless(cfg, sha)
  {
  }

  /** What one piece of evidence, or one source, over the decoder's bounds needs. */
  const LONG_BYTES: nat := 717 + 150 * 1025
  const WIDE_BYTES: nat := 553 + 569 * 4097

  lemma {:induction false} EvidenceBoundNeeded(cfg: Config, sha: Hasher, n: nat)
    requires HasRoom(cfg) && C.MAX_EVIDENCE < n <= cfg.policy.limits.maxEvidencePerKey
    requires 717 + 150 * n <= cfg.policy.limits.maxSnapshotBytes && 717 + 150 * n < TWO_64
    ensures !Lossless(cfg, sha)
  {
    LongRunIsLost(cfg, sha, n);
    LostIsNotLossless(cfg, sha, LongRun(n), LongContents(n));
  }

  lemma {:induction false} SourceBoundNeeded(cfg: Config, sha: Hasher, m: U64)
    requires Welcoming(cfg) && C.MAX_SOURCES < m <= cfg.policy.limits.maxSources
    requires 553 + 569 * m <= cfg.policy.limits.maxSnapshotBytes && 553 + 569 * m < TWO_64
    ensures !Lossless(cfg, sha)
  {
    WideRunIsLost(cfg, sha, m);
    LostIsNotLossless(cfg, sha, WideRun(m), WideContents(cfg.policy, m));
  }

  /**
   For every digest function and every configuration: all snapshots of all runs load back exactly when
   the policy allows at most 1024 pieces of evidence per key and at most 4096 sources, provided a size
   limit of 154,467 bytes where the first is exceeded and of 2,331,746 where the second is.
   */
  lemma {:induction false} LosslessIff(cfg: Config, sha: Hasher)
    requires HasRoom(cfg) && Welcoming(cfg)
    requires cfg.policy.limits.maxEvidencePerKey > C.MAX_EVIDENCE ==> cfg.policy.limits.maxSnapshotBytes >= LONG_BYTES
    requires cfg.policy.limits.maxSources > C.MAX_SOURCES ==> cfg.policy.limits.maxSnapshotBytes >= WIDE_BYTES
    ensures Lossless(cfg, sha) <==> Decodable(cfg.policy)
  {
    if Decodable(cfg.policy) {
      DecodableIsLossless(cfg, sha);
    } else if cfg.policy.limits.maxEvidencePerKey > C.MAX_EVIDENCE {
      EvidenceBoundNeeded(cfg, sha, C.MAX_EVIDENCE + 1);
    } else {
      SourceBoundNeeded(cfg, sha, C.MAX_SOURCES + 1);
    }
  }
}
