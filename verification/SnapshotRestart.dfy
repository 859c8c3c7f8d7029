/**
 From a running observatory to bytes and back: what it persists always loads when the policy stays
 within the decoder's fixed bounds, and the restarted observatory behaves as the original would have
 (src/runtime/observatory.cpp:628-727, src/persist/snapshot.cpp).
 */
module SnapshotRestart {
  import opened Checked
  import opened Domain
  import opened Bytes
  import opened StoreSpec
  import opened StoreInvariant
  import opened StoreRestart
  import opened RegistrySpec
  import opened ObservatorySpec
  import opened ObservatoryRestart
  import C = Codec
  import opened Snapshot
  import opened SnapshotSize
  import Representable
  import T = TransitionLog
  import opened CrashSafety

  function SavedOf(v: Contents): Saved { Saved(v.links, v.sources, v.slots, v.streams, v.totals) }

  lemma {:induction false} DistinctWithin<K>(ks: seq<K>, keys: set<K>)
    requires forall i, j | 0 <= i < j < |ks| :: ks[i] != ks[j]
    requires forall i | 0 <= i < |ks| :: ks[i] in keys
    ensures |ks| <= |keys|
  {
    if ks != [] {
      var n := |ks| - 1;
      DistinctWithin(ks[..n], keys - {ks[n]});
    }
  }

  lemma {:induction false} LinksWithin(policy: Policy, r: Registry, ps: seq<PersistedLink>)
    requires LinksInv(policy, r.links) && ListsLinks(ps, r.links)
    ensures LinksFit(policy.limits.maxLinks, ps)
  {
    DistinctWithin(seq(|ps|, i requires 0 <= i < |ps| => ps[i].facts.id), r.links.Keys);
    assert |r.links.Keys| == |r.links|;
    forall i | 0 <= i < |ps| ensures C.LinkFits(ps[i]) {
      assert LinkInv(ps[i].facts.id, r.links[ps[i].facts.id]);
    }
  }

  lemma {:induction false} SourcesWithin(policy: Policy, r: Registry, ps: seq<SourceRecord>)
    requires SourcesInv(policy, r.sources) && ListsSources(ps, r.sources)
    ensures SourcesFit(policy.limits.maxSources, ps)
  {
    DistinctWithin(seq(|ps|, i requires 0 <= i < |ps| => ps[i].id), r.sources.Keys);
    assert |r.sources.Keys| == |r.sources|;
    forall i | 0 <= i < |ps| ensures C.SourceFits(ps[i]) {
      assert SourceInv(ps[i].id, r.sources[ps[i].id]);
    }
  }

  lemma {:induction false} SlotsWithin(policy: Policy, st: StoreState, ps: seq<PersistedSlot>)
    requires SlotsInv(policy, st.slots, st.streams.Keys) && ListsSlots(ps, st.slots)
    requires |st.streams| <= C.MAX_SOURCES && policy.limits.maxEvidencePerKey <= C.MAX_EVIDENCE
    ensures SlotsFit(MaxSlots(policy), ps)
  {
    DistinctWithin(seq(|ps|, i requires 0 <= i < |ps| => ps[i].slot), st.slots.Keys);
    assert |st.slots.Keys| == |st.slots| && |st.streams.Keys| == |st.streams|;
    forall i | 0 <= i < |ps| ensures C.SlotFits(ps[i]) {
      var k := ps[i].slot;
      assert SlotInv(policy, k, st.slots[k], st.streams.Keys);
      ContinuityBounded(st.slots[k], st.streams.Keys);
    }
  }

  lemma {:induction false} StreamsWithin(policy: Policy, st: StoreState, ps: seq<PersistedStream>)
    requires StreamsInv(st.streams) && ListsStreams(ps, st.streams) && |st.streams| <= policy.limits.maxSources
    ensures StreamsFit(policy.limits.maxSources, ps)
  {
    DistinctWithin(seq(|ps|, i requires 0 <= i < |ps| => ps[i].source), st.streams.Keys);
    assert |st.streams.Keys| == |st.streams|;
    forall i | 0 <= i < |ps| ensures C.StreamFits(ps[i]) {
      assert StreamInv(ps[i].source, st.streams[ps[i].source]);
    }
  }

  /** The fixed bounds the decoder applies whatever the policy says. */
  predicate Decodable(policy: Policy) {
    policy.limits.maxEvidencePerKey <= C.MAX_EVIDENCE && policy.limits.maxSources <= C.MAX_SOURCES
  }

  /** The list a snapshot takes of a log of recorded transitions. */
  ghost predicate Logged(limits: Limits, transitions: seq<TransitionEvent>) {
    exists identify, events :: transitions == T.Saved(limits, T.RecordAll(limits, identify, events))
  }

  /** Such a list is within its bound, and its texts are short. */
  lemma {:induction false} LoggedShort(limits: Limits, transitions: seq<TransitionEvent>)
    requires Logged(limits, transitions)
    ensures |transitions| <= limits.maxTotalTransitions
    ensures forall i | 0 <= i < |transitions| :: |transitions[i].from| <= T.MAX_TEXT && |transitions[i].to'| <= T.MAX_TEXT
  {
    var identify, events :| transitions == T.Saved(limits, T.RecordAll(limits, identify, events));
    T.SavedWithin(limits, identify, events);
    forall i | 0 <= i < |transitions| ensures |transitions[i].from| <= T.MAX_TEXT && |transitions[i].to'| <= T.MAX_TEXT {
      assert T.Settled(identify, transitions[i]);
    }
  }

  lemma {:induction false} NothingLogged(limits: Limits)
    ensures Logged(limits, [])
  {
    var identify: T.Identify := (e: TransitionEvent) => 0;
    assert [] == T.Saved(limits, T.RecordAll(limits, identify, []));
  }

  /** What a save collects from the observatory, within the range of the original's integers. */
  ghost predicate Savable(limits: Limits, s: Observatory, v: Contents) {
    Collects(SavedOf(v), s) && Logged(limits, v.transitions) && Representable.Held(v)
  }

  lemma {:induction false} CollectedFits(cfg: Config, s: Observatory, v: Contents)
    requires Restorable(cfg, s) && Savable(cfg.policy.limits, s, v) && Decodable(cfg.policy)
    ensures Fits(cfg.policy, v)
  {
    LoggedShort(cfg.policy.limits, v.transitions);
    LinksWithin(cfg.policy, s.registry, v.links);
    SourcesWithin(cfg.policy, s.registry, v.sources);
    SlotsWithin(cfg.policy, s.store, v.slots);
    StreamsWithin(cfg.policy, s.store, v.streams);
  }

  /**
   End to end, for every run of records and every digest function: under a decodable policy the
   snapshot an observatory writes loads back in full, restoring it succeeds, and the restarted
   observatory then processes any further records exactly as the original would have.
   */
  lemma {:induction false} SnapshotRestarts(cfg: Config, sha: Hasher, recs: seq<Record>, v: Contents, later: seq<Record>, next: Record)
    requires Savable(cfg.policy.limits, Process(cfg, EMPTY_OBSERVATORY, recs), v) && Decodable(cfg.policy)
    requires |PayloadOf(cfg.policy, v)| < TWO_64 && Encode(cfg.policy, sha, v).Some?
    ensures LoadOnce(cfg.policy, sha, Encode(cfg.policy, sha, v)) == Loaded(v)
    ensures
      var s, back := Process(cfg, EMPTY_OBSERVATORY, recs), RestoreFrom(cfg, SavedOf(v));
      && back.Some?
      && Alike(Process(cfg, s, later), Process(cfg, back.value, later))
      && RecordAnswer(cfg, Process(cfg, s, later), next) == RecordAnswer(cfg, Process(cfg, back.value, later), next)
  {
    HeldLoadsIff(cfg.policy, sha, v);
    RunRestorable(cfg, recs);
    CollectedFits(cfg, Process(cfg, EMPTY_OBSERVATORY, recs), v);
    ObservatoryRestarts(cfg, recs, SavedOf(v), later, next);
  }

  /** A write that exists loads in full exactly when its contents are within the decoder's bounds. */
  lemma {:induction false} HeldLoadsIff(policy: Policy, sha: Hasher, v: Contents)
    requires Representable.Held(v) && |PayloadOf(policy, v)| < TWO_64
    requires Encode(policy, sha, v).Some?
    ensures LoadOnce(policy, sha, Encode(policy, sha, v)) == if Fits(policy, v) then Loaded(v) else Refused(CorruptData)
  {
    Representable.TypedIff(policy, v);
    WrittenLoadsIff(policy, sha, v);
  }

  /** The write is within the policy's size limit, and its size within the original's integers. */
  predicate Writable(policy: Policy, v: Contents) {
    |PayloadOf(policy, v)| <= policy.limits.maxSnapshotBytes && |PayloadOf(policy, v)| < TWO_64
  }

  lemma WritableEncodes(policy: Policy, sha: Hasher, v: Contents)
    requires Writable(policy, v)
    ensures |PayloadOf(policy, v)| < TWO_64 && Encode(policy, sha, v).Some?
  {
  }

  /** Written without complaint and refused on load. */
  predicate Lost(policy: Policy, sha: Hasher, v: Contents) {
    Encode(policy, sha, v).Some? && LoadOnce(policy, sha, Encode(policy, sha, v)) == Refused(CorruptData)
  }

  /** Contents with a slot that outgrows the decoder's bounds are lost. */
  lemma {:induction false} OutgrownSlotIsLost(policy: Policy, sha: Hasher, v: Contents, i: nat)
    requires i < |v.slots| && !C.SlotFits(v.slots[i])
    requires Representable.Held(v) && Writable(policy, v)
    ensures Lost(policy, sha, v)
  {
    WritableEncodes(policy, sha, v);
    HeldLoadsIff(policy, sha, v);
    OutgrownSlotsDoNotFit(MaxSlots(policy), v.slots, i);
  }

  /** The contents are what a save collects after the run, and the write is not refused for its size. */
  ghost predicate SavedAfter(cfg: Config, recs: seq<Record>, v: Contents) {
    Savable(cfg.policy.limits, Process(cfg, EMPTY_OBSERVATORY, recs), v) && Writable(cfg.policy, v)
  }

  /** Whatever is counted to be within the size limit is written. */
  lemma {:induction false} CountedIsWritable(policy: Policy, v: Contents)
    requires SnapshotBytes(v) <= policy.limits.maxSnapshotBytes && SnapshotBytes(v) < TWO_64
    ensures Writable(policy, v)
  {
    PayloadWithin(policy, v);
  }

  lemma OutgrownSlotsDoNotFit(bound: nat, slots: seq<PersistedSlot>, i: nat)
    requires i < |slots| && !C.SlotFits(slots[i])
    ensures !SlotsFit(bound, slots)
  {
  }

  /** What a reader gets from the bytes of one file. */
  function ContentsIn(policy: Policy, sha: Hasher, raw: seq<Byte>): Option<Contents> {
    match LoadOnce(policy, sha, Some(raw))
    case Loaded(v) => Some(v)
    case Refused(_) => Option.None
  }

  lemma {:induction false} WrittenIsRead(policy: Policy, sha: Hasher, v: Contents)
    requires Fits(policy, v) && Representable.Held(v) && |PayloadOf(policy, v)| < TWO_64
    requires Encode(policy, sha, v).Some?
    ensures ContentsIn(policy, sha, Encode(policy, sha, v).value) == Some(v)
  {
    HeldLoadsIff(policy, sha, v);
  }

  /**
   Crash safety of real containers: however a write of contents within the bounds is cut short, a
   read returns the earlier contents or these in full.
   */
  lemma {:induction false} ContentsSurviveCrash(policy: Policy, sha: Hasher, was: Disk<seq<Byte>>, steps: seq<CrashSafety.Step<seq<Byte>>>, v: Contents)
    requires Fits(policy, v) && Representable.Held(v) && |PayloadOf(policy, v)| < TWO_64
    requires Encode(policy, sha, v).Some?
    requires Safe(was, raw => ContentsIn(policy, sha, raw)) && Attempt(was, steps)
    ensures
      var load := raw => ContentsIn(policy, sha, raw);
      var d := PerformAll(was, steps, Encode(policy, sha, v).value);
      Safe(d, load) && Read(d, load) in {Read(was, load), Some(v)} && (PhaseOf(steps) == Done ==> Read(d, load) == Some(v))
  {
    WrittenIsRead(policy, sha, v);
    var load := raw => ContentsIn(policy, sha, raw);
    CrashIsSafe(was, steps, Encode(policy, sha, v).value, load);
  }
}
