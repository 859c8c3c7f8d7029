/**
 The decoder's fixed bound on a slot's history, src/persist/codec.cpp:14 and 521-534, against the
 policy's own bound: a run that retains n pieces of evidence in one slot, and what becomes of its
 snapshot.
 */
module LongHistory {
  import opened Checked
  import opened Domain
  import opened StoreSpec
  import opened StoreReplay
  import opened StoreRestart
  import opened RegistrySpec
  import opened ObservatorySpec
  import opened ObservatoryRuns
  import opened ObservatoryRestart
  import opened StagedRuns
  import opened LateFences
  import opened RefusedGeneration
  import C = Codec
  import opened Snapshot
  import opened SnapshotSize
  import Representable
  import opened SnapshotRestart

  const OPER_SLOT: SlotKey := CallOf(NEWS).Key()
  const SCOPE: SequenceScope := CallOf(NEWS).Scope()

  /** What the slot retains of revisions 1 to n. */
  function History(n: nat): (h: seq<Evidence>)
    requires n < TWO_64
    ensures |h| == n
  {
    if n == 0 then [] else History(n - 1) + [EvidenceOf(Read(1, n), CHIEF, 10)]
  }

  function SlotAfter(n: nat): Slot
    requires n < TWO_64
  {
    Slot(OPER_SLOT.key, History(n), map[], n, 0, 0, false, 0, 0)
  }

  function StreamAfter(n: nat): StreamState
    requires 0 < n < TWO_64
  {
    StreamState(true, SCOPE, true, n, Read(1, n).id, false, [], n, 0, 0, 1)
  }

  /** The store after n accepted observations. */
  predicate Retains(st: StoreState, n: nat)
    requires n < TWO_64
  {
    && st.slots == (if n == 0 then map[] else map[OPER_SLOT := SlotAfter(n)])
    && st.streams == (if n == 0 then map[] else map[CHIEF.id := StreamAfter(n)])
    && TotalsOf(st) == Totals(n, 0, 0, 0, 0, 0)
  }

  function EntryAfter(n: nat): LinkEntry {
    if n == 0 then LinkEntry(LINE, 0, 0, 0, 0, 0, false, false) else LinkEntry(LINE, 0, 10, 10, n, 0, false, true)
  }

  /** The registry beside it. */
  predicate Knows(r: Registry, n: nat) {
    && r.sources == map[CHIEF.id := CHIEF]
    && r.links == map[LINK := LinkRecord(EntryAfter(n), GenerationState(1, true, [], 0))]
  }

  lemma {:induction false} ReadAdmitted(st: StoreState, k: nat)
    requires 0 < k < TWO_64 && Retains(st, k - 1)
    ensures
      var a := Admit(StreamOf(st, CHIEF.id), Read(1, k));
      && a.fence == FenceReason.None && !a.gap && !a.duplicate
      && a.stream.(hasSequence := true, lastSequence := k, lastObservation := Read(1, k).id, accepted := a.stream.accepted + 1)
         == StreamAfter(k)
  {
  }

  lemma {:induction false} NextUnfenced(policy: Policy, st: StoreState, k: nat)
    requires policy.limits.maxLinks > 0 && 0 < k < TWO_64 && Retains(st, k - 1)
    ensures EntryFence(policy, Read(1, k), CallOf(Read(1, k)).context) == FenceReason.None
    ensures LateFence(policy, st.slots, Read(1, k), Primary) == FenceReason.None
  {
    PrimaryNotOutranked(SlotOf(st, OPER_SLOT).history, Read(1, k));
  }

  lemma {:induction false} NextSlot(policy: Policy, st: StoreState, k: nat, gapEpoch: nat)
    requires 0 < k < TWO_64 && k <= policy.limits.maxEvidencePerKey && Retains(st, k - 1)
    ensures RecordIn(policy, SlotOf(st, OPER_SLOT), Read(1, k), CHIEF, 10, gapEpoch, false) == SlotAfter(k)
  {
  }

  lemma {:induction false} NextRetained(policy: Policy, st: StoreState, next: StoreState, k: nat)
    requires policy.limits.maxLinks > 0 && 0 < k < TWO_64 && k <= policy.limits.maxEvidencePerKey
    requires Retains(st, k - 1) && next == Apply(policy, st, CallOf(Read(1, k)))
    ensures Answer(policy, st, CallOf(Read(1, k))).accepted && Retains(next, k)
  {
    ReadAdmitted(st, k);
    NextUnfenced(policy, st, k);
    NextSlot(policy, st, k, Admit(StreamOf(st, CHIEF.id), Read(1, k)).stream.gapCount);
  }

  lemma {:induction false} ReadKnown(cfg: Config, r: Registry, k: nat)
    requires OperState in cfg.families && 0 < k < TWO_64 && Knows(r, k - 1)
    ensures Trusted(cfg, r, Read(1, k)) && ContextOf(cfg, r, Read(1, k)) == CallOf(Read(1, k)).context
    ensures LINK in r.links && GenerationsOf(r, LINK) == GenerationState(1, true, [], 0)
    ensures Knows(NoteAccepted(r, LINK, 10, 10), k)
  {
  }

  lemma {:induction false} NextKnown(cfg: Config, s: Observatory, next: Observatory, k: nat)
    requires OperState in cfg.families && 0 < k < TWO_64 && Knows(s.registry, k - 1)
    requires Answer(cfg.policy, s.store, CallOf(Read(1, k))).accepted && next == ApplyObservation(cfg, s, Read(1, k), "link", 10)
    ensures Knows(next.registry, k) && next.store == Apply(cfg.policy, s.store, CallOf(Read(1, k)))
  {
    ReadKnown(cfg, s.registry, k);
    CurrentIsOffered(cfg, s, Read(1, k), "link", 10);
    OfferAccepted(cfg, s, Read(1, k), 10, CallOf(Read(1, k)).context);
  }

  const DECLARATIONS: seq<Record> := [SourceRecorded(CHIEF), LinkRecorded(LINE, 0)]
  const REVISIONS: nat -> Record := (k: nat) => Observed(Read(1, if k < TWO_64 then k else 0), "link", 10)

  /** Declarations, then revisions 1 to n. */
  function LongRun(n: nat): seq<Record> { Extended(DECLARATIONS, REVISIONS, n) }

  lemma {:induction false} DeclaredState(cfg: Config)
    requires HasRoom(cfg)
    ensures
      var s := ApplyRecord(cfg, ApplyRecord(cfg, EMPTY_OBSERVATORY, SourceRecorded(CHIEF)), LinkRecorded(LINE, 0));
      Knows(s.registry, 0) && s.store == EMPTY_STORE
  {
  }

  lemma {:induction false} DeclarationRun(cfg: Config)
    ensures Fold(Stepper(cfg), EMPTY_OBSERVATORY, DECLARATIONS)
         == ApplyRecord(cfg, ApplyRecord(cfg, EMPTY_OBSERVATORY, SourceRecorded(CHIEF)), LinkRecorded(LINE, 0))
  {
    var step := Stepper(cfg);
    assert DECLARATIONS[..1] == [SourceRecorded(CHIEF)] && [SourceRecorded(CHIEF)][..0] == [];
    assert Fold(step, EMPTY_OBSERVATORY, DECLARATIONS[..1]) == step(EMPTY_OBSERVATORY, SourceRecorded(CHIEF));
  }

  predicate LongState(s: Observatory, n: nat)
    requires n < TWO_64
  {
    Knows(s.registry, n) && Retains(s.store, n)
  }

  const STATES: (nat, Observatory) -> bool := (k: nat, s: Observatory) => k < TWO_64 && LongState(s, k)

  lemma ReadingIs(k: nat)
    requires k < TWO_64
    ensures REVISIONS(k) == Observed(Read(1, k), "link", 10)
  {
  }

  lemma {:induction false} LongStateKept(cfg: Config, s: Observatory, next: Observatory, k: nat)
    requires HasRoom(cfg) && 0 < k < TWO_64 && k <= cfg.policy.limits.maxEvidencePerKey
    requires LongState(s, k - 1) && next == ApplyObservation(cfg, s, Read(1, k), "link", 10)
    ensures LongState(next, k)
  {
    NextRetained(cfg.policy, s.store, Apply(cfg.policy, s.store, CallOf(Read(1, k))), k);
    NextKnown(cfg, s, next, k);
  }

  lemma {:induction false} StatesKept(cfg: Config, s: Observatory, next: Observatory, k: nat)
    requires HasRoom(cfg) && 0 < k < TWO_64 && k <= cfg.policy.limits.maxEvidencePerKey
    requires STATES(k - 1, s) && next == Stepper(cfg)(s, REVISIONS(k))
    ensures STATES(k, next)
  {
    ReadingIs(k);
    ObservedApplied(cfg, s, REVISIONS(k));
    LongStateKept(cfg, s, next, k);
  }

  lemma {:induction false} StatesBegin(cfg: Config)
    requires HasRoom(cfg)
    ensures STATES(0, Fold(Stepper(cfg), EMPTY_OBSERVATORY, DECLARATIONS))
  {
    DeclarationRun(cfg);
    DeclaredState(cfg);
  }

  lemma {:induction false} StatesHold(cfg: Config, n: nat)
    requires HasRoom(cfg) && n < TWO_64 && n <= cfg.policy.limits.maxEvidencePerKey
    ensures STATES(n, Fold(Stepper(cfg), EMPTY_OBSERVATORY, LongRun(n)))
  {
    var step := Stepper(cfg);
    StatesBegin(cfg);
    forall k: nat, s | 0 < k <= n && STATES(k - 1, s) ensures STATES(k, step(s, REVISIONS(k))) {
      StatesKept(cfg, s, step(s, REVISIONS(k)), k);
    }
    Staged(step, EMPTY_OBSERVATORY, DECLARATIONS, REVISIONS, n, STATES);
  }

  /** Under any configuration with room, the run of n observations retains all n of them. */
  lemma {:induction false} LongRunRetains(cfg: Config, n: nat)
    requires HasRoom(cfg) && n < TWO_64 && n <= cfg.policy.limits.maxEvidencePerKey
    ensures LongState(Process(cfg, EMPTY_OBSERVATORY, LongRun(n)), n)
  {
    StatesHold(cfg, n);
    ProcessIsFold(cfg, EMPTY_OBSERVATORY, LongRun(n));
  }

  // ---------------------------------------------------------------------------
  // Its snapshot
  // ---------------------------------------------------------------------------

  /** What a save collects after the run. */
  function LongContents(n: nat): Contents
    requires 0 < n < TWO_64
  {
    Contents(1, 1, 10, 0, [FreezeLink(LinkRecord(EntryAfter(n), GenerationState(1, true, [], 0)))], [CHIEF],
             [Freeze(OPER_SLOT, SlotAfter(n))], [PersistedStream(CHIEF.id, StreamAfter(n))], [], Totals(n, 0, 0, 0, 0, 0), 0)
  }

  lemma {:induction false} OneLinkListed(l: LinkRecord)
    ensures ListsLinks([FreezeLink(l)], map[l.entry.facts.id := l])
  {
    assert [FreezeLink(l)][0].facts.id == l.entry.facts.id;
  }

  lemma {:induction false} OneSlotListed(key: SlotKey, slot: Slot)
    ensures ListsSlots([Freeze(key, slot)], map[key := slot])
  {
    assert [Freeze(key, slot)][0].slot == key;
  }

  lemma {:induction false} ContentsCollected(s: Observatory, n: nat)
    requires 0 < n < TWO_64 && LongState(s, n)
    ensures Collects(SavedOf(LongContents(n)), s)
  {
    OneLinkListed(LinkRecord(EntryAfter(n), GenerationState(1, true, [], 0)));
    OneSlotListed(OPER_SLOT, SlotAfter(n));
    var v := LongContents(n);
    assert ListsSources(v.sources, s.registry.sources) by { assert v.sources[0].id == CHIEF.id; }
    assert ListsStreams(v.streams, s.store.streams) by { assert v.streams[0].source == CHIEF.id; }
  }

  /** A save collects these contents after the run. */
  lemma {:induction false} LongStateSavable(limits: Limits, s: Observatory, n: nat)
    requires 0 < n < TWO_64 && LongState(s, n)
    ensures Savable(limits, s, LongContents(n))
  {
    ContentsCollected(s, n);
    NothingLogged(limits);
  }

  /** They take at most 150 bytes for each piece of evidence, and 717. */
  lemma {:induction false} LongBytes(n: nat)
    requires 0 < n < TWO_64
    ensures SnapshotBytes(LongContents(n)) <= 717 + 150 * n
  {
    var v := LongContents(n);
    TotalAtMost(LinkBytes, v.links, 329);
    TotalAtMost(SourceBytes, v.sources, 33);
    TotalAtMost(SlotBytes, v.slots, 76 + 150 * n);
    TotalAtMost(StreamBytes, v.streams, 131);
  }

  lemma LongSlot(n: nat) returns (i: nat)
    requires C.MAX_EVIDENCE < n < TWO_64
    ensures i < |LongContents(n).slots| && !C.SlotFits(LongContents(n).slots[i])
  {
    i := 0;
  }

  /**
   A policy that retains more than 1024 pieces of evidence per key, with room for 717 + 150 n bytes, has
   a run whose snapshot is collected, written and refused on load.
   */
  lemma {:induction false} LongRunIsLost(cfg: Config, sha: Hasher, n: nat)
    requires HasRoom(cfg) && C.MAX_EVIDENCE < n <= cfg.policy.limits.maxEvidencePerKey
    requires 717 + 150 * n <= cfg.policy.limits.maxSnapshotBytes && 717 + 150 * n < TWO_64
    ensures SavedAfter(cfg, LongRun(n), LongContents(n)) && Lost(cfg.policy, sha, LongContents(n))
  {
    LongRunRetains(cfg, n);
    LongStateSavable(cfg.policy.limits, Process(cfg, EMPTY_OBSERVATORY, LongRun(n)), n);
    LongBytes(n);
    var i := LongSlot(n);
    CountedIsWritable(cfg.policy, LongContents(n));
    OutgrownSlotIsLost(cfg.policy, sha, LongContents(n), i);
  }
}
