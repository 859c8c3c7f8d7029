/**
 Concurrent ingest into the observatory itself. Once links are declared and their observations carry
 the declared generation, what the registry tells the store about an observation no longer depends on
 when it is applied, so the promise of include/linkobs/runtime/worker.hpp:1-12 holds of the store.
 */
module DeclaredLinks {
  import opened Domain
  import opened StoreSpec
  import opened Retirement
  import opened StoreConservation
  import opened StoreConfluence
  import opened RegistrySpec
  import opened ObservatorySpec
  import opened ObservatoryRuns
  import opened StagedRuns
  import opened IngestOrder
  import L = LateFences

  /** The link is known under the very generation the observation carries, and the context says so. */
  predicate Declared(cfg: Config, r: Registry, c: Call) {
    var o := c.observation;
    && o.link in r.links && GenerationsOf(r, o.link).hasGeneration && GenerationsOf(r, o.link).current == o.provenance.generation
    && c.context == ContextOf(cfg, r, o)
  }

  function RecordOf(text: LinkId -> string, c: Call): Record { Observed(c.observation, text(c.observation.link), c.now) }

  function RecordsOf(text: LinkId -> string, calls: seq<Call>): seq<Record> {
    if calls == [] then [] else RecordsOf(text, calls[..|calls| - 1]) + [RecordOf(text, calls[|calls| - 1])]
  }

  lemma {:induction false} RecordsGrow(text: LinkId -> string, calls: seq<Call>, c: Call)
    ensures RecordsOf(text, calls + [c]) == RecordsOf(text, calls) + [RecordOf(text, c)]
    ensures RecordsOf(text, calls + [c])[..|RecordsOf(text, calls + [c])| - 1] == RecordsOf(text, calls)
  {
    assert (calls + [c])[..|calls|] == calls;
  }

  /** The registries differ at most in what links have accepted and fenced. */
  ghost predicate SameDeclarations(r: Registry, next: Registry) {
    && next.sources == r.sources && next.links.Keys == r.links.Keys
    && forall id | id in r.links :: next.links[id].generations == r.links[id].generations
  }

  lemma {:induction false} DeclaredStays(cfg: Config, r: Registry, next: Registry, c: Call)
    requires SameDeclarations(r, next) && Declared(cfg, r, c)
    ensures Declared(cfg, next, c)
  {
  }

  lemma {:induction false} CurrentStays(r: Registry, id: LinkId, g: GenerationId)
    requires id in r.links && r.links[id].generations.hasGeneration && r.links[id].generations.current == g
    ensures ObserveGeneration(r, id, g) == r
  {
  }

  lemma {:induction false} NotesStay(r: Registry, id: LinkId, at: TimePoint, now: TimePoint)
    ensures SameDeclarations(r, NoteAccepted(r, id, at, now)) && SameDeclarations(r, NoteFenced(r, id))
  {
  }

  /** An observation of a declared link makes exactly its call, and moves no generation. */
  lemma {:induction false} DeclaredStep(cfg: Config, s: Observatory, text: string, c: Call)
    requires Declared(cfg, s.registry, c)
    ensures
      var next := ApplyObservation(cfg, s, c.observation, text, c.now);
      next.store == StoreSpec.Apply(cfg.policy, s.store, c) && SameDeclarations(s.registry, next.registry)
  {
    var r, o := s.registry, c.observation;
    CurrentStays(r, o.link, o.provenance.generation);
    NotesStay(r, o.link, o.observedAt, c.now);
  }

  lemma {:induction false} DeclaredRun(cfg: Config, s: Observatory, text: LinkId -> string, calls: seq<Call>)
    requires forall i | 0 <= i < |calls| :: Declared(cfg, s.registry, calls[i])
    ensures
      var next := Process(cfg, s, RecordsOf(text, calls));
      next.store == Run(cfg.policy, s.store, calls) && SameDeclarations(s.registry, next.registry)
  {
    if calls != [] {
      var n := |calls| - 1;
      var before := Process(cfg, s, RecordsOf(text, calls[..n]));
      DeclaredRun(cfg, s, text, calls[..n]);
      DeclaredStays(cfg, s.registry, before.registry, calls[n]);
      DeclaredStep(cfg, before, text(calls[n].observation.link), calls[n]);
      RecordsGrow(text, calls[..n], calls[n]);
      assert calls[..n] + [calls[n]] == calls;
    }
  }

  /**
   From any observatory: two complete sessions with the same input leave the same store, whatever the
   number of workers, the routing, the queue capacity and the interleaving of each, when the links are
   declared, sources write disjoint slots and the slot bound has room. The records pass through the
   registry; nothing is assumed of what it will say when they do.
   */
  lemma {:induction false} WorkerCountLeavesEvidence(cfg: Config, s: Observatory, text: LinkId -> string, a: Session, b: Session, submitters: nat, owner: SourceId -> nat)
    requires a.Complete(submitters, owner) && b.Complete(submitters, owner) && SameInput(a, b, submitters, owner)
    requires
      var xs := CallsIn(a.End(submitters).value.applied);
      && DisjointWriters(xs) && |s.store.slots.Keys + KeysOf(xs)| <= MaxSlots(cfg.policy)
      && forall c | c in xs :: Declared(cfg, s.registry, c)
    ensures Process(cfg, s, RecordsOf(text, CallsIn(a.End(submitters).value.applied))).store
         == Process(cfg, s, RecordsOf(text, CallsIn(b.End(submitters).value.applied))).store
  {
    var xs, ys := CallsIn(a.End(submitters).value.applied), CallsIn(b.End(submitters).value.applied);
    SameOrdersOf(a, b, submitters, owner);
    forall c | c in ys ensures Declared(cfg, s.registry, c) {
      SameMembers(xs, ys, c);
    }
    DeclaredRun(cfg, s, text, xs);
    DeclaredRun(cfg, s, text, ys);
    Confluent(cfg.policy, s.store, xs, ys);
  }

  lemma {:induction false} SameOrdersOf(a: Session, b: Session, submitters: nat, owner: SourceId -> nat)
    requires a.Complete(submitters, owner) && b.Complete(submitters, owner) && SameInput(a, b, submitters, owner)
    ensures SameOrders(CallsIn(a.End(submitters).value.applied), CallsIn(b.End(submitters).value.applied))
  {
    var xs, ys := CallsIn(a.End(submitters).value.applied), CallsIn(b.End(submitters).value.applied);
    forall source: SourceId ensures OfSource(xs, source) == OfSource(ys, source) {
      CompleteApplies(a, submitters, owner, source);
      CompleteApplies(b, submitters, owner, source);
    }
  }

  // ---------------------------------------------------------------------------
  // Two observations of one link
  // ---------------------------------------------------------------------------

  /** A trusted observation of a known link, under a generation that is not retained. */
  predicate Offerable(cfg: Config, r: Registry, o: Observation) {
    var g := GenerationsOf(r, o.link);
    Trusted(cfg, r, o) && o.link in r.links && g.hasGeneration && o.provenance.generation !in g.retired
  }

  /** The call it makes of the store, whatever generation was current before. */
  function CallFor(r: Registry, o: Observation, now: TimePoint): Call {
    Call(o, AcceptContext(ObservatorySpec.SourceOf(r, o.provenance.source), o.provenance.generation, true), now)
  }

  lemma {:induction false} OfferedAs(cfg: Config, s: Observatory, o: Observation, text: string, now: TimePoint)
    requires Offerable(cfg, s.registry, o)
    ensures
      var next := ApplyObservation(cfg, s, o, text, now);
      && next.store == StoreSpec.Apply(cfg.policy, s.store, CallFor(s.registry, o, now))
      && next.registry.sources == s.registry.sources && o.link in next.registry.links
      && GenerationsOf(next.registry, o.link) == Advance(GenerationsOf(s.registry, o.link), o.provenance.generation)
  {
    var r := ObserveGeneration(s.registry, o.link, o.provenance.generation);
    ObservedIsCurrent(s.registry, o.link, o.provenance.generation);
    NotesKeepGenerations(r, o.link, o.observedAt, now);
    assert ContextOf(cfg, r, o) == CallFor(s.registry, o, now).context;
  }

  lemma {:induction false} BehindIsFenced(cfg: Config, s: Observatory, o: Observation, text: string, now: TimePoint)
    requires Trusted(cfg, s.registry, o) && o.link in s.registry.links
    requires
      var g := GenerationsOf(s.registry, o.link);
      g.hasGeneration && g.current != o.provenance.generation && o.provenance.generation in g.retired
    ensures ApplyObservation(cfg, s, o, text, now).store == s.store
  {
  }

  lemma {:induction false} AdvanceRetires(g: GenerationState, a: GenerationId, b: GenerationId)
    requires g.hasGeneration && a !in g.retired && b !in g.retired
    ensures
      var next := Advance(g, a);
      next.hasGeneration && next.current == a && (b in next.retired <==> b == g.current && a != g.current)
  {
    if a != g.current {
      var kept := KeepLast(g.retired + [g.current], MAX_RETIRED_GENERATIONS);
      assert kept[|kept| - 1] == g.current;
      assert forall i | 0 <= i < |kept| :: kept[i] in g.retired + [g.current];
    }
  }

  /** The second of the two reaches the store, unless it carries the generation the first one superseded. */
  lemma {:induction false} OneThenOther(cfg: Config, s: Observatory, a: Observation, b: Observation, text: string, at: TimePoint, at': TimePoint)
    requires Offerable(cfg, s.registry, a) && Offerable(cfg, s.registry, b) && a.link == b.link
    ensures
      var current := CurrentGeneration(s.registry, a.link);
      var first := StoreSpec.Apply(cfg.policy, s.store, CallFor(s.registry, a, at));
      ApplyObservation(cfg, ApplyObservation(cfg, s, a, text, at), b, text, at').store
      == if b.provenance.generation == current && a.provenance.generation != current then first
         else StoreSpec.Apply(cfg.policy, first, CallFor(s.registry, b, at'))
  {
    var one := ApplyObservation(cfg, s, a, text, at);
    OfferedAs(cfg, s, a, text, at);
    AdvanceRetires(GenerationsOf(s.registry, a.link), a.provenance.generation, b.provenance.generation);
    if b.provenance.generation in GenerationsOf(one.registry, a.link).retired {
      BehindIsFenced(cfg, one, b, text, at');
    } else {
      OfferedAs(cfg, one, b, text, at');
    }
  }

  /** Every call is counted by the store, accepted or not. */
  lemma {:induction false} CallIsCounted(policy: Policy, st: StoreState, c: Call)
    ensures
      var next := StoreSpec.Apply(policy, st, c);
      next.totalAccepted + next.totalFenced == st.totalAccepted + st.totalFenced + 1
  {
    ApplyCounts(policy, st, c, StoreFull);
  }

  /**
   Two trusted observations of one known link, of different sources and slots with room for both, and
   under generations that are not retained: applied in either order they leave the same store exactly
   when both carry the link's current generation or neither does.
   */
  lemma {:induction false} OrdersAgreeIff(cfg: Config, s: Observatory, keys: set<SlotKey>, a: Observation, b: Observation, text: string, at: TimePoint, at': TimePoint)
    requires Offerable(cfg, s.registry, a) && Offerable(cfg, s.registry, b) && a.link == b.link
    requires a.provenance.source != b.provenance.source && SlotKeyOf(a) != SlotKeyOf(b)
    requires Roomy(cfg.policy, s.store, keys) && SlotKeyOf(a) in keys && SlotKeyOf(b) in keys
    ensures
      var current := CurrentGeneration(s.registry, a.link);
      ApplyObservation(cfg, ApplyObservation(cfg, s, a, text, at), b, text, at').store
      == ApplyObservation(cfg, ApplyObservation(cfg, s, b, text, at'), a, text, at).store
      <==> (a.provenance.generation == current <==> b.provenance.generation == current)
  {
    var c, d := CallFor(s.registry, a, at), CallFor(s.registry, b, at');
    var afterC, afterD := StoreSpec.Apply(cfg.policy, s.store, c), StoreSpec.Apply(cfg.policy, s.store, d);
    OneThenOther(cfg, s, a, b, text, at, at');
    OneThenOther(cfg, s, b, a, text, at', at);
    CallsCommute(cfg.policy, s.store, keys, c, d);
    CallIsCounted(cfg.policy, s.store, c);
    CallIsCounted(cfg.policy, s.store, d);
    CallIsCounted(cfg.policy, afterC, d);
    CallIsCounted(cfg.policy, afterD, c);
  }

  // ---------------------------------------------------------------------------
  // A run in which they differ
  // ---------------------------------------------------------------------------

  /** A source's first reading of a counter of the link, under a generation. */
  function ReadAs(source: SourceRecord, key: MetricKey, generation: GenerationId): Observation {
    Observation(9, Provenance(source.id, 1, 1, generation, 1), L.LINK, key, Counter(CounterReading(1, Bits64, false)), 10, 10)
  }

  const AHEAD: Observation := ReadAs(L.CHIEF, L.INBOUND, 2)
  const BEHIND: Observation := ReadAs(L.DEPUTY, L.OUTBOUND, 1)

  /** Both sources are registered, and the link under generation 1. */
  predicate Ready(cfg: Config, s: Observatory) {
    && Octets in cfg.families && cfg.policy.limits.maxLinks > 0
    && s.registry.sources == map[L.CHIEF.id := L.CHIEF, L.DEPUTY.id := L.DEPUTY]
    && L.LINK in s.registry.links && s.registry.links[L.LINK].generations == GenerationState(1, true, [], 0)
  }

  lemma {:induction false} FirstAdmitted(o: Observation)
    ensures Admit(NEW_STREAM, o).fence == FenceReason.None
  {
  }

  lemma {:induction false} FirstUnfenced(policy: Policy, slots: map<SlotKey, Slot>, o: Observation, authority: SourceAuthority)
    requires SlotKeyOf(o) !in slots && |slots| < MaxSlots(policy)
    ensures LateFence(policy, slots, o, authority) == FenceReason.None
  {
  }

  lemma KeysPut<K, V>(m: map<K, V>, next: map<K, V>, k: K, v: V)
    requires next == m[k := v]
    ensures next.Keys == m.Keys + {k}
  {
  }

  /** A source's first observation is accepted when its slot is new and there is room. */
  lemma {:induction false} FirstAccepted(policy: Policy, st: StoreState, c: Call)
    requires EntryFence(policy, c.observation, c.context) == FenceReason.None
    requires StreamOf(st, c.Source()) == NEW_STREAM && c.Key() !in st.slots && |st.slots| < MaxSlots(policy)
    ensures
      var next := StoreSpec.Apply(policy, st, c);
      && Answer(policy, st, c).accepted && next.slots.Keys == st.slots.Keys + {c.Key()} && next.streams.Keys == st.streams.Keys + {c.Source()}
  {
    FirstAdmitted(c.observation);
    FirstUnfenced(policy, st.slots, c.observation, c.context.source.value.authority);
    L.Recording(policy, st, c);
    var next := StoreSpec.Apply(policy, st, c);
    KeysPut(st.slots, next.slots, c.Key(), next.slots[c.Key()]);
    KeysPut(st.streams, next.streams, c.Source(), next.streams[c.Source()]);
  }

  lemma {:induction false} BothOffered(cfg: Config, s: Observatory, o: Observation)
    requires Ready(cfg, s) && o in {AHEAD, BEHIND}
    ensures Offerable(cfg, s.registry, o) && EntryFence(cfg.policy, o, CallFor(s.registry, o, 10).context) == FenceReason.None
  {
  }

  lemma {:induction false} IntoEmpty(policy: Policy, c: Call)
    requires EntryFence(policy, c.observation, c.context) == FenceReason.None && policy.limits.maxLinks > 0
    ensures
      var next := StoreSpec.Apply(policy, EMPTY_STORE, c);
      next.slots.Keys == {c.Key()} && next.streams.Keys == {c.Source()}
  {
    FirstAccepted(policy, EMPTY_STORE, c);
  }

  lemma {:induction false} BesideOne(policy: Policy, st: StoreState, c: Call, key: SlotKey, source: SourceId)
    requires EntryFence(policy, c.observation, c.context) == FenceReason.None && policy.limits.maxLinks > 0
    requires st.slots.Keys == {key} && st.streams.Keys == {source} && c.Key() != key && c.Source() != source
    ensures StoreSpec.Apply(policy, st, c).slots.Keys == {c.Key(), key}
  {
    assert |st.slots| == |st.slots.Keys|;
    FirstAccepted(policy, st, c);
  }

  lemma {:induction false} TwoOrders(cfg: Config, s: Observatory)
    requires Ready(cfg, s) && s.store == EMPTY_STORE
    ensures
      var ahead, behind := ApplyObservation(cfg, s, AHEAD, "link", 10), ApplyObservation(cfg, s, BEHIND, "link", 10);
      && ApplyObservation(cfg, ahead, BEHIND, "link", 10).store.slots.Keys == {SlotKeyOf(AHEAD)}
      && ApplyObservation(cfg, behind, AHEAD, "link", 10).store.slots.Keys == {SlotKeyOf(AHEAD), SlotKeyOf(BEHIND)}
  {
    var c, d := CallFor(s.registry, AHEAD, 10), CallFor(s.registry, BEHIND, 10);
    BothOffered(cfg, s, AHEAD);
    BothOffered(cfg, s, BEHIND);
    OneThenOther(cfg, s, AHEAD, BEHIND, "link", 10, 10);
    OneThenOther(cfg, s, BEHIND, AHEAD, "link", 10, 10);
    IntoEmpty(cfg.policy, c);
    IntoEmpty(cfg.policy, d);
    BesideOne(cfg.policy, StoreSpec.Apply(cfg.policy, EMPTY_STORE, d), c, d.Key(), d.Source());
  }

  const DECLARED: seq<Record> := [SourceRecorded(L.CHIEF), SourceRecorded(L.DEPUTY), LinkRecorded(L.LINE, 0)]

  lemma {:induction false} DeclarationsDone(cfg: Config)
    requires Octets in cfg.families && cfg.policy.limits.maxLinks > 0 && cfg.policy.limits.maxSources > 1
    ensures
      var s := ApplyLink(cfg, ApplySource(cfg, ApplySource(cfg, EMPTY_OBSERVATORY, L.CHIEF), L.DEPUTY), L.LINE, 0);
      Ready(cfg, s) && s.store == EMPTY_STORE
  {
  }

  lemma {:induction false} DeclarationsProcessed(cfg: Config)
    ensures Process(cfg, EMPTY_OBSERVATORY, DECLARED)
         == ApplyLink(cfg, ApplySource(cfg, ApplySource(cfg, EMPTY_OBSERVATORY, L.CHIEF), L.DEPUTY), L.LINE, 0)
  {
    ProcessIsFold(cfg, EMPTY_OBSERVATORY, DECLARED);
    var step := Stepper(cfg);
    assert DECLARED[..2] == [DECLARED[0], DECLARED[1]] && DECLARED[..2][..1] == [DECLARED[0]] && [DECLARED[0]][..0] == [];
    var one := step(EMPTY_OBSERVATORY, DECLARED[0]);
    assert Fold(step, EMPTY_OBSERVATORY, [DECLARED[0]]) == one;
    assert Fold(step, EMPTY_OBSERVATORY, DECLARED[..2]) == step(one, DECLARED[1]);
    SourceApplied(cfg, EMPTY_OBSERVATORY, DECLARED[0]);
    SourceApplied(cfg, one, DECLARED[1]);
    LinkApplied(cfg, step(one, DECLARED[1]), DECLARED[2]);
  }

  lemma {:induction false} ThenTwo(cfg: Config, recs: seq<Record>, a: Observation, b: Observation)
    ensures
      var s := Process(cfg, EMPTY_OBSERVATORY, recs);
      Process(cfg, EMPTY_OBSERVATORY, recs + [Observed(a, "link", 10), Observed(b, "link", 10)])
      == ApplyObservation(cfg, ApplyObservation(cfg, s, a, "link", 10), b, "link", 10)
  {
    var all := recs + [Observed(a, "link", 10), Observed(b, "link", 10)];
    var first := recs + [Observed(a, "link", 10)];
    assert all[..|all| - 1] == first && first[..|first| - 1] == recs;
  }

  /**
   Where a link's generation moves while its observations are applied, the promise fails. After two
   sources and the link are declared, each source makes one observation, of its own counter: under
   generation 2 and under the declared generation 1. If the first is applied first the other is
   refused; the other way round both are accepted.
   */
  lemma {:induction false} OrderMattersAcrossGenerations(cfg: Config)
    requires Octets in cfg.families && cfg.policy.limits.maxLinks > 0 && cfg.policy.limits.maxSources > 1
    ensures AHEAD.provenance.source != BEHIND.provenance.source && SlotKeyOf(AHEAD) != SlotKeyOf(BEHIND)
    ensures
      var ahead, behind := Observed(AHEAD, "link", 10), Observed(BEHIND, "link", 10);
      && Process(cfg, EMPTY_OBSERVATORY, DECLARED + [ahead, behind]).store.slots.Keys == {SlotKeyOf(AHEAD)}
      && Process(cfg, EMPTY_OBSERVATORY, DECLARED + [behind, ahead]).store.slots.Keys == {SlotKeyOf(AHEAD), SlotKeyOf(BEHIND)}
  {
    var s := Process(cfg, EMPTY_OBSERVATORY, DECLARED);
    DeclarationsProcessed(cfg);
    DeclarationsDone(cfg);
    ThenTwo(cfg, DECLARED, AHEAD, BEHIND);
    ThenTwo(cfg, DECLARED, BEHIND, AHEAD);
    TwoOrders(cfg, s);
  }
}
