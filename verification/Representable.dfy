/**
 What the original's machine types can hold of a snapshot: counts and lengths below 2^64 and strings of
 bytes. It says of whole contents what `typed` says of their encoding.
 */
module Representable {
  import opened Checked
  import opened Domain
  import F = Format
  import opened CounterTracker
  import opened StoreSpec
  import opened StoreRestart
  import opened RegistrySpec
  import C = Codec
  import opened Snapshot

  predicate Wide(n: nat) { n < TWO_64 }
  predicate HeldText(s: string) { F.Narrow(s) && Wide(|s|) }

  predicate HeldSample(s: Option<CounterSample>) { s.Some? ==> Wide(s.value.gapEpoch) }
  predicate HeldContinuity(c: CounterContinuity) {
    HeldSample(c.latest) && HeldSample(c.previous) && Wide(c.resetCount) && Wide(c.wrapCount) && Wide(c.gapCount)
  }
  predicate HeldSlot(s: PersistedSlot) {
    && Wide(|s.history|) && Wide(|s.continuity|) && (forall source | source in s.continuity :: HeldContinuity(s.continuity[source]))
    && Wide(s.accepted) && Wide(s.fenced) && Wide(s.resetCount) && Wide(s.wrapCount)
  }
  predicate HeldStream(s: PersistedStream) {
    && Wide(|s.state.retiredScopes|) && Wide(s.state.accepted) && Wide(s.state.fenced) && Wide(s.state.gapCount)
    && Wide(s.state.scopeChanges)
  }
  predicate HeldLink(l: PersistedLink) {
    && HeldText(l.facts.name) && HeldText(l.entry.facts.name) && Wide(l.entry.accepted) && Wide(l.entry.fenced)
    && Wide(|l.generations.retired|) && Wide(l.generations.changes)
  }
  predicate HeldSource(s: SourceRecord) { HeldText(s.name) }
  predicate HeldEvent(e: TransitionEvent) { HeldText(e.from) && HeldText(e.to') }
  predicate HeldTotals(t: Totals) {
    Wide(t.accepted) && Wide(t.fenced) && Wide(t.duplicates) && Wide(t.gaps) && Wide(t.resets) && Wide(t.wraps)
  }

  predicate HeldLinks(vs: seq<PersistedLink>) { Wide(|vs|) && forall i | 0 <= i < |vs| :: HeldLink(vs[i]) }
  predicate HeldSources(vs: seq<SourceRecord>) { Wide(|vs|) && forall i | 0 <= i < |vs| :: HeldSource(vs[i]) }
  predicate HeldSlots(vs: seq<PersistedSlot>) { Wide(|vs|) && forall i | 0 <= i < |vs| :: HeldSlot(vs[i]) }
  predicate HeldStreams(vs: seq<PersistedStream>) { Wide(|vs|) && forall i | 0 <= i < |vs| :: HeldStream(vs[i]) }
  predicate HeldEvents(vs: seq<TransitionEvent>) { Wide(|vs|) && forall i | 0 <= i < |vs| :: HeldEvent(vs[i]) }

  /** Contents the original can hold. */
  predicate Held(v: Contents) {
    && HeldLinks(v.links) && HeldSources(v.sources) && HeldSlots(v.slots) && HeldStreams(v.streams) && HeldEvents(v.transitions)
    && HeldTotals(v.totals) && Wide(v.dropped)
  }

  // ---------------------------------------------------------------------------
  // Combinators
  // ---------------------------------------------------------------------------

  lemma PairTyped<A, B>(a: F.Format<A>, b: F.Format<B>, v: (A, B))
    ensures F.Pair(a, b).typed(v) <==> a.typed(v.0) && b.typed(v.1)
  {
  }

  lemma TripleTyped<A, B, C>(a: F.Format<A>, b: F.Format<B>, c: F.Format<C>, v: (A, (B, C)))
    ensures F.Triple(a, b, c).typed(v) <==> a.typed(v.0) && b.typed(v.1.0) && c.typed(v.1.1)
  {
    PairTyped(b, c, v.1);
    PairTyped(a, F.Pair(b, c), v);
  }

  lemma QuadTyped<A, B, C, D>(a: F.Format<A>, b: F.Format<B>, c: F.Format<C>, d: F.Format<D>, v: (A, (B, (C, D))))
    ensures F.Quad(a, b, c, d).typed(v) <==> a.typed(v.0) && b.typed(v.1.0) && c.typed(v.1.1.0) && d.typed(v.1.1.1)
  {
    TripleTyped(b, c, d, v.1);
    PairTyped(a, F.Triple(b, c, d), v);
  }

  lemma ViewTyped<A, B>(f: F.Format<A>, make: A -> B, take: B -> A, v: B)
    ensures F.View(f, make, take).typed(v) <==> f.typed(take(v))
  {
  }

  lemma ListTyped<T(!new)>(f: F.Format<T>, bound: nat, vs: seq<T>)
    ensures F.List(f, bound).typed(vs) <==> Wide(|vs|) && forall i | 0 <= i < |vs| :: f.typed(vs[i])
  {
  }

  lemma TextTyped(s: string)
    ensures F.Text(C.MAX_STRING).typed(s) <==> HeldText(s)
  {
  }

  // ---------------------------------------------------------------------------
  // Each record
  // ---------------------------------------------------------------------------

  lemma Hashes(h: Hash128)
    ensures C.Hash().typed(h)
  {
  }

  lemma Scopes(s: SequenceScope)
    ensures C.Scope().typed(s)
  {
  }

  lemma Origins(p: Provenance)
    ensures C.Origin().typed(p)
  {
  }

  lemma Observations(o: Observation)
    ensures C.Observed().typed(o)
  {
    Origins(o.provenance);
  }

  lemma Evidences(e: Evidence)
    ensures C.Held().typed(e)
  {
    Observations(e.observation);
  }

  lemma Samples(s: CounterSample)
    ensures C.Sample().typed(s) <==> Wide(s.gapEpoch)
  {
    var p := C.TakeSample(s);
    ViewTyped(C.SampleFields(), C.MakeSample, C.TakeSample, s);
    PairTyped(F.Quad(C.Reading(), C.Instant(), C.Instant(), C.Word()), F.Triple(C.Scope(), C.Hash(), C.Counter()), p);
    QuadTyped(C.Reading(), C.Instant(), C.Instant(), C.Word(), p.0);
    TripleTyped(C.Scope(), C.Hash(), C.Counter(), p.1);
  }

  lemma Continuities(c: CounterContinuity)
    ensures C.Continuity().typed(c) <==> HeldContinuity(c)
  {
    var p := C.TakeContinuity(c);
    ViewTyped(C.ContinuityFields(), C.MakeContinuity, C.TakeContinuity, c);
    PairTyped(F.Quad(C.Sample(), C.Sample(), F.Bool(), F.Bool()), F.Quad(C.Enum(C.DISCONTINUITIES), C.Counter(), C.Counter(), C.Counter()), p);
    QuadTyped(C.Sample(), C.Sample(), F.Bool(), F.Bool(), p.0);
    QuadTyped(C.Enum(C.DISCONTINUITIES), C.Counter(), C.Counter(), C.Counter(), p.1);
    Samples(p.0.0);
    Samples(p.0.1.0);
  }

  lemma {:induction false} EntriesAre<V>(m: map<SourceId, V>)
    ensures forall i | 0 <= i < |C.Entries(m)| :: C.Entries(m)[i].0 in m && C.Entries(m)[i].1 == m[C.Entries(m)[i].0]
    ensures forall k | k in m :: exists i :: 0 <= i < |C.Entries(m)| && C.Entries(m)[i] == (k, m[k])
    decreases |m|
  {
    if m != map[] {
      var k := C.FirstKey(m);
      C.RemoveOne(m, k);
      EntriesAre(m - {k});
      var es, rest := C.Entries(m), C.Entries(m - {k});
      assert es == [(k, m[k])] + rest;
      forall j | j in m ensures exists i :: 0 <= i < |es| && es[i] == (j, m[j]) {
        if j == k {
          assert es[0] == (j, m[j]);
        } else {
          assert j in m - {k};
          var i :| 0 <= i < |rest| && rest[i] == (j, (m - {k})[j]);
          assert es[i + 1] == (j, m[j]);
        }
      }
    }
  }

  lemma IndexEntries(e: (SourceId, CounterContinuity))
    ensures C.IndexEntry().typed(e) <==> HeldContinuity(e.1)
  {
    PairTyped(C.Hash(), C.Continuity(), e);
    Continuities(e.1);
  }

  lemma {:induction false} Indices(m: C.ContinuityIndex)
    ensures C.Index().typed(m) <==> Wide(|m|) && forall source | source in m :: HeldContinuity(m[source])
  {
    var es := C.Entries(m);
    ViewTyped(F.List(C.IndexEntry(), C.MAX_SOURCES), C.MakeIndex, C.TakeIndex, m);
    ListTyped(C.IndexEntry(), C.MAX_SOURCES, es);
    forall i | 0 <= i < |es| ensures C.IndexEntry().typed(es[i]) <==> HeldContinuity(es[i].1) {
      IndexEntries(es[i]);
    }
    EachEntry(m, es);
  }

  lemma {:induction false} EachEntry(m: C.ContinuityIndex, es: seq<(SourceId, CounterContinuity)>)
    requires es == C.Entries(m)
    ensures (forall i | 0 <= i < |es| :: HeldContinuity(es[i].1)) <==> (forall source | source in m :: HeldContinuity(m[source]))
  {
    EntriesAre(m);
    if forall i | 0 <= i < |es| :: HeldContinuity(es[i].1) {
      forall source | source in m ensures HeldContinuity(m[source]) {
        var i :| 0 <= i < |es| && es[i] == (source, m[source]);
        assert HeldContinuity(es[i].1);
      }
    }
  }

  lemma {:induction false} Histories(es: seq<Evidence>)
    ensures F.List(C.Held(), C.MAX_EVIDENCE).typed(es) <==> Wide(|es|)
  {
    ListTyped(C.Held(), C.MAX_EVIDENCE, es);
    forall i | 0 <= i < |es| ensures C.Held().typed(es[i]) { Evidences(es[i]); }
  }

  lemma {:induction false} SlotHeads(s: PersistedSlot)
    ensures
      C.SlotHead().typed(C.TakeSlot(s).0) <==>
        Wide(|s.history|) && Wide(|s.continuity|) && forall source | source in s.continuity :: HeldContinuity(s.continuity[source])
  {
    TripleTyped(C.SlotId(), F.List(C.Held(), C.MAX_EVIDENCE), C.Index(), C.TakeSlot(s).0);
    Histories(s.history);
    Indices(s.continuity);
  }

  lemma SlotTails(s: PersistedSlot)
    ensures C.SlotTail().typed(C.TakeSlot(s).1) <==> Wide(s.accepted) && Wide(s.fenced) && Wide(s.resetCount) && Wide(s.wrapCount)
  {
    var p := C.TakeSlot(s).1;
    TripleTyped(C.TwoCounters(), F.Pair(C.Instant(), F.Bool()), C.TwoCounters(), p);
    PairTyped(C.Counter(), C.Counter(), p.0);
    PairTyped(C.Counter(), C.Counter(), p.1.1);
  }

  lemma {:induction false} SlotRecords(s: PersistedSlot)
    ensures C.SlotRecord().typed(s) <==> HeldSlot(s)
  {
    ViewTyped(C.SlotFields(), C.MakeSlot, C.TakeSlot, s);
    PairTyped(C.SlotHead(), C.SlotTail(), C.TakeSlot(s));
    SlotHeads(s);
    SlotTails(s);
  }

  lemma FourCounters(v: C.Four<nat>)
    ensures C.FourCounters().typed(v) <==> Wide(v.0) && Wide(v.1.0) && Wide(v.1.1.0) && Wide(v.1.1.1)
  {
    QuadTyped(C.Counter(), C.Counter(), C.Counter(), C.Counter(), v);
  }

  lemma {:induction false} StreamRecords(s: PersistedStream)
    ensures C.StreamRecord().typed(s) <==> HeldStream(s)
  {
    var scopes, p := s.state.retiredScopes, C.TakeStream(s.state);
    ViewTyped(F.Pair(C.Hash(), C.Stream()), C.MakeStreamRecord, C.TakeStreamRecord, s);
    PairTyped(C.Hash(), C.Stream(), C.TakeStreamRecord(s));
    ViewTyped(C.StreamFields(), C.MakeStream, C.TakeStream, s.state);
    TripleTyped(C.StreamHead(), C.StreamMiddle(), C.FourCounters(), p);
    QuadTyped(F.Bool(), C.Scope(), F.Bool(), C.Word(), p.0);
    TripleTyped(C.Hash(), F.Bool(), F.List(C.Scope(), C.MAX_RETIRED), p.1.0);
    ListTyped(C.Scope(), C.MAX_RETIRED, scopes);
    forall i | 0 <= i < |scopes| ensures C.Scope().typed(scopes[i]) { Scopes(scopes[i]); }
    FourCounters(p.1.1);
  }

  lemma Names(v: (Hash128, string))
    ensures C.Named().typed(v) <==> HeldText(v.1)
  {
    PairTyped(C.Hash(), F.Text(C.MAX_STRING), v);
    TextTyped(v.1);
  }

  lemma LinkFactsOf(f: LinkFacts)
    ensures C.Facts().typed(f) <==> HeldText(f.name)
  {
    var p := C.TakeFacts(f);
    ViewTyped(C.FactsFields(), C.MakeFacts, C.TakeFacts, f);
    QuadTyped(C.Named(), C.Anchors(), F.Pair(C.Enum(KINDS), C.Hash()), C.Capacity(), p);
    Names(p.0);
    QuadTyped(C.Hash(), C.Hash(), C.Hash(), C.Hash(), p.1.0);
    QuadTyped(F.Bool(), C.Word(), C.Word(), C.Enum(PROVENANCES), p.1.1.1);
  }

  lemma Generations(g: GenerationState)
    ensures C.Generations().typed(g) <==> Wide(|g.retired|) && Wide(g.changes)
  {
    ViewTyped(C.GenerationFields(), C.MakeGenerations, C.TakeGenerations, g);
    QuadTyped(C.Hash(), F.Bool(), F.List(C.Hash(), C.MAX_RETIRED), C.Counter(), C.TakeGenerations(g));
    ListTyped(C.Hash(), C.MAX_RETIRED, g.retired);
    forall i | 0 <= i < |g.retired| ensures C.Hash().typed(g.retired[i]) { Hashes(g.retired[i]); }
  }

  lemma LinkEntries(e: LinkEntry)
    ensures C.Entry().typed(e) <==> HeldText(e.facts.name) && Wide(e.accepted) && Wide(e.fenced)
  {
    var p := C.TakeEntry(e);
    ViewTyped(C.EntryFields(), C.MakeEntry, C.TakeEntry, e);
    QuadTyped(C.Facts(), C.ThreeInstants(), C.TwoCounters(), F.Pair(F.Bool(), F.Bool()), p);
    LinkFactsOf(e.facts);
    TripleTyped(C.Instant(), C.Instant(), C.Instant(), p.1.0);
    PairTyped(C.Counter(), C.Counter(), p.1.1.0);
  }

  lemma {:induction false} LinkRecords(l: PersistedLink)
    ensures C.Link().typed(l) <==> HeldLink(l)
  {
    ViewTyped(F.Triple(C.Facts(), C.Entry(), C.Generations()), C.MakeLink, C.TakeLink, l);
    TripleTyped(C.Facts(), C.Entry(), C.Generations(), C.TakeLink(l));
    LinkFactsOf(l.facts);
    LinkEntries(l.entry);
    Generations(l.generations);
  }

  lemma SourceRecords(s: SourceRecord)
    ensures C.Source().typed(s) <==> HeldSource(s)
  {
    var p := C.TakeSource(s);
    ViewTyped(C.SourceFields(), C.MakeSource, C.TakeSource, s);
    PairTyped(C.Named(), F.Quad(C.Enum(AUTHORITIES), C.Enum(PROVENANCES), F.Bool(), F.Bool()), p);
    QuadTyped(C.Enum(AUTHORITIES), C.Enum(PROVENANCES), F.Bool(), F.Bool(), p.1);
    Names(p.0);
  }

  lemma EventRecords(e: TransitionEvent)
    ensures C.Event().typed(e) <==> HeldEvent(e)
  {
    var p := C.TakeEvent(e);
    ViewTyped(C.EventFields(), C.MakeEvent, C.TakeEvent, e);
    PairTyped(C.EventHead(), C.EventTail(), p);
    QuadTyped(C.Hash(), C.Hash(), C.Enum(C.TRANSITIONS), C.Instant(), p.0);
    QuadTyped(F.Pair(C.Hash(), C.Hash()), F.Text(C.MAX_STRING), F.Text(C.MAX_STRING), C.Word(), p.1);
    TextTyped(e.from);
    TextTyped(e.to');
  }

  // ---------------------------------------------------------------------------
  // Whole contents
  // ---------------------------------------------------------------------------

  lemma {:induction false} AllLinks(bound: nat, vs: seq<PersistedLink>)
    ensures Links(bound).typed(vs) <==> HeldLinks(vs)
  {
    ListTyped(C.Link(), bound, vs);
    forall i | 0 <= i < |vs| ensures C.Link().typed(vs[i]) <==> HeldLink(vs[i]) { LinkRecords(vs[i]); }
  }

  lemma {:induction false} AllSources(bound: nat, vs: seq<SourceRecord>)
    ensures Sources(bound).typed(vs) <==> HeldSources(vs)
  {
    ListTyped(C.Source(), bound, vs);
    forall i | 0 <= i < |vs| ensures C.Source().typed(vs[i]) <==> HeldSource(vs[i]) { SourceRecords(vs[i]); }
  }

  lemma {:induction false} AllSlots(bound: nat, vs: seq<PersistedSlot>)
    ensures Slots(bound).typed(vs) <==> HeldSlots(vs)
  {
    ListTyped(C.SlotRecord(), bound, vs);
    forall i | 0 <= i < |vs| ensures C.SlotRecord().typed(vs[i]) <==> HeldSlot(vs[i]) { SlotRecords(vs[i]); }
  }

  lemma {:induction false} AllStreams(bound: nat, vs: seq<PersistedStream>)
    ensures Streams(bound).typed(vs) <==> HeldStreams(vs)
  {
    ListTyped(C.StreamRecord(), bound, vs);
    forall i | 0 <= i < |vs| ensures C.StreamRecord().typed(vs[i]) <==> HeldStream(vs[i]) { StreamRecords(vs[i]); }
  }

  lemma {:induction false} AllEvents(bound: nat, vs: seq<TransitionEvent>)
    ensures Events(bound).typed(vs) <==> HeldEvents(vs)
  {
    ListTyped(C.Event(), bound, vs);
    forall i | 0 <= i < |vs| ensures C.Event().typed(vs[i]) <==> HeldEvent(vs[i]) { EventRecords(vs[i]); }
  }

  lemma {:induction false} AllLists(policy: Policy, p: Lists)
    ensures ListFields(policy).typed(p) <==>
      HeldLinks(p.0) && HeldSources(p.1.0) && HeldSlots(p.1.1.0) && HeldStreams(p.1.1.1.0) && HeldEvents(p.1.1.1.1)
  {
    var limits := policy.limits;
    QuadTyped(Links(limits.maxLinks), Sources(limits.maxSources), Slots(MaxSlots(policy)), LastLists(policy), p);
    PairTyped(Streams(limits.maxSources), Events(limits.maxTotalTransitions), p.1.1.1);
    AllLinks(limits.maxLinks, p.0);
    AllSources(limits.maxSources, p.1.0);
    AllSlots(MaxSlots(policy), p.1.1.0);
    AllStreams(limits.maxSources, p.1.1.1.0);
    AllEvents(limits.maxTotalTransitions, p.1.1.1.1);
  }

  lemma AllCounters(p: Counters)
    ensures CounterFields().typed(p) <==>
      Wide(p.0.0) && Wide(p.0.1.0) && Wide(p.0.1.1.0) && Wide(p.0.1.1.1) && Wide(p.1.0) && Wide(p.1.1.0) && Wide(p.1.1.1)
  {
    PairTyped(C.FourCounters(), F.Triple(C.Counter(), C.Counter(), C.Counter()), p);
    FourCounters(p.0);
    TripleTyped(C.Counter(), C.Counter(), C.Counter(), p.1);
  }

  lemma Prologues(p: Prologue)
    ensures PrologueFields().typed(p)
  {
    QuadTyped(C.Hash(), C.Hash(), C.Instant(), C.Word(), p);
  }

  /** The encoding's own condition on contents is that the original can hold them. */
  lemma {:induction false} TypedIff(policy: Policy, v: Contents)
    ensures Body(policy).typed(v) <==> Held(v)
  {
    var p := TakeContents(v);
    ViewTyped(BodyFields(policy), MakeContents, TakeContents, v);
    TripleTyped(PrologueFields(), ListFields(policy), CounterFields(), p);
    Prologues(p.0);
    AllLists(policy, p.1.0);
    AllCounters(p.1.1);
  }
}
