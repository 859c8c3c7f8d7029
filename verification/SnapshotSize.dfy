/**
 How many bytes a snapshot takes. Every record has a fixed size but for its names and lists, so the
 payload is bounded by a linear function of the lengths of what is saved (src/persist/codec.cpp:175-687).
 */
module SnapshotSize {
  import opened Domain
  import opened Bytes
  import F = Format
  import opened StoreSpec
  import opened StoreRestart
  import opened RegistrySpec
  import C = Codec
  import opened Snapshot

  // ---------------------------------------------------------------------------
  // Combinators
  // ---------------------------------------------------------------------------

  /** No value takes more bytes. */
  ghost predicate Within<T(!new)>(f: F.Format<T>, n: nat) { forall v :: |f.enc(v)| <= n }

  lemma {:induction false} PairWithin<A(!new), B(!new)>(a: F.Format<A>, b: F.Format<B>, m: nat, n: nat)
    requires Within(a, m) && Within(b, n)
    ensures Within(F.Pair(a, b), m + n)
  {
    forall v ensures |F.Pair(a, b).enc(v)| <= m + n {
      PairSize(a, b, v);
    }
  }

  lemma PairSize<A, B>(a: F.Format<A>, b: F.Format<B>, v: (A, B))
    ensures |F.Pair(a, b).enc(v)| == |a.enc(v.0)| + |b.enc(v.1)|
  {
  }

  lemma TripleSize<A, B, D>(a: F.Format<A>, b: F.Format<B>, d: F.Format<D>, v: (A, (B, D)))
    ensures |F.Triple(a, b, d).enc(v)| == |a.enc(v.0)| + |b.enc(v.1.0)| + |d.enc(v.1.1)|
  {
    PairSize(b, d, v.1);
    PairSize(a, F.Pair(b, d), v);
  }

  lemma QuadSize<A, B, D, E>(a: F.Format<A>, b: F.Format<B>, d: F.Format<D>, e: F.Format<E>, v: (A, (B, (D, E))))
    ensures |F.Quad(a, b, d, e).enc(v)| == |a.enc(v.0)| + |b.enc(v.1.0)| + |d.enc(v.1.1.0)| + |e.enc(v.1.1.1)|
  {
    TripleSize(b, d, e, v.1);
    PairSize(a, F.Triple(b, d, e), v);
  }

  lemma ViewSize<A, B>(f: F.Format<A>, make: A -> B, take: B -> A, v: B)
    ensures |F.View(f, make, take).enc(v)| == |f.enc(take(v))|
  {
  }

  lemma {:induction false} TripleWithin<A(!new), B(!new), D(!new)>(a: F.Format<A>, b: F.Format<B>, d: F.Format<D>, m: nat, n: nat, o: nat)
    requires Within(a, m) && Within(b, n) && Within(d, o)
    ensures Within(F.Triple(a, b, d), m + n + o)
  {
    PairWithin(b, d, n, o);
    PairWithin(a, F.Pair(b, d), m, n + o);
  }

  lemma {:induction false} QuadWithin<A(!new), B(!new), D(!new), E(!new)>(
      a: F.Format<A>, b: F.Format<B>, d: F.Format<D>, e: F.Format<E>, m: nat, n: nat, o: nat, p: nat)
    requires Within(a, m) && Within(b, n) && Within(d, o) && Within(e, p)
    ensures Within(F.Quad(a, b, d, e), m + n + o + p)
  {
    TripleWithin(b, d, e, n, o, p);
    PairWithin(a, F.Triple(b, d, e), m, n + o + p);
  }

  lemma {:induction false} ViewWithin<A(!new), B(!new)>(f: F.Format<A>, make: A -> B, take: B -> A, n: nat)
    requires Within(f, n)
    ensures Within(F.View(f, make, take), n)
  {
  }

  /** No value takes more bytes than the function says. */
  ghost predicate Sized<T(!new)>(f: F.Format<T>, size: T -> nat) { forall v :: |f.enc(v)| <= size(v) }

  function TotalBytes<T>(size: T -> nat, vs: seq<T>): nat {
    if vs == [] then 0 else size(vs[0]) + TotalBytes(size, vs[1..])
  }

  lemma {:induction false} TotalAtMost<T>(size: T -> nat, vs: seq<T>, n: nat)
    requires forall i | 0 <= i < |vs| :: size(vs[i]) <= n
    ensures TotalBytes(size, vs) <= n * |vs|
    decreases |vs|
  {
    if vs != [] {
      TotalAtMost(size, vs[1..], n);
      assert n * |vs| == n * |vs[1..]| + n;
    }
  }

  lemma {:induction false} EachSize<T(!new)>(f: F.Format<T>, vs: seq<T>, size: T -> nat)
    requires Sized(f, size)
    ensures |F.EncodeEach(f, vs)| <= TotalBytes(size, vs)
    decreases |vs|
  {
    if vs != [] {
      EachSize(f, vs[1..], size);
    }
  }

  lemma {:induction false} ListSize<T(!new)>(f: F.Format<T>, bound: nat, vs: seq<T>, size: T -> nat)
    requires Sized(f, size)
    ensures |F.List(f, bound).enc(vs)| <= 8 + TotalBytes(size, vs)
  {
    EachSize(f, vs, size);
  }

  /** A list of records none of which takes more than n bytes. */
  lemma {:induction false} EvenListSize<T(!new)>(f: F.Format<T>, bound: nat, vs: seq<T>, n: nat)
    requires Within(f, n)
    ensures |F.List(f, bound).enc(vs)| <= 8 + n * |vs|
  {
    var size := (v: T) => n;
    ListSize(f, bound, vs, size);
    TotalAtMost(size, vs, n);
  }

  // ---------------------------------------------------------------------------
  // Records
  // ---------------------------------------------------------------------------

  lemma {:induction false} SmallSizes()
    ensures Within(C.Word(), 8) && Within(C.Counter(), 8) && Within(C.Instant(), 8) && Within(C.Hash(), 16) && Within(F.Bool(), 1)
  {
    ViewWithin(C.Word(), Signed, Unsigned, 8);
    PairWithin(C.Word(), C.Word(), 8, 8);
    ViewWithin(F.Pair(C.Word(), C.Word()), C.JoinHash, C.SplitHash, 16);
  }

  lemma {:induction false} PlainSizes()
    ensures Within(C.Scope(), 48) && Within(C.Key(), 3) && Within(C.Reading(), 10) && Within(C.Origin(), 72)
  {
    SmallSizes();
    TripleWithin(C.Hash(), C.Hash(), C.Hash(), 16, 16, 16);
    ViewWithin(F.Pair(C.Hash(), F.Pair(C.Hash(), C.Hash())), C.MakeScope, C.TakeScope, 48);
    TripleWithin(C.Enum(FAMILIES), C.Enum(DIRECTIONS), C.Enum(ERROR_CLASSES), 1, 1, 1);
    ViewWithin(F.Pair(C.Enum(FAMILIES), F.Pair(C.Enum(DIRECTIONS), C.Enum(ERROR_CLASSES))), C.MakeKey, C.TakeKey, 3);
    TripleWithin(C.Word(), C.Enum(C.WIDTHS), F.Bool(), 8, 1, 1);
    ViewWithin(F.Pair(C.Word(), F.Pair(C.Enum(C.WIDTHS), F.Bool())), C.MakeReading, C.TakeReading, 10);
    QuadWithin(C.Hash(), C.Hash(), C.Hash(), C.Hash(), 16, 16, 16, 16);
    PairWithin(F.Quad(C.Hash(), C.Hash(), C.Hash(), C.Hash()), C.Word(), 64, 8);
    ViewWithin(F.Pair(F.Quad(C.Hash(), C.Hash(), C.Hash(), C.Hash()), C.Word()), C.MakeProvenance, C.TakeProvenance, 72);
  }

  lemma {:induction false} PayloadSize()
    ensures Within(C.Payload(), 17)
  {
    SmallSizes();
    PlainSizes();
    PairWithin(C.Word(), F.Bool(), 8, 1);
    PairWithin(C.Word(), C.Instant(), 8, 8);
    forall v: MetricPayload ensures |C.EncodePayload(v)| <= 17 {
      assert |C.EncodeBody(v)| <= 16;
    }
  }

  /** A piece of evidence takes at most 150 bytes. */
  lemma {:induction false} EvidenceSize()
    ensures Within(C.Held(), 150)
  {
    SmallSizes();
    PlainSizes();
    PayloadSize();
    QuadWithin(C.Hash(), C.Origin(), C.Hash(), C.Key(), 16, 72, 16, 3);
    TripleWithin(C.Payload(), C.Instant(), C.Instant(), 17, 8, 8);
    PairWithin(F.Quad(C.Hash(), C.Origin(), C.Hash(), C.Key()), F.Triple(C.Payload(), C.Instant(), C.Instant()), 107, 33);
    ViewWithin(C.ObservationFields(), C.MakeObservation, C.TakeObservation, 140);
    QuadWithin(C.Observed(), C.Instant(), C.Enum(AUTHORITIES), C.Enum(PROVENANCES), 140, 8, 1, 1);
    ViewWithin(C.EvidenceFields(), C.MakeEvidence, C.TakeEvidence, 150);
  }

  /** A source's continuity record, with its identity, takes at most 255 bytes. */
  lemma {:induction false} ContinuitySize()
    ensures Within(C.IndexEntry(), 255)
  {
    SmallSizes();
    PlainSizes();
    QuadWithin(C.Reading(), C.Instant(), C.Instant(), C.Word(), 10, 8, 8, 8);
    TripleWithin(C.Scope(), C.Hash(), C.Counter(), 48, 16, 8);
    PairWithin(F.Quad(C.Reading(), C.Instant(), C.Instant(), C.Word()), F.Triple(C.Scope(), C.Hash(), C.Counter()), 34, 72);
    ViewWithin(C.SampleFields(), C.MakeSample, C.TakeSample, 106);
    QuadWithin(C.Sample(), C.Sample(), F.Bool(), F.Bool(), 106, 106, 1, 1);
    QuadWithin(C.Enum(C.DISCONTINUITIES), C.Counter(), C.Counter(), C.Counter(), 1, 8, 8, 8);
    PairWithin(F.Quad(C.Sample(), C.Sample(), F.Bool(), F.Bool()),
               F.Quad(C.Enum(C.DISCONTINUITIES), C.Counter(), C.Counter(), C.Counter()), 214, 25);
    ViewWithin(C.ContinuityFields(), C.MakeContinuity, C.TakeContinuity, 239);
    PairWithin(C.Hash(), C.Continuity(), 16, 239);
  }

  // At most so many bytes for a record.
  function SlotBytes(s: PersistedSlot): nat { 76 + 150 * |s.history| + 255 * |s.continuity| }
  function StreamBytes(s: PersistedStream): nat { 131 + 48 * |s.state.retiredScopes| }
  function SourceBytes(s: SourceRecord): nat { 28 + |s.name| }
  function LinkBytes(l: PersistedLink): nat { 321 + |l.facts.name| + |l.entry.facts.name| + 16 * |l.generations.retired| }
  function EventBytes(e: TransitionEvent): nat { 97 + |e.from| + |e.to'| }

  lemma {:induction false} SlotHeadSize(s: PersistedSlot)
    ensures |C.SlotHead().enc(C.TakeSlot(s).0)| <= 35 + 150 * |s.history| + 255 * |s.continuity|
  {
    var p := C.TakeSlot(s).0;
    PlainSizes();
    SmallSizes();
    EvidenceSize();
    ContinuitySize();
    TripleSize(C.SlotId(), F.List(C.Held(), C.MAX_EVIDENCE), C.Index(), p);
    PairSize(C.Hash(), C.Key(), p.0);
    EvenListSize(C.Held(), C.MAX_EVIDENCE, s.history, 150);
    ViewSize(F.List(C.IndexEntry(), C.MAX_SOURCES), C.MakeIndex, C.TakeIndex, s.continuity);
    EvenListSize(C.IndexEntry(), C.MAX_SOURCES, C.Entries(s.continuity), 255);
  }

  lemma {:induction false} SlotTailSize()
    ensures Within(C.SlotTail(), 41)
  {
    SmallSizes();
    PairWithin(C.Counter(), C.Counter(), 8, 8);
    PairWithin(C.Instant(), F.Bool(), 8, 1);
    TripleWithin(C.TwoCounters(), F.Pair(C.Instant(), F.Bool()), C.TwoCounters(), 16, 9, 16);
  }

  lemma {:induction false} SlotSize(s: PersistedSlot)
    ensures |C.SlotRecord().enc(s)| <= SlotBytes(s)
  {
    ViewSize(C.SlotFields(), C.MakeSlot, C.TakeSlot, s);
    PairSize(C.SlotHead(), C.SlotTail(), C.TakeSlot(s));
    SlotHeadSize(s);
    SlotTailSize();
  }

  lemma {:induction false} StreamSize(s: PersistedStream)
    ensures |C.StreamRecord().enc(s)| <= StreamBytes(s)
  {
    var p := C.TakeStream(s.state);
    SmallSizes();
    PlainSizes();
    ViewSize(F.Pair(C.Hash(), C.Stream()), C.MakeStreamRecord, C.TakeStreamRecord, s);
    PairSize(C.Hash(), C.Stream(), C.TakeStreamRecord(s));
    ViewSize(C.StreamFields(), C.MakeStream, C.TakeStream, s.state);
    TripleSize(C.StreamHead(), C.StreamMiddle(), C.FourCounters(), p);
    QuadWithin(F.Bool(), C.Scope(), F.Bool(), C.Word(), 1, 48, 1, 8);
    TripleSize(C.Hash(), F.Bool(), F.List(C.Scope(), C.MAX_RETIRED), p.1.0);
    EvenListSize(C.Scope(), C.MAX_RETIRED, s.state.retiredScopes, 48);
    QuadWithin(C.Counter(), C.Counter(), C.Counter(), C.Counter(), 8, 8, 8, 8);
  }

  lemma {:induction false} NamedSize(v: (Hash128, string))
    ensures |C.Named().enc(v)| <= 24 + |v.1|
  {
    SmallSizes();
    PairSize(C.Hash(), F.Text(C.MAX_STRING), v);
  }

  lemma {:induction false} SourceSize(s: SourceRecord)
    ensures |C.Source().enc(s)| <= SourceBytes(s)
  {
    var p := C.TakeSource(s);
    SmallSizes();
    ViewSize(C.SourceFields(), C.MakeSource, C.TakeSource, s);
    PairSize(C.Named(), F.Quad(C.Enum(AUTHORITIES), C.Enum(PROVENANCES), F.Bool(), F.Bool()), p);
    NamedSize(p.0);
    QuadWithin(C.Enum(AUTHORITIES), C.Enum(PROVENANCES), F.Bool(), F.Bool(), 1, 1, 1, 1);
  }

  lemma {:induction false} FactsSize(f: LinkFacts)
    ensures |C.Facts().enc(f)| <= 123 + |f.name|
  {
    var p := C.TakeFacts(f);
    SmallSizes();
    ViewSize(C.FactsFields(), C.MakeFacts, C.TakeFacts, f);
    QuadSize(C.Named(), C.Anchors(), F.Pair(C.Enum(KINDS), C.Hash()), C.Capacity(), p);
    NamedSize(p.0);
    QuadWithin(C.Hash(), C.Hash(), C.Hash(), C.Hash(), 16, 16, 16, 16);
    PairWithin(C.Enum(KINDS), C.Hash(), 1, 16);
    QuadWithin(F.Bool(), C.Word(), C.Word(), C.Enum(PROVENANCES), 1, 8, 8, 1);
  }

  lemma {:induction false} LinkSize(l: PersistedLink)
    ensures |C.Link().enc(l)| <= LinkBytes(l)
  {
    var e, g := C.TakeEntry(l.entry), C.TakeGenerations(l.generations);
    SmallSizes();
    ViewSize(F.Triple(C.Facts(), C.Entry(), C.Generations()), C.MakeLink, C.TakeLink, l);
    TripleSize(C.Facts(), C.Entry(), C.Generations(), C.TakeLink(l));
    FactsSize(l.facts);
    FactsSize(l.entry.facts);
    ViewSize(C.EntryFields(), C.MakeEntry, C.TakeEntry, l.entry);
    QuadSize(C.Facts(), C.ThreeInstants(), C.TwoCounters(), F.Pair(F.Bool(), F.Bool()), e);
    TripleWithin(C.Instant(), C.Instant(), C.Instant(), 8, 8, 8);
    PairWithin(C.Counter(), C.Counter(), 8, 8);
    PairWithin(F.Bool(), F.Bool(), 1, 1);
    ViewSize(C.GenerationFields(), C.MakeGenerations, C.TakeGenerations, l.generations);
    QuadSize(C.Hash(), F.Bool(), F.List(C.Hash(), C.MAX_RETIRED), C.Counter(), g);
    EvenListSize(C.Hash(), C.MAX_RETIRED, l.generations.retired, 16);
  }

  lemma {:induction false} EventSize(e: TransitionEvent)
    ensures |C.Event().enc(e)| <= EventBytes(e)
  {
    var p := C.TakeEvent(e);
    SmallSizes();
    ViewSize(C.EventFields(), C.MakeEvent, C.TakeEvent, e);
    PairSize(C.EventHead(), C.EventTail(), p);
    QuadWithin(C.Hash(), C.Hash(), C.Enum(C.TRANSITIONS), C.Instant(), 16, 16, 1, 8);
    QuadSize(F.Pair(C.Hash(), C.Hash()), F.Text(C.MAX_STRING), F.Text(C.MAX_STRING), C.Word(), p.1);
    PairWithin(C.Hash(), C.Hash(), 16, 16);
  }

  // ---------------------------------------------------------------------------
  // The payload
  // ---------------------------------------------------------------------------

  /** At most so many bytes for everything saved. */
  function SnapshotBytes(v: Contents): nat {
    148 + TotalBytes(LinkBytes, v.links) + TotalBytes(SourceBytes, v.sources) + TotalBytes(SlotBytes, v.slots) + TotalBytes(StreamBytes, v.streams)
    + TotalBytes(EventBytes, v.transitions)
  }

  lemma {:induction false} LinkSizes()
    ensures Sized(C.Link(), LinkBytes)
  {
    forall l ensures |C.Link().enc(l)| <= LinkBytes(l) { LinkSize(l); }
  }

  lemma {:induction false} NamedSizes()
    ensures Sized(C.Source(), SourceBytes) && Sized(C.Event(), EventBytes)
  {
    forall s ensures |C.Source().enc(s)| <= SourceBytes(s) { SourceSize(s); }
    forall e ensures |C.Event().enc(e)| <= EventBytes(e) { EventSize(e); }
  }

  lemma {:induction false} StoreSizes()
    ensures Sized(C.SlotRecord(), SlotBytes) && Sized(C.StreamRecord(), StreamBytes)
  {
    forall s ensures |C.SlotRecord().enc(s)| <= SlotBytes(s) { SlotSize(s); }
    forall s ensures |C.StreamRecord().enc(s)| <= StreamBytes(s) { StreamSize(s); }
  }

  lemma {:induction false} ListsSize(policy: Policy, v: Contents)
    ensures |ListFields(policy).enc(TakeContents(v).1.0)| <= SnapshotBytes(v) - 108
  {
    var limits, p := policy.limits, TakeContents(v).1.0;
    LinkSizes();
    NamedSizes();
    StoreSizes();
    QuadSize(Links(limits.maxLinks), Sources(limits.maxSources), Slots(MaxSlots(policy)), LastLists(policy), p);
    PairSize(Streams(limits.maxSources), Events(limits.maxTotalTransitions), p.1.1.1);
    ListSize(C.Link(), limits.maxLinks, v.links, LinkBytes);
    ListSize(C.Source(), limits.maxSources, v.sources, SourceBytes);
    ListSize(C.SlotRecord(), MaxSlots(policy), v.slots, SlotBytes);
    ListSize(C.StreamRecord(), limits.maxSources, v.streams, StreamBytes);
    ListSize(C.Event(), limits.maxTotalTransitions, v.transitions, EventBytes);
  }

  lemma {:induction false} FixedSizes()
    ensures Within(PrologueFields(), 48) && Within(CounterFields(), 56)
  {
    SmallSizes();
    QuadWithin(C.Hash(), C.Hash(), C.Instant(), C.Word(), 16, 16, 8, 8);
    QuadWithin(C.Counter(), C.Counter(), C.Counter(), C.Counter(), 8, 8, 8, 8);
    TripleWithin(C.Counter(), C.Counter(), C.Counter(), 8, 8, 8);
    PairWithin(C.FourCounters(), F.Triple(C.Counter(), C.Counter(), C.Counter()), 32, 24);
  }

  /** The payload takes 148 bytes and those of its records. */
  lemma {:induction false} PayloadWithin(policy: Policy, v: Contents)
    ensures |PayloadOf(policy, v)| <= SnapshotBytes(v)
  {
    var p := TakeContents(v);
    FixedSizes();
    ListsSize(policy, v);
    ViewSize(BodyFields(policy), MakeContents, TakeContents, v);
    TripleSize(PrologueFields(), ListFields(policy), CounterFields(), p);
  }
}
