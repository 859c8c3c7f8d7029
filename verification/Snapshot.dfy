/**
 The snapshot container: what is written and what a load accepts
 (src/persist/snapshot.cpp:99-152 and 189-396). The digest is a parameter: any function to 32 bytes.
 */
module Snapshot {
  import opened Checked
  import opened Domain
  import opened Bytes
  import F = Format
  import opened StoreSpec
  import opened StoreRestart
  import opened RegistrySpec
  import C = Codec

  type Digest = s: seq<Byte> | |s| == 32 witness seq(32, _ => 0)
  type Hasher = seq<Byte> -> Digest

  const FORMAT_VERSION: nat := 1
  const MINIMUM_READER: nat := 1
  const HEADER_SIZE: nat := 88
  const HEADER_SLACK: nat := 128

  /** "LKOBSNAP". */
  const MAGIC: seq<Byte> := [76, 75, 79, 66, 83, 78, 65, 80]

  datatype Contents = Contents(
    runtime: Hash128, incarnation: Hash128, savedAt: TimePoint, acceptanceIndex: U64,
    links: seq<PersistedLink>, sources: seq<SourceRecord>, slots: seq<PersistedSlot>,
    streams: seq<PersistedStream>, transitions: seq<TransitionEvent>, totals: Totals, dropped: nat)

  datatype Result<T> = Loaded(contents: T) | Refused(status: Status)
  type LoadResult = Result<Contents>

  // ---------------------------------------------------------------------------
  // The payload
  // ---------------------------------------------------------------------------

  type Lists = (seq<PersistedLink>, (seq<SourceRecord>, (seq<PersistedSlot>, (seq<PersistedStream>, seq<TransitionEvent>))))
  type Prologue = (Hash128, (Hash128, (I64, U64)))
  type Counters = (C.Four<nat>, C.Three<nat>)
  type Parts = (Prologue, (Lists, Counters))

  function MakeContents(p: Parts): Contents {
    var (lists, counters) := p.1;
    Contents(p.0.0, p.0.1.0, p.0.1.1.0, p.0.1.1.1, lists.0, lists.1.0, lists.1.1.0, lists.1.1.1.0, lists.1.1.1.1,
             Totals(counters.0.0, counters.0.1.0, counters.0.1.1.0, counters.0.1.1.1, counters.1.0, counters.1.1.0),
             counters.1.1.1)
  }

  function TakeContents(v: Contents): Parts {
    ((v.runtime, (v.incarnation, (v.savedAt, v.acceptanceIndex))),
     ((v.links, (v.sources, (v.slots, (v.streams, v.transitions)))),
      ((v.totals.accepted, (v.totals.fenced, (v.totals.duplicates, v.totals.gaps))),
       (v.totals.resets, (v.totals.wraps, v.dropped)))))
  }

  function PrologueFields(): C.Codec<Prologue> { F.Quad(C.Hash(), C.Hash(), C.Instant(), C.Word()) }

  function Links(bound: nat): C.Codec<seq<PersistedLink>> { F.List(C.Link(), bound) }
  function Sources(bound: nat): C.Codec<seq<SourceRecord>> { F.List(C.Source(), bound) }
  function Slots(bound: nat): C.Codec<seq<PersistedSlot>> { F.List(C.SlotRecord(), bound) }
  function Streams(bound: nat): C.Codec<seq<PersistedStream>> { F.List(C.StreamRecord(), bound) }
  function Events(bound: nat): C.Codec<seq<TransitionEvent>> { F.List(C.Event(), bound) }

  function LastLists(policy: Policy): C.Codec<(seq<PersistedStream>, seq<TransitionEvent>)> {
    F.Pair(Streams(policy.limits.maxSources), Events(policy.limits.maxTotalTransitions))
  }

  function ListFields(policy: Policy): C.Codec<Lists> {
    F.Quad(Links(policy.limits.maxLinks), Sources(policy.limits.maxSources), Slots(MaxSlots(policy)), LastLists(policy))
  }

  function CounterFields(): C.Codec<Counters> {
    F.Pair(C.FourCounters(), F.Triple(C.Counter(), C.Counter(), C.Counter()))
  }

  function BodyFields(policy: Policy): C.Codec<Parts> { F.Triple(PrologueFields(), ListFields(policy), CounterFields()) }

  /** Everything after the inner version, bounded by the policy. */
  function Body(policy: Policy): C.Codec<Contents> { F.View(BodyFields(policy), MakeContents, TakeContents) }

  lemma {:induction false} LastListsExact(policy: Policy)
    ensures F.Exact(LastLists(policy))
  {
    C.StreamRecordExact();
    C.EventExact();
    F.ListExact(C.StreamRecord(), policy.limits.maxSources);
    F.ListExact(C.Event(), policy.limits.maxTotalTransitions);
    F.PairExact(Streams(policy.limits.maxSources), Events(policy.limits.maxTotalTransitions));
  }

  lemma {:induction false} ListFieldsExact(policy: Policy)
    ensures F.Exact(ListFields(policy))
  {
    var limits := policy.limits;
    C.LinkExact();
    C.SourceExact();
    C.SlotRecordExact();
    F.ListExact(C.Link(), limits.maxLinks);
    F.ListExact(C.Source(), limits.maxSources);
    F.ListExact(C.SlotRecord(), MaxSlots(policy));
    LastListsExact(policy);
    F.QuadExact(Links(limits.maxLinks), Sources(limits.maxSources), Slots(MaxSlots(policy)), LastLists(policy));
  }

  lemma {:induction false} PrologueExact()
    ensures F.Exact(PrologueFields()) && F.Unbounded(PrologueFields())
  {
    C.HashExact();
    C.InstantExact();
    C.WordExact();
    F.QuadExact(C.Hash(), C.Hash(), C.Instant(), C.Word());
  }

  lemma {:induction false} CountersExact()
    ensures F.Exact(CounterFields()) && F.Unbounded(CounterFields())
  {
    C.CounterExact();
    F.QuadExact(C.Counter(), C.Counter(), C.Counter(), C.Counter());
    F.TripleExact(C.Counter(), C.Counter(), C.Counter());
    F.PairExact(C.FourCounters(), F.Triple(C.Counter(), C.Counter(), C.Counter()));
  }

  lemma {:induction false} BodyExact(policy: Policy)
    ensures F.Exact(Body(policy))
  {
    PrologueExact();
    ListFieldsExact(policy);
    CountersExact();
    F.TripleExact(PrologueFields(), ListFields(policy), CounterFields());
    F.ViewExact(BodyFields(policy), MakeContents, TakeContents);
  }

  function PayloadOf(policy: Policy, v: Contents): seq<Byte> {
    LittleEndian(FORMAT_VERSION, 4) + Body(policy).enc(v)
  }

  /** The inner version, the body, and nothing after it. */
  function DecodePayload<T>(body: C.Codec<T>, s: seq<Byte>): Option<T> {
    match ReadInt(s, 4)
    case None => Option.None
    case Some((version, rest)) =>
      if version != FORMAT_VERSION then Option.None
      else match body.dec(rest)
        case None => Option.None
        case Some((v, trailing)) => if trailing == [] then Some(v) else Option.None
  }

  lemma {:induction false} PayloadDecodes<T(!new)>(body: C.Codec<T>, v: T)
    requires F.Exact(body) && body.typed(v)
    ensures DecodePayload(body, LittleEndian(FORMAT_VERSION, 4) + body.enc(v)) == if body.ok(v) then Some(v) else Option.None
  {
    Pow256Values();
    F.IntExact(4);
    F.ExactAt(F.Int(4), FORMAT_VERSION, body.enc(v));
    F.ExactAt(body, v, []);
    assert body.enc(v) + [] == body.enc(v);
  }

  // ---------------------------------------------------------------------------
  // The container
  // ---------------------------------------------------------------------------

  /** Magic, versions, payload size and payload digest: the 56 bytes the header digest covers. */
  function HeaderOf(sha: Hasher, payload: seq<Byte>): (h: seq<Byte>)
    ensures |h| == 56
  {
    MAGIC + LittleEndian(FORMAT_VERSION, 4) + LittleEndian(MINIMUM_READER, 4) + LittleEndian(|payload|, 8) + sha(payload)
  }

  function ContainerOf(sha: Hasher, payload: seq<Byte>): seq<Byte> {
    HeaderOf(sha, payload) + sha(HeaderOf(sha, payload)) + payload
  }

  /** The bytes a write produces, or a refusal of a payload over the bound. */
  function Encode(policy: Policy, sha: Hasher, v: Contents): Option<seq<Byte>> {
    var payload := PayloadOf(policy, v);
    if |payload| > policy.limits.maxSnapshotBytes then Option.None else Some(ContainerOf(sha, payload))
  }

  /** Why the bytes are not a sound container, if they are not. Checks run in the original's order. */
  function ContainerFault(policy: Policy, sha: Hasher, raw: seq<Byte>): Option<Status> {
    if |raw| > policy.limits.maxSnapshotBytes + HEADER_SLACK then Some(CapacityExceeded)
    else if |raw| < HEADER_SIZE then Some(CorruptData)
    else if raw[..8] != MAGIC then Some(CorruptData)
    else if sha(raw[..56]) != raw[56..88] then Some(CorruptData)
    else if FromLittle(raw[8..12]) != FORMAT_VERSION then Some(VersionMismatch)
    else if FromLittle(raw[12..16]) > FORMAT_VERSION then Some(VersionMismatch)
    else if FromLittle(raw[16..24]) > policy.limits.maxSnapshotBytes then Some(CapacityExceeded)
    else if FromLittle(raw[16..24]) != |raw| - HEADER_SIZE then Some(CorruptData)
    else if sha(raw[88..]) != raw[24..56] then Some(CorruptData)
    else Option.None
  }

  /** Loads one file; `None` is a file that cannot be opened. */
  function LoadAs<T>(policy: Policy, sha: Hasher, body: C.Codec<T>, file: Option<seq<Byte>>): Result<T> {
    match file
    case None => Refused(NotFound)
    case Some(raw) =>
      match ContainerFault(policy, sha, raw)
      case Some(status) => Refused(status)
      case None =>
        assert |raw| >= HEADER_SIZE;
        match DecodePayload(body, raw[HEADER_SIZE..])
        case None => Refused(CorruptData)
        case Some(v) => Loaded(v)
  }

  function LoadOnce(policy: Policy, sha: Hasher, file: Option<seq<Byte>>): LoadResult {
    LoadAs(policy, sha, Body(policy), file)
  }

  lemma SliceLeft<T>(a: seq<T>, b: seq<T>, i: nat, j: nat)
    requires i <= j <= |a|
    ensures (a + b)[i..j] == a[i..j]
  {
  }

  lemma SliceRight<T>(a: seq<T>, b: seq<T>)
    ensures (a + b)[|a|..|a| + |b|] == b && (a + b)[|a|..] == b
  {
  }

  lemma {:induction false} HeaderFields(sha: Hasher, payload: seq<Byte>)
    ensures
      var h := HeaderOf(sha, payload);
      && h[..8] == MAGIC && h[8..12] == LittleEndian(FORMAT_VERSION, 4) && h[12..16] == LittleEndian(MINIMUM_READER, 4)
      && h[16..24] == LittleEndian(|payload|, 8) && h[24..56] == sha(payload)
  {
    var version, reader, size, digest := LittleEndian(FORMAT_VERSION, 4), LittleEndian(MINIMUM_READER, 4), LittleEndian(|payload|, 8), sha(payload);
    HeaderSlices(MAGIC, version, reader, size, digest);
  }

  lemma {:induction false} HeaderSlices(a: seq<Byte>, b: seq<Byte>, c: seq<Byte>, d: seq<Byte>, e: seq<Byte>)
    requires |a| == 8 && |b| == 4 && |c| == 4 && |d| == 8 && |e| == 32
    ensures
      var h := a + b + c + d + e;
      h[..8] == a && h[8..12] == b && h[12..16] == c && h[16..24] == d && h[24..56] == e
  {
    SliceRight(a + b + c + d, e);
    SliceLeft(a + b + c + d, e, 16, 24);
    SliceRight(a + b + c, d);
    SliceLeft(a + b + c + d, e, 12, 16);
    SliceLeft(a + b + c, d, 12, 16);
    SliceRight(a + b, c);
    SliceLeft(a + b + c + d, e, 8, 12);
    SliceLeft(a + b + c, d, 8, 12);
    SliceLeft(a + b, c, 8, 12);
    SliceRight(a, b);
    SliceLeft(a + b + c + d, e, 0, 8);
    SliceLeft(a + b + c, d, 0, 8);
    SliceLeft(a + b, c, 0, 8);
    SliceLeft(a, b, 0, 8);
  }

  lemma {:induction false} ContainerFields(sha: Hasher, payload: seq<Byte>)
    ensures
      var raw, h := ContainerOf(sha, payload), HeaderOf(sha, payload);
      && |raw| == HEADER_SIZE + |payload|
      && raw[..56] == h && raw[56..88] == sha(h) && raw[88..] == payload
      && raw[..8] == h[..8] && raw[8..12] == h[8..12] && raw[12..16] == h[12..16] && raw[16..24] == h[16..24]
      && raw[24..56] == h[24..56]
  {
    var h := HeaderOf(sha, payload);
    var d := sha(h);
    assert ContainerOf(sha, payload) == h + (d + payload);
    SliceRight(h + d, payload);
    SliceLeft(h + d, payload, 56, 88);
    SliceRight(h, d);
    SliceLeft(h, d + payload, 0, 56);
    SliceLeft(h, d + payload, 0, 8);
    SliceLeft(h, d + payload, 8, 12);
    SliceLeft(h, d + payload, 12, 16);
    SliceLeft(h, d + payload, 16, 24);
    SliceLeft(h, d + payload, 24, 56);
  }

  lemma {:induction false} WrittenIsSound(policy: Policy, sha: Hasher, payload: seq<Byte>)
    requires |payload| <= policy.limits.maxSnapshotBytes && |payload| < TWO_64
    ensures ContainerFault(policy, sha, ContainerOf(sha, payload)) == Option.None
  {
    Pow256Values();
    LittleRoundTrip(FORMAT_VERSION, 4);
    LittleRoundTrip(MINIMUM_READER, 4);
    LittleRoundTrip(|payload|, 8);
    HeaderFields(sha, payload);
    ContainerFields(sha, payload);
  }

  lemma {:induction false} ContainerLoads<T(!new)>(policy: Policy, sha: Hasher, body: C.Codec<T>, v: T, payload: seq<Byte>, fits: bool)
    requires F.Exact(body) && body.typed(v) && (body.ok(v) <==> fits)
    requires payload == LittleEndian(FORMAT_VERSION, 4) + body.enc(v)
    requires |payload| <= policy.limits.maxSnapshotBytes && |payload| < TWO_64
    ensures LoadAs(policy, sha, body, Some(ContainerOf(sha, payload))) == if fits then Loaded(v) else Refused(CorruptData)
  {
    WrittenIsSound(policy, sha, payload);
    ContainerFields(sha, payload);
    PayloadDecodes(body, v);
  }

  // ---------------------------------------------------------------------------
  // The bounds, and the round trip
  // ---------------------------------------------------------------------------

  predicate LinksFit(bound: nat, vs: seq<PersistedLink>) { |vs| <= bound && forall i | 0 <= i < |vs| :: C.LinkFits(vs[i]) }

  lemma {:induction false} LinksBounds(bound: nat, vs: seq<PersistedLink>)
    ensures Links(bound).ok(vs) <==> LinksFit(bound, vs)
  {
    F.ListBounds(C.Link(), bound, vs);
    forall i | 0 <= i < |vs| ensures C.Link().ok(vs[i]) <==> C.LinkFits(vs[i]) { C.LinkBounds(vs[i]); }
  }

  predicate SourcesFit(bound: nat, vs: seq<SourceRecord>) { |vs| <= bound && forall i | 0 <= i < |vs| :: C.SourceFits(vs[i]) }

  lemma {:induction false} SourcesBounds(bound: nat, vs: seq<SourceRecord>)
    ensures Sources(bound).ok(vs) <==> SourcesFit(bound, vs)
  {
    F.ListBounds(C.Source(), bound, vs);
    forall i | 0 <= i < |vs| ensures C.Source().ok(vs[i]) <==> C.SourceFits(vs[i]) { C.SourceBounds(vs[i]); }
  }

  predicate SlotsFit(bound: nat, vs: seq<PersistedSlot>) { |vs| <= bound && forall i | 0 <= i < |vs| :: C.SlotFits(vs[i]) }

  lemma {:induction false} SlotsBounds(bound: nat, vs: seq<PersistedSlot>)
    ensures Slots(bound).ok(vs) <==> SlotsFit(bound, vs)
  {
    F.ListBounds(C.SlotRecord(), bound, vs);
    forall i | 0 <= i < |vs| ensures C.SlotRecord().ok(vs[i]) <==> C.SlotFits(vs[i]) { C.SlotBounds(vs[i]); }
  }

  predicate StreamsFit(bound: nat, vs: seq<PersistedStream>) { |vs| <= bound && forall i | 0 <= i < |vs| :: C.StreamFits(vs[i]) }

  lemma {:induction false} StreamsBounds(bound: nat, vs: seq<PersistedStream>)
    ensures Streams(bound).ok(vs) <==> StreamsFit(bound, vs)
  {
    F.ListBounds(C.StreamRecord(), bound, vs);
    forall i | 0 <= i < |vs| ensures C.StreamRecord().ok(vs[i]) <==> C.StreamFits(vs[i]) { C.StreamBounds(vs[i]); }
  }

  predicate EventsFit(bound: nat, vs: seq<TransitionEvent>) { |vs| <= bound && forall i | 0 <= i < |vs| :: C.EventFits(vs[i]) }

  lemma {:induction false} EventsBounds(bound: nat, vs: seq<TransitionEvent>)
    ensures Events(bound).ok(vs) <==> EventsFit(bound, vs)
  {
    F.ListBounds(C.Event(), bound, vs);
    forall i | 0 <= i < |vs| ensures C.Event().ok(vs[i]) <==> C.EventFits(vs[i]) { C.EventBounds(vs[i]); }
  }

  /** The decoder's bounds, spelled out. */
  predicate Fits(policy: Policy, v: Contents) {
    && LinksFit(policy.limits.maxLinks, v.links) && SourcesFit(policy.limits.maxSources, v.sources)
    && SlotsFit(MaxSlots(policy), v.slots)
    && StreamsFit(policy.limits.maxSources, v.streams) && EventsFit(policy.limits.maxTotalTransitions, v.transitions)
  }

  lemma {:induction false} ListFieldsBounds(policy: Policy, p: Lists)
    ensures
      ListFields(policy).ok(p) <==>
        && LinksFit(policy.limits.maxLinks, p.0) && SourcesFit(policy.limits.maxSources, p.1.0)
        && SlotsFit(MaxSlots(policy), p.1.1.0)
        && StreamsFit(policy.limits.maxSources, p.1.1.1.0) && EventsFit(policy.limits.maxTotalTransitions, p.1.1.1.1)
  {
    var limits := policy.limits;
    F.QuadBounds(Links(limits.maxLinks), Sources(limits.maxSources), Slots(MaxSlots(policy)), LastLists(policy), p);
    F.PairBounds(Streams(limits.maxSources), Events(limits.maxTotalTransitions), p.1.1.1);
    LinksBounds(limits.maxLinks, p.0);
    SourcesBounds(limits.maxSources, p.1.0);
    SlotsBounds(MaxSlots(policy), p.1.1.0);
    StreamsBounds(limits.maxSources, p.1.1.1.0);
    EventsBounds(limits.maxTotalTransitions, p.1.1.1.1);
  }

  lemma {:induction false} BodyBounds(policy: Policy, v: Contents)
    ensures Body(policy).ok(v) <==> Fits(policy, v)
  {
    var p := TakeContents(v);
    PrologueExact();
    CountersExact();
    F.ViewBounds(BodyFields(policy), MakeContents, TakeContents, v);
    F.TripleBounds(PrologueFields(), ListFields(policy), CounterFields(), p);
    ListFieldsBounds(policy, p.1.0);
  }

  /**
   What a write produces, a load returns in full, exactly when every collection and string lies
   within the decoder's bounds; otherwise the written file is refused as corrupt.
   */
  lemma {:induction false} WrittenLoadsIff(policy: Policy, sha: Hasher, v: Contents)
    requires Body(policy).typed(v) && |PayloadOf(policy, v)| < TWO_64
    requires Encode(policy, sha, v).Some?
    ensures LoadOnce(policy, sha, Encode(policy, sha, v)) == if Fits(policy, v) then Loaded(v) else Refused(CorruptData)
  {
    BodyExact(policy);
    BodyBounds(policy, v);
    ContainerLoads(policy, sha, Body(policy), v, PayloadOf(policy, v), Fits(policy, v));
  }
}
