/**
 The byte layout of every persisted type, as pairs of encoder and decoder
 (src/persist/codec.cpp:175-687).
 */
module Codec {
  import opened Checked
  import opened Domain
  import opened Bytes
  import F = Format
  import opened CounterTracker
  import opened StoreSpec
  import opened StoreRestart
  import opened RegistrySpec

  type Codec<!T> = F.Format<T>

  const MAX_STRING: nat := 256
  const MAX_RETIRED: nat := 64
  const MAX_EVIDENCE: nat := 1024
  const MAX_SOURCES: nat := 4096

  // ---------------------------------------------------------------------------
  // Integers, identities and enumerations
  // ---------------------------------------------------------------------------

  function ReadU64(s: seq<Byte>): Parsed<U64> {
    match ReadInt(s, 8)
    case None => Option.None
    case Some((n, rest)) => Some((n % TWO_64, rest))
  }

  function Word(): Codec<U64> {
    F.Format((v: U64) => LittleEndian(v, 8), s => ReadU64(s), _ => true, _ => true)
  }

  lemma {:induction false} WordExact()
    ensures F.Exact(Word()) && F.Unbounded(Word())
  {
    Pow256Values();
    F.IntExact(8);
    forall v: U64, rest: seq<Byte> ensures Word().dec(Word().enc(v) + rest) == Some((v, rest)) {
      F.ExactAt(F.Int(8), v, rest);
    }
  }

  /** An event counter: a natural here, 64 bits in the original. */
  function Counter(): Codec<nat> {
    F.Format((v: nat) => LittleEndian(v, 8), s => ReadInt(s, 8), (v: nat) => v < TWO_64, _ => true)
  }

  lemma {:induction false} CounterExact()
    ensures F.Exact(Counter()) && F.Unbounded(Counter())
  {
    Pow256Values();
    F.IntExact(8);
    forall v: nat, rest: seq<Byte> | v < TWO_64 ensures Counter().dec(Counter().enc(v) + rest) == Some((v, rest)) {
      F.ExactAt(F.Int(8), v, rest);
    }
  }

  function Instant(): Codec<I64> { F.View(Word(), Signed, Unsigned) }

  lemma {:induction false} InstantExact()
    ensures F.Exact(Instant()) && F.Unbounded(Instant())
  {
    WordExact();
    F.ViewExact(Word(), Signed, Unsigned);
  }

  function JoinHash(p: (U64, U64)): Hash128 { p.0 * TWO_64 + p.1 }
  function SplitHash(h: Hash128): (U64, U64) { (h / TWO_64, h % TWO_64) }

  /** High word first. */
  function Hash(): Codec<Hash128> { F.View(F.Pair(Word(), Word()), JoinHash, SplitHash) }

  lemma {:induction false} HashExact()
    ensures F.Exact(Hash()) && F.Unbounded(Hash())
  {
    WordExact();
    F.PairExact(Word(), Word());
    F.ViewExact(F.Pair(Word(), Word()), JoinHash, SplitHash);
  }

  function IndexOf<T(==)>(all: seq<T>, v: T): (i: nat)
    ensures v in all ==> i < |all| && all[i] == v
  {
    if all == [] || all[0] == v then 0 else 1 + IndexOf(all[1..], v)
  }

  /** One byte: the value's place in declaration order; larger bytes are refused. */
  function Enum<T(==)>(all: seq<T>): Codec<T> {
    F.Format((v: T) => [IndexOf(all, v) % 256], s => ReadEnum(all, s), _ => true, _ => true)
  }

  function ReadEnum<T>(all: seq<T>, s: seq<Byte>): Parsed<T> {
    match ReadByte(s)
    case None => Option.None
    case Some((b, rest)) => if b >= |all| then Option.None else Some((all[b], rest))
  }

  lemma {:induction false} EnumRoundTrip<T>(all: seq<T>, v: T, i: nat, rest: seq<Byte>)
    requires i < |all| <= 256 && all[i] == v
    ensures ReadEnum(all, [i % 256] + rest) == Some((v, rest))
  {
    assert ([i % 256] + rest)[1..] == rest;
  }

  lemma {:induction false} EnumExact<T(!new)>(all: seq<T>)
    requires |all| <= 256 && forall v: T :: v in all
    ensures F.Exact(Enum(all)) && F.Unbounded(Enum(all))
  {
    var f := Enum(all);
    forall v, rest: seq<Byte> ensures f.dec(f.enc(v) + rest) == Some((v, rest)) {
      EnumRoundTrip(all, v, IndexOf(all, v), rest);
    }
  }

  const WIDTHS: seq<CounterWidth> := [Bits32, Bits64]
  const ADMIN_VALUES: seq<AdminStateValue> := [AdminStateValue.Unknown, Enabled, Disabled]
  const OPER_VALUES: seq<OperStateValue> := [OperStateValue.Unknown, Up, OperStateValue.Down, OperStateValue.Degraded]
  const DISCONTINUITIES: seq<Discontinuity> := [NoDiscontinuity, Reset, Wrap]
  const TRANSITIONS: seq<TransitionKind> :=
    [LinkRegistered, LinkRetired, GenerationChanged, AdminStateChanged, OperStateChanged, ClassificationChanged,
     TransitionKind.CounterReset, CounterWrap, SourceEpochChanged, SourceIncarnationChanged, TransitionKind.RevisionGap,
     StaleEvidence]

  lemma {:induction false} KeyEnumsExact()
    ensures F.Exact(Enum(FAMILIES)) && F.Exact(Enum(DIRECTIONS)) && F.Exact(Enum(ERROR_CLASSES))
    ensures F.Unbounded(Enum(FAMILIES)) && F.Unbounded(Enum(DIRECTIONS)) && F.Unbounded(Enum(ERROR_CLASSES))
  {
    forall v: MetricFamily ensures v in FAMILIES { assert FAMILIES[FamilyIndex(v)] == v; }
    forall v: Direction ensures v in DIRECTIONS { assert DIRECTIONS[DirectionIndex(v)] == v; }
    forall v: ErrorClass ensures v in ERROR_CLASSES { assert ERROR_CLASSES[ClassIndex(v)] == v; }
    EnumExact(FAMILIES);
    EnumExact(DIRECTIONS);
    EnumExact(ERROR_CLASSES);
  }

  lemma {:induction false} ReadingEnumsExact()
    ensures F.Exact(Enum(WIDTHS)) && F.Exact(Enum(ADMIN_VALUES)) && F.Exact(Enum(OPER_VALUES))
    ensures F.Unbounded(Enum(WIDTHS)) && F.Unbounded(Enum(ADMIN_VALUES)) && F.Unbounded(Enum(OPER_VALUES))
  {
    forall v: CounterWidth ensures v in WIDTHS { assert WIDTHS[if v == Bits32 then 0 else 1] == v; }
    forall v: AdminStateValue ensures v in ADMIN_VALUES {
      assert ADMIN_VALUES[match v case Unknown => 0 case Enabled => 1 case Disabled => 2] == v;
    }
    forall v: OperStateValue ensures v in OPER_VALUES {
      assert OPER_VALUES[match v case Unknown => 0 case Up => 1 case Down => 2 case Degraded => 3] == v;
    }
    EnumExact(WIDTHS);
    EnumExact(ADMIN_VALUES);
    EnumExact(OPER_VALUES);
  }

  lemma {:induction false} LabelEnumsExact()
    ensures F.Exact(Enum(AUTHORITIES)) && F.Exact(Enum(PROVENANCES)) && F.Exact(Enum(KINDS)) && F.Exact(Enum(DISCONTINUITIES))
    ensures F.Unbounded(Enum(AUTHORITIES)) && F.Unbounded(Enum(PROVENANCES)) && F.Unbounded(Enum(KINDS)) && F.Unbounded(Enum(DISCONTINUITIES))
  {
    forall v: SourceAuthority ensures v in AUTHORITIES { assert AUTHORITIES[v.Rank()] == v; }
    forall v: ProvenanceClass ensures v in PROVENANCES {
      assert PROVENANCES[match v case Unknown => 0 case Real => 1 case Synthetic => 2 case Replayed => 3] == v;
    }
    forall v: LinkKind ensures v in KINDS {
      assert KINDS[match v case Unknown => 0 case Physical => 1 case Logical => 2 case Aggregate => 3] == v;
    }
    forall v: Discontinuity ensures v in DISCONTINUITIES {
      assert DISCONTINUITIES[match v case NoDiscontinuity => 0 case Reset => 1 case Wrap => 2] == v;
    }
    EnumExact(AUTHORITIES);
    EnumExact(PROVENANCES);
    EnumExact(KINDS);
    EnumExact(DISCONTINUITIES);
  }

  lemma {:induction false} TransitionEnumExact()
    ensures F.Exact(Enum(TRANSITIONS))
    ensures F.Unbounded(Enum(TRANSITIONS))
  {
    forall v: TransitionKind ensures v in TRANSITIONS {
      assert TRANSITIONS[match v
        case LinkRegistered => 0 case LinkRetired => 1 case GenerationChanged => 2 case AdminStateChanged => 3
        case OperStateChanged => 4 case ClassificationChanged => 5 case CounterReset => 6 case CounterWrap => 7
        case SourceEpochChanged => 8 case SourceIncarnationChanged => 9 case RevisionGap => 10 case StaleEvidence => 11] == v;
    }
    EnumExact(TRANSITIONS);
  }

  // ---------------------------------------------------------------------------
  // Keys, readings and observations
  // ---------------------------------------------------------------------------

  function MakeScope(p: (Hash128, (Hash128, Hash128))): SequenceScope { SequenceScope(p.0, p.1.0, p.1.1) }
  function TakeScope(v: SequenceScope): (Hash128, (Hash128, Hash128)) { (v.source, (v.incarnation, v.epoch)) }
  function Scope(): Codec<SequenceScope> { F.View(F.Pair(Hash(), F.Pair(Hash(), Hash())), MakeScope, TakeScope) }

  lemma {:induction false} ScopeExact()
    ensures F.Exact(Scope()) && F.Unbounded(Scope())
  {
    HashExact();
    F.PairExact(Hash(), Hash());
    F.PairExact(Hash(), F.Pair(Hash(), Hash()));
    F.ViewExact(F.Pair(Hash(), F.Pair(Hash(), Hash())), MakeScope, TakeScope);
  }

  function MakeKey(p: (MetricFamily, (Direction, ErrorClass))): MetricKey { MetricKey(p.0, p.1.0, p.1.1) }
  function TakeKey(v: MetricKey): (MetricFamily, (Direction, ErrorClass)) { (v.family, (v.direction, v.errorClass)) }
  function Key(): Codec<MetricKey> {
    F.View(F.Pair(Enum(FAMILIES), F.Pair(Enum(DIRECTIONS), Enum(ERROR_CLASSES))), MakeKey, TakeKey)
  }

  lemma {:induction false} KeyExact()
    ensures F.Exact(Key()) && F.Unbounded(Key())
  {
    KeyEnumsExact();
    F.PairExact(Enum(DIRECTIONS), Enum(ERROR_CLASSES));
    F.PairExact(Enum(FAMILIES), F.Pair(Enum(DIRECTIONS), Enum(ERROR_CLASSES)));
    F.ViewExact(F.Pair(Enum(FAMILIES), F.Pair(Enum(DIRECTIONS), Enum(ERROR_CLASSES))), MakeKey, TakeKey);
  }

  function MakeReading(p: (U64, (CounterWidth, bool))): CounterReading { CounterReading(p.0, p.1.0, p.1.1) }
  function TakeReading(v: CounterReading): (U64, (CounterWidth, bool)) { (v.raw, (v.width, v.resetDeclared)) }
  function Reading(): Codec<CounterReading> {
    F.View(F.Pair(Word(), F.Pair(Enum(WIDTHS), F.Bool())), MakeReading, TakeReading)
  }

  lemma {:induction false} ReadingExact()
    ensures F.Exact(Reading()) && F.Unbounded(Reading())
  {
    WordExact();
    ReadingEnumsExact();
    F.BoolExact();
    F.PairExact(Enum(WIDTHS), F.Bool());
    F.PairExact(Word(), F.Pair(Enum(WIDTHS), F.Bool()));
    F.ViewExact(F.Pair(Word(), F.Pair(Enum(WIDTHS), F.Bool())), MakeReading, TakeReading);
  }

  function QualityFields(): Codec<(U64, bool)> { F.Pair(Word(), F.Bool()) }
  function FlapFields(): Codec<(U64, I64)> { F.Pair(Word(), Instant()) }
  function MakeQuality(p: (U64, bool)): MetricPayload { Quality(p.0, p.1) }
  function MakeFlap(p: (U64, I64)): MetricPayload { Flap(p.0, p.1) }

  /** The alternative's index. */
  function TagOf(v: MetricPayload): Byte {
    match v
    case Admin(_) => 0
    case Oper(_) => 1
    case Counter(_) => 2
    case Ratio(_) => 3
    case Quality(_, _) => 4
    case Flap(_, _) => 5
  }

  function EncodeBody(v: MetricPayload): seq<Byte> {
    match v
    case Admin(a) => Enum(ADMIN_VALUES).enc(a)
    case Oper(o) => Enum(OPER_VALUES).enc(o)
    case Counter(c) => Reading().enc(c)
    case Ratio(ppb) => Word().enc(ppb)
    case Quality(ppb, degraded) => QualityFields().enc((ppb, degraded))
    case Flap(events, window) => FlapFields().enc((events, window))
  }

  function Mapped<A, B>(out: Parsed<A>, make: A -> B): Parsed<B> {
    match out
    case None => Option.None
    case Some((x, rest)) => Some((make(x), rest))
  }

  function ReadBody(tag: Byte, s: seq<Byte>): Parsed<MetricPayload> {
    if tag == 0 then Mapped(Enum(ADMIN_VALUES).dec(s), a => Admin(a))
    else if tag == 1 then Mapped(Enum(OPER_VALUES).dec(s), o => Oper(o))
    else if tag == 2 then Mapped(Reading().dec(s), c => MetricPayload.Counter(c))
    else if tag == 3 then Mapped(Word().dec(s), ppb => Ratio(ppb))
    else if tag == 4 then Mapped(QualityFields().dec(s), MakeQuality)
    else if tag == 5 then Mapped(FlapFields().dec(s), MakeFlap)
    else Option.None
  }

  function EncodePayload(v: MetricPayload): seq<Byte> { [TagOf(v)] + EncodeBody(v) }

  function ReadPayload(s: seq<Byte>): Parsed<MetricPayload> {
    match ReadByte(s)
    case None => Option.None
    case Some((tag, rest)) => ReadBody(tag, rest)
  }

  function Payload(): Codec<MetricPayload> { F.Format(EncodePayload, ReadPayload, _ => true, _ => true) }

  lemma {:induction false} QualityFieldsAt(v: (U64, bool), rest: seq<Byte>)
    ensures QualityFields().dec(QualityFields().enc(v) + rest) == Some((v, rest))
  {
    WordExact();
    F.BoolExact();
    F.PairExact(Word(), F.Bool());
    F.ExactAt(QualityFields(), v, rest);
  }

  lemma {:induction false} FlapFieldsAt(v: (U64, I64), rest: seq<Byte>)
    ensures FlapFields().dec(FlapFields().enc(v) + rest) == Some((v, rest))
  {
    WordExact();
    InstantExact();
    F.PairExact(Word(), Instant());
    F.ExactAt(FlapFields(), v, rest);
  }

  lemma {:induction false} PlainBody(v: MetricPayload, rest: seq<Byte>)
    requires v.Admin? || v.Oper? || v.Ratio?
    ensures ReadBody(TagOf(v), EncodeBody(v) + rest) == Some((v, rest))
  {
    ReadingEnumsExact();
    WordExact();
    match v {
      case Admin(a) => F.ExactAt(Enum(ADMIN_VALUES), a, rest);
      case Oper(o) => F.ExactAt(Enum(OPER_VALUES), o, rest);
      case Ratio(ppb) => F.ExactAt(Word(), ppb, rest);
      case _ =>
    }
  }

  lemma {:induction false} CounterBody(c: CounterReading, rest: seq<Byte>)
    ensures ReadBody(2, EncodeBody(MetricPayload.Counter(c)) + rest) == Some((MetricPayload.Counter(c), rest))
  {
    ReadingExact();
    F.ExactAt(Reading(), c, rest);
  }

  lemma {:induction false} QualityBody(ppb: U64, degraded: bool, rest: seq<Byte>)
    ensures ReadBody(4, EncodeBody(Quality(ppb, degraded)) + rest) == Some((Quality(ppb, degraded), rest))
  {
    QualityFieldsAt((ppb, degraded), rest);
  }

  lemma {:induction false} FlapBody(events: U64, window: I64, rest: seq<Byte>)
    ensures ReadBody(5, EncodeBody(Flap(events, window)) + rest) == Some((Flap(events, window), rest))
  {
    FlapFieldsAt((events, window), rest);
  }

  lemma {:induction false} PayloadRoundTrip(v: MetricPayload, rest: seq<Byte>)
    ensures ReadPayload(EncodePayload(v) + rest) == Some((v, rest))
  {
    assert (EncodePayload(v) + rest)[1..] == EncodeBody(v) + rest;
    match v {
      case Counter(c) => CounterBody(c, rest);
      case Quality(ppb, degraded) => QualityBody(ppb, degraded, rest);
      case Flap(events, window) => FlapBody(events, window, rest);
      case _ => PlainBody(v, rest);
    }
  }

  lemma {:induction false} PayloadExact()
    ensures F.Exact(Payload()) && F.Unbounded(Payload())
  {
    forall v, rest: seq<Byte> ensures Payload().dec(Payload().enc(v) + rest) == Some((v, rest)) {
      PayloadRoundTrip(v, rest);
    }
  }

  type Two<A> = (A, A)
  type Three<A> = (A, (A, A))
  type Four<A> = (A, (A, (A, A)))

  function MakeProvenance(p: (Four<Hash128>, U64)): Provenance {
    Provenance(p.0.0, p.0.1.0, p.0.1.1.0, p.0.1.1.1, p.1)
  }
  function TakeProvenance(v: Provenance): (Four<Hash128>, U64) {
    ((v.source, (v.incarnation, (v.epoch, v.generation))), v.sequence)
  }
  function Origin(): Codec<Provenance> {
    F.View(F.Pair(F.Quad(Hash(), Hash(), Hash(), Hash()), Word()), MakeProvenance, TakeProvenance)
  }

  lemma {:induction false} OriginExact()
    ensures F.Exact(Origin()) && F.Unbounded(Origin())
  {
    HashExact();
    WordExact();
    F.QuadExact(Hash(), Hash(), Hash(), Hash());
    F.PairExact(F.Quad(Hash(), Hash(), Hash(), Hash()), Word());
    F.ViewExact(F.Pair(F.Quad(Hash(), Hash(), Hash(), Hash()), Word()), MakeProvenance, TakeProvenance);
  }

  type ObservationParts = ((Hash128, (Provenance, (Hash128, MetricKey))), (MetricPayload, (I64, I64)))
  function MakeObservation(p: ObservationParts): Observation {
    Observation(p.0.0, p.0.1.0, p.0.1.1.0, p.0.1.1.1, p.1.0, p.1.1.0, p.1.1.1)
  }
  function TakeObservation(v: Observation): ObservationParts {
    ((v.id, (v.provenance, (v.link, v.key))), (v.payload, (v.observedAt, v.receivedAt)))
  }
  function ObservationFields(): Codec<ObservationParts> {
    F.Pair(F.Quad(Hash(), Origin(), Hash(), Key()), F.Triple(Payload(), Instant(), Instant()))
  }
  function Observed(): Codec<Observation> { F.View(ObservationFields(), MakeObservation, TakeObservation) }

  lemma {:induction false} ObservedExact()
    ensures F.Exact(Observed()) && F.Unbounded(Observed())
  {
    HashExact();
    OriginExact();
    KeyExact();
    PayloadExact();
    InstantExact();
    F.QuadExact(Hash(), Origin(), Hash(), Key());
    F.TripleExact(Payload(), Instant(), Instant());
    F.PairExact(F.Quad(Hash(), Origin(), Hash(), Key()), F.Triple(Payload(), Instant(), Instant()));
    F.ViewExact(ObservationFields(), MakeObservation, TakeObservation);
  }

  type EvidenceParts = (Observation, (I64, (SourceAuthority, ProvenanceClass)))
  function MakeEvidence(p: EvidenceParts): Evidence { Evidence(p.0, p.1.0, p.1.1.0, p.1.1.1) }
  function TakeEvidence(v: Evidence): EvidenceParts { (v.observation, (v.acceptedAt, (v.authority, v.provenance))) }
  function EvidenceFields(): Codec<EvidenceParts> { F.Quad(Observed(), Instant(), Enum(AUTHORITIES), Enum(PROVENANCES)) }
  function Held(): Codec<Evidence> { F.View(EvidenceFields(), MakeEvidence, TakeEvidence) }

  lemma {:induction false} HeldExact()
    ensures F.Exact(Held()) && F.Unbounded(Held())
  {
    ObservedExact();
    InstantExact();
    LabelEnumsExact();
    F.QuadExact(Observed(), Instant(), Enum(AUTHORITIES), Enum(PROVENANCES));
    F.ViewExact(EvidenceFields(), MakeEvidence, TakeEvidence);
  }

  // ---------------------------------------------------------------------------
  // Counter continuity
  // ---------------------------------------------------------------------------

  type SampleParts = ((CounterReading, (I64, (I64, U64))), (SequenceScope, (Hash128, nat)))
  function MakeSample(p: SampleParts): CounterSample {
    CounterSample(p.0.0, p.0.1.0, p.0.1.1.0, p.0.1.1.1, p.1.0, p.1.1.0, p.1.1.1)
  }
  function TakeSample(v: CounterSample): SampleParts {
    ((v.reading, (v.observedAt, (v.receivedAt, v.sequence))), (v.scope, (v.generation, v.gapEpoch)))
  }
  function SampleFields(): Codec<SampleParts> {
    F.Pair(F.Quad(Reading(), Instant(), Instant(), Word()), F.Triple(Scope(), Hash(), Counter()))
  }
  function Sample(): Codec<CounterSample> { F.View(SampleFields(), MakeSample, TakeSample) }

  lemma {:induction false} SampleExact()
    ensures F.Exact(Sample()) && F.Unbounded(Sample())
  {
    ReadingExact();
    InstantExact();
    WordExact();
    ScopeExact();
    HashExact();
    CounterExact();
    F.QuadExact(Reading(), Instant(), Instant(), Word());
    F.TripleExact(Scope(), Hash(), Counter());
    F.PairExact(F.Quad(Reading(), Instant(), Instant(), Word()), F.Triple(Scope(), Hash(), Counter()));
    F.ViewExact(SampleFields(), MakeSample, TakeSample);
  }

  /** What stands in the place of an absent sample. */
  const BLANK_SAMPLE: CounterSample :=
    CounterSample(CounterReading(0, Bits64, false), 0, 0, 0, SequenceScope(0, 0, 0), 0, 0)

  function Present(s: CounterSample, has: bool): Option<CounterSample> { if has then Some(s) else Option.None }
  function OrBlank(s: Option<CounterSample>): CounterSample { if s.Some? then s.value else BLANK_SAMPLE }

  type ContinuityParts = ((CounterSample, (CounterSample, (bool, bool))), (Discontinuity, Three<nat>))
  function MakeContinuity(p: ContinuityParts): CounterContinuity {
    CounterContinuity(Present(p.0.0, p.0.1.1.0), Present(p.0.1.0, p.0.1.1.1), p.1.0, p.1.1.0, p.1.1.1.0, p.1.1.1.1)
  }
  function TakeContinuity(v: CounterContinuity): ContinuityParts {
    ((OrBlank(v.latest), (OrBlank(v.previous), (v.latest.Some?, v.previous.Some?))),
     (v.lastDiscontinuity, (v.resetCount, (v.wrapCount, v.gapCount))))
  }
  function ContinuityFields(): Codec<ContinuityParts> {
    F.Pair(F.Quad(Sample(), Sample(), F.Bool(), F.Bool()), F.Quad(Enum(DISCONTINUITIES), Counter(), Counter(), Counter()))
  }
  function Continuity(): Codec<CounterContinuity> { F.View(ContinuityFields(), MakeContinuity, TakeContinuity) }

  lemma {:induction false} ContinuityExact()
    ensures F.Exact(Continuity()) && F.Unbounded(Continuity())
  {
    SampleExact();
    F.BoolExact();
    LabelEnumsExact();
    CounterExact();
    F.QuadExact(Sample(), Sample(), F.Bool(), F.Bool());
    F.QuadExact(Enum(DISCONTINUITIES), Counter(), Counter(), Counter());
    F.PairExact(F.Quad(Sample(), Sample(), F.Bool(), F.Bool()), F.Quad(Enum(DISCONTINUITIES), Counter(), Counter(), Counter()));
    F.ViewExact(ContinuityFields(), MakeContinuity, TakeContinuity);
  }

  // ---------------------------------------------------------------------------
  // Streams and slots
  // ---------------------------------------------------------------------------

  type StreamParts = ((bool, (SequenceScope, (bool, U64))), ((Hash128, (bool, seq<SequenceScope>)), Four<nat>))
  function MakeStream(p: StreamParts): StreamState {
    StreamState(p.0.0, p.0.1.0, p.0.1.1.0, p.0.1.1.1, p.1.0.0, p.1.0.1.0, p.1.0.1.1,
                p.1.1.0, p.1.1.1.0, p.1.1.1.1.0, p.1.1.1.1.1)
  }
  function TakeStream(v: StreamState): StreamParts {
    ((v.hasScope, (v.scope, (v.hasSequence, v.lastSequence))),
     ((v.lastObservation, (v.gapOpen, v.retiredScopes)), (v.accepted, (v.fenced, (v.gapCount, v.scopeChanges)))))
  }
  function StreamHead(): Codec<(bool, (SequenceScope, (bool, U64)))> { F.Quad(F.Bool(), Scope(), F.Bool(), Word()) }
  function StreamMiddle(): Codec<(Hash128, (bool, seq<SequenceScope>))> {
    F.Triple(Hash(), F.Bool(), F.List(Scope(), MAX_RETIRED))
  }
  function FourCounters(): Codec<Four<nat>> { F.Quad(Counter(), Counter(), Counter(), Counter()) }
  function StreamFields(): Codec<StreamParts> { F.Triple(StreamHead(), StreamMiddle(), FourCounters()) }
  function Stream(): Codec<StreamState> { F.View(StreamFields(), MakeStream, TakeStream) }

  lemma {:induction false} StreamExact()
    ensures F.Exact(Stream())
  {
    F.BoolExact();
    ScopeExact();
    WordExact();
    HashExact();
    CounterExact();
    F.ListExact(Scope(), MAX_RETIRED);
    F.QuadExact(F.Bool(), Scope(), F.Bool(), Word());
    F.TripleExact(Hash(), F.Bool(), F.List(Scope(), MAX_RETIRED));
    F.QuadExact(Counter(), Counter(), Counter(), Counter());
    F.TripleExact(StreamHead(), StreamMiddle(), FourCounters());
    F.ViewExact(StreamFields(), MakeStream, TakeStream);
  }

  predicate IsLeast(k: nat, keys: set<nat>) { k in keys && forall j | j in keys :: k <= j }

  lemma {:induction false} Least(keys: set<nat>) returns (k: nat)
    requires keys != {}
    ensures IsLeast(k, keys)
    decreases |keys|
  {
    var x :| x in keys;
    k := x;
    var others := keys - {x};
    if others != {} {
      var m := Least(others);
      k := if x <= m then x else m;
      assert keys == others + {x};
    } else {
      assert keys == {x};
    }
  }

  lemma LeastExists(keys: set<nat>)
    requires keys != {}
    ensures exists k :: IsLeast(k, keys)
  {
    var k := Least(keys);
  }

  /** The smallest key, which an ordered map visits first. */
  function FirstKey<V>(m: map<SourceId, V>): (k: SourceId)
    requires m != map[]
    ensures k in m && forall j | j in m :: k <= j
  {
    LeastExists(m.Keys);
    var k :| k in m.Keys && IsLeast(k, m.Keys);
    k
  }

  /** The entries in ascending order of their source. */
  function Entries<V>(m: map<SourceId, V>): (es: seq<(SourceId, V)>)
    ensures |es| == |m|
    decreases |m|
  {
    if m == map[] then []
    else
      var k := FirstKey(m);
      assert m - {k} != m && |m| == |m - {k}| + 1 by { RemoveOne(m, k); }
      [(k, m[k])] + Entries(m - {k})
  }

  lemma RemoveOne<K, V>(m: map<K, V>, k: K)
    requires k in m
    ensures |m| == |m - {k}| + 1
  {
    assert (m - {k}).Keys == m.Keys - {k};
    assert |m.Keys| == |m| && |(m - {k}).Keys| == |m - {k}|;
  }

  /** Inserting entries in order; a source already present keeps its first entry. */
  function Collect<V>(es: seq<(SourceId, V)>): map<SourceId, V> {
    if es == [] then map[] else Collect(es[1..])[es[0].0 := es[0].1]
  }

  lemma {:induction false} CollectEntries<V>(m: map<SourceId, V>)
    ensures Collect(Entries(m)) == m
    decreases |m|
  {
    if m != map[] {
      var k := FirstKey(m);
      RemoveOne(m, k);
      CollectEntries(m - {k});
      assert Entries(m)[1..] == Entries(m - {k});
      assert (m - {k})[k := m[k]] == m;
    }
  }

  type ContinuityIndex = map<SourceId, CounterContinuity>
  function MakeIndex(es: seq<(SourceId, CounterContinuity)>): ContinuityIndex { Collect(es) }
  function TakeIndex(m: ContinuityIndex): seq<(SourceId, CounterContinuity)> { Entries(m) }
  function IndexEntry(): Codec<(SourceId, CounterContinuity)> { F.Pair(Hash(), Continuity()) }
  function Index(): Codec<ContinuityIndex> { F.View(F.List(IndexEntry(), MAX_SOURCES), MakeIndex, TakeIndex) }

  lemma {:induction false} IndexExact()
    ensures F.Exact(Index())
  {
    HashExact();
    ContinuityExact();
    F.PairExact(Hash(), Continuity());
    F.ListExact(IndexEntry(), MAX_SOURCES);
    forall m: ContinuityIndex ensures MakeIndex(TakeIndex(m)) == m {
      CollectEntries(m);
    }
    F.ViewExact(F.List(IndexEntry(), MAX_SOURCES), MakeIndex, TakeIndex);
  }

  type SlotParts = (((Hash128, MetricKey), (seq<Evidence>, ContinuityIndex)), (Two<nat>, ((I64, bool), Two<nat>)))
  function MakeSlot(p: SlotParts): PersistedSlot {
    PersistedSlot(SlotKey(p.0.0.0, p.0.0.1), p.0.1.0, p.0.1.1, p.1.0.0, p.1.0.1, p.1.1.0.0, p.1.1.0.1, p.1.1.1.0, p.1.1.1.1)
  }
  function TakeSlot(v: PersistedSlot): SlotParts {
    (((v.slot.link, v.slot.key), (v.history, v.continuity)),
     ((v.accepted, v.fenced), ((v.lastGapAt, v.hasGap), (v.resetCount, v.wrapCount))))
  }
  function SlotId(): Codec<(Hash128, MetricKey)> { F.Pair(Hash(), Key()) }
  function TwoCounters(): Codec<Two<nat>> { F.Pair(Counter(), Counter()) }
  function SlotHead(): Codec<((Hash128, MetricKey), (seq<Evidence>, ContinuityIndex))> {
    F.Triple(SlotId(), F.List(Held(), MAX_EVIDENCE), Index())
  }
  function SlotTail(): Codec<(Two<nat>, ((I64, bool), Two<nat>))> {
    F.Triple(TwoCounters(), F.Pair(Instant(), F.Bool()), TwoCounters())
  }
  function SlotFields(): Codec<SlotParts> { F.Pair(SlotHead(), SlotTail()) }
  function SlotRecord(): Codec<PersistedSlot> { F.View(SlotFields(), MakeSlot, TakeSlot) }

  lemma {:induction false} SlotHeadExact()
    ensures F.Exact(SlotHead())
  {
    HashExact();
    KeyExact();
    HeldExact();
    IndexExact();
    F.PairExact(Hash(), Key());
    F.ListExact(Held(), MAX_EVIDENCE);
    F.TripleExact(SlotId(), F.List(Held(), MAX_EVIDENCE), Index());
  }

  lemma {:induction false} SlotRecordExact()
    ensures F.Exact(SlotRecord())
  {
    SlotHeadExact();
    CounterExact();
    InstantExact();
    F.BoolExact();
    F.PairExact(Counter(), Counter());
    F.PairExact(Instant(), F.Bool());
    F.TripleExact(TwoCounters(), F.Pair(Instant(), F.Bool()), TwoCounters());
    F.PairExact(SlotHead(), SlotTail());
    F.ViewExact(SlotFields(), MakeSlot, TakeSlot);
  }

  type StreamEntry = (SourceId, StreamState)
  function MakeStreamRecord(p: StreamEntry): PersistedStream { PersistedStream(p.0, p.1) }
  function TakeStreamRecord(v: PersistedStream): StreamEntry { (v.source, v.state) }
  function StreamRecord(): Codec<PersistedStream> { F.View(F.Pair(Hash(), Stream()), MakeStreamRecord, TakeStreamRecord) }

  lemma {:induction false} StreamRecordExact()
    ensures F.Exact(StreamRecord())
  {
    HashExact();
    StreamExact();
    F.PairExact(Hash(), Stream());
    F.ViewExact(F.Pair(Hash(), Stream()), MakeStreamRecord, TakeStreamRecord);
  }

  // ---------------------------------------------------------------------------
  // Sources, links and transitions
  // ---------------------------------------------------------------------------

  type SourceParts = ((Hash128, string), (SourceAuthority, (ProvenanceClass, (bool, bool))))
  function MakeSource(p: SourceParts): SourceRecord {
    SourceRecord(p.0.0, p.0.1, p.1.0, p.1.1.0, p.1.1.1.0, p.1.1.1.1)
  }
  function TakeSource(v: SourceRecord): SourceParts {
    ((v.id, v.name), (v.authority, (v.provenance, (v.registered, v.retired))))
  }
  function Named(): Codec<(Hash128, string)> { F.Pair(Hash(), F.Text(MAX_STRING)) }
  function SourceFields(): Codec<SourceParts> {
    F.Pair(Named(), F.Quad(Enum(AUTHORITIES), Enum(PROVENANCES), F.Bool(), F.Bool()))
  }
  function Source(): Codec<SourceRecord> { F.View(SourceFields(), MakeSource, TakeSource) }

  lemma {:induction false} NamedExact()
    ensures F.Exact(Named())
  {
    HashExact();
    F.TextExact(MAX_STRING);
    F.PairExact(Hash(), F.Text(MAX_STRING));
  }

  lemma {:induction false} SourceExact()
    ensures F.Exact(Source())
  {
    NamedExact();
    LabelEnumsExact();
    F.BoolExact();
    F.QuadExact(Enum(AUTHORITIES), Enum(PROVENANCES), F.Bool(), F.Bool());
    F.PairExact(Named(), F.Quad(Enum(AUTHORITIES), Enum(PROVENANCES), F.Bool(), F.Bool()));
    F.ViewExact(SourceFields(), MakeSource, TakeSource);
  }

  type FactsParts = ((Hash128, string), (Four<Hash128>, ((LinkKind, Hash128), (bool, (U64, (U64, ProvenanceClass))))))
  function MakeFacts(p: FactsParts): LinkFacts {
    LinkFacts(p.0.0, p.0.1, p.1.0.0, p.1.0.1.0, p.1.0.1.1.0, p.1.0.1.1.1, p.1.1.0.0, p.1.1.0.1,
              p.1.1.1.0, p.1.1.1.1.0, p.1.1.1.1.1.0, p.1.1.1.1.1.1)
  }
  function TakeFacts(v: LinkFacts): FactsParts {
    ((v.id, v.name), ((v.localEndpoint, (v.remoteEndpoint, (v.localPort, v.remotePort))),
     ((v.kind, v.generation), (v.capacityKnown, (v.capacityInBps, (v.capacityOutBps, v.provenance))))))
  }
  function Anchors(): Codec<Four<Hash128>> { F.Quad(Hash(), Hash(), Hash(), Hash()) }
  function Capacity(): Codec<(bool, (U64, (U64, ProvenanceClass)))> { F.Quad(F.Bool(), Word(), Word(), Enum(PROVENANCES)) }
  function FactsFields(): Codec<FactsParts> { F.Quad(Named(), Anchors(), F.Pair(Enum(KINDS), Hash()), Capacity()) }
  function Facts(): Codec<LinkFacts> { F.View(FactsFields(), MakeFacts, TakeFacts) }

  lemma {:induction false} FactsExact()
    ensures F.Exact(Facts())
  {
    NamedExact();
    HashExact();
    LabelEnumsExact();
    F.BoolExact();
    WordExact();
    F.QuadExact(Hash(), Hash(), Hash(), Hash());
    F.QuadExact(F.Bool(), Word(), Word(), Enum(PROVENANCES));
    F.PairExact(Enum(KINDS), Hash());
    F.QuadExact(Named(), Anchors(), F.Pair(Enum(KINDS), Hash()), Capacity());
    F.ViewExact(FactsFields(), MakeFacts, TakeFacts);
  }

  type EntryParts = (LinkFacts, (Three<I64>, (Two<nat>, (bool, bool))))
  function MakeEntry(p: EntryParts): LinkEntry {
    LinkEntry(p.0, p.1.0.0, p.1.0.1.0, p.1.0.1.1, p.1.1.0.0, p.1.1.0.1, p.1.1.1.0, p.1.1.1.1)
  }
  function TakeEntry(v: LinkEntry): EntryParts {
    (v.facts, ((v.registeredAt, (v.lastEvidenceAt, v.lastAcceptedAt)), ((v.accepted, v.fenced), (v.retired, v.hasEvidence))))
  }
  function ThreeInstants(): Codec<Three<I64>> { F.Triple(Instant(), Instant(), Instant()) }
  function EntryFields(): Codec<EntryParts> { F.Quad(Facts(), ThreeInstants(), TwoCounters(), F.Pair(F.Bool(), F.Bool())) }
  function Entry(): Codec<LinkEntry> { F.View(EntryFields(), MakeEntry, TakeEntry) }

  lemma {:induction false} EntryExact()
    ensures F.Exact(Entry())
  {
    FactsExact();
    InstantExact();
    CounterExact();
    F.BoolExact();
    F.TripleExact(Instant(), Instant(), Instant());
    F.PairExact(Counter(), Counter());
    F.PairExact(F.Bool(), F.Bool());
    F.QuadExact(Facts(), ThreeInstants(), TwoCounters(), F.Pair(F.Bool(), F.Bool()));
    F.ViewExact(EntryFields(), MakeEntry, TakeEntry);
  }

  type GenerationParts = (Hash128, (bool, (seq<Hash128>, nat)))
  function MakeGenerations(p: GenerationParts): GenerationState { GenerationState(p.0, p.1.0, p.1.1.0, p.1.1.1) }
  function TakeGenerations(v: GenerationState): GenerationParts { (v.current, (v.hasGeneration, (v.retired, v.changes))) }
  function GenerationFields(): Codec<GenerationParts> { F.Quad(Hash(), F.Bool(), F.List(Hash(), MAX_RETIRED), Counter()) }
  function Generations(): Codec<GenerationState> { F.View(GenerationFields(), MakeGenerations, TakeGenerations) }

  lemma {:induction false} GenerationsExact()
    ensures F.Exact(Generations())
  {
    HashExact();
    F.BoolExact();
    CounterExact();
    F.ListExact(Hash(), MAX_RETIRED);
    F.QuadExact(Hash(), F.Bool(), F.List(Hash(), MAX_RETIRED), Counter());
    F.ViewExact(GenerationFields(), MakeGenerations, TakeGenerations);
  }

  type LinkParts = (LinkFacts, (LinkEntry, GenerationState))
  function MakeLink(p: LinkParts): PersistedLink { PersistedLink(p.0, p.1.0, p.1.1) }
  function TakeLink(v: PersistedLink): LinkParts { (v.facts, (v.entry, v.generations)) }
  function Link(): Codec<PersistedLink> { F.View(F.Triple(Facts(), Entry(), Generations()), MakeLink, TakeLink) }

  lemma {:induction false} LinkExact()
    ensures F.Exact(Link())
  {
    FactsExact();
    EntryExact();
    GenerationsExact();
    F.TripleExact(Facts(), Entry(), Generations());
    F.ViewExact(F.Triple(Facts(), Entry(), Generations()), MakeLink, TakeLink);
  }

  type EventParts = ((Hash128, (Hash128, (TransitionKind, I64))), (Two<Hash128>, (string, (string, U64))))
  function MakeEvent(p: EventParts): TransitionEvent {
    TransitionEvent(p.0.0, p.0.1.0, p.0.1.1.0, p.0.1.1.1, p.1.0.0, p.1.0.1, p.1.1.0, p.1.1.1.0, p.1.1.1.1)
  }
  function TakeEvent(v: TransitionEvent): EventParts {
    ((v.id, (v.link, (v.kind, v.at))), ((v.generation, v.source), (v.from, (v.to', v.detail))))
  }
  function EventHead(): Codec<(Hash128, (Hash128, (TransitionKind, I64)))> {
    F.Quad(Hash(), Hash(), Enum(TRANSITIONS), Instant())
  }
  function EventTail(): Codec<(Two<Hash128>, (string, (string, U64)))> {
    F.Quad(F.Pair(Hash(), Hash()), F.Text(MAX_STRING), F.Text(MAX_STRING), Word())
  }
  function EventFields(): Codec<EventParts> { F.Pair(EventHead(), EventTail()) }
  function Event(): Codec<TransitionEvent> { F.View(EventFields(), MakeEvent, TakeEvent) }

  lemma {:induction false} EventExact()
    ensures F.Exact(Event())
  {
    HashExact();
    TransitionEnumExact();
    InstantExact();
    WordExact();
    F.TextExact(MAX_STRING);
    F.PairExact(Hash(), Hash());
    F.QuadExact(Hash(), Hash(), Enum(TRANSITIONS), Instant());
    F.QuadExact(F.Pair(Hash(), Hash()), F.Text(MAX_STRING), F.Text(MAX_STRING), Word());
    F.PairExact(EventHead(), EventTail());
    F.ViewExact(EventFields(), MakeEvent, TakeEvent);
  }

  // ---------------------------------------------------------------------------
  // What the bounds are
  // ---------------------------------------------------------------------------

  predicate FactsFit(f: LinkFacts) { |f.name| <= MAX_STRING }
  predicate LinkFits(l: PersistedLink) {
    FactsFit(l.facts) && FactsFit(l.entry.facts) && |l.generations.retired| <= MAX_RETIRED
  }
  predicate SourceFits(s: SourceRecord) { |s.name| <= MAX_STRING }
  predicate SlotFits(s: PersistedSlot) { |s.history| <= MAX_EVIDENCE && |s.continuity| <= MAX_SOURCES }
  predicate StreamFits(s: PersistedStream) { |s.state.retiredScopes| <= MAX_RETIRED }
  predicate EventFits(e: TransitionEvent) { |e.from| <= MAX_STRING && |e.to'| <= MAX_STRING }

  lemma {:induction false} NamedBounds(v: (Hash128, string))
    ensures Named().ok(v) <==> |v.1| <= MAX_STRING
  {
    HashExact();
    F.PairBounds(Hash(), F.Text(MAX_STRING), v);
  }

  lemma {:induction false} FactsBounds(v: LinkFacts)
    ensures Facts().ok(v) <==> FactsFit(v)
  {
    var p := TakeFacts(v);
    HashExact();
    WordExact();
    LabelEnumsExact();
    F.BoolExact();
    F.ViewBounds(FactsFields(), MakeFacts, TakeFacts, v);
    F.QuadBounds(Named(), Anchors(), F.Pair(Enum(KINDS), Hash()), Capacity(), p);
    NamedBounds(p.0);
    F.QuadBounds(Hash(), Hash(), Hash(), Hash(), p.1.0);
    F.PairBounds(Enum(KINDS), Hash(), p.1.1.0);
    F.QuadBounds(F.Bool(), Word(), Word(), Enum(PROVENANCES), p.1.1.1);
  }

  lemma {:induction false} EntryBounds(v: LinkEntry)
    ensures Entry().ok(v) <==> FactsFit(v.facts)
  {
    var p := TakeEntry(v);
    InstantExact();
    CounterExact();
    F.BoolExact();
    F.ViewBounds(EntryFields(), MakeEntry, TakeEntry, v);
    F.QuadBounds(Facts(), ThreeInstants(), TwoCounters(), F.Pair(F.Bool(), F.Bool()), p);
    FactsBounds(v.facts);
    F.TripleBounds(Instant(), Instant(), Instant(), p.1.0);
    F.PairBounds(Counter(), Counter(), p.1.1.0);
    F.PairBounds(F.Bool(), F.Bool(), p.1.1.1);
  }

  lemma {:induction false} GenerationsBounds(v: GenerationState)
    ensures Generations().ok(v) <==> |v.retired| <= MAX_RETIRED
  {
    HashExact();
    F.BoolExact();
    CounterExact();
    F.ViewBounds(GenerationFields(), MakeGenerations, TakeGenerations, v);
    F.QuadBounds(Hash(), F.Bool(), F.List(Hash(), MAX_RETIRED), Counter(), TakeGenerations(v));
    F.ListBounds(Hash(), MAX_RETIRED, v.retired);
  }

  lemma {:induction false} LinkBounds(v: PersistedLink)
    ensures Link().ok(v) <==> LinkFits(v)
  {
    F.ViewBounds(F.Triple(Facts(), Entry(), Generations()), MakeLink, TakeLink, v);
    F.TripleBounds(Facts(), Entry(), Generations(), TakeLink(v));
    FactsBounds(v.facts);
    EntryBounds(v.entry);
    GenerationsBounds(v.generations);
  }

  lemma {:induction false} SourceBounds(v: SourceRecord)
    ensures Source().ok(v) <==> SourceFits(v)
  {
    var p := TakeSource(v);
    LabelEnumsExact();
    F.BoolExact();
    F.ViewBounds(SourceFields(), MakeSource, TakeSource, v);
    F.PairBounds(Named(), F.Quad(Enum(AUTHORITIES), Enum(PROVENANCES), F.Bool(), F.Bool()), p);
    NamedBounds(p.0);
    F.QuadBounds(Enum(AUTHORITIES), Enum(PROVENANCES), F.Bool(), F.Bool(), p.1);
  }

  lemma {:induction false} IndexBounds(m: ContinuityIndex)
    ensures Index().ok(m) <==> |m| <= MAX_SOURCES
  {
    HashExact();
    ContinuityExact();
    F.PairExact(Hash(), Continuity());
    F.ViewBounds(F.List(IndexEntry(), MAX_SOURCES), MakeIndex, TakeIndex, m);
    F.ListBounds(IndexEntry(), MAX_SOURCES, TakeIndex(m));
  }

  lemma {:induction false} SlotBounds(v: PersistedSlot)
    ensures SlotRecord().ok(v) <==> SlotFits(v)
  {
    var p := TakeSlot(v);
    HashExact();
    KeyExact();
    HeldExact();
    CounterExact();
    InstantExact();
    F.BoolExact();
    F.ViewBounds(SlotFields(), MakeSlot, TakeSlot, v);
    F.PairBounds(SlotHead(), SlotTail(), p);
    F.TripleBounds(SlotId(), F.List(Held(), MAX_EVIDENCE), Index(), p.0);
    F.PairBounds(Hash(), Key(), p.0.0);
    F.ListBounds(Held(), MAX_EVIDENCE, v.history);
    IndexBounds(v.continuity);
    F.TripleBounds(TwoCounters(), F.Pair(Instant(), F.Bool()), TwoCounters(), p.1);
    F.PairBounds(Counter(), Counter(), p.1.0);
    F.PairBounds(Counter(), Counter(), p.1.1.1);
    F.PairBounds(Instant(), F.Bool(), p.1.1.0);
  }

  lemma {:induction false} StreamStateBounds(v: StreamState)
    ensures Stream().ok(v) <==> |v.retiredScopes| <= MAX_RETIRED
  {
    var p := TakeStream(v);
    F.BoolExact();
    ScopeExact();
    WordExact();
    HashExact();
    CounterExact();
    F.ViewBounds(StreamFields(), MakeStream, TakeStream, v);
    F.TripleBounds(StreamHead(), StreamMiddle(), FourCounters(), p);
    F.QuadBounds(F.Bool(), Scope(), F.Bool(), Word(), p.0);
    F.TripleBounds(Hash(), F.Bool(), F.List(Scope(), MAX_RETIRED), p.1.0);
    F.ListBounds(Scope(), MAX_RETIRED, v.retiredScopes);
    F.QuadBounds(Counter(), Counter(), Counter(), Counter(), p.1.1);
  }

  lemma {:induction false} StreamBounds(v: PersistedStream)
    ensures StreamRecord().ok(v) <==> StreamFits(v)
  {
    HashExact();
    F.ViewBounds(F.Pair(Hash(), Stream()), MakeStreamRecord, TakeStreamRecord, v);
    F.PairBounds(Hash(), Stream(), TakeStreamRecord(v));
    StreamStateBounds(v.state);
  }

  lemma {:induction false} EventBounds(v: TransitionEvent)
    ensures Event().ok(v) <==> EventFits(v)
  {
    var p := TakeEvent(v);
    HashExact();
    TransitionEnumExact();
    InstantExact();
    WordExact();
    F.ViewBounds(EventFields(), MakeEvent, TakeEvent, v);
    F.PairBounds(EventHead(), EventTail(), p);
    F.QuadBounds(Hash(), Hash(), Enum(TRANSITIONS), Instant(), p.0);
    F.QuadBounds(F.Pair(Hash(), Hash()), F.Text(MAX_STRING), F.Text(MAX_STRING), Word(), p.1);
    F.PairBounds(Hash(), Hash(), p.1.0);
  }
}
