/**
 Identities, enumerations, readings, observations and policy
 (include/linkobs/domain/, src/domain/metric.cpp, src/domain/observation.cpp).

 Identities are 128-bit content hashes; only equality, order and the reserved zero matter here.
 Counters that merely count events are unbounded naturals.
 */
module Domain {
  import opened Checked

  datatype Option<+T> = None | Some(value: T)

  type Hash128 = n: nat | n < TWO_128
  type LinkId = Hash128
  type SourceId = Hash128
  type GenerationId = Hash128
  type EpochId = Hash128
  type IncarnationId = Hash128
  type ObservationId = Hash128

  /** The all-zero hash means "no identity". */
  predicate ValidId(id: Hash128) { id != 0 }

  type TimePoint = I64
  type Duration = I64

  /** Signed difference of two instants, or a failure on overflow. */
  function Difference(later: TimePoint, earlier: TimePoint): Checked<Duration> {
    CheckedSubI64(later, earlier)
  }

  datatype MetricFamily =
    | AdminState | OperState | Octets | Errors | Discards | UtilReported | SignalQuality | FlapReport
  datatype Direction = Unknown | In | Out | Both
  datatype ErrorClass = None | Total | Crc | Symbol | Framing | Encoding | Congestion | Other
  datatype CounterWidth = Bits32 | Bits64
  datatype Freshness = Unknown | Fresh | Stale | Expired
  datatype Completeness = Unknown | Complete | Incomplete
  datatype ProvenanceClass = Unknown | Real | Synthetic | Replayed
  datatype AdminStateValue = Unknown | Enabled | Disabled
  datatype OperStateValue = Unknown | Up | Down | Degraded

  /** Ordered source authority: a higher rank wins. */
  datatype SourceAuthority = Unknown | Synthetic | Derived | Secondary | Primary {
    function Rank(): nat {
      match this
      case Unknown => 0
      case Synthetic => 1
      case Derived => 2
      case Secondary => 3
      case Primary => 4
    }
  }

  datatype FenceReason =
    | None | UnknownSource | UnknownLink | UnsupportedFamily | InvalidValue | DuplicateObservation
    | RevisionReplay | RevisionGap | EpochBehind | IncarnationBehind | GenerationBehind
    | AuthorityDowngrade | PayloadTooLarge | UnsupportedProvenance | StoreFull

  datatype LinkKind = Unknown | Physical | Logical | Aggregate

  datatype TransitionKind =
    | LinkRegistered | LinkRetired | GenerationChanged | AdminStateChanged | OperStateChanged
    | ClassificationChanged | CounterReset | CounterWrap | SourceEpochChanged
    | SourceIncarnationChanged | RevisionGap | StaleEvidence

  // Enumerations in declaration order.
  const FAMILIES: seq<MetricFamily> :=
    [AdminState, OperState, Octets, Errors, Discards, UtilReported, SignalQuality, FlapReport]
  const DIRECTIONS: seq<Direction> := [Direction.Unknown, In, Out, Both]
  const ERROR_CLASSES: seq<ErrorClass> :=
    [ErrorClass.None, ErrorClass.Total, ErrorClass.Crc, ErrorClass.Symbol, ErrorClass.Framing, ErrorClass.Encoding,
     ErrorClass.Congestion, ErrorClass.Other]

  const AUTHORITIES: seq<SourceAuthority> :=
    [SourceAuthority.Unknown, SourceAuthority.Synthetic, Derived, Secondary, Primary]
  const PROVENANCES: seq<ProvenanceClass> := [ProvenanceClass.Unknown, Real, ProvenanceClass.Synthetic, Replayed]
  const KINDS: seq<LinkKind> := [LinkKind.Unknown, Physical, Logical, Aggregate]

  predicate IsCounterFamily(family: MetricFamily) {
    family in {Octets, Errors, Discards}
  }

  predicate IsDirectionalFamily(family: MetricFamily) {
    family in {Octets, Errors, Discards, UtilReported, SignalQuality}
  }

  // ---------------------------------------------------------------------------
  // Readings and observations
  // ---------------------------------------------------------------------------

  const PPB_FULL_SCALE: nat := 1_000_000_000
  const PPB_ACCEPTED_MAX: nat := 2_000_000_000

  datatype CounterReading = CounterReading(raw: U64, width: CounterWidth, resetDeclared: bool)

  datatype MetricPayload =
    | Admin(admin: AdminStateValue)
    | Oper(oper: OperStateValue)
    | Counter(counter: CounterReading)
    | Ratio(ppb: U64)
    | Quality(qualityPpb: U64, degradedDeclared: bool)
    | Flap(events: U64, window: Duration)

  datatype MetricKey = MetricKey(family: MetricFamily, direction: Direction, errorClass: ErrorClass)

  datatype Provenance = Provenance(
    source: SourceId, incarnation: IncarnationId, epoch: EpochId, generation: GenerationId, sequence: U64)

  /** The scope in which a revision number is meaningful. */
  datatype SequenceScope = SequenceScope(source: SourceId, incarnation: IncarnationId, epoch: EpochId)

  datatype Observation = Observation(
    id: ObservationId, provenance: Provenance, link: LinkId, key: MetricKey, payload: MetricPayload,
    observedAt: TimePoint, receivedAt: TimePoint)

  datatype SourceRecord = SourceRecord(
    id: SourceId, name: string, authority: SourceAuthority, provenance: ProvenanceClass,
    registered: bool, retired: bool)

  datatype Evidence = Evidence(
    observation: Observation, acceptedAt: TimePoint, authority: SourceAuthority, provenance: ProvenanceClass)

  datatype LinkFacts = LinkFacts(
    id: LinkId, name: string, localEndpoint: Hash128, remoteEndpoint: Hash128, localPort: Hash128,
    remotePort: Hash128, kind: LinkKind, generation: GenerationId, capacityKnown: bool,
    capacityInBps: U64, capacityOutBps: U64, provenance: ProvenanceClass)

  datatype TransitionEvent = TransitionEvent(
    id: Hash128, link: LinkId, kind: TransitionKind, at: TimePoint, generation: GenerationId,
    source: SourceId, from: string, to': string, detail: U64)

  function ScopeOf(p: Provenance): SequenceScope {
    SequenceScope(p.source, p.incarnation, p.epoch)
  }

  /** The declared capacity of a direction; a zero capacity counts as undeclared. */
  function CapacityFor(facts: LinkFacts, direction: Direction): Option<U64> {
    if !facts.capacityKnown then Option.None
    else match direction
      case In => if facts.capacityInBps == 0 then Option.None else Some(facts.capacityInBps)
      case Out => if facts.capacityOutBps == 0 then Option.None else Some(facts.capacityOutBps)
      case Both => Option.None
      case Unknown => Option.None
  }

  // ---------------------------------------------------------------------------
  // Policy
  // ---------------------------------------------------------------------------

  datatype FreshnessPolicy = FreshnessPolicy(freshWithin: Duration, usableWithin: Duration)

  /** One window pair per family, in declaration order. */
  type FreshnessTable = t: seq<FreshnessPolicy> | |t| == 8
    witness seq(8, _ => FreshnessPolicy(0, 0))

  datatype Limits = Limits(
    maxLinks: nat, maxSources: nat, maxEvidencePerKey: nat, maxContendersPerKey: nat,
    maxTransitionsPerLink: nat, maxTotalTransitions: nat, maxResultRows: nat, maxRecordBytes: nat,
    maxSnapshotBytes: nat)

  datatype Thresholds = Thresholds(
    saturationPpb: nat, degradedQualityPpb: nat, errorRatioPpb: nat, conflictTolerancePpb: nat,
    discardRatioPpb: nat, flapThreshold: nat, flapWindow: Duration, derivationWindow: Duration,
    maxHistoryWindow: Duration)

  datatype Policy = Policy(
    freshness: FreshnessTable, thresholds: Thresholds, limits: Limits, allowImplicitLinks: bool)

  function FamilyIndex(family: MetricFamily): (i: nat)
    ensures i < 8
  {
    match family
    case AdminState => 0
    case OperState => 1
    case Octets => 2
    case Errors => 3
    case Discards => 4
    case UtilReported => 5
    case SignalQuality => 6
    case FlapReport => 7
  }

  function DirectionIndex(d: Direction): (i: nat)
    ensures i < 4 && DIRECTIONS[i] == d
  {
    match d case Unknown => 0 case In => 1 case Out => 2 case Both => 3
  }

  function ClassIndex(c: ErrorClass): (i: nat)
    ensures i < 8 && ERROR_CLASSES[i] == c
  {
    match c case None => 0 case Total => 1 case Crc => 2 case Symbol => 3
            case Framing => 4 case Encoding => 5 case Congestion => 6 case Other => 7
  }

  function FreshnessPolicyFor(policy: Policy, family: MetricFamily): FreshnessPolicy {
    policy.freshness[FamilyIndex(family)]
  }

  // ---------------------------------------------------------------------------
  // Validation
  // ---------------------------------------------------------------------------

  /** Ok, or refused as unsupported, or refused as an invalid value. */
  datatype Validity = Ok | Unsupported | Invalid

  predicate PayloadMatchesFamily(family: MetricFamily, payload: MetricPayload) {
    match family
    case AdminState => payload.Admin?
    case OperState => payload.Oper?
    case Octets => payload.Counter?
    case Errors => payload.Counter?
    case Discards => payload.Counter?
    case UtilReported => payload.Ratio?
    case SignalQuality => payload.Quality?
    case FlapReport => payload.Flap?
  }

  predicate ErrorClassAllowed(family: MetricFamily, value: ErrorClass) {
    if family == Errors then true
    else if family == Discards then value in {ErrorClass.None, ErrorClass.Total, ErrorClass.Congestion, ErrorClass.Other}
    else value == ErrorClass.None
  }

  /** Largest raw value a counter of this width can hold. */
  function CounterRange(width: CounterWidth): U64 {
    if width == Bits32 then TWO_32 - 1 else TWO_64 - 1
  }

  function ValidateReading(key: MetricKey, payload: MetricPayload, policy: Policy): Validity {
    if !PayloadMatchesFamily(key.family, payload) then Unsupported
    else if !ErrorClassAllowed(key.family, key.errorClass) then Invalid
    else if key.direction != Direction.Unknown && !IsDirectionalFamily(key.family) then Invalid
    else
      match payload
      case Admin(_) => Ok
      case Oper(_) => Ok
      case Counter(c) => if c.width == Bits32 && c.raw > TWO_32 - 1 then Invalid else Ok
      case Ratio(ppb) => if ppb > PPB_ACCEPTED_MAX then Invalid else Ok
      case Quality(ppb, _) =>
        if ppb > PPB_FULL_SCALE then Invalid else if key.direction == Both then Invalid else Ok
      case Flap(_, window) =>
        if window <= 0 then Invalid
        else if window > policy.thresholds.maxHistoryWindow then Invalid
        else Ok
  }

  function ValidateObservation(o: Observation, policy: Policy): Validity {
    if !ValidId(o.provenance.source) then Invalid
    else if !ValidId(o.provenance.incarnation) then Invalid
    else if !ValidId(o.provenance.epoch) then Invalid
    else if !ValidId(o.link) then Invalid
    else ValidateReading(o.key, o.payload, policy)
  }
}
