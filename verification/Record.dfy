/**
 Ingest records: what a line declares and how a declaration is written
 (src/ingest/record.cpp:64-536, include/linkobs/ingest/record.hpp:3-37). A refusal is None; which
 status a refused line gets is not modelled.
 */
module Record {
  import opened Checked
  import opened Domain
  import opened Text
  import opened MetricText
  import opened Fields

  datatype Decl =
    | SourceDecl(name: string, authority: SourceAuthority, provenance: ProvenanceClass, retired: bool)
    | LinkDecl(name: string, kind: LinkKind, generation: string, provenance: ProvenanceClass, capacityKnown: bool,
               capacityIn: U64, capacityOut: U64, localEndpoint: string, remoteEndpoint: string, localPort: string,
               remotePort: string)
    | ObservationDecl(link: string, source: string, incarnation: string, epoch: string, generation: string,
                      revision: U64, observedAt: I64, receivedAt: I64, key: MetricKey, payload: MetricPayload)

  // ---------------------------------------------------------------------------
  // Field names
  // ---------------------------------------------------------------------------

  /** Every field name of the grammar, in an order that suits all three kinds of record. */
  datatype Tag =
    | Version | Kind | Name | Authority | LinkKindTag | LinkGeneration | ProvenanceTag | Retired
    | CapacityIn | CapacityOut | LocalEndpoint | RemoteEndpoint | LocalPort | RemotePort
    | LinkTag | SourceTag | Incarnation | Epoch | Generation | Revision | ObservedAt | ReceivedAt | Metric
    | Value | CounterTag | Width | ResetTag | Ppb | DegradedTag | Events | Window

  /** The order in which the formatter writes fields. */
  const ORDER: seq<Tag> :=
    [Version, Kind, Name, Authority, LinkKindTag, LinkGeneration, ProvenanceTag, Retired,
     CapacityIn, CapacityOut, LocalEndpoint, RemoteEndpoint, LocalPort, RemotePort,
     LinkTag, SourceTag, Incarnation, Epoch, Generation, Revision, ObservedAt, ReceivedAt, Metric,
     Value, CounterTag, Width, ResetTag, Ppb, DegradedTag, Events, Window]

  function Rank(t: Tag): (i: nat)
    ensures i < 31 && ORDER[i] == t
  {
    match t
    case Version => 0 case Kind => 1 case Name => 2 case Authority => 3 case LinkKindTag => 4 case LinkGeneration => 5
    case ProvenanceTag => 6 case Retired => 7 case CapacityIn => 8 case CapacityOut => 9 case LocalEndpoint => 10
    case RemoteEndpoint => 11 case LocalPort => 12 case RemotePort => 13 case LinkTag => 14 case SourceTag => 15
    case Incarnation => 16 case Epoch => 17 case Generation => 18 case Revision => 19 case ObservedAt => 20
    case ReceivedAt => 21 case Metric => 22 case Value => 23 case CounterTag => 24 case Width => 25
    case ResetTag => 26 case Ppb => 27 case DegradedTag => 28 case Events => 29 case Window => 30
  }

  function Spell(t: Tag): string {
    match t
    case Version => "v" case Kind => "kind" case Name => "name" case Authority => "authority"
    case LinkKindTag => "link-kind" case LinkGeneration => "linkgen" case ProvenanceTag => "provenance"
    case Retired => "retired" case CapacityIn => "capacity-in-bps" case CapacityOut => "capacity-out-bps"
    case LocalEndpoint => "local-endpoint" case RemoteEndpoint => "remote-endpoint" case LocalPort => "local-port"
    case RemotePort => "remote-port" case LinkTag => "link" case SourceTag => "source"
    case Incarnation => "incarnation" case Epoch => "epoch" case Generation => "generation"
    case Revision => "revision" case ObservedAt => "observed-at" case ReceivedAt => "received-at"
    case Metric => "metric" case Value => "value" case CounterTag => "counter" case Width => "width"
    case ResetTag => "reset" case Ppb => "ppb" case DegradedTag => "degraded" case Events => "events"
    case Window => "window-ns"
  }

  /** Length, first and middle character of each name; no two agree. */
  function Sign(t: Tag): (nat, char, char) {
    match t
    case Version => (1, 'v', 'v') case Kind => (4, 'k', 'n') case Name => (4, 'n', 'm') case Authority => (9, 'a', 'o')
    case LinkKindTag => (9, 'l', '-') case LinkGeneration => (7, 'l', 'k') case ProvenanceTag => (10, 'p', 'n')
    case Retired => (7, 'r', 'i') case CapacityIn => (15, 'c', 'y') case CapacityOut => (16, 'c', '-')
    case LocalEndpoint => (14, 'l', 'n') case RemoteEndpoint => (15, 'r', 'e') case LocalPort => (10, 'l', '-')
    case RemotePort => (11, 'r', 'e') case LinkTag => (4, 'l', 'n') case SourceTag => (6, 's', 'r')
    case Incarnation => (11, 'i', 'n') case Epoch => (5, 'e', 'o') case Generation => (10, 'g', 'a')
    case Revision => (8, 'r', 's') case ObservedAt => (11, 'o', 'v') case ReceivedAt => (11, 'r', 'v')
    case Metric => (6, 'm', 'r') case Value => (5, 'v', 'l') case CounterTag => (7, 'c', 'n') case Width => (5, 'w', 'd')
    case ResetTag => (5, 'r', 's') case Ppb => (3, 'p', 'p') case DegradedTag => (8, 'd', 'a') case Events => (6, 'e', 'n')
    case Window => (9, 'w', 'o')
  }

  lemma SpellSigned(t: Tag)
    ensures |Spell(t)| > 0 && Sign(t) == (|Spell(t)|, Spell(t)[0], Spell(t)[|Spell(t)| / 2])
  {
  }

  lemma SignTells(a: Tag, b: Tag)
    requires Sign(a) == Sign(b)
    ensures a == b
  {
  }

  lemma SpellTells(a: Tag, b: Tag)
    requires Spell(a) == Spell(b)
    ensures a == b
  {
    SpellSigned(a);
    SpellSigned(b);
    SignTells(a, b);
  }

  predicate NameText(s: string) {
    0 < |s| <= 16 && 'a' <= s[0] <= 'z' && forall i | 0 <= i < |s| :: 'a' <= s[i] <= 'z' || s[i] == '-'
  }

  lemma DeclarationNames(t: Tag)
    requires Rank(t) < 8
    ensures NameText(Spell(t))
  {
  }

  lemma LinkNames(t: Tag)
    requires 8 <= Rank(t) < 14
    ensures NameText(Spell(t))
  {
  }

  lemma ObservationNames(t: Tag)
    requires 14 <= Rank(t) < 23
    ensures NameText(Spell(t))
  {
  }

  lemma ReadingNames(t: Tag)
    requires 23 <= Rank(t)
    ensures NameText(Spell(t))
  {
  }

  lemma SpellIsName(t: Tag)
    ensures NameText(Spell(t))
  {
    if Rank(t) < 8 { DeclarationNames(t); }
    else if Rank(t) < 14 { LinkNames(t); }
    else if Rank(t) < 23 { ObservationNames(t); }
    else { ReadingNames(t); }
  }

  // ---------------------------------------------------------------------------
  // Reading fields
  // ---------------------------------------------------------------------------

  /** A field's text, by its name. */
  type Values = Tag -> Option<string>

  function Get(m: FieldMap, t: Tag): Option<string> {
    if Spell(t) in m then Some(m[Spell(t)]) else Option.None
  }

  function Lookup(m: FieldMap): Values { t => Get(m, t) }

  function TokenIn(g: Values, t: Tag): Option<string> {
    if g(t).Some? && IsToken(g(t).value) then g(t) else Option.None
  }

  function U64In(g: Values, t: Tag): Option<U64> {
    if g(t).Some? then ParseU64(g(t).value) else Option.None
  }

  function I64In(g: Values, t: Tag): Option<I64> {
    if g(t).Some? then ParseI64(g(t).value) else Option.None
  }

  function OptionalU64(g: Values, t: Tag): Option<U64> { if g(t).None? then Some(0) else U64In(g, t) }

  /** Absent means false; otherwise only "true" and "false" are accepted. */
  function OptionalBool(g: Values, t: Tag): Option<bool> {
    if g(t).None? then Some(false)
    else if g(t).value == "true" then Some(true)
    else if g(t).value == "false" then Some(false)
    else Option.None
  }

  function OptionalToken(g: Values, t: Tag): Option<string> { if g(t).None? then Some("") else TokenIn(g, t) }

  const AUTHORITY_NAMES: seq<string> := ["unknown", "synthetic", "derived", "secondary", "primary"]
  const PROVENANCE_NAMES: seq<string> := ["unknown", "real", "synthetic", "replayed"]
  const KIND_NAMES: seq<string> := ["unknown", "physical", "logical", "aggregate"]

  function ProvenanceIndex(p: ProvenanceClass): (i: nat)
    ensures i < 4 && PROVENANCES[i] == p
  {
    match p case Unknown => 0 case Real => 1 case Synthetic => 2 case Replayed => 3
  }

  function KindIndex(k: LinkKind): (i: nat)
    ensures i < 4 && KINDS[i] == k
  {
    match k case Unknown => 0 case Physical => 1 case Logical => 2 case Aggregate => 3
  }

  function AuthorityText(a: SourceAuthority): string { AUTHORITY_NAMES[a.Rank()] }
  function ProvenanceText(p: ProvenanceClass): string { PROVENANCE_NAMES[ProvenanceIndex(p)] }
  function KindText(k: LinkKind): string { KIND_NAMES[KindIndex(k)] }
  function AdminText(a: AdminStateValue): string { match a case Unknown => "unknown" case Enabled => "enabled" case Disabled => "disabled" }
  function OperText(o: OperStateValue): string { match o case Unknown => "unknown" case Up => "up" case Down => "down" case Degraded => "degraded" }
  function WidthText(w: CounterWidth): string { if w == Bits32 then "bits32" else "bits64" }

  /** "up" and "down" are accepted spellings of enabled and disabled. */
  function ParseAdmin(s: string): Option<AdminStateValue> {
    if s == "unknown" then Some(AdminStateValue.Unknown)
    else if s == "enabled" || s == "up" then Some(Enabled)
    else if s == "disabled" || s == "down" then Some(Disabled)
    else Option.None
  }

  function ParseOper(s: string): Option<OperStateValue> {
    if s == "unknown" then Some(OperStateValue.Unknown)
    else if s == "up" then Some(Up)
    else if s == "down" then Some(OperStateValue.Down)
    else if s == "degraded" then Some(OperStateValue.Degraded)
    else Option.None
  }

  function ParseWidth(s: string): Option<CounterWidth> {
    if s == "bits32" then Some(Bits32) else if s == "bits64" then Some(Bits64) else Option.None
  }

  function AuthorityIn(g: Values): Option<SourceAuthority> {
    if TokenIn(g, Authority).Some? then Named(AUTHORITY_NAMES, AUTHORITIES, TokenIn(g, Authority).value) else Option.None
  }

  function ProvenanceIn(g: Values): Option<ProvenanceClass> {
    if TokenIn(g, ProvenanceTag).Some? then Named(PROVENANCE_NAMES, PROVENANCES, TokenIn(g, ProvenanceTag).value) else Option.None
  }

  function KindIn(g: Values): Option<LinkKind> {
    if TokenIn(g, LinkKindTag).Some? then Named(KIND_NAMES, KINDS, TokenIn(g, LinkKindTag).value) else Option.None
  }

  function KeyIn(g: Values): Option<MetricKey> {
    if g(Metric).Some? && 0 < |g(Metric).value| <= 64 then ParseKey(g(Metric).value) else Option.None
  }

  // ---------------------------------------------------------------------------
  // Parsing the fields of a record
  // ---------------------------------------------------------------------------

  const SOURCE_TAGS: set<Tag> := {Version, Kind, Name, Authority, ProvenanceTag, Retired}
  const LINK_TAGS: set<Tag> :=
    {Version, Kind, Name, LinkKindTag, LinkGeneration, ProvenanceTag, CapacityIn, CapacityOut, LocalEndpoint, RemoteEndpoint,
     LocalPort, RemotePort}
  const OBSERVATION_TAGS: set<Tag> :=
    {Version, Kind, LinkTag, SourceTag, Incarnation, Epoch, Generation, Revision, ObservedAt, ReceivedAt, Metric}

  function ReadingTags(f: MetricFamily): set<Tag> {
    match f
    case AdminState => {Value}
    case OperState => {Value}
    case Octets => {CounterTag, Width, ResetTag}
    case Errors => {CounterTag, Width, ResetTag}
    case Discards => {CounterTag, Width, ResetTag}
    case UtilReported => {Ppb}
    case SignalQuality => {Ppb, DegradedTag}
    case FlapReport => {Events, Window}
  }

  /** The fields a declaration of this kind reads. */
  function TagsOf(d: Decl): set<Tag> {
    match d
    case SourceDecl(_, _, _, _) => SOURCE_TAGS
    case LinkDecl(_, _, _, _, _, _, _, _, _, _, _) => LINK_TAGS
    case ObservationDecl(_, _, _, _, _, _, _, _, key, _) => OBSERVATION_TAGS + ReadingTags(key.family)
  }

  function ParseSource(g: Values): Option<Decl> {
    var name, authority, provenance, retired := TokenIn(g, Name), AuthorityIn(g), ProvenanceIn(g), OptionalBool(g, Retired);
    if name.Some? && authority.Some? && provenance.Some? && provenance.value != ProvenanceClass.Unknown && retired.Some?
    then Some(SourceDecl(name.value, authority.value, provenance.value, retired.value))
    else Option.None
  }

  function ParseLink(g: Values): Option<Decl> {
    var name, kind, generation, provenance := TokenIn(g, Name), KindIn(g), TokenIn(g, LinkGeneration), ProvenanceIn(g);
    var capacityIn, capacityOut := OptionalU64(g, CapacityIn), OptionalU64(g, CapacityOut);
    var le, re, lp, rp := OptionalToken(g, LocalEndpoint), OptionalToken(g, RemoteEndpoint), OptionalToken(g, LocalPort), OptionalToken(g, RemotePort);
    if name.Some? && kind.Some? && generation.Some? && provenance.Some? && capacityIn.Some? && capacityOut.Some?
       && le.Some? && re.Some? && lp.Some? && rp.Some?
    then Some(LinkDecl(name.value, kind.value, generation.value, provenance.value, capacityIn.value > 0 || capacityOut.value > 0,
                       capacityIn.value, capacityOut.value, le.value, re.value, lp.value, rp.value))
    else Option.None
  }

  function PayloadIn(g: Values, f: MetricFamily): Option<MetricPayload> {
    match f
    case AdminState =>
      if TokenIn(g, Value).None? then Option.None
      else (match ParseAdmin(TokenIn(g, Value).value) case None => Option.None case Some(a) => Some(Admin(a)))
    case OperState =>
      if TokenIn(g, Value).None? then Option.None
      else (match ParseOper(TokenIn(g, Value).value) case None => Option.None case Some(o) => Some(Oper(o)))
    case UtilReported => if U64In(g, Ppb).Some? then Some(Ratio(U64In(g, Ppb).value)) else Option.None
    case SignalQuality =>
      if U64In(g, Ppb).Some? && OptionalBool(g, DegradedTag).Some?
      then Some(Quality(U64In(g, Ppb).value, OptionalBool(g, DegradedTag).value)) else Option.None
    case FlapReport =>
      if U64In(g, Events).Some? && I64In(g, Window).Some? then Some(Flap(U64In(g, Events).value, I64In(g, Window).value)) else Option.None
    case _ =>
      if U64In(g, CounterTag).Some? && TokenIn(g, Width).Some? && ParseWidth(TokenIn(g, Width).value).Some?
         && OptionalBool(g, ResetTag).Some?
      then Some(Counter(CounterReading(U64In(g, CounterTag).value, ParseWidth(TokenIn(g, Width).value).value, OptionalBool(g, ResetTag).value)))
      else Option.None
  }

  /** A key and a reading that is valid for it. */
  function ReadingIn(g: Values, policy: Policy): Option<(MetricKey, MetricPayload)> {
    var key := KeyIn(g);
    if key.None? then Option.None
    else
      var payload := PayloadIn(g, key.value.family);
      if payload.Some? && ValidateReading(key.value, payload.value, policy) == Ok then Some((key.value, payload.value))
      else Option.None
  }

  function ParseObservation(g: Values, policy: Policy): Option<Decl> {
    var link, source, incarnation, epoch, generation :=
      TokenIn(g, LinkTag), TokenIn(g, SourceTag), TokenIn(g, Incarnation), TokenIn(g, Epoch), TokenIn(g, Generation);
    var revision, observedAt, receivedAt, reading := U64In(g, Revision), I64In(g, ObservedAt), I64In(g, ReceivedAt), ReadingIn(g, policy);
    if link.None? || source.None? || incarnation.None? || epoch.None? || generation.None?
       || revision.None? || observedAt.None? || receivedAt.None? || reading.None?
    then Option.None
    else Some(ObservationDecl(link.value, source.value, incarnation.value, epoch.value, generation.value,
                              revision.value, observedAt.value, receivedAt.value, reading.value.0, reading.value.1))
  }

  /** The declaration the fields spell, whatever other fields there may be. */
  function ParseValues(g: Values, policy: Policy): Option<Decl> {
    if U64In(g, Version) != Some(1) then Option.None
    else if TokenIn(g, Kind) == Some("source") then ParseSource(g)
    else if TokenIn(g, Kind) == Some("link") then ParseLink(g)
    else if TokenIn(g, Kind) == Some("observation") then ParseObservation(g, policy)
    else Option.None
  }

  /** Every field of the record is one of these. */
  ghost predicate Only(m: FieldMap, tags: set<Tag>) {
    forall s | s in m :: exists t :: t in tags && Spell(t) == s
  }

  /** The declaration, provided no field was left unread. */
  ghost function ParseMap(m: FieldMap, policy: Policy): Option<Decl> {
    var d := ParseValues(Lookup(m), policy);
    if d.Some? && Only(m, TagsOf(d.value)) then d else Option.None
  }

  ghost function ParseRecord(line: string, policy: Policy): Option<Decl> {
    var s := Trim(line);
    if s == "" || s[0] == '#' || |s| > policy.limits.maxRecordBytes then Option.None
    else match ParseFields(s)
      case None => Option.None
      case Some(m) => ParseMap(m, policy)
  }

  // ---------------------------------------------------------------------------
  // Formatting
  // ---------------------------------------------------------------------------

  function WhenSet(present: bool, text: string): Option<string> { if present then Some(text) else Option.None }

  function SourceValue(d: Decl, t: Tag): Option<string>
    requires d.SourceDecl?
  {
    match t
    case Version => Some("1")
    case Kind => Some("source")
    case Name => Some(d.name)
    case Authority => Some(AuthorityText(d.authority))
    case ProvenanceTag => Some(ProvenanceText(d.provenance))
    case Retired => WhenSet(d.retired, "true")
    case _ => Option.None
  }

  function LinkValue(d: Decl, t: Tag): Option<string>
    requires d.LinkDecl?
  {
    match t
    case Version => Some("1")
    case Kind => Some("link")
    case Name => Some(d.name)
    case LinkKindTag => Some(KindText(d.kind))
    case LinkGeneration => Some(d.generation)
    case ProvenanceTag => Some(ProvenanceText(d.provenance))
    case CapacityIn => WhenSet(d.capacityIn > 0, ToDec(d.capacityIn))
    case CapacityOut => WhenSet(d.capacityOut > 0, ToDec(d.capacityOut))
    case LocalEndpoint => WhenSet(d.localEndpoint != "", d.localEndpoint)
    case RemoteEndpoint => WhenSet(d.remoteEndpoint != "", d.remoteEndpoint)
    case LocalPort => WhenSet(d.localPort != "", d.localPort)
    case RemotePort => WhenSet(d.remotePort != "", d.remotePort)
    case _ => Option.None
  }

  function PayloadValue(p: MetricPayload, t: Tag): Option<string> {
    match p
    case Admin(a) => WhenSet(t == Value, AdminText(a))
    case Oper(o) => WhenSet(t == Value, OperText(o))
    case Counter(c) =>
      if t == CounterTag then Some(ToDec(c.raw))
      else if t == Width then Some(WidthText(c.width))
      else WhenSet(t == ResetTag && c.resetDeclared, "true")
    case Ratio(ppb) => WhenSet(t == Ppb, ToDec(ppb))
    case Quality(ppb, degraded) => if t == Ppb then Some(ToDec(ppb)) else WhenSet(t == DegradedTag && degraded, "true")
    case Flap(events, window) =>
      if t == Events then Some(ToDec(events)) else WhenSet(t == Window, ToDecSigned(window))
  }

  function ObservationValue(d: Decl, t: Tag): Option<string>
    requires d.ObservationDecl?
  {
    match t
    case Version => Some("1")
    case Kind => Some("observation")
    case LinkTag => Some(d.link)
    case SourceTag => Some(d.source)
    case Incarnation => Some(d.incarnation)
    case Epoch => Some(d.epoch)
    case Generation => Some(d.generation)
    case Revision => Some(ToDec(d.revision))
    case ObservedAt => Some(ToDecSigned(d.observedAt))
    case ReceivedAt => Some(ToDecSigned(d.receivedAt))
    case Metric => Some(KeyText(d.key))
    case _ => PayloadValue(d.payload, t)
  }

  /** What the formatter writes for a field, if it writes it. */
  function ValueOf(d: Decl, t: Tag): Option<string> {
    match d
    case SourceDecl(_, _, _, _) => SourceValue(d, t)
    case LinkDecl(_, _, _, _, _, _, _, _, _, _, _) => LinkValue(d, t)
    case ObservationDecl(_, _, _, _, _, _, _, _, _, _) => ObservationValue(d, t)
  }

  function ValuesOf(d: Decl): Values { t => ValueOf(d, t) }

  /** The fields with a value, in the given order. */
  function Collect(order: seq<Tag>, value: Values): seq<Field> {
    if order == [] then []
    else
      var n := |order| - 1;
      var before := Collect(order[..n], value);
      if value(order[n]).Some? then before + [(Spell(order[n]), value(order[n]).value)] else before
  }

  function Format(d: Decl): string { Render(Collect(ORDER, ValuesOf(d))) }

  /** `format_record`: adds the fields that are set, one after the other. */
  method FormatRecord(d: Decl) returns (line: string)
    ensures line == Format(d)
  {
    var fs: seq<Field>, i := [], 0;
    while i < |ORDER|
      invariant 0 <= i <= |ORDER| && fs == Collect(ORDER[..i], ValuesOf(d))
    {
      assert ORDER[..i + 1][..i] == ORDER[..i];
      var value := ValuesOf(d)(ORDER[i]);
      if value.Some? {
        fs := fs + [(Spell(ORDER[i]), value.value)];
      }
      i := i + 1;
    }
    assert ORDER[..i] == ORDER;
    line := Build(fs);
  }
}
