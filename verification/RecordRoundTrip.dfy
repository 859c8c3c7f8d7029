/**
 Parsing what the formatter writes, and parsing the same fields in any order
 (src/ingest/record.cpp:445-562).
 */
module RecordRoundTrip {
  import opened Checked
  import opened Domain
  import opened Text
  import opened MetricText
  import opened Fields
  import opened Record

  // ---------------------------------------------------------------------------
  // The fields of a formatted declaration
  // ---------------------------------------------------------------------------

  predicate Increasing(order: seq<Tag>) { forall i, j | 0 <= i < j < |order| :: Rank(order[i]) < Rank(order[j]) }

  lemma DeclarationRanks(i: nat)
    requires i < 6
    ensures Rank(ORDER[i]) == i
  {
  }

  lemma CapacityRanks(i: nat)
    requires 6 <= i < 12
    ensures Rank(ORDER[i]) == i
  {
  }

  lemma NameRanks(i: nat)
    requires 12 <= i < 18
    ensures Rank(ORDER[i]) == i
  {
  }

  lemma StampRanks(i: nat)
    requires 18 <= i < 24
    ensures Rank(ORDER[i]) == i
  {
  }

  lemma ReadingRanks(i: nat)
    requires 24 <= i < |ORDER|
    ensures Rank(ORDER[i]) == i
  {
  }

  lemma RankAt(i: nat)
    requires i < |ORDER|
    ensures Rank(ORDER[i]) == i
  {
    if i < 6 { DeclarationRanks(i); }
    else if i < 12 { CapacityRanks(i); }
    else if i < 18 { NameRanks(i); }
    else if i < 24 { StampRanks(i); }
    else { ReadingRanks(i); }
  }

  lemma OrderIncreases()
    ensures Increasing(ORDER)
  {
    forall i, j | 0 <= i < j < |ORDER| ensures Rank(ORDER[i]) < Rank(ORDER[j]) {
      RankAt(i);
      RankAt(j);
    }
  }

  lemma {:induction false} CollectedFrom(order: seq<Tag>, value: Values, i: nat) returns (t: Tag)
    requires i < |Collect(order, value)|
    ensures t in order && Collect(order, value)[i].0 == Spell(t) && value(t) == Some(Collect(order, value)[i].1)
  {
    var n := |order| - 1;
    if i < |Collect(order[..n], value)| {
      t := CollectedFrom(order[..n], value, i);
      assert t in order[..n];
    } else {
      t := order[n];
    }
  }

  lemma {:induction false} CollectedAt(order: seq<Tag>, value: Values, t: Tag) returns (i: nat)
    requires t in order && value(t).Some?
    ensures i < |Collect(order, value)| && Collect(order, value)[i] == (Spell(t), value(t).value)
  {
    var n := |order| - 1;
    if order[n] == t {
      i := |Collect(order[..n], value)|;
    } else {
      assert order == order[..n] + [order[n]];
      i := CollectedAt(order[..n], value, t);
    }
  }

  lemma {:induction false} CollectedDistinct(order: seq<Tag>, value: Values)
    requires Increasing(order)
    ensures KeysDistinct(Collect(order, value))
  {
    if order != [] {
      var n := |order| - 1;
      var before, all := Collect(order[..n], value), Collect(order, value);
      CollectedDistinct(order[..n], value);
      forall i, j | 0 <= i < j < |all| ensures all[i].0 != all[j].0 {
        if j == |before| {
          var t := CollectedFrom(order[..n], value, i);
          var k :| 0 <= k < n && order[..n][k] == t;
          assert Rank(order[k]) < Rank(order[n]);
          if Spell(t) == Spell(order[n]) {
            SpellTells(t, order[n]);
          }
        }
      }
    }
  }

  function FieldsOf(d: Decl): seq<Field> { Collect(ORDER, ValuesOf(d)) }

  /** Reading a formatted declaration's fields gives what was written, and nothing else is there. */
  lemma {:induction false} GetFormatted(value: Values, t: Tag)
    ensures Get(MapOf(Collect(ORDER, value)), t) == value(t)
  {
    OrderIncreases();
    CollectedDistinct(ORDER, value);
    if value(t).Some? {
      assert t == ORDER[Rank(t)];
      var i := CollectedAt(ORDER, value, t);
      MapOfHolds(Collect(ORDER, value), i);
    } else if Spell(t) in MapOf(Collect(ORDER, value)) {
      var i := MapOfOnly(Collect(ORDER, value), Spell(t));
      var t' := CollectedFrom(ORDER, value, i);
      SpellTells(t, t');
    }
  }

  lemma {:induction false} OnlyFormatted(value: Values, tags: set<Tag>)
    requires forall t | value(t).Some? :: t in tags
    ensures Only(MapOf(Collect(ORDER, value)), tags)
  {
    var m := MapOf(Collect(ORDER, value));
    forall s | s in m ensures exists t :: t in tags && Spell(t) == s {
      var i := MapOfOnly(Collect(ORDER, value), s);
      var t := CollectedFrom(ORDER, value, i);
    }
  }

  // ---------------------------------------------------------------------------
  // Well-formed declarations
  // ---------------------------------------------------------------------------

  predicate BlankOrToken(s: string) { s == "" || IsToken(s) }

  /** What the grammar can say: token names, and for an observation a valid reading of a spellable key. */
  predicate WellFormed(d: Decl, policy: Policy) {
    match d
    case SourceDecl(name, _, provenance, _) => IsToken(name) && provenance != ProvenanceClass.Unknown
    case LinkDecl(name, _, generation, _, known, cin, cout, le, re, lp, rp) =>
      && IsToken(name) && IsToken(generation) && (known <==> cin > 0 || cout > 0)
      && BlankOrToken(le) && BlankOrToken(re) && BlankOrToken(lp) && BlankOrToken(rp)
    case ObservationDecl(link, source, incarnation, epoch, generation, _, _, _, key, payload) =>
      && IsToken(link) && IsToken(source) && IsToken(incarnation) && IsToken(epoch) && IsToken(generation)
      && Spellable(key) && ValidateReading(key, payload, policy) == Ok
  }

  lemma {:induction false} PayloadTags(f: MetricFamily, p: MetricPayload, t: Tag)
    requires PayloadMatchesFamily(f, p) && PayloadValue(p, t).Some?
    ensures t in ReadingTags(f)
  {
  }

  lemma {:induction false} DeclarationTags(d: Decl, t: Tag)
    requires !d.ObservationDecl? && ValueOf(d, t).Some?
    ensures t in TagsOf(d)
  {
  }

  lemma {:induction false} ObservationTags(d: Decl, t: Tag)
    requires d.ObservationDecl? && ObservationValue(d, t).Some?
    ensures t in OBSERVATION_TAGS || PayloadValue(d.payload, t).Some?
  {
  }

  lemma {:induction false} ValueTags(d: Decl, t: Tag, policy: Policy)
    requires ValueOf(d, t).Some? && WellFormed(d, policy)
    ensures t in TagsOf(d)
  {
    if d.ObservationDecl? {
      ObservationTags(d, t);
      if t !in OBSERVATION_TAGS {
        PayloadTags(d.key.family, d.payload, t);
      }
    } else {
      DeclarationTags(d, t);
    }
  }

  // ---------------------------------------------------------------------------
  // Values survive
  // ---------------------------------------------------------------------------

  lemma AuthoritySpelled(a: SourceAuthority)
    ensures Named(AUTHORITY_NAMES, AUTHORITIES, AuthorityText(a)) == Some(a) && IsToken(AuthorityText(a))
  {
    forall i, j | 0 <= i < j < |AUTHORITY_NAMES| ensures AUTHORITY_NAMES[i] != AUTHORITY_NAMES[j] {
      assert Mark(AUTHORITY_NAMES[i]) != Mark(AUTHORITY_NAMES[j]);
    }
    NamedAt(AUTHORITY_NAMES, AUTHORITIES, a.Rank());
  }

  lemma ProvenanceSpelled(p: ProvenanceClass)
    ensures Named(PROVENANCE_NAMES, PROVENANCES, ProvenanceText(p)) == Some(p) && IsToken(ProvenanceText(p))
  {
    forall i, j | 0 <= i < j < |PROVENANCE_NAMES| ensures PROVENANCE_NAMES[i] != PROVENANCE_NAMES[j] {
      assert Mark(PROVENANCE_NAMES[i]) != Mark(PROVENANCE_NAMES[j]);
    }
    NamedAt(PROVENANCE_NAMES, PROVENANCES, ProvenanceIndex(p));
  }

  lemma KindSpelled(k: LinkKind)
    ensures Named(KIND_NAMES, KINDS, KindText(k)) == Some(k) && IsToken(KindText(k))
  {
    forall i, j | 0 <= i < j < |KIND_NAMES| ensures KIND_NAMES[i] != KIND_NAMES[j] {
      assert Mark(KIND_NAMES[i]) != Mark(KIND_NAMES[j]);
    }
    NamedAt(KIND_NAMES, KINDS, KindIndex(k));
  }

  lemma AdminSpelled(a: AdminStateValue)
    ensures ParseAdmin(AdminText(a)) == Some(a) && IsToken(AdminText(a))
  {
  }

  lemma OperSpelled(o: OperStateValue)
    ensures ParseOper(OperText(o)) == Some(o) && IsToken(OperText(o))
  {
  }

  lemma WidthSpelled(w: CounterWidth)
    ensures ParseWidth(WidthText(w)) == Some(w) && IsToken(WidthText(w))
  {
    assert "bits32"[4] != "bits64"[4];
  }

  lemma KindWords()
    ensures IsToken("source") && IsToken("link") && IsToken("observation")
    ensures "source" != "link" && "source" != "observation" && "link" != "observation"
  {
  }

  /** The fields are exactly those the formatter writes for the declaration. */
  ghost predicate Carries(g: Values, d: Decl) { forall t :: g(t) == ValueOf(d, t) }

  lemma TokenRead(g: Values, t: Tag, s: string)
    requires g(t) == Some(s) && IsToken(s)
    ensures TokenIn(g, t) == Some(s)
  {
  }

  lemma NumberRead(g: Values, t: Tag, v: U64)
    requires g(t) == Some(ToDec(v))
    ensures U64In(g, t) == Some(v)
  {
    U64RoundTrip(v);
  }

  lemma SignedRead(g: Values, t: Tag, v: I64)
    requires g(t) == Some(ToDecSigned(v))
    ensures I64In(g, t) == Some(v)
  {
    I64RoundTrip(v);
  }

  lemma CapacityRead(g: Values, t: Tag, v: U64)
    requires g(t) == WhenSet(v > 0, ToDec(v))
    ensures OptionalU64(g, t) == Some(v)
  {
    U64RoundTrip(v);
  }

  lemma AnchorRead(g: Values, t: Tag, v: string)
    requires g(t) == WhenSet(v != "", v) && BlankOrToken(v)
    ensures OptionalToken(g, t) == Some(v)
  {
  }

  lemma FlagRead(g: Values, t: Tag, v: bool)
    requires g(t) == WhenSet(v, "true")
    ensures OptionalBool(g, t) == Some(v)
  {
  }

  lemma VersionRead(g: Values)
    requires g(Version) == Some("1")
    ensures U64In(g, Version) == Some(1)
  {
    assert ToDec(1) == "1";
    U64RoundTrip(1);
  }

  lemma {:induction false} SourceParses(g: Values, d: Decl, policy: Policy)
    requires d.SourceDecl? && WellFormed(d, policy) && Carries(g, d)
    ensures ParseValues(g, policy) == Some(d)
  {
    VersionRead(g);
    KindWords();
    AuthoritySpelled(d.authority);
    ProvenanceSpelled(d.provenance);
    TokenRead(g, Kind, "source");
    TokenRead(g, Name, d.name);
    TokenRead(g, Authority, AuthorityText(d.authority));
    TokenRead(g, ProvenanceTag, ProvenanceText(d.provenance));
    FlagRead(g, Retired, d.retired);
  }

  lemma {:induction false} LinkNamesRead(g: Values, d: Decl, policy: Policy)
    requires d.LinkDecl? && WellFormed(d, policy) && Carries(g, d)
    ensures TokenIn(g, Name) == Some(d.name) && KindIn(g) == Some(d.kind)
    ensures TokenIn(g, LinkGeneration) == Some(d.generation) && ProvenanceIn(g) == Some(d.provenance)
  {
    KindSpelled(d.kind);
    ProvenanceSpelled(d.provenance);
    TokenRead(g, Name, d.name);
    TokenRead(g, LinkKindTag, KindText(d.kind));
    TokenRead(g, LinkGeneration, d.generation);
    TokenRead(g, ProvenanceTag, ProvenanceText(d.provenance));
  }

  lemma {:induction false} LinkOptionsRead(g: Values, d: Decl, policy: Policy)
    requires d.LinkDecl? && WellFormed(d, policy) && Carries(g, d)
    ensures OptionalU64(g, CapacityIn) == Some(d.capacityIn) && OptionalU64(g, CapacityOut) == Some(d.capacityOut)
    ensures OptionalToken(g, LocalEndpoint) == Some(d.localEndpoint) && OptionalToken(g, RemoteEndpoint) == Some(d.remoteEndpoint)
    ensures OptionalToken(g, LocalPort) == Some(d.localPort) && OptionalToken(g, RemotePort) == Some(d.remotePort)
  {
    CapacityRead(g, CapacityIn, d.capacityIn);
    CapacityRead(g, CapacityOut, d.capacityOut);
    AnchorRead(g, LocalEndpoint, d.localEndpoint);
    AnchorRead(g, RemoteEndpoint, d.remoteEndpoint);
    AnchorRead(g, LocalPort, d.localPort);
    AnchorRead(g, RemotePort, d.remotePort);
  }

  lemma {:induction false} LinkParses(g: Values, d: Decl, policy: Policy)
    requires d.LinkDecl? && WellFormed(d, policy) && Carries(g, d)
    ensures ParseValues(g, policy) == Some(d)
  {
    VersionRead(g);
    KindWords();
    TokenRead(g, Kind, "link");
    LinkNamesRead(g, d, policy);
    LinkOptionsRead(g, d, policy);
  }

  lemma {:induction false} KeyTextShort(key: MetricKey)
    ensures 0 < |KeyText(key)| <= 33
  {
    FamilyPlain(key.family);
    DirectionPlain(key.direction);
    ClassPlain(key.errorClass);
  }

  lemma {:induction false} ObservationNamesRead(g: Values, d: Decl, policy: Policy)
    requires d.ObservationDecl? && WellFormed(d, policy) && Carries(g, d)
    ensures TokenIn(g, LinkTag) == Some(d.link) && TokenIn(g, SourceTag) == Some(d.source)
    ensures TokenIn(g, Incarnation) == Some(d.incarnation) && TokenIn(g, Epoch) == Some(d.epoch)
    ensures TokenIn(g, Generation) == Some(d.generation)
  {
    TokenRead(g, LinkTag, d.link);
    TokenRead(g, SourceTag, d.source);
    TokenRead(g, Incarnation, d.incarnation);
    TokenRead(g, Epoch, d.epoch);
    TokenRead(g, Generation, d.generation);
  }

  lemma {:induction false} ObservationNumbersRead(g: Values, d: Decl, policy: Policy)
    requires d.ObservationDecl? && WellFormed(d, policy) && Carries(g, d)
    ensures U64In(g, Revision) == Some(d.revision) && I64In(g, ObservedAt) == Some(d.observedAt)
    ensures I64In(g, ReceivedAt) == Some(d.receivedAt)
  {
    NumberRead(g, Revision, d.revision);
    SignedRead(g, ObservedAt, d.observedAt);
    SignedRead(g, ReceivedAt, d.receivedAt);
  }

  lemma {:induction false} KeyRead(g: Values, key: MetricKey)
    requires g(Metric) == Some(KeyText(key)) && Spellable(key)
    ensures KeyIn(g) == Some(key)
  {
    KeyTextShort(key);
    KeyRoundTripIff(key);
  }

  /** The reading's own fields, apart from the rest of the declaration. */
  ghost predicate CarriesReading(g: Values, p: MetricPayload) {
    && g(Value) == PayloadValue(p, Value) && g(CounterTag) == PayloadValue(p, CounterTag)
    && g(Width) == PayloadValue(p, Width) && g(ResetTag) == PayloadValue(p, ResetTag)
    && g(Ppb) == PayloadValue(p, Ppb) && g(DegradedTag) == PayloadValue(p, DegradedTag)
    && g(Events) == PayloadValue(p, Events) && g(Window) == PayloadValue(p, Window)
  }

  lemma {:induction false} CounterRead(g: Values, c: CounterReading)
    requires CarriesReading(g, Counter(c))
    ensures U64In(g, CounterTag) == Some(c.raw) && OptionalBool(g, ResetTag) == Some(c.resetDeclared)
    ensures TokenIn(g, Width).Some? && ParseWidth(TokenIn(g, Width).value) == Some(c.width)
  {
    NumberRead(g, CounterTag, c.raw);
    WidthSpelled(c.width);
    TokenRead(g, Width, WidthText(c.width));
    FlagRead(g, ResetTag, c.resetDeclared);
  }

  lemma {:induction false} PayloadRead(g: Values, f: MetricFamily, p: MetricPayload)
    requires PayloadMatchesFamily(f, p) && CarriesReading(g, p)
    ensures PayloadIn(g, f) == Some(p)
  {
    match p {
      case Admin(a) => AdminSpelled(a); TokenRead(g, Value, AdminText(a));
      case Oper(o) => OperSpelled(o); TokenRead(g, Value, OperText(o));
      case Counter(c) => CounterRead(g, c);
      case Ratio(ppb) => NumberRead(g, Ppb, ppb);
      case Quality(ppb, degraded) =>
        NumberRead(g, Ppb, ppb);
        FlagRead(g, DegradedTag, degraded);
      case Flap(events, window) =>
        NumberRead(g, Events, events);
        SignedRead(g, Window, window);
    }
  }

  /** What an observation's fields must read as for the declaration to be returned. */
  ghost predicate ReadsAs(g: Values, d: Decl)
    requires d.ObservationDecl?
  {
    && TokenIn(g, LinkTag) == Some(d.link) && TokenIn(g, SourceTag) == Some(d.source)
    && TokenIn(g, Incarnation) == Some(d.incarnation) && TokenIn(g, Epoch) == Some(d.epoch)
    && TokenIn(g, Generation) == Some(d.generation)
    && U64In(g, Revision) == Some(d.revision) && I64In(g, ObservedAt) == Some(d.observedAt)
    && I64In(g, ReceivedAt) == Some(d.receivedAt) && KeyIn(g) == Some(d.key)
    && PayloadIn(g, d.key.family) == Some(d.payload)
  }

  lemma {:induction false} ObservationAssembles(g: Values, d: Decl, policy: Policy)
    requires d.ObservationDecl? && ReadsAs(g, d) && ValidateReading(d.key, d.payload, policy) == Ok
    ensures ParseObservation(g, policy) == Some(d)
  {
  }

  lemma {:induction false} ReadingCarried(g: Values, d: Decl)
    requires d.ObservationDecl? && Carries(g, d)
    ensures CarriesReading(g, d.payload)
  {
  }

  lemma {:induction false} ObservationReadingRead(g: Values, d: Decl, policy: Policy)
    requires d.ObservationDecl? && ValidateReading(d.key, d.payload, policy) == Ok && Carries(g, d)
    ensures PayloadIn(g, d.key.family) == Some(d.payload)
  {
    ReadingCarried(g, d);
    PayloadRead(g, d.key.family, d.payload);
  }

  lemma {:induction false} ObservationKeyRead(g: Values, d: Decl)
    requires d.ObservationDecl? && Spellable(d.key) && Carries(g, d)
    ensures KeyIn(g) == Some(d.key)
  {
    assert g(Metric) == ValueOf(d, Metric);
    KeyRead(g, d.key);
  }

  lemma {:induction false} ObservationReads(g: Values, d: Decl, policy: Policy)
    requires d.ObservationDecl? && WellFormed(d, policy) && Carries(g, d)
    ensures ReadsAs(g, d)
  {
    ObservationNamesRead(g, d, policy);
    ObservationNumbersRead(g, d, policy);
    ObservationKeyRead(g, d);
    ObservationReadingRead(g, d, policy);
  }

  lemma {:induction false} ObservationKind(g: Values, d: Decl, policy: Policy)
    requires d.ObservationDecl? && Carries(g, d)
    ensures ParseValues(g, policy) == ParseObservation(g, policy)
  {
    assert g(Version) == ValueOf(d, Version) && g(Kind) == ValueOf(d, Kind);
    VersionRead(g);
    KindWords();
    TokenRead(g, Kind, "observation");
  }

  lemma {:induction false} ObservationParses(g: Values, d: Decl, policy: Policy)
    requires d.ObservationDecl? && WellFormed(d, policy) && Carries(g, d)
    ensures ParseValues(g, policy) == Some(d)
  {
    ObservationKind(g, d, policy);
    ObservationReads(g, d, policy);
    ObservationAssembles(g, d, policy);
  }

  // ---------------------------------------------------------------------------
  // The line
  // ---------------------------------------------------------------------------

  lemma TokenValue(s: string)
    requires IsToken(s)
    ensures |s| <= 128 && Printable(s) && Without(s, ' ')
  {
    assert forall i | 0 <= i < |s| :: TokenChar(s[i]);
  }

  lemma DecimalValue(v: U64)
    ensures |ToDec(v)| <= 20 && Printable(ToDec(v)) && Without(ToDec(v), ' ')
  {
    WordFitsTwenty();
    ToDecLength(v, 20);
    assert AllDigits(ToDec(v));
  }

  lemma SignedValue(v: I64)
    ensures |ToDecSigned(v)| <= 21 && Printable(ToDecSigned(v)) && Without(ToDecSigned(v), ' ')
  {
    if v >= 0 { DecimalValue(v); } else { DecimalValue(Negate(v)); }
  }

  lemma FamilyValue(f: MetricFamily)
    ensures IsToken(FamilyText(f))
  {
  }

  lemma DirectionValue(d: Direction)
    ensures IsToken(DirectionText(d))
  {
  }

  lemma ClassValue(c: ErrorClass)
    ensures IsToken(ClassText(c))
  {
  }

  lemma {:induction false} SlashedValue(f: string, d: Option<string>, c: Option<string>)
    requires IsToken(f) && (d.Some? ==> IsToken(d.value)) && (c.Some? ==> IsToken(c.value))
    ensures Printable(Slashed(f, d, c)) && Without(Slashed(f, d, c), ' ')
  {
    TokenValue(f);
    if d.Some? { TokenValue(d.value); }
    if c.Some? { TokenValue(c.value); }
  }

  lemma {:induction false} KeyValue(key: MetricKey)
    ensures |KeyText(key)| <= 33 && Printable(KeyText(key)) && Without(KeyText(key), ' ')
  {
    KeyTextShort(key);
    FamilyValue(key.family);
    DirectionValue(key.direction);
    ClassValue(key.errorClass);
    SlashedValue(FamilyText(key.family), PrintedDirection(key), PrintedClass(key));
  }

  predicate ValueOk(v: Option<string>) { v.Some? ==> |v.value| <= MAX_VALUE && Printable(v.value) && Without(v.value, ' ') }

  lemma {:induction false} PayloadValueOk(p: MetricPayload, t: Tag)
    ensures ValueOk(PayloadValue(p, t))
  {
    match p {
      case Admin(a) => AdminSpelled(a); TokenValue(AdminText(a));
      case Oper(o) => OperSpelled(o); TokenValue(OperText(o));
      case Counter(c) => DecimalValue(c.raw); WidthSpelled(c.width); TokenValue(WidthText(c.width));
      case Ratio(ppb) => DecimalValue(ppb);
      case Quality(ppb, _) => DecimalValue(ppb);
      case Flap(events, window) => DecimalValue(events); SignedValue(window);
    }
  }

  lemma {:induction false} SourceValueOk(d: Decl, t: Tag, policy: Policy)
    requires d.SourceDecl? && WellFormed(d, policy)
    ensures ValueOk(SourceValue(d, t))
  {
    KindWords();
    TokenValue("source");
    TokenValue(d.name);
    AuthoritySpelled(d.authority);
    TokenValue(AuthorityText(d.authority));
    ProvenanceSpelled(d.provenance);
    TokenValue(ProvenanceText(d.provenance));
  }

  lemma {:induction false} LinkValueOk(d: Decl, t: Tag, policy: Policy)
    requires d.LinkDecl? && WellFormed(d, policy)
    ensures ValueOk(LinkValue(d, t))
  {
    match t {
      case Kind => KindWords(); TokenValue("link");
      case Name => TokenValue(d.name);
      case LinkKindTag => KindSpelled(d.kind); TokenValue(KindText(d.kind));
      case LinkGeneration => TokenValue(d.generation);
      case ProvenanceTag => ProvenanceSpelled(d.provenance); TokenValue(ProvenanceText(d.provenance));
      case CapacityIn => DecimalValue(d.capacityIn);
      case CapacityOut => DecimalValue(d.capacityOut);
      case LocalEndpoint => if d.localEndpoint != "" { TokenValue(d.localEndpoint); }
      case RemoteEndpoint => if d.remoteEndpoint != "" { TokenValue(d.remoteEndpoint); }
      case LocalPort => if d.localPort != "" { TokenValue(d.localPort); }
      case RemotePort => if d.remotePort != "" { TokenValue(d.remotePort); }
      case _ =>
    }
  }

  lemma {:induction false} ObservationValueOk(d: Decl, t: Tag, policy: Policy)
    requires d.ObservationDecl? && WellFormed(d, policy)
    ensures ValueOk(ObservationValue(d, t))
  {
    match t {
      case Version =>
      case Kind => KindWords(); TokenValue("observation");
      case LinkTag => TokenValue(d.link);
      case SourceTag => TokenValue(d.source);
      case Incarnation => TokenValue(d.incarnation);
      case Epoch => TokenValue(d.epoch);
      case Generation => TokenValue(d.generation);
      case Revision => DecimalValue(d.revision);
      case ObservedAt => SignedValue(d.observedAt);
      case ReceivedAt => SignedValue(d.receivedAt);
      case Metric => KeyValue(d.key);
      case _ => PayloadValueOk(d.payload, t);
    }
  }

  lemma {:induction false} FormattedOk(d: Decl, policy: Policy)
    requires WellFormed(d, policy)
    ensures AllOk(FieldsOf(d)) && KeysDistinct(FieldsOf(d))
  {
    var fs := FieldsOf(d);
    OrderIncreases();
    CollectedDistinct(ORDER, ValuesOf(d));
    forall i | 0 <= i < |fs| ensures FieldOk(fs[i].0, fs[i].1) {
      var t := CollectedFrom(ORDER, ValuesOf(d), i);
      SpellIsName(t);
      FormattedValueOk(d, t, policy);
    }
  }

  lemma {:induction false} FormattedValueOk(d: Decl, t: Tag, policy: Policy)
    requires WellFormed(d, policy)
    ensures ValueOk(ValuesOf(d)(t))
  {
    match d {
      case SourceDecl(_, _, _, _) => SourceValueOk(d, t, policy);
      case LinkDecl(_, _, _, _, _, _, _, _, _, _, _) => LinkValueOk(d, t, policy);
      case ObservationDecl(_, _, _, _, _, _, _, _, _, _) => ObservationValueOk(d, t, policy);
    }
  }

  predicate NoRepeats(order: seq<Tag>) { forall i, j | 0 <= i < j < |order| :: order[i] != order[j] }

  lemma {:induction false} CollectedWithin(order: seq<Tag>, value: Values, tags: set<Tag>)
    requires NoRepeats(order) && forall i | 0 <= i < |order| && value(order[i]).Some? :: order[i] in tags
    ensures |Collect(order, value)| <= |tags|
    decreases |order|
  {
    if order != [] {
      var n := |order| - 1;
      assert NoRepeats(order[..n]);
      if value(order[n]).Some? {
        CollectedWithin(order[..n], value, tags - {order[n]});
      } else {
        CollectedWithin(order[..n], value, tags);
      }
    }
  }

  lemma SomeTags(d: Decl)
    ensures |TagsOf(d)| <= MAX_FIELDS
  {
    assert |SOURCE_TAGS| <= 6;
    assert |LINK_TAGS| <= 12;
    assert |OBSERVATION_TAGS| <= 11;
    if d.ObservationDecl? {
      var readings := ReadingTags(d.key.family);
      assert |readings| <= 3;
      assert |OBSERVATION_TAGS + readings| <= |OBSERVATION_TAGS| + |readings|;
    }
  }

  lemma {:induction false} FewFields(d: Decl, policy: Policy)
    requires WellFormed(d, policy)
    ensures |FieldsOf(d)| <= MAX_FIELDS
  {
    OrderIncreases();
    forall t | ValuesOf(d)(t).Some? ensures t in TagsOf(d) {
      ValueTags(d, t, policy);
    }
    assert NoRepeats(ORDER);
    CollectedWithin(ORDER, ValuesOf(d), TagsOf(d));
    SomeTags(d);
  }

  lemma {:induction false} FormattedCarries(d: Decl, policy: Policy)
    requires WellFormed(d, policy)
    ensures Carries(Lookup(MapOf(FieldsOf(d))), d) && Only(MapOf(FieldsOf(d)), TagsOf(d))
  {
    forall t ensures Lookup(MapOf(FieldsOf(d)))(t) == ValueOf(d, t) {
      GetFormatted(ValuesOf(d), t);
    }
    forall t | ValuesOf(d)(t).Some? ensures t in TagsOf(d) {
      ValueTags(d, t, policy);
    }
    OnlyFormatted(ValuesOf(d), TagsOf(d));
  }

  /** A rendered line starts with its first key and ends with no blank. */
  lemma {:induction false} RenderEnds(fs: seq<Field>)
    requires fs != [] && AllOk(fs)
    ensures Render(fs) != "" && Render(fs)[0] == fs[0].0[0] && !IsBlank(Render(fs)[0]) && !IsBlank(Render(fs)[|Render(fs)| - 1])
    decreases |fs|
  {
    var (k, v) := fs[0];
    assert FieldOk(k, v);
    assert Token((k, v))[0] == k[0];
    if |fs| == 1 {
      var t := Token((k, v));
      assert v != "" ==> t[|t| - 1] == v[|v| - 1];
    } else {
      RenderEnds(fs[1..]);
    }
  }

  lemma {:induction false} RenderedRecord(fs: seq<Field>, policy: Policy)
    requires fs != [] && AllOk(fs) && fs[0].0[0] != '#' && |Render(fs)| <= policy.limits.maxRecordBytes
    requires ParseFields(Render(fs)).Some?
    ensures ParseRecord(Render(fs), policy) == ParseMap(ParseFields(Render(fs)).value, policy)
  {
    RenderEnds(fs);
    TrimmedStays(Render(fs));
  }

  lemma {:induction false} FirstIsVersion(d: Decl)
    ensures FieldsOf(d) != [] && FieldsOf(d)[0].0 == "v"
  {
    StartsWith(ORDER, ValuesOf(d));
  }

  lemma {:induction false} StartsWith(order: seq<Tag>, value: Values)
    requires order != [] && order[0] == Version && value(Version).Some?
    ensures Collect(order, value) != [] && Collect(order, value)[0].0 == "v"
  {
    var n := |order| - 1;
    if n > 0 {
      StartsWith(order[..n], value);
    } else {
      assert Collect(order[..0], value) == [];
    }
  }

  /**
   Every well-formed declaration whose line fits the record bound is returned by parsing the line
   the formatter writes for it.
   */
  lemma {:induction false} RecordRoundTrips(d: Decl, policy: Policy)
    requires WellFormed(d, policy) && |Format(d)| <= policy.limits.maxRecordBytes
    ensures ParseRecord(Format(d), policy) == Some(d)
  {
    var fs := FieldsOf(d);
    FormattedOk(d, policy);
    FewFields(d, policy);
    FirstIsVersion(d);
    FormattedCarries(d, policy);
    RenderParses(fs);
    RenderedRecord(fs, policy);
    match d {
      case SourceDecl(_, _, _, _) => SourceParses(Lookup(MapOf(fs)), d, policy);
      case LinkDecl(_, _, _, _, _, _, _, _, _, _, _) => LinkParses(Lookup(MapOf(fs)), d, policy);
      case ObservationDecl(_, _, _, _, _, _, _, _, _, _) => ObservationParses(Lookup(MapOf(fs)), d, policy);
    }
  }

  /** Accepted fields are all known, so no key begins a comment. */
  lemma {:induction false} KnownKeys(m: FieldMap, policy: Policy, k: string)
    requires ParseMap(m, policy).Some? && k in m
    ensures k != "" && k[0] != '#'
  {
    var t :| Spell(t) == k;
    SpellIsName(t);
  }

  /**
   An accepted record parses to the same declaration from any arrangement of its fields: the order
   and the spacing of the original line do not matter.
   */
  lemma {:induction false} FieldOrderDoesNotMatter(line: string, fs: seq<Field>, policy: Policy)
    requires ParseRecord(line, policy).Some? && Arranges(fs, ParseFields(Trim(line)).value)
    ensures ParseRecord(Render(fs), policy) == ParseRecord(line, policy)
  {
    var s := Trim(line);
    var m := ParseFields(s).value;
    OrderDoesNotMatter(s, fs);
    assert Spell(Version) in m;
    var i := MapOfOnly(fs, Spell(Version));
    MapOfHolds(fs, 0);
    KnownKeys(m, policy, fs[0].0);
    RenderedRecord(fs, policy);
  }
}
