/**
 The field reader that remembers which fields were consumed, and the record parser built on it
 (src/ingest/record.cpp:64-443 and 445-486), proved against `Record`.
 */
module RecordReader {
  import opened Checked
  import opened Domain
  import opened Text
  import opened MetricText
  import opened Fields
  import opened Record

  /** The names of those of the tags that are present. */
  ghost function Present(fields: FieldMap, tags: set<Tag>): set<string> {
    set t | t in tags && Spell(t) in fields :: Spell(t)
  }

  lemma PresentCovers(fields: FieldMap, tags: set<Tag>)
    ensures fields.Keys <= Present(fields, tags) <==> Only(fields, tags)
  {
    if Only(fields, tags) {
      forall s | s in fields ensures s in Present(fields, tags) {
        var t :| t in tags && Spell(t) == s;
      }
    }
    if fields.Keys <= Present(fields, tags) {
      forall s | s in fields ensures exists t :: t in tags && Spell(t) == s {
        assert s in Present(fields, tags);
      }
    }
  }

  lemma PresentGrows(fields: FieldMap, tags: set<Tag>, t: Tag)
    ensures Present(fields, tags + {t}) == Present(fields, tags) + (if Spell(t) in fields then {Spell(t)} else {})
  {
  }

  class FieldReader {
    const fields: FieldMap
    const get: Values
    var used: set<string>

    ghost predicate Valid(tags: set<Tag>)
      reads this
    {
      used == Present(fields, tags) && get == Lookup(fields)
    }

    constructor (fields: FieldMap)
      ensures this.fields == fields && this.get == Lookup(fields) && Valid({})
    {
      this.fields, this.get := fields, Lookup(fields);
      used := {};
    }

    method Use(t: Tag, ghost tags: set<Tag>)
      requires Valid(tags)
      modifies this
      ensures Valid(tags + {t})
    {
      PresentGrows(fields, tags, t);
      if Spell(t) in fields {
        used := used + {Spell(t)};
      }
    }

    method RequiredToken(t: Tag, ghost tags: set<Tag>) returns (out: Option<string>)
      requires Valid(tags)
      modifies this
      ensures out == TokenIn(get, t) && (out.Some? ==> Valid(tags + {t}))
    {
      if get(t).None? || !IsToken(get(t).value) {
        return Option.None;
      }
      Use(t, tags);
      return get(t);
    }

    method RequiredU64(t: Tag, ghost tags: set<Tag>) returns (out: Option<U64>)
      requires Valid(tags)
      modifies this
      ensures out == U64In(get, t) && (out.Some? ==> Valid(tags + {t}))
    {
      if get(t).None? {
        return Option.None;
      }
      out := ReadU64(get(t).value);
      if out.Some? {
        Use(t, tags);
      }
    }

    method RequiredI64(t: Tag, ghost tags: set<Tag>) returns (out: Option<I64>)
      requires Valid(tags)
      modifies this
      ensures out == I64In(get, t) && (out.Some? ==> Valid(tags + {t}))
    {
      if get(t).None? {
        return Option.None;
      }
      out := ParseI64(get(t).value);
      if out.Some? {
        Use(t, tags);
      }
    }

    method OptionalNumber(t: Tag, ghost tags: set<Tag>) returns (out: Option<U64>)
      requires Valid(tags)
      modifies this
      ensures out == OptionalU64(get, t) && (out.Some? ==> Valid(tags + {t}))
    {
      if get(t).None? {
        Use(t, tags);
        return Some(0);
      }
      out := RequiredU64(t, tags);
    }

    method OptionalFlag(t: Tag, ghost tags: set<Tag>) returns (out: Option<bool>)
      requires Valid(tags)
      modifies this
      ensures out == OptionalBool(get, t) && (out.Some? ==> Valid(tags + {t}))
    {
      Use(t, tags);
      return OptionalBool(get, t);
    }

    method OptionalName(t: Tag, ghost tags: set<Tag>) returns (out: Option<string>)
      requires Valid(tags)
      modifies this
      ensures out == OptionalToken(get, t) && (out.Some? ==> Valid(tags + {t}))
    {
      if get(t).None? {
        Use(t, tags);
        return Some("");
      }
      out := RequiredToken(t, tags);
    }

    /** Every field was consumed. */
    method AllUsed(ghost tags: set<Tag>) returns (all: bool)
      requires Valid(tags)
      ensures all <==> Only(fields, tags)
    {
      PresentCovers(fields, tags);
      all := forall s | s in fields.Keys :: s in used;
    }

    method ReadSource() returns (out: Option<Decl>)
      requires Valid({Version, Kind})
      modifies this
      ensures out == ParseSource(get)
      ensures out.Some? ==> Valid(SOURCE_TAGS)
    {
      ghost var seen := {Version, Kind};
      var name := RequiredToken(Name, seen);
      if name.None? { return Option.None; }
      seen := seen + {Name};
      var token := RequiredToken(Authority, seen);
      if token.None? { return Option.None; }
      seen := seen + {Authority};
      var authority := Named(AUTHORITY_NAMES, AUTHORITIES, token.value);
      if authority.None? { return Option.None; }
      token := RequiredToken(ProvenanceTag, seen);
      if token.None? { return Option.None; }
      seen := seen + {ProvenanceTag};
      var provenance := Named(PROVENANCE_NAMES, PROVENANCES, token.value);
      if provenance.None? || provenance.value == ProvenanceClass.Unknown { return Option.None; }
      var retired := OptionalFlag(Retired, seen);
      if retired.None? { return Option.None; }
      assert seen + {Retired} == SOURCE_TAGS;
      return Some(SourceDecl(name.value, authority.value, provenance.value, retired.value));
    }

    /** The reading's fields, by family. */
    method ReadPayload(f: MetricFamily, ghost tags: set<Tag>) returns (out: Option<MetricPayload>)
      requires Valid(tags)
      modifies this
      ensures out == PayloadIn(get, f)
      ensures out.Some? ==> Valid(tags + ReadingTags(f))
    {
      match f {
        case AdminState =>
          var token := RequiredToken(Value, tags);
          if token.None? { return Option.None; }
          var value := ParseAdmin(token.value);
          return if value.None? then Option.None else Some(Admin(value.value));
        case OperState =>
          var token := RequiredToken(Value, tags);
          if token.None? { return Option.None; }
          var value := ParseOper(token.value);
          return if value.None? then Option.None else Some(Oper(value.value));
        case UtilReported =>
          var ppb := RequiredU64(Ppb, tags);
          return if ppb.None? then Option.None else Some(Ratio(ppb.value));
        case SignalQuality =>
          var ppb := RequiredU64(Ppb, tags);
          if ppb.None? { return Option.None; }
          var degraded := OptionalFlag(DegradedTag, tags + {Ppb});
          assert tags + {Ppb} + {DegradedTag} == tags + {Ppb, DegradedTag};
          return if degraded.None? then Option.None else Some(Quality(ppb.value, degraded.value));
        case FlapReport =>
          var events := RequiredU64(Events, tags);
          if events.None? { return Option.None; }
          var window := RequiredI64(Window, tags + {Events});
          assert tags + {Events} + {Window} == tags + {Events, Window};
          return if window.None? then Option.None else Some(Flap(events.value, window.value));
        case _ => out := ReadCounter(tags);
      }
    }

    method ReadCounter(ghost tags: set<Tag>) returns (out: Option<MetricPayload>)
      requires Valid(tags)
      modifies this
      ensures out == PayloadIn(get, Octets) == PayloadIn(get, Errors) == PayloadIn(get, Discards)
      ensures out.Some? ==> Valid(tags + {CounterTag, Width, ResetTag})
    {
      var raw := RequiredU64(CounterTag, tags);
      if raw.None? { return Option.None; }
      var token := RequiredToken(Width, tags + {CounterTag});
      if token.None? { return Option.None; }
      var width := ParseWidth(token.value);
      if width.None? { return Option.None; }
      var reset := OptionalFlag(ResetTag, tags + {CounterTag} + {Width});
      if reset.None? { return Option.None; }
      assert tags + {CounterTag} + {Width} + {ResetTag} == tags + {CounterTag, Width, ResetTag};
      return Some(Counter(CounterReading(raw.value, width.value, reset.value)));
    }

    method ReadLink() returns (out: Option<Decl>)
      requires Valid({Version, Kind})
      modifies this
      ensures out == ParseLink(get)
      ensures out.Some? ==> Valid(LINK_TAGS)
    {
      ghost var seen := {Version, Kind};
      var name := RequiredToken(Name, seen);
      if name.None? { return Option.None; }
      seen := seen + {Name};
      var token := RequiredToken(LinkKindTag, seen);
      if token.None? { return Option.None; }
      seen := seen + {LinkKindTag};
      var kind := Named(KIND_NAMES, KINDS, token.value);
      if kind.None? { return Option.None; }
      var generation := RequiredToken(LinkGeneration, seen);
      if generation.None? { return Option.None; }
      seen := seen + {LinkGeneration};
      token := RequiredToken(ProvenanceTag, seen);
      if token.None? { return Option.None; }
      seen := seen + {ProvenanceTag};
      var provenance := Named(PROVENANCE_NAMES, PROVENANCES, token.value);
      if provenance.None? { return Option.None; }
      out := ReadAnchors(LinkDecl(name.value, kind.value, generation.value, provenance.value, false, 0, 0, "", "", "", ""), seen);
    }

    /** Capacities and endpoint names, all optional. */
    method ReadAnchors(d: Decl, ghost tags: set<Tag>) returns (out: Option<Decl>)
      requires Valid(tags) && d.LinkDecl?
      modifies this
      ensures
        var cin, cout := OptionalU64(get, CapacityIn), OptionalU64(get, CapacityOut);
        var le, re := OptionalToken(get, LocalEndpoint), OptionalToken(get, RemoteEndpoint);
        var lp, rp := OptionalToken(get, LocalPort), OptionalToken(get, RemotePort);
        out == if cin.Some? && cout.Some? && le.Some? && re.Some? && lp.Some? && rp.Some?
               then Some(d.(capacityKnown := cin.value > 0 || cout.value > 0, capacityIn := cin.value, capacityOut := cout.value,
                            localEndpoint := le.value, remoteEndpoint := re.value, localPort := lp.value, remotePort := rp.value))
               else Option.None
      ensures out.Some? ==> Valid(tags + {CapacityIn, CapacityOut, LocalEndpoint, RemoteEndpoint, LocalPort, RemotePort})
    {
      ghost var seen := tags;
      var cin := OptionalNumber(CapacityIn, seen);
      if cin.None? { return Option.None; }
      seen := seen + {CapacityIn};
      var cout := OptionalNumber(CapacityOut, seen);
      if cout.None? { return Option.None; }
      seen := seen + {CapacityOut};
      var le := OptionalName(LocalEndpoint, seen);
      if le.None? { return Option.None; }
      seen := seen + {LocalEndpoint};
      var re := OptionalName(RemoteEndpoint, seen);
      if re.None? { return Option.None; }
      seen := seen + {RemoteEndpoint};
      var lp := OptionalName(LocalPort, seen);
      if lp.None? { return Option.None; }
      seen := seen + {LocalPort};
      var rp := OptionalName(RemotePort, seen);
      if rp.None? { return Option.None; }
      seen := seen + {RemotePort};
      assert seen == tags + {CapacityIn, CapacityOut, LocalEndpoint, RemoteEndpoint, LocalPort, RemotePort};
      return Some(d.(capacityKnown := cin.value > 0 || cout.value > 0, capacityIn := cin.value, capacityOut := cout.value,
                     localEndpoint := le.value, remoteEndpoint := re.value, localPort := lp.value, remotePort := rp.value));
    }

    /** The five names of an observation, in order. */
    method ReadNames() returns (ok: bool, link: string, source: string, incarnation: string, epoch: string, generation: string)
      requires Valid({Version, Kind})
      modifies this
      ensures ok <==> TokenIn(get, LinkTag).Some? && TokenIn(get, SourceTag).Some? && TokenIn(get, Incarnation).Some?
                      && TokenIn(get, Epoch).Some? && TokenIn(get, Generation).Some?
      ensures ok ==> TokenIn(get, LinkTag) == Some(link) && TokenIn(get, SourceTag) == Some(source)
                     && TokenIn(get, Incarnation) == Some(incarnation) && TokenIn(get, Epoch) == Some(epoch)
                     && TokenIn(get, Generation) == Some(generation)
      ensures ok ==> Valid({Version, Kind, LinkTag, SourceTag, Incarnation, Epoch, Generation})
    {
      ok, link, source, incarnation, epoch, generation := false, "", "", "", "", "";
      ghost var seen := {Version, Kind};
      var token := RequiredToken(LinkTag, seen);
      if token.None? { return; }
      link, seen := token.value, seen + {LinkTag};
      token := RequiredToken(SourceTag, seen);
      if token.None? { return; }
      source, seen := token.value, seen + {SourceTag};
      token := RequiredToken(Incarnation, seen);
      if token.None? { return; }
      incarnation, seen := token.value, seen + {Incarnation};
      token := RequiredToken(Epoch, seen);
      if token.None? { return; }
      epoch, seen := token.value, seen + {Epoch};
      token := RequiredToken(Generation, seen);
      if token.None? { return; }
      generation, seen := token.value, seen + {Generation};
      assert seen == {Version, Kind, LinkTag, SourceTag, Incarnation, Epoch, Generation};
      ok := true;
    }

    /** Revision and instants. */
    method ReadStamps(ghost tags: set<Tag>) returns (ok: bool, revision: U64, observedAt: I64, receivedAt: I64)
      requires Valid(tags)
      modifies this
      ensures ok <==> U64In(get, Revision).Some? && I64In(get, ObservedAt).Some? && I64In(get, ReceivedAt).Some?
      ensures ok ==> U64In(get, Revision) == Some(revision) && I64In(get, ObservedAt) == Some(observedAt)
                     && I64In(get, ReceivedAt) == Some(receivedAt)
      ensures ok ==> Valid(tags + {Revision, ObservedAt, ReceivedAt})
    {
      ok, revision, observedAt, receivedAt := false, 0, 0, 0;
      var number := RequiredU64(Revision, tags);
      if number.None? { return; }
      var instant := RequiredI64(ObservedAt, tags + {Revision});
      if instant.None? { return; }
      revision, observedAt := number.value, instant.value;
      instant := RequiredI64(ReceivedAt, tags + {Revision} + {ObservedAt});
      if instant.None? { return; }
      receivedAt := instant.value;
      assert tags + {Revision} + {ObservedAt} + {ReceivedAt} == tags + {Revision, ObservedAt, ReceivedAt};
      ok := true;
    }

    /** The key, the reading's fields, and whether the reading is valid for the key. */
    method ReadReading(policy: Policy, ghost tags: set<Tag>) returns (out: Option<(MetricKey, MetricPayload)>)
      requires Valid(tags)
      modifies this
      ensures out == ReadingIn(get, policy)
      ensures out.Some? ==> Valid(tags + {Metric} + ReadingTags(out.value.0.family))
    {
      var key := RequiredKey(tags);
      if key.None? { return Option.None; }
      var payload := ReadPayload(key.value.family, tags + {Metric});
      if payload.None? || ValidateReading(key.value, payload.value, policy) != Ok { return Option.None; }
      return Some((key.value, payload.value));
    }

    method ReadObservation(policy: Policy) returns (out: Option<Decl>)
      requires Valid({Version, Kind})
      modifies this
      ensures out == ParseObservation(get, policy)
      ensures out.Some? ==> Valid(TagsOf(out.value))
    {
      var named, link, source, incarnation, epoch, generation := ReadNames();
      if !named { return Option.None; }
      ghost var seen := {Version, Kind, LinkTag, SourceTag, Incarnation, Epoch, Generation};
      var stamped, revision, observedAt, receivedAt := ReadStamps(seen);
      if !stamped { return Option.None; }
      seen := seen + {Revision, ObservedAt, ReceivedAt};
      assert seen + {Metric} == OBSERVATION_TAGS;
      var reading := ReadReading(policy, seen);
      if reading.None? { return Option.None; }
      return Some(ObservationDecl(link, source, incarnation, epoch, generation, revision, observedAt, receivedAt,
                                  reading.value.0, reading.value.1));
    }

    method RequiredKey(ghost tags: set<Tag>) returns (out: Option<MetricKey>)
      requires Valid(tags)
      modifies this
      ensures out == KeyIn(get) && (out.Some? ==> Valid(tags + {Metric}))
    {
      if get(Metric).None? || get(Metric).value == "" || |get(Metric).value| > 64 {
        return Option.None;
      }
      out := ReadKey(get(Metric).value);
      Use(Metric, tags);
    }

    method ReadDeclaration(policy: Policy) returns (out: Option<Decl>)
      requires Valid({})
      modifies this
      ensures out == ParseValues(get, policy)
      ensures out.Some? ==> Valid(TagsOf(out.value))
    {
      var version := RequiredU64(Version, {});
      if version.None? || version.value != 1 { return Option.None; }
      assert {} + {Version} == {Version};
      var kind := RequiredToken(Kind, {Version});
      if kind.None? { return Option.None; }
      assert {Version} + {Kind} == {Version, Kind};
      if kind.value == "source" {
        out := ReadSource();
      } else if kind.value == "link" {
        out := ReadLink();
      } else if kind.value == "observation" {
        out := ReadObservation(policy);
      } else {
        out := Option.None;
      }
    }
  }

  /** `parse_record`: trims, splits, reads, and refuses a record with an unread field. */
  method ReadRecord(line: string, policy: Policy) returns (out: Option<Decl>)
    ensures out == ParseRecord(line, policy)
  {
    var s := TrimAscii(line);
    if s == "" || s[0] == '#' || |s| > policy.limits.maxRecordBytes {
      return Option.None;
    }
    var fields := SplitFields(s);
    if fields.None? {
      return Option.None;
    }
    var reader := new FieldReader(fields.value);
    out := reader.ReadDeclaration(policy);
    if out.Some? {
      var all := reader.AllUsed(TagsOf(out.value));
      if !all {
        return Option.None;
      }
    }
  }
}
