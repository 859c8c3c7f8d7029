/**
 A record line as "key=value" fields: the splitting loop, and the rendering it inverts
 (src/ingest/record.cpp:21-62, src/core/text.cpp:209-247).
 */
module Fields {
  import opened Domain
  import opened Text
  import opened Sums

  const MAX_FIELDS: nat := 24
  const MAX_KEY: nat := 32
  const MAX_VALUE: nat := 256

  type Field = (string, string)
  type FieldMap = map<string, string>

  // ---------------------------------------------------------------------------
  // Splitting
  // ---------------------------------------------------------------------------

  function SkipSpaces(s: string): (r: string)
    ensures |r| <= |s| && (r != "" ==> r[0] != ' ')
  {
    if s != "" && s[0] == ' ' then SkipSpaces(s[1..]) else s
  }

  /** What makes a field acceptable, wherever it stands. */
  predicate FieldOk(k: string, v: string) {
    && 0 < |k| <= MAX_KEY && |v| <= MAX_VALUE && Printable(k) && Printable(v)
    && Without(k, '=') && Without(k, ' ') && Without(v, ' ')
  }

  /** Key and value around the first equals sign of a token without spaces. */
  function FieldOf(token: string): Option<Field> {
    var i := Find(token, '=');
    if i == |token| then Option.None
    else
      var k, v := token[..i], token[i + 1..];
      if k == "" || |k| > MAX_KEY || |v| > MAX_VALUE || !Printable(k) || !Printable(v) then Option.None else Some((k, v))
  }

  function TokenAt(s: string): string { s[..Find(s, ' ')] }

  /** The loop's remaining work: skip spaces, take a token, refuse duplicates and too many fields. */
  function ParseFrom(line: string, m: FieldMap): Option<FieldMap>
    decreases |line|
  {
    var s := SkipSpaces(line);
    if s == "" then Some(m)
    else
      match FieldOf(TokenAt(s))
      case None => Option.None
      case Some((k, v)) => if k in m || |m| >= MAX_FIELDS then Option.None else ParseFrom(s[Find(s, ' ')..], m[k := v])
  }

  function ParseFields(line: string): Option<FieldMap> { ParseFrom(line, map[]) }

  /** `parse_fields`: the cursor loop. */
  method SplitFields(line: string) returns (out: Option<FieldMap>)
    ensures out == ParseFields(line)
  {
    var fields: FieldMap := map[];
    var rest := line;
    while true
      invariant ParseFields(line) == ParseFrom(rest, fields)
      decreases |rest|
    {
      var s := DropSpaces(rest);
      if s == "" {
        return Some(fields);
      }
      var end := Find(s, ' ');
      var field := FieldOf(s[..end]);
      if field.None? {
        return Option.None;
      }
      var (k, v) := field.value;
      if |fields| >= MAX_FIELDS && k !in fields {
        return Option.None;
      }
      if k in fields {
        return Option.None;
      }
      fields := fields[k := v];
      rest := s[end..];
    }
  }

  method DropSpaces(s: string) returns (r: string)
    ensures r == SkipSpaces(s)
  {
    var cursor := 0;
    assert s[0..] == s;
    while cursor < |s| && s[cursor] == ' '
      invariant 0 <= cursor <= |s| && SkipSpaces(s) == SkipSpaces(s[cursor..])
    {
      assert s[cursor..][1..] == s[cursor + 1..];
      cursor := cursor + 1;
    }
    return s[cursor..];
  }

  // ---------------------------------------------------------------------------
  // Rendering
  // ---------------------------------------------------------------------------

  function Token(f: Field): string { f.0 + "=" + f.1 }

  function Render(fs: seq<Field>): string {
    if fs == [] then ""
    else if |fs| == 1 then Token(fs[0])
    else Token(fs[0]) + " " + Render(fs[1..])
  }

  predicate KeysDistinct(fs: seq<Field>) { forall i, j | 0 <= i < j < |fs| :: fs[i].0 != fs[j].0 }
  predicate AllOk(fs: seq<Field>) { forall i | 0 <= i < |fs| :: FieldOk(fs[i].0, fs[i].1) }

  function MapOf(fs: seq<Field>): FieldMap {
    if fs == [] then map[] else MapOf(fs[..|fs| - 1])[fs[|fs| - 1].0 := fs[|fs| - 1].1]
  }

  /** The builder renders the fields it was given, in order. */
  method Build(fs: seq<Field>) returns (out: string)
    ensures out == Render(fs)
  {
    var fields := new TextFields(' ');
    var i := 0;
    while i < |fs|
      invariant 0 <= i <= |fs| && fields.separator == ' ' && (fields.hasField <==> i > 0)
      invariant fields.buffer == Render(fs[..i])
    {
      RenderAppend(fs[..i], fs[i]);
      assert fs[..i + 1] == fs[..i] + [fs[i]];
      fields.Add(fs[i].0, fs[i].1);
      i := i + 1;
    }
    assert fs[..i] == fs;
    return fields.buffer;
  }

  lemma {:induction false} RenderAppend(fs: seq<Field>, f: Field)
    ensures Render(fs + [f]) == Render(fs) + (if fs == [] then "" else " ") + f.0 + "=" + f.1
  {
    if fs == [] {
      assert fs + [f] == [f];
    } else {
      assert (fs + [f])[1..] == fs[1..] + [f];
      RenderAppend(fs[1..], f);
      if |fs| == 1 {
        assert fs[1..] == [];
      }
    }
  }

  lemma {:induction false} TokenParses(k: string, v: string)
    requires FieldOk(k, v)
    ensures FieldOf(Token((k, v))) == Some((k, v)) && Without(Token((k, v)), ' ') && Token((k, v))[0] != ' '
  {
    var t := Token((k, v));
    FindAfter(k, '=', v);
    assert t[..|k|] == k && t[|k| + 1..] == v;
  }

  lemma {:induction false} NextToken(t: string, rest: string)
    requires t != "" && Without(t, ' ') && (rest == "" || rest[0] == ' ')
    ensures
      var s := t + rest;
      SkipSpaces(s) == s && Find(s, ' ') == |t| && TokenAt(s) == t && s[Find(s, ' ')..] == rest
  {
    var s := t + rest;
    assert s[0] == t[0];
    assert forall i | 0 <= i < |t| :: s[i] == t[i];
    if rest != "" {
      assert s[|t|] == ' ';
    }
  }

  lemma LeadingSpace(rest: string, m: FieldMap)
    ensures ParseFrom(" " + rest, m) == ParseFrom(rest, m)
  {
    assert (" " + rest)[1..] == rest;
    assert SkipSpaces(" " + rest) == SkipSpaces(rest);
  }

  /** A field at the front of a line is taken and the rest parsed on. */
  lemma {:induction false} FirstField(k: string, v: string, rest: string, m: FieldMap)
    requires FieldOk(k, v) && (rest == "" || rest[0] == ' ') && k !in m && |m| < MAX_FIELDS
    ensures ParseFrom(Token((k, v)) + rest, m) == ParseFrom(rest, m[k := v])
  {
    TokenParses(k, v);
    NextToken(Token((k, v)), rest);
  }

  /** The map with the fields added. */
  function Added(m: FieldMap, fs: seq<Field>): FieldMap
    decreases |fs|
  {
    if fs == [] then m else Added(m[fs[0].0 := fs[0].1], fs[1..])
  }

  lemma {:induction false} RenderParsesInto(fs: seq<Field>, m: FieldMap)
    requires AllOk(fs) && KeysDistinct(fs) && |m| + |fs| <= MAX_FIELDS
    requires forall i | 0 <= i < |fs| :: fs[i].0 !in m
    ensures ParseFrom(Render(fs), m) == Some(Added(m, fs))
    decreases |fs|
  {
    if fs != [] {
      var (k, v) := fs[0];
      var rest := if |fs| == 1 then "" else " " + Render(fs[1..]);
      assert Render(fs) == Token((k, v)) + rest;
      FirstField(k, v, rest, m);
      PutOne(m, k, v);
      RenderParsesInto(fs[1..], m[k := v]);
      if |fs| == 1 {
        assert fs[1..] == [];
      } else {
        LeadingSpace(Render(fs[1..]), m[k := v]);
      }
    }
  }

  lemma PutOne(m: FieldMap, k: string, v: string)
    requires k !in m
    ensures |m[k := v]| == |m| + 1
  {
    assert m[k := v].Keys == m.Keys + {k};
    assert |m[k := v]| == |m[k := v].Keys| && |m| == |m.Keys|;
  }

  lemma {:induction false} AddedAppend(m: FieldMap, fs: seq<Field>, f: Field)
    ensures Added(m, fs + [f]) == Added(m, fs)[f.0 := f.1]
    decreases |fs|
  {
    if fs == [] {
      assert fs + [f] == [f] && [f][1..] == [];
    } else {
      assert (fs + [f])[1..] == fs[1..] + [f];
      AddedAppend(m[fs[0].0 := fs[0].1], fs[1..], f);
    }
  }

  lemma {:induction false} AddedIsMap(fs: seq<Field>)
    ensures Added(map[], fs) == MapOf(fs)
  {
    if fs != [] {
      var n := |fs| - 1;
      AddedIsMap(fs[..n]);
      AddedAppend(map[], fs[..n], fs[n]);
      assert fs == fs[..n] + [fs[n]];
    }
  }

  /** Rendering any good fields and splitting the line gives back exactly those fields. */
  lemma {:induction false} RenderParses(fs: seq<Field>)
    requires AllOk(fs) && KeysDistinct(fs) && |fs| <= MAX_FIELDS
    ensures ParseFields(Render(fs)) == Some(MapOf(fs))
  {
    RenderParsesInto(fs, map[]);
    AddedIsMap(fs);
  }

  // ---------------------------------------------------------------------------
  // What an accepted line holds, and its size
  // ---------------------------------------------------------------------------

  ghost predicate MapOk(m: FieldMap) { |m| <= MAX_FIELDS && forall k | k in m :: FieldOk(k, m[k]) }

  /** What each field takes up, its equals sign and one separator included. */
  ghost function Sizes(m: FieldMap): map<string, nat> { map k | k in m :: |k| + |m[k]| + 2 }

  ghost function Weight(m: FieldMap): nat { SumOver(Sizes(m), Itself) }

  lemma {:induction false} WeightPut(m: FieldMap, k: string, v: string)
    requires k !in m
    ensures Weight(m[k := v]) == Weight(m) + |k| + |v| + 2
  {
    assert Sizes(m[k := v]) == Sizes(m)[k := |k| + |v| + 2];
    SumPut<string, nat>(Sizes(m), k, |k| + |v| + 2, Itself);
  }

  lemma {:induction false} FieldOfOk(token: string)
    requires FieldOf(token).Some? && Without(token, ' ')
    ensures FieldOk(FieldOf(token).value.0, FieldOf(token).value.1)
    ensures |FieldOf(token).value.0| + |FieldOf(token).value.1| + 1 == |token|
  {
  }

  /** Every accepted line holds good fields and is at least as long as their single-spaced rendering. */
  lemma {:induction false} ParsedIsOk(line: string, m: FieldMap)
    requires ParseFrom(line, m).Some? && MapOk(m)
    ensures MapOk(ParseFrom(line, m).value)
    ensures Weight(ParseFrom(line, m).value) <= Weight(m) + |line| + 1
    decreases |line|
  {
    var s := SkipSpaces(line);
    if s != "" {
      var n := Find(s, ' ');
      var (k, v) := FieldOf(TokenAt(s)).value;
      FieldOfOk(TokenAt(s));
      PutOne(m, k, v);
      WeightPut(m, k, v);
      if n == |s| {
        assert s[n..] == "";
      } else {
        var next := s[n + 1..];
        assert s[n..] == " " + next;
        LeadingSpace(next, m[k := v]);
        ParsedIsOk(next, m[k := v]);
      }
    }
  }

  lemma {:induction false} MapOfHolds(fs: seq<Field>, i: nat)
    requires KeysDistinct(fs) && i < |fs|
    ensures fs[i].0 in MapOf(fs) && MapOf(fs)[fs[i].0] == fs[i].1
  {
    var n := |fs| - 1;
    if i < n {
      MapOfHolds(fs[..n], i);
      assert fs[i].0 != fs[n].0;
    }
  }

  lemma {:induction false} MapOfOnly(fs: seq<Field>, k: string) returns (i: nat)
    requires k in MapOf(fs)
    ensures i < |fs| && fs[i].0 == k
  {
    var n := |fs| - 1;
    if fs[n].0 == k {
      i := n;
    } else {
      i := MapOfOnly(fs[..n], k);
    }
  }

  /** The last key of distinct ones is new. */
  lemma {:induction false} LastIsNew(fs: seq<Field>)
    requires KeysDistinct(fs) && fs != []
    ensures fs[|fs| - 1].0 !in MapOf(fs[..|fs| - 1])
  {
    var n := |fs| - 1;
    if fs[n].0 in MapOf(fs[..n]) {
      var i := MapOfOnly(fs[..n], fs[n].0);
    }
  }

  lemma {:induction false} MapOfWeight(fs: seq<Field>)
    requires KeysDistinct(fs)
    ensures Weight(MapOf(fs)) == |Render(fs)| + (if fs == [] then 0 else 1)
  {
    if fs == [] {
      assert Sizes(map[]) == map[];
    } else {
      var n := |fs| - 1;
      var before, f := fs[..n], fs[n];
      MapOfWeight(before);
      assert fs == before + [f];
      RenderAppend(before, f);
      LastIsNew(fs);
      WeightPut(MapOf(before), f.0, f.1);
    }
  }

  /** An arrangement of the fields of a map: each once, in some order. */
  ghost predicate Arranges(fs: seq<Field>, m: FieldMap) { KeysDistinct(fs) && MapOf(fs) == m }

  lemma {:induction false} ArrangementSize(fs: seq<Field>)
    requires KeysDistinct(fs)
    ensures |MapOf(fs)| == |fs|
  {
    if fs != [] {
      var n := |fs| - 1;
      ArrangementSize(fs[..n]);
      LastIsNew(fs);
      PutOne(MapOf(fs[..n]), fs[n].0, fs[n].1);
    }
  }

  /** Reordering the fields of an accepted line, single-spaced, gives an accepted line with the same fields, no longer. */
  lemma {:induction false} OrderDoesNotMatter(line: string, fs: seq<Field>)
    requires ParseFields(line).Some? && Arranges(fs, ParseFields(line).value)
    ensures ParseFields(Render(fs)) == ParseFields(line)
    ensures |Render(fs)| <= |line|
    ensures AllOk(fs)
  {
    var m := ParseFields(line).value;
    assert Sizes(map[]) == map[];
    ParsedIsOk(line, map[]);
    MapOfWeight(fs);
    ArrangementSize(fs);
    forall i | 0 <= i < |fs| ensures FieldOk(fs[i].0, fs[i].1) {
      MapOfHolds(fs, i);
    }
    RenderParses(fs);
  }
}
