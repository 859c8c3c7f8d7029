/**
 Spellings of the enumerations a record uses, and the text of a metric key
 (src/domain/enums.cpp, src/domain/metric.cpp:37-125).
 */
module MetricText {
  import opened Domain
  import opened Text

  /** The value spelled this way, searching the table in order. */
  function Named<T>(names: seq<string>, values: seq<T>, text: string): Option<T>
    requires |names| == |values|
  {
    if names == [] then Option.None
    else if names[0] == text then Some(values[0])
    else Named(names[1..], values[1..], text)
  }

  ghost predicate Distinct(names: seq<string>) {
    forall i, j | 0 <= i < j < |names| :: names[i] != names[j]
  }

  lemma {:induction false} NamedAt<T>(names: seq<string>, values: seq<T>, i: nat)
    requires |names| == |values| && Distinct(names) && i < |names|
    ensures Named(names, values, names[i]) == Some(values[i])
  {
    if i > 0 {
      NamedAt(names[1..], values[1..], i - 1);
    }
  }

  lemma {:induction false} NamedNone<T>(names: seq<string>, values: seq<T>, text: string)
    requires |names| == |values| && text !in names
    ensures Named(names, values, text).None?
  {
    if names != [] {
      NamedNone(names[1..], values[1..], text);
    }
  }

  const FAMILY_NAMES: seq<string> :=
    ["admin-state", "oper-state", "octets", "errors", "discards", "util-reported", "signal-quality", "flap-report"]
  const DIRECTION_NAMES: seq<string> := ["unknown", "in", "out", "both"]
  const CLASS_NAMES: seq<string> := ["none", "total", "crc", "symbol", "framing", "encoding", "congestion", "other"]

  function FamilyText(f: MetricFamily): string { FAMILY_NAMES[FamilyIndex(f)] }
  function DirectionText(d: Direction): string { DIRECTION_NAMES[DirectionIndex(d)] }
  function ClassText(c: ErrorClass): string { CLASS_NAMES[ClassIndex(c)] }

  function ParseFamily(s: string): Option<MetricFamily> { Named(FAMILY_NAMES, FAMILIES, s) }
  function ParseDirection(s: string): Option<Direction> { Named(DIRECTION_NAMES, DIRECTIONS, s) }
  function ParseClass(s: string): Option<ErrorClass> { Named(CLASS_NAMES, ERROR_CLASSES, s) }

  /** Length, first and middle character tell any two spellings of a table apart. */
  function Mark(s: string): (nat, char, char)
    requires |s| >= 2
  {
    (|s|, s[0], s[|s| / 2])
  }

  lemma FamilyNamesDistinct()
    ensures Distinct(FAMILY_NAMES)
  {
    forall i, j | 0 <= i < j < |FAMILY_NAMES| ensures FAMILY_NAMES[i] != FAMILY_NAMES[j] {
      assert Mark(FAMILY_NAMES[i]) != Mark(FAMILY_NAMES[j]);
    }
  }

  lemma DirectionNamesDistinct()
    ensures Distinct(DIRECTION_NAMES)
  {
    forall i, j | 0 <= i < j < |DIRECTION_NAMES| ensures DIRECTION_NAMES[i] != DIRECTION_NAMES[j] {
      assert Mark(DIRECTION_NAMES[i]) != Mark(DIRECTION_NAMES[j]);
    }
  }

  lemma ClassNamesDistinct()
    ensures Distinct(CLASS_NAMES)
  {
    forall i, j | 0 <= i < j < |CLASS_NAMES| ensures CLASS_NAMES[i] != CLASS_NAMES[j] {
      assert Mark(CLASS_NAMES[i]) != Mark(CLASS_NAMES[j]);
    }
  }

  lemma FamilySpelled(f: MetricFamily)
    ensures ParseFamily(FamilyText(f)) == Some(f)
  {
    FamilyNamesDistinct();
    NamedAt(FAMILY_NAMES, FAMILIES, FamilyIndex(f));
  }

  lemma DirectionSpelled(d: Direction)
    ensures ParseDirection(DirectionText(d)) == Some(d)
  {
    DirectionNamesDistinct();
    NamedAt(DIRECTION_NAMES, DIRECTIONS, DirectionIndex(d));
  }

  lemma ClassSpelled(c: ErrorClass)
    ensures ParseClass(ClassText(c)) == Some(c)
  {
    ClassNamesDistinct();
    NamedAt(CLASS_NAMES, ERROR_CLASSES, ClassIndex(c));
  }

  /** No error class is spelled like a direction. */
  lemma ClassIsNoDirection(c: ErrorClass)
    ensures ParseDirection(ClassText(c)).None?
  {
    forall j | 0 <= j < |DIRECTION_NAMES| ensures DIRECTION_NAMES[j] != ClassText(c) {
      assert Mark(DIRECTION_NAMES[j]) != Mark(ClassText(c));
    }
    NamedNone(DIRECTION_NAMES, DIRECTIONS, ClassText(c));
  }

  // ---------------------------------------------------------------------------
  // Metric keys
  // ---------------------------------------------------------------------------

  predicate PrintsDirection(key: MetricKey) { IsDirectionalFamily(key.family) && key.direction != Direction.Unknown }
  predicate PrintsClass(key: MetricKey) { key.family in {Errors, Discards} && key.errorClass != ErrorClass.None }

  function Slashed(f: string, d: Option<string>, c: Option<string>): string {
    f + (if d.Some? then "/" + d.value else "") + (if c.Some? then "/" + c.value else "")
  }

  function PrintedDirection(key: MetricKey): Option<string> {
    if PrintsDirection(key) then Some(DirectionText(key.direction)) else Option.None
  }

  function PrintedClass(key: MetricKey): Option<string> {
    if PrintsClass(key) then Some(ClassText(key.errorClass)) else Option.None
  }

  function KeyText(key: MetricKey): string {
    Slashed(FamilyText(key.family), PrintedDirection(key), PrintedClass(key))
  }

  /** The pieces between slashes; the text always has at least one. */
  function Pieces(s: string): (ps: seq<string>)
    ensures ps != []
    decreases |s|
  {
    var i := Find(s, '/');
    if i == |s| then [s] else [s[..i]] + Pieces(s[i + 1..])
  }

  /** Family, then direction, then error class; no piece empty and no fourth. */
  function KeyOf(ps: seq<string>): Option<MetricKey> {
    if ps == [] || |ps| > 3 || "" in ps then Option.None
    else
      var family := ParseFamily(ps[0]);
      var direction := if |ps| > 1 then ParseDirection(ps[1]) else Some(Direction.Unknown);
      var errorClass := if |ps| > 2 then ParseClass(ps[2]) else Some(ErrorClass.None);
      if family.Some? && direction.Some? && errorClass.Some? then Some(MetricKey(family.value, direction.value, errorClass.value))
      else Option.None
  }

  function ParseKey(s: string): Option<MetricKey> { KeyOf(Pieces(s)) }

  lemma {:induction false} PiecesJoin(a: string, b: string)
    requires Without(a, '/')
    ensures Pieces(a + "/" + b) == [a] + Pieces(b)
    ensures Pieces(a) == [a]
  {
    FindAfter(a, '/', b);
    var s := a + "/" + b;
    assert s[..|a|] == a && s[|a| + 1..] == b;
  }

  lemma FamilyPlain(f: MetricFamily)
    ensures Without(FamilyText(f), '/') && 0 < |FamilyText(f)| <= 14
  {
  }

  lemma DirectionPlain(d: Direction)
    ensures Without(DirectionText(d), '/') && 0 < |DirectionText(d)| <= 7
  {
  }

  lemma ClassPlain(c: ErrorClass)
    ensures Without(ClassText(c), '/') && 0 < |ClassText(c)| <= 10
  {
  }

  function Listed(f: string, d: Option<string>, c: Option<string>): seq<string> {
    [f] + (if d.Some? then [d.value] else []) + (if c.Some? then [c.value] else [])
  }

  predicate Plain(s: Option<string>) { s.Some? ==> Without(s.value, '/') && s.value != "" }

  lemma {:induction false} SlashedPieces(f: string, d: Option<string>, c: Option<string>)
    requires Without(f, '/') && Plain(d) && Plain(c)
    ensures Pieces(Slashed(f, d, c)) == Listed(f, d, c)
  {
    if d.Some? && c.Some? {
      assert Slashed(f, d, c) == f + "/" + (d.value + "/" + c.value);
      PiecesJoin(f, d.value + "/" + c.value);
      PiecesJoin(d.value, c.value);
      PiecesJoin(c.value, "");
    } else if d.Some? {
      assert Slashed(f, d, c) == f + "/" + d.value;
      PiecesJoin(f, d.value);
      PiecesJoin(d.value, "");
    } else if c.Some? {
      assert Slashed(f, d, c) == f + "/" + c.value;
      PiecesJoin(f, c.value);
      PiecesJoin(c.value, "");
    } else {
      assert Slashed(f, d, c) == f;
      PiecesJoin(f, "");
    }
  }

  /** What the listed pieces parse to, whatever they are. */
  lemma {:induction false} KeyOfListed(f: string, d: Option<string>, c: Option<string>)
    requires f != "" && Plain(d) && Plain(c)
    ensures d.Some? || c.None? ==>
              KeyOf(Listed(f, d, c)) ==
                var family := ParseFamily(f);
                var direction := if d.Some? then ParseDirection(d.value) else Some(Direction.Unknown);
                var errorClass := if c.Some? then ParseClass(c.value) else Some(ErrorClass.None);
                if family.Some? && direction.Some? && errorClass.Some?
                then Some(MetricKey(family.value, direction.value, errorClass.value)) else Option.None
    ensures d.None? && c.Some? && ParseDirection(c.value).None? ==> KeyOf(Listed(f, d, c)).None?
  {
    var ps := Listed(f, d, c);
    assert "" !in ps;
  }

  lemma {:induction false} KeyTextParses(key: MetricKey)
    ensures ParseKey(KeyText(key)) ==
              if PrintsClass(key) && !PrintsDirection(key) then Option.None
              else Some(MetricKey(key.family, if PrintsDirection(key) then key.direction else Direction.Unknown,
                                  if PrintsClass(key) then key.errorClass else ErrorClass.None))
  {
    var f, d, c := FamilyText(key.family), PrintedDirection(key), PrintedClass(key);
    FamilyPlain(key.family);
    DirectionPlain(key.direction);
    ClassPlain(key.errorClass);
    SlashedPieces(f, d, c);
    KeyOfListed(f, d, c);
    FamilySpelled(key.family);
    DirectionSpelled(key.direction);
    ClassSpelled(key.errorClass);
    ClassIsNoDirection(key.errorClass);
  }

  /** Every part of the key is printed, and a class only behind a direction. */
  predicate Spellable(key: MetricKey) {
    && (key.direction != Direction.Unknown ==> IsDirectionalFamily(key.family))
    && (key.errorClass != ErrorClass.None ==> key.family in {Errors, Discards} && key.direction != Direction.Unknown)
  }

  /** Printing and parsing a key returns it exactly when every part of it can be spelled. */
  lemma {:induction false} KeyRoundTripIff(key: MetricKey)
    ensures ParseKey(KeyText(key)) == Some(key) <==> Spellable(key)
  {
    KeyTextParses(key);
  }

  /** A CRC error key without a direction prints as "errors/crc", which does not parse. */
  lemma UndirectedClassIsLost()
    ensures ParseKey(KeyText(MetricKey(Errors, Direction.Unknown, ErrorClass.Crc))).None?
  {
    KeyTextParses(MetricKey(Errors, Direction.Unknown, ErrorClass.Crc));
  }

  /** The key with its next piece, if that piece is known at its place. */
  function WithPiece(key: MetricKey, part: nat, token: string): Option<MetricKey> {
    if token == "" then Option.None
    else if part == 0 then
      (match ParseFamily(token) case None => Option.None case Some(f) => Some(key.(family := f)))
    else if part == 1 then
      (match ParseDirection(token) case None => Option.None case Some(d) => Some(key.(direction := d)))
    else if part == 2 then
      (match ParseClass(token) case None => Option.None case Some(c) => Some(key.(errorClass := c)))
    else Option.None
  }

  const BLANK_KEY: MetricKey := MetricKey(AdminState, Direction.Unknown, ErrorClass.None)

  /** Pieces taken one by one. */
  function KeyFrom(key: MetricKey, part: nat, ps: seq<string>): Option<MetricKey>
    decreases |ps|
  {
    if ps == [] then Some(key)
    else
      match WithPiece(key, part, ps[0])
      case None => Option.None
      case Some(next) => KeyFrom(next, part + 1, ps[1..])
  }

  /** Taking the pieces one by one, written out for up to three of them. */
  lemma {:induction false} KeyFromThree(ps: seq<string>)
    requires ps != []
    ensures KeyFrom(BLANK_KEY, 0, ps) ==
      match WithPiece(BLANK_KEY, 0, ps[0])
      case None => Option.None
      case Some(one) =>
        if |ps| == 1 then Some(one)
        else match WithPiece(one, 1, ps[1])
          case None => Option.None
          case Some(two) =>
            if |ps| == 2 then Some(two)
            else match WithPiece(two, 2, ps[2])
              case None => Option.None
              case Some(three) => if |ps| == 3 then Some(three) else Option.None
  {
    KeyFromOne(BLANK_KEY, 0, ps);
    if |ps| > 1 {
      var one := WithPiece(BLANK_KEY, 0, ps[0]);
      if one.Some? {
        KeyFromOne(one.value, 1, ps[1..]);
        if |ps| > 2 {
          var two := WithPiece(one.value, 1, ps[1]);
          if two.Some? {
            KeyFromOne(two.value, 2, ps[1..][1..]);
            if |ps| > 3 {
              var three := WithPiece(two.value, 2, ps[2]);
              if three.Some? {
                KeyFromOne(three.value, 3, ps[1..][1..][1..]);
              }
            }
          }
        }
      }
    }
  }

  lemma {:induction false} KeyFromOne(key: MetricKey, part: nat, ps: seq<string>)
    requires ps != []
    ensures KeyFrom(key, part, ps) ==
      match WithPiece(key, part, ps[0])
      case None => Option.None
      case Some(next) => if |ps| == 1 then Some(next) else KeyFrom(next, part + 1, ps[1..])
  {
  }

  lemma {:induction false} KeyFromIsKeyOf(ps: seq<string>)
    requires ps != []
    ensures KeyFrom(BLANK_KEY, 0, ps) == KeyOf(ps)
  {
    KeyFromThree(ps);
    assert |ps| == 1 ==> ps == [ps[0]];
    assert |ps| == 2 ==> ps == [ps[0], ps[1]];
    assert |ps| == 3 ==> ps == [ps[0], ps[1], ps[2]];
  }

  /** `MetricKey::parse`: a cursor loop over the pieces. */
  method ReadKey(s: string) returns (out: Option<MetricKey>)
    ensures out == ParseKey(s)
  {
    var key, rest, part := BLANK_KEY, s, 0;
    KeyFromIsKeyOf(Pieces(s));
    while true
      invariant ParseKey(s) == KeyFrom(key, part, Pieces(rest))
      decreases |rest|
    {
      var end := Find(rest, '/');
      assert Pieces(rest)[0] == rest[..end];
      var next := WithPiece(key, part, rest[..end]);
      if next.None? {
        return Option.None;
      }
      key, part := next.value, part + 1;
      if end == |rest| {
        return Some(key);
      }
      assert Pieces(rest)[1..] == Pieces(rest[end + 1..]);
      rest := rest[end + 1..];
    }
  }
}
