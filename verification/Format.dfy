/**
 Encodings paired with their decoders. `typed` says which values the original's machine types can
 hold, `ok` which of those lie within the decoder's bounds.
 */
module Format {
  import opened Checked
  import opened Domain
  import opened Bytes

  datatype Format<!T> = Format(
    enc: T -> seq<Byte>, dec: seq<Byte> -> Parsed<T>, typed: T -> bool, ok: T -> bool)

  /**
   Decoding the encoding of any typed value followed by any bytes returns the value and leaves
   exactly those bytes when the value is within bounds, and refuses when it is not.
   */
  ghost predicate Exact<T(!new)>(f: Format<T>) {
    forall v, rest: seq<Byte> | f.typed(v) ::
      f.dec(f.enc(v) + rest) == if f.ok(v) then Some((v, rest)) else Option.None
  }

  /** Every value is within the decoder's bounds. */
  ghost predicate Unbounded<T(!new)>(f: Format<T>) { forall v :: f.ok(v) }

  lemma ExactAt<T(!new)>(f: Format<T>, v: T, rest: seq<Byte>)
    requires Exact(f) && f.typed(v)
    ensures f.dec(f.enc(v) + rest) == if f.ok(v) then Some((v, rest)) else Option.None
  {
  }

  // ---------------------------------------------------------------------------
  // Primitives
  // ---------------------------------------------------------------------------

  function Int(n: nat): Format<nat> {
    Format((v: nat) => LittleEndian(v, n), s => ReadInt(s, n), (v: nat) => v < Pow256(n), _ => true)
  }

  lemma {:induction false} IntExact(n: nat)
    ensures Exact(Int(n)) && Unbounded(Int(n))
  {
    forall v: nat, rest: seq<Byte> | v < Pow256(n) ensures ReadInt(LittleEndian(v, n) + rest, n) == Some((v, rest)) {
      LittleRoundTrip(v, n);
      assert (LittleEndian(v, n) + rest)[..n] == LittleEndian(v, n);
      assert (LittleEndian(v, n) + rest)[n..] == rest;
    }
  }

  function Bool(): Format<bool> {
    Format((v: bool) => [if v then 1 else 0], s => ReadBool(s), _ => true, _ => true)
  }

  lemma {:induction false} BoolExact()
    ensures Exact(Bool()) && Unbounded(Bool())
  {
    forall v: bool, rest: seq<Byte> ensures Bool().dec(Bool().enc(v) + rest) == Some((v, rest)) {
      assert ([if v then 1 else 0] + rest)[1..] == rest;
    }
  }

  /** A string of bytes behind its length. */
  function Text(bound: nat): Format<string> {
    Format((v: string) => LittleEndian(|v|, 8) + BytesOf(v), s => ReadText(s, bound),
           (v: string) => Narrow(v) && |v| < TWO_64, (v: string) => |v| <= bound)
  }

  predicate Narrow(v: string) { forall i | 0 <= i < |v| :: v[i] as int < 256 }

  function BytesOf(v: string): seq<Byte> {
    seq(|v|, i requires 0 <= i < |v| => v[i] as int % 256)
  }

  function CharsOf(s: seq<Byte>): string {
    seq(|s|, i requires 0 <= i < |s| => s[i] as char)
  }

  function ReadText(s: seq<Byte>, bound: nat): Parsed<string> {
    match ReadBytes(s, bound)
    case None => Option.None
    case Some((bytes, rest)) => Some((CharsOf(bytes), rest))
  }

  lemma {:induction false} TextDecodes(v: string, rest: seq<Byte>, bound: nat)
    requires Narrow(v) && |v| < TWO_64
    ensures ReadText(LittleEndian(|v|, 8) + (BytesOf(v) + rest), bound) == if |v| <= bound then Some((v, rest)) else Option.None
  {
    Pow256Values();
    IntExact(8);
    ExactAt(Int(8), |v|, BytesOf(v) + rest);
    assert (BytesOf(v) + rest)[..|v|] == BytesOf(v) && (BytesOf(v) + rest)[|v|..] == rest;
    assert CharsOf(BytesOf(v)) == v;
  }

  lemma {:induction false} TextExact(bound: nat)
    ensures Exact(Text(bound))
  {
    var f := Text(bound);
    forall v, rest: seq<Byte> | f.typed(v)
      ensures f.dec(f.enc(v) + rest) == if f.ok(v) then Some((v, rest)) else Option.None
    {
      assert f.enc(v) + rest == LittleEndian(|v|, 8) + (BytesOf(v) + rest);
      TextDecodes(v, rest, bound);
    }
  }

  // ---------------------------------------------------------------------------
  // Combinators
  // ---------------------------------------------------------------------------

  function Pair<A, B>(a: Format<A>, b: Format<B>): Format<(A, B)> {
    Format((p: (A, B)) => a.enc(p.0) + b.enc(p.1), s => ReadPair(a, b, s),
           (p: (A, B)) => a.typed(p.0) && b.typed(p.1), (p: (A, B)) => a.ok(p.0) && b.ok(p.1))
  }

  function ReadPair<A, B>(a: Format<A>, b: Format<B>, s: seq<Byte>): Parsed<(A, B)> {
    match a.dec(s)
    case None => Option.None
    case Some((x, rest)) =>
      match b.dec(rest)
      case None => Option.None
      case Some((y, more)) => Some(((x, y), more))
  }

  lemma {:induction false} PairExact<A(!new), B(!new)>(a: Format<A>, b: Format<B>)
    requires Exact(a) && Exact(b)
    ensures Exact(Pair(a, b)) && (Unbounded(a) && Unbounded(b) ==> Unbounded(Pair(a, b)))
  {
    var f := Pair(a, b);
    forall v, rest: seq<Byte> | f.typed(v)
      ensures f.dec(f.enc(v) + rest) == if f.ok(v) then Some((v, rest)) else Option.None
    {
      ExactAt(a, v.0, b.enc(v.1) + rest);
      ExactAt(b, v.1, rest);
      assert f.enc(v) + rest == a.enc(v.0) + (b.enc(v.1) + rest);
    }
    if Unbounded(a) && Unbounded(b) {
      forall v ensures f.ok(v) {
        PairBounds(a, b, v);
      }
    }
  }

  function Triple<A, B, C>(a: Format<A>, b: Format<B>, c: Format<C>): Format<(A, (B, C))> { Pair(a, Pair(b, c)) }

  lemma {:induction false} TripleExact<A(!new), B(!new), C(!new)>(a: Format<A>, b: Format<B>, c: Format<C>)
    requires Exact(a) && Exact(b) && Exact(c)
    ensures Exact(Triple(a, b, c)) && (Unbounded(a) && Unbounded(b) && Unbounded(c) ==> Unbounded(Triple(a, b, c)))
  {
    PairExact(b, c);
    PairExact(a, Pair(b, c));
  }

  function Quad<A, B, C, D>(a: Format<A>, b: Format<B>, c: Format<C>, d: Format<D>): Format<(A, (B, (C, D)))> {
    Pair(a, Triple(b, c, d))
  }

  lemma {:induction false} QuadExact<A(!new), B(!new), C(!new), D(!new)>(a: Format<A>, b: Format<B>, c: Format<C>, d: Format<D>)
    requires Exact(a) && Exact(b) && Exact(c) && Exact(d)
    ensures Exact(Quad(a, b, c, d))
    ensures Unbounded(a) && Unbounded(b) && Unbounded(c) && Unbounded(d) ==> Unbounded(Quad(a, b, c, d))
  {
    TripleExact(b, c, d);
    PairExact(a, Triple(b, c, d));
  }

  lemma PairBounds<A, B>(a: Format<A>, b: Format<B>, v: (A, B))
    ensures Pair(a, b).ok(v) <==> a.ok(v.0) && b.ok(v.1)
  {
  }

  lemma TripleBounds<A, B, C>(a: Format<A>, b: Format<B>, c: Format<C>, v: (A, (B, C)))
    ensures Triple(a, b, c).ok(v) <==> a.ok(v.0) && b.ok(v.1.0) && c.ok(v.1.1)
  {
    PairBounds(b, c, v.1);
    PairBounds(a, Pair(b, c), v);
  }

  lemma QuadBounds<A, B, C, D>(a: Format<A>, b: Format<B>, c: Format<C>, d: Format<D>, v: (A, (B, (C, D))))
    ensures Quad(a, b, c, d).ok(v) <==> a.ok(v.0) && b.ok(v.1.0) && c.ok(v.1.1.0) && d.ok(v.1.1.1)
  {
    TripleBounds(b, c, d, v.1);
    PairBounds(a, Triple(b, c, d), v);
  }

  /** The same bytes read as another type. */
  function View<A, B>(f: Format<A>, make: A -> B, take: B -> A): Format<B> {
    Format((v: B) => f.enc(take(v)), s => ReadView(f, make, s), (v: B) => f.typed(take(v)), (v: B) => f.ok(take(v)))
  }

  function ReadView<A, B>(f: Format<A>, make: A -> B, s: seq<Byte>): Parsed<B> {
    match f.dec(s)
    case None => Option.None
    case Some((x, rest)) => Some((make(x), rest))
  }

  ghost predicate Inverse<A, B(!new)>(make: A -> B, take: B -> A) {
    forall v :: make(take(v)) == v
  }

  lemma {:induction false} ViewExact<A(!new), B(!new)>(f: Format<A>, make: A -> B, take: B -> A)
    requires Exact(f) && Inverse(make, take)
    ensures Exact(View(f, make, take)) && (Unbounded(f) ==> Unbounded(View(f, make, take)))
  {
    var g := View(f, make, take);
    forall v, rest: seq<Byte> | g.typed(v)
      ensures g.dec(g.enc(v) + rest) == if g.ok(v) then Some((v, rest)) else Option.None
    {
      ExactAt(f, take(v), rest);
      assert make(take(v)) == v;
    }
  }

  lemma ViewBounds<A, B>(f: Format<A>, make: A -> B, take: B -> A, v: B)
    ensures View(f, make, take).ok(v) <==> f.ok(take(v))
  {
  }

  lemma ListBounds<T(!new)>(f: Format<T>, bound: nat, vs: seq<T>)
    ensures List(f, bound).ok(vs) <==> |vs| <= bound && EachOk(f, vs)
    ensures Unbounded(f) ==> EachOk(f, vs)
  {
  }

  function EncodeEach<T>(f: Format<T>, vs: seq<T>): seq<Byte> {
    if vs == [] then [] else f.enc(vs[0]) + EncodeEach(f, vs[1..])
  }

  function ReadEach<T>(f: Format<T>, s: seq<Byte>, n: nat): Parsed<seq<T>>
    decreases n
  {
    if n == 0 then Some(([], s))
    else match f.dec(s)
      case None => Option.None
      case Some((v, rest)) =>
        match ReadEach(f, rest, n - 1)
        case None => Option.None
        case Some((vs, more)) => Some(([v] + vs, more))
  }

  predicate EachTyped<T>(f: Format<T>, vs: seq<T>) { forall i | 0 <= i < |vs| :: f.typed(vs[i]) }
  predicate EachOk<T>(f: Format<T>, vs: seq<T>) { forall i | 0 <= i < |vs| :: f.ok(vs[i]) }

  lemma {:induction false} EachExact<T(!new)>(f: Format<T>, vs: seq<T>, rest: seq<Byte>)
    requires Exact(f) && EachTyped(f, vs)
    ensures ReadEach(f, EncodeEach(f, vs) + rest, |vs|) == if EachOk(f, vs) then Some((vs, rest)) else Option.None
    decreases |vs|
  {
    if vs != [] {
      ExactAt(f, vs[0], EncodeEach(f, vs[1..]) + rest);
      EachExact(f, vs[1..], rest);
      assert EncodeEach(f, vs) + rest == f.enc(vs[0]) + (EncodeEach(f, vs[1..]) + rest);
      assert EachOk(f, vs) <==> f.ok(vs[0]) && EachOk(f, vs[1..]) by {
        assert forall i | 1 <= i < |vs| :: vs[i] == vs[1..][i - 1];
      }
      assert [vs[0]] + vs[1..] == vs;
    } else {
      assert EncodeEach(f, vs) + rest == rest;
    }
  }

  /** A count within the bound, then that many records. */
  function List<T>(f: Format<T>, bound: nat): Format<seq<T>> {
    Format((vs: seq<T>) => LittleEndian(|vs|, 8) + EncodeEach(f, vs), s => ReadList(f, s, bound),
           (vs: seq<T>) => |vs| < TWO_64 && EachTyped(f, vs), (vs: seq<T>) => |vs| <= bound && EachOk(f, vs))
  }

  function ReadList<T>(f: Format<T>, s: seq<Byte>, bound: nat): Parsed<seq<T>> {
    match ReadCount(s, bound)
    case None => Option.None
    case Some((n, rest)) => ReadEach(f, rest, n)
  }

  lemma {:induction false} ListExact<T(!new)>(f: Format<T>, bound: nat)
    requires Exact(f)
    ensures Exact(List(f, bound))
  {
    var g := List(f, bound);
    forall vs, rest: seq<Byte> | g.typed(vs)
      ensures g.dec(g.enc(vs) + rest) == if g.ok(vs) then Some((vs, rest)) else Option.None
    {
      Pow256Values();
      IntExact(8);
      ExactAt(Int(8), |vs|, EncodeEach(f, vs) + rest);
      assert g.enc(vs) + rest == LittleEndian(|vs|, 8) + (EncodeEach(f, vs) + rest);
      EachExact(f, vs, rest);
    }
  }

  /** The records already read, put before what is still to come. */
  function After<T>(vs: seq<T>, out: Parsed<seq<T>>): Parsed<seq<T>> {
    match out
    case None => Option.None
    case Some((more, rest)) => Some((vs + more, rest))
  }

  lemma AfterOne<T>(vs: seq<T>, v: T, out: Parsed<seq<T>>)
    ensures After(vs, After([v], out)) == After(vs + [v], out)
  {
    if out.Some? {
      assert vs + ([v] + out.value.0) == (vs + [v]) + out.value.0;
    }
  }

  lemma AfterNone<T>(out: Parsed<seq<T>>)
    ensures After([], out) == out
  {
    if out.Some? {
      assert [] + out.value.0 == out.value.0;
    }
  }

  /** The decoding loop: the count, then the records one by one. */
  method DecodeList<T>(f: Format<T>, data: seq<Byte>, bound: nat) returns (out: Parsed<seq<T>>)
    ensures out == ReadList(f, data, bound)
  {
    var reader := new ByteReader(data);
    var done, n := reader.Count(bound);
    if !done {
      return Option.None;
    }
    out := DecodeEach(f, reader.Rest(), n);
  }

  method DecodeEach<T>(f: Format<T>, data: seq<Byte>, n: nat) returns (out: Parsed<seq<T>>)
    ensures out == ReadEach(f, data, n)
  {
    var vs: seq<T>, rest, i := [], data, 0;
    AfterNone(ReadEach(f, data, n));
    while i < n
      invariant 0 <= i <= n
      invariant ReadEach(f, data, n) == After(vs, ReadEach(f, rest, n - i))
    {
      match f.dec(rest) {
        case None => return Option.None;
        case Some((v, tail)) =>
          AfterOne(vs, v, ReadEach(f, tail, n - i - 1));
          vs, rest := vs + [v], tail;
      }
      i := i + 1;
    }
    assert vs + [] == vs;
    return Some((vs, rest));
  }

  /** The encoding loop: the count, then the records one by one. */
  method EncodeList<T>(f: Format<T>, vs: seq<T>) returns (out: seq<Byte>)
    ensures out == LittleEndian(|vs|, 8) + EncodeEach(f, vs)
  {
    var writer := new ByteWriter();
    writer.Int(|vs|, 8);
    var i := 0;
    assert vs[0..] == vs;
    while i < |vs|
      invariant 0 <= i <= |vs|
      invariant writer.buffer + EncodeEach(f, vs[i..]) == LittleEndian(|vs|, 8) + EncodeEach(f, vs)
    {
      Regroup(writer.buffer, f.enc(vs[i]), EncodeEach(f, vs[i + 1..]));
      assert vs[i..][1..] == vs[i + 1..];
      writer.Raw(f.enc(vs[i]));
      i := i + 1;
    }
    return writer.buffer;
  }

  lemma Regroup<T>(a: seq<T>, b: seq<T>, c: seq<T>)
    ensures a + (b + c) == (a + b) + c
  {
  }
}
