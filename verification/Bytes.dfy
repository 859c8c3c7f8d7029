/**
 Bytes, little-endian integers, and the writer and reader the codec is built on
 (src/persist/codec.cpp:19-173; src/transport/frame.cpp:10-38 uses the same integer layout).
 */
module Bytes {
  import opened Checked
  import opened Domain

  type Byte = n: nat | n < 256

  /** What a decoder returns: the value and the bytes after it, or a refusal. */
  type Parsed<T> = Option<(T, seq<Byte>)>

  function Pow256(n: nat): (p: nat)
    ensures p > 0
  {
    if n == 0 then 1 else 256 * Pow256(n - 1)
  }

  /** The n low-order bytes of v, least significant first. */
  function LittleEndian(v: nat, n: nat): (s: seq<Byte>)
    ensures |s| == n
  {
    if n == 0 then [] else [v % 256] + LittleEndian(v / 256, n - 1)
  }

  function FromLittle(s: seq<Byte>): nat {
    if s == [] then 0 else s[0] + 256 * FromLittle(s[1..])
  }

  lemma {:induction false} FromLittleBound(s: seq<Byte>)
    ensures FromLittle(s) < Pow256(|s|)
  {
    if s != [] {
      FromLittleBound(s[1..]);
    }
  }

  lemma DivBound(v: nat, p: nat)
    requires v < 256 * p
    ensures v / 256 < p
  {
  }

  lemma {:induction false} LittleRoundTrip(v: nat, n: nat)
    requires v < Pow256(n)
    ensures FromLittle(LittleEndian(v, n)) == v
  {
    if n > 0 {
      DivBound(v, Pow256(n - 1));
      LittleRoundTrip(v / 256, n - 1);
      assert LittleEndian(v, n)[1..] == LittleEndian(v / 256, n - 1);
    }
  }

  /** Every byte string is the encoding of the number it denotes. */
  lemma {:induction false} FromLittleRoundTrip(s: seq<Byte>)
    ensures LittleEndian(FromLittle(s), |s|) == s
  {
    if s != [] {
      FromLittleRoundTrip(s[1..]);
      assert FromLittle(s) / 256 == FromLittle(s[1..]);
    }
  }

  lemma {:induction false} FromLittleAppend(s: seq<Byte>, b: Byte)
    ensures FromLittle(s + [b]) == FromLittle(s) + b * Pow256(|s|)
  {
    if s == [] {
      assert s + [b] == [b];
      assert [b][1..] == [];
    } else {
      FromLittleAppend(s[1..], b);
      assert (s + [b])[1..] == s[1..] + [b];
      Rearrange(s[0], FromLittle(s[1..]), b, Pow256(|s| - 1));
    }
  }

  lemma Rearrange(h: nat, t: nat, b: nat, p: nat)
    ensures h + 256 * (t + b * p) == (h + 256 * t) + b * (256 * p)
  {
  }

  lemma {:induction false} LittleEndianAppend(v: nat, n: nat)
    ensures LittleEndian(v, n + 1) == LittleEndian(v, n) + [v / Pow256(n) % 256]
  {
    if n == 0 {
      assert LittleEndian(v / 256, 0) == [];
    } else {
      LittleEndianAppend(v / 256, n - 1);
      DivDiv(v, Pow256(n - 1));
    }
  }

  lemma DivDiv(v: nat, p: nat)
    requires p > 0
    ensures v / 256 / p == v / (256 * p)
  {
    var q := v / 256 / p;
    var r := v / 256 % p;
    assert v / 256 == q * p + r;
    assert v == 256 * (q * p + r) + v % 256;
    Spread(q, p, r, v % 256);
    DivUnique(v, 256 * p, q, 256 * r + v % 256);
  }

  lemma Spread(q: nat, p: nat, r: nat, m: nat)
    ensures 256 * (q * p + r) + m == q * (256 * p) + (256 * r + m)
  {
  }

  lemma Pow256Values()
    ensures Pow256(1) == 256 && Pow256(4) == TWO_32 && Pow256(8) == TWO_64
  {
    assert Pow256(2) == 65536 && Pow256(3) == 16777216 && Pow256(4) == 4294967296;
    assert Pow256(5) == 1099511627776 && Pow256(6) == 281474976710656 && Pow256(7) == 72057594037927936;
  }

  // ---------------------------------------------------------------------------
  // Primitive encodings
  // ---------------------------------------------------------------------------

  /** Two's complement of a signed 64-bit value. */
  function Unsigned(v: I64): U64 { if v < 0 then v + TWO_64 else v }
  function Signed(v: U64): I64 { if v >= TWO_63 then v - TWO_64 else v }

  function ReadByte(s: seq<Byte>): Parsed<Byte> {
    if s == [] then Option.None else Some((s[0], s[1..]))
  }

  function ReadInt(s: seq<Byte>, n: nat): Parsed<nat> {
    if |s| < n then Option.None else Some((FromLittle(s[..n]), s[n..]))
  }

  function ReadBool(s: seq<Byte>): Parsed<bool> {
    if s == [] || s[0] > 1 then Option.None else Some((s[0] == 1, s[1..]))
  }

  function ReadRaw(s: seq<Byte>, n: nat): Parsed<seq<Byte>> {
    if |s| < n then Option.None else Some((s[..n], s[n..]))
  }

  /** A length, checked against the bound and what is left, then that many bytes. */
  function ReadBytes(s: seq<Byte>, bound: nat): Parsed<seq<Byte>> {
    match ReadInt(s, 8)
    case None => Option.None
    case Some((n, rest)) => if n > bound || n > |rest| then Option.None else ReadRaw(rest, n)
  }

  function ReadCount(s: seq<Byte>, bound: nat): Parsed<nat> {
    match ReadInt(s, 8)
    case None => Option.None
    case Some((n, rest)) => if n > bound then Option.None else Some((n, rest))
  }

  // ---------------------------------------------------------------------------
  // Writer and reader
  // ---------------------------------------------------------------------------

  class ByteWriter {
    var buffer: seq<Byte>

    constructor ()
      ensures buffer == []
    {
      buffer := [];
    }

    method U8(value: Byte)
      modifies this
      ensures buffer == old(buffer) + [value]
    {
      buffer := buffer + [value];
    }

    /** Appends the n low-order bytes, shifting by eight bits each time. */
    method Int(value: nat, n: nat)
      modifies this
      ensures buffer == old(buffer) + LittleEndian(value, n)
    {
      var i: nat, place: nat := 0, 1;
      while i < n
        invariant 0 <= i <= n && place == Pow256(i)
        invariant buffer == old(buffer) + LittleEndian(value, i)
      {
        LittleEndianAppend(value, i);
        U8(value / place % 256);
        place := 256 * place;
        i := i + 1;
      }
    }

    method SignedInt(value: I64)
      modifies this
      ensures buffer == old(buffer) + LittleEndian(Unsigned(value), 8)
    {
      Int(Unsigned(value), 8);
    }

    method Bool(value: bool)
      modifies this
      ensures buffer == old(buffer) + [if value then 1 else 0]
    {
      U8(if value then 1 else 0);
    }

    method Raw(data: seq<Byte>)
      modifies this
      ensures buffer == old(buffer) + data
    {
      buffer := buffer + data;
    }

    method LengthPrefixed(value: seq<Byte>)
      modifies this
      ensures buffer == old(buffer) + LittleEndian(|value|, 8) + value
    {
      Int(|value|, 8);
      Raw(value);
    }
  }

  /** Advances an offset over fixed data; any failure is final. */
  class ByteReader {
    const data: seq<Byte>
    var offset: nat
    var ok: bool

    ghost predicate Valid()
      reads this
    {
      offset <= |data|
    }

    function Rest(): seq<Byte>
      requires Valid()
      reads this
    {
      data[offset..]
    }

    constructor (data: seq<Byte>)
      ensures Valid() && Rest() == data && ok
    {
      this.data := data;
      offset, ok := 0, true;
      new;
      assert data[0..] == data;
    }

    method U8() returns (done: bool, value: Byte)
      requires Valid()
      modifies this
      ensures Valid() && done == ReadByte(old(Rest())).Some?
      ensures done ==> ok == old(ok) && (value, Rest()) == ReadByte(old(Rest())).value
      ensures !done ==> !ok && Rest() == old(Rest())
    {
      if offset >= |data| {
        ok := false;
        return false, 0;
      }
      value := data[offset];
      offset := offset + 1;
      done := true;
    }

    /** Reads n bytes, adding each at its place value. */
    method Int(n: nat) returns (done: bool, value: nat)
      requires Valid()
      modifies this
      ensures Valid() && done == ReadInt(old(Rest()), n).Some?
      ensures done ==> ok == old(ok) && (value, Rest()) == ReadInt(old(Rest()), n).value
      ensures !done ==> !ok
    {
      ghost var s := Rest();
      var i: nat, place: nat := 0, 1;
      value := 0;
      while i < n
        invariant Valid() && ok == old(ok) && 0 <= i <= n && i <= |s|
        invariant Rest() == s[i..] && value == FromLittle(s[..i]) && place == Pow256(i)
      {
        var got, byte := U8();
        if !got {
          return false, 0;
        }
        FromLittleAppend(s[..i], byte);
        assert s[..i + 1] == s[..i] + [byte];
        value := value + byte * place;
        place := 256 * place;
        i := i + 1;
      }
      done := true;
    }

    method SignedInt() returns (done: bool, value: I64)
      requires Valid()
      modifies this
      ensures Valid() && done == ReadInt(old(Rest()), 8).Some?
      ensures done ==> Unsigned(value) == ReadInt(old(Rest()), 8).value.0 && Rest() == ReadInt(old(Rest()), 8).value.1
    {
      ghost var s := Rest();
      var raw: nat;
      done, raw := Int(8);
      value := 0;
      if done {
        FromLittleBound(s[..8]);
        Pow256Values();
        value := Signed(raw);
      }
    }

    method Bool() returns (done: bool, value: bool)
      requires Valid()
      modifies this
      ensures Valid() && done == ReadBool(old(Rest())).Some?
      ensures done ==> (value, Rest()) == ReadBool(old(Rest())).value
      ensures !done ==> !ok
    {
      var byte: Byte;
      done, byte := U8();
      if done && byte > 1 {
        ok := false;
        return false, false;
      }
      value := byte == 1;
    }

    method Raw(n: nat) returns (done: bool, value: seq<Byte>)
      requires Valid()
      modifies this
      ensures Valid() && done == ReadRaw(old(Rest()), n).Some?
      ensures done ==> (value, Rest()) == ReadRaw(old(Rest()), n).value
      ensures !done ==> !ok
    {
      if n > |data| - offset {
        ok := false;
        return false, [];
      }
      value := data[offset..offset + n];
      assert Rest()[..n] == value && Rest()[n..] == data[offset + n..];
      offset := offset + n;
      done := true;
    }

    method LengthPrefixed(bound: nat) returns (done: bool, value: seq<Byte>)
      requires Valid()
      modifies this
      ensures Valid() && done == ReadBytes(old(Rest()), bound).Some?
      ensures done ==> (value, Rest()) == ReadBytes(old(Rest()), bound).value
      ensures !done ==> !ok
    {
      var n: nat;
      done, n := Int(8);
      value := [];
      if done {
        if n > bound || n > |data| - offset {
          ok := false;
          return false, [];
        }
        done, value := Raw(n);
      }
    }

    method Count(bound: nat) returns (done: bool, value: nat)
      requires Valid()
      modifies this
      ensures Valid() && done == ReadCount(old(Rest()), bound).Some?
      ensures done ==> (value, Rest()) == ReadCount(old(Rest()), bound).value
      ensures !done ==> !ok
    {
      done, value := Int(8);
      if done && value > bound {
        ok := false;
        return false, 0;
      }
    }
  }
}
