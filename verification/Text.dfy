/**
 Decimal text, trimming, tokens and the field builder (src/core/text.cpp:16-45, 67-121, 148-168 and
 193-247).
 */
module Text {
  import opened Checked
  import opened Domain

  predicate IsDigit(c: char) { '0' <= c <= '9' }

  function DigitChar(d: nat): (c: char)
    requires d < 10
    ensures IsDigit(c)
  {
    (('0' as int) + d) as char
  }

  function DigitValue(c: char): (d: nat)
    requires IsDigit(c)
    ensures d < 10
  {
    (c as int) - ('0' as int)
  }

  predicate AllDigits(s: string) { forall i | 0 <= i < |s| :: IsDigit(s[i]) }

  /** The number a digit string denotes. */
  function DecValue(s: string): nat
    requires AllDigits(s)
  {
    if s == "" then 0 else 10 * DecValue(s[..|s| - 1]) + DigitValue(s[|s| - 1])
  }

  // ---------------------------------------------------------------------------
  // Unsigned
  // ---------------------------------------------------------------------------

  /** The shortest digit string of a number. */
  function ToDec(v: nat): (s: string)
    ensures s != "" && AllDigits(s)
  {
    if v < 10 then [DigitChar(v)] else ToDec(v / 10) + [DigitChar(v % 10)]
  }

  lemma {:induction false} ToDecValue(v: nat)
    ensures DecValue(ToDec(v)) == v
  {
    if v < 10 {
      assert ToDec(v)[..0] == "";
    } else {
      ToDecValue(v / 10);
      assert ToDec(v)[..|ToDec(v)| - 1] == ToDec(v / 10);
    }
  }

  function Pow10(n: nat): (p: nat)
    ensures p > 0
  {
    if n == 0 then 1 else 10 * Pow10(n - 1)
  }

  lemma {:induction false} ToDecLength(v: nat, n: nat)
    requires n > 0 && v < Pow10(n)
    ensures |ToDec(v)| <= n
  {
    if v >= 10 {
      assert n > 1 by { assert Pow10(1) == 10; }
      ToDecLength(v / 10, n - 1);
    }
  }

  lemma WordFitsTwenty()
    ensures TWO_64 <= Pow10(20)
  {
    assert Pow10(5) == 100000;
    assert Pow10(10) == 10000000000;
    assert Pow10(15) == 1000000000000000;
    assert Pow10(20) == 100000000000000000000;
  }

  /** The digits still to be written in front. */
  function Leading(v: nat): string { if v == 0 then "" else ToDec(v) }

  lemma {:induction false} LeadingStep(v: nat)
    requires v > 0
    ensures Leading(v) == Leading(v / 10) + [DigitChar(v % 10)]
  {
    if v < 10 {
      assert v / 10 == 0 && v % 10 == v;
    }
  }

  /** `to_dec`: digits collected from the right, then reversed into the result. */
  method FormatDec(value: U64) returns (out: string)
    ensures out == ToDec(value)
  {
    if value == 0 {
      return "0";
    }
    out := "";
    var v: nat := value;
    assert Leading(v) + "" == Leading(v);
    while v != 0
      invariant ToDec(value) == Leading(v) + out
    {
      LeadingStep(v);
      assert (Leading(v / 10) + [DigitChar(v % 10)]) + out == Leading(v / 10) + ([DigitChar(v % 10)] + out);
      out := [DigitChar(v % 10)] + out;
      v := v / 10;
    }
  }

  /** Between one and twenty digits denoting a value below 2^64. */
  function ParseU64(s: string): Option<U64> {
    if s != "" && |s| <= 20 && AllDigits(s) && DecValue(s) < TWO_64 then Some(DecValue(s)) else Option.None
  }

  lemma {:induction false} DecValueGrows(s: string, n: nat)
    requires AllDigits(s) && n <= |s|
    ensures DecValue(s[..n]) <= DecValue(s)
    decreases |s| - n
  {
    if n < |s| {
      DecValueGrows(s, n + 1);
      assert s[..n + 1][..n] == s[..n];
    } else {
      assert s[..n] == s;
    }
  }

  /** `parse_u64_dec`: the overflow test runs before each digit is added. */
  method ReadU64(s: string) returns (out: Option<U64>)
    ensures out == ParseU64(s)
  {
    if s == "" || |s| > 20 {
      return Option.None;
    }
    var value: nat, i := 0, 0;
    while i < |s|
      invariant 0 <= i <= |s| && AllDigits(s[..i]) && value == DecValue(s[..i]) < TWO_64
    {
      if !IsDigit(s[i]) {
        return Option.None;
      }
      var digit := DigitValue(s[i]);
      assert s[..i + 1][..i] == s[..i];
      if value > (TWO_64 - 1 - digit) / 10 {
        assert DecValue(s[..i + 1]) >= TWO_64;
        if AllDigits(s) {
          DecValueGrows(s, i + 1);
        }
        return Option.None;
      }
      value := value * 10 + digit;
      i := i + 1;
    }
    assert s[..i] == s;
    return Some(value);
  }

  /** Every 64-bit value survives formatting and parsing. */
  lemma {:induction false} U64RoundTrip(v: U64)
    ensures ParseU64(ToDec(v)) == Some(v)
  {
    ToDecValue(v);
    WordFitsTwenty();
    ToDecLength(v, 20);
  }

  // ---------------------------------------------------------------------------
  // Signed
  // ---------------------------------------------------------------------------

  function Negate(v: int): int { -v }

  function ToDecSigned(v: I64): string { if v >= 0 then ToDec(v) else "-" + ToDec(Negate(v)) }

  function ParseI64(s: string): Option<I64> {
    if s == "" then Option.None
    else if s[0] == '-' then
      match ParseU64(s[1..])
      case None => Option.None
      case Some(m) => if m > TWO_63 then Option.None else Some(Negate(m))
    else
      match ParseU64(s)
      case None => Option.None
      case Some(m) => if m > TWO_63 - 1 then Option.None else Some(m)
  }

  /** Every signed value, the most negative included, survives formatting and parsing. */
  lemma {:induction false} I64RoundTrip(v: I64)
    ensures ParseI64(ToDecSigned(v)) == Some(v)
  {
    var s := ToDecSigned(v);
    if v >= 0 {
      U64RoundTrip(v);
      assert IsDigit(s[0]);
    } else {
      U64RoundTrip(Negate(v));
      assert s[1..] == ToDec(Negate(v));
    }
  }

  // ---------------------------------------------------------------------------
  // Characters and tokens
  // ---------------------------------------------------------------------------

  predicate Printable(s: string) { forall i | 0 <= i < |s| :: ' ' <= s[i] <= '~' }

  predicate TokenChar(c: char) {
    'a' <= c <= 'z' || 'A' <= c <= 'Z' || '0' <= c <= '9' || c == '_' || c == '.' || c == ':' || c == '-'
  }

  predicate IsToken(s: string) { 0 < |s| <= 128 && forall i | 0 <= i < |s| :: TokenChar(s[i]) }

  predicate IsBlank(c: char) { c == ' ' || c == '\t' || c == '\r' }

  function TrimLeft(s: string): string { if s != "" && IsBlank(s[0]) then TrimLeft(s[1..]) else s }

  function TrimRight(s: string): string {
    if s != "" && IsBlank(s[|s| - 1]) then TrimRight(s[..|s| - 1]) else s
  }

  function Trim(s: string): string { TrimRight(TrimLeft(s)) }

  method TrimAscii(s: string) returns (out: string)
    ensures out == Trim(s)
  {
    var begin := 0;
    assert s[0..] == s;
    while begin < |s| && IsBlank(s[begin])
      invariant 0 <= begin <= |s| && TrimLeft(s) == TrimLeft(s[begin..])
    {
      assert s[begin..][1..] == s[begin + 1..];
      begin := begin + 1;
    }
    var end := |s|;
    ghost var left := s[begin..];
    assert s[begin..end] == left;
    while end > begin && IsBlank(s[end - 1])
      invariant begin <= end <= |s| && TrimRight(left) == TrimRight(s[begin..end])
    {
      assert s[begin..end][..end - begin - 1] == s[begin..end - 1];
      end := end - 1;
    }
    return s[begin..end];
  }

  lemma TrimmedStays(s: string)
    requires s != "" && !IsBlank(s[0]) && !IsBlank(s[|s| - 1])
    ensures Trim(s) == s
  {
  }

  /** Where the character first occurs, or the length. */
  function Find(s: string, c: char): (i: nat)
    ensures i <= |s| && (i < |s| ==> s[i] == c) && forall j | 0 <= j < i :: s[j] != c
  {
    if s == "" || s[0] == c then 0 else 1 + Find(s[1..], c)
  }

  predicate Without(s: string, c: char) { forall i | 0 <= i < |s| :: s[i] != c }

  lemma FindAfter(a: string, c: char, b: string)
    requires Without(a, c)
    ensures Find(a + [c] + b, c) == |a| && Find(a, c) == |a|
  {
    var s := a + [c] + b;
    assert s[|a|] == c;
    assert forall i | 0 <= i < |a| :: s[i] == a[i];
  }

  /** The builder behind the record formatter. */
  class TextFields {
    const separator: char
    var hasField: bool
    var buffer: string

    constructor (separator: char)
      ensures this.separator == separator && buffer == "" && !hasField
    {
      this.separator := separator;
      hasField, buffer := false, "";
    }

    method Add(key: string, value: string)
      modifies this
      ensures hasField
      ensures buffer == old(buffer) + (if old(hasField) then [separator] else "") + key + "=" + value
    {
      if hasField {
        buffer := buffer + [separator];
      }
      hasField := true;
      buffer := buffer + key + "=" + value;
    }
  }
}
