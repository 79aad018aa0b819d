/** The string primitives the core relies on: `String.prototype.toUpperCase`
    (on ASCII letters), the default order of `Array.prototype.sort`, and
    `parseFloat`. */
module Text {
  import opened Wrappers

  // ---------------------------------------------------------------------------
  // Upper-casing
  // ---------------------------------------------------------------------------

  predicate IsLowerAscii(c: char) { 'a' <= c <= 'z' }

  /** No ASCII lower-case letter occurs in `s`. */
  predicate NoLowerAscii(s: string) { forall i :: 0 <= i < |s| ==> !IsLowerAscii(s[i]) }

  function UpperChar(c: char): (u: char)
    ensures !IsLowerAscii(u)
    ensures IsLowerAscii(c) ==> 'A' <= u <= 'Z' && u as int - 'A' as int == c as int - 'a' as int
    ensures !IsLowerAscii(c) ==> u == c
  {
    if IsLowerAscii(c) then (c as int - 32) as char else c
  }

  /** `s.toUpperCase()` for strings whose letters are ASCII. */
  function Upper(s: string): (r: string)
    ensures |r| == |s|
    ensures forall i :: 0 <= i < |s| ==> r[i] == UpperChar(s[i])
    ensures NoLowerAscii(r)
    ensures forall i :: 0 <= i < |s| && !IsLowerAscii(s[i]) ==> r[i] == s[i]
  {
    seq(|s|, i requires 0 <= i < |s| => UpperChar(s[i]))
  }

  /** Upper-casing twice is upper-casing once. */
  lemma UpperIdempotent(s: string)
    ensures Upper(Upper(s)) == Upper(s)
  {
    assert forall i :: 0 <= i < |s| ==> Upper(Upper(s))[i] == Upper(s)[i];
  }

  // ---------------------------------------------------------------------------
  // The default order of Array.prototype.sort on strings
  // ---------------------------------------------------------------------------

  /** `a` sorts strictly before `b`: lexicographic order on characters, a
      proper prefix first. */
  predicate Less(a: string, b: string)
    ensures Less(a, b) ==> a != b
    ensures |a| < |b| && a == b[..|a|] ==> Less(a, b)
    decreases |a|
  {
    if |a| == 0 then |b| > 0
    else if |b| == 0 then false
    else if a[0] != b[0] then a[0] < b[0]
    else Less(a[1..], b[1..])
  }

  lemma {:induction false} LessIrreflexive(a: string)
    ensures !Less(a, a)
    decreases |a|
  {
    if |a| > 0 { LessIrreflexive(a[1..]); }
  }

  lemma {:induction false} LessAsymmetric(a: string, b: string)
    requires Less(a, b)
    ensures !Less(b, a)
    decreases |a|
  {
    if |a| > 0 && |b| > 0 && a[0] == b[0] { LessAsymmetric(a[1..], b[1..]); }
  }

  lemma {:induction false} LessTransitive(a: string, b: string, c: string)
    requires Less(a, b) && Less(b, c)
    ensures Less(a, c)
    decreases |a|
  {
    if |a| > 0 && a[0] == b[0] && b[0] == c[0] {
      LessTransitive(a[1..], b[1..], c[1..]);
    }
  }

  lemma {:induction false} LessTotal(a: string, b: string)
    requires a != b
    ensures Less(a, b) || Less(b, a)
    decreases |a|
  {
    if |a| > 0 && |b| > 0 && a[0] == b[0] {
      assert a == [a[0]] + a[1..] && b == [b[0]] + b[1..];
      LessTotal(a[1..], b[1..]);
    }
  }

  // ---------------------------------------------------------------------------
  // parseFloat
  // ---------------------------------------------------------------------------

  /** The characters `parseFloat` skips before a number: white space and line
      terminators of ECMAScript. */
  predicate IsJsSpace(c: char) {
    var n := c as int;
    n == 9 || n == 10 || n == 11 || n == 12 || n == 13 || n == 32 || n == 0xA0
    || n == 0x1680 || (0x2000 <= n <= 0x200A) || n == 0x2028 || n == 0x2029
    || n == 0x202F || n == 0x205F || n == 0x3000 || n == 0xFEFF
  }

  predicate IsDigit(c: char) { '0' <= c <= '9' }

  predicate AllDigits(s: string) { forall i :: 0 <= i < |s| ==> IsDigit(s[i]) }

  /** Some character of `s` is a decimal digit. */
  predicate HasDigit(s: string) { exists i :: 0 <= i < |s| && IsDigit(s[i]) }

  function TrimStart(s: string): (r: string)
    ensures |r| <= |s| && r == s[|s| - |r|..]
    ensures r == [] || !IsJsSpace(r[0])
  {
    if |s| > 0 && IsJsSpace(s[0]) then TrimStart(s[1..]) else s
  }

  /** The length of the longest prefix of `s` made of decimal digits. */
  function DigitCount(s: string): (n: nat)
    ensures n <= |s|
    ensures forall i :: 0 <= i < n ==> IsDigit(s[i])
    ensures n < |s| ==> !IsDigit(s[n])
  {
    if |s| > 0 && IsDigit(s[0]) then 1 + DigitCount(s[1..]) else 0
  }

  function DigitValue(c: char): nat requires IsDigit(c) { c as int - '0' as int }

  /** The natural number written by a string of decimal digits. */
  function DigitsValue(d: string): nat
    requires AllDigits(d)
  {
    if d == [] then 0 else DigitsValue(d[..|d| - 1]) * 10 + DigitValue(d[|d| - 1])
  }

  function Pow10(n: nat): (r: real)
    ensures r >= 1.0
  {
    if n == 0 then 1.0 else 10.0 * Pow10(n - 1)
  }

  /** The scale an optional exponent part `e[+-]digits` at the start of `s`
      applies; 1 when there is no complete exponent part (it is then not
      consumed). */
  function ExponentScale(s: string): (r: real)
    ensures r > 0.0
  {
    if |s| >= 2 && (s[0] == 'e' || s[0] == 'E') then
      var v := s[1..];
      var neg := v[0] == '-';
      var w := if v[0] == '-' || v[0] == '+' then v[1..] else v;
      var k := DigitCount(w);
      if k == 0 then 1.0
      else if neg then 1.0 / Pow10(DigitsValue(w[..k]))
      else Pow10(DigitsValue(w[..k]))
    else 1.0
  }

  /** `parseFloat(s)`: the value of the longest prefix of `s` (after leading
      white space) that is a decimal literal, or None where JavaScript gives
      NaN. */
  function ParseFloat(s: string): (r: Option<real>)
    ensures r.Some? ==> HasDigit(s)
  {
    ParseSigned(TrimStart(s))
  }

  /** An optional sign, then an unsigned decimal literal. */
  function ParseSigned(t: string): (r: Option<real>)
    ensures r.Some? ==> HasDigit(t)
  {
    if |t| > 0 && t[0] == '-' then
      match ParseUnsigned(t[1..])
      case Some(v) => Some(-v)
      case None => None
    else if |t| > 0 && t[0] == '+' then ParseUnsigned(t[1..])
    else ParseUnsigned(t)
  }

  /** Digits, an optional point with digits, an optional exponent part; at
      least one digit before or after the point. */
  function ParseUnsigned(u: string): (r: Option<real>)
    ensures r.Some? ==> HasDigit(u)
  {
    var n := DigitCount(u);
    if n < |u| && u[n] == '.' then ParseFraction(u[..n], u[n + 1..])
    else if n == 0 then None
    else Some(DigitsValue(u[..n]) as real * ExponentScale(u[n..]))
  }

  /** What follows the point: its digits, then an optional exponent part. */
  function ParseFraction(whole: string, after: string): (r: Option<real>)
    requires AllDigits(whole)
    ensures r.Some? ==> |whole| > 0 || (|after| > 0 && IsDigit(after[0]))
  {
    var m := DigitCount(after);
    if |whole| == 0 && m == 0 then None
    else Some(Mantissa(whole, after[..m]) * ExponentScale(after[m..]))
  }

  function Mantissa(whole: string, fraction: string): real
    requires AllDigits(whole) && AllDigits(fraction)
  {
    DigitsValue(whole) as real + DigitsValue(fraction) as real / Pow10(|fraction|)
  }

  /** The decimal digits of `n`, as `String(n)` writes them. */
  function NatString(n: nat): (s: string)
    ensures |s| > 0 && AllDigits(s)
  {
    if n < 10 then ['0' + n as char] else NatString(n / 10) + ['0' + (n % 10) as char]
  }

  lemma {:induction false} NatStringValue(n: nat)
    ensures DigitsValue(NatString(n)) == n
  {
    var s := NatString(n);
    if n >= 10 {
      NatStringValue(n / 10);
      assert s[..|s| - 1] == NatString(n / 10);
    }
  }

  lemma {:induction false} DigitCountAppend(d: string, rest: string)
    requires AllDigits(d)
    requires rest == [] || !IsDigit(rest[0])
    ensures DigitCount(d + rest) == |d|
  {
    if d != [] {
      assert (d + rest)[1..] == d[1..] + rest;
      DigitCountAppend(d[1..], rest);
    }
  }

  /** A run of digits followed by text that cannot continue a number reads
      as the natural number the digits write. */
  lemma ParseUnsignedDigits(d: string, rest: string)
    requires d != [] && AllDigits(d)
    requires rest == [] || !(IsDigit(rest[0]) || rest[0] == '.' || rest[0] == 'e' || rest[0] == 'E')
    ensures ParseUnsigned(d + rest) == Some(DigitsValue(d) as real)
  {
    var s := d + rest;
    DigitCountAppend(d, rest);
    assert s[..|d|] == d && s[|d|..] == rest;
    assert ExponentScale(rest) == 1.0;
  }

  /** `parseFloat` reads back the decimal rendering of a natural number, also
      when other text that cannot continue a number follows it. */
  lemma ParseFloatNatPrefix(n: nat, rest: string)
    requires rest == [] || !(IsDigit(rest[0]) || rest[0] == '.' || rest[0] == 'e' || rest[0] == 'E')
    ensures ParseFloat(NatString(n) + rest) == Some(n as real)
  {
    var d := NatString(n);
    var s := d + rest;
    assert s[0] == d[0];
    ParseFloatStartsWithDigit(s);
    ParseUnsignedDigits(d, rest);
    NatStringValue(n);
  }

  /** Text starting with a digit is read without trimming or a sign. */
  lemma ParseFloatStartsWithDigit(s: string)
    requires |s| > 0 && IsDigit(s[0])
    ensures ParseFloat(s) == ParseUnsigned(s)
  {
    assert !IsJsSpace(s[0]);
    assert TrimStart(s) == s;
  }

  /** Text that starts with no sign, digit or point is not a number. */
  lemma ParseFloatRejects(s: string)
    requires |s| > 0 && !IsJsSpace(s[0]) && !IsDigit(s[0])
    requires s[0] != '-' && s[0] != '+' && s[0] != '.'
    ensures ParseFloat(s) == None
  {
  }
}
