/** The two JavaScript string built-ins the cart depends on:
    `String.prototype.trim` (checkout form fields) and the one-argument
    `parseInt` (the quantity typed into a cart line). Both follow
    ECMA-262: section 22.1.3.32 for trim, section 19.2.5 for parseInt. */
module JsText {
  import opened Wrappers

  /** A WhiteSpace or LineTerminator code point (sections 12.2 and 12.3 of
      ECMA-262); these are what trim and parseInt skip. */
  predicate IsWhitespace(c: char) {
    || c == '\t' || c == '\U{000B}' || c == '\U{000C}' || c == ' ' || c == '\U{00A0}'
    || c == '\U{1680}' || ('\U{2000}' <= c <= '\U{200A}') || c == '\U{202F}' || c == '\U{205F}'
    || c == '\U{3000}' || c == '\U{FEFF}'
    || c == '\n' || c == '\r' || c == '\U{2028}' || c == '\U{2029}'
  }

  /** `s` with its leading whitespace removed. */
  function TrimStart(s: string): (r: string)
    ensures |r| <= |s| && r == s[|s| - |r|..]
    ensures r == [] || !IsWhitespace(r[0])
    ensures forall i :: 0 <= i < |s| - |r| ==> IsWhitespace(s[i])
  {
    if s != [] && IsWhitespace(s[0]) then TrimStart(s[1..]) else s
  }

  /** `s` with its trailing whitespace removed. */
  function TrimEnd(s: string): (r: string)
    ensures |r| <= |s| && r == s[..|r|]
    ensures r == [] || !IsWhitespace(r[|r| - 1])
    ensures forall i :: |r| <= i < |s| ==> IsWhitespace(s[i])
  {
    if s != [] && IsWhitespace(s[|s| - 1]) then TrimEnd(s[..|s| - 1]) else s
  }

  /** `String.prototype.trim`: the result is empty exactly when `s` is all
      whitespace, and otherwise neither starts nor ends with whitespace. */
  function Trim(s: string): (r: string)
    ensures r == [] <==> forall i :: 0 <= i < |s| ==> IsWhitespace(s[i])
    ensures r != [] ==> !IsWhitespace(r[0]) && !IsWhitespace(r[|r| - 1])
  {
    var t := TrimStart(s);
    assert t == [] ==> forall i :: 0 <= i < |s| ==> IsWhitespace(s[i]);
    TrimEnd(t)
  }

  /** The value of `c` as a digit in bases up to 36: 0-9, then a-z / A-Z. */
  function DigitValue(c: char): (d: Option<nat>)
    ensures d.Some? ==> d.value < 36
    ensures d.Some? && d.value < 10 <==> '0' <= c <= '9'
  {
    if '0' <= c <= '9' then Some(c as int - '0' as int)
    else if 'a' <= c <= 'z' then Some(c as int - 'a' as int + 10)
    else if 'A' <= c <= 'Z' then Some(c as int - 'A' as int + 10)
    else None
  }

  predicate IsDigit(c: char, radix: nat) {
    DigitValue(c).Some? && DigitValue(c).value < radix
  }

  /** The longest prefix of `s` made of digits of the given radix. */
  function DigitPrefix(s: string, radix: nat): (r: string)
    ensures r <= s
    ensures forall i :: 0 <= i < |r| ==> IsDigit(r[i], radix)
    ensures |r| == |s| || !IsDigit(s[|r|], radix)
  {
    if s != [] && IsDigit(s[0], radix) then [s[0]] + DigitPrefix(s[1..], radix) else []
  }

  /** The number a digit string denotes, most significant digit first. */
  function DigitsValue(ds: string, radix: nat): nat {
    if ds == [] then 0
    else
      var d := DigitValue(ds[|ds| - 1]);
      DigitsValue(ds[..|ds| - 1], radix) * radix + (if d.Some? then d.value else 0)
  }

  /** The unsigned part of parseInt: base 16 after a `0x`/`0X` prefix,
      base 10 otherwise, then the longest digit prefix; no digit is NaN. */
  function ParseMagnitude(u: string): Option<nat> {
    var hex := |u| >= 2 && u[0] == '0' && (u[1] == 'x' || u[1] == 'X');
    var radix := if hex then 16 else 10;
    var ds := DigitPrefix(if hex then u[2..] else u, radix);
    if ds == [] then None else Some(DigitsValue(ds, radix))
  }

  /** `t` without its one leading sign character, if it has one. */
  function StripSign(t: string): string {
    if t != [] && (t[0] == '-' || t[0] == '+') then t[1..] else t
  }

  /** `parseInt(s)` with no radix: skip leading whitespace, take one optional
      sign, then read the magnitude; NaN is `None`. */
  function ParseInt(s: string): Option<int> {
    var t := TrimStart(s);
    var m := ParseMagnitude(StripSign(t));
    if m.None? then None
    else if t[0] == '-' then Some(-(m.value as int))
    else Some(m.value as int)
  }

  /** The decimal digits of `n`, as a template literal writes a number. */
  function NaturalDigits(n: nat): (r: string)
    ensures r != []
    ensures forall i :: 0 <= i < |r| ==> '0' <= r[i] <= '9'
  {
    var d := ['0' + (n % 10) as char];
    if n < 10 then d else NaturalDigits(n / 10) + d
  }

  /** The decimal text of an integer, with a leading `-` when negative. */
  function Decimal(n: int): string {
    if n < 0 then "-" + NaturalDigits(-n) else NaturalDigits(n)
  }

  lemma {:induction false} NaturalDigitsValue(n: nat)
    ensures DigitsValue(NaturalDigits(n), 10) == n
  {
    var r := NaturalDigits(n);
    if n >= 10 {
      NaturalDigitsValue(n / 10);
      assert r[..|r| - 1] == NaturalDigits(n / 10);
    }
  }

  lemma {:induction false} DigitPrefixWhole(s: string, radix: nat)
    requires forall i :: 0 <= i < |s| ==> IsDigit(s[i], radix)
    ensures DigitPrefix(s, radix) == s
  {
    if s != [] {
      assert IsDigit(s[0], radix);
      DigitPrefixWhole(s[1..], radix);
    }
  }

  /** The magnitude of a plain decimal digit string is its value. */
  lemma ParseMagnitudeDigits(ds: string)
    requires ds != [] && forall i :: 0 <= i < |ds| ==> '0' <= ds[i] <= '9'
    ensures ParseMagnitude(ds) == Some(DigitsValue(ds, 10))
  {
    forall i | 0 <= i < |ds| ensures IsDigit(ds[i], 10) {
      assert '0' <= ds[i] <= '9';
    }
    assert !(|ds| >= 2 && (ds[1] == 'x' || ds[1] == 'X'));
    DigitPrefixWhole(ds, 10);
  }

  /** Reading back the decimal text of any integer gives that integer: the
      quantity a cart line renders into its input field parses back to
      itself. */
  lemma {:induction false} ParseIntDecimal(n: int)
    ensures ParseInt(Decimal(n)) == Some(n)
  {
    var m: nat := if n < 0 then -n else n;
    var digits := NaturalDigits(m);
    NaturalDigitsValue(m);
    ParseMagnitudeDigits(digits);
    if n < 0 {
      ParseIntNegative(digits, m);
    } else {
      ParseIntNonNegative(digits, m);
    }
  }

  lemma ParseIntNonNegative(ds: string, v: nat)
    requires ds != [] && '0' <= ds[0] <= '9'
    requires ParseMagnitude(ds) == Some(v)
    ensures ParseInt(ds) == Some(v as int)
  {
    assert !IsWhitespace(ds[0]);
    assert TrimStart(ds) == ds;
    assert StripSign(ds) == ds;
  }

  lemma ParseIntNegative(ds: string, v: nat)
    requires ds != [] && '0' <= ds[0] <= '9'
    requires ParseMagnitude(ds) == Some(v)
    ensures ParseInt("-" + ds) == Some(-(v as int))
  {
    var s := "-" + ds;
    assert s[0] == '-' && s[1..] == ds;
    assert !IsWhitespace(s[0]);
    assert TrimStart(s) == s;
  }

  /** A string with no decimal digit in it parses to NaN. */
  lemma ParseIntWithoutDigits(s: string)
    requires forall i :: 0 <= i < |s| ==> !('0' <= s[i] <= '9')
    ensures ParseInt(s) == None
  {
  }
}
