/** JavaScript text conversions used by the order form: the global `parseInt`
    with no radix (section 19.2.5 of ECMA-262), the `parseInt(v) || 0` coercion
    the quantity inputs apply, and `Number.prototype.toString` on integers. */
module JsText {

  datatype Option<T> = None | Some(value: T)

  /** StrWhiteSpaceChar of ECMA-262: WhiteSpace and LineTerminator code points. */
  predicate IsJsWhiteSpace(c: char) {
    || c == '\t' || c == '\n' || c == '\U{B}' || c == '\U{C}' || c == '\r'
    || c == ' ' || c == '\U{A0}' || c == '\U{1680}'
    || ('\U{2000}' <= c <= '\U{200A}')
    || c == '\U{2028}' || c == '\U{2029}' || c == '\U{202F}' || c == '\U{205F}'
    || c == '\U{3000}' || c == '\U{FEFF}'
  }

  predicate IsDecimalDigit(c: char) {
    '0' <= c <= '9'
  }

  /** A digit of radix 10, or of radix 16 in either letter case. */
  predicate IsRadixDigit(c: char, hex: bool) {
    IsDecimalDigit(c) || (hex && (('a' <= c <= 'f') || ('A' <= c <= 'F')))
  }

  function DigitValue(c: char): (d: nat)
    requires IsRadixDigit(c, true)
    ensures d < 16
    ensures IsDecimalDigit(c) <==> d < 10
  {
    if IsDecimalDigit(c) then (c as int) - ('0' as int)
    else if 'a' <= c <= 'f' then (c as int) - ('a' as int) + 10
    else (c as int) - ('A' as int) + 10
  }

  function Radix(hex: bool): nat {
    if hex then 16 else 10
  }

  predicate AllDigits(z: string, hex: bool) {
    forall i :: 0 <= i < |z| ==> IsRadixDigit(z[i], hex)
  }

  /** The mathematical value of a run of digits, most significant first. */
  function RunValue(z: string, hex: bool): nat
    requires AllDigits(z, hex)
  {
    if z == [] then 0
    else RunValue(z[..|z| - 1], hex) * Radix(hex) + DigitValue(z[|z| - 1])
  }

  /** The leading white space that `parseInt` skips, removed. */
  function TrimStart(s: string): (r: string)
    ensures |r| <= |s| && r == s[|s| - |r|..]
    ensures forall i :: 0 <= i < |s| - |r| ==> IsJsWhiteSpace(s[i])
    ensures r == [] || !IsJsWhiteSpace(r[0])
  {
    if s != [] && IsJsWhiteSpace(s[0]) then TrimStart(s[1..]) else s
  }

  /** The longest prefix of `s` made of digits of the radix. */
  function DigitRun(s: string, hex: bool): (z: string)
    ensures |z| <= |s| && z == s[..|z|]
    ensures AllDigits(z, hex)
    ensures |z| < |s| ==> !IsRadixDigit(s[|z|], hex)
  {
    if s != [] && IsRadixDigit(s[0], hex) then [s[0]] + DigitRun(s[1..], hex) else []
  }

  /** The digits after the optional sign: a "0x" or "0X" prefix switches to
      radix 16; None when no digit follows. */
  function ParseUnsigned(u: string): (r: Option<nat>)
    ensures r.Some? ==> u != [] && IsDecimalDigit(u[0])
  {
    var hex := |u| >= 2 && u[0] == '0' && (u[1] == 'x' || u[1] == 'X');
    var z := DigitRun(if hex then u[2..] else u, hex);
    if z == [] then None else Some(RunValue(z, hex))
  }

  /** `parseInt(s)` with the radix left out; None stands for NaN. */
  function ParseInt(s: string): (r: Option<int>)
    ensures r.Some? ==> var t := TrimStart(s);
      && t != []
      && (IsDecimalDigit(t[0]) || ((t[0] == '-' || t[0] == '+') && |t| > 1 && IsDecimalDigit(t[1])))
    ensures r.Some? && r.value < 0 ==> TrimStart(s) != [] && TrimStart(s)[0] == '-'
  {
    var t := TrimStart(s);
    if t != [] && t[0] == '-' then
      match ParseUnsigned(t[1..])
      case Some(m) => Some(-(m as int))
      case None => None
    else if t != [] && t[0] == '+' then
      match ParseUnsigned(t[1..])
      case Some(m) => Some(m as int)
      case None => None
    else
      match ParseUnsigned(t)
      case Some(m) => Some(m as int)
      case None => None
  }

  /** `parseInt(v) || 0`: NaN (and the zeros, which are falsy) become 0. */
  function ParseQuantity(v: string): (q: int)
    ensures ParseInt(v).Some? ==> q == ParseInt(v).value
    ensures ParseInt(v).None? ==> q == 0
    ensures q != 0 ==> ParseInt(v) == Some(q)
    ensures q < 0 ==> TrimStart(v) != [] && TrimStart(v)[0] == '-'
  {
    match ParseInt(v)
    case Some(n) => n
    case None => 0
  }

  /** Decimal digits of a natural number, no leading zeros. */
  function NatToText(n: nat): (r: string)
    ensures r != [] && AllDigits(r, false)
    ensures |r| > 1 ==> r[0] != '0'
  {
    if n < 10 then [('0' as int + n) as char]
    else NatToText(n / 10) + [('0' as int + n % 10) as char]
  }

  /** `n.toString()` for an integral Number. */
  function IntToText(n: int): (r: string)
    ensures r != [] && (r[0] == '-' <==> n < 0)
    ensures AllDigits(if n < 0 then r[1..] else r, false)
  {
    if n < 0 then "-" + NatToText(-n) else NatToText(n)
  }

  lemma {:induction false} NatToTextValue(n: nat)
    ensures RunValue(NatToText(n), false) == n
  {
    var r := NatToText(n);
    if n >= 10 {
      NatToTextValue(n / 10);
      assert r[..|r| - 1] == NatToText(n / 10);
    }
  }

  lemma {:induction false} DigitRunOfDigits(d: string, rest: string, hex: bool)
    requires AllDigits(d, hex)
    requires rest == [] || !IsRadixDigit(rest[0], hex)
    ensures DigitRun(d + rest, hex) == d
  {
    if d != [] {
      assert (d + rest)[1..] == d[1..] + rest;
      DigitRunOfDigits(d[1..], rest, hex);
    }
  }

  /** Empty text, and text whose first character is neither white space, a
      sign nor a digit, is stored as 0. */
  lemma UnreadableIsZero(v: string)
    requires v == [] || (!IsJsWhiteSpace(v[0]) && !IsDecimalDigit(v[0]) && v[0] != '-' && v[0] != '+')
    ensures ParseQuantity(v) == 0
  {
    if v != [] {
      assert TrimStart(v) == v;
    }
  }

  lemma ParseUnsignedDecimal(d: string, rest: string)
    requires d != [] && AllDigits(d, false)
    requires rest == [] || !IsDecimalDigit(rest[0])
    requires !(d == "0" && rest != [] && (rest[0] == 'x' || rest[0] == 'X'))
    ensures ParseUnsigned(d + rest) == Some(RunValue(d, false))
  {
    DigitRunOfDigits(d, rest, false);
    var u := d + rest;
    if |u| >= 2 && u[0] == '0' {
      if |d| >= 2 { assert u[1] == d[1]; }
      else { assert d == "0"; assert u[1] == rest[0]; }
    }
  }

  lemma TrimStartNoSpace(s: string)
    requires s != [] && !IsJsWhiteSpace(s[0])
    ensures TrimStart(s) == s
  {
  }

  lemma ParseIntMinus(u: string)
    requires u != [] && !IsJsWhiteSpace(u[0]) && u[0] != '-' && u[0] != '+'
    ensures ParseInt("-" + u) == (match ParseUnsigned(u) case Some(m) => Some(-(m as int)) case None => None)
  {
    TrimStartNoSpace("-" + u);
    assert ("-" + u)[1..] == u;
  }

  lemma ParseIntPlus(u: string)
    requires u != [] && !IsJsWhiteSpace(u[0]) && u[0] != '-' && u[0] != '+'
    ensures ParseInt("+" + u) == (match ParseUnsigned(u) case Some(m) => Some(m as int) case None => None)
  {
    TrimStartNoSpace("+" + u);
    assert ("+" + u)[1..] == u;
  }

  lemma ParseIntBare(u: string)
    requires u != [] && !IsJsWhiteSpace(u[0]) && u[0] != '-' && u[0] != '+'
    ensures ParseInt(u) == (match ParseUnsigned(u) case Some(m) => Some(m as int) case None => None)
  {
    TrimStartNoSpace(u);
  }

  /** A run of decimal digits is read up to the first non-digit ("12abc",
      "1.5", "1e5" read 12, 1, 1), with its sign; a minus sign is kept, so
      negative quantities are not clamped. The one exception is a lone "0"
      followed by "x" or "X", which switches to hexadecimal. */
  lemma ParseDecimalPrefix(d: string, rest: string)
    requires d != [] && AllDigits(d, false)
    requires rest == [] || !IsDecimalDigit(rest[0])
    requires !(d == "0" && rest != [] && (rest[0] == 'x' || rest[0] == 'X'))
    ensures ParseQuantity(d + rest) == RunValue(d, false)
    ensures ParseQuantity("-" + (d + rest)) == -(RunValue(d, false) as int)
    ensures ParseQuantity("+" + (d + rest)) == RunValue(d, false)
  {
    ParseUnsignedDecimal(d, rest);
    var u := d + rest;
    assert IsDecimalDigit(u[0]);
    ParseIntBare(u);
    ParseIntMinus(u);
    ParseIntPlus(u);
  }

  /** The text of any integer reads back as that integer. */
  lemma IntTextRoundTrip(n: int)
    ensures ParseQuantity(IntToText(n)) == n
  {
    var d := NatToText(if n < 0 then -n else n);
    NatToTextValue(if n < 0 then -n else n);
    ParseDecimalPrefix(d, []);
    assert d + [] == d;
  }

  lemma ParseUnsignedHex(x: char, h: string, rest: string)
    requires x == 'x' || x == 'X'
    requires h != [] && AllDigits(h, true)
    requires rest == [] || !IsRadixDigit(rest[0], true)
    ensures ParseUnsigned(['0', x] + (h + rest)) == Some(RunValue(h, true))
  {
    DigitRunOfDigits(h, rest, true);
    assert (['0', x] + (h + rest))[2..] == h + rest;
  }

  /** The hexadecimal quirk: "0x1F" is stored as 31. */
  lemma ParseHexPrefix(h: string, rest: string)
    requires h != [] && AllDigits(h, true)
    requires rest == [] || !IsRadixDigit(rest[0], true)
    ensures ParseQuantity("0x" + (h + rest)) == RunValue(h, true)
    ensures ParseQuantity("-" + ("0X" + (h + rest))) == -(RunValue(h, true) as int)
  {
    ParseUnsignedHex('x', h, rest);
    ParseUnsignedHex('X', h, rest);
    ParseIntBare("0x" + (h + rest));
    ParseIntMinus("0X" + (h + rest));
  }
}
