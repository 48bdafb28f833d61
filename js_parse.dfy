/**
  The global `parseInt(string)` of JavaScript, called without a radix, as
  section 19.2.5 of ECMA-262 defines it: skip leading whitespace, take an
  optional sign, switch to radix 16 after a "0x" or "0X" prefix, then read the
  longest run of digits of the radix; no digit at all gives NaN (`None` here).
  Every integer the prompts can accept is far below 2^53, so the rounding of
  very long digit runs to a double is not modelled.
*/
module JsParse {
  import opened Wrappers
  import opened Text

  predicate IsHexDigit(c: char) {
    IsDigit(c) || 'a' <= c <= 'f' || 'A' <= c <= 'F'
  }

  predicate IsRadixDigit(c: char, hex: bool) {
    if hex then IsHexDigit(c) else IsDigit(c)
  }

  function HexDigitValue(c: char): (d: nat)
    requires IsHexDigit(c)
    ensures d < 16
  {
    if IsDigit(c) then DigitValue(c)
    else if 'a' <= c <= 'f' then c as int - 'a' as int + 10
    else c as int - 'A' as int + 10
  }

  /** The integer a string of hexadecimal digits denotes. */
  function HexValue(s: string): nat
    requires forall i :: 0 <= i < |s| ==> IsHexDigit(s[i])
  {
    if s == [] then 0 else HexValue(s[..|s| - 1]) * 16 + HexDigitValue(s[|s| - 1])
  }

  /** The longest prefix of `s` made of digits of the radix. */
  function DigitRun(s: string, hex: bool): (r: string)
    ensures |r| <= |s| && r == s[..|r|]
    ensures forall i :: 0 <= i < |r| ==> IsRadixDigit(r[i], hex)
    ensures |r| == |s| || !IsRadixDigit(s[|r|], hex)
  {
    if s != [] && IsRadixDigit(s[0], hex) then [s[0]] + DigitRun(s[1..], hex) else []
  }

  /** `parseInt(s)`; `None` is NaN. "2x" gives 2, "0x1f" gives 31, " -3" gives
      -3, "abc", "", "-" and "0x" give NaN. */
  function ParseInt(s: string): Option<int> {
    ParseSigned(TrimStart(s))
  }

  /** Steps 4 and 5: an optional sign. */
  function ParseSigned(t: string): Option<int> {
    if t != [] && t[0] == '-' then
      match ParseUnsigned(t[1..])
      case None => None
      case Some(m) => Some(-(m as int))
    else if t != [] && t[0] == '+' then ParseUnsigned(t[1..])
    else ParseUnsigned(t)
  }

  predicate HasHexPrefix(u: string) {
    |u| >= 2 && u[0] == '0' && (u[1] == 'x' || u[1] == 'X')
  }

  /** Steps 10 to 14: the radix prefix and the digit run. */
  function ParseUnsigned(u: string): Option<nat> {
    if HasHexPrefix(u) then ParseDigits(u[2..], true) else ParseDigits(u, false)
  }

  function ParseDigits(v: string, hex: bool): Option<nat> {
    var digits := DigitRun(v, hex);
    if digits == [] then None
    else Some(if hex then HexValue(digits) else DecimalValue(digits))
  }

  /** A character that ends a decimal number and cannot turn a leading "0"
      into a hexadecimal prefix. */
  predicate EndsNumber(rest: string) {
    rest == [] || (!IsDigit(rest[0]) && rest[0] != 'x' && rest[0] != 'X')
  }

  /** `parseInt` reads the decimal rendering of a natural number back, and
      stops at the first character after it. */
  lemma ParseNatPrefix(n: nat, rest: string)
    requires EndsNumber(rest)
    ensures ParseInt(NatToString(n) + rest) == Some(n)
  {
    var d := NatToString(n);
    var s := d + rest;
    assert s[0] == d[0];
    assert TrimStart(s) == s;
    ParseUnsignedNat(n, rest);
  }

  lemma ParseUnsignedNat(n: nat, rest: string)
    requires EndsNumber(rest)
    ensures ParseUnsigned(NatToString(n) + rest) == Some(n)
  {
    var d := NatToString(n);
    var s := d + rest;
    if |s| >= 2 && s[0] == '0' {
      assert n == 0 && |d| == 1;
      assert s[1] == rest[0];
    }
    assert !HasHexPrefix(s);
    DigitRunOfDigits(d, rest);
    NatToStringValue(n);
  }

  lemma {:induction false} DigitRunOfDigits(d: string, rest: string)
    requires AllDigits(d)
    requires rest == [] || !IsDigit(rest[0])
    ensures DigitRun(d + rest, false) == d
  {
    if d != [] {
      assert (d + rest)[1..] == d[1..] + rest;
      DigitRunOfDigits(d[1..], rest);
      assert [d[0]] + d[1..] == d;
    } else {
      assert d + rest == rest;
    }
  }

  /** `parseInt(String(i)) === i` for every integer of the model; a Number
      of magnitude 10^21 or more renders in exponent form and is not modelled. */
  lemma ParseIntToString(i: int)
    ensures ParseInt(IntToString(i)) == Some(i)
  {
    if i >= 0 {
      assert NatToString(i) + [] == NatToString(i);
      ParseNatPrefix(i, []);
    } else {
      var d := NatToString(-i);
      var s := "-" + d;
      assert TrimStart(s) == s;
      assert s[1..] == d;
      assert d + [] == d;
      ParseUnsignedNat(-i, []);
    }
  }

  /** `parseInt` reads the rendering of an integer back, and stops at the
      first character after it, provided that character cannot extend the
      number (see `EndsNumber`). */
  lemma ParseIntPrefix(i: int, rest: string)
    requires EndsNumber(rest)
    ensures ParseInt(IntToString(i) + rest) == Some(i)
  {
    if i >= 0 {
      ParseNatPrefix(i, rest);
    } else {
      var d := NatToString(-i);
      var s := "-" + d + rest;
      assert TrimStart(s) == s;
      assert s[1..] == d + rest;
      ParseUnsignedNat(-i, rest);
    }
  }

  /** Leading whitespace does not change what `parseInt` reads. */
  lemma ParseIntSkipsWhitespace(w: string, s: string)
    requires forall i :: 0 <= i < |w| ==> IsWhitespace(w[i])
    ensures ParseInt(w + s) == ParseInt(s)
  {
    TrimStartSkips(w, s);
  }

  lemma {:induction false} TrimStartSkips(w: string, s: string)
    requires forall i :: 0 <= i < |w| ==> IsWhitespace(w[i])
    ensures TrimStart(w + s) == TrimStart(s)
  {
    if w != [] {
      assert (w + s)[1..] == w[1..] + s;
      TrimStartSkips(w[1..], s);
    } else {
      assert w + s == s;
    }
  }

  /** Trimming a token before `parseInt`, as `multiChoice` does, changes
      nothing: the leading whitespace is skipped anyway and the number ends
      before any trailing whitespace. */
  lemma ParseIntOfTrim(s: string)
    ensures ParseInt(Trim(s)) == ParseInt(s)
  {
    var t := TrimStart(s);
    TrimStartIsTight(s);
    var e := TrimEnd(t);
    assert TrimStart(e) == e by {
      if e != [] { assert e[0] == t[0]; }
    }
    assert TrimStart(t) == t;
    ParseSignedUpToWhitespace(e, t);
  }

  /** Cutting a whitespace tail off a string that does not start with
      whitespace does not change the signed number read. */
  lemma ParseSignedUpToWhitespace(e: string, t: string)
    requires |e| <= |t| && e == t[..|e|]
    requires forall i :: |e| <= i < |t| ==> IsWhitespace(t[i])
    requires t == [] || !IsWhitespace(t[0])
    ensures ParseSigned(e) == ParseSigned(t)
  {
    if e != [] {
      assert e[0] == t[0];
      if e[0] == '-' || e[0] == '+' {
        ParseUnsignedUpToWhitespace(e[1..], t[1..]);
      } else {
        ParseUnsignedUpToWhitespace(e, t);
      }
    }
  }

  /** Cutting a whitespace tail off the input does not change the number read. */
  lemma ParseUnsignedUpToWhitespace(e: string, t: string)
    requires |e| <= |t| && e == t[..|e|]
    requires forall i :: |e| <= i < |t| ==> IsWhitespace(t[i])
    ensures ParseUnsigned(e) == ParseUnsigned(t)
  {
    if HasHexPrefix(e) {
      DigitRunUpToWhitespace(e[2..], t[2..], true);
    } else if HasHexPrefix(t) {
      // the cut would fall inside "0x", whose "x" is not whitespace
      assert false;
    } else {
      DigitRunUpToWhitespace(e, t, false);
    }
  }

  /** A digit run stops at the first whitespace, so cutting a whitespace tail
      off the input does not change it. */
  lemma {:induction false} DigitRunUpToWhitespace(e: string, t: string, hex: bool)
    requires |e| <= |t| && e == t[..|e|]
    requires forall i :: |e| <= i < |t| ==> IsWhitespace(t[i])
    ensures DigitRun(e, hex) == DigitRun(t, hex)
  {
    if e != [] {
      DigitRunUpToWhitespace(e[1..], t[1..], hex);
    } else if t != [] {
      assert IsWhitespace(t[0]);
    }
  }
}
