/**
 * The JavaScript string built-ins the slideshow relies on, written out over `seq<char>`:
 * the `\s` character class, `toLowerCase`, `trim`, `includes` and `parseInt`.
 * Only ASCII letters are case-mapped (see README, "Left out").
 */
module JsString {
  import opened Wrappers

  /** ECMAScript WhiteSpace and LineTerminator code points: what `\s` matches and `trim` removes. */
  predicate IsSpace(c: char) {
    c == '\t' || c == '\n' || c == '\U{000B}' || c == '\U{000C}' || c == '\r' || c == ' '
    || c == '\U{00A0}' || c == '\U{1680}' || ('\U{2000}' <= c <= '\U{200A}')
    || c == '\U{2028}' || c == '\U{2029}' || c == '\U{202F}' || c == '\U{205F}'
    || c == '\U{3000}' || c == '\U{FEFF}'
  }

  predicate IsUpperAscii(c: char) { 'A' <= c <= 'Z' }

  /** `\w` without the `u` flag: ASCII letters, digits and underscore. */
  predicate IsWordChar(c: char) {
    'a' <= c <= 'z' || 'A' <= c <= 'Z' || '0' <= c <= '9' || c == '_'
  }

  function LowerChar(c: char): (d: char)
    ensures !IsUpperAscii(d)
    ensures IsUpperAscii(c) ==> d as int == c as int + 32
    ensures !IsUpperAscii(c) ==> d == c
  {
    if IsUpperAscii(c) then (c as int + 32) as char else c
  }

  /** `String.prototype.toLowerCase`, with the ASCII case mapping only. */
  function ToLowerCase(s: string): (r: string)
    ensures |r| == |s|
    ensures forall i | 0 <= i < |s| :: r[i] == LowerChar(s[i])
  {
    if s == [] then [] else [LowerChar(s[0])] + ToLowerCase(s[1..])
  }

  /** Leading whitespace removed: the result is a suffix of `s` that does not start with a space. */
  function TrimStart(s: string): (r: string)
    ensures |r| <= |s| && r == s[|s| - |r|..]
    ensures forall i | 0 <= i < |s| - |r| :: IsSpace(s[i])
    ensures r != [] ==> !IsSpace(r[0])
  {
    if s != [] && IsSpace(s[0]) then TrimStart(s[1..]) else s
  }

  /** Trailing whitespace removed: the result is a prefix of `s` that does not end with a space. */
  function TrimEnd(s: string): (r: string)
    ensures |r| <= |s| && r == s[..|r|]
    ensures forall i | |r| <= i < |s| :: IsSpace(s[i])
    ensures r != [] ==> !IsSpace(r[|r| - 1])
  {
    if s != [] && IsSpace(s[|s| - 1]) then TrimEnd(s[..|s| - 1]) else s
  }

  /** `String.prototype.trim`. */
  function Trim(s: string): (r: string)
    ensures r != [] ==> !IsSpace(r[0]) && !IsSpace(r[|r| - 1])
  {
    var t := TrimStart(s);
    var r := TrimEnd(t);
    assert r != [] ==> r[0] == t[0];
    r
  }

  /** `s.includes(sub)`: `sub` occurs in `s` at some position. */
  predicate Contains(s: string, sub: string) {
    sub <= s || (s != [] && Contains(s[1..], sub))
  }

  lemma ContainsEmpty(s: string)
    ensures Contains(s, [])
  {
  }

  lemma ContainsSelf(s: string)
    ensures Contains(s, s)
  {
  }

  /** `sub` occurs in `s` starting at position `i`. */
  predicate OccursAt(s: string, sub: string, i: int) {
    0 <= i <= |s| - |sub| && s[i..i + |sub|] == sub
  }

  /** An occurrence at position 0 is a prefix. */
  lemma OccursAtStart(s: string, sub: string)
    ensures OccursAt(s, sub, 0) <==> sub <= s
  {
  }

  /** An occurrence past position 0 is an occurrence in the tail, one position earlier. */
  lemma OccursInTail(s: string, sub: string, i: int)
    requires s != [] && i > 0
    ensures OccursAt(s, sub, i) <==> OccursAt(s[1..], sub, i - 1)
  {
    if 0 <= i <= |s| - |sub| {
      assert s[1..][i - 1..i - 1 + |sub|] == s[i..i + |sub|];
    }
  }

  /** `Contains` means: `sub` occurs in `s` at some position. */
  lemma {:induction false} ContainsIffOccurs(s: string, sub: string)
    ensures Contains(s, sub) <==> exists i :: OccursAt(s, sub, i)
  {
    OccursAtStart(s, sub);
    if sub <= s {
    } else if s == [] {
      assert forall i :: !OccursAt(s, sub, i);
    } else {
      ContainsIffOccurs(s[1..], sub);
      if exists i :: OccursAt(s, sub, i) {
        var i :| OccursAt(s, sub, i);
        OccursInTail(s, sub, i);
      }
      if Contains(s[1..], sub) {
        var i :| OccursAt(s[1..], sub, i);
        OccursInTail(s, sub, i + 1);
      }
    }
  }

  // ---------------------------------------------------------------------------
  // parseInt
  // ---------------------------------------------------------------------------

  /** The `radix` argument of `parseInt`: left out, or 10. */
  datatype Radix = Unspecified | Decimal

  /** Value of an alphanumeric ASCII digit (`0`-`9`, then `a`/`A` = 10 ...); 36 for anything else. */
  function DigitValue(c: char): (v: nat)
    ensures v <= 36
  {
    if '0' <= c <= '9' then c as int - '0' as int
    else if 'a' <= c <= 'z' then c as int - 'a' as int + 10
    else if 'A' <= c <= 'Z' then c as int - 'A' as int + 10
    else 36
  }

  predicate IsDigit(c: char, base: nat) { DigitValue(c) < base }

  /** The longest prefix of `s` made of digits of `base`. */
  function DigitPrefix(s: string, base: nat): (r: string)
    ensures r <= s
    ensures forall i | 0 <= i < |r| :: IsDigit(r[i], base)
    ensures |r| < |s| ==> !IsDigit(s[|r|], base)
  {
    if s != [] && IsDigit(s[0], base) then [s[0]] + DigitPrefix(s[1..], base) else []
  }

  /** The number a digit string denotes in `base`, most significant digit first. */
  function DigitsValue(d: string, base: nat): (v: nat)
    requires forall i | 0 <= i < |d| :: IsDigit(d[i], base)
  {
    if d == [] then 0 else Shift(DigitsValue(d[..|d| - 1], base), base) + DigitValue(d[|d| - 1])
  }

  /** `v` moved up one digit place. */
  function Shift(v: nat, base: nat): nat { v * base }

  /** The digits after the sign: with no radix a `0x`/`0X` prefix selects base 16, else base 10. */
  function ParseMagnitude(u: string, radix: Radix): Option<nat> {
    var hex := radix == Unspecified && |u| >= 2 && u[0] == '0' && (u[1] == 'x' || u[1] == 'X');
    var base := if hex then 16 else 10;
    var z := DigitPrefix(if hex then u[2..] else u, base);
    if z == [] then None else Some(DigitsValue(z, base))
  }

  /** An optional sign, then the magnitude. */
  function ParseSigned(t: string, radix: Radix): Option<int> {
    if t != [] && t[0] == '-' then
      match ParseMagnitude(t[1..], radix)
      case Some(m) => Some(-(m as int))
      case None => None
    else if t != [] && t[0] == '+' then
      match ParseMagnitude(t[1..], radix)
      case Some(m) => Some(m)
      case None => None
    else
      match ParseMagnitude(t, radix)
      case Some(m) => Some(m)
      case None => None
  }

  /**
   * `parseInt(s)` (radix `Unspecified`) or `parseInt(s, 10)`: skip leading whitespace, take
   * an optional sign, with no radix a `0x`/`0X` prefix switches to base 16, then read the
   * longest run of digits; `None` (NaN) when that run is empty. `-0` is modelled as 0.
   */
  function ParseInt(s: string, radix: Radix): Option<int> {
    ParseSigned(TrimStart(s), radix)
  }

  function DigitChar(d: nat): (c: char)
    requires d < 10
    ensures IsDigit(c, 10) && DigitValue(c) == d
  {
    ('0' as int + d) as char
  }

  /** The canonical decimal spelling of a natural number, most significant digit first. */
  function NatString(n: nat): (s: string)
    ensures s != []
    ensures forall i | 0 <= i < |s| :: IsDigit(s[i], 10)
    ensures s[0] == '0' ==> n == 0 && |s| == 1
  {
    if n < 10 then [DigitChar(n)] else NatString(n / 10) + [DigitChar(n % 10)]
  }

  lemma {:induction false} NatStringValue(n: nat)
    ensures DigitsValue(NatString(n), 10) == n
  {
    if n >= 10 {
      var s := NatString(n);
      assert s[..|s| - 1] == NatString(n / 10);
      NatStringValue(n / 10);
    }
  }

  lemma DigitPrefixOfDigits(s: string, base: nat)
    requires forall i | 0 <= i < |s| :: IsDigit(s[i], base)
    ensures DigitPrefix(s, base) == s
  {
    var r := DigitPrefix(s, base);
    assert |r| == |s|;
  }

  lemma TrimStartNoSpace(s: string)
    requires s != [] && !IsSpace(s[0])
    ensures TrimStart(s) == s
  {
  }

  /** The unsigned part of a decimal spelling is read back in full: it never starts with `0x`. */
  lemma ParseMagnitudeOfNatString(n: nat, radix: Radix)
    ensures ParseMagnitude(NatString(n), radix) == Some(n)
  {
    var u := NatString(n);
    assert !(|u| >= 2 && u[0] == '0');
    DigitPrefixOfDigits(u, 10);
    NatStringValue(n);
  }

  /** A spelled-out natural number carries no sign and is read back. */
  lemma ParseSignedOfNatString(n: nat, radix: Radix)
    ensures ParseSigned(NatString(n), radix) == Some(n)
  {
    var u := NatString(n);
    assert IsDigit(u[0], 10);
    ParseMagnitudeOfNatString(n, radix);
  }

  /** A minus sign and a spelled-out natural number are read back as its negation. */
  lemma ParseSignedOfNegative(n: nat, radix: Radix)
    ensures ParseSigned("-" + NatString(n), radix) == Some(-(n as int))
  {
    var u := NatString(n);
    assert ("-" + u)[1..] == u;
    ParseMagnitudeOfNatString(n, radix);
  }

  /** With no leading whitespace, `parseInt` goes straight to the sign. */
  lemma ParseIntNoLeadingSpace(s: string, radix: Radix)
    requires s != [] && !IsSpace(s[0])
    ensures ParseInt(s, radix) == ParseSigned(s, radix)
  {
    TrimStartNoSpace(s);
  }

  /** `parseInt` reads back what `String` writes for a natural number. */
  lemma ParseIntOfNatString(n: nat, radix: Radix)
    ensures ParseInt(NatString(n), radix) == Some(n)
  {
    var s := NatString(n);
    assert IsDigit(s[0], 10);
    ParseIntNoLeadingSpace(s, radix);
    ParseSignedOfNatString(n, radix);
  }

  /** `parseInt` reads back what `String` writes for a negative number: a minus sign, then the digits. */
  lemma ParseIntOfMinus(n: nat, radix: Radix)
    ensures ParseInt("-" + NatString(n), radix) == Some(-(n as int))
  {
    var s := "-" + NatString(n);
    assert s[0] == '-';
    ParseIntNoLeadingSpace(s, radix);
    ParseSignedOfNegative(n, radix);
  }
}
