/**
 * The ECMAScript built-ins that the lottery front end relies on:
 *  - integral Number values;
 *  - the decimal string of a non-negative integer, as a template literal or
 *    JSX renders it;
 *  - the global `parseInt` called without a radix (section 19.2.5 of ECMA-262).
 */
module Ecma {

  import opened Wrappers

  /** A Number as this code sees it: NaN, or an integral value (-0 and +0 both read as 0). */
  datatype JsNumber = NaN | Int(i: int)

  /** Unary minus on a Number. */
  function Negate(n: JsNumber): JsNumber {
    match n
    case NaN => NaN
    case Int(i) => Int(-i)
  }

  /** The WhiteSpace and LineTerminator code points of ECMA-262 (sections 12.2 and 12.3):
      what TrimString removes from the start of parseInt's argument. */
  predicate IsWhiteSpace(c: char) {
    var x := c as int;
    // TAB, VT, FF, SP, NBSP, ZWNBSP
    x == 0x09 || x == 0x0B || x == 0x0C || x == 0x20 || x == 0xA0 || x == 0xFEFF
    // the remaining Space_Separator (Zs) code points
    || x == 0x1680 || (0x2000 <= x <= 0x200A) || x == 0x202F || x == 0x205F || x == 0x3000
    // LF, CR, LS, PS
    || x == 0x0A || x == 0x0D || x == 0x2028 || x == 0x2029
  }

  /** The string with its leading white space removed (TrimString with `start`). */
  function TrimStart(s: string): string {
    if s != [] && IsWhiteSpace(s[0]) then TrimStart(s[1..]) else s
  }

  /** TrimStart removes a run of white space from the front and stops at the first other character. */
  lemma {:induction false} TrimStartIsWhiteSpaceCut(s: string)
    ensures var r := TrimStart(s);
      |r| <= |s| && r == s[|s| - |r|..]
      && (forall k :: 0 <= k < |s| - |r| ==> IsWhiteSpace(s[k]))
      && (r == [] || !IsWhiteSpace(r[0]))
  {
    if s != [] && IsWhiteSpace(s[0]) {
      TrimStartIsWhiteSpaceCut(s[1..]);
      var r := TrimStart(s);
      assert forall k :: 1 <= k < |s| - |r| ==> s[k] == s[1..][k - 1];
    }
  }

  /** The value of `c` as a digit in any radix up to 36 ('0'-'9', 'a'-'z', 'A'-'Z'); 36 for any other character. */
  function DigitOf(c: char): nat {
    if '0' <= c <= '9' then c as int - '0' as int
    else if 'a' <= c <= 'z' then c as int - 'a' as int + 10
    else if 'A' <= c <= 'Z' then c as int - 'A' as int + 10
    else 36
  }

  predicate IsDigit(c: char, radix: nat) {
    DigitOf(c) < radix
  }

  /** The digits at the front of `s`, up to the first character that is not a radix-`radix` digit (step 11 of parseInt). */
  function DigitPrefix(s: string, radix: nat): string {
    if s != [] && IsDigit(s[0], radix) then [s[0]] + DigitPrefix(s[1..], radix) else []
  }

  /** DigitPrefix is the longest prefix of `s` made of digits only. */
  lemma {:induction false} DigitPrefixIsLongest(s: string, radix: nat)
    ensures var z := DigitPrefix(s, radix);
      z <= s
      && (forall k :: 0 <= k < |z| ==> IsDigit(z[k], radix))
      && (|z| < |s| ==> !IsDigit(s[|z|], radix))
  {
    if s != [] && IsDigit(s[0], radix) {
      DigitPrefixIsLongest(s[1..], radix);
      var z := DigitPrefix(s, radix);
      assert forall k :: 1 <= k < |z| ==> z[k] == DigitPrefix(s[1..], radix)[k - 1];
    }
  }

  /** The value of a digit string read most significant digit first. */
  function DigitsValue(z: string, radix: nat): nat {
    if z == [] then 0 else DigitsValue(z[..|z| - 1], radix) * radix + DigitOf(z[|z| - 1])
  }

  function DecimalDigit(d: nat): (c: char)
    requires d < 10
    ensures IsDigit(c, 10) && DigitOf(c) == d
  {
    ('0' as int + d) as char
  }

  /** Number::toString of a non-negative integer below 10^21: its decimal digits without leading zeros.
      Reading the digits back gives the number again. */
  function DecimalString(n: nat): (s: string)
    ensures |s| > 0
    ensures forall k :: 0 <= k < |s| ==> IsDigit(s[k], 10)
    ensures DigitsValue(s, 10) == n
    ensures s[0] == '0' ==> s == "0"
  {
    if n < 10 then
      [DecimalDigit(n)]
    else
      var s := DecimalString(n / 10) + [DecimalDigit(n % 10)];
      assert s[..|s| - 1] == DecimalString(n / 10);
      s
  }

  /** Distinct numbers have distinct decimal strings. */
  lemma DecimalStringInjective(a: nat, b: nat)
    ensures DecimalString(a) == DecimalString(b) ==> a == b
  {
  }

  /** parseInt steps 2 to 5: the argument after TrimString and after one sign character, if any. */
  function Unsigned(s: string): string {
    var t := TrimStart(s);
    if t != [] && (t[0] == '+' || t[0] == '-') then t[1..] else t
  }

  /** parseInt step 4: -1 when the trimmed argument starts with '-'. */
  function Sign(s: string): int {
    var t := TrimStart(s);
    if t != [] && t[0] == '-' then -1 else 1
  }

  /** parseInt step 10: with no radix given, a "0x" or "0X" prefix selects radix 16. */
  predicate HasHexPrefix(u: string) {
    |u| >= 2 && u[0] == '0' && (u[1] == 'x' || u[1] == 'X')
  }

  function Radix(u: string): nat {
    if HasHexPrefix(u) then 16 else 10
  }

  /** parseInt steps 10 to 12: the digits that make up the number. */
  function Digits(u: string): string {
    DigitPrefix(if HasHexPrefix(u) then u[2..] else u, Radix(u))
  }

  /** parseInt steps 11 to 15 on the unsigned part: the value of its digits, or None when there are none. */
  function ReadDigits(u: string): Option<nat> {
    var z := Digits(u);
    if z == [] then None else Some(DigitsValue(z, Radix(u)))
  }

  /** The global parseInt(string) with no radix (section 19.2.5 of ECMA-262), on integral results. */
  function ParseInt(s: string): JsNumber {
    match ReadDigits(Unsigned(s))
    case None => NaN
    case Some(v) => Int(Sign(s) * v)
  }

  /** A decimal digit is neither white space, nor a sign, nor the 'x' of a hex prefix. */
  lemma DigitIsPlain(c: char)
    requires IsDigit(c, 10)
    ensures !IsWhiteSpace(c) && c != '+' && c != '-' && c != 'x' && c != 'X'
  {
  }

  lemma TrimStartOfPlain(s: string)
    requires s == [] || !IsWhiteSpace(s[0])
    ensures TrimStart(s) == s
  {
  }

  lemma {:induction false} TrimStartSkipsWhiteSpace(w: string, s: string)
    requires forall k :: 0 <= k < |w| ==> IsWhiteSpace(w[k])
    ensures TrimStart(w + s) == TrimStart(s)
  {
    if w == [] {
      assert w + s == s;
    } else {
      assert (w + s)[1..] == w[1..] + s;
      TrimStartSkipsWhiteSpace(w[1..], s);
    }
  }

  /** Leading white space never changes what parseInt reads. */
  lemma ParseIntSkipsLeadingWhiteSpace(w: string, s: string)
    requires forall k :: 0 <= k < |w| ==> IsWhiteSpace(w[k])
    ensures ParseInt(w + s) == ParseInt(s)
  {
    TrimStartSkipsWhiteSpace(w, s);
  }

  lemma {:induction false} DigitPrefixOfDigits(d: string, rest: string, radix: nat)
    requires forall k :: 0 <= k < |d| ==> IsDigit(d[k], radix)
    requires rest == [] || !IsDigit(rest[0], radix)
    ensures DigitPrefix(d + rest, radix) == d
  {
    if d == [] {
      assert d + rest == rest;
    } else {
      assert (d + rest)[1..] == d[1..] + rest;
      DigitPrefixOfDigits(d[1..], rest, radix);
    }
  }

  /** A leading run of decimal digits is read in full and whatever follows it is ignored,
      unless the run is a lone "0" followed by 'x' or 'X' (which selects radix 16). */
  lemma ParseIntReadsDecimalPrefix(d: string, rest: string)
    requires |d| > 0 && forall k :: 0 <= k < |d| ==> IsDigit(d[k], 10)
    requires rest == [] || !IsDigit(rest[0], 10)
    requires !(d == "0" && rest != [] && (rest[0] == 'x' || rest[0] == 'X'))
    ensures ParseInt(d + rest) == Int(DigitsValue(d, 10))
  {
    var s := d + rest;
    assert s[0] == d[0];
    DigitIsPlain(d[0]);
    TrimStartOfPlain(s);
    assert Unsigned(s) == s && Sign(s) == 1;
    if |d| >= 2 {
      assert s[1] == d[1];
      DigitIsPlain(d[1]);
    } else if rest != [] {
      assert s[1] == rest[0];
    }
    assert !HasHexPrefix(s);
    DigitPrefixOfDigits(d, rest, 10);
    assert Digits(s) == d;
  }

  lemma UnsignedOfPlain(s: string)
    requires s == [] || !(IsWhiteSpace(s[0]) || s[0] == '+' || s[0] == '-')
    ensures Unsigned(s) == s && Sign(s) == 1
  {
    TrimStartOfPlain(s);
  }

  lemma UnsignedOfSigned(c: char, s: string)
    requires c == '+' || c == '-'
    ensures Unsigned([c] + s) == s
    ensures Sign([c] + s) == if c == '-' then -1 else 1
  {
    var t := [c] + s;
    assert t[0] == c && t[1..] == s;
    TrimStartOfPlain(t);
  }

  /** A leading '+' is ignored and a leading '-' negates, when what follows is not white space or another sign. */
  lemma ParseIntSign(s: string)
    requires s == [] || !(IsWhiteSpace(s[0]) || s[0] == '+' || s[0] == '-')
    ensures ParseInt("+" + s) == ParseInt(s)
    ensures ParseInt("-" + s) == Negate(ParseInt(s))
  {
    UnsignedOfPlain(s);
    UnsignedOfSigned('+', s);
    UnsignedOfSigned('-', s);
  }

  /** A string of decimal digits, leading zeros included, reads as its value, with or without a minus sign. */
  lemma ParseIntDigits(d: string)
    requires |d| > 0 && forall k :: 0 <= k < |d| ==> IsDigit(d[k], 10)
    ensures ParseInt(d) == Int(DigitsValue(d, 10))
    ensures ParseInt("-" + d) == Int(-(DigitsValue(d, 10) as int))
  {
    assert d + [] == d;
    ParseIntReadsDecimalPrefix(d, []);
    DigitIsPlain(d[0]);
    UnsignedOfPlain(d);
    assert ReadDigits(d) == Some(DigitsValue(d, 10));
    assert "-" + d == ['-'] + d;
    UnsignedOfSigned('-', d);
  }

  /** parseInt reads back what Number::toString wrote, with or without a minus sign. */
  lemma ParseIntDecimalString(n: nat)
    ensures ParseInt(DecimalString(n)) == Int(n)
    ensures ParseInt("-" + DecimalString(n)) == Int(-(n as int))
  {
    ParseIntDigits(DecimalString(n));
  }

  /** parseInt gives NaN exactly when no digit follows the white space, the sign and any "0x" prefix. */
  lemma ParseIntNaN(s: string)
    ensures ParseInt(s) == NaN <==>
      var u := Unsigned(s);
      u == [] || !IsDigit(u[0], 10) || (HasHexPrefix(u) && (|u| == 2 || !IsDigit(u[2], 16)))
  {
    var u := Unsigned(s);
    if HasHexPrefix(u) {
      assert IsDigit(u[0], 10);
      var body := u[2..];
      assert body != [] ==> body[0] == u[2];
    }
  }

  /** Trailing characters after the digits are dropped: "12abc" reads as 12 and "1e3" as 1. */
  lemma ParseIntIgnoresTrailingText()
    ensures ParseInt("12abc") == Int(12)
    ensures ParseInt("1e3") == Int(1)
  {
    assert "12abc" == "12" + "abc" && "12"[..1] == "1";
    ParseIntReadsDecimalPrefix("12", "abc");
    assert "1e3" == "1" + "e3";
    ParseIntReadsDecimalPrefix("1", "e3");
  }

  /** Leading white space and a sign are accepted: " -7" reads as -7. */
  lemma ParseIntLeadingSpaceAndSign()
    ensures ParseInt(" -7") == Int(-7)
  {
    assert " -7" == " " + ("-" + "7");
    ParseIntSkipsLeadingWhiteSpace(" ", "-" + "7");
    ParseIntDigits("7");
  }

  /** With no radix, "0x1F" reads as hexadecimal 31, while "0x" alone, "abc" and "" are NaN. */
  lemma ParseIntHexAndNaN()
    ensures ParseInt("0x1F") == Int(31)
    ensures ParseInt("0x") == NaN
    ensures ParseInt("abc") == NaN
    ensures ParseInt("") == NaN
  {
    TrimStartOfPlain("0x1F");
    assert Unsigned("0x1F") == "0x1F" && Sign("0x1F") == 1;
    assert HasHexPrefix("0x1F") && "0x1F"[2..] == "1F";
    assert "1F"[1..] == "F" && "F"[1..] == [];
    assert DigitPrefix("1F", 16) == "1F";
    assert "1F"[..1] == "1" && DigitsValue("1F", 16) == 31;
    assert ReadDigits("0x1F") == Some(31);
    ParseIntNaN("0x");
    ParseIntNaN("abc");
    ParseIntNaN("");
  }
}
