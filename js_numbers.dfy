/**
 * The two number/string conversions the submission throttle round-trips its
 * timestamp through: `Number.prototype.toString()` on a non-negative
 * integer and the global `parseInt(string)` with no radix argument.
 */
module JsNumbers {
  import opened Wrappers
  import opened JsStrings

  function DigitChar(d: nat): (c: char)
    requires d < 10
    ensures IsDigit(c)
  {
    (d + '0' as int) as char
  }

  /** `n.toString()` for a non-negative integer: decimal, no sign, no leading zero. */
  function NatToString(n: nat): (s: string)
    ensures s != [] && AllDigits(s)
    ensures |s| > 1 ==> s[0] != '0'
  {
    if n < 10 then [DigitChar(n)] else NatToString(n / 10) + [DigitChar(n % 10)]
  }

  /** A digit of base 10 or 16, as `parseInt` reads it. */
  predicate IsRadixDigit(c: char, radix: nat) {
    if radix == 16 then IsDigit(c) || ('a' <= c <= 'f') || ('A' <= c <= 'F') else IsDigit(c)
  }

  function DigitValue(c: char): nat {
    if IsDigit(c) then c as int - '0' as int
    else if 'a' <= c <= 'f' then c as int - 'a' as int + 10
    else if 'A' <= c <= 'F' then c as int - 'A' as int + 10
    else 0
  }

  /** The longest prefix of `s` made of digits of the given radix. */
  function RadixPrefix(s: string, radix: nat): (r: string)
    ensures r <= s
    ensures forall k :: 0 <= k < |r| ==> IsRadixDigit(r[k], radix)
    ensures |r| < |s| ==> !IsRadixDigit(s[|r|], radix)
  {
    if s != [] && IsRadixDigit(s[0], radix) then [s[0]] + RadixPrefix(s[1..], radix) else []
  }

  /** The value of a digit string, most significant digit first. */
  function DigitsValue(s: string, radix: nat): nat {
    if s == [] then 0 else DigitsValue(s[..|s| - 1], radix) * radix + DigitValue(s[|s| - 1])
  }

  /**
   * `parseInt(s)`: skip leading whitespace, read an optional sign, read a
   * `0x`/`0X` prefix as base 16 (otherwise base 10), then the longest run
   * of digits. No digits gives NaN, modelled as None.
   */
  function ParseInt(s: string): (r: Option<int>)
  {
    var t := TrimStart(s);
    var negative := t != [] && t[0] == '-';
    var u := if t != [] && (t[0] == '-' || t[0] == '+') then t[1..] else t;
    var hex := |u| >= 2 && u[0] == '0' && (u[1] == 'x' || u[1] == 'X');
    var radix := if hex then 16 else 10;
    var digits := RadixPrefix(if hex then u[2..] else u, radix);
    var magnitude: int := DigitsValue(digits, radix);
    if digits == [] then None else Some(if negative then -magnitude else magnitude)
  }

  lemma {:induction false} DecimalValueOfToString(n: nat)
    ensures DigitsValue(NatToString(n), 10) == n
  {
    if n >= 10 {
      var s := NatToString(n);
      assert s[..|s| - 1] == NatToString(n / 10);
      DecimalValueOfToString(n / 10);
    }
  }

  lemma {:induction false} RadixPrefixOfDigits(s: string)
    requires AllDigits(s)
    ensures RadixPrefix(s, 10) == s
  {
    if s != [] {
      RadixPrefixOfDigits(s[1..]);
    }
  }

  /** An unsigned decimal numeral parses to its value. */
  lemma ParseIntOfDigits(s: string)
    requires s != [] && AllDigits(s)
    ensures ParseInt(s) == Some(DigitsValue(s, 10))
  {
    assert IsDigit(s[0]);
    assert TrimStart(s) == s;
    assert !(|s| >= 2 && (s[1] == 'x' || s[1] == 'X')) by {
      if |s| >= 2 { assert IsDigit(s[1]); }
    }
    RadixPrefixOfDigits(s);
  }

  /** The throttle's round trip: `parseInt(n.toString()) === n`. */
  lemma ParseIntOfToString(n: nat)
    ensures ParseInt(NatToString(n)) == Some(n)
  {
    ParseIntOfDigits(NatToString(n));
    DecimalValueOfToString(n);
  }
}
