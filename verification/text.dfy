/**
 * The two pieces of `java.lang.String` behaviour the core depends on:
 * `trim` (through Bean Validation's `@NotBlank`) and the decimal rendering of a
 * `Long` that string concatenation performs when an error message is built.
 */
module Text {
  import opened Wrappers

  /** A character that `String.trim` strips: every code point up to and including U+0020. */
  predicate IsTrimmable(c: char) {
    c <= ' '
  }

  /** `s` without its leading trimmable characters. */
  function TrimStart(s: string): (t: string)
    ensures |t| <= |s| && t == s[|s| - |t|..]
    ensures |t| > 0 ==> !IsTrimmable(t[0])
    ensures forall i :: 0 <= i < |s| - |t| ==> IsTrimmable(s[i])
  {
    if |s| > 0 && IsTrimmable(s[0]) then TrimStart(s[1..]) else s
  }

  /** `s` without its trailing trimmable characters. */
  function TrimEnd(s: string): (t: string)
    ensures |t| <= |s| && t == s[..|t|]
    ensures |t| > 0 ==> !IsTrimmable(t[|t| - 1])
    ensures forall i :: |t| <= i < |s| ==> IsTrimmable(s[i])
  {
    if |s| > 0 && IsTrimmable(s[|s| - 1]) then TrimEnd(s[..|s| - 1]) else s
  }

  /** `String.trim`: both ends stripped. */
  function Trim(s: string): (t: string)
    ensures |t| <= |s|
    ensures |t| > 0 ==> !IsTrimmable(t[0]) && !IsTrimmable(t[|t| - 1])
  {
    TrimEnd(TrimStart(s))
  }

  /**
   * What `Trim` removes: the result is the slice of `s` starting at `i`, and
   * everything before and after that slice is trimmable.
   */
  lemma TrimIsTheMiddle(s: string) returns (i: nat)
    ensures i + |Trim(s)| <= |s| && Trim(s) == s[i..i + |Trim(s)|]
    ensures forall k :: 0 <= k < i ==> IsTrimmable(s[k])
    ensures forall k :: i + |Trim(s)| <= k < |s| ==> IsTrimmable(s[k])
  {
    var ts := TrimStart(s);
    i := |s| - |ts|;
    TrimEndOfSuffix(s, i, ts);
  }

  /** `TrimEnd` of the suffix `ts == s[i..]`, restated as positions in `s`. */
  lemma TrimEndOfSuffix(s: string, i: nat, ts: string)
    requires i <= |s| && ts == s[i..]
    ensures i + |TrimEnd(ts)| <= |s| && TrimEnd(ts) == s[i..i + |TrimEnd(ts)|]
    ensures forall k :: i + |TrimEnd(ts)| <= k < |s| ==> IsTrimmable(s[k])
  {
  }

  /**
   * Jakarta Bean Validation's `@NotBlank`: the value is not null and holds at
   * least one non-whitespace character.
   */
  predicate NotBlank(s: Option<string>) {
    s.Some? && exists i :: 0 <= i < |s.value| && !IsTrimmable(s.value[i])
  }

  /**
   * The constraint's reference implementation checks `trim().length() > 0`;
   * that check accepts exactly the values `NotBlank` accepts.
   */
  lemma NotBlankIffTrimNonEmpty(s: Option<string>)
    ensures NotBlank(s) <==> s.Some? && |Trim(s.value)| > 0
  {
  }

  /** The character of the decimal digit `d`. */
  function DigitChar(d: nat): (c: char)
    requires d < 10
    ensures '0' <= c <= '9'
  {
    ('0' as int + d) as char
  }

  /** The value of the decimal digit character `c`. */
  function DigitValue(c: char): (d: nat)
    requires '0' <= c <= '9'
    ensures d < 10
  {
    c as int - '0' as int
  }

  predicate IsDigits(s: string) {
    forall i :: 0 <= i < |s| ==> '0' <= s[i] <= '9'
  }

  /** The canonical decimal rendering of `n`: at least one digit, no leading zero. */
  function NatToDecimal(n: nat): (s: string)
    ensures 1 <= |s| && IsDigits(s)
    ensures 1 < |s| ==> s[0] != '0'
    ensures n < 10 <==> |s| == 1
  {
    if n < 10 then [DigitChar(n)] else NatToDecimal(n / 10) + [DigitChar(n % 10)]
  }

  /** The number a string of decimal digits denotes. */
  function DecimalValue(s: string): nat
    requires IsDigits(s)
  {
    if |s| == 0 then 0 else 10 * DecimalValue(s[..|s| - 1]) + DigitValue(s[|s| - 1])
  }

  /** Reading back a rendered number gives the number: the rendering loses nothing. */
  lemma {:induction false} DecimalRoundTrip(n: nat)
    ensures DecimalValue(NatToDecimal(n)) == n
  {
    var s := NatToDecimal(n);
    if n >= 10 {
      DecimalRoundTrip(n / 10);
      assert s[..|s| - 1] == NatToDecimal(n / 10);
    }
  }

  /** `Long.toString`: a minus sign for negative values, then the magnitude in decimal. */
  function LongToString(n: int): (s: string)
    ensures 1 <= |s|
    ensures s[0] == '-' <==> n < 0
    ensures n >= 0 ==> IsDigits(s) && DecimalValue(s) == n
    ensures n < 0 ==> IsDigits(s[1..]) && DecimalValue(s[1..]) == -n
  {
    if n < 0 then DecimalRoundTrip(-n); "-" + NatToDecimal(-n) else DecimalRoundTrip(n); NatToDecimal(n)
  }

  /** Different numbers render differently, so a message built from a key names that key. */
  lemma LongToStringInjective(a: int, b: int)
    requires LongToString(a) == LongToString(b)
    ensures a == b
  {
  }
}
