/**
 * The few JavaScript string built-ins the core relies on:
 * `toUpperCase`, `toLowerCase`, `split(sep)[0]` and the decimal text a
 * template literal gives a non-negative integer.
 */
module JsText {

  /** `toUpperCase` on one character: the ASCII letters, plus the two non-ASCII
      lower-case letters whose upper case is an ASCII letter (dotless i and long s). */
  function UpperChar(c: char): char
  {
    if 'a' <= c <= 'z' then (c as int - 32) as char
    else if c == '\U{0131}' then 'I'
    else if c == '\U{017F}' then 'S'
    else c
  }

  /** `toLowerCase` on one character: the ASCII letters, plus the one non-ASCII
      character whose lower case is a single ASCII letter (the Kelvin sign). */
  function LowerChar(c: char): char
  {
    if 'A' <= c <= 'Z' then (c as int + 32) as char
    else if c == '\U{212A}' then 'k'
    else c
  }

  /** Each lower-case ASCII letter becomes its upper-case partner, dotless i becomes `I`,
      long s becomes `S`, and every other character is kept. */
  function ToUpper(s: string): (r: string)
    ensures |r| == |s|
    ensures forall i :: 0 <= i < |s| && 'a' <= s[i] <= 'z' ==> r[i] as int == s[i] as int - 32
    ensures forall i :: 0 <= i < |s| && s[i] == '\U{0131}' ==> r[i] == 'I'
    ensures forall i :: 0 <= i < |s| && s[i] == '\U{017F}' ==> r[i] == 'S'
    ensures forall i :: 0 <= i < |s| && !('a' <= s[i] <= 'z') && s[i] != '\U{0131}' && s[i] != '\U{017F}' ==>
      r[i] == s[i]
    ensures forall i :: 0 <= i < |r| ==> !('a' <= r[i] <= 'z')
  {
    seq(|s|, i requires 0 <= i < |s| => UpperChar(s[i]))
  }

  /** Each upper-case ASCII letter becomes its lower-case partner, the Kelvin sign
      becomes `k`, and every other character is kept. */
  function ToLower(s: string): (r: string)
    ensures |r| == |s|
    ensures forall i :: 0 <= i < |s| && 'A' <= s[i] <= 'Z' ==> r[i] as int == s[i] as int + 32
    ensures forall i :: 0 <= i < |s| && s[i] == '\U{212A}' ==> r[i] == 'k'
    ensures forall i :: 0 <= i < |s| && !('A' <= s[i] <= 'Z') && s[i] != '\U{212A}' ==> r[i] == s[i]
    ensures forall i :: 0 <= i < |r| ==> !('A' <= r[i] <= 'Z')
  {
    seq(|s|, i requires 0 <= i < |s| => LowerChar(s[i]))
  }

  /** Upper-casing ignores a previous lower-casing, except across a Kelvin sign, which
      lower-cases to `k` but is its own upper case. */
  lemma UpperOfLower(s: string)
    requires '\U{212A}' !in s
    ensures ToUpper(ToLower(s)) == ToUpper(s)
  {
  }

  /** `s.split(sep)[0]`: the part of `s` before the first `sep`, or all of `s`
      when `sep` does not occur. */
  function BeforeFirst(s: string, sep: char): (r: string)
    ensures |r| <= |s| && r == s[..|r|]
    ensures sep !in r
    ensures |r| == |s| || s[|r|] == sep
  {
    if s == [] || s[0] == sep then [] else [s[0]] + BeforeFirst(s[1..], sep)
  }

  function DigitChar(d: nat): (c: char)
    requires d < 10
  {
    "0123456789"[d]
  }

  /** The decimal numeral of `n`, as `${n}` writes a non-negative integer. */
  function Decimal(n: nat): (r: string)
    ensures |r| >= 1
    ensures forall i :: 0 <= i < |r| ==> '0' <= r[i] <= '9'
    ensures r[0] == '0' ==> n == 0
    decreases n
  {
    if n < 10 then [DigitChar(n)] else Decimal(n / 10) + [DigitChar(n % 10)]
  }

  /** The number a string of decimal digits denotes. */
  function DigitsValue(s: string): nat
    requires forall i :: 0 <= i < |s| ==> '0' <= s[i] <= '9'
  {
    if s == [] then 0
    else DigitsValue(s[..|s| - 1]) * 10 + (s[|s| - 1] as int - '0' as int)
  }

  /** The numeral reads back as the number it was made from. */
  lemma {:induction false} DecimalRoundTrip(n: nat)
    ensures DigitsValue(Decimal(n)) == n
    decreases n
  {
    if n >= 10 {
      DecimalRoundTrip(n / 10);
      var r := Decimal(n);
      assert r[..|r| - 1] == Decimal(n / 10);
    }
  }
}
