/** String operations the source relies on: Python's `in` on strings,
    `lower`/`upper`/`title`, `" ".join(...)` and `str(int)`, plus the
    JavaScript `x || "fallback"` idiom on optional strings. Case mapping
    covers ASCII letters only. */
module Text {
  import opened Wrappers

  /** Python's `pat in text`: `pat` occurs as a contiguous substring. */
  predicate Contains(text: string, pat: string)
    decreases |text|
  {
    pat <= text || (text != [] && Contains(text[1..], pat))
  }

  function LowerChar(c: char): char {
    if 'A' <= c <= 'Z' then (c as int + 32) as char else c
  }

  function UpperChar(c: char): char {
    if 'a' <= c <= 'z' then (c as int - 32) as char else c
  }

  predicate IsLetter(c: char) {
    'a' <= c <= 'z' || 'A' <= c <= 'Z'
  }

  /** `s.lower()`: every character mapped on its own, length kept. */
  function Lower(s: string): (r: string)
    ensures |r| == |s|
    ensures forall i :: 0 <= i < |s| ==> r[i] == LowerChar(s[i])
  {
    seq(|s|, i requires 0 <= i < |s| => LowerChar(s[i]))
  }

  /** `s.upper()`. */
  function Upper(s: string): (r: string)
    ensures |r| == |s|
    ensures forall i :: 0 <= i < |s| ==> r[i] == UpperChar(s[i])
  {
    seq(|s|, i requires 0 <= i < |s| => UpperChar(s[i]))
  }

  /** `s.title()`: a letter is upper-cased when the character before it is
      not a letter, lower-cased otherwise. */
  function Title(s: string): (r: string)
    ensures |r| == |s|
  {
    TitleFrom(s, false)
  }

  function TitleFrom(s: string, afterLetter: bool): (r: string)
    ensures |r| == |s|
    decreases |s|
  {
    if s == [] then []
    else
      [if afterLetter then LowerChar(s[0]) else UpperChar(s[0])]
      + TitleFrom(s[1..], IsLetter(s[0]))
  }

  /** Python's `sep.join(parts)`. */
  function Join(parts: seq<string>, sep: string): string {
    if |parts| == 0 then ""
    else if |parts| == 1 then parts[0]
    else parts[0] + sep + Join(parts[1..], sep)
  }

  function DigitChar(d: nat): char
    requires d < 10
  {
    "0123456789"[d]
  }

  function NatToString(n: nat): (r: string)
    ensures |r| > 0
    ensures forall i :: 0 <= i < |r| ==> '0' <= r[i] <= '9'
  {
    if n < 10 then [DigitChar(n)] else NatToString(n / 10) + [DigitChar(n % 10)]
  }

  predicate IsDigits(s: string) {
    forall i :: 0 <= i < |s| ==> '0' <= s[i] <= '9'
  }

  function DigitValue(c: char): nat
    requires '0' <= c <= '9'
  {
    c as int - '0' as int
  }

  /** The number a string of decimal digits reads as, most significant
      digit first; the reading `NatToString` is checked against. */
  function DigitsValue(s: string): nat
    requires IsDigits(s)
  {
    if s == [] then 0 else DigitsValue(s[..|s| - 1]) * 10 + DigitValue(s[|s| - 1])
  }

  lemma DigitCharValue(d: nat)
    requires d < 10
    ensures DigitValue(DigitChar(d)) == d
  {
  }

  /** `NatToString` writes the decimal digits of its argument: reading them
      back gives the number. */
  lemma {:induction false} NatToStringReadsBack(n: nat)
    ensures IsDigits(NatToString(n))
    ensures DigitsValue(NatToString(n)) == n
  {
    var s := NatToString(n);
    DigitCharValue(n % 10);
    if n >= 10 {
      NatToStringReadsBack(n / 10);
      assert s[..|s| - 1] == NatToString(n / 10);
    }
  }

  /** Python's `str(n)` for an integer. */
  function IntToString(n: int): (r: string)
    ensures |r| > 0
    ensures (r[0] == '-') <==> n < 0
  {
    if n < 0 then "-" + NatToString(-n) else NatToString(n)
  }

  /** The rupee sign both the engine's messages and the console print. */
  const Rupee: string := "\U{20B9}"

  /** JavaScript truthiness of an optional string: present and non-empty. */
  predicate Truthy(s: Option<string>) {
    s.Some? && s.value != ""
  }

  /** JavaScript `s || fallback` on an optional string. */
  function OrElse(s: Option<string>, fallback: string): (r: string)
    ensures Truthy(s) ==> r == s.value
    ensures !Truthy(s) ==> r == fallback
  {
    if Truthy(s) then s.value else fallback
  }

  lemma LowerIdempotent(s: string)
    ensures Lower(Lower(s)) == Lower(s)
  {
  }

  lemma LowerAppend(a: string, b: string)
    ensures Lower(a + b) == Lower(a) + Lower(b)
  {
  }
}
