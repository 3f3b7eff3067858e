/**
 * The string operations the marketplace relies on: `toLowerCase`, `includes`, `startsWith`
 * and the decimal rendering of an integer inside a template literal, with its inverse.
 */
module Text {
  import opened Common

  /** `toLowerCase` restricted to ASCII: 'A'..'Z' become 'a'..'z', every other character is kept. */
  function LowerChar(c: char): char
  {
    if 'A' <= c <= 'Z' then (c as int + 32) as char else c
  }

  function ToLower(s: string): (r: string)
    ensures |r| == |s|
    ensures forall i :: 0 <= i < |s| ==> r[i] == LowerChar(s[i])
  {
    if s == [] then [] else [LowerChar(s[0])] + ToLower(s[1..])
  }

  /** `s` occurs in `text` at position `at`. */
  ghost predicate OccursAt(text: string, s: string, at: int)
  {
    0 <= at && at + |s| <= |text| && text[at..at + |s|] == s
  }

  /** `text.includes(s)`: some window of `text` equals `s`. */
  function Includes(text: string, s: string): (r: bool)
    ensures r <==> exists at :: OccursAt(text, s, at)
  {
    if s <= text then
      assert OccursAt(text, s, 0);
      true
    else if text == [] then
      assert forall at :: !OccursAt(text, s, at);
      false
    else
      var r := Includes(text[1..], s);
      assert r ==> exists at :: OccursAt(text, s, at) by {
        if r {
          var at :| OccursAt(text[1..], s, at);
          assert text[at + 1..at + 1 + |s|] == text[1..][at..at + |s|];
          assert OccursAt(text, s, at + 1);
        }
      }
      assert (exists at :: OccursAt(text, s, at)) ==> r by {
        if exists at :: OccursAt(text, s, at) {
          var at :| OccursAt(text, s, at);
          assert at > 0;
          assert text[1..][at - 1..at - 1 + |s|] == text[at..at + |s|];
          assert OccursAt(text[1..], s, at - 1);
        }
      }
      r
  }

  /** Every string includes the empty string. */
  lemma IncludesEmpty(text: string)
    ensures Includes(text, "")
  {
    assert OccursAt(text, "", 0);
  }

  /** `text.startsWith(prefix)`. */
  function StartsWith(text: string, prefix: string): (r: bool)
    ensures r <==> exists rest :: text == prefix + rest
  {
    if prefix <= text then
      assert text == prefix + text[|prefix|..];
      true
    else
      false
  }

  // ---- decimal rendering of integers (`${n}` for an integral number) ----

  predicate IsDigit(c: char)
  {
    '0' <= c <= '9'
  }

  function DigitChar(d: nat): (c: char)
    requires d < 10
    ensures IsDigit(c)
  {
    ('0' as int + d) as char
  }

  function DigitValue(c: char): (d: nat)
    requires IsDigit(c)
    ensures d < 10
  {
    c as int - '0' as int
  }

  /** Decimal digits of `n`, most significant first, without leading zeros. */
  function NatToString(n: nat): (s: string)
    ensures |s| > 0
    ensures forall i :: 0 <= i < |s| ==> IsDigit(s[i])
  {
    if n < 10 then [DigitChar(n)] else NatToString(n / 10) + [DigitChar(n % 10)]
  }

  /** The template-literal rendering of an integer: a minus sign before negative values. */
  function NumberToString(n: int): string
  {
    if n < 0 then "-" + NatToString(-n) else NatToString(n)
  }

  /** The value of a non-empty string of decimal digits. */
  function DigitsValue(s: string): nat
    requires |s| > 0
    requires forall i :: 0 <= i < |s| ==> IsDigit(s[i])
  {
    if |s| == 1 then DigitValue(s[0])
    else 10 * DigitsValue(s[..|s| - 1]) + DigitValue(s[|s| - 1])
  }

  /** Reads back an optionally signed decimal integer; `None` for anything else. */
  function ParseNumber(s: string): Option<int>
  {
    if |s| > 0 && s[0] == '-' then
      var ds := s[1..];
      if |ds| > 0 && forall i :: 0 <= i < |ds| ==> IsDigit(ds[i]) then Some(0 - DigitsValue(ds) as int) else None
    else if |s| > 0 && forall i :: 0 <= i < |s| ==> IsDigit(s[i]) then Some(DigitsValue(s))
    else None
  }

  lemma {:induction false} NatToStringRoundTrip(n: nat)
    ensures DigitsValue(NatToString(n)) == n
  {
    if n >= 10 {
      NatToStringRoundTrip(n / 10);
      var s := NatToString(n);
      assert s[..|s| - 1] == NatToString(n / 10);
    }
  }

  /** Rendering an integer and reading it back gives the integer. */
  lemma NumberToStringRoundTrip(n: int)
    ensures ParseNumber(NumberToString(n)) == Some(n)
  {
    if n < 0 {
      NatToStringRoundTrip(-n);
      assert ("-" + NatToString(-n))[1..] == NatToString(-n);
    } else {
      NatToStringRoundTrip(n);
    }
  }

  /** A rendered integer holds no '-' except a leading sign. */
  lemma NumberToStringNoInnerDash(n: int)
    ensures forall i :: 1 <= i < |NumberToString(n)| ==> NumberToString(n)[i] != '-'
  {
  }
}
