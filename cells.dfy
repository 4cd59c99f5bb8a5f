/**
 * Values of spreadsheet cells as the queue store hands them back (text or a whole
 * number), and the three Python conversions the job code applies to them:
 * `int(x)`, `str(x)` (in f-strings) and `s.lower()`.
 */
module Cells {
  import opened Wrappers

  /** A cell value: the store turns numeric-looking cells into numbers. */
  datatype Value = Str(s: string) | Int(i: int)

  predicate IsDigit(c: char) { '0' <= c <= '9' }

  predicate AllDigits(s: string) { forall k :: 0 <= k < |s| ==> IsDigit(s[k]) }

  function DigitChar(d: nat): (c: char)
    requires d < 10
    ensures IsDigit(c) && c as int - '0' as int == d
  {
    ('0' as int + d) as char
  }

  /** Decimal text of a natural number, without leading zeros. */
  function NatText(n: nat): (r: string)
    ensures |r| >= 1 && AllDigits(r)
    ensures n >= 10 ==> r[0] != '0'
  {
    if n < 10 then [DigitChar(n)] else NatText(n / 10) + [DigitChar(n % 10)]
  }

  /** `str(i)` for a Python int. */
  function IntText(i: int): string {
    if i < 0 then "-" + NatText(-i) else NatText(i)
  }

  /** `str(v)` in an f-string, where an absent value is Python's `None`. */
  function ValueText(v: Option<Value>): string {
    match v
    case None => "None"
    case Some(Str(s)) => s
    case Some(Int(i)) => IntText(i)
  }

  /** The number a string of decimal digits denotes. */
  function DigitsValue(s: string): nat
    requires AllDigits(s)
  {
    if s == [] then 0
    else DigitsValue(s[..|s| - 1]) * 10 + (s[|s| - 1] as int - '0' as int)
  }

  /**
   * Python's `int(s)` on text: an optional sign followed by at least one decimal
   * digit; anything else raises (here: None).
   */
  function ParseInt(s: string): Option<int> {
    if |s| > 0 && (s[0] == '-' || s[0] == '+') then
      var digits := s[1..];
      if |digits| > 0 && AllDigits(digits) then
        var magnitude: int := DigitsValue(digits);
        Some(if s[0] == '-' then -magnitude else magnitude)
      else None
    else if |s| > 0 && AllDigits(s) then Some(DigitsValue(s))
    else None
  }

  /** Python's `int(v)` on a cell value. */
  function IntOf(v: Value): Option<int> {
    match v
    case Int(i) => Some(i)
    case Str(s) => ParseInt(s)
  }

  /** Reading back the decimal text of a number gives the number. */
  lemma {:induction false} NatTextValue(n: nat)
    ensures DigitsValue(NatText(n)) == n
  {
    if n >= 10 {
      var r := NatText(n);
      assert r[..|r| - 1] == NatText(n / 10);
      NatTextValue(n / 10);
    }
  }

  /** `int(str(i)) == i`: printing an integer and parsing it back is the identity. */
  lemma IntTextRoundTrip(i: int)
    ensures ParseInt(IntText(i)) == Some(i)
  {
    if i < 0 {
      var digits := NatText(-i);
      var text := "-" + digits;
      NatTextValue(-i);
      assert text[0] == '-' && text[1..] == digits;
      assert |digits| > 0 && AllDigits(digits);
      assert DigitsValue(digits) == -i;
    } else {
      var digits := NatText(i);
      NatTextValue(i);
      assert IsDigit(digits[0]);
      assert ParseInt(digits) == Some(DigitsValue(digits));
    }
  }

  /** ASCII part of `str.lower()`. */
  function LowerChar(c: char): char {
    if 'A' <= c <= 'Z' then (c as int - 'A' as int + 'a' as int) as char else c
  }

  function Lower(s: string): (r: string)
    ensures |r| == |s|
    ensures forall k :: 0 <= k < |s| ==> r[k] == LowerChar(s[k])
  {
    seq(|s|, k requires 0 <= k < |s| => LowerChar(s[k]))
  }

  predicate IsCapital(c: char) { 'A' <= c <= 'Z' }

  /** ASCII part of `str.upper()`, as the distance between the two alphabets. */
  function UpperChar(c: char): char {
    if 'a' <= c <= 'z' then (c as int - 32) as char else c
  }

  /** `s` spells the lower-case text `t`, each letter in either case. */
  predicate SameUpToCase(s: string, t: string) {
    |s| == |t| && forall k :: 0 <= k < |s| ==> s[k] == t[k] || s[k] == UpperChar(t[k])
  }

  /** Lowering leaves no ASCII capital behind, and lowering twice is lowering once. */
  lemma LowerIsLowerCase(s: string)
    ensures forall k :: 0 <= k < |s| ==> !IsCapital(Lower(s)[k])
    ensures Lower(Lower(s)) == Lower(s)
  {
    var r := Lower(s);
    forall k | 0 <= k < |s|
      ensures !IsCapital(r[k]) && LowerChar(r[k]) == r[k]
    {
      LowerCharIsLower(s[k]);
    }
  }

  lemma LowerCharIsLower(c: char)
    ensures !IsCapital(LowerChar(c)) && LowerChar(LowerChar(c)) == LowerChar(c)
  {
  }

  /** A character lowers to the lower-case `d` exactly when it is `d` in either case. */
  lemma LowerCharMatches(c: char, d: char)
    requires !IsCapital(d)
    ensures LowerChar(c) == d <==> c == d || c == UpperChar(d)
  {
  }

  /**
   * Comparing `s.lower()` with a lower-case text `t` is comparing without
   * regard to case: `s` equals `t` up to the case of each of its letters.
   */
  lemma LowerMatches(s: string, t: string)
    requires forall k :: 0 <= k < |t| ==> !IsCapital(t[k])
    ensures Lower(s) == t <==> SameUpToCase(s, t)
  {
    if |s| == |t| {
      forall k | 0 <= k < |s|
        ensures Lower(s)[k] == t[k] <==> s[k] == t[k] || s[k] == UpperChar(t[k])
      {
        LowerCharMatches(s[k], t[k]);
      }
      if SameUpToCase(s, t) {
        assert forall k :: 0 <= k < |s| ==> Lower(s)[k] == t[k];
      }
    }
  }
}
