/**
 * `strconv.FormatUint(n, 10)`, which renders channel and service-flow ids
 * as label values, together with the parser that inverts it.
 */
module Decimal {

  predicate IsDigit(c: char) { '0' <= c <= '9' }

  predicate IsDigits(s: string) { forall i :: 0 <= i < |s| ==> IsDigit(s[i]) }

  /** Canonical decimal form: at least one digit and no leading zero unless the number is 0. */
  predicate IsCanonical(s: string) { |s| >= 1 && IsDigits(s) && (s[0] == '0' ==> |s| == 1) }

  function DigitChar(d: nat): (c: char)
    requires d < 10
    ensures IsDigit(c) && c as int - '0' as int == d
  {
    ('0' as int + d) as char
  }

  function DigitValue(c: char): (d: nat)
    requires IsDigit(c)
    ensures d < 10
  {
    c as int - '0' as int
  }

  /** Base-10 digits of n, most significant first. */
  function FormatUint(n: nat): (s: string)
    ensures IsCanonical(s)
    ensures n == 0 <==> s == "0"
    decreases n
  {
    if n < 10 then [DigitChar(n)] else FormatUint(n / 10) + [DigitChar(n % 10)]
  }

  /** The value of a string of decimal digits (the empty string reads as 0). */
  function ParseUint(s: string): nat
    requires IsDigits(s)
  {
    if s == [] then 0 else 10 * ParseUint(s[..|s| - 1]) + DigitValue(s[|s| - 1])
  }

  /** Parsing a formatted number gives the number back. */
  lemma {:induction false} ParseFormat(n: nat)
    ensures ParseUint(FormatUint(n)) == n
    decreases n
  {
    var s := FormatUint(n);
    if n < 10 {
      assert s[..0] == [];
    } else {
      ParseFormat(n / 10);
      assert s[..|s| - 1] == FormatUint(n / 10);
    }
  }

  /** Distinct numbers render as distinct label values. */
  lemma FormatInjective(a: nat, b: nat)
    ensures FormatUint(a) == FormatUint(b) ==> a == b
  {
    ParseFormat(a);
    ParseFormat(b);
  }

  lemma {:induction false} ParseLeadingNonZero(s: string)
    requires |s| >= 1 && IsDigits(s) && s[0] != '0'
    ensures ParseUint(s) >= 1
    decreases |s|
  {
    if |s| > 1 {
      ParseLeadingNonZero(s[..|s| - 1]);
    }
  }

  /** Every canonical decimal string is the rendering of the number it denotes. */
  lemma {:induction false} FormatParse(s: string)
    requires IsCanonical(s)
    ensures FormatUint(ParseUint(s)) == s
    decreases |s|
  {
    var p := s[..|s| - 1];
    var d := DigitValue(s[|s| - 1]);
    if |s| == 1 {
      assert p == [];
      assert ParseUint(s) == d;
    } else {
      ParseLeadingNonZero(p);
      FormatParse(p);
      var n := ParseUint(s);
      assert n == 10 * ParseUint(p) + d;
      assert n / 10 == ParseUint(p) && n % 10 == d;
      assert s == p + [s[|s| - 1]];
    }
  }
}
