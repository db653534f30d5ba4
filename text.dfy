/** Character-level helpers: decimal digits, the zero padding of transaction ids, ASCII case
    folding, substring search and the decimal text Python's str() gives an amount. */
module Text {
  import opened Wrappers

  predicate IsDigit(c: char) {
    '0' <= c <= '9'
  }

  function DigitValue(c: char): (n: int)
    requires IsDigit(c)
    ensures 0 <= n < 10
  {
    c as int - '0' as int
  }

  function DigitChar(n: int): (c: char)
    requires 0 <= n < 10
    ensures IsDigit(c) && DigitValue(c) == n
  {
    ('0' as int + n) as char
  }

  predicate AllDigits(s: string) {
    forall i :: 0 <= i < |s| ==> IsDigit(s[i])
  }

  /** The number a string of decimal digits denotes (Python's int() on it). */
  function DigitsValue(s: string): nat
    requires AllDigits(s)
  {
    if s == [] then 0 else DigitsValue(s[..|s| - 1]) * 10 + DigitValue(s[|s| - 1])
  }

  /** The decimal text of n without leading zeros (Python's str() of an int). */
  function NatText(n: nat): (s: string)
    ensures 1 <= |s| && AllDigits(s) && DigitsValue(s) == n
    ensures (s[0] == '0') == (n == 0)
    ensures |s| == 1 <==> n < 10
  {
    if n < 10 then [DigitChar(n)]
    else
      var s := NatText(n / 10) + [DigitChar(n % 10)];
      assert s[..|s| - 1] == NatText(n / 10);
      s
  }

  function Zeros(k: nat): (s: string)
    ensures |s| == k && AllDigits(s)
  {
    seq(k, _ => '0')
  }

  /** Zeros on the left do not change the value of a digit string. */
  lemma {:induction false} LeadingZeros(k: nat, s: string)
    requires AllDigits(s)
    ensures AllDigits(Zeros(k) + s) && DigitsValue(Zeros(k) + s) == DigitsValue(s)
    decreases |s| + k
  {
    var z := Zeros(k);
    if s == [] {
      if k > 0 {
        assert z[..k - 1] == Zeros(k - 1);
        LeadingZeros(k - 1, s);
        assert z + s == z;
        assert Zeros(k - 1) + s == Zeros(k - 1);
      }
    } else {
      var p := s[..|s| - 1];
      LeadingZeros(k, p);
      assert (z + s)[..|z + s| - 1] == z + p;
    }
  }

  /** Python's format(n, "0<width>d") for a non-negative n given as its digits:
      zeros on the left up to the width, never truncating. */
  function ZeroPad(s: string, width: nat): (r: string)
    requires AllDigits(s)
    ensures |r| == if |s| < width then width else |s|
    ensures AllDigits(r) && DigitsValue(r) == DigitsValue(s)
  {
    if |s| < width then
      LeadingZeros(width - |s|, s);
      Zeros(width - |s|) + s
    else s
  }

  /** str.lower() restricted to ASCII letters; every other character is kept. */
  function LowerChar(c: char): char {
    if 'A' <= c <= 'Z' then (c as int + 32) as char else c
  }

  function Lower(s: string): (r: string)
    ensures |r| == |s|
    ensures forall i :: 0 <= i < |r| ==> !('A' <= r[i] <= 'Z')
    ensures forall i :: 0 <= i < |s| && !('A' <= s[i] <= 'Z') ==> r[i] == s[i]
    ensures forall i :: 0 <= i < |s| && 'A' <= s[i] <= 'Z' ==> r[i] == (s[i] as int + 32) as char
  {
    seq(|s|, i requires 0 <= i < |s| => LowerChar(s[i]))
  }

  /** Lowering twice is lowering once. */
  lemma LowerIdempotent(s: string)
    ensures Lower(Lower(s)) == Lower(s)
  {
    var r := Lower(s);
    assert forall i :: 0 <= i < |r| ==> Lower(r)[i] == r[i];
  }

  /** Lowering changes a string only when it holds an upper-case ASCII letter, which becomes the
      matching lower-case letter. */
  lemma LowerChanges(s: string) returns (j: int)
    requires Lower(s) != s
    ensures 0 <= j < |s| && 'A' <= s[j] <= 'Z' && 'a' <= Lower(s)[j] <= 'z'
  {
    LowerKeepsNoUpper(s);
    j :| 0 <= j < |s| && 'A' <= s[j] <= 'Z';
  }

  lemma LowerKeepsNoUpper(s: string)
    ensures (forall i :: 0 <= i < |s| ==> !('A' <= s[i] <= 'Z')) ==> Lower(s) == s
  {
    if forall i :: 0 <= i < |s| ==> !('A' <= s[i] <= 'Z') {
      assert forall i :: 0 <= i < |s| ==> Lower(s)[i] == s[i];
    }
  }

  /** Python's `pat in text` for two strings, by scanning the start positions of text. */
  predicate Contains(text: string, pat: string)
    decreases |text|
  {
    pat <= text || (text != [] && Contains(text[1..], pat))
  }

  /** pat occurs in text starting at position i. */
  predicate OccursAt(text: string, pat: string, i: int) {
    0 <= i && i + |pat| <= |text| && text[i..i + |pat|] == pat
  }

  /** The scan of Contains finds pat exactly when pat occurs at some position of text. */
  lemma {:induction false} ContainsIffOccurs(text: string, pat: string)
    ensures Contains(text, pat) <==> exists i :: OccursAt(text, pat, i)
    decreases |text|
  {
    if pat <= text {
      assert text[0..|pat|] == pat;
      assert OccursAt(text, pat, 0);
    } else if text == [] {
      assert forall i :: !OccursAt(text, pat, i);
    } else {
      ContainsIffOccurs(text[1..], pat);
      if Contains(text[1..], pat) {
        var j :| OccursAt(text[1..], pat, j);
        assert text[1..][j..j + |pat|] == text[j + 1..j + 1 + |pat|];
        assert OccursAt(text, pat, j + 1);
      } else {
        forall i | OccursAt(text, pat, i)
          ensures i > 0 && OccursAt(text[1..], pat, i - 1)
        {
          assert text[1..][i - 1..i - 1 + |pat|] == text[i..i + |pat|];
        }
      }
    }
  }

  /** A pattern holding a character that text lacks does not occur in it. */
  lemma AbsentCharNoMatch(text: string, pat: string, j: int)
    requires 0 <= j < |pat| && forall i :: 0 <= i < |text| ==> text[i] != pat[j]
    ensures !Contains(text, pat)
  {
    ContainsIffOccurs(text, pat);
    forall i | 0 <= i <= |text| - |pat|
      ensures !OccursAt(text, pat, i)
    {
      assert text[i..i + |pat|][j] == text[i + j];
    }
  }

  /** The characters the decimal text of an amount is made of. */
  predicate NumericChar(c: char) {
    IsDigit(c) || c == '.' || c == '-'
  }

  /** Python's str() of the float holding cents / 100, for amounts of at most fifteen digits in
      all (|cents| < 10^15): an optional minus, the whole part, a dot, and the fraction with its
      trailing zero dropped but at least one digit kept ("100.0", "12.5", "0.07"). */
  function AmountText(cents: int): (s: string)
    ensures AmountValue(s) == Some(cents)
  {
    var a := if cents < 0 then -cents else cents;
    var u := UnsignedAmountText(a);
    if cents < 0 then
      assert ("-" + u)[1..] == u;
      "-" + u
    else
      u
  }

  /** AmountText of a non-negative amount. */
  function UnsignedAmountText(a: nat): (s: string)
    ensures s != [] && IsDigit(s[0]) && UnsignedAmountValue(s) == Some(a)
  {
    var w := NatText(a / 100);
    var f := a % 100;
    if f == 0 then
      var s := w + ".0";
      assert s[..|s| - 2] == w && s[|s| - 2] == '.' && s[|s| - 1] == '0';
      s
    else if f % 10 == 0 then
      var s := w + "." + [DigitChar(f / 10)];
      assert s[..|s| - 2] == w && s[|s| - 2] == '.' && s[|s| - 1] == DigitChar(f / 10);
      s
    else
      var s := w + "." + [DigitChar(f / 10), DigitChar(f % 10)];
      assert s[..|s| - 3] == w && s[|s| - 3] == '.' && s[|s| - 2] == DigitChar(f / 10) && s[|s| - 1] == DigitChar(f % 10);
      s
  }

  /** Reads such a decimal text back as cents: an optional minus, whole digits, a dot, and one or
      two fraction digits. */
  function AmountValue(s: string): Option<int> {
    if s != [] && s[0] == '-' then
      match UnsignedAmountValue(s[1..])
      case Some(a) => Some(-a)
      case None => None
    else UnsignedAmountValue(s)
  }

  function UnsignedAmountValue(s: string): Option<int> {
    if |s| >= 3 && s[|s| - 2] == '.' && AllDigits(s[..|s| - 2]) && IsDigit(s[|s| - 1]) then
      Some(DigitsValue(s[..|s| - 2]) * 100 + DigitValue(s[|s| - 1]) * 10)
    else if |s| >= 4 && s[|s| - 3] == '.' && AllDigits(s[..|s| - 3]) && IsDigit(s[|s| - 2]) && IsDigit(s[|s| - 1]) then
      Some(DigitsValue(s[..|s| - 3]) * 100 + DigitValue(s[|s| - 2]) * 10 + DigitValue(s[|s| - 1]))
    else None
  }

  /** Whatever reads back as an amount consists of digits, the dot and the minus sign only. */
  lemma AmountValueNumeric(s: string)
    requires AmountValue(s).Some?
    ensures forall i :: 0 <= i < |s| ==> NumericChar(s[i])
  {
    if s != [] && s[0] == '-' {
      UnsignedValueNumeric(s[1..]);
      forall i | 1 <= i < |s|
        ensures NumericChar(s[i])
      {
        assert s[i] == s[1..][i - 1];
      }
    } else {
      UnsignedValueNumeric(s);
    }
  }

  lemma UnsignedValueNumeric(s: string)
    requires UnsignedAmountValue(s).Some?
    ensures forall i :: 0 <= i < |s| ==> NumericChar(s[i])
  {
    var k := if |s| >= 3 && s[|s| - 2] == '.' && AllDigits(s[..|s| - 2]) && IsDigit(s[|s| - 1]) then 2 else 3;
    forall i | 0 <= i < |s| - k
      ensures IsDigit(s[i])
    {
      assert s[i] == s[..|s| - k][i];
    }
  }
}
