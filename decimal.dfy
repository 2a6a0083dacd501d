/**
 * Decimal text of natural numbers, as JavaScript's template literals print
 * integers (`${n}`), and `String.prototype.padStart` with a fill character.
 */
module Decimal {
  import opened Wrappers

  predicate IsDigit(c: char) {
    '0' <= c <= '9'
  }

  predicate AllDigits(s: string) {
    forall i :: 0 <= i < |s| ==> IsDigit(s[i])
  }

  function DigitChar(d: nat): (c: char)
    requires d < 10
    ensures IsDigit(c)
  {
    ('0' as int + d) as char
  }

  function DigitValue(c: char): (d: nat)
    requires IsDigit(c)
    ensures d < 10
  {
    c as int - '0' as int
  }

  /** Non-empty digit text with no leading zero, except the text `0` itself. */
  predicate Canonical(s: string) {
    s != [] && AllDigits(s) && (s[0] == '0' ==> |s| == 1)
  }

  /** The canonical decimal text of `n`: digits only, no leading zero unless `n == 0`. */
  function Show(n: nat): (s: string)
    ensures Canonical(s)
    ensures s[0] == '0' ==> n == 0
  {
    if n < 10 then [DigitChar(n)] else Show(n / 10) + [DigitChar(n % 10)]
  }

  /** The number a string of digits denotes, read in base ten (leading zeros allowed). */
  function Value(s: string): nat
    requires AllDigits(s)
  {
    if s == [] then 0 else Value(s[..|s| - 1]) * 10 + DigitValue(s[|s| - 1])
  }

  /** The digits of `Show(n)` read back give `n`. */
  lemma {:induction false} ShowValue(n: nat)
    ensures Value(Show(n)) == n
  {
    if n >= 10 {
      var s := Show(n);
      assert s[..|s| - 1] == Show(n / 10);
      ShowValue(n / 10);
    }
  }

  function Repeat(c: char, k: nat): (r: string)
    ensures |r| == k && forall i :: 0 <= i < k ==> r[i] == c
  {
    if k == 0 then [] else [c] + Repeat(c, k - 1)
  }

  /** `s.padStart(width, c)` for a one-character fill. */
  function PadStart(s: string, width: nat, c: char): (r: string)
    ensures |r| == if |s| >= width then |s| else width
    ensures r == Repeat(c, |r| - |s|) + s
  {
    if |s| >= width then s else Repeat(c, width - |s|) + s
  }

  /** Leading zeros do not change the value of a digit string. */
  lemma {:induction false} LeadingZeros(k: nat, s: string)
    requires AllDigits(s)
    ensures AllDigits(Repeat('0', k) + s)
    ensures Value(Repeat('0', k) + s) == Value(s)
  {
    var z := Repeat('0', k) + s;
    if s != [] {
      assert z[..|z| - 1] == Repeat('0', k) + s[..|s| - 1];
      LeadingZeros(k, s[..|s| - 1]);
    } else if k > 0 {
      assert z == [z[0]] + Repeat('0', k - 1);
      assert z[..|z| - 1] == Repeat('0', k - 1) + [];
      LeadingZeros(k - 1, []);
    }
  }

  /** The text `Show(n)` padded with zeros to `width` still reads back as `n`. */
  lemma PaddedValue(n: nat, width: nat)
    ensures AllDigits(PadStart(Show(n), width, '0'))
    ensures Value(PadStart(Show(n), width, '0')) == n
  {
    var s := Show(n);
    LeadingZeros(|PadStart(s, width, '0')| - |s|, s);
    ShowValue(n);
  }

  /** Digit text that does not start with `0` denotes a positive number. */
  lemma {:induction false} NoLeadingZeroPositive(s: string)
    requires s != [] && AllDigits(s) && s[0] != '0'
    ensures Value(s) > 0
  {
    if |s| > 1 {
      NoLeadingZeroPositive(s[..|s| - 1]);
    }
  }

  /** Canonical text is exactly what `Show` prints for the number it denotes. */
  lemma {:induction false} ShowOfValue(s: string)
    requires Canonical(s)
    ensures Show(Value(s)) == s
  {
    if |s| > 1 {
      var init := s[..|s| - 1];
      ShowOfValue(init);
      NoLeadingZeroPositive(init);
      assert Value(s) / 10 == Value(init) && Value(s) % 10 == DigitValue(s[|s| - 1]);
      assert s == init + [s[|s| - 1]];
    }
  }

  /** Any non-empty digit text is `Show` of its value preceded by zeros. */
  lemma {:induction false} ZerosThenShow(s: string)
    requires s != [] && AllDigits(s)
    ensures |Show(Value(s))| <= |s|
    ensures Repeat('0', |s| - |Show(Value(s))|) + Show(Value(s)) == s
  {
    if Canonical(s) {
      ShowOfValue(s);
    } else {
      var t := s[1..];
      assert s == Repeat('0', 1) + t;
      LeadingZeros(1, t);
      ZerosThenShow(t);
      var k := |t| - |Show(Value(t))|;
      assert Repeat('0', k + 1) == Repeat('0', 1) + Repeat('0', k);
    }
  }

  /**
   * Zero-padded text: at least `width` digits, and leading zeros only up to
   * the width. Such text is exactly what padding `Show` of its value prints.
   */
  lemma PaddedOfValue(s: string, width: nat)
    requires AllDigits(s) && |s| >= width >= 1
    requires |s| > width ==> s[0] != '0'
    ensures PadStart(Show(Value(s)), width, '0') == s
  {
    ZerosThenShow(s);
  }
}
