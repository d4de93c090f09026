/** Decimal numerals: what `String(n)` prints and what `BigInt(text)` reads, for natural numbers. */
module Decimal {
  predicate IsDigit(c: char) {
    '0' <= c <= '9'
  }

  predicate AllDigits(s: string) {
    forall i | 0 <= i < |s| :: IsDigit(s[i])
  }

  function DigitChar(d: nat): (c: char)
    requires d < 10
    ensures IsDigit(c) && DigitValue(c) == d
  {
    ('0' as int + d) as char
  }

  function DigitValue(c: char): (d: nat)
    requires IsDigit(c)
    ensures d < 10
  {
    c as int - '0' as int
  }

  function Print(n: nat): (s: string)
    ensures |s| >= 1 && AllDigits(s)
  {
    if n < 10 then [DigitChar(n)] else Print(n / 10) + [DigitChar(n % 10)]
  }

  /** Leading zeros are allowed, and the empty numeral is zero. */
  function Value(s: string): nat
    requires AllDigits(s)
  {
    if s == "" then 0 else 10 * Value(s[..|s| - 1]) + DigitValue(s[|s| - 1])
  }

  function Pow10(k: nat): (p: nat)
    ensures p >= 1
  {
    if k == 0 then 1 else 10 * Pow10(k - 1)
  }

  /** Reading undoes printing. */
  lemma {:induction false} ValueOfPrint(n: nat)
    ensures Value(Print(n)) == n
  {
    if n >= 10 {
      ValueOfPrint(n / 10);
      assert Print(n)[..|Print(n)| - 1] == Print(n / 10);
    } else {
      assert Print(n)[..0] == "";
    }
  }

  lemma {:induction false} PrintLength(n: nat, k: nat)
    requires k >= 1 && n < Pow10(k)
    ensures |Print(n)| <= k
  {
    if n >= 10 {
      assert k > 1;
      PrintLength(n / 10, k - 1);
    }
  }

  /** `v * 10 ** k`. */
  function Scaled(v: nat, k: nat): nat {
    if k == 0 then v else 10 * Scaled(v, k - 1)
  }

  /** Appending zeros multiplies; prepending them changes nothing. */
  lemma {:induction false} ValueAppendZeros(s: string, k: nat)
    requires AllDigits(s)
    ensures AllDigits(s + Zeros(k)) && Value(s + Zeros(k)) == Scaled(Value(s), k)
  {
    if k == 0 {
      assert s + Zeros(0) == s;
    } else {
      ValueAppendZeros(s, k - 1);
      assert (s + Zeros(k))[..|s| + k - 1] == s + Zeros(k - 1);
    }
  }

  lemma {:induction false} ValuePrependZeros(k: nat, s: string)
    requires AllDigits(s)
    ensures AllDigits(Zeros(k) + s) && Value(Zeros(k) + s) == Value(s)
    decreases k, |s|
  {
    if s == "" {
      if k > 0 {
        ValuePrependZeros(k - 1, "");
        assert (Zeros(k) + s)[..k - 1] == Zeros(k - 1) + "";
      }
    } else {
      ValuePrependZeros(k, s[..|s| - 1]);
      assert (Zeros(k) + s)[..k + |s| - 1] == Zeros(k) + s[..|s| - 1];
    }
  }

  function Zeros(k: nat): (s: string)
    ensures |s| == k && AllDigits(s)
  {
    seq(k, i => '0')
  }

  lemma LastMark(a: string, s: string)
    requires AllDigits(s)
    ensures (a + "#" + s)[|a|] == '#'
    ensures forall j | |a| < j < |a + "#" + s| :: IsDigit((a + "#" + s)[j])
  {}

  /** A text ending in a mark and a number splits in one way only. */
  lemma SuffixIsUnique(a: string, m: nat, b: string, n: nat)
    requires a + "#" + Print(m) == b + "#" + Print(n)
    ensures a == b && m == n
  {
    var x, y := a + "#" + Print(m), b + "#" + Print(n);
    LastMark(a, Print(m));
    LastMark(b, Print(n));
    assert |a| == |b|;
    assert a == x[..|a|] && b == y[..|b|];
    assert Print(m) == x[|a| + 1..] && Print(n) == y[|b| + 1..];
    ValueOfPrint(m);
    ValueOfPrint(n);
  }
}
