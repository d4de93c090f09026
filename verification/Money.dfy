/**
 * Dollars typed and printed by the dashboard (apps/api/dashboard/dashboard-models.js,
 * `microsFromDollars`, `dollarsFromMicros` and `parseSpendLimit`).
 */
module Money {
  import opened Wrappers
  import opened Decimal

  const MAX_SAFE_INTEGER := 9_007_199_254_740_991
  const SPEND_LIMIT_MAX_MICROS := 1_000_000_000_000

  // ---------------------------------------------------------------- texts

  /** White space and line ends, as `trim` and `\s` know them. */
  predicate IsSpace(c: char) {
    var u := c as int;
    || 0x09 <= u <= 0x0D || u == 0x20 || u == 0xA0 || u == 0x1680 || 0x2000 <= u <= 0x200A
    || u == 0x2028 || u == 0x2029 || u == 0x202F || u == 0x205F || u == 0x3000 || u == 0xFEFF
  }

  function TrimStart(s: string): string {
    if s != "" && IsSpace(s[0]) then TrimStart(s[1..]) else s
  }

  function TrimEnd(s: string): string {
    if s != "" && IsSpace(s[|s| - 1]) then TrimEnd(s[..|s| - 1]) else s
  }

  function Trim(s: string): string {
    TrimEnd(TrimStart(s))
  }

  /** Where the first point is; the length when there is none. */
  function PointAt(s: string): (n: nat)
    ensures n <= |s|
  {
    if s == "" || s[0] == '.' then 0 else 1 + PointAt(s[1..])
  }

  function Whole(s: string): string {
    s[..PointAt(s)]
  }

  /** What follows the first point; nothing when there is none. */
  function Fraction(s: string): string {
    if PointAt(s) == |s| then "" else s[PointAt(s) + 1..]
  }

  predicate HasPoint(s: string) {
    PointAt(s) < |s|
  }

  function PadEnd(s: string, n: nat): string {
    s + Zeros(if |s| < n then n - |s| else 0)
  }

  function PadStart(s: string, n: nat): string {
    Zeros(if |s| < n then n - |s| else 0) + s
  }

  function StripZeros(s: string): string {
    if s != "" && s[|s| - 1] == '0' then StripZeros(s[..|s| - 1]) else s
  }

  // ---------------------------------------------------------------- the functions

  lemma PadEndDigits(s: string, n: nat)
    requires AllDigits(s)
    ensures AllDigits(PadEnd(s, n)) && (|s| <= n ==> |PadEnd(s, n)| == n)
  {}

  /** Whole and fractional digits as micro-dollars. */
  function Micros(whole: string, fraction: string): nat
    requires AllDigits(whole) && AllDigits(fraction) && |fraction| <= 6
  {
    PadEndDigits(fraction, 6);
    Value(whole) * 1_000_000 + Value(PadEnd(fraction, 6))
  }

  /** One to twelve digits, and perhaps a point and one to six more. */
  predicate IsPlainAmount(s: string) {
    && 1 <= |Whole(s)| <= 12 && AllDigits(Whole(s))
    && (HasPoint(s) ==> 1 <= |Fraction(s)| <= 6) && AllDigits(Fraction(s))
  }

  function MicrosFromDollars(text: string): Option<nat> {
    var s := Trim(text);
    if !IsPlainAmount(s) then None
    else
      assert !HasPoint(s) ==> Fraction(s) == "";
      var micros := Micros(Whole(s), Fraction(s));
      if micros <= MAX_SAFE_INTEGER then Some(micros) else None
  }

  /** `None` is an unknown price. */
  function DollarsFromMicros(micros: Option<int>): string {
    if micros.None? || micros.value < 0 || micros.value > MAX_SAFE_INTEGER then ""
    else Print(micros.value / 1_000_000) + "." + PadEnd(StripZeros(PadStart(Print(micros.value % 1_000_000), 6)), 2)
  }

  datatype SpendError = Empty | NotPositive | NotAnAmount | TooManyPlaces | TooLarge

  datatype SpendLimit = Limit(micros: nat) | Refused(error: SpendError)

  function WithoutSign(s: string): string {
    if s != "" && s[0] == '$' then TrimStart(s[1..]) else s
  }

  function ParseSpendLimit(text: string): SpendLimit {
    var raw := WithoutSign(Trim(text));
    if raw == "" then Refused(Empty)
    else if raw[0] == '-' then Refused(NotPositive)
    else if !AllDigits(Whole(raw)) || !AllDigits(Fraction(raw)) || (Whole(raw) == "" && Fraction(raw) == "") then
      Refused(NotAnAmount)
    else if |Fraction(raw)| > 6 then Refused(TooManyPlaces)
    else
      var micros := Micros(if Whole(raw) == "" then "0" else Whole(raw), Fraction(raw));
      if micros == 0 then Refused(NotPositive)
      else if micros > SPEND_LIMIT_MAX_MICROS then Refused(TooLarge)
      else Limit(micros)
  }

  // ---------------------------------------------------------------- digits

  lemma {:induction false} PointAfter(whole: string, fraction: string)
    requires AllDigits(whole)
    ensures PointAt(whole + "." + fraction) == |whole|
  {
    var s := whole + "." + fraction;
    if whole != "" {
      PointAfter(whole[1..], fraction);
      assert s[1..] == whole[1..] + "." + fraction;
    }
  }

  lemma SplitAtPoint(whole: string, fraction: string)
    requires AllDigits(whole)
    ensures var s := whole + "." + fraction; HasPoint(s) && Whole(s) == whole && Fraction(s) == fraction
  {
    PointAfter(whole, fraction);
  }

  lemma {:induction false} StripOnlyZeros(s: string)
    ensures |StripZeros(s)| <= |s| && StripZeros(s) + Zeros(|s| - |StripZeros(s)|) == s
  {
    if s != "" && s[|s| - 1] == '0' {
      StripOnlyZeros(s[..|s| - 1]);
    }
  }

  lemma PadTwice(s: string)
    requires |s| <= 6
    ensures |PadEnd(s, 2)| <= 6 && PadEnd(PadEnd(s, 2), 6) == PadEnd(s, 6)
  {}

  /** The printed fraction, padded again, is the six digits it came from. */
  lemma FractionComesBack(six: string)
    requires |six| == 6 && AllDigits(six)
    ensures var fraction := PadEnd(StripZeros(six), 2);
      2 <= |fraction| <= 6 && AllDigits(fraction) && PadEnd(fraction, 6) == six
  {
    StripOnlyZeros(six);
    var stripped := StripZeros(six);
    assert stripped == six[..|stripped|];
    PadTwice(stripped);
    PadEndDigits(stripped, 2);
  }

  lemma SixDigits(n: nat)
    requires n < 1_000_000
    ensures var six := PadStart(Print(n), 6); |six| == 6 && AllDigits(six) && Value(six) == n
  {
    assert Pow10(6) == 1_000_000;
    PrintLength(n, 6);
    ValueOfPrint(n);
    ValuePrependZeros(6 - |Print(n)|, Print(n));
  }

  lemma DigitsHaveNoSpace(s: string, i: nat)
    requires i < |s| && (IsDigit(s[i]) || s[i] == '.')
    ensures !IsSpace(s[i])
  {}

  /** What is printed: whole digits, a point, and two to six more, which read back as the amount. */
  lemma Printed(m: nat) returns (whole: string, fraction: string)
    requires m <= MAX_SAFE_INTEGER
    ensures DollarsFromMicros(Some(m)) == whole + "." + fraction
    ensures 1 <= |whole| <= 10 && AllDigits(whole) && 2 <= |fraction| <= 6 && AllDigits(fraction)
    ensures Micros(whole, fraction) == m
  {
    var six := PadStart(Print(m % 1_000_000), 6);
    whole, fraction := Print(m / 1_000_000), PadEnd(StripZeros(six), 2);
    SixDigits(m % 1_000_000);
    FractionComesBack(six);
    ValueOfPrint(m / 1_000_000);
    assert Pow10(10) == 10_000_000_000;
    PrintLength(m / 1_000_000, 10);
  }

  /** Digits and points at both ends are not trimmed. */
  lemma NothingToTrim(whole: string, fraction: string)
    requires whole != "" && AllDigits(whole) && fraction != "" && AllDigits(fraction)
    ensures Trim(whole + "." + fraction) == whole + "." + fraction
  {
    var s := whole + "." + fraction;
    DigitsHaveNoSpace(s, 0);
    DigitsHaveNoSpace(s, |s| - 1);
  }

  // ---------------------------------------------------------------- main results

  /** Printing an amount and reading it again gives it back. */
  lemma RoundTrip(m: nat)
    requires m <= MAX_SAFE_INTEGER
    ensures MicrosFromDollars(DollarsFromMicros(Some(m))) == Some(m)
  {
    var whole, fraction := Printed(m);
    NothingToTrim(whole, fraction);
    SplitAtPoint(whole, fraction);
  }

  /** So does typing it as a limit, within the limits that there are. */
  lemma SpendRoundTrip(m: nat)
    requires 1 <= m <= SPEND_LIMIT_MAX_MICROS
    ensures ParseSpendLimit(DollarsFromMicros(Some(m))) == Limit(m)
  {
    var whole, fraction := Printed(m);
    NothingToTrim(whole, fraction);
    SplitAtPoint(whole, fraction);
  }

  /** Different amounts are printed differently; only an amount that is none is printed empty. */
  lemma PrintsAreDistinct(a: nat, b: nat)
    requires a <= MAX_SAFE_INTEGER && b <= MAX_SAFE_INTEGER
    ensures DollarsFromMicros(Some(a)) == DollarsFromMicros(Some(b)) <==> a == b
    ensures DollarsFromMicros(Some(a)) != ""
  {
    RoundTrip(a);
    RoundTrip(b);
    var whole, fraction := Printed(a);
  }

  /** The two readers agree on every text that the price field takes. */
  lemma ReadersAgree(text: string)
    requires MicrosFromDollars(text).Some?
    ensures var m := MicrosFromDollars(text).value;
      ParseSpendLimit(text) ==
        if m == 0 then Refused(NotPositive)
        else if m > SPEND_LIMIT_MAX_MICROS then Refused(TooLarge)
        else Limit(m)
  {
    var s := Trim(text);
    assert Whole(s) != "" && s[0] == Whole(s)[0];
    assert IsDigit(s[0]);
    assert !HasPoint(s) ==> Fraction(s) == "";
  }

  /** A limit is within its bounds, and its text can be printed and typed again. */
  lemma LimitsAreStable(text: string)
    requires ParseSpendLimit(text).Limit?
    ensures var m := ParseSpendLimit(text).micros;
      1 <= m <= SPEND_LIMIT_MAX_MICROS && ParseSpendLimit(DollarsFromMicros(Some(m))) == Limit(m)
  {
    SpendRoundTrip(ParseSpendLimit(text).micros);
  }

  /** An amount as it is typed: perhaps with a dollar sign, perhaps with a point and what follows it. */
  function Typed(dollar: bool, whole: string, point: bool, fraction: string): string {
    (if dollar then "$" else "") + Amount(whole, point, fraction)
  }

  function Amount(whole: string, point: bool, fraction: string): string {
    if point then whole + "." + fraction else whole
  }

  predicate IsAmount(whole: string, point: bool, fraction: string) {
    AllDigits(whole) && AllDigits(fraction) && whole + fraction != "" && (!point ==> fraction == "")
  }

  lemma TypedIsRaw(dollar: bool, whole: string, point: bool, fraction: string)
    requires IsAmount(whole, point, fraction)
    ensures WithoutSign(Trim(Typed(dollar, whole, point, fraction))) == Amount(whole, point, fraction)
  {
    var s, raw := Typed(dollar, whole, point, fraction), Amount(whole, point, fraction);
    assert raw != "" && (IsDigit(raw[0]) || raw[0] == '.');
    assert IsDigit(raw[|raw| - 1]) || raw[|raw| - 1] == '.';
    DigitsHaveNoSpace(raw, 0);
    DigitsHaveNoSpace(raw, |raw| - 1);
    assert s[|s| - 1] == raw[|raw| - 1];
    assert Trim(s) == s;
    if dollar {
      assert s[1..] == raw;
    } else {
      assert s == raw;
    }
  }

  lemma {:induction false} NoPoint(whole: string)
    requires AllDigits(whole)
    ensures PointAt(whole) == |whole|
  {
    if whole != "" {
      NoPoint(whole[1..]);
    }
  }

  lemma AmountSplits(whole: string, point: bool, fraction: string)
    requires IsAmount(whole, point, fraction)
    ensures var raw := Amount(whole, point, fraction); Whole(raw) == whole && Fraction(raw) == fraction
  {
    if point {
      SplitAtPoint(whole, fraction);
    } else {
      NoPoint(whole);
    }
  }

  lemma ZeroWhole(fraction: string)
    requires AllDigits(fraction) && |fraction| <= 6
    ensures Micros("0", fraction) == Micros("", fraction)
  {
    assert "0"[..0] == "";
  }

  /**
   * An amount with digits before the point, after it, or both, or without a point, and with or without a dollar
   * sign, is judged by its decimals and its value alone: it is a limit exactly when it has at most six decimals
   * and is within the bounds.
   */
  lemma AmountsAreJudgedByValue(dollar: bool, whole: string, point: bool, fraction: string)
    requires IsAmount(whole, point, fraction)
    ensures var parsed := ParseSpendLimit(Typed(dollar, whole, point, fraction));
      if |fraction| > 6 then parsed == Refused(TooManyPlaces)
      else var m := Micros(whole, fraction);
        parsed ==
          if m == 0 then Refused(NotPositive)
          else if m > SPEND_LIMIT_MAX_MICROS then Refused(TooLarge)
          else Limit(m)
  {
    TypedIsRaw(dollar, whole, point, fraction);
    AmountSplits(whole, point, fraction);
    var raw := Amount(whole, point, fraction);
    assert raw[0] == if whole == "" then '.' else whole[0];
    if whole == "" && |fraction| <= 6 {
      ZeroWhole(fraction);
    }
  }

  // ---------------------------------------------------------------- exactness

  lemma {:induction false} ValueConcat(a: string, b: string)
    requires AllDigits(a) && AllDigits(b)
    ensures Value(a + b) == Scaled(Value(a), |b|) + Value(b)
  {
    if b == "" {
      assert a + b == a;
    } else {
      ValueConcat(a, b[..|b| - 1]);
      assert (a + b)[..|a + b| - 1] == a + b[..|b| - 1];
    }
  }

  lemma {:induction false} ScaledTwice(v: nat, j: nat, k: nat)
    ensures Scaled(Scaled(v, j), k) == Scaled(v, j + k)
  {
    if k > 0 {
      ScaledTwice(v, j, k - 1);
    }
  }

  /**
   * No digit is rounded away: with `k` decimals, the micro-dollars times ten to the `k` are the digits
   * read without their point times a million.
   */
  lemma MicrosAreExact(whole: string, fraction: string)
    requires AllDigits(whole) && AllDigits(fraction) && |fraction| <= 6
    ensures Scaled(Micros(whole, fraction), |fraction|) == Scaled(Value(whole + fraction), 6)
  {
    MicrosAreDigits(whole, fraction);
    ScaledTwice(Value(whole + fraction), 6 - |fraction|, |fraction|);
  }

  lemma MicrosAreDigits(whole: string, fraction: string)
    requires AllDigits(whole) && AllDigits(fraction) && |fraction| <= 6
    ensures Micros(whole, fraction) == Scaled(Value(whole + fraction), 6 - |fraction|)
  {
    var padded, digits := PadEnd(fraction, 6), whole + fraction;
    PadEndDigits(fraction, 6);
    ValueConcat(whole, padded);
    MillionIsScaled(Value(whole), |padded|);
    PadLast(whole, fraction);
    ValueAppendZeros(digits, 6 - |fraction|);
  }

  lemma PadLast(whole: string, fraction: string)
    requires |fraction| <= 6
    ensures whole + PadEnd(fraction, 6) == whole + fraction + Zeros(6 - |fraction|)
  {
    assert whole + (fraction + Zeros(6 - |fraction|)) == (whole + fraction) + Zeros(6 - |fraction|);
  }

  lemma MillionIsScaled(v: nat, n: nat)
    requires n == 6
    ensures Scaled(v, n) == v * 1_000_000
  {
    var three := Scaled(v, 3);
    assert three == 10 * Scaled(v, 2) && Scaled(v, 2) == 10 * Scaled(v, 1) && Scaled(v, 1) == 10 * Scaled(v, 0);
    assert Scaled(v, 6) == 10 * Scaled(v, 5) && Scaled(v, 5) == 10 * Scaled(v, 4) && Scaled(v, 4) == 10 * three;
  }
}
