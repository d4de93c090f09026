/** Which texts are amounts, and how amounts are printed (apps/api/dashboard/dashboard-models.js). */
module MoneyTexts {
  import opened Wrappers
  import opened Decimal
  import opened Money

  // ---------------------------------------------------------------- white space

  const SPACES := "\U{9}\U{A}\U{B}\U{C}\U{D}\U{20}\U{A0}\U{1680}\U{2000}\U{2001}\U{2002}\U{2003}\U{2004}"
    + "\U{2005}\U{2006}\U{2007}\U{2008}\U{2009}\U{200A}\U{2028}\U{2029}\U{202F}\U{205F}\U{3000}\U{FEFF}"

  lemma SpacesAre(c: char)
    ensures IsSpace(c) <==> c in SPACES
  {}

  predicate AllSpace(s: string) {
    forall i | 0 <= i < |s| :: IsSpace(s[i])
  }

  /** A text that neither begins nor ends with white space. */
  predicate IsTrimmed(s: string) {
    s == "" || (!IsSpace(s[0]) && !IsSpace(s[|s| - 1]))
  }

  lemma {:induction false} TrimStartOf(before: string, s: string)
    requires AllSpace(before) && (s == "" || !IsSpace(s[0]))
    ensures TrimStart(before + s) == s
  {
    if before == "" {
      assert before + s == s;
    } else {
      TrimStartOf(before[1..], s);
      assert (before + s)[1..] == before[1..] + s;
    }
  }

  lemma {:induction false} TrimEndOf(s: string, after: string)
    requires AllSpace(after) && (s == "" || !IsSpace(s[|s| - 1]))
    ensures TrimEnd(s + after) == s
  {
    if after == "" {
      assert s + after == s;
    } else {
      TrimEndOf(s, after[..|after| - 1]);
      assert (s + after)[..|s + after| - 1] == s + after[..|after| - 1];
    }
  }

  lemma TrimOf(before: string, s: string, after: string)
    requires AllSpace(before) && AllSpace(after) && IsTrimmed(s)
    ensures Trim(before + s + after) == s
  {
    if s == "" {
      assert before + s + after == (before + after) + "";
      TrimStartOf(before + after, "");
    } else {
      assert before + s + after == before + (s + after);
      TrimStartOf(before, s + after);
      TrimEndOf(s, after);
    }
  }

  lemma {:induction false} StartSplits(s: string) returns (before: string)
    ensures AllSpace(before) && s == before + TrimStart(s)
    ensures TrimStart(s) == "" || !IsSpace(TrimStart(s)[0])
  {
    before := "";
    if s != "" && IsSpace(s[0]) {
      var rest := StartSplits(s[1..]);
      before := [s[0]] + rest;
    }
  }

  lemma {:induction false} EndSplits(s: string) returns (after: string)
    ensures AllSpace(after) && s == TrimEnd(s) + after
    ensures TrimEnd(s) == "" || !IsSpace(TrimEnd(s)[|TrimEnd(s)| - 1])
  {
    after := "";
    if s != "" && IsSpace(s[|s| - 1]) {
      after := EndSplits(s[..|s| - 1]);
      after := after + [s[|s| - 1]];
    }
  }

  /** Every text is a trimmed text with white space around it. */
  lemma TrimSplits(text: string) returns (before: string, after: string)
    ensures AllSpace(before) && AllSpace(after) && IsTrimmed(Trim(text)) && text == before + Trim(text) + after
  {
    before := StartSplits(text);
    after := EndSplits(TrimStart(text));
    if Trim(text) != "" {
      assert Trim(text)[0] == TrimStart(text)[0];
    }
  }

  // ---------------------------------------------------------------- prices

  /** One to twelve digits, perhaps with a point and one to six more. */
  predicate IsPrice(whole: string, point: bool, fraction: string) {
    && 1 <= |whole| <= 12 && AllDigits(whole) && AllDigits(fraction)
    && (if point then 1 <= |fraction| <= 6 else fraction == "")
  }

  lemma AmountIsTrimmed(whole: string, point: bool, fraction: string)
    requires IsAmount(whole, point, fraction)
    ensures IsTrimmed(Amount(whole, point, fraction)) && Amount(whole, point, fraction) != ""
  {
    var s := Amount(whole, point, fraction);
    assert IsDigit(s[0]) || s[0] == '.';
    assert IsDigit(s[|s| - 1]) || s[|s| - 1] == '.';
    DigitsHaveNoSpace(s, 0);
    DigitsHaveNoSpace(s, |s| - 1);
  }

  lemma {:induction false} PointSplits(s: string)
    ensures PointAt(s) < |s| ==> s[PointAt(s)] == '.' && s == Whole(s) + "." + Fraction(s)
    ensures PointAt(s) == |s| ==> s == Whole(s) && Fraction(s) == ""
  {
    if s != "" && s[0] != '.' {
      PointSplits(s[1..]);
    }
  }

  lemma PriceOf(before: string, whole: string, point: bool, fraction: string, after: string)
    requires AllSpace(before) && AllSpace(after) && IsPrice(whole, point, fraction)
    ensures MicrosFromDollars(before + Amount(whole, point, fraction) + after)
      == if Micros(whole, fraction) <= 9_007_199_254_740_991 then Some(Micros(whole, fraction)) else None
  {
    AmountIsTrimmed(whole, point, fraction);
    TrimOf(before, Amount(whole, point, fraction), after);
    AmountSplits(whole, point, fraction);
    if point {
      SplitAtPoint(whole, fraction);
    } else {
      NoPoint(whole);
    }
  }

  ghost predicate IsPriceText(text: string, m: nat) {
    exists before: string, whole: string, point: bool, fraction: string, after: string ::
      && AllSpace(before) && AllSpace(after) && IsPrice(whole, point, fraction)
      && text == before + Amount(whole, point, fraction) + after && m == Micros(whole, fraction)
  }

  /**
   * A text is a price exactly when, white space around it aside, it is one to twelve digits, perhaps with a point and
   * one to six more, and its value is a safe integer of micro-dollars.
   */
  lemma PriceIff(text: string, m: nat)
    ensures MicrosFromDollars(text) == Some(m) <==> IsPriceText(text, m) && m <= 9_007_199_254_740_991
  {
    if MicrosFromDollars(text) == Some(m) {
      var before, after := TrimSplits(text);
      var s := Trim(text);
      PointSplits(s);
      assert s == Amount(Whole(s), HasPoint(s), Fraction(s));
      assert IsPrice(Whole(s), HasPoint(s), Fraction(s));
    }
    if IsPriceText(text, m) && m <= 9_007_199_254_740_991 {
      var before: string, whole: string, point: bool, fraction: string, after: string :|
        && AllSpace(before) && AllSpace(after) && IsPrice(whole, point, fraction)
        && text == before + Amount(whole, point, fraction) + after && m == Micros(whole, fraction);
      PriceOf(before, whole, point, fraction, after);
    }
  }

  // ---------------------------------------------------------------- limits

  /** A typed limit: white space around it, and perhaps a dollar sign with more white space before what counts. */
  function LimitText(before: string, dollar: bool, middle: string, raw: string, after: string): string {
    before + ((if dollar then "$" + middle else "") + raw) + after
  }

  predicate AreParts(before: string, dollar: bool, middle: string, raw: string, after: string) {
    && AllSpace(before) && AllSpace(middle) && AllSpace(after) && IsTrimmed(raw)
    && (!dollar ==> middle == "" && (raw == "" || raw[0] != '$'))
    && (raw == "" ==> middle == "")
  }

  lemma RawOf(before: string, dollar: bool, middle: string, raw: string, after: string)
    requires AreParts(before, dollar, middle, raw, after)
    ensures WithoutSign(Trim(LimitText(before, dollar, middle, raw, after))) == raw
  {
    var signed := (if dollar then "$" + middle else "") + raw;
    if dollar {
      assert signed[0] == '$' && !IsSpace('$');
      assert signed[1..] == middle + raw;
      assert signed[|signed| - 1] == if raw == "" then '$' else raw[|raw| - 1];
      TrimStartOf(middle, raw);
    } else {
      assert signed == raw;
    }
    TrimOf(before, signed, after);
  }

  lemma LastIsSpace(s: string, middle: string)
    requires s == "$" + middle && AllSpace(middle) && middle != ""
    ensures IsSpace(s[|s| - 1])
  {
    assert s[|s| - 1] == middle[|middle| - 1];
  }

  /** Every text is such a typed limit. */
  lemma EveryTextHasParts(text: string)
    returns (before: string, dollar: bool, middle: string, raw: string, after: string)
    ensures AreParts(before, dollar, middle, raw, after) && text == LimitText(before, dollar, middle, raw, after)
  {
    before, after := TrimSplits(text);
    var s := Trim(text);
    dollar, middle, raw := false, "", s;
    if s != "" && s[0] == '$' {
      dollar := true;
      middle := StartSplits(s[1..]);
      raw := TrimStart(s[1..]);
      assert s == "$" + (middle + raw);
      if raw == "" {
        if middle != "" {
          LastIsSpace(s, middle);
          assert false;
        }
      } else {
        assert raw[|raw| - 1] == s[|s| - 1];
      }
      assert s == "$" + middle + raw;
    }
  }

  ghost predicate IsTypedAmount(raw: string) {
    exists whole: string, point: bool, fraction: string ::
      IsAmount(whole, point, fraction) && raw == Amount(whole, point, fraction)
  }

  /**
   * What is typed is judged by what is left without the white space around it and without a dollar sign: nothing is
   * refused as empty, what begins with a minus as not positive, what is no amount as such, and an amount by its
   * decimals and its value.
   */
  lemma LimitsAreJudged(before: string, dollar: bool, middle: string, raw: string, after: string)
    requires AreParts(before, dollar, middle, raw, after)
    ensures var parsed := ParseSpendLimit(LimitText(before, dollar, middle, raw, after));
      && (raw == "" ==> parsed == Refused(Empty))
      && (raw != "" && raw[0] == '-' ==> parsed == Refused(NotPositive))
      && (raw != "" && raw[0] != '-' && !IsTypedAmount(raw) ==> parsed == Refused(NotAnAmount))
      && (forall whole, point, fraction | IsAmount(whole, point, fraction) && raw == Amount(whole, point, fraction) ::
           parsed == JudgedAmount(whole, fraction))
  {
    RawOf(before, dollar, middle, raw, after);
    PointSplits(raw);
    if raw != "" && raw[0] != '-' && AllDigits(Whole(raw)) && AllDigits(Fraction(raw))
      && !(Whole(raw) == "" && Fraction(raw) == "") {
      assert raw == Amount(Whole(raw), HasPoint(raw), Fraction(raw));
      assert IsAmount(Whole(raw), HasPoint(raw), Fraction(raw));
    }
    forall whole, point, fraction | IsAmount(whole, point, fraction) && raw == Amount(whole, point, fraction)
      ensures ParseSpendLimit(LimitText(before, dollar, middle, raw, after)) == JudgedAmount(whole, fraction) {
      AmountSplits(whole, point, fraction);
      assert raw[0] == if whole == "" then '.' else whole[0];
      if whole == "" && |fraction| <= 6 {
        ZeroWhole(fraction);
      }
    }
  }

  /** At most six decimals, above nothing, and at most a million dollars. */
  function JudgedAmount(whole: string, fraction: string): SpendLimit
    requires AllDigits(whole) && AllDigits(fraction)
  {
    if |fraction| > 6 then Refused(TooManyPlaces)
    else if Micros(whole, fraction) == 0 then Refused(NotPositive)
    else if Micros(whole, fraction) > 1_000_000 * 1_000_000 then Refused(TooLarge)
    else Limit(Micros(whole, fraction))
  }

  // ---------------------------------------------------------------- printed amounts

  lemma {:induction false} StrippedEnd(s: string)
    ensures StripZeros(s) == "" || StripZeros(s)[|StripZeros(s)| - 1] != '0'
  {
    if s != "" && s[|s| - 1] == '0' {
      StrippedEnd(s[..|s| - 1]);
    }
  }

  lemma {:induction false} PrintHasNoLeadingZero(n: nat)
    ensures Print(n)[0] == '0' <==> n == 0
    ensures n > 0 || Print(n) == "0"
    decreases n
  {
    if n >= 10 {
      PrintHasNoLeadingZero(n / 10);
    }
  }

  /**
   * An amount is printed with a point and two to six decimals, no more than it needs, and no leading zero that it does
   * not need; anything that is no safe amount is printed empty.
   */
  lemma PrintedCanonically(micros: Option<int>) returns (whole: string, fraction: string)
    ensures micros.Some? && 0 <= micros.value <= MAX_SAFE_INTEGER ==>
      && DollarsFromMicros(micros) == whole + "." + fraction
      && AllDigits(whole) && whole != "" && (whole[0] == '0' ==> whole == "0")
      && AllDigits(fraction) && 2 <= |fraction| <= 6 && (|fraction| > 2 ==> fraction[|fraction| - 1] != '0')
      && Micros(whole, fraction) == micros.value
    ensures !(micros.Some? && 0 <= micros.value <= MAX_SAFE_INTEGER) ==> DollarsFromMicros(micros) == ""
  {
    whole, fraction := "", "";
    if micros.Some? && 0 <= micros.value <= MAX_SAFE_INTEGER {
      whole, fraction := Printed(micros.value);
      var six := PadStart(Print(micros.value % 1_000_000), 6);
      var w, f := Print(micros.value / 1_000_000), PadEnd(StripZeros(six), 2);
      SplitAtPoint(whole, fraction);
      SplitAtPoint(w, f);
      assert w + "." + f == whole + "." + fraction;
      assert whole == w && fraction == f;
      StrippedEnd(six);
      PrintHasNoLeadingZero(micros.value / 1_000_000);
    }
  }
}
