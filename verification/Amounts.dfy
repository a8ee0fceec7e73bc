/** Decimal amount strings and integer minor units, digit by digit. */
module Amounts {
  import opened Common
  import opened Text

  predicate AllDigits(s: string) {
    forall i :: 0 <= i < |s| ==> IsDigit(s[i])
  }

  function Digit(c: char): nat
    requires IsDigit(c)
  {
    c as int - '0' as int
  }

  function Value(digits: string): nat
    requires AllDigits(digits)
  {
    if digits == "" then 0 else 10 * Value(digits[..|digits| - 1]) + Digit(digits[|digits| - 1])
  }

  function DigitChar(d: nat): char
    requires d < 10
  {
    (d + '0' as int) as char
  }

  // BigInt.prototype.toString.
  function ToDecimal(n: nat): string {
    if n < 10 then [DigitChar(n)] else ToDecimal(n / 10) + [DigitChar(n % 10)]
  }

  function Pow10(k: nat): nat {
    if k == 0 then 1 else 10 * Pow10(k - 1)
  }

  function PadEnd(s: string, width: nat): string
    decreases width - |s|
  {
    if |s| >= width then s else PadEnd(s + "0", width)
  }

  // ^(\d+)(?:\.(\d{1,places}))?$
  predicate Accepted(s: string, places: nat) {
    var k := IndexOf(s, '.');
    && 1 <= k && AllDigits(s[..k])
    && (k == |s| || (1 <= |s| - k - 1 <= places && AllDigits(s[k + 1..])))
  }

  function Whole(s: string): string {
    s[..IndexOf(s, '.')]
  }

  function Fraction(s: string): string {
    var k := IndexOf(s, '.');
    if k == |s| then "" else s[k + 1..]
  }

  function ParseFixed(s: string, places: nat): Option<nat> {
    if Accepted(s, places)
    then
      PadDigits(Fraction(s), places);
      Some(Value(Whole(s)) * Pow10(places) + Value(PadEnd(Fraction(s), places)))
    else None
  }

  // None is the thrown error.
  function DecimalStringToMinorUnits(amount: string): Option<nat> {
    ParseFixed(Trim(amount), 2)
  }

  function Pad2(n: nat): string
    requires n < 100
  {
    [DigitChar(n / 10), DigitChar(n % 10)]
  }

  function MinorUnitsToDecimalString(minor: nat): string {
    if minor % 100 == 0 then ToDecimal(minor / 100) else ToDecimal(minor / 100) + "." + Pad2(minor % 100)
  }

  // -------------------------------------------------------------------- lemmas

  lemma {:induction false} PadDigits(s: string, width: nat)
    requires AllDigits(s)
    ensures AllDigits(PadEnd(s, width))
    ensures |s| <= width ==> |PadEnd(s, width)| == width
    ensures |s| <= width ==> Value(PadEnd(s, width)) == Value(s) * Pow10(width - |s|)
    decreases width - |s|
  {
    if |s| < width {
      PadDigits(s + "0", width);
      assert (s + "0")[..|s|] == s;
      assert Value(s + "0") == 10 * Value(s);
      Shift(Value(s), width - |s|);
    }
  }

  lemma Shift(v: nat, k: nat)
    requires k > 0
    ensures (10 * v) * Pow10(k - 1) == v * Pow10(k)
  {
    assert Pow10(k) == 10 * Pow10(k - 1);
    assert (10 * v) * Pow10(k - 1) == v * (10 * Pow10(k - 1));
  }

  lemma {:induction false} ToDecimalValue(n: nat)
    ensures AllDigits(ToDecimal(n)) && |ToDecimal(n)| >= 1 && Value(ToDecimal(n)) == n
    ensures ToDecimal(n)[0] == '0' ==> n == 0
  {
    if n < 10 {
      assert ToDecimal(n)[..0] == "";
    } else {
      ToDecimalValue(n / 10);
      var rest := ToDecimal(n / 10);
      assert ToDecimal(n)[..|rest|] == rest;
    }
  }

  predicate NoLeadingZero(digits: string) {
    digits == "0" || (digits != "" && digits[0] != '0')
  }

  lemma {:induction false} PositiveValue(digits: string)
    requires AllDigits(digits) && digits != "" && digits[0] != '0'
    ensures Value(digits) > 0
  {
    if |digits| > 1 {
      PositiveValue(digits[..|digits| - 1]);
    }
  }

  lemma {:induction false} DecimalOfCanonical(digits: string)
    requires AllDigits(digits) && NoLeadingZero(digits)
    ensures ToDecimal(Value(digits)) == digits
  {
    var init, last := digits[..|digits| - 1], digits[|digits| - 1];
    assert DigitChar(Digit(last)) == last;
    assert digits == init + [last];
    if init != "" {
      DecimalOfCanonical(init);
      PositiveValue(init);
    } else {
      assert Value(digits) == Digit(last);
    }
  }

  // Printing a digit string's value gives the string back exactly when it has no leading zero.
  lemma DecimalOfValue(digits: string)
    requires AllDigits(digits) && digits != ""
    ensures ToDecimal(Value(digits)) == digits <==> NoLeadingZero(digits)
  {
    if NoLeadingZero(digits) {
      DecimalOfCanonical(digits);
    } else {
      ToDecimalValue(Value(digits));
    }
  }

  // A printed number splits back into the parts it was printed from.
  lemma SplitPrinted(whole: string, fraction: string, places: nat)
    requires AllDigits(whole) && whole != "" && AllDigits(fraction) && 1 <= |fraction| <= places
    ensures Accepted(whole + "." + fraction, places)
    ensures Whole(whole + "." + fraction) == whole && Fraction(whole + "." + fraction) == fraction
  {
    var s := whole + "." + fraction;
    assert s[..|whole|] == whole && s[|whole|] == '.';
    forall i | 0 <= i < |whole|
      ensures whole[i] != '.'
    {
      assert IsDigit(whole[i]);
    }
    IndexOfIs(s, '.', |whole|);
    assert s[|whole| + 1..] == fraction;
  }

  lemma WholeOnly(whole: string, places: nat)
    requires AllDigits(whole) && whole != ""
    ensures Accepted(whole, places) && Whole(whole) == whole && Fraction(whole) == ""
  {}

  lemma DigitsAreTrimmed(s: string)
    requires s != "" && IsDigit(s[0]) && IsDigit(s[|s| - 1])
    ensures Trim(s) == s
  {
    TrimTrims(s);
  }

  lemma Pad2Value(n: nat)
    requires n < 100
    ensures AllDigits(Pad2(n)) && Value(Pad2(n)) == n
  {
    assert Pad2(n)[..1] == [DigitChar(n / 10)];
    assert Value([DigitChar(n / 10)]) == n / 10 by {
      assert [DigitChar(n / 10)][..0] == "";
    }
  }

  // A two-digit fraction printed after a whole number, as toFixed(2) does.
  function ToFixed2(minor: nat): string {
    ToDecimal(minor / 100) + "." + Pad2(minor % 100)
  }

  lemma ParsePrinted(whole: nat, fraction: string, places: nat)
    requires AllDigits(fraction) && 1 <= |fraction| <= places
    ensures ParseFixed(ToDecimal(whole) + "." + fraction, places) ==
            Some(whole * Pow10(places) + Value(fraction) * Pow10(places - |fraction|))
  {
    ToDecimalValue(whole);
    SplitPrinted(ToDecimal(whole), fraction, places);
    PadDigits(fraction, places);
  }

  lemma Powers()
    ensures Pow10(0) == 1 && Pow10(1) == 10 && Pow10(2) == 100 && Pow10(4) == 10_000 && Pow10(6) == 1_000_000
  {
    assert Pow10(1) == 10;
    assert Pow10(3) == 1_000;
    assert Pow10(5) == 100_000;
  }

  lemma WholeParses(digits: string)
    requires AllDigits(digits) && digits != ""
    ensures ParseFixed(digits, 2) == Some(Value(digits) * 100)
  {
    Powers();
    WholeOnly(digits, 2);
    PadDigits("", 2);
  }

  lemma FractionParses(whole: nat, fraction: string)
    requires AllDigits(fraction) && |fraction| == 2
    ensures ParseFixed(ToDecimal(whole) + "." + fraction, 2) == Some(whole * 100 + Value(fraction))
  {
    ToDecimalValue(whole);
    SplitPrinted(ToDecimal(whole), fraction, 2);
    assert PadEnd(fraction, 2) == fraction;
    Powers();
  }

  lemma PrintedParses(minor: nat)
    ensures ParseFixed(MinorUnitsToDecimalString(minor), 2) == Some(minor)
  {
    if minor % 100 == 0 {
      ToDecimalValue(minor / 100);
      WholeParses(ToDecimal(minor / 100));
    } else {
      Pad2Value(minor % 100);
      FractionParses(minor / 100, Pad2(minor % 100));
    }
  }

  lemma PrintedIsTrimmed(minor: nat)
    ensures Trim(MinorUnitsToDecimalString(minor)) == MinorUnitsToDecimalString(minor)
  {
    ToDecimalValue(minor / 100);
    Pad2Value(minor % 100);
    DigitsAreTrimmed(MinorUnitsToDecimalString(minor));
  }

  /** Parsing what is printed gives back every amount. */
  lemma MinorUnitsRoundTrip(minor: nat)
    ensures DecimalStringToMinorUnits(MinorUnitsToDecimalString(minor)) == Some(minor)
  {
    PrintedIsTrimmed(minor);
    PrintedParses(minor);
  }

  // What an accepted amount means as a number.
  ghost function Denotes(s: string): real
    requires Accepted(s, 2)
  {
    Value(Whole(s)) as real + Value(Fraction(s)) as real / Pow10(|Fraction(s)|) as real
  }

  /** An accepted string denotes exactly the minor units it parses to, and so does what is printed for them. */
  lemma ParseKeepsTheValue(amount: string)
    requires DecimalStringToMinorUnits(amount).Some?
    ensures var minor := DecimalStringToMinorUnits(amount).value;
      && Accepted(Trim(amount), 2)
      && Denotes(Trim(amount)) * 100.0 == minor as real
      && Accepted(MinorUnitsToDecimalString(minor), 2)
      && Denotes(MinorUnitsToDecimalString(minor)) == Denotes(Trim(amount))
  {
    var minor := DecimalStringToMinorUnits(amount).value;
    DenotesParsed(Trim(amount));
    PrintedParses(minor);
    DenotesParsed(MinorUnitsToDecimalString(minor));
  }

  lemma DenotesParsed(s: string)
    requires Accepted(s, 2)
    ensures ParseFixed(s, 2).Some? && Denotes(s) * 100.0 == ParseFixed(s, 2).value as real
  {
    PadDigits(Fraction(s), 2);
    Powers();
    var w, f := Value(Whole(s)), Value(Fraction(s));
    assert |Fraction(s)| == 0 || |Fraction(s)| == 1 || |Fraction(s)| == 2;
    assert |Fraction(s)| == 0 ==> f == 0;
  }

  // Untrimmed text, leading zeros, a one-digit fraction and ".00" are what printing changes.
  predicate Canonical(amount: string) {
    && Trim(amount) == amount
    && Accepted(amount, 2)
    && NoLeadingZero(Whole(amount))
    && (IndexOf(amount, '.') == |amount| || (|Fraction(amount)| == 2 && Fraction(amount) != "00"))
  }

  lemma Hundreds(w: nat, f: nat)
    requires f < 100
    ensures (w * 100 + f) / 100 == w && (w * 100 + f) % 100 == f
  {}

  lemma CanonicalFractionPrints(digits: string, f: string)
    requires AllDigits(digits) && NoLeadingZero(digits) && AllDigits(f) && |f| == 2 && f != "00"
    ensures ParseFixed(digits + "." + f, 2).Some?
        && MinorUnitsToDecimalString(ParseFixed(digits + "." + f, 2).value) == digits + "." + f
  {
    DecimalOfValue(digits);
    FractionParses(Value(digits), f);
    CanonicalFraction(f);
    Hundreds(Value(digits), Value(f));
  }

  lemma CanonicalPrints(amount: string)
    requires Canonical(amount)
    ensures ParseFixed(amount, 2).Some? && MinorUnitsToDecimalString(ParseFixed(amount, 2).value) == amount
  {
    var digits, f := Whole(amount), Fraction(amount);
    if IndexOf(amount, '.') < |amount| {
      assert amount == digits + "." + f;
      CanonicalFractionPrints(digits, f);
    } else {
      assert amount == digits;
      DecimalOfValue(digits);
      WholeParses(digits);
      Hundreds(Value(digits), 0);
    }
  }

  /** Printing the parse gives the same text back exactly for canonical amounts. */
  lemma PrintParseIffCanonical(amount: string)
    requires DecimalStringToMinorUnits(amount).Some?
    ensures MinorUnitsToDecimalString(DecimalStringToMinorUnits(amount).value) == amount <==> Canonical(amount)
  {
    PrintedIsCanonical(DecimalStringToMinorUnits(amount).value);
    if Canonical(amount) {
      CanonicalPrints(amount);
    }
  }

  lemma PrintedIsCanonical(minor: nat)
    ensures Canonical(MinorUnitsToDecimalString(minor))
  {
    var printed := MinorUnitsToDecimalString(minor);
    ToDecimalValue(minor / 100);
    Pad2Value(minor % 100);
    PrintedIsTrimmed(minor);
    DecimalOfValue(ToDecimal(minor / 100));
    if minor % 100 == 0 {
      WholeOnly(printed, 2);
    } else {
      SplitPrinted(ToDecimal(minor / 100), Pad2(minor % 100), 2);
      CanonicalFraction(Pad2(minor % 100));
    }
  }

  lemma CanonicalFraction(fraction: string)
    requires AllDigits(fraction) && |fraction| == 2
    ensures Value(fraction) < 100 && Pad2(Value(fraction)) == fraction
    ensures fraction == "00" <==> Value(fraction) == 0
  {
    assert fraction[..1] == [fraction[0]] && fraction[..1][..0] == "";
    assert Value(fraction[..1]) == Digit(fraction[0]);
  }

  // ------------------------------------------------------------- what is accepted

  predicate Figures(s: string) {
    forall i :: 0 <= i < |s| ==> '0' <= s[i] <= '9'
  }

  /** One or more figures, and then nothing, or a point and one to `places` more. */
  lemma AcceptedMeans(s: string, places: nat)
    ensures Accepted(s, places) <==>
            || (s != "" && Figures(s))
            || exists whole, fraction :: whole != "" && Figures(whole) && Figures(fraction)
                 && 1 <= |fraction| <= places && s == whole + "." + fraction
  {
    var k := IndexOf(s, '.');
    if Accepted(s, places) {
      if k == |s| {
        assert s[..k] == s;
      } else {
        assert s == s[..k] + "." + s[k + 1..];
      }
    }
    if s != "" && Figures(s) {
      assert '.' !in s;
      WholeOnly(s, places);
    }
    if whole, fraction :| whole != "" && Figures(whole) && Figures(fraction)
                          && 1 <= |fraction| <= places && s == whole + "." + fraction {
      SplitPrinted(whole, fraction, places);
    }
  }

  /** Figures are read and printed in base ten, and a limit is printed to the cent. */
  lemma BaseTen()
    ensures Value("1907") == 1907 && ToFixed2(5) == "0.05" && ToFixed2(1250) == "12.50"
  {
    ValueOf("", '1', 0);
    assert "" + ['1'] == "1";
    ValueOf("1", '9', 1);
    assert "1" + ['9'] == "19";
    ValueOf("19", '0', 19);
    assert "19" + ['0'] == "190";
    ValueOf("190", '7', 190);
    assert "190" + ['7'] == "1907";
    assert ToDecimal(12) == "12";
  }

  lemma ValueOf(digits: string, last: char, value: nat)
    requires AllDigits(digits) && IsDigit(last) && Value(digits) == value
    ensures AllDigits(digits + [last]) && Value(digits + [last]) == 10 * value + (last as int - '0' as int)
  {
    assert (digits + [last])[..|digits|] == digits;
  }
}
