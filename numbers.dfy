/** `parseFloat` on the strings the price clean-up produces: strings of
    decimal digits and '.'. On such a string `parseFloat` reads the longest
    prefix of the form `digits [. digits]` that holds at least one digit and
    yields NaN when there is none; NaN is `None` here. */
module Numbers {
  import opened Wrappers

  predicate IsDigit(c: char) { '0' <= c <= '9' }

  predicate AllDigits(s: string)
  {
    forall i :: 0 <= i < |s| ==> IsDigit(s[i])
  }

  /** Only digits and '.': what is left of a cost after cleaning. */
  predicate IsNumeral(s: string)
  {
    forall i :: 0 <= i < |s| ==> IsDigit(s[i]) || s[i] == '.'
  }

  function DigitValue(c: char): (d: nat)
    requires IsDigit(c)
    ensures d < 10
  {
    c as int - '0' as int
  }

  /** The longest prefix of `s` made of digits. */
  function LeadingDigits(s: string): (ds: string)
    ensures |ds| <= |s| && ds == s[..|ds|]
    ensures AllDigits(ds)
    ensures |ds| < |s| ==> !IsDigit(s[|ds|])
  {
    if s != [] && IsDigit(s[0]) then [s[0]] + LeadingDigits(s[1..]) else []
  }

  /** The value of a string of decimal digits, most significant first. */
  function Natural(ds: string): nat
    requires AllDigits(ds)
  {
    if ds == [] then 0 else 10 * Natural(ds[..|ds| - 1]) + DigitValue(ds[|ds| - 1])
  }

  /** The value of the digits after a decimal point: `0.d1 d2 ...`. */
  function Fraction(ds: string): (f: real)
    requires AllDigits(ds)
    ensures 0.0 <= f < 1.0
  {
    if ds == [] then 0.0 else (DigitValue(ds[0]) as real + Fraction(ds[1..])) / 10.0
  }

  /** `parseFloat(s)` for a string of digits and '.'; `None` is NaN. A number
      it reads is never negative. */
  function ParseFloat(s: string): (r: Option<real>)
    requires IsNumeral(s)
    ensures r.Some? ==> r.value >= 0.0
  {
    var whole := LeadingDigits(s);
    if |whole| < |s| && s[|whole|] == '.' then
      var frac := LeadingDigits(s[|whole| + 1..]);
      if whole == [] && frac == [] then None
      else Some(Natural(whole) as real + Fraction(frac))
    else if whole == [] then None
    else Some(Natural(whole) as real)
  }

  /** `parseFloat` yields NaN exactly when the string starts neither with a
      digit nor with '.' and a digit. */
  lemma ParseFloatNaN(s: string)
    requires IsNumeral(s)
    ensures ParseFloat(s).None? <==> !(|s| > 0 && IsDigit(s[0])) && !(|s| > 1 && s[0] == '.' && IsDigit(s[1]))
  {
  }

  /** Digits followed by a non-digit: the digits are the leading digits. */
  lemma {:induction false} LeadingDigitsOf(ds: string, t: string)
    requires AllDigits(ds)
    requires t == [] || !IsDigit(t[0])
    ensures LeadingDigits(ds + t) == ds
  {
    if ds != [] {
      assert (ds + t)[1..] == ds[1..] + t;
      LeadingDigitsOf(ds[1..], t);
    } else {
      assert ds + t == t;
    }
  }

  /** `parseFloat` reads `whole.frac` and ignores whatever follows it, such
      as a second decimal point: it takes the longest valid numeric prefix. */
  lemma ParseFloatPrefix(whole: string, frac: string, rest: string)
    requires AllDigits(whole) && AllDigits(frac) && |whole| + |frac| > 0
    requires IsNumeral(rest) && (rest == [] || rest[0] == '.')
    ensures IsNumeral(whole + "." + frac + rest)
    ensures ParseFloat(whole + "." + frac + rest) == Some(Natural(whole) as real + Fraction(frac))
  {
    var s := whole + "." + frac + rest;
    NumeralParts(whole, frac, rest);
    PointAfterWhole(whole, frac, rest);
    LeadingDigitsOf(frac, rest);
    ParseFloatPoint(s, whole, frac);
  }

  lemma PointAfterWhole(whole: string, frac: string, rest: string)
    requires AllDigits(whole)
    ensures LeadingDigits(whole + "." + frac + rest) == whole
    ensures (whole + "." + frac + rest)[|whole|] == '.'
    ensures (whole + "." + frac + rest)[|whole| + 1..] == frac + rest
  {
    var fr := frac + rest;
    var tail := ['.'] + fr;
    assert whole + "." + frac + rest == whole + tail;
    LeadingDigitsOf(whole, tail);
  }

  lemma NumeralParts(whole: string, frac: string, rest: string)
    requires AllDigits(whole) && AllDigits(frac) && IsNumeral(rest)
    ensures IsNumeral(whole + "." + frac + rest)
  {
    var s := whole + "." + frac + rest;
    forall i | 0 <= i < |s| ensures IsDigit(s[i]) || s[i] == '.' {
      if i < |whole| {
        assert s[i] == whole[i];
      } else if i == |whole| {
        assert s[i] == '.';
      } else if i < |whole| + 1 + |frac| {
        assert s[i] == frac[i - |whole| - 1];
      } else {
        assert s[i] == rest[i - |whole| - 1 - |frac|];
      }
    }
  }

  /** The case split of `ParseFloat` when the leading digits are followed by
      a point. */
  lemma ParseFloatPoint(s: string, whole: string, frac: string)
    requires IsNumeral(s)
    requires LeadingDigits(s) == whole && |whole| < |s| && s[|whole|] == '.'
    requires LeadingDigits(s[|whole| + 1..]) == frac && |whole| + |frac| > 0
    ensures ParseFloat(s) == Some(Natural(whole) as real + Fraction(frac))
  {
    var w := LeadingDigits(s);
    assert |w| < |s| && s[|w|] == '.';
    assert !(w == [] && LeadingDigits(s[|w| + 1..]) == []);
  }

  /** A string of digits alone reads as its value. */
  lemma ParseFloatDigits(whole: string)
    requires AllDigits(whole) && whole != []
    ensures IsNumeral(whole)
    ensures ParseFloat(whole) == Some(Natural(whole) as real)
  {
    LeadingDigitsOf(whole, "");
    assert whole + "" == whole;
  }

  /** The two cases named for the price clean-up: `"1.2.3"` reads as 1.2 and
      the empty string is NaN. */
  lemma ParseFloatExamples()
    ensures IsNumeral("1.2.3") && ParseFloat("1.2.3") == Some(1.2)
    ensures ParseFloat("") == None
  {
    ParseFloatPrefix("1", "2", ".3");
    assert "1" + "." + "2" + ".3" == "1.2.3";
    assert Natural("1") == 1;
    assert Fraction("2") == 0.2 by {
      assert "2"[1..] == "";
    }
  }
}
