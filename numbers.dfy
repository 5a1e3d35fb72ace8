/**
 * Decimal digits, JavaScript's `parseFloat` and `parseInt` over the plain
 * decimal grammar (leading white space, an optional sign, digits with an
 * optional fraction), and the decimal text `String(x)` gives a number.
 */
module Numbers {
  import opened Wrappers
  import opened Strings

  predicate AllDigits(s: string)
  {
    forall i :: 0 <= i < |s| ==> IsDigit(s[i])
  }

  function DigitVal(c: char): nat
    requires IsDigit(c)
  {
    c as int - '0' as int
  }

  /** Length of the longest run of digits at the start of `s`. */
  function DigitRun(s: string): (n: nat)
    ensures n <= |s| && AllDigits(s[..n])
    ensures n < |s| ==> !IsDigit(s[n])
  {
    if |s| > 0 && IsDigit(s[0]) then 1 + DigitRun(s[1..]) else 0
  }

  /** The number a string of decimal digits denotes, most significant digit first. */
  function DigitsValue(s: string): nat
    requires AllDigits(s)
  {
    if s == [] then 0 else 10 * DigitsValue(s[..|s| - 1]) + DigitVal(s[|s| - 1])
  }

  /** The value of the digits `f` written after a decimal point, first digit worth a tenth. */
  function FractionValue(f: string): real
    requires AllDigits(f)
  {
    if f == [] then 0.0 else (DigitVal(f[0]) as real + FractionValue(f[1..])) / 10.0
  }

  /** A sign read off the front of a numeral. */
  datatype Signed = Signed(negative: bool, body: string)

  function SplitSign(s: string): Signed
  {
    if |s| > 0 && s[0] == '-' then Signed(true, s[1..])
    else if |s| > 0 && s[0] == '+' then Signed(false, s[1..])
    else Signed(false, s)
  }

  /** The fractional digits after a point that directly follows the integer digits. */
  function Fraction(u: string, a: nat): (f: string)
    requires a <= |u|
    ensures AllDigits(f)
  {
    if a < |u| && u[a] == '.' then u[a + 1..][..DigitRun(u[a + 1..])] else ""
  }

  /**
   * `parseFloat`: the longest numeral at the start of `s` after leading white
   * space; `None` stands for NaN (no digit at all).
   */
  function ParseFloat(s: string): (r: Option<real>)
    ensures r.Some? && r.value < 0.0 ==> SplitSign(TrimStart(s)).negative
  {
    var t := SplitSign(TrimStart(s));
    match UnsignedFloat(t.body)
    case None => None
    case Some(v) => Some(if t.negative then -v else v)
  }

  /** The unsigned numeral `digits [. digits]` at the start of `u`, if any. */
  function UnsignedFloat(u: string): (r: Option<real>)
    ensures r.Some? ==> r.value >= 0.0
  {
    var a := DigitRun(u);
    var f := Fraction(u, a);
    FractionValueRange(f);
    if a == 0 && f == "" then None
    else if f == "" then Some(DigitsValue(u[..a]) as real)
    else Some(DigitsValue(u[..a]) as real + FractionValue(f))
  }

  /** `parseInt` with no radix: the integer numeral at the start of `s`; `None` is NaN. */
  function ParseInt(s: string): (r: Option<int>)
    ensures r.Some? && r.value < 0 ==> SplitSign(TrimStart(s)).negative
    ensures r.Some? ==> ParseFloat(s).Some?
  {
    var t := SplitSign(TrimStart(s));
    match UnsignedInt(t.body)
    case None => None
    case Some(v) => Some(if t.negative then -(v as int) else v)
  }

  /** The unsigned integer numeral at the start of `u`, if any. */
  function UnsignedInt(u: string): (r: Option<nat>)
    ensures r.Some? ==> UnsignedFloat(u).Some?
    ensures r.Some? ==> r.value as real <= UnsignedFloat(u).value < r.value as real + 1.0
  {
    FractionValueRange(Fraction(u, DigitRun(u)));
    var a := DigitRun(u);
    if a == 0 then None else Some(DigitsValue(u[..a]))
  }

  // ---------------------------------------------------------------------
  // Digit strings

  /** A digit run stops at the first character that is not a digit. */
  lemma {:induction false} DigitRunOfDigits(a: string, rest: string)
    requires AllDigits(a)
    requires rest == [] || !IsDigit(rest[0])
    ensures DigitRun(a + rest) == |a|
  {
    if a != [] {
      assert (a + rest)[1..] == a[1..] + rest;
      DigitRunOfDigits(a[1..], rest);
    } else {
      assert a + rest == rest;
    }
  }

  /** Leading zeros do not change the number a digit string denotes. */
  lemma {:induction false} LeadingZeroValue(s: string)
    requires AllDigits(s)
    ensures AllDigits("0" + s) && DigitsValue("0" + s) == DigitsValue(s)
  {
    if s != [] {
      var s' := s[..|s| - 1];
      assert ("0" + s)[..|s|] == "0" + s';
      LeadingZeroValue(s');
    }
  }

  /** A fraction's value is unchanged by a trailing zero digit. */
  lemma {:induction false} TrailingZeroFraction(s: string)
    requires AllDigits(s)
    ensures AllDigits(s + "0")
    ensures FractionValue(s + "0") == FractionValue(s)
  {
    if s == [] {
      assert s + "0" == "0" && "0"[1..] == [];
    } else {
      assert (s + "0")[1..] == s[1..] + "0";
      TrailingZeroFraction(s[1..]);
    }
  }

  /** A fraction is worth at least nothing and less than one. */
  lemma {:induction false} FractionValueRange(f: string)
    requires AllDigits(f)
    ensures 0.0 <= FractionValue(f) < 1.0
  {
    if f != [] {
      FractionValueRange(f[1..]);
    }
  }

  /** Text made of digits and points carries no sign, so `parseFloat` reads it as a non-negative number. */
  lemma ParseFloatNonNegative(s: string)
    requires forall i :: 0 <= i < |s| ==> IsDigit(s[i]) || s[i] == '.'
    ensures ParseFloat(s).Some? ==> ParseFloat(s).value >= 0.0
  {
    Unsigned(s);
  }

  /** The text of a numeral with `w` before the point and `f` after it. */
  function Numeral(w: string, f: string): string
  {
    w + (if f == "" then "" else "." + f)
  }

  /** A text that starts with a digit is read as it stands, with no sign. */
  lemma DigitFirst(s: string)
    requires |s| > 0 && IsDigit(s[0])
    ensures ParseFloat(s) == UnsignedFloat(s)
    ensures ParseInt(s) == UnsignedInt(s)
  {
    Unsigned(s);
    match UnsignedFloat(s)
    case None =>
    case Some(v) =>
  }

  /** Nothing is taken off a text that starts with neither white space nor a sign. */
  lemma Unsigned(s: string)
    requires s == [] || (!IsSpace(s[0]) && s[0] != '-' && s[0] != '+')
    ensures SplitSign(TrimStart(s)) == Signed(false, s)
  {
    assert TrimStart(s) == s;
  }

  lemma NumeralFraction(w: string, f: string)
    requires AllDigits(w) && AllDigits(f)
    ensures DigitRun(Numeral(w, f)) == |w|
    ensures Numeral(w, f)[..|w|] == w
    ensures Fraction(Numeral(w, f), |w|) == f
  {
    var s := Numeral(w, f);
    var rest := if f == "" then "" else "." + f;
    assert s == w + rest;
    DigitRunOfDigits(w, rest);
    if f != "" {
      assert s[|w|] == '.';
      assert s[|w| + 1..] == f;
      DigitRunOfDigits(f, "");
      assert f + "" == f;
      assert f[..|f|] == f;
    } else {
      assert s == w;
    }
  }

  /** `parseFloat` reads a plain numeral with a fraction back as the number it denotes. */
  lemma ParseFloatNumeral(w: string, f: string)
    requires AllDigits(w) && AllDigits(f) && w != "" && f != ""
    ensures ParseFloat(Numeral(w, f))
         == Some(DigitsValue(w) as real + FractionValue(f))
  {
    var s := Numeral(w, f);
    NumeralFraction(w, f);
    UnsignedFloatParts(s, w, f);
    assert s[0] == w[0];
    DigitFirst(s);
  }

  lemma UnsignedFloatParts(s: string, w: string, f: string)
    requires AllDigits(w) && AllDigits(f) && w != "" && f != ""
    requires DigitRun(s) == |w| && s[..|w|] == w && Fraction(s, |w|) == f
    ensures UnsignedFloat(s) == Some(DigitsValue(w) as real + FractionValue(f))
  {
    var a := DigitRun(s);
    var fr := Fraction(s, a);
    assert a == |w| && fr == f && s[..a] == w;
    assert fr != "";
  }

  /** `parseFloat` reads a plain run of digits as the whole number it denotes. */
  lemma ParseFloatDigits(s: string)
    requires AllDigits(s) && |s| > 0
    ensures ParseFloat(s) == Some(DigitsValue(s) as real)
  {
    DigitRunOfDigits(s, []);
    assert s + [] == s && s[..|s|] == s;
    DigitFirst(s);
  }

  /** A numeral is made of digits and at most one point. */
  lemma NumeralChars(w: string, f: string)
    requires AllDigits(w) && AllDigits(f)
    ensures var s := Numeral(w, f);
      forall i :: 0 <= i < |s| ==> IsDigit(s[i]) || s[i] == '.'
  {
    var s := Numeral(w, f);
    forall i | 0 <= i < |s| ensures IsDigit(s[i]) || s[i] == '.' {
      if i < |w| {
        assert s[i] == w[i];
      } else if i > |w| {
        assert s[i] == f[i - |w| - 1];
      }
    }
  }

  /** `parseFloat` reads any plain numeral back as the number it denotes. */
  lemma ParseFloatAnyNumeral(w: string, f: string)
    requires AllDigits(w) && AllDigits(f) && w != ""
    ensures ParseFloat(Numeral(w, f)) == Some(DigitsValue(w) as real + FractionValue(f))
  {
    if f == "" {
      ParseFloatDigits(Numeral(w, f));
    } else {
      ParseFloatNumeral(w, f);
    }
  }

  /** `parseInt` of a numeral stops at the point and keeps the whole digits. */
  lemma ParseIntNumeral(w: string, f: string)
    requires AllDigits(w) && AllDigits(f) && w != ""
    ensures ParseInt(Numeral(w, f)) == Some(DigitsValue(w))
  {
    var s := Numeral(w, f);
    NumeralFraction(w, f);
    assert s[0] == w[0];
    DigitFirst(s);
    assert UnsignedInt(s) == Some(DigitsValue(w));
  }
}
