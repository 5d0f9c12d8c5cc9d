/**
  JavaScript `parseFloat` applied to a regex capture of the form `[\d.]+`.
  On such text it reads the longest prefix of the shape `digits[.digits]`
  or `.digits` and yields NaN when there is none (for ".", "..5").
 */
module NumberParsing {
  import opened Common
  import opened Text

  function DigitValue(c: char): (d: nat)
    requires IsDigit(c)
    ensures d <= 9
  {
    c as int - '0' as int
  }

  /** The integer spelled by a string of decimal digits, most significant first. */
  function WholeValue(ds: string): nat
    requires AllDigits(ds)
    decreases |ds|
  {
    if ds == [] then 0 else WholeValue(ds[..|ds| - 1]) * 10 + DigitValue(ds[|ds| - 1])
  }

  /** The fraction spelled by the digits after a decimal point: always in [0, 1). */
  function FracValue(ds: string): (f: real)
    requires AllDigits(ds)
    ensures 0.0 <= f < 1.0
    decreases |ds|
  {
    if ds == [] then 0.0 else (DigitValue(ds[0]) as real + FracValue(ds[1..])) / 10.0
  }

  /**
    `parseFloat(t)` for a capture `t` of `[\d.]+`. The result is NaN exactly
    when `t` starts neither with a digit nor with a dot followed by a digit,
    and never negative otherwise (the captures admit no sign).
   */
  function ParseFloat(t: string): (r: JsNumber)
    requires AllDigitsOrDots(t)
    ensures r.NaN? <==> !((|t| > 0 && IsDigit(t[0])) || (|t| > 1 && t[0] == '.' && IsDigit(t[1])))
    ensures r.Finite? ==> r.value >= 0.0
  {
    var w := RunLength(Digits, t, 0);
    if w > 0 then
      var whole := WholeValue(t[..w]) as real;
      if w < |t| && t[w] == '.' then
        var f := RunLength(Digits, t, w + 1);
        Finite(whole + FracValue(t[w + 1..w + 1 + f]))
      else
        Finite(whole)
    else if |t| > 1 && t[0] == '.' && IsDigit(t[1]) then
      var f := RunLength(Digits, t, 1);
      Finite(FracValue(t[1..1 + f]))
    else
      NaN
  }

  /** The value of a two-digit numeral. */
  lemma TwoDigitValue(a: char, b: char)
    requires IsDigit(a) && IsDigit(b)
    ensures WholeValue([a, b]) == 10 * DigitValue(a) + DigitValue(b)
  {
    assert [a, b][..1] == [a];
    assert [a][..0] == [];
    assert WholeValue([a]) == DigitValue(a);
  }

  /** The value of a one-digit fraction. */
  lemma OneDigitFraction(c: char)
    requires IsDigit(c)
    ensures FracValue([c]) == DigitValue(c) as real / 10.0
  {
    assert [c][1..] == [];
  }

  /** A non-negative decimal numeral as the feed writes one: digits, then optionally a point and more digits. */
  datatype Decimal = Decimal(whole: string, frac: string)
  {
    predicate WellFormed() {
      |whole| > 0 && AllDigits(whole) && AllDigits(frac)
    }

    function Value(): real
      requires WellFormed()
    {
      WholeValue(whole) as real + FracValue(frac)
    }

    /** The text of the numeral: "38", "38.5". */
    function Render(): (s: string)
      requires WellFormed()
      ensures |s| > 0 && AllDigitsOrDots(s) && IsDigit(s[0])
    {
      if frac == [] then whole else whole + "." + frac
    }
  }

  /** A numeral with one digit on either side of the point: its text and its value. */
  lemma OneDigitEachSide(a: char, b: char)
    requires IsDigit(a) && IsDigit(b)
    ensures Decimal([a], [b]).WellFormed()
    ensures Decimal([a], [b]).Render() == [a, '.', b]
    ensures Decimal([a], [b]).Value() == DigitValue(a) as real + DigitValue(b) as real / 10.0
  {
    assert [a][..0] == [];
    assert WholeValue([a]) == DigitValue(a);
    assert [a] + "." + [b] == [a, '.', b];
    OneDigitFraction(b);
  }

  /** Reading back a rendered numeral gives exactly its value. */
  lemma ParseRender(d: Decimal)
    requires d.WellFormed()
    ensures ParseFloat(d.Render()) == Finite(d.Value())
  {
    if d.frac == [] {
      ParseRenderWhole(d.whole, d.frac);
    } else {
      ParseRenderFraction(d.whole, d.frac);
    }
  }

  /** A numeral without a point reads back as its whole part. */
  lemma ParseRenderWhole(whole: string, frac: string)
    requires Decimal(whole, frac).WellFormed() && frac == []
    ensures ParseFloat(Decimal(whole, frac).Render()) == Finite(Decimal(whole, frac).Value())
  {
    assert whole[0..] == whole + [];
    DigitRunAt(whole, 0, whole, []);
  }

  /** A numeral with a point reads back as its whole part plus its fraction. */
  lemma ParseRenderFraction(whole: string, frac: string)
    requires Decimal(whole, frac).WellFormed() && frac != []
    ensures ParseFloat(Decimal(whole, frac).Render()) == Finite(Decimal(whole, frac).Value())
  {
    var t := whole + "." + frac;
    var w := |whole|;
    assert t[0..] == whole + ("." + frac);
    DigitRunAt(t, 0, whole, "." + frac);
    assert t[w] == '.';
    assert t[w + 1..] == frac + [];
    DigitRunAt(t, w + 1, frac, []);
  }

  /** `parseFloat(".")` is NaN: a dot alone starts no number. */
  lemma ParseFloatOfLoneDot()
    ensures ParseFloat(".") == NaN
  {
  }

  /** `parseFloat("4.5.6")` is 4.5: reading stops at the second dot. */
  lemma ParseFloatStopsAtSecondDot(t: string)
    requires t == "4.5.6"
    ensures ParseFloat(t) == Finite(4.5)
  {
    RunLengthIs(Digits, t, 0, 1);
    RunLengthIs(Digits, t, 2, 1);
    assert t[..1] == "4";
    assert t[2..3] == "5";
    assert "4"[..0] == [];
    OneDigitFraction('5');
  }

  /** `parseFloat(".5")` is 0.5: a leading dot is allowed before a digit. */
  lemma ParseFloatLeadingDot(t: string)
    requires t == ".5"
    ensures ParseFloat(t) == Finite(0.5)
  {
    RunLengthIs(Digits, t, 1, 1);
    assert t[1..2] == "5";
    OneDigitFraction('5');
  }

  /** `parseFloat` ignores a trailing dot: "10." is 10. */
  lemma ParseFloatTrailingDot(whole: string)
    requires |whole| > 0 && AllDigits(whole)
    ensures AllDigitsOrDots(whole + ".")
    ensures ParseFloat(whole + ".") == Finite(WholeValue(whole) as real)
  {
    var t := whole + ".";
    var w := |whole|;
    assert t[0..] == whole + ".";
    DigitRunAt(t, 0, whole, ".");
    RunLengthIs(Digits, t, w + 1, 0);
    assert t[w + 1..w + 1] == [];
  }
}
