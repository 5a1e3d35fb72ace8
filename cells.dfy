/**
 * The cell values a decoded workbook hands to the parser: a number, a text,
 * or nothing (`undefined`), together with the JavaScript coercions the
 * parser applies to them: truthiness, `a || b`, and `String(x)`.
 */
module Cells {
  import opened Strings
  import opened Numbers

  /**
   * A number, held as the decimal numeral JavaScript prints for it: a sign,
   * the digits before the point and the digits after it.
   */
  datatype Decimal = Decimal(negative: bool, whole: string, frac: string)
  {
    predicate WellFormed() { AllDigits(whole) && AllDigits(frac) }

    function Value(): real
      requires WellFormed()
    {
      var v := DigitsValue(whole) as real + FractionValue(frac);
      if negative then -v else v
    }
  }

  type Number = d: Decimal | d.WellFormed() witness Decimal(false, "0", "")

  datatype Cell = Num(n: Number) | Text(s: string) | Empty

  type Row = seq<Cell>

  /** A sheet read as rows of cells (`sheet_to_json` with `header: 1`). */
  type Grid = seq<Row>

  /** A sheet read as records keyed by the header text (`sheet_to_json`). */
  type Record = map<string, Cell>

  const Zero: Cell := Num(Decimal(false, "0", ""))
  const One: Cell := Num(Decimal(false, "1", ""))
  const EmptyText: Cell := Text("")

  /** JavaScript truthiness: a number other than 0, a non-empty text. */
  predicate Truthy(c: Cell)
    ensures Truthy(c) ==> !c.Empty?
    ensures c.Text? ==> (Truthy(c) <==> c.s != "")
  {
    match c
    case Num(d) => d.Value() != 0.0
    case Text(s) => s != ""
    case Empty => false
  }

  /** `a || b`. */
  function Or(a: Cell, b: Cell): (r: Cell)
    ensures r == a || r == b
    ensures Truthy(a) ==> r == a
    ensures !Truthy(a) ==> r == b
  {
    if Truthy(a) then a else b
  }

  /** `row[j]`, which is `undefined` past the end of a row. */
  function CellAt(row: Row, j: int): Cell
  {
    if 0 <= j < |row| then row[j] else Empty
  }

  /** `row[key]`, which is `undefined` for a header the sheet does not have. */
  function Get(row: Record, key: string): Cell
  {
    if key in row then row[key] else Empty
  }

  function StripLeadingZeros(s: string): (r: string)
    ensures |r| <= |s| && r == s[|s| - |r|..]
    ensures |r| > 0 ==> r[0] != '0'
    ensures forall i :: 0 <= i < |s| - |r| ==> s[i] == '0'
  {
    if |s| > 0 && s[0] == '0' then StripLeadingZeros(s[1..]) else s
  }

  function StripTrailingZeros(s: string): (r: string)
    ensures |r| <= |s| && r == s[..|r|]
    ensures |r| > 0 ==> r[|r| - 1] != '0'
    ensures forall i :: |r| <= i < |s| ==> s[i] == '0'
  {
    if |s| > 0 && s[|s| - 1] == '0' then StripTrailingZeros(s[..|s| - 1]) else s
  }

  /**
   * `String(x)` for a number: no leading zeros before the point (but at
   * least one digit), no trailing zeros after it, no point for a whole
   * number, and no minus sign on zero.
   */
  function Show(d: Number): (r: string)
    ensures r != ""
  {
    var w := StripLeadingZeros(d.whole);
    var f := StripTrailingZeros(d.frac);
    (if d.negative && (w != "" || f != "") then "-" else "")
      + Numeral(if w == "" then "0" else w, f)
  }

  /** `String(x)` for a cell; `undefined` prints as the word itself. */
  function CellString(c: Cell): (r: string)
    ensures c.Text? ==> r == c.s
    ensures !c.Text? ==> r != ""
  {
    match c
    case Num(d) => Show(d)
    case Text(s) => s
    case Empty => "undefined"
  }

  /** Truthiness case by case: a number when it is not 0, a text when it is not empty, never `undefined`. */
  lemma TruthyCases(c: Cell)
    ensures c.Num? ==> (Truthy(c) <==> c.n.Value() != 0.0)
    ensures c.Text? ==> (Truthy(c) <==> c.s != "")
    ensures c.Empty? ==> !Truthy(c)
  {
  }

  /** `String(x)` case by case: a number prints as its numeral, a text as itself, `undefined` as the word. */
  lemma CellStringCases(c: Cell)
    ensures c.Num? ==> CellString(c) == Show(c.n)
    ensures c.Text? ==> CellString(c) == c.s
    ensures c.Empty? ==> CellString(c) == "undefined"
  {
  }

  // ---------------------------------------------------------------------
  // What the numeral of a number reads back as

  lemma {:induction false} StripLeadingZerosValue(s: string)
    requires AllDigits(s)
    ensures AllDigits(StripLeadingZeros(s))
    ensures DigitsValue(StripLeadingZeros(s)) == DigitsValue(s)
  {
    if |s| > 0 && s[0] == '0' {
      StripLeadingZerosValue(s[1..]);
      assert s == "0" + s[1..];
      LeadingZeroValue(s[1..]);
    }
  }

  lemma {:induction false} StripTrailingZerosValue(s: string)
    requires AllDigits(s)
    ensures AllDigits(StripTrailingZeros(s))
    ensures FractionValue(StripTrailingZeros(s)) == FractionValue(s)
  {
    if |s| > 0 && s[|s| - 1] == '0' {
      var s' := s[..|s| - 1];
      StripTrailingZerosValue(s');
      assert s == s' + "0";
      TrailingZeroFraction(s');
    }
  }

  /** The numeral of a number keeps its magnitude, split into whole and fraction parts. */
  lemma ShowParts(d: Number) returns (w: string, f: string)
    ensures AllDigits(w) && AllDigits(f) && w != ""
    ensures DigitsValue(w) == DigitsValue(d.whole)
    ensures FractionValue(f) == FractionValue(d.frac)
    ensures Show(d) == Numeral(w, f) || Show(d) == "-" + Numeral(w, f)
    ensures !d.negative ==> Show(d) == Numeral(w, f)
  {
    var w0 := StripLeadingZeros(d.whole);
    f := StripTrailingZeros(d.frac);
    w := if w0 == "" then "0" else w0;
    StripLeadingZerosValue(d.whole);
    StripTrailingZerosValue(d.frac);
    if w0 == "" {
      assert DigitsValue("0") == 0 by { assert "0"[..0] == ""; }
    }
    if d.negative && (w0 != "" || f != "") {
      assert Show(d) == "-" + Numeral(w, f);
    } else {
      assert Show(d) == "" + Numeral(w, f);
    }
  }
}
