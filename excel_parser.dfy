/**
 * The spreadsheet normaliser (utils/excelParser.ts): the currency-cell
 * reader, the status classifier, and the three sheet ingestors, each taking
 * the already-decoded sheet as its input.
 */
module ExcelParser {
  import opened Wrappers
  import opened Strings
  import opened Numbers
  import opened Cells
  import opened Types
  import opened Seqs

  datatype ImportError =
    | StatusNotText          // `status?.toLowerCase` is not a function on a number
    | CostHeaderNotFound(sample: Grid)   // the first five rows, for the operator

  // =====================================================================
  // parseIDR

  /** `replace(/Rp/gi, '')`: drops each "Rp", in any case, scanning left to right. */
  function RemoveRp(s: string): (r: string)
    ensures |r| <= |s|
  {
    if |s| >= 2 && LowerChar(s[0]) == 'r' && LowerChar(s[1]) == 'p' then RemoveRp(s[2..])
    else if s == [] then []
    else [s[0]] + RemoveRp(s[1..])
  }

  /** "Rp" in any of its four spellings, as the case-insensitive pattern matches it. */
  predicate IsRpTag(t: string)
  {
    |t| == 2 && LowerChar(t[0]) == 'r' && LowerChar(t[1]) == 'p'
  }

  /** Each spelling of the tag is removed whole, whatever follows it. */
  lemma RemoveRpTag(t: string, b: string)
    requires IsRpTag(t)
    ensures RemoveRp(t) == ""
    ensures RemoveRp(t + b) == RemoveRp(b)
  {
    assert (t + b)[2..] == b;
    assert t[2..] == "";
  }

  /**
   * Removal works piece by piece: text that does not end in an `r` or `R`
   * cannot start a tag with what follows it.
   */
  lemma {:induction false} RemoveRpAppend(a: string, b: string)
    requires a == [] || LowerChar(a[|a| - 1]) != 'r'
    ensures RemoveRp(a + b) == RemoveRp(a) + RemoveRp(b)
  {
    if a == [] {
      assert a + b == b;
    } else if |a| >= 2 && LowerChar(a[0]) == 'r' && LowerChar(a[1]) == 'p' {
      assert (a + b)[2..] == a[2..] + b;
      RemoveRpAppend(a[2..], b);
    } else {
      assert (a + b)[1..] == a[1..] + b;
      if |a| == 1 {
        assert LowerChar(a[0]) != 'r';
        assert a[1..] == [];
      } else {
        assert (a + b)[0] == a[0] && (a + b)[1] == a[1];
      }
      RemoveRpAppend(a[1..], b);
    }
  }

  /** `replace(',', '.')`: the first comma, and only it, becomes a point. */
  function ReplaceFirstComma(s: string): (r: string)
    ensures |r| == |s|
    ensures forall j :: 0 <= j < |s| ==> r[j] == (if j == IndexOf(s, ',') then '.' else s[j])
  {
    if s == [] then []
    else if s[0] == ',' then "." + s[1..]
    else [s[0]] + ReplaceFirstComma(s[1..])
  }

  /** The text `parseFloat` sees: trimmed, "Rp" and white space gone, every point gone, first comma a point. */
  function CleanAmount(s: string): string
  {
    ReplaceFirstComma(Drop(RemoveSpaces(RemoveRp(Trim(s))), Point))
  }

  /**
   * `parseIDR`: a number cell as it is; nothing or the empty text is 0; any
   * other text is cleaned and read by `parseFloat`, and is 0 when no number
   * can be read from it. It never fails.
   */
  function ParseIDR(c: Cell): (r: real)
    ensures c.Num? ==> r == c.n.Value()
    ensures c == Empty || c == EmptyText ==> r == 0.0
    ensures c.Text? && c.s != "" && ParseFloat(CleanAmount(c.s)).Some? ==> r == ParseFloat(CleanAmount(c.s)).value
    ensures c.Text? && c.s != "" && ParseFloat(CleanAmount(c.s)).None? ==> r == 0.0
  {
    match c
    case Num(d) => d.Value()
    case Empty => 0.0
    case Text(s) =>
      if s == "" then 0.0
      else match ParseFloat(CleanAmount(s))
        case None => 0.0
        case Some(v) => v
  }

  /** After cleaning there is no white space and at most one point, where the first comma was. */
  lemma CleanAmountShape(s: string)
    ensures forall i :: 0 <= i < |CleanAmount(s)| ==> !IsSpace(CleanAmount(s)[i])
    ensures forall i, j :: 0 <= i < j < |CleanAmount(s)| && CleanAmount(s)[i] == '.' ==>
              CleanAmount(s)[j] != '.'
  {
    var x := RemoveSpaces(RemoveRp(Trim(s)));
    var y := Drop(x, Point);
    var z := ReplaceFirstComma(y);
    forall i | 0 <= i < |z| ensures !IsSpace(z[i]) {
      assert y[i] in x;
    }
    forall i, j | 0 <= i < j < |z| && z[i] == '.' ensures z[j] != '.' {
      assert y[i] != '.' && y[j] != '.';
    }
  }

  /** Text written with thousands separators: the parts joined by points. */
  function Dotted(parts: seq<string>): string
    requires |parts| > 0
  {
    if |parts| == 1 then parts[0] else Dotted(parts[..|parts| - 1]) + "." + parts[|parts| - 1]
  }

  predicate AllDigitParts(parts: seq<string>)
  {
    forall k :: 0 <= k < |parts| ==> AllDigits(parts[k])
  }

  /** The parts written together, without separators. */
  function Joined(parts: seq<string>): (r: string)
    ensures AllDigitParts(parts) ==> AllDigits(r)
  {
    if parts == [] then "" else Joined(parts[..|parts| - 1]) + parts[|parts| - 1]
  }

  predicate DigitsOrDots(s: string)
  {
    forall i :: 0 <= i < |s| ==> IsDigit(s[i]) || s[i] == '.'
  }

  lemma {:induction false} DottedShape(parts: seq<string>)
    requires |parts| > 0 && AllDigitParts(parts)
    ensures DigitsOrDots(Dotted(parts))
    ensures Drop(Dotted(parts), Point) == Joined(parts)
  {
    DottedChars(parts);
    DottedDrop(parts);
  }

  lemma {:induction false} DottedChars(parts: seq<string>)
    requires |parts| > 0 && AllDigitParts(parts)
    ensures DigitsOrDots(Dotted(parts))
  {
    if |parts| > 1 {
      var init, last := parts[..|parts| - 1], parts[|parts| - 1];
      DottedChars(init);
      var d := Dotted(init);
      assert AllDigits(last);
      var z := Dotted(parts);
      assert z == d + ("." + last);
      forall i | 0 <= i < |z| ensures IsDigit(z[i]) || z[i] == '.' {
        if i < |d| {
          assert z[i] == d[i];
        } else if i > |d| {
          assert z[i] == last[i - |d| - 1];
        }
      }
    }
  }

  lemma {:induction false} DottedDrop(parts: seq<string>)
    requires |parts| > 0 && AllDigitParts(parts)
    ensures Drop(Dotted(parts), Point) == Joined(parts)
  {
    if |parts| == 1 {
      assert Joined(parts) == Joined([]) + parts[0];
      assert "" + parts[0] == parts[0];
    } else {
      var init, last := parts[..|parts| - 1], parts[|parts| - 1];
      DottedDrop(init);
      var d := Dotted(init);
      assert Dotted(parts) == d + ("." + last);
      DropAppend(d, "." + last, Point);
      DropAppend(".", last, Point);
      assert Drop(".", Point) == "";
      assert "" + last == last;
    }
  }

  lemma {:induction false} DottedStart(parts: seq<string>)
    requires |parts| > 0 && parts[0] != ""
    ensures |Dotted(parts)| > 0 && Dotted(parts)[0] == parts[0][0]
  {
    if |parts| > 1 {
      DottedStart(parts[..|parts| - 1]);
    }
  }

  lemma {:induction false} JoinedStart(parts: seq<string>)
    requires |parts| > 0 && parts[0] != ""
    ensures |Joined(parts)| > 0
  {
    if |parts| > 1 {
      JoinedStart(parts[..|parts| - 1]);
    } else {
      assert Joined(parts) == Joined([]) + parts[0];
    }
  }

  lemma {:induction false} RemoveRpWithoutR(s: string)
    requires forall i :: 0 <= i < |s| ==> LowerChar(s[i]) != 'r'
    ensures RemoveRp(s) == s
  {
    if s != [] {
      RemoveRpWithoutR(s[1..]);
    }
  }

  lemma TrimUnspaced(s: string)
    requires |s| > 0 && !IsSpace(s[0]) && !IsSpace(s[|s| - 1])
    ensures Trim(s) == s
  {
    assert TrimStart(s) == s;
  }

  lemma NoCommaUnchanged(s: string)
    requires ',' !in s
    ensures ReplaceFirstComma(s) == s
  {
    assert forall j :: 0 <= j < |s| ==> s[j] != ',';
  }

  /** A leading "Rp " goes, and with it the space after it. */
  lemma CleanRupiahPrefix(d: string)
    requires |d| > 0 && DigitsOrDots(d)
    ensures RemoveSpaces(RemoveRp(Trim("Rp " + d))) == d
  {
    var t := "Rp " + d;
    assert t[|t| - 1] == d[|d| - 1];
    TrimUnspaced(t);
    RemoveRpLead(d);
    DropAppend(" ", d, WhiteSpace);
    assert Drop(" ", WhiteSpace) == "";
  }

  lemma RemoveRpLead(d: string)
    requires DigitsOrDots(d)
    ensures RemoveRp("Rp " + d) == " " + d
  {
    var t := "Rp " + d;
    assert t[2..] == " " + d;
    assert (" " + d)[1..] == d;
    RemoveRpWithoutR(d);
  }

  /** A text of plain digits cleans to itself. */
  lemma CleanDigits(s: string)
    requires |s| > 0 && AllDigits(s)
    ensures CleanAmount(s) == s
  {
    DigitsAreDigitOrComma(s);
    CleanDigitsCommas(s);
    NoCommaUnchanged(s);
  }

  lemma DigitsAreDigitOrComma(s: string)
    requires AllDigits(s)
    ensures forall i :: 0 <= i < |s| ==> DigitOrComma(s[i])
    ensures ',' !in s
  {
  }

  /**
   * Points are thousands separators: "Rp 28.850" reads as the digits written
   * together, 28850, whatever the number of groups.
   */
  lemma ParseIDRThousands(parts: seq<string>)
    requires |parts| > 0 && AllDigitParts(parts) && parts[0] != ""
    ensures ParseIDR(Text("Rp " + Dotted(parts))) == DigitsValue(Joined(parts)) as real
  {
    var d := Dotted(parts);
    var j := Joined(parts);
    DottedShape(parts);
    DottedStart(parts);
    JoinedStart(parts);
    CleanRupiahPrefix(d);
    NoCommaUnchanged(j);
    ParseIDRCleanDigits("Rp " + d, j);
  }

  /** A text that cleans to a plain run of digits reads as the whole number they denote. */
  lemma ParseIDRCleanDigits(t: string, j: string)
    requires t != "" && CleanAmount(t) == j && AllDigits(j) && |j| > 0
    ensures ParseIDR(Text(t)) == DigitsValue(j) as real
  {
    ParseFloatDigits(j);
  }

  predicate DigitOrComma(c: char) { IsDigit(c) || c == ',' }

  lemma NoSpacesUnchanged(t: string)
    requires forall i :: 0 <= i < |t| ==> DigitOrComma(t[i])
    ensures RemoveSpaces(t) == t
  {
    forall i | 0 <= i < |t| ensures !InClass(t[i], WhiteSpace) {
      assert DigitOrComma(t[i]);
    }
  }

  lemma NoDotsUnchanged(t: string)
    requires forall i :: 0 <= i < |t| ==> DigitOrComma(t[i])
    ensures Drop(t, Point) == t
  {
    forall i | 0 <= i < |t| ensures !InClass(t[i], Point) {
      assert DigitOrComma(t[i]);
    }
  }

  lemma NoRpUnchanged(t: string)
    requires forall i :: 0 <= i < |t| ==> DigitOrComma(t[i])
    ensures RemoveRp(t) == t
  {
    forall i | 0 <= i < |t| ensures LowerChar(t[i]) != 'r' {
      assert DigitOrComma(t[i]);
    }
    RemoveRpWithoutR(t);
  }

  /** A text of digits and commas that starts and ends with a digit only has its first comma changed. */
  lemma CleanDigitsCommas(t: string)
    requires |t| > 0 && IsDigit(t[0]) && IsDigit(t[|t| - 1])
    requires forall i :: 0 <= i < |t| ==> DigitOrComma(t[i])
    ensures CleanAmount(t) == ReplaceFirstComma(t)
  {
    TrimUnspaced(t);
    NoRpUnchanged(t);
    NoSpacesUnchanged(t);
    NoDotsUnchanged(t);
  }

  lemma DecimalCommaChars(w: string, f: string)
    requires AllDigits(w) && AllDigits(f) && w != "" && f != ""
    ensures var t := w + "," + f;
      IsDigit(t[0]) && IsDigit(t[|t| - 1]) && (forall i :: 0 <= i < |t| ==> DigitOrComma(t[i]))
      && IndexOf(t, ',') == |w|
  {
    var t := w + "," + f;
    assert t[0] == w[0] && t[|t| - 1] == f[|f| - 1];
    assert forall i :: 0 <= i < |w| ==> t[i] == w[i];
    assert forall i :: |w| < i < |t| ==> t[i] == f[i - |w| - 1];
    var k := IndexOf(t, ',');
    assert t[|w|] == ',';
    assert k >= 0 && !(k < |w|) && !(|w| < k);
  }

  lemma ReplaceAtComma(w: string, f: string)
    requires IndexOf(w + "," + f, ',') == |w|
    ensures ReplaceFirstComma(w + "," + f) == w + "." + f
  {
    var t := w + "," + f;
    var r := ReplaceFirstComma(t);
    var e := w + "." + f;
    forall i | 0 <= i < |t| ensures r[i] == e[i] {
      if i < |w| {
        assert t[i] == w[i] && e[i] == w[i];
      } else if i == |w| {
        assert e[i] == '.';
      } else {
        assert t[i] == f[i - |w| - 1] && e[i] == f[i - |w| - 1];
      }
    }
    assert r == e;
  }

  /** A comma between two digit runs cleans to a decimal point. */
  lemma CleanDecimalComma(w: string, f: string)
    requires AllDigits(w) && AllDigits(f) && w != "" && f != ""
    ensures CleanAmount(w + "," + f) == Numeral(w, f)
  {
    var t := w + "," + f;
    DecimalCommaChars(w, f);
    CleanDigitsCommas(t);
    ReplaceAtComma(w, f);
    AppendAssoc(w, ".", f);
  }

  /**
   * A comma is a decimal point: "28,850" reads as 28.85, not 28850. This is
   * the documented reading of a text with no points and one comma.
   */
  lemma ParseIDRDecimalComma(w: string, f: string)
    requires AllDigits(w) && AllDigits(f) && w != "" && f != ""
    ensures ParseIDR(Text(w + "," + f)) == DigitsValue(w) as real + FractionValue(f)
  {
    CleanDecimalComma(w, f);
    ParseFloatNumeral(w, f);
  }

  /** The first reading the source's own comment gives as an example. */
  lemma ParseIDRRupiahExample(s: string)
    requires s == "Rp 28.850"
    ensures ParseIDR(Text(s)) == 28850.0
  {
    var parts := ["28", "850"];
    assert parts[..1] == ["28"];
    assert s == "Rp " + Dotted(parts);
    assert Joined(["28"]) == "28" by { assert ["28"][..0] == []; }
    assert Joined(parts) == "28850";
    DigitsExample();
    ParseIDRThousands(parts);
  }

  /** The second: a comma reads as a decimal point. */
  lemma ParseIDRCommaExample(s: string)
    requires s == "28,850"
    ensures ParseIDR(Text(s)) == 28.85
  {
    DigitsExample();
    assert s == "28" + "," + "850";
    ParseIDRDecimalComma("28", "850");
  }

  lemma DigitsExample()
    ensures DigitsValue("28850") == 28850 && DigitsValue("28") == 28 && DigitsValue("850") == 850
    ensures FractionValue("850") == 0.85
  {
    assert "28850"[..4] == "2885" && "2885"[..3] == "288" && "288"[..2] == "28";
    assert "28"[..1] == "2" && "2"[..0] == "";
    assert "850"[..2] == "85" && "85"[..1] == "8" && "8"[..0] == "";
    assert "850"[1..] == "50" && "50"[1..] == "0" && "0"[1..] == "";
  }

  // =====================================================================
  // mapStatus

  /** `mapStatus`: keyword tests on the lower-cased text, in a fixed order; the first hit wins. */
  function MapStatus(status: string): (r: OrderStatus)
    ensures r == Completed <==> Contains(ToLower(status), "selesai") || Contains(ToLower(status), "completed")
  {
    var s := ToLower(status);
    if Contains(s, "selesai") || Contains(s, "completed") then Completed
    else if Contains(s, "dikirim") || Contains(s, "delivered") || Contains(s, "shipping") then Delivered
    else if Contains(s, "paid") || Contains(s, "sudah bayar") || Contains(s, "bayar") then Paid
    else if Contains(s, "batal") || Contains(s, "cancelled") || Contains(s, "dibatalkan") then Cancelled
    else if Contains(s, "gagal") || Contains(s, "failed") then Failed
    else if Contains(s, "perlu dikirim") || Contains(s, "to ship") || Contains(s, "processed") then InProgress
    else Unknown
  }

  /**
   * The same classification with every keyword that can never decide the
   * outcome removed: "sudah bayar" holds "bayar", "dibatalkan" holds "batal",
   * and "perlu dikirim" holds "dikirim", which is tested earlier.
   */
  function Classify(s: string): OrderStatus
  {
    if Contains(s, "selesai") || Contains(s, "completed") then Completed
    else if Contains(s, "dikirim") || Contains(s, "delivered") || Contains(s, "shipping") then Delivered
    else if Contains(s, "paid") || Contains(s, "bayar") then Paid
    else if Contains(s, "batal") || Contains(s, "cancelled") then Cancelled
    else if Contains(s, "gagal") || Contains(s, "failed") then Failed
    else if Contains(s, "to ship") || Contains(s, "processed") then InProgress
    else Unknown
  }

  lemma SubKeywords()
    ensures Contains("sudah bayar", "bayar")
    ensures Contains("dibatalkan", "batal")
    ensures Contains("perlu dikirim", "dikirim")
  {
    ContainsAt("sudah bayar", "bayar", 6);
    ContainsAt("dibatalkan", "batal", 2);
    ContainsAt("perlu dikirim", "dikirim", 6);
  }

  /** The redundant keywords change nothing: classification is `Classify` of the lower-cased text. */
  lemma MapStatusReduced(status: string)
    ensures MapStatus(status) == Classify(ToLower(status))
  {
    var s := ToLower(status);
    SubKeywords();
    if Contains(s, "sudah bayar") { ContainsTrans(s, "sudah bayar", "bayar"); }
    if Contains(s, "dibatalkan") { ContainsTrans(s, "dibatalkan", "batal"); }
    if Contains(s, "perlu dikirim") { ContainsTrans(s, "perlu dikirim", "dikirim"); }
  }

  /** Any text holding "dikirim" (so "Perlu Dikirim" too) is Delivered unless it says it is completed. */
  lemma DikirimIsDelivered(status: string)
    requires Contains(ToLower(status), "dikirim")
    ensures MapStatus(status) == Completed || MapStatus(status) == Delivered
  {
  }

  /** InProgress is only ever reached through "to ship" or "processed". */
  lemma InProgressKeywords(status: string)
    requires MapStatus(status) == InProgress
    ensures !Contains(ToLower(status), "dikirim")
    ensures Contains(ToLower(status), "to ship") || Contains(ToLower(status), "processed")
  {
    MapStatusReduced(status);
  }

  /** Classification ignores letter case. */
  lemma MapStatusCaseInsensitive(status: string)
    ensures MapStatus(ToLower(status)) == MapStatus(status)
  {
    ToLowerIdempotent(status);
  }

  lemma MapStatusSelesai(s: string)
    requires s == "Selesai"
    ensures MapStatus(s) == Completed
  {
    assert ToLower(s) == "selesai";
    assert IsPrefix("selesai", "selesai");
  }

  lemma MapStatusDibatalkan(s: string)
    requires s == "Dibatalkan"
    ensures MapStatus(s) == Cancelled
  {
    assert ToLower(s) == "dibatalkan";
    ClassifyDibatalkan(ToLower(s));
    MapStatusReduced(s);
  }

  lemma ClassifyDibatalkan(d: string)
    requires d == "dibatalkan"
    ensures Classify(d) == Cancelled
  {
    DibatalkanNotCompleted(d);
    DibatalkanNotDelivered(d);
    DibatalkanBatal(d);
  }

  lemma DibatalkanBatal(d: string)
    requires d == "dibatalkan"
    ensures Contains(d, "batal") && !Contains(d, "paid") && !Contains(d, "bayar")
  {
    ContainsAt(d, "batal", 2);
    MissingCharNotContained(d, "paid", 0);
    MissingCharNotContained(d, "bayar", 2);
  }

  lemma DibatalkanNotCompleted(d: string)
    requires d == "dibatalkan"
    ensures !Contains(d, "selesai") && !Contains(d, "completed")
  {
    MissingCharNotContained(d, "selesai", 0);
    MissingCharNotContained(d, "completed", 0);
  }

  lemma DibatalkanNotDelivered(d: string)
    requires d == "dibatalkan"
    ensures !Contains(d, "dikirim") && !Contains(d, "delivered") && !Contains(d, "shipping")
  {
    MissingCharNotContained(d, "dikirim", 4);
    MissingCharNotContained(d, "delivered", 1);
    MissingCharNotContained(d, "shipping", 0);
  }

  /** Every keyword the classifier looks for, in the order it tries them. */
  const StatusKeywords: seq<string> := [
    "selesai", "completed", "dikirim", "delivered", "shipping", "paid", "sudah bayar", "bayar",
    "batal", "cancelled", "dibatalkan", "gagal", "failed", "perlu dikirim", "to ship", "processed"]

  predicate NoKeyword(s: string)
  {
    forall i :: 0 <= i < |StatusKeywords| ==> !Contains(s, StatusKeywords[i])
  }

  /** A status is Unknown exactly when its lower-cased text holds none of the keywords. */
  lemma MapStatusUnknown(status: string)
    ensures MapStatus(status) == Unknown <==> NoKeyword(ToLower(status))
  {
    var s := ToLower(status);
    var k := StatusKeywords;
    assert k[0] == "selesai" && k[1] == "completed" && k[2] == "dikirim" && k[3] == "delivered";
    assert k[4] == "shipping" && k[5] == "paid" && k[6] == "sudah bayar" && k[7] == "bayar";
    assert k[8] == "batal" && k[9] == "cancelled" && k[10] == "dibatalkan" && k[11] == "gagal";
    assert k[12] == "failed" && k[13] == "perlu dikirim" && k[14] == "to ship" && k[15] == "processed";
    if MapStatus(status) == Unknown {
      forall i | 0 <= i < |k| ensures !Contains(s, k[i]) {
      }
    }
  }

  // =====================================================================
  // parseOrders

  /** Position of the first key whose cell is truthy, or -1. */
  function FirstTruthyKey(row: Record, keys: seq<string>): (k: int)
    ensures -1 <= k < |keys|
    ensures k >= 0 ==> Truthy(Get(row, keys[k]))
    ensures forall j :: 0 <= j < |keys| && (k < 0 || j < k) ==> !Truthy(Get(row, keys[j]))
  {
    if keys == [] then -1
    else if Truthy(Get(row, keys[0])) then 0
    else
      var k := FirstTruthyKey(row, keys[1..]);
      if k < 0 then -1 else k + 1
  }

  /**
   * `row[k1] || row[k2] || ... || fallback`: the cell under the first alias
   * whose cell is truthy, else the fallback.
   */
  function FirstPresent(row: Record, keys: seq<string>, fallback: Cell): (c: Cell)
    ensures var k := FirstTruthyKey(row, keys); c == if k < 0 then fallback else Get(row, keys[k])
  {
    if keys == [] then fallback
    else Or(Get(row, keys[0]), FirstPresent(row, keys[1..], fallback))
  }

  // The header aliases, in the order they are tried.
  const OrderIdKeys := ["No. Pesanan", "Order ID", "Order No."]
  const SkuKeys := ["Nomor Referensi SKU", "SKU Reference No.", "SKU Number", "Parent SKU", "Variation SKU"]
  const PriceKeys := ["Total Harga Produk", "Merchandise Subtotal", "Product Price"]
  const QuantityKeys := ["Jumlah", "Quantity"]
  const StatusKeys := ["Status Pesanan", "Order Status"]
  const SubsidyKeys := ["Subsidi Pengiriman dari Shopee", "Shipping Fee Rebate from Shopee"]
  const LogisticKeys := ["Ongkos Kirim yang Dibayar oleh Pembeli", "Shipping Fee Paid by Buyer"]
  const CommissionKeys := ["Biaya Komisi", "Commission Fee"]
  const ServiceKeys := ["Biaya Layanan", "Service Fee"]
  const IncomeKeys := ["Total Penghasilan", "Estimated Order Income", "Estimated Income", "Penghasilan Pesanan"]

  /** `parseIDR(row[k1] || ... || 0)`. */
  function Amount(row: Record, keys: seq<string>): real
  {
    ParseIDR(FirstPresent(row, keys, Zero))
  }

  function Abs(x: real): (r: real)
    ensures r >= 0.0 && (r == x || r == -x)
  {
    if x < 0.0 then -x else x
  }

  /** `parseInt(String(c)) || 1`: the integer read from the cell's text; 1 when that is 0 or NaN. */
  function Quantity(c: Cell): (q: int)
    ensures q != 0
    ensures ParseInt(CellString(c)).None? ==> q == 1
    ensures ParseInt(CellString(c)) == Some(0) ==> q == 1
    ensures ParseInt(CellString(c)).Some? && ParseInt(CellString(c)).value != 0
      ==> q == ParseInt(CellString(c)).value
  {
    match ParseInt(CellString(c))
    case None => 1
    case Some(v) => if v == 0 then 1 else v
  }

  /** A non-negative number in the quantity column counts its whole part; 0 counts as 1. */
  lemma QuantityOfNumber(d: Number)
    requires !d.negative
    ensures Quantity(Num(d)) == if DigitsValue(d.whole) == 0 then 1 else DigitsValue(d.whole)
  {
    var w, f := ShowParts(d);
    ParseIntNumeral(w, f);
  }

  /** A missing or empty quantity cell counts as one item. */
  lemma QuantityMissing(row: Record)
    requires forall k :: 0 <= k < |QuantityKeys| ==> !Truthy(Get(row, QuantityKeys[k]))
    ensures Quantity(FirstPresent(row, QuantityKeys, One)) == 1
  {
    var w, f := ShowParts(One.n);
    ParseIntNumeral(w, f);
    assert DigitsValue(One.n.whole) == 1 by { assert "1"[..0] == ""; }
  }

  /** The text in the status column; an empty cell reads as "". */
  function RawStatus(row: Record): (r: Cell)
    ensures r == FirstPresent(row, StatusKeys, EmptyText)
    ensures r == EmptyText || Truthy(r)
  {
    FirstPresent(row, StatusKeys, EmptyText)
  }

  /**
   * The order a header-keyed row maps to, given that its status cell is not
   * a number: the SKU is trimmed, the quantity is never 0 and the two fees
   * are magnitudes.
   */
  function OrderOf(row: Record): (o: OrderRow)
    ensures o.sku == Trim(o.sku)
    ensures o.quantity != 0
    ensures o.rawCommissionFee >= 0.0 && o.rawServiceFee >= 0.0
    ensures o.status == MapStatus(o.rawStatus)
    ensures o.orderId == FirstPresent(row, OrderIdKeys, EmptyText)
    ensures o.sku == Trim(CellString(FirstPresent(row, SkuKeys, EmptyText)))
    ensures o.productPrice == Amount(row, PriceKeys)
    ensures o.quantity == Quantity(FirstPresent(row, QuantityKeys, One))
    ensures o.rawStatus == (if RawStatus(row).Text? then RawStatus(row).s else "")
    ensures o.shippingSubsidy == Amount(row, SubsidyKeys) && o.logisticFee == Amount(row, LogisticKeys)
    ensures o.rawCommissionFee == Abs(Amount(row, CommissionKeys))
    ensures o.rawServiceFee == Abs(Amount(row, ServiceKeys))
    ensures o.estimatedIncome == Amount(row, IncomeKeys)
  {
    var status := RawStatus(row);
    var rawStatus := if status.Text? then status.s else "";
    var sku := CellString(FirstPresent(row, SkuKeys, EmptyText));
    TrimIdempotent(sku);
    OrderRow(
      orderId := FirstPresent(row, OrderIdKeys, EmptyText),
      sku := Trim(sku),
      productPrice := Amount(row, PriceKeys),
      quantity := Quantity(FirstPresent(row, QuantityKeys, One)),
      status := MapStatus(rawStatus),
      shippingSubsidy := Amount(row, SubsidyKeys),
      logisticFee := Amount(row, LogisticKeys),
      rawStatus := rawStatus,
      rawCommissionFee := Abs(Amount(row, CommissionKeys)),
      rawServiceFee := Abs(Amount(row, ServiceKeys)),
      estimatedIncome := Amount(row, IncomeKeys))
  }

  /**
   * One row of the `map`: a status cell that holds a number other than 0
   * makes `toLowerCase` fail, which aborts the whole import.
   */
  function ParseOrderRow(row: Record): (r: Result<OrderRow, ImportError>)
    ensures r.Err? <==> RawStatus(row).Num?
    ensures r.Err? ==> r.error == StatusNotText
    ensures r.Ok? ==> r.value == OrderOf(row)
  {
    if RawStatus(row).Num? then Err(StatusNotText) else Ok(OrderOf(row))
  }

  /** What every imported order satisfies. */
  predicate WellImported(o: OrderRow)
  {
    Truthy(o.orderId) && o.sku == Trim(o.sku) && o.quantity != 0
    && o.rawCommissionFee >= 0.0 && o.rawServiceFee >= 0.0
  }

  /**
   * `parseOrders`: every row is mapped, then rows without an order id are
   * dropped; the import fails as a whole if any row fails.
   */
  function ParseOrders(rows: seq<Record>): (r: Result<seq<OrderRow>, ImportError>)
    ensures r.Ok? ==> |r.value| <= |rows|
  {
    if rows == [] then Ok([])
    else
      match ParseOrderRow(rows[0])
      case Err(e) => Err(e)
      case Ok(o) =>
        match ParseOrders(rows[1..])
        case Err(e) => Err(e)
        case Ok(os) => Ok(Kept(o) + os)
  }

  /** `parseOrders` as the upload handler calls it. */
  method ImportOrders(rows: seq<Record>) returns (r: Result<seq<OrderRow>, ImportError>)
    ensures r == ParseOrders(rows)
    ensures r.Err? <==> HasNumericStatus(rows)
    ensures r.Ok? ==> forall o :: o in r.value ==> WellImported(o)
  {
    r := ParseOrders(rows);
    ParseOrdersFails(rows);
    if r.Ok? {
      ParseOrdersWellImported(rows);
    }
  }

  /** The first row in front of the rest: the import fails if either fails, else their orders are joined. */
  lemma ParseOrdersHead(rows: seq<Record>)
    requires rows != []
    ensures ParseOrders(rows).Err? <==> RawStatus(rows[0]).Num? || ParseOrders(rows[1..]).Err?
    ensures ParseOrders(rows).Ok? ==>
              ParseOrders(rows).value == Kept(OrderOf(rows[0])) + ParseOrders(rows[1..]).value
  {
  }

  /** Some row of `rows` has a number in its status column. */
  predicate HasNumericStatus(rows: seq<Record>)
  {
    exists i :: 0 <= i < |rows| && RawStatus(rows[i]).Num?
  }

  lemma NumericStatusHead(rows: seq<Record>)
    requires rows != []
    ensures HasNumericStatus(rows) <==> RawStatus(rows[0]).Num? || HasNumericStatus(rows[1..])
  {
    if HasNumericStatus(rows[1..]) {
      var i :| 0 <= i < |rows[1..]| && RawStatus(rows[1..][i]).Num?;
      assert rows[i + 1] == rows[1..][i];
    }
    if HasNumericStatus(rows) && !RawStatus(rows[0]).Num? {
      var i :| 0 <= i < |rows| && RawStatus(rows[i]).Num?;
      assert rows[1..][i - 1] == rows[i];
    }
  }

  /** The import fails exactly when some row has a numeric status. */
  lemma {:induction false} ParseOrdersFails(rows: seq<Record>)
    ensures ParseOrders(rows).Err? <==> HasNumericStatus(rows)
  {
    if rows != [] {
      ParseOrdersFails(rows[1..]);
      ParseOrdersHead(rows);
      NumericStatusHead(rows);
    }
  }

  /** Every imported order has a truthy id, a trimmed SKU, a nonzero quantity and non-negative fees. */
  lemma {:induction false} ParseOrdersWellImported(rows: seq<Record>)
    requires ParseOrders(rows).Ok?
    ensures forall o :: o in ParseOrders(rows).value ==> WellImported(o)
  {
    if rows != [] {
      ParseOrdersHead(rows);
      ParseOrdersWellImported(rows[1..]);
      KeptWellImported(OrderOf(rows[0]));
    }
  }

  lemma KeptWellImported(o: OrderRow)
    requires o.sku == Trim(o.sku) && o.quantity != 0 && o.rawCommissionFee >= 0.0 && o.rawServiceFee >= 0.0
    ensures forall x :: x in Kept(o) ==> WellImported(x)
  {
  }

  /** The orders a single row contributes: itself when its id is truthy. */
  function Kept(o: OrderRow): (r: seq<OrderRow>)
    ensures |r| <= 1
    ensures r == [o] <==> Truthy(o.orderId)
    ensures r == [] <==> !Truthy(o.orderId)
  {
    if Truthy(o.orderId) then [o] else []
  }

  /**
   * Rows are mapped independently and kept in sheet order: importing two
   * stacked sheets imports each and concatenates the results.
   */
  lemma {:induction false} ParseOrdersAppend(a: seq<Record>, b: seq<Record>)
    requires ParseOrders(a).Ok? && ParseOrders(b).Ok?
    ensures ParseOrders(a + b).Ok?
    ensures ParseOrders(a + b).value == ParseOrders(a).value + ParseOrders(b).value
  {
    if a == [] {
      assert a + b == b;
    } else {
      TailOfAppend(a, b);
      ParseOrdersHead(a);
      ParseOrdersAppend(a[1..], b);
      ParseOrdersHead(a + b);
      var k, x, y := Kept(OrderOf(a[0])), ParseOrders(a[1..]).value, ParseOrders(b).value;
      AppendAssoc(k, x, y);
    }
  }

  /** A single row yields exactly its order when its id is truthy, and nothing otherwise. */
  lemma ParseOrdersSingle(row: Record)
    requires !RawStatus(row).Num?
    ensures ParseOrders([row]) == Ok(Kept(OrderOf(row)))
  {
    var rows := [row];
    assert rows[0] == row && rows[1..] == [];
    assert ParseOrders(rows[1..]) == Ok([]);
    ParseOrdersHead(rows);
    var k := Kept(OrderOf(row));
    assert k + [] == k;
  }

  // =====================================================================
  // parseAds

  /** Both header scans look at no more than the first 30 rows. */
  function ScanLimit(rows: Grid): (n: nat)
    ensures n <= |rows| && n <= 30
    ensures n == |rows| || n == 30
  {
    if |rows| < 30 then |rows| else 30
  }

  /** What names a spend column: a lower-cased header equal to one of `exact`, or holding one of `phrases`. */
  datatype SpendHeaders = SpendHeaders(exact: seq<string>, phrases: seq<string>)

  /** The words of `parseAds`. */
  const AdsHeaders: SpendHeaders := SpendHeaders(["expense", "spend", "cost"], ["total spend", "ad spend", "biaya"])

  /** A header cell naming ad spend. */
  predicate IsSpendCell(cell: Cell, w: SpendHeaders)
  {
    var c := ToLower(CellString(cell));
    c in w.exact || exists i :: 0 <= i < |w.phrases| && Contains(c, w.phrases[i])
  }

  /** `row.findIndex(IsSpendCell)`: the first spend cell's position, or -1. */
  function SpendColumn(row: Row, w: SpendHeaders): (k: int)
    ensures -1 <= k < |row|
  {
    if row == [] then -1
    else if IsSpendCell(row[0], w) then 0
    else
      var k := SpendColumn(row[1..], w);
      if k < 0 then -1 else k + 1
  }

  /** The column found is the first spend cell; -1 means the row has none. */
  lemma {:induction false} SpendColumnFirst(row: Row, w: SpendHeaders)
    ensures var k := SpendColumn(row, w);
      (k >= 0 ==> IsSpendCell(row[k], w)) && forall j :: 0 <= j < |row| && (k < 0 || j < k) ==> !IsSpendCell(row[j], w)
  {
    if row != [] && !IsSpendCell(row[0], w) {
      SpendColumnFirst(row[1..], w);
      forall j | 1 <= j < |row| ensures row[j] == row[1..][j - 1] {
      }
    }
  }

  /** The first row at or after `i`, within the scan limit, that has a spend cell; -1 if none. */
  function SpendHeaderFrom(rows: Grid, i: nat, w: SpendHeaders): (h: int)
    requires i <= ScanLimit(rows)
    ensures h == -1 || i <= h < ScanLimit(rows)
    decreases ScanLimit(rows) - i
  {
    if i == ScanLimit(rows) then -1
    else if SpendColumn(rows[i], w) >= 0 then i
    else SpendHeaderFrom(rows, i + 1, w)
  }

  /** The scan finds the first row with a spend cell, or reports -1 when none of the rows it reaches has one. */
  lemma SpendHeaderFound(rows: Grid, i: nat, w: SpendHeaders)
    requires i <= ScanLimit(rows)
    ensures var h := SpendHeaderFrom(rows, i, w);
      (h >= 0 ==> SpendColumn(rows[h], w) >= 0)
      && forall k :: i <= k < ScanLimit(rows) && (h < 0 || k < h) ==> SpendColumn(rows[k], w) < 0
  {
    SpendHeaderHit(rows, i, w);
    SpendHeaderMisses(rows, i, w);
  }

  lemma {:induction false} SpendHeaderHit(rows: Grid, i: nat, w: SpendHeaders)
    requires i <= ScanLimit(rows)
    ensures var h := SpendHeaderFrom(rows, i, w); h >= 0 ==> SpendColumn(rows[h], w) >= 0
    decreases ScanLimit(rows) - i
  {
    if i < ScanLimit(rows) && SpendColumn(rows[i], w) < 0 {
      SpendHeaderHit(rows, i + 1, w);
    }
  }

  lemma {:induction false} SpendHeaderMisses(rows: Grid, i: nat, w: SpendHeaders)
    requires i <= ScanLimit(rows)
    ensures var h := SpendHeaderFrom(rows, i, w);
      forall k :: i <= k < ScanLimit(rows) && (h < 0 || k < h) ==> SpendColumn(rows[k], w) < 0
    decreases ScanLimit(rows) - i
  {
    var h := SpendHeaderFrom(rows, i, w);
    if i < ScanLimit(rows) && SpendColumn(rows[i], w) < 0 {
      SpendHeaderMisses(rows, i + 1, w);
      assert h == SpendHeaderFrom(rows, i + 1, w);
      forall k | i <= k < ScanLimit(rows) && (h < 0 || k < h) ensures SpendColumn(rows[k], w) < 0 {
        if k > i {
          assert i + 1 <= k;
        }
      }
    }
  }

  /** The sum of `parseIDR` down column `col`. */
  function ColumnTotal(rows: Grid, col: int): (r: real)
    ensures col < 0 ==> r == 0.0
  {
    if rows == [] then 0.0
    else ColumnTotal(rows[..|rows| - 1], col) + ParseIDR(CellAt(rows[|rows| - 1], col))
  }

  /** What `parseAds` returns: the spend column summed below the header, or 0 with no header. */
  function AdsSpend(rows: Grid, w: SpendHeaders): (r: real)
    ensures (forall k :: 0 <= k < ScanLimit(rows) ==> SpendColumn(rows[k], w) < 0) ==> r == 0.0
  {
    SpendHeaderFound(rows, 0, w);
    var h := SpendHeaderFrom(rows, 0, w);
    if h < 0 then 0.0 else ColumnTotal(rows[h + 1..], SpendColumn(rows[h], w))
  }

  method ParseAds(rows: Grid) returns (totalSpend: real)
    ensures totalSpend == AdsSpend(rows, AdsHeaders)
  {
    totalSpend := 0.0;
    var headerIndex, spendColIndex := FindSpendHeader(rows, AdsHeaders);
    SpendHeaderFound(rows, 0, AdsHeaders);
    if headerIndex != -1 && spendColIndex != -1 {
      totalSpend := SumColumn(rows, headerIndex + 1, spendColIndex);
    }
  }

  /** The header scan of `parseAds`: the first of the first 30 rows with a spend cell, and that cell's column. */
  method FindSpendHeader(rows: Grid, w: SpendHeaders) returns (headerIndex: int, spendColIndex: int)
    ensures headerIndex == SpendHeaderFrom(rows, 0, w)
    ensures headerIndex >= 0 ==> spendColIndex == SpendColumn(rows[headerIndex], w)
    ensures headerIndex < 0 ==> spendColIndex == -1
  {
    headerIndex, spendColIndex := -1, -1;
    var limit := ScanLimit(rows);
    var i := 0;
    while i < limit
      invariant 0 <= i <= limit
      invariant SpendHeaderFrom(rows, 0, w) == SpendHeaderFrom(rows, i, w)
      invariant headerIndex == -1 && spendColIndex == -1
    {
      spendColIndex := SpendColumn(rows[i], w);
      if spendColIndex != -1 {
        headerIndex := i;
        return;
      }
      i := i + 1;
    }
  }

  /** The summing loop of `parseAds`: `parseIDR` added down column `col` from row `from` on. */
  method SumColumn(rows: Grid, from: nat, col: int) returns (total: real)
    requires from <= |rows|
    ensures total == ColumnTotal(rows[from..], col)
  {
    var below := rows[from..];
    total := 0.0;
    var j := 0;
    while j < |below|
      invariant 0 <= j <= |below|
      invariant total == ColumnTotal(below[..j], col)
    {
      PrefixExtend(below, j);
      total := total + ParseIDR(CellAt(below[j], col));
      j := j + 1;
    }
    PrefixWhole(below);
  }

  /** Totals of stacked blocks of rows add up. */
  lemma {:induction false} ColumnTotalAppend(a: Grid, b: Grid, col: int)
    ensures ColumnTotal(a + b, col) == ColumnTotal(a, col) + ColumnTotal(b, col)
    decreases |b|
  {
    if b == [] {
      assert a + b == a;
    } else {
      InitOfAppend(a, b);
      ColumnTotalAppend(a, b[..|b| - 1], col);
    }
  }

  /** A header-scan result depends only on the rows the scan reaches. */
  lemma {:induction false} SpendHeaderPrefix(rows: Grid, more: Grid, i: nat, w: SpendHeaders)
    requires i <= ScanLimit(rows) && 0 <= SpendHeaderFrom(rows, i, w)
    ensures i <= ScanLimit(rows + more)
    ensures SpendHeaderFrom(rows + more, i, w) == SpendHeaderFrom(rows, i, w)
    decreases ScanLimit(rows) - i
  {
    assert (rows + more)[i] == rows[i];
    if SpendColumn(rows[i], w) < 0 {
      SpendHeaderPrefix(rows, more, i + 1, w);
    }
  }

  /** Rows added under a sheet whose header is already found add exactly their spend. */
  lemma AdsSpendRowsBelow(rows: Grid, more: Grid, w: SpendHeaders)
    requires SpendHeaderFrom(rows, 0, w) >= 0
    ensures var h := SpendHeaderFrom(rows, 0, w);
      AdsSpend(rows + more, w) == AdsSpend(rows, w) + ColumnTotal(more, SpendColumn(rows[h], w))
  {
    var h := SpendHeaderFrom(rows, 0, w);
    SpendHeaderPrefix(rows, more, 0, w);
    DropOfAppend(rows, more, h);
    AdsSpendAt(rows, h, w);
    AdsSpendAt(rows + more, h, w);
    ColumnTotalAppend(rows[h + 1..], more, SpendColumn(rows[h], w));
  }

  lemma AdsSpendAt(rows: Grid, h: nat, w: SpendHeaders)
    requires h == SpendHeaderFrom(rows, 0, w)
    ensures AdsSpend(rows, w) == ColumnTotal(rows[h + 1..], SpendColumn(rows[h], w))
  {
  }

  /** A header equal to one of the words, or holding one of the phrases, names the spend column; other headers do not. */
  lemma AdsHeaderExamples()
    ensures IsSpendCell(Text("Expense"), AdsHeaders)
    ensures IsSpendCell(Text("Biaya Iklan"), AdsHeaders)
    ensures !IsSpendCell(Text("Date"), AdsHeaders)
  {
    assert ToLower("Expense") == "expense";
    assert ToLower("Biaya Iklan") == "biaya iklan";
    ContainsAt("biaya iklan", "biaya", 0);
    assert AdsHeaders.phrases[2] == "biaya";
    var d := ToLower("Date");
    assert d == "date";
    MissingCharNotContained(d, "total spend", 1);
    MissingCharNotContained(d, "ad spend", 3);
    MissingCharNotContained(d, "biaya", 0);
    assert d !in AdsHeaders.exact;
  }

  /** The spend header is recognised in any letter case. */
  lemma SpendCellCaseInsensitive(s: string, w: SpendHeaders)
    ensures IsSpendCell(Text(ToLower(s)), w) == IsSpendCell(Text(s), w)
  {
    ToLowerIdempotent(s);
  }

  // =====================================================================
  // parseCosts

  const SkuPatterns: seq<string> := ["sku", "item code", "nomor referensi", "商品代码"]
  const CostPatterns: seq<string> := ["cost", "成本", "price", "rmb", "rnb"]
  const MultPatterns: seq<string> := ["unit", "multiplier", "倍数", "数量", "jumlah"]

  /** Lower-cased, with white space, `_` and `-` removed: how both header cells and patterns are compared. */
  function Squeeze(s: string): string
  {
    Drop(ToLower(s), Separator)
  }

  /** `String(cell || '')`, squeezed. */
  function HeaderKey(cell: Cell): (r: string)
    ensures forall i :: 0 <= i < |r| ==> !InClass(r[i], Separator)
    ensures !Truthy(cell) ==> r == ""
    ensures Truthy(cell) ==> r == Squeeze(CellString(cell))
  {
    Squeeze(CellString(Or(cell, EmptyText)))
  }

  /** `patterns.some(p => key.includes(squeeze(p)))` for the cell's key. */
  predicate IsColumnOf(cell: Cell, patterns: seq<string>)
    ensures IsColumnOf(cell, patterns) ==> patterns != []
    ensures (exists i :: 0 <= i < |patterns| && Squeeze(patterns[i]) == "") ==> IsColumnOf(cell, patterns)
  {
    exists i :: 0 <= i < |patterns| && Contains(HeaderKey(cell), Squeeze(patterns[i]))
  }

  /** `findCol(patterns)`: the first cell of the row that matches a pattern, or -1. */
  function FindColumn(row: Row, patterns: seq<string>): (k: int)
    ensures -1 <= k < |row|
  {
    if row == [] then -1
    else if IsColumnOf(row[0], patterns) then 0
    else
      var k := FindColumn(row[1..], patterns);
      if k < 0 then -1 else k + 1
  }

  /** The column found is the first cell that matches a pattern; -1 means no cell does. */
  lemma {:induction false} FindColumnFirst(row: Row, patterns: seq<string>)
    ensures var k := FindColumn(row, patterns);
      (k >= 0 ==> IsColumnOf(row[k], patterns))
      && forall j :: 0 <= j < |row| && (k < 0 || j < k) ==> !IsColumnOf(row[j], patterns)
  {
    if row != [] && !IsColumnOf(row[0], patterns) {
      FindColumnFirst(row[1..], patterns);
      forall j | 1 <= j < |row| ensures row[j] == row[1..][j - 1] {
      }
    }
  }

  /** The header row and the columns found in it; `multCol` is -1 when there is no multiplier column. */
  datatype CostHeader = CostHeader(index: nat, skuCol: nat, costCol: nat, multCol: int)

  /** The header names looked for, per column. */
  datatype ColumnPatterns = ColumnPatterns(sku: seq<string>, cost: seq<string>, mult: seq<string>)

  const CostColumns: ColumnPatterns := ColumnPatterns(SkuPatterns, CostPatterns, MultPatterns)

  /** A header row names both a SKU column and a cost column. */
  predicate IsCostHeaderRow(row: Row, p: ColumnPatterns)
  {
    FindColumn(row, p.sku) >= 0 && FindColumn(row, p.cost) >= 0
  }

  function HeaderAt(rows: Grid, i: nat, p: ColumnPatterns): CostHeader
    requires i < |rows| && IsCostHeaderRow(rows[i], p)
  {
    CostHeader(i, FindColumn(rows[i], p.sku), FindColumn(rows[i], p.cost), FindColumn(rows[i], p.mult))
  }

  /** The first header row at or after `i` within the scan limit, if any. */
  function CostHeaderFrom(rows: Grid, i: nat, p: ColumnPatterns): (h: Option<CostHeader>)
    requires i <= ScanLimit(rows)
    ensures h.Some? ==> i <= h.value.index < ScanLimit(rows)
    decreases ScanLimit(rows) - i
  {
    if i == ScanLimit(rows) then None
    else if IsCostHeaderRow(rows[i], p) then Some(HeaderAt(rows, i, p))
    else CostHeaderFrom(rows, i + 1, p)
  }

  /** The scan finds the first header row, with the columns read from it, or reports that there is none. */
  lemma {:induction false} CostHeaderFound(rows: Grid, i: nat, p: ColumnPatterns)
    requires i <= ScanLimit(rows)
    ensures var h := CostHeaderFrom(rows, i, p);
      h.Some? ==> IsCostHeaderRow(rows[h.value.index], p) && h.value == HeaderAt(rows, h.value.index, p)
    ensures var h := CostHeaderFrom(rows, i, p);
      forall k :: i <= k < ScanLimit(rows) && (h.None? || k < h.value.index) ==> !IsCostHeaderRow(rows[k], p)
    decreases ScanLimit(rows) - i
  {
    if i < ScanLimit(rows) && !IsCostHeaderRow(rows[i], p) {
      CostHeaderFound(rows, i + 1, p);
    }
  }

  /** `s` starts with "sku:", the letters in any case. */
  predicate HasSkuTag(s: string)
  {
    |s| >= 4 && LowerChar(s[0]) == 's' && LowerChar(s[1]) == 'k' && LowerChar(s[2]) == 'u' && s[3] == ':'
  }

  /** `replace(/^sku:/i, '')`: a leading tag is removed, and nothing else changes. */
  function StripSkuTag(s: string): (r: string)
    ensures HasSkuTag(s) ==> r == s[4..]
    ensures !HasSkuTag(s) ==> r == s
  {
    if HasSkuTag(s) then s[4..] else s
  }

  /** The SKU a cell names: trimmed, an "sku:" tag in any letter case removed, trimmed again. */
  function SkuOf(c: Cell): (r: string)
    ensures Trim(r) == r
    ensures !HasSkuTag(Trim(CellString(c))) ==> r == Trim(CellString(c))
    ensures HasSkuTag(Trim(CellString(c))) ==> r == Trim(Trim(CellString(c))[4..])
  {
    TrimIdempotent(CellString(c));
    var t := Trim(CellString(c));
    TrimIdempotent(StripSkuTag(t));
    Trim(StripSkuTag(t))
  }

  /** `parseFloat(String(c).replace(/[^0-9.]/g, ''))`: only digits and points are read. */
  function NumberIn(c: Cell): (r: Option<real>)
    ensures r.Some? ==> r.value >= 0.0
    ensures c.Text? ==> r == ParseFloat(Drop(c.s, NotDecimal))
  {
    var t := Drop(CellString(c), NotDecimal);
    ParseFloatNonNegative(t);
    ParseFloat(t)
  }

  /** `… || 0`: the unit cost, 0 when no number can be read. */
  function UnitCost(c: Cell): (v: real)
    ensures v >= 0.0
    ensures NumberIn(c).Some? ==> v == NumberIn(c).value
    ensures NumberIn(c).None? ==> v == 0.0
  {
    match NumberIn(c)
    case None => 0.0
    case Some(v) => v
  }

  /** `… || 1` in the multiplier column, 1 when there is none: never zero nor negative. */
  function ShipMultiplier(row: Row, multCol: int): (m: real)
    ensures m > 0.0
    ensures multCol == -1 ==> m == 1.0
    ensures multCol != -1 && NumberIn(CellAt(row, multCol)).Some? && NumberIn(CellAt(row, multCol)).value != 0.0
            ==> m == NumberIn(CellAt(row, multCol)).value
    ensures multCol != -1 && (NumberIn(CellAt(row, multCol)).None? || NumberIn(CellAt(row, multCol)).value == 0.0)
            ==> m == 1.0
  {
    if multCol == -1 then 1.0
    else
      match NumberIn(CellAt(row, multCol))
      case None => 1.0
      case Some(v) => if v == 0.0 then 1.0 else v
  }

  /** One row under the header; `None` when its SKU cell is falsy or the SKU comes out empty. */
  function CostRowOf(row: Row, h: CostHeader): (r: Option<CostRow>)
    ensures r.None? <==> !Truthy(CellAt(row, h.skuCol)) || SkuOf(CellAt(row, h.skuCol)) == ""
    ensures r.Some? ==> r.value == CostRow(SkuOf(CellAt(row, h.skuCol)), UnitCost(CellAt(row, h.costCol)),
                                           ShipMultiplier(row, h.multCol))
  {
    var cell := CellAt(row, h.skuCol);
    if !Truthy(cell) then None
    else
      var sku := SkuOf(cell);
      if sku == "" then None
      else Some(CostRow(sku, UnitCost(CellAt(row, h.costCol)), ShipMultiplier(row, h.multCol)))
  }

  function Listed(r: Option<CostRow>): seq<CostRow>
  {
    if r.Some? then [r.value] else []
  }

  /** The cost rows read from `rows`, in sheet order. */
  function CostRowsOf(rows: Grid, h: CostHeader): (r: seq<CostRow>)
    ensures |r| <= |rows|
  {
    if rows == [] then []
    else CostRowsOf(rows[..|rows| - 1], h) + Listed(CostRowOf(rows[|rows| - 1], h))
  }

  /**
   * What `parseCosts` returns: the rows below the header, or the failure
   * carrying the first five rows when no header is found.
   */
  function CostSheet(rows: Grid, p: ColumnPatterns): (r: Result<seq<CostRow>, ImportError>)
    ensures r.Ok? ==> CostHeaderFrom(rows, 0, p).Some? && |r.value| < |rows|
    ensures r.Err? <==> CostHeaderFrom(rows, 0, p).None?
    ensures r.Err? ==> (r.error.CostHeaderNotFound?
                        && |r.error.sample| == (if |rows| < 5 then |rows| else 5)
                        && r.error.sample == rows[..|r.error.sample|])
  {
    match CostHeaderFrom(rows, 0, p)
    case None => Err(CostHeaderNotFound(rows[..if |rows| < 5 then |rows| else 5]))
    case Some(h) => Ok(CostRowsOf(rows[h.index + 1..], h))
  }

  method ParseCosts(rows: Grid) returns (r: Result<seq<CostRow>, ImportError>)
    ensures r == CostSheet(rows, CostColumns)
  {
    var header := FindCostHeader(rows, CostColumns);
    if header.None? {
      var n := if |rows| < 5 then |rows| else 5;
      return Err(CostHeaderNotFound(rows[..n]));
    }
    var result := ReadCostRows(rows, header.value.index + 1, header.value);
    return Ok(result);
  }

  /** The header scan of `parseCosts`. */
  method FindCostHeader(rows: Grid, p: ColumnPatterns) returns (header: Option<CostHeader>)
    ensures header == CostHeaderFrom(rows, 0, p)
  {
    var limit := ScanLimit(rows);
    var i := 0;
    while i < limit
      invariant 0 <= i <= limit
      invariant CostHeaderFrom(rows, 0, p) == CostHeaderFrom(rows, i, p)
    {
      var tempSku := FindColumn(rows[i], p.sku);
      var tempCost := FindColumn(rows[i], p.cost);
      if tempSku != -1 && tempCost != -1 {
        var multCol := FindColumn(rows[i], p.mult);
        return Some(CostHeader(i, tempSku, tempCost, multCol));
      }
      i := i + 1;
    }
    return None;
  }

  /** The row loop of `parseCosts`, from the row below the header on; `CostRowOf` is its body. */
  method ReadCostRows(rows: Grid, from: nat, h: CostHeader) returns (result: seq<CostRow>)
    requires from <= |rows|
    ensures result == CostRowsOf(rows[from..], h)
  {
    var below := rows[from..];
    result := [];
    var j := 0;
    while j < |below|
      invariant 0 <= j <= |below|
      invariant result == CostRowsOf(below[..j], h)
    {
      PrefixExtend(below, j);
      var item := CostRowOf(below[j], h);
      if item.Some? {
        result := result + [item.value];
      }
      j := j + 1;
    }
    PrefixWhole(below);
  }

  /** A cost row the import keeps: a trimmed, non-empty SKU, a cost of at least 0, a multiplier above 0. */
  predicate WellFormedCost(c: CostRow)
  {
    c.sku != "" && Trim(c.sku) == c.sku && c.unitCostRMB >= 0.0 && c.shipMultiplier > 0.0
  }

  lemma {:induction false} CostRowsWellFormed(rows: Grid, h: CostHeader)
    ensures forall c :: c in CostRowsOf(rows, h) ==> WellFormedCost(c)
  {
    if rows != [] {
      CostRowsWellFormed(rows[..|rows| - 1], h);
      var r := CostRowOf(rows[|rows| - 1], h);
      if r.Some? {
        TrimIdempotent(StripSkuTag(Trim(CellString(CellAt(rows[|rows| - 1], h.skuCol)))));
      }
    }
  }

  /** Every row of a cost sheet that imports is well formed. */
  lemma CostSheetWellFormed(rows: Grid, p: ColumnPatterns)
    requires CostSheet(rows, p).Ok?
    ensures forall c :: c in CostSheet(rows, p).value ==> WellFormedCost(c)
  {
    var h := CostHeaderFrom(rows, 0, p).value;
    CostRowsWellFormed(rows[h.index + 1..], h);
  }

  /** The import fails exactly when none of the first 30 rows names both a SKU and a cost column. */
  lemma CostSheetFails(rows: Grid, p: ColumnPatterns)
    ensures CostSheet(rows, p).Err? <==> forall k :: 0 <= k < ScanLimit(rows) ==> !IsCostHeaderRow(rows[k], p)
  {
    CostHeaderFound(rows, 0, p);
    if CostHeaderFrom(rows, 0, p).Some? {
      var k := CostHeaderFrom(rows, 0, p).value.index;
      assert IsCostHeaderRow(rows[k], p);
    }
  }

  /** Rows are read independently and kept in sheet order. */
  lemma {:induction false} CostRowsAppend(a: Grid, b: Grid, h: CostHeader)
    ensures CostRowsOf(a + b, h) == CostRowsOf(a, h) + CostRowsOf(b, h)
    decreases |b|
  {
    if b == [] {
      assert a + b == a;
    } else {
      InitOfAppend(a, b);
      CostRowsAppend(a, b[..|b| - 1], h);
      AppendAssoc(CostRowsOf(a, h), CostRowsOf(b[..|b| - 1], h), Listed(CostRowOf(b[|b| - 1], h)));
    }
  }

  /** A number cell's cost is its magnitude: the minus sign is one of the characters dropped. */
  lemma NumberInNumber(d: Number)
    ensures NumberIn(Num(d)) == Some(Abs(d.Value()))
  {
    var w, f := ShowDigits(d);
    ParseFloatAnyNumeral(w, f);
    MagnitudeOfNumber(d, DigitsValue(w) as real + FractionValue(f));
  }

  lemma MagnitudeOfNumber(d: Number, v: real)
    requires v == DigitsValue(d.whole) as real + FractionValue(d.frac)
    ensures Abs(d.Value()) == v
  {
    FractionValueRange(d.frac);
  }

  /** Dropping everything but digits and points from a number's text leaves its unsigned numeral. */
  lemma ShowDigits(d: Number) returns (w: string, f: string)
    ensures AllDigits(w) && AllDigits(f) && w != ""
    ensures DigitsValue(w) == DigitsValue(d.whole) && FractionValue(f) == FractionValue(d.frac)
    ensures NumberIn(Num(d)) == ParseFloat(Numeral(w, f))
  {
    w, f := ShowParts(d);
    var n := Numeral(w, f);
    NumeralChars(w, f);
    assert Drop(n, NotDecimal) == n;
    if Show(d) != n {
      DropAppend("-", n, NotDecimal);
      assert Drop("-", NotDecimal) == [];
    }
  }

  lemma UnitCostOfNumber(d: Number)
    ensures UnitCost(Num(d)) == Abs(d.Value())
  {
    NumberInNumber(d);
  }

  /** An "sku:" tag in front of a trimmed SKU, in any letter case, is removed. */
  lemma SkuTagRemoved(tag: string, s: string)
    requires |tag| == 4 && ToLower(tag) == "sku:"
    requires Trim(s) == s
    ensures SkuOf(Text(tag + s)) == s
  {
    var t := tag + s;
    assert LowerChar(tag[0]) == 's' && LowerChar(tag[1]) == 'k' && LowerChar(tag[2]) == 'u';
    assert tag[3] == ':';
    assert HasSkuTag(t);
    assert Trim(t) == t;
    assert t[4..] == s;
    TrimIdempotent(s);
  }

  /** Header matching ignores letter case. */
  lemma HeaderKeyIgnoresCase(s: string)
    ensures HeaderKey(Text(ToLower(s))) == HeaderKey(Text(s))
  {
    ToLowerIdempotent(s);
  }

  /** Header matching ignores white space, `_` and `-`: "COST_RMB", "Cost RMB" and "costrmb" are one header. */
  lemma HeaderKeyIgnoresSeparators(s: string)
    ensures HeaderKey(Text(Drop(s, Separator))) == HeaderKey(Text(s))
  {
    DropSeparatorsLower(s);
    var t := Drop(s, Separator);
    assert Drop(Drop(ToLower(s), Separator), Separator) == Drop(ToLower(s), Separator);
    if t == "" {
      assert Drop(ToLower(s), Separator) == "";
    }
  }

  /** A text cost is read from its digits and points alone: a currency sign is skipped. */
  lemma NumberInText()
    ensures NumberIn(Text("¥12.50")) == Some(12.5)
  {
    DropCurrencySign();
    ReadTwelveFifty();
  }

  lemma DropCurrencySign()
    ensures Drop("¥12.50", NotDecimal) == "12.50"
  {
    var n := "12.50";
    assert "¥12.50" == "¥" + n;
    DropAppend("¥", n, NotDecimal);
    assert Drop("¥", NotDecimal) == "";
    assert forall i :: 0 <= i < |n| ==> !InClass(n[i], NotDecimal);
  }

  lemma ReadTwelveFifty()
    ensures ParseFloat("12.50") == Some(12.5)
  {
    TwelveFiftyDigits();
    assert Numeral("12", "50") == "12" + ("." + "50");
    assert "12.50" == "12" + ("." + "50");
    ParseFloatNumeral("12", "50");
  }

  lemma TwelveFiftyDigits()
    ensures AllDigits("12") && AllDigits("50")
    ensures DigitsValue("12") == 12 && FractionValue("50") == 0.5
  {
    assert "12"[..1] == "1" && "1"[..0] == "";
    assert "50"[1..] == "0" && "0"[1..] == "";
  }

  /** A cell past the end of a short row prints as "undefined", which holds no digit: it costs 0. */
  lemma NumberInMissing()
    ensures NumberIn(Empty) == None && UnitCost(Empty) == 0.0
  {
    var u := "undefined";
    assert forall i :: 0 <= i < |u| ==> InClass(u[i], NotDecimal);
    DropAll(u, NotDecimal);
    assert CellString(Empty) == u;
  }

  /** "SKU" names the SKU column. */
  lemma SkuHeader()
    ensures IsColumnOf(Text("SKU"), SkuPatterns)
  {
    assert ToLower("SKU") == "sku" && ToLower("sku") == "sku";
    assert Drop("sku", Separator) == "sku";
    assert HeaderKey(Text("SKU")) == "sku" && Squeeze(SkuPatterns[0]) == "sku";
    ContainsAt("sku", "sku", 0);
  }

  /** "Cost" names the cost column: case is ignored. */
  lemma CostColumnHeader()
    ensures IsColumnOf(Text("Cost"), CostPatterns)
  {
    SqueezeCost();
    assert ToLower("Cost") == "cost";
    var key := HeaderKey(Text("Cost"));
    assert key == "cost";
    ContainsAt(key, "cost", 0);
    assert Contains(key, Squeeze(CostPatterns[0]));
  }

  lemma SqueezeCost()
    ensures Squeeze(CostPatterns[0]) == "cost" && Drop("cost", Separator) == "cost"
  {
    assert CostPatterns[0] == "cost";
    assert ToLower("cost") == "cost";
    assert Drop("cost", Separator) == "cost";
  }

  /** "SKU" and "Cost" side by side make a cost header row. */
  lemma CostHeaderExample()
    ensures IsCostHeaderRow([Text("SKU"), Text("Cost")], CostColumns)
  {
    var row := [Text("SKU"), Text("Cost")];
    SkuHeader();
    CostColumnHeader();
    assert row[1..] == [Text("Cost")];
    assert FindColumn(row[1..], CostPatterns) == 0;
  }
}
