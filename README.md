# ShopeeProfit ID Station — a verified model of the profit engine

ShopeeProfit ID Station is a single-page dashboard for an Indonesian Shopee seller. The seller uploads three spreadsheets:

- the Shopee **order export**, keyed by its header row;
- an **ads report**;
- a **cost ledger** that gives each SKU a unit cost in yuan (RMB) and a shipping multiplier.

From these the dashboard works out each order's platform fees, its net income in rupiah (IDR) and its net profit in yuan. It then totals them into sales, fees, income, goods cost, ad spend, final profit and margin. It can also learn a per-SKU commission rate from orders that report their own commission fee.

This project models that core in Dafny:

- **The spreadsheet normaliser** (`utils/excelParser.ts`):
  - `parseIDR`, the currency-cell reader;
  - `mapStatus`, the keyword status classifier;
  - `parseOrders`, `parseAds` and `parseCosts`, each working on the sheet the workbook reader has already decoded.
- **The dashboard state** (`App.tsx`):
  - the order, cost, ad-spend, expanded-row and configuration state;
  - the three upload handlers, `toggleExpand` and `learnCommissionRates`;
  - the per-order computation (`calculatedData`) and the totals (`stats`).

## How the model is organised

- **Cells.** A decoded cell is a number, a text or nothing (`undefined`).
  - A number is held as the decimal numeral JavaScript prints for it. This makes `String(x)` exact, and `String(x)` feeds the SKU, quantity, cost and multiplier readers.
  - JavaScript's truthiness, `a || b`, `String(x)`, `trim`, `toLowerCase`, `includes` and the regular-expression rewrites the parser uses are modelled in `strings.dfy`, `numbers.dfy` and `cells.dfy`.
  - `parseFloat` and `parseInt` are modelled over their decimal grammar.
- **Pure code stays pure.** `parseIDR`, `mapStatus`, the per-row readers, the fee waterfall and the margin arithmetic are functions.
- **Loops are methods.** Each loop of the source is a method with a loop and its invariants, proved against a specification function:
  - the header scans and the column sums of `parseAds` and `parseCosts`;
  - the `forEach` of `stats`;
  - the `forEach` of `learnCommissionRates`.
- **The component is a class.** The React component's state is the class `Dashboard.App`, whose handlers update its fields.
- **Errors are values.** An import that throws returns `Err`, and the handler that would catch it leaves the state unchanged.

## Model

| member | source | states |
|---|---|---|
| Strings.ToLower | utils/excelParser.ts:28 | lower-cases each character in place and keeps the length |
| Strings.ToLowerIdempotent | utils/excelParser.ts:28 | lower-casing twice is lower-casing once |
| Strings.IndexOf | utils/excelParser.ts:18 | the first position of the character, or -1 when it does not occur |
| Strings.Contains | utils/excelParser.ts:29-34 | a text contains only patterns no longer than itself, and always contains the empty pattern |
| Strings.ContainsAt | utils/excelParser.ts:29-34 | an occurrence at any offset makes `includes` true |
| Strings.ContainsOffset | utils/excelParser.ts:29-34 | `includes` true means an occurrence at some offset |
| Strings.ContainsTrans | utils/excelParser.ts:29-34 | a text holding `q` holds every part of `q` |
| Strings.MissingCharNotContained | utils/excelParser.ts:29-34 | a pattern with a character the text lacks is not contained |
| Strings.Drop | utils/excelParser.ts:168 | a global character-class delete leaves no member of the class, keeps only characters of the input, and changes a text that has none of them not at all |
| Strings.DropAppend | utils/excelParser.ts:168 | the delete distributes over concatenation |
| Strings.DropAll | utils/excelParser.ts:168 | a text made only of the deleted class is deleted entirely |
| Strings.SeparatorLower | utils/excelParser.ts:139-140 | lower-casing a character does not change whether it is a separator |
| Strings.DropSeparatorsLower | utils/excelParser.ts:139-140 | deleting separators and lower-casing commute |
| Strings.TrimStart | utils/excelParser.ts:12 | a suffix of the input that starts with no white space, with only white space cut off |
| Strings.TrimEnd | utils/excelParser.ts:12 | a prefix of the input that ends with no white space, with only white space cut off |
| Strings.Trim | utils/excelParser.ts:12 | the result starts and ends with a non-space character |
| Strings.TrimSlice | utils/excelParser.ts:12 | `trim` yields exactly a slice of the input, cut only at white space |
| Strings.TrimIdempotent | utils/excelParser.ts:72 | trimming twice is trimming once |
| Numbers.DigitRun | utils/excelParser.ts:20 | the longest run of digits at the start, stopping at the first non-digit |
| Numbers.Fraction | utils/excelParser.ts:20 | the digits after the point are all digits |
| Numbers.ParseFloat | utils/excelParser.ts:20 | a negative reading needs a minus sign after the leading white space |
| Numbers.UnsignedFloat | utils/excelParser.ts:20 | an unsigned numeral never reads as negative |
| Numbers.ParseInt | utils/excelParser.ts:52 | a negative reading needs a minus sign, and whenever `parseInt` reads a number `parseFloat` reads one too |
| Numbers.UnsignedInt | utils/excelParser.ts:52 | the integer read is the whole part of the number `parseFloat` reads from the same text |
| Numbers.DigitRunOfDigits | utils/excelParser.ts:20 | a digit run stops exactly where the digits end |
| Numbers.LeadingZeroValue | utils/excelParser.ts:52 | a leading zero does not change an integer's value |
| Numbers.TrailingZeroFraction | utils/excelParser.ts:168 | a trailing zero does not change a fraction's value |
| Numbers.FractionValueRange | utils/excelParser.ts:20 | a fraction is in [0, 1) |
| Numbers.ParseFloatNonNegative | utils/excelParser.ts:168-169 | `parseFloat` of digits and points is never negative |
| Numbers.DigitFirst | utils/excelParser.ts:20 | a text starting with a digit is read with no sign and no white space skipped |
| Numbers.Unsigned | utils/excelParser.ts:20 | nothing is stripped from a text starting with neither white space nor a sign |
| Numbers.NumeralFraction | utils/excelParser.ts:20 | in a numeral, the digit run is the whole part and the fraction follows the point |
| Numbers.ParseFloatNumeral | utils/excelParser.ts:20 | `parseFloat` reads a numeral with a fraction back as whole + fraction |
| Numbers.UnsignedFloatParts | utils/excelParser.ts:20 | a text whose digit run and fraction are known reads as their value |
| Numbers.ParseFloatDigits | utils/excelParser.ts:20 | `parseFloat` reads a run of digits as the integer it denotes |
| Numbers.NumeralChars | utils/excelParser.ts:168 | a numeral is made of digits and points only |
| Numbers.ParseFloatAnyNumeral | utils/excelParser.ts:168 | `parseFloat` reads any numeral, with or without a fraction, as its value |
| Numbers.ParseIntNumeral | utils/excelParser.ts:52 | `parseInt` of a numeral stops at the point and keeps the whole part |
| Cells.Or | utils/excelParser.ts:48 | `a \|\| b` is `a` when `a` is truthy and `b` otherwise |
| Cells.Truthy | utils/excelParser.ts:83 | a truthy cell is never `undefined`, and a text is truthy exactly when it is not empty |
| Cells.TruthyCases | utils/excelParser.ts:83 | a number is truthy exactly when it is not 0, a text exactly when it is not empty, and `undefined` never |
| Cells.Show | utils/excelParser.ts:52 | `String(x)` of a number is never empty |
| Cells.CellString | utils/excelParser.ts:72 | `String(x)` of a text is the text itself; of a number or `undefined` it is a non-empty text |
| Cells.CellStringCases | utils/excelParser.ts:72 | `String(x)` of a number is its numeral, of a text the text itself, and of `undefined` the word "undefined" |
| Cells.StripLeadingZeros | utils/excelParser.ts:52 | removes exactly the leading zeros |
| Cells.StripTrailingZeros | utils/excelParser.ts:168 | removes exactly the trailing zeros |
| Cells.StripLeadingZerosValue | utils/excelParser.ts:52 | stripping leading zeros keeps an integer's value |
| Cells.StripTrailingZerosValue | utils/excelParser.ts:168 | stripping trailing zeros keeps a fraction's value |
| Cells.ShowParts | utils/excelParser.ts:165-169 | `String(x)` of a number is its numeral, with a minus sign only when negative, and whole and fraction values kept |
| ExcelParser.RemoveRp | utils/excelParser.ts:13 | deleting "Rp" never lengthens the text |
| ExcelParser.RemoveRpTag | utils/excelParser.ts:13 | "Rp", "rp", "RP" and "rP" are each removed whole, whatever follows them |
| ExcelParser.RemoveRpAppend | utils/excelParser.ts:13 | the removal works piece by piece: splitting the text after a character other than r or R does not change the result |
| ExcelParser.ReplaceFirstComma | utils/excelParser.ts:18 | only the first comma becomes a point, and every other character stays |
| ExcelParser.ParseIDR | utils/excelParser.ts:8-22 | a number cell is its value; nothing or the empty text is 0; any other text is `parseFloat` of the cleaned text, and 0 when that is NaN |
| ExcelParser.CleanAmountShape | utils/excelParser.ts:12-18 | the text `parseFloat` is given has no white space and at most one point |
| ExcelParser.Joined | utils/excelParser.ts:17 | thousands groups written together are all digits |
| ExcelParser.DottedShape | utils/excelParser.ts:17 | deleting the points from dotted groups yields the groups written together |
| ExcelParser.DottedStart | utils/excelParser.ts:17 | dotted groups start with the first group's first digit |
| ExcelParser.JoinedStart | utils/excelParser.ts:17 | joined groups are non-empty when the first group is |
| ExcelParser.RemoveRpWithoutR | utils/excelParser.ts:13 | a text without an r in any case has nothing removed |
| ExcelParser.TrimUnspaced | utils/excelParser.ts:12 | a text with no white space at either end is its own trim |
| ExcelParser.NoCommaUnchanged | utils/excelParser.ts:18 | a text without a comma is unchanged by the comma replace |
| ExcelParser.CleanRupiahPrefix | utils/excelParser.ts:12-13 | "Rp " in front of digits and points is removed together with the space |
| ExcelParser.RemoveRpLead | utils/excelParser.ts:13 | "Rp" in front of digits and points is removed and the rest is kept |
| ExcelParser.CleanDigits | utils/excelParser.ts:12-18 | plain digits clean to themselves |
| ExcelParser.DigitsAreDigitOrComma | utils/excelParser.ts:12-18 | plain digits have no comma |
| ExcelParser.ParseIDRThousands | utils/excelParser.ts:15-20 | "Rp " followed by dotted groups reads as the groups written together, for example "Rp 28.850" reads as 28850 |
| ExcelParser.ParseIDRCleanDigits | utils/excelParser.ts:12-20 | a text that cleans to plain digits reads as the integer they denote |
| ExcelParser.NoSpacesUnchanged | utils/excelParser.ts:13 | digits and commas have no white space to remove |
| ExcelParser.NoDotsUnchanged | utils/excelParser.ts:17 | digits and commas have no point to remove |
| ExcelParser.NoRpUnchanged | utils/excelParser.ts:13 | digits and commas have no "Rp" to remove |
| ExcelParser.CleanDigitsCommas | utils/excelParser.ts:12-18 | for digits and commas, cleaning only replaces the first comma |
| ExcelParser.DecimalCommaChars | utils/excelParser.ts:18 | in `w,f` the only comma is at position `\|w\|` |
| ExcelParser.ReplaceAtComma | utils/excelParser.ts:18 | `w,f` becomes `w.f` |
| ExcelParser.CleanDecimalComma | utils/excelParser.ts:12-18 | a comma between digit runs cleans to a decimal point |
| ExcelParser.ParseIDRDecimalComma | utils/excelParser.ts:15-20 | a comma is a decimal point: `w,f` reads as whole + fraction |
| ExcelParser.ParseIDRRupiahExample | utils/excelParser.ts:6 | "Rp 28.850" reads as 28850 |
| ExcelParser.ParseIDRCommaExample | utils/excelParser.ts:6 | "28,850" reads as 28.85 |
| ExcelParser.DigitsExample | utils/excelParser.ts:6 | the digit values behind the two example readings |
| ExcelParser.MapStatus | utils/excelParser.ts:27-29 | a status is Completed exactly when its lower-cased text holds "selesai" or "completed" |
| ExcelParser.SubKeywords | utils/excelParser.ts:31-34 | "sudah bayar", "dibatalkan" and "perlu dikirim" each contain a keyword tested no later |
| ExcelParser.MapStatusReduced | utils/excelParser.ts:27-36 | the classification equals the one with the redundant keywords removed, applied to the lower-cased text |
| ExcelParser.DikirimIsDelivered | utils/excelParser.ts:29-30 | a status containing "dikirim" (so "Perlu Dikirim" too) is Completed or Delivered, never InProgress |
| ExcelParser.InProgressKeywords | utils/excelParser.ts:34 | InProgress is reached only through "to ship" or "processed" |
| ExcelParser.MapStatusCaseInsensitive | utils/excelParser.ts:28 | classification ignores letter case |
| ExcelParser.MapStatusSelesai | utils/excelParser.ts:29 | "Selesai" is Completed |
| ExcelParser.MapStatusDibatalkan | utils/excelParser.ts:32 | "Dibatalkan" is Cancelled |
| ExcelParser.ClassifyDibatalkan | utils/excelParser.ts:29-32 | "dibatalkan" falls through to Cancelled |
| ExcelParser.DibatalkanBatal | utils/excelParser.ts:31-32 | "dibatalkan" holds "batal" and neither paid keyword |
| ExcelParser.DibatalkanNotCompleted | utils/excelParser.ts:29 | "dibatalkan" holds no completed keyword |
| ExcelParser.DibatalkanNotDelivered | utils/excelParser.ts:30 | "dibatalkan" holds no delivered keyword |
| ExcelParser.MapStatusUnknown | utils/excelParser.ts:28-35 | a status is Unknown exactly when its lower-cased text holds none of the sixteen keywords |
| ExcelParser.FirstTruthyKey | utils/excelParser.ts:48-68 | the first header alias whose cell is truthy, with every earlier one falsy, or -1 when there is none |
| ExcelParser.FirstPresent | utils/excelParser.ts:48-68 | the alias chain `row[k1] \|\| … \|\| fallback` yields the first truthy cell, or the fallback |
| ExcelParser.Abs | utils/excelParser.ts:58-59 | `Math.abs`: non-negative and equal to the input or its negation |
| ExcelParser.Quantity | utils/excelParser.ts:52 | the quantity is never 0: a NaN or 0 read gives 1, and any other integer read is kept |
| ExcelParser.QuantityOfNumber | utils/excelParser.ts:52 | a non-negative number cell counts its whole part, and 0 counts as 1 |
| ExcelParser.QuantityMissing | utils/excelParser.ts:52 | a row with no quantity cell counts one item |
| ExcelParser.RawStatus | utils/excelParser.ts:53 | the status cell is the first truthy one of 'Status Pesanan' and 'Order Status', or the empty text when both are falsy |
| ExcelParser.OrderOf | utils/excelParser.ts:47-82 | every field is read from the first truthy cell of its own alias chain: the id, the trimmed SKU, the price, the quantity (1 when missing or unreadable), the raw status and its class, subsidy, logistic fee, the magnitudes of commission and service fee, and the estimated income |
| ExcelParser.ParseOrderRow | utils/excelParser.ts:47-82 | a row fails exactly when its first truthy status alias holds a number (a non-zero one, since 0 is falsy), and then with the status error; otherwise it maps to its order |
| ExcelParser.Kept | utils/excelParser.ts:83 | the filter keeps a row's order exactly when its id is truthy, and keeps nothing otherwise |
| ExcelParser.ParseOrders | utils/excelParser.ts:41-84 | an import never yields more orders than rows |
| ExcelParser.ParseOrdersHead | utils/excelParser.ts:47-83 | the first row's order is followed by the rest's; the import fails when either fails |
| ExcelParser.NumericStatusHead | utils/excelParser.ts:53-54 | some row has a numeric status exactly when the first does or some later one does |
| ExcelParser.ParseOrdersFails | utils/excelParser.ts:28-83 | the import fails exactly when some row's first truthy status alias holds a number (necessarily non-zero), on which `toLowerCase` throws |
| ExcelParser.ImportOrders | utils/excelParser.ts:41-84 | the import fails exactly when some row's first truthy status alias holds a number; every order it returns is well formed |
| ExcelParser.ParseOrdersWellImported | utils/excelParser.ts:47-83 | every imported order has a truthy id, a trimmed SKU, a non-zero quantity and non-negative fees |
| ExcelParser.KeptWellImported | utils/excelParser.ts:83 | a row's order that passes the id filter is well imported |
| ExcelParser.ParseOrdersAppend | utils/excelParser.ts:47-83 | rows are mapped independently and in order: two stacked sheets import as the concatenation |
| ExcelParser.ParseOrdersSingle | utils/excelParser.ts:47-83 | one row yields its order exactly when its id is truthy |
| ExcelParser.ScanLimit | utils/excelParser.ts:96 | the header scans (also line 134) look at `min(rows, 30)` rows |
| ExcelParser.SpendColumn | utils/excelParser.ts:99-102 | `findIndex` yields -1 or a position in the row |
| ExcelParser.SpendColumnFirst | utils/excelParser.ts:99-102 | the column found is the first spend cell, and -1 means there is none |
| ExcelParser.AdsHeaderExamples | utils/excelParser.ts:99-102 | "Expense" and "Biaya Iklan" name the spend column, in any case; "Date" does not |
| ExcelParser.SpendHeaderFrom | utils/excelParser.ts:96-107 | the header row found is within the scan limit |
| ExcelParser.SpendHeaderFound | utils/excelParser.ts:96-107 | the header row found has a spend cell, and no earlier scanned row has one |
| ExcelParser.ColumnTotal | utils/excelParser.ts:109-113 | with no spend column (-1) nothing is summed |
| ExcelParser.AdsSpend | utils/excelParser.ts:96-116 | with no spend header in the first 30 rows the spend is 0 |
| ExcelParser.ParseAds | utils/excelParser.ts:86-117 | returns the spend column summed below the header, or 0 when there is no header |
| ExcelParser.FindSpendHeader | utils/excelParser.ts:92-107 | the scan loop yields the first header row and its spend column, or -1 for both |
| ExcelParser.SumColumn | utils/excelParser.ts:109-114 | the summing loop adds `parseIDR` of every cell in the column from the given row on |
| ExcelParser.ColumnTotalAppend | utils/excelParser.ts:110-113 | column totals of stacked blocks add up |
| ExcelParser.SpendHeaderPrefix | utils/excelParser.ts:96-107 | the header scan's result depends only on the rows it reaches |
| ExcelParser.AdsSpendRowsBelow | utils/excelParser.ts:96-114 | rows added below a sheet whose header is found add exactly their column total |
| ExcelParser.AdsSpendAt | utils/excelParser.ts:109-114 | the spend is the column total below the header row |
| ExcelParser.SpendCellCaseInsensitive | utils/excelParser.ts:100 | the spend header is recognised in any letter case |
| ExcelParser.HeaderKey | utils/excelParser.ts:139 | the key of a truthy cell is its `String` lower-cased with white space, `_` and `-` deleted; it holds none of those, and a falsy cell has the empty key |
| ExcelParser.IsColumnOf | utils/excelParser.ts:138-141 | no cell matches an empty pattern list, and a pattern that squeezes to "" matches every cell |
| ExcelParser.FindColumn | utils/excelParser.ts:138-141 | `findCol` yields -1 or a position in the row |
| ExcelParser.FindColumnFirst | utils/excelParser.ts:138-141 | the column found is the first matching cell, and -1 means none matches |
| ExcelParser.CostHeaderFrom | utils/excelParser.ts:134-153 | the header row found is within the scan limit |
| ExcelParser.CostHeaderFound | utils/excelParser.ts:134-153 | the header row found names both a SKU and a cost column, with the columns read from it; no earlier scanned row does |
| ExcelParser.StripSkuTag | utils/excelParser.ts:166 | a leading "sku:", its letters in any case, is removed, and a text without it is unchanged |
| ExcelParser.SkuOf | utils/excelParser.ts:165-166 | the SKU read is the cell's text trimmed; a leading `sku:` in any case is then removed and the rest trimmed again; an untagged SKU is kept as its trim; the result has no white space at either end |
| ExcelParser.NumberIn | utils/excelParser.ts:168 | a text reads as `parseFloat` of its digits and points, every other character deleted; the number read is never negative |
| ExcelParser.NumberInText | utils/excelParser.ts:168 | the text "¥12.50" reads as 12.5: the currency sign is deleted |
| ExcelParser.NumberInMissing | utils/excelParser.ts:168 | a cell past the end of a short row prints as "undefined", holds no digit and costs 0 |
| ExcelParser.UnitCost | utils/excelParser.ts:168 | the unit cost is at least 0: the number read when there is one, and 0 when the read is NaN |
| ExcelParser.ShipMultiplier | utils/excelParser.ts:169 | the multiplier is above 0: 1 without a multiplier column or when the read is NaN or 0, and otherwise the number read |
| ExcelParser.CostRowOf | utils/excelParser.ts:162-177 | a row is skipped exactly when its SKU cell is falsy or its SKU is empty; otherwise it gives the SKU, the cost and the multiplier |
| ExcelParser.CostRowsOf | utils/excelParser.ts:160-178 | no more cost rows than sheet rows |
| ExcelParser.CostSheet | utils/excelParser.ts:155-180 | the import fails exactly when no header is found, carrying the first five rows (or all, when fewer); a success reads fewer rows than the sheet has |
| ExcelParser.ParseCosts | utils/excelParser.ts:119-181 | the rows below the first header row, or the failure carrying the first five rows |
| ExcelParser.FindCostHeader | utils/excelParser.ts:125-153 | the scan loop yields the first header row and its three columns |
| ExcelParser.ReadCostRows | utils/excelParser.ts:160-178 | the row loop collects the cost rows of the rows from the given one on, in order |
| ExcelParser.CostRowsWellFormed | utils/excelParser.ts:165-177 | every cost row read has a trimmed non-empty SKU, a cost of at least 0 and a multiplier above 0 |
| ExcelParser.CostSheetWellFormed | utils/excelParser.ts:160-180 | every row of an imported cost sheet is well formed |
| ExcelParser.CostSheetFails | utils/excelParser.ts:155-158 | the import fails exactly when none of the first 30 rows names both a SKU and a cost column |
| ExcelParser.CostRowsAppend | utils/excelParser.ts:161-178 | rows are read independently and kept in sheet order |
| ExcelParser.NumberInNumber | utils/excelParser.ts:168 | a number cell's cost is its magnitude, because the minus sign is dropped |
| ExcelParser.MagnitudeOfNumber | utils/excelParser.ts:168 | a number's magnitude is its whole part plus its fraction |
| ExcelParser.ShowDigits | utils/excelParser.ts:168 | dropping non-digits from a number's text leaves its unsigned numeral |
| ExcelParser.UnitCostOfNumber | utils/excelParser.ts:168 | a number cell's unit cost is its magnitude |
| ExcelParser.SkuTagRemoved | utils/excelParser.ts:165-166 | an "sku:" tag in any case in front of a trimmed SKU is removed |
| ExcelParser.HeaderKeyIgnoresCase | utils/excelParser.ts:139 | header matching ignores letter case |
| ExcelParser.HeaderKeyIgnoresSeparators | utils/excelParser.ts:139-140 | header matching ignores white space, `_` and `-` |
| ExcelParser.SkuHeader | utils/excelParser.ts:130-140 | the cell "SKU" names the SKU column |
| ExcelParser.CostColumnHeader | utils/excelParser.ts:131-140 | the cell "Cost" names the cost column |
| ExcelParser.CostHeaderExample | utils/excelParser.ts:143-146 | the row "SKU", "Cost" is a cost header row |
| FeeEngine.CostMap | App.tsx:109-110 | every entry is one of the cost rows, keyed by its own SKU, and every cost row's SKU has an entry |
| FeeEngine.CostFor | App.tsx:113-114 | a match is a cost row with the order's SKU; no match means no cost row has that SKU |
| FeeEngine.CostForLast | App.tsx:110-113 | a lookup finds the last cost row with that SKU |
| FeeEngine.CostForMissing | App.tsx:113-114 | a SKU that no cost row names is not matched |
| FeeEngine.UnitCostOf | App.tsx:115 | the matched row's unit cost, and 0 without a match |
| FeeEngine.MultiplierOf | App.tsx:116 | the multiplier used is never 0: 1 without a match or for a multiplier of 0, and otherwise the row's multiplier |
| FeeEngine.LearnedRate | App.tsx:132-133 | a learned rate is used exactly when the map has a non-zero rate for the SKU, and it is that rate |
| FeeEngine.FeeRate | App.tsx:129 | `fee / price` is +Infinity exactly when the price is 0, and otherwise times the price gives the fee back |
| FeeEngine.CommissionOf | App.tsx:121-140 | the commission waterfall: the order's own positive fee at the rate fee / price; else the price times a non-zero learned rate; else the price times the global rate; with its source and whether it is actual |
| FeeEngine.ZeroLearnedRateFallsThrough | App.tsx:132-140 | a learned rate of 0 falls through to the global rate |
| FeeEngine.ServiceFeeOf | App.tsx:143-151 | the order's own service fee when it is positive, else the price times the service rate |
| FeeEngine.XtraFeeOf | App.tsx:153 | 0 when the XTRA programme is off, and the price times the XTRA rate when it is on |
| FeeEngine.CalculateOrder | App.tsx:112-186 | each field of a calculated order: matching, cost per unit, every fee, the fee total, income, profit, the rate and its source; all money is 0 for a cancelled or failed order |
| FeeEngine.ProfitFromFees | App.tsx:154-168 | without a reported income, profit = (price − the four fees) / rate − unit cost × multiplier × quantity |
| FeeEngine.ReportedIncomeIgnoresFees | App.tsx:161-168 | a reported income makes the income and the profit independent of every fee setting |
| FeeEngine.UnmatchedOrderCostsNothing | App.tsx:113-168 | an order without a cost row has cost 0 and profit equal to its income in yuan |
| FeeEngine.CalculateAll | App.tsx:108-188 | one calculated order per order, in order, each priced against the cost looked up by its SKU |
| RateLearner.Snap | App.tsx:58-60 | a rate within 0.005 of 9.5% becomes 9.5%, else one within 0.005 of 8.25% becomes 8.25%, else it is kept |
| RateLearner.SnapProperties | App.tsx:58-60 | snapping moves a rate by less than 0.005, and snapping twice changes nothing |
| RateLearner.Qualifies | App.tsx:56 | an order that teaches a rate has a positive price and a positive commission ratio |
| RateLearner.TaughtRate | App.tsx:57-60 | the rate taught is positive and within 0.005 of commission / price |
| RateLearner.Step | App.tsx:56-64 | the count rises by one exactly when the order qualifies and its SKU has no rate or a different one; a qualifying order sets its SKU's rate to the taught rate; any other order changes nothing |
| RateLearner.Learn | App.tsx:53-64 | the count is at most the number of orders, and no SKU of the starting map is lost |
| RateLearner.LearnRates | App.tsx:53-66 | the learning loop computes the specified map and count |
| RateLearner.LearnCountBound | App.tsx:55-66 | the count is at most the number of qualifying orders |
| RateLearner.LearnNothingNew | App.tsx:61-67 | a count of 0 means the map is the one learning started from |
| RateLearner.LearnKeys | App.tsx:55-64 | the learned SKUs are the ones already known plus the ones a qualifying order names |
| RateLearner.LearnLastWins | App.tsx:55-64 | the last qualifying order for a SKU decides its rate |
| RateLearner.LearnUntouched | App.tsx:55-64 | a SKU that no qualifying order names keeps its rate |
| Stats.EmptyTallyComplete | App.tsx:191-194 | the initial counts cover every status |
| Stats.GoodsCost | App.tsx:204 | a matched order adds its cost times its quantity; an unmatched one adds 0 |
| Stats.Add | App.tsx:198-206 | the loop body keeps a count for every status |
| Stats.TallyOf | App.tsx:198-206 | the tally after the loop covers every status |
| Stats.TallyCounts | App.tsx:191-199 | each status count is the number of orders with that status |
| Stats.CountsAddUp | App.tsx:191-199 | the counts add up to the number of orders |
| Stats.UnsuccessfulAddsNoMoney | App.tsx:200-205 | an order that did not go through is counted but changes no total |
| Stats.Successful | App.tsx:196 | the orders kept all went through |
| Stats.TotalsOverSuccessful | App.tsx:196-206 | the money totals are those of the successful orders alone |
| Stats.StatsOf | App.tsx:208-213 | income and ads are converted at the exchange rate; profit = income / rate − goods cost − ads / rate; the margin is profit over sales in yuan, in percent, and 0 without sales; `hasCosts` holds exactly when there are cost rows |
| Stats.ComputeStats | App.tsx:190-214 | the aggregation loop computes the specified tally and derived figures |
| Dashboard.RowKey | App.tsx:45 | the key is the order id's text, a "-", then the SKU |
| Dashboard.Toggle | App.tsx:46-48 | the key is present afterwards exactly when it was absent, and every other key is unchanged |
| Dashboard.ToggleTwice | App.tsx:44-50 | toggling the same row twice restores the set |
| Dashboard.App.constructor | App.tsx:30-42 | the state starts empty, with the default configuration |
| Dashboard.App.ToggleExpand | App.tsx:44-50 | only the expanded set changes, and it is toggled at the `${orderId}-${sku}` key; the state stays valid |
| Dashboard.App.HandleOrderUpload | App.tsx:75-86 | a readable sheet that imports replaces the orders and clears the costs, the ad spend and the expanded rows; anything else changes nothing; the state stays valid |
| Dashboard.App.HandleAdsUpload | App.tsx:88-96 | a readable sheet sets the ad spend and nothing else; the state stays valid |
| Dashboard.App.HandleCostUpload | App.tsx:98-106 | a sheet whose header is found replaces the cost rows and nothing else; the state stays valid |
| Dashboard.App.LearnCommissionRates | App.tsx:52-73 | the map learned from the current orders is installed only when the count is positive; the count is returned; the state stays valid |
| Dashboard.App.CalculatedData | App.tsx:108-114 | one row per order, in order, each the fee calculation of its order with the cost row its SKU looks up and the current configuration; matched exactly when some cost row names its SKU |
| Dashboard.App.CurrentStats | App.tsx:190-214 | the totals over the per-order table of the current state |
| Dashboard.FreshOrdersUnmatched | App.tsx:108-114 | right after an order import, which clears the cost rows, no order is matched to a cost |
| Dashboard.OwnCommissionIgnoresLearnedRates | App.tsx:127-140 | learned rates never change an order that reports its own commission |

## Behaviour worth noting

- **Quantity may be negative.** `parseInt(...) || 1` only replaces 0 and NaN, so "-3" gives -3. `ExcelParser.Quantity` promises a non-zero quantity, not a positive one.
- **The multiplier may be below 1.** The code keeps any non-zero number read from the cell, for example 0.5. `ExcelParser.ShipMultiplier` promises a multiplier above 0.
- **A numeric status aborts the import.** A non-zero number in the first truthy status alias makes `status?.toLowerCase()` throw, and the whole order import fails (`ExcelParser.ParseOrdersFails`). A 0 is falsy, so `||` moves on to the next alias or to `''` and nothing throws. The upload handler then leaves the state as it was.
- **`String(undefined)` is the word itself.** A missing cell prints as "undefined" in the places where the code calls `String` on it: the spend header test, the cost column and the multiplier column.
- **The comma is a decimal point.** "28,850" reads as 28.85, while "Rp 28.850" reads as 28850 (`ExcelParser.ParseIDRDecimalComma`, `ExcelParser.ParseIDRThousands`).

## Left out

- Reading the workbook (`file.arrayBuffer`, `XLSX.read`, `sheet_to_json`) is left out. Handlers receive the decoded first sheet, a missing file, or a file the reader rejects (`Upload.Unreadable`).
- Floating point is modelled with exact reals, with no rounding, NaN or IEEE overflow.
- `isFinite` in `parseIDR` is left out. The grammar has no exponent and no "Infinity", so every read is finite.
- `commissionRateUsed` for a positive fee over a zero price is the value `PositiveInfinity`. Other divisions by zero cannot happen, because the exchange rate is required to be positive (`Dashboard.App.Valid`).
- Numbers.ParseFloat and Numbers.ParseInt: only the decimal grammar is modelled (white space, sign, digits, one point). Exponents, "Infinity" and `parseInt`'s hexadecimal prefix are not.
- Cells.Show: `String(x)` is exact except for the exponent form JavaScript uses below 1e-6 and from 1e21 up.
- Strings.ToLower lower-cases the ASCII letters only. Other Unicode case mappings are not modelled.
- Header patterns and spend words are parameters (`ColumnPatterns`, `SpendHeaders`). The constants `CostColumns` and `AdsHeaders` hold the lists the source uses, and the entry points pass them.
- The `!row` / `Array.isArray` checks in the scans are left out, because every row of a decoded grid is an array.
- In `parseCosts` the rows read are never missing. A cell past the end of a row is `undefined` (`Cells.CellAt`).
- Keys such as `__proto__` on the SKU rate map are not modelled. JavaScript objects treat them specially; the map here is an ordinary map.
- Editing the configuration from the sidebar (`setConfig` from its inputs) is not modelled, nor is a user-entered exchange rate of 0 or less.
- The `alert` messages, the Chinese error text of `parseCosts`, JSX rendering, `toFixed`, `toLocaleString` and the presentation components are not modelled. Failure is a `Result`, and the learning count is returned.
- The React rendering cycle is not modelled. `calculatedData` and `stats` are the pure function `CalculatedData` and the method `CurrentStats` over the current state, rather than memoised values.
- main.cjs (the desktop shell) is not part of this model.
- OrderRow fields `shippingSubsidy` and `logisticFee` are read and stored but used by no computation, and the model does the same.
