# Invoice extractor: a verified model of its core

The extractor turns the ordered text lines of an Argentine invoice PDF into a fixed-schema
monetary record. First the lines are read, from the PDF's text layer or from OCR. Then:

- the header is located: the invoice type, the last invoice number, the first date, and the CAE
  with its due date;
- the parties are located: the provider, the client and their CUITs;
- the vendor is resolved, from a hint, from keywords or from the provider's CUIT;
- a totals strategy fills subtotal, IVA, perceptions and total into the record in place. This is
  the vendor's handler when one is registered (GUERRINI here), otherwise the generic fallback;
- the total is checked against its parts and filled in when missing;
- the record becomes a minimal payload: the number, an ISO date, the provider's CUIT, the amounts
  rounded to cents, the IVA grouped by rate in a canonical order, and the perceptions and
  withholdings classified into a closed set of tax buckets;
- the payload is rendered as `key=value` lines or as an INI file, for a VB6 client.

This project models that core in Dafny, one module per source file:

- `TextUtils`: line normalisation and the amount parser;
- `MetadataExtractor`: the header and party locators;
- `HandlersGuerrini` and `FallbackTotals`: the two totals strategies;
- `TaxNormalizer`: the normaliser;
- `Extractor`: the pipeline;
- `Formatters`: the renderers;
- `VendorConfig`: the vendor configuration;
- `PdfReader`: the pure parts of line acquisition.

Some modules are shared:

- `Text`: Python's string operations;
- `Decimal`: exact decimal arithmetic and `round(x, 2)`;
- `OrderedDict`: Python's insertion-ordered `dict`;
- `Scan`: the first-match, last-match and backward line scans;
- `Patterns`: the regular expressions whose semantics stay open;
- `InvoiceRecord`: the mutable `out` record;
- `Wrappers`: `Option`.

The code that updates things in place is imperative Dafny:

- the handlers, the fallback and `validate_and_repair` are methods on the `Record` class, which
  holds the `out` dictionary;
- the loops that build lists and dictionaries are methods with loop invariants.

Each such method is proved equal to a reference function. The promised properties are then
proved as lemmas about that function: first and last match, window bounds, sums, orderings,
permutations, closed key sets, idempotence and round trips.

## Model

| member | source | states |
|---|---|---|
| TextUtils.CollapseSpace | app/services/text_utils.py:9 | empty exactly when the input is empty; keeps a non-space first character; every whitespace character left is a plain space and no two spaces are adjacent |
| TextUtils.NormLineNormalized | app/services/text_utils.py:7-10 | the normalised line has no NBSP, no leading or trailing whitespace and no run of two whitespace characters |
| TextUtils.CollapseSpaceFixpoint | app/services/text_utils.py:9 | a string whose whitespace is single plain spaces is left unchanged by the collapse |
| TextUtils.NormLineFixpoint | app/services/text_utils.py:7-10 | a normalised line is a fixed point of `norm_line` |
| TextUtils.NormLineIdempotent | app/services/text_utils.py:7-10 | applying `norm_line` twice equals applying it once |
| TextUtils.StripCurrency | app/services/text_utils.py:13-14 | the result holds no `$` and neither starts nor ends with whitespace |
| TextUtils.KeepNumeric | app/services/text_utils.py:21 | the filtered text holds only digits, `,`, `.` and `-` |
| TextUtils.KeepNumericIdentity | app/services/text_utils.py:21 | text made only of digits, `,`, `.` and `-` passes the filter unchanged |
| TextUtils.KeepNumericSpaces | app/services/text_utils.py:20-21 | whitespace alone filters to nothing |
| TextUtils.KeepNumericRemove | app/services/text_utils.py:20-21 | removing a non-numeric character (the spaces of line 20) before the filter changes nothing |
| TextUtils.KeepNumericStrip | app/services/text_utils.py:14-21 | stripping before the filter changes nothing |
| TextUtils.CleanNumberCandidate | app/services/text_utils.py:17-22 | `None` gives `None`; a result is nonempty and made only of digits, `,`, `.` and `-` |
| TextUtils.CleanNumberCandidateFilter | app/services/text_utils.py:17-22 | the cleaned candidate is exactly the `[0-9,.\-]` filter of the raw text, `None` when the filter leaves nothing |
| TextUtils.CleanNumberCandidateClean | app/services/text_utils.py:17-22 | a nonempty candidate that is already clean comes back unchanged |
| TextUtils.LastSeparator | app/services/text_utils.py:52-55 | `None` exactly when the text has no `.` and no `,`; otherwise a separator |
| TextUtils.ParseNumberSmart | app/services/text_utils.py:64-78 | the loop over the strategies returns the value of the reference chain `SmartNumber` |
| TextUtils.StrategiesOrder | app/services/text_utils.py:68-77 | the strategies are tried in the order decimal tail, single separator, last separator, plain parse, and the first value wins |
| TextUtils.SmartNumberOrder | app/services/text_utils.py:64-78 | on a clean candidate the parse is the first value of that chain |
| TextUtils.SmartNumberByDecimalTail | app/services/text_utils.py:32-36 | a candidate with a decimal tail whose normalised text parses gets that value, whatever the later strategies say |
| TextUtils.SmartNumberBySingleSeparator | app/services/text_utils.py:40-48 | without a decimal tail, a value of the single-separator strategy is the result |
| TextUtils.SmartNumberJunk | app/services/text_utils.py:17-22 | `None`, or text with no digit, separator or minus sign, parses to `None` rather than failing |
| TextUtils.SmartNumberAbc | app/services/text_utils.py:64-67 | "abc" parses to `None` |
| TextUtils.DecimalTailRule | app/services/text_utils.py:32-36 | a separator followed by exactly two final digits is the decimal point and the other separator kind is dropped as a thousands mark |
| TextUtils.DecimalTailValue | app/services/text_utils.py:32-36 | once the normalised text is `core.dd` the value is `core.dd` |
| TextUtils.SmartNumberThousandsComma | app/services/text_utils.py:32-36 | "1.234,56" parses to 1234.56 |
| TextUtils.SmartNumberThousandsDot | app/services/text_utils.py:32-36 | "1,234.56" parses to 1234.56 |
| TextUtils.SmartNumberWholeCents | app/services/text_utils.py:32-36 | "169000.00" parses to 169000.0 |
| TextUtils.CommaOnlyDropsCommas | app/services/text_utils.py:41-42 | a comma-only candidate without a decimal tail drops every comma, even one meant as a decimal point |
| TextUtils.SmartNumberCommaDecimal | app/services/text_utils.py:41-42 | "12,5" parses to 125.0 |
| TextUtils.TwoDotsNotFloat | app/services/text_utils.py:25-29 | Python's `float` rejects text with two dots |
| TextUtils.DotsOnlyDropsDots | app/services/text_utils.py:43-47 | a dot-only candidate with two or more dots fails the plain parse and is read with its dots dropped |
| TextUtils.SingleDotIsDecimalPoint | app/services/text_utils.py:43-46 | a lone dot not followed by exactly two digits is read as a decimal point |
| TextUtils.SmartNumberSingleDot | app/services/text_utils.py:43-46 | "1.234" parses to 1.234, not 1234 |
| TextUtils.DigitRun | app/services/text_utils.py:87-88 | the `\d+` run of the number patterns stays inside the text |
| TextUtils.DigitRunSpan | app/services/text_utils.py:87-88 | the run is all digits and maximal |
| TextUtils.Groups | app/services/text_utils.py:87-88 | the `(?:[.,]\d{3})*` groups taken stay inside the text |
| TextUtils.NumAnyEnd | app/services/text_utils.py:88 | a `NUM_ANY` match that starts at a position ends after it and inside the text |
| TextUtils.NumAnySearch | app/services/text_utils.py:88-95 | a found match lies at or after the search position and is a `NUM_ANY` match there |
| TextUtils.NumAnySearchLeftmost | app/services/text_utils.py:95 | the search finds the leftmost match, and none exactly when no position starts one |
| TextUtils.NumAnyAll | app/services/text_utils.py:88 | `finditer` lists nothing exactly when the search from the start finds nothing |
| TextUtils.MatchNumericFragment | app/services/text_utils.py:91-98 | a line `NUM_PURE` matches is the fragment itself; otherwise there is a fragment exactly when `NUM_ANY` matches; a fragment is a nonempty piece of the line |
| TextUtils.FragmentPureBeforeAny | app/services/text_utils.py:91-94 | `NUM_PURE` is preferred: "1.234,56" and "1234,56" are taken whole |
| TextUtils.LineAmount | app/services/text_utils.py:104-106 | a blank line contributes no amount |
| TextUtils.WindowEnd | app/services/text_utils.py:102 | the window ends at `min(len(lines), start_idx + max_ahead + 1)` |
| TextUtils.FirstAmountForward | app/services/text_utils.py:101-112 | the loop returns the value of the reference scan `AmountAhead` |
| TextUtils.AmountAheadWindow | app/services/text_utils.py:101-112 | the result is the amount of the first window line that has one, and `None` exactly when no line of the window has one |
| TextUtils.AmountAheadLocal | app/services/text_utils.py:101-103 | lines beyond the window are never inspected: lists with the same clipped window end `min(len, start + max_ahead + 1)` that agree on the window give the same result, also when the window is cut short by the end of the list |
| MetadataExtractor.FacturaAt | app/services/metadata_extractor.py:10-12 | a `Factura X` match tried at one position yields the upper-cased letter A, B or C |
| MetadataExtractor.FacturaSearch | app/services/metadata_extractor.py:10-12 | the leftmost `Factura X` match of the line yields A, B or C |
| MetadataExtractor.LineType | app/services/metadata_extractor.py:10-15 | what a line says about the type is A, B or C |
| MetadataExtractor.FindInvoiceType | app/services/metadata_extractor.py:8-16 | the loop returns the reference `InvoiceType` |
| MetadataExtractor.InvoiceTypeFirstLine | app/services/metadata_extractor.py:8-16 | the type is A, B or C; it is `None` exactly when no line of the first 200 names a type; otherwise it is the type named by the first such line |
| MetadataExtractor.InvoiceTypeRegion | app/services/metadata_extractor.py:9 | nothing past index 199 is looked at |
| MetadataExtractor.LineTypeFacturaFirst | app/services/metadata_extractor.py:10-12 | on a line with a `Factura X` match that letter wins over the bare-letter rule |
| MetadataExtractor.LineTypeBareLetter | app/services/metadata_extractor.py:13-15 | without `Factura X`, a line that strips to one of a, b, c, A, B, C gives that letter upper-cased |
| MetadataExtractor.NumFactSearch | app/services/metadata_extractor.py:21-23 | a `\d{4}-\d{8}` match is 13 characters with the dash at position 4 |
| MetadataExtractor.FindInvoiceNumber | app/services/metadata_extractor.py:18-24 | the loop returns the reference `InvoiceNumber` |
| MetadataExtractor.InvoiceNumberLast | app/services/metadata_extractor.py:18-24 | the number comes from the last line of the document that has a match (line 40 beats line 5) |
| MetadataExtractor.InvoiceNumberNone | app/services/metadata_extractor.py:18-24 | there is no number exactly when no line has a match |
| MetadataExtractor.FindFirstDate | app/services/metadata_extractor.py:27-32 | the loop returns the reference `FirstDate` |
| MetadataExtractor.FirstDateFirst | app/services/metadata_extractor.py:27-32 | the date is the match of the first line that has one, and `None` exactly when no line has one |
| MetadataExtractor.NeighborEnd | app/services/metadata_extractor.py:38 | the look-ahead ends at `min(idx + 3, len(lines))` |
| MetadataExtractor.DateFromNeighbors | app/services/metadata_extractor.py:34-43 | the method returns the reference `NeighborDate` |
| MetadataExtractor.NeighborDateLocal | app/services/metadata_extractor.py:34-43 | only lines idx, idx+1 and idx+2 are consulted |
| MetadataExtractor.CaeSearch | app/services/metadata_extractor.py:52 | a `\b\d{14}\b` match is 14 digits |
| MetadataExtractor.CaeToken | app/services/metadata_extractor.py:49-52 | only a line whose upper-case form contains "CAE" contributes a token |
| MetadataExtractor.ExtractCaeData | app/services/metadata_extractor.py:45-57 | the loop returns the reference pair `CaeData` |
| MetadataExtractor.CaeFromLastLine | app/services/metadata_extractor.py:48-54 | the CAE is the token of the last CAE line that has one, and `None` when none has one |
| MetadataExtractor.CaeDueFromLastLine | app/services/metadata_extractor.py:55-56 | the due date is the neighbour date of the last CAE line mentioning VTO or VENC, even when that is `None` |
| MetadataExtractor.CaeDueNone | app/services/metadata_extractor.py:47-56 | without such a line there is no due date |
| MetadataExtractor.ExtractHeaderCommon | app/services/metadata_extractor.py:59-67 | the header is the reference `HeaderOf`: type, number, first date, CAE and due date |
| MetadataExtractor.Tagged | app/services/metadata_extractor.py:72-73 | each match of a line is paired with the line's index, in order |
| MetadataExtractor.CollectCuitPositions | app/services/metadata_extractor.py:69-75 | the loops and the sort return the reference list `CuitPositions` |
| MetadataExtractor.CuitPositionsBound | app/services/metadata_extractor.py:71-73 | every collected index is below the number of lines scanned |
| MetadataExtractor.CuitPositionsByLine | app/services/metadata_extractor.py:71-74 | the collected list is already ordered by line, so the stable sort leaves it unchanged |
| MetadataExtractor.CuitPositionsMember | app/services/metadata_extractor.py:71-73 | a pair is collected exactly when its CUIT is a match of its line |
| MetadataExtractor.ClientCandidate | app/services/metadata_extractor.py:81-85 | a qualifying line gives its stripped, nonempty text |
| MetadataExtractor.GuessClientName | app/services/metadata_extractor.py:77-86 | the loop returns the reference `ClientName` |
| MetadataExtractor.ClientCandidateOrdinal | app/services/metadata_extractor.py:84 | "Nº 5" is not upper case, because `º` is lower case as in Python, so it does not qualify, while "N 5" does |
| MetadataExtractor.ClientNameTopmost | app/services/metadata_extractor.py:78-86 | the name is `ClientCandidate` of a line that qualifies (nonempty, and matching a client keyword or upper case), no line above it in the window qualifies, and the result is `None` exactly when no line among the five above idx and idx itself qualifies |
| MetadataExtractor.GuessVendorName | app/services/metadata_extractor.py:93-102 | the loop returns the reference `VendorName` |
| MetadataExtractor.VendorNameRegion | app/services/metadata_extractor.py:94-99 | a missing, empty or unlisted vendor has no name, and only the first 80 lines are searched |
| MetadataExtractor.Others | app/services/metadata_extractor.py:114 | no remaining position carries the provider's CUIT |
| MetadataExtractor.OthersLast | app/services/metadata_extractor.py:114-116 | the rest is empty exactly when every CUIT is the provider's; its last element is the last position with a different CUIT |
| MetadataExtractor.OthersSub | app/services/metadata_extractor.py:114 | the rest is drawn from the positions |
| MetadataExtractor.ExtractNamesAndCuits | app/services/metadata_extractor.py:104-119 | the method returns the reference `PartiesOf` |
| MetadataExtractor.PartiesCuits | app/services/metadata_extractor.py:111-117 | no CUIT gives no CUITs and no client; the provider's CUIT is the first one; the client's is the last one that differs from it, and is absent (with the client name) when all are equal |
| MetadataExtractor.OthersExample | app/services/metadata_extractor.py:113-116 | CUITs A, B, A, C give provider A and client C |
| MetadataExtractor.DetectVendorBasic | app/services/metadata_extractor.py:121-127 | the loops return the reference `VendorByKeywords` |
| MetadataExtractor.VendorByKeywordsFirst | app/services/metadata_extractor.py:122-127 | the vendor is the first entry, in map order, with a keyword in the upper-cased header, and `None` exactly when no entry has one |
| MetadataExtractor.VendorByKeywordsRegion | app/services/metadata_extractor.py:122 | lines past the first 120 do not matter |
| MetadataExtractor.DetectVendorByCuit | app/services/metadata_extractor.py:129-132 | a vendor is found exactly when the CUIT is nonempty and in the map, and it is the map's entry |
| Scan.LastIndex | app/vendors/handlers_guerrini.py:11-14 | the last index whose element passes the test, with none passing after it; `None` exactly when none passes |
| Scan.FindLast | app/vendors/handlers_guerrini.py:11-14 | the backward `for i in range(len(lines) - 1, -1, -1)` search returns the reference `LastIndex` |
| HandlersGuerrini.Window | app/vendors/handlers_guerrini.py:17 | the window is the slice of at most `size` lines from the anchor, clipped to the end, and full-sized when enough lines follow |
| HandlersGuerrini.WindowAfterLast | app/vendors/handlers_guerrini.py:11-17 | a window opened at the last matching line starts with it and holds no other matching line |
| HandlersGuerrini.SubtotalWordFromIff | app/vendors/handlers_guerrini.py:12 | the `\bSUBTOTAL\b` search succeeds exactly when the whole word occurs at some position |
| HandlersGuerrini.SubtotalWordSuperscript | app/vendors/handlers_guerrini.py:12 | a superscript digit counts for `\w`, so "SUBTOTAL²" has no whole-word match, while "SUBTOTAL 2" has one |
| HandlersGuerrini.PureValue | app/vendors/handlers_guerrini.py:20-23 | a line `NUM_PURE` does not match contributes no value |
| HandlersGuerrini.ReadPureLine | app/vendors/handlers_guerrini.py:20-23 | the loop body computes `PureValue` |
| HandlersGuerrini.ExtractTotalsNumeric | app/vendors/handlers_guerrini.py:9-39 | returns whether the reference `NumericTotals` writes, and leaves the record it describes (unchanged when it does not write) |
| HandlersGuerrini.NumericTotalsOf | app/vendors/handlers_guerrini.py:17-26 | at most four values are used, and fewer than two values write nothing |
| HandlersGuerrini.NumericTotalsWrites | app/vendors/handlers_guerrini.py:11-38 | the anchor is the last line with the word SUBTOTAL; subtotal and IVA are the first two numeric-only lines of its 60-line window; the third is perceptions (0.0 and no item without one); the fourth is the total, else the total is `round(subtotal + iva + perceptions, 2)`, in whole cents; header entries are untouched |
| HandlersGuerrini.NumericTotalsUntouched | app/vendors/handlers_guerrini.py:15-26 | without a SUBTOTAL line, or with fewer than two amounts after it, nothing is written |
| HandlersGuerrini.NumPureCents | app/services/text_utils.py:87 | one to three digits, a dot and two digits match `NUM_PURE` |
| HandlersGuerrini.PureValueCents | app/vendors/handlers_guerrini.py:20-23 | such a line contributes its decimal value |
| HandlersGuerrini.NumericFourValues | app/vendors/handlers_guerrini.py:28-38 | a SUBTOTAL line followed by four amounts puts them in subtotal, IVA, perceptions and total, in order |
| HandlersGuerrini.NotPureValue | app/vendors/handlers_guerrini.py:20 | a line that does not end in a digit is not an amount line |
| HandlersGuerrini.NumericExample | app/vendors/handlers_guerrini.py:9-39 | ["SUBTOTAL", "100.00", "21.00", "0.00", "121.00"] gives 100, 21, 0 and 121 |
| HandlersGuerrini.AfterLastSplit | app/vendors/handlers_guerrini.py:48-49 | `split(':')[-1]` is the text after the last colon |
| HandlersGuerrini.AmountAfterColon | app/vendors/handlers_guerrini.py:47-52 | when the text after the last colon holds a token, the text before it is never read |
| HandlersGuerrini.NumAnyEndShift | app/vendors/handlers_guerrini.py:49-50 | a `NUM_ANY` match read in a suffix is the same match |
| HandlersGuerrini.AmountFromLineNone | app/vendors/handlers_guerrini.py:50-54 | a line with no `NUM_ANY` token has no amount |
| HandlersGuerrini.IvaExampleTokens | app/vendors/handlers_guerrini.py:50 | the only token of " 0.00" is "0.00" |
| HandlersGuerrini.AmountFromLineIvaExample | app/vendors/handlers_guerrini.py:42-56 | "IVA 21.00: 0.00" reads 0.00, the amount after the colon, not the rate |
| HandlersGuerrini.OcrScanStopped | app/vendors/handlers_guerrini.py:88-90 | once the scan breaks at TOTAL, later lines are not read |
| HandlersGuerrini.ApplyOcrSubtotal | app/vendors/handlers_guerrini.py:95-96 | the subtotal entry is the one found, else the one already there |
| HandlersGuerrini.ReadOcrLine | app/vendors/handlers_guerrini.py:73-90 | the loop body takes the reference step `OcrStep` |
| HandlersGuerrini.ExtractTotalsOcr | app/vendors/handlers_guerrini.py:59-107 | returns whether the reference `OcrTotals` writes, and leaves the record it describes |
| HandlersGuerrini.OcrStepSubtotal | app/vendors/handlers_guerrini.py:74-76 | only a line mentioning SUBTOTAL sets the subtotal, and only while none is set |
| HandlersGuerrini.OcrSubtotalKept | app/vendors/handlers_guerrini.py:72-76 | with the anchor first and no other SUBTOTAL line, the subtotal is the anchor's amount |
| HandlersGuerrini.OcrSubtotalFromAnchor | app/vendors/handlers_guerrini.py:60-76 | the subtotal written is read from the last line mentioning SUBTOTAL and from no other line |
| HandlersGuerrini.OcrTotalRule | app/vendors/handlers_guerrini.py:95-106 | the total is the TOTAL line's amount, else with a subtotal the rounded sum in whole cents, else unchanged; IVA and perceptions are written only when found; header entries are untouched |
| HandlersGuerrini.ExtractTotalsGuerrini | app/vendors/handlers_guerrini.py:111-120 | the handler leaves the record the reference `GuerriniTotals` describes |
| HandlersGuerrini.GuerriniKeepsHeader | app/vendors/handlers_guerrini.py:111-120 | header, parties, `debug` and `warnings` are unchanged |
| HandlersGuerrini.GuerriniOrder | app/vendors/handlers_guerrini.py:112-120 | the OCR flag picks the first strategy, and the second runs only when the first wrote nothing |
| HandlersGuerrini.WriteNumeric | app/vendors/handlers_guerrini.py:33-38 | the writes after two to four values were collected leave the reference `ApplyNumeric` of the old record |
| HandlersGuerrini.WriteOcr | app/vendors/handlers_guerrini.py:95-106 | the writes after the loop, once something was found, leave the record `ApplyOcr` describes |
| FallbackTotals.NormalizeOcrKeyword | app/services/fallback_totals.py:7-11 | the length is kept and each character is replaced through the seven-entry OCR fix table |
| FallbackTotals.NormalizeOcrKeywordFixes | app/services/fallback_totals.py:7-11 | none of the seven replaced characters is left, every other character stays where it was, and a second pass changes nothing |
| FallbackTotals.Tail | app/services/fallback_totals.py:15-16 | the tail is the last `min(len(lines), 150)` lines |
| FallbackTotals.ScanSubtotal | app/services/fallback_totals.py:23-26 | the SUBTOTAL test computes the step `StepSub` |
| FallbackTotals.ScanIva | app/services/fallback_totals.py:27-31 | the IVA test computes the step `StepIva` |
| FallbackTotals.ScanPerc | app/services/fallback_totals.py:32-36 | the perception test computes the step `StepPerc` |
| FallbackTotals.ScanTotal | app/services/fallback_totals.py:37-40 | the TOTAL test computes the step `StepTot` |
| FallbackTotals.ScanLine | app/services/fallback_totals.py:21-40 | the loop body runs the four tests in order, as `FallbackStep` |
| FallbackTotals.FallbackTotals | app/services/fallback_totals.py:14-48 | the record left is the reference `FallbackResult` of the lines and the old record |
| FallbackTotals.FallbackScanSums | app/services/fallback_totals.py:17-36 | the running IVA and perception amounts are the sums of their item lists and are `None` exactly while no item was recorded; IVA items carry no rate |
| FallbackTotals.FallbackStepClasses | app/services/fallback_totals.py:23-40 | the four tests are independent: a line can add an IVA item and a perception item, and a SUBTOTAL line is also a TOTAL line |
| FallbackTotals.SubtotalIsTotal | app/services/fallback_totals.py:23-37 | text containing SUBTOTAL contains TOTAL |
| FallbackTotals.FallbackSubtotalFirst | app/services/fallback_totals.py:23-26 | the subtotal is the amount of the first SUBTOTAL line that has one, and `None` exactly when none has |
| FallbackTotals.FallbackTotalLast | app/services/fallback_totals.py:37-40 | the total is the amount of the last TOTAL line that has one, and `None` exactly when none has |
| FallbackTotals.FallbackWrites | app/services/fallback_totals.py:41-48 | all six totals entries are overwritten from the loop variables; the total is computed, in whole cents, only when no TOTAL line had an amount and a subtotal was found; the header is kept |
| FallbackTotals.FallbackIgnoresHead | app/services/fallback_totals.py:15-16 | lines above the last 150 are never read |
| FallbackTotals.WriteFallback | app/services/fallback_totals.py:41-48 | the writes after the loop leave the reference `ApplyFallback` of the old record and the loop state |
| TaxNormalizer.RuleKeysRetentions | app/services/tax_normalizer.py:33-39 | the keys of rules 1-7 are fixed fields |
| TaxNormalizer.RuleKeysNational | app/services/tax_normalizer.py:40-46 | the keys of rules 8-14 are fixed fields |
| TaxNormalizer.RuleKeysProvinces | app/services/tax_normalizer.py:47-53 | the keys of rules 15-21 are fixed fields |
| TaxNormalizer.RuleKeysRest | app/services/tax_normalizer.py:54-60 | the keys of rules 22-28 are fixed fields |
| TaxNormalizer.RuleKeysFixed | app/services/tax_normalizer.py:6-61 | there are 28 rules and 23 fixed fields, and every rule names a fixed field, so the bucket set is closed |
| TaxNormalizer.FirstRule | app/services/tax_normalizer.py:76-79 | the index found is the first rule from `i` on whose pattern matches, and none is found only when no rule matches |
| TaxNormalizer.ItemKeyIn | app/services/tax_normalizer.py:73-79 | an item's bucket is one of the rule keys |
| TaxNormalizer.InitOf | app/services/tax_normalizer.py:67 | the initial schema has the fields as keys, in order, each `None` |
| TaxNormalizer.MatchRule | app/services/tax_normalizer.py:75-79 | the inner loop stops at the reference `FirstRule` |
| TaxNormalizer.ClassifyItems | app/services/tax_normalizer.py:72-81 | the item loop computes the reference fold `SchemaFold` |
| TaxNormalizer.NormalizeFixedSchema | app/services/tax_normalizer.py:66-82 | the method returns the reference `FixedSchema` |
| TaxNormalizer.AddItemKeys | app/services/tax_normalizer.py:80-81 | adding an item to an existing bucket keeps the key list |
| TaxNormalizer.SchemaFoldKeys | app/services/tax_normalizer.py:72-81 | classifying never adds or reorders keys when every rule key is present |
| TaxNormalizer.FixedSchemaKeys | app/services/tax_normalizer.py:66-82 | the result has exactly the 23 fixed keys, in the fixed order |
| TaxNormalizer.AddItemGet | app/services/tax_normalizer.py:80-81 | one item changes at most the bucket it is classified into |
| TaxNormalizer.SchemaFoldBucket | app/services/tax_normalizer.py:72-81 | a bucket after the fold is the running rounded sum of its items |
| TaxNormalizer.InitGet | app/services/tax_normalizer.py:67 | every fixed key starts `None` |
| TaxNormalizer.FixedSchemaBucket | app/services/tax_normalizer.py:66-82 | a fixed key's bucket is `None` until an item is classified into it, then the running sum rounded to cents after each addition |
| TaxNormalizer.BucketOfUnmatched | app/services/tax_normalizer.py:80-81 | a bucket no item goes to stays `None`; a filled one holds whole cents |
| TaxNormalizer.ItemKeyFirstRule | app/services/tax_normalizer.py:73-79 | an item is classified exactly when some rule matches its upper-cased description, and then under the first matching rule's key |
| TaxNormalizer.SchemaItemsSynthetic | app/services/tax_normalizer.py:68-71 | with no detail items but a total, the total alone is classified as "PERCEP. IIBB"; with detail items those are used |
| TaxNormalizer.ToIsoDateDayFirst | app/services/tax_normalizer.py:89-92 | DD?MM?YYYY with `/`, `-` or `.` becomes YYYY-MM-DD, with no check that the day or month exists |
| TaxNormalizer.ToIsoDateYearFirst | app/services/tax_normalizer.py:93-95 | YYYY?MM?DD with `/` or `-` becomes YYYY-MM-DD |
| TaxNormalizer.ToIsoDateIsoFixed | app/services/tax_normalizer.py:93-95 | an ISO date is left as it is |
| TaxNormalizer.ToIsoDateIdempotent | app/services/tax_normalizer.py:85-96 | a missing or empty date gives `None`, and rewriting a rewritten date changes nothing unless it was only blanks |
| TaxNormalizer.SnapRates | app/services/tax_normalizer.py:104-115 | a value within 1e-6 of a canonical rate becomes that rate; any other is kept; snapping twice is snapping once |
| TaxNormalizer.ParseAliquotaNone | app/services/tax_normalizer.py:100-101 | no rate text gives no rate |
| TaxNormalizer.CleanRateDigits | app/services/tax_normalizer.py:102 | plain digits are unchanged by the clean-up |
| TaxNormalizer.CleanRatePercent | app/services/tax_normalizer.py:102 | a trailing `%` is removed |
| TaxNormalizer.ParseAliquotaWhole | app/services/tax_normalizer.py:99-117 | a whole-number rate such as "21" or "27%" reads as that number, snapped |
| TaxNormalizer.RatedAmounts | app/services/tax_normalizer.py:122-124 | each item as its rate bucket and its amount, in order |
| TaxNormalizer.BucketByRate | app/services/tax_normalizer.py:121-128 | the first loop computes the reference `Buckets` |
| TaxNormalizer.LabelBuckets | app/services/tax_normalizer.py:131-134 | the second loop computes the reference `Labelled` |
| TaxNormalizer.OrderCanon | app/services/tax_normalizer.py:135-139 | the third loop computes the reference `CanonFirst` |
| TaxNormalizer.AppendRest | app/services/tax_normalizer.py:140-142 | the fourth loop computes the reference `RestAfter` |
| TaxNormalizer.SumIvaByRate | app/services/tax_normalizer.py:120-143 | the four loops compute the reference `IvaByRate` |
| TaxNormalizer.AddBucketShape | app/services/tax_normalizer.py:126-128 | adding one amount creates or updates its rate's bucket, in whole cents, and changes no other |
| TaxNormalizer.BucketsUnique | app/services/tax_normalizer.py:121-128 | no rate has two buckets |
| TaxNormalizer.BucketsFrom | app/services/tax_normalizer.py:121-128 | every bucket is the rate of some item and holds whole cents |
| TaxNormalizer.BucketsCover | app/services/tax_normalizer.py:121-128 | every item's rate has a bucket |
| TaxNormalizer.LabelStepShape | app/services/tax_normalizer.py:132-134 | relabelling one bucket keeps labels unique |
| TaxNormalizer.LabelledShape | app/services/tax_normalizer.py:131-134 | each labelled entry is a bucket under its label, and labels are not repeated |
| TaxNormalizer.CanonStepShape | app/services/tax_normalizer.py:137-139 | one canonical step adds only a positive entry under that rate's label |
| TaxNormalizer.CanonFirstShape | app/services/tax_normalizer.py:135-139 | the canonical part holds positive entries under canonical labels, once each |
| TaxNormalizer.RestStepShape | app/services/tax_normalizer.py:140-142 | one rest step appends only a new positive entry |
| TaxNormalizer.RestAfterShape | app/services/tax_normalizer.py:140-142 | the rest is appended after the canonical part, and every positive entry ends up listed |
| TaxNormalizer.IvaByRateShape | app/services/tax_normalizer.py:120-143 | the grouping lists each label once with a positive amount equal to its bucket; the canonical part is a prefix of it; every positive bucket is listed |
| TaxNormalizer.IvaByRateOrder | app/services/tax_normalizer.py:120-143 | the keys are the labels 27, 21, 10.5, 5, 2.5 that have a positive amount, in that order, then the other positive labels in the order of the labelled buckets; the labels keep the order of the buckets, and the buckets the order in which the items' rates first occur |
| TaxNormalizer.BucketsFirstSeen | app/services/tax_normalizer.py:121-128 | the buckets are keyed by the rates in the order each first occurs |
| TaxNormalizer.RateBucketsFirstSeen | app/services/tax_normalizer.py:121-130 | with items, the buckets are the items' rates in first-seen order |
| TaxNormalizer.LabelledFirstSeen | app/services/tax_normalizer.py:131-134 | relabelling keeps the bucket order, and a label met again keeps its first position |
| TaxNormalizer.CanonLabelsText | app/services/tax_normalizer.py:136-137 | the canonical rates are labelled "27", "21", "10.5", "5", "2.5" |
| TaxNormalizer.CanonKeys | app/services/tax_normalizer.py:136-139 | the reference canonical part: a canonical label is in it exactly when `out` has it with a positive amount |
| TaxNormalizer.CanonFirstKeys | app/services/tax_normalizer.py:135-139 | the canonical loop's keys are the positive canonical labels in canonical order |
| TaxNormalizer.CanonFirstHolds | app/services/tax_normalizer.py:135-139 | an entry of `out` is in the canonical part exactly when its label is canonical and its amount positive |
| TaxNormalizer.RestKeys | app/services/tax_normalizer.py:140-142 | the reference rest: labels of positive, non-canonical entries, each drawn from `out` |
| TaxNormalizer.RestKeysStep | app/services/tax_normalizer.py:140-142 | one pass of the second loop appends an entry's label exactly when it is positive and not canonical |
| TaxNormalizer.RestAfterKeys | app/services/tax_normalizer.py:140-142 | after the canonical part, the second loop appends the positive non-canonical labels in the order of `out` |
| TaxNormalizer.IvaByRateFromItems | app/services/tax_normalizer.py:120-143 | every listed amount is positive, in whole cents, and under the label of some item's rate; without items the only possible entry is "otros" with the rounded IVA total |
| TaxNormalizer.CanonFirstAbsent | app/services/tax_normalizer.py:136-139 | the canonical loop adds nothing when no canonical label is a key |
| TaxNormalizer.IvaByRateNoItems | app/services/tax_normalizer.py:129-142 | without items the grouping is "otros" with the rounded IVA total when that is positive, else empty |
| TaxNormalizer.RateOfWhole | app/services/tax_normalizer.py:123 | an item whose rate is a whole number, with or without `%`, goes to that rate's bucket |
| TaxNormalizer.ExampleRates | app/services/tax_normalizer.py:122-124 | "21" of 100 and "27%" of 50 read as rates 21 and 27 |
| TaxNormalizer.ExampleBuckets | app/services/tax_normalizer.py:121-128 | those give buckets 21 and 27 in item order |
| TaxNormalizer.ExampleLabelled | app/services/tax_normalizer.py:131-134 | labelled "21" and "27" |
| TaxNormalizer.ExampleCanonTwo | app/services/tax_normalizer.py:135-139 | reordered 27 first |
| TaxNormalizer.ExampleOrdered | app/services/tax_normalizer.py:140-142 | with nothing else to append |
| TaxNormalizer.IvaByRateExample | app/services/tax_normalizer.py:120-143 | 21% of 100 and 27% of 50 are listed with 27 first, although the 21% item comes first |
| TaxNormalizer.SplitPercRetLoop | app/services/tax_normalizer.py:146-156 | the loop computes the reference `SplitPercRet` |
| TaxNormalizer.SplitStepSound | app/services/tax_normalizer.py:150-155 | one step files an entry only on its own side with its own amount |
| TaxNormalizer.SplitFoldSound | app/services/tax_normalizer.py:149-155 | everything filed is a nonzero entry of the schema on its own side |
| TaxNormalizer.SplitFoldComplete | app/services/tax_normalizer.py:149-155 | every nonzero entry is filed under its key with its amount |
| TaxNormalizer.SplitPercRetExact | app/services/tax_normalizer.py:146-156 | perceptions hold exactly the nonzero entries with a perception key; retentions exactly the nonzero entries with a retention key that is not a perception key; no key is on both sides |
| TaxNormalizer.SplitFoldEmpty | app/services/tax_normalizer.py:150-151 | a schema with no amounts files nothing |
| TaxNormalizer.SplitPercRetNothing | app/services/tax_normalizer.py:146-156 | the initial schema gives no perceptions and no retentions |
| TaxNormalizer.BuildMinimalPayload | app/services/tax_normalizer.py:159-187 | the method returns the reference `MinimalPayload` |
| TaxNormalizer.CentsNearZero | app/services/tax_normalizer.py:175-176 | a whole number of cents within 1e-6 of zero is zero, so the snap never changes a rounded amount |
| TaxNormalizer.DerivedSubtotalRule | app/services/tax_normalizer.py:172-182 | without a subtotal it is `round(total - iva_total - perc_total, 2)` for a nonzero total and 0 otherwise, balancing the total to within half a cent |
| TaxNormalizer.PayloadSubtotal | app/services/tax_normalizer.py:163-182 | the payload's subtotal is the record's, rounded, or the derived one |
| TaxNormalizer.PayloadFields | app/services/tax_normalizer.py:159-187 | missing strings become ""; the CUIT is the provider's unless the client's is asked for; the date is the ISO form; amounts are whole cents; a missing total is 0; the maps are the grouping and the two sides of the split |
| TaxNormalizer.PayloadOfEmptyRecord | app/services/tax_normalizer.py:159-187 | an empty record gives empty strings, zero amounts and empty maps |
| TaxNormalizer.ValidateAndRepair | app/services/tax_normalizer.py:190-201 | the record left is the reference `Repaired` of the old one |
| TaxNormalizer.RepairedEffect | app/services/tax_normalizer.py:190-201 | only the total and the warnings change; a missing total becomes the rounded sum with one warning; a total off by more than `tol` stays, with one warning; any other stays without; earlier warnings are kept in front |
| TaxNormalizer.RepairedSettles | app/services/tax_normalizer.py:195-199 | a filled-in total is whole cents; when the total was missing or within `tol` of the computed one and `tol` is nonnegative, a second pass changes nothing |
| TaxNormalizer.RepairedExample | app/services/tax_normalizer.py:195-199 | 100 + 21 with no total gives 121 and one warning |
| TaxNormalizer.RepairedMismatchExample | app/services/tax_normalizer.py:200-201 | a total of 200 against parts summing to 121 is kept, with the mismatch warning |
| Formatters.SubBreaks | app/formatters.py:16 | the substitution leaves no CR, LF or `=`, and a string without them is unchanged |
| Formatters.CleanSpec | app/formatters.py:15-16 | `_clean` leaves no CR, LF or `=` and no whitespace at either end |
| Formatters.CleanKeeps | app/formatters.py:15-16 | a field with no breaks and no surrounding whitespace is unchanged |
| Formatters.CleanIdempotent | app/formatters.py:15-16 | cleaning twice is cleaning once |
| Formatters.DigitsOf | app/formatters.py:23 | the result holds only digits and is no longer than the input |
| Formatters.DigitsOfAppend | app/formatters.py:23 | taking the digits distributes over concatenation |
| Formatters.DigitsOfExact | app/formatters.py:23 | taking the digits leaves a string unchanged exactly when it is all digits |
| Formatters.CleanCuitSpec | app/formatters.py:19-23 | `clean_cuit` returns exactly the digits of its input, in order; it is the identity exactly on all-digit strings, and idempotent |
| Formatters.CleanCuitDashed | app/formatters.py:19-23 | `XX-XXXXXXXX-X` loses its two dashes |
| Formatters.InsertBySorted | app/formatters.py:49-57 | inserting into a sorted list by a total preorder keeps it sorted and adds exactly the one element |
| Formatters.SortByLength | app/formatters.py:49-57 | sorting keeps the length |
| Formatters.InsertByLength | app/formatters.py:49-57 | inserting adds one element |
| Formatters.SortBySorted | app/formatters.py:49-57 | the sort is sorted and a permutation of its input |
| Formatters.NonZero | app/formatters.py:42 | filtering never adds entries |
| Formatters.NonZeroMembers | app/formatters.py:42 | the entries kept are exactly the entries with a nonzero amount |
| Formatters.IndexIn | app/formatters.py:46-47 | the position of a rate in the order, or past its end exactly when the rate is not there |
| Formatters.StrLeTransitive | app/formatters.py:49-57 | string order by code point is transitive |
| Formatters.StrLeTotal | app/formatters.py:49-57 | any two strings are ordered one way or the other |
| Formatters.KeyLePreorder | app/formatters.py:57-66 | ordering by key is a total preorder |
| Formatters.IvaLePreorder | app/formatters.py:46-49 | ordering by rank, then key, is a total preorder |
| Formatters.IvaItemsSpec | app/formatters.py:41-49 | the IVA items are a permutation of the nonzero entries, ordered by rank 27, 21, 10.5, 5, 2.5, then the other rates, with ties by key |
| Formatters.KeyItemsSpec | app/formatters.py:55-66 | the perception and retention items are a permutation of the nonzero entries, ordered by key |
| Formatters.NonZeroInsert | app/formatters.py:42-49 | inserting and then dropping zero amounts is dropping them and then inserting |
| Formatters.NonZeroSort | app/formatters.py:42-49 | dropping zero amounts commutes with the sort |
| Formatters.AppendCounted | app/formatters.py:43-70 | the count line and the item loop append the reference `Counted` lines |
| Formatters.ToKv | app/formatters.py:26-72 | the lines are the reference `KvLines`, joined by newlines |
| Formatters.ItemLinesShape | app/formatters.py:50-52 | item `i` makes exactly lines `2i` and `2i+1` |
| Formatters.CountedShape | app/formatters.py:43-52 | the count line gives the number of items, then item `i` (from 1) has its key line and its amount line |
| Formatters.KvStart | app/formatters.py:31-38 | the first eight lines are status, version, OCR flag, number, date, CUIT, subtotal and total |
| Formatters.KvLength | app/formatters.py:26-72 | there are 11 fixed lines plus two per nonzero entry of the three maps |
| Formatters.KvIvaCount | app/formatters.py:43 | line 8, right after the header, is `iva_count` with the number of nonzero IVA entries |
| Formatters.IvaItemsLength | app/formatters.py:42-49 | there are as many IVA items as nonzero IVA entries |
| Formatters.KeyItemsLength | app/formatters.py:56-66 | there are as many perception or retention items as nonzero entries |
| Formatters.KvLinesParts | app/formatters.py:30-72 | the lines are the eight header lines, then the counted blocks of the sorted nonzero IVA, perception and retention items |
| Formatters.CountLinesAt | app/formatters.py:43-67 | after the eight header lines, `iva_count` comes first, `percepciones_count` comes right after the IVA lines and `retenciones_count` right after the perception lines, each giving its number of items |
| Formatters.PartAt | app/formatters.py:30-72 | the first line of a middle part sits right after the part before it |
| Formatters.CountedHead | app/formatters.py:43-52 | a counted block has 1 + 2n lines and starts with its count line |
| Formatters.Rank27 | app/formatters.py:44-47 | rate 27 ranks first |
| Formatters.Rank21 | app/formatters.py:44-47 | rate 21 ranks second |
| Formatters.IvaItemsExample | app/formatters.py:41-49 | 27 comes before 21 whatever the map order, and a zero rate is left out |
| Formatters.RenderPairs | app/formatters.py:101-103 | one `k=v` line per item, in order |
| Formatters.IniPairsLoop | app/formatters.py:101-109 | the loop that skips zero amounts appends the reference `IniPairs` |
| Formatters.IniCanonLoop | app/formatters.py:92-94 | the first IVA loop appends the reference `IniCanon` |
| Formatters.IniOthersLoop | app/formatters.py:95-97 | the second IVA loop appends the reference `IniOthers` |
| Formatters.ToIni | app/formatters.py:75-111 | the lines are the reference `IniLines`, joined by newlines |
| Formatters.IniPairsNonZero | app/formatters.py:101-103 | the skipping loop renders exactly the nonzero entries, in order |
| Formatters.IniPairsAgree | app/formatters.py:55-61 | the INI perception and retention sections list the same items, in the same order, as the key-value form |
| Formatters.IniCanonLines | app/formatters.py:92-94 | a canonical rate has a line exactly when it is present with a nonzero amount |
| Formatters.IniOthersLines | app/formatters.py:95-97 | any other rate has a line, with its key cleaned, exactly when one of its entries is nonzero |
| Formatters.IniLayout | app/formatters.py:75-111 | the sections meta, factura, iva, percepciones and retenciones come in that order, each closed by a blank line; canonical rates come first in the IVA section; the other two sections hold the nonzero entries sorted by key |
| PdfReader.NormalizeNonEmpty | app/services/pdf_reader.py:90-96 | the loop computes the reference `NonEmptyNormalized` |
| PdfReader.NonEmptyNormalizedFrom | app/services/pdf_reader.py:90-96 | every output line is nonempty, normalised, and the normalised form of some input line |
| PdfReader.NonEmptyNormalizedAppend | app/services/pdf_reader.py:90-96 | each line is cleaned on its own, so cleaning distributes over concatenation |
| PdfReader.NonEmptyNormalizedClean | app/services/pdf_reader.py:90-96 | lines already clean and nonempty are kept as they are |
| PdfReader.NonEmptyNormalizedIdempotent | app/services/pdf_reader.py:90-96 | cleaning twice is cleaning once |
| PdfReader.Flushed | app/services/pdf_reader.py:131-136 | an empty buffer adds nothing; otherwise the joined, normalised buffer is appended, and exactly when it is nonempty |
| PdfReader.ExtractLinesWithData | app/services/pdf_reader.py:146-169 | the grouping loop computes the reference `LinesOf` |
| PdfReader.KeptOnly | app/services/pdf_reader.py:151-158 | every token kept has a readable nonnegative confidence and text |
| PdfReader.GroupFromKept | app/services/pdf_reader.py:153-158 | tokens with negative or unreadable confidence, or no text, make no difference |
| PdfReader.LinesOfKept | app/services/pdf_reader.py:146-169 | the lines depend only on the tokens kept |
| PdfReader.GroupFromAppend | app/services/pdf_reader.py:150-167 | the loop over `a + b` is the loop over `a`, then over `b` |
| PdfReader.FlushedPrefix | app/services/pdf_reader.py:131-136 | flushing only appends to the collector |
| PdfReader.GroupFromPrefix | app/services/pdf_reader.py:150-167 | lines already collected are never changed |
| PdfReader.GroupFromSameLine | app/services/pdf_reader.py:166-167 | while the line number stays the same, the stripped texts pile up in the buffer |
| PdfReader.LinesOfOneLine | app/services/pdf_reader.py:146-169 | kept tokens that share one line number make one line: their texts joined by spaces, normalised |
| PdfReader.LinesOfLineChange | app/services/pdf_reader.py:160-168 | a change of line number flushes the run collected so far, then the rest is grouped on its own |
| PdfReader.ChangeStep | app/services/pdf_reader.py:162-165 | the step that meets a new line number flushes the buffer and starts a new one with the token |
| PdfReader.FlushedClean | app/services/pdf_reader.py:131-136 | flushing keeps every collected line nonempty and normalised |
| PdfReader.GroupFromClean | app/services/pdf_reader.py:150-167 | the loop keeps every collected line nonempty and normalised |
| PdfReader.LinesOfClean | app/services/pdf_reader.py:146-169 | every OCR line is nonempty and normalised |
| PdfReader.ReadResult | app/services/pdf_reader.py:208-221 | the preferred engine runs first and the other only when it gives no lines; the flag is set exactly when the lines are OCR's, which are then nonempty; no lines means both engines gave none |
| PdfReader.PdfLineReader.constructor | app/services/pdf_reader.py:203-205 | the reader keeps its OCR preference and resolution |
| PdfReader.PdfLineReader.Read | app/services/pdf_reader.py:207-221 | the hint, when given, overrides the reader's preference, and the result is `ReadResult` for it |
| VendorConfig.LoadVendorConfig | app/services/vendor_config.py:8-20 | the two nested loops compute the reference `ConfigOf`; a missing file gives empty tables |
| VendorConfig.CuitOwner | app/services/vendor_config.py:18-19 | a CUIT has an owner exactly when some vendor lists it, and the owner is the upper-cased id of the last vendor that does |
| VendorConfig.AppendNameGet | app/services/vendor_config.py:17 | `setdefault(...).append(name)` extends that key's list and no other |
| VendorConfig.NamesAddedGet | app/services/vendor_config.py:16-17 | appending names under a key extends its entry by them, in order, and leaves every other entry alone |
| VendorConfig.CuitsAddedGet | app/services/vendor_config.py:18-19 | registering CUITs maps each to the key and leaves every other CUIT alone |
| VendorConfig.ConfigFoldNames | app/services/vendor_config.py:15-17 | each upper-cased vendor id lists, in order, the names of every vendor with that id, and has an entry only when there is at least one such name |
| VendorConfig.ConfigFoldCuits | app/services/vendor_config.py:15-19 | a CUIT is mapped exactly when some vendor lists it, and to the last vendor that does |
| VendorConfig.ConfigOfEmpty | app/services/vendor_config.py:9-12 | a missing file and an empty one both give empty tables |
| VendorConfig.ConfigLastCuitWins | app/services/vendor_config.py:18-19 | a CUIT listed under two vendors belongs to the later one |
| InvoiceRecord.Record.constructor | app/services/extractor.py:63 | the record holds the given entries |
| Extractor.StandardRegistry | app/vendors/__init__.py:6-10 | importing the package registers "GUERRINI" to the Guerrini totals handler, and "PIRELLI", and nothing else |
| Extractor.BaseOut | app/services/extractor.py:22-41 | the base record copies the header and the parties and has no amounts yet |
| Extractor.InvoiceExtractor.constructor | app/services/extractor.py:19-20 | the given reader, else a fresh one preferring OCR at 300 dpi |
| Extractor.InvoiceExtractor.Extract | app/services/extractor.py:43-75 | the payload is `ExtractFrom` of the configuration, the hint and what the reader gives |
| Extractor.Prepare | app/services/extractor.py:50-64 | the fresh record is the base record with its `debug` entry, and the vendor is the resolved one |
| Extractor.RunTotals | app/services/extractor.py:66-70 | the registered handler runs when the upper-cased vendor has one, else the fallback |
| Extractor.ExtractFromPdf | app/services/extractor.py:78-85 | the wrapper is `extract` on a fresh extractor with the default reader |
| Extractor.VendorGuessSpec | app/services/extractor.py:53 | a nonempty hint, upper-cased, is the guess; otherwise the guess is a configured vendor with a keyword in the opening lines, and there is none exactly when no vendor has one; a guess is never empty |
| Extractor.ResolvedVendorSpec | app/services/extractor.py:61 | a guess wins; without one the vendor resolves exactly when the provider's CUIT is registered, to the vendor registered for it |
| Extractor.CuitOnlyVendorHasNoName | app/services/extractor.py:53-61 | a vendor found only by CUIT gives no provider name, because the parties are located with the empty guess |
| Extractor.PreparedSpec | app/services/extractor.py:51-64 | the record before totals has the located header and parties, no amounts, and `debug` with the vendor (or "UNKNOWN"), the line count and the OCR flag |
| Extractor.HintPicksHandler | app/services/extractor.py:53-66 | a nonempty hint alone picks the handler: the key is the upper-cased hint |
| Extractor.TotalsStepKeepsHeader | app/services/extractor.py:66-70 | the Guerrini handler, the fallback and any external handler that writes totals only change totals only, never header, parties, `debug` or warnings |
| Extractor.StandardRegistryKeepsHeader | app/vendors/__init__.py:6-10 | when the Pirelli handler writes totals only, every handler of the registry does |
| Extractor.UnresolvedVendorFallsBack | app/services/extractor.py:53-70 | a vendor found by no route gets "UNKNOWN" in `debug` and the fallback totals |
| Extractor.ExtractPayload | app/services/extractor.py:43-75 | with a handler that writes totals only (GUERRINI's, the fallback, or an external one such as PIRELLI's that keeps the header), the payload has the provider's CUIT and the number as located, the ISO form of the date, amounts in whole cents, and the reader's OCR flag |
| Extractor.ExtractOcrFlag | app/services/extractor.py:72-75 | for every registry, the payload's amounts are whole cents and its OCR flag is the reader's |

## Left out

- Reading PDFs, the text layer and OCR (fitz, pdf2image, PIL, pytesseract) are I/O. `PdfReader.LineSources` gives the text layer's lines and OCR's lines per resolution; `read_pdf_text`, `ocr_pdf_to_lines`, `_convert_pdf_to_images` and `_extract_lines_with_string` are not modelled.
- pytesseract's `image_to_data` table becomes a sequence of `PdfReader.Token`s. An `int(conf)` that raises is a `None` confidence.
- The YAML parsing and the `os.path.exists` test of `load_vendor_config` are I/O. The parsed mapping is the input, and `None` stands for a missing file.
- `Patterns.Regexes` leaves some regular expressions uninterpreted: `RE_FECHA`, `RE_CUIT`, `VENDOR_REGEX` and the 28 patterns of `NORMALIZATION_RULES`. Their order in the list is kept, and so is everything the code does with what they report. The other patterns are written out by hand over ASCII: `NUM_PURE`, `NUM_ANY`, `RE_NUM_FACT`, the 14-digit CAE, the word `SUBTOTAL` and the keyword tests.
- Whitespace is the whole set that `str.isspace()` and `\s` accept. Letters, `upper()`, `isupper()` and `\w` are modelled on Latin-1 (U+0000 to U+00FF): `ÿ` maps to `Ÿ` and `µ` to `Μ`, the ordinal indicators `ª` and `º` count as lower case, and `\w` accepts the numeric characters `¹ ² ³ ¼ ½ ¾` besides letters, digits and `_`. Characters above U+00FF are neither letters nor case-mapped, and do not count for `\w`.
- Text.Upper: leaves `ß` unchanged and keeps the length, whereas Python's `'ß'.upper()` is "SS".
- `\d` accepts only the ASCII digits; Python's also accepts other Unicode decimal digits.
- Amounts are exact reals, and `round(x, 2)` rounds the exact value half to even. Binary floating-point error and `float()` exceptions are not modelled.
- `float()` on a string reads decimal text only. Exponents, `inf`, `nan` and underscores are not read.
- `str(float)` has no exact decimal model. The renderer `_num` and the text of the mismatch warning take it as a parameter (`num` or `repr`).
- The Pirelli handler and the `registry` module are not part of this model. A handler other than GUERRINI's is an `Extractor.External` function on the record, and the registry is a map passed to the pipeline.
- Extractor.TotalsStepKeepsHeader: for an external handler such as PIRELLI's it requires `KeepsHeader`, that the handler writes totals only, because that handler's code is not part of this model. Extractor.ExtractPayload requires the same of the vendor's handler; Extractor.ExtractOcrFlag needs nothing of it.
- TaxNormalizer.SplitPercRetExact: assumes the schema has no repeated keys, which holds for the fixed schema that `_split_perc_ret` is given.
- `out["debug"]` holds the `DebugInfo` datatype, and `warnings` is `None` until `validate_and_repair` creates the list. Other keys a handler might add are not modelled.
- `Formatters` writes the stable `sort` of `to_kv` and `to_ini` as an insertion sort. It is proved sorted and a permutation; ties keep the input order.
- `app/api/main.py` (HTTP routing and uploads) is not part of this model, and neither is its use of `clean_cuit`.
- `app/services/batch_processor.py` (a process pool and file output), `app/config.py` (Tesseract path set-up), `app/models.py` (enums) and `app/services/extractor_utils.py` (re-exports) are not part of this model.
- Registration by import side effect in `app/vendors/__init__.py` is modelled by its result, `Extractor.StandardRegistry`.

## Behaviour worth noting

- A number with commas and no dot has its commas removed, so "1,5" reads as 15 (`app/services/text_utils.py:41-42`).
- The client name is the topmost qualifying line of its window (`app/services/metadata_extractor.py:80-85`).
- A day-first date is rewritten whether its separator is `/`, `-` or `.` (`app/services/tax_normalizer.py:89-92`).
- The IVA grouping keeps only strictly positive amounts, so a negative bucket is dropped too (`app/services/tax_normalizer.py:138,141`).
- The synthetic "PERCEP. IIBB" item is classified whenever the perception total is present, even when it is zero (`app/services/tax_normalizer.py:70-71`).
