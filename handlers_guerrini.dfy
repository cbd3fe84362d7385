/**
 * The totals handler registered for the vendor GUERRINI. Two strategies fill the totals of
 * the `out` record in place: a numeric one, which reads the amount-only lines that follow
 * the last SUBTOTAL heading, and an OCR one, which reads labelled lines ("IVA ...: 0.00",
 * "TOTAL: ...") after the last line mentioning SUBTOTAL. Each strategy reports whether it
 * wrote anything; the handler tries the one suited to the text source first and the other
 * one only when the first wrote nothing.
 */
module HandlersGuerrini {
  import opened Wrappers
  import opened Text
  import opened Decimal
  import opened Scan
  import opened TextUtils
  import opened InvoiceRecord

  /** How many lines, from the anchor on, each strategy reads. */
  const NUMERIC_WINDOW: nat := 60
  const OCR_WINDOW: nat := 80

  /** `lines[idx : min(len(lines), idx + size)]`. */
  function Window(lines: seq<string>, idx: nat, size: nat): (w: seq<string>)
    requires idx <= |lines|
    ensures |w| <= size && idx + |w| <= |lines| && w == lines[idx..idx + |w|]
    ensures idx + size <= |lines| ==> |w| == size
  {
    lines[idx..Min(|lines|, idx + size)]
  }

  /** A window opened at the last line passing `p` starts with it and holds no other. */
  lemma WindowAfterLast(lines: seq<string>, p: string -> bool, idx: nat, size: nat)
    requires LastIndex(lines, p, |lines|) == Some(idx) && 0 < size
    ensures var w := Window(lines, idx, size);
      && 0 < |w| && w[0] == lines[idx] && p(w[0]) && forall k | 0 < k < |w| :: !p(w[k])
  {
    var w := Window(lines, idx, size);
    assert idx < |lines| && p(lines[idx]);
    assert |w| == Min(|lines|, idx + size) - idx;
    assert w[0] == lines[idx];
    forall k | 0 < k < |w|
      ensures !p(w[k])
    {
      assert w[k] == lines[idx + k];
    }
  }

  // ---------------------------------------------------------------------------------------
  // The numeric strategy
  // ---------------------------------------------------------------------------------------

  /** `\bSUBTOTAL\b` matches at position `p` of `u`. */
  predicate SubtotalWordAt(u: string, p: nat)
  {
    p + 8 <= |u| && u[p..p + 8] == "SUBTOTAL" && WordBoundary(u, p) && WordBoundary(u, p + 8)
  }

  /** `re.search(r'\bSUBTOTAL\b', u[p:])`, with the boundaries judged in all of `u`. */
  predicate SubtotalWordFrom(u: string, p: nat)
    decreases |u| - p
  {
    p + 8 <= |u| && (SubtotalWordAt(u, p) || SubtotalWordFrom(u, p + 1))
  }

  /** The anchor test of the numeric strategy, on the upper-cased line. */
  predicate IsSubtotalWordLine(line: string)
  {
    SubtotalWordFrom(Upper(line), 0)
  }

  /** The search finds the whole word SUBTOTAL exactly when it occurs at some position. */
  lemma {:induction false} SubtotalWordFromIff(u: string, p: nat)
    ensures SubtotalWordFrom(u, p) <==> exists q | p <= q :: SubtotalWordAt(u, q)
    decreases |u| - p
  {
    if p + 8 <= |u| {
      SubtotalWordFromIff(u, p + 1);
      if exists q | p <= q :: SubtotalWordAt(u, q) {
        var q :| p <= q && SubtotalWordAt(u, q);
        assert q == p || (p + 1 <= q && SubtotalWordAt(u, q));
      }
    } else {
      assert forall q | p <= q :: !SubtotalWordAt(u, q);
    }
  }

  /** A superscript digit is a word character, so "SUBTOTAL²" does not hold the whole word, while "SUBTOTAL 2" does. */
  lemma SubtotalWordSuperscript()
    ensures !IsSubtotalWordLine("SUBTOTAL\U{B2}")
    ensures IsSubtotalWordLine("SUBTOTAL 2")
  {
    var u := Upper("SUBTOTAL\U{B2}");
    assert u == "SUBTOTAL\U{B2}";
    assert !WordBoundary(u, 8);
    assert u[1..9] != "SUBTOTAL" by { assert u[1..9][0] == 'U'; }
    var v := Upper("SUBTOTAL 2");
    assert v == "SUBTOTAL 2";
    assert SubtotalWordAt(v, 0);
  }

  /** The value a window line contributes: `parse_number_smart(line)` when `NUM_PURE` matches it. */
  function PureValue(line: string): (v: Option<real>)
    ensures !IsNumPure(line) ==> v.None?
  {
    if IsNumPure(line) then SmartNumber(Some(line)) else None
  }

  /**
   * How a window line is read: `parse_number_smart(line)` when `NUM_PURE` matches it. The
   * strategy is stated for any reader so that its properties do not depend on how the number
   * is parsed; the handler uses `PureValue`.
   */
  type LineValue = string -> Option<real>

  /** What the numeric strategy writes, from the first two to four collected values. */
  function ApplyNumeric(r: Raw, values: seq<real>): Raw
    requires 2 <= |values| <= 4
  {
    var subtotal := values[0];
    var iva := values[1];
    var percep := if |values| >= 3 then values[2] else 0.0;
    var total := if |values| >= 4 then values[3] else Round2(subtotal + iva + percep);
    r.(subtotal := Some(subtotal), iva := Some(iva), ivaDetalle := [IvaItem(Some("21.00"), iva)],
       percepcionesTotal := Some(percep),
       percepcionesDetalle := if |values| < 3 then [] else [PercItem("PERCEP. IIBB", percep)],
       total := Some(total))
  }

  /**
   * `_extract_totals_numeric`: the record it leaves, or `None` when it returns False and
   * leaves the record as it was.
   */
  function NumericTotalsWith(value: LineValue, lines: seq<string>, r: Raw): Option<Raw>
  {
    match LastIndex(lines, IsSubtotalWordLine, |lines|)
    case None => None
    case Some(idx) =>
      var window := Window(lines, idx, NUMERIC_WINDOW);
      var found := Collect(window, value, |window|);
      var values := found[..Min(4, |found|)];
      if |values| < 2 then None else Some(ApplyNumeric(r, values))
  }

  /** `_extract_totals_numeric` itself: the window lines are read by `PureValue`. */
  function NumericTotals(lines: seq<string>, r: Raw): Option<Raw>
  {
    NumericTotalsWith(PureValue, lines, r)
  }

  /** The loop body of `_extract_totals_numeric` on one line. */
  method ReadPureLine(line: string) returns (v: Option<real>)
    ensures v == PureValue(line)
  {
    v := None;
    if IsNumPure(line) {
      v := ParseNumberSmart(Some(line));
    }
  }

  /** The writes of `_extract_totals_numeric` once two to four values were collected. */
  method WriteNumeric(out: Record, values: seq<real>)
    requires 2 <= |values| <= 4
    modifies out
    ensures out.entries == ApplyNumeric(old(out.entries), values)
  {
    var subtotal := values[0];
    var iva := values[1];
    var percep := if |values| >= 3 then values[2] else 0.0;
    var total := if |values| >= 4 then values[3] else Round2(subtotal + iva + percep);
    out.entries := out.entries.(
      subtotal := Some(subtotal),
      iva := Some(iva),
      ivaDetalle := [IvaItem(Some("21.00"), iva)],
      percepcionesTotal := Some(percep),
      percepcionesDetalle := if |values| < 3 then [] else [PercItem("PERCEP. IIBB", percep)],
      total := Some(total));
  }

  method ExtractTotalsNumeric(lines: seq<string>, out: Record) returns (handled: bool)
    modifies out
    ensures handled == NumericTotals(lines, old(out.entries)).Some?
    ensures out.entries == NumericTotals(lines, old(out.entries)).GetOr(old(out.entries))
  {
    var idxSub := FindLast(lines, IsSubtotalWordLine);
    if idxSub.None? {
      return false;
    }
    var window := lines[idxSub.value..Min(|lines|, idxSub.value + NUMERIC_WINDOW)];
    assert window == Window(lines, idxSub.value, NUMERIC_WINDOW);
    var numeric: seq<real> := [];
    var j := 0;
    while j < |window|
      invariant j <= |window|
      invariant numeric == Collect(window, PureValue, j)
      invariant out.entries == old(out.entries)
      decreases |window| - j
    {
      var v := ReadPureLine(window[j]);
      if v.Some? {
        numeric := numeric + [v.value];
      }
      j := j + 1;
    }
    assert numeric == Collect(window, PureValue, |window|);
    var values := numeric[..Min(4, |numeric|)];
    if |values| < 2 {
      NumericTotalsOf(lines, old(out.entries), idxSub.value, numeric);
      return false;
    }
    WriteNumeric(out, values);
    NumericTotalsOf(lines, old(out.entries), idxSub.value, numeric);
    return true;
  }

  /** `NumericTotals` once the anchor and the collected values are known. */
  lemma NumericTotalsOf(lines: seq<string>, r: Raw, idx: nat, found: seq<real>)
    requires LastIndex(lines, IsSubtotalWordLine, |lines|) == Some(idx)
    requires found == Collect(Window(lines, idx, NUMERIC_WINDOW), PureValue, |Window(lines, idx, NUMERIC_WINDOW)|)
    ensures NumericTotals(lines, r) ==
      if Min(4, |found|) < 2 then None else Some(ApplyNumeric(r, found[..Min(4, |found|)]))
  {
  }

  /**
   * When the numeric strategy writes, its subtotal and IVA are the first two numeric-only
   * lines from the anchor on, the anchor is the last line holding the word SUBTOTAL, and a
   * total it has to compute is a whole number of cents.
   */
  lemma NumericTotalsWrites(value: LineValue, lines: seq<string>, r: Raw)
    requires NumericTotalsWith(value, lines, r).Some?
    ensures var idx := LastIndex(lines, IsSubtotalWordLine, |lines|);
      && idx.Some? && IsSubtotalWordLine(lines[idx.value])
      && (forall k | idx.value < k < |lines| :: !IsSubtotalWordLine(lines[k]))
      && var window := Window(lines, idx.value, NUMERIC_WINDOW);
         var found := Collect(window, value, |window|);
         var r' := NumericTotalsWith(value, lines, r).value;
         && |found| >= 2
         && r'.subtotal == Some(found[0]) && r'.iva == Some(found[1])
         && r'.ivaDetalle == [IvaItem(Some("21.00"), found[1])]
         && (|found| >= 3 ==> r'.percepcionesTotal == Some(found[2])
                              && r'.percepcionesDetalle == [PercItem("PERCEP. IIBB", found[2])])
         && (|found| == 2 ==> r'.percepcionesTotal == Some(0.0) && r'.percepcionesDetalle == [])
         && (|found| >= 4 ==> r'.total == Some(found[3]))
         && (|found| < 4 ==> r'.total == Some(Round2(found[0] + found[1] + (if |found| >= 3 then found[2] else 0.0)))
                             && IsCents(r'.total.value))
         && SameHeader(r, r')
  {
    forall x: real {
      Round2Near(x);
    }
  }

  /** The numeric strategy writes nothing without a SUBTOTAL line followed by two amounts. */
  lemma NumericTotalsUntouched(value: LineValue, lines: seq<string>, r: Raw)
    ensures (forall k | 0 <= k < |lines| :: !IsSubtotalWordLine(lines[k])) ==> NumericTotalsWith(value, lines, r).None?
    ensures (LastIndex(lines, IsSubtotalWordLine, |lines|).Some? &&
             var window := Window(lines, LastIndex(lines, IsSubtotalWordLine, |lines|).value, NUMERIC_WINDOW);
             |Collect(window, value, |window|)| < 2) ==> NumericTotalsWith(value, lines, r).None?
  {
  }

  /** `NUM_PURE` matches a numeral of one to three digits, a dot and two digits. */
  lemma NumPureCents(whole: string, d: string)
    requires 1 <= |whole| <= 3 && AllDigits(whole) && |d| == 2 && AllDigits(d)
    ensures IsNumPure(whole + "." + d)
  {
    var v := whole + "." + d;
    assert v[..|v| - 3] == whole;
    assert !IsSpace(v[0]) && !IsSpace(v[|v| - 1]);
    assert LStrip(v) == v && RStrip(v) == v;
  }

  /** A numeral of one to three digits with a two-digit cents part is a numeric-only line with that value. */
  lemma PureValueCents(whole: string, d: string)
    requires 1 <= |whole| <= 3 && AllDigits(whole) && |d| == 2 && AllDigits(d)
    ensures PureValue(whole + "." + d) == Some(DecimalValue(whole, d))
  {
    NumPureCents(whole, d);
    RemoveCharAbsent(whole, ',');
    DecimalTailRule(whole, '.', d);
    assert whole + "." + d == whole + ['.'] + d;
  }

  lemma Value100Point00()
    ensures DecimalValue("100", "00") == 100.0 && DecimalValue("121", "00") == 121.0
  {
    DigitsValueOf(100, "100");
    DigitsValueOf(121, "121");
    assert DigitsValue("00") == 0;
  }

  lemma Value21Point00()
    ensures DecimalValue("21", "00") == 21.0 && DecimalValue("0", "00") == 0.0
  {
    DigitsValueOf(21, "21");
    assert DigitsValue("00") == 0 && DigitsValue("0") == 0;
  }

  /**
   * A SUBTOTAL line followed by four numeric-only lines and nothing else: the four values land
   * in subtotal, IVA, perceptions and total, in order.
   */
  lemma NumericFourValues(value: LineValue, l0: string, l1: string, l2: string, l3: string, l4: string,
                          r: Raw, a: real, b: real, c: real, d: real)
    requires IsSubtotalWordLine(l0) && value(l0) == None
    requires !IsSubtotalWordLine(l1) && !IsSubtotalWordLine(l2)
    requires !IsSubtotalWordLine(l3) && !IsSubtotalWordLine(l4)
    requires value(l1) == Some(a) && value(l2) == Some(b)
    requires value(l3) == Some(c) && value(l4) == Some(d)
    ensures NumericTotalsWith(value, [l0, l1, l2, l3, l4], r) == Some(ApplyNumeric(r, [a, b, c, d]))
  {
    var lines := [l0, l1, l2, l3, l4];
    assert LastIndex(lines, IsSubtotalWordLine, 1) == Some(0);
    assert LastIndex(lines, IsSubtotalWordLine, 3) == Some(0);
    assert LastIndex(lines, IsSubtotalWordLine, 5) == Some(0);
    assert Window(lines, 0, NUMERIC_WINDOW) == lines;
    assert Collect(lines, value, 1) == [];
    assert Collect(lines, value, 3) == [a, b];
    assert Collect(lines, value, 5) == [a, b, c, d];
  }

  lemma SubtotalLine()
    ensures IsSubtotalWordLine("SUBTOTAL")
  {
    var s := "SUBTOTAL";
    UpperUnchanged(s);
    assert SubtotalWordAt(s, 0);
  }

  /** A line that starts and ends with no blank, no minus sign and no digit is not an amount. */
  lemma NotPureValue(line: string)
    requires |line| > 0 && !IsSpace(line[0]) && line[0] != '-' && !IsSpace(line[|line| - 1])
    requires !IsDigit(line[|line| - 1])
    ensures PureValue(line) == None
  {
    assert LeadingSpace(line) == 0 && TrailingSpace(line) == 0;
    assert LStrip(line) == line && RStrip(line) == line;
    assert !IsAmountCore(line);
    assert !IsNumPure(line);
  }

  lemma Pure100()
    ensures PureValue("100.00") == Some(100.0) && !IsSubtotalWordLine("100.00")
  {
    PureValueCents("100", "00");
    Value100Point00();
    assert "100" + "." + "00" == "100.00";
  }

  lemma Pure121()
    ensures PureValue("121.00") == Some(121.0) && !IsSubtotalWordLine("121.00")
  {
    PureValueCents("121", "00");
    Value100Point00();
    assert "121" + "." + "00" == "121.00";
  }

  lemma Pure21()
    ensures PureValue("21.00") == Some(21.0) && !IsSubtotalWordLine("21.00")
  {
    PureValueCents("21", "00");
    Value21Point00();
    assert "21" + "." + "00" == "21.00";
  }

  lemma Pure0()
    ensures PureValue("0.00") == Some(0.0) && !IsSubtotalWordLine("0.00")
  {
    PureValueCents("0", "00");
    Value21Point00();
    assert "0" + "." + "00" == "0.00";
  }

  /** ["SUBTOTAL", "100.00", "21.00", "0.00", "121.00"] gives 100, 21, 0 and 121. */
  lemma NumericExample(r: Raw)
    ensures NumericTotals(["SUBTOTAL", "100.00", "21.00", "0.00", "121.00"], r)
         == Some(ApplyNumeric(r, [100.0, 21.0, 0.0, 121.0]))
  {
    SubtotalLine();
    NotPureValue("SUBTOTAL");
    Pure100();
    Pure21();
    Pure0();
    Pure121();
    NumericFourValues(PureValue, "SUBTOTAL", "100.00", "21.00", "0.00", "121.00", r, 100.0, 21.0, 0.0, 121.0);
  }

  // ---------------------------------------------------------------------------------------
  // _amount_from_line
  // ---------------------------------------------------------------------------------------

  /**
   * `_amount_from_line(line, prefer_last)`: the first (or last) `NUM_ANY` token of the text
   * after the last colon, falling back to the tokens of the whole line.
   */
  function AmountFromLine(line: string, preferLast: bool): Option<real>
  {
    var segment := AfterLast(line, ':');
    var inSegment := NumAnyAll(segment, 0);
    var matches := if inSegment != [] then inSegment else NumAnyAll(line, 0);
    if matches == [] then None
    else SmartNumber(Some(if preferLast then matches[|matches| - 1] else matches[0]))
  }

  lemma AfterLastSplit(a: string, b: string)
    requires ':' !in b
    ensures AfterLast(a + ":" + b, ':') == b
  {
    var s := a + ":" + b;
    var r := AfterLast(s, ':');
    assert s[|a|] == ':';
    assert ':' in s;
    assert r == s[|s| - |b|..];
  }

  /** When the text after the last colon has a token, the text before it is never read. */
  lemma AmountAfterColon(a: string, b: string, preferLast: bool)
    requires ':' !in b && NumAnyAll(b, 0) != []
    ensures AmountFromLine(a + ":" + b, preferLast) == AmountFromLine(b, preferLast)
  {
    AfterLastSplit(a, b);
  }

  lemma {:induction false} DigitRunShift(s: string, k: nat, i: nat)
    requires k <= i <= |s|
    ensures DigitRun(s[k..], i - k) == DigitRun(s, i)
    decreases |s| - i
  {
    if i < |s| && IsDigit(s[i]) {
      DigitRunShift(s, k, i + 1);
    }
  }

  lemma {:induction false} GroupsShift(s: string, k: nat, i: nat)
    requires k <= i <= |s|
    ensures Groups(s[k..], i - k) == Groups(s, i)
    decreases |s| - i
  {
    assert GroupAt(s[k..], i - k) == GroupAt(s, i);
    if GroupAt(s, i) {
      GroupsShift(s, k, i + 4);
    }
  }

  /** A `NUM_ANY` match read in a suffix is the same match, shifted. */
  lemma NumAnyEndShift(s: string, k: nat, p: nat)
    requires k <= p <= |s|
    ensures NumAnyEnd(s[k..], p - k).None? == NumAnyEnd(s, p).None?
  {
    var t := s[k..];
    NumAnyEndNone(s, p);
    NumAnyEndNone(t, p - k);
    assert SignSkip(t, p - k) == SignSkip(s, p) - k;
    NoNumAnyShift(s, k, SignSkip(s, p));
  }

  /** Where the digits of a `NUM_ANY` match starting at `p` begin: after an optional minus sign. */
  function SignSkip(s: string, p: nat): (q: nat)
    requires p <= |s|
    ensures p <= q <= |s|
  {
    if p < |s| && s[p] == '-' then p + 1 else p
  }

  /** No `NUM_ANY` match has its digits start at `q`. */
  predicate NoNumAnyAt(s: string, q: nat)
    requires q <= |s|
  {
    var n := DigitRun(s, q);
    n == 0 || (n <= 3 && !TailAt(s, q + n + 4 * Groups(s, q + n)) && Groups(s, q + n) == 0)
    || (n > 3 && !TailAt(s, q + n))
  }

  lemma NumAnyEndNone(s: string, p: nat)
    requires p <= |s|
    ensures NumAnyEnd(s, p).None? == NoNumAnyAt(s, SignSkip(s, p))
  {
  }

  lemma NoNumAnyShift(s: string, k: nat, q: nat)
    requires k <= q <= |s|
    ensures NoNumAnyAt(s[k..], q - k) == NoNumAnyAt(s, q)
  {
    DigitRunShift(s, k, q);
    var n := DigitRun(s, q);
    GroupsShift(s, k, q + n);
    TailAtShift(s, k, q + n + 4 * Groups(s, q + n));
    TailAtShift(s, k, q + n);
  }

  lemma TailAtShift(s: string, k: nat, i: nat)
    requires k <= i <= |s|
    ensures TailAt(s[k..], i - k) == TailAt(s, i)
  {
    if i + 3 <= |s| {
      var t := s[k..];
      assert t[i - k] == s[i] && t[i - k + 1] == s[i + 1] && t[i - k + 2] == s[i + 2];
    }
  }

  /** A line without any `NUM_ANY` token has no amount. */
  lemma AmountFromLineNone(line: string, preferLast: bool)
    requires NumAnySearch(line, 0).None?
    ensures AmountFromLine(line, preferLast).None?
  {
    var segment := AfterLast(line, ':');
    var k := |line| - |segment|;
    assert segment == line[k..];
    NumAnySuffixNone(line, k);
    assert NumAnyAll(segment, 0) == [] && NumAnyAll(line, 0) == [];
  }

  /** A text without any `NUM_ANY` token has none in any of its suffixes. */
  lemma NumAnySuffixNone(s: string, k: nat)
    requires k <= |s| && NumAnySearch(s, 0).None?
    ensures NumAnySearch(s[k..], 0).None?
  {
    NumAnySearchLeftmost(s, 0);
    if NumAnySearch(s[k..], 0).Some? {
      var b := NumAnySearch(s[k..], 0).value.0;
      NumAnyEndShift(s, k, b + k);
    }
  }

  lemma Value0Point00()
    ensures AllDigits("0") && AllDigits("00") && DecimalValue("0", "00") == 0.0
  {
    assert DigitsValue("00") == 0 && DigitsValue("0") == 0;
  }

  /** The only `NUM_ANY` token of " 0.00" is "0.00". */
  lemma IvaExampleTokens()
    ensures NumAnyAll(" 0.00", 0) == ["0.00"]
  {
    var b := " 0.00";
    assert DigitRun(b, 0) == 0 && NumAnyEnd(b, 0) == None;
    assert DigitRun(b, 2) == 0 && DigitRun(b, 1) == 1;
    assert Groups(b, 2) == 0 && TailAt(b, 2);
    assert NumAnyEnd(b, 1) == Some(5);
    assert NumAnySearch(b, 0) == Some((1, 5));
    assert NumAnyEnd(b, 5) == None && NumAnySearch(b, 5) == None;
    assert b[1..5] == "0.00";
  }

  lemma SmartZero()
    ensures SmartNumber(Some("0.00")) == Some(0.0)
  {
    Value0Point00();
    RemoveCharAbsent("0", ',');
    DecimalTailRule("0", '.', "00");
    assert "0" + ['.'] + "00" == "0.00";
  }

  /** "IVA 21.00: 0.00" reads 0.00, the amount after the colon, and not the rate before it. */
  lemma AmountFromLineIvaExample()
    ensures AmountFromLine("IVA 21.00: 0.00", true) == Some(0.0)
  {
    var b := " 0.00";
    assert "IVA 21.00: 0.00" == "IVA 21.00" + ":" + b;
    IvaExampleTokens();
    assert ':' !in b;
    AmountAfterColon("IVA 21.00", b, true);
    assert AfterLast(b, ':') == b;
    SmartZero();
  }

  // ---------------------------------------------------------------------------------------
  // The OCR strategy
  // ---------------------------------------------------------------------------------------

  /** The anchor test of the OCR strategy: `'SUBTOTAL' in line.upper()`. */
  predicate MentionsSubtotal(line: string)
  {
    Contains(Upper(line), "SUBTOTAL")
  }

  /** The loop variables of the OCR strategy, and whether the loop has hit `break`. */
  datatype OcrState = OcrState(
    subtotal: Option<real>, iva: Option<real>, perc: Option<real>, total: Option<real>,
    percDesc: Option<string>, stopped: bool)

  const OCR_START: OcrState := OcrState(None, None, None, None, None, false)

  /**
   * How a line's amount is read: `_amount_from_line(line, prefer_last)`. The scan is stated
   * for any reader so that its properties do not depend on how the amount is parsed; the
   * handler uses `AmountFromLine`.
   */
  type AmountReader = (string, bool) -> Option<real>

  /** One pass of the loop body over `line`. */
  function OcrStep(read: AmountReader, st: OcrState, line: string): OcrState
  {
    var up := Upper(line);
    if st.subtotal.None? && Contains(up, "SUBTOTAL") then st.(subtotal := read(line, false))
    else if Contains(up, "IVA") && !Contains(up, "RESPONSABLE") then
      var cand := read(line, true);
      if cand.Some? then st.(iva := cand) else st
    else if HasPercKeyword(up) then
      var cand := read(line, true);
      if cand.Some? then st.(perc := cand, percDesc := Some(Strip(line))) else st
    else if Contains(up, "TOTAL") then st.(total := read(line, false), stopped := true)
    else st
  }

  /** The loop variables after the first `n` lines of the window; after `break` nothing changes. */
  function OcrScan(read: AmountReader, window: seq<string>, n: nat): OcrState
    requires n <= |window|
  {
    if n == 0 then OCR_START
    else
      var st := OcrScan(read, window, n - 1);
      if st.stopped then st else OcrStep(read, st, window[n - 1])
  }

  /** Once the loop has hit `break`, the remaining lines are not read. */
  lemma {:induction false} OcrScanStopped(read: AmountReader, window: seq<string>, n: nat, m: nat)
    requires n <= m <= |window| && OcrScan(read, window, n).stopped
    ensures OcrScan(read, window, m) == OcrScan(read, window, n)
    decreases m - n
  {
    if n < m {
      OcrScanStopped(read, window, n, m - 1);
    }
  }

  /** What the OCR strategy writes once the loop has ended, or `None` when it found nothing. */
  function ApplyOcr(r: Raw, st: OcrState): Option<Raw>
  {
    if st.subtotal.None? && st.iva.None? && st.perc.None? && st.total.None? then None
    else
      var r1 := if st.subtotal.Some? then r.(subtotal := st.subtotal) else r;
      var r2 := if st.iva.Some? then r1.(iva := st.iva, ivaDetalle := [IvaItem(Some("21.00"), st.iva.value)]) else r1;
      var desc := if st.percDesc.Some? && st.percDesc.value != "" then st.percDesc.value else "PERCEP. IIBB";
      var r3 := if st.perc.Some? then r2.(percepcionesTotal := st.perc, percepcionesDetalle := [PercItem(desc, st.perc.value)]) else r2;
      if st.total.Some? then Some(r3.(total := st.total))
      else if st.subtotal.Some? then
        Some(r3.(total := Some(Round2(st.subtotal.value + st.iva.GetOr(0.0) + st.perc.GetOr(0.0)))))
      else Some(r3)
  }

  /** The OCR strategy with lines read by `read`: the record it leaves, or `None` when it writes nothing. */
  function OcrTotalsWith(read: AmountReader, lines: seq<string>, r: Raw): Option<Raw>
  {
    match LastIndex(lines, MentionsSubtotal, |lines|)
    case None => None
    case Some(idx) => ApplyOcr(r, OcrScan(read, Window(lines, idx, OCR_WINDOW), |Window(lines, idx, OCR_WINDOW)|))
  }

  /** The subtotal entry after the writes: the one found, else the one already there. */
  lemma ApplyOcrSubtotal(r: Raw, st: OcrState)
    requires ApplyOcr(r, st).Some?
    ensures ApplyOcr(r, st).value.subtotal == if st.subtotal.Some? then st.subtotal else r.subtotal
  {
  }

  /** `_extract_totals_ocr`: the record it leaves, or `None` when it returns False. */
  function OcrTotals(lines: seq<string>, r: Raw): Option<Raw>
  {
    OcrTotalsWith(AmountFromLine, lines, r)
  }

  /** The loop body of `_extract_totals_ocr` on one line: which branch it takes and what it assigns. */
  method ReadOcrLine(st: OcrState, line: string) returns (next: OcrState)
    ensures next == OcrStep(AmountFromLine, st, line)
  {
    next := st;
    var up := Upper(line);
    if st.subtotal.None? && Contains(up, "SUBTOTAL") {
      next := next.(subtotal := AmountFromLine(line, false));
    } else if Contains(up, "IVA") && !Contains(up, "RESPONSABLE") {
      var cand := AmountFromLine(line, true);
      if cand.Some? {
        next := next.(iva := cand);
      }
    } else if HasPercKeyword(up) {
      var cand := AmountFromLine(line, true);
      if cand.Some? {
        next := next.(perc := cand, percDesc := Some(Strip(line)));
      }
    } else if Contains(up, "TOTAL") {
      next := next.(total := AmountFromLine(line, false), stopped := true);
    }
  }

  /** The writes after the loop, once something was found. */
  method WriteOcr(out: Record, st: OcrState)
    requires st.subtotal.Some? || st.iva.Some? || st.perc.Some? || st.total.Some?
    modifies out
    ensures ApplyOcr(old(out.entries), st) == Some(out.entries)
  {
    if st.subtotal.Some? {
      out.entries := out.entries.(subtotal := st.subtotal);
    }
    if st.iva.Some? {
      out.entries := out.entries.(iva := st.iva);
      out.entries := out.entries.(ivaDetalle := [IvaItem(Some("21.00"), st.iva.value)]);
    }
    if st.perc.Some? {
      out.entries := out.entries.(percepcionesTotal := st.perc);
      var desc := if st.percDesc.Some? && st.percDesc.value != "" then st.percDesc.value else "PERCEP. IIBB";
      out.entries := out.entries.(percepcionesDetalle := [PercItem(desc, st.perc.value)]);
    }
    if st.total.Some? {
      out.entries := out.entries.(total := st.total);
    } else if st.subtotal.Some? {
      out.entries := out.entries.(total := Some(Round2(st.subtotal.value + st.iva.GetOr(0.0) + st.perc.GetOr(0.0))));
    }
  }

  method ExtractTotalsOcr(lines: seq<string>, out: Record) returns (handled: bool)
    modifies out
    ensures handled == OcrTotals(lines, old(out.entries)).Some?
    ensures out.entries == OcrTotals(lines, old(out.entries)).GetOr(old(out.entries))
  {
    var idxSub := FindLast(lines, MentionsSubtotal);
    if idxSub.None? {
      return false;
    }
    var window := lines[idxSub.value..Min(|lines|, idxSub.value + OCR_WINDOW)];
    assert window == Window(lines, idxSub.value, OCR_WINDOW);
    var st := OCR_START;
    var k := 0;
    while k < |window|
      invariant k <= |window| && !st.stopped
      invariant OcrScan(AmountFromLine, window, k) == st
      invariant out.entries == old(out.entries)
      decreases |window| - k
    {
      st := ReadOcrLine(st, window[k]);
      if st.stopped {
        assert OcrScan(AmountFromLine, window, k + 1) == st;
        OcrScanStopped(AmountFromLine, window, k + 1, |window|);
        break;
      }
      k := k + 1;
    }
    assert OcrScan(AmountFromLine, window, |window|) == st;
    if st.subtotal.None? && st.iva.None? && st.perc.None? && st.total.None? {
      return false;
    }
    WriteOcr(out, st);
    return true;
  }

  /** Only a line that mentions SUBTOTAL sets the subtotal, and only while none is set. */
  lemma OcrStepSubtotal(read: AmountReader, st: OcrState, line: string)
    ensures OcrStep(read, st, line).subtotal ==
      if st.subtotal.None? && MentionsSubtotal(line) then read(line, false) else st.subtotal
  {
  }

  /** With the anchor first and no other line mentioning SUBTOTAL, the subtotal is the anchor's amount. */
  lemma {:induction false} OcrSubtotalKept(read: AmountReader, window: seq<string>, n: nat)
    requires 1 <= n <= |window| && MentionsSubtotal(window[0])
    requires forall k | 0 < k < |window| :: !MentionsSubtotal(window[k])
    ensures OcrScan(read, window, n).subtotal == read(window[0], false)
  {
    if n == 1 {
      OcrStepSubtotal(read, OCR_START, window[0]);
    } else {
      OcrSubtotalKept(read, window, n - 1);
      var st := OcrScan(read, window, n - 1);
      if !st.stopped {
        OcrStepSubtotal(read, st, window[n - 1]);
      }
    }
  }

  /**
   * The subtotal the OCR strategy writes is read from the anchor, the last line mentioning
   * SUBTOTAL, and from no other line; the header entries are never touched.
   */
  lemma OcrSubtotalFromAnchor(read: AmountReader, lines: seq<string>, r: Raw)
    requires OcrTotalsWith(read, lines, r).Some?
    ensures var idx := LastIndex(lines, MentionsSubtotal, |lines|);
      && idx.Some? && (forall k | idx.value < k < |lines| :: !MentionsSubtotal(lines[k]))
      && var amount := read(lines[idx.value], false);
         OcrTotalsWith(read, lines, r).value.subtotal == if amount.Some? then amount else r.subtotal
  {
    var idx := LastIndex(lines, MentionsSubtotal, |lines|).value;
    var w := Window(lines, idx, OCR_WINDOW);
    var st := OcrScan(read, w, |w|);
    assert OcrTotalsWith(read, lines, r) == ApplyOcr(r, st);
    WindowAfterLast(lines, MentionsSubtotal, idx, OCR_WINDOW);
    OcrSubtotalKept(read, w, |w|);
    ApplyOcrSubtotal(r, st);
  }

  /**
   * The total the OCR strategy writes is the TOTAL line's amount when the loop reached one,
   * and otherwise, with a subtotal found, the subtotal plus whatever IVA and perceptions were
   * found, rounded to cents.
   */
  lemma OcrTotalRule(r: Raw, st: OcrState)
    requires ApplyOcr(r, st).Some?
    ensures st.total.Some? ==> ApplyOcr(r, st).value.total == st.total
    ensures st.total.None? && st.subtotal.Some? ==>
      ApplyOcr(r, st).value.total == Some(Round2(st.subtotal.value + st.iva.GetOr(0.0) + st.perc.GetOr(0.0)))
      && IsCents(ApplyOcr(r, st).value.total.value)
    ensures st.total.None? && st.subtotal.None? ==> ApplyOcr(r, st).value.total == r.total
    ensures st.iva.None? ==> ApplyOcr(r, st).value.iva == r.iva && ApplyOcr(r, st).value.ivaDetalle == r.ivaDetalle
    ensures st.perc.None? ==> ApplyOcr(r, st).value.percepcionesTotal == r.percepcionesTotal
                              && ApplyOcr(r, st).value.percepcionesDetalle == r.percepcionesDetalle
    ensures SameHeader(r, ApplyOcr(r, st).value)
  {
    forall x: real {
      Round2Near(x);
    }
  }

  // ---------------------------------------------------------------------------------------
  // extract_totals_guerrini
  // ---------------------------------------------------------------------------------------

  /** The record the handler leaves: the preferred strategy, then the other one if it wrote nothing. */
  function GuerriniTotals(lines: seq<string>, r: Raw): Raw
  {
    if UsedOcr(r) then
      match OcrTotals(lines, r)
      case Some(r') => r'
      case None => NumericTotals(lines, r).GetOr(r)
    else
      match NumericTotals(lines, r)
      case Some(r') => r'
      case None => OcrTotals(lines, r).GetOr(r)
  }

  method ExtractTotalsGuerrini(lines: seq<string>, out: Record)
    modifies out
    ensures out.entries == GuerriniTotals(lines, old(out.entries))
  {
    var usedOcr := out.entries.debug.Some? && out.entries.debug.value.usedOcr;
    if usedOcr {
      var handled := ExtractTotalsOcr(lines, out);
      if !handled {
        handled := ExtractTotalsNumeric(lines, out);
      }
    } else {
      var handled := ExtractTotalsNumeric(lines, out);
      if !handled {
        handled := ExtractTotalsOcr(lines, out);
      }
    }
  }

  /** The handler writes only totals: header, parties, `debug` and `warnings` stay as they were. */
  lemma GuerriniKeepsHeader(lines: seq<string>, r: Raw)
    ensures SameHeader(r, GuerriniTotals(lines, r))
  {
    if NumericTotals(lines, r).Some? {
      NumericTotalsWrites(PureValue, lines, r);
    }
    match LastIndex(lines, MentionsSubtotal, |lines|)
    case None =>
    case Some(idx) =>
      var st := OcrScan(AmountFromLine, Window(lines, idx, OCR_WINDOW), |Window(lines, idx, OCR_WINDOW)|);
      if ApplyOcr(r, st).Some? {
        OcrTotalRule(r, st);
      }
  }

  /** The second strategy runs only when the first one wrote nothing. */
  lemma GuerriniOrder(lines: seq<string>, r: Raw)
    ensures UsedOcr(r) && OcrTotals(lines, r).Some? ==> GuerriniTotals(lines, r) == OcrTotals(lines, r).value
    ensures !UsedOcr(r) && NumericTotals(lines, r).Some? ==> GuerriniTotals(lines, r) == NumericTotals(lines, r).value
    ensures OcrTotals(lines, r).None? && NumericTotals(lines, r).None? ==> GuerriniTotals(lines, r) == r
  {
  }
}
