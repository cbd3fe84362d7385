/**
 * The totals strategy used when no vendor handler is registered. It reads the last 150 lines
 * of the document once, top to bottom; on each line four independent keyword tests (after
 * fixing the letters OCR tends to read as digits) decide which of subtotal, IVA, perceptions
 * and total take the first amount found at or below that line. IVA and perceptions add up,
 * the first subtotal sticks and the last total wins; afterwards all six totals entries of
 * the record are overwritten.
 */
module FallbackTotals {
  import opened Wrappers
  import opened Text
  import opened Decimal
  import opened Scan
  import opened TextUtils
  import opened InvoiceRecord

  /** How many lines from the end of the document are read. */
  const TAIL_SIZE: nat := 150

  /** The default `max_ahead` of `first_amount_forward`. */
  const MAX_AHEAD: nat := 12

  // ---------------------------------------------------------------------------------------
  // _normalize_ocr_keyword
  // ---------------------------------------------------------------------------------------

  /** The characters `_OCR_KEYWORD_FIXES` replaces. */
  const OCR_FIX_SOURCES: set<char> := {'0', '1', '5', '6', '8', '|', '@'}

  /** `_OCR_KEYWORD_FIXES` on one character: 0→O, 1→I, 5→S, 6→G, 8→B, |→I, @→A. */
  function OcrKeyChar(c: char): char
  {
    if c == '0' then 'O'
    else if c == '1' then 'I'
    else if c == '5' then 'S'
    else if c == '6' then 'G'
    else if c == '8' then 'B'
    else if c == '|' then 'I'
    else if c == '@' then 'A'
    else c
  }

  /** `_normalize_ocr_keyword(text)`: `text.translate(_OCR_KEYWORD_FIXES)`; "" stays "". */
  function NormalizeOcrKeyword(text: string): (r: string)
    ensures |r| == |text|
    ensures forall i | 0 <= i < |text| :: r[i] == OcrKeyChar(text[i])
  {
    seq(|text|, i requires 0 <= i < |text| => OcrKeyChar(text[i]))
  }

  /**
   * The map keeps the length, leaves every other character where it was, and leaves none of
   * the seven characters it replaces; so applying it twice is applying it once.
   */
  lemma NormalizeOcrKeywordFixes(text: string)
    ensures var r := NormalizeOcrKeyword(text);
      && (forall i | 0 <= i < |r| :: r[i] !in OCR_FIX_SOURCES)
      && (forall i | 0 <= i < |text| :: text[i] !in OCR_FIX_SOURCES ==> r[i] == text[i])
      && NormalizeOcrKeyword(r) == r
  {
    var r := NormalizeOcrKeyword(text);
    assert forall i | 0 <= i < |r| :: r[i] !in OCR_FIX_SOURCES;
    assert NormalizeOcrKeyword(r) == r;
  }

  /** The keyword form of a line: upper-cased, then OCR-fixed. */
  function KeyOf(line: string): string
  {
    NormalizeOcrKeyword(Upper(line))
  }

  // ---------------------------------------------------------------------------------------
  // fallback_totals
  // ---------------------------------------------------------------------------------------

  /** `lines[max(0, len(lines) - 150):]`. */
  function Tail(lines: seq<string>): (t: seq<string>)
    ensures |t| == Min(|lines|, TAIL_SIZE)
    ensures t == lines[|lines| - |t|..]
  {
    lines[if |lines| > TAIL_SIZE then |lines| - TAIL_SIZE else 0..]
  }

  /**
   * How the amount for the line at index `i` of the tail is read:
   * `first_amount_forward(tail, i)`. The scan is stated for any reader so that its
   * properties do not depend on how amounts are parsed; the strategy uses `ReadAhead`.
   */
  type AheadReader = (seq<string>, nat) -> Option<real>

  /** `first_amount_forward(tail, i)`, which looks at `tail[i .. i + 12]` only. */
  function ReadAhead(tail: seq<string>, i: nat): Option<real>
  {
    AmountAhead(tail, i, MAX_AHEAD)
  }

  /** The loop variables: `sub`, `iva`, `perc`, `tot`, `iva_items`, `perc_items`. */
  datatype FallbackState = FallbackState(
    sub: Option<real>, iva: Option<real>, perc: Option<real>, tot: Option<real>,
    ivaItems: seq<IvaItem>, percItems: seq<PercItem>)

  const FALLBACK_START: FallbackState := FallbackState(None, None, None, None, [], [])

  /** The line at `i` is a subtotal line with an amount. */
  predicate SubtotalHit(read: AheadReader, tail: seq<string>, i: nat)
    requires i < |tail|
  {
    Contains(KeyOf(tail[i]), "SUBTOTAL") && read(tail, i).Some?
  }

  /** The line at `i` is a total line with an amount. */
  predicate TotalHit(read: AheadReader, tail: seq<string>, i: nat)
    requires i < |tail|
  {
    Contains(KeyOf(tail[i]), "TOTAL") && read(tail, i).Some?
  }

  /** The line at `i` is an IVA line with an amount. */
  predicate IvaHit(read: AheadReader, tail: seq<string>, i: nat)
    requires i < |tail|
  {
    Contains(KeyOf(tail[i]), "IVA") && read(tail, i).Some?
  }

  /** The line at `i` is a perception line with an amount. */
  predicate PercHit(read: AheadReader, tail: seq<string>, i: nat)
    requires i < |tail|
  {
    HasPercKeyword(KeyOf(tail[i])) && read(tail, i).Some?
  }

  /** `if sub is None and "SUBTOTAL" in up_key`: the first subtotal sticks. */
  function StepSub(st: FallbackState, up: string, v: Option<real>): FallbackState
  {
    if st.sub.None? && Contains(up, "SUBTOTAL") && v.Some? then st.(sub := v) else st
  }

  /** `if "IVA" in up_key`: add the amount and record an item without rate. */
  function StepIva(st: FallbackState, up: string, v: Option<real>): FallbackState
  {
    if Contains(up, "IVA") && v.Some? then
      AddIva(st, v.value)
    else st
  }

  /** `iva = (iva or 0.0) + v` and the item `{"alicuota": None, "monto": v}`. */
  function AddIva(st: FallbackState, v: real): FallbackState
  {
    st.(iva := Some(st.iva.GetOr(0.0) + v), ivaItems := st.ivaItems + [IvaItem(None, v)])
  }

  /** `perc = (perc or 0.0) + v` and the item `{"desc": line, "monto": v}`. */
  function AddPerc(st: FallbackState, line: string, v: real): FallbackState
  {
    st.(perc := Some(st.perc.GetOr(0.0) + v), percItems := st.percItems + [PercItem(line, v)])
  }

  /** `if any(k in up_key ...)`: add the amount and record an item described by the line. */
  function StepPerc(st: FallbackState, up: string, line: string, v: Option<real>): FallbackState
  {
    if HasPercKeyword(up) && v.Some? then
      AddPerc(st, line, v.value)
    else st
  }

  /** `if "TOTAL" in up_key`: the amount replaces any earlier total. */
  function StepTot(st: FallbackState, up: string, v: Option<real>): FallbackState
  {
    if Contains(up, "TOTAL") && v.Some? then st.(tot := v) else st
  }

  /** One pass of the loop body over the line at `i`: four independent tests, in order. */
  function FallbackStep(read: AheadReader, tail: seq<string>, i: nat, st: FallbackState): FallbackState
    requires i < |tail|
  {
    var up := KeyOf(tail[i]);
    var v := read(tail, i);
    StepTot(StepPerc(StepIva(StepSub(st, up, v), up, v), up, tail[i], v), up, v)
  }

  /** The loop variables after the first `n` lines of the tail. */
  function FallbackScan(read: AheadReader, tail: seq<string>, n: nat): FallbackState
    requires n <= |tail|
  {
    if n == 0 then FALLBACK_START
    else FallbackStep(read, tail, n - 1, FallbackScan(read, tail, n - 1))
  }

  /** The writes after the loop: all six totals entries, then the computed total if needed. */
  function ApplyFallback(r: Raw, st: FallbackState): Raw
  {
    var total :=
      if st.tot.None? && st.sub.Some? then Some(Round2(st.sub.value + st.iva.GetOr(0.0) + st.perc.GetOr(0.0)))
      else st.tot;
    r.(subtotal := st.sub, iva := st.iva, ivaDetalle := st.ivaItems, percepcionesTotal := st.perc,
       percepcionesDetalle := st.percItems, total := total)
  }

  /** The strategy with amounts read by `read`. */
  function FallbackTotalsWith(read: AheadReader, lines: seq<string>, r: Raw): Raw
  {
    var tail := Tail(lines);
    ApplyFallback(r, FallbackScan(read, tail, |tail|))
  }

  /** `fallback_totals(lines, out)`: the record it leaves. */
  function FallbackResult(lines: seq<string>, r: Raw): Raw
  {
    FallbackTotalsWith(ReadAhead, lines, r)
  }

  /** The SUBTOTAL test of the loop body. */
  method ScanSubtotal(tail: seq<string>, i: nat, up: string, st: FallbackState) returns (next: FallbackState)
    requires i < |tail|
    ensures next == StepSub(st, up, ReadAhead(tail, i))
  {
    next := st;
    if st.sub.None? && Contains(up, "SUBTOTAL") {
      var v := FirstAmountForward(tail, i, MAX_AHEAD);
      if v.Some? {
        next := st.(sub := v);
      }
    }
  }

  /** The IVA test of the loop body. */
  method ScanIva(tail: seq<string>, i: nat, up: string, st: FallbackState) returns (next: FallbackState)
    requires i < |tail|
    ensures next == StepIva(st, up, ReadAhead(tail, i))
  {
    next := st;
    if Contains(up, "IVA") {
      var v := FirstAmountForward(tail, i, MAX_AHEAD);
      if v.Some? {
        next := AddIva(st, v.value);
      }
    }
  }

  /** The perception test of the loop body. */
  method ScanPerc(tail: seq<string>, i: nat, up: string, st: FallbackState) returns (next: FallbackState)
    requires i < |tail|
    ensures next == StepPerc(st, up, tail[i], ReadAhead(tail, i))
  {
    next := st;
    if HasPercKeyword(up) {
      var v := FirstAmountForward(tail, i, MAX_AHEAD);
      if v.Some? {
        next := AddPerc(st, tail[i], v.value);
      }
    }
  }

  /** The TOTAL test of the loop body. */
  method ScanTotal(tail: seq<string>, i: nat, up: string, st: FallbackState) returns (next: FallbackState)
    requires i < |tail|
    ensures next == StepTot(st, up, ReadAhead(tail, i))
  {
    next := st;
    if Contains(up, "TOTAL") {
      var v := FirstAmountForward(tail, i, MAX_AHEAD);
      if v.Some? {
        next := st.(tot := v);
      }
    }
  }

  /** The loop body of `fallback_totals` on the line at `i`: the four tests in order. */
  method ScanLine(tail: seq<string>, i: nat, st: FallbackState) returns (next: FallbackState)
    requires i < |tail|
    ensures next == FallbackStep(ReadAhead, tail, i, st)
  {
    var upKey := NormalizeOcrKeyword(Upper(tail[i]));
    next := ScanSubtotal(tail, i, upKey, st);
    next := ScanIva(tail, i, upKey, next);
    next := ScanPerc(tail, i, upKey, next);
    next := ScanTotal(tail, i, upKey, next);
  }

  /** The writes of `fallback_totals` after its loop. */
  method WriteFallback(out: Record, st: FallbackState)
    modifies out
    ensures out.entries == ApplyFallback(old(out.entries), st)
  {
    out.entries := out.entries.(
      subtotal := st.sub,
      iva := st.iva,
      ivaDetalle := st.ivaItems,
      percepcionesTotal := st.perc,
      percepcionesDetalle := st.percItems,
      total := st.tot);
    if out.entries.total.None? && st.sub.Some? {
      out.entries := out.entries.(total := Some(Round2(st.sub.value + st.iva.GetOr(0.0) + st.perc.GetOr(0.0))));
    }
  }

  method FallbackTotals(lines: seq<string>, out: Record)
    modifies out
    ensures out.entries == FallbackResult(lines, old(out.entries))
  {
    var start := if |lines| > TAIL_SIZE then |lines| - TAIL_SIZE else 0;
    var tail := lines[start..];
    assert tail == Tail(lines);
    var st := FALLBACK_START;
    var i := 0;
    while i < |tail|
      invariant i <= |tail|
      invariant st == FallbackScan(ReadAhead, tail, i)
      invariant out.entries == old(out.entries)
      decreases |tail| - i
    {
      st := ScanLine(tail, i, st);
      i := i + 1;
    }
    WriteFallback(out, st);
  }

  // ---------------------------------------------------------------------------------------
  // Properties
  // ---------------------------------------------------------------------------------------

  /** `sum(item["monto"] for item in items)`, left to right. */
  function SumIva(items: seq<IvaItem>): real
  {
    if items == [] then 0.0 else SumIva(items[..|items| - 1]) + items[|items| - 1].monto
  }

  function SumPerc(items: seq<PercItem>): real
  {
    if items == [] then 0.0 else SumPerc(items[..|items| - 1]) + items[|items| - 1].monto
  }

  lemma SumIvaSnoc(items: seq<IvaItem>, x: IvaItem)
    ensures SumIva(items + [x]) == SumIva(items) + x.monto
  {
    assert (items + [x])[..|items|] == items;
  }

  lemma SumPercSnoc(items: seq<PercItem>, x: PercItem)
    ensures SumPerc(items + [x]) == SumPerc(items) + x.monto
  {
    assert (items + [x])[..|items|] == items;
  }

  /** The running IVA amount is the sum of its items, and `None` exactly while there is none. */
  predicate IvaSummed(st: FallbackState)
  {
    && st.iva == (if st.ivaItems == [] then None else Some(SumIva(st.ivaItems)))
    && forall k | 0 <= k < |st.ivaItems| :: st.ivaItems[k].alicuota.None?
  }

  /** The running perception amount is the sum of its items, and `None` exactly while there is none. */
  predicate PercSummed(st: FallbackState)
  {
    st.perc == (if st.percItems == [] then None else Some(SumPerc(st.percItems)))
  }

  lemma StepIvaSummed(st: FallbackState, up: string, v: Option<real>)
    requires IvaSummed(st)
    ensures IvaSummed(StepIva(st, up, v))
  {
    if Contains(up, "IVA") && v.Some? {
      SumIvaSnoc(st.ivaItems, IvaItem(None, v.value));
    }
  }

  lemma StepPercSummed(st: FallbackState, up: string, line: string, v: Option<real>)
    requires PercSummed(st)
    ensures PercSummed(StepPerc(st, up, line, v))
  {
    if HasPercKeyword(up) && v.Some? {
      SumPercSnoc(st.percItems, PercItem(line, v.value));
    }
  }

  lemma StepKeepsSums(st: FallbackState, up: string, line: string, v: Option<real>)
    requires IvaSummed(st) && PercSummed(st)
    ensures var next := StepTot(StepPerc(StepIva(StepSub(st, up, v), up, v), up, line, v), up, v);
      IvaSummed(next) && PercSummed(next)
  {
    var s1 := StepSub(st, up, v);
    assert s1.iva == st.iva && s1.ivaItems == st.ivaItems && s1.perc == st.perc && s1.percItems == st.percItems;
    StepIvaSummed(s1, up, v);
    var s2 := StepIva(s1, up, v);
    assert s2.perc == s1.perc && s2.percItems == s1.percItems;
    StepPercSummed(s2, up, line, v);
    var s3 := StepPerc(s2, up, line, v);
    assert s3.iva == s2.iva && s3.ivaItems == s2.ivaItems;
    var s4 := StepTot(s3, up, v);
    assert s4.iva == s3.iva && s4.ivaItems == s3.ivaItems && s4.perc == s3.perc && s4.percItems == s3.percItems;
  }

  /**
   * The running IVA and perception amounts are the sums of their item lists, and are `None`
   * exactly while no item was recorded; every IVA item has no rate.
   */
  lemma {:induction false} FallbackScanSums(read: AheadReader, tail: seq<string>, n: nat)
    requires n <= |tail|
    ensures IvaSummed(FallbackScan(read, tail, n)) && PercSummed(FallbackScan(read, tail, n))
  {
    if n > 0 {
      FallbackScanSums(read, tail, n - 1);
      StepKeepsSums(FallbackScan(read, tail, n - 1), KeyOf(tail[n - 1]), tail[n - 1], read(tail, n - 1));
    }
  }

  /**
   * The four tests are independent: a line with an amount that is both an IVA line and a
   * perception line adds one item to each list, and a SUBTOTAL line is also a TOTAL line.
   */
  lemma FallbackStepClasses(read: AheadReader, tail: seq<string>, i: nat, st: FallbackState)
    requires i < |tail|
    ensures var next := FallbackStep(read, tail, i, st);
      && next.ivaItems == st.ivaItems + (if IvaHit(read, tail, i) then [IvaItem(None, read(tail, i).value)] else [])
      && next.percItems == st.percItems + (if PercHit(read, tail, i) then [PercItem(tail[i], read(tail, i).value)] else [])
      && (SubtotalHit(read, tail, i) ==> TotalHit(read, tail, i) && next.tot == read(tail, i))
  {
    if SubtotalHit(read, tail, i) {
      SubtotalIsTotal(KeyOf(tail[i]));
    }
  }

  lemma SubtotalIsTotal(up: string)
    requires Contains(up, "SUBTOTAL")
    ensures Contains(up, "TOTAL")
  {
    var s := "SUBTOTAL";
    assert "TOTAL" <= s[3..];
    assert Contains(s[3..], "TOTAL");
    assert Contains(s[2..], "TOTAL");
    assert Contains(s[1..], "TOTAL");
    ContainsTrans(up, s, "TOTAL");
  }

  /**
   * The subtotal is the amount of the first subtotal line that has one, and stays `None`
   * exactly when no line has.
   */
  lemma {:induction false} FallbackSubtotalFirst(read: AheadReader, tail: seq<string>, n: nat)
    requires n <= |tail|
    ensures var st := FallbackScan(read, tail, n);
      && (st.sub.None? <==> forall j | 0 <= j < n :: !SubtotalHit(read, tail, j))
      && (st.sub.Some? ==>
            exists j | 0 <= j < n :: SubtotalHit(read, tail, j) && st.sub == read(tail, j)
                                   && forall k | 0 <= k < j :: !SubtotalHit(read, tail, k))
  {
    if n > 0 {
      FallbackSubtotalFirst(read, tail, n - 1);
      var st := FallbackScan(read, tail, n - 1);
      assert FallbackScan(read, tail, n).sub ==
        if st.sub.None? && SubtotalHit(read, tail, n - 1) then read(tail, n - 1) else st.sub;
    }
  }

  /** The total is the amount of the last total line that has one, and `None` when no line has. */
  lemma {:induction false} FallbackTotalLast(read: AheadReader, tail: seq<string>, n: nat)
    requires n <= |tail|
    ensures var st := FallbackScan(read, tail, n);
      && (st.tot.None? <==> forall j | 0 <= j < n :: !TotalHit(read, tail, j))
      && (st.tot.Some? ==>
            exists j | 0 <= j < n :: TotalHit(read, tail, j) && st.tot == read(tail, j)
                                   && forall k | j < k < n :: !TotalHit(read, tail, k))
  {
    if n > 0 {
      FallbackTotalLast(read, tail, n - 1);
      var st := FallbackScan(read, tail, n - 1);
      assert FallbackScan(read, tail, n).tot ==
        if TotalHit(read, tail, n - 1) then read(tail, n - 1) else st.tot;
    }
  }

  /**
   * All six totals entries are overwritten from the loop variables, the header is kept, and
   * the total is computed, as a whole number of cents, only when no total line had an amount
   * and a subtotal was found.
   */
  lemma FallbackWrites(read: AheadReader, lines: seq<string>, r: Raw)
    ensures var st := FallbackScan(read, Tail(lines), |Tail(lines)|);
      var r' := FallbackTotalsWith(read, lines, r);
      && r'.subtotal == st.sub && r'.iva == st.iva && r'.ivaDetalle == st.ivaItems
      && r'.percepcionesTotal == st.perc && r'.percepcionesDetalle == st.percItems
      && (st.tot.Some? ==> r'.total == st.tot)
      && (st.tot.None? && st.sub.None? ==> r'.total.None?)
      && (st.tot.None? && st.sub.Some? ==>
            r'.total == Some(Round2(st.sub.value + st.iva.GetOr(0.0) + st.perc.GetOr(0.0)))
            && IsCents(r'.total.value))
      && SameHeader(r, r')
  {
    forall x: real {
      Round2Near(x);
    }
  }

  /** Lines above the last 150 are never read. */
  lemma FallbackIgnoresHead(read: AheadReader, head: seq<string>, lines: seq<string>, r: Raw)
    requires |lines| >= TAIL_SIZE
    ensures FallbackTotalsWith(read, head + lines, r) == FallbackTotalsWith(read, lines, r)
  {
    var all := head + lines;
    assert all[|all| - TAIL_SIZE..] == lines[|lines| - TAIL_SIZE..];
    assert Tail(all) == Tail(lines);
  }
}
