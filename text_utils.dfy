/**
 * Line normalisation and the amount parser of `app/services/text_utils.py`: the cleaning of
 * a noisy numeric string, the ordered chain of separator strategies, the two amount regexes
 * `NUM_PURE` and `NUM_ANY` (written out by hand), and the bounded forward scan for the
 * first amount at or after a line.
 */
module TextUtils {
  import opened Wrappers
  import opened Text
  import opened Decimal
  import opened Scan

  // ---------------------------------------------------------------------------------------
  // norm_line
  // ---------------------------------------------------------------------------------------

  /** `re.sub(r"\s+", " ", s)`: every maximal run of whitespace becomes one space. */
  function CollapseSpace(s: string): (r: string)
    ensures s == [] <==> r == []
    ensures s != [] && !IsSpace(s[0]) ==> r[0] == s[0]
    ensures forall i | 0 <= i < |r| :: IsSpace(r[i]) ==> r[i] == ' '
    ensures forall i | 0 <= i < |r| - 1 :: !(r[i] == ' ' && r[i + 1] == ' ')
    decreases |s|
  {
    if s == [] then []
    else if IsSpace(s[0]) then
      var rest := LStrip(s);
      [' '] + CollapseSpace(rest)
    else [s[0]] + CollapseSpace(s[1..])
  }

  /** `norm_line`: no-break spaces become spaces, whitespace runs collapse, ends are stripped. */
  function NormLine(text: string): string
  {
    Strip(CollapseSpace(ReplaceChar(text, NBSP, ' ')))
  }

  /** What `norm_line` leaves: whitespace only as single inner spaces. */
  predicate Normalized(s: string)
  {
    SingleSpaced(s) && (s == [] || (!IsSpace(s[0]) && !IsSpace(s[|s| - 1])))
  }

  /** Whitespace only as single spaces, with no two in a row. */
  predicate SingleSpaced(s: string)
  {
    && (forall i | 0 <= i < |s| :: IsSpace(s[i]) ==> s[i] == ' ')
    && (forall i | 0 <= i < |s| - 1 :: !(s[i] == ' ' && s[i + 1] == ' '))
  }

  lemma SingleSpacedSlice(s: string, a: nat, b: nat)
    requires a <= b <= |s| && SingleSpaced(s)
    ensures SingleSpaced(s[a..b])
  {
    var t := s[a..b];
    assert forall i | 0 <= i < |t| :: t[i] == s[a + i];
  }

  lemma StripSingleSpaced(c: string)
    requires SingleSpaced(c)
    ensures Normalized(Strip(c))
  {
    SingleSpacedSlice(c, StripStart(c), StripEnd(c));
  }

  lemma SingleSpacedNoNbsp(r: string)
    requires SingleSpaced(r)
    ensures NBSP !in r
  {
    if NBSP in r {
      var i :| 0 <= i < |r| && r[i] == NBSP;
      assert IsSpace(r[i]);
    }
  }

  lemma NormLineNormalized(text: string)
    ensures Normalized(NormLine(text))
    ensures NBSP !in NormLine(text)
  {
    var c := CollapseSpace(ReplaceChar(text, NBSP, ' '));
    StripSingleSpaced(c);
    SingleSpacedNoNbsp(Strip(c));
  }

  lemma {:induction false} CollapseSpaceFixpoint(s: string)
    requires forall i | 0 <= i < |s| :: IsSpace(s[i]) ==> s[i] == ' '
    requires forall i | 0 <= i < |s| - 1 :: !(s[i] == ' ' && s[i + 1] == ' ')
    ensures CollapseSpace(s) == s
    decreases |s|
  {
    if s != [] {
      var t := s[1..];
      assert forall i | 0 <= i < |t| :: t[i] == s[i + 1];
      CollapseSpaceFixpoint(t);
      if IsSpace(s[0]) {
        assert t == [] || !IsSpace(t[0]);
        assert LStrip(s) == LStrip(t) == t;
      }
    }
  }

  /** A normalised line is a fixed point of `norm_line`. */
  lemma NormLineFixpoint(s: string)
    requires Normalized(s)
    ensures NormLine(s) == s
  {
    assert IsSpace(NBSP);
    assert ReplaceChar(s, NBSP, ' ') == s;
    CollapseSpaceFixpoint(s);
    StripUnchanged(s);
  }

  lemma NormLineIdempotent(text: string)
    ensures NormLine(NormLine(text)) == NormLine(text)
  {
    NormLineNormalized(text);
    NormLineFixpoint(NormLine(text));
  }

  // ---------------------------------------------------------------------------------------
  // strip_currency and _clean_number_candidate
  // ---------------------------------------------------------------------------------------

  /** `strip_currency`: drop every `$`, then strip. */
  function StripCurrency(value: string): (r: string)
    ensures '$' !in r
    ensures r == [] || (!IsSpace(r[0]) && !IsSpace(r[|r| - 1]))
  {
    StripAbsent(RemoveChar(value, '$'), '$');
    Strip(RemoveChar(value, '$'))
  }

  /** The characters `[0-9,.\-]` that survive the cleaning. */
  predicate IsNumChar(c: char)
  {
    IsDigit(c) || c == ',' || c == '.' || c == '-'
  }

  predicate AllNumChars(s: string)
  {
    forall i | 0 <= i < |s| :: IsNumChar(s[i])
  }

  /** `re.sub(r"[^0-9,.\-]", "", s)`. */
  function KeepNumeric(s: string): (r: string)
    ensures AllNumChars(r)
  {
    if s == [] then []
    else (if IsNumChar(s[0]) then [s[0]] else []) + KeepNumeric(s[1..])
  }

  lemma {:induction false} KeepNumericIdentity(s: string)
    requires AllNumChars(s)
    ensures KeepNumeric(s) == s
    decreases |s|
  {
    if s != [] {
      KeepNumericIdentity(s[1..]);
    }
  }

  lemma {:induction false} KeepNumericAppend(a: string, b: string)
    ensures KeepNumeric(a + b) == KeepNumeric(a) + KeepNumeric(b)
    decreases |a|
  {
    if a == [] {
      assert a + b == b;
    } else {
      assert (a + b)[1..] == a[1..] + b;
      KeepNumericAppend(a[1..], b);
    }
  }

  lemma {:induction false} KeepNumericSpaces(s: string)
    requires AllSpace(s)
    ensures KeepNumeric(s) == []
    decreases |s|
  {
    if s != [] {
      KeepNumericSpaces(s[1..]);
    }
  }

  lemma {:induction false} KeepNumericRemove(s: string, c: char)
    requires !IsNumChar(c)
    ensures KeepNumeric(RemoveChar(s, c)) == KeepNumeric(s)
    decreases |s|
  {
    if s != [] {
      KeepNumericRemove(s[1..], c);
      KeepNumericAppend(if s[0] == c then [] else [s[0]], RemoveChar(s[1..], c));
    }
  }

  lemma KeepNumericStrip(s: string)
    ensures KeepNumeric(Strip(s)) == KeepNumeric(s)
  {
    var r := Strip(s);
    StripSplit(s);
    var p, q := s[..StripStart(s)], s[StripEnd(s)..];
    KeepNumericAppend(p + r, q);
    KeepNumericAppend(p, r);
    KeepNumericSpaces(p);
    KeepNumericSpaces(q);
  }

  /** `_clean_number_candidate`: `None` stays `None`; otherwise keep `[0-9,.\-]`, `None` if nothing is left. */
  function CleanNumberCandidate(value: Option<string>): (r: Option<string>)
    ensures value.None? ==> r.None?
    ensures r.Some? ==> r.value != [] && AllNumChars(r.value)
  {
    match value
    case None => None
    case Some(v) =>
      var cleaned := KeepNumeric(RemoveChar(StripCurrency(v), ' '));
      if cleaned == [] then None else Some(cleaned)
  }

  /** The cleaning is exactly the `[0-9,.\-]` filter of the raw text. */
  lemma CleanNumberCandidateFilter(v: string)
    ensures CleanNumberCandidate(Some(v)) == if KeepNumeric(v) == [] then None else Some(KeepNumeric(v))
  {
    var s := RemoveChar(v, '$');
    KeepNumericRemove(Strip(s), ' ');
    KeepNumericStrip(s);
    KeepNumericRemove(v, '$');
  }

  lemma CleanNumberCandidateClean(v: string)
    requires v != [] && AllNumChars(v)
    ensures CleanNumberCandidate(Some(v)) == Some(v)
  {
    CleanNumberCandidateFilter(v);
    KeepNumericIdentity(v);
  }

  // ---------------------------------------------------------------------------------------
  // The four parsing strategies
  // ---------------------------------------------------------------------------------------

  predicate IsSep(c: char)
  {
    c == '.' || c == ','
  }

  /** The separator that is not `sep`. */
  function OtherSep(sep: char): char
  {
    if sep == ',' then '.' else ','
  }

  /**
   * With `sep` taken as the decimal point: for `,` drop the dots and turn commas into dots,
   * for `.` drop the commas.
   */
  function SepNormalize(v: string, sep: char): string
  {
    if sep == ',' then ReplaceChar(RemoveChar(v, '.'), ',', '.') else RemoveChar(v, ',')
  }

  /** `re.search(r"[.,]\d{2}$", v)` on cleaned text (which holds no newline). */
  predicate HasDecimalTail(v: string)
  {
    |v| >= 3 && IsSep(v[|v| - 3]) && IsDigit(v[|v| - 2]) && IsDigit(v[|v| - 1])
  }

  /** `_parse_with_decimal_tail`. */
  function ParseWithDecimalTail(v: string): Option<real>
  {
    if HasDecimalTail(v) then PyFloat(SepNormalize(v, v[|v| - 3])) else None
  }

  /** `_parse_with_single_separator`. */
  function ParseWithSingleSeparator(v: string): Option<real>
  {
    if ',' in v && '.' !in v then PyFloat(RemoveChar(v, ','))
    else if '.' in v && ',' !in v then
      match PyFloat(v)
      case Some(x) => Some(x)
      case None => PyFloat(RemoveChar(v, '.'))
    else None
  }

  /** The last `.` or `,` of `v`, as `re.finditer(r"[.,]", v)` would list it last. */
  function LastSeparator(v: string): (r: Option<char>)
    ensures r.None? <==> ('.' !in v && ',' !in v)
    ensures r.Some? ==> IsSep(r.value)
  {
    if v == [] then None
    else if IsSep(v[|v| - 1]) then Some(v[|v| - 1])
    else
      assert v == v[..|v| - 1] + [v[|v| - 1]];
      LastSeparator(v[..|v| - 1])
  }

  /** `_parse_with_last_separator`. */
  function ParseWithLastSeparator(v: string): Option<real>
  {
    match LastSeparator(v)
    case None => None
    case Some(sep) => PyFloat(SepNormalize(v, sep))
  }

  /** `_parse_plain_number`. */
  function ParsePlainNumber(v: string): Option<real>
  {
    PyFloat(v)
  }

  datatype Strategy = DecimalTail | SingleSeparator | LastSeparatorRule | Plain

  /** The strategy tuple of `parse_number_smart`, in the order it tries them. */
  const STRATEGIES: seq<Strategy> := [DecimalTail, SingleSeparator, LastSeparatorRule, Plain]

  function Resolve(st: Strategy, v: string): Option<real>
  {
    match st
    case DecimalTail => ParseWithDecimalTail(v)
    case SingleSeparator => ParseWithSingleSeparator(v)
    case LastSeparatorRule => ParseWithLastSeparator(v)
    case Plain => ParsePlainNumber(v)
  }

  /** The first strategy result that is not `None`. */
  function FirstResolved(sts: seq<Strategy>, v: string): Option<real>
  {
    if sts == [] then None
    else match Resolve(sts[0], v)
      case Some(x) => Some(x)
      case None => FirstResolved(sts[1..], v)
  }

  /** What `parse_number_smart` returns. */
  function SmartNumber(raw: Option<string>): Option<real>
  {
    match CleanNumberCandidate(raw)
    case None => None
    case Some(v) => FirstResolved(STRATEGIES, v)
  }

  /** `parse_number_smart`: clean, then try each strategy in turn and stop at the first value. */
  method ParseNumberSmart(raw: Option<string>) returns (r: Option<real>)
    ensures r == SmartNumber(raw)
  {
    var value := CleanNumberCandidate(raw);
    if value.None? {
      return None;
    }
    var v := value.value;
    var strategies := STRATEGIES;
    for k := 0 to |strategies|
      invariant FirstResolved(strategies[k..], v) == FirstResolved(strategies, v)
    {
      assert strategies[k..][1..] == strategies[k + 1..];
      var parsed := Resolve(strategies[k], v);
      if parsed.Some? {
        return parsed;
      }
    }
    return None;
  }

  lemma FirstResolvedStep(sts: seq<Strategy>, v: string)
    requires sts != []
    ensures FirstResolved(sts, v) == if Resolve(sts[0], v).Some? then Resolve(sts[0], v) else FirstResolved(sts[1..], v)
  {
  }

  /** The strategies are tried in the order decimal tail, single separator, last separator, plain. */
  lemma StrategiesOrder(v: string)
    ensures FirstResolved(STRATEGIES, v) ==
      if ParseWithDecimalTail(v).Some? then ParseWithDecimalTail(v)
      else if ParseWithSingleSeparator(v).Some? then ParseWithSingleSeparator(v)
      else if ParseWithLastSeparator(v).Some? then ParseWithLastSeparator(v)
      else ParsePlainNumber(v)
  {
    var s1, s2, s3 := STRATEGIES[1..], STRATEGIES[2..], STRATEGIES[3..];
    assert s1 == [SingleSeparator, LastSeparatorRule, Plain] && s1[1..] == s2;
    assert s2 == [LastSeparatorRule, Plain] && s2[1..] == s3;
    assert s3 == [Plain] && s3[1..] == [];
    FirstResolvedStep(STRATEGIES, v);
    FirstResolvedStep(s1, v);
    FirstResolvedStep(s2, v);
    FirstResolvedStep(s3, v);
  }

  lemma SmartNumberOrder(v: string)
    requires v != [] && AllNumChars(v)
    ensures SmartNumber(Some(v)) ==
      if ParseWithDecimalTail(v).Some? then ParseWithDecimalTail(v)
      else if ParseWithSingleSeparator(v).Some? then ParseWithSingleSeparator(v)
      else if ParseWithLastSeparator(v).Some? then ParseWithLastSeparator(v)
      else ParsePlainNumber(v)
  {
    CleanNumberCandidateClean(v);
    StrategiesOrder(v);
  }

  lemma SmartNumberByDecimalTail(v: string)
    requires v != [] && AllNumChars(v) && HasDecimalTail(v)
    requires PyFloat(SepNormalize(v, v[|v| - 3])).Some?
    ensures SmartNumber(Some(v)) == PyFloat(SepNormalize(v, v[|v| - 3]))
  {
    SmartNumberOrder(v);
  }

  lemma SmartNumberBySingleSeparator(v: string)
    requires v != [] && AllNumChars(v) && !HasDecimalTail(v)
    requires ParseWithSingleSeparator(v).Some?
    ensures SmartNumber(Some(v)) == ParseWithSingleSeparator(v)
  {
    SmartNumberOrder(v);
  }

  /** Text with no digit, separator or minus sign parses to `None`. */
  lemma SmartNumberJunk(raw: Option<string>)
    requires raw.None? || KeepNumeric(raw.value) == []
    ensures SmartNumber(raw) == None
  {
    if raw.Some? {
      CleanNumberCandidateFilter(raw.value);
    }
  }

  lemma SmartNumberAbc()
    ensures SmartNumber(Some("abc")) == None
  {
    assert KeepNumeric("abc") == [];
    SmartNumberJunk(Some("abc"));
  }

  lemma {:induction false} AllDigitsRemoveOther(w: string, other: char)
    requires forall i | 0 <= i < |w| :: IsDigit(w[i]) || w[i] == other
    ensures AllDigits(RemoveChar(w, other))
    decreases |w|
  {
    if w != [] {
      var t := w[1..];
      assert forall i | 0 <= i < |t| :: t[i] == w[i + 1];
      AllDigitsRemoveOther(t, other);
    }
  }

  /** Removing `c` from `w + t` when `t` holds no `c`. */
  lemma RemoveCharKeepsTail(w: string, t: string, c: char)
    requires c !in t
    ensures RemoveChar(w + t, c) == RemoveChar(w, c) + t
  {
    RemoveCharAppend(w, t, c);
    RemoveCharAbsent(t, c);
  }

  lemma ReplaceCommaTail(core: string, d: string)
    requires AllDigits(core) && AllDigits(d)
    ensures ReplaceChar(core + ([','] + d), ',', '.') == core + ("." + d)
  {
    var x := core + ([','] + d);
    var l, r := ReplaceChar(x, ',', '.'), core + ("." + d);
    assert |l| == |r|;
    forall i | 0 <= i < |l| ensures l[i] == r[i] {
      if i < |core| {
        assert x[i] == core[i] == r[i];
      } else if i == |core| {
        assert x[i] == ',' && r[i] == '.';
      } else {
        assert x[i] == d[i - |core| - 1] == r[i];
      }
    }
  }

  lemma SepNormalizeDot(w: string, d: string)
    requires |d| == 2 && AllDigits(d)
    ensures SepNormalize(w + ['.'] + d, '.') == RemoveChar(w, ',') + "." + d
  {
    ConcatAssoc(w, ['.'], d);
    RemoveCharKeepsTail(w, ['.'] + d, ',');
    ConcatAssoc(RemoveChar(w, ','), ".", d);
  }

  lemma SepNormalizeComma(w: string, d: string)
    requires AllDigits(RemoveChar(w, '.')) && AllDigits(d)
    ensures SepNormalize(w + [','] + d, ',') == RemoveChar(w, '.') + "." + d
  {
    var core := RemoveChar(w, '.');
    ConcatAssoc(w, [','], d);
    RemoveCharKeepsTail(w, [','] + d, '.');
    ReplaceCommaTail(core, d);
    ConcatAssoc(core, ".", d);
  }

  lemma SepNormalizeTail(w: string, sep: char, d: string)
    requires IsSep(sep) && |d| == 2 && AllDigits(d)
    requires forall i | 0 <= i < |w| :: IsDigit(w[i]) || w[i] == OtherSep(sep)
    ensures SepNormalize(w + [sep] + d, sep) == RemoveChar(w, OtherSep(sep)) + "." + d
  {
    if sep == ',' {
      AllDigitsRemoveOther(w, '.');
      SepNormalizeComma(w, d);
    } else {
      SepNormalizeDot(w, d);
    }
  }

  lemma NumCharsTail(w: string, sep: char, d: string)
    requires IsSep(sep) && AllDigits(d)
    requires forall i | 0 <= i < |w| :: IsDigit(w[i]) || w[i] == OtherSep(sep)
    ensures AllNumChars(w + [sep] + d)
  {
    var v := w + [sep] + d;
    forall i | 0 <= i < |v| ensures IsNumChar(v[i]) {
      if i < |w| {
        assert v[i] == w[i];
      } else if i > |w| {
        assert v[i] == d[i - |w| - 1];
      }
    }
  }

  /**
   * The decimal-tail rule: a separator followed by exactly two final digits is the decimal
   * point, and the other kind of separator is a thousands mark that is dropped.
   */
  lemma DecimalTailRule(w: string, sep: char, d: string)
    requires IsSep(sep) && |d| == 2 && AllDigits(d)
    requires forall i | 0 <= i < |w| :: IsDigit(w[i]) || w[i] == OtherSep(sep)
    ensures AllDigits(RemoveChar(w, OtherSep(sep)))
    ensures SmartNumber(Some(w + [sep] + d)) == Some(DecimalValue(RemoveChar(w, OtherSep(sep)), d))
  {
    var v := w + [sep] + d;
    AllDigitsRemoveOther(w, OtherSep(sep));
    NumCharsTail(w, sep, d);
    SepNormalizeTail(w, sep, d);
    assert v[|v| - 3] == sep;
    DecimalTailValue(v, RemoveChar(w, OtherSep(sep)), d);
  }

  /** The decimal-tail strategy decides `v` once the normalised text is `core.dd`. */
  lemma DecimalTailValue(v: string, core: string, d: string)
    requires v != [] && AllNumChars(v) && HasDecimalTail(v)
    requires AllDigits(core) && AllDigits(d) && |d| == 2
    requires SepNormalize(v, v[|v| - 3]) == core + "." + d
    ensures SmartNumber(Some(v)) == Some(DecimalValue(core, d))
  {
    PyFloatFraction(core, d);
    SmartNumberByDecimalTail(v);
  }

  lemma Value1234Point56()
    ensures DecimalValue("1234", "56") == 1234.56
  {
    DigitsValueOf(1234, "1234");
    DigitsValueOf(56, "56");
    DecimalValueCents("1234", "56");
  }

  lemma SmartNumberThousandsComma(v: string)
    requires v == "1.234,56"
    ensures SmartNumber(Some(v)) == Some(1234.56)
  {
    var w := "1.234";
    assert v == w + [','] + "56";
    Value1234Point56();
    assert RemoveChar(w, '.') == "1234";
    assert forall i | 0 <= i < |w| :: IsDigit(w[i]) || w[i] == '.';
    DecimalTailRule(w, ',', "56");
  }

  lemma SmartNumberThousandsDot(v: string)
    requires v == "1,234.56"
    ensures SmartNumber(Some(v)) == Some(1234.56)
  {
    var w := "1,234";
    assert v == w + ['.'] + "56";
    Value1234Point56();
    assert RemoveChar(w, ',') == "1234";
    assert forall i | 0 <= i < |w| :: IsDigit(w[i]) || w[i] == ',';
    DecimalTailRule(w, '.', "56");
  }

  lemma Value169000Point00()
    ensures AllDigits("169000") && DecimalValue("169000", "00") == 169000.0
  {
    DigitsValueOf(169000, "169000");
    assert DigitsValue("00") == 0;
    DecimalValueCents("169000", "00");
  }

  lemma SmartNumberWholeCents(v: string)
    requires v == "169000.00"
    ensures SmartNumber(Some(v)) == Some(169000.0)
  {
    var w := "169000";
    assert v == w + ['.'] + "00";
    Value169000Point00();
    WholeCentsRule(w);
  }

  /** Digits followed by ".00" read as the whole number they write. */
  lemma WholeCentsRule(w: string)
    requires AllDigits(w)
    ensures SmartNumber(Some(w + ['.'] + "00")) == Some(DecimalValue(w, "00"))
  {
    RemoveCharAbsent(w, ',');
    DecimalTailRule(w, '.', "00");
  }

  /**
   * A comma-only string without a decimal tail drops all its commas, even where the comma
   * was meant as a decimal point.
   */
  lemma CommaOnlyDropsCommas(v: string)
    requires ',' in v && forall i | 0 <= i < |v| :: IsDigit(v[i]) || v[i] == ','
    requires !HasDecimalTail(v) && RemoveChar(v, ',') != []
    ensures AllDigits(RemoveChar(v, ','))
    ensures SmartNumber(Some(v)) == Some(DecimalValue(RemoveChar(v, ','), ""))
  {
    assert AllNumChars(v);
    assert '.' !in v;
    AllDigitsRemoveOther(v, ',');
    PyFloatWhole(RemoveChar(v, ','));
    SmartNumberOrder(v);
  }

  lemma SmartNumberCommaDecimal(v: string)
    requires v == "12,5"
    ensures SmartNumber(Some(v)) == Some(125.0)
  {
    DigitsValueOf(125, "125");
    DecimalValueWhole("125");
    assert RemoveChar("12,5", ',') == "125";
    assert v[2] == ',';
    CommaOnlyDropsCommas(v);
  }

  /** Text with two dots is not a float. */
  lemma TwoDotsNotFloat(v: string, i: nat, j: nat)
    requires i < j < |v| && v[i] == '.' && v[j] == '.'
    requires !IsSpace(v[0]) && !IsSpace(v[|v| - 1]) && v[0] != '-' && v[0] != '+'
    ensures PyFloat(v) == None
  {
    var k := IndexOf(v, '.');
    IndexOfFirst(v, '.', i);
    var frac := v[k + 1..];
    assert frac[j - k - 1] == '.';
    StripUnchanged(v);
  }

  /** A dot-only string with two or more dots is not a float, so its dots are dropped. */
  lemma DotsOnlyDropsDots(v: string, i: nat, j: nat)
    requires forall k | 0 <= k < |v| :: IsDigit(v[k]) || v[k] == '.'
    requires i < j < |v| && IsDigit(v[0]) && v[i] == '.' && v[j] == '.'
    requires !HasDecimalTail(v)
    ensures AllDigits(RemoveChar(v, '.'))
    ensures SmartNumber(Some(v)) == Some(DecimalValue(RemoveChar(v, '.'), ""))
  {
    assert AllNumChars(v);
    assert ',' !in v;
    assert IsDigit(v[|v| - 1]) || v[|v| - 1] == '.';
    TwoDotsNotFloat(v, i, j);
    AllDigitsRemoveOther(v, '.');
    assert RemoveChar(v, '.') == [v[0]] + RemoveChar(v[1..], '.');
    PyFloatWhole(RemoveChar(v, '.'));
    SmartNumberOrder(v);
  }

  /**
   * A lone dot that is not followed by exactly two digits is read as a decimal point, so
   * "1.234" is 1.234 and not 1234.
   */
  lemma SingleDotIsDecimalPoint(whole: string, frac: string)
    requires AllDigits(whole) && AllDigits(frac) && |whole| + |frac| > 0 && |frac| != 2
    ensures SmartNumber(Some(whole + "." + frac)) == Some(DecimalValue(whole, frac))
  {
    var v := whole + "." + frac;
    assert v[|whole|] == '.';
    assert forall i | 0 <= i < |v| :: (i < |whole| ==> v[i] == whole[i]) && (i > |whole| ==> v[i] == frac[i - |whole| - 1]);
    assert AllNumChars(v) && ',' !in v;
    assert !HasDecimalTail(v);
    PyFloatFraction(whole, frac);
    SmartNumberBySingleSeparator(v);
  }

  lemma Value1Point234()
    ensures DecimalValue("1", "234") == 1.234
  {
    DigitsValueOf(234, "234");
    assert DigitsValue("1") == 1 && Pow10(3) == 1000;
  }

  lemma SmartNumberSingleDot(v: string)
    requires v == "1.234"
    ensures SmartNumber(Some(v)) == Some(1.234)
  {
    assert v == "1" + "." + "234";
    Value1Point234();
    SingleDotIsDecimalPoint("1", "234");
  }

  // ---------------------------------------------------------------------------------------
  // NUM_PURE and NUM_ANY
  // ---------------------------------------------------------------------------------------

  /** `\d{1,3}(?:[.,]\d{3})*`. */
  predicate Grouped(g: string)
    decreases |g|
  {
    || (1 <= |g| <= 3 && AllDigits(g))
    || (|g| >= 5 && IsSep(g[|g| - 4]) && AllDigits(g[|g| - 3..]) && Grouped(g[..|g| - 4]))
  }

  /** `\d{1,3}(?:[.,]\d{3})*(?:[.,]\d{2})`. */
  predicate IsAmountCore(t: string)
  {
    |t| >= 4 && IsSep(t[|t| - 3]) && IsDigit(t[|t| - 2]) && IsDigit(t[|t| - 1]) && Grouped(t[..|t| - 3])
  }

  /** `NUM_PURE` matches: `^\s*-?\s*` an amount core `\s*$`. */
  predicate IsNumPure(line: string)
  {
    var t := LStrip(line);
    var u := if t != [] && t[0] == '-' then LStrip(t[1..]) else t;
    IsAmountCore(RStrip(u))
  }

  /** The number of consecutive digits of `s` from position `i`. */
  function DigitRun(s: string, i: nat): (n: nat)
    requires i <= |s|
    ensures i + n <= |s|
    decreases |s| - i
  {
    if i < |s| && IsDigit(s[i]) then 1 + DigitRun(s, i + 1) else 0
  }

  /** The run is all digits and is maximal. */
  lemma {:induction false} DigitRunSpan(s: string, i: nat)
    requires i <= |s|
    ensures forall j | i <= j < i + DigitRun(s, i) :: IsDigit(s[j])
    ensures i + DigitRun(s, i) == |s| || !IsDigit(s[i + DigitRun(s, i)])
    decreases |s| - i
  {
    if i < |s| && IsDigit(s[i]) {
      DigitRunSpan(s, i + 1);
    }
  }

  /** `[.,]\d{2}` at position `i`. */
  predicate TailAt(s: string, i: nat)
  {
    i + 3 <= |s| && IsSep(s[i]) && IsDigit(s[i + 1]) && IsDigit(s[i + 2])
  }

  /** `[.,]\d{3}` at position `i`. */
  predicate GroupAt(s: string, i: nat)
  {
    i + 4 <= |s| && IsSep(s[i]) && IsDigit(s[i + 1]) && IsDigit(s[i + 2]) && IsDigit(s[i + 3])
  }

  /** How many `[.,]\d{3}` groups the greedy `*` takes from position `i`. */
  function Groups(s: string, i: nat): (m: nat)
    requires i <= |s|
    ensures i + 4 * m <= |s|
    decreases |s| - i
  {
    if GroupAt(s, i) then 1 + Groups(s, i + 4) else 0
  }

  /**
   * Where the `NUM_ANY` match that starts at `p` ends, with the backtracking of the regex
   * engine worked out: the first alternative needs a digit run of at most three and takes as
   * many thousands groups as still leave a two-digit tail; the second alternative takes the
   * whole digit run and needs the tail right after it.
   */
  function NumAnyEnd(s: string, p: nat): (e: Option<nat>)
    requires p <= |s|
    ensures e.Some? ==> p < e.value <= |s|
  {
    var q := if p < |s| && s[p] == '-' then p + 1 else p;
    var n := DigitRun(s, q);
    if n == 0 then None
    else if n <= 3 then
      var r := q + n;
      var m := Groups(s, r);
      if TailAt(s, r + 4 * m) then Some(r + 4 * m + 3)
      else if m > 0 then Some(r + 4 * (m - 1) + 3)
      else None
    else if TailAt(s, q + n) then Some(q + n + 3)
    else None
  }

  /** `NUM_ANY.search(s, p)`: the leftmost match at or after `p`, as start and end. */
  function NumAnySearch(s: string, p: nat): (m: Option<(nat, nat)>)
    requires p <= |s|
    ensures m.Some? ==> p <= m.value.0 < m.value.1 <= |s| && NumAnyEnd(s, m.value.0) == Some(m.value.1)
    decreases |s| - p
  {
    match NumAnyEnd(s, p)
    case Some(e) => Some((p, e))
    case None => if p == |s| then None else NumAnySearch(s, p + 1)
  }

  /** The search finds the leftmost match, and finds none exactly when no position starts one. */
  lemma {:induction false} NumAnySearchLeftmost(s: string, p: nat)
    requires p <= |s|
    ensures NumAnySearch(s, p).Some? ==> forall q | p <= q < NumAnySearch(s, p).value.0 :: NumAnyEnd(s, q).None?
    ensures NumAnySearch(s, p).None? <==> forall q | p <= q <= |s| :: NumAnyEnd(s, q).None?
    decreases |s| - p
  {
    if NumAnyEnd(s, p).None? && p < |s| {
      NumAnySearchLeftmost(s, p + 1);
    }
  }

  /** `[m.group(0) for m in NUM_ANY.finditer(s[p:])]`: each search resumes where the last match ended. */
  function NumAnyAll(s: string, p: nat): (ms: seq<string>)
    requires p <= |s|
    ensures (NumAnySearch(s, p).None?) <==> ms == []
    decreases |s| - p
  {
    match NumAnySearch(s, p)
    case None => []
    case Some((b, e)) => [s[b..e]] + NumAnyAll(s, e)
  }

  /** `_match_numeric_fragment`: the whole line if `NUM_PURE` matches it, else the first `NUM_ANY` match. */
  function MatchNumericFragment(line: string): (r: Option<string>)
    ensures IsNumPure(line) ==> r == Some(line)
    ensures !IsNumPure(line) ==> (r.Some? <==> NumAnySearch(line, 0).Some?)
    ensures r.Some? ==> r.value != [] && Contains(line, r.value)
  {
    if IsNumPure(line) then
      assert line <= line;
      Some(line)
    else match NumAnySearch(line, 0)
      case None => None
      case Some((b, e)) =>
        FragmentInside(line, b, e);
        Some(line[b..e])
  }

  lemma {:induction false} FragmentInside(s: string, b: nat, e: nat)
    requires b <= e <= |s|
    ensures Contains(s, s[b..e])
    decreases b
  {
    if b == 0 {
      assert s[..e] == s[b..e];
    } else {
      FragmentInside(s[1..], b - 1, e - 1);
      assert s[1..][b - 1..e - 1] == s[b..e];
    }
  }

  lemma FragmentPureBeforeAny()
    ensures MatchNumericFragment("1.234,56") == Some("1.234,56")
    ensures MatchNumericFragment("1234,56") == Some("1234,56")
  {
    var a := "1.234,56";
    assert a[..|a| - 3] == "1.234";
    var g := "1.234";
    assert g[..|g| - 4] == "1" && g[|g| - 3..] == "234";
    assert Grouped(g);
    assert IsAmountCore(a);
    assert IsSpace(a[0]) == false;
    assert LStrip(a) == a;
    assert RStrip(a) == a;
    var b := "1234,56";
    assert DigitRun(b, 0) == 4 by {
      assert DigitRun(b, 4) == 0;
      assert DigitRun(b, 3) == 1;
      assert DigitRun(b, 2) == 2;
      assert DigitRun(b, 1) == 3;
    }
    assert TailAt(b, 4);
    assert NumAnyEnd(b, 0) == Some(7);
    assert NumAnySearch(b, 0) == Some((0, 7));
    assert b[0..7] == b;
  }

  // ---------------------------------------------------------------------------------------
  // first_amount_forward
  // ---------------------------------------------------------------------------------------

  /** The amount one line contributes to the forward scan: blank lines give none. */
  function LineAmount(line: string): (r: Option<real>)
    ensures Strip(line) == [] ==> r.None?
  {
    var l := Strip(line);
    if l == [] then None
    else match MatchNumericFragment(l)
      case None => None
      case Some(f) => if f != [] then SmartNumber(Some(f)) else None
  }

  /** The end (exclusive) of the window of `first_amount_forward`. */
  function WindowEnd(lines: seq<string>, start: nat, maxAhead: nat): (ub: nat)
    ensures ub <= |lines| && ub <= start + maxAhead + 1
    ensures ub == |lines| || ub == start + maxAhead + 1
  {
    if |lines| < start + maxAhead + 1 then |lines| else start + maxAhead + 1
  }

  /** What `first_amount_forward(lines, start, max_ahead)` returns. */
  function AmountAhead(lines: seq<string>, start: nat, maxAhead: nat): Option<real>
  {
    FirstSome(lines, LineAmount, start, WindowEnd(lines, start, maxAhead))
  }

  /** `first_amount_forward`: scan `lines[start .. start + max_ahead]`, clipped, for the first amount. */
  method FirstAmountForward(lines: seq<string>, start: nat, maxAhead: nat) returns (r: Option<real>)
    ensures r == AmountAhead(lines, start, maxAhead)
  {
    var upperBound := if |lines| < start + maxAhead + 1 then |lines| else start + maxAhead + 1;
    var idx := start;
    while idx < upperBound
      invariant FirstSome(lines, LineAmount, idx, upperBound) == AmountAhead(lines, start, maxAhead)
      decreases upperBound - idx
    {
      FirstSomeStep(lines, LineAmount, idx, upperBound);
      var line := Strip(lines[idx]);
      if line != [] {
        var fragment := MatchNumericFragment(line);
        if fragment.Some? && fragment.value != [] {
          var value := ParseNumberSmart(fragment);
          if value.Some? {
            return value;
          }
        }
      }
      idx := idx + 1;
    }
    return None;
  }

  /**
   * The scan returns the first amount found in the window, and `None` exactly when no line
   * of the window has one.
   */
  lemma AmountAheadWindow(lines: seq<string>, start: nat, maxAhead: nat)
    ensures var ub := WindowEnd(lines, start, maxAhead);
      && (AmountAhead(lines, start, maxAhead).None? <==> forall j | start <= j < ub :: LineAmount(lines[j]).None?)
      && (AmountAhead(lines, start, maxAhead).Some? ==>
            exists j | start <= j < ub :: AmountAhead(lines, start, maxAhead) == LineAmount(lines[j])
                                        && forall k | start <= k < j :: LineAmount(lines[k]).None?)
  {
    FirstSomeFirst(lines, LineAmount, start, WindowEnd(lines, start, maxAhead));
  }

  /** Only the window matters: line lists that agree on it give the same scan. */
  lemma AmountAheadLocal(a: seq<string>, b: seq<string>, start: nat, maxAhead: nat)
    requires WindowEnd(a, start, maxAhead) == WindowEnd(b, start, maxAhead)
    requires var e := WindowEnd(a, start, maxAhead); start <= e ==> a[start..e] == b[start..e]
    ensures AmountAhead(a, start, maxAhead) == AmountAhead(b, start, maxAhead)
  {
    var e := WindowEnd(a, start, maxAhead);
    if start <= e {
      FirstSomeLocal(a, b, LineAmount, start, e);
    }
  }

  // ---------------------------------------------------------------------------------------
  // The perception keywords
  // ---------------------------------------------------------------------------------------

  /**
   * `any(k in up for k in ("PERC", "PERCEP", "IIBB", "INGRESOS BRUTOS", "ARBA", "AGIP"))`, the
   * test both totals strategies use to recognise a perception line.
   */
  predicate HasPercKeyword(up: string)
  {
    || Contains(up, "PERC") || Contains(up, "PERCEP") || Contains(up, "IIBB")
    || Contains(up, "INGRESOS BRUTOS") || Contains(up, "ARBA") || Contains(up, "AGIP")
  }
}
