/**
 * The header and party locators of `app/services/metadata_extractor.py`: they scan the
 * document's lines with positional tie-breaks (first date, last invoice number, first and
 * last CUIT, the 200-, 80- and 120-line header regions, a look-ahead of two lines for the
 * CAE due date) and detect the vendor from keywords or from the provider's CUIT.
 */
module MetadataExtractor {
  import opened Wrappers
  import opened Text
  import opened Scan
  import opened OrderedDict
  import opened Patterns

  // ---------------------------------------------------------------------------------------
  // _find_invoice_type
  // ---------------------------------------------------------------------------------------

  /** The letter class `[ABC]` under `re.I`. */
  predicate IsTypeLetter(c: char)
  {
    c == 'A' || c == 'B' || c == 'C' || c == 'a' || c == 'b' || c == 'c'
  }

  /**
   * `\bFactura\s*([ABC])\b` under `re.I`, tried at position `p`: the upper-cased letter.
   * The greedy `\s*` cannot give back a space to `[ABC]`, so a try has at most one outcome.
   */
  function FacturaAt(line: string, p: nat): (r: Option<char>)
    requires p <= |line|
    ensures r.Some? ==> r.value == 'A' || r.value == 'B' || r.value == 'C'
  {
    if p + 7 <= |line| && WordBoundary(line, p) && Upper(line[p..p + 7]) == "FACTURA" then
      var q := p + 7 + LeadingSpace(line[p + 7..]);
      if q < |line| && IsTypeLetter(line[q]) && WordBoundary(line, q + 1)
      then Some(UpperChar(line[q]))
      else None
    else None
  }

  /** `re.search` of the `Factura X` pattern: the leftmost position where it matches. */
  function FacturaSearch(line: string, p: nat): (r: Option<char>)
    requires p <= |line|
    ensures r.Some? ==> r.value == 'A' || r.value == 'B' || r.value == 'C'
    decreases |line| - p
  {
    match FacturaAt(line, p)
    case Some(c) => Some(c)
    case None => if p == |line| then None else FacturaSearch(line, p + 1)
  }

  /** What one line of the first 200 says about the invoice type. */
  function LineType(line: string): (r: Option<string>)
    ensures r.Some? ==> r.value in {"A", "B", "C"}
  {
    match FacturaSearch(line, 0)
    case Some(c) => Some([c])
    case None =>
      var stripped := Strip(line);
      if |stripped| == 1 && IsTypeLetter(stripped[0]) then
        assert Upper(stripped) == [UpperChar(stripped[0])];
        Some(Upper(stripped))
      else None
  }

  /** The end of the header region searched for the invoice type. */
  const TYPE_REGION: nat := 200

  /** What `_find_invoice_type` returns. */
  function InvoiceType(lines: seq<string>): Option<string>
  {
    FirstSome(lines, LineType, 0, Min(TYPE_REGION, |lines|))
  }

  /** `_find_invoice_type`: the first of the first 200 lines that names the type. */
  method FindInvoiceType(lines: seq<string>) returns (r: Option<string>)
    ensures r == InvoiceType(lines)
  {
    var head := lines[..Min(TYPE_REGION, |lines|)];
    for i := 0 to |head|
      invariant FirstSome(lines, LineType, i, |head|) == InvoiceType(lines)
    {
      FirstSomeStep(lines, LineType, i, |head|);
      var line := head[i];
      var letter := FacturaSearch(line, 0);
      if letter.Some? {
        return Some([letter.value]);
      }
      var stripped := Strip(line);
      if |stripped| == 1 && IsTypeLetter(stripped[0]) {
        return Some(Upper(stripped));
      }
    }
    return None;
  }

  /** The type is one of A, B and C, and it comes from the first line of the region that names one. */
  lemma InvoiceTypeFirstLine(lines: seq<string>)
    ensures InvoiceType(lines).Some? ==> InvoiceType(lines).value in {"A", "B", "C"}
    ensures InvoiceType(lines).None? <==> forall j | 0 <= j < Min(TYPE_REGION, |lines|) :: LineType(lines[j]).None?
    ensures InvoiceType(lines).Some? ==>
      exists j | 0 <= j < Min(TYPE_REGION, |lines|) :: InvoiceType(lines) == LineType(lines[j])
                                                      && forall k | 0 <= k < j :: LineType(lines[k]).None?
  {
    FirstSomeFirst(lines, LineType, 0, Min(TYPE_REGION, |lines|));
  }

  /** Nothing past index 199 is looked at. */
  lemma InvoiceTypeRegion(lines: seq<string>, rest: seq<string>)
    requires |lines| >= TYPE_REGION
    ensures InvoiceType(lines + rest) == InvoiceType(lines)
  {
    var a := lines + rest;
    assert a[0..TYPE_REGION] == lines[0..TYPE_REGION];
    FirstSomeLocal(a, lines, LineType, 0, TYPE_REGION);
  }

  /** On one line, `Factura X` is tried before the bare letter. */
  lemma LineTypeFacturaFirst(line: string)
    requires FacturaSearch(line, 0).Some?
    ensures LineType(line) == Some([FacturaSearch(line, 0).value])
  {
  }

  lemma LineTypeBareLetter(line: string)
    requires FacturaSearch(line, 0).None? && |Strip(line)| == 1 && IsTypeLetter(Strip(line)[0])
    ensures LineType(line) == Some([UpperChar(Strip(line)[0])])
  {
  }

  // ---------------------------------------------------------------------------------------
  // _find_invoice_number
  // ---------------------------------------------------------------------------------------

  /** `\b\d{4}-\d{8}\b` at position `p`. */
  predicate NumFactAt(line: string, p: nat)
  {
    && p + 13 <= |line|
    && WordBoundary(line, p)
    && AllDigits(line[p..p + 4]) && line[p + 4] == '-' && AllDigits(line[p + 5..p + 13])
    && WordBoundary(line, p + 13)
  }

  /** `RE_NUM_FACT.search(line[p:])`, with `\b` still seeing what precedes `p`. */
  function NumFactSearch(line: string, p: nat): (r: Option<string>)
    requires p <= |line|
    ensures r.Some? ==> |r.value| == 13 && r.value[4] == '-'
    decreases |line| - p
  {
    if NumFactAt(line, p) then Some(line[p..p + 13])
    else if p == |line| then None
    else NumFactSearch(line, p + 1)
  }

  function LineNumber(line: string): Option<string>
  {
    NumFactSearch(line, 0)
  }

  /** What `_find_invoice_number` returns. */
  function InvoiceNumber(lines: seq<string>): Option<string>
  {
    LastSome(lines, LineNumber, |lines|)
  }

  /** `_find_invoice_number`: every matching line overwrites the number found so far. */
  method FindInvoiceNumber(lines: seq<string>) returns (number: Option<string>)
    ensures number == InvoiceNumber(lines)
  {
    number := None;
    for i := 0 to |lines|
      invariant number == LastSome(lines, LineNumber, i)
    {
      var m := NumFactSearch(lines[i], 0);
      if m.Some? {
        number := m;
      }
    }
  }

  /** The number comes from the last line of the document that has one. */
  lemma InvoiceNumberLast(lines: seq<string>, j: nat)
    requires j < |lines| && LineNumber(lines[j]).Some?
    requires forall k | j < k < |lines| :: LineNumber(lines[k]).None?
    ensures InvoiceNumber(lines) == LineNumber(lines[j])
  {
    LastSomeAt(lines, LineNumber, |lines|, j);
  }

  lemma InvoiceNumberNone(lines: seq<string>)
    ensures InvoiceNumber(lines).None? <==> forall j | 0 <= j < |lines| :: LineNumber(lines[j]).None?
  {
    LastSomeLast(lines, LineNumber, |lines|);
  }

  // ---------------------------------------------------------------------------------------
  // _find_first_date and _date_from_neighbors
  // ---------------------------------------------------------------------------------------

  /** What `_find_first_date` returns. */
  function FirstDate(re: Regexes, lines: seq<string>): Option<string>
  {
    FirstSome(lines, re.fecha, 0, |lines|)
  }

  /** `_find_first_date`. */
  method FindFirstDate(re: Regexes, lines: seq<string>) returns (r: Option<string>)
    ensures r == FirstDate(re, lines)
  {
    for i := 0 to |lines|
      invariant FirstSome(lines, re.fecha, i, |lines|) == FirstDate(re, lines)
    {
      FirstSomeStep(lines, re.fecha, i, |lines|);
      var m := re.fecha(lines[i]);
      if m.Some? {
        return m;
      }
    }
    return None;
  }

  lemma FirstDateFirst(re: Regexes, lines: seq<string>)
    ensures FirstDate(re, lines).None? <==> forall j | 0 <= j < |lines| :: re.fecha(lines[j]).None?
    ensures FirstDate(re, lines).Some? ==>
      exists j | 0 <= j < |lines| :: FirstDate(re, lines) == re.fecha(lines[j])
                                   && forall k | 0 <= k < j :: re.fecha(lines[k]).None?
  {
    FirstSomeFirst(lines, re.fecha, 0, |lines|);
  }

  /** The end (exclusive) of the look-ahead of `_date_from_neighbors`. */
  function NeighborEnd(lines: seq<string>, idx: nat): (e: nat)
    ensures e <= |lines| && e <= idx + 3
  {
    Min(idx + 3, |lines|)
  }

  /** What `_date_from_neighbors(lines, idx)` returns: the first date on line idx, idx+1 or idx+2. */
  function NeighborDate(re: Regexes, lines: seq<string>, idx: nat): Option<string>
  {
    FirstSome(lines, re.fecha, idx, NeighborEnd(lines, idx))
  }

  /** `_date_from_neighbors`. */
  method DateFromNeighbors(re: Regexes, lines: seq<string>, idx: nat) returns (r: Option<string>)
    requires idx < |lines|
    ensures r == NeighborDate(re, lines, idx)
  {
    var upper := NeighborEnd(lines, idx);
    FirstSomeStep(lines, re.fecha, idx, upper);
    var m := re.fecha(lines[idx]);
    if m.Some? {
      return m;
    }
    for neighbor := idx + 1 to upper
      invariant FirstSome(lines, re.fecha, neighbor, upper) == NeighborDate(re, lines, idx)
    {
      FirstSomeStep(lines, re.fecha, neighbor, upper);
      m := re.fecha(lines[neighbor]);
      if m.Some? {
        return m;
      }
    }
    return None;
  }

  /** Only lines idx, idx+1 and idx+2 are consulted. */
  lemma NeighborDateLocal(re: Regexes, a: seq<string>, b: seq<string>, idx: nat)
    requires idx + 3 <= |a| && idx + 3 <= |b| && a[idx..idx + 3] == b[idx..idx + 3]
    ensures NeighborDate(re, a, idx) == NeighborDate(re, b, idx)
  {
    FirstSomeLocal(a, b, re.fecha, idx, idx + 3);
  }

  // ---------------------------------------------------------------------------------------
  // _extract_cae_data
  // ---------------------------------------------------------------------------------------

  /** `\b\d{14}\b` under `re.ASCII`, at position `p`. */
  predicate CaeAt(s: string, p: nat)
  {
    && p + 14 <= |s|
    && AllDigits(s[p..p + 14])
    && (p == 0 || !IsAsciiWordChar(s[p - 1]))
    && (p + 14 == |s| || !IsAsciiWordChar(s[p + 14]))
  }

  /** `RE_CAE.search`, from position `p` on. */
  function CaeSearch(s: string, p: nat): (r: Option<string>)
    requires p <= |s|
    ensures r.Some? ==> |r.value| == 14 && AllDigits(r.value)
    decreases |s| - p
  {
    if CaeAt(s, p) then Some(s[p..p + 14])
    else if p == |s| then None
    else CaeSearch(s, p + 1)
  }

  /** A line of the CAE block: its upper-case form contains "CAE". */
  predicate IsCaeLine(line: string)
  {
    Contains(Upper(line), "CAE")
  }

  /** A CAE line that also names the due date. */
  predicate IsCaeDueLine(line: string)
  {
    IsCaeLine(line) && (Contains(Upper(line), "VTO") || Contains(Upper(line), "VENC"))
  }

  /** The CAE token a line contributes: searched in the line, then in the line without "CAE". */
  function CaeToken(line: string): (r: Option<string>)
    ensures r.Some? ==> IsCaeLine(line)
  {
    if !IsCaeLine(line) then None
    else match CaeSearch(line, 0)
      case Some(t) => Some(t)
      case None => CaeSearch(Replace(line, "CAE", ""), 0)
  }

  function CaeDue(re: Regexes, lines: seq<string>, n: nat): Option<string>
    requires n <= |lines|
  {
    match LastIndex(lines, IsCaeDueLine, n)
    case None => None
    case Some(j) => NeighborDate(re, lines, j)
  }

  /**
   * What `_extract_cae_data` returns: the token of the last CAE line that has one, and the
   * neighbour date of the last CAE line naming the due date (even where that date is `None`).
   */
  function CaeData(re: Regexes, lines: seq<string>): (Option<string>, Option<string>)
  {
    (LastSome(lines, CaeToken, |lines|), CaeDue(re, lines, |lines|))
  }

  /** `_extract_cae_data`. */
  method ExtractCaeData(re: Regexes, lines: seq<string>) returns (cae: Option<string>, caeVto: Option<string>)
    ensures (cae, caeVto) == CaeData(re, lines)
  {
    cae, caeVto := None, None;
    for idx := 0 to |lines|
      invariant cae == LastSome(lines, CaeToken, idx)
      invariant caeVto == CaeDue(re, lines, idx)
    {
      var line := lines[idx];
      var upperLine := Upper(line);
      if !Contains(upperLine, "CAE") {
        continue;
      }
      var m := CaeSearch(line, 0);
      if m.None? {
        m := CaeSearch(Replace(line, "CAE", ""), 0);
      }
      if m.Some? {
        cae := m;
      }
      if Contains(upperLine, "VTO") || Contains(upperLine, "VENC") {
        caeVto := DateFromNeighbors(re, lines, idx);
      }
    }
  }

  /** The CAE is the token of the last CAE line that has one; it is `None` when no CAE line has one. */
  lemma CaeFromLastLine(re: Regexes, lines: seq<string>)
    ensures CaeData(re, lines).0.None? <==> forall j | 0 <= j < |lines| :: CaeToken(lines[j]).None?
    ensures CaeData(re, lines).0.Some? ==>
      exists j | 0 <= j < |lines| :: IsCaeLine(lines[j]) && CaeData(re, lines).0 == CaeToken(lines[j])
                                   && forall k | j < k < |lines| :: CaeToken(lines[k]).None?
  {
    LastSomeLast(lines, CaeToken, |lines|);
  }

  /** The due date is recomputed at the last due-date line, and may come out `None` there. */
  lemma CaeDueFromLastLine(re: Regexes, lines: seq<string>, j: nat)
    requires j < |lines| && IsCaeDueLine(lines[j])
    requires forall k | j < k < |lines| :: !IsCaeDueLine(lines[k])
    ensures CaeData(re, lines).1 == NeighborDate(re, lines, j)
  {
  }

  lemma CaeDueNone(re: Regexes, lines: seq<string>)
    requires forall k | 0 <= k < |lines| :: !IsCaeDueLine(lines[k])
    ensures CaeData(re, lines).1 == None
  {
  }

  // ---------------------------------------------------------------------------------------
  // extract_header_common
  // ---------------------------------------------------------------------------------------

  datatype Header = Header(tipo: Option<string>, numero: Option<string>, fecha: Option<string>,
                           cae: Option<string>, caeVto: Option<string>)

  /** The header dictionary `extract_header_common` builds. */
  function HeaderOf(re: Regexes, lines: seq<string>): Header
  {
    var cd := CaeData(re, lines);
    Header(InvoiceType(lines), InvoiceNumber(lines), FirstDate(re, lines), cd.0, cd.1)
  }

  /** `extract_header_common`. */
  method ExtractHeaderCommon(re: Regexes, lines: seq<string>) returns (header: Header)
    ensures header == HeaderOf(re, lines)
  {
    var tipo := FindInvoiceType(lines);
    var numero := FindInvoiceNumber(lines);
    var fecha := FindFirstDate(re, lines);
    var cae, caeVto := ExtractCaeData(re, lines);
    header := Header(tipo, numero, fecha, cae, caeVto);
  }

  // ---------------------------------------------------------------------------------------
  // _collect_cuit_positions
  // ---------------------------------------------------------------------------------------

  /** The CUIT matches of one line, each paired with the line's index. */
  function Tagged(idx: nat, cs: seq<string>): (r: seq<(nat, string)>)
    ensures |r| == |cs|
    ensures forall k | 0 <= k < |cs| :: r[k] == (idx, cs[k])
  {
    seq(|cs|, k requires 0 <= k < |cs| => (idx, cs[k]))
  }

  /** Every CUIT match of the first `n` lines with its line index, in document order. */
  function CuitPositionsUpTo(re: Regexes, lines: seq<string>, n: nat): seq<(nat, string)>
    requires n <= |lines|
  {
    if n == 0 then [] else CuitPositionsUpTo(re, lines, n - 1) + Tagged(n - 1, re.cuits(lines[n - 1]))
  }

  /** What `_collect_cuit_positions` returns. */
  function CuitPositions(re: Regexes, lines: seq<string>): seq<(nat, string)>
  {
    CuitPositionsUpTo(re, lines, |lines|)
  }

  /** Positions in order of their line index. */
  predicate ByLine(ps: seq<(nat, string)>)
  {
    forall a, b | 0 <= a < b < |ps| :: ps[a].0 <= ps[b].0
  }

  /**
   * `_collect_cuit_positions`. The loop appends the matches line by line, so the list is
   * already in line order (`CuitPositionsByLine`) and the stable sort by line index that
   * ends the function leaves it as it is.
   */
  method CollectCuitPositions(re: Regexes, lines: seq<string>) returns (positions: seq<(nat, string)>)
    ensures positions == CuitPositions(re, lines)
  {
    positions := [];
    for idx := 0 to |lines|
      invariant positions == CuitPositionsUpTo(re, lines, idx)
    {
      var matches := re.cuits(lines[idx]);
      for k := 0 to |matches|
        invariant positions == CuitPositionsUpTo(re, lines, idx) + Tagged(idx, matches[..k])
      {
        assert Tagged(idx, matches[..k + 1]) == Tagged(idx, matches[..k]) + [(idx, matches[k])];
        positions := positions + [(idx, matches[k])];
      }
      assert matches[..|matches|] == matches;
    }
  }

  lemma {:induction false} CuitPositionsBound(re: Regexes, lines: seq<string>, n: nat)
    requires n <= |lines|
    ensures forall a | 0 <= a < |CuitPositionsUpTo(re, lines, n)| :: CuitPositionsUpTo(re, lines, n)[a].0 < n
  {
    if n > 0 {
      CuitPositionsBound(re, lines, n - 1);
    }
  }

  /** The collected positions are in document order, so sorting them by line changes nothing. */
  lemma {:induction false} CuitPositionsByLine(re: Regexes, lines: seq<string>, n: nat)
    requires n <= |lines|
    ensures ByLine(CuitPositionsUpTo(re, lines, n))
  {
    if n > 0 {
      CuitPositionsByLine(re, lines, n - 1);
      CuitPositionsBound(re, lines, n - 1);
    }
  }

  /** A pair is collected exactly when its CUIT is one of the matches of its line. */
  lemma {:induction false} CuitPositionsMember(re: Regexes, lines: seq<string>, n: nat, x: (nat, string))
    requires n <= |lines|
    ensures x in CuitPositionsUpTo(re, lines, n) <==> x.0 < n && x.1 in re.cuits(lines[x.0])
  {
    if n > 0 {
      CuitPositionsMember(re, lines, n - 1, x);
      var t := Tagged(n - 1, re.cuits(lines[n - 1]));
      assert x in t <==> x.0 == n - 1 && x.1 in re.cuits(lines[n - 1]) by {
        if x in t {
          var k :| 0 <= k < |t| && t[k] == x;
        }
        if x.0 == n - 1 && x.1 in re.cuits(lines[n - 1]) {
          var k :| 0 <= k < |re.cuits(lines[n - 1])| && re.cuits(lines[n - 1])[k] == x.1;
          assert t[k] == x;
        }
      }
    }
  }

  // ---------------------------------------------------------------------------------------
  // _guess_client_name
  // ---------------------------------------------------------------------------------------

  /**
   * The alternatives of the client keyword pattern, upper-cased; `NEUM[A?]TIC` allows a
   * literal `?` where the accented letter was lost.
   */
  const CLIENT_KEYWORDS: seq<string> := ["ALVAREZ", "NEUMATIC", "NEUM?TIC", "S.A.", "SRL", "RESPONSABLE", "CLIENTE"]

  /** `re.search(keywords, candidate, re.I)`. */
  predicate HasClientKeyword(candidate: string)
  {
    exists k | 0 <= k < |CLIENT_KEYWORDS| :: Contains(Upper(candidate), CLIENT_KEYWORDS[k])
  }

  /** A line of the window that qualifies as the client's name, stripped. */
  function ClientCandidate(line: string): (r: Option<string>)
    ensures r.Some? ==> r.value == Strip(line) && r.value != []
  {
    var candidate := Strip(line);
    if candidate == [] then None
    else if HasClientKeyword(candidate) || IsUpperStr(candidate) then Some(candidate)
    else None
  }

  /** "Nº 5" does not qualify: `º` is a lower-case character, so the line is not upper case. */
  lemma ClientCandidateOrdinal()
    ensures !IsUpperStr("N\U{BA} 5")
    ensures ClientCandidate("N\U{BA} 5").None?
    ensures ClientCandidate("N 5") == Some("N 5")
  {
    var s := "N\U{BA} 5";
    assert IsLower(s[1]);
    assert Strip(s) == s;
    var u := Upper(s);
    assert u == s;
    forall k | 0 <= k < |CLIENT_KEYWORDS|
      ensures !Contains(u, CLIENT_KEYWORDS[k])
    {
      ShortNotContains(u, CLIENT_KEYWORDS[k]);
    }
    var t := "N 5";
    assert Strip(t) == t;
    assert IsUpper(t[0]);
  }

  /** A text shorter than `sub`, or without its first character, does not contain it. */
  lemma ShortNotContains(s: string, sub: string)
    requires sub != [] && (|s| < |sub| || sub[0] !in s)
    ensures !Contains(s, sub)
    decreases |s|
  {
    if s != [] {
      assert sub[0] !in s ==> sub[0] !in s[1..];
      ShortNotContains(s[1..], sub);
    }
  }

  /** The first line of the client window. */
  function ClientWindowStart(idx: nat): nat
  {
    if idx < 5 then 0 else idx - 5
  }

  /** What `_guess_client_name(lines, idx)` returns. */
  function ClientName(lines: seq<string>, idx: nat): Option<string>
    requires idx < |lines|
  {
    FirstSome(lines, ClientCandidate, ClientWindowStart(idx), idx + 1)
  }

  /** `_guess_client_name`: the topmost qualifying line among the five above `idx` and `idx` itself. */
  method GuessClientName(lines: seq<string>, idx: nat) returns (r: Option<string>)
    requires idx < |lines|
    ensures r == ClientName(lines, idx)
  {
    var lower := if idx < 5 then 0 else idx - 5;
    for lineIdx := lower to idx + 1
      invariant FirstSome(lines, ClientCandidate, lineIdx, idx + 1) == ClientName(lines, idx)
    {
      FirstSomeStep(lines, ClientCandidate, lineIdx, idx + 1);
      var candidate := Strip(lines[lineIdx]);
      if candidate == [] {
        continue;
      }
      if HasClientKeyword(candidate) || IsUpperStr(candidate) {
        return Some(candidate);
      }
    }
    return None;
  }

  /** The name is the topmost qualifying line of the window, and `None` when none qualifies. */
  lemma ClientNameTopmost(lines: seq<string>, idx: nat)
    requires idx < |lines|
    ensures ClientName(lines, idx).None? <==>
      forall j | ClientWindowStart(idx) <= j <= idx :: ClientCandidate(lines[j]).None?
    ensures ClientName(lines, idx).Some? ==>
      exists j | ClientWindowStart(idx) <= j <= idx ::
        ClientCandidate(lines[j]).Some? && ClientName(lines, idx) == ClientCandidate(lines[j])
        && ClientName(lines, idx) == Some(Strip(lines[j]))
        && forall k | ClientWindowStart(idx) <= k < j :: ClientCandidate(lines[k]).None?
  {
    FirstSomeFirst(lines, ClientCandidate, ClientWindowStart(idx), idx + 1);
  }

  // ---------------------------------------------------------------------------------------
  // _guess_vendor_name
  // ---------------------------------------------------------------------------------------

  /** The end of the region searched for the vendor's legal name. */
  const VENDOR_REGION: nat := 80

  /** The stripped line, when the vendor's name pattern finds a match in it. */
  function VendorLine(re: Regexes, vid: string, line: string): Option<string>
  {
    var stripped := Strip(line);
    if re.vendorName(vid, stripped) then Some(stripped) else None
  }

  function VendorMatcher(re: Regexes, vid: string): string -> Option<string>
  {
    (line: string) => VendorLine(re, vid, line)
  }

  /** Python's truthiness of an optional string. */
  predicate Truthy(s: Option<string>)
  {
    s.Some? && s.value != []
  }

  /** What `_guess_vendor_name(lines, vendor)` returns. */
  function VendorName(re: Regexes, lines: seq<string>, vendor: Option<string>): Option<string>
  {
    if !Truthy(vendor) || Upper(vendor.value) !in VENDOR_IDS then None
    else FirstSome(lines, VendorMatcher(re, Upper(vendor.value)), 0, Min(VENDOR_REGION, |lines|))
  }

  /** `_guess_vendor_name`. */
  method GuessVendorName(re: Regexes, lines: seq<string>, vendor: Option<string>) returns (r: Option<string>)
    ensures r == VendorName(re, lines, vendor)
  {
    if vendor.None? || vendor.value == [] {
      return None;
    }
    var vid := Upper(vendor.value);
    if vid !in VENDOR_IDS {
      return None;
    }
    var head := lines[..Min(VENDOR_REGION, |lines|)];
    var f := VendorMatcher(re, vid);
    for i := 0 to |head|
      invariant FirstSome(lines, f, i, |head|) == VendorName(re, lines, vendor)
    {
      FirstSomeStep(lines, f, i, |head|);
      var line := Strip(head[i]);
      if re.vendorName(vid, line) {
        return Some(line);
      }
    }
    return None;
  }

  /** A missing, empty or unlisted vendor has no name, and only the first 80 lines are searched. */
  lemma VendorNameRegion(re: Regexes, lines: seq<string>, vendor: Option<string>, rest: seq<string>)
    requires |lines| >= VENDOR_REGION
    ensures !Truthy(vendor) ==> VendorName(re, lines, vendor).None?
    ensures Truthy(vendor) && Upper(vendor.value) !in VENDOR_IDS ==> VendorName(re, lines, vendor).None?
    ensures VendorName(re, lines + rest, vendor) == VendorName(re, lines, vendor)
  {
    if Truthy(vendor) && Upper(vendor.value) in VENDOR_IDS {
      var a := lines + rest;
      assert a[0..VENDOR_REGION] == lines[0..VENDOR_REGION];
      FirstSomeLocal(a, lines, VendorMatcher(re, Upper(vendor.value)), 0, VENDOR_REGION);
    }
  }

  // ---------------------------------------------------------------------------------------
  // extract_names_and_cuits
  // ---------------------------------------------------------------------------------------

  datatype Parties = Parties(proveedor: Option<string>, cuitProveedor: Option<string>,
                             cliente: Option<string>, cuitCliente: Option<string>)

  /** `[c for c in positions if c[1] != cuit]`. */
  function Others(ps: seq<(nat, string)>, cuit: string): (r: seq<(nat, string)>)
    ensures forall a | 0 <= a < |r| :: r[a].1 != cuit
  {
    if ps == [] then []
    else Others(ps[..|ps| - 1], cuit) + (if ps[|ps| - 1].1 != cuit then [ps[|ps| - 1]] else [])
  }

  /**
   * The last element of `Others` is the last position whose CUIT differs, and there is one
   * exactly when some position's CUIT differs.
   */
  lemma {:induction false} OthersLast(ps: seq<(nat, string)>, cuit: string)
    ensures Others(ps, cuit) == [] <==> forall a | 0 <= a < |ps| :: ps[a].1 == cuit
    ensures Others(ps, cuit) != [] ==>
      exists a | 0 <= a < |ps| :: Others(ps, cuit)[|Others(ps, cuit)| - 1] == ps[a]
                                && forall b | a < b < |ps| :: ps[b].1 == cuit
  {
    if ps != [] {
      var init := ps[..|ps| - 1];
      OthersLast(init, cuit);
      assert forall a | 0 <= a < |init| :: init[a] == ps[a];
      if ps[|ps| - 1].1 == cuit && Others(init, cuit) != [] {
        var a :| 0 <= a < |init| && Others(init, cuit)[|Others(init, cuit)| - 1] == init[a]
                 && forall b | a < b < |init| :: init[b].1 == cuit;
        assert forall b | a < b < |ps| :: ps[b].1 == cuit;
      }
    }
  }

  /** What `extract_names_and_cuits(lines, vendor)` returns. */
  function PartiesOf(re: Regexes, lines: seq<string>, vendor: Option<string>): Parties
  {
    var ps := CuitPositions(re, lines);
    var proveedor := VendorName(re, lines, vendor);
    if ps == [] then Parties(proveedor, None, None, None)
    else
      var rest := Others(ps, ps[0].1);
      if rest == [] then Parties(proveedor, Some(ps[0].1), None, None)
      else
        var last := rest[|rest| - 1];
        CuitPositionsBound(re, lines, |lines|);
        assert last in ps by { OthersSub(ps, ps[0].1, |rest| - 1); }
        Parties(proveedor, Some(ps[0].1), ClientName(lines, last.0), Some(last.1))
  }

  lemma {:induction false} OthersSub(ps: seq<(nat, string)>, cuit: string, a: nat)
    requires a < |Others(ps, cuit)|
    ensures Others(ps, cuit)[a] in ps
  {
    var init := ps[..|ps| - 1];
    if a < |Others(init, cuit)| {
      OthersSub(init, cuit, a);
      assert forall x | x in init :: x in ps;
    }
  }

  /** `extract_names_and_cuits`. */
  method ExtractNamesAndCuits(re: Regexes, lines: seq<string>, vendor: Option<string>) returns (parties: Parties)
    ensures parties == PartiesOf(re, lines, vendor)
  {
    var proveedor, cliente, cuitProv, cuitCli := None, None, None, None;
    var cuitPositions := CollectCuitPositions(re, lines);
    if cuitPositions != [] {
      cuitProv := Some(cuitPositions[0].1);
      var rest := Others(cuitPositions, cuitPositions[0].1);
      if rest != [] {
        CuitPositionsBound(re, lines, |lines|);
        OthersSub(cuitPositions, cuitPositions[0].1, |rest| - 1);
        var idx := rest[|rest| - 1].0;
        cuitCli := Some(rest[|rest| - 1].1);
        cliente := GuessClientName(lines, idx);
      }
    }
    proveedor := GuessVendorName(re, lines, vendor);
    parties := Parties(proveedor, cuitProv, cliente, cuitCli);
  }

  /**
   * The provider's CUIT is the first one of the document; the client's is the last one that
   * differs from it, and there is none (nor a client name) when every CUIT is the provider's.
   */
  lemma PartiesCuits(re: Regexes, lines: seq<string>, vendor: Option<string>)
    ensures var ps, r := CuitPositions(re, lines), PartiesOf(re, lines, vendor);
      && (ps == [] ==> r.cuitProveedor.None? && r.cuitCliente.None? && r.cliente.None?)
      && (ps != [] ==> r.cuitProveedor == Some(ps[0].1))
      && (ps != [] && (forall a | 0 <= a < |ps| :: ps[a].1 == ps[0].1) ==> r.cuitCliente.None? && r.cliente.None?)
      && (r.cuitCliente.Some? ==>
            r.cuitCliente != r.cuitProveedor
            && exists a | 0 <= a < |ps| :: r.cuitCliente == Some(ps[a].1)
                                         && forall b | a < b < |ps| :: ps[b].1 == ps[0].1)
  {
    var ps := CuitPositions(re, lines);
    if ps != [] {
      OthersLast(ps, ps[0].1);
    }
  }

  /** CUITs A, B, A, C on four lines give provider A and client C. */
  lemma OthersExample()
    ensures var ps: seq<(nat, string)> := [(0, "A"), (1, "B"), (2, "A"), (3, "C")];
      var rest := Others(ps, ps[0].1);
      rest == [(1, "B"), (3, "C")] && rest[|rest| - 1].1 == "C"
  {
    var p1: seq<(nat, string)> := [(0, "A")];
    var p2 := p1 + [(1, "B")];
    var p3 := p2 + [(2, "A")];
    var ps := p3 + [(3, "C")];
    assert p1[..0] == [] && p2[..1] == p1 && p3[..2] == p2 && ps[..3] == p3;
    assert Others(p1, "A") == [];
    assert Others(p2, "A") == [(1, "B")];
    assert Others(p3, "A") == [(1, "B")];
    assert ps == [(0, "A"), (1, "B"), (2, "A"), (3, "C")];
  }

  // ---------------------------------------------------------------------------------------
  // detect_vendor_basic and detect_vendor_by_cuit
  // ---------------------------------------------------------------------------------------

  /** The end of the region whose text is searched for vendor keywords. */
  const DETECT_REGION: nat := 120

  /** `" ".join(lines[:120]).upper()`. */
  function DetectHeader(lines: seq<string>): string
  {
    Upper(Join(" ", lines[..Min(DETECT_REGION, |lines|)]))
  }

  /** Some keyword, upper-cased, occurs in the header text. */
  predicate HasKeyword(header: string, keywords: seq<string>)
  {
    exists k | 0 <= k < |keywords| :: Contains(header, Upper(keywords[k]))
  }

  function KeywordVendor(header: string): ((string, seq<string>)) -> Option<string>
  {
    (e: (string, seq<string>)) => if HasKeyword(header, e.1) then Some(e.0) else None
  }

  /** What `detect_vendor_basic(lines, name_keywords)` returns. */
  function VendorByKeywords(lines: seq<string>, nameKeywords: Dict<string, seq<string>>): Option<string>
  {
    FirstSome(nameKeywords, KeywordVendor(DetectHeader(lines)), 0, |nameKeywords|)
  }

  /** `detect_vendor_basic`: the first vendor, in map order, with a keyword in the header text. */
  method DetectVendorBasic(lines: seq<string>, nameKeywords: Dict<string, seq<string>>) returns (r: Option<string>)
    ensures r == VendorByKeywords(lines, nameKeywords)
  {
    var header := Upper(Join(" ", lines[..Min(DETECT_REGION, |lines|)]));
    var f := KeywordVendor(header);
    for i := 0 to |nameKeywords|
      invariant FirstSome(nameKeywords, f, i, |nameKeywords|) == VendorByKeywords(lines, nameKeywords)
    {
      FirstSomeStep(nameKeywords, f, i, |nameKeywords|);
      var (vid, keywords) := nameKeywords[i];
      for k := 0 to |keywords|
        invariant forall m | 0 <= m < k :: !Contains(header, Upper(keywords[m]))
      {
        if Contains(header, Upper(keywords[k])) {
          return Some(vid);
        }
      }
    }
    return None;
  }

  /**
   * The detected vendor is the first entry whose keyword occurs in the header, and `None`
   * exactly when no entry's keyword does.
   */
  lemma VendorByKeywordsFirst(lines: seq<string>, nk: Dict<string, seq<string>>)
    ensures var h := DetectHeader(lines);
      && (VendorByKeywords(lines, nk).None? <==> forall i | 0 <= i < |nk| :: !HasKeyword(h, nk[i].1))
      && (VendorByKeywords(lines, nk).Some? ==>
            exists i | 0 <= i < |nk| :: VendorByKeywords(lines, nk) == Some(nk[i].0) && HasKeyword(h, nk[i].1)
                                       && forall j | 0 <= j < i :: !HasKeyword(h, nk[j].1))
  {
    var f := KeywordVendor(DetectHeader(lines));
    FirstSomeFirst(nk, f, 0, |nk|);
    assert forall i | 0 <= i < |nk| :: f(nk[i]).None? <==> !HasKeyword(DetectHeader(lines), nk[i].1);
  }

  /** Lines past the first 120 do not matter. */
  lemma VendorByKeywordsRegion(lines: seq<string>, rest: seq<string>, nk: Dict<string, seq<string>>)
    requires |lines| >= DETECT_REGION
    ensures VendorByKeywords(lines + rest, nk) == VendorByKeywords(lines, nk)
  {
    assert (lines + rest)[..DETECT_REGION] == lines[..DETECT_REGION];
  }

  /** `detect_vendor_by_cuit`: `None` for a missing or empty CUIT, else the map's entry. */
  function DetectVendorByCuit(cuit: Option<string>, cuitMap: map<string, string>): (r: Option<string>)
    ensures r.Some? <==> Truthy(cuit) && cuit.value in cuitMap
    ensures r.Some? ==> r.value == cuitMap[cuit.value]
  {
    if !Truthy(cuit) then None
    else if cuit.value in cuitMap then Some(cuitMap[cuit.value])
    else None
  }
}
