/**
 * The extraction pipeline of `InvoiceExtractor`: read the lines, take the header, resolve the
 * vendor (hint, then name keywords, then the provider's CUIT), locate the parties, build the
 * base `out` record, run exactly one totals step (the vendor's registered handler, else the
 * generic fallback), repair the totals and build the minimal payload with the OCR flag.
 *
 * The PDF, the YAML file and the handler registry are inputs: the page text and OCR lines are a
 * `LineSources` value, the parsed configuration an `Option` (`None` for a missing file), and the
 * registry a map from upper-cased vendor id to handler.
 */
module Extractor {
  import opened Wrappers
  import opened Text
  import opened Decimal
  import opened OrderedDict
  import opened InvoiceRecord
  import opened Patterns
  import opened MetadataExtractor
  import opened HandlersGuerrini
  import opened FallbackTotals
  import opened TaxNormalizer
  import opened VendorConfig
  import opened PdfReader
  import F = Formatters

  /**
   * A registered totals handler: the Guerrini handler of this model, or one whose code is not
   * part of this model (such as the Pirelli handler), taken as a function of the lines and the
   * record it updates.
   */
  datatype Handler = Guerrini | External(run: (seq<string>, Raw) -> Raw)

  /** `REGISTRY`: upper-cased vendor id to handler. */
  type Registry = map<string, Handler>

  /** The registry the vendors package builds on import, given the Pirelli handler. */
  function StandardRegistry(pirelli: (seq<string>, Raw) -> Raw): (reg: Registry)
    ensures "GUERRINI" in reg && reg["GUERRINI"] == Guerrini
    ensures reg.Keys == {"GUERRINI", "PIRELLI"}
  {
    map["PIRELLI" := External(pirelli), "GUERRINI" := Guerrini]
  }

  /** `debug["vendor"]` when no vendor was resolved. */
  const UNKNOWN_VENDOR: string := "UNKNOWN"

  /** The default tolerance of `validate_and_repair`. */
  const REPAIR_TOL: real := 0.05

  // ---------------------------------------------------------------------------------------
  // The stages of `extract`
  // ---------------------------------------------------------------------------------------

  /** `(vendor_hint or "").upper() or detect_vendor_basic(lines, names) or None`. */
  function VendorGuess(hint: Option<string>, lines: seq<string>, names: Dict<string, seq<string>>): Option<string>
  {
    var h := Upper(hint.GetOr(""));
    if h != "" then Some(h)
    else
      var detected := VendorByKeywords(lines, names);
      if Truthy(detected) then detected else None
  }

  /** `vendor_guess or detect_vendor_by_cuit(cuit_proveedor, cuits)`. */
  function ResolvedVendor(guess: Option<string>, cuitProveedor: Option<string>, cuits: map<string, string>): Option<string>
  {
    if Truthy(guess) then guess else DetectVendorByCuit(cuitProveedor, cuits)
  }

  /** The header entries of a record. */
  function HeaderPart(r: Raw): Header
  {
    Header(r.tipo, r.numero, r.fecha, r.cae, r.caeVto)
  }

  /** The party entries of a record. */
  function PartiesPart(r: Raw): Parties
  {
    Parties(r.proveedor, r.cuitProveedor, r.cliente, r.cuitCliente)
  }

  /** No amount, no detail item, an empty `debug` and no warnings yet. */
  predicate NoTotals(r: Raw)
  {
    && r.subtotal.None? && r.iva.None? && r.percepcionesTotal.None? && r.total.None?
    && r.ivaDetalle == [] && r.percepcionesDetalle == []
    && r.debug.None? && r.warnings.None?
  }

  /** `_build_base_out(header, parties)`. */
  function BaseOut(header: Header, parties: Parties): (r: Raw)
    ensures HeaderPart(r) == header && PartiesPart(r) == parties
    ensures NoTotals(r)
  {
    Raw(parties.proveedor, parties.cuitProveedor, parties.cliente, parties.cuitCliente,
        header.tipo, header.numero, header.fecha, header.cae, header.caeVto,
        None, None, [], None, [], None, None, None)
  }

  /** `{"vendor": vendor or "UNKNOWN", "lines_count": len(lines), "used_ocr": bool(used_ocr)}`. */
  function DebugOf(vendor: Option<string>, lines: seq<string>, usedOcr: bool): DebugInfo
  {
    DebugInfo(if Truthy(vendor) then vendor.value else UNKNOWN_VENDOR, |lines|, usedOcr)
  }

  /** The vendor `extract` resolves for these lines. */
  function VendorOf(rx: Regexes, cfg: Config, hint: Option<string>, lines: seq<string>): Option<string>
  {
    var guess := VendorGuess(hint, lines, cfg.names);
    ResolvedVendor(guess, PartiesOf(rx, lines, guess).cuitProveedor, cfg.cuits)
  }

  /** The `out` record just before the totals step: the base record with its `debug` entry. */
  function Prepared(rx: Regexes, cfg: Config, hint: Option<string>, lines: seq<string>, usedOcr: bool): Raw
  {
    var parties := PartiesOf(rx, lines, VendorGuess(hint, lines, cfg.names));
    BaseOut(HeaderOf(rx, lines), parties).(debug := Some(DebugOf(VendorOf(rx, cfg, hint, lines), lines, usedOcr)))
  }

  /** `(vendor or "").upper()`, the registry key. */
  function HandlerKey(vendor: Option<string>): string
  {
    Upper(vendor.GetOr(""))
  }

  /**
   * A handler that writes totals only, so that header, parties, `debug` and `warnings` come
   * through it unchanged. The GUERRINI handler is proved to be one (`GuerriniKeepsHeader`);
   * for an external handler it is what that handler's code has to guarantee.
   */
  ghost predicate KeepsHeader(h: Handler)
  {
    h.Guerrini? || forall lines: seq<string>, r: Raw :: SameHeader(r, h.run(lines, r))
  }

  /** With a PIRELLI handler that writes totals only, every handler of the standard registry does. */
  lemma StandardRegistryKeepsHeader(pirelli: (seq<string>, Raw) -> Raw)
    requires forall lines: seq<string>, r: Raw :: SameHeader(r, pirelli(lines, r))
    ensures forall k | k in StandardRegistry(pirelli) :: KeepsHeader(StandardRegistry(pirelli)[k])
  {
  }

  /** `handler(lines, out)`. */
  function RunHandler(h: Handler, lines: seq<string>, r: Raw): Raw
  {
    match h
    case Guerrini => GuerriniTotals(lines, r)
    case External(run) => run(lines, r)
  }

  /** The one totals step: the registered handler of the vendor, else `fallback_totals`. */
  function TotalsStep(registry: Registry, vendor: Option<string>, lines: seq<string>, r: Raw): Raw
  {
    var key := HandlerKey(vendor);
    if key in registry then RunHandler(registry[key], lines, r) else FallbackResult(lines, r)
  }

  /** The record `validate_and_repair` leaves, from which the payload is built. */
  function FinalRecord(rx: Regexes, repr: real -> string, registry: Registry, cfg: Config, hint: Option<string>,
                     lines: seq<string>, usedOcr: bool): Raw
  {
    Repaired(repr, REPAIR_TOL, TotalsStep(registry, VendorOf(rx, cfg, hint, lines), lines, Prepared(rx, cfg, hint, lines, usedOcr)))
  }

  /** What `extract` returns for the lines and OCR flag the reader gave. */
  function ExtractFrom(rx: Regexes, repr: real -> string, registry: Registry, cfg: Config, hint: Option<string>,
                       read: (seq<string>, bool)): F.Minimal
  {
    F.Minimal(MinimalPayload(rx, repr, FinalRecord(rx, repr, registry, cfg, hint, read.0, read.1), "proveedor"), read.1)
  }

  // ---------------------------------------------------------------------------------------
  // The extractor
  // ---------------------------------------------------------------------------------------

  class InvoiceExtractor {
    var reader: PdfLineReader

    /** `__init__(reader)`: the given reader, else a default one. */
    constructor (reader: Option<PdfLineReader>)
      ensures reader.Some? ==> this.reader == reader.value
      ensures reader.None? ==> fresh(this.reader)
      ensures reader.None? ==> this.reader.preferOcr == DEFAULT_PREFER_OCR && this.reader.dpi == DEFAULT_DPI
    {
      if reader.Some? {
        this.reader := reader.value;
      } else {
        var r := new PdfLineReader(DEFAULT_PREFER_OCR, DEFAULT_DPI);
        this.reader := r;
      }
    }

    /** `extract(pdf_path, vendor_hint, cfg_path, use_ocr_hint)`. */
    method Extract(src: LineSources, vendorHint: Option<string>, parsedCfg: Option<Dict<string, DetectCfg>>,
                   useOcrHint: Option<bool>, rx: Regexes, repr: real -> string, registry: Registry)
      returns (minimal: F.Minimal)
      ensures minimal == ExtractFrom(rx, repr, registry, ConfigOf(parsedCfg), vendorHint,
                                     ReadResult(src, if useOcrHint.Some? then useOcrHint.value else reader.preferOcr, reader.dpi))
    {
      var lines, usedOcr := reader.Read(src, useOcrHint);
      var cfg := LoadVendorConfig(parsedCfg);
      var out, vendor := Prepare(rx, cfg, vendorHint, lines, usedOcr);
      RunTotals(registry, vendor, lines, out);
      ValidateAndRepair(out, repr, REPAIR_TOL);
      var payload := BuildMinimalPayload(rx, repr, out.entries, "proveedor");
      minimal := F.Minimal(payload, usedOcr);
    }
  }

  /**
   * The first half of `extract`: header, vendor guess, parties, resolved vendor, and the base
   * record with its `debug` entry.
   */
  method Prepare(rx: Regexes, cfg: Config, vendorHint: Option<string>, lines: seq<string>, usedOcr: bool)
    returns (out: Record, vendor: Option<string>)
    ensures fresh(out)
    ensures out.entries == Prepared(rx, cfg, vendorHint, lines, usedOcr) && vendor == VendorOf(rx, cfg, vendorHint, lines)
  {
    var header := ExtractHeaderCommon(rx, lines);
    var guess: Option<string>;
    var h := Upper(vendorHint.GetOr(""));
    if h != "" {
      guess := Some(h);
    } else {
      var detected := DetectVendorBasic(lines, cfg.names);
      guess := if Truthy(detected) then detected else None;
    }
    var parties := ExtractNamesAndCuits(rx, lines, guess);
    vendor := if Truthy(guess) then guess else DetectVendorByCuit(parties.cuitProveedor, cfg.cuits);
    out := new Record(BaseOut(header, parties));
    out.entries := out.entries.(debug := Some(DebugInfo(if Truthy(vendor) then vendor.value else UNKNOWN_VENDOR, |lines|, usedOcr)));
  }

  /** `handler(lines, out)` when the vendor has a registered handler, else `fallback_totals(lines, out)`. */
  method RunTotals(registry: Registry, vendor: Option<string>, lines: seq<string>, out: Record)
    modifies out
    ensures out.entries == TotalsStep(registry, vendor, lines, old(out.entries))
  {
    var key := Upper(vendor.GetOr(""));
    if key in registry {
      match registry[key] {
        case Guerrini =>
          ExtractTotalsGuerrini(lines, out);
        case External(run) =>
          out.entries := run(lines, out.entries);
      }
    } else {
      FallbackTotals.FallbackTotals(lines, out);
    }
  }

  /** `extract_from_pdf(...)`: a fresh extractor with the default reader. */
  method ExtractFromPdf(src: LineSources, vendorHint: Option<string>, parsedCfg: Option<Dict<string, DetectCfg>>,
                        useOcrHint: Option<bool>, rx: Regexes, repr: real -> string, registry: Registry)
    returns (minimal: F.Minimal)
    ensures minimal == ExtractFrom(rx, repr, registry, ConfigOf(parsedCfg), vendorHint,
                                   ReadResult(src, if useOcrHint.Some? then useOcrHint.value else DEFAULT_PREFER_OCR, DEFAULT_DPI))
  {
    var ex := new InvoiceExtractor(None);
    minimal := ex.Extract(src, vendorHint, parsedCfg, useOcrHint, rx, repr, registry);
  }

  // ---------------------------------------------------------------------------------------
  // Properties of the pipeline
  // ---------------------------------------------------------------------------------------

  /**
   * A nonempty hint is the guess, upper-cased; without one the guess is the first configured
   * vendor with a keyword in the document's opening lines, and there is none only when no vendor
   * has one (vendor ids being nonempty). A guess is never the empty string.
   */
  lemma VendorGuessSpec(hint: Option<string>, lines: seq<string>, names: Dict<string, seq<string>>)
    ensures var g := VendorGuess(hint, lines, names);
      && (Truthy(hint) ==> g == Some(Upper(hint.value)))
      && (!Truthy(hint) && g.Some? ==>
            exists i | 0 <= i < |names| :: g.value == names[i].0 && HasKeyword(DetectHeader(lines), names[i].1))
      && (!Truthy(hint) && (forall i | 0 <= i < |names| :: names[i].0 != "") ==>
            (g.None? <==> forall i | 0 <= i < |names| :: !HasKeyword(DetectHeader(lines), names[i].1)))
      && (g.None? || g.value != "")
  {
    VendorByKeywordsFirst(lines, names);
    if !Truthy(hint) {
      assert Upper(hint.GetOr("")) == "";
    } else {
      assert |Upper(hint.value)| == |hint.value|;
    }
  }

  /**
   * A guess wins; only without one is the vendor looked up by the provider's CUIT, which then
   * resolves exactly when that CUIT is registered, to the vendor it is registered to.
   */
  lemma ResolvedVendorSpec(guess: Option<string>, cuit: Option<string>, cuits: map<string, string>)
    ensures var v := ResolvedVendor(guess, cuit, cuits);
      && (Truthy(guess) ==> v == guess)
      && (!Truthy(guess) ==> (v.Some? <==> Truthy(cuit) && cuit.value in cuits))
      && (!Truthy(guess) && v.Some? ==> v.value == cuits[cuit.value])
  {
  }

  /**
   * A vendor known only from the provider's CUIT gives the record no provider name: the name is
   * looked up with the guess, which is empty then, even though `debug` and the registry key use
   * the resolved vendor.
   */
  lemma CuitOnlyVendorHasNoName(rx: Regexes, cfg: Config, hint: Option<string>, lines: seq<string>, usedOcr: bool)
    requires !Truthy(VendorGuess(hint, lines, cfg.names))
    ensures Prepared(rx, cfg, hint, lines, usedOcr).proveedor.None?
    ensures VendorOf(rx, cfg, hint, lines) == DetectVendorByCuit(Prepared(rx, cfg, hint, lines, usedOcr).cuitProveedor, cfg.cuits)
  {
    var guess := VendorGuess(hint, lines, cfg.names);
    assert PartiesOf(rx, lines, guess).proveedor == VendorName(rx, lines, guess);
  }

  /**
   * The record before the totals step holds the located header and parties, no amounts, and a
   * `debug` entry naming the resolved vendor ("UNKNOWN" when there is none), the number of lines
   * and the OCR flag.
   */
  lemma PreparedSpec(rx: Regexes, cfg: Config, hint: Option<string>, lines: seq<string>, usedOcr: bool)
    ensures var r := Prepared(rx, cfg, hint, lines, usedOcr);
      var v := VendorOf(rx, cfg, hint, lines);
      && HeaderPart(r) == HeaderOf(rx, lines)
      && PartiesPart(r) == PartiesOf(rx, lines, VendorGuess(hint, lines, cfg.names))
      && r.(debug := None) == BaseOut(HeaderPart(r), PartiesPart(r))
      && r.debug.Some? && r.debug.value.linesCount == |lines|
      && UsedOcr(r) == usedOcr
      && (Truthy(v) ==> r.debug.value.vendor == v.value)
      && (!Truthy(v) ==> r.debug.value.vendor == UNKNOWN_VENDOR)
  {
    var parties := PartiesOf(rx, lines, VendorGuess(hint, lines, cfg.names));
    var b := BaseOut(HeaderOf(rx, lines), parties);
    assert HeaderPart(b) == HeaderOf(rx, lines) && PartiesPart(b) == parties && NoTotals(b);
  }

  /** A nonempty hint alone picks the handler: the registry key is the upper-cased hint. */
  lemma HintPicksHandler(rx: Regexes, cfg: Config, hint: Option<string>, lines: seq<string>)
    requires Truthy(hint)
    ensures HandlerKey(VendorOf(rx, cfg, hint, lines)) == Upper(hint.value)
  {
    VendorGuessSpec(hint, lines, cfg.names);
    UpperIdempotent(hint.value);
  }

  /**
   * The GUERRINI handler, the fallback and any external handler that writes totals only leave
   * header, parties, `debug` and `warnings` unchanged through the totals step.
   */
  lemma TotalsStepKeepsHeader(registry: Registry, vendor: Option<string>, lines: seq<string>, r: Raw)
    requires HandlerKey(vendor) !in registry || KeepsHeader(registry[HandlerKey(vendor)])
    ensures SameHeader(r, TotalsStep(registry, vendor, lines, r))
  {
    if HandlerKey(vendor) in registry {
      if registry[HandlerKey(vendor)].Guerrini? {
        GuerriniKeepsHeader(lines, r);
      }
    } else {
      FallbackWrites(ReadAhead, lines, r);
    }
  }

  /**
   * A document whose vendor resolves by no route gets the fallback (when nothing is registered
   * under the empty key) and "UNKNOWN" in `debug`.
   */
  lemma UnresolvedVendorFallsBack(rx: Regexes, cfg: Config, hint: Option<string>, lines: seq<string>, usedOcr: bool,
                                  registry: Registry)
    requires !Truthy(hint) && VendorByKeywords(lines, cfg.names).None?
    requires !Truthy(PartiesOf(rx, lines, None).cuitProveedor) || PartiesOf(rx, lines, None).cuitProveedor.value !in cfg.cuits
    requires "" !in registry
    ensures var r := Prepared(rx, cfg, hint, lines, usedOcr);
      && VendorOf(rx, cfg, hint, lines) == None
      && r.debug.value.vendor == UNKNOWN_VENDOR
      && TotalsStep(registry, VendorOf(rx, cfg, hint, lines), lines, r) == FallbackResult(lines, r)
  {
    VendorGuessSpec(hint, lines, cfg.names);
    assert VendorGuess(hint, lines, cfg.names) == None;
    assert Upper("") == "";
  }

  /** Whatever the handlers do, the payload's amounts are whole cents and the OCR flag is the reader's. */
  lemma ExtractOcrFlag(rx: Regexes, repr: real -> string, registry: Registry, cfg: Config, hint: Option<string>,
                       read: (seq<string>, bool))
    ensures var m := ExtractFrom(rx, repr, registry, cfg, hint, read);
      m.ocr == read.1 && IsCents(m.payload.subtotal) && IsCents(m.payload.total)
  {
    var full := FinalRecord(rx, repr, registry, cfg, hint, read.0, read.1);
    PayloadFields(full, "proveedor", IvaByRate(repr, full.ivaDetalle, full.iva), FixedSchema(rx, full));
  }

  /**
   * With a handler that writes totals only (GUERRINI's, the fallback, or an external one such as
   * PIRELLI's when it keeps the header), the payload carries the provider's CUIT and the invoice
   * number as located, the ISO form of the located date, amounts in whole cents, and the
   * reader's OCR flag.
   */
  lemma ExtractPayload(rx: Regexes, repr: real -> string, registry: Registry, cfg: Config, hint: Option<string>,
                       read: (seq<string>, bool))
    requires var key := HandlerKey(VendorOf(rx, cfg, hint, read.0)); key !in registry || KeepsHeader(registry[key])
    ensures var m := ExtractFrom(rx, repr, registry, cfg, hint, read);
      var header := HeaderOf(rx, read.0);
      && m.ocr == read.1
      && m.payload.cuit == PartiesOf(rx, read.0, VendorGuess(hint, read.0, cfg.names)).cuitProveedor.GetOr("")
      && m.payload.numero == header.numero.GetOr("")
      && m.payload.fecha == ToIsoDate(header.fecha).GetOr("")
      && IsCents(m.payload.subtotal) && IsCents(m.payload.total)
  {
    var lines := read.0;
    var r := Prepared(rx, cfg, hint, lines, read.1);
    PreparedSpec(rx, cfg, hint, lines, read.1);
    var t := TotalsStep(registry, VendorOf(rx, cfg, hint, lines), lines, r);
    TotalsStepKeepsHeader(registry, VendorOf(rx, cfg, hint, lines), lines, r);
    var full := Repaired(repr, REPAIR_TOL, t);
    RepairedEffect(repr, REPAIR_TOL, t);
    assert full.cuitProveedor == r.cuitProveedor && full.numero == r.numero && full.fecha == r.fecha;
    PayloadFields(full, "proveedor", IvaByRate(repr, full.ivaDetalle, full.iva), FixedSchema(rx, full));
  }
}
