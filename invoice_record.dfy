/**
 * The per-document `out` dictionary that the extractor builds, that the totals handlers and
 * `validate_and_repair` update in place, and from which the minimal payload is read.
 */
module InvoiceRecord {
  import opened Wrappers

  /** An entry of `iva_detalle`: `{"alicuota": ..., "monto": ...}`. */
  datatype IvaItem = IvaItem(alicuota: Option<string>, monto: real)

  /** An entry of `percepciones_detalle`: `{"desc": ..., "monto": ...}`. */
  datatype PercItem = PercItem(desc: string, monto: real)

  /** The `debug` entry the pipeline writes before the totals step. */
  datatype DebugInfo = DebugInfo(vendor: string, linesCount: nat, usedOcr: bool)

  /**
   * A snapshot of the `out` dictionary. `debug` is `None` while it is the empty dictionary of
   * the base record, and `warnings` is `None` while the key is absent.
   */
  datatype Raw = Raw(
    proveedor: Option<string>,
    cuitProveedor: Option<string>,
    cliente: Option<string>,
    cuitCliente: Option<string>,
    tipo: Option<string>,
    numero: Option<string>,
    fecha: Option<string>,
    cae: Option<string>,
    caeVto: Option<string>,
    subtotal: Option<real>,
    iva: Option<real>,
    ivaDetalle: seq<IvaItem>,
    percepcionesTotal: Option<real>,
    percepcionesDetalle: seq<PercItem>,
    total: Option<real>,
    debug: Option<DebugInfo>,
    warnings: Option<seq<string>>)

  /** `bool((out.get("debug") or {}).get("used_ocr"))`. */
  predicate UsedOcr(r: Raw)
  {
    r.debug.Some? && r.debug.value.usedOcr
  }

  /** The entries no totals handler writes: the header, the parties, `debug` and `warnings`. */
  predicate SameHeader(a: Raw, b: Raw)
  {
    && a.proveedor == b.proveedor && a.cuitProveedor == b.cuitProveedor
    && a.cliente == b.cliente && a.cuitCliente == b.cuitCliente
    && a.tipo == b.tipo && a.numero == b.numero && a.fecha == b.fecha
    && a.cae == b.cae && a.caeVto == b.caeVto
    && a.debug == b.debug && a.warnings == b.warnings
  }

  /**
   * The `out` dictionary itself. Its keys are fixed, so its contents are one `Raw` value, and
   * `out["k"] = v` is the reassignment `entries := entries.(k := v)`.
   */
  class Record {
    var entries: Raw

    constructor (r: Raw)
      ensures entries == r
    {
      entries := r;
    }
  }
}
