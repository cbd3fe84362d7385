/**
 * The regular expressions of the extractor whose full semantics this model leaves open. Each
 * is a parameter that stands for what the compiled pattern reports on a line; everything the
 * extractor does with those reports (which line wins, which window is searched, which rule
 * comes first) is modelled exactly.
 */
module Patterns {
  import opened Wrappers

  datatype Regexes = Regexes(
    /** `RE_FECHA.search(line)`: the text of the leftmost date match, if any. */
    fecha: string -> Option<string>,
    /** `RE_CUIT.finditer(line)`: the texts of the CUIT matches, left to right. */
    cuits: string -> seq<string>,
    /** `re.search(VENDOR_REGEX[vid], line, re.I)` for a vendor id of `VENDOR_IDS`. */
    vendorName: (string, string) -> bool,
    /** `re.search(NORMALIZATION_RULES[i][0], desc, flags=re.I)` for the rule at index `i`. */
    taxRule: (nat, string) -> bool
  )

  /** The keys of `VENDOR_REGEX`. */
  const VENDOR_IDS: set<string> := {"GUERRINI", "PIRELLI"}
}
