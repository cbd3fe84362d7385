/**
 * The step that turns the extracted record into the minimal payload: perception items
 * classified into a closed set of 23 tax buckets, IVA amounts grouped by rate in a canonical
 * order, perceptions split from withholdings, the invoice date rewritten as an ISO 8601
 * calendar date, and the advisory reconciliation of the total with its parts.
 */
module TaxNormalizer {
  import opened Wrappers
  import opened Text
  import opened Decimal
  import opened OrderedDict
  import opened Patterns
  import opened InvoiceRecord

  function Abs(x: real): real
  {
    if x < 0.0 then -x else x
  }

  // ---------------------------------------------------------------------------------------
  // FIXED_TAX_FIELDS, NORMALIZATION_RULES
  // ---------------------------------------------------------------------------------------

  /** The bucket keys of the fixed schema, in order. */
  const FIXED_TAX_FIELDS: seq<string> := [
    "percepcion_iva",
    "percepcion_iibb_bs_as",
    "percepcion_ganancias",
    "percepcion_iibb_la_pampa",
    "percepcion_iibb_rio_negro",
    "percepcion_iibb_neuquen",
    "percepcion_iibb_caba",
    "percepcion_iibb_cordoba",
    "percepcion_iibb_chubut",
    "percepcion_iibb_mendoza",
    "percepcion_iibb_santa_cruz",
    "percepcion_iibb_santa_fe",
    "percepcion_iibb_tucuman",
    "percepcion_iibb_entre_rios",
    "percepcion_iibb_la_rioja",
    "impuesto_combustible",
    "impuestos_y_sellados",
    "retencion_iva",
    "retencion_iibb_pcia_bs_as",
    "retencion_ganancias",
    "retencion_iibb_pcia_rio_negro",
    "retencion_iibb_pcia_neuquen",
    "retencion_iibb_sirtac"]

  /**
   * The bucket key of each rule of `NORMALIZATION_RULES`, in rule order; whether the rule's
   * pattern matches a description is `rx.taxRule(i, desc)`.
   */
  const RULE_KEYS: seq<string> := [
    "retencion_iva",
    "retencion_ganancias",
    "retencion_iibb_pcia_bs_as",
    "retencion_iibb_pcia_rio_negro",
    "retencion_iibb_pcia_neuquen",
    "retencion_iibb_sirtac",
    "percepcion_iva",
    "percepcion_iva",
    "percepcion_iva",
    "percepcion_iibb_bs_as",
    "percepcion_iibb_bs_as",
    "percepcion_iibb_bs_as",
    "percepcion_iibb_caba",
    "percepcion_iibb_neuquen",
    "percepcion_iibb_rio_negro",
    "percepcion_iibb_la_pampa",
    "percepcion_iibb_cordoba",
    "percepcion_iibb_chubut",
    "percepcion_iibb_mendoza",
    "percepcion_iibb_santa_cruz",
    "percepcion_iibb_santa_fe",
    "percepcion_iibb_tucuman",
    "percepcion_iibb_entre_rios",
    "percepcion_iibb_la_rioja",
    "percepcion_iibb_bs_as",
    "percepcion_ganancias",
    "impuesto_combustible",
    "impuestos_y_sellados"]

  /** Rules `lo .. hi - 1` name fixed keys. */
  predicate RulesFixed(lo: nat, hi: nat)
    requires lo <= hi <= |RULE_KEYS|
  {
    forall i | lo <= i < hi :: RULE_KEYS[i] in FIXED_TAX_FIELDS
  }

  lemma RuleKeysRetentions()
    ensures RulesFixed(0, 7)
  {
    assert RULE_KEYS[0] == FIXED_TAX_FIELDS[17] && RULE_KEYS[1] == FIXED_TAX_FIELDS[19];
    assert RULE_KEYS[2] == FIXED_TAX_FIELDS[18] && RULE_KEYS[3] == FIXED_TAX_FIELDS[20];
    assert RULE_KEYS[4] == FIXED_TAX_FIELDS[21] && RULE_KEYS[5] == FIXED_TAX_FIELDS[22];
    assert RULE_KEYS[6] == FIXED_TAX_FIELDS[0];
  }

  lemma RuleKeysNational()
    ensures RulesFixed(7, 14)
  {
    assert RULE_KEYS[7] == FIXED_TAX_FIELDS[0];
    assert RULE_KEYS[8] == FIXED_TAX_FIELDS[0] && RULE_KEYS[9] == FIXED_TAX_FIELDS[1];
    assert RULE_KEYS[10] == FIXED_TAX_FIELDS[1] && RULE_KEYS[11] == FIXED_TAX_FIELDS[1];
    assert RULE_KEYS[12] == FIXED_TAX_FIELDS[6] && RULE_KEYS[13] == FIXED_TAX_FIELDS[5];
  }

  lemma RuleKeysProvinces()
    ensures RulesFixed(14, 21)
  {
    assert RULE_KEYS[14] == FIXED_TAX_FIELDS[4] && RULE_KEYS[15] == FIXED_TAX_FIELDS[3];
    assert RULE_KEYS[16] == FIXED_TAX_FIELDS[7] && RULE_KEYS[17] == FIXED_TAX_FIELDS[8];
    assert RULE_KEYS[18] == FIXED_TAX_FIELDS[9] && RULE_KEYS[19] == FIXED_TAX_FIELDS[10];
    assert RULE_KEYS[20] == FIXED_TAX_FIELDS[11];
  }

  lemma RuleKeysRest()
    ensures RulesFixed(21, 28)
  {
    assert RULE_KEYS[21] == FIXED_TAX_FIELDS[12];
    assert RULE_KEYS[22] == FIXED_TAX_FIELDS[13] && RULE_KEYS[23] == FIXED_TAX_FIELDS[14];
    assert RULE_KEYS[24] == FIXED_TAX_FIELDS[1] && RULE_KEYS[25] == FIXED_TAX_FIELDS[2];
    assert RULE_KEYS[26] == FIXED_TAX_FIELDS[15] && RULE_KEYS[27] == FIXED_TAX_FIELDS[16];
  }

  /** The bucket set is closed: every rule names one of the fixed keys. */
  lemma RuleKeysFixed()
    ensures |RULE_KEYS| == 28 && |FIXED_TAX_FIELDS| == 23
    ensures forall i | 0 <= i < |RULE_KEYS| :: RULE_KEYS[i] in FIXED_TAX_FIELDS
  {
    RuleKeysRetentions();
    RuleKeysNational();
    RuleKeysProvinces();
    RuleKeysRest();
  }

  // ---------------------------------------------------------------------------------------
  // _normalize_fixed_schema
  // ---------------------------------------------------------------------------------------

  /** The index of the first of the `count` rules, from `i` on, whose pattern matches `desc`. */
  function FirstRule(rx: Regexes, count: nat, desc: string, i: nat): (m: Option<nat>)
    ensures m.Some? ==> i <= m.value < count && rx.taxRule(m.value, desc)
                        && forall j | i <= j < m.value :: !rx.taxRule(j, desc)
    ensures m.None? ==> forall j | i <= j < count :: !rx.taxRule(j, desc)
    decreases count - i
  {
    if i >= count then None
    else if rx.taxRule(i, desc) then Some(i)
    else FirstRule(rx, count, desc, i + 1)
  }

  /**
   * The bucket an item goes to under the rule keys `keys`: the key of the first rule whose
   * pattern matches the upper-cased description.
   */
  function ItemKeyIn(rx: Regexes, keys: seq<string>, it: PercItem): (k: Option<string>)
    ensures k.Some? ==> k.value in keys
  {
    match FirstRule(rx, |keys|, Upper(it.desc), 0)
    case None => None
    case Some(j) => Some(keys[j])
  }

  function ItemKey(rx: Regexes, it: PercItem): Option<string>
  {
    ItemKeyIn(rx, RULE_KEYS, it)
  }

  /** The items classified: the perception details, or one synthetic item for a bare total. */
  function SchemaItems(r: Raw): seq<PercItem>
  {
    if r.percepcionesDetalle == [] && r.percepcionesTotal.Some? then [PercItem("PERCEP. IIBB", r.percepcionesTotal.value)]
    else r.percepcionesDetalle
  }

  /** `{k: None for k in fields}`. */
  function InitOf(fields: seq<string>): (d: Dict<string, Option<real>>)
    ensures Keys(d) == fields
    ensures forall i | 0 <= i < |d| :: d[i].1.None?
  {
    var d := seq(|fields|, i requires 0 <= i < |fields| => (fields[i], None));
    assert Keys(d) == fields;
    d
  }

  function FixedInit(): Dict<string, Option<real>>
  {
    InitOf(FIXED_TAX_FIELDS)
  }

  /** `fixed[k] or 0.0`. */
  function Current(fixed: Dict<string, Option<real>>, k: string): real
  {
    var cur := Get(fixed, k);
    if cur.Some? && cur.value.Some? then cur.value.value else 0.0
  }

  /** `round(current + monto, 2)`. */
  function RoundedSum(current: real, monto: real): real
  {
    Round2(current + monto)
  }

  /** One pass of the item loop: the item's amount added to the bucket `key`, if it has one. */
  function AddItem(fixed: Dict<string, Option<real>>, key: Option<string>, monto: real): Dict<string, Option<real>>
  {
    if key.None? then fixed else Put(fixed, key.value, Some(RoundedSum(Current(fixed, key.value), monto)))
  }

  /** The buckets after the first `n` items, starting from `init`. */
  function SchemaFold(rx: Regexes, keys: seq<string>, init: Dict<string, Option<real>>, items: seq<PercItem>, n: nat): Dict<string, Option<real>>
    requires n <= |items|
  {
    if n == 0 then init else AddItem(SchemaFold(rx, keys, init, items, n - 1), ItemKeyIn(rx, keys, items[n - 1]), items[n - 1].monto)
  }

  /** What `_normalize_fixed_schema(out)` returns. */
  function FixedSchema(rx: Regexes, r: Raw): Dict<string, Option<real>>
  {
    var items := SchemaItems(r);
    SchemaFold(rx, RULE_KEYS, FixedInit(), items, |items|)
  }

  /** The inner loop: the rules in order, stopping at the first whose pattern matches. */
  method MatchRule(rx: Regexes, count: nat, desc: string) returns (m: Option<nat>)
    ensures m == FirstRule(rx, count, desc, 0)
  {
    var j := 0;
    while j < count
      invariant j <= count
      invariant FirstRule(rx, count, desc, 0) == FirstRule(rx, count, desc, j)
      decreases count - j
    {
      if rx.taxRule(j, desc) {
        return Some(j);
      }
      j := j + 1;
    }
    return None;
  }

  /** The item loop over the rule keys `keys`, starting from the buckets `init`. */
  method ClassifyItems(rx: Regexes, keys: seq<string>, init: Dict<string, Option<real>>, r: Raw)
    returns (fixed: Dict<string, Option<real>>)
    ensures fixed == SchemaFold(rx, keys, init, SchemaItems(r), |SchemaItems(r)|)
  {
    fixed := init;
    var items := r.percepcionesDetalle;
    if items == [] && r.percepcionesTotal.Some? {
      items := [PercItem("PERCEP. IIBB", r.percepcionesTotal.value)];
    }
    assert items == SchemaItems(r);
    var n := 0;
    while n < |items|
      invariant n <= |items|
      invariant fixed == SchemaFold(rx, keys, init, items, n)
      decreases |items| - n
    {
      var it := items[n];
      var descRaw := Upper(it.desc);
      var matched := MatchRule(rx, |keys|, descRaw);
      if matched.Some? {
        var key := keys[matched.value];
        fixed := Put(fixed, key, Some(RoundedSum(Current(fixed, key), it.monto)));
      }
      n := n + 1;
    }
  }

  method NormalizeFixedSchema(rx: Regexes, r: Raw) returns (fixed: Dict<string, Option<real>>)
    ensures fixed == FixedSchema(rx, r)
  {
    fixed := ClassifyItems(rx, RULE_KEYS, FixedInit(), r);
  }

  lemma AddItemKeys(fixed: Dict<string, Option<real>>, key: Option<string>, monto: real)
    requires key.Some? ==> HasKey(fixed, key.value)
    ensures Keys(AddItem(fixed, key, monto)) == Keys(fixed)
  {
    if key.Some? {
      PutKeys(fixed, key.value, Some(RoundedSum(Current(fixed, key.value), monto)));
    }
  }

  /** Classifying items never adds or reorders keys when every rule key is already present. */
  lemma {:induction false} SchemaFoldKeys(rx: Regexes, keys: seq<string>, init: Dict<string, Option<real>>, items: seq<PercItem>, n: nat)
    requires n <= |items|
    requires forall j | 0 <= j < |keys| :: keys[j] in Keys(init)
    ensures Keys(SchemaFold(rx, keys, init, items, n)) == Keys(init)
  {
    if n > 0 {
      SchemaFoldKeys(rx, keys, init, items, n - 1);
      AddItemKeys(SchemaFold(rx, keys, init, items, n - 1), ItemKeyIn(rx, keys, items[n - 1]), items[n - 1].monto);
    }
  }

  /** The result has exactly the 23 fixed keys, in the fixed order. */
  lemma FixedSchemaKeys(rx: Regexes, r: Raw)
    ensures Keys(FixedSchema(rx, r)) == FIXED_TAX_FIELDS
  {
    RuleKeysFixed();
    SchemaFoldKeys(rx, RULE_KEYS, FixedInit(), SchemaItems(r), |SchemaItems(r)|);
  }

  /**
   * The amount bucket `k` holds after the first `n` items, item by item: an item classified
   * into `k` adds its amount and rounds to cents, every other item leaves `k` alone.
   */
  function BucketOf(rx: Regexes, keys: seq<string>, items: seq<PercItem>, n: nat, k: string): Option<real>
    requires n <= |items|
  {
    if n == 0 then None
    else BucketAdd(BucketOf(rx, keys, items, n - 1, k), ItemKeyIn(rx, keys, items[n - 1]), k, items[n - 1].monto)
  }

  /** Bucket `k` after an item classified into `key`. */
  function BucketAdd(prev: Option<real>, key: Option<string>, k: string, monto: real): Option<real>
  {
    if key == Some(k) then Some(RoundedSum(prev.GetOr(0.0), monto)) else prev
  }

  /** One item changes at most the bucket it is classified into. */
  lemma AddItemGet(fixed: Dict<string, Option<real>>, key: Option<string>, monto: real, k: string, prev: Option<real>)
    requires Get(fixed, k) == Some(prev)
    ensures Get(AddItem(fixed, key, monto), k) == Some(BucketAdd(prev, key, k, monto))
  {
    if key.Some? {
      PutGet(fixed, key.value, Some(RoundedSum(Current(fixed, key.value), monto)), k);
    }
  }

  lemma {:induction false} SchemaFoldBucket(rx: Regexes, keys: seq<string>, init: Dict<string, Option<real>>, items: seq<PercItem>, n: nat, k: string)
    requires n <= |items| && Get(init, k) == Some(None)
    ensures Get(SchemaFold(rx, keys, init, items, n), k) == Some(BucketOf(rx, keys, items, n, k))
  {
    if n > 0 {
      SchemaFoldBucket(rx, keys, init, items, n - 1, k);
      AddItemGet(SchemaFold(rx, keys, init, items, n - 1), ItemKeyIn(rx, keys, items[n - 1]), items[n - 1].monto, k, BucketOf(rx, keys, items, n - 1, k));
    }
  }

  lemma {:induction false} InitGet(d: Dict<string, Option<real>>, k: string)
    requires forall i | 0 <= i < |d| :: d[i].1.None?
    requires k in Keys(d)
    ensures Get(d, k) == Some(None)
    decreases |d|
  {
    assert Keys(d) == [d[0].0] + Keys(d[1..]);
    if d[0].0 != k {
      InitGet(d[1..], k);
    }
  }

  /**
   * The bucket of a fixed key is `None` until an item is classified into it, and then the
   * running sum of those items' amounts, rounded to cents after each addition.
   */
  lemma FixedSchemaBucket(rx: Regexes, r: Raw, k: string)
    requires k in FIXED_TAX_FIELDS
    ensures Get(FixedSchema(rx, r), k) == Some(BucketOf(rx, RULE_KEYS, SchemaItems(r), |SchemaItems(r)|, k))
  {
    InitGet(FixedInit(), k);
    SchemaFoldBucket(rx, RULE_KEYS, FixedInit(), SchemaItems(r), |SchemaItems(r)|, k);
  }

  /** A bucket no item is classified into stays `None`; a filled one holds whole cents. */
  lemma {:induction false} BucketOfUnmatched(rx: Regexes, keys: seq<string>, items: seq<PercItem>, n: nat, k: string)
    requires n <= |items|
    ensures (forall j | 0 <= j < n :: ItemKeyIn(rx, keys, items[j]) != Some(k)) ==> BucketOf(rx, keys, items, n, k).None?
    ensures BucketOf(rx, keys, items, n, k).Some? ==> IsCents(BucketOf(rx, keys, items, n, k).value)
  {
    if n > 0 {
      BucketOfUnmatched(rx, keys, items, n - 1, k);
      Round2Near(BucketOf(rx, keys, items, n - 1, k).GetOr(0.0) + items[n - 1].monto);
    }
  }

  /** An item goes to the key of the first rule, in list order, whose pattern matches it. */
  lemma ItemKeyFirstRule(rx: Regexes, keys: seq<string>, it: PercItem)
    ensures ItemKeyIn(rx, keys, it).Some? <==> exists j | 0 <= j < |keys| :: rx.taxRule(j, Upper(it.desc))
    ensures ItemKeyIn(rx, keys, it).Some? ==>
      exists j | 0 <= j < |keys| :: ItemKeyIn(rx, keys, it) == Some(keys[j]) && rx.taxRule(j, Upper(it.desc))
                                   && forall i | 0 <= i < j :: !rx.taxRule(i, Upper(it.desc))
  {
    var m := FirstRule(rx, |keys|, Upper(it.desc), 0);
    if m.Some? {
      assert rx.taxRule(m.value, Upper(it.desc));
    }
  }

  /** With no perception details but a total, the total alone is classified, as "PERCEP. IIBB". */
  lemma SchemaItemsSynthetic(r: Raw)
    ensures r.percepcionesDetalle == [] && r.percepcionesTotal.Some? ==>
      SchemaItems(r) == [PercItem("PERCEP. IIBB", r.percepcionesTotal.value)]
    ensures r.percepcionesDetalle == [] && r.percepcionesTotal.None? ==> SchemaItems(r) == []
    ensures r.percepcionesDetalle != [] ==> SchemaItems(r) == r.percepcionesDetalle
  {
  }

  // ---------------------------------------------------------------------------------------
  // _to_iso_date
  // ---------------------------------------------------------------------------------------

  predicate AllDigitsAt(s: string, i: nat, j: nat)
    requires i <= j <= |s|
  {
    forall k | i <= k < j :: IsDigit(s[k])
  }

  /** `(\d{2})[\/\-.](\d{2})[\/\-.](\d{4})`, the whole text. */
  predicate IsDayMonthYear(s: string)
  {
    && |s| == 10 && AllDigitsAt(s, 0, 2) && AllDigitsAt(s, 3, 5) && AllDigitsAt(s, 6, 10)
    && (s[2] == '/' || s[2] == '-' || s[2] == '.') && (s[5] == '/' || s[5] == '-' || s[5] == '.')
  }

  /** `(\d{4})[\/\-](\d{2})[\/\-](\d{2})`, the whole text. */
  predicate IsYearMonthDay(s: string)
  {
    && |s| == 10 && AllDigitsAt(s, 0, 4) && AllDigitsAt(s, 5, 7) && AllDigitsAt(s, 8, 10)
    && (s[4] == '/' || s[4] == '-') && (s[7] == '/' || s[7] == '-')
  }

  /** YYYY-MM-DD: the extended calendar-date format of ISO 8601. */
  predicate IsIsoDate(s: string)
  {
    IsYearMonthDay(s) && s[4] == '-' && s[7] == '-'
  }

  /** `_to_iso_date(maybe_date)`. */
  function ToIsoDate(maybeDate: Option<string>): Option<string>
  {
    if maybeDate.None? || maybeDate.value == "" then None
    else
      var s := Strip(maybeDate.value);
      if IsDayMonthYear(s) then Some(s[6..10] + "-" + s[3..5] + "-" + s[0..2])
      else if IsYearMonthDay(s) then Some(s[0..4] + "-" + s[5..7] + "-" + s[8..10])
      else Some(s)
  }

  /** DD?MM?YYYY becomes YYYY-MM-DD, with no check that the day or month exists. */
  lemma ToIsoDateDayFirst(dd: string, mm: string, yyyy: string, s1: char, s2: char)
    requires |dd| == 2 && |mm| == 2 && |yyyy| == 4 && AllDigits(dd) && AllDigits(mm) && AllDigits(yyyy)
    requires (s1 == '/' || s1 == '-' || s1 == '.') && (s2 == '/' || s2 == '-' || s2 == '.')
    ensures ToIsoDate(Some(dd + [s1] + mm + [s2] + yyyy)) == Some(yyyy + "-" + mm + "-" + dd)
    ensures IsIsoDate(yyyy + "-" + mm + "-" + dd)
  {
    var s := dd + [s1] + mm + [s2] + yyyy;
    assert s[0..2] == dd && s[3..5] == mm && s[6..10] == yyyy;
    StripUnchanged(s);
  }

  /** YYYY?MM?DD becomes YYYY-MM-DD. */
  lemma ToIsoDateYearFirst(yyyy: string, mm: string, dd: string, s1: char, s2: char)
    requires |dd| == 2 && |mm| == 2 && |yyyy| == 4 && AllDigits(dd) && AllDigits(mm) && AllDigits(yyyy)
    requires (s1 == '/' || s1 == '-') && (s2 == '/' || s2 == '-')
    ensures ToIsoDate(Some(yyyy + [s1] + mm + [s2] + dd)) == Some(yyyy + "-" + mm + "-" + dd)
  {
    var s := yyyy + [s1] + mm + [s2] + dd;
    assert s[0..4] == yyyy && s[5..7] == mm && s[8..10] == dd;
    StripUnchanged(s);
  }

  /** An ISO date is left as it is. */
  lemma ToIsoDateIsoFixed(s: string)
    requires IsIsoDate(s)
    ensures ToIsoDate(Some(s)) == Some(s)
  {
    StripUnchanged(s);
    assert s == s[0..4] + "-" + s[5..7] + "-" + s[8..10];
  }

  /**
   * A missing or empty date gives `None`, and rewriting a rewritten date changes nothing
   * unless the date was only blanks (which the first pass turns into "" and the second into
   * `None`).
   */
  lemma ToIsoDateIdempotent(d: Option<string>)
    ensures d.None? || d == Some("") ==> ToIsoDate(d).None?
    ensures ToIsoDate(d) != Some("") ==> ToIsoDate(ToIsoDate(d)) == ToIsoDate(d)
  {
    if d.Some? && d.value != "" {
      var s := Strip(d.value);
      if IsDayMonthYear(s) {
        var iso := s[6..10] + "-" + s[3..5] + "-" + s[0..2];
        ToIsoDateIsoFixed(iso);
      } else if IsYearMonthDay(s) {
        var iso := s[0..4] + "-" + s[5..7] + "-" + s[8..10];
        ToIsoDateIsoFixed(iso);
      } else if s != "" {
        StripUnchanged(s);
      }
    }
  }

  // ---------------------------------------------------------------------------------------
  // _parse_aliquota_to_float
  // ---------------------------------------------------------------------------------------

  /** The rates a parsed value is snapped to. */
  const SNAP_RATES: seq<real> := [10.5, 2.5, 5.0, 21.0, 27.0]

  /** `if abs(v - r) < 1e-6: return r` for 10.5, 2.5, 5.0, 21.0, 27.0 in that order. */
  function Snap(v: real): real
  {
    if Abs(v - 10.5) < 0.000001 then 10.5
    else if Abs(v - 2.5) < 0.000001 then 2.5
    else if Abs(v - 5.0) < 0.000001 then 5.0
    else if Abs(v - 21.0) < 0.000001 then 21.0
    else if Abs(v - 27.0) < 0.000001 then 27.0
    else v
  }

  /** `str(a).strip().replace("%", "").replace(",", ".")`. */
  function CleanRate(a: string): string
  {
    ReplaceChar(RemoveChar(Strip(a), '%'), ',', '.')
  }

  /** `_parse_aliquota_to_float(a)`. */
  function ParseAliquota(a: Option<string>): Option<real>
  {
    if a.None? then None
    else
      match PyFloat(CleanRate(a.value))
      case None => None
      case Some(v) => Some(Snap(v))
  }

  /** A value within 1e-6 of a canonical rate becomes that rate; every other value is kept. */
  lemma SnapRates(v: real)
    ensures forall i | 0 <= i < |SNAP_RATES| :: Abs(v - SNAP_RATES[i]) < 0.000001 ==> Snap(v) == SNAP_RATES[i]
    ensures (Abs(v - 10.5) >= 0.000001 && Abs(v - 2.5) >= 0.000001 && Abs(v - 5.0) >= 0.000001
             && Abs(v - 21.0) >= 0.000001 && Abs(v - 27.0) >= 0.000001) ==> Snap(v) == v
    ensures Snap(Snap(v)) == Snap(v)
  {
  }

  /** No rate text gives no rate. */
  lemma ParseAliquotaNone()
    ensures ParseAliquota(None) == None
  {
  }

  lemma CleanRateDigits(digits: string)
    requires digits != [] && AllDigits(digits)
    ensures CleanRate(digits) == digits
  {
    assert IsDigit(digits[0]) && IsDigit(digits[|digits| - 1]);
    assert '%' !in digits && ',' !in digits;
    StripUnchanged(digits);
    RemoveCharAbsent(digits, '%');
    assert ReplaceChar(digits, ',', '.') == digits;
  }

  lemma CleanRatePercent(digits: string)
    requires digits != [] && AllDigits(digits)
    ensures CleanRate(digits + "%") == digits
  {
    var t := digits + "%";
    assert t[0] == digits[0] && IsDigit(digits[0]) && t[|t| - 1] == '%';
    assert '%' !in digits && ',' !in digits;
    StripUnchanged(t);
    RemoveCharAppend(digits, "%", '%');
    RemoveCharAbsent(digits, '%');
    assert RemoveChar("%", '%') == [];
    assert digits + [] == digits;
    assert ReplaceChar(digits, ',', '.') == digits;
  }

  /** A whole-number rate such as "21" or "27%" reads as that number. */
  lemma ParseAliquotaWhole(digits: string)
    requires digits != [] && AllDigits(digits)
    ensures ParseAliquota(Some(digits)) == Some(Snap(DigitsValue(digits) as real))
    ensures ParseAliquota(Some(digits + "%")) == Some(Snap(DigitsValue(digits) as real))
  {
    CleanRateDigits(digits);
    CleanRatePercent(digits);
    DecimalValueWhole(digits);
    PyFloatWhole(digits);
  }

  // ---------------------------------------------------------------------------------------
  // _sum_iva_by_rate
  // ---------------------------------------------------------------------------------------

  /** The bucket of items whose rate does not parse. */
  const OTHER_RATE: real := 999.0

  /** The order in which the canonical rates are listed. */
  const IVA_RATES_CANON: seq<real> := [27.0, 21.0, 10.5, 5.0, 2.5]

  /** `buckets[rate] = round(buckets.get(rate, 0.0) + amt, 2)`. */
  function AddBucket(b: Dict<real, real>, rate: real, amt: real): Dict<real, real>
  {
    Put(b, rate, Round2(Get(b, rate).GetOr(0.0) + amt))
  }

  /** The rate bucket of an item: its parsed rate, or 999 when the rate does not parse. */
  function RateOf(it: IvaItem): real
  {
    ParseAliquota(it.alicuota).GetOr(OTHER_RATE)
  }

  /** Each item as its rate bucket and its amount. */
  function RatedAmounts(items: seq<IvaItem>): (ps: seq<(real, real)>)
    ensures |ps| == |items|
    ensures forall i | 0 <= i < |items| :: ps[i] == (RateOf(items[i]), items[i].monto)
  {
    seq(|items|, i requires 0 <= i < |items| => (RateOf(items[i]), items[i].monto))
  }

  /** The rate buckets after the first `n` (rate, amount) pairs. */
  function Buckets(ps: seq<(real, real)>, n: nat): Dict<real, real>
    requires n <= |ps|
  {
    if n == 0 then [] else AddBucket(Buckets(ps, n - 1), ps[n - 1].0, ps[n - 1].1)
  }

  /** `str(int(r)) if float(r).is_integer() else str(r)`, with `repr` standing for `str` of a float. */
  function RateText(repr: real -> string, r: real): string
  {
    if r.Floor as real == r then IntToString(r.Floor) else repr(r)
  }

  /** The key of a bucket in the result: "otros" for the unparsed bucket. */
  function RateLabel(repr: real -> string, k: real): string
  {
    if k == OTHER_RATE then "otros" else RateText(repr, k)
  }

  /** The buckets once the empty-items case has been handled. */
  function RateBuckets(items: seq<IvaItem>, ivaTotal: Option<real>): Dict<real, real>
  {
    var b := Buckets(RatedAmounts(items), |items|);
    if b == [] && ivaTotal.Some? && ivaTotal.value != 0.0 then Put(b, OTHER_RATE, Round2(ivaTotal.value)) else b
  }

  /** `out`: the buckets after `n` entries, keyed by their label. */
  function Labelled(repr: real -> string, b: Dict<real, real>, n: nat): Dict<string, real>
    requires n <= |b|
  {
    if n == 0 then [] else Put(Labelled(repr, b, n - 1), RateLabel(repr, b[n - 1].0), b[n - 1].1)
  }

  /** The first loop over `IVA_RATES_CANON`, after `n` rates. */
  function CanonFirst(repr: real -> string, out: Dict<string, real>, n: nat): Dict<string, real>
    requires n <= |IVA_RATES_CANON|
  {
    if n == 0 then [] else CanonStep(out, CanonFirst(repr, out, n - 1), RateText(repr, IVA_RATES_CANON[n - 1]))
  }

  /** `if rk in out and out[rk] > 0: ordered[rk] = out[rk]`. */
  function CanonStep(out: Dict<string, real>, ordered: Dict<string, real>, rk: string): Dict<string, real>
  {
    if HasKey(out, rk) && Get(out, rk).value > 0.0 then Put(ordered, rk, Get(out, rk).value) else ordered
  }

  /** The second loop, over the entries of `out`, after `n` entries, starting from `base`. */
  function RestAfter(out: Dict<string, real>, base: Dict<string, real>, n: nat): Dict<string, real>
    requires n <= |out|
  {
    if n == 0 then base else RestStep(RestAfter(out, base, n - 1), out[n - 1].0, out[n - 1].1)
  }

  /** `if rk not in ordered and v > 0: ordered[rk] = v`. */
  function RestStep(ordered: Dict<string, real>, rk: string, v: real): Dict<string, real>
  {
    if !HasKey(ordered, rk) && v > 0.0 then Put(ordered, rk, v) else ordered
  }

  /** What `_sum_iva_by_rate(iva_detalle, iva_total)` returns. */
  function IvaByRate(repr: real -> string, items: seq<IvaItem>, ivaTotal: Option<real>): Dict<string, real>
  {
    var b := RateBuckets(items, ivaTotal);
    var out := Labelled(repr, b, |b|);
    RestAfter(out, CanonFirst(repr, out, |IVA_RATES_CANON|), |out|)
  }

  /** The first loop: each item's amount added to its rate's bucket, rounded to cents. */
  method BucketByRate(ps: seq<(real, real)>) returns (buckets: Dict<real, real>)
    ensures buckets == Buckets(ps, |ps|)
  {
    buckets := [];
    var i := 0;
    while i < |ps|
      invariant i <= |ps|
      invariant buckets == Buckets(ps, i)
      decreases |ps| - i
    {
      var (rate, amt) := ps[i];
      buckets := AddBucket(buckets, rate, amt);
      i := i + 1;
    }
  }

  /** The second loop: the buckets re-keyed by their labels. */
  method LabelBuckets(repr: real -> string, buckets: Dict<real, real>) returns (out: Dict<string, real>)
    ensures out == Labelled(repr, buckets, |buckets|)
  {
    out := [];
    var i := 0;
    while i < |buckets|
      invariant i <= |buckets|
      invariant out == Labelled(repr, buckets, i)
      decreases |buckets| - i
    {
      out := Put(out, RateLabel(repr, buckets[i].0), buckets[i].1);
      i := i + 1;
    }
  }

  /** The third loop: the positive canonical rates, in canonical order. */
  method OrderCanon(repr: real -> string, out: Dict<string, real>) returns (ordered: Dict<string, real>)
    ensures ordered == CanonFirst(repr, out, |IVA_RATES_CANON|)
  {
    ordered := [];
    var c := 0;
    while c < |IVA_RATES_CANON|
      invariant c <= |IVA_RATES_CANON|
      invariant ordered == CanonFirst(repr, out, c)
      decreases |IVA_RATES_CANON| - c
    {
      var rk := RateText(repr, IVA_RATES_CANON[c]);
      if HasKey(out, rk) && Get(out, rk).value > 0.0 {
        ordered := Put(ordered, rk, Get(out, rk).value);
      }
      c := c + 1;
    }
  }

  /** The fourth loop: the remaining positive entries, in bucket order. */
  method AppendRest(out: Dict<string, real>, base: Dict<string, real>) returns (ordered: Dict<string, real>)
    ensures ordered == RestAfter(out, base, |out|)
  {
    ordered := base;
    var i := 0;
    while i < |out|
      invariant i <= |out|
      invariant ordered == RestAfter(out, base, i)
      decreases |out| - i
    {
      var (rk, v) := out[i];
      if !HasKey(ordered, rk) && v > 0.0 {
        ordered := Put(ordered, rk, v);
      }
      i := i + 1;
    }
  }

  method SumIvaByRate(repr: real -> string, items: seq<IvaItem>, ivaTotal: Option<real>) returns (ordered: Dict<string, real>)
    ensures ordered == IvaByRate(repr, items, ivaTotal)
  {
    var buckets := BucketByRate(RatedAmounts(items));
    if buckets == [] && ivaTotal.Some? && ivaTotal.value != 0.0 {
      buckets := Put(buckets, OTHER_RATE, Round2(ivaTotal.value));
    }
    var out := LabelBuckets(repr, buckets);
    ordered := OrderCanon(repr, out);
    ordered := AppendRest(out, ordered);
  }

  /** Every amount listed is positive. */
  predicate AllPositive(d: Dict<string, real>)
  {
    forall p | p in d :: p.1 > 0.0
  }

  /** Every pair of `d` is a pair of `out`. */
  predicate PairsOf(d: Dict<string, real>, out: Dict<string, real>)
  {
    forall p | p in d :: p in out
  }

  /** One pair: its bucket exists afterwards, holds whole cents, and nothing else changes or goes. */
  lemma AddBucketShape(b: Dict<real, real>, rate: real, amt: real)
    requires UniqueKeys(b)
    ensures UniqueKeys(AddBucket(b, rate, amt)) && HasKey(AddBucket(b, rate, amt), rate)
    ensures forall k | HasKey(b, k) :: HasKey(AddBucket(b, rate, amt), k)
    ensures forall p | p in AddBucket(b, rate, amt) :: p in b || (p.0 == rate && IsCents(p.1))
  {
    var v := Round2(Get(b, rate).GetOr(0.0) + amt);
    AddBucketPairs(b, rate, amt);
    PutUnique(b, rate, v);
    PutKeys(b, rate, v);
  }

  /** A pair after adding to a bucket was there before, or is that rate with whole cents. */
  lemma AddBucketPairs(b: Dict<real, real>, rate: real, amt: real)
    ensures forall p | p in AddBucket(b, rate, amt) :: p in b || (p.0 == rate && IsCents(p.1))
  {
    var v := Round2(Get(b, rate).GetOr(0.0) + amt);
    Round2IsCents(Get(b, rate).GetOr(0.0) + amt);
    PutPairs(b, rate, v);
  }

  /** No rate has two buckets. */
  lemma {:induction false} BucketsUnique(ps: seq<(real, real)>, n: nat)
    requires n <= |ps|
    ensures UniqueKeys(Buckets(ps, n))
  {
    if n > 0 {
      BucketsUnique(ps, n - 1);
      AddBucketShape(Buckets(ps, n - 1), ps[n - 1].0, ps[n - 1].1);
    }
  }

  /** Every bucket is the rate of some pair and holds whole cents. */
  lemma BucketsFrom(ps: seq<(real, real)>, n: nat)
    requires n <= |ps|
    ensures forall p | p in Buckets(ps, n) :: IsCents(p.1) && exists j | 0 <= j < n :: p.0 == ps[j].0
  {
    BucketsCents(ps, n);
    BucketsRates(ps, n);
  }

  lemma {:induction false} BucketsCents(ps: seq<(real, real)>, n: nat)
    requires n <= |ps|
    ensures forall p | p in Buckets(ps, n) :: IsCents(p.1)
  {
    if n > 0 {
      BucketsCents(ps, n - 1);
      CentsStep(Buckets(ps, n - 1), ps[n - 1].0, ps[n - 1].1);
    }
  }

  /** Adding to a bucket keeps every bucket in whole cents. */
  lemma CentsStep(b: Dict<real, real>, rate: real, amt: real)
    requires forall p | p in b :: IsCents(p.1)
    ensures forall p | p in AddBucket(b, rate, amt) :: IsCents(p.1)
  {
    AddBucketPairs(b, rate, amt);
  }

  lemma {:induction false} BucketsRates(ps: seq<(real, real)>, n: nat)
    requires n <= |ps|
    ensures forall p | p in Buckets(ps, n) :: exists j | 0 <= j < n :: p.0 == ps[j].0
  {
    if n > 0 {
      BucketsRates(ps, n - 1);
      RatesStep(ps, n, Buckets(ps, n - 1));
    }
  }

  /** Adding the pair at `n - 1` keeps every bucket the rate of one of the first `n` pairs. */
  lemma RatesStep(ps: seq<(real, real)>, n: nat, b: Dict<real, real>)
    requires 0 < n <= |ps|
    requires forall p | p in b :: exists j | 0 <= j < n - 1 :: p.0 == ps[j].0
    ensures forall p | p in AddBucket(b, ps[n - 1].0, ps[n - 1].1) :: exists j | 0 <= j < n :: p.0 == ps[j].0
  {
    var rate := ps[n - 1].0;
    PutPairs(b, rate, Round2(Get(b, rate).GetOr(0.0) + ps[n - 1].1));
    forall p | p in AddBucket(b, rate, ps[n - 1].1)
      ensures exists j | 0 <= j < n :: p.0 == ps[j].0
    {
      if p in b {
        var j :| 0 <= j < n - 1 && p.0 == ps[j].0;
      } else {
        assert p.0 == ps[n - 1].0;
      }
    }
  }

  /** Every pair's rate has a bucket. */
  lemma {:induction false} BucketsCover(ps: seq<(real, real)>, n: nat)
    requires n <= |ps|
    ensures forall j | 0 <= j < n :: HasKey(Buckets(ps, n), ps[j].0)
  {
    if n > 0 {
      var b, rate := Buckets(ps, n - 1), ps[n - 1].0;
      BucketsCover(ps, n - 1);
      PutHasKey(b, rate, Round2(Get(b, rate).GetOr(0.0) + ps[n - 1].1));
    }
  }

  lemma LabelStepShape(repr: real -> string, out: Dict<string, real>, q: (real, real))
    requires UniqueKeys(out)
    ensures UniqueKeys(Put(out, RateLabel(repr, q.0), q.1))
    ensures forall p | p in Put(out, RateLabel(repr, q.0), q.1) :: p in out || p == (RateLabel(repr, q.0), q.1)
  {
    PutPairs(out, RateLabel(repr, q.0), q.1);
    PutUnique(out, RateLabel(repr, q.0), q.1);
  }

  /** Each labelled entry is a bucket under its label; labels are not repeated. */
  lemma {:induction false} LabelledShape(repr: real -> string, b: Dict<real, real>, n: nat)
    requires n <= |b|
    ensures UniqueKeys(Labelled(repr, b, n))
    ensures forall p | p in Labelled(repr, b, n) :: exists j | 0 <= j < n :: p == (RateLabel(repr, b[j].0), b[j].1)
  {
    if n > 0 {
      LabelledShape(repr, b, n - 1);
      LabelStepShape(repr, Labelled(repr, b, n - 1), b[n - 1]);
    }
  }

  lemma CanonStepShape(out: Dict<string, real>, ordered: Dict<string, real>, rk: string)
    requires UniqueKeys(ordered)
    ensures UniqueKeys(CanonStep(out, ordered, rk))
    ensures forall p | p in CanonStep(out, ordered, rk) :: p in ordered || (p in out && p.0 == rk && p.1 > 0.0)
  {
    if HasKey(out, rk) && Get(out, rk).value > 0.0 {
      GetIn(out, rk);
      PutPairs(ordered, rk, Get(out, rk).value);
      PutUnique(ordered, rk, Get(out, rk).value);
    }
  }

  /** The canonical part: positive entries of `out`, each under the label of a canonical rate. */
  lemma {:induction false} CanonFirstShape(repr: real -> string, out: Dict<string, real>, n: nat)
    requires n <= |IVA_RATES_CANON|
    ensures UniqueKeys(CanonFirst(repr, out, n))
    ensures forall p | p in CanonFirst(repr, out, n) ::
      p in out && p.1 > 0.0 && exists i | 0 <= i < n :: p.0 == RateText(repr, IVA_RATES_CANON[i])
  {
    if n > 0 {
      CanonFirstShape(repr, out, n - 1);
      CanonStepShape(out, CanonFirst(repr, out, n - 1), RateText(repr, IVA_RATES_CANON[n - 1]));
    }
  }

  lemma RestStepShape(ordered: Dict<string, real>, rk: string, v: real)
    requires UniqueKeys(ordered)
    ensures UniqueKeys(RestStep(ordered, rk, v)) && ordered <= RestStep(ordered, rk, v)
    ensures forall p | p in RestStep(ordered, rk, v) :: p in ordered || (p == (rk, v) && v > 0.0)
    ensures forall k | HasKey(ordered, k) :: HasKey(RestStep(ordered, rk, v), k)
    ensures v > 0.0 ==> HasKey(RestStep(ordered, rk, v), rk)
  {
    if !HasKey(ordered, rk) && v > 0.0 {
      PutPairs(ordered, rk, v);
      PutUnique(ordered, rk, v);
      PutAbsent(ordered, rk, v);
      PutKeys(ordered, rk, v);
    }
  }

  /** The rest is appended after `base`, and every positive entry of `out` ends up with a key. */
  lemma {:induction false} RestAfterShape(out: Dict<string, real>, base: Dict<string, real>, n: nat)
    requires n <= |out| && UniqueKeys(base)
    ensures UniqueKeys(RestAfter(out, base, n)) && base <= RestAfter(out, base, n)
    ensures forall p | p in RestAfter(out, base, n) :: p in base || (p in out && p.1 > 0.0)
    ensures forall j | 0 <= j < n && out[j].1 > 0.0 :: HasKey(RestAfter(out, base, n), out[j].0)
  {
    if n > 0 {
      RestAfterShape(out, base, n - 1);
      RestStepShape(RestAfter(out, base, n - 1), out[n - 1].0, out[n - 1].1);
    }
  }

  /** A new rate's bucket goes after the buckets already there: buckets keep first-seen order. */
  lemma {:induction false} BucketsFirstSeen(ps: seq<(real, real)>, n: nat)
    requires n <= |ps|
    ensures Keys(Buckets(ps, n)) == FirstSeen(Keys(ps[..n]))
  {
    if n > 0 {
      BucketsFirstSeen(ps, n - 1);
      KeysTakeSnoc(ps, n);
      AddBucketFirstSeen(Buckets(ps, n - 1), Keys(ps[..n - 1]), ps[n - 1].0, ps[n - 1].1);
    }
  }

  lemma AddBucketFirstSeen(b: Dict<real, real>, s: seq<real>, rate: real, amt: real)
    requires Keys(b) == FirstSeen(s)
    ensures Keys(AddBucket(b, rate, amt)) == FirstSeen(s + [rate])
  {
    PutFirstSeen(b, s, rate, Round2(Get(b, rate).GetOr(0.0) + amt));
  }

  /** With items, the buckets are the items' rates in the order each rate first occurs. */
  lemma RateBucketsFirstSeen(items: seq<IvaItem>, ivaTotal: Option<real>)
    requires items != []
    ensures Keys(RateBuckets(items, ivaTotal)) == FirstSeen(Keys(RatedAmounts(items)))
  {
    var ps := RatedAmounts(items);
    BucketsFirstSeen(ps, |ps|);
    assert ps[..|ps|] == ps;
    assert ps[0].0 in Keys(ps);
  }

  /** The label of each bucket, in bucket order. */
  function Labels(repr: real -> string, b: Dict<real, real>): (ls: seq<string>)
    ensures |ls| == |b|
    ensures forall i | 0 <= i < |b| :: ls[i] == RateLabel(repr, b[i].0)
  {
    seq(|b|, i requires 0 <= i < |b| => RateLabel(repr, b[i].0))
  }

  /** Relabelling keeps the bucket order; a label met again keeps its first position. */
  lemma {:induction false} LabelledFirstSeen(repr: real -> string, b: Dict<real, real>, n: nat)
    requires n <= |b|
    ensures Keys(Labelled(repr, b, n)) == FirstSeen(Labels(repr, b)[..n])
  {
    if n > 0 {
      LabelledFirstSeen(repr, b, n - 1);
      var ls := Labels(repr, b);
      assert ls[..n] == ls[..n - 1] + [RateLabel(repr, b[n - 1].0)];
      PutFirstSeen(Labelled(repr, b, n - 1), ls[..n - 1], RateLabel(repr, b[n - 1].0), b[n - 1].1);
    }
  }

  /** The labels of the canonical rates, in the order of `IVA_RATES_CANON`. */
  const CANON_LABELS: seq<string> := ["27", "21", "10.5", "5", "2.5"]

  /** With `str` writing 10.5 and 2.5 as usual, the canonical rates get the labels above. */
  lemma CanonLabelsText(repr: real -> string)
    requires repr(10.5) == "10.5" && repr(2.5) == "2.5"
    ensures forall i | 0 <= i < |IVA_RATES_CANON| :: RateText(repr, IVA_RATES_CANON[i]) == CANON_LABELS[i]
  {
    assert NatToString(27) == "27" && NatToString(21) == "21" && NatToString(5) == "5";
    assert RateText(repr, 10.5) == "10.5" && RateText(repr, 2.5) == "2.5";
  }

  lemma CanonLabelsDistinct()
    ensures forall i, j | 0 <= i < j < |CANON_LABELS| :: CANON_LABELS[i] != CANON_LABELS[j]
  {
    assert CANON_LABELS[0][1] != CANON_LABELS[1][1];
    assert |CANON_LABELS[2]| != |CANON_LABELS[0]| && |CANON_LABELS[2]| != |CANON_LABELS[1]|;
    assert |CANON_LABELS[3]| == 1 && |CANON_LABELS[4]| == 3 && CANON_LABELS[4][1] != CANON_LABELS[2][1];
    assert CANON_LABELS[3][0] != CANON_LABELS[0][0] && CANON_LABELS[3][0] != CANON_LABELS[1][0];
  }

  /**
   * The reference order of the canonical part: the first `n` canonical labels, in canonical
   * order, keeping those with a positive amount in `out`.
   */
  function CanonKeys(out: Dict<string, real>, n: nat): (ks: seq<string>)
    requires n <= |CANON_LABELS|
    ensures forall k :: k in ks <==> k in CANON_LABELS[..n] && HasKey(out, k) && Get(out, k).value > 0.0
  {
    if n == 0 then []
    else
      var rk := CANON_LABELS[n - 1];
      assert CANON_LABELS[..n] == CANON_LABELS[..n - 1] + [rk];
      CanonKeys(out, n - 1) + (if HasKey(out, rk) && Get(out, rk).value > 0.0 then [rk] else [])
  }

  /** The canonical loop lists the positive canonical labels in the order 27, 21, 10.5, 5, 2.5. */
  lemma {:induction false} CanonFirstKeys(repr: real -> string, out: Dict<string, real>, n: nat)
    requires repr(10.5) == "10.5" && repr(2.5) == "2.5"
    requires n <= |IVA_RATES_CANON|
    ensures Keys(CanonFirst(repr, out, n)) == CanonKeys(out, n)
  {
    if n > 0 {
      CanonFirstKeys(repr, out, n - 1);
      CanonLabelsText(repr);
      var rk := CANON_LABELS[n - 1];
      assert RateText(repr, IVA_RATES_CANON[n - 1]) == rk;
      if HasKey(out, rk) && Get(out, rk).value > 0.0 {
        CanonLabelsDistinct();
        assert rk !in CANON_LABELS[..n - 1];
        PutKeys(CanonFirst(repr, out, n - 1), rk, Get(out, rk).value);
      }
    }
  }

  /**
   * The reference order of the rest: the labels among the first `n` entries of `out` that have
   * a positive amount and are not canonical, in the order of `out`.
   */
  function RestKeys(out: Dict<string, real>, n: nat): (ks: seq<string>)
    requires n <= |out|
    ensures forall k | k in ks :: exists j | 0 <= j < n :: out[j].0 == k
  {
    if n == 0 then []
    else RestKeys(out, n - 1) + (if out[n - 1].1 > 0.0 && out[n - 1].0 !in CANON_LABELS then [out[n - 1].0] else [])
  }

  /** One step of the second loop appends the entry's label exactly when `RestKeys` takes it. */
  lemma RestKeysStep(out: Dict<string, real>, base: Dict<string, real>, ordered: Dict<string, real>, n: nat)
    requires 0 < n <= |out| && UniqueKeys(out)
    requires forall j | 0 <= j < |out| :: HasKey(base, out[j].0) <==> out[j].0 in CANON_LABELS && out[j].1 > 0.0
    requires Keys(ordered) == Keys(base) + RestKeys(out, n - 1)
    ensures Keys(RestStep(ordered, out[n - 1].0, out[n - 1].1)) == Keys(base) + RestKeys(out, n)
  {
    var rk, v := out[n - 1].0, out[n - 1].1;
    assert rk !in RestKeys(out, n - 1) by {
      forall j | 0 <= j < n - 1
        ensures out[j].0 != rk
      {
      }
    }
    assert HasKey(ordered, rk) <==> HasKey(base, rk);
    if !HasKey(ordered, rk) && v > 0.0 {
      PutKeys(ordered, rk, v);
      ConcatAssoc(Keys(base), RestKeys(out, n - 1), [rk]);
    } else {
      ConcatEmpty(RestKeys(out, n - 1));
    }
  }

  /** After a base holding exactly the positive canonical entries, the rest follows in order. */
  lemma {:induction false} RestAfterKeys(out: Dict<string, real>, base: Dict<string, real>, n: nat)
    requires n <= |out| && UniqueKeys(out)
    requires forall j | 0 <= j < |out| :: HasKey(base, out[j].0) <==> out[j].0 in CANON_LABELS && out[j].1 > 0.0
    ensures Keys(RestAfter(out, base, n)) == Keys(base) + RestKeys(out, n)
  {
    if n == 0 {
      ConcatEmpty(Keys(base));
    } else {
      RestAfterKeys(out, base, n - 1);
      RestKeysStep(out, base, RestAfter(out, base, n - 1), n);
    }
  }

  /** The canonical part holds an entry of `out` exactly when it is canonical and positive. */
  lemma CanonFirstHolds(repr: real -> string, out: Dict<string, real>, n: nat)
    requires repr(10.5) == "10.5" && repr(2.5) == "2.5"
    requires n <= |IVA_RATES_CANON| && UniqueKeys(out)
    ensures forall j | 0 <= j < |out| ::
      HasKey(CanonFirst(repr, out, n), out[j].0) <==> out[j].0 in CANON_LABELS[..n] && out[j].1 > 0.0
  {
    CanonFirstKeys(repr, out, n);
    forall j | 0 <= j < |out|
      ensures Get(out, out[j].0) == Some(out[j].1)
    {
      assert out[j] in out;
      GetUnique(out, out[j].0, out[j].1);
    }
  }

  /**
   * The order of the grouping: first the canonical labels 27, 21, 10.5, 5, 2.5 that have a
   * positive amount, then the other labels with a positive amount in the order of `out`, which
   * is the order in which their rates first occur among the items.
   */
  lemma IvaByRateOrder(repr: real -> string, items: seq<IvaItem>, ivaTotal: Option<real>)
    requires repr(10.5) == "10.5" && repr(2.5) == "2.5"
    ensures var b := RateBuckets(items, ivaTotal);
      var out := Labelled(repr, b, |b|);
      && Keys(IvaByRate(repr, items, ivaTotal)) == CanonKeys(out, |CANON_LABELS|) + RestKeys(out, |out|)
      && Keys(out) == FirstSeen(Labels(repr, b))
      && (items != [] ==> Keys(b) == FirstSeen(Keys(RatedAmounts(items))))
  {
    var b := RateBuckets(items, ivaTotal);
    var out := Labelled(repr, b, |b|);
    LabelledShape(repr, b, |b|);
    CanonFirstHolds(repr, out, |IVA_RATES_CANON|);
    assert CANON_LABELS[..|CANON_LABELS|] == CANON_LABELS;
    CanonFirstKeys(repr, out, |IVA_RATES_CANON|);
    RestAfterKeys(out, CanonFirst(repr, out, |IVA_RATES_CANON|), |out|);
    LabelledFirstSeen(repr, b, |b|);
    assert Labels(repr, b)[..|b|] == Labels(repr, b);
    if items != [] {
      RateBucketsFirstSeen(items, ivaTotal);
    }
  }

  /**
   * The grouping by rate lists each label once, only with positive amounts, each one the amount
   * of the bucket under that label; the canonical part comes first and every bucket with a
   * positive amount is listed. `IvaByRateOrder` gives the order.
   */
  lemma IvaByRateShape(repr: real -> string, items: seq<IvaItem>, ivaTotal: Option<real>)
    ensures var b := RateBuckets(items, ivaTotal);
      var out := Labelled(repr, b, |b|);
      var r := IvaByRate(repr, items, ivaTotal);
      && AllPositive(r) && UniqueKeys(r) && PairsOf(r, out) && UniqueKeys(out)
      && CanonFirst(repr, out, |IVA_RATES_CANON|) <= r
      && (forall p | p in CanonFirst(repr, out, |IVA_RATES_CANON|) ::
            exists i | 0 <= i < |IVA_RATES_CANON| :: p.0 == RateText(repr, IVA_RATES_CANON[i]))
      && (forall p | p in out && p.1 > 0.0 :: HasKey(r, p.0))
      && (forall p | p in out :: exists j | 0 <= j < |b| :: p == (RateLabel(repr, b[j].0), b[j].1))
  {
    var b := RateBuckets(items, ivaTotal);
    var out := Labelled(repr, b, |b|);
    LabelledShape(repr, b, |b|);
    CanonFirstShape(repr, out, |IVA_RATES_CANON|);
    RestAfterShape(out, CanonFirst(repr, out, |IVA_RATES_CANON|), |out|);
    forall p | p in out && p.1 > 0.0
      ensures HasKey(IvaByRate(repr, items, ivaTotal), p.0)
    {
      var j :| 0 <= j < |out| && out[j] == p;
    }
  }

  /**
   * Every listed amount is positive, in whole cents, and listed under the label of the rate of
   * one of the items; with no items, the only entry possible is "otros" holding the rounded
   * `iva_total`.
   */
  lemma IvaByRateFromItems(repr: real -> string, items: seq<IvaItem>, ivaTotal: Option<real>)
    ensures forall p | p in IvaByRate(repr, items, ivaTotal) ::
      && p.1 > 0.0 && IsCents(p.1)
      && ((exists j | 0 <= j < |items| :: p.0 == RateLabel(repr, RateOf(items[j])))
          || (items == [] && ivaTotal.Some? && p == ("otros", Round2(ivaTotal.value))))
  {
    var b := RateBuckets(items, ivaTotal);
    var out := Labelled(repr, b, |b|);
    IvaByRateShape(repr, items, ivaTotal);
    forall p | p in IvaByRate(repr, items, ivaTotal)
      ensures IsCents(p.1)
      ensures (exists j | 0 <= j < |items| :: p.0 == RateLabel(repr, RateOf(items[j])))
              || (items == [] && ivaTotal.Some? && p == ("otros", Round2(ivaTotal.value)))
    {
      assert p in out;
      var j :| 0 <= j < |b| && p == (RateLabel(repr, b[j].0), b[j].1);
      assert b[j] in b;
      RateBucketFrom(items, ivaTotal, b[j]);
    }
  }

  /** A bucket holds whole cents and is the rate of an item, or the rate 999 of `iva_total` alone. */
  lemma RateBucketFrom(items: seq<IvaItem>, ivaTotal: Option<real>, q: (real, real))
    requires q in RateBuckets(items, ivaTotal)
    ensures IsCents(q.1)
    ensures (exists k | 0 <= k < |items| :: q.0 == RateOf(items[k]))
            || (items == [] && ivaTotal.Some? && q == (OTHER_RATE, Round2(ivaTotal.value)))
  {
    var ps := RatedAmounts(items);
    var b0 := Buckets(ps, |items|);
    BucketsFrom(ps, |ps|);
    if q in b0 {
      var k :| 0 <= k < |ps| && q.0 == ps[k].0;
      assert q.0 == RateOf(items[k]);
    } else {
      if items != [] {
        BucketsCover(ps, |ps|);
      }
      Round2Near(ivaTotal.value);
    }
  }

  /** The canonical loop adds nothing when no canonical label is a key. */
  lemma {:induction false} CanonFirstAbsent(repr: real -> string, out: Dict<string, real>, n: nat)
    requires n <= |IVA_RATES_CANON|
    requires forall i | 0 <= i < n :: !HasKey(out, RateText(repr, IVA_RATES_CANON[i]))
    ensures CanonFirst(repr, out, n) == []
  {
    if n > 0 {
      CanonFirstAbsent(repr, out, n - 1);
    }
  }

  /**
   * With no items, the grouping is "otros" holding the rounded `iva_total` when that is
   * positive, and empty otherwise (no total, a zero total or a negative one).
   */
  lemma IvaByRateNoItems(repr: real -> string, ivaTotal: Option<real>)
    requires repr(10.5) == "10.5" && repr(2.5) == "2.5"
    ensures IvaByRate(repr, [], ivaTotal) ==
      if ivaTotal.Some? && Round2(ivaTotal.value) > 0.0 then [("otros", Round2(ivaTotal.value))] else []
  {
    assert Buckets(RatedAmounts([]), 0) == [];
    var b := RateBuckets([], ivaTotal);
    var out := Labelled(repr, b, |b|);
    if ivaTotal.Some? && ivaTotal.value != 0.0 {
      var v := Round2(ivaTotal.value);
      assert b == [(OTHER_RATE, v)];
      assert Labelled(repr, b, 0) == [] && RateLabel(repr, b[0].0) == "otros";
      assert out == [("otros", v)];
      forall i | 0 <= i < |IVA_RATES_CANON|
        ensures !HasKey(out, RateText(repr, IVA_RATES_CANON[i]))
      {
        var t := RateText(repr, IVA_RATES_CANON[i]);
        assert t != "otros" by {
          if IVA_RATES_CANON[i].Floor as real == IVA_RATES_CANON[i] {
            assert AllDigits(t) && !IsDigit('o');
          }
        }
        assert Keys(out) == ["otros"];
      }
      CanonFirstAbsent(repr, out, |IVA_RATES_CANON|);
      assert RestAfter(out, [], 1) == RestStep([], "otros", v);
    } else {
      assert b == [] && out == [];
      CanonFirstAbsent(repr, out, |IVA_RATES_CANON|);
      if ivaTotal.Some? {
        assert Round2(0.0) == 0.0 by { Round2Idempotent(0.0); }
      }
    }
  }

  /** An item whose rate is a whole number, with or without "%", goes to that rate's bucket. */
  lemma RateOfWhole(digits: string, monto: real)
    requires digits != [] && AllDigits(digits)
    ensures RateOf(IvaItem(Some(digits), monto)) == Snap(DigitsValue(digits) as real)
    ensures RateOf(IvaItem(Some(digits + "%"), monto)) == Snap(DigitsValue(digits) as real)
  {
    ParseAliquotaWhole(digits);
  }

  lemma Example21(it: IvaItem)
    requires it == IvaItem(Some("21"), 100.0)
    ensures RateOf(it) == 21.0
  {
    RateOfWhole("21", 100.0);
    assert DigitsValue("21") == 21;
  }

  lemma Example27(it: IvaItem)
    requires it == IvaItem(Some("27%"), 50.0)
    ensures RateOf(it) == 27.0
  {
    RateOfWhole("27", 50.0);
    assert "27" + "%" == "27%";
    assert DigitsValue("27") == 27;
  }

  /** The two example items read as 21% of 100 and 27% of 50. */
  lemma ExampleRates(items: seq<IvaItem>)
    requires items == [IvaItem(Some("21"), 100.0), IvaItem(Some("27%"), 50.0)]
    ensures RatedAmounts(items) == [(21.0, 100.0), (27.0, 50.0)]
  {
    RatedAmountsTwo(items);
    Example21(items[0]);
    Example27(items[1]);
  }

  lemma RatedAmountsTwo(items: seq<IvaItem>)
    requires |items| == 2
    ensures RatedAmounts(items) == [(RateOf(items[0]), items[0].monto), (RateOf(items[1]), items[1].monto)]
  {
  }

  lemma ExampleBuckets(ps: seq<(real, real)>)
    requires ps == [(21.0, 100.0), (27.0, 50.0)]
    ensures Buckets(ps, 2) == [(21.0, 100.0), (27.0, 50.0)]
  {
    var e: Dict<real, real> := [];
    assert Buckets(ps, 0) == e;
    assert Get(e, 21.0) == None;
    Round2Cents(100.0);
    Round2Cents(50.0);
    var b1 := Buckets(ps, 1);
    assert b1 == Put(e, 21.0, Round2(0.0 + 100.0));
    assert b1 == [(21.0, 100.0)];
    assert Keys(b1) == [21.0];
    assert Get(b1, 27.0) == None;
    assert Buckets(ps, 2) == Put(b1, 27.0, Round2(0.0 + 50.0));
    PutAbsent(b1, 27.0, 50.0);
  }

  lemma ExampleLabelled(repr: real -> string, b: Dict<real, real>)
    requires b == [(21.0, 100.0), (27.0, 50.0)]
    ensures Labelled(repr, b, 2) == [("21", 100.0), ("27", 50.0)]
  {
    var e: Dict<string, real> := [];
    assert NatToString(21) == "21" && NatToString(27) == "27";
    assert RateLabel(repr, 21.0) == "21" && RateLabel(repr, 27.0) == "27";
    assert Labelled(repr, b, 0) == e;
    var l1 := Labelled(repr, b, 1);
    assert l1 == Put(e, "21", 100.0);
    assert l1 == [("21", 100.0)];
    assert Keys(l1) == ["21"];
    assert Labelled(repr, b, 2) == Put(l1, "27", 50.0);
    PutAbsent(l1, "27", 50.0);
  }

  lemma ExampleCanonTwo(repr: real -> string, out: Dict<string, real>)
    requires out == [("21", 100.0), ("27", 50.0)]
    ensures CanonFirst(repr, out, 2) == [("27", 50.0), ("21", 100.0)]
  {
    var e: Dict<string, real> := [];
    assert NatToString(21) == "21" && NatToString(27) == "27";
    assert RateText(repr, 27.0) == "27" && RateText(repr, 21.0) == "21";
    assert Keys(out) == ["21", "27"];
    assert Get(out, "27") == Some(50.0) && Get(out, "21") == Some(100.0);
    assert CanonFirst(repr, out, 0) == e;
    var c1 := CanonFirst(repr, out, 1);
    assert c1 == Put(e, "27", 50.0);
    assert c1 == [("27", 50.0)];
    assert Keys(c1) == ["27"];
    assert CanonFirst(repr, out, 2) == Put(c1, "21", 100.0);
    PutAbsent(c1, "21", 100.0);
  }

  lemma ExampleOrdered(repr: real -> string, out: Dict<string, real>)
    requires repr(10.5) == "10.5" && repr(2.5) == "2.5"
    requires out == [("21", 100.0), ("27", 50.0)]
    ensures RestAfter(out, CanonFirst(repr, out, 5), 2) == [("27", 50.0), ("21", 100.0)]
  {
    ExampleCanonTwo(repr, out);
    var c2 := CanonFirst(repr, out, 2);
    assert NatToString(5) == "5";
    assert RateText(repr, 10.5) == "10.5" && RateText(repr, 5.0) == "5" && RateText(repr, 2.5) == "2.5";
    assert Keys(out) == ["21", "27"];
    assert !HasKey(out, "10.5") && !HasKey(out, "5") && !HasKey(out, "2.5");
    assert CanonFirst(repr, out, 3) == c2;
    assert CanonFirst(repr, out, 4) == c2;
    assert CanonFirst(repr, out, 5) == c2;
    assert Keys(c2) == ["27", "21"];
    assert RestAfter(out, c2, 1) == c2;
  }

  /** 21% of 100 and 27% of 50 are listed with 27 first, although the 21% item comes first. */
  lemma IvaByRateExample(repr: real -> string)
    requires repr(10.5) == "10.5" && repr(2.5) == "2.5"
    ensures IvaByRate(repr, [IvaItem(Some("21"), 100.0), IvaItem(Some("27%"), 50.0)], None)
      == [("27", 50.0), ("21", 100.0)]
  {
    var items := [IvaItem(Some("21"), 100.0), IvaItem(Some("27%"), 50.0)];
    ExampleRates(items);
    ExampleBuckets(RatedAmounts(items));
    var b := RateBuckets(items, None);
    ExampleLabelled(repr, b);
    ExampleOrdered(repr, Labelled(repr, b, |b|));
  }

  // ---------------------------------------------------------------------------------------
  // _split_perc_ret
  // ---------------------------------------------------------------------------------------

  /** The keys that go to `percepciones`. */
  predicate IsPercKey(k: string)
  {
    "percepcion_" <= k || k == "impuesto_combustible" || k == "impuestos_y_sellados"
  }

  /** The keys that go to `retenciones`, unless they already went to `percepciones`. */
  predicate IsRetKey(k: string)
  {
    "retencion_" <= k
  }

  /** The pair of dictionaries `(percepciones, retenciones)`. */
  type Split = (Dict<string, real>, Dict<string, real>)

  /** One entry of the loop: skipped when empty or zero, else filed by its key. */
  function SplitStep(acc: Split, k: string, v: Option<real>): Split
  {
    if v.None? || v.value == 0.0 then acc
    else if IsPercKey(k) then (Put(acc.0, k, v.value), acc.1)
    else if IsRetKey(k) then (acc.0, Put(acc.1, k, v.value))
    else acc
  }

  /** The two dictionaries after the first `n` entries of `tributos`. */
  function SplitFold(tributos: Dict<string, Option<real>>, n: nat): Split
    requires n <= |tributos|
  {
    if n == 0 then ([], []) else SplitStep(SplitFold(tributos, n - 1), tributos[n - 1].0, tributos[n - 1].1)
  }

  /** `_split_perc_ret(tributos)`. */
  function SplitPercRet(tributos: Dict<string, Option<real>>): Split
  {
    SplitFold(tributos, |tributos|)
  }

  /** The loop of `_split_perc_ret`. */
  method SplitPercRetLoop(tributos: Dict<string, Option<real>>) returns (percepciones: Dict<string, real>, retenciones: Dict<string, real>)
    ensures (percepciones, retenciones) == SplitPercRet(tributos)
  {
    percepciones, retenciones := [], [];
    var i := 0;
    while i < |tributos|
      invariant i <= |tributos|
      invariant (percepciones, retenciones) == SplitFold(tributos, i)
      decreases |tributos| - i
    {
      var (k, v) := tributos[i];
      if v.Some? && v.value != 0.0 {
        if IsPercKey(k) {
          percepciones := Put(percepciones, k, v.value);
        } else if IsRetKey(k) {
          retenciones := Put(retenciones, k, v.value);
        }
      }
      i := i + 1;
    }
  }

  /** What a split holds: only nonzero amounts of `tributos`, each filed under the right side. */
  predicate SplitSound(tributos: Dict<string, Option<real>>, acc: Split)
  {
    && UniqueKeys(acc.0) && UniqueKeys(acc.1)
    && (forall p | p in acc.0 :: IsPercKey(p.0) && p.1 != 0.0 && (p.0, Some(p.1)) in tributos)
    && (forall p | p in acc.1 :: !IsPercKey(p.0) && IsRetKey(p.0) && p.1 != 0.0 && (p.0, Some(p.1)) in tributos)
  }

  lemma SplitStepSound(tributos: Dict<string, Option<real>>, acc: Split, k: string, v: Option<real>)
    requires SplitSound(tributos, acc) && (k, v) in tributos
    ensures SplitSound(tributos, SplitStep(acc, k, v))
  {
    if v.Some? && v.value != 0.0 {
      if IsPercKey(k) {
        PutPairs(acc.0, k, v.value);
        PutUnique(acc.0, k, v.value);
      } else if IsRetKey(k) {
        PutPairs(acc.1, k, v.value);
        PutUnique(acc.1, k, v.value);
      }
    }
  }

  lemma {:induction false} SplitFoldSound(tributos: Dict<string, Option<real>>, n: nat)
    requires n <= |tributos|
    ensures SplitSound(tributos, SplitFold(tributos, n))
  {
    if n > 0 {
      SplitFoldSound(tributos, n - 1);
      assert tributos[n - 1] in tributos;
      SplitStepSound(tributos, SplitFold(tributos, n - 1), tributos[n - 1].0, tributos[n - 1].1);
    }
  }

  /** Every nonzero entry among the first `n` is filed, under its own key with its own amount. */
  lemma {:induction false} SplitFoldComplete(tributos: Dict<string, Option<real>>, n: nat)
    requires n <= |tributos| && UniqueKeys(tributos)
    ensures forall j | 0 <= j < n && tributos[j].1.Some? && tributos[j].1.value != 0.0 ::
      && (IsPercKey(tributos[j].0) ==> (tributos[j].0, tributos[j].1.value) in SplitFold(tributos, n).0)
      && (!IsPercKey(tributos[j].0) && IsRetKey(tributos[j].0) ==> (tributos[j].0, tributos[j].1.value) in SplitFold(tributos, n).1)
  {
    if n > 0 {
      SplitFoldComplete(tributos, n - 1);
      var acc := SplitFold(tributos, n - 1);
      var (k, v) := tributos[n - 1];
      forall j | 0 <= j < n && tributos[j].1.Some? && tributos[j].1.value != 0.0
        ensures IsPercKey(tributos[j].0) ==> (tributos[j].0, tributos[j].1.value) in SplitFold(tributos, n).0
        ensures !IsPercKey(tributos[j].0) && IsRetKey(tributos[j].0) ==> (tributos[j].0, tributos[j].1.value) in SplitFold(tributos, n).1
      {
        var q := (tributos[j].0, tributos[j].1.value);
        if j < n - 1 {
          assert tributos[j].0 != k;
          if v.Some? && v.value != 0.0 {
            if IsPercKey(tributos[j].0) && IsPercKey(k) {
              PutKeeps(acc.0, k, v.value, q);
            } else if !IsPercKey(tributos[j].0) && IsRetKey(tributos[j].0) && !IsPercKey(k) && IsRetKey(k) {
              PutKeeps(acc.1, k, v.value, q);
            }
          }
        } else {
          PutPairs(acc.0, k, v.value);
          PutPairs(acc.1, k, v.value);
        }
      }
    }
  }

  /**
   * `percepciones` holds exactly the nonzero entries with a perception key, and `retenciones`
   * exactly the nonzero entries with a retention key that is not a perception key; no key is on
   * both sides.
   */
  lemma SplitPercRetExact(tributos: Dict<string, Option<real>>)
    requires UniqueKeys(tributos)
    ensures var (perc, ret) := SplitPercRet(tributos);
      && UniqueKeys(perc) && UniqueKeys(ret)
      && (forall p | p in perc :: IsPercKey(p.0) && p.1 != 0.0 && (p.0, Some(p.1)) in tributos)
      && (forall p | p in ret :: !IsPercKey(p.0) && IsRetKey(p.0) && p.1 != 0.0 && (p.0, Some(p.1)) in tributos)
      && (forall k, v | (k, Some(v)) in tributos && v != 0.0 && IsPercKey(k) :: (k, v) in perc)
      && (forall k, v | (k, Some(v)) in tributos && v != 0.0 && !IsPercKey(k) && IsRetKey(k) :: (k, v) in ret)
      && (forall k | HasKey(perc, k) :: !HasKey(ret, k))
  {
    var (perc, ret) := SplitPercRet(tributos);
    SplitFoldSound(tributos, |tributos|);
    SplitFoldComplete(tributos, |tributos|);
    forall k, v | (k, Some(v)) in tributos && v != 0.0 && IsPercKey(k)
      ensures (k, v) in perc
    {
      var j :| 0 <= j < |tributos| && tributos[j] == (k, Some(v));
    }
    forall k, v | (k, Some(v)) in tributos && v != 0.0 && !IsPercKey(k) && IsRetKey(k)
      ensures (k, v) in ret
    {
      var j :| 0 <= j < |tributos| && tributos[j] == (k, Some(v));
    }
    forall k | HasKey(perc, k)
      ensures !HasKey(ret, k)
    {
      var i :| 0 <= i < |perc| && perc[i].0 == k;
      assert perc[i] in perc;
      forall j | 0 <= j < |ret|
        ensures ret[j].0 != k
      {
        assert ret[j] in ret;
      }
    }
  }

  /** A schema with no amounts gives nothing on either side. */
  lemma {:induction false} SplitFoldEmpty(tributos: Dict<string, Option<real>>, n: nat)
    requires n <= |tributos|
    requires forall j | 0 <= j < |tributos| :: tributos[j].1.None?
    ensures SplitFold(tributos, n) == ([], [])
  {
    if n > 0 {
      SplitFoldEmpty(tributos, n - 1);
    }
  }

  /** The empty schema, every bucket `None`, gives no perceptions and no retentions. */
  lemma SplitPercRetNothing()
    ensures SplitPercRet(FixedInit()) == ([], [])
  {
    SplitFoldEmpty(FixedInit(), |FixedInit()|);
  }

  // ---------------------------------------------------------------------------------------
  // build_minimal_payload
  // ---------------------------------------------------------------------------------------

  /** The dictionary `build_minimal_payload` returns: exactly these eight keys. */
  datatype Payload = Payload(
    numero: string,
    fecha: string,
    cuit: string,
    subtotal: real,
    total: real,
    iva: Dict<string, real>,
    percepciones: Dict<string, real>,
    retenciones: Dict<string, real>)

  /** `iva_total`: the rounded sum of the grouping when it lists something, else the record's `iva`. */
  function PayloadIvaTotal(ivaPorTasa: Dict<string, real>, full: Raw): real
  {
    if ivaPorTasa != [] then Round2(SumValues(ivaPorTasa)) else full.iva.GetOr(0.0)
  }

  /** `perc_total`: the rounded sum of the perceptions, 0 when there are none. */
  function PayloadPercTotal(percepciones: Dict<string, real>): real
  {
    if percepciones != [] then Round2(SumValues(percepciones)) else 0.0
  }

  /** The subtotal before the final rounding: the record's, or derived from the total when absent. */
  function DerivedSubtotal(full: Raw, total: real, ivaTotal: real, percTotal: real): real
  {
    if full.subtotal.Some? then full.subtotal.value
    else
      var s := if total != 0.0 then Round2(total - ivaTotal - percTotal) else 0.0;
      if Abs(s) < 0.000001 then 0.0 else s
  }

  /** The payload built from the record, its IVA grouping and its fixed tax schema. */
  function AssemblePayload(full: Raw, preferCuit: string, ivaPorTasa: Dict<string, real>, tribNorm: Dict<string, Option<real>>): Payload
  {
    var total := full.total.GetOr(0.0);
    var ivaTotal := PayloadIvaTotal(ivaPorTasa, full);
    var split := SplitPercRet(tribNorm);
    var percTotal := PayloadPercTotal(split.0);
    var cuit := if preferCuit == "proveedor" then full.cuitProveedor else full.cuitCliente;
    Payload(
      full.numero.GetOr(""),
      ToIsoDate(full.fecha).GetOr(""),
      cuit.GetOr(""),
      Round2(DerivedSubtotal(full, total, ivaTotal, percTotal)),
      Round2(total),
      ivaPorTasa, split.0, split.1)
  }

  /** `build_minimal_payload(full, prefer_cuit)`, with `repr` standing for `str` of a float. */
  function MinimalPayload(rx: Regexes, repr: real -> string, full: Raw, preferCuit: string): Payload
  {
    AssemblePayload(full, preferCuit, IvaByRate(repr, full.ivaDetalle, full.iva), FixedSchema(rx, full))
  }

  /** The payload assembled from the three loops of the normalizer. */
  method BuildMinimalPayload(rx: Regexes, repr: real -> string, full: Raw, preferCuit: string) returns (p: Payload)
    ensures p == MinimalPayload(rx, repr, full, preferCuit)
  {
    var numero := full.numero.GetOr("");
    var fecha := ToIsoDate(full.fecha).GetOr("");
    var cuit := (if preferCuit == "proveedor" then full.cuitProveedor else full.cuitCliente).GetOr("");
    var total := full.total.GetOr(0.0);
    var ivaPorTasa := SumIvaByRate(repr, full.ivaDetalle, full.iva);
    var ivaTotal := PayloadIvaTotal(ivaPorTasa, full);
    var tribNorm := NormalizeFixedSchema(rx, full);
    var perc, ret := SplitPercRetLoop(tribNorm);
    var percTotal := PayloadPercTotal(perc);
    var subtotal := DerivedSubtotal(full, total, ivaTotal, percTotal);
    p := Payload(numero, fecha, cuit, Round2(subtotal), Round2(total), ivaPorTasa, perc, ret);
  }

  /** A whole number of cents closer to zero than a millionth is zero. */
  lemma CentsNearZero(x: real)
    requires IsCents(x) && Abs(x) < 0.000001
    ensures x == 0.0
  {
    var n := (x * 100.0).Floor;
    assert n as real == x * 100.0;
    assert -1 < n < 1;
  }

  /**
   * Without a subtotal in the record, the subtotal is `round(total - iva_total - perc_total, 2)`
   * when the total is nonzero and 0 otherwise: the snap below 1e-6 never changes a rounded
   * amount, and the subtotal balances the total to within half a cent.
   */
  lemma DerivedSubtotalRule(full: Raw, total: real, ivaTotal: real, percTotal: real)
    requires full.subtotal.None?
    ensures Round2(DerivedSubtotal(full, total, ivaTotal, percTotal))
      == if total != 0.0 then Round2(total - ivaTotal - percTotal) else 0.0
    ensures total != 0.0 ==>
      -0.005 <= Round2(DerivedSubtotal(full, total, ivaTotal, percTotal)) + ivaTotal + percTotal - total <= 0.005
  {
    if total != 0.0 {
      var s := Round2(total - ivaTotal - percTotal);
      Round2Near(total - ivaTotal - percTotal);
      if Abs(s) < 0.000001 {
        CentsNearZero(s);
      }
      Round2Idempotent(total - ivaTotal - percTotal);
    } else {
      Round2Cents(0.0);
    }
  }

  /** The payload's subtotal: the record's, rounded, or the one derived from the total. */
  lemma PayloadSubtotal(full: Raw, preferCuit: string, ivaPorTasa: Dict<string, real>, tribNorm: Dict<string, Option<real>>)
    ensures var p := AssemblePayload(full, preferCuit, ivaPorTasa, tribNorm);
      var total := full.total.GetOr(0.0);
      var ivaTotal := PayloadIvaTotal(ivaPorTasa, full);
      var percTotal := PayloadPercTotal(SplitPercRet(tribNorm).0);
      && p.subtotal == (if full.subtotal.Some? then Round2(full.subtotal.value)
                        else if total != 0.0 then Round2(total - ivaTotal - percTotal) else 0.0)
      && (full.subtotal.None? && total != 0.0 ==> -0.005 <= p.subtotal + ivaTotal + percTotal - total <= 0.005)
  {
    if full.subtotal.None? {
      var total := full.total.GetOr(0.0);
      DerivedSubtotalRule(full, total, PayloadIvaTotal(ivaPorTasa, full), PayloadPercTotal(SplitPercRet(tribNorm).0));
    }
  }

  /**
   * Missing strings become "", the CUIT is the provider's unless the client's is asked for, the
   * date is the ISO form of the record's, the amounts are whole cents, and the three maps are
   * the grouping and the two sides of the split.
   */
  lemma PayloadFields(full: Raw, preferCuit: string, ivaPorTasa: Dict<string, real>, tribNorm: Dict<string, Option<real>>)
    ensures var p := AssemblePayload(full, preferCuit, ivaPorTasa, tribNorm);
      && p.numero == (if full.numero.Some? then full.numero.value else "")
      && p.cuit == (if preferCuit == "proveedor" then full.cuitProveedor.GetOr("") else full.cuitCliente.GetOr(""))
      && (ToIsoDate(full.fecha).Some? ==> p.fecha == ToIsoDate(full.fecha).value)
      && (ToIsoDate(full.fecha).None? ==> p.fecha == "")
      && IsCents(p.subtotal) && IsCents(p.total)
      && (full.total.None? ==> p.total == 0.0)
      && p.iva == ivaPorTasa && (p.percepciones, p.retenciones) == SplitPercRet(tribNorm)
  {
    var total := full.total.GetOr(0.0);
    Round2Near(total);
    Round2Near(DerivedSubtotal(full, total, PayloadIvaTotal(ivaPorTasa, full), PayloadPercTotal(SplitPercRet(tribNorm).0)));
    if full.total.None? {
      Round2Cents(0.0);
    }
  }

  /** A record with nothing in it gives empty strings, zero amounts and empty maps. */
  lemma PayloadOfEmptyRecord(rx: Regexes, repr: real -> string, full: Raw, preferCuit: string)
    requires repr(10.5) == "10.5" && repr(2.5) == "2.5"
    requires full.numero.None? && full.fecha.None? && full.cuitProveedor.None? && full.cuitCliente.None?
    requires full.subtotal.None? && full.iva.None? && full.total.None? && full.percepcionesTotal.None?
    requires full.ivaDetalle == [] && full.percepcionesDetalle == []
    ensures MinimalPayload(rx, repr, full, preferCuit) == Payload("", "", "", 0.0, 0.0, [], [], [])
  {
    IvaByRateNoItems(repr, None);
    assert SchemaItems(full) == [];
    assert FixedSchema(rx, full) == FixedInit();
    SplitPercRetNothing();
    Round2Cents(0.0);
  }

  // ---------------------------------------------------------------------------------------
  // validate_and_repair
  // ---------------------------------------------------------------------------------------

  /** The warning for a total filled in from its parts. */
  const TOTAL_ESTIMATED: string := "TOTAL estimado = SUBTOTAL + IVA + PERCEPCIONES"

  /** The warning for a total that does not match its parts. */
  function MismatchWarning(repr: real -> string, tot: real, comp: real): string
  {
    "Diferencia contable: total(" + repr(tot) + ") != subtotal+iva+percepciones(" + repr(comp) + ")"
  }

  /** `round(sub + iva + perc, 2)`, a missing part counting as 0. */
  function ComputedTotal(r: Raw): real
  {
    Round2(r.subtotal.GetOr(0.0) + r.iva.GetOr(0.0) + r.percepcionesTotal.GetOr(0.0))
  }

  /** The record after `validate_and_repair(out, tol)`. */
  function Repaired(repr: real -> string, tol: real, r: Raw): Raw
  {
    var comp := ComputedTotal(r);
    var w := r.warnings.GetOr([]);
    if r.total.None? then r.(total := Some(comp), warnings := Some(w + [TOTAL_ESTIMATED]))
    else if Abs(r.total.value - comp) > tol then r.(warnings := Some(w + [MismatchWarning(repr, r.total.value, comp)]))
    else r.(warnings := Some(w))
  }

  /** `validate_and_repair(out, tol)`: fills in or checks the total, in place. */
  method ValidateAndRepair(out: Record, repr: real -> string, tol: real)
    modifies out
    ensures out.entries == Repaired(repr, tol, old(out.entries))
  {
    var r := out.entries;
    var comp := ComputedTotal(r);
    if r.warnings.None? {
      out.entries := out.entries.(warnings := Some([]));
    }
    if r.total.None? {
      out.entries := out.entries.(total := Some(comp));
      out.entries := out.entries.(warnings := Some(out.entries.warnings.value + [TOTAL_ESTIMATED]));
    } else if Abs(r.total.value - comp) > tol {
      out.entries := out.entries.(warnings := Some(out.entries.warnings.value + [MismatchWarning(repr, r.total.value, comp)]));
    }
  }

  /**
   * Only the total and the warnings change. A missing total becomes the rounded sum of its parts
   * with one warning; a total further than `tol` from that sum stays, with one warning; any
   * other total stays with no warning. Earlier warnings are kept in front.
   */
  lemma RepairedEffect(repr: real -> string, tol: real, r: Raw)
    ensures var r' := Repaired(repr, tol, r);
      var w := r.warnings.GetOr([]);
      && r'.(total := r.total, warnings := r.warnings) == r
      && r'.warnings.Some? && w <= r'.warnings.value
      && (r.total.None? ==> r'.total == Some(ComputedTotal(r)) && r'.warnings.value == w + [TOTAL_ESTIMATED])
      && (r.total.Some? ==> r'.total == r.total)
      && (r.total.Some? && Abs(r.total.value - ComputedTotal(r)) > tol ==>
            r'.warnings.value == w + [MismatchWarning(repr, r.total.value, ComputedTotal(r))])
      && (r.total.Some? && Abs(r.total.value - ComputedTotal(r)) <= tol ==> r'.warnings.value == w)
  {
  }

  /**
   * The filled-in total is whole cents. When the total was missing or within `tol` of the
   * computed one, a second pass adds nothing; a mismatch adds its warning again on every pass.
   */
  lemma RepairedSettles(repr: real -> string, tol: real, r: Raw)
    requires 0.0 <= tol
    requires r.total.None? || Abs(r.total.value - ComputedTotal(r)) <= tol
    ensures r.total.None? ==> IsCents(Repaired(repr, tol, r).total.value)
    ensures Repaired(repr, tol, Repaired(repr, tol, r)) == Repaired(repr, tol, r)
  {
    var comp := ComputedTotal(r);
    var r1 := Repaired(repr, tol, r);
    assert r1.subtotal == r.subtotal && r1.iva == r.iva && r1.percepcionesTotal == r.percepcionesTotal;
    assert ComputedTotal(r1) == comp;
    assert r1.total.Some? && Abs(r1.total.value - comp) <= tol;
    assert r1.warnings.Some?;
    if r.total.None? {
      Round2Near(r.subtotal.GetOr(0.0) + r.iva.GetOr(0.0) + r.percepcionesTotal.GetOr(0.0));
    }
  }

  /** 100 + 21 with no total gives a total of 121 and one warning. */
  lemma RepairedExample(repr: real -> string, r: Raw)
    requires r.subtotal == Some(100.0) && r.iva == Some(21.0) && r.percepcionesTotal.None?
    requires r.total.None? && r.warnings.None?
    ensures Repaired(repr, 0.05, r).total == Some(121.0)
    ensures Repaired(repr, 0.05, r).warnings == Some([TOTAL_ESTIMATED])
  {
    Round2Cents(121.0);
    assert ComputedTotal(r) == 121.0;
    assert [] + [TOTAL_ESTIMATED] == [TOTAL_ESTIMATED];
  }

  /** A total of 200 against parts summing to 121 is kept, with the mismatch warning. */
  lemma RepairedMismatchExample(repr: real -> string, r: Raw)
    requires r.subtotal == Some(100.0) && r.iva == Some(21.0) && r.percepcionesTotal.None?
    requires r.total == Some(200.0) && r.warnings.None?
    ensures Repaired(repr, 0.05, r).total == Some(200.0)
    ensures Repaired(repr, 0.05, r).warnings == Some([MismatchWarning(repr, 200.0, 121.0)])
  {
    Round2Cents(121.0);
    assert ComputedTotal(r) == 121.0;
    assert [] + [MismatchWarning(repr, 200.0, 121.0)] == [MismatchWarning(repr, 200.0, 121.0)];
  }
}
