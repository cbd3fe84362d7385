/**
 * The plain-text renderings of the minimal payload: `key=value` lines with counters and indices
 * (`to_kv`) and an INI file with sections (`to_ini`), plus the field cleaners `_clean` and
 * `clean_cuit`. Numbers are rendered by an abstract `num` standing for `_num`.
 */
module Formatters {
  import opened Wrappers
  import opened Text
  import opened Decimal
  import opened OrderedDict
  import opened TaxNormalizer

  // ---------------------------------------------------------------------------------------
  // _clean and clean_cuit
  // ---------------------------------------------------------------------------------------

  /** The characters `_clean` removes: carriage return, line feed and `=`. */
  predicate IsBreak(c: char)
  {
    c == '\r' || c == '\n' || c == '='
  }

  predicate NoBreaks(s: string)
  {
    forall i | 0 <= i < |s| :: !IsBreak(s[i])
  }

  /** `re.sub(r"[\r\n=]+", " ", s)`, `inRun` telling whether a run is already replaced. */
  function SubBreaks(s: string, inRun: bool): (r: string)
    ensures NoBreaks(r)
    ensures NoBreaks(s) ==> r == s
  {
    if s == [] then []
    else if IsBreak(s[0]) then (if inRun then SubBreaks(s[1..], true) else " " + SubBreaks(s[1..], true))
    else
      assert NoBreaks(s) ==> NoBreaks(s[1..]) by {
        assert forall i | 0 <= i < |s[1..]| :: s[1..][i] == s[i + 1];
      }
      [s[0]] + SubBreaks(s[1..], false)
  }

  /** `_clean(s)`: breaks replaced by spaces, then stripped. */
  function Clean(s: string): string
  {
    Strip(SubBreaks(s, false))
  }

  /** `_clean` leaves no CR, LF or `=`, and no whitespace at either end. */
  lemma CleanSpec(s: string)
    ensures NoBreaks(Clean(s))
    ensures Clean(s) == [] || (!IsSpace(Clean(s)[0]) && !IsSpace(Clean(s)[|Clean(s)| - 1]))
  {
    var t := SubBreaks(s, false);
    assert forall i | StripStart(t) <= i < StripEnd(t) :: t[StripStart(t)..StripEnd(t)][i - StripStart(t)] == t[i];
  }

  /** A field without breaks or surrounding whitespace passes `_clean` unchanged. */
  lemma CleanKeeps(s: string)
    requires NoBreaks(s) && (s == [] || (!IsSpace(s[0]) && !IsSpace(s[|s| - 1])))
    ensures Clean(s) == s
  {
    StripUnchanged(s);
  }

  lemma CleanIdempotent(s: string)
    ensures Clean(Clean(s)) == Clean(s)
  {
    CleanSpec(s);
    CleanKeeps(Clean(s));
  }

  /** `re.sub(r"\D", "", s)`: the digits of `s`, in order. */
  function DigitsOf(s: string): (r: string)
    ensures AllDigits(r)
    ensures |r| <= |s|
  {
    if s == [] then [] else (if IsDigit(s[0]) then [s[0]] else []) + DigitsOf(s[1..])
  }

  /** `clean_cuit(cuit)`, the empty string standing for any falsy value. */
  function CleanCuit(cuit: string): (r: string)
  {
    if cuit == "" then "" else DigitsOf(cuit)
  }

  lemma {:induction false} DigitsOfAppend(a: string, b: string)
    ensures DigitsOf(a + b) == DigitsOf(a) + DigitsOf(b)
  {
    if a != [] {
      assert (a + b)[0] == a[0] && (a + b)[1..] == a[1..] + b;
      DigitsOfAppend(a[1..], b);
      var h := if IsDigit(a[0]) then [a[0]] else [];
      assert DigitsOf(a + b) == h + DigitsOf(a[1..] + b);
      assert h + (DigitsOf(a[1..]) + DigitsOf(b)) == (h + DigitsOf(a[1..])) + DigitsOf(b);
    } else {
      assert a + b == b;
    }
  }

  /** `clean_cuit` keeps exactly the digits: it is the identity exactly on all-digit strings. */
  lemma {:induction false} DigitsOfExact(s: string)
    ensures DigitsOf(s) == s <==> AllDigits(s)
  {
    if s != [] {
      DigitsOfExact(s[1..]);
      if !IsDigit(s[0]) {
        assert |DigitsOf(s)| <= |s[1..]| < |s|;
      }
    }
  }

  lemma CleanCuitSpec(cuit: string)
    ensures AllDigits(CleanCuit(cuit))
    ensures CleanCuit(cuit) == DigitsOf(cuit)
    ensures CleanCuit(cuit) == cuit <==> AllDigits(cuit)
    ensures CleanCuit(CleanCuit(cuit)) == CleanCuit(cuit)
  {
    DigitsOfExact(cuit);
    DigitsOfExact(DigitsOf(cuit));
  }

  /** The dashed form `XX-XXXXXXXX-X` of a CUIT loses its dashes. */
  lemma CleanCuitDashed(a: string, b: string, c: string)
    requires a != [] && AllDigits(a) && AllDigits(b) && AllDigits(c)
    ensures CleanCuit(a + "-" + b + "-" + c) == a + b + c
  {
    DigitsOfDash(a + "-" + b, c);
    DigitsOfDash(a, b);
    DigitsOfExact(a);
  }

  /** A dash and then digits: the dash goes, the digits stay. */
  lemma DigitsOfDash(x: string, y: string)
    requires AllDigits(y)
    ensures DigitsOf(x + "-" + y) == DigitsOf(x) + y
  {
    DigitsOfAppend(x + "-", y);
    DigitsOfAppend(x, "-");
    DigitsOfExact(y);
    assert DigitsOf("-") == "";
    assert DigitsOf(x) + "" == DigitsOf(x);
  }

  // ---------------------------------------------------------------------------------------
  // Python's stable `sort(key=...)`, as insertion sort under a total preorder
  // ---------------------------------------------------------------------------------------

  ghost predicate TotalPreorder<T(!new)>(le: (T, T) -> bool)
  {
    && (forall a, b :: le(a, b) || le(b, a))
    && (forall a, b, c :: le(a, b) && le(b, c) ==> le(a, c))
  }

  predicate SortedBy<T>(le: (T, T) -> bool, s: seq<T>)
  {
    forall i, j | 0 <= i < j < |s| :: le(s[i], s[j])
  }

  /** `x` placed before the first element it is at most, so equal keys keep their order. */
  function InsertBy<T>(le: (T, T) -> bool, x: T, s: seq<T>): seq<T>
  {
    if s == [] then [x] else if le(x, s[0]) then [x] + s else [s[0]] + InsertBy(le, x, s[1..])
  }

  function SortBy<T>(le: (T, T) -> bool, s: seq<T>): seq<T>
  {
    if s == [] then [] else InsertBy(le, s[0], SortBy(le, s[1..]))
  }

  lemma {:induction false} InsertBySorted<T(!new)>(le: (T, T) -> bool, x: T, s: seq<T>)
    requires TotalPreorder(le) && SortedBy(le, s)
    ensures multiset(InsertBy(le, x, s)) == multiset(s) + multiset{x}
    ensures SortedBy(le, InsertBy(le, x, s))
  {
    InsertByMultiset(le, x, s);
    if s == [] {
    } else if le(x, s[0]) {
      forall z | z in s ensures le(x, z) {
        var k :| 0 <= k < |s| && s[k] == z;
        if k > 0 {
          assert le(s[0], s[k]);
        }
      }
      SortedCons(le, x, s);
    } else {
      var t := s[1..];
      SortedTail(le, s);
      InsertBySorted(le, x, t);
      var r := InsertBy(le, x, t);
      forall z | z in r ensures le(s[0], z) {
        assert z in multiset(r);
        if z != x {
          assert z in multiset(t);
          var k :| 0 <= k < |t| && t[k] == z;
          assert s[k + 1] == z;
        }
      }
      SortedCons(le, s[0], r);
    }
  }

  lemma {:induction false} InsertByMultiset<T>(le: (T, T) -> bool, x: T, s: seq<T>)
    ensures multiset(InsertBy(le, x, s)) == multiset(s) + multiset{x}
  {
    if s == [] {
    } else if le(x, s[0]) {
      assert InsertBy(le, x, s) == [x] + s;
    } else {
      var t := s[1..];
      InsertByMultiset(le, x, t);
      assert s == [s[0]] + t;
      assert InsertBy(le, x, s) == [s[0]] + InsertBy(le, x, t);
      assert multiset([s[0]] + InsertBy(le, x, t)) == multiset{s[0]} + multiset(InsertBy(le, x, t));
      assert multiset(s) == multiset{s[0]} + multiset(t);
    }
  }

  lemma SortedTail<T>(le: (T, T) -> bool, s: seq<T>)
    requires s != [] && SortedBy(le, s)
    ensures SortedBy(le, s[1..])
  {
    var t := s[1..];
    forall i, j | 0 <= i < j < |t| ensures le(t[i], t[j]) {
      assert t[i] == s[i + 1] && t[j] == s[j + 1];
    }
  }

  /** A head at most every element of a sorted tail keeps it sorted. */
  lemma SortedCons<T>(le: (T, T) -> bool, h: T, r: seq<T>)
    requires SortedBy(le, r) && forall z | z in r :: le(h, z)
    ensures SortedBy(le, [h] + r)
  {
    var q := [h] + r;
    forall i, j | 0 <= i < j < |q| ensures le(q[i], q[j]) {
      assert q[j] == r[j - 1];
      if i > 0 {
        assert q[i] == r[i - 1];
      }
    }
  }

  lemma {:induction false} SortByLength<T>(le: (T, T) -> bool, s: seq<T>)
    ensures |SortBy(le, s)| == |s|
  {
    if s != [] {
      SortByLength(le, s[1..]);
      InsertByLength(le, s[0], SortBy(le, s[1..]));
    }
  }

  lemma {:induction false} InsertByLength<T>(le: (T, T) -> bool, x: T, s: seq<T>)
    ensures |InsertBy(le, x, s)| == |s| + 1
  {
    if s != [] && !le(x, s[0]) {
      InsertByLength(le, x, s[1..]);
    }
  }

  /** The sort is sorted and a permutation of its input. */
  lemma {:induction false} SortBySorted<T(!new)>(le: (T, T) -> bool, s: seq<T>)
    requires TotalPreorder(le)
    ensures multiset(SortBy(le, s)) == multiset(s)
    ensures SortedBy(le, SortBy(le, s))
  {
    if s != [] {
      SortBySorted(le, s[1..]);
      InsertBySorted(le, s[0], SortBy(le, s[1..]));
      assert s == [s[0]] + s[1..];
    }
  }

  // ---------------------------------------------------------------------------------------
  // The item lists
  // ---------------------------------------------------------------------------------------

  /** The entries `[(k, float(v)) for k, v in d.items() if v and float(v) != 0.0]`. */
  function NonZero(d: Dict<string, real>): (r: Dict<string, real>)
    ensures |r| <= |d|
  {
    if d == [] then [] else (if d[0].1 != 0.0 then [d[0]] else []) + NonZero(d[1..])
  }

  /** The entries kept are exactly the nonzero ones. */
  lemma {:induction false} NonZeroMembers(d: Dict<string, real>)
    ensures forall x | x in NonZero(d) :: x in d && x.1 != 0.0
    ensures forall x | x in d && x.1 != 0.0 :: x in NonZero(d)
  {
    if d != [] {
      NonZeroMembers(d[1..]);
      assert forall x | x in d :: x == d[0] || x in d[1..];
    }
  }

  /** The canonical IVA rates, in the order both renderings list them. */
  const IVA_ORDER: seq<string> := ["27", "21", "10.5", "5", "2.5"]

  /** The position of `k` in `order`, `|order|` when absent. */
  function IndexIn(order: seq<string>, k: string): (i: nat)
    ensures i <= |order|
    ensures i < |order| ==> order[i] == k
    ensures i == |order| <==> k !in order
  {
    if order == [] then 0
    else if order[0] == k then 0
    else
      assert forall x | x in order :: x == order[0] || x in order[1..];
      1 + IndexIn(order[1..], k)
  }

  /** `rank(k)`: the position among the canonical rates, 999 for any other key. */
  function Rank(k: string): nat
  {
    var i := IndexIn(IVA_ORDER, k);
    if i < |IVA_ORDER| then i else 999
  }

  /** The sort key `(rank(k), k)` of `to_kv`'s IVA items, as a non-strict order. */
  predicate IvaLe(a: (string, real), b: (string, real))
  {
    Rank(a.0) < Rank(b.0) || (Rank(a.0) == Rank(b.0) && !StrLess(b.0, a.0))
  }

  /** The sort key `x[0]` of the perception and retention items. */
  predicate KeyLe(a: (string, real), b: (string, real))
  {
    !StrLess(b.0, a.0)
  }

  lemma StrLeTransitive(a: string, b: string, c: string)
    requires !StrLess(b, a) && !StrLess(c, b)
    ensures !StrLess(c, a)
  {
    if StrLess(c, a) {
      if a != b {
        StrLessTotal(a, b);
        StrLessTransitive(c, a, b);
      }
    }
  }

  lemma StrLeTotal(a: string, b: string)
    ensures !StrLess(b, a) || !StrLess(a, b)
  {
    if StrLess(b, a) {
      StrLessAsymmetric(b, a);
    }
  }

  lemma KeyLePreorder()
    ensures TotalPreorder(KeyLe)
  {
    forall a: (string, real), b: (string, real) ensures KeyLe(a, b) || KeyLe(b, a) {
      StrLeTotal(a.0, b.0);
    }
    forall a: (string, real), b: (string, real), c: (string, real) | KeyLe(a, b) && KeyLe(b, c)
      ensures KeyLe(a, c)
    {
      StrLeTransitive(a.0, b.0, c.0);
    }
  }

  lemma IvaLePreorder()
    ensures TotalPreorder(IvaLe)
  {
    forall a: (string, real), b: (string, real) ensures IvaLe(a, b) || IvaLe(b, a) {
      StrLeTotal(a.0, b.0);
    }
    forall a: (string, real), b: (string, real), c: (string, real) | IvaLe(a, b) && IvaLe(b, c)
      ensures IvaLe(a, c)
    {
      if Rank(a.0) == Rank(b.0) == Rank(c.0) {
        StrLeTransitive(a.0, b.0, c.0);
      }
    }
  }

  /** `to_kv`'s IVA items: the nonzero entries by canonical rank, then by rate. */
  function IvaItems(iva: Dict<string, real>): Dict<string, real>
  {
    SortBy(IvaLe, NonZero(iva))
  }

  /** `to_kv`'s perception or retention items: the nonzero entries by key. */
  function KeyItems(d: Dict<string, real>): Dict<string, real>
  {
    SortBy(KeyLe, NonZero(d))
  }

  /**
   * The IVA items are exactly the nonzero entries, each as often as it occurs, with the
   * canonical rates first in the order 27, 21, 10.5, 5, 2.5 and the other rates after them by
   * key.
   */
  lemma IvaItemsSpec(iva: Dict<string, real>)
    ensures multiset(IvaItems(iva)) == multiset(NonZero(iva))
    ensures |IvaItems(iva)| == |NonZero(iva)|
    ensures forall x | x in IvaItems(iva) :: x in iva && x.1 != 0.0
    ensures forall x | x in iva && x.1 != 0.0 :: x in IvaItems(iva)
    ensures forall i, j | 0 <= i < j < |IvaItems(iva)| ::
      var a, b := IvaItems(iva)[i].0, IvaItems(iva)[j].0;
      Rank(a) < Rank(b) || (Rank(a) == Rank(b) && !StrLess(b, a))
  {
    IvaLePreorder();
    SortBySorted(IvaLe, NonZero(iva));
    NonZeroMembers(iva);
    var s := IvaItems(iva);
    assert |multiset(s)| == |multiset(NonZero(iva))|;
    forall x | x in s ensures x in iva && x.1 != 0.0 {
      assert x in multiset(s);
    }
    forall x | x in iva && x.1 != 0.0 ensures x in s {
      assert x in multiset(NonZero(iva));
    }
    forall i, j | 0 <= i < j < |s| ensures IvaLe(s[i], s[j]) {
    }
  }

  /** The perception and retention items are exactly the nonzero entries, sorted by key. */
  lemma KeyItemsSpec(d: Dict<string, real>)
    ensures multiset(KeyItems(d)) == multiset(NonZero(d))
    ensures |KeyItems(d)| == |NonZero(d)|
    ensures forall x | x in KeyItems(d) :: x in d && x.1 != 0.0
    ensures forall x | x in d && x.1 != 0.0 :: x in KeyItems(d)
    ensures forall i, j | 0 <= i < j < |KeyItems(d)| :: !StrLess(KeyItems(d)[j].0, KeyItems(d)[i].0)
  {
    KeyLePreorder();
    SortBySorted(KeyLe, NonZero(d));
    NonZeroMembers(d);
    var s := KeyItems(d);
    assert |multiset(s)| == |multiset(NonZero(d))|;
    forall x | x in s ensures x in d && x.1 != 0.0 {
      assert x in multiset(s);
    }
    forall x | x in d && x.1 != 0.0 ensures x in s {
      assert x in multiset(NonZero(d));
    }
    forall i, j | 0 <= i < j < |s| ensures KeyLe(s[i], s[j]) {
    }
  }

  /**
   * Filtering out the zero entries and sorting commute: `to_ini` sorts and then skips zeros,
   * `to_kv` skips zeros and then sorts.
   */
  lemma {:induction false} NonZeroInsert(le: ((string, real), (string, real)) -> bool, x: (string, real), s: Dict<string, real>)
    requires TotalPreorder(le) && SortedBy(le, s)
    ensures NonZero(InsertBy(le, x, s)) == if x.1 != 0.0 then InsertBy(le, x, NonZero(s)) else NonZero(s)
  {
    if s == [] {
      assert NonZero([x]) == (if x.1 != 0.0 then [x] else []) + [];
    } else if le(x, s[0]) {
      assert InsertBy(le, x, s) == [x] + s;
      assert ([x] + s)[0] == x && ([x] + s)[1..] == s;
      var f := NonZero(s);
      if x.1 != 0.0 && f != [] {
        NonZeroMembers(s);
        assert f[0] in f;
        var k :| 0 <= k < |s| && s[k] == f[0];
        if k > 0 {
          assert le(s[0], s[k]);
        }
        assert le(x, f[0]);
      }
    } else {
      var t := s[1..];
      assert SortedBy(le, t) by {
        forall i, j | 0 <= i < j < |t| ensures le(t[i], t[j]) {
          assert t[i] == s[i + 1] && t[j] == s[j + 1];
        }
      }
      NonZeroInsert(le, x, t);
      var r := InsertBy(le, x, t);
      var h := if s[0].1 != 0.0 then [s[0]] else [];
      var f := NonZero(t);
      assert InsertBy(le, x, s) == [s[0]] + r;
      assert ([s[0]] + r)[0] == s[0] && ([s[0]] + r)[1..] == r;
      assert NonZero([s[0]] + r) == h + NonZero(r);
      assert NonZero(s) == h + f;
      if s[0].1 != 0.0 {
        assert ([s[0]] + f)[0] == s[0] && ([s[0]] + f)[1..] == f;
        assert InsertBy(le, x, [s[0]] + f) == [s[0]] + InsertBy(le, x, f);
      } else {
        assert [] + NonZero(r) == NonZero(r);
        assert [] + f == f;
      }
    }
  }

  lemma {:induction false} NonZeroSort(le: ((string, real), (string, real)) -> bool, s: Dict<string, real>)
    requires TotalPreorder(le)
    ensures NonZero(SortBy(le, s)) == SortBy(le, NonZero(s))
  {
    if s != [] {
      var t := s[1..];
      NonZeroSort(le, t);
      SortBySorted(le, t);
      assert SortBy(le, s) == InsertBy(le, s[0], SortBy(le, t));
      NonZeroInsert(le, s[0], SortBy(le, t));
      var f := NonZero(t);
      if s[0].1 != 0.0 {
        assert NonZero(s) == [s[0]] + f;
        assert ([s[0]] + f)[0] == s[0] && ([s[0]] + f)[1..] == f;
        assert SortBy(le, [s[0]] + f) == InsertBy(le, s[0], SortBy(le, f));
      } else {
        assert NonZero(s) == [] + f == f;
      }
    }
  }

  // ---------------------------------------------------------------------------------------
  // to_kv
  // ---------------------------------------------------------------------------------------

  /** The minimal payload as the API renders it: the payload and the `ocr` flag. */
  datatype Minimal = Minimal(payload: Payload, ocr: bool)

  function OcrFlag(ocr: bool): string
  {
    if ocr then "1" else "0"
  }

  /** The eight fixed lines `to_kv` starts with. */
  function KvHeader(num: real -> string, m: Minimal): seq<string>
  {
    var p := m.payload;
    ["status=ok", "version=1", "ocr=" + OcrFlag(m.ocr), "numero=" + p.numero, "fecha=" + p.fecha,
     "cuit=" + p.cuit, "subtotal=" + num(p.subtotal), "total=" + num(p.total)]
  }

  /** The two lines of item `i` (counting from 1) of a counted list. */
  function ItemPair(name: string, field: string, render: string -> string, num: real -> string, i: nat, item: (string, real)): seq<string>
  {
    var prefix := name + "_" + NatToString(i) + "_";
    [prefix + field + "=" + render(item.0), prefix + "monto=" + num(item.1)]
  }

  /** The lines of the first `n` items. */
  function ItemLines(name: string, field: string, render: string -> string, num: real -> string, items: Dict<string, real>, n: nat): seq<string>
    requires n <= |items|
  {
    if n == 0 then [] else ItemLines(name, field, render, num, items, n - 1) + ItemPair(name, field, render, num, n, items[n - 1])
  }

  /** `f"{name}_count={n}"`. */
  function CountLine(name: string, n: nat): string
  {
    name + "_count=" + NatToString(n)
  }

  /** Line `i` of `lines` is the count line of `name` for `n` items. */
  predicate CountAt(lines: seq<string>, i: nat, name: string, n: nat)
  {
    i < |lines| && lines[i] == CountLine(name, n)
  }

  /** A count line, then two lines per item. */
  function Counted(name: string, field: string, render: string -> string, num: real -> string, items: Dict<string, real>): seq<string>
  {
    [CountLine(name, |items|)] + ItemLines(name, field, render, num, items, |items|)
  }

  /** Perception and retention keys are written as they are. */
  function Verbatim(s: string): string
  {
    s
  }

  /** The header, then the IVA, perception and retention blocks of the given items. */
  function KvOf(num: real -> string, h: seq<string>, ia: Dict<string, real>, pa: Dict<string, real>, ra: Dict<string, real>): seq<string>
  {
    h
    + Counted("iva", "tasa", Clean, num, ia)
    + Counted("percepciones", "clave", Verbatim, num, pa)
    + Counted("retenciones", "clave", Verbatim, num, ra)
  }

  /** The lines `to_kv` joins. */
  function KvLines(num: real -> string, m: Minimal): seq<string>
  {
    var p := m.payload;
    KvOf(num, KvHeader(num, m), IvaItems(p.iva), KeyItems(p.percepciones), KeyItems(p.retenciones))
  }

  /** A count line and the `enumerate(items, start=1)` loop. */
  method AppendCounted(lines: seq<string>, name: string, field: string, render: string -> string, num: real -> string, items: Dict<string, real>)
    returns (out: seq<string>)
    ensures out == lines + Counted(name, field, render, num, items)
  {
    var countLine := CountLine(name, |items|);
    out := lines + [countLine];
    var i := 0;
    while i < |items|
      invariant i <= |items|
      invariant out == lines + [countLine] + ItemLines(name, field, render, num, items, i)
      decreases |items| - i
    {
      var (key, monto) := items[i];
      var prefix := name + "_" + NatToString(i + 1) + "_";
      out := out + [prefix + field + "=" + render(key), prefix + "monto=" + num(monto)];
      i := i + 1;
    }
  }

  /** `to_kv(minimal)`. */
  method ToKv(num: real -> string, m: Minimal) returns (text: string)
    ensures text == Join("\n", KvLines(num, m))
  {
    var p := m.payload;
    var lines := ["status=ok", "version=1", "ocr=" + OcrFlag(m.ocr), "numero=" + p.numero, "fecha=" + p.fecha,
                  "cuit=" + p.cuit, "subtotal=" + num(p.subtotal), "total=" + num(p.total)];
    var ivaItems := SortBy(IvaLe, NonZero(p.iva));
    lines := AppendCounted(lines, "iva", "tasa", Clean, num, ivaItems);
    var percItems := SortBy(KeyLe, NonZero(p.percepciones));
    lines := AppendCounted(lines, "percepciones", "clave", Verbatim, num, percItems);
    var retItems := SortBy(KeyLe, NonZero(p.retenciones));
    lines := AppendCounted(lines, "retenciones", "clave", Verbatim, num, retItems);
    text := Join("\n", lines);
  }

  /** Item `i` fills lines `2 i` and `2 i + 1`: exactly two lines per item. */
  lemma {:induction false} ItemLinesShape(name: string, field: string, render: string -> string, num: real -> string, items: Dict<string, real>, n: nat)
    requires n <= |items|
    ensures |ItemLines(name, field, render, num, items, n)| == 2 * n
    ensures forall i | 0 <= i < n :: ItemLines(name, field, render, num, items, n)[2 * i..2 * i + 2] == ItemPair(name, field, render, num, i + 1, items[i])
  {
    if n > 0 {
      ItemLinesShape(name, field, render, num, items, n - 1);
      var prev := ItemLines(name, field, render, num, items, n - 1);
      var cur := ItemLines(name, field, render, num, items, n);
      forall i | 0 <= i < n
        ensures cur[2 * i..2 * i + 2] == ItemPair(name, field, render, num, i + 1, items[i])
      {
        if i < n - 1 {
          assert cur[2 * i..2 * i + 2] == prev[2 * i..2 * i + 2];
        }
      }
    }
  }

  /** The count line states the number of items, and item `i` (from 1) has its key and amount lines. */
  lemma CountedShape(name: string, field: string, render: string -> string, num: real -> string, items: Dict<string, real>)
    ensures |Counted(name, field, render, num, items)| == 1 + 2 * |items|
    ensures Counted(name, field, render, num, items)[0] == name + "_count=" + NatToString(|items|)
    ensures forall i | 0 <= i < |items| ::
      && Counted(name, field, render, num, items)[1 + 2 * i] == name + "_" + NatToString(i + 1) + "_" + field + "=" + render(items[i].0)
      && Counted(name, field, render, num, items)[2 + 2 * i] == name + "_" + NatToString(i + 1) + "_monto=" + num(items[i].1)
  {
    var body := ItemLines(name, field, render, num, items, |items|);
    ItemLinesShape(name, field, render, num, items, |items|);
    forall i | 0 <= i < |items|
      ensures body[2 * i] == name + "_" + NatToString(i + 1) + "_" + field + "=" + render(items[i].0)
      ensures body[2 * i + 1] == name + "_" + NatToString(i + 1) + "_monto=" + num(items[i].1)
    {
      assert body[2 * i..2 * i + 2][0] == body[2 * i];
      assert body[2 * i..2 * i + 2][1] == body[2 * i + 1];
    }
  }

  /** `to_kv` starts with the eight fixed lines: status, version, OCR flag, number, date, CUIT, subtotal, total. */
  lemma KvStart(num: real -> string, m: Minimal)
    ensures KvLines(num, m)[..8] == KvHeader(num, m)
  {
  }

  /** There is one count line per map and two lines per nonzero entry. */
  lemma KvLength(num: real -> string, m: Minimal)
    ensures |KvLines(num, m)| == 11 + 2 * (|NonZero(m.payload.iva)| + |NonZero(m.payload.percepciones)| + |NonZero(m.payload.retenciones)|)
  {
    var p := m.payload;
    SortByLength(IvaLe, NonZero(p.iva));
    SortByLength(KeyLe, NonZero(p.percepciones));
    SortByLength(KeyLe, NonZero(p.retenciones));
    CountedHead("iva", "tasa", Clean, num, IvaItems(p.iva));
    CountedHead("percepciones", "clave", Verbatim, num, KeyItems(p.percepciones));
    CountedHead("retenciones", "clave", Verbatim, num, KeyItems(p.retenciones));
  }

  /** `iva_count` is the number of nonzero IVA entries. */
  lemma KvIvaCount(num: real -> string, m: Minimal)
    ensures CountAt(KvLines(num, m), 8, "iva", |NonZero(m.payload.iva)|)
  {
    var p := m.payload;
    var ia, pa, ra := IvaItems(p.iva), KeyItems(p.percepciones), KeyItems(p.retenciones);
    KvLinesParts(num, m);
    IvaItemsLength(p.iva);
    CountLinesAt(num, KvLines(num, m), KvHeader(num, m), ia, pa, ra, |ia|, |pa|, |ra|);
  }

  /** There are as many IVA items as nonzero IVA entries. */
  lemma IvaItemsLength(iva: Dict<string, real>)
    ensures |IvaItems(iva)| == |NonZero(iva)|
  {
    SortByLength(IvaLe, NonZero(iva));
  }

  /** There are as many perception or retention items as nonzero entries. */
  lemma KeyItemsLength(d: Dict<string, real>)
    ensures |KeyItems(d)| == |NonZero(d)|
  {
    SortByLength(KeyLe, NonZero(d));
  }

  /** `to_kv` writes the header, then the IVA, perception and retention blocks of the sorted nonzero items. */
  lemma KvLinesParts(num: real -> string, m: Minimal)
    ensures KvLines(num, m) == KvOf(num, KvHeader(num, m), IvaItems(m.payload.iva), KeyItems(m.payload.percepciones), KeyItems(m.payload.retenciones))
  {
  }

  /**
   * In a header of eight lines followed by the three counted blocks, each count line sits right
   * after the blocks before it.
   */
  lemma {:induction false} CountLinesAt(num: real -> string, kv: seq<string>, h: seq<string>, ia: Dict<string, real>, pa: Dict<string, real>,
                                       ra: Dict<string, real>, ni: nat, np: nat, nr: nat)
    requires kv == KvOf(num, h, ia, pa, ra)
    requires |h| == 8 && |ia| == ni && |pa| == np && |ra| == nr
    ensures |kv| == 11 + 2 * (ni + np + nr)
    ensures CountAt(kv, 8, "iva", ni)
    ensures CountAt(kv, 9 + 2 * ni, "percepciones", np)
    ensures CountAt(kv, 10 + 2 * (ni + np), "retenciones", nr)
  {
    var a := Counted("iva", "tasa", Clean, num, ia);
    var b := Counted("percepciones", "clave", Verbatim, num, pa);
    var c := Counted("retenciones", "clave", Verbatim, num, ra);
    CountedHead("iva", "tasa", Clean, num, ia);
    CountedHead("percepciones", "clave", Verbatim, num, pa);
    CountedHead("retenciones", "clave", Verbatim, num, ra);
    PartAt(h, a, b);
    PartAt(h + a, b, c);
    PartAt(h + a + b, c, []);
    assert h + a + b + c + [] == h + a + b + c;
  }

  /** The first line of the middle part of a concatenation. */
  lemma PartAt(before: seq<string>, part: seq<string>, after: seq<string>)
    requires part != []
    ensures |before + part + after| > |before|
    ensures (before + part + after)[|before|] == part[0]
  {
  }

  lemma CountedHead(name: string, field: string, render: string -> string, num: real -> string, items: Dict<string, real>)
    ensures |Counted(name, field, render, num, items)| == 1 + 2 * |items|
    ensures Counted(name, field, render, num, items)[0] == CountLine(name, |items|)
  {
    ItemLinesShape(name, field, render, num, items, |items|);
  }

  lemma Rank27()
    ensures Rank("27") == 0
  {
  }

  lemma Rank21()
    ensures Rank("21") == 1
  {
    assert IVA_ORDER[0] != "21";
  }

  /** 27 % is listed before 21 % whatever the map order, and a zero rate is left out. */
  lemma IvaItemsExample()
    ensures IvaItems([("21", 100.0), ("27", 50.0), ("10.5", 0.0)]) == [("27", 50.0), ("21", 100.0)]
  {
    Rank27();
    Rank21();
    assert NonZero([("21", 100.0), ("27", 50.0), ("10.5", 0.0)]) == [("21", 100.0), ("27", 50.0)];
    assert SortBy(IvaLe, [("27", 50.0)]) == [("27", 50.0)];
    assert !IvaLe(("21", 100.0), ("27", 50.0));
  }

  // ---------------------------------------------------------------------------------------
  // to_ini
  // ---------------------------------------------------------------------------------------

  /** The `k=v` lines of the items with a nonzero amount, in the given order. */
  function IniPairs(num: real -> string, items: Dict<string, real>): seq<string>
  {
    if items == [] then []
    else (if items[0].1 != 0.0 then [items[0].0 + "=" + num(items[0].1)] else []) + IniPairs(num, items[1..])
  }

  /** The `k=v` lines of the items. */
  function RenderPairs(num: real -> string, items: Dict<string, real>): (r: seq<string>)
    ensures |r| == |items|
    ensures forall i | 0 <= i < |items| :: r[i] == items[i].0 + "=" + num(items[i].1)
  {
    seq(|items|, i requires 0 <= i < |items| => items[i].0 + "=" + num(items[i].1))
  }

  /** The lines of the canonical rates among the first `n`, each when present and nonzero. */
  function IniCanon(num: real -> string, iva: Dict<string, real>, n: nat): seq<string>
    requires n <= |IVA_ORDER|
  {
    if n == 0 then []
    else
      var r := IVA_ORDER[n - 1];
      IniCanon(num, iva, n - 1) + (if HasKey(iva, r) && Get(iva, r).value != 0.0 then [r + "=" + num(Get(iva, r).value)] else [])
  }

  /** The lines of the other nonzero rates among the first `n` entries, in map order. */
  function IniOthers(num: real -> string, iva: Dict<string, real>, n: nat): seq<string>
    requires n <= |iva|
  {
    FilterMap(IsOtherRate, e => OtherRateLine(num, e), iva, n)
  }

  /** `f` of each of the first `n` elements that satisfy `keep`, in order. */
  function FilterMap<E, U>(keep: E -> bool, f: E -> U, xs: seq<E>, n: nat): seq<U>
    requires n <= |xs|
  {
    if n == 0 then [] else FilterMap(keep, f, xs, n - 1) + (if keep(xs[n - 1]) then [f(xs[n - 1])] else [])
  }

  /** An element's image is listed exactly when some kept element among the first `n` has it. */
  lemma {:induction false} FilterMapMembers<E, U>(keep: E -> bool, f: E -> U, xs: seq<E>, n: nat)
    requires n <= |xs|
    ensures |FilterMap(keep, f, xs, n)| <= n
    ensures forall j | 0 <= j < n && keep(xs[j]) :: f(xs[j]) in FilterMap(keep, f, xs, n)
    ensures forall y | y in FilterMap(keep, f, xs, n) :: exists j | 0 <= j < n :: keep(xs[j]) && y == f(xs[j])
  {
    if n > 0 {
      FilterMapMembers(keep, f, xs, n - 1);
      var prev := FilterMap(keep, f, xs, n - 1);
      var last := if keep(xs[n - 1]) then [f(xs[n - 1])] else [];
      assert FilterMap(keep, f, xs, n) == prev + last;
      forall j | 0 <= j < n && keep(xs[j])
        ensures f(xs[j]) in prev + last
      {
        if j == n - 1 {
          assert (prev + last)[|prev|] == last[0];
        }
      }
      forall y | y in prev + last
        ensures exists j | 0 <= j < n :: keep(xs[j]) && y == f(xs[j])
      {
        if y !in prev {
          assert keep(xs[n - 1]) && y == f(xs[n - 1]);
        }
      }
    }
  }

  /** The line of a non-canonical rate: its key cleaned. */
  function OtherRateLine(num: real -> string, e: (string, real)): string
  {
    Clean(e.0) + "=" + num(e.1)
  }

  /** One INI section: its header, its lines and a closing blank line. */
  function IniSection(name: string, body: seq<string>): seq<string>
  {
    ["[" + name + "]"] + body + [""]
  }

  /** The lines `to_ini` joins: five sections. */
  function IniLines(num: real -> string, m: Minimal): seq<string>
  {
    var p := m.payload;
    IniSection("meta", ["status=ok", "version=1", "ocr=" + OcrFlag(m.ocr)])
    + IniSection("factura", ["numero=" + p.numero, "fecha=" + p.fecha, "cuit=" + p.cuit, "total=" + num(p.total)])
    + IniSection("iva", IniCanon(num, p.iva, |IVA_ORDER|) + IniOthers(num, p.iva, |p.iva|))
    + IniSection("percepciones", IniPairs(num, SortBy(KeyLe, p.percepciones)))
    + IniSection("retenciones", IniPairs(num, SortBy(KeyLe, p.retenciones)))
  }

  /** The loop over a sorted map that skips zero amounts. */
  method IniPairsLoop(num: real -> string, items: Dict<string, real>) returns (lines: seq<string>)
    ensures lines == IniPairs(num, items)
  {
    lines := [];
    var i := 0;
    while i < |items|
      invariant i <= |items|
      invariant lines + IniPairs(num, items[i..]) == IniPairs(num, items)
      decreases |items| - i
    {
      assert items[i..][1..] == items[i + 1..];
      var (k, v) := items[i];
      if v != 0.0 {
        lines := lines + [k + "=" + num(v)];
      }
      i := i + 1;
    }
    assert items[|items|..] == [];
  }

  /** The first loop of the IVA section: the canonical rates present with a nonzero amount, in order. */
  method IniCanonLoop(num: real -> string, iva: Dict<string, real>) returns (lines: seq<string>)
    ensures lines == IniCanon(num, iva, |IVA_ORDER|)
  {
    lines := [];
    var i := 0;
    while i < |IVA_ORDER|
      invariant i <= |IVA_ORDER|
      invariant lines == IniCanon(num, iva, i)
      decreases |IVA_ORDER| - i
    {
      var r := IVA_ORDER[i];
      var v := Get(iva, r);
      if v.Some? && v.value != 0.0 {
        lines := lines + [r + "=" + num(v.value)];
      }
      i := i + 1;
    }
  }

  /** The second loop of the IVA section: the other nonzero rates in map order. */
  method IniOthersLoop(num: real -> string, iva: Dict<string, real>) returns (lines: seq<string>)
    ensures lines == IniOthers(num, iva, |iva|)
  {
    lines := [];
    var i := 0;
    while i < |iva|
      invariant i <= |iva|
      invariant lines == IniOthers(num, iva, i)
      decreases |iva| - i
    {
      var (k, v) := iva[i];
      if k !in IVA_ORDER && v != 0.0 {
        lines := lines + [Clean(k) + "=" + num(v)];
      }
      i := i + 1;
    }
  }

  /** `to_ini(minimal)`. */
  method ToIni(num: real -> string, m: Minimal) returns (text: string)
    ensures text == Join("\n", IniLines(num, m))
  {
    var p := m.payload;
    var out := IniSection("meta", ["status=ok", "version=1", "ocr=" + OcrFlag(m.ocr)]);
    out := out + IniSection("factura", ["numero=" + p.numero, "fecha=" + p.fecha, "cuit=" + p.cuit, "total=" + num(p.total)]);
    var canon := IniCanonLoop(num, p.iva);
    var others := IniOthersLoop(num, p.iva);
    out := out + IniSection("iva", canon + others);
    var percepciones := IniPairsLoop(num, SortBy(KeyLe, p.percepciones));
    out := out + IniSection("percepciones", percepciones);
    var retenciones := IniPairsLoop(num, SortBy(KeyLe, p.retenciones));
    out := out + IniSection("retenciones", retenciones);
    text := Join("\n", out);
  }

  lemma {:induction false} IniPairsNonZero(num: real -> string, items: Dict<string, real>)
    ensures IniPairs(num, items) == RenderPairs(num, NonZero(items))
  {
    if items != [] {
      IniPairsNonZero(num, items[1..]);
    }
  }

  /** The perception and retention sections of `to_ini` list the same items, in the same order, as `to_kv`. */
  lemma IniPairsAgree(num: real -> string, d: Dict<string, real>)
    ensures IniPairs(num, SortBy(KeyLe, d)) == RenderPairs(num, KeyItems(d))
  {
    KeyLePreorder();
    NonZeroSort(KeyLe, d);
    IniPairsNonZero(num, SortBy(KeyLe, d));
  }

  /** A canonical rate has a line exactly when it is present with a nonzero amount. */
  lemma {:induction false} IniCanonLines(num: real -> string, iva: Dict<string, real>, n: nat)
    requires n <= |IVA_ORDER|
    ensures |IniCanon(num, iva, n)| <= n
    ensures forall i | 0 <= i < n && HasKey(iva, IVA_ORDER[i]) && Get(iva, IVA_ORDER[i]).value != 0.0 ::
      IVA_ORDER[i] + "=" + num(Get(iva, IVA_ORDER[i]).value) in IniCanon(num, iva, n)
    ensures forall line | line in IniCanon(num, iva, n) :: exists i | 0 <= i < n ::
      HasKey(iva, IVA_ORDER[i]) && Get(iva, IVA_ORDER[i]).value != 0.0 && line == IVA_ORDER[i] + "=" + num(Get(iva, IVA_ORDER[i]).value)
  {
    if n > 0 {
      IniCanonLines(num, iva, n - 1);
    }
  }

  /** Whether `to_ini` lists an entry among the other rates: not a canonical rate, and nonzero. */
  predicate IsOtherRate(e: (string, real))
  {
    e.0 !in IVA_ORDER && e.1 != 0.0
  }

  /** Any other rate has a line exactly when one of its entries is nonzero, with the key cleaned. */
  lemma IniOthersLines(num: real -> string, iva: Dict<string, real>, n: nat)
    requires n <= |iva|
    ensures |IniOthers(num, iva, n)| <= n
    ensures forall j | 0 <= j < n && IsOtherRate(iva[j]) :: OtherRateLine(num, iva[j]) in IniOthers(num, iva, n)
    ensures forall line | line in IniOthers(num, iva, n) :: exists j | 0 <= j < n :: IsOtherRate(iva[j]) && line == OtherRateLine(num, iva[j])
  {
    FilterMapMembers(IsOtherRate, e => OtherRateLine(num, e), iva, n);
  }

  /**
   * `to_ini` writes the sections meta, factura, iva, percepciones and retenciones in that order,
   * each closed by a blank line; the IVA section puts the canonical rates before the others, and
   * the perception and retention sections hold the nonzero entries sorted by key.
   */
  lemma IniLayout(num: real -> string, m: Minimal)
    ensures var p := m.payload;
      IniLines(num, m)
      == IniSection("meta", ["status=ok", "version=1", "ocr=" + OcrFlag(m.ocr)])
      + IniSection("factura", ["numero=" + p.numero, "fecha=" + p.fecha, "cuit=" + p.cuit, "total=" + num(p.total)])
      + IniSection("iva", IniCanon(num, p.iva, |IVA_ORDER|) + IniOthers(num, p.iva, |p.iva|))
      + IniSection("percepciones", RenderPairs(num, KeyItems(p.percepciones)))
      + IniSection("retenciones", RenderPairs(num, KeyItems(p.retenciones)))
  {
    var p := m.payload;
    IniPairsAgree(num, p.percepciones);
    IniPairsAgree(num, p.retenciones);
  }
}
