/**
 * The vendor detection configuration: for each vendor id, the names that identify it in a
 * document and the CUITs registered to it, gathered into a name table keyed by the upper-cased
 * vendor id and a CUIT-to-vendor map. The YAML file itself is not read here: the parsed mapping
 * is the input, `None` standing for a missing file.
 */
module VendorConfig {
  import opened Wrappers
  import opened Text
  import opened OrderedDict

  /** `cfg["detect"]` of one vendor: absent lists are empty. */
  datatype DetectCfg = DetectCfg(names: seq<string>, cuits: seq<string>)

  /** `{"detect": {"names": names, "cuits": cuits}}`. */
  datatype Config = Config(names: Dict<string, seq<string>>, cuits: map<string, string>)

  /** The configuration of a missing or empty file. */
  const EMPTY_CONFIG: Config := Config([], map[])

  /** `names.setdefault(key, []).append(name)`. */
  function AppendName(names: Dict<string, seq<string>>, key: string, name: string): Dict<string, seq<string>>
  {
    Put(names, key, Get(names, key).GetOr([]) + [name])
  }

  /** The name table after appending the first `n` of `ns` under `key`. */
  function NamesAdded(names: Dict<string, seq<string>>, key: string, ns: seq<string>, n: nat): Dict<string, seq<string>>
    requires n <= |ns|
  {
    if n == 0 then names else AppendName(NamesAdded(names, key, ns, n - 1), key, ns[n - 1])
  }

  /** The CUIT map after registering the first `n` of `cs` to `key`. */
  function CuitsAdded(cuits: map<string, string>, key: string, cs: seq<string>, n: nat): map<string, string>
    requires n <= |cs|
  {
    if n == 0 then cuits else CuitsAdded(cuits, key, cs, n - 1)[cs[n - 1] := key]
  }

  /** One vendor of the outer loop: its names, then its CUITs. */
  function ConfigStep(cfg: Config, vid: string, dc: DetectCfg): Config
  {
    var key := Upper(vid);
    Config(NamesAdded(cfg.names, key, dc.names, |dc.names|), CuitsAdded(cfg.cuits, key, dc.cuits, |dc.cuits|))
  }

  /** The configuration after the first `n` vendors. */
  function ConfigFold(data: Dict<string, DetectCfg>, n: nat): Config
    requires n <= |data|
  {
    if n == 0 then EMPTY_CONFIG else ConfigStep(ConfigFold(data, n - 1), data[n - 1].0, data[n - 1].1)
  }

  /** `load_vendor_config(path)` on the parsed file, `None` when the file does not exist. */
  function ConfigOf(parsed: Option<Dict<string, DetectCfg>>): Config
  {
    if parsed.None? then EMPTY_CONFIG else ConfigFold(parsed.value, |parsed.value|)
  }

  /** The two nested loops of `load_vendor_config`. */
  method LoadVendorConfig(parsed: Option<Dict<string, DetectCfg>>) returns (cfg: Config)
    ensures cfg == ConfigOf(parsed)
  {
    if parsed.None? {
      return EMPTY_CONFIG;
    }
    var data := parsed.value;
    var names: Dict<string, seq<string>> := [];
    var cuits: map<string, string> := map[];
    var i := 0;
    while i < |data|
      invariant i <= |data|
      invariant Config(names, cuits) == ConfigFold(data, i)
      decreases |data| - i
    {
      var (vid, dc) := data[i];
      var key := Upper(vid);
      ghost var names0, cuits0 := names, cuits;
      var j := 0;
      while j < |dc.names|
        invariant j <= |dc.names|
        invariant names == NamesAdded(names0, key, dc.names, j)
        decreases |dc.names| - j
      {
        names := AppendName(names, key, dc.names[j]);
        j := j + 1;
      }
      j := 0;
      while j < |dc.cuits|
        invariant j <= |dc.cuits|
        invariant cuits == CuitsAdded(cuits0, key, dc.cuits, j)
        decreases |dc.cuits| - j
      {
        cuits := cuits[dc.cuits[j] := key];
        j := j + 1;
      }
      i := i + 1;
    }
    return Config(names, cuits);
  }

  // ---------------------------------------------------------------------------------------
  // Reference definitions and the lemmas connecting them
  // ---------------------------------------------------------------------------------------

  /** The names listed, in order, by the first `n` vendors whose upper-cased id is `key`. */
  function NamesFor(data: Dict<string, DetectCfg>, key: string, n: nat): seq<string>
    requires n <= |data|
  {
    if n == 0 then [] else NamesFor(data, key, n - 1) + (if Upper(data[n - 1].0) == key then data[n - 1].1.names else [])
  }

  /**
   * The vendor a CUIT ends up registered to: the upper-cased id of the last of the first `n`
   * vendors that lists it.
   */
  function CuitOwner(data: Dict<string, DetectCfg>, cuit: string, n: nat): (r: Option<string>)
    requires n <= |data|
    ensures r.None? <==> forall j | 0 <= j < n :: cuit !in data[j].1.cuits
    ensures r.Some? ==> exists j | 0 <= j < n :: && cuit in data[j].1.cuits && r.value == Upper(data[j].0)
                                                  && forall k | j < k < n :: cuit !in data[k].1.cuits
  {
    if n == 0 then None
    else if cuit in data[n - 1].1.cuits then Some(Upper(data[n - 1].0))
    else CuitOwner(data, cuit, n - 1)
  }

  lemma AppendNameGet(names: Dict<string, seq<string>>, key: string, name: string, k: string)
    ensures Get(AppendName(names, key, name), k) == if k == key then Some(Get(names, key).GetOr([]) + [name]) else Get(names, k)
  {
    PutGet(names, key, Get(names, key).GetOr([]) + [name], k);
  }

  /** Appending names under `key` extends that entry and leaves every other one alone. */
  lemma {:induction false} NamesAddedGet(names: Dict<string, seq<string>>, key: string, ns: seq<string>, n: nat, k: string)
    requires n <= |ns|
    ensures Get(NamesAdded(names, key, ns, n), k)
      == if k == key && n > 0 then Some(Get(names, key).GetOr([]) + ns[..n]) else Get(names, k)
  {
    if n > 0 {
      NamesAddedGet(names, key, ns, n - 1, k);
      NamesAddedStep(names, NamesAdded(names, key, ns, n - 1), key, ns, n, k);
    }
  }

  /** The step of `NamesAddedGet`: appending the `n`-th name to a table that holds the first `n - 1`. */
  lemma NamesAddedStep(names: Dict<string, seq<string>>, prev: Dict<string, seq<string>>, key: string, ns: seq<string>, n: nat, k: string)
    requires 0 < n <= |ns|
    requires Get(prev, k) == if k == key && n > 1 then Some(Get(names, key).GetOr([]) + ns[..n - 1]) else Get(names, k)
    ensures Get(AppendName(prev, key, ns[n - 1]), k)
      == if k == key then Some(Get(names, key).GetOr([]) + ns[..n]) else Get(names, k)
  {
    AppendNameGet(prev, key, ns[n - 1], k);
    if k == key {
      var g := Get(names, key).GetOr([]);
      if n == 1 {
        ConcatEmpty(g);
        assert ns[..0] == [];
      }
      assert Get(prev, key).GetOr([]) == g + ns[..n - 1];
      TakeSnoc(ns, n);
      ConcatAssoc(g, ns[..n - 1], [ns[n - 1]]);
    }
  }

  /** Registering CUITs to `key` maps each of them to `key` and leaves every other CUIT alone. */
  lemma {:induction false} CuitsAddedGet(cuits: map<string, string>, key: string, cs: seq<string>, n: nat, c: string)
    requires n <= |cs|
    ensures c in CuitsAdded(cuits, key, cs, n) <==> c in cuits || c in cs[..n]
    ensures c in cs[..n] ==> CuitsAdded(cuits, key, cs, n)[c] == key
    ensures c !in cs[..n] && c in cuits ==> CuitsAdded(cuits, key, cs, n)[c] == cuits[c]
  {
    if n > 0 {
      CuitsAddedGet(cuits, key, cs, n - 1, c);
      assert cs[..n] == cs[..n - 1] + [cs[n - 1]];
    }
  }

  /**
   * Each upper-cased vendor id lists, in order, the names of every vendor with that id, and has
   * an entry only when there is at least one such name.
   */
  lemma {:induction false} ConfigFoldNames(data: Dict<string, DetectCfg>, n: nat, key: string)
    requires n <= |data|
    ensures Get(ConfigFold(data, n).names, key) == if NamesFor(data, key, n) == [] then None else Some(NamesFor(data, key, n))
  {
    if n > 0 {
      ConfigFoldNames(data, n - 1, key);
      var vid, dc := data[n - 1].0, data[n - 1].1;
      NamesStep(ConfigFold(data, n - 1).names, NamesFor(data, key, n - 1), key, Upper(vid), dc.names);
    }
  }

  /** One vendor's names, appended under its id, extend the list of that id and no other. */
  lemma NamesStep(cur: Dict<string, seq<string>>, before: seq<string>, key: string, vkey: string, ns: seq<string>)
    requires Get(cur, key) == if before == [] then None else Some(before)
    ensures var after := before + (if vkey == key then ns else []);
      Get(NamesAdded(cur, vkey, ns, |ns|), key) == if after == [] then None else Some(after)
  {
    NamesAddedGet(cur, vkey, ns, |ns|, key);
    assert ns[..|ns|] == ns;
    ConcatEmpty(before);
    if vkey == key && ns != [] {
      assert Get(cur, key).GetOr([]) == before;
      assert |before + ns| > 0;
    }
  }

  /** A CUIT is mapped exactly when some vendor lists it, and to the last vendor that does. */
  lemma {:induction false} ConfigFoldCuits(data: Dict<string, DetectCfg>, n: nat, cuit: string)
    requires n <= |data|
    ensures cuit in ConfigFold(data, n).cuits <==> CuitOwner(data, cuit, n).Some?
    ensures cuit in ConfigFold(data, n).cuits ==> ConfigFold(data, n).cuits[cuit] == CuitOwner(data, cuit, n).value
  {
    if n > 0 {
      ConfigFoldCuits(data, n - 1, cuit);
      var (vid, dc) := data[n - 1];
      CuitsAddedGet(ConfigFold(data, n - 1).cuits, Upper(vid), dc.cuits, |dc.cuits|, cuit);
      assert dc.cuits[..|dc.cuits|] == dc.cuits;
    }
  }

  /** A missing file and an empty one both give empty tables. */
  lemma ConfigOfEmpty(parsed: Option<Dict<string, DetectCfg>>)
    requires parsed.None? || parsed.value == []
    ensures ConfigOf(parsed) == Config([], map[])
  {
  }

  /** A CUIT listed under two vendors belongs to the one listed later. */
  lemma ConfigLastCuitWins(a: string, b: string, cuit: string)
    ensures ConfigOf(Some([(a, DetectCfg([], [cuit])), (b, DetectCfg([], [cuit]))])).cuits == map[cuit := Upper(b)]
  {
    var data := [(a, DetectCfg([], [cuit])), (b, DetectCfg([], [cuit]))];
    var m: map<string, string> := map[];
    assert CuitsAdded(m, Upper(a), [cuit], 1) == m[cuit := Upper(a)];
    assert ConfigFold(data, 1).cuits == map[cuit := Upper(a)];
    assert CuitsAdded(map[cuit := Upper(a)], Upper(b), [cuit], 1) == map[cuit := Upper(a)][cuit := Upper(b)];
    assert map[cuit := Upper(a)][cuit := Upper(b)] == map[cuit := Upper(b)];
  }
}
