/**
 * Python's `dict`, which iterates in insertion order, as a list of key/value pairs.
 * Assigning to a present key keeps its position; a new key goes at the end.
 */
module OrderedDict {
  import opened Wrappers

  type Dict<K, V> = seq<(K, V)>

  function Keys<K, V>(d: Dict<K, V>): (ks: seq<K>)
    ensures |ks| == |d|
    ensures forall i | 0 <= i < |d| :: ks[i] == d[i].0
  {
    seq(|d|, i requires 0 <= i < |d| => d[i].0)
  }

  function Values<K, V>(d: Dict<K, V>): (vs: seq<V>)
    ensures |vs| == |d|
    ensures forall i | 0 <= i < |d| :: vs[i] == d[i].1
  {
    seq(|d|, i requires 0 <= i < |d| => d[i].1)
  }

  /** No key occurs twice. */
  predicate UniqueKeys<K(==), V>(d: Dict<K, V>)
  {
    forall i, j | 0 <= i < j < |d| :: d[i].0 != d[j].0
  }

  /** `k in d`. */
  predicate HasKey<K(==), V>(d: Dict<K, V>, k: K)
  {
    k in Keys(d)
  }

  /** `d.get(k)`: the value at the first pair with key `k`. */
  function Get<K(==), V>(d: Dict<K, V>, k: K): (r: Option<V>)
    ensures r.Some? <==> HasKey(d, k)
  {
    if d == [] then None
    else
      assert Keys(d) == [d[0].0] + Keys(d[1..]);
      if d[0].0 == k then Some(d[0].1) else Get(d[1..], k)
  }

  /** `d[k] = v`. */
  function Put<K(==), V>(d: Dict<K, V>, k: K, v: V): (r: Dict<K, V>)
    ensures |r| == if HasKey(d, k) then |d| else |d| + 1
  {
    if d == [] then [(k, v)]
    else
      assert Keys(d) == [d[0].0] + Keys(d[1..]);
      if d[0].0 == k then [(k, v)] + d[1..] else [d[0]] + Put(d[1..], k, v)
  }

  lemma KeysCons<K, V>(p: (K, V), d: Dict<K, V>)
    ensures Keys([p] + d) == [p.0] + Keys(d)
  {
  }

  /** Assigning keeps the key order and appends a new key at the end. */
  lemma {:induction false} PutKeys<K, V>(d: Dict<K, V>, k: K, v: V)
    ensures Keys(Put(d, k, v)) == if HasKey(d, k) then Keys(d) else Keys(d) + [k]
  {
    if d != [] {
      assert d == [d[0]] + d[1..];
      KeysCons(d[0], d[1..]);
      if d[0].0 == k {
        KeysCons((k, v), d[1..]);
      } else {
        PutKeys(d[1..], k, v);
        KeysCons(d[0], Put(d[1..], k, v));
      }
    }
  }

  /** After `d[k] = v`, `k` is a key and so is every key that was there. */
  lemma PutHasKey<K, V>(d: Dict<K, V>, k: K, v: V)
    ensures HasKey(Put(d, k, v), k)
    ensures forall k' | HasKey(d, k') :: HasKey(Put(d, k, v), k')
  {
    PutKeys(d, k, v);
  }

  /** After `d[k] = v`, `k` maps to `v` and every other key to what it mapped to before. */
  lemma {:induction false} PutGet<K, V>(d: Dict<K, V>, k: K, v: V, k': K)
    ensures Get(Put(d, k, v), k') == if k' == k then Some(v) else Get(d, k')
  {
    if d != [] && d[0].0 != k {
      PutGet(d[1..], k, v, k');
    }
  }

  lemma PutUnique<K, V>(d: Dict<K, V>, k: K, v: V)
    requires UniqueKeys(d)
    ensures UniqueKeys(Put(d, k, v))
  {
    var r := Put(d, k, v);
    PutKeys(d, k, v);
    var ks, kr := Keys(d), Keys(r);
    forall i, j | 0 <= i < j < |r|
      ensures r[i].0 != r[j].0
    {
      assert r[i].0 == kr[i] && r[j].0 == kr[j];
      if j < |d| {
        assert kr[i] == ks[i] && kr[j] == ks[j];
      } else {
        assert kr[j] == k && kr[i] == ks[i] && !HasKey(d, k);
      }
    }
  }

  /** Every pair after `d[k] = v` is the new pair or one that was there before. */
  lemma {:induction false} PutPairs<K, V>(d: Dict<K, V>, k: K, v: V)
    ensures (k, v) in Put(d, k, v)
    ensures forall p | p in Put(d, k, v) :: p == (k, v) || p in d
  {
    if d != [] && d[0].0 != k {
      PutPairs(d[1..], k, v);
    }
  }

  /** A pair whose key is not assigned stays. */
  lemma {:induction false} PutKeeps<K, V>(d: Dict<K, V>, k: K, v: V, p: (K, V))
    requires p in d && p.0 != k
    ensures p in Put(d, k, v)
  {
    if d[0] != p {
      assert p in d[1..];
      if d[0].0 != k {
        PutKeeps(d[1..], k, v, p);
      }
    }
  }

  /** A new key goes at the end. */
  lemma {:induction false} PutAbsent<K, V>(d: Dict<K, V>, k: K, v: V)
    requires !HasKey(d, k)
    ensures Put(d, k, v) == d + [(k, v)]
  {
    if d != [] {
      assert Keys(d) == [d[0].0] + Keys(d[1..]);
      PutAbsent(d[1..], k, v);
      assert d == [d[0]] + d[1..];
    }
  }

  /** The value found for a key is paired with it in the dictionary. */
  lemma {:induction false} GetIn<K, V>(d: Dict<K, V>, k: K)
    requires HasKey(d, k)
    ensures (k, Get(d, k).value) in d
  {
    assert Keys(d) == [d[0].0] + Keys(d[1..]);
    if d[0].0 != k {
      GetIn(d[1..], k);
    }
  }

  /** With unique keys, the value found for a key is the one it is paired with. */
  lemma {:induction false} GetUnique<K, V>(d: Dict<K, V>, k: K, v: V)
    requires UniqueKeys(d) && (k, v) in d
    ensures Get(d, k) == Some(v)
  {
    if d[0] != (k, v) {
      assert (k, v) in d[1..];
      assert d[0].0 != k by {
        var i :| 0 <= i < |d| && d[i] == (k, v);
        assert i > 0;
      }
      GetUnique(d[1..], k, v);
    }
  }

  /** The elements of `s` in the order of their first occurrence, each once. */
  function FirstSeen<T(==)>(s: seq<T>): (r: seq<T>)
    ensures forall x | x in r :: x in s
    ensures forall x | x in s :: x in r
  {
    if s == [] then []
    else
      var init := s[..|s| - 1];
      assert s == init + [s[|s| - 1]];
      FirstSeen(init) + (if s[|s| - 1] in init then [] else [s[|s| - 1]])
  }

  /** When the keys are the first occurrences in `s`, after `d[k] = v` they are those of `s + [k]`. */
  lemma PutFirstSeen<K, V>(d: Dict<K, V>, s: seq<K>, k: K, v: V)
    requires Keys(d) == FirstSeen(s)
    ensures Keys(Put(d, k, v)) == FirstSeen(s + [k])
  {
    PutKeys(d, k, v);
    assert (s + [k])[..|s|] == s;
  }

  lemma KeysTakeSnoc<K, V>(d: Dict<K, V>, n: nat)
    requires 0 < n <= |d|
    ensures Keys(d[..n]) == Keys(d[..n - 1]) + [d[n - 1].0]
  {
  }

  /** `sum(d.values())`, added left to right. */
  function SumValues<K>(d: Dict<K, real>): real
  {
    if d == [] then 0.0 else SumValues(d[..|d| - 1]) + d[|d| - 1].1
  }
}
