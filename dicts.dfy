/** Python dictionaries as the model uses them: a map together with the order
    in which its keys were first inserted, which is the order a dict iterates in. */
module Dicts {
  import opened Seqs

  datatype Dict<K, V> = Dict(keys: seq<K>, entries: map<K, V>)

  /** The key order lists each key of the map exactly once. */
  ghost predicate Valid<K(!new), V>(d: Dict<K, V>)
  {
    Distinct(d.keys) && forall k :: k in d.entries <==> k in d.keys
  }

  /** d[k] = v: a new key goes to the end of the order, an existing key keeps
      its place and gets the new value. */
  function Insert<K(!new), V>(d: Dict<K, V>, k: K, v: V): (r: Dict<K, V>)
    requires Valid(d)
    ensures Valid(r)
    ensures r.entries == d.entries[k := v]
    ensures k in d.entries ==> r.keys == d.keys
    ensures k !in d.entries ==> r.keys == d.keys + [k]
  {
    Dict(if k in d.entries then d.keys else d.keys + [k], d.entries[k := v])
  }

  /** Inserting the keys ks one after another orders the dict by first insertion. */
  lemma InsertOrder<K(!new), V>(d: Dict<K, V>, ks: seq<K>, k: K, v: V)
    requires Valid(d) && d.keys == Dedup(ks)
    ensures Insert(d, k, v).keys == Dedup(ks + [k])
  {
    DedupSnoc(ks, k);
    DedupProperties(ks);
  }

  /** The dict left by `d[ks[i]] = vs[i]` for each i in order, starting from {}. */
  function FromPairs<K(!new), V>(ks: seq<K>, vs: seq<V>): (r: Dict<K, V>)
    requires |ks| == |vs|
    ensures Valid(r)
  {
    if ks == [] then Dict([], map[])
    else Insert(FromPairs(ks[..|ks| - 1], vs[..|vs| - 1]), ks[|ks| - 1], vs[|vs| - 1])
  }

  lemma FromPairsSnoc<K(!new), V>(ks: seq<K>, vs: seq<V>, k: K, v: V)
    requires |ks| == |vs|
    ensures FromPairs(ks + [k], vs + [v]) == Insert(FromPairs(ks, vs), k, v)
  {
    assert (ks + [k])[..|ks|] == ks;
    assert (vs + [v])[..|vs|] == vs;
  }

  /** The keys are ks without repetitions, in the order each was first
      inserted, and a key is present exactly when it is among ks. */
  lemma {:induction false} FromPairsKeys<K(!new), V>(ks: seq<K>, vs: seq<V>)
    requires |ks| == |vs|
    ensures FromPairs(ks, vs).keys == Dedup(ks)
    ensures forall k :: k in FromPairs(ks, vs).entries <==> k in ks
  {
    assert FromPairs(ks, vs).keys == Dedup(ks) by {
      if ks != [] {
        var n := |ks| - 1;
        FromPairsKeys(ks[..n], vs[..n]);
        InsertOrder(FromPairs(ks[..n], vs[..n]), ks[..n], ks[n], vs[n]);
        assert ks == ks[..n] + [ks[n]];
      }
    }
    DedupProperties(ks);
  }

  /** Later insertions overwrite earlier ones: each key holds the value
      paired with its last occurrence. */
  lemma {:induction false} FromPairsLast<K(!new), V>(ks: seq<K>, vs: seq<V>, k: K)
    requires |ks| == |vs| && k in ks
    ensures k in FromPairs(ks, vs).entries
    ensures FromPairs(ks, vs).entries[k] == vs[LastIndex(ks, k)]
  {
    var n := |ks| - 1;
    if ks[n] != k {
      assert k in ks[..n] by {
        var j :| 0 <= j < |ks| && ks[j] == k;
        assert ks[..n][j] == k;
      }
      FromPairsLast(ks[..n], vs[..n], k);
    }
  }

  /** d.items(): the key-value pairs in iteration order. */
  function Items<K(!new), V>(d: Dict<K, V>): (r: seq<(K, V)>)
    requires Valid(d)
    ensures Firsts(r) == d.keys
    ensures forall i :: 0 <= i < |r| ==> r[i].0 in d.entries && r[i].1 == d.entries[r[i].0]
  {
    PairsOf(d.keys, d.entries)
  }

  /** The pairs (k, m[k]) for the keys ks in order. */
  function PairsOf<K, V>(ks: seq<K>, m: map<K, V>): (r: seq<(K, V)>)
    requires forall i :: 0 <= i < |ks| ==> ks[i] in m
    ensures |r| == |ks|
    ensures forall i :: 0 <= i < |r| ==> r[i] == (ks[i], m[ks[i]])
  {
    if ks == [] then [] else PairsOf(ks[..|ks| - 1], m) + [(ks[|ks| - 1], m[ks[|ks| - 1]])]
  }
}
