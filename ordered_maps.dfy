/**
 * Insertion-ordered dictionaries, as Python's `dict`: assigning to a
 * present key keeps its position, a new key goes last, deleting a key
 * closes the gap.
 */
module OrderedMaps {
  import opened Seqs

  datatype ODict<V> = ODict(keys: seq<string>, m: map<string, V>)

  /** The key sequence lists exactly the keys of the map, each once. */
  predicate Valid<V>(d: ODict<V>)
  {
    Distinct(d.keys) && (forall k :: k in d.keys ==> k in d.m) && (forall k :: k in d.m ==> k in d.keys)
  }

  function Empty<V>(): (d: ODict<V>)
    ensures Valid(d) && d.m == map[] && d.keys == []
  {
    ODict([], map[])
  }

  /** `d[k] = v`. */
  function Put<V>(d: ODict<V>, k: string, v: V): (r: ODict<V>)
    requires Valid(d)
    ensures Valid(r)
    ensures r.m == d.m[k := v]
    ensures r.keys == if k in d.m then d.keys else d.keys + [k]
  {
    if k in d.m then ODict(d.keys, d.m[k := v]) else ODict(d.keys + [k], d.m[k := v])
  }

  /** `del d[k]` when `k` is present, no change otherwise. */
  function Remove<V>(d: ODict<V>, k: string): (r: ODict<V>)
    requires Valid(d)
    ensures Valid(r)
    ensures r.m == d.m - {k}
    ensures r.keys == Without(d.keys, k)
    ensures k in d.m ==> Size(r) == Size(d) - 1
    ensures k !in d.m ==> r == d
  {
    WithoutDistinct(d.keys, k);
    WithoutLength(d.keys, k);
    ODict(Without(d.keys, k), d.m - {k})
  }

  /** `del d[k]` for each `k` of `ks` in turn. */
  function RemoveAll<V>(d: ODict<V>, ks: seq<string>): (r: ODict<V>)
    requires Valid(d)
    ensures Valid(r)
    ensures r.m == d.m - (set k | k in ks)
  {
    if |ks| == 0 then d
    else
      var front := ks[..|ks| - 1];
      assert (set k | k in ks) == (set k | k in front) + {ks[|ks| - 1]};
      Remove(RemoveAll(d, front), ks[|ks| - 1])
  }

  /** `len(d)`. */
  function Size<V>(d: ODict<V>): nat
  {
    |d.keys|
  }

  lemma {:induction false} DistinctCard(s: seq<string>)
    requires Distinct(s)
    ensures |set x | x in s| == |s|
  {
    if |s| > 0 {
      var t := s[..|s| - 1];
      assert Distinct(t);
      DistinctCard(t);
      assert (set x | x in s) == (set x | x in t) + {s[|s| - 1]};
      assert s[|s| - 1] !in t;
    }
  }

  /** A sequence has at least as many positions as distinct elements. */
  lemma {:induction false} SeqSetCard(s: seq<string>)
    ensures |set x | x in s| <= |s|
  {
    if |s| > 0 {
      var t := s[..|s| - 1];
      SeqSetCard(t);
      assert (set x | x in s) == (set x | x in t) + {s[|s| - 1]};
    }
  }

  /** The length of the key sequence is the number of keys in the map. */
  lemma SizeIsCard<V>(d: ODict<V>)
    requires Valid(d)
    ensures Size(d) == |d.m|
  {
    DistinctCard(d.keys);
    assert (set x | x in d.keys) == d.m.Keys;
  }

  lemma {:induction false} WithoutLength(s: seq<string>, k: string)
    requires Distinct(s)
    ensures k in s ==> |Without(s, k)| == |s| - 1
    ensures k !in s ==> Without(s, k) == s
  {
    if |s| > 0 {
      WithoutLength(s[1..], k);
    }
  }
}
