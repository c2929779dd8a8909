/**
 * The in-memory storage backend: a key-value store in insertion order with
 * one metadata record per key carrying a version that counts the stores of
 * that key since it was last deleted.
 */
module MemoryStorage {
  import opened Outcomes
  import opened Seqs
  import opened Text
  import opened OrderedMaps

  /** `StorageMetadata`; `size` and `checksum` describe the stored value's printed form. */
  datatype Metadata = Metadata(
    key: string,
    size: nat,
    createdAt: real,
    updatedAt: real,
    version: nat,
    checksum: string,
    compressed: bool,
    encrypted: bool,
    accessCount: nat,
    lastAccessed: real)

  /** Both stores: the data in insertion order and the metadata by key. */
  datatype Backend<V> = Backend(data: ODict<V>, meta: map<string, Metadata>)

  /** Every stored key has exactly one metadata record, named after it, with a version of at least one. */
  predicate BackendOk<V>(b: Backend<V>)
  {
    && Valid(b.data)
    && b.meta.Keys == b.data.m.Keys
    && forall k :: k in b.meta ==> b.meta[k].key == k && b.meta[k].version >= 1
  }

  function EmptyBackend<V>(): (b: Backend<V>)
    ensures BackendOk(b) && b.data.m == map[]
  {
    Backend(Empty(), map[])
  }

  /** The version the next store of `key` records: one more than the current one, counting an absent record as 0. */
  function NextVersion(meta: map<string, Metadata>, key: string): (v: nat)
    ensures v >= 1
    ensures key !in meta ==> v == 1
  {
    (if key in meta then meta[key].version else 0) + 1
  }

  /**
   * `store`: the value is kept (a copy, which value semantics give for free),
   * and a fresh metadata record replaces the old one, keeping only the
   * incremented version. `rendered` and `digest` stand for `str(data)` and
   * its MD5 digest; `now` stands for the clock reading.
   */
  function Store<V>(b: Backend<V>, key: string, value: V, rendered: string, digest: string, now: real): (r: Backend<V>)
    requires BackendOk(b)
    ensures BackendOk(r)
    ensures r.data == Put(b.data, key, value)
    ensures key in r.meta && r.meta[key].version == NextVersion(b.meta, key)
    ensures r.meta[key].size == |rendered| && r.meta[key].checksum == digest && r.meta[key].accessCount == 0
    ensures forall k :: k in b.meta && k != key ==> k in r.meta && r.meta[k] == b.meta[k]
  {
    var m := Metadata(key, |rendered|, now, now, NextVersion(b.meta, key), digest, false, false, 0, now);
    Backend(Put(b.data, key, value), b.meta[key := m])
  }

  /**
   * `retrieve`: the value under `key`, or `None`; a hit also counts one
   * access in the metadata and stamps it with `now`.
   */
  function Retrieve<V>(b: Backend<V>, key: string, now: real): (r: (Backend<V>, Option<V>))
    requires BackendOk(b)
    ensures BackendOk(r.0)
    ensures r.1 == if key in b.data.m then Some(b.data.m[key]) else None
    ensures r.0.data == b.data && r.0.meta.Keys == b.meta.Keys
    ensures key in b.meta ==> r.0.meta[key].accessCount == b.meta[key].accessCount + 1
                              && r.0.meta[key].version == b.meta[key].version
    ensures forall k :: k in b.meta && k != key ==> r.0.meta[k] == b.meta[k]
  {
    if key !in b.data.m then (b, None)
    else
      // a stored key always has its metadata record, so the source's check for one always passes
      var m := b.meta[key];
      (Backend(b.data, b.meta[key := m.(accessCount := m.accessCount + 1, lastAccessed := now)]), Some(b.data.m[key]))
  }

  /** `delete`: the key leaves both stores; deleting an absent key is not an error. */
  function Delete<V>(b: Backend<V>, key: string): (r: Backend<V>)
    requires BackendOk(b)
    ensures BackendOk(r)
    ensures r.data == Remove(b.data, key)
    ensures r.meta == b.meta - {key}
  {
    Backend(Remove(b.data, key), b.meta - {key})
  }

  /** `exists`. */
  predicate Exists<V>(b: Backend<V>, key: string)
  {
    key in b.data.m
  }

  /** The keys of `keys` that start with `prefix`, in their order. */
  function KeysWithPrefix(keys: seq<string>, prefix: string): (r: seq<string>)
    ensures forall k :: k in r <==> k in keys && StartsWith(k, prefix)
    ensures |r| <= |keys|
    ensures Distinct(keys) ==> Distinct(r)
  {
    if |keys| == 0 then []
    else
      var rest := KeysWithPrefix(keys[1..], prefix);
      assert forall k :: k in keys <==> k == keys[0] || k in keys[1..];
      if StartsWith(keys[0], prefix) then [keys[0]] + rest else rest
  }

  /** `list_keys`: an empty prefix lists every key, as the unfiltered branch does. */
  function ListKeys<V>(b: Backend<V>, prefix: string): (r: seq<string>)
    requires BackendOk(b)
    ensures Distinct(r)
    ensures forall k :: k in r <==> Exists(b, k) && StartsWith(k, prefix)
    ensures prefix == "" ==> r == b.data.keys
  {
    if prefix == "" then
      assert forall k :: k in b.data.keys ==> StartsWith(k, "");
      b.data.keys
    else KeysWithPrefix(b.data.keys, prefix)
  }

  /** A store is read back unchanged, whatever the clock readings. */
  lemma StoreThenRetrieve<V>(b: Backend<V>, key: string, value: V, rendered: string, digest: string, now: real, later: real)
    requires BackendOk(b)
    ensures Retrieve(Store(b, key, value, rendered, digest, now), key, later).1 == Some(value)
    ensures Exists(Store(b, key, value, rendered, digest, now), key)
  {
  }

  /** A store of one key leaves what every other key reads unchanged. */
  lemma StoreElsewhere<V>(b: Backend<V>, key: string, other: string, value: V, rendered: string, digest: string, now: real, later: real)
    requires BackendOk(b) && other != key
    ensures Retrieve(Store(b, key, value, rendered, digest, now), other, later).1 == Retrieve(b, other, later).1
  {
  }

  /** After a delete the key neither exists nor reads back, and it is not listed under any prefix. */
  lemma DeleteThenAbsent<V>(b: Backend<V>, key: string, now: real, prefix: string)
    requires BackendOk(b)
    ensures !Exists(Delete(b, key), key)
    ensures Retrieve(Delete(b, key), key, now).1 == None
    ensures key !in ListKeys(Delete(b, key), prefix)
  {
  }

  /** Store every value of `values` under `key` in turn. */
  function StoreAll<V>(b: Backend<V>, key: string, values: seq<V>, now: real): (r: Backend<V>)
    requires BackendOk(b)
    ensures BackendOk(r)
  {
    if |values| == 0 then b
    else Store(StoreAll(b, key, values[..|values| - 1], now), key, values[|values| - 1], "", "", now)
  }

  /**
   * Versions count stores: `n` stores of a key that was absent (never stored,
   * or deleted since) leave it at version `n`, and the last value wins.
   */
  lemma {:induction false} VersionCountsStores<V>(b: Backend<V>, key: string, values: seq<V>, now: real)
    requires BackendOk(b) && key !in b.meta && |values| > 0
    ensures key in StoreAll(b, key, values, now).meta
    ensures StoreAll(b, key, values, now).meta[key].version == |values|
    ensures Retrieve(StoreAll(b, key, values, now), key, now).1 == Some(values[|values| - 1])
  {
    if |values| > 1 {
      VersionCountsStores(b, key, values[..|values| - 1], now);
    }
  }

  /** Deleting and storing again restarts the version at 1. */
  lemma DeleteResetsVersion<V>(b: Backend<V>, key: string, value: V, rendered: string, digest: string, now: real)
    requires BackendOk(b)
    ensures Store(Delete(b, key), key, value, rendered, digest, now).meta[key].version == 1
  {
  }

  /** The backend as an object whose two dictionaries the operations change in place. */
  class MemoryBackend<V> {
    var data: ODict<V>
    var meta: map<string, Metadata>

    function State(): Backend<V>
      reads this
    {
      Backend(data, meta)
    }

    constructor ()
      ensures State() == EmptyBackend()
    {
      data, meta := Empty(), map[];
    }

    /** `store`: always succeeds. */
    method StoreValue(key: string, value: V, rendered: string, digest: string, now: real) returns (ok: bool)
      requires BackendOk(State())
      modifies this
      ensures ok
      ensures State() == Store(old(State()), key, value, rendered, digest, now)
    {
      var version := if key in meta then meta[key].version + 1 else 1;
      data := Put(data, key, value);
      meta := meta[key := Metadata(key, |rendered|, now, now, version, digest, false, false, 0, now)];
      ok := true;
    }

    /** `retrieve`. */
    method RetrieveValue(key: string, now: real) returns (r: Option<V>)
      requires BackendOk(State())
      modifies this
      ensures (State(), r) == Retrieve(old(State()), key, now)
    {
      if key !in data.m {
        return None;
      }
      if key in meta {
        var m := meta[key];
        meta := meta[key := m.(accessCount := m.accessCount + 1, lastAccessed := now)];
      }
      r := Some(data.m[key]);
    }

    /** `delete`: always succeeds. */
    method DeleteValue(key: string) returns (ok: bool)
      requires BackendOk(State())
      modifies this
      ensures ok
      ensures State() == Delete(old(State()), key)
    {
      data := Remove(data, key);
      meta := meta - {key};
      ok := true;
    }

    /** `get_metadata`. */
    function GetMetadata(key: string): (r: Option<Metadata>)
      reads this
      requires BackendOk(State())
      ensures r.Some? <==> Exists(State(), key)
      ensures r.Some? ==> r.value.key == key && r.value.version >= 1
    {
      if key in meta then Some(meta[key]) else None
    }

    /** `cleanup`: both dictionaries emptied. */
    method Cleanup()
      modifies this
      ensures State() == EmptyBackend()
    {
      data, meta := Empty(), map[];
    }
  }
}
