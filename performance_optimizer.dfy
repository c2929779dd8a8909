/**
 * The performance optimizer's state machines: a TTL cache that evicts its
 * least accessed entry when full, and the adaptive path selector's path
 * count, early-termination rule and bounded per-path score history.
 */
module PerformanceOptimizer {
  import opened Outcomes
  import opened Seqs
  import opened OrderedMaps

  // ---------------------------------------------------------------------
  // Cache entries
  // ---------------------------------------------------------------------

  /** `CacheEntry`: the value, when it was stored, how often it was read and how long it lives. */
  datatype CacheEntry<D> = CacheEntry(data: D, timestamp: real, accessCount: nat, ttl: real)

  /** `is_expired`: more than `ttl` seconds have passed since the entry was stored. */
  predicate Expired<D>(e: CacheEntry<D>, now: real)
  {
    now - e.timestamp > e.ttl
  }

  /** `ttl or self.default_ttl`: a missing or zero ttl falls back to the default. */
  function EffectiveTtl(ttl: Option<real>, defaultTtl: real): (r: real)
    ensures ttl.Some? && ttl.value != 0.0 ==> r == ttl.value
    ensures ttl.None? || ttl.value == 0.0 ==> r == defaultTtl
  {
    if ttl.Some? && ttl.value != 0.0 then ttl.value else defaultTtl
  }

  /** The most entries a cache of size limit `maxSize` can hold: a limit of 0 still keeps the entry just set. */
  function Capacity(maxSize: nat): nat
  {
    if maxSize == 0 then 1 else maxSize
  }

  /**
   * The position `min(keys, key=access_count)` picks: the first key with
   * the smallest access count, in insertion order.
   */
  function LeastUsedIndex<D>(keys: seq<string>, m: map<string, CacheEntry<D>>): (i: nat)
    requires |keys| > 0 && forall j :: 0 <= j < |keys| ==> keys[j] in m
    ensures i < |keys|
    ensures forall j :: 0 <= j < |keys| ==> m[keys[i]].accessCount <= m[keys[j]].accessCount
    ensures forall j :: 0 <= j < i ==> m[keys[j]].accessCount > m[keys[i]].accessCount
  {
    LeastUsedAmong(keys, m, |keys|)
  }

  /** The same choice among the first `n` keys. */
  function LeastUsedAmong<D>(keys: seq<string>, m: map<string, CacheEntry<D>>, n: nat): (i: nat)
    requires 0 < n <= |keys| && forall j :: 0 <= j < |keys| ==> keys[j] in m
    ensures i < n
    ensures forall j :: 0 <= j < n ==> m[keys[i]].accessCount <= m[keys[j]].accessCount
    ensures forall j :: 0 <= j < i ==> m[keys[j]].accessCount > m[keys[i]].accessCount
  {
    if n == 1 then 0
    else
      var p := LeastUsedAmong(keys, m, n - 1);
      if m[keys[n - 1]].accessCount < m[keys[p]].accessCount then n - 1 else p
  }

  /** `_evict_least_used` on the entries: nothing for an empty cache, else the least used entry removed. */
  function Evicted<D>(d: ODict<CacheEntry<D>>): (r: ODict<CacheEntry<D>>)
    requires Valid(d)
    ensures Valid(r)
    ensures Size(d) == 0 ==> r == d
    ensures Size(d) > 0 ==> Size(r) == Size(d) - 1 && r == Remove(d, d.keys[LeastUsedIndex(d.keys, d.m)])
  {
    if Size(d) == 0 then d else Remove(d, d.keys[LeastUsedIndex(d.keys, d.m)])
  }

  /** The scan of `min(...)`: a loop keeping the first smallest access count. */
  method LeastUsedKey<D>(d: ODict<CacheEntry<D>>) returns (k: string)
    requires Valid(d) && Size(d) > 0
    ensures k == d.keys[LeastUsedIndex(d.keys, d.m)]
  {
    var best := 0;
    var i := 1;
    while i < |d.keys|
      invariant 1 <= i <= |d.keys|
      invariant best == LeastUsedAmong(d.keys, d.m, i)
    {
      if d.m[d.keys[i]].accessCount < d.m[d.keys[best]].accessCount {
        best := i;
      }
      i := i + 1;
    }
    k := d.keys[best];
  }

  /** `IntelligentCache`: entries in insertion order with hit, miss and eviction counters. */
  class IntelligentCache<D> {
    var cache: ODict<CacheEntry<D>>
    var defaultTtl: real
    var maxSize: nat
    var hits: nat
    var misses: nat
    var evictions: nat

    ghost predicate Invariant()
      reads this
    {
      Valid(cache) && Size(cache) <= Capacity(maxSize)
    }

    constructor (defaultTtl: real, maxSize: nat)
      ensures Invariant()
      ensures cache == Empty() && this.defaultTtl == defaultTtl && this.maxSize == maxSize
      ensures hits == 0 && misses == 0 && evictions == 0
    {
      cache := Empty();
      this.defaultTtl, this.maxSize := defaultTtl, maxSize;
      hits, misses, evictions := 0, 0, 0;
    }

    /**
     * `get`: a missing key is a miss; an expired entry is deleted and is a
     * miss; otherwise the entry's access count and the hits go up by one.
     */
    method Get(key: string, now: real) returns (r: Option<D>)
      requires Invariant()
      modifies `cache, `hits, `misses
      ensures Invariant()
      ensures key !in old(cache).m ==>
        r == None && cache == old(cache) && misses == old(misses) + 1 && hits == old(hits)
      ensures key in old(cache).m && Expired(old(cache).m[key], now) ==>
        r == None && cache == Remove(old(cache), key) && misses == old(misses) + 1 && hits == old(hits)
      ensures key in old(cache).m && !Expired(old(cache).m[key], now) ==>
        var e := old(cache).m[key];
        && r == Some(e.data)
        && cache == Put(old(cache), key, e.(accessCount := e.accessCount + 1))
        && hits == old(hits) + 1 && misses == old(misses)
    {
      if key in cache.m {
        var e := cache.m[key];
        if Expired(e, now) {
          cache := Remove(cache, key);
          misses := misses + 1;
          return None;
        }
        cache := Put(cache, key, e.(accessCount := e.accessCount + 1));
        hits := hits + 1;
        return Some(e.data);
      }
      misses := misses + 1;
      r := None;
    }

    /** `_evict_least_used`. */
    method EvictLeastUsed()
      requires Valid(cache)
      modifies `cache, `evictions
      ensures cache == Evicted(old(cache))
      ensures evictions == old(evictions) + (if Size(old(cache)) > 0 then 1 else 0)
    {
      if Size(cache) == 0 {
        return;
      }
      var k := LeastUsedKey(cache);
      cache := Remove(cache, k);
      evictions := evictions + 1;
    }

    /**
     * `set`: a full cache first evicts its least accessed entry (even when
     * `key` is already present), then the entry is stored fresh with access
     * count 0.
     */
    method Set(key: string, data: D, now: real, ttl: Option<real>)
      requires Invariant()
      modifies `cache, `evictions
      ensures Invariant()
      ensures var base := if Size(old(cache)) >= maxSize then Evicted(old(cache)) else old(cache);
              cache == Put(base, key, CacheEntry(data, now, 0, EffectiveTtl(ttl, defaultTtl)))
      ensures evictions == old(evictions) + (if Size(old(cache)) >= maxSize && Size(old(cache)) > 0 then 1 else 0)
      ensures key in cache.m && cache.m[key].data == data && cache.m[key].accessCount == 0
    {
      if Size(cache) >= maxSize {
        EvictLeastUsed();
      }
      cache := Put(cache, key, CacheEntry(data, now, 0, EffectiveTtl(ttl, defaultTtl)));
    }

    /** `hit_rate` of `get_stats`: hits over `max(hits + misses, 1)`. */
    function HitRate(): (r: real)
      reads this
      ensures 0.0 <= r <= 1.0
      ensures hits + misses == 0 ==> r == 0.0
      ensures misses == 0 && hits > 0 ==> r == 1.0
    {
      var total := hits + misses;
      (hits as real) / ((if total >= 1 then total else 1) as real)
    }
  }

  /**
   * Storing a key already present in a full cache, when another entry is
   * the least used one, leaves the cache one entry short of full.
   */
  lemma SetPresentKeyWhenFull<D>(d: ODict<CacheEntry<D>>, maxSize: nat, key: string, e: CacheEntry<D>)
    requires Valid(d) && maxSize >= 1 && Size(d) == maxSize && key in d.m
    requires d.keys[LeastUsedIndex(d.keys, d.m)] != key
    ensures Size(Put(Evicted(d), key, e)) == maxSize - 1
  {
    var gone := d.keys[LeastUsedIndex(d.keys, d.m)];
    var base := Evicted(d);
    assert key in base.m;
    SizeIsCard(base);
    SizeIsCard(Put(base, key, e));
    assert Put(base, key, e).m.Keys == base.m.Keys;
  }

  // ---------------------------------------------------------------------
  // Adaptive path selector
  // ---------------------------------------------------------------------

  /**
   * The selector's configuration with its defaults applied; `thresholds`
   * holds the items of the confidence-to-count mapping in the mapping's own
   * order.
   */
  datatype SelectorConfig = SelectorConfig(
    adaptivePathCount: bool,
    maxPaths: int,
    minPaths: int,
    thresholds: seq<(real, int)>,
    earlyTermination: bool,
    consistencyThreshold: real)

  /** No threshold is larger than one listed before it. */
  predicate Descending(ts: seq<(real, int)>)
  {
    forall i, j :: 0 <= i < j < |ts| ==> ts[i].0 >= ts[j].0
  }

  /** Insertion of a mapping item into a list sorted by descending threshold. */
  function InsertDescending(x: (real, int), ys: seq<(real, int)>): (r: seq<(real, int)>)
    ensures multiset(r) == multiset(ys) + multiset{x}
  {
    if |ys| == 0 then [x]
    else if ys[0].0 <= x.0 then [x] + ys
    else
      assert ys == [ys[0]] + ys[1..];
      [ys[0]] + InsertDescending(x, ys[1..])
  }

  lemma {:induction false} InsertDescendingSorted(x: (real, int), ys: seq<(real, int)>)
    requires Descending(ys)
    ensures Descending(InsertDescending(x, ys))
  {
    if |ys| > 0 && ys[0].0 > x.0 {
      var rest := ys[1..];
      InsertDescendingSorted(x, rest);
      var r := InsertDescending(x, rest);
      forall j | 0 <= j < |r| ensures r[j].0 <= ys[0].0 {
        assert r[j] in multiset(rest) + multiset{x};
        if r[j] != x {
          var t :| 0 <= t < |rest| && rest[t] == r[j];
          assert ys[t + 1] == r[j];
        }
      }
      forall i, j | 0 <= i < j < |r| + 1 ensures ([ys[0]] + r)[i].0 >= ([ys[0]] + r)[j].0 {
        assert ([ys[0]] + r)[j] == r[j - 1];
      }
    }
  }

  /** `sorted(mapping.items(), reverse=True)`: the items by descending threshold. */
  function SortedDescending(ts: seq<(real, int)>): (r: seq<(real, int)>)
    ensures multiset(r) == multiset(ts)
    ensures Descending(r)
  {
    if |ts| == 0 then []
    else
      assert ts == [ts[0]] + ts[1..];
      InsertDescendingSorted(ts[0], SortedDescending(ts[1..]));
      InsertDescending(ts[0], SortedDescending(ts[1..]))
  }

  /** The count of the first threshold (in list order) that the confidence reaches. */
  function FirstReached(ts: seq<(real, int)>, confidence: real): (r: Option<int>)
    ensures r.None? <==> forall i :: 0 <= i < |ts| ==> confidence < ts[i].0
    ensures r.Some? ==> exists i :: 0 <= i < |ts| && ts[i].0 <= confidence && r.value == ts[i].1
  {
    if |ts| == 0 then None
    else if confidence >= ts[0].0 then Some(ts[0].1)
    else FirstReached(ts[1..], confidence)
  }

  /**
   * On a descending list the threshold at the first position the confidence
   * reaches is the one chosen, and it is the largest threshold reached.
   */
  lemma {:induction false} FirstReachedIsLargest(ts: seq<(real, int)>, confidence: real, k: nat)
    requires Descending(ts)
    requires k < |ts| && ts[k].0 <= confidence && forall j :: 0 <= j < k ==> confidence < ts[j].0
    ensures FirstReached(ts, confidence) == Some(ts[k].1)
    ensures forall j :: 0 <= j < |ts| && ts[j].0 <= confidence ==> ts[j].0 <= ts[k].0
  {
    if k > 0 {
      var rest := ts[1..];
      forall i, j | 0 <= i < j < |rest| ensures rest[i].0 >= rest[j].0 {
        assert rest[i] == ts[i + 1] && rest[j] == ts[j + 1];
      }
      forall j | 0 <= j < k - 1 ensures confidence < rest[j].0 {
        assert rest[j] == ts[j + 1];
      }
      FirstReachedIsLargest(rest, confidence, k - 1);
    }
  }

  /** The position of the first threshold the confidence reaches. */
  lemma {:induction false} FirstReachedAt(ts: seq<(real, int)>, confidence: real) returns (k: nat)
    requires FirstReached(ts, confidence).Some?
    ensures k < |ts| && ts[k].0 <= confidence && FirstReached(ts, confidence) == Some(ts[k].1)
    ensures forall j :: 0 <= j < k ==> confidence < ts[j].0
  {
    if confidence >= ts[0].0 {
      k := 0;
    } else {
      var k' := FirstReachedAt(ts[1..], confidence);
      k := k' + 1;
      forall j | 0 <= j < k ensures confidence < ts[j].0 {
        if j > 0 {
          assert ts[j] == ts[1..][j - 1];
        }
      }
    }
  }

  /**
   * Visiting the mapping by descending threshold chooses the count of the
   * largest threshold the confidence reaches, and nothing when it reaches
   * none.
   */
  lemma LargestThresholdChosen(ts: seq<(real, int)>, confidence: real)
    ensures FirstReached(SortedDescending(ts), confidence).None? <==> forall i :: 0 <= i < |ts| ==> confidence < ts[i].0
    ensures FirstReached(SortedDescending(ts), confidence).Some? ==>
      exists k :: 0 <= k < |ts| && ts[k].0 <= confidence && FirstReached(SortedDescending(ts), confidence) == Some(ts[k].1)
        && forall j :: 0 <= j < |ts| && ts[j].0 <= confidence ==> ts[j].0 <= ts[k].0
  {
    var s := SortedDescending(ts);
    forall i | 0 <= i < |ts| ensures ts[i] in s {
      assert ts[i] in multiset(ts);
    }
    if FirstReached(s, confidence).Some? {
      var k := FirstReachedAt(s, confidence);
      FirstReachedIsLargest(s, confidence, k);
      assert s[k] in multiset(ts);
      var t :| 0 <= t < |ts| && ts[t] == s[k];
      forall j | 0 <= j < |ts| && ts[j].0 <= confidence ensures ts[j].0 <= ts[t].0 {
        var p :| 0 <= p < |s| && s[p] == ts[j];
      }
    } else {
      forall i | 0 <= i < |ts| ensures confidence < ts[i].0 {
        var p :| 0 <= p < |s| && s[p] == ts[i];
      }
    }
  }

  /** `get_optimal_path_count` as a function of the configuration. */
  function PathCount(cfg: SelectorConfig, confidence: real, complexity: real): int
  {
    if !cfg.adaptivePathCount then cfg.maxPaths
    else
      var base := match FirstReached(SortedDescending(cfg.thresholds), confidence)
                  case Some(n) => n
                  case None => cfg.maxPaths;
      if complexity > 0.8 then (if base + 1 <= cfg.maxPaths then base + 1 else cfg.maxPaths)
      else if complexity < 0.3 then (if base - 1 >= cfg.minPaths then base - 1 else cfg.minPaths)
      else base
  }

  /**
   * The loop of `get_optimal_path_count`: the first mapped threshold the
   * confidence reaches, then at most one path more for complex tasks and at
   * most one fewer for simple ones.
   */
  method OptimalPathCount(cfg: SelectorConfig, confidence: real, complexity: real) returns (count: int)
    ensures count == PathCount(cfg, confidence, complexity)
  {
    if !cfg.adaptivePathCount {
      return cfg.maxPaths;
    }
    count := cfg.maxPaths;
    var sorted := SortedDescending(cfg.thresholds);
    var i := 0;
    while i < |sorted|
      invariant 0 <= i <= |sorted|
      invariant FirstReached(sorted, confidence) == FirstReached(sorted[i..], confidence)
    {
      if confidence >= sorted[i].0 {
        count := sorted[i].1;
        break;
      }
      assert sorted[i..][1..] == sorted[i + 1..];
      i := i + 1;
    }
    if complexity > 0.8 {
      count := if count + 1 <= cfg.maxPaths then count + 1 else cfg.maxPaths;
    } else if complexity < 0.3 {
      count := if count - 1 >= cfg.minPaths then count - 1 else cfg.minPaths;
    }
  }

  /** With every mapped count within [min, max], the chosen count stays within [min, max] too. */
  lemma PathCountInRange(cfg: SelectorConfig, confidence: real, complexity: real)
    requires cfg.minPaths <= cfg.maxPaths
    requires forall i :: 0 <= i < |cfg.thresholds| ==> cfg.minPaths <= cfg.thresholds[i].1 <= cfg.maxPaths
    ensures cfg.minPaths <= PathCount(cfg, confidence, complexity) <= cfg.maxPaths
  {
    var s := SortedDescending(cfg.thresholds);
    if cfg.adaptivePathCount && FirstReached(s, confidence).Some? {
      var k := FirstReachedAt(s, confidence);
      assert s[k] in multiset(cfg.thresholds);
      var t :| 0 <= t < |cfg.thresholds| && cfg.thresholds[t] == s[k];
    }
  }

  /**
   * `should_early_terminate`: false when disabled or with fewer than
   * `minConsistent` results; otherwise true when the success share is at
   * least the threshold or at most its complement. An empty list admitted
   * by `minConsistent <= 0` divides by zero, an error here.
   */
  function ShouldEarlyTerminate(cfg: SelectorConfig, results: seq<bool>, minConsistent: int): (r: Result<bool>)
    ensures r.Err? <==> cfg.earlyTermination && |results| == 0 && minConsistent <= 0
    ensures !cfg.earlyTermination || |results| < minConsistent ==> r == Ok(false)
    ensures r.Ok? && r.value ==> cfg.earlyTermination && |results| >= minConsistent && |results| > 0
  {
    if !cfg.earlyTermination then Ok(false)
    else if |results| < minConsistent then Ok(false)
    else if |results| == 0 then Err("division by zero")
    else
      var rate := (CountTrue(results) as real) / (|results| as real);
      Ok(rate >= cfg.consistencyThreshold || rate <= 1.0 - cfg.consistencyThreshold)
  }

  /** Enough unanimous results end verification early whenever the threshold is at most 1. */
  lemma UnanimousResultsTerminate(cfg: SelectorConfig, results: seq<bool>, minConsistent: int)
    requires cfg.earlyTermination && cfg.consistencyThreshold <= 1.0
    requires |results| > 0 && |results| >= minConsistent
    requires (forall i :: 0 <= i < |results| ==> results[i]) || (forall i :: 0 <= i < |results| ==> !results[i])
    ensures ShouldEarlyTerminate(cfg, results, minConsistent) == Ok(true)
  {
    if forall i :: 0 <= i < |results| ==> results[i] {
      CountTrueAll(results);
      assert (CountTrue(results) as real) / (|results| as real) == 1.0;
    } else {
      CountNoneTrue(results);
    }
  }

  lemma {:induction false} CountNoneTrue(bs: seq<bool>)
    requires forall i :: 0 <= i < |bs| ==> !bs[i]
    ensures CountTrue(bs) == 0
  {
    if |bs| > 0 {
      CountNoneTrue(bs[..|bs| - 1]);
    }
  }

  const PathHistoryLimit: nat := 50
  const PathHistoryKeep: nat := 25

  /** `AdaptivePathSelector`: its configuration and the score history of each path. */
  class AdaptivePathSelector {
    const config: SelectorConfig
    var history: map<string, seq<real>>

    constructor (config: SelectorConfig)
      ensures this.config == config && history == map[]
    {
      this.config := config;
      history := map[];
    }

    /** `record_path_performance`: append the score; over 50 scores keep the last 25. */
    method RecordPathPerformance(pathId: string, score: real)
      modifies `history
      ensures var before := if pathId in old(history) then old(history)[pathId] else [];
              history == old(history)[pathId := Bounded(before + [score], PathHistoryLimit, PathHistoryKeep)]
      ensures |history[pathId]| <= PathHistoryLimit
      ensures history[pathId][|history[pathId]| - 1] == score
    {
      var before := if pathId in history then history[pathId] else [];
      var h := Trimmed(before + [score], PathHistoryLimit, PathHistoryKeep);
      history := history[pathId := h];
    }
  }
}
