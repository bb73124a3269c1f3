/**
 * The AI services' performance bookkeeping: `PerformanceTracker`, which
 * counts requests and cache hits and misses, and `CacheManager`, a map of
 * time-stamped results that expire after a time-to-live.
 */
module Performance {
  import opened Common

  /** `get_performance_metrics`: the counters and the derived rates. */
  datatype Metrics = Metrics(
    totalRequests: nat,
    cacheHits: nat,
    cacheMisses: nat,
    totalCost: real,
    totalProcessingTime: real,
    cacheHitRate: real,
    averageProcessingTime: real,
    averageCostPerRequest: real,
    averageQuality: real)

  /** A hit count as a percentage of a request count. */
  lemma PercentBounded(hits: nat, total: nat)
    requires 0 < total && hits <= total
    ensures 0.0 <= (hits as real / total as real) * 100.0 <= 100.0
  {
    var q := hits as real / total as real;
    assert q * (total as real) == hits as real;
    assert q <= 1.0 by {
      if q > 1.0 {
        assert q * (total as real) > 1.0 * (total as real);
      }
    }
  }

  class PerformanceTracker {
    var totalRequests: nat
    var cacheHits: nat
    var cacheMisses: nat
    var totalCost: real
    var totalProcessingTime: real
    var averageQuality: real
    var enabled: bool
    /** The sum of the quality scores the running average stands for. */
    ghost var qualitySum: real

    /**
     * Every request counted is either a hit or a miss, and the running
     * average is the mean of the scores counted (0 before the first).
     */
    ghost predicate Valid()
      reads this
    {
      && totalRequests == cacheHits + cacheMisses
      && averageQuality * (totalRequests as real) == qualitySum
      && (totalRequests == 0 ==> averageQuality == 0.0)
    }

    /** `__init__`: every counter at zero, monitoring on. */
    constructor ()
      ensures Valid() && enabled
      ensures totalRequests == 0 && cacheHits == 0 && cacheMisses == 0
      ensures totalCost == 0.0 && totalProcessingTime == 0.0 && averageQuality == 0.0
    {
      totalRequests, cacheHits, cacheMisses := 0, 0, 0;
      totalCost, totalProcessingTime, averageQuality := 0.0, 0.0, 0.0;
      qualitySum := 0.0;
      enabled := true;
    }

    /**
     * `track_request_performance`: nothing changes while monitoring is off;
     * otherwise the request is counted, with its time and cost, as a hit or
     * a miss, and its quality score enters the running average.
     */
    method TrackRequest(processingTime: real, cost: real, qualityScore: real, cacheHit: bool)
      requires Valid()
      modifies this
      ensures Valid() && enabled == old(enabled)
      ensures !enabled ==>
        totalRequests == old(totalRequests) && cacheHits == old(cacheHits) && cacheMisses == old(cacheMisses) &&
        totalCost == old(totalCost) && totalProcessingTime == old(totalProcessingTime) &&
        averageQuality == old(averageQuality) && qualitySum == old(qualitySum)
      ensures enabled ==>
        && qualitySum == old(qualitySum) + qualityScore
        && averageQuality * (totalRequests as real) == old(qualitySum) + qualityScore
        && totalRequests == old(totalRequests) + 1
        && totalProcessingTime == old(totalProcessingTime) + processingTime
        && totalCost == old(totalCost) + cost
        && cacheHits == old(cacheHits) + (if cacheHit then 1 else 0)
        && cacheMisses == old(cacheMisses) + (if cacheHit then 0 else 1)
    {
      if !enabled {
        return;
      }
      totalRequests := totalRequests + 1;
      totalProcessingTime := totalProcessingTime + processingTime;
      totalCost := totalCost + cost;
      if cacheHit {
        cacheHits := cacheHits + 1;
      } else {
        cacheMisses := cacheMisses + 1;
      }
      var n := totalRequests as real;
      averageQuality := (averageQuality * (n - 1.0) + qualityScore) / n;
      qualitySum := qualitySum + qualityScore;
    }

    /**
     * `get_performance_metrics`: the rates are 0 with no requests; otherwise
     * the hit rate is the hits' share in percent, which lies between 0 and
     * 100, and the averages are per request.
     */
    function GetMetrics(): (m: Metrics)
      reads this
      requires Valid()
      ensures m.totalRequests == totalRequests && m.cacheHits == cacheHits && m.cacheMisses == cacheMisses
      ensures m.totalCost == totalCost && m.totalProcessingTime == totalProcessingTime
      ensures m.averageQuality == averageQuality
      ensures totalRequests == 0 ==>
        m.cacheHitRate == 0.0 && m.averageProcessingTime == 0.0 && m.averageCostPerRequest == 0.0
      ensures 0.0 <= m.cacheHitRate <= 100.0
      ensures totalRequests > 0 ==>
        && m.cacheHitRate * (totalRequests as real) == (cacheHits as real) * 100.0
        && m.averageProcessingTime * (totalRequests as real) == totalProcessingTime
        && m.averageCostPerRequest * (totalRequests as real) == totalCost
    {
      if totalRequests > 0 then
        var n := totalRequests as real;
        PercentBounded(cacheHits, totalRequests);
        Metrics(totalRequests, cacheHits, cacheMisses, totalCost, totalProcessingTime,
                (cacheHits as real / n) * 100.0, totalProcessingTime / n, totalCost / n, averageQuality)
      else
        Metrics(totalRequests, cacheHits, cacheMisses, totalCost, totalProcessingTime, 0.0, 0.0, 0.0, averageQuality)
    }

    /** `clear_performance_metrics`: every counter back to zero. */
    method Clear()
      modifies this
      ensures Valid() && enabled == old(enabled)
      ensures totalRequests == 0 && cacheHits == 0 && cacheMisses == 0
      ensures totalCost == 0.0 && totalProcessingTime == 0.0 && averageQuality == 0.0
    {
      totalRequests, cacheHits, cacheMisses := 0, 0, 0;
      totalCost, totalProcessingTime, averageQuality := 0.0, 0.0, 0.0;
      qualitySum := 0.0;
    }
  }

  /**
   * Tracking hits and misses from a fresh tracker: the hit rate is the
   * share of hits among them, and every request is counted once.
   */
  method TrackAll(hits: seq<bool>) returns (m: Metrics)
    ensures m.totalRequests == |hits| == m.cacheHits + m.cacheMisses
    ensures m.cacheHits == |set i | 0 <= i < |hits| && hits[i]|
    ensures |hits| == 0 ==> m.cacheHitRate == 0.0
  {
    var tracker := new PerformanceTracker();
    var k := 0;
    while k < |hits|
      invariant 0 <= k <= |hits|
      invariant tracker.Valid() && tracker.enabled
      invariant tracker.totalRequests == k
      invariant tracker.cacheHits == |set i | 0 <= i < k && hits[i]|
    {
      assert (set i | 0 <= i < k + 1 && hits[i]) ==
             (set i | 0 <= i < k && hits[i]) + (if hits[k] then {k} else {});
      tracker.TrackRequest(0.0, 0.0, 0.0, hits[k]);
      k := k + 1;
    }
    m := tracker.GetMetrics();
  }

  /** The sum of a list of quality scores. */
  function ScoreSum(scores: seq<real>): real
  {
    if scores == [] then 0.0 else ScoreSum(scores[..|scores| - 1]) + scores[|scores| - 1]
  }

  /**
   * Tracking requests with the given quality scores from a fresh tracker:
   * the running average is their mean, and 0 when there are none.
   */
  method TrackScores(scores: seq<real>) returns (m: Metrics)
    ensures m.totalRequests == |scores|
    ensures m.averageQuality * (|scores| as real) == ScoreSum(scores)
    ensures |scores| == 0 ==> m.averageQuality == 0.0
  {
    var tracker := new PerformanceTracker();
    var k := 0;
    while k < |scores|
      invariant 0 <= k <= |scores|
      invariant tracker.Valid() && tracker.enabled
      invariant tracker.totalRequests == k
      invariant tracker.qualitySum == ScoreSum(scores[..k])
    {
      assert scores[..k + 1][..k] == scores[..k];
      tracker.TrackRequest(0.0, 0.0, scores[k], false);
      k := k + 1;
    }
    assert scores[..k] == scores;
    m := tracker.GetMetrics();
  }

  /** One cached result and when it was stored. */
  datatype Entry<V> = Entry(result: V, timestamp: real)

  /** Whether an entry stored at `timestamp` is still fresh at `now`. */
  predicate Fresh(timestamp: real, now: real, ttl: int)
  {
    now - timestamp < ttl as real
  }

  class CacheManager<V> {
    var cache: map<string, Entry<V>>
    var ttl: int

    /** `__init__`: an empty cache with the given time-to-live (86400 seconds by default). */
    constructor (ttlSeconds: int)
      ensures cache == map[] && ttl == ttlSeconds
    {
      cache := map[];
      ttl := ttlSeconds;
    }

    /**
     * `get` at time `now`: the stored result while it is fresh; an expired
     * entry is deleted and reads as None, like a missing one.
     */
    method Get(key: string, now: real) returns (r: Option<V>)
      modifies this
      ensures ttl == old(ttl)
      ensures r.Some? <==> key in old(cache) && Fresh(old(cache)[key].timestamp, now, ttl)
      ensures r.Some? ==> r.value == old(cache)[key].result && cache == old(cache)
      ensures r.None? ==> cache == old(cache) - {key}
    {
      if key in cache {
        var entry := cache[key];
        if now - entry.timestamp < ttl as real {
          return Some(entry.result);
        }
        cache := cache - {key};
      }
      r := None;
    }

    /** `set` at time `now`: the entry is overwritten and stamped with `now`. */
    method Set(key: string, result: V, now: real)
      modifies this
      ensures ttl == old(ttl)
      ensures cache == old(cache)[key := Entry(result, now)]
    {
      cache := cache[key := Entry(result, now)];
    }

    /** `clear`. */
    method Clear()
      modifies this
      ensures ttl == old(ttl) && cache == map[] && Size() == 0
    {
      cache := map[];
    }

    /** `size`. */
    function Size(): (n: nat)
      reads this
      ensures n == |cache.Keys|
    {
      |cache|
    }

    /** The keys whose entries have expired at `now`. */
    function ExpiredKeys(now: real): (keys: set<string>)
      reads this
      ensures forall k :: k in keys <==> k in cache && !Fresh(cache[k].timestamp, now, ttl)
    {
      set k | k in cache && !Fresh(cache[k].timestamp, now, ttl)
    }

    /**
     * `cleanup_expired` at time `now`: exactly the expired entries go, the
     * fresh ones stay as they were, and the count removed is returned.
     */
    method CleanupExpired(now: real) returns (removed: nat)
      modifies this
      ensures ttl == old(ttl)
      ensures removed == |old(ExpiredKeys(now))|
      ensures forall k :: k in cache <==> k in old(cache) && Fresh(old(cache)[k].timestamp, now, ttl)
      ensures forall k :: k in cache ==> cache[k] == old(cache)[k]
      ensures removed + |cache| == |old(cache)|
    {
      var expired := ExpiredKeys(now);
      var rest := expired;
      removed := 0;
      while rest != {}
        invariant ttl == old(ttl) && expired == old(ExpiredKeys(now))
        invariant rest <= expired
        invariant cache == map k | k in old(cache) && k !in expired - rest :: old(cache)[k]
        invariant removed + |rest| == |expired|
        decreases |rest|
      {
        var k :| k in rest;
        cache := cache - {k};
        rest := rest - {k};
        removed := removed + 1;
      }
      assert cache.Keys == old(cache).Keys - expired;
      assert old(cache).Keys == cache.Keys + expired;
    }
  }

  /** A result just set is what a lookup within the time-to-live returns. */
  method SetThenGet<V>(ttl: int, key: string, result: V, setAt: real, getAt: real) returns (r: Option<V>)
    requires getAt - setAt < ttl as real
    ensures r == Some(result)
  {
    var c := new CacheManager<V>(ttl);
    c.Set(key, result, setAt);
    r := c.Get(key, getAt);
  }

  /** Once the time-to-live has passed, the lookup misses and the entry is gone. */
  method SetThenExpire<V>(ttl: int, key: string, result: V, setAt: real, getAt: real) returns (r: Option<V>, size: nat)
    requires getAt - setAt >= ttl as real
    ensures r.None? && size == 0
  {
    var c := new CacheManager<V>(ttl);
    c.Set(key, result, setAt);
    r := c.Get(key, getAt);
    size := c.Size();
  }
}
