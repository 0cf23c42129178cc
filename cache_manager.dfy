/** The cache tier (backend/data/cache_manager.py). The in-memory fallback
    dictionary of `(value, expires_at)` entries is modelled in full; the
    Redis client is opaque: a Redis read hands back whatever reply the
    caller supplies, Redis writes change nothing visible here, and a
    failed `ping` is the `pingOk` flag of `Connect`. `json.dumps` failing
    is the `serializable` flag of `Set`. Times are seconds on the
    `datetime.utcnow()` clock, passed in as `now`. */
module CacheManager {
  import opened Wrappers
  import opened Strings

  /** A fallback entry: the value and its absolute expiry time. */
  datatype Entry<V> = Entry(value: V, expiresAt: real)

  type Store<V> = map<string, Entry<V>>

  // ---------------------------------------------------------------------
  // The fallback dictionary, as a value

  /** A fallback read: the value found (if any) and the dictionary after
      the read, which loses the entry if it had expired. */
  datatype Lookup<V> = Lookup(value: Option<V>, store: Store<V>)

  function FallbackGet<V>(store: Store<V>, key: string, now: real): (r: Lookup<V>)
    ensures key !in store ==> r == Lookup(None, store)
    ensures key in store && now < store[key].expiresAt ==> r == Lookup(Some(store[key].value), store)
    ensures key in store && now >= store[key].expiresAt ==> r == Lookup(None, store - {key})
  {
    if key !in store then Lookup(None, store)
    else if now < store[key].expiresAt then Lookup(Some(store[key].value), store)
    else Lookup(None, store - {key})
  }

  /** A fallback write: the entry for `key` is replaced, expiring `ttl`
      seconds from `now`. */
  function FallbackSet<V>(store: Store<V>, key: string, value: V, ttl: int, now: real): (r: Store<V>)
    ensures r.Keys == store.Keys + {key}
    ensures r[key] == Entry(value, now + ttl as real)
    ensures forall k :: k in store && k != key ==> r[k] == store[k]
  {
    store[key := Entry(value, now + ttl as real)]
  }

  /** The substring `clear_pattern` looks for: the pattern with every '*'
      removed. */
  function Needle(pattern: string): (n: string)
    ensures '*' !in n
  {
    RemoveChar(pattern, '*')
  }

  /** The usual prefix pattern: the needle of `prefix*` is the prefix. */
  lemma NeedleOfPrefix(prefix: string)
    requires '*' !in prefix
    ensures Needle(prefix + "*") == prefix
  {
    RemoveCharAppend(prefix, "*", '*');
  }

  /** The fallback dictionary after `clear_pattern`: the keys containing
      the needle are gone, every other entry is kept as it was, and no key
      is added. */
  function FallbackClear<V>(store: Store<V>, pattern: string): (r: Store<V>)
    ensures r.Keys <= store.Keys
    ensures forall k :: k in r ==> !Contains(k, Needle(pattern)) && r[k] == store[k]
    ensures forall k :: k in store && !Contains(k, Needle(pattern)) ==> k in r
  {
    map k | k in store && !Contains(k, Needle(pattern)) :: store[k]
  }

  /** A pattern made only of '*' (or empty) has an empty needle, which
      every key contains, so it clears everything. */
  lemma ClearAllWithEmptyNeedle<V>(store: Store<V>, pattern: string)
    requires forall i :: 0 <= i < |pattern| ==> pattern[i] == '*'
    ensures FallbackClear(store, pattern) == map[]
  {
    assert Needle(pattern) == [] by {
      NeedleOfStars(pattern);
    }
    forall k | k in store ensures Contains(k, []) {
      assert OccursAt(k, [], 0);
      ContainsIff(k, []);
    }
  }

  lemma {:induction false} NeedleOfStars(pattern: string)
    requires forall i :: 0 <= i < |pattern| ==> pattern[i] == '*'
    ensures Needle(pattern) == []
  {
    if pattern != [] {
      NeedleOfStars(pattern[1..]);
    }
  }

  /** Number of entries not yet expired at `now`. */
  function ActiveCount<V>(store: Store<V>, now: real): nat {
    |set k | k in store && now < store[k].expiresAt|
  }

  /** Active entries never outnumber all entries; with nothing expired they
      are all of them. */
  lemma ActiveAtMostTotal<V>(store: Store<V>, now: real)
    ensures ActiveCount(store, now) <= |store|
    ensures (forall k :: k in store ==> now < store[k].expiresAt) ==> ActiveCount(store, now) == |store|
  {
    var active := set k | k in store && now < store[k].expiresAt;
    assert active <= store.Keys;
    SubsetCard(active, store.Keys);
    if forall k :: k in store ==> now < store[k].expiresAt {
      assert active == store.Keys;
    }
  }

  lemma SubsetCard<T>(a: set<T>, b: set<T>)
    requires a <= b
    ensures |a| <= |b|
  {
    assert b == a + (b - a);
  }

  /** A read after a write to the same key finds the value exactly while
      the clock is strictly before the write time plus the TTL. */
  lemma GetAfterSet<V>(store: Store<V>, key: string, value: V, ttl: int, written: real, now: real)
    ensures FallbackGet(FallbackSet(store, key, value, ttl, written), key, now).value
              == if now < written + ttl as real then Some(value) else None
  {
  }

  /** A write to one key does not change what another key reads. */
  lemma SetLeavesOthers<V>(store: Store<V>, key: string, other: string, value: V, ttl: int,
                           written: real, now: real)
    requires other != key
    ensures FallbackGet(FallbackSet(store, key, value, ttl, written), other, now).value
              == FallbackGet(store, other, now).value
  {
  }

  /** A read that finds an expired entry deletes exactly that key. */
  lemma ExpiredReadDeletesOnlyKey<V>(store: Store<V>, key: string, now: real)
    requires key in store && now >= store[key].expiresAt
    ensures var r := FallbackGet(store, key, now);
      r.value == None && r.store.Keys == store.Keys - {key}
      && forall k :: k in r.store ==> r.store[k] == store[k]
  {
  }

  // ---------------------------------------------------------------------
  // Keys and TTLs

  const TtlPrice: int := 30
  const TtlTechnical: int := 60
  const TtlHistorical: int := 3600
  const TtlMarketStats: int := 300
  const TtlAiAnalysis: int := 600

  /** The four kinds of cached data with a key builder of their own. */
  datatype DataClass = PriceData | TechnicalData | AiAnalysisData | SignalData

  function KeyPrefix(d: DataClass): string {
    match d
    case PriceData => "price:"
    case TechnicalData => "technical:"
    case AiAnalysisData => "ai_analysis:"
    case SignalData => "signal:"
  }

  /** The `_make_*_key` builders: the class prefix followed by the symbol. */
  function KeyFor(d: DataClass, symbol: string): (k: string)
    ensures |k| == |KeyPrefix(d)| + |symbol|
    ensures k[..|KeyPrefix(d)|] == KeyPrefix(d) && k[|KeyPrefix(d)|..] == symbol
  {
    KeyPrefix(d) + symbol
  }

  /** Keys of different classes or different symbols never collide. */
  lemma KeysInjective(d1: DataClass, s1: string, d2: DataClass, s2: string)
    requires KeyFor(d1, s1) == KeyFor(d2, s2)
    ensures d1 == d2 && s1 == s2
  {
    assert KeyFor(d1, s1)[0] == KeyPrefix(d1)[0];
    assert KeyFor(d2, s2)[0] == KeyPrefix(d2)[0];
  }

  /** The TTL each `set_*` wrapper uses; signals reuse the technical TTL. */
  function TtlFor(d: DataClass): (t: int)
    ensures t > 0
    ensures d == SignalData ==> t == TtlTechnical
  {
    match d
    case PriceData => TtlPrice
    case TechnicalData => TtlTechnical
    case AiAnalysisData => TtlAiAnalysis
    case SignalData => TtlTechnical
  }

  /** Through the wrappers, a cached price stays readable for 30 seconds,
      technical data and signals for 60, AI analyses for 600. */
  lemma WrapperLifetimes<V>(store: Store<V>, d: DataClass, symbol: string, value: V, written: real, now: real)
    ensures var s := FallbackSet(store, KeyFor(d, symbol), value, TtlFor(d), written);
      FallbackGet(s, KeyFor(d, symbol), now).value.Some? <==> now < written + TtlFor(d) as real
    ensures d == PriceData ==> TtlFor(d) == 30
    ensures d in {TechnicalData, SignalData} ==> TtlFor(d) == 60
    ensures d == AiAnalysisData ==> TtlFor(d) == 600
  {
    GetAfterSet(store, KeyFor(d, symbol), value, TtlFor(d), written, now);
  }

  // ---------------------------------------------------------------------
  // The cache manager

  /** What `get_stats` reports: Redis server counters (supplied by the
      caller, the server being opaque) or the in-memory counts. */
  datatype CacheStats = RedisStats(hits: nat, misses: nat, keys: nat)
                      | InMemoryStats(keys: nat, totalKeys: nat)

  class CacheManager<V> {
    var redisUrl: string
    /** `redis_client is not None`. */
    var hasClient: bool
    var useRedis: bool
    var fallbackCache: Store<V>

    /** Every operation takes the fallback path unless Redis is both
        enabled and connected. */
    predicate UsesFallback()
      reads this
    {
      !(useRedis && hasClient)
    }

    constructor(redisUrl: string)
      ensures this.redisUrl == redisUrl && useRedis && !hasClient && fallbackCache == map[]
      ensures UsesFallback()
    {
      this.redisUrl := redisUrl;
      hasClient := false;
      useRedis := true;
      fallbackCache := map[];
    }

    /** `connect`: a client is created and pinged; on failure Redis is
        switched off for good and the client dropped. */
    method Connect(pingOk: bool)
      modifies this
      ensures pingOk ==> hasClient && useRedis == old(useRedis)
      ensures !pingOk ==> !hasClient && !useRedis
      ensures !old(useRedis) ==> !useRedis && UsesFallback()
      ensures fallbackCache == old(fallbackCache) && redisUrl == old(redisUrl)
    {
      if pingOk {
        hasClient := true;
      } else {
        useRedis := false;
        hasClient := false;
      }
    }

    /** `get`: from Redis when it is in use (the reply being whatever the
        server returned, decoded), otherwise from the fallback, evicting an
        expired entry. */
    method Get(key: string, now: real, redisReply: Option<V>) returns (r: Option<V>)
      modifies this
      ensures useRedis == old(useRedis) && hasClient == old(hasClient) && redisUrl == old(redisUrl)
      ensures old(UsesFallback()) ==>
                var l := FallbackGet(old(fallbackCache), key, now);
                r == l.value && fallbackCache == l.store
      ensures !old(UsesFallback()) ==> r == redisReply && fallbackCache == old(fallbackCache)
    {
      if useRedis && hasClient {
        return redisReply;
      }
      if key in fallbackCache {
        var cached := fallbackCache[key];
        if now < cached.expiresAt {
          return Some(cached.value);
        }
        fallbackCache := fallbackCache - {key};
      }
      r := None;
    }

    /** `set`: a value that cannot be serialised is dropped (the error is
        logged); otherwise it goes to Redis or replaces the fallback entry.
        The TTL defaults to the market-stats lifetime, 300 seconds. */
    method Set(key: string, value: V, ttl: int := TtlMarketStats, now: real, serializable: bool)
      modifies this
      ensures useRedis == old(useRedis) && hasClient == old(hasClient) && redisUrl == old(redisUrl)
      ensures serializable && old(UsesFallback()) ==>
                fallbackCache == FallbackSet(old(fallbackCache), key, value, ttl, now)
      ensures !(serializable && old(UsesFallback())) ==> fallbackCache == old(fallbackCache)
    {
      if !serializable {
        return;
      }
      if !(useRedis && hasClient) {
        var expiresAt := now + ttl as real;
        fallbackCache := fallbackCache[key := Entry(value, expiresAt)];
      }
    }

    /** `delete`: removes the key if present; never touches other keys. */
    method Delete(key: string)
      modifies this
      ensures useRedis == old(useRedis) && hasClient == old(hasClient) && redisUrl == old(redisUrl)
      ensures old(UsesFallback()) ==> fallbackCache == old(fallbackCache) - {key}
      ensures !old(UsesFallback()) ==> fallbackCache == old(fallbackCache)
    {
      if !(useRedis && hasClient) {
        fallbackCache := fallbackCache - {key};
      }
    }

    /** `clear_pattern`: collects the keys containing the needle, then
        deletes them one by one. */
    method ClearPattern(pattern: string)
      modifies this
      ensures useRedis == old(useRedis) && hasClient == old(hasClient) && redisUrl == old(redisUrl)
      ensures old(UsesFallback()) ==> fallbackCache == FallbackClear(old(fallbackCache), pattern)
      ensures !old(UsesFallback()) ==> fallbackCache == old(fallbackCache)
    {
      if useRedis && hasClient {
        return;
      }
      var needle := RemoveChar(pattern, '*');
      var toDelete := set k | k in fallbackCache && Contains(k, needle);
      ghost var before := fallbackCache;
      while toDelete != {}
        invariant useRedis == old(useRedis) && hasClient == old(hasClient) && redisUrl == old(redisUrl)
        invariant forall k :: k in toDelete ==> k in before && Contains(k, needle)
        invariant forall k :: k in fallbackCache <==> k in toDelete || (k in before && !Contains(k, needle))
        invariant forall k :: k in fallbackCache ==> k in before && fallbackCache[k] == before[k]
        decreases |toDelete|
      {
        var k :| k in toDelete;
        fallbackCache := fallbackCache - {k};
        toDelete := toDelete - {k};
      }
      ghost var cleared := FallbackClear(before, pattern);
      assert forall k :: k in fallbackCache <==> k in cleared;
      assert fallbackCache == cleared;
    }

    /** `get_stats`; the Redis counters are the server's, passed in. */
    method GetStats(now: real, redisInfo: CacheStats) returns (s: CacheStats)
      ensures UsesFallback() ==> s == InMemoryStats(ActiveCount(fallbackCache, now), |fallbackCache|)
      ensures UsesFallback() ==> s.keys <= s.totalKeys
      ensures !UsesFallback() ==> s == redisInfo
    {
      if useRedis && hasClient {
        return redisInfo;
      }
      ActiveAtMostTotal(fallbackCache, now);
      var active := |set k | k in fallbackCache && now < fallbackCache[k].expiresAt|;
      s := InMemoryStats(active, |fallbackCache|);
    }

    /** `set_price`, `set_technical`, `set_ai_analysis`, `set_signal`. */
    method SetFor(d: DataClass, symbol: string, value: V, now: real, serializable: bool)
      modifies this
      ensures useRedis == old(useRedis) && hasClient == old(hasClient) && redisUrl == old(redisUrl)
      ensures serializable && old(UsesFallback()) ==>
                fallbackCache == FallbackSet(old(fallbackCache), KeyFor(d, symbol), value, TtlFor(d), now)
      ensures !(serializable && old(UsesFallback())) ==> fallbackCache == old(fallbackCache)
    {
      Set(KeyFor(d, symbol), value, TtlFor(d), now, serializable);
    }

    /** `get_price`, `get_technical`, `get_ai_analysis`, `get_signal`. */
    method GetFor(d: DataClass, symbol: string, now: real, redisReply: Option<V>) returns (r: Option<V>)
      modifies this
      ensures useRedis == old(useRedis) && hasClient == old(hasClient) && redisUrl == old(redisUrl)
      ensures old(UsesFallback()) ==>
                var l := FallbackGet(old(fallbackCache), KeyFor(d, symbol), now);
                r == l.value && fallbackCache == l.store
      ensures !old(UsesFallback()) ==> r == redisReply && fallbackCache == old(fallbackCache)
    {
      r := Get(KeyFor(d, symbol), now, redisReply);
    }
  }
}
