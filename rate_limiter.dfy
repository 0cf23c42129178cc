/** Token-bucket admission control (backend/api/rate_limiter.py).
    The clock is an explicit argument `now`; a sleep of `w` seconds is the
    clock moving on by `w + lag` for some `lag >= 0` chosen by the caller.
    One sequential caller is modelled, so the bucket lock disappears.
    Each class is tied to a value-level description (`Bucket`, the
    concatenated queue `Pending`, the counters `Stats`) that carries the
    properties. */
module RateLimiter {
  import opened Wrappers

  // ---------------------------------------------------------------------
  // The token bucket, as a value

  /** A bucket's state: burst capacity, refill rate (tokens per second),
      current balance and the time of the last refill. */
  datatype Bucket = Bucket(capacity: nat, rate: real, tokens: real, lastRefill: real)

  function Min(a: real, b: real): (r: real)
    ensures r <= a && r <= b && (r == a || r == b)
  {
    if a <= b then a else b
  }

  /** `_refill`: credit the elapsed time at the refill rate, never above
      capacity, and move the refill mark to `now`. */
  function RefillAt(b: Bucket, now: real): (r: Bucket)
    ensures r.capacity == b.capacity && r.rate == b.rate && r.lastRefill == now
    ensures r.tokens <= b.capacity as real
    ensures r.tokens == b.capacity as real || r.tokens == b.tokens + (now - b.lastRefill) * b.rate
    ensures r.tokens <= b.tokens + (now - b.lastRefill) * b.rate
  {
    b.(tokens := Min(b.capacity as real, b.tokens + (now - b.lastRefill) * b.rate), lastRefill := now)
  }

  /** The outcome of one acquire: the new bucket, the wait the bucket
      computed (0 on the fast path) and the clock when it returned. */
  datatype Acquired = Acquired(bucket: Bucket, wait: real, finished: real)

  /** `TokenBucket.acquire(requested)` started at `now`: refill; if the
      balance covers the request, debit it at once; otherwise sleep for
      the shortfall at the refill rate, refill again and debit anyway. */
  function AcquireStep(b: Bucket, requested: nat, now: real, lag: real): (a: Acquired)
    requires b.rate > 0.0
    ensures a.bucket.capacity == b.capacity && a.bucket.rate == b.rate
    ensures a.bucket.lastRefill == a.finished
  {
    var r1 := RefillAt(b, now);
    if r1.tokens >= requested as real then
      Acquired(r1.(tokens := r1.tokens - requested as real), 0.0, now)
    else
      var wait := (requested as real - r1.tokens) / b.rate;
      var r2 := RefillAt(r1, now + wait + lag);
      Acquired(r2.(tokens := r2.tokens - requested as real), wait, now + wait + lag)
  }

  /** The shortfall is exactly what the wait refills: rate * wait covers it. */
  lemma WaitCoversShortfall(shortfall: real, rate: real, lag: real)
    requires shortfall > 0.0 && rate > 0.0 && lag >= 0.0
    ensures shortfall / rate > 0.0
    ensures (shortfall / rate + lag) * rate >= shortfall
  {
    var w := shortfall / rate;
    assert w * rate == shortfall;
    assert lag * rate >= 0.0;
  }

  /** Fast path: a balance that covers the request is debited by exactly
      the request, with no wait. */
  lemma FastPath(b: Bucket, requested: nat, now: real, lag: real)
    requires b.rate > 0.0
    requires RefillAt(b, now).tokens >= requested as real
    ensures var a := AcquireStep(b, requested, now, lag);
      a.bucket.tokens == RefillAt(b, now).tokens - requested as real && a.wait == 0.0 && a.finished == now
  {
  }

  /** Slow path: the wait is the shortfall over the rate, it is positive,
      and when the request fits in the bucket the balance after the debit
      is never negative. */
  lemma SlowPath(b: Bucket, requested: nat, now: real, lag: real)
    requires b.rate > 0.0 && lag >= 0.0
    requires RefillAt(b, now).tokens < requested as real
    ensures var a := AcquireStep(b, requested, now, lag);
      && a.wait == (requested as real - RefillAt(b, now).tokens) / b.rate
      && a.wait > 0.0
      && a.finished == now + a.wait + lag
      && (requested <= b.capacity ==> a.bucket.tokens >= 0.0)
  {
    var r1 := RefillAt(b, now);
    WaitCoversShortfall(requested as real - r1.tokens, b.rate, lag);
  }

  /** A request larger than the bucket is still granted after waiting, and
      leaves the balance at capacity minus the request, below zero. */
  lemma OverCapacity(b: Bucket, requested: nat, now: real, lag: real)
    requires b.rate > 0.0 && lag >= 0.0
    requires requested > b.capacity
    ensures var a := AcquireStep(b, requested, now, lag);
      a.bucket.tokens == b.capacity as real - requested as real && a.bucket.tokens < 0.0
  {
    var r1 := RefillAt(b, now);
    WaitCoversShortfall(requested as real - r1.tokens, b.rate, lag);
  }

  /** The balance stays within [0, capacity] across an acquire whose
      request fits in the bucket, and never rises above capacity in any
      case; the call never returns before it started. */
  lemma AcquireKeepsRange(b: Bucket, requested: nat, now: real, lag: real)
    requires b.rate > 0.0 && lag >= 0.0
    ensures var a := AcquireStep(b, requested, now, lag);
      && a.bucket.tokens <= b.capacity as real
      && a.finished >= now
      && (requested <= b.capacity ==> 0.0 <= a.bucket.tokens)
  {
    var r1 := RefillAt(b, now);
    if r1.tokens < requested as real {
      SlowPath(b, requested, now, lag);
    }
  }

  /** Requests that fit keep a bucket in range however many are made in a
      row, at whatever times and with whatever sleep overshoot. */
  lemma {:induction false} AcquireSequenceInRange(b: Bucket, requests: seq<nat>, starts: seq<real>, lags: seq<real>)
    requires b.rate > 0.0 && 0.0 <= b.tokens <= b.capacity as real
    requires |starts| == |requests| && |lags| == |requests|
    requires forall i :: 0 <= i < |requests| ==> requests[i] <= b.capacity && lags[i] >= 0.0
    ensures 0.0 <= AcquireAll(b, requests, starts, lags).tokens <= b.capacity as real
    decreases |requests|
  {
    if requests != [] {
      var a := AcquireStep(b, requests[0], starts[0], lags[0]);
      AcquireKeepsRange(b, requests[0], starts[0], lags[0]);
      AcquireSequenceInRange(a.bucket, requests[1..], starts[1..], lags[1..]);
    }
  }

  /** The bucket after a series of acquires. */
  function AcquireAll(b: Bucket, requests: seq<nat>, starts: seq<real>, lags: seq<real>): (r: Bucket)
    requires b.rate > 0.0
    requires |starts| == |requests| && |lags| == |requests|
    ensures r.capacity == b.capacity && r.rate == b.rate
    decreases |requests|
  {
    if requests == [] then b
    else AcquireAll(AcquireStep(b, requests[0], starts[0], lags[0]).bucket, requests[1..], starts[1..], lags[1..])
  }

  // ---------------------------------------------------------------------
  // The token bucket, as an object

  class TokenBucket {
    const capacity: nat
    const refillRate: real
    var tokens: real
    var lastRefill: real

    ghost predicate Valid()
      reads this
    {
      capacity > 0 && refillRate > 0.0 && tokens <= capacity as real
    }

    function State(): Bucket
      reads this
    {
      Bucket(capacity, refillRate, tokens, lastRefill)
    }

    /** A full bucket whose refill clock starts at `now`. */
    constructor(capacity: nat, refillRate: real, now: real)
      requires capacity > 0 && refillRate > 0.0
      ensures Valid()
      ensures State() == Bucket(capacity, refillRate, capacity as real, now)
    {
      this.capacity := capacity;
      this.refillRate := refillRate;
      tokens := capacity as real;
      lastRefill := now;
    }

    method Refill(now: real)
      requires Valid()
      modifies this
      ensures Valid()
      ensures State() == RefillAt(old(State()), now)
    {
      var elapsed := now - lastRefill;
      var toAdd := elapsed * refillRate;
      tokens := Min(capacity as real, tokens + toAdd);
      lastRefill := now;
    }

    /** Always grants; `finished` is the clock when it returns. */
    method Acquire(requested: nat, now: real, lag: real) returns (ok: bool, wait: real, finished: real)
      requires Valid() && lag >= 0.0
      modifies this
      ensures Valid()
      ensures ok
      ensures var a := AcquireStep(old(State()), requested, now, lag);
                State() == a.bucket && wait == a.wait && finished == a.finished
    {
      Refill(now);
      if tokens >= requested as real {
        tokens := tokens - requested as real;
        return true, 0.0, now;
      }
      wait := (requested as real - tokens) / refillRate;
      finished := now + wait + lag;
      Refill(finished);
      tokens := tokens - requested as real;
      ok := true;
    }

    /** `get_available_tokens`: the balance as of the last refill, never
        above capacity. */
    function AvailableTokens(): (r: real)
      reads this
      ensures Valid() ==> r <= capacity as real && r == State().tokens
    {
      tokens
    }
  }

  // ---------------------------------------------------------------------
  // The priority queue

  /** The four priority levels, highest first. */
  const PriorityLevels: seq<string> := ["critical", "high", "medium", "low"]

  /** The level an item is filed under: unknown priorities go to "medium". */
  function LevelFor(priority: string): (l: string)
    ensures l in PriorityLevels
    ensures priority in PriorityLevels ==> l == priority
    ensures priority !in PriorityLevels ==> l == "medium"
  {
    if priority in PriorityLevels then priority else "medium"
  }

  class PriorityQueue<T> {
    /** One FIFO per level, oldest first. */
    var queues: map<string, seq<T>>

    ghost predicate Valid()
      reads this
    {
      forall l :: l in PriorityLevels <==> l in queues
    }

    /** Everything waiting, in the order `get_next` would hand it out. */
    function Pending(): seq<T>
      requires Valid()
      reads this
    {
      queues["critical"] + queues["high"] + queues["medium"] + queues["low"]
    }

    constructor()
      ensures Valid()
      ensures Pending() == []
    {
      queues := map["critical" := [], "high" := [], "medium" := [], "low" := []];
    }

    /** Appends `request` to the end of its level. */
    method Add(priority: string, request: T)
      requires Valid()
      modifies this
      ensures Valid()
      ensures queues == old(queues)[LevelFor(priority) := old(queues)[LevelFor(priority)] + [request]]
      ensures |Pending()| == |old(Pending())| + 1
      ensures request in Pending()
    {
      var level := LevelFor(priority);
      queues := queues[level := queues[level] + [request]];
    }

    /** Pops the oldest item of the highest non-empty level. */
    method GetNext() returns (r: Option<T>)
      requires Valid()
      modifies this
      ensures Valid()
      ensures old(Pending()) == [] ==> r == None && queues == old(queues)
      ensures old(Pending()) != [] ==> r == Some(old(Pending())[0]) && Pending() == old(Pending())[1..]
      ensures old(Pending()) != [] ==>
                exists i :: 0 <= i < |PriorityLevels|
                  && (forall j :: 0 <= j < i ==> old(queues)[PriorityLevels[j]] == [])
                  && old(queues)[PriorityLevels[i]] != []
                  && r == Some(old(queues)[PriorityLevels[i]][0])
                  && queues == old(queues)[PriorityLevels[i] := old(queues)[PriorityLevels[i]][1..]]
    {
      var i := 0;
      while i < |PriorityLevels|
        invariant 0 <= i <= |PriorityLevels|
        invariant queues == old(queues)
        invariant forall j :: 0 <= j < i ==> queues[PriorityLevels[j]] == []
      {
        var level := PriorityLevels[i];
        if queues[level] != [] {
          var q := queues[level];
          r := Some(q[0]);
          queues := queues[level := q[1..]];
          PopLevel(old(queues), i);
          return;
        }
        i := i + 1;
      }
      assert queues["critical"] == queues[PriorityLevels[0]] == [];
      assert queues["high"] == queues[PriorityLevels[1]] == [];
      assert queues["medium"] == queues[PriorityLevels[2]] == [];
      assert queues["low"] == queues[PriorityLevels[3]] == [];
      r := None;
    }

    /** Total number of waiting items: the four lengths added up. */
    function Size(): (n: nat)
      requires Valid()
      reads this
      ensures n == |Pending()|
    {
      |queues["critical"]| + |queues["high"]| + |queues["medium"]| + |queues["low"]|
    }
  }

  /** Removing the head of level `i`, when all higher levels are empty,
      removes the head of the concatenation. */
  lemma PopLevel<T>(q: map<string, seq<T>>, i: nat)
    requires forall l :: l in PriorityLevels <==> l in q
    requires i < |PriorityLevels|
    requires forall j :: 0 <= j < i ==> q[PriorityLevels[j]] == []
    requires q[PriorityLevels[i]] != []
    ensures var all := q["critical"] + q["high"] + q["medium"] + q["low"];
      var p := q[PriorityLevels[i] := q[PriorityLevels[i]][1..]];
      all != [] && all[0] == q[PriorityLevels[i]][0]
      && p["critical"] + p["high"] + p["medium"] + p["low"] == all[1..]
  {
    var l := PriorityLevels[i];
    var s := q[l];
    var p := q[l := s[1..]];
    if i >= 1 { assert q[PriorityLevels[0]] == []; }
    if i >= 2 { assert q[PriorityLevels[1]] == []; }
    if i >= 3 { assert q[PriorityLevels[2]] == []; }
    if i == 0 {
      assert q["critical"] + q["high"] + q["medium"] + q["low"]
        == [s[0]] + (p["critical"] + p["high"] + p["medium"] + p["low"]);
    } else if i == 1 {
      assert q["critical"] == [];
      assert q["critical"] + q["high"] + q["medium"] + q["low"]
        == [s[0]] + (p["critical"] + p["high"] + p["medium"] + p["low"]);
    } else if i == 2 {
      assert q["critical"] == [] && q["high"] == [];
      assert q["critical"] + q["high"] + q["medium"] + q["low"]
        == [s[0]] + (p["critical"] + p["high"] + p["medium"] + p["low"]);
    } else {
      assert q["critical"] == [] && q["high"] == [] && q["medium"] == [];
      assert q["critical"] + q["high"] + q["medium"] + q["low"]
        == [s[0]] + (p["critical"] + p["high"] + p["medium"] + p["low"]);
    }
  }

  // ---------------------------------------------------------------------
  // The multi-source limiter

  /** Per-source counters. */
  datatype Stats = Stats(totalRequests: nat, successfulRequests: nat, failedRequests: nat, totalWaitTime: real)

  const ZeroStats := Stats(0, 0, 0, 0.0)

  /** One granted request that waited `wait` seconds. */
  function Recorded(s: Stats, wait: real): (r: Stats)
    ensures r.totalRequests == s.totalRequests + 1
    ensures r.successfulRequests == s.successfulRequests + 1
    ensures r.failedRequests == s.failedRequests
    ensures r.totalWaitTime == s.totalWaitTime + wait
  {
    Stats(s.totalRequests + 1, s.successfulRequests + 1, s.failedRequests, s.totalWaitTime + wait)
  }

  /** One source's line of `get_status`. */
  datatype SourceStatus = SourceStatus(availableTokens: real, capacity: nat, usagePercent: real,
                                       refillRate: real, stats: Stats)

  /** Share of the bucket in use, in percent. */
  function UsagePercent(b: Bucket): (r: real)
    requires b.capacity > 0
    ensures r == 0.0 <==> b.tokens == b.capacity as real
    ensures r == 100.0 <==> b.tokens == 0.0
  {
    var c := b.capacity as real;
    var f := (c - b.tokens) / c;
    assert f * c == c - b.tokens;
    assert f == 0.0 <==> b.tokens == c;
    assert f == 1.0 <==> b.tokens == 0.0;
    f * 100.0
  }

  function StatusOf(b: Bucket, s: Stats): (r: SourceStatus)
    requires b.capacity > 0
    ensures r.availableTokens == b.tokens && r.capacity == b.capacity && r.refillRate == b.rate && r.stats == s
    ensures r.usagePercent == UsagePercent(b)
    ensures 0.0 <= b.tokens <= b.capacity as real ==> 0.0 <= r.usagePercent <= 100.0
  {
    var r := SourceStatus(b.tokens, b.capacity, UsagePercent(b), b.rate, s);
    if 0.0 <= b.tokens <= b.capacity as real then UsageRange(b); r else r
  }

  /** A full bucket is 0% used, an empty one 100%, and a balance in
      between gives a percentage in between. */
  lemma UsageRange(b: Bucket)
    requires b.capacity > 0 && 0.0 <= b.tokens <= b.capacity as real
    ensures 0.0 <= UsagePercent(b) <= 100.0
    ensures b.tokens == b.capacity as real ==> UsagePercent(b) == 0.0
    ensures b.tokens == 0.0 ==> UsagePercent(b) == 100.0
  {
    var c := b.capacity as real;
    var f := (c - b.tokens) / c;
    assert f * c == c - b.tokens;
    assert 0.0 <= f <= 1.0;
  }

  /** The configured sources. */
  const Sources: set<string> := {"coingecko", "binance", "glassnode", "cryptoquant"}

  /** Four distinct values stored under the four sources are never shared. */
  lemma SourcesDistinct<T>(m: map<string, T>, a: T, b: T, c: T, d: T)
    requires a != b && a != c && a != d && b != c && b != d && c != d
    requires m == map["coingecko" := a, "binance" := b, "glassnode" := c, "cryptoquant" := d]
    ensures m.Keys == Sources
    ensures forall s, t :: s in m && t in m && s != t ==> m[s] != m[t]
  {
  }

  class RateLimiter {
    const limiters: map<string, TokenBucket>
    var stats: map<string, Stats>

    ghost predicate Valid()
      reads this, limiters.Values
    {
      && stats.Keys == limiters.Keys
      && (forall s :: s in limiters ==> limiters[s].Valid())
      && (forall s, t :: s in limiters && t in limiters && s != t ==> limiters[s] != limiters[t])
    }

    /** `_init_limiters`: four buckets with safety margins, zeroed counters. */
    constructor(now: real)
      ensures Valid()
      ensures limiters.Keys == Sources
      ensures limiters["coingecko"].State() == Bucket(45, 0.75, 45.0, now)
      ensures limiters["binance"].State() == Bucket(1100, 18.33, 1100.0, now)
      ensures limiters["glassnode"].State() == Bucket(100, 0.00115, 100.0, now)
      ensures limiters["cryptoquant"].State() == Bucket(300, 0.00347, 300.0, now)
      ensures forall s :: s in stats ==> stats[s] == ZeroStats
    {
      var coingecko := new TokenBucket(45, 0.75, now);
      var binance := new TokenBucket(1100, 18.33, now);
      var glassnode := new TokenBucket(100, 0.00115, now);
      var cryptoquant := new TokenBucket(300, 0.00347, now);
      var buckets := map["coingecko" := coingecko, "binance" := binance,
                         "glassnode" := glassnode, "cryptoquant" := cryptoquant];
      SourcesDistinct(buckets, coingecko, binance, glassnode, cryptoquant);
      limiters := buckets;
      stats := map["coingecko" := ZeroStats, "binance" := ZeroStats,
                   "glassnode" := ZeroStats, "cryptoquant" := ZeroStats];
    }

    /** Grants a request for `source`. An unconfigured source is let
        through with nothing recorded; a configured one goes through its
        bucket and its counters record one success and the time spent. */
    method Acquire(source: string, priority: string, requested: nat, now: real, lag: real)
      returns (ok: bool, finished: real)
      requires Valid() && lag >= 0.0
      modifies this, limiters.Values
      ensures Valid()
      ensures ok
      ensures source !in limiters ==>
                stats == old(stats) && finished == now
                && forall s :: s in limiters ==> limiters[s].State() == old(limiters[s].State())
      ensures finished >= now
      ensures source in limiters ==>
                var a := AcquireStep(old(limiters[source].State()), requested, now, lag);
                && limiters[source].State() == a.bucket
                && finished == a.finished
                && stats == old(stats)[source := Recorded(old(stats)[source], finished - now)]
                && forall s :: s in limiters && s != source ==> limiters[s].State() == old(limiters[s].State())
    {
      if source !in limiters {
        return true, now;
      }
      var bucket := limiters[source];
      AcquireKeepsRange(bucket.State(), requested, now, lag);
      var wait;
      ok, wait, finished := bucket.Acquire(requested, now, lag);
      var waited := finished - now;
      stats := stats[source := Recorded(stats[source], waited)];
    }

    /** `get_status`: one line per configured source. */
    method GetStatus() returns (status: map<string, SourceStatus>)
      requires Valid()
      ensures status.Keys == limiters.Keys
      ensures forall s :: s in status ==> status[s] == StatusOf(limiters[s].State(), stats[s])
    {
      status := map[];
      var todo := limiters.Keys;
      while todo != {}
        invariant todo <= limiters.Keys
        invariant status.Keys == limiters.Keys - todo
        invariant forall s :: s in status ==> status[s] == StatusOf(limiters[s].State(), stats[s])
        decreases |todo|
      {
        var s :| s in todo;
        var limiter := limiters[s];
        var available := limiter.AvailableTokens();
        var capacity := limiter.capacity;
        var usage := (capacity as real - available) / capacity as real * 100.0;
        status := status[s := SourceStatus(available, capacity, usage, limiter.refillRate, stats[s])];
        todo := todo - {s};
      }
    }

    /** `reset_stats(source)`: a named source (a non-empty string) has its
        counters zeroed if it is configured; no source, or the empty
        string, zeroes every source. */
    method ResetStats(source: Option<string>)
      requires Valid()
      modifies this
      ensures Valid()
      ensures source.Some? && source.value != "" ==>
                stats == if source.value in old(stats) then old(stats)[source.value := ZeroStats] else old(stats)
      ensures !(source.Some? && source.value != "") ==>
                stats.Keys == old(stats).Keys && forall s :: s in stats ==> stats[s] == ZeroStats
    {
      if source.Some? && source.value != "" {
        if source.value in stats {
          stats := stats[source.value := ZeroStats];
        }
      } else {
        var todo := stats.Keys;
        while todo != {}
          invariant todo <= stats.Keys
          invariant stats.Keys == old(stats).Keys
          invariant forall s :: s in stats && s !in todo ==> stats[s] == ZeroStats
          decreases |todo|
        {
          var s :| s in todo;
          stats := stats[s := ZeroStats];
          todo := todo - {s};
        }
      }
    }
  }
}
