/**
 * Token-bucket admission control.
 *
 * A bucket holds up to `capacity` tokens and refills continuously at
 * `capacity / window` tokens per second.  Each check first refills the bucket
 * for the time elapsed since its last refill, then admits the request when at
 * least `requests` tokens are present and takes them out.
 *
 * Two stores hold the buckets: a table inside the process (one `Bucket` per
 * partition key, created on first use), and a shared store of named hashes
 * `bucket:<key>` with the two fields `tokens` and `last_refill`.  The current
 * time is a parameter `now` (seconds) rather than a clock reading.
 */
module RateLimiting {

  /** One partition key's bucket. */
  datatype Bucket = Bucket(capacity: nat, refillRate: real, tokens: real, lastRefill: real)

  /** The outcome of one check against one bucket: the decision and the bucket afterwards. */
  datatype Decision = Decision(allowed: bool, bucket: Bucket)

  /** The outcome of one check against the in-process table. */
  datatype MemoryOutcome = MemoryOutcome(allowed: bool, buckets: map<string, Bucket>)

  /** A hash of the shared store: field name to numeric value. */
  type Hash = map<string, real>

  /** The outcome of one check against the shared store. */
  datatype SharedOutcome = SharedOutcome(allowed: bool, hashes: map<string, Hash>)

  const TokensField: string := "tokens"
  const LastRefillField: string := "last_refill"

  /** Tokens per second that refill a bucket of `capacity` tokens over `window` seconds. */
  function RefillRate(capacity: nat, window: int): (rate: real)
    requires window > 0
    ensures rate >= 0.0
    ensures rate * window as real == capacity as real
  {
    capacity as real / window as real
  }

  /** The bucket created for a key seen for the first time: full, last refilled now. */
  function NewBucket(capacity: nat, window: int, now: real): Bucket
    requires window > 0
  {
    Bucket(capacity, RefillRate(capacity, window), capacity as real, now)
  }

  /** The token count `b` would reach at `now` without the capacity cap. */
  function Grown(b: Bucket, now: real): real
  {
    b.tokens + (now - b.lastRefill) * b.refillRate
  }

  /** The token count after refilling `b` up to `now`; elapsed time is not clamped. */
  function Refill(b: Bucket, now: real): (tokens: real)
    ensures tokens <= b.capacity as real
    ensures tokens <= Grown(b, now)
    ensures tokens == b.capacity as real || tokens == Grown(b, now)
  {
    var grown := Grown(b, now);
    if grown < b.capacity as real then grown else b.capacity as real
  }

  /** Refill `b` up to `now`, then admit if at least `requests` tokens remain and take them. */
  function Admit(b: Bucket, now: real, requests: int): (d: Decision)
    ensures d.allowed <==> Refill(b, now) >= requests as real
    ensures d.bucket.capacity == b.capacity && d.bucket.refillRate == b.refillRate && d.bucket.lastRefill == now
  {
    var refilled := Refill(b, now);
    if refilled >= requests as real then
      Decision(true, b.(tokens := refilled - requests as real, lastRefill := now))
    else
      Decision(false, b.(tokens := refilled, lastRefill := now))
  }

  /** One check of `key` against the in-process table, creating its bucket on first use. */
  function MemoryStep(buckets: map<string, Bucket>, key: string, requests: int, now: real,
                      capacity: nat, window: int): (r: MemoryOutcome)
    requires window > 0
    ensures r.buckets.Keys == buckets.Keys + {key}
    ensures r.allowed == Admit(if key in buckets then buckets[key] else NewBucket(capacity, window, now), now, requests).allowed
  {
    var b := if key in buckets then buckets[key] else NewBucket(capacity, window, now);
    var d := Admit(b, now, requests);
    MemoryOutcome(d.allowed, buckets[key := d.bucket])
  }

  /** The name of the shared-store hash that holds `key`'s bucket. */
  function BucketKey(key: string): string
  {
    "bucket:" + key
  }

  /** A numeric field of a hash, or `default` when the hash lacks it. */
  function Field(h: Hash, name: string, default: real): real
  {
    if name in h then h[name] else default
  }

  /**
   * The bucket a shared-store hash stands for: an empty (missing) hash is a full
   * bucket last refilled now; otherwise a missing token count reads as 0 and a
   * missing refill time as now.
   */
  function StoredBucket(h: Hash, capacity: nat, window: int, now: real): (b: Bucket)
    requires window > 0
    ensures b.capacity == capacity && b.refillRate == RefillRate(capacity, window)
    ensures h == map[] ==> b.tokens == capacity as real && b.lastRefill == now
    ensures h != map[] && TokensField in h ==> b.tokens == h[TokensField]
    ensures h != map[] && LastRefillField in h ==> b.lastRefill == h[LastRefillField]
  {
    if h == map[] then NewBucket(capacity, window, now)
    else Bucket(capacity, RefillRate(capacity, window), Field(h, TokensField, 0.0), Field(h, LastRefillField, now))
  }

  /** The hash fields that record a bucket's state. */
  function Encode(b: Bucket): Hash
  {
    map[TokensField := b.tokens, LastRefillField := b.lastRefill]
  }

  /**
   * One check of `key` against the shared store: read the hash, refill, decide;
   * only an admitted check writes the new token count and time back (merged into
   * the hash); a rejected one writes nothing.
   */
  function RedisStep(hashes: map<string, Hash>, key: string, requests: int, now: real,
                     capacity: nat, window: int): (r: SharedOutcome)
    requires window > 0
    ensures !r.allowed ==> r.hashes == hashes
    ensures r.allowed ==> r.hashes.Keys == hashes.Keys + {BucketKey(key)}
    ensures r.allowed ==> LastRefillField in r.hashes[BucketKey(key)] && r.hashes[BucketKey(key)][LastRefillField] == now
    ensures forall name :: name in hashes && name != BucketKey(key) ==> name in r.hashes && r.hashes[name] == hashes[name]
  {
    var name := BucketKey(key);
    var h := if name in hashes then hashes[name] else map[];
    var d := Admit(StoredBucket(h, capacity, window, now), now, requests);
    if d.allowed then
      SharedOutcome(true, hashes[name := h + map[TokensField := d.bucket.tokens, LastRefillField := now]])
    else
      SharedOutcome(false, hashes)
  }

  // ---------------------------------------------------------------------------
  // Properties of one check

  /** A bucket is in bounds at `now` when it holds between 0 and capacity tokens and was last refilled no later than now. */
  ghost predicate InBounds(b: Bucket, now: real)
  {
    0.0 <= b.tokens <= b.capacity as real && b.lastRefill <= now && b.refillRate >= 0.0
  }

  /** Every bucket of the table was created by a limiter with this capacity and window. */
  ghost predicate WellFormed(buckets: map<string, Bucket>, capacity: nat, window: int)
    requires window > 0
  {
    forall k :: k in buckets ==> buckets[k].capacity == capacity && buckets[k].refillRate == RefillRate(capacity, window)
  }

  /** Every bucket of the table is well formed and in bounds at `now`. */
  ghost predicate Bounded(buckets: map<string, Bucket>, capacity: nat, window: int, now: real)
    requires window > 0
  {
    WellFormed(buckets, capacity, window) && forall k :: k in buckets ==> InBounds(buckets[k], now)
  }

  /** Refilling a bucket in bounds never loses tokens and never leaves the bounds. */
  lemma RefillInBounds(b: Bucket, now: real)
    requires InBounds(b, now)
    ensures b.tokens <= Refill(b, now) <= b.capacity as real
  {
    assert (now - b.lastRefill) * b.refillRate >= 0.0;
  }

  /**
   * Elapsed time is not clamped: with a clock that steps back past the last refill,
   * an empty bucket refills to a negative count.  This is why the bounds below
   * assume checks arrive in non-decreasing time order.
   */
  lemma BackwardClockGoesNegative(b: Bucket, now: real)
    requires b.tokens == 0.0 && b.refillRate > 0.0 && now < b.lastRefill
    ensures Refill(b, now) < 0.0
  {
    NegativeTimesPositive(now - b.lastRefill, b.refillRate);
    assert Grown(b, now) < 0.0;
  }

  /**
   * A bucket that has been idle for at least a whole window refills exactly to capacity,
   * whatever non-negative count it held.
   */
  lemma IdleWindowRefillsToCapacity(b: Bucket, window: int, now: real)
    requires window > 0
    requires b.tokens >= 0.0 && b.refillRate == RefillRate(b.capacity, window)
    requires now - b.lastRefill >= window as real
    ensures Refill(b, now) == b.capacity as real
  {
    var elapsed, rate := now - b.lastRefill, b.refillRate;
    assert rate * window as real == b.capacity as real;
    ScaleMonotone(elapsed, window as real, rate);
    assert elapsed * rate >= b.capacity as real;
    assert Grown(b, now) == b.tokens + elapsed * rate;
  }

  /** A check at the very instant of the last refill adds no tokens. */
  lemma RefillAtLastRefill(b: Bucket)
    requires b.tokens <= b.capacity as real
    ensures Refill(b, b.lastRefill) == b.tokens
  {
    assert b.lastRefill - b.lastRefill == 0.0;
    assert Grown(b, b.lastRefill) == b.tokens;
  }

  lemma NegativeTimesPositive(x: real, y: real)
    requires x < 0.0 < y
    ensures x * y < 0.0
  {
    assert (-x) * y > 0.0;
  }

  lemma ScaleMonotone(a: real, c: real, r: real)
    requires a >= c && r >= 0.0
    ensures a * r >= r * c
  {
    assert (a - c) * r >= 0.0;
  }

  /**
   * The admission rule: admitted iff the refilled count covers `requests`; an
   * admitted check takes exactly `requests`, a rejected one keeps the refilled
   * count; either way the refill time becomes `now`.
   */
  lemma AdmissionRule(b: Bucket, now: real, requests: int)
    ensures Admit(b, now, requests).allowed <==> Refill(b, now) >= requests as real
    ensures Admit(b, now, requests).bucket.tokens
            == if Refill(b, now) >= requests as real then Refill(b, now) - requests as real else Refill(b, now)
    ensures Admit(b, now, requests).bucket == b.(tokens := Admit(b, now, requests).bucket.tokens, lastRefill := now)
  {
  }

  /** One check with a non-negative cost keeps a bucket in bounds. */
  lemma AdmitKeepsBounds(b: Bucket, now: real, requests: int)
    requires InBounds(b, now) && requests >= 0
    ensures InBounds(Admit(b, now, requests).bucket, now)
  {
    RefillInBounds(b, now);
  }

  /**
   * The first check of an unseen key starts from a full bucket: it is admitted iff
   * the capacity covers the cost, and the new bucket is refilled at `now`.
   */
  lemma FirstCheckStartsFull(buckets: map<string, Bucket>, key: string, requests: int, now: real,
                             capacity: nat, window: int)
    requires window > 0 && key !in buckets
    ensures var r := MemoryStep(buckets, key, requests, now, capacity, window);
      && (r.allowed <==> capacity >= requests)
      && key in r.buckets
      && r.buckets[key] == NewBucket(capacity, window, now).(tokens := if r.allowed then (capacity - requests) as real else capacity as real)
  {
    RefillAtLastRefill(NewBucket(capacity, window, now));
  }

  /** A check touches only its own key's bucket, and always records `now` as its refill time. */
  lemma MemoryStepFrame(buckets: map<string, Bucket>, key: string, requests: int, now: real,
                        capacity: nat, window: int)
    requires window > 0
    ensures var r := MemoryStep(buckets, key, requests, now, capacity, window);
      && r.buckets.Keys == buckets.Keys + {key}
      && r.buckets[key].lastRefill == now
      && forall k :: k in buckets && k != key ==> r.buckets[k] == buckets[k]
  {
  }

  /** A check at or after every refill time, with a non-negative cost, keeps the whole table bounded. */
  lemma MemoryStepKeepsBounds(buckets: map<string, Bucket>, key: string, requests: int, earlier: real, now: real,
                              capacity: nat, window: int)
    requires window > 0 && Bounded(buckets, capacity, window, earlier) && earlier <= now && requests >= 0
    ensures Bounded(MemoryStep(buckets, key, requests, now, capacity, window).buckets, capacity, window, now)
  {
    var b := if key in buckets then buckets[key] else NewBucket(capacity, window, now);
    assert InBounds(b, now);
    AdmitKeepsBounds(b, now, requests);
  }

  // ---------------------------------------------------------------------------
  // Sequences of checks

  datatype Call = Call(key: string, requests: int, now: real)

  datatype RunOutcome = RunOutcome(decisions: seq<bool>, buckets: map<string, Bucket>)

  /** The decisions and the final table of a sequence of checks, made one after another. */
  function Run(buckets: map<string, Bucket>, calls: seq<Call>, capacity: nat, window: int): (r: RunOutcome)
    requires window > 0
    ensures |r.decisions| == |calls|
    ensures buckets.Keys <= r.buckets.Keys
    ensures forall i :: 0 <= i < |calls| ==> calls[i].key in r.buckets
    decreases |calls|
  {
    if calls == [] then RunOutcome([], buckets)
    else
      var step := MemoryStep(buckets, calls[0].key, calls[0].requests, calls[0].now, capacity, window);
      var rest := Run(step.buckets, calls[1..], capacity, window);
      RunOutcome([step.allowed] + rest.decisions, rest.buckets)
  }

  /** The calls come at or after `start`, in non-decreasing time order, each with a non-negative cost. */
  ghost predicate Chronological(calls: seq<Call>, start: real)
    decreases |calls|
  {
    calls == [] || (calls[0].requests >= 0 && start <= calls[0].now && Chronological(calls[1..], calls[0].now))
  }

  /** The time of the last call, or `start` when there is none. */
  function EndTime(calls: seq<Call>, start: real): real
  {
    if calls == [] then start else calls[|calls| - 1].now
  }

  /** Over any chronological sequence of checks, every bucket stays between 0 and capacity. */
  lemma {:induction false} RunKeepsBounds(buckets: map<string, Bucket>, calls: seq<Call>, start: real,
                                          capacity: nat, window: int)
    requires window > 0 && Bounded(buckets, capacity, window, start) && Chronological(calls, start)
    ensures Bounded(Run(buckets, calls, capacity, window).buckets, capacity, window, EndTime(calls, start))
    decreases |calls|
  {
    if calls != [] {
      var c := calls[0];
      MemoryStepKeepsBounds(buckets, c.key, c.requests, start, c.now, capacity, window);
      var step := MemoryStep(buckets, c.key, c.requests, c.now, capacity, window);
      RunKeepsBounds(step.buckets, calls[1..], c.now, capacity, window);
      assert EndTime(calls[1..], c.now) == EndTime(calls, start);
    }
  }

  /** `n` unit-cost checks of `key`, all at the instant `now`. */
  function Burst(key: string, now: real, n: nat): (calls: seq<Call>)
    ensures |calls| == n
    ensures forall i :: 0 <= i < n ==> calls[i] == Call(key, 1, now)
  {
    seq(n, _ => Call(key, 1, now))
  }

  /** `n` copies of the decision `d`. */
  function Repeat(d: bool, n: nat): (ds: seq<bool>)
    ensures |ds| == n
    ensures forall i :: 0 <= i < n ==> ds[i] == d
  {
    seq(n, _ => d)
  }

  /** A burst at one instant is a chronological sequence of checks. */
  lemma {:induction false} BurstIsChronological(key: string, now: real, n: nat)
    ensures Chronological(Burst(key, now, n), now)
    decreases n
  {
    if n > 0 {
      assert Burst(key, now, n)[1..] == Burst(key, now, n - 1);
      BurstIsChronological(key, now, n - 1);
    }
  }

  /**
   * Unit-cost checks at the instant a bucket was last refilled, while it holds the
   * whole number `k` of tokens: the first `k` are admitted and the rest rejected.
   */
  lemma {:induction false} BurstFrom(buckets: map<string, Bucket>, key: string, now: real, k: nat, n: nat,
                                     capacity: nat, window: int)
    requires window > 0 && key in buckets
    requires buckets[key].tokens == k as real && buckets[key].lastRefill == now && k <= buckets[key].capacity
    ensures Run(buckets, Burst(key, now, n), capacity, window).decisions
            == Repeat(true, if n < k then n else k) + Repeat(false, if n < k then 0 else n - k)
    decreases n
  {
    if n > 0 {
      var calls := Burst(key, now, n);
      var b := buckets[key];
      RefillAtLastRefill(b);
      var step := MemoryStep(buckets, key, 1, now, capacity, window);
      assert calls[1..] == Burst(key, now, n - 1);
      var k' := if k > 0 then k - 1 else 0;
      BurstFrom(step.buckets, key, now, k', n - 1, capacity, window);
      var tail := Run(step.buckets, calls[1..], capacity, window).decisions;
      assert Run(buckets, calls, capacity, window).decisions == [step.allowed] + tail;
      if k > 0 {
        assert [true] + Repeat(true, if n - 1 < k' then n - 1 else k') == Repeat(true, if n < k then n else k);
      } else {
        assert [false] + Repeat(false, n - 1) == Repeat(false, n);
      }
    }
  }

  /**
   * For an unseen key and unit-cost checks all at one instant, exactly `capacity`
   * checks are admitted and the next one is rejected.
   */
  lemma BurstAtOneInstant(buckets: map<string, Bucket>, key: string, now: real, capacity: nat, window: int)
    requires window > 0 && key !in buckets
    ensures Run(buckets, Burst(key, now, capacity + 1), capacity, window).decisions == Repeat(true, capacity) + [false]
  {
    var calls := Burst(key, now, capacity + 1);
    var full := buckets[key := NewBucket(capacity, window, now)];
    assert MemoryStep(buckets, key, 1, now, capacity, window) == MemoryStep(full, key, 1, now, capacity, window);
    assert Run(buckets, calls, capacity, window) == Run(full, calls, capacity, window);
    BurstFrom(full, key, now, capacity, capacity + 1, capacity, window);
  }

  // ---------------------------------------------------------------------------
  // The shared-store path

  /**
   * A missing hash reads as a full bucket refilled now, so a first check through the
   * shared store is admitted iff the capacity covers the cost, and an admitted one
   * creates the hash with the remaining tokens and `now`.
   */
  lemma RedisFirstCheck(hashes: map<string, Hash>, key: string, requests: int, now: real, capacity: nat, window: int)
    requires window > 0 && BucketKey(key) !in hashes
    ensures var r := RedisStep(hashes, key, requests, now, capacity, window);
      && (r.allowed <==> capacity >= requests)
      && (r.allowed ==> r.hashes[BucketKey(key)] == map[TokensField := (capacity - requests) as real, LastRefillField := now])
  {
    RefillAtLastRefill(NewBucket(capacity, window, now));
    assert map[] + map[TokensField := (capacity - requests) as real, LastRefillField := now]
        == map[TokensField := (capacity - requests) as real, LastRefillField := now];
  }

  /** In a hash that exists, a missing token count reads as 0 and a missing refill time as now. */
  lemma MissingFieldsDefaults(h: Hash, capacity: nat, window: int, now: real)
    requires window > 0 && h != map[]
    ensures TokensField !in h ==> StoredBucket(h, capacity, window, now).tokens == 0.0
    ensures LastRefillField !in h ==> StoredBucket(h, capacity, window, now).lastRefill == now
    ensures TokensField in h && LastRefillField in h ==>
              StoredBucket(h, capacity, window, now) == Bucket(capacity, RefillRate(capacity, window), h[TokensField], h[LastRefillField])
  {
  }

  /**
   * Every hash of the shared store records both fields, a token count between 0
   * and capacity, and a refill time no later than `now`.
   */
  ghost predicate SharedBounded(hashes: map<string, Hash>, capacity: nat, now: real)
  {
    forall name :: name in hashes ==>
      && TokensField in hashes[name] && LastRefillField in hashes[name]
      && 0.0 <= hashes[name][TokensField] <= capacity as real
      && hashes[name][LastRefillField] <= now
  }

  /** A check in time order with a non-negative cost keeps every hash of the shared store in bounds. */
  lemma RedisStepKeepsBounds(hashes: map<string, Hash>, key: string, requests: int, earlier: real, now: real,
                             capacity: nat, window: int)
    requires window > 0 && SharedBounded(hashes, capacity, earlier) && earlier <= now && requests >= 0
    ensures SharedBounded(RedisStep(hashes, key, requests, now, capacity, window).hashes, capacity, now)
  {
    var name := BucketKey(key);
    var h := if name in hashes then hashes[name] else map[];
    var b := StoredBucket(h, capacity, window, now);
    assert InBounds(b, now);
    AdmitKeepsBounds(b, now, requests);
  }

  /**
   * The two paths agree: when the shared store holds exactly the state of an
   * in-process bucket (or neither holds the key), a check makes the same decision
   * on both, and an admitted check leaves the shared hash encoding the in-process
   * bucket afterwards.  They differ only in that a rejected check updates the
   * in-process bucket but writes nothing to the shared store.
   */
  lemma {:induction false} RedisAgreesWithMemory(hashes: map<string, Hash>, buckets: map<string, Bucket>, key: string,
                                                 requests: int, now: real, capacity: nat, window: int)
    requires window > 0 && WellFormed(buckets, capacity, window)
    requires (key in buckets && BucketKey(key) in hashes && hashes[BucketKey(key)] == Encode(buckets[key]))
          || (key !in buckets && BucketKey(key) !in hashes)
    ensures var shared := RedisStep(hashes, key, requests, now, capacity, window);
            var local := MemoryStep(buckets, key, requests, now, capacity, window);
      && shared.allowed == local.allowed
      && (shared.allowed ==> shared.hashes[BucketKey(key)] == Encode(local.buckets[key]))
      && (!shared.allowed ==> shared.hashes == hashes)
  {
    var name := BucketKey(key);
    var h := if name in hashes then hashes[name] else map[];
    var b := if key in buckets then buckets[key] else NewBucket(capacity, window, now);
    if key in buckets {
      assert TokensField in h && LastRefillField in h;
      assert h != map[];
      assert StoredBucket(h, capacity, window, now) == b;
    } else {
      assert StoredBucket(h, capacity, window, now) == b;
    }
    var d := Admit(b, now, requests);
    if d.allowed {
      assert h + map[TokensField := d.bucket.tokens, LastRefillField := now] == Encode(d.bucket);
    }
  }

  // ---------------------------------------------------------------------------
  // The stores as mutable objects

  /** A connection to the shared store: its table of named hashes. */
  class RedisStore {
    var hashes: map<string, Hash>

    constructor ()
      ensures hashes == map[]
    {
      hashes := map[];
    }
  }

  /**
   * The limiter: capacity and window from configuration, the shared-store client
   * (null when the in-process table is in use) and the in-process table.
   */
  class RateLimiter {
    const capacity: nat
    const window: int
    var redis: RedisStore?
    var localBuckets: map<string, Bucket>

    ghost predicate Valid()
      reads this
    {
      window > 0 && WellFormed(localBuckets, capacity, window)
    }

    /** A limiter starts with no shared-store client and an empty table. */
    constructor (capacity: nat, window: int)
      requires window > 0
      ensures Valid()
      ensures this.capacity == capacity && this.window == window
      ensures redis == null && localBuckets == map[]
    {
      this.capacity := capacity;
      this.window := window;
      redis := null;
      localBuckets := map[];
    }

    /**
     * Connect to the shared store; `reachable` is the result of the connectivity probe.
     * An unreachable store leaves the limiter on the in-process table for good.
     */
    method Initialize(reachable: bool, client: RedisStore)
      requires Valid()
      modifies this
      ensures Valid()
      ensures redis == (if reachable then client else null)
      ensures localBuckets == old(localBuckets)
    {
      redis := client;
      if !reachable {
        redis := null;
      }
    }

    /** The decision a check of `key` would get in the current state. */
    function Admits(key: string, requests: int, now: real): bool
      requires Valid()
      reads this, redis
    {
      if redis != null then RedisStep(redis.hashes, key, requests, now, capacity, window).allowed
      else MemoryStep(localBuckets, key, requests, now, capacity, window).allowed
    }

    /**
     * The state changed by exactly one check of `key` that returned `allowed`:
     * the store in use moved by one step and the other one is untouched.
     */
    twostate predicate Consulted(key: string, requests: int, now: real, allowed: bool)
      requires old(Valid())
      reads this, redis
    {
      && redis == old(redis)
      && (old(redis) == null ==>
            MemoryOutcome(allowed, localBuckets) == MemoryStep(old(localBuckets), key, requests, now, capacity, window))
      && (old(redis) != null ==>
            && localBuckets == old(localBuckets)
            && SharedOutcome(allowed, redis.hashes) == RedisStep(old(redis.hashes), key, requests, now, capacity, window))
    }

    /** Check `key` against whichever store the limiter uses. */
    method IsAllowed(key: string, requests: int, now: real) returns (allowed: bool)
      requires Valid()
      modifies this, redis
      ensures Valid()
      ensures allowed == old(Admits(key, requests, now))
      ensures Consulted(key, requests, now, allowed)
      ensures old(Bounded(localBuckets, capacity, window, now)) && requests >= 0 ==> Bounded(localBuckets, capacity, window, now)
      ensures redis != null && old(SharedBounded(redis.hashes, capacity, now)) && requests >= 0 ==>
                SharedBounded(redis.hashes, capacity, now)
    {
      ghost var before := localBuckets;
      if redis != null {
        ghost var shared := redis.hashes;
        allowed := RedisRateLimit(key, requests, now);
        if SharedBounded(shared, capacity, now) && requests >= 0 {
          RedisStepKeepsBounds(shared, key, requests, now, now, capacity, window);
        }
      } else {
        allowed := MemoryRateLimit(key, requests, now);
        if Bounded(before, capacity, window, now) && requests >= 0 {
          MemoryStepKeepsBounds(before, key, requests, now, now, capacity, window);
        }
      }
    }

    /** The shared-store path: read the hash, refill, decide, write back only when admitted. */
    method RedisRateLimit(key: string, requests: int, now: real) returns (allowed: bool)
      requires Valid() && redis != null
      modifies redis
      ensures SharedOutcome(allowed, redis.hashes) == RedisStep(old(redis.hashes), key, requests, now, capacity, window)
    {
      var name := BucketKey(key);
      var data: Hash := if name in redis.hashes then redis.hashes[name] else map[];
      var tokens: real, lastRefill: real;
      if data != map[] {
        tokens := Field(data, TokensField, 0.0);
        lastRefill := Field(data, LastRefillField, now);
      } else {
        tokens := capacity as real;
        lastRefill := now;
      }
      var refilled := Refill(Bucket(capacity, RefillRate(capacity, window), tokens, lastRefill), now);
      if refilled >= requests as real {
        refilled := refilled - requests as real;
        redis.hashes := redis.hashes[name := data + map[TokensField := refilled, LastRefillField := now]];
        allowed := true;
      } else {
        allowed := false;
      }
    }

    /** The in-process path: create the bucket on first use, refill it, decide, store it back. */
    method MemoryRateLimit(key: string, requests: int, now: real) returns (allowed: bool)
      requires Valid()
      modifies this
      ensures Valid()
      ensures redis == old(redis)
      ensures MemoryOutcome(allowed, localBuckets) == MemoryStep(old(localBuckets), key, requests, now, capacity, window)
    {
      if key !in localBuckets {
        localBuckets := localBuckets[key := NewBucket(capacity, window, now)];
      }
      var bucket := localBuckets[key];
      bucket := bucket.(tokens := Refill(bucket, now), lastRefill := now);
      if bucket.tokens >= requests as real {
        bucket := bucket.(tokens := bucket.tokens - requests as real);
        allowed := true;
      } else {
        allowed := false;
      }
      localBuckets := localBuckets[key := bucket];
    }
  }

  /**
   * The example of a quota of 3 per 60 seconds: four checks of one key at the same
   * instant give admitted, admitted, admitted, rejected, and a fifth one a whole
   * window later is admitted again.
   */
  lemma QuotaExample(now: real)
    ensures var burst := Run(map[], Burst("user:42", now, 4), 3, 60);
      && burst.decisions == [true, true, true, false]
      && MemoryStep(burst.buckets, "user:42", 1, now + 60.0, 3, 60).allowed
  {
    BurstAtOneInstant(map[], "user:42", now, 3, 60);
    var burst := Run(map[], Burst("user:42", now, 4), 3, 60);
    assert Repeat(true, 3) + [false] == [true, true, true, false];
    BurstIsChronological("user:42", now, 4);
    RunKeepsBounds(map[], Burst("user:42", now, 4), now, 3, 60);
    var b := burst.buckets["user:42"];
    IdleWindowRefillsToCapacity(b, 60, now + 60.0);
  }
}
