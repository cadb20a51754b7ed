/**
 * The breaker's in-memory key/bucket store (`HTTPigeon::CircuitBreaker::MemoryStore`).
 *
 * Every bucket carries the second at which it expires. Expiry is lazy: an expired bucket
 * stays in the map until a lookup of its key finds it and deletes it. The clock is the
 * parameter `now` (whole seconds); the store's mutex is not modelled, so each operation
 * is one atomic step.
 */
module TimedStore {
  import opened Wrappers

  /** No bucket may live longer than this many seconds past its last write. */
  const MAX_SAMPLE_WINDOW: int := 180

  /** The values the breaker keeps: flags (`true`), counters, and plain strings. */
  datatype Value = Bool(b: bool) | Int(i: int) | Str(s: string)

  /** A stored value with the instant after which it has expired. */
  datatype Bucket = Bucket(value: Value, expiresAt: int)

  type Buckets = map<string, Bucket>

  /** What `increment` raises when the live bucket does not hold an Integer. */
  datatype StoreError = NotNumeric

  /** The store's window: the requested one, capped at MAX_SAMPLE_WINDOW. */
  function CappedWindow(given: int): (w: int)
    ensures w <= MAX_SAMPLE_WINDOW
    ensures given <= MAX_SAMPLE_WINDOW ==> w == given
    ensures given > MAX_SAMPLE_WINDOW ==> w == MAX_SAMPLE_WINDOW
  {
    if given < MAX_SAMPLE_WINDOW then given else MAX_SAMPLE_WINDOW
  }

  /**
   * `relative_expires_at`: a bucket written at `now` with the requested lifetime
   * `expiresIn` (absent means 0) lives for that lifetime, but never longer than `window`.
   */
  function ExpiresAt(now: int, expiresIn: Option<int>, window: int): (e: int)
    ensures e - now <= window && e - now <= expiresIn.GetOr(0)
    ensures e - now == window || e - now == expiresIn.GetOr(0)
  {
    var ttl := expiresIn.GetOr(0);
    now + (if ttl < window then ttl else window)
  }

  /** `bucket_expired?`: the expiry instant itself still counts as live. */
  predicate Expired(b: Bucket, now: int) {
    b.expiresAt < now
  }

  /** The live bucket at `key`, if there is one. */
  function Fetch(m: Buckets, key: string, now: int): Option<Bucket> {
    if key in m && !Expired(m[key], now) then Some(m[key]) else None
  }

  /** What a lookup leaves behind: the bucket at `key` is deleted if it has expired. */
  function Evict(m: Buckets, key: string, now: int): (m': Buckets)
    ensures key in m' <==> key in m && !Expired(m[key], now)
    ensures forall k :: k in m' ==> k in m && m'[k] == m[k]
    ensures forall k :: k in m && k != key ==> k in m'
  {
    if key in m && Expired(m[key], now) then m - {key} else m
  }

  /** The value a reader sees at `key`. */
  function Lookup(m: Buckets, key: string, now: int): Option<Value> {
    match Fetch(m, key, now)
    case Some(b) => Some(b.value)
    case None => None
  }

  /** The map after `set`: a fresh bucket at `key`, whatever was there before. */
  function Assigned(m: Buckets, key: string, v: Value, expiresIn: Option<int>, window: int, now: int): (m': Buckets)
    ensures key in m' && m'[key].value == v && m'[key].expiresAt - now <= window
    ensures forall k :: k != key ==> (k in m' <==> k in m) && (k in m ==> m'[k] == m[k])
  {
    m[key := Bucket(v, ExpiresAt(now, expiresIn, window))]
  }

  /**
   * The map after `increment`: a live bucket gets its expiry refreshed and, when it holds
   * an Integer, `delta` added; a missing or expired key gets a new bucket holding `delta`.
   */
  function Incremented(m: Buckets, key: string, delta: int, expiresIn: Option<int>, window: int, now: int): (m': Buckets)
    ensures key in m' && m'[key].expiresAt == ExpiresAt(now, expiresIn, window)
    ensures Lookup(m, key, now).None? ==> m'[key].value == Int(delta)
    ensures Lookup(m, key, now).Some? && Lookup(m, key, now).value.Int? ==> m'[key].value == Int(Lookup(m, key, now).value.i + delta)
    ensures Lookup(m, key, now).Some? && !Lookup(m, key, now).value.Int? ==> m'[key].value == m[key].value
    ensures forall k :: k != key ==> (k in m' <==> k in m) && (k in m ==> m'[k] == m[k])
  {
    var e := ExpiresAt(now, expiresIn, window);
    match Fetch(m, key, now)
    case Some(b) => m[key := Bucket(if b.value.Int? then Int(b.value.i + delta) else b.value, e)]
    case None => m[key := Bucket(Int(delta), e)]
  }

  /** What `increment` returns: the new counter value, or the error `+=` raises. */
  function IncrementResult(m: Buckets, key: string, delta: int, now: int): (r: Result<int, StoreError>)
    ensures r.Failure? <==> Lookup(m, key, now).Some? && !Lookup(m, key, now).value.Int?
    ensures r.Success? ==> r.value == delta + (if Lookup(m, key, now).Some? then Lookup(m, key, now).value.i else 0)
  {
    match Lookup(m, key, now)
    case None => Success(delta)
    case Some(Int(n)) => Success(n + delta)
    case Some(_) => Failure(NotNumeric)
  }

  /** A key reads as present exactly while its bucket has not expired. */
  lemma LiveIffNotExpired(m: Buckets, key: string, now: int)
    ensures Lookup(m, key, now).Some? <==> key in m && now <= m[key].expiresAt
    ensures Lookup(m, key, now).Some? ==> Lookup(m, key, now).value == m[key].value
  {
  }

  /**
   * Lazy eviction cannot be observed: once a bucket has expired at `now` it stays expired
   * at every later instant, so deleting it changes no later lookup of any key.
   */
  lemma EvictionUnobservable(m: Buckets, key: string, k: string, now: int, later: int)
    requires now <= later
    ensures Lookup(Evict(m, key, now), k, later) == Lookup(m, k, later)
  {
  }

  /**
   * A value written by `set` reads back until its expiry and not after; the lifetime is
   * `min(expiresIn, window)` seconds.
   */
  lemma SetThenGet(m: Buckets, key: string, v: Value, expiresIn: Option<int>, window: int, now: int, later: int)
    ensures var ttl := if expiresIn.GetOr(0) < window then expiresIn.GetOr(0) else window;
            Lookup(Assigned(m, key, v, expiresIn, window, now), key, later)
            == if later <= now + ttl then Some(v) else None
  {
  }

  /** On a missing or expired key `increment` is `set` of `delta`, and returns `delta`. */
  lemma IncrementAbsentIsSet(m: Buckets, key: string, delta: int, expiresIn: Option<int>, window: int, now: int)
    requires Lookup(m, key, now).None?
    ensures Incremented(m, key, delta, expiresIn, window, now) == Assigned(m, key, Int(delta), expiresIn, window, now)
    ensures IncrementResult(m, key, delta, now) == Success(delta)
  {
  }

  /** On a live counter `increment` adds `delta`, returns the sum and slides the expiry forward. */
  lemma IncrementLiveCounter(m: Buckets, key: string, n: int, delta: int, expiresIn: Option<int>, window: int, now: int)
    requires Lookup(m, key, now) == Some(Int(n))
    ensures IncrementResult(m, key, delta, now) == Success(n + delta)
    ensures var m' := Incremented(m, key, delta, expiresIn, window, now);
            key in m' && m'[key] == Bucket(Int(n + delta), ExpiresAt(now, expiresIn, window))
  {
  }

  /** Every operation touches only its own key. */
  lemma OtherKeysUntouched(m: Buckets, key: string, k: string, v: Value, delta: int, expiresIn: Option<int>, window: int, now: int)
    requires k != key
    ensures (k in Evict(m, key, now) <==> k in m) && (k in m ==> Evict(m, key, now)[k] == m[k])
    ensures (k in Assigned(m, key, v, expiresIn, window, now) <==> k in m)
    ensures k in m ==> Assigned(m, key, v, expiresIn, window, now)[k] == m[k]
    ensures (k in Incremented(m, key, delta, expiresIn, window, now) <==> k in m)
    ensures k in m ==> Incremented(m, key, delta, expiresIn, window, now)[k] == m[k]
    ensures (k in m - {key} <==> k in m) && (k in m ==> (m - {key})[k] == m[k])
  {
  }

  class MemoryStore {
    const sampleWindow: int
    var store: Buckets

    /** A store starts empty; its window is the requested one capped at 180 seconds. */
    constructor (sampleWindow: int)
      ensures this.sampleWindow == CappedWindow(sampleWindow)
      ensures store == map[]
    {
      this.sampleWindow := CappedWindow(sampleWindow);
      store := map[];
    }

    /** `get`: the live value at `key`, evicting an expired bucket. */
    method Get(key: string, now: int) returns (v: Option<Value>)
      modifies this
      ensures v == Lookup(old(store), key, now)
      ensures store == Evict(old(store), key, now)
    {
      var bucket := FetchBucket(key, now);
      v := if bucket.Some? then Some(bucket.value.value) else None;
    }

    /** `set`: drops an expired bucket, then stores a fresh one; returns the value stored. */
    method Set(key: string, value: Value, expiresIn: Option<int>, now: int) returns (stored: Value)
      modifies this
      ensures stored == value
      ensures store == Assigned(old(store), key, value, expiresIn, sampleWindow, now)
    {
      Flush(key, now);
      store := store[key := Bucket(value, ExpiresAt(now, expiresIn, sampleWindow))];
      stored := value;
    }

    /**
     * `increment`: on a live bucket the expiry is reassigned first and `delta` is added after,
     * so a bucket that does not hold an Integer keeps its new expiry and the call fails.
     */
    method Increment(key: string, delta: int, expiresIn: Option<int>, now: int) returns (r: Result<int, StoreError>)
      modifies this
      ensures r == IncrementResult(old(store), key, delta, now)
      ensures store == Incremented(old(store), key, delta, expiresIn, sampleWindow, now)
    {
      var existing := FetchBucket(key, now);
      if existing.Some? {
        var bucket := existing.value.(expiresAt := ExpiresAt(now, expiresIn, sampleWindow));
        store := store[key := bucket];
        if bucket.value.Int? {
          bucket := bucket.(value := Int(bucket.value.i + delta));
          store := store[key := bucket];
          r := Success(bucket.value.i);
        } else {
          r := Failure(NotNumeric);
        }
      } else {
        store := store[key := Bucket(Int(delta), ExpiresAt(now, expiresIn, sampleWindow))];
        r := Success(delta);
      }
    }

    /** `key?`: whether a live bucket is at `key`, evicting an expired one. */
    method HasKey(key: string, now: int) returns (present: bool)
      modifies this
      ensures present == Lookup(old(store), key, now).Some?
      ensures store == Evict(old(store), key, now)
    {
      var bucket := FetchBucket(key, now);
      present := bucket.Some?;
    }

    /** `delete`: removes the bucket, expired or not, and returns it. */
    method Delete(key: string) returns (removed: Option<Bucket>)
      modifies this
      ensures removed == if key in old(store) then Some(old(store)[key]) else None
      ensures store == old(store) - {key}
    {
      removed := if key in store then Some(store[key]) else None;
      store := store - {key};
    }

    /** `fetch_bucket`: the live bucket at `key`; an expired one is deleted instead. */
    method FetchBucket(key: string, now: int) returns (bucket: Option<Bucket>)
      modifies this
      ensures bucket == Fetch(old(store), key, now)
      ensures store == Evict(old(store), key, now)
    {
      if key !in store {
        return None;
      }
      var b := store[key];
      if Expired(b, now) {
        store := store - {key};
        return None;
      }
      return Some(b);
    }

    /** `flush`: deletes the bucket at `key` if it has expired. */
    method Flush(key: string, now: int)
      modifies this
      ensures store == Evict(old(store), key, now)
    {
      if key in store && Expired(store[key], now) {
        store := store - {key};
      }
    }
  }
}
