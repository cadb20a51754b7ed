/**
 * The circuit breaker itself (`HTTPigeon::CircuitBreaker::Fuse`): an open / half-open /
 * closed state machine whose state lives in a `MemoryStore` under five keys derived from
 * the service id, two flags and three counters.
 *
 * Every transition is first written as a function on the bucket map (`...Step`,
 * `...Store`), which follows the Ruby method call by call, including the lazy evictions
 * its reads cause; the `Fuse` class then does the same work on its store object and is
 * proved to end in that state. The properties the breaker promises are lemmas about these
 * functions. The clock is the parameter `now`, the same for every step of one call; the
 * transition mutex and event logging are not modelled.
 */
module Breaker {
  import opened Wrappers
  import opened TimedStore
  import opened BreakerConfig
  import opened RubyText

  const STATE_OPEN: string := "open"
  const STATE_HALF_OPEN: string := "half_open"

  /** The three counters a fuse keeps. */
  datatype Stat = SuccessStat | FailureStat | TrippedStat

  /** How far `trip!` goes: both flags, or the half-open flag only. */
  datatype TripType = FullTrip | PartialTrip

  function StatName(s: Stat): string {
    match s
    case SuccessStat => "success"
    case FailureStat => "failure"
    case TrippedStat => "tripped"
  }

  /** `stat_storage_key`. */
  function StatStorageKey(id: string, s: Stat): string {
    "run_stat:" + id + ":" + StatName(s)
  }

  function OpenStorageKey(id: string): string {
    "circuit:" + id + ":" + STATE_OPEN
  }

  function HalfOpenStorageKey(id: string): string {
    "circuit:" + id + ":" + STATE_HALF_OPEN
  }

  /** The five storage keys of one service are pairwise different. */
  predicate DistinctKeys(id: string) {
    var success, failure, tripped := StatStorageKey(id, SuccessStat), StatStorageKey(id, FailureStat), StatStorageKey(id, TrippedStat);
    && OpenStorageKey(id) != HalfOpenStorageKey(id)
    && success != failure && success != tripped && failure != tripped
    && OpenStorageKey(id) != success && OpenStorageKey(id) != failure && OpenStorageKey(id) != tripped
    && HalfOpenStorageKey(id) != success && HalfOpenStorageKey(id) != failure && HalfOpenStorageKey(id) != tripped
  }

  lemma KeysDistinct(id: string)
    ensures DistinctKeys(id)
  {
    var n := |id|;
    assert OpenStorageKey(id)[0] == 'c' && HalfOpenStorageKey(id)[0] == 'c';
    assert forall s :: StatStorageKey(id, s)[0] == 'r';
    assert OpenStorageKey(id)[n + 9] == 'o' && HalfOpenStorageKey(id)[n + 9] == 'h';
    assert StatStorageKey(id, SuccessStat)[n + 10] == 's';
    assert StatStorageKey(id, FailureStat)[n + 10] == 'f';
    assert StatStorageKey(id, TrippedStat)[n + 10] == 't';
  }

  /** The bucket at `key`, if any, holds a non-negative Integer. */
  predicate HoldsCounter(m: Buckets, key: string) {
    key in m ==> m[key].value.Int? && m[key].value.i >= 0
  }

  /** The invariant of a fuse's store: its keys are distinct and its counters are counts. */
  predicate StoreShape(m: Buckets, id: string) {
    && DistinctKeys(id)
    && HoldsCounter(m, StatStorageKey(id, SuccessStat))
    && HoldsCounter(m, StatStorageKey(id, FailureStat))
    && HoldsCounter(m, StatStorageKey(id, TrippedStat))
  }

  /** `to_i` of what a counter read returns: nil counts as 0. */
  function ToI(v: Option<Value>): int
    requires v.None? || v.value.Int?
  {
    if v.None? then 0 else v.value.i
  }

  // ---------------------------------------------------------------------------------------
  // Ruby's String#to_i, for the maintenance header

  predicate IsDigit(c: char) {
    '0' <= c <= '9'
  }

  /** The longest prefix of `s` made of decimal digits. */
  function LeadingDigits(s: string): (ds: string)
    ensures |ds| <= |s| && ds == s[..|ds|]
    ensures forall i :: 0 <= i < |ds| ==> IsDigit(ds[i])
    ensures |ds| < |s| ==> !IsDigit(s[|ds|])
  {
    if |s| > 0 && IsDigit(s[0]) then [s[0]] + LeadingDigits(s[1..]) else []
  }

  /** The number a string of decimal digits denotes. */
  function DigitsValue(ds: string): (v: int)
    requires forall i :: 0 <= i < |ds| ==> IsDigit(ds[i])
    ensures v >= 0
  {
    if |ds| == 0 then 0
    else
      var d := ds[|ds| - 1] as int - '0' as int;
      assert IsDigit(ds[|ds| - 1]) && 0 <= d;
      DigitsValue(ds[..|ds| - 1]) * 10 + d
  }

  function SkipSpace(s: string): (t: string)
    ensures |t| <= |s| && t == s[|s| - |t|..]
    ensures |t| > 0 ==> !IsAsciiSpace(t[0])
  {
    if |s| > 0 && IsAsciiSpace(s[0]) then SkipSpace(s[1..]) else s
  }

  /** Base 10 accepts an optional `0d`/`0D` radix prefix in front of the digits. */
  function DropDecimalPrefix(u: string): (v: string)
    ensures |u| >= 2 && u[0] == '0' && (u[1] == 'd' || u[1] == 'D') ==> v == u[2..]
    ensures !(|u| >= 2 && u[0] == '0' && (u[1] == 'd' || u[1] == 'D')) ==> v == u
  {
    if |u| >= 2 && u[0] == '0' && (u[1] == 'd' || u[1] == 'D') then u[2..] else u
  }

  /**
   * `String#to_i`: leading whitespace, an optional sign, an optional `0d` radix prefix,
   * then the longest run of decimal digits; a string without digits there is 0.
   */
  function StringToI(s: string): int {
    var t := SkipSpace(s);
    if |t| > 0 && t[0] == '-' then -DigitsValue(LeadingDigits(DropDecimalPrefix(t[1..])))
    else if |t| > 0 && t[0] == '+' then DigitsValue(LeadingDigits(DropDecimalPrefix(t[1..])))
    else DigitsValue(LeadingDigits(DropDecimalPrefix(t)))
  }

  /** The decimal digits of `n`, as Ruby's `Integer#to_s` writes them. */
  function Decimal(n: nat): (s: string)
    ensures |s| > 0 && forall i :: 0 <= i < |s| ==> IsDigit(s[i])
  {
    var last := ['0' + (n % 10) as char];
    if n < 10 then last else Decimal(n / 10) + last
  }

  /** Reading back what `Integer#to_s` wrote gives the number again. */
  lemma {:induction false} DecimalValue(n: nat)
    ensures DigitsValue(Decimal(n)) == n
  {
    var s := Decimal(n);
    if n >= 10 {
      DecimalValue(n / 10);
      assert s[..|s| - 1] == Decimal(n / 10);
    }
  }

  lemma {:induction false} AllDigitsLead(s: string)
    requires forall i :: 0 <= i < |s| ==> IsDigit(s[i])
    ensures LeadingDigits(s) == s
  {
    if |s| > 0 {
      AllDigitsLead(s[1..]);
    }
  }

  /** A header holding the decimal digits of `n` reads as `n`. */
  lemma StringToIDecimal(n: nat)
    ensures StringToI(Decimal(n)) == n
  {
    var s := Decimal(n);
    assert IsDigit(s[0]);
    assert SkipSpace(s) == s;
    DecimalUnprefixed(n);
    AllDigitsLead(s);
    DecimalValue(n);
  }

  /** With a minus sign in front, the same digits read as `-n`. */
  lemma StringToINegative(n: nat)
    ensures StringToI(['-'] + Decimal(n)) == 0 - n
  {
    var s := Decimal(n);
    var neg := ['-'] + s;
    assert !IsAsciiSpace(neg[0]);
    assert SkipSpace(neg) == neg;
    assert neg[1..] == s;
    DecimalUnprefixed(n);
    AllDigitsLead(s);
    DecimalValue(n);
  }

  /** `Integer#to_s` never writes a radix prefix: its second character, if any, is a digit. */
  lemma DecimalUnprefixed(n: nat)
    ensures DropDecimalPrefix(Decimal(n)) == Decimal(n)
  {
    var s := Decimal(n);
    if |s| >= 2 {
      assert IsDigit(s[1]);
    }
  }

  /** An unsigned `0d`/`0D` prefix in front of the digits of `n` reads as `n`. */
  lemma UnsignedRadixPrefix(n: nat, d: char)
    requires d == 'd' || d == 'D'
    ensures StringToI(['0', d] + Decimal(n)) == n
  {
    var s := Decimal(n);
    var t := ['0', d] + s;
    assert !IsAsciiSpace(t[0]);
    assert SkipSpace(t) == t;
    assert t[2..] == s;
    AllDigitsLead(s);
    DecimalValue(n);
  }

  /** A sign, then a `0d`/`0D` prefix, then the digits of `n`, reads as the signed `n`. */
  lemma SignedRadixPrefix(n: nat, sign: char, d: char)
    requires sign == '-' || sign == '+'
    requires d == 'd' || d == 'D'
    ensures StringToI([sign, '0', d] + Decimal(n)) == if sign == '-' then 0 - n else n
  {
    var s := Decimal(n);
    var t := [sign, '0', d] + s;
    assert !IsAsciiSpace(t[0]);
    assert SkipSpace(t) == t;
    assert t[1..] == ['0', d] + s;
    assert t[1..][2..] == s;
    AllDigitsLead(s);
    DecimalValue(n);
  }

  /** A `0d` or `0D` radix prefix, signed or not, leaves the number it introduces. */
  lemma StringToIRadixPrefix(n: nat)
    ensures StringToI("0d" + Decimal(n)) == n
    ensures StringToI("0D" + Decimal(n)) == n
    ensures StringToI("-0d" + Decimal(n)) == 0 - n
    ensures StringToI("+0D" + Decimal(n)) == n
  {
    UnsignedRadixPrefix(n, 'd');
    UnsignedRadixPrefix(n, 'D');
    SignedRadixPrefix(n, '-', 'd');
    SignedRadixPrefix(n, '+', 'D');
  }

  /**
   * The maintenance timeout a response announces: its maintenance header read as an
   * integer, 0 when the header is absent.
   */
  function MaintenanceTimeout(response: Response, header: string): int {
    if header in response.headers then StringToI(response.headers[header]) else 0
  }

  // ---------------------------------------------------------------------------------------
  // The unit of work and what `execute` hands back

  /** What the wrapped call raised: a `Faraday::Error` with its status, or anything else. */
  datatype WorkError = FaradayError(status: int) | OtherError(name: string)

  /** The abstracted block given to `execute`: it returns a response or raises. */
  datatype WorkOutcome = Responded(response: Response) | Raised(error: WorkError)

  /** What `execute` returns, or the error it re-raises. */
  datatype ExecResult = Returned(response: Response) | Reraised(error: WorkError)

  /** `failed_request?`: no status, a server error, or a watched status. */
  predicate FailedRequest(c: FuseConfig, status: Option<int>) {
    status.None? || status.value >= 500 || status.value in c.errorCodesWatchlist
  }

  /** The test `execute` applies to a rescued `Faraday::Error`. */
  predicate CountsAsFailure(c: FuseConfig, status: int) {
    status >= 500 || status in c.errorCodesWatchlist
  }

  /** On a concrete status, the rescue test of `execute` and `failed_request?` agree. */
  lemma CountsAsFailureIsFailedRequest(c: FuseConfig, status: int)
    ensures CountsAsFailure(c, status) <==> FailedRequest(c, Some(status))
  {
  }

  // ---------------------------------------------------------------------------------------
  // The fuse's operations as functions of the store

  /** A read's answer together with the store the read leaves behind. */
  datatype Out<T> = Out(val: T, store: Buckets)

  function Window(c: FuseConfig): int {
    CappedWindow(c.sampleWindow)
  }

  /** `open?`. */
  function IsOpenStep(c: FuseConfig, m: Buckets, now: int): (r: Out<bool>)
    requires StoreShape(m, c.serviceId)
    ensures StoreShape(r.store, c.serviceId)
  {
    var k := OpenStorageKey(c.serviceId);
    Out(Lookup(m, k, now).Some?, Evict(m, k, now))
  }

  /** `half_open?`. */
  function IsHalfOpenStep(c: FuseConfig, m: Buckets, now: int): (r: Out<bool>)
    requires StoreShape(m, c.serviceId)
    ensures StoreShape(r.store, c.serviceId)
  {
    var k := HalfOpenStorageKey(c.serviceId);
    Out(Lookup(m, k, now).Some?, Evict(m, k, now))
  }

  /** `success_count`, `failure_count`, `tripped_count`. */
  function CountStep(c: FuseConfig, m: Buckets, s: Stat, now: int): (r: Out<int>)
    requires StoreShape(m, c.serviceId)
    ensures StoreShape(r.store, c.serviceId)
  {
    var k := StatStorageKey(c.serviceId, s);
    Out(ToI(Lookup(m, k, now)), Evict(m, k, now))
  }

  /** The failure rate of three counters: the share of runs that did not succeed. */
  function Rate(success: int, failure: int, tripped: int): real {
    var total := success + failure + tripped;
    if total > 0 then (total - success) as real / total as real else 0.0
  }

  /** `failure_rate`. */
  function FailureRateStep(c: FuseConfig, m: Buckets, now: int): (r: Out<real>)
    requires StoreShape(m, c.serviceId)
    ensures StoreShape(r.store, c.serviceId)
  {
    var s := CountStep(c, m, SuccessStat, now);
    var f := CountStep(c, s.store, FailureStat, now);
    var t := CountStep(c, f.store, TrippedStat, now);
    var total := s.val + f.val + t.val;
    if total <= 0 then Out(0.0, t.store)
    else
      var s' := CountStep(c, t.store, SuccessStat, now);
      Out((total - s'.val) as real / total as real, s'.store)
  }

  /** `should_open?`. */
  function ShouldOpenStep(c: FuseConfig, m: Buckets, now: int): (r: Out<bool>)
    requires StoreShape(m, c.serviceId)
    ensures StoreShape(r.store, c.serviceId)
  {
    var f := CountStep(c, m, FailureStat, now);
    if f.val < c.minFailuresCount then Out(false, f.store)
    else
      var f' := CountStep(c, f.store, FailureStat, now);
      if f'.val >= c.maxFailuresCount then Out(true, f'.store)
      else
        var rate := FailureRateStep(c, f'.store, now);
        Out(rate.val >= c.failureRateThreshold, rate.store)
  }

  /** `trip!`: sets the flags; `expiresIn` overrides both default lifetimes. */
  function TripStore(c: FuseConfig, m: Buckets, t: TripType, expiresIn: Option<int>, now: int): (m': Buckets)
    requires StoreShape(m, c.serviceId)
    ensures StoreShape(m', c.serviceId)
  {
    var halfOpen := Assigned(m, HalfOpenStorageKey(c.serviceId), Bool(true), Some(expiresIn.GetOr(c.sampleWindow)), Window(c), now);
    match t
    case FullTrip =>
      var m1 := Assigned(m, OpenStorageKey(c.serviceId), Bool(true), Some(expiresIn.GetOr(c.openCircuitSleepWindow)), Window(c), now);
      Assigned(m1, HalfOpenStorageKey(c.serviceId), Bool(true), Some(expiresIn.GetOr(c.sampleWindow)), Window(c), now)
    case PartialTrip => halfOpen
  }

  /** `open!`: unless already open, sets both flags and deletes the failure counter. */
  function OpenStore(c: FuseConfig, m: Buckets, expiresIn: Option<int>, now: int): (m': Buckets)
    requires StoreShape(m, c.serviceId)
    ensures StoreShape(m', c.serviceId)
  {
    var o := IsOpenStep(c, m, now);
    if o.val then o.store
    else TripStore(c, o.store, FullTrip, expiresIn, now) - {StatStorageKey(c.serviceId, FailureStat)}
  }

  /** `half_open!`: unless open or half-open already, sets the half-open flag. */
  function HalfOpenStore(c: FuseConfig, m: Buckets, now: int): (m': Buckets)
    requires StoreShape(m, c.serviceId)
    ensures StoreShape(m', c.serviceId)
  {
    var o := IsOpenStep(c, m, now);
    if o.val then o.store
    else
      var h := IsHalfOpenStep(c, o.store, now);
      if h.val then h.store else TripStore(c, h.store, PartialTrip, None, now)
  }

  /**
   * `close!`: with a positive success count and the circuit not open, deletes the half-open
   * bucket, and, if there was one (expired or not), the failure counter too.
   */
  function CloseStore(c: FuseConfig, m: Buckets, now: int): (m': Buckets)
    requires StoreShape(m, c.serviceId)
    ensures StoreShape(m', c.serviceId)
  {
    var s := CountStep(c, m, SuccessStat, now);
    if s.val <= 0 then s.store
    else
      var o := IsOpenStep(c, s.store, now);
      if o.val then o.store
      else
        var half := HalfOpenStorageKey(c.serviceId);
        var existed := half in o.store;
        var m1 := o.store - {half};
        if !existed then m1 else m1 - {StatStorageKey(c.serviceId, FailureStat)}
  }

  /** `record_stat`: adds one to a counter whose window slides to the sample window. */
  function RecordStatStore(c: FuseConfig, m: Buckets, s: Stat, now: int): (m': Buckets)
    requires StoreShape(m, c.serviceId)
    ensures StoreShape(m', c.serviceId)
  {
    Incremented(m, StatStorageKey(c.serviceId, s), 1, Some(c.sampleWindow), Window(c), now)
  }

  /** `record_success!`: counts a success, then tries to close a half-open circuit. */
  function RecordSuccessStore(c: FuseConfig, m: Buckets, now: int): (m': Buckets)
    requires StoreShape(m, c.serviceId)
    ensures StoreShape(m', c.serviceId)
  {
    var m1 := RecordStatStore(c, m, SuccessStat, now);
    var h := IsHalfOpenStep(c, m1, now);
    if h.val then CloseStore(c, h.store, now) else h.store
  }

  /**
   * The first half of `record_failure!`: once `should_open?` answered `so`, opens the
   * circuit when that answer is yes, unless the circuit is both half-open and open.
   */
  function OpenIfTripped(c: FuseConfig, so: Out<bool>, now: int): (m': Buckets)
    requires StoreShape(so.store, c.serviceId)
    ensures StoreShape(m', c.serviceId)
  {
    if !so.val then so.store
    else
      var h := IsHalfOpenStep(c, so.store, now);
      if !h.val then OpenStore(c, h.store, None, now)
      else
        var o := IsOpenStep(c, h.store, now);
        if !o.val then OpenStore(c, o.store, None, now) else o.store
  }

  /**
   * The second half of `record_failure!`: half-opens the circuit when the half-open flag
   * is absent and the failure count has reached the minimum.
   */
  function HalfOpenIfFailing(c: FuseConfig, m: Buckets, now: int): (m': Buckets)
    requires StoreShape(m, c.serviceId)
    ensures StoreShape(m', c.serviceId)
  {
    var h := IsHalfOpenStep(c, m, now);
    if h.val then h.store
    else
      var f := CountStep(c, h.store, FailureStat, now);
      if f.val >= c.minFailuresCount then HalfOpenStore(c, f.store, now) else f.store
  }

  /**
   * `record_failure!`: counts a failure; opens the circuit when `should_open?` holds
   * (and it is not both half-open and open); then half-opens it when the failure count has
   * reached the minimum and the half-open flag is absent.
   */
  function RecordFailureStore(c: FuseConfig, m: Buckets, now: int): (m': Buckets)
    requires StoreShape(m, c.serviceId)
    ensures StoreShape(m', c.serviceId)
  {
    var m1 := RecordStatStore(c, m, FailureStat, now);
    HalfOpenIfFailing(c, OpenIfTripped(c, ShouldOpenStep(c, m1, now), now), now)
  }

  /**
   * `execute`: the answer and the store after one gated call whose block produced `work`.
   * While open the block is not run (its outcome is never looked at).
   */
  function ExecuteStep(c: FuseConfig, m: Buckets, work: WorkOutcome, now: int): (r: Out<ExecResult>)
    requires StoreShape(m, c.serviceId)
    ensures StoreShape(r.store, c.serviceId)
  {
    var o := IsOpenStep(c, m, now);
    if o.val then
      Out(Returned(c.openCircuitHandler(NullResponse(None), CircuitOpenErrorFor(c.serviceId))),
          RecordStatStore(c, o.store, TrippedStat, now))
    else
      match work
      case Responded(response) =>
        var timeout := MaintenanceTimeout(response, c.maintenanceModeHeader);
        if timeout > 0 then
          var m1 := RecordFailureStore(c, o.store, now);
          Out(Returned(c.openCircuitHandler(response, CircuitOpenErrorFor(c.serviceId))),
              OpenStore(c, m1, Some(timeout), now))
        else
          Out(Returned(response), RecordSuccessStore(c, o.store, now))
      case Raised(e) =>
        var counted := e.FaradayError? && CountsAsFailure(c, e.status);
        Out(Reraised(e), if counted then RecordFailureStore(c, o.store, now) else o.store)
  }

  // ---------------------------------------------------------------------------------------
  // What the breaker promises, stated on what later reads observe

  /** The value a counter read reports at `now`. */
  function Counter(c: FuseConfig, m: Buckets, s: Stat, now: int): int
    requires StoreShape(m, c.serviceId)
  {
    ToI(Lookup(m, StatStorageKey(c.serviceId, s), now))
  }

  predicate Opened(c: FuseConfig, m: Buckets, now: int) {
    Lookup(m, OpenStorageKey(c.serviceId), now).Some?
  }

  predicate HalfOpened(c: FuseConfig, m: Buckets, now: int) {
    Lookup(m, HalfOpenStorageKey(c.serviceId), now).Some?
  }

  /** Reported counters are never negative. */
  lemma CounterNonNegative(c: FuseConfig, m: Buckets, s: Stat, now: int)
    requires StoreShape(m, c.serviceId)
    ensures Counter(c, m, s, now) >= 0
  {
    var k := StatStorageKey(c.serviceId, s);
    if k in m && !Expired(m[k], now) {
      assert HoldsCounter(m, k) by {
        match s
        case SuccessStat =>
        case FailureStat =>
        case TrippedStat =>
      }
    }
  }

  /** The failure rate lies between 0 and 1, and is 0 before anything was counted. */
  lemma RateBounds(success: int, failure: int, tripped: int)
    requires success >= 0 && failure >= 0 && tripped >= 0
    ensures 0.0 <= Rate(success, failure, tripped) <= 1.0
    ensures success + failure + tripped == 0 ==> Rate(success, failure, tripped) == 0.0
    ensures success == 0 && failure + tripped > 0 ==> Rate(success, failure, tripped) == 1.0
  {
    var total := success + failure + tripped;
    if total > 0 {
      assert (total - success) as real <= total as real;
    }
  }

  /** Ten successes, ten failures and ten tripped calls give a rate of two thirds. */
  lemma RateOfEqualCounts()
    ensures Rate(10, 10, 10) == 2.0 / 3.0
  {
  }

  /**
   * `failure_rate` reports the rate of the three counters as they read at `now`: its second
   * read of the success counter sees what the first one saw.
   */
  lemma FailureRateIsRate(c: FuseConfig, m: Buckets, now: int)
    requires StoreShape(m, c.serviceId)
    ensures FailureRateStep(c, m, now).val
            == Rate(Counter(c, m, SuccessStat, now), Counter(c, m, FailureStat, now), Counter(c, m, TrippedStat, now))
  {
    var s := CountStep(c, m, SuccessStat, now);
    var f := CountStep(c, s.store, FailureStat, now);
    var t := CountStep(c, f.store, TrippedStat, now);
    assert f.val == Counter(c, m, FailureStat, now);
    assert t.val == Counter(c, m, TrippedStat, now);
    if s.val + f.val + t.val > 0 {
      assert CountStep(c, t.store, SuccessStat, now).val == s.val;
    }
  }

  /** The condition under which `should_open?` holds, on the counters read at `now`. */
  predicate Tripping(c: FuseConfig, success: int, failure: int, tripped: int) {
    failure >= c.minFailuresCount
    && (failure >= c.maxFailuresCount || Rate(success, failure, tripped) >= c.failureRateThreshold)
  }

  /**
   * `should_open?` holds exactly when the failure count has reached the minimum and either
   * the maximum or the failure-rate threshold.
   */
  lemma ShouldOpenIffTripping(c: FuseConfig, m: Buckets, now: int)
    requires StoreShape(m, c.serviceId)
    ensures ShouldOpenStep(c, m, now).val
            == Tripping(c, Counter(c, m, SuccessStat, now), Counter(c, m, FailureStat, now), Counter(c, m, TrippedStat, now))
  {
    var f := CountStep(c, m, FailureStat, now);
    if f.val >= c.minFailuresCount {
      var f' := CountStep(c, f.store, FailureStat, now);
      assert f'.val == f.val;
      if f'.val < c.maxFailuresCount {
        FailureRateIsRate(c, f'.store, now);
        assert Counter(c, f'.store, SuccessStat, now) == Counter(c, m, SuccessStat, now);
        assert Counter(c, f'.store, TrippedStat, now) == Counter(c, m, TrippedStat, now);
      }
    }
  }

  /** Two stores that answer every lookup at `now` alike. */
  ghost predicate SameView(m: Buckets, m': Buckets, now: int) {
    forall k :: Lookup(m', k, now) == Lookup(m, k, now)
  }

  /** The reads `should_open?` makes only evict what has already expired. */
  lemma ShouldOpenKeepsView(c: FuseConfig, m: Buckets, now: int)
    requires StoreShape(m, c.serviceId)
    ensures SameView(m, ShouldOpenStep(c, m, now).store, now)
  {
    var f := CountStep(c, m, FailureStat, now);
    EvictKeepsView(m, StatStorageKey(c.serviceId, FailureStat), now);
    if f.val >= c.minFailuresCount {
      var f' := CountStep(c, f.store, FailureStat, now);
      EvictKeepsView(f.store, StatStorageKey(c.serviceId, FailureStat), now);
      SameViewTransitive(m, f.store, f'.store, now);
      if f'.val < c.maxFailuresCount {
        FailureRateKeepsView(c, f'.store, now);
        SameViewTransitive(m, f'.store, FailureRateStep(c, f'.store, now).store, now);
      }
    }
  }

  lemma SameViewTransitive(m1: Buckets, m2: Buckets, m3: Buckets, now: int)
    requires SameView(m1, m2, now) && SameView(m2, m3, now)
    ensures SameView(m1, m3, now)
  {
  }

  /** The reads `failure_rate` makes only evict what has already expired. */
  lemma FailureRateKeepsView(c: FuseConfig, m: Buckets, now: int)
    requires StoreShape(m, c.serviceId)
    ensures SameView(m, FailureRateStep(c, m, now).store, now)
  {
    var s := CountStep(c, m, SuccessStat, now);
    var f := CountStep(c, s.store, FailureStat, now);
    var t := CountStep(c, f.store, TrippedStat, now);
    EvictKeepsView(m, StatStorageKey(c.serviceId, SuccessStat), now);
    EvictKeepsView(s.store, StatStorageKey(c.serviceId, FailureStat), now);
    EvictKeepsView(f.store, StatStorageKey(c.serviceId, TrippedStat), now);
    SameViewTransitive(m, s.store, f.store, now);
    SameViewTransitive(m, f.store, t.store, now);
    EvictKeepsView(t.store, StatStorageKey(c.serviceId, SuccessStat), now);
    SameViewTransitive(m, t.store, CountStep(c, t.store, SuccessStat, now).store, now);
  }

  /**
   * `open!` on a circuit that is not open sets the open flag for `expiresIn` (the sleep
   * window by default) and the half-open flag for `expiresIn` (the sample window by default),
   * both capped by the store's window, and deletes the failure counter; the other counters
   * read as before.
   */
  lemma OpenStoreFromShut(c: FuseConfig, m: Buckets, expiresIn: Option<int>, now: int)
    requires StoreShape(m, c.serviceId)
    requires !Opened(c, m, now)
    ensures var m' := OpenStore(c, m, expiresIn, now);
            && OpenStorageKey(c.serviceId) in m' && HalfOpenStorageKey(c.serviceId) in m'
            && m'[OpenStorageKey(c.serviceId)] == Bucket(Bool(true), ExpiresAt(now, Some(expiresIn.GetOr(c.openCircuitSleepWindow)), Window(c)))
            && m'[HalfOpenStorageKey(c.serviceId)] == Bucket(Bool(true), ExpiresAt(now, Some(expiresIn.GetOr(c.sampleWindow)), Window(c)))
            && StatStorageKey(c.serviceId, FailureStat) !in m'
            && Counter(c, m', SuccessStat, now) == Counter(c, m, SuccessStat, now)
            && Counter(c, m', TrippedStat, now) == Counter(c, m, TrippedStat, now)
  {
    assert DistinctKeys(c.serviceId);
  }

  /** `open!` on an open circuit changes nothing. */
  lemma OpenStoreWhenOpen(c: FuseConfig, m: Buckets, expiresIn: Option<int>, now: int)
    requires StoreShape(m, c.serviceId)
    requires Opened(c, m, now)
    ensures OpenStore(c, m, expiresIn, now) == m
  {
  }

  /** The failure counter after `record_stat` of a failure: one more than it read before. */
  lemma RecordFailureStat(c: FuseConfig, m: Buckets, now: int)
    requires StoreShape(m, c.serviceId)
    requires c.sampleWindow >= 0
    ensures var m1 := RecordStatStore(c, m, FailureStat, now);
            && Counter(c, m1, FailureStat, now) == Counter(c, m, FailureStat, now) + 1
            && Counter(c, m1, SuccessStat, now) == Counter(c, m, SuccessStat, now)
            && Counter(c, m1, TrippedStat, now) == Counter(c, m, TrippedStat, now)
            && Lookup(m1, OpenStorageKey(c.serviceId), now) == Lookup(m, OpenStorageKey(c.serviceId), now)
            && Lookup(m1, HalfOpenStorageKey(c.serviceId), now) == Lookup(m, HalfOpenStorageKey(c.serviceId), now)
  {
    assert DistinctKeys(c.serviceId);
  }

  /** Once `should_open?` has held on a circuit that is not open, the circuit is opened. */
  lemma OpenIfTrippedFromShut(c: FuseConfig, so: Out<bool>, now: int)
    requires StoreShape(so.store, c.serviceId)
    requires so.val && !Opened(c, so.store, now)
    ensures var m' := OpenIfTripped(c, so, now);
            && OpenStorageKey(c.serviceId) in m' && HalfOpenStorageKey(c.serviceId) in m'
            && m'[OpenStorageKey(c.serviceId)] == Bucket(Bool(true), ExpiresAt(now, Some(c.openCircuitSleepWindow), Window(c)))
            && m'[HalfOpenStorageKey(c.serviceId)] == Bucket(Bool(true), ExpiresAt(now, Some(c.sampleWindow), Window(c)))
            && StatStorageKey(c.serviceId, FailureStat) !in m'
            && Counter(c, m', SuccessStat, now) == Counter(c, so.store, SuccessStat, now)
            && Counter(c, m', TrippedStat, now) == Counter(c, so.store, TrippedStat, now)
  {
    var h := IsHalfOpenStep(c, so.store, now);
    assert DistinctKeys(c.serviceId);
    OpenStoreFromShut(c, h.store, None, now);
    if h.val {
      var o := IsOpenStep(c, h.store, now);
      OpenStoreFromShut(c, o.store, None, now);
    }
  }

  /** `half_open!` is not attempted while the half-open flag is live. */
  lemma HalfOpenIfFailingWhenHalfOpen(c: FuseConfig, m: Buckets, now: int)
    requires StoreShape(m, c.serviceId)
    requires HalfOpened(c, m, now)
    ensures HalfOpenIfFailing(c, m, now) == m
  {
  }

  /**
   * On a circuit that is not open, the second half of `record_failure!` leaves it shut and
   * the counters as they were, and half-opens it once the failure count reaches the minimum.
   */
  lemma HalfOpenIfFailingOutcome(c: FuseConfig, m: Buckets, now: int)
    requires StoreShape(m, c.serviceId)
    requires !Opened(c, m, now)
    requires c.sampleWindow >= 0
    ensures var m' := HalfOpenIfFailing(c, m, now);
            && !Opened(c, m', now)
            && (HalfOpened(c, m', now) <==> HalfOpened(c, m, now) || Counter(c, m, FailureStat, now) >= c.minFailuresCount)
            && Counter(c, m', FailureStat, now) == Counter(c, m, FailureStat, now)
            && Counter(c, m', SuccessStat, now) == Counter(c, m, SuccessStat, now)
            && Counter(c, m', TrippedStat, now) == Counter(c, m, TrippedStat, now)
  {
    var h := IsHalfOpenStep(c, m, now);
    CountersThroughEvict(c, m, HalfOpenStorageKey(c.serviceId), now);
    if !h.val {
      var f := CountStep(c, h.store, FailureStat, now);
      CountersThroughEvict(c, h.store, StatStorageKey(c.serviceId, FailureStat), now);
      if f.val >= c.minFailuresCount {
        var o := IsOpenStep(c, f.store, now);
        CountersThroughEvict(c, f.store, OpenStorageKey(c.serviceId), now);
        var h' := IsHalfOpenStep(c, o.store, now);
        CountersThroughEvict(c, o.store, HalfOpenStorageKey(c.serviceId), now);
        PartialTripOutcome(c, h'.store, now);
      }
    }
  }

  /** A partial `trip!` sets the half-open flag and changes no other reading. */
  lemma PartialTripOutcome(c: FuseConfig, m: Buckets, now: int)
    requires StoreShape(m, c.serviceId)
    requires c.sampleWindow >= 0
    ensures var m' := TripStore(c, m, PartialTrip, None, now);
            && HalfOpened(c, m', now)
            && Opened(c, m', now) == Opened(c, m, now)
            && Counter(c, m', FailureStat, now) == Counter(c, m, FailureStat, now)
            && Counter(c, m', SuccessStat, now) == Counter(c, m, SuccessStat, now)
            && Counter(c, m', TrippedStat, now) == Counter(c, m, TrippedStat, now)
  {
    assert DistinctKeys(c.serviceId);
  }

  /**
   * A failure that makes `should_open?` hold on a circuit that is not open opens it for the
   * sleep window, half-opens it for the sample window, and removes the failure counter.
   */
  lemma RecordFailureTrips(c: FuseConfig, m: Buckets, now: int)
    requires StoreShape(m, c.serviceId)
    requires !Opened(c, m, now)
    requires c.sampleWindow >= 0 && c.openCircuitSleepWindow >= 0
    requires Tripping(c, Counter(c, m, SuccessStat, now), Counter(c, m, FailureStat, now) + 1, Counter(c, m, TrippedStat, now))
    ensures var m' := RecordFailureStore(c, m, now);
            && OpenStorageKey(c.serviceId) in m' && HalfOpenStorageKey(c.serviceId) in m'
            && m'[OpenStorageKey(c.serviceId)] == Bucket(Bool(true), ExpiresAt(now, Some(c.openCircuitSleepWindow), Window(c)))
            && m'[HalfOpenStorageKey(c.serviceId)] == Bucket(Bool(true), ExpiresAt(now, Some(c.sampleWindow), Window(c)))
            && Opened(c, m', now) && HalfOpened(c, m', now)
            && Counter(c, m', FailureStat, now) == 0
            && Counter(c, m', SuccessStat, now) == Counter(c, m, SuccessStat, now)
            && Counter(c, m', TrippedStat, now) == Counter(c, m, TrippedStat, now)
  {
    var m1 := RecordStatStore(c, m, FailureStat, now);
    RecordFailureStat(c, m, now);
    ShouldOpenIffTripping(c, m1, now);
    ShouldOpenKeepsView(c, m1, now);
    var so := ShouldOpenStep(c, m1, now);
    assert Lookup(so.store, OpenStorageKey(c.serviceId), now) == Lookup(m1, OpenStorageKey(c.serviceId), now);
    assert Counter(c, so.store, SuccessStat, now) == Counter(c, m1, SuccessStat, now);
    assert Counter(c, so.store, TrippedStat, now) == Counter(c, m1, TrippedStat, now);
    OpenIfTrippedFromShut(c, so, now);
    var m2 := OpenIfTripped(c, so, now);
    assert HalfOpened(c, m2, now);
    HalfOpenIfFailingWhenHalfOpen(c, m2, now);
    assert RecordFailureStore(c, m, now) == m2;
  }

  /**
   * A failure that leaves `should_open?` false keeps the circuit shut and counts one more
   * failure; the half-open flag is then set once the count reaches the minimum.
   */
  lemma RecordFailureHolds(c: FuseConfig, m: Buckets, now: int)
    requires StoreShape(m, c.serviceId)
    requires !Opened(c, m, now)
    requires c.sampleWindow >= 0
    requires !Tripping(c, Counter(c, m, SuccessStat, now), Counter(c, m, FailureStat, now) + 1, Counter(c, m, TrippedStat, now))
    ensures var m' := RecordFailureStore(c, m, now);
            && !Opened(c, m', now)
            && Counter(c, m', FailureStat, now) == Counter(c, m, FailureStat, now) + 1
            && (HalfOpened(c, m', now) <==> HalfOpened(c, m, now) || Counter(c, m, FailureStat, now) + 1 >= c.minFailuresCount)
            && Counter(c, m', SuccessStat, now) == Counter(c, m, SuccessStat, now)
            && Counter(c, m', TrippedStat, now) == Counter(c, m, TrippedStat, now)
  {
    var m1 := RecordStatStore(c, m, FailureStat, now);
    RecordFailureStat(c, m, now);
    ShouldOpenIffTripping(c, m1, now);
    ShouldOpenKeepsView(c, m1, now);
    var so := ShouldOpenStep(c, m1, now);
    assert Lookup(so.store, OpenStorageKey(c.serviceId), now) == Lookup(m1, OpenStorageKey(c.serviceId), now);
    assert Lookup(so.store, HalfOpenStorageKey(c.serviceId), now) == Lookup(m1, HalfOpenStorageKey(c.serviceId), now);
    assert Counter(c, so.store, FailureStat, now) == Counter(c, m1, FailureStat, now);
    assert Counter(c, so.store, SuccessStat, now) == Counter(c, m1, SuccessStat, now);
    assert Counter(c, so.store, TrippedStat, now) == Counter(c, m1, TrippedStat, now);
    HalfOpenIfFailingOutcome(c, so.store, now);
  }

  /** A read that evicts at most `key` leaves every lookup at `now` as it was. */
  lemma EvictKeepsView(m: Buckets, key: string, now: int)
    ensures SameView(m, Evict(m, key, now), now)
  {
    forall k ensures Lookup(Evict(m, key, now), k, now) == Lookup(m, k, now) {
      EvictionUnobservable(m, key, k, now, now);
    }
  }

  /** Evicting an expired bucket changes none of the three counters' readings at `now`. */
  lemma CountersThroughEvict(c: FuseConfig, m: Buckets, key: string, now: int)
    requires StoreShape(m, c.serviceId)
    ensures StoreShape(Evict(m, key, now), c.serviceId)
    ensures Counter(c, Evict(m, key, now), SuccessStat, now) == Counter(c, m, SuccessStat, now)
    ensures Counter(c, Evict(m, key, now), FailureStat, now) == Counter(c, m, FailureStat, now)
    ensures Counter(c, Evict(m, key, now), TrippedStat, now) == Counter(c, m, TrippedStat, now)
    ensures Opened(c, Evict(m, key, now), now) == Opened(c, m, now)
    ensures HalfOpened(c, Evict(m, key, now), now) == HalfOpened(c, m, now)
  {
  }

  /**
   * `close!` closes a half-open circuit exactly when the success count is positive, the
   * circuit is not open and a half-open bucket is stored: the half-open flag and the failure
   * counter are then deleted. Otherwise nothing a read can see changes.
   */
  lemma CloseOutcome(c: FuseConfig, m: Buckets, now: int)
    requires StoreShape(m, c.serviceId)
    ensures var m' := CloseStore(c, m, now);
            var closes := Counter(c, m, SuccessStat, now) > 0 && !Opened(c, m, now) && HalfOpenStorageKey(c.serviceId) in m;
            && (closes ==> HalfOpenStorageKey(c.serviceId) !in m' && StatStorageKey(c.serviceId, FailureStat) !in m')
            && (!closes ==> SameView(m, m', now))
            && Counter(c, m', SuccessStat, now) == Counter(c, m, SuccessStat, now)
            && Counter(c, m', TrippedStat, now) == Counter(c, m, TrippedStat, now)
            && Opened(c, m', now) == Opened(c, m, now)
  {
    assert DistinctKeys(c.serviceId);
    var s := CountStep(c, m, SuccessStat, now);
    EvictKeepsView(m, StatStorageKey(c.serviceId, SuccessStat), now);
    if s.val > 0 {
      var o := IsOpenStep(c, s.store, now);
      EvictKeepsView(s.store, OpenStorageKey(c.serviceId), now);
    }
  }

  /**
   * `half_open!` changes nothing a read can see when the circuit is open or already
   * half-open; otherwise it sets the half-open flag for the sample window and nothing else.
   */
  lemma HalfOpenOutcome(c: FuseConfig, m: Buckets, now: int)
    requires StoreShape(m, c.serviceId)
    ensures var m' := HalfOpenStore(c, m, now);
            && (Opened(c, m, now) || HalfOpened(c, m, now) ==> SameView(m, m', now))
            && (!Opened(c, m, now) && !HalfOpened(c, m, now) ==>
                  && HalfOpenStorageKey(c.serviceId) in m'
                  && m'[HalfOpenStorageKey(c.serviceId)] == Bucket(Bool(true), ExpiresAt(now, Some(c.sampleWindow), Window(c)))
                  && !Opened(c, m', now)
                  && Counter(c, m', SuccessStat, now) == Counter(c, m, SuccessStat, now)
                  && Counter(c, m', FailureStat, now) == Counter(c, m, FailureStat, now)
                  && Counter(c, m', TrippedStat, now) == Counter(c, m, TrippedStat, now))
  {
    assert DistinctKeys(c.serviceId);
    var o := IsOpenStep(c, m, now);
    EvictKeepsView(m, OpenStorageKey(c.serviceId), now);
    if !o.val {
      EvictKeepsView(o.store, HalfOpenStorageKey(c.serviceId), now);
    }
  }

  /**
   * `record_success!` on a circuit that is not open counts one more success; a half-open
   * circuit is closed by it (flag and failure counter gone), any other keeps its flags and
   * its failure count.
   */
  lemma RecordSuccessOutcome(c: FuseConfig, m: Buckets, now: int)
    requires StoreShape(m, c.serviceId)
    requires !Opened(c, m, now)
    requires c.sampleWindow >= 0
    ensures var m' := RecordSuccessStore(c, m, now);
            && Counter(c, m', SuccessStat, now) == Counter(c, m, SuccessStat, now) + 1
            && Counter(c, m', TrippedStat, now) == Counter(c, m, TrippedStat, now)
            && !Opened(c, m', now) && !HalfOpened(c, m', now)
            && (HalfOpened(c, m, now) ==> Counter(c, m', FailureStat, now) == 0)
            && (!HalfOpened(c, m, now) ==> Counter(c, m', FailureStat, now) == Counter(c, m, FailureStat, now))
  {
    assert DistinctKeys(c.serviceId);
    var m1 := RecordStatStore(c, m, SuccessStat, now);
    CounterNonNegative(c, m, SuccessStat, now);
    assert Counter(c, m1, SuccessStat, now) == Counter(c, m, SuccessStat, now) + 1;
    var h := IsHalfOpenStep(c, m1, now);
    EvictKeepsView(m1, HalfOpenStorageKey(c.serviceId), now);
    if h.val {
      CloseOutcome(c, h.store, now);
    }
  }

  /**
   * While the circuit is open, `execute` never looks at the block: it answers with the
   * handler's response to a bodiless 503 and the circuit-open error, and counts a tripped call.
   */
  lemma ExecuteWhileOpen(c: FuseConfig, m: Buckets, work: WorkOutcome, other: WorkOutcome, now: int)
    requires StoreShape(m, c.serviceId)
    requires Opened(c, m, now)
    requires c.sampleWindow >= 0
    ensures var r := ExecuteStep(c, m, work, now);
            && r == ExecuteStep(c, m, other, now)
            && r.val == Returned(c.openCircuitHandler(NullResponse(None), CircuitOpenErrorFor(c.serviceId)))
            && Opened(c, r.store, now) && HalfOpened(c, r.store, now) == HalfOpened(c, m, now)
            && Counter(c, r.store, TrippedStat, now) == Counter(c, m, TrippedStat, now) + 1
            && Counter(c, r.store, SuccessStat, now) == Counter(c, m, SuccessStat, now)
            && Counter(c, r.store, FailureStat, now) == Counter(c, m, FailureStat, now)
  {
    assert DistinctKeys(c.serviceId);
    CounterNonNegative(c, m, TrippedStat, now);
  }

  /**
   * A response without a positive maintenance timeout, on a circuit that is not open, is
   * returned as it is and counted as a success, which closes a half-open circuit.
   */
  lemma ExecuteSucceeds(c: FuseConfig, m: Buckets, response: Response, now: int)
    requires StoreShape(m, c.serviceId)
    requires !Opened(c, m, now)
    requires MaintenanceTimeout(response, c.maintenanceModeHeader) <= 0
    requires c.sampleWindow >= 0
    ensures var r := ExecuteStep(c, m, Responded(response), now);
            && r.val == Returned(response)
            && Counter(c, r.store, SuccessStat, now) == Counter(c, m, SuccessStat, now) + 1
            && !Opened(c, r.store, now) && !HalfOpened(c, r.store, now)
            && (HalfOpened(c, m, now) ==> Counter(c, r.store, FailureStat, now) == 0)
            && (!HalfOpened(c, m, now) ==> Counter(c, r.store, FailureStat, now) == Counter(c, m, FailureStat, now))
  {
    var o := IsOpenStep(c, m, now);
    EvictKeepsView(m, OpenStorageKey(c.serviceId), now);
    RecordSuccessOutcome(c, o.store, now);
  }

  /**
   * An error raised by the block on a circuit that is not open is always re-raised. It is
   * counted as a failure exactly when it is a Faraday error with a server-error or watched
   * status; otherwise no later read sees any change.
   */
  lemma ExecuteReraises(c: FuseConfig, m: Buckets, e: WorkError, now: int)
    requires StoreShape(m, c.serviceId)
    requires !Opened(c, m, now)
    requires c.sampleWindow >= 0 && c.openCircuitSleepWindow >= 0
    ensures var r := ExecuteStep(c, m, Raised(e), now);
            var counted := e.FaradayError? && CountsAsFailure(c, e.status);
            var f := Counter(c, m, FailureStat, now) + 1;
            var trips := Tripping(c, Counter(c, m, SuccessStat, now), f, Counter(c, m, TrippedStat, now));
            && r.val == Reraised(e)
            && (!counted ==> forall k, later :: now <= later ==> Lookup(r.store, k, later) == Lookup(m, k, later))
            && (counted && trips ==> Opened(c, r.store, now) && HalfOpened(c, r.store, now) && Counter(c, r.store, FailureStat, now) == 0)
            && (counted && !trips ==> !Opened(c, r.store, now) && Counter(c, r.store, FailureStat, now) == f)
            && (counted && !trips ==> (HalfOpened(c, r.store, now) <==> HalfOpened(c, m, now) || f >= c.minFailuresCount))
            && (counted ==> Counter(c, r.store, SuccessStat, now) == Counter(c, m, SuccessStat, now))
            && (counted ==> Counter(c, r.store, TrippedStat, now) == Counter(c, m, TrippedStat, now))
  {
    var o := IsOpenStep(c, m, now);
    forall k, later | now <= later
      ensures Lookup(o.store, k, later) == Lookup(m, k, later)
    {
      EvictionUnobservable(m, OpenStorageKey(c.serviceId), k, now, later);
    }
    if e.FaradayError? && CountsAsFailure(c, e.status) {
      CountersThroughEvict(c, m, OpenStorageKey(c.serviceId), now);
      if Tripping(c, Counter(c, m, SuccessStat, now), Counter(c, m, FailureStat, now) + 1, Counter(c, m, TrippedStat, now)) {
        RecordFailureTrips(c, o.store, now);
      } else {
        RecordFailureHolds(c, o.store, now);
      }
    }
  }

  /**
   * A response announcing a positive maintenance timeout, on a circuit that is not open, is
   * counted as a failure and opens the circuit, with no failure counter left; the block's
   * response goes to the handler. If that failure did not already open the circuit, both
   * flags live for the announced timeout (capped by the store's window); otherwise they keep
   * the sleep and sample windows the failure gave them.
   */
  lemma ExecuteMaintenance(c: FuseConfig, m: Buckets, response: Response, now: int)
    requires StoreShape(m, c.serviceId)
    requires !Opened(c, m, now)
    requires MaintenanceTimeout(response, c.maintenanceModeHeader) > 0
    requires c.sampleWindow >= 0 && c.openCircuitSleepWindow >= 0
    ensures var r := ExecuteStep(c, m, Responded(response), now);
            var t := MaintenanceTimeout(response, c.maintenanceModeHeader);
            var trips := Tripping(c, Counter(c, m, SuccessStat, now), Counter(c, m, FailureStat, now) + 1, Counter(c, m, TrippedStat, now));
            && r.val == Returned(c.openCircuitHandler(response, CircuitOpenErrorFor(c.serviceId)))
            && Opened(c, r.store, now) && HalfOpened(c, r.store, now)
            && Counter(c, r.store, FailureStat, now) == 0
            && OpenStorageKey(c.serviceId) in r.store && HalfOpenStorageKey(c.serviceId) in r.store
            && (!trips ==> r.store[OpenStorageKey(c.serviceId)].expiresAt == ExpiresAt(now, Some(t), Window(c)))
            && (!trips ==> r.store[HalfOpenStorageKey(c.serviceId)].expiresAt == ExpiresAt(now, Some(t), Window(c)))
            && (trips ==> r.store[OpenStorageKey(c.serviceId)].expiresAt == ExpiresAt(now, Some(c.openCircuitSleepWindow), Window(c)))
            && (trips ==> r.store[HalfOpenStorageKey(c.serviceId)].expiresAt == ExpiresAt(now, Some(c.sampleWindow), Window(c)))
  {
    var t := MaintenanceTimeout(response, c.maintenanceModeHeader);
    var o := IsOpenStep(c, m, now);
    CountersThroughEvict(c, m, OpenStorageKey(c.serviceId), now);
    var m1 := RecordFailureStore(c, o.store, now);
    var r := ExecuteStep(c, m, Responded(response), now);
    assert r.store == OpenStore(c, m1, Some(t), now);
    if Tripping(c, Counter(c, m, SuccessStat, now), Counter(c, m, FailureStat, now) + 1, Counter(c, m, TrippedStat, now)) {
      RecordFailureTrips(c, o.store, now);
      OpenStoreWhenOpen(c, m1, Some(t), now);
    } else {
      RecordFailureHolds(c, o.store, now);
      OpenStoreFromShut(c, m1, Some(t), now);
    }
  }

  /** The store after `execute` has run once for each outcome in turn, all at `now`. */
  function Replay(c: FuseConfig, m: Buckets, works: seq<WorkOutcome>, now: int): (m': Buckets)
    requires StoreShape(m, c.serviceId)
    ensures StoreShape(m', c.serviceId)
    decreases |works|
  {
    if |works| == 0 then m
    else ExecuteStep(c, Replay(c, m, works[..|works| - 1], now), works[|works| - 1], now).store
  }

  /** `k` calls in a row whose block raised a Faraday error with status 500. */
  function ServerErrors(k: nat): (ws: seq<WorkOutcome>)
    ensures |ws| == k && forall i :: 0 <= i < k ==> ws[i] == Raised(FaradayError(500))
  {
    seq(k, _ => Raised(FaradayError(500)))
  }

  /**
   * Server errors that keep the failure count below the minimum leave a shut circuit shut
   * and not half-open, and are each counted once.
   */
  lemma {:induction false} FailuresBelowMinimum(c: FuseConfig, m: Buckets, k: nat, now: int)
    requires StoreShape(m, c.serviceId)
    requires !Opened(c, m, now) && !HalfOpened(c, m, now)
    requires Counter(c, m, FailureStat, now) + k < c.minFailuresCount
    requires c.sampleWindow >= 0 && c.openCircuitSleepWindow >= 0
    ensures var m' := Replay(c, m, ServerErrors(k), now);
            && !Opened(c, m', now) && !HalfOpened(c, m', now)
            && Counter(c, m', FailureStat, now) == Counter(c, m, FailureStat, now) + k
            && Counter(c, m', SuccessStat, now) == Counter(c, m, SuccessStat, now)
            && Counter(c, m', TrippedStat, now) == Counter(c, m, TrippedStat, now)
  {
    if k > 0 {
      assert ServerErrors(k)[..k - 1] == ServerErrors(k - 1);
      FailuresBelowMinimum(c, m, k - 1, now);
      var m1 := Replay(c, m, ServerErrors(k - 1), now);
      ExecuteReraises(c, m1, FaradayError(500), now);
    }
  }

  /**
   * From a shut circuit with no failures and no successes counted, `min_failures_count - 1`
   * server errors in a row leave the circuit shut and the next one opens it: with no
   * successes the failure rate is 1.0, at or above any threshold up to 1.0. Opening deletes
   * the failure counter.
   */
  lemma MinimumServerErrorsOpen(c: FuseConfig, m: Buckets, now: int)
    requires StoreShape(m, c.serviceId)
    requires !Opened(c, m, now) && !HalfOpened(c, m, now)
    requires Counter(c, m, FailureStat, now) == 0 && Counter(c, m, SuccessStat, now) == 0
    requires c.minFailuresCount >= 1 && c.failureRateThreshold <= 1.0
    requires c.sampleWindow >= 0 && c.openCircuitSleepWindow >= 0
    ensures var before := Replay(c, m, ServerErrors(c.minFailuresCount - 1), now);
            var after := Replay(c, m, ServerErrors(c.minFailuresCount), now);
            && !Opened(c, before, now) && !HalfOpened(c, before, now)
            && Counter(c, before, FailureStat, now) == c.minFailuresCount - 1
            && Opened(c, after, now) && HalfOpened(c, after, now) && Counter(c, after, FailureStat, now) == 0
  {
    var k := c.minFailuresCount;
    FailuresBelowMinimum(c, m, k - 1, now);
    OneMoreServerErrorTrips(c, m, k, now);
  }

  /**
   * With no successes counted and the failure count one short of the minimum after `k - 1`
   * server errors, the `k`-th opens and half-opens the circuit and deletes the failure
   * counter.
   */
  lemma OneMoreServerErrorTrips(c: FuseConfig, m: Buckets, k: nat, now: int)
    requires StoreShape(m, c.serviceId) && k >= 1
    requires var before := Replay(c, m, ServerErrors(k - 1), now);
             && !Opened(c, before, now)
             && Counter(c, before, SuccessStat, now) == 0 && Counter(c, before, FailureStat, now) + 1 == c.minFailuresCount
    requires c.minFailuresCount >= 1 && c.failureRateThreshold <= 1.0
    requires c.sampleWindow >= 0 && c.openCircuitSleepWindow >= 0
    ensures var after := Replay(c, m, ServerErrors(k), now);
            Opened(c, after, now) && HalfOpened(c, after, now) && Counter(c, after, FailureStat, now) == 0
  {
    ReplayOneMoreServerError(c, m, k, now);
    NoSuccessServerErrorTrips(c, Replay(c, m, ServerErrors(k - 1), now), now);
  }

  /** Replaying `k` server errors is replaying `k - 1` and then one more. */
  lemma ReplayOneMoreServerError(c: FuseConfig, m: Buckets, k: nat, now: int)
    requires StoreShape(m, c.serviceId) && k >= 1
    ensures StoreShape(Replay(c, m, ServerErrors(k - 1), now), c.serviceId)
    ensures Replay(c, m, ServerErrors(k), now)
         == ExecuteStep(c, Replay(c, m, ServerErrors(k - 1), now), Raised(FaradayError(500)), now).store
  {
    assert ServerErrors(k)[..k - 1] == ServerErrors(k - 1);
  }

  /**
   * With no successes counted and the failure count one short of the minimum, one more
   * server error opens and half-opens the circuit and deletes the failure counter.
   */
  lemma NoSuccessServerErrorTrips(c: FuseConfig, m: Buckets, now: int)
    requires StoreShape(m, c.serviceId)
    requires !Opened(c, m, now)
    requires Counter(c, m, SuccessStat, now) == 0 && Counter(c, m, FailureStat, now) + 1 == c.minFailuresCount
    requires c.minFailuresCount >= 1 && c.failureRateThreshold <= 1.0
    requires c.sampleWindow >= 0 && c.openCircuitSleepWindow >= 0
    ensures var after := ExecuteStep(c, m, Raised(FaradayError(500)), now).store;
            Opened(c, after, now) && HalfOpened(c, after, now) && Counter(c, after, FailureStat, now) == 0
  {
    var t := Counter(c, m, TrippedStat, now);
    CounterNonNegative(c, m, TrippedStat, now);
    RateBounds(0, c.minFailuresCount, t);
    assert Tripping(c, 0, c.minFailuresCount, t);
    ExecuteReraises(c, m, FaradayError(500), now);
  }

  /** The options a caller gives when it names only its service. */
  function ServiceOnly(serviceId: string): FuseOptions {
    FuseOptions(Some(serviceId), None, None, None, None, None, None, None)
  }

  /**
   * With the default settings (at least 5 failures, rate threshold 0.5), a fresh fuse
   * stays shut through four server errors in a row and opens on the fifth.
   */
  lemma DefaultFuseOpensOnFifthServerError(serviceId: string, now: int)
    requires !Blank(serviceId)
    ensures NewFuseConfig(ServiceOnly(serviceId), DEFAULTS).Success?
    ensures StoreShape(map[], serviceId)
    ensures var c := NewFuseConfig(ServiceOnly(serviceId), DEFAULTS).value;
            var four := Replay(c, map[], ServerErrors(4), now);
            var five := Replay(c, map[], ServerErrors(5), now);
            && !Opened(c, four, now) && !HalfOpened(c, four, now) && Counter(c, four, FailureStat, now) == 4
            && Opened(c, five, now) && HalfOpened(c, five, now) && Counter(c, five, FailureStat, now) == 0
  {
    KeysDistinct(serviceId);
    var c := NewFuseConfig(ServiceOnly(serviceId), DEFAULTS).value;
    assert c.minFailuresCount == 5;
    MinimumServerErrorsOpen(c, map[], now);
  }

  // ---------------------------------------------------------------------------------------
  // The fuse object

  class Fuse {
    const config: FuseConfig
    const serviceId: string
    const storage: MemoryStore
    const openStorageKey: string
    const halfOpenStorageKey: string

    ghost predicate Valid()
      reads this, storage
    {
      && serviceId == config.serviceId
      && openStorageKey == OpenStorageKey(serviceId)
      && halfOpenStorageKey == HalfOpenStorageKey(serviceId)
      && storage.sampleWindow == Window(config)
      && StoreShape(storage.store, serviceId)
    }

    /** A new fuse has an empty store whose window is the config's, capped at 180. */
    constructor (config: FuseConfig)
      ensures Valid() && fresh(storage)
      ensures this.config == config && serviceId == config.serviceId
      ensures storage.store == map[]
    {
      this.config := config;
      serviceId := config.serviceId;
      storage := new MemoryStore(config.sampleWindow);
      openStorageKey := OpenStorageKey(config.serviceId);
      halfOpenStorageKey := HalfOpenStorageKey(config.serviceId);
      KeysDistinct(config.serviceId);
    }

    method IsOpen(now: int) returns (open: bool)
      requires Valid()
      modifies storage
      ensures Valid()
      ensures var r := IsOpenStep(config, old(storage.store), now); open == r.val && storage.store == r.store
    {
      open := storage.HasKey(openStorageKey, now);
    }

    method IsHalfOpen(now: int) returns (halfOpen: bool)
      requires Valid()
      modifies storage
      ensures Valid()
      ensures var r := IsHalfOpenStep(config, old(storage.store), now); halfOpen == r.val && storage.store == r.store
    {
      halfOpen := storage.HasKey(halfOpenStorageKey, now);
    }

    method Count(s: Stat, now: int) returns (n: int)
      requires Valid()
      modifies storage
      ensures Valid()
      ensures var r := CountStep(config, old(storage.store), s, now); n == r.val && storage.store == r.store
    {
      var v := storage.Get(StatStorageKey(serviceId, s), now);
      n := ToI(v);
    }

    method FailureCount(now: int) returns (n: int)
      requires Valid()
      modifies storage
      ensures Valid()
      ensures var r := CountStep(config, old(storage.store), FailureStat, now); n == r.val && storage.store == r.store
    {
      n := Count(FailureStat, now);
    }

    method SuccessCount(now: int) returns (n: int)
      requires Valid()
      modifies storage
      ensures Valid()
      ensures var r := CountStep(config, old(storage.store), SuccessStat, now); n == r.val && storage.store == r.store
    {
      n := Count(SuccessStat, now);
    }

    method TrippedCount(now: int) returns (n: int)
      requires Valid()
      modifies storage
      ensures Valid()
      ensures var r := CountStep(config, old(storage.store), TrippedStat, now); n == r.val && storage.store == r.store
    {
      n := Count(TrippedStat, now);
    }

    method FailureRate(now: int) returns (rate: real)
      requires Valid()
      modifies storage
      ensures Valid()
      ensures var r := FailureRateStep(config, old(storage.store), now); rate == r.val && storage.store == r.store
    {
      var success := SuccessCount(now);
      var failure := FailureCount(now);
      var tripped := TrippedCount(now);
      var total := success + failure + tripped;
      if total <= 0 {
        return 0.0;
      }
      var success' := SuccessCount(now);
      rate := (total - success') as real / total as real;
    }

    method ShouldOpen(now: int) returns (should: bool)
      requires Valid()
      modifies storage
      ensures Valid()
      ensures var r := ShouldOpenStep(config, old(storage.store), now); should == r.val && storage.store == r.store
    {
      var failure := FailureCount(now);
      if failure < config.minFailuresCount {
        return false;
      }
      var failure' := FailureCount(now);
      if failure' >= config.maxFailuresCount {
        return true;
      }
      var rate := FailureRate(now);
      should := rate >= config.failureRateThreshold;
    }

    method Close(now: int)
      requires Valid()
      modifies storage
      ensures Valid()
      ensures storage.store == CloseStore(config, old(storage.store), now)
    {
      var success := SuccessCount(now);
      if success <= 0 {
        return;
      }
      var open := IsOpen(now);
      if open {
        return;
      }
      var removed := storage.Delete(halfOpenStorageKey);
      if removed.None? {
        return;
      }
      removed := storage.Delete(StatStorageKey(serviceId, FailureStat));
    }

    method Open(expiresIn: Option<int>, now: int)
      requires Valid()
      modifies storage
      ensures Valid()
      ensures storage.store == OpenStore(config, old(storage.store), expiresIn, now)
    {
      var open := IsOpen(now);
      if open {
        return;
      }
      Trip(FullTrip, expiresIn, now);
      var removed := storage.Delete(StatStorageKey(serviceId, FailureStat));
    }

    method HalfOpen(now: int)
      requires Valid()
      modifies storage
      ensures Valid()
      ensures storage.store == HalfOpenStore(config, old(storage.store), now)
    {
      var open := IsOpen(now);
      if open {
        return;
      }
      var halfOpen := IsHalfOpen(now);
      if halfOpen {
        return;
      }
      Trip(PartialTrip, None, now);
    }

    method Trip(t: TripType, expiresIn: Option<int>, now: int)
      requires Valid()
      modifies storage
      ensures Valid()
      ensures storage.store == TripStore(config, old(storage.store), t, expiresIn, now)
    {
      match t
      case FullTrip =>
        var stored := storage.Set(openStorageKey, Bool(true), Some(expiresIn.GetOr(config.openCircuitSleepWindow)), now);
        stored := storage.Set(halfOpenStorageKey, Bool(true), Some(expiresIn.GetOr(config.sampleWindow)), now);
      case PartialTrip =>
        var stored := storage.Set(halfOpenStorageKey, Bool(true), Some(expiresIn.GetOr(config.sampleWindow)), now);
    }

    method RecordStat(s: Stat, now: int)
      requires Valid()
      modifies storage
      ensures Valid()
      ensures storage.store == RecordStatStore(config, old(storage.store), s, now)
    {
      var count := storage.Increment(StatStorageKey(serviceId, s), 1, Some(config.sampleWindow), now);
    }

    method RecordSuccess(now: int)
      requires Valid()
      modifies storage
      ensures Valid()
      ensures storage.store == RecordSuccessStore(config, old(storage.store), now)
    {
      RecordStat(SuccessStat, now);
      var halfOpen := IsHalfOpen(now);
      if halfOpen {
        Close(now);
      }
    }

    method RecordFailure(now: int)
      requires Valid()
      modifies storage
      ensures Valid()
      ensures storage.store == RecordFailureStore(config, old(storage.store), now)
    {
      RecordStat(FailureStat, now);
      var should := ShouldOpen(now);
      OpenIfShould(should, now);
      HalfOpenIfFailingNow(now);
    }

    /** The first half of `record_failure!`, once `should_open?` has answered `should`. */
    method OpenIfShould(should: bool, now: int)
      requires Valid()
      modifies storage
      ensures Valid()
      ensures storage.store == OpenIfTripped(config, Out(should, old(storage.store)), now)
    {
      if should {
        var halfOpen := IsHalfOpen(now);
        if !halfOpen {
          Open(None, now);
        } else {
          var open := IsOpen(now);
          if !open {
            Open(None, now);
          }
        }
      }
    }

    /** The second half of `record_failure!`. */
    method HalfOpenIfFailingNow(now: int)
      requires Valid()
      modifies storage
      ensures Valid()
      ensures storage.store == HalfOpenIfFailing(config, old(storage.store), now)
    {
      var halfOpen := IsHalfOpen(now);
      if !halfOpen {
        var failure := FailureCount(now);
        if failure >= config.minFailuresCount {
          HalfOpen(now);
        }
      }
    }

    method RecordTripped(now: int)
      requires Valid()
      modifies storage
      ensures Valid()
      ensures storage.store == RecordStatStore(config, old(storage.store), TrippedStat, now)
    {
      RecordStat(TrippedStat, now);
    }

    /**
     * `execute`: while open, counts a trip and returns the handler's answer for a null
     * response without running the block; otherwise runs it and records its outcome.
     */
    method Execute(work: WorkOutcome, now: int) returns (result: ExecResult)
      requires Valid()
      modifies storage
      ensures Valid()
      ensures var r := ExecuteStep(config, old(storage.store), work, now); result == r.val && storage.store == r.store
    {
      var open := IsOpen(now);
      if open {
        RecordTripped(now);
        return Returned(config.openCircuitHandler(NullResponse(None), CircuitOpenErrorFor(config.serviceId)));
      }
      match work
      case Responded(response) =>
        var timeout := MaintenanceTimeout(response, config.maintenanceModeHeader);
        if timeout > 0 {
          RecordFailure(now);
          Open(Some(timeout), now);
          return Returned(config.openCircuitHandler(response, CircuitOpenErrorFor(config.serviceId)));
        }
        RecordSuccess(now);
        result := Returned(response);
      case Raised(e) =>
        if e.FaradayError? && CountsAsFailure(config, e.status) {
          RecordFailure(now);
        }
        result := Reraised(e);
    }
  }
}
