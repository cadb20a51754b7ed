/**
 * The breaker's configuration (`HTTPigeon::CircuitBreaker::FuseConfig`), resolved once from
 * caller options against the process-wide defaults of `HTTPigeon::Configuration`, together
 * with the two values it hands to the open-circuit handler: the synthetic `NullResponse`
 * and the `CircuitOpenError`.
 */
module BreakerConfig {
  import opened Wrappers
  import opened RubyText

  /** The parts of a Faraday response the breaker reads: its status and its headers. */
  datatype Response = Response(status: int, headers: map<string, string>)

  /** `CircuitOpenError`: carries "Circuit open for service: <service_id>". */
  datatype CircuitOpenError = CircuitOpenError(message: string)

  /** Ruby's `ArgumentError`, raised for a blank service id. */
  datatype ArgumentError = ArgumentError(message: string)

  /** What the breaker returns in place of a response while the circuit is open. */
  type Handler = (Response, CircuitOpenError) -> Response

  const DEFAULT_MM_TIMEOUT_HEADER: string := "X-Maintenance-Mode-Timeout"
  const CIRCUIT_OPEN_PREFIX: string := "Circuit open for service: "
  const NULL_RESPONSE_STATUS: int := 503

  /** The `fuse_*` settings of `HTTPigeon::Configuration`. */
  datatype Defaults = Defaults(
    errorCodesWatchlist: seq<int>,
    openCircuitHandler: Option<Handler>,  // None: the global setting does not respond to `call`
    maxFailuresCount: int,
    minFailuresCount: int,
    failureRateThreshold: real,
    sampleWindow: int,
    openCircuitSleepWindow: int)

  /** The values `HTTPigeon::Configuration#initialize` starts from. */
  const DEFAULTS: Defaults := Defaults([], None, 10, 5, 0.5, 60, 30)

  /** The option hash given to `FuseConfig.new`; a missing key is None. */
  datatype FuseOptions = FuseOptions(
    serviceId: Option<string>,
    maxFailuresCount: Option<int>,
    minFailuresCount: Option<int>,
    failureRateThreshold: Option<real>,
    sampleWindow: Option<int>,
    openCircuitSleepWindow: Option<int>,
    errorCodesWatchlist: Option<seq<int>>,
    maintenanceModeHeader: Option<string>)

  datatype FuseConfig = FuseConfig(
    serviceId: string,
    maxFailuresCount: int,
    minFailuresCount: int,
    failureRateThreshold: real,
    sampleWindow: int,
    openCircuitSleepWindow: int,
    errorCodesWatchlist: seq<int>,
    maintenanceModeHeader: string,
    openCircuitHandler: Handler)

  predicate NoDuplicates(s: seq<int>) {
    forall i, j :: 0 <= i < j < |s| ==> s[i] != s[j]
  }

  /** `uniq`: keeps the first occurrence of every element, in order. */
  function Dedup(s: seq<int>): (r: seq<int>)
    ensures NoDuplicates(r)
    ensures forall x :: x in r <==> x in s
    ensures |r| <= |s|
  {
    if |s| == 0 then []
    else
      var init := Dedup(s[..|s| - 1]);
      if s[|s| - 1] in s[..|s| - 1] then init else init + [s[|s| - 1]]
  }

  /** `a | b`: the order-preserving union of two arrays, without duplicates. */
  function Union(a: seq<int>, b: seq<int>): (u: seq<int>)
    ensures NoDuplicates(u)
    ensures forall x :: x in u <==> x in a || x in b
  {
    Dedup(a + b)
  }

  /** A list without duplicates is its own `uniq`. */
  lemma {:induction false} DedupOfDistinct(s: seq<int>)
    requires NoDuplicates(s)
    ensures Dedup(s) == s
  {
    if |s| > 0 {
      DedupOfDistinct(s[..|s| - 1]);
      assert s[|s| - 1] !in s[..|s| - 1];
      assert s == s[..|s| - 1] + [s[|s| - 1]];
    }
  }

  /** Appending elements a duplicate-free list already holds changes nothing. */
  lemma {:induction false} DedupAbsorbs(s: seq<int>, t: seq<int>)
    requires NoDuplicates(s)
    requires forall x :: x in t ==> x in s
    ensures Dedup(s + t) == s
  {
    if |t| == 0 {
      assert s + t == s;
      DedupOfDistinct(s);
    } else {
      var u := s + t;
      assert u[..|u| - 1] == s + t[..|t| - 1];
      DedupAbsorbs(s, t[..|t| - 1]);
      assert u[|u| - 1] == t[|t| - 1];
      assert t[|t| - 1] in s;
    }
  }

  /** The distinct elements of `a` come first, in their order in `a`. */
  lemma {:induction false} DedupPrefix(a: seq<int>, b: seq<int>)
    ensures |Dedup(a)| <= |Dedup(a + b)|
    ensures Dedup(a + b)[..|Dedup(a)|] == Dedup(a)
  {
    if |b| == 0 {
      assert a + b == a;
    } else {
      var u := a + b;
      assert u[..|u| - 1] == a + b[..|b| - 1];
      DedupPrefix(a, b[..|b| - 1]);
    }
  }

  /** `NullResponse.new(response)`: status 503 with the wrapped response's headers, or none. */
  function NullResponse(apiResponse: Option<Response>): (r: Response)
    ensures r.status == NULL_RESPONSE_STATUS
    ensures apiResponse.Some? ==> r.headers == apiResponse.value.headers
    ensures apiResponse.None? ==> r.headers == map[]
  {
    Response(NULL_RESPONSE_STATUS, if apiResponse.Some? then apiResponse.value.headers else map[])
  }

  /** The fallback used when no global handler is callable. */
  function NullResponseHandler(apiResponse: Response, exception: CircuitOpenError): (r: Response)
    ensures r.status == NULL_RESPONSE_STATUS && r.headers == apiResponse.headers
  {
    NullResponse(Some(apiResponse))
  }

  /** `circuit_open_error`: its message is the fixed prefix followed by the service id. */
  function CircuitOpenErrorFor(serviceId: string): (e: CircuitOpenError)
    ensures |e.message| == |CIRCUIT_OPEN_PREFIX| + |serviceId|
    ensures e.message[..|CIRCUIT_OPEN_PREFIX|] == CIRCUIT_OPEN_PREFIX
    ensures e.message[|CIRCUIT_OPEN_PREFIX|..] == serviceId
  {
    CircuitOpenError(CIRCUIT_OPEN_PREFIX + serviceId)
  }

  /**
   * `FuseConfig.new(options)`: rejects a blank service id; every other setting is the
   * option when given and the default otherwise; the watchlist is the union of both lists.
   */
  function NewFuseConfig(o: FuseOptions, d: Defaults): (r: Result<FuseConfig, ArgumentError>)
    ensures r.Failure? <==> o.serviceId.None? || Blank(o.serviceId.value)
    ensures r.Failure? ==> r.error == ArgumentError("service_id is required")
    ensures r.Success? ==> r.value.serviceId == o.serviceId.value
    ensures r.Success? ==> r.value.maxFailuresCount == if o.maxFailuresCount.Some? then o.maxFailuresCount.value else d.maxFailuresCount
    ensures r.Success? ==> r.value.minFailuresCount == if o.minFailuresCount.Some? then o.minFailuresCount.value else d.minFailuresCount
    ensures r.Success? ==> r.value.failureRateThreshold == if o.failureRateThreshold.Some? then o.failureRateThreshold.value else d.failureRateThreshold
    ensures r.Success? ==> r.value.sampleWindow == if o.sampleWindow.Some? then o.sampleWindow.value else d.sampleWindow
    ensures r.Success? ==> r.value.openCircuitSleepWindow == if o.openCircuitSleepWindow.Some? then o.openCircuitSleepWindow.value else d.openCircuitSleepWindow
    ensures r.Success? ==> r.value.maintenanceModeHeader == if o.maintenanceModeHeader.Some? then o.maintenanceModeHeader.value else DEFAULT_MM_TIMEOUT_HEADER
    ensures r.Success? ==> NoDuplicates(r.value.errorCodesWatchlist)
    ensures r.Success? ==> forall x :: x in r.value.errorCodesWatchlist <==> x in o.errorCodesWatchlist.GetOr([]) || x in d.errorCodesWatchlist
    ensures r.Success? ==> r.value.openCircuitHandler == if d.openCircuitHandler.Some? then d.openCircuitHandler.value else NullResponseHandler
  {
    if o.serviceId.None? || Blank(o.serviceId.value) then
      Failure(ArgumentError("service_id is required"))
    else
      Success(FuseConfig(
        o.serviceId.value,
        o.maxFailuresCount.GetOr(d.maxFailuresCount),
        o.minFailuresCount.GetOr(d.minFailuresCount),
        o.failureRateThreshold.GetOr(d.failureRateThreshold),
        o.sampleWindow.GetOr(d.sampleWindow),
        o.openCircuitSleepWindow.GetOr(d.openCircuitSleepWindow),
        Union(o.errorCodesWatchlist.GetOr([]), d.errorCodesWatchlist),
        o.maintenanceModeHeader.GetOr(DEFAULT_MM_TIMEOUT_HEADER),
        d.openCircuitHandler.GetOr(NullResponseHandler)))
  }

  /** The option list's own distinct codes lead the resolved watchlist, in their order. */
  lemma WatchlistKeepsOptionOrder(o: FuseOptions, d: Defaults)
    requires NewFuseConfig(o, d).Success?
    requires NoDuplicates(o.errorCodesWatchlist.GetOr([]))
    ensures var w := NewFuseConfig(o, d).value.errorCodesWatchlist;
            var mine := o.errorCodesWatchlist.GetOr([]);
            |mine| <= |w| && w[..|mine|] == mine
  {
    var mine := o.errorCodesWatchlist.GetOr([]);
    DedupPrefix(mine, d.errorCodesWatchlist);
    DedupOfDistinct(mine);
  }

  /** `to_h`: every setting except the handlers, as an option hash. */
  function ToH(c: FuseConfig): (o: FuseOptions)
    ensures o.serviceId == Some(c.serviceId) && o.errorCodesWatchlist == Some(c.errorCodesWatchlist)
    ensures o.maxFailuresCount.Some? && o.minFailuresCount.Some? && o.failureRateThreshold.Some?
    ensures o.sampleWindow.Some? && o.openCircuitSleepWindow.Some? && o.maintenanceModeHeader.Some?
  {
    FuseOptions(
      Some(c.serviceId),
      Some(c.maxFailuresCount),
      Some(c.minFailuresCount),
      Some(c.failureRateThreshold),
      Some(c.sampleWindow),
      Some(c.openCircuitSleepWindow),
      Some(c.errorCodesWatchlist),
      Some(c.maintenanceModeHeader))
  }

  /**
   * `presence` rejects a service id of Unicode spaces as it does an empty one: a
   * non-breaking or ideographic space is no service id.
   */
  lemma UnicodeBlankServiceIdRejected(o: FuseOptions, d: Defaults)
    requires o.serviceId == Some("\U{A0}") || o.serviceId == Some("\U{3000}\U{3000}")
    ensures NewFuseConfig(o, d) == Failure(ArgumentError("service_id is required"))
  {
    UnicodeSpacesBlank();
    assert Blank("\U{3000}\U{3000}");
  }

  /**
   * Rebuilding a configuration from its own `to_h` under the same defaults gives it back
   * unchanged: its watchlist already holds every default code.
   */
  lemma ToHRoundTrip(o: FuseOptions, d: Defaults)
    requires NewFuseConfig(o, d).Success?
    ensures NewFuseConfig(ToH(NewFuseConfig(o, d).value), d) == NewFuseConfig(o, d)
  {
    var c := NewFuseConfig(o, d).value;
    DedupAbsorbs(c.errorCodesWatchlist, d.errorCodesWatchlist);
  }
}
