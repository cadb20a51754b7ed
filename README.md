# HTTPigeon circuit breaker and log redactor, in Dafny

This project models the circuit breaker of the Ruby gem HTTPigeon and the two small pure
pieces around it, and proves what each promises.

- **MemoryStore** (`timed_store.dfy`, module `TimedStore`) is the breaker's key/bucket store.
  Every bucket expires at a whole second. The store's window caps every lifetime and is
  itself capped at 180 seconds. Expiry is lazy: a lookup deletes the expired bucket it finds.
  The store is a class over a `map<string, Bucket>`, and its methods update that map in place.
  The clock is the parameter `now`.
- **FuseConfig** (`breaker_config.dfy`, module `BreakerConfig`) resolves caller options
  against the process defaults: max 10 failures, min 5, rate 0.5, a 60 s sample window, a
  30 s sleep window, an empty watchlist and no global handler. It also builds the 503
  `NullResponse` and the `CircuitOpenError`.
- **Fuse** (`breaker.dfy`, module `Breaker`) is the open / half-open / closed state machine.
  It keeps two flags and three counters in its store, under keys derived from the service id.
  - Each transition is first a function on the bucket map. The function follows the Ruby
    method call by call, including the evictions its reads cause.
  - The `Fuse` class does the same work through its `MemoryStore`, and each method is proved
    to end in the state the function gives.
  - Lemmas state the promised behaviour in terms of what later reads observe.
  - `execute`'s block is an outcome value: the block either returned a response or raised an
    error.
- **The circuit-breaker middleware** (`middleware_adapter.dfy`, module `MiddlewareAdapter`)
  decides whether a completed exchange raises `FailedRequestError`, and what that error
  carries.
- **LogRedactor** (`redaction.dfy`, module `Redaction`) masks hash values by key, ignoring
  case, throughout nested arrays and hashes. It rewrites strings through pattern filters.
  Regex substitution is an abstract function.

`wrappers.dfy` holds `Option` and `Result`. `ruby_text.dfy` holds ActiveSupport's `blank?`
(over the Unicode whitespace `[[:space:]]` matches), the ASCII whitespace `to_i` skips, and
an ASCII-only `downcase`.

Where the repository's own specs expect something the code does not do, the model follows
the code:
- The fuse specs expect a failure count of 1 after a forced open, but `open!` deletes the
  failure counter.
- The redactor specs expect partial masking and a `log_filters:` option, which
  `log_redactor.rb` does not implement.

## Model

| member | source | states |
|---|---|---|
| TimedStore.CappedWindow | lib/httpigeon/circuit_breaker/memory_store.rb:13 | the window is the requested one when at most 180 and 180 otherwise |
| TimedStore.ExpiresAt | lib/httpigeon/circuit_breaker/memory_store.rb:80-82 | a bucket lives for `min(expires_in, window)` seconds past `now`; a missing lifetime counts as 0 |
| TimedStore.Expired | lib/httpigeon/circuit_breaker/memory_store.rb:66-68 | a bucket has expired once `now` is past its expiry instant; the instant itself is still live (characterised by `LiveIffNotExpired`) |
| TimedStore.Fetch | lib/httpigeon/circuit_breaker/memory_store.rb:57-64 | the bucket at a key while it is live, and nothing otherwise (characterised by `LiveIffNotExpired`) |
| TimedStore.Lookup | lib/httpigeon/circuit_breaker/memory_store.rb:16-18 | the value a read sees: the live bucket's value or nothing (characterised by `LiveIffNotExpired` and `EvictionUnobservable`) |
| TimedStore.Evict | lib/httpigeon/circuit_breaker/memory_store.rb:57-74 | keeps the key exactly when its bucket is live; every remaining bucket is unchanged and every other key stays |
| TimedStore.Assigned | lib/httpigeon/circuit_breaker/memory_store.rb:21-28 | the key holds the value with a lifetime of at most the window; every other key's bucket is as it was |
| TimedStore.Incremented | lib/httpigeon/circuit_breaker/memory_store.rb:31-43 | the key's expiry is refreshed; a missing key gets the delta, a live Integer gets the sum, a live non-Integer keeps its value; other keys are untouched |
| TimedStore.IncrementResult | lib/httpigeon/circuit_breaker/memory_store.rb:31-43 | fails exactly on a live non-Integer bucket; otherwise the delta plus the live count, 0 when there is none |
| TimedStore.LiveIffNotExpired | lib/httpigeon/circuit_breaker/memory_store.rb:57-68 | a key reads as present exactly while `now <= expires_at`, and then reads its bucket's value |
| TimedStore.EvictionUnobservable | lib/httpigeon/circuit_breaker/memory_store.rb:57-74 | deleting an expired bucket changes no lookup of any key at that instant or later |
| TimedStore.SetThenGet | lib/httpigeon/circuit_breaker/memory_store.rb:21-28 | a value written by `set` reads back until its expiry and not after, whatever was there before |
| TimedStore.IncrementAbsentIsSet | lib/httpigeon/circuit_breaker/memory_store.rb:31-43 | on a missing or expired key `increment` stores and returns the delta, like `set` |
| TimedStore.IncrementLiveCounter | lib/httpigeon/circuit_breaker/memory_store.rb:31-43 | on a live counter `increment` returns the sum and refreshes the expiry |
| TimedStore.OtherKeysUntouched | lib/httpigeon/circuit_breaker/memory_store.rb:16-74 | eviction, `set`, `increment` and `delete` leave every other key's bucket as it was |
| TimedStore.MemoryStore.constructor | lib/httpigeon/circuit_breaker/memory_store.rb:10-14 | a new store is empty and its window is the capped one |
| TimedStore.MemoryStore.Get | lib/httpigeon/circuit_breaker/memory_store.rb:16-18 | returns the live value or nothing, and evicts an expired bucket |
| TimedStore.MemoryStore.Set | lib/httpigeon/circuit_breaker/memory_store.rb:21-28 | stores a fresh bucket with the capped expiry and returns the value |
| TimedStore.MemoryStore.Increment | lib/httpigeon/circuit_breaker/memory_store.rb:31-43 | returns the new count, or fails on a live non-Integer bucket after refreshing its expiry |
| TimedStore.MemoryStore.HasKey | lib/httpigeon/circuit_breaker/memory_store.rb:46-48 | answers whether a live bucket is present, evicting an expired one |
| TimedStore.MemoryStore.Delete | lib/httpigeon/circuit_breaker/memory_store.rb:50-52 | removes the key, expired or not, and returns the removed bucket or nothing |
| TimedStore.MemoryStore.FetchBucket | lib/httpigeon/circuit_breaker/memory_store.rb:57-64 | returns the live bucket; an expired one is deleted and not returned |
| TimedStore.MemoryStore.Flush | lib/httpigeon/circuit_breaker/memory_store.rb:70-74 | deletes the bucket only when it has expired |
| BreakerConfig.Dedup | lib/httpigeon/circuit_breaker/fuse_config.rb:37 | `uniq` has no duplicates and the same elements as its input; the order of first occurrences is `DedupPrefix` |
| BreakerConfig.DedupPrefix | lib/httpigeon/circuit_breaker/fuse_config.rb:37 | `uniq` keeps first occurrences in order: the `uniq` of `a + b` begins with the `uniq` of `a`, so the own watchlist's distinct codes come first |
| BreakerConfig.DedupOfDistinct | lib/httpigeon/circuit_breaker/fuse_config.rb:37 | a list without duplicates is its own `uniq` |
| BreakerConfig.DedupAbsorbs | lib/httpigeon/circuit_breaker/fuse_config.rb:37 | adding elements a duplicate-free list already holds does not change its `uniq` |
| BreakerConfig.Union | lib/httpigeon/circuit_breaker/fuse_config.rb:37 | the array union has no duplicates and holds exactly the elements of either array |
| BreakerConfig.NullResponse | lib/httpigeon/circuit_breaker/fuse_config.rb:5-13 | status 503, with the wrapped response's headers or none |
| BreakerConfig.NullResponseHandler | lib/httpigeon/circuit_breaker/fuse_config.rb:42-46 | the fallback handler answers with status 503 and the headers of the response it was given |
| BreakerConfig.CircuitOpenErrorFor | lib/httpigeon/circuit_breaker/fuse_config.rb:66-68 | the message is "Circuit open for service: " followed by the service id |
| BreakerConfig.NewFuseConfig | lib/httpigeon/circuit_breaker/fuse_config.rb:30-47 | fails exactly on a missing or blank service id; each setting is the option when given and otherwise the default; the watchlist is the duplicate-free union of both lists; the handler is the global one when set and otherwise the `NullResponse` builder |
| BreakerConfig.UnicodeBlankServiceIdRejected | lib/httpigeon/circuit_breaker/fuse_config.rb:31 | a service id made of non-breaking or ideographic spaces is rejected with ArgumentError, as `presence` does |
| BreakerConfig.WatchlistKeepsOptionOrder | lib/httpigeon/circuit_breaker/fuse_config.rb:37 | the option's own codes lead the resolved watchlist, in their order |
| BreakerConfig.ToH | lib/httpigeon/circuit_breaker/fuse_config.rb:49-60 | `to_h` gives every setting except the handlers as a present option |
| BreakerConfig.ToHRoundTrip | lib/httpigeon/circuit_breaker/fuse_config.rb:30-60 | rebuilding a configuration from its own `to_h` under the same defaults gives it back unchanged |
| Breaker.KeysDistinct | lib/httpigeon/circuit_breaker/fuse.rb:19-26 | the open and half-open keys and the three counter keys of one service are pairwise different |
| Breaker.StatStorageKey | lib/httpigeon/circuit_breaker/fuse.rb:183-185 | the counter key `run_stat:<id>:<outcome>` (pairwise distinct from the flag keys by `KeysDistinct`) |
| Breaker.OpenStorageKey | lib/httpigeon/circuit_breaker/fuse.rb:23 | the open flag's key `circuit:<id>:open` |
| Breaker.HalfOpenStorageKey | lib/httpigeon/circuit_breaker/fuse.rb:24 | the half-open flag's key `circuit:<id>:half_open` |
| Breaker.StringToI | lib/httpigeon/circuit_breaker/fuse.rb:38 | `String#to_i`: leading ASCII whitespace, an optional sign, an optional `0d`/`0D` radix prefix, then the leading decimal digits; read back by `StringToIDecimal`, `StringToINegative` and `StringToIRadixPrefix` |
| Breaker.MaintenanceTimeout | lib/httpigeon/circuit_breaker/fuse.rb:38 | the maintenance header read with `to_i`, 0 when the header is absent |
| Breaker.FailedRequest | lib/httpigeon/circuit_breaker/fuse.rb:99-101 | `failed_request?`: no status, a status >= 500, or a watched status |
| Breaker.CountsAsFailure | lib/httpigeon/circuit_breaker/fuse.rb:56 | the rescue test: status >= 500 or watched; equal to `failed_request?` on a status by `CountsAsFailureIsFailedRequest` |
| Breaker.IsOpenStep | lib/httpigeon/circuit_breaker/fuse.rb:63-65 | `open?` keeps the store's invariant (distinct keys, counters holding non-negative Integers); the answer is the live open flag and the store only loses an expired bucket (`CountersThroughEvict`) |
| Breaker.IsHalfOpenStep | lib/httpigeon/circuit_breaker/fuse.rb:67-69 | `half_open?` keeps the store's invariant (distinct keys, counters holding non-negative Integers); the answer is the live half-open flag |
| Breaker.CountStep | lib/httpigeon/circuit_breaker/fuse.rb:71-81 | a counter read keeps the store's invariant (distinct keys, counters holding non-negative Integers); the answer is `Counter`, never negative by `CounterNonNegative` |
| Breaker.FailureRateStep | lib/httpigeon/circuit_breaker/fuse.rb:83-89 | `failure_rate` keeps the store's invariant (distinct keys, counters holding non-negative Integers); `FailureRateIsRate` gives its answer, `FailureRateKeepsView` shows its reads change no lookup |
| Breaker.ShouldOpenStep | lib/httpigeon/circuit_breaker/fuse.rb:103-107 | `should_open?` keeps the store's invariant (distinct keys, counters holding non-negative Integers); `ShouldOpenIffTripping` gives its answer and `ShouldOpenKeepsView` its store |
| Breaker.TripStore | lib/httpigeon/circuit_breaker/fuse.rb:152-159 | `trip!` keeps the store's invariant (distinct keys, counters holding non-negative Integers); `PartialTripOutcome` and `OpenStoreFromShut` give its effect |
| Breaker.OpenStore | lib/httpigeon/circuit_breaker/fuse.rb:127-136 | `open!` keeps the store's invariant (distinct keys, counters holding non-negative Integers); its effect is `OpenStoreFromShut` and `OpenStoreWhenOpen` |
| Breaker.HalfOpenStore | lib/httpigeon/circuit_breaker/fuse.rb:142-147 | `half_open!` keeps the store's invariant (distinct keys, counters holding non-negative Integers); its effect is `HalfOpenOutcome` |
| Breaker.CloseStore | lib/httpigeon/circuit_breaker/fuse.rb:109-122 | `close!` keeps the store's invariant (distinct keys, counters holding non-negative Integers); its effect is `CloseOutcome` |
| Breaker.RecordStatStore | lib/httpigeon/circuit_breaker/fuse.rb:179-181 | `record_stat` keeps the store's invariant (distinct keys, counters holding non-negative Integers); its effect on a failure is `RecordFailureStat` |
| Breaker.RecordSuccessStore | lib/httpigeon/circuit_breaker/fuse.rb:161-165 | `record_success!` keeps the store's invariant (distinct keys, counters holding non-negative Integers); its effect is `RecordSuccessOutcome` |
| Breaker.OpenIfTripped | lib/httpigeon/circuit_breaker/fuse.rb:170 | the first half of `record_failure!` keeps the store's invariant (distinct keys, counters holding non-negative Integers); its effect is `OpenIfTrippedFromShut` |
| Breaker.HalfOpenIfFailing | lib/httpigeon/circuit_breaker/fuse.rb:171 | the second half of `record_failure!` keeps the store's invariant (distinct keys, counters holding non-negative Integers); its effect is `HalfOpenIfFailingWhenHalfOpen` and `HalfOpenIfFailingOutcome` |
| Breaker.RecordFailureStore | lib/httpigeon/circuit_breaker/fuse.rb:167-172 | `record_failure!` keeps the store's invariant (distinct keys, counters holding non-negative Integers); its effect is `RecordFailureTrips` and `RecordFailureHolds` |
| Breaker.ExecuteStep | lib/httpigeon/circuit_breaker/fuse.rb:28-60 | `execute` keeps the store's invariant (distinct keys, counters holding non-negative Integers); its answer and store are `ExecuteWhileOpen`, `ExecuteSucceeds`, `ExecuteReraises` and `ExecuteMaintenance` |
| Breaker.StringToIDecimal | lib/httpigeon/circuit_breaker/fuse.rb:38 | `to_i` of a header written in decimal is its number |
| Breaker.StringToINegative | lib/httpigeon/circuit_breaker/fuse.rb:38 | `to_i` of a minus sign and decimal digits is the negated number |
| Breaker.StringToIRadixPrefix | lib/httpigeon/circuit_breaker/fuse.rb:38 | `to_i` skips a `0d`/`0D` prefix after the optional sign: "0d30" reads as 30 and "-0d30" as -30 |
| Breaker.UnsignedRadixPrefix | lib/httpigeon/circuit_breaker/fuse.rb:38 | `to_i` of `0d` or `0D` followed by the decimal digits of `n` is `n` |
| Breaker.SignedRadixPrefix | lib/httpigeon/circuit_breaker/fuse.rb:38 | `to_i` of a sign, a `0d`/`0D` prefix and the decimal digits of `n` is `-n` after a minus and `n` after a plus |
| Breaker.CountsAsFailureIsFailedRequest | lib/httpigeon/circuit_breaker/fuse.rb:99-101 | the rescue test in `execute` agrees with `failed_request?` on every status |
| Breaker.CounterNonNegative | lib/httpigeon/circuit_breaker/fuse.rb:71-81 | a counter never reads negative |
| Breaker.RateBounds | lib/httpigeon/circuit_breaker/fuse.rb:83-89 | the failure rate lies in [0, 1]; it is 0 when nothing was counted and 1 when nothing succeeded |
| Breaker.RateOfEqualCounts | lib/httpigeon/circuit_breaker/fuse.rb:83-89 | ten of each counter give a rate of 2/3 |
| Breaker.FailureRateIsRate | lib/httpigeon/circuit_breaker/fuse.rb:83-89 | `failure_rate` is `(total - success) / total` of the counters as read at `now` |
| Breaker.ShouldOpenIffTripping | lib/httpigeon/circuit_breaker/fuse.rb:103-107 | `should_open?` holds exactly when failures reach the minimum and either the maximum or the rate threshold |
| Breaker.OpenStoreFromShut | lib/httpigeon/circuit_breaker/fuse.rb:127-136 | `open!` on a shut circuit sets the open flag for the sleep window and the half-open flag for the sample window, or both for the given lifetime; it deletes the failure counter and leaves the others alone |
| Breaker.OpenStoreWhenOpen | lib/httpigeon/circuit_breaker/fuse.rb:127-129 | `open!` on an open circuit changes nothing |
| Breaker.RecordFailureStat | lib/httpigeon/circuit_breaker/fuse.rb:179-181 | recording a failure adds one to the failure count and leaves the other counters and the flags alone |
| Breaker.OpenIfTrippedFromShut | lib/httpigeon/circuit_breaker/fuse.rb:170 | once `should_open?` held on a shut circuit, `open!` runs, whether the circuit is half-open or not |
| Breaker.HalfOpenIfFailingWhenHalfOpen | lib/httpigeon/circuit_breaker/fuse.rb:171 | no `half_open!` while the half-open flag is live |
| Breaker.HalfOpenIfFailingOutcome | lib/httpigeon/circuit_breaker/fuse.rb:171 | on a shut circuit, the half-open flag ends up set exactly when it was set or the failure count has reached the minimum |
| Breaker.PartialTripOutcome | lib/httpigeon/circuit_breaker/fuse.rb:156-158 | a partial `trip!` sets the half-open flag and leaves the open flag and all three counters reading as before |
| Breaker.RecordFailureTrips | lib/httpigeon/circuit_breaker/fuse.rb:167-172 | a failure that makes `should_open?` hold opens the circuit for the sleep window, half-opens it for the sample window and leaves no failure counter |
| Breaker.RecordFailureHolds | lib/httpigeon/circuit_breaker/fuse.rb:167-172 | any other failure keeps the circuit shut, counts once, and half-opens exactly when the count reaches the minimum |
| Breaker.CloseOutcome | lib/httpigeon/circuit_breaker/fuse.rb:109-122 | `close!` deletes the half-open flag and failure counter exactly when successes are positive, the circuit is not open and a half-open bucket is stored; otherwise no read changes; the success counter is never touched |
| Breaker.HalfOpenOutcome | lib/httpigeon/circuit_breaker/fuse.rb:142-147 | `half_open!` does nothing visible on an open or half-open circuit, and otherwise sets only the half-open flag for the sample window |
| Breaker.RecordSuccessOutcome | lib/httpigeon/circuit_breaker/fuse.rb:161-165 | a success counts once and closes a half-open circuit, clearing the failure count; otherwise the failure count stays |
| Breaker.ExecuteWhileOpen | lib/httpigeon/circuit_breaker/fuse.rb:31-34 | while open, the block's outcome is ignored, the handler's answer to a bare 503 and the circuit-open error is returned, and only the tripped count grows, by one |
| Breaker.ExecuteSucceeds | lib/httpigeon/circuit_breaker/fuse.rb:37-54 | a response without a positive maintenance timeout is returned unchanged, counted as a success, and closes a half-open circuit |
| Breaker.ExecuteReraises | lib/httpigeon/circuit_breaker/fuse.rb:55-58 | an error is always re-raised; it counts as a failure exactly when it is a Faraday error with status >= 500 or a watched status, and otherwise no later read changes |
| Breaker.ExecuteMaintenance | lib/httpigeon/circuit_breaker/fuse.rb:38-51 | a positive maintenance timeout counts a failure, opens the circuit with no failure counter left, and hands the response to the handler; both flags live for the capped timeout unless that failure had already opened the circuit, in which case they keep the sleep and sample windows |
| Breaker.FailuresBelowMinimum | lib/httpigeon/circuit_breaker/fuse.rb:167-172 | server errors that keep the failure count below the minimum leave the circuit shut and not half-open, each counted once |
| Breaker.MinimumServerErrorsOpen | lib/httpigeon/circuit_breaker/fuse.rb:103-107 | from a clean shut circuit, `min - 1` server errors leave it shut and the next one opens it |
| Breaker.NoSuccessServerErrorTrips | lib/httpigeon/circuit_breaker/fuse.rb:55-58 | with no successes and one failure short of the minimum, the next server error opens and half-opens the circuit and leaves no failure counter |
| Breaker.DefaultFuseOpensOnFifthServerError | lib/httpigeon/configuration.rb:39-43 | with the default settings a fresh fuse survives four server errors and opens on the fifth |
| Breaker.Fuse.constructor | lib/httpigeon/circuit_breaker/fuse.rb:19-26 | a new fuse has an empty store and its service's keys |
| Breaker.Fuse.IsOpen | lib/httpigeon/circuit_breaker/fuse.rb:63-65 | answers and evicts as the store's `key?` on the open flag |
| Breaker.Fuse.IsHalfOpen | lib/httpigeon/circuit_breaker/fuse.rb:67-69 | answers and evicts as the store's `key?` on the half-open flag |
| Breaker.Fuse.Count | lib/httpigeon/circuit_breaker/fuse.rb:71-81 | answers and evicts as `CountStep` on the counter's key |
| Breaker.Fuse.FailureCount | lib/httpigeon/circuit_breaker/fuse.rb:71-73 | the failure counter's `to_i`, nil reading as 0 |
| Breaker.Fuse.SuccessCount | lib/httpigeon/circuit_breaker/fuse.rb:75-77 | the success counter's `to_i`, nil reading as 0 |
| Breaker.Fuse.TrippedCount | lib/httpigeon/circuit_breaker/fuse.rb:79-81 | the tripped counter's `to_i`, nil reading as 0 |
| Breaker.Fuse.FailureRate | lib/httpigeon/circuit_breaker/fuse.rb:83-89 | ends in the answer and store of `failure_rate`, which `FailureRateIsRate` relates to the counters |
| Breaker.Fuse.ShouldOpen | lib/httpigeon/circuit_breaker/fuse.rb:103-107 | ends in the answer and store of `should_open?`, characterised by `ShouldOpenIffTripping` |
| Breaker.Fuse.Close | lib/httpigeon/circuit_breaker/fuse.rb:109-122 | ends in the store `close!` computes, characterised by `CloseOutcome` |
| Breaker.Fuse.Open | lib/httpigeon/circuit_breaker/fuse.rb:127-136 | ends in the store `open!` computes, characterised by `OpenStoreFromShut` and `OpenStoreWhenOpen` |
| Breaker.Fuse.HalfOpen | lib/httpigeon/circuit_breaker/fuse.rb:142-147 | ends in the store `half_open!` computes, characterised by `HalfOpenOutcome` |
| Breaker.Fuse.Trip | lib/httpigeon/circuit_breaker/fuse.rb:152-159 | a full trip sets both flags and a partial trip only the half-open flag, with the given or default lifetimes |
| Breaker.Fuse.RecordStat | lib/httpigeon/circuit_breaker/fuse.rb:179-181 | increments the counter with the sample window as its lifetime |
| Breaker.Fuse.RecordSuccess | lib/httpigeon/circuit_breaker/fuse.rb:161-165 | ends in the store `record_success!` computes, characterised by `RecordSuccessOutcome` |
| Breaker.Fuse.RecordFailure | lib/httpigeon/circuit_breaker/fuse.rb:167-172 | ends in the store `record_failure!` computes, characterised by `RecordFailureTrips` and `RecordFailureHolds` |
| Breaker.Fuse.OpenIfShould | lib/httpigeon/circuit_breaker/fuse.rb:170 | ends in the store `OpenIfTripped` computes from the answer of `should_open?` |
| Breaker.Fuse.HalfOpenIfFailingNow | lib/httpigeon/circuit_breaker/fuse.rb:171 | ends in the store `HalfOpenIfFailing` computes |
| Breaker.Fuse.RecordTripped | lib/httpigeon/circuit_breaker/fuse.rb:174-177 | increments the tripped counter |
| Breaker.Fuse.Execute | lib/httpigeon/circuit_breaker/fuse.rb:28-60 | ends in the answer and store `execute` computes, characterised by the four `Execute...` lemmas |
| MiddlewareAdapter.ResponseValuesOf | lib/httpigeon/middleware/circuit_breaker.rb:26-40 | the payload copies the status, headers and body of the response and the method, url, path, headers and body of the request |
| MiddlewareAdapter.FailedRequest | lib/httpigeon/middleware/circuit_breaker.rb:22-24 | no status, a status >= 500, or a watched status; `StatusClassification` and `SameClassificationAsFuse` characterise it |
| MiddlewareAdapter.OnComplete | lib/httpigeon/middleware/circuit_breaker.rb:14-18 | raises exactly when the exchange failed, carrying the exchange's values |
| MiddlewareAdapter.StatusClassification | lib/httpigeon/middleware/circuit_breaker.rb:22-24 | a missing status and every status >= 500 fail; a status below 500 fails exactly when watched |
| MiddlewareAdapter.UnwatchedStatusPasses | lib/httpigeon/middleware/circuit_breaker.rb:23 | an unwatched 2xx, 3xx or 4xx status passes |
| MiddlewareAdapter.SameClassificationAsFuse | lib/httpigeon/middleware/circuit_breaker.rb:22-24 | the middleware's predicate is the fuse's `failed_request?` and, on a status, its rescue test |
| Redaction.NewLogRedactor | lib/httpigeon/log_redactor.rb:7-10 | filter keys become their names downcased on ASCII letters, in order; missing lists are empty |
| Redaction.Masks | lib/httpigeon/log_redactor.rb:29 | a key is masked when its downcased name is one of the filter keys (characterised by `MaskIgnoresCaseAndKind`) |
| Redaction.Redact | lib/httpigeon/log_redactor.rb:12-22 | `redact` keeps the kind of every value (array, string, hash, other), the length of arrays and hashes, leaves other values as they are, and runs every string through all the string filters in order |
| Redaction.Replacement | lib/httpigeon/log_redactor.rb:43-47 | a present prefix is followed by the mask; otherwise the filter's own replacement is used |
| Redaction.ApplyFilters | lib/httpigeon/log_redactor.rb:41-51 | every filter's substitution in turn; no filters leave the text unchanged and one filter is one `gsub` with its replacement |
| Redaction.DefaultMaskIsFiltered | lib/httpigeon/configuration.rb:26 | with the default mask, a masked key's value is logged as "[FILTERED]" |
| Redaction.ApplyFiltersConcat | lib/httpigeon/log_redactor.rb:41-51 | filtering with two lists in turn is filtering with their concatenation |
| Redaction.RedactString | lib/httpigeon/log_redactor.rb:41-51 | the loop applies every filter in order, and without filters returns the text unchanged |
| Redaction.RedactItems | lib/httpigeon/log_redactor.rb:15 | an array keeps its length and each element is redacted on its own |
| Redaction.RedactHash | lib/httpigeon/log_redactor.rb:27-39 | the same keys in the same order; a masked key's value becomes the mask |
| Redaction.RedactEntryValue | lib/httpigeon/log_redactor.rb:29-37 | a masked entry's value becomes the mask; an unmasked one keeps its kind, and an unmasked string or other value is kept as it is, not filtered |
| Redaction.UnmaskedEntry | lib/httpigeon/log_redactor.rb:31-37 | an unmasked value is redacted by key if a hash, element-wise if an array, and kept if a string or anything else |
| Redaction.RedactArray | lib/httpigeon/log_redactor.rb:14-15 | `redact` of an array is the array of each element's redaction |
| Redaction.RedactScalar | lib/httpigeon/log_redactor.rb:20-21 | values other than arrays, strings and hashes come back unchanged |
| Redaction.MaskIgnoresCaseAndKind | lib/httpigeon/log_redactor.rb:29 | a key is masked exactly when its name, downcased on ASCII letters, equals a filter key downcased the same way, Symbol or String alike |
| Redaction.RedactIdempotent | lib/httpigeon/log_redactor.rb:12-39 | without string filters, redacting twice is redacting once |
| Redaction.RedactHashIdempotent | lib/httpigeon/log_redactor.rb:27-39 | without string filters, redacting a hash twice is redacting it once |
| Redaction.RedactNothingToFilter | lib/httpigeon/log_redactor.rb:12-51 | with no filter keys and no string filters, redaction is the identity |

## Left out

- Mutexes (`@mutex` in memory_store.rb, `state_change_syncer` in fuse.rb): every store operation and every transition is one atomic step of a sequential model.
- Wall clock: `Time.now.to_i` is the parameter `now`. One `execute` and everything it calls happen at the same second.
- Event logging (`log_circuit_event`) is left out, and so are the counter reads it makes. Those reads only delete expired buckets, which `TimedStore.EvictionUnobservable` shows no later read can see.
- `Fuse.from_options` is `FuseConfig.new` followed by `Fuse.new`, and is not modelled separately.
- `Fuse#reset!` calls `storage.reset!`, which `MemoryStore` does not define, so it is not modelled.
- The `on_circuit_opened` and `on_circuit_closed` callbacks are stored but never called, so they are not modelled.
- Handler: fuse.rb calls `config.on_open_circuit`, which `FuseConfig` does not define. The model calls the configured `open_circuit_handler`, one function from a response and the error to a response.
- A global handler that does not respond to `call` is the absent option.
- Response headers are an exact-key map. Faraday's case-insensitive header lookup is not modelled.
- Breaker.StringToI: skips ASCII whitespace and a `0d`/`0D` prefix as Ruby does, but does not accept `_` between digits (Ruby reads "1_000" as 1000).
- A Faraday error without a response status is not modelled: fuse.rb compares that status with 500 without a nil guard. Statuses on the error path are integers.
- Floating point: the failure rate and its threshold are exact reals, so Float rounding is not modelled.
- Option values of `false` are not modelled: Ruby's `||` would replace them with the default, while in the model every given value is kept.
- Breaker.ExecuteWhileOpen: its counter claim is stated for a non-negative sample window. A negative window writes buckets that have already expired; the model computes that case but this lemma does not describe it.
- Breaker.ExecuteSucceeds: stated for a non-negative sample window, for the same reason.
- Breaker.ExecuteReraises: stated for non-negative sample and sleep windows, for the same reason.
- Breaker.ExecuteMaintenance: stated for non-negative sample and sleep windows, for the same reason.
- Breaker.RecordFailureTrips: stated for non-negative sample and sleep windows, for the same reason.
- Breaker.RecordFailureHolds: stated for a non-negative sample window, for the same reason.
- Breaker.RecordSuccessOutcome: stated for a non-negative sample window, for the same reason.
- Breaker.RecordFailureStat: stated for a non-negative sample window, for the same reason.
- Breaker.HalfOpenIfFailingOutcome: stated for a non-negative sample window, for the same reason.
- Breaker.PartialTripOutcome: stated for a non-negative sample window, for the same reason.
- Breaker.FailuresBelowMinimum: stated for non-negative sample and sleep windows, for the same reason.
- Breaker.MinimumServerErrorsOpen: stated for non-negative sample and sleep windows, for the same reason.
- Breaker.NoSuccessServerErrorTrips: stated for non-negative sample and sleep windows, for the same reason.
- The middleware's `query_params`, which decodes the URL query, is left out of the payload. Bodies are strings.
- Regex substitution: `gsub` is the abstract function `Context.gsub`. The mask `HTTPigeon.redactor_string` is `Context.redactorString`; `DefaultContext` gives it its initial value "[FILTERED]".
- NewLogRedactor: filter keys are downcased on ASCII letters only. Ruby's `String#downcase` also maps non-ASCII letters (so "ÉTAT" becomes "état"); full Unicode case mapping is not modelled.
- Redaction.Masks: downcases the key with the same ASCII-only mapping, so a key "ÉTAT" is not masked by the filter "état" although Ruby would mask it.
- MaskIgnoresCaseAndKind: "ignoring case" covers ASCII letters only, for the same reason: a key "ÉTAT" is not masked by the filter key "état" in the model, while Ruby masks it.
- A filter with neither a present prefix nor a replacement would make Ruby raise `TypeError`; in the model the replacement is always a string. `Filter#type` is not used by the redactor.
- Hash keys that are neither Symbols nor Strings are not modelled.
- Redaction.RedactIdempotent: stated only without string filters, because an abstract `gsub` need not be idempotent.
