# akamai-time-reference, modelled in Dafny

A model of the akamai-time-reference client library: it fetches the current
time from the Akamai time server, validates the answer strictly, and serves
later calls from a cached reference point (local clock reading, remote time)
for as long as that point is younger than the cache lifetime.

The library's process-wide `options` and `cache` objects become an immutable
`Resolver.State`; every entry point is a pure function that takes the clock
readings and the transport's answer as parameters and returns the result
together with the new state.

- `wrappers.dfy` — `Option` and `Result`.
- `js_value.dfy` — the JavaScript values a caller can pass (`JsValue`),
  `typeof`, own-property lookup and truthiness.
- `decimal.dfy` — the `^\d+$` body pattern, the decimal value `parseInt`
  reads, and the decimal rendering of the status code in error messages.
- `config.dfy` — the options record, `setOptions`, and `_getRequestOptions`.
- `cache_store.dfy` — the cache entry, the freshness test and the extrapolation.
- `resolver.dfy` — validation of the server's answer, the cache update, and
  the `now(skipCache)` dispatch.
- `scenarios.dfy` — properties over several calls, and the cases the test
  suite checks.

Points where the code's behaviour is easy to misread:

- `now` reads the clock twice on the cache path: once in `_shouldIUseCache`
  and again in `_getCachedNow`. `Resolver.Dispatch` and `Resolver.Now` take
  both readings as separate parameters.
- `setOptions` is not atomic. Each field is validated and written in turn, so
  a valid `cacheTTL` stays written when a later `timeout` throws.
- `setOptions(null)` passes the `typeof` check. It then throws the engine's
  TypeError at `hasOwnProperty`, not "Invalid options object". It still throws
  before any change.
- A 404 answer is rejected with the HTTP-status error, not a transport error.

## Model

| member | source | states |
|---|---|---|
| Decimal.ScanDigits | index.js:63 | the scan returns true exactly when every character is an ASCII digit |
| Decimal.MatchesDigitPattern | index.js:63 | `/^\d+$/` matches exactly the non-empty strings made only of digits: a whole-string match, with no trailing garbage |
| Decimal.Value | index.js:66 | the decimal value of a digit string is below 10 to the power of its length |
| Decimal.ParseInt | index.js:66 | accumulating digits left to right, as `parseInt(body, 10)` does, gives the positional decimal value of the string |
| Decimal.ToDecimal | index.js:58 | the decimal rendering of a number is a non-empty digit string with no leading zero |
| Decimal.IntToString | index.js:58 | the rendering of an integer is non-empty and starts with '-' exactly when the integer is negative |
| Decimal.ValueOfToDecimal | index.js:58 | reading back the rendering of any natural number gives that number |
| Decimal.ToDecimalOfValue | index.js:63-66 | rendering the value of a shortest-form digit string gives the same string, so parse and render are inverses |
| Decimal.LeadingZeroIgnored | index.js:63-66 | the pattern accepts a leading zero, and the parse ignores it |
| Config.SetOptions | index.js:110-130 | it succeeds exactly when the argument is an object whose present `cacheTTL` and `timeout` are numbers. The first failing check picks the error: a non-object throws "Invalid options object", `null` throws the TypeError, then a non-number `cacheTTL`, then a non-number `timeout`. On success it returns the full resulting options. A non-object changes nothing. `cacheTTL` is written whenever it is a valid number. `timeout` is written only when the `cacheTTL` check passed. `useHTTP` is written, coerced to a boolean, only when the call succeeds |
| Config.ErrorMessagesDistinct | index.js:111-123 | the four ways `setOptions` can throw carry four different messages |
| Config.RequestOptionsFor | index.js:25-41 | the URL is `http://time.akamai.com` exactly when `useHTTP` is set and `https://time.akamai.com` otherwise; the timeout is the configured one |
| CacheStore.ShouldUseCache | index.js:95-101 | a truthy `skipCache` or an empty entry (local timestamp 0) rules the cache out. Otherwise it is used exactly when the clock is before the local timestamp plus `cacheTTL` |
| CacheStore.CachedNow | index.js:82-87 | the extrapolated time is ahead of the remote timestamp by exactly the local time elapsed since the fetch |
| CacheStore.CachedNowTracksClock | index.js:82-87 | two readings from one entry differ by exactly the difference of their clock readings, and so never go backwards as the clock advances |
| CacheStore.Replace | index.js:67-70 | a fresh entry read at its own completion time gives the fetched time. It counts as an entry exactly when that clock reading is non-zero |
| Decimal.IntToStringInjective | index.js:58 | distinct integers print as distinct strings |
| Resolver.FetchMessagesDistinct | index.js:54-65 | distinct rejections carry distinct messages: the message tells which check failed, and for an HTTP rejection, which status or transport cause |
| Resolver.HttpErrorMessageNamesStatus | index.js:57-59 | the text after the fixed prefix of an HTTP-status rejection reads back as the status code |
| Resolver.Accept | index.js:52-71 | the answer is accepted exactly when it is a 200 with the exact `Server` header and an all-digit body. Every rejection leaves the cache as it was. An accepted answer resolves to the body's value times 1000, and the cache is replaced by the completion clock reading and that value together |
| Resolver.AcceptFirstFailureDecides | index.js:54-65 | the first failing check picks the error: transport error, then a status other than 200, then the `Server` header (an absent one fails too), then the body |
| Resolver.AcceptRoundTrip | index.js:63-71 | a 200 answer from the time server whose body renders `n` seconds resolves to `n * 1000` ms and stores exactly that reference point |
| Resolver.Dispatch | index.js:133-138 | the cache path is taken exactly when skipping was not asked for, an entry exists, and its age at the first clock reading is below `cacheTTL`. It answers the remote time plus the elapsed time at the second reading. Otherwise the request is built from the current options |
| Resolver.Now | index.js:133-138 | a call never changes the options. It sends no request exactly when the cache is fresh, and then changes nothing and answers the extrapolated time. When it sends a request, that request is built from the options, and the call settles exactly as `Accept` does on the answer: it succeeds exactly on a trustworthy answer, resolving to 1000 times the body's value, and otherwise rejects with the first failing check's error. A failure changes nothing; a success stores the completion clock reading with the answer. Only an accepted fetch can change the cache |
| Scenarios.SkipCacheAlwaysFetches | index.js:95-101 | with a truthy `skipCache` a request built from the current options is always sent |
| Scenarios.FreshStartFetches | index.js:14-17 | from the initial empty cache every call sends a request |
| Scenarios.FetchThenCacheHit | index.js:66-71 | after an accepted fetch completing at a non-zero `t0`, a later non-skipping call within `cacheTTL` of `t0` sends no request, changes nothing, and answers the fetched time plus the elapsed local time |
| Scenarios.Run | index.js:132-141 | a run of calls made one after another gives one reply per call, and never changes the options |
| Scenarios.RunWithinLifetimeStaysLocal | index.js:82-101 | once an entry exists, any number of non-skipping calls whose freshness reading is within `cacheTTL` of it send no request and leave the state unchanged. Each answers the remote time plus its elapsed local time, which bounds how often the server is asked |
| Scenarios.CacheWindowExact | index.js:95-101 | with an entry written at a non-zero `t0`, a call at `t1` with a falsy `skipCache` (`now()`, `now(false)`, `now(0)`, `now("")`) uses the cache exactly when `t1 - t0 < cacheTTL` |
| Scenarios.ZeroClockEntryLooksEmpty | index.js:67-70 | an accepted fetch completing at clock reading 0 leaves an entry that reads as empty, so the next call fetches again |
| Scenarios.BackwardsClockStillHits | index.js:95-99 | with a positive `cacheTTL`, a clock that went back since the fetch still counts as fresh, and the answer is then earlier than the fetched time |
| Scenarios.StartWholeSeconds | index.js:14-17 | the initial cache satisfies the whole-seconds invariant |
| Scenarios.NowKeepsWholeSeconds | index.js:66-70 | every call keeps the stored remote time a non-negative whole number of seconds, and every fetched answer is a multiple of 1000 ms |
| Scenarios.SetOptionsIdempotent | index.js:110-130 | applying the same argument a second time gives the same result and the same options as applying it once |
| Scenarios.SetOptionsAbsentFieldsUnchanged | index.js:114-128 | a field the argument does not name keeps its value, whatever happens to the others |
| Scenarios.UseHTTPCoerced | index.js:126-128 | a present `useHTTP` never causes a throw and is stored as its truthiness |
| Scenarios.SetOptionsPartialApply | index.js:114-125 | a valid `cacheTTL` is already stored when a non-number `timeout` then throws, and nothing else changes |
| Scenarios.SetOptionsAcceptsValidArguments | test/index.js:74-81 | an empty object changes nothing; a full valid object is stored field for field |
| Scenarios.SetOptionsRejectsBadArguments | test/index.js:84-95 | no argument, a string, a string `cacheTTL` and an object `timeout` each throw their error before any change, and so does `null` |
| Scenarios.RejectsInvalidAnswers | test/index.js:44-70 | a 404, a non-numeric body and a foreign `Server` header are each rejected with their own error, and the cache is left as it was |
| Scenarios.AcceptsExampleTimestamp | index.js:63-71 | a body of "1442349364" resolves to 1442349364000 ms and becomes the cached reference point |
| Scenarios.CacheTTLScenario | test/index.js:99-126 | after `setOptions({cacheTTL: 60000})` and an accepted `now(true)`, `now(false)` within a minute sends no second request |
| Scenarios.UseHTTPScenario | test/index.js:128-147 | after `setOptions({timeout: 60000, useHTTP: true})` a fetch targets `http://time.akamai.com` with a 60000 ms timeout |

## Left out

- The HTTP transport (`request`) and the bluebird promise wrapping. A response is an input value, and a settled promise is a `Result`.
- Reading the wall clock with `new Date().getTime()`. Clock readings are integer parameters, and results are integer milliseconds instead of `Date` objects. The `Date` range limit (an Invalid Date beyond 8.64e15 ms) is not modelled.
- The User-Agent header built from the package version: it is fixed external data with no logic.
- `parseInt` on very long digit strings loses precision in JavaScript's floating-point numbers. The model reads the body as an exact natural number.
- Overlapping concurrent fetches, each overwriting the cache when it completes (last writer wins). The model is one call at a time.
- JavaScript numbers are integers here. NaN, infinities, fractions and -0 are not modelled, so a `cacheTTL` of NaN (accepted by the `typeof` check, and never fresh) cannot be stated.
- Objects whose own `hasOwnProperty` shadows the built-in, getters, proxies and inherited properties. An object is its own property map. An array argument behaves like an object without the three keys.
- `setOptions` returns the live options object, so a caller can mutate it later. The model returns a copy.
- The exact text of the TypeError thrown for `setOptions(null)` depends on the JavaScript engine. `Config.ErrorMessage` uses V8's wording.
- Node's header handling (case folding of header names, repeated `Server` headers) happens in the transport. The model receives the `server` header already extracted, or its absence.
