/** Properties that span several calls: a fetch followed by cache hits, the
    effect of options on later calls, an invariant of the state, and the
    cases the library's own test suite exercises. */
module Scenarios {
  import opened Wrappers
  import opened JsValues
  import opened Decimal
  import opened Config
  import opened CacheStore
  import opened Resolver

  /** Asking to skip the cache always sends a request, built from the
      current options. */
  lemma SkipCacheAlwaysFetches(st: State, skipCache: JsValue, t1: int, t2: int, resp: Response, t3: int)
    requires Truthy(skipCache)
    ensures Now(st, skipCache, t1, t2, resp, t3).0.request == Some(RequestOptionsFor(st.options))
  {
  }

  /** Until a fetch succeeds every call goes to the network. */
  lemma FreshStartFetches(skipCache: JsValue, t1: int, t2: int, resp: Response, t3: int)
    ensures Now(Start, skipCache, t1, t2, resp, t3).0.request.Some?
  {
  }

  /** After an accepted fetch completing at `t0`, a later call that does not
      skip the cache and comes within the cache lifetime sends no request,
      changes nothing, and answers the fetched time plus the local time
      elapsed since `t0`. */
  lemma FetchThenCacheHit(st: State, skip0: JsValue, c1: int, c2: int, resp: Response, t0: int,
                          skipLater: JsValue, t1: int, t2: int, resp': Response, t3: int)
    requires t0 != 0
    requires Now(st, skip0, c1, c2, resp, t0).0.request.Some?
    requires Now(st, skip0, c1, c2, resp, t0).0.result.Success?
    requires !Truthy(skipLater)
    requires t1 - t0 < st.options.cacheTTL
    ensures var (reply0, st1) := Now(st, skip0, c1, c2, resp, t0);
            var (reply1, st2) := Now(st1, skipLater, t1, t2, resp', t3);
            && reply1.request.None?
            && st2 == st1
            && reply1.result == Success(reply0.result.value + (t2 - t0))
  {
    var (reply0, st1) := Now(st, skip0, c1, c2, resp, t0);
    var a := Accept(resp, t0, st.cache);
    assert st1.cache == a.cache == Cache(t0, reply0.result.value);
  }

  /** One `now(skipCache)` call together with what the clock and the
      transport deliver during it. */
  datatype Call = Call(skipCache: JsValue, clockAtCheck: int, clockAtRead: int,
                       resp: Response, clockAtCompletion: int)

  /** A sequence of calls made one after another, each seeing the state the
      previous one left. */
  function Run(st: State, calls: seq<Call>): (out: (seq<Reply>, State))
    ensures |out.0| == |calls|
    ensures out.1.options == st.options
    decreases |calls|
  {
    if calls == [] then ([], st)
    else
      var c := calls[0];
      var (reply, st1) := Now(st, c.skipCache, c.clockAtCheck, c.clockAtRead, c.resp, c.clockAtCompletion);
      var (replies, st2) := Run(st1, calls[1..]);
      ([reply] + replies, st2)
  }

  /** The request-frequency bound: once an entry is written at `t0 != 0`,
      any number of non-skipping calls whose freshness reading falls within
      the cache lifetime send no request, leave the state unchanged, and
      each answers the remote time plus the elapsed local time. */
  lemma {:induction false} RunWithinLifetimeStaysLocal(st: State, calls: seq<Call>)
    requires HasEntry(st.cache)
    requires forall i :: 0 <= i < |calls| ==>
               !Truthy(calls[i].skipCache) &&
               calls[i].clockAtCheck - st.cache.localTimestamp < st.options.cacheTTL
    ensures var (replies, st') := Run(st, calls);
            && st' == st
            && (forall i :: 0 <= i < |replies| ==>
                  && replies[i].request.None?
                  && replies[i].result == Success(st.cache.akamaiTimestamp +
                                                  (calls[i].clockAtRead - st.cache.localTimestamp)))
    decreases |calls|
  {
    if calls != [] {
      var c := calls[0];
      var (reply, st1) := Now(st, c.skipCache, c.clockAtCheck, c.clockAtRead, c.resp, c.clockAtCompletion);
      assert st1 == st;
      RunWithinLifetimeStaysLocal(st, calls[1..]);
      var (replies, st2) := Run(st1, calls[1..]);
      assert Run(st, calls).0 == [reply] + replies;
      forall i | 1 <= i < |calls|
        ensures calls[i] == calls[1..][i - 1]
      {
      }
    }
  }

  /** The freshness window is exactly the cache lifetime: with an entry
      written at `t0 != 0`, a call at `t1` that does not skip the cache uses
      it if and only if `t1 - t0 < cacheTTL`. */
  lemma CacheWindowExact(opts: Options, t0: int, remote: int, skip: JsValue, t1: int, t2: int,
                         resp: Response, t3: int)
    requires t0 != 0
    requires !Truthy(skip)
    ensures var st := State(opts, Cache(t0, remote));
            Now(st, skip, t1, t2, resp, t3).0.request.None? <==> t1 - t0 < opts.cacheTTL
  {
  }

  /** An accepted fetch whose completion clock reads exactly zero stores an
      entry that reads as "nothing cached", so the next call fetches again. */
  lemma ZeroClockEntryLooksEmpty(st: State, skip0: JsValue, c1: int, c2: int, resp: Response,
                                 skipLater: JsValue, t1: int, t2: int, resp': Response, t3: int)
    requires Trustworthy(resp)
    requires Now(st, skip0, c1, c2, resp, 0).0.request.Some?
    ensures var st1 := Now(st, skip0, c1, c2, resp, 0).1;
            Now(st1, skipLater, t1, t2, resp', t3).0.request.Some?
  {
  }

  /** A local clock that moved backwards since the fetch still counts as
      fresh, and the extrapolated time is then earlier than the fetched one. */
  lemma BackwardsClockStillHits(opts: Options, t0: int, remote: int, t1: int, resp: Response, t3: int)
    requires t0 != 0 && opts.cacheTTL > 0 && t1 < t0
    ensures var r := Now(State(opts, Cache(t0, remote)), Undefined, t1, t1, resp, t3).0;
            r.request.None? && r.result.Success? && r.result.value < remote
  {
  }

  /** The state invariant: the stored remote time is a whole, non-negative
      number of seconds, in milliseconds. */
  ghost predicate WholeSeconds(c: Cache) {
    c.akamaiTimestamp >= 0 && c.akamaiTimestamp % 1000 == 0
  }

  lemma StartWholeSeconds()
    ensures WholeSeconds(Start.cache)
  {
  }

  /** Every `now` call keeps the invariant and every resolved fetch is a
      whole number of seconds. */
  lemma NowKeepsWholeSeconds(st: State, skipCache: JsValue, t1: int, t2: int, resp: Response, t3: int)
    requires WholeSeconds(st.cache)
    ensures var (reply, st') := Now(st, skipCache, t1, t2, resp, t3);
            && WholeSeconds(st'.cache)
            && (reply.request.Some? && reply.result.Success? ==> reply.result.value % 1000 == 0)
  {
  }

  /** Applying the same argument twice leaves the options as applying it once. */
  lemma SetOptionsIdempotent(current: Options, input: JsValue)
    ensures var once := SetOptions(current, input);
            var twice := SetOptions(once.options, input);
            twice == SetOutcome(once.result, once.options)
  {
  }

  /** Fields the argument does not name keep their values. */
  lemma SetOptionsAbsentFieldsUnchanged(current: Options, props: map<string, JsValue>)
    ensures var o := SetOptions(current, Obj(props)).options;
            && ("cacheTTL" !in props ==> o.cacheTTL == current.cacheTTL)
            && ("timeout" !in props ==> o.timeout == current.timeout)
            && ("useHTTP" !in props ==> o.useHTTP == current.useHTTP)
  {
  }

  /** `useHTTP` is coerced and never causes a throw: with valid numeric
      fields any `useHTTP` value is accepted and stored as its truthiness. */
  lemma UseHTTPCoerced(current: Options, props: map<string, JsValue>)
    requires "useHTTP" in props
    requires "cacheTTL" in props ==> props["cacheTTL"].Num?
    requires "timeout" in props ==> props["timeout"].Num?
    ensures var out := SetOptions(current, Obj(props));
            out.result.Success? && out.options.useHTTP == Truthy(props["useHTTP"])
  {
  }

  /** Partial application: a valid `cacheTTL` is already stored when a later
      invalid `timeout` throws; the other fields stay as they were. */
  lemma SetOptionsPartialApply(current: Options, ttl: int, badTimeout: JsValue)
    requires !badTimeout.Num?
    ensures var out := SetOptions(current, Obj(map["cacheTTL" := Num(ttl), "timeout" := badTimeout]));
            && out.result == Failure(InvalidTimeout)
            && out.options == current.(cacheTTL := ttl)
  {
  }

  /** The arguments the test suite expects to be accepted: an empty object
      changes nothing, and a full object is stored field for field. */
  lemma SetOptionsAcceptsValidArguments(current: Options)
    ensures SetOptions(current, Obj(map[])) == SetOutcome(Success(current), current)
    ensures var full := Obj(map["cacheTTL" := Num(5000), "useHTTP" := Bool(false), "timeout" := Num(60000)]);
            SetOptions(current, full) == SetOutcome(Success(Options(5000, false, 60000)), Options(5000, false, 60000))
  {
  }

  /** The rejections the test suite expects, each before any change:
      no argument, a string, a string `cacheTTL`, an object `timeout`. */
  lemma SetOptionsRejectsBadArguments(current: Options)
    ensures SetOptions(current, Undefined) == SetOutcome(Failure(InvalidOptionsObject), current)
    ensures SetOptions(current, Str("test")) == SetOutcome(Failure(InvalidOptionsObject), current)
    ensures SetOptions(current, Obj(map["cacheTTL" := Str("test")]))
            == SetOutcome(Failure(InvalidCacheTTL), current)
    ensures SetOptions(current, Obj(map["timeout" := Obj(map[])]))
            == SetOutcome(Failure(InvalidTimeout), current)
    ensures SetOptions(current, Null) == SetOutcome(Failure(NullOptions), current)
  {
  }

  /** The rejections the test suite expects from the time server mock:
      a 404, a non-numeric body, and a foreign `Server` header. None of them
      touches the cache. */
  lemma RejectsInvalidAnswers(clock: int, cache: Cache)
    ensures Accept(Resp(404, None, "404"), clock, cache)
            == Accepted(Failure(HttpError(404)), cache)
    ensures Accept(Resp(200, Some(AkamaiServer), "I am not a timestamp"), clock, cache)
            == Accepted(Failure(InvalidPayload), cache)
    ensures Accept(Resp(200, Some("Some other server header"), "1442349364829"), clock, cache)
            == Accepted(Failure(NotAkamaiServer), cache)
  {
  }

  /** A body of "1442349364" seconds resolves to 1442349364000 ms. */
  lemma AcceptsExampleTimestamp(clock: int, cache: Cache)
    ensures Accept(Resp(200, Some(AkamaiServer), "1442349364"), clock, cache)
            == Accepted(Success(1442349364000), Cache(clock, 1442349364000))
  {
    assert ToDecimal(1) == "1";
    assert ToDecimal(14) == "14";
    assert ToDecimal(144) == "144";
    assert ToDecimal(1442) == "1442";
    assert ToDecimal(14423) == "14423";
    assert ToDecimal(144234) == "144234";
    assert ToDecimal(1442349) == "1442349";
    assert ToDecimal(14423493) == "14423493";
    assert ToDecimal(144234936) == "144234936";
    assert ToDecimal(1442349364) == "1442349364";
    AcceptRoundTrip(1442349364, clock, cache);
  }

  /** The cache-lifetime test: after `setOptions({cacheTTL: 60000})` and an
      accepted `now(true)` completing at `t0 != 0`, `now(false)` within a
      minute sends no second request. */
  lemma CacheTTLScenario(st: State, c1: int, c2: int, resp: Response, t0: int,
                         t1: int, t2: int, resp': Response, t3: int)
    requires Trustworthy(resp) && t0 != 0 && t1 - t0 < 60000
    ensures var opts := SetOptions(st.options, Obj(map["cacheTTL" := Num(60000)])).options;
            var (reply0, st1) := Now(State(opts, st.cache), Bool(true), c1, c2, resp, t0);
            var (reply1, st2) := Now(st1, Bool(false), t1, t2, resp', t3);
            reply0.request.Some? && reply1.request.None?
  {
    var opts := SetOptions(st.options, Obj(map["cacheTTL" := Num(60000)])).options;
    FetchThenCacheHit(State(opts, st.cache), Bool(true), c1, c2, resp, t0, Bool(false), t1, t2, resp', t3);
  }

  /** The plaintext test: after `setOptions({timeout: 60000, useHTTP: true})`
      a fetch targets the HTTP endpoint with a one-minute timeout. */
  lemma UseHTTPScenario(st: State, c1: int, c2: int, resp: Response, t0: int)
    ensures var opts := SetOptions(st.options, Obj(map["timeout" := Num(60000), "useHTTP" := Bool(true)])).options;
            Now(State(opts, st.cache), Bool(true), c1, c2, resp, t0).0.request
            == Some(RequestOptions("http://time.akamai.com", 60000))
  {
  }
}
