/** The time resolver: validation of the time server's answer, the cache
    update on acceptance, and the `now(skipCache)` dispatch between the
    cached reference point and a fresh fetch. */
module Resolver {
  import opened Wrappers
  import opened JsValues
  import opened Decimal
  import opened Config
  import opened CacheStore

  /** What the transport hands to the request callback: either an error, or
      a response with its status code, its `Server` header (absent when the
      response carries none, or no headers at all) and its body. */
  datatype Response =
    | TransportErr(cause: string)
    | Resp(statusCode: int, server: Option<string>, body: string)

  /** Why a fetch was rejected, in the order the checks run. */
  datatype FetchError =
    | RequestError(cause: string)
    | HttpError(statusCode: int)
    | NotAkamaiServer
    | InvalidPayload

  /** The exact `Server` header value of the authoritative time server. */
  const AkamaiServer: string := "Akamai/Time Server"

  const HttpErrorPrefix: string := "HTTP error, status code : "
  const RequestErrorPrefix: string := "Request error : "
  const InvalidReturnPrefix: string := "Invalid return from "

  /** The message of the Error a rejected fetch carries. */
  function FetchMessage(e: FetchError): string {
    match e
    case RequestError(cause) => RequestErrorPrefix + cause
    case HttpError(code) => HttpErrorPrefix + IntToString(code)
    case NotAkamaiServer => InvalidReturnPrefix + "server of not Akamai Time Server"
    case InvalidPayload => InvalidReturnPrefix + "Akamai Time Server"
  }

  lemma MessageFirstChar(e: FetchError)
    ensures |FetchMessage(e)| > 0
    ensures FetchMessage(e)[0] == match e
      case RequestError(_) => 'R'
      case HttpError(_) => 'H'
      case _ => 'I'
  {
  }

  /** Distinct rejections carry distinct messages, so the message alone
      tells which check failed and, for an HTTP rejection, which status. */
  lemma FetchMessagesDistinct(e1: FetchError, e2: FetchError)
    ensures e1 != e2 ==> FetchMessage(e1) != FetchMessage(e2)
  {
    if e1.RequestError? && e2.RequestError? {
      assert FetchMessage(e1)[|RequestErrorPrefix|..] == e1.cause;
      assert FetchMessage(e2)[|RequestErrorPrefix|..] == e2.cause;
    } else if e1.HttpError? && e2.HttpError? {
      assert FetchMessage(e1)[|HttpErrorPrefix|..] == IntToString(e1.statusCode);
      assert FetchMessage(e2)[|HttpErrorPrefix|..] == IntToString(e2.statusCode);
      IntToStringInjective(e1.statusCode, e2.statusCode);
    } else if (e1.NotAkamaiServer? || e1.InvalidPayload?) && (e2.NotAkamaiServer? || e2.InvalidPayload?) {
      assert e1 != e2 ==> |FetchMessage(e1)| != |FetchMessage(e2)|;
    } else {
      MessageFirstChar(e1);
      MessageFirstChar(e2);
    }
  }

  /** The message of an HTTP rejection names the status code: what follows
      the fixed prefix reads back as the code. */
  lemma {:induction false} HttpErrorMessageNamesStatus(code: nat)
    ensures |FetchMessage(HttpError(code))| > |HttpErrorPrefix|
    ensures var digits := FetchMessage(HttpError(code))[|HttpErrorPrefix|..];
            AllDigits(digits) && Value(digits) == code
  {
    var digits := FetchMessage(HttpError(code))[|HttpErrorPrefix|..];
    assert digits == ToDecimal(code);
    ValueOfToDecimal(code);
  }

  /** A response the library trusts, stated as the conjunction of all checks
      rather than as the sequence that performs them. */
  ghost predicate Trustworthy(resp: Response) {
    && resp.Resp?
    && resp.statusCode == 200
    && resp.server == Some(AkamaiServer)
    && |resp.body| > 0
    && AllDigits(resp.body)
  }

  /** What the request callback settles on, and the cache it leaves. */
  datatype Accepted = Accepted(result: Result<int, FetchError>, cache: Cache)

  /** The request callback of `_getNow`, with the clock read at
      `clockAtCompletion`: the checks run in order and the first failure
      rejects; an accepted body is seconds, resolved as milliseconds and
      stored together with the completion clock reading. */
  function Accept(resp: Response, clockAtCompletion: int, cache: Cache): (a: Accepted)
    ensures a.result.Success? <==> Trustworthy(resp)
    ensures a.result.Failure? ==> a.cache == cache
    ensures a.result.Success? ==>
              && a.result.value == 1000 * Value(resp.body)
              && a.cache == Cache(clockAtCompletion, a.result.value)
  {
    match resp
    case TransportErr(cause) =>
      Accepted(Failure(RequestError(cause)), cache)
    case Resp(status, server, body) =>
      if status != 200 then
        Accepted(Failure(HttpError(status)), cache)
      else if server != Some(AkamaiServer) then
        Accepted(Failure(NotAkamaiServer), cache)
      else if !MatchesDigitPattern(body) then
        Accepted(Failure(InvalidPayload), cache)
      else
        var akamaiTimestamp := Value(body) * 1000;
        Accepted(Success(akamaiTimestamp), Replace(clockAtCompletion, akamaiTimestamp))
  }

  /** The first failing check decides the rejection: a transport error before
      anything else, then the status, then the server identity, then the
      body. */
  lemma AcceptFirstFailureDecides(resp: Response, clock: int, cache: Cache)
    ensures var r := Accept(resp, clock, cache).result;
      && (resp.TransportErr? ==> r == Failure(RequestError(resp.cause)))
      && (resp.Resp? && resp.statusCode != 200 ==> r == Failure(HttpError(resp.statusCode)))
      && (resp.Resp? && resp.statusCode == 200 && resp.server != Some(AkamaiServer) ==>
            r == Failure(NotAkamaiServer))
      && (resp.Resp? && resp.statusCode == 200 && resp.server == Some(AkamaiServer) ==>
            (r == Failure(InvalidPayload) <==> !(|resp.body| > 0 && AllDigits(resp.body))))
  {
  }

  /** A well-formed answer carrying the decimal rendering of `seconds`
      resolves to exactly that many seconds, in milliseconds, and becomes the
      new reference point. */
  lemma {:induction false} AcceptRoundTrip(seconds: nat, clock: int, cache: Cache)
    ensures Accept(Resp(200, Some(AkamaiServer), ToDecimal(seconds)), clock, cache)
            == Accepted(Success(seconds * 1000), Cache(clock, seconds * 1000))
  {
    ValueOfToDecimal(seconds);
  }

  /** The library's whole mutable state. */
  datatype State = State(options: Options, cache: Cache)

  /** The state when the module is first loaded. */
  const Start: State := State(Config.Initial, CacheStore.Empty)

  /** The branch a `now` call takes. */
  datatype Route = FromCache(ms: int) | FromNetwork(request: RequestOptions)

  /** The conditional in `now(skipCache)`. The cache path reads the clock
      twice: once for the freshness test (`clockAtCheck`) and once more for
      the extrapolation (`clockAtRead`). */
  function Dispatch(st: State, skipCache: JsValue, clockAtCheck: int, clockAtRead: int): (r: Route)
    ensures r.FromCache? <==>
              !Truthy(skipCache) && HasEntry(st.cache) &&
              clockAtCheck - st.cache.localTimestamp < st.options.cacheTTL
    ensures r.FromCache? ==>
              r.ms == st.cache.akamaiTimestamp + (clockAtRead - st.cache.localTimestamp)
    ensures r.FromNetwork? ==> r.request == RequestOptionsFor(st.options)
  {
    if ShouldUseCache(st.cache, st.options.cacheTTL, skipCache, clockAtCheck) then
      FromCache(CachedNow(st.cache, clockAtRead))
    else
      FromNetwork(RequestOptionsFor(st.options))
  }

  /** How a `now` call settles, and the request it sent, if any. */
  datatype Reply = Reply(result: Result<int, FetchError>, request: Option<RequestOptions>)

  /** A whole `now(skipCache)` call. `resp` and `clockAtCompletion` are what
      the transport and the clock would deliver if a request is sent. */
  function Now(st: State, skipCache: JsValue, clockAtCheck: int, clockAtRead: int,
               resp: Response, clockAtCompletion: int): (out: (Reply, State))
    ensures out.1.options == st.options
    ensures out.0.request.None? <==>
              ShouldUseCache(st.cache, st.options.cacheTTL, skipCache, clockAtCheck)
    ensures out.0.request.None? ==>
              && out.1 == st
              && out.0.result == Success(st.cache.akamaiTimestamp + (clockAtRead - st.cache.localTimestamp))
    ensures out.0.request.Some? ==>
              && out.0.request.value == RequestOptionsFor(st.options)
              && (out.0.result.Success? <==> Trustworthy(resp))
              && (out.0.result.Failure? ==> out.1 == st)
              && out.0.result == Accept(resp, clockAtCompletion, st.cache).result
              && (out.0.result.Success? ==> out.0.result.value == 1000 * Value(resp.body))
              && (out.0.result.Success? ==> out.1.cache == Cache(clockAtCompletion, out.0.result.value))
    ensures out.1.cache != st.cache ==> out.0.request.Some? && out.0.result.Success?
  {
    match Dispatch(st, skipCache, clockAtCheck, clockAtRead)
    case FromCache(ms) =>
      (Reply(Success(ms), None), st)
    case FromNetwork(request) =>
      var a := Accept(resp, clockAtCompletion, st.cache);
      (Reply(a.result, Some(request)), st.(cache := a.cache))
  }
}
