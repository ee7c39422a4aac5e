/** The library's options record, the `setOptions` entry point that
    validates and stores caller-supplied options field by field, and the
    request parameters derived from the current options. */
module Config {
  import opened Wrappers
  import opened JsValues

  /** The process-wide options: cache lifetime and transport timeout in
      milliseconds, and whether to use plaintext HTTP. */
  datatype Options = Options(cacheTTL: int, useHTTP: bool, timeout: int)

  /** The options in force before any call to `setOptions`. */
  const Initial: Options := Options(5000, false, 2000)

  /** Why `setOptions` threw. `NullOptions` is the TypeError the engine raises
      when `null`, which passes the `typeof` check, is asked for its own
      properties. */
  datatype OptionsError =
    | InvalidOptionsObject
    | NullOptions
    | InvalidCacheTTL
    | InvalidTimeout

  function ErrorMessage(e: OptionsError): string {
    match e
    case InvalidOptionsObject => "Invalid options object"
    case NullOptions => "Cannot read properties of null (reading 'hasOwnProperty')"
    case InvalidCacheTTL => "Invalid cacheTTL option value"
    case InvalidTimeout => "Invalid timeout option value"
  }

  /** Each way `setOptions` can throw has its own message. */
  lemma ErrorMessagesDistinct(e1: OptionsError, e2: OptionsError)
    ensures e1 != e2 ==> ErrorMessage(e1) != ErrorMessage(e2)
  {
    // The four messages already differ in length.
    assert e1 != e2 ==> |ErrorMessage(e1)| != |ErrorMessage(e2)|;
  }

  /** What a `setOptions` call leaves behind: what it returned or threw, and
      the options as they stand afterwards (written even when it threw). */
  datatype SetOutcome = SetOutcome(result: Result<Options, OptionsError>, options: Options)

  /** The argument carries `key` as an own property whose type is not number. */
  predicate BadNumber(input: JsValue, key: string) {
    HasOwn(input, key) && TypeOf(input.props[key]) != "number"
  }

  /** The numeric field `key` of `input` if present, else `current`. */
  function NumberOr(input: JsValue, key: string, current: int): int {
    if HasOwn(input, key) && input.props[key].Num? then input.props[key].n else current
  }

  /** An argument `setOptions` accepts without throwing, stated independently
      of the order of the checks: an object whose `cacheTTL` and `timeout`,
      where present, are numbers. */
  ghost predicate Acceptable(input: JsValue) {
    && input.Obj?
    && (forall key :: key in input.props && key in {"cacheTTL", "timeout"} ==> input.props[key].Num?)
  }

  /** `setOptions(input)`: checks the argument is an object, then handles
      `cacheTTL`, `timeout` and `useHTTP` in that order, writing each valid
      field before looking at the next one. */
  function SetOptions(current: Options, input: JsValue): (out: SetOutcome)
    ensures out.result.Success? <==> Acceptable(input)
    ensures out.result.Success? ==> out.result.value == out.options
    ensures !input.Obj? ==> out.options == current
    ensures out.options.cacheTTL == NumberOr(input, "cacheTTL", current.cacheTTL)
    ensures out.options.timeout ==
              (if BadNumber(input, "cacheTTL") then current.timeout
               else NumberOr(input, "timeout", current.timeout))
    ensures !input.Obj? && !input.Null? ==> out.result == Failure(InvalidOptionsObject)
    ensures input.Null? ==> out.result == Failure(NullOptions)
    ensures input.Obj? && BadNumber(input, "cacheTTL") ==> out.result == Failure(InvalidCacheTTL)
    ensures input.Obj? && !BadNumber(input, "cacheTTL") && BadNumber(input, "timeout") ==>
              out.result == Failure(InvalidTimeout)
    ensures out.options.useHTTP ==
              (if out.result.Success? && HasOwn(input, "useHTTP") then Truthy(input.props["useHTTP"])
               else current.useHTTP)
  {
    if TypeOf(input) != "object" then
      SetOutcome(Failure(InvalidOptionsObject), current)
    else if input.Null? then
      SetOutcome(Failure(NullOptions), current)
    else if BadNumber(input, "cacheTTL") then
      SetOutcome(Failure(InvalidCacheTTL), current)
    else
      var withTTL :=
        if HasOwn(input, "cacheTTL") then current.(cacheTTL := input.props["cacheTTL"].n) else current;
      if BadNumber(input, "timeout") then
        SetOutcome(Failure(InvalidTimeout), withTTL)
      else
        var withTimeout :=
          if HasOwn(input, "timeout") then withTTL.(timeout := input.props["timeout"].n) else withTTL;
        var withScheme :=
          if HasOwn(input, "useHTTP") then withTimeout.(useHTTP := Truthy(input.props["useHTTP"]))
          else withTimeout;
        SetOutcome(Success(withScheme), withScheme)
  }

  /** The transport parameters `_getRequestOptions` builds: the target URL and
      the timeout in milliseconds. */
  datatype RequestOptions = RequestOptions(url: string, timeout: int)

  const Host: string := "time.akamai.com"
  const HttpUrl: string := "http://" + Host
  const HttpsUrl: string := "https://" + Host

  /** The request for the current options: plaintext exactly when `useHTTP`
      is set, with the configured timeout. */
  function RequestOptionsFor(opts: Options): (r: RequestOptions)
    ensures r.url == "http://time.akamai.com" <==> opts.useHTTP
    ensures r.url == "https://time.akamai.com" <==> !opts.useHTTP
    ensures r.timeout == opts.timeout
  {
    RequestOptions(if opts.useHTTP then HttpUrl else HttpsUrl, opts.timeout)
  }
}
