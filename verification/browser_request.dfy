/** The entry point `request(method, url, options)` of src/browser.ts:
    argument checks, upper-casing the method, and the choice between one
    shaped exchange and the retry loop, whose attempts are plain requests
    with narrowed options. */
module BrowserRequest {

  import opened Wrappers
  import opened JsValues
  import opened Text
  import opened ResponseNormalizer
  import opened RetryController
  import opened RequestShaper

  /** The third argument: `null`/`undefined`, an object, or anything else
      (a number, string, boolean or function). */
  datatype OptionsArg = NullOrUndefined | AnObject(options: Options) | NotAnObject

  /** The `TypeError` the promise rejects with when an argument is wrong. */
  datatype TypeError = TypeError(message: string)

  const MethodNotString: string := "The method must be a string."
  const UrlNotString: string := "The URL/path must be a string."
  const OptionsNotObject: string := "Options must be an object (or null)."

  /** What one call to `request` does: reject at once, send one shaped
      request, or hand over to the retry loop, each of whose attempts
      sends `attempt`. */
  datatype Call =
    | Invalid(error: TypeError)
    | Sent(shaped: Shaped)
    | Retrying(attempt: Transmission, config: RetryConfig)

  /** The options an attempt of the retry loop passes on: the caller's query
      string, headers and timeout, and nothing else. */
  function Narrow(o: Options): (n: Options)
    ensures n.qs == o.qs && n.headers == o.headers && n.timeout == o.timeout
    ensures !RetryRequested(n.retry)
    ensures !Truthy(n.json) && !Truthy(n.form) && !Truthy(n.body) && !n.withCredentials
  {
    NoOptions.(qs := o.qs, headers := o.headers, timeout := o.timeout)
  }

  /** The fields the retry loop reads from the original options. */
  function ConfigOf(o: Options): RetryConfig {
    RetryConfig(o.retry, o.retryDelay, o.maxRetries)
  }

  /** The options object after `if (options == null) options = {}`. */
  function OptionsOf(options: OptionsArg): Options
    requires !options.NotAnObject?
  {
    if options.AnObject? then options.options else NoOptions
  }

  /** `request(method, url, options)`. The three type checks come first, in
      order, and a failing one rejects with its own message before any
      shaping; `null`/`undefined` options count as `{}`. A truthy `retry`
      with an upper-cased method of exactly "GET" hands over to the retry
      loop, whose every attempt is a request with the narrowed options;
      everything else is shaped and sent once with the upper-cased
      method. */
  function Request(verb: Value, url: Value, options: OptionsArg, env: Environment): (c: Call)
    ensures c.Invalid? <==> !verb.Str? || !url.Str? || options.NotAnObject?
    ensures !verb.Str? ==> c == Invalid(TypeError(MethodNotString))
    ensures verb.Str? && !url.Str? ==> c == Invalid(TypeError(UrlNotString))
    ensures verb.Str? && url.Str? && options.NotAnObject? ==> c == Invalid(TypeError(OptionsNotObject))
    ensures c.Retrying? <==>
      && !c.Invalid?
      && RetryRequested(OptionsOf(options).retry)
      && ToUpper(verb.s) == "GET"
    ensures c.Retrying? ==>
      && c.attempt == Shape(ToUpper(verb.s), url.s, Narrow(OptionsOf(options)), env).request
      && c.config == ConfigOf(OptionsOf(options))
    ensures c.Sent? ==> c.shaped == Shape(ToUpper(verb.s), url.s, OptionsOf(options), env)
  {
    if !verb.Str? then Invalid(TypeError(MethodNotString))
    else if !url.Str? then Invalid(TypeError(UrlNotString))
    else if options.NotAnObject? then Invalid(TypeError(OptionsNotObject))
    else
      var o := OptionsOf(options);
      var upper := ToUpper(verb.s);
      if RetryRequested(o.retry) && upper == "GET" then
        Retrying(Shape(upper, url.s, Narrow(o), env).request, ConfigOf(o))
      else Sent(Shape(upper, url.s, o, env))
  }

  /** Each attempt of the retry loop is `request(method, url, narrowed)`
      with the already upper-cased method: that call is sent once and
      never starts a retry loop of its own. */
  lemma {:induction false} AttemptIsPlainRequest(verb: string, url: string, options: OptionsArg, env: Environment)
    requires Request(Str(verb), Str(url), options, env).Retrying?
    ensures var c := Request(Str(verb), Str(url), options, env);
      var inner := Request(Str(ToUpper(verb)), Str(url), AnObject(Narrow(OptionsOf(options))), env);
      inner.Sent? && inner.shaped.request == c.attempt
  {
    ToUpperIdempotent(verb);
  }

  /** A retried attempt carries no body, no forced JSON content type and
      no credentials flag, whatever `json`, `form`, `body` and
      `withCredentials` the caller gave. */
  lemma AttemptDropsBody(verb: Value, url: Value, options: OptionsArg, env: Environment)
    requires Request(verb, url, options, env).Retrying?
    ensures var a := Request(verb, url, options, env).attempt;
      && a.body.None?
      && !a.withCredentials
      && (ContentType in a.headers ==> ContentType in CallerHeaders(OptionsOf(options)))
  {
  }

  /** The example of a GET with `{retry: true, maxRetries: 2,
      retryDelay: 10}` whose first two attempts fail: two retries 10 ms
      apart, then the third attempt's response resolves the call. */
  lemma RetriedGetExample(env: Environment, e1: AttemptError, e2: AttemptError, ok: Response)
    requires ok.statusCode < 400
    ensures var o := NoOptions.(retry := RetryFlag(Bool(true)), retryDelay := FixedDelay(Number(10)), maxRetries := 2);
      var c := Request(Str("get"), Str("/api"), AnObject(o), env);
      && c.Retrying?
      && RunChain(c.config, [Failed(e1), Failed(e2), Succeeded(ok)]) == Run([Number(10), Number(10)], Some(Resolved(ok)))
  {
    var o := NoOptions.(retry := RetryFlag(Bool(true)), retryDelay := FixedDelay(Number(10)), maxRetries := 2);
    assert ToUpper("get") == "GET";
    var cfg := ConfigOf(o);
    var outcomes := [Failed(e1), Failed(e2), Succeeded(ok)];
    assert RunFrom(cfg, outcomes, 2) == Run([], Some(Resolved(ok)));
    assert RunFrom(cfg, outcomes, 1) == Run([Number(10)], Some(Resolved(ok)));
  }

  /** The example of a POST with a JSON body: sent once with the
      serialised body and the JSON content type, so never retried whatever
      its status. */
  lemma PostJsonExample(env: Environment, json: Value)
    requires Truthy(json) && env.stringify(json) == Str("{\"a\":1}")
    ensures var c := Request(Str("POST"), Str("/api"), AnObject(NoOptions.(json := json)), env);
      && c.Sent?
      && c.shaped.request.body == Some(Str("{\"a\":1}"))
      && c.shaped.request.headers[ContentType] == "application/json"
  {
  }
}
