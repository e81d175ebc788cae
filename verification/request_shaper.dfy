/** Shaping one request for the transport (src/browser.ts:69-98, 138):
    the header map with the same-origin marker and the JSON content type,
    the query string, and the body, which `form` overrides after `json`. */
module RequestShaper {

  import opened Wrappers
  import opened JsValues
  import opened RetryController

  /** The recognised fields of the caller's options object. A falsy
      `headers` is `None`; absent fields are `Undefined`, 0 or `false`. */
  datatype Options = Options(
    qs: Value,
    headers: Option<map<string, string>>,
    json: Value,
    form: Value,
    body: Value,
    timeout: nat,
    withCredentials: bool,
    retry: RetryOption,
    retryDelay: DelayOption,
    maxRetries: int)

  /** `{}`: an options object with no recognised field set. */
  const NoOptions: Options :=
    Options(Undefined, None, Undefined, Undefined, Undefined, 0, false,
            RetryFlag(Undefined), FixedDelay(Undefined), 0)

  /** What the request reads from its surroundings: the page's
      `location.host`, the query-string merger and `JSON.stringify`. */
  datatype Environment = Environment(
    pageHost: string,
    handleQs: (string, Value) -> string,
    stringify: Value -> Value)

  /** What is handed to the transport: `open(verb, url)`, one
      `setRequestHeader` per entry, the timeout, the credentials flag, and
      `send(body)` where `None` is `null`. */
  datatype Transmission = Transmission(
    verb: string,
    url: string,
    headers: map<string, string>,
    body: Option<Value>,
    timeout: nat,
    withCredentials: bool)

  /** The transmission, and the caller's options object as it is left
      afterwards (its `body` field is assigned to). */
  datatype Shaped = Shaped(request: Transmission, options: Options)

  const RequestedWith: string := "X-Requested-With"
  const ContentType: string := "Content-Type"

  /** A character of the scheme class `[\w-]`: an ASCII letter, a digit,
      `_` or `-`. */
  predicate IsWordChar(c: char) {
    ('a' <= c <= 'z') || ('A' <= c <= 'Z') || ('0' <= c <= '9') || c == '_' || c == '-'
  }

  /** The end of the longest run of `[\w-]` characters starting at `i`. */
  function WordRun(s: string, i: nat): (j: nat)
    requires i <= |s|
    ensures i <= j <= |s|
    ensures forall k :: i <= k < j ==> IsWordChar(s[k])
    ensures j < |s| ==> !IsWordChar(s[j])
    decreases |s| - i
  {
    if i < |s| && IsWordChar(s[i]) then WordRun(s, i + 1) else i
  }

  /** The end of the longest run of `[^\/]` characters starting at `i`. */
  function HostRun(s: string, i: nat): (j: nat)
    requires i <= |s|
    ensures i <= j <= |s|
    ensures forall k :: i <= k < j ==> s[k] != '/'
    ensures j < |s| ==> s[j] == '/'
    decreases |s| - i
  {
    if i < |s| && s[i] != '/' then HostRun(s, i + 1) else i
  }

  predicate SlashesAt(s: string, i: nat) {
    i + 2 <= |s| && s[i] == '/' && s[i + 1] == '/'
  }

  /** `match[2]` of `/^([\w-]+:)?\/\/([^\/]+)/.exec(url)`. A scheme group is
      a maximal `[\w-]` run followed by ':' (a shorter run is followed by
      another word character, never by ':'); without it the URL must start
      with "//"; the host group is the greedy, non-empty run of non-'/'
      characters after the slashes. */
  function HostMatch(url: string): (host: Option<string>) {
    var w := WordRun(url, 0);
    var start: Option<nat> :=
      if 0 < w < |url| && url[w] == ':' && SlashesAt(url, w + 1) then Some(w + 3)
      else if SlashesAt(url, 0) then Some(2)
      else None;
    match start
    case None => None
    case Some(p) =>
      var e := HostRun(url, p);
      if p < e then Some(url[p..e]) else None
  }

  /** The match `exec` returns for the pattern `^([\w-]+:)?\/\/([^\/]+)`,
      with the optional first group spelled `scheme` (empty when it did not
      take part) and the second group `host`: greedy, so it runs up to the
      next '/' or the end of the URL. */
  ghost predicate RegexMatch(url: string, scheme: string, host: string) {
    && (|scheme| == 0 || (
          && |scheme| >= 2 && scheme[|scheme| - 1] == ':'
          && forall i :: 0 <= i < |scheme| - 1 ==> IsWordChar(scheme[i])))
    && |host| > 0
    && (forall i :: 0 <= i < |host| ==> host[i] != '/')
    && |scheme| + 2 + |host| <= |url|
    && url[..|scheme|] == scheme
    && url[|scheme|] == '/' && url[|scheme| + 1] == '/'
    && url[|scheme| + 2..|scheme| + 2 + |host|] == host
    && (|scheme| + 2 + |host| == |url| || url[|scheme| + 2 + |host|] == '/')
  }

  /** Everything `HostMatch` returns is the regular expression's match. */
  lemma HostMatchIsRegexMatch(url: string)
    requires HostMatch(url).Some?
    ensures exists scheme :: RegexMatch(url, scheme, HostMatch(url).value)
  {
    var w := WordRun(url, 0);
    var host := HostMatch(url).value;
    if 0 < w < |url| && url[w] == ':' && SlashesAt(url, w + 1) {
      var scheme := url[..w + 1];
      assert url[w + 3..w + 3 + |host|] == host;
      assert RegexMatch(url, scheme, host);
    } else {
      assert RegexMatch(url, [], host);
    }
  }

  /** Whenever the regular expression matches, `HostMatch` returns its host
      group; so it returns `None` exactly when there is no match. */
  lemma RegexMatchIsHostMatch(url: string, scheme: string, host: string)
    requires RegexMatch(url, scheme, host)
    ensures HostMatch(url) == Some(host)
  {
    var p := |scheme| + 2;
    var w := WordRun(url, 0);
    if |scheme| == 0 {
      assert !IsWordChar(url[0]);
      assert w == 0;
    } else {
      assert url[|scheme| - 1] == scheme[|scheme| - 1] == ':';
      assert forall k :: 0 <= k < |scheme| - 1 ==> IsWordChar(url[k]) by {
        forall k | 0 <= k < |scheme| - 1
          ensures IsWordChar(url[k])
        {
          assert url[k] == url[..|scheme|][k];
        }
      }
      assert w == |scheme| - 1;
    }
    var e := HostRun(url, p);
    assert forall k :: p <= k < p + |host| ==> url[k] != '/' by {
      forall k | p <= k < p + |host|
        ensures url[k] != '/'
      {
        assert url[k] == url[p..p + |host|][k - p];
      }
    }
    assert e == p + |host|;
  }

  /** `crossDomain`: the URL names a host and it is not the page's host. */
  predicate CrossOrigin(url: string, pageHost: string) {
    HostMatch(url).Some? && HostMatch(url).value != pageHost
  }

  /** Cross-origin exactly when the pattern matches with a host group that
      differs from the page's host. */
  lemma CrossOriginIff(url: string, pageHost: string)
    ensures CrossOrigin(url, pageHost) <==>
      exists scheme, host :: RegexMatch(url, scheme, host) && host != pageHost
  {
    if CrossOrigin(url, pageHost) {
      HostMatchIsRegexMatch(url);
    }
    forall scheme, host | RegexMatch(url, scheme, host)
      ensures HostMatch(url) == Some(host)
    {
      RegexMatchIsHostMatch(url, scheme, host);
    }
  }

  /** The caller's header map, or an empty one when `headers` is falsy. */
  function CallerHeaders(o: Options): map<string, string> {
    if o.headers.Some? then o.headers.value else map[]
  }

  /** The body the options settle on: `form` when truthy, otherwise the
      serialised `json` when that is truthy, otherwise the caller's own
      `body`. */
  function Payload(o: Options, env: Environment): Value {
    if Truthy(o.form) then o.form
    else if Truthy(o.json) then env.stringify(o.json)
    else o.body
  }

  /** The steps of src/browser.ts:69-98 and 131-138 in order. The headers
      sent are the caller's entries plus `X-Requested-With: XMLHttpRequest`
      for a same-origin URL plus `Content-Type: application/json` for a
      truthy `json`, the added entries replacing only keys spelled exactly
      so; the URL gets the query string when `qs` is truthy; the body is
      `Payload`, written back into the caller's options and sent when
      truthy, `null` otherwise; method, timeout and credentials pass
      through. */
  function Shape(verb: string, url: string, o: Options, env: Environment): (r: Shaped)
    ensures r.request.verb == verb
    ensures r.request.timeout == o.timeout && r.request.withCredentials == o.withCredentials
    ensures Truthy(o.qs) ==> r.request.url == env.handleQs(url, o.qs)
    ensures !Truthy(o.qs) ==> r.request.url == url
    ensures !CrossOrigin(url, env.pageHost) ==>
      RequestedWith in r.request.headers && r.request.headers[RequestedWith] == "XMLHttpRequest"
    ensures Truthy(o.json) ==>
      ContentType in r.request.headers && r.request.headers[ContentType] == "application/json"
    ensures r.request.headers.Keys ==
      CallerHeaders(o).Keys
      + (if CrossOrigin(url, env.pageHost) then {} else {RequestedWith})
      + (if Truthy(o.json) then {ContentType} else {})
    ensures forall k :: k in CallerHeaders(o) ==>
      (k == RequestedWith && !CrossOrigin(url, env.pageHost)) ||
      (k == ContentType && Truthy(o.json)) ||
      r.request.headers[k] == CallerHeaders(o)[k]
    ensures r.request.body.Some? <==> Truthy(Payload(o, env))
    ensures r.request.body.Some? ==> r.request.body.value == Payload(o, env)
    ensures r.options == o.(body := Payload(o, env))
  {
    var given := CallerHeaders(o);
    var withMarker := if !CrossOrigin(url, env.pageHost) then given[RequestedWith := "XMLHttpRequest"] else given;
    var withQuery := if Truthy(o.qs) then env.handleQs(url, o.qs) else url;
    var withJsonBody := if Truthy(o.json) then o.(body := env.stringify(o.json)) else o;
    var withJsonType := if Truthy(o.json) then withMarker[ContentType := "application/json"] else withMarker;
    var withForm := if Truthy(o.form) then withJsonBody.(body := o.form) else withJsonBody;
    var sent := if Truthy(withForm.body) then Some(withForm.body) else None;
    Shaped(Transmission(verb, withQuery, withJsonType, sent, o.timeout, o.withCredentials), withForm)
  }
}
