# Browser request helper: request shaping, retry loop and header parsing

A Dafny model of the `request(method, url, options)` function of
`src/browser.ts` in the `then/request` library. The function wraps
`XMLHttpRequest` in a promise. The model keeps the four parts of it that are
pure logic and leaves the browser out:

- **argument checks and dispatch** (`BrowserRequest`). There are three type
  checks, each with its own `TypeError` message, and `null` options become
  `{}`. The method is upper-cased. Then the call either hands over to the
  retry loop, for a truthy `retry` on a `GET`, or shapes and sends one
  request.
- **request shaping** (`RequestShaper`). This covers:
  - the cross-origin test with the regular expression
    `^([\w-]+:)?\/\/([^\/]+)` against the page's host;
  - the `X-Requested-With` header for same-origin URLs;
  - the query string;
  - the JSON body and its forced `Content-Type`;
  - `form` overriding `json`;
  - the write-back into `options.body`;
  - `null` in place of a falsy body.
- **the retry loop** (`RetryController`). It makes a decision per attempt:
  - the default is an error or a status of 400 or more;
  - a caller predicate overrides that default, and is asked with the 1-based
    attempt number;
  - there is a hard ceiling of `maxRetries || 5`.

  The delay is `retryDelay`, fixed or computed, with a falsy delay becoming
  200. A run is driven by the sequence of outcomes the attempts receive and
  settles with the last attempt's outcome, unchanged.
- **the response-header parser** (`ResponseNormalizer`). It splits the raw
  blob on CR LF and each line on `:`. The name is lower-cased and the value
  is re-joined and trimmed. Lines without a colon are skipped, and the last
  occurrence of a name wins.

The supporting modules are `Wrappers` (`Option`), `JsValues` (the JavaScript
values an option may hold, and their truthiness) and `Text` (JavaScript's
`toLowerCase`/`toUpperCase` on ASCII, `trim`, `split` and `join`). `trim`
removes exactly ECMAScript's WhiteSpace and LineTerminator code points.

These are parameters of the model, in `RequestShaper.Environment`:

- the page's `location.host`;
- the query-string merger `handleQs`;
- `JSON.stringify`.

The retry predicate and delay function are function-typed fields of the
options. The transport is abstract: an attempt's outcome is either an error
(a timeout with its duration, or an opaque error the transport raises) or a
`Response`.

Behaviour of the code a reader may not expect:

- The method is only checked to be a string. It is never checked to be
  non-empty.
- The caller's `options.body` is assigned to (`Shape` returns the options as
  left afterwards).
- The JSON `Content-Type` replaces only a key spelled exactly `Content-Type`.
  A caller's `content-type` stays alongside it.
- `maxRetries: 0` means 5 retries, because of `||`. So `maxRetries + 1`
  bounds the attempts only for a positive `maxRetries`.
- An attempt of the retry loop gets only the caller's `qs`, `headers` and
  `timeout`.

## Model

| member | source | states |
|---|---|---|
| `BrowserRequest.Request` | src/browser.ts:21-34 | The call is rejected exactly when the method or URL is not a string or the options are neither nullish nor an object. The checks run in that order, each with its own message. Only a valid call is shaped or retried. `null`/`undefined` options act as `{}`. The retry loop is entered exactly when `retry` asks for it (`RetryRequested`: a truthy flag or a predicate) with an upper-cased method equal to "GET", and its attempts send the narrowed request. Otherwise the upper-cased request is shaped and sent once. |
| `BrowserRequest.Narrow` | src/browser.ts:38-42 | An attempt's options keep `qs`, `headers` and `timeout`. They carry no truthy `retry`, `json`, `form` or `body`, and no credentials flag. |
| `BrowserRequest.AttemptIsPlainRequest` | src/browser.ts:37-42 | Each attempt is itself a `request` with the upper-cased method and the narrowed options. That call is sent once and never starts its own retry loop, and it sends exactly the attempt's transmission. |
| `BrowserRequest.AttemptDropsBody` | src/browser.ts:38-42 | A retried attempt sends a `null` body and no credentials flag. A `Content-Type` appears only if the caller's own headers had one. |
| `BrowserRequest.RetriedGetExample` | src/browser.ts:43-66 | A lower-case `get` with `{retry: true, maxRetries: 2, retryDelay: 10}` whose first two attempts fail retries twice, 10 ms apart each time, then resolves with the third attempt's response. |
| `BrowserRequest.PostJsonExample` | src/browser.ts:65-98 | A `POST` with a truthy `json` is sent once, not retried, with the serialised body and `Content-Type: application/json`. |
| `RequestShaper.Shape` | src/browser.ts:69-98 | The sent headers are the caller's entries (`CallerHeaders`: an empty map for falsy `headers`) plus `X-Requested-With: XMLHttpRequest` when not cross-origin, plus `Content-Type: application/json` when `json` is truthy. The two added keys replace only exact spellings, and every other caller entry is kept unchanged. The URL gets the query string exactly when `qs` is truthy. The body (`Payload`) is `form` if truthy, else the serialised `json` if truthy, else the caller's `body`. That body is written back into the caller's options and sent when truthy, `null` otherwise. Method, timeout and credentials pass through. |
| `RequestShaper.CrossOriginIff` | src/browser.ts:74 | `CrossOrigin`, built on the matcher `HostMatch`, holds exactly when the pattern `^([\w-]+:)?\/\/([^\/]+)` matches the URL with a host group different from the page's host. |
| `RequestShaper.HostMatchIsRegexMatch` | src/browser.ts:74 | Every host the matcher returns comes from a match of the pattern: an optional word-character scheme with ':', then "//", then a greedy non-empty run of non-'/' characters. |
| `RequestShaper.RegexMatchIsHostMatch` | src/browser.ts:74 | Whenever the pattern matches, the matcher returns that match's host group. So it reports no host exactly when the pattern does not match. |
| `RetryController.Settle` | src/browser.ts:60-61 | A chain rejects exactly when the attempt it settles on failed, with that error, and otherwise resolves with that attempt's response, unchanged. |
| `RetryController.Ceiling` | src/browser.ts:47 | The ceiling is the caller's `maxRetries`, except that 0 becomes 5, so the ceiling is never 0. |
| `JsValues.Or` | src/browser.ts:55 | `a \|\| b` is `a` when it is truthy and `b` otherwise, and it is truthy exactly when either operand is. |
| `RetryController.ShouldRetry` | src/browser.ts:43-49 | After attempt `n`, the loop never retries once `n >= (maxRetries \|\| 5)`. Below that, a caller predicate decides when there is one, asked with the 1-based attempt number `n + 1`. Otherwise it retries exactly on the default verdict `FailureLike`: an error or a status of 400 or more. |
| `RetryController.RetryDelay` | src/browser.ts:51-55 | The delay is always truthy. It is the fixed `retryDelay`, or the function's result for attempt number `n + 1`, when that value is truthy, and 200 otherwise. |
| `RetryController.RunFrom` | src/browser.ts:37-63 | From attempt `n`, exactly the attempts listed in the run were retried, each after its computed delay, and no retry was scheduled at or past the ceiling. The chain then settles with the outcome of the first attempt not retried, or is still waiting when the outcomes run out. |
| `RetryController.RunChain` | src/browser.ts:47-66 | A chain makes at most `MaxAttempts` attempts, the first one plus fewer than `MaxAttempts` retries. `MaxAttempts` is `(maxRetries \|\| 5) + 1`, or 1 when that ceiling is negative. The chain has settled once that many outcomes have arrived. It settles by rejecting with the last attempt's error or resolving with its response, unchanged. |
| `RetryController.AllFailingReachesCeiling` | src/browser.ts:43-49 | With the default verdict and every attempt failing, the chain makes exactly `MaxAttempts` attempts and settles with the last one. |
| `RetryController.FirstRefusalSettlesAtOnce` | src/browser.ts:44-46 | A caller predicate that refuses the first outcome ends the chain after one attempt, with that outcome. |
| `RetryController.ZeroMaxRetriesActsAsFive` | src/browser.ts:47 | A chain with `maxRetries: 0` runs exactly like one with `maxRetries: 5`. |
| `ResponseNormalizer.ParseLine` | src/browser.ts:120-122 | A line yields a header exactly when it contains a colon. |
| `ResponseNormalizer.ParseLineAtFirstColon` | src/browser.ts:120-122 | Splitting on every colon and re-joining the tail is the same as cutting at the first colon. The name is the lower-cased text before that colon. The value is the trimmed text after it, later colons included. |
| `ResponseNormalizer.ParseHeaders` | src/browser.ts:118-124 | Every parsed header name is free of upper-case ASCII letters, and every value has nothing left to trim. |
| `ResponseNormalizer.ParsedValueTrimmed` | src/browser.ts:122 | A value taken from a line is already trimmed. |
| `ResponseNormalizer.Normalize` | src/browser.ts:125 | A response carries the transport's status, text and the requested URL, and exactly the headers `ParseHeaders` reads from the raw blob: lower-case names and trimmed values, whose contents the `Collect` lemmas below pin down. |
| `ResponseNormalizer.CollectedNameOccurs` | src/browser.ts:119-123 | Every header in the map that `Collect` builds from the parsed lines was named by some line. |
| `ResponseNormalizer.NamedEntryCollected` | src/browser.ts:119-123 | Every line with a colon puts its name in the map. |
| `ResponseNormalizer.LastOccurrenceWins` | src/browser.ts:119-123 | A repeated name keeps the value of the last line naming it. |
| `ResponseNormalizer.LineWithoutColonSkipped` | src/browser.ts:121 | A line without a colon, such as the blank line after a trailing CR LF, changes nothing. |
| `ResponseNormalizer.ParseHeadersOfLines` | src/browser.ts:119 | For lines that hold no CR LF (a lone CR is allowed), parsing them joined with CR LF gives the same result as parsing those lines one by one and folding them with `Collect`. |
| `Text.Split` | src/browser.ts:119-120 | `split` gives at least one piece, and joining the pieces with the separator (`Join`) gives the input back. No piece contains the separator. There is more than one piece exactly when the separator occurs, and then the first piece is the text before its first occurrence. |
| `Text.SplitJoin` | src/browser.ts:119-122 | Splitting pieces that were joined with a non-self-overlapping separator (CR LF, or ':') gives the pieces back, when no piece contains the separator. |
| `Text.FindCharIsFirstIndex` | src/browser.ts:120-121 | For a one-character separator, the first occurrence is the first index holding that character, and there is none exactly when the character is absent. |
| `Text.ToLower` | src/browser.ts:122 | Lower-casing keeps the length, maps each character on its own, and leaves no upper-case ASCII letter. |
| `Text.ToUpper` | src/browser.ts:34 | Upper-casing keeps the length, maps each character on its own, and leaves no lower-case ASCII letter. |
| `Text.ToUpperIdempotent` | src/browser.ts:34-38 | Upper-casing twice is upper-casing once, so an attempt's repeated upper-casing of the method changes nothing. |
| `Text.Trim` | src/browser.ts:122 | `trim` gives the slice of the input after its leading whitespace, with only whitespace after the slice. The result neither starts nor ends with whitespace. |
| `Text.TrimIdempotent` | src/browser.ts:122 | Trimming a trimmed string changes nothing. |

## Left out

- The `XMLHttpRequest` transport (src/browser.ts:17, 116-117, 125-135) is left out: `open`, `setRequestHeader`, `send`, `readyState` and reading status and text. An attempt's outcome is an abstract `Outcome`, and a run is driven by a sequence of them.
- Timeouts (src/browser.ts:100-110) are left out: `Date.now`, `xhr.timeout` and `ontimeout`. Only the resulting error is kept, as `Timeout(duration)`. Which of the timeout and completion callbacks fires first is up to the transport and is not modelled.
- Promises and scheduling are left out: `Promise`, `nodeify`, `toResponsePromise` and `setTimeout` (src/browser.ts:6-8, 42, 56-58). A retry's delay is returned as a value, and the continuation is the next step of `RunFrom`.
- `handleQs`, `JSON.stringify` and `GenericResponse` (src/browser.ts:5, 10, 84, 89, 125) are code outside this model. The first two are function parameters, and the response is a plain datatype.
- `withCredentials` (src/browser.ts:112-114) is only passed through to the transport as a flag.
- The `FormData` re-export and the module exports (src/browser.ts:142-148) are packaging.
- Numbers are integers. NaN, `-0`, fractions and non-numeric `maxRetries` are not modelled; an absent `maxRetries` is 0, which is falsy just like `undefined`. `setTimeout`'s conversion of a non-numeric delay is left to the scheduler, which is not modelled.
- A caller's retry predicate returns a boolean, i.e. its result after truthiness has been applied.
- A failed network exchange is not an error outcome. The code has no `onerror` handler and resolves on every `readyState === 4` (src/browser.ts:116-127). Under the XMLHttpRequest standard a failed exchange also ends in that state with status 0, so it arrives as a `Succeeded` response with the transport's status. The default verdict (src/browser.ts:43) then does not retry it. `Failed` outcomes cover timeouts and other errors only.
- Caller callbacks and helpers are assumed not to throw. A `retry` predicate or `retryDelay` function that throws (src/browser.ts:45, 53) does so inside the transport callback, before the only `reject`/`resolve` (60-61), so the chain never settles. `RunChain`'s "settled once `MaxAttempts` outcomes have arrived" then no longer holds. A throwing `handleQs` or `JSON.stringify` (84, 89) rejects the call with that error, where `Request` returns `Sent`.
- Strings are sequences of Unicode scalar values rather than UTF-16 code units.
- Case mapping covers ASCII letters only. Full Unicode case mapping, which can change a string's length, is not modelled.
- Header maps are Dafny maps. The iteration order of `for (name in headers)` is not modelled, and neither is the special `__proto__` key of a JavaScript object. A truthy non-object `headers` value is not modelled.
- A run over a fixed outcome sequence cannot express outcomes that depend on the request sent.
- The caller's options object is assumed not to change while a retry chain runs. Each attempt re-reads `options.qs`, `headers` and `timeout` (src/browser.ts:38-41), and each verdict re-reads `retry`, `maxRetries` and `retryDelay` (src/browser.ts:44-53). A `retry` or `retryDelay` callback that changes `options.headers`, for example to refresh a token, would change what later attempts send. `Retrying` fixes one transmission and one configuration for the whole chain.
