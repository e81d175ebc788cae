/** The retry loop of a GET request (src/browser.ts:37-67): attempt `n`
    looks at its outcome, decides whether to try again, and either
    schedules attempt `n + 1` after a delay or settles the caller's promise
    with that outcome. The transport is abstract: a run is driven by the
    sequence of outcomes the attempts receive, in order. */
module RetryController {

  import opened Wrappers
  import opened JsValues
  import opened ResponseNormalizer

  /** What a failed attempt rejects with: a timeout error carries the
      `timeout` marker (implied by the constructor) and its duration in
      milliseconds; any other error is opaque. */
  datatype AttemptError = Timeout(duration: int) | OtherError(id: nat)

  /** What `nodeify` hands the continuation: an error, or a response. */
  datatype Outcome = Failed(error: AttemptError) | Succeeded(response: Response)

  /** `options.retry`: a plain value, used for its truthiness, or a
      function deciding from `(err, res, attemptNumber)`. */
  datatype RetryOption =
    | RetryFlag(flag: Value)
    | RetryPredicate(decide: (Outcome, nat) -> bool)

  /** `options.retryDelay`: a fixed value or a function of
      `(err, res, attemptNumber)`. */
  datatype DelayOption =
    | FixedDelay(delay: Value)
    | DelayFunction(compute: (Outcome, nat) -> Value)

  /** The options the loop reads. An absent `maxRetries` is 0: both are
      falsy, which is all the loop looks at. */
  datatype RetryConfig = RetryConfig(retry: RetryOption, retryDelay: DelayOption, maxRetries: int)

  /** How the caller's promise ends. */
  datatype Settlement = Rejected(error: AttemptError) | Resolved(response: Response)

  /** A run of the loop: the delay scheduled after each attempt that was
      retried, and the settlement, if the chain has settled. Attempt
      `|delays|` is always the last one issued. */
  datatype Run = Run(delays: seq<Value>, settled: Option<Settlement>)

  /** Whether the `retry` option asks for retrying at all: a truthy flag, or
      any predicate. */
  predicate RetryRequested(r: RetryOption) {
    match r
    case RetryFlag(v) => Truthy(v)
    case RetryPredicate(_) => true
  }

  /** The retry ceiling: the caller's `maxRetries`, with 0 (falsy) replaced
      by the default of 5, so the ceiling is never 0. */
  function Ceiling(maxRetries: int): (c: int)
    ensures maxRetries == 0 ==> c == 5
    ensures maxRetries != 0 ==> c == maxRetries
    ensures c != 0
  {
    if maxRetries != 0 then maxRetries else 5
  }

  /** The most attempts a chain ever issues: the first one plus at most
      `Ceiling` retries (none when the ceiling is negative). */
  function MaxAttempts(maxRetries: int): (k: nat)
    ensures k >= 1
  {
    var c := Ceiling(maxRetries);
    if c > 0 then c + 1 else 1
  }

  /** The default verdict when the caller gives no predicate: the attempt
      failed with an error, or its response has a status of 400 or more. */
  predicate FailureLike(o: Outcome) {
    o.Failed? || o.response.statusCode >= 400
  }

  /** The retry decision after attempt `n` (0-based). Below the ceiling it
      is the caller's predicate, asked with the 1-based attempt number
      `n + 1`, when there is one, and the default verdict otherwise; at or
      above the ceiling it is always false. */
  function ShouldRetry(cfg: RetryConfig, o: Outcome, n: nat): (retry: bool)
    ensures n >= Ceiling(cfg.maxRetries) ==> !retry
    ensures n < Ceiling(cfg.maxRetries) && cfg.retry.RetryPredicate? ==>
      (retry <==> cfg.retry.decide(o, n + 1))
    ensures n < Ceiling(cfg.maxRetries) && cfg.retry.RetryFlag? ==>
      (retry <==> FailureLike(o))
  {
    var byDefault := FailureLike(o);
    var verdict := if cfg.retry.RetryPredicate? then cfg.retry.decide(o, n + 1) else byDefault;
    if n >= Ceiling(cfg.maxRetries) then false else verdict
  }

  /** The delay before attempt `n + 1`: `retryDelay` itself, or its result
      for `(err, res, n + 1)` when it is a function; a falsy delay becomes
      200 ms. */
  function RetryDelay(cfg: RetryConfig, o: Outcome, n: nat): (d: Value)
    ensures Truthy(d)
    ensures cfg.retryDelay.FixedDelay? && Truthy(cfg.retryDelay.delay) ==> d == cfg.retryDelay.delay
    ensures cfg.retryDelay.DelayFunction? && Truthy(cfg.retryDelay.compute(o, n + 1)) ==>
      d == cfg.retryDelay.compute(o, n + 1)
    ensures cfg.retryDelay.FixedDelay? && !Truthy(cfg.retryDelay.delay) ==> d == Number(200)
    ensures cfg.retryDelay.DelayFunction? && !Truthy(cfg.retryDelay.compute(o, n + 1)) ==>
      d == Number(200)
  {
    var delay := match cfg.retryDelay
      case FixedDelay(v) => v
      case DelayFunction(f) => f(o, n + 1);
    Or(delay, Number(200))
  }

  /** How a chain settles on an attempt it does not retry: it rejects with
      that attempt's error, or resolves with its response, unchanged. */
  function Settle(o: Outcome): (s: Settlement)
    ensures o.Failed? <==> s.Rejected?
    ensures o.Failed? ==> s.error == o.error
    ensures o.Succeeded? ==> s.response == o.response
  {
    match o
    case Failed(e) => Rejected(e)
    case Succeeded(r) => Resolved(r)
  }

  /** The loop from attempt `n` on, where `outcomes[k]` is what attempt `k`
      receives. Attempt `n + i` is retried exactly for the `i` in
      `0..|delays|`, each after its computed delay; the chain then either
      settles with the outcome of the attempt that was not retried,
      unchanged, or is still waiting on an attempt the outcomes do not
      cover. No attempt past the ceiling is ever scheduled. */
  function RunFrom(cfg: RetryConfig, outcomes: seq<Outcome>, n: nat): (r: Run)
    requires n <= |outcomes|
    ensures Scheduled(cfg, outcomes, n, r.delays)
    ensures |r.delays| > 0 ==> n + |r.delays| <= Ceiling(cfg.maxRetries)
    ensures r.settled.None? <==> n + |r.delays| == |outcomes|
    ensures r.settled.Some? ==>
      var last := n + |r.delays|;
      !ShouldRetry(cfg, outcomes[last], last) && r.settled.value == Settle(outcomes[last])
    decreases |outcomes| - n
  {
    if n == |outcomes| then Run([], None)
    else if ShouldRetry(cfg, outcomes[n], n) then
      var rest := RunFrom(cfg, outcomes, n + 1);
      var delays := [RetryDelay(cfg, outcomes[n], n)] + rest.delays;
      ScheduleExtends(cfg, outcomes, n, rest.delays);
      Run(delays, rest.settled)
    else Run([], Some(Settle(outcomes[n])))
  }

  /** Attempts `n + i` for `i` in `0..|delays|` were each retried, after
      the delay listed for them. */
  ghost predicate Scheduled(cfg: RetryConfig, outcomes: seq<Outcome>, n: nat, delays: seq<Value>) {
    && n + |delays| <= |outcomes|
    && forall i :: 0 <= i < |delays| ==> RetriedAfter(cfg, outcomes, n + i, delays[i])
  }

  /** Attempt `k` was retried, after `delay`. */
  ghost predicate RetriedAfter(cfg: RetryConfig, outcomes: seq<Outcome>, k: nat, delay: Value) {
    k < |outcomes| && ShouldRetry(cfg, outcomes[k], k) && delay == RetryDelay(cfg, outcomes[k], k)
  }

  /** A retried attempt `n` followed by a schedule from `n + 1` is a
      schedule from `n`. */
  lemma ScheduleExtends(cfg: RetryConfig, outcomes: seq<Outcome>, n: nat, delays: seq<Value>)
    requires n < |outcomes| && ShouldRetry(cfg, outcomes[n], n)
    requires Scheduled(cfg, outcomes, n + 1, delays)
    ensures Scheduled(cfg, outcomes, n, [RetryDelay(cfg, outcomes[n], n)] + delays)
  {
    var all := [RetryDelay(cfg, outcomes[n], n)] + delays;
    forall i | 0 <= i < |all|
      ensures RetriedAfter(cfg, outcomes, n + i, all[i])
    {
      if i > 0 {
        var j := i - 1;
        assert n + 1 + j == n + i;
        assert all[i] == delays[j];
      }
    }
  }

  /** `attempt(0, options)`: the whole chain. It issues at most
      `MaxAttempts` attempts, and once the transport has answered that
      many it has settled. */
  function RunChain(cfg: RetryConfig, outcomes: seq<Outcome>): (r: Run)
    ensures |r.delays| < MaxAttempts(cfg.maxRetries)
    ensures |outcomes| >= MaxAttempts(cfg.maxRetries) ==> r.settled.Some?
    ensures r.settled.Some? ==> |r.delays| < |outcomes|
    ensures r.settled.Some? ==> r.settled.value == Settle(outcomes[|r.delays|])
  {
    RunFrom(cfg, outcomes, 0)
  }

  /** With the default verdict and every attempt failing (an error or a
      status of 400 or more), the chain makes exactly `MaxAttempts`
      attempts and settles with the last one. */
  lemma {:induction false} AllFailingReachesCeiling(cfg: RetryConfig, outcomes: seq<Outcome>, n: nat)
    requires cfg.retry.RetryFlag?
    requires forall k :: 0 <= k < |outcomes| ==> FailureLike(outcomes[k])
    requires n < MaxAttempts(cfg.maxRetries) <= |outcomes|
    ensures n + |RunFrom(cfg, outcomes, n).delays| == MaxAttempts(cfg.maxRetries) - 1
    ensures RunFrom(cfg, outcomes, n).settled == Some(Settle(outcomes[MaxAttempts(cfg.maxRetries) - 1]))
    decreases |outcomes| - n
  {
    if n < MaxAttempts(cfg.maxRetries) - 1 {
      assert ShouldRetry(cfg, outcomes[n], n);
      AllFailingReachesCeiling(cfg, outcomes, n + 1);
    } else {
      assert !ShouldRetry(cfg, outcomes[n], n);
    }
  }

  /** A caller predicate that refuses the first outcome ends the chain
      after one attempt, with that outcome. */
  lemma FirstRefusalSettlesAtOnce(cfg: RetryConfig, outcomes: seq<Outcome>)
    requires cfg.retry.RetryPredicate? && |outcomes| > 0
    requires !cfg.retry.decide(outcomes[0], 1)
    ensures RunChain(cfg, outcomes) == Run([], Some(Settle(outcomes[0])))
  {
  }

  /** `maxRetries: 0` behaves exactly like `maxRetries: 5`. */
  lemma {:induction false} ZeroMaxRetriesActsAsFive(cfg: RetryConfig, outcomes: seq<Outcome>, n: nat)
    requires n <= |outcomes|
    ensures RunFrom(cfg.(maxRetries := 0), outcomes, n) == RunFrom(cfg.(maxRetries := 5), outcomes, n)
    decreases |outcomes| - n
  {
    if n < |outcomes| {
      ZeroMaxRetriesActsAsFive(cfg, outcomes, n + 1);
    }
  }
}
