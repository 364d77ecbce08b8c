/**
 * `Vault0ApiClient` (src/main/core/vault0-api-client.ts): a JSON request to
 * a VAULT_0 server, retried a bounded number of times. The network is an
 * oracle: `outcomeOf(k)` is how attempt `k` (counting from 0) ends. The
 * timer behind the timeout shows up only as an `Aborted` outcome, and the
 * waits between attempts are returned as the list of their lengths.
 */
module ApiClient {
  import opened Wrappers
  import opened Text
  import opened Remote

  /** How one `fetch` attempt ends. */
  datatype Outcome<T> =
    | Answered(status: nat, statusText: string, bodyText: string, json: Result<T, string>)
      // the response arrived; `json` is what `response.json()` yields, or its parse error
    | Aborted
      // the abort controller fired (the attempt outlived `timeoutMs`)
    | Raised(message: string, retryable: Option<bool>)
      // `fetch` threw something else, possibly carrying a `retryable` flag

  /** An attempt after normalization: the parsed body, or the error and whether it may be retried. */
  datatype Attempt<T> = Succeeded(value: T) | Failed(message: string, retryable: bool)

  /** `VAULT_0 API timeout after <timeoutMs>ms on <route>`. */
  function TimeoutMessage(timeoutMs: nat, route: string): (m: string)
    ensures IsInfix("timeout", m) && IsInfix(route, m)
  {
    var head := "VAULT_0 API timeout after ";
    var m := head + NatToDecimal(timeoutMs) + "ms on " + route;
    assert m[12..19] == head[12..19] == "timeout";
    assert OccursAt("timeout", m, 12);
    assert OccursAt(route, m, |m| - |route|);
    m
  }

  /** The `catch` block's normalization of one attempt. */
  function Classify<T>(o: Outcome<T>, timeoutMs: nat, route: string): Attempt<T> {
    match o
    case Answered(status, statusText, bodyText, json) =>
      if !IsOkStatus(status) then Failed(HttpErrorMessage(status, route, bodyText, statusText), status >= 500)
      else if json.Err? then Failed(json.error, true)
      else Succeeded(json.value)
    case Aborted => Failed(TimeoutMessage(timeoutMs, route), true)
    case Raised(message, retryable) => Failed(message, retryable.GetOr(true))
  }

  /**
   * A 2xx response with parsable JSON is the only success. Exactly the
   * 4xx-and-below error responses and errors flagged `retryable: false` end
   * the request at once; timeouts, 5xx responses, unparsable 2xx bodies and
   * unflagged errors may be retried.
   */
  lemma ClassifyMeaning<T>(o: Outcome<T>, timeoutMs: nat, route: string)
    ensures var a := Classify(o, timeoutMs, route);
            && (a.Succeeded? <==> o.Answered? && IsOkStatus(o.status) && o.json.Ok?)
            && (a.Succeeded? ==> a.value == o.json.value)
            && ((a.Failed? && !a.retryable) <==>
                  (o.Answered? && !IsOkStatus(o.status) && o.status < 500) || (o.Raised? && o.retryable == Some(false)))
            && (o.Answered? && !IsOkStatus(o.status) ==>
                  a.Failed? && a.message == HttpErrorMessage(o.status, route, o.bodyText, o.statusText))
            && (o.Aborted? ==> a.Failed? && a.message == TimeoutMessage(timeoutMs, route))
  {
  }

  predicate RetryableFailure<T>(a: Attempt<T>) {
    a.Failed? && a.retryable
  }

  /** `Math.max(1, retries + 1)`. */
  function MaxAttempts(retries: int): (n: nat)
    ensures n >= 1 && n >= retries + 1
    ensures retries >= 0 ==> n == retries + 1
  {
    if retries + 1 > 1 then retries + 1 else 1
  }

  class Vault0ApiClient {
    const timeoutMs: nat
    const retries: int
    const retryDelayMs: nat

    /** The defaults: a 5000 ms timeout, one retry, 120 ms between attempts. */
    constructor(timeoutMs: Option<nat>, retries: Option<int>, retryDelayMs: Option<nat>)
      ensures this.timeoutMs == timeoutMs.GetOr(5000)
      ensures this.retries == retries.GetOr(1)
      ensures this.retryDelayMs == retryDelayMs.GetOr(120)
    {
      this.timeoutMs := timeoutMs.GetOr(5000);
      this.retries := retries.GetOr(1);
      this.retryDelayMs := retryDelayMs.GetOr(120);
    }

    /**
     * `requestJson(baseUrl, route, init, options)`. Attempts run until one
     * succeeds, one fails in a way that may not be retried, or
     * `max(1, retries + 1)` have been made; a wait of `retryDelayMs` comes
     * between consecutive attempts and never after the last. The result is
     * the last attempt's body or its error: earlier errors are not surfaced.
     */
    method RequestJson<T>(
      baseUrl: string,
      route: string,
      timeoutOverride: Option<nat>,
      retriesOverride: Option<int>,
      outcomeOf: nat -> Outcome<T>)
      returns (r: Result<T, string>, url: string, attempts: nat, delays: seq<nat>)
      ensures url == NormalizeBaseUrl(baseUrl) + route
      ensures 1 <= attempts <= MaxAttempts(retriesOverride.GetOr(retries))
      ensures |delays| == attempts - 1
      ensures forall k :: 0 <= k < |delays| ==> delays[k] == retryDelayMs
      ensures forall k :: 0 <= k < attempts - 1 ==>
                RetryableFailure(Classify(outcomeOf(k), timeoutOverride.GetOr(timeoutMs), route))
      ensures var last := Classify(outcomeOf(attempts - 1), timeoutOverride.GetOr(timeoutMs), route);
              match last
              case Succeeded(v) => r == Ok(v)
              case Failed(message, retryable) =>
                r == Err(message) && (!retryable || attempts == MaxAttempts(retriesOverride.GetOr(retries)))
    {
      var effectiveTimeout := timeoutOverride.GetOr(timeoutMs);
      var maxAttempts := MaxAttempts(retriesOverride.GetOr(retries));
      url := NormalizeBaseUrl(baseUrl) + route;
      var attempt: nat := 0;
      var lastError: Option<string> := None;
      delays := [];
      while attempt < maxAttempts
        invariant attempt <= maxAttempts
        invariant forall k :: 0 <= k < attempt ==> RetryableFailure(Classify(outcomeOf(k), effectiveTimeout, route))
        invariant |delays| == if attempt == maxAttempts then attempt - 1 else attempt
        invariant forall k :: 0 <= k < |delays| ==> delays[k] == retryDelayMs
        invariant attempt > 0 ==> lastError == Some(Classify(outcomeOf(attempt - 1), effectiveTimeout, route).message)
      {
        attempt := attempt + 1;
        var outcome := Classify(outcomeOf(attempt - 1), effectiveTimeout, route);
        if outcome.Succeeded? {
          r, attempts := Ok(outcome.value), attempt;
          return;
        }
        lastError := Some(outcome.message);
        if !outcome.retryable {
          break;
        }
        if attempt < maxAttempts {
          delays := delays + [retryDelayMs];
        }
      }
      attempts := attempt;
      r := Err(lastError.GetOr("VAULT_0 API request failed on " + route));
    }
  }

  /**
   * The repository's own example, for any 5xx status: a server error and then
   * a 2xx answer, with one retry allowed, give the body after exactly two
   * calls, with one wait between them.
   */
  method ServerErrorThenSuccess<T>(baseUrl: string, route: string, status: nat, statusText: string, bodyText: string, body: T)
    returns (r: Result<T, string>, url: string, attempts: nat, delays: seq<nat>)
    requires status >= 500
    ensures r == Ok(body) && attempts == 2 && delays == [0]
    ensures url == NormalizeBaseUrl(baseUrl) + route
  {
    var client := new Vault0ApiClient(Some(500), Some(1), Some(0));
    r, url, attempts, delays := client.RequestJson(
      baseUrl, route, None, None,
      (k: nat) => if k == 0 then Answered(status, statusText, bodyText, Err(bodyText))
                  else Answered(200, statusText, bodyText, Ok(body)));
  }

  /** The repository's own example: with no retries, an attempt that times out fails after one call, naming the timeout. */
  method TimeoutWithoutRetry<T>(baseUrl: string, route: string) returns (r: Result<T, string>, attempts: nat)
    ensures attempts == 1 && r == Err(TimeoutMessage(10, route))
    ensures r.Err? && IsInfix("timeout", r.error)
  {
    var client := new Vault0ApiClient(Some(10), Some(0), Some(0));
    var url, delays;
    r, url, attempts, delays := client.RequestJson(baseUrl, route, None, None, (k: nat) => Aborted);
  }

  /**
   * The repository's own example, for any error status below 500: it is not
   * retried, even with two retries allowed, and its error names the route.
   */
  method ClientErrorFailsFast<T>(baseUrl: string, route: string, status: nat, statusText: string, bodyText: string)
    returns (r: Result<T, string>, attempts: nat)
    requires status < 500 && !IsOkStatus(status)
    ensures attempts == 1 && r == Err(HttpErrorMessage(status, route, bodyText, statusText))
    ensures r.Err? && IsInfix(route, r.error)
  {
    var client := new Vault0ApiClient(Some(500), Some(2), Some(0));
    var url, delays;
    var outcomeOf := (k: nat) => Answered(status, statusText, bodyText, Err(bodyText));
    r, url, attempts, delays := client.RequestJson(baseUrl, route, None, None, outcomeOf);
    assert !RetryableFailure(Classify(outcomeOf(0), client.timeoutMs, route));
  }
}
