/**
 * The older client `ApiService` of `client/app/composables/api/core.js`:
 * a fixed base URL, the same retry loop and backoff as the Nuxt service, no
 * interceptors, a simpler client response check and a fallback for article
 * requests only. `fetch`, `$fetch` and `URLSearchParams` are parameters.
 */
module LegacyApiService {
  import opened Common
  import opened ApiUtils
  import opened ApiClient

  // ---------------------------------------------------------------------------
  // Configuration (client/app/composables/api/config.js)
  // ---------------------------------------------------------------------------

  const LegacyBaseUrl: string := "/apiService"
  const ClientConfig: RetryConfig := RetryConfig(10000, 3, 1000)
  const SsrConfig: RetryConfig := RetryConfig(5000, 1, 500)

  /** The one default header; `credentials` is always `include`. */
  const DefaultHeaders: seq<(string, Value)> := [("Content-Type", VStr("application/json"))]

  // ---------------------------------------------------------------------------
  // Responses and fallback
  // ---------------------------------------------------------------------------

  /**
   * `_handleClientRequest` once `fetch` has answered: 401 throws
   * `未授权访问`, any other non-2xx status throws with the status in the
   * message (no cause), and a 2xx answer delivers its parsed JSON body.
   */
  function ClientAttempt(t: Transport): (a: Attempt)
    ensures t.Threw? ==> a == Failed(t.error)
    ensures a.Delivered? <==> t.Answered? && IsOk(t.response.status)
    ensures a.Delivered? ==> a.data == t.response.json
    ensures t.Answered? && t.response.status == 401 ==> a == Failed(JsError("Error", UnauthorizedMessage, VNull))
    ensures t.Answered? && t.response.status != 401 && !IsOk(t.response.status) ==>
              a == Failed(JsError("Error", HttpErrorMessage(t.response.status), VNull))
  {
    match t
    case Threw(e) => Failed(e)
    case Answered(response) =>
      if response.status == 401 then Failed(JsError("Error", UnauthorizedMessage, VNull))
      else if !IsOk(response.status) then Failed(JsError("Error", HttpErrorMessage(response.status), VNull))
      else Delivered(response.json)
  }

  /** `_getSSRFallbackData`: the empty article list for article endpoints; every other endpoint throws. */
  function SsrFallback(endpoint: string): (r: Outcome)
    ensures r.Resolved? <==> Contains(endpoint, "article")
    ensures r.Resolved? ==> r == Resolved(ArticleFallback)
    ensures !r.Resolved? ==> r == Rejected(JsError("Error", SsrFailureMessage, VNull))
  {
    if Contains(endpoint, "article") then Resolved(ArticleFallback)
    else Rejected(JsError("Error", SsrFailureMessage, VNull))
  }

  /**
   * On the server, a first failure of a non-article request is turned into
   * the fallback's own error, not the error the request threw.
   */
  lemma NonArticleSsrFailureThrowsFallbackError(attempt: nat -> Attempt, endpoint: string)
    requires !Contains(endpoint, "article") && attempt(0).Failed?
    ensures RetryFrom(attempt, true, SsrConfig.retryCount, SsrConfig.retryDelay, SsrFallback(endpoint), 0).0 ==
            Rejected(JsError("Error", SsrFailureMessage, VNull))
  {
  }

  // ---------------------------------------------------------------------------
  // The service
  // ---------------------------------------------------------------------------

  /** What the network does: `fetch(url, options)` on attempt `i`. */
  type Fetch = (string, seq<(string, Value)>, nat) -> Transport

  /** What `$fetch(url, options)` does on attempt `i`. */
  type SsrFetch = (string, seq<(string, Value)>, nat) -> Attempt

  /**
   * One attempt. On the server the query from `params` goes into the URL and
   * `credentials` is dropped from the options; on the client the URL is used
   * as it is, so `params` never reaches the server.
   */
  function AttemptAt(url: string, options: seq<(string, Value)>, isSsr: bool,
                     queryOf: Value -> string, fetch: Fetch, ssrFetch: SsrFetch, i: nat): Attempt
  {
    if isSsr then
      var params := Prop(options, "params");
      var query := queryOf(if params.Some? && Truthy(params.value) then params.value else VArray([]));
      ssrFetch(SsrUrl(url, query), Omit(options, {"signal", "credentials"}), i)
    else
      ClientAttempt(fetch(url, options, i))
  }

  /** The attempts of one request, as the retry loop consumes them. */
  function Attempts(url: string, options: seq<(string, Value)>, isSsr: bool,
                    queryOf: Value -> string, fetch: Fetch, ssrFetch: SsrFetch): nat -> Attempt
  {
    (i: nat) => AttemptAt(url, options, isSsr, queryOf, fetch, ssrFetch, i)
  }

  /** Class model of the older `ApiService`. */
  class ApiService {
    var baseUrl: string

    constructor()
      ensures baseUrl == LegacyBaseUrl
    {
      baseUrl := LegacyBaseUrl;
    }

    /** `_handleSSRRequest` on the server, `_handleClientRequest` on the client. */
    method TryOnce(url: string, options: seq<(string, Value)>, isSsr: bool,
                   queryOf: Value -> string, fetch: Fetch, ssrFetch: SsrFetch, i: nat)
      returns (a: Attempt)
      ensures a == AttemptAt(url, options, isSsr, queryOf, fetch, ssrFetch, i)
    {
      if isSsr {
        var params := Prop(options, "params");
        var query := queryOf(if params.Some? && Truthy(params.value) then params.value else VArray([]));
        a := ssrFetch(SsrUrl(url, query), Omit(options, {"signal", "credentials"}), i);
      } else {
        var answer := fetch(url, options, i);
        a := ClientAttempt(answer);
      }
    }

    /**
     * `request(endpoint, options)`: the URL join, the option merge, then the
     * retry loop with the client or server configuration. Returns how the
     * promise settles and the waits between attempts.
     */
    method Request(endpoint: string, options: seq<(string, Value)>, isSsr: bool,
                   queryOf: Value -> string, fetch: Fetch, ssrFetch: SsrFetch)
      returns (r: Outcome, delays: seq<int>)
      ensures var config := if isSsr then SsrConfig else ClientConfig;
              (r, delays) == RetryFrom(Attempts(RequestUrl(baseUrl, endpoint), MergeOptions(options, "include", DefaultHeaders),
                                                isSsr, queryOf, fetch, ssrFetch),
                                       isSsr, config.retryCount, config.retryDelay, SsrFallback(endpoint), 0)
    {
      var url := RequestUrl(baseUrl, endpoint);
      var config := if isSsr then SsrConfig else ClientConfig;
      var defaultOptions := MergeOptions(options, "include", DefaultHeaders);
      ghost var attempt := Attempts(url, defaultOptions, isSsr, queryOf, fetch, ssrFetch);
      ghost var spec := RetryFrom(attempt, isSsr, config.retryCount, config.retryDelay, SsrFallback(endpoint), 0);
      delays := [];
      assert delays + spec.1 == spec.1;
      var i := 0;
      while i < config.retryCount
        invariant 0 <= i <= config.retryCount
        invariant spec == (RetryFrom(attempt, isSsr, config.retryCount, config.retryDelay, SsrFallback(endpoint), i).0,
                           delays + RetryFrom(attempt, isSsr, config.retryCount, config.retryDelay, SsrFallback(endpoint), i).1)
        invariant isSsr ==> i == 0
      {
        var outcome := TryOnce(url, defaultOptions, isSsr, queryOf, fetch, ssrFetch, i);
        assert outcome == attempt(i);
        RetryStep(attempt, isSsr, config.retryCount, config.retryDelay, SsrFallback(endpoint), i, delays, spec);
        if outcome.Delivered? {
          return Resolved(outcome.data), delays;
        }
        if isSsr && i == 0 {
          return SsrFallback(endpoint), delays;
        }
        if i == config.retryCount - 1 {
          return Rejected(outcome.error), delays;
        }
        delays := delays + [RetryDelay(outcome.error, i, config.retryDelay)];
        i := i + 1;
      }
      assert delays + [] == delays;
      r := Undefined;
    }
  }

  /**
   * With the client configuration a request makes at most three attempts,
   * so at most two waits: 1 second after the first failure and 2 after the
   * second, each doubled when that failure was a network error.
   */
  lemma ClientWaitsAtMostTwice(attempt: nat -> Attempt, endpoint: string)
    ensures var w := RetryFrom(attempt, false, ClientConfig.retryCount, ClientConfig.retryDelay, SsrFallback(endpoint), 0).1;
            |w| <= 2 &&
            (|w| >= 1 ==> attempt(0).Failed? && w[0] == (if IsNetworkError(attempt(0).error) then 2000 else 1000)) &&
            (|w| == 2 ==> attempt(1).Failed? && w[1] == (if IsNetworkError(attempt(1).error) then 4000 else 2000))
  {
    var f := SsrFallback(endpoint);
    if attempt(0).Failed? {
      RetryAfterFailure(attempt, false, 3, 1000, f, 0);
      if attempt(1).Failed? {
        RetryAfterFailure(attempt, false, 3, 1000, f, 1);
        RetrySettles(attempt, false, 3, 1000, f, 2);
      } else {
        RetrySettles(attempt, false, 3, 1000, f, 1);
      }
    } else {
      RetrySettles(attempt, false, 3, 1000, f, 0);
    }
  }
}
