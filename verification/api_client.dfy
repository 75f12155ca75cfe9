/**
 * What the two client `ApiService` classes have in common
 * (`client/Nuxt/app/composables/api/core/ApiService.js` and the older
 * `client/app/composables/api/core.js`): the URL join, the option merge
 * done with object spreads, the retry delay and the retry loop. The
 * network is an input: attempt `i` of a request delivers a value or throws.
 */
module ApiClient {
  import opened Common
  import opened ApiUtils

  /** The `timeout`, `retryCount` and `retryDelay` of a configuration (milliseconds). */
  datatype RetryConfig = RetryConfig(timeout: int, retryCount: int, retryDelay: int)

  // ---------------------------------------------------------------------------
  // URLs
  // ---------------------------------------------------------------------------

  /** `endpoint.replace(/^\//, '')`: one leading slash removed, no more. */
  function CleanEndpoint(endpoint: string): (r: string)
    ensures |endpoint| > 0 && endpoint[0] == '/' ==> r == endpoint[1..]
    ensures (|endpoint| == 0 || endpoint[0] != '/') ==> r == endpoint
  {
    if |endpoint| > 0 && endpoint[0] == '/' then endpoint[1..] else endpoint
  }

  /** `${baseUrl}/${cleanEndpoint}`. */
  function RequestUrl(baseUrl: string, endpoint: string): (r: string)
    ensures r == baseUrl + "/" + CleanEndpoint(endpoint)
    ensures |r| == |baseUrl| + 1 + |CleanEndpoint(endpoint)|
  {
    baseUrl + "/" + CleanEndpoint(endpoint)
  }

  /** A leading slash on the endpoint makes no difference to the URL. */
  lemma LeadingSlashIgnored(baseUrl: string, endpoint: string)
    requires |endpoint| == 0 || endpoint[0] != '/'
    ensures RequestUrl(baseUrl, "/" + endpoint) == RequestUrl(baseUrl, endpoint)
  {
    assert ("/" + endpoint)[1..] == endpoint;
  }

  /** Only one slash is removed: a doubled slash survives as one. */
  lemma DoubleSlashKeepsOne(baseUrl: string, endpoint: string)
    ensures RequestUrl(baseUrl, "//" + endpoint) == baseUrl + "//" + endpoint
  {
    assert ("//" + endpoint)[1..] == "/" + endpoint;
  }

  /** The `$fetch` URL of server-side rendering: a non-empty query always follows a `?`. */
  function SsrUrl(url: string, query: string): (r: string)
    ensures query == "" ==> r == url
    ensures query != "" ==> r == url + "?" + query
  {
    if query != "" then url + "?" + query else url
  }

  // ---------------------------------------------------------------------------
  // Options
  // ---------------------------------------------------------------------------

  /** The properties `...v` spreads: an object's own, none for `undefined`, `null` or a number. */
  function SpreadOf(v: Option<Value>): seq<(string, Value)> {
    if v.Some? && v.value.VArray? then v.value.entries else []
  }

  /**
   * `{ method: 'GET', credentials, headers: { ...defaultHeaders, ...options.headers }, ...options }`.
   * The trailing spread assigns the caller's own properties last, so a
   * caller's `headers` replaces the merged header object outright.
   */
  function MergeOptions(options: seq<(string, Value)>, credentials: string, defaultHeaders: seq<(string, Value)>)
    : (r: seq<(string, Value)>)
    ensures |r| >= 3 && KeysOf(r)[..3] == ["method", "credentials", "headers"]
    ensures DistinctKeys(r)
  {
    var headers := PutAll(defaultHeaders, SpreadOf(Prop(options, "headers")));
    var defaults := [("method", VStr("GET")), ("credentials", VStr(credentials)), ("headers", VArray(headers))];
    PutAllKeepsLeadingKeys(defaults, options);
    assert KeysOf(defaults) == ["method", "credentials", "headers"];
    assert |"method"| == 6 && |"credentials"| == 11 && |"headers"| == 7;
    ThreeDistinctKeys(defaults);
    PutAll(defaults, options)
  }

  lemma ThreeDistinctKeys<V>(e: seq<(string, V)>)
    requires |e| == 3 && e[0].0 != e[1].0 && e[0].0 != e[2].0 && e[1].0 != e[2].0
    ensures DistinctKeys(e)
  {
  }

  /**
   * Every option the caller gives wins, `headers` included; the defaults fill
   * in `method`, `credentials` and the default headers only when absent.
   */
  lemma MergeOptionsLookup(options: seq<(string, Value)>, credentials: string,
                           defaultHeaders: seq<(string, Value)>, k: string)
    ensures Lookup(MergeOptions(options, credentials, defaultHeaders), k) ==
            if HasKey(options, k) then Prop(options, k)
            else if k == "method" then Some(VStr("GET"))
            else if k == "credentials" then Some(VStr(credentials))
            else if k == "headers" then Some(VArray(defaultHeaders))
            else None
  {
    var e := [("method", VStr("GET")), ("credentials", VStr(credentials)),
              ("headers", VArray(PutAll(defaultHeaders, SpreadOf(Prop(options, "headers")))))];
    PutAllLookup(e, options, k);
    LookupConsAll(e[0], e[1..]);
    LookupConsAll(e[1], e[2..]);
    LookupConsAll(e[2], []);
    if !HasKey(options, k) && k == "headers" {
      assert Prop(options, "headers").None?;
      assert PutAll(defaultHeaders, []) == defaultHeaders;
    }
  }

  /** `{ ...obj }` without the listed properties (`delete fetchOptions.signal`, ...). */
  function Omit(obj: seq<(string, Value)>, keys: set<string>): (r: seq<(string, Value)>)
    ensures forall i :: 0 <= i < |r| ==> r[i].0 !in keys && r[i] in obj
    ensures forall i :: 0 <= i < |obj| && obj[i].0 !in keys ==> obj[i] in r
    decreases |obj|
  {
    if |obj| == 0 then []
    else if obj[0].0 in keys then Omit(obj[1..], keys)
    else [obj[0]] + Omit(obj[1..], keys)
  }

  // ---------------------------------------------------------------------------
  // Responses
  // ---------------------------------------------------------------------------

  /** `response.ok`: a status in the 2xx range. */
  predicate IsOk(status: int) {
    200 <= status <= 299
  }

  /** What `fetch` resolved to: the status, whether the content type is JSON, and the parsed or raw body. */
  datatype HttpResponse = HttpResponse(status: int, isJson: bool, json: Value, text: string)

  /** What one call of `fetch` did: it answered, or it threw (a timeout is an `AbortError`). */
  datatype Transport = Answered(response: HttpResponse) | Threw(error: JsError)

  /** What one attempt of the retry loop produced. */
  datatype Attempt = Delivered(data: Value) | Failed(error: JsError)

  /** How the `request` promise settles; `Undefined` when the loop never ran. */
  datatype Outcome = Resolved(value: Value) | Rejected(error: JsError) | Undefined

  const UnauthorizedMessage: string := "未授权访问"

  /** The `Error` thrown for a non-2xx status, carrying the status in its message. */
  function HttpErrorMessage(status: int): string {
    "HTTP error! status: " + IntToString(status)
  }

  /** The object both services return from a failed server-side request. */
  const SsrDefaultMessage: string := "SSR 环境下使用默认数据"
  const SsrFailureMessage: string := "SSR 环境下请求失败"

  /** `{ page: 1, limit, total: 0, pages: 1 }`. */
  function EmptyPagination(limit: int): Value {
    VArray([("page", VInt(1)), ("limit", VInt(limit)), ("total", VInt(0)), ("pages", VInt(1))])
  }

  /** The empty article list both services fall back to. */
  const ArticleFallback: Value :=
    VArray([("success", VBool(true)),
            ("data", VArray([("articles", VArray([])), ("pagination", EmptyPagination(10))])),
            ("message", VStr(SsrDefaultMessage))])

  // ---------------------------------------------------------------------------
  // Retry
  // ---------------------------------------------------------------------------

  function Pow2(n: nat): (r: nat)
    ensures r >= 1
  {
    if n == 0 then 1 else 2 * Pow2(n - 1)
  }

  /** `_handleRetryDelay`: `base * 2^i`, twice that after a timeout or a failed fetch. */
  function RetryDelay(error: JsError, retryIndex: nat, base: int): (d: int)
    ensures base >= 0 ==> d >= base
    ensures IsNetworkError(error) ==> d == 2 * base * Pow2(retryIndex)
    ensures !IsNetworkError(error) ==> d == base * Pow2(retryIndex)
  {
    var d := base * Pow2(retryIndex);
    if IsNetworkError(error) then d * 2 else d
  }

  /** Each further retry waits twice as long after the same kind of error. */
  lemma DelayDoubles(e1: JsError, e2: JsError, i: nat, base: int)
    requires IsNetworkError(e1) == IsNetworkError(e2)
    ensures RetryDelay(e2, i + 1, base) == 2 * RetryDelay(e1, i, base)
  {
  }

  /**
   * The loop `for (i = 0; i < retryCount; i++)` from attempt `i` on: how the
   * request settles, and the waits it makes between attempts. The first
   * delivered attempt settles it; on server-side rendering the first
   * failure settles it with `fallback`; the last failure is rethrown; any
   * other failure waits `RetryDelay` and tries again.
   */
  function RetryFrom(attempt: nat -> Attempt, isSsr: bool, retryCount: int, base: int, fallback: Outcome, i: nat)
    : (r: (Outcome, seq<int>))
    ensures i < retryCount ==> |r.1| < retryCount - i
    ensures i >= retryCount ==> r == (Undefined, [])
    decreases if i < retryCount then retryCount - i else 0
  {
    if i >= retryCount then (Undefined, [])
    else
      match attempt(i)
      case Delivered(v) => (Resolved(v), [])
      case Failed(e) =>
        if isSsr && i == 0 then (fallback, [])
        else if i == retryCount - 1 then (Rejected(e), [])
        else
          var rest := RetryFrom(attempt, isSsr, retryCount, base, fallback, i + 1);
          (rest.0, [RetryDelay(e, i, base)] + rest.1)
  }

  /** A failure that neither falls back nor is the last attempt waits, then the loop goes on. */
  lemma RetryAfterFailure(attempt: nat -> Attempt, isSsr: bool, retryCount: int, base: int, fallback: Outcome, i: nat)
    requires i < retryCount - 1 && attempt(i).Failed? && !(isSsr && i == 0)
    ensures RetryFrom(attempt, isSsr, retryCount, base, fallback, i) ==
            (RetryFrom(attempt, isSsr, retryCount, base, fallback, i + 1).0,
             [RetryDelay(attempt(i).error, i, base)] + RetryFrom(attempt, isSsr, retryCount, base, fallback, i + 1).1)
  {
  }

  /** An attempt that delivers, falls back or is the last one settles the loop with no further wait. */
  lemma RetrySettles(attempt: nat -> Attempt, isSsr: bool, retryCount: int, base: int, fallback: Outcome, i: nat)
    requires i < retryCount
    ensures attempt(i).Delivered? ==>
              RetryFrom(attempt, isSsr, retryCount, base, fallback, i) == (Resolved(attempt(i).data), [])
    ensures attempt(i).Failed? && isSsr && i == 0 ==>
              RetryFrom(attempt, isSsr, retryCount, base, fallback, i) == (fallback, [])
    ensures attempt(i).Failed? && !(isSsr && i == 0) && i == retryCount - 1 ==>
              RetryFrom(attempt, isSsr, retryCount, base, fallback, i) == (Rejected(attempt(i).error), [])
  {
  }

  /**
   * One turn of the loop, given the waits `done` already made: how the
   * request settles from attempt `i` on, case by case.
   */
  lemma RetryStep(attempt: nat -> Attempt, isSsr: bool, retryCount: int, base: int, fallback: Outcome, i: nat,
                  done: seq<int>, spec: (Outcome, seq<int>))
    requires i < retryCount && (isSsr ==> i == 0)
    requires spec == (RetryFrom(attempt, isSsr, retryCount, base, fallback, i).0,
                      done + RetryFrom(attempt, isSsr, retryCount, base, fallback, i).1)
    ensures attempt(i).Delivered? ==> spec == (Resolved(attempt(i).data), done)
    ensures attempt(i).Failed? && isSsr ==> spec == (fallback, done)
    ensures attempt(i).Failed? && !isSsr && i == retryCount - 1 ==> spec == (Rejected(attempt(i).error), done)
    ensures attempt(i).Failed? && !isSsr && i < retryCount - 1 ==>
              spec == (RetryFrom(attempt, isSsr, retryCount, base, fallback, i + 1).0,
                       (done + [RetryDelay(attempt(i).error, i, base)]) +
                       RetryFrom(attempt, isSsr, retryCount, base, fallback, i + 1).1)
  {
    assert done + [] == done;
    RetrySettles(attempt, isSsr, retryCount, base, fallback, i);
    if attempt(i).Failed? && !isSsr && i < retryCount - 1 {
      RetryAfterFailure(attempt, isSsr, retryCount, base, fallback, i);
      WaitThenRest(done, RetryDelay(attempt(i).error, i, base),
                   RetryFrom(attempt, isSsr, retryCount, base, fallback, i + 1).1);
    }
  }

  /** Recording one more wait before the rest of the loop's waits. */
  lemma WaitThenRest(done: seq<int>, wait: int, rest: seq<int>)
    ensures done + ([wait] + rest) == (done + [wait]) + rest
  {
  }

  /** The waits after the failed attempts `i` to `k - 1`. */
  function Waits(attempt: nat -> Attempt, base: int, i: nat, k: nat): (r: seq<int>)
    requires forall j :: i <= j < k ==> attempt(j).Failed?
    ensures |r| == if i < k then k - i else 0
    decreases if i < k then k - i else 0
  {
    if i >= k then [] else [RetryDelay(attempt(i).error, i, base)] + Waits(attempt, base, i + 1, k)
  }

  /**
   * The first delivered attempt settles the request with its value, after
   * one wait per earlier failure (server-side rendering stops at the first
   * failure, so there the attempt must be the first).
   */
  lemma {:induction false} FirstDeliveryWins(attempt: nat -> Attempt, isSsr: bool, retryCount: int, base: int,
                                             fallback: Outcome, i: nat, k: nat)
    requires i <= k < retryCount && attempt(k).Delivered?
    requires forall j :: i <= j < k ==> attempt(j).Failed?
    requires isSsr ==> k == 0
    ensures RetryFrom(attempt, isSsr, retryCount, base, fallback, i) == (Resolved(attempt(k).data), Waits(attempt, base, i, k))
    decreases k - i
  {
    if i < k {
      FirstDeliveryWins(attempt, isSsr, retryCount, base, fallback, i + 1, k);
    }
  }

  /**
   * When every attempt fails (and not on the server), the request makes
   * exactly `retryCount` attempts, waits between them, and rethrows the
   * last attempt's error.
   */
  lemma {:induction false} AllFailuresRethrowLast(attempt: nat -> Attempt, retryCount: int, base: int,
                                                  fallback: Outcome, i: nat)
    requires i < retryCount
    requires forall j :: i <= j < retryCount ==> attempt(j).Failed?
    ensures RetryFrom(attempt, false, retryCount, base, fallback, i) ==
            (Rejected(attempt(retryCount - 1).error), Waits(attempt, base, i, retryCount - 1))
    decreases retryCount - i
  {
    if i < retryCount - 1 {
      AllFailuresRethrowLast(attempt, retryCount, base, fallback, i + 1);
    }
  }

  /** On server-side rendering a failed first attempt settles the request with the fallback, without waiting. */
  lemma SsrFailureFallsBack(attempt: nat -> Attempt, retryCount: int, base: int, fallback: Outcome)
    requires 0 < retryCount && attempt(0).Failed?
    ensures RetryFrom(attempt, true, retryCount, base, fallback, 0) == (fallback, [])
  {
  }

  /** The request settles with a delivered value, the fallback, or an error one of the attempts threw. */
  lemma {:induction false} OutcomeComesFromAnAttempt(attempt: nat -> Attempt, isSsr: bool, retryCount: int, base: int,
                                                     fallback: Outcome, i: nat)
    ensures var r := RetryFrom(attempt, isSsr, retryCount, base, fallback, i).0;
            r == Undefined || r == fallback ||
            (r.Resolved? && exists j :: i <= j < retryCount && attempt(j) == Delivered(r.value)) ||
            (r.Rejected? && exists j :: i <= j < retryCount && attempt(j) == Failed(r.error))
    decreases if i < retryCount then retryCount - i else 0
  {
    if i < retryCount {
      match attempt(i)
      case Delivered(v) =>
        assert attempt(i) == Delivered(v);
      case Failed(e) =>
        if !(isSsr && i == 0) && i == retryCount - 1 {
          assert attempt(i) == Failed(e);
        } else if !(isSsr && i == 0) {
          OutcomeComesFromAnAttempt(attempt, isSsr, retryCount, base, fallback, i + 1);
        }
    }
  }
}
