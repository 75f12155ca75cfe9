/**
 * The client `ApiService` of `client/Nuxt/app/composables/api/core/ApiService.js`:
 * lazy initialisation from the runtime configuration, request and response
 * interceptor chains, the retry loop with its backoff, the server-side
 * fallback data, and the client-side handling of the `fetch` response.
 * `fetch`, `$fetch` and `URLSearchParams` are parameters; the waits the
 * loop makes are returned instead of slept.
 */
module NuxtApiService {
  import opened Common
  import opened ApiUtils
  import opened ApiClient

  // ---------------------------------------------------------------------------
  // Configuration (client/Nuxt/app/composables/api/core/config.js)
  // ---------------------------------------------------------------------------

  const ClientConfig: RetryConfig := RetryConfig(10000, 3, 1000)
  const SsrConfig: RetryConfig := RetryConfig(5000, 1, 500)

  const DefaultHeaders: seq<(string, Value)> :=
    [("Content-Type", VStr("application/json")), ("Accept", VStr("application/json"))]

  /** The `public` runtime configuration entries `getBaseUrl` reads; `None` when unset. */
  datatype RuntimeConfig = RuntimeConfig(apiUrl: Option<string>, apiBase: Option<string>)

  /** `getBaseUrl`: a non-empty `apiUrl`, else a non-empty `apiBase`, else `/api`. */
  function BaseUrlOf(runtime: RuntimeConfig): (r: string)
    ensures r != ""
    ensures runtime.apiUrl.Some? && runtime.apiUrl.value != "" ==> r == runtime.apiUrl.value
    ensures (runtime.apiUrl.None? || runtime.apiUrl.value == "") && runtime.apiBase.Some? && runtime.apiBase.value != "" ==>
              r == runtime.apiBase.value
    ensures (runtime.apiUrl.None? || runtime.apiUrl.value == "") && (runtime.apiBase.None? || runtime.apiBase.value == "") ==>
              r == "/api"
  {
    if runtime.apiUrl.Some? && runtime.apiUrl.value != "" then runtime.apiUrl.value
    else if runtime.apiBase.Some? && runtime.apiBase.value != "" then runtime.apiBase.value
    else "/api"
  }

  /** `isCrossOrigin`: the base URL is absolute over HTTP or HTTPS. */
  function IsCrossOrigin(baseUrl: string): (r: bool)
    ensures r ==> "http" <= baseUrl && |baseUrl| >= 7
    ensures |baseUrl| > 0 && baseUrl[0] == '/' ==> !r
    ensures "https://" <= baseUrl ==> r
  {
    "http://" <= baseUrl || "https://" <= baseUrl
  }

  /** With neither entry set, requests go to the same-origin `/api`. */
  lemma UnsetRuntimeIsSameOrigin()
    ensures BaseUrlOf(RuntimeConfig(None, None)) == "/api"
    ensures !IsCrossOrigin(BaseUrlOf(RuntimeConfig(None, None)))
  {
    assert !("http://" <= "/api") by { assert "http://"[0] != "/api"[0]; }
    assert !("https://" <= "/api") by { assert "https://"[0] != "/api"[0]; }
  }

  /** `credentials` is `omit` across origins and `include` otherwise. */
  function Credentials(crossOrigin: bool): (r: string)
    ensures r == "omit" <==> crossOrigin
    ensures r == "include" <==> !crossOrigin
  {
    if crossOrigin then "omit" else "include"
  }

  // ---------------------------------------------------------------------------
  // Interceptors
  // ---------------------------------------------------------------------------

  /** The object the request interceptors see and may replace. */
  datatype RequestConfig = RequestConfig(url: string, endpoint: string, options: seq<(string, Value)>, isSsr: bool)

  /** A request interceptor; `None` is a falsy result. */
  type RequestInterceptor = RequestConfig -> Option<RequestConfig>

  /** A response interceptor, given the response and the processed request. */
  type ResponseInterceptor = (Value, RequestConfig) -> Value

  /** `_executeRequestInterceptors`: in registration order, a falsy result keeps the previous config. */
  function FoldRequest(interceptors: seq<RequestInterceptor>, config: RequestConfig): (r: RequestConfig)
    ensures r == config || exists i, c :: 0 <= i < |interceptors| && interceptors[i](c) == Some(r)
    decreases |interceptors|
  {
    if |interceptors| == 0 then config
    else
      var before := FoldRequest(interceptors[..|interceptors| - 1], config);
      interceptors[|interceptors| - 1](before).GetOr(before)
  }

  /** `_executeResponseInterceptors`: in registration order, a falsy result keeps the previous response. */
  function FoldResponse(interceptors: seq<ResponseInterceptor>, response: Value, config: RequestConfig): (r: Value)
    ensures r == response || (Truthy(r) && exists i, v :: 0 <= i < |interceptors| && interceptors[i](v, config) == r)
    decreases |interceptors|
  {
    if |interceptors| == 0 then response
    else
      var before := FoldResponse(interceptors[..|interceptors| - 1], response, config);
      var after := interceptors[|interceptors| - 1](before, config);
      if Truthy(after) then after else before
  }

  /** Interceptors registered later run on what the earlier ones produced. */
  lemma {:induction false} FoldRequestAppend(a: seq<RequestInterceptor>, b: seq<RequestInterceptor>, config: RequestConfig)
    ensures FoldRequest(a + b, config) == FoldRequest(b, FoldRequest(a, config))
    decreases |b|
  {
    if |b| == 0 {
      assert a + b == a;
    } else {
      assert (a + b)[..|a + b| - 1] == a + b[..|b| - 1];
      FoldRequestAppend(a, b[..|b| - 1], config);
    }
  }

  /** Response interceptors compose the same way. */
  lemma {:induction false} FoldResponseAppend(a: seq<ResponseInterceptor>, b: seq<ResponseInterceptor>,
                                              response: Value, config: RequestConfig)
    ensures FoldResponse(a + b, response, config) == FoldResponse(b, FoldResponse(a, response, config), config)
    decreases |b|
  {
    if |b| == 0 {
      assert a + b == a;
    } else {
      assert (a + b)[..|a + b| - 1] == a + b[..|b| - 1];
      FoldResponseAppend(a, b[..|b| - 1], response, config);
    }
  }

  /** Interceptors that all return something falsy leave the config as it was. */
  lemma {:induction false} FalsyInterceptorsKeepConfig(interceptors: seq<RequestInterceptor>, config: RequestConfig)
    requires forall i :: 0 <= i < |interceptors| ==> forall c :: interceptors[i](c).None?
    ensures FoldRequest(interceptors, config) == config
    decreases |interceptors|
  {
    if |interceptors| > 0 {
      FalsyInterceptorsKeepConfig(interceptors[..|interceptors| - 1], config);
    }
  }

  /** A truthy response survives any chain: a falsy interceptor result never replaces it with a falsy one. */
  lemma {:induction false} FoldResponseKeepsTruthy(interceptors: seq<ResponseInterceptor>, response: Value,
                                                   config: RequestConfig)
    requires Truthy(response)
    ensures Truthy(FoldResponse(interceptors, response, config))
    decreases |interceptors|
  {
    if |interceptors| > 0 {
      FoldResponseKeepsTruthy(interceptors[..|interceptors| - 1], response, config);
    }
  }

  // ---------------------------------------------------------------------------
  // Requests on the client
  // ---------------------------------------------------------------------------

  /** The client URL: a non-empty query joins with `&` when the URL already has a `?`, else with `?`. */
  function AppendQuery(url: string, query: string): (r: string)
    ensures query == "" ==> r == url
    ensures query != "" ==> r == url + [if '?' in url then '&' else '?'] + query
  {
    if query == "" then url else url + (if '?' in url then "&" else "?") + query
  }

  /** Client and server build the same URL unless the URL already carries a query. */
  lemma ClientAndSsrUrlsAgree(url: string, query: string)
    ensures AppendQuery(url, query) == SsrUrl(url, query) <==> query == "" || '?' !in url
  {
    if query != "" && '?' in url {
      assert AppendQuery(url, query)[|url|] == '&';
      assert SsrUrl(url, query)[|url|] == '?';
    }
  }

  /** The URL `fetch` gets: the query is appended only for truthy `params`. */
  function ClientUrl(url: string, options: seq<(string, Value)>, queryOf: Value -> string): (r: string)
    ensures url <= r
    ensures r != url ==> r[|url|] == (if '?' in url then '&' else '?') && r[|url| + 1..] != ""
    ensures Prop(options, "params").None? || !Truthy(Prop(options, "params").value) ==> r == url
  {
    var params := Prop(options, "params");
    if params.Some? && Truthy(params.value) then AppendQuery(url, queryOf(params.value)) else url
  }

  /**
   * The options `fetch` gets: `method` and `headers` from the merged options,
   * `credentials` from the origin alone, and `body` only when truthy (the
   * abort signal is not modelled).
   */
  function ClientFetchOptions(options: seq<(string, Value)>, crossOrigin: bool): (r: seq<(string, Value)>)
    ensures |r| >= 3 && KeysOf(r)[..3] == ["method", "headers", "credentials"]
    ensures r[2].1 == VStr(Credentials(crossOrigin))
    ensures r[0].1 == Prop(options, "method").GetOr(VNull) && r[1].1 == Prop(options, "headers").GetOr(VNull)
    ensures |r| == 4 <==> Prop(options, "body").Some? && Truthy(Prop(options, "body").value)
    ensures |r| == 4 ==> r[3] == ("body", Prop(options, "body").value)
  {
    var body := Prop(options, "body");
    [("method", Prop(options, "method").GetOr(VNull)), ("headers", Prop(options, "headers").GetOr(VNull)),
     ("credentials", VStr(Credentials(crossOrigin)))] +
    (if body.Some? && Truthy(body.value) then [("body", body.value)] else [])
  }

  /**
   * `_handleClientRequest` once `fetch` has answered: 401 throws
   * `未授权访问`; a JSON body is parsed, any other becomes
   * `{ success: ok, data: text }`; a non-2xx status throws with the status and
   * that data as its cause.
   */
  function ClientAttempt(t: Transport): (a: Attempt)
    ensures t.Threw? ==> a == Failed(t.error)
    ensures t.Answered? && t.response.status == 401 ==> a == Failed(JsError("Error", UnauthorizedMessage, VNull))
    ensures a.Delivered? <==> t.Answered? && IsOk(t.response.status)
    ensures a.Failed? && t.Answered? && t.response.status != 401 ==>
              a.error.message == HttpErrorMessage(t.response.status) &&
              a.error.cause.VArray? && Lookup(a.error.cause.entries, "status") == Some(VInt(t.response.status)) &&
              Lookup(a.error.cause.entries, "data") == Some(ResponseData(t.response))
    ensures a.Delivered? ==> a.data == ResponseData(t.response)
  {
    match t
    case Threw(e) => Failed(e)
    case Answered(response) =>
      if response.status == 401 then Failed(JsError("Error", UnauthorizedMessage, VNull))
      else
        var data := ResponseData(response);
        if !IsOk(response.status) then
          LookupCons(("status", VInt(response.status)), [("data", data)], "data");
          LookupCons(("data", data), [], "data");
          Failed(JsError("Error", HttpErrorMessage(response.status),
                         VArray([("status", VInt(response.status)), ("data", data)])))
        else Delivered(data)
  }

  /** The parsed JSON body, or for any other content type `{ success: ok, data: text }`. */
  function ResponseData(response: HttpResponse): (r: Value)
    ensures response.isJson ==> r == response.json
    ensures !response.isJson ==> r.VArray? && Lookup(r.entries, "success") == Some(VBool(IsOk(response.status))) &&
                                 Lookup(r.entries, "data") == Some(VStr(response.text))
  {
    if response.isJson then response.json
    else
      var data := ("data", VStr(response.text));
      LookupCons(("success", VBool(IsOk(response.status))), [data], "data");
      LookupCons(data, [], "data");
      VArray([("success", VBool(IsOk(response.status))), data])
  }

  /** A successful non-JSON answer is wrapped with `success: true` and the text as `data`. */
  lemma TextResponseIsWrapped(status: int, json: Value, text: string)
    requires IsOk(status)
    ensures ClientAttempt(Answered(HttpResponse(status, false, json, text))) ==
            Delivered(VArray([("success", VBool(true)), ("data", VStr(text))]))
  {
  }

  // ---------------------------------------------------------------------------
  // Server-side fallback
  // ---------------------------------------------------------------------------

  const SubmitFailureMessage: string := "SSR 环境下无法提交文章"

  /** The statistics fallback: both counts zero. */
  const StatisticsFallback: Value :=
    VArray([("success", VBool(true)),
            ("data", VArray([("messageCount", VInt(0)), ("memberCount", VInt(0))])),
            ("message", VStr(SsrDefaultMessage))])

  /** The message and member fallback: an empty page of 15. */
  const PageFallback: Value :=
    VArray([("success", VBool(true)), ("data", VArray([])), ("pagination", EmptyPagination(15)),
            ("message", VStr(SsrDefaultMessage))])

  /**
   * `_getSSRFallbackData`: empty articles, empty statistics, or an empty
   * message/member page by the endpoint's name, tested in that order; any
   * other endpoint throws.
   */
  function SsrFallback(endpoint: string): (r: Outcome)
    ensures r.Resolved? <==> Contains(endpoint, "article") || Contains(endpoint, "statistics") ||
                             Contains(endpoint, "message") || Contains(endpoint, "member")
    ensures Contains(endpoint, "article") ==> r == Resolved(ArticleFallback)
    ensures !Contains(endpoint, "article") && Contains(endpoint, "statistics") ==> r == Resolved(StatisticsFallback)
    ensures (!Contains(endpoint, "article") && !Contains(endpoint, "statistics") &&
             (Contains(endpoint, "message") || Contains(endpoint, "member"))) ==> r == Resolved(PageFallback)
  {
    if Contains(endpoint, "article") then Resolved(ArticleFallback)
    else if Contains(endpoint, "statistics") then Resolved(StatisticsFallback)
    else if Contains(endpoint, "message") || Contains(endpoint, "member") then Resolved(PageFallback)
    else if Contains(endpoint, "article-submit") then
      Rejected(JsError("Error", SubmitFailureMessage, VNull))
    else Rejected(JsError("Error", SsrFailureMessage, VNull))
  }

  /**
   * The `article-submit` branch can never run: such an endpoint contains
   * `article` and is answered with the article list before it is reached,
   * so every endpoint that is not answered throws `SSR 环境下请求失败`.
   */
  lemma ArticleSubmitBranchUnreachable(endpoint: string)
    ensures !SsrFallback(endpoint).Resolved? ==> SsrFallback(endpoint) == Rejected(JsError("Error", SsrFailureMessage, VNull))
    ensures Contains(endpoint, "article-submit") ==> SsrFallback(endpoint) == Resolved(ArticleFallback)
  {
    if Contains(endpoint, "article-submit") {
      assert "article" <= "article-submit";
      ContainsTransitive(endpoint, "article-submit", "article");
    }
  }

  // ---------------------------------------------------------------------------
  // The service
  // ---------------------------------------------------------------------------

  /** What the network does: `fetch(url, options)` on attempt `i`. */
  type Fetch = (string, seq<(string, Value)>, nat) -> Transport

  /** What `$fetch(url, options)` does on attempt `i`: it resolves or throws. */
  type SsrFetch = (string, seq<(string, Value)>, nat) -> Attempt

  /**
   * One attempt of the loop: the environment's request, then, when it
   * delivers, the response interceptors. Whether it runs on the server is
   * decided before the request interceptors run: they cannot change it.
   */
  function AttemptAt(processed: RequestConfig, isSsr: bool, crossOrigin: bool,
                     responseInterceptors: seq<ResponseInterceptor>,
                     queryOf: Value -> string, fetch: Fetch, ssrFetch: SsrFetch, i: nat): Attempt
  {
    var raw :=
      if isSsr then
        var params := Prop(processed.options, "params");
        var query := queryOf(if params.Some? && Truthy(params.value) then params.value else VArray([]));
        ssrFetch(SsrUrl(processed.url, query), Omit(processed.options, {"signal", "credentials"}), i)
      else
        ClientAttempt(fetch(ClientUrl(processed.url, processed.options, queryOf),
                            ClientFetchOptions(processed.options, crossOrigin), i));
    match raw
    case Delivered(v) => Delivered(FoldResponse(responseInterceptors, v, processed))
    case Failed(e) => Failed(e)
  }

  /** The attempts of one request, as the retry loop consumes them. */
  function Attempts(processed: RequestConfig, isSsr: bool, crossOrigin: bool,
                    responseInterceptors: seq<ResponseInterceptor>,
                    queryOf: Value -> string, fetch: Fetch, ssrFetch: SsrFetch): nat -> Attempt
  {
    (i: nat) => AttemptAt(processed, isSsr, crossOrigin, responseInterceptors, queryOf, fetch, ssrFetch, i)
  }

  /** Class model of the client `ApiService`. */
  class ApiService {
    var baseUrl: string
    var isCrossOrigin: bool
    var requestInterceptors: seq<RequestInterceptor>
    var responseInterceptors: seq<ResponseInterceptor>
    var initialized: bool

    /** The constructor registers the default interceptors, given here as arguments. */
    constructor(defaultRequest: seq<RequestInterceptor>, defaultResponse: seq<ResponseInterceptor>)
      ensures baseUrl == "" && !isCrossOrigin && !initialized
      ensures requestInterceptors == defaultRequest && responseInterceptors == defaultResponse
    {
      baseUrl := "";
      isCrossOrigin := false;
      requestInterceptors := defaultRequest;
      responseInterceptors := defaultResponse;
      initialized := false;
    }

    /** `init`: only the first call reads the configuration. */
    method Init(runtime: RuntimeConfig)
      modifies this
      ensures initialized
      ensures old(initialized) ==> baseUrl == old(baseUrl) && isCrossOrigin == old(isCrossOrigin)
      ensures !old(initialized) ==> baseUrl == BaseUrlOf(runtime) && isCrossOrigin == IsCrossOrigin(BaseUrlOf(runtime))
      ensures requestInterceptors == old(requestInterceptors) && responseInterceptors == old(responseInterceptors)
    {
      if !initialized {
        baseUrl := BaseUrlOf(runtime);
        isCrossOrigin := IsCrossOrigin(BaseUrlOf(runtime));
        initialized := true;
      }
    }

    method AddRequestInterceptor(interceptor: RequestInterceptor)
      modifies this
      ensures requestInterceptors == old(requestInterceptors) + [interceptor]
      ensures baseUrl == old(baseUrl) && isCrossOrigin == old(isCrossOrigin) && initialized == old(initialized)
      ensures responseInterceptors == old(responseInterceptors)
    {
      requestInterceptors := requestInterceptors + [interceptor];
    }

    method AddResponseInterceptor(interceptor: ResponseInterceptor)
      modifies this
      ensures responseInterceptors == old(responseInterceptors) + [interceptor]
      ensures baseUrl == old(baseUrl) && isCrossOrigin == old(isCrossOrigin) && initialized == old(initialized)
      ensures requestInterceptors == old(requestInterceptors)
    {
      responseInterceptors := responseInterceptors + [interceptor];
    }

    /** `_executeRequestInterceptors`. */
    method ExecuteRequestInterceptors(config: RequestConfig) returns (r: RequestConfig)
      ensures r == FoldRequest(requestInterceptors, config)
    {
      r := config;
      var i := 0;
      while i < |requestInterceptors|
        invariant 0 <= i <= |requestInterceptors|
        invariant r == FoldRequest(requestInterceptors[..i], config)
      {
        assert requestInterceptors[..i + 1][..i] == requestInterceptors[..i];
        var next := requestInterceptors[i](r);
        if next.Some? {
          r := next.value;
        }
        i := i + 1;
      }
      assert requestInterceptors[..i] == requestInterceptors;
    }

    /** `_executeResponseInterceptors`. */
    method ExecuteResponseInterceptors(response: Value, config: RequestConfig) returns (r: Value)
      ensures r == FoldResponse(responseInterceptors, response, config)
    {
      r := response;
      var i := 0;
      while i < |responseInterceptors|
        invariant 0 <= i <= |responseInterceptors|
        invariant r == FoldResponse(responseInterceptors[..i], response, config)
      {
        assert responseInterceptors[..i + 1][..i] == responseInterceptors[..i];
        var next := responseInterceptors[i](r, config);
        if Truthy(next) {
          r := next;
        }
        i := i + 1;
      }
      assert responseInterceptors[..i] == responseInterceptors;
    }

    /** The request interceptors' result for a call of `request`, once initialised. */
    function Processed(endpoint: string, options: seq<(string, Value)>, isSsr: bool): RequestConfig
      reads this
    {
      FoldRequest(requestInterceptors,
                  RequestConfig(RequestUrl(baseUrl, endpoint), endpoint,
                                MergeOptions(options, Credentials(isCrossOrigin), DefaultHeaders), isSsr))
    }

    /**
     * One attempt: `$fetch` on the server, `fetch` and its response handling
     * on the client, then the response interceptors on a delivered value.
     */
    method TryOnce(processed: RequestConfig, isSsr: bool, queryOf: Value -> string, fetch: Fetch, ssrFetch: SsrFetch,
                   i: nat)
      returns (a: Attempt)
      ensures a == AttemptAt(processed, isSsr, isCrossOrigin, responseInterceptors, queryOf, fetch, ssrFetch, i)
    {
      var raw: Attempt;
      if isSsr {
        var params := Prop(processed.options, "params");
        var query := queryOf(if params.Some? && Truthy(params.value) then params.value else VArray([]));
        raw := ssrFetch(SsrUrl(processed.url, query), Omit(processed.options, {"signal", "credentials"}), i);
      } else {
        var answer := fetch(ClientUrl(processed.url, processed.options, queryOf),
                            ClientFetchOptions(processed.options, isCrossOrigin), i);
        raw := ClientAttempt(answer);
      }
      if raw.Delivered? {
        var response := ExecuteResponseInterceptors(raw.data, processed);
        a := Delivered(response);
      } else {
        a := raw;
      }
    }

    /** The retry loop of `request`, on the processed request. */
    method Retry(processed: RequestConfig, isSsr: bool, config: RetryConfig, endpoint: string,
                 queryOf: Value -> string, fetch: Fetch, ssrFetch: SsrFetch)
      returns (r: Outcome, delays: seq<int>)
      ensures (r, delays) == RetryFrom(Attempts(processed, isSsr, isCrossOrigin, responseInterceptors, queryOf, fetch, ssrFetch),
                                       isSsr, config.retryCount, config.retryDelay, SsrFallback(endpoint), 0)
    {
      ghost var attempt := Attempts(processed, isSsr, isCrossOrigin, responseInterceptors, queryOf, fetch, ssrFetch);
      ghost var fallback := SsrFallback(endpoint);
      ghost var spec := RetryFrom(attempt, isSsr, config.retryCount, config.retryDelay, fallback, 0);
      delays := [];
      assert delays + spec.1 == spec.1;
      var i := 0;
      while i < config.retryCount
        invariant 0 <= i
        invariant i <= config.retryCount || config.retryCount <= 0
        invariant spec == (RetryFrom(attempt, isSsr, config.retryCount, config.retryDelay, fallback, i).0,
                           delays + RetryFrom(attempt, isSsr, config.retryCount, config.retryDelay, fallback, i).1)
        invariant isSsr ==> i == 0
      {
        var outcome := TryOnce(processed, isSsr, queryOf, fetch, ssrFetch, i);
        assert outcome == attempt(i);
        RetryStep(attempt, isSsr, config.retryCount, config.retryDelay, fallback, i, delays, spec);
        if outcome.Delivered? {
          return Resolved(outcome.data), delays;
        }
        if isSsr && i == 0 {
          r := SsrFallback(endpoint);
          assert r == fallback;
          return r, delays;
        }
        if i == config.retryCount - 1 {
          return Rejected(outcome.error), delays;
        }
        delays := delays + [RetryDelay(outcome.error, i, config.retryDelay)];
        i := i + 1;
      }
      assert delays + [] == delays;
      r := Undefined;
    }

    /**
     * `request(endpoint, options)`: initialise if needed, merge the options,
     * run the request interceptors, then the retry loop with the client or
     * server configuration. Returns how the promise settles and the waits.
     */
    method Request(endpoint: string, options: seq<(string, Value)>, isSsr: bool, runtime: RuntimeConfig,
                   queryOf: Value -> string, fetch: Fetch, ssrFetch: SsrFetch)
      returns (r: Outcome, delays: seq<int>)
      modifies this
      ensures initialized
      ensures old(initialized) ==> baseUrl == old(baseUrl) && isCrossOrigin == old(isCrossOrigin)
      ensures !old(initialized) ==> baseUrl == BaseUrlOf(runtime) && isCrossOrigin == IsCrossOrigin(BaseUrlOf(runtime))
      ensures requestInterceptors == old(requestInterceptors) && responseInterceptors == old(responseInterceptors)
      ensures var config := if isSsr then SsrConfig else ClientConfig;
              (r, delays) == RetryFrom(Attempts(Processed(endpoint, options, isSsr), isSsr, isCrossOrigin, responseInterceptors,
                                                queryOf, fetch, ssrFetch),
                                       isSsr, config.retryCount, config.retryDelay, SsrFallback(endpoint), 0)
    {
      if !initialized {
        Init(runtime);
      }
      var url := RequestUrl(baseUrl, endpoint);
      var config := if isSsr then SsrConfig else ClientConfig;
      var defaultOptions := MergeOptions(options, Credentials(isCrossOrigin), DefaultHeaders);
      var processed := ExecuteRequestInterceptors(RequestConfig(url, endpoint, defaultOptions, isSsr));
      r, delays := Retry(processed, isSsr, config, endpoint, queryOf, fetch, ssrFetch);
    }
  }

  /** `get(endpoint, params)`: `{ method: 'GET', params }`. */
  function GetOptions(params: Value): (r: seq<(string, Value)>)
    ensures Prop(r, "method") == Some(VStr("GET")) && Prop(r, "params") == Some(params)
    ensures Prop(r, "body").None? && Prop(r, "headers").None?
  {
    var r := [("method", VStr("GET")), ("params", params)];
    LastValueAt(r, 0);
    LastValueAt(r, 1);
    r
  }

  /** `{ action }` for a truthy action, else `{}`. */
  function ActionParams(action: Value): (r: Value)
    ensures r.VArray? && |r.entries| <= 1
    ensures Lookup(r.entries, "action").Some? <==> Truthy(action)
    ensures Truthy(action) ==> Lookup(r.entries, "action") == Some(action)
  {
    if Truthy(action) then VArray([("action", action)]) else VArray([])
  }

  /** `post`/`put(endpoint, data, action)`: the JSON body and a JSON `Content-Type` header. */
  function BodyOptions(verb: string, body: string, action: Value): (r: seq<(string, Value)>)
    ensures Prop(r, "method") == Some(VStr(verb)) && Prop(r, "params") == Some(ActionParams(action))
    ensures Prop(r, "body") == Some(VStr(body))
    ensures Prop(r, "headers") == Some(VArray([("Content-Type", VStr("application/json"))]))
  {
    var r := [("method", VStr(verb)), ("params", ActionParams(action)), ("body", VStr(body)),
              ("headers", VArray([("Content-Type", VStr("application/json"))]))];
    LastValueAt(r, 0);
    LastValueAt(r, 1);
    LastValueAt(r, 2);
    LastValueAt(r, 3);
    r
  }

  /** `delete(endpoint, action)`. */
  function DeleteOptions(action: Value): (r: seq<(string, Value)>)
    ensures Prop(r, "method") == Some(VStr("DELETE")) && Prop(r, "params") == Some(ActionParams(action))
    ensures Prop(r, "body").None? && Prop(r, "headers").None?
  {
    var r := [("method", VStr("DELETE")), ("params", ActionParams(action))];
    LastValueAt(r, 0);
    LastValueAt(r, 1);
    r
  }

  /** A `get` keeps both default headers. */
  lemma GetKeepsDefaultHeaders(params: Value, crossOrigin: bool)
    ensures Lookup(MergeOptions(GetOptions(params), Credentials(crossOrigin), DefaultHeaders), "headers") ==
            Some(VArray(DefaultHeaders))
  {
    MergeOptionsLookup(GetOptions(params), Credentials(crossOrigin), DefaultHeaders, "headers");
  }

  /**
   * A `post` or `put` passes its own `headers`, which the trailing spread
   * keeps as they are: the default `Accept` header is dropped.
   */
  lemma BodyRequestDropsAccept(verb: string, body: string, action: Value, crossOrigin: bool)
    ensures Lookup(MergeOptions(BodyOptions(verb, body, action), Credentials(crossOrigin), DefaultHeaders), "headers") ==
            Some(VArray([("Content-Type", VStr("application/json"))]))
  {
    var o := BodyOptions(verb, body, action);
    MergeOptionsLookup(o, Credentials(crossOrigin), DefaultHeaders, "headers");
  }

  /** On the server a request is tried once: its first failure settles it. */
  lemma SsrTriesOnce(attempt: nat -> Attempt, endpoint: string)
    ensures |RetryFrom(attempt, true, SsrConfig.retryCount, SsrConfig.retryDelay, SsrFallback(endpoint), 0).1| == 0
  {
  }
}
