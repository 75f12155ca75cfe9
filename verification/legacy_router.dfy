/**
 * The older router of `server/anon/Modules/Router.php`: no route tree, no
 * hooks; the request path loses its slashes at both ends (routes are
 * registered as `api/auth/login`), error pages are plain text, and the same
 * exact-then-parameter routing and exception handling as the newer router.
 */
module LegacyRouter {
  import opened Common
  import opened RouteCore
  import opened LegacyConfig

  /**
   * `getRequestPath`: the path `parse_url` finds in `REQUEST_URI` (`/` when
   * absent) with every leading and trailing `/` trimmed; a failed parse gives
   * `false`, which `trim` reads as the empty string. The `?` cut after it
   * never fires, since the path holds no `?`.
   */
  function GetRequestPath(requestUri: Option<string>): (r: string)
    ensures '?' !in r && '#' !in r && NoControls(r)
    ensures |r| > 0 ==> r[0] != '/' && r[|r| - 1] != '/'
    ensures ParseUrlPath(requestUri.GetOr("/")).None? ==> r == ""
    ensures ParseUrlPath(requestUri.GetOr("/")).Some? ==> r == Trim(ParseUrlPath(requestUri.GetOr("/")).value, {'/'})
  {
    var parsed := ParseUrlPath(requestUri.GetOr("/")).GetOr("");
    var path := Trim(parsed, {'/'});
    TrimKeeps(parsed, {'/'});
    assert '?' !in path && '#' !in path;
    assert NoControls(path) by {
      forall k | 0 <= k < |path| ensures !IsControl(path[k]) {
        assert path[k] in path;
      }
    }
    StripQuery(path)
  }

  /** Trimming only removes characters. */
  lemma TrimKeeps(s: string, chars: set<char>)
    ensures forall c :: c in Trim(s, chars) ==> c in s
  {
    var l := TrimLeft(s, chars);
    assert forall k :: 0 <= k < |l| ==> l[k] == s[|s| - |l| + k];
  }

  /** A string without slashes at its ends survives `trim($s, '/')` after a leading slash. */
  lemma TrimSlashes(key: string)
    requires |key| > 0 ==> key[0] != '/' && key[|key| - 1] != '/'
    ensures Trim("/" + key, {'/'}) == key
  {
    assert ("/" + key)[1..] == key;
    assert TrimLeft("/" + key, {'/'}) == TrimLeft(key, {'/'});
  }

  /** Both `/` and a missing `REQUEST_URI` give the empty path. */
  lemma RootIsEmpty()
    ensures GetRequestPath(None) == ""
    ensures GetRequestPath(Some("/")) == ""
  {
    ParseUrlPathOfPath("/", "");
    assert ':' !in "/";
    TrimSlashes("");
  }

  /**
   * A request for `/key`, with or without a query string, yields `key` with
   * its control characters replaced, unless `parse_url` reads a port after
   * the first `:` (then the empty path): a route registered without slashes
   * at its ends, control characters or such a port is reachable.
   */
  lemma RequestPathOfRoute(key: string, query: string)
    requires '?' !in key && '#' !in key
    requires |key| > 0 ==> key[0] != '/' && key[|key| - 1] != '/'
    ensures GetRequestPath(Some("/" + key)) == if PortIn("/" + key, true) then "" else ControlsReplaced(key)
    ensures GetRequestPath(Some("/" + key + "?" + query)) == if PortIn("/" + key, false) then "" else ControlsReplaced(key)
    ensures NoControls(key) && !PortIn("/" + key, true) ==>
              GetRequestPath(Some("/" + key)) == key && GetRequestPath(Some("/" + key + "?" + query)) == key
  {
    var k := "/" + key;
    assert k[0] == '/';
    ParseUrlPathOfPath(k, query);
    var c := ControlsReplaced(key);
    ReplacedAfterSlash(key);
    TrimSlashes(c);
  }

  /** A clock-like last segment is read as a port: `/12:30` routes to the empty path. */
  lemma PortInPathGivesEmpty(a: string, d: string)
    requires ':' !in a && '?' !in a && '#' !in a
    requires 1 <= |d| <= 5 && forall k :: 0 <= k < |d| ==> IsDigit(d[k])
    ensures GetRequestPath(Some("/" + a + ":" + d)) == ""
    ensures GetRequestPath(Some("/" + a + ":" + d + "/")) == ""
  {
    PortMakesParseFail("/" + a, d, "");
    PortMakesParseFail("/" + a, d, "/");
    assert "/" + a + ":" + d + "" == "/" + a + ":" + d;
  }

  /** Replacing control characters keeps a leading `/` and no new slash appears at the ends. */
  lemma ReplacedAfterSlash(key: string)
    requires |key| > 0 ==> key[0] != '/' && key[|key| - 1] != '/'
    ensures ControlsReplaced("/" + key) == "/" + ControlsReplaced(key)
    ensures var c := ControlsReplaced(key); |c| > 0 ==> c[0] != '/' && c[|c| - 1] != '/'
  {
    var k := "/" + key;
    var c := ControlsReplaced(key);
    assert forall i :: 1 <= i < |k| ==> k[i] == key[i - 1];
    if |c| > 0 {
      assert c[0] == key[0] || c[0] == '_';
      assert c[|c| - 1] == key[|key| - 1] || c[|c| - 1] == '_';
    }
  }

  /** `showDefaultError`: the plain-text message. */
  function TextPage(code: int): (r: Body)
    ensures r.Text?
    ensures code == 404 ==> r.text == "404 Not Found"
    ensures code == 500 ==> r.text == "500 Internal Server Error"
    ensures code != 400 && code != 404 && code != 500 ==> r.text == "HTTP " + IntToString(code)
  {
    Text(DefaultMessage(code))
  }

  /** `handleRequest` on a path: route it, and answer an escaping exception with `handleError(500)`. */
  function LegacyRequestFlow(routes: seq<(string, Handler)>, errorHandlers: seq<(int, Handler)>, path: string,
                             env: Env, get: Params): (r: Step)
    ensures CountRouteCalls(r.calls) <= 1 && |r.calls| <= 3
    ensures CountRouteCalls(r.calls) == 1 ==> r.calls[0].RouteCall?
  {
    CatchAll(RouteFlow(routes, errorHandlers, path, TextPage, env, get), errorHandlers, TextPage, env)
  }

  /** No route and no 404 handler: the plain-text 404 page, nothing called. */
  lemma NoMatchIsText404(routes: seq<(string, Handler)>, errorHandlers: seq<(int, Handler)>, path: string,
                         env: Env, get: Params)
    requires !HasKey(routes, path)
    requires forall j :: 0 <= j < |routes| ==> !IsParamMatch(routes[j].0, path)
    requires !HasKey(errorHandlers, 404)
    ensures LegacyRequestFlow(routes, errorHandlers, path, env, get) ==
            Step(Exit(DefaultError(404, Text("404 Not Found"))), [], get)
  {
  }

  /** A throwing route handler and no 500 handler: the plain-text 500 page. */
  lemma ThrowingHandlerIsText500(routes: seq<(string, Handler)>, errorHandlers: seq<(int, Handler)>, path: string,
                                 h: CallableRef, env: Env, get: Params)
    requires Lookup(routes, path) == Some(Callable(h)) && Invoke(h, env, get).Throws?
    requires !HasKey(errorHandlers, 500)
    ensures LegacyRequestFlow(routes, errorHandlers, path, env, get) ==
            Step(Exit(DefaultError(500, Text("500 Internal Server Error"))), [RouteCall(h)], get)
  {
  }

  /** The older `Anon_Router`'s static tables. */
  class LegacyAnonRouter {
    var routes: seq<(string, Handler)>
    var errorHandlers: seq<(int, Handler)>

    constructor()
      ensures routes == [] && errorHandlers == []
    {
      routes := [];
      errorHandlers := [];
    }

    /** `loadConfig`: take both tables from the registry. */
    method LoadConfig(config: LegacyRegistry)
      modifies this
      ensures routes == config.routes && errorHandlers == config.errorHandlers
    {
      var c := config.GetRouterConfig();
      routes := c.routes;
      errorHandlers := c.errorHandlers;
    }

    /** `handleRequest`: route the request path; anything thrown is answered by `handleError(500)`. */
    method HandleRequest(gv: GetVars, requestUri: Option<string>, env: Env) returns (s: Step)
      modifies gv
      ensures s == LegacyRequestFlow(routes, errorHandlers, GetRequestPath(requestUri), env, old(gv.entries))
      ensures gv.entries == s.get
    {
      var requestPath := GetRequestPath(requestUri);
      var tried := Route(routes, errorHandlers, TextPage, requestPath, gv, env);
      if tried.flow.Raise? {
        var e := HandleError(errorHandlers, 500, TextPage, tried.get, env);
        s := Step(e.flow, tried.calls + e.calls, tried.get);
      } else {
        s := tried;
      }
    }

    /** `init`: load the tables and handle the request; an escaping `RuntimeException` gets `handleError(500)`. */
    method Init(config: LegacyRegistry, gv: GetVars, requestUri: Option<string>, env: Env) returns (s: Step)
      modifies this, gv
      ensures routes == config.routes && errorHandlers == config.errorHandlers
      ensures s == CatchRuntime(LegacyRequestFlow(routes, errorHandlers, GetRequestPath(requestUri), env, old(gv.entries)),
                                errorHandlers, TextPage, env)
      ensures gv.entries == s.get
      ensures CountRouteCalls(s.calls) <= 1 && |s.calls| <= 4
    {
      LoadConfig(config);
      var handled := HandleRequest(gv, requestUri, env);
      if handled.flow.Raise? && handled.flow.exc.kind == RuntimeExc {
        var e := HandleError(errorHandlers, 500, TextPage, handled.get, env);
        s := Step(e.flow, handled.calls + e.calls, handled.get);
      } else {
        s := handled;
      }
    }
  }
}
