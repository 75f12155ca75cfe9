/**
 * What the two routers (`anon/Modules/Router.php` and the older
 * `server/anon/Modules/Router.php`) share: the handlers they dispatch to, the
 * terminal results a request can end in, the `{name}` pattern matcher of
 * `matchParameterRoute`, the `$_GET` merge of `dispatchWithParams`, and the
 * try/catch structure of `dispatch`, `handleError` and `handleRequest`.
 *
 * `exit` is modelled by returning a terminal `Flow`; what a callable does when
 * invoked comes from an oracle in `Env`.
 */
module RouteCore {
  import opened Common

  // ---------------------------------------------------------------------------
  // Handlers, behaviours and terminal results
  // ---------------------------------------------------------------------------

  /** The identity of something PHP's `is_callable` accepts. */
  datatype CallableRef =
    | ClosureRef(id: string)
    | StaticRef(className: string, methodName: string)
      /** The closure `registerAppRoutes` builds for a leaf of the route tree. */
    | AppView(view: string, path: string, loginCheck: bool)
      /** The closure `initSystemRoutes` registers under `/anon`. */
    | InstallGate

  /** A value stored as a route or error handler. */
  datatype Handler = Callable(ref: CallableRef) | NotCallable

  /** `RuntimeException`, any other `Exception`, or an `Error` such as `TypeError`. */
  datatype ExcKind = RuntimeExc | OtherExc | ErrorExc

  datatype Exc = Exc(kind: ExcKind, message: string)

  /** A response body: `json_encode(['code' => .., 'message' => ..])` or plain text. */
  datatype Body = Json(code: int, message: string) | Text(text: string)

  /** What invoking a callable does: return, write a fixed body and `exit`, or throw. */
  datatype Behaviour = Returns | Exits(status: int, body: Body) | Throws(exc: Exc)

  /** `$_GET`, as an ordered array of string keys and values. */
  type Params = seq<(string, string)>

  /**
   * The world a request runs in: what an opaque callable does given `$_GET`,
   * whether the session is logged in, which view files exist, and whether the
   * system is installed.
   */
  datatype Env = Env(
    run: (CallableRef, Params) -> Behaviour,
    loggedIn: bool,
    viewExists: string -> bool,
    installed: bool)

  /** Invoking a callable: the two closures the core builds itself are spelled out. */
  function Invoke(h: CallableRef, env: Env, get: Params): (r: Behaviour)
    ensures h.AppView? && h.loginCheck && !env.loggedIn ==> r == Exits(200, Json(401, "Unauthorized"))
    ensures h.AppView? && (!h.loginCheck || env.loggedIn) && !env.viewExists(h.view) ==>
              r == Throws(Exc(RuntimeExc, "Router view file not found: " + h.view))
    ensures h.InstallGate? ==>
              r == if env.installed then Exits(403, Json(403, "Forbidden"))
                   else env.run(StaticRef("Anon_Install", "index"), get)
    ensures !h.AppView? && !h.InstallGate? ==> r == env.run(h, get)
  {
    match h
    case AppView(view, _, loginCheck) =>
      if loginCheck && !env.loggedIn then Exits(200, Json(401, "Unauthorized"))
      else if !env.viewExists(view) then Throws(Exc(RuntimeExc, "Router view file not found: " + view))
      else env.run(h, get)
    case InstallGate =>
      if env.installed then Exits(403, Json(403, "Forbidden"))
      else env.run(StaticRef("Anon_Install", "index"), get)
    case _ => env.run(h, get)
  }

  /** What the process ends with. */
  datatype Output =
      /** A callable returned normally; the status is the one in effect when it started. */
    | Handled(status: int, handler: CallableRef)
      /** A callable wrote a fixed body and called `exit` itself. */
    | Emitted(status: int, body: Body)
      /** `showDefaultError`. */
    | DefaultError(status: int, body: Body)

  /** `exit` with an output, or an exception nobody caught (yet). */
  datatype Flow = Exit(output: Output) | Raise(exc: Exc)

  /** A callable the router invoked: a route handler or the error handler of a status. */
  datatype Call = RouteCall(ref: CallableRef) | ErrorCall(code: int, ref: CallableRef)

  /** A finished stretch of request handling: how it ended, whom it called, and `$_GET` afterwards. */
  datatype Step = Step(flow: Flow, calls: seq<Call>, get: Params)

  /**
   * The message of `showDefaultError`: a fixed text for 400, 404 and 500,
   * otherwise `HTTP {code}`. Both routers use the same table.
   */
  function DefaultMessage(code: int): (r: string)
    ensures code == 400 ==> r == "400 Bad Request"
    ensures code == 404 ==> r == "404 Not Found"
    ensures code == 500 ==> r == "500 Internal Server Error"
    ensures code != 400 && code != 404 && code != 500 ==> r == "HTTP " + IntToString(code)
  {
    if code == 400 then "400 Bad Request"
    else if code == 404 then "404 Not Found"
    else if code == 500 then "500 Internal Server Error"
    else "HTTP " + IntToString(code)
  }

  function Settle(b: Behaviour, status: int, h: CallableRef): (r: Flow)
    ensures r.Raise? <==> b.Throws?
    ensures b.Returns? ==> r == Exit(Handled(status, h))
  {
    match b
    case Returns => Exit(Handled(status, h))
    case Exits(s, body) => Exit(Emitted(s, body))
    case Throws(e) => Raise(e)
  }

  function CountRouteCalls(calls: seq<Call>): (r: nat)
    ensures r <= |calls|
  {
    if |calls| == 0 then 0 else CountRouteCalls(calls[..|calls| - 1]) + (if calls[|calls| - 1].RouteCall? then 1 else 0)
  }

  lemma {:induction false} CountRouteCallsAppend(a: seq<Call>, b: seq<Call>)
    ensures CountRouteCalls(a + b) == CountRouteCalls(a) + CountRouteCalls(b)
    decreases |b|
  {
    if |b| > 0 {
      assert (a + b)[..|a + b| - 1] == a + b[..|b| - 1];
      CountRouteCallsAppend(a, b[..|b| - 1]);
    } else {
      assert a + b == a;
    }
  }

  lemma {:induction false} NoRouteCalls(calls: seq<Call>)
    requires forall i :: 0 <= i < |calls| ==> calls[i].ErrorCall?
    ensures CountRouteCalls(calls) == 0
    decreases |calls|
  {
    if |calls| > 0 {
      NoRouteCalls(calls[..|calls| - 1]);
    }
  }

  // ---------------------------------------------------------------------------
  // handleError / dispatch / the exact-then-parameter routing of handleRequest
  // ---------------------------------------------------------------------------

  /**
   * `handleError($code)`: sets the status, then runs the error handler
   * registered for the code if it is callable, otherwise the router's default
   * page (`page`), and exits. An exception from the error handler escapes.
   */
  function ErrorFlow(errorHandlers: seq<(int, Handler)>, code: int, page: int -> Body, env: Env, get: Params): (r: Step)
    ensures r.get == get && |r.calls| <= 1
    ensures forall i :: 0 <= i < |r.calls| ==> r.calls[i].ErrorCall? && r.calls[i].code == code
    ensures !(Lookup(errorHandlers, code).Some? && Lookup(errorHandlers, code).value.Callable?) ==>
              r.flow == Exit(DefaultError(code, page(code))) && r.calls == []
    ensures Lookup(errorHandlers, code).Some? && Lookup(errorHandlers, code).value.Callable? ==>
              var h := Lookup(errorHandlers, code).value.ref;
              r.calls == [ErrorCall(code, h)] &&
              (r.flow.Raise? <==> Invoke(h, env, get).Throws?) &&
              (Invoke(h, env, get).Returns? ==> r.flow == Exit(Handled(code, h)))
  {
    var registered := Lookup(errorHandlers, code);
    if registered.Some? && registered.value.Callable? then
      var h := registered.value.ref;
      Step(Settle(Invoke(h, env, get), code, h), [ErrorCall(code, h)], get)
    else Step(Exit(DefaultError(code, page(code))), [], get)
  }

  /**
   * `dispatch($key)` (with no `params`) and `dispatchWithParams($key, $params)`:
   * a non-callable handler goes to `handleError(404)`; otherwise the params are
   * merged into `$_GET`, the handler runs once, and if it throws the catch block
   * calls `handleError(500)`.
   */
  function DispatchFlow(routes: seq<(string, Handler)>, errorHandlers: seq<(int, Handler)>, key: string,
                        params: Params, page: int -> Body, env: Env, get: Params): (r: Step)
    requires HasKey(routes, key)
    ensures Lookup(routes, key).value.NotCallable? ==> r == ErrorFlow(errorHandlers, 404, page, env, get)
    ensures Lookup(routes, key).value.Callable? ==>
              var h := Lookup(routes, key).value.ref;
              var e := ErrorFlow(errorHandlers, 500, page, env, PutAll(get, params));
              r.get == PutAll(get, params) && CountRouteCalls(r.calls) == 1 && r.calls[0] == RouteCall(h) &&
              |r.calls| <= 2 &&
              (!Invoke(h, env, r.get).Throws? ==> r.flow.Exit? && r.calls == [RouteCall(h)]) &&
              (Invoke(h, env, r.get).Throws? ==> r.flow == e.flow && r.calls == [RouteCall(h)] + e.calls)
  {
    match Lookup(routes, key).value
    case NotCallable => ErrorFlow(errorHandlers, 404, page, env, get)
    case Callable(h) =>
      var g := PutAll(get, params);
      match Invoke(h, env, g)
      case Throws(_) =>
        var e := ErrorFlow(errorHandlers, 500, page, env, g);
        Step(e.flow, [RouteCall(h)] + e.calls, g)
      case b => Step(Settle(b, 200, h), [RouteCall(h)], g)
  }

  /**
   * The body of `handleRequest`'s `try` once the path is known: an exact key
   * dispatches that route; otherwise the first parameter route that matches is
   * dispatched with its parameters; otherwise `handleError(404)`.
   */
  function RouteFlow(routes: seq<(string, Handler)>, errorHandlers: seq<(int, Handler)>, path: string,
                     page: int -> Body, env: Env, get: Params): (r: Step)
    ensures HasKey(routes, path) ==> r == DispatchFlow(routes, errorHandlers, path, [], page, env, get)
    ensures !HasKey(routes, path) && FirstParamMatch(routes, path).Some? ==>
              var m := FirstParamMatch(routes, path).value;
              HasKey(routes, m.route) && r == DispatchFlow(routes, errorHandlers, m.route, m.params, page, env, get)
    ensures !HasKey(routes, path) && FirstParamMatch(routes, path).None? ==>
              r == ErrorFlow(errorHandlers, 404, page, env, get)
    ensures CountRouteCalls(r.calls) <= 1 && |r.calls| <= 2
    ensures |r.calls| > 0 && CountRouteCalls(r.calls) == 1 ==> r.calls[0].RouteCall?
  {
    if HasKey(routes, path) then
      DispatchCalls(routes, errorHandlers, path, [], page, env, get);
      DispatchFlow(routes, errorHandlers, path, [], page, env, get)
    else
      match FirstParamMatch(routes, path)
      case Some(m) =>
        DispatchCalls(routes, errorHandlers, m.route, m.params, page, env, get);
        DispatchFlow(routes, errorHandlers, m.route, m.params, page, env, get)
      case None =>
        var e := ErrorFlow(errorHandlers, 404, page, env, get);
        NoRouteCalls(e.calls);
        e
  }

  /** A dispatch calls at most one route handler, and only as its first call. */
  lemma DispatchCalls(routes: seq<(string, Handler)>, errorHandlers: seq<(int, Handler)>, key: string,
                      params: Params, page: int -> Body, env: Env, get: Params)
    requires HasKey(routes, key)
    ensures var r := DispatchFlow(routes, errorHandlers, key, params, page, env, get);
            CountRouteCalls(r.calls) <= 1 && (CountRouteCalls(r.calls) == 1 ==> r.calls[0].RouteCall?)
  {
    var r := DispatchFlow(routes, errorHandlers, key, params, page, env, get);
    if Lookup(routes, key).value.NotCallable? {
      NoRouteCalls(r.calls);
    }
  }

  /**
   * `catch (Throwable $e) { handleError(500); }`: an exception that escaped is
   * turned into the 500 error page, whose own exception escapes in turn.
   */
  function CatchAll(s: Step, errorHandlers: seq<(int, Handler)>, page: int -> Body, env: Env): (r: Step)
    ensures s.flow.Exit? ==> r == s
    ensures s.flow.Raise? ==>
              var e := ErrorFlow(errorHandlers, 500, page, env, s.get);
              r.flow == e.flow && r.calls == s.calls + e.calls
    ensures r.get == s.get
    ensures CountRouteCalls(r.calls) == CountRouteCalls(s.calls)
    ensures |s.calls| > 0 ==> |r.calls| > 0 && r.calls[0] == s.calls[0]
    ensures |r.calls| <= |s.calls| + 1
  {
    if s.flow.Raise? then
      var e := ErrorFlow(errorHandlers, 500, page, env, s.get);
      CountRouteCallsAppend(s.calls, e.calls);
      NoRouteCalls(e.calls);
      Step(e.flow, s.calls + e.calls, s.get)
    else s
  }

  /**
   * `init`'s `catch (RuntimeException $e) { handleError(500); }`: only a
   * `RuntimeException` that escaped request handling is turned into the 500
   * error page; any other exception stays uncaught.
   */
  function CatchRuntime(s: Step, errorHandlers: seq<(int, Handler)>, page: int -> Body, env: Env): (r: Step)
    ensures !(s.flow.Raise? && s.flow.exc.kind == RuntimeExc) ==> r == s
    ensures s.flow.Raise? && s.flow.exc.kind == RuntimeExc ==>
              var e := ErrorFlow(errorHandlers, 500, page, env, s.get);
              r.flow == e.flow && r.calls == s.calls + e.calls
    ensures r.get == s.get
    ensures CountRouteCalls(r.calls) == CountRouteCalls(s.calls)
    ensures |r.calls| <= |s.calls| + 1
  {
    if s.flow.Raise? && s.flow.exc.kind == RuntimeExc then
      var e := ErrorFlow(errorHandlers, 500, page, env, s.get);
      CountRouteCallsAppend(s.calls, e.calls);
      NoRouteCalls(e.calls);
      Step(e.flow, s.calls + e.calls, s.get)
    else s
  }

  // ---------------------------------------------------------------------------
  // The request path
  // ---------------------------------------------------------------------------

  /**
   * The path step of `parse_url` (its `just_path` label): the text before the
   * first `?` (query) or `#` (fragment). A target with no path (`?x`) yields
   * null, which the callers turn into the empty string, so it is the empty
   * string here.
   */
  function PathPart(target: string): (r: string)
    ensures r <= target
    ensures '?' !in r && '#' !in r
    ensures |r| < |target| ==> target[|r|] == '?' || target[|r|] == '#'
  {
    if |target| == 0 || target[0] == '?' || target[0] == '#' then ""
    else [target[0]] + PathPart(target[1..])
  }

  /** A target without query or fragment is all path; a query after a path is cut off. */
  lemma {:induction false} PathPartStops(p: string, q: string)
    requires '?' !in p && '#' !in p
    ensures PathPart(p) == p
    ensures PathPart(p + "?" + q) == p
    decreases |p|
  {
    if |p| > 0 {
      PathPartStops(p[1..], q);
      assert (p + "?" + q)[1..] == p[1..] + "?" + q;
      assert [p[0]] + p[1..] == p;
    }
  }

  /**
   * `strstr($path, '?', true) ?: $path`: the part before the first `?`,
   * unless there is no `?` or that part is falsy (`""` or `"0"`), in which
   * case the path itself.
   */
  function StripQuery(p: string): (r: string)
    ensures '?' !in p ==> r == p
    ensures r == p || (|r| < |p| && r == p[..|r|] && p[|r|] == '?' && '?' !in r && !IsFalsyString(r))
    ensures r == p && '?' in p ==> IsFalsyString(p[..IndexOf(p, '?').value])
  {
    match IndexOf(p, '?')
    case None => p
    case Some(i) => if IsFalsyString(p[..i]) then p else p[..i]
  }

  /** C's `isdigit`. */
  predicate IsDigit(c: char) {
    '0' <= c <= '9'
  }

  /** The number of decimal digits `s` begins with. */
  function DigitRun(s: string): (n: nat)
    ensures n <= |s|
    ensures forall k :: 0 <= k < n ==> IsDigit(s[k])
    ensures n < |s| ==> !IsDigit(s[n])
  {
    if |s| > 0 && IsDigit(s[0]) then 1 + DigitRun(s[1..]) else 0
  }

  /** C's `iscntrl`: the characters below a space, and DEL. */
  predicate IsControl(c: char) {
    c < ' ' || c == '\U{7F}'
  }

  predicate NoControls(s: string) {
    forall k :: 0 <= k < |s| ==> !IsControl(s[k])
  }

  /** `php_replace_controlchars`: every control character becomes `_`. */
  function ControlsReplaced(s: string): (r: string)
    ensures |r| == |s| && NoControls(r)
    ensures forall k :: 0 <= k < |s| ==> r[k] == s[k] || (IsControl(s[k]) && r[k] == '_')
    ensures NoControls(s) ==> r == s
  {
    seq(|s|, k requires 0 <= k < |s| => if IsControl(s[k]) then '_' else s[k])
  }

  /**
   * The port branch of `parse_url` for a target whose text before its first
   * `:` is not a scheme: when that `:` lies before any `?` or `#` and is
   * followed by one to five digits and then the end of the target or a `/`,
   * the digits are read as a port. For a target that begins with `/` or `:`
   * the host before the port is then empty (and five digits may exceed
   * 65535), so `parse_url` fails. `path` is the target's path part and
   * `whole` says whether it is the whole target.
   */
  predicate PortIn(path: string, whole: bool) {
    match IndexOf(path, ':')
    case None => false
    case Some(e) =>
      var n := DigitRun(path[e + 1..]);
      1 <= n <= 5 && ((whole && e + 1 + n == |path|) || (e + 1 + n < |path| && path[e + 1 + n] == '/'))
  }

  predicate PortAfterColon(target: string) {
    PortIn(PathPart(target), |PathPart(target)| == |target|)
  }

  /**
   * `parse_url($target, PHP_URL_PATH)` for a request target that does not
   * begin with `//` (read as `//host/path`) and either begins with `/` or `:`
   * (the origin form of an HTTP request target) or has no `:` before its
   * first `?` or `#`: `None` is the `false` of a failed parse (a port after
   * the first `:`, or the target `:` alone); otherwise the path part with its
   * control characters replaced by `_`.
   */
  function ParseUrlPath(target: string): (r: Option<string>)
    ensures r.None? ==> ':' in PathPart(target)
    ensures ':' !in PathPart(target) ==> r == Some(ControlsReplaced(PathPart(target)))
    ensures r.Some? ==> r.value == ControlsReplaced(PathPart(target))
    ensures r.Some? ==> '?' !in r.value && '#' !in r.value && NoControls(r.value)
    ensures r.Some? && |r.value| < |target| ==> target[|r.value|] == '?' || target[|r.value|] == '#'
  {
    if target == ":" || PortAfterColon(target) then
      assert target == ":" ==> PathPart(target) == ":";
      None
    else
      var p := PathPart(target);
      var r := ControlsReplaced(p);
      assert forall k :: 0 <= k < |r| ==> r[k] != '?' && r[k] != '#' by {
        forall k | 0 <= k < |r| ensures r[k] != '?' && r[k] != '#' {
          assert p[k] in p;
        }
      }
      Some(r)
  }

  /**
   * A target that is a path without query or fragment parses to that path,
   * its control characters replaced, unless it has a port after its first
   * `:`; with a query after it, likewise, unless the port digits are followed
   * by a `/`.
   */
  lemma ParseUrlPathOfPath(p: string, q: string)
    requires '?' !in p && '#' !in p && p != ":"
    ensures ParseUrlPath(p) == if PortIn(p, true) then None else Some(ControlsReplaced(p))
    ensures ParseUrlPath(p + "?" + q) == if PortIn(p, false) then None else Some(ControlsReplaced(p))
    ensures PortIn(p, false) ==> PortIn(p, true)
  {
    PathPartStops(p, q);
    var t := p + "?" + q;
    assert t[|p|] == '?';
  }

  lemma PortInAt(p: string, whole: bool, e: nat)
    requires e < |p| && p[e] == ':' && forall k :: 0 <= k < e ==> p[k] != ':'
    ensures PortIn(p, whole) <==>
              var n := DigitRun(p[e + 1..]);
              1 <= n <= 5 && ((whole && e + 1 + n == |p|) || (e + 1 + n < |p| && p[e + 1 + n] == '/'))
  {
    IndexOfAt(p, ':', e);
  }

  /**
   * One to five digits after the first `:` of the path, then the end or a
   * `/`, make `parse_url` fail: `/t/12:30`, `/x:80/y` and `:80` all do.
   */
  lemma PortMakesParseFail(a: string, d: string, rest: string)
    requires ':' !in a && '?' !in a && '#' !in a
    requires 1 <= |d| <= 5 && forall k :: 0 <= k < |d| ==> IsDigit(d[k])
    requires rest == "" || rest[0] == '/'
    ensures ParseUrlPath(a + ":" + d + rest).None?
  {
    var x := a + ":" + d;
    assert forall k :: 0 <= k < |x| ==> x[k] != '?' && x[k] != '#';
    PathPartPrefix(x, rest);
    PortInDigits(a, d, PathPart(rest), rest == "");
    assert PortAfterColon(x + rest);
  }

  /** The path `a:d` followed by the end or a `/` has its port digits `d`. */
  lemma PortInDigits(a: string, d: string, y: string, whole: bool)
    requires ':' !in a
    requires 1 <= |d| <= 5 && forall k :: 0 <= k < |d| ==> IsDigit(d[k])
    requires (y == "" && whole) || (|y| > 0 && y[0] == '/')
    ensures PortIn(a + ":" + d + y, whole)
  {
    var p := a + ":" + d + y;
    IndexOfAt(p, ':', |a|);
    assert p[|a| + 1..] == d + y;
    DigitsThenStop(d, y);
  }

  /** The path part of a query- and fragment-free text followed by more is that text followed by the rest's path part. */
  lemma {:induction false} PathPartPrefix(x: string, y: string)
    requires forall k :: 0 <= k < |x| ==> x[k] != '?' && x[k] != '#'
    ensures PathPart(x + y) == x + PathPart(y)
    decreases |x|
  {
    if |x| > 0 {
      var t := x + y;
      assert t[0] == x[0] && t[1..] == x[1..] + y;
      assert PathPart(t) == [x[0]] + PathPart(x[1..] + y);
      PathPartPrefix(x[1..], y);
      assert x == [x[0]] + x[1..];
    } else {
      assert x + y == y;
    }
  }

  /** Digits followed by the end or a non-digit form a run of exactly their number. */
  lemma {:induction false} DigitsThenStop(d: string, y: string)
    requires forall k :: 0 <= k < |d| ==> IsDigit(d[k])
    requires y == "" || !IsDigit(y[0])
    ensures DigitRun(d + y) == |d|
    decreases |d|
  {
    if |d| == 0 {
      assert d + y == y;
    } else {
      assert (d + y)[1..] == d[1..] + y;
      DigitsThenStop(d[1..], y);
    }
  }

  /** A control character in the path comes back as `_`. */
  lemma ControlCharacterReplaced()
    ensures ParseUrlPath("/a\tb") == Some("/a_b")
  {
    PathPartStops("/a\tb", "");
    assert ControlsReplaced("/a\tb") == "/a_b";
  }

  // ---------------------------------------------------------------------------
  // Parameter routes: the regex built from `{name}` patterns
  // ---------------------------------------------------------------------------

  /**
   * One `/`-separated piece of a route pattern. Within a piece the regex
   * replaces the span from the first `{` to the last `}` (with at least one
   * character between them) by a capture `([^/]+)`; everything else is quoted
   * and matches verbatim. The name-extracting regex splits the piece the same way.
   */
  datatype Segment = Literal(text: string) | Placeholder(prefix: string, name: string, suffix: string)

  /** A `{` followed at least two characters later by a `}`. */
  predicate HasBracePair(seg: string) {
    exists i, j :: 0 <= i && i + 1 < j < |seg| && seg[i] == '{' && seg[j] == '}'
  }

  function ParseSegment(seg: string): (r: Segment)
    ensures r.Literal? ==> r.text == seg
    ensures r.Placeholder? ==>
              seg == r.prefix + "{" + r.name + "}" + r.suffix && |r.name| > 0 &&
              '{' !in r.prefix && '}' !in r.suffix
  {
    match IndexOf(seg, '{')
    case None => Literal(seg)
    case Some(i) =>
      match LastIndexOf(seg, '}')
      case None => Literal(seg)
      case Some(j) =>
        if j > i + 1 then
          SplitAroundPair(seg, i, j);
          Placeholder(seg[..i], seg[i + 1..j], seg[j + 1..])
        else Literal(seg)
  }

  /** A piece cut around its characters at `i` and `j`. */
  lemma SplitAroundPair(seg: string, i: nat, j: nat)
    requires i < j < |seg|
    ensures seg == seg[..i] + [seg[i]] + seg[i + 1..j] + [seg[j]] + seg[j + 1..]
  {
    assert seg[..j] == seg[..i] + [seg[i]] + seg[i + 1..j];
    assert seg == seg[..j] + [seg[j]] + seg[j + 1..];
  }

  /** A piece is a placeholder exactly when some `{` has a `}` two or more characters later. */
  lemma ParseSegmentPlaceholder(seg: string)
    ensures ParseSegment(seg).Placeholder? <==> HasBracePair(seg)
  {
    if HasBracePair(seg) {
      var a, b :| 0 <= a && a + 1 < b < |seg| && seg[a] == '{' && seg[b] == '}';
      var i := IndexOf(seg, '{').value;
      var j := LastIndexOf(seg, '}').value;
      assert i <= a && b <= j;
    }
    if ParseSegment(seg).Placeholder? {
      var i := IndexOf(seg, '{').value;
      var j := LastIndexOf(seg, '}').value;
      assert seg[i] == '{' && seg[j] == '}';
    }
  }

  /** `explode('/', $pattern)`, each piece parsed. */
  function Compile(pattern: string): (r: seq<Segment>)
    ensures |r| == |Split(pattern, '/')|
  {
    ParsePieces(Split(pattern, '/'))
  }

  function ParsePieces(parts: seq<string>): (r: seq<Segment>)
    ensures |r| == |parts| && forall i :: 0 <= i < |r| ==> r[i] == ParseSegment(parts[i])
  {
    if |parts| == 0 then [] else [ParseSegment(parts[0])] + ParsePieces(parts[1..])
  }

  /** Placeholder names, left to right: what `preg_match_all` collects. */
  function Names(segs: seq<Segment>): seq<string>
  {
    if |segs| == 0 then []
    else (if segs[0].Placeholder? then [segs[0].name] else []) + Names(segs[1..])
  }

  /** One piece of the path against one piece of the pattern: `Some` of the captures. */
  function MatchSegment(s: Segment, piece: string): (r: Option<seq<string>>)
    ensures r.Some? && s.Literal? ==> r.value == [] && piece == s.text
    ensures r.Some? && s.Placeholder? ==>
              |r.value| == 1 && |r.value[0]| > 0 && piece == s.prefix + r.value[0] + s.suffix
  {
    match s
    case Literal(t) => if piece == t then Some([]) else None
    case Placeholder(p, _, x) =>
      if |piece| > |p| + |x| && piece[..|p|] == p && piece[|piece| - |x|..] == x then
        var v := piece[|p|..|piece| - |x|];
        assert piece == p + v + x;
        Some([v])
      else None
  }

  /** The pattern with its placeholders filled by `vals`, piece by piece. */
  function RenderPieces(segs: seq<Segment>, vals: seq<string>): (r: seq<string>)
    requires |vals| == |Names(segs)|
    ensures |r| == |segs|
  {
    if |segs| == 0 then []
    else match segs[0]
      case Literal(t) => [t] + RenderPieces(segs[1..], vals)
      case Placeholder(p, _, x) => [p + vals[0] + x] + RenderPieces(segs[1..], vals[1..])
  }

  /**
   * The anchored match of the pieces of a path against the pieces of a
   * pattern: same number of pieces, each matching; `Some` of the captured
   * values, left to right. A match is exactly the pattern filled with them.
   */
  function MatchSegments(segs: seq<Segment>, pieces: seq<string>): (r: Option<seq<string>>)
    ensures r.Some? ==> |pieces| == |segs| && |r.value| == |Names(segs)|
    ensures r.Some? ==> RenderPieces(segs, r.value) == pieces
    ensures r.Some? ==> forall k :: 0 <= k < |r.value| ==> |r.value[k]| > 0
    decreases |segs|
  {
    if |segs| != |pieces| then None
    else if |segs| == 0 then Some([])
    else
      match MatchSegment(segs[0], pieces[0])
      case None => None
      case Some(v) =>
        match MatchSegments(segs[1..], pieces[1..])
        case None => None
        case Some(vs) =>
          assert (v + vs)[|v|..] == vs;
          assert pieces == [pieces[0]] + pieces[1..];
          Some(v + vs)
  }

  /** Captured values of the pattern `pattern` in `path`, or `None` if it does not match. */
  function MatchPattern(pattern: string, path: string): Option<seq<string>> {
    MatchSegments(Compile(pattern), Split(path, '/'))
  }

  /** `$params[$names[$i]] = $matches[$i + 1]` for every `$i`, as pairs. */
  function Zip(names: seq<string>, vals: seq<string>): (r: Params)
    requires |names| == |vals|
    ensures |r| == |names| && forall i :: 0 <= i < |r| ==> r[i] == (names[i], vals[i])
  {
    seq(|names|, i requires 0 <= i < |names| => (names[i], vals[i]))
  }

  /** A pattern is a parameter route for `path` if it has a `{` and its regex matches. */
  predicate IsParamMatch(pattern: string, path: string) {
    '{' in pattern && MatchPattern(pattern, path).Some?
  }

  /** Index of the first route, in registration order, that is a parameter match. */
  function FirstParamIndex(routes: seq<(string, Handler)>, path: string): (r: Option<nat>)
    ensures r.Some? ==> r.value < |routes| && IsParamMatch(routes[r.value].0, path)
    ensures r.Some? ==> forall j :: 0 <= j < r.value ==> !IsParamMatch(routes[j].0, path)
    ensures r.None? <==> forall j :: 0 <= j < |routes| ==> !IsParamMatch(routes[j].0, path)
  {
    if |routes| == 0 then None
    else if IsParamMatch(routes[0].0, path) then Some(0)
    else
      var rest := FirstParamIndex(routes[1..], path);
      assert forall j :: 1 <= j < |routes| ==> routes[j] == routes[1..][j - 1];
      if rest.None? then None else Some(rest.value + 1)
  }

  datatype RouteMatch = RouteMatch(route: string, params: Params)

  /** The captures of a matching pattern keyed by placeholder name; a repeated name keeps its last capture. */
  function BoundParams(pattern: string, path: string): Params
    requires MatchPattern(pattern, path).Some?
  {
    PutAll([], Zip(Names(Compile(pattern)), MatchPattern(pattern, path).value))
  }

  /**
   * Binding is positional: each placeholder name gets the capture at its
   * position, a name used twice keeps the later capture, and no other key is set.
   */
  lemma BoundParamsLookup(pattern: string, path: string, k: string)
    requires MatchPattern(pattern, path).Some?
    ensures var names := Names(Compile(pattern));
            var vals := MatchPattern(pattern, path).value;
            (k !in names ==> Lookup(BoundParams(pattern, path), k).None?) &&
            forall j :: 0 <= j < |names| && names[j] == k && (forall j' :: j < j' < |names| ==> names[j'] != k) ==>
              Lookup(BoundParams(pattern, path), k) == Some(vals[j])
  {
    ZipLookup(Names(Compile(pattern)), MatchPattern(pattern, path).value, k);
  }

  /** Looking a name up in the parameters bound from `names` and `vals`, later names winning. */
  lemma ZipLookup(names: seq<string>, vals: seq<string>, k: string)
    requires |names| == |vals|
    ensures k !in names ==> Lookup(PutAll([], Zip(names, vals)), k).None?
    ensures forall j :: 0 <= j < |names| && names[j] == k && (forall j' :: j < j' < |names| ==> names[j'] != k) ==>
              Lookup(PutAll([], Zip(names, vals)), k) == Some(vals[j])
  {
    var pairs := Zip(names, vals);
    PutAllLookup([], pairs, k);
    if k !in names {
      assert forall j :: 0 <= j < |pairs| ==> pairs[j].0 == names[j];
    }
    forall j | 0 <= j < |names| && names[j] == k && (forall j' :: j < j' < |names| ==> names[j'] != k)
      ensures Lookup(PutAll([], pairs), k) == Some(vals[j])
    {
      LastValueAt(pairs, j);
      FindFirst(pairs, k, Find(pairs, k).value);
    }
  }

  /** The result `matchParameterRoute` returns. */
  function FirstParamMatch(routes: seq<(string, Handler)>, path: string): (r: Option<RouteMatch>)
    ensures r.Some? ==>
              HasKey(routes, r.value.route) && IsParamMatch(r.value.route, path) &&
              r.value.params == BoundParams(r.value.route, path)
    ensures r.None? <==> forall j :: 0 <= j < |routes| ==> !IsParamMatch(routes[j].0, path)
  {
    match FirstParamIndex(routes, path)
    case None => None
    case Some(i) =>
      var pattern := routes[i].0;
      Some(RouteMatch(pattern, BoundParams(pattern, path)))
  }

  /** A first route that is a parameter match is the one returned. */
  lemma FirstParamMatchHead(routes: seq<(string, Handler)>, path: string)
    requires |routes| > 0 && IsParamMatch(routes[0].0, path)
    ensures FirstParamMatch(routes, path) == Some(RouteMatch(routes[0].0, BoundParams(routes[0].0, path)))
  {
  }

  /** A first route that is not a parameter match is skipped. */
  lemma FirstParamMatchTail(routes: seq<(string, Handler)>, path: string)
    requires |routes| > 0 && !IsParamMatch(routes[0].0, path)
    ensures FirstParamMatch(routes, path) == FirstParamMatch(routes[1..], path)
  {
    match FirstParamIndex(routes[1..], path)
    case None =>
    case Some(i) => assert FirstParamIndex(routes, path) == Some(i + 1);
  }

  /**
   * `matchParameterRoute`: scans the routes in registration order, skipping
   * patterns without `{`, and returns the first whose regex matches, with its
   * captures bound to the placeholder names.
   */
  method MatchParameterRoute(routes: seq<(string, Handler)>, path: string) returns (r: Option<RouteMatch>)
    ensures r == FirstParamMatch(routes, path)
  {
    var i := 0;
    while i < |routes|
      invariant 0 <= i <= |routes|
      invariant FirstParamMatch(routes, path) == FirstParamMatch(routes[i..], path)
    {
      var pattern := routes[i].0;
      var params := TryPattern(pattern, path);
      if params.Some? {
        FirstParamMatchHead(routes[i..], path);
        return Some(RouteMatch(pattern, params.value));
      }
      FirstParamMatchTail(routes[i..], path);
      assert routes[i..][1..] == routes[i + 1..];
      i := i + 1;
    }
    return None;
  }

  /** One iteration of the scan: the `{` test, the regex match, and the name binding. */
  method TryPattern(pattern: string, path: string) returns (r: Option<Params>)
    ensures r.Some? <==> IsParamMatch(pattern, path)
    ensures r.Some? ==> r.value == BoundParams(pattern, path)
  {
    if '{' !in pattern {
      return None;
    }
    var segs := Compile(pattern);
    var matched := MatchSegments(segs, Split(path, '/'));
    if matched.None? {
      return None;
    }
    var params := BindParams(Names(segs), matched.value);
    return Some(params);
  }

  /** The `for` loop of `matchParameterRoute` that binds captures to names. */
  method BindParams(names: seq<string>, vals: seq<string>) returns (params: Params)
    requires |names| == |vals|
    ensures params == PutAll([], Zip(names, vals))
  {
    params := [];
    var k := 0;
    while k < |names|
      invariant 0 <= k <= |names|
      invariant params == PutAll([], Zip(names, vals)[..k])
    {
      assert Zip(names, vals)[..k + 1][..k] == Zip(names, vals)[..k];
      params := Put(params, names[k], vals[k]);
      k := k + 1;
    }
    assert Zip(names, vals)[..|names|] == Zip(names, vals);
  }

  // ---------------------------------------------------------------------------
  // Properties of the matcher
  // ---------------------------------------------------------------------------

  /** Literal text and the text around a placeholder never contain `/`. */
  predicate SegmentSlashFree(sg: Segment) {
    match sg
    case Literal(t) => '/' !in t
    case Placeholder(p, _, x) => '/' !in p && '/' !in x
  }

  predicate SlashFree(segs: seq<Segment>) {
    forall i :: 0 <= i < |segs| ==> SegmentSlashFree(segs[i])
  }

  lemma ParseSegmentSlashFree(seg: string)
    requires '/' !in seg
    ensures SegmentSlashFree(ParseSegment(seg))
  {
    var r := ParseSegment(seg);
    if r.Placeholder? {
      OuterPartsSlashFree(seg, r.prefix, r.name, r.suffix);
    }
  }

  /** The text around a placeholder is part of the piece, so it has no `/` when the piece has none. */
  lemma OuterPartsSlashFree(seg: string, p: string, n: string, x: string)
    requires seg == p + "{" + n + "}" + x && '/' !in seg
    ensures '/' !in p && '/' !in x
  {
    forall k | 0 <= k < |p| ensures p[k] != '/' {
      assert seg[k] == p[k];
    }
    forall k | 0 <= k < |x| ensures x[k] != '/' {
      assert seg[|p| + 1 + |n| + 1 + k] == x[k];
    }
  }

  lemma CompileSlashFree(pattern: string)
    ensures SlashFree(Compile(pattern))
  {
    var parts := Split(pattern, '/');
    forall i | 0 <= i < |parts| ensures SegmentSlashFree(Compile(pattern)[i]) {
      ParseSegmentSlashFree(parts[i]);
    }
  }

  /**
   * Anchoring: a path a pattern matches is exactly the pattern with each
   * placeholder replaced by its captured value, and each value is a non-empty
   * run of characters other than `/`.
   */
  lemma {:induction false} MatchIsFilledPattern(pattern: string, path: string)
    requires MatchPattern(pattern, path).Some?
    ensures var vals := MatchPattern(pattern, path).value;
            Join(RenderPieces(Compile(pattern), vals), "/") == path &&
            forall k :: 0 <= k < |vals| ==> |vals[k]| > 0 && '/' !in vals[k]
  {
    var segs := Compile(pattern);
    var pieces := Split(path, '/');
    var vals := MatchPattern(pattern, path).value;
    JoinSplit(path, '/');
    CapturesArePieceParts(segs, pieces);
  }

  /** Each capture is a middle part of some piece, so it holds no `/` if no piece does. */
  lemma {:induction false} CapturesArePieceParts(segs: seq<Segment>, pieces: seq<string>)
    requires MatchSegments(segs, pieces).Some?
    requires forall i :: 0 <= i < |pieces| ==> '/' !in pieces[i]
    ensures forall k :: 0 <= k < |MatchSegments(segs, pieces).value| ==> '/' !in MatchSegments(segs, pieces).value[k]
    decreases |segs|
  {
    if |segs| > 0 {
      var v := MatchSegment(segs[0], pieces[0]).value;
      var vs := MatchSegments(segs[1..], pieces[1..]).value;
      CapturesArePieceParts(segs[1..], pieces[1..]);
      assert MatchSegments(segs, pieces).value == v + vs;
      if segs[0].Placeholder? {
        var p := segs[0].prefix;
        assert pieces[0] == p + v[0] + segs[0].suffix;
        forall c | c in v[0] ensures c != '/' {
          var k :| 0 <= k < |v[0]| && v[0][k] == c;
          assert pieces[0][|p| + k] == c;
        }
      }
    }
  }

  /** Filling a pattern's pieces and matching them back yields the same values. */
  lemma {:induction false} RenderedPiecesMatch(segs: seq<Segment>, vals: seq<string>)
    requires |vals| == |Names(segs)|
    requires forall k :: 0 <= k < |vals| ==> |vals[k]| > 0
    ensures MatchSegments(segs, RenderPieces(segs, vals)) == Some(vals)
    decreases |segs|
  {
    if |segs| > 0 {
      var pieces := RenderPieces(segs, vals);
      match segs[0]
      case Literal(t) =>
        assert pieces[1..] == RenderPieces(segs[1..], vals);
        RenderedPiecesMatch(segs[1..], vals);
        assert [] + vals == vals;
      case Placeholder(p, n, x) =>
        var piece := p + vals[0] + x;
        assert pieces[0] == piece && pieces[1..] == RenderPieces(segs[1..], vals[1..]);
        assert piece[..|p|] == p && piece[|piece| - |x|..] == x && piece[|p|..|piece| - |x|] == vals[0];
        assert MatchSegment(segs[0], piece) == Some([vals[0]]);
        RenderedPiecesMatch(segs[1..], vals[1..]);
        assert [vals[0]] + vals[1..] == vals;
    }
  }

  /** Rendered pieces contain no `/` when neither the pattern text nor the values do. */
  lemma {:induction false} RenderedPiecesSlashFree(segs: seq<Segment>, vals: seq<string>)
    requires |vals| == |Names(segs)| && SlashFree(segs)
    requires forall k :: 0 <= k < |vals| ==> '/' !in vals[k]
    ensures forall i :: 0 <= i < |segs| ==> '/' !in RenderPieces(segs, vals)[i]
    decreases |segs|
  {
    if |segs| > 0 {
      var pieces := RenderPieces(segs, vals);
      assert SlashFree(segs[1..]) by {
        forall i | 0 <= i < |segs| - 1 ensures SegmentSlashFree(segs[1..][i]) {
          assert segs[1..][i] == segs[i + 1];
        }
      }
      match segs[0]
      case Literal(t) =>
        RenderedPiecesSlashFree(segs[1..], vals);
        assert pieces[1..] == RenderPieces(segs[1..], vals);
      case Placeholder(p, n, x) =>
        RenderedPiecesSlashFree(segs[1..], vals[1..]);
        assert pieces[1..] == RenderPieces(segs[1..], vals[1..]);
        assert '/' !in p + vals[0] + x;
    }
  }

  /**
   * Completeness: filling a pattern's placeholders with any non-empty values
   * free of `/` gives a path the pattern matches, capturing those values.
   */
  lemma {:induction false} FilledPatternMatches(pattern: string, vals: seq<string>)
    requires |vals| == |Names(Compile(pattern))|
    requires forall k :: 0 <= k < |vals| ==> |vals[k]| > 0 && '/' !in vals[k]
    ensures MatchPattern(pattern, Join(RenderPieces(Compile(pattern), vals), "/")) == Some(vals)
  {
    var segs := Compile(pattern);
    var pieces := RenderPieces(segs, vals);
    CompileSlashFree(pattern);
    RenderedPiecesSlashFree(segs, vals);
    SplitJoin(pieces, '/');
    RenderedPiecesMatch(segs, vals);
  }

  /** `explode('/', "/a/x")` starts with an empty piece and `a`, for `a` free of `/`. */
  lemma SplitSlashPrefix(a: string, x: string)
    requires '/' !in a
    ensures Split("/" + a + "/" + x, '/') == ["", a] + Split(x, '/')
  {
    var t := a + "/" + x;
    var s := "/" + t;
    assert s == "/" + a + "/" + x;
    SplitAt(s, '/', 0);
    assert s[1..] == t;
    SplitAfter(a, x);
  }

  lemma SplitAfter(a: string, x: string)
    requires '/' !in a
    ensures Split(a + "/" + x, '/') == [a] + Split(x, '/')
  {
    var t := a + "/" + x;
    forall k | 0 <= k < |a| ensures t[k] != '/' {
      assert t[k] == a[k];
    }
    SplitAt(t, '/', |a|);
    assert t[..|a|] == a && t[|a| + 1..] == x;
  }

  lemma SplitTwoLevels(a: string, x: string)
    requires '/' !in a && '/' !in x
    ensures Split("/" + a + "/" + x, '/') == ["", a, x]
  {
    SplitSlashPrefix(a, x);
  }

  /** A pattern `/a/{n}` compiles to an empty piece, the literal `a` and a bare placeholder. */
  lemma CompileTwoLevels(a: string, n: string)
    requires '/' !in a && '{' !in a && |n| > 0 && '/' !in n
    ensures Compile("/" + a + "/{" + n + "}") == [Literal(""), Literal(a), Placeholder("", n, "")]
  {
    var seg := "{" + n + "}";
    assert "/" + a + "/{" + n + "}" == "/" + a + "/" + seg;
    SplitTwoLevels(a, seg);
    ParseLiteralSegment("");
    ParseLiteralSegment(a);
    ParseBareSegment(n);
  }

  lemma ParseLiteralSegment(seg: string)
    requires '{' !in seg
    ensures ParseSegment(seg) == Literal(seg)
  {
  }

  lemma ParseBareSegment(n: string)
    requires |n| > 0
    ensures ParseSegment("{" + n + "}") == Placeholder("", n, "")
  {
    var seg := "{" + n + "}";
    IndexOfAt(seg, '{', 0);
    LastIndexOfAt(seg, '}', |seg| - 1);
    assert seg[1..|seg| - 1] == n;
  }

  /** `explode('/', "/a/v/w")` has four pieces. */
  lemma SplitThreeLevels(a: string, v: string, w: string)
    requires '/' !in a && '/' !in v && '/' !in w
    ensures |Split("/" + a + "/" + v + "/" + w, '/')| == 4
  {
    var x := v + "/" + w;
    assert "/" + a + "/" + v + "/" + w == "/" + a + "/" + x;
    SplitSlashPrefix(a, x);
    SplitAt(x, '/', |v|);
    assert x[|v| + 1..] == w;
  }

  /**
   * The shape of `/items/{id}`: a pattern `/a/{n}` matches `/a/v` for every
   * non-empty `v` without `/`, capturing `v`; it does not match `/a/v/w` (one
   * piece too many) nor `/a/` (an empty placeholder).
   */
  lemma TwoLevelExample(a: string, n: string, v: string, w: string)
    requires '/' !in a && '{' !in a && |n| > 0 && '/' !in n
    requires |v| > 0 && '/' !in v && '/' !in w
    ensures MatchPattern("/" + a + "/{" + n + "}", "/" + a + "/" + v) == Some([v])
    ensures MatchPattern("/" + a + "/{" + n + "}", "/" + a + "/" + v + "/" + w).None?
    ensures MatchPattern("/" + a + "/{" + n + "}", "/" + a + "/").None?
  {
    CompileTwoLevels(a, n);
    SplitTwoLevels(a, v);
    SplitThreeLevels(a, v, w);
    SplitTwoLevels(a, "");
    assert "/" + a + "/" + "" == "/" + a + "/";
    TwoLevelSegments(a, n, v);
  }

  lemma TwoLevelSegments(a: string, n: string, v: string)
    requires |v| > 0
    ensures MatchSegments([Literal(""), Literal(a), Placeholder("", n, "")], ["", a, v]) == Some([v])
    ensures MatchSegments([Literal(""), Literal(a), Placeholder("", n, "")], ["", a, ""]).None?
  {
    var s2 := [Placeholder("", n, "")];
    BarePlaceholder(n, v);
    BarePlaceholder(n, "");
    var s1 := [Literal(a)] + s2;
    LiteralCons(a, s2, [v]);
    LiteralCons(a, s2, [""]);
    LiteralCons("", s1, [a] + [v]);
    LiteralCons("", s1, [a] + [""]);
    ConsThree(Literal(""), Literal(a), Placeholder("", n, ""));
    ConsThree("", a, v);
    ConsThree("", a, "");
  }

  lemma ConsThree<T>(x: T, y: T, z: T)
    ensures [x] + ([y] + [z]) == [x, y, z]
  {
  }

  /** A pattern piece that is a bare `{name}` captures any non-empty piece whole. */
  lemma BarePlaceholder(n: string, v: string)
    ensures MatchSegments([Placeholder("", n, "")], [v]) == if |v| > 0 then Some([v]) else None
  {
    if |v| > 0 {
      assert v[..0] == "" && v[|v|..] == "" && v[0..|v|] == v;
      assert MatchSegment(Placeholder("", n, ""), v) == Some([v]);
      assert [Placeholder("", n, "")][1..] == [] && [v][1..] == [];
      assert [v] + [] == [v];
    }
  }

  /** A literal piece equal to its pattern piece captures nothing and leaves the rest to match. */
  lemma LiteralCons(t: string, segs: seq<Segment>, pieces: seq<string>)
    ensures MatchSegments([Literal(t)] + segs, [t] + pieces) == MatchSegments(segs, pieces)
  {
    assert ([Literal(t)] + segs)[1..] == segs && ([t] + pieces)[1..] == pieces;
    var rest := MatchSegments(segs, pieces);
    if rest.Some? {
      assert [] + rest.value == rest.value;
    }
  }

  // ---------------------------------------------------------------------------
  // `$_GET`
  // ---------------------------------------------------------------------------

  /** The `$_GET` superglobal, which `dispatchWithParams` writes. */
  class GetVars {
    var entries: Params

    constructor (initial: Params)
      ensures entries == initial
    {
      entries := initial;
    }

    /** `foreach ($params as $key => $value) { $_GET[$key] = $value; }` */
    method Merge(params: Params)
      modifies this
      ensures entries == PutAll(old(entries), params)
    {
      var i := 0;
      while i < |params|
        invariant 0 <= i <= |params|
        invariant entries == PutAll(old(entries), params[..i])
      {
        assert params[..i + 1][..i] == params[..i];
        entries := Put(entries, params[i].0, params[i].1);
        i := i + 1;
      }
      assert params[..|params|] == params;
    }
  }

  /** Merging parameters overwrites the keys they name and leaves every other key alone. */
  lemma MergeOverwrites(get: Params, params: Params, k: string)
    requires DistinctKeys(params)
    ensures Lookup(PutAll(get, params), k) == if HasKey(params, k) then Lookup(params, k) else Lookup(get, k)
  {
    PutAllLookup(get, params, k);
    LastValueDistinct(params, k);
  }

  // ---------------------------------------------------------------------------
  // The router's handling steps, on its route and error handler tables
  // ---------------------------------------------------------------------------

  /** `handleError($code)`: the registered handler if callable, else the default page; then `exit`. */
  method HandleError(errorHandlers: seq<(int, Handler)>, code: int, page: int -> Body, get: Params, env: Env)
    returns (s: Step)
    ensures s == ErrorFlow(errorHandlers, code, page, env, get)
  {
    var registered := Lookup(errorHandlers, code);
    if registered.Some? && registered.value.Callable? {
      var h := registered.value.ref;
      var b := Invoke(h, env, get);
      s := Step(Settle(b, code, h), [ErrorCall(code, h)], get);
    } else {
      s := Step(Exit(DefaultError(code, page(code))), [], get);
    }
  }

  /** `dispatch($key)`: 404 for a non-callable, otherwise run it; a throw becomes `handleError(500)`. */
  method Dispatch(routes: seq<(string, Handler)>, errorHandlers: seq<(int, Handler)>, page: int -> Body,
                  key: string, get: Params, env: Env) returns (s: Step)
    requires HasKey(routes, key)
    ensures s == DispatchFlow(routes, errorHandlers, key, [], page, env, get)
  {
    var handler := Lookup(routes, key).value;
    if handler.NotCallable? {
      s := HandleError(errorHandlers, 404, page, get, env);
      return;
    }
    var h := handler.ref;
    var b := Invoke(h, env, get);
    if b.Throws? {
      var e := HandleError(errorHandlers, 500, page, get, env);
      s := Step(e.flow, [RouteCall(h)] + e.calls, get);
    } else {
      s := Step(Settle(b, 200, h), [RouteCall(h)], get);
    }
  }

  /** `dispatchWithParams($key, $params)`: as `dispatch`, after merging the parameters into `$_GET`. */
  method DispatchWithParams(routes: seq<(string, Handler)>, errorHandlers: seq<(int, Handler)>, page: int -> Body,
                            key: string, params: Params, gv: GetVars, env: Env) returns (s: Step)
    requires HasKey(routes, key)
    modifies gv
    ensures s == DispatchFlow(routes, errorHandlers, key, params, page, env, old(gv.entries))
    ensures gv.entries == s.get
  {
    var handler := Lookup(routes, key).value;
    if handler.NotCallable? {
      s := HandleError(errorHandlers, 404, page, gv.entries, env);
      return;
    }
    gv.Merge(params);
    var h := handler.ref;
    var b := Invoke(h, env, gv.entries);
    if b.Throws? {
      var e := HandleError(errorHandlers, 500, page, gv.entries, env);
      s := Step(e.flow, [RouteCall(h)] + e.calls, gv.entries);
    } else {
      s := Step(Settle(b, 200, h), [RouteCall(h)], gv.entries);
    }
  }

  /** The `try` body of `handleRequest`: exact route, else parameter route, else `handleError(404)`. */
  method Route(routes: seq<(string, Handler)>, errorHandlers: seq<(int, Handler)>, page: int -> Body,
               path: string, gv: GetVars, env: Env) returns (s: Step)
    modifies gv
    ensures s == RouteFlow(routes, errorHandlers, path, page, env, old(gv.entries))
    ensures gv.entries == s.get
  {
    if HasKey(routes, path) {
      s := Dispatch(routes, errorHandlers, page, path, gv.entries, env);
    } else {
      var matched := MatchParameterRoute(routes, path);
      match matched {
        case Some(m) =>
          s := DispatchWithParams(routes, errorHandlers, page, m.route, m.params, gv, env);
        case None =>
          s := HandleError(errorHandlers, 404, page, gv.entries, env);
      }
    }
  }
}
