/**
 * `anon/Modules/Router.php` (class `Anon_Router`): builds routes from the
 * application's route tree, loads them with the error handlers from the
 * route registry, and handles one request: the request path is normalised
 * and passed through the `router_request_path` filter, an exact route is
 * dispatched, else the first matching `{name}` route (its parameters merged
 * into `$_GET`), else the 404 error page; exceptions end in the 500 page.
 */
module Router {
  import opened Common
  import opened Hook
  import opened RouteCore
  import opened Config

  // ---------------------------------------------------------------------------
  // The request path
  // ---------------------------------------------------------------------------

  /**
   * `getRequestPath`: the path `parse_url` finds in `REQUEST_URI` (`/` when
   * absent), cut at a `?`, with a `/` put in front when it does not start
   * with one. A failed parse gives `false`, which `strstr`, `strpos` and the
   * concatenation read as the empty string, so the result is then `/`; a
   * parsed path is normalised exactly as `addRoute` normalises route keys.
   */
  function GetRequestPath(requestUri: Option<string>): (r: string)
    ensures StartsWithSlash(r) && '?' !in r && '#' !in r && NoControls(r)
    ensures ParseUrlPath(requestUri.GetOr("/")).None? ==> r == "/"
    ensures ParseUrlPath(requestUri.GetOr("/")).Some? ==> r == NormalizeRoutePath(ParseUrlPath(requestUri.GetOr("/")).value)
  {
    var parsed := ParseUrlPath(requestUri.GetOr("/"));
    var path := StripQuery(parsed.GetOr(""));
    assert path == parsed.GetOr("");
    if StartsWithSlash(path) then path else NoControlsAfterSlash(path); "/" + path
  }

  lemma NoControlsAfterSlash(p: string)
    requires NoControls(p)
    ensures NoControls("/" + p)
  {
    assert forall k :: 1 <= k <= |p| ==> ("/" + p)[k] == p[k - 1];
  }

  /** Without `REQUEST_URI` the path is `/`. */
  lemma NoRequestUriIsRoot()
    ensures GetRequestPath(None) == "/"
  {
    ParseUrlPathOfPath("/", "");
    assert ':' !in "/";
  }

  /**
   * A request for a route key, with or without a query string, yields that
   * key with its control characters replaced, unless `parse_url` reads a port
   * after the key's first `:` (then `/`): every route `addRoute` stores
   * without `?`, `#`, control characters or such a port is reachable.
   */
  lemma RequestPathOfRoute(key: string, query: string)
    requires '?' !in key && '#' !in key
    ensures var k := NormalizeRoutePath(key);
            GetRequestPath(Some(k)) == if PortIn(k, true) then "/" else ControlsReplaced(k)
    ensures var k := NormalizeRoutePath(key);
            GetRequestPath(Some(k + "?" + query)) == if PortIn(k, false) then "/" else ControlsReplaced(k)
    ensures var k := NormalizeRoutePath(key);
            NoControls(k) && !PortIn(k, true) ==> GetRequestPath(Some(k)) == k && GetRequestPath(Some(k + "?" + query)) == k
  {
    var k := NormalizeRoutePath(key);
    assert k == key || k == "/" + key;
    assert '?' !in k && '#' !in k;
    ParseUrlPathOfPath(k, query);
    var c := ControlsReplaced(k);
    assert StartsWithSlash(c) && '?' !in c by {
      assert c[0] == k[0];
      forall i | 0 <= i < |c| ensures c[i] != '?' { assert k[i] in k; }
    }
  }

  /**
   * Normalising a normalised path again changes nothing, unless it ends in
   * what `parse_url` reads as a port (`/x:80`, reached from `/x:80?y`),
   * which then fails to parse and gives `/`.
   */
  lemma GetRequestPathIdempotent(requestUri: Option<string>)
    ensures var r := GetRequestPath(requestUri);
            GetRequestPath(Some(r)) == if PortIn(r, true) then "/" else r
  {
    var r := GetRequestPath(requestUri);
    ParseUrlPathOfPath(r, "");
  }

  /** A clock-like last segment is read as a port: `/t/12:30` routes to `/`. */
  lemma PortInPathGivesRoot(a: string, d: string)
    requires ':' !in a && '?' !in a && '#' !in a
    requires 1 <= |d| <= 5 && forall k :: 0 <= k < |d| ==> IsDigit(d[k])
    ensures GetRequestPath(Some("/" + a + ":" + d)) == "/"
    ensures GetRequestPath(Some("/" + a + ":" + d + "/")) == "/"
  {
    PortMakesParseFail("/" + a, d, "");
    PortMakesParseFail("/" + a, d, "/");
    assert "/" + a + ":" + d + "" == "/" + a + ":" + d;
  }

  // ---------------------------------------------------------------------------
  // Handling a request
  // ---------------------------------------------------------------------------

  /** `showDefaultError`: the JSON body `{code, message}`. */
  function JsonPage(code: int): (r: Body)
    ensures r.Json? && r.code == code
    ensures code == 404 ==> r.message == "404 Not Found"
    ensures code == 500 ==> r.message == "500 Internal Server Error"
    ensures code != 400 && code != 404 && code != 500 ==> r.message == "HTTP " + IntToString(code)
  {
    Json(code, DefaultMessage(code))
  }

  /**
   * The string the later `string` parameters receive for what the filter
   * returned: strings as they are, integers in decimal, `true` as `"1"` and
   * `false` as `""`; `null` and arrays end in a `TypeError`. The same string
   * serves as the key of the first `isset(self::$routes[$path])`: PHP would
   * cast a boolean key to the integer 0 or 1 instead, but every stored route
   * key begins with `/`, so neither form finds a route.
   */
  function PathOf(v: Value): (r: Option<string>)
    ensures r.None? <==> v.VNull? || v.VArray?
    ensures v.VStr? ==> r == Some(v.s)
  {
    match v
    case VStr(s) => Some(s)
    case VInt(i) => Some(IntToString(i))
    case VBool(b) => Some(if b then "1" else "")
    case _ => None
  }

  /**
   * `handleRequest` once the filter has returned `filtered`: route the path
   * and turn an escaping exception into `handleError(500)`. At most one route
   * handler runs, always first, followed by at most two error handlers.
   */
  function RequestFlow(routes: seq<(string, Handler)>, errorHandlers: seq<(int, Handler)>, filtered: Value,
                       env: Env, get: Params): (r: Step)
    ensures CountRouteCalls(r.calls) <= 1 && |r.calls| <= 3
    ensures CountRouteCalls(r.calls) == 1 ==> r.calls[0].RouteCall?
    ensures PathOf(filtered).None? ==> CountRouteCalls(r.calls) == 0 && r.get == get && |r.calls| <= 1
  {
    match PathOf(filtered)
    case None =>
      var s := Step(Raise(Exc(ErrorExc, "request path is not a string")), [], get);
      CatchAll(s, errorHandlers, JsonPage, env)
    case Some(p) =>
      var s := RouteFlow(routes, errorHandlers, p, JsonPage, env, get);
      CatchAll(s, errorHandlers, JsonPage, env)
  }

  /** An exact route whose handler returns is the whole response, with status 200. */
  lemma ExactMatchWins(routes: seq<(string, Handler)>, errorHandlers: seq<(int, Handler)>, path: string,
                       h: CallableRef, env: Env, get: Params)
    requires Lookup(routes, path) == Some(Callable(h)) && Invoke(h, env, get).Returns?
    ensures RequestFlow(routes, errorHandlers, VStr(path), env, get) == Step(Exit(Handled(200, h)), [RouteCall(h)], get)
  {
  }

  /** No exact and no parameter route, no 404 handler: the default JSON 404 page, nothing called. */
  lemma NoMatchIs404(routes: seq<(string, Handler)>, errorHandlers: seq<(int, Handler)>, path: string,
                     env: Env, get: Params)
    requires !HasKey(routes, path)
    requires forall j :: 0 <= j < |routes| ==> !IsParamMatch(routes[j].0, path)
    requires !HasKey(errorHandlers, 404)
    ensures RequestFlow(routes, errorHandlers, VStr(path), env, get) ==
            Step(Exit(DefaultError(404, Json(404, "404 Not Found"))), [], get)
  {
  }

  /** A route key holding something that is not callable is answered like a missing route. */
  lemma NotCallableIs404(routes: seq<(string, Handler)>, errorHandlers: seq<(int, Handler)>, path: string,
                         env: Env, get: Params)
    requires Lookup(routes, path) == Some(NotCallable)
    requires !HasKey(errorHandlers, 404)
    ensures RequestFlow(routes, errorHandlers, VStr(path), env, get) ==
            Step(Exit(DefaultError(404, Json(404, "404 Not Found"))), [], get)
  {
  }

  /** A route handler that throws, with no 500 handler: the default JSON 500 page after the handler. */
  lemma ThrowingHandlerIs500(routes: seq<(string, Handler)>, errorHandlers: seq<(int, Handler)>, path: string,
                             h: CallableRef, env: Env, get: Params)
    requires Lookup(routes, path) == Some(Callable(h)) && Invoke(h, env, get).Throws?
    requires !HasKey(errorHandlers, 500)
    ensures RequestFlow(routes, errorHandlers, VStr(path), env, get) ==
            Step(Exit(DefaultError(500, Json(500, "500 Internal Server Error"))), [RouteCall(h)], get)
  {
  }

  /**
   * A throwing route handler and a throwing 500 handler: the 500 handler runs
   * a second time from `handleRequest`'s catch, and its exception escapes.
   */
  lemma ThrowingErrorHandlerRunsTwice(routes: seq<(string, Handler)>, errorHandlers: seq<(int, Handler)>,
                                      path: string, h: CallableRef, e: CallableRef, env: Env, get: Params)
    requires Lookup(routes, path) == Some(Callable(h)) && Invoke(h, env, get).Throws?
    requires Lookup(errorHandlers, 500) == Some(Callable(e)) && Invoke(e, env, get).Throws?
    ensures RequestFlow(routes, errorHandlers, VStr(path), env, get) ==
            Step(Raise(Invoke(e, env, get).exc), [RouteCall(h), ErrorCall(500, e), ErrorCall(500, e)], get)
  {
  }

  /**
   * A parameter route: `$_GET` afterwards holds each bound parameter under its
   * name and every other key as before.
   */
  lemma ParamRouteBindsGet(routes: seq<(string, Handler)>, errorHandlers: seq<(int, Handler)>, path: string,
                           env: Env, get: Params, k: string)
    requires !HasKey(routes, path) && FirstParamMatch(routes, path).Some?
    requires Lookup(routes, FirstParamMatch(routes, path).value.route).value.Callable?
    ensures var m := FirstParamMatch(routes, path).value;
            var r := RequestFlow(routes, errorHandlers, VStr(path), env, get);
            Lookup(r.get, k) == if HasKey(m.params, k) then Lookup(m.params, k) else Lookup(get, k)
  {
    var m := FirstParamMatch(routes, path).value;
    var names := Names(Compile(m.route));
    var vals := MatchPattern(m.route, path).value;
    assert m.params == PutAll([], Zip(names, vals));
    MergeOverwrites(get, m.params, k);
  }

  /** A filter that returns `null` or an array: the path cannot be used and the 500 page follows. */
  lemma BadFilterValueIs500(routes: seq<(string, Handler)>, errorHandlers: seq<(int, Handler)>, filtered: Value,
                            env: Env, get: Params)
    requires filtered.VNull? || filtered.VArray?
    requires !HasKey(errorHandlers, 500)
    ensures RequestFlow(routes, errorHandlers, filtered, env, get) ==
            Step(Exit(DefaultError(500, Json(500, "500 Internal Server Error"))), [], get)
  {
  }

  /**
   * A leaf registered with `useLoginCheck`, requested by a visitor who is not
   * logged in: the handler writes the JSON 401 body and exits with status 200,
   * and the view is never reached.
   */
  lemma LoginCheckRejects(routes: seq<(string, Handler)>, errorHandlers: seq<(int, Handler)>, path: string,
                          view: string, registeredPath: string, env: Env, get: Params)
    requires Lookup(routes, path) == Some(Callable(AppView(view, registeredPath, true)))
    requires !env.loggedIn
    ensures RequestFlow(routes, errorHandlers, VStr(path), env, get) ==
            Step(Exit(Emitted(200, Json(401, "Unauthorized"))), [RouteCall(AppView(view, registeredPath, true))], get)
  {
    var h := AppView(view, registeredPath, true);
    assert PutAll(get, []) == get;
    assert Invoke(h, env, get) == Exits(200, Json(401, "Unauthorized"));
    var s := DispatchFlow(routes, errorHandlers, path, [], JsonPage, env, get);
    assert s == Step(Exit(Emitted(200, Json(401, "Unauthorized"))), [RouteCall(h)], get);
    assert RouteFlow(routes, errorHandlers, path, JsonPage, env, get) == s;
  }

  // ---------------------------------------------------------------------------
  // The application route tree
  // ---------------------------------------------------------------------------

  /** A node of `app/App.php`'s tree: a leaf names its view, a group nests further keys. */
  datatype RouteNode =
    | Leaf(view: string, useLoginCheck: Option<bool>)
    | Group(children: seq<Branch>)

  /** One `$key => $value` entry of the tree. */
  datatype Branch = Branch(key: string, node: RouteNode)

  /** `$basePath ? $basePath . '/' . $key : $key`. */
  function CurrentPath(base: string, key: string): string {
    if IsFalsyString(base) then key else base + "/" + key
  }

  /** What one leaf registers: the unnormalised path, the view and the login flag. */
  datatype Registration = Registration(path: string, view: string, loginCheck: bool)

  /** The registrations `registerAppRoutes($tree, $base)` makes, in order. */
  function Registrations(tree: seq<Branch>, base: string): seq<Registration>
    decreases tree
  {
    if |tree| == 0 then []
    else Registrations(tree[..|tree| - 1], base) + BranchRegistrations(tree[|tree| - 1], base)
  }

  function BranchRegistrations(b: Branch, base: string): seq<Registration>
    decreases b
  {
    var path := CurrentPath(base, b.key);
    match b.node
    case Leaf(view, useLoginCheck) => [Registration(path, view, useLoginCheck.GetOr(false))]
    case Group(children) => Registrations(children, path)
  }

  /** The route entries registrations write: normalised key, leaf closure. */
  function Stored(regs: seq<Registration>): (r: seq<(string, Handler)>)
    ensures |r| == |regs|
    ensures forall i :: 0 <= i < |regs| ==>
              r[i] == (NormalizeRoutePath(regs[i].path), Callable(AppView(regs[i].view, regs[i].path, regs[i].loginCheck)))
  {
    seq(|regs|, i requires 0 <= i < |regs| =>
      (NormalizeRoutePath(regs[i].path), Callable(AppView(regs[i].view, regs[i].path, regs[i].loginCheck))))
  }

  lemma StoredAppend(a: seq<Registration>, b: seq<Registration>)
    ensures Stored(a + b) == Stored(a) + Stored(b)
  {
  }

  /** A leaf's entries, written over the routes, are the one route for its path. */
  lemma LeafStep(routes: seq<(string, Handler)>, b: Branch, base: string)
    requires b.node.Leaf?
    ensures PutAll(routes, Stored(BranchRegistrations(b, base))) ==
            Put(routes, NormalizeRoutePath(CurrentPath(base, b.key)),
                Callable(AppView(b.node.view, CurrentPath(base, b.key), b.node.useLoginCheck.GetOr(false))))
  {
    var regs := BranchRegistrations(b, base);
    assert Stored(regs)[..0] == [];
  }

  /** Registering one more branch of the tree extends the routes by that branch's entries. */
  lemma RegistrationsStep(routes: seq<(string, Handler)>, tree: seq<Branch>, base: string, i: nat)
    requires i < |tree|
    ensures PutAll(routes, Stored(Registrations(tree[..i + 1], base))) ==
            PutAll(PutAll(routes, Stored(Registrations(tree[..i], base))), Stored(BranchRegistrations(tree[i], base)))
  {
    assert tree[..i + 1][..i] == tree[..i] && tree[..i + 1][i] == tree[i];
    StoredAppend(Registrations(tree[..i], base), BranchRegistrations(tree[i], base));
    PutAllAppend(routes, Stored(Registrations(tree[..i], base)), Stored(BranchRegistrations(tree[i], base)));
  }

  // An independent reading of the tree: each leaf with the keys leading to it.

  /** A leaf of the tree with the keys on the way from the root to it. */
  datatype LeafInfo = LeafInfo(keys: seq<string>, view: string, useLoginCheck: Option<bool>)

  /** The leaves of the tree, depth first, in key order. */
  function Flatten(tree: seq<Branch>): seq<LeafInfo>
    decreases tree
  {
    if |tree| == 0 then []
    else Flatten(tree[..|tree| - 1]) + FlattenBranch(tree[|tree| - 1])
  }

  function FlattenBranch(b: Branch): seq<LeafInfo>
    decreases b
  {
    match b.node
    case Leaf(view, useLoginCheck) => [LeafInfo([b.key], view, useLoginCheck)]
    case Group(children) => Under(b.key, Flatten(children))
  }

  /** The leaves of a group, seen from one level up. */
  function Under(key: string, leaves: seq<LeafInfo>): (r: seq<LeafInfo>)
    ensures |r| == |leaves|
    ensures forall i :: 0 <= i < |leaves| ==> r[i] == leaves[i].(keys := [key] + leaves[i].keys)
  {
    seq(|leaves|, i requires 0 <= i < |leaves| => leaves[i].(keys := [key] + leaves[i].keys))
  }

  /** No group of the tree sits under a key PHP treats as false (`""` or `"0"`). */
  predicate NoFalsyGroupKeys(tree: seq<Branch>)
    decreases tree
  {
    forall i :: 0 <= i < |tree| ==> NoFalsyGroupKey(tree[i])
  }

  predicate NoFalsyGroupKey(b: Branch)
    decreases b
  {
    match b.node
    case Leaf(_, _) => true
    case Group(children) => !IsFalsyString(b.key) && NoFalsyGroupKeys(children)
  }

  /**
   * `registerAppRoutes` registers one route per leaf, in depth-first order,
   * with the leaf's view and its `useLoginCheck` (false when missing); when
   * no group key is falsy the path is the leaf's keys joined by `/` under the
   * base path.
   */
  lemma {:induction false} RegistrationsFlatten(tree: seq<Branch>, base: string)
    ensures |Registrations(tree, base)| == |Flatten(tree)|
    ensures forall i :: 0 <= i < |Flatten(tree)| ==>
              LeafAgrees(Registrations(tree, base)[i], Flatten(tree)[i], base, NoFalsyGroupKeys(tree))
    decreases tree
  {
    if |tree| > 0 {
      var init := tree[..|tree| - 1];
      var last := tree[|tree| - 1];
      RegistrationsFlatten(init, base);
      BranchRegistrationsFlatten(last, base);
      var ok := NoFalsyGroupKeys(tree);
      assert ok ==> NoFalsyGroupKeys(init) && NoFalsyGroupKey(last);
      var regs := Registrations(tree, base);
      var leaves := Flatten(tree);
      var n := |Flatten(init)|;
      forall i | 0 <= i < |leaves| ensures LeafAgrees(regs[i], leaves[i], base, ok) {
        if i < n {
          assert regs[i] == Registrations(init, base)[i] && leaves[i] == Flatten(init)[i];
          LeafAgreesWeaker(regs[i], leaves[i], base, NoFalsyGroupKeys(init), ok);
        } else {
          assert regs[i] == BranchRegistrations(last, base)[i - n] && leaves[i] == FlattenBranch(last)[i - n];
          LeafAgreesWeaker(regs[i], leaves[i], base, NoFalsyGroupKey(last), ok);
        }
      }
    }
  }

  lemma {:induction false} BranchRegistrationsFlatten(b: Branch, base: string)
    ensures |BranchRegistrations(b, base)| == |FlattenBranch(b)|
    ensures forall i :: 0 <= i < |FlattenBranch(b)| ==>
              LeafAgrees(BranchRegistrations(b, base)[i], FlattenBranch(b)[i], base, NoFalsyGroupKey(b))
    decreases b
  {
    var path := CurrentPath(base, b.key);
    match b.node
    case Leaf(view, useLoginCheck) =>
      assert Join([b.key], "/") == b.key;
    case Group(children) =>
      RegistrationsFlatten(children, path);
      var regs := BranchRegistrations(b, base);
      var leaves := FlattenBranch(b);
      var inner := Flatten(children);
      forall i | 0 <= i < |leaves| ensures LeafAgrees(regs[i], leaves[i], base, NoFalsyGroupKey(b)) {
        assert regs[i] == Registrations(children, path)[i];
        assert leaves[i] == inner[i].(keys := [b.key] + inner[i].keys);
        if NoFalsyGroupKey(b) {
          JoinUnder(base, b.key, inner[i].keys);
        }
      }
  }

  /** What a registration and a leaf agree on; the path only when `pathToo` holds. */
  predicate LeafAgrees(reg: Registration, leaf: LeafInfo, base: string, pathToo: bool) {
    reg.view == leaf.view && reg.loginCheck == leaf.useLoginCheck.GetOr(false) && |leaf.keys| > 0 &&
    (pathToo ==> reg.path == CurrentPath(base, Join(leaf.keys, "/")))
  }

  lemma LeafAgreesWeaker(reg: Registration, leaf: LeafInfo, base: string, strong: bool, weak: bool)
    requires LeafAgrees(reg, leaf, base, strong) && (weak ==> strong)
    ensures LeafAgrees(reg, leaf, base, weak)
  {
  }

  /** One more group level: its key joins the path just below the base. */
  lemma JoinUnder(base: string, key: string, keys: seq<string>)
    requires !IsFalsyString(key) && |keys| > 0
    ensures CurrentPath(CurrentPath(base, key), Join(keys, "/")) == CurrentPath(base, Join([key] + keys, "/"))
  {
    var j := Join(keys, "/");
    assert ([key] + keys)[1..] == keys;
    assert Join([key] + keys, "/") == key + "/" + j;
    CurrentPathNest(base, key, j);
  }

  /** Appending `key` and then `j` to a path is appending `key/j` at once. */
  lemma CurrentPathNest(base: string, key: string, j: string)
    requires !IsFalsyString(key)
    ensures CurrentPath(CurrentPath(base, key), j) == CurrentPath(base, key + "/" + j)
  {
    if !IsFalsyString(base) {
      var bk := base + "/" + key;
      assert |bk| >= 2;
      assert bk + "/" + j == base + "/" + (key + "/" + j);
    }
  }

  /**
   * A group under a falsy key (`"0"`, which PHP stores as the integer key 0)
   * does not contribute to the path: its leaves register as if the group's
   * children sat one level up.
   */
  lemma FalsyGroupKeyDropped(children: seq<Branch>, base: string)
    requires IsFalsyString(base)
    ensures BranchRegistrations(Branch("0", Group(children)), base) == Registrations(children, "0")
    ensures Registrations(children, "0") == Registrations(children, "")
  {
    SameFalsyBase(children, "0", "");
  }

  lemma {:induction false} SameFalsyBase(tree: seq<Branch>, b1: string, b2: string)
    requires IsFalsyString(b1) && IsFalsyString(b2)
    ensures Registrations(tree, b1) == Registrations(tree, b2)
    decreases tree
  {
    if |tree| > 0 {
      SameFalsyBase(tree[..|tree| - 1], b1, b2);
      var last := tree[|tree| - 1];
      assert CurrentPath(b1, last.key) == CurrentPath(b2, last.key);
    }
  }

  /**
   * The shape of `app/App.php`: a leaf `k` inside a group `g` is stored under
   * `/g/k`, and its closure keeps the unnormalised path `g/k`.
   */
  lemma GroupedLeafRoute(g: string, k: string, view: string, check: Option<bool>)
    requires !IsFalsyString(g) && !StartsWithSlash(g)
    ensures Stored(Registrations([Branch(g, Group([Branch(k, Leaf(view, check))]))], "")) ==
            [("/" + g + "/" + k, Callable(AppView(view, g + "/" + k, check.GetOr(false))))]
  {
    var leaf := Branch(k, Leaf(view, check));
    var tree := [Branch(g, Group([leaf]))];
    assert tree[..0] == [];
    assert [leaf][..0] == [];
    assert Registrations([leaf], g) == [Registration(g + "/" + k, view, check.GetOr(false))];
    assert Registrations(tree, "") == Registrations([leaf], g);
    var path := g + "/" + k;
    assert path[0] == g[0];
    assert NormalizeRoutePath(path) == "/" + path;
    var st := Stored([Registration(path, view, check.GetOr(false))]);
    assert st[0] == ("/" + path, Callable(AppView(view, path, check.GetOr(false))));
    assert "/" + path == "/" + g + "/" + k;
  }

  /** `Anon_Router`'s static route and error handler tables. */
  class AnonRouter {
    var routes: seq<(string, Handler)>
    var errorHandlers: seq<(int, Handler)>

    constructor()
      ensures routes == [] && errorHandlers == []
    {
      routes := [];
      errorHandlers := [];
    }

    /** `loadConfig`: take both tables from the registry. */
    method LoadConfig(config: RouteRegistry)
      modifies this
      ensures routes == config.routes && errorHandlers == config.errorHandlers
    {
      var c := config.GetRouterConfig();
      routes := c.routes;
      errorHandlers := c.errorHandlers;
    }

    /**
     * `registerAppRoutes`: walks the tree in order; a leaf registers the
     * closure for its view under its path, a group recurses with its path
     * as the new base.
     */
    static method RegisterAppRoutes(config: RouteRegistry, routeTree: seq<Branch>, basePath: string)
      requires config.Valid()
      modifies config
      ensures config.Valid()
      ensures config.routes == PutAll(old(config.routes), Stored(Registrations(routeTree, basePath)))
      ensures config.errorHandlers == old(config.errorHandlers)
      decreases routeTree
    {
      var i := 0;
      while i < |routeTree|
        invariant 0 <= i <= |routeTree|
        invariant config.Valid() && config.errorHandlers == old(config.errorHandlers)
        invariant config.routes == PutAll(old(config.routes), Stored(Registrations(routeTree[..i], basePath)))
        decreases |routeTree| - i
      {
        RegisterBranch(config, routeTree[i], basePath);
        RegistrationsStep(old(config.routes), routeTree, basePath, i);
        i := i + 1;
      }
      assert routeTree[..|routeTree|] == routeTree;
    }

    /**
     * One `$key => $value` entry of the walk: a leaf registers the closure
     * for its view under the joined path, a group recurses with that path
     * as the new base.
     */
    static method RegisterBranch(config: RouteRegistry, b: Branch, basePath: string)
      requires config.Valid()
      modifies config
      ensures config.Valid()
      ensures config.routes == PutAll(old(config.routes), Stored(BranchRegistrations(b, basePath)))
      ensures config.errorHandlers == old(config.errorHandlers)
      decreases b
    {
      var currentPath := if IsFalsyString(basePath) then b.key else basePath + "/" + b.key;
      assert currentPath == CurrentPath(basePath, b.key);
      match b.node {
        case Leaf(view, useLoginCheck) =>
          LeafStep(config.routes, b, basePath);
          config.AddRoute(currentPath, AppView(view, currentPath, useLoginCheck.GetOr(false)));
        case Group(children) =>
          RegisterAppRoutes(config, children, currentPath);
      }
    }

    /**
     * `handleRequest`: the path goes through the `router_request_path`
     * filter, then exact route, parameter route or 404; anything thrown on
     * the way is caught and answered by `handleError(500)`.
     */
    method HandleRequest(bus: HookBus, gv: GetVars, requestUri: Option<string>, env: Env,
                         outcome: (Callback, seq<Value>) -> Outcome) returns (s: Step)
      requires bus.Valid()
      modifies bus, gv
      ensures bus.Valid() && bus.hooks == old(bus.hooks)
      ensures s == RequestFlow(routes, errorHandlers,
                               FilterResult(old(bus.hooks), "router_request_path", VStr(GetRequestPath(requestUri)), [], outcome),
                               env, old(gv.entries))
      ensures gv.entries == s.get
    {
      var requestPath := GetRequestPath(requestUri);
      var filtered := bus.ApplyFilters("router_request_path", VStr(requestPath), [], outcome);
      var tried: Step;
      match PathOf(filtered) {
        case None =>
          tried := Step(Raise(Exc(ErrorExc, "request path is not a string")), [], gv.entries);
        case Some(path) =>
          tried := Route(routes, errorHandlers, JsonPage, path, gv, env);
      }
      if tried.flow.Raise? {
        var e := HandleError(errorHandlers, 500, JsonPage, tried.get, env);
        s := Step(e.flow, tried.calls + e.calls, tried.get);
      } else {
        s := tried;
      }
    }

    /**
     * `init`: register the application tree, load the tables, handle the
     * request; a `RuntimeException` that escapes is answered by
     * `handleError(500)`, any other exception escapes.
     */
    method Init(config: RouteRegistry, appTree: seq<Branch>, bus: HookBus, gv: GetVars,
                requestUri: Option<string>, env: Env, outcome: (Callback, seq<Value>) -> Outcome) returns (s: Step)
      requires config.Valid() && bus.Valid()
      modifies this, config, bus, gv
      ensures config.Valid() && bus.Valid() && bus.hooks == old(bus.hooks)
      ensures config.routes == PutAll(old(config.routes), Stored(Registrations(appTree, "")))
      ensures config.errorHandlers == old(config.errorHandlers)
      ensures routes == config.routes && errorHandlers == config.errorHandlers
      ensures s == CatchRuntime(RequestFlow(routes, errorHandlers,
                                            FilterResult(old(bus.hooks), "router_request_path",
                                                         VStr(GetRequestPath(requestUri)), [], outcome),
                                            env, old(gv.entries)),
                                errorHandlers, JsonPage, env)
      ensures gv.entries == s.get
      ensures CountRouteCalls(s.calls) <= 1 && |s.calls| <= 4
    {
      RegisterAppRoutes(config, appTree, "");
      LoadConfig(config);
      var handled := HandleRequest(bus, gv, requestUri, env, outcome);
      if handled.flow.Raise? && handled.flow.exc.kind == RuntimeExc {
        var e := HandleError(errorHandlers, 500, JsonPage, handled.get, env);
        s := Step(e.flow, handled.calls + e.calls, handled.get);
      } else {
        s := handled;
      }
    }
  }
}
