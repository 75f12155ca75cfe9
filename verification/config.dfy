/**
 * The route registry of `anon/Modules/Config.php` (class `Anon_Config`): the
 * static `$routerConfig` holding a `routes` array (path to handler) and an
 * `error_handlers` array (status code to handler), filled by `addRoute`,
 * `addErrorHandler` and `initSystemRoutes` and read back by the router
 * through `getRouterConfig`.
 */
module Config {
  import opened Common
  import opened RouteCore

  /** `strpos($path, '/') === 0 ? $path : '/' . $path` */
  predicate StartsWithSlash(s: string) {
    |s| > 0 && s[0] == '/'
  }

  /** The key `addRoute` stores a path under: a `/` is prepended only when missing. */
  function NormalizeRoutePath(path: string): (r: string)
    ensures StartsWithSlash(r)
    ensures r == path <==> StartsWithSlash(path)
    ensures r != path ==> r == "/" + path
  {
    if StartsWithSlash(path) then path else "/" + path
  }

  /** Normalising twice is normalising once. */
  lemma NormalizeIdempotent(path: string)
    ensures NormalizeRoutePath(NormalizeRoutePath(path)) == NormalizeRoutePath(path)
  {
  }

  /** `addRoute('x', ..)` and `addRoute('/x', ..)` write the same key. */
  lemma NormalizeIgnoresLeadingSlash(x: string)
    requires !StartsWithSlash(x)
    ensures NormalizeRoutePath(x) == NormalizeRoutePath("/" + x)
  {
  }

  /** What `getRouterConfig` returns: always both arrays. */
  datatype RouterConfig = RouterConfig(routes: seq<(string, Handler)>, errorHandlers: seq<(int, Handler)>)

  /**
   * `addRoute` twice on paths with the same key: the later handler wins, in
   * the slot of the first registration, and no other route entry changes.
   */
  lemma AddRouteLastWriteWins(routes: seq<(string, Handler)>, p1: string, p2: string, h1: CallableRef, h2: CallableRef)
    requires NormalizeRoutePath(p1) == NormalizeRoutePath(p2)
    ensures var k := NormalizeRoutePath(p2);
            Put(Put(routes, NormalizeRoutePath(p1), Callable(h1)), k, Callable(h2)) == Put(routes, k, Callable(h2))
  {
    PutTwice(routes, NormalizeRoutePath(p2), Callable(h1), Callable(h2));
  }

  /** `addErrorHandler` twice for one code: the later handler wins. */
  lemma AddErrorHandlerLastWriteWins(handlers: seq<(int, Handler)>, code: int, h1: CallableRef, h2: CallableRef)
    ensures Put(Put(handlers, code, Callable(h1)), code, Callable(h2)) == Put(handlers, code, Callable(h2))
  {
    PutTwice(handlers, code, Callable(h1), Callable(h2));
  }

  /**
   * The routes of `initSystemRoutes`, in registration order: two closures of
   * `Anon_Common`, eight methods of `Anon_Debug`, the installer, and the
   * `/anon` gate.
   */
  const SystemRoutes: seq<(string, Handler)> := [
    ("/anon/common/system-info", Callable(ClosureRef("system-info"))),
    ("/anon/common/get-client-ip", Callable(ClosureRef("get-client-ip"))),
    ("/anon/debug/info", Callable(StaticRef("Anon_Debug", "debugInfo"))),
    ("/anon/debug/performance", Callable(StaticRef("Anon_Debug", "performanceApi"))),
    ("/anon/debug/logs", Callable(StaticRef("Anon_Debug", "logs"))),
    ("/anon/debug/errors", Callable(StaticRef("Anon_Debug", "errors"))),
    ("/anon/debug/hooks", Callable(StaticRef("Anon_Debug", "hooks"))),
    ("/anon/debug/tools", Callable(StaticRef("Anon_Debug", "tools"))),
    ("/anon/debug/clear", Callable(StaticRef("Anon_Debug", "clearData"))),
    ("/anon/debug/console", Callable(StaticRef("Anon_Debug", "console"))),
    ("/anon/install", Callable(StaticRef("Anon_Install", "index"))),
    ("/anon", Callable(InstallGate))
  ]

  /**
   * After `initSystemRoutes`, `/anon` holds the install gate and
   * `/anon/install` the installer, whatever was registered before.
   */
  lemma SystemRoutesInstall(routes: seq<(string, Handler)>)
    ensures Lookup(PutAll(routes, SystemRoutes), "/anon") == Some(Callable(InstallGate))
    ensures Lookup(PutAll(routes, SystemRoutes), "/anon/install") == Some(Callable(StaticRef("Anon_Install", "index")))
  {
    LastTwoLookup(routes, SystemRoutes);
  }

  /** The last two assignments, to different keys, are both what the keys read afterwards. */
  lemma LastTwoLookup<V>(e: seq<(string, V)>, pairs: seq<(string, V)>)
    requires |pairs| >= 2 && pairs[|pairs| - 1].0 != pairs[|pairs| - 2].0
    ensures Lookup(PutAll(e, pairs), pairs[|pairs| - 1].0) == Some(pairs[|pairs| - 1].1)
    ensures Lookup(PutAll(e, pairs), pairs[|pairs| - 2].0) == Some(pairs[|pairs| - 2].1)
  {
    var n := |pairs|;
    var init := pairs[..n - 1];
    HasKeyLast(pairs, n - 1);
    HasKeyLast(init, n - 2);
    HasKeyInit(pairs, pairs[n - 2].0);
    PutAllLookup(e, pairs, pairs[n - 1].0);
    PutAllLookup(e, pairs, pairs[n - 2].0);
  }

  lemma HasKeyLast<K, V>(pairs: seq<(K, V)>, i: nat)
    requires i < |pairs|
    ensures HasKey(pairs, pairs[i].0)
  {
    var k := pairs[i].0;
    assert pairs[i].0 == k;
  }

  /** Every system route lives under `/anon`. */
  lemma SystemRoutesUnderAnon()
    ensures forall i :: 0 <= i < |SystemRoutes| ==> "/anon" <= SystemRoutes[i].0
  {
  }

  /** `Anon_Config`'s static `$routerConfig`. */
  class RouteRegistry {
    var routes: seq<(string, Handler)>
    var errorHandlers: seq<(int, Handler)>

    /** Keys are distinct, route keys begin with `/`, and every stored handler is callable. */
    ghost predicate Valid()
      reads this
    {
      DistinctKeys(routes) && DistinctKeys(errorHandlers) &&
      (forall i :: 0 <= i < |routes| ==> StartsWithSlash(routes[i].0) && routes[i].1.Callable?) &&
      (forall i :: 0 <= i < |errorHandlers| ==> errorHandlers[i].1.Callable?)
    }

    constructor()
      ensures Valid()
      ensures routes == [] && errorHandlers == []
    {
      routes := [];
      errorHandlers := [];
    }

    /**
     * `addRoute`: the handler is stored under the normalised path, replacing
     * an earlier one in its slot or appended after the others.
     */
    method AddRoute(path: string, handler: CallableRef)
      requires Valid()
      modifies this
      ensures Valid()
      ensures routes == Put(old(routes), NormalizeRoutePath(path), Callable(handler))
      ensures errorHandlers == old(errorHandlers)
    {
      var key := NormalizeRoutePath(path);
      routes := Put(routes, key, Callable(handler));
    }

    /** `addErrorHandler`: the handler is stored under the status code. */
    method AddErrorHandler(code: int, handler: CallableRef)
      requires Valid()
      modifies this
      ensures Valid()
      ensures errorHandlers == Put(old(errorHandlers), code, Callable(handler))
      ensures routes == old(routes)
    {
      errorHandlers := Put(errorHandlers, code, Callable(handler));
    }

    /** `getRouterConfig`: both arrays, as they stand. */
    function GetRouterConfig(): (r: RouterConfig)
      reads this
      ensures r.routes == routes && r.errorHandlers == errorHandlers
    {
      RouterConfig(routes, errorHandlers)
    }

    /**
     * `initSystemRoutes`: one `addRoute` per entry of `SystemRoutes`, in
     * table order (the source spells the twelve calls out one by one).
     */
    method InitSystemRoutes()
      requires Valid()
      modifies this
      ensures Valid()
      ensures routes == PutAll(old(routes), SystemRoutes)
      ensures errorHandlers == old(errorHandlers)
    {
      SystemRoutesWellFormed();
      var i := 0;
      while i < |SystemRoutes|
        invariant 0 <= i <= |SystemRoutes|
        invariant Valid() && errorHandlers == old(errorHandlers)
        invariant routes == PutAll(old(routes), SystemRoutes[..i])
      {
        AddRoute(SystemRoutes[i].0, SystemRoutes[i].1.ref);
        PutAllPrefix(old(routes), SystemRoutes, i + 1);
        i := i + 1;
      }
      assert SystemRoutes[..|SystemRoutes|] == SystemRoutes;
    }
  }

  /** Every system path begins with `/` (so `addRoute` keeps it as is) and every handler is callable. */
  lemma SystemRoutesWellFormed()
    ensures forall i :: 0 <= i < |SystemRoutes| ==> StartsWithSlash(SystemRoutes[i].0) && SystemRoutes[i].1.Callable?
  {
  }
}
