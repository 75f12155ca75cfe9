/**
 * The older route registry of `server/anon/Modules/Config.php` (class
 * `Anon_Config`): route paths are stored exactly as given, and the
 * installation test also requires the lock file.
 */
module LegacyConfig {
  import opened Common
  import opened RouteCore
  import opened Config

  /** `Anon_Config`'s static `$routerConfig`. */
  class LegacyRegistry {
    var routes: seq<(string, Handler)>
    var errorHandlers: seq<(int, Handler)>

    /** Keys are distinct and every stored handler is callable. */
    ghost predicate Valid()
      reads this
    {
      DistinctKeys(routes) && DistinctKeys(errorHandlers) &&
      (forall i :: 0 <= i < |routes| ==> routes[i].1.Callable?) &&
      (forall i :: 0 <= i < |errorHandlers| ==> errorHandlers[i].1.Callable?)
    }

    constructor()
      ensures Valid()
      ensures routes == [] && errorHandlers == []
    {
      routes := [];
      errorHandlers := [];
    }

    /** `addRoute`: the handler is stored under the path as given, without normalisation. */
    method AddRoute(path: string, handler: CallableRef)
      requires Valid()
      modifies this
      ensures Valid()
      ensures routes == Put(old(routes), path, Callable(handler))
      ensures errorHandlers == old(errorHandlers)
    {
      routes := Put(routes, path, Callable(handler));
    }

    /** `addErrorHandler`: the handler is stored under the status code. */
    method AddErrorHandler(code: int, handler: CallableRef)
      requires Valid()
      modifies this
      ensures Valid()
      ensures errorHandlers == Put(old(errorHandlers), code, Callable(handler))
      ensures routes == old(routes)
    {
      errorHandlers := Put(errorHandlers, code, Callable(handler));
    }

    /** `getRouterConfig`: both arrays, as they stand. */
    function GetRouterConfig(): (r: RouterConfig)
      reads this
      ensures r.routes == routes && r.errorHandlers == errorHandlers
    {
      RouterConfig(routes, errorHandlers)
    }
  }

  /**
   * Without normalisation `x` and `/x` are two routes: registering `/x` after
   * `x` leaves the handler of `x` in place and adds a second entry.
   */
  lemma UnnormalisedPathsAreDistinct(routes: seq<(string, Handler)>, x: string, h1: CallableRef, h2: CallableRef)
    requires !StartsWithSlash(x)
    ensures var r := Put(Put(routes, x, Callable(h1)), "/" + x, Callable(h2));
            Lookup(r, x) == Some(Callable(h1)) && Lookup(r, "/" + x) == Some(Callable(h2))
  {
    var once := Put(routes, x, Callable(h1));
    assert x != "/" + x;
  }

  /**
   * `isInstalled`: false unless `ANON_INSTALLED` is defined; then the
   * constant's truth and the existence of `app/Install/installed.lock`.
   */
  function IsInstalled(defined: bool, installedConstant: bool, lockFileExists: bool): (r: bool)
    ensures !defined ==> !r
    ensures defined ==> (r <==> installedConstant && lockFileExists)
  {
    if !defined then false else installedConstant && lockFileExists
  }

  /** The newer `Anon_Config::isInstalled` trusts the constant alone; the older one also wants the lock file. */
  lemma LockFileRequired(installedConstant: bool)
    ensures !IsInstalled(true, installedConstant, false)
    ensures IsInstalled(true, installedConstant, true) == installedConstant
  {
  }
}
