# Anon request core, modelled in Dafny

This project models the request core of the Puxt repository. It covers three parts:

- **The PHP framework in `anon/`.**
  - The priority-ordered action/filter bus `Anon_Hook`.
  - The route registry `Anon_Config`.
  - The router `Anon_Router`: exact routes, `{name}` parameter routes, error pages and the application route tree.
  - The JSON envelopes of `Anon_ResponseHelper`.
  - The install redirect, `GetClientIp` and the cookie checks in `Common.php`.
  - The repository facades `Anon_Database` and `Anon_Widget_Database`.
- **The older server copy in `server/anon/`.**
  - Its router and configuration.
  - The query builder of `Connection.php`.
- **The JavaScript API clients.**
  - The Nuxt `ApiService`, together with `handleApiError`, `normalizeApiResponse` and `CacheManager`.
  - The older `ApiService` of `client/app`.

Each core file becomes one module. Where the source changes state in place, the module holds a class:

| Class | State it holds |
|---|---|
| `HookBus` | the static hook tables |
| `RouteRegistry` | the configuration |
| `AnonRouter` | the router's loaded tables |
| `Builder` | the query builder |
| `Database` | the instance table |
| `CacheManager` | the cache |
| `ApiService` | the client's state |

Methods keep the loops the source has. Each method is proved against a specification function, and the lemmas state the source's promises about those functions:

- ordering;
- last-write-wins;
- round trips (a filled pattern matches and gives its values back);
- placeholder and parameter counts;
- retry and fallback behaviour.

Things outside the core become parameters:

- callbacks and their outcomes;
- `is_callable`;
- `filter_var`;
- the database;
- `fetch` and `$fetch`;
- `URLSearchParams`;
- the clock.

An HTTP exchange ends in `Exited(status, body)` or in an escaping exception, and the model also records the sequence of handlers invoked.

Where the code and its description differ, the model follows the code:

- Captured route parameters are not URL-decoded.
- `add_hook` reports success as a boolean; it returns no id.
- The older `server/anon` configuration stores route keys without normalising them.

## Model

| member | source | states |
|---|---|---|
| `Hook.HookId` | anon/Modules/Hook.php:331-345 | a function name is its own id; an object method is the object's hash, `::` and the method; a static method is the class, `::` and the method; a closure is its hash; anything else its serialization |
| `Hook.StaticMethodSharesStringId` | anon/Modules/Hook.php:331-345 | `['Cls','m']` and `'Cls::m'` get the same hook id, so one registration replaces the other |
| `Hook.MethodIdsDiffer` | anon/Modules/Hook.php:331-345 | two methods of one object or class get different ids |
| `Hook.AddToEntry` | anon/Modules/Hook.php:229-237 | storing a record and `ksort` keep the buckets strictly sorted by priority |
| `Hook.AddToEntryLookup` | anon/Modules/Hook.php:229-237 | the record lands in its priority's bucket, replacing a same-id record in its slot or appended; every other bucket is unchanged |
| `Hook.DropPriority` | anon/Modules/Hook.php:128-132 | the bucket of one priority is removed, and the rest keep their order and contents |
| `Hook.DropId` | anon/Modules/Hook.php:88-95 | removing one id from a bucket, and pruning the bucket if it empties |
| `Hook.RecordsPriorities` | anon/Modules/Hook.php:265-266 | every visited slot carries the priority of a bucket |
| `Hook.RecordsAscending` | anon/Modules/Hook.php:265-266 | the nested loops visit priorities in ascending order |
| `Hook.RecordsAtBucket` | anon/Modules/Hook.php:265-266 | a bucket's records are visited together, in insertion order, after all lower priorities and before all higher ones |
| `Hook.SliceLen` | anon/Modules/Hook.php:275 | `array_slice($args, 0, $n)`, including a negative length |
| `Hook.RunCallsEachOnce` | anon/Modules/Hook.php:265-298 | each record of the requested kind is called exactly once, in visiting order; the other kind is skipped; `executed` counts the calls that returned |
| `Hook.FilterThreadsValue` | anon/Modules/Hook.php:261-285 | a filter's value is the return of the last call that returned, or the input if none did; a throwing call leaves it alone |
| `Hook.FilterCallsSeeCurrentValue` | anon/Modules/Hook.php:283-284 | each filter call gets the latest returned value (or the input) as its first argument |
| `Hook.ActionKeepsArgs` | anon/Modules/Hook.php:275-281 | an action never rewrites its arguments, and each call gets a prefix of them |
| `Hook.Counted` | anon/Modules/Hook.php:309-320 | counters are created once, and `total_calls`/`total_executed` grow by one call and by the returned count |
| `Hook.CallHook` | anon/Modules/Hook.php:267-298 | one inner-loop step equals the specification step `Step` |
| `Hook.RunBucket` | anon/Modules/Hook.php:266-299 | the inner loop over a bucket equals the specification run over its records |
| `Hook.RunEntry` | anon/Modules/Hook.php:265-300 | both loops give the final filter value and the number of returned calls of the specification run |
| `Hook.FirstBucketIsLowest` | anon/Modules/Hook.php:160-163 | in a sorted bucket list, the first bucket holding an id is the one of lowest priority |
| `Hook.FilterResult` | anon/Modules/Hook.php:70-73 | `apply_filters` on an unknown name returns the input, and otherwise returns the last returned value |
| `Hook.HookBus.AddHook` | anon/Modules/Hook.php:221-241 | a non-callable is refused and nothing changes; otherwise the record is stored under its id, buckets stay sorted, and the other names are unchanged |
| `Hook.HookBus.AddAction` | anon/Modules/Hook.php:34-36 | `add_hook` with kind action |
| `Hook.HookBus.AddFilter` | anon/Modules/Hook.php:47-49 | `add_hook` with kind filter |
| `Hook.HookBus.ExecuteHooks` | anon/Modules/Hook.php:251-323 | an unknown name returns the first argument or null and records nothing; otherwise the result is the specification run, the stack is restored and the counters are updated |
| `Hook.HookBus.DoAction` | anon/Modules/Hook.php:58-60 | runs the action hooks and returns nothing |
| `Hook.HookBus.ApplyFilters` | anon/Modules/Hook.php:70-73 | runs the filters with the value in front of the extra arguments, and returns `FilterResult` |
| `Hook.SetFirst` | anon/Modules/Hook.php:284 | the filtered value becomes the first argument and the other arguments stay |
| `Hook.HookBus.RemoveHook` | anon/Modules/Hook.php:83-107 | deletes exactly that record, prunes an emptied bucket and then an emptied name; with no such record it reports false and changes nothing |
| `Hook.HookBus.RemoveAllHooks` | anon/Modules/Hook.php:116-139 | no name clears everything; an unknown name gives false; a priority drops that bucket only; otherwise the name is dropped |
| `Hook.HookBus.HasHook` | anon/Modules/Hook.php:148-165 | false for an unknown name; otherwise whether any bucket exists, or the lowest priority holding the callback, and false for a callback held by no bucket |
| `Hook.FirstBucketWith` | anon/Modules/Hook.php:158-162 | the first bucket, in ascending priority, that holds the callback; none exactly when no bucket holds it |
| `Hook.HookBus.CurrentHook` | anon/Modules/Hook.php:172-174 | the top of the stack, or null when the stack is empty or its top is falsy |
| `Hook.HookBus.GetHookStats` | anon/Modules/Hook.php:182-187 | a name's counters exactly when it has any, and `[]` (here `None`) otherwise |
| `Hook.HookBus.ClearStats` | anon/Modules/Hook.php:203-209 | clears one name's counters or all counters |
| `Hook.BucketOrWellFormed` | anon/Modules/Hook.php:229-237 | a stored bucket is non-empty and its ids are distinct |
| `Hook.SortedEntriesEqual` | anon/Modules/Hook.php:237 | a sorted bucket list is determined by its per-priority lookups |
| `Hook.RemoveKeyUndoesPut` | anon/Modules/Hook.php:88-95 | appending a fresh id and removing it gives back the bucket |
| `Hook.RemovingOnlyRecordHidesId` | anon/Modules/Hook.php:83-107 | removing a callback from the only priority that holds it leaves no bucket holding it, so a later `has_hook` for it finds no priority |
| `Hook.DropIdUndoesAdd` | anon/Modules/Hook.php:83-107 | registering a new callable and then removing it gives back the bucket list |
| `Hook.AddedHookIsFound` | anon/Modules/Hook.php:148-165 | after a successful registration, `has_hook` finds the callback at that priority or a lower one |
| `Hook.FilterPriorityExample` | anon/Modules/Hook.php:265-285 | `f2` registered at 20 and then `f1` at 10: `f1` still runs first, so 100 becomes 220 |
| `Config.NormalizeIdempotent` | anon/Modules/Config.php:24-29 | normalising a route path twice is normalising it once |
| `Config.NormalizeIgnoresLeadingSlash` | anon/Modules/Config.php:24-29 | `x` and `/x` are stored under the same key |
| `Config.AddRouteLastWriteWins` | anon/Modules/Config.php:24-29 | a second `addRoute` on the same key replaces the handler in place and changes nothing else |
| `Config.AddErrorHandlerLastWriteWins` | anon/Modules/Config.php:36-39 | a second `addErrorHandler` for a code wins |
| `Config.SystemRoutesInstall` | anon/Modules/Config.php:62-111 | after `initSystemRoutes`, `/anon` holds the install gate and `/anon/install` the installer |
| `Config.SystemRoutesUnderAnon` | anon/Modules/Config.php:62-111 | every system route lives under `/anon` |
| `Config.SystemRoutesWellFormed` | anon/Modules/Config.php:62-111 | every system path starts with `/`, and every system handler is callable |
| `Config.RouteRegistry.constructor` | anon/Modules/Config.php:14-16 | both tables start empty |
| `Config.NormalizeRoutePath` | anon/Modules/Config.php:26-27 | a `/` is prepended exactly when the path does not already start with one |
| `Config.RouteRegistry.AddRoute` | anon/Modules/Config.php:24-29 | the handler is stored under the normalised path, either in place or appended |
| `Config.RouteRegistry.AddErrorHandler` | anon/Modules/Config.php:36-39 | the handler is stored under the status code |
| `Config.RouteRegistry.GetRouterConfig` | anon/Modules/Config.php:45-48 | returns both tables unchanged |
| `Config.RouteRegistry.InitSystemRoutes` | anon/Modules/Config.php:62-111 | one `addRoute` per system route, in table order |
| `RouteCore.DefaultMessage` | anon/Modules/Router.php:544-566 | fixed texts for 400, 404 and 500; `HTTP {code}` otherwise |
| `RouteCore.ErrorFlow` | anon/Modules/Router.php:524-538 | sets the status, then runs a callable error handler or else the default page, then exits; the handler's exception escapes |
| `RouteCore.DispatchFlow` | anon/Modules/Router.php:371-429 | a non-callable gives 404; otherwise params are merged, the handler runs once, and a throw gives `handleError(500)` |
| `RouteCore.Invoke` | anon/Modules/Router.php:143-172 | a login-checked view without a login exits with the 401 JSON; a missing view throws; the install gate answers 403 once installed and runs the installer otherwise; any other handler runs as given |
| `RouteCore.Settle` | anon/Modules/Router.php:397-428 | a handler that returns is followed by `exit`; exactly a handler that throws passes its exception on to the catch |
| `RouteCore.RouteFlow` | anon/Modules/Router.php:291-347 | exact key first, then the first parameter route, then 404 |
| `RouteCore.DispatchCalls` | anon/Modules/Router.php:371-429 | a dispatch calls at most one route handler, and only as its first call |
| `RouteCore.CatchAll` | anon/Modules/Router.php:348-364 | an escaped exception becomes the 500 page, whose own exception escapes |
| `RouteCore.CatchRuntime` | anon/Modules/Router.php:71-88 | only a `RuntimeException` escaping request handling gets the 500 page |
| `RouteCore.PathPart` | anon/Modules/Router.php:437 | the path step of `parse_url`: the longest prefix of the target without `?` or `#` |
| `RouteCore.PathPartStops` | anon/Modules/Router.php:437 | the path step keeps a target without `?` or `#` whole and cuts off a query after it |
| `RouteCore.StripQuery` | anon/Modules/Router.php:440-443 | the part before the first `?`, unless that part is falsy |
| `RouteCore.ControlsReplaced` | anon/Modules/Router.php:437 | every control character becomes `_`, every other character stays |
| `RouteCore.ParseUrlPath` | anon/Modules/Router.php:437 | fails only for `:` or a port after the first `:`; otherwise the path step with control characters replaced, holding no `?`, `#` or control character |
| `RouteCore.ParseUrlPathOfPath` | anon/Modules/Router.php:437 | a path without `?` or `#` parses to itself with control characters replaced unless a port follows its first `:`; after a query, only a port followed by `/` counts |
| `RouteCore.PortInAt` | anon/Modules/Router.php:437 | the port test reads the digits after the first `:` |
| `RouteCore.PortMakesParseFail` | anon/Modules/Router.php:437 | `a:d` followed by the end or `/`, with one to five digits `d`, fails to parse |
| `RouteCore.PortInDigits` | anon/Modules/Router.php:437 | one to five digits after the first `:`, then the end or `/`, are a port |
| `RouteCore.ControlCharacterReplaced` | anon/Modules/Router.php:437 | a tab in the path becomes `_` |
| `RouteCore.ParseSegmentPlaceholder` | anon/Modules/Router.php:462-469 | a piece is a placeholder exactly when a `{` has a `}` at least two characters later |
| `RouteCore.Compile` | anon/Modules/Router.php:462-469 | the pattern is split on `/` and each piece parsed |
| `RouteCore.ParseSegment` | anon/Modules/Router.php:462-469 | a piece holding `{name}` with a non-empty name is a placeholder with the text around it; any other piece is a literal of itself |
| `RouteCore.MatchSegment` | anon/Modules/Router.php:462-469 | one path piece against one pattern piece, giving its captures |
| `RouteCore.MatchSegments` | anon/Modules/Router.php:462-472 | anchored match: same piece count, each piece matching, and the match is the pattern filled with the captures |
| `RouteCore.FirstParamIndex` | anon/Modules/Router.php:458-484 | index of the first route, in registration order, that matches as a parameter route |
| `RouteCore.BoundParamsLookup` | anon/Modules/Router.php:474-479 | each name gets the capture at its position, the later capture wins for a repeated name, and no other key is set |
| `RouteCore.FirstParamMatchHead` | anon/Modules/Router.php:458-484 | a first route that matches is the one returned |
| `RouteCore.FirstParamMatchTail` | anon/Modules/Router.php:458-484 | a first route that does not match is skipped |
| `RouteCore.MatchParameterRoute` | anon/Modules/Router.php:456-487 | the scan loop returns the first matching parameter route with its bound captures, or null |
| `RouteCore.FirstParamMatch` | anon/Modules/Router.php:456-487 | a registered route that matches, with the captures bound to its names; none exactly when no route matches |
| `RouteCore.TryPattern` | anon/Modules/Router.php:460-482 | one iteration: the `{` test, the match and the binding |
| `RouteCore.BindParams` | anon/Modules/Router.php:474-479 | the binding loop equals the positional binding |
| `RouteCore.MatchIsFilledPattern` | anon/Modules/Router.php:462-472 | a matched path is the pattern filled with non-empty, `/`-free captures |
| `RouteCore.CapturesArePieceParts` | anon/Modules/Router.php:462-472 | each capture is part of one path piece |
| `RouteCore.RenderedPiecesMatch` | anon/Modules/Router.php:462-472 | filling a pattern and matching it gives back the values |
| `RouteCore.FilledPatternMatches` | anon/Modules/Router.php:462-472 | any non-empty, `/`-free values fill a pattern into a path that it matches |
| `RouteCore.TwoLevelExample` | anon/Modules/Router.php:462-472 | `/a/{n}` matches `/a/v` for every good `v`, and matches neither `/a/v/w` nor `/a/` |
| `RouteCore.GetVars.Merge` | anon/Modules/Router.php:507-509 | every parameter is written into `$_GET` |
| `RouteCore.MergeOverwrites` | anon/Modules/Router.php:507-509 | merged keys are overwritten and every other key is kept |
| `RouteCore.HandleError` | anon/Modules/Router.php:524-538 | equals `ErrorFlow` |
| `RouteCore.Dispatch` | anon/Modules/Router.php:371-429 | equals `DispatchFlow` without params |
| `RouteCore.DispatchWithParams` | anon/Modules/Router.php:494-518 | equals `DispatchFlow` with params, and `$_GET` gains the params |
| `RouteCore.Route` | anon/Modules/Router.php:291-347 | equals `RouteFlow` |
| `Router.GetRequestPath` | anon/Modules/Router.php:435-449 | `/` when `parse_url` fails; otherwise the parsed path (of `/` when `REQUEST_URI` is absent) with a leading `/` added; always starts with `/` and holds no `?`, `#` or control character |
| `Router.NoRequestUriIsRoot` | anon/Modules/Router.php:437 | without `REQUEST_URI` the path is `/` |
| `Router.RequestPathOfRoute` | anon/Modules/Router.php:435-449 | a request for a stored route key, with or without a query, yields that key with control characters replaced, or `/` when `parse_url` reads a port after its first `:` |
| `Router.GetRequestPathIdempotent` | anon/Modules/Router.php:435-449 | re-reading a request path gives it back, except a path ending in a port-like `:digits`, which gives `/` |
| `Router.PortInPathGivesRoot` | anon/Modules/Router.php:435-449 | `/a:12` and `/a:12/` route to `/` |
| `Router.JsonPage` | anon/Modules/Router.php:544-566 | the JSON body carries the status code and `404 Not Found`, `500 Internal Server Error` or `HTTP <code>` for an unlisted code |
| `Router.PathOf` | anon/Modules/Router.php:276 | string coercion of the filtered path; null or an array cannot be used |
| `Router.RequestFlow` | anon/Modules/Router.php:262-365 | routing plus the catch; at most one route handler runs, first, and at most two error handlers follow |
| `Router.ExactMatchWins` | anon/Modules/Router.php:291-300 | an exact route whose handler returns gives status 200 |
| `Router.NoMatchIs404` | anon/Modules/Router.php:544-566 | no route and no 404 handler give the default JSON 404 page |
| `Router.NotCallableIs404` | anon/Modules/Router.php:373-380 | a non-callable route is answered like a missing one |
| `Router.ThrowingHandlerIs500` | anon/Modules/Router.php:371-429 | a throwing handler with no 500 handler gives the JSON 500 page |
| `Router.ThrowingErrorHandlerRunsTwice` | anon/Modules/Router.php:348-364 | a throwing 500 handler runs again from the outer catch, and its exception escapes |
| `Router.ParamRouteBindsGet` | anon/Modules/Router.php:494-518 | after a parameter route, `$_GET` holds each bound parameter and the old keys |
| `Router.BadFilterValueIs500` | anon/Modules/Router.php:276 | a filter returning null or an array leads to the 500 page |
| `Router.LoginCheckRejects` | anon/Modules/Router.php:141-171 | a protected leaf with a visitor not logged in writes the 401 JSON with status 200, and the view never runs |
| `Router.RegistrationsFlatten` | anon/Modules/Router.php:125-185 | one route per leaf, in depth-first order, with its view and login flag, under the joined path |
| `Router.FalsyGroupKeyDropped` | anon/Modules/Router.php:128 | a group under a falsy key adds nothing to the path |
| `Router.GroupedLeafRoute` | app/App.php:4-25 | leaf `k` of group `g` is stored under `/g/k` |
| `Router.AnonRouter.constructor` | anon/Modules/Router.php:13-18 | both tables start empty |
| `Router.AnonRouter.RegisterAppRoutes` | anon/Modules/Router.php:125-185 | the routes become the old ones with the tree's registrations written over them in order (`RegistrationsFlatten` says which); error handlers are untouched |
| `Router.AnonRouter.RegisterBranch` | anon/Modules/Router.php:127-183 | one entry: a leaf writes its closure under the joined path, a group writes all of its subtree's registrations |
| `Router.AnonRouter.LoadConfig` | anon/Modules/Router.php:94-104 | loads both tables from the registry |
| `Router.AnonRouter.HandleRequest` | anon/Modules/Router.php:262-365 | the filter, then routing, then the catch: equals `RequestFlow` |
| `Router.AnonRouter.Init` | anon/Modules/Router.php:34-89 | registers the tree, loads, and handles the request; an escaping `RuntimeException` gets the 500 page |
| `LegacyConfig.LegacyRegistry.constructor` | server/anon/Modules/Config.php:14-17 | both tables start empty |
| `LegacyConfig.LegacyRegistry.AddRoute` | server/anon/Modules/Config.php:24-27 | stores the handler under the path as given |
| `LegacyConfig.LegacyRegistry.AddErrorHandler` | server/anon/Modules/Config.php:34-37 | stores the handler under the code |
| `LegacyConfig.LegacyRegistry.GetRouterConfig` | server/anon/Modules/Config.php:43-46 | returns both tables |
| `LegacyConfig.UnnormalisedPathsAreDistinct` | server/anon/Modules/Config.php:24-27 | `x` and `/x` are two separate routes |
| `LegacyConfig.IsInstalled` | server/anon/Modules/Config.php:52-61 | needs the constant defined and true, and the lock file present |
| `LegacyConfig.LockFileRequired` | server/anon/Modules/Config.php:52-61 | the older check also requires the lock file; the newer one does not |
| `LegacyRouter.GetRequestPath` | server/anon/Modules/Router.php:205-211 | the empty path when `parse_url` fails; otherwise the parsed path with leading and trailing `/` trimmed; no `?`, `#` or control character |
| `LegacyRouter.TrimKeeps` | server/anon/Modules/Router.php:208 | trimming only removes characters |
| `LegacyRouter.RootIsEmpty` | server/anon/Modules/Router.php:205-211 | `/` and a missing URI both give the empty path |
| `LegacyRouter.RequestPathOfRoute` | server/anon/Modules/Router.php:205-211 | `/key`, with or without a query, yields `key` with control characters replaced, or the empty path when `parse_url` reads a port |
| `LegacyRouter.PortInPathGivesEmpty` | server/anon/Modules/Router.php:205-211 | `/a:12` and `/a:12/` route to the empty path |
| `LegacyRouter.TextPage` | server/anon/Modules/Router.php:306-316 | the plain text `404 Not Found`, `500 Internal Server Error` or `HTTP <code>` for an unlisted code |
| `LegacyRouter.LegacyRequestFlow` | server/anon/Modules/Router.php:149-174 | routing plus the catch that turns exceptions into 500 |
| `LegacyRouter.NoMatchIsText404` | server/anon/Modules/Router.php:306-316 | no route gives the plain-text 404 page |
| `LegacyRouter.ThrowingHandlerIsText500` | server/anon/Modules/Router.php:180-199 | a throwing handler gives the plain-text 500 page |
| `LegacyRouter.LegacyAnonRouter.constructor` | server/anon/Modules/Router.php:13-18 | both tables start empty |
| `LegacyRouter.LegacyAnonRouter.LoadConfig` | server/anon/Modules/Router.php:48-58 | loads both tables |
| `LegacyRouter.LegacyAnonRouter.HandleRequest` | server/anon/Modules/Router.php:149-174 | equals `LegacyRequestFlow` |
| `LegacyRouter.LegacyAnonRouter.Init` | server/anon/Modules/Router.php:34-43 | loads and handles the request; a `RuntimeException` gets the 500 page |
| `QueryBuilder.TypeCode` | server/anon/Database/Connection.php:112 | `i` for an integer, `d` for a float, `s` otherwise |
| `QueryBuilder.TypeStringAt` | server/anon/Database/Connection.php:112-123 | the type code at each position belongs to the parameter there |
| `QueryBuilder.BuildSpec` | server/anon/Database/Connection.php:113-124 | what `build` returns for a state |
| `QueryBuilder.NonSelectHasNoOrderOrLimit` | server/anon/Database/Connection.php:122-123 | only select and exists get ORDER BY and LIMIT |
| `QueryBuilder.OffsetNeedsLimit` | server/anon/Database/Connection.php:123 | an offset without a limit is dropped; with one, both bind last as integers |
| `QueryBuilder.InsertBindsDataFirst` | server/anon/Database/Connection.php:117 | an insert binds its data values first, in order, with their codes |
| `QueryBuilder.PlaceholdersMatchParams` | server/anon/Database/Connection.php:113-124 | with `?`-free identifiers there is one placeholder per parameter and one type code per parameter |
| `QueryBuilder.Builder.constructor` | server/anon/Database/Connection.php:99-100 | a `SELECT *` with nothing else set |
| `QueryBuilder.Builder.SelectColumns` | server/anon/Database/Connection.php:101 | sets the kind, and a single column becomes a list |
| `QueryBuilder.Builder.InsertRow` | server/anon/Database/Connection.php:102 | kind insert, with the data |
| `QueryBuilder.Builder.UpdateRow` | server/anon/Database/Connection.php:103 | kind update, with the data |
| `QueryBuilder.Builder.DeleteRows` | server/anon/Database/Connection.php:104 | kind delete |
| `QueryBuilder.Builder.CountRows` | server/anon/Database/Connection.php:105 | kind count |
| `QueryBuilder.Builder.ExistsRow` | server/anon/Database/Connection.php:106 | kind exists |
| `QueryBuilder.Builder.Where` | server/anon/Database/Connection.php:107 | a null value gives `IS NULL` or `IS NOT NULL`, depending on the operator |
| `QueryBuilder.Builder.WhereIn` | server/anon/Database/Connection.php:108 | appends an `IN` condition |
| `QueryBuilder.Builder.OrderBy` | server/anon/Database/Connection.php:109 | `DESC` for any-case `desc`, otherwise `ASC` |
| `QueryBuilder.Builder.Limit` | server/anon/Database/Connection.php:110 | sets the limit and resets a missing offset |
| `QueryBuilder.Builder.JoinTable` | server/anon/Database/Connection.php:111 | prefixes the table and upper-cases the type |
| `QueryBuilder.Builder.Build` | server/anon/Database/Connection.php:113-124 | the loops of `build` equal `BuildSpec` |
| `QueryBuilder.Builder.BuildHead` | server/anon/Database/Connection.php:114-119 | the statement head for the kind, with the data bindings and a type string in step with them |
| `QueryBuilder.Builder.InsertHead` | server/anon/Database/Connection.php:117 | `INSERT INTO t (cols) VALUES (?,..)` with one mark and one binding per data column, in order |
| `QueryBuilder.Builder.UpdateHead` | server/anon/Database/Connection.php:118 | `UPDATE t SET c = ?,..` with one binding per data column, in order |
| `QueryBuilder.Builder.AppendJoins` | server/anon/Database/Connection.php:120 | the join loop appends every join clause in order |
| `QueryBuilder.Builder.AppendWhere` | server/anon/Database/Connection.php:121 | the condition loop appends `WhereSql` and binds `WhereParams`, keeping the type string in step |
| `QueryBuilder.Builder.ConditionTerm` | server/anon/Database/Connection.php:121 | one condition's SQL term and its bindings |
| `QueryBuilder.Builder.AppendOrder` | server/anon/Database/Connection.php:122 | the order loop appends ` ORDER BY` and the terms, for selects and exists only |
| `QueryBuilder.Builder.AppendLimit` | server/anon/Database/Connection.php:123 | ` LIMIT ?` and ` OFFSET ?` with their integer bindings, for selects and exists only |
| `QueryBuilder.Builder.BindData` | server/anon/Database/Connection.php:117-118 | the data values and their codes, in order |
| `QueryBuilder.Builder.WhereTerms` | server/anon/Database/Connection.php:121 | the WHERE loop's terms, values and codes |
| `QueryBuilder.Builder.Get` | server/anon/Database/Connection.php:126 | the rows for the current statement |
| `QueryBuilder.Builder.First` | server/anon/Database/Connection.php:127 | `limit(1)`, then the first row or null |
| `QueryBuilder.Builder.ScalarValue` | server/anon/Database/Connection.php:128 | count gives the count; exists gives `limit(1)` and whether a row came; any other kind gives null |
| `QueryBuilder.Builder.Execute` | server/anon/Database/Connection.php:129 | an insert gives the new id; other kinds give the affected rows |
| `QueryBuilder.Db` | server/anon/Database/Connection.php:84-87 | a fresh builder on the prefixed table |
| `QueryBuilder.LimitOneLast` | server/anon/Database/Connection.php:127 | after `first`, a select ends in ` LIMIT ?` and binds 1 last |
| `QueryBuilder.PrepareTypes` | server/anon/Database/Connection.php:60-75 | every parameter is bound as `s`, and an empty list binds nothing |
| `ResponseHelper.Envelope` | anon/Modules/ResponseHelper.php:16-31 | `success` and `message`, then `data` only when not null |
| `ResponseHelper.Success` | anon/Modules/ResponseHelper.php:16-31 | status 200 by default, `success: true` |
| `ResponseHelper.Error` | anon/Modules/ResponseHelper.php:39-54 | status 400 by default, `success: false` |
| `ResponseHelper.Paginated` | anon/Modules/ResponseHelper.php:63-75 | `data` and `pagination` are present even when null |
| `ResponseHelper.MethodNotAllowed` | anon/Modules/ResponseHelper.php:81-87 | status 405, naming the methods only when the argument is not PHP-empty |
| `ResponseHelper.ValidationError` | anon/Modules/ResponseHelper.php:94-96 | status 422, with the errors as data |
| `ResponseHelper.Unauthorized` | anon/Modules/ResponseHelper.php:102-104 | status 401 |
| `ResponseHelper.Forbidden` | anon/Modules/ResponseHelper.php:110-112 | status 403 |
| `ResponseHelper.NotFound` | anon/Modules/ResponseHelper.php:118-120 | status 404 |
| `ResponseHelper.ServerError` | anon/Modules/ResponseHelper.php:127-140 | status 500; details only in debug mode |
| `ResponseHelper.ExceptionStatus` | anon/Modules/ResponseHelper.php:147-171 | the status per exception class |
| `ResponseHelper.HandleException` | anon/Modules/ResponseHelper.php:147-171 | a truthy custom message wins, the status follows the class, and debug data goes out in debug mode |
| `ResponseHelper.SuccessErrorMirror` | anon/Modules/ResponseHelper.php:16-54 | `success` and `error` differ only in the default status and the flag |
| `AnonCommon.InstallRedirect` | anon/Modules/Common.php:5-11 | redirects exactly when not installed and the URI is not an install route |
| `AnonCommon.RedirectTargetIsNotRedirected` | anon/Modules/Common.php:5-11 | the redirect target is never redirected |
| `AnonCommon.LoopbackAsIpv4` | anon/Modules/Common.php:69-71 | `::1` is reported as `127.0.0.1` |
| `AnonCommon.GetClientIp` | anon/Modules/Common.php:47-79 | the loop returns the first usable source, or null |
| `AnonCommon.FirstUsableWins` | anon/Modules/Common.php:56-75 | the first usable source decides |
| `AnonCommon.NoUsableSourceIsNull` | anon/Modules/Common.php:56-78 | null exactly when no source is usable |
| `AnonCommon.ReportedIpWasValid` | anon/Modules/Common.php:56-75 | a reported address passed validation, or is the rewritten loopback |
| `AnonCommon.ForwardedForFirstEntry` | anon/Modules/Common.php:61-64 | only the first X-Forwarded-For entry counts, trimmed |
| `AnonCommon.CookiePreCheck` | anon/Modules/Common.php:198-209 | look the user up exactly when the id is numeric and positive and the name is not falsy |
| `AnonCommon.RejectedCookieSkipsDatabase` | anon/Modules/Common.php:198-209 | a rejected cookie fails whatever the database holds |
| `AnonCommon.ValidateCookie` | anon/Modules/Common.php:198-215 | accepts no empty or `"0"` username (`AcceptedCookie` states the whole condition) |
| `AnonCommon.AcceptedCookie` | anon/Modules/Common.php:198-215 | accepted exactly when the pre-checks pass and the stored name equals the username |
| `DatabaseFacade.ParseClass` | anon/Modules/Database.php:52-68 | the subject and kind of a class name of the `Anon_Database_*Repository/Service` form |
| `DatabaseFacade.BootstrapStep` | anon/Modules/Database.php:55-66 | a new matching class is filed under its full name, its short key and the `lcfirst` key |
| `DatabaseFacade.BootstrapKeepsKeys` | anon/Modules/Database.php:52-68 | discovery never removes a key |
| `DatabaseFacade.BootstrapFilesEveryClass` | anon/Modules/Database.php:52-68 | every matching class ends up keyed by its full name |
| `DatabaseFacade.BootstrapSettled` | anon/Modules/Database.php:57-59 | once every class is filed, nothing more is instantiated |
| `DatabaseFacade.BootstrapOnce` | anon/Modules/Database.php:52-68 | a second discovery changes nothing |
| `DatabaseFacade.DedupPrefix` | anon/Modules/Database.php:155-169 | objects keep their first-seen order |
| `DatabaseFacade.Dedup` | anon/Modules/Database.php:155-169 | the same objects, each once |
| `DatabaseFacade.Database.constructor` | anon/Modules/Database.php:44-47 | an empty table, then discovery |
| `DatabaseFacade.Database.BootstrapInstances` | anon/Modules/Database.php:52-68 | the discovery loop equals `Bootstrapped` |
| `DatabaseFacade.Database.Get` | anon/Modules/Database.php:97-100 | the object under the key, or null |
| `DatabaseFacade.Database.IsSet` | anon/Modules/Database.php:102-105 | whether `__get` gives an object |
| `DatabaseFacade.Database.UniqueInstances` | anon/Modules/Database.php:155-169 | each stored object once, in first-seen order |
| `DatabaseFacade.Database.Call` | anon/Modules/Database.php:112-125 | the resolved target if it has the method, else the first object that has it, else an error |
| `DatabaseFacade.FirstWithMethod` | anon/Modules/Database.php:118-123 | an object that has the method; none exactly when no object has it |
| `DatabaseFacade.Subject` | anon/Modules/Database.php:132-135 | the verb-prefix regex and its subject |
| `DatabaseFacade.WordPrefix` | anon/Modules/Database.php:133 | the longest run of word characters at the start of the name |
| `DatabaseFacade.AfterVerb` | anon/Modules/Database.php:133 | the rest of the name after a verb that begins it; none exactly when no verb begins it |
| `DatabaseFacade.ResolveForwardTarget` | anon/Modules/Database.php:130-150 | the first present candidate key, or null |
| `DatabaseFacade.FirstPresent` | anon/Modules/Database.php:143-147 | an object stored under one of the candidate keys; none exactly when no candidate is present |
| `DatabaseFacade.SubjectIsWholeRemainder` | anon/Modules/Database.php:132-135 | the subject of `get<Rest>` is all of `Rest` |
| `DatabaseFacade.CallTargetOf` | anon/Modules/Database.php:112-125 | where `__call` sends a call |
| `DatabaseFacade.BadMethodCallIffNoObjectHasIt` | anon/Modules/Database.php:112-125 | a call fails exactly when no stored object has the method |
| `DatabaseFacade.LookupIsStored` | anon/Modules/Database.php:97-100 | a looked-up object is a stored value |
| `WidgetDatabase.ResolveForwardTarget` | anon/Widget/Database.php:86-101 | the prefix tables are tried in order, and no match gives null |
| `WidgetDatabase.FirstWithMethod` | anon/Widget/Database.php:74-78 | the repository found has the method; none is found exactly when no repository has it |
| `WidgetDatabase.FirstWithMethodIsEarliest` | anon/Widget/Database.php:74-78 | the repository found is the earliest one with the method |
| `WidgetDatabase.Call` | anon/Widget/Database.php:68-81 | resolved target, else fallback order, else `BadMethodCallException` exactly when no repository has the method |
| `WidgetDatabase.FallbackPicksFirst` | anon/Widget/Database.php:74-78 | without a usable target, the first repository in fallback order with the method is used |
| `WidgetDatabase.DeleteUserIsNotResolved` | anon/Widget/Database.php:86-101 | `deleteUser` matches no prefix table |
| `ApiUtils.OrElse` | client/Nuxt/app/composables/api/core/utils.js:33 | `a \|\| b` |
| `ApiUtils.IsNetworkError` | client/Nuxt/app/composables/api/core/ApiService.js:302 | an `AbortError` always counts; another error only with `Failed to fetch` in its message |
| `ApiUtils.FailedFetchIsNetworkError` | client/Nuxt/app/composables/api/core/ApiService.js:302 | `Failed to fetch` anywhere in the message makes a network error |
| `ApiUtils.HandleApiError` | client/Nuxt/app/composables/api/core/utils.js:12-22 | timeout, then network, then a non-empty default, then the error's message, then unknown; never empty |
| `ApiUtils.NetworkErrorsIgnoreDefault` | client/Nuxt/app/composables/api/core/utils.js:12-17 | a caller's message never hides a timeout or a failed fetch |
| `ApiUtils.NormalizeApiResponse` | client/Nuxt/app/composables/api/core/utils.js:29-42 | a missing response gives the no-response envelope; otherwise `success` and `message` lead, with distinct keys |
| `ApiUtils.PutAllKeepsLeadingKeys` | client/Nuxt/app/composables/api/core/utils.js:35-40 | the spread never moves or drops an existing key |
| `ApiUtils.NormalizeLookup` | client/Nuxt/app/composables/api/core/utils.js:35-40 | every response property survives, and the defaults apply only when absent |
| `ApiUtils.EmptyMessageIsKept` | client/Nuxt/app/composables/api/core/utils.js:35-40 | an empty `message` is not replaced by `error` |
| `ApiUtils.CachedValue` | client/Nuxt/app/composables/api/core/utils.js:107-117 | the value while fresh, otherwise null |
| `ApiUtils.Evicted` | client/Nuxt/app/composables/api/core/utils.js:107-117 | only a stale entry for the key is deleted |
| `ApiUtils.SetThenGet` | client/Nuxt/app/composables/api/core/utils.js:97-117 | after `set`, `get` returns the value until expiry and null after |
| `ApiUtils.EvictionIsInvisible` | client/Nuxt/app/composables/api/core/utils.js:107-117 | eviction changes no later answer |
| `ApiUtils.CacheManager.constructor` | client/Nuxt/app/composables/api/core/utils.js:87-89 | an empty cache |
| `ApiUtils.CacheManager.Set` | client/Nuxt/app/composables/api/core/utils.js:97-100 | the entry expires `duration` (default five minutes) after now |
| `ApiUtils.CacheManager.Get` | client/Nuxt/app/composables/api/core/utils.js:107-117 | returns `CachedValue` and leaves `Evicted` |
| `ApiUtils.CacheManager.Delete` | client/Nuxt/app/composables/api/core/utils.js:123-125 | removes the key |
| `ApiUtils.CacheManager.Clear` | client/Nuxt/app/composables/api/core/utils.js:130-132 | empties the cache |
| `ApiUtils.CacheManager.Has` | client/Nuxt/app/composables/api/core/utils.js:139-141 | true exactly when a fresh entry has a non-null value |
| `ApiClient.CleanEndpoint` | client/Nuxt/app/composables/api/core/ApiService.js:95 | exactly one leading slash is removed |
| `ApiClient.RequestUrl` | client/Nuxt/app/composables/api/core/ApiService.js:95-96 | base, `/`, then the cleaned endpoint |
| `ApiClient.LeadingSlashIgnored` | client/Nuxt/app/composables/api/core/ApiService.js:95-96 | `x` and `/x` give the same URL |
| `ApiClient.DoubleSlashKeepsOne` | client/Nuxt/app/composables/api/core/ApiService.js:95 | `//x` keeps one slash |
| `ApiClient.SsrUrl` | client/Nuxt/app/composables/api/core/ApiService.js:158-171 | a non-empty query follows a `?` |
| `ApiClient.MergeOptionsLookup` | client/Nuxt/app/composables/api/core/ApiService.js:103-111 | the caller's options win, and the defaults fill gaps |
| `ApiClient.MergeOptions` | client/Nuxt/app/composables/api/core/ApiService.js:103-111 | `method`, `credentials` and `headers` lead in that order, followed by the caller's other options, with distinct keys |
| `ApiClient.Omit` | client/Nuxt/app/composables/api/core/ApiService.js:158-171 | the options without the listed keys |
| `ApiClient.RetryDelay` | client/Nuxt/app/composables/api/core/ApiService.js:300-309 | `base * 2^i`, doubled after a network error |
| `ApiClient.DelayDoubles` | client/Nuxt/app/composables/api/core/ApiService.js:300-309 | after errors of the same kind (both network errors or neither), each retry waits twice as long as the one before |
| `ApiClient.RetryFrom` | client/Nuxt/app/composables/api/core/ApiService.js:122-152 | the retry loop: the first delivery wins, an SSR failure falls back, the last failure rethrows |
| `ApiClient.FirstDeliveryWins` | client/Nuxt/app/composables/api/core/ApiService.js:122-152 | the first delivered attempt settles, after one wait per failure |
| `ApiClient.AllFailuresRethrowLast` | client/Nuxt/app/composables/api/core/ApiService.js:144-147 | all failing: `retryCount` attempts, then the last error is rethrown |
| `ApiClient.SsrFailureFallsBack` | client/Nuxt/app/composables/api/core/ApiService.js:139-142 | an SSR first failure gives the fallback, with no wait |
| `ApiClient.OutcomeComesFromAnAttempt` | client/Nuxt/app/composables/api/core/ApiService.js:122-152 | the result is a delivery, the fallback, or an attempt's error |
| `NuxtApiService.BaseUrlOf` | client/Nuxt/app/composables/api/core/config.js:10-18 | `apiUrl`, else `apiBase`, else `/api` |
| `NuxtApiService.IsCrossOrigin` | client/Nuxt/app/composables/api/core/config.js:21-24 | an `https://` base is cross-origin; a base starting with `/` never is |
| `NuxtApiService.Credentials` | client/Nuxt/app/composables/api/core/ApiService.js:105 | `omit` exactly across origins, `include` otherwise |
| `NuxtApiService.UnsetRuntimeIsSameOrigin` | client/Nuxt/app/composables/api/core/config.js:21-24 | with nothing configured, requests are same-origin to `/api` |
| `NuxtApiService.FoldRequestAppend` | client/Nuxt/app/composables/api/core/ApiService.js:60-66 | later interceptors see what earlier ones produced |
| `NuxtApiService.FoldRequest` | client/Nuxt/app/composables/api/core/ApiService.js:60-66 | the result is the config passed in or one some interceptor returned |
| `NuxtApiService.FoldResponse` | client/Nuxt/app/composables/api/core/ApiService.js:74-80 | the result is the response passed in or a truthy value some interceptor returned |
| `NuxtApiService.FoldResponseAppend` | client/Nuxt/app/composables/api/core/ApiService.js:74-80 | the same for response interceptors |
| `NuxtApiService.FalsyInterceptorsKeepConfig` | client/Nuxt/app/composables/api/core/ApiService.js:60-66 | falsy results leave the config unchanged |
| `NuxtApiService.FoldResponseKeepsTruthy` | client/Nuxt/app/composables/api/core/ApiService.js:74-80 | a truthy response stays truthy |
| `NuxtApiService.AppendQuery` | client/Nuxt/app/composables/api/core/ApiService.js:182-189 | a query joins with `&` or `?` |
| `NuxtApiService.ClientAndSsrUrlsAgree` | client/Nuxt/app/composables/api/core/ApiService.js:182-189 | client and server URLs agree when there is no existing query |
| `NuxtApiService.ClientUrl` | client/Nuxt/app/composables/api/core/ApiService.js:182-189 | the URL, extended only by `?` or `&` and a non-empty query, and only for truthy `params` |
| `NuxtApiService.ClientFetchOptions` | client/Nuxt/app/composables/api/core/ApiService.js:192-202 | `method` and `headers` from the options, `credentials` by origin, and the options' `body` only when truthy |
| `NuxtApiService.ClientAttempt` | client/Nuxt/app/composables/api/core/ApiService.js:204-245 | 401 throws `未授权访问`; a 2xx delivers the JSON body or the `{ success, data: text }` wrapper; any other status throws with the status and that data as its cause |
| `NuxtApiService.ResponseData` | client/Nuxt/app/composables/api/core/ApiService.js:223-233 | the JSON body as parsed; any other content as `{ success: ok, data: text }` |
| `NuxtApiService.TextResponseIsWrapped` | client/Nuxt/app/composables/api/core/ApiService.js:228-232 | text answers become `{success: true, data}` |
| `NuxtApiService.SsrFallback` | client/Nuxt/app/composables/api/core/ApiService.js:254-295 | article endpoints get the empty article list, then statistics endpoints the zero counts, then message and member endpoints an empty page of 15; resolves exactly for those |
| `NuxtApiService.ArticleSubmitBranchUnreachable` | client/Nuxt/app/composables/api/core/ApiService.js:254-295 | the `article-submit` branch never runs: every endpoint not answered throws `SSR 环境下请求失败` |
| `NuxtApiService.ApiService.constructor` | client/Nuxt/app/composables/api/core/ApiService.js:10-19 | the default interceptors are registered |
| `NuxtApiService.ApiService.Init` | client/Nuxt/app/composables/api/core/ApiService.js:24-30 | only the first call reads the configuration |
| `NuxtApiService.ApiService.AddRequestInterceptor` | client/Nuxt/app/composables/api/core/ApiService.js:43-45 | appends the interceptor |
| `NuxtApiService.ApiService.AddResponseInterceptor` | client/Nuxt/app/composables/api/core/ApiService.js:51-53 | appends the interceptor |
| `NuxtApiService.ApiService.ExecuteRequestInterceptors` | client/Nuxt/app/composables/api/core/ApiService.js:60-66 | the loop equals the fold |
| `NuxtApiService.ApiService.ExecuteResponseInterceptors` | client/Nuxt/app/composables/api/core/ApiService.js:74-80 | the loop equals the fold |
| `NuxtApiService.ApiService.TryOnce` | client/Nuxt/app/composables/api/core/ApiService.js:124-132 | one attempt, with response interceptors applied |
| `NuxtApiService.ApiService.Retry` | client/Nuxt/app/composables/api/core/ApiService.js:122-152 | the loop equals `RetryFrom` |
| `NuxtApiService.ApiService.Request` | client/Nuxt/app/composables/api/core/ApiService.js:88-153 | init, merge, interceptors, then `RetryFrom` |
| `NuxtApiService.GetOptions` | client/Nuxt/app/composables/api/core/ApiService.js:314-319 | `get` sends `method` `GET` and the given `params`, with no body and no headers of its own |
| `NuxtApiService.ActionParams` | client/Nuxt/app/composables/api/core/ApiService.js:325 | `{ action }` exactly when the action is truthy, otherwise the empty object |
| `NuxtApiService.BodyOptions` | client/Nuxt/app/composables/api/core/ApiService.js:324-351 | `post`/`put` send their verb, the action params, the JSON body and a JSON `Content-Type` header |
| `NuxtApiService.DeleteOptions` | client/Nuxt/app/composables/api/core/ApiService.js:356-363 | `delete` sends `method` `DELETE` and the action params, with no body and no headers of its own |
| `NuxtApiService.GetKeepsDefaultHeaders` | client/Nuxt/app/composables/api/core/ApiService.js:314-319 | a `get` keeps both default headers |
| `NuxtApiService.BodyRequestDropsAccept` | client/Nuxt/app/composables/api/core/ApiService.js:324-351 | `post`/`put` headers override, so the default `Accept` is dropped |
| `NuxtApiService.SsrTriesOnce` | client/Nuxt/app/composables/api/core/ApiService.js:139-142 | on the server the first failure settles the request |
| `LegacyApiService.ClientAttempt` | client/app/composables/api/core.js:95-126 | 401 throws, non-2xx throws, 2xx delivers the JSON |
| `LegacyApiService.SsrFallback` | client/app/composables/api/core.js:131-144 | resolves exactly for article endpoints |
| `LegacyApiService.NonArticleSsrFailureThrowsFallbackError` | client/app/composables/api/core.js:60-63 | a non-article SSR failure throws the fallback's error |
| `LegacyApiService.ApiService.constructor` | client/app/composables/api/core.js:9-11 | the base URL is `/apiService` |
| `LegacyApiService.ApiService.TryOnce` | client/app/composables/api/core.js:79-126 | one attempt |
| `LegacyApiService.ApiService.Request` | client/app/composables/api/core.js:26-74 | the loop equals `RetryFrom` |
| `LegacyApiService.ClientWaitsAtMostTwice` | client/app/composables/api/core.js:46-71 | at most two waits: 1 second after the first failure and 2 after the second, each doubled after a network error |

## Left out

- Hook timing (`microtime`, `total_time`, `added_at`), `debug_log` and the echoed callback errors. The model does not use `debug_log`'s argument order at anon/Modules/Hook.php:355.
- `get_hook_stats()` without a name and `get_all_hooks()`: they return the fields `stats` and `hooks` as they stand, so they get no member of their own.
- Re-entrant hook callbacks, which could change the registry during a run. Callbacks are oracles of their arguments.
- `echo`, `header()` and `exit`. A response is the returned `Exited(status, body)`.
- The router's notification `do_action` calls. The `router_request_path` filter is modelled.
- The PCRE `$` that also matches before a trailing newline.
- `RouteCore.ParseUrlPath`: `parse_url` is modelled for targets that do not begin with `//` and that begin with `/` or `:` or have no `:` before their first `?` or `#`. Every origin-form request target is of this kind. Other targets are read as paths.
- `Router.GetRequestPath`: a target beginning with `//` is read by `parse_url` as `//host/path`, so `//h/p` gives `/p`; the model keeps `//h/p` whole.
- `Router.GetRequestPath`: a target with a scheme (`ab:c`) or with a host before its first `/` (`ab/c:80`) is split by `parse_url` into URL parts; for `ab/c:80` it succeeds with the path `/c:80`, where the model fails. Malformed-authority failures other than the port rule are not modelled.
- `LegacyRouter.GetRequestPath`: the same restriction applies; for `//h/p` the source routes `p`, the model `h/p`.
- Null handlers and integer-key coercion of route arrays. Route keys are strings.
- Sessions, cookies, `Anon_Install`, `Anon_Debug`, `Anon_Common::Header` and `SystemInfo`.
- `filter_var`, `is_numeric` with the `(int)` cast, `is_callable`, `class_exists` and `method_exists` are parameters. The case-insensitivity of `method_exists` is inside `hasMethod`.
- `Config.RouteRegistry.InitSystemRoutes`: the source spells out twelve `addRoute` calls. The model runs one loop over a table of the same twelve entries in the same order.
- The login check answers with HTTP status 200. This is modelled as the source does it.
- `View`'s `realpath` and `include`: whether a view exists is a parameter.
- Database I/O:
  - a failing `prepare` or `execute` (a `RuntimeException` or `die`);
  - `get`, `scalar` and `execute` results, which come from oracles.
- Floats are opaque values. Only their type code `d` is modelled.
- Group keys that PHP coerces to integers. Falsy group keys are modelled.
- Numeric-string route keys in the older configuration.
- The `require` loop over repository files in both database facades.
- The `db`, `query` and `prepare` delegation in both database facades.
- The client `storage` helper (localStorage).
- The logout side effect after a 401, which goes through the auth store. In the older client (client/app/composables/api/core.js:110-114) the dynamic import and `logout()` are not inside a `try`: if either fails, the request rejects with that error instead of `未授权访问`. The model always rejects with `未授权访问`.
- The `AbortController` timeout. A timeout is an `AbortError` the fetch oracle can return.
- `async`/`await` and real delays. The waits are returned as a list.
- JavaScript `undefined` as a cached value.
- String spreads and the ordering of integer-like keys in JavaScript objects.
- Non-object responses given to `normalizeApiResponse`.
- Console logging, and the PHP `error_log` calls in `Anon_ResponseHelper` (anon/Modules/ResponseHelper.php:130-132, 151) and in the router (anon/Modules/Router.php:270-271, 295, 332), which write to the server log only.
- `ResponseHelper`: an explicit `null` passed as `$message` cannot be expressed, because `None` stands for the omitted argument and so gets the default message.
- `response.json()` parse errors. The parsed body is part of the fetch oracle's answer.
- Interceptors that throw.
- `JSON.stringify` bodies. A body is an opaque value.
- A `NaN` expiry time.
- `QueryBuilder.Builder.Limit`: the `(int)` casts of server/anon/Database/Connection.php:110 are not modelled; the limit and offset are integers already.
- PHP and JavaScript default arguments are not modelled as such; callers pass every argument. The defaults are `add_action`/`add_filter` priority 10 and accepted arguments 1, `orderBy` direction `ASC`, and `join` type `INNER`.
