# behave-router, modelled in Dafny

This project models behave-router. It is a small client-side router that
subscribes to a dispatcher and reacts to route-change events. Every event
of the router's type that arrives while the router is started runs a
three-stage pipeline:

1. **Route selection** (`_pullRoutes`) keeps the registered routes whose
   pattern accepts the event's path. It also drives the enter/exit toggle
   `needsUnload`: when the toggle is set and nothing matches, the exit
   routes registered with `exit` run instead and the toggle clears. In
   every other case the matches run, even when there are none, and the
   toggle is set.
2. **Context building** (`_buildContext`) folds the middleware chain over
   a base context `{data, _router, _canonicalPath}`.
3. **Handler calls** (`_runRoutes`) compute each selected route's
   parameters onto the one shared context, then call the handlers in
   order.

A `Route` (`src/lib/route.js`) pairs a pattern with a handler. It rewrites
`*` to `(.*)`, compiles the pattern, and builds a map of parameters from
the keys and the percent-decoded captures.

Files:

- `wrappers.dfy`: `Option` and `Result`.
- `unique_id.dfy`: the lodash `uniqueId` counter. It is a class over one
  shared counter, with a proof that ids drawn under one prefix are
  distinct.
- `uri_decode.dfy`: a per-byte `%XY` decoder standing in for
  `decodeURIComponent`.
- `path_to_regexp.dfy`: a small matcher standing in for `path-to-regexp`.
  It handles literal segments and whole `:name` segments (with a name of
  word characters) separated by `/`, and the
  catch-all group `(.*)`, which has one key named `0` that captures the
  whole url.
- `route.dfy`: `Route` as a value, with `NewRoute` (the constructor's
  fields) and `BuildParams`.
- `router.dfy`: `Router` as a class.
  - Fields: `routes`, `middleware`, `unloads`, `needsUnload` and
    `started`.
  - A ghost `trace` records every handler call as a route id, a handler
    and the context it received.
  - The pure parts of the pipeline (`Matching`, `SelectRoutes`,
    `ApplyMiddleware`, `PassCalls`) are functions that the methods are
    proved against.
- `scenarios.dfy`: the repository's tests plus further examples, replayed
  against the model.

Two behaviours of the code deserve a note, and the model follows the code
on both:

- A no-match event while idle sets `needsUnload` as well
  (`src/index.js:71-77`). A run of events that match nothing therefore
  selects the exit routes on every other event, not just once
  (`UnmatchedRunAlternates`).
- `_runRoutes` assigns every selected route's params onto the shared
  context before any handler runs (`src/index.js:123-131`). Every handler
  in a pass therefore sees the params of the last selected route, not the
  params of its own route (`PassCallsShape`, `FirstHandlerSeesLastParams`).

## Model

| member | source | states |
|---|---|---|
| UniqueId.IdCounter.Next | src/lib/route.js:8 | the shared counter goes up by one and the drawn value is the new count |
| UniqueId.IdCounter.UniqueId | src/index.js:10 | the id is the prefix followed by the new count, and it differs from every id drawn earlier under the same prefix |
| UniqueId.Decimal | src/lib/route.js:8 | the decimal rendering of a counter value is non-empty, and it has one digit exactly when the value is below 10 |
| UniqueId.DecimalDistinct | src/lib/route.js:8 | distinct counter values render to distinct strings |
| UniqueId.FormatDistinct | src/lib/route.js:8 | under one prefix, distinct counter values give distinct ids |
| UriDecode.HexDigit | src/lib/route.js:21 | the hex digit written for a value below 16 reads back as that value |
| UriDecode.Decode | src/lib/route.js:21 | decoding never lengthens a string, and it leaves a string without `%` unchanged |
| UriDecode.DecodeEscape | src/lib/route.js:21 | an escape `%XY` followed by any text decodes to the escaped character followed by the decoded text |
| PathToRegexp.Split | src/lib/route.js:11 | a path splits into at least one segment, and no segment contains `/` |
| PathToRegexp.SplitSingle | src/lib/route.js:11 | a path without `/` is one segment |
| PathToRegexp.SplitFirst | src/lib/route.js:11 | splitting `s/t` gives `s` and then the segments of `t` |
| PathToRegexp.ParseSegment | src/lib/route.js:11 | a segment is a parameter exactly when it is `:` followed by a name of one or more word characters, and the parameter's name is that name; any other segment is literal text, kept as written |
| PathToRegexp.Compile | src/lib/route.js:11 | a pattern compiles to the catch-all exactly when it is `(.*)` |
| PathToRegexp.ParamNames | src/lib/route.js:11 | a pattern has at most as many keys as segments |
| PathToRegexp.MatchSegments | src/lib/route.js:15 | a match needs as many url segments as pattern segments and captures one value per key |
| PathToRegexp.Keys | src/lib/route.js:11 | the names `ptr` pushes onto `keys`: the parameter names in pattern order, or `0` for the catch-all; `Exec` captures one value per key |
| PathToRegexp.Exec | src/lib/route.js:15 | a successful match captures exactly one value per key of the pattern |
| BehaveRoute.NewRoute | src/lib/route.js:7-12 | the constructor stores `fn` unchanged, and the path unchanged except that exactly `*` becomes `(.*)`; the matcher is compiled from that path; a route built from `*` accepts every url, capturing all of it |
| BehaveRoute.Create | src/lib/route.js:7-12 | building a route draws one counter value, and the route's `route_` id differs from every earlier route id |
| BehaveRoute.Route.Accepts | src/index.js:66 | `regexp.test(url)`: the route's matcher captures something on the url; `MatchingMembers` and `CatchAllAccepts` are the facts stated about it |
| BehaveRoute.Route.BuildParams | src/lib/route.js:14-25 | for an accepted url, the params have exactly the pattern's key names as keys |
| BehaveRoute.ZipParams | src/lib/route.js:20-22 | zipping keys with captures gives a map whose keys are exactly the key names |
| BehaveRoute.ZipParamsLastWins | src/lib/route.js:20-22 | each name maps to the decoded capture at its last position, so a later key with the same name wins |
| BehaveRoute.BuildParamsAt | src/lib/route.js:15-22 | for an accepted url, the i-th key without a later namesake maps to the decoded i-th capture |
| BehaveRoute.CatchAllAccepts | src/lib/route.js:9-11 | a route built from `*` accepts any url, and its params are `{0: decoded url}` |
| BehaveRouter.EventTypeOf | src/index.js:16 | the event type is the given one when it is present and non-empty, and `ROUTE_CHANGE` otherwise |
| BehaveRouter.DataOrEmpty | src/index.js:82 | `evt.data || {}`: the event data when present, the empty map otherwise; `PullRoutes` states it of the selection |
| BehaveRouter.Matching | src/index.js:65-67 | the filter keeps no more routes than it is given |
| BehaveRouter.MatchingMembers | src/index.js:65-67 | a route is kept exactly when it is registered and accepts the path |
| BehaveRouter.MatchingAppend | src/index.js:65-67 | filtering distributes over concatenation, so registration order is kept |
| BehaveRouter.MatchingSnoc | src/index.js:65-67 | a route registered last is tried last, and it is kept only if it accepts the path |
| BehaveRouter.SelectRoutes | src/index.js:69-77 | the new toggle is `!(old toggle && no match)`; when it is set, the selection is the matches, and when it clears, the selection is the exit routes; if every exit route is a catch-all, every selected route accepts the path |
| BehaveRouter.UnmatchedRunAlternates | src/index.js:69-77 | over a run of events that match nothing, the exit routes are selected on every other event, starting with the first one when the toggle was set |
| BehaveRouter.BaseContext | src/index.js:89-93 | the base context `{data, _router, _canonicalPath}`, with no params yet; `BuildContext` starts from it |
| BehaveRouter.ApplyMiddleware | src/index.js:95-112 | the waterfall as a left fold: the first middleware receives the base, each later one the previous result, and the empty chain leaves the base; `ApplyMiddlewareSnoc` and `ApplyMiddlewareStep` state this |
| BehaveRouter.ApplyMiddlewareSnoc | src/index.js:95-106 | appending a middleware applies it to what the chain before it returned |
| BehaveRouter.ApplyMiddlewareStep | src/index.js:95-106 | the i-th middleware receives the result of the first i middleware |
| BehaveRouter.TwoMiddleware | src/index.js:95-112 | with two middleware, the context is `m2(m1(base))` |
| BehaveRouter.SharedContext | src/index.js:123-126 | the one shared context after the `map`: the input context with `params` overwritten by each selected route in turn, so it ends with the last route's params |
| BehaveRouter.PassCalls | src/index.js:127-136 | the handler calls of one pass, one per selected route in order, each given the shared context; none for an empty selection; `PassCallsShape` states the indexed form |
| BehaveRouter.PassCallsShape | src/index.js:123-131 | a pass calls each selected handler once, in selection order, with the shared context carrying the params of the last selected route |
| BehaveRouter.Router.Create | src/index.js:7-19 | the router's id is drawn first. Without a dispatcher, construction fails with `no dispatcher given to router: ` followed by that id. Otherwise the router starts with empty lists, the toggle clear, stopped, and the given or default event type |
| BehaveRouter.Router.Use | src/index.js:26-28 | appends exactly one route built from `(path, fn)`, with a fresh id, and changes no other list |
| BehaveRouter.Router.Middleware | src/index.js:30-32 | appends exactly the given middleware and changes nothing else |
| BehaveRouter.Router.Exit | src/index.js:34-36 | appends exactly one route built from `*` and `fn`, with a fresh id, and changes no other list |
| BehaveRouter.Router.Start | src/index.js:38-40 | sets `started` and changes nothing else |
| BehaveRouter.Router.Stop | src/index.js:42-44 | clears `started` and changes nothing else |
| BehaveRouter.Router.Purge | src/index.js:46-51 | empties the three lists and clears the toggle; `started` and the event type are kept |
| BehaveRouter.Router.Deliver | src/index.js:21-23 | an event that arrives while the router is stopped, or that has another type, changes no state and calls no handler; otherwise the toggle and trace are those of the pipeline |
| BehaveRouter.Router.OnPathChange | src/index.js:53-60 | an event of another type changes nothing. Otherwise the toggle is updated by route selection, and the trace grows by one call per selected handler, each given the middleware-folded context with the last selected route's params |
| BehaveRouter.Router.PullRoutes | src/index.js:62-84 | the selection and the new toggle are those of `SelectRoutes`. The path is passed on, and the data is `evt.data` or `{}`. Every selected route accepts the path |
| BehaveRouter.Router.BuildContext | src/index.js:86-114 | the context is the middleware chain folded left over the base context, or the base context itself when there is no middleware |
| BehaveRouter.Router.RunRoutes | src/index.js:116-137 | completion is reported exactly when something was selected, and the trace grows by exactly the calls of the pass |
| RouterScenarios.CompileLiteralThenParam | src/lib/route.js:11 | a pattern `dir/:name` compiles to a literal segment `dir` and a parameter `name` |
| RouterScenarios.MatchLiteralThenParam | src/lib/route.js:15 | the segments `dir`, `:name` match `dir/value` for any non-empty one-segment `value`, capturing it under `name` |
| RouterScenarios.LiteralThenParam | src/lib/route.js:11-15 | a pattern `dir/:name` has the one key `name` and captures `value` from `dir/value` |
| RouterScenarios.LiteralThenParamRejects | src/lib/route.js:15 | a pattern `dir/:name` rejects every url of one segment |
| RouterScenarios.LiteralMismatchRejects | src/lib/route.js:15 | a pattern `dir/:name` rejects `other/value` whenever `other` differs from `dir` |
| RouterScenarios.LiteralSegmentAcceptsItself | src/lib/route.js:11-15 | a pattern of one literal segment accepts its own text and captures nothing |
| RouterScenarios.SomePathParams | test/spec/routerSpec.js:341-357 | `some/:path` accepts `some/url` with params `{path: 'url'}` |
| RouterScenarios.SomePathRejects | src/lib/route.js:15 | `some/:path` rejects every one-segment url |
| RouterScenarios.SomePathBehaves | test/spec/routerSpec.js:341-357 | every route built from `some/:path` accepts `some/url` with `{path: 'url'}` and rejects a one-segment url |
| RouterScenarios.DecodeSpace | src/lib/route.js:21 | a captured `%20name` is given as ` name` |
| RouterScenarios.EnterThenLeave | test/spec/routerSpec.js:212-237 | with one route and one exit route, entering a matched url selects the route and sets the toggle, and leaving to an unmatched url selects the exit route and clears the toggle |
| RouterScenarios.EnterThenLeaveRouter | src/index.js:62-137 | on a started router, entering then leaving calls the route's handler with its params and then the exit handler with `{0: decoded url}` |
| RouterScenarios.TwoMiddlewareRouter | src/index.js:86-131 | with middleware `m1` then `m2`, the matched handler is given `m2(m1(base))` with its params |
| RouterScenarios.NoDispatcherScenario | src/index.js:18 | constructing a router without a dispatcher on a fresh counter fails with `no dispatcher given to router: router_1` |
| RouterScenarios.DeliverSetsToggle | src/index.js:21-77 | on a started router with the toggle clear, any event of the router's type sets the toggle, whether or not a route matches |
| RouterScenarios.PurgeScenario | test/spec/routerSpec.js:106-127 | after one `use`, one `middleware` and one `exit`, each list has one element; once an event has set the toggle, `purge` empties all three and clears the toggle, keeps `started`, and a second `purge` leaves the same state |
| RouterScenarios.IgnoredEventScenario | test/spec/routerSpec.js:147-162 | an event delivered before `start`, and one of another type after it, call no handler and leave the toggle clear |
| RouterScenarios.NewExitRouter | src/index.js:7-40 | a new router after `use(pattern, h1)`, `exit(h2)` and `start()` is started, has the toggle clear, no calls and no middleware, one route built from `pattern` with `h1`, and one exit route with `h2` |
| RouterScenarios.EnterExitScenario | test/spec/routerSpec.js:212-237 | on a new router with one route and one exit route, entering then leaving calls the route's handler with the pattern's params and then the exit handler with the left url |
| RouterScenarios.NewMiddlewareRouter | src/index.js:7-40 | a new router after `use(pattern, h)`, `middleware(m1)`, `middleware(m2)` and `start()` is started, has no calls, one route built from `pattern` with `h`, and the middleware `[m1, m2]` in that order |
| RouterScenarios.MiddlewareScenario | src/index.js:86-131 | on a new router with one route and two middleware, the handler is given `m2(m1(base))` with the route's params |
| RouterScenarios.FirstHandlerSeesLastParams | src/index.js:123-131 | when `dir/:x` and `dir/:y` both accept `dir/value`, the first handler is given `{y: value}` |

## Left out

- The dispatcher subscription (`register`, `src/index.js:21-23`) is not
  modelled. `Router.Deliver` stands for the registered callback, and the
  dispatcher is kept only as a name.
- The `async` library (`auto`, `waterfall`, `series`) is modelled as
  ordinary sequential code. Deferred callbacks and their timing are not
  modelled.
- Exceptions are not modelled.
  - Middleware and handlers are total functions, and a handler is a token
    recorded in the trace. What a handler does is not modelled.
  - The middleware error path calls its callback twice
    (`src/index.js:100-102, 107-108`), and there is no coherent outcome
    to state.
  - A handler that throws escapes `series`.
  - `_onRoutesComplete` (`src/index.js:139-141`) only rethrows an error,
    and it does nothing on success. The model has no error to rethrow.
    `RunRoutes` reports with `completed` whether the source would reach
    its completion callback at all.
- BehaveRoute.Route.BuildParams: takes a precondition that the route
  accepts the url. The source calls `.slice(1)` on the result of `exec`
  before it checks that result, so a rejected url throws rather than
  returning `false`. The router only calls it on selected routes, and
  `PullRoutes` proves that each of those accepts the path, given the
  catch-all assumption in the next line.
- PathToRegexp.Exec: the catch-all `(.*)` accepts every url. In
  `path-to-regexp` it compiles to a JavaScript regular expression whose
  `.` does not match `\n`, `\r`, U+2028 or U+2029. So the source's exit
  routes reject a url containing a line terminator. When such a url
  arrives with the toggle set and no route matching, `buildParams`
  throws on the exit routes (`src/lib/route.js:15`) and no exit handler
  runs. The model assumes urls without line terminators.
  `CatchAllAccepts`, the last ensures of `NewRoute`, the last ensures of
  `SelectRoutes` and `PullRoutes`' "every selected route accepts" all
  rest on this.
- PathToRegexp.ParseSegment: a parameter is recognised only as a whole
  segment `:name`. `path-to-regexp` reads `:(\w+)` anywhere in a
  segment. There, `file.:ext` has a parameter `ext`, and `:a-b` is the
  parameter `a` followed by the literal text `-b`. The model keeps both
  as literal segments. A lone `:` is a literal colon in both.
- `path-to-regexp` is replaced by the segment matcher in
  `path_to_regexp.dfy`. The model leaves out:
  - regular-expression syntax other than `:name` and `(.*)`;
  - case-insensitive matching;
  - the optional trailing slash;
  - custom groups and modifiers.

  The catch-all's key is named `0`, the name `path-to-regexp` gives an
  unnamed group.
- `decodeURIComponent` is replaced by a per-byte decoder: each `%XY`
  becomes the one character with code point 0xXY. A UTF-8 multi-byte
  sequence such as `%C3%A9` therefore decodes to one character per byte,
  not to one character; a lone escape at or above `%80` is decoded rather
  than raising `URIError`; and a `%` not followed by two hex digits is kept
  as written rather than raising `URIError`.
- Object identity is not modelled.
  - The context is a value. The one shared object that `_runRoutes`
    writes `params` onto is modelled as one value that every handler of
    the pass receives.
  - A handler or middleware that keeps a reference and mutates it later
    is not modelled.
  - `_router` holds the router's id, not the router object.
- lodash `uniqueId` draws from one counter shared by every prefix. The
  model proves ids distinct within one prefix only, because ids under
  different prefixes can coincide as strings.
- UniqueId.IdCounter.Next: the counter is an unbounded `nat`. lodash's
  `idCounter` is a JavaScript number, so once it reaches 2^53,
  `++idCounter` rounds back to 2^53 and stops increasing. From then on,
  every draw returns the same value.
- UniqueId.IdCounter.UniqueId: the promise that the new id differs from
  every earlier id under the same prefix holds in the program only while
  fewer than 2^53 ids have been drawn. After that, ids repeat.
- BehaveRoute.Create: the freshness of the `route_` id rests on the same
  assumption of fewer than 2^53 draws from the shared counter.
- BehaveRouter.Router.Use, BehaveRouter.Router.Exit: the new route's id
  is fresh only under the same assumption.
- Re-entrant or overlapping events are not modelled: each delivery runs
  to completion before the next one.
- The transpiled copies under `dist/` are the same logic and are not
  modelled separately.
