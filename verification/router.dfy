/**
 * The router: a small event-driven state machine. It keeps the registered
 * routes, the middleware chain and the exit (unload) routes, a started gate
 * and the enter/exit toggle `needsUnload`. Each accepted route-change event
 * runs three stages in order: select routes, build the context, run the
 * handlers. Handler invocations are recorded in a ghost trace.
 */
module BehaveRouter {
  import opened Wrappers
  import opened BehaveRoute
  import UniqueId

  const RouterIdPrefix := "router_"
  const DefaultEventType := "ROUTE_CHANGE"
  const NoDispatcherMessage := "no dispatcher given to router: "

  /** Event payloads and route parameters, as string-keyed records. */
  type Data = map<string, string>

  /** The external dispatcher the router subscribes to, known by name only. */
  datatype Dispatcher = Dispatcher(name: string)

  /** The constructor's `options`; `None` is an absent or falsy entry. */
  datatype Options = Options(dispatcher: Option<Dispatcher>, eventType: Option<string>)

  /** A dispatched event `{type, route, data}`. */
  datatype Event = Event(kind: string, route: string, data: Option<Data>)

  /**
   * The context object handed to middleware and handlers: the event data,
   * the router (by id), the canonical path, the route parameters once set,
   * and whatever else middleware stores.
   */
  datatype Context = Context(
    data: Data,
    router: string,
    canonicalPath: string,
    params: Option<Data>,
    locals: Data)

  /** A middleware maps the context it receives to the one it passes on. */
  type Middleware = Context -> Context

  /** What the route-selection stage hands on. */
  datatype Selection = Selection(routes: seq<Route>, route: string, data: Data)

  /** The routes a selection picks and the toggle's new value. */
  datatype Pulled = Pulled(selected: seq<Route>, needsUnload: bool)

  /** One handler invocation: the route's id, its handler and the context it was given. */
  datatype Call = Call(routeId: string, handler: Handler, context: Context)

  /** `options.eventType || 'ROUTE_CHANGE'`: a missing or empty type falls back to the default. */
  function EventTypeOf(options: Options): (t: string)
    ensures t != ""
    ensures options.eventType.Some? && options.eventType.value != "" ==> t == options.eventType.value
    ensures options.eventType.None? || options.eventType.value == "" ==> t == DefaultEventType
  {
    match options.eventType
    case Some(t) => if t != "" then t else DefaultEventType
    case None => DefaultEventType
  }

  /** `evt.data || {}` */
  function DataOrEmpty(data: Option<Data>): Data
  {
    match data
    case Some(d) => d
    case None => map[]
  }

  /** `filter(routes, r => r.regexp.test(path))` */
  function Matching(routes: seq<Route>, path: string): (matched: seq<Route>)
    ensures |matched| <= |routes|
  {
    if routes == [] then []
    else (if routes[0].Accepts(path) then [routes[0]] else []) + Matching(routes[1..], path)
  }

  /** Exactly the registered routes that accept `path` are kept. */
  lemma {:induction false} MatchingMembers(routes: seq<Route>, path: string)
    ensures forall r :: r in Matching(routes, path) <==> r in routes && r.Accepts(path)
  {
    if routes != [] {
      MatchingMembers(routes[1..], path);
      assert routes == [routes[0]] + routes[1..];
    }
  }

  /** Filtering keeps registration order: it distributes over concatenation. */
  lemma {:induction false} MatchingAppend(a: seq<Route>, b: seq<Route>, path: string)
    ensures Matching(a + b, path) == Matching(a, path) + Matching(b, path)
  {
    if a == [] {
      assert a + b == b;
    } else {
      var head := if a[0].Accepts(path) then [a[0]] else [];
      assert (a + b)[0] == a[0];
      assert (a + b)[1..] == a[1..] + b;
      assert Matching(a + b, path) == head + Matching((a + b)[1..], path);
      MatchingAppend(a[1..], b, path);
      var rest, later := Matching(a[1..], path), Matching(b, path);
      assert Matching(a + b, path) == head + (rest + later);
      assert Matching(a, path) == head + rest;
      assert head + (rest + later) == (head + rest) + later;
    }
  }

  /** A route registered after the others is tried after them, and only if it matches. */
  lemma MatchingSnoc(routes: seq<Route>, r: Route, path: string)
    ensures Matching(routes + [r], path) == Matching(routes, path) + (if r.Accepts(path) then [r] else [])
  {
    MatchingAppend(routes, [r], path);
  }

  /**
   * Route selection and the enter/exit toggle: with the toggle set and no
   * match, the unload routes are selected and the toggle clears; in every
   * other case the matches (possibly none) are selected and the toggle is set.
   */
  function SelectRoutes(needsUnload: bool, routes: seq<Route>, unloads: seq<Route>, path: string): (p: Pulled)
    ensures p.needsUnload == !(needsUnload && Matching(routes, path) == [])
    ensures p.needsUnload ==> p.selected == Matching(routes, path)
    ensures !p.needsUnload ==> p.selected == unloads
    ensures (forall u :: u in unloads ==> u.IsCatchAll()) ==> forall r :: r in p.selected ==> r.Accepts(path)
  {
    var matched := Matching(routes, path);
    if needsUnload && matched == [] then
      assert forall u :: u in unloads && u.IsCatchAll() ==> u.Accepts(path);
      Pulled(unloads, false)
    else
      MatchingMembers(routes, path);
      Pulled(matched, true)
  }

  /** The routes selected by each of a series of events, starting from toggle `needsUnload`. */
  function Selections(needsUnload: bool, routes: seq<Route>, unloads: seq<Route>, paths: seq<string>): (picks: seq<seq<Route>>)
    ensures |picks| == |paths|
    decreases |paths|
  {
    if paths == [] then []
    else
      var p := SelectRoutes(needsUnload, routes, unloads, paths[0]);
      [p.selected] + Selections(p.needsUnload, routes, unloads, paths[1..])
  }

  /**
   * The first of a run of events that match no route selects the unload
   * routes exactly when the toggle is set, and flips it; the rest of the run
   * still matches nothing.
   */
  lemma UnmatchedStep(needsUnload: bool, routes: seq<Route>, unloads: seq<Route>, paths: seq<string>)
    requires paths != []
    requires forall j :: 0 <= j < |paths| ==> Matching(routes, paths[j]) == []
    ensures Selections(needsUnload, routes, unloads, paths)
      == [if needsUnload then unloads else []] + Selections(!needsUnload, routes, unloads, paths[1..])
    ensures forall j :: 0 <= j < |paths[1..]| ==> Matching(routes, paths[1..][j]) == []
  {
    forall j | 0 <= j < |paths[1..]| ensures Matching(routes, paths[1..][j]) == [] {
      assert paths[1..][j] == paths[j + 1];
    }
  }

  /**
   * Over a run of events that match no route, the unload routes are selected
   * on every other event: a no-match while idle sets the toggle again.
   */
  lemma {:induction false} UnmatchedRunAlternates(needsUnload: bool, routes: seq<Route>, unloads: seq<Route>, paths: seq<string>, i: nat)
    requires forall j :: 0 <= j < |paths| ==> Matching(routes, paths[j]) == []
    requires i < |paths|
    ensures Selections(needsUnload, routes, unloads, paths)[i] == if (i % 2 == 0) == needsUnload then unloads else []
    decreases i
  {
    UnmatchedStep(needsUnload, routes, unloads, paths);
    if i > 0 {
      UnmatchedRunAlternates(!needsUnload, routes, unloads, paths[1..], i - 1);
      assert (i % 2 == 0) == !((i - 1) % 2 == 0);
    }
  }

  /** The base context `{data, _router, _canonicalPath}`. */
  function BaseContext(router: string, route: string, data: Data): Context
  {
    Context(data, router, route, None, map[])
  }

  /** The middleware chain as a left fold: the first receives `base`, each later one the previous one's result. */
  function ApplyMiddleware(chain: seq<Middleware>, base: Context): Context
  {
    if chain == [] then base else ApplyMiddleware(chain[1..], chain[0](base))
  }

  /** The last middleware receives what the chain before it returned. */
  lemma {:induction false} ApplyMiddlewareSnoc(chain: seq<Middleware>, m: Middleware, base: Context)
    ensures ApplyMiddleware(chain + [m], base) == m(ApplyMiddleware(chain, base))
  {
    if chain != [] {
      assert (chain + [m])[0] == chain[0];
      assert (chain + [m])[1..] == chain[1..] + [m];
      ApplyMiddlewareSnoc(chain[1..], m, chain[0](base));
    }
  }

  /** The `i`-th middleware receives the result of the ones before it. */
  lemma ApplyMiddlewareStep(chain: seq<Middleware>, base: Context, i: nat)
    requires i < |chain|
    ensures ApplyMiddleware(chain[..i + 1], base) == chain[i](ApplyMiddleware(chain[..i], base))
  {
    assert chain[..i + 1] == chain[..i] + [chain[i]];
    ApplyMiddlewareSnoc(chain[..i], chain[i], base);
  }

  /** Middleware `m1` then `m2`: the context is `m2` applied to `m1` applied to the base. */
  lemma TwoMiddleware(m1: Middleware, m2: Middleware, base: Context)
    ensures ApplyMiddleware([m1, m2], base) == m2(m1(base))
  {
    ApplyMiddlewareSnoc([m1], m2, base);
    assert [m1] + [m2] == [m1, m2];
    assert [m1][1..] == [];
  }

  /** The shared context every handler of a non-empty pass sees: params of the last selected route. */
  function SharedContext(selected: seq<Route>, path: string, context: Context): (shared: Context)
    requires selected != []
    requires forall r :: r in selected ==> r.Accepts(path)
  {
    context.(params := Some(selected[|selected| - 1].BuildParams(path)))
  }

  /** The handler calls of one pass, in selection order. */
  function PassCalls(selected: seq<Route>, path: string, context: Context): (calls: seq<Call>)
    requires forall r :: r in selected ==> r.Accepts(path)
  {
    if selected == [] then []
    else
      var shared := SharedContext(selected, path, context);
      seq(|selected|, i requires 0 <= i < |selected| => Call(selected[i].Id(), selected[i].fn, shared))
  }

  /**
   * Each selected handler is called once, in selection order, and every call
   * carries the params of the LAST selected route, not of its own route.
   */
  lemma PassCallsShape(selected: seq<Route>, path: string, context: Context, i: nat)
    requires forall r :: r in selected ==> r.Accepts(path)
    requires i < |selected|
    ensures |PassCalls(selected, path, context)| == |selected|
    ensures PassCalls(selected, path, context)[i] ==
      Call(selected[i].Id(), selected[i].fn,
           context.(params := Some(selected[|selected| - 1].BuildParams(path))))
  {
  }

  class Router {
    const id: string
    const eventType: string
    const dispatcher: Dispatcher
    /** The counter shared with every other user of `uniqueId`. */
    const ids: UniqueId.IdCounter

    var routes: seq<Route>
    var middleware: seq<Middleware>
    var unloads: seq<Route>
    var needsUnload: bool
    var started: bool

    /** Every handler invocation so far, oldest first. */
    ghost var trace: seq<Call>

    /**
     * Every route came from the Route constructor with a counter value
     * already drawn, and every unload route was built from `*`.
     */
    ghost predicate Valid()
      reads this, ids
    {
      && (forall r :: r in routes ==> r.WellFormed() && r.serial <= ids.count)
      && (forall u :: u in unloads ==> u.IsCatchAll() && u.serial <= ids.count)
    }

    constructor Init(id: string, eventType: string, dispatcher: Dispatcher, ids: UniqueId.IdCounter)
      ensures this.id == id && this.eventType == eventType
      ensures this.dispatcher == dispatcher && this.ids == ids
      ensures routes == [] && middleware == [] && unloads == []
      ensures !needsUnload && !started && trace == []
      ensures Valid()
    {
      this.id := id;
      this.eventType := eventType;
      this.dispatcher := dispatcher;
      this.ids := ids;
      routes, middleware, unloads := [], [], [];
      needsUnload, started := false, false;
      trace := [];
    }

    /**
     * `new Router(options)`: draws the router's id, then fails with a message
     * naming that id when no dispatcher is given. Otherwise the router starts
     * empty, stopped and idle, listening for `options.eventType` or the default.
     */
    static method Create(ids: UniqueId.IdCounter, options: Options) returns (res: Result<Router, string>)
      modifies ids
      ensures ids.count == old(ids.count) + 1
      ensures res.Failure? <==> options.dispatcher.None?
      ensures res.Failure? ==>
        res.error == NoDispatcherMessage + UniqueId.Format(RouterIdPrefix, ids.count)
      ensures res.Success? ==>
        && fresh(res.value)
        && res.value.id == UniqueId.Format(RouterIdPrefix, ids.count)
        && res.value.eventType == EventTypeOf(options)
        && res.value.dispatcher == options.dispatcher.value
        && res.value.ids == ids
        && res.value.routes == [] && res.value.middleware == [] && res.value.unloads == []
        && !res.value.needsUnload && !res.value.started && res.value.trace == []
        && res.value.Valid()
    {
      var id := ids.UniqueId(RouterIdPrefix);
      var eventType := EventTypeOf(options);
      if options.dispatcher.None? {
        res := Failure(NoDispatcherMessage + id);
      } else {
        var r := new Router.Init(id, eventType, options.dispatcher.value, ids);
        res := Success(r);
      }
    }

    /** `use(path, fn)`: appends one route, with a fresh id, and changes nothing else. */
    method Use(path: string, fn: Handler)
      requires Valid()
      modifies this`routes, ids
      ensures Valid()
      ensures ids.count == old(ids.count) + 1
      ensures routes == old(routes) + [NewRoute(ids.count, path, fn)]
      ensures forall r :: r in old(routes) + unloads ==> r.Id() != routes[|routes| - 1].Id()
    {
      var r := BehaveRoute.Create(ids, path, fn);
      routes := routes + [r];
    }

    /** `middleware(fn)`: appends one middleware and changes nothing else. */
    method Middleware(fn: Middleware)
      modifies this`middleware
      ensures middleware == old(middleware) + [fn]
    {
      middleware := middleware + [fn];
    }

    /** `exit(fn)`: appends one catch-all unload route, with a fresh id, and changes nothing else. */
    method Exit(fn: Handler)
      requires Valid()
      modifies this`unloads, ids
      ensures Valid()
      ensures ids.count == old(ids.count) + 1
      ensures unloads == old(unloads) + [NewRoute(ids.count, Wildcard, fn)]
      ensures forall r :: r in routes + old(unloads) ==> r.Id() != unloads[|unloads| - 1].Id()
    {
      var u := BehaveRoute.Create(ids, Wildcard, fn);
      unloads := unloads + [u];
    }

    method Start()
      modifies this`started
      ensures started
    {
      started := true;
    }

    method Stop()
      modifies this`started
      ensures !started
    {
      started := false;
    }

    /** `purge()`: empties the three lists and resets the toggle; `started` is left alone. */
    method Purge()
      modifies this`routes, this`middleware, this`unloads, this`needsUnload
      ensures routes == [] && middleware == [] && unloads == [] && !needsUnload
      ensures Valid()
    {
      routes, middleware, unloads := [], [], [];
      needsUnload := false;
    }

    /** The state an accepted event leaves behind, given the toggle and trace it found. */
    ghost predicate Handled(evt: Event, wasNeedsUnload: bool, before: seq<Call>)
      reads this, ids
      requires Valid()
    {
      var p := SelectRoutes(wasNeedsUnload, routes, unloads, evt.route);
      var base := BaseContext(id, evt.route, DataOrEmpty(evt.data));
      && needsUnload == p.needsUnload
      && trace == before + PassCalls(p.selected, evt.route, ApplyMiddleware(middleware, base))
    }

    /** The subscriber callback: events are dropped while the router is stopped. */
    method Deliver(evt: Event)
      requires Valid()
      modifies this`needsUnload, this`trace
      ensures Valid()
      ensures !started || evt.kind != eventType ==> needsUnload == old(needsUnload) && trace == old(trace)
      ensures started && evt.kind == eventType ==> Handled(evt, old(needsUnload), old(trace))
    {
      if started {
        OnPathChange(evt);
      }
    }

    /** `_onPathChange(evt)`: ignores other event types, else runs the three stages in order. */
    method OnPathChange(evt: Event)
      requires Valid()
      modifies this`needsUnload, this`trace
      ensures Valid()
      ensures evt.kind != eventType ==> needsUnload == old(needsUnload) && trace == old(trace)
      ensures evt.kind == eventType ==> Handled(evt, old(needsUnload), old(trace))
    {
      if evt.kind != eventType {
        return;
      }
      var selection := PullRoutes(evt);
      var context := BuildContext(selection);
      var _ := RunRoutes(selection.routes, selection.route, context);
    }

    /** `_pullRoutes(evt, cb)`: selects the routes to run and updates the toggle. */
    method PullRoutes(evt: Event) returns (selection: Selection)
      requires Valid()
      modifies this`needsUnload
      ensures selection.routes == SelectRoutes(old(needsUnload), routes, unloads, evt.route).selected
      ensures needsUnload == SelectRoutes(old(needsUnload), routes, unloads, evt.route).needsUnload
      ensures selection.route == evt.route && selection.data == DataOrEmpty(evt.data)
      ensures forall r :: r in selection.routes ==> r.Accepts(evt.route)
    {
      var selected := Matching(routes, evt.route);
      var action := if |selected| > 0 then "enter" else "exit";
      if needsUnload && action == "exit" {
        selected := unloads;
        needsUnload := false;
      } else {
        needsUnload := true;
      }
      selection := Selection(selected, evt.route, DataOrEmpty(evt.data));
    }

    /**
     * `_buildContext(cb, results)`: runs the middleware one after the other,
     * the first on the base context and each later one on the previous result.
     */
    method BuildContext(selection: Selection) returns (context: Context)
      ensures context == ApplyMiddleware(middleware, BaseContext(id, selection.route, selection.data))
    {
      var base := BaseContext(id, selection.route, selection.data);
      var result := base;
      var i := 0;
      while i < |middleware|
        invariant 0 <= i <= |middleware|
        invariant result == ApplyMiddleware(middleware[..i], base)
      {
        ApplyMiddlewareStep(middleware, base, i);
        result := if i == 0 then middleware[i](base) else middleware[i](result);
        i := i + 1;
      }
      assert middleware[..|middleware|] == middleware;
      context := if |middleware| > 0 then result else base;
    }

    /**
     * `_runRoutes(cb, results)`: first computes every selected route's params,
     * each overwriting `params` on the one shared context, then calls the
     * handlers in order. Reports completion only when something was selected.
     */
    method RunRoutes(selected: seq<Route>, path: string, context: Context) returns (completed: bool)
      requires forall r :: r in selected ==> r.Accepts(path)
      modifies this`trace
      ensures completed <==> selected != []
      ensures trace == old(trace) + PassCalls(selected, path, context)
    {
      var shared := context;
      var i := 0;
      while i < |selected|
        invariant 0 <= i <= |selected|
        invariant shared == if i == 0 then context else context.(params := Some(selected[i - 1].BuildParams(path)))
      {
        var params := selected[i].BuildParams(path);
        shared := shared.(params := Some(params));
        i := i + 1;
      }
      if |selected| == 0 {
        return false;
      }
      var k := 0;
      while k < |selected|
        invariant 0 <= k <= |selected|
        invariant trace == old(trace) + PassCalls(selected, path, context)[..k]
      {
        trace := trace + [Call(selected[k].Id(), selected[k].fn, shared)];
        k := k + 1;
      }
      completed := true;
    }
  }
}
