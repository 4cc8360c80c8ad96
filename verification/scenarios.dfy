/** The repository's tests plus further examples, replayed against the model. */
module RouterScenarios {
  import opened Wrappers
  import opened BehaveRoute
  import opened BehaveRouter
  import UniqueId
  import UriDecode
  import PathToRegexp

  /** A pattern `dir/:name` compiles to a literal segment and a parameter. */
  lemma CompileLiteralThenParam(dir: string, name: string)
    requires '/' !in dir && PathToRegexp.IsName(name)
    requires dir == [] || dir[0] != ':'
    ensures PathToRegexp.Compile(dir + "/:" + name)
      == PathToRegexp.Segments([PathToRegexp.Literal(dir), PathToRegexp.Param(name)])
  {
    assert '/' !in name by {
      assert forall i :: 0 <= i < |name| ==> name[i] != '/';
    }
    var token := ":" + name;
    var source := dir + "/:" + name;
    assert source == dir + "/" + token;
    assert source != PathToRegexp.CatchAllSource by {
      assert source[|dir|] == '/';
      assert forall j :: 0 <= j < |dir| ==> source[j] == dir[j];
    }
    PathToRegexp.SplitFirst(dir, token);
    PathToRegexp.SplitSingle(token);
    assert token[1..] == name;
    assert PathToRegexp.ParseSegment(token) == PathToRegexp.Param(name);
    assert PathToRegexp.ParseSegment(dir) == PathToRegexp.Literal(dir);
  }

  /** The segments `dir` and `:name` match `dir/value` for any non-empty segment `value`, capturing it. */
  lemma MatchLiteralThenParam(dir: string, name: string, value: string)
    requires '/' !in dir && '/' !in value && value != []
    ensures var segs := [PathToRegexp.Literal(dir), PathToRegexp.Param(name)];
      && PathToRegexp.ParamNames(segs) == [name]
      && PathToRegexp.MatchSegments(segs, PathToRegexp.Split(dir + "/" + value)) == Some([value])
  {
    PathToRegexp.SplitFirst(dir, value);
    PathToRegexp.SplitSingle(value);
    var segs := [PathToRegexp.Literal(dir), PathToRegexp.Param(name)];
    var rest := [PathToRegexp.Param(name)];
    assert segs[1..] == rest;
    assert rest[1..] == [];
    assert PathToRegexp.ParamNames(rest) == [name] + PathToRegexp.ParamNames([]);
    assert PathToRegexp.ParamNames(segs) == [] + PathToRegexp.ParamNames(rest);
    var parts := [dir, value];
    assert parts[1..] == [value] && [value][1..] == [];
    assert PathToRegexp.MatchSegments(rest, [value]) == Some([value]);
    assert PathToRegexp.MatchSegments(segs, parts) == PathToRegexp.MatchSegments(rest, [value]);
  }

  /** A pattern `dir/:name` accepts `dir/value` for any non-empty segment `value`, capturing it. */
  lemma LiteralThenParam(dir: string, name: string, value: string)
    requires '/' !in dir && PathToRegexp.IsName(name) && '/' !in value && value != []
    requires dir == [] || dir[0] != ':'
    ensures var p := PathToRegexp.Compile(dir + "/:" + name);
      && p == PathToRegexp.Segments([PathToRegexp.Literal(dir), PathToRegexp.Param(name)])
      && PathToRegexp.Keys(p) == [name]
      && PathToRegexp.Exec(p, dir + "/" + value) == Some([value])
  {
    CompileLiteralThenParam(dir, name);
    MatchLiteralThenParam(dir, name, value);
  }

  /** `path` is a parameter name. */
  lemma PathIsName()
    ensures PathToRegexp.IsName("path")
  {
    var p := "path";
    assert p[0] == 'p' && p[1] == 'a' && p[2] == 't' && p[3] == 'h';
  }

  /** Pattern `some/:path` on `some/url` captures `url` under `path`. */
  lemma SomePathParams(serial: nat, fn: Handler)
    requires 1 <= serial
    ensures NewRoute(serial, "some/:path", fn).Accepts("some/url")
    ensures NewRoute(serial, "some/:path", fn).BuildParams("some/url") == map["path" := "url"]
  {
    PathIsName();
    LiteralThenParam("some", "path", "url");
    assert "some" + "/:" + "path" == "some/:path";
    assert "some" + "/" + "url" == "some/url";
    assert UriDecode.Decode("url") == "url";
  }

  /** An escaped capture is decoded: `%20name` becomes ` name`. */
  lemma DecodeSpace()
    ensures UriDecode.Decode("%20name") == " name"
  {
    assert "%20name" == UriDecode.Escape(32) + "name";
    UriDecode.DecodeEscape(32, "name");
  }

  /** A pattern `dir/:name` rejects a two-segment url whose first segment is not `dir`. */
  lemma LiteralMismatchRejects(dir: string, other: string, name: string, value: string)
    requires '/' !in dir && '/' !in other && '/' !in value && dir != other
    requires PathToRegexp.IsName(name)
    requires dir == [] || dir[0] != ':'
    ensures PathToRegexp.Exec(PathToRegexp.Compile(dir + "/:" + name), other + "/" + value).None?
  {
    CompileLiteralThenParam(dir, name);
    PathToRegexp.SplitFirst(other, value);
    PathToRegexp.SplitSingle(value);
  }

  /** A pattern of one literal segment accepts exactly its own text as a url, capturing nothing. */
  lemma LiteralSegmentAcceptsItself(p: string)
    requires '/' !in p && p != PathToRegexp.CatchAllSource
    requires p == [] || p[0] != ':'
    ensures PathToRegexp.Exec(PathToRegexp.Compile(p), p) == Some([])
  {
    PathToRegexp.SplitSingle(p);
    assert PathToRegexp.ParseSegment(p) == PathToRegexp.Literal(p);
    var segs := [PathToRegexp.Literal(p)];
    assert PathToRegexp.Compile(p) == PathToRegexp.Segments(segs);
    assert segs[1..] == [] && [p][1..] == [];
    assert PathToRegexp.MatchSegments(segs, [p]) == PathToRegexp.MatchSegments([], []);
  }

  /** A pattern `dir/:name` rejects every url of one segment. */
  lemma LiteralThenParamRejects(dir: string, name: string, url: string)
    requires '/' !in dir && PathToRegexp.IsName(name) && '/' !in url
    requires dir == [] || dir[0] != ':'
    ensures PathToRegexp.Exec(PathToRegexp.Compile(dir + "/:" + name), url).None?
  {
    CompileLiteralThenParam(dir, name);
    PathToRegexp.SplitSingle(url);
    var segs := [PathToRegexp.Literal(dir), PathToRegexp.Param(name)];
    assert segs[1..] == [PathToRegexp.Param(name)];
    assert [url][1..] == [];
    assert PathToRegexp.MatchSegments([PathToRegexp.Param(name)], []).None?;
  }

  /** Pattern `some/:path` rejects every url of one segment. */
  lemma SomePathRejects(serial: nat, fn: Handler, url: string)
    requires '/' !in url
    ensures !NewRoute(serial, "some/:path", fn).Accepts(url)
  {
    PathIsName();
    LiteralThenParamRejects("some", "path", url);
    assert "some" + "/:" + "path" == "some/:path";
  }

  /** Without a dispatcher, construction fails with a message naming the router's id. */
  method NoDispatcherScenario()
  {
    var ids := new UniqueId.IdCounter();
    var res := Router.Create(ids, Options(None, None));
    assert res == Failure(NoDispatcherMessage + UniqueId.Format(RouterIdPrefix, 1));
  }

  /** With the toggle clear, any accepted event sets it, whether or not a route matches. */
  method DeliverSetsToggle(r: Router, path: string)
    requires r.Valid() && r.started && !r.needsUnload
    modifies r`needsUnload, r`trace
    ensures r.Valid() && r.needsUnload
  {
    r.Deliver(Event(r.eventType, path, None));
  }

  /** Registration appends, and `purge` empties everything, twice as once. */
  method PurgeScenario(path: string)
  {
    var ids := new UniqueId.IdCounter();
    var res := Router.Create(ids, Options(Some(Dispatcher("bus")), None));
    var r := res.value;
    r.Use(path, Handler(1));
    r.Middleware(c => c);
    r.Exit(Handler(2));
    r.Start();
    DeliverSetsToggle(r, path);
    assert |r.routes| == 1 && |r.middleware| == 1 && |r.unloads| == 1 && r.needsUnload;
    r.Purge();
    assert r.routes == [] && r.middleware == [] && r.unloads == [] && !r.needsUnload && r.started;
    r.Purge();
    assert r.routes == [] && r.middleware == [] && r.unloads == [] && !r.needsUnload && r.started;
  }

  /** An event of another type, or one that arrives while stopped, changes nothing. */
  method IgnoredEventScenario(path: string, url: string)
  {
    var ids := new UniqueId.IdCounter();
    var res := Router.Create(ids, Options(Some(Dispatcher("bus")), None));
    var r := res.value;
    r.Use(path, Handler(1));
    r.Deliver(Event(DefaultEventType, url, None));
    assert r.trace == [] && !r.needsUnload;
    r.Start();
    r.Deliver(Event("INCORRECT_TYPE", url, None));
    assert r.trace == [] && !r.needsUnload;
  }

  /**
   * One enter/exit round on a single route and a single exit route: entering
   * a url the route accepts selects it and sets the toggle, and its handler
   * sees that route's params; leaving to a url it rejects selects the exit
   * route, clears the toggle, and the exit handler sees the whole url under `0`.
   */
  lemma EnterThenLeave(route: Route, exit: Route, router: string, url: string, elsewhere: string)
    requires route.Accepts(url) && !route.Accepts(elsewhere)
    requires exit.IsCatchAll()
    ensures SelectRoutes(false, [route], [exit], url) == Pulled([route], true)
    ensures PassCalls([route], url, BaseContext(router, url, map[]))
      == [Call(route.Id(), route.fn, BaseContext(router, url, map[]).(params := Some(route.BuildParams(url))))]
    ensures SelectRoutes(true, [route], [exit], elsewhere) == Pulled([exit], false)
    ensures PassCalls([exit], elsewhere, BaseContext(router, elsewhere, map[]))
      == [Call(exit.Id(), exit.fn, BaseContext(router, elsewhere, map[]).(params := Some(map["0" := UriDecode.Decode(elsewhere)])))]
  {
    assert Matching([route], url) == [route];
    assert Matching([route], elsewhere) == [];
    CatchAllAccepts(exit, elsewhere);
  }

  /** Every route built from `pattern` accepts `url` with `params` and rejects `elsewhere`. */
  ghost predicate PatternBehaves(pattern: string, url: string, elsewhere: string, params: map<string, string>)
  {
    forall serial: nat, fn: Handler {:trigger NewRoute(serial, pattern, fn)} :: 1 <= serial ==>
      && NewRoute(serial, pattern, fn).Accepts(url)
      && NewRoute(serial, pattern, fn).BuildParams(url) == params
      && !NewRoute(serial, pattern, fn).Accepts(elsewhere)
  }

  lemma SomePathBehaves(elsewhere: string)
    requires '/' !in elsewhere
    ensures PatternBehaves("some/:path", "some/url", elsewhere, map["path" := "url"])
  {
    forall serial: nat, fn: Handler | 1 <= serial
      ensures NewRoute(serial, "some/:path", fn).Accepts("some/url")
      ensures NewRoute(serial, "some/:path", fn).BuildParams("some/url") == map["path" := "url"]
      ensures !NewRoute(serial, "some/:path", fn).Accepts(elsewhere)
    {
      SomePathParams(serial, fn);
      SomePathRejects(serial, fn, elsewhere);
    }
  }

  /**
   * A started router holding one route and one exit route, with no middleware
   * and the toggle clear: entering `url` runs the matched handler with its
   * params and sets the toggle; leaving to a url no route accepts runs the
   * exit handler instead and clears the toggle.
   */
  method EnterThenLeaveRouter(r: Router, route: Route, exit: Route, url: string, elsewhere: string)
    requires r.Valid() && r.started && !r.needsUnload && r.trace == []
    requires r.routes == [route] && r.unloads == [exit] && r.middleware == []
    requires route.Accepts(url) && !route.Accepts(elsewhere)
    modifies r`needsUnload, r`trace
    ensures !r.needsUnload
    ensures r.trace == [
      Call(route.Id(), route.fn, BaseContext(r.id, url, map[]).(params := Some(route.BuildParams(url)))),
      Call(exit.Id(), exit.fn, BaseContext(r.id, elsewhere, map[]).(params := Some(map["0" := UriDecode.Decode(elsewhere)])))]
  {
    EnterThenLeave(route, exit, r.id, url, elsewhere);
    ghost var entered := Call(route.Id(), route.fn, BaseContext(r.id, url, map[]).(params := Some(route.BuildParams(url))));
    r.Deliver(Event(r.eventType, url, Some(map[])));
    assert r.Handled(Event(r.eventType, url, Some(map[])), false, []);
    assert ApplyMiddleware(r.middleware, BaseContext(r.id, url, map[])) == BaseContext(r.id, url, map[]);
    assert r.needsUnload && r.trace == [entered];
    r.Deliver(Event(r.eventType, elsewhere, None));
    assert r.Handled(Event(r.eventType, elsewhere, None), true, [entered]);
    assert ApplyMiddleware(r.middleware, BaseContext(r.id, elsewhere, map[])) == BaseContext(r.id, elsewhere, map[]);
  }

  /** `use(pattern, h1)`, `exit(h2)` and `start()` on a new router. */
  method NewExitRouter(pattern: string) returns (r: Router)
    ensures fresh(r) && r.Valid() && r.started && !r.needsUnload && r.trace == [] && r.middleware == []
    ensures |r.routes| == 1 && r.routes[0] == NewRoute(r.routes[0].serial, pattern, Handler(1)) && 1 <= r.routes[0].serial
    ensures |r.unloads| == 1 && r.unloads[0].fn == Handler(2)
  {
    var ids := new UniqueId.IdCounter();
    var res := Router.Create(ids, Options(Some(Dispatcher("bus")), None));
    r := res.value;
    r.Use(pattern, Handler(1));
    r.Exit(Handler(2));
    r.Start();
  }

  /**
   * `use(pattern, h1)` and `exit(h2)` on a new router, then entering `url` and
   * leaving to `elsewhere`: `h1` sees `params`, `h2` sees the whole decoded
   * url under key "0". `SomePathBehaves` shows that `some/:path`,
   * `some/url`, `{path: 'url'}` and any one-segment url meet the requirement.
   */
  method EnterExitScenario(pattern: string, url: string, elsewhere: string, params: map<string, string>)
    requires PatternBehaves(pattern, url, elsewhere, params)
  {
    var r := NewExitRouter(pattern);
    var route, exit := r.routes[0], r.unloads[0];
    assert route.Accepts(url) && route.BuildParams(url) == params && !route.Accepts(elsewhere);
    EnterThenLeaveRouter(r, route, exit, url, elsewhere);
    assert !r.needsUnload && |r.trace| == 2;
    assert r.trace[0].handler == Handler(1) && r.trace[0].context.params == Some(params);
    assert r.trace[1].handler == Handler(2) && r.trace[1].context.canonicalPath == elsewhere;
  }

  /**
   * A started router holding one route and the middleware `m1` then `m2`:
   * an event the route accepts sets the toggle, and the handler is given
   * `m2(m1(base))` with the route's params set on it.
   */
  method TwoMiddlewareRouter(r: Router, route: Route, m1: Middleware, m2: Middleware, url: string)
    requires r.Valid() && r.started && r.trace == []
    requires r.routes == [route] && r.middleware == [m1, m2]
    requires route.Accepts(url)
    modifies r`needsUnload, r`trace
    ensures r.needsUnload
    ensures r.trace == [Call(route.Id(), route.fn, m2(m1(BaseContext(r.id, url, map[]))).(params := Some(route.BuildParams(url))))]
  {
    assert Matching([route], url) == [route];
    TwoMiddleware(m1, m2, BaseContext(r.id, url, map[]));
    r.Deliver(Event(r.eventType, url, None));
  }

  /** `use(pattern, h)`, `middleware(m1)`, `middleware(m2)` and `start()` on a new router. */
  method NewMiddlewareRouter(pattern: string, m1: Middleware, m2: Middleware) returns (r: Router)
    ensures fresh(r) && r.Valid() && r.started && r.trace == []
    ensures |r.routes| == 1 && r.routes[0] == NewRoute(r.routes[0].serial, pattern, Handler(1)) && 1 <= r.routes[0].serial
    ensures r.middleware == [m1, m2]
  {
    var ids := new UniqueId.IdCounter();
    var res := Router.Create(ids, Options(Some(Dispatcher("bus")), None));
    r := res.value;
    r.Use(pattern, Handler(1));
    r.Middleware(m1);
    r.Middleware(m2);
    r.Start();
  }

  /** The new router of `NewMiddlewareRouter` given one event at a url the pattern accepts. */
  method MiddlewareScenario(pattern: string, url: string, elsewhere: string, params: map<string, string>, m1: Middleware, m2: Middleware)
    requires PatternBehaves(pattern, url, elsewhere, params)
  {
    var r := NewMiddlewareRouter(pattern, m1, m2);
    var route := r.routes[0];
    assert route.Accepts(url) && route.BuildParams(url) == params;
    TwoMiddlewareRouter(r, route, m1, m2, url);
    assert r.trace == [Call(route.Id(), Handler(1), m2(m1(BaseContext(r.id, url, map[]))).(params := Some(params)))];
  }

  /**
   * Two routes accept `dir/value`: `dir/:x` yields `{x: value}` and
   * `dir/:y` yields `{y: value}`, yet the first handler is given
   * `{y: value}`, the params of the last selected route.
   */
  lemma FirstHandlerSeesLastParams(dir: string, x: string, y: string, value: string, context: Context)
    requires '/' !in dir && PathToRegexp.IsName(x) && PathToRegexp.IsName(y) && '/' !in value && '%' !in value && value != []
    requires dir == [] || dir[0] != ':'
    requires x != y
    ensures var a, b := NewRoute(1, dir + "/:" + x, Handler(1)), NewRoute(2, dir + "/:" + y, Handler(2));
      && a.Accepts(dir + "/" + value) && b.Accepts(dir + "/" + value)
      && a.BuildParams(dir + "/" + value) == map[x := value]
      && PassCalls([a, b], dir + "/" + value, context)[0].context.params == Some(map[y := value])
  {
    LiteralThenParam(dir, x, value);
    LiteralThenParam(dir, y, value);
  }
}
