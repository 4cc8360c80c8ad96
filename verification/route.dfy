/**
 * A route pairs a path pattern with a handler. Its fields are set once when it
 * is built and never change afterwards, so a route is a value.
 */
module BehaveRoute {
  import opened Wrappers
  import UniqueId
  import UriDecode
  import PathToRegexp

  const RouteIdPrefix := "route_"

  /** The wildcard pattern that `exit` registers; it is rewritten to the catch-all group. */
  const Wildcard := "*"

  /** A handler callback, known by its identity only; what it does is not modelled. */
  datatype Handler = Handler(tag: nat)

  datatype Route = Route(serial: nat, path: string, fn: Handler, regexp: PathToRegexp.Pattern)
  {
    /** The id drawn from the shared counter when the route was built. */
    function Id(): string
    {
      UniqueId.Format(RouteIdPrefix, serial)
    }

    function Keys(): seq<string>
    {
      PathToRegexp.Keys(regexp)
    }

    /** `regexp.test(url)` */
    predicate Accepts(url: string)
    {
      PathToRegexp.Exec(regexp, url).Some?
    }

    /** The route was built by the constructor: its matcher is compiled from its path. */
    predicate WellFormed()
    {
      1 <= serial && regexp == PathToRegexp.Compile(path)
    }

    /** A route built from `*`. */
    predicate IsCatchAll()
    {
      WellFormed() && path == PathToRegexp.CatchAllSource
    }

    /**
     * `buildParams(url)`: one entry per key name, each the decoded capture at
     * that key's position. The source calls `.slice(1)` on the result of
     * `exec` before checking it, so it throws on a url the pattern rejects and
     * its `return false` is never reached: the url must be accepted.
     */
    function BuildParams(url: string): (params: map<string, string>)
      requires Accepts(url)
      ensures params.Keys == set k | k in Keys()
    {
      ZipParams(Keys(), PathToRegexp.Exec(regexp, url).value)
    }
  }

  /** `each(keys, (k, i) => result[k.name] = decode(captures[i]))`, in key order. */
  function ZipParams(keys: seq<string>, captures: seq<string>): (params: map<string, string>)
    requires |keys| <= |captures|
    ensures params.Keys == set k | k in keys
  {
    if keys == [] then map[]
    else
      var n := |keys| - 1;
      var earlier := ZipParams(keys[..n], captures);
      assert (set k | k in keys) == (set k | k in keys[..n]) + {keys[n]};
      earlier[keys[n] := UriDecode.Decode(captures[n])]
  }

  /** A key maps to the decoded capture at its last occurrence: later keys win. */
  lemma {:induction false} ZipParamsLastWins(keys: seq<string>, captures: seq<string>, i: nat)
    requires |keys| <= |captures| && i < |keys|
    requires forall j :: i < j < |keys| ==> keys[j] != keys[i]
    ensures ZipParams(keys, captures)[keys[i]] == UriDecode.Decode(captures[i])
    decreases |keys|
  {
    var n := |keys| - 1;
    if i < n {
      var prefix := keys[..n];
      assert prefix[i] == keys[i];
      assert forall j :: i < j < |prefix| ==> prefix[j] == keys[j];
      ZipParamsLastWins(prefix, captures, i);
    }
  }

  /** For an accepted url, each key without a later namesake maps to its own decoded capture. */
  lemma BuildParamsAt(r: Route, url: string, i: nat)
    requires r.Accepts(url) && i < |r.Keys()|
    requires forall j :: i < j < |r.Keys()| ==> r.Keys()[j] != r.Keys()[i]
    ensures r.BuildParams(url)[r.Keys()[i]] == UriDecode.Decode(PathToRegexp.Exec(r.regexp, url).value[i])
  {
    ZipParamsLastWins(r.Keys(), PathToRegexp.Exec(r.regexp, url).value, i);
  }

  /** The constructor's fields, given the counter value it drew. */
  function NewRoute(serial: nat, path: string, fn: Handler): (r: Route)
    ensures r.serial == serial && r.fn == fn
    ensures r.path == (if path == Wildcard then PathToRegexp.CatchAllSource else path)
    ensures 1 <= serial ==> r.WellFormed()
    ensures path == Wildcard ==> forall url :: PathToRegexp.Exec(r.regexp, url) == Some([url])
  {
    var source := if path == Wildcard then PathToRegexp.CatchAllSource else path;
    Route(serial, source, fn, PathToRegexp.Compile(source))
  }

  /** A catch-all route accepts every url, capturing all of it. */
  lemma CatchAllAccepts(r: Route, url: string)
    requires r.IsCatchAll()
    ensures r.Accepts(url)
    ensures r.BuildParams(url) == map["0" := UriDecode.Decode(url)]
  {
  }

  /** `new Route(path, fn)`: draws a fresh id from the shared counter. */
  method Create(ids: UniqueId.IdCounter, path: string, fn: Handler) returns (r: Route)
    modifies ids
    ensures ids.count == old(ids.count) + 1
    ensures r == NewRoute(ids.count, path, fn)
    ensures forall k :: 1 <= k <= old(ids.count) ==> r.Id() != UniqueId.Format(RouteIdPrefix, k)
  {
    var serial := ids.Next();
    r := NewRoute(serial, path, fn);
    forall k | 1 <= k <= old(ids.count)
      ensures r.Id() != UniqueId.Format(RouteIdPrefix, k)
    {
      UniqueId.FormatDistinct(RouteIdPrefix, serial, k);
    }
  }
}
