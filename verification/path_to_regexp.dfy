/**
 * A small model of the `path-to-regexp` compiler used by a route: a pattern is
 * either the catch-all group `(.*)` or a sequence of `/`-separated segments,
 * each a literal or a named parameter `:name`. A literal segment matches
 * itself, a parameter matches one non-empty segment and captures it, and the
 * catch-all matches any url and captures all of it under the unnamed key `0`.
 */
module PathToRegexp {
  import opened Wrappers

  const CatchAllSource := "(.*)"

  datatype Segment = Literal(text: string) | Param(name: string)

  datatype Pattern = CatchAll | Segments(segments: seq<Segment>)

  /** `s.split('/')` */
  function Split(s: string): (parts: seq<string>)
    ensures 1 <= |parts|
    ensures forall i :: 0 <= i < |parts| ==> '/' !in parts[i]
    decreases |s|
  {
    if s == [] then [[]]
    else
      var rest := Split(s[1..]);
      if s[0] == '/' then [[]] + rest else [[s[0]] + rest[0]] + rest[1..]
  }

  /** A string without `/` is a single segment. */
  lemma {:induction false} SplitSingle(s: string)
    requires '/' !in s
    ensures Split(s) == [s]
    decreases |s|
  {
    if s != [] {
      SplitSingle(s[1..]);
      assert s[0] != '/';
      assert [s[0]] + s[1..] == s;
    }
  }

  /** The text before the first `/` is the first segment. */
  lemma {:induction false} SplitFirst(s: string, t: string)
    requires '/' !in s
    ensures Split(s + "/" + t) == [s] + Split(t)
    decreases |s|
  {
    if s == [] {
      assert s + "/" + t == "/" + t;
      assert ("/" + t)[1..] == t;
    } else {
      var u := s + "/" + t;
      assert u[0] == s[0] != '/';
      assert u[1..] == s[1..] + "/" + t;
      SplitFirst(s[1..], t);
      assert [s[0]] + s[1..] == s;
    }
  }

  /** A character of `\w`: a letter, a digit or `_`. */
  predicate IsWordChar(c: char)
  {
    'a' <= c <= 'z' || 'A' <= c <= 'Z' || '0' <= c <= '9' || c == '_'
  }

  /** A parameter name `\w+`. */
  predicate IsName(name: string)
  {
    name != [] && forall i :: 0 <= i < |name| ==> IsWordChar(name[i])
  }

  /** A whole segment `:name` is a parameter; any other segment is literal text. */
  function ParseSegment(token: string): (segment: Segment)
    ensures segment.Param? <==> 2 <= |token| && token[0] == ':' && IsName(token[1..])
    ensures segment.Param? ==> token == ":" + segment.name
    ensures segment.Literal? ==> segment.text == token
  {
    if 2 <= |token| && token[0] == ':' && IsName(token[1..]) then Param(token[1..]) else Literal(token)
  }

  /** `ptr(source, keys)`: compiles a path pattern. */
  function Compile(source: string): (p: Pattern)
    ensures p.CatchAll? <==> source == CatchAllSource
  {
    if source == CatchAllSource then CatchAll
    else
      var tokens := Split(source);
      Segments(seq(|tokens|, i requires 0 <= i < |tokens| => ParseSegment(tokens[i])))
  }

  function ParamNames(segments: seq<Segment>): (names: seq<string>)
    ensures |names| <= |segments|
  {
    if segments == [] then []
    else (if segments[0].Param? then [segments[0].name] else []) + ParamNames(segments[1..])
  }

  /** The names `ptr` pushes onto `keys`, in pattern order. */
  function Keys(p: Pattern): seq<string>
  {
    match p
    case CatchAll => ["0"]
    case Segments(segments) => ParamNames(segments)
  }

  function MatchSegments(segments: seq<Segment>, parts: seq<string>): (captures: Option<seq<string>>)
    ensures captures.Some? ==> |parts| == |segments|
    ensures captures.Some? ==> |captures.value| == |ParamNames(segments)|
  {
    if segments == [] then (if parts == [] then Some([]) else None)
    else if parts == [] then None
    else match segments[0]
      case Literal(text) =>
        if parts[0] == text then MatchSegments(segments[1..], parts[1..]) else None
      case Param(_) =>
        if parts[0] == [] then None
        else match MatchSegments(segments[1..], parts[1..])
          case None => None
          case Some(rest) => Some([parts[0]] + rest)
  }

  /** `regexp.exec(url).slice(1)`: the captured groups, or `None` when `url` does not match. */
  function Exec(p: Pattern, url: string): (captures: Option<seq<string>>)
    ensures captures.Some? ==> |captures.value| == |Keys(p)|
  {
    match p
    case CatchAll => Some([url])
    case Segments(segments) => MatchSegments(segments, Split(url))
  }
}
