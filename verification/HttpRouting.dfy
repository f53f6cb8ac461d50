/** The HTTP router of plank/pkg/routing/router.go: an ordered list of routes, an index of their names, and two
    muxes compiled from the list and cached behind a dirty flag.

    A mux is the map from pattern to handler that is registered with it; what net/http matches is not modelled. */
module HttpRouting {
  import opened Options

  /** A handler as it is wrapped: the first middleware is the outermost. */
  datatype Chain = Base(handler: nat) | Wrap(middleware: nat, inner: Chain)

  /** What a pattern is registered with; the path mux only has to know its patterns. */
  datatype Target = Serves(methods: seq<string>, chain: Chain) | Nothing

  type Mux = map<string, Target>

  /** `path` has the form serveMuxPathTemplate gives it. */
  datatype Route = Route(name: string, path: string, prefix: bool, methods: seq<string>, handler: Option<nat>)

  function NormalizePath(path: string): (r: string)
    ensures r != "" && r[0] == '/' && (r == path || r == "/" + path)
    ensures path != "" && path[0] == '/' ==> r == path
  {
    if path == "" then "/" else if path[0] != '/' then "/" + path else path
  }

  function EndsInSlash(path: string): bool {
    path != "" && path[|path| - 1] == '/'
  }

  function ExactMuxPattern(path: string): string {
    if path == "/" then "/{$}" else if EndsInSlash(path) then path + "{$}" else path
  }

  function PathPatterns(rt: Route): seq<string> {
    var path := NormalizePath(rt.path);
    if !rt.prefix then [ExactMuxPattern(path)]
    else if path == "/" then ["/"]
    else if EndsInSlash(path) then [path]
    else [path, path + "/"]
  }

  /** The patterns a route asks for in the path mux, and in the dispatch mux. */
  function PathSet(rt: Route): set<string> {
    if rt.handler.None? then {} else Elements(PathPatterns(rt))
  }

  function DispatchSet(rt: Route): set<string> {
    if rt.handler.None? then {}
    else if rt.methods == [] then PathSet(rt)
    else Products(PathPatterns(rt), rt.methods)
  }

  function Pattern(m: string, p: string): string {
    m + " " + p
  }

  /** A pattern tells which method and which path pattern it was made from. */
  lemma PatternIsPair(m: string, p: string, m': string, p': string)
    requires ' ' !in m && ' ' !in m' && Pattern(m, p) == Pattern(m', p')
    ensures m == m' && p == p'
  {
    assert Pattern(m, p)[|m|] == ' ' && Pattern(m', p')[|m'|] == ' ';
    assert m == Pattern(m, p)[..|m|] && m' == Pattern(m', p')[..|m'|];
    assert p == Pattern(m, p)[|m| + 1..] && p' == Pattern(m', p')[|m'| + 1..];
  }

  /** What net/http takes a pattern without variables to match: the path before "{$}", everything below a path that
      ends in a slash, and otherwise the path itself. */
  predicate Matches(pattern: string, path: string) {
    if |pattern| >= 3 && pattern[|pattern| - 3..] == "{$}" then path == pattern[..|pattern| - 3]
    else if EndsInSlash(pattern) then pattern <= path
    else path == pattern
  }

  predicate MatchedBy(rt: Route, path: string) {
    exists p :: p in PathPatterns(rt) && Matches(p, path)
  }

  lemma LiteralMatches(pattern: string, path: string)
    requires '{' !in pattern
    ensures Matches(pattern, path) <==> if EndsInSlash(pattern) then pattern <= path else path == pattern
  {
    assert |pattern| >= 3 ==> pattern[|pattern| - 3..][0] == pattern[|pattern| - 3];
  }

  lemma ExactMatches(own: string, path: string)
    requires own != "" && own[0] == '/' && '{' !in own
    ensures Matches(ExactMuxPattern(own), path) <==> path == own
  {
    if EndsInSlash(own) {
      var pattern := own + "{$}";
      assert pattern[|pattern| - 3..] == "{$}" && pattern[..|pattern| - 3] == own;
      assert own == "/" ==> pattern == "/{$}";
    } else {
      LiteralMatches(own, path);
    }
  }

  lemma PrefixMatches(own: string, path: string)
    requires own != "" && '{' !in own && !EndsInSlash(own)
    ensures Matches(own, path) || Matches(own + "/", path) <==> path == own || own + "/" <= path
  {
    LiteralMatches(own, path);
    LiteralMatches(own + "/", path);
  }

  /** An exact route without variables matches its path and no other, with or without a slash at the end as given; a
      prefix route matches its path and what is below it, but no path that merely begins with the same letters. */
  lemma RouteMatches(rt: Route, path: string)
    requires '{' !in rt.path
    ensures var own := NormalizePath(rt.path);
            MatchedBy(rt, path) <==>
            if !rt.prefix then path == own
            else if EndsInSlash(own) then own <= path
            else path == own || own + "/" <= path
  {
    var own := NormalizePath(rt.path);
    if !rt.prefix {
      ExactMatches(own, path);
      assert PathPatterns(rt) == [ExactMuxPattern(own)] && PathPatterns(rt)[0] in PathPatterns(rt);
    } else if EndsInSlash(own) {
      LiteralMatches(own, path);
      assert PathPatterns(rt) == [own] && PathPatterns(rt)[0] in PathPatterns(rt);
    } else {
      PrefixMatches(own, path);
      assert PathPatterns(rt) == [own, own + "/"];
      assert PathPatterns(rt)[0] in PathPatterns(rt) && PathPatterns(rt)[1] in PathPatterns(rt);
    }
  }

  function Products(paths: seq<string>, methods: seq<string>): set<string> {
    set p, m | p in paths && m in methods :: Pattern(m, p)
  }

  /** The middleware of a chain from the outside in, and the handler inside. */
  function Layers(c: Chain): seq<nat> {
    if c.Base? then [] else [c.middleware] + Layers(c.inner)
  }

  function Innermost(c: Chain): nat {
    if c.Base? then c.handler else Innermost(c.inner)
  }

  function Chained(middleware: seq<nat>, handler: nat): (c: Chain)
    ensures Layers(c) == middleware && Innermost(c) == handler
  {
    if middleware == [] then Base(handler) else Wrap(middleware[0], Chained(middleware[1..], handler))
  }

  function TargetOf(middleware: seq<nat>, rt: Route): Target {
    if rt.handler.None? then Nothing else Serves(rt.methods, Chained(middleware, rt.handler.value))
  }

  /** Registers the patterns that are not taken. */
  function Registered<K, V>(mux: map<K, V>, patterns: set<K>, target: V): map<K, V> {
    (map p | p in patterns :: target) + mux
  }

  function Elements<K>(xs: seq<K>): set<K> {
    set x | x in xs
  }

  lemma ElementsExtend<K>(xs: seq<K>, x: K)
    ensures Elements(xs + [x]) == Elements(xs) + {x}
  {
  }

  /** `mux` gives each pattern to the first route that asks for it, and has no other patterns. */
  ghost predicate FirstWins(mux: Mux, asked: seq<set<string>>, targets: seq<Target>) {
    && |asked| == |targets|
    && (forall i, p | 0 <= i < |asked| && p in asked[i] :: p in mux)
    && (forall p | p in mux :: exists i :: Wins(asked, i, p) && mux[p] == targets[i])
  }

  ghost predicate Wins(asked: seq<set<string>>, i: int, p: string) {
    0 <= i < |asked| && p in asked[i] && forall j | 0 <= j < i :: p !in asked[j]
  }

  /** There is only one such mux. */
  lemma FirstWinsOnce(m: Mux, n: Mux, asked: seq<set<string>>, targets: seq<Target>)
    requires FirstWins(m, asked, targets) && FirstWins(n, asked, targets)
    ensures m == n
  {
  }

  lemma WinnerOf(mux: Mux, asked: seq<set<string>>, targets: seq<Target>, i: nat, p: string) returns (w: nat)
    requires FirstWins(mux, asked, targets) && i < |asked| && p in asked[i]
    ensures p in mux && w <= i && Wins(asked, w, p) && mux[p] == targets[w]
  {
    assert p in mux;
    var k :| Wins(asked, k, p) && mux[p] == targets[k];
    w := k;
  }

  lemma FirstWinsExtends(mux: Mux, asked: seq<set<string>>, targets: seq<Target>, more: set<string>, target: Target,
                         next: Mux)
    requires FirstWins(mux, asked, targets)
    requires next == Registered(mux, more, target)
    ensures FirstWins(next, asked + [more], targets + [target])
  {
    var asked', targets' := asked + [more], targets + [target];
    forall p | p in next ensures exists i :: Wins(asked', i, p) && next[p] == targets'[i] {
      if p in mux {
        var i :| Wins(asked, i, p) && mux[p] == targets[i];
        assert Wins(asked', i, p) && next[p] == targets'[i];
      } else {
        assert Wins(asked', |asked|, p) && next[p] == targets'[|asked|];
      }
    }
  }

  function DispatchAsked(routes: seq<Route>): seq<set<string>> {
    seq(|routes|, i requires 0 <= i < |routes| => DispatchSet(routes[i]))
  }

  function PathAsked(routes: seq<Route>): seq<set<string>> {
    seq(|routes|, i requires 0 <= i < |routes| => PathSet(routes[i]))
  }

  function Targets(routes: seq<Route>, middleware: seq<nat>): seq<Target> {
    seq(|routes|, i requires 0 <= i < |routes| => TargetOf(middleware, routes[i]))
  }

  /** The two muxes that belong to a route list. */
  ghost predicate CompiledFrom(routes: seq<Route>, middleware: seq<nat>, dispatch: Mux, path: Mux) {
    && FirstWins(dispatch, DispatchAsked(routes), Targets(routes, middleware))
    && FirstWins(path, PathAsked(routes), seq(|routes|, _ => Nothing))
  }

  /** One more route adds the patterns that no earlier route has asked for. */
  lemma CompiledExtends(routes: seq<Route>, rt: Route, middleware: seq<nat>, dispatch: Mux, path: Mux)
    requires CompiledFrom(routes, middleware, dispatch, path)
    ensures CompiledFrom(routes + [rt], middleware,
                         Registered(dispatch, DispatchSet(rt), TargetOf(middleware, rt)),
                         Registered(path, PathSet(rt), Nothing))
  {
    FirstWinsExtends(dispatch, DispatchAsked(routes), Targets(routes, middleware), DispatchSet(rt),
      TargetOf(middleware, rt),
                     Registered(dispatch, DispatchSet(rt), TargetOf(middleware, rt)));
    FirstWinsExtends(path, PathAsked(routes), seq(|routes|, _ => Nothing), PathSet(rt), Nothing,
                     Registered(path, PathSet(rt), Nothing));
    assert DispatchAsked(routes + [rt]) == DispatchAsked(routes) + [DispatchSet(rt)];
    assert PathAsked(routes + [rt]) == PathAsked(routes) + [PathSet(rt)];
    assert Targets(routes + [rt], middleware) == Targets(routes, middleware) + [TargetOf(middleware, rt)];
    assert seq(|routes| + 1, _ => Nothing) == seq(|routes|, _ => Nothing) + [Nothing];
  }

  /** Pattern `p` is asked for by a route with a handler: for one of its methods, or bare if it has none. */
  ghost predicate Asks(rt: Route, p: string) {
    && rt.handler.Some?
    && if rt.methods == [] then p in PathPatterns(rt)
       else exists m, q :: m in rt.methods && q in PathPatterns(rt) && p == m + " " + q
  }

  ghost predicate FirstToAsk(routes: seq<Route>, i: nat, p: string) {
    i < |routes| && Asks(routes[i], p) && forall j | 0 <= j < i :: !Asks(routes[j], p)
  }

  lemma AskedBy(rt: Route, p: string)
    ensures p in DispatchSet(rt) <==> Asks(rt, p)
  {
    if Asks(rt, p) && rt.methods != [] {
      var m, q :| m in rt.methods && q in PathPatterns(rt) && p == m + " " + q;
      assert p == Pattern(m, q);
    }
    if rt.handler.Some? && rt.methods != [] && p in Products(PathPatterns(rt), rt.methods) {
      var q, m :| q in PathPatterns(rt) && m in rt.methods && p == Pattern(m, q);
      assert p == m + " " + q;
    }
  }

  lemma WinsIsFirst(routes: seq<Route>, i: nat, p: string)
    ensures Wins(DispatchAsked(routes), i, p) <==> FirstToAsk(routes, i, p)
  {
    forall j | 0 <= j < |routes| ensures p in DispatchAsked(routes)[j] <==> Asks(routes[j], p) {
      AskedBy(routes[j], p);
    }
  }

  lemma FirstIsServed(routes: seq<Route>, middleware: seq<nat>, dispatch: Mux, path: Mux, p: string, i: nat)
    requires CompiledFrom(routes, middleware, dispatch, path) && FirstToAsk(routes, i, p)
    ensures p in dispatch && dispatch[p] == TargetOf(middleware, routes[i])
  {
    WinsIsFirst(routes, i, p);
    var w := WinnerOf(dispatch, DispatchAsked(routes), Targets(routes, middleware), i, p);
  }

  /** What is served.  A pattern is in the mux exactly if some route asks for it, and leads to the handler of the first
      that does, with that route's methods and inside all the middleware in its order. */
  lemma ServesFirst(routes: seq<Route>, middleware: seq<nat>, dispatch: Mux, path: Mux, p: string)
    requires CompiledFrom(routes, middleware, dispatch, path)
    ensures p in dispatch <==> exists i: nat :: FirstToAsk(routes, i, p)
    ensures forall i: nat | FirstToAsk(routes, i, p) ::
              && dispatch[p].Serves? && dispatch[p].methods == routes[i].methods
              && Layers(dispatch[p].chain) == middleware && Some(Innermost(dispatch[p].chain)) == routes[i].handler
  {
    if p in dispatch {
      var i :| Wins(DispatchAsked(routes), i, p) && dispatch[p] == Targets(routes, middleware)[i];
      WinsIsFirst(routes, i, p);
    }
    forall i: nat | FirstToAsk(routes, i, p) ensures p in dispatch && dispatch[p] == TargetOf(middleware, routes[i]) {
      FirstIsServed(routes, middleware, dispatch, path, p, i);
    }
  }

  /** The path mux has the path patterns of the routes with a handler, whatever their methods, and no others. */
  lemma PathsExactly(routes: seq<Route>, middleware: seq<nat>, dispatch: Mux, path: Mux, p: string)
    requires CompiledFrom(routes, middleware, dispatch, path)
    ensures p in path <==> exists rt :: rt in routes && rt.handler.Some? && p in PathPatterns(rt)
  {
    var asked := PathAsked(routes);
    if p in path {
      var i :| Wins(asked, i, p);
      assert routes[i] in routes && p in PathSet(routes[i]);
    }
    if rt :| rt in routes && rt.handler.Some? && p in PathPatterns(rt) {
      var i :| 0 <= i < |routes| && routes[i] == rt;
      assert p in asked[i];
    }
  }

  /** With no edit between, the cached muxes are what a rebuild would give. */
  lemma RebuildChangesNothing(routes: seq<Route>, middleware: seq<nat>, d: Mux, p: Mux, d': Mux, p': Mux)
    requires CompiledFrom(routes, middleware, d, p) && CompiledFrom(routes, middleware, d', p')
    ensures d == d' && p == p'
  {
    FirstWinsOnce(d, d', DispatchAsked(routes), Targets(routes, middleware));
    FirstWinsOnce(p, p', PathAsked(routes), seq(|routes|, _ => Nothing));
  }

  /** The routes whose names are not excluded, in order. */
  function Excluding(routes: seq<Route>, names: set<string>): seq<Route> {
    if routes == [] then []
    else Excluding(routes[..|routes| - 1], names)
         + if routes[|routes| - 1].name in names then [] else [routes[|routes| - 1]]
  }

  lemma {:induction false} ExcludingKeeps(routes: seq<Route>, names: set<string>)
    ensures forall rt :: rt in Excluding(routes, names) <==> rt in routes && rt.name !in names
  {
    if routes != [] {
      ExcludingKeeps(routes[..|routes| - 1], names);
      assert routes == routes[..|routes| - 1] + [routes[|routes| - 1]];
    }
  }

  /** Every name of a route is in the index, and nothing else. */
  ghost predicate NamedAre(named: map<string, nat>, routes: seq<Route>) {
    forall n :: n in named <==> n != "" && exists i :: 0 <= i < |routes| && routes[i].name == n
  }

  lemma NamedExtends(named: map<string, nat>, routes: seq<Route>, rt: Route, next: map<string, nat>)
    requires NamedAre(named, routes)
    requires next == if rt.name == "" then named else named[rt.name := |routes|]
    ensures NamedAre(next, routes + [rt])
  {
    forall n ensures n in next <==> n != "" && exists i :: 0 <= i <= |routes| && (routes + [rt])[i].name == n {
      if n in named {
        var i :| 0 <= i < |routes| && routes[i].name == n;
        assert (routes + [rt])[i].name == n;
      }
      assert (routes + [rt])[|routes|].name == rt.name;
    }
  }

  /** The index leads to routes of the name that is looked up. */
  ghost predicate IndexRight(named: map<string, nat>, routes: seq<Route>) {
    forall n | n in named :: n != "" && named[n] < |routes| && routes[named[n]].name == n
  }

  /** Renaming a route: its new name leads to it, its old name does no longer, and no other name changes. */
  function Reindexed(named: map<string, nat>, was: string, rt: nat, name: string): (next: map<string, nat>)
    ensures name != "" ==> name in next && next[name] == rt
    ensures was != "" && was != name && was in named && named[was] == rt ==> was !in next
    ensures forall n | n != name && n != was :: n in next <==> n in named
    ensures forall n | n in next && n != name :: n in named && next[n] == named[n]
  {
    var rest := if was != "" && was in named && named[was] == rt then named - {was} else named;
    if name != "" then rest[name := rt] else rest
  }

  lemma ReindexedRight(named: map<string, nat>, routes: seq<Route>, rt: nat, name: string)
    requires IndexRight(named, routes) && rt < |routes|
    ensures IndexRight(Reindexed(named, routes[rt].name, rt, name), routes[rt := routes[rt].(name := name)])
  {
  }

  class Router {
    var routes: seq<Route>
    /** Name to position in `routes`. */
    var named: map<string, nat>
    var middleware: seq<nat>
    var dispatchMux: Option<Mux>
    var pathMux: Option<Mux>
    var dirty: bool

    constructor ()
      ensures Valid() && routes == [] && middleware == [] && named == map[] && dirty
    {
      routes, named, middleware, dispatchMux, pathMux, dirty := [], map[], [], None, None, true;
    }

    /** Muxes that are not dirty are those of the current routes; and the name index leads to routes of that name. */
    ghost predicate Valid()
      reads this
    {
      && (!dirty && dispatchMux.Some? && pathMux.Some? ==>
            CompiledFrom(routes, middleware, dispatchMux.value, pathMux.value))
      && IndexRight(named, routes)
    }

    method Use(more: seq<nat>)
      requires Valid()
      modifies this`middleware, this`dirty
      ensures Valid() && middleware == old(middleware) + more
    {
      middleware := middleware + more;
      dirty := true;
    }

    method AddRoute(path: string, prefix: bool) returns (rt: nat)
      requires Valid()
      modifies this`routes, this`dirty
      ensures Valid() && rt == |old(routes)|
      ensures routes == old(routes) + [Route("", NormalizePath(path), prefix, [], None)]
    {
      rt := |routes|;
      routes := routes + [Route("", NormalizePath(path), prefix, [], None)];
      dirty := true;
    }

    /** Naming a route does not touch the muxes, and leaves them right: they do not depend on names. */
    method Name(rt: nat, name: string)
      requires Valid() && rt < |routes|
      modifies this`routes, this`named
      ensures Valid() && routes == old(routes)[rt := old(routes)[rt].(name := name)]
      ensures named == Reindexed(old(named), old(routes)[rt].name, rt, name)
    {
      ghost var before := routes;
      ReindexedRight(named, routes, rt, name);
      var was := routes[rt].name;
      if was != "" && was in named && named[was] == rt {
        named := named - {was};
      }
      routes := routes[rt := routes[rt].(name := name)];
      if name != "" {
        named := named[name := rt];
      }
      if !dirty && dispatchMux.Some? && pathMux.Some? {
        NamesDoNotMatter(before, rt, name, middleware, dispatchMux.value, pathMux.value);
      }
    }

    method Handler(rt: nat, handler: nat)
      requires Valid() && rt < |routes|
      modifies this`routes, this`dirty
      ensures Valid() && routes == old(routes)[rt := old(routes)[rt].(handler := Some(handler))]
    {
      routes := routes[rt := routes[rt].(handler := Some(handler))];
      dirty := true;
    }

    method Methods(rt: nat, methods: seq<string>)
      requires Valid() && rt < |routes|
      modifies this`routes, this`dirty
      ensures Valid() && routes == old(routes)[rt := old(routes)[rt].(methods := methods)]
    {
      routes := routes[rt := routes[rt].(methods := methods)];
      dirty := true;
    }

    method CloneExcluding(names: set<string>) returns (clone: Router)
      requires Valid()
      ensures clone.Valid() && fresh(clone) && clone.dirty
      ensures clone.routes == Excluding(routes, names) && clone.middleware == middleware
      ensures NamedAre(clone.named, clone.routes)
    {
      clone := new Router();
      clone.middleware := middleware;
      for i := 0 to |routes|
        invariant clone.routes == Excluding(routes[..i], names) && clone.middleware == middleware && clone.dirty
        invariant fresh(clone) && clone.Valid()
        invariant NamedAre(clone.named, clone.routes)
      {
        assert routes[..i + 1][..i] == routes[..i];
        if routes[i].name in names {
          continue;
        }
        NamedExtends(clone.named, clone.routes, routes[i],
                     if routes[i].name == "" then clone.named else clone.named[routes[i].name := |clone.routes|]);
        clone.Adopt(routes[i]);
      }
      assert routes[..|routes|] == routes;
    }

    /** Appends a copy of another router's route. */
    method Adopt(rt: Route)
      requires Valid() && dirty
      modifies this`routes, this`named
      ensures Valid() && routes == old(routes) + [rt]
      ensures named == if rt.name == "" then old(named) else old(named)[rt.name := |old(routes)|]
    {
      routes := routes + [rt];
      if rt.name != "" {
        named := named[rt.name := |routes| - 1];
      }
    }

    /** Whatever edits came before, the muxes that serve a request are those of the current routes. */
    method Snapshot() returns (dispatch: Mux, path: Mux)
      requires Valid()
      modifies this`dispatchMux, this`pathMux, this`dirty
      ensures Valid() && !dirty && dispatchMux == Some(dispatch) && pathMux == Some(path)
      ensures CompiledFrom(routes, middleware, dispatch, path)
      ensures !old(dirty) && old(dispatchMux).Some? && old(pathMux).Some? ==>
                dispatchMux == old(dispatchMux) && pathMux == old(pathMux)
    {
      if dirty || dispatchMux.None? || pathMux.None? {
        RebuildMux();
      }
      return dispatchMux.value, pathMux.value;
    }

    method RebuildMux()
      modifies this`dispatchMux, this`pathMux, this`dirty
      ensures !dirty && dispatchMux.Some? && pathMux.Some?
      ensures CompiledFrom(routes, middleware, dispatchMux.value, pathMux.value)
    {
      var dispatch: Mux, path: Mux := map[], map[];
      for i := 0 to |routes|
        invariant CompiledFrom(routes[..i], middleware, dispatch, path)
      {
        assert routes[..i + 1] == routes[..i] + [routes[i]];
        CompiledExtends(routes[..i], routes[i], middleware, dispatch, path);
        dispatch, path := RegisterRoute(middleware, routes[i], dispatch, path);
      }
      assert routes[..|routes|] == routes;
      dispatchMux, pathMux, dirty := Some(dispatch), Some(path), false;
    }
  }

  /** The body of the rebuild loop; a route without a handler is passed over. */
  method RegisterRoute(middleware: seq<nat>, rt: Route, dispatch: Mux, path: Mux) returns (dispatch': Mux, path': Mux)
    ensures dispatch' == Registered(dispatch, DispatchSet(rt), TargetOf(middleware, rt))
    ensures path' == Registered(path, PathSet(rt), Nothing)
  {
    if rt.handler.None? {
      assert Registered(dispatch, {}, Nothing) == dispatch && Registered(path, {}, Nothing) == path;
      return dispatch, path;
    }
    var chain := BuildMiddlewareChain(middleware, rt.handler.value);
    var patterns := DispatchPatterns(rt);
    dispatch' := RegisterPatterns(dispatch, patterns, Serves(rt.methods, chain));
    path' := RegisterPatterns(path, PathPatterns(rt), Nothing);
  }

  method BuildMiddlewareChain(middleware: seq<nat>, handler: nat) returns (chain: Chain)
    ensures chain == Chained(middleware, handler)
  {
    chain := Base(handler);
    var i := |middleware|;
    while i > 0
      invariant 0 <= i <= |middleware| && chain == Chained(middleware[i..], handler)
    {
      i := i - 1;
      chain := Wrap(middleware[i], chain);
      assert middleware[i..][1..] == middleware[i + 1..];
    }
    assert middleware[0..] == middleware;
  }

  lemma RegisteredMore<K, V>(mux: map<K, V>, patterns: set<K>, target: V, p: K)
    ensures var next := Registered(mux, patterns, target);
            Registered(mux, patterns + {p}, target) == if p in next then next else next[p := target]
  {
  }

  /** registerPattern for each pattern in turn. */
  method RegisterPatterns<K(==), V>(mux: map<K, V>, patterns: seq<K>, target: V) returns (next: map<K, V>)
    ensures next == Registered(mux, Elements(patterns), target)
  {
    next := mux;
    for i := 0 to |patterns|
      invariant next == Registered(mux, Elements(patterns[..i]), target)
    {
      assert patterns[..i + 1] == patterns[..i] + [patterns[i]];
      ElementsExtend(patterns[..i], patterns[i]);
      RegisteredMore(mux, Elements(patterns[..i]), target, patterns[i]);
      if patterns[i] !in next {
        next := next[patterns[i] := target];
      }
    }
    assert patterns[..|patterns|] == patterns;
  }

  method DispatchPatterns(rt: Route) returns (patterns: seq<string>)
    requires rt.handler.Some?
    ensures Elements(patterns) == DispatchSet(rt)
  {
    var pathPatterns := PathPatterns(rt);
    if rt.methods == [] {
      return pathPatterns;
    }
    patterns := WithMethods(pathPatterns, rt.methods);
  }

  lemma ProductsExtend(paths: seq<string>, p: string, methods: seq<string>, m: string)
    ensures Products(paths + [p], methods) == Products(paths, methods) + Products([p], methods)
    ensures Products([p], methods + [m]) == Products([p], methods) + {Pattern(m, p)}
  {
  }

  method WithMethods(pathPatterns: seq<string>, methods: seq<string>) returns (patterns: seq<string>)
    ensures Elements(patterns) == Products(pathPatterns, methods)
  {
    patterns := [];
    for i := 0 to |pathPatterns|
      invariant Elements(patterns) == Products(pathPatterns[..i], methods)
    {
      ghost var before := patterns;
      for j := 0 to |methods|
        invariant Elements(patterns) == Elements(before) + Products([pathPatterns[i]], methods[..j])
      {
        ProductsExtend([], pathPatterns[i], methods[..j], methods[j]);
        assert methods[..j + 1] == methods[..j] + [methods[j]];
        ElementsExtend(patterns, Pattern(methods[j], pathPatterns[i]));
        patterns := patterns + [Pattern(methods[j], pathPatterns[i])];
      }
      assert methods[..|methods|] == methods;
      ProductsExtend(pathPatterns[..i], pathPatterns[i], methods, "");
      assert pathPatterns[..i + 1] == pathPatterns[..i] + [pathPatterns[i]];
    }
    assert pathPatterns[..|pathPatterns|] == pathPatterns;
  }

  lemma NameDoesNotMatter(rt: Route, name: string)
    ensures PathSet(rt.(name := name)) == PathSet(rt) && DispatchSet(rt.(name := name)) == DispatchSet(rt)
  {
  }

  lemma NamesDoNotMatter(routes: seq<Route>, rt: nat, name: string, middleware: seq<nat>, dispatch: Mux, path: Mux)
    requires rt < |routes| && CompiledFrom(routes, middleware, dispatch, path)
    ensures CompiledFrom(routes[rt := routes[rt].(name := name)], middleware, dispatch, path)
  {
    var renamed := routes[rt := routes[rt].(name := name)];
    NameDoesNotMatter(routes[rt], name);
    assert DispatchAsked(renamed) == DispatchAsked(routes);
    assert PathAsked(renamed) == PathAsked(routes);
    assert Targets(renamed, middleware) == Targets(routes, middleware);
  }
}
