/** Whether a REST bridge is served: the keys of plank/pkg/server/rest_bridge_registry.go against the muxes that
    plank/pkg/routing/router.go compiles from their routes. */
module ServedBridges {
  import opened HttpRouting
  import opened RestBridges
  import opened Runs

  /** Routes are in the order in which their handlers were built. */
  predicate Ascending(routes: seq<Route>) {
    && (forall i | 0 <= i < |routes| :: routes[i].handler.Some?)
    && forall i, j | 0 <= i < j < |routes| :: routes[i].handler.value < routes[j].handler.value
  }

  lemma {:induction false} ExcludingAscends(routes: seq<Route>, names: set<string>)
    requires Ascending(routes)
    ensures Ascending(Excluding(routes, names))
  {
    if routes != [] {
      var init, last := routes[..|routes| - 1], routes[|routes| - 1];
      ExcludingAscends(init, names);
      ExcludingKeeps(init, names);
      var kept := Excluding(init, names);
      forall i | 0 <= i < |kept| ensures kept[i].handler.value < last.handler.value {
        assert kept[i] in init;
      }
    }
  }

  lemma StepAscends(r: Registry, c: Call)
    requires RestBridges.Inv(r) && Ascending(r.b.routes)
    ensures Ascending(RestBridges.Step(r, c).b.routes)
  {
    if c.Override? {
      ExcludingAscends(r.b.routes, Elements(KeysOf(r.b.lists, c.service)));
    }
  }

  lemma {:induction false} RunAscends(calls: seq<Call>)
    ensures RestBridges.Inv(Run(RestBridges.Step, EMPTY, calls)) &&
              Ascending(Run(RestBridges.Step, EMPTY, calls).b.routes)
  {
    if calls == [] {
      EmptyInv();
    } else {
      var init := calls[..|calls| - 1];
      RunAscends(init);
      StepAscends(Run(RestBridges.Step, EMPTY, init), calls[|calls| - 1]);
      StepKeeps(Run(RestBridges.Step, EMPTY, init), calls[|calls| - 1]);
    }
  }

  /** Middleware does not make two handlers the same. */
  lemma {:induction false} ChainedApart(middleware: seq<nat>, g: nat, h: nat)
    requires g != h
    ensures Chained(middleware, g) != Chained(middleware, h)
  {
    if middleware != [] {
      ChainedApart(middleware[1..], g, h);
    }
  }

  /** After any calls of the registry, each pattern of a bridge is served by that bridge's own handler exactly if no
      earlier bridge that is still there asks for the pattern. */
  lemma ServedExactly(calls: seq<Call>, middleware: seq<nat>, dispatch: Mux, path: Mux, i: nat, pattern: string)
    requires var routes := Run(RestBridges.Step, EMPTY, calls).b.routes;
             && CompiledFrom(routes, middleware, dispatch, path)
             && i < |routes| && pattern in DispatchSet(routes[i])
    ensures var routes := Run(RestBridges.Step, EMPTY, calls).b.routes;
            && pattern in dispatch
            && (dispatch[pattern] == TargetOf(middleware, routes[i])
                <==> forall j | 0 <= j < i :: pattern !in DispatchSet(routes[j]))
  {
    RunAscends(calls);
    var routes := Run(RestBridges.Step, EMPTY, calls).b.routes;
    ServedInMux(routes, middleware, dispatch, i, pattern);
  }

  lemma ServedInMux(routes: seq<Route>, middleware: seq<nat>, dispatch: Mux, i: nat, pattern: string)
    requires Ascending(routes) && FirstWins(dispatch, DispatchAsked(routes), Targets(routes, middleware))
    requires i < |routes| && pattern in DispatchSet(routes[i])
    ensures pattern in dispatch
    ensures dispatch[pattern] == TargetOf(middleware, routes[i])
       <==> forall j | 0 <= j < i :: pattern !in DispatchSet(routes[j])
  {
    var asked := DispatchAsked(routes);
    var w := WinnerOf(dispatch, asked, Targets(routes, middleware), i, pattern);
    assert asked[w] == DispatchSet(routes[w]);
    if w == i {
      forall j | 0 <= j < i ensures pattern !in DispatchSet(routes[j]) {
        assert asked[j] == DispatchSet(routes[j]);
      }
    } else {
      ChainedApart(middleware, routes[w].handler.value, routes[i].handler.value);
    }
  }

  lemma PatternApart(m: string, n: string, p: string)
    ensures Pattern(m, p) == Pattern(n, p) ==> m == n
  {
    if Pattern(m, p) == Pattern(n, p) {
      assert |m| == |n|;
      assert m == Pattern(m, p)[..|m|] && n == Pattern(n, p)[..|n|];
    }
  }

  /** Two exact bridges for one path get in each other's way exactly if the first permits the second's method: its own,
      or HEAD or OPTIONS when it allows them. */
  lemma ShadowedExactly(first: BridgeConfig, second: BridgeConfig, g: nat, h: nat)
    requires NormalizePath(first.uri) == NormalizePath(second.uri)
    ensures var own := Pattern(second.verb, ExactMuxPattern(NormalizePath(NormalizePath(second.uri))));
            && own in DispatchSet(RouteFor(second, Exact, HandlerKey(second, Exact), h))
            && (own in DispatchSet(RouteFor(first, Exact, HandlerKey(first, Exact), g)) <==>
              second.verb in Permitted(first))
  {
    var p := ExactMuxPattern(NormalizePath(NormalizePath(second.uri)));
    forall m: string ensures Pattern(second.verb, p) == Pattern(m, p) <==> second.verb == m {
      PatternApart(second.verb, m, p);
    }
    assert second.verb in Permitted(second) && p in [p];
  }
}
