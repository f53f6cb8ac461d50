/** The REST bridge registry, plank/pkg/server/rest_bridge_registry.go: which keys each service has, the handler of
    each key, and the named routes of the HTTP router, kept in agreement. */
module RestBridges {
  import opened Options
  import opened HttpRouting
  import opened Runs
  import opened Sequences

  type Service = string
  type Key = string

  const ALLMETHODS := "*"

  datatype MatchMode = Exact | Prefix

  datatype BridgeConfig = BridgeConfig(service: Service, uri: string, verb: string, allowHead: bool, allowOptions: bool)

  function HandlerKey(config: BridgeConfig, mode: MatchMode): (k: Key)
    ensures mode == Prefix ==> k == config.uri + "-*"
    ensures mode == Exact ==> k == config.uri + "-" + config.verb
  {
    config.uri + "-" + if mode == Prefix then ALLMETHODS else config.verb
  }

  function KeysOf<S, K>(lists: map<S, seq<K>>, s: S): seq<K> {
    if s in lists then lists[s] else []
  }

  /** There is a route of that name with that handler. */
  ghost predicate Routed(routes: seq<Route>, k: Key, handler: nat) {
    exists rt :: rt in routes && rt.name == k && rt.handler == Some(handler)
  }

  ghost predicate AllRouted(handlers: map<Key, nat>, routes: seq<Route>) {
    forall k | k in handlers :: Routed(routes, k, handlers[k])
  }

  ghost predicate Listed<S(!new), K>(lists: map<S, seq<K>>, k: K) {
    exists s :: s in lists && k in lists[s]
  }

  /** The key lists repeat nothing, alone or together, and list exactly the keys that have a handler. */
  ghost predicate Partition<S(!new), K(!new)>(lists: map<S, seq<K>>, keys: set<K>) {
    && (forall s | s in lists :: Distinct(lists[s]))
    && (forall s, t, k | s in lists && t in lists && k in lists[s] && k in lists[t] :: s == t)
    && (forall k :: k in keys <==> Listed(lists, k))
  }

  lemma PartitionAdds<S(!new), K(!new)>(lists: map<S, seq<K>>, keys: set<K>, s: S, k: K)
    requires Partition(lists, keys) && k !in keys && s in lists
    ensures Partition(lists[s := lists[s] + [k]], keys + {k})
  {
    var next := lists[s := lists[s] + [k]];
    assert s in next && k in next[s];
    assert s in lists && k in lists[s] ==> Listed(lists, k);
    forall l ensures l in keys + {k} <==> Listed(next, l) {
      if t :| t in lists && l in lists[t] {
        assert t in next && l in next[t];
      }
      if t :| t in next && l in next[t] && l != k {
        assert t in lists && l in lists[t];
      }
    }
    forall t, u, l | t in next && u in next && l in next[t] && l in next[u] ensures t == u {
      assert l != k ==> l in lists[t] && l in lists[u];
      assert t in lists && l in lists[t] ==> Listed(lists, l);
      assert u in lists && l in lists[u] ==> Listed(lists, l);
    }
  }

  lemma PartitionOpens<S(!new), K(!new)>(lists: map<S, seq<K>>, keys: set<K>, s: S)
    requires Partition(lists, keys) && s !in lists
    ensures Partition(lists[s := []], keys)
  {
    var next := lists[s := []];
    forall l ensures l in keys <==> Listed(next, l) {
      if t :| t in lists && l in lists[t] {
        assert t in next && l in next[t];
      }
      if t :| t in next && l in next[t] {
        assert t in lists && l in lists[t];
      }
    }
  }

  lemma PartitionClears<S(!new), K(!new)>(lists: map<S, seq<K>>, keys: set<K>, s: S)
    requires Partition(lists, keys)
    ensures Partition(lists[s := []], keys - Elements(KeysOf(lists, s)))
  {
    var next := lists[s := []];
    forall l ensures l in keys - Elements(KeysOf(lists, s)) <==> Listed(next, l) {
      if t :| t in lists && l in lists[t] && t != s {
        assert t in next && l in next[t];
      }
      if t :| t in next && l in next[t] {
        assert t in lists && l in lists[t];
      }
    }
  }

  /** Clearing a service leaves every other key its route. */
  lemma ClearKeepsRouted(handlers: map<Key, nat>, routes: seq<Route>, names: set<Key>)
    requires AllRouted(handlers, routes)
    ensures AllRouted(handlers - names, Excluding(routes, names))
  {
    ExcludingKeeps(routes, names);
    forall k | k in handlers - names ensures Routed(Excluding(routes, names), k, handlers[k]) {
      var rt :| rt in routes && rt.name == k && rt.handler == Some(handlers[k]);
      assert rt in Excluding(routes, names);
    }
  }

  lemma AddKeepsRouted(handlers: map<Key, nat>, routes: seq<Route>, rt: Route)
    requires AllRouted(handlers, routes) && rt.handler.Some?
    ensures AllRouted(handlers[rt.name := rt.handler.value], routes + [rt])
  {
  }

  function Permitted(config: BridgeConfig): (methods: seq<string>)
    ensures forall m :: m in methods <==> || m == config.verb || (config.allowHead && m == "HEAD")
                                          || (config.allowOptions && m == "OPTIONS")
  {
    [config.verb] + (if config.allowHead then ["HEAD"] else []) + (if config.allowOptions then ["OPTIONS"] else [])
  }

  function RouteFor(config: BridgeConfig, mode: MatchMode, key: Key, handler: nat): Route {
    if mode == Prefix then Route(key, NormalizePath(config.uri), true, [], Some(handler))
    else Route(key, NormalizePath(config.uri), false, Permitted(config), Some(handler))
  }

  /** What the registry holds, with the routes of its router. */
  datatype Bridges = Bridges(
    lists: map<Service, seq<Key>>,
    handlers: map<Key, nat>,
    bridged: set<Service>,        // services with a message bridge
    routes: seq<Route>)

  /** A SetExact or SetPrefix call; `listens` says whether the bus would give a listener for the service's channel. */
  datatype SetCall = SetCall(bridge: Option<BridgeConfig>, mode: MatchMode, listens: bool)

  predicate IsNew(b: Bridges, call: SetCall) {
    call.bridge.Some? && HandlerKey(call.bridge.value, call.mode) !in b.handlers
  }

  predicate Adds(b: Bridges, call: SetCall) {
    IsNew(b, call) && (call.listens || call.bridge.value.service in b.bridged)
  }

  /** `built` is the handler that is built. */
  function AfterSet(b: Bridges, call: SetCall, built: nat): Bridges {
    if !IsNew(b, call) then b
    else
      var service, k := call.bridge.value.service, HandlerKey(call.bridge.value, call.mode);
      if !Adds(b, call) then b.(lists := b.lists[service := KeysOf(b.lists, service)])
      else Bridges(b.lists[service := KeysOf(b.lists, service) + [k]], b.handlers[k := built], b.bridged + {service},
                   b.routes + [RouteFor(call.bridge.value, call.mode, k, built)])
  }

  function AfterClear(b: Bridges, service: Service): Bridges {
    b.(lists := b.lists[service := []], handlers := b.handlers - Elements(KeysOf(b.lists, service)))
  }

  /** The routes of the router that clearing returns. */
  function CloneFor(b: Bridges, service: Service): seq<Route> {
    Excluding(b.routes, Elements(KeysOf(b.lists, service)))
  }

  function Switched(b: Bridges, routes: seq<Route>): Bridges {
    b.(routes := routes)
  }

  /** A bridge is added unless its key is taken or its service can have no message bridge: one handler, one key at the
      end of its service's list and one route at the end, with the path, the name and the methods of the bridge.
      Otherwise no handler, key or route changes. */
  lemma SetExactly(b: Bridges, call: SetCall, built: nat)
    ensures var t := AfterSet(b, call, built);
            if call.bridge.None? || HandlerKey(call.bridge.value, call.mode) in b.handlers
               || !(call.listens || call.bridge.value.service in b.bridged)
            then
              && t.handlers == b.handlers && t.routes == b.routes && t.bridged == b.bridged
              && forall s :: KeysOf(t.lists, s) == KeysOf(b.lists, s)
            else
              var config, k := call.bridge.value, HandlerKey(call.bridge.value, call.mode);
              && (forall l :: l in t.handlers <==> l in b.handlers || l == k)
              && (forall l | l in t.handlers :: t.handlers[l] == if l == k then built else b.handlers[l])
              && (forall s :: KeysOf(t.lists, s) == KeysOf(b.lists, s) + if s == config.service then [k] else [])
              && t.bridged == b.bridged + {config.service} && |t.routes| == |b.routes| + 1
              && t.routes[..|b.routes|] == b.routes && IsRouteFor(t.routes[|b.routes|], config, call.mode, built)
  {
  }

  /** The route has the bridge's path, name and handler; an exact one permits the bridge's method, and HEAD and OPTIONS
      if the bridge allows them, and a prefix one does not look at the method. */
  ghost predicate IsRouteFor(rt: Route, config: BridgeConfig, mode: MatchMode, handler: nat) {
    && rt.handler == Some(handler) && rt.path == NormalizePath(config.uri) && (rt.prefix <==> mode == Prefix)
    && rt.name == config.uri + "-" + (if mode == Prefix then "*" else config.verb)
    && (mode == Prefix ==> rt.methods == [])
    && (mode == Exact ==>
          forall m :: m in rt.methods <==> || m == config.verb || (config.allowHead && m == "HEAD")
                                           || (config.allowOptions && m == "OPTIONS"))
  }

  /** Clearing takes out the keys of the one service, their handlers and, in the router it returns, the routes of their
      names; everything else stays. */
  lemma ClearExactly(b: Bridges, service: Service)
    ensures var t := AfterClear(b, service);
            && KeysOf(t.lists, service) == [] && (forall s | s != service :: KeysOf(t.lists, s) == KeysOf(b.lists, s))
            && (forall k :: k in t.handlers <==> k in b.handlers && k !in KeysOf(b.lists, service))
            && (forall k | k in t.handlers :: t.handlers[k] == b.handlers[k])
            && t.routes == b.routes && t.bridged == b.bridged
            && forall rt :: rt in CloneFor(b, service) <==> rt in b.routes && rt.name !in KeysOf(b.lists, service)
  {
    ExcludingKeeps(b.routes, Elements(KeysOf(b.lists, service)));
  }

  ghost predicate Sound(b: Bridges) {
    Partition(b.lists, b.handlers.Keys)
  }

  ghost predicate Agrees(b: Bridges) {
    AllRouted(b.handlers, b.routes)
  }

  lemma SetKeeps(b: Bridges, call: SetCall, built: nat)
    requires Sound(b)
    ensures Sound(AfterSet(b, call, built)) && (Agrees(b) ==> Agrees(AfterSet(b, call, built)))
  {
    if IsNew(b, call) {
      var service, k := call.bridge.value.service, HandlerKey(call.bridge.value, call.mode);
      var withList := b.lists[service := KeysOf(b.lists, service)];
      if service !in b.lists {
        PartitionOpens(b.lists, b.handlers.Keys, service);
      } else {
        assert withList == b.lists;
      }
      if Adds(b, call) {
        PartitionAdds(withList, b.handlers.Keys, service, k);
        assert withList[service := withList[service] + [k]] == b.lists[service := KeysOf(b.lists, service) + [k]];
        assert b.handlers[k := built].Keys == b.handlers.Keys + {k};
        if Agrees(b) {
          AddKeepsRouted(b.handlers, b.routes, RouteFor(call.bridge.value, call.mode, k, built));
        }
      }
    }
  }

  lemma ClearKeeps(b: Bridges, service: Service)
    requires Sound(b)
    ensures Sound(AfterClear(b, service)) && (Agrees(b) ==> Agrees(AfterClear(b, service)))
    ensures Agrees(b) ==> AllRouted(AfterClear(b, service).handlers, CloneFor(b, service))
  {
    var names := Elements(KeysOf(b.lists, service));
    PartitionClears(b.lists, b.handlers.Keys, service);
    assert (b.handlers - names).Keys == b.handlers.Keys - names;
    if Agrees(b) {
      ClearKeepsRouted(b.handlers, b.routes, names);
    }
  }

  /** The registry as its calls come; every handler that is built is a new one. */
  datatype Registry = Registry(b: Bridges, next: nat)

  /** `Override` is a clear and the switch to the router it returned, with nothing in between. */
  datatype Call = Set(call: SetCall) | Clear(service: Service) | Override(service: Service)

  function Step(r: Registry, c: Call): Registry {
    match c
    case Set(call) => Registry(AfterSet(r.b, call, r.next), if Adds(r.b, call) then r.next + 1 else r.next)
    case Clear(service) => r.(b := AfterClear(r.b, service))
    case Override(service) => r.(b := Switched(AfterClear(r.b, service), CloneFor(r.b, service)))
  }

  predicate HandlersBelow(routes: seq<Route>, next: nat) {
    forall rt | rt in routes && rt.handler.Some? :: rt.handler.value < next
  }

  ghost predicate Inv(r: Registry) {
    Sound(r.b) && Agrees(r.b) && HandlersBelow(r.b.routes, r.next) &&
      forall k | k in r.b.handlers :: r.b.handlers[k] < r.next
  }

  /** `now` has kept some of the handlers in `before`, and all it has besides are later ones. */
  predicate KeptOrLater(before: map<Key, nat>, now: map<Key, nat>, next: nat) {
    forall k | k in now :: now[k] >= next || (k in before && before[k] == now[k])
  }

  lemma StepKeeps(r: Registry, c: Call)
    requires Inv(r)
    ensures Inv(Step(r, c))
  {
    match c
    case Set(call) => SetKeeps(r.b, call, r.next);
    case Clear(service) => ClearKeeps(r.b, service);
    case Override(service) =>
      ClearKeeps(r.b, service);
      ExcludingKeeps(r.b.routes, Elements(KeysOf(r.b.lists, service)));
  }

  lemma {:induction false} CallsKeep(r: Registry, calls: seq<Call>)
    requires Inv(r)
    ensures var t := Run(Step, r, calls); Inv(t) && t.next >= r.next && KeptOrLater(r.b.handlers, t.b.handlers, r.next)
  {
    if calls != [] {
      var init := calls[..|calls| - 1];
      CallsKeep(r, init);
      StepKeeps(Run(Step, r, init), calls[|calls| - 1]);
    }
  }

  lemma LaterIsNotRouted(handlers: map<Key, nat>, routes: seq<Route>, next: nat, k: Key)
    requires HandlersBelow(routes, next) && k in handlers && handlers[k] >= next
    ensures !AllRouted(handlers, routes)
  {
    assert !Routed(routes, k, handlers[k]);
  }

  lemma KeptIsRouted(before: map<Key, nat>, now: map<Key, nat>, routes: seq<Route>, next: nat)
    requires AllRouted(before, routes) && KeptOrLater(before, now, next) && forall k | k in now :: now[k] < next
    ensures AllRouted(now, routes)
  {
    forall k | k in now ensures Routed(routes, k, now[k]) {
      assert Routed(routes, k, before[k]);
    }
  }

  const EMPTY := Registry(Bridges(map[], map[], {}, []), 0)

  lemma EmptyInv()
    ensures Inv(EMPTY)
  {
  }

  /** The registry after any calls, a clear, any calls again, and then the switch to the router that was cleared. */
  function AfterSwitch(before: seq<Call>, service: Service, calls: seq<Call>): Bridges {
    var r := Run(Step, EMPTY, before);
    Switched(Run(Step, Step(r, Clear(service)), calls).b, CloneFor(r.b, service))
  }

  /** Clearing a service and switching to the router it returned are two calls, and others may come between.  The
      registry agrees after the switch exactly if no bridge that was set in between is still there; its key lists are
      sound in any case. */
  lemma SwitchAgreesExactly(before: seq<Call>, service: Service, calls: seq<Call>)
    ensures var after, next := AfterSwitch(before, service, calls), Run(Step, EMPTY, before).next;
            Sound(after) && (Agrees(after) <==> forall k | k in after.handlers :: after.handlers[k] < next)
  {
    EmptyInv();
    CallsKeep(EMPTY, before);
    var r := Run(Step, EMPTY, before);
    ClearKeeps(r.b, service);
    var c := Step(r, Clear(service));
    StepKeeps(r, Clear(service));
    CallsKeep(c, calls);
    var t := Run(Step, c, calls);
    ExcludingKeeps(r.b.routes, Elements(KeysOf(r.b.lists, service)));
    if k :| k in t.b.handlers && t.b.handlers[k] >= r.next {
      LaterIsNotRouted(t.b.handlers, CloneFor(r.b, service), r.next, k);
    } else {
      KeptIsRouted(c.b.handlers, t.b.handlers, CloneFor(r.b, service), r.next);
    }
  }

  lemma {:induction false} SetsAdd(r: Registry, calls: seq<Call>)
    requires forall c | c in calls :: c.Set?
    ensures var t := Run(Step, r, calls);
            && t.next >= r.next
            && (t.next == r.next <==> forall i | 0 <= i < |calls| :: !Adds(Run(Step, r, calls[..i]).b, calls[i].call))
            && (t.next == r.next ==> t.b.handlers == r.b.handlers)
            && (t.next > r.next ==> exists k :: k in t.b.handlers && t.b.handlers[k] >= r.next)
  {
    if calls != [] {
      var init, last := calls[..|calls| - 1], calls[|calls| - 1];
      assert last in calls;
      SetsAdd(r, init);
      assert forall i | 0 <= i <= |init| :: calls[..i] == init[..i];
      assert init[..|init|] == init;
      var u, t := Run(Step, r, init), Run(Step, r, calls);
      if Adds(u.b, last.call) {
        var k := HandlerKey(last.call.bridge.value, last.call.mode);
        assert k in t.b.handlers && t.b.handlers[k] >= r.next;
      } else if u.next > r.next {
        var k :| k in u.b.handlers && u.b.handlers[k] >= r.next;
        assert k in t.b.handlers && t.b.handlers[k] >= r.next;
      }
    }
  }

  /** With nothing but Set calls in between, it agrees exactly if none of them returned having added a bridge. */
  lemma SetsBeforeSwitchExactly(before: seq<Call>, service: Service, calls: seq<Call>)
    requires forall c | c in calls :: c.Set?
    ensures var c := Step(Run(Step, EMPTY, before), Clear(service));
            Agrees(AfterSwitch(before, service, calls))
            <==> forall i | 0 <= i < |calls| :: !Adds(Run(Step, c, calls[..i]).b, calls[i].call)
  {
    EmptyInv();
    CallsKeep(EMPTY, before);
    SwitchAgreesExactly(before, service, calls);
    SetsAdd(Step(Run(Step, EMPTY, before), Clear(service)), calls);
  }

  /** Clear, Set, SetRouter: the bridge has a key and a handler, and cannot be set again; but it has no route. */
  lemma LostBridge(service: Service, call: SetCall)
    requires call.bridge.Some? && call.listens
    ensures var k, after := HandlerKey(call.bridge.value, call.mode), AfterSwitch([], service, [Set(call)]);
            && k in after.handlers && k in KeysOf(after.lists, call.bridge.value.service) && after.routes == []
            && !Agrees(after) && forall again: SetCall | again.bridge == call.bridge &&
              again.mode == call.mode :: !Adds(after, again)
  {
    var c := Step(EMPTY, Clear(service));
    assert [Set(call)] == [Set(call)] + [];
    RunFirst(Step, c, Set(call), []);
    var k, after := HandlerKey(call.bridge.value, call.mode), AfterSwitch([], service, [Set(call)]);
    assert k in after.handlers && !Routed([], k, after.handlers[k]);
  }

  class RestBridgeRegistry {
    var router: Router
    var endpointHandlers: map<Key, nat>
    var serviceKeys: map<Service, seq<Key>>
    var messageBridges: set<Service>

    constructor (router: Router)
      requires router.Valid()
      ensures Valid() && this.router == router && endpointHandlers == map[] && serviceKeys == map[] &&
                messageBridges == {}
    {
      this.router, endpointHandlers, serviceKeys, messageBridges := router, map[], map[], {};
    }

    ghost predicate Valid()
      reads this, router
    {
      router.Valid() && Sound(State())
    }

    ghost function State(): Bridges
      reads this, router
    {
      Bridges(serviceKeys, endpointHandlers, messageBridges, router.routes)
    }

    method Set(call: SetCall, built: nat) returns (added: bool)
      requires Valid()
      modifies this`endpointHandlers, this`serviceKeys, this`messageBridges, router
      ensures Valid() && (old(Agrees(State())) ==> Agrees(State()))
      ensures added == old(Adds(State(), call)) && State() == AfterSet(old(State()), call, built)
    {
      SetKeeps(State(), call, built);
      if call.bridge.None? {
        return false;
      }
      added := SetBridge(call.bridge.value, call, built);
    }

    method SetBridge(config: BridgeConfig, call: SetCall, built: nat) returns (added: bool)
      requires router.Valid() && call.bridge == Some(config)
      modifies this`endpointHandlers, this`serviceKeys, this`messageBridges, router
      ensures router.Valid()
      ensures added == old(Adds(State(), call)) && State() == AfterSet(old(State()), call, built)
    {
      var key := HandlerKey(config, call.mode);
      if key in endpointHandlers {
        return false;
      }
      EnsureKeyList(config.service);
      var bridged := EnsureMessageBridge(config.service, call.listens);
      if !bridged {
        return false;
      }
      endpointHandlers := endpointHandlers[key := built];
      serviceKeys := serviceKeys[config.service := serviceKeys[config.service] + [key]];
      RegisterHttpBridgeRoute(router, config, call.mode, key, built);
      return true;
    }

    method EnsureKeyList(s: Service)
      modifies this`serviceKeys
      ensures serviceKeys == old(serviceKeys)[s := KeysOf(old(serviceKeys), s)]
    {
      if s !in serviceKeys {
        serviceKeys := serviceKeys[s := []];
      } else {
        assert serviceKeys[s := serviceKeys[s]] == serviceKeys;
      }
    }

    method EnsureMessageBridge(s: Service, listens: bool) returns (bridged: bool)
      modifies this`messageBridges
      ensures bridged == (listens || s in old(messageBridges))
      ensures messageBridges == if bridged then old(messageBridges) + {s} else old(messageBridges)
    {
      if s in messageBridges {
        assert messageBridges + {s} == messageBridges;
        return true;
      }
      if !listens {
        return false;
      }
      messageBridges := messageBridges + {s};
      return true;
    }

    /** Removes exactly the keys of the service, and returns a router without exactly their routes; the registry goes
        on with its old router until it is given another. */
    method ClearForService(s: Service) returns (newRouter: Router)
      requires Valid()
      modifies this`endpointHandlers, this`serviceKeys
      ensures Valid() && router == old(router) && fresh(newRouter) && newRouter.Valid()
      ensures State() == AfterClear(old(State()), s)
      ensures newRouter.routes == CloneFor(old(State()), s) && newRouter.middleware == router.middleware
      ensures old(Agrees(State())) ==> Agrees(State()) && AllRouted(endpointHandlers, newRouter.routes)
    {
      ClearKeeps(State(), s);
      var existing := KeysOf(serviceKeys, s);
      newRouter := router.CloneExcluding(Elements(existing));
      serviceKeys := serviceKeys[s := []];
      DeleteHandlers(existing);
    }

    method DeleteHandlers(keys: seq<Key>)
      modifies this`endpointHandlers
      ensures endpointHandlers == old(endpointHandlers) - Elements(keys)
    {
      for i := 0 to |keys|
        invariant endpointHandlers == old(endpointHandlers) - Elements(keys[..i])
      {
        assert keys[..i + 1] == keys[..i] + [keys[i]];
        ElementsExtend(keys[..i], keys[i]);
        endpointHandlers := endpointHandlers - {keys[i]};
      }
      assert keys[..|keys|] == keys;
    }

    /** The keys and handlers stay what they are, whatever router is given; `SwitchAgreesExactly` has what becomes of
        the routes. */
    method SetRouter(newRouter: Router)
      requires Valid() && newRouter.Valid()
      modifies this`router
      ensures Valid() && router == newRouter && State() == old(State()).(routes := newRouter.routes)
    {
      router := newRouter;
    }
  }

  method RegisterHttpBridgeRoute(router: Router, config: BridgeConfig, mode: MatchMode, key: Key, handler: nat)
    requires router.Valid() && key == HandlerKey(config, mode)
    modifies router
    ensures router.Valid() && router.routes == old(router.routes) + [RouteFor(config, mode, key, handler)]
  {
    ghost var route := RouteFor(config, mode, key, handler);
    if mode == Prefix {
      var rt := router.AddRoute(config.uri, true);
      router.Name(rt, key);
      router.Handler(rt, handler);
      assert router.routes[rt] == route;
      return;
    }
    var permitted := [config.verb];
    if config.allowHead {
      permitted := permitted + ["HEAD"];
    }
    if config.allowOptions {
      permitted := permitted + ["OPTIONS"];
    }
    var rt := router.AddRoute(config.uri, false);
    router.Methods(rt, permitted);
    router.Name(rt, config.uri + "-" + config.verb);
    router.Handler(rt, handler);
    assert router.routes[rt] == route;
  }
}
