/** The bookkeeping of store/store_sync_service.go: which stores each client channel has open, and which client
    channels each store listener serves.

    A request handler holds on to the client object it was created with.  The object may have been replaced, or
    dropped, by the time a request is processed, so requests name the object and not the channel. */
module SyncServices {
  import opened Runs
  import opened Sequences

  type Channel = string
  type StoreId = string

  datatype Client = Client(channelName: Channel, openStores: set<StoreId>)

  /** A store listener: its stream in the store's registry, and the channels it forwards to. */
  datatype Listener = Listener(stream: nat, channels: set<Channel>)

  /** The listeners, the streams created so far (numbered from zero) and those unsubscribed, in order. */
  datatype Listeners = Listeners(live: map<StoreId, Listener>, created: nat, ended: seq<nat>)

  predicate Serves(ls: Listeners, store: StoreId, ch: Channel) {
    store in ls.live && ch in ls.live[store].channels
  }

  function Join(ls: Listeners, store: StoreId, ch: Channel): Listeners {
    if store in ls.live then
      ls.(live := ls.live[store := ls.live[store].(channels := ls.live[store].channels + {ch})])
    else
      ls.(live := ls.live[store := Listener(ls.created, {ch})], created := ls.created + 1)
  }

  function Leave(ls: Listeners, store: StoreId, ch: Channel): Listeners {
    if store !in ls.live then ls
    else
      var l := ls.live[store].(channels := ls.live[store].channels - {ch});
      if l.channels == {} then ls.(live := ls.live - {store}, ended := ls.ended + [l.stream])
      else ls.(live := ls.live[store := l])
  }

  function LeaveAll(ls: Listeners, stores: seq<StoreId>, ch: Channel): Listeners {
    if stores == [] then ls
    else Leave(LeaveAll(ls, stores[..|stores| - 1], ch), stores[|stores| - 1], ch)
  }

  predicate Uses(ls: Listeners, store: StoreId, stream: nat) {
    store in ls.live && ls.live[store].stream == stream
  }

  /** No listener is idle, and every stream ever created is either used by exactly one listener or has been
      unsubscribed, exactly once. */
  ghost predicate StreamsAccountedFor(ls: Listeners) {
    && (forall st | st in ls.live :: ls.live[st].channels != {})
    && (forall st, n: nat :: Uses(ls, st, n) ==> n < ls.created && n !in ls.ended)
    && (forall st, st', n: nat :: Uses(ls, st, n) && Uses(ls, st', n) ==> st == st')
    && (forall n: nat | n in ls.ended :: n < ls.created)
    && (forall n: nat | n < ls.created :: n in ls.ended || exists st :: Uses(ls, st, n))
    && Distinct(ls.ended)
  }

  lemma JoinServes(ls: Listeners, store: StoreId, ch: Channel)
    ensures forall st, c :: Serves(Join(ls, store, ch), st, c) <==> Serves(ls, st, c) || (st == store && c == ch)
  {
  }

  lemma LeaveServes(ls: Listeners, store: StoreId, ch: Channel)
    ensures forall st, c :: Serves(Leave(ls, store, ch), st, c) <==> Serves(ls, st, c) && !(st == store && c == ch)
  {
    forall st, c ensures Serves(Leave(ls, store, ch), st, c) <==> Serves(ls, st, c) && !(st == store && c == ch) {
      if store in ls.live {
        assert c in ls.live[store].channels - {ch} <==> c in ls.live[store].channels && c != ch;
      }
    }
  }

  lemma JoinKeeps(ls: Listeners, store: StoreId, ch: Channel)
    requires StreamsAccountedFor(ls)
    ensures StreamsAccountedFor(Join(ls, store, ch))
  {
    var t := Join(ls, store, ch);
    if store in ls.live {
      assert forall st, n: nat :: Uses(t, st, n) <==> Uses(ls, st, n);
    } else {
      assert forall st, n: nat :: Uses(t, st, n) <==> Uses(ls, st, n) || (st == store && n == ls.created);
      assert Uses(t, store, ls.created);
    }
  }

  lemma LeaveKeeps(ls: Listeners, store: StoreId, ch: Channel)
    requires StreamsAccountedFor(ls)
    ensures StreamsAccountedFor(Leave(ls, store, ch))
  {
    var t := Leave(ls, store, ch);
    if store in ls.live && ls.live[store].channels - {ch} == {} {
      var stream := ls.live[store].stream;
      assert Uses(ls, store, stream);
      assert forall st, n: nat :: Uses(t, st, n) <==> Uses(ls, st, n) && st != store;
      assert forall n: nat :: n in t.ended <==> n in ls.ended || n == stream;
    } else {
      assert forall st, n: nat :: Uses(t, st, n) <==> Uses(ls, st, n);
    }
  }

  lemma {:induction false} LeaveAllKeeps(ls: Listeners, stores: seq<StoreId>, ch: Channel)
    requires StreamsAccountedFor(ls)
    ensures StreamsAccountedFor(LeaveAll(ls, stores, ch))
    ensures forall st, c :: Serves(LeaveAll(ls, stores, ch), st, c) <==> Serves(ls, st, c) && !(st in stores && c == ch)
  {
    if stores != [] {
      var init := stores[..|stores| - 1];
      LeaveAllKeeps(ls, init, ch);
      LeaveKeeps(LeaveAll(ls, init, ch), stores[|stores| - 1], ch);
      LeaveServes(LeaveAll(ls, init, ch), stores[|stores| - 1], ch);
    }
  }

  /** The service: registered client objects by channel, every client object ever made, and the listeners. */
  datatype Sync<!O(==)> = Sync(registered: map<Channel, O>, objects: map<O, Client>, listeners: Listeners)

  predicate IsRegistered<O(==)>(s: Sync<O>, o: O) {
    o in s.objects && s.objects[o].channelName in s.registered && s.registered[s.objects[o].channelName] == o
  }

  /** The registered client of channel `ch` has `store` open. */
  predicate HasOpen<O(==)>(s: Sync<O>, ch: Channel, store: StoreId) {
    ch in s.registered && s.registered[ch] in s.objects && store in s.objects[s.registered[ch]].openStores
  }

  /** The two relations are inverse to each other: a store's listener serves exactly the channels of the
      registered clients that have it open. */
  ghost predicate Consistent<O>(s: Sync<O>) {
    && (forall ch | ch in s.registered :: s.registered[ch] in s.objects
                                       && s.objects[s.registered[ch]].channelName == ch)
    && StreamsAccountedFor(s.listeners)
    && (forall store, ch :: Serves(s.listeners, store, ch) <==> HasOpen(s, ch, store))
  }

  function Registered<O(==)>(s: Sync<O>, ch: Channel, o: O): Sync<O> {
    s.(registered := s.registered[ch := o], objects := s.objects[o := Client(ch, {})])
  }

  function Opened<O(==)>(s: Sync<O>, o: O, store: StoreId): Sync<O>
    requires o in s.objects
  {
    var cl := s.objects[o];
    s.(objects := s.objects[o := cl.(openStores := cl.openStores + {store})],
       listeners := Join(s.listeners, store, cl.channelName))
  }

  function Closed<O(==)>(s: Sync<O>, o: O, store: StoreId): Sync<O>
    requires o in s.objects
  {
    var cl := s.objects[o];
    s.(objects := s.objects[o := cl.(openStores := cl.openStores - {store})],
       listeners := Leave(s.listeners, store, cl.channelName))
  }

  /** The channel is gone; its stores are left in the order given. */
  function Destroyed<O(==)>(s: Sync<O>, ch: Channel, stores: seq<StoreId>): Sync<O> {
    s.(registered := s.registered - {ch}, listeners := LeaveAll(s.listeners, stores, ch))
  }

  lemma RegisteringKeeps<O>(s: Sync<O>, ch: Channel, o: O)
    requires Consistent(s) && ch !in s.registered && o !in s.objects
    ensures Consistent(Registered(s, ch, o))
    ensures IsRegistered(Registered(s, ch, o), o)
    ensures forall c, st :: HasOpen(Registered(s, ch, o), c, st) <==> HasOpen(s, c, st) && c != ch
  {
  }

  /** A request of the registered client object opens or closes the one store for its channel, and nothing else. */
  lemma RequestsDo<O>(s: Sync<O>, o: O, store: StoreId)
    requires Consistent(s) && IsRegistered(s, o)
    ensures forall c, st :: HasOpen(Opened(s, o, store), c, st)
                       <==> HasOpen(s, c, st) || (c == s.objects[o].channelName && st == store)
    ensures forall c, st :: HasOpen(Closed(s, o, store), c, st)
                       <==> HasOpen(s, c, st) && !(c == s.objects[o].channelName && st == store)
  {
  }

  /** An open request keeps the relations inverse exactly when it comes from the registered client object, or the
      client now registered for its channel has the store open anyway. */
  lemma OpeningKeeps<O>(s: Sync<O>, o: O, store: StoreId)
    requires Consistent(s) && o in s.objects
    ensures Consistent(Opened(s, o, store)) <==> IsRegistered(s, o) || HasOpen(s, s.objects[o].channelName, store)
  {
    var t, ch := Opened(s, o, store), s.objects[o].channelName;
    JoinKeeps(s.listeners, store, ch);
    JoinServes(s.listeners, store, ch);
    if IsRegistered(s, o) || HasOpen(s, ch, store) {
      forall st, c ensures Serves(t.listeners, st, c) <==> HasOpen(t, c, st) {
        assert Serves(s.listeners, st, c) <==> HasOpen(s, c, st);
      }
    } else {
      assert Serves(t.listeners, store, ch) && !HasOpen(t, ch, store);
    }
  }

  /** A close request keeps them inverse exactly when it comes from the registered client object, or the client now
      registered for its channel does not have the store open. */
  lemma ClosingKeeps<O>(s: Sync<O>, o: O, store: StoreId)
    requires Consistent(s) && o in s.objects
    ensures Consistent(Closed(s, o, store)) <==> IsRegistered(s, o) || !HasOpen(s, s.objects[o].channelName, store)
  {
    var t, ch := Closed(s, o, store), s.objects[o].channelName;
    LeaveKeeps(s.listeners, store, ch);
    LeaveServes(s.listeners, store, ch);
    if IsRegistered(s, o) || !HasOpen(s, ch, store) {
      forall st, c ensures Serves(t.listeners, st, c) <==> HasOpen(t, c, st) {
        assert Serves(s.listeners, st, c) <==> HasOpen(s, c, st);
      }
    } else {
      assert !Serves(t.listeners, store, ch) && HasOpen(t, ch, store);
    }
  }

  lemma DestroyingKeeps<O>(s: Sync<O>, ch: Channel, stores: seq<StoreId>)
    requires Consistent(s) && ch in s.registered
    requires forall st :: st in stores <==> st in s.objects[s.registered[ch]].openStores
    ensures Consistent(Destroyed(s, ch, stores))
    ensures forall st :: !Serves(Destroyed(s, ch, stores).listeners, st, ch)
    ensures forall c, st :: HasOpen(Destroyed(s, ch, stores), c, st) <==> HasOpen(s, c, st) && c != ch
  {
    var t := Destroyed(s, ch, stores);
    LeaveAllKeeps(s.listeners, stores, ch);
    forall st, c ensures Serves(t.listeners, st, c) <==> HasOpen(t, c, st) {
      assert Serves(s.listeners, st, c) <==> HasOpen(s, c, st);
    }
  }

  lemma DestroyedServes<O>(s: Sync<O>, o: O, ch: Channel, stores: seq<StoreId>)
    requires Consistent(s) && ch in s.registered && s.registered[ch] == o
    requires forall st :: st in stores <==> st in s.objects[o].openStores
    ensures Consistent(Destroyed(s, ch, stores))
    ensures forall st, c :: Serves(Destroyed(s, ch, stores).listeners, st, c) <==> Serves(s.listeners, st, c) && c != ch
  {
    DestroyingKeeps(s, ch, stores);
    LeaveAllKeeps(s.listeners, stores, ch);
    forall st, c ensures Serves(Destroyed(s, ch, stores).listeners, st, c) <==> Serves(s.listeners, st, c) && c != ch {
      assert c == ch ==> (Serves(s.listeners, st, c) <==> HasOpen(s, c, st));
    }
  }

  /** What the service is asked to do.  Client objects are numbered here; a step whose guard is false does
      nothing. */
  datatype Request =
    | Register(ch: Channel, o: nat)
    | Destroy(ch: Channel, stores: seq<StoreId>)
    | Open(o: nat, store: StoreId)
    | Close(o: nat, store: StoreId)

  const EMPTY: Sync<nat> := Sync(map[], map[], Listeners(map[], 0, []))

  ghost predicate Enabled(s: Sync<nat>, r: Request) {
    match r
    case Register(ch, o) => ch !in s.registered && o !in s.objects
    case Destroy(ch, stores) =>
      ch in s.registered && s.registered[ch] in s.objects
      && forall st :: st in stores <==> st in s.objects[s.registered[ch]].openStores
    case Open(o, _) => o in s.objects
    case Close(o, _) => o in s.objects
  }

  ghost function Serve(s: Sync<nat>, r: Request): Sync<nat> {
    if !Enabled(s, r) then s
    else
      match r
      case Register(ch, o) => Registered(s, ch, o)
      case Destroy(ch, stores) => Destroyed(s, ch, stores)
      case Open(o, store) => Opened(s, o, store)
      case Close(o, store) => Closed(s, o, store)
  }

  /** Requests come from the client object registered for its channel, or change nothing about what is open. */
  predicate Orderly(s: Sync<nat>, r: Request) {
    match r
    case Open(o, store) => o in s.objects ==> IsRegistered(s, o) || HasOpen(s, s.objects[o].channelName, store)
    case Close(o, store) => o in s.objects ==> IsRegistered(s, o) || !HasOpen(s, s.objects[o].channelName, store)
    case _ => true
  }

  /** One request keeps the relations inverse exactly when it is orderly. */
  lemma ServingKeeps(s: Sync<nat>, r: Request)
    requires Consistent(s)
    ensures Consistent(Serve(s, r)) <==> Orderly(s, r)
  {
    if Enabled(s, r) {
      match r
      case Register(ch, o) => RegisteringKeeps(s, ch, o);
      case Destroy(ch, stores) => DestroyingKeeps(s, ch, stores);
      case Open(o, store) => OpeningKeeps(s, o, store);
      case Close(o, store) => ClosingKeeps(s, o, store);
    }
  }

  /** Every run of orderly requests keeps them inverse. */
  lemma {:induction false} OrderlyRunsKeep(rs: seq<Request>)
    requires forall k | 0 <= k < |rs| :: Orderly(Run(Serve, EMPTY, rs[..k]), rs[k])
    ensures Consistent(Run(Serve, EMPTY, rs))
  {
    if rs != [] {
      var init := rs[..|rs| - 1];
      forall k | 0 <= k < |init| ensures Orderly(Run(Serve, EMPTY, init[..k]), init[k]) {
        assert init[..k] == rs[..k];
      }
      OrderlyRunsKeep(init);
      ServingKeeps(Run(Serve, EMPTY, init), rs[|rs| - 1]);
    }
  }

  /** openStore does not check that its client is still registered.  A request that is processed after its channel
      was destroyed leaves a listener that serves the dead channel, and destroying the channel again does not
      remove it. */
  lemma LateOpenLeaks(ch: Channel, store: StoreId)
    ensures var s := Run(Serve, EMPTY, [Register(ch, 0), Destroy(ch, []), Open(0, store)]);
            && ch !in s.registered && Serves(s.listeners, store, ch) && !Consistent(s)
            && forall stores :: Serve(s, Destroy(ch, stores)) == s
  {
    RunThree(Serve, EMPTY, Register(ch, 0), Destroy(ch, []), Open(0, store));
    var gone := Serve(Serve(EMPTY, Register(ch, 0)), Destroy(ch, []));
    OrderlyRunsKeep([]);
    ServingKeeps(EMPTY, Register(ch, 0));
    ServingKeeps(Serve(EMPTY, Register(ch, 0)), Destroy(ch, []));
    ServingKeeps(gone, Open(0, store));
  }

  class SyncClientChannel {
    const channelName: Channel
    var openStores: set<StoreId>

    constructor (channelName: Channel)
      ensures this.channelName == channelName && openStores == {}
    {
      this.channelName, openStores := channelName, {};
    }
  }

  class StoreSyncService {
    var syncClients: map<Channel, SyncClientChannel>
    var syncStoreListeners: map<StoreId, Listener>
    var created: nat
    var ended: seq<nat>
    /** Every client object the service has made. */
    ghost var made: set<SyncClientChannel>

    constructor ()
      ensures State() == Sync(map[], map[], Listeners(map[], 0, [])) && Consistent(State())
    {
      syncClients, syncStoreListeners, created, ended, made := map[], map[], 0, [], {};
    }

    ghost function State(): Sync<SyncClientChannel>
      reads this, made
    {
      Sync(syncClients, map o | o in made :: Client(o.channelName, o.openStores),
           Listeners(syncStoreListeners, created, ended))
    }

    method OpenNewClientSyncChannel(channelName: Channel)
      modifies this`syncClients, this`made
      ensures old(channelName in syncClients) ==> State() == old(State())
      ensures old(channelName !in syncClients) ==>
                exists o :: fresh(o) && made == old(made) + {o} && State() == Registered(old(State()), channelName, o)
      ensures old(Consistent(State())) ==> Consistent(State())
    {
      if channelName in syncClients {
        return;
      }
      ghost var s := State();
      var syncClient := new SyncClientChannel(channelName);
      syncClients := syncClients[channelName := syncClient];
      made := made + {syncClient};
      assert State() == Registered(s, channelName, syncClient);
      if Consistent(s) {
        RegisteringKeeps(s, channelName, syncClient);
      }
    }

    /** Whatever state a late open request may have left, the client leaves every store that its own table has open. */
    method CloseClientSyncChannel(channelName: Channel)
      modifies this`syncClients, this`syncStoreListeners, this`ended
      ensures old(channelName !in syncClients) ==> State() == old(State())
      ensures old(channelName in syncClients) ==>
                exists stores :: (forall st :: st in stores <==> st in old(syncClients[channelName].openStores))
                                 && State() == Destroyed(old(State()), channelName, stores)
      ensures old(Consistent(State())) ==>
                && Consistent(State())
                && forall st, c :: Serves(State().listeners, st, c) <==>
                  old(Serves(State().listeners, st, c)) && c != channelName
    {
      ghost var s := State();
      if channelName !in syncClients {
        assert Consistent(s) ==> forall st, c :: Serves(s.listeners, st, c) ==> HasOpen(s, c, st);
        return;
      }
      var syncClient := syncClients[channelName];
      var left := syncClient.openStores;
      ghost var stores: seq<StoreId> := [];
      while left != {}
        invariant left <= syncClient.openStores && syncClients == old(syncClients)
        invariant forall st :: st in stores <==> st in syncClient.openStores - left
        invariant Listeners(syncStoreListeners, created, ended) == LeaveAll(s.listeners, stores, channelName)
      {
        var storeId :| storeId in left;
        LeaveListener(storeId, channelName);
        left := left - {storeId};
        assert (stores + [storeId])[..|stores|] == stores;
        stores := stores + [storeId];
      }
      syncClients := syncClients - {channelName};
      assert State().objects == s.objects;
      assert State() == Destroyed(s, channelName, stores);
      if Consistent(s) {
        DestroyedServes(s, syncClient, channelName, stores);
      }
    }

    /** Removes a channel from a store's listener, and the listener once it serves nobody. */
    method LeaveListener(storeId: StoreId, channelName: Channel)
      modifies this`syncStoreListeners, this`ended
      ensures Listeners(syncStoreListeners, created, ended)
           == Leave(old(Listeners(syncStoreListeners, created, ended)), storeId, channelName)
    {
      if storeId in syncStoreListeners {
        var l := syncStoreListeners[storeId];
        l := l.(channels := l.channels - {channelName});
        syncStoreListeners := syncStoreListeners[storeId := l];
        if l.channels == {} {
          ended := ended + [l.stream];
          syncStoreListeners := syncStoreListeners - {storeId};
        }
      }
    }

    /** `exists` says whether the manager knows the store; `ok` is false when an error response is sent. */
    method OpenStore(syncClient: SyncClientChannel, storeId: StoreId, known: bool) returns (ok: bool)
      requires syncClient in made
      modifies this`syncStoreListeners, this`created, syncClient`openStores
      ensures ok == (storeId != "" && known)
      ensures State() == if ok then Opened(old(State()), syncClient, storeId) else old(State())
    {
      if storeId == "" || !known {
        return false;
      }
      ghost var s := State();
      syncClient.openStores := syncClient.openStores + {storeId};
      if storeId !in syncStoreListeners {
        syncStoreListeners := syncStoreListeners[storeId := Listener(created, {})];
        created := created + 1;
      }
      var l := syncStoreListeners[storeId];
      syncStoreListeners := syncStoreListeners[storeId := l.(channels := l.channels + {syncClient.channelName})];
      assert State().objects == Opened(s, syncClient, storeId).objects;
      assert {} + {syncClient.channelName} == {syncClient.channelName};
      assert State().listeners == Join(s.listeners, storeId, syncClient.channelName);
      return true;
    }

    method CloseStore(syncClient: SyncClientChannel, storeId: StoreId) returns (ok: bool)
      requires syncClient in made
      modifies this`syncStoreListeners, this`ended, syncClient`openStores
      ensures ok == (storeId != "")
      ensures State() == if ok then Closed(old(State()), syncClient, storeId) else old(State())
    {
      if storeId == "" {
        return false;
      }
      ghost var s := State();
      syncClient.openStores := syncClient.openStores - {storeId};
      LeaveListener(storeId, syncClient.channelName);
      assert State().objects == Closed(s, syncClient, storeId).objects;
      return true;
    }
  }
}
