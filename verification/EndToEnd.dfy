/** From raw frames to bus channels: the connection's trace grammar is what the server needs of its events, the
    server's callbacks are what the endpoint needs, and so the endpoint's mappings follow the clients' frames. */
module EndToEnd {
  import opened Options
  import opened ConnectionGrammar
  import opened Sequences
  import opened StompConns
  import opened StompServers
  import opened Endpoints

  /** The frames that each connection has read. */
  type Wires = map<ConnId, seq<Input>>

  function Sent(prefixes: seq<string>, wires: Wires, c: ConnId): Session {
    if c in wires then SessionAfter(prefixes, wires[c]) else Session(Connecting, [])
  }

  /** The server has handled, in any interleaving, a first part of what each connection sent. */
  ghost predicate Handles(prefixes: seq<string>, wires: Wires, history: seq<ConnEvent>) {
    forall c :: Project(history, c) <= Sent(prefixes, wires, c).trace
  }

  ghost predicate HandlesAll(prefixes: seq<string>, wires: Wires, history: seq<ConnEvent>) {
    forall c :: Project(history, c) == Sent(prefixes, wires, c).trace
  }

  lemma AbsorbKeepsTrace(prefixes: seq<string>, s: Session, input: Input)
    requires PhaseOf(s.trace) == Some(s.phase)
    ensures PhaseOf(Absorb(prefixes, s, input).trace) == Some(Absorb(prefixes, s, input).phase)
  {
    var e := InputEvent(s.phase, prefixes, input);
    if s.phase != Gone && e.Some? {
      InputEventAllowed(s.phase, prefixes, input);
      PhaseExtends(s.trace, e.value);
    }
  }

  lemma {:induction false} SessionIsTrace(prefixes: seq<string>, inputs: seq<Input>)
    ensures PhaseOf(SessionAfter(prefixes, inputs).trace) == Some(SessionAfter(prefixes, inputs).phase)
  {
    if inputs != [] {
      var init, last := inputs[..|inputs| - 1], inputs[|inputs| - 1];
      SessionIsTrace(prefixes, init);
      AbsorbKeepsTrace(prefixes, SessionAfter(prefixes, init), last);
    }
  }

  lemma {:induction false} PrefixIsTrace(trace: seq<Event>, prefix: seq<Event>)
    requires PhaseOf(trace).Some? && prefix <= trace
    ensures PhaseOf(prefix).Some?
  {
    if prefix != trace {
      PrefixIsTrace(trace[..|trace| - 1], prefix);
    }
  }

  /** Whatever frames the connections read, and however their events interleave, the server sees traces. */
  lemma FramesAreWellFormed(prefixes: seq<string>, wires: Wires, history: seq<ConnEvent>)
    requires Handles(prefixes, wires, history)
    ensures WellFormed(history)
  {
    forall c ensures PhaseOf(Project(history, c)).Some? {
      if c in wires {
        SessionIsTrace(prefixes, wires[c]);
      }
      PrefixIsTrace(Sent(prefixes, wires, c).trace, Project(history, c));
    }
  }

  /** `id` is the mapping id of a subscription that is live and names the channel `ch`. */
  ghost predicate Served(cfg: Config, history: seq<ConnEvent>, ch: ChannelName, id: string) {
    exists c, s, d :: Live(history, c, s, d) && Names(cfg, d, ch) && id == MappingId(Key(c, s))
  }

  lemma ExpectedIsServed(cfg: Config, history: seq<ConnEvent>, index: Index, open: map<Key, Destination>,
                         ch: ChannelName, id: string)
    requires Mirrors(history, index) && Balances(open, index)
    ensures id in Expected(cfg, open, ch) <==> Served(cfg, history, ch, id)
  {
  }

  /** The mappings of the endpoint are exactly the subscriptions that the clients' frames leave live. */
  lemma MappingsFollowFrames(prefixes: seq<string>, wires: Wires, history: seq<ConnEvent>,
                             index: Index, cbs: seq<Callback>, cfg: Config, mappings: Mappings)
    requires Handles(prefixes, wires, history)
    requires Faithful(history, index, cbs) && MirrorsLedger(cfg, cbs, mappings) && HashFree(cbs)
    ensures forall ch, id :: id in Subs(mappings, ch) <==> Served(cfg, history, ch, id)
  {
    FramesAreWellFormed(prefixes, wires, history);
    forall ch, id ensures id in Subs(mappings, ch) <==> Served(cfg, history, ch, id) {
      ExpectedIsServed(cfg, history, index, Ledger(cbs).value, ch, id);
    }
  }

  /** Once everything sent is handled, live means live in the connection's own table. */
  lemma DrainedLiveIsOwn(prefixes: seq<string>, wires: Wires, history: seq<ConnEvent>, c: ConnId, s: SubId,
                         d: Destination)
    requires HandlesAll(prefixes, wires, history)
    ensures Live(history, c, s, d) <==> LiveAt(Some(Sent(prefixes, wires, c).phase), s, d)
  {
    if c in wires {
      SessionIsTrace(prefixes, wires[c]);
    }
    assert Project(history, c) == Sent(prefixes, wires, c).trace;
  }

  /** After a connection has ended, however it ended, and its events are handled, no mapping keeps a trace of it. */
  lemma EndedConnectionLeavesNothing(prefixes: seq<string>, wires: Wires, history: seq<ConnEvent>,
                                     index: Index, cbs: seq<Callback>, cfg: Config, mappings: Mappings, c: ConnId)
    requires HandlesAll(prefixes, wires, history) && Sent(prefixes, wires, c).phase == Gone
    requires '#' !in c && forall e | e in history :: '#' !in e.conn
    requires Faithful(history, index, cbs) && MirrorsLedger(cfg, cbs, mappings) && HashFree(cbs)
    ensures forall ch, s :: MappingId(Key(c, s)) !in Subs(mappings, ch)
  {
    MappingsFollowFrames(prefixes, wires, history, index, cbs, cfg, mappings);
    forall ch, s ensures MappingId(Key(c, s)) !in Subs(mappings, ch) {
      if Served(cfg, history, ch, MappingId(Key(c, s))) {
        var c', s', d :| Live(history, c', s', d) && Names(cfg, d, ch) &&
              MappingId(Key(c, s)) == MappingId(Key(c', s'));
        SilentHasNothing(history, c');
        MappingIdInjective(Key(c, s), Key(c', s'));
        DrainedLiveIsOwn(prefixes, wires, history, c, s, d);
      }
    }
  }

  /** A connection with something live has had an event handled. */
  lemma {:induction false} SilentHasNothing(history: seq<ConnEvent>, c: ConnId)
    ensures Project(history, c) == [] || exists e :: e in history && e.conn == c
  {
    if history != [] {
      SilentHasNothing(history[..|history| - 1], c);
      if Project(history, c) != [] && Project(history[..|history| - 1], c) == [] {
        assert history[|history| - 1].conn == c;
      }
    }
  }

  /** The server with the endpoint's callbacks registered (transport/fabric/endpoint.go:182-186). */
  class FabricBroker {
    const server: StompServer
    const endpoint: FabricEndpoint

    constructor (appPrefixes: seq<string>, topicPrefix: string, userQueuePrefix: string, busChannels: set<ChannelName>)
      ensures Valid() && fresh(server) && fresh(endpoint) && server.history == []
    {
      server := new StompServer(appPrefixes);
      endpoint := new FabricEndpoint(topicPrefix, userQueuePrefix, busChannels);
    }

    ghost predicate Valid()
      reads this, server, endpoint
    {
      && server.Valid() && endpoint.Valid() && endpoint.callbacks == server.callbacks
      && ((forall e | e in server.history :: '#' !in e.conn) ==> HashFree(server.callbacks))
    }

    /** One event of the server's loop, with the callbacks it makes.  The endpoint reads nothing of the server, so
        that the callbacks run after the event instead of during it makes no difference. */
    method Handle(e: ConnEvent)
      requires Valid()
      modifies server, endpoint
      ensures Valid() && server.history == old(server.history) + [e]
    {
      ghost var history, index, cbs := server.history, server.subscriptionsMap, server.callbacks;
      var from := |server.callbacks|;
      server.HandleConnectionEvent(e);
      CallbacksNameConnection(index, e, server.callbacks[from..]);
      assert server.callbacks == cbs + server.callbacks[from..];
      assert forall d | d in history :: d in server.history;
      Deliver(from);
    }

    method Deliver(from: nat)
      requires server.Valid() && endpoint.Valid() && from <= |server.callbacks| &&
                 endpoint.callbacks == server.callbacks[..from]
      modifies endpoint
      ensures endpoint.Valid() && endpoint.callbacks == server.callbacks
    {
      var i := from;
      while i < |server.callbacks|
        invariant from <= i <= |server.callbacks| && endpoint.Valid() && endpoint.callbacks == server.callbacks[..i]
      {
        DeliverOne(server.callbacks[i]);
        i := i + 1;
      }
    }

    method DeliverOne(cb: Callback)
      requires endpoint.Valid()
      modifies endpoint
      ensures endpoint.Valid() && endpoint.callbacks == old(endpoint.callbacks) + [cb]
    {
      match cb
      case Subscribed(c, s, d) => endpoint.AddSubscription(c, s, d);
      case Unsubscribed(c, s, d) => endpoint.RemoveSubscription(c, s, d);
    }

    /** After any events of any connections, each channel's mapping is exactly the subscriptions that the clients'
        frames leave live and that name it. */
    lemma MappingsAreServed(prefixes: seq<string>, wires: Wires)
      requires Valid() && Handles(prefixes, wires, server.history) && forall e | e in server.history :: '#' !in e.conn
      ensures forall ch, id :: id in Subs(endpoint.chanMappings, ch) <==>
                Served(endpoint.config, server.history, ch, id)
    {
      MappingsFollowFrames(prefixes, wires, server.history, server.subscriptionsMap, server.callbacks,
                           endpoint.config, endpoint.chanMappings);
    }

    /** A broadcast sends one frame for each subscription to the destination that the clients' frames leave live. */
    method Broadcast(d: Destination, ghost prefixes: seq<string>, ghost wires: Wires) returns (sent: seq<Key>)
      requires Valid() && Handles(prefixes, wires, server.history)
      ensures Distinct(sent) && forall k :: k in sent <==> Live(server.history, k.conn, k.sub, d)
    {
      FramesAreWellFormed(prefixes, wires, server.history);
      sent := server.SendFrame(d);
    }
  }

  lemma CallbacksNameConnection(index: Index, e: ConnEvent, added: seq<Callback>)
    requires CallbacksFor(index, e, added)
    ensures forall cb | cb in added :: cb.conn == e.conn
  {
  }
}
