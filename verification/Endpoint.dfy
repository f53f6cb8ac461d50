/** The Fabric endpoint, transport/fabric/endpoint.go: it mirrors STOMP subscriptions per bus channel and keeps a
    fallback forwarder on every channel that has subscribers and no route. */
module Endpoints {
  import opened Options
  import opened ConnectionGrammar
  import opened StompServers

  type ChannelName = string

  const INTERNALPREFIX := "_ranchInternal/"

  datatype Config = Config(topicPrefix: string, userQueuePrefix: string)

  function EnsureTrailingSlash(s: string): (r: string)
    ensures r == s || r == s + "/"
    ensures r == "" || r[|r| - 1] == '/'
    ensures s == "" || s[|s| - 1] == '/' ==> r == s
  {
    if s != "" && s[|s| - 1] != '/' then s + "/" else s
  }

  function ChannelNameFromSubscription(cfg: Config, d: Destination): Option<ChannelName> {
    if cfg.topicPrefix <= d then Some(d[|cfg.topicPrefix|..])
    else if cfg.userQueuePrefix != "" && cfg.userQueuePrefix <= d then Some(d[|cfg.userQueuePrefix|..])
    else None
  }

  predicate IsProtected(ch: ChannelName) {
    INTERNALPREFIX <= ch
  }

  /** A channel is named by its topic; and by its user queue, if there are user queues and it is not a topic. */
  lemma NamedExactly(cfg: Config, d: Destination, ch: ChannelName)
    ensures ChannelNameFromSubscription(cfg, d) == Some(ch)
       <==> || d == cfg.topicPrefix + ch
            || (cfg.userQueuePrefix != "" && d == cfg.userQueuePrefix + ch
                && forall other :: d != cfg.topicPrefix + other)
  {
    if cfg.topicPrefix <= d {
      assert d == cfg.topicPrefix + d[|cfg.topicPrefix|..];
    }
    if cfg.userQueuePrefix <= d {
      assert d == cfg.userQueuePrefix + d[|cfg.userQueuePrefix|..];
    }
    if d == cfg.topicPrefix + ch {
      assert d[|cfg.topicPrefix|..] == ch;
    }
    if d == cfg.userQueuePrefix + ch {
      assert d[|cfg.userQueuePrefix|..] == ch;
    }
  }

  /** The channels that clients cannot subscribe to are those named under the bus's internal prefix. */
  lemma ProtectedExactly(ch: ChannelName)
    ensures IsProtected(ch) <==> exists rest :: ch == "_ranchInternal/" + rest
  {
    if IsProtected(ch) {
      assert ch == "_ranchInternal/" + ch[15..];
    }
  }

  /** A subscription to `d` is mirrored under the channel `ch`. */
  predicate Names(cfg: Config, d: Destination, ch: ChannelName) {
    ChannelNameFromSubscription(cfg, d) == Some(ch) && !IsProtected(ch)
  }

  function MappingId(k: Key): string {
    k.conn + "#" + k.sub
  }

  lemma FirstHash(c: string, tail: string, i: nat)
    requires '#' !in c && i < |c + "#" + tail|
    ensures |c| <= i || (c + "#" + tail)[i] != '#'
    ensures i == |c| ==> (c + "#" + tail)[i] == '#'
  {
  }

  /** The first '#' ends the connection id, so different subscriptions have different mapping ids. */
  lemma MappingIdInjective(k: Key, l: Key)
    requires '#' !in k.conn && '#' !in l.conn && MappingId(k) == MappingId(l)
    ensures k == l
  {
    FirstHash(k.conn, k.sub, |k.conn|);
    FirstHash(l.conn, l.sub, |l.conn|);
    FirstHash(k.conn, k.sub, |l.conn|);
    FirstHash(l.conn, l.sub, |k.conn|);
    assert k.conn == MappingId(k)[..|k.conn|] && l.conn == MappingId(l)[..|l.conn|];
    assert k.sub == MappingId(k)[|k.conn| + 1..] && l.sub == MappingId(l)[|l.conn| + 1..];
  }

  /** A connection id without '#' is necessary, too. */
  lemma MappingIdClash()
    ensures MappingId(Key("a#b", "c")) == MappingId(Key("a", "b#c"))
  {
  }

  /** `handler` is the number of the fallback forwarder. */
  datatype ChannelMapping = ChannelMapping(subs: set<string>, handler: Option<nat>, autoCreated: bool)

  type Mappings = map<ChannelName, ChannelMapping>

  function Subs(mappings: Mappings, ch: ChannelName): set<string> {
    if ch in mappings then mappings[ch].subs else {}
  }

  /** The subscriptions under `ch` after one more callback. */
  function SubsAfter(cfg: Config, mappings: Mappings, cb: Callback, ch: ChannelName): set<string> {
    var id := MappingId(Key(cb.conn, cb.sub));
    if cb.Subscribed? then if Names(cfg, cb.destination, ch) then Subs(mappings, ch) + {id} else Subs(mappings, ch)
    else if ChannelNameFromSubscription(cfg, cb.destination) == Some(ch) then Subs(mappings, ch) - {id}
    else Subs(mappings, ch)
  }

  /** The mapping ids of the open subscriptions that name `ch`. */
  function Expected(cfg: Config, open: map<Key, Destination>, ch: ChannelName): set<string> {
    set k | k in open && Names(cfg, open[k], ch) :: MappingId(k)
  }

  ghost predicate HashFree(cbs: seq<Callback>) {
    forall cb | cb in cbs :: '#' !in cb.conn
  }

  /** The mappings mirror the subscriptions that the callbacks so far leave open. */
  ghost predicate MirrorsLedger(cfg: Config, cbs: seq<Callback>, mappings: Mappings) {
    HashFree(cbs) && Ledger(cbs).Some? ==> forall ch :: Subs(mappings, ch) == Expected(cfg, Ledger(cbs).value, ch)
  }

  lemma {:induction false} LedgerHashFree(cbs: seq<Callback>)
    requires HashFree(cbs) && Ledger(cbs).Some?
    ensures forall k | k in Ledger(cbs).value :: '#' !in k.conn
  {
    if cbs != [] {
      LedgerHashFree(cbs[..|cbs| - 1]);
    }
  }

  lemma ExpectedGrows(cfg: Config, open: map<Key, Destination>, k: Key, d: Destination, ch: ChannelName)
    requires k !in open
    ensures Expected(cfg, open[k := d], ch) == Expected(cfg, open, ch) + if Names(cfg, d, ch)
              then {MappingId(k)} else {}
  {
  }

  lemma ExpectedShrinks(cfg: Config, open: map<Key, Destination>, k: Key, ch: ChannelName)
    requires k in open && forall l | l in open :: '#' !in l.conn
    ensures Expected(cfg, open - {k}, ch)
         == Expected(cfg, open, ch) - if Names(cfg, open[k], ch) then {MappingId(k)} else {}
  {
    var after := open - {k};
    forall id ensures id in Expected(cfg, after, ch) <==>
        id in Expected(cfg, open, ch) && !(Names(cfg, open[k], ch) && id == MappingId(k))
    {
      if id in Expected(cfg, open, ch) && !(Names(cfg, open[k], ch) && id == MappingId(k)) {
        var l :| l in open && Names(cfg, open[l], ch) && MappingId(l) == id;
        assert l in after;
      }
      if id in Expected(cfg, after, ch) {
        var l :| l in after && Names(cfg, after[l], ch) && MappingId(l) == id;
        assert l in open && l != k;
        if id == MappingId(k) {
          MappingIdInjective(k, l);
        }
      }
    }
  }

  /** One callback of a well-formed sequence keeps the mirror. */
  lemma MirrorStep(cfg: Config, cbs: seq<Callback>, mappings: Mappings, cb: Callback, next: Mappings)
    requires MirrorsLedger(cfg, cbs, mappings)
    requires forall ch :: Subs(next, ch) == SubsAfter(cfg, mappings, cb, ch)
    ensures MirrorsLedger(cfg, cbs + [cb], next)
  {
    var all := cbs + [cb];
    if HashFree(all) && Ledger(all).Some? {
      assert all[..|cbs|] == cbs;
      assert forall c | c in cbs :: c in all;
      LedgerExtends(cbs, cb);
      LedgerHashFree(cbs);
      var open, k := Ledger(cbs).value, Key(cb.conn, cb.sub);
      forall ch ensures Subs(next, ch) == Expected(cfg, Ledger(all).value, ch) {
        assert Subs(mappings, ch) == Expected(cfg, open, ch);
        if cb.Subscribed? {
          ExpectedGrows(cfg, open, k, cb.destination, ch);
        } else {
          ExpectedShrinks(cfg, open, k, ch);
          if ChannelNameFromSubscription(cfg, cb.destination) == Some(ch) && IsProtected(ch) {
            assert Expected(cfg, open, ch) == {};
          }
        }
      }
    }
  }

  /** No mapping is empty; every open forwarder belongs to one mapping, or was handed over to be closed; and only
      a mapping that still has its forwarder owns an auto-created channel. */
  ghost predicate Owned(mappings: Mappings, forwarders: map<nat, ChannelName>, detached: set<nat>, next: nat) {
    && (forall ch | ch in mappings :: mappings[ch].subs != {})
    && (forall ch | ch in mappings && mappings[ch].handler.Some? ::
          mappings[ch].handler.value in forwarders && forwarders[mappings[ch].handler.value] == ch)
    && (forall n | n in forwarders && n !in detached ::
          forwarders[n] in mappings && mappings[forwarders[n]].handler == Some(n))
    && (forall ch | ch in mappings && mappings[ch].autoCreated :: mappings[ch].handler.Some?)
    && (forall n | n in forwarders || n in detached :: n < next)
  }

  datatype MonitorEvent = FabricSubscribe(ch: ChannelName) | FabricUnsubscribe(ch: ChannelName)

  class FabricEndpoint {
    const config: Config
    var chanMappings: Mappings
    /** The bus: which channels exist, and the forwarders that are open on them, by number. */
    var busChannels: set<ChannelName>
    var forwarders: map<nat, ChannelName>
    var nextForwarder: nat
    /** The channels that have a route. */
    var routes: set<ChannelName>
    var monitorEvents: seq<MonitorEvent>
    /** The callbacks handled so far, and the forwarders handed to the router to close. */
    ghost var callbacks: seq<Callback>
    ghost var detached: set<nat>

    constructor (topicPrefix: string, userQueuePrefix: string, busChannels: set<ChannelName>)
      ensures Valid() && callbacks == [] && chanMappings == map[]
      ensures config == Config(EnsureTrailingSlash(topicPrefix), EnsureTrailingSlash(userQueuePrefix))
    {
      config := Config(EnsureTrailingSlash(topicPrefix), EnsureTrailingSlash(userQueuePrefix));
      chanMappings, this.busChannels, forwarders, nextForwarder, routes := map[], busChannels, map[], 0, {};
      monitorEvents, callbacks, detached := [], [], {};
    }

    ghost predicate Valid()
      reads this
    {
      && MirrorsLedger(config, callbacks, chanMappings)
      && Owned(chanMappings, forwarders, detached, nextForwarder)
      && forall ch | ch in chanMappings :: !IsProtected(ch)
    }

    /** A mapping and its fallback forwarder, as they are made for the first subscription to `ch`. */
    method NewMapping(ch: ChannelName) returns (mapping: ChannelMapping)
      requires forall n | n in forwarders || n in detached :: n < nextForwarder
      modifies this`busChannels, this`forwarders, this`nextForwarder
      ensures mapping.subs == {} && (mapping.handler.Some? <==> ch !in routes)
      ensures mapping.autoCreated <==> ch !in routes && ch !in old(busChannels)
      ensures busChannels == if ch in routes then old(busChannels) else old(busChannels) + {ch}
      ensures nextForwarder >= old(nextForwarder) && forall n | n in forwarders :: n < nextForwarder
      ensures mapping.handler.None? ==> forwarders == old(forwarders)
      ensures mapping.handler.Some? ==>
                mapping.handler.value >= old(nextForwarder) &&
                  forwarders == old(forwarders)[mapping.handler.value := ch]
    {
      var handler, autoCreated := None, false;
      if ch !in routes {
        if ch !in busChannels {
          busChannels := busChannels + {ch};
          autoCreated := true;
        }
        handler := Some(nextForwarder);
        forwarders := forwarders[nextForwarder := ch];
        nextForwarder := nextForwarder + 1;
      }
      mapping := ChannelMapping({}, handler, autoCreated);
    }

    method MapSubscription(ch: ChannelName, mappingId: string)
      requires Owned(chanMappings, forwarders, detached, nextForwarder)
      modifies this`chanMappings, this`forwarders, this`nextForwarder, this`busChannels, this`monitorEvents
      ensures Owned(chanMappings, forwarders, detached, nextForwarder)
      ensures ch in chanMappings && chanMappings == old(chanMappings)[ch := chanMappings[ch]]
      ensures chanMappings[ch].subs == Subs(old(chanMappings), ch) + {mappingId}
      ensures ch in old(chanMappings) ==>
                chanMappings[ch].(subs := {}) == old(chanMappings)[ch].(subs := {}) && busChannels == old(busChannels)
      ensures ch !in old(chanMappings) ==>
                && (chanMappings[ch].handler.Some? <==> ch !in routes)
                && (chanMappings[ch].autoCreated <==> ch !in routes && ch !in old(busChannels))
                && busChannels == if ch in routes then old(busChannels) else old(busChannels) + {ch}
      ensures monitorEvents == old(monitorEvents) + [FabricSubscribe(ch)]
    {
      var mapping;
      if ch in chanMappings {
        mapping := chanMappings[ch];
      } else {
        mapping := NewMapping(ch);
      }
      mapping := mapping.(subs := mapping.subs + {mappingId});
      chanMappings := chanMappings[ch := mapping];
      monitorEvents := monitorEvents + [FabricSubscribe(ch)];
    }

    method AddSubscription(conId: ConnId, subId: SubId, destination: Destination)
      requires Valid()
      modifies this
      ensures Valid() && callbacks == old(callbacks) + [Subscribed(conId, subId, destination)]
      ensures routes == old(routes) && detached == old(detached)
      ensures forall ch :: Subs(chanMappings, ch)
                        == SubsAfter(config, old(chanMappings), Subscribed(conId, subId, destination), ch)
      ensures forall ch | ch in old(chanMappings) ::
                ch in chanMappings && chanMappings[ch].(subs := {}) == old(chanMappings)[ch].(subs := {})
      ensures forall ch | ch in chanMappings && ch !in old(chanMappings) ::
                && Names(config, destination, ch)
                && (chanMappings[ch].handler.Some? <==> ch !in routes)
                && (chanMappings[ch].autoCreated <==> ch !in routes && ch !in old(busChannels))
      ensures busChannels == old(busChannels) + (set ch | ch in chanMappings && ch !in old(chanMappings) &&
                ch !in routes)
      ensures monitorEvents == old(monitorEvents) + (
                var ch := ChannelNameFromSubscription(config, destination);
                if ch.Some? && !IsProtected(ch.value) then [FabricSubscribe(ch.value)] else [])
    {
      ghost var before, cb := chanMappings, Subscribed(conId, subId, destination);
      var named := ChannelNameFromSubscription(config, destination);
      if named.Some? && !IsProtected(named.value) {
        MapSubscription(named.value, conId + "#" + subId);
      }
      callbacks := callbacks + [cb];
      MirrorStep(config, old(callbacks), before, cb, chanMappings);
    }

    /** A bus channel is destroyed only with its last subscription, and only while it is auto-created, which it
        stops being as soon as a route takes over. */
    method RemoveSubscription(conId: ConnId, subId: SubId, destination: Destination)
      requires Valid()
      modifies this
      ensures Valid() && callbacks == old(callbacks) + [Unsubscribed(conId, subId, destination)]
      ensures routes == old(routes) && detached == old(detached)
      ensures forall ch :: Subs(chanMappings, ch)
                        == SubsAfter(config, old(chanMappings), Unsubscribed(conId, subId, destination), ch)
      ensures monitorEvents == old(monitorEvents) + (
                var ch := ChannelNameFromSubscription(config, destination);
                if ch.Some? && MappingId(Key(conId, subId)) in Subs(old(chanMappings), ch.value)
                then [FabricUnsubscribe(ch.value)] else [])
      ensures forall ch | ch in chanMappings ::
                ch in old(chanMappings) && chanMappings[ch].(subs := {}) == old(chanMappings)[ch].(subs := {})
      ensures busChannels == old(busChannels) -
                             set ch | ch in old(chanMappings) && ch !in chanMappings &&
                               old(chanMappings)[ch].autoCreated
      ensures forall ch | ch in old(chanMappings) && ch !in chanMappings ::
                old(chanMappings)[ch].subs == {conId + "#" + subId}
    {
      ghost var before, cb := chanMappings, Unsubscribed(conId, subId, destination);
      var named := ChannelNameFromSubscription(config, destination);
      if named.Some? && named.value in chanMappings {
        var ch := named.value;
        if conId + "#" + subId in chanMappings[ch].subs {
          DropSubscription(ch, conId + "#" + subId);
        }
      }
      callbacks := callbacks + [cb];
      MirrorStep(config, old(callbacks), before, cb, chanMappings);
    }

    method DropSubscription(ch: ChannelName, mappingId: string)
      requires Owned(chanMappings, forwarders, detached, nextForwarder)
      requires ch in chanMappings && mappingId in chanMappings[ch].subs
      modifies this`chanMappings, this`forwarders, this`busChannels, this`monitorEvents
      ensures Owned(chanMappings, forwarders, detached, nextForwarder)
      ensures var rest := old(chanMappings)[ch].subs - {mappingId};
              chanMappings == if rest == {} then old(chanMappings) - {ch}
                              else old(chanMappings)[ch := old(chanMappings)[ch].(subs := rest)]
      ensures busChannels == if ch !in chanMappings && old(chanMappings)[ch].autoCreated
                             then old(busChannels) - {ch} else old(busChannels)
      ensures monitorEvents == old(monitorEvents) + [FabricUnsubscribe(ch)]
    {
      var mapping := chanMappings[ch];
      mapping := mapping.(subs := mapping.subs - {mappingId});
      chanMappings := chanMappings[ch := mapping];
      if mapping.subs == {} {
        if mapping.handler.Some? {
          forwarders := forwarders - {mapping.handler.value};
        }
        chanMappings := chanMappings - {ch};
        if mapping.autoCreated {
          busChannels := busChannels - {ch};
        }
      }
      monitorEvents := monitorEvents + [FabricUnsubscribe(ch)];
    }

    /** Takes the forwarder of a channel away for the router to close; the subscriptions stay. */
    method DetachSubscriptionForwarder(ch: ChannelName) returns (handler: Option<nat>)
      requires Valid()
      modifies this`chanMappings, this`detached
      ensures Valid()
      ensures handler == if ch in old(chanMappings) then old(chanMappings)[ch].handler else None
      ensures chanMappings == if ch in old(chanMappings)
                              then old(chanMappings)[ch := ChannelMapping(old(chanMappings)[ch].subs, None, false)]
                              else old(chanMappings)
      ensures detached == old(detached) + if handler.Some? then {handler.value} else {}
    {
      handler := None;
      if ch in chanMappings {
        handler := chanMappings[ch].handler;
        ghost var before := chanMappings;
        chanMappings := chanMappings[ch := chanMappings[ch].(handler := None, autoCreated := false)];
        if handler.Some? {
          detached := detached + {handler.value};
        }
        assert forall c :: Subs(chanMappings, c) == Subs(before, c);
      }
    }

    /** The router closes a forwarder that was handed to it. */
    method CloseForwarder(handler: nat)
      requires Valid() && handler in detached &&
                 forall ch | ch in chanMappings :: chanMappings[ch].handler != Some(handler)
      modifies this`forwarders, this`detached
      ensures Valid() && forwarders == old(forwarders) - {handler} && detached == old(detached) - {handler}
    {
      forwarders := forwarders - {handler};
      detached := detached - {handler};
    }

    /** Routes come and go under the router's own lock. */
    method SetRoute(ch: ChannelName, registered: bool)
      requires Valid()
      modifies this`routes
      ensures Valid() && routes == if registered then old(routes) + {ch} else old(routes) - {ch}
    {
      routes := if registered then routes + {ch} else routes - {ch};
    }
  }
}
