/** The route table of transport/fabric/router.go over the endpoint, one call at a time.  Takeover has the calls
    interleaved. */
module Routers {
  import opened Options
  import opened ConnectionGrammar
  import opened Endpoints

  datatype Route = Route(channel: ChannelName, destination: Destination)

  datatype Direction = RequestDir | ResponseDir | OtherDir

  datatype Error = NoChannelName | RouterClosed | UnsupportedDirection | NoSuchChannel | AlreadyRegistered | Cancelled
    | NotRegistered

  /** strings.TrimPrefix(channel, "/") */
  function TrimSlash(ch: ChannelName): string {
    if ch != "" && ch[0] == '/' then ch[1..] else ch
  }

  function TopicDestination(cfg: Config, ch: ChannelName): Destination {
    (if cfg.topicPrefix != "" then EnsureTrailingSlash(cfg.topicPrefix) else "/topic/") + TrimSlash(ch)
  }

  /** The default destination of a route is one whose subscribers the endpoint files under the same channel, unless
      the channel name begins with a slash: then they are filed under the name without it.  An endpoint without a topic
      prefix files them under the whole destination, which is no channel of a route unless it is named so. */
  lemma DefaultDestinationNamesChannel(topicPrefix: string, userQueuePrefix: string, ch: ChannelName, rest: string)
    ensures var cfg := Config(EnsureTrailingSlash(topicPrefix), EnsureTrailingSlash(userQueuePrefix));
            var filed := ChannelNameFromSubscription(cfg, TopicDestination(cfg, ch));
            && (topicPrefix != "" ==> (filed == Some(ch) <==> ch == "" || ch[0] != '/'))
            && (topicPrefix != "" && ch == "/" + rest ==> filed == Some(rest))
            && (topicPrefix == "" && (ch == "" || ch[0] != '/') ==> filed == Some("/topic/" + ch))
            && (topicPrefix == "" && ch == "/" + rest ==> filed == Some("/topic/" + rest))
  {
    assert ch == "/" + rest ==> ch[1..] == rest;
  }

  /** The open streams are those of the handles in the table, each under its own channel. */
  ghost predicate Table(routes: map<ChannelName, nat>, handles: seq<Route>, openStreams: set<nat>) {
    && (forall ch | ch in routes ::
          routes[ch] in openStreams && routes[ch] < |handles| && handles[routes[ch]].channel == ch)
    && (forall h | h in openStreams :: h < |handles| && handles[h].channel in routes && routes[handles[h].channel] == h)
  }

  class MessageRouter {
    const endpoint: FabricEndpoint
    var routes: map<ChannelName, nat>
    var closed: bool
    /** Every handle made for a registration, with its route; and the handles whose stream is not closed. */
    var handles: seq<Route>
    var openStreams: set<nat>

    constructor (endpoint: FabricEndpoint)
      requires endpoint.Valid() && endpoint.routes == {}
      ensures Valid() && this.endpoint == endpoint && routes == map[] && !closed
    {
      this.endpoint, routes, closed, handles, openStreams := endpoint, map[], false, [], {};
    }

    /** No channel has both a route and a fallback forwarder. */
    ghost predicate Valid()
      reads this, endpoint
    {
      && endpoint.Valid() && endpoint.routes == routes.Keys
      && Table(routes, handles, openStreams)
      && (forall ch | ch in routes && ch in endpoint.chanMappings :: endpoint.chanMappings[ch].handler.None?)
      && (closed ==> routes == map[])
    }

    method RegisterRoute(channel: ChannelName, destination: Destination,
                         direction: Direction) returns (err: Option<Error>)
      requires Valid()
      modifies this`routes, this`handles, this`openStreams
      modifies endpoint`chanMappings, endpoint`detached, endpoint`forwarders, endpoint`routes
      ensures Valid()
      ensures err.None? <==> channel != "" && !closed && direction != OtherDir
                             && channel in endpoint.busChannels && channel !in old(routes)
      ensures err.Some? ==> && routes == old(routes) && openStreams == old(openStreams)
                            && endpoint.chanMappings == old(endpoint.chanMappings)
                            && endpoint.forwarders == old(endpoint.forwarders)
      ensures err.None? ==> && routes == old(routes)[channel := |old(handles)|]
                            && openStreams == old(openStreams) + {|old(handles)|}
                            && handles == old(handles) + [Route(channel, if destination == "" then
                                 TopicDestination(endpoint.config, channel) else destination)]
      ensures endpoint.chanMappings.Keys == old(endpoint.chanMappings.Keys)
      ensures forall ch | ch in endpoint.chanMappings :: endpoint.chanMappings[ch] ==
                if err.None? && ch == channel then ChannelMapping(old(endpoint.chanMappings)[ch].subs, None, false)
                else old(endpoint.chanMappings)[ch]
      ensures err.None? ==> forall n | n in endpoint.forwarders &&
                n !in endpoint.detached :: endpoint.forwarders[n] != channel
    {
      if channel == "" {
        return Some(NoChannelName);
      }
      var dest := if destination == "" then TopicDestination(endpoint.config, channel) else destination;
      if closed {
        return Some(RouterClosed);
      }
      if direction == OtherDir {
        return Some(UnsupportedDirection);
      }
      if channel !in endpoint.busChannels {
        return Some(NoSuchChannel);
      }
      if channel in routes {
        return Some(AlreadyRegistered);
      }
      Enter(Route(channel, dest));
      endpoint.SetRoute(channel, true);
      SwapForwarder(channel);
      return None;
    }

    method Enter(route: Route)
      requires Table(routes, handles, openStreams) && route.channel !in routes
      modifies this`routes, this`handles, this`openStreams
      ensures Table(routes, handles, openStreams) && handles == old(handles) + [route]
      ensures routes == old(routes)[route.channel := |old(handles)|] &&
                openStreams == old(openStreams) + {|old(handles)|}
    {
      routes := routes[route.channel := |handles|];
      openStreams := openStreams + {|handles|};
      handles := handles + [route];
    }

    /** The fallback forwarder of the channel goes; its subscriptions stay. */
    method SwapForwarder(channel: ChannelName)
      requires endpoint.Valid()
      modifies endpoint`chanMappings, endpoint`detached, endpoint`forwarders
      ensures endpoint.Valid()
      ensures endpoint.chanMappings.Keys == old(endpoint.chanMappings.Keys)
      ensures forall ch | ch in endpoint.chanMappings :: endpoint.chanMappings[ch] ==
                if ch == channel then ChannelMapping(old(endpoint.chanMappings)[ch].subs, None, false)
                else old(endpoint.chanMappings)[ch]
      ensures forall n | n in endpoint.forwarders && n !in endpoint.detached :: endpoint.forwarders[n] != channel
    {
      var detached := endpoint.DetachSubscriptionForwarder(channel);
      if detached.Some? {
        endpoint.CloseForwarder(detached.value);
      }
    }

    /** Closing a handle, for the first time or again, leaves every other route alone, a successor's on the same
        channel included. */
    method CloseHandle(h: nat)
      requires Valid() && h < |handles|
      modifies this`routes, this`openStreams, endpoint`routes
      ensures Valid() && openStreams == old(openStreams) - {h}
      ensures forall ch :: ch in routes <==> ch in old(routes) && old(routes)[ch] != h
      ensures forall ch | ch in routes :: routes[ch] == old(routes)[ch]
    {
      var ch := handles[h].channel;
      if ch in routes && routes[ch] == h {
        routes := routes - {ch};
        endpoint.SetRoute(ch, false);
      }
      CloseStream(h);
    }

    method CloseStream(h: nat)
      modifies this`openStreams
      ensures openStreams == old(openStreams) - {h}
    {
      openStreams := openStreams - {h};
    }

    method Close()
      requires Valid()
      modifies this`routes, this`closed, this`openStreams, endpoint`routes
      ensures Valid() && closed && routes == map[]
      ensures openStreams == {}
    {
      if closed {
        return;
      }
      var toClose := routes.Values;
      var channels := routes.Keys;
      assert forall h | h in openStreams :: handles[h].channel in routes && h in toClose;
      routes, closed := map[], true;
      while channels != {}
        modifies endpoint`routes
        invariant endpoint.Valid() && endpoint.routes == channels
      {
        var ch :| ch in channels;
        endpoint.SetRoute(ch, false);
        channels := channels - {ch};
      }
      while toClose != {}
        modifies this`openStreams
        invariant openStreams <= toClose
      {
        var h :| h in toClose;
        CloseStream(h);
        toClose := toClose - {h};
      }
    }

    /** Where a message on the channel goes, if it goes anywhere. */
    method RouteMessage(cancelled: bool, channel: ChannelName) returns (err: Option<Error>, destination: Destination)
      requires Valid()
      ensures err == if cancelled then Some(Cancelled) else if channel !in routes then Some(NotRegistered) else None
      ensures err.None? ==> exists h :: h in openStreams && handles[h] == Route(channel, destination)
    {
      destination := "";
      if cancelled {
        return Some(Cancelled), destination;
      }
      if channel !in routes {
        return Some(NotRegistered), destination;
      }
      destination := handles[routes[channel]].destination;
      assert handles[routes[channel]] == Route(channel, destination);
      return None, destination;
    }
  }
}
