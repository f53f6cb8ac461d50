/** A server-side STOMP connection, stompserver/stomp_connection.go: the frame loop and its handlers.

    Writes to the raw connection may fail, and each input says whether the write it leads to does.  Events reach the
    server (no send timeout), and only the frame loop closes the connection. */
module StompConns {
  import opened Options
  import opened ConnectionGrammar

  datatype Command =
    CONNECT | STOMP | CONNECTED | DISCONNECT | SEND | SUBSCRIBE | UNSUBSCRIBE | MESSAGE | RECEIPT | ERROR | OTHER

  /** The versions an accept-version header can name; the connection supports all but `Unknown`. */
  datatype Version = V10 | V11 | V12 | Unknown

  /** A heart-beat header in milliseconds, or one that does not parse. */
  datatype HeartBeat = Malformed | Beat(x: nat, y: nat)

  /** A frame with the headers the connection reads or writes; accept-version is split at its commas. */
  datatype Frame = Frame(
    command: Command,
    id: Option<SubId>,
    destination: Option<Destination>,
    receipt: Option<string>,
    transaction: Option<string>,
    acceptVersion: Option<seq<Version>>,
    heartBeat: Option<HeartBeat>,
    messageId: Option<nat>,
    message: string)

  function Bare(command: Command): Frame {
    Frame(command, None, None, None, None, None, None, None, "")
  }

  datatype Error =
    | NotConnected | UnexpectedCommand | UnsupportedCommand | UnsupportedVersion | InvalidSubscription
    | InvalidFrame | InvalidHeader | InvalidSendDestination | InvalidHeartBeat | WriteFailed

  datatype Input =
    | Outgoing(f: Frame, writeOk: bool)
    | Received(f: Frame, writeOk: bool)
    | HeartBeatDue(writeOk: bool)
    | QueueClosed

  datatype ConnState = StConnecting | StConnected | StClosed

  const MAXHEARTBEAT := 999999999

  /** A client that wants heart-beats gets them no more often than the server's minimum, and not at all when the
      server has none. */
  function ApplyMinimum(client: nat, minimum: nat): nat {
    if client > 0 && (minimum == 0 || client < minimum) then minimum else client
  }

  /** The message ids of the MESSAGE frames among `frames`, in order. */
  function MessageIds(frames: seq<Frame>): seq<Option<nat>> {
    if frames == [] then []
    else
      var earlier := MessageIds(frames[..|frames| - 1]);
      var f := frames[|frames| - 1];
      if f.command == MESSAGE then earlier + [f.messageId] else earlier
  }

  lemma MessageIdsExtend(frames: seq<Frame>, f: Frame)
    ensures MessageIds(frames + [f]) == MessageIds(frames) + if f.command == MESSAGE then [f.messageId] else []
  {
  }

  /** The MESSAGE frames are numbered 1, 2, 3, ... in the order in which they are written. */
  ghost predicate NumberedInOrder(frames: seq<Frame>, last: nat) {
    |MessageIds(frames)| == last && forall k | 0 <= k < last :: MessageIds(frames)[k] == Some(k + 1)
  }

  /** A client that accepts 1.1 or 1.2 and whose headers are sound can connect. */
  predicate Acceptable(f: Frame) {
    && f.receipt == None
    && f.acceptVersion.Some? && (V11 in f.acceptVersion.value || V12 in f.acceptVersion.value)
    && f.heartBeat != Some(Malformed)
  }

  /** The reply names one version: one that the client named, 1.2 if it named that, and 1.1 otherwise.  Each direction
      has heart-beats exactly if the client wants them and the server's minimum is not zero, and then no more often
      than either allows: the reply gives the server's rate first. */
  ghost predicate Agrees(f: Frame, minimum: nat, reply: Frame) {
    var names := if f.acceptVersion.Some? then f.acceptVersion.value else [];
    var asked := if f.heartBeat.Some? && f.heartBeat.value.Beat? then f.heartBeat.value else Beat(0, 0);
    && reply.command == CONNECTED && reply.acceptVersion.Some? && |reply.acceptVersion.value| == 1
    && reply.acceptVersion.value[0] in names && reply.acceptVersion.value[0] == (if V12 in names then V12 else V11)
    && reply.heartBeat.Some? && reply.heartBeat.value.Beat?
    && RateFits(reply.heartBeat.value.x, asked.y, minimum)
    && RateFits(reply.heartBeat.value.y, asked.x, minimum)
  }

  ghost predicate RateFits(rate: nat, asked: nat, minimum: nat) {
    && (rate == 0 <==> asked == 0 || minimum == 0)
    && (rate > 0 ==> rate >= asked && rate >= minimum && rate in {asked, minimum})
  }

  /** What a received frame leads to in an open or connecting connection: one event, or none.  Every error closes
      the connection.  `writeOk` says whether the reply, if there is one, can be written. */
  function FrameEvent(p: Phase, prefixes: seq<string>, f: Frame, writeOk: bool): Option<Event> {
    if f.command == CONNECT || f.command == STOMP then
      Some(if p == Connecting && Acceptable(f) && writeOk then Established else Closed)
    else if !p.Open? || (f.receipt.Some? && !writeOk && f.command != SUBSCRIBE) then Some(Closed)
    else
      match f.command
      case SUBSCRIBE =>
        if f.id == None || f.destination == None then Some(Closed)
        else if f.id.value in p.live then None
        else Some(Subscribe(f.id.value, f.destination.value))
      case UNSUBSCRIBE =>
        if f.id == None then Some(Closed)
        else if f.id.value in p.live then Some(Unsubscribe(f.id.value, p.live[f.id.value]))
        else None
      case SEND =>
        if f.transaction.Some? || f.destination == None || !IsAppRequest(prefixes, f.destination.value)
             then Some(Closed)
        else Some(Incoming(f.destination.value))
      case _ => Some(Closed)
  }

  /** What one turn of the frame loop sends. Heart-beats have no event of their own. */
  function InputEvent(p: Phase, prefixes: seq<string>, input: Input): Option<Event> {
    match input
    case Outgoing(f, writeOk) => if writeOk && f.command != ERROR then None else Some(Closed)
    case Received(f, writeOk) => FrameEvent(p, prefixes, f, writeOk)
    case HeartBeatDue(writeOk) => if writeOk then None else Some(Closed)
    case QueueClosed => Some(Closed)
  }

  function Appended(trace: seq<Event>, e: Option<Event>): seq<Event> {
    if e.Some? then trace + [e.value] else trace
  }

  lemma InputEventAllowed(p: Phase, prefixes: seq<string>, input: Input)
    requires p != Gone && InputEvent(p, prefixes, input).Some?
    ensures Advance(p, InputEvent(p, prefixes, input).value).Some?
  {
  }

  /** A connection as its events show it. */
  datatype Session = Session(phase: Phase, trace: seq<Event>)

  /** One turn of the frame loop, and the Close that follows when the turn ends the loop. */
  function Absorb(prefixes: seq<string>, s: Session, input: Input): Session {
    if s.phase == Gone || InputEvent(s.phase, prefixes, input) == None then s
    else
      var e := InputEvent(s.phase, prefixes, input).value;
      InputEventAllowed(s.phase, prefixes, input);
      Session(Advance(s.phase, e).value, s.trace + [e])
  }

  lemma AbsorbClosing(prefixes: seq<string>, s: Session, input: Input)
    requires s.phase != Gone && InputEvent(s.phase, prefixes, input) == Some(Closed)
    ensures Absorb(prefixes, s, input) == Session(Gone, s.trace + [Closed])
  {
  }

  /** A whole run on the given inputs. */
  function SessionAfter(prefixes: seq<string>, inputs: seq<Input>): Session {
    if inputs == [] then Session(Connecting, [])
    else Absorb(prefixes, SessionAfter(prefixes, inputs[..|inputs| - 1]), inputs[|inputs| - 1])
  }

  lemma SessionExtends(prefixes: seq<string>, inputs: seq<Input>, input: Input)
    ensures SessionAfter(prefixes, inputs + [input]) == Absorb(prefixes, SessionAfter(prefixes, inputs), input)
  {
    assert (inputs + [input])[..|inputs|] == inputs;
  }

  lemma AbsorbsEvent(prefixes: seq<string>, s: Session, e: Event)
    requires Advance(s.phase, e).Some? && (e.Incoming? ==> IsAppRequest(prefixes, e.destination))
    ensures Absorb(prefixes, s, InputFor(e)) == Session(Advance(s.phase, e).value, s.trace + [e])
  {
    InputForLeadsTo(s.phase, prefixes, e);
  }

  /** An input that leads to the given event, when the event may come. */
  function InputFor(e: Event): Input {
    match e
    case Established => Received(Bare(CONNECT).(acceptVersion := Some([V12])), true)
    case Subscribe(id, d) => Received(Bare(SUBSCRIBE).(id := Some(id), destination := Some(d)), true)
    case Unsubscribe(id, _) => Received(Bare(UNSUBSCRIBE).(id := Some(id)), true)
    case Incoming(d) => Received(Bare(SEND).(destination := Some(d)), true)
    case Closed => QueueClosed
  }

  function InputsFor(trace: seq<Event>): seq<Input> {
    seq(|trace|, i requires 0 <= i < |trace| => InputFor(trace[i]))
  }

  lemma InputForLeadsTo(p: Phase, prefixes: seq<string>, e: Event)
    requires Advance(p, e).Some? && (e.Incoming? ==> IsAppRequest(prefixes, e.destination))
    ensures p != Gone && InputEvent(p, prefixes, InputFor(e)) == Some(e)
  {
  }

  /** The grammar allows nothing that a connection cannot send: every trace of it is the run on some inputs. */
  lemma {:induction false} EveryTraceHappens(prefixes: seq<string>, trace: seq<Event>)
    requires PhaseOf(trace).Some?
    requires forall i | 0 <= i < |trace| && trace[i].Incoming? :: IsAppRequest(prefixes, trace[i].destination)
    ensures SessionAfter(prefixes, InputsFor(trace)) == Session(PhaseOf(trace).value, trace)
  {
    if trace != [] {
      var init, e := trace[..|trace| - 1], trace[|trace| - 1];
      EveryTraceHappens(prefixes, init);
      assert trace == init + [e] && InputsFor(trace) == InputsFor(init) + [InputFor(e)];
      SessionExtends(prefixes, InputsFor(init), InputFor(e));
      AbsorbsEvent(prefixes, SessionAfter(prefixes, InputsFor(init)), e);
    }
  }

  class StompConn {
    const minimumHeartBeat: nat
    const appPrefixes: seq<string>
    var state: ConnState
    var subscriptions: map<SubId, Destination>
    var currentMessageId: nat
    var writeTimeout: nat
    var events: seq<Event>
    /** Everything handed to the raw connection to write, apart from heart-beats. */
    var written: seq<Frame>

    constructor (heartBeat: nat, appPrefixes: seq<string>)
      ensures Valid() && state == StConnecting && events == [] && written == []
      ensures this.appPrefixes == appPrefixes
    {
      minimumHeartBeat := if heartBeat > MAXHEARTBEAT then MAXHEARTBEAT else heartBeat;
      this.appPrefixes, state, subscriptions := appPrefixes, StConnecting, map[];
      currentMessageId, writeTimeout, events, written := 0, 0, [], [];
    }

    function CurrentPhase(): Phase
      reads this
    {
      match state
      case StConnecting => Connecting
      case StConnected => Open(subscriptions)
      case StClosed => Gone
    }

    /** The events sent so far are a trace, and it has reached the phase that the fields say. */
    ghost predicate Valid()
      reads this
    {
      PhaseOf(events) == Some(CurrentPhase()) && NumberedInOrder(written, currentMessageId)
      && (state == StConnecting ==> subscriptions == map[])
    }

    method IsAppRequestDestination(destination: Destination) returns (isApp: bool)
      ensures isApp == IsAppRequest(appPrefixes, destination)
    {
      var i := 0;
      while i < |appPrefixes|
        invariant 0 <= i <= |appPrefixes|
        invariant !IsAppRequest(appPrefixes[..i], destination)
      {
        if appPrefixes[i] != "" && appPrefixes[i] <= destination {
          return true;
        }
        i := i + 1;
      }
      return false;
    }

    /** The events after a handler ran on `f` are what the reference says, given the events and phase before. */
    ghost predicate Follows(before: seq<Event>, p: Phase, f: Frame, writeOk: bool, err: Option<Error>)
      reads this
    {
      var e := FrameEvent(p, appPrefixes, f, writeOk);
      if err == None then events == Appended(before, e) else e == Some(Closed) && events == before
    }

    method SendEvent(e: Event)
      modifies this`events
      ensures events == old(events) + [e]
      ensures PhaseOf(events) == if PhaseOf(old(events)).Some? then Advance(PhaseOf(old(events)).value, e) else None
    {
      PhaseExtends(events, e);
      events := events + [e];
    }

    method Write(f: Frame)
      modifies this`written
      ensures written == old(written) + [f]
      ensures MessageIds(written) == MessageIds(old(written)) + if f.command == MESSAGE then [f.messageId] else []
    {
      MessageIdsExtend(written, f);
      written := written + [f];
    }

    /** Writes a frame that takes no message id. */
    method WriteReply(f: Frame)
      requires f.command != MESSAGE && NumberedInOrder(written, currentMessageId)
      modifies this`written
      ensures written == old(written) + [f] && NumberedInOrder(written, currentMessageId)
    {
      Write(f);
      assert MessageIds(written) == MessageIds(old(written));
    }

    method Close()
      requires Valid()
      modifies this`state, this`events
      ensures Valid() && state == StClosed
      ensures events == if old(state) == StClosed then old(events) else old(events) + [Closed]
    {
      if state != StClosed {
        state := StClosed;
        SendEvent(Closed);
      }
    }

    method SendError(message: string)
      requires Valid()
      modifies this`written
      ensures Valid() && written == old(written) + [Bare(ERROR).(message := message)]
    {
      WriteReply(Bare(ERROR).(message := message));
    }

    /** The highest supported version the client accepts; without the header it accepts 1.0 only. */
    static method DetermineVersion(f: Frame) returns (v: Option<Version>)
      ensures f.acceptVersion == None ==> v == Some(V10)
      ensures f.acceptVersion.Some? ==>
                var names := f.acceptVersion.value;
                && (v == None <==> V10 !in names && V11 !in names && V12 !in names)
                && (v.Some? ==> v.value in names && v.value != Unknown)
                && (v == Some(V11) ==> V12 !in names)
                && (v == Some(V10) ==> V12 !in names && V11 !in names)
    {
      if f.acceptVersion.None? {
        return Some(V10);
      }
      var names, supported := f.acceptVersion.value, [V12, V11, V10];
      var i := 0;
      while i < 3
        invariant 0 <= i <= 3
        invariant forall k | 0 <= k < i :: supported[k] !in names
      {
        var j := 0;
        while j < |names|
          invariant 0 <= j <= |names|
          invariant forall k | 0 <= k < j :: names[k] != supported[i]
        {
          if names[j] == supported[i] {
            assert (i > 0 ==> supported[0] !in names) && (i > 1 ==> supported[1] !in names);
            return Some(supported[i]);
          }
          j := j + 1;
        }
        i := i + 1;
      }
      assert supported[0] !in names && supported[1] !in names && supported[2] !in names;
      return None;
    }

    /** The CONNECTED frame for a client: the highest version both sides know, and heart-beats under the minimum. */
    static function ConnectedFrame(f: Frame, minimum: nat): Frame {
      var beat := if f.heartBeat.Some? && f.heartBeat.value.Beat? then f.heartBeat.value else Beat(0, 0);
      var version := if f.acceptVersion.Some? && V12 in f.acceptVersion.value then V12 else V11;
      Bare(CONNECTED).(heartBeat := Some(Beat(ApplyMinimum(beat.y, minimum), ApplyMinimum(beat.x, minimum))),
                       acceptVersion := Some([version]))
    }

    /** The checks of handleConnect after the state, and the reply they lead to. */
    method Negotiate(f: Frame) returns (err: Option<Error>, reply: Frame)
      ensures err == None <==> Acceptable(f)
      ensures err == None ==> reply == ConnectedFrame(f, minimumHeartBeat) && Agrees(f, minimumHeartBeat, reply)
      ensures f.receipt.Some? ==> err == Some(InvalidHeader)
      ensures f.receipt.None? && f.acceptVersion.None? ==> err == Some(UnsupportedVersion)
    {
      reply := Bare(CONNECTED);
      if f.receipt.Some? {
        return Some(InvalidHeader), reply;
      }
      var version := DetermineVersion(f);
      if version == None || version == Some(V10) {
        return Some(UnsupportedVersion), reply;
      }
      var cx, cy := 0, 0;
      if f.heartBeat.Some? {
        if f.heartBeat.value == Malformed {
          return Some(InvalidHeartBeat), reply;
        }
        cx, cy := f.heartBeat.value.x, f.heartBeat.value.y;
      }
      cx, cy := ApplyMinimum(cx, minimumHeartBeat), ApplyMinimum(cy, minimumHeartBeat);
      reply := reply.(heartBeat := Some(Beat(cy, cx)), acceptVersion := Some([version.value]));
      ReplyAgrees(f, minimumHeartBeat);
      return None, reply;
    }

    method HandleConnect(f: Frame, writeOk: bool) returns (err: Option<Error>)
      requires Valid() && state != StClosed
      modifies this
      ensures Valid()
      ensures f.command == CONNECT || f.command == STOMP ==> Follows(old(events), old(CurrentPhase()), f, writeOk, err)
      ensures err == None <==> old(state) == StConnecting && Acceptable(f) && writeOk
      ensures old(state) == StConnected ==> err == Some(UnexpectedCommand)
      ensures if err == None then state == StConnected && subscriptions == map[] &&
                events == old(events) + [Established]
              else state == old(state) && subscriptions == old(subscriptions) && events == old(events)
      ensures written == if old(state) == StConnecting && Acceptable(f)
                         then old(written) + [ConnectedFrame(f, minimumHeartBeat)] else old(written)
      ensures Acceptable(f) ==> Agrees(f, minimumHeartBeat, ConnectedFrame(f, minimumHeartBeat))
      ensures err == None ==> writeTimeout == ConnectedFrame(f, minimumHeartBeat).heartBeat.value.x
      ensures err == None ==>
                (writeTimeout == 0 <==> f.heartBeat.None? || f.heartBeat.value.y == 0 || minimumHeartBeat == 0)
    {
      if Acceptable(f) {
        ReplyAgrees(f, minimumHeartBeat);
      }
      if state == StConnected {
        return Some(UnexpectedCommand);
      }
      var reply;
      err, reply := Negotiate(f);
      if err.Some? {
        return;
      }
      writeTimeout := reply.heartBeat.value.x;
      WriteReply(reply);
      if !writeOk {
        return Some(WriteFailed);
      }
      state := StConnected;
      SendEvent(Established);
      return None;
    }

    /** Whoever can connect is answered with what both sides agree on. */
    static lemma ReplyAgrees(f: Frame, minimum: nat)
      requires Acceptable(f)
      ensures Agrees(f, minimum, ConnectedFrame(f, minimum))
    {
      var asked := if f.heartBeat.Some? then f.heartBeat.value else Beat(0, 0);
      assert RateFits(ApplyMinimum(asked.y, minimum), asked.y, minimum);
      assert RateFits(ApplyMinimum(asked.x, minimum), asked.x, minimum);
    }

    /** Answers the receipt header, if there is one. */
    method SendReceiptResponse(f: Frame, writeOk: bool) returns (err: Option<Error>)
      requires Valid()
      modifies this`written
      ensures Valid()
      ensures written == if f.receipt.Some? then old(written) + [Bare(RECEIPT).(receipt := f.receipt)] else old(written)
      ensures err == if f.receipt.Some? && !writeOk then Some(WriteFailed) else None
    {
      if f.receipt.Some? {
        WriteReply(Bare(RECEIPT).(receipt := f.receipt));
        if !writeOk {
          return Some(WriteFailed);
        }
      }
      return None;
    }

    function Receipts(f: Frame): seq<Frame> {
      if f.receipt.Some? then [Bare(RECEIPT).(receipt := f.receipt)] else []
    }

    method HandleDisconnect(f: Frame, writeOk: bool) returns (err: Option<Error>)
      requires Valid()
      modifies this
      ensures Valid()
      ensures old(state) != StClosed && (f.command == DISCONNECT) ==>
                Follows(old(events), old(CurrentPhase()), f, writeOk, err)
      ensures err == if old(state) == StConnecting then Some(NotConnected)
                     else if f.receipt.Some? && !writeOk then Some(WriteFailed) else None
      ensures err == None ==> state == StClosed
      ensures err == None && old(state) == StConnected ==> events == old(events) + [Closed]
      ensures err != None ==> state == old(state) && events == old(events)
      ensures written == if old(state) == StConnecting then old(written) else old(written) + Receipts(f)
    {
      if state == StConnecting {
        return Some(NotConnected);
      }
      err := SendReceiptResponse(f, writeOk);
      if err.Some? {
        return;
      }
      Close();
      return None;
    }

    method AddSubscription(id: SubId, destination: Destination) returns (added: bool)
      modifies this`subscriptions
      ensures added == (id !in old(subscriptions))
      ensures subscriptions == if added then old(subscriptions)[id := destination] else old(subscriptions)
    {
      if id in subscriptions {
        return false;
      }
      subscriptions := subscriptions[id := destination];
      return true;
    }

    method RemoveSubscription(id: SubId) returns (sub: Option<Destination>)
      modifies this`subscriptions
      ensures sub == if id in old(subscriptions) then Some(old(subscriptions)[id]) else None
      ensures subscriptions == old(subscriptions) - {id}
    {
      if id !in subscriptions {
        assert subscriptions - {id} == subscriptions;
        return None;
      }
      sub := Some(subscriptions[id]);
      subscriptions := subscriptions - {id};
    }

    /** A SUBSCRIBE with an id that is live already is ignored; a receipt header is not answered. */
    method HandleSubscribe(f: Frame) returns (err: Option<Error>)
      requires Valid()
      modifies this`subscriptions, this`events
      ensures Valid()
      ensures old(state) != StClosed && f.command == SUBSCRIBE ==>
                Follows(old(events), old(CurrentPhase()), f, true, err) &&
                  Follows(old(events), old(CurrentPhase()), f, false, err)
      ensures err == match old(state)
                     case StConnecting => Some(NotConnected)
                     case StClosed => None
                     case StConnected => if f.id == None then Some(InvalidSubscription)
                                         else if f.destination == None then Some(InvalidFrame) else None
      ensures if old(state) == StConnected && err == None && f.id.value !in old(subscriptions)
              then subscriptions == old(subscriptions)[f.id.value := f.destination.value]
                   && events == old(events) + [Subscribe(f.id.value, f.destination.value)]
              else subscriptions == old(subscriptions) && events == old(events)
    {
      if state == StConnecting {
        return Some(NotConnected);
      }
      if state == StClosed {
        return None;
      }
      if f.id.None? {
        return Some(InvalidSubscription);
      }
      if f.destination.None? {
        return Some(InvalidFrame);
      }
      var added := AddSubscription(f.id.value, f.destination.value);
      if added {
        SendEvent(Subscribe(f.id.value, f.destination.value));
      }
      return None;
    }

    method HandleUnsubscribe(f: Frame, writeOk: bool) returns (err: Option<Error>)
      requires Valid()
      modifies this`subscriptions, this`events, this`written
      ensures Valid() && state == old(state) && currentMessageId == old(currentMessageId)
      ensures old(state) != StClosed && (f.command == UNSUBSCRIBE) ==>
                Follows(old(events), old(CurrentPhase()), f, writeOk, err)
      ensures err == match old(state)
                     case StConnecting => Some(NotConnected)
                     case StClosed => None
                     case StConnected => if f.id == None then Some(InvalidSubscription)
                                         else if f.receipt.Some? && !writeOk then Some(WriteFailed) else None
      ensures written == if old(state) == StConnected && f.id.Some? then old(written) + Receipts(f) else old(written)
      ensures if old(state) == StConnected && err == None && f.id.value in old(subscriptions)
              then subscriptions == old(subscriptions) - {f.id.value}
                   && events == old(events) + [Unsubscribe(f.id.value, old(subscriptions)[f.id.value])]
              else subscriptions == old(subscriptions) && events == old(events)
    {
      if state == StConnecting {
        return Some(NotConnected);
      }
      if state == StClosed {
        return None;
      }
      if f.id.None? {
        return Some(InvalidSubscription);
      }
      err := SendReceiptResponse(f, writeOk);
      if err.Some? {
        return;
      }
      var sub := RemoveSubscription(f.id.value);
      if sub.Some? {
        SendEvent(Unsubscribe(f.id.value, sub.value));
      } else {
        assert subscriptions == old(subscriptions);
      }
      return None;
    }

    method HandleSend(f: Frame, writeOk: bool) returns (err: Option<Error>)
      requires Valid()
      modifies this`events, this`written
      ensures Valid()
      ensures old(state) != StClosed && (f.command == SEND) ==>
                Follows(old(events), old(CurrentPhase()), f, writeOk, err)
      ensures err == match state
                     case StConnecting => Some(NotConnected)
                     case StClosed => None
                     case StConnected =>
                       if f.transaction.Some? then Some(UnsupportedCommand)
                       else if f.destination == None then Some(InvalidFrame)
                       else if !IsAppRequest(appPrefixes, f.destination.value) then Some(InvalidSendDestination)
                       else if f.receipt.Some? && !writeOk then Some(WriteFailed) else None
      ensures events == if state == StConnected && err == None then old(events) + [Incoming(f.destination.value)]
                        else old(events)
      ensures written == if state == StConnected && err in {None, Some(WriteFailed)} then old(written) + Receipts(f)
                         else old(written)
    {
      if state == StConnecting {
        return Some(NotConnected);
      }
      if state == StClosed {
        return None;
      }
      if f.transaction.Some? {
        return Some(UnsupportedCommand);
      }
      if f.destination.None? {
        return Some(InvalidFrame);
      }
      var isApp := IsAppRequestDestination(f.destination.value);
      if !isApp {
        return Some(InvalidSendDestination);
      }
      err := SendReceiptResponse(f, writeOk);
      if err.Some? {
        return;
      }
      SendEvent(Incoming(f.destination.value));
      return None;
    }

    method HandleIncomingFrame(f: Frame, writeOk: bool) returns (err: Option<Error>)
      requires Valid() && state != StClosed
      modifies this
      ensures Valid()
      ensures Follows(old(events), old(CurrentPhase()), f, writeOk, err)
      ensures err != None ==> state == old(state)
      ensures f.command in {MESSAGE, RECEIPT, ERROR, CONNECTED, OTHER} ==>
                err == Some(UnsupportedCommand) && written == old(written)
    {
      match f.command
      case CONNECT => err := HandleConnect(f, writeOk);
      case STOMP => err := HandleConnect(f, writeOk);
      case DISCONNECT => err := HandleDisconnect(f, writeOk);
      case SEND => err := HandleSend(f, writeOk);
      case SUBSCRIBE => err := HandleSubscribe(f);
      case UNSUBSCRIBE => err := HandleUnsubscribe(f, writeOk);
      case _ => err := Some(UnsupportedCommand);
    }

    method WriteOutgoing(f: Frame, writeOk: bool) returns (goOn: bool)
      requires Valid()
      modifies this`written, this`currentMessageId
      ensures Valid()
      ensures currentMessageId == old(currentMessageId) + if f.command == MESSAGE then 1 else 0
      ensures written == old(written) + [if f.command == MESSAGE then f.(messageId := Some(currentMessageId)) else f]
      ensures goOn == (writeOk && f.command != ERROR)
    {
      var g := f;
      if f.command == MESSAGE {
        currentMessageId := currentMessageId + 1;
        g := f.(messageId := Some(currentMessageId));
      }
      Write(g);
      return writeOk && f.command != ERROR;
    }

    /** One turn of the select in the frame loop; `goOn` is false when the loop returns.  The heart-beat timer runs
        only while writeTimeout is positive, so HeartBeatDue does not come when no heart-beat was negotiated. */
    method Turn(input: Input) returns (goOn: bool)
      requires Valid() && state != StClosed
      modifies this
      ensures Valid()
      ensures goOn ==> Shown() == Absorb(appPrefixes, old(Shown()), input)
      ensures !goOn ==> InputEvent(old(CurrentPhase()), appPrefixes, input) == Some(Closed)
      ensures !goOn ==> Shown() == old(Shown())
      ensures input.Received? && !goOn ==> written != [] && written[|written| - 1].command == ERROR
    {
      match input
      case Outgoing(f, writeOk) =>
        goOn := WriteOutgoing(f, writeOk);
      case Received(f, writeOk) =>
        var err := HandleIncomingFrame(f, writeOk);
        if err.Some? {
          SendError("error");
          return false;
        }
        return true;
      case HeartBeatDue(writeOk) =>
        return writeOk;
      case QueueClosed =>
        return false;
    }

    function Shown(): Session
      reads this
    {
      Session(CurrentPhase(), events)
    }

    /** A turn, and the deferred Close when it ends the loop. */
    method TurnAndClose(input: Input)
      requires Valid() && state != StClosed
      modifies this
      ensures Valid()
      ensures Shown() == Absorb(appPrefixes, old(Shown()), input)
    {
      ghost var before := Shown();
      var goOn := Turn(input);
      if !goOn {
        AbsorbClosing(appPrefixes, before, input);
        Close();
      }
    }

    /** The frame loop on any inputs.  The events it sends are a trace of the grammar: Closed, or Established, then
        subscriptions of ids not live, unsubscriptions of live ids with their stored destination and application
        messages, and then Closed; and its MESSAGE frames are numbered in write order. */
    method Run(inputs: seq<Input>)
      requires Valid() && state == StConnecting && events == []
      modifies this
      ensures Valid()
      ensures SessionShape(events)
      ensures Shown() == SessionAfter(appPrefixes, inputs)
      ensures state == StClosed <==> events != [] && events[|events| - 1] == Closed
      ensures state == StConnected ==> PhaseOf(events) == Some(Open(subscriptions))
    {
      var i := 0;
      while i < |inputs| && state != StClosed
        invariant 0 <= i <= |inputs| && Valid()
        invariant Shown() == SessionAfter(appPrefixes, inputs[..i])
      {
        assert inputs[..i + 1][..i] == inputs[..i];
        TurnAndClose(inputs[i]);
        i := i + 1;
      }
      GoneStays(appPrefixes, inputs, i);
      PhasesGiveShape(events);
      LastEventDecides(events);
    }
  }

  /** Inputs after the end are not looked at. */
  lemma {:induction false} GoneStays(prefixes: seq<string>, inputs: seq<Input>, i: nat)
    requires i <= |inputs| && (i < |inputs| ==> SessionAfter(prefixes, inputs[..i]).phase == Gone)
    ensures SessionAfter(prefixes, inputs) == SessionAfter(prefixes, inputs[..i])
    decreases |inputs|
  {
    if i == |inputs| {
      assert inputs[..i] == inputs;
    } else {
      var init := inputs[..|inputs| - 1];
      assert init[..i] == inputs[..i];
      GoneStays(prefixes, init, i);
    }
  }
}
