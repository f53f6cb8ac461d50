/** The wrapper that bus/eventbus.go puts around the functions of a message handler: it filters the channel's
    messages by direction and destination, drops them once the handler's context is cancelled, and calls a run-once
    handler once, whether with a message or with an error. */
module Wrapping {
  import opened Options
  import opened Runs
  import opened Transactions

  datatype Filter = Filter(direction: Direction, ignoreId: bool, allTraffic: bool, destination: Option<nat>,
                      runOnce: bool)

  datatype Verdict = Pass | Success | Failure

  function Classify(f: Filter, m: Message): Verdict {
    if f.allTraffic then if m.direction == ErrorDir then Failure else Success
    else if m.direction == ErrorDir then Failure
    else if m.direction != f.direction then Pass
    else if f.ignoreId || (m.destination.Some? && f.destination.Some? &&
              f.destination.value == m.destination.value) then Success
    else Pass
  }

  /** ListenOnceForDestination, as a transaction calls it for a request. */
  function ForRequest(id: nat): Filter {
    Filter(ResponseDir, false, false, Some(id), true)
  }

  /** An error on the channel reaches every such listener; a response reaches the one it is addressed to, alone. */
  lemma OneListenerPerResponse(m: Message, id: nat, other: nat)
    ensures m.direction == ErrorDir ==> Classify(ForRequest(id), m) == Failure
    ensures Classify(ForRequest(id), m) == Success <==> m.direction == ResponseDir && m.destination == Some(id)
    ensures Classify(ForRequest(id), m) == Success && Classify(ForRequest(other), m) == Success ==> id == other
  {
  }

  /** ListenStream, ListenRequestStream, ListenFirehose, and the streams of one destination. */
  const RESPONSES := Filter(ResponseDir, true, false, None, false)
  const REQUESTS := Filter(RequestDir, true, false, None, false)
  const FIREHOSE := Filter(RequestDir, true, true, None, false)

  function ResponsesTo(id: nat): Filter {
    Filter(ResponseDir, false, false, Some(id), false)
  }

  function RequestsTo(id: nat): Filter {
    Filter(RequestDir, false, false, Some(id), false)
  }

  /** Errors fail every listener.  A stream listener hears the messages of its direction, whatever their destination;
      one for a destination those that carry it, and no message without one; and the firehose hears all there is. */
  lemma HeardExactly(f: Filter, m: Message, id: nat)
    ensures Classify(f, m) == Failure <==> m.direction == ErrorDir
    ensures Classify(RESPONSES, m) == Success <==> m.direction == ResponseDir
    ensures Classify(REQUESTS, m) == Success <==> m.direction == RequestDir
    ensures Classify(FIREHOSE, m) == Success <==> m.direction in {RequestDir, ResponseDir}
    ensures Classify(ResponsesTo(id), m) == Success <==> m.direction == ResponseDir && m.destination == Some(id)
    ensures Classify(RequestsTo(id), m) == Success <==> m.direction == RequestDir && m.destination == Some(id)
  {
  }

  datatype Call = OnMessage(m: Message) | OnError(err: int)

  datatype Arrival = Arrived(m: Message, dispatchCancelled: bool) | HandlerCancelled

  datatype Wrapped = Wrapped(cancelled: bool, invoked: bool, closed: bool, calls: seq<Call>)

  const WAITING := Wrapped(false, false, false, [])

  function CallFor(f: Filter, m: Message): Call {
    if Classify(f, m) == Failure then OnError(m.payload) else OnMessage(m)
  }

  function Step(f: Filter, s: Wrapped, a: Arrival): Wrapped {
    match a
    case HandlerCancelled => s.(cancelled := true)
    case Arrived(m, dispatchCancelled) =>
      if dispatchCancelled || Classify(f, m) == Pass then s
      else if s.cancelled then s.(closed := s.closed || f.runOnce)
      else if !f.runOnce then s.(calls := s.calls + [CallFor(f, m)])
      else if s.invoked then s
      else s.(invoked := true, closed := true, calls := s.calls + [CallFor(f, m)])
  }

  /** The calls that the arrivals ask for: one for each message that passes the filter before the handler's context
      is cancelled. */
  function Asked(f: Filter, arrivals: seq<Arrival>): seq<Call> {
    if arrivals == [] then []
    else
      var earlier := Asked(f, arrivals[..|arrivals| - 1]);
      match arrivals[|arrivals| - 1]
      case HandlerCancelled => earlier
      case Arrived(m, dispatchCancelled) =>
        if dispatchCancelled || Classify(f, m) == Pass || HandlerCancelled in arrivals then earlier
        else earlier + [CallFor(f, m)]
  }

  function After(f: Filter, arrivals: seq<Arrival>): Wrapped {
    Run((s, a) => Step(f, s, a), WAITING, arrivals)
  }

  lemma AfterExtends(f: Filter, arrivals: seq<Arrival>, last: Arrival)
    ensures After(f, arrivals + [last]) == Step(f, After(f, arrivals), last)
  {
    assert (arrivals + [last])[..|arrivals|] == arrivals;
  }

  function AskedBy(f: Filter, cancelled: bool, a: Arrival): seq<Call> {
    if cancelled || a.HandlerCancelled? || a.dispatchCancelled || Classify(f, a.m) == Pass
         then [] else [CallFor(f, a.m)]
  }

  lemma AskedExtends(f: Filter, arrivals: seq<Arrival>, last: Arrival)
    ensures Asked(f, arrivals + [last]) == Asked(f, arrivals) + AskedBy(f, HandlerCancelled in arrivals, last)
  {
    assert (arrivals + [last])[..|arrivals|] == arrivals;
  }

  /** What the wrapper has done about the calls asked for. */
  ghost predicate Served(f: Filter, s: Wrapped, asked: seq<Call>) {
    && s.calls == (if f.runOnce && asked != [] then [asked[0]] else asked)
    && (f.runOnce ==> (s.invoked <==> asked != []))
    && (s.invoked ==> f.runOnce && s.closed)
  }

  lemma ServesStep(f: Filter, s: Wrapped, asked: seq<Call>, a: Arrival)
    requires Served(f, s, asked)
    ensures Served(f, Step(f, s, a), asked + AskedBy(f, s.cancelled, a))
  {
  }

  lemma ServesNext(f: Filter, init: seq<Arrival>, last: Arrival)
    requires Served(f, After(f, init), Asked(f, init)) && (After(f, init).cancelled <==> HandlerCancelled in init)
    ensures Served(f, After(f, init + [last]), Asked(f, init + [last]))
    ensures After(f, init + [last]).cancelled <==> HandlerCancelled in init || last == HandlerCancelled
  {
    AfterExtends(f, init, last);
    AskedExtends(f, init, last);
    ServesStep(f, After(f, init), Asked(f, init), last);
  }

  /** A stream handler gets every call asked for, in order of arrival.  A run-once handler gets the first one and no
      other, even of messages that were under way when it was closed; and it is closed by then. */
  lemma {:induction false} CallsExactly(f: Filter, arrivals: seq<Arrival>)
    ensures Served(f, After(f, arrivals), Asked(f, arrivals))
    ensures After(f, arrivals).cancelled <==> HandlerCancelled in arrivals
  {
    if arrivals != [] {
      var init, last := arrivals[..|arrivals| - 1], arrivals[|arrivals| - 1];
      CallsExactly(f, init);
      assert arrivals == init + [last];
      ServesNext(f, init, last);
    }
  }

  class WrappedHandler {
    const filter: Filter
    var cancelled: bool
    var invoked: bool
    var closed: bool
    var calls: seq<Call>

    constructor (filter: Filter)
      ensures this.filter == filter && State() == WAITING
    {
      this.filter, cancelled, invoked, closed, calls := filter, false, false, false, [];
    }

    function State(): Wrapped
      reads this
    {
      Wrapped(cancelled, invoked, closed, calls)
    }

    method Receive(m: Message, dispatchCancelled: bool)
      modifies this
      ensures State() == Step(filter, old(State()), Arrived(m, dispatchCancelled))
    {
      if dispatchCancelled {
        return;
      }
      if filter.allTraffic {
        if m.direction == ErrorDir {
          Handle(OnError(m.payload));
        } else {
          Handle(OnMessage(m));
        }
        return;
      }
      if m.direction == ErrorDir {
        Handle(OnError(m.payload));
      } else if m.direction == filter.direction {
        if !filter.ignoreId && m.destination.Some? && filter.destination.Some?
           && filter.destination.value == m.destination.value {
          Handle(OnMessage(m));
        }
        if filter.ignoreId {
          Handle(OnMessage(m));
        }
      }
    }

    /** The success and the error function of the wrapper. */
    method Handle(call: Call)
      modifies this
      ensures cancelled == old(cancelled)
      ensures State() == if old(cancelled) then old(State()).(closed := old(closed) || filter.runOnce)
                         else if !filter.runOnce then old(State()).(calls := old(calls) + [call])
                         else if old(invoked) then old(State())
                         else Wrapped(false, true, true, old(calls) + [call])
    {
      if cancelled {
        if filter.runOnce {
          closed := true;
        }
        return;
      }
      if filter.runOnce {
        if !invoked {
          invoked := true;
          calls := calls + [call];
          closed := true;
        }
        return;
      }
      calls := calls + [call];
    }
  }
}
