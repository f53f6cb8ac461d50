/** The events a STOMP connection emits, and the shape every such trace has: the interface between
    stompserver/stomp_connection.go and stompserver/server.go. */
module ConnectionGrammar {
  import opened Options

  type SubId = string
  type Destination = string

  /** Whether a client may send to the destination: it starts with one of the application prefixes. */
  predicate IsAppRequest(prefixes: seq<string>, destination: Destination) {
    exists i | 0 <= i < |prefixes| :: prefixes[i] != "" && prefixes[i] <= destination
  }

  /** The destination is a prefix that is not empty, and what follows it. */
  lemma AppRequestExactly(prefixes: seq<string>, destination: Destination)
    ensures IsAppRequest(prefixes, destination)
       <==> exists p, rest :: p in prefixes && p != "" && destination == p + rest
  {
    if i :| 0 <= i < |prefixes| && prefixes[i] != "" && prefixes[i] <= destination {
      assert prefixes[i] in prefixes && destination == prefixes[i] + destination[|prefixes[i]|..];
    }
  }

  datatype Event =
    | Established
    | Subscribe(id: SubId, destination: Destination)
    | Unsubscribe(id: SubId, destination: Destination)
    | Incoming(destination: Destination)
    | Closed

  /** Where a trace stands. An open connection has its live subscriptions, by id. */
  datatype Phase = Connecting | Open(live: map<SubId, Destination>) | Gone

  /** The phase after one more event, if the event may come now. */
  function Advance(p: Phase, e: Event): Option<Phase> {
    match (p, e)
    case (Connecting, Established) => Some(Open(map[]))
    case (Connecting, Closed) => Some(Gone)
    case (Open(live), Subscribe(id, d)) => if id in live then None else Some(Open(live[id := d]))
    case (Open(live), Unsubscribe(id, d)) => if id in live && live[id] == d then Some(Open(live - {id})) else None
    case (Open(live), Incoming(_)) => Some(p)
    case (Open(live), Closed) => Some(Gone)
    case _ => None
  }

  /** The phase a trace has reached, if it is a trace at all. */
  function PhaseOf(trace: seq<Event>): Option<Phase> {
    if trace == [] then Some(Connecting)
    else
      match PhaseOf(trace[..|trace| - 1])
      case None => None
      case Some(p) => Advance(p, trace[|trace| - 1])
  }

  lemma PhaseExtends(trace: seq<Event>, e: Event)
    ensures PhaseOf(trace + [e]) == if PhaseOf(trace).Some? then Advance(PhaseOf(trace).value, e) else None
  {
  }

  predicate InSession(e: Event) {
    e.Subscribe? || e.Unsubscribe? || e.Incoming?
  }

  /** Closed, or Established (Subscribe | Unsubscribe | Incoming)* and then possibly Closed, or nothing yet. */
  predicate SessionShape(trace: seq<Event>) {
    || trace == [] || trace == [Closed]
    || (&& trace[0] == Established
        && (forall i | 0 < i < |trace| - 1 :: InSession(trace[i]))
        && (|trace| > 1 ==> InSession(trace[|trace| - 1]) || trace[|trace| - 1] == Closed))
  }

  lemma LastEventDecides(trace: seq<Event>)
    requires PhaseOf(trace).Some?
    ensures PhaseOf(trace).value == Gone <==> trace != [] && trace[|trace| - 1] == Closed
    ensures PhaseOf(trace).value == Connecting <==> trace == []
  {
  }

  /** What the phases say about the whole trace. */
  lemma {:induction false} PhasesGiveShape(trace: seq<Event>)
    requires PhaseOf(trace).Some?
    ensures SessionShape(trace)
  {
    if |trace| > 1 {
      var init := trace[..|trace| - 1];
      PhasesGiveShape(init);
      LastEventDecides(init);
      assert PhaseOf(init).value.Open?;
      assert forall i | 0 < i < |init| :: trace[i] == init[i];
    } else if |trace| == 1 {
      assert trace[..0] == [];
    }
  }

  /** The event at `i` subscribed `id` to `d`, and `id` has not been unsubscribed since. */
  ghost predicate SubscribedAt(trace: seq<Event>, i: nat, id: SubId, d: Destination) {
    && i < |trace| && trace[i] == Subscribe(id, d)
    && forall j | i < j < |trace| :: !(trace[j].Unsubscribe? && trace[j].id == id)
  }

  lemma SubscribedAtExtends(trace: seq<Event>, e: Event, i: nat, id: SubId, d: Destination)
    requires i < |trace|
    ensures SubscribedAt(trace + [e], i, id, d) <==> SubscribedAt(trace, i, id, d) && !(e.Unsubscribe? && e.id == id)
  {
    assert (trace + [e])[|trace|] == e;
    assert forall j | 0 <= j < |trace| :: (trace + [e])[j] == trace[j];
  }

  /** A subscription is live exactly when its id was subscribed to that destination and not unsubscribed since. */
  lemma {:induction false} LiveMeansSubscribed(trace: seq<Event>, id: SubId, d: Destination)
    requires PhaseOf(trace).Some? && PhaseOf(trace).value.Open?
    ensures (id in PhaseOf(trace).value.live && PhaseOf(trace).value.live[id] == d)
       <==> exists i: nat :: SubscribedAt(trace, i, id, d)
  {
    if trace != [] {
      var init, e := trace[..|trace| - 1], trace[|trace| - 1];
      assert trace == init + [e];
      forall i: nat | i < |init|
        ensures SubscribedAt(trace, i, id, d) <==> SubscribedAt(init, i, id, d) && !(e.Unsubscribe? && e.id == id)
      {
        SubscribedAtExtends(init, e, i, id, d);
      }
      LastEventDecides(init);
      if PhaseOf(init).value.Open? {
        LiveMeansSubscribed(init, id, d);
      }
      if e == Subscribe(id, d) {
        assert SubscribedAt(trace, |init|, id, d);
      }
    }
  }
}
