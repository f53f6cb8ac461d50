/** How a route takes a bus channel over from the fallback forwarder: RegisterRoute and Close of
    transport/fabric/router.go against addSubscription and removeSubscription of transport/fabric/endpoint.go.

    One channel, any number of calls, one step per lock section or bus operation.  The router's lock guards `route`
    and `routerClosed`; the endpoint's lock guards `mapping`, and `holder` says how far a subscription call has come
    while it holds it.  A HandleContext is one step here: HandlerClose has its race with Close. */
module Takeover {
  import opened Options
  import opened Runs

  datatype Handler = Fallback(n: nat) | Stream(handle: nat)

  datatype Mapping = Mapping(subs: set<string>, fallback: Option<nat>, autoCreated: bool)

  /** addSubscription without a mapping: take the lock, ask hasRoute, listen (creating the channel if need be),
      Handle, store the mapping.  removeSubscription: drop the mapping, destroy the channel. */
  datatype Holder =
    | Free
    | Checking(id: string)
    | Listening(id: string)
    | Attaching(id: string, auto: bool)
    | Storing(id: string, fallback: Option<nat>, auto: bool)
    | Destroying

  /** How far the RegisterRoute call that made a handle has come. */
  datatype Phase = Listened | Published | Detached(fallback: Option<nat>) | Swapped | Returned | Rejected

  datatype State = State(
    channelExists: bool,              // the channel is there
    attached: set<Handler>,     // its handlers
    mapping: Option<Mapping>,
    holder: Holder,
    nextFallback: nat,
    route: Option<nat>,         // the registered handle
    routerClosed: bool,
    calls: seq<Phase>,          // by handle
    closing: set<nat>,          // handles out of the table whose stream is, or is about to be, closed
    closed: set<nat>)           // handles whose stream is closed

  function Start(channelExists: bool): State {
    State(channelExists, {}, None, Free, 0, None, false, [], {}, {})
  }

  datatype Action =
    | AddLock(id: string) | AddCheck | AddListen | AddAttach | AddStore
    | RemoveLock(id: string) | RemoveDestroy
    | Listen | Publish(h: nat) | Detach(h: nat) | CloseDetached(h: nat) | Attach(h: nat)
    | CloseHandle(h: nat) | CloseRouter | CloseStream(h: nat)
    | CreateChannel | DestroyChannel

  predicate At(s: State, h: nat, p: Phase) {
    h < |s.calls| && s.calls[h] == p
  }

  function AddStep(s: State, act: Action): State
    requires act.AddLock? || act.AddCheck? || act.AddListen? || act.AddAttach? || act.AddStore?
  {
    match act
    case AddLock(id) =>
      if s.holder != Free then s
      else if s.mapping.Some? then s.(mapping := Some(s.mapping.value.(subs := s.mapping.value.subs + {id})))
      else s.(holder := Checking(id))
    case AddCheck =>
      if !s.holder.Checking? then s
      else if s.route.Some? then s.(holder := Storing(s.holder.id, None, false))
      else s.(holder := Listening(s.holder.id))
    case AddListen =>
      if !s.holder.Listening? then s else s.(channelExists := true, holder := Attaching(s.holder.id, !s.channelExists))
    case AddAttach =>
      if !s.holder.Attaching? then s
      else s.(attached := s.attached + if s.channelExists then {Fallback(s.nextFallback)} else {},
              holder := Storing(s.holder.id, Some(s.nextFallback), s.holder.auto), nextFallback := s.nextFallback + 1)
    case AddStore =>
      if !s.holder.Storing? then s
      else s.(mapping := Some(Mapping({s.holder.id}, s.holder.fallback, s.holder.auto)), holder := Free)
  }

  function Without(attached: set<Handler>, fallback: Option<nat>): set<Handler> {
    if fallback.Some? then attached - {Fallback(fallback.value)} else attached
  }

  function RemoveStep(s: State, act: Action): State
    requires act.RemoveLock? || act.RemoveDestroy?
  {
    match act
    case RemoveLock(id) =>
      if s.holder != Free || s.mapping.None? || id !in s.mapping.value.subs then s
      else if s.mapping.value.subs != {id}
                then s.(mapping := Some(s.mapping.value.(subs := s.mapping.value.subs - {id})))
      else s.(attached := Without(s.attached, s.mapping.value.fallback), mapping := None,
              holder := if s.mapping.value.autoCreated then Destroying else Free)
    case RemoveDestroy =>
      if s.holder != Destroying then s else s.(channelExists := false, attached := {}, holder := Free)
  }

  function RegisterStep(s: State, act: Action): State
    requires act.Listen? || act.Publish? || act.Detach? || act.CloseDetached? || act.Attach?
  {
    match act
    case Listen =>
      if s.routerClosed || !s.channelExists then s else s.(calls := s.calls + [Listened])
    case Publish(h) =>
      if !At(s, h, Listened) then s
      else if s.routerClosed || s.route.Some? then s.(calls := s.calls[h := Rejected])
      else s.(route := Some(h), calls := s.calls[h := Published])
    case Detach(h) =>
      if !At(s, h, Published) || s.holder != Free then s
      else if s.mapping.None? then s.(calls := s.calls[h := Detached(None)])
      else s.(calls := s.calls[h := Detached(s.mapping.value.fallback)],
              mapping := Some(s.mapping.value.(fallback := None, autoCreated := false)))
    case CloseDetached(h) =>
      if h >= |s.calls| || !s.calls[h].Detached? then s
      else s.(attached := Without(s.attached, s.calls[h].fallback), calls := s.calls[h := Swapped])
    case Attach(h) =>
      if !At(s, h, Swapped) then s
      else s.(attached := s.attached + if s.channelExists && h !in s.closed then {Stream(h)} else {},
              calls := s.calls[h := Returned])
  }

  function CloseStep(s: State, act: Action): State
    requires act.CloseHandle? || act.CloseRouter? || act.CloseStream?
  {
    match act
    case CloseHandle(h) =>
      if !At(s, h, Returned) then s
      else s.(route := if s.route == Some(h) then None else s.route, closing := s.closing + {h})
    case CloseRouter =>
      s.(route := None, routerClosed := true, closing := s.closing + if s.route.Some? then {s.route.value} else {})
    case CloseStream(h) =>
      if h !in s.closing then s else s.(attached := s.attached - {Stream(h)}, closed := s.closed + {h})
  }

  /** One step of some call, or of anyone who creates or destroys the channel. */
  function Step(s: State, act: Action): State {
    match act
    case AddLock(_) => AddStep(s, act)
    case AddCheck => AddStep(s, act)
    case AddListen => AddStep(s, act)
    case AddAttach => AddStep(s, act)
    case AddStore => AddStep(s, act)
    case RemoveLock(_) => RemoveStep(s, act)
    case RemoveDestroy => RemoveStep(s, act)
    case CloseHandle(_) => CloseStep(s, act)
    case CloseRouter => CloseStep(s, act)
    case CloseStream(_) => CloseStep(s, act)
    case CreateChannel => s.(channelExists := true)
    case DestroyChannel => s.(channelExists := false, attached := {})
    case _ => RegisterStep(s, act)
  }

  /** The route is in the table, and its registration has taken the fallback forwarder away. */
  predicate TakenOver(s: State) {
    s.route.Some? && s.route.value < |s.calls|
    && (s.calls[s.route.value].Detached? || s.calls[s.route.value] in {Swapped, Returned})
  }

  /** Neither the mapping nor a subscription call under way owns a fallback forwarder or the channel. */
  predicate NothingOwned(s: State) {
    && (s.mapping.Some? ==> s.mapping.value.fallback.None? && !s.mapping.value.autoCreated)
    && match s.holder
       case Free => true
       case Checking(_) => true
       case Storing(_, fallback, auto) => fallback.None? && !auto
       case _ => false
  }

  /** The fallback forwarder `f` is still someone's to close. */
  ghost predicate Owns(s: State, f: nat) {
    || (s.mapping.Some? && s.mapping.value.fallback == Some(f))
    || (s.holder.Storing? && s.holder.fallback == Some(f))
    || exists h: nat :: At(s, h, Detached(Some(f)))
  }

  predicate Registering(p: Phase) {
    p == Published || p.Detached? || p == Swapped
  }

  ghost predicate Inv(s: State) {
    && (s.holder != Free ==> s.mapping.None?)
    && (s.mapping.Some? ==> s.mapping.value.subs != {})
    && (forall f | Fallback(f) in s.attached :: Owns(s, f))
    && (forall h | Stream(h) in s.attached :: At(s, h, Returned))
    && (TakenOver(s) ==> NothingOwned(s))
    && (s.routerClosed ==> s.route.None?)
    && (s.route.Some? ==> s.route.value < |s.calls| && s.route.value !in s.closing
                          && s.calls[s.route.value] !in {Listened, Rejected})
    && (forall h: nat | h < |s.calls| && Registering(s.calls[h]) :: s.route == Some(h) || s.routerClosed)
    && (forall h | h in s.closing :: h < |s.calls| && s.calls[h] !in {Listened, Rejected})
    && s.closed <= s.closing
  }

  /** Whoever was handed a forwarder keeps it until it is closed. */
  lemma OwnersKept(s: State, t: State)
    requires forall f | Fallback(f) in s.attached :: Owns(s, f)
    requires forall f, h: nat | Fallback(f) in t.attached && At(s, h, Detached(Some(f))) :: At(t, h, Detached(Some(f)))
    requires forall f | Fallback(f) in t.attached ::
               Owns(t, f) || (Fallback(f) in s.attached && exists h: nat :: At(s, h, Detached(Some(f))))
    ensures forall f | Fallback(f) in t.attached :: Owns(t, f)
  {
  }

  lemma AddKeeps(s: State, act: Action)
    requires Inv(s) && (act.AddLock? || act.AddCheck? || act.AddListen? || act.AddAttach? || act.AddStore?)
    ensures Inv(AddStep(s, act))
  {
    OwnersKept(s, AddStep(s, act));
  }

  lemma RemoveKeeps(s: State, act: Action)
    requires Inv(s) && (act.RemoveLock? || act.RemoveDestroy?)
    ensures Inv(RemoveStep(s, act))
  {
    OwnersKept(s, RemoveStep(s, act));
  }

  lemma PublishKeeps(s: State, act: Action)
    requires Inv(s) && (act.Listen? || act.Publish?)
    ensures Inv(RegisterStep(s, act))
  {
    OwnersKept(s, RegisterStep(s, act));
  }

  lemma DetachKeeps(s: State, h: nat)
    requires Inv(s)
    ensures Inv(RegisterStep(s, Detach(h)))
  {
    var t := RegisterStep(s, Detach(h));
    if t != s {
      assert At(t, h, t.calls[h]);
    }
    OwnersKept(s, t);
  }

  lemma AttachKeeps(s: State, act: Action)
    requires Inv(s) && (act.CloseDetached? || act.Attach?)
    ensures Inv(RegisterStep(s, act))
  {
    OwnersKept(s, RegisterStep(s, act));
  }

  lemma CloseKeeps(s: State, act: Action)
    requires Inv(s) && (act.CloseHandle? || act.CloseRouter? || act.CloseStream?)
    ensures Inv(CloseStep(s, act))
  {
    OwnersKept(s, CloseStep(s, act));
  }

  lemma ChannelKeeps(s: State, act: Action)
    requires Inv(s) && (act.CreateChannel? || act.DestroyChannel?)
    ensures Inv(Step(s, act))
  {
    OwnersKept(s, Step(s, act));
  }

  lemma StepKeeps(s: State, act: Action)
    requires Inv(s)
    ensures Inv(Step(s, act))
  {
    match act
    case AddLock(_) => AddKeeps(s, act);
    case AddCheck => AddKeeps(s, act);
    case AddListen => AddKeeps(s, act);
    case AddAttach => AddKeeps(s, act);
    case AddStore => AddKeeps(s, act);
    case RemoveLock(_) => RemoveKeeps(s, act);
    case RemoveDestroy => RemoveKeeps(s, act);
    case Listen => PublishKeeps(s, act);
    case Publish(_) => PublishKeeps(s, act);
    case Detach(h) => DetachKeeps(s, h);
    case CloseDetached(_) => AttachKeeps(s, act);
    case Attach(_) => AttachKeeps(s, act);
    case CloseHandle(_) => CloseKeeps(s, act);
    case CloseRouter => CloseKeeps(s, act);
    case CloseStream(_) => CloseKeeps(s, act);
    case CreateChannel => ChannelKeeps(s, act);
    case DestroyChannel => ChannelKeeps(s, act);
  }

  lemma RunsKeep(s: State, acts: seq<Action>)
    requires Inv(s)
    ensures Inv(Run(Step, s, acts))
  {
    forall t, act | Inv(t) ensures Inv(Step(t, act)) {
      StepKeeps(t, act);
    }
    RunKeeps(Step, t => Inv(t), s, acts);
  }

  /** A subscription call with nobody in between: the first one on a channel without a route puts a fallback forwarder
      on the channel, and owns the channel exactly if it had to make it; with a route it does neither; and a later one
      joins the mapping. */
  lemma SubscribingAlone(s: State, id: string)
    requires s.holder == Free
    ensures var t := Step(s, AddLock(id));
            var u := Step(Step(t, AddCheck), AddStore);
            var v := Step(Step(Step(Step(t, AddCheck), AddListen), AddAttach), AddStore);
            match s.mapping
            case Some(m) => t == s.(mapping := Some(m.(subs := m.subs + {id})))
            case None =>
              if s.route.Some? then u == s.(mapping := Some(Mapping({id}, None, false)))
              else v == s.(mapping := Some(Mapping({id}, Some(s.nextFallback), !s.channelExists)),
                           channelExists := true, attached := s.attached + {Fallback(s.nextFallback)},
                           nextFallback := s.nextFallback + 1)
  {
  }

  /** And an unsubscription: the last one takes the fallback forwarder off the channel, and the channel away if the
      endpoint owns it. */
  lemma LeavingAlone(s: State, id: string)
    requires s.holder == Free && s.mapping.Some? && id in s.mapping.value.subs
    ensures var m := s.mapping.value;
            var t := Step(Step(s, RemoveLock(id)), RemoveDestroy);
            && t.holder == Free
            && (m.subs != {id} ==> t == s.(mapping := Some(m.(subs := m.subs - {id}))))
            && (m.subs == {id} ==> t.mapping == None && (t.channelExists <==> s.channelExists && !m.autoCreated))
            && (m.subs == {id} && m.autoCreated ==> t.attached == {})
            && (m.subs == {id} && !m.autoCreated ==>
                  forall h :: h in t.attached <==> h in s.attached && !(h.Fallback? && Some(h.n) == m.fallback))
  {
  }

  /** Destroying a channel takes all its handlers off it. */
  lemma DestroyTakesAll(s: State)
    ensures var t := Step(s, DestroyChannel); !t.channelExists && t.attached == {} && t.route == s.route
    ensures Step(s, CreateChannel) == s.(channelExists := true)
  {
  }

  /** A handle whose stream is closed is out of the table, and its stream is never on the channel again. */
  predicate ClosedFor(s: State, h: nat) {
    h in s.closed && Stream(h) !in s.attached
  }

  lemma ClosedStep(s: State, act: Action, h: nat)
    requires ClosedFor(s, h)
    ensures ClosedFor(Step(s, act), h)
  {
  }

  lemma {:induction false} StaysClosed(s: State, h: nat, later: seq<Action>)
    requires ClosedFor(s, h)
    ensures ClosedFor(Run(Step, s, later), h)
  {
    if later != [] {
      StaysClosed(s, h, later[..|later| - 1]);
      ClosedStep(Run(Step, s, later[..|later| - 1]), later[|later| - 1], h);
    }
  }

  lemma OutOfTable(s: State, h: nat)
    requires Inv(s) && h in s.closed
    ensures s.route != Some(h)
  {
  }

  lemma ClosedStreamIsGone(s: State, h: nat, later: seq<Action>)
    requires Inv(s) && h in s.closing
    ensures var t := Run(Step, Step(s, CloseStream(h)), later);
            ClosedFor(t, h) && t.route != Some(h)
  {
    var c := Step(s, CloseStream(h));
    StepKeeps(s, CloseStream(h));
    StaysClosed(c, h, later);
    RunsKeep(c, later);
    OutOfTable(Run(Step, c, later), h);
  }

  /** Closing the router takes the route out of the table, marks its stream to be closed, and lets no route in again. */
  lemma {:induction false} RouterStaysClosed(s: State, later: seq<Action>)
    ensures var t := Run(Step, Step(s, CloseRouter), later);
            && t.routerClosed && t.route == None && (s.route.Some? ==> s.route.value in t.closing)
            && |t.calls| == |s.calls|
  {
    if later != [] {
      RouterStaysClosed(s, later[..|later| - 1]);
      ClosedStaysClosed(Run(Step, Step(s, CloseRouter), later[..|later| - 1]), later[|later| - 1]);
    }
  }

  lemma ClosedStaysClosed(s: State, act: Action)
    requires s.routerClosed && s.route == None
    ensures var t := Step(s, act);
            t.routerClosed && t.route == None && s.closing <= t.closing && |t.calls| == |s.calls|
  {
  }

  /** A registration enters the table if the router is open and the channel has no route, and is turned away for good
      otherwise. */
  lemma PublishDecides(s: State, h: nat, later: seq<Action>)
    requires At(s, h, Listened)
    ensures var t := Step(s, Publish(h));
            if s.routerClosed || s.route.Some?
            then t.route == s.route && At(Run(Step, t, later), h, Rejected)
            else t.route == Some(h) && At(t, h, Published)
  {
    if s.routerClosed || s.route.Some? {
      StaysRejected(Step(s, Publish(h)), h, later);
    }
  }

  lemma {:induction false} StaysRejected(s: State, h: nat, later: seq<Action>)
    requires At(s, h, Rejected)
    ensures At(Run(Step, s, later), h, Rejected)
  {
    if later != [] {
      StaysRejected(s, h, later[..|later| - 1]);
      RejectedStep(Run(Step, s, later[..|later| - 1]), later[|later| - 1], h);
    }
  }

  lemma RejectedStep(s: State, act: Action, h: nat)
    requires At(s, h, Rejected)
    ensures At(Step(s, act), h, Rejected)
  {
  }

  predicate RouteAt(s: State, p: Phase) {
    s.route.Some? && At(s, s.route.value, p)
  }

  /** The takeover theorem.  Whatever else happens: once the registration of the route in the table has taken the
      old forwarder away, and until that route is closed, no mapping and no subscription call under way holds a
      fallback forwarder; and from the moment it has closed the old one, none is on the channel. */
  lemma NoFallbackBesideRoute(channelExists: bool, acts: seq<Action>)
    ensures var s := Run(Step, Start(channelExists), acts);
            && (TakenOver(s) ==> NothingOwned(s))
            && (RouteAt(s, Swapped) || RouteAt(s, Returned) ==> forall f :: Fallback(f) !in s.attached)
            && (s.route.Some? && Stream(s.route.value) in s.attached ==> forall f :: Fallback(f) !in s.attached)
  {
    var s := Run(Step, Start(channelExists), acts);
    RunsKeep(Start(channelExists), acts);
    if RouteAt(s, Swapped) || RouteAt(s, Returned) {
      forall f ensures Fallback(f) !in s.attached {
        assert forall h: nat :: At(s, h, Detached(Some(f))) ==> Registering(s.calls[h]);
      }
    }
  }

  /** `t` can follow `s` without anyone but the endpoint destroying the channel. */
  ghost predicate Leads(s: State, t: State) {
    exists acts :: DestroyChannel !in acts && Run(Step, s, acts) == t
  }

  lemma LeadsNowhere(s: State)
    ensures Leads(s, s)
  {
    assert Run(Step, s, []) == s;
  }

  lemma LeadsOn(s: State, t: State, act: Action)
    requires Leads(s, t) && act != DestroyChannel
    ensures Leads(s, Step(t, act))
  {
    var acts :| DestroyChannel !in acts && Run(Step, s, acts) == t;
    RunLast(Step, s, acts, act);
    assert DestroyChannel !in acts + [act];
  }

  lemma LeadsBy(s: State, t: State, act: Action) returns (u: State)
    requires Leads(s, t) && act != DestroyChannel
    ensures u == Step(t, act) && Leads(s, u)
  {
    LeadsOn(s, t, act);
    u := Step(t, act);
  }

  lemma MayTakeOver(s: State, t: State, h: nat) returns (u: State)
    requires Leads(s, t) && At(t, h, Listened) && t.mapping.None? && t.holder == Free && t.route.None? &&
               !t.routerClosed
    ensures Leads(s, u) && u == t.(route := Some(h), calls := t.calls[h := Detached(None)])
  {
    u := LeadsBy(s, t, Publish(h));
    assert u.calls == t.calls[h := Published];
    u := LeadsBy(s, u, Detach(h));
    assert u.calls == t.calls[h := Detached(None)];
  }

  /** A listening registration runs to its end with nothing in between. */
  lemma MayRegister(s: State, t: State, h: nat) returns (u: State)
    requires Leads(s, t) && At(t, h, Listened) && t.mapping.None? && t.holder == Free && t.route.None? &&
               !t.routerClosed
    ensures Leads(s, u) && u == t.(route := Some(h), calls := t.calls[h := Returned],
                                   attached := t.attached + if t.channelExists &&
                                     h !in t.closed then {Stream(h)} else {})
  {
    u := MayTakeOver(s, t, h);
    u := LeadsBy(s, u, CloseDetached(h));
    assert u.calls == t.calls[h := Swapped];
    u := LeadsBy(s, u, Attach(h));
    assert u.calls == t.calls[h := Returned];
  }

  lemma MayAddFallback(s: State, t: State, id: string) returns (u: State)
    requires Leads(s, t) && t.mapping.None? && t.holder == Free && t.route.None? && t.channelExists
    ensures Leads(s, u) && u.attached == t.attached + {Fallback(t.nextFallback)}
  {
    u := LeadsBy(s, t, AddLock(id));
    u := LeadsBy(s, u, AddCheck);
    u := LeadsBy(s, u, AddListen);
    u := LeadsBy(s, u, AddAttach);
  }

  /** The condition on the route is needed: Close takes the route out of the table before it closes the stream, and
      a subscription in between puts a fallback forwarder beside the stream. */
  lemma BothWhileClosing()
    ensures exists t :: Leads(Start(true), t) && Fallback(0) in t.attached && Stream(0) in t.attached
  {
    var s := Start(true);
    LeadsNowhere(s);
    var t := LeadsBy(s, s, Listen);
    t := MayRegister(s, t, 0);
    t := LeadsBy(s, t, CloseHandle(0));
    t := MayAddFallback(s, t, "c#1");
  }

  /** All subscribers of a channel that has been taken over leave, and the channel stays. */
  lemma {:induction false} SubscribersMayLeave(s: State, t: State) returns (u: State)
    requires Leads(s, t) && t.holder == Free && (t.mapping.Some? ==> t.mapping.value.subs != {}) && NothingOwned(t)
    ensures Leads(s, u) && u == t.(mapping := None)
    decreases if t.mapping.Some? then |t.mapping.value.subs| else 0
  {
    u := t;
    if t.mapping.Some? {
      var id :| id in t.mapping.value.subs;
      u := LeadsBy(s, t, RemoveLock(id));
      if t.mapping.value.subs != {id} {
        assert u.mapping.value.subs != {};
        u := SubscribersMayLeave(s, u);
      }
    }
  }

  lemma CloseTakesOut(s: State, h: nat)
    requires Inv(s) && s.route == Some(h) && At(s, h, Returned)
    ensures Step(s, CloseHandle(h)) == s.(route := None, closing := s.closing + {h}) && NothingOwned(s)
  {
  }

  lemma {:induction false} ReturnedAttachesNoMore(s: State, acts: seq<Action>, h: nat)
    requires At(s, h, Returned) && Stream(h) !in s.attached
    ensures At(Run(Step, s, acts), h, Returned) && Stream(h) !in Run(Step, s, acts).attached
  {
    if acts != [] {
      ReturnedAttachesNoMore(s, acts[..|acts| - 1], h);
      NoMoreStep(Run(Step, s, acts[..|acts| - 1]), acts[|acts| - 1], h);
    }
  }

  lemma NoMoreStep(s: State, act: Action, h: nat)
    requires At(s, h, Returned) && Stream(h) !in s.attached
    ensures At(Step(s, act), h, Returned) && Stream(h) !in Step(s, act).attached
  {
  }

  /** Whenever a route is closed whose stream is on the channel, a fallback forwarder may come beside the stream before
      it is closed; and only then. */
  lemma ClosingOverlapsExactly(s: State, h: nat)
    requires Inv(s) && s.route == Some(h) && At(s, h, Returned) && s.channelExists && s.holder == Free
    ensures (exists t, f :: Leads(Step(s, CloseHandle(h)), t) && Stream(h) in t.attached && Fallback(f) in t.attached)
       <==> Stream(h) in s.attached
  {
    CloseTakesOut(s, h);
    var s' := Step(s, CloseHandle(h));
    if Stream(h) in s.attached {
      LeadsNowhere(s');
      var t := SubscribersMayLeave(s', s');
      var u := MayAddFallback(s', t, "c#1");
      assert Fallback(t.nextFallback) in u.attached;
    } else {
      forall t | Leads(s', t) ensures Stream(h) !in t.attached {
        var acts :| DestroyChannel !in acts && Run(Step, s', acts) == t;
        ReturnedAttachesNoMore(s', acts, h);
      }
    }
  }

  /** The endpoint made the channel, or is making it, for subscriptions alone. */
  predicate AutoOwned(s: State) {
    || (s.mapping.Some? && s.mapping.value.autoCreated)
    || (s.holder.Attaching? && s.holder.auto) || (s.holder.Storing? && s.holder.auto) || s.holder.Destroying?
  }

  /** Every registration that has returned since `s`, and is still in the table, has its stream on the channel. */
  ghost predicate Alive(s: State, t: State) {
    forall h | t.route == Some(h) && At(t, h, Returned) && !At(s, h, Returned) :: Stream(h) in t.attached
  }

  lemma AliveStep(s: State, t: State, act: Action)
    requires Inv(t) && t.channelExists && !AutoOwned(t) && Alive(s, t) && act != DestroyChannel
    ensures var u := Step(t, act); u.channelExists && !AutoOwned(u) && Alive(s, u)
  {
  }

  lemma {:induction false} AliveRun(s: State, acts: seq<Action>)
    requires Inv(s) && s.channelExists && !AutoOwned(s) && DestroyChannel !in acts
    ensures var t := Run(Step, s, acts); Inv(t) && t.channelExists && !AutoOwned(t) && Alive(s, t)
  {
    if acts != [] {
      var init := acts[..|acts| - 1];
      AliveRun(s, init);
      AliveStep(s, Run(Step, s, init), acts[|acts| - 1]);
      StepKeeps(Run(Step, s, init), acts[|acts| - 1]);
    }
  }

  /** All subscribers of an auto-created channel leave. */
  function Emptied(t: State): State
    requires t.mapping.Some?
  {
    t.(attached := Without(t.attached, t.mapping.value.fallback), mapping := None, holder := Destroying)
  }

  lemma {:induction false} AllMayLeave(s: State, t: State)
    requires Leads(s, t) && t.holder == Free && t.mapping.Some? && t.mapping.value.autoCreated &&
               t.mapping.value.subs != {}
    ensures Leads(s, Emptied(t))
    decreases if t.mapping.Some? then |t.mapping.value.subs| else 0
  {
    var id :| id in t.mapping.value.subs;
    var u := LeadsBy(s, t, RemoveLock(id));
    if t.mapping.value.subs == {id} {
      assert u == Emptied(t);
    } else {
      assert u.mapping.value.subs != {};
      AllMayLeave(s, u);
      assert Emptied(u) == Emptied(t);
    }
  }

  /** The subscribers may leave, and take the channel with them, while a registration is between its ListenStream
      and its HandleContext: the route then stays in the table with its stream on no channel. */
  lemma RouteMayBeDead(s: State)
    requires Inv(s) && s.channelExists && s.holder == Free && s.route.None? && !s.routerClosed
    requires s.mapping.Some? && s.mapping.value.autoCreated
    ensures exists t :: Leads(s, t) && !Alive(s, t)
  {
    var h := |s.calls|;
    LeadsNowhere(s);
    var t := LeadsBy(s, s, Listen);
    AllMayLeave(s, t);
    t := LeadsBy(s, Emptied(t), RemoveDestroy);
    t := MayRegister(s, t, h);
    assert Stream(h) !in t.attached;
    assert !Alive(s, t);
  }

  /** A route registered from here on is sure to have its stream on the channel, as long as nobody else destroys the
      channel, exactly when the channel was not auto-created for the subscriptions it has now. */
  lemma RouteAliveExactly(s: State)
    requires Inv(s) && s.channelExists && s.holder == Free && s.route.None? && !s.routerClosed
    ensures (forall t | Leads(s, t) :: Alive(s, t)) <==> !(s.mapping.Some? && s.mapping.value.autoCreated)
  {
    if s.mapping.Some? && s.mapping.value.autoCreated {
      RouteMayBeDead(s);
    } else {
      forall t | Leads(s, t) ensures Alive(s, t) {
        var acts :| DestroyChannel !in acts && Run(Step, s, acts) == t;
        AliveRun(s, acts);
      }
    }
  }
}
