/** The race between Handle and Close of bus/message_handler.go.

    HandleContext subscribes, then stores the subscription id and reads `closed` under the lock, then unsubscribes
    if it was closed.  Close sets `closed` and reads the subscription id under the lock, then unsubscribes if there
    was one.  Close may run at any moment and any number of times: from other goroutines, or from a delivery to the
    handler that arrives before its subscription id is stored. */
module HandlerClose {
  import opened Options
  import opened Runs

  /** How far HandleContext has come. */
  datatype Setup = Fresh | Subscribed | Stored(sawClosed: bool) | Done

  /** A call of Close: it has been through the lock and read the subscription id, or it has returned. */
  datatype Closer = Read(id: Option<nat>) | Finished

  datatype Race = Race(
    list: set<nat>,               // subscription ids on the channel
    nextId: nat,
    mine: Option<nat>,            // the id SubscribeChannelHandler returned, nil when the channel was gone
    subscriptionId: Option<nat>,
    closed: bool,
    setup: Setup,
    closers: seq<Closer>)

  const START := Race({}, 0, None, None, false, Fresh, [])

  datatype Action =
    | Subscribe(channelExists: bool)
    | Store
    | Finish
    | EnterClose
    | LeaveClose(i: nat)
    | OtherSubscribes
    | OtherUnsubscribes(id: nat)

  function Unsubscribe(list: set<nat>, id: Option<nat>): set<nat> {
    if id.Some? then list - {id.value} else list
  }

  function Step(s: Race, act: Action): Race {
    match act
    case Subscribe(channelExists) =>
      if s.setup != Fresh then s
      else if !channelExists then s.(setup := Subscribed)
      else s.(list := s.list + {s.nextId}, nextId := s.nextId + 1, mine := Some(s.nextId), setup := Subscribed)
    case Store =>
      if s.setup != Subscribed then s else s.(subscriptionId := s.mine, setup := Stored(s.closed))
    case Finish =>
      if !s.setup.Stored? then s
      else s.(list := if s.setup.sawClosed then Unsubscribe(s.list, s.mine) else s.list, setup := Done)
    case EnterClose =>
      s.(closed := true, closers := s.closers + [Read(s.subscriptionId)])
    case LeaveClose(i) =>
      if i >= |s.closers| || s.closers[i].Finished? then s
      else s.(list := Unsubscribe(s.list, s.closers[i].id), closers := s.closers[i := Finished])
    case OtherSubscribes => s.(list := s.list + {s.nextId}, nextId := s.nextId + 1)
    case OtherUnsubscribes(id) => if Some(id) == s.mine then s else s.(list := s.list - {id})
  }

  ghost predicate Inv(s: Race) {
    && (forall id | id in s.list :: id < s.nextId)
    && (s.mine.Some? ==> s.mine.value < s.nextId && s.setup != Fresh)
    && (s.subscriptionId == if s.setup.Stored? || s.setup.Done? then s.mine else None)
    && (s.closed <==> s.closers != [])
    && (forall i | 0 <= i < |s.closers| && s.closers[i].Read? ::
          s.closers[i].id == None || (s.closers[i].id == s.mine && s.setup !in {Fresh, Subscribed}))
    && (s.mine.Some? ==> OnListExactly(s))
  }

  /** No Close, or only calls of Close that have read the handler's id and have yet to unsubscribe it. */
  ghost predicate AllHoldMine(s: Race) {
    forall i | 0 <= i < |s.closers| :: s.closers[i] == Read(s.mine)
  }

  /** Whether the subscribed handler is on the channel, as setup and the calls of Close say. */
  ghost predicate OnListExactly(s: Race)
    requires s.mine.Some?
  {
    match s.setup
    case Stored(false) => s.mine.value in s.list <==> AllHoldMine(s)
    case Stored(true) => !AllHoldMine(s)
    case Done => s.mine.value in s.list <==> AllHoldMine(s)
    case _ => s.mine.value in s.list
  }

  lemma EnterHolds(s: Race)
    ensures AllHoldMine(Step(s, EnterClose)) <==> AllHoldMine(s) && s.subscriptionId == s.mine
  {
    var t := Step(s, EnterClose);
    assert forall i | 0 <= i < |s.closers| :: t.closers[i] == s.closers[i];
    assert t.closers[|s.closers|] == Read(s.subscriptionId);
    if AllHoldMine(t) {
      forall i | 0 <= i < |s.closers| ensures s.closers[i] == Read(s.mine) {
        assert t.closers[i] == Read(t.mine);
      }
    }
  }

  lemma LeaveHolds(s: Race, i: nat)
    requires i < |s.closers| && s.closers[i].Read?
    ensures !AllHoldMine(Step(s, LeaveClose(i)))
    ensures AllHoldMine(s) ==> s.closers[i].id == s.mine
  {
    assert Step(s, LeaveClose(i)).closers[i] == Finished;
  }

  lemma CloseKeeps(s: Race, act: Action)
    requires Inv(s) && (act.EnterClose? || act.LeaveClose?)
    ensures Inv(Step(s, act))
  {
    if act.EnterClose? {
      EnterHolds(s);
    } else if act.i < |s.closers| && s.closers[act.i].Read? {
      LeaveHolds(s, act.i);
    }
  }

  lemma StepKeeps(s: Race, act: Action)
    requires Inv(s)
    ensures Inv(Step(s, act))
  {
    if act.EnterClose? || act.LeaveClose? {
      CloseKeeps(s, act);
    } else if act.Store? && s.setup == Subscribed && s.mine.Some? && s.closed {
      assert Step(s, act).closers[0] != Read(s.mine);
    }
  }

  predicate Leaked(s: Race) {
    s.mine.Some? && s.mine.value in s.list
  }

  /** After setup: exactly as long as every Close holds the id; so not once one has returned. */
  lemma AfterSetup(s: Race)
    requires Inv(s) && s.setup == Done
    ensures s.mine.Some? ==> (s.mine.value in s.list <==> AllHoldMine(s))
    ensures Finished in s.closers ==> !Leaked(s)
  {
    if i :| 0 <= i < |s.closers| && s.closers[i] == Finished {
      assert !AllHoldMine(s);
    }
  }

  lemma GoneStep(s: Race, act: Action)
    requires Inv(s) && s.setup == Done && !Leaked(s)
    ensures !Leaked(Step(s, act)) && Step(s, act).setup == Done
  {
  }

  /** Once HandleContext and at least one Close have returned, the handler is not on the channel, whatever the
      interleaving; and no later step puts it back. */
  lemma NoLeak(acts: seq<Action>, later: seq<Action>)
    requires Run(Step, START, acts).setup == Done && Finished in Run(Step, START, acts).closers
    ensures !Leaked(Run(Step, START, acts)) && !Leaked(Run(Step, START, acts + later))
  {
    RunsKeep(acts);
    var s := Run(Step, START, acts);
    AfterSetup(s);
    var gone := t => Inv(t) && t.setup == Done && !Leaked(t);
    forall t, act | gone(t) ensures gone(Step(t, act)) {
      StepKeeps(t, act);
      GoneStep(t, act);
    }
    RunKeeps(Step, gone, s, later);
    RunAppend(Step, START, acts, later);
  }

  lemma RunsKeep(acts: seq<Action>)
    ensures Inv(Run(Step, START, acts))
  {
    forall t, act | Inv(t) ensures Inv(Step(t, act)) {
      StepKeeps(t, act);
    }
    RunKeeps(Step, Inv, START, acts);
  }

  lemma {:induction false} ClosersEntered(acts: seq<Action>)
    ensures Run(Step, START, acts).closers == [] <==> EnterClose !in acts
  {
    if acts != [] {
      ClosersEntered(acts[..|acts| - 1]);
      assert acts == acts[..|acts| - 1] + [acts[|acts| - 1]];
    }
  }

  /** In every run a subscribed handler is on the channel as long as nobody closes it; and after HandleContext, exactly
      as long as every call of Close came after the id was stored and has yet to unsubscribe it. */
  lemma SubscribedExactly(acts: seq<Action>)
    ensures var s := Run(Step, START, acts);
            s.mine.Some? ==>
              && (EnterClose !in acts ==> s.mine.value in s.list)
              && (s.setup == Done ==> (s.mine.value in s.list <==> AllHoldMine(s)))
  {
    RunsKeep(acts);
    ClosersEntered(acts);
  }

  /** `t` comes from `s` by some steps. */
  ghost predicate Leads(s: Race, t: Race) {
    exists acts :: t == Run(Step, s, acts)
  }

  lemma LeadsNowhere(s: Race)
    ensures Leads(s, s)
  {
    assert s == Run(Step, s, []);
  }

  lemma LeadsBy(s: Race, t: Race, act: Action)
    requires Leads(s, t) && Inv(t)
    ensures Leads(s, Step(t, act)) && Inv(Step(t, act))
  {
    StepKeeps(t, act);
    var acts :| t == Run(Step, s, acts);
    RunLast(Step, s, acts, act);
  }

  lemma LeadsTrans(s: Race, t: Race, u: Race)
    requires Leads(s, t) && Leads(t, u)
    ensures Leads(s, u)
  {
    var acts :| t == Run(Step, s, acts);
    var more :| u == Run(Step, t, more);
    RunAppend(Step, s, acts, more);
  }

  predicate OfOthers(act: Action) {
    act.EnterClose? || act.LeaveClose? || act.OtherSubscribes? || act.OtherUnsubscribes?
  }

  /** `t` comes from `s` by steps of other goroutines. */
  ghost predicate Later(s: Race, t: Race) {
    && Inv(t) && Leads(s, t) && t.mine == s.mine && t.setup == s.setup && t.subscriptionId == s.subscriptionId
    && OnlyFinished(s.closers, t.closers)
  }

  ghost predicate OnlyFinished(before: seq<Closer>, after: seq<Closer>) {
    && |before| <= |after|
    && forall i | 0 <= i < |before| :: after[i] == before[i] || after[i].Finished?
  }

  lemma FinishedBy(before: seq<Closer>, t: Race, act: Action)
    requires OnlyFinished(before, t.closers)
    ensures OnlyFinished(before, Step(t, act).closers)
  {
  }

  lemma LaterBy(s: Race, t: Race, act: Action)
    requires Later(s, t) && OfOthers(act)
    ensures Later(s, Step(t, act))
  {
    LeadsBy(s, t, act);
    FinishedBy(s.closers, t, act);
  }

  /** The handler with the steps of its two methods as the code has them.  `mine`, `setup` and `closers` stand for
      the local state of the goroutines inside those methods; between two steps of one, the others take any number
      of theirs. */
  class MessageHandler {
    var list: set<nat>
    var nextId: nat
    var subscriptionId: Option<nat>
    var closed: bool
    var mine: Option<nat>
    var setup: Setup
    var closers: seq<Closer>

    constructor ()
      ensures State() == START
    {
      list, nextId, subscriptionId, closed, mine, setup, closers := {}, 0, None, false, None, Fresh, [];
    }

    function State(): Race
      reads this
    {
      Race(list, nextId, mine, subscriptionId, closed, setup, closers)
    }

    method Interfere()
      requires Inv(State())
      modifies this`list, this`nextId, this`closed, this`closers
      ensures Later(old(State()), State())
    {
      ghost var s := State();
      LeadsNowhere(s);
      var steps: nat := *;
      while steps > 0
        invariant Later(s, State())
      {
        steps := steps - 1;
        ghost var t := State();
        ghost var act := InterfereOnce();
        LaterBy(s, t, act);
      }
    }

    method InterfereOnce() returns (ghost act: Action)
      requires Inv(State())
      modifies this`list, this`nextId, this`closed, this`closers
      ensures OfOthers(act) && State() == Step(old(State()), act)
    {
      var i :| 0 <= i;
      if * {
        act := Action.EnterClose;
        var _ := EnterClose();
      } else if i < |closers| && closers[i].Read? {
        act := Action.LeaveClose(i);
        LeaveClose(i);
      } else if Some(i) != mine {
        act := OtherUnsubscribes(i);
        list := list - {i};
      } else {
        act := OtherSubscribes;
        list, nextId := list + {nextId}, nextId + 1;
      }
    }

    /** The locked part of Close. */
    method EnterClose() returns (call: nat)
      requires Inv(State())
      modifies this`closed, this`closers
      ensures State() == Step(old(State()), Action.EnterClose) && Inv(State())
      ensures call == |old(closers)| && closers[call] == Read(subscriptionId)
    {
      StepKeeps(State(), Action.EnterClose);
      closed := true;
      call, closers := |closers|, closers + [Read(subscriptionId)];
    }

    /** The rest of Close: unsubscribe, if there was an id to read. */
    method LeaveClose(call: nat)
      requires Inv(State()) && call < |closers| && closers[call].Read?
      modifies this`list, this`closers
      ensures State() == Step(old(State()), Action.LeaveClose(call)) && Inv(State())
    {
      StepKeeps(State(), Action.LeaveClose(call));
      var id := closers[call].id;
      if id.Some? {
        list := list - {id.value};
      }
      closers := closers[call := Finished];
    }

    method Close()
      requires Inv(State())
      modifies this`list, this`nextId, this`closed, this`closers
      ensures Inv(State()) && Leads(old(State()), State())
      ensures |closers| > |old(closers)| && closers[|old(closers)|] == Finished && setup == old(setup)
      ensures setup == Done ==> !Leaked(State())
    {
      ghost var s := State();
      LeadsNowhere(s);
      LeadsBy(s, s, Action.EnterClose);
      var call := EnterClose();
      ghost var t := State();
      Interfere();
      LeadsTrans(s, t, State());
      ReturnFromClose(s, call);
    }

    /** Somebody else may have finished the call, as the machine does not say whose call it is. */
    method ReturnFromClose(ghost s: Race, call: nat)
      requires Inv(State()) && Leads(s, State()) && call < |closers|
      modifies this`list, this`closers
      ensures Inv(State()) && Leads(s, State())
      ensures |closers| == |old(closers)| && closers[call] == Finished
      ensures setup == Done ==> !Leaked(State())
    {
      if closers[call].Read? {
        LeadsBy(s, State(), Action.LeaveClose(call));
        LeaveClose(call);
      }
      assert closers[call] in closers;
      if setup == Done {
        AfterSetup(State());
      }
    }

    /** When it returns, the handler is on the channel exactly as long as every call of Close came late enough to find
        its id, and has yet to unsubscribe it; in particular if nobody closed it. */
    method HandleContext(channelExists: bool)
      requires Inv(State()) && setup == Fresh
      modifies this
      ensures Inv(State()) && Leads(old(State()), State()) && setup == Done
      ensures mine.Some? <==> channelExists
      ensures mine.Some? ==> (mine.value in list <==> AllHoldMine(State()))
      ensures mine.Some? && closers == [] ==> mine.value in list
      ensures Finished in closers ==> !Leaked(State())
    {
      ghost var s := State();
      LeadsNowhere(s);
      SubscribeSelf(s, channelExists);
      ghost var t := State();
      Interfere();
      LeadsTrans(s, t, State());
      var wasClosed := StoreId(s);
      t := State();
      Interfere();
      LeadsTrans(s, t, State());
      FinishSetup(s, wasClosed);
      AfterSetup(State());
    }

    method SubscribeSelf(ghost s: Race, channelExists: bool)
      requires Inv(State()) && Leads(s, State()) && setup == Fresh
      modifies this`list, this`nextId, this`mine, this`setup
      ensures State() == Step(old(State()), Action.Subscribe(channelExists)) && Inv(State()) && Leads(s, State())
      ensures setup == Subscribed && (mine.Some? <==> channelExists)
    {
      LeadsBy(s, State(), Action.Subscribe(channelExists));
      if channelExists {
        mine, list, nextId := Some(nextId), list + {nextId}, nextId + 1;
      }
      setup := Subscribed;
    }

    method FinishSetup(ghost s: Race, wasClosed: bool)
      requires Inv(State()) && Leads(s, State()) && setup == Stored(wasClosed)
      modifies this`list, this`setup
      ensures State() == Step(old(State()), Action.Finish) && Inv(State()) && Leads(s, State()) && setup == Done
    {
      LeadsBy(s, State(), Action.Finish);
      if wasClosed && subscriptionId.Some? {
        list := list - {subscriptionId.value};
      }
      setup := Done;
    }

    /** The locked part of HandleContext. */
    method StoreId(ghost s: Race) returns (wasClosed: bool)
      requires Inv(State()) && Leads(s, State()) && setup == Subscribed
      modifies this`subscriptionId, this`setup
      ensures State() == Step(old(State()), Action.Store) && Inv(State()) && Leads(s, State())
      ensures setup == Stored(wasClosed)
    {
      LeadsBy(s, State(), Action.Store);
      subscriptionId := mine;
      wasClosed := closed;
      setup := Stored(wasClosed);
    }
  }
}
