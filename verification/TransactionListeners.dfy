/** The listeners of a transaction as bus/eventbus.go has them: what bus/tx/transaction.go takes from the bus is what
    the wrapper of each request's listener calls. */
module TransactionListeners {
  import opened Options
  import opened Runs
  import opened Transactions
  import opened TransactionRuns
  import opened Wrapping

  /** Request `i` has no listener on the bus: it has not been executed, or it waits for a store. */
  predicate Unmade(s: Tx, i: nat) {
    i >= |s.listeners| || s.listeners[i].Idle? || s.listeners[i].id.None?
  }

  /** What comes to the listener of request `i` by one action: messages of its channel, some of them still on the way
      when the listener is closed, and the cancellation of its context. */
  function ArrivalsBy(s: Tx, act: TransactionRuns.Action, i: nat): seq<Arrival> {
    if Unmade(s, i) then []
    else
      match act
      case Deliver(j, m) => if i == j then [Arrived(m, false)] else []
      case CancelContext => [HandlerCancelled]
      case _ => []
  }

  function Arrivals(kind: Kind, acts: seq<TransactionRuns.Action>, i: nat): seq<Arrival> {
    if acts == [] then []
    else
      var init := acts[..|acts| - 1];
      Arrivals(kind, init, i) + ArrivalsBy(Run(TransactionRuns.Step, Begin(kind), init), acts[|acts| - 1], i)
  }

  /** Slot `i` and the wrapper of its listener go together: as long as the transaction has not failed, the slot holds
      exactly the message that the wrapper has called the listener with. */
  ghost predicate Tied(s: Tx, i: nat, w: Wrapped) {
    && !Unmade(s, i) && |s.listeners| == |s.core.responses|
    && w.cancelled == s.cancelled && (w.invoked <==> w.calls != []) && |w.calls| <= 1
    && (s.listeners[i].Armed? ==> w.calls == [])
    && (s.listeners[i].Spent? && w.calls == [] ==> s.core.state == Aborted || s.cancelled)
    && (s.core.responses[i].Some? ==> w.calls == [OnMessage(s.core.responses[i].value)])
    && (w.calls != [] ==> s.core.state == Aborted || s.core.responses[i].Some?)
  }

  lemma SlotOfOpenListener(s: Tx, i: nat)
    requires TransactionRuns.Inv(s) && Listening(s, i)
    ensures s.core.responses[i].None? && s.core.state != Completed && s.core.state != Uncommitted
  {
    assert Answered(s, i);
  }

  lemma DeliverTies(s: Tx, i: nat, m: Message, w: Wrapped)
    requires TransactionRuns.Inv(s) && Tied(s, i, w)
    ensures Tied(TransactionRuns.Step(s, Deliver(i, m)), i,
                 Wrapping.Step(ForRequest(s.listeners[i].id.value), w, Arrived(m, false)))
  {
    if Listening(s, i) {
      SlotOfOpenListener(s, i);
    }
  }

  lemma ExecuteTies(s: Tx, act: TransactionRuns.Action, i: nat, w: Wrapped)
    requires TransactionRuns.Inv(s) && Tied(s, i, w) && act.Execute?
    ensures Tied(TransactionRuns.Step(s, act), i, w)
    ensures TransactionRuns.Step(s, act).listeners[i] == s.listeners[i]
  {
  }

  /** Whatever happens to the other requests. */
  lemma OthersTie(s: Tx, act: TransactionRuns.Action, i: nat, w: Wrapped)
    requires TransactionRuns.Inv(s) && Tied(s, i, w)
    requires (act.Deliver? || act.StoreReady? || act.SendFailed? || act.CloseListener?) && act.i != i
    ensures Tied(TransactionRuns.Step(s, act), i, w)
    ensures TransactionRuns.Step(s, act).listeners[i] == s.listeners[i]
  {
  }

  lemma ClosingTies(s: Tx, act: TransactionRuns.Action, i: nat, w: Wrapped)
    requires TransactionRuns.Inv(s) && Tied(s, i, w)
    requires (act.StoreReady? || act.SendFailed? || act.CloseListener?) && act.i == i
    ensures Tied(TransactionRuns.Step(s, act), i, w)
    ensures TransactionRuns.Step(s, act).listeners[i].id == s.listeners[i].id
  {
    if Listening(s, i) {
      SlotOfOpenListener(s, i);
    }
  }

  function WrapperStep(s: Tx, act: TransactionRuns.Action, i: nat, w: Wrapped): Wrapped
    requires !Unmade(s, i)
  {
    var arrivals := ArrivalsBy(s, act, i);
    if arrivals == [] then w else Wrapping.Step(ForRequest(s.listeners[i].id.value), w, arrivals[0])
  }

  lemma StepTies(s: Tx, act: TransactionRuns.Action, i: nat, w: Wrapped)
    requires TransactionRuns.Inv(s) && Tied(s, i, w)
    ensures Tied(TransactionRuns.Step(s, act), i, WrapperStep(s, act, i, w))
    ensures TransactionRuns.Step(s, act).listeners[i].id == s.listeners[i].id
  {
    match act
    case Deliver(j, m) => if i == j { DeliverTies(s, i, m, w); } else { OthersTie(s, act, i, w); }
    case Execute(_, _, _) => ExecuteTies(s, act, i, w);
    case StoreReady(j, _, _) => if i == j { ClosingTies(s, act, i, w); } else { OthersTie(s, act, i, w); }
    case SendFailed(j, _) => if i == j { ClosingTies(s, act, i, w); } else { OthersTie(s, act, i, w); }
    case CloseListener(j) => if i == j { ClosingTies(s, act, i, w); } else { OthersTie(s, act, i, w); }
    case _ =>
  }

  /** A listener is made when its request is sent, and nothing has come to it then. */
  lemma SendingTies(s: Tx, act: TransactionRuns.Action, i: nat)
    requires TransactionRuns.Inv(s) && Unmade(s, i) && !Unmade(TransactionRuns.Step(s, act), i)
    ensures Tied(TransactionRuns.Step(s, act), i, WAITING)
  {
    assert i < |s.listeners| ==> Answered(s, i);
  }

  lemma ArrivalsTie(s: Tx, act: TransactionRuns.Action, i: nat, arrivals: seq<Arrival>)
    requires TransactionRuns.Inv(s) && !Unmade(s, i)
    requires Tied(s, i, After(ForRequest(s.listeners[i].id.value), arrivals))
    ensures var t := TransactionRuns.Step(s, act);
            !Unmade(t, i) && Tied(t, i, After(ForRequest(t.listeners[i].id.value), arrivals + ArrivalsBy(s, act, i)))
  {
    var f := ForRequest(s.listeners[i].id.value);
    StepTies(s, act, i, After(f, arrivals));
    if ArrivalsBy(s, act, i) == [] {
      assert arrivals + ArrivalsBy(s, act, i) == arrivals;
    } else {
      AfterExtends(f, arrivals, ArrivalsBy(s, act, i)[0]);
    }
  }

  lemma {:induction false} RunTies(kind: Kind, acts: seq<TransactionRuns.Action>, i: nat)
    ensures var s := Run(TransactionRuns.Step, Begin(kind), acts);
            if Unmade(s, i) then Arrivals(kind, acts, i) == []
            else Tied(s, i, After(ForRequest(s.listeners[i].id.value), Arrivals(kind, acts, i)))
  {
    if acts != [] {
      var init, act := acts[..|acts| - 1], acts[|acts| - 1];
      var s := Run(TransactionRuns.Step, Begin(kind), init);
      TransactionRuns.RunsKeep(kind, init);
      RunTies(kind, init, i);
      if !Unmade(s, i) {
        ArrivalsTie(s, act, i, Arrivals(kind, init, i));
      } else if !Unmade(TransactionRuns.Step(s, act), i) {
        SendingTies(s, act, i);
      }
    }
  }

  /** In every run, as long as the transaction has not failed, the slot of a request is filled exactly if some message
      has passed its listener's filter, and holds the first that did; and once the first call asked for is an error, the
      transaction has failed. */
  lemma SlotIsFirstAccepted(kind: Kind, acts: seq<TransactionRuns.Action>, i: nat, id: nat)
    requires UsesId(Run(TransactionRuns.Step, Begin(kind), acts), i, id)
    ensures var s := Run(TransactionRuns.Step, Begin(kind), acts);
            var asked := Asked(ForRequest(id), Arrivals(kind, acts, i));
            && i < |s.core.responses|
            && (s.core.responses[i].Some? ==> asked != [] && asked[0] == OnMessage(s.core.responses[i].value))
            && (asked != [] ==> s.core.state == Aborted || s.core.responses[i].Some?)
  {
    RunTies(kind, acts, i);
    CallsExactly(ForRequest(id), Arrivals(kind, acts, i));
  }
}
