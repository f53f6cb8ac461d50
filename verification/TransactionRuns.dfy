/** Every run of a transaction: requests executed, listeners on the bus, responses, errors and cancellation, in any
    order. */
module TransactionRuns {
  import opened Options
  import opened Runs
  import opened Transactions
  import opened Wrapping

  /** What listens for the answer to a request.  A listener on the bus carries the id its request was sent with; a
      wait for a store has none.  `Spent` listeners have been invoked or closed, and are not invoked again. */
  datatype Listener = Idle | Armed(id: Option<nat>) | Spent(id: Option<nat>)

  datatype Tx = Tx(
    core: Core,
    listeners: seq<Listener>,
    nextId: nat,
    pending: set<nat>,         // requests some goroutine is about to execute
    executed: seq<nat>,        // requests executed, in order
    cancelled: bool)           // the context of the commit

  function Begin(kind: Kind): Tx {
    Tx(New(kind), [], 0, {}, [], false)
  }

  datatype Action =
    | AddRequest(request: Request)
    | AddOnComplete(handler: nat)
    | AddOnError(handler: nat)
    | CommitTx
    | CancelContext
    | ContextWatcher(err: int)                    // the goroutine that waits for the context
    | Execute(i: nat, ok: bool, err: int)         // not ok: no such channel or store
    | SendFailed(i: nat, err: int)
    | Deliver(i: nat, m: Message)                 // the bus delivers m to the listener of request i
    | StoreReady(i: nat, payload: int, err: int)  // WhenReady calls back
    | CloseListener(i: nat)

  function FailTx(s: Tx, err: int): Tx {
    s.(core := Fail(s.core, err))
  }

  function Spend(s: Tx, i: nat): Tx
    requires i < |s.listeners| && s.listeners[i].Armed?
  {
    s.(listeners := s.listeners[i := Spent(s.listeners[i].id)])
  }

  function SucceedTx(s: Tx, i: nat, m: Message): Tx
    requires i < |s.core.responses|
  {
    var next := NextAfter(s.core, i);
    s.(core := Succeed(s.core, i, m), pending := if next.Some? then s.pending + {next.value} else s.pending)
  }

  /** executeRequest; the loop of an asynchronous commit goes on to the next request whatever happens. */
  function ExecuteTx(s: Tx, i: nat, ok: bool, err: int): Tx
    requires i < |s.listeners|
  {
    var s1 := s.(executed := s.executed + [i],
                 pending := s.pending - {i} + if s.core.kind == Async &&
                   i + 1 < |s.core.requests| then {i + 1} else {});
    if s.cancelled || !ok then FailTx(s1, err)
    else if i < |s.core.requests| &&
              s.core.requests[i].storeName != "" then s1.(listeners := s1.listeners[i := Armed(None)])
    else s1.(listeners := s1.listeners[i := Armed(Some(s.nextId))], nextId := s.nextId + 1)
  }

  /** What the listener of request `i` makes of a bus message. A cancelled context silences it; an error on the
      channel reaches it whatever its destination; a response only if it is addressed to it. */
  function DeliverTx(s: Tx, i: nat, m: Message): Tx
    requires i < |s.listeners| == |s.core.responses| && s.listeners[i].Armed? && s.listeners[i].id.Some?
  {
    if s.cancelled then Spend(s, i)
    else
      match Classify(ForRequest(s.listeners[i].id.value), m)
      case Failure => FailTx(Spend(s, i), m.payload)
      case Success => SucceedTx(Spend(s, i), i, m)
      case Pass => s
  }

  predicate Listening(s: Tx, i: nat) {
    i < |s.listeners| == |s.core.responses| && s.listeners[i].Armed?
  }

  function Step(s: Tx, act: Action): Tx {
    match act
    case AddRequest(request) =>
      if s.core.state != Uncommitted then s else s.(core := s.core.(requests := s.core.requests + [request]))
    case AddOnComplete(handler) =>
      if s.core.state != Uncommitted then s else s.(core := s.core.(onComplete := s.core.onComplete + [handler]))
    case AddOnError(handler) =>
      if s.core.state != Uncommitted then s else s.(core := s.core.(onError := s.core.onError + [handler]))
    case CommitTx =>
      if s.core.state != Uncommitted || s.cancelled || s.core.requests == [] then s
      else s.(core := Commit(s.core), listeners := seq(|s.core.requests|, k => Idle), pending := {0})
    case CancelContext => s.(cancelled := true)
    case ContextWatcher(err) => if s.cancelled && s.core.state != Uncommitted then FailTx(s, err) else s
    case Execute(i, ok, err) =>
      if i in s.pending && i < |s.listeners| && s.core.state != Uncommitted then ExecuteTx(s, i, ok, err) else s
    case SendFailed(i, err) =>
      if Listening(s, i) && s.listeners[i].id.Some? then FailTx(Spend(s, i), err) else s
    case Deliver(i, m) =>
      if Listening(s, i) && s.listeners[i].id.Some? then DeliverTx(s, i, m) else s
    case StoreReady(i, payload, err) =>
      if Listening(s, i) && s.listeners[i].id.None? then
        if s.cancelled then FailTx(Spend(s, i), err)
        else SucceedTx(Spend(s, i), i, Message(ResponseDir, None, payload))
      else s
    case CloseListener(i) =>
      if s.cancelled && Listening(s, i) && s.listeners[i].id.Some? then Spend(s, i) else s
  }

  /** Slot `i` holds the answer to request `i`: a response that carries the id its listener was armed with. */
  ghost predicate Answered(s: Tx, i: nat)
    requires i < |s.listeners| == |s.core.responses|
  {
    s.core.responses[i].Some? ==>
      var m := s.core.responses[i].value;
      s.listeners[i].Spent? && m.direction == ResponseDir && m.destination == s.listeners[i].id
  }

  /** The handlers launched so far are none, all complete handlers once with every slot filled, or all error
      handlers once with one error, as the state says. */
  ghost predicate OneOutcome(c: Core) {
    match c.state
    case Uncommitted => c.launched == []
    case Committed => c.launched == []
    case Completed =>
      && (forall i | 0 <= i < |c.responses| :: c.responses[i].Some?)
      && c.launched == Completions(c.onComplete, c.responses)
    case Aborted => exists err :: c.launched == Failures(c.onError, err)
  }

  /** Requests are executed in order, each once, and nothing listens for one before that. */
  ghost predicate InOrder(s: Tx) {
    && (if s.core.state == Uncommitted then s.core.responses == [] && s.listeners == []
        else |s.core.responses| == |s.listeners| == |s.core.requests|)
    && |s.executed| <= |s.listeners|
    && (forall k | 0 <= k < |s.executed| :: s.executed[k] == k)
    && (forall k | k in s.pending :: k == |s.executed| && k < |s.listeners|)
    && (forall k | |s.executed| <= k < |s.listeners| :: s.listeners[k].Idle?)
  }

  predicate UsesId(s: Tx, k: nat, id: nat) {
    k < |s.listeners| && !s.listeners[k].Idle? && s.listeners[k].id == Some(id)
  }

  ghost predicate IdsDiffer(s: Tx) {
    && (forall k, id: nat | UsesId(s, k, id) :: id < s.nextId)
    && (forall k, k', id: nat | UsesId(s, k, id) && UsesId(s, k', id) :: k == k')
    && (forall k | 0 <= k < |s.listeners| && k < |s.core.requests| && !s.listeners[k].Idle? ::
          s.core.requests[k].storeName != "" <==> s.listeners[k].id.None?)
  }

  ghost predicate SlotsAnswered(s: Tx) {
    && |s.listeners| == |s.core.responses| && s.core.completed == CountFilled(s.core.responses)
    && (s.core.state == Committed ==> s.core.completed < |s.core.requests|)
    && (s.core.responses != [] ==> |s.core.responses| == |s.core.requests|)
    && (forall i | 0 <= i < |s.core.responses| :: Answered(s, i))
  }

  /** A synchronous transaction executes a request only when every earlier slot is filled. */
  ghost predicate OneAtATime(s: Tx) {
    s.core.kind == Sync && |s.core.responses| == |s.listeners| ==>
      && (forall i | 0 <= i < |s.executed| - 1 && i < |s.core.responses| :: s.core.responses[i].Some?)
      && (s.pending != {} ==> forall i | 0 <= i < |s.executed| && i < |s.core.responses| :: s.core.responses[i].Some?)
  }

  ghost predicate Inv(s: Tx) {
    InOrder(s) && IdsDiffer(s) && SlotsAnswered(s) && OneAtATime(s) && OneOutcome(s.core)
  }

  lemma FailKeeps(s: Tx, err: int)
    requires Inv(s) && s.core.state != Uncommitted
    ensures Inv(FailTx(s, err))
  {
    assert [] + Failures(s.core.onError, err) == Failures(s.core.onError, err);
    assert forall k, id: nat :: UsesId(FailTx(s, err), k, id) <==> UsesId(s, k, id);
    forall i | 0 <= i < |s.core.responses| ensures Answered(FailTx(s, err), i) {
      assert Answered(s, i);
    }
  }

  lemma SpendKeeps(s: Tx, i: nat)
    requires Inv(s) && Listening(s, i)
    ensures Inv(Spend(s, i))
  {
    var t := Spend(s, i);
    assert forall k, id: nat :: UsesId(t, k, id) <==> UsesId(s, k, id);
    forall k | 0 <= k < |s.core.responses| ensures Answered(t, k) {
      assert Answered(s, k);
    }
  }

  /** Filling an empty slot keeps the count, and completes the transaction exactly when it was the last one. */
  lemma FillingCompletes(c: Core, i: nat, m: Message)
    requires c.state == Committed && OneOutcome(c) && i < |c.responses| == |c.requests| && c.responses[i].None?
    requires c.completed == CountFilled(c.responses)
    ensures var t := Succeed(c, i, m);
            && OneOutcome(t) && t.completed == CountFilled(t.responses)
            && (t.state == Committed ==> t.completed < |t.requests|)
  {
    var t := Succeed(c, i, m);
    CountFill(c.responses, i, m);
    CountBounds(t.responses);
    assert [] + Completions(t.onComplete, t.responses) == Completions(t.onComplete, t.responses);
  }

  /** A success that spent its listener fills an empty slot. */
  lemma SucceedKeeps(s: Tx, i: nat, m: Message)
    requires Inv(s) && Listening(s, i) && m.direction == ResponseDir && m.destination == s.listeners[i].id
    ensures Inv(SucceedTx(Spend(s, i), i, m))
  {
    SpendKeeps(s, i);
    assert Answered(s, i);
    var u := Spend(s, i);
    var t := SucceedTx(u, i, m);
    if u.core.state != Aborted {
      assert u.core.state == Committed;
      FillingCompletes(u.core, i, m);
      assert s.core.kind == Sync ==> i == |s.executed| - 1 && s.pending == {};
      assert forall k, id: nat :: UsesId(t, k, id) <==> UsesId(u, k, id);
      forall k | 0 <= k < |t.core.responses| ensures Answered(t, k) {
        assert Answered(u, k);
      }
    }
  }

  lemma ExecuteKeeps(s: Tx, i: nat, ok: bool, err: int)
    requires Inv(s) && i in s.pending && i < |s.listeners| && s.core.state != Uncommitted
    ensures Inv(ExecuteTx(s, i, ok, err))
  {
    var s1 := s.(executed := s.executed + [i],
                 pending := s.pending - {i} + if s.core.kind == Async &&
                   i + 1 < |s.core.requests| then {i + 1} else {});
    forall k | 0 <= k < |s.core.responses| ensures Answered(s1, k) {
      assert Answered(s, k);
    }
    assert forall k, id: nat :: UsesId(s1, k, id) <==> UsesId(s, k, id);
    assert s.pending == {i};
    assert Inv(s1);
    var t := ExecuteTx(s, i, ok, err);
    if s.cancelled || !ok {
      FailKeeps(s1, err);
    } else {
      ArmKeeps(s1, i);
    }
  }

  lemma ArmKeeps(s: Tx, i: nat)
    requires Inv(s) && i < |s.listeners| && s.listeners[i].Idle? && i < |s.executed| && s.core.state != Uncommitted
    ensures Inv(if s.core.requests[i].storeName != "" then s.(listeners := s.listeners[i := Armed(None)])
                else s.(listeners := s.listeners[i := Armed(Some(s.nextId))], nextId := s.nextId + 1))
  {
    var store := s.core.requests[i].storeName != "";
    var t := if store then s.(listeners := s.listeners[i := Armed(None)])
             else s.(listeners := s.listeners[i := Armed(Some(s.nextId))], nextId := s.nextId + 1);
    assert forall k, id: nat :: UsesId(t, k, id) <==> UsesId(s, k, id) || (!store && k == i && id == s.nextId);
    forall k | 0 <= k < |s.core.responses| ensures Answered(t, k) {
      assert Answered(s, k);
    }
  }

  lemma SetupKeeps(s: Tx, act: Action)
    requires Inv(s) && (act.AddRequest? || act.AddOnComplete? || act.AddOnError? || act.CommitTx? || act.CancelContext?)
    ensures Inv(Step(s, act))
  {
    var t := Step(s, act);
    if act.CommitTx? && t != s {
      CountBounds(t.core.responses);
      assert |s.executed| == 0;
    } else {
      assert forall k, id: nat :: UsesId(t, k, id) <==> UsesId(s, k, id);
      forall k | 0 <= k < |s.core.responses| ensures Answered(t, k) {
        assert Answered(s, k);
      }
    }
  }

  lemma DeliverKeeps(s: Tx, i: nat, m: Message)
    requires Inv(s) && Listening(s, i) && s.listeners[i].id.Some?
    ensures Inv(DeliverTx(s, i, m))
  {
    SpendKeeps(s, i);
    if !s.cancelled {
      match Classify(ForRequest(s.listeners[i].id.value), m)
      case Failure => FailKeeps(Spend(s, i), m.payload);
      case Success => SucceedKeeps(s, i, m);
      case Pass =>
    }
  }

  lemma ListenerKeeps(s: Tx, act: Action)
    requires Inv(s) && (act.SendFailed? || act.StoreReady? || act.CloseListener?)
    ensures Inv(Step(s, act))
  {
    if Listening(s, act.i) {
      SpendKeeps(s, act.i);
      match act
      case SendFailed(i, err) => FailKeeps(Spend(s, i), err);
      case StoreReady(i, payload, err) =>
        if s.cancelled {
          FailKeeps(Spend(s, i), err);
        } else if s.listeners[i].id.None? {
          SucceedKeeps(s, i, Message(ResponseDir, None, payload));
        }
      case CloseListener(_) =>
    }
  }

  lemma StepKeeps(s: Tx, act: Action)
    requires Inv(s)
    ensures Inv(Step(s, act))
  {
    match act
    case ContextWatcher(err) => if Step(s, act) != s { FailKeeps(s, err); }
    case Execute(i, ok, err) =>
      if i in s.pending && i < |s.listeners| && s.core.state != Uncommitted { ExecuteKeeps(s, i, ok, err); }
    case Deliver(i, m) => if Listening(s, i) && s.listeners[i].id.Some? { DeliverKeeps(s, i, m); }
    case SendFailed(_, _) => ListenerKeeps(s, act);
    case StoreReady(_, _, _) => ListenerKeeps(s, act);
    case CloseListener(_) => ListenerKeeps(s, act);
    case _ => SetupKeeps(s, act);
  }

  lemma RunsKeep(kind: Kind, acts: seq<Action>)
    ensures Inv(Run(Step, Begin(kind), acts))
  {
    forall s, act | Inv(s) ensures Inv(Step(s, act)) {
      StepKeeps(s, act);
    }
    RunKeeps(Step, Inv, Begin(kind), acts);
  }

  /** On completion every slot holds the response to its own request, whatever the order of arrival; the number of
      completed requests is always the number of filled slots; and a synchronous transaction has executed a prefix
      of its requests, each only after the answers to all before it. */
  lemma EverySlotAnswered(kind: Kind, acts: seq<Action>)
    ensures var s := Run(Step, Begin(kind), acts);
            && |s.listeners| == |s.core.responses| && s.core.completed == CountFilled(s.core.responses)
            && (s.core.state == Completed ==>
                  |s.core.responses| == |s.core.requests| &&
                    forall i | 0 <= i < |s.core.responses| :: s.core.responses[i].Some?)
            && (forall i | 0 <= i < |s.core.responses| :: Answered(s, i))
            && (forall i, j, id: nat | UsesId(s, i, id) && UsesId(s, j, id) :: i == j)
            && (forall k | 0 <= k < |s.executed| :: s.executed[k] == k)
            && (kind == Sync ==> forall k | 0 <= k < |s.executed| - 1 &&
              k < |s.core.responses| :: s.core.responses[k].Some?)
  {
    RunsKeep(kind, acts);
    KindStays(kind, acts);
  }

  lemma KindStays(kind: Kind, acts: seq<Action>)
    ensures Run(Step, Begin(kind), acts).core.kind == kind
  {
    RunKeeps(Step, (s: Tx) => s.core.kind == kind, Begin(kind), acts);
  }

  lemma TerminalStays(s: Tx, act: Action)
    requires Inv(s) && Terminal(s.core)
    ensures Step(s, act).core == s.core
  {
    match act
    case Deliver(i, m) => if Listening(s, i) { assert Answered(s, i); }
    case StoreReady(i, payload, err) => if Listening(s, i) { assert Answered(s, i); }
    case _ =>
  }

  /** A transaction has one outcome: whatever happens after it completed or was aborted, its state, its responses
      and the handlers it has launched stay what they are. */
  lemma OneOutcomeForGood(kind: Kind, acts: seq<Action>, later: seq<Action>)
    requires Terminal(Run(Step, Begin(kind), acts).core)
    ensures OneOutcome(Run(Step, Begin(kind), acts).core)
    ensures Run(Step, Begin(kind), acts + later).core == Run(Step, Begin(kind), acts).core
  {
    RunsKeep(kind, acts);
    var s := Run(Step, Begin(kind), acts);
    var same := (t: Tx) => Inv(t) && t.core == s.core;
    forall t, act | same(t) ensures same(Step(t, act)) {
      StepKeeps(t, act);
      TerminalStays(t, act);
    }
    RunKeeps(Step, same, s, later);
    RunAppend(Step, Begin(kind), acts, later);
  }

  /** In every run a bus message answers at most one request of the transaction. */
  lemma OneRequestPerResponse(kind: Kind, acts: seq<Action>, m: Message, i: nat, j: nat, id: nat, other: nat)
    requires var s := Run(Step, Begin(kind), acts); UsesId(s, i, id) && UsesId(s, j, other)
    requires Classify(ForRequest(id), m) == Success && Classify(ForRequest(other), m) == Success
    ensures i == j
  {
    RunsKeep(kind, acts);
    OneListenerPerResponse(m, id, other);
  }
}
