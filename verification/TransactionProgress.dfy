/** What a transaction does, beside what it must not do: which request is executed next, what each action fills or
    fails, and that no transaction gets stuck. */
module TransactionProgress {
  import opened Options
  import opened Runs
  import opened Transactions
  import opened TransactionRuns

  /** The answers to all requests executed so far are in. */
  ghost predicate AllAnswered(s: Tx) {
    forall i | 0 <= i < |s.executed| && i < |s.core.responses| :: s.core.responses[i].Some?
  }

  /** The request that is about to be executed.  A synchronous transaction goes on to the next request exactly when
      everything executed is answered; an asynchronous one always has until all are executed. */
  ghost predicate NextIsDue(s: Tx) {
    match s.core.state
    case Uncommitted => s.pending == {}
    case Committed =>
      if s.core.kind == Sync then s.pending == (if AllAnswered(s) then {|s.executed|} else {})
      else s.pending == if |s.executed| < |s.core.requests| then {|s.executed|} else {}
    case _ =>
      s.core.kind == Async ==> s.pending == if |s.executed| < |s.core.requests| then {|s.executed|} else {}
  }

  /** An executed request is answered or listened for, unless the context is cancelled. */
  ghost predicate NoneForgotten(s: Tx) {
    s.core.state == Committed && !s.cancelled ==>
      forall k | 0 <= k < |s.executed| && k < |s.core.responses| && k < |s.listeners| ::
        s.core.responses[k].Some? || s.listeners[k].Armed?
  }

  ghost predicate Live(s: Tx) {
    TransactionRuns.Inv(s) && NextIsDue(s) && NoneForgotten(s)
  }

  lemma CommittedHasEmptySlot(s: Tx)
    requires TransactionRuns.Inv(s) && s.core.state == Committed && AllAnswered(s)
    ensures |s.executed| < |s.core.requests|
  {
    CountBounds(s.core.responses);
  }

  /** The message that the action answers request `i` with: a response addressed to its listener, or the content of
      the store it waits for. */
  function Answer(s: Tx, act: Action, i: nat): Option<Message> {
    if s.cancelled || !Listening(s, i) then None
    else
      match act
      case Deliver(j, m) =>
        if j == i && s.listeners[i].id.Some? && m.direction == ResponseDir && m.destination == s.listeners[i].id
        then Some(m) else None
      case StoreReady(j, payload, _) =>
        if j == i && s.listeners[i].id.None? then Some(Message(ResponseDir, None, payload)) else None
      case _ => None
  }

  /** The error that the action fails the transaction with. */
  function Failure(s: Tx, act: Action): Option<int> {
    match act
    case ContextWatcher(err) => if s.cancelled then Some(err) else None
    case Execute(i, ok, err) => if i in s.pending && i < |s.listeners| && (s.cancelled || !ok) then Some(err) else None
    case SendFailed(i, err) => if Listening(s, i) && s.listeners[i].id.Some? then Some(err) else None
    case Deliver(i, m) =>
      if Listening(s, i) && s.listeners[i].id.Some? && !s.cancelled && m.direction == ErrorDir
      then Some(m.payload) else None
    case StoreReady(i, _, err) =>
      if Listening(s, i) && s.listeners[i].id.None? && s.cancelled then Some(err) else None
    case _ => None
  }

  function HandlersOf(launched: seq<Launch>): seq<nat> {
    seq(|launched|, i requires 0 <= i < |launched| => launched[i].handler)
  }

  /** A committed transaction is failed by exactly these: each error handler is started once, in the order in which
      they were added, with the error that came. */
  lemma AbortsExactly(s: Tx, act: Action)
    requires TransactionRuns.Inv(s) && s.core.state == Committed
    ensures var t := Step(s, act);
            && (t.core.state == Aborted <==> Failure(s, act).Some?)
            && (t.core.state == Aborted ==>
                  && HandlersOf(t.core.launched) == s.core.onError
                  && forall l | l in t.core.launched :: l == OnFailed(l.handler, Failure(s, act).value))
  {
    assert s.core.launched == [];
  }

  /** A slot is filled by exactly the answer to its request. */
  lemma FillsExactly(s: Tx, act: Action, i: nat)
    requires TransactionRuns.Inv(s) && s.core.state == Committed && i < |s.core.responses|
    ensures var t := Step(s, act);
            && |t.core.responses| == |s.core.responses|
            && (Answer(s, act, i).Some? ==> s.core.responses[i].None?)
            && t.core.responses[i] == if Answer(s, act, i).Some? then Answer(s, act, i) else s.core.responses[i]
  {
    if Listening(s, i) {
      assert Answered(s, i);
    }
  }

  /** A transaction that was committed and has not failed is completed exactly when every slot is filled; and every
      completion handler is then started once, in the order in which they were added, with all the responses. */
  lemma CompletedExactly(s: Tx)
    requires TransactionRuns.Inv(s) && s.core.state in {Committed, Completed}
    ensures s.core.state == Completed <==> forall i | 0 <= i < |s.core.responses| :: s.core.responses[i].Some?
    ensures s.core.state == Completed ==>
              && HandlersOf(s.core.launched) == s.core.onComplete
              && forall l | l in s.core.launched :: l == OnDone(l.handler, s.core.responses)
  {
    CountBounds(s.core.responses);
  }

  /** What an action does to the requests executed and about to be. */
  lemma ExecuteStep(s: Tx, act: Action)
    requires TransactionRuns.Inv(s) && NextIsDue(s) && act.Execute?
    ensures NextIsDue(Step(s, act))
  {
    if act.i in s.pending && act.i < |s.listeners| && s.core.state != Uncommitted {
      assert Answered(s, act.i);
    }
  }

  /** A synchronous transaction listens for the answer to the request executed last, and for no other. */
  lemma ListensToLast(s: Tx, i: nat)
    requires TransactionRuns.Inv(s) && Listening(s, i) && s.core.state == Committed && s.core.kind == Sync
    ensures i == |s.executed| - 1 && s.pending == {} && s.core.responses[i].None? && |s.core.responses| > i
    ensures forall k | 0 <= k < i :: s.core.responses[k].Some?
  {
    assert Answered(s, i);
  }

  lemma NextComes(c: Core, i: nat, m: Message)
    requires c.state == Committed && c.kind == Sync && c.completed == CountFilled(c.responses)
    requires i < |c.responses| == |c.requests| && c.responses[i].None?
    requires forall k | 0 <= k < i :: c.responses[k].Some?
    ensures Succeed(c, i, m).state == Committed ==> NextAfter(c, i) == Some(i + 1)
    ensures Succeed(c, i, m).state in {Committed, Completed}
  {
    CountFill(c.responses, i, m);
    CountBounds(c.responses[i := Some(m)]);
  }

  lemma SuccessStep(s: Tx, i: nat, m: Message)
    requires TransactionRuns.Inv(s) && NextIsDue(s) && Listening(s, i)
    ensures NextIsDue(SucceedTx(Spend(s, i), i, m))
  {
    assert Answered(s, i);
    if s.core.state == Committed && s.core.kind == Sync {
      ListensToLast(s, i);
      NextComes(s.core, i, m);
    }
  }

  lemma DeliverStep(s: Tx, i: nat, m: Message)
    requires TransactionRuns.Inv(s) && NextIsDue(s)
    ensures NextIsDue(Step(s, Deliver(i, m)))
  {
    if Listening(s, i) {
      SuccessStep(s, i, m);
    }
  }

  lemma DueStep(s: Tx, act: Action)
    requires TransactionRuns.Inv(s) && NextIsDue(s)
    ensures NextIsDue(Step(s, act))
  {
    match act
    case Execute(_, _, _) => ExecuteStep(s, act);
    case Deliver(i, m) => DeliverStep(s, i, m);
    case StoreReady(i, payload, _) => if Listening(s, i) { SuccessStep(s, i, Message(ResponseDir, None, payload)); }
    case _ =>
  }

  lemma ForgottenStep(s: Tx, act: Action)
    requires TransactionRuns.Inv(s) && NoneForgotten(s)
    ensures NoneForgotten(Step(s, act))
  {
  }

  lemma LiveStep(s: Tx, act: Action)
    requires Live(s)
    ensures Live(Step(s, act))
  {
    TransactionRuns.StepKeeps(s, act);
    DueStep(s, act);
    ForgottenStep(s, act);
  }

  /** In every run: while a transaction is committed and not cancelled, the next request is due exactly when it should
      be, and every request executed is answered or listened for. */
  lemma AlwaysLive(kind: Kind, acts: seq<Action>)
    ensures Live(Run(Step, Begin(kind), acts))
  {
    forall s, act | Live(s) ensures Live(Step(s, act)) {
      LiveStep(s, act);
    }
    RunKeeps(Step, Live, Begin(kind), acts);
  }

  ghost predicate Leads(s: Tx, t: Tx) {
    exists acts :: t == Run(Step, s, acts)
  }

  /** There is an answer to come, or else a request to execute. */
  lemma MakeProgress(s: Tx) returns (act: Action)
    requires Live(s) && s.core.state == Committed && !s.cancelled
    ensures var t := Step(s, act);
            && t.core.state in {Committed, Completed} && !t.cancelled && t.core.requests == s.core.requests
            && s.core.completed <= t.core.completed <= |s.core.requests|
            && |s.executed| <= |t.executed| <= |s.core.requests|
            && (s.core.completed < t.core.completed || |s.executed| < |t.executed|)
  {
    if AllAnswered(s) {
      CommittedHasEmptySlot(s);
      act := Execute(|s.executed|, true, 0);
      assert |s.executed| in s.pending;
    } else {
      var i :| 0 <= i < |s.executed| && i < |s.core.responses| && s.core.responses[i].None?;
      assert s.listeners[i].Armed?;
      act := if s.listeners[i].id.Some? then Deliver(i, Message(ResponseDir, s.listeners[i].id, 0))
             else StoreReady(i, 0, 0);
    }
  }

  /** No committed transaction is stuck: from any state it reaches without being cancelled, some answers complete it. */
  lemma {:induction false} MayComplete(s: Tx) returns (t: Tx)
    requires Live(s) && s.core.state == Committed && !s.cancelled
    ensures Leads(s, t) && t.core.state == Completed
    decreases |s.core.requests| - s.core.completed + |s.core.requests| - |s.executed|
  {
    var act := MakeProgress(s);
    var u := Step(s, act);
    assert [act] == [] + [act];
    RunLast(Step, s, [], act);
    if u.core.state == Completed {
      assert u == Run(Step, s, [act]);
      t := u;
    } else {
      LiveStep(s, act);
      t := MayComplete(u);
      var rest :| t == Run(Step, u, rest);
      RunAppend(Step, s, [act], rest);
    }
  }

  /** In every run, a committed transaction that is not cancelled may yet complete. */
  lemma NeverStuck(kind: Kind, acts: seq<Action>)
    requires var s := Run(Step, Begin(kind), acts); s.core.state == Committed && !s.cancelled
    ensures exists more :: Run(Step, Begin(kind), acts + more).core.state == Completed
  {
    AlwaysLive(kind, acts);
    var s := Run(Step, Begin(kind), acts);
    var t := MayComplete(s);
    var more :| t == Run(Step, s, more);
    RunAppend(Step, Begin(kind), acts, more);
    assert Run(Step, Begin(kind), acts + more).core.state == Completed;
  }

  lemma SpentStays(s: Tx, act: Action, i: nat)
    requires TransactionRuns.Inv(s) && i < |s.listeners| && s.listeners[i].Spent?
    ensures i < |Step(s, act).listeners| && Step(s, act).listeners[i] == s.listeners[i]
  {
  }

  lemma {:induction false} SpentForGood(s: Tx, later: seq<Action>, i: nat)
    requires TransactionRuns.Inv(s) && i < |s.listeners| && s.listeners[i].Spent?
    ensures var t := Run(Step, s, later);
            TransactionRuns.Inv(t) && i < |t.listeners| && t.listeners[i] == s.listeners[i]
  {
    if later != [] {
      var init := later[..|later| - 1];
      SpentForGood(s, init, i);
      SpentStays(Run(Step, s, init), later[|later| - 1], i);
      TransactionRuns.StepKeeps(Run(Step, s, init), later[|later| - 1]);
    }
  }

  lemma SpentIsSilent(s: Tx, i: nat, m: Message, err: int)
    requires i < |s.listeners| && s.listeners[i].Spent?
    ensures Step(s, Deliver(i, m)) == s && Step(s, SendFailed(i, err)) == s
  {
  }

  /** Closing the listener of a request, as a cancelled context does, silences it for good: no message on its channel
      and no failure to send changes anything after that. */
  lemma ClosedIsSilent(s: Tx, i: nat, later: seq<Action>, m: Message, err: int)
    requires TransactionRuns.Inv(s) && s.cancelled && Listening(s, i) && s.listeners[i].id.Some?
    ensures var t := Run(Step, Step(s, CloseListener(i)), later);
            Step(t, Deliver(i, m)) == t && Step(t, SendFailed(i, err)) == t
  {
    TransactionRuns.StepKeeps(s, CloseListener(i));
    SpentForGood(Step(s, CloseListener(i)), later, i);
    SpentIsSilent(Run(Step, Step(s, CloseListener(i)), later), i, m, err);
  }

  /** The action commits: there is something to commit and the context is not cancelled. */
  ghost predicate Commits(before: seq<Action>, act: Action) {
    act == CommitTx && CancelContext !in before && exists r :: AddRequest(r) in before
  }

  /** What came before the commit; all of it, if there was none. */
  ghost function Prepared(acts: seq<Action>): (p: seq<Action>)
    ensures |p| <= |acts|
  {
    if acts == [] then []
    else
      var init := acts[..|acts| - 1];
      var p := Prepared(init);
      if |p| < |init| then p
      else if Commits(init, acts[|acts| - 1]) then init
      else acts
  }

  function RequestsOf(acts: seq<Action>): seq<Request> {
    if acts == [] then []
    else
      var act := acts[|acts| - 1];
      RequestsOf(acts[..|acts| - 1]) + if act.AddRequest? then [act.request] else []
  }

  function CompletersOf(acts: seq<Action>): seq<nat> {
    if acts == [] then []
    else
      var act := acts[|acts| - 1];
      CompletersOf(acts[..|acts| - 1]) + if act.AddOnComplete? then [act.handler] else []
  }

  function FailersOf(acts: seq<Action>): seq<nat> {
    if acts == [] then []
    else
      var act := acts[|acts| - 1];
      FailersOf(acts[..|acts| - 1]) + if act.AddOnError? then [act.handler] else []
  }

  lemma {:induction false} RequestsNonempty(acts: seq<Action>)
    ensures RequestsOf(acts) != [] <==> exists r :: AddRequest(r) in acts
  {
    if acts != [] {
      var init, act := acts[..|acts| - 1], acts[|acts| - 1];
      assert acts == init + [act];
      RequestsNonempty(init);
      if act.AddRequest? {
        assert AddRequest(act.request) in acts;
      }
    }
  }

  lemma ListsExtend(init: seq<Action>, act: Action)
    ensures RequestsOf(init + [act]) == RequestsOf(init) + if act.AddRequest? then [act.request] else []
    ensures CompletersOf(init + [act]) == CompletersOf(init) + if act.AddOnComplete? then [act.handler] else []
    ensures FailersOf(init + [act]) == FailersOf(init) + if act.AddOnError? then [act.handler] else []
    ensures Prepared(init + [act]) == (if |Prepared(init)| < |init| then Prepared(init)
                                       else if Commits(init, act) then init else init + [act])
  {
    assert (init + [act])[..|init|] == init;
  }

  /** One action on what was prepared. */
  lemma PrepareStep(s: Tx, act: Action)
    requires InOrder(s)
    ensures var t := Step(s, act);
            && (s.core.state != Uncommitted ==>
                  t.core.state != Uncommitted && t.core.requests == s.core.requests
                  && t.core.onComplete == s.core.onComplete && t.core.onError == s.core.onError)
            && (s.core.state == Uncommitted ==>
                  && t.core.requests == s.core.requests + (if act.AddRequest? then [act.request] else [])
                  && t.core.onComplete == s.core.onComplete + (if act.AddOnComplete? then [act.handler] else [])
                  && t.core.onError == s.core.onError + (if act.AddOnError? then [act.handler] else [])
                  && (t.core.state != Uncommitted <==> act == CommitTx && !s.cancelled && s.core.requests != []))
            && (t.cancelled <==> s.cancelled || act == CancelContext)
  {
  }

  /** A transaction is committed by the first commit that finds a request and a context not cancelled; it has the
      requests and the handlers that were added before that, in their order, and none that came later. */
  lemma {:induction false} PreparedExactly(kind: Kind, acts: seq<Action>)
    ensures var s := Run(Step, Begin(kind), acts);
            && (s.core.state == Uncommitted <==> Prepared(acts) == acts)
            && s.core.requests == RequestsOf(Prepared(acts))
            && s.core.onComplete == CompletersOf(Prepared(acts)) && s.core.onError == FailersOf(Prepared(acts))
            && (s.cancelled <==> CancelContext in acts)
  {
    if acts != [] {
      var init, act := acts[..|acts| - 1], acts[|acts| - 1];
      assert acts == init + [act];
      PreparedExactly(kind, init);
      TransactionRuns.RunsKeep(kind, init);
      PrepareStep(Run(Step, Begin(kind), init), act);
      RequestsNonempty(init);
      ListsExtend(init, act);
    }
  }
}
