/** The readiness of a store, store/store.go: Initialize closes the ready channel of the current epoch, Reset begins a
    new epoch with a new channel, and WhenReady starts a goroutine that waits for the channel it found.

    Each call takes effect in one step under lifecycleMu; the goroutines run between them in any order. */
module Readiness {
  import opened Runs
  import opened Sequences

  /** What becomes visible: a channel is closed, the callback of a WhenReady call runs. */
  datatype Entry = Closed(epoch: nat) | Ran(waiter: nat)

  /** The goroutine of a WhenReady call, and the channel it waits for. */
  datatype Waiter = Blocked(epoch: nat) | Finished(epoch: nat)

  /** `readyC` numbers the channels; `closed` has those that are closed; `used` says that the sync.Once of this epoch
      has run.  The log is what can be observed, and no step reads it. */
  datatype State = State(readyC: nat, used: bool, closed: set<nat>, waiters: seq<Waiter>, log: seq<Entry>)

  const START := State(0, false, {}, [], [])

  datatype Action = Initialize | Reset | WhenReady | Wake(waiter: nat)

  function Step(s: State, act: Action): State {
    match act
    case Initialize =>
      if s.used then s else s.(used := true, closed := s.closed + {s.readyC}, log := s.log + [Closed(s.readyC)])
    case Reset => s.(readyC := s.readyC + 1, used := false)
    case WhenReady => s.(waiters := s.waiters + [Blocked(s.readyC)])
    case Wake(i) =>
      if i < |s.waiters| && s.waiters[i].Blocked? && s.waiters[i].epoch in s.closed
      then s.(waiters := s.waiters[i := Finished(s.waiters[i].epoch)], log := s.log + [Ran(i)]) else s
  }

  /** The epoch in which the next action happens. */
  function Epoch(acts: seq<Action>): nat {
    if acts == [] then 0 else Epoch(acts[..|acts| - 1]) + if acts[|acts| - 1] == Reset then 1 else 0
  }

  /** Initialize has been called in epoch `e`. */
  ghost predicate InitializedIn(acts: seq<Action>, e: nat) {
    exists i | 0 <= i < |acts| :: acts[i] == Initialize && Epoch(acts[..i]) == e
  }

  predicate RanAfterClosed(waiters: seq<Waiter>, log: seq<Entry>) {
    forall k | 0 <= k < |log| && log[k].Ran? ::
      log[k].waiter < |waiters| && Closed(waiters[log[k].waiter].epoch) in log[..k]
  }

  ghost predicate Inv(s: State) {
    && Distinct(s.log) && RanAfterClosed(s.waiters, s.log)
    && (forall e: nat :: e in s.closed <==> Closed(e) in s.log)
    && FinishedHaveRun(s.waiters, s.log)
    && (forall e: nat | Closed(e) in s.log :: e < s.readyC || (e == s.readyC && s.used))
    && (s.used ==> Closed(s.readyC) in s.log)
  }

  ghost predicate FinishedHaveRun(waiters: seq<Waiter>, log: seq<Entry>) {
    forall i: nat | i < |waiters| :: waiters[i].Finished? <==> Ran(i) in log
  }

  lemma FinishingRuns(waiters: seq<Waiter>, log: seq<Entry>, i: nat)
    requires FinishedHaveRun(waiters, log) && i < |waiters|
    ensures FinishedHaveRun(waiters[i := Finished(waiters[i].epoch)], log + [Ran(i)])
  {
  }

  lemma LogGrows(waiters: seq<Waiter>, log: seq<Entry>, entry: Entry)
    requires Distinct(log) && RanAfterClosed(waiters, log) && entry !in log
    requires entry.Ran? ==> entry.waiter < |waiters| && Closed(waiters[entry.waiter].epoch) in log
    ensures Distinct(log + [entry]) && RanAfterClosed(waiters, log + [entry])
  {
    assert forall k | 0 <= k <= |log| :: (log + [entry])[..k] == log[..k];
    assert log[..|log|] == log;
  }

  lemma InitializeKeeps(s: State)
    requires Inv(s)
    ensures Inv(Step(s, Initialize))
  {
    if !s.used {
      LogGrows(s.waiters, s.log, Closed(s.readyC));
    }
  }

  lemma FinishingKeepsEpochs(waiters: seq<Waiter>, log: seq<Entry>, i: nat)
    requires RanAfterClosed(waiters, log) && i < |waiters|
    ensures RanAfterClosed(waiters[i := Finished(waiters[i].epoch)], log)
  {
  }

  predicate CanWake(s: State, i: nat) {
    i < |s.waiters| && s.waiters[i].Blocked? && s.waiters[i].epoch in s.closed
  }

  lemma WakeKeeps(s: State, i: nat)
    requires Inv(s)
    ensures Inv(Step(s, Wake(i)))
  {
    if CanWake(s, i) {
      LogGrows(s.waiters, s.log, Ran(i));
      FinishingRuns(s.waiters, s.log, i);
      FinishingKeepsEpochs(s.waiters, s.log + [Ran(i)], i);
      assert forall e: nat :: Closed(e) in s.log + [Ran(i)] <==> Closed(e) in s.log;
    }
  }

  /** A goroutine goes on exactly if its channel is closed, and has gone on then. */
  lemma WakeRuns(s: State, i: nat)
    requires Inv(s) && i < |s.waiters|
    ensures Ran(i) in Step(s, Wake(i)).log <==> Closed(s.waiters[i].epoch) in s.log
  {
    if CanWake(s, i) {
      assert s.log + [Ran(i)] == Step(s, Wake(i)).log;
    } else if s.waiters[i].Finished? {
      var k :| 0 <= k < |s.log| && s.log[k] == Ran(i);
      assert Closed(s.waiters[i].epoch) in s.log[..k];
    }
  }

  lemma StepKeeps(s: State, act: Action)
    requires Inv(s)
    ensures Inv(Step(s, act))
  {
    match act
    case Initialize => InitializeKeeps(s);
    case Wake(i) => WakeKeeps(s, i);
    case _ =>
  }

  lemma RunsKeep(acts: seq<Action>)
    ensures Inv(Run(Step, START, acts))
  {
    forall t, act | Inv(t) ensures Inv(Step(t, act)) {
      StepKeeps(t, act);
    }
    RunKeeps(Step, s => Inv(s), START, acts);
  }

  lemma InitializedExtends(init: seq<Action>, act: Action, e: nat)
    ensures InitializedIn(init + [act], e) <==> InitializedIn(init, e) || (act == Initialize && Epoch(init) == e)
  {
    var acts := init + [act];
    assert forall i | 0 <= i <= |init| :: acts[..i] == init[..i];
    assert init[..|init|] == init;
    if InitializedIn(init, e) {
      var i :| 0 <= i < |init| && init[i] == Initialize && Epoch(init[..i]) == e;
      assert acts[i] == Initialize && Epoch(acts[..i]) == e;
    }
    if act == Initialize && Epoch(init) == e {
      assert acts[|init|] == Initialize && Epoch(acts[..|init|]) == e;
    }
  }

  lemma ClosedBy(s: State, act: Action, e: nat)
    requires Inv(s)
    ensures Closed(e) in Step(s, act).log <==> Closed(e) in s.log || (act == Initialize && e == s.readyC)
  {
  }

  /** The ready channel of an epoch is closed exactly if Initialize was called in it. */
  lemma {:induction false} ClosedExactly(acts: seq<Action>, e: nat)
    ensures var s := Run(Step, START, acts);
            s.readyC == Epoch(acts) && (Closed(e) in s.log <==> InitializedIn(acts, e))
  {
    if acts != [] {
      var init, act := acts[..|acts| - 1], acts[|acts| - 1];
      ClosedExactly(init, e);
      RunsKeep(init);
      assert acts == init + [act];
      ClosedBy(Run(Step, START, init), act, e);
      InitializedExtends(init, act, e);
    }
  }

  /** The epoch in which the `i`-th WhenReady call was made. */
  lemma {:induction false} WaiterHasItsEpoch(acts: seq<Action>, k: nat)
    requires k < |acts| && acts[k] == WhenReady
    ensures var i := |Run(Step, START, acts[..k]).waiters|;
            i < |Run(Step, START, acts).waiters| && Run(Step, START, acts).waiters[i].epoch == Epoch(acts[..k])
  {
    var init := acts[..|acts| - 1];
    assert init[..k] == acts[..k];
    if k == |acts| - 1 {
      ClosedExactly(init, 0);
    } else {
      WaiterHasItsEpoch(init, k);
    }
  }

  /** In every interleaving no channel is closed twice and no callback runs twice. */
  lemma NothingTwice(acts: seq<Action>)
    ensures Distinct(Run(Step, START, acts).log)
  {
    RunsKeep(acts);
  }

  /** In every interleaving a callback that has run was registered in an epoch whose channel was closed before, by an
      Initialize in that epoch. */
  lemma RanAfterInitialize(acts: seq<Action>, k: nat)
    requires k < |acts| && acts[k] == WhenReady
    ensures var i, log := |Run(Step, START, acts[..k]).waiters|, Run(Step, START, acts).log;
            forall j | 0 <= j < |log| && log[j] == Ran(i) ::
              Closed(Epoch(acts[..k])) in log[..j] && InitializedIn(acts, Epoch(acts[..k]))
  {
    RunsKeep(acts);
    ClosedExactly(acts, Epoch(acts[..k]));
    WaiterHasItsEpoch(acts, k);
  }

  /** A callback can run, when its turn comes, exactly if its own epoch was initialized: one whose epoch was Reset
      before Initialize waits for ever, however often the store is initialized after that. */
  lemma WakesExactly(acts: seq<Action>, k: nat)
    requires k < |acts| && acts[k] == WhenReady
    ensures var i := |Run(Step, START, acts[..k]).waiters|;
            Ran(i) in Run(Step, START, acts + [Wake(i)]).log <==> InitializedIn(acts, Epoch(acts[..k]))
  {
    var i := |Run(Step, START, acts[..k]).waiters|;
    RunLast(Step, START, acts, Wake(i));
    RunsKeep(acts);
    ClosedExactly(acts, Epoch(acts[..k]));
    WaiterHasItsEpoch(acts, k);
    WakeRuns(Run(Step, START, acts), i);
  }

  /** The lifecycle fields of a store. */
  class Lifecycle {
    var readyC: nat
    var initializerUsed: bool
    var nextChannel: nat
    var closed: set<nat>
    var waiters: seq<Waiter>
    ghost var log: seq<Entry>

    constructor ()
      ensures Now() == START && Valid()
    {
      readyC, initializerUsed, nextChannel, closed, waiters, log := 0, false, 1, {}, [], [];
    }

    ghost predicate Valid()
      reads this
    {
      nextChannel == readyC + 1
    }

    ghost function Now(): State
      reads this
    {
      State(readyC, initializerUsed, closed, waiters, log)
    }

    method Initialize()
      requires Valid()
      modifies this`initializerUsed, this`closed, this`log
      ensures Valid() && Now() == Step(old(Now()), Action.Initialize)
    {
      if !initializerUsed {
        initializerUsed := true;
        closed := closed + {readyC};
        log := log + [Closed(readyC)];
      }
    }

    method Reset()
      requires Valid()
      modifies this
      ensures Valid() && Now() == Step(old(Now()), Action.Reset)
    {
      readyC, nextChannel := nextChannel, nextChannel + 1;
      initializerUsed := false;
    }

    method WhenReady() returns (waiter: nat)
      requires Valid()
      modifies this`waiters
      ensures Valid() && Now() == Step(old(Now()), Action.WhenReady) && waiter == |old(waiters)|
    {
      waiter := |waiters|;
      waiters := waiters + [Blocked(readyC)];
    }

    /** The goroutine of the call takes its turn: it goes on only if its channel is closed. */
    method Wake(waiter: nat) returns (ran: bool)
      requires Valid() && waiter < |waiters|
      modifies this`waiters, this`log
      ensures Valid() && Now() == Step(old(Now()), Action.Wake(waiter))
      ensures ran == (old(waiters[waiter].Blocked?) && old(waiters[waiter].epoch) in closed)
    {
      if waiters[waiter].Finished? || waiters[waiter].epoch !in closed {
        return false;
      }
      waiters := waiters[waiter := Finished(waiters[waiter].epoch)];
      log := log + [Ran(waiter)];
      return true;
    }
  }
}
