/** Change streams under concurrency: the commits and notifications of store/store.go against Subscribe and Unsubscribe
    of store/store_stream.go.

    Any number of calls, one step per lock section.  A commit holds the items lock; its onStoreChange copies the
    registry later, and then reads and calls the handler of one stream after the other.  Subscribe sets the handler
    under the stream's lock and registers under the registry's; Unsubscribe clears it and deregisters. */
module StreamDelivery {
  import opened BusStores
  import opened Options
  import opened Runs

  /** A stream object; different streams may have the same filter. */
  datatype Stream = Stream(number: nat, filter: StreamFilter)

  /** The onStoreChange call of a commit.  `loaded` says that the handler of the stream at `pos` has been read and not
      yet called; `skipped` counts the matching streams found without a handler. */
  datatype Call = Call(
    change: Change,
    snapshot: Option<seq<Stream>>,
    pos: nat,
    loaded: bool,
    skipped: multiset<Stream>)

  datatype State = State(
    calls: seq<Call>,                   // one for each commit, in commit order
    registry: seq<Stream>,
    handlers: set<Stream>,              // the streams with a handler
    registering: multiset<Stream>,      // Subscribe calls that have set the handler and not registered
    leaving: multiset<Stream>,          // Unsubscribe calls that have cleared it and not deregistered
    received: map<Stream, seq<nat>>,    // the changes each stream was called with, by commit number
    missed: multiset<Stream>,           // deregistrations that found nothing
    wiped: multiset<Stream>)            // registrations that a Reset threw away

  const START := State([], [], {}, multiset{}, multiset{}, map[], multiset{}, multiset{})

  datatype Action =
    | Commit(change: Change)
    | TakeSnapshot(k: nat)
    | Load(k: nat)
    | Invoke(k: nat)
    | SetHandler(x: Stream)
    | Register(x: Stream)
    | ClearHandler(x: Stream)
    | Unregister(x: Stream)
    | Reset

  function Received(s: State, x: Stream): seq<nat> {
    if x in s.received then s.received[x] else []
  }

  function IndexOf(xs: seq<Stream>, x: Stream): (i: nat)
    requires x in xs
    ensures i < |xs| && xs[i] == x && x !in xs[..i]
  {
    if xs[0] == x then 0 else 1 + IndexOf(xs[1..], x)
  }

  /** The registry without the first occurrence of the stream, if there is one. */
  function Deregistered(registry: seq<Stream>, x: Stream): seq<Stream> {
    if x in registry then SwapRemoved(registry, IndexOf(registry, x)) else registry
  }

  predicate Walking(s: State, k: nat) {
    k < |s.calls| && s.calls[k].snapshot.Some? && s.calls[k].pos < |s.calls[k].snapshot.value|
  }

  function CallStep(s: State, act: Action): State
    requires act.Commit? || act.TakeSnapshot? || act.Load? || act.Invoke?
  {
    match act
    case Commit(change) => s.(calls := s.calls + [Call(change, None, 0, false, multiset{})])
    case TakeSnapshot(k) =>
      if k >= |s.calls| || s.calls[k].snapshot.Some? then s
      else s.(calls := s.calls[k := s.calls[k].(snapshot := Some(s.registry))])
    case Load(k) =>
      if !Walking(s, k) || s.calls[k].loaded then s
      else
        var c := s.calls[k];
        var x := c.snapshot.value[c.pos];
        s.(calls := s.calls[k :=
          if !x.filter.Match(c.change) then c.(pos := c.pos + 1)
          else if x in s.handlers then c.(loaded := true)
          else c.(pos := c.pos + 1, skipped := c.skipped + multiset{x})])
    case Invoke(k) =>
      if !Walking(s, k) || !s.calls[k].loaded then s
      else
        var c := s.calls[k];
        var x := c.snapshot.value[c.pos];
        s.(calls := s.calls[k := c.(pos := c.pos + 1, loaded := false)],
           received := s.received[x := Received(s, x) + [k]])
  }

  function StreamStep(s: State, act: Action): (t: State)
    requires act.SetHandler? || act.Register? || act.ClearHandler? || act.Unregister? || act.Reset?
    ensures t.calls == s.calls && t.received == s.received
  {
    match act
    case SetHandler(x) =>
      if x in s.handlers then s
      else s.(handlers := s.handlers + {x}, registering := s.registering + multiset{x})
    case Register(x) =>
      if x !in s.registering then s
      else s.(registry := s.registry + [x], registering := s.registering - multiset{x})
    case ClearHandler(x) =>
      if x !in s.handlers then s
      else s.(handlers := s.handlers - {x}, leaving := s.leaving + multiset{x})
    case Unregister(x) =>
      if x !in s.leaving then s
      else s.(registry := Deregistered(s.registry, x), leaving := s.leaving - multiset{x},
              missed := if x in s.registry then s.missed else s.missed + multiset{x})
    case Reset => s.(registry := [], wiped := s.wiped + multiset(s.registry))
  }

  function Step(s: State, act: Action): State {
    if act.Commit? || act.TakeSnapshot? || act.Load? || act.Invoke? then CallStep(s, act) else StreamStep(s, act)
  }

  /** How often the stream is in the registry. */
  function Registered(s: State, x: Stream): nat {
    multiset(s.registry)[x]
  }

  /** How often the stream was called with change `k`. */
  function Delivered(s: State, x: Stream, k: nat): nat {
    multiset(Received(s, x))[k]
  }

  /** The registrations of a stream are those its handler and its pending calls account for, and one more for each
      deregistration that found nothing. */
  predicate Balanced(s: State, x: Stream) {
    Registered(s, x) + s.wiped[x] + s.registering[x] == (if x in s.handlers then 1 else 0) + s.leaving[x] + s.missed[x]
  }

  /** A call has delivered to `x` as often as it has passed `x` in its snapshot with a handler. */
  predicate Counted(s: State, k: nat, x: Stream)
    requires k < |s.calls|
  {
    var c := s.calls[k];
    match c.snapshot
    case None => c.pos == 0 && !c.loaded && c.skipped == multiset{} && Delivered(s, x, k) == 0
    case Some(snapshot) =>
      && c.pos <= |snapshot|
      && (c.loaded ==> c.pos < |snapshot| && snapshot[c.pos].filter.Match(c.change))
      && Delivered(s, x, k) + c.skipped[x] == if x.filter.Match(c.change) then multiset(snapshot[..c.pos])[x] else 0
  }

  lemma SwapRemovedCounts(xs: seq<Stream>, i: nat)
    requires i < |xs|
    ensures multiset(SwapRemoved(xs, i)) == multiset(xs) - multiset{xs[i]}
  {
    var front, last := xs[..i], xs[|xs| - 1];
    if i == |xs| - 1 {
      assert xs == front + [last] && SwapRemoved(xs, i) == front;
    } else {
      var middle := xs[i + 1..|xs| - 1];
      assert xs == front + [xs[i]] + middle + [last];
      assert SwapRemoved(xs, i) == front + [last] + middle;
    }
  }

  lemma DeregisteredCounts(registry: seq<Stream>, y: Stream, x: Stream)
    ensures multiset(Deregistered(registry, y))[x] == multiset(registry)[x] - if x == y && y in registry then 1 else 0
    ensures x in registry <==> multiset(registry)[x] > 0
  {
    if y in registry {
      SwapRemovedCounts(registry, IndexOf(registry, y));
    }
  }

  lemma UnregisterBalances(s: State, y: Stream, x: Stream)
    requires Balanced(s, x)
    ensures Balanced(StreamStep(s, Unregister(y)), x)
  {
    DeregisteredCounts(s.registry, y, x);
  }

  lemma RegisterBalances(s: State, y: Stream, x: Stream)
    requires Balanced(s, x)
    ensures Balanced(StreamStep(s, Register(y)), x)
  {
    assert multiset(s.registry + [y])[x] == multiset(s.registry)[x] + if x == y then 1 else 0;
  }

  lemma StepBalances(s: State, act: Action, x: Stream)
    requires Balanced(s, x)
    ensures Balanced(Step(s, act), x)
  {
    match act
    case Register(y) => RegisterBalances(s, y, x);
    case Unregister(y) => UnregisterBalances(s, y, x);
    case _ =>
  }

  lemma InvokeDelivers(s: State, k: nat, x: Stream, j: nat)
    requires Walking(s, k) && s.calls[k].loaded
    ensures Delivered(Step(s, Invoke(k)), x, j)
         == Delivered(s, x, j) + if x == s.calls[k].snapshot.value[s.calls[k].pos] && j == k then 1 else 0
  {
  }

  lemma OthersDeliverNothing(s: State, act: Action, x: Stream, j: nat)
    requires !act.Invoke? || !Walking(s, act.k) || !s.calls[act.k].loaded
    ensures Delivered(Step(s, act), x, j) == Delivered(s, x, j)
  {
  }

  lemma PassingCounts(snapshot: seq<Stream>, pos: nat, x: Stream)
    requires pos < |snapshot|
    ensures multiset(snapshot[..pos + 1])[x] == multiset(snapshot[..pos])[x] + if snapshot[pos] == x then 1 else 0
  {
    assert snapshot[..pos + 1] == snapshot[..pos] + [snapshot[pos]];
  }

  predicate CountedSoFar(s: State, j: nat, x: Stream) {
    if j < |s.calls| then Counted(s, j, x) else Delivered(s, x, j) == 0
  }

  lemma LoadCounts(s: State, k: nat, x: Stream)
    requires Walking(s, k) && !s.calls[k].loaded && Counted(s, k, x)
    ensures Counted(CallStep(s, Load(k)), k, x)
  {
    PassingCounts(s.calls[k].snapshot.value, s.calls[k].pos, x);
  }

  lemma LoadCountsAny(s: State, k: nat, j: nat, x: Stream)
    requires CountedSoFar(s, j, x)
    ensures CountedSoFar(Step(s, Load(k)), j, x)
  {
    if j == k && Walking(s, k) && !s.calls[k].loaded {
      LoadCounts(s, k, x);
    } else {
      OthersDeliverNothing(s, Load(k), x, j);
    }
  }

  lemma InvokeCounts(s: State, k: nat, x: Stream)
    requires Walking(s, k) && s.calls[k].loaded && Counted(s, k, x)
    ensures Counted(CallStep(s, Invoke(k)), k, x)
  {
    InvokeDelivers(s, k, x, k);
    PassingCounts(s.calls[k].snapshot.value, s.calls[k].pos, x);
  }

  lemma InvokeCountsAny(s: State, k: nat, j: nat, x: Stream)
    requires CountedSoFar(s, j, x)
    ensures CountedSoFar(Step(s, Invoke(k)), j, x)
  {
    if Walking(s, k) && s.calls[k].loaded {
      InvokeDelivers(s, k, x, j);
      if j == k {
        InvokeCounts(s, k, x);
      }
    }
  }

  lemma CommitCounts(s: State, act: Action, j: nat, x: Stream)
    requires CountedSoFar(s, j, x) && (act.Commit? || act.TakeSnapshot?)
    ensures CountedSoFar(CallStep(s, act), j, x)
  {
    OthersDeliverNothing(s, act, x, j);
  }

  lemma SameCounts(s: State, t: State, j: nat, x: Stream)
    requires CountedSoFar(s, j, x) && t.calls == s.calls && t.received == s.received
    ensures CountedSoFar(t, j, x)
  {
  }

  lemma OtherCounts(s: State, act: Action, j: nat, x: Stream)
    requires CountedSoFar(s, j, x)
    requires act.SetHandler? || act.Register? || act.ClearHandler? || act.Unregister? || act.Reset?
    ensures CountedSoFar(StreamStep(s, act), j, x)
  {
    SameCounts(s, StreamStep(s, act), j, x);
  }

  lemma StepCounts(s: State, act: Action, j: nat, x: Stream)
    requires CountedSoFar(s, j, x)
    ensures CountedSoFar(Step(s, act), j, x)
  {
    if act.Load? {
      LoadCountsAny(s, act.k, j, x);
    } else if act.Invoke? {
      InvokeCountsAny(s, act.k, j, x);
    } else if act.Commit? || act.TakeSnapshot? {
      CommitCounts(s, act, j, x);
    } else {
      OtherCounts(s, act, j, x);
    }
  }

  ghost predicate Inv(s: State) {
    && (forall x :: Balanced(s, x))
    && (forall x, k: nat :: CountedSoFar(s, k, x))
  }

  lemma StepKeeps(s: State, act: Action)
    requires Inv(s)
    ensures Inv(Step(s, act))
  {
    var t := Step(s, act);
    forall x ensures Balanced(t, x) {
      StepBalances(s, act, x);
    }
    forall x, k: nat ensures CountedSoFar(t, k, x) {
      StepCounts(s, act, k, x);
    }
  }

  lemma RunsKeepFrom(s: State, acts: seq<Action>)
    requires Inv(s)
    ensures Inv(Run(Step, s, acts))
  {
    forall t, act | Inv(t) ensures Inv(Step(t, act)) {
      StepKeeps(t, act);
    }
    RunKeeps(Step, t => Inv(t), s, acts);
  }

  lemma RunsKeep(acts: seq<Action>)
    ensures Inv(Run(Step, START, acts))
  {
    RunsKeepFrom(START, acts);
  }

  predicate Done(s: State, k: nat) {
    k < |s.calls| && s.calls[k].snapshot.Some? && s.calls[k].pos == |s.calls[k].snapshot.value|
  }

  /** Both sections of the stream's last Subscribe are over, and of every call on it before. */
  predicate Subscribed(s: State, x: Stream) {
    x in s.handlers && x !in s.registering && x !in s.leaving
  }

  /** Neither an Unsubscribe of the stream nor a Reset. */
  predicate Keeps(act: Action, x: Stream) {
    act != ClearHandler(x) && act != Reset
  }

  lemma SubscribedStays(s: State, act: Action, x: Stream)
    requires Subscribed(s, x) && Keeps(act, x)
    ensures var t := Step(s, act);
            Subscribed(t, x) && Registered(t, x) == Registered(s, x) && t.missed[x] == s.missed[x] &&
              t.wiped[x] == s.wiped[x]
  {
    if act.Unregister? {
      DeregisteredCounts(s.registry, act.x, x);
    }
  }

  /** Call `k` found the stream `n` times in the registry, and with a handler each time it came to it. */
  predicate Finds(s: State, k: nat, x: Stream, n: nat) {
    k < |s.calls| && s.calls[k].snapshot.Some? ==>
      multiset(s.calls[k].snapshot.value)[x] == n && s.calls[k].skipped[x] == 0
  }

  lemma FindsStep(s: State, act: Action, k: nat, x: Stream)
    requires Subscribed(s, x) && Finds(s, k, x, Registered(s, x))
    requires CountedSoFar(s, k, x)
    ensures Finds(Step(s, act), k, x, Registered(s, x))
  {
  }

  lemma {:induction false} FindsRun(s: State, later: seq<Action>, k: nat, x: Stream)
    requires Inv(s) && Subscribed(s, x) && Finds(s, k, x, Registered(s, x))
    requires forall act | act in later :: Keeps(act, x)
    ensures var t := Run(Step, s, later);
            Inv(t) && Subscribed(t, x) && Registered(t, x) == Registered(s, x) && Finds(t, k, x, Registered(s, x))
  {
    if later != [] {
      var init := later[..|later| - 1];
      FindsRun(s, init, k, x);
      var t := Run(Step, s, init);
      SubscribedStays(t, later[|later| - 1], x);
      FindsStep(t, later[|later| - 1], k, x);
      StepKeeps(t, later[|later| - 1]);
    }
  }

  /** Delivery, for every interleaving: a stream that stays subscribed is called with each change that is announced
      from then on once, and once more for each of its deregistrations that ever found nothing (a Reset accounts for
      some of them); and not at all with changes that do not match.  It gets each matching change exactly once
      precisely if there was no other such deregistration. */
  lemma EachChangeExactly(before: seq<Action>, later: seq<Action>, k: nat, x: Stream)
    requires Subscribed(Run(Step, START, before), x) && forall act | act in later :: Keeps(act, x)
    requires var calls := Run(Step, START, before).calls; k < |calls| ==> calls[k].snapshot.None?
    requires Done(Run(Step, Run(Step, START, before), later), k)
    ensures var s := Run(Step, START, before);
            var t := Run(Step, s, later);
            && Delivered(t, x, k) == (if x.filter.Match(t.calls[k].change) then Registered(s, x) else 0)
            && Registered(s, x) + s.wiped[x] == 1 + s.missed[x]
            && (Registered(s, x) == 1 <==> s.missed[x] == s.wiped[x])
  {
    RunsKeep(before);
    var s := Run(Step, START, before);
    FindsRun(s, later, k, x);
    var t := Run(Step, s, later);
    assert CountedSoFar(t, k, x) && Balanced(s, x);
    var snapshot := t.calls[k].snapshot.value;
    assert snapshot[..|snapshot|] == snapshot;
  }

  function SetsHandler(x: Stream): (seq<Action>, Action) -> bool {
    (acts, act) => act == SetHandler(x)
  }

  function NotClearedAfter(x: Stream): seq<Action> -> bool {
    (acts: seq<Action>) => acts != [] ==> acts[|acts| - 1] != ClearHandler(x)
  }

  lemma HandlerStep(s: State, act: Action, x: Stream)
    ensures x in Step(s, act).handlers <==> (x in s.handlers || act == SetHandler(x)) && act != ClearHandler(x)
  {
  }

  /** A stream has a handler exactly if one was set and none was cleared since. */
  lemma {:induction false} HandlerExactly(acts: seq<Action>, x: Stream)
    ensures x in Run(Step, START, acts).handlers
       <==> exists i: nat :: HeldSince(SetsHandler(x), NotClearedAfter(x), acts, i)
  {
    if acts != [] {
      var init, act := acts[..|acts| - 1], acts[|acts| - 1];
      assert acts == init + [act];
      HandlerExactly(init, x);
      HandlerStep(Run(Step, START, init), act, x);
      HeldSinceExtends(SetsHandler(x), NotClearedAfter(x), init, act);
    }
  }

  /** The sections of Subscribe: setting a handler leaves one registration to do, and that is done once. */
  lemma SubscribeDoes(s: State, x: Stream)
    ensures x !in s.handlers ==> Step(s, SetHandler(x)).registering[x] == s.registering[x] + 1
    ensures x in s.registering ==>
              && Registered(Step(s, Register(x)), x) == Registered(s, x) + 1
              && Step(s, Register(x)).registering[x] == s.registering[x] - 1
  {
    assert multiset(s.registry + [x])[x] == multiset(s.registry)[x] + 1;
  }

  lemma UnregisterDoes(s: State, x: Stream)
    requires x in s.leaving
    ensures var t := StreamStep(s, Unregister(x));
            && Registered(t, x) == (if Registered(s, x) > 0 then Registered(s, x) - 1 else 0)
            && t.leaving[x] == s.leaving[x] - 1
  {
    DeregisteredCounts(s.registry, x, x);
  }

  /** The sections of Unsubscribe: clearing the handler leaves one deregistration to do, and that takes the stream out
      of the registry once, if it is there. */
  lemma UnsubscribeDoes(s: State, x: Stream)
    ensures x in s.handlers ==> StreamStep(s, ClearHandler(x)).leaving[x] == s.leaving[x] + 1
    ensures x in s.leaving ==>
              var t := StreamStep(s, Unregister(x));
              && Registered(t, x) == (if Registered(s, x) > 0 then Registered(s, x) - 1 else 0)
              && t.leaving[x] == s.leaving[x] - 1
  {
    if x in s.leaving {
      UnregisterDoes(s, x);
    }
  }

  function CommitsOf(acts: seq<Action>): seq<Change> {
    if acts == [] then []
    else
      var earlier, act := CommitsOf(acts[..|acts| - 1]), acts[|acts| - 1];
      if act.Commit? then earlier + [act.change] else earlier
  }

  lemma ChangesStay(s: State, act: Action)
    ensures var t := Step(s, act);
            && |t.calls| == |s.calls| + (if act.Commit? then 1 else 0)
            && (forall i | 0 <= i < |s.calls| :: t.calls[i].change == s.calls[i].change)
            && (act.Commit? ==> t.calls[|s.calls|].change == act.change)
  {
  }

  /** There is one announcement for each commit, in commit order, and it is of that commit's change. */
  lemma {:induction false} CallsAreCommits(acts: seq<Action>)
    ensures var calls := Run(Step, START, acts).calls;
            |calls| == |CommitsOf(acts)| && forall i | 0 <= i < |calls| :: calls[i].change == CommitsOf(acts)[i]
  {
    if acts != [] {
      CallsAreCommits(acts[..|acts| - 1]);
      ChangesStay(Run(Step, START, acts[..|acts| - 1]), acts[|acts| - 1]);
    }
  }

  lemma NotInParts(snapshot: seq<Stream>, pos: nat, x: Stream)
    requires pos <= |snapshot| && multiset(snapshot)[x] == 0
    ensures multiset(snapshot[..pos])[x] == 0
  {
    assert snapshot == snapshot[..pos] + snapshot[pos..];
  }

  /** A Reset deafens: a stream that is subscribed when the store is reset, and is not unsubscribed after that, is
      called with no change whose announcement copies the registry after the Reset. */
  lemma ResetDeafens(before: seq<Action>, later: seq<Action>, k: nat, x: Stream)
    requires Subscribed(Run(Step, START, before), x) && forall act | act in later :: Keeps(act, x)
    requires var calls := Run(Step, START, before).calls; k < |calls| ==> calls[k].snapshot.None?
    ensures var t := Run(Step, Step(Run(Step, START, before), Reset), later);
            Subscribed(t, x) && Delivered(t, x, k) == 0
  {
    RunsKeep(before);
    var s := Step(Run(Step, START, before), Reset);
    StepKeeps(Run(Step, START, before), Reset);
    FindsRun(s, later, k, x);
    var t := Run(Step, s, later);
    assert CountedSoFar(t, k, x);
    if k < |t.calls| && t.calls[k].snapshot.Some? {
      NotInParts(t.calls[k].snapshot.value, t.calls[k].pos, x);
    }
  }

  /** An Unsubscribe of the stream between the two sections of one of its Subscribe calls. */
  predicate Overlaps(s: State, act: Action, x: Stream) {
    act == ClearHandler(x) && x in s.handlers && x in s.registering
  }

  /** No deregistration has found nothing, and none that is pending will. */
  predicate InTurn(s: State, x: Stream) {
    s.missed[x] == s.wiped[x] && s.registering[x] <= if x in s.handlers then 1 else 0
  }

  lemma UnregisterInTurn(s: State, y: Stream, x: Stream)
    requires Balanced(s, x) && InTurn(s, x)
    ensures InTurn(StreamStep(s, Unregister(y)), x)
  {
    DeregisteredCounts(s.registry, x, x);
  }

  lemma InTurnStep(s: State, act: Action, x: Stream)
    requires Balanced(s, x) && InTurn(s, x) && !Overlaps(s, act, x) && act != Reset
    ensures InTurn(Step(s, act), x)
  {
    if act.Unregister? {
      UnregisterInTurn(s, act.x, x);
    }
  }

  lemma {:induction false} InTurnRun(s: State, acts: seq<Action>, x: Stream)
    requires Inv(s) && InTurn(s, x) && Reset !in acts
    requires forall i | 0 <= i < |acts| :: !Overlaps(Run(Step, s, acts[..i]), acts[i], x)
    ensures Inv(Run(Step, s, acts)) && InTurn(Run(Step, s, acts), x)
  {
    if acts != [] {
      var init := acts[..|acts| - 1];
      forall i | 0 <= i < |init| ensures !Overlaps(Run(Step, s, init[..i]), init[i], x) {
        assert init[..i] == acts[..i];
      }
      InTurnRun(s, init, x);
      InTurnStep(Run(Step, s, init), acts[|acts| - 1], x);
      StepKeeps(Run(Step, s, init), acts[|acts| - 1]);
    }
  }

  /** A stream whose Unsubscribe calls never overlapped its Subscribe calls, in a store that was not reset, and that
      stays subscribed gets each matching change exactly once. */
  lemma EachChangeOnce(before: seq<Action>, later: seq<Action>, k: nat, x: Stream)
    requires Reset !in before
    requires forall i | 0 <= i < |before| :: !Overlaps(Run(Step, START, before[..i]), before[i], x)
    requires Subscribed(Run(Step, START, before), x) && forall act | act in later :: Keeps(act, x)
    requires var calls := Run(Step, START, before).calls; k < |calls| ==> calls[k].snapshot.None?
    requires Done(Run(Step, Run(Step, START, before), later), k)
    ensures var t := Run(Step, Run(Step, START, before), later);
            Delivered(t, x, k) == if x.filter.Match(t.calls[k].change) then 1 else 0
  {
    RunsKeep([]);
    InTurnRun(START, before, x);
    EachChangeExactly(before, later, k, x);
  }

  /** `t` can follow `s` without an Unsubscribe of the stream and without a Reset. */
  ghost predicate Leads(s: State, t: State, x: Stream) {
    exists acts :: (forall act | act in acts :: Keeps(act, x)) && Run(Step, s, acts) == t
  }

  lemma LeadsBy(s: State, t: State, x: Stream, act: Action) returns (u: State)
    requires Leads(s, t, x) && Keeps(act, x)
    ensures u == Step(t, act) && Leads(s, u, x)
  {
    var acts :| (forall act | act in acts :: Keeps(act, x)) && Run(Step, s, acts) == t;
    RunLast(Step, s, acts, act);
    u := Step(t, act);
    assert forall a | a in acts + [act] :: Keeps(a, x);
  }

  lemma LeadsNowhere(s: State, x: Stream)
    ensures Leads(s, s, x)
  {
    assert Run(Step, s, []) == s;
  }

  lemma {:induction false} AllDeregister(s: State, t: State, x: Stream) returns (u: State)
    requires Leads(s, t, x) && Balanced(t, x)
    ensures Leads(s, u, x) && Balanced(u, x) && x !in u.leaving
    ensures u.handlers == t.handlers && u.registering == t.registering && u.wiped == t.wiped
    decreases t.leaving[x]
  {
    u := t;
    if x in t.leaving {
      StepBalances(t, Unregister(x), x);
      u := LeadsBy(s, t, x, Unregister(x));
      u := AllDeregister(s, u, x);
    }
  }

  lemma {:induction false} AllRegister(s: State, t: State, x: Stream) returns (u: State)
    requires Leads(s, t, x) && Balanced(t, x)
    ensures Leads(s, u, x) && Balanced(u, x) && x !in u.registering
    ensures u.handlers == t.handlers && u.leaving == t.leaving && u.wiped == t.wiped && u.missed == t.missed
    decreases t.registering[x]
  {
    u := t;
    if x in t.registering {
      StepBalances(t, Register(x), x);
      u := LeadsBy(s, t, x, Register(x));
      u := AllRegister(s, u, x);
    }
  }

  /** After an Unsubscribe that overlaps a Subscribe, the deregistration may come first and find nothing; a later
      Subscribe then leaves the stream in the registry twice. */
  lemma OverlapMayDouble(s: State, x: Stream)
    requires Inv(s) && x in s.handlers && x in s.registering && s.missed[x] == s.wiped[x]
    ensures exists t :: Leads(Step(s, ClearHandler(x)), t, x) && Subscribed(t, x) && Registered(t, x) > 1
  {
    var s' := Step(s, ClearHandler(x));
    StepKeeps(s, ClearHandler(x));
    LeadsNowhere(s', x);
    assert Balanced(s', x);
    var t := AllDeregister(s', s', x);
    assert t.missed[x] > t.wiped[x];
    t := AllRegister(s', t, x);
    StepBalances(t, SetHandler(x), x);
    t := LeadsBy(s', t, x, SetHandler(x));
    t := AllRegister(s', t, x);
  }

  lemma SafeWithoutOverlap(s: State, acts: seq<Action>, x: Stream)
    requires Inv(s) && x !in s.handlers && x !in s.registering && s.missed[x] == s.wiped[x]
    requires forall act | act in acts :: Keeps(act, x)
    ensures Subscribed(Run(Step, s, acts), x) ==> Registered(Run(Step, s, acts), x) == 1
  {
    forall i | 0 <= i < |acts| ensures !Overlaps(Run(Step, s, acts[..i]), acts[i], x) {
      assert acts[i] in acts;
    }
    InTurnRun(s, acts, x);
    assert Balanced(Run(Step, s, acts), x);
  }

  /** The exact condition, checked before the call: an Unsubscribe leaves the stream sure of being in the registry
      once, whenever it is subscribed again, precisely if no Subscribe of it is between its sections. */
  lemma UnsubscribeSafeExactly(s: State, x: Stream)
    requires Inv(s) && x in s.handlers && s.missed[x] == s.wiped[x]
    ensures (forall t | Leads(Step(s, ClearHandler(x)), t, x) && Subscribed(t, x) :: Registered(t, x) == 1)
       <==> x !in s.registering
  {
    if x in s.registering {
      OverlapMayDouble(s, x);
    } else {
      var s' := Step(s, ClearHandler(x));
      StepKeeps(s, ClearHandler(x));
      forall t | Leads(s', t, x) && Subscribed(t, x) ensures Registered(t, x) == 1 {
        var acts :| (forall act | act in acts :: Keeps(act, x)) && Run(Step, s', acts) == t;
        SafeWithoutOverlap(s', acts, x);
      }
    }
  }
}
