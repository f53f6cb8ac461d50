/** The order in which a change stream hears of changes, and the runs in which it is not what one would expect.

    A store commits under its lock and notifies after it, so nothing in store/store.go orders the notifications of two
    commits.  That they come in commit order is a hypothesis here. */
module StreamOrder {
  import opened BusStores
  import opened Options
  import opened Runs
  import opened StreamDelivery

  /** A change is announced only when every earlier commit has been. */
  predicate Orderly(s: State, act: Action) {
    act.TakeSnapshot? || act.Load? || act.Invoke? ==> forall j | 0 <= j < act.k :: Done(s, j)
  }

  ghost predicate OrderlyRun(s: State, acts: seq<Action>) {
    forall i | 0 <= i < |acts| :: Orderly(Run(Step, s, acts[..i]), acts[i])
  }

  predicate Sorted(xs: seq<nat>) {
    forall i, j | 0 <= i < j < |xs| :: xs[i] <= xs[j]
  }

  lemma SortedAppends(xs: seq<nat>, k: nat)
    requires Sorted(xs) && forall e | e in xs :: e <= k
    ensures Sorted(xs + [k])
  {
    assert forall i | 0 <= i < |xs| :: xs[i] in xs;
  }

  /** All commits before those in `xs` have been announced. */
  ghost predicate AllBeforeDone(s: State, xs: seq<nat>) {
    forall k, j: nat | k in xs && j < k :: Done(s, j)
  }

  lemma DoneStays(s: State, act: Action, k: nat)
    requires Done(s, k)
    ensures Done(Step(s, act), k)
  {
  }

  lemma BeforeDoneStays(s: State, act: Action, xs: seq<nat>)
    requires AllBeforeDone(s, xs)
    ensures AllBeforeDone(Step(s, act), xs)
  {
    forall k, j: nat | k in xs && j < k ensures Done(Step(s, act), j) {
      DoneStays(s, act, j);
    }
  }

  predicate Invokes(s: State, act: Action, x: Stream) {
    act.Invoke? && Walking(s, act.k) && s.calls[act.k].loaded && s.calls[act.k].snapshot.value[s.calls[act.k].pos] == x
  }

  lemma ReceivesBy(s: State, act: Action, x: Stream)
    ensures Received(Step(s, act), x) == Received(s, x) + if Invokes(s, act, x) then [act.k] else []
  {
  }

  lemma InOrderStep(s: State, act: Action, x: Stream, xs: seq<nat>)
    requires Sorted(xs) && AllBeforeDone(s, xs) && Orderly(s, act)
    ensures var ys := xs + if Invokes(s, act, x) then [act.k] else [];
            Sorted(ys) && AllBeforeDone(Step(s, act), ys)
  {
    BeforeDoneStays(s, act, xs);
    if Invokes(s, act, x) {
      assert !Done(s, act.k);
      SortedAppends(xs, act.k);
      forall j: nat | j < act.k ensures Done(Step(s, act), j) {
        DoneStays(s, act, j);
      }
    }
  }

  /** Announced in commit order, the changes that a stream receives from any moment on are in commit order. */
  lemma {:induction false} InOrderRun(s: State, acts: seq<Action>, x: Stream) returns (xs: seq<nat>)
    requires OrderlyRun(s, acts)
    ensures Received(Run(Step, s, acts), x) == Received(s, x) + xs
    ensures Sorted(xs) && AllBeforeDone(Run(Step, s, acts), xs)
  {
    xs := [];
    if acts != [] {
      var init, last := acts[..|acts| - 1], acts[|acts| - 1];
      forall i | 0 <= i < |init| ensures Orderly(Run(Step, s, init[..i]), init[i]) {
        assert init[..i] == acts[..i];
      }
      xs := InOrderRun(s, init, x);
      var t := Run(Step, s, init);
      InOrderStep(t, last, x, xs);
      ReceivesBy(t, last, x);
      xs := xs + if Invokes(t, last, x) then [last.k] else [];
    }
  }

  /** The commits from `from` on that match the filter, oldest first. */
  function Due(calls: seq<Call>, from: nat, f: StreamFilter): seq<nat> {
    if |calls| <= from then []
    else
      var last := |calls| - 1;
      Due(calls[..last], from, f) + if f.Match(calls[last].change) then [last] else []
  }

  lemma {:induction false} DueSorted(calls: seq<Call>, from: nat, f: StreamFilter)
    ensures Sorted(Due(calls, from, f)) && forall k | k in Due(calls, from, f) :: k < |calls|
  {
    if |calls| > from {
      DueSorted(calls[..|calls| - 1], from, f);
      SortedAppends(Due(calls[..|calls| - 1], from, f), |calls| - 1);
    }
  }

  lemma {:induction false} DueOnce(calls: seq<Call>, from: nat, f: StreamFilter, k: nat)
    ensures Times(Due(calls, from, f), k) == if from <= k < |calls| && f.Match(calls[k].change) then 1 else 0
  {
    if |calls| > from {
      DueOnce(calls[..|calls| - 1], from, f, k);
    }
  }

  function Times(xs: seq<nat>, k: nat): nat {
    multiset(xs)[k]
  }

  lemma TimesOfHead(xs: seq<nat>, k: nat)
    requires xs != []
    ensures Times(xs, k) == Times(xs[1..], k) + if xs[0] == k then 1 else 0
  {
    assert xs == [xs[0]] + xs[1..];
  }

  lemma TimesOfSum(xs: seq<nat>, ys: seq<nat>, k: nat)
    ensures Times(xs + ys, k) == Times(xs, k) + Times(ys, k)
  {
  }

  lemma TimesPositive(xs: seq<nat>, k: nat)
    ensures Times(xs, k) > 0 <==> k in xs
  {
  }

  lemma SameHead(xs: seq<nat>, ys: seq<nat>)
    requires Sorted(xs) && Sorted(ys) && (forall k: nat :: Times(xs, k) == Times(ys, k)) && xs != []
    ensures ys != [] && xs[0] == ys[0]
  {
    TimesPositive(xs, xs[0]);
    TimesPositive(ys, xs[0]);
    TimesPositive(ys, ys[0]);
    TimesPositive(xs, ys[0]);
  }

  /** A sorted sequence is determined by how often it has each element. */
  lemma {:induction false} SortedOnce(xs: seq<nat>, ys: seq<nat>)
    requires Sorted(xs) && Sorted(ys) && forall k: nat :: Times(xs, k) == Times(ys, k)
    ensures xs == ys
  {
    if xs != [] {
      SameHead(xs, ys);
      forall k: nat ensures Times(xs[1..], k) == Times(ys[1..], k) {
        TimesOfHead(xs, k);
        TimesOfHead(ys, k);
      }
      SortedOnce(xs[1..], ys[1..]);
      assert xs == [xs[0]] + xs[1..] && ys == [ys[0]] + ys[1..];
    } else if ys != [] {
      SameHead(ys, xs);
    }
  }

  lemma {:induction false} DoneReceivesNoMore(s: State, acts: seq<Action>, x: Stream, k: nat)
    requires Done(s, k)
    ensures var t := Run(Step, s, acts); Done(t, k) && Delivered(t, x, k) == Delivered(s, x, k)
  {
    if acts != [] {
      var init, last := acts[..|acts| - 1], acts[|acts| - 1];
      DoneReceivesNoMore(s, init, x, k);
      DoneStays(Run(Step, s, init), last, k);
      ReceivesBy(Run(Step, s, init), last, x);
    }
  }

  /** The ordered claim.  Announced in commit order, and once everything committed is announced, a stream that has
      stayed subscribed has received exactly the matching changes committed meanwhile, once each and in order. */
  lemma HistoryInOrder(before: seq<Action>, later: seq<Action>, x: Stream)
    requires var s := Run(Step, START, before);
             Subscribed(s, x) && s.missed[x] == s.wiped[x] && forall k: nat | k < |s.calls| :: Done(s, k)
    requires OrderlyRun(Run(Step, START, before), later) && forall act | act in later :: Keeps(act, x)
    requires var t := Run(Step, Run(Step, START, before), later); forall k: nat | k < |t.calls| :: Done(t, k)
    ensures var s := Run(Step, START, before);
            var t := Run(Step, s, later);
            Received(t, x) == Received(s, x) + Due(t.calls, |s.calls|, x.filter)
  {
    var s := Run(Step, START, before);
    var t := Run(Step, s, later);
    var xs := InOrderRun(s, later, x);
    var due := Due(t.calls, |s.calls|, x.filter);
    RunsKeep(before);
    forall k: nat ensures Times(xs, k) == Times(due, k) {
      ReceivedIsDue(before, later, x, k);
      DueOnce(t.calls, |s.calls|, x.filter, k);
      TimesOfSum(Received(s, x), xs, k);
    }
    DueSorted(t.calls, |s.calls|, x.filter);
    SortedOnce(xs, due);
  }

  lemma ReceivedIsDue(before: seq<Action>, later: seq<Action>, x: Stream, k: nat)
    requires var s := Run(Step, START, before);
             Subscribed(s, x) && s.missed[x] == s.wiped[x] && forall j: nat | j < |s.calls| :: Done(s, j)
    requires forall act | act in later :: Keeps(act, x)
    requires var t := Run(Step, Run(Step, START, before), later); forall j: nat | j < |t.calls| :: Done(t, j)
    ensures var s := Run(Step, START, before);
            var t := Run(Step, s, later);
            Delivered(t, x, k) == Delivered(s, x, k)
              + if |s.calls| <= k < |t.calls| && x.filter.Match(t.calls[k].change) then 1 else 0
  {
    var s := Run(Step, START, before);
    var t := Run(Step, s, later);
    RunsKeep(before);
    RunsKeepFrom(s, later);
    assert CountedSoFar(s, k, x) && CountedSoFar(t, k, x);
    if k < |s.calls| {
      DoneReceivesNoMore(s, later, x, k);
    } else if k < |t.calls| {
      EachChangeExactly(before, later, k, x);
    }
  }

  /** A registered stream, before the call for commit `k` looks at the registry. */
  predicate Ready(s: State, k: nat, x: Stream) {
    k < |s.calls| && s.calls[k].snapshot.None? && s.calls[k].pos == 0 && !s.calls[k].loaded
    && s.registry == [x] && x in s.handlers && x.filter.Match(s.calls[k].change)
  }

  /** The call for commit `k` comes to the stream, which has its handler and matches. */
  lemma LoadAndInvoke(s: State, k: nat, x: Stream)
    requires Walking(s, k) && !s.calls[k].loaded && s.calls[k].snapshot.value[s.calls[k].pos] == x
    requires x in s.handlers && x.filter.Match(s.calls[k].change)
    ensures var t := Step(Step(s, Load(k)), Invoke(k));
            && Received(t, x) == Received(s, x) + [k] && t.registry == s.registry && t.handlers == s.handlers
            && t.calls == s.calls[k := s.calls[k].(pos := s.calls[k].pos + 1)]
  {
    var c := s.calls[k];
    assert Step(s, Load(k)) == s.(calls := s.calls[k := c.(loaded := true)]);
  }

  lemma AnnounceToOne(s: State, k: nat, x: Stream)
    requires Ready(s, k, x)
    ensures var t := Step(Step(Step(s, TakeSnapshot(k)), Load(k)), Invoke(k));
            && Received(t, x) == Received(s, x) + [k] && t.registry == s.registry && t.handlers == s.handlers
            && |t.calls| == |s.calls| && forall j | 0 <= j < |s.calls| && j != k :: t.calls[j] == s.calls[j]
  {
    LoadAndInvoke(Step(s, TakeSnapshot(k)), k, x);
  }

  /** A stream hears of a change that was committed before it subscribed, when it registers before the change is
      announced. */
  lemma OlderThanSubscription(x: Stream, change: Change)
    requires x.filter.Match(change)
    ensures Received(Run(Step, START, [Commit(change), SetHandler(x), Register(x)]
                                      + [TakeSnapshot(0), Load(0), Invoke(0)]), x) == [0]
  {
    RunSix(Step, START, [Commit(change), SetHandler(x), Register(x)], [TakeSnapshot(0), Load(0), Invoke(0)]);
    var s := Step(Step(Step(START, Commit(change)), SetHandler(x)), Register(x));
    AnnounceToOne(s, 0, x);
  }

  lemma TwoCommitted(x: Stream, first: Change, second: Change)
    requires x.filter.Match(first) && x.filter.Match(second)
    ensures var s := Step(Step(Step(Step(START, SetHandler(x)), Register(x)), Commit(first)), Commit(second));
            Ready(s, 0, x) && Ready(s, 1, x) && |s.calls| == 2 && Received(s, x) == []
  {
    assert Step(Step(START, SetHandler(x)), Register(x)).registry == [x];
  }

  lemma AnnounceBackwards(s: State, x: Stream)
    requires Ready(s, 0, x) && Ready(s, 1, x) && |s.calls| == 2 && Received(s, x) == []
    ensures Received(Step(Step(Step(Step(Step(Step(s, TakeSnapshot(1)), Load(1)), Invoke(1)),
                                    TakeSnapshot(0)), Load(0)), Invoke(0)), x) == [1, 0]
  {
    AnnounceToOne(s, 1, x);
    AnnounceToOne(Step(Step(Step(s, TakeSnapshot(1)), Load(1)), Invoke(1)), 0, x);
  }

  /** Two commits may be announced in the other order: the hypothesis of the ordered claim is needed. */
  lemma OutOfOrder(x: Stream, first: Change, second: Change)
    requires x.filter.Match(first) && x.filter.Match(second)
    ensures var up, both := [SetHandler(x), Register(x), Commit(first)], [Commit(second), TakeSnapshot(1), Load(1)];
            var rest := [Invoke(1), TakeSnapshot(0), Load(0)];
            Received(Run(Step, START, up + both + rest + [Invoke(0)]), x) == [1, 0]
  {
    var up, both := [SetHandler(x), Register(x), Commit(first)], [Commit(second), TakeSnapshot(1), Load(1)];
    var rest := [Invoke(1), TakeSnapshot(0), Load(0)];
    RunTen(Step, START, up, both, rest, Invoke(0));
    TwoCommitted(x, first, second);
    var s := Step(Step(Step(Step(START, SetHandler(x)), Register(x)), Commit(first)), Commit(second));
    AnnounceBackwards(s, x);
  }

  lemma OverlappingUnsubscribe(x: Stream)
    ensures Step(Step(Step(START, SetHandler(x)), ClearHandler(x)), Unregister(x))
         == START.(registering := multiset{x}, missed := multiset{x})
  {
    var s := Step(START, SetHandler(x));
    assert s == START.(handlers := {x}, registering := multiset{x});
    var t := Step(s, ClearHandler(x));
    assert t == START.(registering := multiset{x}, leaving := multiset{x});
  }

  lemma SubscribeAgain(s: State, x: Stream)
    requires s == START.(registering := multiset{x}, missed := multiset{x})
    ensures Step(Step(Step(s, Register(x)), SetHandler(x)), Register(x))
         == START.(registry := [x, x], handlers := {x}, missed := multiset{x})
  {
    var t := Step(s, Register(x));
    assert t == START.(registry := [x], missed := multiset{x});
    var u := Step(t, SetHandler(x));
    assert u == START.(registry := [x], handlers := {x}, registering := multiset{x}, missed := multiset{x});
  }

  lemma AnnounceToBoth(s: State, x: Stream, change: Change)
    requires s == START.(registry := [x, x], handlers := {x}, missed := multiset{x}) && x.filter.Match(change)
    ensures Received(Step(Step(Step(Step(Step(Step(s, Commit(change)), TakeSnapshot(0)), Load(0)), Invoke(0)), Load(0)),
                          Invoke(0)), x) == [0, 0]
  {
    var t := Step(Step(s, Commit(change)), TakeSnapshot(0));
    assert t.calls == [Call(change, Some([x, x]), 0, false, multiset{})];
    LoadAndInvoke(t, 0, x);
    LoadAndInvoke(Step(Step(t, Load(0)), Invoke(0)), 0, x);
  }

  /** An Unsubscribe that overlaps the stream's first Subscribe, a second Subscribe, and then one Put: the stream is
      called with it twice. */
  lemma DoubleDelivery(x: Stream, change: Change)
    requires x.filter.Match(change)
    ensures var before := [SetHandler(x), ClearHandler(x), Unregister(x)] + [Register(x), SetHandler(x), Register(x)];
            var later := [Commit(change), TakeSnapshot(0), Load(0)] + [Invoke(0), Load(0), Invoke(0)];
            Subscribed(Run(Step, START, before), x) && Received(Run(Step, Run(Step, START, before), later), x) == [0, 0]
  {
    var s := START.(registry := [x, x], handlers := {x}, missed := multiset{x});
    OverlappingUnsubscribe(x);
    SubscribeAgain(START.(registering := multiset{x}, missed := multiset{x}), x);
    RunSix(Step, START, [SetHandler(x), ClearHandler(x), Unregister(x)], [Register(x), SetHandler(x), Register(x)]);
    AnnounceToBoth(s, x, change);
    RunSix(Step, s, [Commit(change), TakeSnapshot(0), Load(0)], [Invoke(0), Load(0), Invoke(0)]);
  }
}
