/** What a change stream may still hear of, and so when its next change is sure to come in order: exact conditions on
    the announcements of store/store.go:541-560 that are under way. */
module StreamOutlook {
  import opened BusStores
  import opened Options
  import opened Runs
  import opened StreamDelivery
  import opened StreamOrder

  /** The announcement of commit `k` has the stream still before it: it matches, and the registry has not been copied,
      or the stream is in the part of the copy that is not walked. */
  predicate Awaits(s: State, k: nat, x: Stream) {
    k < |s.calls| && x.filter.Match(s.calls[k].change)
    && match s.calls[k].snapshot
       case None => true
       case Some(snapshot) => s.calls[k].pos <= |snapshot| && x in snapshot[s.calls[k].pos..]
  }

  /** Any step but a commit, an Unsubscribe of the stream and a Reset. */
  predicate Settles(act: Action, x: Stream) {
    Keeps(act, x) && !act.Commit?
  }

  ghost predicate Continues(s: State, t: State, x: Stream) {
    exists acts :: (forall act | act in acts :: Settles(act, x)) && Run(Step, s, acts) == t
  }

  lemma ContinuesHere(s: State, x: Stream)
    ensures Continues(s, s, x)
  {
    assert Run(Step, s, []) == s;
  }

  lemma ContinuesBy(s: State, t: State, x: Stream, act: Action) returns (u: State)
    requires Continues(s, t, x) && Settles(act, x)
    ensures u == Step(t, act) && Continues(s, u, x)
  {
    var acts :| (forall a | a in acts :: Settles(a, x)) && Run(Step, s, acts) == t;
    RunLast(Step, s, acts, act);
    u := Step(t, act);
    assert forall a | a in acts + [act] :: Settles(a, x);
  }

  /** Only an announcement that awaits the stream calls it, and none comes to await it. */
  lemma PastStaysPast(s: State, act: Action, k: nat, x: Stream)
    requires k < |s.calls| && Counted(s, k, x) && !Awaits(s, k, x)
    ensures k < |Step(s, act).calls| && !Awaits(Step(s, act), k, x) && !(Invokes(s, act, x) && act.k == k)
  {
  }

  lemma {:induction false} PastIsNotHeard(s: State, acts: seq<Action>, k: nat, x: Stream)
    requires Inv(s) && k < |s.calls| && !Awaits(s, k, x)
    ensures var t := Run(Step, s, acts);
            Inv(t) && k < |t.calls| && !Awaits(t, k, x) && Delivered(t, x, k) == Delivered(s, x, k)
  {
    if acts != [] {
      var init, last := acts[..|acts| - 1], acts[|acts| - 1];
      PastIsNotHeard(s, init, k, x);
      var t := Run(Step, s, init);
      assert CountedSoFar(t, k, x);
      PastStaysPast(t, last, k, x);
      ReceivesBy(t, last, x);
      StepKeeps(t, last);
    }
  }

  /** `u` is `t` with the announcement of `k` one stream further on; `x` has been called if it was that stream. */
  ghost predicate Passed(t: State, u: State, k: nat, x: Stream)
    requires Walking(t, k)
  {
    && Subscribed(u, x) && u.registry == t.registry && |u.calls| == |t.calls|
    && (forall j | 0 <= j < |t.calls| && j != k :: u.calls[j] == t.calls[j])
    && u.calls[k].(skipped := t.calls[k].skipped) == t.calls[k].(pos := t.calls[k].pos + 1, loaded := false)
    && Received(u, x) == Received(t, x) + if t.calls[k].snapshot.value[t.calls[k].pos] == x then [k] else []
  }

  lemma InvokePasses(t: State, k: nat, x: Stream)
    requires Subscribed(t, x) && Walking(t, k) && t.calls[k].loaded
    ensures Passed(t, Step(t, Invoke(k)), k, x)
  {
  }

  lemma LoadPasses(t: State, k: nat, x: Stream)
    requires Subscribed(t, x) && Walking(t, k) && !t.calls[k].loaded && x.filter.Match(t.calls[k].change)
    ensures var u := Step(t, Load(k));
            && Subscribed(u, x) && u.registry == t.registry && Received(u, x) == Received(t, x)
            && (if u.calls[k].loaded then Walking(u, k) && u.calls == t.calls[k := t.calls[k].(loaded := true)]
                else Passed(t, u, k, x))
  {
  }

  /** The call is taken to the next stream in its copy. */
  lemma PassOne(s: State, t: State, k: nat, x: Stream) returns (u: State)
    requires Continues(s, t, x) && Subscribed(t, x) && Walking(t, k) && x.filter.Match(t.calls[k].change)
    ensures Continues(s, u, x) && Passed(t, u, k, x)
  {
    if t.calls[k].loaded {
      InvokePasses(t, k, x);
      u := ContinuesBy(s, t, x, Invoke(k));
    } else {
      LoadPasses(t, k, x);
      u := ContinuesBy(s, t, x, Load(k));
      if u.calls[k].loaded {
        InvokePasses(u, k, x);
        u := ContinuesBy(s, u, x, Invoke(k));
      }
    }
  }

  lemma StillAwaits(t: State, u: State, k: nat, x: Stream)
    requires Awaits(t, k, x) && Walking(t, k) && Passed(t, u, k, x) && t.calls[k].snapshot.value[t.calls[k].pos] != x
    ensures Awaits(u, k, x)
  {
    var snapshot, pos := t.calls[k].snapshot.value, t.calls[k].pos;
    assert snapshot[pos..] == [snapshot[pos]] + snapshot[pos + 1..];
  }

  /** An announcement that awaits a subscribed stream may call it next, ahead of all others. */
  lemma {:induction false} WalkTo(s: State, t: State, k: nat, x: Stream) returns (u: State)
    requires Continues(s, t, x) && Subscribed(t, x) && Awaits(t, k, x) && t.calls[k].snapshot.Some?
    ensures Continues(s, u, x) && Subscribed(u, x) && u.registry == t.registry && |u.calls| == |t.calls|
    ensures forall j | 0 <= j < |t.calls| && j != k :: u.calls[j] == t.calls[j]
    ensures Received(u, x) == Received(t, x) + [k]
    decreases |t.calls[k].snapshot.value| - t.calls[k].pos
  {
    u := PassOne(s, t, k, x);
    if t.calls[k].snapshot.value[t.calls[k].pos] != x {
      StillAwaits(t, u, k, x);
      u := WalkTo(s, u, k, x);
    }
  }

  lemma HearsNext(s: State, t: State, k: nat, x: Stream) returns (u: State)
    requires Continues(s, t, x) && Subscribed(t, x) && x in t.registry && Awaits(t, k, x) && Counted(t, k, x)
    ensures Continues(s, u, x) && Subscribed(u, x) && u.registry == t.registry && |u.calls| == |t.calls|
    ensures forall j | 0 <= j < |t.calls| && j != k :: u.calls[j] == t.calls[j]
    ensures Received(u, x) == Received(t, x) + [k]
  {
    u := t;
    if t.calls[k].snapshot.None? {
      u := ContinuesBy(s, t, x, TakeSnapshot(k));
      assert t.registry[0..] == t.registry;
    }
    u := WalkTo(s, u, k, x);
  }

  /** A subscribed stream may still be called with a change committed earlier, before its subscription or after,
      precisely if the announcement of that change awaits it. */
  lemma MayStillHearExactly(s: State, k: nat, x: Stream)
    requires Inv(s) && Subscribed(s, x) && x in s.registry && k < |s.calls|
    ensures (exists t :: Continues(s, t, x) && Delivered(t, x, k) > Delivered(s, x, k)) <==> Awaits(s, k, x)
  {
    if Awaits(s, k, x) {
      ContinuesHere(s, x);
      assert CountedSoFar(s, k, x);
      var t := HearsNext(s, s, k, x);
      assert Delivered(t, x, k) == Delivered(s, x, k) + 1;
    } else {
      forall t | Continues(s, t, x) ensures Delivered(t, x, k) == Delivered(s, x, k) {
        var acts :| (forall act | act in acts :: Settles(act, x)) && Run(Step, s, acts) == t;
        PastIsNotHeard(s, acts, k, x);
      }
    }
  }

  /** All that is received after the first `n` is change `k`. */
  ghost predicate OnlyHears(s: State, x: Stream, n: nat, k: nat) {
    n <= |Received(s, x)| && forall i | n <= i < |Received(s, x)| :: Received(s, x)[i] == k
  }

  /** No announcement but that of commit `k` awaits the stream. */
  ghost predicate OnlyAwaits(s: State, x: Stream, k: nat) {
    |s.calls| == k + 1 && forall j: nat | j < k :: !Awaits(s, j, x)
  }

  lemma OnlyHearsStep(s: State, act: Action, x: Stream, n: nat, k: nat)
    requires Inv(s) && OnlyAwaits(s, x, k) && OnlyHears(s, x, n, k) && Settles(act, x)
    ensures OnlyAwaits(Step(s, act), x, k) && OnlyHears(Step(s, act), x, n, k)
  {
    forall j: nat | j < k ensures !Awaits(Step(s, act), j, x) && !(Invokes(s, act, x) && act.k == j) {
      assert CountedSoFar(s, j, x);
      PastStaysPast(s, act, j, x);
    }
    if act.Invoke? && act.k < k {
      assert CountedSoFar(s, act.k, x);
      PastStaysPast(s, act, act.k, x);
    }
    ReceivesBy(s, act, x);
  }

  lemma {:induction false} OthersArePast(s: State, acts: seq<Action>, x: Stream, n: nat, k: nat)
    requires Inv(s) && OnlyAwaits(s, x, k) && OnlyHears(s, x, n, k)
    requires forall act | act in acts :: Settles(act, x)
    ensures var t := Run(Step, s, acts); Inv(t) && OnlyAwaits(t, x, k) && OnlyHears(t, x, n, k)
  {
    if acts != [] {
      var init, last := acts[..|acts| - 1], acts[|acts| - 1];
      assert last in acts;
      OthersArePast(s, init, x, n, k);
      OnlyHearsStep(Run(Step, s, init), last, x, n, k);
      StepKeeps(Run(Step, s, init), last);
    }
  }

  ghost predicate InOrderSince(t: State, x: Stream, n: nat) {
    n <= |Received(t, x)| && Sorted(Received(t, x)[n..])
  }

  /** The exact condition on order, checked before the Put: until the next Put, a subscribed stream hears in commit
      order, however the announcements under way are scheduled, precisely if none of them awaits it. */
  lemma PutInOrderExactly(s: State, x: Stream, change: Change)
    requires Inv(s) && Subscribed(s, x) && x in s.registry && x.filter.Match(change)
    ensures (forall t | Continues(Step(s, Commit(change)), t, x) :: InOrderSince(t, x, |Received(s, x)|))
       <==> forall j: nat :: !Awaits(s, j, x)
  {
    if j: nat :| Awaits(s, j, x) {
      MayOvertake(s, x, change, j);
    } else {
      StaysInOrder(s, x, change);
    }
  }

  lemma CommitAwaits(s: State, x: Stream, change: Change)
    requires x.filter.Match(change) && Subscribed(s, x)
    ensures var t := Step(s, Commit(change));
            && |t.calls| == |s.calls| + 1 && Awaits(t, |s.calls|, x) && Subscribed(t, x) && t.registry == s.registry
            && Received(t, x) == Received(s, x)
            && forall j: nat | j < |s.calls| :: t.calls[j] == s.calls[j] && (Awaits(t, j, x) <==> Awaits(s, j, x))
  {
  }

  /** Of two announcements that await a stream either may be heard first. */
  lemma MayHearBoth(s: State, x: Stream, k: nat, j: nat) returns (u: State)
    requires Inv(s) && Subscribed(s, x) && x in s.registry && Awaits(s, k, x) && Awaits(s, j, x) && j != k
    ensures Continues(s, u, x) && Received(u, x) == Received(s, x) + [k] + [j]
  {
    ContinuesHere(s, x);
    assert CountedSoFar(s, k, x);
    var t := HearsNext(s, s, k, x);
    assert Awaits(t, j, x);
    var acts :| (forall act | act in acts :: Settles(act, x)) && Run(Step, s, acts) == t;
    RunsKeepFrom(s, acts);
    assert CountedSoFar(t, j, x);
    u := HearsNext(s, t, j, x);
  }

  lemma Backwards(t: State, x: Stream, earlier: seq<nat>, k: nat, j: nat)
    requires Received(t, x) == earlier + [k] + [j] && j < k
    ensures !InOrderSince(t, x, |earlier|)
  {
    var xs := Received(t, x)[|earlier|..];
    assert xs[0] == k && xs[1] == j;
  }

  lemma MayOvertake(s: State, x: Stream, change: Change, j: nat)
    requires Inv(s) && Subscribed(s, x) && x in s.registry && x.filter.Match(change) && Awaits(s, j, x)
    ensures exists t :: Continues(Step(s, Commit(change)), t, x) && !InOrderSince(t, x, |Received(s, x)|)
  {
    CommitAwaits(s, x, change);
    StepKeeps(s, Commit(change));
    var t := MayHearBoth(Step(s, Commit(change)), x, |s.calls|, j);
    Backwards(t, x, Received(s, x), |s.calls|, j);
  }

  lemma StaysInOrder(s: State, x: Stream, change: Change)
    requires Inv(s) && Subscribed(s, x) && x.filter.Match(change) && forall j: nat :: !Awaits(s, j, x)
    ensures forall t | Continues(Step(s, Commit(change)), t, x) :: InOrderSince(t, x, |Received(s, x)|)
  {
    var s' := Step(s, Commit(change));
    CommitAwaits(s, x, change);
    StepKeeps(s, Commit(change));
    forall t | Continues(s', t, x) ensures InOrderSince(t, x, |Received(s, x)|) {
      var acts :| (forall act | act in acts :: Settles(act, x)) && Run(Step, s', acts) == t;
      OthersArePast(s', acts, x, |Received(s, x)|, |s.calls|);
    }
  }
}
