/** The handler list of bus/channel.go under concurrency.

    The list is replaced, never changed, so a dispatch works on whatever list it loaded; a run-once handler is
    claimed by compare-and-swap while the dispatch walks that list.  Whoever builds a new list leaves out the
    run-once handlers it sees fired, and may see any of those fired by then. */
module RunOnce {
  import opened Runs

  /** A subscription; `id` counts subscriptions, so that its order is the subscription order. */
  datatype Handler = Handler(id: nat, runOnce: bool)

  /** A dispatch walks its snapshot; `batch` holds what it will deliver to. */
  datatype Dispatch = Dispatch(snapshot: seq<Handler>, pos: nat, batch: seq<Handler>, cancelled: bool)

  datatype Handlers = Handlers(
    subscribed: seq<Handler>,   // everything ever subscribed, in order
    list: seq<Handler>,         // the current list
    fired: set<Handler>,
    removed: set<Handler>,      // everything unsubscribed or removed by position
    dispatches: seq<Dispatch>)

  const NOHANDLERS := Handlers([], [], {}, {}, [])

  datatype Action =
    | Subscribe(runOnce: bool, seen: set<Handler>)
    | Unsubscribe(id: nat, seen: set<Handler>)
    | Prune(seen: set<Handler>)
    | RemoveAt(index: nat)
    | Start
    | Claim(d: nat)
    | Cancel(d: nat)

  function Without(list: seq<Handler>, drop: set<Handler>): seq<Handler> {
    if list == [] then []
    else
      var kept := Without(list[..|list| - 1], drop);
      var h := list[|list| - 1];
      if h in drop then kept else kept + [h]
  }

  function WithId(list: seq<Handler>, id: nat): set<Handler> {
    set h | h in list && h.id == id
  }

  function ClaimNext(s: Handlers, d: nat): Handlers
    requires d < |s.dispatches| && s.dispatches[d].pos < |s.dispatches[d].snapshot|
  {
    var p := s.dispatches[d];
    var h := p.snapshot[p.pos];
    if h.runOnce && h in s.fired then
      s.(dispatches := s.dispatches[d := p.(pos := p.pos + 1)])
    else
      s.(fired := if h.runOnce then s.fired + {h} else s.fired,
         dispatches := s.dispatches[d := p.(pos := p.pos + 1, batch := p.batch + [h])])
  }

  function Step(s: Handlers, act: Action): Handlers {
    match act
    case Subscribe(runOnce, seen) =>
      var h := Handler(|s.subscribed|, runOnce);
      if !(seen <= s.fired) then s
      else s.(subscribed := s.subscribed + [h], list := Without(s.list, seen) + [h])
    case Unsubscribe(id, seen) =>
      if !(seen <= s.fired) then s
      else s.(list := Without(s.list, seen + WithId(s.list, id)), removed := s.removed + WithId(s.list, id))
    case Prune(seen) =>
      if !(seen <= s.fired) then s else s.(list := Without(s.list, seen))
    case RemoveAt(index) =>
      if index >= |s.list| then s
      else s.(list := s.list[..index] + s.list[index + 1..], removed := s.removed + {s.list[index]})
    case Start =>
      s.(dispatches := s.dispatches + [Dispatch(s.list, 0, [], false)])
    case Claim(d) =>
      if d < |s.dispatches| && !s.dispatches[d].cancelled && s.dispatches[d].pos < |s.dispatches[d].snapshot|
      then ClaimNext(s, d) else s
    case Cancel(d) =>
      if d < |s.dispatches| then s.(dispatches := s.dispatches[d := s.dispatches[d].(cancelled := true)]) else s
  }

  /** In subscription order; in particular without repetition. */
  ghost predicate Ordered(list: seq<Handler>) {
    forall i, j | 0 <= i < j < |list| :: list[i].id < list[j].id
  }

  ghost predicate Among(list: seq<Handler>, all: seq<Handler>) {
    forall h | h in list :: h.id < |all| && all[h.id] == h
  }

  lemma {:induction false} WithoutHolds(list: seq<Handler>, drop: set<Handler>)
    ensures forall h :: h in Without(list, drop) <==> h in list && h !in drop
  {
    if list != [] {
      WithoutHolds(list[..|list| - 1], drop);
      assert list == list[..|list| - 1] + [list[|list| - 1]];
    }
  }

  lemma OrderedSnoc(list: seq<Handler>, h: Handler)
    requires Ordered(list) && forall g | g in list :: g.id < h.id
    ensures Ordered(list + [h])
  {
  }

  lemma {:induction false} WithoutOrdered(list: seq<Handler>, drop: set<Handler>)
    requires Ordered(list)
    ensures Ordered(Without(list, drop))
  {
    if list != [] {
      var init, last := list[..|list| - 1], list[|list| - 1];
      WithoutOrdered(init, drop);
      WithoutHolds(init, drop);
      OrderedSnoc(Without(init, drop), last);
    }
  }

  lemma WithoutKeeps(list: seq<Handler>, drop: set<Handler>)
    ensures forall h :: h in Without(list, drop) <==> h in list && h !in drop
    ensures Ordered(list) ==> Ordered(Without(list, drop))
  {
    WithoutHolds(list, drop);
    if Ordered(list) {
      WithoutOrdered(list, drop);
    }
  }

  /** The list holds, in subscription order, everything neither removed nor fired, and nothing removed. */
  ghost predicate ListExact(s: Handlers) {
    && (forall i | 0 <= i < |s.subscribed| :: s.subscribed[i].id == i)
    && Among(s.list, s.subscribed) && Ordered(s.list)
    && (forall h | h in s.list :: h !in s.removed)
    && (forall h | h in s.subscribed && h !in s.removed && h !in s.fired :: h in s.list)
    && (forall h | h in s.removed :: h in s.subscribed)
  }

  /** A dispatch has a batch in subscription order, taken from the part of its snapshot it has walked; what it
      passed over was a run-once handler that had fired. */
  ghost predicate WellWalked(s: Handlers, p: Dispatch) {
    && Ordered(p.snapshot) && Among(p.snapshot, s.subscribed)
    && p.pos <= |p.snapshot|
    && Ordered(p.batch) && (forall h | h in p.batch :: h in p.snapshot[..p.pos])
    && (forall h | h in p.snapshot[..p.pos] :: h in p.batch || (h.runOnce && h in s.fired))
  }

  /** The number of the one dispatch a fired handler went to. */
  ghost predicate InBatch(s: Handlers, d: nat, h: Handler) {
    d < |s.dispatches| && h in s.dispatches[d].batch
  }

  /** A run-once handler has fired exactly when it is in a batch, and it is in no two. */
  ghost predicate FiredExact(s: Handlers) {
    && (forall h | h in s.fired :: h.runOnce && exists d :: InBatch(s, d, h))
    && (forall d, h | InBatch(s, d, h) && h.runOnce :: h in s.fired)
    && (forall d, d', h | InBatch(s, d, h) && InBatch(s, d', h) && h.runOnce :: d == d')
  }

  ghost predicate Inv(s: Handlers) {
    && ListExact(s) && FiredExact(s)
    && forall d | 0 <= d < |s.dispatches| :: WellWalked(s, s.dispatches[d])
  }

  lemma OrderedExtends(snapshot: seq<Handler>, pos: nat, batch: seq<Handler>)
    requires pos < |snapshot| && Ordered(snapshot) && Ordered(batch)
    requires forall h | h in batch :: h in snapshot[..pos]
    ensures Ordered(batch + [snapshot[pos]])
  {
    forall i | 0 <= i < |batch| ensures batch[i].id < snapshot[pos].id {
      assert batch[i] in snapshot[..pos];
      var k :| 0 <= k < pos && snapshot[k] == batch[i];
    }
  }

  lemma ClaimWalks(s: Handlers, d: nat)
    requires Inv(s) && d < |s.dispatches| && s.dispatches[d].pos < |s.dispatches[d].snapshot|
    ensures WellWalked(ClaimNext(s, d), ClaimNext(s, d).dispatches[d])
  {
    var p := s.dispatches[d];
    assert WellWalked(s, p);
    assert p.snapshot[..p.pos + 1] == p.snapshot[..p.pos] + [p.snapshot[p.pos]];
    OrderedExtends(p.snapshot, p.pos, p.batch);
  }

  lemma ClaimFires(s: Handlers, d: nat)
    requires Inv(s) && d < |s.dispatches| && s.dispatches[d].pos < |s.dispatches[d].snapshot|
    ensures FiredExact(ClaimNext(s, d))
  {
    var t := ClaimNext(s, d);
    var h := s.dispatches[d].snapshot[s.dispatches[d].pos];
    var claimed := !(h.runOnce && h in s.fired);
    assert forall e, g :: InBatch(t, e, g) <==> InBatch(s, e, g) || (claimed && e == d && g == h);
    forall g | g in t.fired ensures g.runOnce && exists e :: InBatch(t, e, g) {
      if g in s.fired {
        var e :| InBatch(s, e, g);
        assert InBatch(t, e, g);
      } else {
        assert InBatch(t, d, g);
      }
    }
  }

  lemma ClaimKeeps(s: Handlers, d: nat)
    requires Inv(s) && d < |s.dispatches| && s.dispatches[d].pos < |s.dispatches[d].snapshot|
    ensures Inv(ClaimNext(s, d))
  {
    var t := ClaimNext(s, d);
    ClaimWalks(s, d);
    ClaimFires(s, d);
    forall e | 0 <= e < |t.dispatches| ensures WellWalked(t, t.dispatches[e]) {
      if e != d {
        assert WellWalked(s, s.dispatches[e]);
      }
    }
  }

  /** A new list that is exact is all it takes: nothing a dispatch has done depends on the current list. */
  lemma NewListKeeps(s: Handlers, list: seq<Handler>, removed: set<Handler>)
    requires Inv(s) && ListExact(s.(list := list, removed := removed))
    ensures Inv(s.(list := list, removed := removed))
  {
    var t := s.(list := list, removed := removed);
    assert forall e, g :: InBatch(t, e, g) <==> InBatch(s, e, g);
    forall e | 0 <= e < |t.dispatches| ensures WellWalked(t, t.dispatches[e]) {
      assert WellWalked(s, s.dispatches[e]);
    }
  }

  lemma DroppingKeeps(s: Handlers, seen: set<Handler>, gone: set<Handler>)
    requires Inv(s) && seen <= s.fired && (forall h | h in gone :: h in s.list)
    ensures Inv(s.(list := Without(s.list, seen + gone), removed := s.removed + gone))
  {
    WithoutKeeps(s.list, seen + gone);
    NewListKeeps(s, Without(s.list, seen + gone), s.removed + gone);
  }

  lemma ListStepKeeps(s: Handlers, act: Action)
    requires Inv(s) && (act.Unsubscribe? || act.Prune? || act.RemoveAt?)
    ensures Inv(Step(s, act))
  {
    match act
    case Unsubscribe(id, seen) => if seen <= s.fired { DroppingKeeps(s, seen, WithId(s.list, id)); }
    case Prune(seen) =>
      if seen <= s.fired {
        DroppingKeeps(s, seen, {});
        assert seen + {} == seen && s.removed + {} == s.removed;
      }
    case RemoveAt(index) =>
      if index < |s.list| {
        RemoveAtKeeps(s.list, index);
        NewListKeeps(s, s.list[..index] + s.list[index + 1..], s.removed + {s.list[index]});
      }
  }

  lemma RemoveAtKeeps(list: seq<Handler>, index: nat)
    requires index < |list| && Ordered(list)
    ensures var t := list[..index] + list[index + 1..];
            Ordered(t) && forall h :: h in t <==> h in list && h != list[index]
  {
  }

  lemma SubscribeKeeps(s: Handlers, runOnce: bool, seen: set<Handler>)
    requires Inv(s) && seen <= s.fired
    ensures Inv(Step(s, Subscribe(runOnce, seen)))
  {
    var t := Step(s, Subscribe(runOnce, seen));
    WithoutKeeps(s.list, seen);
    assert forall e, g :: InBatch(t, e, g) <==> InBatch(s, e, g);
    forall e | 0 <= e < |t.dispatches| ensures WellWalked(t, t.dispatches[e]) {
      assert WellWalked(s, s.dispatches[e]);
    }
    forall h | h in t.subscribed && h !in t.removed && h !in t.fired ensures h in t.list {
      if h in s.subscribed {
        assert h in s.list && h !in seen;
      }
    }
  }

  lemma StartKeeps(s: Handlers)
    requires Inv(s)
    ensures Inv(Step(s, Start))
  {
    var t := Step(s, Start);
    assert forall e, g :: InBatch(t, e, g) <==> InBatch(s, e, g);
    forall e | 0 <= e < |t.dispatches| ensures WellWalked(t, t.dispatches[e]) {
      if e < |s.dispatches| {
        assert WellWalked(s, s.dispatches[e]);
      }
    }
  }

  lemma CancelKeeps(s: Handlers, d: nat)
    requires Inv(s) && d < |s.dispatches|
    ensures Inv(Step(s, Cancel(d)))
  {
    var t := Step(s, Cancel(d));
    assert forall e, g :: InBatch(t, e, g) <==> InBatch(s, e, g);
    forall e | 0 <= e < |t.dispatches| ensures WellWalked(t, t.dispatches[e]) {
      assert WellWalked(s, s.dispatches[e]);
    }
  }

  lemma StepKeeps(s: Handlers, act: Action)
    requires Inv(s)
    ensures Inv(Step(s, act))
  {
    match act
    case Subscribe(runOnce, seen) => if seen <= s.fired { SubscribeKeeps(s, runOnce, seen); }
    case Claim(d) => if Step(s, act) != s { ClaimKeeps(s, d); }
    case Start => StartKeeps(s);
    case Cancel(d) => if d < |s.dispatches| { CancelKeeps(s, d); }
    case _ => ListStepKeeps(s, act);
  }

  lemma RunsKeep(acts: seq<Action>)
    ensures Inv(Run(Step, NOHANDLERS, acts))
  {
    forall s, act | Inv(s) ensures Inv(Step(s, act)) {
      StepKeeps(s, act);
    }
    RunKeeps(Step, Inv, NOHANDLERS, acts);
  }

  /** In every interleaving of subscriptions, removals, prunes and dispatches a run-once handler is in exactly one
      batch if it has fired, and in none otherwise. */
  lemma FiredOnce(acts: seq<Action>)
    ensures FiredExact(Run(Step, NOHANDLERS, acts))
  {
    RunsKeep(acts);
  }

  /** In every interleaving the list is in subscription order, with everything neither removed nor fired and nothing
      removed. */
  lemma ListAlwaysExact(acts: seq<Action>)
    ensures ListExact(Run(Step, NOHANDLERS, acts))
  {
    RunsKeep(acts);
  }

  /** Subscribing puts a new handler at the end; unsubscribing leaves none of the id; pruning none of those seen fired;
      and removing by position takes that handler out.  Nothing else leaves the list but run-once handlers seen
      fired. */
  lemma ListStepDoes(s: Handlers, act: Action)
    requires Inv(s)
    ensures var t := Step(s, act);
            match act
            case Subscribe(runOnce, seen) =>
              seen <= s.fired ==>
                && t.subscribed == s.subscribed + [Handler(|s.subscribed|, runOnce)]
                && Handler(|s.subscribed|, runOnce) in t.list
                && forall h | h in s.list :: h in t.list || h in seen
            case Unsubscribe(id, seen) =>
              seen <= s.fired ==>
                && (forall h | h in t.list :: h.id != id)
                && forall h | h in s.list :: h in t.list || h in seen || h.id == id
            case Prune(seen) =>
              seen <= s.fired ==> forall h :: h in t.list <==> h in s.list && h !in seen
            case RemoveAt(index) =>
              forall h :: h in t.list <==> h in s.list && !(index < |s.list| && h == s.list[index])
            case _ => t.list == s.list && t.subscribed == s.subscribed
  {
    match act
    case Subscribe(_, seen) => WithoutKeeps(s.list, seen);
    case Unsubscribe(id, seen) => WithoutKeeps(s.list, seen + WithId(s.list, id));
    case Prune(seen) => WithoutKeeps(s.list, seen);
    case RemoveAt(index) => if index < |s.list| { RemoveAtKeeps(s.list, index); }
    case _ =>
  }

  /** A claim takes its dispatch one handler on: into the batch, unless it is a run-once handler that has fired. */
  lemma ClaimAdvances(s: Handlers, d: nat)
    requires d < |s.dispatches| && !s.dispatches[d].cancelled && s.dispatches[d].pos < |s.dispatches[d].snapshot|
    ensures var t := Step(s, Claim(d));
            var h := s.dispatches[d].snapshot[s.dispatches[d].pos];
            && |t.dispatches| == |s.dispatches| && t.dispatches[d].snapshot == s.dispatches[d].snapshot
            && t.dispatches[d].pos == s.dispatches[d].pos + 1 && !t.dispatches[d].cancelled
            && (h in t.dispatches[d].batch <==> h in s.dispatches[d].batch || !(h.runOnce && h in s.fired))
            && (h.runOnce ==> h in t.fired)
  {
  }

  lemma SnapshotStays(s: Handlers, act: Action, d: nat)
    requires d < |s.dispatches|
    ensures d < |Step(s, act).dispatches| && Step(s, act).dispatches[d].snapshot == s.dispatches[d].snapshot
  {
  }

  lemma {:induction false} SnapshotIsListAtStart(acts: seq<Action>, i: nat)
    requires i < |acts| && acts[i] == Start
    ensures var s, t := Run(Step, NOHANDLERS, acts[..i]), Run(Step, NOHANDLERS, acts);
            |s.dispatches| < |t.dispatches| && t.dispatches[|s.dispatches|].snapshot == s.list
  {
    var init := acts[..|acts| - 1];
    if i < |init| {
      assert init[..i] == acts[..i];
      SnapshotIsListAtStart(init, i);
      SnapshotStays(Run(Step, NOHANDLERS, init), acts[|acts| - 1], |Run(Step, NOHANDLERS, acts[..i]).dispatches|);
    }
  }

  /** A dispatch that walked its whole snapshot has, in subscription order, everything that was on the list when it
      started but run-once handlers that had fired; and, however far it came, nothing else. */
  lemma BatchIsComplete(acts: seq<Action>, i: nat)
    requires i < |acts| && acts[i] == Start
    ensures var s, t := Run(Step, NOHANDLERS, acts[..i]), Run(Step, NOHANDLERS, acts);
            && |s.dispatches| < |t.dispatches|
            && var p := t.dispatches[|s.dispatches|];
               && Ordered(p.batch) && (forall h | h in p.batch :: h in s.list)
               && (p.pos == |p.snapshot| ==> forall h | h in s.list && h !in p.batch :: h.runOnce && h in t.fired)
  {
    RunsKeep(acts);
    SnapshotIsListAtStart(acts, i);
    var p := Run(Step, NOHANDLERS, acts).dispatches[|Run(Step, NOHANDLERS, acts[..i]).dispatches|];
    assert WellWalked(Run(Step, NOHANDLERS, acts), p);
    assert p.snapshot[..|p.snapshot|] == p.snapshot;
  }
}
