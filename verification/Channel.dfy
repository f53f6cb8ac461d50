/** The channel of bus/channel.go: its copy-on-write handler list, its dispatch loop, and the Fire of
    bus/message_handler.go that waits for what a request causes on the channel. */
module Channels {
  import opened Options
  import opened RunOnce
  import opened Activities

  datatype FireResult = NothingToFire | FireCancelled | FireWaiting | Fired

  class Channel {
    var eventHandlers: seq<Handler>
    /** The run-once handlers whose atomic flag is set. */
    var fired: set<Handler>
    const activity: ChannelActivity

    constructor ()
      ensures eventHandlers == [] && fired == {} && fresh(activity) && activity.State() == IDLE && activity.Valid()
    {
      eventHandlers, fired := [], {};
      activity := new ChannelActivity();
    }

    /** Other dispatches claim run-once handlers at any time. */
    method OthersClaim()
      modifies this`fired
      ensures old(fired) <= fired && forall h | h in fired :: h in old(fired) || h.runOnce
    {
      var more: nat := *;
      while more > 0
        invariant old(fired) <= fired && forall h | h in fired :: h in old(fired) || h.runOnce
      {
        var id: nat := *;
        fired := fired + {Handler(id, true)};
        more := more - 1;
      }
    }

    /** Copies the list without the handlers with the given id and without the run-once handlers seen fired.  Every
        handler fired at the start is seen so, and every one seen so has fired by the end. */
    method Rebuild(id: Option<nat>) returns (next: seq<Handler>, found: bool, skipped: bool, ghost seen: set<Handler>)
      requires Ordered(eventHandlers)
      modifies this`fired
      ensures old(fired) <= fired && seen <= fired && forall h | h in seen :: h.runOnce
      ensures forall h | h in old(fired) && h in eventHandlers && h.runOnce && Some(h.id) != id :: h in seen
      ensures next == Without(eventHandlers, seen + Gone(eventHandlers, id))
      ensures found == HasId(eventHandlers, id)
      ensures skipped == (seen != {})
    {
      var current := eventHandlers;
      next, found, skipped, seen := [], false, false, {};
      var i := 0;
      while i < |current|
        invariant 0 <= i <= |current|
        invariant old(fired) <= fired && seen <= fired && skipped == (seen != {}) && forall h | h in seen :: h.runOnce
        invariant Copied(current, i, id, old(fired), next, found, seen)
      {
        OthersClaim();
        var h := current[i];
        if Some(h.id) == id {
          CopiesDropped(current, i, id, old(fired), next, found, seen);
          found := true;
        } else if h.runOnce && h in fired {
          CopiesSeen(current, i, id, old(fired), next, found, seen);
          seen := seen + {h};
          skipped := true;
        } else {
          CopiesKept(current, i, id, old(fired), next, found, seen);
          next := next + [h];
        }
        i := i + 1;
      }
      CopiedAll(current, id, old(fired), next, found, seen);
    }

    method SubscribeHandler(handler: Handler) returns (ghost seen: set<Handler>)
      requires Ordered(eventHandlers) && forall h | h in eventHandlers :: h.id < handler.id
      modifies this`eventHandlers, this`fired
      ensures Ordered(eventHandlers)
      ensures old(fired) <= fired && seen <= fired
      ensures eventHandlers == Without(old(eventHandlers), seen) + [handler]
    {
      var next, _, _, s := Rebuild(None);
      seen := s;
      assert seen + {} == seen;
      WithoutKeeps(eventHandlers, seen);
      assert forall i | 0 <= i < |next| :: next[i] in next;
      eventHandlers := next + [handler];
    }

    method UnsubscribeHandler(id: nat) returns (found: bool, ghost seen: set<Handler>)
      requires Ordered(eventHandlers)
      modifies this`eventHandlers, this`fired
      ensures Ordered(eventHandlers)
      ensures old(fired) <= fired && seen <= fired
      ensures eventHandlers == Without(old(eventHandlers), seen + WithId(old(eventHandlers), id))
      ensures found == exists h :: h in old(eventHandlers) && h.id == id
      ensures forall h | h in eventHandlers :: h.id != id
    {
      var next, f, _, s := Rebuild(Some(id));
      found, seen := f, s;
      WithoutKeeps(eventHandlers, seen + WithId(eventHandlers, id));
      eventHandlers := next;
    }

    method PruneFiredRunOnceHandlers() returns (ghost seen: set<Handler>)
      requires Ordered(eventHandlers)
      modifies this`eventHandlers, this`fired
      ensures Ordered(eventHandlers)
      ensures old(fired) <= fired && seen <= fired
      ensures eventHandlers == Without(old(eventHandlers), seen)
      ensures forall h | h in eventHandlers && h.runOnce :: h !in old(fired)
      ensures PrunedFrom(old(eventHandlers), eventHandlers, fired)
    {
      var next, _, removed, s := Rebuild(None);
      seen := s;
      assert seen + {} == seen;
      WithoutKeeps(eventHandlers, seen);
      if removed {
        eventHandlers := next;
      } else {
        WithoutNothing(eventHandlers);
      }
    }

    method RemoveEventHandler(index: nat)
      requires Ordered(eventHandlers)
      modifies this`eventHandlers
      ensures Ordered(eventHandlers)
      ensures eventHandlers == if index < |old(eventHandlers)|
                               then old(eventHandlers)[..index] + old(eventHandlers)[index + 1..]
                               else old(eventHandlers)
    {
      if index >= |eventHandlers| {
        return;
      }
      RemoveAtKeeps(eventHandlers, index);
      eventHandlers := eventHandlers[..index] + eventHandlers[index + 1..];
    }

    /** Dispatches to the handlers subscribed when it is called, unless cancelled on the way.  `batch` is what the
        dispatch goroutine will call, in order; `number` is its place in the activity tracker, absent when there is
        nothing to call.  `sender` is the dispatch whose handler makes the call, if any. */
    method DispatchContext(ctx: Context, ghost sender: Option<nat>) returns (batch: seq<Handler>, number: Option<nat>)
      requires Ordered(eventHandlers)
      requires activity.Valid() && (sender.Some? ==> sender.value in activity.outstanding)
      modifies this, ctx, activity
      ensures Ordered(eventHandlers) && activity.Valid() && old(fired) <= fired
      ensures forall h | h in batch :: h in old(eventHandlers)
      ensures forall h | h in batch && h.runOnce :: h !in old(fired) && h in fired
      ensures !ctx.cancelled ==> forall h | h in old(eventHandlers) && h !in batch :: h.runOnce && h in fired
      ensures old(ctx.cancelled) ==> ctx.cancelled && batch == []
      ensures Ordered(batch)
      ensures PrunedFrom(old(eventHandlers), eventHandlers, fired)
      ensures forall h | h in batch && h.runOnce :: h !in eventHandlers
      ensures number.Some? <==> batch != []
      ensures number == None ==> activity.State() == old(activity.State())
      ensures number.Some? ==> activity.State() == Activities.Step(old(activity.State()), Event.Begin(sender))
      ensures number.Some? ==> number.value == activity.next == old(activity.next) + 1
      ensures activity.waited == old(activity.waited)
    {
      number := None;
      var prune;
      batch, prune := ClaimBatch(ctx, eventHandlers);
      if prune {
        var _ := PruneFiredRunOnceHandlers();
      }
      if |batch| == 0 {
        return;
      }
      var n := activity.Begin(sender);
      number := Some(n);
    }

    /** The loop of the dispatch: it walks the list that was loaded, claims run-once handlers, and stops when the
        context is cancelled.  `prune` says that a run-once handler was met. */
    method ClaimBatch(ctx: Context, snapshot: seq<Handler>) returns (batch: seq<Handler>, prune: bool)
      requires Ordered(snapshot)
      modifies this`fired, ctx
      ensures old(fired) <= fired && Ordered(batch)
      ensures forall h | h in batch :: h in snapshot
      ensures forall h | h in batch && h.runOnce :: h !in old(fired) && h in fired && prune
      ensures !ctx.cancelled ==> forall h | h in snapshot && h !in batch :: h.runOnce && h in fired
      ensures old(ctx.cancelled) ==> ctx.cancelled && batch == []
    {
      batch, prune := [], false;
      var i := 0;
      while i < |snapshot|
        invariant 0 <= i <= |snapshot| && old(fired) <= fired
        invariant old(ctx.cancelled) ==> ctx.cancelled && batch == []
        invariant forall h | h in batch :: h in snapshot[..i]
        invariant forall h | h in batch && h.runOnce :: h !in old(fired) && h in fired && prune
        invariant forall h | h in snapshot[..i] && h !in batch :: h.runOnce && h in fired
        invariant Ordered(batch)
        modifies this`fired, ctx
      {
        OthersClaim();
        var done := ctx.Err();
        if done {
          break;
        }
        var h := snapshot[i];
        assert snapshot[..i + 1] == snapshot[..i] + [h];
        if h.runOnce {
          prune := true;
        }
        if !(h.runOnce && h in fired) {
          OrderedExtends(snapshot, i, batch);
          fired := if h.runOnce then fired + {h} else fired;
          batch := batch + [h];
        }
        i := i + 1;
      }
      assert i == |snapshot| ==> snapshot[..i] == snapshot;
    }

    /** Fires a request and waits.  When it reports success, the request was dispatched: to every handler subscribed,
        in order, but for run-once handlers that had fired; and its dispatch, and every dispatch that a handler of one
        of them sent on this channel, have ended, whatever other publishers were doing.  `batch` are the handlers that
        the request was dispatched to, and `root` is the number of that dispatch. */
    method FireContext(ctx: Context, hasRequest: bool, waits: nat)
      returns (r: FireResult, ghost root: Option<nat>, ghost batch: seq<Handler>)
      requires Ordered(eventHandlers) && activity.Valid()
      modifies this, ctx, activity
      ensures Ordered(eventHandlers) && activity.Valid()
      ensures r == NothingToFire <==> !hasRequest
      ensures old(ctx.cancelled) && hasRequest ==> r == FireCancelled && root == None
      ensures r == FireCancelled ==> ctx.cancelled
      ensures r == Fired ==> !ctx.cancelled
      ensures r == Fired ==> forall h | h in old(eventHandlers) && h !in batch :: h.runOnce && h in fired
      ensures Ordered(batch) && forall h | h in batch :: h in old(eventHandlers)
      ensures forall h | h in batch && h.runOnce :: h !in old(fired) && h in fired && h !in eventHandlers
      ensures PrunedFrom(old(eventHandlers), eventHandlers, fired)
      ensures root.Some? <==> batch != []
      ensures root.Some? ==> old(activity.next) < root.value <= activity.next
      ensures r == Fired && root.Some? ==> Over(activity.State(), root.value)
      ensures r == FireWaiting ==> activity.waited == old(activity.waited) + waits
    {
      root, batch := None, [];
      if !hasRequest {
        return NothingToFire, None, [];
      }
      var err := ctx.Err();
      if err {
        return FireCancelled, None, [];
      }
      ghost var s0 := activity.State();
      activity.Interfere();
      EvolvesGrows(s0, activity.State());
      var start := activity.Watermark();
      ghost var s1 := activity.State();
      activity.Interfere();
      EvolvesGrows(s1, activity.State());
      var b, number := DispatchContext(ctx, None);
      root, batch := number, b;
      ghost var s2 := activity.State();
      activity.Interfere();
      EvolvesGrows(s2, activity.State());
      ghost var s3 := activity.State();
      var w := activity.WaitQuiescentAfter(ctx, start, waits);
      EvolvesGrows(s3, activity.State());
      match w
      case Cancelled => r := FireCancelled;
      case StillWaiting => r := FireWaiting;
      case Quiescent =>
        r := Fired;
        if root.Some? {
          QuiescentIsOver(activity.State(), start, root.value);
        }
    }
  }

  /** A list lost nothing but run-once handlers that have fired. */
  ghost predicate PrunedFrom(before: seq<Handler>, after: seq<Handler>, fired: set<Handler>) {
    && (forall h | h in after :: h in before)
    && forall h | h in before && h !in after :: h.runOnce && h in fired
  }

  lemma WithoutNext(list: seq<Handler>, i: nat, drop: set<Handler>)
    requires i < |list|
    ensures Without(list[..i + 1], drop) == Without(list[..i], drop) + if list[i] in drop then [] else [list[i]]
  {
    assert list[..i + 1][..i] == list[..i];
  }

  /** What is dropped for its id. */
  function Gone(list: seq<Handler>, id: Option<nat>): set<Handler> {
    if id.Some? then WithId(list, id.value) else {}
  }

  ghost predicate HasId(list: seq<Handler>, id: Option<nat>) {
    exists h :: h in list && Some(h.id) == id
  }

  /** The first `i` handlers are copied, without those of the id and without those seen fired; run-once handlers that
      were in `fired` all are. */
  ghost predicate Copied(list: seq<Handler>, i: nat, id: Option<nat>, fired: set<Handler>,
                         next: seq<Handler>, found: bool, seen: set<Handler>) {
    && i <= |list| && next == Without(list[..i], seen + Gone(list, id)) && found == HasId(list[..i], id)
    && (forall g | g in seen :: g in list[..i])
    && forall h | h in list[..i] && h in fired && h.runOnce && Some(h.id) != id :: h in seen
  }

  lemma NextIsLast(list: seq<Handler>, i: nat, id: Option<nat>, seen: set<Handler>)
    requires i < |list|
    ensures forall h :: h in list[..i + 1] <==> h in list[..i] || h == list[i]
    ensures HasId(list[..i + 1], id) <==> HasId(list[..i], id) || Some(list[i].id) == id
    ensures Without(list[..i + 1], seen + Gone(list, id))
         == Without(list[..i], seen + Gone(list, id))
            + if list[i] in seen || Some(list[i].id) == id then [] else [list[i]]
  {
    assert list[..i + 1] == list[..i] + [list[i]];
    WithoutNext(list, i, seen + Gone(list, id));
  }

  /** The next handler is dropped for its id. */
  lemma CopiesDropped(list: seq<Handler>, i: nat, id: Option<nat>, fired: set<Handler>,
                      next: seq<Handler>, found: bool, seen: set<Handler>)
    requires i < |list| && Ordered(list) && Copied(list, i, id, fired, next, found, seen) && Some(list[i].id) == id
    ensures Copied(list, i + 1, id, fired, next, true, seen)
  {
    NextIsLast(list, i, id, seen);
  }

  /** The next handler is seen fired. */
  lemma CopiesSeen(list: seq<Handler>, i: nat, id: Option<nat>, fired: set<Handler>,
                   next: seq<Handler>, found: bool, seen: set<Handler>)
    requires i < |list| && Ordered(list) && Copied(list, i, id, fired, next, found, seen) && Some(list[i].id) != id
    ensures Copied(list, i + 1, id, fired, next, found, seen + {list[i]})
  {
    NextIsLast(list, i, id, seen);
    WithoutFired(list, i, seen, Gone(list, id));
  }

  /** The next handler is kept. */
  lemma CopiesKept(list: seq<Handler>, i: nat, id: Option<nat>, fired: set<Handler>,
                   next: seq<Handler>, found: bool, seen: set<Handler>)
    requires i < |list| && Ordered(list) && Copied(list, i, id, fired, next, found, seen) && Some(list[i].id) != id
    requires !(list[i].runOnce && list[i] in fired)
    ensures Copied(list, i + 1, id, fired, next + [list[i]], found, seen)
  {
    NextIsLast(list, i, id, seen);
    NotSeenYet(list, i, seen);
  }

  lemma CopiedAll(list: seq<Handler>, id: Option<nat>, fired: set<Handler>,
                  next: seq<Handler>, found: bool, seen: set<Handler>)
    requires Copied(list, |list|, id, fired, next, found, seen)
    ensures next == Without(list, seen + Gone(list, id)) && found == HasId(list, id)
    ensures forall h | h in fired && h in list && h.runOnce && Some(h.id) != id :: h in seen
  {
    assert list[..|list|] == list;
  }

  lemma NotSeenYet(list: seq<Handler>, i: nat, seen: set<Handler>)
    requires i < |list| && Ordered(list) && forall g | g in seen :: g in list[..i]
    ensures list[i] !in seen
  {
  }

  /** Dropping a handler that a list does not hold changes nothing. */
  lemma {:induction false} WithoutAbsent(list: seq<Handler>, drop: set<Handler>, h: Handler)
    requires h !in list
    ensures Without(list, drop + {h}) == Without(list, drop)
  {
    if list != [] {
      WithoutAbsent(list[..|list| - 1], drop, h);
      assert list[|list| - 1] in list;
    }
  }

  /** Skipping position `i` as fired is the same as having dropped it from the start. */
  lemma WithoutFired(list: seq<Handler>, i: nat, seen: set<Handler>, gone: set<Handler>)
    requires i < |list| && Ordered(list)
    ensures Without(list[..i + 1], seen + {list[i]} + gone) == Without(list[..i], seen + gone)
  {
    WithoutNext(list, i, seen + {list[i]} + gone);
    WithoutAbsent(list[..i], seen + gone, list[i]);
    assert seen + {list[i]} + gone == seen + gone + {list[i]};
  }

  lemma WithoutNothing(list: seq<Handler>)
    ensures Without(list, {}) == list
  {
  }
}
