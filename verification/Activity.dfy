/** The activity tracker of bus/channel.go: dispatches are numbered when they begin, and Fire waits until none that
    began after it is outstanding.

    The ghost `cause` records, for every dispatch, the dispatch whose handler sent it.  A handler sends while its
    own dispatch is outstanding, and that is all the proof needs about senders. */
module Activities {
  import opened Options
  import opened Runs

  datatype Activity = Activity(next: nat, outstanding: set<nat>, cause: map<nat, Option<nat>>)

  const IDLE := Activity(0, {}, map[])

  datatype Event = Begin(cause: Option<nat>) | End(number: nat)

  function Step(s: Activity, e: Event): Activity {
    match e
    case Begin(cause) =>
      if cause.Some? && cause.value !in s.outstanding then s
      else Activity(s.next + 1, s.outstanding + {s.next + 1}, s.cause[s.next + 1 := cause])
    case End(q) => s.(outstanding := s.outstanding - {q})
  }

  /** Numbers run from 1 to `next`, and a dispatch is numbered after the one that caused it. */
  ghost predicate Inv(s: Activity) {
    && (forall q | q in s.outstanding :: q in s.cause)
    && (forall q :: q in s.cause <==> 1 <= q <= s.next)
    && (forall q | q in s.cause && s.cause[q].Some? :: 1 <= s.cause[q].value < q)
  }

  /** Dispatch `q` is `root`, or was sent, through any number of handlers, because of it. */
  ghost predicate CausedBy(s: Activity, root: nat, q: nat)
    decreases q
  {
    q == root || (q in s.cause && s.cause[q].Some? && s.cause[q].value < q && CausedBy(s, root, s.cause[q].value))
  }

  /** `root` and everything it caused have ended. */
  ghost predicate Over(s: Activity, root: nat) {
    root <= s.next && forall q: nat | CausedBy(s, root, q) :: q !in s.outstanding
  }

  lemma {:induction false} CausedIsLater(s: Activity, root: nat, q: nat)
    requires CausedBy(s, root, q)
    ensures root <= q
    decreases q
  {
    if q != root {
      CausedIsLater(s, root, s.cause[q].value);
    }
  }

  /** Quiescence after a watermark means that everything caused by a later dispatch is over. */
  lemma QuiescentIsOver(s: Activity, start: nat, root: nat)
    requires start < root <= s.next && forall q | q in s.outstanding :: q <= start
    ensures Over(s, root)
  {
    forall q: nat | CausedBy(s, root, q) ensures q !in s.outstanding {
      CausedIsLater(s, root, q);
    }
  }

  lemma {:induction false} CausesStay(s: Activity, e: Event, root: nat, q: nat)
    requires Inv(s) && q <= s.next
    ensures CausedBy(Step(s, e), root, q) <==> CausedBy(s, root, q)
    decreases q
  {
    if q in s.cause && s.cause[q].Some? {
      CausesStay(s, e, root, s.cause[q].value);
    }
  }

  lemma StepKeepsOver(s: Activity, e: Event, root: nat)
    requires Inv(s) && Over(s, root)
    ensures Inv(Step(s, e)) && Over(Step(s, e), root)
    ensures forall q: nat :: CausedBy(Step(s, e), root, q) <==> CausedBy(s, root, q)
  {
    var t := Step(s, e);
    forall q: nat ensures CausedBy(t, root, q) <==> CausedBy(s, root, q) {
      if q <= s.next {
        CausesStay(s, e, root, q);
      } else if q in t.cause && t.cause[q].Some? {
        CausesStay(s, e, root, t.cause[q].value);
      }
    }
  }

  /** Over for good: whatever other publishers and handlers do next, nothing that `root` caused is running, and it
      causes nothing more. */
  lemma {:induction false} OverForGood(s: Activity, events: seq<Event>, root: nat)
    requires Inv(s) && Over(s, root)
    ensures Inv(Run(Step, s, events)) && Over(Run(Step, s, events), root)
    ensures forall q: nat :: CausedBy(Run(Step, s, events), root, q) <==> CausedBy(s, root, q)
  {
    if events != [] {
      var init := events[..|events| - 1];
      OverForGood(s, init, root);
      StepKeepsOver(Run(Step, s, init), events[|events| - 1], root);
    }
  }

  /** The event begins a dispatch that gets the number `q`: one that no handler sent, or a handler whose own dispatch is
      outstanding. */
  ghost predicate BeginsAs(s: Activity, e: Event, q: nat) {
    e.Begin? && (e.cause.Some? ==> e.cause.value in s.outstanding) && q == s.next + 1
  }

  ghost function BeginsAfter(q: nat): (seq<Event>, Event) -> bool {
    (events, e) => BeginsAs(Run(Step, IDLE, events), e, q)
  }

  function NotEndedAfter(q: nat): seq<Event> -> bool {
    (events: seq<Event>) => events != [] ==> events[|events| - 1] != Event.End(q)
  }

  /** A number is outstanding exactly if a dispatch has begun with it and has not ended since. */
  lemma {:induction false} OutstandingExactly(events: seq<Event>, q: nat)
    ensures q in Run(Step, IDLE, events).outstanding
       <==> exists i: nat :: HeldSince(BeginsAfter(q), NotEndedAfter(q), events, i)
  {
    if events != [] {
      var init, e := events[..|events| - 1], events[|events| - 1];
      assert events == init + [e];
      OutstandingExactly(init, q);
      HeldSinceExtends(BeginsAfter(q), NotEndedAfter(q), init, e);
    }
  }

  /** What a dispatch was sent by is on record from then on. */
  lemma {:induction false} CauseIsRecorded(s: Activity, e: Event, later: seq<Event>, q: nat)
    requires BeginsAs(s, e, q)
    ensures var t := Run(Step, Step(s, e), later);
            q <= t.next && q in t.cause && t.cause[q] == e.cause
  {
    if later != [] {
      CauseIsRecorded(s, e, later[..|later| - 1], q);
    }
  }

  /** `t` can be reached from `s` by begin and end steps. */
  ghost predicate Evolves(s: Activity, t: Activity) {
    exists events :: t == Run(Step, s, events)
  }

  lemma EvolvesBy(s: Activity, t: Activity, events: seq<Event>)
    requires Evolves(s, t)
    ensures Evolves(s, Run(Step, t, events))
  {
    var before :| t == Run(Step, s, before);
    RunAppend(Step, s, before, events);
  }

  lemma EvolvesTrans(s: Activity, t: Activity, u: Activity)
    requires Evolves(s, t) && Evolves(t, u)
    ensures Evolves(s, u)
  {
    var events :| u == Run(Step, t, events);
    EvolvesBy(s, t, events);
  }

  lemma {:induction false} NextGrows(s: Activity, events: seq<Event>)
    ensures s.next <= Run(Step, s, events).next
  {
    if events != [] {
      NextGrows(s, events[..|events| - 1]);
    }
  }

  lemma EvolvesGrows(s: Activity, t: Activity)
    requires Evolves(s, t)
    ensures s.next <= t.next
  {
    var events :| t == Run(Step, s, events);
    NextGrows(s, events);
  }

  /** A context whose cancellation is final but may happen at any time. */
  class Context {
    var cancelled: bool

    constructor ()
    {
      cancelled := false;
    }

    method Err() returns (err: bool)
      modifies this
      ensures err == cancelled && (old(cancelled) ==> cancelled)
    {
      if * {
        cancelled := true;
      }
      err := cancelled;
    }
  }

  datatype WaitResult = Quiescent | Cancelled | StillWaiting

  class ChannelActivity {
    var next: nat
    var outstanding: set<nat>
    ghost var cause: map<nat, Option<nat>>
    /** How often a goroutine has waited for others. */
    ghost var waited: nat

    constructor ()
      ensures State() == IDLE && Valid()
    {
      next, outstanding, cause, waited := 0, {}, map[], 0;
    }

    ghost function State(): Activity
      reads this
    {
      Activity(next, outstanding, cause)
    }

    ghost predicate Valid()
      reads this
    {
      Inv(State())
    }

    method Watermark() returns (mark: nat)
      ensures mark == next
    {
      mark := next;
    }

    method Begin(ghost sender: Option<nat>) returns (number: nat)
      requires Valid() && (sender.Some? ==> sender.value in outstanding)
      modifies this`next, this`outstanding, this`cause
      ensures Valid() && State() == Step(old(State()), Event.Begin(sender))
      ensures number == next == old(next) + 1 && number in outstanding && number !in old(outstanding)
    {
      next := next + 1;
      number := next;
      outstanding := outstanding + {number};
      cause := cause[number := sender];
    }

    method End(number: nat)
      requires Valid()
      modifies this`outstanding
      ensures Valid() && State() == Step(old(State()), Event.End(number)) && number !in outstanding
    {
      outstanding := outstanding - {number};
    }

    /** What other goroutines may do while the lock is free. */
    method Interfere()
      requires Valid()
      modifies this`next, this`outstanding, this`cause
      ensures Valid() && Evolves(old(State()), State())
    {
      ghost var s := State();
      assert s == Run(Step, s, []);
      var steps: nat := *;
      while steps > 0
        invariant Valid() && Evolves(s, State())
      {
        ghost var t := State();
        if * {
          var number: nat := *;
          End(number);
          assert State() == Run(Step, t, [Event.End(number)]) by { RunLast(Step, t, [], Event.End(number)); }
          EvolvesBy(s, t, [Event.End(number)]);
        } else {
          ghost var sender: Option<nat> := None;
          if * {
            var q: nat := *;
            if q in outstanding {
              sender := Some(q);
            }
          }
          var _ := Begin(sender);
          assert State() == Run(Step, t, [Event.Begin(sender)]) by { RunLast(Step, t, [], Event.Begin(sender)); }
          EvolvesBy(s, t, [Event.Begin(sender)]);
        }
        steps := steps - 1;
      }
    }

    /** Waits for a broadcast, which may come at any time. */
    method Wait()
      requires Valid()
      modifies this
      ensures Valid() && Evolves(old(State()), State()) && waited == old(waited) + 1
    {
      Interfere();
      waited := waited + 1;
    }

    method HasOutstandingAfter(start: nat, target: nat) returns (busy: bool)
      ensures busy <==> exists q :: q in outstanding && start < q <= target
    {
      var left := outstanding;
      while left != {}
        invariant left <= outstanding
        invariant forall q | q in outstanding && q !in left :: !(start < q <= target)
      {
        var q :| q in left;
        if start < q <= target {
          return true;
        }
        left := left - {q};
      }
      return false;
    }

    /** Waits at most `waits` times.  When it reports quiescence nothing numbered after `start` is outstanding at
        that instant, however many dispatches began and ended during the waits. */
    method WaitQuiescentAfter(ctx: Context, start: nat, waits: nat) returns (r: WaitResult)
      requires Valid()
      modifies this, ctx
      ensures Valid() && Evolves(old(State()), State())
      ensures r == Quiescent ==> !ctx.cancelled && forall q | q in outstanding :: q <= start
      ensures r == Cancelled ==> ctx.cancelled
      ensures old(ctx.cancelled) ==> r == Cancelled
      ensures r == StillWaiting ==> waited == old(waited) + waits && exists q :: q in outstanding && start < q
      ensures waited <= old(waited) + waits
    {
      ghost var s := State();
      assert s == Run(Step, s, []);
      var left: nat := waits;
      var target := next;
      while true
        invariant Valid() && Evolves(s, State()) && target == next
        invariant left <= waits && waited == old(waited) + (waits - left)
        invariant old(ctx.cancelled) ==> ctx.cancelled && left == waits
        decreases left
      {
        ghost var leftBefore := left;
        var busy := HasOutstandingAfter(start, target);
        while busy
          invariant Valid() && Evolves(s, State()) && target <= next && left <= leftBefore
          invariant left <= waits && waited == old(waited) + (waits - left)
          invariant left == leftBefore ==> target == next
          invariant old(ctx.cancelled) ==> ctx.cancelled && left == leftBefore
          invariant busy <==> exists q :: q in outstanding && start < q <= target
          decreases left
        {
          var err := ctx.Err();
          if err {
            return Cancelled;
          }
          if left == 0 {
            return StillWaiting;
          }
          left := left - 1;
          ghost var t := State();
          Wait();
          EvolvesGrows(t, State());
          EvolvesTrans(s, t, State());
          busy := HasOutstandingAfter(start, target);
        }
        var err := ctx.Err();
        if err {
          return Cancelled;
        }
        if next == target {
          return Quiescent;
        }
        target := next;
      }
    }
  }
}
