/** What the requests of a client come to, store/store_sync_service.go: which snapshot each openStore reads and sends,
    and as of when the client's updates lead on from the content it was sent. */
module SyncRequests {
  import opened BusStores
  import opened Options
  import opened Runs
  import opened Replication
  import opened SyncSystem

  /** Puts and effective Removes change the primary by one key and one version; nothing a client does changes it. */
  lemma PrimaryFollows(s: System, act: Action)
    ensures var was := Primary(s);
            Primary(Step(s, act)) ==
            match act
            case Put(id, value, _) => Image(was.items[id := value], was.version + 1)
            case Remove(id, _) => if id in was.items then Image(was.items - {id}, was.version + 1) else was
            case Populate(content) => if was.items == map[] then Image(content, was.version) else was
            case Reset => Image(map[], 1)
            case _ => was
  {
  }

  lemma ReadTakesCurrent(s: System, c: ClientId)
    requires c in s.clients && s.clients[c].opens > 0
    ensures var r := Step(s, Read(c));
            && c in r.clients && r.log == s.log
            && r.clients[c] == s.clients[c].(opens := s.clients[c].opens - 1,
                                             taken := s.clients[c].taken + [|s.log|])
  {
  }

  lemma SendsLastTaken(r: System, c: ClientId, taken: seq<nat>)
    requires c in r.clients && r.clients[c].taken == taken + [|r.log|]
    ensures var t := Step(r, Send(c, |taken|));
            && c in t.clients && t.clients[c].opens == r.clients[c].opens && t.clients[c].taken == taken
            && t.clients[c].replica == r.clients[c].replica
            && t.clients[c].queue == r.clients[c].queue + [Content(Primary(r).items, Primary(r).version)]
  {
    assert r.log[..|r.log|] == r.log;
    var t := Step(r, Send(c, |taken|));
    assert t.clients[c].taken == taken;
  }

  /** The snapshot that answers an openStore is what the store holds when the callback runs.  Sent before anything
      else happens, it leads the client to exactly that, whatever is still in its queue. */
  lemma SnapshotIsCurrent(s: System, c: ClientId)
    requires c in s.clients && s.clients[c].opens > 0
    ensures var t := Step(Step(s, Read(c)), Send(c, |s.clients[c].taken|));
            && c in t.clients && t.clients[c].opens == s.clients[c].opens - 1
            && t.clients[c].taken == s.clients[c].taken
            && ReceiveAll(t.clients[c].replica, t.clients[c].queue) == Primary(s)
            && (s.clients[c].queue == [] ==> Step(t, Deliver(c)).clients[c].replica == Primary(s))
  {
    ReadTakesCurrent(s, c);
    SendsLastTaken(Step(s, Read(c)), c, s.clients[c].taken);
    RunLast(Receive, s.clients[c].replica, s.clients[c].queue, Content(Primary(s).items, Primary(s).version));
  }

  /** Delivering the next message takes it from the queue and loses nothing: the client is still led to the same. */
  lemma DeliveryLeadsOn(s: System, c: ClientId)
    requires c in s.clients && s.clients[c].queue != []
    ensures var t := Step(s, Deliver(c));
            && c in t.clients && t.clients[c].queue == s.clients[c].queue[1..]
            && ReceiveAll(t.clients[c].replica, t.clients[c].queue)
            == ReceiveAll(s.clients[c].replica, s.clients[c].queue)
  {
    var q := s.clients[c].queue;
    assert q == [q[0]] + q[1..];
    RunFirst(Receive, s.clients[c].replica, q[0], q[1..]);
  }

  /** How many openStore requests of a client have come, have read their snapshot, and have sent it. */
  datatype Tally = Tally(asked: nat, read: nat, sent: nat)

  /** One more action of a run in which the client is connected. */
  function Counted(t: Tally, act: Action, c: ClientId): (next: Tally)
    requires t.sent <= t.read <= t.asked
    ensures next.sent <= next.read <= next.asked
  {
    match act
    case Open(d) => if d == c then t.(asked := t.asked + 1) else t
    case Read(d) => if d == c && t.read < t.asked then t.(read := t.read + 1) else t
    case Send(d, i) => if d == c && i < t.read - t.sent then t.(sent := t.sent + 1) else t
    case _ => t
  }

  function Requests(acts: seq<Action>, c: ClientId): (t: Tally)
    ensures t.sent <= t.read <= t.asked
  {
    if acts == [] then Tally(0, 0, 0)
    else
      var init := acts[..|acts| - 1];
      if Connect(c) in init then Counted(Requests(init, c), acts[|acts| - 1], c) else Requests(init, c)
  }

  /** The `i`-th action reads a snapshot for an openStore request of `c` that is waiting for one, and finds `n` entries
      in the log. */
  ghost predicate ReadAt(acts: seq<Action>, c: ClientId, i: nat, n: nat) {
    && i < |acts| && acts[i] == Read(c) && Connect(c) in acts[..i]
    && Requests(acts[..i], c).read < Requests(acts[..i], c).asked
    && n == |Run(Step, START, acts[..i]).log|
  }

  ghost predicate IsARead(acts: seq<Action>, c: ClientId, n: nat) {
    exists i: nat :: ReadAt(acts, c, i, n)
  }

  lemma ReadStays(init: seq<Action>, act: Action, c: ClientId, n: nat)
    requires IsARead(init, c, n)
    ensures IsARead(init + [act], c, n)
  {
    var i: nat :| ReadAt(init, c, i, n);
    assert (init + [act])[..i] == init[..i];
    assert ReadAt(init + [act], c, i, n);
  }

  /** The client's requests and snapshots are as many as its tally says. */
  ghost predicate Tallied(s: System, c: ClientId, t: Tally) {
    if c !in s.clients then t == Tally(0, 0, 0)
    else
      && t.sent <= t.read <= t.asked
      && s.clients[c].opens == t.asked - t.read && |s.clients[c].taken| == t.read - t.sent
  }

  ghost predicate TakenInLog(s: System, c: ClientId) {
    c in s.clients ==> forall i | 0 <= i < |s.clients[c].taken| :: s.clients[c].taken[i] <= |s.log|
  }

  lemma TalliedStep(s: System, act: Action, c: ClientId, t: Tally)
    requires Tallied(s, c, t) && TakenInLog(s, c)
    ensures Tallied(Step(s, act), c, if c in s.clients then Counted(t, act, c) else t)
  {
  }

  lemma TakenByRead(s: System, act: Action, c: ClientId, n: nat)
    requires c in Step(s, act).clients && n in Step(s, act).clients[c].taken
    ensures (c in s.clients && n in s.clients[c].taken)
         || (act == Read(c) && c in s.clients && s.clients[c].opens > 0 && n == |s.log|)
    ensures |s.log| <= |Step(s, act).log|
  {
  }

  lemma TakenStaysInLog(s: System, act: Action, c: ClientId)
    requires TakenInLog(s, c)
    ensures TakenInLog(Step(s, act), c)
  {
    var t := Step(s, act);
    if c in t.clients {
      forall n | n in t.clients[c].taken ensures n <= |t.log| {
        TakenByRead(s, act, c, n);
      }
    }
  }

  lemma ConnectedStep(s: System, act: Action, c: ClientId)
    ensures c in Step(s, act).clients <==> c in s.clients || act == Connect(c)
  {
  }

  lemma {:induction false} ConnectedExactly(acts: seq<Action>, c: ClientId)
    ensures c in Run(Step, START, acts).clients <==> Connect(c) in acts
  {
    if acts != [] {
      var init, act := acts[..|acts| - 1], acts[|acts| - 1];
      ConnectedExactly(init, c);
      ConnectedStep(Run(Step, START, init), act, c);
      assert acts == init + [act];
    }
  }

  /** In every run, as many requests of a client wait for their snapshot, and as many snapshots wait to be sent, as its
      requests so far leave: each is read once and sent once. */
  lemma {:induction false} RequestsAreServed(acts: seq<Action>, c: ClientId)
    ensures Tallied(Run(Step, START, acts), c, Requests(acts, c)) && TakenInLog(Run(Step, START, acts), c)
  {
    if acts != [] {
      var init := acts[..|acts| - 1];
      RequestsAreServed(init, c);
      ConnectedExactly(init, c);
      TalliedStep(Run(Step, START, init), acts[|acts| - 1], c, Requests(init, c));
      TakenStaysInLog(Run(Step, START, init), acts[|acts| - 1], c);
    }
  }

  /** Every snapshot waiting to be sent was read in answer to a request. */
  lemma {:induction false} TakenAreReads(acts: seq<Action>, c: ClientId, n: nat)
    requires var s := Run(Step, START, acts); c in s.clients && n in s.clients[c].taken
    ensures IsARead(acts, c, n)
  {
    if acts != [] {
      var init, act := acts[..|acts| - 1], acts[|acts| - 1];
      assert acts == init + [act];
      var s := Run(Step, START, init);
      TakenByRead(s, act, c, n);
      if c in s.clients && n in s.clients[c].taken {
        TakenAreReads(init, c, n);
        ReadStays(init, act, c, n);
      } else {
        ConnectedExactly(init, c);
        RequestsAreServed(init, c);
        assert acts[..|init|] == init;
        assert ReadAt(acts, c, |init|, n);
      }
    }
  }

  /** The action sends a client that has the store open a snapshot, with the listener's stream registered and nothing
      silent among what is still to be announced. */
  ghost predicate Links(s: System, act: Action, c: ClientId) {
    && act.Send? && act.c == c && c in s.clients && act.i < |s.clients[c].taken|
    && s.clients[c].open && s.attached && OnlyChanges(s.log, s.notified, |s.log|)
  }

  /** The action closes the store for the client, changes the store silently, or sends it a snapshot without linking. */
  ghost predicate Cuts(s: System, act: Action, c: ClientId) {
    || act == Close(c) || act == Reset || (act.Populate? && Primary(s).items == map[])
    || (act.Send? && act.c == c && c in s.clients && act.i < |s.clients[c].taken| && !Links(s, act, c))
  }

  ghost function LinksAfter(c: ClientId): (seq<Action>, Action) -> bool {
    (acts, act) => Links(Run(Step, START, acts), act, c)
  }

  ghost function UncutAfter(c: ClientId): seq<Action> -> bool {
    (acts: seq<Action>) => acts != [] ==>
      !Cuts(Run(Step, START, acts[..|acts| - 1]), acts[|acts| - 1], c)
  }

  lemma LinkedStep(s: System, act: Action, c: ClientId)
    requires TakenInLog(s, c)
    ensures var t := Step(s, act);
            c in t.clients && t.clients[c].link.Some?
            <==> ((c in s.clients && s.clients[c].link.Some?) || Links(s, act, c)) && !Cuts(s, act, c)
  {
  }

  /** In every run a client is linked exactly if a snapshot was sent to it while it had the store open, with the
      listener registered and nothing silent pending, and since then it has not closed the store, the store has not
      been changed silently, and no snapshot was sent otherwise. */
  lemma {:induction false} LinkedExactly(acts: seq<Action>, c: ClientId)
    ensures var s := Run(Step, START, acts);
            c in s.clients && s.clients[c].link.Some?
            <==> exists i: nat :: HeldSince(LinksAfter(c), UncutAfter(c), acts, i)
  {
    if acts != [] {
      var init, act := acts[..|acts| - 1], acts[|acts| - 1];
      assert acts == init + [act];
      LinkedExactly(init, c);
      RequestsAreServed(init, c);
      LinkedStep(Run(Step, START, init), act, c);
      HeldSinceExtends(LinksAfter(c), UncutAfter(c), init, act);
    }
  }

  /** The `j`-th action links the client with a snapshot of `n` entries, when `a` of the log were announced. */
  ghost predicate LinkedAt(acts: seq<Action>, c: ClientId, j: nat, n: nat, a: nat) {
    && j < |acts|
    && var s := Run(Step, START, acts[..j]);
       && Links(s, acts[j], c) && s.clients[c].taken[acts[j].i] == n && s.notified == a && IsARead(acts[..j], c, n)
  }

  /** No later action links the client. */
  ghost predicate LinkedLast(acts: seq<Action>, c: ClientId, j: nat) {
    forall k | j < k < |acts| :: !Links(Run(Step, START, acts[..k]), acts[k], c)
  }

  lemma LinkedAtExtends(init: seq<Action>, act: Action, c: ClientId, j: nat, n: nat, a: nat)
    requires LinkedAt(init, c, j, n, a) && LinkedLast(init, c, j) && !Links(Run(Step, START, init), act, c)
    ensures LinkedAt(init + [act], c, j, n, a) && LinkedLast(init + [act], c, j)
  {
    var acts := init + [act];
    forall k | 0 <= k < |acts| ensures acts[..k] == init[..k] {}
    assert init[..|init|] == init;
  }

  lemma LinkFromSend(s: System, act: Action, c: ClientId)
    requires Links(s, act, c) && TakenInLog(s, c)
    ensures Step(s, act).clients[c].link == Some(Link(s.clients[c].taken[act.i], s.notified))
  {
  }

  lemma LinkMade(init: seq<Action>, act: Action, c: ClientId)
    requires Links(Run(Step, START, init), act, c)
    ensures var s := Run(Step, START, init);
            && LinkedAt(init + [act], c, |init|, s.clients[c].taken[act.i], s.notified)
            && Step(s, act).clients[c].link == Some(Link(s.clients[c].taken[act.i], s.notified))
  {
    assert (init + [act])[..|init|] == init;
    RequestsAreServed(init, c);
    var s := Run(Step, START, init);
    var n := s.clients[c].taken[act.i];
    assert n in s.clients[c].taken;
    TakenAreReads(init, c, n);
    LinkFromSend(s, act, c);
  }

  lemma LinkStays(s: System, act: Action, c: ClientId)
    requires c in Step(s, act).clients && Step(s, act).clients[c].link.Some? && !Links(s, act, c)
    ensures c in s.clients && s.clients[c].link == Step(s, act).clients[c].link
  {
  }

  /** What the link of a client says is so: the content it was sent last is a snapshot that was read in answer to one of
      its openStore requests, of the whole log as it was at that moment, and the updates announced since it was sent
      follow it. */
  lemma {:induction false} LinkIsARead(acts: seq<Action>, c: ClientId)
    requires var s := Run(Step, START, acts); c in s.clients && s.clients[c].link.Some?
    ensures var Link(n, a) := Run(Step, START, acts).clients[c].link.value;
            exists j: nat :: LinkedAt(acts, c, j, n, a) && LinkedLast(acts, c, j)
  {
    if acts != [] {
      var init, act := acts[..|acts| - 1], acts[|acts| - 1];
      assert acts == init + [act];
      if Links(Run(Step, START, init), act, c) {
        LinkMade(init, act, c);
        assert LinkedLast(acts, c, |init|);
      } else {
        LinkStays(Run(Step, START, init), act, c);
        LinkIsARead(init, c);
        var Link(n, a) := Run(Step, START, acts).clients[c].link.value;
        var j: nat :| LinkedAt(init, c, j, n, a) && LinkedLast(init, c, j);
        LinkedAtExtends(init, act, c, j, n, a);
      }
    }
  }

  /** The replication theorem in terms of what was done.  In every run, take a client that was sent a snapshot with the
      store open and the listener registered, and nothing cut it off since.  Once drained, it holds the primary's items
      exactly if, for the snapshot it was sent last, no key was last set to nil since, and nothing was lost between
      reading and sending it. */
  lemma ServedClientAgrees(acts: seq<Action>, c: ClientId)
    requires Drained(Run(Step, START, acts), c)
    requires exists i: nat :: HeldSince(LinksAfter(c), UncutAfter(c), acts, i)
    ensures var s := Run(Step, START, acts);
            exists j: nat, n: nat, a: nat ::
              LinkedAt(acts, c, j, n, a) && LinkedLast(acts, c, j) && n <= |s.log| && a <= |s.log|
              && (s.clients[c].replica.items == Primary(s).items
                  <==> !EndsInNilPut(s.log, a, |s.log|) && !LostInGap(s.log, n, a, |s.log|))
              && (a <= n ==> (s.clients[c].replica == Primary(s) <==> !EndsInNilPut(s.log, a, |s.log|)))
  {
    LinkedExactly(acts, c);
    LinkIsARead(acts, c);
    DrainedClientAgrees(acts, c);
  }

  ghost function OpensAfter(c: ClientId): (seq<Action>, Action) -> bool {
    (acts, act) => act == Open(c) && Connect(c) in acts
  }

  function NotClosedAfter(c: ClientId): seq<Action> -> bool {
    (acts: seq<Action>) => acts != [] ==> acts[|acts| - 1] != Close(c)
  }

  lemma OpenStep(s: System, act: Action, c: ClientId)
    ensures var t := Step(s, act);
            c in t.clients && t.clients[c].open
            <==> c in s.clients && (s.clients[c].open || act == Open(c)) && act != Close(c)
  {
  }

  /** A client has the store open exactly if it opened it, once connected, and has not closed it since. */
  lemma {:induction false} OpenExactly(acts: seq<Action>, c: ClientId)
    ensures var s := Run(Step, START, acts);
            c in s.clients && s.clients[c].open
            <==> exists i: nat :: HeldSince(OpensAfter(c), NotClosedAfter(c), acts, i)
  {
    if acts != [] {
      var init, act := acts[..|acts| - 1], acts[|acts| - 1];
      assert acts == init + [act];
      OpenExactly(init, c);
      ConnectedExactly(init, c);
      OpenStep(Run(Step, START, init), act, c);
      HeldSinceExtends(OpensAfter(c), NotClosedAfter(c), init, act);
    }
  }
}
