/** The whole replication path as one machine: a primary store, the listener that forwards its changes, and the
    replicas of any number of clients, each behind a queue that keeps its messages in order.

    The separate steps are the ones the code does not make atomic: a change is committed before it is announced,
    and openStore reads a snapshot before it sends it.  A step whose guard is false does nothing, so that every
    sequence of actions is a run. */
module SyncSystem {
  import opened BusStores
  import opened Options
  import opened Runs
  import opened Replication

  type ClientId = string

  /** The content most recently sent to a client whose updates are being forwarded: the log position it was read
      at, and how far the announcements had come when it was sent. */
  datatype Link = Link(readAt: nat, sentAt: nat)

  datatype Client = Client(
    open: bool,             // registered with the store's listener
    opens: nat,             // openStore requests whose WhenReady callback has not run
    taken: seq<nat>,        // snapshots read and not yet sent, as log positions
    queue: seq<Message>,
    replica: Image,
    link: Option<Link>)

  datatype System = System(
    log: seq<Entry>,
    notified: nat,          // how much of the log has been announced to the streams
    attached: bool,         // whether the listener's stream is in the store's registry
    clients: map<ClientId, Client>)

  datatype Action =
    | Put(id: Id, value: Value, state: int)
    | Remove(id: Id, state: int)
    | Populate(content: map<Id, Value>)
    | Reset
    | Notify
    | Connect(c: ClientId)
    | Open(c: ClientId)
    | Close(c: ClientId)
    | Read(c: ClientId)
    | Send(c: ClientId, i: nat)
    | Deliver(c: ClientId)

  const NEWCLIENT := Client(false, 0, [], [], FRESH, None)
  const START := System([], 0, false, map[])

  function Primary(s: System): Image {
    Replay(s.log)
  }

  ghost predicate NoneOpen(clients: map<ClientId, Client>) {
    forall c | c in clients :: !clients[c].open
  }

  function Unlinked(clients: map<ClientId, Client>): map<ClientId, Client> {
    map c | c in clients :: clients[c].(link := None)
  }

  function Announced(clients: map<ClientId, Client>, m: Message): map<ClientId, Client> {
    map c | c in clients :: if clients[c].open then clients[c].(queue := clients[c].queue + [m]) else clients[c]
  }

  ghost function Step(s: System, act: Action): System {
    match act
    case Put(id, value, state) =>
      s.(log := s.log + [Changed(Change(id, value, state, false, Primary(s).version + 1))])
    case Remove(id, state) =>
      if id !in Primary(s).items then s
      else s.(log := s.log + [Changed(Change(id, Primary(s).items[id], state, true, Primary(s).version + 1))])
    case Populate(content) =>
      if Primary(s).items != map[] then s
      else s.(log := s.log + [Populated(content)],
              notified := if s.notified == |s.log| then |s.log| + 1 else s.notified,
              clients := Unlinked(s.clients))
    case Reset =>
      s.(log := s.log + [WasReset],
         notified := if s.notified == |s.log| then |s.log| + 1 else s.notified,
         attached := false,
         clients := Unlinked(s.clients))
    case Notify =>
      if s.notified >= |s.log| then s
      else
        var e := s.log[s.notified];
        s.(notified := s.notified + 1,
           clients := if e.Changed? && s.attached then Announced(s.clients, Forward(e.change)) else s.clients)
    case Connect(c) =>
      if c in s.clients then s else s.(clients := s.clients[c := NEWCLIENT])
    case Open(c) =>
      if c !in s.clients then s
      else s.(attached := s.attached || NoneOpen(s.clients),
              clients := s.clients[c := s.clients[c].(open := true, opens := s.clients[c].opens + 1)])
    case Close(c) =>
      if c !in s.clients then s
      else
        var clients := s.clients[c := s.clients[c].(open := false, link := None)];
        s.(attached := s.attached && !NoneOpen(clients), clients := clients)
    case Read(c) =>
      if c !in s.clients || s.clients[c].opens == 0 then s
      else s.(clients := s.clients[c := s.clients[c].(opens := s.clients[c].opens - 1,
                                                     taken := s.clients[c].taken + [|s.log|])])
    case Send(c, i) =>
      if c !in s.clients || i >= |s.clients[c].taken| || s.clients[c].taken[i] > |s.log| then s
      else
        var cl := s.clients[c];
        var n := cl.taken[i];
        var snapshot := Replay(s.log[..n]);
        var linked := cl.open && s.attached && OnlyChanges(s.log, s.notified, |s.log|);
        s.(clients := s.clients[c := cl.(
          taken := cl.taken[..i] + cl.taken[i + 1..],
          queue := cl.queue + [Content(snapshot.items, snapshot.version)],
          link := if linked then Some(Link(n, s.notified)) else None)])
    case Deliver(c) =>
      if c !in s.clients || s.clients[c].queue == [] then s
      else
        var cl := s.clients[c];
        s.(clients := s.clients[c := cl.(replica := Receive(cl.replica, cl.queue[0]), queue := cl.queue[1..])])
  }

  /** The messages still under way would bring the client to what its last content and the updates after it say. */
  ghost predicate Linked(s: System, cl: Client)
    requires s.notified <= |s.log|
  {
    cl.link.Some? ==>
      var Link(n, a) := cl.link.value;
      && cl.open && s.attached
      && n <= |s.log| && a <= s.notified
      && OnlyChanges(s.log, a, |s.log|)
      && ReceiveAll(cl.replica, cl.queue) == Replica(s.log, n, a, s.notified)
  }

  ghost predicate Inv(s: System) {
    && Committed(s.log)
    && s.notified <= |s.log|
    && forall c | c in s.clients :: Linked(s, s.clients[c])
  }

  lemma {:induction false} ForwardedStable(log: seq<Entry>, e: Entry, a: nat, m: nat)
    requires a <= m <= |log|
    ensures Forwarded(log + [e], a, m) == Forwarded(log, a, m)
    decreases m
  {
    if a < m {
      ForwardedStable(log, e, a, m - 1);
    }
  }

  lemma ReplicaStable(log: seq<Entry>, e: Entry, n: nat, a: nat, m: nat)
    requires n <= |log| && a <= m <= |log|
    ensures Replica(log + [e], n, a, m) == Replica(log, n, a, m)
  {
    ForwardedStable(log, e, a, m);
    assert (log + [e])[..n] == log[..n];
  }

  lemma CommitKeeps(s: System, e: Entry)
    requires Inv(s) && e.Changed? && Lawful(Primary(s), e)
    ensures Inv(s.(log := s.log + [e]))
  {
    CommitExtends(s.log, e);
    var t := s.(log := s.log + [e]);
    forall c | c in t.clients ensures Linked(t, t.clients[c]) {
      assert Linked(s, s.clients[c]);
      if s.clients[c].link.Some? {
        var Link(n, a) := s.clients[c].link.value;
        ReplicaStable(s.log, e, n, a, s.notified);
      }
    }
  }

  lemma NotifyKeeps(s: System)
    requires Inv(s)
    ensures Inv(Step(s, Notify))
  {
    var t := Step(s, Notify);
    forall c | c in t.clients ensures Linked(t, t.clients[c]) {
      var cl := s.clients[c];
      assert Linked(s, cl);
      if s.notified < |s.log| && cl.link.Some? {
        var Link(n, a) := cl.link.value;
        var e := s.log[s.notified];
        assert e.Changed?;
        RunLast(Receive, cl.replica, cl.queue, Forward(e.change));
        RunLast(Receive, Replay(s.log[..n]), Forwarded(s.log, a, s.notified), Forward(e.change));
      }
    }
  }

  lemma SendKeeps(s: System, c: ClientId, i: nat)
    requires Inv(s)
    ensures Inv(Step(s, Send(c, i)))
  {
  }

  lemma SilentKeeps(s: System, act: Action)
    requires Inv(s) && (act.Populate? || act.Reset?)
    ensures Inv(Step(s, act))
  {
    if act.Reset? {
      CommitExtends(s.log, WasReset);
    } else if Lawful(Primary(s), Populated(act.content)) {
      CommitExtends(s.log, Populated(act.content));
    }
  }

  lemma DeliverKeeps(s: System, c: ClientId)
    requires Inv(s)
    ensures Inv(Step(s, Deliver(c)))
  {
    if c in s.clients && s.clients[c].queue != [] {
      assert Linked(s, s.clients[c]);
      var q := s.clients[c].queue;
      assert q == [q[0]] + q[1..];
      RunFirst(Receive, s.clients[c].replica, q[0], q[1..]);
    }
  }

  /** Opening and closing leave every other client's link alone. */
  lemma MembershipKeeps(s: System, act: Action)
    requires Inv(s) && (act.Connect? || act.Open? || act.Close? || act.Read?)
    ensures Inv(Step(s, act))
  {
  }

  lemma StepKeeps(s: System, act: Action)
    requires Inv(s)
    ensures Inv(Step(s, act))
  {
    match act
    case Put(id, value, state) =>
      CommitKeeps(s, Changed(Change(id, value, state, false, Primary(s).version + 1)));
    case Remove(id, state) =>
      if id in Primary(s).items {
        CommitKeeps(s, Changed(Change(id, Primary(s).items[id], state, true, Primary(s).version + 1)));
      }
    case Populate(_) => SilentKeeps(s, act);
    case Reset => SilentKeeps(s, act);
    case Notify => NotifyKeeps(s);
    case Send(c, i) => SendKeeps(s, c, i);
    case Deliver(c) => DeliverKeeps(s, c);
    case _ => MembershipKeeps(s, act);
  }

  lemma RunsKeep(acts: seq<Action>)
    ensures Inv(Run(Step, START, acts))
  {
    forall s, act | Inv(s) ensures Inv(Step(s, act)) {
      StepKeeps(s, act);
    }
    RunKeeps(Step, Inv, START, acts);
  }

  /** Nothing is left to announce, to send from the queue or to apply. */
  predicate Drained(s: System, c: ClientId) {
    c in s.clients && s.clients[c].queue == [] && s.notified == |s.log|
  }

  /** The replication theorem.  In every run, once a linked client is drained it holds the primary's items exactly
      when no key was last set to nil since its content was sent, and nothing was lost between reading and sending the
      content: no key was left different by changes announced in that gap and not changed again since.  A content that
      was sent before anything newer than it was announced has no gap, and then the versions agree as well. */
  lemma DrainedClientAgrees(acts: seq<Action>, c: ClientId)
    requires Drained(Run(Step, START, acts), c) && Run(Step, START, acts).clients[c].link.Some?
    ensures var s := Run(Step, START, acts);
            var Link(n, a) := s.clients[c].link.value;
            && n <= |s.log| && a <= |s.log|
            && (s.clients[c].replica.items == Primary(s).items
                <==> !EndsInNilPut(s.log, a, |s.log|) && !LostInGap(s.log, n, a, |s.log|))
            && (a <= n || a < |s.log| ==> s.clients[c].replica.version == Primary(s).version)
            && (a <= n ==> (s.clients[c].replica == Primary(s) <==> !EndsInNilPut(s.log, a, |s.log|)))
  {
    RunsKeep(acts);
    var s := Run(Step, START, acts);
    assert Linked(s, s.clients[c]);
    var Link(n, a) := s.clients[c].link.value;
    assert s.log[..|s.log|] == s.log;
    ItemsAgree(s.log, n, a, |s.log|);
    if a <= n {
      OverlappingCatchUp(s.log, a, n, |s.log|);
    } else if a < |s.log| {
      FinalVersion(Replay(s.log[..n]), s.log, a, |s.log|);
    }
  }

  /** A client opens the store; its snapshot is read; a Put is committed and announced; only then is the snapshot
      sent. */
  function OvertakenSnapshot(c: ClientId, id: Id): seq<Action> {
    [Connect(c), Open(c), Read(c), Put(id, Val(1), 0), Notify, Send(c, 0), Deliver(c), Deliver(c)]
  }

  function SnapshotTaken(c: ClientId): System {
    System([], 0, true, map[c := NEWCLIENT.(open := true, taken := [0])])
  }

  lemma TakeSnapshot(c: ClientId)
    ensures Step(Step(Step(START, Connect(c)), Open(c)), Read(c)) == SnapshotTaken(c)
  {
    var s := Step(Step(START, Connect(c)), Open(c));
    assert s == System([], 0, true, map[c := NEWCLIENT.(open := true, opens := 1)]);
    assert Step(s, Read(c)).clients[c] == NEWCLIENT.(open := true, taken := [0]);
  }

  lemma OvertakeSnapshot(c: ClientId, id: Id)
    ensures var s := Step(Step(Step(SnapshotTaken(c), Put(id, Val(1), 0)), Notify), Send(c, 0));
            && s.log == [Changed(Change(id, Val(1), 0, false, 2))] && s.notified == 1 && s.clients.Keys == {c}
            && s.clients[c].queue == [Update(id, Val(1), 2), Content(map[], 1)]
            && s.clients[c].link == Some(Link(0, 1))
  {
  }

  lemma DeliverBoth(s: System, c: ClientId, u: Message, items: map<Id, Value>, version: int)
    requires c in s.clients && s.clients[c].queue == [u, Content(items, version)]
    ensures var t := Step(Step(s, Deliver(c)), Deliver(c));
            && t.log == s.log && t.notified == s.notified && c in t.clients && t.clients[c].queue == []
            && t.clients[c].replica == Image(items, version) && t.clients[c].link == s.clients[c].link
  {
  }

  /** The hypothesis on the order of reading and sending is needed: openStore does not keep that order, and the
      overtaken snapshot leaves the replica without the item for good. */
  lemma OvertakenSnapshotDiverges(c: ClientId, id: Id)
    ensures var s := Run(Step, START, OvertakenSnapshot(c, id));
            && Drained(s, c)
            && s.clients[c].link == Some(Link(0, 1))
            && Primary(s) == Image(map[id := Val(1)], 2)
            && s.clients[c].replica == FRESH
  {
    TakeSnapshot(c);
    OvertakeSnapshot(c, id);
    var snapshot, overtake := [Connect(c), Open(c), Read(c)], [Put(id, Val(1), 0), Notify, Send(c, 0)];
    RunThree(Step, START, Connect(c), Open(c), Read(c));
    RunThree(Step, SnapshotTaken(c), Put(id, Val(1), 0), Notify, Send(c, 0));
    RunAppend(Step, START, snapshot, overtake);
    assert OvertakenSnapshot(c, id) == snapshot + overtake + [Deliver(c)] + [Deliver(c)];
    RunLast(Step, START, snapshot + overtake, Deliver(c));
    RunLast(Step, START, snapshot + overtake + [Deliver(c)], Deliver(c));
    var s6 := Run(Step, START, snapshot + overtake);
    DeliverBoth(s6, c, Update(id, Val(1), 2), map[], 1);
    assert s6.log[..0] == [] && s6.log[..1] == s6.log;
  }
}
