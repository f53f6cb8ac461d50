/** What a Reset does to replication, store/store.go: it takes the stream of the sync service's listener out of the
    registry, but not the listener out of the sync service; and it does not stop the announcements still to come. */
module StoreResets {
  import opened BusStores
  import opened Runs
  import opened Replication
  import opened SyncSystem

  /** The action opens the store for a client when no client has it open: the listener subscribes a new stream. */
  ghost predicate Attaches(s: System, act: Action) {
    act.Open? && act.c in s.clients && NoneOpen(s.clients)
  }

  ghost function AttachesAfter(s: System): (seq<Action>, Action) -> bool {
    (acts, act) => Attaches(Run(Step, s, acts), act)
  }

  ghost function SomeOpenAfter(s: System): seq<Action> -> bool {
    acts => !NoneOpen(Run(Step, s, acts).clients)
  }

  /** Some Open came when no client had the store open, and some client has had it open ever since. */
  ghost predicate Reattached(s: System, acts: seq<Action>) {
    exists i: nat :: HeldSince(AttachesAfter(s), SomeOpenAfter(s), acts, i)
  }

  lemma OpenStays(s: System, act: Action)
    requires !NoneOpen(s.clients) && !act.Close?
    ensures !NoneOpen(Step(s, act).clients)
  {
    var c :| c in s.clients && s.clients[c].open;
    assert c in Step(s, act).clients && Step(s, act).clients[c].open;
  }

  lemma AttachedStep(s: System, act: Action)
    requires act != Reset && (s.attached ==> !NoneOpen(s.clients))
    ensures var t := Step(s, act);
            && (t.attached <==> (s.attached || Attaches(s, act)) && !NoneOpen(t.clients))
            && (Attaches(s, act) ==> !NoneOpen(t.clients))
  {
    if act.Open? && act.c in s.clients {
      assert Step(s, act).clients[act.c].open;
    }
    if s.attached && !act.Close? {
      OpenStays(s, act);
    }
  }

  /** Until a Reset, the listener's stream is in the store's registry exactly if some Open came when no client had the
      store open, and some client has had it open ever since. */
  lemma {:induction false} AttachedExactly(r: System, acts: seq<Action>)
    requires Reset !in acts && !r.attached
    ensures Run(Step, r, acts).attached <==> Reattached(r, acts)
  {
    if acts != [] {
      var init, act := acts[..|acts| - 1], acts[|acts| - 1];
      assert acts == init + [act];
      AttachedExactly(r, init);
      if Reattached(r, init) {
        HeldSinceHolds(AttachesAfter(r), SomeOpenAfter(r), init);
      }
      AttachedStep(Run(Step, r, init), act);
      HeldSinceExtends(AttachesAfter(r), SomeOpenAfter(r), init, act);
    }
  }

  /** A Reset takes the stream out, and so does Close for the last client: after a Reset, as from the start, an Open is
      needed that comes when no client has the store open. */
  lemma ResetDetaches(s: System, acts: seq<Action>)
    requires Reset !in acts
    ensures var r := Step(s, Reset);
            Run(Step, r, acts).attached <==> Reattached(r, acts)
    ensures Run(Step, START, acts).attached <==> Reattached(START, acts)
  {
    AttachedExactly(Step(s, Reset), acts);
    AttachedExactly(START, acts);
  }

  /** How often the message waits for the client. */
  function Waiting(s: System, c: ClientId, m: Message): nat {
    if c in s.clients then multiset(s.clients[c].queue)[m] else 0
  }

  /** A client is sent an update by the listener and by nothing else, and only while its stream is registered. */
  lemma OnlyNotifySends(s: System, act: Action, c: ClientId, m: Message)
    requires m.Update? && !(act == Notify && s.attached)
    ensures Waiting(Step(s, act), c, m) <= Waiting(s, c, m)
  {
    if act.Deliver? && act.c == c && c in s.clients && s.clients[c].queue != [] {
      var queue := s.clients[c].queue;
      assert queue == [queue[0]] + queue[1..];
    }
  }

  /** Announcing a change sends it to a client exactly if it has the store open and the listener is attached. */
  lemma NotifySendsExactly(s: System, c: ClientId)
    requires s.notified < |s.log| && s.log[s.notified].Changed?
    ensures var m := Forward(s.log[s.notified].change);
            var sent := c in s.clients && s.clients[c].open && s.attached;
            Waiting(Step(s, Notify), c, m) == Waiting(s, c, m) + if sent then 1 else 0
  {
  }

  /** A Reset silences replication: until an Open comes when no client has the store open, no client is sent an update,
      whatever is put, removed and announced. */
  lemma {:induction false} ResetSilences(s: System, acts: seq<Action>, c: ClientId, m: Message)
    requires Reset !in acts && m.Update?
    requires forall i | 0 <= i < |acts| :: !Attaches(Run(Step, Step(s, Reset), acts[..i]), acts[i])
    ensures Waiting(Run(Step, Step(s, Reset), acts), c, m) <= Waiting(s, c, m)
  {
    var r := Step(s, Reset);
    if acts == [] {
      assert Waiting(r, c, m) == Waiting(s, c, m);
    } else {
      var init := acts[..|acts| - 1];
      forall i | 0 <= i < |init| ensures !Attaches(Run(Step, r, init[..i]), init[i]) {
        assert init[..i] == acts[..i];
      }
      ResetSilences(s, init, c, m);
      forall i: nat ensures !HeldSince(AttachesAfter(r), SomeOpenAfter(r), init, i) {}
      ResetDetaches(s, init);
      OnlyNotifySends(Run(Step, r, init), acts[|acts| - 1], c, m);
    }
  }

  /** Until the next Reset, announcing a change sends it to a client with the store open exactly if some Open came when
      no client had the store open, and some client has had it open ever since. */
  lemma HearsAfterResetExactly(s: System, acts: seq<Action>, c: ClientId)
    requires Reset !in acts
    requires var t := Run(Step, Step(s, Reset), acts);
             t.notified < |t.log| && t.log[t.notified].Changed? && c in t.clients && t.clients[c].open
    ensures var r := Step(s, Reset);
            var t := Run(Step, r, acts);
            var m := Forward(t.log[t.notified].change);
            Waiting(Step(t, Notify), c, m) > Waiting(t, c, m) <==> Reattached(r, acts)
  {
    ResetDetaches(s, acts);
    NotifySendsExactly(Run(Step, Step(s, Reset), acts), c);
  }

  /** A client that has the store open across a Reset does not hear of the Put that follows. */
  lemma ResetLosesUpdates(c: ClientId, id: Id)
    ensures var s := Run(Step, START, [Connect(c), Open(c), Reset] + [Put(id, Val(1), 0)] + [Notify]);
            Drained(s, c) && s.clients[c].open && Primary(s) == Image(map[id := Val(1)], 2) &&
              s.clients[c].replica == FRESH
  {
    var up := [Connect(c), Open(c), Reset];
    RunThree(Step, START, Connect(c), Open(c), Reset);
    RunLast(Step, START, up, Put(id, Val(1), 0));
    RunLast(Step, START, up + [Put(id, Val(1), 0)], Notify);
    OpenThenReset(c);
    PutAfterReset(Run(Step, START, up), c, id);
  }

  lemma OpenThenReset(c: ClientId)
    ensures var s := Step(Step(Step(START, Connect(c)), Open(c)), Reset);
            s == System([WasReset], 1, false, map[c := NEWCLIENT.(open := true, opens := 1)])
  {
    var s := Step(Step(START, Connect(c)), Open(c));
    assert s == System([], 0, true, map[c := NEWCLIENT.(open := true, opens := 1)]);
  }

  lemma PutAfterReset(s: System, c: ClientId, id: Id)
    requires s == System([WasReset], 1, false, map[c := NEWCLIENT.(open := true, opens := 1)])
    ensures var t := Step(Step(s, Put(id, Val(1), 0)), Notify);
            && t.log == [WasReset, Changed(Change(id, Val(1), 0, false, 2))] && t.notified == 2
            && t.clients == s.clients && Primary(t) == Image(map[id := Val(1)], 2)
  {
    assert s.log[..0] == [] && Primary(s) == FRESH;
    var entry := Changed(Change(id, Val(1), 0, false, 2));
    assert Step(s, Put(id, Val(1), 0)).log == [WasReset, entry];
    assert [WasReset, entry][..1] == [WasReset];
  }

  /** A Put is committed; the store is reset; a client opens it, and its snapshot is read and sent; and only then the
      Put is announced. */
  function StaleAnnouncement(c: ClientId, id: Id): seq<Action> {
    [Put(id, Val(1), 0), Reset, Connect(c)] + [Open(c), Read(c), Send(c, 0)] + [Notify]
  }

  lemma PutThenReset(c: ClientId, id: Id)
    ensures var s := Step(Step(Step(START, Put(id, Val(1), 0)), Reset), Connect(c));
            s == System([Changed(Change(id, Val(1), 0, false, 2)), WasReset], 0, false, map[c := NEWCLIENT])
  {
    assert Step(START, Put(id, Val(1), 0)).log == [Changed(Change(id, Val(1), 0, false, 2))];
  }

  lemma OpenAfterReset(s: System, c: ClientId, entry: Entry)
    requires entry.Changed? && s == System([entry, WasReset], 0, false, map[c := NEWCLIENT])
    ensures var t := Step(Step(Step(s, Open(c)), Read(c)), Send(c, 0));
            && t.log == s.log && t.notified == 0 && t.attached && t.clients.Keys == {c}
            && t.clients[c].open && t.clients[c].queue == [Content(map[], 1)] && t.clients[c].replica == FRESH
  {
    var u := Step(s, Open(c));
    assert u.attached && u.clients[c] == NEWCLIENT.(open := true, opens := 1);
    var v := Step(u, Read(c));
    assert v.clients[c].taken == [2];
    assert [entry, WasReset][..2] == [entry, WasReset] && Replay([entry, WasReset]) == FRESH;
  }

  /** A Reset does not stop an announcement that is still to come: it reaches a client that opened the store after the
      Reset, which is left with an item the store no longer has. */
  lemma AnnouncedAfterReset(c: ClientId, id: Id)
    ensures var s := Run(Step, START, StaleAnnouncement(c, id));
            && Primary(s) == FRESH && c in s.clients
            && s.clients[c].queue == [Content(map[], 1), Update(id, Val(1), 2)]
            && ReceiveAll(s.clients[c].replica, s.clients[c].queue) == Image(map[id := Val(1)], 2)
  {
    var entry := Changed(Change(id, Val(1), 0, false, 2));
    var put, up := [Put(id, Val(1), 0), Reset, Connect(c)], [Open(c), Read(c), Send(c, 0)];
    PutThenReset(c, id);
    OpenAfterReset(System([entry, WasReset], 0, false, map[c := NEWCLIENT]), c, entry);
    RunThree(Step, START, put[0], put[1], put[2]);
    RunThree(Step, Run(Step, START, put), up[0], up[1], up[2]);
    RunAppend(Step, START, put, up);
    RunLast(Step, START, put + up, Notify);
    var s := Run(Step, START, StaleAnnouncement(c, id));
    assert s.clients[c].queue == [Content(map[], 1)] + [Update(id, Val(1), 2)];
    RunLast(Receive, FRESH, [Content(map[], 1)], Update(id, Val(1), 2));
    RunLast(Receive, FRESH, [], Content(map[], 1));
    assert Primary(s) == Apply(Replay([entry]), WasReset);
  }

  /** The change of log entry `k` is the next to be announced, and somebody will be sent it. */
  ghost predicate AboutToSend(s: System, k: nat) {
    s.notified == k < |s.log| && s.log[k].Changed? && s.attached && !NoneOpen(s.clients)
  }

  ghost predicate Leads(s: System, t: System) {
    exists acts :: Run(Step, s, acts) == t
  }

  lemma LeadsBy(s: System, t: System, act: Action) returns (u: System)
    requires Leads(s, t)
    ensures u == Step(t, act) && Leads(s, u)
  {
    var acts :| Run(Step, s, acts) == t;
    RunLast(Step, s, acts, act);
    u := Step(t, act);
  }

  lemma {:induction false} NotifyUpTo(s: System, t: System, k: nat) returns (u: System)
    requires Leads(s, t) && t.notified <= k <= |t.log|
    ensures Leads(s, u) && u.notified == k && u.log == t.log
    decreases k - t.notified
  {
    u := t;
    if t.notified < k {
      u := LeadsBy(s, t, Notify);
      u := NotifyUpTo(s, u, k);
    }
  }

  ghost function OpenClients(s: System): set<ClientId> {
    set c | c in s.clients && s.clients[c].open
  }

  lemma {:induction false} AllClose(s: System, t: System) returns (u: System)
    requires Leads(s, t)
    ensures Leads(s, u) && NoneOpen(u.clients) && u.log == t.log && u.notified == t.notified
    decreases OpenClients(t)
  {
    u := t;
    if c :| c in t.clients && t.clients[c].open {
      u := LeadsBy(s, t, Close(c));
      assert c in OpenClients(t) && c !in OpenClients(u) && OpenClients(u) <= OpenClients(t);
      u := AllClose(s, u);
    }
  }

  lemma MayOpen(s: System, t: System) returns (u: System)
    requires Leads(s, t) && NoneOpen(t.clients)
    ensures Leads(s, u) && u.attached && !NoneOpen(u.clients) && u.log == t.log && u.notified == t.notified
  {
    u := LeadsBy(s, t, Connect(""));
    assert NoneOpen(u.clients) && "" in u.clients;
    u := LeadsBy(s, u, Open(""));
    assert u.clients[""].open;
  }

  lemma LogGrows(s: System, act: Action)
    requires s.notified <= |s.log|
    ensures var t := Step(s, act); s.log <= t.log && s.notified <= t.notified <= |t.log|
  {
  }

  lemma {:induction false} RunGrows(s: System, acts: seq<Action>)
    requires s.notified <= |s.log|
    ensures var t := Run(Step, s, acts); s.log <= t.log && s.notified <= t.notified <= |t.log|
  {
    if acts != [] {
      RunGrows(s, acts[..|acts| - 1]);
      LogGrows(Run(Step, s, acts[..|acts| - 1]), acts[|acts| - 1]);
    }
  }

  /** The exact condition, checked before the Reset: a change committed before it may yet be sent to a client after it
      precisely if its announcement is still pending. */
  lemma StaleAfterResetExactly(s: System, k: nat)
    requires s.notified <= |s.log| && k < |s.log| && s.log[k].Changed?
    ensures (exists t :: Leads(Step(s, Reset), t) && AboutToSend(t, k)) <==> s.notified <= k
  {
    var r := Step(s, Reset);
    if s.notified <= k {
      assert Run(Step, r, []) == r;
      var t := NotifyUpTo(r, r, k);
      t := AllClose(r, t);
      t := MayOpen(r, t);
      assert AboutToSend(t, k);
    } else {
      forall t | Leads(r, t) ensures !AboutToSend(t, k) {
        var acts :| Run(Step, r, acts) == t;
        RunGrows(r, acts);
      }
    }
  }
}
