/** The STOMP server's event loop, stompserver/server.go: it folds the events of many connections into one nested
    subscription index and tells its listeners about every subscription and unsubscription. */
module StompServers {
  import opened Options
  import opened ConnectionGrammar
  import opened Runs
  import opened Sequences

  type ConnId = string

  datatype ConnEvent = Starting(conn: ConnId) | FromConn(conn: ConnId, event: Event)

  datatype Callback =
    | Subscribed(conn: ConnId, sub: SubId, destination: Destination)
    | Unsubscribed(conn: ConnId, sub: SubId, destination: Destination)

  /** Destination, connection, subscription id; the leaf is the destination the subscription remembers. */
  type Index = map<Destination, map<ConnId, map<SubId, Destination>>>

  predicate Holds(index: Index, d: Destination, c: ConnId, s: SubId) {
    d in index && c in index[d] && s in index[d][c]
  }

  /** Every subscription is filed under the destination it remembers. */
  ghost predicate FiledRight(index: Index) {
    forall d, c, s | Holds(index, d, c, s) :: index[d][c][s] == d
  }

  /** What the index holds after `e`, whatever it held before. */
  predicate HoldsAfter(index: Index, e: ConnEvent, d: Destination, c: ConnId, s: SubId) {
    if e.Starting? then Holds(index, d, c, s)
    else
      match e.event
      case Subscribe(id, dest) => Holds(index, d, c, s) || (d == dest && c == e.conn && s == id)
      case Unsubscribe(id, dest) => Holds(index, d, c, s) && !(d == dest && c == e.conn && s == id)
      case Closed => Holds(index, d, c, s) && c != e.conn
      case _ => Holds(index, d, c, s)
  }

  /** The callbacks for `e`: closing a connection unsubscribes each of its subscriptions once, in any order. */
  ghost predicate CallbacksFor(index: Index, e: ConnEvent, added: seq<Callback>) {
    if e.Starting? then added == []
    else
      match e.event
      case Subscribe(id, d) => added == [Subscribed(e.conn, id, d)]
      case Unsubscribe(id, d) => added == if Holds(index, d, e.conn, id) then [Unsubscribed(e.conn, id, d)] else []
      case Closed =>
        && Distinct(added)
        && forall cb :: cb in added <==>
             cb.Unsubscribed? && cb.conn == e.conn && Holds(index, cb.destination, e.conn, cb.sub)
      case _ => added == []
  }

  datatype Key = Key(conn: ConnId, sub: SubId)

  /** The subscriptions that callbacks leave open. It is defined only as long as each subscription is opened when it
      is not open, and closed when it is, with the destination it was opened with. */
  function Ledger(cbs: seq<Callback>): Option<map<Key, Destination>> {
    if cbs == [] then Some(map[])
    else
      match Ledger(cbs[..|cbs| - 1])
      case None => None
      case Some(open) =>
        match cbs[|cbs| - 1]
        case Subscribed(c, s, d) => if Key(c, s) in open then None else Some(open[Key(c, s) := d])
        case Unsubscribed(c, s, d) =>
          if Key(c, s) in open && open[Key(c, s)] == d then Some(open - {Key(c, s)}) else None
  }

  /** The events of one connection among those of all. */
  function Project(history: seq<ConnEvent>, c: ConnId): seq<Event> {
    if history == [] then []
    else
      var earlier := Project(history[..|history| - 1], c);
      var e := history[|history| - 1];
      if e.FromConn? && e.conn == c then earlier + [e.event] else earlier
  }

  /** Each connection's events, taken alone, are a trace of the connection grammar. */
  ghost predicate WellFormed(history: seq<ConnEvent>) {
    forall c :: PhaseOf(Project(history, c)).Some?
  }

  predicate LiveAt(p: Option<Phase>, s: SubId, d: Destination) {
    p.Some? && p.value.Open? && s in p.value.live && p.value.live[s] == d
  }

  /** Connection `c` has the subscription `s` to `d` open, by its own events. */
  predicate Live(history: seq<ConnEvent>, c: ConnId, s: SubId, d: Destination) {
    LiveAt(PhaseOf(Project(history, c)), s, d)
  }

  ghost predicate Mirrors(history: seq<ConnEvent>, index: Index) {
    forall d, c, s :: Holds(index, d, c, s) <==> Live(history, c, s, d)
  }

  ghost predicate Balances(open: map<Key, Destination>, index: Index) {
    forall d, c, s :: (Key(c, s) in open && open[Key(c, s)] == d) <==> Holds(index, d, c, s)
  }

  /** The server's promise about everything it has been sent: the index holds exactly the live subscriptions, and
      the callbacks so far open and close each subscription in turn and leave the same ones open. */
  ghost predicate Faithful(history: seq<ConnEvent>, index: Index, cbs: seq<Callback>) {
    WellFormed(history) ==> Mirrors(history, index) && Ledger(cbs).Some? && Balances(Ledger(cbs).value, index)
  }

  lemma PhaseAfter(history: seq<ConnEvent>, e: ConnEvent, c: ConnId)
    ensures var p := PhaseOf(Project(history, c));
            PhaseOf(Project(history + [e], c))
            == if e.FromConn? && e.conn == c then (if p.Some? then Advance(p.value, e.event) else None) else p
  {
  }

  lemma WellFormedBefore(history: seq<ConnEvent>, e: ConnEvent)
    requires WellFormed(history + [e])
    ensures WellFormed(history)
    ensures e.FromConn? ==> Advance(PhaseOf(Project(history, e.conn)).value, e.event).Some?
  {
    forall c ensures PhaseOf(Project(history, c)).Some? {
      PhaseAfter(history, e, c);
    }
    PhaseAfter(history, e, e.conn);
  }

  lemma LiveAfter(p: Option<Phase>, e: Event, s: SubId, d: Destination)
    requires p.Some? && Advance(p.value, e).Some?
    ensures LiveAt(Advance(p.value, e), s, d) <==>
            match e
            case Subscribe(id, dest) => LiveAt(p, s, d) || (d == dest && s == id)
            case Unsubscribe(id, dest) => LiveAt(p, s, d) && !(d == dest && s == id)
            case Closed => false
            case _ => LiveAt(p, s, d)
  {
  }

  lemma MirrorsStep(history: seq<ConnEvent>, index: Index, e: ConnEvent, next: Index)
    requires WellFormed(history + [e]) && WellFormed(history) && Mirrors(history, index)
    requires forall d, c, s :: Holds(next, d, c, s) <==> HoldsAfter(index, e, d, c, s)
    ensures Mirrors(history + [e], next)
  {
    WellFormedBefore(history, e);
    forall d, c, s ensures Holds(next, d, c, s) <==> Live(history + [e], c, s, d) {
      PhaseAfter(history, e, c);
      assert Holds(index, d, c, s) <==> Live(history, c, s, d);
      if e.FromConn? && c == e.conn {
        LiveAfter(PhaseOf(Project(history, c)), e.event, s, d);
      }
    }
  }

  lemma LedgerExtends(cbs: seq<Callback>, cb: Callback)
    requires Ledger(cbs).Some?
    ensures Ledger(cbs + [cb]) == (
              var open, k := Ledger(cbs).value, Key(cb.conn, cb.sub);
              if cb.Subscribed? then if k in open then None else Some(open[k := cb.destination])
              else if k in open && open[k] == cb.destination then Some(open - {k}) else None)
  {
  }

  ghost function Opens(k: Key, d: Destination): (seq<Callback>, Callback) -> bool {
    (cbs, cb) => cb == Subscribed(k.conn, k.sub, d)
  }

  ghost function NotClosedAfter(k: Key): seq<Callback> -> bool {
    (cbs: seq<Callback>) =>
      cbs != [] ==> !(cbs[|cbs| - 1].Unsubscribed? && Key(cbs[|cbs| - 1].conn, cbs[|cbs| - 1].sub) == k)
  }

  /** What the callbacks leave open was opened by one, and closed by none since. */
  lemma {:induction false} LedgerMeans(cbs: seq<Callback>, k: Key, d: Destination)
    requires Ledger(cbs).Some?
    ensures (k in Ledger(cbs).value && Ledger(cbs).value[k] == d)
       <==> exists i: nat :: HeldSince(Opens(k, d), NotClosedAfter(k), cbs, i)
  {
    if cbs != [] {
      var init, cb := cbs[..|cbs| - 1], cbs[|cbs| - 1];
      assert cbs == init + [cb];
      LedgerMeans(init, k, d);
      LedgerExtends(init, cb);
      HeldSinceExtends(Opens(k, d), NotClosedAfter(k), init, cb);
    }
  }

  /** `after` is `open` without the subscriptions that `added` unsubscribes. */
  ghost predicate ClosesJust(open: map<Key, Destination>, added: seq<Callback>, after: map<Key, Destination>) {
    && (forall k :: k in after <==> k in open && Unsubscribed(k.conn, k.sub, open[k]) !in added)
    && forall k | k in after :: after[k] == open[k]
  }

  lemma ClosesOneMore(open: map<Key, Destination>, added: seq<Callback>, after: map<Key, Destination>, k: Key)
    requires ClosesJust(open, added, after) && k in open
    ensures ClosesJust(open, added + [Unsubscribed(k.conn, k.sub, open[k])], after - {k})
  {
  }

  /** Unsubscribing different open subscriptions, each with its destination, closes just those. */
  lemma {:induction false} LedgerCloses(cbs: seq<Callback>, added: seq<Callback>)
    requires Ledger(cbs).Some? && Distinct(added)
    requires forall cb | cb in added :: cb.Unsubscribed? && Key(cb.conn, cb.sub) in Ledger(cbs).value
                                     && Ledger(cbs).value[Key(cb.conn, cb.sub)] == cb.destination
    ensures Ledger(cbs + added).Some? && ClosesJust(Ledger(cbs).value, added, Ledger(cbs + added).value)
  {
    if added == [] {
      assert cbs + added == cbs;
    } else {
      var init, last := added[..|added| - 1], added[|added| - 1];
      var k := Key(last.conn, last.sub);
      assert last in added && last !in init;
      LedgerCloses(cbs, init);
      assert cbs + added == (cbs + init) + [last] && added == init + [last];
      LedgerExtends(cbs + init, last);
      ClosesOneMore(Ledger(cbs).value, init, Ledger(cbs + init).value, k);
    }
  }

  lemma OpenHolds(open: map<Key, Destination>, index: Index, k: Key)
    requires Balances(open, index)
    ensures k in open ==> Holds(index, open[k], k.conn, k.sub)
  {
  }

  lemma SubscribeBalances(cbs: seq<Callback>, index: Index, c: ConnId, id: SubId, dest: Destination, next: Index)
    requires Ledger(cbs).Some? && Balances(Ledger(cbs).value, index)
    requires forall d :: !Holds(index, d, c, id)
    requires forall d, c', s :: Holds(next, d, c', s) <==> Holds(index, d, c', s) || (d == dest && c' == c && s == id)
    ensures Ledger(cbs + [Subscribed(c, id, dest)]).Some?
    ensures Balances(Ledger(cbs + [Subscribed(c, id, dest)]).value, next)
  {
    OpenHolds(Ledger(cbs).value, index, Key(c, id));
    LedgerExtends(cbs, Subscribed(c, id, dest));
  }

  lemma UnsubscribeBalances(cbs: seq<Callback>, index: Index, c: ConnId, id: SubId, dest: Destination, next: Index)
    requires Ledger(cbs).Some? && Balances(Ledger(cbs).value, index) && Holds(index, dest, c, id)
    requires forall d, c', s :: Holds(next, d, c', s) <==> Holds(index, d, c', s) && !(d == dest && c' == c && s == id)
    ensures Ledger(cbs + [Unsubscribed(c, id, dest)]).Some?
    ensures Balances(Ledger(cbs + [Unsubscribed(c, id, dest)]).value, next)
  {
  }

  lemma CloseBalances(cbs: seq<Callback>, index: Index, c: ConnId, next: Index, added: seq<Callback>)
    requires Ledger(cbs).Some? && Balances(Ledger(cbs).value, index)
    requires forall d, c', s :: Holds(next, d, c', s) <==> Holds(index, d, c', s) && c' != c
    requires CallbacksFor(index, FromConn(c, Closed), added)
    ensures Ledger(cbs + added).Some? && Balances(Ledger(cbs + added).value, next)
  {
    var open := Ledger(cbs).value;
    LedgerCloses(cbs, added);
    var after := Ledger(cbs + added).value;
    forall d, c', s ensures (Key(c', s) in after && after[Key(c', s)] == d) <==> Holds(next, d, c', s) {
      assert (Key(c', s) in open && open[Key(c', s)] == d) <==> Holds(index, d, c', s);
      assert Key(c', s) in open ==> (Unsubscribed(c', s, open[Key(c', s)]) in added <==> c' == c);
    }
  }

  lemma BalancesStep(history: seq<ConnEvent>, index: Index, cbs: seq<Callback>, e: ConnEvent, next: Index,
                     added: seq<Callback>)
    requires WellFormed(history + [e]) && WellFormed(history) && Mirrors(history, index)
    requires Ledger(cbs).Some? && Balances(Ledger(cbs).value, index)
    requires forall d, c, s :: Holds(next, d, c, s) <==> HoldsAfter(index, e, d, c, s)
    requires CallbacksFor(index, e, added)
    ensures Ledger(cbs + added).Some? && Balances(Ledger(cbs + added).value, next)
  {
    WellFormedBefore(history, e);
    if e.Starting? || e.event.Established? || e.event.Incoming? {
      assert cbs + added == cbs;
    } else {
      match e.event
      case Closed => CloseBalances(cbs, index, e.conn, next, added);
      case Subscribe(id, dest) =>
        forall d ensures !Holds(index, d, e.conn, id) {
          assert Holds(index, d, e.conn, id) <==> Live(history, e.conn, id, d);
        }
        SubscribeBalances(cbs, index, e.conn, id, dest, next);
      case Unsubscribe(id, dest) =>
        assert Live(history, e.conn, id, dest);
        UnsubscribeBalances(cbs, index, e.conn, id, dest, next);
    }
  }

  /** Handling one more event keeps the promise. */
  lemma FaithfulStep(history: seq<ConnEvent>, index: Index, cbs: seq<Callback>, e: ConnEvent, next: Index,
                     added: seq<Callback>)
    requires Faithful(history, index, cbs)
    requires forall d, c, s :: Holds(next, d, c, s) <==> HoldsAfter(index, e, d, c, s)
    requires CallbacksFor(index, e, added)
    ensures Faithful(history + [e], next, cbs + added)
  {
    if WellFormed(history + [e]) {
      WellFormedBefore(history, e);
      MirrorsStep(history, index, e, next);
      BalancesStep(history, index, cbs, e, next, added);
    }
  }

  class StompServer {
    var connectionsMap: set<ConnId>
    var subscriptionsMap: Index
    const appPrefixes: seq<string>
    /** What the registered callbacks have been called with. */
    var callbacks: seq<Callback>
    var requests: seq<(Destination, ConnId)>
    /** Every event handled so far. */
    ghost var history: seq<ConnEvent>

    constructor (appPrefixes: seq<string>)
      ensures Valid() && history == [] && callbacks == []
    {
      connectionsMap, subscriptionsMap, this.appPrefixes := {}, map[], appPrefixes;
      callbacks, requests, history := [], [], [];
      new;
      forall c ensures Project(history, c) == [] {}
    }

    ghost predicate Valid()
      reads this
    {
      FiledRight(subscriptionsMap) && Faithful(history, subscriptionsMap, callbacks)
    }

    method HandleConnectionEvent(e: ConnEvent)
      requires Valid()
      modifies this
      ensures Valid() && history == old(history) + [e]
      ensures forall d, c, s :: Holds(subscriptionsMap, d, c, s) <==> HoldsAfter(old(subscriptionsMap), e, d, c, s)
      ensures old(callbacks) <= callbacks
      ensures CallbacksFor(old(subscriptionsMap), e, callbacks[|old(callbacks)|..])
      ensures connectionsMap == if e.Starting? then old(connectionsMap) + {e.conn}
                                else if e.event.Closed? then old(connectionsMap) - {e.conn} else old(connectionsMap)
      ensures requests == if e.FromConn? && e.event.Incoming? && IsAppRequest(appPrefixes, e.event.destination)
                          then old(requests) + [(e.event.destination, e.conn)] else old(requests)
    {
      ghost var index, cbs := subscriptionsMap, callbacks;
      if e.Starting? {
        connectionsMap := connectionsMap + {e.conn};
      } else {
        match e.event
        case Subscribe(id, d) => AddSubscription(e.conn, id, d);
        case Unsubscribe(id, d) => RemoveSubscription(e.conn, id, d);
        case Closed =>
          connectionsMap := connectionsMap - {e.conn};
          CloseConnection(e.conn);
        case Incoming(d) =>
          if IsAppRequest(appPrefixes, d) {
            requests := requests + [(d, e.conn)];
          }
        case Established =>
      }
      assert callbacks == cbs + callbacks[|cbs|..];
      FaithfulStep(history, index, cbs, e, subscriptionsMap, callbacks[|cbs|..]);
      history := history + [e];
    }

    method AddSubscription(c: ConnId, id: SubId, d: Destination)
      requires FiledRight(subscriptionsMap)
      modifies this`subscriptionsMap, this`callbacks
      ensures FiledRight(subscriptionsMap) && callbacks == old(callbacks) + [Subscribed(c, id, d)]
      ensures forall d', c', s :: Holds(subscriptionsMap, d', c', s)
                <==> Holds(old(subscriptionsMap), d', c', s) || (d' == d && c' == c && s == id)
    {
      var subsMap := if d in subscriptionsMap then subscriptionsMap[d] else map[];
      var conSub := if c in subsMap then subsMap[c] else map[];
      conSub := conSub[id := d];
      subsMap := subsMap[c := conSub];
      subscriptionsMap := subscriptionsMap[d := subsMap];
      callbacks := callbacks + [Subscribed(c, id, d)];
    }

    method RemoveSubscription(c: ConnId, id: SubId, d: Destination)
      requires FiledRight(subscriptionsMap)
      modifies this`subscriptionsMap, this`callbacks
      ensures FiledRight(subscriptionsMap)
      ensures callbacks == old(callbacks) + if Holds(old(subscriptionsMap), d, c, id)
                then [Unsubscribed(c, id, d)] else []
      ensures forall d', c', s :: Holds(subscriptionsMap, d', c', s)
                <==> Holds(old(subscriptionsMap), d', c', s) && !(d' == d && c' == c && s == id)
    {
      if d in subscriptionsMap {
        var subs := subscriptionsMap[d];
        if c in subs {
          var conSub := subs[c];
          if id in conSub {
            conSub := conSub - {id};
            subs := subs[c := conSub];
            subscriptionsMap := subscriptionsMap[d := subs];
            callbacks := callbacks + [Unsubscribed(c, id, d)];
          }
        }
      }
    }

    /** Takes the connection out of every destination, and reports each of its subscriptions. */
    method CloseConnection(c: ConnId)
      requires FiledRight(subscriptionsMap)
      modifies this`subscriptionsMap, this`callbacks
      ensures FiledRight(subscriptionsMap) && old(callbacks) <= callbacks
      ensures forall d, c', s :: Holds(subscriptionsMap, d, c', s) <==>
                Holds(old(subscriptionsMap), d, c', s) && c' != c
      ensures CallbacksFor(old(subscriptionsMap), FromConn(c, Closed), callbacks[|old(callbacks)|..])
    {
      ghost var index, cbs := subscriptionsMap, callbacks;
      ghost var added: seq<Callback> := [];
      var left := subscriptionsMap.Keys;
      while left != {}
        invariant left <= index.Keys && subscriptionsMap.Keys == index.Keys
        invariant callbacks == cbs + added && Distinct(added)
        invariant forall d, c', s :: Holds(subscriptionsMap, d, c', s) <==>
                    Holds(index, d, c', s) && (c' != c || d in left)
        invariant FiledRight(subscriptionsMap)
        invariant forall cb :: cb in added <==>
                    cb.Unsubscribed? && cb.conn == c && Holds(index, cb.destination, c, cb.sub) &&
                      cb.destination !in left
      {
        var d :| d in left;
        if c in subscriptionsMap[d] {
          var conSub := subscriptionsMap[d][c];
          added := ReportAll(c, d, conSub, added);
          subscriptionsMap := subscriptionsMap[d := subscriptionsMap[d] - {c}];
          assert callbacks == cbs + added;
        }
        left := left - {d};
      }
      assert callbacks[|cbs|..] == added;
    }

    /** The inner loop: one callback for each subscription of the connection to destination `d`. */
    method ReportAll(c: ConnId, d: Destination, conSub: map<SubId, Destination>, ghost before: seq<Callback>)
      returns (ghost after: seq<Callback>)
      requires Distinct(before) && (forall s | s in conSub :: conSub[s] == d && Unsubscribed(c, s, d) !in before)
      modifies this`callbacks
      ensures Distinct(after) && |before| <= |after| && callbacks == old(callbacks) + after[|before|..]
      ensures after[..|before|] == before
      ensures forall cb :: cb in after <==>
                cb in before || (cb.Unsubscribed? && cb.conn == c && cb.destination == d && cb.sub in conSub)
    {
      after := before;
      var left := conSub.Keys;
      while left != {}
        invariant left <= conSub.Keys
        invariant Distinct(after) && |before| <= |after| && callbacks == old(callbacks) + after[|before|..]
        invariant after[..|before|] == before
        invariant forall cb :: cb in after <==>
                    cb in before
                    || (cb.Unsubscribed? && cb.conn == c && cb.destination == d && cb.sub in conSub && cb.sub !in left)
      {
        var s :| s in left;
        var cb := Unsubscribed(c, s, conSub[s]);
        callbacks := callbacks + [cb];
        after := after + [cb];
        left := left - {s};
      }
    }

    /** The frames of a broadcast: one for each live subscription to the destination. */
    method SendFrame(d: Destination) returns (sent: seq<Key>)
      ensures Distinct(sent)
      ensures forall k :: k in sent <==> Holds(subscriptionsMap, d, k.conn, k.sub)
    {
      sent := [];
      if d in subscriptionsMap {
        var left := subscriptionsMap[d].Keys;
        while left != {}
          invariant left <= subscriptionsMap[d].Keys && Distinct(sent)
          invariant forall k :: k in sent <==> Holds(subscriptionsMap, d, k.conn, k.sub) && k.conn !in left
        {
          var c :| c in left;
          sent := SendToAll(c, subscriptionsMap[d][c], sent);
          left := left - {c};
        }
      }
    }

    method SendToAll(c: ConnId, subs: map<SubId, Destination>, before: seq<Key>) returns (sent: seq<Key>)
      requires Distinct(before) && forall s | s in subs :: Key(c, s) !in before
      ensures Distinct(sent)
      ensures forall k :: k in sent <==> k in before || (k.conn == c && k.sub in subs)
    {
      sent := before;
      var left := subs.Keys;
      while left != {}
        invariant left <= subs.Keys && Distinct(sent)
        invariant forall k :: k in sent <==> k in before || (k.conn == c && k.sub in subs && k.sub !in left)
      {
        var s :| s in left;
        sent := sent + [Key(c, s)];
        left := left - {s};
      }
    }

    /** The frames of a private message: one for each live subscription of the one connection. */
    method SendFrameToClient(c: ConnId, d: Destination) returns (sent: seq<Key>)
      ensures Distinct(sent)
      ensures forall k :: k in sent <==> k.conn == c && Holds(subscriptionsMap, d, c, k.sub)
    {
      if d !in subscriptionsMap || c !in subscriptionsMap[d] {
        return [];
      }
      sent := SendToAll(c, subscriptionsMap[d][c], []);
    }
  }
}
