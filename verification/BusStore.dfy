/** The local store of store/store.go and the change streams of store/store_stream.go.

    Every committed operation is recorded in a ghost history.  The class invariant ties the concrete fields to
    that history: the items and the version are its replay, and every subscribed stream has received exactly the
    matching changes committed since it subscribed.

    Calls come one at a time here, so that a Put commits and notifies in one.  StreamDelivery has any number of calls
    interleaved, section by section. */
module BusStores {
  import opened Sequences

  type Id = string

  /** An item value.  `Nil` is the nil interface value; every other payload is opaque. */
  datatype Value = Nil | Val(data: int)

  datatype Change = Change(id: Id, value: Value, state: int, isDelete: bool, version: int)

  datatype StreamFilter = StreamFilter(states: seq<int>, itemId: Id, matchAllItems: bool)
  {
    predicate Match(change: Change) {
      (matchAllItems || itemId == change.id) && (states == [] || change.state in states)
    }
  }

  /** The filters of OnAllChanges and of OnChange, for the given states or, without any, for all. */
  function OnAllChanges(states: seq<int>): (f: StreamFilter)
    ensures forall c: Change :: f.Match(c) <==> states == [] || c.state in states
  {
    StreamFilter(states, "", true)
  }

  function OnChange(id: Id, states: seq<int>): (f: StreamFilter)
    ensures forall c: Change :: f.Match(c) <==> c.id == id && (states == [] || c.state in states)
  {
    StreamFilter(states, id, false)
  }

  /** What a store holds: its items and its version counter. */
  datatype Image = Image(items: map<Id, Value>, version: int)

  const FRESH := Image(map[], 1)

  /** One committed operation. `Populated` and `WasReset` notify nobody. */
  datatype Entry = Changed(change: Change) | Populated(content: map<Id, Value>) | WasReset

  function Apply(s: Image, e: Entry): Image {
    match e
    case Changed(c) => Image(if c.isDelete then s.items - {c.id} else s.items[c.id := c.value], s.version + 1)
    case Populated(content) => s.(items := content)
    case WasReset => FRESH
  }

  function Replay(log: seq<Entry>): Image {
    if log == [] then FRESH else Apply(Replay(log[..|log| - 1]), log[|log| - 1])
  }

  /** Whether the store can commit `e` when it holds `s`. */
  predicate Lawful(s: Image, e: Entry) {
    match e
    case Changed(c) => c.version == s.version + 1 && (c.isDelete ==> c.id in s.items && c.value == s.items[c.id])
    case Populated(_) => s.items == map[]
    case WasReset => true
  }

  ghost predicate Committed(log: seq<Entry>) {
    forall i | 0 <= i < |log| :: Lawful(Replay(log[..i]), log[i])
  }

  lemma CommitExtends(log: seq<Entry>, e: Entry)
    requires Committed(log) && Lawful(Replay(log), e)
    ensures Committed(log + [e]) && Replay(log + [e]) == Apply(Replay(log), e)
  {
    var next := log + [e];
    assert next[..|log|] == log;
    forall i | 0 <= i < |next| ensures Lawful(Replay(next[..i]), next[i]) {
      if i < |log| {
        assert next[..i] == log[..i];
      }
    }
  }

  /** The effective Puts and Removes since the last Reset, oldest first. */
  function ChangesSinceReset(log: seq<Entry>): seq<Change> {
    if log == [] then []
    else
      var earlier := ChangesSinceReset(log[..|log| - 1]);
      match log[|log| - 1]
      case Changed(c) => earlier + [c]
      case Populated(_) => earlier
      case WasReset => []
  }

  /** Between Resets the k-th effective change (counting from one) carries version k + 1, so the version
      numbers a client sees are dense and never repeat. */
  lemma {:induction false} VersionsCountChanges(log: seq<Entry>)
    requires Committed(log)
    ensures Replay(log).version == |ChangesSinceReset(log)| + 1
    ensures forall k | 0 <= k < |ChangesSinceReset(log)| :: ChangesSinceReset(log)[k].version == k + 2
  {
    if log != [] {
      var earlier := log[..|log| - 1];
      forall i | 0 <= i < |earlier| ensures Lawful(Replay(earlier[..i]), earlier[i]) {
        assert earlier[..i] == log[..i];
      }
      VersionsCountChanges(earlier);
    }
  }

  /** The changes in `log` that a stream with filter `f` must be told about, in commit order. */
  function Matching(f: StreamFilter, log: seq<Entry>): seq<Change> {
    if log == [] then []
    else
      var earlier := Matching(f, log[..|log| - 1]);
      var e := log[|log| - 1];
      if e.Changed? && f.Match(e.change) then earlier + [e.change] else earlier
  }

  class StoreStream {
    const store: BusStore
    const filter: StreamFilter
    /** Whether a handler is installed, and everything it has been called with. */
    var handler: bool
    var received: seq<Change>
    /** The length of the history, and of `received`, when the handler was installed. */
    ghost var since: nat
    ghost var before: seq<Change>

    constructor (store: BusStore, filter: StreamFilter)
      ensures this.store == store && this.filter == filter && !handler && received == []
    {
      this.store, this.filter, handler, received := store, filter, false, [];
      since, before := 0, [];
    }

    /** The stream has seen exactly the matching changes committed since it subscribed, once each and in order. */
    ghost predicate UpToDate(history: seq<Entry>)
      reads this
    {
      since <= |history| && received == before + Matching(filter, history[since..])
    }

    method Subscribe(handlerIsNil: bool) returns (ok: bool)
      requires store.Valid()
      modifies this, store`storeStreams
      ensures store.Valid() && store.history == old(store.history)
      ensures ok == (!handlerIsNil && !old(handler))
      ensures ok ==> handler && store.storeStreams == old(store.storeStreams) + [this] && since == |store.history|
      ensures !ok ==> handler == old(handler) && store.storeStreams == old(store.storeStreams)
      ensures received == old(received)
    {
      if handlerIsNil || handler {
        return false;
      }
      handler := true;
      since, before := |store.history|, received;
      assert store.history[since..] == [];
      assert store.StreamsUpToDate(store.storeStreams, store.history);
      store.OnStreamSubscribe(this);
      return true;
    }

    method Unsubscribe() returns (ok: bool)
      requires store.Valid()
      modifies this, store`storeStreams
      ensures store.Valid() && store.history == old(store.history)
      ensures ok == old(handler) && !handler
      ensures forall s :: s in store.storeStreams <==> s in old(store.storeStreams) && s != this
      ensures received == old(received)
    {
      if !handler {
        return false;
      }
      store.OnStreamUnsubscribe(this);
      handler := false;
      return true;
    }

    method OnStoreChange(change: Change)
      modifies this`received
      ensures received == if filter.Match(change) && handler then old(received) + [change] else old(received)
    {
      if !filter.Match(change) {
        return;
      }
      if handler {
        received := received + [change];
      }
    }
  }

  /** `s` without position `i`, the way an unordered slice removal does it: the last element takes the place. */
  function SwapRemoved<T>(s: seq<T>, i: nat): seq<T>
    requires i < |s|
  {
    s[i := s[|s| - 1]][..|s| - 1]
  }

  /** Swap-removal loses the chosen element and nothing else. */
  lemma SwapRemovedKeepsOthers<T>(s: seq<T>, i: nat)
    requires i < |s| && Distinct(s)
    ensures Distinct(SwapRemoved(s, i)) && s[i] !in SwapRemoved(s, i)
    ensures forall x | x in s && x != s[i] :: x in SwapRemoved(s, i)
    ensures forall x | x in SwapRemoved(s, i) :: x in s
  {
    var t := SwapRemoved(s, i);
    forall x | x in s && x != s[i] ensures x in t {
      var k :| 0 <= k < |s| && s[k] == x;
      assert if k == |s| - 1 then t[i] == x else t[k] == x;
    }
  }

  class BusStore {
    var items: map<Id, Value>
    var storeVersion: int
    var storeStreams: seq<StoreStream>
    /** Whether Initialize has been called since the last Reset. */
    var initialized: bool
    ghost var history: seq<Entry>

    ghost predicate Valid()
      reads this, storeStreams
    {
      FieldsMatchHistory() && StreamsUpToDate(storeStreams, history)
    }

    ghost predicate FieldsMatchHistory()
      reads this
    {
      Committed(history) && Replay(history) == Image(items, storeVersion)
    }

    /** The registry holds each subscribed stream once, and each has been told everything in `log`. */
    ghost predicate StreamsUpToDate(streams: seq<StoreStream>, log: seq<Entry>)
      reads streams
    {
      Distinct(streams) && forall s | s in streams :: s.store == this && s.handler && s.UpToDate(log)
    }

    constructor ()
      ensures Valid() && history == [] && storeStreams == [] && !initialized
    {
      items, storeVersion, storeStreams, initialized := map[], 1, [], false;
      history := [];
    }

    method Populate(content: map<Id, Value>) returns (ok: bool)
      requires Valid()
      modifies this`items, this`initialized, this`history
      ensures Valid()
      ensures ok == (old(items) == map[]) && initialized == (ok || old(initialized))
      ensures history == if ok then old(history) + [Populated(content)] else old(history)
    {
      if |items| > 0 {
        return false;
      }
      CommitExtends(history, Populated(content));
      Record(Populated(content));
      CopyAll(content);
      Initialize();
      return true;
    }

    /** Only the first call since a Reset has an effect; `Readiness` has what waits for it. */
    method Initialize()
      modifies this`initialized
      ensures initialized
    {
      if !initialized {
        initialized := true;
      }
    }

    method CopyAll(content: map<Id, Value>)
      requires items == map[]
      modifies this`items
      ensures items == content
    {
      var left := content.Keys;
      while left != {}
        invariant left <= content.Keys
        invariant items.Keys == content.Keys - left
        invariant forall k | k in items :: items[k] == content[k]
      {
        var k :| k in left;
        items := items[k := content[k]];
        left := left - {k};
      }
      assert items == content;
    }

    /** Ghost bookkeeping for a change whose effect is already in the fields. */
    ghost method Commit(change: Change)
      requires Committed(history) && Lawful(Replay(history), Changed(change))
      modifies this`history
      ensures history == old(history) + [Changed(change)]
      ensures Committed(history) && Replay(history) == Apply(Replay(old(history)), Changed(change))
    {
      CommitExtends(history, Changed(change));
      history := history + [Changed(change)];
    }

    /** Ghost bookkeeping for an entry that notifies nobody. */
    ghost method Record(e: Entry)
      requires !e.Changed?
      requires StreamsUpToDate(storeStreams, history)
      modifies this`history
      ensures history == old(history) + [e]
      ensures StreamsUpToDate(storeStreams, history)
    {
      forall s | s in storeStreams ensures s.UpToDate(history + [e]) {
        MatchingStays(s.filter, history, e, s.since);
      }
      history := history + [e];
    }

    method Put(cancelled: bool, id: Id, value: Value, state: int)
      requires Valid()
      modifies this`items, this`storeVersion, this`history, storeStreams`received
      ensures Valid()
      ensures history == if cancelled then old(history)
                         else old(history) + [Changed(Change(id, value, state, false, old(storeVersion) + 1))]
    {
      if cancelled {
        return;
      }
      storeVersion := storeVersion + 1;
      items := items[id := value];
      var change := Change(id, value, state, false, storeVersion);
      ghost var log := history;
      Commit(change);
      assert StreamsUpToDate(storeStreams, log);
      OnStoreChange(change, log);
    }

    method Remove(cancelled: bool, id: Id, state: int) returns (removed: bool)
      requires Valid()
      modifies this`items, this`storeVersion, this`history, storeStreams`received
      ensures Valid()
      ensures removed == (!cancelled && id in old(items))
      ensures history == if !removed then old(history)
                         else old(history) + [Changed(Change(id, old(items)[id], state, true, old(storeVersion) + 1))]
      ensures !removed ==> items == old(items) && forall s | s in storeStreams :: s.received == old(s.received)
    {
      if cancelled || id !in items {
        return false;
      }
      var value := items[id];
      storeVersion := storeVersion + 1;
      items := items - {id};
      var change := Change(id, value, state, true, storeVersion);
      ghost var log := history;
      Commit(change);
      assert StreamsUpToDate(storeStreams, log);
      OnStoreChange(change, log);
      return true;
    }

    /** Tells every stream in a snapshot of the registry about the change that was just committed. */
    method OnStoreChange(change: Change, ghost log: seq<Entry>)
      requires history == log + [Changed(change)]
      requires StreamsUpToDate(storeStreams, log)
      modifies storeStreams`received
      ensures StreamsUpToDate(storeStreams, history)
    {
      Notify(storeStreams, change);
      forall s | s in storeStreams ensures s.UpToDate(history) {
        assert old(s.UpToDate(log));
        MatchingGrows(s.filter, log, change, s.since);
      }
    }

    static method Notify(streams: seq<StoreStream>, change: Change)
      requires Distinct(streams)
      modifies streams`received
      ensures forall s | s in streams ::
                s.received == if s.filter.Match(change) &&
                  s.handler then old(s.received) + [change] else old(s.received)
    {
      var i := 0;
      while i < |streams|
        invariant 0 <= i <= |streams|
        invariant forall j | 0 <= j < i ::
                    streams[j].received == if streams[j].filter.Match(change) && streams[j].handler
                                           then old(streams[j].received) + [change] else old(streams[j].received)
        invariant forall j | i <= j < |streams| :: streams[j].received == old(streams[j].received)
      {
        streams[i].OnStoreChange(change);
        i := i + 1;
      }
    }

    method AllValuesAndVersion() returns (values: map<Id, Value>, version: int)
      ensures Image(values, version) == Image(items, storeVersion)
    {
      values := map[];
      var left := items.Keys;
      while left != {}
        invariant left <= items.Keys && values.Keys == items.Keys - left
        invariant forall k | k in values :: values[k] == items[k]
      {
        var k :| k in left;
        values := values[k := items[k]];
        left := left - {k};
      }
      version := storeVersion;
    }

    method Reset()
      requires Valid()
      modifies this
      ensures Valid()
      ensures history == old(history) + [WasReset] && storeStreams == [] && !initialized
    {
      CommitExtends(history, WasReset);
      items, storeVersion, storeStreams, initialized := map[], 1, [], false;
      history := history + [WasReset];
    }

    method OnStreamSubscribe(stream: StoreStream)
      requires FieldsMatchHistory() && StreamsUpToDate(storeStreams + [stream], history)
      modifies this`storeStreams
      ensures Valid() && storeStreams == old(storeStreams) + [stream]
    {
      storeStreams := storeStreams + [stream];
    }

    method OnStreamUnsubscribe(stream: StoreStream)
      requires Valid()
      modifies this`storeStreams
      ensures Valid() && stream !in storeStreams
      ensures if stream !in old(storeStreams) then storeStreams == old(storeStreams)
              else exists i | 0 <= i < |old(storeStreams)| ::
                old(storeStreams)[i] == stream && storeStreams == SwapRemoved(old(storeStreams), i)
      ensures forall s :: s in storeStreams <==> s in old(storeStreams) && s != stream
    {
      var i := 0;
      while i < |storeStreams| && storeStreams[i] != stream
        invariant 0 <= i <= |storeStreams|
        invariant stream !in storeStreams[..i]
      {
        i := i + 1;
      }
      if i < |storeStreams| {
        SwapRemovedKeepsOthers(storeStreams, i);
        var last := storeStreams[|storeStreams| - 1];
        storeStreams := storeStreams[i := last];
        storeStreams := storeStreams[..|storeStreams| - 1];
      }
    }
  }

  lemma MatchingStays(f: StreamFilter, log: seq<Entry>, e: Entry, since: nat)
    requires since <= |log| && !e.Changed?
    ensures Matching(f, (log + [e])[since..]) == Matching(f, log[since..])
  {
    var tail := log[since..];
    assert (log + [e])[since..] == tail + [e];
    assert (tail + [e])[..|tail|] == tail;
  }

  lemma MatchingGrows(f: StreamFilter, log: seq<Entry>, change: Change, since: nat)
    requires since <= |log|
    ensures Matching(f, (log + [Changed(change)])[since..])
         == Matching(f, log[since..]) + if f.Match(change) then [change] else []
  {
    var tail := log[since..];
    assert (log + [Changed(change)])[since..] == tail + [Changed(change)];
    assert (tail + [Changed(change)])[..|tail|] == tail;
  }
}
