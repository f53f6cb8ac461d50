/** Transactions, bus/tx/transaction.go: the part every goroutine changes under the transaction's lock. */
module Transactions {
  import opened Options

  datatype Kind = Async | Sync
  datatype TxState = Uncommitted | Committed | Completed | Aborted

  /** A request waits for a store when it names one, and is sent to its channel otherwise. */
  datatype Request = Request(storeName: string, channelName: string, payload: int)

  datatype Direction = RequestDir | ResponseDir | ErrorDir

  /** A bus message; `payload` is opaque, and is the error of an error message. */
  datatype Message = Message(direction: Direction, destination: Option<nat>, payload: int)

  /** A handler started in a goroutine of its own. */
  datatype Launch = OnDone(handler: nat, responses: seq<Option<Message>>) | OnFailed(handler: nat, err: int)

  datatype Core = Core(
    kind: Kind,
    state: TxState,
    requests: seq<Request>,
    onComplete: seq<nat>,
    onError: seq<nat>,
    responses: seq<Option<Message>>,
    completed: nat,
    launched: seq<Launch>)

  function New(kind: Kind): Core {
    Core(kind, Uncommitted, [], [], [], [], 0, [])
  }

  function NoResponses(n: nat): seq<Option<Message>> {
    seq(n, i => None)
  }

  function Completions(handlers: seq<nat>, responses: seq<Option<Message>>): seq<Launch> {
    seq(|handlers|, i requires 0 <= i < |handlers| => OnDone(handlers[i], responses))
  }

  function Failures(handlers: seq<nat>, err: int): seq<Launch> {
    seq(|handlers|, i requires 0 <= i < |handlers| => OnFailed(handlers[i], err))
  }

  predicate Terminal(c: Core) {
    c.state == Completed || c.state == Aborted
  }

  function Commit(c: Core): Core {
    c.(state := Committed, responses := NoResponses(|c.requests|))
  }

  function Fail(c: Core, err: int): Core {
    if Terminal(c) then c else c.(state := Aborted, launched := c.launched + Failures(c.onError, err))
  }

  function Succeed(c: Core, i: nat, m: Message): Core
    requires i < |c.responses|
  {
    if c.state == Aborted then c
    else
      var filled := c.(responses := c.responses[i := Some(m)], completed := c.completed + 1);
      if filled.completed == |c.requests|
      then filled.(state := Completed, launched := c.launched + Completions(c.onComplete, filled.responses))
      else filled
  }

  /** The request to execute after the success of request `i`. */
  function NextAfter(c: Core, i: nat): Option<nat>
    requires i < |c.responses|
  {
    if c.state != Aborted && c.completed + 1 != |c.requests| && c.kind == Sync && i + 1 < |c.requests|
    then Some(i + 1) else None
  }

  function CountFilled(responses: seq<Option<Message>>): nat {
    if responses == [] then 0
    else CountFilled(responses[..|responses| - 1]) + if responses[|responses| - 1].Some? then 1 else 0
  }

  lemma {:induction false} CountBounds(responses: seq<Option<Message>>)
    ensures CountFilled(responses) <= |responses|
    ensures CountFilled(responses) == |responses| <==> forall i | 0 <= i < |responses| :: responses[i].Some?
    ensures CountFilled(responses) == 0 <==> forall i | 0 <= i < |responses| :: responses[i].None?
  {
    if responses != [] {
      CountBounds(responses[..|responses| - 1]);
    }
  }

  lemma {:induction false} CountFill(responses: seq<Option<Message>>, i: nat, m: Message)
    requires i < |responses| && responses[i].None?
    ensures CountFilled(responses[i := Some(m)]) == CountFilled(responses) + 1
  {
    var init := responses[..|responses| - 1];
    if i < |init| {
      CountFill(init, i, m);
      assert responses[i := Some(m)][..|init|] == init[i := Some(m)];
    } else {
      assert responses[i := Some(m)][..|init|] == init;
    }
  }

  class BusTransaction {
    const transactionType: Kind
    var state: TxState
    var requests: seq<Request>
    var responses: seq<Option<Message>>
    var onCompleteHandlers: seq<nat>
    var onErrorHandlers: seq<nat>
    var completedRequests: nat
    var launched: seq<Launch>

    constructor (transactionType: Kind)
      ensures State() == New(transactionType)
    {
      this.transactionType, state, requests, responses := transactionType, Uncommitted, [], [];
      onCompleteHandlers, onErrorHandlers, completedRequests, launched := [], [], 0, [];
    }

    function State(): Core
      reads this
    {
      Core(transactionType, state, requests, onCompleteHandlers, onErrorHandlers, responses, completedRequests,
        launched)
    }

    method SendRequest(channelName: string, payload: int) returns (ok: bool)
      modifies this`requests
      ensures ok == (state == Uncommitted)
      ensures requests == if ok then old(requests) + [Request("", channelName, payload)] else old(requests)
    {
      if state != Uncommitted {
        return false;
      }
      requests := requests + [Request("", channelName, payload)];
      return true;
    }

    method WaitForStoreReady(storeName: string, known: bool) returns (ok: bool)
      modifies this`requests
      ensures ok == (state == Uncommitted && known)
      ensures requests == if ok then old(requests) + [Request(storeName, "", 0)] else old(requests)
    {
      if state != Uncommitted || !known {
        return false;
      }
      requests := requests + [Request(storeName, "", 0)];
      return true;
    }

    method OnComplete(handler: nat) returns (ok: bool)
      modifies this`onCompleteHandlers
      ensures ok == (state == Uncommitted)
      ensures onCompleteHandlers == if ok then old(onCompleteHandlers) + [handler] else old(onCompleteHandlers)
    {
      if state != Uncommitted {
        return false;
      }
      onCompleteHandlers := onCompleteHandlers + [handler];
      return true;
    }

    method OnError(handler: nat) returns (ok: bool)
      modifies this`onErrorHandlers
      ensures ok == (state == Uncommitted)
      ensures onErrorHandlers == if ok then old(onErrorHandlers) + [handler] else old(onErrorHandlers)
    {
      if state != Uncommitted {
        return false;
      }
      onErrorHandlers := onErrorHandlers + [handler];
      return true;
    }

    /** The locked part of CommitContext.  It fails, and changes nothing, for a cancelled context, a second commit
        and an empty transaction. */
    method CommitContext(cancelled: bool) returns (ok: bool)
      modifies this`state, this`responses
      ensures ok == (!cancelled && old(state) == Uncommitted && requests != [])
      ensures State() == if ok then Commit(old(State())) else old(State())
    {
      if cancelled || state != Uncommitted || |requests| == 0 {
        return false;
      }
      state := Committed;
      responses := seq(|requests|, i => None);
      return true;
    }

    method OnTransactionError(err: int)
      modifies this`state, this`launched
      ensures State() == Fail(old(State()), err)
    {
      if state == Aborted || state == Completed {
        return;
      }
      state := Aborted;
      var i := 0;
      while i < |onErrorHandlers|
        invariant 0 <= i <= |onErrorHandlers|
        invariant launched == old(launched) + Failures(onErrorHandlers[..i], err)
        modifies this`launched
      {
        launched := launched + [OnFailed(onErrorHandlers[i], err)];
        i := i + 1;
        assert Failures(onErrorHandlers[..i], err)
            == Failures(onErrorHandlers[..i - 1], err) + [OnFailed(onErrorHandlers[i - 1], err)];
      }
      assert onErrorHandlers[..i] == onErrorHandlers;
    }

    /** `next` is the request to execute when this call has released the lock. */
    method OnTransactionRequestSuccess(i: nat, m: Message) returns (next: Option<nat>)
      requires i < |responses| == |requests|
      modifies this`state, this`responses, this`completedRequests, this`launched
      ensures State() == Succeed(old(State()), i, m)
      ensures next == NextAfter(old(State()), i)
      ensures old(state) == Committed ==>
                next == if state == Committed && transactionType == Sync && i + 1 < |requests| then Some(i + 1)
                        else None
    {
      if state == Aborted {
        return None;
      }
      responses := responses[i := Some(m)];
      completedRequests := completedRequests + 1;
      if completedRequests == |requests| {
        state := Completed;
        var j := 0;
        while j < |onCompleteHandlers|
          invariant 0 <= j <= |onCompleteHandlers|
          invariant launched == old(launched) + Completions(onCompleteHandlers[..j], responses)
          modifies this`launched
        {
          launched := launched + [OnDone(onCompleteHandlers[j], responses)];
          j := j + 1;
          assert Completions(onCompleteHandlers[..j], responses)
              == Completions(onCompleteHandlers[..j - 1], responses) + [OnDone(onCompleteHandlers[j - 1], responses)];
        }
        assert onCompleteHandlers[..j] == onCompleteHandlers;
        return None;
      }
      if transactionType == Sync && i < |requests| - 1 {
        return Some(i + 1);
      }
      return None;
    }
  }
}
