/** The client object, step by step. */
module RpcClient {
  import opened PyText
  import opened JsonRpc

  class CodexAppServerClient {
    var nextId: nat
    var pending: set<int>
    var futures: map<int, Future>
    var callers: map<int, Caller>

    function View(): Client
      reads this
    {
      Client(nextId, pending, futures, callers)
    }

    constructor ()
      ensures View() == START
    {
      nextId, pending, futures, callers := 0, {}, map[], map[];
    }

    /** `call`, up to sending. */
    method BeginCall() returns (id: nat)
      modifies this
      ensures id == old(nextId) && View() == Next(old(View()), Event.Call)
    {
      id := nextId;
      nextId := nextId + 1;
      futures := futures[id := Unresolved];
      pending := pending + {id};
      callers := callers[id := Sending];
    }

    method SendFinished(id: int, failed: bool)
      requires Enabled(View(), SendDone(id))
      modifies this`callers
      ensures View() == Next(old(View()), if failed then SendFails(id) else SendDone(id))
    {
      callers := callers[id := if failed then SendFailed else Awaiting];
    }

    /** `_handle_incoming`, for a message with an id and no method. */
    method HandleResponse(id: int, outcome: Outcome)
      requires Enabled(View(), Response(id, outcome))
      modifies this`futures
      ensures View() == Next(old(View()), Response(id, outcome))
    {
      if id !in pending || id !in futures || futures[id].Done? {
        return;
      }
      futures := futures[id := Done(outcome)];
    }

    /** The end of `call`: the wait is over, because the future is done or because it `expired`, even if the future has
        been done since; and the registration is dropped whatever the reason. */
    method FinishCall(id: int, expired: bool) returns (end: End)
      requires Enabled(View(), if expired then Timeout(id) else Resume(id))
      modifies this
      ensures View() == Next(old(View()), if expired then Timeout(id) else Resume(id))
      ensures end == if expired then TimedOut else Returned(old(futures)[id].outcome)
    {
      if expired {
        if futures[id] == Unresolved {
          futures := futures[id := Done(Cancelled)];
        }
        end := TimedOut;
      } else {
        end := Returned(futures[id].outcome);
      }
      pending := pending - {id};
      callers := callers[id := Finished(end)];
    }

    /** The last part of `close`: cancel what is unresolved and forget every registration. */
    method Close()
      modifies this
      ensures View() == Next(old(View()), Event.Close)
    {
      var left := pending;
      while left != {}
        invariant left <= pending
        invariant nextId == old(nextId) && pending == old(pending) && callers == old(callers)
        invariant futures == CancelAll(pending - left, old(futures))
        decreases |left|
      {
        ghost var some: int := AnyOf(left);
        assert some in left;
        var id :| id in left;
        left := left - {id};
        if id in futures && futures[id] == Unresolved {
          futures := futures[id := Done(Cancelled)];
        }
      }
      assert pending - left == pending;
      pending := {};
    }
  }
}
