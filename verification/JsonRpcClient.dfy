/** The client object itself: its fields and the code between two awaits of its methods. */
module JsonRpcClientModule {
  import opened Seqs
  import opened JsonRpc

  class JsonRpcClient {
    var nextId: int
    var pending: map<int, nat>
    var notifications: seq<Payload>
    var reader: Reader
    var closed: bool
    // The event loop's side: futures by creation, and where each call's coroutine stands.
    var futures: seq<Future>
    var calls: map<int, Phase>
    // What has happened so far.
    ghost var arrivals: seq<Payload>
    ghost var fates: seq<Fate>
    ghost var drained: seq<Payload>

    ghost function State(): Client
      reads this
    {
      Client(nextId, futures, pending, calls, notifications, reader, closed, arrivals, fates, drained)
    }

    constructor ()
      ensures State() == INITIAL
    {
      nextId, pending, notifications, reader, closed := 1, map[], [], NotStarted, false;
      futures, calls := [], map[];
      arrivals, fates, drained := [], [], [];
    }

    /** `call` and `initialize` up to the first await: None when stdin is not available. */
    method BeginCall(stdinOpen: bool) returns (id: Option<int>)
      modifies this
      ensures State() == Step(old(State()), Begin(stdinOpen))
      ensures id == if stdinOpen then Some(old(nextId)) else None
    {
      EnsureReaderTask();
      if !stdinOpen {
        return None;
      }
      id := Some(nextId);
      nextId := nextId + 1;
      futures := futures + [Future(id.value, Pending)];
      pending := pending[id.value := |futures| - 1];
      calls := calls[id.value := Sending(|futures| - 1)];
    }

    method EnsureReaderTask()
      modifies this`reader
      ensures reader == EnsureReader(old(reader))
    {
      if reader == NotStarted {
        reader := Running;
      }
    }

    /** The request has been written; the coroutine enters `wait_for`. */
    method RequestSent(id: int)
      requires Enabled(State(), Sent(id))
      modifies this
      ensures State() == Step(old(State()), Sent(id))
    {
      calls := calls[id := Waiting(calls[id].future)];
    }

    /** The `except Exception` handler: drop the entry and raise. */
    method LeaveRaising(id: int)
      modifies this`pending, this`calls
      ensures pending == Pop(old(pending), id) && calls == old(calls)[id := Raised]
    {
      pending := map k | k in pending && k != id :: pending[k];
      calls := calls[id := Raised];
    }

    method RequestFailed(id: int)
      requires Enabled(State(), SendFailed(id))
      modifies this
      ensures State() == Step(old(State()), SendFailed(id))
    {
      LeaveRaising(id);
    }

    /** The awaited future is done and the coroutine runs again. */
    method WakeCaller(id: int) returns (response: Option<Response>)
      requires Enabled(State(), Wake(id))
      modifies this
      ensures State() == Step(old(State()), Wake(id))
      ensures response.Some? <==> calls[id].Returned?
      ensures response.Some? ==> old(futures)[old(calls)[id].future].state == Result(response.value)
    {
      response := None;
      match futures[calls[id].future].state {
        case Result(r) =>
          calls := calls[id := Returned(r)];
          response := Some(r);
        case Failed(_) => LeaveRaising(id);
        case Cancelled => calls := calls[id := Abandoned];
      }
    }

    method CancelIfPending(f: nat)
      requires f < |futures|
      modifies this`futures
      ensures futures == CancelFuture(old(State()), f).futures
    {
      if futures[f].state.Pending? {
        futures := futures[f := futures[f].(state := Cancelled)];
      }
    }

    method TimerFired(id: int)
      requires Enabled(State(), TimerFires(id))
      modifies this
      ensures State() == Step(old(State()), TimerFires(id))
    {
      CancelIfPending(calls[id].future);
      calls := calls[id := TimedOut];
    }

    method HandleTimeout(id: int)
      requires Enabled(State(), TimeoutHandled(id))
      modifies this
      ensures State() == Step(old(State()), TimeoutHandled(id))
    {
      LeaveRaising(id);
    }

    method CallerCancelled(id: int)
      requires Enabled(State(), Abandon(id))
      modifies this
      ensures State() == Step(old(State()), Abandon(id))
    {
      if calls[id].Waiting? {
        CancelIfPending(calls[id].future);
      }
      calls := calls[id := Abandoned];
    }

    /** `_fail_pending`: the table is emptied first, then every future that is not done fails. */
    method FailPending(failure: Failure)
      modifies this`pending, this`futures
      ensures State() == FailAll(old(State()), failure)
    {
      var waiting := PendingFutures(pending);
      pending := map[];
      while waiting != {}
        invariant pending == map[] && waiting <= PendingFutures(old(pending))
        invariant |futures| == |old(futures)|
        invariant forall i :: 0 <= i < |futures| ==>
          futures[i] == if i in PendingFutures(old(pending)) - waiting && old(futures)[i].state.Pending?
                        then old(futures)[i].(state := Failed(failure)) else old(futures)[i]
        decreases waiting
      {
        var f :| f in waiting;
        if f < |futures| && futures[f].state.Pending? {
          futures := futures[f := futures[f].(state := Failed(failure))];
        }
        waiting := waiting - {f};
      }
    }

    /** `_resolve_response` */
    method ResolveResponse(p: Payload)
      requires IsResponse(p)
      modifies this
      ensures var (after, fate) := Deliver(old(State()), p);
              State() == after.(fates := old(fates) + [fate])
    {
      var r := FromPayload(p);
      var key := LookupKey(r.requestId);
      if key.None? || key.value !in pending || pending[key.value] >= |futures| {
        notifications := notifications + [ToPayload(r)];
        fates := fates + [Queued(ToPayload(r))];
        return;
      }
      var f := pending[key.value];
      pending := map k | k in pending && k != key.value :: pending[k];
      if !futures[f].state.Pending? {
        fates := fates + [Dropped(f)];
        return;
      }
      futures := futures[f := futures[f].(state := Result(r))];
      fates := fates + [Completed(f)];
    }

    /** One turn of `_reader_loop`. */
    method ReadLine(line: Line)
      requires reader.Running?
      modifies this
      ensures State() == Step(old(State()), Read(line))
    {
      match line {
        case Eof =>
          FailPending(StdoutClosed);
          reader := Finished(false);
        case Undecodable =>
          FailPending(ReaderError);
          reader := Finished(!closed);
        case NotAnObject =>
        case Object(p) =>
          arrivals := arrivals + [p];
          if !IsResponse(p) {
            notifications := notifications + [p];
            fates := fates + [Queued(p)];
          } else if IsPoison(p) {
            FailPending(ReaderError);
            reader := Finished(!closed);
            fates := fates + [Lost];
          } else {
            ResolveResponse(p);
          }
      }
    }

    /** `notifications`: empties the queue, oldest first. */
    method DrainNotifications() returns (result: seq<Payload>)
      modifies this
      ensures State() == Step(old(State()), Drain)
      ensures result == old(notifications)
    {
      result := [];
      while notifications != []
        invariant result + notifications == old(notifications)
        invariant State() == old(State()).(queue := notifications)
        decreases |notifications|
      {
        result := result + [notifications[0]];
        notifications := notifications[1..];
      }
      drained := drained + result;
    }

    /** `aclose`: the reader task is cancelled and forgotten, pending futures are left alone. A
        reader that had died raises its exception here, after it has been forgotten. */
    method Aclose() returns (raised: bool)
      modifies this
      ensures State() == Step(old(State()), Close)
      ensures raised <==> old(reader) == Finished(true)
    {
      closed := true;
      raised := false;
      match reader {
        case NotStarted =>
        case Running => reader := NotStarted;
        case Finished(died) =>
          raised := died;
          reader := NotStarted;
      }
    }
  }
}
