/** What holds in every interleaving of the JSON-RPC client. */
module JsonRpcTheorems {
  import opened Seqs
  import opened JsonRpc

  lemma InitialOk()
    ensures Inv(INITIAL)
  {
  }

  // ------------------------------------------------------------------ ids and futures

  /** Ids are handed out as 1, 2, 3, ..., each to one future, and an id that has left the
      pending table is never pending again. */
  lemma RequestIdsAreNeverReused(before: seq<Action>, later: seq<Action>)
    requires Legal(INITIAL, before) && Legal(Run(INITIAL, before), later)
    ensures var s := Run(INITIAL, before);
            var t := Run(s, later);
            && s.nextId == |s.futures| + 1 && |s.futures| <= |t.futures|
            && (forall f :: 0 <= f < |t.futures| ==> t.futures[f].owner == f + 1)
            && (forall id :: id in t.pending ==> 1 <= id < t.nextId && t.pending[id] == id - 1)
            && (forall id :: id < s.nextId && id !in s.pending ==> id !in t.pending)
  {
    InitialOk();
    RunKeeps(INITIAL, before);
    RunKeeps(Run(INITIAL, before), later);
  }

  /** A future is completed at most once: whatever it holds when it is done it holds for
      good. A result is the response read from the peer whose id, looked up as a
      dictionary key, is the id of the future's own request. */
  lemma FuturesCompleteOnce(before: seq<Action>, later: seq<Action>, f: nat)
    requires Legal(INITIAL, before) && Legal(Run(INITIAL, before), later)
    requires f < |Run(INITIAL, before).futures|
    ensures var s := Run(INITIAL, before);
            var t := Run(s, later);
            && |s.futures| <= |t.futures|
            && (!s.futures[f].state.Pending? ==> t.futures[f] == s.futures[f])
            && (t.futures[f].state.Result? ==>
                  && LookupKey(t.futures[f].state.response.requestId) == Some(f + 1)
                  && exists k :: 0 <= k < |t.arrivals| && IsResponse(t.arrivals[k])
                                 && t.futures[f].state.response == FromPayload(t.arrivals[k]))
  {
    InitialOk();
    RunKeeps(INITIAL, before);
    var s := Run(INITIAL, before);
    RunKeeps(s, later);
    var t := Run(s, later);
    if t.futures[f].state.Result? { ResultWasRead(t, f); }
  }

  /** A result is a response that was read, under the key of its own request. */
  lemma ResultWasRead(s: Client, f: nat)
    requires Inv(s) && f < |s.futures| && s.futures[f].state.Result?
    ensures LookupKey(s.futures[f].state.response.requestId) == Some(f + 1)
    ensures exists k ::
              && 0 <= k < |s.arrivals| && IsResponse(s.arrivals[k])
              && s.futures[f].state.response == FromPayload(s.arrivals[k])
  {
    assert ResultsOk(s) && FatesOk(s);
    var k :| 0 <= k < |s.fates| && s.fates[k] == Completed(f);
    assert FateOk(s, s.arrivals[k], s.fates[k]);
  }

  /** A returned call returns the result of its own future. */
  lemma CallsReturnTheirOwnResponse(run: seq<Action>, id: int)
    requires Legal(INITIAL, run) && id in Run(INITIAL, run).calls
    requires Run(INITIAL, run).calls[id].Returned?
    ensures LookupKey(Run(INITIAL, run).calls[id].response.requestId) == Some(id)
    ensures id !in Run(INITIAL, run).pending
  {
    InitialOk();
    RunKeeps(INITIAL, run);
    ReturnedIsResult(Run(INITIAL, run), id);
  }

  lemma ReturnedIsResult(s: Client, id: int)
    requires Inv(s) && id in s.calls && s.calls[id].Returned?
    ensures LookupKey(s.calls[id].response.requestId) == Some(id) && id !in s.pending
    ensures exists k ::
              0 <= k < |s.arrivals| && IsResponse(s.arrivals[k]) && s.calls[id].response == FromPayload(s.arrivals[k])
  {
    assert CallOk(s, id);
    ResultWasRead(s, id - 1);
  }

  /** An id that a dictionary takes for an integer that it is not. */
  predicate LooseId(id: JsonId) {
    id.BoolId? || (id.FloatId? && id.x == id.x.Floor as real)
  }

  /** Whatever the peer sends as an id is looked up as itself or not at all, exactly unless it is
      a boolean or an integral number written with a fraction. */
  lemma IdsAreExactUnlessLoose(id: JsonId)
    ensures (forall n :: LookupKey(id) == Some(n) ==> id == IntId(n)) <==> !LooseId(id)
    ensures ConformingId(id) ==> !LooseId(id)
  {
    if LooseId(id) {
      var n := LookupKey(id).value;
      assert id != IntId(n);
    }
  }

  /** A call returns the response that carries its own id, the integer it sent, if and only if
      the id that answered it is not loose; and so does every call of a run in which no loose
      id arrives. */
  lemma ReturnedIdIsOwnId(run: seq<Action>, id: int)
    requires Legal(INITIAL, run) && id in Run(INITIAL, run).calls && Run(INITIAL, run).calls[id].Returned?
    ensures var s := Run(INITIAL, run);
            && (s.calls[id].response.requestId == IntId(id) <==> !LooseId(s.calls[id].response.requestId))
            && ((forall k :: 0 <= k < |s.arrivals| && s.arrivals[k].id.Some? ==> !LooseId(s.arrivals[k].id.value)) ==>
                  s.calls[id].response.requestId == IntId(id))
  {
    InitialOk();
    RunKeeps(INITIAL, run);
    var s := Run(INITIAL, run);
    ReturnedIsResult(s, id);
    IdsAreExactUnlessLoose(s.calls[id].response.requestId);
    var k :| 0 <= k < |s.arrivals| && IsResponse(s.arrivals[k]) && s.calls[id].response == FromPayload(s.arrivals[k]);
  }

  /** An id outside the standard can answer a call: `true` is taken for request 1. */
  lemma BooleanIdAnswersCallOne()
    ensures exists run :: Legal(INITIAL, run)
              && |Run(INITIAL, run).futures| == 1
              && Run(INITIAL, run).futures[0].state == Result(Response(BoolId(true), Some(NULL), None))
  {
    var p := Payload(Some(BoolId(true)), Some(NULL), NoError, NULL);
    var s1 := BeginStep(INITIAL, true);
    var s2 := ReadStep(s1, Object(p));
    var rest := [Read(Object(p))];
    var run := [Begin(true)] + rest;
    assert run[1..] == rest && rest[1..] == [];
    assert Legal(s2, []) && Legal(s1, rest) && Legal(INITIAL, run);
    assert Run(s2, []) == s2 && Run(s1, rest) == s2 && Run(INITIAL, run) == s2;
    assert s1.pending == map[1 := 0];
  }

  /** Only a call in flight, or one abandoned by its caller, still has an entry in the
      pending table. In particular a call that returned, failed or timed out has none. */
  lemma PendingEntriesBelongToLiveCalls(run: seq<Action>, id: int)
    requires Legal(INITIAL, run) && id in Run(INITIAL, run).pending
    ensures var s := Run(INITIAL, run);
            && id in s.calls
            && (s.calls[id].Sending? || s.calls[id].Waiting? || s.calls[id].TimedOut? || s.calls[id].Abandoned?)
  {
    InitialOk();
    RunKeeps(INITIAL, run);
    assert CallOk(Run(INITIAL, run), id);
  }

  /** What takes the entry of an abandoned call out of the table: its own response, or the end
      of the reader. */
  predicate Clears(a: Action, id: int) {
    a.Read? && match a.line
               case Eof => true
               case Undecodable => true
               case NotAnObject => false
               case Object(p) => IsResponse(p) && (IsPoison(p) || LookupKey(p.id.value) == Some(id))
  }

  lemma EntryAfterStep(s: Client, a: Action, id: int)
    requires Inv(s) && Enabled(s, a) && id in s.pending && id in s.calls && s.calls[id].Abandoned?
    ensures var t := Step(s, a);
            && id in t.calls && t.calls[id].Abandoned?
            && (id in t.pending <==> !Clears(a, id))
  {
    assert CallOk(s, id);
  }

  lemma EntryGoneForGood(s: Client, run: seq<Action>, id: int)
    requires Inv(s) && Legal(s, run) && id < s.nextId && id !in s.pending
    ensures id !in Run(s, run).pending
  {
    RunKeeps(s, run);
  }

  lemma {:induction false} EntryAlongRun(s: Client, run: seq<Action>, id: int)
    requires Inv(s) && Legal(s, run) && id in s.pending && id in s.calls && s.calls[id].Abandoned?
    ensures id in Run(s, run).pending <==> forall i :: 0 <= i < |run| ==> !Clears(run[i], id)
    decreases |run|
  {
    if run != [] {
      var t := Step(s, run[0]);
      StepKeeps(s, run[0]);
      EntryAfterStep(s, run[0], id);
      if Clears(run[0], id) {
        EntryGoneForGood(t, run[1..], id);
      } else {
        EntryAlongRun(t, run[1..], id);
        assert forall i :: 0 < i < |run| ==> run[i] == run[1..][i - 1];
      }
    }
  }

  /** A call cancelled from outside while its entry is pending, in whatever phase, leaves the
      entry behind; it stays there if and only if nothing read later clears it. */
  lemma AbandonedEntryStays(before: seq<Action>, later: seq<Action>, id: int)
    requires Legal(INITIAL, before) && id in Run(INITIAL, before).pending && Enabled(Run(INITIAL, before), Abandon(id))
    requires Legal(Step(Run(INITIAL, before), Abandon(id)), later)
    ensures var s := Step(Run(INITIAL, before), Abandon(id));
            && id in s.pending
            && (id in Run(s, later).pending <==> forall i :: 0 <= i < |later| ==> !Clears(later[i], id))
  {
    InitialOk();
    RunKeeps(INITIAL, before);
    StepKeeps(Run(INITIAL, before), Abandon(id));
    EntryAlongRun(Step(Run(INITIAL, before), Abandon(id)), later, id);
  }

  /** Such a call can be the first one, cancelled while it is being sent. */
  lemma AbandonedEntryExists()
    ensures var run := [Begin(true), Abandon(1)];
            Legal(INITIAL, run) && 1 in Run(INITIAL, run).pending && Run(INITIAL, run).calls[1].Abandoned?
  {
    var s1 := BeginStep(INITIAL, true);
    var s2 := AbandonStep(s1, 1);
    var rest := [Abandon(1)];
    assert ([Begin(true)] + rest)[1..] == rest && rest[1..] == [];
    assert Legal(s2, []) && Legal(s1, rest) && Legal(INITIAL, [Begin(true)] + rest);
    assert Run(s2, []) == s2 && Run(s1, rest) == s2;
    assert [Begin(true), Abandon(1)] == [Begin(true)] + rest;
  }

  // ------------------------------------------------------------------ what answers carry

  /** A response that carries what an object read holds: its id, its result, and its error if
      that is an object with a code and a message. */
  ghost predicate Carries(r: Response, p: Payload) {
    && p.id == Some(r.requestId) && r.result == p.result
    && (forall c, m :: r.error == Some((c, m)) <==> p.error == ErrorObject(c, m))
  }

  /** An answer is an object with an id and with a result or an error. */
  predicate IsAnswer(p: Payload) {
    p.id.Some? && (p.result.Some? || p.error.ErrorObject? || p.error.BadErrorObject? || p.error.OtherError?)
  }

  /** The reader raises on an answer whose id is an array or an object, or whose error object it
      cannot read. */
  predicate Raises(p: Payload) {
    IsAnswer(p) && (p.id == Some(CompoundId) || p.error.BadErrorObject?)
  }

  lemma ParsedCarries(p: Payload)
    ensures IsResponse(p) <==> IsAnswer(p)
    ensures IsPoison(p) <==> Raises(p)
    ensures IsResponse(p) ==> Carries(FromPayload(p), p)
  {
  }

  /** A returned call has what some object read carries, an error if and only if that has one;
      and the object has the call's id. */
  lemma ReturnedCallsCarryWhatWasRead(run: seq<Action>, id: int)
    requires Legal(INITIAL, run) && id in Run(INITIAL, run).calls && Run(INITIAL, run).calls[id].Returned?
    ensures var s := Run(INITIAL, run);
            exists k :: 0 <= k < |s.arrivals| && Carries(s.calls[id].response, s.arrivals[k])
                        && IsAnswer(s.arrivals[k]) && LookupKey(s.arrivals[k].id.value) == Some(id)
  {
    InitialOk();
    RunKeeps(INITIAL, run);
    var s := Run(INITIAL, run);
    ReturnedIsResult(s, id);
    var k :| 0 <= k < |s.arrivals| && IsResponse(s.arrivals[k]) && s.calls[id].response == FromPayload(s.arrivals[k]);
    ParsedCarries(s.arrivals[k]);
  }

  /** What is stored of an object that is queued: an answer with its id and its error, or else
      its result, null when it has none; any other object as it was read. */
  ghost predicate Stores(stored: Payload, p: Payload) {
    if IsAnswer(p) then
      && stored.id == p.id && stored.rest == NULL
      && (forall c, m :: p.error == ErrorObject(c, m) ==> stored.error == ErrorObject(c, m) && stored.result.None?)
      && (!p.error.ErrorObject? ==>
            stored.error.NoError? && stored.result == if p.result.Some? then p.result else Some(NULL))
    else stored == p
  }

  /** Every object that a drain returns, or that still waits in the queue, stores one that was
      read: the queued ones, in their order. */
  lemma QueuedObjectsAreStored(run: seq<Action>, k: nat)
    requires Legal(INITIAL, run) && k < |Run(INITIAL, run).fates| && Run(INITIAL, run).fates[k].Queued?
    ensures var s := Run(INITIAL, run);
            k < |s.arrivals| && Stores(s.fates[k].stored, s.arrivals[k])
  {
    InitialOk();
    RunKeeps(INITIAL, run);
    var s := Run(INITIAL, run);
    assert FatesOk(s);
    assert FateOk(s, s.arrivals[k], s.fates[k]);
    ParsedCarries(s.arrivals[k]);
  }

  /** Where one object goes, told from its members and the pending table alone. */
  lemma PlaceOfAnObject(s: Client, p: Payload)
    requires Inv(s)
    ensures var (t, fate) := Accept(s, p);
            && (fate.Lost? <==> Raises(p))
            && (!IsAnswer(p) ==> fate == Queued(p) && t.queue == s.queue + [p])
            && (IsAnswer(p) && !Raises(p) ==>
                  match LookupKey(p.id.value)
                  case None => fate.Queued? && Stores(fate.stored, p) && t.queue == s.queue + [fate.stored]
                  case Some(id) =>
                    if id !in s.pending then fate.Queued? && Stores(fate.stored, p)
                        && t.queue == s.queue + [fate.stored]
                    else
                      && 1 <= id <= |s.futures| && id !in t.pending && t.queue == s.queue
                      && if s.futures[id - 1].state.Pending? then
                           && fate == Completed(id - 1) && |t.futures| == |s.futures|
                           && t.futures[id - 1].state.Result? && Carries(t.futures[id - 1].state.response, p)
                         else fate == Dropped(id - 1) && t.futures == s.futures)
  {
    ParsedCarries(p);
    if IsResponse(p) && !IsPoison(p) {
      var key := LookupKey(p.id.value);
      if HasEntry(s, key) { assert s.pending[key.value] == key.value - 1; }
    }
  }

  /** A call whose request cannot be written raises without an entry. A call whose timer fires
      gives up its future, done or not, and then raises without an entry. */
  lemma FailedCallsRaise(s: Client, id: int)
    requires Inv(s)
    ensures Enabled(s, SendFailed(id)) ==>
              var t := Step(s, SendFailed(id)); t.calls[id] == Raised && id !in t.pending
    ensures Enabled(s, TimerFires(id)) ==>
              var t := Step(s, TimerFires(id));
              && Enabled(t, TimeoutHandled(id)) && 1 <= id <= |t.futures|
              && t.futures[id - 1].state == (if s.futures[id - 1].state.Pending? then Cancelled
                  else s.futures[id - 1].state)
              && Step(t, TimeoutHandled(id)).calls[id] == Raised && id !in Step(t, TimeoutHandled(id)).pending
  {
    if id in s.calls { assert CallOk(s, id); }
  }

  /** A call cancelled from outside gives up its future if it waits for it, so that a late answer
      is dropped; cancelled while it is being sent it leaves the future for the answer. Its
      entry it leaves in either case. */
  lemma CancelledCallsGiveUp(s: Client, id: int)
    requires Inv(s) && Enabled(s, Abandon(id))
    ensures var t := Step(s, Abandon(id));
            && t.calls[id] == Abandoned && t.pending == s.pending && 1 <= id <= |t.futures| == |s.futures|
            && (s.calls[id].Waiting? && s.futures[id - 1].state.Pending? ==> t.futures[id - 1].state == Cancelled)
            && (!s.calls[id].Waiting? || !s.futures[id - 1].state.Pending? ==> t.futures == s.futures)
  {
    assert CallOk(s, id);
  }

  /** The reader ends in three ways, with every pending future failed and the table empty: at the
      end of file quietly, and at a line or an answer that it cannot read by an exception, which
      it raises again unless the client is closed. */
  lemma ReaderEnds(s: Client, line: Line)
    requires Inv(s)
    requires line.Eof? || line.Undecodable? || (line.Object? && Raises(line.payload))
    ensures var t := ReadStep(s, line);
            && t.reader == Finished(!line.Eof? && !s.closed) && t.pending == map[] && |t.futures| == |s.futures|
            && t.queue == s.queue && t.calls == s.calls
            && (forall f :: 0 <= f < |s.futures| ==>
                  t.futures[f].state
                  == if f + 1 in s.pending && s.futures[f].state.Pending? then
                       Failed(if line.Eof? then StdoutClosed else ReaderError)
                     else s.futures[f].state)
  {
    if line.Object? { ParsedCarries(line.payload); }
    forall f: nat | f < |s.futures| ensures f in PendingFutures(s.pending) <==> f + 1 in s.pending {
      EntriesHaveOwnValues(s, f);
    }
  }

  lemma EntriesHaveOwnValues(s: Client, f: nat)
    requires FuturesOk(s)
    ensures f in PendingFutures(s.pending) <==> f + 1 in s.pending
  {
    if f + 1 in s.pending { assert s.pending[f + 1] == f; }
  }

  /** Closing forgets the reader, whatever became of it, and nothing else; the next call starts
      another one. */
  lemma CloseForgetsTheReader(s: Client, stdinOpen: bool)
    ensures var t := Step(s, Close);
            && t == s.(closed := true, reader := NotStarted)
            && Step(t, Begin(stdinOpen)).reader.Running?
  {
  }

  /** A call begun while the reader is not running starts it, unless it has ended. */
  lemma CallsStartTheReader(s: Client, stdinOpen: bool)
    ensures var t := Step(s, Begin(stdinOpen));
            && (s.reader.Finished? ==> t.reader == s.reader)
            && (!s.reader.Finished? ==> t.reader.Running?)
            && (stdinOpen ==> s.nextId in t.calls && t.calls[s.nextId].Sending? && t.nextId == s.nextId + 1)
            && (!stdinOpen ==> t == s.(reader := t.reader))
  {
  }

  // ------------------------------------------------------------------ where objects go

  predicate IsCompleted(f: Fate) { f.Completed? }
  predicate IsDropped(f: Fate) { f.Dropped? }
  predicate IsQueued(f: Fate) { f.Queued? }
  predicate IsLost(f: Fate) { f.Lost? }

  lemma {:induction false} FatesPartition(fates: seq<Fate>)
    ensures |fates| == Count(fates, IsCompleted) + Count(fates, IsDropped) + Count(fates, IsQueued)
        + Count(fates, IsLost)
    ensures |Delivered(fates)| == Count(fates, IsQueued)
  {
    if fates != [] {
      var n := |fates| - 1;
      FatesPartition(fates[..n]);
      CountSnoc(fates, n, IsCompleted);
      CountSnoc(fates, n, IsDropped);
      CountSnoc(fates, n, IsQueued);
      CountSnoc(fates, n, IsLost);
      assert fates[..n + 1] == fates;
    }
  }

  /** Where an object belongs that is read in state s: a response with a key in the pending
      table goes to that call's future and, if that is done already, nowhere; any other object
      goes to the queue; poison is lost. */
  ghost predicate RightPlace(s: Client, p: Payload, fate: Fate) {
    && (fate.Lost? <==> IsPoison(p))
    && (!IsResponse(p) ==> fate == Queued(p))
    && (IsResponse(p) && !IsPoison(p) ==>
          && (forall f: nat :: fate == Completed(f) <==> LookupKey(p.id.value) == Some(f + 1) && Awaited(s, f + 1))
          && (forall f: nat :: fate == Dropped(f) <==>
              LookupKey(p.id.value) == Some(f + 1) && f + 1 in s.pending && !Awaited(s, f + 1))
          && (fate == Queued(ToPayload(FromPayload(p))) <==> !HasEntry(s, LookupKey(p.id.value)))
          && (fate.Queued? ==> fate.stored == ToPayload(FromPayload(p))))
  }

  predicate HasEntry(s: Client, key: Option<int>) {
    key.Some? && key.value in s.pending
  }

  /** The request is pending and its future not yet done. */
  predicate Awaited(s: Client, id: int) {
    id in s.pending && 1 <= id <= |s.futures| && s.futures[id - 1].state.Pending?
  }

  lemma AcceptIsRight(s: Client, p: Payload)
    requires Inv(s)
    ensures RightPlace(s, p, Accept(s, p).1)
  {
    if IsResponse(p) && !IsPoison(p) {
      var key := LookupKey(p.id.value);
      if HasEntry(s, key) { assert s.pending[key.value] == key.value - 1; }
    }
  }

  /** Reading an object completes the future that it belongs to with this very response, and
      leaves every other future, and every other entry, as it was; only poison fails others. */
  lemma ReadTouchesOnlyItsCall(s: Client, p: Payload)
    requires Inv(s) && !IsPoison(p)
    ensures var t := ReadStep(s, Object(p));
            && |t.futures| == |s.futures|
            && (forall f :: 0 <= f < |s.futures| ==>
                  t.futures[f].state == if IsResponse(p) && LookupKey(p.id.value) == Some(f + 1) && Awaited(s, f + 1)
                                        then Result(FromPayload(p)) else s.futures[f].state)
            && (forall id :: id in t.pending <==>
                id in s.pending && !(IsResponse(p) && LookupKey(p.id.value) == Some(id)))
            && t.calls == s.calls && t.drained == s.drained
  {
    if IsResponse(p) {
      var key := LookupKey(p.id.value);
      if HasEntry(s, key) { assert s.pending[key.value] == key.value - 1; }
    }
  }

  /** Object p, the k-th to arrive, was read by step j of the run. */
  ghost predicate ReadAt(s: Client, run: seq<Action>, j: nat, k: nat, p: Payload, fate: Fate) {
    && j < |run| && run[j] == Read(Object(p)) && Legal(s, run[..j])
    && |Run(s, run[..j]).arrivals| == k
    && RightPlace(Run(s, run[..j]), p, fate)
  }

  lemma ArrivesNow(s: Client, run: seq<Action>, p: Payload)
    requires Inv(s) && Legal(s, run) && run != [] && run[0] == Read(Object(p))
    ensures var t := Run(s, run);
            && |s.arrivals| < |t.arrivals| == |t.fates| && t.arrivals[|s.arrivals|] == p
            && ReadAt(s, run, 0, |s.arrivals|, p, t.fates[|s.arrivals|])
  {
    var next := Step(s, run[0]);
    StepKeeps(s, run[0]);
    RunKeeps(next, run[1..]);
    AcceptIsRight(s, p);
    assert run[..0] == [];
    assert next.arrivals[|s.arrivals|] == p && next.fates[|s.arrivals|] == Accept(s, p).1;
  }

  lemma ReadAtLater(s: Client, run: seq<Action>, j: nat, k: nat, p: Payload, fate: Fate)
    requires Legal(s, run) && run != [] && ReadAt(Step(s, run[0]), run[1..], j, k, p, fate)
    ensures ReadAt(s, run, j + 1, k, p, fate)
  {
    var front := run[..j + 1];
    assert front[0] == run[0] && front[1..] == run[1..][..j];
    assert Legal(s, front) && Run(s, front) == Run(Step(s, run[0]), run[1..][..j]);
  }

  /** Every object that arrives in a run is read by some step of it, and goes where it belongs
      in the state of that moment. */
  lemma {:induction false} ArrivalsGoWhereTheyBelong(s: Client, run: seq<Action>, k: nat) returns (j: nat)
    requires Inv(s) && Legal(s, run) && |s.arrivals| <= k < |Run(s, run).arrivals|
    ensures |Run(s, run).fates| == |Run(s, run).arrivals|
    ensures ReadAt(s, run, j, k, Run(s, run).arrivals[k], Run(s, run).fates[k])
    decreases |run|
  {
    var next := Step(s, run[0]);
    StepKeeps(s, run[0]);
    if |next.arrivals| > k {
      StepReadsOne(s, run[0]);
      ArrivesNow(s, run, run[0].line.payload);
      j := 0;
    } else {
      var i := ArrivalsGoWhereTheyBelong(next, run[1..], k);
      ReadAtLater(s, run, i, k, Run(next, run[1..]).arrivals[k], Run(next, run[1..]).fates[k]);
      j := i + 1;
    }
  }

  lemma StepReadsOne(s: Client, a: Action)
    requires Enabled(s, a)
    ensures |Step(s, a).arrivals| <= |s.arrivals| + 1
    ensures |Step(s, a).arrivals| > |s.arrivals| ==> a.Read? && a.line.Object?
  {
  }

  /** Every object read ends in exactly one place, and the place is the one where it belongs in
      the state in which it was read: it completes the one future with its id exactly if that
      is awaited, is dropped exactly if that was pending but cancelled, is queued exactly if it
      answers no pending request, and is lost exactly if it is poison. No two objects settle
      one future. Drains and the queue together are the queued objects in order of arrival. */
  lemma EveryObjectHasOnePlace(run: seq<Action>)
    requires Legal(INITIAL, run)
    ensures var s := Run(INITIAL, run);
            && AllInPlace(INITIAL, run, s)
            && (forall j, k, f: nat :: 0 <= j < k < |s.fates| && Settles(s.fates[j], f) ==> !Settles(s.fates[k], f))
            && |s.arrivals| == Count(s.fates, IsCompleted) + Count(s.fates, IsDropped)
                               + |s.drained| + |s.queue| + Count(s.fates, IsLost)
            && s.drained + s.queue == Delivered(s.fates)
  {
    InitialOk();
    RunKeeps(INITIAL, run);
    AllArrivalsInPlace(run);
    FatesCounted(Run(INITIAL, run));
  }

  /** The k-th object to arrive went where it belonged when it was read. */
  ghost predicate InPlace(s: Client, run: seq<Action>, t: Client, k: nat)
    requires k < |t.arrivals| && k < |t.fates|
  {
    exists j: nat :: ReadAt(s, run, j, k, t.arrivals[k], t.fates[k])
  }

  ghost predicate AllInPlace(s: Client, run: seq<Action>, t: Client) {
    && |t.fates| == |t.arrivals|
    && forall k :: 0 <= k < |t.arrivals| ==> InPlace(s, run, t, k)
  }

  lemma AllArrivalsInPlace(run: seq<Action>)
    requires Legal(INITIAL, run) && Inv(Run(INITIAL, run))
    ensures AllInPlace(INITIAL, run, Run(INITIAL, run))
  {
    InitialOk();
    var t := Run(INITIAL, run);
    assert HistoryOk(t) && FatesOk(t);
    forall k | 0 <= k < |t.arrivals| ensures InPlace(INITIAL, run, t, k) {
      var j := ArrivalsGoWhereTheyBelong(INITIAL, run, k);
    }
  }

  lemma FatesCounted(s: Client)
    requires s.drained + s.queue == Delivered(s.fates) && |s.fates| == |s.arrivals|
    ensures |s.arrivals| == Count(s.fates, IsCompleted) + Count(s.fates, IsDropped)
                            + |s.drained| + |s.queue| + Count(s.fates, IsLost)
  {
    FatesPartition(s.fates);
    assert |s.drained + s.queue| == |s.drained| + |s.queue|;
  }

  /** Poison is lost, and takes the reader with it. */
  lemma PoisonIsLost()
    ensures var p := Payload(Some(CompoundId), Some(NULL), NoError, NULL);
            var run := [Begin(true), Read(Object(p))];
            && Legal(INITIAL, run)
            && Run(INITIAL, run).fates == [Lost] && Run(INITIAL, run).reader == Finished(true)
            && Run(INITIAL, run).futures == [Future(1, Failed(ReaderError))]
  {
    var p := Payload(Some(CompoundId), Some(NULL), NoError, NULL);
    var s1 := BeginStep(INITIAL, true);
    var s2 := ReadStep(s1, Object(p));
    var rest := [Read(Object(p))];
    assert ([Begin(true)] + rest)[1..] == rest && rest[1..] == [];
    assert Legal(s2, []) && Legal(s1, rest) && Legal(INITIAL, [Begin(true)] + rest);
    assert Run(s2, []) == s2 && Run(s1, rest) == s2;
    assert [Begin(true), Read(Object(p))] == [Begin(true)] + rest;
    assert s1.pending[1] == 0 && 0 in PendingFutures(s1.pending);
  }

  // ------------------------------------------------------------------ answers reach their callers

  /** A call on which neither its timer nor a cancellation falls. */
  predicate Undisturbed(run: seq<Action>, id: int) {
    forall i :: 0 <= i < |run| ==> run[i] != TimerFires(id) && run[i] != Abandon(id)
  }

  /** The call waits on a future that holds r, or has returned r. */
  predicate Answered(s: Client, id: int, r: Response) {
    && 1 <= id <= |s.futures| && id in s.calls
    && s.futures[id - 1].state == Result(r)
    && (s.calls[id] == Waiting(id - 1) || s.calls[id] == Returned(r))
  }

  lemma AnsweredAfterStep(s: Client, a: Action, id: int, r: Response)
    requires FuturesOk(s) && Enabled(s, a) && Answered(s, id, r) && a != TimerFires(id) && a != Abandon(id)
    ensures Answered(Step(s, a), id, r)
    ensures a == Wake(id) ==> Step(s, a).calls[id] == Returned(r)
  {
  }

  lemma {:induction false} AnsweredAlongRun(s: Client, run: seq<Action>, id: int, r: Response)
    requires Inv(s) && Legal(s, run) && Answered(s, id, r) && Undisturbed(run, id)
    ensures Answered(Run(s, run), id, r)
    ensures Wake(id) in run ==> Run(s, run).calls[id] == Returned(r)
    decreases |run|
  {
    if run != [] {
      StepKeeps(s, run[0]);
      AnsweredAfterStep(s, run[0], id, r);
      AnsweredAlongRun(Step(s, run[0]), run[1..], id, r);
      if run[0] == Wake(id) { ReturnedStays(Step(s, run[0]), run[1..], id); }
    }
  }

  lemma {:induction false} ReturnedStays(s: Client, run: seq<Action>, id: int)
    requires Inv(s) && Legal(s, run) && id in s.calls && s.calls[id].Returned?
    ensures id in Run(s, run).calls && Run(s, run).calls[id] == s.calls[id]
    decreases |run|
  {
    if run != [] {
      StepKeeps(s, run[0]);
      ReturnedAfterStep(s, run[0], id);
      ReturnedStays(Step(s, run[0]), run[1..], id);
    }
  }

  lemma ReturnedAfterStep(s: Client, a: Action, id: int)
    requires FuturesOk(s) && Enabled(s, a) && id in s.calls && s.calls[id].Returned?
    ensures id in Step(s, a).calls && Step(s, a).calls[id] == s.calls[id]
  {
  }

  lemma AnswerIsRead(s: Client, p: Payload, id: int)
    requires Inv(s) && id in s.pending && id in s.calls && s.calls[id].Waiting?
    requires IsResponse(p) && !IsPoison(p) && LookupKey(p.id.value) == Some(id)
    ensures Answered(ReadStep(s, Object(p)), id, FromPayload(p))
  {
    assert CallOk(s, id);
    ReadTouchesOnlyItsCall(s, p);
  }

  lemma AnsweredReturns(t: Client, id: int, r: Response)
    requires Answered(t, id, r) && t.calls[id].Waiting?
    ensures Enabled(t, Wake(id)) && Step(t, Wake(id)).calls[id] == Returned(r)
  {
  }

  /** The call has returned a response that carries what the object holds. */
  ghost predicate ReturnedWith(call: Phase, p: Payload) {
    call.Returned? && Carries(call.response, p)
  }

  /** The client answers: when the response to a pending request is read while its call waits,
      then however the run goes on, unless the call's timer fires or it is cancelled, the call
      waits for nothing but its turn and returns this response. */
  lemma AnswersReachTheirCallers(before: seq<Action>, p: Payload, later: seq<Action>, id: int)
    requires Legal(INITIAL, before) && Run(INITIAL, before).reader.Running?
    requires id in Run(INITIAL, before).pending && id in Run(INITIAL, before).calls
        && Run(INITIAL, before).calls[id].Waiting?
    requires IsAnswer(p) && !Raises(p) && LookupKey(p.id.value) == Some(id)
    requires Legal(ReadStep(Run(INITIAL, before), Object(p)), later) && Undisturbed(later, id)
    ensures var t := Run(ReadStep(Run(INITIAL, before), Object(p)), later);
            && id in t.calls && (t.calls[id].Waiting? || ReturnedWith(t.calls[id], p))
            && (Wake(id) in later ==> ReturnedWith(t.calls[id], p))
            && (t.calls[id].Waiting? ==> Enabled(t, Wake(id)) && ReturnedWith(Step(t, Wake(id)).calls[id], p))
  {
    InitialOk();
    RunKeeps(INITIAL, before);
    ParsedCarries(p);
    var s := Run(INITIAL, before);
    AnswerIsRead(s, p, id);
    AcceptKeeps(s, p);
    var u := ReadStep(s, Object(p));
    AnsweredAlongRun(u, later, id, FromPayload(p));
    if Run(u, later).calls[id].Waiting? { AnsweredReturns(Run(u, later), id, FromPayload(p)); }
  }

  /** A second answer to an answered or dropped id is not an error to the client: it is
      queued among the notifications. */
  lemma SecondAnswerIsQueued(run: seq<Action>, j: nat, f: nat, p: Payload)
    requires Legal(INITIAL, run)
    requires j < |Run(INITIAL, run).fates| && Settles(Run(INITIAL, run).fates[j], f)
    requires IsResponse(p) && !IsPoison(p) && LookupKey(p.id.value) == Some(f + 1)
    ensures Accept(Run(INITIAL, run), p).1 == Queued(ToPayload(FromPayload(p)))
  {
    InitialOk();
    RunKeeps(INITIAL, run);
    SettledIsOut(Run(INITIAL, run), j, f);
  }

  lemma SettledIsOut(s: Client, j: nat, f: nat)
    requires Inv(s) && j < |s.fates| && Settles(s.fates[j], f)
    ensures f + 1 !in s.pending
  {
    assert FatesOk(s);
    assert FateOk(s, s.arrivals[j], s.fates[j]);
  }

  // ------------------------------------------------------------------ end of the stream

  /** End of file fails every future that a call still waits for, and empties the table. */
  lemma EofFailsEveryWaiter(run: seq<Action>, id: int)
    requires Legal(INITIAL, run) && Run(INITIAL, run).reader.Running?
    requires id in Run(INITIAL, run).calls && Run(INITIAL, run).calls[id].Waiting?
    requires id in Run(INITIAL, run).pending
    ensures var t := ReadStep(Run(INITIAL, run), Eof);
            && t.pending == map[] && 1 <= id <= |t.futures|
            && t.futures[id - 1].state == Failed(StdoutClosed)
            && Enabled(t, Wake(id)) && Step(t, Wake(id)).calls[id] == Raised
  {
    InitialOk();
    RunKeeps(INITIAL, run);
    EofFailsWaiter(Run(INITIAL, run), id);
  }

  lemma EofFailsWaiter(s: Client, id: int)
    requires Inv(s) && id in s.calls && s.calls[id].Waiting? && id in s.pending
    ensures var t := ReadStep(s, Eof);
            && t.pending == map[] && 1 <= id <= |t.futures|
            && t.futures[id - 1].state == Failed(StdoutClosed)
            && Enabled(t, Wake(id)) && Step(t, Wake(id)).calls[id] == Raised
  {
    assert CallOk(s, id);
    assert id - 1 in PendingFutures(s.pending) by { assert s.pending[id] == id - 1; }
  }

  lemma EndedReaderStep(s: Client, a: Action)
    requires FuturesOk(s) && s.reader.Finished? && Enabled(s, a) && !a.Close?
    ensures var t := Step(s, a);
            && t.reader.Finished? && t.arrivals == s.arrivals && |s.futures| <= |t.futures|
            && (forall f :: 0 <= f < |t.futures| && t.futures[f].state.Result? ==>
                  f < |s.futures| && t.futures[f] == s.futures[f])
  {
    assert !a.Read?;
  }

  /** The reader is started once: after it has ended, and until the client is closed, no call
      made later ever gets a response. */
  lemma {:induction false} EndedReaderAnswersNoNewCall(s: Client, run: seq<Action>)
    requires Inv(s) && s.reader.Finished? && Legal(s, run)
    requires forall i :: 0 <= i < |run| ==> !run[i].Close?
    ensures var t := Run(s, run);
            && t.reader.Finished? && t.arrivals == s.arrivals && |s.futures| <= |t.futures|
            && (forall f :: 0 <= f < |t.futures| && t.futures[f].state.Result? ==>
                f < |s.futures| && t.futures[f] == s.futures[f])
    decreases |run|
  {
    if run != [] {
      var u := Step(s, run[0]);
      EndedReaderStep(s, run[0]);
      StepKeeps(s, run[0]);
      EndedReaderAnswersNoNewCall(u, run[1..]);
    }
  }
}
