/** The JSON-RPC client of the Codex bridge (app/codex_bridge/jsonrpc_client.py).

    The client is cooperative: a coroutine runs undisturbed between two awaits. Each such
    segment is one step here, so a run of steps is one interleaving of calls, responses,
    timeouts, end of file and drains. */
module JsonRpc {
  import opened Seqs

  // ------------------------------------------------------------------ wire values

  datatype Json = Json(text: string)

  /** Any JSON value that may stand in an `id` member. */
  datatype JsonId =
    | IntId(n: int) | StrId(s: string) | NullId | BoolId(b: bool) | FloatId(x: real)
    | CompoundId  // an array or an object: not hashable, so no dictionary key

  /** The `error` member: absent, an object with a code that `int` reads and a message, any
      other object, or some other JSON value. */
  datatype ErrorMember = NoError | ErrorObject(code: int, message: string) | BadErrorObject | OtherError

  /** One JSON object as read from the peer. `rest` stands for every other member. */
  datatype Payload = Payload(id: Option<JsonId>, result: Option<Json>, error: ErrorMember, rest: Json)

  datatype Response = Response(requestId: JsonId, result: Option<Json>, error: Option<(int, string)>)

  const NULL := Json("null")

  /** `"id" in payload and ("result" in payload or "error" in payload)` */
  predicate IsResponse(p: Payload) {
    p.id.Some? && (p.result.Some? || !p.error.NoError?)
  }

  /** A response-shaped object on which the reader itself raises: its error object has no
      code or message, or a code that is no integer to `int`, or its id cannot be looked up in
      a dictionary. */
  predicate IsPoison(p: Payload) {
    IsResponse(p) && (p.error.BadErrorObject? || p.id.value.CompoundId?)
  }

  /** `JsonRpcResponse.from_dict` */
  function FromPayload(p: Payload): Response
    requires IsResponse(p)
  {
    Response(p.id.value, p.result, if p.error.ErrorObject? then Some((p.error.code, p.error.message)) else None)
  }

  /** `JsonRpcResponse.to_dict` */
  function ToPayload(r: Response): Payload {
    match r.error
    case Some((code, message)) => Payload(Some(r.requestId), None, ErrorObject(code, message), NULL)
    case None => Payload(Some(r.requestId), Some(r.result.GetOr(NULL)), NoError, NULL)
  }

  /** The integer key that a Python dictionary finds under this id: `1`, `True` and `1.0`
      are the same key. */
  function LookupKey(id: JsonId): Option<int> {
    match id
    case IntId(n) => Some(n)
    case BoolId(b) => Some(if b then 1 else 0)
    case FloatId(x) => if x == x.Floor as real then Some(x.Floor) else None
    case _ => None
  }

  /** Section 5 of the JSON-RPC 2.0 Specification with section 4's rule on ids: a string,
      an integral number or null. */
  predicate ConformingId(id: JsonId) {
    id.IntId? || id.StrId? || id.NullId?
  }

  // ------------------------------------------------------------------ client state

  datatype Failure = StdoutClosed | ReaderError

  datatype FutureState = Pending | Result(response: Response) | Failed(failure: Failure) | Cancelled

  /** A one-shot future; `owner` is the request id for which it was made. */
  datatype Future = Future(owner: int, state: FutureState)

  /** Where the coroutine of one call stands. */
  datatype Phase =
    | Sending(future: nat)         // waiting for the request to be written
    | Waiting(future: nat)         // inside wait_for
    | TimedOut                     // the timer fired, the handler has not run yet
    | Returned(response: Response)
    | Raised                       // left through `except Exception`
    | Abandoned                    // cancelled from outside: CancelledError is no Exception

  /** The reader task: it ends at end of file, or by an exception, which it raises again unless
      the client has been closed before. */
  datatype Reader = NotStarted | Running | Finished(raised: bool)

  /** What became of one JSON object read from the peer. */
  datatype Fate = Completed(future: nat) | Dropped(future: nat) | Queued(stored: Payload) | Lost

  datatype Client = Client(
    nextId: int,
    futures: seq<Future>,
    pending: map<int, nat>,
    calls: map<int, Phase>,
    queue: seq<Payload>,
    reader: Reader,
    closed: bool,
    arrivals: seq<Payload>,
    fates: seq<Fate>,
    drained: seq<Payload>)

  const INITIAL := Client(1, [], map[], map[], [], NotStarted, false, [], [], [])

  datatype Line = Eof | Undecodable | NotAnObject | Object(payload: Payload)

  datatype Action =
    | Begin(stdinOpen: bool)
    | Sent(id: int)
    | SendFailed(id: int)
    | Wake(id: int)
    | TimerFires(id: int)
    | TimeoutHandled(id: int)
    | Abandon(id: int)
    | Read(line: Line)
    | Drain
    | Close

  predicate InPhase(s: Client, id: int) {
    id in s.calls && match s.calls[id]
                     case Sending(f) => f < |s.futures|
                     case Waiting(f) => f < |s.futures|
                     case _ => true
  }

  predicate Enabled(s: Client, a: Action) {
    match a
    case Begin(_) => true
    case Sent(id) => InPhase(s, id) && s.calls[id].Sending?
    case SendFailed(id) => InPhase(s, id) && s.calls[id].Sending?
    case Wake(id) => InPhase(s, id) && s.calls[id].Waiting? && !s.futures[s.calls[id].future].state.Pending?
    case TimerFires(id) => InPhase(s, id) && s.calls[id].Waiting?
    case TimeoutHandled(id) => InPhase(s, id) && s.calls[id].TimedOut?
    case Abandon(id) => InPhase(s, id) && (s.calls[id].Sending? || s.calls[id].Waiting? || s.calls[id].TimedOut?)
    case Read(_) => s.reader.Running?
    case Drain => true
    case Close => true
  }

  // ------------------------------------------------------------------ steps

  function Pop(pending: map<int, nat>, id: int): map<int, nat> {
    map k | k in pending && k != id :: pending[k]
  }

  function EnsureReader(r: Reader): Reader {
    if r.NotStarted? then Running else r
  }

  function BeginStep(s: Client, stdinOpen: bool): Client {
    var started := s.(reader := EnsureReader(s.reader));
    if !stdinOpen then started
    else started.(nextId := s.nextId + 1,
                  futures := s.futures + [Future(s.nextId, Pending)],
                  pending := s.pending[s.nextId := |s.futures|],
                  calls := s.calls[s.nextId := Sending(|s.futures|)])
  }

  function WakeStep(s: Client, id: int): Client
    requires Enabled(s, Wake(id))
  {
    match s.futures[s.calls[id].future].state
    case Result(r) => s.(calls := s.calls[id := Returned(r)])
    case Failed(_) => s.(calls := s.calls[id := Raised], pending := Pop(s.pending, id))
    case Cancelled => s.(calls := s.calls[id := Abandoned])
  }

  /** Cancels the future that a call awaits, if it is not done. */
  function CancelFuture(s: Client, f: nat): Client
    requires f < |s.futures|
  {
    if s.futures[f].state.Pending? then s.(futures := s.futures[f := s.futures[f].(state := Cancelled)]) else s
  }

  function AbandonStep(s: Client, id: int): Client
    requires Enabled(s, Abandon(id))
  {
    var awaited := if s.calls[id].Waiting? then CancelFuture(s, s.calls[id].future) else s;
    awaited.(calls := s.calls[id := Abandoned])
  }

  /** The futures that the pending table holds. */
  function PendingFutures(pending: map<int, nat>): set<nat> {
    set id | id in pending :: pending[id]
  }

  /** `_fail_pending` */
  function FailAll(s: Client, failure: Failure): Client {
    s.(pending := map[],
       futures := seq(|s.futures|, i requires 0 <= i < |s.futures| =>
         if i in PendingFutures(s.pending) && s.futures[i].state.Pending? then s.futures[i].(state := Failed(failure))
         else s.futures[i]))
  }

  /** `_resolve_response`, after the response has been parsed. */
  function Deliver(s: Client, p: Payload): (Client, Fate)
    requires IsResponse(p)
  {
    var r := FromPayload(p);
    var key := LookupKey(r.requestId);
    if key.Some? && key.value in s.pending && s.pending[key.value] < |s.futures| then
      var f := s.pending[key.value];
      var popped := s.(pending := Pop(s.pending, key.value));
      if s.futures[f].state.Pending? then
        (popped.(futures := s.futures[f := s.futures[f].(state := Result(r))]), Completed(f))
      else (popped, Dropped(f))
    else (s.(queue := s.queue + [ToPayload(r)]), Queued(ToPayload(r)))
  }

  /** One JSON object out of the reader loop. */
  function Accept(s: Client, p: Payload): (Client, Fate) {
    if !IsResponse(p) then (s.(queue := s.queue + [p]), Queued(p))
    else if IsPoison(p) then (FailAll(s, ReaderError).(reader := Finished(!s.closed)), Lost)
    else Deliver(s, p)
  }

  function ReadStep(s: Client, line: Line): Client {
    match line
    case Eof => FailAll(s, StdoutClosed).(reader := Finished(false))
    case Undecodable => FailAll(s, ReaderError).(reader := Finished(!s.closed))
    case NotAnObject => s
    case Object(p) =>
      var (after, fate) := Accept(s, p);
      after.(arrivals := s.arrivals + [p], fates := s.fates + [fate])
  }

  function Step(s: Client, a: Action): Client
    requires Enabled(s, a)
  {
    match a
    case Begin(stdinOpen) => BeginStep(s, stdinOpen)
    case Sent(id) => s.(calls := s.calls[id := Waiting(s.calls[id].future)])
    case SendFailed(id) => s.(calls := s.calls[id := Raised], pending := Pop(s.pending, id))
    case Wake(id) => WakeStep(s, id)
    case TimerFires(id) => CancelFuture(s, s.calls[id].future).(calls := s.calls[id := TimedOut])
    case TimeoutHandled(id) => s.(calls := s.calls[id := Raised], pending := Pop(s.pending, id))
    case Abandon(id) => AbandonStep(s, id)
    case Read(line) => ReadStep(s, line)
    case Drain => s.(queue := [], drained := s.drained + s.queue)
    case Close => s.(closed := true, reader := NotStarted)
  }

  // ------------------------------------------------------------------ the invariant

  ghost predicate FuturesOk(s: Client) {
    && s.nextId == |s.futures| + 1
    && (forall f :: 0 <= f < |s.futures| ==> s.futures[f].owner == f + 1)
    && (forall id :: id in s.pending ==> 1 <= id < s.nextId && s.pending[id] == id - 1)
    && (forall id :: id in s.calls <==> 1 <= id < s.nextId)
  }

  /** What the phase of a call says about its future and its entry in the pending table. */
  ghost predicate CallOk(s: Client, id: int)
    requires FuturesOk(s) && id in s.calls
  {
    var future := s.futures[id - 1].state;
    && (match s.calls[id]
        case Sending(f) => f == id - 1 && !future.Cancelled?
        case Waiting(f) => f == id - 1 && !future.Cancelled?
        case TimedOut => !future.Pending?
        case Returned(r) => future == Result(r)
        case Raised => id !in s.pending
        case Abandoned => true)
    && (id in s.pending ==> future.Pending? || (future.Cancelled? && (s.calls[id].TimedOut? || s.calls[id].Abandoned?)))
  }

  predicate Settles(fate: Fate, f: nat) {
    fate == Completed(f) || fate == Dropped(f)
  }

  /** The place to which one object went agrees with the object and with the futures. */
  ghost predicate FateOk(s: Client, p: Payload, fate: Fate)
    requires FuturesOk(s)
  {
    match fate
    case Completed(f) =>
      && f < |s.futures| && IsResponse(p) && !IsPoison(p)
      && s.futures[f].state == Result(FromPayload(p))
      && LookupKey(p.id.value) == Some(s.futures[f].owner)
      && s.futures[f].owner !in s.pending
    case Dropped(f) =>
      && f < |s.futures| && IsResponse(p) && !IsPoison(p)
      && s.futures[f].state.Cancelled?
      && LookupKey(p.id.value) == Some(s.futures[f].owner)
      && s.futures[f].owner !in s.pending
    case Queued(stored) =>
      && !IsPoison(p)
      && stored == (if IsResponse(p) then ToPayload(FromPayload(p)) else p)
    case Lost => IsPoison(p)
  }

  function Delivered(fates: seq<Fate>): seq<Payload> {
    if fates == [] then []
    else
      var last := fates[|fates| - 1];
      Delivered(fates[..|fates| - 1]) + (if last.Queued? then [last.stored] else [])
  }

  ghost predicate FatesOk(s: Client)
    requires FuturesOk(s)
  {
    |s.fates| == |s.arrivals| && forall k :: 0 <= k < |s.arrivals| ==> FateOk(s, s.arrivals[k], s.fates[k])
  }

  /** No future is settled by two objects. */
  ghost predicate SettledOnce(fates: seq<Fate>) {
    forall j, k, f: nat :: 0 <= j < k < |fates| && Settles(fates[j], f) ==> !Settles(fates[k], f)
  }

  ghost predicate ResultsOk(s: Client) {
    forall f :: 0 <= f < |s.futures| && s.futures[f].state.Result? ==> Completed(f) in s.fates
  }

  ghost predicate HistoryOk(s: Client)
    requires FuturesOk(s)
  {
    && FatesOk(s) && SettledOnce(s.fates) && ResultsOk(s)
    && s.drained + s.queue == Delivered(s.fates)
  }

  ghost predicate Inv(s: Client) {
    && FuturesOk(s)
    && (forall id :: id in s.calls ==> CallOk(s, id))
    && HistoryOk(s)
  }

  // ------------------------------------------------------------------ how states evolve

  /** t may come after s: nothing allocated is forgotten, nothing finished changes, nothing
      that left the pending table comes back, and histories only grow. */
  ghost predicate Evolves(s: Client, t: Client) {
    && s.nextId <= t.nextId && |s.futures| <= |t.futures|
    && (forall f :: 0 <= f < |s.futures| ==> t.futures[f].owner == s.futures[f].owner)
    && (forall f :: 0 <= f < |s.futures| && !s.futures[f].state.Pending? ==> t.futures[f] == s.futures[f])
    && (forall id :: id in t.pending && id < s.nextId ==> id in s.pending)
    && s.arrivals <= t.arrivals && s.fates <= t.fates && s.drained <= t.drained
  }

  lemma EvolvesTransitive(s: Client, t: Client, u: Client)
    requires Evolves(s, t) && Evolves(t, u)
    ensures Evolves(s, u)
  {
  }

  ghost predicate Legal(s: Client, run: seq<Action>)
    decreases |run|
  {
    run == [] || (Enabled(s, run[0]) && Legal(Step(s, run[0]), run[1..]))
  }

  function Run(s: Client, run: seq<Action>): Client
    requires Legal(s, run)
    decreases |run|
  {
    if run == [] then s else Run(Step(s, run[0]), run[1..])
  }

  // ------------------------------------------------------------------ steps keep the invariant

  /** t differs from s outside the history: futures only move from pending to failed or
      cancelled, and only fresh ids enter the pending table. */
  ghost predicate Quiet(s: Client, t: Client) {
    && t.fates == s.fates && t.arrivals == s.arrivals
    && |s.futures| <= |t.futures|
    && (forall f :: 0 <= f < |s.futures| && !s.futures[f].state.Pending? ==> t.futures[f] == s.futures[f])
    && (forall f :: 0 <= f < |t.futures| && t.futures[f].state.Result? ==>
        f < |s.futures| && s.futures[f] == t.futures[f])
    && (forall id :: id in t.pending && id < s.nextId ==> id in s.pending)
  }

  lemma QuietKeepsHistory(s: Client, t: Client)
    requires FuturesOk(s) && HistoryOk(s) && FuturesOk(t) && Quiet(s, t)
    requires t.drained + t.queue == s.drained + s.queue
    ensures HistoryOk(t)
  {
    forall k | 0 <= k < |s.arrivals| ensures FateOk(t, t.arrivals[k], t.fates[k]) {
      assert FateOk(s, s.arrivals[k], s.fates[k]);
    }
  }

  lemma BeginKeeps(s: Client, stdinOpen: bool)
    requires Inv(s)
    ensures Inv(BeginStep(s, stdinOpen)) && Evolves(s, BeginStep(s, stdinOpen))
  {
    var t := BeginStep(s, stdinOpen);
    assert FuturesOk(t);
    forall id | id in t.calls ensures CallOk(t, id) {
      if id in s.calls { assert CallOk(s, id); }
    }
    QuietKeepsHistory(s, t);
  }

  lemma FailAllKeeps(s: Client, failure: Failure)
    requires Inv(s)
    ensures Inv(FailAll(s, failure)) && Evolves(s, FailAll(s, failure))
    ensures FailAll(s, failure).pending == map[]
  {
    var t := FailAll(s, failure);
    assert FuturesOk(t);
    forall id | id in t.calls ensures CallOk(t, id) {
      assert CallOk(s, id);
    }
    QuietKeepsHistory(s, t);
  }

  /** One call moves to another phase; its future may be cancelled and its entry dropped. */
  ghost predicate OneCallMoves(s: Client, t: Client, id: int) {
    && id in s.calls && id in t.calls
    && t.nextId == s.nextId && |t.futures| == |s.futures|
    && (forall f :: 0 <= f < |s.futures| && f != id - 1 ==> t.futures[f] == s.futures[f])
    && (forall k :: k in t.pending ==> k in s.pending && t.pending[k] == s.pending[k])
    && (forall k :: k != id ==> (k in t.pending <==> k in s.pending))
    && t.calls == s.calls[id := t.calls[id]]
    && t.fates == s.fates && t.arrivals == s.arrivals && t.drained == s.drained && t.queue == s.queue
  }

  lemma OneCallFutures(s: Client, t: Client, id: int)
    requires FuturesOk(s) && OneCallMoves(s, t, id)
    requires 1 <= id < s.nextId ==> t.futures[id - 1].owner == s.futures[id - 1].owner
    ensures FuturesOk(t)
  {
  }

  lemma OneCallKeeps(s: Client, t: Client, id: int)
    requires Inv(s) && OneCallMoves(s, t, id) && FuturesOk(t) && CallOk(t, id)
    requires t.futures[id - 1] == s.futures[id - 1]
        || (s.futures[id - 1].state.Pending? && !t.futures[id - 1].state.Result?)
    ensures Inv(t) && Evolves(s, t)
  {
    forall k | k in t.calls ensures CallOk(t, k) {
      if k != id { assert CallOk(s, k); }
    }
    QuietKeepsHistory(s, t);
  }

  lemma PhaseStepKeeps(s: Client, a: Action)
    requires Inv(s) && Enabled(s, a)
    requires a.Sent? || a.SendFailed? || a.Wake? || a.TimeoutHandled?
    ensures Inv(Step(s, a)) && Evolves(s, Step(s, a))
  {
    assert CallOk(s, a.id);
    OneCallFutures(s, Step(s, a), a.id);
    OneCallKeeps(s, Step(s, a), a.id);
  }

  lemma CancelStepKeeps(s: Client, a: Action)
    requires Inv(s) && Enabled(s, a)
    requires a.TimerFires? || a.Abandon?
    ensures Inv(Step(s, a)) && Evolves(s, Step(s, a))
  {
    assert CallOk(s, a.id);
    OneCallFutures(s, Step(s, a), a.id);
    OneCallKeeps(s, Step(s, a), a.id);
  }

  /** One more object in the history. */
  function Logged(s: Client, p: Payload, fate: Fate): Client {
    s.(arrivals := s.arrivals + [p], fates := s.fates + [fate])
  }

  lemma LogKeepsFates(s: Client, t: Client, p: Payload, fate: Fate)
    requires FuturesOk(s) && FatesOk(s) && SettledOnce(s.fates) && FuturesOk(t)
    requires t.arrivals == s.arrivals + [p] && t.fates == s.fates + [fate]
    requires |s.futures| == |t.futures|
    requires forall f :: 0 <= f < |s.futures| && !s.futures[f].state.Pending? ==> t.futures[f] == s.futures[f]
    requires forall id :: id in t.pending ==> id in s.pending
    requires FateOk(t, p, fate)
    requires fate.Completed? || fate.Dropped? ==> fate.future < |s.futures| && s.futures[fate.future].owner in s.pending
    ensures FatesOk(t) && SettledOnce(t.fates)
  {
    forall k | 0 <= k < |t.arrivals| ensures FateOk(t, t.arrivals[k], t.fates[k]) {
      if k < |s.arrivals| { assert FateOk(s, s.arrivals[k], s.fates[k]); }
    }
    forall j, f: nat | 0 <= j < |s.fates| && Settles(s.fates[j], f) ensures !Settles(fate, f) {
      assert FateOk(s, s.arrivals[j], s.fates[j]);
    }
  }

  lemma DeliveredSnoc(fates: seq<Fate>, fate: Fate)
    ensures Delivered(fates + [fate]) == Delivered(fates) + (if fate.Queued? then [fate.stored] else [])
  {
    assert (fates + [fate])[..|fates|] == fates;
  }

  lemma EnqueueKeeps(s: Client, p: Payload, stored: Payload)
    requires Inv(s) && FateOk(s, p, Queued(stored))
    ensures var t := Logged(s.(queue := s.queue + [stored]), p, Queued(stored));
            Inv(t) && Evolves(s, t)
  {
    var t := Logged(s.(queue := s.queue + [stored]), p, Queued(stored));
    forall id | id in t.calls ensures CallOk(t, id) {
      assert CallOk(s, id);
    }
    LogKeepsFates(s, t, p, Queued(stored));
    DeliveredSnoc(s.fates, Queued(stored));
    assert t.drained + t.queue == (s.drained + s.queue) + [stored];
  }

  lemma LoseKeeps(s: Client, p: Payload)
    requires Inv(s) && IsPoison(p)
    ensures var t := Logged(FailAll(s, ReaderError).(reader := Finished(!s.closed)), p, Lost);
            Inv(t) && Evolves(s, t)
  {
    var u := FailAll(s, ReaderError);
    FailAllKeeps(s, ReaderError);
    var t := Logged(u.(reader := Finished(!s.closed)), p, Lost);
    forall id | id in t.calls ensures CallOk(t, id) {
      assert CallOk(u, id);
    }
    LogKeepsFates(u, t, p, Lost);
    DeliveredSnoc(s.fates, Lost);
  }

  lemma SettleKeeps(s: Client, p: Payload, id: int)
    requires Inv(s) && IsResponse(p) && !IsPoison(p) && LookupKey(p.id.value) == Some(id) && id in s.pending
    ensures var (after, fate) := Deliver(s, p);
            Inv(Logged(after, p, fate)) && Evolves(s, Logged(after, p, fate))
  {
    var (after, fate) := Deliver(s, p);
    var t := Logged(after, p, fate);
    assert CallOk(s, id);
    assert FuturesOk(t);
    forall k | k in t.calls ensures CallOk(t, k) {
      assert CallOk(s, k);
    }
    LogKeepsFates(s, t, p, fate);
    DeliveredSnoc(s.fates, fate);
    forall f | 0 <= f < |t.futures| && t.futures[f].state.Result? ensures Completed(f) in t.fates {
      assert Completed(f) in s.fates || t.fates[|s.fates|] == Completed(f);
    }
  }

  lemma AcceptKeeps(s: Client, p: Payload)
    requires Inv(s)
    ensures Inv(ReadStep(s, Object(p))) && Evolves(s, ReadStep(s, Object(p)))
  {
    var (after, fate) := Accept(s, p);
    assert ReadStep(s, Object(p)) == Logged(after, p, fate);
    if !IsResponse(p) {
      EnqueueKeeps(s, p, p);
    } else if IsPoison(p) {
      LoseKeeps(s, p);
    } else {
      DeliverKeeps(s, p);
    }
  }

  lemma DeliverKeeps(s: Client, p: Payload)
    requires Inv(s) && IsResponse(p) && !IsPoison(p)
    ensures var (after, fate) := Deliver(s, p);
            Inv(Logged(after, p, fate)) && Evolves(s, Logged(after, p, fate))
  {
    var key := LookupKey(p.id.value);
    if key.Some? && key.value in s.pending {
      SettleKeeps(s, p, key.value);
    } else {
      EnqueueKeeps(s, p, ToPayload(FromPayload(p)));
    }
  }

  lemma StepKeeps(s: Client, a: Action)
    requires Inv(s) && Enabled(s, a)
    ensures Inv(Step(s, a)) && Evolves(s, Step(s, a))
  {
    var t := Step(s, a);
    match a
    case Begin(stdinOpen) => BeginKeeps(s, stdinOpen);
    case Read(line) => ReadKeeps(s, line);
    case Drain =>
      assert t.drained + t.queue == s.drained + s.queue;
      SameTablesKeep(s, t);
    case Close => SameTablesKeep(s, t);
    case TimerFires(_) => CancelStepKeeps(s, a);
    case Abandon(_) => CancelStepKeeps(s, a);
    case _ => PhaseStepKeeps(s, a);
  }

  lemma ReadKeeps(s: Client, line: Line)
    requires Inv(s)
    ensures Inv(ReadStep(s, line)) && Evolves(s, ReadStep(s, line))
  {
    match line
    case Object(p) => AcceptKeeps(s, p);
    case Eof =>
      FailAllKeeps(s, StdoutClosed);
      FinishReaderKeeps(s, FailAll(s, StdoutClosed), ReadStep(s, line));
    case Undecodable =>
      FailAllKeeps(s, ReaderError);
      FinishReaderKeeps(s, FailAll(s, ReaderError), ReadStep(s, line));
    case NotAnObject =>
  }

  lemma FinishReaderKeeps(s: Client, u: Client, t: Client)
    requires Inv(u) && Evolves(s, u) && t == u.(reader := t.reader)
    ensures Inv(t) && Evolves(s, t)
  {
    SameTablesKeep(u, t);
  }

  lemma SameTablesKeep(s: Client, t: Client)
    requires Inv(s)
    requires t == s.(reader := t.reader, closed := t.closed, queue := t.queue, drained := t.drained)
    requires t.drained + t.queue == s.drained + s.queue
    ensures Inv(t)
  {
    assert forall id :: id in s.calls && CallOk(s, id) ==> CallOk(t, id);
    assert forall k :: 0 <= k < |s.arrivals| && FateOk(s, s.arrivals[k], s.fates[k]) ==>
        FateOk(t, t.arrivals[k], t.fates[k]);
  }

  lemma {:induction false} RunKeeps(s: Client, run: seq<Action>)
    requires Inv(s) && Legal(s, run)
    ensures Inv(Run(s, run)) && Evolves(s, Run(s, run))
    decreases |run|
  {
    if run != [] {
      StepKeeps(s, run[0]);
      RunKeeps(Step(s, run[0]), run[1..]);
      EvolvesTransitive(s, Step(s, run[0]), Run(s, run));
    }
  }
}
