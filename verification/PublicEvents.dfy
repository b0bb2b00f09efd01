/** The log of public task events and its readers (app/repositories/public_events.py). */
module PublicEvents {
  import opened Seqs
  import opened Text

  datatype EventRow = EventRow(id: string, taskId: string, sequence: int, eventType: string, payload: string)

  function OfTask(taskId: string): EventRow -> bool {
    (r: EventRow) => r.taskId == taskId
  }

  function Since(taskId: string, cursor: int): EventRow -> bool {
    (r: EventRow) => r.taskId == taskId && r.sequence > cursor
  }

  function Past(cursor: int): EventRow -> bool {
    (r: EventRow) => r.sequence > cursor
  }

  /** `ORDER BY sequence, id` */
  predicate RowLe(a: EventRow, b: EventRow) {
    a.sequence < b.sequence || (a.sequence == b.sequence && !Less(b.id, a.id))
  }

  /** `COALESCE(MAX(sequence), 0)` over the rows of a task. */
  function MaxSequence(rows: seq<EventRow>, taskId: string): int {
    if rows == [] then 0
    else
      var rest := MaxSequence(rows[..|rows| - 1], taskId);
      var last := rows[|rows| - 1];
      if last.taskId == taskId && last.sequence > rest then last.sequence else rest
  }

  predicate HasId(rows: seq<EventRow>, id: string) {
    exists k :: 0 <= k < |rows| && rows[k].id == id
  }

  /** `_append_sync`: the id must be free; the sequence in the given event is ignored. */
  function Append(rows: seq<EventRow>, event: EventRow): seq<EventRow> {
    if HasId(rows, event.id) then rows
    else rows + [event.(sequence := MaxSequence(rows, event.taskId) + 1)]
  }

  /** `_list_since_sync` */
  function ListSince(rows: seq<EventRow>, taskId: string, cursor: int): seq<EventRow> {
    StableSort(Filter(rows, Since(taskId, cursor)), RowLe)
  }

  /** `_list_by_task_sync` */
  function ListByTask(rows: seq<EventRow>, taskId: string): seq<EventRow> {
    StableSort(Filter(rows, OfTask(taskId)), RowLe)
  }

  class PublicTaskEventRepository {
    var rows: seq<EventRow>

    constructor ()
      ensures rows == []
    {
      rows := [];
    }

    method AppendEvent(event: EventRow) returns (saved: Option<EventRow>)
      modifies this
      ensures rows == Append(old(rows), event)
      ensures saved.Some? <==> rows != old(rows)
      ensures saved.Some? ==> saved.value == rows[|rows| - 1] && saved.value == event.(sequence := saved.value.sequence)
    {
      if HasId(rows, event.id) {
        return None;
      }
      var next := MaxSequence(rows, event.taskId) + 1;
      var row := event.(sequence := next);
      rows := rows + [row];
      return Some(row);
    }

    method ListEventsSince(taskId: string, cursor: int) returns (events: seq<EventRow>)
      ensures events == ListSince(rows, taskId, cursor)
      ensures Inv(rows) && cursor >= 0 ==>
          events == if cursor <= |Log(rows, taskId)| then Log(rows, taskId)[cursor..] else []
    {
      var selected := Filter(rows, Since(taskId, cursor));
      events := StableSort(selected, RowLe);
      if Inv(rows) && cursor >= 0 {
        ListingIsRestOfLog(rows, taskId, cursor);
      }
    }
  }

  // ------------------------------------------------------------------ sequences are 1..n

  /** A task's events in the order of their appends. */
  function Log(rows: seq<EventRow>, taskId: string): seq<EventRow> {
    Filter(rows, OfTask(taskId))
  }

  ghost predicate Numbered(log: seq<EventRow>) {
    forall k :: 0 <= k < |log| ==> log[k].sequence == k + 1
  }

  ghost predicate Inv(rows: seq<EventRow>) {
    forall t :: Numbered(Log(rows, t))
  }

  lemma LogSnoc(rows: seq<EventRow>, row: EventRow, t: string)
    ensures Log(rows + [row], t) == Log(rows, t) + (if row.taskId == t then [row] else [])
  {
    FilterAppend(rows, [row], OfTask(t));
  }

  lemma {:induction false} MaxIsLength(rows: seq<EventRow>, t: string)
    requires Numbered(Log(rows, t))
    ensures MaxSequence(rows, t) == |Log(rows, t)|
  {
    if rows != [] {
      var n := |rows| - 1;
      assert rows == rows[..n] + [rows[n]];
      LogSnoc(rows[..n], rows[n], t);
      assert Log(rows[..n], t) == Log(rows, t)[..|Log(rows[..n], t)|];
      MaxIsLength(rows[..n], t);
      assert rows[n].taskId == t ==> Log(rows, t)[|Log(rows[..n], t)|] == rows[n];
    }
  }

  lemma AppendKeeps(rows: seq<EventRow>, event: EventRow)
    requires Inv(rows)
    ensures Inv(Append(rows, event))
  {
    if !HasId(rows, event.id) {
      var row := event.(sequence := MaxSequence(rows, event.taskId) + 1);
      forall t ensures Numbered(Log(Append(rows, event), t)) {
        LogSnoc(rows, row, t);
        MaxIsLength(rows, event.taskId);
        assert Numbered(Log(rows, t));
      }
    }
  }

  lemma {:induction false} SinceIsDrop(rows: seq<EventRow>, t: string, cursor: nat)
    requires Numbered(Log(rows, t)) && cursor <= |Log(rows, t)|
    ensures Filter(rows, Since(t, cursor)) == Log(rows, t)[cursor..]
  {
    var log := Log(rows, t);
    FilterThen(rows, OfTask(t), Past(cursor), Since(t, cursor));
    assert log == log[..cursor] + log[cursor..];
    FilterAppend(log[..cursor], log[cursor..], Past(cursor));
    FilterNone(log[..cursor], Past(cursor));
    FilterAll(log[cursor..], Past(cursor));
  }

  /** A listing is exactly the part of the task's log behind the cursor. */
  lemma ListingIsRestOfLog(rows: seq<EventRow>, t: string, cursor: nat)
    requires Inv(rows)
    ensures ListSince(rows, t, cursor) == if cursor <= |Log(rows, t)| then Log(rows, t)[cursor..] else []
  {
    assert Numbered(Log(rows, t));
    if cursor <= |Log(rows, t)| {
      SinceIsDrop(rows, t, cursor);
      SortOfSorted(Log(rows, t)[cursor..], RowLe);
    } else {
      NothingSince(rows, t, cursor);
    }
  }

  lemma NothingSince(rows: seq<EventRow>, t: string, cursor: nat)
    requires Numbered(Log(rows, t)) && cursor > |Log(rows, t)|
    ensures Filter(rows, Since(t, cursor)) == []
  {
    FilterThen(rows, OfTask(t), Past(cursor), Since(t, cursor));
    FilterNone(Log(rows, t), Past(cursor));
  }

  /** Listing a task lists its events in the order in which they were appended. */
  lemma ListingIsLog(rows: seq<EventRow>, t: string)
    requires Inv(rows)
    ensures ListByTask(rows, t) == Log(rows, t)
  {
    assert Numbered(Log(rows, t));
    SortOfSorted(Log(rows, t), RowLe);
  }

  // ------------------------------------------------------------------ appends and readers interleaved

  datatype Reader = Reader(taskId: string, cursor: int, received: seq<EventRow>)

  datatype Step = Publish(event: EventRow) | Poll(reader: nat)

  datatype World = World(rows: seq<EventRow>, readers: seq<Reader>)

  /** One poll: `list_since` with the last sequence seen, which then moves to the last event. */
  function PollReader(rows: seq<EventRow>, r: Reader): Reader {
    var events := ListSince(rows, r.taskId, r.cursor);
    if events == [] then r
    else r.(cursor := events[|events| - 1].sequence, received := r.received + events)
  }

  function Next(w: World, step: Step): World {
    match step
    case Publish(event) => w.(rows := Append(w.rows, event))
    case Poll(i) => if i < |w.readers| then w.(readers := w.readers[i := PollReader(w.rows, w.readers[i])]) else w
  }

  function RunAll(w: World, steps: seq<Step>): World
    decreases |steps|
  {
    if steps == [] then w else RunAll(Next(w, steps[0]), steps[1..])
  }

  /** The reader holds the first `cursor` events of its task, no more and no other. */
  ghost predicate ReaderOk(rows: seq<EventRow>, r: Reader) {
    0 <= r.cursor <= |Log(rows, r.taskId)| && r.received == Log(rows, r.taskId)[..r.cursor]
  }

  ghost predicate WorldOk(w: World) {
    Inv(w.rows) && forall i :: 0 <= i < |w.readers| ==> ReaderOk(w.rows, w.readers[i])
  }

  lemma PollKeeps(rows: seq<EventRow>, r: Reader)
    requires Inv(rows) && ReaderOk(rows, r)
    ensures ReaderOk(rows, PollReader(rows, r)) && PollReader(rows, r).cursor == |Log(rows, r.taskId)|
  {
    var log := Log(rows, r.taskId);
    ListingIsRestOfLog(rows, r.taskId, r.cursor);
    assert Numbered(log);
    if r.cursor < |log| {
      assert log[r.cursor..][|log| - r.cursor - 1] == log[|log| - 1];
      assert log[..r.cursor] + log[r.cursor..] == log == log[..|log|];
    }
  }

  lemma PublishKeepsReader(rows: seq<EventRow>, event: EventRow, r: Reader)
    requires ReaderOk(rows, r)
    ensures ReaderOk(Append(rows, event), r)
    ensures Log(rows, r.taskId) <= Log(Append(rows, event), r.taskId)
  {
    if !HasId(rows, event.id) {
      LogSnoc(rows, event.(sequence := MaxSequence(rows, event.taskId) + 1), r.taskId);
    }
  }

  lemma {:induction false} RunKeeps(w: World, steps: seq<Step>)
    requires WorldOk(w)
    ensures WorldOk(RunAll(w, steps)) && |RunAll(w, steps).readers| == |w.readers|
    decreases |steps|
  {
    if steps != [] {
      match steps[0] {
        case Publish(event) =>
          AppendKeeps(w.rows, event);
          forall i | 0 <= i < |w.readers| ensures ReaderOk(Append(w.rows, event), w.readers[i]) {
            PublishKeepsReader(w.rows, event, w.readers[i]);
          }
        case Poll(i) =>
          if i < |w.readers| { PollKeeps(w.rows, w.readers[i]); }
      }
      RunKeeps(Next(w, steps[0]), steps[1..]);
    }
  }

  /** Under any interleaving of appends over tasks with polls of any readers, every task's
      sequences are exactly 1..n in the order of appends, and every reader that started from
      the beginning has received a prefix of its task's log: in order, each event once. */
  lemma ReadersReceivePrefixes(tasks: seq<string>, steps: seq<Step>, i: nat)
    requires i < |tasks|
    ensures var w := RunAll(World([], Map(tasks, t => Reader(t, 0, []))), steps);
            && |w.readers| == |tasks|
            && (forall t :: Numbered(Log(w.rows, t)))
            && w.readers[i].received <= Log(w.rows, w.readers[i].taskId)
            && |w.readers[i].received| == w.readers[i].cursor
  {
    var start := World([], Map(tasks, t => Reader(t, 0, [])));
    forall k | 0 <= k < |start.readers| ensures ReaderOk(start.rows, start.readers[k]) {
    }
    RunKeeps(start, steps);
  }

  /** A reader that polls now has everything published so far. */
  lemma PollingCatchesUp(tasks: seq<string>, steps: seq<Step>, i: nat)
    requires i < |tasks|
    ensures var w := RunAll(World([], Map(tasks, t => Reader(t, 0, []))), steps);
            |w.readers| == |tasks| && PollReader(w.rows, w.readers[i]).received == Log(w.rows, w.readers[i].taskId)
  {
    var start := World([], Map(tasks, t => Reader(t, 0, [])));
    forall k | 0 <= k < |start.readers| ensures ReaderOk(start.rows, start.readers[k]) {
    }
    RunKeeps(start, steps);
    var w := RunAll(start, steps);
    PollKeeps(w.rows, w.readers[i]);
  }
}
