/** Cursors over the message list of a session (app/api/messages.py). */
module MessagePaging {
  import opened Seqs
  import opened Text

  datatype Message = Message(id: string, createdAt: string, content: string)

  function StampOf(m: Message): Stamp {
    Stamp(m.createdAt, m.id)
  }

  predicate InOrder(a: Message, b: Message) {
    Before(StampOf(a), StampOf(b)) && a.id != b.id
  }

  /** `ORDER BY created_at, id` under unique, non-empty ids, as the repository lists them. */
  ghost predicate Listed(messages: seq<Message>) {
    && (forall i, j {:trigger InOrder(messages[i], messages[j])} :: 0 <= i < j < |messages| ==>
        InOrder(messages[i], messages[j]))
    && (forall i :: 0 <= i < |messages| ==> messages[i].id != "")
  }

  function FindId(messages: seq<Message>, id: string): (i: Option<nat>)
    ensures i.Some? ==> i.value < |messages| && messages[i.value].id == id
    ensures i.None? ==> forall k :: 0 <= k < |messages| ==> messages[k].id != id
    ensures i.Some? ==> forall k :: 0 <= k < i.value ==> messages[k].id != id
  {
    if messages == [] then None
    else if messages[0].id == id then Some(0)
    else match FindId(messages[1..], id) case None => None case Some(k) => Some(k + 1)
  }

  /** The key of the message with this id, or else the cursor read as a time. */
  function PivotKey(messages: seq<Message>, cursor: string): Stamp {
    match FindId(messages, cursor)
    case Some(i) => StampOf(messages[i])
    case None => Stamp(cursor, "")
  }

  function Selects(pivot: Stamp, isBefore: bool): Message -> bool {
    (m: Message) => if isBefore then Before(StampOf(m), pivot) else Before(pivot, StampOf(m))
  }

  function CursorFilter(messages: seq<Message>, cursor: Option<string>, isBefore: bool): seq<Message> {
    match cursor
    case None => messages
    case Some(c) => Filter(messages, Selects(PivotKey(messages, c), isBefore))
  }

  /** `_apply_cursor_filter` */
  method ApplyCursorFilter(messages: seq<Message>, cursor: Option<string>, isBefore: bool)
      returns (filtered: seq<Message>)
    ensures filtered == CursorFilter(messages, cursor, isBefore)
  {
    if cursor.None? {
      return messages;
    }
    var pivotIndex: Option<nat> := FindId(messages, cursor.value);
    var pivotKey := if pivotIndex.Some? then StampOf(messages[pivotIndex.value]) else Stamp(cursor.value, "");
    filtered := [];
    for i := 0 to |messages|
      invariant filtered == Filter(messages[..i], Selects(pivotKey, isBefore))
    {
      FilterSnoc(messages, i, Selects(pivotKey, isBefore));
      var key := StampOf(messages[i]);
      ghost var kept := filtered;
      if isBefore && Before(key, pivotKey) {
        filtered := filtered + [messages[i]];
      }
      if !isBefore && Before(pivotKey, key) {
        filtered := filtered + [messages[i]];
      }
    }
    assert messages[..|messages|] == messages;
  }

  /** The window that both cursors leave, before the limit cuts it. */
  function Window(messages: seq<Message>, after: Option<string>, before: Option<string>): seq<Message> {
    CursorFilter(CursorFilter(messages, after, false), before, true)
  }

  /** `list_messages` over the repository's listing. */
  method ListMessages(messages: seq<Message>, after: Option<string>, before: Option<string>, limit: nat)
      returns (page: seq<Message>)
    ensures page == Take(Window(messages, after, before), limit)
  {
    page := messages;
    page := ApplyCursorFilter(page, after, false);
    page := ApplyCursorFilter(page, before, true);
    page := if limit < |page| then page[..limit] else page;
  }

  // ------------------------------------------------------------------ cursors that are ids

  lemma SameIdSamePlace(messages: seq<Message>, i: nat, k: nat)
    requires Listed(messages) && i < |messages| && k < |messages| && messages[i].id == messages[k].id
    ensures i == k
  {
    assert i < k ==> InOrder(messages[i], messages[k]);
    assert k < i ==> InOrder(messages[k], messages[i]);
  }

  lemma FindIdAt(messages: seq<Message>, i: nat)
    requires Listed(messages) && i < |messages|
    ensures FindId(messages, messages[i].id) == Some(i)
  {
    var f := FindId(messages, messages[i].id);
    SameIdSamePlace(messages, i, f.value);
  }

  lemma SelectAround(messages: seq<Message>, i: nat, k: nat)
    requires Listed(messages) && i < |messages| && k < |messages|
    ensures Before(StampOf(messages[k]), StampOf(messages[i])) <==> k < i
  {
    if k == i {
      NotLessItself(messages[k].createdAt);
      NotLessItself(messages[k].id);
    } else if k < i {
      assert InOrder(messages[k], messages[i]);
    } else {
      assert InOrder(messages[i], messages[k]);
      BeforeAsymmetric(StampOf(messages[i]), StampOf(messages[k]));
    }
  }

  /** An id that is listed splits the list around itself. */
  lemma CursorSplits(messages: seq<Message>, i: nat)
    requires Listed(messages) && i < |messages|
    ensures CursorFilter(messages, Some(messages[i].id), false) == messages[i + 1..]
    ensures CursorFilter(messages, Some(messages[i].id), true) == messages[..i]
  {
    FindIdAt(messages, i);
    var pivot := StampOf(messages[i]);
    forall k | 0 <= k < |messages|
      ensures Selects(pivot, true)(messages[k]) <==> k < i
      ensures Selects(pivot, false)(messages[k]) <==> i < k
    {
      SelectAround(messages, i, k);
      SelectAround(messages, k, i);
    }
    SplitFilter(messages, i, Selects(pivot, true));
    SplitFilter2(messages, i + 1, Selects(pivot, false));
  }

  lemma SplitFilter(messages: seq<Message>, i: nat, p: Message -> bool)
    requires i <= |messages| && forall k :: 0 <= k < |messages| ==> (p(messages[k]) <==> k < i)
    ensures Filter(messages, p) == messages[..i]
  {
    assert messages == messages[..i] + messages[i..];
    FilterAppend(messages[..i], messages[i..], p);
    FilterAll(messages[..i], p);
    FilterNone(messages[i..], p);
  }

  lemma SplitFilter2(messages: seq<Message>, i: nat, p: Message -> bool)
    requires i <= |messages| && forall k :: 0 <= k < |messages| ==> (p(messages[k]) <==> i <= k)
    ensures Filter(messages, p) == messages[i..]
  {
    assert messages == messages[..i] + messages[i..];
    FilterAppend(messages[..i], messages[i..], p);
    FilterNone(messages[..i], p);
    FilterAll(messages[i..], p);
  }

  lemma ListedSlice(messages: seq<Message>, i: nat)
    requires Listed(messages) && i <= |messages|
    ensures Listed(messages[i..])
  {
  }

  // ------------------------------------------------------------------ walking forwards

  function PageAfter(messages: seq<Message>, limit: nat): Option<string> -> seq<Message> {
    (after: Option<string>) => Take(Window(messages, after, None), limit)
  }

  /** The last id of the page, as the next `after`. */
  function LastId(): (seq<Message>, Option<string>) -> Option<string> {
    (page: seq<Message>, after: Option<string>) => if page == [] then after else Some(page[|page| - 1].id)
  }

  /** The pages of a client that passes the last id of each page as the next `after`. */
  function Walk(messages: seq<Message>, after: Option<string>, limit: nat, rounds: nat): seq<seq<Message>> {
    Pages(PageAfter(messages, limit), LastId(), after, rounds)
  }

  /** The cursor stands at position i: in front of everything, or on message i - 1. */
  function StandsAt(messages: seq<Message>): (Option<string>, nat) -> bool {
    (after: Option<string>, i: nat) => i <= |messages|
        && (if i == 0 then after.None? else after == Some(messages[i - 1].id))
  }

  lemma PageAt(messages: seq<Message>, after: Option<string>, i: nat, limit: nat)
    requires Listed(messages) && StandsAt(messages)(after, i)
    ensures Take(Window(messages, after, None), limit) == Take(messages[i..], limit)
  {
    if i > 0 {
      CursorSplits(messages, i - 1);
    }
  }

  /** Every page is the slice that begins where its cursor stands. */
  ghost predicate CutsSlices(page: Option<string> -> seq<Message>, messages: seq<Message>, limit: nat) {
    forall c, i: nat {:trigger page(c), StandsAt(messages)(c, i)} :: StandsAt(messages)(c, i) ==>
        IsSlice(page(c), messages, i, limit)
  }

  lemma PageIsSlice(messages: seq<Message>, after: Option<string>, i: nat, limit: nat)
    requires Listed(messages) && StandsAt(messages)(after, i) && 1 <= limit
    ensures IsSlice(PageAfter(messages, limit)(after), messages, i, limit)
  {
    PageAt(messages, after, i, limit);
    TakeSlice(messages, i, limit);
  }

  lemma PagesAreCut(messages: seq<Message>, limit: nat)
    requires Listed(messages) && 1 <= limit
    ensures CutsSlices(PageAfter(messages, limit), messages, limit)
  {
    forall c, i: nat {:trigger PageAfter(messages, limit)(c), StandsAt(messages)(c, i)} | StandsAt(messages)(c, i)
      ensures IsSlice(PageAfter(messages, limit)(c), messages, i, limit)
    {
      PageIsSlice(messages, c, i, limit);
    }
  }

  /** The last id of a page stands where the page ends. */
  lemma LastIdStands(messages: seq<Message>, after: Option<string>, i: nat, limit: nat, page: seq<Message>)
    requires IsSlice(page, messages, i, limit) && page != []
    ensures StandsAt(messages)(LastId()(page, after), i + |page|)
  {
    assert page[|page| - 1] == messages[i + |page| - 1];
  }

  lemma SlicesAdvance(page: Option<string> -> seq<Message>, messages: seq<Message>, limit: nat)
    requires CutsSlices(page, messages, limit)
    ensures Advances(page, LastId(), StandsAt(messages), messages, limit)
  {
    var next, at := LastId(), StandsAt(messages);
    forall c: Option<string>, i: nat {:trigger page(c), at(c, i)} | at(c, i)
      ensures IsSlice(page(c), messages, i, limit) && (page(c) != [] ==> at(next(page(c), c), i + |page(c)|))
    {
      if page(c) != [] { LastIdStands(messages, c, i, limit, page(c)); }
    }
  }

  /** Walking with `after` set to the last id of each page, until a page is empty, visits every
      message exactly once, in the order of (created_at, id), in ceil(n / limit) pages. */
  lemma WalkVisitsEveryMessageOnce(messages: seq<Message>, limit: nat, rounds: nat)
    requires Listed(messages) && 1 <= limit && |messages| <= rounds
    ensures var pages := Walk(messages, None, limit, rounds);
            && Concat(pages) == messages
            && IsCeil(|pages|, |messages|, limit) && NonEmptyPages(pages, limit)
  {
    PagesAreCut(messages, limit);
    SlicesAdvance(PageAfter(messages, limit), messages, limit);
    PagesAreSlices(PageAfter(messages, limit), LastId(), StandsAt(messages), messages, limit, None, 0, rounds);
    SlicesCover(messages, 0, limit);
    SlicesCount(messages, 0, limit);
  }

  // ------------------------------------------------------------------ windows between two ids

  /** What a window between two listed ids should hold. */
  function Between(messages: seq<Message>, a: nat, b: nat): seq<Message>
    requires a < |messages| && b < |messages|
  {
    if a < b then messages[a + 1..b] else []
  }

  lemma SplitInRest(messages: seq<Message>, rest: seq<Message>, i: nat, b: nat)
    requires i <= b < |messages| && rest == messages[i..] && Listed(rest)
    ensures CursorFilter(rest, Some(messages[b].id), true) == messages[i..b]
  {
    CursorSplits(rest, b - i);
    assert rest[b - i] == messages[b] && rest[..b - i] == messages[i..b];
  }

  /** `after` earlier than `before`: the window is exactly what lies strictly between. */
  lemma WindowBetween(messages: seq<Message>, a: nat, b: nat)
    requires Listed(messages) && a < b < |messages|
    ensures Window(messages, Some(messages[a].id), Some(messages[b].id)) == messages[a + 1..b]
  {
    CursorSplits(messages, a);
    ListedSlice(messages, a + 1);
    SplitInRest(messages, messages[a + 1..], a + 1, b);
  }

  lemma BeforeTime(m: Message, time: string)
    ensures Before(StampOf(m), Stamp(time, "")) <==> Less(m.createdAt, time)
  {
  }

  /** When the `before` id is at or ahead of the `after` id, the first filter has removed it, so
      it is read as a time: the window holds every later message whose created_at is less, as
      text, than the id. */
  lemma WindowOutOfOrder(messages: seq<Message>, a: nat, b: nat)
    requires Listed(messages) && b <= a < |messages|
    ensures Window(messages, Some(messages[a].id), Some(messages[b].id))
         == Filter(messages[a + 1..], Selects(Stamp(messages[b].id, ""), true))
  {
    CursorSplits(messages, a);
    var rest := messages[a + 1..];
    forall k | 0 <= k < |rest| ensures rest[k].id != messages[b].id {
      assert InOrder(messages[b], messages[a + 1 + k]);
    }
    assert FindId(rest, messages[b].id).None?;
  }

  /** The window between two listed ids is the right one if and only if `after` comes first or
      no message behind it has a created_at that is less, as text, than the `before` id. */
  lemma WindowExact(messages: seq<Message>, a: nat, b: nat)
    requires Listed(messages) && a < |messages| && b < |messages|
    ensures Window(messages, Some(messages[a].id), Some(messages[b].id)) == Between(messages, a, b)
            <==> a < b || forall k :: a < k < |messages| ==> !Less(messages[k].createdAt, messages[b].id)
  {
    if a < b {
      WindowBetween(messages, a, b);
    } else {
      WindowOutOfOrder(messages, a, b);
      var rest, p := messages[a + 1..], Selects(Stamp(messages[b].id, ""), true);
      assert forall k :: a < k < |messages| ==> messages[k] == rest[k - a - 1];
      if forall k :: a < k < |messages| ==> !Less(messages[k].createdAt, messages[b].id) {
        FilterNone(rest, p);
      } else {
        var k :| a < k < |messages| && Less(messages[k].createdAt, messages[b].id);
        assert messages[k] in rest && p(messages[k]);
        assert messages[k] in Filter(rest, p);
      }
    }
  }

  /** With ids that sort behind all times, as ids that begin with a letter do, such a window
      holds every message behind `after`; here it should hold none. */
  lemma WindowWithAWrongMessage()
    ensures var messages := [Message("m1", "1", ""), Message("m2", "2", ""), Message("m3", "3", "")];
            && Listed(messages)
            && Window(messages, Some("m2"), Some("m1")) == [messages[2]]
            && Between(messages, 1, 0) == []
  {
    var messages := [Message("m1", "1", ""), Message("m2", "2", ""), Message("m3", "3", "")];
    assert Less("1", "2") && Less("2", "3") && Less("1", "3") && Less("3", "m1");
    assert Listed(messages);
    WindowOutOfOrder(messages, 1, 0);
    var rest := messages[2..];
    assert rest == [messages[2]];
    BeforeTime(messages[2], "m1");
    FilterAll(rest, Selects(Stamp("m1", ""), true));
  }

  // ------------------------------------------------------------------ cursors that are times

  lemma TimeSides(m: Message, time: string)
    requires m.id != ""
    ensures Selects(Stamp(time, ""), false)(m) <==> !Selects(Stamp(time, ""), true)(m)
  {
    BeforeTotal(StampOf(m), Stamp(time, ""));
    if Before(StampOf(m), Stamp(time, "")) {
      BeforeAsymmetric(StampOf(m), Stamp(time, ""));
    }
  }

  /** The messages created before a time are a prefix of the list. */
  lemma EarlierIsPrefix(messages: seq<Message>, time: string) returns (i: nat)
    requires Listed(messages)
    ensures i <= |messages|
    ensures forall k :: 0 <= k < |messages| ==> (Selects(Stamp(time, ""), true)(messages[k]) <==> k < i)
  {
    var p := Selects(Stamp(time, ""), true);
    i := 0;
    while i < |messages| && p(messages[i])
      invariant i <= |messages|
      invariant forall k :: 0 <= k < i ==> p(messages[k])
    {
      i := i + 1;
    }
    forall k | i < k < |messages| ensures !p(messages[k]) {
      if p(messages[k]) {
        assert InOrder(messages[i], messages[k]);
        BeforeTransitive(StampOf(messages[i]), StampOf(messages[k]), Stamp(time, ""));
      }
    }
  }

  lemma LaterIsSuffix(messages: seq<Message>, time: string, i: nat)
    requires Listed(messages) && i <= |messages|
    requires forall k :: 0 <= k < |messages| ==> (Selects(Stamp(time, ""), true)(messages[k]) <==> k < i)
    ensures forall k :: 0 <= k < |messages| ==> (Selects(Stamp(time, ""), false)(messages[k]) <==> i <= k)
  {
    forall k | 0 <= k < |messages| ensures Selects(Stamp(time, ""), false)(messages[k]) <==> i <= k {
      TimeSides(messages[k], time);
    }
  }

  lemma LaterPart(messages: seq<Message>, time: string, i: nat)
    requires Listed(messages) && i <= |messages|
    requires forall k :: 0 <= k < |messages| ==> (Selects(Stamp(time, ""), true)(messages[k]) <==> k < i)
    ensures Filter(messages, Selects(Stamp(time, ""), false)) == messages[i..]
  {
    LaterIsSuffix(messages, time, i);
    SplitFilter2(messages, i, Selects(Stamp(time, ""), false));
  }

  lemma TimeSplit(messages: seq<Message>, time: string)
    requires Listed(messages)
    ensures Filter(messages, Selects(Stamp(time, ""), true)) + Filter(messages, Selects(Stamp(time, ""), false))
        == messages
  {
    var i := EarlierIsPrefix(messages, time);
    SplitFilter(messages, i, Selects(Stamp(time, ""), true));
    LaterPart(messages, time, i);
  }

  /** A cursor that is no listed id splits the list at that time with nothing lost: `before`
      holds exactly the messages created earlier, `after` those created then or later. */
  lemma TimeCursorSplits(messages: seq<Message>, time: string)
    requires Listed(messages) && FindId(messages, time).None?
    ensures CursorFilter(messages, Some(time), true) + CursorFilter(messages, Some(time), false) == messages
    ensures forall m :: m in messages ==> (m in CursorFilter(messages, Some(time), true) <==> Less(m.createdAt, time))
  {
    TimeSplit(messages, time);
    forall m | m in messages ensures m in CursorFilter(messages, Some(time), true) <==> Less(m.createdAt, time) {
      BeforeTime(m, time);
    }
  }
}
