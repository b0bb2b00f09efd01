/** When an activity feed grows, and what a client that polls it meanwhile receives
    (app/services/operator_realtime.py). */
module FeedGrowth {
  import opened Seqs
  import opened Text
  import opened ActivityFeed

  // ------------------------------------------------------------------ new drafts and old ones

  /** Some new draft stands before an old one. */
  ghost predicate Mixed(feed: seq<Draft>, isOld: Draft -> bool) {
    exists a, b :: 0 <= a < b < |feed| && !isOld(feed[a]) && isOld(feed[b])
  }

  /** Draft i of the gathered list has to be sorted before draft j. */
  predicate SortsBefore(gathered: seq<Draft>, i: nat, j: nat)
    requires i < |gathered| && j < |gathered|
  {
    KeyLess(gathered[i].key, gathered[j].key) || (!KeyLess(gathered[j].key, gathered[i].key) && i < j)
  }

  /** Some new draft has to be sorted before an old one: by its key or, on equal keys, by the
      order in which the builders gather. */
  ghost predicate Displaces(gathered: seq<Draft>, isOld: Draft -> bool) {
    exists i, j :: 0 <= i < |gathered| && 0 <= j < |gathered| && !isOld(gathered[i]) && isOld(gathered[j])
        && SortsBefore(gathered, i, j)
  }

  /** What the first gathered draft adds to the displacements of the others. */
  ghost predicate HeadDisplaces(x: Draft, s: seq<Draft>, isOld: Draft -> bool) {
    || (!isOld(x) && exists d :: d in s && isOld(d) && DraftLe(x, d))
    || (isOld(x) && exists d :: d in s && !isOld(d) && !DraftLe(x, d))
  }

  lemma DisplacesCons(x: Draft, s: seq<Draft>, isOld: Draft -> bool)
    ensures Displaces([x] + s, isOld) <==> Displaces(s, isOld) || HeadDisplaces(x, s, isOld)
  {
    var t := [x] + s;
    if Displaces(s, isOld) {
      var i, j :| 0 <= i < |s| && 0 <= j < |s| && !isOld(s[i]) && isOld(s[j]) && SortsBefore(s, i, j);
      assert t[i + 1] == s[i] && t[j + 1] == s[j] && SortsBefore(t, i + 1, j + 1);
    } else if HeadDisplaces(x, s, isOld) {
      HeadGivesDisplacement(x, s, isOld);
    }
    if Displaces(t, isOld) { ConsDisplaces(x, s, isOld); }
  }

  lemma ConsDisplaces(x: Draft, s: seq<Draft>, isOld: Draft -> bool)
    requires Displaces([x] + s, isOld)
    ensures Displaces(s, isOld) || HeadDisplaces(x, s, isOld)
  {
    var t := [x] + s;
    var i, j :| 0 <= i < |t| && 0 <= j < |t| && !isOld(t[i]) && isOld(t[j]) && SortsBefore(t, i, j);
    assert i != j;
    if i == 0 {
      assert t[j] == s[j - 1] && s[j - 1] in s && DraftLe(x, s[j - 1]) by {
        if KeyLess(x.key, t[j].key) { KeyLessAsymmetric(x.key, t[j].key); }
      }
    } else if j == 0 {
      assert t[i] == s[i - 1] && s[i - 1] in s;
    } else {
      assert t[i] == s[i - 1] && t[j] == s[j - 1] && SortsBefore(s, i - 1, j - 1);
    }
  }

  lemma HeadGivesDisplacement(x: Draft, s: seq<Draft>, isOld: Draft -> bool)
    requires HeadDisplaces(x, s, isOld)
    ensures Displaces([x] + s, isOld)
  {
    var t := [x] + s;
    if !isOld(x) {
      var d :| d in s && isOld(d) && DraftLe(x, d);
      var k :| 0 <= k < |s| && s[k] == d;
      assert t[k + 1] == d && SortsBefore(t, 0, k + 1);
    } else {
      var d :| d in s && !isOld(d) && !DraftLe(x, d);
      var k :| 0 <= k < |s| && s[k] == d;
      assert t[k + 1] == d && SortsBefore(t, k + 1, 0);
    }
  }

  lemma MixedCons(y: Draft, s: seq<Draft>, isOld: Draft -> bool)
    ensures Mixed([y] + s, isOld) <==> Mixed(s, isOld) || (!isOld(y) && exists d :: d in s && isOld(d))
  {
    var t := [y] + s;
    if Mixed(s, isOld) {
      var a, b :| 0 <= a < b < |s| && !isOld(s[a]) && isOld(s[b]);
      assert t[a + 1] == s[a] && t[b + 1] == s[b];
    } else if d :| !isOld(y) && d in s && isOld(d) {
      var k :| 0 <= k < |s| && s[k] == d;
      assert t[0] == y && t[k + 1] == d;
    }
    if Mixed(t, isOld) {
      var a, b :| 0 <= a < b < |t| && !isOld(t[a]) && isOld(t[b]);
      assert t[b] == s[b - 1] && s[b - 1] in s;
      if a > 0 { assert t[a] == s[a - 1]; }
    }
  }

  lemma {:induction false} MixedInsert(x: Draft, s: seq<Draft>, isOld: Draft -> bool)
    requires SortedBy(s, DraftLe)
    ensures Mixed(Insert(x, s, DraftLe), isOld) <==> Mixed(s, isOld) || HeadDisplaces(x, s, isOld)
  {
    DraftOrder();
    if s == [] {
    } else if DraftLe(x, s[0]) {
      assert forall d :: d in s ==> DraftLe(x, d) by {
        forall d | d in s ensures DraftLe(x, d) { HeadOfSorted(s, d, DraftLe); }
      }
      MixedCons(x, s, isOld);
    } else {
      var y, rest := s[0], s[1..];
      assert s == [y] + rest && Insert(x, s, DraftLe) == [y] + Insert(x, rest, DraftLe);
      MixedInsert(x, rest, isOld);
      MixedCons(y, rest, isOld);
      MixedCons(y, Insert(x, rest, DraftLe), isOld);
      InsertMembers(x, rest);
    }
  }

  lemma InsertMembers(x: Draft, s: seq<Draft>)
    ensures forall d :: d in Insert(x, s, DraftLe) <==> d == x || d in s
  {
    InsertContents(x, s, DraftLe);
    forall d ensures d in Insert(x, s, DraftLe) <==> d == x || d in s {
      assert d in Insert(x, s, DraftLe) <==> d in multiset(Insert(x, s, DraftLe));
    }
  }

  lemma {:induction false} SortMixesExactly(gathered: seq<Draft>, isOld: Draft -> bool)
    ensures Mixed(StableSort(gathered, DraftLe), isOld) <==> Displaces(gathered, isOld)
  {
    if gathered != [] {
      var x, s := gathered[0], gathered[1..];
      assert gathered == [x] + s;
      SortMixesExactly(s, isOld);
      DraftOrder();
      SortSorted(s, DraftLe);
      SortContents(s, DraftLe);
      MixedInsert(x, StableSort(s, DraftLe), isOld);
      DisplacesCons(x, s, isOld);
    }
  }

  lemma {:induction false} OldFirst(feed: seq<Draft>, isOld: Draft -> bool)
    ensures Filter(feed, isOld) <= feed <==> !Mixed(feed, isOld)
  {
    if feed != [] {
      var y, rest := feed[0], feed[1..];
      assert feed == [y] + rest;
      OldFirst(rest, isOld);
      MixedCons(y, rest, isOld);
      if isOld(y) {
        assert Filter(feed, isOld) == [y] + Filter(rest, isOld);
        assert Filter(feed, isOld)[1..] == Filter(rest, isOld);
      } else if Filter(rest, isOld) == [] {
        assert forall d :: d in rest ==> !isOld(d);
      } else {
        assert Filter(rest, isOld)[0] in Filter(rest, isOld);
      }
    }
  }

  // ------------------------------------------------------------------ the feed grows at its end

  function InList(was: seq<Draft>): Draft -> bool {
    (d: Draft) => d in was
  }

  /** Every old draft is still gathered, unchanged, and old drafts with one key are gathered in
      the same order. */
  ghost predicate StillGathered(was: seq<Draft>, now: seq<Draft>) {
    && (forall d :: d in was ==> d in now)
    && (forall i, j :: 0 <= i < j < |was| && was[i].key == was[j].key ==> Precedes(now, was[i], was[j]))
  }

  lemma TiedIsSameKey(d: Draft, k: Draft)
    ensures Tied(DraftLe, k)(d) <==> d.key == k.key
  {
    assert Tied(DraftLe, k)(d) == (DraftLe(d, k) && DraftLe(k, d));
    KeyLessTotal(d.key, k.key);
    if d.key == k.key && KeyLess(d.key, k.key) { KeyLessAsymmetric(d.key, k.key); }
  }

  lemma FilterMembers(s: seq<Draft>, p: Draft -> bool, d: Draft)
    ensures d in Filter(s, p) <==> d in s && p(d)
  {
  }

  /** Drafts that a filter keeps stand in the order in which they stood. */
  lemma {:induction false} FilterOrder(s: seq<Draft>, p: Draft -> bool, x: Draft, y: Draft)
    requires p(x) && p(y)
    ensures Precedes(Filter(s, p), x, y) <==> Precedes(s, x, y)
  {
    if s != [] {
      var rest := s[1..];
      assert s == [s[0]] + rest;
      FilterOrder(rest, p, x, y);
      PrecedesCons(s[0], rest, x, y);
      FilterUnfold(s, p);
      FilterMembers(rest, p, y);
      if p(s[0]) {
        assert Filter(s, p) == [s[0]] + Filter(rest, p);
        PrecedesCons(s[0], Filter(rest, p), x, y);
      }
    }
  }

  lemma PrecedesCons(h: Draft, s: seq<Draft>, x: Draft, y: Draft)
    ensures Precedes([h] + s, x, y) <==> Precedes(s, x, y) || (h == x && y in s)
  {
    var t := [h] + s;
    if Precedes(s, x, y) {
      var i, j :| 0 <= i < j < |s| && s[i] == x && s[j] == y;
      assert t[i + 1] == x && t[j + 1] == y;
    } else if h == x && y in s {
      var j :| 0 <= j < |s| && s[j] == y;
      assert t[0] == x && t[j + 1] == y;
    }
    if Precedes(t, x, y) {
      var i, j :| 0 <= i < j < |t| && t[i] == x && t[j] == y;
      assert s[j - 1] == y;
      if i > 0 { assert s[i - 1] == x; }
    }
  }

  /** One key class of the old drafts, as gathered before and as gathered after. */
  lemma ClassAgrees(was: seq<Draft>, now: seq<Draft>, k: Draft)
    requires NoDuplicates(was) && NoDuplicates(now) && StillGathered(was, now)
    ensures Filter(was, Tied(DraftLe, k)) == Filter(Filter(now, InList(was)), Tied(DraftLe, k))
  {
    var p := Tied(DraftLe, k);
    var a, b := Filter(was, p), Filter(Filter(now, InList(was)), p);
    FilterNoDuplicates(was, p);
    FilterNoDuplicates(now, InList(was));
    FilterNoDuplicates(Filter(now, InList(was)), p);
    forall d ensures d in a <==> d in b {
      FilterMembers(was, p, d);
      FilterMembers(Filter(now, InList(was)), p, d);
      FilterMembers(now, InList(was), d);
    }
    forall i, j | 0 <= i < j < |a| ensures Precedes(b, a[i], a[j]) {
      ClassKeepsOrder(was, now, k, a[i], a[j], i, j);
    }
    SameOrder(a, b);
  }

  lemma ClassKeepsOrder(was: seq<Draft>, now: seq<Draft>, k: Draft, x: Draft, y: Draft, i: nat, j: nat)
    requires StillGathered(was, now)
    requires i < j < |Filter(was, Tied(DraftLe, k))| && x == Filter(was, Tied(DraftLe, k))[i]
        && y == Filter(was, Tied(DraftLe, k))[j]
    ensures Precedes(Filter(Filter(now, InList(was)), Tied(DraftLe, k)), x, y)
  {
    var p := Tied(DraftLe, k);
    assert x in Filter(was, p) && y in Filter(was, p);
    FilterMembers(was, p, x);
    FilterMembers(was, p, y);
    TiedIsSameKey(x, k);
    TiedIsSameKey(y, k);
    assert Precedes(Filter(was, p), x, y);
    FilterOrder(was, p, x, y);
    var m, n :| 0 <= m < n < |was| && was[m] == x && was[n] == y;
    assert Precedes(now, was[m], was[n]);
    FilterOrder(now, InList(was), x, y);
    FilterOrder(Filter(now, InList(was)), p, x, y);
  }

  lemma ClassesGiveOrder(was: seq<Draft>, now: seq<Draft>)
    requires forall k :: Filter(was, Tied(DraftLe, k)) == Filter(Filter(now, InList(was)), Tied(DraftLe, k))
    ensures StillGathered(was, now)
  {
    forall d | d in was ensures d in now {
      TiedIsSameKey(d, d);
      FilterMembers(was, Tied(DraftLe, d), d);
      assert d in Filter(Filter(now, InList(was)), Tied(DraftLe, d));
      FilterMembers(Filter(now, InList(was)), Tied(DraftLe, d), d);
      FilterMembers(now, InList(was), d);
    }
    forall i, j | 0 <= i < j < |was| && was[i].key == was[j].key ensures Precedes(now, was[i], was[j]) {
      var x, y := was[i], was[j];
      TiedIsSameKey(x, x);
      TiedIsSameKey(y, x);
      assert Precedes(was, x, y);
      FilterOrder(was, Tied(DraftLe, x), x, y);
      assert Filter(was, Tied(DraftLe, x)) == Filter(Filter(now, InList(was)), Tied(DraftLe, x));
      FilterOrder(Filter(now, InList(was)), Tied(DraftLe, x), x, y);
      FilterOrder(now, InList(was), x, y);
    }
  }

  /** The old drafts sort to the old feed exactly when they are still gathered. */
  lemma OldSortsTheSame(was: seq<Draft>, now: seq<Draft>)
    requires NoDuplicates(was) && NoDuplicates(now)
    ensures StableSort(was, DraftLe) == StableSort(Filter(now, InList(was)), DraftLe) <==> StillGathered(was, now)
  {
    DraftOrder();
    SortsAgree(was, Filter(now, InList(was)), DraftLe);
    if StillGathered(was, now) {
      forall k ensures Filter(was, Tied(DraftLe, k)) == Filter(Filter(now, InList(was)), Tied(DraftLe, k)) {
        ClassAgrees(was, now, k);
      }
    } else if forall k :: Filter(was, Tied(DraftLe, k)) == Filter(Filter(now, InList(was)), Tied(DraftLe, k)) {
      ClassesGiveOrder(was, now);
    }
  }

  /** A prefix without repeats is what is left of its members. */
  lemma PrefixIsFilter(front: seq<Draft>, all: seq<Draft>, was: seq<Draft>)
    requires front <= all && NoDuplicates(all) && forall d :: d in front <==> d in was
    ensures Filter(all, InList(was)) == front
  {
    var rest := all[|front|..];
    assert all == front + rest;
    forall d | d in rest ensures d !in front {
      var j :| 0 <= j < |rest| && rest[j] == d;
      assert all[|front| + j] == d;
      forall i | 0 <= i < |front| ensures front[i] != d {
        assert all[i] != all[|front| + j];
      }
    }
    FilterAppend(front, rest, InList(was));
    FilterAll(front, InList(was));
    FilterNone(rest, InList(was));
  }

  /** Sorted, the old drafts are a prefix of the new ones if and only if every old draft is
      still gathered, unchanged and on equal keys in the same order, and no new draft has to be
      sorted before an old one. */
  lemma GrowsExactly(was: seq<Draft>, now: seq<Draft>)
    requires NoDuplicates(was) && NoDuplicates(now)
    ensures StableSort(was, DraftLe) <= StableSort(now, DraftLe)
            <==> StillGathered(was, now) && !Displaces(now, InList(was))
  {
    DraftOrder();
    var front, all := StableSort(was, DraftLe), StableSort(now, DraftLe);
    SortFilter(now, DraftLe, InList(was));
    OldFirst(all, InList(was));
    SortMixesExactly(now, InList(was));
    OldSortsTheSame(was, now);
    if front <= all {
      SortNoDuplicates(now, DraftLe);
      SortContents(was, DraftLe);
      PrefixIsFilter(front, all, was);
    }
  }

  // ------------------------------------------------------------------ feeds of sources

  /** The primary keys of the tables; session events and messages, which share a rank, also
      have no id in common. */
  ghost predicate UniqueIds(s: Sources) {
    && (forall i, j :: 0 <= i < j < |s.sessionEvents| ==> s.sessionEvents[i].id != s.sessionEvents[j].id)
    && (forall i, j :: 0 <= i < j < |s.jobEvents| ==> s.jobEvents[i].id != s.jobEvents[j].id)
    && (forall i, j :: 0 <= i < j < |s.jobs| ==> s.jobs[i].id != s.jobs[j].id)
    && (forall i, j :: 0 <= i < j < |s.phases| ==> s.phases[i].id != s.phases[j].id)
    && (forall i, j :: 0 <= i < j < |s.messages| ==> s.messages[i].id != s.messages[j].id)
    && (forall i, j :: 0 <= i < |s.sessionEvents| && 0 <= j < |s.messages| ==>
        s.sessionEvents[i].id != s.messages[j].id)
  }

  /** What makes a draft the draft of its row: its key and the row's id. */
  function Bare(d: Draft): Draft {
    Draft(d.key, d.sourceId, "", None, None)
  }

  function Identities(drafts: seq<Draft>): seq<Draft> {
    Map(drafts, Bare)
  }

  /** Drafts of one rank, from rows with different ids. */
  ghost predicate OfRank(drafts: seq<Draft>, rank: nat) {
    && (forall i :: 0 <= i < |drafts| ==> drafts[i].key.rank == rank)
    && (forall i, j :: 0 <= i < j < |drafts| ==> drafts[i].sourceId != drafts[j].sourceId)
  }

  lemma PartsOfRank(s: Sources)
    requires UniqueIds(s)
    ensures var k := KeysOf(s);
            && OfRank(Identities(Map(s.sessionEvents, SessionEventDraft(k))), 0)
            && OfRank(Identities(Map(s.jobEvents, JobEventDraft(k))), 1)
            && OfRank(Identities(Map(s.jobs, JobDraft(k))), 2)
            && OfRank(Identities(Map(Filter(s.phases, IsActive(s.activePhaseId)), PhaseDraft)), 3)
            && OfRank(Identities(Map(s.messages, MessageDraft)), 0)
  {
    ActiveIdsDiffer(s.phases, s.activePhaseId);
  }

  lemma {:induction false} ActiveIdsDiffer(phases: seq<PhaseRow>, activePhaseId: Option<string>)
    requires forall i, j :: 0 <= i < j < |phases| ==> phases[i].id != phases[j].id
    ensures |Filter(phases, IsActive(activePhaseId))| <= 1
  {
    if phases != [] {
      assert forall i, j :: 0 <= i < j < |phases[1..]| ==>
          phases[1..][i] == phases[i + 1] && phases[1..][j] == phases[j + 1];
      ActiveIdsDiffer(phases[1..], activePhaseId);
      FilterUnfold(phases, IsActive(activePhaseId));
      if IsActive(activePhaseId)(phases[0]) {
        FilterNone(phases[1..], IsActive(activePhaseId));
      }
    }
  }

  lemma FivePartsDiffer(a: seq<Draft>, b: seq<Draft>, c: seq<Draft>, d: seq<Draft>, e: seq<Draft>)
    requires OfRank(a, 0) && OfRank(b, 1) && OfRank(c, 2) && OfRank(d, 3) && OfRank(e, 0)
    requires forall i, j :: 0 <= i < |a| && 0 <= j < |e| ==> a[i].sourceId != e[j].sourceId
    ensures NoDuplicates(a + b + c + d + e)
  {
    AppendNoDuplicates(a, b);
    AppendNoDuplicates(a + b, c);
    AppendNoDuplicates(a + b + c, d);
    AppendNoDuplicates(a + b + c + d, e);
  }

  /** With unique ids no two gathered drafts have one identity. */
  lemma IdentitiesDiffer(s: Sources)
    requires UniqueIds(s)
    ensures NoDuplicates(Identities(Gathered(s))) && NoDuplicates(Gathered(s))
  {
    PartsOfRank(s);
    var k := KeysOf(s);
    var a, b, c := Map(s.sessionEvents, SessionEventDraft(k)), Map(s.jobEvents, JobEventDraft(k)),
        Map(s.jobs, JobDraft(k));
    var d, e := Map(Filter(s.phases, IsActive(s.activePhaseId)), PhaseDraft), Map(s.messages, MessageDraft);
    FivePartsDiffer(Identities(a), Identities(b), Identities(c), Identities(d), Identities(e));
    IdentitiesByPart(s);
    var all := Gathered(s);
    forall i, j | 0 <= i < j < |all| ensures all[i] != all[j] {
      assert Identities(all)[i] != Identities(all)[j];
    }
  }

  lemma FeedIdentities(s: Sources)
    ensures Identities(FeedOf(s)) == StableSort(Identities(Gathered(s)), DraftLe)
  {
    SortMap(Gathered(s), DraftLe, Bare);
  }

  /** The hypothesis of replay, made exact, for any two states of the sources. The old feed is a
      prefix of the new one, draft for draft, if and only if every old draft is still gathered
      unchanged, and in the same order on equal keys, and no other draft has to be sorted before
      one of them. */
  lemma FeedGrowsAtItsEnd(before: Sources, after: Sources)
    requires UniqueIds(before) && UniqueIds(after)
    ensures FeedOf(before) <= FeedOf(after)
            <==>
            StillGathered(Gathered(before), Gathered(after)) && !Displaces(Gathered(after), InList(Gathered(before)))
  {
    IdentitiesDiffer(before);
    IdentitiesDiffer(after);
    GrowsExactly(Gathered(before), Gathered(after));
  }

  /** From before to after, places in the feed are kept: every row still has its draft, under its
      old key, and no other draft has to be sorted before one of them. */
  ghost predicate KeepsPlaces(before: Sources, after: Sources) {
    var was, now := Identities(Gathered(before)), Identities(Gathered(after));
    StillGathered(was, now) && !Displaces(now, InList(was))
  }

  /** The same for identities: the events of the old feed keep their sequence numbers, whatever
      else has changed in them, if and only if places are kept. */
  lemma EventsKeepTheirNumbers(before: Sources, after: Sources)
    requires UniqueIds(before) && UniqueIds(after)
    ensures Identities(FeedOf(before)) <= Identities(FeedOf(after)) <==> KeepsPlaces(before, after)
  {
    IdentitiesDiffer(before);
    IdentitiesDiffer(after);
    FeedIdentities(before);
    FeedIdentities(after);
    GrowsExactly(Identities(Gathered(before)), Identities(Gathered(after)));
  }

  // ------------------------------------------------------------------ changes that the sources make

  lemma PrefixMembers(a: seq<Draft>, b: seq<Draft>, d: Draft)
    requires a <= b && d in a
    ensures d in b
  {
    var i :| 0 <= i < |a| && a[i] == d;
    assert b[i] == d;
  }

  lemma IdentitiesOfPrefix(a: seq<Draft>, b: seq<Draft>)
    ensures a <= b ==> Identities(a) <= Identities(b)
  {
  }

  lemma FeedMembers(s: Sources, d: Draft)
    ensures d in FeedOf(s) <==> d in Gathered(s)
    ensures d in Identities(FeedOf(s)) <==> d in Identities(Gathered(s))
  {
    SortContents(Gathered(s), DraftLe);
    FeedIdentities(s);
    SortContents(Identities(Gathered(s)), DraftLe);
  }

  lemma MapMembers<S, T>(s: seq<S>, f: S -> T, i: nat)
    requires i < |s|
    ensures f(s[i]) in Map(s, f)
  {
    assert Map(s, f)[i] == f(s[i]);
  }

  lemma PhaseDraftGathered(s: Sources, i: nat)
    requires i < |s.phases| && s.activePhaseId == Some(s.phases[i].id)
    ensures Bare(PhaseDraft(s.phases[i])) in Identities(Gathered(s))
  {
    var active := Filter(s.phases, IsActive(s.activePhaseId));
    assert s.phases[i] in active;
    var k :| 0 <= k < |active| && active[k] == s.phases[i];
    MapMembers(active, PhaseDraft, k);
    var g := Gathered(s);
    assert PhaseDraft(s.phases[i]) in g;
    var m :| 0 <= m < |g| && g[m] == PhaseDraft(s.phases[i]);
    MapMembers(g, Bare, m);
  }

  /** The rank of a gathered draft tells its table; only session events and messages share one. */
  lemma RankTellsPart(a: seq<Draft>, b: seq<Draft>, c: seq<Draft>, d: seq<Draft>, e: seq<Draft>, x: Draft)
    requires x in a + b + c + d + e
    requires (forall y :: y in a ==> y.key.rank == 0) && (forall y :: y in b ==> y.key.rank == 1)
        && (forall y :: y in e ==> y.key.rank == 0)
    requires (forall y :: y in c ==> y.key.rank == 2) && (forall y :: y in d ==> y.key.rank == 3)
    ensures x.key.rank == 2 ==> x in c
    ensures x.key.rank == 3 ==> x in d
  {
    assert x in a || x in b || x in c || x in d || x in e;
  }

  lemma GatheredByRank(s: Sources, x: Draft)
    requires x in Gathered(s)
    ensures x.key.rank == 2 ==> x in Map(s.jobs, JobDraft(KeysOf(s)))
    ensures x.key.rank == 3 ==> x in Map(Filter(s.phases, IsActive(s.activePhaseId)), PhaseDraft)
  {
    var k := KeysOf(s);
    RankTellsPart(Map(s.sessionEvents, SessionEventDraft(k)), Map(s.jobEvents, JobEventDraft(k)),
        Map(s.jobs, JobDraft(k)),
                  Map(Filter(s.phases, IsActive(s.activePhaseId)), PhaseDraft), Map(s.messages, MessageDraft), x);
  }

  /** Only the active phase has a draft of rank 3. */
  lemma PhaseDraftIsActive(s: Sources, d: Draft)
    requires d in Identities(Gathered(s)) && d.key.rank == 3
    ensures s.activePhaseId == Some(d.sourceId)
  {
    var g := Gathered(s);
    var m :| 0 <= m < |g| && Bare(g[m]) == d;
    GatheredByRank(s, g[m]);
    var active := Filter(s.phases, IsActive(s.activePhaseId));
    var n :| 0 <= n < |active| && PhaseDraft(active[n]) == g[m];
    assert active[n] in active;
  }

  /** When the active phase changes, the old one's draft goes, wherever it stood: the events
      behind it are renumbered. */
  lemma PhaseChangeMovesTheFeed(s: Sources, i: nat, other: Option<string>)
    requires i < |s.phases| && s.activePhaseId == Some(s.phases[i].id) && other != s.activePhaseId
    ensures !(Identities(FeedOf(s)) <= Identities(FeedOf(s.(activePhaseId := other))))
    ensures !(FeedOf(s) <= FeedOf(s.(activePhaseId := other)))
  {
    var t, d := s.(activePhaseId := other), Bare(PhaseDraft(s.phases[i]));
    PhaseDraftGathered(s, i);
    FeedMembers(s, d);
    FeedMembers(t, d);
    IdentitiesOfPrefix(FeedOf(s), FeedOf(t));
    if Identities(FeedOf(s)) <= Identities(FeedOf(t)) {
      PrefixMembers(Identities(FeedOf(s)), Identities(FeedOf(t)), d);
      PhaseDraftIsActive(t, d);
      assert false;
    }
  }

  /** A job whose status changes, which changes its draft's text, keeps every event's number;
      but the old feed is no prefix of the new one any more. */
  lemma JobChangeRewritesItsDraft(s: Sources, i: nat, detail: string)
    requires UniqueIds(s) && i < |s.jobs| && detail != s.jobs[i].detail
    ensures var t := s.(jobs := s.jobs[i := s.jobs[i].(detail := detail)]);
            && Identities(FeedOf(s)) == Identities(FeedOf(t))
            && !(FeedOf(s) <= FeedOf(t))
  {
    var t := s.(jobs := s.jobs[i := s.jobs[i].(detail := detail)]);
    JobChangeKeepsIdentities(s, i, detail);
    if FeedOf(s) <= FeedOf(t) {
      JobDraftGathered(s, i);
      var d := JobDraft(KeysOf(s))(s.jobs[i]);
      FeedMembers(s, d);
      FeedMembers(t, d);
      PrefixMembers(FeedOf(s), FeedOf(t), d);
      JobDraftIsOfItsRow(t, d, i);
      assert false;
    }
  }

  lemma JobChangeKeepsIdentities(s: Sources, i: nat, detail: string)
    requires i < |s.jobs|
    ensures var t := s.(jobs := s.jobs[i := s.jobs[i].(detail := detail)]);
            Identities(FeedOf(s)) == Identities(FeedOf(t))
  {
    var t := s.(jobs := s.jobs[i := s.jobs[i].(detail := detail)]);
    SameParts(Map(s.sessionEvents, SessionEventDraft(KeysOf(s))), Map(t.sessionEvents, SessionEventDraft(KeysOf(t))));
    SameParts(Map(s.jobEvents, JobEventDraft(KeysOf(s))), Map(t.jobEvents, JobEventDraft(KeysOf(t))));
    SameParts(Map(s.jobs, JobDraft(KeysOf(s))), Map(t.jobs, JobDraft(KeysOf(t))));
    IdentitiesByPart(s);
    IdentitiesByPart(t);
    FeedIdentities(s);
    FeedIdentities(t);
  }

  lemma SameParts(a: seq<Draft>, b: seq<Draft>)
    requires |a| == |b| && forall k :: 0 <= k < |a| ==> Bare(a[k]) == Bare(b[k])
    ensures Identities(a) == Identities(b)
  {
  }

  lemma IdentitiesByPart(s: Sources)
    ensures var k := KeysOf(s);
            Identities(Gathered(s))
            == Identities(Map(s.sessionEvents, SessionEventDraft(k))) + Identities(Map(s.jobEvents, JobEventDraft(k)))
               + Identities(Map(s.jobs, JobDraft(k)))
                   + Identities(Map(Filter(s.phases, IsActive(s.activePhaseId)), PhaseDraft))
               + Identities(Map(s.messages, MessageDraft))
  {
  }

  lemma JobDraftGathered(s: Sources, i: nat)
    requires i < |s.jobs|
    ensures JobDraft(KeysOf(s))(s.jobs[i]) in Gathered(s)
  {
    assert Gathered(s)[|s.sessionEvents| + |s.jobEvents| + i] == JobDraft(KeysOf(s))(s.jobs[i]);
  }

  lemma JobDraftIsOfItsRow(s: Sources, d: Draft, i: nat)
    requires UniqueIds(s) && i < |s.jobs| && d in Gathered(s) && d.key.rank == 2 && d.sourceId == s.jobs[i].id
    ensures d.detail == s.jobs[i].detail
  {
    GatheredByRank(s, d);
    var n :| 0 <= n < |s.jobs| && JobDraft(KeysOf(s))(s.jobs[n]) == d;
    assert n == i;
  }

  /** It can fail within one relay step, which stamps a job event and then a message with one
      time: the message, of rank 0, is put before the job event that was there first. */
  lemma MessageOvertakesJobEvent(time: string)
    ensures var before := Sources([], [JobEventRow("e", "j", "turn.started", time, "")], [], [], None, [], map[]);
            var after := before.(messages := [MessageRow("m", time, "")]);
            && !(FeedOf(before) <= FeedOf(after))
            && FeedOf(after)[0] == MessageDraft(MessageRow("m", time, ""))
  {
    var event, message := JobEventDraft(Keys(map[], map[]))(JobEventRow("e", "j", "turn.started", time, "")),
        MessageDraft(MessageRow("m", time, ""));
    var before := Sources([], [JobEventRow("e", "j", "turn.started", time, "")], [], [], None, [], map[]);
    var after := before.(messages := [MessageRow("m", time, "")]);
    assert Gathered(before) == [event];
    assert Gathered(after) == [event, message];
    NotLessItself(time);
    assert !DraftLe(event, message);
    assert [event, message][1..] == [message] && [message][1..] == [] && [event][1..] == [];
    assert StableSort([message], DraftLe) == [message];
    assert Insert(event, [message], DraftLe) == [message, event];
    assert FeedOf(after) == [message, event] && FeedOf(before) == [event];
    assert event.sourceId != message.sourceId || event.key != message.key;
  }

  // ------------------------------------------------------------------ a client of a changing feed

  /** The client keeps its cursor, where its first non-empty page began, and what it got. */
  datatype Client = Client(cursor: int, base: Option<nat>, received: seq<ActivityEvent>)

  datatype Step = Change(after: Sources) | PollFeed(limit: nat)

  datatype World = World(sources: Sources, client: Client)

  /** A client takes over a page. */
  function Received(c: Client, page: seq<ActivityEvent>): Client {
    if page == [] then c
    else Client(NextCursor(page, c.cursor),
                if c.base.Some? then c.base else Some(if page[0].sequence >= 1 then page[0].sequence - 1 else 0),
                c.received + page)
  }

  function PollOnce(feed: seq<Draft>, c: Client, limit: nat): Client {
    Received(c, MaterializeEvents(feed, c.cursor, limit))
  }

  function Next(w: World, step: Step): World {
    match step
    case Change(after) => w.(sources := after)
    case PollFeed(limit) => if limit >= 1 then w.(client := PollOnce(FeedOf(w.sources), w.client, limit)) else w
  }

  function RunAll(w: World, steps: seq<Step>): World
    decreases |steps|
  {
    if steps == [] then w else RunAll(Next(w, steps[0]), steps[1..])
  }

  /** The sources change in any way that keeps places in the feed. */
  ghost predicate PlacesKept(w: World, steps: seq<Step>)
    decreases |steps|
  {
    steps != [] ==>
      && (steps[0].Change? ==> UniqueIds(steps[0].after) && KeepsPlaces(w.sources, steps[0].after))
      && PlacesKept(Next(w, steps[0]), steps[1..])
  }

  function BareEvent(e: ActivityEvent): ActivityEvent {
    ActivityEvent(e.sequence, Bare(e.draft))
  }

  /** What the client holds is one unbroken stretch of the events, ending at its cursor. */
  ghost predicate Unbroken(events: seq<ActivityEvent>, start: nat, c: Client) {
    match c.base
    case None => c.cursor == start && c.received == []
    case Some(base) =>
      && 1 <= c.cursor <= |events| && base <= c.cursor
      && (start >= 1 ==> base == start)
      && c.received == events[base..c.cursor]
  }

  /** What the client received are, by identity, the feed's own events with their numbers. */
  ghost predicate ClientOk(feed: seq<Draft>, start: nat, c: Client) {
    Unbroken(Numbered(Identities(feed)), start, c.(received := Map(c.received, BareEvent)))
  }

  /** The page that joins on to what the client has, or, for a client that starts at 0, any
      last part of the feed. */
  lemma PageJoins(events: seq<ActivityEvent>, start: nat, c: Client, page: seq<ActivityEvent>, from: nat)
    requires Unbroken(events, start, c) && page != [] && from + |page| <= |events|
    requires forall i :: 0 <= i < |events| ==> events[i].sequence == i + 1
    requires page == events[from..from + |page|]
    requires c.cursor == from || (c.cursor == 0 && c.base.None?)
    ensures Unbroken(events, start, Received(c, page))
  {
    assert page[0] == events[from] && page[|page| - 1] == events[from + |page| - 1];
    if c.base.None? {
      assert Received(c, page) == Client(from + |page|, Some(from), [] + page);
    } else {
      SliceJoin(events, c.base.value, from, from + |page|);
      assert Received(c, page) == Client(from + |page|, c.base, events[c.base.value..from + |page|]);
    }
  }

  lemma ReceivedBare(c: Client, page: seq<ActivityEvent>)
    ensures var d := Received(c, page);
            d.(received := Map(d.received, BareEvent))
                == Received(c.(received := Map(c.received, BareEvent)), Map(page, BareEvent))
  {
    assert Map(c.received + page, BareEvent) == Map(c.received, BareEvent) + Map(page, BareEvent);
  }

  lemma NumberedBare(feed: seq<Draft>, from: nat, to: nat)
    requires from <= to <= |feed|
    ensures Map(Numbered(feed)[from..to], BareEvent) == Numbered(Identities(feed))[from..to]
  {
  }

  lemma PollKeeps(feed: seq<Draft>, start: nat, c: Client, limit: nat)
    requires ClientOk(feed, start, c) && 1 <= limit
    ensures ClientOk(feed, start, PollOnce(feed, c, limit))
  {
    var page := MaterializeEvents(feed, c.cursor, limit);
    if page != [] {
      var from := PageStart(feed, c.cursor, limit);
      TakesPage(feed, start, c, page, from);
    }
  }

  lemma TakesPage(feed: seq<Draft>, start: nat, c: Client, page: seq<ActivityEvent>, from: nat)
    requires ClientOk(feed, start, c) && page != [] && from + |page| <= |feed|
        && page == Numbered(feed)[from..from + |page|]
    requires c.cursor == from || (c.cursor == 0 && c.base.None?)
    ensures ClientOk(feed, start, Received(c, page))
  {
    var seen, bare := c.(received := Map(c.received, BareEvent)), Map(page, BareEvent);
    NumberedBare(feed, from, from + |page|);
    assert bare == Numbered(Identities(feed))[from..from + |page|];
    PageJoins(Numbered(Identities(feed)), start, seen, bare, from);
    ReceivedBare(c, page);
  }

  /** Where a page lies in the feed. */
  lemma PageStart(feed: seq<Draft>, cursor: int, limit: nat) returns (from: nat)
    requires 0 <= cursor && 1 <= limit && MaterializeEvents(feed, cursor, limit) != []
    ensures var page := MaterializeEvents(feed, cursor, limit);
            && from + |page| <= |feed| && page == Numbered(feed)[from..from + |page|]
            && (cursor > 0 ==> from == cursor)
  {
    if cursor == 0 {
      StartingAtZero(feed, limit);
      from := |feed| - |MaterializeEvents(feed, cursor, limit)|;
    } else {
      PageStartsAtCursor(feed, cursor, limit);
      from := cursor;
    }
  }

  lemma PageStartsAtCursor(feed: seq<Draft>, cursor: nat, limit: nat)
    requires 1 <= cursor && 1 <= limit && MaterializeEvents(feed, cursor, limit) != []
    ensures var page := MaterializeEvents(feed, cursor, limit);
            cursor + |page| <= |feed| && page == Numbered(feed)[cursor..cursor + |page|]
  {
    BehindIsDrop(feed, cursor);
    if cursor <= |feed| { PageContinues(feed, cursor, limit); }
  }

  lemma GrowKeeps(was: seq<Draft>, now: seq<Draft>, start: nat, c: Client)
    requires ClientOk(was, start, c) && Identities(was) <= Identities(now)
    ensures ClientOk(now, start, c)
  {
    var a, b := Numbered(Identities(was)), Numbered(Identities(now));
    assert b[..|a|] == a;
    if c.base.Some? {
      assert b[c.base.value..c.cursor] == a[c.base.value..c.cursor];
    }
  }

  /** While the sources change only so that places in the feed are kept, a client has at every
      moment received one stretch of the feed's events without gap or repeat, from its first
      page on, whatever limits it polls with. */
  lemma {:induction false} ClientHasNoGapNoRepeat(w: World, start: nat, steps: seq<Step>)
    requires UniqueIds(w.sources) && ClientOk(FeedOf(w.sources), start, w.client) && PlacesKept(w, steps)
    ensures ClientOk(FeedOf(RunAll(w, steps).sources), start, RunAll(w, steps).client)
    decreases |steps|
  {
    if steps != [] {
      match steps[0] {
        case Change(after) =>
          EventsKeepTheirNumbers(w.sources, after);
          GrowKeeps(FeedOf(w.sources), FeedOf(after), start, w.client);
        case PollFeed(limit) => if limit >= 1 { PollKeeps(FeedOf(w.sources), start, w.client, limit); }
      }
      ClientHasNoGapNoRepeat(Next(w, steps[0]), start, steps[1..]);
    }
  }

  /** And no less will do: to a client that has read the whole feed from its start, a change
      leaves no gap and no repeat if and only if it keeps places. */
  lemma OnlyKeptPlacesWillDo(before: Sources, after: Sources)
    requires UniqueIds(before) && UniqueIds(after) && FeedOf(before) != []
    ensures var c := Client(|FeedOf(before)|, Some(0), Numbered(FeedOf(before)));
            && ClientOk(FeedOf(before), 0, c)
            && (ClientOk(FeedOf(after), 0, c) <==> KeepsPlaces(before, after))
  {
    var was, now := FeedOf(before), FeedOf(after);
    var c := Client(|was|, Some(0), Numbered(was));
    EventsKeepTheirNumbers(before, after);
    NumberedBare(was, 0, |was|);
    assert Numbered(was)[0..|was|] == Numbered(was) && Numbered(Identities(was))[0..|was|] == Numbered(Identities(was));
    if KeepsPlaces(before, after) {
      GrowKeeps(was, now, 0, c);
    } else if ClientOk(now, 0, c) {
      PrefixOfNumbered(Identities(was), Identities(now));
    }
  }

  lemma PrefixOfNumbered(a: seq<Draft>, b: seq<Draft>)
    requires |a| <= |b| && Numbered(a) == Numbered(b)[0..|a|]
    ensures a <= b
  {
    forall i | 0 <= i < |a| ensures a[i] == b[i] {
      assert Numbered(a)[i] == Numbered(b)[0..|a|][i];
    }
  }
}
