/** The panels agree with the filter and with each other. */
module DashboardTheorems {
  import opened Seqs
  import opened Jobs
  import opened Text
  import opened DashboardSnapshot
  import opened DashboardPanels

  // ------------------------------------------------------------------ filtered or not

  function HasPoolKey(key: string): Pool -> bool {
    (p: Pool) => p.poolKey == key
  }

  ghost predicate OnePerKey(pools: seq<Pool>) {
    forall i, j :: 0 <= i < j < |pools| ==> pools[i].poolKey != pools[j].poolKey
  }

  lemma {:induction false} PoolMapOnePerKey(pools: seq<Pool>)
    ensures OnePerKey(PoolMap(pools))
  {
    if pools != [] {
      PoolMapOnePerKey(pools[..|pools| - 1]);
    }
  }

  /** What the map of pools holds under one key: the last pool with it, if any. */
  lemma {:induction false} PoolMapAt(pools: seq<Pool>, key: string)
    ensures Filter(PoolMap(pools), HasPoolKey(key)) == LastOnly(Filter(pools, HasPoolKey(key)))
  {
    if pools != [] {
      var n := |pools| - 1;
      PoolMapAt(pools[..n], key);
      PoolMapOnePerKey(pools[..n]);
      PoolMapStep(PoolMap(pools[..n]), pools[n], key);
      LastOnlySnoc(pools, n, key);
    }
  }

  function LastOnly(pools: seq<Pool>): seq<Pool> {
    if pools == [] then [] else [pools[|pools| - 1]]
  }

  lemma LastOnlySnoc(pools: seq<Pool>, n: nat, key: string)
    requires n == |pools| - 1
    ensures LastOnly(Filter(pools, HasPoolKey(key)))
         == if pools[n].poolKey == key then [pools[n]] else LastOnly(Filter(pools[..n], HasPoolKey(key)))
  {
    FilterSnoc(pools, n, HasPoolKey(key));
    assert pools[..n + 1] == pools;
    LastOfSnoc(Filter(pools[..n], HasPoolKey(key)), pools[n]);
  }

  lemma LastOfSnoc(pools: seq<Pool>, p: Pool)
    ensures LastOnly(pools + [p]) == [p]
    ensures pools + [] == pools
  {
  }

  lemma PoolMapStep(before: seq<Pool>, last: Pool, key: string)
    requires OnePerKey(before)
    ensures Filter(AddPool(before, last), HasPoolKey(key)) == if last.poolKey == key then [last]
        else Filter(before, HasPoolKey(key))
  {
    match FindPool(before, last.poolKey) {
      case Some(i) =>
        FilterReplace(before, i, last, key);
      case None =>
        FilterAppend(before, [last], HasPoolKey(key));
        if last.poolKey == key { FilterNone(before, HasPoolKey(key)); }
    }
  }

  lemma FilterReplace(pools: seq<Pool>, i: nat, p: Pool, key: string)
    requires i < |pools| && pools[i].poolKey == p.poolKey && OnePerKey(pools)
    ensures Filter(pools[i := p], HasPoolKey(key)) == if p.poolKey == key then [p] else Filter(pools, HasPoolKey(key))
  {
    var a, b := pools[..i], pools[i + 1..];
    assert pools == a + ([pools[i]] + b) && pools[i := p] == a + ([p] + b);
    FilterAppend(a, [pools[i]] + b, HasPoolKey(key));
    FilterAppend(a, [p] + b, HasPoolKey(key));
    FilterAppend([pools[i]], b, HasPoolKey(key));
    FilterAppend([p], b, HasPoolKey(key));
    if p.poolKey == key {
      FilterNone(a, HasPoolKey(key));
      FilterNone(b, HasPoolKey(key));
    }
  }

  /** Listing the pools of a filtered snapshot is listing the filtered pools. */
  lemma PoolsAgain(pools: seq<Pool>, f: Filters)
    ensures Filter(PoolMap(Filter(pools, PoolFilter(f))), PoolFilter(f)) == Filter(PoolMap(pools), PoolFilter(f))
  {
    match f.poolKey {
      case None =>
        FilterAll(pools, PoolFilter(f));
      case Some(key) =>
        FilterAgree(pools, PoolFilter(f), HasPoolKey(key));
        FilterAgree(PoolMap(pools), PoolFilter(f), HasPoolKey(key));
        FilterAgree(PoolMap(Filter(pools, PoolFilter(f))), PoolFilter(f), HasPoolKey(key));
        PoolMapAt(pools, key);
        PoolMapAt(Filter(pools, HasPoolKey(key)), key);
        FilterAll(Filter(pools, HasPoolKey(key)), HasPoolKey(key));
    }
  }

  /** Every panel filters again what it is given; built from the filtered snapshot it is the
      panel of the unfiltered one, although sessions consult the filtered jobs and webhooks the
      filtered tasks. */
  lemma PanelsOfFilteredSnapshot(t: Tables, f: Filters)
    requires forall i, k :: 0 <= i < k < |t.jobs| ==> t.jobs[i].id != t.jobs[k].id
    ensures var s := LoadSnapshot(t);
            var filtered := FilterSnapshot(s, f);
            && QueueHeat(filtered, f) == QueueHeat(s, f) && PhaseDistribution(filtered, f) == PhaseDistribution(s, f)
            && ReviewBottlenecks(filtered, f) == ReviewBottlenecks(s, f)
            && RuntimePoolHealth(filtered, f) == RuntimePoolHealth(s, f)
            && TaskThroughput(filtered, f) == TaskThroughput(s, f)
                && OutboundWebhooks(filtered, f) == OutboundWebhooks(s, f)
            && BuildDashboard(filtered, f) == BuildDashboard(s, f)
            && BuildDashboard(s, f) == Dashboard(QueueHeat(s, f), PhaseDistribution(s, f), ReviewBottlenecks(s, f),
                                                 RuntimePoolHealth(s, f), TaskThroughput(s, f), OutboundWebhooks(s, f))
  {
    var s := LoadSnapshot(t);
    var s' := FilterSnapshot(s, f);
    LoadIsConsistent(t);
    FilterAgain(s, f);
    assert FilterSnapshot(s', f).tables == s'.tables;
    PoolsAgain(t.pools, f);
    WebhooksAgain(s, f);
  }

  lemma WebhooksAgain(s: Snapshot, f: Filters)
    ensures OutboundWebhooks(FilterSnapshot(s, f), f) == OutboundWebhooks(s, f)
  {
    RegistrationsAgain(s, f);
    DeliveriesAgain(s, f);
  }

  // ------------------------------------------------------------------ sums over the heat table

  datatype Selection = Everywhere | InPhase(phaseKey: string) | InPool(poolKey: string) | AtKey(key: HeatKey)

  datatype Metric = Queued | Running | Blocked | InFlight | Total

  predicate Selected(sel: Selection, key: HeatKey) {
    match sel
    case Everywhere => true
    case InPhase(p) => key.phaseKey == Some(p)
    case InPool(k) => key.poolKey == Some(k)
    case AtKey(k) => key == k
  }

  function Amount(r: HeatRow, m: Metric): nat {
    match m
    case Queued => r.queued
    case Running => r.running
    case Blocked => r.blocked
    case InFlight => r.queued + r.running + r.blocked
    case Total => r.total
  }

  predicate InMetric(status: JobStatus, m: Metric) {
    match m
    case Queued => status.JobQueued?
    case Running => status.JobRunning?
    case Blocked => status in BLOCKED
    case InFlight => status.JobQueued? || status.JobRunning? || status in BLOCKED
    case Total => true
  }

  function HeatValue(sel: Selection, m: Metric): HeatRow -> int {
    (r: HeatRow) => if Selected(sel, r.key) then Amount(r, m) else 0
  }

  /** The jobs that a selection of the heat table should count. */
  function Counts(sel: Selection, m: Metric, ix: Indexes): Job -> bool {
    (j: Job) => Selected(sel, HeatKeyOf(j, ix)) && InMetric(j.status, m)
  }

  lemma CountedAmount(r: HeatRow, title: string, status: JobStatus, m: Metric)
    ensures Amount(Counted(r, title, status), m) == Amount(r, m) + if InMetric(status, m) then 1 else 0
    ensures Counted(r, title, status).key == r.key
  {
  }

  lemma AddHeatSum(rows: seq<HeatRow>, j: Job, title: string, ix: Indexes, sel: Selection, m: Metric)
    ensures Sum(AddHeat(rows, j, title, ix), HeatValue(sel, m))
        == Sum(rows, HeatValue(sel, m)) + if Counts(sel, m, ix)(j) then 1 else 0
  {
    var key := HeatKeyOf(j, ix);
    match FindHeat(rows, key) {
      case Some(i) =>
        CountedAmount(rows[i], title, j.status, m);
        SumUpdate(rows, i, Counted(rows[i], title, j.status), HeatValue(sel, m));
      case None =>
        var unused := HeatRow(key, "", 0, 0, 0, 0);
        CountedAmount(unused, title, j.status, m);
        SumSnoc(rows, Counted(unused, title, j.status), HeatValue(sel, m));
    }
  }

  lemma {:induction false} HeatGroupsSum(jobs: seq<Job>, ix: Indexes, sel: Selection, m: Metric)
    ensures Sum(HeatGroups(jobs, ix), HeatValue(sel, m)) == Count(jobs, Counts(sel, m, ix))
  {
    if jobs != [] {
      var n := |jobs| - 1;
      HeatGroupsSum(jobs[..n], ix, sel, m);
      AddHeatSum(HeatGroups(jobs[..n], ix), jobs[n], TitleOf(jobs[n], ix), ix, sel, m);
      CountSnoc(jobs, n, Counts(sel, m, ix));
      assert jobs[..n + 1] == jobs;
    }
  }

  /** Any selection of heat rows adds up to the matching jobs it selects. */
  lemma HeatAddsUp(s: Snapshot, f: Filters, sel: Selection, m: Metric)
    ensures Sum(QueueHeat(s, f), HeatValue(sel, m)) == Count(MatchingJobs(s, f), Counts(sel, m, s.ix))
  {
    HeatGroupsSum(MatchingJobs(s, f), s.ix, sel, m);
    SumOfSort(HeatGroups(MatchingJobs(s, f), s.ix), ByRank(HeatRank), HeatValue(sel, m));
  }

  // ------------------------------------------------------------------ single heat rows

  function OneAt(key: HeatKey): HeatRow -> int {
    (r: HeatRow) => if r.key == key then 1 else 0
  }

  lemma {:induction false} NoRowNoSum(rows: seq<HeatRow>, key: HeatKey, m: Metric)
    requires Sum(rows, OneAt(key)) <= 0
    ensures Sum(rows, OneAt(key)) == 0 && Sum(rows, HeatValue(AtKey(key), m)) == 0
    ensures forall r :: r in rows ==> r.key != key
  {
    if rows != [] {
      SumNonNegative(rows[1..], key);
      NoRowNoSum(rows[1..], key, m);
    }
  }

  lemma {:induction false} SumNonNegative(rows: seq<HeatRow>, key: HeatKey)
    ensures Sum(rows, OneAt(key)) >= 0
  {
    if rows != [] {
      SumNonNegative(rows[1..], key);
    }
  }

  lemma {:induction false} RowIsSum(rows: seq<HeatRow>, row: HeatRow, m: Metric)
    requires row in rows && Sum(rows, OneAt(row.key)) <= 1
    ensures Sum(rows, HeatValue(AtKey(row.key), m)) == Amount(row, m)
  {
    if rows[0] == row {
      NoRowNoSum(rows[1..], row.key, m);
    } else if rows[0].key == row.key {
      NoRowNoSum(rows[1..], row.key, m);
      assert false;
    } else {
      RowIsSum(rows[1..], row, m);
    }
  }

  lemma {:induction false} HeatKeysDistinct(jobs: seq<Job>, ix: Indexes, key: HeatKey)
    ensures Sum(HeatGroups(jobs, ix), OneAt(key)) == if exists j :: j in jobs && HeatKeyOf(j, ix) == key then 1 else 0
  {
    if jobs != [] {
      var n := |jobs| - 1;
      var rows, j := HeatGroups(jobs[..n], ix), jobs[n];
      assert jobs == jobs[..n] + [j];
      HeatKeysDistinct(jobs[..n], ix, key);
      AddHeatKeys(rows, ix, key, j);
    }
  }

  lemma {:induction false} KeySum(rows: seq<HeatRow>, key: HeatKey)
    ensures Sum(rows, OneAt(key)) > 0 <==> FindHeat(rows, key).Some?
  {
    if rows != [] {
      KeySum(rows[1..], key);
      SumNonNegative(rows[1..], key);
    }
  }

  lemma AddHeatKeys(rows: seq<HeatRow>, ix: Indexes, key: HeatKey, j: Job)
    requires Sum(rows, OneAt(key)) <= 1
    ensures Sum(AddHeat(rows, j, TitleOf(j, ix), ix), OneAt(key)) == if HeatKeyOf(j, ix) == key then 1
        else Sum(rows, OneAt(key))
  {
    var title := TitleOf(j, ix);
    SumNonNegative(rows, key);
    if HeatKeyOf(j, ix) == key { KeySum(rows, key); }
    match FindHeat(rows, HeatKeyOf(j, ix)) {
      case Some(i) => SameKeySum(rows, i, Counted(rows[i], title, j.status), key);
      case None => SumSnoc(rows, Counted(HeatRow(HeatKeyOf(j, ix), "", 0, 0, 0, 0), title, j.status), OneAt(key));
    }
  }

  lemma SameKeySum(rows: seq<HeatRow>, i: nat, row: HeatRow, key: HeatKey)
    requires i < |rows| && rows[i].key == row.key
    ensures Sum(rows[i := row], OneAt(key)) == Sum(rows, OneAt(key))
  {
    SumUpdate(rows, i, row, OneAt(key));
  }

  lemma {:induction false} HeatTitles(jobs: seq<Job>, ix: Indexes)
    ensures forall row :: row in HeatGroups(jobs, ix) ==> row.title == SessionTitle(ix, row.key.sessionId)
  {
    if jobs != [] {
      HeatTitles(jobs[..|jobs| - 1], ix);
    }
  }

  /** The heat table has one row for each session, phase and pool that a matching job has, and
      each row counts exactly its jobs. */
  lemma HeatRowsAreExact(s: Snapshot, f: Filters, m: Metric)
    ensures forall row :: row in QueueHeat(s, f) ==>
              && Amount(row, m) == Count(MatchingJobs(s, f), Counts(AtKey(row.key), m, s.ix))
              && row.title == SessionTitle(s.ix, row.key.sessionId)
    ensures forall key :: Sum(QueueHeat(s, f), OneAt(key))
              == if exists j :: j in MatchingJobs(s, f) && HeatKeyOf(j, s.ix) == key then 1 else 0
  {
    var jobs := MatchingJobs(s, f);
    forall key
      ensures Sum(QueueHeat(s, f), OneAt(key)) == if exists j :: j in jobs && HeatKeyOf(j, s.ix) == key then 1 else 0
    {
      HeatKeysDistinct(jobs, s.ix, key);
      SumOfSort(HeatGroups(jobs, s.ix), ByRank(HeatRank), OneAt(key));
    }
    HeatTitles(jobs, s.ix);
    SortContents(HeatGroups(jobs, s.ix), ByRank(HeatRank));
    forall row | row in QueueHeat(s, f) ensures Amount(row, m) == Count(jobs, Counts(AtKey(row.key), m, s.ix)) {
      RowIsSum(QueueHeat(s, f), row, m);
      HeatAddsUp(s, f, AtKey(row.key), m);
    }
  }

  // ------------------------------------------------------------------ cells of grouped counters

  function GroupValue(key: string, field: Field): Group -> int {
    (g: Group) => if g.key == key then CountOf(g, field) else 0
  }

  function OneGroup(key: string): Group -> int {
    (g: Group) => if g.key == key then 1 else 0
  }

  function Hits<T>(spot: T -> Option<(string, Field)>, key: string, field: Field): T -> bool {
    (x: T) => spot(x) == Some((key, field))
  }

  /** The count shown for a key: 0 when the table has no row for it. */
  function Cell(groups: seq<Group>, key: string, field: Field): nat {
    match FindGroup(groups, key) case Some(i) => CountOf(groups[i], field) case None => 0
  }

  lemma BumpSum(groups: seq<Group>, at: string, what: Field, key: string, field: Field)
    ensures Sum(Bump(groups, at, what), GroupValue(key, field))
         == Sum(groups, GroupValue(key, field)) + if at == key && what == field then 1 else 0
  {
    match FindGroup(groups, at) {
      case Some(i) =>
        SumUpdate(groups, i, More(groups[i], what), GroupValue(key, field));
      case None =>
        SumSnoc(groups, Group(at, map[what := 1]), GroupValue(key, field));
    }
  }

  lemma {:induction false} TallySum<T>(groups: seq<Group>, rows: seq<T>, spot: T -> Option<(string, Field)>,
      key: string, field: Field)
    ensures Sum(Tally(groups, rows, spot), GroupValue(key, field))
         == Sum(groups, GroupValue(key, field)) + Count(rows, Hits(spot, key, field))
  {
    if rows != [] {
      var n := |rows| - 1;
      TallySum(groups, rows[..n], spot, key, field);
      CountSnoc(rows, n, Hits(spot, key, field));
      assert rows[..n + 1] == rows;
      if spot(rows[n]).Some? {
        BumpSum(Tally(groups, rows[..n], spot), spot(rows[n]).value.0, spot(rows[n]).value.1, key, field);
      }
    }
  }

  lemma {:induction false} GroupCount(groups: seq<Group>, key: string)
    ensures Sum(groups, OneGroup(key)) >= 0
    ensures Sum(groups, OneGroup(key)) > 0 <==> FindGroup(groups, key).Some?
  {
    if groups != [] {
      GroupCount(groups[1..], key);
    }
  }

  ghost predicate OneRowEach(groups: seq<Group>) {
    forall key :: Sum(groups, OneGroup(key)) <= 1
  }

  lemma BumpOneRowEach(groups: seq<Group>, at: string, what: Field)
    requires OneRowEach(groups)
    ensures OneRowEach(Bump(groups, at, what))
  {
    forall key ensures Sum(Bump(groups, at, what), OneGroup(key)) <= 1 {
      GroupCount(groups, key);
      match FindGroup(groups, at) {
        case Some(i) =>
          SumUpdate(groups, i, More(groups[i], what), OneGroup(key));
        case None =>
          SumSnoc(groups, Group(at, map[what := 1]), OneGroup(key));
      }
    }
  }

  lemma {:induction false} TallyOneRowEach<T>(groups: seq<Group>, rows: seq<T>, spot: T -> Option<(string, Field)>)
    requires OneRowEach(groups)
    ensures OneRowEach(Tally(groups, rows, spot))
  {
    if rows != [] {
      var n := |rows| - 1;
      TallyOneRowEach(groups, rows[..n], spot);
      if spot(rows[n]).Some? {
        BumpOneRowEach(Tally(groups, rows[..n], spot), spot(rows[n]).value.0, spot(rows[n]).value.1);
      }
    }
  }

  lemma {:induction false} CellIsSum(groups: seq<Group>, key: string, field: Field)
    requires Sum(groups, OneGroup(key)) <= 1
    ensures Cell(groups, key, field) == Sum(groups, GroupValue(key, field))
  {
    if groups != [] {
      GroupCount(groups[1..], key);
      if groups[0].key == key {
        NoGroupNoSum(groups[1..], key, field);
      } else {
        CellIsSum(groups[1..], key, field);
      }
    }
  }

  lemma {:induction false} NoGroupNoSum(groups: seq<Group>, key: string, field: Field)
    requires FindGroup(groups, key).None?
    ensures Sum(groups, GroupValue(key, field)) == 0
  {
    if groups != [] {
      NoGroupNoSum(groups[1..], key, field);
    }
  }

  // ------------------------------------------------------------------ phases against heat

  function FieldOfMetric(m: Metric): Field
    requires m.Queued? || m.Running? || m.Blocked?
  {
    if m.Queued? then QueuedJobs else if m.Running? then RunningJobs else BlockedJobs
  }

  lemma PhaseGroupsOneRowEach(s: Snapshot, f: Filters)
    ensures OneRowEach(PhaseGroups(s, f))
  {
    var t := s.tables;
    var g1 := Tally([], Filter(t.sessions, SessionFilter(s, f)), SessionSpot(s.ix));
    var g2 := Tally(g1, Filter(t.jobs, JobFilter(s.ix, f)), JobSpot(s.ix));
    var g3 := Tally(g2, Filter(t.reviews, ReviewFilter(s.ix, f)), ReviewSpot(s.ix));
    var g4 := Tally(g3, Filter(t.runs, RunFilter(s.ix, f)), RunSpot());
    TallyOneRowEach([], Filter(t.sessions, SessionFilter(s, f)), SessionSpot(s.ix));
    TallyOneRowEach(g1, Filter(t.jobs, JobFilter(s.ix, f)), JobSpot(s.ix));
    TallyOneRowEach(g2, Filter(t.reviews, ReviewFilter(s.ix, f)), ReviewSpot(s.ix));
    TallyOneRowEach(g3, Filter(t.runs, RunFilter(s.ix, f)), RunSpot());
    TallyOneRowEach(g4, Filter(t.tasks, TaskFilter(s.ix, f)), TaskSpot(s.ix));
  }

  // What each of the five loops over the tables counts in one cell.

  function SessionHits(s: Snapshot, f: Filters, p: string, field: Field): nat {
    Count(Filter(s.tables.sessions, SessionFilter(s, f)), Hits(SessionSpot(s.ix), p, field))
  }

  function JobHits(s: Snapshot, f: Filters, p: string, field: Field): nat {
    Count(MatchingJobs(s, f), Hits(JobSpot(s.ix), p, field))
  }

  function ReviewHits(s: Snapshot, f: Filters, p: string, field: Field): nat {
    Count(Filter(s.tables.reviews, ReviewFilter(s.ix, f)), Hits(ReviewSpot(s.ix), p, field))
  }

  function RunHits(s: Snapshot, f: Filters, p: string, field: Field): nat {
    Count(Filter(s.tables.runs, RunFilter(s.ix, f)), Hits(RunSpot(), p, field))
  }

  function TaskHits(s: Snapshot, f: Filters, p: string, field: Field): nat {
    Count(Filter(s.tables.tasks, TaskFilter(s.ix, f)), Hits(TaskSpot(s.ix), p, field))
  }

  /** Every cell of the phase table is the sum of what its five loops count. */
  lemma PhaseGroupsSum(s: Snapshot, f: Filters, p: string, field: Field)
    ensures Sum(PhaseGroups(s, f), GroupValue(p, field))
         == SessionHits(s, f, p, field) + JobHits(s, f, p, field) + ReviewHits(s, f, p, field)
             + RunHits(s, f, p, field) + TaskHits(s, f, p, field)
  {
    var t := s.tables;
    var g1 := Tally([], Filter(t.sessions, SessionFilter(s, f)), SessionSpot(s.ix));
    var g2 := Tally(g1, Filter(t.jobs, JobFilter(s.ix, f)), JobSpot(s.ix));
    var g3 := Tally(g2, Filter(t.reviews, ReviewFilter(s.ix, f)), ReviewSpot(s.ix));
    var g4 := Tally(g3, Filter(t.runs, RunFilter(s.ix, f)), RunSpot());
    TallySum([], Filter(t.sessions, SessionFilter(s, f)), SessionSpot(s.ix), p, field);
    TallySum(g1, Filter(t.jobs, JobFilter(s.ix, f)), JobSpot(s.ix), p, field);
    TallySum(g2, Filter(t.reviews, ReviewFilter(s.ix, f)), ReviewSpot(s.ix), p, field);
    TallySum(g3, Filter(t.runs, RunFilter(s.ix, f)), RunSpot(), p, field);
    TallySum(g4, Filter(t.tasks, TaskFilter(s.ix, f)), TaskSpot(s.ix), p, field);
  }

  lemma PhaseCellIsSum(s: Snapshot, f: Filters, p: string, field: Field)
    ensures Cell(PhaseDistribution(s, f), p, field) == Sum(PhaseGroups(s, f), GroupValue(p, field))
  {
    PhaseGroupsOneRowEach(s, f);
    SumOfSort(PhaseGroups(s, f), ByRank(PhaseRank), OneGroup(p));
    SumOfSort(PhaseGroups(s, f), ByRank(PhaseRank), GroupValue(p, field));
    CellIsSum(PhaseDistribution(s, f), p, field);
  }

  /** Each loop adds to its own columns alone. */
  lemma SessionsElsewhere(s: Snapshot, f: Filters, p: string, field: Field)
    requires !field.SessionCount?
    ensures SessionHits(s, f, p, field) == 0
  {
    CountZero(Filter(s.tables.sessions, SessionFilter(s, f)), Hits(SessionSpot(s.ix), p, field));
  }

  lemma JobsElsewhere(s: Snapshot, f: Filters, p: string, field: Field)
    requires !(field.QueuedJobs? || field.RunningJobs? || field.BlockedJobs?)
    ensures JobHits(s, f, p, field) == 0
  {
    CountZero(MatchingJobs(s, f), Hits(JobSpot(s.ix), p, field));
  }

  lemma ReviewsElsewhere(s: Snapshot, f: Filters, p: string, field: Field)
    requires !field.PendingReviews?
    ensures ReviewHits(s, f, p, field) == 0
  {
    CountZero(Filter(s.tables.reviews, ReviewFilter(s.ix, f)), Hits(ReviewSpot(s.ix), p, field));
  }

  lemma RunsElsewhere(s: Snapshot, f: Filters, p: string, field: Field)
    requires !field.PendingGates?
    ensures RunHits(s, f, p, field) == 0
  {
    CountZero(Filter(s.tables.runs, RunFilter(s.ix, f)), Hits(RunSpot(), p, field));
  }

  lemma TasksElsewhere(s: Snapshot, f: Filters, p: string, field: Field)
    requires !field.TaskCount?
    ensures TaskHits(s, f, p, field) == 0
  {
    CountZero(Filter(s.tables.tasks, TaskFilter(s.ix, f)), Hits(TaskSpot(s.ix), p, field));
  }

  lemma PhaseHitsAreJobs(jobs: seq<Job>, ix: Indexes, p: string, m: Metric)
    requires m.Queued? || m.Running? || m.Blocked?
    ensures Count(jobs, Hits(JobSpot(ix), p, FieldOfMetric(m))) == Count(jobs, Counts(InPhase(p), m, ix))
  {
    CountAgree(jobs, Hits(JobSpot(ix), p, FieldOfMetric(m)), Counts(InPhase(p), m, ix));
  }

  /** The five columns of the phase table, each counted by one loop. */
  lemma PhaseCellsExact(s: Snapshot, f: Filters, p: string, field: Field)
    requires !field.StatusCount? && !field.PendingTasks?
    ensures Cell(PhaseDistribution(s, f), p, field)
         == match field
            case SessionCount => SessionHits(s, f, p, field)
            case PendingReviews => ReviewHits(s, f, p, field)
            case PendingGates => RunHits(s, f, p, field)
            case TaskCount => TaskHits(s, f, p, field)
            case _ => JobHits(s, f, p, field)
  {
    PhaseCellIsSum(s, f, p, field);
    PhaseGroupsSum(s, f, p, field);
    if !field.SessionCount? { SessionsElsewhere(s, f, p, field); }
    if !(field.QueuedJobs? || field.RunningJobs? || field.BlockedJobs?) { JobsElsewhere(s, f, p, field); }
    if !field.PendingReviews? { ReviewsElsewhere(s, f, p, field); }
    if !field.PendingGates? { RunsElsewhere(s, f, p, field); }
    if !field.TaskCount? { TasksElsewhere(s, f, p, field); }
  }

  lemma PhaseJobCell(s: Snapshot, f: Filters, p: string, m: Metric)
    requires m.Queued? || m.Running? || m.Blocked?
    ensures Cell(PhaseDistribution(s, f), p, FieldOfMetric(m)) == Count(MatchingJobs(s, f), Counts(InPhase(p), m, s.ix))
  {
    PhaseCellsExact(s, f, p, FieldOfMetric(m));
    PhaseHitsAreJobs(MatchingJobs(s, f), s.ix, p, m);
  }

  /** For every phase, shown or not, the queued, running and blocked counts of the phase table
      are the sums over the heat rows of that phase. */
  lemma PhasesConserveJobs(s: Snapshot, f: Filters, p: string, m: Metric)
    requires m.Queued? || m.Running? || m.Blocked?
    ensures Cell(PhaseDistribution(s, f), p, FieldOfMetric(m)) == Sum(QueueHeat(s, f), HeatValue(InPhase(p), m))
  {
    PhaseJobCell(s, f, p, m);
    HeatAddsUp(s, f, InPhase(p), m);
  }

  // ------------------------------------------------------------------ single review rows

  function OfKey(key: ReviewKey): Review -> bool {
    (r: Review) => ReviewKeyOf(r) == key
  }

  predicate Within(x: ReviewItem, r: Review) {
    !Less(r.requestedAt, x.oldest) && !Less(x.newest, r.requestedAt)
  }

  /** What a row of the review table says about the reviews it was built from. */
  ghost predicate RowIsExact(x: ReviewItem, reviews: seq<Review>, ix: Indexes) {
    && x.pending == Count(reviews, OfKey(x.key))
    && x.title == SessionTitle(ix, x.key.sessionId)
    && (forall r :: r in reviews && ReviewKeyOf(r) == x.key ==> Within(x, r))
    && (exists r :: r in reviews && ReviewKeyOf(r) == x.key && r.requestedAt == x.oldest)
    && (exists r :: r in reviews && ReviewKeyOf(r) == x.key && r.requestedAt == x.newest)
  }

  ghost predicate OneRowPerKey(items: seq<ReviewItem>) {
    forall i, j :: 0 <= i < j < |items| ==> items[i].key != items[j].key
  }

  lemma SpanGrows(x: ReviewItem, y: ReviewItem, r: Review, s: Review)
    requires y.oldest == Earlier(x.oldest, r.requestedAt) && y.newest == Later(x.newest, r.requestedAt)
    requires !Less(x.newest, x.oldest)
    ensures Within(y, r)
    ensures Within(x, s) ==> Within(y, s)
  {
    NotLessItself(r.requestedAt);
    if Less(r.requestedAt, x.oldest) { LessAsymmetric(r.requestedAt, x.oldest); }
    if Less(x.newest, r.requestedAt) { LessAsymmetric(x.newest, r.requestedAt); }
    if Within(x, s) && Less(s.requestedAt, y.oldest) {
      LessTransitive(s.requestedAt, r.requestedAt, x.oldest);
    }
    if Within(x, s) && Less(y.newest, s.requestedAt) {
      LessTransitive(x.newest, r.requestedAt, s.requestedAt);
    }
  }

  /** One more review of another key changes no row. */
  lemma OtherRowStays(x: ReviewItem, reviews: seq<Review>, r: Review, ix: Indexes)
    requires RowIsExact(x, reviews, ix) && ReviewKeyOf(r) != x.key
    ensures RowIsExact(x, reviews + [r], ix)
  {
    CountAppend(reviews, [r], OfKey(x.key));
    var a :| a in reviews && ReviewKeyOf(a) == x.key && a.requestedAt == x.oldest;
    var b :| b in reviews && ReviewKeyOf(b) == x.key && b.requestedAt == x.newest;
    assert a in reviews + [r] && b in reviews + [r];
  }

  lemma OwnRowGrows(x: ReviewItem, y: ReviewItem, reviews: seq<Review>, r: Review, ix: Indexes)
    requires RowIsExact(x, reviews, ix) && ReviewKeyOf(r) == x.key
    requires y == ReviewItem(x.key, SessionTitle(ix, r.sessionId), x.pending + 1, Earlier(x.oldest, r.requestedAt),
        Later(x.newest, r.requestedAt))
    ensures RowIsExact(y, reviews + [r], ix)
  {
    CountAppend(reviews, [r], OfKey(x.key));
    var a :| a in reviews && ReviewKeyOf(a) == x.key && a.requestedAt == x.oldest;
    var b :| b in reviews && ReviewKeyOf(b) == x.key && b.requestedAt == x.newest;
    assert Within(x, a);
    assert a in reviews + [r] && b in reviews + [r] && r in reviews + [r];
    forall s | s in reviews + [r] && ReviewKeyOf(s) == y.key ensures Within(y, s) {
      SpanGrows(x, y, r, s);
    }
  }

  lemma NewRowIsExact(x: ReviewItem, reviews: seq<Review>, r: Review, ix: Indexes)
    requires x == ReviewItem(ReviewKeyOf(r), SessionTitle(ix, r.sessionId), 1, r.requestedAt, r.requestedAt)
    requires forall s :: s in reviews ==> ReviewKeyOf(s) != x.key
    ensures RowIsExact(x, reviews + [r], ix)
  {
    CountAppend(reviews, [r], OfKey(x.key));
    CountZero(reviews, OfKey(x.key));
    NotLessItself(r.requestedAt);
    assert r in reviews + [r];
  }

  ghost predicate Covers(items: seq<ReviewItem>, reviews: seq<Review>) {
    forall r :: r in reviews ==> FindReview(items, ReviewKeyOf(r)).Some?
  }

  lemma HasRow(items: seq<ReviewItem>, i: nat, key: ReviewKey)
    requires i < |items| && items[i].key == key
    ensures FindReview(items, key).Some?
  {
  }

  lemma AddReviewExact(items: seq<ReviewItem>, reviews: seq<Review>, r: Review, ix: Indexes)
    requires OneRowPerKey(items) && Covers(items, reviews)
    requires forall x :: x in items ==> RowIsExact(x, reviews, ix)
    ensures var next := AddReview(items, r, SessionTitle(ix, r.sessionId));
            forall x :: x in next ==> RowIsExact(x, reviews + [r], ix)
  {
    var next := AddReview(items, r, SessionTitle(ix, r.sessionId));
    forall k | 0 <= k < |next| ensures RowIsExact(next[k], reviews + [r], ix) {
      RowAfterReview(items, reviews, r, ix, k);
    }
  }

  lemma RowAfterReview(items: seq<ReviewItem>, reviews: seq<Review>, r: Review, ix: Indexes, k: nat)
    requires OneRowPerKey(items) && Covers(items, reviews)
    requires forall x :: x in items ==> RowIsExact(x, reviews, ix)
    requires k < |AddReview(items, r, SessionTitle(ix, r.sessionId))|
    ensures RowIsExact(AddReview(items, r, SessionTitle(ix, r.sessionId))[k], reviews + [r], ix)
  {
    var next := AddReview(items, r, SessionTitle(ix, r.sessionId));
    if k < |items| {
      assert items[k] in items;
      if items[k].key != ReviewKeyOf(r) {
        OtherRowStays(items[k], reviews, r, ix);
      } else {
        OwnRowGrows(items[k], next[k], reviews, r, ix);
      }
    } else {
      NoneOfNewKey(items, reviews, ReviewKeyOf(r));
      NewRowIsExact(next[k], reviews, r, ix);
    }
  }

  lemma NoneOfNewKey(items: seq<ReviewItem>, reviews: seq<Review>, key: ReviewKey)
    requires Covers(items, reviews) && FindReview(items, key).None?
    ensures forall s :: s in reviews ==> ReviewKeyOf(s) != key
  {
  }

  lemma AddReviewKeys(items: seq<ReviewItem>, r: Review, title: string)
    requires OneRowPerKey(items)
    ensures OneRowPerKey(AddReview(items, r, title))
  {
  }

  lemma AddReviewCovers(items: seq<ReviewItem>, reviews: seq<Review>, r: Review, title: string)
    requires Covers(items, reviews)
    ensures Covers(AddReview(items, r, title), reviews + [r])
  {
    var next := AddReview(items, r, title);
    forall s | s in reviews + [r] ensures FindReview(next, ReviewKeyOf(s)).Some? {
      var i := if s in reviews then FindReview(items, ReviewKeyOf(s)).value
               else match FindReview(items, ReviewKeyOf(r)) case Some(k) => k case None => |items|;
      HasRow(next, i, ReviewKeyOf(s));
    }
  }

  lemma {:induction false} ReviewItemsExact(reviews: seq<Review>, ix: Indexes)
    ensures var items := ReviewItems(reviews, ix);
            && OneRowPerKey(items) && Covers(items, reviews)
            && forall x :: x in items ==> RowIsExact(x, reviews, ix)
  {
    if reviews != [] {
      var n := |reviews| - 1;
      var front, title := ReviewItems(reviews[..n], ix), SessionTitle(ix, reviews[n].sessionId);
      ReviewItemsExact(reviews[..n], ix);
      assert reviews == reviews[..n] + [reviews[n]];
      assert ReviewItems(reviews, ix) == AddReview(front, reviews[n], title);
      AddReviewExact(front, reviews[..n], reviews[n], ix);
      AddReviewCovers(front, reviews[..n], reviews[n], title);
      AddReviewKeys(front, reviews[n], title);
    }
  }

  /** Every row of the review table counts the matching pending reviews of its key and spans
      exactly their times, and every such review has a row. */
  lemma ReviewRowsAreExact(s: Snapshot, f: Filters)
    ensures var reviews := Filter(s.tables.reviews, ReviewFilter(s.ix, f));
            && (forall x :: x in ReviewBottlenecks(s, f) ==> RowIsExact(x, reviews, s.ix))
            && (forall r :: r in reviews ==> exists x :: x in ReviewBottlenecks(s, f) && x.key == ReviewKeyOf(r))
  {
    var reviews := Filter(s.tables.reviews, ReviewFilter(s.ix, f));
    var items := ReviewItems(reviews, s.ix);
    ReviewItemsExact(reviews, s.ix);
    SortContents(items, ByRank(ReviewRank));
    forall r | r in reviews ensures exists x :: x in ReviewBottlenecks(s, f) && x.key == ReviewKeyOf(r) {
      var i := FindReview(items, ReviewKeyOf(r)).value;
      assert items[i] in items;
    }
  }

  // ------------------------------------------------------------------ phases against reviews

  /** The pending reviews of a row, if its session is in the phase. */
  function ReviewValue(ix: Indexes, p: string): ReviewItem -> int {
    (x: ReviewItem) => if Get(ix.phaseKeyBySessionId, x.key.sessionId) == Some(p) then x.pending else 0
  }

  lemma AddReviewSum(items: seq<ReviewItem>, r: Review, title: string, ix: Indexes, p: string)
    ensures Sum(AddReview(items, r, title), ReviewValue(ix, p))
         == Sum(items, ReviewValue(ix, p)) + if Get(ix.phaseKeyBySessionId, r.sessionId) == Some(p) then 1 else 0
  {
    match FindReview(items, ReviewKeyOf(r)) {
      case Some(i) => SumUpdate(items, i, AddReview(items, r, title)[i], ReviewValue(ix, p));
      case None => SumSnoc(items, ReviewItem(ReviewKeyOf(r), title, 1, r.requestedAt, r.requestedAt),
          ReviewValue(ix, p));
    }
  }

  lemma {:induction false} ReviewItemsSum(reviews: seq<Review>, ix: Indexes, p: string)
    requires forall r :: r in reviews ==> r.reviewStatus == "requested"
    ensures Sum(ReviewItems(reviews, ix), ReviewValue(ix, p)) == Count(reviews, Hits(ReviewSpot(ix), p, PendingReviews))
  {
    if reviews != [] {
      var n := |reviews| - 1;
      ReviewItemsSum(reviews[..n], ix, p);
      AddReviewSum(ReviewItems(reviews[..n], ix), reviews[n], SessionTitle(ix, reviews[n].sessionId), ix, p);
      CountSnoc(reviews, n, Hits(ReviewSpot(ix), p, PendingReviews));
      assert reviews[..n + 1] == reviews;
    }
  }

  /** For every phase, the pending reviews of the phase table are the sum over the review
      bottlenecks of the phase's sessions. */
  lemma PhasesConserveReviews(s: Snapshot, f: Filters, p: string)
    ensures Cell(PhaseDistribution(s, f), p, PendingReviews) == Sum(ReviewBottlenecks(s, f), ReviewValue(s.ix, p))
  {
    var reviews := Filter(s.tables.reviews, ReviewFilter(s.ix, f));
    PhaseCellsExact(s, f, p, PendingReviews);
    ReviewItemsSum(reviews, s.ix, p);
    SumOfSort(ReviewItems(reviews, s.ix), ByRank(ReviewRank), ReviewValue(s.ix, p));
  }

  // ------------------------------------------------------------------ pools against heat

  /** A counter of three tallies in a row is the sum of what each of them counts. */
  lemma ThreeTallies<A, B, C>(a: seq<A>, f: A -> Option<(string, Field)>, b: seq<B>, g: B -> Option<(string, Field)>,
      c: seq<C>, h: C -> Option<(string, Field)>, k: string, field: Field)
    ensures CountOf(GroupOf(Tally(Tally(Tally([], a, f), b, g), c, h), k), field)
         == Count(a, Hits(f, k, field)) + Count(b, Hits(g, k, field)) + Count(c, Hits(h, k, field))
  {
    var g1 := Tally([], a, f);
    var g2 := Tally(g1, b, g);
    TallyOneRowEach([], a, f);
    TallyOneRowEach(g1, b, g);
    TallyOneRowEach(g2, c, h);
    TallySum([], a, f, k, field);
    TallySum(g1, b, g, k, field);
    TallySum(g2, c, h, k, field);
    CellIsSum(Tally(g2, c, h), k, field);
  }

  lemma PoolCell(s: Snapshot, f: Filters, k: string, status: JobStatus)
    ensures CountOf(GroupOf(PoolGroups(s, f), k), StatusCount(status))
        == Count(MatchingJobs(s, f), Hits(PoolJobSpot(s.ix), k, StatusCount(status)))
  {
    var field := StatusCount(status);
    var reviews, tasks := Filter(s.tables.reviews, ReviewFilter(s.ix, f)), Filter(s.tables.tasks, TaskFilter(s.ix, f));
    ThreeTallies(MatchingJobs(s, f), PoolJobSpot(s.ix), reviews, PoolReviewSpot(s.ix), tasks, PoolTaskSpot(s.ix), k,
                 field);
    CountZero(reviews, Hits(PoolReviewSpot(s.ix), k, field));
    CountZero(tasks, Hits(PoolTaskSpot(s.ix), k, field));
  }

  lemma {:induction false} BlockedIsThreeStatuses(jobs: seq<Job>, k: string, ix: Indexes)
    ensures Count(jobs, Counts(InPool(k), Blocked, ix))
         == Count(jobs, Hits(PoolJobSpot(ix), k, StatusCount(InputRequired)))
            + Count(jobs, Hits(PoolJobSpot(ix), k, StatusCount(AuthRequired)))
            + Count(jobs, Hits(PoolJobSpot(ix), k, StatusCount(PausedByLoopGuard)))
  {
    if jobs != [] {
      BlockedIsThreeStatuses(jobs[1..], k, ix);
    }
  }

  lemma PoolRowIs(s: Snapshot, f: Filters, row: PoolRow)
    requires row in RuntimePoolHealth(s, f)
    ensures row == PoolRowOf(PoolGroups(s, f))(row.pool)
  {
    var pools := Filter(PoolMap(s.tables.pools), PoolFilter(f));
    var rows := Map(pools, PoolRowOf(PoolGroups(s, f)));
    SortContents(rows, ByRank(PoolRank));
    assert row in multiset(rows);
    var i :| 0 <= i < |rows| && rows[i] == row;
  }

  lemma PoolCountsJobs(s: Snapshot, f: Filters, k: string)
    ensures var g := GroupOf(PoolGroups(s, f), k);
            && CountOf(g, StatusCount(JobQueued)) == Count(MatchingJobs(s, f), Counts(InPool(k), Queued, s.ix))
            && CountOf(g, StatusCount(InputRequired)) + CountOf(g, StatusCount(AuthRequired))
                + CountOf(g, StatusCount(PausedByLoopGuard))
               == Count(MatchingJobs(s, f), Counts(InPool(k), Blocked, s.ix))
  {
    PoolCell(s, f, k, JobQueued);
    PoolCell(s, f, k, InputRequired);
    PoolCell(s, f, k, AuthRequired);
    PoolCell(s, f, k, PausedByLoopGuard);
    QueuedIsOneStatus(MatchingJobs(s, f), k, s.ix);
    BlockedIsThreeStatuses(MatchingJobs(s, f), k, s.ix);
  }

  lemma QueuedIsOneStatus(jobs: seq<Job>, k: string, ix: Indexes)
    ensures Count(jobs, Counts(InPool(k), Queued, ix)) == Count(jobs, Hits(PoolJobSpot(ix), k, StatusCount(JobQueued)))
  {
    CountAgree(jobs, Hits(PoolJobSpot(ix), k, StatusCount(JobQueued)), Counts(InPool(k), Queued, ix));
  }

  /** For every listed runtime pool, the queued and blocked counts are the sums over the heat
      rows of that pool. */
  lemma PoolsConserveJobs(s: Snapshot, f: Filters, row: PoolRow)
    requires row in RuntimePoolHealth(s, f)
    ensures row.queued == Sum(QueueHeat(s, f), HeatValue(InPool(row.pool.poolKey), Queued))
    ensures row.blocked == Sum(QueueHeat(s, f), HeatValue(InPool(row.pool.poolKey), Blocked))
  {
    var k := row.pool.poolKey;
    PoolRowIs(s, f, row);
    PoolCountsJobs(s, f, k);
    HeatAddsUp(s, f, InPool(k), Queued);
    HeatAddsUp(s, f, InPool(k), Blocked);
  }

  lemma {:induction false} LoadIsInFlight(rows: seq<HeatRow>)
    ensures Sum(rows, Load) == Sum(rows, HeatValue(Everywhere, InFlight))
  {
    if rows != [] {
      LoadIsInFlight(rows[1..]);
    }
  }

  /** The queue depth of the telemetry is the number of matching jobs that are queued, running
      or blocked. */
  lemma QueueDepthCountsJobs(s: Snapshot, f: Filters)
    ensures Sum(QueueHeat(s, f), Load) == Count(MatchingJobs(s, f), Counts(Everywhere, InFlight, s.ix))
  {
    LoadIsInFlight(QueueHeat(s, f));
    HeatAddsUp(s, f, Everywhere, InFlight);
  }
}
