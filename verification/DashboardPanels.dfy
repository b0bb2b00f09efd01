/** The dashboard's panels: loops that group the same rows in different ways
    (app/services/operator_dashboard.py). */
module DashboardPanels {
  import opened Seqs
  import opened Jobs
  import opened Text
  import opened DashboardSnapshot

  const BLOCKED := {InputRequired, AuthRequired, PausedByLoopGuard}

  // ------------------------------------------------------------------ sort keys

  /** The tuple keys of the panels: the negated load first, then texts. */
  datatype RankKey = RankKey(load: int, stamp: Stamp, last: string)

  predicate RankLess(a: RankKey, b: RankKey) {
    || a.load > b.load
    || (a.load == b.load && (Before(a.stamp, b.stamp) || (a.stamp == b.stamp && Less(a.last, b.last))))
  }

  lemma RankTotal(a: RankKey, b: RankKey)
    ensures a == b || RankLess(a, b) || RankLess(b, a)
  {
    BeforeTotal(a.stamp, b.stamp);
    LessTotal(a.last, b.last);
  }

  lemma RankAsymmetric(a: RankKey, b: RankKey)
    requires RankLess(a, b)
    ensures !RankLess(b, a)
  {
    if a.load == b.load {
      if Before(a.stamp, b.stamp) {
        BeforeAsymmetric(a.stamp, b.stamp);
      } else {
        LessAsymmetric(a.last, b.last);
        NotLessItself(a.stamp.createdAt);
        NotLessItself(a.stamp.id);
      }
    }
  }

  lemma RankTransitive(a: RankKey, b: RankKey, c: RankKey)
    requires RankLess(a, b) && RankLess(b, c)
    ensures RankLess(a, c)
  {
    if a.load == b.load == c.load {
      if Before(a.stamp, b.stamp) && Before(b.stamp, c.stamp) {
        BeforeTransitive(a.stamp, b.stamp, c.stamp);
      } else if a.stamp == b.stamp == c.stamp {
        LessTransitive(a.last, b.last, c.last);
      }
    }
  }

  function ByRank<T>(key: T -> RankKey): (T, T) -> bool {
    (x: T, y: T) => !RankLess(key(y), key(x))
  }

  lemma ByRankIsOrder<T(!new)>(key: T -> RankKey)
    ensures TotalPreorder(ByRank(key))
  {
    var le := ByRank(key);
    forall x, y ensures le(x, y) || le(y, x) {
      if RankLess(key(x), key(y)) { RankAsymmetric(key(x), key(y)); }
    }
    forall x, y, z | le(x, y) && le(y, z) ensures le(x, z) {
      if RankLess(key(z), key(x)) {
        RankTotal(key(x), key(y));
        RankTotal(key(y), key(z));
        if RankLess(key(x), key(y)) { RankTransitive(key(z), key(x), key(y)); }
      }
    }
  }

  /** One turn of a loop that skips the rows it does not keep. */
  lemma KeepSnoc<T>(rows: seq<T>, i: nat, keep: T -> bool)
    requires i < |rows|
    ensures var before, after := Filter(rows[..i], keep), Filter(rows[..i + 1], keep);
            if keep(rows[i]) then
              after != [] && after[|after| - 1] == rows[i] && after[..|after| - 1] == before
            else
              after == before
  {
    FilterSnoc(rows, i, keep);
    var before := Filter(rows[..i], keep);
    assert (before + [rows[i]])[..|before|] == before;
    assert before + [] == before;
  }

  // ------------------------------------------------------------------ queue heat

  datatype HeatKey = HeatKey(sessionId: string, phaseKey: Option<string>, poolKey: Option<string>)

  datatype HeatRow = HeatRow(key: HeatKey, title: string, queued: nat, running: nat, blocked: nat, total: nat)

  function HeatKeyOf(j: Job, ix: Indexes): HeatKey {
    HeatKey(j.sessionId, Get(ix.jobPhaseKeyById, j.id), Get(ix.jobPoolKeyById, j.id))
  }

  function FindHeat(rows: seq<HeatRow>, key: HeatKey): (i: Option<nat>)
    ensures i.Some? ==> i.value < |rows| && rows[i.value].key == key
    ensures i.None? ==> forall k :: 0 <= k < |rows| ==> rows[k].key != key
  {
    if rows == [] then None
    else if rows[0].key == key then Some(0)
    else match FindHeat(rows[1..], key) case None => None case Some(k) => Some(k + 1)
  }

  function Counted(row: HeatRow, title: string, status: JobStatus): HeatRow {
    var r := row.(title := title, total := row.total + 1);
    if status.JobQueued? then r.(queued := r.queued + 1)
    else if status.JobRunning? then r.(running := r.running + 1)
    else if status in BLOCKED then r.(blocked := r.blocked + 1)
    else r
  }

  /** One turn of the loop: the group is made on first use, in order of first use. */
  function AddHeat(rows: seq<HeatRow>, j: Job, title: string, ix: Indexes): seq<HeatRow> {
    var key := HeatKeyOf(j, ix);
    match FindHeat(rows, key)
    case Some(i) => rows[i := Counted(rows[i], title, j.status)]
    case None => rows + [Counted(HeatRow(key, "", 0, 0, 0, 0), title, j.status)]
  }

  function SessionTitle(ix: Indexes, sessionId: string): string {
    match Lookup(ix.sessionById, sessionId) case Some(session) => session.title case None => ""
  }

  function TitleOf(j: Job, ix: Indexes): string {
    SessionTitle(ix, j.sessionId)
  }

  /** The groups of a list of matching jobs. */
  function HeatGroups(jobs: seq<Job>, ix: Indexes): seq<HeatRow> {
    if jobs == [] then []
    else
      var last := jobs[|jobs| - 1];
      AddHeat(HeatGroups(jobs[..|jobs| - 1], ix), last, TitleOf(last, ix), ix)
  }

  function HeatRank(r: HeatRow): RankKey {
    RankKey(r.queued + r.running + r.blocked, Stamp(r.key.sessionId, r.key.phaseKey.GetOr("")), r.key.poolKey.GetOr(""))
  }

  function MatchingJobs(s: Snapshot, f: Filters): seq<Job> {
    Filter(s.tables.jobs, JobFilter(s.ix, f))
  }

  function QueueHeat(s: Snapshot, f: Filters): seq<HeatRow> {
    StableSort(HeatGroups(MatchingJobs(s, f), s.ix), ByRank(HeatRank))
  }

  /** `_build_queue_heat` */
  method BuildQueueHeat(s: Snapshot, f: Filters) returns (items: seq<HeatRow>)
    ensures items == QueueHeat(s, f)
    ensures SortedBy(items, ByRank(HeatRank))
  {
    var groups: seq<HeatRow> := [];
    var jobs := s.tables.jobs;
    for i := 0 to |jobs|
      invariant groups == HeatGroups(Filter(jobs[..i], JobFilter(s.ix, f)), s.ix)
    {
      HeatSnoc(s, f, i);
      var session := Lookup(s.ix.sessionById, jobs[i].sessionId);
      if session.None? || !JobMatches(jobs[i], session, s.ix, f) {
        continue;
      }
      groups := AddHeat(groups, jobs[i], session.value.title, s.ix);
    }
    assert jobs[..|jobs|] == jobs;
    items := StableSort(groups, ByRank(HeatRank));
    RankSorts(groups, HeatRank);
  }

  lemma HeatSnoc(s: Snapshot, f: Filters, i: nat)
    requires i < |s.tables.jobs|
    ensures var jobs, keep := s.tables.jobs, JobFilter(s.ix, f);
            HeatGroups(Filter(jobs[..i + 1], keep), s.ix)
            == if keep(jobs[i]) then
                 AddHeat(HeatGroups(Filter(jobs[..i], keep), s.ix), jobs[i], TitleOf(jobs[i], s.ix), s.ix)
               else HeatGroups(Filter(jobs[..i], keep), s.ix)
  {
    KeepSnoc(s.tables.jobs, i, JobFilter(s.ix, f));
  }

  lemma RankSorts<T(!new)>(rows: seq<T>, key: T -> RankKey)
    ensures SortedBy(StableSort(rows, ByRank(key)), ByRank(key))
  {
    ByRankIsOrder(key);
    SortSorted(rows, ByRank(key));
  }

  // ------------------------------------------------------------------ counters by key

  /** What a `Counter` of the panels counts. */
  datatype Field =
    | SessionCount | QueuedJobs | RunningJobs | BlockedJobs | PendingReviews | PendingGates | TaskCount
    | StatusCount(status: JobStatus) | PendingTasks

  /** One entry of a `defaultdict(Counter)`. */
  datatype Group = Group(key: string, counts: map<Field, nat>)

  function CountOf(g: Group, field: Field): nat {
    if field in g.counts then g.counts[field] else 0
  }

  function FindGroup(groups: seq<Group>, key: string): (i: Option<nat>)
    ensures i.Some? ==> i.value < |groups| && groups[i.value].key == key
    ensures i.None? ==> forall k :: 0 <= k < |groups| ==> groups[k].key != key
  {
    if groups == [] then None
    else if groups[0].key == key then Some(0)
    else match FindGroup(groups[1..], key) case None => None case Some(k) => Some(k + 1)
  }

  function More(g: Group, field: Field): Group {
    g.(counts := g.counts[field := CountOf(g, field) + 1])
  }

  /** `groups[key][field] += 1` */
  function Bump(groups: seq<Group>, key: string, field: Field): seq<Group> {
    match FindGroup(groups, key)
    case Some(i) => groups[i := More(groups[i], field)]
    case None => groups + [Group(key, map[field := 1])]
  }

  /** A loop that bumps, for each row that has one, the counter of the row's key and field. */
  function Tally<T>(groups: seq<Group>, rows: seq<T>, spot: T -> Option<(string, Field)>): seq<Group> {
    if rows == [] then groups
    else
      var before := Tally(groups, rows[..|rows| - 1], spot);
      match spot(rows[|rows| - 1])
      case None => before
      case Some((key, field)) => Bump(before, key, field)
  }

  lemma TallySnoc<T>(groups: seq<Group>, rows: seq<T>, i: nat, keep: T -> bool, spot: T -> Option<(string, Field)>)
    requires i < |rows|
    ensures var next := Tally(groups, Filter(rows[..i + 1], keep), spot);
            next == if keep(rows[i]) && spot(rows[i]).Some?
                    then Bump(Tally(groups, Filter(rows[..i], keep), spot), spot(rows[i]).value.0,
                        spot(rows[i]).value.1)
                    else Tally(groups, Filter(rows[..i], keep), spot)
  {
    KeepSnoc(rows, i, keep);
  }

  // ------------------------------------------------------------------ phase distribution

  function SessionSpot(ix: Indexes): Session -> Option<(string, Field)> {
    (x: Session) => match Get(ix.phaseKeyBySessionId, x.id) case None => None case Some(p) => Some((p, SessionCount))
  }

  function FieldOfJob(status: JobStatus): Option<Field> {
    if status.JobQueued? then Some(QueuedJobs)
    else if status.JobRunning? then Some(RunningJobs)
    else if status in BLOCKED then Some(BlockedJobs)
    else None
  }

  function JobSpot(ix: Indexes): Job -> Option<(string, Field)> {
    (j: Job) => match (Get(ix.jobPhaseKeyById, j.id), FieldOfJob(j.status))
                case (Some(p), Some(field)) => Some((p, field))
                case _ => None
  }

  function ReviewSpot(ix: Indexes): Review -> Option<(string, Field)> {
    (r: Review) => match Get(ix.phaseKeyBySessionId, r.sessionId)
                   case None => None
                   case Some(p) => if r.reviewStatus == "requested" then Some((p, PendingReviews)) else None
  }

  function RunSpot(): OrchestrationRun -> Option<(string, Field)> {
    (r: OrchestrationRun) => match RunPhaseKey(r)
                             case None => None
                             case Some(p) => if r.gateStatus == "pending" then Some((p, PendingGates)) else None
  }

  function TaskSpot(ix: Indexes): Task -> Option<(string, Field)> {
    (t: Task) => match Get(ix.taskPhaseKeyById, t.id) case None => None case Some(p) => Some((p, TaskCount))
  }

  function PhaseGroups(s: Snapshot, f: Filters): seq<Group> {
    var t := s.tables;
    var g1 := Tally([], Filter(t.sessions, SessionFilter(s, f)), SessionSpot(s.ix));
    var g2 := Tally(g1, Filter(t.jobs, JobFilter(s.ix, f)), JobSpot(s.ix));
    var g3 := Tally(g2, Filter(t.reviews, ReviewFilter(s.ix, f)), ReviewSpot(s.ix));
    var g4 := Tally(g3, Filter(t.runs, RunFilter(s.ix, f)), RunSpot());
    Tally(g4, Filter(t.tasks, TaskFilter(s.ix, f)), TaskSpot(s.ix))
  }

  function PhaseRank(g: Group): RankKey {
    RankKey(CountOf(g, BlockedJobs) + CountOf(g, PendingReviews) + CountOf(g, PendingGates)
            + CountOf(g, QueuedJobs) + CountOf(g, RunningJobs) + CountOf(g, TaskCount), Stamp(g.key, ""), "")
  }

  function PhaseDistribution(s: Snapshot, f: Filters): seq<Group> {
    StableSort(PhaseGroups(s, f), ByRank(PhaseRank))
  }

  method TallySessions(s: Snapshot, f: Filters) returns (groups: seq<Group>)
    ensures groups == Tally([], Filter(s.tables.sessions, SessionFilter(s, f)), SessionSpot(s.ix))
  {
    groups := [];
    var rows := s.tables.sessions;
    for i := 0 to |rows|
      invariant groups == Tally([], Filter(rows[..i], SessionFilter(s, f)), SessionSpot(s.ix))
    {
      TallySnoc([], rows, i, SessionFilter(s, f), SessionSpot(s.ix));
      var phaseKey := Get(s.ix.phaseKeyBySessionId, rows[i].id);
      if phaseKey.None? || !SessionMatches(rows[i], phaseKey, s, f) {
        continue;
      }
      groups := Bump(groups, phaseKey.value, SessionCount);
    }
    assert rows[..|rows|] == rows;
  }

  method TallyJobs(start: seq<Group>, s: Snapshot, f: Filters) returns (groups: seq<Group>)
    ensures groups == Tally(start, Filter(s.tables.jobs, JobFilter(s.ix, f)), JobSpot(s.ix))
  {
    groups := start;
    var rows := s.tables.jobs;
    for i := 0 to |rows|
      invariant groups == Tally(start, Filter(rows[..i], JobFilter(s.ix, f)), JobSpot(s.ix))
    {
      TallySnoc(start, rows, i, JobFilter(s.ix, f), JobSpot(s.ix));
      var session := Lookup(s.ix.sessionById, rows[i].sessionId);
      var phaseKey := Get(s.ix.jobPhaseKeyById, rows[i].id);
      if session.None? || phaseKey.None? {
        continue;
      }
      if !JobMatches(rows[i], session, s.ix, f) {
        continue;
      }
      if rows[i].status.JobQueued? {
        groups := Bump(groups, phaseKey.value, QueuedJobs);
      } else if rows[i].status.JobRunning? {
        groups := Bump(groups, phaseKey.value, RunningJobs);
      } else if rows[i].status in BLOCKED {
        groups := Bump(groups, phaseKey.value, BlockedJobs);
      }
    }
    assert rows[..|rows|] == rows;
  }

  method TallyReviews(start: seq<Group>, s: Snapshot, f: Filters) returns (groups: seq<Group>)
    ensures groups == Tally(start, Filter(s.tables.reviews, ReviewFilter(s.ix, f)), ReviewSpot(s.ix))
  {
    groups := start;
    var rows := s.tables.reviews;
    for i := 0 to |rows|
      invariant groups == Tally(start, Filter(rows[..i], ReviewFilter(s.ix, f)), ReviewSpot(s.ix))
    {
      TallySnoc(start, rows, i, ReviewFilter(s.ix, f), ReviewSpot(s.ix));
      var session := Lookup(s.ix.sessionById, rows[i].sessionId);
      var phaseKey := Get(s.ix.phaseKeyBySessionId, rows[i].sessionId);
      if session.None? || phaseKey.None? || !ReviewMatches(rows[i], session, s.ix, f) {
        continue;
      }
      if rows[i].reviewStatus == "requested" {
        groups := Bump(groups, phaseKey.value, PendingReviews);
      }
    }
    assert rows[..|rows|] == rows;
  }

  method TallyRuns(start: seq<Group>, s: Snapshot, f: Filters) returns (groups: seq<Group>)
    ensures groups == Tally(start, Filter(s.tables.runs, RunFilter(s.ix, f)), RunSpot())
  {
    groups := start;
    var rows := s.tables.runs;
    for i := 0 to |rows|
      invariant groups == Tally(start, Filter(rows[..i], RunFilter(s.ix, f)), RunSpot())
    {
      TallySnoc(start, rows, i, RunFilter(s.ix, f), RunSpot());
      var session := Lookup(s.ix.sessionById, rows[i].sessionId);
      if session.None? || !RunMatches(rows[i], session, s.ix, f) {
        continue;
      }
      var phaseKey := RunPhaseKey(rows[i]);
      if phaseKey.Some? && rows[i].gateStatus == "pending" {
        groups := Bump(groups, phaseKey.value, PendingGates);
      }
    }
    assert rows[..|rows|] == rows;
  }

  method TallyTasks(start: seq<Group>, s: Snapshot, f: Filters) returns (groups: seq<Group>)
    ensures groups == Tally(start, Filter(s.tables.tasks, TaskFilter(s.ix, f)), TaskSpot(s.ix))
  {
    groups := start;
    var rows := s.tables.tasks;
    for i := 0 to |rows|
      invariant groups == Tally(start, Filter(rows[..i], TaskFilter(s.ix, f)), TaskSpot(s.ix))
    {
      TallySnoc(start, rows, i, TaskFilter(s.ix, f), TaskSpot(s.ix));
      var phaseKey := Get(s.ix.taskPhaseKeyById, rows[i].id);
      if phaseKey.None? || !TaskMatches(rows[i], s.ix, f) {
        continue;
      }
      groups := Bump(groups, phaseKey.value, TaskCount);
    }
    assert rows[..|rows|] == rows;
  }

  /** `_build_phase_distribution`, one loop per list. */
  method BuildPhaseDistribution(s: Snapshot, f: Filters) returns (items: seq<Group>)
    ensures items == PhaseDistribution(s, f)
    ensures SortedBy(items, ByRank(PhaseRank))
  {
    var groups := TallySessions(s, f);
    groups := TallyJobs(groups, s, f);
    groups := TallyReviews(groups, s, f);
    groups := TallyRuns(groups, s, f);
    groups := TallyTasks(groups, s, f);
    items := StableSort(groups, ByRank(PhaseRank));
    RankSorts(groups, PhaseRank);
  }

  // ------------------------------------------------------------------ runtime pools

  datatype PoolRow = PoolRow(pool: Pool, queued: nat, blocked: nat, pendingReviews: nat, pendingTasks: nat)

  function PoolJobSpot(ix: Indexes): Job -> Option<(string, Field)> {
    (j: Job) => match Get(ix.jobPoolKeyById, j.id) case None => None case Some(k) => Some((k, StatusCount(j.status)))
  }

  function PoolReviewSpot(ix: Indexes): Review -> Option<(string, Field)> {
    (r: Review) => match Get(ix.jobPoolKeyById, r.sourceJobId.GetOr(""))
                   case None => None
                   case Some(k) => if r.reviewStatus == "requested" then Some((k, PendingReviews)) else None
  }

  function PoolTaskSpot(ix: Indexes): Task -> Option<(string, Field)> {
    (t: Task) => match Get(ix.taskPoolKeyById, t.id)
                 case None => None
                 case Some(k) => if t.status in {"queued", "running", "input_required", "auth_required"}
                     then Some((k, PendingTasks)) else None
  }

  function PoolGroups(s: Snapshot, f: Filters): seq<Group> {
    var g1 := Tally([], Filter(s.tables.jobs, JobFilter(s.ix, f)), PoolJobSpot(s.ix));
    var g2 := Tally(g1, Filter(s.tables.reviews, ReviewFilter(s.ix, f)), PoolReviewSpot(s.ix));
    Tally(g2, Filter(s.tables.tasks, TaskFilter(s.ix, f)), PoolTaskSpot(s.ix))
  }

  function FindPool(pools: seq<Pool>, key: string): (i: Option<nat>)
    ensures i.Some? ==> i.value < |pools| && pools[i.value].poolKey == key
    ensures i.None? ==> forall k :: 0 <= k < |pools| ==> pools[k].poolKey != key
  {
    if pools == [] then None
    else if pools[0].poolKey == key then Some(0)
    else match FindPool(pools[1..], key) case None => None case Some(k) => Some(k + 1)
  }

  /** `_pool_map(...).values()`: one pool per key, at its first place, with its last value. */
  function PoolMap(pools: seq<Pool>): seq<Pool> {
    if pools == [] then [] else AddPool(PoolMap(pools[..|pools| - 1]), pools[|pools| - 1])
  }

  /** An assignment to a dictionary keeps the place of a key that it has. */
  function AddPool(pools: seq<Pool>, p: Pool): seq<Pool> {
    match FindPool(pools, p.poolKey)
    case Some(i) => pools[i := p]
    case None => pools + [p]
  }

  function GroupOf(groups: seq<Group>, key: string): Group {
    match FindGroup(groups, key) case Some(i) => groups[i] case None => Group(key, map[])
  }

  function PoolRowOf(groups: seq<Group>): Pool -> PoolRow {
    (p: Pool) =>
      var g := GroupOf(groups, p.poolKey);
      PoolRow(p, CountOf(g, StatusCount(JobQueued)),
              CountOf(g, StatusCount(InputRequired)) + CountOf(g, StatusCount(AuthRequired))
                  + CountOf(g, StatusCount(PausedByLoopGuard)),
              CountOf(g, PendingReviews), CountOf(g, PendingTasks))
  }

  function PoolRank(r: PoolRow): RankKey {
    RankKey(r.blocked + r.queued + r.pool.waitingContexts + r.pendingReviews + r.pendingTasks,
        Stamp(r.pool.poolKey, ""), "")
  }

  function RuntimePoolHealth(s: Snapshot, f: Filters): seq<PoolRow> {
    StableSort(Map(Filter(PoolMap(s.tables.pools), PoolFilter(f)), PoolRowOf(PoolGroups(s, f))), ByRank(PoolRank))
  }

  method TallyPoolJobs(s: Snapshot, f: Filters) returns (groups: seq<Group>)
    ensures groups == Tally([], Filter(s.tables.jobs, JobFilter(s.ix, f)), PoolJobSpot(s.ix))
  {
    groups := [];
    var rows := s.tables.jobs;
    for i := 0 to |rows|
      invariant groups == Tally([], Filter(rows[..i], JobFilter(s.ix, f)), PoolJobSpot(s.ix))
    {
      TallySnoc([], rows, i, JobFilter(s.ix, f), PoolJobSpot(s.ix));
      var session := Lookup(s.ix.sessionById, rows[i].sessionId);
      if session.None? || !JobMatches(rows[i], session, s.ix, f) {
        continue;
      }
      var poolKey := Get(s.ix.jobPoolKeyById, rows[i].id);
      if poolKey.Some? {
        groups := Bump(groups, poolKey.value, StatusCount(rows[i].status));
      }
    }
    assert rows[..|rows|] == rows;
  }

  method TallyPoolReviews(start: seq<Group>, s: Snapshot, f: Filters) returns (groups: seq<Group>)
    ensures groups == Tally(start, Filter(s.tables.reviews, ReviewFilter(s.ix, f)), PoolReviewSpot(s.ix))
  {
    groups := start;
    var rows := s.tables.reviews;
    for i := 0 to |rows|
      invariant groups == Tally(start, Filter(rows[..i], ReviewFilter(s.ix, f)), PoolReviewSpot(s.ix))
    {
      TallySnoc(start, rows, i, ReviewFilter(s.ix, f), PoolReviewSpot(s.ix));
      var session := Lookup(s.ix.sessionById, rows[i].sessionId);
      if session.None? || !ReviewMatches(rows[i], session, s.ix, f) {
        continue;
      }
      var poolKey := Get(s.ix.jobPoolKeyById, rows[i].sourceJobId.GetOr(""));
      if poolKey.Some? && rows[i].reviewStatus == "requested" {
        groups := Bump(groups, poolKey.value, PendingReviews);
      }
    }
    assert rows[..|rows|] == rows;
  }

  method TallyPoolTasks(start: seq<Group>, s: Snapshot, f: Filters) returns (groups: seq<Group>)
    ensures groups == Tally(start, Filter(s.tables.tasks, TaskFilter(s.ix, f)), PoolTaskSpot(s.ix))
  {
    groups := start;
    var rows := s.tables.tasks;
    for i := 0 to |rows|
      invariant groups == Tally(start, Filter(rows[..i], TaskFilter(s.ix, f)), PoolTaskSpot(s.ix))
    {
      TallySnoc(start, rows, i, TaskFilter(s.ix, f), PoolTaskSpot(s.ix));
      if !TaskMatches(rows[i], s.ix, f) {
        continue;
      }
      var poolKey := Get(s.ix.taskPoolKeyById, rows[i].id);
      if poolKey.Some? && rows[i].status in {"queued", "running", "input_required", "auth_required"} {
        groups := Bump(groups, poolKey.value, PendingTasks);
      }
    }
    assert rows[..|rows|] == rows;
  }

  /** `_build_runtime_pool_health` */
  method BuildRuntimePoolHealth(s: Snapshot, f: Filters) returns (items: seq<PoolRow>)
    ensures items == RuntimePoolHealth(s, f)
    ensures SortedBy(items, ByRank(PoolRank))
  {
    var groups := TallyPoolJobs(s, f);
    groups := TallyPoolReviews(groups, s, f);
    groups := TallyPoolTasks(groups, s, f);
    items := PoolRows(PoolMap(s.tables.pools), groups, f);
    RankSorts(items, PoolRank);
    items := StableSort(items, ByRank(PoolRank));
  }

  lemma PoolRowsSnoc(pools: seq<Pool>, i: nat, groups: seq<Group>, f: Filters)
    requires i < |pools|
    ensures var before := Map(Filter(pools[..i], PoolFilter(f)), PoolRowOf(groups));
            Map(Filter(pools[..i + 1], PoolFilter(f)), PoolRowOf(groups))
            == if PoolFilter(f)(pools[i]) then before + [PoolRowOf(groups)(pools[i])] else before
  {
    FilterSnoc(pools, i, PoolFilter(f));
    MapSnoc(Filter(pools[..i], PoolFilter(f)), pools[i], PoolRowOf(groups));
  }

  method PoolRows(pools: seq<Pool>, groups: seq<Group>, f: Filters) returns (items: seq<PoolRow>)
    ensures items == Map(Filter(pools, PoolFilter(f)), PoolRowOf(groups))
  {
    items := [];
    for i := 0 to |pools|
      invariant items == Map(Filter(pools[..i], PoolFilter(f)), PoolRowOf(groups))
    {
      PoolRowsSnoc(pools, i, groups, f);
      if f.poolKey.Some? && Some(pools[i].poolKey) != f.poolKey {
        continue;
      }
      items := items + [PoolRowOf(groups)(pools[i])];
    }
    assert pools[..|pools|] == pools;
  }

  // ------------------------------------------------------------------ review bottlenecks

  datatype ReviewKey = ReviewKey(sessionId: string, templateKey: string, channelKey: string, scope: string)

  datatype ReviewItem = ReviewItem(key: ReviewKey, title: string, pending: nat, oldest: string, newest: string)

  function ReviewKeyOf(r: Review): ReviewKey {
    ReviewKey(r.sessionId, r.templateKey, r.channelKey, r.scope)
  }

  function FindReview(items: seq<ReviewItem>, key: ReviewKey): (i: Option<nat>)
    ensures i.Some? ==> i.value < |items| && items[i.value].key == key
    ensures i.None? ==> forall k :: 0 <= k < |items| ==> items[k].key != key
  {
    if items == [] then None
    else if items[0].key == key then Some(0)
    else match FindReview(items[1..], key) case None => None case Some(k) => Some(k + 1)
  }

  function Earlier(a: string, b: string): string {
    if Less(b, a) then b else a
  }

  function Later(a: string, b: string): string {
    if Less(a, b) then b else a
  }

  function AddReview(items: seq<ReviewItem>, r: Review, title: string): seq<ReviewItem> {
    match FindReview(items, ReviewKeyOf(r))
    case Some(i) =>
      var x := items[i];
      items[i := x.(title := title, pending := x.pending + 1, oldest := Earlier(x.oldest, r.requestedAt),
          newest := Later(x.newest, r.requestedAt))]
    case None => items + [ReviewItem(ReviewKeyOf(r), title, 1, r.requestedAt, r.requestedAt)]
  }

  function ReviewItems(reviews: seq<Review>, ix: Indexes): seq<ReviewItem> {
    if reviews == [] then []
    else
      var last := reviews[|reviews| - 1];
      AddReview(ReviewItems(reviews[..|reviews| - 1], ix), last, SessionTitle(ix, last.sessionId))
  }

  function ReviewRank(x: ReviewItem): RankKey {
    RankKey(x.pending, Stamp(x.key.sessionId, x.key.templateKey), x.key.channelKey)
  }

  function ReviewBottlenecks(s: Snapshot, f: Filters): seq<ReviewItem> {
    StableSort(ReviewItems(Filter(s.tables.reviews, ReviewFilter(s.ix, f)), s.ix), ByRank(ReviewRank))
  }

  /** `_build_review_bottlenecks` */
  method BuildReviewBottlenecks(s: Snapshot, f: Filters) returns (items: seq<ReviewItem>)
    ensures items == ReviewBottlenecks(s, f)
  {
    items := [];
    var rows := s.tables.reviews;
    for i := 0 to |rows|
      invariant items == ReviewItems(Filter(rows[..i], ReviewFilter(s.ix, f)), s.ix)
    {
      ReviewSnoc(s, f, i);
      var session := Lookup(s.ix.sessionById, rows[i].sessionId);
      if session.None? || rows[i].reviewStatus != "requested" {
        continue;
      }
      if !ReviewMatches(rows[i], session, s.ix, f) {
        continue;
      }
      items := AddReview(items, rows[i], session.value.title);
    }
    assert rows[..|rows|] == rows;
    items := StableSort(items, ByRank(ReviewRank));
  }

  lemma ReviewSnoc(s: Snapshot, f: Filters, i: nat)
    requires i < |s.tables.reviews|
    ensures var rows, keep := s.tables.reviews, ReviewFilter(s.ix, f);
            ReviewItems(Filter(rows[..i + 1], keep), s.ix)
            == if keep(rows[i]) then
                 AddReview(ReviewItems(Filter(rows[..i], keep), s.ix), rows[i], SessionTitle(s.ix, rows[i].sessionId))
               else ReviewItems(Filter(rows[..i], keep), s.ix)
  {
    KeepSnoc(s.tables.reviews, i, ReviewFilter(s.ix, f));
  }

  // ------------------------------------------------------------------ tasks and webhooks

  datatype Throughput = Throughput(total: nat, queued: nat, running: nat, inputRequired: nat, authRequired: nat,
                                   completed: nat, failed: nat, canceled: nat)

  function HasTaskStatus(status: string): Task -> bool {
    (t: Task) => t.status == status
  }

  function TaskThroughput(s: Snapshot, f: Filters): Throughput {
    CountThroughput(Filter(s.tables.tasks, TaskFilter(s.ix, f)))
  }

  /** `_build_public_task_throughput`, whose Counter is here one counter per reported status. */
  method BuildPublicTaskThroughput(s: Snapshot, f: Filters) returns (r: Throughput)
    ensures r == TaskThroughput(s, f)
  {
    var counts: map<string, nat> := map[];
    var total := 0;
    var rows := s.tables.tasks;
    for i := 0 to |rows|
      invariant CountsStatuses(counts, Filter(rows[..i], TaskFilter(s.ix, f)))
      invariant total == |Filter(rows[..i], TaskFilter(s.ix, f))|
    {
      KeepSnoc(rows, i, TaskFilter(s.ix, f));
      if TaskMatches(rows[i], s.ix, f) {
        CountsSnoc(counts, Filter(rows[..i + 1], TaskFilter(s.ix, f)));
        counts := counts[rows[i].status := Read(counts, rows[i].status) + 1];
        total := total + 1;
      }
    }
    assert rows[..|rows|] == rows;
    r := ReadThroughput(counts, total);
    ThroughputIsRead(counts, Filter(rows, TaskFilter(s.ix, f)));
  }

  function ReadThroughput(counts: map<string, nat>, total: nat): Throughput {
    Throughput(total, Read(counts, "queued"), Read(counts, "running"),
               Read(counts, "input_required"), Read(counts, "auth_required"),
               Read(counts, "completed"), Read(counts, "failed"), Read(counts, "canceled"))
  }

  function CountThroughput(tasks: seq<Task>): Throughput {
    Throughput(|tasks|, Count(tasks, HasTaskStatus("queued")), Count(tasks, HasTaskStatus("running")),
               Count(tasks, HasTaskStatus("input_required")), Count(tasks, HasTaskStatus("auth_required")),
               Count(tasks, HasTaskStatus("completed")), Count(tasks, HasTaskStatus("failed")),
               Count(tasks, HasTaskStatus("canceled")))
  }

  lemma ThroughputIsRead(counts: map<string, nat>, tasks: seq<Task>)
    requires CountsStatuses(counts, tasks)
    ensures ReadThroughput(counts, |tasks|) == CountThroughput(tasks)
  {
  }

  ghost predicate CountsStatuses(counts: map<string, nat>, tasks: seq<Task>) {
    forall status :: Read(counts, status) == Count(tasks, HasTaskStatus(status))
  }

  lemma CountsSnoc(counts: map<string, nat>, tasks: seq<Task>)
    requires tasks != [] && CountsStatuses(counts, tasks[..|tasks| - 1])
    ensures var t := tasks[|tasks| - 1];
            CountsStatuses(counts[t.status := Read(counts, t.status) + 1], tasks)
  {
    var n := |tasks| - 1;
    var next := counts[tasks[n].status := Read(counts, tasks[n].status) + 1];
    assert tasks[..n + 1] == tasks;
    forall status ensures Read(next, status) == Count(tasks, HasTaskStatus(status)) {
      CountSnoc(tasks, n, HasTaskStatus(status));
      assert Read(counts, status) == Count(tasks[..n], HasTaskStatus(status));
    }
  }

  function Read(counts: map<string, nat>, status: string): nat {
    if status in counts then counts[status] else 0
  }

  datatype WebhookSummary = WebhookSummary(registrations: nat, active: nat, disabled: nat,
                                           pending: nat, retrying: nat, failed: nat, delivered: nat)

  function HasDeliveryStatus(status: string): Delivery -> bool {
    (d: Delivery) => d.status == status
  }

  predicate IsActive(r: Registration) {
    r.status == "active"
  }

  predicate IsDisabled(r: Registration) {
    r.status != "active"
  }

  /** `_build_outbound_webhook_summary` */
  function OutboundWebhooks(s: Snapshot, f: Filters): WebhookSummary {
    var registrations := Filter(s.tables.registrations, RegistrationFilter(s, f));
    var deliveries := Filter(s.tables.deliveries, DeliveryFilter(registrations, s, f));
    WebhookSummary(|registrations|,
                   Count(registrations, IsActive),
                   Count(registrations, IsDisabled),
                   Count(deliveries, HasDeliveryStatus("pending")), Count(deliveries, HasDeliveryStatus("retrying")),
                   Count(deliveries, HasDeliveryStatus("failed")), Count(deliveries, HasDeliveryStatus("delivered")))
  }

  // ------------------------------------------------------------------ the whole dashboard

  datatype Dashboard = Dashboard(queueHeat: seq<HeatRow>, phases: seq<Group>, reviews: seq<ReviewItem>,
                                 pools: seq<PoolRow>, tasks: Throughput, webhooks: WebhookSummary)

  /** The aggregated panels of `_build_dashboard`. */
  function BuildDashboard(s: Snapshot, f: Filters): Dashboard {
    Dashboard(QueueHeat(s, f), PhaseDistribution(s, f), ReviewBottlenecks(s, f),
              RuntimePoolHealth(s, f), TaskThroughput(s, f), OutboundWebhooks(s, f))
  }

  function Load(r: HeatRow): int {
    r.queued + r.running + r.blocked
  }

  /** `queue_depth` in `_telemetry_metrics` */
  method QueueDepth(heat: seq<HeatRow>) returns (depth: int)
    ensures depth == Sum(heat, Load)
  {
    depth := 0;
    for i := 0 to |heat|
      invariant depth == Sum(heat[..i], Load)
    {
      assert heat[..i + 1] == heat[..i] + [heat[i]];
      SumAppend(heat[..i], [heat[i]], Load);
      depth := depth + heat[i].queued + heat[i].running + heat[i].blocked;
    }
    assert heat[..|heat|] == heat;
  }
}
