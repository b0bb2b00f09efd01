/** The dashboard's tables, told from the database tables: what each cell counts, which rows
    are shown, and in which order. */
module DashboardCounts {
  import opened Seqs
  import opened Jobs
  import opened Text
  import opened DashboardSnapshot
  import opened DashboardPanels
  import opened DashboardTheorems
  import opened DashboardRows

  /** How a job's status is shown: blocked work waits for someone. */
  predicate ShownAs(status: JobStatus, m: Metric) {
    var blocked := status.InputRequired? || status.AuthRequired? || status.PausedByLoopGuard?;
    match m
    case Queued => status.JobQueued?
    case Running => status.JobRunning?
    case Blocked => blocked
    case InFlight => status.JobQueued? || status.JobRunning? || blocked
    case Total => true
  }

  lemma MetricIsShown(status: JobStatus, m: Metric)
    ensures InMetric(status, m) <==> ShownAs(status, m)
  {
  }

  // ------------------------------------------------------------------ what a loaded snapshot tells

  ghost predicate TellsPhase(s: Snapshot, j: Job, p: string) {
    Get(s.ix.jobPhaseKeyById, j.id) == Some(p) <==> SessionInPhase(s.tables, j.sessionId, p)
  }

  ghost predicate TellsPool(s: Snapshot, j: Job, k: string) {
    Get(s.ix.jobPoolKeyById, j.id) == Some(k) <==> JobInPool(s.tables, j.id, k)
  }

  ghost predicate TellsPoolOf(s: Snapshot, jobId: string, k: string) {
    Get(s.ix.jobPoolKeyById, jobId) == Some(k) <==> HasJob(s.tables, jobId) && JobInPool(s.tables, jobId, k)
  }

  ghost predicate TellsSessionPhase(s: Snapshot, sessionId: string, p: string) {
    Get(s.ix.phaseKeyBySessionId, sessionId) == Some(p) <==> SessionInPhase(s.tables, sessionId, p)
  }

  ghost predicate TellsTask(s: Snapshot, x: Task, k: string) {
    && (Get(s.ix.taskPoolKeyById, x.id) == Some(k) <==> HasJob(s.tables, x.jobId) && JobInPool(s.tables, x.jobId, k))
    && (Get(s.ix.taskPhaseKeyById, x.id) == Some(k) <==> JobInPhase(s.tables, x.jobId, k))
  }

  ghost predicate TellsTitle(s: Snapshot, x: Session) {
    Lookup(s.ix.sessionById, x.id) == Some(x)
  }

  /** The indexes of a snapshot tell of its tables. */
  ghost predicate Tells(s: Snapshot) {
    && (forall j, p {:trigger TellsPhase(s, j, p)} :: j in s.tables.jobs ==> TellsPhase(s, j, p))
    && (forall j, k {:trigger TellsPool(s, j, k)} :: j in s.tables.jobs ==> TellsPool(s, j, k))
    && (forall id, k {:trigger TellsPoolOf(s, id, k)} :: TellsPoolOf(s, id, k))
    && (forall id, p {:trigger TellsSessionPhase(s, id, p)} :: TellsSessionPhase(s, id, p))
    && (forall x, k {:trigger TellsTask(s, x, k)} :: x in s.tables.tasks ==> TellsTask(s, x, k))
    && (forall x {:trigger TellsTitle(s, x)} :: x in s.tables.sessions ==> TellsTitle(s, x))
  }

  /** Filtering by the indexes keeps the rows that are asked for. */
  ghost predicate KeepsRight(s: Snapshot, f: Filters) {
    var t := s.tables;
    && MatchingJobs(s, f) == KeptJobs(t, f)
    && Filter(t.sessions, SessionFilter(s, f)) == KeptSessions(t, f)
    && Filter(t.reviews, ReviewFilter(s.ix, f)) == KeptReviews(t, f)
    && Filter(t.runs, RunFilter(s.ix, f)) == KeptRuns(t, f)
    && Filter(t.tasks, TaskFilter(s.ix, f)) == KeptTasks(t, f)
  }

  lemma LoadTells(t: Tables)
    requires UniqueIds(t)
    ensures Tells(LoadSnapshot(t)) && LoadSnapshot(t).tables == t
  {
    var s := LoadSnapshot(t);
    forall j, p | j in t.jobs ensures TellsPhase(s, j, p) {
      JobPhaseLookup(t, j.id, p);
      OwnPhase(t, j, p);
    }
    forall j, k | j in t.jobs ensures TellsPool(s, j, k) {
      JobPoolLookup(t, j.id, k);
      OwnPhase(t, j, k);
    }
    forall id, k ensures TellsPoolOf(s, id, k) { JobPoolLookup(t, id, k); }
    forall id, p ensures TellsSessionPhase(s, id, p) { SessionPhaseLookup(t, id, p); }
    forall x, k | x in t.tasks ensures TellsTask(s, x, k) { TaskLookups(t, x, k); }
    forall x | x in t.sessions ensures TellsTitle(s, x) { SessionFound(t, x); }
  }

  lemma LoadKeeps(t: Tables, f: Filters)
    requires UniqueIds(t)
    ensures KeepsRight(LoadSnapshot(t), f)
  {
    JobsKept(t, f);
    SessionsKept(t, f);
    ReviewsKept(t, f);
    RunsKept(t, f);
    TasksKept(t, f);
  }

  lemma {:induction false} CountByAgreement<T>(rows: seq<T>, kept: seq<T>, p: T -> bool, q: T -> bool)
    requires rows == kept && forall x :: x in kept ==> p(x) == q(x)
    ensures Count(rows, p) == Count(kept, q)
  {
    CountAgree(kept, p, q);
  }

  // ------------------------------------------------------------------ the heat table

  /** The job has this session, its session this phase or none, its context this pool or none. */
  ghost predicate InCell(t: Tables, j: Job, key: HeatKey) {
    && j.sessionId == key.sessionId
    && (match key.phaseKey
        case Some(p) => SessionInPhase(t, j.sessionId, p)
        case None => forall p :: !SessionInPhase(t, j.sessionId, p))
    && (match key.poolKey
        case Some(k) => JobInPool(t, j.id, k)
        case None => forall k :: !JobInPool(t, j.id, k))
  }

  ghost function CellJobs(t: Tables, key: HeatKey, m: Metric): Job -> bool {
    (j: Job) => InCell(t, j, key) && ShownAs(j.status, m)
  }

  lemma PhaseOfJob(s: Snapshot, j: Job)
    requires Tells(s) && j in s.tables.jobs
    ensures forall p :: Get(s.ix.jobPhaseKeyById, j.id) == Some(p) <==> SessionInPhase(s.tables, j.sessionId, p)
  {
    forall p ensures Get(s.ix.jobPhaseKeyById, j.id) == Some(p) <==> SessionInPhase(s.tables, j.sessionId, p) {
      assert TellsPhase(s, j, p);
    }
  }

  lemma PoolOfJob(s: Snapshot, j: Job)
    requires Tells(s) && j in s.tables.jobs
    ensures forall k :: Get(s.ix.jobPoolKeyById, j.id) == Some(k) <==> JobInPool(s.tables, j.id, k)
  {
    forall k ensures Get(s.ix.jobPoolKeyById, j.id) == Some(k) <==> JobInPool(s.tables, j.id, k) {
      assert TellsPool(s, j, k);
    }
  }

  lemma CellOfJob(s: Snapshot, j: Job, key: HeatKey)
    requires Tells(s) && j in s.tables.jobs
    ensures HeatKeyOf(j, s.ix) == key <==> InCell(s.tables, j, key)
  {
    PhaseOfJob(s, j);
    PoolOfJob(s, j);
  }

  lemma CellJobIs(s: Snapshot, j: Job, key: HeatKey, m: Metric)
    requires Tells(s) && j in s.tables.jobs
    ensures Counts(AtKey(key), m, s.ix)(j) == CellJobs(s.tables, key, m)(j)
  {
    CellOfJob(s, j, key);
    MetricIsShown(j.status, m);
  }

  lemma HeatAmount(s: Snapshot, f: Filters, row: HeatRow, m: Metric)
    requires Tells(s) && KeepsRight(s, f) && row in QueueHeat(s, f)
    ensures Amount(row, m) == Count(KeptJobs(s.tables, f), CellJobs(s.tables, row.key, m))
  {
    HeatRowsAreExact(s, f, m);
    forall j | j in KeptJobs(s.tables, f)
      ensures Counts(AtKey(row.key), m, s.ix)(j) == CellJobs(s.tables, row.key, m)(j)
    {
      CellJobIs(s, j, row.key, m);
    }
    CountByAgreement(MatchingJobs(s, f), KeptJobs(s.tables, f), Counts(AtKey(row.key), m, s.ix),
                     CellJobs(s.tables, row.key, m));
  }

  lemma HeatTitle(s: Snapshot, f: Filters, row: HeatRow, x: Session)
    requires Tells(s) && row in QueueHeat(s, f) && x in s.tables.sessions && x.id == row.key.sessionId
    ensures row.title == x.title
  {
    HeatRowsAreExact(s, f, Total);
    assert TellsTitle(s, x);
  }

  /** A row of the heat table counts the kept jobs of its session, phase and pool: the queued,
      the running, the blocked and all; and it is titled by its session. */
  lemma HeatTable(t: Tables, f: Filters, row: HeatRow)
    requires UniqueIds(t) && row in QueueHeat(LoadSnapshot(t), f)
    ensures row.queued == Count(KeptJobs(t, f), CellJobs(t, row.key, Queued))
    ensures row.running == Count(KeptJobs(t, f), CellJobs(t, row.key, Running))
    ensures row.blocked == Count(KeptJobs(t, f), CellJobs(t, row.key, Blocked))
    ensures row.total == Count(KeptJobs(t, f), CellJobs(t, row.key, Total))
    ensures forall x :: x in t.sessions && x.id == row.key.sessionId ==> row.title == x.title
  {
    LoadTells(t);
    LoadKeeps(t, f);
    HeatRowTold(LoadSnapshot(t), f, row);
    HeatColumns(KeptJobs(t, f), t, row);
  }

  lemma HeatColumns(kept: seq<Job>, t: Tables, row: HeatRow)
    requires forall m :: Amount(row, m) == Count(kept, CellJobs(t, row.key, m))
    ensures row.queued == Count(kept, CellJobs(t, row.key, Queued))
    ensures row.running == Count(kept, CellJobs(t, row.key, Running))
    ensures row.blocked == Count(kept, CellJobs(t, row.key, Blocked))
    ensures row.total == Count(kept, CellJobs(t, row.key, Total))
  {
    assert Amount(row, Queued) == row.queued && Amount(row, Running) == row.running;
    assert Amount(row, Blocked) == row.blocked && Amount(row, Total) == row.total;
  }

  lemma HeatRowTold(s: Snapshot, f: Filters, row: HeatRow)
    requires Tells(s) && KeepsRight(s, f) && row in QueueHeat(s, f)
    ensures forall m :: Amount(row, m) == Count(KeptJobs(s.tables, f), CellJobs(s.tables, row.key, m))
    ensures forall x :: x in s.tables.sessions && x.id == row.key.sessionId ==> row.title == x.title
  {
    forall m ensures Amount(row, m) == Count(KeptJobs(s.tables, f), CellJobs(s.tables, row.key, m)) {
      HeatAmount(s, f, row, m);
    }
    forall x | x in s.tables.sessions && x.id == row.key.sessionId ensures row.title == x.title {
      HeatTitle(s, f, row, x);
    }
  }

  /** Every kept job has its row in the heat table, and no cell has two. */
  lemma HeatTableIsComplete(t: Tables, f: Filters, j: Job)
    requires UniqueIds(t) && j in KeptJobs(t, f)
    ensures exists row :: row in QueueHeat(LoadSnapshot(t), f) && InCell(t, j, row.key)
    ensures forall key :: Sum(QueueHeat(LoadSnapshot(t), f), OneAt(key)) <= 1
  {
    LoadTells(t);
    LoadKeeps(t, f);
    HeatTold(LoadSnapshot(t), f, j);
  }

  lemma HeatTold(s: Snapshot, f: Filters, j: Job)
    requires Tells(s) && KeepsRight(s, f) && j in KeptJobs(s.tables, f)
    ensures exists row :: row in QueueHeat(s, f) && InCell(s.tables, j, row.key)
    ensures forall key :: Sum(QueueHeat(s, f), OneAt(key)) <= 1
  {
    HeatRowsAreExact(s, f, Total);
    var key := HeatKeyOf(j, s.ix);
    CellOfJob(s, j, key);
    assert Sum(QueueHeat(s, f), OneAt(key)) == 1;
    RowOfSum(QueueHeat(s, f), key);
  }

  lemma {:induction false} RowOfSum(rows: seq<HeatRow>, key: HeatKey)
    requires Sum(rows, OneAt(key)) > 0
    ensures exists row :: row in rows && row.key == key
  {
    if rows[0].key != key { RowOfSum(rows[1..], key); }
  }

  function Shown(m: Metric): Job -> bool {
    (j: Job) => ShownAs(j.status, m)
  }

  lemma InFlightIsShown(s: Snapshot, f: Filters)
    ensures Count(MatchingJobs(s, f), Counts(Everywhere, InFlight, s.ix)) == Count(MatchingJobs(s, f), Shown(InFlight))
  {
    forall j ensures Counts(Everywhere, InFlight, s.ix)(j) == Shown(InFlight)(j) {
      MetricIsShown(j.status, InFlight);
    }
    CountAgree(MatchingJobs(s, f), Counts(Everywhere, InFlight, s.ix), Shown(InFlight));
  }

  /** The queue depth counts the kept jobs that are queued, running or blocked. */
  lemma QueueDepthOfTables(t: Tables, f: Filters)
    requires UniqueIds(t)
    ensures Sum(QueueHeat(LoadSnapshot(t), f), Load) == Count(KeptJobs(t, f), Shown(InFlight))
  {
    JobsKept(t, f);
    InFlightIsShown(LoadSnapshot(t), f);
    QueueDepthCountsJobs(LoadSnapshot(t), f);
  }

  // ------------------------------------------------------------------ the phase table

  ghost function PhaseJobs(t: Tables, p: string, m: Metric): Job -> bool {
    (j: Job) => SessionInPhase(t, j.sessionId, p) && ShownAs(j.status, m)
  }

  lemma PhaseJobIs(s: Snapshot, j: Job, p: string, m: Metric)
    requires Tells(s) && j in s.tables.jobs
    ensures Counts(InPhase(p), m, s.ix)(j) == PhaseJobs(s.tables, p, m)(j)
  {
    assert TellsPhase(s, j, p);
    MetricIsShown(j.status, m);
  }

  lemma PhaseJobsAre(s: Snapshot, f: Filters, p: string, m: Metric)
    requires Tells(s) && KeepsRight(s, f) && (m.Queued? || m.Running? || m.Blocked?)
    ensures Cell(PhaseDistribution(s, f), p, FieldOfMetric(m))
        == Count(KeptJobs(s.tables, f), PhaseJobs(s.tables, p, m))
  {
    PhaseJobCell(s, f, p, m);
    forall j | j in KeptJobs(s.tables, f)
      ensures Counts(InPhase(p), m, s.ix)(j) == PhaseJobs(s.tables, p, m)(j)
    {
      PhaseJobIs(s, j, p, m);
    }
    CountByAgreement(MatchingJobs(s, f), KeptJobs(s.tables, f), Counts(InPhase(p), m, s.ix), PhaseJobs(s.tables, p, m));
  }

  /** The job columns of the phase table, for every phase, shown or not. */
  lemma PhaseJobColumns(t: Tables, f: Filters, p: string)
    requires UniqueIds(t)
    ensures var table := PhaseDistribution(LoadSnapshot(t), f);
            && Cell(table, p, QueuedJobs) == Count(KeptJobs(t, f), PhaseJobs(t, p, Queued))
            && Cell(table, p, RunningJobs) == Count(KeptJobs(t, f), PhaseJobs(t, p, Running))
            && Cell(table, p, BlockedJobs) == Count(KeptJobs(t, f), PhaseJobs(t, p, Blocked))
  {
    LoadTells(t);
    LoadKeeps(t, f);
    PhaseJobsAre(LoadSnapshot(t), f, p, Queued);
    PhaseJobsAre(LoadSnapshot(t), f, p, Running);
    PhaseJobsAre(LoadSnapshot(t), f, p, Blocked);
  }

  ghost function PhaseSessions(t: Tables, p: string): Session -> bool {
    (x: Session) => SessionInPhase(t, x.id, p)
  }

  ghost function PhaseReviews(t: Tables, p: string): Review -> bool {
    (r: Review) => SessionInPhase(t, r.sessionId, p)
  }

  function PhaseGates(p: string): OrchestrationRun -> bool {
    (r: OrchestrationRun) => RunInPhase(r, p) && r.gateStatus == "pending"
  }

  ghost function PhaseTasks(t: Tables, p: string): Task -> bool {
    (x: Task) => JobInPhase(t, x.jobId, p)
  }

  lemma PhaseSessionColumn(s: Snapshot, f: Filters, p: string)
    requires Tells(s) && KeepsRight(s, f)
    ensures Cell(PhaseDistribution(s, f), p, SessionCount)
         == Count(KeptSessions(s.tables, f), PhaseSessions(s.tables, p))
  {
    PhaseCellsExact(s, f, p, SessionCount);
    forall x | x in KeptSessions(s.tables, f)
      ensures Hits(SessionSpot(s.ix), p, SessionCount)(x) == PhaseSessions(s.tables, p)(x)
    {
      assert TellsSessionPhase(s, x.id, p);
    }
    CountByAgreement(Filter(s.tables.sessions, SessionFilter(s, f)), KeptSessions(s.tables, f),
                     Hits(SessionSpot(s.ix), p, SessionCount), PhaseSessions(s.tables, p));
  }

  lemma KeptReviewsAreRequested(t: Tables, f: Filters)
    ensures forall r :: r in KeptReviews(t, f) ==> r.reviewStatus == "requested"
  {
  }

  lemma PhaseReviewColumn(s: Snapshot, f: Filters, p: string)
    requires Tells(s) && KeepsRight(s, f)
    ensures Cell(PhaseDistribution(s, f), p, PendingReviews)
         == Count(KeptReviews(s.tables, f), PhaseReviews(s.tables, p))
  {
    PhaseCellsExact(s, f, p, PendingReviews);
    KeptReviewsAreRequested(s.tables, f);
    forall r | r in KeptReviews(s.tables, f)
      ensures Hits(ReviewSpot(s.ix), p, PendingReviews)(r) == PhaseReviews(s.tables, p)(r)
    {
      assert TellsSessionPhase(s, r.sessionId, p);
    }
    CountByAgreement(Filter(s.tables.reviews, ReviewFilter(s.ix, f)), KeptReviews(s.tables, f),
                     Hits(ReviewSpot(s.ix), p, PendingReviews), PhaseReviews(s.tables, p));
  }

  lemma GateIs(r: OrchestrationRun, p: string)
    ensures Hits(RunSpot(), p, PendingGates)(r) == PhaseGates(p)(r)
  {
  }

  lemma PhaseGateColumn(s: Snapshot, f: Filters, p: string)
    requires KeepsRight(s, f)
    ensures Cell(PhaseDistribution(s, f), p, PendingGates) == Count(KeptRuns(s.tables, f), PhaseGates(p))
  {
    PhaseCellsExact(s, f, p, PendingGates);
    forall r | r in KeptRuns(s.tables, f) ensures Hits(RunSpot(), p, PendingGates)(r) == PhaseGates(p)(r) {
      GateIs(r, p);
    }
    CountByAgreement(Filter(s.tables.runs, RunFilter(s.ix, f)), KeptRuns(s.tables, f), Hits(RunSpot(), p, PendingGates),
                     PhaseGates(p));
  }

  lemma PhaseTaskColumn(s: Snapshot, f: Filters, p: string)
    requires Tells(s) && KeepsRight(s, f)
    ensures Cell(PhaseDistribution(s, f), p, TaskCount) == Count(KeptTasks(s.tables, f), PhaseTasks(s.tables, p))
  {
    PhaseCellsExact(s, f, p, TaskCount);
    forall x | x in KeptTasks(s.tables, f)
      ensures Hits(TaskSpot(s.ix), p, TaskCount)(x) == PhaseTasks(s.tables, p)(x)
    {
      assert TellsTask(s, x, p);
    }
    CountByAgreement(Filter(s.tables.tasks, TaskFilter(s.ix, f)), KeptTasks(s.tables, f),
                     Hits(TaskSpot(s.ix), p, TaskCount), PhaseTasks(s.tables, p));
  }

  /** The other columns: sessions in the phase, their requested reviews, runs whose gate is
      pending in the phase, and tasks of jobs in the phase. */
  lemma PhaseOtherColumns(t: Tables, f: Filters, p: string)
    requires UniqueIds(t)
    ensures var table := PhaseDistribution(LoadSnapshot(t), f);
            && Cell(table, p, SessionCount) == Count(KeptSessions(t, f), PhaseSessions(t, p))
            && Cell(table, p, PendingReviews) == Count(KeptReviews(t, f), PhaseReviews(t, p))
            && Cell(table, p, PendingGates) == Count(KeptRuns(t, f), PhaseGates(p))
            && Cell(table, p, TaskCount) == Count(KeptTasks(t, f), PhaseTasks(t, p))
  {
    LoadTells(t);
    LoadKeeps(t, f);
    PhaseSessionColumn(LoadSnapshot(t), f, p);
    PhaseReviewColumn(LoadSnapshot(t), f, p);
    PhaseGateColumn(LoadSnapshot(t), f, p);
    PhaseTaskColumn(LoadSnapshot(t), f, p);
  }

  // ------------------------------------------------------------------ the pool table

  ghost function PoolJobs(t: Tables, k: string, m: Metric): Job -> bool {
    (j: Job) => JobInPool(t, j.id, k) && ShownAs(j.status, m)
  }

  /** A review without a source job is looked up under the empty id. */
  ghost function PoolReviews(t: Tables, k: string): Review -> bool {
    (r: Review) => HasJob(t, r.sourceJobId.GetOr("")) && JobInPool(t, r.sourceJobId.GetOr(""), k)
  }

  predicate OpenTask(status: string) {
    status == "queued" || status == "running" || status == "input_required" || status == "auth_required"
  }

  ghost function PoolTasks(t: Tables, k: string): Task -> bool {
    (x: Task) => HasJob(t, x.jobId) && JobInPool(t, x.jobId, k) && OpenTask(x.status)
  }

  lemma PoolJobIs(s: Snapshot, j: Job, k: string, m: Metric)
    requires Tells(s) && j in s.tables.jobs
    ensures Counts(InPool(k), m, s.ix)(j) == PoolJobs(s.tables, k, m)(j)
  {
    assert TellsPool(s, j, k);
    MetricIsShown(j.status, m);
  }

  lemma PoolJobsAre(s: Snapshot, f: Filters, k: string, m: Metric)
    requires Tells(s) && KeepsRight(s, f)
    ensures Count(MatchingJobs(s, f), Counts(InPool(k), m, s.ix))
         == Count(KeptJobs(s.tables, f), PoolJobs(s.tables, k, m))
  {
    forall j | j in KeptJobs(s.tables, f) ensures Counts(InPool(k), m, s.ix)(j) == PoolJobs(s.tables, k, m)(j) {
      PoolJobIs(s, j, k, m);
    }
    CountByAgreement(MatchingJobs(s, f), KeptJobs(s.tables, f), Counts(InPool(k), m, s.ix), PoolJobs(s.tables, k, m));
  }

  lemma PoolReviewCell(s: Snapshot, f: Filters, k: string)
    ensures CountOf(GroupOf(PoolGroups(s, f), k), PendingReviews)
         == Count(Filter(s.tables.reviews, ReviewFilter(s.ix, f)), Hits(PoolReviewSpot(s.ix), k, PendingReviews))
  {
    var jobs, tasks := MatchingJobs(s, f), Filter(s.tables.tasks, TaskFilter(s.ix, f));
    ThreeTallies(jobs, PoolJobSpot(s.ix), Filter(s.tables.reviews, ReviewFilter(s.ix, f)), PoolReviewSpot(s.ix),
                 tasks, PoolTaskSpot(s.ix), k, PendingReviews);
    CountZero(jobs, Hits(PoolJobSpot(s.ix), k, PendingReviews));
    CountZero(tasks, Hits(PoolTaskSpot(s.ix), k, PendingReviews));
  }

  lemma PoolReviewIs(s: Snapshot, r: Review, k: string)
    requires Tells(s) && r.reviewStatus == "requested"
    ensures Hits(PoolReviewSpot(s.ix), k, PendingReviews)(r) == PoolReviews(s.tables, k)(r)
  {
    assert TellsPoolOf(s, r.sourceJobId.GetOr(""), k);
  }

  lemma PoolReviewsAre(s: Snapshot, f: Filters, k: string)
    requires Tells(s) && KeepsRight(s, f)
    ensures CountOf(GroupOf(PoolGroups(s, f), k), PendingReviews)
         == Count(KeptReviews(s.tables, f), PoolReviews(s.tables, k))
  {
    var reviews := Filter(s.tables.reviews, ReviewFilter(s.ix, f));
    PoolReviewCell(s, f, k);
    KeptReviewsAreRequested(s.tables, f);
    forall r | r in KeptReviews(s.tables, f)
      ensures Hits(PoolReviewSpot(s.ix), k, PendingReviews)(r) == PoolReviews(s.tables, k)(r)
    {
      PoolReviewIs(s, r, k);
    }
    CountByAgreement(reviews, KeptReviews(s.tables, f), Hits(PoolReviewSpot(s.ix), k, PendingReviews),
                     PoolReviews(s.tables, k));
  }

  lemma PoolTaskCell(s: Snapshot, f: Filters, k: string)
    ensures CountOf(GroupOf(PoolGroups(s, f), k), PendingTasks)
         == Count(Filter(s.tables.tasks, TaskFilter(s.ix, f)), Hits(PoolTaskSpot(s.ix), k, PendingTasks))
  {
    var jobs, reviews := MatchingJobs(s, f), Filter(s.tables.reviews, ReviewFilter(s.ix, f));
    ThreeTallies(jobs, PoolJobSpot(s.ix), reviews, PoolReviewSpot(s.ix), Filter(s.tables.tasks, TaskFilter(s.ix, f)),
                 PoolTaskSpot(s.ix), k, PendingTasks);
    CountZero(jobs, Hits(PoolJobSpot(s.ix), k, PendingTasks));
    CountZero(reviews, Hits(PoolReviewSpot(s.ix), k, PendingTasks));
  }

  lemma PoolTaskIs(s: Snapshot, x: Task, k: string)
    requires Tells(s) && x in s.tables.tasks
    ensures Hits(PoolTaskSpot(s.ix), k, PendingTasks)(x) == PoolTasks(s.tables, k)(x)
  {
    assert TellsTask(s, x, k);
  }

  lemma PoolTasksAre(s: Snapshot, f: Filters, k: string)
    requires Tells(s) && KeepsRight(s, f)
    ensures CountOf(GroupOf(PoolGroups(s, f), k), PendingTasks)
         == Count(KeptTasks(s.tables, f), PoolTasks(s.tables, k))
  {
    var tasks := Filter(s.tables.tasks, TaskFilter(s.ix, f));
    PoolTaskCell(s, f, k);
    forall x | x in KeptTasks(s.tables, f)
      ensures Hits(PoolTaskSpot(s.ix), k, PendingTasks)(x) == PoolTasks(s.tables, k)(x)
    {
      PoolTaskIs(s, x, k);
    }
    CountByAgreement(tasks, KeptTasks(s.tables, f), Hits(PoolTaskSpot(s.ix), k, PendingTasks), PoolTasks(s.tables, k));
  }

  lemma PoolRowTold(s: Snapshot, f: Filters, row: PoolRow)
    requires Tells(s) && KeepsRight(s, f) && row in RuntimePoolHealth(s, f)
    ensures row.queued == Count(KeptJobs(s.tables, f), PoolJobs(s.tables, row.pool.poolKey, Queued))
    ensures row.blocked == Count(KeptJobs(s.tables, f), PoolJobs(s.tables, row.pool.poolKey, Blocked))
    ensures row.pendingReviews == Count(KeptReviews(s.tables, f), PoolReviews(s.tables, row.pool.poolKey))
    ensures row.pendingTasks == Count(KeptTasks(s.tables, f), PoolTasks(s.tables, row.pool.poolKey))
  {
    var k := row.pool.poolKey;
    PoolRowIs(s, f, row);
    PoolCountsJobs(s, f, k);
    PoolJobsAre(s, f, k, Queued);
    PoolJobsAre(s, f, k, Blocked);
    PoolReviewsAre(s, f, k);
    PoolTasksAre(s, f, k);
  }

  /** A row of the pool table counts the pool's queued and blocked kept jobs, the requested
      reviews of its jobs and their open tasks. */
  lemma PoolTable(t: Tables, f: Filters, row: PoolRow)
    requires UniqueIds(t) && row in RuntimePoolHealth(LoadSnapshot(t), f)
    ensures row.queued == Count(KeptJobs(t, f), PoolJobs(t, row.pool.poolKey, Queued))
    ensures row.blocked == Count(KeptJobs(t, f), PoolJobs(t, row.pool.poolKey, Blocked))
    ensures row.pendingReviews == Count(KeptReviews(t, f), PoolReviews(t, row.pool.poolKey))
    ensures row.pendingTasks == Count(KeptTasks(t, f), PoolTasks(t, row.pool.poolKey))
  {
    LoadTells(t);
    LoadKeeps(t, f);
    PoolRowTold(LoadSnapshot(t), f, row);
  }

  lemma {:induction false} PoolMapOfUniqueKeys(pools: seq<Pool>)
    requires OnePerKey(pools)
    ensures PoolMap(pools) == pools
  {
    if pools != [] {
      var n := |pools| - 1;
      PoolMapOfUniqueKeys(pools[..n]);
      assert pools == pools[..n] + [pools[n]];
      assert forall k :: 0 <= k < n ==> pools[..n][k] == pools[k];
    }
  }

  /** The pool table shows the pools that the filter asks for, each once, pool keys being unique. */
  lemma PoolTableShowsPools(t: Tables, f: Filters)
    requires OnePerKey(t.pools)
    ensures var table := RuntimePoolHealth(LoadSnapshot(t), f);
            multiset(Map(table, (r: PoolRow) => r.pool)) == multiset(KeptPools(t, f))
  {
    var s := LoadSnapshot(t);
    var groups := PoolGroups(s, f);
    var pools := Filter(t.pools, PoolFilter(f));
    PoolMapOfUniqueKeys(t.pools);
    PoolsKept(t, f);
    var rows := Map(pools, PoolRowOf(groups));
    assert Map(rows, (r: PoolRow) => r.pool) == pools;
    MapOfSort(rows, ByRank(PoolRank), (r: PoolRow) => r.pool);
  }

  lemma {:induction false} MapOfInsert<S, T>(x: S, s: seq<S>, le: (S, S) -> bool, f: S -> T)
    ensures multiset(Map(Insert(x, s, le), f)) == multiset(Map(s, f)) + multiset{f(x)}
  {
    if s == [] || le(x, s[0]) {
      MapCons(x, s, f);
    } else {
      MapOfInsert(x, s[1..], le, f);
      MapCons(s[0], Insert(x, s[1..], le), f);
      MapCons(s[0], s[1..], f);
      assert s == [s[0]] + s[1..];
    }
  }

  lemma {:induction false} MapOfSort<S, T>(s: seq<S>, le: (S, S) -> bool, f: S -> T)
    ensures multiset(Map(StableSort(s, le), f)) == multiset(Map(s, f))
  {
    if s != [] {
      MapOfSort(s[1..], le, f);
      MapOfInsert(s[0], StableSort(s[1..], le), le, f);
      MapCons(s[0], s[1..], f);
      assert s == [s[0]] + s[1..];
    }
  }

  // ------------------------------------------------------------------ reviews, tasks and webhooks

  function SameReviewCell(key: ReviewKey): Review -> bool {
    (r: Review) =>
      && r.sessionId == key.sessionId && r.templateKey == key.templateKey
      && r.channelKey == key.channelKey && r.scope == key.scope
  }

  lemma CellIsKey(reviews: seq<Review>, key: ReviewKey)
    ensures Count(reviews, OfKey(key)) == Count(reviews, SameReviewCell(key))
    ensures forall r :: r in reviews ==> (ReviewKeyOf(r) == key <==> SameReviewCell(key)(r))
  {
    CountAgree(reviews, OfKey(key), SameReviewCell(key));
  }

  /** A row of the review table counts the kept requested reviews of its session, template,
      channel and scope, is titled by its session, and spans exactly their request times. */
  lemma ReviewTable(t: Tables, f: Filters, row: ReviewItem)
    requires UniqueIds(t) && row in ReviewBottlenecks(LoadSnapshot(t), f)
    ensures row.pending == Count(KeptReviews(t, f), SameReviewCell(row.key))
    ensures forall x :: x in t.sessions && x.id == row.key.sessionId ==> row.title == x.title
    ensures forall r :: r in KeptReviews(t, f) && SameReviewCell(row.key)(r) ==>
              !Less(r.requestedAt, row.oldest) && !Less(row.newest, r.requestedAt)
    ensures exists r :: r in KeptReviews(t, f) && SameReviewCell(row.key)(r) && r.requestedAt == row.oldest
    ensures exists r :: r in KeptReviews(t, f) && SameReviewCell(row.key)(r) && r.requestedAt == row.newest
  {
    LoadTells(t);
    LoadKeeps(t, f);
    ReviewRowTold(LoadSnapshot(t), f, row);
    ExactReviewRow(row, KeptReviews(t, f), LoadSnapshot(t).ix);
  }

  lemma ReviewRowTold(s: Snapshot, f: Filters, row: ReviewItem)
    requires Tells(s) && KeepsRight(s, f) && row in ReviewBottlenecks(s, f)
    ensures RowIsExact(row, KeptReviews(s.tables, f), s.ix)
    ensures forall x :: x in s.tables.sessions && x.id == row.key.sessionId ==> row.title == x.title
  {
    ReviewRowOf(s, f, row);
    forall x | x in s.tables.sessions && x.id == row.key.sessionId ensures row.title == x.title {
      assert TellsTitle(s, x);
    }
  }

  lemma ReviewRowOf(s: Snapshot, f: Filters, row: ReviewItem)
    requires row in ReviewBottlenecks(s, f)
    ensures RowIsExact(row, Filter(s.tables.reviews, ReviewFilter(s.ix, f)), s.ix)
  {
    ReviewRowsAreExact(s, f);
  }

  lemma ExactReviewRow(row: ReviewItem, reviews: seq<Review>, ix: Indexes)
    requires RowIsExact(row, reviews, ix)
    ensures row.pending == Count(reviews, SameReviewCell(row.key)) && row.title == SessionTitle(ix, row.key.sessionId)
    ensures forall r :: r in reviews && SameReviewCell(row.key)(r) ==>
              !Less(r.requestedAt, row.oldest) && !Less(row.newest, r.requestedAt)
    ensures exists r :: r in reviews && SameReviewCell(row.key)(r) && r.requestedAt == row.oldest
    ensures exists r :: r in reviews && SameReviewCell(row.key)(r) && r.requestedAt == row.newest
  {
    CellIsKey(reviews, row.key);
    forall r | r in reviews && SameReviewCell(row.key)(r)
      ensures !Less(r.requestedAt, row.oldest) && !Less(row.newest, r.requestedAt)
    {
      assert Within(row, r);
    }
    var a :| a in reviews && ReviewKeyOf(a) == row.key && a.requestedAt == row.oldest;
    var b :| b in reviews && ReviewKeyOf(b) == row.key && b.requestedAt == row.newest;
  }

  function TaskHas(status: string): Task -> bool {
    (x: Task) => x.status == status
  }

  /** The throughput counts the kept tasks by status. */
  lemma ThroughputOfTables(t: Tables, f: Filters)
    requires UniqueIds(t)
    ensures var tasks, r := KeptTasks(t, f), TaskThroughput(LoadSnapshot(t), f);
            && r.total == |tasks|
            && r.queued == Count(tasks, TaskHas("queued")) && r.running == Count(tasks, TaskHas("running"))
            && r.inputRequired == Count(tasks, TaskHas("input_required"))
            && r.authRequired == Count(tasks, TaskHas("auth_required"))
            && r.completed == Count(tasks, TaskHas("completed")) && r.failed == Count(tasks, TaskHas("failed"))
            && r.canceled == Count(tasks, TaskHas("canceled"))
  {
    TasksKept(t, f);
    var tasks := KeptTasks(t, f);
    TaskCounts(tasks, "queued");
    TaskCounts(tasks, "running");
    TaskCounts(tasks, "input_required");
    TaskCounts(tasks, "auth_required");
    TaskCounts(tasks, "completed");
    TaskCounts(tasks, "failed");
    TaskCounts(tasks, "canceled");
  }

  lemma TaskCounts(tasks: seq<Task>, status: string)
    ensures Count(tasks, HasTaskStatus(status)) == Count(tasks, TaskHas(status))
  {
    CountAgree(tasks, HasTaskStatus(status), TaskHas(status));
  }

  function RegistrationActive(): Registration -> bool {
    (r: Registration) => r.status == "active"
  }

  function DeliveryHas(status: string): Delivery -> bool {
    (d: Delivery) => d.status == status
  }

  /** The webhook summary counts the kept registrations, active or not, and the kept deliveries
      by status. */
  lemma WebhooksOfTables(t: Tables, f: Filters)
    requires UniqueIds(t)
    ensures var registrations, deliveries := KeptRegistrations(t, f), KeptDeliveries(t, f);
            var r := OutboundWebhooks(LoadSnapshot(t), f);
            && r.registrations == |registrations| && r.active == Count(registrations, RegistrationActive())
            && r.active + r.disabled == r.registrations
            && r.pending == Count(deliveries, DeliveryHas("pending"))
            && r.retrying == Count(deliveries, DeliveryHas("retrying"))
            && r.failed == Count(deliveries, DeliveryHas("failed"))
            && r.delivered == Count(deliveries, DeliveryHas("delivered"))
  {
    RegistrationsKept(t, f);
    DeliveriesKept(t, f);
    var registrations, deliveries := KeptRegistrations(t, f), KeptDeliveries(t, f);
    CountAgree(registrations, IsActive, RegistrationActive());
    ActiveAndDisabled(registrations);
    DeliveryCounts(deliveries, "pending");
    DeliveryCounts(deliveries, "retrying");
    DeliveryCounts(deliveries, "failed");
    DeliveryCounts(deliveries, "delivered");
  }

  lemma DeliveryCounts(deliveries: seq<Delivery>, status: string)
    ensures Count(deliveries, HasDeliveryStatus(status)) == Count(deliveries, DeliveryHas(status))
  {
    CountAgree(deliveries, HasDeliveryStatus(status), DeliveryHas(status));
  }

  lemma {:induction false} ActiveAndDisabled(rows: seq<Registration>)
    ensures Count(rows, IsActive) + Count(rows, IsDisabled) == |rows|
  {
    if rows != [] { ActiveAndDisabled(rows[1..]); }
  }

  // ------------------------------------------------------------------ the order of the rows

  /** Of two lists of texts, the one with the lesser text where they first differ is less. */
  predicate TextsLess(a: seq<string>, b: seq<string>) {
    a != [] && b != [] && (Less(a[0], b[0]) || (a[0] == b[0] && TextsLess(a[1..], b[1..])))
  }

  /** Rows come in the order of their load, the greatest first, and on equal loads in the
      order of their texts. */
  ghost predicate BusiestFirst<T>(rows: seq<T>, load: T -> int, texts: T -> seq<string>) {
    forall i, j :: 0 <= i < j < |rows| ==>
      && load(rows[i]) >= load(rows[j])
      && (load(rows[i]) == load(rows[j]) ==> !TextsLess(texts(rows[j]), texts(rows[i])))
  }

  lemma RankedIsBusiestFirst<T(!new)>(rows: seq<T>, key: T -> RankKey, load: T -> int, texts: T -> seq<string>)
    requires forall x :: key(x).load == load(x)
    requires forall x, y :: TextsLess(texts(x), texts(y)) ==> key(x).load == key(y).load ==> RankLess(key(x), key(y))
    ensures BusiestFirst(StableSort(rows, ByRank(key)), load, texts)
  {
    RankSorts(rows, key);
    var sorted := StableSort(rows, ByRank(key));
    forall i, j | 0 <= i < j < |sorted|
      ensures load(sorted[i]) >= load(sorted[j])
      ensures load(sorted[i]) == load(sorted[j]) ==> !TextsLess(texts(sorted[j]), texts(sorted[i]))
    {
      assert ByRank(key)(sorted[i], sorted[j]);
    }
  }

  /** The rows of every table come busiest first, then by their keys, an absent one as "". */
  lemma TablesAreBusiestFirst(s: Snapshot, f: Filters)
    ensures BusiestFirst(QueueHeat(s, f), (r: HeatRow) => r.queued + r.running + r.blocked, HeatTexts)
    ensures BusiestFirst(PhaseDistribution(s, f), (g: Group) => PhaseLoad(g), (g: Group) => [g.key])
    ensures BusiestFirst(RuntimePoolHealth(s, f), (r: PoolRow) => PoolLoad(r), (r: PoolRow) => [r.pool.poolKey])
    ensures BusiestFirst(ReviewBottlenecks(s, f), (x: ReviewItem) => x.pending, ReviewTexts)
  {
    forall x: HeatRow, y: HeatRow ensures TextsLess(HeatTexts(x), HeatTexts(y))
        <==> RankLess(HeatRank(x).(load := 0), HeatRank(y).(load := 0)) {
      ThreeTexts(HeatTexts(x), HeatTexts(y));
    }
    forall x, y ensures TextsLess(ReviewTexts(x), ReviewTexts(y))
        <==> RankLess(ReviewRank(x).(load := 0), ReviewRank(y).(load := 0)) {
      ThreeTexts(ReviewTexts(x), ReviewTexts(y));
    }
    RankedIsBusiestFirst(HeatGroups(MatchingJobs(s, f), s.ix), HeatRank,
                         (r: HeatRow) => r.queued + r.running + r.blocked, HeatTexts);
    RankedIsBusiestFirst(PhaseGroups(s, f), PhaseRank, (g: Group) => PhaseLoad(g), (g: Group) => [g.key]);
    RankedIsBusiestFirst(Map(Filter(PoolMap(s.tables.pools), PoolFilter(f)), PoolRowOf(PoolGroups(s, f))), PoolRank,
                         (r: PoolRow) => PoolLoad(r), (r: PoolRow) => [r.pool.poolKey]);
    RankedIsBusiestFirst(ReviewItems(Filter(s.tables.reviews, ReviewFilter(s.ix, f)), s.ix), ReviewRank,
                         (x: ReviewItem) => x.pending, ReviewTexts);
  }

  lemma ThreeTexts(a: seq<string>, b: seq<string>)
    requires |a| == |b| == 3
    ensures TextsLess(a, b)
            <==> RankLess(RankKey(0, Stamp(a[0], a[1]), a[2]), RankKey(0, Stamp(b[0], b[1]), b[2]))
  {
    assert TextsLess(a[2..], b[2..]) <==> Less(a[2], b[2]);
    assert a[1..][1..] == a[2..] && b[1..][1..] == b[2..];
    assert TextsLess(a[1..], b[1..]) <==> Less(a[1], b[1]) || (a[1] == b[1] && TextsLess(a[2..], b[2..]));
  }

  function HeatTexts(r: HeatRow): seq<string> {
    [r.key.sessionId, r.key.phaseKey.GetOr(""), r.key.poolKey.GetOr("")]
  }

  function ReviewTexts(x: ReviewItem): seq<string> {
    [x.key.sessionId, x.key.templateKey, x.key.channelKey]
  }

  /** All that a pool has to do. */
  function PoolLoad(r: PoolRow): int {
    r.blocked + r.queued + r.pool.waitingContexts + r.pendingReviews + r.pendingTasks
  }

  /** All that a phase has to do. */
  function PhaseLoad(g: Group): int {
    CountOf(g, QueuedJobs) + CountOf(g, RunningJobs) + CountOf(g, BlockedJobs)
    + CountOf(g, PendingReviews) + CountOf(g, PendingGates) + CountOf(g, TaskCount)
  }
}
