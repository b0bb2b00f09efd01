/** The operator dashboard's snapshot: its tables, its lookup indexes, and its filter
    (app/services/operator_dashboard.py). */
module DashboardSnapshot {
  import opened Seqs
  import opened Jobs

  datatype Session = Session(id: string, title: string, activePhaseId: Option<string>)
  datatype Phase = Phase(id: string, phaseKey: string)
  datatype Job = Job(id: string, sessionId: string, status: JobStatus)
  datatype Review = Review(id: string, sessionId: string, sourceJobId: Option<string>, templateKey: string,
                           channelKey: string, scope: string, reviewStatus: string, requestedAt: string)
  datatype OrchestrationRun = OrchestrationRun(
    id: string,
    sessionId: string,
    sourceJobId: Option<string>,
    currentPhaseKey: Option<string>,
    pendingPhaseKey: Option<string>,
    failurePhaseKey: Option<string>,
    gateStatus: string)
  datatype Context = Context(id: string, jobId: string, sessionId: string, runtimePoolId: Option<string>)
  datatype Task = Task(id: string, taskId: string, jobId: string, sessionId: string, status: string,
      templateKey: Option<string>)
  datatype ApprovalRow = ApprovalRow(id: string, jobId: string, status: string)
  datatype Registration = Registration(id: string, taskId: string, sessionId: string, status: string)
  datatype Delivery = Delivery(id: string, registrationId: string, taskId: string, sessionId: string, status: string)
  datatype Pool = Pool(id: string, poolKey: string, status: string, waitingContexts: nat)

  datatype Filters = Filters(sessionId: Option<string>, templateKey: Option<string>, phaseKey: Option<string>,
      poolKey: Option<string>)

  datatype Tables = Tables(
    sessions: seq<Session>,
    phases: seq<Phase>,
    jobs: seq<Job>,
    reviews: seq<Review>,
    runs: seq<OrchestrationRun>,
    contexts: seq<Context>,
    tasks: seq<Task>,
    approvals: seq<ApprovalRow>,
    registrations: seq<Registration>,
    deliveries: seq<Delivery>,
    pools: seq<Pool>)

  datatype Indexes = Indexes(
    sessionById: map<string, Session>,
    phaseKeyBySessionId: map<string, Option<string>>,
    jobById: map<string, Job>,
    jobPoolKeyById: map<string, Option<string>>,
    jobPhaseKeyById: map<string, Option<string>>,
    contextPoolKeyByJobId: map<string, Option<string>>,
    taskPoolKeyById: map<string, Option<string>>,
    taskPhaseKeyById: map<string, Option<string>>)

  datatype Snapshot = Snapshot(tables: Tables, ix: Indexes)

  // ------------------------------------------------------------------ indexes

  /** `{key(x): value(x) for x in rows}`: of equal keys the last one counts. */
  function Index<T, V>(rows: seq<T>, key: T -> string, value: T -> V): map<string, V> {
    if rows == [] then map[]
    else
      var last := rows[|rows| - 1];
      Index(rows[..|rows| - 1], key, value)[key(last) := value(last)]
  }

  lemma {:induction false} IndexHas<T, V>(rows: seq<T>, key: T -> string, value: T -> V, i: nat)
    requires i < |rows|
    ensures key(rows[i]) in Index(rows, key, value)
  {
    if i < |rows| - 1 {
      IndexHas(rows[..|rows| - 1], key, value, i);
    }
  }

  lemma {:induction false} IndexAt<T, V>(rows: seq<T>, key: T -> string, value: T -> V, i: nat)
    requires i < |rows| && forall j, k :: 0 <= j < k < |rows| ==> key(rows[j]) != key(rows[k])
    ensures key(rows[i]) in Index(rows, key, value) && Index(rows, key, value)[key(rows[i])] == value(rows[i])
  {
    if i < |rows| - 1 {
      IndexAt(rows[..|rows| - 1], key, value, i);
      assert key(rows[i]) != key(rows[|rows| - 1]);
    }
  }

  /** `m.get(k)`, where a stored None reads like a missing key. */
  function Get(m: map<string, Option<string>>, k: string): Option<string> {
    if k in m then m[k] else None
  }

  function Lookup<V>(m: map<string, V>, k: string): Option<V> {
    if k in m then Some(m[k]) else None
  }

  function ActivePhaseKey(phaseById: map<string, Phase>, s: Session): Option<string> {
    if s.activePhaseId.Some? && s.activePhaseId.value in phaseById then
        Some(phaseById[s.activePhaseId.value].phaseKey) else None
  }

  function PoolKeyOf(poolKeyById: map<string, string>, c: Context): Option<string> {
    if c.runtimePoolId.Some? then Lookup(poolKeyById, c.runtimePoolId.value) else None
  }

  /** `_load_snapshot` */
  function LoadSnapshot(t: Tables): Snapshot {
    var sessionById := Index(t.sessions, (s: Session) => s.id, (s: Session) => s);
    var phaseById := Index(t.phases, (p: Phase) => p.id, (p: Phase) => p);
    var phaseKeyBySessionId := Index(t.sessions, (s: Session) => s.id, (s: Session) => ActivePhaseKey(phaseById, s));
    var jobById := Index(t.jobs, (j: Job) => j.id, (j: Job) => j);
    var poolKeyById := Index(t.pools, (p: Pool) => p.id, (p: Pool) => p.poolKey);
    var contextPoolKeyByJobId := Index(t.contexts, (c: Context) => c.jobId, (c: Context) => PoolKeyOf(poolKeyById, c));
    var jobPoolKeyById := map id | id in jobById :: Get(contextPoolKeyByJobId, id);
    var jobPhaseKeyById := Index(t.jobs, (j: Job) => j.id, (j: Job) => Get(phaseKeyBySessionId, j.sessionId));
    var taskPoolKeyById := Index(t.tasks, (x: Task) => x.id, (x: Task) => Get(jobPoolKeyById, x.jobId));
    var taskPhaseKeyById := Index(t.tasks, (x: Task) => x.id, (x: Task) => Get(jobPhaseKeyById, x.jobId));
    Snapshot(t, Indexes(sessionById, phaseKeyBySessionId, jobById, jobPoolKeyById, jobPhaseKeyById,
                        contextPoolKeyByJobId, taskPoolKeyById, taskPhaseKeyById))
  }

  /** What filtering needs of the indexes: every session can be looked up, and a job's phase is
      its session's phase. */
  ghost predicate Consistent(s: Snapshot) {
    && (forall x :: x in s.tables.sessions ==> x.id in s.ix.sessionById)
    && (forall j :: j in s.tables.jobs ==>
        Get(s.ix.jobPhaseKeyById, j.id) == Get(s.ix.phaseKeyBySessionId, j.sessionId))
  }

  /** Loading makes them so, job ids being the table's primary key. */
  lemma LoadIsConsistent(t: Tables)
    requires forall i, k :: 0 <= i < k < |t.jobs| ==> t.jobs[i].id != t.jobs[k].id
    ensures Consistent(LoadSnapshot(t))
  {
    var s := LoadSnapshot(t);
    forall x | x in t.sessions ensures x.id in s.ix.sessionById {
      var i :| 0 <= i < |t.sessions| && t.sessions[i] == x;
      IndexHas(t.sessions, (y: Session) => y.id, (y: Session) => y, i);
    }
    forall j | j in t.jobs ensures Get(s.ix.jobPhaseKeyById, j.id) == Get(s.ix.phaseKeyBySessionId, j.sessionId) {
      var i :| 0 <= i < |t.jobs| && t.jobs[i] == j;
      IndexAt(t.jobs, (y: Job) => y.id, (y: Job) => Get(s.ix.phaseKeyBySessionId, y.sessionId), i);
    }
  }

  // ------------------------------------------------------------------ matching

  /** An unset filter lets everything pass. */
  predicate Passes(filter: Option<string>, value: Option<string>) {
    filter.Some? ==> value == filter
  }

  predicate SessionMatches(x: Session, phaseKey: Option<string>, s: Snapshot, f: Filters) {
    && Passes(f.sessionId, Some(x.id))
    && Passes(f.phaseKey, phaseKey)
    && (f.poolKey.Some? ==>
          exists j :: j in s.tables.jobs && j.sessionId == x.id && Get(s.ix.jobPoolKeyById, j.id) == f.poolKey)
  }

  predicate JobMatches(j: Job, session: Option<Session>, ix: Indexes, f: Filters) {
    && session.Some?
    && Passes(f.sessionId, Some(j.sessionId))
    && Passes(f.phaseKey, Get(ix.jobPhaseKeyById, j.id))
    && Passes(f.poolKey, Get(ix.jobPoolKeyById, j.id))
  }

  function JobPoolKeyForJobId(ix: Indexes, jobId: Option<string>): Option<string> {
    if jobId.None? then None else Get(ix.jobPoolKeyById, jobId.value)
  }

  predicate ReviewMatches(r: Review, session: Option<Session>, ix: Indexes, f: Filters) {
    && session.Some? && r.reviewStatus == "requested"
    && Passes(f.sessionId, Some(r.sessionId))
    && Passes(f.phaseKey, Get(ix.phaseKeyBySessionId, r.sessionId))
    && Passes(f.templateKey, Some(r.templateKey))
    && Passes(f.poolKey, JobPoolKeyForJobId(ix, r.sourceJobId))
  }

  /** Python's `a or b or c` on optional texts. */
  function FirstText(a: Option<string>, b: Option<string>): Option<string> {
    if a.Some? && a.value != "" then a else b
  }

  function RunPhaseKey(r: OrchestrationRun): Option<string> {
    FirstText(r.currentPhaseKey, FirstText(r.pendingPhaseKey, r.failurePhaseKey))
  }

  predicate RunMatches(r: OrchestrationRun, session: Option<Session>, ix: Indexes, f: Filters) {
    && session.Some?
    && Passes(f.sessionId, Some(r.sessionId))
    && Passes(f.phaseKey, RunPhaseKey(r))
    && Passes(f.poolKey, JobPoolKeyForJobId(ix, r.sourceJobId))
  }

  predicate ContextMatches(c: Context, ix: Indexes, f: Filters) {
    && Passes(f.sessionId, Some(c.sessionId))
    && Passes(f.poolKey, Get(ix.contextPoolKeyByJobId, c.jobId))
    && Passes(f.phaseKey, Get(ix.jobPhaseKeyById, c.jobId))
  }

  predicate TaskMatches(t: Task, ix: Indexes, f: Filters) {
    && Passes(f.sessionId, Some(t.sessionId))
    && Passes(f.phaseKey, Get(ix.taskPhaseKeyById, t.id))
    && Passes(f.poolKey, Get(ix.taskPoolKeyById, t.id))
    && Passes(f.templateKey, t.templateKey)
  }

  predicate ApprovalMatches(a: ApprovalRow, ix: Indexes, f: Filters) {
    && a.status == "pending" && a.jobId in ix.jobById
    && var job := ix.jobById[a.jobId];
    && Passes(f.sessionId, Some(job.sessionId))
    && Passes(f.phaseKey, Get(ix.jobPhaseKeyById, job.id))
    && Passes(f.poolKey, Get(ix.jobPoolKeyById, job.id))
  }

  /** `_task_by_public_task_id`: the first task with this public id. */
  function TaskByPublicId(tasks: seq<Task>, taskId: string): Option<Task> {
    if tasks == [] then None
    else if tasks[0].taskId == taskId then Some(tasks[0])
    else TaskByPublicId(tasks[1..], taskId)
  }

  predicate WebhookMatches(sessionId: string, taskId: string, s: Snapshot, f: Filters) {
    && Passes(f.sessionId, Some(sessionId))
    && match TaskByPublicId(s.tables.tasks, taskId)
       case None => f.sessionId.None?
       case Some(task) => TaskMatches(task, s.ix, f)
  }

  // ------------------------------------------------------------------ the filter

  function JobFilter(ix: Indexes, f: Filters): Job -> bool {
    (j: Job) => JobMatches(j, Lookup(ix.sessionById, j.sessionId), ix, f)
  }

  function SessionFilter(s: Snapshot, f: Filters): Session -> bool {
    (x: Session) => SessionMatches(x, Get(s.ix.phaseKeyBySessionId, x.id), s, f)
  }

  function ReviewFilter(ix: Indexes, f: Filters): Review -> bool {
    (r: Review) => ReviewMatches(r, Lookup(ix.sessionById, r.sessionId), ix, f)
  }

  function RunFilter(ix: Indexes, f: Filters): OrchestrationRun -> bool {
    (r: OrchestrationRun) => RunMatches(r, Lookup(ix.sessionById, r.sessionId), ix, f)
  }

  function ContextFilter(ix: Indexes, f: Filters): Context -> bool {
    (c: Context) => ContextMatches(c, ix, f)
  }

  function TaskFilter(ix: Indexes, f: Filters): Task -> bool {
    (t: Task) => TaskMatches(t, ix, f)
  }

  function ApprovalFilter(ix: Indexes, f: Filters): ApprovalRow -> bool {
    (a: ApprovalRow) => ApprovalMatches(a, ix, f)
  }

  function RegistrationFilter(s: Snapshot, f: Filters): Registration -> bool {
    (r: Registration) => WebhookMatches(r.sessionId, r.taskId, s, f)
  }

  function DeliveryFilter(registrations: seq<Registration>, s: Snapshot, f: Filters): Delivery -> bool {
    (d: Delivery) => (exists r :: r in registrations && r.id == d.registrationId)
        && WebhookMatches(d.sessionId, d.taskId, s, f)
  }

  function PoolFilter(f: Filters): Pool -> bool {
    (p: Pool) => Passes(f.poolKey, Some(p.poolKey))
  }

  /** `_filter_snapshot`: every list is filtered against the unfiltered snapshot, the indexes
      and the phases stay. */
  function FilterSnapshot(s: Snapshot, f: Filters): Snapshot {
    var t := s.tables;
    var registrations := Filter(t.registrations, RegistrationFilter(s, f));
    Snapshot(Tables(
               Filter(t.sessions, SessionFilter(s, f)),
               t.phases,
               Filter(t.jobs, JobFilter(s.ix, f)),
               Filter(t.reviews, ReviewFilter(s.ix, f)),
               Filter(t.runs, RunFilter(s.ix, f)),
               Filter(t.contexts, ContextFilter(s.ix, f)),
               Filter(t.tasks, TaskFilter(s.ix, f)),
               Filter(t.approvals, ApprovalFilter(s.ix, f)),
               registrations,
               Filter(t.deliveries, DeliveryFilter(registrations, s, f)),
               Filter(t.pools, PoolFilter(f))),
             s.ix)
  }

  // ------------------------------------------------------------------ filtering twice

  /** Members that pass a filter and also a second one pass both. */
  lemma Again<T>(rows: seq<T>, p: T -> bool, q: T -> bool)
    requires forall x :: x in Filter(rows, p) ==> q(x)
    ensures Filter(Filter(rows, p), q) == Filter(rows, p)
  {
    FilterAll(Filter(rows, p), q);
  }

  lemma {:induction false} TaskLookupAfterFilter(tasks: seq<Task>, taskId: string, p: Task -> bool)
    ensures TaskByPublicId(tasks, taskId).None? ==> TaskByPublicId(Filter(tasks, p), taskId).None?
    ensures TaskByPublicId(tasks, taskId).Some? && p(TaskByPublicId(tasks, taskId).value) ==>
            TaskByPublicId(Filter(tasks, p), taskId) == TaskByPublicId(tasks, taskId)
  {
    if tasks != [] {
      TaskLookupAfterFilter(tasks[1..], taskId, p);
      FilterUnfold(tasks, p);
    }
  }

  /** A webhook row that passed still passes: its task, if it has one, passed as well. */
  lemma WebhookAgain(s: Snapshot, f: Filters, sessionId: string, taskId: string)
    requires WebhookMatches(sessionId, taskId, s, f)
    ensures WebhookMatches(sessionId, taskId, FilterSnapshot(s, f), f)
  {
    TaskLookupAfterFilter(s.tables.tasks, taskId, TaskFilter(s.ix, f));
  }

  predicate HasMatchingTask(tasks: seq<Task>, taskId: string, ix: Indexes, f: Filters) {
    exists t :: t in tasks && t.taskId == taskId && TaskMatches(t, ix, f)
  }

  lemma {:induction false} TaskFoundInFilter(tasks: seq<Task>, taskId: string, ix: Indexes, f: Filters)
    ensures TaskByPublicId(Filter(tasks, TaskFilter(ix, f)), taskId).Some? <==> HasMatchingTask(tasks, taskId, ix, f)
    ensures var found := TaskByPublicId(Filter(tasks, TaskFilter(ix, f)), taskId);
        found.Some? ==> TaskMatches(found.value, ix, f)
  {
    if tasks != [] {
      TaskFoundInFilter(tasks[1..], taskId, ix, f);
      FilterUnfold(tasks, TaskFilter(ix, f));
      assert tasks == [tasks[0]] + tasks[1..];
      assert HasMatchingTask(tasks, taskId, ix, f)
        <==> (tasks[0].taskId == taskId && TaskMatches(tasks[0], ix, f)) || HasMatchingTask(tasks[1..], taskId, ix, f);
    }
  }

  /** What a webhook row needs to pass against the filtered tasks, and when that is not what it
      needed against all tasks: exactly when the first task with its public id is there but
      fails the filters, and either no session is asked for or another task with that id
      passes. */
  lemma WebhookAfterFilter(s: Snapshot, f: Filters, sessionId: string, taskId: string)
    ensures WebhookMatches(sessionId, taskId, FilterSnapshot(s, f), f)
            <==>
            Passes(f.sessionId, Some(sessionId))
            && (f.sessionId.None? || HasMatchingTask(s.tables.tasks, taskId, s.ix, f))
    ensures var first := TaskByPublicId(s.tables.tasks, taskId);
            (WebhookMatches(sessionId, taskId, FilterSnapshot(s, f), f) <==> WebhookMatches(sessionId, taskId, s, f))
            <==> !(&& first.Some? && !TaskMatches(first.value, s.ix, f)
                   && Passes(f.sessionId, Some(sessionId))
                       && (f.sessionId.None? || HasMatchingTask(s.tables.tasks, taskId, s.ix, f)))
  {
    TaskFoundInFilter(s.tables.tasks, taskId, s.ix, f);
    FirstTaskListed(s.tables.tasks, taskId);
  }

  lemma {:induction false} FirstTaskListed(tasks: seq<Task>, taskId: string)
    ensures match TaskByPublicId(tasks, taskId)
            case Some(task) => task in tasks && task.taskId == taskId
            case None => forall t :: t in tasks ==> t.taskId != taskId
  {
    if tasks != [] {
      FirstTaskListed(tasks[1..], taskId);
    }
  }

  /** One task that fails a phase filter is enough: its webhook, which does not pass, would pass
      once the task is filtered out. */
  lemma WebhookPassesWithoutItsTask(ix: Indexes)
    ensures var task := Task("t", "public", "j", "s", "queued", None);
            var f := Filters(None, None, Some("p"), None);
            var s := Snapshot(Tables([], [], [], [], [], [], [task], [], [], [], []), ix.(taskPhaseKeyById := map[]));
            && !WebhookMatches("s", "public", s, f) && WebhookMatches("s", "public", FilterSnapshot(s, f), f)
  {
    var task := Task("t", "public", "j", "s", "queued", None);
    var f := Filters(None, None, Some("p"), None);
    var s := Snapshot(Tables([], [], [], [], [], [], [task], [], [], [], []), ix.(taskPhaseKeyById := map[]));
    assert !TaskMatches(task, s.ix, f);
    assert s.tables.tasks[0] == task;
    WebhookAfterFilter(s, f, "s", "public");
  }

  /** A session passes against the filtered jobs if and only if it passes against all of them:
      the job that speaks for it under a pool filter is itself one of the filtered jobs. */
  lemma SessionAgain(s: Snapshot, f: Filters, x: Session)
    requires Consistent(s) && x in s.tables.sessions
    ensures SessionFilter(FilterSnapshot(s, f), f)(x) <==> SessionFilter(s, f)(x)
  {
    if f.poolKey.Some? && SessionFilter(s, f)(x) {
      var j :| j in s.tables.jobs && j.sessionId == x.id && Get(s.ix.jobPoolKeyById, j.id) == f.poolKey;
      assert JobFilter(s.ix, f)(j);
      assert j in FilterSnapshot(s, f).tables.jobs;
    }
  }

  lemma RegistrationsAgain(s: Snapshot, f: Filters)
    ensures Filter(FilterSnapshot(s, f).tables.registrations, RegistrationFilter(FilterSnapshot(s, f), f))
         == FilterSnapshot(s, f).tables.registrations
  {
    var s' := FilterSnapshot(s, f);
    forall r | r in s'.tables.registrations ensures RegistrationFilter(s', f)(r) {
      assert RegistrationFilter(s, f)(r);
      WebhookAgain(s, f, r.sessionId, r.taskId);
    }
    Again(s.tables.registrations, RegistrationFilter(s, f), RegistrationFilter(s', f));
  }

  lemma DeliveriesAgain(s: Snapshot, f: Filters)
    ensures var s' := FilterSnapshot(s, f);
            Filter(s'.tables.deliveries, DeliveryFilter(s'.tables.registrations, s', f)) == s'.tables.deliveries
  {
    var s' := FilterSnapshot(s, f);
    forall d | d in s'.tables.deliveries ensures DeliveryFilter(s'.tables.registrations, s', f)(d) {
      assert DeliveryFilter(s'.tables.registrations, s, f)(d);
      WebhookAgain(s, f, d.sessionId, d.taskId);
    }
    Again(s.tables.deliveries, DeliveryFilter(s'.tables.registrations, s, f),
        DeliveryFilter(s'.tables.registrations, s', f));
  }

  /** Filtering a loaded snapshot a second time changes no list. */
  lemma FilterIsIdempotent(t: Tables, f: Filters)
    requires forall i, k :: 0 <= i < k < |t.jobs| ==> t.jobs[i].id != t.jobs[k].id
    ensures var once := FilterSnapshot(LoadSnapshot(t), f);
            FilterSnapshot(once, f) == once
  {
    LoadIsConsistent(t);
    FilterAgain(LoadSnapshot(t), f);
  }

  lemma FilterAgain(s: Snapshot, f: Filters)
    requires Consistent(s)
    ensures FilterSnapshot(FilterSnapshot(s, f), f) == FilterSnapshot(s, f)
  {
    var s' := FilterSnapshot(s, f);
    forall x | x in s'.tables.sessions ensures SessionFilter(s', f)(x) {
      assert x in s.tables.sessions && SessionFilter(s, f)(x);
      SessionAgain(s, f, x);
    }
    Again(s.tables.sessions, SessionFilter(s, f), SessionFilter(s', f));
    Again(s.tables.jobs, JobFilter(s.ix, f), JobFilter(s.ix, f));
    Again(s.tables.reviews, ReviewFilter(s.ix, f), ReviewFilter(s.ix, f));
    Again(s.tables.runs, RunFilter(s.ix, f), RunFilter(s.ix, f));
    Again(s.tables.contexts, ContextFilter(s.ix, f), ContextFilter(s.ix, f));
    Again(s.tables.tasks, TaskFilter(s.ix, f), TaskFilter(s.ix, f));
    Again(s.tables.approvals, ApprovalFilter(s.ix, f), ApprovalFilter(s.ix, f));
    Again(s.tables.pools, PoolFilter(f), PoolFilter(f));
    RegistrationsAgain(s, f);
    DeliveriesAgain(s, f);
  }
}
