/** What the dashboard keeps and counts, told from the tables themselves: the indexes that
    loading builds, and the filters that read them, have no part in the statements here. */
module DashboardRows {
  import opened Seqs
  import opened Jobs
  import opened DashboardSnapshot

  // ------------------------------------------------------------------ rows that belong together

  /** The tables' primary keys, and the unique job of a work context. */
  ghost predicate UniqueIds(t: Tables) {
    && (forall i, k :: 0 <= i < k < |t.sessions| ==> t.sessions[i].id != t.sessions[k].id)
    && (forall i, k :: 0 <= i < k < |t.phases| ==> t.phases[i].id != t.phases[k].id)
    && (forall i, k :: 0 <= i < k < |t.jobs| ==> t.jobs[i].id != t.jobs[k].id)
    && (forall i, k :: 0 <= i < k < |t.contexts| ==> t.contexts[i].jobId != t.contexts[k].jobId)
    && (forall i, k :: 0 <= i < k < |t.tasks| ==> t.tasks[i].id != t.tasks[k].id)
    && (forall i, k :: 0 <= i < k < |t.pools| ==> t.pools[i].id != t.pools[k].id)
  }

  ghost predicate HasSession(t: Tables, sessionId: string) {
    exists x :: x in t.sessions && x.id == sessionId
  }

  ghost predicate HasJob(t: Tables, jobId: string) {
    exists j :: j in t.jobs && j.id == jobId
  }

  /** The session's active phase row has this key. */
  ghost predicate SessionInPhase(t: Tables, sessionId: string, key: string) {
    exists x, phase :: x in t.sessions && phase in t.phases
                       && x.id == sessionId && x.activePhaseId == Some(phase.id) && phase.phaseKey == key
  }

  /** The pool row of the job's work context has this key. */
  ghost predicate JobInPool(t: Tables, jobId: string, key: string) {
    exists c, pool :: c in t.contexts && pool in t.pools
                      && c.jobId == jobId && c.runtimePoolId == Some(pool.id) && pool.poolKey == key
  }

  /** The job row exists and its session's active phase has this key. */
  ghost predicate JobInPhase(t: Tables, jobId: string, key: string) {
    exists j :: j in t.jobs && j.id == jobId && SessionInPhase(t, j.sessionId, key)
  }

  // ------------------------------------------------------------------ what the indexes hold

  lemma IndexFinds<T, V>(rows: seq<T>, key: T -> string, value: T -> V, r: T)
    requires r in rows && forall i, k :: 0 <= i < k < |rows| ==> key(rows[i]) != key(rows[k])
    ensures Lookup(Index(rows, key, value), key(r)) == Some(value(r))
  {
    var i :| 0 <= i < |rows| && rows[i] == r;
    IndexAt(rows, key, value, i);
  }

  lemma {:induction false} IndexMisses<T, V>(rows: seq<T>, key: T -> string, value: T -> V, k: string)
    requires forall r :: r in rows ==> key(r) != k
    ensures Lookup(Index(rows, key, value), k).None?
  {
    if rows != [] {
      IndexMisses(rows[..|rows| - 1], key, value, k);
      assert rows[|rows| - 1] in rows;
    }
  }

  lemma SessionFound(t: Tables, x: Session)
    requires UniqueIds(t) && x in t.sessions
    ensures Lookup(LoadSnapshot(t).ix.sessionById, x.id) == Some(x)
  {
    IndexFinds(t.sessions, (y: Session) => y.id, (y: Session) => y, x);
  }

  lemma SessionLookup(t: Tables, sessionId: string)
    requires UniqueIds(t)
    ensures Lookup(LoadSnapshot(t).ix.sessionById, sessionId).Some? <==> HasSession(t, sessionId)
  {
    if x :| x in t.sessions && x.id == sessionId {
      SessionFound(t, x);
    } else {
      IndexMisses(t.sessions, (y: Session) => y.id, (y: Session) => y, sessionId);
    }
  }

  lemma JobFound(t: Tables, j: Job)
    requires UniqueIds(t) && j in t.jobs
    ensures Lookup(LoadSnapshot(t).ix.jobById, j.id) == Some(j)
  {
    IndexFinds(t.jobs, (y: Job) => y.id, (y: Job) => y, j);
  }

  lemma JobLookup(t: Tables, jobId: string)
    requires UniqueIds(t)
    ensures jobId in LoadSnapshot(t).ix.jobById <==> HasJob(t, jobId)
  {
    if j :| j in t.jobs && j.id == jobId {
      JobFound(t, j);
    } else {
      IndexMisses(t.jobs, (y: Job) => y.id, (y: Job) => y, jobId);
    }
  }

  function PhaseById(t: Tables): map<string, Phase> {
    Index(t.phases, (p: Phase) => p.id, (p: Phase) => p)
  }

  lemma ActivePhase(t: Tables, x: Session, key: string)
    requires UniqueIds(t)
    ensures ActivePhaseKey(PhaseById(t), x) == Some(key)
            <==> exists phase :: phase in t.phases && x.activePhaseId == Some(phase.id) && phase.phaseKey == key
  {
    if phase :| phase in t.phases && x.activePhaseId == Some(phase.id) {
      IndexFinds(t.phases, (p: Phase) => p.id, (p: Phase) => p, phase);
      assert forall q :: q in t.phases && q.id == phase.id ==> q == phase;
    } else if x.activePhaseId.Some? {
      IndexMisses(t.phases, (p: Phase) => p.id, (p: Phase) => p, x.activePhaseId.value);
    }
  }

  lemma SessionPhaseLookup(t: Tables, sessionId: string, key: string)
    requires UniqueIds(t)
    ensures Get(LoadSnapshot(t).ix.phaseKeyBySessionId, sessionId) == Some(key) <==> SessionInPhase(t, sessionId, key)
  {
    var byId := PhaseById(t);
    if x :| x in t.sessions && x.id == sessionId {
      IndexFinds(t.sessions, (s: Session) => s.id, (s: Session) => ActivePhaseKey(byId, s), x);
      ActivePhase(t, x, key);
      assert forall y :: y in t.sessions && y.id == sessionId ==> y == x;
    } else {
      IndexMisses(t.sessions, (s: Session) => s.id, (s: Session) => ActivePhaseKey(byId, s), sessionId);
    }
  }

  function PoolKeyById(t: Tables): map<string, string> {
    Index(t.pools, (p: Pool) => p.id, (p: Pool) => p.poolKey)
  }

  lemma ContextPool(t: Tables, c: Context, key: string)
    requires UniqueIds(t)
    ensures PoolKeyOf(PoolKeyById(t), c) == Some(key)
            <==> exists pool :: pool in t.pools && c.runtimePoolId == Some(pool.id) && pool.poolKey == key
  {
    if pool :| pool in t.pools && c.runtimePoolId == Some(pool.id) {
      IndexFinds(t.pools, (p: Pool) => p.id, (p: Pool) => p.poolKey, pool);
      assert forall q :: q in t.pools && q.id == pool.id ==> q == pool;
    } else if c.runtimePoolId.Some? {
      IndexMisses(t.pools, (p: Pool) => p.id, (p: Pool) => p.poolKey, c.runtimePoolId.value);
    }
  }

  lemma ContextPoolLookup(t: Tables, jobId: string, key: string)
    requires UniqueIds(t)
    ensures Get(LoadSnapshot(t).ix.contextPoolKeyByJobId, jobId) == Some(key) <==> JobInPool(t, jobId, key)
  {
    var byId := PoolKeyById(t);
    if c :| c in t.contexts && c.jobId == jobId {
      IndexFinds(t.contexts, (x: Context) => x.jobId, (x: Context) => PoolKeyOf(byId, x), c);
      ContextPool(t, c, key);
      assert forall y :: y in t.contexts && y.jobId == jobId ==> y == c;
    } else {
      IndexMisses(t.contexts, (x: Context) => x.jobId, (x: Context) => PoolKeyOf(byId, x), jobId);
    }
  }

  lemma JobPoolLookup(t: Tables, jobId: string, key: string)
    requires UniqueIds(t)
    ensures Get(LoadSnapshot(t).ix.jobPoolKeyById, jobId) == Some(key) <==> HasJob(t, jobId) && JobInPool(t, jobId, key)
  {
    JobLookup(t, jobId);
    ContextPoolLookup(t, jobId, key);
  }

  lemma JobPhaseLookup(t: Tables, jobId: string, key: string)
    requires UniqueIds(t)
    ensures Get(LoadSnapshot(t).ix.jobPhaseKeyById, jobId) == Some(key) <==> JobInPhase(t, jobId, key)
  {
    var phases := LoadSnapshot(t).ix.phaseKeyBySessionId;
    if j :| j in t.jobs && j.id == jobId {
      IndexFinds(t.jobs, (x: Job) => x.id, (x: Job) => Get(phases, x.sessionId), j);
      SessionPhaseLookup(t, j.sessionId, key);
      assert forall y :: y in t.jobs && y.id == jobId ==> y == j;
    } else {
      IndexMisses(t.jobs, (x: Job) => x.id, (x: Job) => Get(phases, x.sessionId), jobId);
    }
  }

  lemma TaskLookups(t: Tables, x: Task, key: string)
    requires UniqueIds(t) && x in t.tasks
    ensures Get(LoadSnapshot(t).ix.taskPoolKeyById, x.id) == Some(key)
            <==> HasJob(t, x.jobId) && JobInPool(t, x.jobId, key)
    ensures Get(LoadSnapshot(t).ix.taskPhaseKeyById, x.id) == Some(key) <==> JobInPhase(t, x.jobId, key)
  {
    var pools, phases := LoadSnapshot(t).ix.jobPoolKeyById, LoadSnapshot(t).ix.jobPhaseKeyById;
    IndexFinds(t.tasks, (y: Task) => y.id, (y: Task) => Get(pools, y.jobId), x);
    IndexFinds(t.tasks, (y: Task) => y.id, (y: Task) => Get(phases, y.jobId), x);
    JobPoolLookup(t, x.jobId, key);
    JobPhaseLookup(t, x.jobId, key);
  }

  // ------------------------------------------------------------------ what the filters ask for

  predicate AsksSession(f: Filters, sessionId: string) {
    f.sessionId.Some? ==> f.sessionId.value == sessionId
  }

  ghost predicate KeepsSession(t: Tables, f: Filters, x: Session) {
    && AsksSession(f, x.id)
    && (f.phaseKey.Some? ==> SessionInPhase(t, x.id, f.phaseKey.value))
    && (f.poolKey.Some? ==> exists j :: j in t.jobs && j.sessionId == x.id && JobInPool(t, j.id, f.poolKey.value))
  }

  ghost predicate KeepsJob(t: Tables, f: Filters, j: Job) {
    && HasSession(t, j.sessionId) && AsksSession(f, j.sessionId)
    && (f.phaseKey.Some? ==> SessionInPhase(t, j.sessionId, f.phaseKey.value))
    && (f.poolKey.Some? ==> JobInPool(t, j.id, f.poolKey.value))
  }

  /** The pool of a row that may name a source job. */
  ghost predicate SourceInPool(t: Tables, jobId: Option<string>, key: string) {
    jobId.Some? && HasJob(t, jobId.value) && JobInPool(t, jobId.value, key)
  }

  ghost predicate KeepsReview(t: Tables, f: Filters, r: Review) {
    && r.reviewStatus == "requested" && HasSession(t, r.sessionId) && AsksSession(f, r.sessionId)
    && (f.phaseKey.Some? ==> SessionInPhase(t, r.sessionId, f.phaseKey.value))
    && (f.templateKey.Some? ==> r.templateKey == f.templateKey.value)
    && (f.poolKey.Some? ==> SourceInPool(t, r.sourceJobId, f.poolKey.value))
  }

  /** The first of a run's current, pending and failure phases that is set and not empty, or,
      when the first two are not, the failure phase as it is. */
  predicate RunInPhase(r: OrchestrationRun, key: string) {
    if r.currentPhaseKey.Some? && r.currentPhaseKey.value != "" then r.currentPhaseKey.value == key
    else if r.pendingPhaseKey.Some? && r.pendingPhaseKey.value != "" then r.pendingPhaseKey.value == key
    else r.failurePhaseKey == Some(key)
  }

  ghost predicate KeepsRun(t: Tables, f: Filters, r: OrchestrationRun) {
    && HasSession(t, r.sessionId) && AsksSession(f, r.sessionId)
    && (f.phaseKey.Some? ==> RunInPhase(r, f.phaseKey.value))
    && (f.poolKey.Some? ==> SourceInPool(t, r.sourceJobId, f.poolKey.value))
  }

  ghost predicate KeepsContext(t: Tables, f: Filters, c: Context) {
    && AsksSession(f, c.sessionId)
    && (f.phaseKey.Some? ==> JobInPhase(t, c.jobId, f.phaseKey.value))
    && (f.poolKey.Some? ==> JobInPool(t, c.jobId, f.poolKey.value))
  }

  ghost predicate KeepsTask(t: Tables, f: Filters, x: Task) {
    && AsksSession(f, x.sessionId)
    && (f.phaseKey.Some? ==> JobInPhase(t, x.jobId, f.phaseKey.value))
    && (f.poolKey.Some? ==> HasJob(t, x.jobId) && JobInPool(t, x.jobId, f.poolKey.value))
    && (f.templateKey.Some? ==> x.templateKey == f.templateKey)
  }

  ghost predicate KeepsApproval(t: Tables, f: Filters, a: ApprovalRow) {
    && a.status == "pending"
    && exists j :: j in t.jobs && j.id == a.jobId && AsksSession(f, j.sessionId)
                   && (f.phaseKey.Some? ==> SessionInPhase(t, j.sessionId, f.phaseKey.value))
                   && (f.poolKey.Some? ==> JobInPool(t, j.id, f.poolKey.value))
  }

  /** A webhook row goes by its task, the first with its public id; without one it passes
      unless a session is asked for. */
  ghost predicate KeepsWebhook(t: Tables, f: Filters, sessionId: string, taskId: string) {
    && AsksSession(f, sessionId)
    && if exists x :: x in t.tasks && x.taskId == taskId then
         exists i :: 0 <= i < |t.tasks| && t.tasks[i].taskId == taskId && KeepsTask(t, f, t.tasks[i])
                     && forall k :: 0 <= k < i ==> t.tasks[k].taskId != taskId
       else f.sessionId.None?
  }

  ghost predicate KeepsDelivery(t: Tables, f: Filters, d: Delivery) {
    && KeepsWebhook(t, f, d.sessionId, d.taskId)
    && exists r :: r in t.registrations && r.id == d.registrationId && KeepsWebhook(t, f, r.sessionId, r.taskId)
  }

  // ------------------------------------------------------------------ the filters keep just that

  lemma PhaseAsked(t: Tables, f: Filters, sessionId: string)
    requires UniqueIds(t)
    ensures Passes(f.phaseKey, Get(LoadSnapshot(t).ix.phaseKeyBySessionId, sessionId))
            <==> (f.phaseKey.Some? ==> SessionInPhase(t, sessionId, f.phaseKey.value))
  {
    if f.phaseKey.Some? { SessionPhaseLookup(t, sessionId, f.phaseKey.value); }
  }

  lemma JobPhaseAsked(t: Tables, f: Filters, jobId: string)
    requires UniqueIds(t)
    ensures Passes(f.phaseKey, Get(LoadSnapshot(t).ix.jobPhaseKeyById, jobId))
            <==> (f.phaseKey.Some? ==> JobInPhase(t, jobId, f.phaseKey.value))
  {
    if f.phaseKey.Some? { JobPhaseLookup(t, jobId, f.phaseKey.value); }
  }

  lemma JobPoolAsked(t: Tables, f: Filters, jobId: string)
    requires UniqueIds(t)
    ensures Passes(f.poolKey, Get(LoadSnapshot(t).ix.jobPoolKeyById, jobId))
            <==> (f.poolKey.Some? ==> HasJob(t, jobId) && JobInPool(t, jobId, f.poolKey.value))
  {
    if f.poolKey.Some? { JobPoolLookup(t, jobId, f.poolKey.value); }
  }

  lemma OwnPhase(t: Tables, j: Job, key: string)
    requires UniqueIds(t) && j in t.jobs
    ensures JobInPhase(t, j.id, key) <==> SessionInPhase(t, j.sessionId, key)
    ensures HasJob(t, j.id)
  {
    assert forall y :: y in t.jobs && y.id == j.id ==> y == j;
  }

  lemma JobKept(t: Tables, f: Filters, j: Job)
    requires UniqueIds(t) && j in t.jobs
    ensures JobFilter(LoadSnapshot(t).ix, f)(j) <==> KeepsJob(t, f, j)
  {
    SessionLookup(t, j.sessionId);
    JobPhaseAsked(t, f, j.id);
    JobPoolAsked(t, f, j.id);
    OwnPhase(t, j, f.phaseKey.GetOr(""));
  }

  lemma SessionKept(t: Tables, f: Filters, x: Session)
    requires UniqueIds(t) && x in t.sessions
    ensures SessionFilter(LoadSnapshot(t), f)(x) <==> KeepsSession(t, f, x)
  {
    PhaseAsked(t, f, x.id);
    forall j | j in t.jobs && f.poolKey.Some?
      ensures Get(LoadSnapshot(t).ix.jobPoolKeyById, j.id) == f.poolKey <==> JobInPool(t, j.id, f.poolKey.value)
    {
      JobPoolLookup(t, j.id, f.poolKey.value);
      OwnPhase(t, j, "");
    }
  }

  lemma SourcePoolAsked(t: Tables, f: Filters, jobId: Option<string>)
    requires UniqueIds(t)
    ensures Passes(f.poolKey, JobPoolKeyForJobId(LoadSnapshot(t).ix, jobId))
            <==> (f.poolKey.Some? ==> SourceInPool(t, jobId, f.poolKey.value))
  {
    if jobId.Some? { JobPoolAsked(t, f, jobId.value); }
  }

  lemma ReviewKept(t: Tables, f: Filters, r: Review)
    requires UniqueIds(t)
    ensures ReviewFilter(LoadSnapshot(t).ix, f)(r) <==> KeepsReview(t, f, r)
  {
    SessionLookup(t, r.sessionId);
    PhaseAsked(t, f, r.sessionId);
    SourcePoolAsked(t, f, r.sourceJobId);
  }

  lemma RunKept(t: Tables, f: Filters, r: OrchestrationRun)
    requires UniqueIds(t)
    ensures RunFilter(LoadSnapshot(t).ix, f)(r) <==> KeepsRun(t, f, r)
  {
    SessionLookup(t, r.sessionId);
    SourcePoolAsked(t, f, r.sourceJobId);
  }

  lemma ContextKept(t: Tables, f: Filters, c: Context)
    requires UniqueIds(t)
    ensures ContextFilter(LoadSnapshot(t).ix, f)(c) <==> KeepsContext(t, f, c)
  {
    JobPhaseAsked(t, f, c.jobId);
    if f.poolKey.Some? { ContextPoolLookup(t, c.jobId, f.poolKey.value); }
  }

  lemma TaskKept(t: Tables, f: Filters, x: Task)
    requires UniqueIds(t) && x in t.tasks
    ensures TaskFilter(LoadSnapshot(t).ix, f)(x) <==> KeepsTask(t, f, x)
  {
    TaskLookups(t, x, f.phaseKey.GetOr(""));
    TaskLookups(t, x, f.poolKey.GetOr(""));
  }

  lemma ApprovalKept(t: Tables, f: Filters, a: ApprovalRow)
    requires UniqueIds(t)
    ensures ApprovalFilter(LoadSnapshot(t).ix, f)(a) <==> KeepsApproval(t, f, a)
  {
    JobLookup(t, a.jobId);
    if j :| j in t.jobs && j.id == a.jobId {
      JobFound(t, j);
      JobPhaseAsked(t, f, j.id);
      JobPoolAsked(t, f, j.id);
      OwnPhase(t, j, f.phaseKey.GetOr(""));
      assert forall y :: y in t.jobs && y.id == j.id ==> y == j;
    }
  }

  lemma {:induction false} FirstTask(tasks: seq<Task>, taskId: string)
    ensures match TaskByPublicId(tasks, taskId)
            case None => forall x :: x in tasks ==> x.taskId != taskId
            case Some(x) => exists i :: 0 <= i < |tasks| && tasks[i] == x && x.taskId == taskId
                                        && forall k :: 0 <= k < i ==> tasks[k].taskId != taskId
  {
    if tasks != [] && tasks[0].taskId != taskId {
      FirstTask(tasks[1..], taskId);
      if TaskByPublicId(tasks[1..], taskId).Some? {
        var i :| 0 <= i < |tasks[1..]| && tasks[1..][i] == TaskByPublicId(tasks, taskId).value
                 && forall k :: 0 <= k < i ==> tasks[1..][k].taskId != taskId;
        assert tasks[i + 1] == TaskByPublicId(tasks, taskId).value;
        assert forall k :: 0 < k < i + 1 ==> tasks[k] == tasks[1..][k - 1];
      }
    }
  }

  lemma WebhookKept(t: Tables, f: Filters, sessionId: string, taskId: string)
    requires UniqueIds(t)
    ensures WebhookMatches(sessionId, taskId, LoadSnapshot(t), f) <==> KeepsWebhook(t, f, sessionId, taskId)
  {
    FirstTask(t.tasks, taskId);
    match TaskByPublicId(t.tasks, taskId) {
      case None =>
      case Some(x) =>
        var i :| 0 <= i < |t.tasks| && t.tasks[i] == x && x.taskId == taskId
                 && forall k :: 0 <= k < i ==> t.tasks[k].taskId != taskId;
        assert x in t.tasks;
        TaskKept(t, f, x);
    }
  }

  lemma RegistrationsKept(t: Tables, f: Filters)
    requires UniqueIds(t)
    ensures Filter(t.registrations, RegistrationFilter(LoadSnapshot(t), f)) == KeptRegistrations(t, f)
  {
    var keep := (r: Registration) => KeepsWebhook(t, f, r.sessionId, r.taskId);
    forall r | r in t.registrations ensures RegistrationFilter(LoadSnapshot(t), f)(r) == keep(r) {
      WebhookKept(t, f, r.sessionId, r.taskId);
    }
    FilterAgree(t.registrations, RegistrationFilter(LoadSnapshot(t), f), keep);
  }

  lemma DeliveryKept(t: Tables, f: Filters, d: Delivery)
    requires UniqueIds(t)
    ensures var registrations := Filter(t.registrations, RegistrationFilter(LoadSnapshot(t), f));
            DeliveryFilter(registrations, LoadSnapshot(t), f)(d) <==> KeepsDelivery(t, f, d)
  {
    WebhookKept(t, f, d.sessionId, d.taskId);
    forall r | r in t.registrations
      ensures RegistrationFilter(LoadSnapshot(t), f)(r) <==> KeepsWebhook(t, f, r.sessionId, r.taskId)
    {
      WebhookKept(t, f, r.sessionId, r.taskId);
    }
  }

  // ------------------------------------------------------------------ the filtered tables

  // The rows that the filters ask for, in the order of their tables.

  ghost function KeptSessions(t: Tables, f: Filters): seq<Session> {
    Filter(t.sessions, (x: Session) => KeepsSession(t, f, x))
  }

  ghost function KeptJobs(t: Tables, f: Filters): seq<Job> {
    Filter(t.jobs, (j: Job) => KeepsJob(t, f, j))
  }

  ghost function KeptReviews(t: Tables, f: Filters): seq<Review> {
    Filter(t.reviews, (r: Review) => KeepsReview(t, f, r))
  }

  ghost function KeptRuns(t: Tables, f: Filters): seq<OrchestrationRun> {
    Filter(t.runs, (r: OrchestrationRun) => KeepsRun(t, f, r))
  }

  ghost function KeptContexts(t: Tables, f: Filters): seq<Context> {
    Filter(t.contexts, (c: Context) => KeepsContext(t, f, c))
  }

  ghost function KeptTasks(t: Tables, f: Filters): seq<Task> {
    Filter(t.tasks, (x: Task) => KeepsTask(t, f, x))
  }

  ghost function KeptApprovals(t: Tables, f: Filters): seq<ApprovalRow> {
    Filter(t.approvals, (a: ApprovalRow) => KeepsApproval(t, f, a))
  }

  ghost function KeptRegistrations(t: Tables, f: Filters): seq<Registration> {
    Filter(t.registrations, (r: Registration) => KeepsWebhook(t, f, r.sessionId, r.taskId))
  }

  ghost function KeptDeliveries(t: Tables, f: Filters): seq<Delivery> {
    Filter(t.deliveries, (d: Delivery) => KeepsDelivery(t, f, d))
  }

  ghost function KeptPools(t: Tables, f: Filters): seq<Pool> {
    Filter(t.pools, (p: Pool) => f.poolKey.Some? ==> p.poolKey == f.poolKey.value)
  }

  lemma SessionsKept(t: Tables, f: Filters)
    requires UniqueIds(t)
    ensures Filter(t.sessions, SessionFilter(LoadSnapshot(t), f)) == KeptSessions(t, f)
  {
    var keep := (x: Session) => KeepsSession(t, f, x);
    forall x | x in t.sessions ensures SessionFilter(LoadSnapshot(t), f)(x) == keep(x) {
      SessionKept(t, f, x);
    }
    FilterAgree(t.sessions, SessionFilter(LoadSnapshot(t), f), keep);
  }

  lemma JobsKept(t: Tables, f: Filters)
    requires UniqueIds(t)
    ensures Filter(t.jobs, JobFilter(LoadSnapshot(t).ix, f)) == KeptJobs(t, f)
  {
    var keep := (j: Job) => KeepsJob(t, f, j);
    forall j | j in t.jobs ensures JobFilter(LoadSnapshot(t).ix, f)(j) == keep(j) {
      JobKept(t, f, j);
    }
    FilterAgree(t.jobs, JobFilter(LoadSnapshot(t).ix, f), keep);
  }

  lemma ReviewsKept(t: Tables, f: Filters)
    requires UniqueIds(t)
    ensures Filter(t.reviews, ReviewFilter(LoadSnapshot(t).ix, f)) == KeptReviews(t, f)
  {
    var keep := (r: Review) => KeepsReview(t, f, r);
    forall r | r in t.reviews ensures ReviewFilter(LoadSnapshot(t).ix, f)(r) == keep(r) {
      ReviewKept(t, f, r);
    }
    FilterAgree(t.reviews, ReviewFilter(LoadSnapshot(t).ix, f), keep);
  }

  lemma RunsKept(t: Tables, f: Filters)
    requires UniqueIds(t)
    ensures Filter(t.runs, RunFilter(LoadSnapshot(t).ix, f)) == KeptRuns(t, f)
  {
    var keep := (r: OrchestrationRun) => KeepsRun(t, f, r);
    forall r | r in t.runs ensures RunFilter(LoadSnapshot(t).ix, f)(r) == keep(r) {
      RunKept(t, f, r);
    }
    FilterAgree(t.runs, RunFilter(LoadSnapshot(t).ix, f), keep);
  }

  lemma ContextsKept(t: Tables, f: Filters)
    requires UniqueIds(t)
    ensures Filter(t.contexts, ContextFilter(LoadSnapshot(t).ix, f)) == KeptContexts(t, f)
  {
    var keep := (c: Context) => KeepsContext(t, f, c);
    forall c | c in t.contexts ensures ContextFilter(LoadSnapshot(t).ix, f)(c) == keep(c) {
      ContextKept(t, f, c);
    }
    FilterAgree(t.contexts, ContextFilter(LoadSnapshot(t).ix, f), keep);
  }

  lemma TasksKept(t: Tables, f: Filters)
    requires UniqueIds(t)
    ensures Filter(t.tasks, TaskFilter(LoadSnapshot(t).ix, f)) == KeptTasks(t, f)
  {
    var keep := (x: Task) => KeepsTask(t, f, x);
    forall x | x in t.tasks ensures TaskFilter(LoadSnapshot(t).ix, f)(x) == keep(x) {
      TaskKept(t, f, x);
    }
    FilterAgree(t.tasks, TaskFilter(LoadSnapshot(t).ix, f), keep);
  }

  lemma ApprovalsKept(t: Tables, f: Filters)
    requires UniqueIds(t)
    ensures Filter(t.approvals, ApprovalFilter(LoadSnapshot(t).ix, f)) == KeptApprovals(t, f)
  {
    var keep := (a: ApprovalRow) => KeepsApproval(t, f, a);
    forall a | a in t.approvals ensures ApprovalFilter(LoadSnapshot(t).ix, f)(a) == keep(a) {
      ApprovalKept(t, f, a);
    }
    FilterAgree(t.approvals, ApprovalFilter(LoadSnapshot(t).ix, f), keep);
  }

  lemma DeliveriesKept(t: Tables, f: Filters)
    requires UniqueIds(t)
    ensures var registrations := Filter(t.registrations, RegistrationFilter(LoadSnapshot(t), f));
            Filter(t.deliveries, DeliveryFilter(registrations, LoadSnapshot(t), f)) == KeptDeliveries(t, f)
  {
    var registrations := Filter(t.registrations, RegistrationFilter(LoadSnapshot(t), f));
    var keep := (d: Delivery) => KeepsDelivery(t, f, d);
    forall d | d in t.deliveries ensures DeliveryFilter(registrations, LoadSnapshot(t), f)(d) == keep(d) {
      DeliveryKept(t, f, d);
    }
    FilterAgree(t.deliveries, DeliveryFilter(registrations, LoadSnapshot(t), f), keep);
  }

  lemma PoolsKept(t: Tables, f: Filters)
    ensures Filter(t.pools, PoolFilter(f)) == KeptPools(t, f)
  {
    FilterAgree(t.pools, PoolFilter(f), (p: Pool) => f.poolKey.Some? ==> p.poolKey == f.poolKey.value);
  }

  /** Loading and filtering keeps, list by list and in order, exactly the rows that the filters
      ask for, as the rows themselves tell. */
  lemma FilterKeepsWhatIsAsked(t: Tables, f: Filters)
    requires UniqueIds(t)
    ensures FilterSnapshot(LoadSnapshot(t), f).tables
         == Tables(KeptSessions(t, f), t.phases, KeptJobs(t, f), KeptReviews(t, f), KeptRuns(t, f), KeptContexts(t, f),
                   KeptTasks(t, f), KeptApprovals(t, f), KeptRegistrations(t, f), KeptDeliveries(t, f), KeptPools(t, f))
  {
    SessionsKept(t, f);
    JobsKept(t, f);
    ReviewsKept(t, f);
    RunsKept(t, f);
    ContextsKept(t, f);
    TasksKept(t, f);
    ApprovalsKept(t, f);
    RegistrationsKept(t, f);
    DeliveriesKept(t, f);
    PoolsKept(t, f);
  }
}
