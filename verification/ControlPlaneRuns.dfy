/** Serialised runs of the control plane, and the life of an approval in them. */
module ControlPlaneRuns {
  import opened Seqs
  import opened Jobs
  import opened ControlPlane

  datatype Command =
    | DoCreateJob(id: string, sessionId: string, channelKey: string, agentId: string, runtimeId: Option<string>,
        now: int)
    | DoCreateRequest(jobId: string, approvalId: string, now: int)
    | DoDecide(approvalId: string, accept: bool, decision: Option<string>, now: int)
    | DoSchedule(jobId: string, inputType: string, d: Dispatch)
    | DoQueueRetry(jobId: string, d: Dispatch)
    | DoQueueResume(jobId: string, d: Dispatch)
    | DoDispatchPending(listed: seq<string>, relays: seq<Relay>, now: int)
    | DoInput(jobId: string, approval: Option<string>, text: string, d: Dispatch)
    | DoExecute(jobId: string, now: int, relay: Relay)
    | DoInterrupt(jobId: string, i: Interruption)
    | DoCompact(jobId: string, i: Interruption)
    | DoPause(jobId: string, now: int)
    | DoOperatorRetry(jobId: string, d: Dispatch)
    | DoOperatorResume(jobId: string, d: Dispatch)
    | DoOperatorCancel(jobId: string, i: Interruption)
    | DoOperatorDecide(approvalId: string, accept: bool, decision: Option<string>, now: int)

  /** What the repository can list as queued: distinct jobs, each queued at that moment. */
  predicate IsListing(p: Plane, listed: seq<string>) {
    && (forall i :: 0 <= i < |listed| ==> listed[i] in p.jobs && p.jobs[listed[i]].status.JobQueued?)
    && (forall i, j :: 0 <= i < j < |listed| ==> listed[i] != listed[j])
  }

  function Serve(p: Plane, c: Command): Plane {
    match c
    case DoCreateJob(id, sessionId, channelKey, agentId, runtimeId, now) =>
      CreateJob(p, NewJob(id, sessionId, channelKey, agentId, runtimeId, now))
    case DoCreateRequest(jobId, approvalId, now) =>
      if jobId in p.jobs && approvalId !in p.approvals then CreateRequest(p, p.jobs[jobId], approvalId, now) else p
    case DoDecide(approvalId, accept, decision, now) => ResolveApproval(p, approvalId, accept, decision, now).0
    case DoSchedule(jobId, inputType, d) => ScheduleJob(p, jobId, inputType, None, d).0
    case DoQueueRetry(jobId, d) => QueueRetry(p, jobId, d).0
    case DoQueueResume(jobId, d) => QueueResume(p, jobId, d).0
    case DoDispatchPending(listed, relays, now) =>
      if |listed| == |relays| && IsListing(p, listed) then DispatchPending(p, listed, relays, now) else p
    case DoInput(jobId, approval, text, d) => ProvideInput(p, jobId, approval, text, d).0
    case DoExecute(jobId, now, relay) => ExecuteJob(p, jobId, now, relay).0
    case DoInterrupt(jobId, i) => InterruptJob(p, jobId, i).0
    case DoCompact(jobId, i) => CompactJob(p, jobId, i).0
    case DoPause(jobId, now) => if jobId in p.jobs then PauseJob(p, jobId, now) else p
    case DoOperatorRetry(jobId, d) => OperatorRetry(p, jobId, d).0
    case DoOperatorResume(jobId, d) => OperatorResume(p, jobId, d).0
    case DoOperatorCancel(jobId, i) => OperatorCancel(p, jobId, i).0
    case DoOperatorDecide(approvalId, accept, decision, now) => OperatorDecide(p, approvalId, accept, decision, now).0
  }

  function ServeAll(p: Plane, run: seq<Command>): Plane
    decreases |run|
  {
    if run == [] then p else ServeAll(Serve(p, run[0]), run[1..])
  }

  const EMPTY := Plane(map[], map[], [], [], [])

  // ------------------------------------------------------------------ approvals

  function AcceptsOn(approvalId: string): JobEvent -> bool {
    (e: JobEvent) => e.ApprovalAccepted? && e.approvalId == approvalId
  }

  function DeclinesOn(approvalId: string): JobEvent -> bool {
    (e: JobEvent) => e.ApprovalDeclined? && e.approvalId == approvalId
  }

  /** The accepted and the declined job events of one approval are those its status asks for. */
  ghost predicate DecisionsOk(p: Plane, a: string) {
    && Count(p.jobEvents, AcceptsOn(a)) == (if a in p.approvals && p.approvals[a].status.Accepted? then 1 else 0)
    && Count(p.jobEvents, DeclinesOn(a)) == (if a in p.approvals && p.approvals[a].status.Declined? then 1 else 0)
  }

  predicate Resolved(p: Plane, approvalId: string) {
    approvalId in p.approvals && !p.approvals[approvalId].status.ApprovalPending?
  }

  ghost predicate ApprovalsOk(p: Plane) {
    && (forall id :: id in p.jobs ==> p.jobs[id].id == id)
    && (forall a :: a in p.approvals ==> p.approvals[a].jobId in p.jobs)
    && (forall a :: a in p.approvals ==> (p.approvals[a].status.ApprovalPending? <==> p.approvals[a].resolvedAt.None?))
    && (forall a :: DecisionsOk(p, a))
  }

  /** q may come after p: no job or approval row is dropped and a resolved approval is fixed. */
  ghost predicate Evolves(p: Plane, q: Plane) {
    && p.jobs.Keys <= q.jobs.Keys
    && p.approvals.Keys <= q.approvals.Keys
    && (forall a :: Resolved(p, a) ==> q.approvals[a] == p.approvals[a])
    && (forall a :: a in p.approvals ==> q.approvals[a].jobId == p.approvals[a].jobId)
  }

  lemma EvolvesTransitive(p: Plane, q: Plane, r: Plane)
    requires Evolves(p, q) && Evolves(q, r)
    ensures Evolves(p, r)
  {
  }

  ghost predicate Undecided(events: seq<JobEvent>) {
    forall e :: e in events ==> !e.ApprovalAccepted? && !e.ApprovalDeclined?
  }

  /** q differs from p outside the approvals table and logs no decision. */
  lemma JobWriteKeeps(p: Plane, q: Plane, more: seq<JobEvent>)
    requires ApprovalsOk(p) && q.approvals == p.approvals && p.jobs.Keys <= q.jobs.Keys
    requires forall id :: id in q.jobs ==> q.jobs[id].id == id
    requires q.jobEvents == p.jobEvents + more && Undecided(more)
    ensures ApprovalsOk(q) && Evolves(p, q)
  {
    forall a ensures DecisionsOk(q, a) {
      CountAppend(p.jobEvents, more, AcceptsOn(a));
      CountAppend(p.jobEvents, more, DeclinesOn(a));
      CountZero(more, AcceptsOn(a));
      CountZero(more, DeclinesOn(a));
      assert DecisionsOk(p, a);
    }
  }

  lemma CreateRequestKeeps(p: Plane, job: Job, approvalId: string, now: int)
    requires ApprovalsOk(p) && job.id in p.jobs && approvalId !in p.approvals
    ensures ApprovalsOk(CreateRequest(p, job, approvalId, now)) && Evolves(p, CreateRequest(p, job, approvalId, now))
  {
    var q := CreateRequest(p, job, approvalId, now);
    forall a ensures DecisionsOk(q, a) {
      CountAppend(p.jobEvents, [ApprovalRequested(job.id, approvalId)], AcceptsOn(a));
      CountAppend(p.jobEvents, [ApprovalRequested(job.id, approvalId)], DeclinesOn(a));
      assert DecisionsOk(p, a);
    }
  }

  lemma ResolveKeeps(p: Plane, approvalId: string, accept: bool, decision: Option<string>, now: int)
    requires ApprovalsOk(p)
    ensures var (q, outcome) := ResolveApproval(p, approvalId, accept, decision, now);
            ApprovalsOk(q) && Evolves(p, q) && !outcome.JobGone?
  {
    var (q, outcome) := ResolveApproval(p, approvalId, accept, decision, now);
    if outcome.Decided? {
      var event := q.jobEvents[|p.jobEvents|];
      forall a ensures DecisionsOk(q, a) {
        CountAppend(p.jobEvents, [event], AcceptsOn(a));
        CountAppend(p.jobEvents, [event], DeclinesOn(a));
        assert DecisionsOk(p, a);
      }
    }
  }

  /** A decision on a pending approval adds exactly one event, of its kind and for it; any other
      decision changes nothing. */
  lemma DecisionAddsItsEvent(p: Plane, a: string, accept: bool, decision: Option<string>, now: int)
    requires ApprovalsOk(p)
    ensures var (q, outcome) := ResolveApproval(p, a, accept, decision, now);
            if a in p.approvals && p.approvals[a].status.ApprovalPending? then
              && outcome.Decided?
              && a in q.approvals && q.approvals[a].status == (if accept then Accepted else Declined)
              && |q.jobEvents| == |p.jobEvents| + 1
              && Count(q.jobEvents, AcceptsOn(a)) == (if accept then 1 else 0)
              && Count(q.jobEvents, DeclinesOn(a)) == (if accept then 0 else 1)
              && (forall b :: b != a ==> Count(q.jobEvents, AcceptsOn(b)) == Count(p.jobEvents, AcceptsOn(b))
                                         && Count(q.jobEvents, DeclinesOn(b)) == Count(p.jobEvents, DeclinesOn(b)))
            else q == p && (outcome.UnknownApproval? || outcome.AlreadyResolved?)
  {
    var (q, outcome) := ResolveApproval(p, a, accept, decision, now);
    ResolveKeeps(p, a, accept, decision, now);
    if outcome.Decided? {
      assert DecisionsOk(q, a);
      forall b | b != a
        ensures Count(q.jobEvents, AcceptsOn(b)) == Count(p.jobEvents, AcceptsOn(b))
        ensures Count(q.jobEvents, DeclinesOn(b)) == Count(p.jobEvents, DeclinesOn(b))
      {
        CountAppend(p.jobEvents, [q.jobEvents[|p.jobEvents|]], AcceptsOn(b));
        CountAppend(p.jobEvents, [q.jobEvents[|p.jobEvents|]], DeclinesOn(b));
      }
    }
  }

  lemma ExecuteKeeps(p: Plane, jobId: string, now: int, relay: Relay)
    requires ApprovalsOk(p)
    ensures ApprovalsOk(ExecuteJob(p, jobId, now, relay).0) && Evolves(p, ExecuteJob(p, jobId, now, relay).0)
  {
    var q := ExecuteJob(p, jobId, now, relay).0;
    if jobId in p.jobs {
      match relay
      case RelayRaises =>
      case GuardPauses => JobWriteKeeps(p, q, [LoopGuardPaused(jobId)]);
      case TurnBegins(t) =>
        var job := TurnJob(p.jobs[jobId], t, now);
        var started := p.(jobs := p.jobs[jobId := job], jobEvents := p.jobEvents + [TurnStarted(jobId)]);
        JobWriteKeeps(p, started, [TurnStarted(jobId)]);
        var asks := job.status.InputRequired? || job.status.AuthRequired?;
        if !(asks && t.approvalId in p.approvals) {
          var asked := if asks then CreateRequest(started, job, t.approvalId, now) else started;
          if asks {
            CreateRequestKeeps(started, job, t.approvalId, now);
          }
          EvolvesTransitive(p, started, asked);
          if !t.publishFails {
            JobWriteKeeps(asked, q, [OutputPublished(jobId)]);
            EvolvesTransitive(p, asked, q);
          }
        }
    }
  }

  lemma InterruptKeeps(p: Plane, jobId: string, i: Interruption)
    requires ApprovalsOk(p)
    ensures ApprovalsOk(InterruptJob(p, jobId, i).0) && Evolves(p, InterruptJob(p, jobId, i).0)
  {
    var q := InterruptJob(p, jobId, i).0;
    if q != p {
      JobWriteKeeps(p, q, [TurnInterrupted(jobId)]);
    }
  }

  lemma CompactKeeps(p: Plane, jobId: string, i: Interruption)
    requires ApprovalsOk(p)
    ensures ApprovalsOk(CompactJob(p, jobId, i).0) && Evolves(p, CompactJob(p, jobId, i).0)
  {
    var q := CompactJob(p, jobId, i).0;
    if q != p {
      JobWriteKeeps(p, q, [ThreadCompacted(jobId)]);
    }
  }

  lemma ScheduleKeeps(p: Plane, jobId: string, inputType: string, previous: Option<JobStatus>, d: Dispatch)
    requires ApprovalsOk(p)
    ensures var q := ScheduleJob(p, jobId, inputType, previous, d).0; ApprovalsOk(q) && Evolves(p, q)
  {
    var q := ScheduleJob(p, jobId, inputType, previous, d).0;
    if jobId in p.jobs {
      var channelled := p.(inputs := p.inputs + [JobInput(jobId, inputType, previous)],
                           jobs := p.jobs[jobId := ChannelledJob(p.jobs[jobId], d.policy)]);
      JobWriteKeeps(p, channelled, []);
      if !DispatchAllowed(d.policy) {
        JobWriteKeeps(channelled, q, []);
      } else if d.runtimeReady {
        ExecuteKeeps(channelled, jobId, d.now, d.relay);
      }
      EvolvesTransitive(p, channelled, q);
    }
  }

  lemma RewriteThenScheduleKeeps(p: Plane, job: Job, inputType: string, previous: Option<JobStatus>, d: Dispatch)
    requires ApprovalsOk(p) && job.id in p.jobs
    ensures var q := ScheduleJob(p.(jobs := p.jobs[job.id := job]), job.id, inputType, previous, d).0;
        ApprovalsOk(q) && Evolves(p, q)
  {
    var written := p.(jobs := p.jobs[job.id := job]);
    JobWriteKeeps(p, written, []);
    ScheduleKeeps(written, job.id, inputType, previous, d);
    EvolvesTransitive(p, written, ScheduleJob(written, job.id, inputType, previous, d).0);
  }

  lemma QueueRetryKeeps(p: Plane, jobId: string, d: Dispatch)
    requires ApprovalsOk(p)
    ensures ApprovalsOk(QueueRetry(p, jobId, d).0) && Evolves(p, QueueRetry(p, jobId, d).0)
  {
    if jobId in p.jobs {
      RewriteThenScheduleKeeps(p, RetriedJob(p.jobs[jobId], d.now), "retry", Some(p.jobs[jobId].status), d);
    }
  }

  lemma QueueResumeKeeps(p: Plane, jobId: string, d: Dispatch)
    requires ApprovalsOk(p)
    ensures ApprovalsOk(QueueResume(p, jobId, d).0) && Evolves(p, QueueResume(p, jobId, d).0)
  {
    if jobId in p.jobs {
      RewriteThenScheduleKeeps(p, ResumedJob(p.jobs[jobId], d.now), "resume", Some(p.jobs[jobId].status), d);
    }
  }

  lemma {:induction false} DispatchPendingKeeps(p: Plane, listed: seq<string>, relays: seq<Relay>, now: int)
    requires ApprovalsOk(p) && |listed| == |relays|
    ensures var q := DispatchPending(p, listed, relays, now); ApprovalsOk(q) && Evolves(p, q)
  {
    if listed != [] {
      var n := |listed| - 1;
      DispatchPendingKeeps(p, listed[..n], relays[..n], now);
      var q := DispatchPending(p, listed[..n], relays[..n], now);
      ExecuteKeeps(q, listed[n], now, relays[n]);
      EvolvesTransitive(p, q, ExecuteJob(q, listed[n], now, relays[n]).0);
    }
  }

  lemma ProvideInputKeeps(p: Plane, jobId: string, approval: Option<string>, text: string, d: Dispatch)
    requires ApprovalsOk(p)
    ensures var q := ProvideInput(p, jobId, approval, text, d).0; ApprovalsOk(q) && Evolves(p, q)
  {
    var q := ProvideInput(p, jobId, approval, text, d).0;
    if jobId in p.jobs {
      match approval
      case Some(a) =>
        var accepted := ResolveApproval(p, a, true, Some(text), d.now).0;
        ResolveKeeps(p, a, true, Some(text), d.now);
        ScheduleKeeps(accepted, jobId, "approval_accept", None, d);
        EvolvesTransitive(p, accepted, ScheduleJob(accepted, jobId, "approval_accept", None, d).0);
      case None =>
        var stored := p.(jobs := p.jobs[jobId := InputJob(p.jobs[jobId], d.now)],
            jobEvents := p.jobEvents + [InputReceived(jobId)]);
        JobWriteKeeps(p, stored, [InputReceived(jobId)]);
        ScheduleKeeps(stored, jobId, "manual_input", None, d);
        EvolvesTransitive(p, stored, ScheduleJob(stored, jobId, "manual_input", None, d).0);
    }
  }

  /** Adding to the session log touches no approval. */
  lemma LogKeeps(p: Plane, q: Plane, r: Plane)
    requires ApprovalsOk(q) && Evolves(p, q) && r == q.(sessionEvents := r.sessionEvents)
    ensures ApprovalsOk(r) && Evolves(p, r)
  {
    assert forall a :: DecisionsOk(q, a) ==> DecisionsOk(r, a);
  }

  lemma AfterQueueKeeps(p: Plane, r: (Plane, QueueOutcome), action: Action, jobId: string, before: JobStatus)
    requires ApprovalsOk(r.0) && Evolves(p, r.0)
    ensures var q := AfterQueue(r, action, jobId, before).0; ApprovalsOk(q) && Evolves(p, q)
  {
    var q := AfterQueue(r, action, jobId, before).0;
    LogKeeps(p, r.0, q);
  }

  lemma AuditKeeps(p: Plane, q: Plane, action: Action, targetId: string, outcome: ActionOutcome, before: TargetState,
      after: TargetState)
    requires ApprovalsOk(q) && Evolves(p, q)
    ensures ApprovalsOk(WithAudit(q, action, targetId, outcome, before, after))
    ensures Evolves(p, WithAudit(q, action, targetId, outcome, before, after))
  {
    LogKeeps(p, q, WithAudit(q, action, targetId, outcome, before, after));
  }

  lemma OperatorRetryKeeps(p: Plane, jobId: string, d: Dispatch)
    requires ApprovalsOk(p)
    ensures ApprovalsOk(OperatorRetry(p, jobId, d).0) && Evolves(p, OperatorRetry(p, jobId, d).0)
  {
    if jobId in p.jobs {
      var before := p.jobs[jobId].status;
      AuditKeeps(p, p, Retry, jobId, Duplicate, JobState(before), JobState(before));
      AuditKeeps(p, p, Retry, jobId, Failed, JobState(before), JobState(before));
      QueueRetryKeeps(p, jobId, d);
      AfterQueueKeeps(p, QueueRetry(p, jobId, d), Retry, jobId, before);
    }
  }

  lemma OperatorResumeKeeps(p: Plane, jobId: string, d: Dispatch)
    requires ApprovalsOk(p)
    ensures ApprovalsOk(OperatorResume(p, jobId, d).0) && Evolves(p, OperatorResume(p, jobId, d).0)
  {
    if jobId in p.jobs {
      var before := p.jobs[jobId].status;
      AuditKeeps(p, p, Resume, jobId, Duplicate, JobState(before), JobState(before));
      AuditKeeps(p, p, Resume, jobId, Failed, JobState(before), JobState(before));
      QueueResumeKeeps(p, jobId, d);
      AfterQueueKeeps(p, QueueResume(p, jobId, d), Resume, jobId, before);
    }
  }

  lemma DirectCancelKeeps(p: Plane, jobId: string, now: int)
    requires ApprovalsOk(p) && jobId in p.jobs
    ensures var direct := p.(jobs := p.jobs[jobId := DirectlyCanceledJob(p.jobs[jobId], now)]);
            var q := WithAudit(direct, Cancel, jobId, Applied, JobState(p.jobs[jobId].status), JobState(JobCanceled));
            ApprovalsOk(q) && Evolves(p, q)
  {
    var direct := p.(jobs := p.jobs[jobId := DirectlyCanceledJob(p.jobs[jobId], now)]);
    JobWriteKeeps(p, direct, []);
    AuditKeeps(p, direct, Cancel, jobId, Applied, JobState(p.jobs[jobId].status), JobState(JobCanceled));
  }

  lemma InterruptCancelKeeps(p: Plane, jobId: string, i: Interruption)
    requires ApprovalsOk(p) && jobId in p.jobs
    ensures var q := InterruptJob(p, jobId, i).0;
            && ApprovalsOk(q) && Evolves(p, q) && jobId in q.jobs
            && ApprovalsOk(WithAudit(q, Cancel, jobId, Applied, JobState(p.jobs[jobId].status),
                JobState(q.jobs[jobId].status)))
            && Evolves(p, WithAudit(q, Cancel, jobId, Applied, JobState(p.jobs[jobId].status),
                JobState(q.jobs[jobId].status)))
  {
    InterruptKeeps(p, jobId, i);
    var q := InterruptJob(p, jobId, i).0;
    AuditKeeps(p, q, Cancel, jobId, Applied, JobState(p.jobs[jobId].status), JobState(q.jobs[jobId].status));
  }

  lemma OperatorCancelKeeps(p: Plane, jobId: string, i: Interruption)
    requires ApprovalsOk(p)
    ensures ApprovalsOk(OperatorCancel(p, jobId, i).0) && Evolves(p, OperatorCancel(p, jobId, i).0)
  {
    if jobId in p.jobs {
      var before := p.jobs[jobId].status;
      if before.JobCanceled? {
        AuditKeeps(p, p, Cancel, jobId, Duplicate, JobState(before), JobState(before));
      } else if before !in CANCELABLE {
        AuditKeeps(p, p, Cancel, jobId, Failed, JobState(before), JobState(before));
      } else {
        DirectCancelKeeps(p, jobId, i.now);
        InterruptCancelKeeps(p, jobId, i);
      }
    }
  }

  lemma OperatorDecideKeeps(p: Plane, approvalId: string, accept: bool, decision: Option<string>, now: int)
    requires ApprovalsOk(p)
    ensures var q := OperatorDecide(p, approvalId, accept, decision, now).0; ApprovalsOk(q) && Evolves(p, q)
  {
    ResolveKeeps(p, approvalId, accept, decision, now);
    if approvalId in p.approvals && p.approvals[approvalId].jobId in p.jobs {
      var action, before := if accept then Approve else Reject, p.approvals[approvalId].status;
      AuditKeeps(p, p, action, approvalId, Failed, ApprovalState(before), ApprovalState(before));
      var q := ResolveApproval(p, approvalId, accept, decision, now).0;
      AuditKeeps(p, q, action, approvalId, Applied, ApprovalState(before),
          ApprovalState(q.approvals[approvalId].status));
    }
  }

  lemma ServeKeeps(p: Plane, c: Command)
    requires ApprovalsOk(p)
    ensures ApprovalsOk(Serve(p, c)) && Evolves(p, Serve(p, c))
  {
    match c
    case DoOperatorRetry(jobId, d) => OperatorRetryKeeps(p, jobId, d);
    case DoOperatorResume(jobId, d) => OperatorResumeKeeps(p, jobId, d);
    case DoOperatorCancel(jobId, i) => OperatorCancelKeeps(p, jobId, i);
    case DoOperatorDecide(approvalId, accept, decision, now) =>
        OperatorDecideKeeps(p, approvalId, accept, decision, now);
    case _ => ServiceKeeps(p, c);
  }

  lemma ServiceKeeps(p: Plane, c: Command)
    requires ApprovalsOk(p)
    requires !c.DoOperatorRetry? && !c.DoOperatorResume? && !c.DoOperatorCancel? && !c.DoOperatorDecide?
    ensures ApprovalsOk(Serve(p, c)) && Evolves(p, Serve(p, c))
  {
    match c
    case DoCreateJob(_, _, _, _, _, _) => JobWriteKeeps(p, Serve(p, c), []);
    case DoCreateRequest(jobId, approvalId, now) =>
      if jobId in p.jobs && approvalId !in p.approvals {
        CreateRequestKeeps(p, p.jobs[jobId], approvalId, now);
      }
    case DoDecide(approvalId, accept, decision, now) => ResolveKeeps(p, approvalId, accept, decision, now);
    case DoSchedule(jobId, inputType, d) => ScheduleKeeps(p, jobId, inputType, None, d);
    case DoQueueRetry(jobId, d) => QueueRetryKeeps(p, jobId, d);
    case DoQueueResume(jobId, d) => QueueResumeKeeps(p, jobId, d);
    case DoDispatchPending(listed, relays, now) =>
      if |listed| == |relays| && IsListing(p, listed) { DispatchPendingKeeps(p, listed, relays, now); }
    case DoInput(jobId, approval, text, d) => ProvideInputKeeps(p, jobId, approval, text, d);
    case DoExecute(jobId, now, relay) => ExecuteKeeps(p, jobId, now, relay);
    case DoInterrupt(jobId, i) => InterruptKeeps(p, jobId, i);
    case DoCompact(jobId, i) => CompactKeeps(p, jobId, i);
    case DoPause(jobId, now) => if jobId in p.jobs { JobWriteKeeps(p, Serve(p, c), [LoopGuardPaused(jobId)]); }
  }

  lemma {:induction false} RunKeeps(p: Plane, run: seq<Command>)
    requires ApprovalsOk(p)
    ensures ApprovalsOk(ServeAll(p, run)) && Evolves(p, ServeAll(p, run))
    decreases |run|
  {
    if run != [] {
      ServeKeeps(p, run[0]);
      RunKeeps(Serve(p, run[0]), run[1..]);
      EvolvesTransitive(p, Serve(p, run[0]), ServeAll(p, run));
    }
  }

  /** In every run an approval leaves pending at most once and is fixed from then on, has a
      resolution time exactly when it is resolved, and has one accepted or declined job event
      when it is resolved and none before. */
  lemma ApprovalsResolveOnce(before: seq<Command>, later: seq<Command>, a: string)
    requires a in ServeAll(EMPTY, before).approvals
    ensures var p := ServeAll(EMPTY, before);
            var q := ServeAll(p, later);
            && a in q.approvals
            && (!p.approvals[a].status.ApprovalPending? ==> q.approvals[a] == p.approvals[a])
            && (p.approvals[a].resolvedAt.Some? <==> !p.approvals[a].status.ApprovalPending?)
            && Count(p.jobEvents, AcceptsOn(a)) + Count(p.jobEvents, DeclinesOn(a))
               == (if p.approvals[a].status.ApprovalPending? then 0 else 1)
            && (Count(p.jobEvents, AcceptsOn(a)) == 1 <==> p.approvals[a].status.Accepted?)
            && (Count(p.jobEvents, DeclinesOn(a)) == 1 <==> p.approvals[a].status.Declined?)
            && p.approvals[a].jobId in p.jobs
  {
    RunKeeps(EMPTY, before);
    RunKeeps(ServeAll(EMPTY, before), later);
    var p := ServeAll(EMPTY, before);
    assert DecisionsOk(p, a) && DecisionsOk(ServeAll(p, later), a);
    assert Resolved(p, a) ==> ServeAll(p, later).approvals[a] == p.approvals[a];
  }
}
