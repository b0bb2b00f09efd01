/** Jobs, approvals and their logs, and what each service call does to them. Every service
    call is one step; what the rules, the runtimes, the bridge and the clock answer is a
    parameter of the call. */
module ControlPlane {
  import opened Seqs
  import opened Jobs

  datatype Job = Job(
    id: string,
    sessionId: string,
    channelKey: string,
    agentId: string,
    status: JobStatus,
    turnStatus: Option<string>,   // last_known_turn_status
    runtimeId: Option<string>,
    threadId: Option<string>,
    turnId: Option<string>,
    errorCode: Option<string>,
    errorMessage: Option<string>,
    startedAt: Option<int>,
    completedAt: Option<int>,
    updatedAt: int)

  datatype ApprovalStatus = ApprovalPending | Accepted | Declined

  datatype Approval = Approval(
    id: string,
    jobId: string,
    agentId: string,
    status: ApprovalStatus,
    decision: Option<string>,
    resolvedAt: Option<int>,
    updatedAt: int)

  datatype JobEvent =
    | ApprovalRequested(jobId: string, approvalId: string)
    | ApprovalAccepted(jobId: string, approvalId: string)
    | ApprovalDeclined(jobId: string, approvalId: string)
    | TurnStarted(jobId: string)
    | OutputPublished(jobId: string)
    | LoopGuardPaused(jobId: string)
    | InputReceived(jobId: string)
    | TurnInterrupted(jobId: string)
    | ThreadCompacted(jobId: string)

  datatype Action = Retry | Resume | Cancel | Approve | Reject

  datatype ActionOutcome = Applied | Duplicate | Failed

  datatype TargetState = JobState(job: JobStatus) | ApprovalState(approval: ApprovalStatus)

  datatype SessionEvent =
    | Audit(action: Action, targetId: string, outcome: ActionOutcome, before: TargetState, after: TargetState)
    | ApprovalNotice(event: JobEvent)
    | GuardNotice(jobId: string)
    | RelayNotice(jobId: string)
    | InterruptNotice(jobId: string)
    | CompactNotice(jobId: string)

  datatype JobInput = JobInput(jobId: string, inputType: string, previous: Option<JobStatus>)

  datatype Plane = Plane(
    jobs: map<string, Job>,
    approvals: map<string, Approval>,
    jobEvents: seq<JobEvent>,
    sessionEvents: seq<SessionEvent>,
    inputs: seq<JobInput>)

  const RETRYABLE := {JobFailed, JobCanceled, PausedByLoopGuard}
  const RESUMABLE := {JobQueued, InputRequired, AuthRequired, PausedByLoopGuard}
  const CANCELABLE := {JobQueued, JobRunning, InputRequired, AuthRequired, PausedByLoopGuard}
  const TERMINAL := {JobCompleted, JobFailed}
  const RETRY_MARKER := "retry_requested"
  const RESUME_MARKER := "resumed"

  // ------------------------------------------------------------------ what comes from outside

  /** The verdict of the rule engine. */
  datatype Policy = Policy(dispatchAllowed: bool, channelKey: string, holdReason: Option<string>)

  /** A started turn; `publishFails` when storing its artifacts or its message raises. */
  datatype Turn = Turn(status: string, runtimeId: string, threadId: string, turnId: string, approvalId: string,
      publishFails: bool)

  /** What happens inside the relay engine before the job row is written. */
  datatype Relay = RelayRaises | GuardPauses | TurnBegins(turn: Turn)

  datatype Dispatch = Dispatch(now: int, policy: Option<Policy>, runtimeReady: bool, relay: Relay)

  /** The bridge answers or raises; a LookupError of its own looks like a missing thread. */
  datatype BridgeAnswer = BridgeAnswers | BridgeFails | BridgeLookupFails

  /** What an interruption or a compaction meets in the session, agent and thread stores and at
      the bridge. */
  datatype Interruption = Interruption(now: int, refsMissing: bool, mappedThread: Option<string>, bridge: BridgeAnswer)

  // ------------------------------------------------------------------ approval manager

  function PutJob(p: Plane, job: Job): Plane {
    p.(jobs := p.jobs[job.id := job])
  }

  function NewApproval(job: Job, approvalId: string, now: int): Approval {
    Approval(approvalId, job.id, job.agentId, ApprovalPending, None, None, now)
  }

  /** `create_request`, once the id is known to be free. */
  function CreateRequest(p: Plane, job: Job, approvalId: string, now: int): Plane {
    p.(approvals := p.approvals[approvalId := NewApproval(job, approvalId, now)],
       jobEvents := p.jobEvents + [ApprovalRequested(job.id, approvalId)],
       sessionEvents := p.sessionEvents + [ApprovalNotice(ApprovalRequested(job.id, approvalId))])
  }

  function AcceptedJob(job: Job, now: int): Job {
    job.(status := if job.status.InputRequired? then JobQueued else JobRunning,
         turnStatus := Some("accepted"), startedAt := Some(job.startedAt.GetOr(now)), updatedAt := now)
  }

  function DeclinedJob(job: Job, now: int): Job {
    job.(status := JobCanceled, turnStatus := Some("declined"), completedAt := Some(now), updatedAt := now)
  }

  datatype Decision = Decided | UnknownApproval | AlreadyResolved | JobGone

  /** `_resolve`: the approval is written before its job is looked up. */
  function ResolveApproval(p: Plane, approvalId: string, accept: bool, decision: Option<string>, now: int):
      (Plane, Decision) {
    if approvalId !in p.approvals then (p, UnknownApproval)
    else
      var approval := p.approvals[approvalId];
      if !approval.status.ApprovalPending? then (p, AlreadyResolved)
      else
        var resolved := approval.(status := if accept then Accepted else Declined, decision := decision,
                                  resolvedAt := Some(now), updatedAt := now);
        var written := p.(approvals := p.approvals[approvalId := resolved]);
        if approval.jobId !in p.jobs then (written, JobGone)
        else
          var job := p.jobs[approval.jobId];
          var event := if accept then ApprovalAccepted(approval.jobId, approvalId)
              else ApprovalDeclined(approval.jobId, approvalId);
          (written.(jobs := written.jobs[approval.jobId := if accept then AcceptedJob(job, now)
              else DeclinedJob(job, now)],
                    jobEvents := p.jobEvents + [event],
                    sessionEvents := p.sessionEvents + [ApprovalNotice(event)]), Decided)
  }

  // ------------------------------------------------------------------ loop guard and relay engine

  function PausedJob(job: Job, now: int): Job {
    job.(status := PausedByLoopGuard, turnStatus := Some("paused_by_loop_guard"), completedAt := Some(now),
        updatedAt := now)
  }

  function PauseJob(p: Plane, jobId: string, now: int): Plane
    requires jobId in p.jobs
  {
    p.(jobs := p.jobs[jobId := PausedJob(p.jobs[jobId], now)],
       jobEvents := p.jobEvents + [LoopGuardPaused(jobId)],
       sessionEvents := p.sessionEvents + [GuardNotice(jobId)])
  }

  function StatusOfTurn(turnStatus: string): JobStatus {
    if turnStatus == "completed" then JobCompleted
    else if turnStatus == "input_required" then InputRequired
    else if turnStatus == "auth_required" then AuthRequired
    else JobRunning
  }

  function TurnJob(job: Job, t: Turn, now: int): Job {
    job.(runtimeId := Some(job.runtimeId.GetOr(t.runtimeId)), threadId := Some(t.threadId), turnId := Some(t.turnId),
         turnStatus := Some(t.status), status := StatusOfTurn(t.status), startedAt := Some(job.startedAt.GetOr(now)),
         completedAt := if t.status == "completed" then Some(now) else job.completedAt, updatedAt := now)
  }

  datatype RelayOutcome = RelayDone | RelayError | RelayLookupError

  /** `execute_job` */
  function ExecuteJob(p: Plane, jobId: string, now: int, relay: Relay): (Plane, RelayOutcome) {
    if jobId !in p.jobs then (p, RelayLookupError)
    else match relay
      case RelayRaises => (p, RelayError)
      case GuardPauses => (PauseJob(p, jobId, now), RelayDone)
      case TurnBegins(t) =>
        var job := TurnJob(p.jobs[jobId], t, now);
        var started := p.(jobs := p.jobs[jobId := job], jobEvents := p.jobEvents + [TurnStarted(jobId)]);
        var asks := job.status.InputRequired? || job.status.AuthRequired?;
        if asks && t.approvalId in p.approvals then (started, RelayError)
        else
          var asked := if asks then CreateRequest(started, job, t.approvalId, now) else started;
          if t.publishFails then (asked, RelayError)
          else
            (asked.(jobEvents := asked.jobEvents + [OutputPublished(jobId)],
                    sessionEvents := asked.sessionEvents + [RelayNotice(jobId)]), RelayDone)
  }

  /** How an exception of the bridge leaves the relay engine. */
  function FromBridge(bridge: BridgeAnswer): RelayOutcome {
    if bridge.BridgeLookupFails? then RelayLookupError else RelayError
  }

  /** `interrupt_job` */
  function InterruptJob(p: Plane, jobId: string, i: Interruption): (Plane, RelayOutcome) {
    if jobId !in p.jobs || i.refsMissing then (p, RelayLookupError)
    else
      var job := p.jobs[jobId];
      if job.status in {JobCanceled, JobCompleted, JobFailed} || job.turnStatus == Some("interrupted") then
          (p, RelayDone)
      else if job.threadId.None? && i.mappedThread.None? then (p, RelayLookupError)
      else if !i.bridge.BridgeAnswers? then (p, FromBridge(i.bridge))
      else
        (p.(jobs := p.jobs[jobId := job.(status := JobCanceled, turnStatus := Some("interrupted"),
                                         completedAt := Some(i.now), updatedAt := i.now)],
            jobEvents := p.jobEvents + [TurnInterrupted(jobId)],
            sessionEvents := p.sessionEvents + [InterruptNotice(jobId)]), RelayDone)
  }

  /** `compact_job`: only the last turn status changes. */
  function CompactJob(p: Plane, jobId: string, i: Interruption): (Plane, RelayOutcome) {
    if jobId !in p.jobs || i.refsMissing then (p, RelayLookupError)
    else
      var job := p.jobs[jobId];
      if job.threadId.None? && i.mappedThread.None? then (p, RelayLookupError)
      else if !i.bridge.BridgeAnswers? then (p, FromBridge(i.bridge))
      else
        (p.(jobs := p.jobs[jobId := job.(turnStatus := Some("compacted"), updatedAt := i.now)],
            jobEvents := p.jobEvents + [ThreadCompacted(jobId)],
            sessionEvents := p.sessionEvents + [CompactNotice(jobId)]), RelayDone)
  }

  // ------------------------------------------------------------------ offline queue

  /** StaysQueued is `queued=True`, whether offline, held or duplicate. */
  datatype QueueOutcome = StaysQueued | Relayed | QueueRelayError | UnknownJob | InvalidState

  function ChannelledJob(job: Job, policy: Option<Policy>): Job {
    match policy
    case None => job
    case Some(rules) => job.(channelKey := rules.channelKey)
  }

  function HeldJob(job: Job, policy: Policy, now: int): Job {
    job.(status := InputRequired, turnStatus := Some(policy.holdReason.GetOr("rule_review_required")), updatedAt := now)
  }

  predicate DispatchAllowed(policy: Option<Policy>) {
    policy.Some? ==> policy.value.dispatchAllowed
  }

  function FromRelay(r: (Plane, RelayOutcome)): (Plane, QueueOutcome) {
    (r.0, match r.1 case RelayDone => Relayed case RelayError => QueueRelayError case RelayLookupError => UnknownJob)
  }

  /** `schedule_job` */
  function ScheduleJob(p: Plane, jobId: string, inputType: string, previous: Option<JobStatus>, d: Dispatch):
      (Plane, QueueOutcome) {
    if jobId !in p.jobs then (p, UnknownJob)
    else
      var recorded := p.(inputs := p.inputs + [JobInput(jobId, inputType, previous)]);
      var job := ChannelledJob(p.jobs[jobId], d.policy);
      var channelled := recorded.(jobs := recorded.jobs[jobId := job]);
      if !DispatchAllowed(d.policy) then
        (channelled.(jobs := channelled.jobs[jobId := HeldJob(job, d.policy.value, d.now)]), StaysQueued)
      else if !d.runtimeReady then (channelled, StaysQueued)
      else FromRelay(ExecuteJob(channelled, jobId, d.now, d.relay))
  }

  predicate IsDuplicateControlAction(job: Job, marker: string) {
    job.status.JobQueued? && job.turnStatus == Some(marker)
  }

  function RetriedJob(job: Job, now: int): Job {
    job.(status := JobQueued, turnStatus := Some(RETRY_MARKER), errorCode := None, errorMessage := None,
         completedAt := None, updatedAt := now)
  }

  function ResumedJob(job: Job, now: int): Job {
    job.(status := JobQueued, turnStatus := Some(RESUME_MARKER), completedAt := None, updatedAt := now)
  }

  /** `OfflineQueueService.retry_job` */
  function QueueRetry(p: Plane, jobId: string, d: Dispatch): (Plane, QueueOutcome) {
    if jobId !in p.jobs then (p, UnknownJob)
    else
      var job := p.jobs[jobId];
      if IsDuplicateControlAction(job, RETRY_MARKER) then (p, StaysQueued)
      else if job.status !in RETRYABLE then (p, InvalidState)
      else ScheduleJob(p.(jobs := p.jobs[jobId := RetriedJob(job, d.now)]), jobId, "retry", Some(job.status), d)
  }

  /** `OfflineQueueService.resume_job` */
  function QueueResume(p: Plane, jobId: string, d: Dispatch): (Plane, QueueOutcome) {
    if jobId !in p.jobs then (p, UnknownJob)
    else
      var job := p.jobs[jobId];
      if IsDuplicateControlAction(job, RESUME_MARKER) then (p, StaysQueued)
      else if job.status !in RESUMABLE then (p, InvalidState)
      else ScheduleJob(p.(jobs := p.jobs[jobId := ResumedJob(job, d.now)]), jobId, "resume", Some(job.status), d)
  }

  /** `dispatch_pending_for_agent`, for the queued jobs that the repository listed: a job
      that raises is skipped. */
  function DispatchPending(p: Plane, listed: seq<string>, relays: seq<Relay>, now: int): Plane
    requires |listed| == |relays|
  {
    if listed == [] then p
    else
      var n := |listed| - 1;
      ExecuteJob(DispatchPending(p, listed[..n], relays[..n], now), listed[n], now, relays[n]).0
  }

  // ------------------------------------------------------------------ job input over the API

  datatype InputOutcome = InputStored(queue: Option<QueueOutcome>) | InputJobMissing | InputApproval(decision: Decision)

  function AwaitsInput(status: JobStatus): bool {
    status.InputRequired? || status.AuthRequired?
  }

  function InputJob(job: Job, now: int): Job {
    job.(status := if AwaitsInput(job.status) then JobQueued else job.status,
         turnStatus := Some("input_received"), updatedAt := now)
  }

  /** `provide_job_input`: the approval named in the request need not be one of this job. */
  function ProvideInput(p: Plane, jobId: string, approvalId: Option<string>, text: string, d: Dispatch):
      (Plane, InputOutcome) {
    if jobId !in p.jobs then (p, InputJobMissing)
    else match approvalId
      case Some(a) =>
        var (accepted, decision) := ResolveApproval(p, a, true, Some(text), d.now);
        if !decision.Decided? then (accepted, InputApproval(decision))
        else
          var (scheduled, outcome) := ScheduleJob(accepted, jobId, "approval_accept", None, d);
          (scheduled, InputStored(Some(outcome)))
      case None =>
        var job := p.jobs[jobId];
        var stored := p.(jobs := p.jobs[jobId := InputJob(job, d.now)],
            jobEvents := p.jobEvents + [InputReceived(jobId)]);
        if AwaitsInput(job.status) then
          var (scheduled, outcome) := ScheduleJob(stored, jobId, "manual_input", None, d);
          (scheduled, InputStored(Some(outcome)))
        else (stored, InputStored(None))
  }

  // ------------------------------------------------------------------ operator actions

  /** NotFoundRaised and ConflictRaised are the service's own errors; RelayErrorRaised is an
      exception of the relay passing through. */
  datatype ActionResult = ActionApplied | ActionDuplicate | ConflictRaised | NotFoundRaised | RelayErrorRaised

  function WithAudit(p: Plane, action: Action, targetId: string, outcome: ActionOutcome, before: TargetState,
      after: TargetState): Plane {
    p.(sessionEvents := p.sessionEvents + [Audit(action, targetId, outcome, before, after)])
  }

  function OperatorRetry(p: Plane, jobId: string, d: Dispatch): (Plane, ActionResult) {
    if jobId !in p.jobs then (p, NotFoundRaised)
    else
      var before := p.jobs[jobId].status;
      if IsDuplicateControlAction(p.jobs[jobId], RETRY_MARKER) then
        (WithAudit(p, Retry, jobId, Duplicate, JobState(before), JobState(before)), ActionDuplicate)
      else if before !in {JobFailed, JobCanceled, PausedByLoopGuard} then
        (WithAudit(p, Retry, jobId, Failed, JobState(before), JobState(before)), ConflictRaised)
      else
        AfterQueue(QueueRetry(p, jobId, d), Retry, jobId, before)
  }

  function OperatorResume(p: Plane, jobId: string, d: Dispatch): (Plane, ActionResult) {
    if jobId !in p.jobs then (p, NotFoundRaised)
    else
      var before := p.jobs[jobId].status;
      if IsDuplicateControlAction(p.jobs[jobId], RESUME_MARKER) then
        (WithAudit(p, Resume, jobId, Duplicate, JobState(before), JobState(before)), ActionDuplicate)
      else if before !in {JobQueued, InputRequired, AuthRequired, PausedByLoopGuard} then
        (WithAudit(p, Resume, jobId, Failed, JobState(before), JobState(before)), ConflictRaised)
      else
        AfterQueue(QueueResume(p, jobId, d), Resume, jobId, before)
  }

  /** The queue's ValueError, like any exception, would pass through without an audit. */
  function AfterQueue(r: (Plane, QueueOutcome), action: Action, jobId: string, before: JobStatus):
      (Plane, ActionResult) {
    var (q, outcome) := r;
    if !outcome.StaysQueued? && !outcome.Relayed? then (q, RelayErrorRaised)
    else if jobId !in q.jobs then (q, NotFoundRaised)
    else (WithAudit(q, action, jobId, Applied, JobState(before), JobState(q.jobs[jobId].status)), ActionApplied)
  }

  function DirectlyCanceledJob(job: Job, now: int): Job {
    job.(status := JobCanceled, turnStatus := Some("operator_canceled"), completedAt := Some(now), updatedAt := now)
  }

  function OperatorCancel(p: Plane, jobId: string, i: Interruption): (Plane, ActionResult) {
    if jobId !in p.jobs then (p, NotFoundRaised)
    else
      var job := p.jobs[jobId];
      var before := job.status;
      if before.JobCanceled? then
        (WithAudit(p, Cancel, jobId, Duplicate, JobState(before), JobState(before)), ActionDuplicate)
      else if before in TERMINAL || before !in CANCELABLE then
        (WithAudit(p, Cancel, jobId, Failed, JobState(before), JobState(before)), ConflictRaised)
      else
        var direct := p.(jobs := p.jobs[jobId := DirectlyCanceledJob(job, i.now)]);
        if !before.JobRunning? then
          (WithAudit(direct, Cancel, jobId, Applied, JobState(before), JobState(JobCanceled)), ActionApplied)
        else
          var (q, outcome) := InterruptJob(p, jobId, i);
          match outcome
          case RelayDone =>
            if jobId !in q.jobs then (q, NotFoundRaised)
            else (WithAudit(q, Cancel, jobId, Applied, JobState(before), JobState(q.jobs[jobId].status)), ActionApplied)
          case RelayLookupError =>
            (WithAudit(direct, Cancel, jobId, Applied, JobState(before), JobState(JobCanceled)), ActionApplied)
          case RelayError => (q, RelayErrorRaised)
  }

  /** `approve_approval` and `reject_approval` */
  function OperatorDecide(p: Plane, approvalId: string, accept: bool, decision: Option<string>, now: int):
      (Plane, ActionResult) {
    if approvalId !in p.approvals || p.approvals[approvalId].jobId !in p.jobs then (p, NotFoundRaised)
    else
      var action := if accept then Approve else Reject;
      var before := p.approvals[approvalId].status;
      if !before.ApprovalPending? then
        (WithAudit(p, action, approvalId, Failed, ApprovalState(before), ApprovalState(before)), ConflictRaised)
      else
        var q := ResolveApproval(p, approvalId, accept, decision, now).0;
        if approvalId !in q.approvals then (q, NotFoundRaised)
        else
          (WithAudit(q, action, approvalId, Applied, ApprovalState(before),
              ApprovalState(q.approvals[approvalId].status)), ActionApplied)
  }

  // ------------------------------------------------------------------ job creation

  function NewJob(id: string, sessionId: string, channelKey: string, agentId: string, runtimeId: Option<string>,
      now: int): Job {
    Job(id, sessionId, channelKey, agentId, JobQueued, None, runtimeId, None, None, None, None, None, None, now)
  }

  /** The PRIMARY KEY refuses an id that is taken. */
  function CreateJob(p: Plane, job: Job): Plane {
    if job.id in p.jobs then p else PutJob(p, job)
  }
}
