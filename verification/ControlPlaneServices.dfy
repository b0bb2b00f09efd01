/** The services themselves, as they read and write the shared tables step by step. */
module ControlPlaneServices {
  import opened Seqs
  import opened Jobs
  import opened ControlPlane

  /** The repositories behind the services. */
  class Tables {
    var jobs: map<string, Job>
    var approvals: map<string, Approval>
    var jobEvents: seq<JobEvent>
    var sessionEvents: seq<SessionEvent>
    var inputs: seq<JobInput>

    ghost function State(): Plane
      reads this
    {
      Plane(jobs, approvals, jobEvents, sessionEvents, inputs)
    }

    constructor ()
      ensures State() == Plane(map[], map[], [], [], [])
    {
      jobs, approvals, jobEvents, sessionEvents, inputs := map[], map[], [], [], [];
    }
  }

  class ApprovalManager {
    const tables: Tables

    constructor (tables: Tables)
      ensures this.tables == tables
    {
      this.tables := tables;
    }

    method CreateRequestFor(job: Job, approvalId: string, now: int)
      modifies tables
      ensures tables.State() == CreateRequest(old(tables.State()), job, approvalId, now)
      ensures approvalId in tables.approvals && tables.approvals[approvalId].status.ApprovalPending?
      ensures tables.jobs == old(tables.jobs)
    {
      tables.approvals := tables.approvals[approvalId := NewApproval(job, approvalId, now)];
      tables.jobEvents := tables.jobEvents + [ApprovalRequested(job.id, approvalId)];
      tables.sessionEvents := tables.sessionEvents + [ApprovalNotice(ApprovalRequested(job.id, approvalId))];
    }

    method Resolve(approvalId: string, accept: bool, decision: Option<string>, now: int) returns (outcome: Decision)
      modifies tables
      ensures (tables.State(), outcome) == ResolveApproval(old(tables.State()), approvalId, accept, decision, now)
      ensures outcome.UnknownApproval? || outcome.AlreadyResolved? ==> tables.State() == old(tables.State())
      ensures outcome.Decided? || outcome.JobGone? ==>
        && approvalId in old(tables.approvals) && old(tables.approvals)[approvalId].status.ApprovalPending?
        && !tables.approvals[approvalId].status.ApprovalPending? && tables.approvals[approvalId].resolvedAt == Some(now)
    {
      if approvalId !in tables.approvals {
        return UnknownApproval;
      }
      var approval := tables.approvals[approvalId];
      if !approval.status.ApprovalPending? {
        return AlreadyResolved;
      }
      var resolved := approval.(status := if accept then Accepted else Declined, decision := decision,
                                resolvedAt := Some(now), updatedAt := now);
      tables.approvals := tables.approvals[approvalId := resolved];
      if approval.jobId !in tables.jobs {
        return JobGone;
      }
      UpdateJobForDecision(approval.jobId, accept, now);
      assert tables.jobs == old(tables.jobs)[approval.jobId :=
        if accept then AcceptedJob(old(tables.jobs)[approval.jobId], now)
            else DeclinedJob(old(tables.jobs)[approval.jobId], now)];
      var event := if accept then ApprovalAccepted(approval.jobId, approvalId)
          else ApprovalDeclined(approval.jobId, approvalId);
      tables.jobEvents := tables.jobEvents + [event];
      tables.sessionEvents := tables.sessionEvents + [ApprovalNotice(event)];
      return Decided;
    }

    method UpdateJobForDecision(jobId: string, accept: bool, now: int)
      requires jobId in tables.jobs
      modifies tables`jobs
      ensures tables.jobs.Keys == old(tables.jobs).Keys
      ensures forall id :: id in tables.jobs && id != jobId ==> tables.jobs[id] == old(tables.jobs)[id]
      ensures accept ==>
        && tables.jobs[jobId].status == (if old(tables.jobs)[jobId].status.InputRequired? then JobQueued
            else JobRunning)
        && tables.jobs[jobId].completedAt == old(tables.jobs)[jobId].completedAt
        && tables.jobs[jobId].startedAt == Some(old(tables.jobs)[jobId].startedAt.GetOr(now))
        && tables.jobs[jobId].turnStatus == Some("accepted")
      ensures !accept ==>
        && tables.jobs[jobId].status.JobCanceled? && tables.jobs[jobId].completedAt == Some(now)
        && tables.jobs[jobId].startedAt == old(tables.jobs)[jobId].startedAt
        && tables.jobs[jobId].turnStatus == Some("declined")
      ensures var job := tables.jobs[jobId];
              job == old(tables.jobs)[jobId].(status := job.status, turnStatus := job.turnStatus,
                  startedAt := job.startedAt,
                                              completedAt := job.completedAt, updatedAt := now)
    {
      var job := tables.jobs[jobId];
      if accept {
        tables.jobs := tables.jobs[jobId := AcceptedJob(job, now)];
      } else {
        tables.jobs := tables.jobs[jobId := DeclinedJob(job, now)];
      }
    }
  }

  class LoopGuardService {
    const tables: Tables

    constructor (tables: Tables)
      ensures this.tables == tables
    {
      this.tables := tables;
    }

    method Pause(jobId: string, now: int)
      requires jobId in tables.jobs
      modifies tables
      ensures tables.State() == PauseJob(old(tables.State()), jobId, now)
      ensures tables.jobs[jobId].status.PausedByLoopGuard? && tables.jobs[jobId].completedAt == Some(now)
      ensures forall id :: id in old(tables.jobs) && id != jobId ==> tables.jobs[id] == old(tables.jobs)[id]
    {
      tables.jobs := tables.jobs[jobId := PausedJob(tables.jobs[jobId], now)];
      tables.jobEvents := tables.jobEvents + [LoopGuardPaused(jobId)];
      tables.sessionEvents := tables.sessionEvents + [GuardNotice(jobId)];
    }
  }

  class RelayEngine {
    const tables: Tables
    const guard: LoopGuardService
    const approvals: ApprovalManager

    constructor (tables: Tables, guard: LoopGuardService, approvals: ApprovalManager)
      ensures this.tables == tables && this.guard == guard && this.approvals == approvals
    {
      this.tables, this.guard, this.approvals := tables, guard, approvals;
    }

    predicate Wired() {
      guard.tables == tables && approvals.tables == tables
    }

    method Execute(jobId: string, now: int, relay: Relay) returns (outcome: RelayOutcome)
      requires Wired()
      modifies tables
      ensures (tables.State(), outcome) == ExecuteJob(old(tables.State()), jobId, now, relay)
      ensures tables.jobs.Keys == old(tables.jobs).Keys && tables.inputs == old(tables.inputs)
      ensures forall id :: id in old(tables.jobs) && id != jobId ==> tables.jobs[id] == old(tables.jobs)[id]
    {
      if jobId !in tables.jobs {
        return RelayLookupError;
      }
      match relay {
        case RelayRaises => return RelayError;
        case GuardPauses =>
          guard.Pause(jobId, now);
          return RelayDone;
        case TurnBegins(turn) =>
          var job := TurnJob(tables.jobs[jobId], turn, now);
          tables.jobs := tables.jobs[jobId := job];
          tables.jobEvents := tables.jobEvents + [TurnStarted(jobId)];
          if job.status.InputRequired? || job.status.AuthRequired? {
            if turn.approvalId in tables.approvals {
              return RelayError;
            }
            approvals.CreateRequestFor(job, turn.approvalId, now);
          }
          if turn.publishFails {
            return RelayError;
          }
          tables.jobEvents := tables.jobEvents + [OutputPublished(jobId)];
          tables.sessionEvents := tables.sessionEvents + [RelayNotice(jobId)];
          return RelayDone;
      }
    }

    method Interrupt(jobId: string, i: Interruption) returns (outcome: RelayOutcome)
      modifies tables
      ensures (tables.State(), outcome) == InterruptJob(old(tables.State()), jobId, i)
      ensures !outcome.RelayDone? ==> tables.State() == old(tables.State())
      ensures tables.State() != old(tables.State()) ==>
        jobId in tables.jobs && tables.jobs[jobId].status.JobCanceled? && tables.jobs[jobId].completedAt == Some(i.now)
    {
      if jobId !in tables.jobs || i.refsMissing {
        return RelayLookupError;
      }
      var job := tables.jobs[jobId];
      if job.status in {JobCanceled, JobCompleted, JobFailed} || job.turnStatus == Some("interrupted") {
        return RelayDone;
      }
      if job.threadId.None? && i.mappedThread.None? {
        return RelayLookupError;
      }
      if !i.bridge.BridgeAnswers? {
        return FromBridge(i.bridge);
      }
      tables.jobs := tables.jobs[jobId := job.(status := JobCanceled, turnStatus := Some("interrupted"),
                                               completedAt := Some(i.now), updatedAt := i.now)];
      tables.jobEvents := tables.jobEvents + [TurnInterrupted(jobId)];
      tables.sessionEvents := tables.sessionEvents + [InterruptNotice(jobId)];
      return RelayDone;
    }

    method Compact(jobId: string, i: Interruption) returns (outcome: RelayOutcome)
      modifies tables
      ensures (tables.State(), outcome) == CompactJob(old(tables.State()), jobId, i)
      ensures !outcome.RelayDone? ==> tables.State() == old(tables.State())
      ensures outcome.RelayDone? ==>
        && jobId in old(tables.jobs) && tables.jobs[jobId].status == old(tables.jobs)[jobId].status
        && tables.jobs[jobId].turnStatus == Some("compacted")
    {
      if jobId !in tables.jobs || i.refsMissing {
        return RelayLookupError;
      }
      var job := tables.jobs[jobId];
      if job.threadId.None? && i.mappedThread.None? {
        return RelayLookupError;
      }
      if !i.bridge.BridgeAnswers? {
        return FromBridge(i.bridge);
      }
      tables.jobs := tables.jobs[jobId := job.(turnStatus := Some("compacted"), updatedAt := i.now)];
      tables.jobEvents := tables.jobEvents + [ThreadCompacted(jobId)];
      tables.sessionEvents := tables.sessionEvents + [CompactNotice(jobId)];
      return RelayDone;
    }
  }

  class OfflineQueueService {
    const tables: Tables
    const relayEngine: RelayEngine

    constructor (tables: Tables, relayEngine: RelayEngine)
      ensures this.tables == tables && this.relayEngine == relayEngine
    {
      this.tables, this.relayEngine := tables, relayEngine;
    }

    predicate Wired() {
      relayEngine.tables == tables && relayEngine.Wired()
    }

    method Schedule(jobId: string, inputType: string, previous: Option<JobStatus>, d: Dispatch)
        returns (outcome: QueueOutcome)
      requires Wired()
      modifies tables
      ensures (tables.State(), outcome) == ScheduleJob(old(tables.State()), jobId, inputType, previous, d)
      ensures tables.jobs.Keys == old(tables.jobs).Keys
      ensures forall id :: id in old(tables.jobs) && id != jobId ==> tables.jobs[id] == old(tables.jobs)[id]
      ensures jobId in old(tables.jobs) ==> tables.inputs == old(tables.inputs) + [JobInput(jobId, inputType, previous)]
    {
      if jobId !in tables.jobs {
        return UnknownJob;
      }
      var job := tables.jobs[jobId];
      tables.inputs := tables.inputs + [JobInput(jobId, inputType, previous)];
      var allowed := true;
      if d.policy.Some? {
        allowed := d.policy.value.dispatchAllowed;
        if d.policy.value.channelKey != job.channelKey {
          job := job.(channelKey := d.policy.value.channelKey);
          tables.jobs := tables.jobs[jobId := job];
        }
      }
      assert tables.jobs == old(tables.jobs)[jobId := ChannelledJob(old(tables.jobs)[jobId], d.policy)];
      if !allowed {
        tables.jobs := tables.jobs[jobId := HeldJob(job, d.policy.value, d.now)];
        return StaysQueued;
      }
      if !d.runtimeReady {
        return StaysQueued;
      }
      var done := relayEngine.Execute(jobId, d.now, d.relay);
      outcome := match done case RelayDone => Relayed case RelayError => QueueRelayError
          case RelayLookupError => UnknownJob;
    }

    method RetryJob(jobId: string, d: Dispatch) returns (outcome: QueueOutcome)
      requires Wired()
      modifies tables
      ensures (tables.State(), outcome) == QueueRetry(old(tables.State()), jobId, d)
      ensures outcome.InvalidState? ==> tables.State() == old(tables.State())
    {
      if jobId !in tables.jobs {
        return UnknownJob;
      }
      var job := tables.jobs[jobId];
      if IsDuplicateControlAction(job, RETRY_MARKER) {
        return StaysQueued;
      }
      if job.status !in RETRYABLE {
        return InvalidState;
      }
      tables.jobs := tables.jobs[jobId := RetriedJob(job, d.now)];
      outcome := Schedule(jobId, "retry", Some(job.status), d);
    }

    method ResumeJob(jobId: string, d: Dispatch) returns (outcome: QueueOutcome)
      requires Wired()
      modifies tables
      ensures (tables.State(), outcome) == QueueResume(old(tables.State()), jobId, d)
      ensures outcome.InvalidState? ==> tables.State() == old(tables.State())
    {
      if jobId !in tables.jobs {
        return UnknownJob;
      }
      var job := tables.jobs[jobId];
      if IsDuplicateControlAction(job, RESUME_MARKER) {
        return StaysQueued;
      }
      if job.status !in RESUMABLE {
        return InvalidState;
      }
      tables.jobs := tables.jobs[jobId := ResumedJob(job, d.now)];
      outcome := Schedule(jobId, "resume", Some(job.status), d);
    }

    /** Each listed job is relayed in turn; an exception skips to the next. */
    method DispatchPendingJobs(listed: seq<string>, relays: seq<Relay>, now: int)
      requires Wired() && |listed| == |relays|
      modifies tables
      ensures tables.State() == DispatchPending(old(tables.State()), listed, relays, now)
    {
      for n := 0 to |listed|
        invariant tables.State() == DispatchPending(old(tables.State()), listed[..n], relays[..n], now)
      {
        assert listed[..n + 1][..n] == listed[..n] && relays[..n + 1][..n] == relays[..n];
        var _ := relayEngine.Execute(listed[n], now, relays[n]);
      }
      assert listed[..|listed|] == listed && relays[..|listed|] == relays;
    }
  }

  class JobInputApi {
    const tables: Tables
    const queue: OfflineQueueService
    const approvals: ApprovalManager

    constructor (tables: Tables, queue: OfflineQueueService, approvals: ApprovalManager)
      ensures this.tables == tables && this.queue == queue && this.approvals == approvals
    {
      this.tables, this.queue, this.approvals := tables, queue, approvals;
    }

    predicate Wired() {
      queue.tables == tables && approvals.tables == tables && queue.Wired()
    }

    method ProvideJobInput(jobId: string, approvalId: Option<string>, text: string, d: Dispatch)
        returns (outcome: InputOutcome)
      requires Wired()
      modifies tables
      ensures (tables.State(), outcome) == ProvideInput(old(tables.State()), jobId, approvalId, text, d)
      ensures outcome.InputJobMissing? <==> jobId !in old(tables.jobs)
      ensures outcome.InputJobMissing? ==> tables.State() == old(tables.State())
    {
      if jobId !in tables.jobs {
        return InputJobMissing;
      }
      var job := tables.jobs[jobId];
      if approvalId.Some? {
        var decision := approvals.Resolve(approvalId.value, true, Some(text), d.now);
        if !decision.Decided? {
          return InputApproval(decision);
        }
        var queued := queue.Schedule(jobId, "approval_accept", None, d);
        return InputStored(Some(queued));
      }
      tables.jobs := tables.jobs[jobId := InputJob(job, d.now)];
      tables.jobEvents := tables.jobEvents + [InputReceived(jobId)];
      if AwaitsInput(job.status) {
        var queued := queue.Schedule(jobId, "manual_input", None, d);
        return InputStored(Some(queued));
      }
      return InputStored(None);
    }
  }

  class OperatorActionService {
    const tables: Tables
    const approvals: ApprovalManager
    const queue: OfflineQueueService
    const relayEngine: RelayEngine

    constructor (tables: Tables, approvals: ApprovalManager, queue: OfflineQueueService, relayEngine: RelayEngine)
      ensures this.tables == tables && this.approvals == approvals && this.queue == queue
          && this.relayEngine == relayEngine
    {
      this.tables, this.approvals, this.queue, this.relayEngine := tables, approvals, queue, relayEngine;
    }

    predicate Wired() {
      approvals.tables == tables && queue.tables == tables && relayEngine.tables == tables && queue.Wired()
          && relayEngine.Wired()
    }

    method RecordAudit(action: Action, targetId: string, outcome: ActionOutcome, before: TargetState,
        after: TargetState)
      modifies tables`sessionEvents
      ensures tables.State() == WithAudit(old(tables.State()), action, targetId, outcome, before, after)
    {
      tables.sessionEvents := tables.sessionEvents + [Audit(action, targetId, outcome, before, after)];
    }

    method RetryJob(jobId: string, d: Dispatch) returns (result: ActionResult)
      requires Wired()
      modifies tables
      ensures (tables.State(), result) == OperatorRetry(old(tables.State()), jobId, d)
      ensures result.ActionDuplicate? || result.ConflictRaised? ==>
        && tables.jobs == old(tables.jobs) && tables.approvals == old(tables.approvals)
        && tables.inputs == old(tables.inputs)
      ensures result.ActionApplied? ==>
        tables.sessionEvents != [] && tables.sessionEvents[|tables.sessionEvents| - 1].Audit?
    {
      if jobId !in tables.jobs {
        return NotFoundRaised;
      }
      var job := tables.jobs[jobId];
      if IsDuplicateControlAction(job, RETRY_MARKER) {
        RecordAudit(Retry, jobId, Duplicate, JobState(job.status), JobState(job.status));
        return ActionDuplicate;
      }
      if job.status !in {JobFailed, JobCanceled, PausedByLoopGuard} {
        RecordAudit(Retry, jobId, Failed, JobState(job.status), JobState(job.status));
        return ConflictRaised;
      }
      var outcome := queue.RetryJob(jobId, d);
      result := FinishQueued(Retry, jobId, job.status, outcome);
    }

    method ResumeJob(jobId: string, d: Dispatch) returns (result: ActionResult)
      requires Wired()
      modifies tables
      ensures (tables.State(), result) == OperatorResume(old(tables.State()), jobId, d)
      ensures result.ActionDuplicate? || result.ConflictRaised? ==>
        && tables.jobs == old(tables.jobs) && tables.approvals == old(tables.approvals)
        && tables.inputs == old(tables.inputs)
      ensures result.ActionApplied? ==>
        tables.sessionEvents != [] && tables.sessionEvents[|tables.sessionEvents| - 1].Audit?
    {
      if jobId !in tables.jobs {
        return NotFoundRaised;
      }
      var job := tables.jobs[jobId];
      if IsDuplicateControlAction(job, RESUME_MARKER) {
        RecordAudit(Resume, jobId, Duplicate, JobState(job.status), JobState(job.status));
        return ActionDuplicate;
      }
      if job.status !in {JobQueued, InputRequired, AuthRequired, PausedByLoopGuard} {
        RecordAudit(Resume, jobId, Failed, JobState(job.status), JobState(job.status));
        return ConflictRaised;
      }
      var outcome := queue.ResumeJob(jobId, d);
      result := FinishQueued(Resume, jobId, job.status, outcome);
    }

    /** Reloads the job and records the applied action, unless the queue raised. */
    method FinishQueued(action: Action, jobId: string, before: JobStatus, outcome: QueueOutcome)
        returns (result: ActionResult)
      modifies tables`sessionEvents
      ensures (tables.State(), result) == AfterQueue((old(tables.State()), outcome), action, jobId, before)
    {
      if !outcome.StaysQueued? && !outcome.Relayed? {
        return RelayErrorRaised;
      }
      if jobId !in tables.jobs {
        return NotFoundRaised;
      }
      RecordAudit(action, jobId, Applied, JobState(before), JobState(tables.jobs[jobId].status));
      return ActionApplied;
    }

    method CancelDirectly(jobId: string, now: int)
      requires jobId in tables.jobs
      modifies tables`jobs
      ensures tables.jobs == old(tables.jobs)[jobId := DirectlyCanceledJob(old(tables.jobs)[jobId], now)]
    {
      tables.jobs := tables.jobs[jobId := DirectlyCanceledJob(tables.jobs[jobId], now)];
    }

    method CancelJob(jobId: string, i: Interruption) returns (result: ActionResult)
      requires Wired()
      modifies tables
      ensures (tables.State(), result) == OperatorCancel(old(tables.State()), jobId, i)
      ensures result.ActionDuplicate? || result.ConflictRaised? ==>
        && tables.jobs == old(tables.jobs) && tables.approvals == old(tables.approvals)
        && tables.inputs == old(tables.inputs)
      ensures result.ActionApplied? ==>
        tables.sessionEvents != [] && tables.sessionEvents[|tables.sessionEvents| - 1].Audit?
    {
      if jobId !in tables.jobs {
        return NotFoundRaised;
      }
      var before := tables.jobs[jobId].status;
      if before.JobCanceled? {
        RecordAudit(Cancel, jobId, Duplicate, JobState(before), JobState(before));
        return ActionDuplicate;
      }
      if before in TERMINAL || before !in CANCELABLE {
        RecordAudit(Cancel, jobId, Failed, JobState(before), JobState(before));
        return ConflictRaised;
      }
      if before.JobRunning? {
        var outcome := relayEngine.Interrupt(jobId, i);
        if outcome.RelayError? {
          return RelayErrorRaised;
        }
        if outcome.RelayLookupError? {
          CancelDirectly(jobId, i.now);
        }
      } else {
        CancelDirectly(jobId, i.now);
      }
      RecordAudit(Cancel, jobId, Applied, JobState(before), JobState(tables.jobs[jobId].status));
      return ActionApplied;
    }

    method DecideApproval(approvalId: string, accept: bool, decision: Option<string>, now: int)
        returns (result: ActionResult)
      requires Wired()
      modifies tables
      ensures (tables.State(), result) == OperatorDecide(old(tables.State()), approvalId, accept, decision, now)
      ensures result.ActionDuplicate? || result.ConflictRaised? ==>
        && tables.jobs == old(tables.jobs) && tables.approvals == old(tables.approvals)
        && tables.inputs == old(tables.inputs)
      ensures result.ActionApplied? ==>
        tables.sessionEvents != [] && tables.sessionEvents[|tables.sessionEvents| - 1].Audit?
    {
      if approvalId !in tables.approvals || tables.approvals[approvalId].jobId !in tables.jobs {
        return NotFoundRaised;
      }
      var action := if accept then Approve else Reject;
      var before := tables.approvals[approvalId].status;
      if !before.ApprovalPending? {
        RecordAudit(action, approvalId, Failed, ApprovalState(before), ApprovalState(before));
        return ConflictRaised;
      }
      var _ := approvals.Resolve(approvalId, accept, decision, now);
      RecordAudit(action, approvalId, Applied, ApprovalState(before),
          ApprovalState(tables.approvals[approvalId].status));
      return ActionApplied;
    }
  }
}
