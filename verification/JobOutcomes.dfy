/** What each call leaves in the tables, told from the call and the tables before it: every
    field of every row that it writes, every event, and what it leaves alone. */
module JobOutcomes {
  import opened Seqs
  import opened Jobs
  import opened ControlPlane
  import opened ControlPlaneRuns

  /** q has the jobs of p but for one row. */
  predicate OnlyJob(p: Plane, q: Plane, id: string) {
    && q.jobs.Keys == p.jobs.Keys
    && forall k :: k in p.jobs && k != id ==> q.jobs[k] == p.jobs[k]
  }

  // ------------------------------------------------------------------ the relay

  /** A turn that asks a human for input or authorisation. */
  predicate Asks(turnStatus: string) {
    turnStatus == "input_required" || turnStatus == "auth_required"
  }

  /** The job row while the turn goes on: the turn's thread, status and id, the runtime and the
      start that it already had or else those of the turn, completed now if the turn is, and
      for the rest as it was. */
  predicate RowOfTurn(row: Job, was: Job, t: Turn, now: int) {
    && row.id == was.id && row.sessionId == was.sessionId && row.channelKey == was.channelKey
        && row.agentId == was.agentId
    && row.threadId == Some(t.threadId) && row.turnId == Some(t.turnId) && row.turnStatus == Some(t.status)
    && row.runtimeId == (if was.runtimeId.Some? then was.runtimeId else Some(t.runtimeId))
    && row.startedAt == (if was.startedAt.Some? then was.startedAt else Some(now))
    && row.completedAt == (if t.status == "completed" then Some(now) else was.completedAt)
    && row.errorCode == was.errorCode && row.errorMessage == was.errorMessage && row.updatedAt == now
    && (row.status.JobCompleted? <==> t.status == "completed")
    && (row.status.InputRequired? <==> t.status == "input_required")
    && (row.status.AuthRequired? <==> t.status == "auth_required")
    && (row.status.JobRunning? <==>
        t.status != "completed" && t.status != "input_required" && t.status != "auth_required")
  }

  /** When the relay begins a turn, the job row follows the turn. A turn that asks gets one
      pending approval of the job and its agent, and one request event, and so the job never
      waits without an approval; if the approval's id is taken the relay raises. Any other turn
      leaves the approvals alone. Inputs and other jobs are not touched. */
  lemma TurnOutcome(p: Plane, id: string, now: int, t: Turn)
    requires id in p.jobs && p.jobs[id].id == id
    ensures var (q, outcome) := ExecuteJob(p, id, now, TurnBegins(t));
            var asked := Asks(t.status) && t.approvalId !in p.approvals;
            var stuck := Asks(t.status) && t.approvalId in p.approvals;
            && OnlyJob(p, q, id) && RowOfTurn(q.jobs[id], p.jobs[id], t, now) && q.inputs == p.inputs
            && (asked ==>
                  q.approvals == p.approvals[t.approvalId :=
                    Approval(t.approvalId, id, p.jobs[id].agentId, ApprovalPending, None, None, now)])
            && (!asked ==> q.approvals == p.approvals)
            && q.jobEvents == p.jobEvents + [TurnStarted(id)]
                              + (if asked then [ApprovalRequested(id, t.approvalId)] else [])
                              + (if !stuck && !t.publishFails then [OutputPublished(id)] else [])
            && q.sessionEvents == p.sessionEvents
                                  + (if asked then [ApprovalNotice(ApprovalRequested(id, t.approvalId))] else [])
                                  + (if !stuck && !t.publishFails then [RelayNotice(id)] else [])
            && outcome == (if stuck || t.publishFails then RelayError else RelayDone)
  {
    TurnEvents(p, id, now, t);
  }

  lemma TurnEvents(p: Plane, id: string, now: int, t: Turn)
    requires id in p.jobs && p.jobs[id].id == id
    ensures var q := ExecuteJob(p, id, now, TurnBegins(t)).0;
            var asked := Asks(t.status) && t.approvalId !in p.approvals;
            var stuck := Asks(t.status) && t.approvalId in p.approvals;
            && q.jobEvents == p.jobEvents + [TurnStarted(id)]
                              + (if asked then [ApprovalRequested(id, t.approvalId)] else [])
                              + (if !stuck && !t.publishFails then [OutputPublished(id)] else [])
            && q.sessionEvents == p.sessionEvents
                                  + (if asked then [ApprovalNotice(ApprovalRequested(id, t.approvalId))] else [])
                                  + (if !stuck && !t.publishFails then [RelayNotice(id)] else [])
  {
    var started := p.jobEvents + [TurnStarted(id)];
    assert started + [] == started && started + [] + [] == started && p.sessionEvents + [] + [] == p.sessionEvents;
  }

  /** The loop guard's pause, alone or inside a relay step. */
  predicate PausedRow(row: Job, was: Job, now: int) {
    row == was.(status := PausedByLoopGuard, turnStatus := Some("paused_by_loop_guard"), completedAt := Some(now),
        updatedAt := now)
  }

  lemma PauseOutcome(p: Plane, id: string, now: int)
    requires id in p.jobs
    ensures ExecuteJob(p, id, now, GuardPauses) == (PauseJob(p, id, now), RelayDone)
    ensures var q := PauseJob(p, id, now);
            && OnlyJob(p, q, id) && PausedRow(q.jobs[id], p.jobs[id], now)
            && q.approvals == p.approvals && q.inputs == p.inputs
            && q.jobEvents == p.jobEvents + [LoopGuardPaused(id)]
                && q.sessionEvents == p.sessionEvents + [GuardNotice(id)]
  {
  }

  /** A relay that raises before its turn, or that finds no job, writes nothing. */
  lemma NoTurnOutcome(p: Plane, id: string, now: int, relay: Relay)
    ensures id !in p.jobs ==> ExecuteJob(p, id, now, relay) == (p, RelayLookupError)
    ensures id in p.jobs ==> ExecuteJob(p, id, now, RelayRaises) == (p, RelayError)
  {
  }

  /** An interruption of a job that is neither over nor interrupted already cancels it, if its
      references are found, it has a thread and the bridge answers; otherwise nothing changes. */
  lemma InterruptOutcome(p: Plane, id: string, i: Interruption)
    ensures var (q, outcome) := InterruptJob(p, id, i);
            if id !in p.jobs || i.refsMissing then q == p && outcome == RelayLookupError
            else
              var was := p.jobs[id];
              if was.status.JobCanceled? || was.status.JobCompleted? || was.status.JobFailed?
                  || was.turnStatus == Some("interrupted")
              then q == p && outcome == RelayDone
              else if (was.threadId.None? && i.mappedThread.None?) || i.bridge == BridgeLookupFails
              then q == p && outcome == RelayLookupError
              else if i.bridge == BridgeFails
              then q == p && outcome == RelayError
              else
                && outcome == RelayDone && OnlyJob(p, q, id)
                && q.jobs[id] == was.(status := JobCanceled, turnStatus := Some("interrupted"),
                    completedAt := Some(i.now), updatedAt := i.now)
                && q.approvals == p.approvals && q.inputs == p.inputs
                && q.jobEvents == p.jobEvents + [TurnInterrupted(id)]
                    && q.sessionEvents == p.sessionEvents + [InterruptNotice(id)]
  {
  }

  /** A compaction changes the last turn status alone. */
  lemma CompactOutcome(p: Plane, id: string, i: Interruption)
    ensures var (q, outcome) := CompactJob(p, id, i);
            if id !in p.jobs || i.refsMissing then q == p && outcome == RelayLookupError
            else
              var was := p.jobs[id];
              if (was.threadId.None? && i.mappedThread.None?) || i.bridge == BridgeLookupFails
              then q == p && outcome == RelayLookupError
              else if i.bridge == BridgeFails
              then q == p && outcome == RelayError
              else
                && outcome == RelayDone && OnlyJob(p, q, id)
                && q.jobs[id] == was.(turnStatus := Some("compacted"), updatedAt := i.now)
                && q.approvals == p.approvals && q.inputs == p.inputs
                && q.jobEvents == p.jobEvents + [ThreadCompacted(id)]
                    && q.sessionEvents == p.sessionEvents + [CompactNotice(id)]
  {
  }

  // ------------------------------------------------------------------ the queue

  /** The channel that the rules send a job to. */
  function ChannelOf(job: Job, policy: Option<Policy>): string {
    if policy.Some? then policy.value.channelKey else job.channelKey
  }

  /** The tables once a scheduled job's input is stored and its channel set. */
  function Recorded(p: Plane, id: string, inputType: string, previous: Option<JobStatus>, policy: Option<Policy>): Plane
    requires id in p.jobs
  {
    p.(inputs := p.inputs + [JobInput(id, inputType, previous)],
       jobs := p.jobs[id := p.jobs[id].(channelKey := ChannelOf(p.jobs[id], policy))])
  }

  predicate Forbidden(policy: Option<Policy>) {
    policy.Some? && !policy.value.dispatchAllowed
  }

  /** Scheduling a job stores its input and moves it to the channel of the rules. If the rules
      forbid dispatch it is held as waiting for input, with their reason; if no runtime is ready
      it stays as it is; otherwise it is relayed. */
  lemma ScheduleOutcome(p: Plane, id: string, inputType: string, previous: Option<JobStatus>, d: Dispatch)
    ensures var (q, outcome) := ScheduleJob(p, id, inputType, previous, d);
            if id !in p.jobs then q == p && outcome == UnknownJob
            else
              var stored, was := Recorded(p, id, inputType, previous, d.policy), p.jobs[id];
              if Forbidden(d.policy) then
                && outcome == StaysQueued
                && q.jobs == p.jobs[id :=
                     was.(channelKey := d.policy.value.channelKey, status := InputRequired, updatedAt := d.now,
                          turnStatus := if d.policy.value.holdReason.Some? then d.policy.value.holdReason
                                        else Some("rule_review_required"))]
                && q == stored.(jobs := q.jobs)
              else if !d.runtimeReady then q == stored && outcome == StaysQueued
              else
                var (r, relayed) := ExecuteJob(stored, id, d.now, d.relay);
                q == r && outcome == match relayed
                                     case RelayDone => Relayed
                                     case RelayError => QueueRelayError
                                     case RelayLookupError => UnknownJob
  {
  }

  predicate CanRetry(status: JobStatus) {
    status.JobFailed? || status.JobCanceled? || status.PausedByLoopGuard?
  }

  predicate CanResume(status: JobStatus) {
    status.JobQueued? || status.InputRequired? || status.AuthRequired? || status.PausedByLoopGuard?
  }

  /** A retry takes a job that failed, was canceled or was paused back to the queue, without its
      error and its completion time, and schedules it. Asked again while the job is queued by a
      retry it does nothing; any other job it refuses. */
  lemma RetryOutcome(p: Plane, id: string, d: Dispatch)
    ensures var (q, outcome) := QueueRetry(p, id, d);
            if id !in p.jobs then q == p && outcome == UnknownJob
            else
              var was := p.jobs[id];
              if was.status.JobQueued? && was.turnStatus == Some("retry_requested") then
                  q == p && outcome == StaysQueued
              else if !CanRetry(was.status) then q == p && outcome == InvalidState
              else
                (q, outcome) == ScheduleJob(
                  p.(jobs := p.jobs[id := was.(status := JobQueued, turnStatus := Some("retry_requested"),
                      errorCode := None,
                                               errorMessage := None, completedAt := None, updatedAt := d.now)]),
                  id, "retry", Some(was.status), d)
  {
  }

  /** A resume does the same for a job that is queued, waits or was paused, and keeps its error. */
  lemma ResumeOutcome(p: Plane, id: string, d: Dispatch)
    ensures var (q, outcome) := QueueResume(p, id, d);
            if id !in p.jobs then q == p && outcome == UnknownJob
            else
              var was := p.jobs[id];
              if was.status.JobQueued? && was.turnStatus == Some("resumed") then q == p && outcome == StaysQueued
              else if !CanResume(was.status) then q == p && outcome == InvalidState
              else
                (q, outcome) == ScheduleJob(
                  p.(jobs := p.jobs[id := was.(status := JobQueued, turnStatus := Some("resumed"),
                      completedAt := None, updatedAt := d.now)]),
                  id, "resume", Some(was.status), d)
  {
  }

  // ------------------------------------------------------------------ dispatch of what is queued

  /** What one relay step makes of a job row. */
  predicate RowOfRelay(row: Job, was: Job, relay: Relay, now: int) {
    match relay
    case RelayRaises => row == was
    case GuardPauses => PausedRow(row, was, now)
    case TurnBegins(t) => RowOfTurn(row, was, t, now)
  }

  lemma RelayRow(p: Plane, id: string, now: int, relay: Relay)
    requires id in p.jobs && p.jobs[id].id == id
    ensures var q := ExecuteJob(p, id, now, relay).0;
            OnlyJob(p, q, id) && RowOfRelay(q.jobs[id], p.jobs[id], relay, now) && q.jobs[id].id == id
  {
    match relay
    case RelayRaises =>
    case GuardPauses => PauseOutcome(p, id, now);
    case TurnBegins(t) => TurnOutcome(p, id, now, t);
  }

  /** Dispatching the queued jobs of an agent relays every one of them, each as its own relay
      answers and whatever becomes of the others, and no other job. */
  lemma {:induction false} DispatchOutcome(p: Plane, listed: seq<string>, relays: seq<Relay>, now: int)
    requires |listed| == |relays| && (forall id :: id in p.jobs ==> p.jobs[id].id == id)
    requires forall i :: 0 <= i < |listed| ==> listed[i] in p.jobs
    requires forall i, j :: 0 <= i < j < |listed| ==> listed[i] != listed[j]
    ensures var q := DispatchPending(p, listed, relays, now);
            && q.jobs.Keys == p.jobs.Keys && (forall id :: id in q.jobs ==> q.jobs[id].id == id)
            && (forall id :: id in p.jobs && id !in listed ==> q.jobs[id] == p.jobs[id])
            && (forall i :: 0 <= i < |listed| ==> RowOfRelay(q.jobs[listed[i]], p.jobs[listed[i]], relays[i], now))
  {
    if listed != [] {
      var n := |listed| - 1;
      DispatchOutcome(p, listed[..n], relays[..n], now);
      var r := DispatchPending(p, listed[..n], relays[..n], now);
      assert listed == listed[..n] + [listed[n]];
      assert listed[n] !in listed[..n];
      RelayRow(r, listed[n], now, relays[n]);
      forall i | 0 <= i < n
        ensures RowOfRelay(DispatchPending(p, listed, relays, now).jobs[listed[i]], p.jobs[listed[i]], relays[i], now)
      {
        assert listed[..n][i] == listed[i] && relays[..n][i] == relays[i];
      }
    }
  }

  // ------------------------------------------------------------------ input, approvals and creation

  /** Input for a job, without an approval: the job that waits goes back to the queue and is
      scheduled, any other keeps its status; its last turn status says so, and an event is
      written. With an approval, that approval is accepted, and if this decides it the job is
      scheduled. */
  lemma InputOutcome(p: Plane, id: string, approval: Option<string>, text: string, d: Dispatch)
    ensures var (q, outcome) := ProvideInput(p, id, approval, text, d);
            if id !in p.jobs then q == p && outcome == InputJobMissing
            else if approval.None? then
              var was := p.jobs[id];
              var waits := was.status.InputRequired? || was.status.AuthRequired?;
              var stored := p.(jobs := p.jobs[id := was.(status := if waits then JobQueued else was.status,
                                                         turnStatus := Some("input_received"), updatedAt := d.now)],
                               jobEvents := p.jobEvents + [InputReceived(id)]);
              if waits then
                var (r, scheduled) := ScheduleJob(stored, id, "manual_input", None, d);
                q == r && outcome == InputStored(Some(scheduled))
              else q == stored && outcome == InputStored(None)
            else
              var (accepted, decision) := ResolveApproval(p, approval.value, true, Some(text), d.now);
              if decision != Decided then q == accepted && outcome == InputApproval(decision)
              else
                var (r, scheduled) := ScheduleJob(accepted, id, "approval_accept", None, d);
                q == r && outcome == InputStored(Some(scheduled))
  {
  }

  /** A decision on a pending approval fixes it with the decision and the time; its job follows;
      one event of the decision is written to each log. Any other decision changes nothing. */
  lemma DecisionOutcome(p: Plane, a: string, accept: bool, decision: Option<string>, now: int)
    ensures var (q, outcome) := ResolveApproval(p, a, accept, decision, now);
            if a !in p.approvals then q == p && outcome == UnknownApproval
            else if p.approvals[a].status != ApprovalPending then q == p && outcome == AlreadyResolved
            else
              var id := p.approvals[a].jobId;
              var event := if accept then ApprovalAccepted(id, a) else ApprovalDeclined(id, a);
              && q.approvals == p.approvals[a :=
                   p.approvals[a].(status := if accept then Accepted else Declined, decision := decision,
                                   resolvedAt := Some(now), updatedAt := now)]
              && q.inputs == p.inputs
              && (id !in p.jobs ==> outcome == JobGone && q == p.(approvals := q.approvals))
              && (id in p.jobs ==>
                    && outcome == Decided && OnlyJob(p, q, id) && DecidedRow(q.jobs[id], p.jobs[id], accept, now)
                    && q.jobEvents == p.jobEvents + [event]
                        && q.sessionEvents == p.sessionEvents + [ApprovalNotice(event)])
  {
  }

  predicate DecidedRow(row: Job, was: Job, accept: bool, now: int) {
    if accept then
      row == was.(status := if was.status.InputRequired? then JobQueued else JobRunning, turnStatus := Some("accepted"),
                  startedAt := if was.startedAt.Some? then was.startedAt else Some(now), updatedAt := now)
    else
      row == was.(status := JobCanceled, turnStatus := Some("declined"), completedAt := Some(now), updatedAt := now)
  }

  /** A created job is queued and has not been touched by anything; an id that is taken is refused. */
  lemma CreateOutcome(p: Plane, id: string, sessionId: string, channelKey: string, agentId: string,
      runtimeId: Option<string>, now: int)
    ensures var q := Serve(p, DoCreateJob(id, sessionId, channelKey, agentId, runtimeId, now));
            if id in p.jobs then q == p
            else
              q == p.(jobs := p.jobs[id :=
                Job(id, sessionId, channelKey, agentId, JobQueued, None, runtimeId, None, None, None, None, None,
                    None, now)])
  {
  }

  // ------------------------------------------------------------------ operators

  /** An operator's retry or resume answers by the job's state: duplicate while the same request
      is pending, conflict in a state that cannot be retried or resumed. */
  lemma OperatorQueueAnswers(p: Plane, id: string, d: Dispatch)
    requires id in p.jobs
    ensures var was, retry, resume := p.jobs[id], OperatorRetry(p, id, d).1, OperatorResume(p, id, d).1;
            && (retry.ActionDuplicate? <==> was.status.JobQueued? && was.turnStatus == Some("retry_requested"))
            && (retry.ConflictRaised? <==>
                  !CanRetry(was.status) && !(was.status.JobQueued? && was.turnStatus == Some("retry_requested")))
            && (resume.ActionDuplicate? <==> was.status.JobQueued? && was.turnStatus == Some("resumed"))
            && (resume.ConflictRaised? <==> !CanResume(was.status))
  {
    ScheduleOutcome(p.(jobs := p.jobs[id := RetriedJob(p.jobs[id], d.now)]), id, "retry", Some(p.jobs[id].status), d);
    ScheduleOutcome(p.(jobs := p.jobs[id := ResumedJob(p.jobs[id], d.now)]), id, "resume", Some(p.jobs[id].status), d);
  }

  /** An operator's cancel of a canceled job is a duplicate and of a completed or failed one a
      conflict. A job that waits, is queued or is paused is canceled at once, and so is a running
      one that the relay cannot look up; a running job is otherwise interrupted by the relay. */
  lemma CancelOutcome(p: Plane, id: string, i: Interruption)
    requires id in p.jobs
    ensures var (q, result) := OperatorCancel(p, id, i);
            var was := p.jobs[id];
            var canceled := was.(status := JobCanceled, turnStatus := Some("operator_canceled"),
                completedAt := Some(i.now), updatedAt := i.now);
            && (result.ActionDuplicate? <==> was.status.JobCanceled?)
            && (result.ConflictRaised? <==> was.status.JobCompleted? || was.status.JobFailed?)
            && (result.ActionDuplicate? || result.ConflictRaised? ==> q.jobs == p.jobs)
            && (was.status in {JobQueued, InputRequired, AuthRequired, PausedByLoopGuard} ==>
                  result.ActionApplied? && q.jobs == p.jobs[id := canceled])
            && (was.status.JobRunning? && InterruptJob(p, id, i).1.RelayLookupError? ==>
                  result.ActionApplied? && q.jobs == p.jobs[id := canceled])
            && (was.status.JobRunning? && InterruptJob(p, id, i).1.RelayError? ==> result.RelayErrorRaised? && q == p)
            && (was.status.JobRunning? && InterruptJob(p, id, i).1.RelayDone? ==>
                  result.ActionApplied? && q.jobs == InterruptJob(p, id, i).0.jobs)
            && q.approvals == p.approvals && q.inputs == p.inputs
  {
    InterruptOutcome(p, id, i);
  }

  /** An operator's decision on an approval whose job exists is a conflict exactly if the
      approval has been decided; otherwise it is the approval manager's, and audited. */
  lemma OperatorDecisionOutcome(p: Plane, a: string, accept: bool, decision: Option<string>, now: int)
    requires a in p.approvals && p.approvals[a].jobId in p.jobs
    ensures var (q, result) := OperatorDecide(p, a, accept, decision, now);
            && (result.ConflictRaised? <==> !p.approvals[a].status.ApprovalPending?)
            && (result.ConflictRaised? ==> q.jobs == p.jobs && q.approvals == p.approvals)
            && (p.approvals[a].status.ApprovalPending? ==>
                  && result.ActionApplied?
                  && q.jobs == ResolveApproval(p, a, accept, decision, now).0.jobs
                  && q.approvals == ResolveApproval(p, a, accept, decision, now).0.approvals)
  {
  }
}
