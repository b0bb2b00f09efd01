/** What operators can rely on: the audit trail, the agreement of their guards with the
    queue's, repeated requests, and what a cancellation leaves behind. */
module OperatorTheorems {
  import opened Seqs
  import opened Jobs
  import opened ControlPlane
  import opened ControlPlaneRuns

  // ------------------------------------------------------------------ the audit trail

  predicate IsAudit(e: SessionEvent) {
    e.Audit?
  }

  function Audits(p: Plane): nat {
    Count(p.sessionEvents, IsAudit)
  }

  predicate IsOperator(c: Command) {
    c.DoOperatorRetry? || c.DoOperatorResume? || c.DoOperatorCancel? || c.DoOperatorDecide?
  }

  function ResultOf(p: Plane, c: Command): ActionResult
    requires IsOperator(c)
  {
    match c
    case DoOperatorRetry(jobId, d) => OperatorRetry(p, jobId, d).1
    case DoOperatorResume(jobId, d) => OperatorResume(p, jobId, d).1
    case DoOperatorCancel(jobId, i) => OperatorCancel(p, jobId, i).1
    case DoOperatorDecide(a, accept, decision, now) => OperatorDecide(p, a, accept, decision, now).1
  }

  function ActionOf(c: Command): Action
    requires IsOperator(c)
  {
    match c
    case DoOperatorRetry(_, _) => Retry
    case DoOperatorResume(_, _) => Resume
    case DoOperatorCancel(_, _) => Cancel
    case DoOperatorDecide(_, accept, _, _) => if accept then Approve else Reject
  }

  function TargetOf(c: Command): string
    requires IsOperator(c)
  {
    if c.DoOperatorDecide? then c.approvalId else c.jobId
  }

  /** The target's row is in its table; for an approval, so is its job. */
  predicate TargetFound(p: Plane, c: Command)
    requires IsOperator(c)
  {
    if c.DoOperatorDecide? then c.approvalId in p.approvals && p.approvals[c.approvalId].jobId in p.jobs
    else c.jobId in p.jobs
  }

  /** The stored state of the target. */
  function StoredState(p: Plane, c: Command): TargetState
    requires IsOperator(c) && TargetFound(p, c)
  {
    if c.DoOperatorDecide? then ApprovalState(p.approvals[c.approvalId].status) else JobState(p.jobs[c.jobId].status)
  }

  function OutcomeOf(r: ActionResult): ActionOutcome {
    match r
    case ActionApplied => Applied
    case ActionDuplicate => Duplicate
    case _ => Failed
  }

  predicate RelayBreaks(p: Plane, jobId: string, d: Dispatch)
    requires jobId in p.jobs
  {
    && DispatchAllowed(d.policy) && d.runtimeReady
    && (|| d.relay.RelayRaises?
        || (d.relay.TurnBegins? && (d.relay.turn.publishFails
                                    || (StatusOfTurn(d.relay.turn.status) in {InputRequired, AuthRequired}
                                        && d.relay.turn.approvalId in p.approvals))))
  }

  /** The one case in which a found target gets no audit: the action went through to the relay
      and the relay raised. */
  predicate RelayRaisesIn(p: Plane, c: Command)
    requires IsOperator(c) && TargetFound(p, c)
  {
    match c
    case DoOperatorRetry(jobId, d) =>
      p.jobs[jobId].status in RETRYABLE && RelayBreaks(p, jobId, d)
    case DoOperatorResume(jobId, d) =>
      p.jobs[jobId].status in RESUMABLE && !IsDuplicateControlAction(p.jobs[jobId], RESUME_MARKER)
          && RelayBreaks(p, jobId, d)
    case DoOperatorCancel(jobId, i) =>
      var job := p.jobs[jobId];
      job.status.JobRunning? && job.turnStatus != Some("interrupted") && !i.refsMissing
      && (job.threadId.Some? || i.mappedThread.Some?) && i.bridge.BridgeFails?
    case DoOperatorDecide(_, _, _, _) => false
  }

  lemma AppendAudits(p: Plane, q: Plane, more: seq<SessionEvent>)
    requires q.sessionEvents == p.sessionEvents + more
    ensures Audits(q) == Audits(p) + Count(more, IsAudit)
  {
    CountAppend(p.sessionEvents, more, IsAudit);
  }

  lemma ExecuteAudits(p: Plane, jobId: string, now: int, relay: Relay)
    ensures Audits(ExecuteJob(p, jobId, now, relay).0) == Audits(p)
    ensures jobId in p.jobs ==> jobId in ExecuteJob(p, jobId, now, relay).0.jobs
    ensures jobId in p.jobs ==> (ExecuteJob(p, jobId, now, relay).1.RelayDone? <==>
        !RelayBreaks(p, jobId, Dispatch(now, None, true, relay)))
  {
    var q := ExecuteJob(p, jobId, now, relay).0;
    if jobId in p.jobs {
      match relay
      case RelayRaises =>
      case GuardPauses => AppendAudits(p, q, [GuardNotice(jobId)]);
      case TurnBegins(t) =>
        var job := TurnJob(p.jobs[jobId], t, now);
        var notice := ApprovalNotice(ApprovalRequested(job.id, t.approvalId));
        var asks := job.status.InputRequired? || job.status.AuthRequired?;
        var more := (if asks then [notice] else []) + (if t.publishFails then [] else [RelayNotice(jobId)]);
        assert p.sessionEvents + more
            == (p.sessionEvents + if asks then [notice] else []) + if t.publishFails then [] else [RelayNotice(jobId)];
        if !(asks && t.approvalId in p.approvals) {
          AppendAudits(p, q, more);
          CountZero(more, IsAudit);
        }
    }
  }

  lemma ScheduleAudits(p: Plane, jobId: string, inputType: string, previous: Option<JobStatus>, d: Dispatch)
    ensures var (q, outcome) := ScheduleJob(p, jobId, inputType, previous, d);
            && Audits(q) == Audits(p)
            && (jobId in p.jobs ==>
                  jobId in q.jobs && (outcome.StaysQueued? || outcome.Relayed? <==> !RelayBreaks(p, jobId, d)))
  {
    if jobId in p.jobs {
      var channelled := p.(inputs := p.inputs + [JobInput(jobId, inputType, previous)],
                           jobs := p.jobs[jobId := ChannelledJob(p.jobs[jobId], d.policy)]);
      ExecuteAudits(channelled, jobId, d.now, d.relay);
    }
  }

  /** A retry is passed on to the queue exactly when the queue itself would take it: the
      queue's ValueError and its duplicate branch are out of reach behind the operator's
      guards, and the operator's refusals are the queue's. */
  lemma RetryGuardsAgree(p: Plane, jobId: string, d: Dispatch)
    requires jobId in p.jobs
    ensures var (q, outcome) := QueueRetry(p, jobId, d);
            var result := OperatorRetry(p, jobId, d).1;
            && (result.ConflictRaised? <==> outcome.InvalidState?)
            && (result.ActionDuplicate? <==> IsDuplicateControlAction(p.jobs[jobId], RETRY_MARKER))
            && (!result.ConflictRaised? && !result.ActionDuplicate? ==>
                  (q, outcome) == ScheduleJob(
                    p.(jobs := p.jobs[jobId := RetriedJob(p.jobs[jobId], d.now)]),
                    jobId, "retry", Some(p.jobs[jobId].status), d)
                  && !outcome.InvalidState? && !outcome.UnknownJob?)
  {
    var written := p.(jobs := p.jobs[jobId := RetriedJob(p.jobs[jobId], d.now)]);
    ScheduleAudits(written, jobId, "retry", Some(p.jobs[jobId].status), d);
    ExecuteAudits(written, jobId, d.now, d.relay);
  }

  lemma ResumeGuardsAgree(p: Plane, jobId: string, d: Dispatch)
    requires jobId in p.jobs
    ensures var (q, outcome) := QueueResume(p, jobId, d);
            var result := OperatorResume(p, jobId, d).1;
            && (result.ConflictRaised? <==> outcome.InvalidState?)
            && (result.ActionDuplicate? <==> IsDuplicateControlAction(p.jobs[jobId], RESUME_MARKER))
            && (!result.ConflictRaised? && !result.ActionDuplicate? ==>
                  (q, outcome) == ScheduleJob(
                    p.(jobs := p.jobs[jobId := ResumedJob(p.jobs[jobId], d.now)]),
                    jobId, "resume", Some(p.jobs[jobId].status), d)
                  && !outcome.InvalidState? && !outcome.UnknownJob?)
  {
    var written := p.(jobs := p.jobs[jobId := ResumedJob(p.jobs[jobId], d.now)]);
    ScheduleAudits(written, jobId, "resume", Some(p.jobs[jobId].status), d);
    ExecuteAudits(written, jobId, d.now, d.relay);
  }

  /** What one operator call owes the audit trail. */
  ghost predicate Audited(p: Plane, c: Command)
    requires IsOperator(c)
  {
    var q, r := Serve(p, c), ResultOf(p, c);
    && (r.NotFoundRaised? <==> !TargetFound(p, c))
    && (TargetFound(p, c) ==> (r.RelayErrorRaised? <==> RelayRaisesIn(p, c)))
    && Audits(q) == Audits(p) + (if r.NotFoundRaised? || r.RelayErrorRaised? then 0 else 1)
    && (!r.NotFoundRaised? && !r.RelayErrorRaised? ==>
          && TargetFound(p, c) && TargetFound(q, c) && q.sessionEvents != []
          && q.sessionEvents[|q.sessionEvents| - 1]
             == Audit(ActionOf(c), TargetOf(c), OutcomeOf(r), StoredState(p, c), StoredState(q, c)))
    && (r.ActionDuplicate? || r.ConflictRaised? || r.NotFoundRaised? ==> q == p.(sessionEvents := q.sessionEvents))
  }

  lemma OneMoreAudit(p: Plane, action: Action, id: string, outcome: ActionOutcome, before: TargetState,
      after: TargetState)
    ensures Audits(WithAudit(p, action, id, outcome, before, after)) == Audits(p) + 1
  {
    AppendAudits(p, WithAudit(p, action, id, outcome, before, after), [Audit(action, id, outcome, before, after)]);
  }

  lemma RetryAudited(p: Plane, jobId: string, d: Dispatch)
    ensures Audited(p, DoOperatorRetry(jobId, d))
  {
    if jobId in p.jobs {
      var before := JobState(p.jobs[jobId].status);
      var written := p.(jobs := p.jobs[jobId := RetriedJob(p.jobs[jobId], d.now)]);
      ScheduleAudits(written, jobId, "retry", Some(before.job), d);
      RetryGuardsAgree(p, jobId, d);
      var q := ScheduleJob(written, jobId, "retry", Some(before.job), d).0;
      OneMoreAudit(p, Retry, jobId, Duplicate, before, before);
      OneMoreAudit(p, Retry, jobId, Failed, before, before);
      OneMoreAudit(q, Retry, jobId, Applied, before, JobState(q.jobs[jobId].status));
      assert RelayBreaks(written, jobId, d) == RelayBreaks(p, jobId, d);
    }
  }

  lemma ResumeAudited(p: Plane, jobId: string, d: Dispatch)
    ensures Audited(p, DoOperatorResume(jobId, d))
  {
    if jobId in p.jobs {
      var before := JobState(p.jobs[jobId].status);
      var written := p.(jobs := p.jobs[jobId := ResumedJob(p.jobs[jobId], d.now)]);
      ScheduleAudits(written, jobId, "resume", Some(before.job), d);
      ResumeGuardsAgree(p, jobId, d);
      var q := ScheduleJob(written, jobId, "resume", Some(before.job), d).0;
      OneMoreAudit(p, Resume, jobId, Duplicate, before, before);
      OneMoreAudit(p, Resume, jobId, Failed, before, before);
      OneMoreAudit(q, Resume, jobId, Applied, before, JobState(q.jobs[jobId].status));
      assert RelayBreaks(written, jobId, d) == RelayBreaks(p, jobId, d);
    }
  }

  lemma CancelAudited(p: Plane, jobId: string, i: Interruption)
    ensures Audited(p, DoOperatorCancel(jobId, i))
  {
    if jobId in p.jobs {
      var before := JobState(p.jobs[jobId].status);
      var direct := p.(jobs := p.jobs[jobId := DirectlyCanceledJob(p.jobs[jobId], i.now)]);
      var interrupted := InterruptJob(p, jobId, i).0;
      if before.job.JobCanceled? {
        OneMoreAudit(p, Cancel, jobId, Duplicate, before, before);
      } else if before.job !in CANCELABLE {
        OneMoreAudit(p, Cancel, jobId, Failed, before, before);
      } else {
        OneMoreAudit(direct, Cancel, jobId, Applied, before, JobState(JobCanceled));
        InterruptAudits(p, jobId, i);
        OneMoreAudit(interrupted, Cancel, jobId, Applied, before, JobState(interrupted.jobs[jobId].status));
      }
    }
  }

  lemma InterruptAudits(p: Plane, jobId: string, i: Interruption)
    requires jobId in p.jobs
    ensures var q := InterruptJob(p, jobId, i).0; jobId in q.jobs && Audits(q) == Audits(p)
  {
    var q := InterruptJob(p, jobId, i).0;
    if q != p { AppendAudits(p, q, [InterruptNotice(jobId)]); }
  }

  lemma DecideAudited(p: Plane, a: string, accept: bool, decision: Option<string>, now: int)
    ensures Audited(p, DoOperatorDecide(a, accept, decision, now))
  {
    var c := DoOperatorDecide(a, accept, decision, now);
    var q := Serve(p, c);
    if TargetFound(p, c) {
      var before := ApprovalState(p.approvals[a].status);
      if before.approval.ApprovalPending? {
        var r := ResolveApproval(p, a, accept, decision, now).0;
        ResolveAudits(p, a, accept, decision, now);
        OneMoreAudit(r, ActionOf(c), a, Applied, before, ApprovalState(r.approvals[a].status));
      } else {
        OneMoreAudit(p, ActionOf(c), a, Failed, before, before);
      }
    }
  }

  /** Every operator action that finds its target appends exactly one audit event, as the last
      event of the call, with the stored states before and after, unless the relay raises, and
      then it appends none. Failed and duplicate actions change nothing else. */
  lemma OperatorActionsAudited(p: Plane, c: Command)
    requires IsOperator(c)
    ensures Audited(p, c)
  {
    match c
    case DoOperatorRetry(jobId, d) => RetryAudited(p, jobId, d);
    case DoOperatorResume(jobId, d) => ResumeAudited(p, jobId, d);
    case DoOperatorCancel(jobId, i) => CancelAudited(p, jobId, i);
    case DoOperatorDecide(a, accept, decision, now) => DecideAudited(p, a, accept, decision, now);
  }

  /** Nothing but an operator action writes an audit event. */
  lemma OtherCallsNotAudited(p: Plane, c: Command)
    requires !IsOperator(c)
    ensures Audits(Serve(p, c)) == Audits(p)
  {
    match c
    case DoCreateJob(_, _, _, _, _, _) =>
    case DoCreateRequest(jobId, approvalId, now) =>
      if jobId in p.jobs && approvalId !in p.approvals {
        AppendAudits(p, Serve(p, c), [ApprovalNotice(ApprovalRequested(p.jobs[jobId].id, approvalId))]);
      }
    case DoDecide(a, accept, decision, now) => ResolveAudits(p, a, accept, decision, now);
    case DoSchedule(jobId, inputType, d) => ScheduleAudits(p, jobId, inputType, None, d);
    case DoQueueRetry(jobId, d) =>
      if jobId in p.jobs { ScheduleAudits(p.(jobs := p.jobs[jobId := RetriedJob(p.jobs[jobId], d.now)]), jobId,
          "retry", Some(p.jobs[jobId].status), d); }
    case DoQueueResume(jobId, d) =>
      if jobId in p.jobs { ScheduleAudits(p.(jobs := p.jobs[jobId := ResumedJob(p.jobs[jobId], d.now)]), jobId,
          "resume", Some(p.jobs[jobId].status), d); }
    case DoDispatchPending(listed, relays, now) =>
      if |listed| == |relays| && IsListing(p, listed) { DispatchAudits(p, listed, relays, now); }
    case DoInput(jobId, approval, text, d) => InputAudits(p, jobId, approval, text, d);
    case DoExecute(jobId, now, relay) => ExecuteAudits(p, jobId, now, relay);
    case DoInterrupt(jobId, i) =>
      if Serve(p, c) != p { AppendAudits(p, Serve(p, c), [InterruptNotice(jobId)]); }
    case DoCompact(jobId, i) =>
      if Serve(p, c) != p { AppendAudits(p, Serve(p, c), [CompactNotice(jobId)]); }
    case DoPause(jobId, now) =>
      if jobId in p.jobs { AppendAudits(p, Serve(p, c), [GuardNotice(jobId)]); }
  }

  lemma ResolveAudits(p: Plane, a: string, accept: bool, decision: Option<string>, now: int)
    ensures Audits(ResolveApproval(p, a, accept, decision, now).0) == Audits(p)
  {
    var (q, outcome) := ResolveApproval(p, a, accept, decision, now);
    if outcome.Decided? {
      AppendAudits(p, q, [q.sessionEvents[|p.sessionEvents|]]);
    }
  }

  lemma InputAudits(p: Plane, jobId: string, approval: Option<string>, text: string, d: Dispatch)
    ensures Audits(ProvideInput(p, jobId, approval, text, d).0) == Audits(p)
  {
    if jobId in p.jobs {
      match approval
      case Some(a) =>
        ResolveAudits(p, a, true, Some(text), d.now);
        ScheduleAudits(ResolveApproval(p, a, true, Some(text), d.now).0, jobId, "approval_accept", None, d);
      case None =>
        var stored := p.(jobs := p.jobs[jobId := InputJob(p.jobs[jobId], d.now)],
            jobEvents := p.jobEvents + [InputReceived(jobId)]);
        ScheduleAudits(stored, jobId, "manual_input", None, d);
    }
  }

  lemma {:induction false} DispatchAudits(p: Plane, listed: seq<string>, relays: seq<Relay>, now: int)
    requires |listed| == |relays|
    ensures Audits(DispatchPending(p, listed, relays, now)) == Audits(p)
  {
    if listed != [] {
      var n := |listed| - 1;
      DispatchAudits(p, listed[..n], relays[..n], now);
      ExecuteAudits(DispatchPending(p, listed[..n], relays[..n], now), listed[n], now, relays[n]);
    }
  }

  /** Operator calls of a run that found their target and met no raising relay. */
  function AnsweredCalls(p: Plane, run: seq<Command>): nat
    decreases |run|
  {
    if run == [] then 0
    else
      (if IsOperator(run[0]) && TargetFound(p, run[0]) && !RelayRaisesIn(p, run[0]) then 1 else 0)
      + AnsweredCalls(Serve(p, run[0]), run[1..])
  }

  /** Over a whole run the audit trail has one event for each such call and no other. */
  lemma {:induction false} AuditTrailCountsCalls(p: Plane, run: seq<Command>)
    ensures Audits(ServeAll(p, run)) == Audits(p) + AnsweredCalls(p, run)
    decreases |run|
  {
    if run != [] {
      if IsOperator(run[0]) {
        OperatorActionsAudited(p, run[0]);
      } else {
        OtherCallsNotAudited(p, run[0]);
      }
      AuditTrailCountsCalls(Serve(p, run[0]), run[1..]);
    }
  }

  /** A relay that raises leaves a resumed job without an audit event. */
  lemma RelayRaisesUnaudited()
    ensures var p := ServeAll(EMPTY, [DoCreateJob("j", "s", "general", "agent", None, 1)]);
            var c := DoOperatorResume("j", Dispatch(2, None, true, RelayRaises));
            TargetFound(p, c) && ResultOf(p, c).RelayErrorRaised? && Serve(p, c).sessionEvents == [] && Serve(p, c) != p
  {
    var p := Serve(EMPTY, DoCreateJob("j", "s", "general", "agent", None, 1));
    assert ServeAll(p, []) == p;
    var c := DoOperatorResume("j", Dispatch(2, None, true, RelayRaises));
    assert |Serve(p, c).inputs| == 1;
  }

  // ------------------------------------------------------------------ repeated requests

  /** The first retry, with rules allowing and no runtime ready, leaves the job queued under its
      marker, whatever channel the rules moved it to; then any second retry changes nothing. */
  lemma SecondRetryChangesNothing(p: Plane, jobId: string, d: Dispatch, e: Dispatch)
    requires jobId in p.jobs && DispatchAllowed(d.policy) && !d.runtimeReady
    requires QueueRetry(p, jobId, d).1.StaysQueued?
    ensures QueueRetry(QueueRetry(p, jobId, d).0, jobId, e) == (QueueRetry(p, jobId, d).0, StaysQueued)
  {
  }

  lemma SecondResumeChangesNothing(p: Plane, jobId: string, d: Dispatch, e: Dispatch)
    requires jobId in p.jobs && DispatchAllowed(d.policy) && !d.runtimeReady
    requires QueueResume(p, jobId, d).1.StaysQueued?
    ensures QueueResume(QueueResume(p, jobId, d).0, jobId, e) == (QueueResume(p, jobId, d).0, StaysQueued)
  {
  }

  /** The status that a scheduled job is left with. */
  function StatusAfterDispatch(d: Dispatch): JobStatus {
    if !DispatchAllowed(d.policy) then InputRequired
    else if !d.runtimeReady || d.relay.RelayRaises? then JobQueued
    else if d.relay.GuardPauses? then PausedByLoopGuard
    else StatusOfTurn(d.relay.turn.status)
  }

  lemma ScheduleLeaves(p: Plane, jobId: string, inputType: string, previous: Option<JobStatus>, d: Dispatch)
    requires jobId in p.jobs && p.jobs[jobId].status.JobQueued?
    ensures var q := ScheduleJob(p, jobId, inputType, previous, d).0;
            && jobId in q.jobs && q.jobs[jobId].status == StatusAfterDispatch(d)
            && (StatusAfterDispatch(d).JobQueued? ==> q.jobs[jobId].turnStatus == p.jobs[jobId].turnStatus)
  {
  }

  lemma QueueAddsInput(p: Plane, jobId: string, d: Dispatch)
    requires jobId in p.jobs
    ensures QueueRetry(p, jobId, d).0 != p <==> p.jobs[jobId].status in RETRYABLE
    ensures QueueResume(p, jobId, d).0 != p <==>
            p.jobs[jobId].status in RESUMABLE && !IsDuplicateControlAction(p.jobs[jobId], RESUME_MARKER)
  {
    var job := p.jobs[jobId];
    if job.status in RETRYABLE {
      assert |QueueRetry(p, jobId, d).0.inputs| == |p.inputs| + 1;
    }
    if job.status in RESUMABLE && !IsDuplicateControlAction(job, RESUME_MARKER) {
      assert |QueueResume(p, jobId, d).0.inputs| == |p.inputs| + 1;
    }
  }

  /** A second retry is idle in every environment exactly when the first one was not stopped
      by the loop guard. */
  lemma SecondRetryExact(p: Plane, jobId: string, d: Dispatch)
    requires jobId in p.jobs && p.jobs[jobId].status in RETRYABLE
    ensures var q := QueueRetry(p, jobId, d).0;
            (forall e :: QueueRetry(q, jobId, e).0 == q) <==>
                !(DispatchAllowed(d.policy) && d.runtimeReady && d.relay.GuardPauses?)
  {
    var q := QueueRetry(p, jobId, d).0;
    ScheduleLeaves(p.(jobs := p.jobs[jobId := RetriedJob(p.jobs[jobId], d.now)]), jobId, "retry",
        Some(p.jobs[jobId].status), d);
    forall e ensures QueueRetry(q, jobId, e).0 != q <==> q.jobs[jobId].status in RETRYABLE {
      QueueAddsInput(q, jobId, e);
    }
    assert QueueRetry(q, jobId, d).0 == q || q.jobs[jobId].status in RETRYABLE;
  }

  /** A second resume is idle in every environment exactly when the first one ended neither
      held, nor paused, nor asking for input or authorisation. */
  lemma SecondResumeExact(p: Plane, jobId: string, d: Dispatch)
    requires jobId in p.jobs && p.jobs[jobId].status in RESUMABLE
        && !IsDuplicateControlAction(p.jobs[jobId], RESUME_MARKER)
    ensures var q := QueueResume(p, jobId, d).0;
            (forall e :: QueueResume(q, jobId, e).0 == q)
            <==> StatusAfterDispatch(d) !in {InputRequired, AuthRequired, PausedByLoopGuard}
  {
    var q := QueueResume(p, jobId, d).0;
    ScheduleLeaves(p.(jobs := p.jobs[jobId := ResumedJob(p.jobs[jobId], d.now)]), jobId, "resume",
        Some(p.jobs[jobId].status), d);
    forall e ensures QueueResume(q, jobId, e).0 != q <==>
                     q.jobs[jobId].status in RESUMABLE && !IsDuplicateControlAction(q.jobs[jobId], RESUME_MARKER) {
      QueueAddsInput(q, jobId, e);
    }
    assert QueueResume(q, jobId, d).0 == q || q.jobs[jobId].status in RESUMABLE;
  }

  /** It can: a job that the rules hold is resumable again, and each resume stores an input. */
  lemma SecondResumeCanActAgain()
    ensures var hold := Dispatch(0, Some(Policy(false, "general", None)), true, RelayRaises);
            var p := ServeAll(EMPTY, [DoCreateJob("j", "s", "general", "agent", None, 1), DoQueueResume("j", hold)]);
            "j" in p.jobs && |p.inputs| == 1 && |QueueResume(p, "j", hold).0.inputs| == 2
  {
    var hold := Dispatch(0, Some(Policy(false, "general", None)), true, RelayRaises);
    var c1, c2 := DoCreateJob("j", "s", "general", "agent", None, 1), DoQueueResume("j", hold);
    var p1 := Serve(EMPTY, c1);
    var p2 := Serve(p1, c2);
    assert ServeAll(p2, []) == p2;
    assert [c2][1..] == [] && ServeAll(p1, [c2]) == p2;
    assert [c1, c2][1..] == [c2];
  }

  /** A queued job remembers a request by its last turn status, which a compaction overwrites:
      the repeated resume, idle before, acts after it, and the repeated retry is refused. */
  lemma CompactionForgetsRequests(p: Plane, jobId: string, i: Interruption, d: Dispatch)
    requires jobId in p.jobs && CompactJob(p, jobId, i).1.RelayDone?
    ensures var q := CompactJob(p, jobId, i).0;
            && (IsDuplicateControlAction(p.jobs[jobId], RESUME_MARKER) ==>
                  QueueResume(p, jobId, d).0 == p && QueueResume(q, jobId, d).0 != q)
            && (IsDuplicateControlAction(p.jobs[jobId], RETRY_MARKER) ==>
                  QueueRetry(p, jobId, d) == (p, StaysQueued) && QueueRetry(q, jobId, d) == (q, InvalidState))
  {
    QueueAddsInput(CompactJob(p, jobId, i).0, jobId, d);
  }

  // ------------------------------------------------------------------ what a cancellation leaves

  /** A cancellation reported as applied leaves the job canceled, except that a running job
      whose last turn reads "interrupted" is taken for stopped and keeps running. */
  lemma AppliedCancelCancels(p: Plane, jobId: string, i: Interruption)
    requires OperatorCancel(p, jobId, i).1.ActionApplied?
    ensures jobId in p.jobs && jobId in OperatorCancel(p, jobId, i).0.jobs
    ensures OperatorCancel(p, jobId, i).0.jobs[jobId].status.JobCanceled?
            <==>
            !(p.jobs[jobId].status.JobRunning? && p.jobs[jobId].turnStatus == Some("interrupted") && !i.refsMissing)
  {
  }

  /** Such a job arises when the bridge starts a turn with the status "interrupted". */
  lemma CancelCanMissARunningJob()
    ensures var t := TurnBegins(Turn("interrupted", "r", "t", "u", "", false));
            var p := ServeAll(EMPTY, [DoCreateJob("j", "s", "general", "agent", None, 1), DoExecute("j", 2, t)]);
            var c := DoOperatorCancel("j", Interruption(3, false, None, BridgeAnswers));
            ResultOf(p, c).ActionApplied? && "j" in Serve(p, c).jobs && Serve(p, c).jobs["j"].status.JobRunning?
  {
    var t := TurnBegins(Turn("interrupted", "r", "t", "u", "", false));
    var c1, c2 := DoCreateJob("j", "s", "general", "agent", None, 1), DoExecute("j", 2, t);
    var p1 := Serve(EMPTY, c1);
    var p2 := Serve(p1, c2);
    assert ServeAll(p2, []) == p2;
    assert [c2][1..] == [] && ServeAll(p1, [c2]) == p2;
    assert [c1, c2][1..] == [c2];
  }
}
