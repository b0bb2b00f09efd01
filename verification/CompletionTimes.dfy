/** When a job row's `completed_at` agrees with its status, and exactly which calls keep it so. */
module CompletionTimes {
  import opened Seqs
  import opened Jobs
  import opened ControlPlane
  import opened ControlPlaneRuns

  /** Work that is not over has no completion time; canceled and paused work has one. */
  predicate JobOk(job: Job) {
    && (job.status in {JobQueued, JobRunning, InputRequired, AuthRequired} ==> job.completedAt.None?)
    && (job.status in {JobCanceled, PausedByLoopGuard} ==> job.completedAt.Some?)
  }

  ghost predicate TimesOk(p: Plane) {
    forall id :: id in p.jobs ==> JobOk(p.jobs[id])
  }

  /** One job row is rewritten: the table is right afterwards exactly when the new row is. */
  lemma OneRow(p: Plane, q: Plane, id: string, job: Job)
    requires TimesOk(p) && q.jobs == p.jobs[id := job]
    ensures TimesOk(q) <==> JobOk(job)
  {
    assert q.jobs[id] == job;
  }

  predicate Open(p: Plane, jobId: string) {
    jobId in p.jobs ==> p.jobs[jobId].completedAt.None?
  }

  /** The job behind an approval that is still to be decided carries no completion time. */
  predicate DecisionOpen(p: Plane, approvalId: string) {
    approvalId in p.approvals && p.approvals[approvalId].status.ApprovalPending? ==>
        Open(p, p.approvals[approvalId].jobId)
  }

  /** Checkable before the call: the call does not put back to work a job that carries a
      completion time. */
  predicate Safe(p: Plane, c: Command) {
    match c
    case DoDecide(a, accept, _, _) => accept ==> DecisionOpen(p, a)
    case DoOperatorDecide(a, accept, _, _) => accept ==> DecisionOpen(p, a)
    case DoSchedule(jobId, _, _) => Open(p, jobId)
    case DoExecute(jobId, _, _) => Open(p, jobId)
    case DoInput(jobId, Some(a), _, _) =>
      jobId in p.jobs && a in p.approvals && p.approvals[a].status.ApprovalPending? ==>
        DecisionOpen(p, a) && (p.approvals[a].jobId in p.jobs ==> Open(p, jobId))
    case _ => true
  }

  // ------------------------------------------------------------------ one row at a time

  lemma AcceptedRow(job: Job, now: int)
    requires JobOk(job)
    ensures JobOk(AcceptedJob(job, now)) <==> job.completedAt.None?
  {
  }

  /** What a decision means for its job: an accepted one goes back to work, to the queue if it
      waited for input, with whatever completion time it carried; a declined one is over now.
      No other job is touched. */
  lemma DecisionRow(p: Plane, a: string, accept: bool, decision: Option<string>, now: int)
    requires a in p.approvals && p.approvals[a].status.ApprovalPending? && p.approvals[a].jobId in p.jobs
    ensures var q, id := ResolveApproval(p, a, accept, decision, now).0, p.approvals[a].jobId;
            && q.jobs.Keys == p.jobs.Keys && (forall k :: k in p.jobs && k != id ==> q.jobs[k] == p.jobs[k])
            && (accept ==>
                  && q.jobs[id].status in {JobQueued, JobRunning}
                      && (q.jobs[id].status.JobQueued? <==> p.jobs[id].status.InputRequired?)
                  && q.jobs[id].completedAt == p.jobs[id].completedAt
                  && (JobOk(p.jobs[id]) ==> (JobOk(q.jobs[id]) <==> p.jobs[id].completedAt.None?)))
            && (!accept ==> q.jobs[id].status.JobCanceled? && q.jobs[id].completedAt == Some(now) && JobOk(q.jobs[id]))
  {
    var job := p.jobs[p.approvals[a].jobId];
    if JobOk(job) { AcceptedRow(job, now); }
  }

  lemma ExecuteTimes(p: Plane, jobId: string, now: int, relay: Relay)
    requires TimesOk(p) && jobId in p.jobs
    ensures var q := ExecuteJob(p, jobId, now, relay).0;
            && (TimesOk(q) <==> (p.jobs[jobId].completedAt.None? || !relay.TurnBegins?
                || relay.turn.status == "completed"))
            && q.jobs.Keys == p.jobs.Keys
            && (forall id :: id in p.jobs && id != jobId ==> q.jobs[id] == p.jobs[id])
  {
    var q := ExecuteJob(p, jobId, now, relay).0;
    match relay
    case RelayRaises =>
    case GuardPauses => OneRow(p, q, jobId, PausedJob(p.jobs[jobId], now));
    case TurnBegins(t) => OneRow(p, q, jobId, TurnJob(p.jobs[jobId], t, now));
  }

  const ANY_TURN := Turn("running", "", "", "", "", false)

  lemma ExecuteExact(p: Plane, jobId: string)
    requires TimesOk(p)
    ensures (forall now, relay :: TimesOk(ExecuteJob(p, jobId, now, relay).0)) <==> Open(p, jobId)
  {
    if jobId in p.jobs {
      forall now, relay
        ensures TimesOk(ExecuteJob(p, jobId, now, relay).0)
             <==> (p.jobs[jobId].completedAt.None? || !relay.TurnBegins? || relay.turn.status == "completed")
      {
        ExecuteTimes(p, jobId, now, relay);
      }
      if !Open(p, jobId) {
        assert !TimesOk(ExecuteJob(p, jobId, 0, TurnBegins(ANY_TURN)).0);
      }
    }
  }

  lemma ResolveTimes(p: Plane, a: string, accept: bool, decision: Option<string>, now: int)
    requires TimesOk(p)
    ensures TimesOk(ResolveApproval(p, a, accept, decision, now).0) <==> (accept ==> DecisionOpen(p, a))
  {
    var (q, outcome) := ResolveApproval(p, a, accept, decision, now);
    if outcome.Decided? {
      var jobId := p.approvals[a].jobId;
      var job := p.jobs[jobId];
      AcceptedRow(job, now);
      OneRow(p, q, jobId, if accept then AcceptedJob(job, now) else DeclinedJob(job, now));
    }
  }

  /** Scheduling, when the job carries no completion time, whatever the rules and the relay do. */
  lemma ScheduleTimes(p: Plane, jobId: string, inputType: string, previous: Option<JobStatus>, d: Dispatch)
    requires TimesOk(p) && Open(p, jobId)
    ensures TimesOk(ScheduleJob(p, jobId, inputType, previous, d).0)
  {
    if jobId in p.jobs {
      var job := ChannelledJob(p.jobs[jobId], d.policy);
      var channelled := p.(inputs := p.inputs + [JobInput(jobId, inputType, previous)], jobs := p.jobs[jobId := job]);
      OneRow(p, channelled, jobId, job);
      if !DispatchAllowed(d.policy) {
        OneRow(channelled, ScheduleJob(p, jobId, inputType, previous, d).0, jobId, HeldJob(job, d.policy.value, d.now));
      } else if d.runtimeReady {
        ExecuteTimes(channelled, jobId, d.now, d.relay);
      }
    }
  }

  const HOLD := Dispatch(0, Some(Policy(false, "general", None)), false, RelayRaises)

  /** Holding a job that carries a completion time always breaks the agreement. */
  lemma HoldBreaks(p: Plane, jobId: string, inputType: string, previous: Option<JobStatus>)
    requires TimesOk(p) && !Open(p, jobId)
    ensures !TimesOk(ScheduleJob(p, jobId, inputType, previous, HOLD).0)
  {
    var q := ScheduleJob(p, jobId, inputType, previous, HOLD).0;
    OneRow(p, q, jobId, HeldJob(ChannelledJob(p.jobs[jobId], HOLD.policy), HOLD.policy.value, 0));
  }

  lemma RewriteTimes(p: Plane, job: Job, inputType: string, previous: Option<JobStatus>, d: Dispatch)
    requires TimesOk(p) && JobOk(job) && job.completedAt.None?
    ensures TimesOk(ScheduleJob(p.(jobs := p.jobs[job.id := job]), job.id, inputType, previous, d).0)
  {
    OneRow(p, p.(jobs := p.jobs[job.id := job]), job.id, job);
    ScheduleTimes(p.(jobs := p.jobs[job.id := job]), job.id, inputType, previous, d);
  }

  /** Rows stand under their own ids. */
  ghost predicate Keyed(p: Plane) {
    forall id :: id in p.jobs ==> p.jobs[id].id == id
  }

  lemma QueueTimes(p: Plane, jobId: string, d: Dispatch)
    requires TimesOk(p) && Keyed(p)
    ensures TimesOk(QueueRetry(p, jobId, d).0) && TimesOk(QueueResume(p, jobId, d).0)
  {
    if jobId in p.jobs {
      var job := p.jobs[jobId];
      RewriteTimes(p, RetriedJob(job, d.now), "retry", Some(job.status), d);
      RewriteTimes(p, ResumedJob(job, d.now), "resume", Some(job.status), d);
    }
  }

  lemma InputTimes(p: Plane, jobId: string, text: string, d: Dispatch)
    requires TimesOk(p)
    ensures TimesOk(ProvideInput(p, jobId, None, text, d).0)
  {
    if jobId in p.jobs {
      var job := p.jobs[jobId];
      var stored := p.(jobs := p.jobs[jobId := InputJob(job, d.now)],
          jobEvents := p.jobEvents + [InputReceived(jobId)]);
      OneRow(p, stored, jobId, InputJob(job, d.now));
      if AwaitsInput(job.status) {
        ScheduleTimes(stored, jobId, "manual_input", None, d);
      }
    }
  }

  lemma AcceptInputTimes(p: Plane, jobId: string, a: string, text: string, d: Dispatch)
    requires TimesOk(p) && Safe(p, DoInput(jobId, Some(a), text, d))
    ensures TimesOk(ProvideInput(p, jobId, Some(a), text, d).0)
  {
    if jobId in p.jobs {
      var (accepted, decision) := ResolveApproval(p, a, true, Some(text), d.now);
      ResolveTimes(p, a, true, Some(text), d.now);
      if decision.Decided? {
        ScheduleTimes(accepted, jobId, "approval_accept", None, d);
      }
    }
  }

  lemma {:induction false} DispatchPendingTimes(p: Plane, listed: seq<string>, relays: seq<Relay>, now: int)
    requires TimesOk(p) && |listed| == |relays| && IsListing(p, listed)
    ensures var q := DispatchPending(p, listed, relays, now);
            && TimesOk(q) && q.jobs.Keys == p.jobs.Keys
            && (forall id :: id in p.jobs && id !in listed ==> q.jobs[id] == p.jobs[id])
  {
    if listed != [] {
      var n := |listed| - 1;
      assert listed == listed[..n] + [listed[n]];
      DispatchPendingTimes(p, listed[..n], relays[..n], now);
      assert listed[n] !in listed[..n];
      ExecuteTimes(DispatchPending(p, listed[..n], relays[..n], now), listed[n], now, relays[n]);
    }
  }

  lemma InterruptTimes(p: Plane, jobId: string, i: Interruption)
    requires TimesOk(p)
    ensures TimesOk(InterruptJob(p, jobId, i).0)
  {
  }

  lemma CompactTimes(p: Plane, jobId: string, i: Interruption)
    requires TimesOk(p)
    ensures TimesOk(CompactJob(p, jobId, i).0)
  {
  }

  lemma OperatorTimes(p: Plane, c: Command)
    requires TimesOk(p) && Keyed(p) && Safe(p, c)
    requires c.DoOperatorRetry? || c.DoOperatorResume? || c.DoOperatorCancel? || c.DoOperatorDecide?
    ensures TimesOk(Serve(p, c))
  {
    match c
    case DoOperatorRetry(jobId, d) => QueueTimes(p, jobId, d);
    case DoOperatorResume(jobId, d) => QueueTimes(p, jobId, d);
    case DoOperatorCancel(jobId, i) =>
      InterruptTimes(p, jobId, i);
      if jobId in p.jobs {
        OneRow(p, p.(jobs := p.jobs[jobId := DirectlyCanceledJob(p.jobs[jobId], i.now)]), jobId,
            DirectlyCanceledJob(p.jobs[jobId], i.now));
      }
    case DoOperatorDecide(a, accept, decision, now) => ResolveTimes(p, a, accept, decision, now);
  }

  /** Every safe call keeps the agreement, whatever its environment answers. */
  lemma SafeCallsKeepTimes(p: Plane, c: Command)
    requires TimesOk(p) && Keyed(p) && Safe(p, c)
    ensures TimesOk(Serve(p, c))
  {
    match c
    case DoDecide(a, accept, decision, now) => ResolveTimes(p, a, accept, decision, now);
    case DoSchedule(jobId, inputType, d) => ScheduleTimes(p, jobId, inputType, None, d);
    case DoQueueRetry(jobId, d) => QueueTimes(p, jobId, d);
    case DoQueueResume(jobId, d) => QueueTimes(p, jobId, d);
    case DoDispatchPending(listed, relays, now) =>
      if |listed| == |relays| && IsListing(p, listed) { DispatchPendingTimes(p, listed, relays, now); }
    case DoInput(jobId, Some(a), text, d) => AcceptInputTimes(p, jobId, a, text, d);
    case DoInput(jobId, None, text, d) => InputTimes(p, jobId, text, d);
    case DoExecute(jobId, now, relay) => ExecuteExact(p, jobId);
    case DoInterrupt(jobId, i) => InterruptTimes(p, jobId, i);
    case DoCompact(jobId, i) => CompactTimes(p, jobId, i);
    case DoCreateJob(_, _, _, _, _, _) =>
    case DoCreateRequest(_, _, _) =>
    case DoPause(_, _) =>
    case _ => OperatorTimes(p, c);
  }

  // ------------------------------------------------------------------ exactness

  /** The same call: only the answers of rules, runtimes, relay and clock may differ. */
  predicate SameCall(c: Command, e: Command) {
    match (c, e)
    case (DoSchedule(j, t, _), DoSchedule(j', t', _)) => j == j' && t == t'
    case (DoExecute(j, _, _), DoExecute(j', _, _)) => j == j'
    case (DoInput(j, a, t, _), DoInput(j', a', t', _)) => j == j' && a == a' && t == t'
    case _ => c == e
  }

  lemma SameCallSameSafety(p: Plane, c: Command, e: Command)
    requires SameCall(c, e)
    ensures Safe(p, c) == Safe(p, e)
  {
  }

  /** An unsafe call has an environment in which it breaks the agreement. */
  lemma UnsafeCallsBreakTimes(p: Plane, c: Command) returns (e: Command)
    requires TimesOk(p) && !Safe(p, c)
    ensures SameCall(c, e) && !TimesOk(Serve(p, e))
  {
    match c
    case DoDecide(a, accept, decision, now) =>
      ResolveTimes(p, a, accept, decision, now);
      e := c;
    case DoOperatorDecide(a, accept, decision, now) =>
      ResolveTimes(p, a, accept, decision, now);
      e := c;
    case DoSchedule(jobId, inputType, _) =>
      HoldBreaks(p, jobId, inputType, None);
      e := DoSchedule(jobId, inputType, HOLD);
    case DoExecute(jobId, _, _) =>
      ExecuteTimes(p, jobId, 0, TurnBegins(ANY_TURN));
      e := DoExecute(jobId, 0, TurnBegins(ANY_TURN));
    case DoInput(jobId, Some(a), text, _) =>
      e := DoInput(jobId, Some(a), text, HOLD);
      AcceptInputBreaks(p, jobId, a, text);
  }

  lemma AcceptInputBreaks(p: Plane, jobId: string, a: string, text: string)
    requires TimesOk(p) && !Safe(p, DoInput(jobId, Some(a), text, HOLD))
    ensures !TimesOk(ProvideInput(p, jobId, Some(a), text, HOLD).0)
  {
    var owner := p.approvals[a].jobId;
    var (accepted, decision) := ResolveApproval(p, a, true, Some(text), 0);
    ResolveTimes(p, a, true, Some(text), 0);
    var q := ProvideInput(p, jobId, Some(a), text, HOLD).0;
    if DecisionOpen(p, a) {
      HoldBreaks(accepted, jobId, "approval_accept", None);
    } else {
      assert !JobOk(accepted.jobs[owner]) && accepted.jobs[owner].completedAt.Some?;
      assert q.jobs[owner] == if owner == jobId then q.jobs[jobId] else accepted.jobs[owner];
      assert q.jobs[jobId].status.InputRequired? && q.jobs[jobId].completedAt == accepted.jobs[jobId].completedAt;
    }
  }

  /** A call keeps the agreement whatever its environment answers if and only if it is safe:
      it neither accepts for, nor schedules, nor executes a job that carries a completion
      time. */
  lemma SafetyIsExact(p: Plane, c: Command)
    requires TimesOk(p) && Keyed(p)
    ensures Safe(p, c) <==> forall e :: SameCall(c, e) ==> TimesOk(Serve(p, e))
  {
    if Safe(p, c) {
      forall e | SameCall(c, e) ensures TimesOk(Serve(p, e)) {
        SameCallSameSafety(p, c, e);
        SafeCallsKeepTimes(p, e);
      }
    } else {
      var e := UnsafeCallsBreakTimes(p, c);
    }
  }

  // ------------------------------------------------------------------ whole runs

  predicate SafeRun(p: Plane, run: seq<Command>)
    decreases |run|
  {
    run == [] || (Safe(p, run[0]) && SafeRun(Serve(p, run[0]), run[1..]))
  }

  lemma {:induction false} RunKeepsTimes(p: Plane, run: seq<Command>)
    requires TimesOk(p) && ApprovalsOk(p) && SafeRun(p, run)
    ensures TimesOk(ServeAll(p, run))
    decreases |run|
  {
    if run != [] {
      SafeCallsKeepTimes(p, run[0]);
      ServeKeeps(p, run[0]);
      RunKeepsTimes(Serve(p, run[0]), run[1..]);
    }
  }

  /** In every run of safe calls, with any rules, runtimes and bridge, completion times agree
      with statuses. */
  lemma CompletionTimesAgree(run: seq<Command>)
    requires SafeRun(EMPTY, run)
    ensures TimesOk(ServeAll(EMPTY, run))
  {
    RunKeepsTimes(EMPTY, run);
  }

  /** Leaving out canceled and paused jobs is not enough: a job that completes while its
      approval is pending is put back to running, completion time and all. */
  lemma AcceptingForACompletedJob()
    ensures var done := TurnBegins(Turn("completed", "r", "t", "u", "", false));
            var p := ServeAll(EMPTY, [DoCreateJob("j", "s", "general", "agent", None, 1),
                DoCreateRequest("j", "a", 2), DoExecute("j", 3, done)]);
            var q := Serve(p, DoDecide("a", true, None, 4));
            && TimesOk(p) && "j" in p.jobs && p.jobs["j"].status.JobCompleted?
            && "j" in q.jobs && q.jobs["j"].status.JobRunning? && q.jobs["j"].completedAt == Some(3)
  {
    var done := TurnBegins(Turn("completed", "r", "t", "u", "", false));
    var c1, c2, c3 := DoCreateJob("j", "s", "general", "agent", None, 1), DoCreateRequest("j", "a", 2),
        DoExecute("j", 3, done);
    var p1 := Serve(EMPTY, c1);
    var p2 := Serve(p1, c2);
    var p3 := Serve(p2, c3);
    assert ServeAll(p3, []) == p3;
    assert [c3][1..] == [] && ServeAll(p2, [c3]) == p3;
    assert [c2, c3][1..] == [c3] && ServeAll(p1, [c2, c3]) == p3;
    assert [c1, c2, c3][1..] == [c2, c3];
  }
}
