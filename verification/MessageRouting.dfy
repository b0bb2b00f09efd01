/** Routing a stored message: mention rows, and one job per agent
    (app/services/message_routing.py, app/services/job_service.py). */
module MessageRouting {
  import opened Seqs
  import opened MentionScanner
  import opened MentionRouter

  datatype Message = Message(id: string, sessionId: string, channelKey: string, content: string)

  datatype MentionRow = MentionRow(messageId: string, agentId: string, text: string, order: nat)

  datatype JobRow = JobRow(
    id: string,
    sessionId: string,
    agentId: string,
    channelKey: string,
    instructions: string,
    sourceMessageId: string,
    runtimeId: Option<string>)

  /** Answers from the runtime services: the latest runtime of an agent and, when runtime
      pools are in use, the runtime that a pool would assign to it. */
  datatype Runtimes = Runtimes(latest: string -> Option<string>, pooled: Option<string -> Option<string>>)

  datatype Outcome = Outcome(detectedMentions: seq<string>, createdJobs: seq<string>)

  function AgentOf(r: ResolvedMention): string {
    r.agentId
  }

  function RowOf(message: Message, r: ResolvedMention): MentionRow {
    MentionRow(message.id, r.agentId, r.text, r.order)
  }

  function RowsFor(message: Message, mentions: seq<ResolvedMention>): (rows: seq<MentionRow>)
    ensures |rows| == |mentions|
  {
    seq(|mentions|, i requires 0 <= i < |mentions| => RowOf(message, mentions[i]))
  }

  function AgentsOfJobs(jobs: seq<JobRow>): (agents: seq<string>)
    ensures |agents| == |jobs|
  {
    seq(|jobs|, i requires 0 <= i < |jobs| => jobs[i].agentId)
  }

  function IdsOfJobs(jobs: seq<JobRow>): (ids: seq<string>)
    ensures |ids| == |jobs|
  {
    seq(|jobs|, i requires 0 <= i < |jobs| => jobs[i].id)
  }

  function OrElse(a: Option<string>, b: Option<string>): Option<string> {
    if a.Some? then a else b
  }

  /** The mention's own runtime, else the agent's latest, else the pool's. */
  function RuntimeFor(m: ResolvedMention, rt: Runtimes): Option<string> {
    var known := OrElse(m.runtimeId, rt.latest(m.agentId));
    if rt.pooled.Some? then OrElse(known, rt.pooled.value(m.agentId)) else known
  }

  /** The queued job for the first mention of an agent. */
  function JobFor(id: string, message: Message, channelKey: string, m: ResolvedMention, rt: Runtimes): JobRow {
    JobRow(id, message.sessionId, m.agentId, if channelKey != "" then channelKey else message.channelKey,
           message.content, message.id, RuntimeFor(m, rt))
  }

  /** The first mention of each agent, in order. */
  function Leading(mentions: seq<ResolvedMention>): seq<ResolvedMention> {
    if mentions == [] then []
    else
      var front := Leading(mentions[..|mentions| - 1]);
      var last := mentions[|mentions| - 1];
      if last.agentId in Map(mentions[..|mentions| - 1], AgentOf) then front else front + [last]
  }

  /** The jobs created, told from the leading mentions; ids are drawn in order. */
  ghost predicate AreJobsFor(jobs: seq<JobRow>, ids: nat -> string, message: Message, channelKey: string,
      mentions: seq<ResolvedMention>, rt: Runtimes) {
    var leading := Leading(mentions);
    |jobs| == |leading| && forall k :: 0 <= k < |jobs| ==>
        jobs[k] == JobFor(ids(k), message, channelKey, leading[k], rt)
  }

  lemma AgentsSnoc(mentions: seq<ResolvedMention>)
    requires mentions != []
    ensures Map(mentions, AgentOf) == Map(mentions[..|mentions| - 1], AgentOf) + [mentions[|mentions| - 1].agentId]
  {
  }

  /** Two modules de-duplicate on their own: the agents of the leading mentions are the first
      occurrences among all mentioned agents. */
  lemma {:induction false} LeadingAgents(mentions: seq<ResolvedMention>)
    ensures Map(Leading(mentions), AgentOf) == FirstOccurrences(Map(mentions, AgentOf))
  {
    if mentions != [] {
      var n := |mentions| - 1;
      LeadingAgents(mentions[..n]);
      AgentsSnoc(mentions);
      FirstOccurrencesMembers(Map(mentions[..n], AgentOf));
      assert Map(mentions, AgentOf)[..n] == Map(mentions[..n], AgentOf);
    }
  }

  class JobService {
    var jobs: seq<JobRow>

    constructor ()
      ensures jobs == []
    {
      jobs := [];
    }

    /** `create_jobs_for_mentions`: at most one job per mentioned agent. */
    method CreateJobsForMentions(message: Message, mentions: seq<ResolvedMention>, channelKey: string, rt: Runtimes,
        ids: nat -> string)
      returns (created: seq<JobRow>)
      modifies this
      ensures AreJobsFor(created, ids, message, channelKey, mentions, rt)
      ensures jobs == old(jobs) + created
    {
      created := [];
      var seenAgents: set<string> := {};
      for i := 0 to |mentions|
        invariant AreJobsFor(created, ids, message, channelKey, mentions[..i], rt)
        invariant forall a :: a in seenAgents <==> a in Map(mentions[..i], AgentOf)
        invariant jobs == old(jobs) + created
      {
        var m := mentions[i];
        assert mentions[..i + 1][..i] == mentions[..i];
        AgentsSnoc(mentions[..i + 1]);
        if m.agentId in seenAgents {
          continue;
        }
        var job := CreateJobForMention(ids(|created|), message, m, channelKey, rt);
        created := created + [job];
        seenAgents := seenAgents + {m.agentId};
      }
      assert mentions[..|mentions|] == mentions;
    }

    /** `create_job_for_mention` and `create_job_for_agent` */
    method CreateJobForMention(id: string, message: Message, m: ResolvedMention, channelKey: string, rt: Runtimes)
        returns (job: JobRow)
      modifies this
      ensures job == JobFor(id, message, channelKey, m, rt)
      ensures jobs == old(jobs) + [job]
    {
      var runtimeId := m.runtimeId;
      if runtimeId.None? {
        runtimeId := rt.latest(m.agentId);
      }
      if rt.pooled.Some? {
        var poolRuntime := rt.pooled.value(m.agentId);
        if runtimeId.None? {
          runtimeId := poolRuntime;
        }
      }
      job := JobRow(id, message.sessionId, m.agentId, if channelKey != "" then channelKey else message.channelKey,
                    message.content, message.id, runtimeId);
      jobs := jobs + [job];
    }
  }

  class MessageRoutingService {
    var mentionRows: seq<MentionRow>
    const jobService: JobService

    constructor (jobService: JobService)
      ensures this.jobService == jobService && mentionRows == []
    {
      this.jobService := jobService;
      mentionRows := [];
    }

    /** `preview`: a command message is not resolved, any other is scanned and resolved. */
    method Preview(u: CharTable, isWord: char -> bool, content: string, isCommand: bool,
        participants: seq<Participant>, agents: seq<Agent>)
      returns (mentions: seq<Mention>, plan: Plan)
      requires DistinctIds(participants)
      ensures AreMentions(content, isWord, mentions)
      ensures isCommand ==> plan == Routed([])
      ensures !isCommand && plan.Routed? ==>
        |plan.mentions| == |mentions|
        && forall k :: 0 <= k < |mentions| ==>
            ResolvesTo(u, AgentsById(agents), participants, mentions[k], plan.mentions[k])
      ensures plan.LookupFailed? ==>
        exists k :: 0 <= k < |mentions| && mentions[k] == plan.mention
            && FirstFailure(u, AgentsById(agents), participants, mentions, k)
    {
      mentions := ParseMentions(content, isWord);
      if isCommand {
        return mentions, Routed([]);
      }
      plan := ResolveMentions(u, mentions, participants, agents);
    }

    /** `apply`: the message's mention rows, then its jobs, then the outcome. */
    method Apply(message: Message, isCommand: bool, mentions: seq<ResolvedMention>, channelKey: string, rt: Runtimes,
        ids: nat -> string)
      returns (outcome: Outcome)
      modifies this, jobService
      ensures isCommand ==>
        && outcome == Outcome([], [])
        && mentionRows == old(mentionRows) && jobService.jobs == old(jobService.jobs)
      ensures !isCommand ==>
        && mentionRows == old(mentionRows) + RowsFor(message, mentions)
        && old(jobService.jobs) <= jobService.jobs
        && AreJobsFor(jobService.jobs[|old(jobService.jobs)|..], ids, message, channelKey, mentions, rt)
        && outcome.detectedMentions == FirstOccurrences(Map(mentions, AgentOf))
        && outcome.createdJobs == IdsOfJobs(jobService.jobs[|old(jobService.jobs)|..])
    {
      if isCommand {
        return Outcome([], []);
      }
      if mentions == [] {
        assert RowsFor(message, mentions) == [];
        return Outcome([], []);
      }
      for i := 0 to |mentions|
        invariant mentionRows == old(mentionRows) + RowsFor(message, mentions[..i])
        invariant jobService.jobs == old(jobService.jobs)
      {
        mentionRows := mentionRows + [RowOf(message, mentions[i])];
        assert RowsFor(message, mentions[..i + 1]) == RowsFor(message, mentions[..i]) + [RowOf(message, mentions[i])];
      }
      assert mentions[..|mentions|] == mentions;
      var created := jobService.CreateJobsForMentions(message, mentions, channelKey, rt, ids);
      assert jobService.jobs[|old(jobService.jobs)|..] == created;
      var detected: seq<string> := [];
      var seen: set<string> := {};
      for i := 0 to |mentions|
        invariant detected == FirstOccurrences(Map(mentions[..i], AgentOf))
        invariant forall a :: a in seen <==> a in detected
        invariant mentionRows == old(mentionRows) + RowsFor(message, mentions)
        invariant jobService.jobs == old(jobService.jobs) + created
      {
        AgentsSnoc(mentions[..i + 1]);
        assert mentions[..i + 1][..i] == mentions[..i];
        assert Map(mentions[..i + 1], AgentOf)[..i] == Map(mentions[..i], AgentOf);
        if mentions[i].agentId in seen {
          continue;
        }
        detected := detected + [mentions[i].agentId];
        seen := seen + {mentions[i].agentId};
      }
      outcome := Outcome(detected, IdsOfJobs(created));
    }
  }

  /** One job per mentioned agent and for no other; the jobs' agents, in order, are exactly the
      detected mentions; each job is that of its agent's first mention, and jobs stand in the
      order of these. */
  lemma JobsFollowDetectedMentions(jobs: seq<JobRow>, ids: nat -> string, message: Message, channelKey: string,
      mentions: seq<ResolvedMention>, rt: Runtimes)
    requires AreJobsFor(jobs, ids, message, channelKey, mentions, rt)
    ensures AgentsOfJobs(jobs) == FirstOccurrences(Map(mentions, AgentOf))
    ensures NoDuplicates(AgentsOfJobs(jobs))
    ensures forall j :: 0 <= j < |jobs| ==> Mentioned(mentions, jobs[j].agentId)
    ensures forall j :: 0 <= j < |jobs| ==>
              jobs[j] == JobFor(ids(j), message, channelKey, mentions[FirstMention(mentions, jobs[j].agentId)], rt)
    ensures forall i, j :: 0 <= i < j < |jobs| ==>
              FirstMention(mentions, jobs[i].agentId) < FirstMention(mentions, jobs[j].agentId)
  {
    LeadingAgents(mentions);
    assert AgentsOfJobs(jobs) == Map(Leading(mentions), AgentOf);
    FirstOccurrencesMembers(Map(mentions, AgentOf));
    forall j | 0 <= j < |jobs| ensures Mentioned(mentions, jobs[j].agentId) {
      assert AgentsOfJobs(jobs)[j] in FirstOccurrences(Map(mentions, AgentOf));
    }
    forall j | 0 <= j < |jobs|
      ensures jobs[j] == JobFor(ids(j), message, channelKey, mentions[FirstMention(mentions, jobs[j].agentId)], rt)
    {
      LeadingIsFirstMention(mentions, j);
    }
    forall i, j | 0 <= i < j < |jobs|
      ensures FirstMention(mentions, jobs[i].agentId) < FirstMention(mentions, jobs[j].agentId)
    {
      assert AgentsOfJobs(jobs)[i] == jobs[i].agentId && AgentsOfJobs(jobs)[j] == jobs[j].agentId;
      FirstOccurrencesOrder(Map(mentions, AgentOf), i, j);
    }
  }

  /** A job as its mention asks for it: queued in the channel of the routing, or else of the
      message, with the message's text, and on the mention's own runtime, or else the agent's
      latest, or else one of a pool. */
  lemma JobTellsItsMention(id: string, message: Message, channelKey: string, m: ResolvedMention, rt: Runtimes)
    ensures var job := JobFor(id, message, channelKey, m, rt);
            && job.id == id && job.sessionId == message.sessionId && job.agentId == m.agentId
            && job.instructions == message.content && job.sourceMessageId == message.id
            && (channelKey != "" ==> job.channelKey == channelKey)
            && (channelKey == "" ==> job.channelKey == message.channelKey)
            && (m.runtimeId.Some? ==> job.runtimeId == m.runtimeId)
            && (m.runtimeId.None? && rt.latest(m.agentId).Some? ==> job.runtimeId == rt.latest(m.agentId))
            && (m.runtimeId.None? && rt.latest(m.agentId).None? ==>
                  job.runtimeId == if rt.pooled.Some? then rt.pooled.value(m.agentId) else None)
  {
  }

  /** The mention rows name the message, and each mention's agent, text and order. */
  lemma MentionRowsTell(message: Message, mentions: seq<ResolvedMention>, k: nat)
    requires k < |mentions|
    ensures |RowsFor(message, mentions)| == |mentions|
    ensures RowsFor(message, mentions)[k]
        == MentionRow(message.id, mentions[k].agentId, mentions[k].text, mentions[k].order)
  {
  }

  predicate Mentioned(mentions: seq<ResolvedMention>, agentId: string) {
    agentId in Map(mentions, AgentOf)
  }

  /** The place of an agent's first mention. */
  function FirstMention(mentions: seq<ResolvedMention>, agentId: string): (i: nat)
    requires Mentioned(mentions, agentId)
    ensures i < |mentions| && mentions[i].agentId == agentId
  {
    IndexOf(Map(mentions, AgentOf), agentId)
  }

  lemma LeadingIsMentioned(mentions: seq<ResolvedMention>, k: nat)
    requires k < |Leading(mentions)|
    ensures Mentioned(mentions, Leading(mentions)[k].agentId)
  {
    LeadingAgents(mentions);
    FirstOccurrencesMembers(Map(mentions, AgentOf));
    assert Map(Leading(mentions), AgentOf)[k] in FirstOccurrences(Map(mentions, AgentOf));
  }

  lemma FirstMentionInFront(mentions: seq<ResolvedMention>, n: nat, a: string)
    requires n <= |mentions| && Mentioned(mentions[..n], a)
    ensures Mentioned(mentions, a) && FirstMention(mentions, a) == FirstMention(mentions[..n], a)
  {
    assert Map(mentions, AgentOf)[..n] == Map(mentions[..n], AgentOf);
    IndexOfPrefix(Map(mentions, AgentOf), n, a);
  }

  lemma NewAgentIsLast(mentions: seq<ResolvedMention>, n: nat)
    requires |mentions| == n + 1 && !Mentioned(mentions[..n], mentions[n].agentId)
    requires Mentioned(mentions, mentions[n].agentId)
    ensures FirstMention(mentions, mentions[n].agentId) == n
  {
    forall i | 0 <= i < n ensures mentions[i].agentId != mentions[n].agentId {
      assert Map(mentions[..n], AgentOf)[i] in Map(mentions[..n], AgentOf);
    }
  }

  /** Each leading mention is the first of its agent. */
  lemma {:induction false} LeadingIsFirstMention(mentions: seq<ResolvedMention>, k: nat)
    requires k < |Leading(mentions)| && Mentioned(mentions, Leading(mentions)[k].agentId)
    ensures Leading(mentions)[k] == mentions[FirstMention(mentions, Leading(mentions)[k].agentId)]
  {
    var n := |mentions| - 1;
    if k < |Leading(mentions[..n])| {
      LeadingIsMentioned(mentions[..n], k);
      LeadingIsFirstMention(mentions[..n], k);
      FirstMentionInFront(mentions, n, Leading(mentions)[k].agentId);
    } else {
      NewAgentIsLast(mentions, n);
    }
  }

  lemma ResolvedAgent(u: CharTable, byId: map<string, Agent>, ps: seq<Participant>, m: Mention, r: ResolvedMention,
      p: Participant)
    requires ResolvesTo(u, byId, ps, m, r) && Means(u, ParserToken(u, m.name), byId, ps, Resolved(p))
    ensures r.agentId == p.agentId
  {
    var q :| Means(u, ParserToken(u, m.name), byId, ps, Resolved(q)) && r.agentId == q.agentId;
    MeaningIsUnique(u, ParserToken(u, m.name), byId, ps, Resolved(p), Resolved(q));
  }

  /** Some position of the text starts a mention that means this agent. */
  ghost predicate MentionedInText(u: CharTable, isWord: char -> bool, content: string, byId: map<string, Agent>,
      ps: seq<Participant>, agentId: string) {
    exists m, p :: SpansMention(content, isWord, m) && Means(u, ParserToken(u, m.name), byId, ps, Resolved(p))
        && p.agentId == agentId
  }

  lemma JobMeansMention(u: CharTable, isWord: char -> bool, content: string, ms: seq<Mention>,
      byId: map<string, Agent>, ps: seq<Participant>, resolved: seq<ResolvedMention>, k: nat)
    requires AreMentions(content, isWord, ms) && k < |resolved| == |ms| && ResolvesTo(u, byId, ps, ms[k], resolved[k])
    ensures MentionedInText(u, isWord, content, byId, ps, resolved[k].agentId)
  {
    assert SpansMention(content, isWord, ms[k]);
  }

  lemma MentionMeansJob(u: CharTable, isWord: char -> bool, content: string, ms: seq<Mention>,
      byId: map<string, Agent>, ps: seq<Participant>, resolved: seq<ResolvedMention>, m: Mention, p: Participant)
      returns (k: nat)
    requires AreMentions(content, isWord, ms) && |resolved| == |ms|
    requires forall k :: 0 <= k < |ms| ==> ResolvesTo(u, byId, ps, ms[k], resolved[k])
    requires SpansMention(content, isWord, m) && Means(u, ParserToken(u, m.name), byId, ps, Resolved(p))
    ensures k < |resolved| && resolved[k].agentId == p.agentId
  {
    k := MentionListed(content, isWord, ms, m);
    ResolvedAgent(u, byId, ps, ms[k], resolved[k], p);
  }

  predicate HasJob(jobs: seq<JobRow>, agentId: string) {
    agentId in AgentsOfJobs(jobs)
  }

  lemma JobIffNamed(jobs: seq<JobRow>, ids: nat -> string, message: Message, channelKey: string,
      resolved: seq<ResolvedMention>, rt: Runtimes, agentId: string)
    requires AreJobsFor(jobs, ids, message, channelKey, resolved, rt)
    ensures HasJob(jobs, agentId) <==> Mentioned(resolved, agentId)
  {
    JobsFollowDetectedMentions(jobs, ids, message, channelKey, resolved, rt);
    FirstOccurrencesMembers(Map(resolved, AgentOf));
  }

  lemma NamedIffMentioned(u: CharTable, isWord: char -> bool, content: string, ms: seq<Mention>,
      byId: map<string, Agent>, ps: seq<Participant>, resolved: seq<ResolvedMention>, agentId: string)
    requires AreMentions(content, isWord, ms) && |resolved| == |ms|
    requires forall k :: 0 <= k < |ms| ==> ResolvesTo(u, byId, ps, ms[k], resolved[k])
    ensures Mentioned(resolved, agentId) <==> MentionedInText(u, isWord, content, byId, ps, agentId)
  {
    if Mentioned(resolved, agentId) {
      var k :| 0 <= k < |resolved| && resolved[k].agentId == agentId;
      JobMeansMention(u, isWord, content, ms, byId, ps, resolved, k);
    }
    if MentionedInText(u, isWord, content, byId, ps, agentId) {
      var m, p :| SpansMention(content, isWord, m) && Means(u, ParserToken(u, m.name), byId, ps, Resolved(p))
          && p.agentId == agentId;
      var k := MentionMeansJob(u, isWord, content, ms, byId, ps, resolved, m, p);
      assert Map(resolved, AgentOf)[k] == agentId;
    }
  }

  /** From text to jobs: when a message routes, an agent gets a job if and only if some
      position of the text starts a mention that means this agent. */
  lemma JobsComeFromTheText(u: CharTable, isWord: char -> bool, content: string, ms: seq<Mention>,
      byId: map<string, Agent>, ps: seq<Participant>, resolved: seq<ResolvedMention>, jobs: seq<JobRow>,
      ids: nat -> string, message: Message, channelKey: string, rt: Runtimes, agentId: string)
    requires AreMentions(content, isWord, ms) && |resolved| == |ms|
    requires forall k :: 0 <= k < |ms| ==> ResolvesTo(u, byId, ps, ms[k], resolved[k])
    requires AreJobsFor(jobs, ids, message, channelKey, resolved, rt)
    ensures HasJob(jobs, agentId) <==> MentionedInText(u, isWord, content, byId, ps, agentId)
  {
    JobIffNamed(jobs, ids, message, channelKey, resolved, rt, agentId);
    NamedIffMentioned(u, isWord, content, ms, byId, ps, resolved, agentId);
  }
}
