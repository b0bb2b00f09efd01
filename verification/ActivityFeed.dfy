/** The operator activity feed of a session and its paging
    (app/services/operator_realtime.py). */
module ActivityFeed {
  import opened Seqs
  import opened Text

  /** `_sort_key`: (created_at, source rank, entity id, event type). */
  datatype SortKey = SortKey(createdAt: string, rank: nat, entityId: string, eventType: string)

  /** `sourceId` is the row from which the draft was built; `detail` stands for its own texts. */
  datatype Draft = Draft(key: SortKey, sourceId: string, detail: string, phaseKey: Option<string>,
      poolKey: Option<string>)

  predicate KeyLess(a: SortKey, b: SortKey) {
    || Less(a.createdAt, b.createdAt)
    || (a.createdAt == b.createdAt
        && (a.rank < b.rank || (a.rank == b.rank
            && Before(Stamp(a.entityId, a.eventType), Stamp(b.entityId, b.eventType)))))
  }

  predicate DraftLe(a: Draft, b: Draft) {
    !KeyLess(b.key, a.key)
  }

  lemma KeyLessTotal(a: SortKey, b: SortKey)
    ensures a == b || KeyLess(a, b) || KeyLess(b, a)
  {
    LessTotal(a.createdAt, b.createdAt);
    BeforeTotal(Stamp(a.entityId, a.eventType), Stamp(b.entityId, b.eventType));
  }

  lemma KeyLessAsymmetric(a: SortKey, b: SortKey)
    requires KeyLess(a, b)
    ensures !KeyLess(b, a)
  {
    if Less(a.createdAt, b.createdAt) {
      LessAsymmetric(a.createdAt, b.createdAt);
    } else {
      NotLessItself(a.createdAt);
      if a.rank == b.rank {
        BeforeAsymmetric(Stamp(a.entityId, a.eventType), Stamp(b.entityId, b.eventType));
      }
    }
  }

  lemma KeyLessTransitive(a: SortKey, b: SortKey, c: SortKey)
    requires KeyLess(a, b) && KeyLess(b, c)
    ensures KeyLess(a, c)
  {
    if Less(a.createdAt, b.createdAt) && Less(b.createdAt, c.createdAt) {
      LessTransitive(a.createdAt, b.createdAt, c.createdAt);
    } else if a.createdAt == b.createdAt == c.createdAt && a.rank == b.rank == c.rank {
      BeforeTransitive(Stamp(a.entityId, a.eventType), Stamp(b.entityId, b.eventType), Stamp(c.entityId, c.eventType));
    }
  }

  lemma DraftOrder()
    ensures TotalPreorder(DraftLe)
  {
    forall x, y ensures DraftLe(x, y) || DraftLe(y, x) {
      if KeyLess(x.key, y.key) { KeyLessAsymmetric(x.key, y.key); }
    }
    forall x, y, z | DraftLe(x, y) && DraftLe(y, z) ensures DraftLe(x, z) {
      if KeyLess(z.key, x.key) {
        KeyLessTotal(x.key, y.key);
        KeyLessTotal(y.key, z.key);
        if KeyLess(x.key, y.key) { KeyLessTransitive(z.key, x.key, y.key); }
      }
    }
  }

  // ------------------------------------------------------------------ building the feed

  datatype SessionEventRow = SessionEventRow(
    id: string,
    eventType: string,
    createdAt: string,
    detail: string,
    jobId: Option<string>,
    approvalId: Option<string>,
    messageId: Option<string>,
    reviewId: Option<string>,
    phaseKey: Option<string>,
    poolKey: Option<string>)

  datatype JobEventRow = JobEventRow(id: string, jobId: string, eventType: string, createdAt: string, detail: string)
  datatype JobRow = JobRow(id: string, createdAt: string, detail: string)
  datatype PhaseRow = PhaseRow(id: string, phaseKey: string, updatedAt: string, detail: string)
  datatype MessageRow = MessageRow(id: string, createdAt: string, detail: string)

  /** What `get_session_activity` reads; `poolKeys` is `_job_runtime_pool_key_map`. */
  datatype Sources = Sources(sessionEvents: seq<SessionEventRow>, jobEvents: seq<JobEventRow>, jobs: seq<JobRow>,
                             phases: seq<PhaseRow>, activePhaseId: Option<string>, messages: seq<MessageRow>,
                             poolKeys: map<string, Option<string>>)

  /** The keys that drafts of a job are given: `job_phase_key_by_id` and `job_runtime_pool_key_by_id`. */
  datatype Keys = Keys(phaseOf: map<string, Option<string>>, poolOf: map<string, Option<string>>)

  function Get(m: map<string, Option<string>>, k: string): Option<string> {
    if k in m then m[k] else None
  }

  function IsActive(activePhaseId: Option<string>): PhaseRow -> bool {
    (p: PhaseRow) => Some(p.id) == activePhaseId
  }

  /** The key of the first phase that is the active one. */
  function ActivePhaseKey(s: Sources): Option<string> {
    var active := Filter(s.phases, IsActive(s.activePhaseId));
    if active == [] then None else Some(active[0].phaseKey)
  }

  /** `_job_phase_key_map`: every job of the session is in its active phase. */
  function JobPhaseKeys(jobs: seq<JobRow>, phaseKey: Option<string>): map<string, Option<string>> {
    if jobs == [] then map[] else JobPhaseKeys(jobs[..|jobs| - 1], phaseKey)[jobs[|jobs| - 1].id := phaseKey]
  }

  function KeysOf(s: Sources): Keys {
    Keys(JobPhaseKeys(s.jobs, ActivePhaseKey(s)), s.poolKeys)
  }

  function Or(a: Option<string>, b: string): string {
    if a.Some? && a.value != "" then a.value else b
  }

  /** An event's own key, else that of its job. */
  function OwnOr(own: Option<string>, m: map<string, Option<string>>, jobId: Option<string>): Option<string> {
    if own.None? && jobId.Some? then Get(m, jobId.value) else own
  }

  function SessionEventDraft(k: Keys): SessionEventRow -> Draft {
    (e: SessionEventRow) =>
      var entity := Or(e.jobId, Or(e.approvalId, Or(e.messageId, Or(e.reviewId, e.id))));
      Draft(SortKey(e.createdAt, 0, entity, e.eventType), e.id, e.detail,
            OwnOr(e.phaseKey, k.phaseOf, e.jobId), OwnOr(e.poolKey, k.poolOf, e.jobId))
  }

  function JobEventDraft(k: Keys): JobEventRow -> Draft {
    (e: JobEventRow) => Draft(SortKey(e.createdAt, 1, e.jobId, e.eventType), e.id, e.detail, Get(k.phaseOf, e.jobId),
        Get(k.poolOf, e.jobId))
  }

  function JobDraft(k: Keys): JobRow -> Draft {
    (j: JobRow) => Draft(SortKey(j.createdAt, 2, j.id, "job.created"), j.id, j.detail, Get(k.phaseOf, j.id),
        Get(k.poolOf, j.id))
  }

  function PhaseDraft(p: PhaseRow): Draft {
    Draft(SortKey(p.updatedAt, 3, p.id, "phase.active"), p.id, p.detail, Some(p.phaseKey), None)
  }

  function MessageDraft(m: MessageRow): Draft {
    Draft(SortKey(m.createdAt, 0, m.id, "message.created"), m.id, m.detail, None, None)
  }

  /** All drafts in the order in which the builders gather them. */
  function Gathered(s: Sources): seq<Draft> {
    Map(s.sessionEvents, SessionEventDraft(KeysOf(s))) + Map(s.jobEvents, JobEventDraft(KeysOf(s)))
        + Map(s.jobs, JobDraft(KeysOf(s)))
    + Map(Filter(s.phases, IsActive(s.activePhaseId)), PhaseDraft) + Map(s.messages, MessageDraft)
  }

  function FeedOf(s: Sources): seq<Draft> {
    StableSort(Gathered(s), DraftLe)
  }

  method BuildSessionEventDrafts(events: seq<SessionEventRow>, k: Keys) returns (drafts: seq<Draft>)
    ensures drafts == Map(events, SessionEventDraft(k))
  {
    drafts := [];
    for i := 0 to |events|
      invariant drafts == Map(events[..i], SessionEventDraft(k))
    {
      drafts := drafts + [SessionEventDraft(k)(events[i])];
    }
  }

  method BuildJobEventDrafts(events: seq<JobEventRow>, k: Keys) returns (drafts: seq<Draft>)
    ensures drafts == Map(events, JobEventDraft(k))
  {
    drafts := [];
    for i := 0 to |events|
      invariant drafts == Map(events[..i], JobEventDraft(k))
    {
      drafts := drafts + [JobEventDraft(k)(events[i])];
    }
  }

  method BuildJobSnapshotDrafts(jobs: seq<JobRow>, k: Keys) returns (drafts: seq<Draft>)
    ensures drafts == Map(jobs, JobDraft(k))
  {
    drafts := [];
    for i := 0 to |jobs|
      invariant drafts == Map(jobs[..i], JobDraft(k))
    {
      drafts := drafts + [JobDraft(k)(jobs[i])];
    }
  }

  lemma ActiveSnoc(phases: seq<PhaseRow>, i: nat, activePhaseId: Option<string>)
    requires i < |phases|
    ensures var before := Map(Filter(phases[..i], IsActive(activePhaseId)), PhaseDraft);
            Map(Filter(phases[..i + 1], IsActive(activePhaseId)), PhaseDraft)
            == if IsActive(activePhaseId)(phases[i]) then before + [PhaseDraft(phases[i])] else before
  {
    FilterSnoc(phases, i, IsActive(activePhaseId));
    MapSnoc(Filter(phases[..i], IsActive(activePhaseId)), phases[i], PhaseDraft);
  }

  method BuildPhaseSnapshotDrafts(phases: seq<PhaseRow>, activePhaseId: Option<string>) returns (drafts: seq<Draft>)
    ensures drafts == Map(Filter(phases, IsActive(activePhaseId)), PhaseDraft)
  {
    drafts := [];
    for i := 0 to |phases|
      invariant drafts == Map(Filter(phases[..i], IsActive(activePhaseId)), PhaseDraft)
    {
      ActiveSnoc(phases, i, activePhaseId);
      if Some(phases[i].id) != activePhaseId {
        continue;
      }
      drafts := drafts + [PhaseDraft(phases[i])];
    }
    assert phases[..|phases|] == phases;
  }

  method BuildMessageSnapshotDrafts(messages: seq<MessageRow>) returns (drafts: seq<Draft>)
    ensures drafts == Map(messages, MessageDraft)
  {
    drafts := [];
    for i := 0 to |messages|
      invariant drafts == Map(messages[..i], MessageDraft)
    {
      drafts := drafts + [MessageDraft(messages[i])];
    }
  }

  /** `_build_activity_drafts` */
  method BuildActivityDrafts(s: Sources) returns (drafts: seq<Draft>)
    ensures drafts == FeedOf(s)
    ensures SortedBy(drafts, DraftLe) && multiset(drafts) == multiset(Gathered(s))
  {
    var sessionEvents := BuildSessionEventDrafts(s.sessionEvents, KeysOf(s));
    var jobEvents := BuildJobEventDrafts(s.jobEvents, KeysOf(s));
    var jobs := BuildJobSnapshotDrafts(s.jobs, KeysOf(s));
    var phases := BuildPhaseSnapshotDrafts(s.phases, s.activePhaseId);
    var messages := BuildMessageSnapshotDrafts(s.messages);
    drafts := StableSort(sessionEvents + jobEvents + jobs + phases + messages, DraftLe);
    FeedIsSorted(s);
  }

  lemma FeedIsSorted(s: Sources)
    ensures SortedBy(FeedOf(s), DraftLe) && multiset(FeedOf(s)) == multiset(Gathered(s))
  {
    DraftOrder();
    SortSorted(Gathered(s), DraftLe);
    SortContents(Gathered(s), DraftLe);
  }

  // What the feed shows, told from the rows.

  /** The key of the first phase row that is the session's active one. */
  ghost predicate IsActiveKey(s: Sources, key: string) {
    exists i :: 0 <= i < |s.phases| && s.activePhaseId == Some(s.phases[i].id) && s.phases[i].phaseKey == key
                && forall k :: 0 <= k < i ==> s.activePhaseId != Some(s.phases[k].id)
  }

  /** A draft of one of the session's jobs is given the active phase; of any other job, none. */
  ghost predicate PhaseOfJob(s: Sources, jobId: string, phaseKey: Option<string>) {
    if exists j :: j in s.jobs && j.id == jobId then forall key :: phaseKey == Some(key) <==> IsActiveKey(s, key)
    else phaseKey.None?
  }

  function PoolOfJob(s: Sources, jobId: string): Option<string> {
    if jobId in s.poolKeys then s.poolKeys[jobId] else None
  }

  predicate IsText(text: Option<string>) {
    text.Some? && text.value != ""
  }

  /** The first of the ids that an event names, or else its own. */
  function EntityOf(e: SessionEventRow): string {
    if IsText(e.jobId) then e.jobId.value
    else if IsText(e.approvalId) then e.approvalId.value
    else if IsText(e.messageId) then e.messageId.value
    else if IsText(e.reviewId) then e.reviewId.value
    else e.id
  }

  ghost predicate ShowsSessionEvent(s: Sources, d: Draft, e: SessionEventRow) {
    && d.sourceId == e.id && d.detail == e.detail && d.key == SortKey(e.createdAt, 0, EntityOf(e), e.eventType)
    && (if e.phaseKey.Some? || e.jobId.None? then d.phaseKey == e.phaseKey
        else PhaseOfJob(s, e.jobId.value, d.phaseKey))
    && (d.poolKey == if e.poolKey.Some? || e.jobId.None? then e.poolKey else PoolOfJob(s, e.jobId.value))
  }

  ghost predicate ShowsJobEvent(s: Sources, d: Draft, e: JobEventRow) {
    && d.sourceId == e.id && d.detail == e.detail && d.key == SortKey(e.createdAt, 1, e.jobId, e.eventType)
    && PhaseOfJob(s, e.jobId, d.phaseKey) && d.poolKey == PoolOfJob(s, e.jobId)
  }

  ghost predicate ShowsJob(s: Sources, d: Draft, j: JobRow) {
    && d.sourceId == j.id && d.detail == j.detail && d.key == SortKey(j.createdAt, 2, j.id, "job.created")
    && PhaseOfJob(s, j.id, d.phaseKey) && d.poolKey == PoolOfJob(s, j.id)
  }

  predicate ShowsPhase(d: Draft, p: PhaseRow) {
    && d.sourceId == p.id && d.detail == p.detail && d.key == SortKey(p.updatedAt, 3, p.id, "phase.active")
    && d.phaseKey == Some(p.phaseKey) && d.poolKey.None?
  }

  predicate ShowsMessage(d: Draft, m: MessageRow) {
    && d.sourceId == m.id && d.detail == m.detail && d.key == SortKey(m.createdAt, 0, m.id, "message.created")
    && d.phaseKey.None? && d.poolKey.None?
  }

  lemma {:induction false} FirstActive(phases: seq<PhaseRow>, activePhaseId: Option<string>)
    ensures var active := Filter(phases, IsActive(activePhaseId));
            if active == [] then forall p :: p in phases ==> activePhaseId != Some(p.id)
            else exists i :: 0 <= i < |phases| && phases[i] == active[0] && activePhaseId == Some(phases[i].id)
                             && forall k :: 0 <= k < i ==> activePhaseId != Some(phases[k].id)
  {
    if phases != [] {
      FirstActive(phases[1..], activePhaseId);
      FilterUnfold(phases, IsActive(activePhaseId));
      var active := Filter(phases[1..], IsActive(activePhaseId));
      if !IsActive(activePhaseId)(phases[0]) && active != [] {
        var i :| 0 <= i < |phases[1..]| && phases[1..][i] == active[0] && activePhaseId == Some(phases[1..][i].id)
                 && forall k :: 0 <= k < i ==> activePhaseId != Some(phases[1..][k].id);
        assert phases[i + 1] == active[0];
        assert forall k :: 0 < k < i + 1 ==> phases[k] == phases[1..][k - 1];
      }
    }
  }

  lemma ActiveKeyTells(s: Sources, key: string)
    ensures ActivePhaseKey(s) == Some(key) <==> IsActiveKey(s, key)
  {
    FirstActive(s.phases, s.activePhaseId);
    var active := Filter(s.phases, IsActive(s.activePhaseId));
    if active != [] {
      var i :| 0 <= i < |s.phases| && s.phases[i] == active[0] && s.activePhaseId == Some(s.phases[i].id)
               && forall k :: 0 <= k < i ==> s.activePhaseId != Some(s.phases[k].id);
      forall j | 0 <= j < |s.phases| && s.activePhaseId == Some(s.phases[j].id)
                 && forall k :: 0 <= k < j ==> s.activePhaseId != Some(s.phases[k].id)
        ensures j == i
      {
      }
    } else {
      assert forall i :: 0 <= i < |s.phases| ==> s.phases[i] in s.phases;
    }
  }

  lemma {:induction false} JobKeysTell(jobs: seq<JobRow>, phaseKey: Option<string>, jobId: string)
    ensures Get(JobPhaseKeys(jobs, phaseKey), jobId)
         == if exists j :: j in jobs && j.id == jobId then phaseKey else None
  {
    if jobs != [] {
      var n := |jobs| - 1;
      JobKeysTell(jobs[..n], phaseKey, jobId);
      assert jobs == jobs[..n] + [jobs[n]];
      if j :| j in jobs[..n] && j.id == jobId { assert j in jobs; }
    }
  }

  lemma PhaseOfJobTells(s: Sources, jobId: string)
    ensures PhaseOfJob(s, jobId, Get(KeysOf(s).phaseOf, jobId))
  {
    JobKeysTell(s.jobs, ActivePhaseKey(s), jobId);
    forall key ensures ActivePhaseKey(s) == Some(key) <==> IsActiveKey(s, key) {
      ActiveKeyTells(s, key);
    }
  }

  lemma SessionEventShown(s: Sources, e: SessionEventRow)
    ensures ShowsSessionEvent(s, SessionEventDraft(KeysOf(s))(e), e)
  {
    if e.jobId.Some? { PhaseOfJobTells(s, e.jobId.value); }
  }

  /** Drafts of the session events, of the job events, of the jobs, of the messages, row by row,
      and of exactly the phase rows that are the active one. */
  ghost predicate ShowAll(s: Sources, events: seq<Draft>, jobEvents: seq<Draft>, jobs: seq<Draft>, phases: seq<Draft>,
      messages: seq<Draft>) {
    && |events| == |s.sessionEvents| && |jobEvents| == |s.jobEvents|
    && |jobs| == |s.jobs| && |messages| == |s.messages|
    && (forall i :: 0 <= i < |events| ==> ShowsSessionEvent(s, events[i], s.sessionEvents[i]))
    && (forall i :: 0 <= i < |jobEvents| ==> ShowsJobEvent(s, jobEvents[i], s.jobEvents[i]))
    && (forall i :: 0 <= i < |jobs| ==> ShowsJob(s, jobs[i], s.jobs[i]))
    && (forall i :: 0 <= i < |messages| ==> ShowsMessage(messages[i], s.messages[i]))
    && (forall d :: d in phases ==> exists p :: p in s.phases && s.activePhaseId == Some(p.id) && ShowsPhase(d, p))
    && (forall p :: p in s.phases && s.activePhaseId == Some(p.id) ==> exists d :: d in phases && ShowsPhase(d, p))
  }

  lemma FeedIsInTimeOrder(s: Sources)
    ensures forall i, j :: 0 <= i < j < |FeedOf(s)| ==>
              var x, y := FeedOf(s)[i].key, FeedOf(s)[j].key;
              !Less(y.createdAt, x.createdAt) && (x.createdAt == y.createdAt ==> x.rank <= y.rank)
  {
    FeedIsSorted(s);
    forall i, j | 0 <= i < j < |FeedOf(s)|
      ensures var x, y := FeedOf(s)[i].key, FeedOf(s)[j].key;
              !Less(y.createdAt, x.createdAt) && (x.createdAt == y.createdAt ==> x.rank <= y.rank)
    {
      assert DraftLe(FeedOf(s)[i], FeedOf(s)[j]);
    }
  }

  /** The feed holds the drafts of all rows and no others, in the order of their times, and on
      equal times messages and session events before job events, jobs and the phase. */
  lemma FeedShowsTheRows(s: Sources)
    returns (events: seq<Draft>, jobEvents: seq<Draft>, jobs: seq<Draft>, phases: seq<Draft>, messages: seq<Draft>)
    ensures ShowAll(s, events, jobEvents, jobs, phases, messages)
    ensures multiset(FeedOf(s)) == multiset(events + jobEvents + jobs + phases + messages)
    ensures forall i, j :: 0 <= i < j < |FeedOf(s)| ==>
              var x, y := FeedOf(s)[i].key, FeedOf(s)[j].key;
              !Less(y.createdAt, x.createdAt) && (x.createdAt == y.createdAt ==> x.rank <= y.rank)
  {
    var active := Filter(s.phases, IsActive(s.activePhaseId));
    events, jobEvents := Map(s.sessionEvents, SessionEventDraft(KeysOf(s))), Map(s.jobEvents, JobEventDraft(KeysOf(s)));
    jobs, phases, messages := Map(s.jobs, JobDraft(KeysOf(s))), Map(active, PhaseDraft), Map(s.messages, MessageDraft);
    FeedIsSorted(s);
    FeedIsInTimeOrder(s);
    forall i | 0 <= i < |events| ensures ShowsSessionEvent(s, events[i], s.sessionEvents[i]) {
      SessionEventShown(s, s.sessionEvents[i]);
    }
    forall i | 0 <= i < |jobEvents| ensures ShowsJobEvent(s, jobEvents[i], s.jobEvents[i]) {
      PhaseOfJobTells(s, s.jobEvents[i].jobId);
    }
    forall i | 0 <= i < |jobs| ensures ShowsJob(s, jobs[i], s.jobs[i]) {
      PhaseOfJobTells(s, s.jobs[i].id);
    }
    PhasesShown(s, active);
  }

  lemma PhasesShown(s: Sources, active: seq<PhaseRow>)
    requires active == Filter(s.phases, IsActive(s.activePhaseId))
    ensures forall d :: d in Map(active, PhaseDraft) ==>
              exists p :: p in s.phases && s.activePhaseId == Some(p.id) && ShowsPhase(d, p)
    ensures forall p :: p in s.phases && s.activePhaseId == Some(p.id) ==>
              exists d :: d in Map(active, PhaseDraft) && ShowsPhase(d, p)
  {
    forall d | d in Map(active, PhaseDraft)
      ensures exists p :: p in s.phases && s.activePhaseId == Some(p.id) && ShowsPhase(d, p)
    {
      var i :| 0 <= i < |active| && Map(active, PhaseDraft)[i] == d;
      assert active[i] in active && ShowsPhase(d, active[i]);
    }
    forall p | p in s.phases && s.activePhaseId == Some(p.id)
      ensures exists d :: d in Map(active, PhaseDraft) && ShowsPhase(d, p)
    {
      assert p in active;
      var i :| 0 <= i < |active| && active[i] == p;
      var d := Map(active, PhaseDraft)[i];
      assert d in Map(active, PhaseDraft) && ShowsPhase(d, p);
    }
  }

  // ------------------------------------------------------------------ pages

  datatype ActivityEvent = ActivityEvent(sequence: int, draft: Draft)

  function Numbered(drafts: seq<Draft>): (events: seq<ActivityEvent>)
    ensures |events| == |drafts|
    ensures forall i :: 0 <= i < |events| ==> events[i].sequence == i + 1 && events[i].draft == drafts[i]
  {
    seq(|drafts|, i requires 0 <= i < |drafts| => ActivityEvent(i + 1, drafts[i]))
  }

  function Behind(cursor: int): ActivityEvent -> bool {
    (e: ActivityEvent) => e.sequence > cursor
  }

  /** `_materialize_events`: cursor 0 means the latest `limit` events, any other cursor the
      first `limit` events behind it. */
  function MaterializeEvents(drafts: seq<Draft>, since: int, limit: nat): seq<ActivityEvent> {
    var numbered := Numbered(drafts);
    if since == 0 then (if limit < |numbered| then numbered[|numbered| - limit..] else numbered)
    else Take(Filter(numbered, Behind(since)), limit)
  }

  /** The cursor that `get_session_activity` hands back. */
  function NextCursor(page: seq<ActivityEvent>, since: int): int {
    if page != [] then page[|page| - 1].sequence else since
  }

  lemma BehindIsDrop(drafts: seq<Draft>, cursor: nat)
    ensures Filter(Numbered(drafts), Behind(cursor)) == if cursor <= |drafts| then Numbered(drafts)[cursor..] else []
  {
    var events := Numbered(drafts);
    if cursor <= |drafts| {
      assert events == events[..cursor] + events[cursor..];
      FilterAppend(events[..cursor], events[cursor..], Behind(cursor));
      FilterNone(events[..cursor], Behind(cursor));
      FilterAll(events[cursor..], Behind(cursor));
    } else {
      FilterNone(events, Behind(cursor));
    }
  }

  /** A page from a cursor that is not 0 continues right behind it. */
  lemma PageContinues(drafts: seq<Draft>, cursor: nat, limit: nat)
    requires 1 <= cursor <= |drafts| && 1 <= limit
    ensures var page := MaterializeEvents(drafts, cursor, limit);
            && cursor + |page| <= |drafts| && |page| == (if |drafts| - cursor < limit then |drafts| - cursor else limit)
            && page == Numbered(drafts)[cursor..cursor + |page|]
            && NextCursor(page, cursor) == cursor + |page|
  {
    BehindIsDrop(drafts, cursor);
    TakeSlice(Numbered(drafts), cursor, limit);
  }

  function PageBehind(drafts: seq<Draft>, limit: nat): int -> seq<ActivityEvent> {
    (cursor: int) => MaterializeEvents(drafts, cursor, limit)
  }

  function MoveCursor(): (seq<ActivityEvent>, int) -> int {
    (page: seq<ActivityEvent>, cursor: int) => NextCursor(page, cursor)
  }

  /** The pages of a client that polls a fixed feed until a page is empty. */
  function Walk(drafts: seq<Draft>, cursor: nat, limit: nat, rounds: nat): seq<seq<ActivityEvent>> {
    Pages(PageBehind(drafts, limit), MoveCursor(), cursor, rounds)
  }

  function Within(n: nat): (int, nat) -> bool {
    (cursor: int, i: nat) => cursor == i && 1 <= i <= n
  }

  lemma FeedAdvances(drafts: seq<Draft>, limit: nat)
    requires 1 <= limit
    ensures Advances(PageBehind(drafts, limit), MoveCursor(), Within(|drafts|), Numbered(drafts), limit)
  {
    var page, next, at := PageBehind(drafts, limit), MoveCursor(), Within(|drafts|);
    forall c: int, i: nat {:trigger page(c), at(c, i)} | at(c, i)
      ensures IsSlice(page(c), Numbered(drafts), i, limit) && (page(c) != [] ==> at(next(page(c), c), i + |page(c)|))
    {
      PageContinues(drafts, i, limit);
    }
  }

  /** What a feed holds behind a cursor. */
  function Rest(drafts: seq<Draft>, cursor: nat): seq<ActivityEvent> {
    if cursor <= |drafts| then Numbered(drafts)[cursor..] else []
  }

  /** From any cursor but 0, within the feed or behind it, the pages up to the first empty one
      are, put together, exactly the rest of the feed, in ceil(rest / limit) polls. */
  lemma WalkDeliversTheRest(drafts: seq<Draft>, cursor: nat, limit: nat, rounds: nat)
    requires 1 <= cursor && 1 <= limit && |Rest(drafts, cursor)| <= rounds
    ensures var pages := Walk(drafts, cursor, limit, rounds);
            && Concat(pages) == Rest(drafts, cursor)
            && IsCeil(|pages|, |Rest(drafts, cursor)|, limit) && NonEmptyPages(pages, limit)
  {
    if cursor <= |drafts| {
      FeedAdvances(drafts, limit);
      PagesAreSlices(PageBehind(drafts, limit), MoveCursor(), Within(|drafts|), Numbered(drafts), limit, cursor,
          cursor, rounds);
      SlicesCover(Numbered(drafts), cursor, limit);
      SlicesCount(Numbered(drafts), cursor, limit);
    } else {
      BehindIsDrop(drafts, cursor);
    }
  }

  /** A client that starts at 0 gets the end of the feed; it gets the whole of it if and only
      if the feed fits one page. */
  lemma StartingAtZero(drafts: seq<Draft>, limit: nat)
    requires 1 <= limit
    ensures var page := MaterializeEvents(drafts, 0, limit);
            && |page| <= |drafts| && page == Numbered(drafts)[|drafts| - |page|..]
            && (page == Numbered(drafts) <==> |drafts| <= limit)
            && NextCursor(page, 0) == |drafts|
  {
  }

  /** It need not fit: the first page of one event misses the first of two. */
  lemma FirstPageMissesTheStart(a: Draft, b: Draft)
    ensures MaterializeEvents([a, b], 0, 1) == [ActivityEvent(2, b)]
    ensures ActivityEvent(1, a) in Numbered([a, b]) && ActivityEvent(1, a) !in MaterializeEvents([a, b], 0, 1)
  {
    assert Numbered([a, b]) == [ActivityEvent(1, a), ActivityEvent(2, b)];
  }
}
