/** Resolving mentions to participants (app/services/mention_router.py), and the two
    normalisations that have to meet. */
module MentionRouter {
  import opened Seqs
  import opened Text
  import opened MentionScanner

  // ------------------------------------------------------------------ normalised names

  /** Python's view of characters: `str.lower` one character at a time and `str.isalnum`. */
  datatype CharTable = CharTable(lower: char -> string, isAlnum: char -> bool)

  function AsciiLower(c: char): char {
    if 'A' <= c <= 'Z' then (c as int + 32) as char else c
  }

  /** The table is right on ASCII; nothing is fixed beyond it. */
  ghost predicate AsciiRight(u: CharTable) {
    forall c :: c as int < 128 ==> u.lower(c) == [AsciiLower(c)] && (u.isAlnum(c) <==> Letter(c) || Digit(c))
  }

  function Lowered(u: CharTable, s: string): string {
    if s == "" then "" else u.lower(s[0]) + Lowered(u, s[1..])
  }

  predicate TokenChar(c: char) {
    'a' <= c <= 'z' || Digit(c)
  }

  /** The parser's `re.sub(r"[^a-z0-9]+", "", value.lower())`. */
  function ParserToken(u: CharTable, s: string): string {
    Filter(Lowered(u, s), TokenChar)
  }

  /** The router's `"".join(c for c in value.lower() if c.isalnum())`. */
  function RouterToken(u: CharTable, s: string): string {
    Filter(Lowered(u, s), u.isAlnum)
  }

  predicate Ascii(s: string) {
    forall i :: 0 <= i < |s| ==> s[i] as int < 128
  }

  lemma {:induction false} LoweredAscii(u: CharTable, s: string)
    requires AsciiRight(u) && Ascii(s)
    ensures |Lowered(u, s)| == |s|
    ensures forall i :: 0 <= i < |s| ==> Lowered(u, s)[i] == AsciiLower(s[i])
  {
    if s != "" {
      LoweredAscii(u, s[1..]);
      assert u.lower(s[0]) == [AsciiLower(s[0])];
    }
  }

  /** On ASCII text the two normalisations agree. */
  lemma TokensAgreeOnAscii(u: CharTable, s: string)
    requires AsciiRight(u) && Ascii(s)
    ensures ParserToken(u, s) == RouterToken(u, s)
  {
    LoweredAscii(u, s);
    forall c | c in Lowered(u, s) ensures TokenChar(c) == u.isAlnum(c) {
      var i :| 0 <= i < |s| && Lowered(u, s)[i] == c;
      assert c == AsciiLower(s[i]);
    }
    FilterAgree(Lowered(u, s), TokenChar, u.isAlnum);
  }

  /** What the scanner can put into a mention's name. */
  predicate MentionName(name: string) {
    name != "" && Letter(name[0]) && forall i :: 0 <= i < |name| ==> NameChar(name[i])
  }

  /** What a mention's name normalises to: a token that begins with a letter. */
  predicate MentionToken(token: string) {
    token != "" && 'a' <= token[0] <= 'z' && forall i :: 0 <= i < |token| ==> TokenChar(token[i])
  }

  lemma NameGivesToken(u: CharTable, name: string)
    requires AsciiRight(u) && MentionName(name)
    ensures MentionToken(ParserToken(u, name))
  {
    assert Ascii(name);
    LoweredAscii(u, name);
    var low := Lowered(u, name);
    var token := ParserToken(u, name);
    assert TokenChar(low[0]) && token == [low[0]] + Filter(low[1..], TokenChar);
    forall i | 0 <= i < |token| ensures TokenChar(token[i]) {
      assert token[i] in token;
    }
  }

  lemma TokenIsItsOwnName(u: CharTable, token: string)
    requires AsciiRight(u) && MentionToken(token)
    ensures MentionName(token) && ParserToken(u, token) == token
  {
    LoweredAscii(u, token);
    assert Lowered(u, token) == token;
    forall c | c in token ensures TokenChar(c) {
      var i :| 0 <= i < |token| && token[i] == c;
    }
    FilterAll(token, TokenChar);
  }

  /** A display name, role or id can be mentioned at all if and only if its own token starts
      with a letter and holds nothing but ASCII letters and digits: because the two
      normalisations differ outside ASCII, a name with any other letter is out of reach. */
  lemma MentionableNames(u: CharTable, target: string)
    requires AsciiRight(u)
    ensures (exists name :: MentionName(name) && ParserToken(u, name) == RouterToken(u, target))
            <==> MentionToken(RouterToken(u, target))
  {
    var token := RouterToken(u, target);
    if MentionToken(token) {
      TokenIsItsOwnName(u, token);
    }
    forall name | MentionName(name) && ParserToken(u, name) == token ensures MentionToken(token) {
      NameGivesToken(u, name);
    }
  }

  /** A table that knows one letter beyond ASCII. */
  function OneMoreLetter(): CharTable {
    CharTable((c: char) => if c == '\U{C9}' then "\U{E9}" else [AsciiLower(c)],
              (c: char) => Letter(c) || Digit(c) || c == '\U{C9}' || c == '\U{E9}')
  }

  /** An agent named with that letter: no mention has its token. */
  lemma UnmentionableName()
    ensures var u := OneMoreLetter();
            && AsciiRight(u) && RouterToken(u, "\U{C9}a") == "\U{E9}a"
            && forall name :: MentionName(name) ==> ParserToken(u, name) != "\U{E9}a"
  {
    var u := OneMoreLetter();
    assert "\U{C9}a"[1..] == "a" && "a"[1..] == "" && Lowered(u, "") == "";
    assert Lowered(u, "a") == "a" && Lowered(u, "\U{C9}a") == "\U{E9}a";
    FilterAll("\U{E9}a", u.isAlnum);
    MentionableNames(u, "\U{C9}a");
    assert !MentionToken("\U{E9}a");
  }

  // ------------------------------------------------------------------ participants and agents

  datatype Participant = Participant(id: string, agentId: string, runtimeId: Option<string>, joined: bool,
      createdAt: string)

  datatype Agent = Agent(id: string, displayName: string, role: string)

  /** `_match_level` */
  function MatchLevel(u: CharTable, token: string, agent: Agent): (level: Option<nat>)
    ensures level.Some? ==> level.value <= 2
  {
    if token == RouterToken(u, agent.displayName) then Some(0)
    else if token == RouterToken(u, agent.role) then Some(1)
    else if token == RouterToken(u, agent.id) then Some(2)
    else None
  }

  /** `{agent.id: agent for agent in agents}` */
  function AgentsById(agents: seq<Agent>): map<string, Agent> {
    if agents == [] then map[]
    else AgentsById(agents[..|agents| - 1])[agents[|agents| - 1].id := agents[|agents| - 1]]
  }

  /** How closely a participant matches, if it is active and its agent known. */
  function Level(u: CharTable, token: string, byId: map<string, Agent>, p: Participant): Option<nat> {
    if p.joined && p.agentId in byId then MatchLevel(u, token, byId[p.agentId]) else None
  }

  datatype Resolution = Resolved(participant: Participant) | NoMatch | Ambiguous

  function StampOf(p: Participant): Stamp {
    Stamp(p.createdAt, p.id)
  }

  ghost predicate BestLevel(u: CharTable, token: string, byId: map<string, Agent>, ps: seq<Participant>, level: nat) {
    && (exists p :: p in ps && Level(u, token, byId, p) == Some(level))
    && (forall p :: p in ps && Level(u, token, byId, p).Some? ==> level <= Level(u, token, byId, p).value)
  }

  ghost predicate AtLevel(u: CharTable, token: string, byId: map<string, Agent>, ps: seq<Participant>, level: nat,
      p: Participant) {
    p in ps && Level(u, token, byId, p) == Some(level)
  }

  /** What a mention means, told without candidate lists: the only agent at the best level,
      through its earliest participant there. */
  ghost predicate Means(u: CharTable, token: string, byId: map<string, Agent>, ps: seq<Participant>, r: Resolution) {
    match r
    case NoMatch => forall p :: p in ps ==> Level(u, token, byId, p).None?
    case Ambiguous =>
      exists level :: BestLevel(u, token, byId, ps, level)
        && exists p, q :: AtLevel(u, token, byId, ps, level, p) && AtLevel(u, token, byId, ps, level, q)
            && p.agentId != q.agentId
    case Resolved(p) =>
      exists level :: BestLevel(u, token, byId, ps, level)
        && AtLevel(u, token, byId, ps, level, p)
        && (forall q :: AtLevel(u, token, byId, ps, level, q) ==> q.agentId == p.agentId)
        && (forall q :: AtLevel(u, token, byId, ps, level, q) && q != p ==> Before(StampOf(p), StampOf(q)))
  }

  // What a mention means, told from the agents' own names, roles and ids.

  ghost predicate Known(byId: map<string, Agent>, ps: seq<Participant>, p: Participant) {
    p in ps && p.joined && p.agentId in byId
  }

  ghost predicate ByName(u: CharTable, token: string, byId: map<string, Agent>, ps: seq<Participant>, p: Participant) {
    Known(byId, ps, p) && RouterToken(u, byId[p.agentId].displayName) == token
  }

  ghost predicate ByRole(u: CharTable, token: string, byId: map<string, Agent>, ps: seq<Participant>, p: Participant) {
    Known(byId, ps, p) && RouterToken(u, byId[p.agentId].role) == token
  }

  ghost predicate ByOwnId(u: CharTable, token: string, byId: map<string, Agent>, ps: seq<Participant>, p: Participant) {
    Known(byId, ps, p) && RouterToken(u, byId[p.agentId].id) == token
  }

  ghost predicate AnswersTo(u: CharTable, token: string, byId: map<string, Agent>, ps: seq<Participant>,
      p: Participant) {
    ByName(u, token, byId, ps, p) || ByRole(u, token, byId, ps, p) || ByOwnId(u, token, byId, ps, p)
  }

  /** The participants that a mention can mean: those named so; if there are none, those with
      such a role; if there are none of these either, those with such an id. */
  ghost predicate CanMean(u: CharTable, token: string, byId: map<string, Agent>, ps: seq<Participant>, p: Participant) {
    if exists q :: ByName(u, token, byId, ps, q) then ByName(u, token, byId, ps, p)
    else if exists q :: ByRole(u, token, byId, ps, q) then ByRole(u, token, byId, ps, p)
    else ByOwnId(u, token, byId, ps, p)
  }

  /** Two participants of different agents, both of which can be meant. */
  ghost predicate Rivals(u: CharTable, token: string, byId: map<string, Agent>, ps: seq<Participant>, p: Participant,
      q: Participant) {
    CanMean(u, token, byId, ps, p) && CanMean(u, token, byId, ps, q) && p.agentId != q.agentId
  }

  lemma LevelTells(u: CharTable, token: string, byId: map<string, Agent>, ps: seq<Participant>, p: Participant)
    requires p in ps
    ensures Level(u, token, byId, p) == Some(0) <==> ByName(u, token, byId, ps, p)
    ensures Level(u, token, byId, p) == Some(1) <==> ByRole(u, token, byId, ps, p) && !ByName(u, token, byId, ps, p)
    ensures Level(u, token, byId, p) == Some(2)
            <==> ByOwnId(u, token, byId, ps, p) && !ByName(u, token, byId, ps, p) && !ByRole(u, token, byId, ps, p)
    ensures Level(u, token, byId, p).Some? ==> Level(u, token, byId, p).value <= 2
  {
  }

  lemma BestIsCanMean(u: CharTable, token: string, byId: map<string, Agent>, ps: seq<Participant>, p: Participant)
    ensures (exists level :: BestLevel(u, token, byId, ps, level) && AtLevel(u, token, byId, ps, level, p))
            <==> CanMean(u, token, byId, ps, p)
  {
    forall q | q in ps
      ensures Level(u, token, byId, q).Some? ==> Level(u, token, byId, q).value <= 2
      ensures Level(u, token, byId, q) == Some(0) <==> ByName(u, token, byId, ps, q)
      ensures Level(u, token, byId, q) == Some(1) <==> ByRole(u, token, byId, ps, q) && !ByName(u, token, byId, ps, q)
      ensures Level(u, token, byId, q) == Some(2)
              <==> ByOwnId(u, token, byId, ps, q) && !ByName(u, token, byId, ps, q) && !ByRole(u, token, byId, ps, q)
    {
      LevelTells(u, token, byId, ps, q);
    }
    if CanMean(u, token, byId, ps, p) {
      var level := Level(u, token, byId, p).value;
      assert BestLevel(u, token, byId, ps, level) && AtLevel(u, token, byId, ps, level, p);
    }
  }

  /** Earlier by creation time, and on equal times by id. */
  predicate Earlier(p: Participant, q: Participant) {
    Less(p.createdAt, q.createdAt) || (p.createdAt == q.createdAt && Less(p.id, q.id))
  }

  /** A mention means nobody exactly if no joined participant's agent has the token as its name,
      role or id. It means p exactly if p can be meant, all that can be meant are of p's agent,
      and p is the earliest of them. It is ambiguous exactly if two that can be meant are of
      different agents. */
  lemma MeaningInWords(u: CharTable, token: string, byId: map<string, Agent>, ps: seq<Participant>)
    ensures Means(u, token, byId, ps, NoMatch)
            <==> forall p :: !AnswersTo(u, token, byId, ps, p)
    ensures forall p :: Means(u, token, byId, ps, Resolved(p))
              <==> (&& CanMean(u, token, byId, ps, p)
                    && (forall q :: CanMean(u, token, byId, ps, q) ==> q.agentId == p.agentId)
                    && (forall q :: CanMean(u, token, byId, ps, q) && q != p ==> Earlier(p, q)))
    ensures Means(u, token, byId, ps, Ambiguous)
            <==> exists p, q :: Rivals(u, token, byId, ps, p, q)
  {
    NobodyInWords(u, token, byId, ps);
    forall p
      ensures Means(u, token, byId, ps, Resolved(p))
              <==> (&& CanMean(u, token, byId, ps, p)
                    && (forall q :: CanMean(u, token, byId, ps, q) ==> q.agentId == p.agentId)
                    && (forall q :: CanMean(u, token, byId, ps, q) && q != p ==> Earlier(p, q)))
    {
      ResolvedInWords(u, token, byId, ps, p);
    }
    AmbiguousInWords(u, token, byId, ps);
  }

  lemma NobodyInWords(u: CharTable, token: string, byId: map<string, Agent>, ps: seq<Participant>)
    ensures Means(u, token, byId, ps, NoMatch)
            <==> forall p :: !AnswersTo(u, token, byId, ps, p)
  {
    forall p ensures AnswersTo(u, token, byId, ps, p) <==> p in ps && Level(u, token, byId, p).Some? {
      if p in ps {
        LevelTells(u, token, byId, ps, p);
      }
    }
  }

  lemma ResolvedInWords(u: CharTable, token: string, byId: map<string, Agent>, ps: seq<Participant>, p: Participant)
    ensures Means(u, token, byId, ps, Resolved(p))
            <==> (&& CanMean(u, token, byId, ps, p)
                  && (forall q :: CanMean(u, token, byId, ps, q) ==> q.agentId == p.agentId)
                  && (forall q :: CanMean(u, token, byId, ps, q) && q != p ==> Earlier(p, q)))
  {
    BestIsCanMean(u, token, byId, ps, p);
    if CanMean(u, token, byId, ps, p) {
      var level :| BestLevel(u, token, byId, ps, level) && AtLevel(u, token, byId, ps, level, p);
      forall q ensures CanMean(u, token, byId, ps, q) <==> AtLevel(u, token, byId, ps, level, q) {
        SameBest(u, token, byId, ps, level, q);
      }
    }
  }

  lemma SameBest(u: CharTable, token: string, byId: map<string, Agent>, ps: seq<Participant>, level: nat,
      q: Participant)
    requires BestLevel(u, token, byId, ps, level)
    ensures CanMean(u, token, byId, ps, q) <==> AtLevel(u, token, byId, ps, level, q)
  {
    BestIsCanMean(u, token, byId, ps, q);
    if CanMean(u, token, byId, ps, q) {
      var other :| BestLevel(u, token, byId, ps, other) && AtLevel(u, token, byId, ps, other, q);
      BestLevelUnique(u, token, byId, ps, level, other);
    }
  }

  lemma AmbiguousInWords(u: CharTable, token: string, byId: map<string, Agent>, ps: seq<Participant>)
    ensures Means(u, token, byId, ps, Ambiguous)
            <==> exists p, q :: Rivals(u, token, byId, ps, p, q)
  {
    if Means(u, token, byId, ps, Ambiguous) {
      var level :| BestLevel(u, token, byId, ps, level)
        && exists p, q :: AtLevel(u, token, byId, ps, level, p) && AtLevel(u, token, byId, ps, level, q)
            && p.agentId != q.agentId;
      var p, q :| AtLevel(u, token, byId, ps, level, p) && AtLevel(u, token, byId, ps, level, q)
          && p.agentId != q.agentId;
      SameBest(u, token, byId, ps, level, p);
      SameBest(u, token, byId, ps, level, q);
      assert Rivals(u, token, byId, ps, p, q);
    }
    if p, q :| Rivals(u, token, byId, ps, p, q) {
      BestIsCanMean(u, token, byId, ps, p);
      var level :| BestLevel(u, token, byId, ps, level) && AtLevel(u, token, byId, ps, level, p);
      SameBest(u, token, byId, ps, level, q);
    }
  }

  ghost predicate DistinctIds(ps: seq<Participant>) {
    forall p, q :: p in ps && q in ps && p.id == q.id ==> p == q
  }

  lemma BestLevelUnique(u: CharTable, token: string, byId: map<string, Agent>, ps: seq<Participant>, a: nat, b: nat)
    requires BestLevel(u, token, byId, ps, a) && BestLevel(u, token, byId, ps, b)
    ensures a == b
  {
  }

  /** A mention has one meaning. */
  lemma MeaningIsUnique(u: CharTable, token: string, byId: map<string, Agent>, ps: seq<Participant>, r: Resolution,
      s: Resolution)
    requires Means(u, token, byId, ps, r) && Means(u, token, byId, ps, s)
    ensures r == s
  {
    if r.NoMatch? || s.NoMatch? {
    } else {
      var a :| BestLevel(u, token, byId, ps, a) && (r.Resolved? ==> AtLevel(u, token, byId, ps, a, r.participant));
      if r.Resolved? && s.Resolved? {
        ResolvedUnique(u, token, byId, ps, r.participant, s.participant);
      } else if r.Resolved? || s.Resolved? {
        ResolvedIsNotAmbiguous(u, token, byId, ps, if r.Resolved? then r.participant else s.participant);
      }
    }
  }

  lemma ResolvedUnique(u: CharTable, token: string, byId: map<string, Agent>, ps: seq<Participant>, p: Participant,
      q: Participant)
    requires Means(u, token, byId, ps, Resolved(p)) && Means(u, token, byId, ps, Resolved(q))
    ensures p == q
  {
    if p != q {
      assert Before(StampOf(p), StampOf(q)) && Before(StampOf(q), StampOf(p));
      BeforeAsymmetric(StampOf(p), StampOf(q));
    }
  }

  lemma ResolvedIsNotAmbiguous(u: CharTable, token: string, byId: map<string, Agent>, ps: seq<Participant>,
      p: Participant)
    requires Means(u, token, byId, ps, Resolved(p))
    ensures !Means(u, token, byId, ps, Ambiguous)
  {
    forall a, b | BestLevel(u, token, byId, ps, a) && BestLevel(u, token, byId, ps, b) ensures a == b {
      BestLevelUnique(u, token, byId, ps, a, b);
    }
  }

  // ------------------------------------------------------------------ order of the inputs

  lemma {:induction false} AgentsByIdLookup(agents: seq<Agent>, id: string)
    ensures id in AgentsById(agents) <==> exists a :: a in agents && a.id == id
    ensures id in AgentsById(agents) ==> AgentsById(agents)[id] in agents && AgentsById(agents)[id].id == id
  {
    if agents != [] {
      var n := |agents| - 1;
      AgentsByIdLookup(agents[..n], id);
      assert agents == agents[..n] + [agents[n]];
    }
  }

  lemma SameMembers<T>(a: seq<T>, b: seq<T>)
    requires multiset(a) == multiset(b)
    ensures forall x :: x in a <==> x in b
  {
    forall x ensures x in a <==> x in b {
      assert x in a <==> x in multiset(a);
      assert x in b <==> x in multiset(b);
    }
  }

  lemma AgentOrderIsIrrelevant(a: seq<Agent>, b: seq<Agent>)
    requires multiset(a) == multiset(b)
    requires forall x, y :: x in a && y in a && x.id == y.id ==> x == y
    ensures AgentsById(a) == AgentsById(b)
  {
    SameMembers(a, b);
    forall id ensures (id in AgentsById(a) <==> id in AgentsById(b))
        && (id in AgentsById(a) ==> AgentsById(a)[id] == AgentsById(b)[id]) {
      AgentsByIdLookup(a, id);
      AgentsByIdLookup(b, id);
    }
  }

  /** The meaning of a mention does not depend on the order in which participants and agents
      are listed, errors included. */
  lemma OrderIsIrrelevant(u: CharTable, token: string, agents: seq<Agent>, agents': seq<Agent>, ps: seq<Participant>,
      ps': seq<Participant>, r: Resolution)
    requires multiset(agents) == multiset(agents') && multiset(ps) == multiset(ps')
    requires forall x, y :: x in agents && y in agents && x.id == y.id ==> x == y
    ensures Means(u, token, AgentsById(agents), ps, r) <==> Means(u, token, AgentsById(agents'), ps', r)
  {
    AgentOrderIsIrrelevant(agents, agents');
    SameMembers(ps, ps');
    var byId := AgentsById(agents);
    forall level ensures BestLevel(u, token, byId, ps, level) <==> BestLevel(u, token, byId, ps', level) {
    }
    forall level, p ensures AtLevel(u, token, byId, ps, level, p) <==> AtLevel(u, token, byId, ps', level, p) {
    }
    if Means(u, token, byId, ps, r) {
      MeansCarries(u, token, byId, ps, ps', r);
    } else if Means(u, token, byId, ps', r) {
      MeansCarries(u, token, byId, ps', ps, r);
    }
  }

  lemma MeansCarries(u: CharTable, token: string, byId: map<string, Agent>, ps: seq<Participant>,
      ps': seq<Participant>, r: Resolution)
    requires forall p :: p in ps <==> p in ps'
    requires forall level :: BestLevel(u, token, byId, ps, level) <==> BestLevel(u, token, byId, ps', level)
    requires forall level, p :: AtLevel(u, token, byId, ps, level, p) <==> AtLevel(u, token, byId, ps', level, p)
    requires Means(u, token, byId, ps, r)
    ensures Means(u, token, byId, ps', r)
  {
  }

  // ------------------------------------------------------------------ the resolver

  datatype Candidate = Candidate(level: nat, participant: Participant)

  /** `key=lambda item: (item[0], item[1].created_at, item[1].id)` */
  predicate CandidateLe(a: Candidate, b: Candidate) {
    a.level < b.level || (a.level == b.level && !Before(StampOf(b.participant), StampOf(a.participant)))
  }

  lemma CandidateOrder()
    ensures TotalPreorder(CandidateLe)
  {
    forall x, y ensures CandidateLe(x, y) || CandidateLe(y, x) {
      if Before(StampOf(x.participant), StampOf(y.participant)) {
        BeforeAsymmetric(StampOf(x.participant), StampOf(y.participant));
      }
    }
    forall x, y, z | CandidateLe(x, y) && CandidateLe(y, z) ensures CandidateLe(x, z) {
      var a, b, c := StampOf(x.participant), StampOf(y.participant), StampOf(z.participant);
      if Before(c, a) {
        BeforeTotal(a, b);
        BeforeTotal(b, c);
        if Before(a, b) { BeforeTransitive(c, a, b); }
      }
    }
  }

  /** `_resolve_single_mention` */
  method ResolveSingleMention(u: CharTable, token: string, participants: seq<Participant>, byId: map<string, Agent>)
    returns (r: Resolution)
    requires DistinctIds(participants)
    ensures Means(u, token, byId, participants, r)
  {
    var candidates: seq<Candidate> := [];
    for i := 0 to |participants|
      invariant forall c :: c in candidates ==>
          c.participant in participants && Level(u, token, byId, c.participant) == Some(c.level)
      invariant forall k :: 0 <= k < i && Level(u, token, byId, participants[k]).Some? ==>
        Candidate(Level(u, token, byId, participants[k]).value, participants[k]) in candidates
    {
      var level := Level(u, token, byId, participants[i]);
      if level.None? {
        continue;
      }
      candidates := candidates + [Candidate(level.value, participants[i])];
    }
    assert Complete(u, token, byId, participants, candidates);
    if candidates == [] {
      return NoMatch;
    }
    var ranked := StableSort(candidates, CandidateLe);
    RankedFacts(u, token, byId, participants, candidates);
    var bestLevel := ranked[0].level;
    var best := Filter(ranked, (c: Candidate) => c.level == bestLevel);
    FilterHead(ranked, (c: Candidate) => c.level == bestLevel);
    OneAgent(best);
    BestIsFirst(u, token, byId, participants, ranked);
    if |set c | c in best :: c.participant.agentId| > 1 {
      AmbiguousFacts(u, token, byId, participants, ranked, best);
      return Ambiguous;
    }
    ResolvedFacts(u, token, byId, participants, ranked, best);
    return Resolved(best[0].participant);
  }

  ghost predicate Complete(u: CharTable, token: string, byId: map<string, Agent>, ps: seq<Participant>,
      cs: seq<Candidate>) {
    && (forall c :: c in cs ==> c.participant in ps && Level(u, token, byId, c.participant) == Some(c.level))
    && (forall p :: p in ps && Level(u, token, byId, p).Some? ==> Candidate(Level(u, token, byId, p).value, p) in cs)
  }

  lemma RankedFacts(u: CharTable, token: string, byId: map<string, Agent>, ps: seq<Participant>, cs: seq<Candidate>)
    requires Complete(u, token, byId, ps, cs) && cs != []
    ensures var ranked := StableSort(cs, CandidateLe);
            ranked != [] && SortedBy(ranked, CandidateLe) && Complete(u, token, byId, ps, ranked)
  {
    CandidateOrder();
    SortSorted(cs, CandidateLe);
    SortContents(cs, CandidateLe);
  }

  lemma BestIsFirst(u: CharTable, token: string, byId: map<string, Agent>, ps: seq<Participant>, ranked: seq<Candidate>)
    requires Complete(u, token, byId, ps, ranked) && ranked != [] && SortedBy(ranked, CandidateLe)
    ensures BestLevel(u, token, byId, ps, ranked[0].level)
  {
    assert ranked[0] in ranked;
    forall p | p in ps && Level(u, token, byId, p).Some? ensures ranked[0].level <= Level(u, token, byId, p).value {
      HeadOfSorted(ranked, Candidate(Level(u, token, byId, p).value, p), CandidateLe);
    }
  }

  /** `len({candidate[2].id for candidate in best_candidates}) > 1` */
  lemma OneAgent(best: seq<Candidate>)
    requires best != []
    ensures |set c | c in best :: c.participant.agentId| > 1
            <==> exists c :: c in best && c.participant.agentId != best[0].participant.agentId
  {
    var agents := set c | c in best :: c.participant.agentId;
    var first := best[0].participant.agentId;
    assert best[0] in best && first in agents;
    if c :| c in best && c.participant.agentId != first {
      assert {first, c.participant.agentId} <= agents;
      SubsetSize({first, c.participant.agentId}, agents);
    } else {
      assert agents == {first};
    }
  }

  lemma SubsetSize<T>(a: set<T>, b: set<T>)
    requires a <= b
    ensures |a| <= |b|
  {
    assert b == a + (b - a);
  }

  /** The candidates at the best level. */
  ghost predicate AreBest(ranked: seq<Candidate>, best: seq<Candidate>) {
    && ranked != [] && best != [] && best[0] == ranked[0]
    && (forall c :: c in best ==> c in ranked && c.level == ranked[0].level)
    && (forall c :: c in ranked && c.level == ranked[0].level ==> c in best)
  }

  lemma AmbiguousFacts(u: CharTable, token: string, byId: map<string, Agent>, ps: seq<Participant>,
      ranked: seq<Candidate>, best: seq<Candidate>)
    requires Complete(u, token, byId, ps, ranked) && AreBest(ranked, best)
    requires BestLevel(u, token, byId, ps, ranked[0].level)
    requires exists c :: c in best && c.participant.agentId != best[0].participant.agentId
    ensures Means(u, token, byId, ps, Ambiguous)
  {
    var level := ranked[0].level;
    var c :| c in best && c.participant.agentId != best[0].participant.agentId;
    assert best[0] in best;
    assert AtLevel(u, token, byId, ps, level, c.participant) && AtLevel(u, token, byId, ps, level, best[0].participant);
  }

  lemma {:induction false} FilterHead<T>(s: seq<T>, p: T -> bool)
    requires s != [] && p(s[0])
    ensures Filter(s, p) != [] && Filter(s, p)[0] == s[0]
  {
  }

  lemma EarliestAtBest(u: CharTable, token: string, byId: map<string, Agent>, ps: seq<Participant>,
      ranked: seq<Candidate>, q: Participant)
    requires Complete(u, token, byId, ps, ranked) && ranked != [] && SortedBy(ranked, CandidateLe) && DistinctIds(ps)
    requires AtLevel(u, token, byId, ps, ranked[0].level, q) && q != ranked[0].participant
    ensures Before(StampOf(ranked[0].participant), StampOf(q))
  {
    var p := ranked[0].participant;
    assert ranked[0] in ranked;
    HeadOfSorted(ranked, Candidate(ranked[0].level, q), CandidateLe);
    BeforeTotal(StampOf(p), StampOf(q));
  }

  lemma ResolvedFacts(u: CharTable, token: string, byId: map<string, Agent>, ps: seq<Participant>,
      ranked: seq<Candidate>, best: seq<Candidate>)
    requires Complete(u, token, byId, ps, ranked) && AreBest(ranked, best) && SortedBy(ranked, CandidateLe)
        && DistinctIds(ps)
    requires BestLevel(u, token, byId, ps, ranked[0].level)
    requires !exists c :: c in best && c.participant.agentId != best[0].participant.agentId
    ensures Means(u, token, byId, ps, Resolved(best[0].participant))
  {
    var level, p := ranked[0].level, ranked[0].participant;
    assert ranked[0] in ranked;
    assert AtLevel(u, token, byId, ps, level, p);
    forall q | AtLevel(u, token, byId, ps, level, q) ensures q.agentId == p.agentId {
      assert Candidate(level, q) in best;
    }
    forall q | AtLevel(u, token, byId, ps, level, q) && q != p ensures Before(StampOf(p), StampOf(q)) {
      EarliestAtBest(u, token, byId, ps, ranked, q);
    }
  }

  datatype ResolvedMention = ResolvedMention(
    text: string,
    name: string,
    order: nat,
    agentId: string,
    participantId: string,
    runtimeId: Option<string>)

  /** A resolved mention carries the scanned mention and the participant that it means. */
  ghost predicate ResolvesTo(u: CharTable, byId: map<string, Agent>, ps: seq<Participant>, m: Mention,
      r: ResolvedMention) {
    exists p :: Means(u, ParserToken(u, m.name), byId, ps, Resolved(p))
                && r == ResolvedMention(m.text, m.name, m.order, p.agentId, p.id, p.runtimeId)
  }

  /** It carries just that, the participant being the one that the mention means. */
  lemma ResolvedMentionTells(u: CharTable, byId: map<string, Agent>, ps: seq<Participant>, m: Mention,
      r: ResolvedMention,
      p: Participant)
    requires ResolvesTo(u, byId, ps, m, r) && Means(u, ParserToken(u, m.name), byId, ps, Resolved(p))
    ensures r.text == m.text && r.name == m.name && r.order == m.order
    ensures r.agentId == p.agentId && r.participantId == p.id && r.runtimeId == p.runtimeId
  {
    var q :| Means(u, ParserToken(u, m.name), byId, ps, Resolved(q)) && r.agentId == q.agentId
             && r == ResolvedMention(m.text, m.name, m.order, q.agentId, q.id, q.runtimeId);
    ResolvedUnique(u, ParserToken(u, m.name), byId, ps, p, q);
  }

  datatype Plan = Routed(mentions: seq<ResolvedMention>) | LookupFailed(mention: Mention)

  ghost predicate Resolvable(u: CharTable, byId: map<string, Agent>, ps: seq<Participant>, m: Mention) {
    exists r :: ResolvesTo(u, byId, ps, m, r)
  }

  /** Mention k has no participant or several agents, and every earlier one resolves. */
  ghost predicate FirstFailure(u: CharTable, byId: map<string, Agent>, ps: seq<Participant>, ms: seq<Mention>, k: nat)
    requires k < |ms|
  {
    && (forall j :: 0 <= j < k ==> Resolvable(u, byId, ps, ms[j]))
    && (Means(u, ParserToken(u, ms[k].name), byId, ps, NoMatch)
        || Means(u, ParserToken(u, ms[k].name), byId, ps, Ambiguous))
  }

  lemma FailsFirst(u: CharTable, byId: map<string, Agent>, ps: seq<Participant>, ms: seq<Mention>,
      resolved: seq<ResolvedMention>, i: nat, r: Resolution)
    requires i < |ms| && |resolved| == i && forall k :: 0 <= k < i ==> ResolvesTo(u, byId, ps, ms[k], resolved[k])
    requires Means(u, ParserToken(u, ms[i].name), byId, ps, r) && !r.Resolved?
    ensures FirstFailure(u, byId, ps, ms, i)
  {
    forall j | 0 <= j < i ensures Resolvable(u, byId, ps, ms[j]) {
      assert ResolvesTo(u, byId, ps, ms[j], resolved[j]);
    }
  }

  /** `resolve_mentions`: the first mention that cannot be resolved fails the whole message. */
  method ResolveMentions(u: CharTable, mentions: seq<Mention>, participants: seq<Participant>, agents: seq<Agent>)
      returns (plan: Plan)
    requires DistinctIds(participants)
    ensures plan.Routed? ==> |plan.mentions| == |mentions|
                             && forall k :: 0 <= k < |mentions| ==>
                                 ResolvesTo(u, AgentsById(agents), participants, mentions[k], plan.mentions[k])
    ensures plan.LookupFailed? ==>
      exists k :: 0 <= k < |mentions| && mentions[k] == plan.mention
          && FirstFailure(u, AgentsById(agents), participants, mentions, k)
  {
    var byId := map[];
    for i := 0 to |agents|
      invariant byId == AgentsById(agents[..i])
    {
      assert agents[..i + 1][..i] == agents[..i];
      byId := byId[agents[i].id := agents[i]];
    }
    assert agents[..|agents|] == agents;
    var resolved: seq<ResolvedMention> := [];
    for i := 0 to |mentions|
      invariant |resolved| == i
      invariant forall k :: 0 <= k < i ==> ResolvesTo(u, byId, participants, mentions[k], resolved[k])
    {
      var m := mentions[i];
      var r := ResolveSingleMention(u, ParserToken(u, m.name), participants, byId);
      if !r.Resolved? {
        FailsFirst(u, byId, participants, mentions, resolved, i, r);
        return LookupFailed(m);
      }
      var p := r.participant;
      resolved := resolved + [ResolvedMention(m.text, m.name, m.order, p.agentId, p.id, p.runtimeId)];
    }
    return Routed(resolved);
  }
}
