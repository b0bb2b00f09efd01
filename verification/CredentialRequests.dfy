/** What the credential service stores and answers, told from the requests themselves. */
module CredentialRequests {
  import opened Seqs
  import opened Credentials
  import opened CredentialHistory
  import opened CredentialTheorems

  /** An expiry argument that the service takes: none, or a time with its zone. */
  predicate Acceptable(expires: ExpiryArgument) {
    expires.Omitted? || (expires.Given? && expires.expiry.At?)
  }

  predicate Unused(rows: seq<Credential>, id: string, secret: string) {
    forall k :: 0 <= k < |rows| ==> rows[k].id != id && rows[k].secretHash != Digest(secret)
  }

  /** A new row as a request asks for it. */
  predicate AsAsked(row: Credential, d: Draw, principalId: string, title: string, scopes: seq<string>) {
    && row.id == d.id && row.principalId == principalId && row.title == title && row.scopes == scopes
    && row.secretHash == Digest(d.secret) && row.status.Active?
    && row.statusReason.None? && row.statusNote.None? && row.revokedAt.None? && row.lastUsedAt.None?
    && row.lastUsedSurface.None? && row.updatedAt == d.now
  }

  /** An issue succeeds exactly for a known principal, an acceptable expiry and an unused id and
      secret; it adds one row, which is as asked and expires when asked. */
  lemma IssueStoresTheRequest(s: Store, d: Draw, p: string, title: string, scopes: seq<string>, expires: ExpiryArgument)
    ensures var (t, result) := Issue(s, d, p, title, scopes, expires);
            && (result.Ok? <==> p in s.principals && Acceptable(expires) && Unused(s.rows, d.id, d.secret))
            && (p !in s.principals ==> result == Err(NotFound))
            && (p in s.principals && !Acceptable(expires) ==> result == Err(InvalidValue))
            && (result.Err? ==> t == s)
            && (result.Ok? ==>
                  && t.rows == s.rows + [result.value] && AsAsked(result.value, d, p, title, scopes)
                  && (expires.Omitted? ==> result.value.expiresAt.None?)
                  && (forall e :: expires == Given(At(e)) ==> result.value.expiresAt == Some(At(e))))
  {
    InsertableIsFresh(s.rows, d.id, HashSecret(d.secret));
  }

  /** A rotation succeeds exactly for an active row of a known principal, an acceptable expiry
      (the row's own when none is given) and an unused id and secret. The old row is revoked,
      and otherwise as it was; the new one has its principal and title, the scopes given or
      its scopes, and the expiry given or its expiry. */
  lemma RotateStoresTheRequest(s: Store, d: Draw, i: nat, scopes: Option<seq<string>>, expires: ExpiryArgument,
      note: Option<string>)
    requires KeysUnique(s.rows) && i < |s.rows|
    ensures var (t, result) := Rotate(s, d, s.rows[i].id, scopes, expires, note);
            var was := s.rows[i];
            var keeps := was.expiresAt.None? || was.expiresAt.value.At?;
            && (result.Ok? <==> was.status.Active? && was.principalId in s.principals
                                && (if expires.Omitted? then keeps else Acceptable(expires))
                                && Unused(s.rows, d.id, d.secret))
            && (result.Err? ==> t == s)
            && (result.Ok? ==>
                  && |t.rows| == |s.rows| + 1 && t.rows[|s.rows|] == result.value
                  && (forall k :: 0 <= k < |s.rows| && k != i ==> t.rows[k] == s.rows[k])
                  && t.rows[i] == was.(status := Revoked, statusReason := Some("rotated"), statusNote := note,
                                       revokedAt := Some(d.now), updatedAt := d.now)
                  && AsAsked(result.value, d, was.principalId, was.title,
                             if scopes.Some? then scopes.value else was.scopes)
                  && (expires.Omitted? ==> result.value.expiresAt == was.expiresAt)
                  && (forall e :: expires == Given(At(e)) ==> result.value.expiresAt == Some(At(e))))
  {
    FindIdAt(s.rows, i);
    InsertableIsFresh(s.rows, d.id, HashSecret(d.secret));
  }

  /** A revocation marks the row, unless it is revoked already, and leaves all else. */
  lemma RevokeMarksTheRow(s: Store, now: int, i: nat, reason: Option<string>, note: Option<string>)
    requires KeysUnique(s.rows) && i < |s.rows|
    ensures var t := Revoke(s, now, s.rows[i].id, reason, note).0;
            && |t.rows| == |s.rows| && t.rows[i].status.Revoked?
            && (forall k :: 0 <= k < |s.rows| && k != i ==> t.rows[k] == s.rows[k])
            && (if s.rows[i].status.Revoked? then t.rows[i] == s.rows[i]
                else
                  t.rows[i] == s.rows[i].(status := Revoked, statusNote := note, revokedAt := Some(now),
                      updatedAt := now,
                                          statusReason := if reason.Some? then reason else Some("revoked")))
  {
    FindIdAt(s.rows, i);
  }

  /** An expiry by request marks the row, unless it is expired already, and gives it an expiry
      time if it has none. */
  lemma ExpireMarksTheRow(s: Store, now: int, i: nat, reason: Option<string>, note: Option<string>)
    requires KeysUnique(s.rows) && i < |s.rows|
    ensures var t := Expire(s, now, s.rows[i].id, reason, note).0;
            && |t.rows| == |s.rows| && t.rows[i].status.Expired?
            && (forall k :: 0 <= k < |s.rows| && k != i ==> t.rows[k] == s.rows[k])
            && (if s.rows[i].status.Expired? then t.rows[i] == s.rows[i]
                else
                  t.rows[i] == s.rows[i].(status := Expired, statusNote := note, updatedAt := now,
                                          statusReason := if reason.Some? then reason else Some("expired"),
                                          expiresAt := if s.rows[i].expiresAt.Some? then s.rows[i].expiresAt
                                              else Some(At(now))))
  {
    FindIdAt(s.rows, i);
  }

  /** The answer for a secret is read off its row; without a row there is no match. */
  lemma AnswerTellsTheRow(s: Store, now: int, secret: string, i: nat)
    requires KeysUnique(s.rows) && i < |s.rows| && s.rows[i].secretHash == Digest(secret)
    ensures var row, answer := s.rows[i], AuthenticateAnswer(s, now, secret);
            && !answer.NoMatch?
            && (answer.PrincipalMissing? <==> row.principalId !in s.principals)
            && (row.principalId in s.principals ==>
                  && (answer.AuthRevoked? <==> row.status.Revoked?)
                  && (answer.AuthActive? <==>
                        row.status.Active? && (row.expiresAt.None?
                            || (row.expiresAt.value.At? && now < row.expiresAt.value.time)))
                  && (answer.AuthExpired? <==>
                        || row.status.Expired?
                        || (row.status.Active? && row.expiresAt.Some? && row.expiresAt.value.At?
                            && row.expiresAt.value.time <= now)))
  {
    FindHashAt(s.rows, i);
  }

  lemma UnknownSecretMatchesNothing(s: Store, now: int, secret: string)
    ensures AuthenticateAnswer(s, now, secret).NoMatch? <==> forall k :: 0 <= k < |s.rows| ==>
        s.rows[k].secretHash != Digest(secret)
  {
  }

  /** An authentication marks the use of an active row, stores a lapse, and writes nothing else. */
  lemma AuthenticateMarksTheRow(s: Store, now: int, secret: string, surface: string, i: nat)
    requires KeysUnique(s.rows) && i < |s.rows| && s.rows[i].secretHash == Digest(secret)
    ensures var (t, answer) := Authenticate(s, now, secret, surface);
            && answer == AuthenticateAnswer(s, now, secret)
            && |t.rows| == |s.rows| && (forall k :: 0 <= k < |s.rows| && k != i ==> t.rows[k] == s.rows[k])
            && (answer.AuthActive? ==>
                  t.rows[i] == s.rows[i].(lastUsedAt := Some(now), lastUsedSurface := Some(surface), updatedAt := now))
            && (answer.AuthExpired? && s.rows[i].status.Active? ==>
                  t.rows[i] == s.rows[i].(status := Expired, statusReason := Some("expired"), updatedAt := now))
            && (!answer.AuthActive? && !(answer.AuthExpired? && s.rows[i].status.Active?) ==> t == s)
  {
    FindHashAt(s.rows, i);
  }

  // ------------------------------------------------------------------ how long a secret lives

  /** The request ends the credential by itself, whatever its state. */
  predicate EndsById(r: Request, id: string) {
    (r.RevokeRequest? || r.ExpireRequest?) && r.id == id
  }

  predicate NamesId(r: Request, id: string) {
    EndsById(r, id) || (r.RotateRequest? && r.id == id)
  }

  predicate PastDue(expiresAt: Option<Expiry>, now: int) {
    expiresAt.Some? && expiresAt.value.At? && expiresAt.value.time <= now
  }

  /** Row i is still the credential that it was: active with its expiry, or lapsed in time. */
  predicate Lives(t: Store, i: nat, was: Credential, clock: int) {
    && i < |t.rows| && t.rows[i].id == was.id && t.rows[i].secretHash == was.secretHash
    && t.rows[i].principalId == was.principalId
    && (|| (t.rows[i].status.Active? && t.rows[i].expiresAt == was.expiresAt)
        || (t.rows[i].status.Expired? && PastDue(was.expiresAt, clock)))
  }

  lemma LivesOneRequest(s: Store, clock: int, r: Request, i: nat, was: Credential)
    requires Inv(s, clock) && Lives(s, i, was, clock) && clock <= Now(r) && !NamesId(r, was.id)
    ensures Lives(Serve(s, r), i, was, Now(r))
  {
    match r
    case AddPrincipal(_, _) =>
    case IssueRequest(d, p, title, scopes, expires) => IssueStoresTheRequest(s, d, p, title, scopes, expires);
    case RotateRequest(d, id, scopes, expires, note) =>
      if FindId(s.rows, id).Some? { RotateStoresTheRequest(s, d, FindId(s.rows, id).value, scopes, expires, note); }
    case RevokeRequest(now, id, reason, note) =>
      if FindId(s.rows, id).Some? { RevokeMarksTheRow(s, now, FindId(s.rows, id).value, reason, note); }
    case ExpireRequest(now, id, reason, note) =>
      if FindId(s.rows, id).Some? { ExpireMarksTheRow(s, now, FindId(s.rows, id).value, reason, note); }
    case AuthenticateRequest(now, secret, surface) =>
      if FindHash(s.rows, HashSecret(secret)).Some? {
        AuthenticateMarksTheRow(s, now, secret, surface, FindHash(s.rows, HashSecret(secret)).value);
      }
  }

  lemma {:induction false} LivesAlongRun(s: Store, clock: int, run: seq<Request>, end: int, i: nat, was: Credential)
    requires Inv(s, clock) && Lives(s, i, was, clock) && Timed(run, clock, end)
    requires forall k :: 0 <= k < |run| ==> !NamesId(run[k], was.id)
    ensures Lives(ServeAll(s, run), i, was, end)
    decreases |run|
  {
    if run != [] {
      assert !NamesId(run[0], was.id);
      LivesOneRequest(s, clock, run[0], i, was);
      ServeKeeps(s, clock, run[0]);
      LivesAlongRun(Serve(s, run[0]), Now(run[0]), run[1..], end, i, was);
    }
  }

  lemma EndedByRequest(s: Store, clock: int, r: Request, i: nat)
    requires Inv(s, clock) && i < |s.rows| && EndsById(r, s.rows[i].id)
    ensures i < |Serve(s, r).rows| && !Serve(s, r).rows[i].status.Active?
  {
    match r
    case RevokeRequest(now, id, reason, note) => RevokeMarksTheRow(s, now, i, reason, note);
    case ExpireRequest(now, id, reason, note) => ExpireMarksTheRow(s, now, i, reason, note);
  }

  lemma {:induction false} EndedAlongRun(s: Store, clock: int, run: seq<Request>, end: int, i: nat)
    requires Inv(s, clock) && i < |s.rows| && Timed(run, clock, end)
    requires exists k :: 0 <= k < |run| && EndsById(run[k], s.rows[i].id)
    ensures i < |ServeAll(s, run).rows| && !ServeAll(s, run).rows[i].status.Active?
    decreases |run|
  {
    var next := Serve(s, run[0]);
    RowsAgeOnce(s, run[0]);
    ServeKeeps(s, clock, run[0]);
    RowsAgeAlongRuns(next, run[1..]);
    if EndsById(run[0], s.rows[i].id) {
      EndedByRequest(s, clock, run[0], i);
    } else {
      var k :| 0 <= k < |run| && EndsById(run[k], s.rows[i].id);
      assert run[1..][k - 1] == run[k];
      EndedAlongRun(next, Now(run[0]), run[1..], end, i);
    }
  }

  lemma PrincipalsStay(s: Store, run: seq<Request>)
    ensures s.principals <= ServeAll(s, run).principals
    decreases |run|
  {
    if run != [] { PrincipalsStay(Serve(s, run[0]), run[1..]); }
  }

  /** What becomes of the secret of an active row: it is never active past its expiry, nor after
      a revocation or expiry of its credential; and as long as no request names its credential
      it is active exactly until its expiry. */
  lemma SecretLives(s: Store, clock: int, i: nat, secret: string, later: seq<Request>, end: int)
    requires Inv(s, clock) && i < |s.rows| && s.rows[i].status.Active? && s.rows[i].secretHash == Digest(secret)
    requires Timed(later, clock, end)
    ensures var active := AuthenticateAnswer(ServeAll(s, later), end, secret).AuthActive?;
            && (active ==> !PastDue(s.rows[i].expiresAt, end))
            && (active ==> forall k :: 0 <= k < |later| ==> !EndsById(later[k], s.rows[i].id))
            && ((forall k :: 0 <= k < |later| ==> !NamesId(later[k], s.rows[i].id)) ==>
                  (active <==> !PastDue(s.rows[i].expiresAt, end)))
  {
    var t, was := ServeAll(s, later), s.rows[i];
    RunKeeps(s, clock, later, end);
    RowsAgeAlongRuns(s, later);
    PrincipalsStay(s, later);
    assert RowAgrees(s, was, Creations(s.log)[i], clock);
    assert t.rows[i].secretHash == was.secretHash && t.rows[i].principalId == was.principalId;
    AnswerTellsTheRow(t, end, secret, i);
    if exists k :: 0 <= k < |later| && EndsById(later[k], was.id) {
      EndedAlongRun(s, clock, later, end, i);
    }
    if forall k :: 0 <= k < |later| ==> !NamesId(later[k], was.id) {
      LivesAlongRun(s, clock, later, end, i, was);
    }
  }

  /** The time, if any, that a request asks for is the time at which its secret stops. */
  predicate AskedOver(expires: ExpiryArgument, now: int) {
    expires.Given? && expires.expiry.At? && expires.expiry.time <= now
  }

  /** An issued secret lives as the issue asked: over every earlier and every later run, it is
      never active at or after the expiry asked for, and while no later request names its
      credential it is active exactly until then, for ever if none was asked for. */
  lemma IssuedSecretLivesAsAsked(run: seq<Request>, start: int, mid: int, d: Draw, p: string, title: string,
      scopes: seq<string>, expires: ExpiryArgument, later: seq<Request>, end: int)
    requires Timed(run, start, mid) && mid <= d.now && Timed(later, d.now, end)
    requires Issue(ServeAll(EMPTY, run), d, p, title, scopes, expires).1.Ok?
    ensures var t := ServeAll(Issue(ServeAll(EMPTY, run), d, p, title, scopes, expires).0, later);
            var active := AuthenticateAnswer(t, end, d.secret).AuthActive?;
            && (active ==> !AskedOver(expires, end))
            && ((forall k :: 0 <= k < |later| ==> !NamesId(later[k], d.id)) ==> (active <==> !AskedOver(expires, end)))
  {
    EmptyOk(start);
    RunKeeps(EMPTY, start, run, mid);
    var s := ServeAll(EMPTY, run);
    ServeKeeps(s, mid, IssueRequest(d, p, title, scopes, expires));
    IssueStoresTheRequest(s, d, p, title, scopes, expires);
    SecretLives(Issue(s, d, p, title, scopes, expires).0, d.now, |s.rows|, d.secret, later, end);
  }

  /** The same for the secret of a rotation, which without an expiry of its own has the one of
      the row it replaces; and the replaced secret is not active from then on. */
  lemma RotatedSecretLivesAsAsked(run: seq<Request>, start: int, mid: int, d: Draw, i: nat, scopes: Option<seq<string>>,
      expires: ExpiryArgument, note: Option<string>, secret: string, later: seq<Request>, end: int)
    requires Timed(run, start, mid) && mid <= d.now && Timed(later, d.now, end) && i < |ServeAll(EMPTY, run).rows|
    requires ServeAll(EMPTY, run).rows[i].secretHash == Digest(secret)
    requires Rotate(ServeAll(EMPTY, run), d, ServeAll(EMPTY, run).rows[i].id, scopes, expires, note).1.Ok?
    ensures var s := ServeAll(EMPTY, run);
            var t := ServeAll(Rotate(s, d, s.rows[i].id, scopes, expires, note).0, later);
            var over := if expires.Omitted? then PastDue(s.rows[i].expiresAt, end) else AskedOver(expires, end);
            var active := AuthenticateAnswer(t, end, d.secret).AuthActive?;
            && (active ==> !over)
            && ((forall k :: 0 <= k < |later| ==> !NamesId(later[k], d.id)) ==> (active <==> !over))
            && !AuthenticateAnswer(t, end, secret).AuthActive?
  {
    EmptyOk(start);
    RunKeeps(EMPTY, start, run, mid);
    RotatedSecretLives(ServeAll(EMPTY, run), mid, d, i, scopes, expires, note, later, end);
    RotationEndsTheOld(ServeAll(EMPTY, run), mid, d, i, scopes, expires, note, secret, later, end);
  }

  lemma RotatedSecretLives(s: Store, clock: int, d: Draw, i: nat, scopes: Option<seq<string>>, expires: ExpiryArgument,
      note: Option<string>, later: seq<Request>, end: int)
    requires Inv(s, clock) && clock <= d.now && Timed(later, d.now, end) && i < |s.rows|
    requires Rotate(s, d, s.rows[i].id, scopes, expires, note).1.Ok?
    ensures var t := ServeAll(Rotate(s, d, s.rows[i].id, scopes, expires, note).0, later);
            var over := if expires.Omitted? then PastDue(s.rows[i].expiresAt, end) else AskedOver(expires, end);
            var active := AuthenticateAnswer(t, end, d.secret).AuthActive?;
            && (active ==> !over)
            && ((forall k :: 0 <= k < |later| ==> !NamesId(later[k], d.id)) ==> (active <==> !over))
  {
    ServeKeeps(s, clock, RotateRequest(d, s.rows[i].id, scopes, expires, note));
    RotateStoresTheRequest(s, d, i, scopes, expires, note);
    SecretLives(Rotate(s, d, s.rows[i].id, scopes, expires, note).0, d.now, |s.rows|, d.secret, later, end);
  }

  lemma RotationEndsTheOld(s: Store, clock: int, d: Draw, i: nat, scopes: Option<seq<string>>, expires: ExpiryArgument,
      note: Option<string>, secret: string, later: seq<Request>, end: int)
    requires Inv(s, clock) && clock <= d.now && Timed(later, d.now, end) && i < |s.rows|
    requires Rotate(s, d, s.rows[i].id, scopes, expires, note).1.Ok? && s.rows[i].secretHash == Digest(secret)
    ensures var t := ServeAll(Rotate(s, d, s.rows[i].id, scopes, expires, note).0, later);
            !AuthenticateAnswer(t, end, secret).AuthActive?
  {
    ServeKeeps(s, clock, RotateRequest(d, s.rows[i].id, scopes, expires, note));
    RotateStoresTheRequest(s, d, i, scopes, expires, note);
    ReplacedIsOver(Rotate(s, d, s.rows[i].id, scopes, expires, note).0, d.now, i, secret, later, end);
  }

  lemma ReplacedIsOver(u: Store, clock: int, i: nat, secret: string, later: seq<Request>, end: int)
    requires Inv(u, clock) && i < |u.rows| && !u.rows[i].status.Active? && u.rows[i].secretHash == Digest(secret)
    requires Timed(later, clock, end)
    ensures !AuthenticateAnswer(ServeAll(u, later), end, secret).AuthActive?
  {
    RunKeeps(u, clock, later, end);
    RowsAgeAlongRuns(u, later);
    AnswerTellsTheRow(ServeAll(u, later), end, secret, i);
  }
}
