/** What holds after every run of the credential service on a clock that never goes back. */
module CredentialTheorems {
  import opened Seqs
  import opened Credentials
  import opened CredentialHistory

  // ------------------------------------------------------------------ authentication

  lemma ActiveRowHasHistory(s: Store, now: int, secret: string)
    requires Inv(s, now) && AuthenticateAnswer(s, now, secret).AuthActive?
    ensures HistoryActive(s.log, secret, now)
  {
    var i := FindHash(s.rows, HashSecret(secret)).value;
    var c := Creations(s.log)[i];
    assert RowAgrees(s, s.rows[i], c, now);
    assert c in Filter(s.log, Creates);
    forall e | e in s.log ensures !Retires(e, c.id) {
      assert !Ended(s.log, c.id);
    }
  }

  lemma HistoryHasActiveRow(s: Store, now: int, secret: string)
    requires Inv(s, now) && HistoryActive(s.log, secret, now)
    ensures AuthenticateAnswer(s, now, secret).AuthActive?
  {
    var c :| c in s.log && Creates(c) && c.secret == secret && Ahead(c.expiresAt, now)
             && forall e :: e in s.log ==> !Retires(e, c.id);
    assert c in Filter(s.log, Creates);
    var i :| 0 <= i < |Creations(s.log)| && Creations(s.log)[i] == c;
    assert RowAgrees(s, s.rows[i], c, now);
    FindHashAt(s.rows, i);
    assert Ended(s.log, c.id) ==> Lapsed(s.log, c.id);
  }

  /** A bearer secret authenticates as active exactly when the history says so: it was issued
      or came out of a rotation, its credential has not been rotated, revoked or expired by a
      request, and its expiry, if any, is ahead. Lazy expiry, which rewrites the row in the
      middle of an authentication, never shows. */
  lemma AuthenticationFollowsHistory(run: seq<Request>, start: int, last: int, now: int, secret: string)
    requires Timed(run, start, last) && last <= now
    ensures var s := ServeAll(EMPTY, run);
            AuthenticateAnswer(s, now, secret).AuthActive? <==> HistoryActive(s.log, secret, now)
  {
    EmptyOk(start);
    RunKeeps(EMPTY, start, run, last);
    var s := ServeAll(EMPTY, run);
    LaterClockKeeps(s, last, now, s.principals);
    if AuthenticateAnswer(s, now, secret).AuthActive? {
      ActiveRowHasHistory(s, now, secret);
    } else if HistoryActive(s.log, secret, now) {
      HistoryHasActiveRow(s, now, secret);
    }
  }

  /** A row of s seen again in t: only an active row can still be active, with the same expiry. */
  ghost predicate RowsAge(a: seq<Credential>, b: seq<Credential>) {
    KeepsKeys(a, b) && forall i :: 0 <= i < |a| && b[i].status.Active? ==>
        a[i].status.Active? && b[i].expiresAt == a[i].expiresAt
  }

  lemma RowsAgeOnce(s: Store, r: Request)
    ensures RowsAge(s.rows, Serve(s, r).rows)
  {
    match r
    case AddPrincipal(_, _) =>
    case IssueRequest(d, p, title, scopes, expires) => IssueAges(s, d, p, title, scopes, expires);
    case RotateRequest(d, id, scopes, expires, note) => RotateAges(s, d, id, scopes, expires, note);
    case RevokeRequest(now, id, reason, note) => RevokeAges(s, now, id, reason, note);
    case ExpireRequest(now, id, reason, note) => ExpireAges(s, now, id, reason, note);
    case AuthenticateRequest(now, secret, surface) => AuthenticateAges(s, now, secret, surface);
  }

  lemma IssueAges(s: Store, d: Draw, p: string, title: string, scopes: seq<string>, expires: ExpiryArgument)
    ensures RowsAge(s.rows, Issue(s, d, p, title, scopes, expires).0.rows)
  {
    var t := Issue(s, d, p, title, scopes, expires).0;
    assert t.rows == s.rows || t.rows[..|s.rows|] == s.rows;
  }

  lemma RevokeAges(s: Store, now: int, id: string, reason: Option<string>, note: Option<string>)
    ensures RowsAge(s.rows, Revoke(s, now, id, reason, note).0.rows)
  {
  }

  lemma ExpireAges(s: Store, now: int, id: string, reason: Option<string>, note: Option<string>)
    ensures RowsAge(s.rows, Expire(s, now, id, reason, note).0.rows)
  {
  }

  lemma AuthenticateAges(s: Store, now: int, secret: string, surface: string)
    ensures RowsAge(s.rows, Authenticate(s, now, secret, surface).0.rows)
  {
  }

  lemma RotateAges(s: Store, d: Draw, id: string, scopes: Option<seq<string>>, expires: ExpiryArgument,
      note: Option<string>)
    ensures RowsAge(s.rows, Rotate(s, d, id, scopes, expires, note).0.rows)
  {
    var (t, result) := Rotate(s, d, id, scopes, expires, note);
    if result.Ok? {
      var i := FindId(s.rows, id).value;
      assert t.rows[..|s.rows|] == s.rows[i := t.rows[i]];
      assert forall k :: 0 <= k < |s.rows| ==> t.rows[k] == if k == i then t.rows[i] else s.rows[k];
    }
  }

  lemma {:induction false} RowsAgeAlongRuns(s: Store, run: seq<Request>)
    ensures RowsAge(s.rows, ServeAll(s, run).rows)
    ensures s.principals <= ServeAll(s, run).principals
    decreases |run|
  {
    if run != [] {
      RowsAgeOnce(s, run[0]);
      RowsAgeAlongRuns(Serve(s, run[0]), run[1..]);
    }
  }

  /** The answers principal_missing and invalid_expires_at never come from a table that only
      the service has written. */
  lemma AnswersOfOwnTable(run: seq<Request>, start: int, last: int, now: int, secret: string)
    requires Timed(run, start, last)
    ensures var answer := AuthenticateAnswer(ServeAll(EMPTY, run), now, secret);
            !answer.PrincipalMissing? && !answer.InvalidExpiry?
  {
    EmptyOk(start);
    RunKeeps(EMPTY, start, run, last);
    var s := ServeAll(EMPTY, run);
    var found := FindHash(s.rows, HashSecret(secret));
    if found.Some? {
      assert RowAgrees(s, s.rows[found.value], Creations(s.log)[found.value], last);
    }
  }

  /** A known secret that is not active at some moment is not active at any later moment. */
  lemma OnceInactiveNeverActive(run: seq<Request>, start: int, now: int, later: seq<Request>, end: int, secret: string)
    requires Timed(run, start, now) && Timed(later, now, end)
    requires var answer := AuthenticateAnswer(ServeAll(EMPTY, run), now, secret);
        !answer.NoMatch? && !answer.AuthActive?
    ensures !AuthenticateAnswer(ServeAll(ServeAll(EMPTY, run), later), end, secret).AuthActive?
  {
    EmptyOk(start);
    RunKeeps(EMPTY, start, run, now);
    var s := ServeAll(EMPTY, run);
    RunKeeps(s, now, later, end);
    var t := ServeAll(s, later);
    RowsAgeAlongRuns(s, later);
    AnswersOfOwnTable(run, start, now, now, secret);
    TimedEnds(later, now, end);
    var i := FindHash(s.rows, HashSecret(secret)).value;
    assert t.rows[i].secretHash == s.rows[i].secretHash;
    FindHashAt(t.rows, i);
  }

  lemma {:induction false} TimedEnds(run: seq<Request>, from: int, to: int)
    requires Timed(run, from, to)
    ensures from <= to
  {
  }

  // ------------------------------------------------------------------ rotation chains

  /** Along a rotation the history moves forward and stays with one principal. */
  ghost predicate RotationsForward(log: seq<Event>) {
    forall k :: 0 <= k < |log| && log[k].Rotated? ==> Follows(log, k)
  }

  ghost predicate Follows(log: seq<Event>, k: nat)
    requires k < |log| && log[k].Rotated?
  {
    exists j :: 0 <= j < k && Creates(log[j]) && log[j].id == log[k].replaced
        && log[j].principalId == log[k].principalId
  }

  lemma FollowsExtends(log: seq<Event>, more: seq<Event>, k: nat)
    requires k < |log| && log[k].Rotated? && Follows(log, k)
    ensures Follows(log + more, k)
  {
    var j :| 0 <= j < k && Creates(log[j]) && log[j].id == log[k].replaced && log[j].principalId == log[k].principalId;
    assert (log + more)[j] == log[j];
  }

  lemma RotateGoesForward(s: Store, clock: int, d: Draw, id: string, scopes: Option<seq<string>>,
      expires: ExpiryArgument, note: Option<string>)
    requires Inv(s, clock) && Rotate(s, d, id, scopes, expires, note).1.Ok?
    ensures var t := Rotate(s, d, id, scopes, expires, note).0; Follows(t.log, |s.log|)
  {
    var t := Rotate(s, d, id, scopes, expires, note).0;
    var i := FindId(s.rows, id).value;
    var c := Creations(s.log)[i];
    assert RowAgrees(s, s.rows[i], c, clock);
    assert c in Filter(s.log, Creates);
    var j :| 0 <= j < |s.log| && s.log[j] == c;
    assert t.log[j] == c && t.log[|s.log|].replaced == c.id;
  }

  lemma ServeGoesForward(s: Store, clock: int, r: Request)
    requires Inv(s, clock) && RotationsForward(s.log)
    ensures RotationsForward(Serve(s, r).log)
  {
    if r.RotateRequest? {
      var (t, result) := Rotate(s, r.d, r.id, r.newScopes, r.expires, r.note);
      if result.Ok? {
        RotateGoesForward(s, clock, r.d, r.id, r.newScopes, r.expires, r.note);
        LogGoesForward(s.log, t.log[|s.log|]);
      }
    } else {
      var e := OthersRotateNothing(s, r);
      if e.Some? { LogGoesForward(s.log, e.value); }
    }
  }

  lemma LogGoesForward(log: seq<Event>, e: Event)
    requires RotationsForward(log) && (e.Rotated? ==> Follows(log + [e], |log|))
    ensures RotationsForward(log + [e])
  {
    forall k | 0 <= k < |log + [e]| && (log + [e])[k].Rotated? ensures Follows(log + [e], k) {
      if k < |log| { FollowsExtends(log, [e], k); }
    }
  }

  /** What a request other than a rotation logs: nothing, or one event that is no rotation. */
  lemma OthersRotateNothing(s: Store, r: Request) returns (e: Option<Event>)
    requires !r.RotateRequest?
    ensures Serve(s, r).log == s.log + (if e.Some? then [e.value] else [])
    ensures e.Some? ==> !e.value.Rotated?
  {
    var log := Serve(s, r).log;
    e := if log == s.log then None else Some(log[|s.log|]);
  }

  lemma {:induction false} RunGoesForward(s: Store, clock: int, run: seq<Request>, to: int)
    requires Inv(s, clock) && Timed(run, clock, to) && RotationsForward(s.log)
    ensures RotationsForward(ServeAll(s, run).log)
    decreases |run|
  {
    if run != [] {
      ServeKeeps(s, clock, run[0]);
      ServeGoesForward(s, clock, run[0]);
      RunGoesForward(Serve(s, run[0]), Now(run[0]), run[1..], to);
    }
  }

  /** The place of a creation among the creations. */
  function Place(log: seq<Event>, j: nat): nat
    requires j <= |log|
  {
    Count(log[..j], Creates)
  }

  lemma CreatedRow(s: Store, clock: int, j: nat)
    requires Inv(s, clock) && j < |s.log| && Creates(s.log[j])
    ensures Place(s.log, j) < |s.rows| && s.rows[Place(s.log, j)].id == s.log[j].id
  {
    FilterPlace(s.log, j, Creates);
    assert RowAgrees(s, s.rows[Place(s.log, j)], Creations(s.log)[Place(s.log, j)], clock);
  }

  lemma PlacesIncrease(log: seq<Event>, j: nat, k: nat)
    requires j < k < |log| && Creates(log[j])
    ensures Place(log, j) < Place(log, k)
  {
    assert log[..k] == log[..j + 1] + log[j + 1..k];
    CountAppend(log[..j + 1], log[j + 1..k], Creates);
    CountSnoc(log, j, Creates);
  }

  lemma CreationIdsDiffer(s: Store, clock: int, j: nat, k: nat)
    requires Inv(s, clock) && j < k < |s.log| && Creates(s.log[j]) && Creates(s.log[k])
    ensures s.log[j].id != s.log[k].id
  {
    CreatedRow(s, clock, j);
    CreatedRow(s, clock, k);
    PlacesIncrease(s.log, j, k);
  }

  /** Rotations form chains. A credential is replaced at most once, comes from at most one
      other, and was created before what replaces it, for the same principal; so following
      rotations never branches, never merges and never returns. A replaced credential is not
      stored as active: only the end of a chain can be. */
  lemma RotationsFormChains(run: seq<Request>, start: int, last: int)
    requires Timed(run, start, last)
    ensures var s := ServeAll(EMPTY, run);
            && (forall j, k :: 0 <= j < k < |s.log| && s.log[j].Rotated? && s.log[k].Rotated? ==>
                  s.log[j].replaced != s.log[k].replaced && s.log[j].id != s.log[k].id)
            && (forall k :: 0 <= k < |s.log| && s.log[k].Rotated? ==> Follows(s.log, k))
            && (forall k, i ::
                  0 <= k < |s.log| && 0 <= i < |s.rows| && s.log[k].Rotated? && s.rows[i].id == s.log[k].replaced ==>
                    !s.rows[i].status.Active?)
  {
    EmptyOk(start);
    RunKeeps(EMPTY, start, run, last);
    RunGoesForward(EMPTY, start, run, last);
    var s := ServeAll(EMPTY, run);
    forall j, k | 0 <= j < k < |s.log| && s.log[j].Rotated? && s.log[k].Rotated?
      ensures s.log[j].replaced != s.log[k].replaced && s.log[j].id != s.log[k].id
    {
      assert Deactivates(s.log[j], s.log[j].replaced) && Deactivates(s.log[k], s.log[k].replaced);
      CreationIdsDiffer(s, last, j, k);
    }
    forall k, i | 0 <= k < |s.log| && 0 <= i < |s.rows| && s.log[k].Rotated? && s.rows[i].id == s.log[k].replaced
      ensures !s.rows[i].status.Active?
    {
      assert RowAgrees(s, s.rows[i], Creations(s.log)[i], last);
      assert s.log[k] in s.log && Ends(s.log[k], s.rows[i].id);
    }
  }

  // ------------------------------------------------------------------ the count of active rows

  function ActiveOf(p: string): Credential -> bool {
    (row: Credential) => row.principalId == p && row.status.Active?
  }

  function IssuedTo(p: string): Event -> bool {
    (e: Event) => e.Issued? && e.principalId == p
  }

  /** A revocation, expiry or lazy expiry that found the row active. */
  function TakenOff(p: string): Event -> bool {
    (e: Event) => (((e.RevokedBy? || e.ExpiredBy?) && e.wasActive) || e.LapsedAt?) && e.principalId == p
  }

  ghost predicate Balanced(s: Store, p: string) {
    Count(s.rows, ActiveOf(p)) + Count(s.log, TakenOff(p)) == Count(s.log, IssuedTo(p))
  }

  lemma LogOne(log: seq<Event>, e: Event, p: string)
    ensures Count(log + [e], TakenOff(p)) == Count(log, TakenOff(p)) + (if TakenOff(p)(e) then 1 else 0)
    ensures Count(log + [e], IssuedTo(p)) == Count(log, IssuedTo(p)) + (if IssuedTo(p)(e) then 1 else 0)
  {
    CountAppend(log, [e], TakenOff(p));
    CountAppend(log, [e], IssuedTo(p));
  }

  lemma AppendBalances(s: Store, row: Credential, e: Event, p: string)
    requires Balanced(s, p) && row.status.Active? && e.Issued? && e.principalId == row.principalId
    ensures Balanced(s.(rows := s.rows + [row], log := s.log + [e]), p)
  {
    LogOne(s.log, e, p);
    CountAppend(s.rows, [row], ActiveOf(p));
  }

  lemma UpdateBalances(s: Store, i: nat, row: Credential, e: Event, p: string)
    requires Balanced(s, p) && i < |s.rows| && row.principalId == s.rows[i].principalId && !row.status.Active?
    requires !IssuedTo(p)(e) && (TakenOff(p)(e) <==> ActiveOf(p)(s.rows[i]))
    ensures Balanced(s.(rows := s.rows[i := row], log := s.log + [e]), p)
  {
    LogOne(s.log, e, p);
    CountUpdate(s.rows, i, row, ActiveOf(p));
  }

  lemma RotateBalances(s: Store, d: Draw, id: string, scopes: Option<seq<string>>, expires: ExpiryArgument,
      note: Option<string>, p: string)
    requires Balanced(s, p)
    ensures Balanced(Rotate(s, d, id, scopes, expires, note).0, p)
    ensures Count(Rotate(s, d, id, scopes, expires, note).0.rows, ActiveOf(p)) == Count(s.rows, ActiveOf(p))
  {
    var (t, result) := Rotate(s, d, id, scopes, expires, note);
    if result.Ok? {
      var i := FindId(s.rows, id).value;
      var revoked := t.rows[i];
      assert t.rows == s.rows[i := revoked] + [result.value];
      CountUpdate(s.rows, i, revoked, ActiveOf(p));
      CountAppend(s.rows[i := revoked], [result.value], ActiveOf(p));
      var e := t.log[|s.log|];
      assert t.log == s.log + [e];
      LogOne(s.log, e, p);
    }
  }

  lemma AuthenticateBalances(s: Store, now: int, secret: string, surface: string, p: string)
    requires Balanced(s, p)
    ensures Balanced(Authenticate(s, now, secret, surface).0, p)
  {
    var (t, answer) := Authenticate(s, now, secret, surface);
    var found := FindHash(s.rows, HashSecret(secret));
    if found.Some? {
      var i := found.value;
      if answer.AuthActive? {
        CountUpdate(s.rows, i, t.rows[i], ActiveOf(p));
      } else if answer.AuthExpired? && s.rows[i].status.Active? {
        UpdateBalances(s, i, t.rows[i], t.log[|s.log|], p);
      }
    }
  }

  lemma ServeBalances(s: Store, r: Request, p: string)
    requires Balanced(s, p)
    ensures Balanced(Serve(s, r), p)
  {
    match r
    case AddPrincipal(_, _) =>
    case IssueRequest(d, q, title, scopes, expires) =>
      var (t, result) := Issue(s, d, q, title, scopes, expires);
      if result.Ok? { AppendBalances(s, result.value, t.log[|s.log|], p); }
    case RotateRequest(d, id, scopes, expires, note) => RotateBalances(s, d, id, scopes, expires, note, p);
    case RevokeRequest(now, id, reason, note) =>
      var t := Revoke(s, now, id, reason, note).0;
      if t.log != s.log { var i := FindId(s.rows, id).value; UpdateBalances(s, i, t.rows[i], t.log[|s.log|], p); }
    case ExpireRequest(now, id, reason, note) =>
      var t := Expire(s, now, id, reason, note).0;
      if t.log != s.log { var i := FindId(s.rows, id).value; UpdateBalances(s, i, t.rows[i], t.log[|s.log|], p); }
    case AuthenticateRequest(now, secret, surface) => AuthenticateBalances(s, now, secret, surface, p);
  }

  lemma {:induction false} RunBalances(s: Store, run: seq<Request>, p: string)
    requires Balanced(s, p)
    ensures Balanced(ServeAll(s, run), p)
    decreases |run|
  {
    if run != [] {
      ServeBalances(s, run[0], p);
      RunBalances(Serve(s, run[0]), run[1..], p);
    }
  }

  /** A principal's active rows are those issued to it less those taken off by a revocation,
      an expiry or a lazy expiry, each row at most once; rotations change neither side. */
  lemma ActiveRowsBalance(run: seq<Request>, start: int, last: int, p: string)
    requires Timed(run, start, last)
    ensures var s := ServeAll(EMPTY, run);
            && Count(s.rows, ActiveOf(p)) == Count(s.log, IssuedTo(p)) - Count(s.log, TakenOff(p))
            && (forall j, k, id :: 0 <= j < k < |s.log| && Deactivates(s.log[j], id) ==> !Deactivates(s.log[k], id))
  {
    EmptyOk(start);
    RunKeeps(EMPTY, start, run, last);
    RunBalances(EMPTY, run, p);
  }

  /** A rotation that is refused, by a key collision or otherwise, changes nothing at all. */
  lemma RefusedRotationChangesNothing(s: Store, d: Draw, id: string, scopes: Option<seq<string>>,
      expires: ExpiryArgument, note: Option<string>)
    ensures Rotate(s, d, id, scopes, expires, note).1.Err? <==> Rotate(s, d, id, scopes, expires, note).0 == s
  {
    var (t, result) := Rotate(s, d, id, scopes, expires, note);
    assert result.Ok? ==> |t.rows| == |s.rows| + 1;
  }
}
