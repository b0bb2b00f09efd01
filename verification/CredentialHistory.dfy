/** Whole runs of the credential service: the stored table agrees with the history. */
module CredentialHistory {
  import opened Seqs
  import opened Credentials

  datatype Request =
    | AddPrincipal(now: int, principalId: string)
    | IssueRequest(d: Draw, principalId: string, title: string, scopes: seq<string>, expires: ExpiryArgument)
    | RotateRequest(d: Draw, id: string, newScopes: Option<seq<string>>, expires: ExpiryArgument, note: Option<string>)
    | RevokeRequest(now: int, id: string, reason: Option<string>, note: Option<string>)
    | ExpireRequest(now: int, id: string, reason: Option<string>, note: Option<string>)
    | AuthenticateRequest(now: int, secret: string, surface: string)

  function Now(r: Request): int {
    match r
    case IssueRequest(d, _, _, _, _) => d.now
    case RotateRequest(d, _, _, _, _) => d.now
    case _ => r.now
  }

  function Serve(s: Store, r: Request): Store {
    match r
    case AddPrincipal(_, p) => s.(principals := s.principals + {p})
    case IssueRequest(d, p, title, scopes, expires) => Issue(s, d, p, title, scopes, expires).0
    case RotateRequest(d, id, scopes, expires, note) => Rotate(s, d, id, scopes, expires, note).0
    case RevokeRequest(now, id, reason, note) => Revoke(s, now, id, reason, note).0
    case ExpireRequest(now, id, reason, note) => Expire(s, now, id, reason, note).0
    case AuthenticateRequest(now, secret, surface) => Authenticate(s, now, secret, surface).0
  }

  function ServeAll(s: Store, run: seq<Request>): Store
    decreases |run|
  {
    if run == [] then s else ServeAll(Serve(s, run[0]), run[1..])
  }

  /** The clock never goes back: `from` bounds the run from below, `to` from above. */
  predicate Timed(run: seq<Request>, from: int, to: int)
    decreases |run|
  {
    from <= to && (run == [] || (from <= Now(run[0]) && Timed(run[1..], Now(run[0]), to)))
  }

  const EMPTY := Store({}, [], [])

  // ------------------------------------------------------------------ the simple history

  predicate Creates(e: Event) {
    e.Issued? || e.Rotated?
  }

  /** The history says that the credential was rotated, revoked or expired by a request. */
  predicate Retires(e: Event, id: string) {
    || (e.Rotated? && e.replaced == id)
    || (e.RevokedBy? && e.id == id)
    || (e.ExpiredBy? && e.id == id)
  }

  predicate Ahead(expiresAt: Option<Expiry>, now: int) {
    match expiresAt
    case None => true
    case Some(At(t)) => now < t
    case Some(_) => false
  }

  /** The secret was handed out, nothing has retired its credential, its expiry is ahead. */
  ghost predicate HistoryActive(log: seq<Event>, secret: string, now: int) {
    exists c :: c in log && Creates(c) && c.secret == secret && Ahead(c.expiresAt, now)
                && forall e :: e in log ==> !Retires(e, c.id)
  }

  // ------------------------------------------------------------------ the invariant

  function Creations(log: seq<Event>): (cs: seq<Event>)
    ensures forall i :: 0 <= i < |cs| ==> Creates(cs[i])
  {
    var cs := Filter(log, Creates);
    assert forall i :: 0 <= i < |cs| ==> cs[i] in cs;
    cs
  }

  lemma CreationsSnoc(log: seq<Event>, e: Event)
    ensures Creations(log + [e]) == Creations(log) + (if Creates(e) then [e] else [])
  {
    FilterAppend(log, [e], Creates);
  }

  predicate Ends(e: Event, id: string) {
    Retires(e, id) || (e.LapsedAt? && e.id == id)
  }

  /** The event took the row off its principal's count of active rows. */
  predicate Deactivates(e: Event, id: string) {
    || (e.Rotated? && e.replaced == id)
    || (e.RevokedBy? && e.id == id && e.wasActive)
    || (e.ExpiredBy? && e.id == id && e.wasActive)
    || (e.LapsedAt? && e.id == id)
  }

  ghost predicate KeysUnique(rows: seq<Credential>) {
    forall i, j :: 0 <= i < j < |rows| ==> rows[i].id != rows[j].id && rows[i].secretHash != rows[j].secretHash
  }

  ghost predicate Ended(log: seq<Event>, id: string) {
    exists e :: e in log && Ends(e, id)
  }

  ghost predicate Lapsed(log: seq<Event>, id: string) {
    exists e :: e in log && e.LapsedAt? && e.id == id
  }

  lemma EndedSnoc(log: seq<Event>, e: Event, id: string)
    ensures Ended(log + [e], id) <==> Ended(log, id) || Ends(e, id)
    ensures Lapsed(log + [e], id) <==> Lapsed(log, id) || (e.LapsedAt? && e.id == id)
  {
    assert forall x :: x in log + [e] <==> x in log || x == e;
    assert e in log + [e];
  }

  /** One row and the event that created it. */
  ghost predicate RowAgrees(s: Store, row: Credential, c: Event, clock: int)
    requires Creates(c)
  {
    && row.id == c.id && row.principalId == c.principalId && row.secretHash == Digest(c.secret)
    && row.principalId in s.principals
    && (c.expiresAt.Some? ==> c.expiresAt.value.At?) && (row.expiresAt.Some? ==> row.expiresAt.value.At?)
    && (row.status.Active? <==> !Ended(s.log, row.id))
    && (row.status.Active? ==> row.expiresAt == c.expiresAt)
    && (Lapsed(s.log, row.id) ==> !Ahead(c.expiresAt, clock))
  }

  ghost predicate RowsAgree(s: Store, clock: int) {
    var cs := Creations(s.log);
    |s.rows| == |cs| && forall i :: 0 <= i < |s.rows| ==> RowAgrees(s, s.rows[i], cs[i], clock)
  }

  predicate Present(rows: seq<Credential>, id: string) {
    exists k :: 0 <= k < |rows| && rows[k].id == id
  }

  /** What Insertable means. */
  predicate Fresh(rows: seq<Credential>, id: string, h: Digest) {
    forall k :: 0 <= k < |rows| ==> rows[k].id != id && rows[k].secretHash != h
  }

  lemma InsertableIsFresh(rows: seq<Credential>, id: string, h: Digest)
    ensures Insertable(rows, id, h) <==> Fresh(rows, id, h)
  {
  }

  /** An event names only rows that are in the table. */
  predicate NamesPresent(rows: seq<Credential>, e: Event) {
    match e
    case Rotated(replaced, id, _, _, _) => Present(rows, replaced) && Present(rows, id)
    case _ => Present(rows, e.id)
  }

  ghost predicate DeactivatedOnce(log: seq<Event>) {
    forall j, k, id :: 0 <= j < k < |log| && Deactivates(log[j], id) ==> !Deactivates(log[k], id)
  }

  ghost predicate Inv(s: Store, clock: int) {
    && KeysUnique(s.rows)
    && RowsAgree(s, clock)
    && (forall e :: e in s.log ==> NamesPresent(s.rows, e))
    && DeactivatedOnce(s.log)
  }

  // ------------------------------------------------------------------ lookups

  lemma {:induction false} FindIdAt(rows: seq<Credential>, i: nat)
    requires KeysUnique(rows) && i < |rows|
    ensures FindId(rows, rows[i].id) == Some(i)
  {
    var f := FindId(rows, rows[i].id);
    assert f.Some? && rows[f.value].id == rows[i].id;
  }

  lemma SameHashSameRow(rows: seq<Credential>, i: nat, k: nat)
    requires KeysUnique(rows) && i < |rows| && k < |rows| && rows[i].secretHash == rows[k].secretHash
    ensures i == k
  {
  }

  lemma FindHashAt(rows: seq<Credential>, i: nat)
    requires KeysUnique(rows) && i < |rows|
    ensures FindHash(rows, rows[i].secretHash) == Some(i)
  {
    var f := FindHash(rows, rows[i].secretHash);
    SameHashSameRow(rows, i, f.value);
  }

  /** Nothing in the service renames a row or drops one. */
  ghost predicate KeepsKeys(a: seq<Credential>, b: seq<Credential>) {
    |a| <= |b| && forall i :: 0 <= i < |a| ==>
        b[i].id == a[i].id && b[i].secretHash == a[i].secretHash && b[i].principalId == a[i].principalId
  }

  lemma PresentStays(a: seq<Credential>, b: seq<Credential>, id: string)
    requires KeepsKeys(a, b) && Present(a, id)
    ensures Present(b, id)
  {
    var i :| 0 <= i < |a| && a[i].id == id;
    assert b[i].id == id;
  }

  lemma NamesPresentStays(a: seq<Credential>, b: seq<Credential>, log: seq<Event>)
    requires KeepsKeys(a, b) && forall e :: e in log ==> NamesPresent(a, e)
    ensures forall e :: e in log ==> NamesPresent(b, e)
  {
    forall e | e in log ensures NamesPresent(b, e) {
      if e.Rotated? { PresentStays(a, b, e.replaced); }
      PresentStays(a, b, e.id);
    }
  }

  lemma AppendKeys(rows: seq<Credential>, row: Credential)
    requires KeysUnique(rows) && Fresh(rows, row.id, row.secretHash)
    ensures KeysUnique(rows + [row])
  {
  }

  lemma UpdateKeys(rows: seq<Credential>, i: nat, row: Credential)
    requires KeysUnique(rows) && i < |rows| && row.id == rows[i].id && row.secretHash == rows[i].secretHash
    ensures KeysUnique(rows[i := row])
  {
  }

  // ------------------------------------------------------------------ shapes of change

  /** A new row agrees with its creating event: no earlier event can name its id. */
  lemma NewRowAgrees(s: Store, t: Store, clock: int, row: Credential, c: Event)
    requires (forall e :: e in s.log ==> NamesPresent(s.rows, e)) && Creates(c) && !Ends(c, row.id)
    requires Fresh(s.rows, row.id, row.secretHash) && row.status.Active?
    requires row.id == c.id && row.principalId == c.principalId && row.secretHash == Digest(c.secret)
    requires row.principalId in s.principals && row.expiresAt == c.expiresAt
        && (c.expiresAt.Some? ==> c.expiresAt.value.At?)
    requires t.log == s.log + [c] && t.principals == s.principals
    ensures RowAgrees(t, row, c, clock)
  {
    EndedSnoc(s.log, c, row.id);
    forall e | e in s.log ensures !Ends(e, row.id) {
      assert NamesPresent(s.rows, e);
    }
  }

  /** An untouched row still agrees after an event that does not end it. */
  lemma OldRowStays(s: Store, t: Store, i: nat, clock: int, e: Event)
    requires RowsAgree(s, clock) && i < |s.rows| && i < |t.rows| && t.rows[i] == s.rows[i]
    requires t.log == s.log + [e] && !Ends(e, s.rows[i].id) && s.principals <= t.principals
    ensures RowAgrees(t, t.rows[i], Creations(s.log)[i], clock)
  {
    assert RowAgrees(s, s.rows[i], Creations(s.log)[i], clock);
    EndedSnoc(s.log, e, s.rows[i].id);
  }

  /** A row that event e ends agrees with its creation once e is logged. */
  lemma EndedRowAgrees(s: Store, t: Store, i: nat, row: Credential, clock: int, e: Event)
    requires RowsAgree(s, clock) && i < |s.rows|
    requires row.id == s.rows[i].id && row.principalId == s.rows[i].principalId
        && row.secretHash == s.rows[i].secretHash
    requires !row.status.Active? && (row.expiresAt.Some? ==> row.expiresAt.value.At?)
    requires t.log == s.log + [e] && Ends(e, row.id) && s.principals == t.principals
    requires e.LapsedAt? ==> !Ahead(Creations(s.log)[i].expiresAt, clock)
    ensures RowAgrees(t, row, Creations(s.log)[i], clock)
  {
    assert RowAgrees(s, s.rows[i], Creations(s.log)[i], clock);
    EndedSnoc(s.log, e, row.id);
  }

  lemma LogNames(s: Store, t: Store, e: Event)
    requires (forall x :: x in s.log ==> NamesPresent(s.rows, x)) && KeepsKeys(s.rows, t.rows)
    requires t.log == s.log + [e] && NamesPresent(t.rows, e)
    ensures forall x :: x in t.log ==> NamesPresent(t.rows, x)
  {
    NamesPresentStays(s.rows, t.rows, s.log);
  }

  /** A new row, with its creating event, behind a table whose keys it respects. */
  lemma AppendKeeps(s: Store, clock: int, row: Credential, c: Event)
    requires Inv(s, clock) && c.Issued? && row.status.Active?
    requires Fresh(s.rows, row.id, row.secretHash)
    requires row.id == c.id && row.principalId == c.principalId && row.secretHash == Digest(c.secret)
    requires row.principalId in s.principals && row.expiresAt == c.expiresAt
        && (c.expiresAt.Some? ==> c.expiresAt.value.At?)
    ensures Inv(s.(rows := s.rows + [row], log := s.log + [c]), clock)
  {
    var t := s.(rows := s.rows + [row], log := s.log + [c]);
    AppendKeys(s.rows, row);
    assert t.rows[|s.rows|].id == c.id;
    LogNames(s, t, c);
    AppendedRowsAgree(s, t, clock, row, c);
  }

  lemma AppendedRowsAgree(s: Store, t: Store, clock: int, row: Credential, c: Event)
    requires Inv(s, clock) && c.Issued? && row.status.Active?
    requires Fresh(s.rows, row.id, row.secretHash)
    requires row.id == c.id && row.principalId == c.principalId && row.secretHash == Digest(c.secret)
    requires row.principalId in s.principals && row.expiresAt == c.expiresAt
        && (c.expiresAt.Some? ==> c.expiresAt.value.At?)
    requires t == s.(rows := s.rows + [row], log := s.log + [c])
    ensures RowsAgree(t, clock)
  {
    CreationsSnoc(s.log, c);
    NewRowAgrees(s, t, clock, row, c);
    forall i | 0 <= i < |s.rows| ensures RowAgrees(t, t.rows[i], Creations(s.log)[i], clock) {
      OldRowUnderNewId(s, t, i, clock, c);
    }
    forall i | 0 <= i < |t.rows| ensures RowAgrees(t, t.rows[i], Creations(t.log)[i], clock) {
      assert i < |s.rows| ==> Creations(t.log)[i] == Creations(s.log)[i];
    }
  }

  /** An issue under a fresh id ends no row. */
  lemma OldRowUnderNewId(s: Store, t: Store, i: nat, clock: int, c: Event)
    requires RowsAgree(s, clock) && i < |s.rows| && i < |t.rows| && t.rows[i] == s.rows[i]
    requires c.Issued? && t.log == s.log + [c] && s.principals <= t.principals
    ensures RowAgrees(t, t.rows[i], Creations(s.log)[i], clock)
  {
    OldRowStays(s, t, i, clock, c);
  }

  /** Row i leaves the state it had through event e, which is not a creation. */
  lemma EndKeeps(s: Store, clock: int, i: nat, row: Credential, e: Event)
    requires Inv(s, clock) && i < |s.rows|
    requires row.id == s.rows[i].id && row.principalId == s.rows[i].principalId
        && row.secretHash == s.rows[i].secretHash
    requires !row.status.Active? && (row.expiresAt.Some? ==> row.expiresAt.value.At?)
    requires !Creates(e) && e.id == row.id && Ends(e, row.id)
    requires Deactivates(e, row.id) <==> s.rows[i].status.Active?
    requires e.LapsedAt? ==> !Ahead(Creations(s.log)[i].expiresAt, clock)
    ensures Inv(s.(rows := s.rows[i := row], log := s.log + [e]), clock)
  {
    var t := s.(rows := s.rows[i := row], log := s.log + [e]);
    UpdateKeys(s.rows, i, row);
    assert t.rows[i].id == e.id;
    LogNames(s, t, e);
    EndedRowsAgree(s, t, clock, i, row, e);
    NotDeactivatedYet(s, clock, i, e);
  }

  lemma EndedRowsAgree(s: Store, t: Store, clock: int, i: nat, row: Credential, e: Event)
    requires Inv(s, clock) && i < |s.rows|
    requires row.id == s.rows[i].id && row.principalId == s.rows[i].principalId
        && row.secretHash == s.rows[i].secretHash
    requires !row.status.Active? && (row.expiresAt.Some? ==> row.expiresAt.value.At?)
    requires !Creates(e) && e.id == row.id && Ends(e, row.id)
    requires e.LapsedAt? ==> !Ahead(Creations(s.log)[i].expiresAt, clock)
    requires t == s.(rows := s.rows[i := row], log := s.log + [e])
    ensures RowsAgree(t, clock)
  {
    CreationsSnoc(s.log, e);
    forall k | 0 <= k < |t.rows| ensures RowAgrees(t, t.rows[k], Creations(t.log)[k], clock) {
      if k != i {
        OldRowStays(s, t, k, clock, e);
      } else {
        EndedRowAgrees(s, t, i, row, clock, e);
      }
    }
  }

  lemma NotDeactivatedYet(s: Store, clock: int, i: nat, e: Event)
    requires Inv(s, clock) && i < |s.rows|
    requires forall id :: Deactivates(e, id) ==> id == s.rows[i].id && s.rows[i].status.Active?
    ensures DeactivatedOnce(s.log + [e])
  {
    assert RowAgrees(s, s.rows[i], Creations(s.log)[i], clock);
    forall j, id | 0 <= j < |s.log| && Deactivates(s.log[j], id) ensures !Deactivates(e, id) {
      assert s.log[j] in s.log && Ends(s.log[j], id);
      assert Ended(s.log, id);
    }
  }

  /** Fields outside the lifecycle may change freely. */
  lemma TouchKeeps(s: Store, clock: int, i: nat, row: Credential)
    requires Inv(s, clock) && i < |s.rows|
    requires row.id == s.rows[i].id && row.principalId == s.rows[i].principalId
        && row.secretHash == s.rows[i].secretHash
    requires row.status == s.rows[i].status && row.expiresAt == s.rows[i].expiresAt
    ensures Inv(s.(rows := s.rows[i := row]), clock)
  {
    var t := s.(rows := s.rows[i := row]);
    UpdateKeys(s.rows, i, row);
    NamesPresentStays(s.rows, t.rows, s.log);
    forall k | 0 <= k < |t.rows| ensures RowAgrees(t, t.rows[k], Creations(t.log)[k], clock) {
      assert RowAgrees(s, s.rows[k], Creations(s.log)[k], clock);
    }
  }

  lemma LaterClockKeeps(s: Store, clock: int, now: int, principals: set<string>)
    requires Inv(s, clock) && clock <= now && s.principals <= principals
    ensures Inv(s.(principals := principals), now)
  {
    var t := s.(principals := principals);
    forall k | 0 <= k < |t.rows| ensures RowAgrees(t, t.rows[k], Creations(t.log)[k], now) {
      assert RowAgrees(s, s.rows[k], Creations(s.log)[k], clock);
    }
  }

  lemma RotateKeeps(s: Store, clock: int, i: nat, revoked: Credential, row: Credential, c: Event)
    requires Inv(s, clock) && i < |s.rows| && s.rows[i].status.Active? && c.Rotated? && c.replaced == s.rows[i].id
    requires revoked.id == s.rows[i].id && revoked.principalId == s.rows[i].principalId
    requires revoked.secretHash == s.rows[i].secretHash && revoked.expiresAt == s.rows[i].expiresAt
        && !revoked.status.Active?
    requires row.status.Active? && Fresh(s.rows, row.id, row.secretHash)
    requires row.id == c.id && row.principalId == c.principalId && row.secretHash == Digest(c.secret)
    requires row.principalId in s.principals && row.expiresAt == c.expiresAt
        && (c.expiresAt.Some? ==> c.expiresAt.value.At?)
    ensures Inv(s.(rows := s.rows[i := revoked] + [row], log := s.log + [c]), clock)
  {
    var t := s.(rows := s.rows[i := revoked] + [row], log := s.log + [c]);
    UpdateKeys(s.rows, i, revoked);
    AppendKeys(s.rows[i := revoked], row);
    assert t.rows[|s.rows|].id == c.id && t.rows[i].id == c.replaced;
    LogNames(s, t, c);
    NotDeactivatedYet(s, clock, i, c);
    RotatedRowsAgree(s, t, clock, i, revoked, row, c);
  }

  lemma RotatedRowsAgree(s: Store, t: Store, clock: int, i: nat, revoked: Credential, row: Credential, c: Event)
    requires Inv(s, clock) && i < |s.rows| && s.rows[i].status.Active? && c.Rotated? && c.replaced == s.rows[i].id
    requires revoked.id == s.rows[i].id && revoked.principalId == s.rows[i].principalId
    requires revoked.secretHash == s.rows[i].secretHash && revoked.expiresAt == s.rows[i].expiresAt
        && !revoked.status.Active?
    requires row.status.Active? && Fresh(s.rows, row.id, row.secretHash)
    requires row.id == c.id && row.principalId == c.principalId && row.secretHash == Digest(c.secret)
    requires row.principalId in s.principals && row.expiresAt == c.expiresAt
        && (c.expiresAt.Some? ==> c.expiresAt.value.At?)
    requires t == s.(rows := s.rows[i := revoked] + [row], log := s.log + [c])
    ensures RowsAgree(t, clock)
  {
    CreationsSnoc(s.log, c);
    EndedRowAgrees(s, t, i, revoked, clock, c);
    NewRowAgrees(s, t, clock, row, c);
    forall k | 0 <= k < |t.rows| ensures RowAgrees(t, t.rows[k], Creations(t.log)[k], clock) {
      if k != |s.rows| && k != i {
        assert s.rows[k].id != s.rows[i].id;
        OldRowStays(s, t, k, clock, c);
      }
    }
  }

  lemma IssueKeeps(s: Store, d: Draw, p: string, title: string, scopes: seq<string>, expires: ExpiryArgument)
    requires Inv(s, d.now)
    ensures Inv(Issue(s, d, p, title, scopes, expires).0, d.now)
  {
    InsertableIsFresh(s.rows, d.id, HashSecret(d.secret));
    if p in s.principals && ValidateExpiry(expires).Ok? && Insertable(s.rows, d.id, HashSecret(d.secret)) {
      var e := ValidateExpiry(expires).value;
      AppendKeeps(s, d.now, NewRow(d, p, title, scopes, e), Issued(d.id, p, d.secret, e));
    }
  }

  lemma RotateRequestKeeps(s: Store, d: Draw, id: string, scopes: Option<seq<string>>, expires: ExpiryArgument,
      note: Option<string>)
    requires Inv(s, d.now)
    ensures Inv(Rotate(s, d, id, scopes, expires, note).0, d.now)
  {
    var (t, result) := Rotate(s, d, id, scopes, expires, note);
    InsertableIsFresh(s.rows, d.id, HashSecret(d.secret));
    if result.Ok? {
      var i := FindId(s.rows, id).value;
      assert RowAgrees(s, s.rows[i], Creations(s.log)[i], d.now);
      RotateKeeps(s, d.now, i, t.rows[i], result.value, t.log[|s.log|]);
      assert t.rows == s.rows[i := t.rows[i]] + [result.value];
    }
  }

  lemma RevokeKeeps(s: Store, now: int, id: string, reason: Option<string>, note: Option<string>)
    requires Inv(s, now)
    ensures Inv(Revoke(s, now, id, reason, note).0, now)
  {
    var t := Revoke(s, now, id, reason, note).0;
    if FindId(s.rows, id).Some? && !s.rows[FindId(s.rows, id).value].status.Revoked? {
      var i := FindId(s.rows, id).value;
      assert RowAgrees(s, s.rows[i], Creations(s.log)[i], now);
      EndKeeps(s, now, i, t.rows[i], t.log[|s.log|]);
    }
  }

  lemma ExpireKeeps(s: Store, now: int, id: string, reason: Option<string>, note: Option<string>)
    requires Inv(s, now)
    ensures Inv(Expire(s, now, id, reason, note).0, now)
  {
    var t := Expire(s, now, id, reason, note).0;
    if FindId(s.rows, id).Some? && !s.rows[FindId(s.rows, id).value].status.Expired? {
      var i := FindId(s.rows, id).value;
      assert RowAgrees(s, s.rows[i], Creations(s.log)[i], now);
      EndKeeps(s, now, i, t.rows[i], t.log[|s.log|]);
    }
  }

  lemma AuthenticateKeeps(s: Store, now: int, secret: string, surface: string)
    requires Inv(s, now)
    ensures Inv(Authenticate(s, now, secret, surface).0, now)
  {
    var (t, answer) := Authenticate(s, now, secret, surface);
    if FindHash(s.rows, HashSecret(secret)).Some? {
      var i := FindHash(s.rows, HashSecret(secret)).value;
      assert RowAgrees(s, s.rows[i], Creations(s.log)[i], now);
      if answer.AuthActive? {
        TouchKeeps(s, now, i, t.rows[i]);
      } else if answer.AuthExpired? && s.rows[i].status.Active? {
        EndKeeps(s, now, i, t.rows[i], t.log[|s.log|]);
      }
    }
  }

  lemma ServeKeeps(s: Store, clock: int, r: Request)
    requires Inv(s, clock) && clock <= Now(r)
    ensures Inv(Serve(s, r), Now(r))
  {
    var now := Now(r);
    LaterClockKeeps(s, clock, now, s.principals);
    match r
    case AddPrincipal(_, p) => LaterClockKeeps(s, clock, now, s.principals + {p});
    case IssueRequest(d, p, title, scopes, expires) => IssueKeeps(s, d, p, title, scopes, expires);
    case RotateRequest(d, id, scopes, expires, note) => RotateRequestKeeps(s, d, id, scopes, expires, note);
    case RevokeRequest(_, id, reason, note) => RevokeKeeps(s, now, id, reason, note);
    case ExpireRequest(_, id, reason, note) => ExpireKeeps(s, now, id, reason, note);
    case AuthenticateRequest(_, secret, surface) => AuthenticateKeeps(s, now, secret, surface);
  }

  lemma {:induction false} RunKeeps(s: Store, clock: int, run: seq<Request>, to: int)
    requires Inv(s, clock) && Timed(run, clock, to)
    ensures Inv(ServeAll(s, run), to)
    decreases |run|
  {
    if run == [] {
      LaterClockKeeps(s, clock, to, s.principals);
    } else {
      ServeKeeps(s, clock, run[0]);
      RunKeeps(Serve(s, run[0]), Now(run[0]), run[1..], to);
    }
  }

  lemma EmptyOk(clock: int)
    ensures Inv(EMPTY, clock)
  {
  }
}
