/** Integration credentials: the stored rows and the service calls that change them
    (app/services/integration_credentials.py, app/repositories/integration_credentials.py).
    Times are integers on the clock that the service reads. */
module Credentials {
  import opened Seqs

  /** SHA-256, idealised as an injective function. */
  datatype Digest = Digest(preimage: string)

  function HashSecret(secret: string): Digest {
    Digest(secret)
  }

  datatype CredentialStatus = Active | Revoked | Expired

  /** A stored expiry. Only `At` passes the service's own validation; the other two can be
      in the table when something else wrote the row. */
  datatype Expiry = At(time: int) | NaiveTime | Unparsable

  datatype Credential = Credential(
    id: string,
    principalId: string,
    title: string,
    secretHash: Digest,
    scopes: seq<string>,
    status: CredentialStatus,
    statusReason: Option<string>,
    statusNote: Option<string>,
    expiresAt: Option<Expiry>,
    revokedAt: Option<int>,
    lastUsedAt: Option<int>,
    lastUsedSurface: Option<string>,
    updatedAt: int)

  /** The expires_at argument: absent, blank after stripping, or a text that parses or not. */
  datatype ExpiryArgument = Omitted | Blank | Given(expiry: Expiry)

  datatype Error = NotFound | Conflict | InvalidValue | IntegrityError

  datatype Outcome<+T> = Ok(value: T) | Err(error: Error)

  /** What a successful write did, one entry per write that changed a row's lifecycle. */
  datatype Event =
    | Issued(id: string, principalId: string, secret: string, expiresAt: Option<Expiry>)
    | Rotated(replaced: string, id: string, principalId: string, secret: string, expiresAt: Option<Expiry>)
    | RevokedBy(id: string, principalId: string, wasActive: bool)
    | ExpiredBy(id: string, principalId: string, wasActive: bool)
    | LapsedAt(id: string, principalId: string)

  datatype Store = Store(principals: set<string>, rows: seq<Credential>, log: seq<Event>)

  /** `WHERE id = ?` */
  function FindId(rows: seq<Credential>, id: string): (i: Option<nat>)
    ensures i.Some? ==> i.value < |rows| && rows[i.value].id == id
    ensures i.None? ==> forall k :: 0 <= k < |rows| ==> rows[k].id != id
  {
    if rows == [] then None
    else if rows[0].id == id then Some(0)
    else match FindId(rows[1..], id) case None => None case Some(k) => Some(k + 1)
  }

  /** `WHERE secret_hash = ?` */
  function FindHash(rows: seq<Credential>, h: Digest): (i: Option<nat>)
    ensures i.Some? ==> i.value < |rows| && rows[i.value].secretHash == h
    ensures i.None? ==> forall k :: 0 <= k < |rows| ==> rows[k].secretHash != h
  {
    if rows == [] then None
    else if rows[0].secretHash == h then Some(0)
    else match FindHash(rows[1..], h) case None => None case Some(k) => Some(k + 1)
  }

  /** The table's PRIMARY KEY and UNIQUE constraints let the row in. */
  predicate Insertable(rows: seq<Credential>, id: string, h: Digest) {
    FindId(rows, id).None? && FindHash(rows, h).None?
  }

  /** `_validate_expires_at` */
  function ValidateExpiry(arg: ExpiryArgument): Outcome<Option<Expiry>> {
    match arg
    case Omitted => Ok(None)
    case Given(At(t)) => Ok(Some(At(t)))
    case _ => Err(InvalidValue)
  }

  function StoredAsArgument(e: Option<Expiry>): ExpiryArgument {
    match e
    case None => Omitted
    case Some(expiry) => Given(expiry)
  }

  /** The values one call draws from outside: the clock, a random id and a random secret. */
  datatype Draw = Draw(now: int, id: string, secret: string)

  function NewRow(d: Draw, principalId: string, title: string, scopes: seq<string>, expiresAt: Option<Expiry>):
      Credential {
    Credential(d.id, principalId, title, HashSecret(d.secret), scopes, Active, None, None, expiresAt, None, None,
        None, d.now)
  }

  // ------------------------------------------------------------------ the calls

  function Issue(s: Store, d: Draw, principalId: string, title: string, scopes: seq<string>, expires: ExpiryArgument)
    : (Store, Outcome<Credential>)
  {
    if principalId !in s.principals then (s, Err(NotFound))
    else match ValidateExpiry(expires)
      case Err(e) => (s, Err(e))
      case Ok(expiresAt) =>
        if !Insertable(s.rows, d.id, HashSecret(d.secret)) then (s, Err(IntegrityError))
        else
          var row := NewRow(d, principalId, title, scopes, expiresAt);
          (s.(rows := s.rows + [row], log := s.log + [Issued(d.id, principalId, d.secret, expiresAt)]), Ok(row))
  }

  function Rotate(s: Store, d: Draw, id: string, scopes: Option<seq<string>>, expires: ExpiryArgument,
      note: Option<string>)
    : (Store, Outcome<Credential>)
  {
    match FindId(s.rows, id)
    case None => (s, Err(NotFound))
    case Some(i) =>
      var current := s.rows[i];
      if !current.status.Active? then (s, Err(Conflict))
      else if current.principalId !in s.principals then (s, Err(NotFound))
      else match ValidateExpiry(if expires.Omitted? then StoredAsArgument(current.expiresAt) else expires)
        case Err(e) => (s, Err(e))
        case Ok(expiresAt) =>
          var revoked := current.(status := Revoked, statusReason := Some("rotated"), statusNote := note,
                              revokedAt := Some(d.now), updatedAt := d.now);
          if !Insertable(s.rows, d.id, HashSecret(d.secret)) then (s, Err(IntegrityError))
          else
            var row := NewRow(d, current.principalId, current.title, scopes.GetOr(current.scopes), expiresAt);
            (s.(rows := s.rows[i := revoked] + [row],
                log := s.log + [Rotated(id, d.id, current.principalId, d.secret, expiresAt)]), Ok(row))
  }

  function Revoke(s: Store, now: int, id: string, reason: Option<string>, note: Option<string>):
      (Store, Outcome<Credential>) {
    match FindId(s.rows, id)
    case None => (s, Err(NotFound))
    case Some(i) =>
      var row := s.rows[i];
      if row.status.Revoked? then (s, Ok(row))
      else
        var updated := row.(status := Revoked, statusReason := Some(reason.GetOr("revoked")), statusNote := note,
                            revokedAt := Some(now), updatedAt := now);
        (s.(rows := s.rows[i := updated], log := s.log + [RevokedBy(id, row.principalId, row.status.Active?)]),
            Ok(updated))
  }

  function Expire(s: Store, now: int, id: string, reason: Option<string>, note: Option<string>):
      (Store, Outcome<Credential>) {
    match FindId(s.rows, id)
    case None => (s, Err(NotFound))
    case Some(i) =>
      var row := s.rows[i];
      if row.status.Expired? then (s, Ok(row))
      else
        var updated := row.(status := Expired, statusReason := Some(reason.GetOr("expired")), statusNote := note,
                            expiresAt := Some(row.expiresAt.GetOr(At(now))), updatedAt := now);
        (s.(rows := s.rows[i := updated], log := s.log + [ExpiredBy(id, row.principalId, row.status.Active?)]),
            Ok(updated))
  }

  /** The answer of `authenticate_secret`; NoMatch is Python's None. */
  datatype AuthStatus = NoMatch | PrincipalMissing | AuthActive | AuthRevoked | AuthExpired | InvalidExpiry

  function AuthenticateAnswer(s: Store, now: int, secret: string): AuthStatus {
    match FindHash(s.rows, HashSecret(secret))
    case None => NoMatch
    case Some(i) =>
      var row := s.rows[i];
      if row.principalId !in s.principals then PrincipalMissing
      else match row.status
        case Revoked => AuthRevoked
        case Expired => AuthExpired
        case Active =>
          match row.expiresAt
          case None => AuthActive
          case Some(At(t)) => if t <= now then AuthExpired else AuthActive
          case Some(_) => InvalidExpiry
  }

  /** A row found active but past due is stored as expired; an active answer marks the use. */
  function Authenticate(s: Store, now: int, secret: string, surface: string): (Store, AuthStatus) {
    var answer := AuthenticateAnswer(s, now, secret);
    match FindHash(s.rows, HashSecret(secret))
    case None => (s, answer)
    case Some(i) =>
      var row := s.rows[i];
      if answer.AuthActive? then
        (s.(rows := s.rows[i := row.(lastUsedAt := Some(now), lastUsedSurface := Some(surface), updatedAt := now)]),
            answer)
      else if answer.AuthExpired? && row.status.Active? then
        (s.(rows := s.rows[i := row.(status := Expired, statusReason := Some("expired"), updatedAt := now)],
            log := s.log + [LapsedAt(row.id, row.principalId)]), answer)
      else (s, answer)
  }

  // ------------------------------------------------------------------ the service

  class IntegrationCredentialService {
    var principals: set<string>
    var rows: seq<Credential>
    ghost var log: seq<Event>

    ghost function State(): Store
      reads this
    {
      Store(principals, rows, log)
    }

    constructor ()
      ensures State() == Store({}, [], [])
    {
      principals, rows, log := {}, [], [];
    }

    /** `_insert_row` under the table's constraints. */
    method InsertRow(row: Credential) returns (ok: bool)
      modifies this`rows
      ensures ok <==> Insertable(old(rows), row.id, row.secretHash)
      ensures rows == if ok then old(rows) + [row] else old(rows)
    {
      ok := FindId(rows, row.id).None? && FindHash(rows, row.secretHash).None?;
      if ok {
        rows := rows + [row];
      }
    }

    method IssueCredential(d: Draw, principalId: string, title: string, scopes: seq<string>, expires: ExpiryArgument)
      returns (result: Outcome<Credential>)
      modifies this
      ensures (State(), result) == Issue(old(State()), d, principalId, title, scopes, expires)
      ensures result.Err? ==> State() == old(State())
      ensures result.Ok? ==>
        && principalId in principals && rows == old(rows) + [result.value] && result.value.status.Active?
        && FindHash(old(rows), HashSecret(d.secret)).None? && result.value.secretHash == HashSecret(d.secret)
    {
      if principalId !in principals {
        return Err(NotFound);
      }
      var checked := ValidateExpiry(expires);
      if checked.Err? {
        return Err(checked.error);
      }
      var row := NewRow(d, principalId, title, scopes, checked.value);
      var ok := InsertRow(row);
      if !ok {
        return Err(IntegrityError);
      }
      log := log + [Issued(d.id, principalId, d.secret, checked.value)];
      return Ok(row);
    }

    /** Both writes are one transaction: when the insert is refused the update is undone. */
    method RotateCredential(d: Draw, id: string, scopes: Option<seq<string>>, expires: ExpiryArgument,
        note: Option<string>)
      returns (result: Outcome<Credential>)
      modifies this
      ensures (State(), result) == Rotate(old(State()), d, id, scopes, expires, note)
      ensures result.Err? ==> State() == old(State())
      ensures result.Ok? ==>
        && |rows| == |old(rows)| + 1 && rows[|old(rows)|] == result.value && result.value.status.Active?
        && FindId(old(rows), id).Some? && old(rows)[FindId(old(rows), id).value].status.Active?
        && rows[FindId(old(rows), id).value].status.Revoked?
        && result.value.principalId == old(rows)[FindId(old(rows), id).value].principalId
    {
      var found := FindId(rows, id);
      if found.None? {
        return Err(NotFound);
      }
      var current := rows[found.value];
      if !current.status.Active? {
        return Err(Conflict);
      }
      if current.principalId !in principals {
        return Err(NotFound);
      }
      var checked := ValidateExpiry(if expires.Omitted? then StoredAsArgument(current.expiresAt) else expires);
      if checked.Err? {
        return Err(checked.error);
      }
      var before := rows;
      var row := NewRow(d, current.principalId, current.title, scopes.GetOr(current.scopes), checked.value);
      rows := rows[found.value := current.(status := Revoked, statusReason := Some("rotated"), statusNote := note,
                                        revokedAt := Some(d.now), updatedAt := d.now)];
      FindAfterUpdate(before, found.value, rows[found.value], d);
      var ok := InsertRow(row);
      if !ok {
        rows := before;
        return Err(IntegrityError);
      }
      log := log + [Rotated(id, d.id, current.principalId, d.secret, checked.value)];
      return Ok(row);
    }

    method RevokeCredential(now: int, id: string, reason: Option<string>, note: Option<string>)
        returns (result: Outcome<Credential>)
      modifies this
      ensures (State(), result) == Revoke(old(State()), now, id, reason, note)
      ensures result.Ok? <==> FindId(old(rows), id).Some?
      ensures result.Ok? ==> result.value.status.Revoked? && result.value in rows && |rows| == |old(rows)|
      ensures result.Err? ==> State() == old(State())
    {
      var found := FindId(rows, id);
      if found.None? {
        return Err(NotFound);
      }
      var row := rows[found.value];
      if row.status.Revoked? {
        return Ok(row);
      }
      var updated := row.(status := Revoked, statusReason := Some(reason.GetOr("revoked")), statusNote := note,
                          revokedAt := Some(now), updatedAt := now);
      rows := rows[found.value := updated];
      log := log + [RevokedBy(id, row.principalId, row.status.Active?)];
      assert rows[found.value] == updated;
      return Ok(updated);
    }

    method ExpireCredential(now: int, id: string, reason: Option<string>, note: Option<string>)
        returns (result: Outcome<Credential>)
      modifies this
      ensures (State(), result) == Expire(old(State()), now, id, reason, note)
      ensures result.Ok? <==> FindId(old(rows), id).Some?
      ensures result.Ok? ==> result.value.status.Expired? && result.value in rows && |rows| == |old(rows)|
      ensures result.Err? ==> State() == old(State())
    {
      var found := FindId(rows, id);
      if found.None? {
        return Err(NotFound);
      }
      var row := rows[found.value];
      if row.status.Expired? {
        return Ok(row);
      }
      var updated := row.(status := Expired, statusReason := Some(reason.GetOr("expired")), statusNote := note,
                          expiresAt := Some(row.expiresAt.GetOr(At(now))), updatedAt := now);
      rows := rows[found.value := updated];
      log := log + [ExpiredBy(id, row.principalId, row.status.Active?)];
      assert rows[found.value] == updated;
      return Ok(updated);
    }

    method AuthenticateSecret(now: int, secret: string, surface: string) returns (answer: AuthStatus)
      modifies this
      ensures (State(), answer) == Authenticate(old(State()), now, secret, surface)
      ensures |rows| == |old(rows)| && principals == old(principals)
      ensures answer.AuthActive? ==> log == old(log)
      ensures !answer.AuthActive? && !answer.AuthExpired? ==> State() == old(State())
      ensures var found := FindHash(old(rows), HashSecret(secret));
              answer.AuthActive? || answer.AuthExpired? || answer.AuthRevoked? ==>
                found.Some? && (rows[found.value].status.Active? <==> answer.AuthActive?)
    {
      var found := FindHash(rows, HashSecret(secret));
      if found.None? {
        return NoMatch;
      }
      var row := rows[found.value];
      if row.principalId !in principals {
        return PrincipalMissing;
      }
      if !row.status.Active? {
        return if row.status.Revoked? then AuthRevoked else AuthExpired;
      }
      if row.expiresAt.Some? {
        if !row.expiresAt.value.At? {
          return InvalidExpiry;
        }
        if row.expiresAt.value.time <= now {
          rows := rows[found.value := row.(status := Expired, statusReason := Some("expired"), updatedAt := now)];
          log := log + [LapsedAt(row.id, row.principalId)];
          return AuthExpired;
        }
      }
      rows := rows[found.value := row.(lastUsedAt := Some(now), lastUsedSurface := Some(surface), updatedAt := now)];
      return AuthActive;
    }

    method CreatePrincipal(id: string)
      modifies this`principals
      ensures principals == old(principals) + {id}
    {
      principals := principals + {id};
    }
  }

  lemma FindAfterUpdate(rows: seq<Credential>, i: nat, row: Credential, d: Draw)
    requires i < |rows| && row.id == rows[i].id && row.secretHash == rows[i].secretHash
    ensures Insertable(rows[i := row], d.id, HashSecret(d.secret)) == Insertable(rows, d.id, HashSecret(d.secret))
  {
    var updated := rows[i := row];
    assert forall k :: 0 <= k < |rows| ==> updated[k].id == rows[k].id && updated[k].secretHash == rows[k].secretHash;
  }
}
