/** The realtime service's user table and the resolver that maps a Keycloak
    identity to a local user, creating the user on first sight. */
module UserResolver {
  import opened Wrappers

  /** A row of the `users` table. `externalId` is nullable; `id`,
      `externalId` and `email` are each unique. */
  datatype UserRecord = UserRecord(
    id: string, externalId: Option<string>, email: string, name: string, passwordHash: string)

  /** The identity claims the resolver receives. */
  datatype KeycloakLikeUser = KeycloakLikeUser(
    sub: string, email: string, name: Option<string>, preferredUsername: Option<string>)

  /** The first row whose external id is `externalId`. */
  function Find(rows: seq<UserRecord>, externalId: string): Option<UserRecord> {
    if rows == [] then None
    else if rows[0].externalId == Some(externalId) then Some(rows[0])
    else Find(rows[1..], externalId)
  }

  lemma {:induction false} FindSound(rows: seq<UserRecord>, externalId: string)
    ensures Find(rows, externalId).Some? ==>
              Find(rows, externalId).value in rows
              && Find(rows, externalId).value.externalId == Some(externalId)
  {
    if rows != [] && rows[0].externalId != Some(externalId) {
      FindSound(rows[1..], externalId);
    }
  }

  lemma {:induction false} FindComplete(rows: seq<UserRecord>, externalId: string)
    ensures Find(rows, externalId).None? <==> forall r :: r in rows ==> r.externalId != Some(externalId)
  {
    if rows != [] {
      FindComplete(rows[1..], externalId);
      assert forall r :: r in rows <==> r == rows[0] || r in rows[1..];
    }
  }

  /** Appending a row never changes an existing answer, and the appended row
      answers for its external id when nothing did before. */
  lemma {:induction false} FindAppend(rows: seq<UserRecord>, rec: UserRecord, externalId: string)
    ensures Find(rows, externalId).Some? ==> Find(rows + [rec], externalId) == Find(rows, externalId)
    ensures Find(rows, externalId).None? && rec.externalId == Some(externalId)
            ==> Find(rows + [rec], externalId) == Some(rec)
    ensures Find(rows, externalId).None? && rec.externalId != Some(externalId)
            ==> Find(rows + [rec], externalId).None?
  {
    if rows == [] {
      assert rows + [rec] == [rec];
    } else {
      assert (rows + [rec])[1..] == rows[1..] + [rec];
      FindAppend(rows[1..], rec, externalId);
    }
  }

  /** Whether inserting `rec` would violate one of the table's unique
      constraints (a NULL external id never clashes). */
  predicate Clashes(rows: seq<UserRecord>, rec: UserRecord) {
    exists r :: r in rows && (r.id == rec.id || r.email == rec.email
                              || (rec.externalId.Some? && r.externalId == rec.externalId))
  }

  /** `name ?? preferred_username ?? email`: only a missing value falls
      through, an empty name is kept. */
  function DisplayName(u: KeycloakLikeUser): (r: string)
    ensures u.name.Some? ==> r == u.name.value
    ensures u.name.None? && u.preferredUsername.Some? ==> r == u.preferredUsername.value
    ensures u.name.None? && u.preferredUsername.None? ==> r == u.email
  {
    match u.name
    case Some(n) => n
    case None => u.preferredUsername.GetOr(u.email)
  }

  class UsersRepository {
    var rows: seq<UserRecord>

    constructor(rows: seq<UserRecord>)
      ensures this.rows == rows
    {
      this.rows := rows;
    }

    /** `findByExternalId`: some row with that external id, or None when
        there is none. */
    method FindByExternalId(externalId: string) returns (r: Option<UserRecord>)
      ensures r.Some? ==> r.value in rows && r.value.externalId == Some(externalId)
      ensures r.None? <==> forall row :: row in rows ==> row.externalId != Some(externalId)
      ensures r == Find(rows, externalId)
    {
      r := Find(rows, externalId);
      FindSound(rows, externalId);
      FindComplete(rows, externalId);
    }

    /** `create`: inserts the row, whose `id` the database generates and
        which is given here as `newId`; the insert fails on a unique
        constraint. */
    method Create(newId: string, externalId: string, email: string, name: string, passwordHash: string)
      returns (r: Option<UserRecord>)
      modifies this
      ensures var rec := UserRecord(newId, Some(externalId), email, name, passwordHash);
              if Clashes(old(rows), rec) then r.None? && rows == old(rows)
              else r == Some(rec) && rows == old(rows) + [rec]
    {
      var rec := UserRecord(newId, Some(externalId), email, name, passwordHash);
      if Clashes(rows, rec) {
        return None;
      }
      rows := rows + [rec];
      return Some(rec);
    }
  }

  /** `resolve`: the existing user with this external id, or a newly created
      one named by `DisplayName`. The password hash of a new user, derived
      from the clock, is a parameter. None when the insert fails. */
  method Resolve(repo: UsersRepository, u: KeycloakLikeUser, newId: string, passwordHash: string)
    returns (r: Option<UserRecord>)
    modifies repo
    ensures Find(old(repo.rows), u.sub).Some? ==> r == Find(old(repo.rows), u.sub) && repo.rows == old(repo.rows)
    ensures Find(old(repo.rows), u.sub).None? ==>
              var rec := UserRecord(newId, Some(u.sub), u.email, DisplayName(u), passwordHash);
              if Clashes(old(repo.rows), rec) then r.None? && repo.rows == old(repo.rows)
              else r == Some(rec) && repo.rows == old(repo.rows) + [rec]
    ensures r.Some? ==> r.value.externalId == Some(u.sub) && Find(repo.rows, u.sub) == r
    ensures r.None? ==> repo.rows == old(repo.rows)
  {
    var existing := repo.FindByExternalId(u.sub);
    if existing.Some? {
      FindSound(repo.rows, u.sub);
      return existing;
    }
    ghost var before := repo.rows;
    r := repo.Create(newId, u.sub, u.email, DisplayName(u), passwordHash);
    if r.Some? {
      FindAppend(before, r.value, u.sub);
    }
  }

  /** Two connections of the same identity: once the first resolves a user,
      the second gets the same user, and at most one row is created. */
  method ResolveTwice(repo: UsersRepository, u: KeycloakLikeUser, firstId: string, secondId: string,
                      firstHash: string, secondHash: string)
    returns (first: Option<UserRecord>, second: Option<UserRecord>)
    modifies repo
    ensures first.Some? ==> second == first
    ensures |repo.rows| <= |old(repo.rows)| + 1
  {
    first := Resolve(repo, u, firstId, firstHash);
    ghost var between := repo.rows;
    second := Resolve(repo, u, secondId, secondHash);
    if first.Some? {
      assert repo.rows == between;
    }
  }
}
