/** Authentication of a socket.io handshake by the realtime service: a token
    from the handshake, verified either with a shared secret (local mode) or
    against the identity provider's signing keys (Keycloak mode), in which
    case the user is also resolved to a local user. */
module RealtimeAuth {
  import opened Wrappers
  import opened Text
  import opened Http
  import RolePermissions
  import opened UserResolver

  datatype RealtimeUser = RealtimeUser(id: string, email: string, roles: seq<string>, permissions: seq<string>)

  /** The `authorization` handshake header: absent, a string, or some other
      value (an array, say). */
  datatype HeaderValue = NoHeader | HeaderText(text: string) | HeaderOther

  /** `auth.token` (None when absent) and the `authorization` header. */
  datatype Handshake = Handshake(authToken: Option<string>, authorization: HeaderValue)

  /** The environment variables the service reads. */
  datatype Env = Env(authMode: Option<string>, jwtSecret: Option<string>, oidcIssuer: Option<string>)

  datatype LocalPayload = LocalPayload(
    sub: string, email: string, roles: Option<seq<string>>, permissions: Option<seq<string>>)

  datatype KeycloakPayload = KeycloakPayload(
    sub: string, email: string, name: Option<string>, preferredUsername: Option<string>,
    realmRoles: Option<seq<string>>)

  /** The cryptographic operations, each None where it throws:
      `localVerify(token, secret)`, the `kid` of the token's decoded header,
      the signing key published for a `kid`, and `jwksVerify(token, key)`
      restricted to RS256. */
  datatype Verifiers = Verifiers(
    localVerify: (string, string) -> Option<LocalPayload>,
    decodeKid: string -> Option<string>,
    signingKey: string -> Option<string>,
    jwksVerify: (string, string) -> Option<KeycloakPayload>)

  const BearerPrefix := "Bearer "
  const MissingToken := Unauthorized("Missing token")
  const InvalidToken := Unauthorized("Invalid token")

  /** `extractBearerToken`: the text after `Bearer ` of a string header. */
  function ExtractBearerToken(value: HeaderValue): (r: Option<string>)
    ensures r.Some? <==> value.HeaderText? && StartsWith(value.text, BearerPrefix)
    ensures r.Some? ==> value.text == BearerPrefix + r.value
  {
    if value.HeaderText? && StartsWith(value.text, BearerPrefix) then
      assert value.text == value.text[..|BearerPrefix|] + value.text[|BearerPrefix|..];
      Some(value.text[|BearerPrefix|..])
    else None
  }

  /** `auth.token ?? extractBearerToken(headers.authorization)`: a present
      `auth.token`, even an empty one, wins over the header. */
  function SelectToken(h: Handshake): (r: Option<string>)
    ensures h.authToken.Some? ==> r == h.authToken
    ensures h.authToken.None? ==> r == ExtractBearerToken(h.authorization)
  {
    if h.authToken.Some? then h.authToken else ExtractBearerToken(h.authorization)
  }

  /** The `AUTH_MODE ?? 'keycloak'` mode. */
  function Mode(env: Env): string {
    env.authMode.GetOr("keycloak")
  }

  /** The realtime service's own copy of the role → permission table. */
  function RealtimePermissionsOf(role: string): seq<string> {
    if role == "admin" then
      ["ticket:create", "ticket:read", "ticket:update", "ticket:close",
       "user:create", "user:read", "message:send"]
    else if role == "agent" then ["ticket:read", "ticket:update"]
    else if role == "customer" then ["ticket:create", "ticket:read", "message:send"]
    else []
  }

  /** `roles.flatMap(role => ROLE_PERMISSIONS[role] ?? [])` over the realtime
      table. */
  function RealtimePermissions(roles: seq<string>): seq<string> {
    if roles == [] then [] else RealtimePermissionsOf(roles[0]) + RealtimePermissions(roles[1..])
  }

  /** The realtime copy grants exactly what the API grants, for any list of
      roles. */
  lemma {:induction false} RealtimePermissionsAgree(roles: seq<string>)
    ensures RealtimePermissions(roles) == RolePermissions.Expand(roles)
  {
    if roles != [] {
      RealtimePermissionsAgree(roles[1..]);
    }
  }

  /** The local-mode branch: the secret must be set and the token must
      verify; missing roles and permissions claims become empty lists. Every
      failure is reported as an invalid token. */
  function LocalAuth(env: Env, token: string, v: Verifiers): (r: Result<RealtimeUser, HttpError>)
    ensures r.Success? <==> env.jwtSecret.Some? && env.jwtSecret.value != ""
                            && v.localVerify(token, env.jwtSecret.value).Some?
    ensures r.Failure? ==> r.error == InvalidToken
    ensures r.Success? ==>
              var p := v.localVerify(token, env.jwtSecret.value).value;
              r.value.id == p.sub && r.value.email == p.email
              && (p.roles.None? ==> r.value.roles == [])
              && (p.roles.Some? ==> r.value.roles == p.roles.value)
              && (p.permissions.None? ==> r.value.permissions == [])
              && (p.permissions.Some? ==> r.value.permissions == p.permissions.value)
  {
    if env.jwtSecret.None? || env.jwtSecret.value == "" then Failure(InvalidToken)
    else match v.localVerify(token, env.jwtSecret.value)
      case None => Failure(InvalidToken)
      case Some(p) => Success(RealtimeUser(p.sub, p.email, p.roles.GetOr([]), p.permissions.GetOr([])))
  }

  /** `verifyWithJwks` preceded by the issuer check: None when the issuer is
      unset or empty, the token has no `kid`, no key is published for it, or
      the signature does not verify. */
  function VerifyKeycloak(env: Env, token: string, v: Verifiers): (r: Option<KeycloakPayload>)
    ensures r.Some? ==> env.oidcIssuer.Some? && env.oidcIssuer.value != ""
    ensures r.Some? ==> v.decodeKid(token).Some? && v.decodeKid(token).value != ""
    ensures r.Some? ==> var key := v.signingKey(v.decodeKid(token).value);
                        key.Some? && r == v.jwksVerify(token, key.value)
    ensures env.oidcIssuer.Some? && env.oidcIssuer.value != ""
            && v.decodeKid(token).Some? && v.decodeKid(token).value != ""
            && v.signingKey(v.decodeKid(token).value).Some?
            ==> r == v.jwksVerify(token, v.signingKey(v.decodeKid(token).value).value)
  {
    if env.oidcIssuer.None? || env.oidcIssuer.value == "" then None
    else
      var kid := v.decodeKid(token);
      if kid.None? || kid.value == "" then None
      else
        var key := v.signingKey(kid.value);
        if key.None? then None else v.jwksVerify(token, key.value)
  }

  /** The roles of a verified Keycloak token (`realm_access?.roles ?? []`). */
  function KeycloakRoles(p: KeycloakPayload): seq<string> {
    p.realmRoles.GetOr([])
  }

  /** The row a first-time Keycloak identity is created with. */
  function NewUserRecord(p: KeycloakPayload, newId: string, passwordHash: string): UserRecord {
    UserRecord(newId, Some(p.sub), p.email,
               DisplayName(KeycloakLikeUser(p.sub, p.email, p.name, p.preferredUsername)), passwordHash)
  }

  /** What authenticating a handshake gives, and the user rows afterwards. */
  datatype Authentication = Authentication(result: Result<RealtimeUser, HttpError>, rows: seq<UserRecord>)

  /** `authenticateSocket` against the user rows `rows`: a missing or empty
      token is rejected as missing; local mode verifies with the secret;
      Keycloak mode verifies with the published keys and then resolves the
      local user, creating it on first sight. Every other failure is an
      invalid token, and a failure leaves the rows as they were. `newId`
      and `passwordHash` stand for what the database and the clock would
      give a newly created user. */
  function Authenticate(env: Env, h: Handshake, v: Verifiers, rows: seq<UserRecord>,
                        newId: string, passwordHash: string): (a: Authentication)
    ensures SelectToken(h).None? || SelectToken(h).value == "" ==> a.result == Failure(MissingToken)
    ensures a.result.Failure? ==> (a.result.error == MissingToken || a.result.error == InvalidToken) && a.rows == rows
    ensures SelectToken(h).Some? && SelectToken(h).value != "" && a.result.Failure?
            ==> a.result.error == InvalidToken
    ensures Mode(env) == "local" ==> a.rows == rows
    ensures SelectToken(h).Some? && SelectToken(h).value != "" && Mode(env) == "local"
            ==> a.result == LocalAuth(env, SelectToken(h).value, v)
    ensures SelectToken(h).Some? && SelectToken(h).value != "" && Mode(env) != "local"
            && VerifyKeycloak(env, SelectToken(h).value, v).None?
            ==> a.result == Failure(InvalidToken)
    ensures SelectToken(h).Some? && SelectToken(h).value != "" && Mode(env) != "local"
            && VerifyKeycloak(env, SelectToken(h).value, v).Some?
            ==> var p := VerifyKeycloak(env, SelectToken(h).value, v).value;
                var rec := NewUserRecord(p, newId, passwordHash);
                (a.result.Success? <==> Find(rows, p.sub).Some? || !Clashes(rows, rec))
                && (Find(rows, p.sub).Some? ==> a.rows == rows)
                && (Find(rows, p.sub).None? && !Clashes(rows, rec) ==> a.rows == rows + [rec])
                && (a.result.Success? ==>
                      Find(a.rows, p.sub).Some?
                      && a.result.value == RealtimeUser(Find(a.rows, p.sub).value.id, p.email, KeycloakRoles(p),
                                                        RolePermissions.Expand(KeycloakRoles(p))))
  {
    var token := SelectToken(h);
    if token.None? || token.value == "" then Authentication(Failure(MissingToken), rows)
    else if Mode(env) == "local" then Authentication(LocalAuth(env, token.value, v), rows)
    else match VerifyKeycloak(env, token.value, v)
      case None => Authentication(Failure(InvalidToken), rows)
      case Some(p) =>
        var roles := KeycloakRoles(p);
        RealtimePermissionsAgree(roles);
        match Find(rows, p.sub)
        case Some(u) => Authentication(Success(RealtimeUser(u.id, p.email, roles, RealtimePermissions(roles))), rows)
        case None =>
          var rec := NewUserRecord(p, newId, passwordHash);
          if Clashes(rows, rec) then Authentication(Failure(InvalidToken), rows)
          else
            FindAppend(rows, rec, p.sub);
            Authentication(Success(RealtimeUser(rec.id, p.email, roles, RealtimePermissions(roles))), rows + [rec])
  }

  /** Once a Keycloak handshake has authenticated, authenticating it again
      gives the same user and creates no further row. */
  lemma ReconnectSameUser(env: Env, h: Handshake, v: Verifiers, rows: seq<UserRecord>,
                          firstId: string, firstHash: string, secondId: string, secondHash: string)
    requires Mode(env) != "local"
    requires Authenticate(env, h, v, rows, firstId, firstHash).result.Success?
    ensures var first := Authenticate(env, h, v, rows, firstId, firstHash);
            Authenticate(env, h, v, first.rows, secondId, secondHash) == first
  {
  }

  /** `authenticateSocket` on the users repository. */
  method AuthenticateSocket(env: Env, h: Handshake, v: Verifiers, repo: UsersRepository,
                            newId: string, passwordHash: string)
    returns (r: Result<RealtimeUser, HttpError>)
    modifies repo
    ensures var a := Authenticate(env, h, v, old(repo.rows), newId, passwordHash);
            r == a.result && repo.rows == a.rows
  {
    var token := SelectToken(h);
    if token.None? || token.value == "" {
      return Failure(MissingToken);
    }
    if Mode(env) == "local" {
      return LocalAuth(env, token.value, v);
    }
    var payload := VerifyKeycloak(env, token.value, v);
    if payload.None? {
      return Failure(InvalidToken);
    }
    var p := payload.value;
    var roles := KeycloakRoles(p);
    var permissions := RealtimePermissions(roles);
    var resolved := Resolve(repo, KeycloakLikeUser(p.sub, p.email, p.name, p.preferredUsername),
                            newId, passwordHash);
    if resolved.None? {
      return Failure(InvalidToken);
    }
    return Success(RealtimeUser(resolved.value.id, p.email, roles, permissions));
  }
}
