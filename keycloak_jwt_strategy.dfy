/** The Passport strategy for Keycloak tokens: refusing to start without an
    issuer, and turning a verified token payload into the request's user. */
module KeycloakJwtStrategy {
  import opened Wrappers
  import RolePermissions

  /** The claims this strategy reads; `realmRoles` is `realm_access?.roles`. */
  datatype KeycloakJwtPayload = KeycloakJwtPayload(
    sub: string,
    email: Option<string>,
    preferredUsername: Option<string>,
    realmRoles: Option<seq<string>>)

  datatype AuthenticatedUser = AuthenticatedUser(
    id: string,
    email: Option<string>,
    roles: seq<string>,
    permissions: seq<string>)

  /** What the strategy is configured with once constructed. */
  datatype StrategyConfig = StrategyConfig(jwksUri: string, algorithms: seq<string>)

  const MissingIssuer := "OIDC_ISSUER environment variable is required for Keycloak JWT authentication"

  /** The constructor: fails when OIDC_ISSUER is unset or empty; otherwise
      fetches keys from the issuer's certificate endpoint and accepts RS256. */
  function Construct(issuer: Option<string>): (r: Result<StrategyConfig, string>)
    ensures r.Failure? <==> issuer.None? || issuer.value == ""
    ensures r.Failure? ==> r.error == MissingIssuer
    ensures r.Success? ==> r.value.jwksUri == issuer.value + "/protocol/openid-connect/certs"
                           && r.value.algorithms == ["RS256"]
  {
    if issuer.None? || issuer.value == "" then Failure(MissingIssuer)
    else Success(StrategyConfig(issuer.value + "/protocol/openid-connect/certs", ["RS256"]))
  }

  /** `validate`: the id is `sub`, email and realm roles pass through, and
      the permissions are the expansion of the roles. */
  function Validate(payload: KeycloakJwtPayload): (u: AuthenticatedUser)
    ensures u.id == payload.sub && u.email == payload.email
    ensures payload.realmRoles.None? ==> u.roles == [] && u.permissions == []
    ensures payload.realmRoles.Some? ==> u.roles == payload.realmRoles.value
    ensures u.permissions == RolePermissions.Expand(u.roles)
    ensures forall p :: p in u.permissions <==>
              exists i :: 0 <= i < |u.roles| && p in RolePermissions.PermissionsOf(u.roles[i])
  {
    var roles := payload.realmRoles.GetOr([]);
    var user := AuthenticatedUser(payload.sub, payload.email, roles, RolePermissions.Expand(roles));
    assert forall p :: p in user.permissions <==>
             exists i :: 0 <= i < |roles| && p in RolePermissions.PermissionsOf(roles[i]) by {
      forall p ensures p in user.permissions <==>
                 exists i :: 0 <= i < |roles| && p in RolePermissions.PermissionsOf(roles[i]) {
        RolePermissions.ExpandMembership(roles, p);
      }
    }
    user
  }

  /** The agent role yields exactly ticket:read and ticket:update; the
      customer role ticket:create, ticket:read and message:send. */
  lemma AgentAndCustomerPermissions(sub: string)
    ensures Validate(KeycloakJwtPayload(sub, None, None, Some(["agent"]))).permissions
            == ["ticket:read", "ticket:update"]
    ensures Validate(KeycloakJwtPayload(sub, None, None, Some(["customer"]))).permissions
            == ["ticket:create", "ticket:read", "message:send"]
  {
    assert RolePermissions.Expand(["agent"]) == RolePermissions.PermissionsOf("agent") + RolePermissions.Expand([]);
    assert RolePermissions.Expand(["customer"]) == RolePermissions.PermissionsOf("customer") + RolePermissions.Expand([]);
  }

  /** Permissions keep role order and duplicates: a user holding agent and
      customer lists ticket:read twice. */
  lemma DuplicatesKept(sub: string)
    ensures Validate(KeycloakJwtPayload(sub, None, None, Some(["agent", "customer"]))).permissions
            == ["ticket:read", "ticket:update", "ticket:create", "ticket:read", "message:send"]
  {
    RolePermissions.ExpandAppend(["agent"], ["customer"]);
    assert ["agent", "customer"] == ["agent"] + ["customer"];
    assert RolePermissions.Expand(["agent"]) == RolePermissions.PermissionsOf("agent") + RolePermissions.Expand([]);
    assert RolePermissions.Expand(["customer"]) == RolePermissions.PermissionsOf("customer") + RolePermissions.Expand([]);
  }
}
