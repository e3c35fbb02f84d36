/** The API's own token guard: public handlers pass, everything else needs
    an `Authorization: Bearer <token>` header whose token verifies; the
    verified claims become `request.user`. */
module JwtAuthGuard {
  import opened Wrappers
  import opened Text
  import opened Http

  /** Claims returned by the token verifier. */
  datatype TokenClaims = TokenClaims(sub: string, email: string, roles: seq<string>)

  datatype RequestUser = RequestUser(id: string, email: string, roles: seq<string>)

  const BearerPrefix := "Bearer "

  /** The token the guard verifies: the header with its leading `Bearer `
      replaced by nothing, or None when the header is missing or lacks the
      prefix. */
  function BearerToken(header: Option<string>): (r: Option<string>)
    ensures r.Some? <==> header.Some? && StartsWith(header.value, BearerPrefix)
    ensures r.Some? ==> header.value == BearerPrefix + r.value
  {
    if header.Some? && StartsWith(header.value, BearerPrefix) then
      var token := ReplaceFirst(header.value, BearerPrefix, "");
      assert token == header.value[|BearerPrefix|..];
      assert header.value == header.value[..|BearerPrefix|] + header.value[|BearerPrefix|..];
      Some(token)
    else None
  }

  /** Any token, once prefixed, is extracted back unchanged. */
  lemma BearerTokenRoundTrip(token: string)
    ensures BearerToken(Some(BearerPrefix + token)) == Some(token)
  {
    StartsWithAppend(BearerPrefix, token);
  }

  class Request {
    var authorization: Option<string>
    var user: Option<RequestUser>

    constructor(authorization: Option<string>)
      ensures this.authorization == authorization && user == None
    {
      this.authorization := authorization;
      user := None;
    }
  }

  /** `canActivate`; `verify` stands for the signature check of the token
      service and returns None when it rejects the token. Only the handler's
      public marker is consulted. */
  method CanActivate(meta: Metadata<bool>, request: Request, verify: string -> Option<TokenClaims>)
    returns (r: Result<bool, HttpError>)
    modifies request`user
    ensures FromHandler(meta) == Some(true) ==> r == Success(true) && request.user == old(request.user)
    ensures FromHandler(meta) != Some(true) && BearerToken(request.authorization).None?
            ==> r == Failure(Unauthorized("Missing token")) && request.user == old(request.user)
    ensures FromHandler(meta) != Some(true) && BearerToken(request.authorization).Some?
            && verify(BearerToken(request.authorization).value).None?
            ==> r == Failure(Unauthorized("Invalid token")) && request.user == old(request.user)
    ensures FromHandler(meta) != Some(true) && BearerToken(request.authorization).Some?
            && verify(BearerToken(request.authorization).value).Some?
            ==> var c := verify(BearerToken(request.authorization).value).value;
                r == Success(true) && request.user == Some(RequestUser(c.sub, c.email, c.roles))
  {
    var isPublic := FromHandler(meta);
    if isPublic == Some(true) {
      return Success(true);
    }
    var token := BearerToken(request.authorization);
    if token.None? {
      return Failure(Unauthorized("Missing token"));
    }
    var claims := verify(token.value);
    if claims.None? {
      return Failure(Unauthorized("Invalid token"));
    }
    request.user := Some(RequestUser(claims.value.sub, claims.value.email, claims.value.roles));
    return Success(true);
  }
}
