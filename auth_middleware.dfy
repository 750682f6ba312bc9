/** The decisions of server/middleware/auth.js: bearer-header parsing,
    `authenticate` with its ban check, `authorize`, `authorizeOwnerOrAdmin`
    and `optionalAuth`. Token verification and the user lookup are
    parameters; a middleware either passes (with the user it attaches, if
    any) or rejects with a status. */
module AuthMiddleware {
  import opened Common

  const BearerPrefix: string := "Bearer "
  const BannedRole: string := "banned"
  const AdminRole: string := "admin"

  /** `req.user` as the middleware reads it. */
  datatype AuthUser = AuthUser(id: string, role: string)

  /** What `jwt.verify` does with a token: decodes it, or throws one of the
      two errors the middleware names, or another error. */
  datatype TokenCheck = Verified(userId: string) | Expired | Malformed | VerifyFailed

  datatype Outcome = Pass(user: Option<AuthUser>) | Reject(status: int, code: Option<string>)

  /** The token of an `Authorization` header of the form `Bearer <token>`. */
  function BearerToken(header: Option<string>): (t: Option<string>)
    ensures t.Some? <==> header.Some? && |header.value| >= 7 && header.value[..7] == BearerPrefix
    ensures t.Some? ==> header.value == BearerPrefix + t.value
  {
    if header.Some? && |header.value| >= 7 && header.value[..7] == BearerPrefix
    then
      assert header.value == header.value[..7] + header.value[7..];
      Some(header.value[7..])
    else None
  }

  /** Every token round-trips through its header. */
  lemma BearerTokenRoundTrip(token: string)
    ensures BearerToken(Some(BearerPrefix + token)) == Some(token)
  {
    assert (BearerPrefix + token)[..7] == BearerPrefix;
    assert (BearerPrefix + token)[7..] == token;
  }

  /** The user a token names, when it verifies and the user exists. */
  function TokenUser(token: string, verify: string -> TokenCheck, lookup: string -> Option<AuthUser>): Option<AuthUser>
  {
    match verify(token)
    case Verified(userId) => lookup(userId)
    case _ => None
  }

  /** `authenticate`. */
  function Authenticate(header: Option<string>, verify: string -> TokenCheck, lookup: string -> Option<AuthUser>): (o: Outcome)
    ensures BearerToken(header).None? ==> o == Reject(401, None)
    ensures o.Pass? <==> (BearerToken(header).Some?
                          && TokenUser(BearerToken(header).value, verify, lookup).Some?
                          && TokenUser(BearerToken(header).value, verify, lookup).value.role != BannedRole)
    ensures o.Pass? ==> o.user == TokenUser(BearerToken(header).value, verify, lookup)
    ensures BearerToken(header).Some? && verify(BearerToken(header).value) == Expired ==>
      o == Reject(401, Some("TOKEN_EXPIRED"))
    ensures BearerToken(header).Some? && verify(BearerToken(header).value) == Malformed ==>
      o == Reject(401, Some("TOKEN_INVALID"))
    ensures o.Reject? ==> o.status in {401, 403, 500}
  {
    match BearerToken(header)
    case None => Reject(401, None)
    case Some(token) =>
      match verify(token)
      case Expired => Reject(401, Some("TOKEN_EXPIRED"))
      case Malformed => Reject(401, Some("TOKEN_INVALID"))
      case VerifyFailed => Reject(500, None)
      case Verified(userId) =>
        match lookup(userId)
        case None => Reject(401, None)
        case Some(user) =>
          if user.role == BannedRole then Reject(403, None) else Pass(Some(user))
  }

  /** A banned user is turned away with 403 whatever the token. */
  lemma BannedUserIsForbidden(header: Option<string>, verify: string -> TokenCheck, lookup: string -> Option<AuthUser>)
    requires BearerToken(header).Some?
    requires TokenUser(BearerToken(header).value, verify, lookup).Some?
    requires TokenUser(BearerToken(header).value, verify, lookup).value.role == BannedRole
    ensures Authenticate(header, verify, lookup) == Reject(403, None)
  {
  }

  /** `authorize(...roles)`. */
  function Authorize(user: Option<AuthUser>, roles: seq<string>): (o: Outcome)
    ensures user.None? ==> o == Reject(401, None)
    ensures user.Some? ==> (o.Pass? <==> user.value.role in roles)
    ensures o.Reject? ==> o.status == 401 || o.status == 403
    ensures o.Pass? ==> o.user == user
  {
    if user.None? then Reject(401, None)
    else if user.value.role !in roles then Reject(403, None)
    else Pass(user)
  }

  /** A string is truthy when it is not empty. */
  predicate Truthy(s: Option<string>)
  {
    s.Some? && s.value != ""
  }

  /** `req.params[field] || req.body[field]`. */
  function ResourceOwner(param: Option<string>, body: Option<string>): (r: Option<string>)
    ensures Truthy(param) ==> r == param
    ensures !Truthy(param) ==> r == body
  {
    if Truthy(param) then param else body
  }

  /** `authorizeOwnerOrAdmin(field)`, given the field's value in the route
      parameters and in the body. */
  function AuthorizeOwnerOrAdmin(user: Option<AuthUser>, param: Option<string>, body: Option<string>): (o: Outcome)
    ensures user.None? ==> o == Reject(401, None)
    ensures user.Some? ==>
      (o.Pass? <==> user.value.role == AdminRole
                    || (Truthy(ResourceOwner(param, body)) && ResourceOwner(param, body).value == user.value.id))
    ensures user.Some? && o.Reject? ==> o == Reject(403, None)
    ensures o.Pass? ==> o.user == user
  {
    if user.None? then Reject(401, None)
    else if user.value.role == AdminRole then Pass(user)
    else
      var owner := ResourceOwner(param, body);
      if Truthy(owner) && owner.value == user.value.id then Pass(user) else Reject(403, None)
  }

  /** The route parameter wins over the body: a caller who owns the body's id
      but not the parameter's is refused. */
  lemma ParamTakesPrecedence(user: AuthUser, param: string, body: string)
    requires user.role != AdminRole && param != "" && param != user.id && body == user.id
    ensures AuthorizeOwnerOrAdmin(Some(user), Some(param), Some(body)) == Reject(403, None)
  {
  }

  /** `optionalAuth`: never rejects. */
  function OptionalAuth(header: Option<string>, verify: string -> TokenCheck, lookup: string -> Option<AuthUser>): (o: Outcome)
    ensures o.Pass?
    ensures BearerToken(header).None? ==> o.user.None?
  {
    match BearerToken(header)
    case None => Pass(None)
    case Some(token) =>
      var user := TokenUser(token, verify, lookup);
      if user.Some? && user.value.role != BannedRole then Pass(user) else Pass(None)
  }

  /** `optionalAuth` attaches exactly the user `authenticate` would let in. */
  lemma OptionalAuthAgreesWithAuthenticate(header: Option<string>, verify: string -> TokenCheck, lookup: string -> Option<AuthUser>)
    ensures var a := Authenticate(header, verify, lookup);
      OptionalAuth(header, verify, lookup) == (if a.Pass? then a else Pass(None))
  {
  }
}
