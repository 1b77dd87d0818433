/** The two middlewares in front of the handlers: `verifyToken`, which
    accepts a request only with a bearer token that verifies, and
    `requireRole`, which asks only that a user was attached. */
module Auth {
  import opened Common

  /** What a middleware does with a request: pass it on with the verified
      user, or answer it. */
  datatype AuthResult = Authenticated(user: Caller) | Rejected(status: Status)

  /** `authorization?.split(' ')[1]`: the token part of the header, absent
      when there is no header or no space in it. */
  function Token(authorization: Option<string>): Option<string> {
    if authorization.None? then None else SecondField(authorization.value, ' ')
  }

  /** `verifyToken`. `verify` stands for `jwt.verify` with the server's
      secret: the claims of a token that verifies, nothing for one that does
      not. No token, an empty one, and one that does not verify are all
      answered 401. */
  function VerifyToken(authorization: Option<string>, verify: string -> Option<Caller>): (r: AuthResult)
    ensures r.Rejected? ==> r.status == Unauthorized
    ensures authorization.None? ==> r.Rejected?
    ensures authorization.Some? && ' ' !in authorization.value ==> r.Rejected?
    ensures r.Authenticated? <==>
      Token(authorization).Some? && Token(authorization).value != "" && verify(Token(authorization).value).Some?
    ensures r.Authenticated? ==> Some(r.user) == verify(Token(authorization).value)
  {
    var token := Token(authorization);
    if token.None? || token.value == "" then Rejected(Unauthorized)
    else match verify(token.value)
      case None => Rejected(Unauthorized)
      case Some(claims) => Authenticated(claims)
  }

  /** A `Bearer <token>` header carries the token: the request goes on with
      the token's claims exactly when it verifies; `Bearer ` with nothing
      after it is refused. */
  lemma BearerHeader(token: string, verify: string -> Option<Caller>)
    requires ' ' !in token
    ensures Token(Some("Bearer " + token)) == Some(token)
    ensures token != "" && verify(token).Some? ==>
      VerifyToken(Some("Bearer " + token), verify) == Authenticated(verify(token).value)
    ensures token == "" || verify(token).None? ==>
      VerifyToken(Some("Bearer " + token), verify) == Rejected(Unauthorized)
  {
    assert "Bearer " + token == "Bearer" + [' '] + token;
    SecondFieldOfJoin("Bearer", token, ' ');
  }

  /** The outcome of `requireRole(...roles)`. */
  datatype Gate = Next | Refuse(status: Status)

  /** `requireRole`: 401 when no user is attached; any user, superuser or
      not, passes, whatever roles are asked for. */
  function RequireRole(user: Option<Caller>, roles: seq<Role>): (g: Gate)
    ensures g.Next? <==> user.Some?
    ensures g.Refuse? ==> g.status == Unauthorized
  {
    if user.None? then Refuse(Unauthorized)
    else if user.value.isSuperuser then Next
    else Next
  }

  /** The roles asked for never change the decision. */
  lemma RolesIgnored(user: Option<Caller>, some: seq<Role>, other: seq<Role>)
    ensures RequireRole(user, some) == RequireRole(user, other)
    ensures user.Some? ==> RequireRole(user, []) == Next
  {
  }

  /** Behind `verifyToken`, `requireRole` always lets the request go on. */
  lemma VerifiedPassesRoles(authorization: Option<string>, verify: string -> Option<Caller>, roles: seq<Role>)
    requires VerifyToken(authorization, verify).Authenticated?
    ensures RequireRole(Some(VerifyToken(authorization, verify).user), roles) == Next
  {
  }
}
