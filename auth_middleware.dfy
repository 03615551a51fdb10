/**
 * The two request gates: `authMiddleware` reads the bearer token, verifies it
 * and checks the user still exists before the handler runs; `adminMiddleware`
 * lets only the ADMIN role through. Token verification (a signed JWT) is an
 * oracle parameter `verify`.
 */
module AuthMiddleware {
  import opened Wrappers
  import opened Schema

  /** The token payload: exactly the user's id, email and role. */
  datatype JwtPayload = JwtPayload(userId: Id, email: string, role: Role)

  /** What the middleware leaves in the request context for the handler. */
  datatype Context = Context(user: JwtPayload, userId: Id)

  const BEARER: string := "Bearer "

  /** The token of an Authorization header: the header with its 7-character "Bearer " prefix removed. */
  function BearerToken(header: Option<string>): (token: Option<string>)
    ensures token.Some? <==> header.Some? && |header.value| >= 7 && header.value[..7] == BEARER
    ensures token.Some? ==> header.value == BEARER + token.value
  {
    if header.Some? && |header.value| >= |BEARER| && header.value[..|BEARER|] == BEARER
    then Some(header.value[|BEARER|..])
    else None
  }

  /** A header built as "Bearer " + token yields that token back, whatever the token. */
  lemma BearerRoundTrip(token: string)
    ensures BearerToken(Some(BEARER + token)) == Some(token)
  {
    assert (BEARER + token)[..|BEARER|] == BEARER;
    assert (BEARER + token)[|BEARER|..] == token;
  }

  /**
   * `authMiddleware`: 401 when the header is missing or not a bearer header,
   * when verification fails, or when the decoded user no longer exists;
   * otherwise the context holds the decoded payload and its user id.
   */
  function Authenticate(header: Option<string>, verify: string -> Option<JwtPayload>, users: map<Id, User>): (r: Result<Context>)
    ensures r.Err? ==> r.failure.status == 401
    ensures BearerToken(header).None? ==> r == Err(Failure(401, "Authorization header missing or invalid"))
    ensures r.Ok? <==>
      && BearerToken(header).Some?
      && verify(BearerToken(header).value).Some?
      && verify(BearerToken(header).value).value.userId in users
    ensures r.Ok? ==>
      && r.value.user == verify(BearerToken(header).value).value
      && r.value.userId == r.value.user.userId
  {
    var token := BearerToken(header);
    if token.None? then Err(Failure(401, "Authorization header missing or invalid"))
    else
      var decoded := verify(token.value);
      if decoded.None? then Err(Failure(401, "Invalid or expired token"))
      else if decoded.value.userId !in users then Err(Failure(401, "User not found"))
      else Ok(Context(decoded.value, decoded.value.userId))
  }

  /** `adminMiddleware`: 401 with no user in the context, 403 for any role but ADMIN, otherwise the handler runs. */
  function AdminGate(user: Option<JwtPayload>): (r: Result<JwtPayload>)
    ensures user.None? ==> r == Err(Failure(401, "Authentication required"))
    ensures user.Some? && user.value.role != ADMIN ==> r == Err(Failure(403, "Admin access required"))
    ensures r.Ok? <==> user.Some? && user.value.role == ADMIN
    ensures r.Ok? ==> r.value == user.value
  {
    if user.None? then Err(Failure(401, "Authentication required"))
    else if user.value.role != ADMIN then Err(Failure(403, "Admin access required"))
    else Ok(user.value)
  }

  /** Both gates in a row, as the admin routes mount them: they pass exactly for an existing ADMIN's valid token. */
  lemma AdminChain(header: Option<string>, verify: string -> Option<JwtPayload>, users: map<Id, User>)
    ensures var a := Authenticate(header, verify, users);
      a.Ok? && AdminGate(Some(a.value.user)).Ok? <==>
        && BearerToken(header).Some?
        && verify(BearerToken(header).value).Some?
        && verify(BearerToken(header).value).value.userId in users
        && verify(BearerToken(header).value).value.role == ADMIN
  {
  }
}
