/** The two authentication middlewares and the role check
    (Backend/src/middleware/auth.js, Backend/src/middleware/streamAuth.js).
    JWT verification is the parameter `verify`: `None` where `jwt.verify`
    throws (bad signature, expired, malformed), else the payload it returns. */
module Middleware {
  import opened Wrappers
  import opened JsText
  import opened Models
  import opened Store
  import opened Http
  import opened Access

  /** The payload of a token: what `createToken` signs. */
  datatype Claims = Claims(userId: string, role: Role, tenantId: string)

  /** The parts of a request the middlewares read: the `Authorization`
      header, the `token` query parameter and the `token` cookie. */
  datatype Credentials = Credentials(authorization: Option<string>, queryToken: Option<string>,
                                     cookieToken: Option<string>)

  /** The middleware's verdict: call `next` with `req.user` set, or answer. */
  datatype AuthOutcome = Authenticated(user: Principal) | Rejected(reply: Reply<()>)

  const TokenMissing: string := "Authentication token missing"
  const UserNotFound: string := "User not found"
  const InvalidToken: string := "Invalid or expired token"
  const NotAuthenticated: string := "Not authenticated"
  const InsufficientRole: string := "Forbidden: insufficient role"

  // --------------------------------------------------------- token sources

  /** `authHeader.split(" ")[1]` once the header starts with `Bearer `:
      the text between the first and the second space, possibly empty.
      `None` when the header is absent, empty or not a Bearer header. */
  function BearerToken(authorization: Option<string>): (r: Option<string>)
    ensures r.Some? <==> Truthy(authorization) && StartsWith(authorization.value, "Bearer ")
    ensures r.Some? ==> ' ' !in r.value
  {
    if Truthy(authorization) && StartsWith(authorization.value, "Bearer ") then
      var parts := Split(authorization.value, ' ');
      assert authorization.value[6] == ' ';
      Some(parts[1])
    else None
  }

  /** The token `authMiddleware` settles on: the Bearer header's, else the
      cookie when it is non-empty. */
  function AuthToken(c: Credentials): (r: Option<string>)
    ensures r.None? <==> BearerToken(c.authorization).None? && !Truthy(c.cookieToken)
    ensures r.Some? ==> r == BearerToken(c.authorization) || r == c.cookieToken
    ensures BearerToken(c.authorization).Some? ==> r == BearerToken(c.authorization)
  {
    if BearerToken(c.authorization).Some? then BearerToken(c.authorization)
    else if Truthy(c.cookieToken) then c.cookieToken
    else None
  }

  /** The token `streamAuthMiddleware` settles on: the Bearer header's,
      else the query parameter, else the cookie, each only when non-empty. */
  function StreamToken(c: Credentials): (r: Option<string>)
    ensures r.None? <==> BearerToken(c.authorization).None? && !Truthy(c.queryToken) && !Truthy(c.cookieToken)
    ensures r.Some? ==> r == BearerToken(c.authorization) || r == c.queryToken || r == c.cookieToken
    ensures !Truthy(c.queryToken) ==> r == AuthToken(c)
  {
    if BearerToken(c.authorization).Some? then BearerToken(c.authorization)
    else if Truthy(c.queryToken) then c.queryToken
    else if Truthy(c.cookieToken) then c.cookieToken
    else None
  }

  /** The principal both middlewares build from the stored user: the
      user's own role and tenant, not the token's. */
  function PrincipalOf(u: User): (p: Principal)
    ensures p.userId == u.id && p.role == u.role && p.tenantId == u.tenantId
    ensures p.email == u.email && p.name == u.name
  {
    Principal(u.id, u.email, u.name, u.role, u.tenantId)
  }

  /** What follows the choice of a token in both middlewares: 401 when it
      is missing or empty, 401 when verification throws, 401 when no user
      has the claimed id, otherwise the stored user's principal. */
  function Authenticate(token: Option<string>, verify: string -> Option<Claims>, users: seq<User>): (r: AuthOutcome)
    ensures !Truthy(token) ==> r == Rejected(JsonMessage(401, TokenMissing))
    ensures Truthy(token) && verify(token.value).None? ==> r == Rejected(JsonMessage(401, InvalidToken))
    ensures Truthy(token) && verify(token.value).Some? && FindUserById(users, verify(token.value).value.userId).None?
            ==> r == Rejected(JsonMessage(401, UserNotFound))
    ensures r.Authenticated? <==>
      Truthy(token) && verify(token.value).Some? && FindUserById(users, verify(token.value).value.userId).Some?
    ensures r.Authenticated? ==>
      && r.user == PrincipalOf(FindUserById(users, verify(token.value).value.userId).value)
      && r.user.userId == verify(token.value).value.userId
    ensures r.Rejected? ==> r.reply.status == 401
  {
    if !Truthy(token) then Rejected(JsonMessage(401, TokenMissing))
    else
      var claims := verify(token.value);
      if claims.None? then Rejected(JsonMessage(401, InvalidToken))
      else
        var found := FindUserById(users, claims.value.userId);
        if found.None? then Rejected(JsonMessage(401, UserNotFound))
        else Authenticated(PrincipalOf(found.value))
  }

  // ------------------------------------------------------------ middlewares

  /** `authMiddleware`, step by step as auth.js writes it: the `if` chain
      over the header and the cookie, then verification and the user
      lookup; proved to decide as `Authenticate(AuthToken(c), ...)`. */
  method AuthMiddleware(c: Credentials, verify: string -> Option<Claims>, users: seq<User>) returns (r: AuthOutcome)
    ensures r == Authenticate(AuthToken(c), verify, users)
  {
    var token: Option<string> := None;
    if Truthy(c.authorization) && StartsWith(c.authorization.value, "Bearer ") {
      token := BearerToken(c.authorization);
    } else if Truthy(c.cookieToken) {
      token := c.cookieToken;
    }
    if !Truthy(token) {
      return Rejected(JsonMessage(401, TokenMissing));
    }
    var payload := verify(token.value);
    if payload.None? {
      return Rejected(JsonMessage(401, InvalidToken));
    }
    var user := FindUserById(users, payload.value.userId);
    if user.None? {
      return Rejected(JsonMessage(401, UserNotFound));
    }
    r := Authenticated(Principal(user.value.id, user.value.email, user.value.name, user.value.role, user.value.tenantId));
  }

  /** `streamAuthMiddleware`, step by step as streamAuth.js writes it: the
      `if` chain over the header, the query parameter and the cookie, then
      verification and the user lookup; proved to decide as
      `Authenticate(StreamToken(c), ...)`. */
  method StreamAuthMiddleware(c: Credentials, verify: string -> Option<Claims>, users: seq<User>) returns (r: AuthOutcome)
    ensures r == Authenticate(StreamToken(c), verify, users)
  {
    var token: Option<string> := None;
    if Truthy(c.authorization) && StartsWith(c.authorization.value, "Bearer ") {
      token := BearerToken(c.authorization);
    } else if Truthy(c.queryToken) {
      token := c.queryToken;
    } else if Truthy(c.cookieToken) {
      token := c.cookieToken;
    }
    if !Truthy(token) {
      return Rejected(JsonMessage(401, TokenMissing));
    }
    var payload := verify(token.value);
    if payload.None? {
      return Rejected(JsonMessage(401, InvalidToken));
    }
    var user := FindUserById(users, payload.value.userId);
    if user.None? {
      return Rejected(JsonMessage(401, UserNotFound));
    }
    r := Authenticated(Principal(user.value.id, user.value.email, user.value.name, user.value.role, user.value.tenantId));
  }

  /** `requireRoles(...allowed)`: `None` means `next()` is called. */
  function RequireRoles<P>(user: Option<Principal>, allowed: seq<Role>): (r: Option<Reply<P>>)
    ensures r.None? <==> user.Some? && user.value.role in allowed
    ensures user.None? ==> r == Some(JsonMessage(401, NotAuthenticated))
    ensures user.Some? && user.value.role !in allowed ==> r == Some(JsonMessage(403, InsufficientRole))
  {
    if user.None? then Some(JsonMessage(401, NotAuthenticated))
    else if user.value.role !in allowed then Some(JsonMessage(403, InsufficientRole))
    else None
  }

  /** The roles allowed to upload, delete and reprocess. */
  const ManagerRoles: seq<Role> := [Editor, Admin]

  // ------------------------------------------------------------ properties

  /** `Bearer <t>` yields `t` whatever further space-separated text follows. */
  lemma BearerTokenOfHeader(t: string, more: string)
    requires ' ' !in t
    ensures BearerToken(Some("Bearer " + t)) == Some(t)
    ensures BearerToken(Some("Bearer " + t + " " + more)) == Some(t)
  {
    assert "Bearer " + t == "Bearer" + [' '] + t;
    assert "Bearer " + t + " " + more == "Bearer" + [' '] + (t + [' '] + more);
    assert StartsWith("Bearer " + t, "Bearer ");
    assert StartsWith("Bearer " + t + " " + more, "Bearer ");
    SplitAfter("Bearer", ' ', t);
    SplitNone(t, ' ');
    SplitAfter("Bearer", ' ', t + [' '] + more);
    SplitAfter(t, ' ', more);
  }

  /** A Bearer header wins over every other source in both middlewares,
      even when the text after `Bearer ` is empty and the request then
      fails with "token missing" although a cookie holds a token. */
  lemma BearerTakesPrecedence(c: Credentials)
    requires BearerToken(c.authorization).Some?
    ensures AuthToken(c) == StreamToken(c) == BearerToken(c.authorization)
  {
  }

  /** A header with two spaces after `Bearer` (`Bearer  x`) splits into
      an empty token: 401 "token missing", and the cookie is never read. */
  lemma {:induction false} EmptyBearerShadowsCookie(more: string, cookie: string, verify: string -> Option<Claims>,
                                                    users: seq<User>)
    ensures var c := Credentials(Some("Bearer  " + more), None, Some(cookie));
      Authenticate(AuthToken(c), verify, users) == Rejected(JsonMessage(401, TokenMissing))
  {
    BearerTokenOfHeader("", more);
    assert "Bearer " + "" + " " + more == "Bearer  " + more;
  }

  /** A header that is not a Bearer header is ignored: the stream
      middleware falls through to the query parameter and then the cookie,
      and without a query parameter it picks what `authMiddleware` picks. */
  lemma NonBearerFallsThrough(c: Credentials)
    requires BearerToken(c.authorization).None?
    ensures StreamToken(c) == (if Truthy(c.queryToken) then c.queryToken else AuthToken(c))
    ensures !Truthy(c.queryToken) ==> StreamToken(c) == AuthToken(c)
  {
  }

  /** Where the role check passes, the caller is one of the allowed roles;
      a viewer never passes the check of the managing routes. */
  lemma ViewerCannotManage(user: Principal)
    requires user.role == Viewer
    ensures RequireRoles<()>(Some(user), ManagerRoles) == Some(JsonMessage(403, InsufficientRole))
  {
  }
}
