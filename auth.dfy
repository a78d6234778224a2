/** The two Express middlewares of server/server.js that guard every
    /api/user and /api/admin route: authenticateToken and requireAdmin.
    Verifying a JSON Web Token is a foreign library call, so the verifier
    is a parameter: it either yields the claims signed into the token or
    fails (an invalid signature or an expired token). */
module Auth {
  import opened Common

  /** What login signs into the session token. */
  datatype Claims = Claims(id: nat, email: string, role: string)

  /** The two places a request can carry a token: the `token` cookie and the
      Authorization header (None when the cookie or header is absent). */
  datatype Credentials = Credentials(cookieToken: Option<string>, authorization: Option<string>)

  /** JavaScript truthiness of a string that may be undefined. */
  predicate Truthy(s: Option<string>)
  {
    s.Some? && s.value != ""
  }

  /** Position of the first space in s, if there is one. */
  function IndexOfSpace(s: string): (r: Option<nat>)
    ensures r.Some? ==> r.value < |s| && s[r.value] == ' ' && ' ' !in s[..r.value]
    ensures r.None? ==> ' ' !in s
  {
    if s == [] then None
    else if s[0] == ' ' then Some(0)
    else match IndexOfSpace(s[1..])
      case None => None
      case Some(i) => Some(i + 1)
  }

  /** The first field of a split on spaces: everything before the first space. */
  function FirstField(s: string): (r: string)
    ensures ' ' !in r
    ensures r <= s
    ensures |r| < |s| ==> s[|r|] == ' '
  {
    match IndexOfSpace(s)
    case None => s
    case Some(i) => s[..i]
  }

  /** The second space-separated field, or undefined (None) when the header
      holds no space at all: the text that follows the first space and runs
      up to the next space or the end of the header. */
  function SecondField(header: string): (r: Option<string>)
    ensures r.None? <==> ' ' !in header
    ensures r.Some? ==> ' ' !in r.value
    ensures r.Some? ==> exists i :: 0 <= i < |header| && header[i] == ' ' && ' ' !in header[..i] &&
                                    r.value <= header[i + 1..] &&
                                    (i + 1 + |r.value| == |header| || header[i + 1 + |r.value|] == ' ')
  {
    match IndexOfSpace(header)
    case None => None
    case Some(i) =>
      var v := FirstField(header[i + 1..]);
      assert |v| < |header[i + 1..]| ==> header[i + 1 + |v|] == ' ';
      Some(v)
  }

  /** The conventional "Bearer <token>" header yields the token, whatever
      further space-separated fields follow it. */
  lemma BearerHeader(scheme: string, token: string, rest: string)
    requires ' ' !in scheme && ' ' !in token
    requires rest == [] || rest[0] == ' '
    ensures SecondField(scheme + " " + token + rest) == Some(token)
  {
    var h := scheme + " " + token + rest;
    assert h == scheme + " " + (token + rest);
    SpaceAfter(scheme, token + rest);
    assert h[|scheme| + 1..] == token + rest;
    if rest == [] {
      assert token + rest == token;
    } else {
      assert token + rest == token + " " + rest[1..];
      SpaceAfter(token, rest[1..]);
      assert (token + rest)[..|token|] == token;
    }
  }

  lemma {:induction false} SpaceAfter(scheme: string, rest: string)
    requires ' ' !in scheme
    ensures IndexOfSpace(scheme + " " + rest) == Some(|scheme|)
  {
    if scheme != [] {
      assert (scheme + " " + rest)[1..] == scheme[1..] + " " + rest;
      SpaceAfter(scheme[1..], rest);
    }
  }

  /** The token cookie when it is set, else the second field of the
      Authorization header; a falsy outcome (undefined or the empty string) as None. */
  function ExtractToken(c: Credentials): (r: Option<string>)
    ensures r.Some? ==> r.value != ""
    ensures Truthy(c.cookieToken) ==> r == c.cookieToken
    ensures !Truthy(c.cookieToken) && r.Some? ==>
              c.authorization.Some? && SecondField(c.authorization.value) == r
    ensures !Truthy(c.cookieToken) && c.authorization.Some? && Truthy(SecondField(c.authorization.value)) ==>
              r == SecondField(c.authorization.value)
  {
    if Truthy(c.cookieToken) then c.cookieToken
    else if c.authorization.None? || c.authorization.value == "" then None
    else
      var t := SecondField(c.authorization.value);
      if Truthy(t) then t else None
  }

  /** authenticateToken: 401 when no token is found, 403 when the verifier
      rejects it, otherwise the claims become `req.user`. */
  function Authenticate(c: Credentials, verify: string -> Option<Claims>): (r: Result<Claims, int>)
    ensures r == Failure(UNAUTHORIZED) <==> ExtractToken(c).None?
    ensures r == Failure(FORBIDDEN) <==> ExtractToken(c).Some? && verify(ExtractToken(c).value).None?
    ensures r.Success? <==> ExtractToken(c).Some? && verify(ExtractToken(c).value).Some?
    ensures r.Success? ==> Some(r.value) == verify(ExtractToken(c).value)
  {
    match ExtractToken(c)
    case None => Failure(UNAUTHORIZED)
    case Some(token) =>
      match verify(token)
      case None => Failure(FORBIDDEN)
      case Some(claims) => Success(claims)
  }

  /** requireAdmin: any role other than 'admin' is refused with 403. */
  function RequireAdmin(user: Claims): (r: Result<Claims, int>)
    ensures r.Success? <==> user.role == "admin"
    ensures r.Success? ==> r.value == user
    ensures r.Failure? ==> r.error == FORBIDDEN
  {
    if user.role != "admin" then Failure(FORBIDDEN) else Success(user)
  }

  /** The middleware chain of an admin route: authenticateToken, then requireAdmin. */
  function AuthorizeAdmin(c: Credentials, verify: string -> Option<Claims>): (r: Result<Claims, int>)
    ensures r.Success? <==> Authenticate(c, verify).Success? && Authenticate(c, verify).value.role == "admin"
    ensures r.Failure? ==> r.error == UNAUTHORIZED || r.error == FORBIDDEN
    ensures Authenticate(c, verify).Failure? ==> r == Authenticate(c, verify)
    ensures Authenticate(c, verify).Success? && Authenticate(c, verify).value.role != "admin" ==>
              r == Failure(FORBIDDEN)
  {
    match Authenticate(c, verify)
    case Failure(status) => Failure(status)
    case Success(user) => RequireAdmin(user)
  }

  /** A request without cookie and without Authorization header is a 401,
      whatever the verifier would have said. */
  lemma NoCredentialsIsUnauthorized(verify: string -> Option<Claims>)
    ensures Authenticate(Credentials(None, None), verify) == Failure(UNAUTHORIZED)
    ensures AuthorizeAdmin(Credentials(None, None), verify) == Failure(UNAUTHORIZED)
  {
  }

  /** A non-empty cookie wins: the Authorization header is never consulted. */
  lemma CookieTakesPrecedence(cookie: string, h1: Option<string>, h2: Option<string>, verify: string -> Option<Claims>)
    requires cookie != ""
    ensures Authenticate(Credentials(Some(cookie), h1), verify) == Authenticate(Credentials(Some(cookie), h2), verify)
  {
  }

  /** Without a cookie, "Bearer <token>" authenticates exactly as the token does. */
  lemma BearerAuthenticates(scheme: string, token: string, verify: string -> Option<Claims>)
    requires ' ' !in scheme && ' ' !in token && token != ""
    ensures ExtractToken(Credentials(None, Some(scheme + " " + token))) == Some(token)
    ensures Authenticate(Credentials(None, Some(scheme + " " + token)), verify) ==
              if verify(token).Some? then Success(verify(token).value) else Failure(FORBIDDEN)
  {
    BearerHeader(scheme, token, []);
    assert scheme + " " + token + [] == scheme + " " + token;
  }
}
