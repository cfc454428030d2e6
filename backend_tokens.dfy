/** Signed tokens and the authentication middleware
    (backend/src/utils/jwt.js, backend/src/middleware/auth.js).

    A token is modelled by what it certifies: the secret that signed it, the
    payload, and its expiry in whole seconds. The secrets and the optional
    lifetime overrides come from the process environment, the record `Env`.
    Turning the wire string back into a token is the parameter `decode`; it
    answers `None` for a string that is not a well-formed signed token. */
module Tokens {
  import opened Common
  import opened Domain
  import opened BackendModels

  /** `JWT_SECRET`, `REFRESH_SECRET`, and `JWT_EXPIRES_IN` and
      `REFRESH_EXPIRES_IN` in seconds (`None` when unset or empty). */
  datatype Env = Env(jwtSecret: string, refreshSecret: string,
                     accessExpiresIn: Option<int>, refreshExpiresIn: Option<int>)

  datatype Token = Token(secret: string, payload: Payload, expiresAt: int)

  /** The default lifetimes, in seconds: one day and seven days. */
  const DefaultAccessLifetime: int := 86400
  const DefaultRefreshLifetime: int := 604800

  /** `process.env.JWT_EXPIRES_IN || '1d'`. */
  function AccessLifetime(env: Env): int { env.accessExpiresIn.GetOr(DefaultAccessLifetime) }

  /** `process.env.REFRESH_EXPIRES_IN || '7d'`. */
  function RefreshLifetime(env: Env): int { env.refreshExpiresIn.GetOr(DefaultRefreshLifetime) }

  /** Whole seconds since the epoch, rounded down, for a time in milliseconds. */
  function Seconds(now: int): int { now / 1000 }

  /** Signing: the expiry is the issue second plus the lifetime. */
  function Sign(secret: string, p: Payload, now: int, lifetime: int): (t: Token)
    ensures t.secret == secret && t.payload == p
    ensures t.expiresAt - Seconds(now) == lifetime
  {
    Token(secret, p, Seconds(now) + lifetime)
  }

  /** `signAccess`: signed with `JWT_SECRET`, for a day unless overridden. */
  function SignAccess(env: Env, p: Payload, now: int): (t: Token)
    ensures t.secret == env.jwtSecret && t.payload == p
    ensures env.accessExpiresIn.None? ==> t.expiresAt == Seconds(now) + 86400
    ensures env.accessExpiresIn.Some? ==> t.expiresAt == Seconds(now) + env.accessExpiresIn.value
  {
    Sign(env.jwtSecret, p, now, AccessLifetime(env))
  }

  /** `signRefresh`: signed with `REFRESH_SECRET`, for seven days unless
      overridden. */
  function SignRefresh(env: Env, p: Payload, now: int): (t: Token)
    ensures t.secret == env.refreshSecret && t.payload == p
    ensures env.refreshExpiresIn.None? ==> t.expiresAt == Seconds(now) + 604800
    ensures env.refreshExpiresIn.Some? ==> t.expiresAt == Seconds(now) + env.refreshExpiresIn.value
  {
    Sign(env.refreshSecret, p, now, RefreshLifetime(env))
  }

  /** Verifying against one secret: the token must be signed with it and the
      current second must lie before the expiry. */
  function Verify(secret: string, t: Option<Token>, now: int): (r: Option<Payload>)
    ensures r.Some? <==> t.Some? && t.value.secret == secret && Seconds(now) < t.value.expiresAt
    ensures r.Some? ==> r.value == t.value.payload
  {
    if t.Some? && t.value.secret == secret && Seconds(now) < t.value.expiresAt then Some(t.value.payload)
    else None
  }

  /** `verifyAccess`. */
  function VerifyAccess(env: Env, t: Option<Token>, now: int): Option<Payload> {
    Verify(env.jwtSecret, t, now)
  }

  /** `verifyRefresh`. */
  function VerifyRefresh(env: Env, t: Option<Token>, now: int): Option<Payload> {
    Verify(env.refreshSecret, t, now)
  }

  /** A token verifies, with its own payload, exactly until its lifetime has
      passed; a different secret never accepts it. */
  lemma SignVerifyRoundTrip(secret: string, other: string, p: Payload, issued: int, lifetime: int, now: int)
    ensures Verify(secret, Some(Sign(secret, p, issued, lifetime)), now) ==
            (if Seconds(now) < Seconds(issued) + lifetime then Some(p) else None)
    ensures other != secret ==> Verify(other, Some(Sign(secret, p, issued, lifetime)), now).None?
  {
  }

  /** The two secrets are what keeps the token kinds apart: when they
      differ, an access token is refused by `verifyRefresh` and a refresh
      token by `verifyAccess`; when they are equal, a fresh refresh token
      passes `verifyAccess`. */
  lemma KindsApartIffSecretsDiffer(env: Env, p: Payload, issued: int, now: int)
    ensures env.jwtSecret != env.refreshSecret ==>
      VerifyAccess(env, Some(SignRefresh(env, p, issued)), now).None?
      && VerifyRefresh(env, Some(SignAccess(env, p, issued)), now).None?
    ensures env.jwtSecret == env.refreshSecret && Seconds(now) < Seconds(issued) + RefreshLifetime(env) ==>
      VerifyAccess(env, Some(SignRefresh(env, p, issued)), now) == Some(p)
  {
  }

  const BearerPrefix := "Bearer "

  /** The token of an `Authorization` header: the text after `Bearer `, and
      nothing when the header is missing, lacks the prefix or has nothing
      after it. */
  function BearerToken(header: Option<string>): (r: Option<string>)
    ensures r.Some? <==> header.Some? && BearerPrefix <= header.value && |header.value| > |BearerPrefix|
    ensures r.Some? ==> header.value == BearerPrefix + r.value && r.value != ""
  {
    var h := header.GetOr("");
    if BearerPrefix <= h && h[|BearerPrefix|..] != "" then
      assert h == BearerPrefix + h[|BearerPrefix|..];
      Some(h[|BearerPrefix|..])
    else None
  }

  lemma BearerTokenOfPrefixed(t: string)
    requires t != ""
    ensures BearerToken(Some(BearerPrefix + t)) == Some(t)
  {
    assert (BearerPrefix + t)[|BearerPrefix|..] == t;
  }

  /** An incoming request as the middleware sees it: its authorization
      header, and the identity the middleware attaches to it. */
  class Request {
    const authorization: Option<string>
    var user: Option<Payload>

    constructor (authorization: Option<string>)
      ensures this.authorization == authorization && user.None?
    {
      this.authorization := authorization;
      user := None;
    }
  }

  /** The authentication middleware: 401 "Unauthorized" unless the header
      carries an access token that verifies now; on success the payload is
      attached to the request and the next handler runs (`Ok`). */
  method RequireAuth(req: Request, env: Env, decode: string -> Option<Token>, now: int) returns (r: Response<()>)
    modifies req
    ensures r.Ok? <==> BearerToken(req.authorization).Some?
                       && VerifyAccess(env, decode(BearerToken(req.authorization).value), now).Some?
    ensures r.Ok? ==> req.user == VerifyAccess(env, decode(BearerToken(req.authorization).value), now)
    ensures r.Fail? ==> r == Fail(401, "Unauthorized") && req.user == old(req.user)
  {
    var token := BearerToken(req.authorization);
    if token.None? {
      return Fail(401, "Unauthorized");
    }
    var payload := VerifyAccess(env, decode(token.value), now);
    if payload.None? {
      return Fail(401, "Unauthorized");
    }
    req.user := payload;
    r := Ok(());
  }

  /** With distinct secrets, a refresh token never gets a request past the
      middleware, whatever its payload and however fresh it is. */
  lemma RefreshTokenNeverAuthenticates(env: Env, t: string, decode: string -> Option<Token>, now: int)
    requires env.jwtSecret != env.refreshSecret
    requires decode(t).Some? && decode(t).value.secret == env.refreshSecret
    ensures VerifyAccess(env, decode(BearerToken(Some(BearerPrefix + t)).GetOr(t)), now).None?
  {
    if t != "" {
      BearerTokenOfPrefixed(t);
    }
  }
}
