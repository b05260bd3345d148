/**
 * keycloak-jwt.middleware.ts: the authentication gate. It takes the token from an
 * `Authorization: Bearer` header (section 2.1 of RFC 6750) or, failing that, from the
 * `access_token` cookie, has the service validate it, and on success attaches the claims to
 * the request under `keycloakClaims` and calls `next()` once. Every failure is
 * Unauthorized and `next()` is not called.
 */
module KeycloakJwtMiddleware {
  import opened Wrappers
  import opened Text
  import opened Runtime
  import opened TokenClaims
  import KeycloakConfig
  import KS = KeycloakService

  /** KEYCLOAK_CLAIMS_KEY: the request property the claims are attached under. */
  const KeycloakClaimsKey: string := "keycloakClaims"

  const BearerPrefix: string := "Bearer "

  const MissingTokenMessage: string := "Missing Bearer token"

  const InvalidTokenMessage: string := "Invalid or expired token"

  /**
   * The parts of an Express request the gates read, and the one property the authentication
   * gate writes. `cookies` is `None` when no cookie parser populated it.
   */
  class Request {
    const authorization: Option<string>
    const cookies: Option<map<string, string>>
    const path: string
    const url: string
    var keycloakClaims: Option<Identity>

    constructor (authorization: Option<string>, cookies: Option<map<string, string>>, path: string, url: string)
      ensures this.authorization == authorization && this.cookies == cookies
      ensures this.path == path && this.url == url && keycloakClaims == None
    {
      this.authorization := authorization;
      this.cookies := cookies;
      this.path := path;
      this.url := url;
      keycloakClaims := None;
    }
  }

  /** `extractToken(req)`. */
  function ExtractToken(authorization: Option<string>, cookies: Option<map<string, string>>): (token: Option<string>)
  {
    if authorization.Some? && StartsWith(authorization.value, BearerPrefix) then
      Some(authorization.value[|BearerPrefix|..])
    else if cookies.Some? && "access_token" in cookies.value then
      Some(cookies.value["access_token"])
    else
      None
  }

  /** The header built from a token gives the token back, whatever the cookies say. */
  lemma BearerRoundTrip(t: string, cookies: Option<map<string, string>>)
    ensures ExtractToken(Some(BearerPrefix + t), cookies) == Some(t)
  {
    assert (BearerPrefix + t)[..|BearerPrefix|] == BearerPrefix;
    assert (BearerPrefix + t)[|BearerPrefix|..] == t;
  }

  /** A header that is not Bearer-prefixed (`bearer x`, `Basic x`, `Bearer` without the space) falls back to the cookie. */
  lemma CookieOnlyWithoutBearer(authorization: Option<string>, cookies: map<string, string>)
    requires authorization.None? || !StartsWith(authorization.value, BearerPrefix)
    ensures ExtractToken(authorization, Some(cookies))
      == (if "access_token" in cookies then Some(cookies["access_token"]) else None)
  {
  }

  datatype GateOutcome = Proceed | Unauthorized(message: string)

  /** What one pass through the gate does: its outcome, the claims it attaches, the cache after it. */
  datatype GateRun = GateRun(outcome: GateOutcome, attached: Option<Identity>, state: KS.CacheState)

  /** A token `if (!token)` lets through: present and non-empty. */
  predicate Usable(token: Option<string>)
  {
    token.Some? && token.value != ""
  }

  /** `use(req, res, next)` as a function of the request's credentials and the cache. */
  function Gate(s: KS.CacheState, authorization: Option<string>, cookies: Option<map<string, string>>,
                issuer: string, io: KS.ValidationIo, p: Platform): GateRun
  {
    var token := ExtractToken(authorization, cookies);
    if !Usable(token) then GateRun(Unauthorized(MissingTokenMessage), None, s)
    else
      var v := KS.Validate(s, token.value, issuer, io, p);
      match v.claims
      case Err(_) => GateRun(Unauthorized(InvalidTokenMessage), None, v.state)
      case Ok(c) => GateRun(Proceed, Some(c), v.state)
  }

  /** Without a token the gate refuses at once: the validator, hence the key cache and the network, is never used. */
  lemma NoTokenNoValidation(s: KS.CacheState, authorization: Option<string>, cookies: Option<map<string, string>>,
                            issuer: string, io: KS.ValidationIo, p: Platform)
    requires !Usable(ExtractToken(authorization, cookies))
    ensures Gate(s, authorization, cookies, issuer, io, p) == GateRun(Unauthorized(MissingTokenMessage), None, s)
  {
  }

  /** A header of exactly `Bearer ` yields the empty token and is refused without looking at the cookie. */
  lemma EmptyBearerRejected(s: KS.CacheState, cookies: Option<map<string, string>>, issuer: string, io: KS.ValidationIo, p: Platform)
    ensures ExtractToken(Some(BearerPrefix), cookies) == Some("")
    ensures Gate(s, Some(BearerPrefix), cookies, issuer, io, p) == GateRun(Unauthorized(MissingTokenMessage), None, s)
  {
    BearerRoundTrip("", cookies);
    assert BearerPrefix + "" == BearerPrefix;
  }

  /**
   * The gate lets a request through exactly when the validator accepts its token; then it
   * attaches the validator's claims, and every failure, whatever its cause, reads the same.
   */
  lemma ProceedIffValidated(s: KS.CacheState, authorization: Option<string>, cookies: Option<map<string, string>>,
                            issuer: string, io: KS.ValidationIo, p: Platform)
    ensures var g := Gate(s, authorization, cookies, issuer, io, p);
      var token := ExtractToken(authorization, cookies);
      && (g.outcome == Proceed <==> Usable(token) && KS.Validate(s, token.value, issuer, io, p).claims.Ok?)
      && (g.outcome == Proceed ==> g.attached == Some(KS.Validate(s, token.value, issuer, io, p).claims.value))
      && (g.outcome != Proceed ==> g.attached == None)
      && (g.outcome != Proceed ==> g.outcome in {Unauthorized(MissingTokenMessage), Unauthorized(InvalidTokenMessage)})
  {
  }

  /**
   * `use(req, res, next)`: `Proceed` stands for the single `next()` call, `Unauthorized` for
   * the thrown UnauthorizedException. Only a successful validation writes the request.
   */
  method Use(req: Request, service: KS.KeycloakService, io: KS.ValidationIo, p: Platform) returns (outcome: GateOutcome)
    modifies req, service
    ensures var g := Gate(old(service.State()), req.authorization, req.cookies, KeycloakConfig.Issuer(service.config), io, p);
      && outcome == g.outcome
      && service.State() == g.state
      && req.keycloakClaims == (if outcome == Proceed then g.attached else old(req.keycloakClaims))
  {
    var token := ExtractToken(req.authorization, req.cookies);
    if token.None? || token.value == "" {
      return Unauthorized(MissingTokenMessage);
    }
    var claims := service.ValidateToken(token.value, io, p);
    if claims.Err? {
      return Unauthorized(InvalidTokenMessage);
    }
    req.keycloakClaims := Some(claims.value);
    outcome := Proceed;
  }
}
