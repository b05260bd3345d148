/**
 * The order in which keycloak.module.ts installs the two gates: when the Keycloak
 * configuration is present, every route passes the authentication gate and then the
 * authorisation gate; when it is absent, neither is installed.
 */
module KeycloakGates {
  import opened Wrappers
  import opened JsonValues
  import opened Runtime
  import opened TokenClaims
  import KeycloakConfig
  import KS = KeycloakService
  import Jwt = KeycloakJwtMiddleware
  import Rbac = KeycloakRbacMiddleware

  /** How a request leaves the two gates. */
  datatype GateResponse =
    | ReachesHandler
    | Rejected401(message: string)
    | Rejected403
    /** An exception other than the two HTTP ones: a failing directory, or a non-array roles claim. */
    | Faulted

  /** The response, the key cache afterwards, and the database the directory was asked for. */
  datatype PipelineRun = PipelineRun(response: GateResponse, state: KS.CacheState, queried: Option<string>)

  /** One request through the installed gates; `config` is `getKeycloakConfig()`. */
  function Pipeline(config: Option<KeycloakConfig.Config>, s: KS.CacheState,
                    authorization: Option<string>, cookies: Option<map<string, string>>,
                    path: string, url: string, io: KS.ValidationIo, p: Platform,
                    findOne: string -> Rbac.Lookup): PipelineRun
  {
    match config
    case None => PipelineRun(ReachesHandler, s, None)
    case Some(cfg) =>
      var g := Jwt.Gate(s, authorization, cookies, KeycloakConfig.Issuer(cfg), io, p);
      match g.outcome
      case Unauthorized(message) => PipelineRun(Rejected401(message), g.state, None)
      case Proceed =>
        var r := Rbac.Use(g.attached, path, url, findOne, p.jsonParse);
        var response := match r.verdict
          case Next => ReachesHandler
          case Forbidden => Rejected403
          case Fault => Faulted;
        PipelineRun(response, g.state, r.queried)
  }

  /** Without a Keycloak configuration the gates are not installed: every request passes untouched. */
  lemma UnconfiguredInstallsNothing(s: KS.CacheState, authorization: Option<string>, cookies: Option<map<string, string>>,
                                    path: string, url: string, io: KS.ValidationIo, p: Platform, findOne: string -> Rbac.Lookup)
    ensures Pipeline(None, s, authorization, cookies, path, url, io, p, findOne) == PipelineRun(ReachesHandler, s, None)
  {
  }

  /**
   * A request without a usable token is answered 401 before anything else happens: no key is
   * fetched and the database directory is not queried.
   */
  lemma NoTokenStopsAtTheFirstGate(cfg: KeycloakConfig.Config, s: KS.CacheState,
                                   authorization: Option<string>, cookies: Option<map<string, string>>,
                                   path: string, url: string, io: KS.ValidationIo, p: Platform, findOne: string -> Rbac.Lookup)
    requires !Jwt.Usable(Jwt.ExtractToken(authorization, cookies))
    ensures Pipeline(Some(cfg), s, authorization, cookies, path, url, io, p, findOne)
      == PipelineRun(Rejected401(Jwt.MissingTokenMessage), s, None)
  {
    Jwt.NoTokenNoValidation(s, authorization, cookies, KeycloakConfig.Issuer(cfg), io, p);
  }

  /**
   * With Keycloak configured, a request reaches its handler exactly when its token validates
   * against the realm's issuer and the database it names (if any) is unknown, unrestricted,
   * or shares a group or role with the caller. In particular the authorisation gate never
   * meets a request without claims.
   */
  lemma HandlerReachedIffAuthenticatedAndAuthorised(cfg: KeycloakConfig.Config, s: KS.CacheState,
                                                     authorization: Option<string>, cookies: Option<map<string, string>>,
                                                     path: string, url: string, io: KS.ValidationIo, p: Platform,
                                                     findOne: string -> Rbac.Lookup)
    ensures var token := Jwt.ExtractToken(authorization, cookies);
      var id := Rbac.ExtractDatabaseId(path, url);
      Pipeline(Some(cfg), s, authorization, cookies, path, url, io, p, findOne).response == ReachesHandler
      <==>
        && Jwt.Usable(token)
        && KS.Validate(s, token.value, KeycloakConfig.Issuer(cfg), io, p).claims.Ok?
        && (|| id.None?
            || findOne(id.value).NotFound?
            || (findOne(id.value).Found?
                && var record := findOne(id.value).record;
                var groups := Rbac.ParseJsonArray(record.allowedGroups, p.jsonParse);
                var roles := Rbac.ParseJsonArray(record.allowedRoles, p.jsonParse);
                !Rbac.Restricted(groups, roles)
                || Rbac.Overlaps(KS.Validate(s, token.value, KeycloakConfig.Issuer(cfg), io, p).claims.value, groups, roles)))
  {
    var issuer := KeycloakConfig.Issuer(cfg);
    var g := Jwt.Gate(s, authorization, cookies, issuer, io, p);
    Jwt.ProceedIffValidated(s, authorization, cookies, issuer, io, p);
    if g.outcome == Jwt.Proceed {
      Rbac.NextIffPermitted(g.attached, path, url, findOne, p.jsonParse);
    }
  }

  /**
   * The request as it passes the two installed gates: the authentication gate writes the
   * claims onto the request, and the authorisation gate reads them from there.
   */
  method HandleRequest(req: Jwt.Request, service: KS.KeycloakService, io: KS.ValidationIo, p: Platform,
                       findOne: string -> Rbac.Lookup) returns (response: GateResponse, queried: Option<string>)
    modifies req, service
    ensures var run := Pipeline(Some(service.config), old(service.State()), req.authorization, req.cookies,
                                req.path, req.url, io, p, findOne);
      && response == run.response
      && queried == run.queried
      && service.State() == run.state
      && req.keycloakClaims
         == (if response.Rejected401? then old(req.keycloakClaims)
             else Jwt.Gate(old(service.State()), req.authorization, req.cookies,
                           KeycloakConfig.Issuer(service.config), io, p).attached)
  {
    var outcome := Jwt.Use(req, service, io, p);
    if outcome.Unauthorized? {
      return Rejected401(outcome.message), None;
    }
    var r := Rbac.Use(req.keycloakClaims, req.path, req.url, findOne, p.jsonParse);
    queried := r.queried;
    response := match r.verdict
      case Next => ReachesHandler
      case Forbidden => Rejected403
      case Fault => Faulted;
  }
}
