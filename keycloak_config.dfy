/**
 * keycloak.config.ts: the identity-provider configuration read from the process environment.
 * Without a URL, a realm and a client id the whole Keycloak feature is off.
 */
module KeycloakConfig {
  import opened Wrappers

  /** `process.env`: an unset variable is absent from the map. */
  type Env = map<string, string>

  datatype Config = Config(
    url: string,
    realm: string,
    clientId: string,
    clientSecret: Option<string>,
    jwksUrl: string)

  /** A variable that `!value` does not reject: set and non-empty. */
  predicate IsSet(env: Env, name: string)
  {
    name in env && env[name] != ""
  }

  /** `${url}/realms/${realm}`: the realm's base URL, which is also the issuer its tokens carry. */
  function RealmBase(url: string, realm: string): string
  {
    url + "/realms/" + realm
  }

  /** The issuer `jwt.verify` demands for a configuration. */
  function Issuer(cfg: Config): string
  {
    RealmBase(cfg.url, cfg.realm)
  }

  const CertsPath: string := "/protocol/openid-connect/certs"

  /** `getKeycloakConfig()`. */
  function GetKeycloakConfig(env: Env): (r: Option<Config>)
    ensures r.None? <==> !IsSet(env, "KEYCLOAK_URL") || !IsSet(env, "KEYCLOAK_REALM") || !IsSet(env, "KEYCLOAK_CLIENT_ID")
    ensures r.Some? ==>
      && r.value.url == env["KEYCLOAK_URL"]
      && r.value.realm == env["KEYCLOAK_REALM"]
      && r.value.clientId == env["KEYCLOAK_CLIENT_ID"]
      && r.value.clientSecret == (if "KEYCLOAK_CLIENT_SECRET" in env then Some(env["KEYCLOAK_CLIENT_SECRET"]) else None)
    ensures r.Some? && IsSet(env, "KEYCLOAK_JWKS_URL") ==> r.value.jwksUrl == env["KEYCLOAK_JWKS_URL"]
    ensures r.Some? && !IsSet(env, "KEYCLOAK_JWKS_URL") ==> r.value.jwksUrl == Issuer(r.value) + CertsPath
  {
    if !IsSet(env, "KEYCLOAK_URL") || !IsSet(env, "KEYCLOAK_REALM") || !IsSet(env, "KEYCLOAK_CLIENT_ID") then
      None
    else
      var url := env["KEYCLOAK_URL"];
      var realm := env["KEYCLOAK_REALM"];
      var jwksUrl :=
        if IsSet(env, "KEYCLOAK_JWKS_URL") then env["KEYCLOAK_JWKS_URL"]
        else url + "/realms/" + realm + CertsPath;
      Some(Config(
        url,
        realm,
        env["KEYCLOAK_CLIENT_ID"],
        if "KEYCLOAK_CLIENT_SECRET" in env then Some(env["KEYCLOAK_CLIENT_SECRET"]) else None,
        jwksUrl))
  }

  /**
   * Without an override the JWKS endpoint lies under the issuer: the keys are fetched from the
   * same realm whose name the validator demands in `iss`.
   */
  lemma DefaultJwksUnderIssuer(env: Env)
    requires GetKeycloakConfig(env).Some? && !IsSet(env, "KEYCLOAK_JWKS_URL")
    ensures var cfg := GetKeycloakConfig(env).value;
      |Issuer(cfg)| < |cfg.jwksUrl| && cfg.jwksUrl[..|Issuer(cfg)|] == Issuer(cfg)
  {
    var cfg := GetKeycloakConfig(env).value;
    assert cfg.jwksUrl == Issuer(cfg) + CertsPath;
    assert (Issuer(cfg) + CertsPath)[..|Issuer(cfg)|] == Issuer(cfg);
  }
}
