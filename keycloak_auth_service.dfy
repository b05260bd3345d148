/**
 * keycloakAuthService.ts: the browser side of the authorization-code flow with PKCE
 * (RFC 7636). It reads the client configuration from the globals the server injects or from
 * build variables, builds the authorize, token and logout URLs of the realm, derives the code
 * verifier and challenge, decodes a token's payload without checking it, and keeps the access
 * token, the code verifier and the state in session storage under three fixed keys.
 */
module KeycloakAuthService {
  import opened Wrappers
  import opened Text
  import opened JsonValues
  import opened Runtime
  import opened UrlEncoding
  import opened Base64

  datatype ClientConfig = ClientConfig(url: string, realm: string, clientId: string)

  /**
   * The three settings as one source provides them: the `window.__RI_KEYCLOAK_*__` globals or
   * the `VITE_KEYCLOAK_*` build variables. `None` is `undefined`.
   */
  datatype ConfigSource = ConfigSource(url: Option<string>, realm: Option<string>, clientId: Option<string>)

  /** A truthy string: defined and non-empty. */
  predicate Present(v: Option<string>)
  {
    v.Some? && v.value != ""
  }

  /** `a || b`. */
  function Or(a: Option<string>, b: Option<string>): Option<string>
  {
    if Present(a) then a else b
  }

  /**
   * `getConfig()`: each setting from the window global when that is truthy, else from the
   * build variable; `null` as soon as one setting is missing or empty in both.
   */
  function GetConfig(win: ConfigSource, env: ConfigSource): (cfg: Option<ClientConfig>)
    ensures cfg.None? <==>
      || !(Present(win.url) || Present(env.url))
      || !(Present(win.realm) || Present(env.realm))
      || !(Present(win.clientId) || Present(env.clientId))
    ensures cfg.Some? ==> cfg.value.url != "" && cfg.value.realm != "" && cfg.value.clientId != ""
  {
    var url := Or(win.url, env.url);
    var realm := Or(win.realm, env.realm);
    var clientId := Or(win.clientId, env.clientId);
    if !Present(url) || !Present(realm) || !Present(clientId) then None
    else Some(ClientConfig(url.value, realm.value, clientId.value))
  }

  /** Settings injected into the page win over the build variables, whatever those say. */
  lemma InjectedSettingsWin(win: ConfigSource, env: ConfigSource)
    requires Present(win.url) && Present(win.realm) && Present(win.clientId)
    ensures GetConfig(win, env) == Some(ClientConfig(win.url.value, win.realm.value, win.clientId.value))
  {
  }

  /** `isKeycloakEnabled()`. */
  predicate IsKeycloakEnabled(win: ConfigSource, env: ConfigSource)
  {
    GetConfig(win, env).Some?
  }

  /** `${url}/realms/${realm}/protocol/openid-connect/${endpoint}`. */
  function RealmEndpoint(cfg: ClientConfig, endpoint: string): string
  {
    cfg.url + "/realms/" + cfg.realm + "/protocol/openid-connect/" + endpoint
  }

  const CallbackPath: string := "/keycloak-callback"

  /** The authorization request's parameters, in the order they are serialised. */
  function AuthorizeParams(cfg: ClientConfig, challenge: string, state: string, origin: string): seq<(string, string)>
  {
    [("client_id", cfg.clientId),
     ("redirect_uri", origin + CallbackPath),
     ("response_type", "code"),
     ("scope", "openid email profile"),
     ("code_challenge", challenge),
     ("code_challenge_method", "S256"),
     ("state", state)]
  }

  /** `buildAuthorizeUrl(cfg, codeChallenge, state)`, with `window.location.origin` as `origin`. */
  function BuildAuthorizeUrl(cfg: ClientConfig, challenge: string, state: string, origin: string, p: Platform): string
  {
    RealmEndpoint(cfg, "auth") + "?" + Query(AuthorizeParams(cfg, challenge, state, origin), p)
  }

  lemma AuthorizeNamesAscii()
    ensures IsAscii("client_id") && IsAscii("redirect_uri") && IsAscii("response_type") && IsAscii("scope")
  {
  }

  lemma AuthorizeLiteralsAscii()
    ensures IsAscii("code_challenge") && IsAscii("code_challenge_method") && IsAscii("state")
    ensures IsAscii("code") && IsAscii("openid email profile") && IsAscii("S256")
  {
  }

  lemma AuthorizeParamsAscii(cfg: ClientConfig, challenge: string, state: string, origin: string)
    requires IsAscii(cfg.clientId) && IsAscii(challenge) && IsAscii(state) && IsAscii(origin)
    ensures AsciiPairs(AuthorizeParams(cfg, challenge, state, origin))
  {
    var l := AuthorizeParams(cfg, challenge, state, origin);
    AuthorizeNamesAscii();
    AuthorizeLiteralsAscii();
    CallbackAscii(origin);
    forall k | 0 <= k < |l|
      ensures IsAscii(l[k].0) && IsAscii(l[k].1)
    {
      if k == 0 { assert l[k] == ("client_id", cfg.clientId); }
      else if k == 1 { assert l[k] == ("redirect_uri", origin + CallbackPath); }
      else if k == 2 { assert l[k] == ("response_type", "code"); }
      else if k == 3 { assert l[k] == ("scope", "openid email profile"); }
      else if k == 4 { assert l[k] == ("code_challenge", challenge); }
      else if k == 5 { assert l[k] == ("code_challenge_method", "S256"); }
      else { assert l[k] == ("state", state); }
    }
  }

  lemma CallbackAscii(origin: string)
    requires IsAscii(origin)
    ensures IsAscii(origin + CallbackPath)
  {
    assert IsAscii(CallbackPath);
    AsciiAppend(origin, CallbackPath);
  }

  /**
   * The authorize URL is the realm's auth endpoint followed by a query that the identity
   * provider reads back as the code-flow request of section 4.3 of RFC 7636: response type
   * `code`, the challenge with method `S256`, the callback under the page's origin.
   */
  lemma AuthorizeUrlCarriesPkce(cfg: ClientConfig, challenge: string, state: string, origin: string, p: Platform)
    requires IsAscii(cfg.clientId) && IsAscii(challenge) && IsAscii(state) && IsAscii(origin)
    ensures var u := BuildAuthorizeUrl(cfg, challenge, state, origin, p);
      var prefix := RealmEndpoint(cfg, "auth") + "?";
      && StartsWith(u, prefix)
      && ParseQuery(u[|prefix|..]) == [
           ("client_id", cfg.clientId),
           ("redirect_uri", origin + "/keycloak-callback"),
           ("response_type", "code"),
           ("scope", "openid email profile"),
           ("code_challenge", challenge),
           ("code_challenge_method", "S256"),
           ("state", state)]
  {
    var prefix := RealmEndpoint(cfg, "auth") + "?";
    var params := AuthorizeParams(cfg, challenge, state, origin);
    var q := Query(params, p);
    assert (prefix + q)[..|prefix|] == prefix;
    assert (prefix + q)[|prefix|..] == q;
    AuthorizeParamsAscii(cfg, challenge, state, origin);
    QueryRoundTrip(params, p);
  }

  /** The characters section 4.1 of RFC 7636 allows in a code verifier (the unreserved set of RFC 3986). */
  predicate Unreserved(c: char)
  {
    'A' <= c <= 'Z' || 'a' <= c <= 'z' || '0' <= c <= '9' || c == '-' || c == '.' || c == '_' || c == '~'
  }

  /** `generateCodeVerifier()`, given the 32 bytes `crypto.getRandomValues` fills in. */
  function GenerateCodeVerifier(random: seq<Byte>): string
  {
    ToBase64Url(Btoa(random))
  }

  /**
   * `generateCodeChallenge(verifier)`; `sha256` stands for `crypto.subtle.digest('SHA-256', ...)`
   * over the UTF-8 encoding of its argument.
   */
  function GenerateCodeChallenge(verifier: string, sha256: string -> seq<Byte>): string
  {
    ToBase64Url(Btoa(sha256(verifier)))
  }

  lemma UrlDigitsAreAscii(s: string)
    requires forall k :: 0 <= k < |s| ==> UrlDigit(s[k])
    ensures IsAscii(s) && '.' !in s
  {
    assert forall k :: 0 <= k < |s| ==> s[k] != '.';
  }

  /**
   * Thirty-two random bytes give a verifier of 43 unreserved characters, the shortest
   * section 4.1 of RFC 7636 allows, and it is their unpadded URL-safe base 64.
   */
  lemma CodeVerifierMeetsPkce(random: seq<Byte>)
    requires |random| == 32
    ensures var v := GenerateCodeVerifier(random);
      && v == Encoded(random, true)
      && |v| == 43
      && (forall k :: 0 <= k < |v| ==> Unreserved(v[k]))
  {
    ToBase64UrlOfBtoa(random);
  }

  /**
   * The challenge is BASE64URL(SHA256(verifier)), the `S256` method of section 4.2 of
   * RFC 7636: 43 URL-safe characters, which `FromBase64Url` and a base 64 decoder turn back
   * into the digest.
   */
  lemma CodeChallengeIsS256(verifier: string, sha256: string -> seq<Byte>)
    requires |sha256(verifier)| == 32
    ensures var c := GenerateCodeChallenge(verifier, sha256);
      && c == Encoded(sha256(verifier), true)
      && |c| == 43
      && IsAscii(c)
      && Octets(Sextets(sha256(verifier))) == sha256(verifier)
  {
    var digest := sha256(verifier);
    ToBase64UrlOfBtoa(digest);
    UrlDigitsAreAscii(Encoded(digest, true));
    OctetsOfSextets(digest);
  }

  /**
   * `parseJwtPayload(token)`: the second `.`-separated segment, mapped back to the standard
   * alphabet, through `atob` and `JSON.parse`. `None` is a thrown error: a token without a
   * second segment, text `atob` refuses, or text that is not JSON.
   */
  function ParseJwtPayload(token: string, p: Platform): Option<Json>
  {
    var segments := Split(token, '.');
    if |segments| < 2 then None
    else
      match p.atob(FromBase64Url(segments[1]))
      case None => None
      case Some(text) => p.jsonParse(text)
  }

  /** A string without a dot has no payload segment, and parsing it throws. */
  lemma NoPayloadSegment(token: string, p: Platform)
    requires '.' !in token
    ensures ParseJwtPayload(token, p) == None
  {
  }

  /**
   * For a token issued as `header.payload.signature` with the payload in unpadded URL-safe
   * base 64 (section 3 of RFC 7519), `atob` receives exactly the standard base 64 of the
   * payload bytes without its padding.
   */
  lemma ParseIssuedToken(header: string, payload: seq<Byte>, signature: string, p: Platform)
    requires '.' !in header && '.' !in signature
    ensures ParseJwtPayload(header + "." + Encoded(payload, true) + "." + signature, p)
      == (match p.atob(Encoded(payload, false))
          case None => None
          case Some(text) => p.jsonParse(text))
  {
    var e := Encoded(payload, true);
    UrlDigitsAreAscii(e);
    JoinCons(e, [signature], '.');
    JoinCons(header, [e, signature], '.');
    assert [header] + [e, signature] == [header, e, signature];
    assert [e] + [signature] == [e, signature];
    assert Join([header, e, signature], '.') == header + "." + e + "." + signature;
    SplitJoin([header, e, signature], '.');
    FromBase64UrlOfEncoded(payload);
  }

  const AccessTokenKey: string := "kc_access_token"
  const CodeVerifierKey: string := "kc_code_verifier"
  const StateKey: string := "kc_state"

  /** Session storage after `clearStoredTokens()`: the three keys gone, every other entry kept. */
  function Cleared(storage: map<string, string>): (r: map<string, string>)
    ensures AccessTokenKey !in r && CodeVerifierKey !in r && StateKey !in r
    ensures forall k :: k in r ==> k in storage && r[k] == storage[k]
    ensures forall k :: k in storage && k != AccessTokenKey && k != CodeVerifierKey && k != StateKey ==> k in r
  {
    storage - {AccessTokenKey, CodeVerifierKey, StateKey}
  }

  /** What `fetch` gives back: a rejection with its message, or a response. */
  datatype FetchOutcome =
    | NetworkError(message: string)
    | HttpResponse(ok: bool, statusText: string, body: string)

  /** The POST `exchangeCodeForTokens` makes: the URL and the form-encoded body. */
  datatype TokenRequest = TokenRequest(endpoint: string, body: string)

  /** Why the exchange throws: an `Error` with its message, or a body `response.json()` cannot parse. */
  datatype ExchangeError = ErrorMessage(message: string) | BodyNotJson

  const NotConfiguredMessage: string := "Keycloak is not configured"
  const ExchangeFailedPrefix: string := "Token exchange failed: "

  /** The stored code verifier, or `''` when there is none (`?? ''`). */
  function StoredVerifier(storage: map<string, string>): string
  {
    if CodeVerifierKey in storage then storage[CodeVerifierKey] else ""
  }

  function TokenRequestParams(cfg: ClientConfig, storage: map<string, string>, origin: string, code: string): seq<(string, string)>
  {
    [("grant_type", "authorization_code"),
     ("client_id", cfg.clientId),
     ("code", code),
     ("redirect_uri", origin + CallbackPath),
     ("code_verifier", StoredVerifier(storage))]
  }

  function TokenRequestFor(cfg: ClientConfig, storage: map<string, string>, origin: string, code: string, p: Platform): TokenRequest
  {
    TokenRequest(RealmEndpoint(cfg, "token"), Query(TokenRequestParams(cfg, storage, origin, code), p))
  }

  /**
   * The token request goes to the realm's token endpoint and its body reads back as the
   * access-token request of section 4.5 of RFC 7636, carrying the verifier kept in session
   * storage, or the empty string when none was kept.
   */
  lemma TokenRequestCarriesVerifier(cfg: ClientConfig, storage: map<string, string>, origin: string, code: string, p: Platform)
    requires IsAscii(cfg.clientId) && IsAscii(origin) && IsAscii(code) && IsAscii(StoredVerifier(storage))
    ensures var r := TokenRequestFor(cfg, storage, origin, code, p);
      && r.endpoint == RealmEndpoint(cfg, "token")
      && ParseQuery(r.body) == [
           ("grant_type", "authorization_code"),
           ("client_id", cfg.clientId),
           ("code", code),
           ("redirect_uri", origin + "/keycloak-callback"),
           ("code_verifier", if CodeVerifierKey in storage then storage[CodeVerifierKey] else "")]
  {
    var params := TokenRequestParams(cfg, storage, origin, code);
    assert AsciiPairs(params) by {
      AuthorizeNamesAscii();
      assert IsAscii("grant_type") && IsAscii("authorization_code") && IsAscii("code") && IsAscii("code_verifier");
      CallbackAscii(origin);
      forall k | 0 <= k < |params|
        ensures IsAscii(params[k].0) && IsAscii(params[k].1)
      {
        if k == 0 { assert params[k] == ("grant_type", "authorization_code"); }
        else if k == 1 { assert params[k] == ("client_id", cfg.clientId); }
        else if k == 2 { assert params[k] == ("code", code); }
        else if k == 3 { assert params[k] == ("redirect_uri", origin + CallbackPath); }
        else { assert params[k] == ("code_verifier", StoredVerifier(storage)); }
      }
    }
    QueryRoundTrip(params, p);
  }

  /** `exchangeCodeForTokens(code)`; `fetch` answers the token request. */
  function ExchangeCodeForTokens(cfg: Option<ClientConfig>, storage: map<string, string>, origin: string, code: string,
                                 fetch: TokenRequest -> FetchOutcome, p: Platform): Result<Json, ExchangeError>
  {
    match cfg
    case None => Err(ErrorMessage(NotConfiguredMessage))
    case Some(c) =>
      match fetch(TokenRequestFor(c, storage, origin, code, p))
      case NetworkError(message) => Err(ErrorMessage(message))
      case HttpResponse(ok, statusText, body) =>
        if !ok then Err(ErrorMessage(ExchangeFailedPrefix + statusText))
        else
          match p.jsonParse(body)
          case None => Err(BodyNotJson)
          case Some(tokens) => Ok(tokens)
  }

  /**
   * The exchange succeeds exactly when the client is configured and the identity provider
   * answers with an ok response whose body is JSON; without configuration nothing is sent,
   * and a refused exchange reports the response's status text.
   */
  lemma ExchangeOutcome(cfg: Option<ClientConfig>, storage: map<string, string>, origin: string, code: string,
                        fetch: TokenRequest -> FetchOutcome, p: Platform)
    ensures var r := ExchangeCodeForTokens(cfg, storage, origin, code, fetch, p);
      && (cfg.None? ==> r == Err(ErrorMessage("Keycloak is not configured")))
      && (cfg.Some? ==>
            var answer := fetch(TokenRequestFor(cfg.value, storage, origin, code, p));
            r.Ok? <==> answer.HttpResponse? && answer.ok && p.jsonParse(answer.body).Some?)
  {
  }

  /** A response that is not ok makes the exchange throw with the response's status text. */
  lemma RefusedExchangeReportsStatus(cfg: ClientConfig, storage: map<string, string>, origin: string, code: string,
                                     fetch: TokenRequest -> FetchOutcome, p: Platform)
    requires fetch(TokenRequestFor(cfg, storage, origin, code, p)).HttpResponse?
    requires !fetch(TokenRequestFor(cfg, storage, origin, code, p)).ok
    ensures ExchangeCodeForTokens(Some(cfg), storage, origin, code, fetch, p)
      == Err(ErrorMessage("Token exchange failed: " + fetch(TokenRequestFor(cfg, storage, origin, code, p)).statusText))
  {
  }

  /** Where `logoutFromKeycloak()` sends the browser. */
  function LogoutTarget(cfg: Option<ClientConfig>, origin: string, p: Platform): string
  {
    match cfg
    case None => "/"
    case Some(c) => RealmEndpoint(c, "logout") + "?" + "redirect_uri" + "=" + EncodeUriComponent(origin, p)
  }

  /** A form-decoded name made only of characters the serializer keeps is itself. */
  lemma {:induction false} PlainDecode(s: string)
    requires forall k :: 0 <= k < |s| ==> FormKeeps(s[k])
    ensures FormDecode(s) == s
  {
    if s != [] {
      assert s[0] != '+' && s[0] != '%';
      PlainDecode(s[1..]);
      assert s == [s[0]] + s[1..];
    }
  }

  /**
   * The logout URL is the realm's logout endpoint with a single query parameter that the
   * identity provider reads back as the page's origin.
   */
  lemma LogoutReturnsToOrigin(cfg: ClientConfig, origin: string, p: Platform)
    requires IsAscii(origin)
    ensures var target := LogoutTarget(Some(cfg), origin, p);
      var prefix := RealmEndpoint(cfg, "logout") + "?";
      && StartsWith(target, prefix)
      && ParseQuery(target[|prefix|..]) == [("redirect_uri", origin)]
  {
    var e := EncodeUriComponent(origin, p);
    LogoutTargetSplits(cfg, origin, p);
    RedirectUriName();
    ParseSingleEntry("redirect_uri", e);
    FormDecodeUriComponent(origin, p);
  }

  lemma LogoutTargetSplits(cfg: ClientConfig, origin: string, p: Platform)
    ensures var target := LogoutTarget(Some(cfg), origin, p);
      var prefix := RealmEndpoint(cfg, "logout") + "?";
      && StartsWith(target, prefix)
      && target[|prefix|..] == "redirect_uri" + "=" + EncodeUriComponent(origin, p)
  {
    var prefix := RealmEndpoint(cfg, "logout") + "?";
    var e := EncodeUriComponent(origin, p);
    var target := LogoutTarget(Some(cfg), origin, p);
    assert target == prefix + ("redirect_uri" + "=" + e);
    assert target[..|prefix|] == prefix;
  }

  lemma RedirectUriName()
    ensures '&' !in "redirect_uri" && '=' !in "redirect_uri"
    ensures FormDecode("redirect_uri") == "redirect_uri"
  {
    PlainDecode("redirect_uri");
  }

  /**
   * The browser state the service touches: the injected globals and build variables (read
   * only), the page origin, `sessionStorage`, and `window.location.href`.
   */
  class BrowserSession {
    const win: ConfigSource
    const env: ConfigSource
    const origin: string
    var storage: map<string, string>
    var href: string

    constructor (win: ConfigSource, env: ConfigSource, origin: string, storage: map<string, string>, href: string)
      ensures this.win == win && this.env == env && this.origin == origin
      ensures this.storage == storage && this.href == href
    {
      this.win := win;
      this.env := env;
      this.origin := origin;
      this.storage := storage;
      this.href := href;
    }

    function Config(): Option<ClientConfig>
    {
      GetConfig(win, env)
    }

    /** `getStoredAccessToken()`. */
    function GetStoredAccessToken(): Option<string>
      reads this
    {
      if AccessTokenKey in storage then Some(storage[AccessTokenKey]) else None
    }

    /** `storeAccessToken(token)`: a later `getStoredAccessToken()` returns the token. */
    method StoreAccessToken(token: string)
      modifies this
      ensures storage == old(storage)[AccessTokenKey := token] && href == old(href)
      ensures GetStoredAccessToken() == Some(token)
    {
      storage := storage[AccessTokenKey := token];
    }

    /** `clearStoredTokens()`: the three `removeItem` calls in turn. */
    method ClearStoredTokens()
      modifies this
      ensures storage == Cleared(old(storage)) && href == old(href)
      ensures GetStoredAccessToken() == None
    {
      storage := storage - {AccessTokenKey};
      storage := storage - {CodeVerifierKey};
      storage := storage - {StateKey};
    }

    /**
     * `redirectToKeycloakLogin()`: nothing without configuration; otherwise the verifier and
     * the state are stored and the browser is sent to the authorize URL carrying the
     * verifier's challenge. `random`, `sha256` and `uuid` stand for `crypto.getRandomValues`,
     * `crypto.subtle.digest` and `crypto.randomUUID`.
     */
    method RedirectToKeycloakLogin(random: seq<Byte>, sha256: string -> seq<Byte>, uuid: string, p: Platform)
      modifies this
      ensures Config().None? ==> storage == old(storage) && href == old(href)
      ensures Config().Some? ==>
        var verifier := GenerateCodeVerifier(random);
        && storage == old(storage)[CodeVerifierKey := verifier][StateKey := uuid]
        && href == BuildAuthorizeUrl(Config().value, GenerateCodeChallenge(verifier, sha256), uuid, origin, p)
    {
      var cfg := Config();
      if cfg.None? {
        return;
      }
      var verifier := GenerateCodeVerifier(random);
      var challenge := GenerateCodeChallenge(verifier, sha256);
      var state := uuid;
      storage := storage[CodeVerifierKey := verifier];
      storage := storage[StateKey := state];
      href := BuildAuthorizeUrl(cfg.value, challenge, state, origin, p);
    }

    /** `logoutFromKeycloak()`: the tokens are cleared first, whether or not Keycloak is configured. */
    method LogoutFromKeycloak(p: Platform)
      modifies this
      ensures storage == Cleared(old(storage))
      ensures href == LogoutTarget(Config(), origin, p)
    {
      var cfg := Config();
      ClearStoredTokens();
      if cfg.None? {
        href := "/";
        return;
      }
      var redirectUri := EncodeUriComponent(origin, p);
      href := RealmEndpoint(cfg.value, "logout") + "?" + "redirect_uri" + "=" + redirectUri;
    }
  }

  /** After a login redirect, the token request sends the verifier the redirect stored. */
  lemma ExchangeSendsStoredVerifier(cfg: ClientConfig, storage: map<string, string>, verifier: string, uuid: string,
                                    origin: string, code: string, p: Platform)
    requires IsAscii(cfg.clientId) && IsAscii(verifier) && IsAscii(origin) && IsAscii(code)
    ensures var sent := ParseQuery(TokenRequestFor(cfg, storage[CodeVerifierKey := verifier][StateKey := uuid], origin, code, p).body);
      |sent| == 5 && sent[4] == ("code_verifier", verifier)
  {
    var after := storage[CodeVerifierKey := verifier][StateKey := uuid];
    assert StoredVerifier(after) == verifier;
    TokenRequestCarriesVerifier(cfg, after, origin, code, p);
  }

  /** The authorize URL built by a login redirect carries the challenge and the state at fixed places. */
  lemma AuthorizeCarriesChallenge(cfg: ClientConfig, challenge: string, uuid: string, origin: string, p: Platform)
    requires IsAscii(cfg.clientId) && IsAscii(challenge) && IsAscii(uuid) && IsAscii(origin)
    ensures var authorize := BuildAuthorizeUrl(cfg, challenge, uuid, origin, p);
      var asked := ParseQuery(authorize[|RealmEndpoint(cfg, "auth") + "?"|..]);
      && |asked| == 7
      && asked[4] == ("code_challenge", challenge)
      && asked[6] == ("state", uuid)
  {
    AuthorizeUrlCarriesPkce(cfg, challenge, uuid, origin, p);
  }

  /**
   * The two halves of PKCE meet: after a login redirect with 32 random bytes, the token
   * request built from the same session storage sends the verifier whose S256 transform is
   * the challenge the authorize URL carried, the check of section 4.6 of RFC 7636.
   */
  lemma RedirectAndExchangeAgree(cfg: ClientConfig, storage: map<string, string>, random: seq<Byte>,
                                 sha256: string -> seq<Byte>, uuid: string, origin: string, code: string, p: Platform)
    requires |random| == 32
    requires IsAscii(cfg.clientId) && IsAscii(uuid) && IsAscii(origin) && IsAscii(code)
    requires |sha256(GenerateCodeVerifier(random))| == 32
    ensures var verifier := GenerateCodeVerifier(random);
      var after := storage[CodeVerifierKey := verifier][StateKey := uuid];
      var authorize := BuildAuthorizeUrl(cfg, GenerateCodeChallenge(verifier, sha256), uuid, origin, p);
      var sent := ParseQuery(TokenRequestFor(cfg, after, origin, code, p).body);
      var asked := ParseQuery(authorize[|RealmEndpoint(cfg, "auth") + "?"|..]);
      && |sent| == 5 && |asked| == 7
      && sent[4].0 == "code_verifier" && asked[4].0 == "code_challenge"
      && asked[4].1 == ToBase64Url(Btoa(sha256(sent[4].1)))
  {
    var verifier := GenerateCodeVerifier(random);
    CodeVerifierMeetsPkce(random);
    UrlDigitsAreAscii(verifier);
    ExchangeSendsStoredVerifier(cfg, storage, verifier, uuid, origin, code, p);
    CodeChallengeIsS256(verifier, sha256);
    AuthorizeCarriesChallenge(cfg, GenerateCodeChallenge(verifier, sha256), uuid, origin, p);
  }
}
