# Keycloak authentication in RedisInsight, modelled in Dafny

This project models the Keycloak (OpenID Connect) layer of RedisInsight, on both the server and the browser.

The server side has four parts:

- **Configuration.** The Keycloak settings are read from the environment (`keycloak.config.ts`).
- **Key cache and token validation.** The JWKS key cache keeps one generation of keys with a five-minute lifetime. Token validation resolves the signing key, then checks the algorithm, signature, expiry and issuer, and normalises the claims (`keycloak.service.ts`).
- **Authentication gate.** It takes a token from the Bearer header or the `access_token` cookie and attaches the validated claims to the request (`keycloak-jwt.middleware.ts`).
- **Authorisation gate.** It finds the database a request names, parses the database's `allowedGroups`/`allowedRoles` columns tolerantly, and lets the request through, refuses it, or faults (`keycloak-rbac.middleware.ts`).

The server also rewrites the HTML and JavaScript templates it serves (`subpath-proxy.middleware.ts`). It fills in the proxy sub-path and, when Keycloak is configured, the three client settings.

The browser side has three parts:

- **PKCE client** (`keycloakAuthService.ts`). It runs the authorization-code flow with PKCE (RFC 7636): the code verifier and its `S256` challenge, the authorize and token requests as `application/x-www-form-urlencoded` queries, and the `sessionStorage` keys. It also parses the JWT payload without checking it, and handles logout.
- **Authentication slice** (`slices/auth/keycloak.ts`).
- **Application initialisation** (`slices/app/init.ts`). It restores a signed-in user from a stored token that has not expired.

Modules, one per source file plus shared support:

| module | models |
|---|---|
| `KeycloakConfig` | `getKeycloakConfig` |
| `KeycloakService` | the JWKS cache as a class (`jwksCache`, `jwksCacheTimestamp`) with `RefreshJwksCache`, `GetSigningKey` and `ValidateToken`. Each is proved against a function on the cache state (`Refresh`, `Resolve`, `Validate`). |
| `KeycloakJwtMiddleware` | `extractToken` and `use`. The request is a class whose `keycloakClaims` field the gate writes. |
| `KeycloakRbacMiddleware` | `extractDatabaseId` (the regular expression, written out), `parseJsonArray`, and `use` |
| `KeycloakGates` | the two gates in the order `keycloak.module.ts` installs them |
| `SubpathProxy` | lodash `trim`, the global `String.prototype.replace` with its `$` patterns, and the patched `sendFile` |
| `KeycloakAuthService` | the browser service. `BrowserSession` holds `sessionStorage` and `location.href`. |
| `KeycloakAuthSlice` | the reducer as a function, and `AuthStore` as a class with one method per reducer |
| `AppInit` | the status reducers, the restore decision, and the `initializeAppAction` script as a method over the three stores |
| `TokenClaims` | the payload-to-identity normalisation, which the server and the browser share |
| `UrlEncoding` | the `URLSearchParams` serializer and parser, and `encodeURIComponent` |
| `Base64` | `btoa` and the base64url `replace` chains |
| `Text` | `split`/`join`, character replacement, and lodash `trim` |
| `JsonValues` | parsed values and JavaScript truthiness |
| `Runtime` | the library calls the core makes but does not implement |
| `Wrappers` | `Option` and `Result` |

These library calls are parameters, so every property holds for any implementation of them: `JSON.parse`, `atob`, Node's base64url decoder, `crypto.createPublicKey`, the `jsonwebtoken` decoder and signature check, UTF-8 percent-encoding, and JavaScript number conversion. The same goes for the network (the JWKS fetch, the token request, the database directory), the clocks (`Date.now()`) and the random sources (`getRandomValues`, `randomUUID`, SHA-256).

## Model

Paths are relative to the repository root.

| member | source | states |
|---|---|---|
| KeycloakConfig.GetKeycloakConfig | redisinsight/api/src/modules/auth/keycloak/keycloak.config.ts:16-34 | The configuration is null exactly when any of `KEYCLOAK_URL`, `KEYCLOAK_REALM` or `KEYCLOAK_CLIENT_ID` is unset or empty. Otherwise it carries the three values and the optional secret. The JWKS URL is the override when set, or else the realm's `certs` endpoint. |
| KeycloakConfig.DefaultJwksUnderIssuer | redisinsight/api/src/modules/auth/keycloak/keycloak.config.ts:23-25 | Without an override, the JWKS URL is the issuer that validation demands, followed by the certs path. |
| KeycloakConfig.Issuer | redisinsight/api/src/modules/auth/keycloak/keycloak.service.ts:53 | No contract of its own. `DefaultJwksUnderIssuer` ties it to the default JWKS URL and `ValidatedTokenPassedChecks` states that a validated token carries exactly this issuer. |
| KeycloakService.FirstThrow | redisinsight/api/src/modules/auth/keycloak/keycloak.service.ts:105-113 | The index where the refresh loop stops: no earlier entry throws, and the entry there does (it is `null`, or a supported record that `createPublicKey` rejects). |
| KeycloakService.Refresh | redisinsight/api/src/modules/auth/keycloak/keycloak.service.ts:98-115 | No contract of its own. `StoredKeys`, `StoredValues`, `FirstThrow`, `RefreshReplacesCache`, `FailedFetchKeepsCache`, `MalformedResponseEmptiesCache`, `NullRecordStopsRefresh` and `RefreshNeverMixesGenerations` state what a refresh stores, when it stops, and which timestamp it leaves. |
| KeycloakService.StoredKeys | redisinsight/api/src/modules/auth/keycloak/keycloak.service.ts:105-112 | The key ids a refresh stores are exactly the ids of the RSA records that have `n` and `e`. |
| KeycloakService.Stored | redisinsight/api/src/modules/auth/keycloak/keycloak.service.ts:105-112 | No contract of its own. `StoredKeys` and `StoredValues` state which ids the `set` loop stores and which record each key comes from. |
| KeycloakService.StoredValues | redisinsight/api/src/modules/auth/keycloak/keycloak.service.ts:105-112 | Each stored key is built from the last supported record with its id, because later `set` calls overwrite earlier ones. |
| KeycloakService.RefreshReplacesCache | redisinsight/api/src/modules/auth/keycloak/keycloak.service.ts:98-115 | A completed refresh replaces the whole cache with the response's supported records, evicting older entries, and stamps the refresh time. |
| KeycloakService.UnsupportedRecordSkipped | redisinsight/api/src/modules/auth/keycloak/keycloak.service.ts:106 | Inserting an unsupported record anywhere in a response leaves the stored key ids unchanged. |
| KeycloakService.UnsupportedRecordNeverAborts | redisinsight/api/src/modules/auth/keycloak/keycloak.service.ts:105-113 | An unsupported record that is not `null` never decides whether a refresh completes. |
| KeycloakService.FailedFetchKeepsCache | redisinsight/api/src/modules/auth/keycloak/keycloak.service.ts:100-104 | A failed fetch throws before `clear()`, so the map and the timestamp stay as they were. |
| KeycloakService.MalformedResponseEmptiesCache | redisinsight/api/src/modules/auth/keycloak/keycloak.service.ts:104-105 | A successful response whose body has no iterable `keys` throws right after `clear()`: the map is left empty with the old timestamp, so every lookup misses until the next refresh. |
| KeycloakService.NullRecordStopsRefresh | redisinsight/api/src/modules/auth/keycloak/keycloak.service.ts:105-106 | A `null` entry throws at `key.kty`: the supported records before it stay stored, nothing after it is read, and the timestamp is not renewed. |
| KeycloakService.RefreshNeverMixesGenerations | redisinsight/api/src/modules/auth/keycloak/keycloak.service.ts:98-115 | After any refresh, the cache is untouched, or every entry comes from the response just fetched, or (for a body that is not a JWK Set) the map is empty. Whenever the refresh does not complete, the old timestamp stays. |
| KeycloakService.MissingKidLooksUpEmpty | redisinsight/api/src/modules/auth/keycloak/keycloak.service.ts:77-78 | A header that cannot be decoded, or one without `kid`, is looked up under `''`. |
| KeycloakService.DecodeHeader | redisinsight/api/src/modules/auth/keycloak/keycloak.service.ts:118-125 | No contract of its own. The first `.`-separated segment is base64url-decoded and parsed, and a failure gives null. `MissingKidLooksUpEmpty` states how its null result is looked up. |
| KeycloakService.CacheKey | redisinsight/api/src/modules/auth/keycloak/keycloak.service.ts:77-78 | No contract of its own. `MissingKidLooksUpEmpty` states that a null header, or one without `kid`, gives `''`. |
| KeycloakService.IsHit | redisinsight/api/src/modules/auth/keycloak/keycloak.service.ts:82-85 | No contract of its own. `CacheHitSkipsRefresh` and `MissRefreshesOnce` state what a hit (a cached string kid within the TTL) and a miss lead to. |
| KeycloakService.Resolve | redisinsight/api/src/modules/auth/keycloak/keycloak.service.ts:76-96 | No contract of its own. `CacheHitSkipsRefresh`, `MissRefreshesOnce` and `ResolveAfterRefresh` state the hit, the single refresh on a miss, and the refused kid. |
| KeycloakService.CacheHitSkipsRefresh | redisinsight/api/src/modules/auth/keycloak/keycloak.service.ts:81-87 | A cached kid within the lifetime returns the cached key and leaves the cache alone, whatever the network would answer. |
| KeycloakService.MissRefreshesOnce | redisinsight/api/src/modules/auth/keycloak/keycloak.service.ts:89-95 | On a miss or a stale generation, exactly one refresh runs. The key is then the refreshed cache's entry, or `KeyNotFound`; a failed fetch, a body that is not a JWK Set, or an entry that throws gives its own error. |
| KeycloakService.ResolveAfterRefresh | redisinsight/api/src/modules/auth/keycloak/keycloak.service.ts:76-115 | After a completed refresh, every kid of the response is served from the cache for the whole lifetime. A kid missing from the response is refused. |
| KeycloakService.ValidatedTokenPassedChecks | redisinsight/api/src/modules/auth/keycloak/keycloak.service.ts:48-57 | A token validates only if its kid names a cached key, its algorithm is allowed, the signature checks, it has not expired, and its issuer is `${url}/realms/${realm}`. The claims are then those of its payload. |
| KeycloakService.Verify | redisinsight/api/src/modules/auth/keycloak/keycloak.service.ts:51-54 | No contract of its own. `ValidatedTokenPassedChecks`, `ExpiredTokenRejected` and `EllipticCurveTokensNeverValidate` state the algorithm, key-type, signature, expiry and issuer checks it makes. |
| KeycloakService.Validate | redisinsight/api/src/modules/auth/keycloak/keycloak.service.ts:48-57 | No contract of its own. `ValidatedTokenPassedChecks`, `SubjectNotRequired` and `RevalidationIsStable` state when a token validates, which claims it yields, and that revalidation is stable. |
| KeycloakService.ExpiredTokenRejected | redisinsight/api/src/modules/auth/keycloak/keycloak.service.ts:51-54 | A token past `exp` is refused whatever its signature. |
| KeycloakService.EllipticCurveTokensNeverValidate | redisinsight/api/src/modules/auth/keycloak/keycloak.service.ts:52 | The ES algorithms are on the allow-list, but every cached key is RSA, so an ES-signed token never validates. |
| KeycloakService.SubjectNotRequired | redisinsight/api/src/modules/auth/keycloak/keycloak.service.ts:59-73 | A token without `sub` still validates, and its claims have no subject. |
| KeycloakService.RevalidationIsStable | redisinsight/api/src/modules/auth/keycloak/keycloak.service.ts:48-96 | Revalidating a validated token gives the same claims and the same cache, without a fetch. This holds within the lifetime of the cache the first validation left, at any later instant at which the token's numeric `exp`, if it has one, has not passed. |
| KeycloakService.KeycloakService.RefreshJwksCache | redisinsight/api/src/modules/auth/keycloak/keycloak.service.ts:98-115 | The loop over the records leaves the outcome and cache state that `Refresh` gives. |
| KeycloakService.KeycloakService.GetSigningKey | redisinsight/api/src/modules/auth/keycloak/keycloak.service.ts:76-96 | The key and cache state are those `Resolve` gives for the header's kid. |
| KeycloakService.KeycloakService.ValidateToken | redisinsight/api/src/modules/auth/keycloak/keycloak.service.ts:48-57 | The claims and cache state are those `Validate` gives. |
| TokenClaims.ClaimsOfPayloadOf | redisinsight/api/src/modules/auth/keycloak/keycloak.service.ts:59-73 | Normalising the payload issued for an identity gives that identity back. |
| TokenClaims.ClaimsDefaults | redisinsight/ui/src/slices/app/init.ts:101-115 | Missing or non-array groups become `[]`, and a missing `realm_access` gives `roles = []`. Roles are a non-array only when `realm_access.roles` itself is a non-null non-array. |
| TokenClaims.ClaimsOf | redisinsight/api/src/modules/auth/keycloak/keycloak.service.ts:59-73 | No contract of its own. `ClaimsOfPayloadOf` and `ClaimsDefaults` state that it inverts the payload built from an identity, and its `[]` defaults. |
| KeycloakJwtMiddleware.ExtractToken | redisinsight/api/src/modules/auth/keycloak/keycloak-jwt.middleware.ts:39-46 | No contract of its own. `BearerRoundTrip`, `CookieOnlyWithoutBearer` and `EmptyBearerRejected` state the rule: the `Bearer ` header first, the `access_token` cookie otherwise. |
| KeycloakJwtMiddleware.BearerRoundTrip | redisinsight/api/src/modules/auth/keycloak/keycloak-jwt.middleware.ts:41-42 | `Bearer ` + t gives back t, whatever the cookies hold. |
| KeycloakJwtMiddleware.CookieOnlyWithoutBearer | redisinsight/api/src/modules/auth/keycloak/keycloak-jwt.middleware.ts:41-45 | A header without the exact `Bearer ` prefix falls back to the cookie. |
| KeycloakJwtMiddleware.NoTokenNoValidation | redisinsight/api/src/modules/auth/keycloak/keycloak-jwt.middleware.ts:19-23 | With no usable token the gate answers 401 `Missing Bearer token` and the cache is untouched. |
| KeycloakJwtMiddleware.EmptyBearerRejected | redisinsight/api/src/modules/auth/keycloak/keycloak-jwt.middleware.ts:19-23 | A header of exactly `Bearer ` gives the empty token, which is refused without looking at the cookie. |
| KeycloakJwtMiddleware.ProceedIffValidated | redisinsight/api/src/modules/auth/keycloak/keycloak-jwt.middleware.ts:18-36 | The gate proceeds exactly when validation succeeds, and then attaches those claims. Every validation failure reads `Invalid or expired token`. |
| KeycloakJwtMiddleware.Gate | redisinsight/api/src/modules/auth/keycloak/keycloak-jwt.middleware.ts:18-36 | No contract of its own. `NoTokenNoValidation`, `EmptyBearerRejected` and `ProceedIffValidated` state the missing-token 401, the invalid-token 401 and the attached claims. |
| KeycloakJwtMiddleware.Use | redisinsight/api/src/modules/auth/keycloak/keycloak-jwt.middleware.ts:18-36 | The outcome, the request's claims and the cache are those `Gate` gives. |
| KeycloakRbacMiddleware.ExtractDatabaseId | redisinsight/api/src/modules/auth/keycloak/keycloak-rbac.middleware.ts:92-98 | The result is the capture of the leftmost `/databases/<id>` match in the path, or failing that in the URL. A result is always one or more `[a-zA-Z0-9-]` characters. |
| KeycloakRbacMiddleware.ExecId | redisinsight/api/src/modules/auth/keycloak/keycloak-rbac.middleware.ts:95-96 | No result exactly when `/databases/` followed by an id character occurs nowhere. A result is one or more `[a-zA-Z0-9-]` characters. `ExecIdOfRoute` states which id is captured. |
| KeycloakRbacMiddleware.ExecIdOfRoute | redisinsight/api/src/modules/auth/keycloak/keycloak-rbac.middleware.ts:94-97 | In a route built as `u/databases/<id>rest`, with no earlier match and a `rest` that does not continue the id, the id found is `<id>`. |
| KeycloakRbacMiddleware.ApiRouteNamesDatabase | redisinsight/api/src/modules/auth/keycloak/keycloak-rbac.middleware.ts:92-98 | A path under `/api/databases/<id>` names that database, whatever the URL says. |
| KeycloakRbacMiddleware.ParseJsonArrayTolerant | redisinsight/api/src/modules/auth/keycloak/keycloak-rbac.middleware.ts:53-64 | A non-empty result is the raw array or the array its text parses to. Every other input gives `[]`. |
| KeycloakRbacMiddleware.ParseJsonArray | redisinsight/api/src/modules/auth/keycloak/keycloak-rbac.middleware.ts:53-64 | No contract of its own. `ParseJsonArrayTolerant` states that arrays pass through, array-valued JSON text is parsed, and everything else gives `[]`. |
| KeycloakRbacMiddleware.Decide | redisinsight/api/src/modules/auth/keycloak/keycloak-rbac.middleware.ts:69-88 | No contract of its own. `DecideIff` and `AdminAllowedViewerRefused` state when it allows, refuses or faults. |
| KeycloakRbacMiddleware.DecideIff | redisinsight/api/src/modules/auth/keycloak/keycloak-rbac.middleware.ts:69-88 | Access is granted exactly when the database is unrestricted or the groups or roles intersect. It is denied exactly when the database is restricted and nothing overlaps. A non-array roles claim with no group overlap faults. |
| KeycloakRbacMiddleware.QueriedOnlyWhenScoped | redisinsight/api/src/modules/auth/keycloak/keycloak-rbac.middleware.ts:29-45 | The directory is queried exactly when an authenticated request names a database, and then only for that database. |
| KeycloakRbacMiddleware.ForbiddenIffRestrictedWithoutOverlap | redisinsight/api/src/modules/auth/keycloak/keycloak-rbac.middleware.ts:23-89 | A request is refused exactly when it is authenticated, names an existing restricted database, and shares no group or role with it. |
| KeycloakRbacMiddleware.NextIffPermitted | redisinsight/api/src/modules/auth/keycloak/keycloak-rbac.middleware.ts:23-89 | `next()` runs exactly when the request is unauthenticated or unscoped, the database is unknown or unrestricted, or the caller overlaps the lists. A failing directory never lets the request through. |
| KeycloakRbacMiddleware.AdminAllowedViewerRefused | redisinsight/api/src/modules/auth/keycloak/keycloak-rbac.middleware.ts:66-86 | For a database restricted to role `admin`, an `admin` caller passes and a `viewer` is refused. |
| KeycloakRbacMiddleware.Use | redisinsight/api/src/modules/auth/keycloak/keycloak-rbac.middleware.ts:23-89 | No contract of its own. `QueriedOnlyWhenScoped`, `ForbiddenIffRestrictedWithoutOverlap` and `NextIffPermitted` state when the directory is queried, when 403 is thrown and when `next()` runs. |
| KeycloakGates.UnconfiguredInstallsNothing | redisinsight/api/src/modules/auth/keycloak/keycloak.module.ts:47-52 | Without configuration, every request reaches its handler untouched. |
| KeycloakGates.NoTokenStopsAtTheFirstGate | redisinsight/api/src/modules/auth/keycloak/keycloak.module.ts:54-55 | A request without a token gets a 401 before any key fetch or directory query. |
| KeycloakGates.HandlerReachedIffAuthenticatedAndAuthorised | redisinsight/api/src/modules/auth/keycloak/keycloak.module.ts:47-56 | A request reaches its handler exactly when its token validates and the database it names, if any, is unknown, unrestricted or overlapping. |
| KeycloakGates.HandleRequest | redisinsight/api/src/modules/auth/keycloak/keycloak.module.ts:54-55 | Running the two gates in turn on a request gives the response, the query and the cache state of `Pipeline`. A 401 leaves the request's claims alone; otherwise they are the claims the authentication gate attached. |
| KeycloakGates.Pipeline | redisinsight/api/src/modules/auth/keycloak/keycloak.module.ts:47-56 | No contract of its own. `UnconfiguredInstallsNothing`, `NoTokenStopsAtTheFirstGate` and `HandlerReachedIffAuthenticatedAndAuthorised` state when the handler is reached. |
| SubpathProxy.ProxyPath | redisinsight/api/src/middleware/subpath-proxy.middleware.ts:11 | The trimmed proxy path neither starts nor ends with `/`, and is empty when the variable is unset. |
| SubpathProxy.ProxyPathOfVariable | redisinsight/api/src/middleware/subpath-proxy.middleware.ts:11 | A path written with any number of slashes around it gives the bare path. |
| SubpathProxy.ProxyReplacementShape | redisinsight/api/src/middleware/subpath-proxy.middleware.ts:24 | The replacement is empty, or one `/` followed by a non-slash end. |
| SubpathProxy.ProxyReplacement | redisinsight/api/src/middleware/subpath-proxy.middleware.ts:24 | No contract of its own. `ProxyReplacementShape` states that it is empty or `/` followed by a non-slash end, and `ProxyPlaceholderRewritten` that it is what the placeholder becomes. |
| SubpathProxy.MatchAt | redisinsight/api/src/middleware/subpath-proxy.middleware.ts:21 | A match is at least as long as the literal and fits the text. Without the optional prefix it is exactly the literal. `ProxyMatchAtFront` states the greedy `/?`: a slash in front is consumed with the placeholder. |
| SubpathProxy.Expand | redisinsight/api/src/middleware/subpath-proxy.middleware.ts:24-30 | No contract of its own. `ExpandLiteral` states that a `$`-free replacement stands for itself, and `MatchedTextReplacement` that `$&` stands for the match. |
| SubpathProxy.MatchedTextReplacement | redisinsight/api/src/middleware/subpath-proxy.middleware.ts:28 | With `$&` as the replacement, a placeholder standing alone is put back as it was. |
| SubpathProxy.ExpandLiteral | redisinsight/api/src/middleware/subpath-proxy.middleware.ts:24-30 | A replacement without `$` stands for itself at every match. |
| SubpathProxy.ReplaceAllNoMatch | redisinsight/api/src/middleware/subpath-proxy.middleware.ts:24-30 | Global replace leaves text without a match unchanged. |
| SubpathProxy.ReplaceAllSplits | redisinsight/api/src/middleware/subpath-proxy.middleware.ts:24-30 | Global replace copies a prefix with no match and carries on behind it. |
| SubpathProxy.ReplaceAllFrontMatch | redisinsight/api/src/middleware/subpath-proxy.middleware.ts:24-30 | A match at the front becomes the replacement, and replacing resumes behind it. |
| SubpathProxy.ReplaceAll | redisinsight/api/src/middleware/subpath-proxy.middleware.ts:24-30 | No contract of its own. `ReplaceAllNoMatch`, `ReplaceAllSplits`, `ReplaceAllFrontMatch`, `ReplaceAbsent` and `ReplaceWhole` state how the global replace copies and replaces. |
| SubpathProxy.ReplaceAbsent | redisinsight/api/src/middleware/subpath-proxy.middleware.ts:28-30 | Replacing a placeholder that does not occur leaves the text as it is. |
| SubpathProxy.ReplaceWhole | redisinsight/api/src/middleware/subpath-proxy.middleware.ts:28-30 | A placeholder standing alone becomes a `$`-free replacement. |
| SubpathProxy.RewriteWithoutKeycloak | redisinsight/api/src/middleware/subpath-proxy.middleware.ts:20-31 | Without configuration, text without a proxy placeholder goes out as read. Where the proxied text holds none of the three Keycloak placeholders, a configuration changes nothing. |
| SubpathProxy.Rewrite | redisinsight/api/src/middleware/subpath-proxy.middleware.ts:20-31 | No contract of its own. `RewriteWithoutKeycloak`, `KeycloakPlaceholdersKeptWithoutConfig`, `KeycloakSettingsInjected`, `ProxyPlaceholderRewritten` and `DollarInProxyPathExpanded` state what the rewrite does to each placeholder. |
| SubpathProxy.KeycloakPlaceholdersKeptWithoutConfig | redisinsight/api/src/middleware/subpath-proxy.middleware.ts:27-31 | Without a configuration, `__RI_KEYCLOAK_URL__`, `__RI_KEYCLOAK_REALM__` and `__RI_KEYCLOAK_CLIENT_ID__` are sent unchanged. |
| SubpathProxy.KeycloakUrlInjected | redisinsight/api/src/middleware/subpath-proxy.middleware.ts:27-28 | With a configuration, `__RI_KEYCLOAK_URL__` becomes the URL, when the URL holds no `$` and neither later placeholder. |
| SubpathProxy.KeycloakRealmInjected | redisinsight/api/src/middleware/subpath-proxy.middleware.ts:27-29 | With a configuration, `__RI_KEYCLOAK_REALM__` becomes the realm, when the realm holds no `$` and no client-id placeholder. |
| SubpathProxy.KeycloakClientIdInjected | redisinsight/api/src/middleware/subpath-proxy.middleware.ts:27-30 | With a configuration, `__RI_KEYCLOAK_CLIENT_ID__` becomes the client id, when it holds no `$`. |
| SubpathProxy.KeycloakSettingsInjected | redisinsight/api/src/middleware/subpath-proxy.middleware.ts:27-31 | With a configuration whose values hold no `$` and no later placeholder, each of the three placeholders becomes its setting. |
| SubpathProxy.DollarPatternInSettingExpanded | redisinsight/api/src/middleware/subpath-proxy.middleware.ts:27-28 | A URL written `$&` is expanded as a replacement pattern, so the page receives `__RI_KEYCLOAK_URL__` back instead of the URL. |
| SubpathProxy.ProxyMatchAtFront | redisinsight/api/src/middleware/subpath-proxy.middleware.ts:21 | `/?__RIPROXYPATH__` matches the placeholder with or without one leading slash, but not after `//`. |
| SubpathProxy.PlaceholderReplaced | redisinsight/api/src/middleware/subpath-proxy.middleware.ts:21-24 | `__RIPROXYPATH__` and `/__RIPROXYPATH__` both become the replacement. |
| SubpathProxy.SecondSlashKept | redisinsight/api/src/middleware/subpath-proxy.middleware.ts:21-24 | In `//__RIPROXYPATH__` the first slash stays. |
| SubpathProxy.ProxyPlaceholderRewritten | redisinsight/api/src/middleware/subpath-proxy.middleware.ts:11-24 | For an `RI_PROXY_PATH` without `$`, the rewrite turns `__RIPROXYPATH__` and `/__RIPROXYPATH__` into `/path` (nothing when the variable is unset) and carries on behind them; of `//__RIPROXYPATH__` one slash stays. |
| SubpathProxy.DollarInProxyPathExpanded | redisinsight/api/src/middleware/subpath-proxy.middleware.ts:11-24 | With `RI_PROXY_PATH=$&` the replacement `/$&` is expanded: the placeholder comes back behind a slash instead of becoming `/$&`. |
| SubpathProxy.OnlyTemplatesRewritten | redisinsight/api/src/middleware/subpath-proxy.middleware.ts:19-36 | `.html`/`.js` files are sent rewritten, or the call throws when the file cannot be read; neither reaches the framework, so the callback is never called. Every other file goes to the replaced `sendFile` unchanged. |
| SubpathProxy.IsTemplate | redisinsight/api/src/middleware/subpath-proxy.middleware.ts:19 | No contract of its own. `OnlyTemplatesRewritten` states that exactly the paths ending in `.html` or `.js` are read and rewritten. |
| SubpathProxy.CallSendFile | redisinsight/api/src/middleware/subpath-proxy.middleware.ts:13-37 | No contract of its own. `OnlyTemplatesRewritten` states that templates are sent rewritten or make the call throw when unreadable, and every other file goes to the replaced `sendFile`. |
| SubpathProxy.Use | redisinsight/api/src/middleware/subpath-proxy.middleware.ts:9-40 | `sendFile` is replaced by the patched function over the old one, and `next()` is called once. |
| Text.TrimPadded | redisinsight/api/src/middleware/subpath-proxy.middleware.ts:11 | Trimming a run of `c` on each side of a text without `c` at its ends gives back that text. |
| Text.Trim | redisinsight/api/src/middleware/subpath-proxy.middleware.ts:11 | The result neither starts nor ends with `c`. `TrimPadded` states that only the runs of `c` at the ends are removed. |
| Text.Split | redisinsight/ui/src/services/keycloakAuthService.ts:126 | There is at least one piece, and no piece holds the separator. `JoinSplit` and `SplitJoin` state the round trips with `join`. |
| Text.JoinSplit | redisinsight/ui/src/services/keycloakAuthService.ts:126 | Joining the pieces of a split gives back the string. |
| Text.SplitJoin | redisinsight/ui/src/services/keycloakAuthService.ts:126 | Splitting a join of separator-free pieces gives back the pieces. |
| KeycloakAuthService.GetConfig | redisinsight/ui/src/services/keycloakAuthService.ts:15-27 | The config is null exactly when some setting is missing or empty in both the injected globals and the build variables. Each value is non-empty. |
| KeycloakAuthService.InjectedSettingsWin | redisinsight/ui/src/services/keycloakAuthService.ts:17-20 | A non-empty injected global takes precedence over the build variable. |
| KeycloakAuthService.IsKeycloakEnabled | redisinsight/ui/src/services/keycloakAuthService.ts:29 | No contract of its own. It holds exactly when `GetConfig` gives a config, so `GetConfig`'s contract states when it holds. |
| UrlEncoding.FormEncode | redisinsight/ui/src/services/keycloakAuthService.ts:37-45 | The `URLSearchParams` serializer never leaves `&`, `=` or `#` in an encoded ASCII value. |
| UrlEncoding.FormDecodeEncode | redisinsight/ui/src/services/keycloakAuthService.ts:37-45 | Form-decoding the serializer's output gives back an ASCII value. |
| UrlEncoding.QueryRoundTrip | redisinsight/ui/src/services/keycloakAuthService.ts:37-46 | Parsing a serialized non-empty list of ASCII pairs gives back the list in order. |
| UrlEncoding.Query | redisinsight/ui/src/services/keycloakAuthService.ts:46 | No contract of its own. `QueryRoundTrip` states that parsing `URLSearchParams.toString()` of ASCII pairs gives them back in order. |
| UrlEncoding.EncodeUriComponent | redisinsight/ui/src/services/keycloakAuthService.ts:154 | `encodeURIComponent` never leaves `&`, `=` or `#` in an ASCII value. |
| UrlEncoding.FormDecodeUriComponent | redisinsight/ui/src/services/keycloakAuthService.ts:154-155 | Form-decoding the `encodeURIComponent` of an ASCII value gives it back. |
| KeycloakAuthService.AuthorizeUrlCarriesPkce | redisinsight/ui/src/services/keycloakAuthService.ts:31-47 | The URL is the realm's `auth` endpoint, then `?`, then a query that reads back as exactly the seven parameters in order. These are the code-flow request of section 4.3 of RFC 7636. |
| KeycloakAuthService.BuildAuthorizeUrl | redisinsight/ui/src/services/keycloakAuthService.ts:31-47 | No contract of its own. `AuthorizeUrlCarriesPkce` and `AuthorizeCarriesChallenge` state the endpoint and the seven query parameters. |
| Base64.OctetsOfSextets | redisinsight/ui/src/services/keycloakAuthService.ts:52 | Decoding the six-bit groups of a byte string gives back the bytes (section 4 of RFC 4648). |
| Base64.ToBase64UrlOfBtoa | redisinsight/ui/src/services/keycloakAuthService.ts:52-55 | The replace chain turns `btoa` output into the unpadded URL-safe encoding (section 5 of RFC 4648). |
| Base64.FromBase64UrlOfEncoded | redisinsight/ui/src/services/keycloakAuthService.ts:127 | The reverse chain turns URL-safe digits back into standard ones. |
| Base64.ToFromBase64Url | redisinsight/ui/src/services/keycloakAuthService.ts:53-55 | A URL-safe text survives the reverse chain followed by the forward one. |
| Base64.FromToBase64Url | redisinsight/ui/src/services/keycloakAuthService.ts:127 | On standard base 64, the forward chain followed by the reverse one loses only the `=` padding. |
| Base64.Btoa | redisinsight/ui/src/services/keycloakAuthService.ts:52 | The length is a multiple of four. `ToBase64UrlOfBtoa` states what the encoding is. |
| Base64.ToBase64Url | redisinsight/ui/src/services/keycloakAuthService.ts:53-55 | No `+`, `/` or `=` is left. `ToBase64UrlOfBtoa` and `ToFromBase64Url` state the round trips. |
| Base64.FromBase64Url | redisinsight/ui/src/services/keycloakAuthService.ts:127 | No `-` or `_` is left. `FromBase64UrlOfEncoded` and `FromToBase64Url` state the round trips. |
| KeycloakAuthService.CodeVerifierMeetsPkce | redisinsight/ui/src/services/keycloakAuthService.ts:49-56 | 32 random bytes give a 43-character verifier of unreserved characters (section 4.1 of RFC 7636). |
| KeycloakAuthService.CodeChallengeIsS256 | redisinsight/ui/src/services/keycloakAuthService.ts:58-66 | The challenge is BASE64URL(SHA256(verifier)), the `S256` method of section 4.2 of RFC 7636. It is 43 ASCII characters and decodes back to the digest. |
| KeycloakAuthService.GenerateCodeVerifier | redisinsight/ui/src/services/keycloakAuthService.ts:49-56 | No contract of its own. `CodeVerifierMeetsPkce` states its length and alphabet. |
| KeycloakAuthService.GenerateCodeChallenge | redisinsight/ui/src/services/keycloakAuthService.ts:58-66 | No contract of its own. `CodeChallengeIsS256` states that it is BASE64URL of the digest. |
| KeycloakAuthService.NoPayloadSegment | redisinsight/ui/src/services/keycloakAuthService.ts:125-128 | A token without `.` makes `parseJwtPayload` throw. |
| KeycloakAuthService.ParseIssuedToken | redisinsight/ui/src/services/keycloakAuthService.ts:125-128 | For `header.payload.signature` with a base64url payload, `atob` receives exactly the payload's standard encoding. |
| KeycloakAuthService.ParseJwtPayload | redisinsight/ui/src/services/keycloakAuthService.ts:125-128 | No contract of its own. `NoPayloadSegment` and `ParseIssuedToken` state when it throws and what `atob` receives. |
| KeycloakAuthService.Cleared | redisinsight/ui/src/services/keycloakAuthService.ts:138-142 | The three `kc_` keys are gone and every other entry is kept. |
| KeycloakAuthService.TokenRequestCarriesVerifier | redisinsight/ui/src/services/keycloakAuthService.ts:91-115 | The request goes to the `token` endpoint, and its body reads back as the five parameters of section 4.5 of RFC 7636. It carries the stored verifier, or `''` when none is stored. |
| KeycloakAuthService.TokenRequestFor | redisinsight/ui/src/services/keycloakAuthService.ts:97-115 | No contract of its own. `TokenRequestCarriesVerifier` states its endpoint and the five parameters its body reads back as. |
| KeycloakAuthService.StoredVerifier | redisinsight/ui/src/services/keycloakAuthService.ts:97 | No contract of its own. `TokenRequestCarriesVerifier` states that the request carries the stored verifier or `''`, and `ExchangeSendsStoredVerifier` that it is the one the redirect stored. |
| KeycloakAuthService.ExchangeOutcome | redisinsight/ui/src/services/keycloakAuthService.ts:91-122 | Without a config the exchange throws `Keycloak is not configured`. Otherwise it succeeds exactly when the response is ok and its body is JSON. |
| KeycloakAuthService.RefusedExchangeReportsStatus | redisinsight/ui/src/services/keycloakAuthService.ts:117-119 | A response that is not ok throws `Token exchange failed: ` followed by its status text. |
| KeycloakAuthService.ExchangeCodeForTokens | redisinsight/ui/src/services/keycloakAuthService.ts:91-122 | No contract of its own. `ExchangeOutcome`, `RefusedExchangeReportsStatus` and `TokenRequestCarriesVerifier` state its errors, its success and the request it sends. |
| KeycloakAuthService.LogoutReturnsToOrigin | redisinsight/ui/src/services/keycloakAuthService.ts:154-155 | The logout URL is the realm's `logout` endpoint with one parameter, which reads back as the page origin. |
| KeycloakAuthService.LogoutTarget | redisinsight/ui/src/services/keycloakAuthService.ts:149-155 | No contract of its own. `LogoutReturnsToOrigin` states the endpoint and the one `redirect_uri` parameter, and `BrowserSession.LogoutFromKeycloak` the `/` case. |
| KeycloakAuthService.ExchangeSendsStoredVerifier | redisinsight/ui/src/services/keycloakAuthService.ts:97-106 | After a redirect stores a verifier, the token request sends that verifier. |
| KeycloakAuthService.AuthorizeCarriesChallenge | redisinsight/ui/src/services/keycloakAuthService.ts:37-45 | The authorize query carries the challenge fifth and the state seventh. |
| KeycloakAuthService.RedirectAndExchangeAgree | redisinsight/ui/src/services/keycloakAuthService.ts:69-106 | After a login redirect, the verifier the token request sends transforms under `S256` into the challenge the authorize URL carried. This is the check of section 4.6 of RFC 7636. |
| KeycloakAuthService.BrowserSession.StoreAccessToken | redisinsight/ui/src/services/keycloakAuthService.ts:131-136 | A later `getStoredAccessToken()` returns the stored token. Only that key changes. |
| KeycloakAuthService.BrowserSession.GetStoredAccessToken | redisinsight/ui/src/services/keycloakAuthService.ts:135-136 | No contract of its own. `StoreAccessToken` and `ClearStoredTokens` state what it returns after each. |
| KeycloakAuthService.BrowserSession.ClearStoredTokens | redisinsight/ui/src/services/keycloakAuthService.ts:138-142 | Storage becomes `Cleared` of the old storage, and no access token is left. |
| KeycloakAuthService.BrowserSession.RedirectToKeycloakLogin | redisinsight/ui/src/services/keycloakAuthService.ts:69-81 | Without a config nothing changes. Otherwise the verifier and state are stored and `href` is the authorize URL carrying the verifier's challenge. |
| KeycloakAuthService.BrowserSession.LogoutFromKeycloak | redisinsight/ui/src/services/keycloakAuthService.ts:145-156 | The tokens are cleared whether or not there is a config, and `href` is `/` or the logout URL. |
| KeycloakAuthSlice.Reduce | redisinsight/ui/src/slices/auth/keycloak.ts:31-56 | Every reducer keeps `isAuthenticated ⇔ user ≠ null`. |
| KeycloakAuthSlice.ConsistentAfterAnyActions | redisinsight/ui/src/slices/auth/keycloak.ts:20-51 | Any sequence of actions from a consistent state, including `initialState`, keeps it consistent. |
| KeycloakAuthSlice.AuthenticatedIffUser | redisinsight/ui/src/slices/auth/keycloak.ts:20-51 | From `initialState`, the slice is authenticated exactly when it holds a user. |
| KeycloakAuthSlice.ReducerFrames | redisinsight/ui/src/slices/auth/keycloak.ts:32-55 | Only `setKeycloakEnabled` changes `isEnabled`. Only the authenticated and unauthenticated reducers change `isAuthenticated`/`user`. Only the authenticated and error reducers change `error`. The last three reducers leave the slice idle. |
| KeycloakAuthSlice.AuthenticatedClearsError | redisinsight/ui/src/slices/auth/keycloak.ts:38-46 | Signing in sets the user, clears the error and keeps `isEnabled`. |
| KeycloakAuthSlice.FieldsFollowLastAction | redisinsight/ui/src/slices/auth/keycloak.ts:32-51 | `isEnabled` is the last `setKeycloakEnabled` payload, and `user` is what the last sign-in or sign-out left. Each keeps its old value when there is no such action. |
| KeycloakAuthSlice.Select | redisinsight/ui/src/slices/auth/keycloak.ts:67-68 | No contract of its own. `SelectConsistent` states that the selected state is consistent. |
| KeycloakAuthSlice.SelectConsistent | redisinsight/ui/src/slices/auth/keycloak.ts:67-68 | The selector yields a consistent state (`isAuthenticated` exactly when a user is held) whenever the stored slice, if any, is consistent; the fallback `initialState` is consistent. |
| KeycloakAuthSlice.AuthStore.constructor | redisinsight/ui/src/slices/auth/keycloak.ts:20-26 | The store starts in `initialState`. |
| KeycloakAuthSlice.AuthStore.Dispatch | redisinsight/ui/src/slices/auth/keycloak.ts:28-70 | The fields after an action are `Reduce` of the fields before. |
| KeycloakAuthSlice.AuthStore.SetKeycloakEnabled | redisinsight/ui/src/slices/auth/keycloak.ts:32-34 | The one assignment gives `Reduce` of the old state. |
| KeycloakAuthSlice.AuthStore.SetKeycloakLoading | redisinsight/ui/src/slices/auth/keycloak.ts:35-37 | The one assignment gives `Reduce` of the old state. |
| KeycloakAuthSlice.AuthStore.SetKeycloakAuthenticated | redisinsight/ui/src/slices/auth/keycloak.ts:38-46 | The four assignments give `Reduce` of the old state. |
| KeycloakAuthSlice.AuthStore.SetKeycloakUnauthenticated | redisinsight/ui/src/slices/auth/keycloak.ts:47-51 | The three assignments give `Reduce` of the old state. |
| KeycloakAuthSlice.AuthStore.SetKeycloakError | redisinsight/ui/src/slices/auth/keycloak.ts:52-55 | The two assignments give `Reduce` of the old state. |
| AppInit.StatusReducers | redisinsight/ui/src/slices/app/init.ts:45-63 | `initializeAppState` moves to loading. Success keeps the recorded error. Failure records the new error. |
| AppInit.ReduceInit | redisinsight/ui/src/slices/app/init.ts:44-63 | No contract of its own. `StatusReducers` states each reducer's effect. |
| AppInit.AppInitStore.constructor | redisinsight/ui/src/slices/app/init.ts:34-39 | The status starts `initial`, with no error. |
| AppInit.AppInitStore.InitializeAppState | redisinsight/ui/src/slices/app/init.ts:45-47 | The one assignment gives `ReduceInit` of the old state. |
| AppInit.AppInitStore.InitializeAppStateSuccess | redisinsight/ui/src/slices/app/init.ts:48-50 | The one assignment gives `ReduceInit` of the old state. |
| AppInit.AppInitStore.InitializeAppStateFail | redisinsight/ui/src/slices/app/init.ts:51-63 | The two assignments give `ReduceInit` of the old state. |
| AppInit.RestoreOnlyWhenEnabledAndStored | redisinsight/ui/src/slices/app/init.ts:94-96 | Restoring is attempted exactly when Keycloak is enabled and a non-empty token is stored. |
| AppInit.Restore | redisinsight/ui/src/slices/app/init.ts:94-124 | No contract of its own. `RestoreOnlyWhenEnabledAndStored`, `AuthenticatedIffLive` and `ParseFailureClears` state when it restores, whom it signs in, and when it clears. |
| AppInit.Live | redisinsight/ui/src/slices/app/init.ts:99-100 | No contract of its own. `NumericExpiry` and `LiveOnlyOnObjects` state the numeric case and the absent `exp`. |
| AppInit.ExpNumber | redisinsight/ui/src/slices/app/init.ts:100 | No contract of its own. `NumericExpiry` states that a numeric `exp` is taken as it is; other values go through JavaScript's `Number` conversion, an oracle. |
| AppInit.AuthenticatedIffLive | redisinsight/ui/src/slices/app/init.ts:97-122 | The user is signed in exactly when the payload parses and `exp && exp * 1000 > now` holds, and then with the payload's normalised claims. Otherwise the tokens are cleared. |
| AppInit.NumericExpiry | redisinsight/ui/src/slices/app/init.ts:99-100 | For a numeric `exp` and a clock past the epoch, the token is live exactly when `exp * 1000 > now`. A missing `exp` is never live. |
| AppInit.ParseFailureClears | redisinsight/ui/src/slices/app/init.ts:120-122 | A payload that does not parse clears the tokens. |
| AppInit.InitActionsShape | redisinsight/ui/src/slices/app/init.ts:90-155 | The actions begin with `initializeAppState` then `setKeycloakEnabled`, and end with exactly one success or fail carrying the message or `''`. Only a restored user adds an action in between. |
| AppInit.InitActions | redisinsight/ui/src/slices/app/init.ts:88-157 | No contract of its own. `InitActionsShape` and `SliceActions` state the order and the projection onto each slice. |
| AppInit.SliceActions | redisinsight/ui/src/slices/app/init.ts:90-155 | These are the actions that reach each slice, in order. |
| AppInit.FinalStates | redisinsight/ui/src/slices/app/init.ts:84-158 | From the initial states, `isEnabled` is as configured, the slice is signed in exactly when restore authenticated, and the status is success exactly when the later requests completed. Otherwise it is fail with their message. |
| AppInit.FailMessage | redisinsight/ui/src/slices/app/init.ts:154 | No contract of its own. `FinalStates` states that a failed script leaves this message as the status error. |
| AppInit.ParseFailureDoesNotAbort | redisinsight/ui/src/slices/app/init.ts:97-122 | An unparseable stored token is cleared, and initialisation still ends in success. |
| AppInit.InitializeAppAction | redisinsight/ui/src/slices/app/init.ts:84-158 | The dispatched actions are `InitActions`, and both slices hold the states of those actions. Storage is `Cleared` exactly when restore decided to clear, and the callback matches the ending. |

## Left out

- Cryptography stays outside the model. RSA/ECDSA signature checking, `createPublicKey`, SHA-256 and the random sources are parameters. Properties hold for every implementation of them.
- Only the result of each network exchange is modelled: the JWKS `axios.get` and its 5-second timeout, the token `fetch`, and the TypeORM `findOne`. Each is an input value.
- `response.json()` in `exchangeCodeForTokens` is taken to be `JSON.parse` of the body, and the thrown error's text is not modelled.
- `JSON.parse`, `atob`, `Buffer` base64url decoding and UTF-8 percent-encoding of non-ASCII characters are oracles. For this reason the URL round trips (`UrlEncoding.QueryRoundTrip`, `UrlEncoding.FormDecodeEncode`, `UrlEncoding.FormDecodeUriComponent`, `KeycloakAuthService.LogoutReturnsToOrigin`) are stated for ASCII values only.
- `AppInit.Live`: JavaScript's `Number` conversion of a string or array `exp` is an oracle. `exp * 1000` is exact arithmetic on reals, with no floating-point rounding.
- The `...payload` spread in `extractClaims` is left out. It copies the other claims onto the result, and nothing in the core reads them.
- Logging (`Logger.log`/`warn`) is left out.
- Concurrency is left out. The event loop runs each request's steps without interleaving inside `refreshJwksCache`, which has no `await` between `clear()` and the refill.
- The Redux machinery (`createSlice`, `dispatch`, thunks) is left out. The dispatched actions are recorded as a log, and the stores are classes.
- In `initializeAppAction`, the CSRF, feature-flag and cloud-profile requests are one input outcome. The outcome carries the three fixed messages or any other exception.
- The optional success and failure callbacks are reduced to which one runs.
- `sessionStorage` and `localStorage` failures are left out: they would throw outside the restore `try`.
- The React pages, the callback page's `state` check, the database migration and the module's dependency wiring are not part of this model.
- `KeycloakService.JwkRecord`: a record's `kid` is a string. A record without one is not modelled; `Map.set` would store it under `undefined`, where no lookup reaches it. A record with a numeric or boolean `kid` is not modelled either; a token whose header carries the same non-string `kid` would find it, where `KeycloakService.Cached` answers a miss.
- A `keys` member that is iterable but not an array (a string, whose characters have no `kty`) is modelled as a list of unsupported records.
- `SubpathProxy.CallSendFile` models a template whose `fs.readFileSync` throws as `ReadThrew`: the exception leaves the patched `sendFile` before `res.send`, and the `callback` argument is never called. What the caller of `sendFile` then does with the exception, and when the framework calls `callback` for the files it streams, is not part of this model.
- `KeycloakService.Verify` models `jsonwebtoken`'s `nbf` check and its `exp`/`iss` checks. Its other options (clock tolerance, `aud`) are not used by the source.

## Where the code and its specification differ

The model follows the code in each case.

- The JWKS refresh is not atomic. When `createPublicKey` throws part-way, or the loop meets a `null` entry (`KeycloakService.NullRecordStopsRefresh`), the cache keeps the records stored so far and the old timestamp. A successful response that is not a JWK Set throws after `clear()` and leaves the cache empty (`KeycloakService.MalformedResponseEmptiesCache`). `KeycloakService.RefreshNeverMixesGenerations` states exactly what survives.
- A JWKS record without a `kid` is stored under the key `undefined`, which no token header can name: a header without `kid` is looked up under `''`. A record whose `kid` is a number or a boolean is stored under that value, and a header carrying the same value finds it. The model gives every record a string `kid` and treats every non-string header `kid` as a miss; see "## Left out".
- A `findOne` that throws propagates out of the authorisation gate as a fault. It does not let the request through the way a missing database does (`KeycloakRbacMiddleware.NextIffPermitted`).
- `sub` is never required, so a token without a subject validates (`KeycloakService.SubjectNotRequired`).
- The allow-list admits ES256/ES384/ES512, but only RSA keys are ever cached, so those tokens never validate (`KeycloakService.EllipticCurveTokensNeverValidate`).
- A `realm_access.roles` claim that is neither an array nor null makes `.some` throw in the authorisation gate instead of being treated as empty.
- The injected Keycloak settings are passed to `String.prototype.replace` as replacement strings, so a `$&`, `` $` ``, `$'` or `$$` in them is expanded (`SubpathProxy.Expand`). `SubpathProxy.DollarPatternInSettingExpanded` shows a URL of `$&` putting the placeholder back. `SubpathProxy.KeycloakSettingsInjected` states that settings without `$` are inserted as written.
- `RI_PROXY_PATH` is passed to `replace` the same way, so a `$` pattern in it is expanded too. `SubpathProxy.DollarInProxyPathExpanded` shows `RI_PROXY_PATH=$&` sending the placeholder back behind a slash. `SubpathProxy.ProxyPlaceholderRewritten` states the rewrite for a path without `$`.
