/**
 * keycloak.service.ts: the JWKS key cache and token validation.
 *
 * The cache is a map from key id to public key plus the time of the last completed refresh.
 * A lookup is served from the cache when the key id is present and the cache generation is
 * younger than five minutes; otherwise the cache is refreshed once and looked up once more.
 * A refresh clears the map and refills it with the RSA records of the fetched JWK Set
 * (section 5 of RFC 7517; RSA members `n` and `e` per section 6.3.1 of RFC 7518).
 *
 * The state-changing operations are methods of the class `KeycloakService`; each is proved
 * against a function on `CacheState` values, and the properties of the cache are lemmas about
 * those functions.
 */
module KeycloakService {
  import opened Wrappers
  import opened JsonValues
  import opened Text
  import opened Runtime
  import opened TokenClaims
  import KeycloakConfig

  /** JWKS_CACHE_TTL_MS: five minutes. */
  const JwksCacheTtlMs: int := 5 * 60 * 1000

  /** The `algorithms` option given to `jwt.verify`. */
  const AllowedAlgorithms: seq<string> := ["RS256", "RS384", "RS512", "ES256", "ES384", "ES512"]

  /** The algorithms `jsonwebtoken` accepts with an RSA public key. */
  const RsaAlgorithms: seq<string> := ["RS256", "RS384", "RS512", "PS256", "PS384", "PS512"]

  /**
   * One entry of the JWK Set's `keys` array: `null` (or `undefined`), on which reading `kty`
   * throws, or a record with the members the refresh reads.
   */
  datatype JwkRecord =
    | NullRecord
    | JwkRecord(kid: string, kty: string, n: Option<string>, e: Option<string>)

  /**
   * The outcome of `axios.get(jwksUrl)`: a JWK Set's entries; a successful response whose body
   * has no iterable `keys` (text that is not JSON, `{}`, `keys: null`), so that the `for ... of`
   * throws; or a network/HTTP failure.
   */
  datatype JwksFetch = Fetched(keys: seq<JwkRecord>) | FetchedMalformed | FetchFailed

  datatype CacheState = CacheState(keys: map<string, PublicKey>, timestamp: int)

  /** The cache at startup: empty, stamped at time 0. */
  const InitialCache: CacheState := CacheState(map[], 0)

  // ---------------------------------------------------------------------------------------
  // Refresh

  /** `key.kty === 'RSA' && key.n && key.e`. */
  predicate Supported(r: JwkRecord)
  {
    r.JwkRecord? && r.kty == "RSA" && r.n.Some? && r.n.value != "" && r.e.Some? && r.e.value != ""
  }

  function KeyOf(r: JwkRecord): PublicKey
    requires Supported(r)
  {
    RsaPublicKey(r.n.value, r.e.value)
  }

  /** An entry on which the loop body throws: `null`, or a supported record `createPublicKey` rejects. */
  predicate Throws(r: JwkRecord, importRsa: (string, string) -> bool)
  {
    r.NullRecord? || (Supported(r) && !importRsa(r.n.value, r.e.value))
  }

  /** The map after `set(kid, key)` has been called for the supported records, in order. */
  function Stored(records: seq<JwkRecord>): map<string, PublicKey>
  {
    if records == [] then map[]
    else
      var last := records[|records| - 1];
      var m := Stored(records[..|records| - 1]);
      if Supported(last) then m[last.kid := KeyOf(last)] else m
  }

  /** The key ids of the supported records. */
  function SupportedKids(records: seq<JwkRecord>): set<string>
  {
    set j | 0 <= j < |records| && Supported(records[j]) :: records[j].kid
  }

  /** The index of the first entry on which the loop throws, from `from` on; `|records|` when none does. */
  function FirstThrow(records: seq<JwkRecord>, importRsa: (string, string) -> bool, from: nat): (k: nat)
    requires from <= |records|
    ensures from <= k <= |records|
    ensures forall j :: from <= j < k ==> !Throws(records[j], importRsa)
    ensures k < |records| ==> Throws(records[k], importRsa)
    decreases |records| - from
  {
    if from == |records| || Throws(records[from], importRsa) then from
    else FirstThrow(records, importRsa, from + 1)
  }

  datatype RefreshOutcome = Refreshed | FetchError | NotAKeySet | RecordError

  datatype Refreshing = Refreshing(outcome: RefreshOutcome, state: CacheState)

  /**
   * `refreshJwksCache()` at time `stamp`. A failed fetch throws before anything changes. A
   * completed fetch clears the map; a body without iterable `keys` then throws at once, leaving
   * the map empty. Otherwise the supported records are stored one by one; if the loop throws
   * on an entry (a `null` one, or one `createPublicKey` rejects) it stops there, leaving the
   * records before it stored. Only a completed loop stamps the time.
   */
  function Refresh(s: CacheState, fetch: JwksFetch, stamp: int, importRsa: (string, string) -> bool): Refreshing
  {
    match fetch
    case FetchFailed => Refreshing(FetchError, s)
    case FetchedMalformed => Refreshing(NotAKeySet, CacheState(map[], s.timestamp))
    case Fetched(records) =>
      var k := FirstThrow(records, importRsa, 0);
      if k < |records| then Refreshing(RecordError, CacheState(Stored(records[..k]), s.timestamp))
      else Refreshing(Refreshed, CacheState(Stored(records), stamp))
  }

  lemma SupportedKidsSnoc(records: seq<JwkRecord>)
    requires records != []
    ensures var last := records[|records| - 1];
      SupportedKids(records)
      == SupportedKids(records[..|records| - 1]) + (if Supported(last) then {last.kid} else {})
  {
    var init := records[..|records| - 1];
    var last := records[|records| - 1];
    forall kid | kid in SupportedKids(records)
      ensures kid in SupportedKids(init) + (if Supported(last) then {last.kid} else {})
    {
      var j :| 0 <= j < |records| && Supported(records[j]) && records[j].kid == kid;
      if j < |init| {
        assert init[j] == records[j];
      }
    }
    forall kid | kid in SupportedKids(init) ensures kid in SupportedKids(records) {
      var j :| 0 <= j < |init| && Supported(init[j]) && init[j].kid == kid;
      assert records[j] == init[j];
    }
  }

  /** The stored key ids are exactly the ids of the supported records. */
  lemma {:induction false} StoredKeys(records: seq<JwkRecord>)
    ensures Stored(records).Keys == SupportedKids(records)
  {
    if records != [] {
      StoredKeys(records[..|records| - 1]);
      SupportedKidsSnoc(records);
    }
  }

  /** Each stored key comes from the last supported record carrying its id (later `set` calls overwrite). */
  lemma {:induction false} StoredValues(records: seq<JwkRecord>, kid: string)
    requires kid in Stored(records)
    ensures exists j ::
      && 0 <= j < |records| && Supported(records[j]) && records[j].kid == kid
      && Stored(records)[kid] == KeyOf(records[j])
      && (forall i :: j < i < |records| ==> !(Supported(records[i]) && records[i].kid == kid))
  {
    var init := records[..|records| - 1];
    var last := records[|records| - 1];
    if Supported(last) && last.kid == kid {
      assert Stored(records)[kid] == KeyOf(records[|records| - 1]);
    } else {
      StoredValues(init, kid);
      var j :| 0 <= j < |init| && Supported(init[j]) && init[j].kid == kid
        && Stored(init)[kid] == KeyOf(init[j])
        && forall i :: j < i < |init| ==> !(Supported(init[i]) && init[i].kid == kid);
      assert records[j] == init[j];
      forall i | j < i < |records| ensures !(Supported(records[i]) && records[i].kid == kid) {
        if i < |init| {
          assert records[i] == init[i];
        }
      }
    }
  }

  /**
   * A completed refresh replaces the cache by the supported records of the response, evicting
   * every earlier entry, and stamps the refresh time.
   */
  lemma RefreshReplacesCache(s: CacheState, records: seq<JwkRecord>, stamp: int, importRsa: (string, string) -> bool)
    requires FirstThrow(records, importRsa, 0) == |records|
    ensures var r := Refresh(s, Fetched(records), stamp, importRsa);
      && r.outcome == Refreshed
      && r.state.keys.Keys == SupportedKids(records)
      && r.state.timestamp == stamp
      && (forall kid :: kid in s.keys && kid !in SupportedKids(records) ==> kid !in r.state.keys)
  {
    StoredKeys(records);
  }

  /** The loop throws on no entry of the response. */
  predicate NoThrow(records: seq<JwkRecord>, importRsa: (string, string) -> bool)
  {
    forall j :: 0 <= j < |records| ==> !Throws(records[j], importRsa)
  }

  /**
   * Unsupported or incomplete records are skipped: inserting one anywhere in a response
   * changes neither the key ids the refresh stores ...
   */
  lemma UnsupportedRecordSkipped(records: seq<JwkRecord>, bad: JwkRecord, k: nat)
    requires k <= |records| && !Supported(bad)
    ensures Stored(records[..k] + [bad] + records[k..]).Keys == Stored(records).Keys
  {
    var front, back := records[..k], records[k..];
    StoredKeys(records);
    StoredKeys(front + [bad] + back);
    SupportedKidsAppend(front + [bad], back);
    SupportedKidsAppend(front, [bad]);
    SupportedKidsAppend(front, back);
    assert front + back == records;
  }

  lemma SupportedKidsAppend(a: seq<JwkRecord>, b: seq<JwkRecord>)
    ensures SupportedKids(a + b) == SupportedKids(a) + SupportedKids(b)
  {
    var ab := a + b;
    forall kid | kid in SupportedKids(ab) ensures kid in SupportedKids(a) + SupportedKids(b) {
      var j :| 0 <= j < |ab| && Supported(ab[j]) && ab[j].kid == kid;
      if j >= |a| {
        assert b[j - |a|] == ab[j];
      }
    }
    forall kid | kid in SupportedKids(b) ensures kid in SupportedKids(ab) {
      var j :| 0 <= j < |b| && Supported(b[j]) && b[j].kid == kid;
      assert ab[j + |a|] == b[j];
    }
    forall kid | kid in SupportedKids(a) ensures kid in SupportedKids(ab) {
      var j :| 0 <= j < |a| && Supported(a[j]) && a[j].kid == kid;
      assert ab[j] == a[j];
    }
  }

  /** ... nor, unless it is `null` (see `NullRecordStopsRefresh`), whether the refresh completes. */
  lemma UnsupportedRecordNeverAborts(records: seq<JwkRecord>, bad: JwkRecord, k: nat, importRsa: (string, string) -> bool)
    requires k <= |records| && bad.JwkRecord? && !Supported(bad)
    ensures NoThrow(records[..k] + [bad] + records[k..], importRsa) <==> NoThrow(records, importRsa)
  {
    var with := records[..k] + [bad] + records[k..];
    if NoThrow(records, importRsa) {
      forall j | 0 <= j < |with| ensures !Throws(with[j], importRsa) {
        if j < k {
          assert with[j] == records[j];
        } else if j > k {
          assert with[j] == records[j - 1];
        }
      }
    }
    if NoThrow(with, importRsa) {
      forall j | 0 <= j < |records| ensures !Throws(records[j], importRsa) {
        if j < k {
          assert with[j] == records[j];
        } else {
          assert with[j + 1] == records[j];
        }
      }
    }
  }

  /** A failed fetch changes neither the map nor the timestamp. */
  lemma FailedFetchKeepsCache(s: CacheState, stamp: int, importRsa: (string, string) -> bool)
    ensures Refresh(s, FetchFailed, stamp, importRsa) == Refreshing(FetchError, s)
  {
  }

  /**
   * A successful response that is not a JWK Set throws after `clear()`: the map is left empty
   * and the timestamp as it was, so until the next refresh every lookup misses.
   */
  lemma MalformedResponseEmptiesCache(s: CacheState, stamp: int, importRsa: (string, string) -> bool, kid: Json, now: int)
    ensures var r := Refresh(s, FetchedMalformed, stamp, importRsa);
      && r == Refreshing(NotAKeySet, CacheState(map[], s.timestamp))
      && !IsHit(r.state, kid, now)
  {
  }

  /**
   * A `null` entry throws when the loop reaches it: the supported records before it stay
   * stored, nothing after it is read, and the timestamp is not renewed.
   */
  lemma NullRecordStopsRefresh(s: CacheState, front: seq<JwkRecord>, back: seq<JwkRecord>, stamp: int,
                               importRsa: (string, string) -> bool)
    requires NoThrow(front, importRsa)
    ensures Refresh(s, Fetched(front + [NullRecord] + back), stamp, importRsa)
      == Refreshing(RecordError, CacheState(Stored(front), s.timestamp))
  {
    var records := front + [NullRecord] + back;
    assert records[|front|] == NullRecord;
    forall j | 0 <= j < |front| ensures !Throws(records[j], importRsa) {
      assert records[j] == front[j];
    }
    assert records[..|front|] == front;
  }

  /**
   * Whatever the outcome, a refresh never mixes generations: either the cache is untouched,
   * or every entry left in it comes from the response just fetched. When `createPublicKey`
   * throws, the cache keeps only part of the response and the old timestamp, so the swap is
   * not atomic.
   */
  lemma {:induction false} RefreshNeverMixesGenerations(s: CacheState, fetch: JwksFetch, stamp: int, importRsa: (string, string) -> bool)
    ensures var r := Refresh(s, fetch, stamp, importRsa);
      || r.state == s
      || (fetch.Fetched? && r.state.keys.Keys <= SupportedKids(fetch.keys))
      || (fetch.FetchedMalformed? && r.state.keys == map[])
    ensures var r := Refresh(s, fetch, stamp, importRsa);
      r.outcome != Refreshed ==> r.state.timestamp == s.timestamp
  {
    if fetch.Fetched? {
      var records := fetch.keys;
      var k := FirstThrow(records, importRsa, 0);
      StoredKeys(records[..k]);
      StoredKeys(records);
      forall kid | kid in SupportedKids(records[..k]) ensures kid in SupportedKids(records) {
        var j :| 0 <= j < k && Supported(records[..k][j]) && records[..k][j].kid == kid;
        assert records[j] == records[..k][j];
      }
    }
  }

  // ---------------------------------------------------------------------------------------
  // Key lookup

  /** `decodeHeader(token)`: the first `.`-separated segment, base64url-decoded and parsed; `None` when parsing throws. */
  function DecodeHeader(token: string, p: Platform): Option<Json>
  {
    p.jsonParse(p.base64UrlToText(Split(token, '.')[0]))
  }

  /**
   * `header?.kid ?? ''`: the value the cache is searched with. A kid that is not a string
   * matches no entry, since the cache's keys are strings.
   */
  function CacheKey(header: Option<Json>): Json
  {
    match header
    case None => JStr("")
    case Some(h) =>
      match Field(h, "kid")
      case None => JStr("")
      case Some(kid) => if kid.JNull? then JStr("") else kid
  }

  predicate Cached(keys: map<string, PublicKey>, kid: Json)
  {
    kid.JStr? && kid.s in keys
  }

  /** The cache-hit test: the kid is present and the generation is younger than the TTL. */
  predicate IsHit(s: CacheState, kid: Json, now: int)
  {
    Cached(s.keys, kid) && now - s.timestamp < JwksCacheTtlMs
  }

  datatype KeyError = KeyFetchFailed | KeySetUnreadable | KeyRecordFailed | KeyNotFound(kid: Json)

  datatype Lookup = Lookup(key: Result<PublicKey, KeyError>, state: CacheState)

  /** `getSigningKey` for a lookup key at time `now`; a refresh, if one runs, completes at `stamp`. */
  function Resolve(s: CacheState, kid: Json, now: int, fetch: JwksFetch, stamp: int, importRsa: (string, string) -> bool): Lookup
  {
    if IsHit(s, kid, now) then Lookup(Ok(s.keys[kid.s]), s)
    else
      var r := Refresh(s, fetch, stamp, importRsa);
      match r.outcome
      case FetchError => Lookup(Err(KeyFetchFailed), r.state)
      case NotAKeySet => Lookup(Err(KeySetUnreadable), r.state)
      case RecordError => Lookup(Err(KeyRecordFailed), r.state)
      case Refreshed =>
        if Cached(r.state.keys, kid) then Lookup(Ok(r.state.keys[kid.s]), r.state)
        else Lookup(Err(KeyNotFound(kid)), r.state)
  }

  /** A header that cannot be decoded, or one without a kid, is looked up under `''`. */
  lemma MissingKidLooksUpEmpty(token: string, p: Platform)
    requires DecodeHeader(token, p).None? || Field(DecodeHeader(token, p).value, "kid").None?
    ensures CacheKey(DecodeHeader(token, p)) == JStr("")
  {
  }

  /** A cache hit returns the cached key and leaves the cache alone: no refresh, whatever the network would say. */
  lemma CacheHitSkipsRefresh(s: CacheState, kid: string, now: int, fetch: JwksFetch, stamp: int, importRsa: (string, string) -> bool)
    requires kid in s.keys && now - s.timestamp < JwksCacheTtlMs
    ensures Resolve(s, JStr(kid), now, fetch, stamp, importRsa) == Lookup(Ok(s.keys[kid]), s)
  {
  }

  /**
   * On a miss or a stale generation the state is that of exactly one refresh, the key is the
   * one the refreshed cache holds, and a kid the refresh did not bring fails.
   */
  lemma MissRefreshesOnce(s: CacheState, kid: Json, now: int, fetch: JwksFetch, stamp: int, importRsa: (string, string) -> bool)
    requires !IsHit(s, kid, now)
    ensures var l := Resolve(s, kid, now, fetch, stamp, importRsa);
      var r := Refresh(s, fetch, stamp, importRsa);
      && l.state == r.state
      && (l.key.Ok? <==> r.outcome == Refreshed && Cached(r.state.keys, kid))
      && (l.key.Ok? ==> l.key.value == r.state.keys[kid.s])
      && (r.outcome == Refreshed && !Cached(r.state.keys, kid) ==> l.key == Err(KeyNotFound(kid)))
      && (r.outcome == FetchError ==> l.key == Err(KeyFetchFailed))
      && (r.outcome == NotAKeySet ==> l.key == Err(KeySetUnreadable))
      && (r.outcome == RecordError ==> l.key == Err(KeyRecordFailed))
  {
  }

  /**
   * After a completed refresh every key id of the response is served from the cache, without
   * another fetch, for the whole freshness window; a key id not in the response is refused
   * once the refresh it triggers brings the same response.
   */
  lemma ResolveAfterRefresh(s: CacheState, records: seq<JwkRecord>, stamp: int, importRsa: (string, string) -> bool,
                            kid: string, now: int, fetch: JwksFetch, stamp2: int)
    requires Refresh(s, Fetched(records), stamp, importRsa).outcome == Refreshed
    requires now - stamp < JwksCacheTtlMs
    ensures var s' := Refresh(s, Fetched(records), stamp, importRsa).state;
      kid in SupportedKids(records) ==>
        kid in s'.keys && Resolve(s', JStr(kid), now, fetch, stamp2, importRsa) == Lookup(Ok(s'.keys[kid]), s')
    ensures var s' := Refresh(s, Fetched(records), stamp, importRsa).state;
      kid !in SupportedKids(records) ==>
        Resolve(s', JStr(kid), now, Fetched(records), stamp2, importRsa).key == Err(KeyNotFound(JStr(kid)))
  {
    StoredKeys(records);
  }

  // ---------------------------------------------------------------------------------------
  // Verification (the checks `jwt.verify` performs) and claim extraction

  datatype VerifyError =
    | Malformed
    | AlgorithmNotAllowed
    | KeyTypeMismatch
    | BadSignature
    | InvalidNotBefore
    | NotYetValid
    | InvalidExpiry
    | Expired
    | IssuerMismatch

  /**
   * `jwt.verify(token, key, { algorithms, issuer })` at time `nowMs`: the header's algorithm
   * must be allowed and fit the key, which is always an RSA key; the signature must check; a
   * present `nbf`/`exp` must be a number with `nbf <= now < exp` in whole seconds
   * (`Math.floor(now / 1000)`); and `iss` must equal the expected issuer exactly.
   */
  function Verify(token: string, key: PublicKey, nowMs: int, issuer: string, p: Platform): Result<map<string, Json>, VerifyError>
  {
    match p.decodeJwt(token)
    case None => Err(Malformed)
    case Some(d) =>
      var clock := (nowMs / 1000) as real;
      var nbf := Field(JObj(d.payload), "nbf");
      var exp := Field(JObj(d.payload), "exp");
      if d.alg !in AllowedAlgorithms then Err(AlgorithmNotAllowed)
      else if d.alg !in RsaAlgorithms then Err(KeyTypeMismatch)
      else if !p.signatureValid(token, key) then Err(BadSignature)
      else if nbf.Some? && !nbf.value.JNum? then Err(InvalidNotBefore)
      else if nbf.Some? && nbf.value.n > clock then Err(NotYetValid)
      else if exp.Some? && !exp.value.JNum? then Err(InvalidExpiry)
      else if exp.Some? && clock >= exp.value.n then Err(Expired)
      else if Field(JObj(d.payload), "iss") != Some(JStr(issuer)) then Err(IssuerMismatch)
      else Ok(d.payload)
  }

  datatype TokenError = KeyUnavailable(keyError: KeyError) | Rejected(verifyError: VerifyError)

  /** The clock readings and the network answer one validation sees. */
  datatype ValidationIo = ValidationIo(now: int, jwks: JwksFetch, fetchedAt: int, verifiedAt: int)

  datatype Validation = Validation(claims: Result<Identity, TokenError>, state: CacheState)

  /** `validateToken(token)`: resolve the signing key, verify, extract the claims. */
  function Validate(s: CacheState, token: string, issuer: string, io: ValidationIo, p: Platform): Validation
  {
    var l := Resolve(s, CacheKey(DecodeHeader(token, p)), io.now, io.jwks, io.fetchedAt, p.importRsa);
    if l.key.Err? then Validation(Err(KeyUnavailable(l.key.error)), l.state)
    else
      match Verify(token, l.key.value, io.verifiedAt, issuer, p)
      case Err(e) => Validation(Err(Rejected(e)), l.state)
      case Ok(payload) => Validation(Ok(ClaimsOf(payload)), l.state)
  }

  /**
   * A token validates only if it names (by kid) a key the cache holds afterwards, its algorithm
   * is allowed, its signature checks under that key, it has not expired and its issuer is the
   * expected one; the claims are then those of its payload.
   */
  lemma ValidatedTokenPassedChecks(s: CacheState, token: string, issuer: string, io: ValidationIo, p: Platform)
    requires Validate(s, token, issuer, io, p).claims.Ok?
    ensures var v := Validate(s, token, issuer, io, p);
      var kid := CacheKey(DecodeHeader(token, p));
      && Cached(v.state.keys, kid)
      && p.decodeJwt(token).Some?
      && var d := p.decodeJwt(token).value;
      && d.alg in AllowedAlgorithms
      && p.signatureValid(token, v.state.keys[kid.s])
      && Field(JObj(d.payload), "iss") == Some(JStr(issuer))
      && (Field(JObj(d.payload), "exp").Some? ==>
            Field(JObj(d.payload), "exp").value.JNum?
            && ((io.verifiedAt / 1000) as real) < Field(JObj(d.payload), "exp").value.n)
      && v.claims.value == ClaimsOf(d.payload)
  {
  }

  /** An expired token is refused, whatever its signature. */
  lemma ExpiredTokenRejected(s: CacheState, token: string, issuer: string, io: ValidationIo, p: Platform, d: DecodedJwt)
    requires p.decodeJwt(token) == Some(d)
    requires "exp" in d.payload && d.payload["exp"].JNum?
    requires ((io.verifiedAt / 1000) as real) >= d.payload["exp"].n
    ensures Validate(s, token, issuer, io, p).claims.Err?
  {
    assert Field(JObj(d.payload), "exp") == Some(d.payload["exp"]);
  }

  /**
   * The allow-list admits ES256/ES384/ES512, yet every cached key is an RSA key, so a token
   * signed with an elliptic-curve algorithm can never validate.
   */
  lemma EllipticCurveTokensNeverValidate(s: CacheState, token: string, issuer: string, io: ValidationIo, p: Platform)
    requires p.decodeJwt(token).Some? && p.decodeJwt(token).value.alg in ["ES256", "ES384", "ES512"]
    ensures Validate(s, token, issuer, io, p).claims.Err?
  {
  }

  /** The subject is never checked: a token without `sub` validates and yields claims with no subject. */
  lemma SubjectNotRequired(s: CacheState, token: string, issuer: string, io: ValidationIo, p: Platform, d: DecodedJwt)
    requires p.decodeJwt(token) == Some(d) && "sub" !in d.payload
    requires Resolve(s, CacheKey(DecodeHeader(token, p)), io.now, io.jwks, io.fetchedAt, p.importRsa).key.Ok?
    requires Verify(token, Resolve(s, CacheKey(DecodeHeader(token, p)), io.now, io.jwks, io.fetchedAt, p.importRsa).key.value,
                    io.verifiedAt, issuer, p).Ok?
    ensures var v := Validate(s, token, issuer, io, p);
      v.claims.Ok? && v.claims.value.sub.None?
  {
  }

  /**
   * Validating the same token again, within the freshness window of the cache the first
   * validation left and at a later instant before the token's `exp` (if it has one), gives
   * the same claims and touches neither the cache nor the network.
   */
  lemma RevalidationIsStable(s: CacheState, token: string, issuer: string, io: ValidationIo, io2: ValidationIo, p: Platform)
    requires Validate(s, token, issuer, io, p).claims.Ok?
    requires io2.now - Validate(s, token, issuer, io, p).state.timestamp < JwksCacheTtlMs
    requires io.verifiedAt <= io2.verifiedAt
    requires p.decodeJwt(token).Some? ==>
      var exp := Field(JObj(p.decodeJwt(token).value.payload), "exp");
      exp.Some? && exp.value.JNum? ==> ((io2.verifiedAt / 1000) as real) < exp.value.n
    ensures var v := Validate(s, token, issuer, io, p);
      Validate(v.state, token, issuer, io2, p) == v
  {
    var v := Validate(s, token, issuer, io, p);
    var l := Resolve(s, CacheKey(DecodeHeader(token, p)), io.now, io.jwks, io.fetchedAt, p.importRsa);
    var l2 := Resolve(v.state, CacheKey(DecodeHeader(token, p)), io2.now, io2.jwks, io2.fetchedAt, p.importRsa);
    assert l2 == Lookup(Ok(l.key.value), l.state);
    assert io.verifiedAt / 1000 <= io2.verifiedAt / 1000;
    assert Verify(token, l.key.value, io2.verifiedAt, issuer, p) == Verify(token, l.key.value, io.verifiedAt, issuer, p);
  }

  // ---------------------------------------------------------------------------------------
  // The service object

  class KeycloakService {
    const config: KeycloakConfig.Config
    var jwksCache: map<string, PublicKey>
    var jwksCacheTimestamp: int

    ghost function State(): CacheState
      reads this
    {
      CacheState(jwksCache, jwksCacheTimestamp)
    }

    constructor (config: KeycloakConfig.Config)
      ensures this.config == config && State() == InitialCache
    {
      this.config := config;
      jwksCache := map[];
      jwksCacheTimestamp := 0;
    }

    /** `refreshJwksCache()`: the fetch has answered `fetch`, and `Date.now()` after it reads `stamp`. */
    method RefreshJwksCache(fetch: JwksFetch, stamp: int, p: Platform) returns (outcome: RefreshOutcome)
      modifies this
      ensures Refreshing(outcome, State()) == Refresh(old(State()), fetch, stamp, p.importRsa)
    {
      if fetch.FetchFailed? {
        return FetchError;
      }
      jwksCache := map[];
      if fetch.FetchedMalformed? {
        return NotAKeySet;
      }
      var records := fetch.keys;
      var i := 0;
      while i < |records|
        invariant 0 <= i <= |records|
        invariant jwksCache == Stored(records[..i])
        invariant forall j :: 0 <= j < i ==> !Throws(records[j], p.importRsa)
        invariant jwksCacheTimestamp == old(jwksCacheTimestamp)
      {
        var key := records[i];
        assert records[..i + 1][..i] == records[..i];
        if key.NullRecord? {
          return RecordError;
        }
        if key.kty == "RSA" && key.n.Some? && key.n.value != "" && key.e.Some? && key.e.value != "" {
          if !p.importRsa(key.n.value, key.e.value) {
            return RecordError;
          }
          jwksCache := jwksCache[key.kid := RsaPublicKey(key.n.value, key.e.value)];
        }
        i := i + 1;
      }
      assert records[..i] == records;
      jwksCacheTimestamp := stamp;
      return Refreshed;
    }

    /** `getSigningKey(token)`: `Date.now()` reads `now` before the lookup and `stamp` after a refresh. */
    method GetSigningKey(token: string, now: int, fetch: JwksFetch, stamp: int, p: Platform)
      returns (key: Result<PublicKey, KeyError>)
      modifies this
      ensures Lookup(key, State()) == Resolve(old(State()), CacheKey(DecodeHeader(token, p)), now, fetch, stamp, p.importRsa)
    {
      var kid := CacheKey(DecodeHeader(token, p));
      if kid.JStr? && kid.s in jwksCache && now - jwksCacheTimestamp < JwksCacheTtlMs {
        return Ok(jwksCache[kid.s]);
      }
      var outcome := RefreshJwksCache(fetch, stamp, p);
      if outcome == FetchError {
        return Err(KeyFetchFailed);
      } else if outcome == NotAKeySet {
        return Err(KeySetUnreadable);
      } else if outcome == RecordError {
        return Err(KeyRecordFailed);
      }
      if kid.JStr? && kid.s in jwksCache {
        key := Ok(jwksCache[kid.s]);
      } else {
        key := Err(KeyNotFound(kid));
      }
    }

    /** `validateToken(token)`. */
    method ValidateToken(token: string, io: ValidationIo, p: Platform) returns (claims: Result<Identity, TokenError>)
      modifies this
      ensures Validation(claims, State()) == Validate(old(State()), token, KeycloakConfig.Issuer(config), io, p)
    {
      var key := GetSigningKey(token, io.now, io.jwks, io.fetchedAt, p);
      if key.Err? {
        return Err(KeyUnavailable(key.error));
      }
      var verified := Verify(token, key.value, io.verifiedAt, KeycloakConfig.Issuer(config), p);
      if verified.Err? {
        return Err(Rejected(verified.error));
      }
      claims := Ok(ClaimsOf(verified.value));
    }
  }
}
