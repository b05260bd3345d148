/**
 * The identity the core derives from a JWT payload. The server (`extractClaims` in
 * keycloak.service.ts) and the browser (the token restore in init.ts) normalise a payload
 * the same way, so the normalisation is defined once here and used by both.
 */
module TokenClaims {
  import opened Wrappers
  import opened JsonValues

  /**
   * `sub`, `email` and `preferred_username` are copied as they are, present or not and
   * whatever their type (the source only casts them). `roles` is kept as a raw value because
   * `realm_access.roles` is cast, not checked; `groups` is always an array.
   */
  datatype Identity = Identity(
    sub: Option<Json>,
    email: Option<Json>,
    preferredUsername: Option<Json>,
    roles: Json,
    groups: seq<Json>)

  /** `payload.realm_access?.roles ?? []`. */
  function RealmRoles(payload: map<string, Json>): Json
  {
    match Field(JObj(payload), "realm_access")
    case Some(access) =>
      (match Field(access, "roles")
       case Some(roles) => if roles.JNull? then JArr([]) else roles
       case None => JArr([]))
    case None => JArr([])
  }

  /** `Array.isArray(payload.groups) ? payload.groups : []`. */
  function Groups(payload: map<string, Json>): seq<Json>
  {
    match Field(JObj(payload), "groups")
    case Some(JArr(items)) => items
    case _ => []
  }

  /** The normalised claims of a payload. */
  function ClaimsOf(payload: map<string, Json>): Identity
  {
    Identity(
      Field(JObj(payload), "sub"),
      Field(JObj(payload), "email"),
      Field(JObj(payload), "preferred_username"),
      RealmRoles(payload),
      Groups(payload))
  }

  /** An optional claim as a payload entry: absent when `None`. */
  function Entry(key: string, v: Option<Json>): map<string, Json>
  {
    if v.Some? then map[key := v.value] else map[]
  }

  /**
   * The payload an identity provider of the Keycloak kind issues for an identity: the profile
   * claims at the top level, the realm roles under `realm_access.roles`, the groups under
   * `groups`.
   */
  function PayloadOf(id: Identity): map<string, Json>
  {
    Entry("sub", id.sub) + Entry("email", id.email) + Entry("preferred_username", id.preferredUsername)
    + map["realm_access" := JObj(map["roles" := id.roles]), "groups" := JArr(id.groups)]
  }

  /** Normalising the payload issued for an identity gives the identity back. */
  lemma ClaimsOfPayloadOf(id: Identity)
    requires id.roles.JArr?
    ensures ClaimsOf(PayloadOf(id)) == id
  {
    var p := PayloadOf(id);
    assert Field(JObj(p), "sub") == id.sub;
    assert Field(JObj(p), "email") == id.email;
    assert Field(JObj(p), "preferred_username") == id.preferredUsername;
    assert Field(JObj(p), "realm_access") == Some(JObj(map["roles" := id.roles]));
    assert Field(JObj(p), "groups") == Some(JArr(id.groups));
  }

  /**
   * Missing or malformed role and group claims never make normalisation fail: they become
   * empty lists. Roles stay non-array only when `realm_access.roles` itself is a non-null,
   * non-array value.
   */
  lemma ClaimsDefaults(payload: map<string, Json>)
    ensures var c := ClaimsOf(payload);
      && (!(Field(JObj(payload), "groups").Some? && Field(JObj(payload), "groups").value.JArr?) ==> c.groups == [])
      && (("realm_access" !in payload || !payload["realm_access"].JObj?) ==> c.roles == JArr([]))
      && (!c.roles.JArr? ==>
            exists access :: Field(JObj(payload), "realm_access") == Some(access)
              && Field(access, "roles") == Some(c.roles) && !c.roles.JNull?)
  {
    var c := ClaimsOf(payload);
    if !c.roles.JArr? {
      var access := payload["realm_access"];
      assert Field(JObj(payload), "realm_access") == Some(access);
    }
  }
}
