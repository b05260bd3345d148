/**
 * keycloak-rbac.middleware.ts: the authorisation gate that runs after authentication. A
 * request addressed to one database (`/databases/<id>...`) is let through only when the
 * database's record imposes no restriction or the caller shares one of its groups or roles.
 * The middleware changes no state: it is a function from the request, the attached claims
 * and the database directory to a verdict.
 */
module KeycloakRbacMiddleware {
  import opened Wrappers
  import opened JsonValues
  import opened TokenClaims

  // ---------------------------------------------------------------------------------------
  // extractDatabaseId: /\/databases\/([a-zA-Z0-9-]+)/
  // ---------------------------------------------------------------------------------------

  const DatabasesSegment: string := "/databases/"

  /** A character of the class `[a-zA-Z0-9-]`. */
  predicate IdChar(c: char)
  {
    'a' <= c <= 'z' || 'A' <= c <= 'Z' || '0' <= c <= '9' || c == '-'
  }

  /** A string the capture group can produce: one or more id characters. */
  predicate IsDatabaseId(id: string)
  {
    |id| > 0 && forall k :: 0 <= k < |id| ==> IdChar(id[k])
  }

  /** The greedy `[a-zA-Z0-9-]*` run at the start of `s`. */
  function IdRun(s: string): (run: string)
    ensures |run| <= |s| && run == s[..|run|]
    ensures forall k :: 0 <= k < |run| ==> IdChar(run[k])
    ensures |run| < |s| ==> !IdChar(s[|run|])
  {
    if s == [] || !IdChar(s[0]) then [] else [s[0]] + IdRun(s[1..])
  }

  /** The regular expression matches at position `j`: the segment, then at least one id character. */
  predicate MatchesAt(s: string, j: int)
  {
    0 <= j && j + |DatabasesSegment| < |s|
    && s[j..j + |DatabasesSegment|] == DatabasesSegment
    && IdChar(s[j + |DatabasesSegment|])
  }

  /** The leftmost position at or after `from` where the expression matches. */
  function FirstMatch(s: string, from: nat): (j: Option<nat>)
    requires from <= |s|
    ensures j.Some? ==> from <= j.value < |s| && MatchesAt(s, j.value)
    ensures j.Some? ==> forall k :: from <= k < j.value ==> !MatchesAt(s, k)
    ensures j.None? ==> forall k :: from <= k < |s| ==> !MatchesAt(s, k)
    decreases |s| - from
  {
    if from == |s| then None
    else if MatchesAt(s, from) then Some(from)
    else FirstMatch(s, from + 1)
  }

  /** `/\/databases\/([a-zA-Z0-9-]+)/.exec(s)?.[1]`: the capture of the leftmost match. */
  function ExecId(s: string): (id: Option<string>)
    ensures id.None? <==> forall k :: 0 <= k < |s| ==> !MatchesAt(s, k)
    ensures id.Some? ==> IsDatabaseId(id.value)
  {
    match FirstMatch(s, 0)
    case None => None
    case Some(j) => Some(IdRun(s[j + |DatabasesSegment|..]))
  }

  /** `extractDatabaseId(req)`: the path is tried first, then the full URL. */
  function ExtractDatabaseId(path: string, url: string): (id: Option<string>)
    ensures id.Some? ==> IsDatabaseId(id.value)
    ensures id.None? <==> ExecId(path).None? && ExecId(url).None?
    ensures ExecId(path).Some? ==> id == ExecId(path)
  {
    match ExecId(path)
    case Some(id) => Some(id)
    case None => ExecId(url)
  }

  /**
   * The id a route is built with is the id extracted from it: for `u + "/databases/" + id +
   * rest` where `rest` does not continue the id and no match starts inside `u`.
   */
  lemma {:induction false} ExecIdOfRoute(u: string, id: string, rest: string)
    requires IsDatabaseId(id)
    requires rest == [] || !IdChar(rest[0])
    requires forall k :: 0 <= k < |u| ==> !MatchesAt(u + DatabasesSegment + id + rest, k)
    ensures ExecId(u + DatabasesSegment + id + rest) == Some(id)
  {
    var s := u + DatabasesSegment + id + rest;
    var j := |u|;
    assert s[j..j + |DatabasesSegment|] == DatabasesSegment;
    assert s[j + |DatabasesSegment|..] == id + rest;
    assert MatchesAt(s, j);
    var m := FirstMatch(s, 0);
    assert m == Some(j);
    IdRunOfRoute(id, rest);
  }

  lemma {:induction false} IdRunOfRoute(id: string, rest: string)
    requires forall k :: 0 <= k < |id| ==> IdChar(id[k])
    requires rest == [] || !IdChar(rest[0])
    ensures IdRun(id + rest) == id
    decreases |id|
  {
    if id == [] {
      assert id + rest == rest;
    } else {
      assert (id + rest)[1..] == id[1..] + rest;
      IdRunOfRoute(id[1..], rest);
    }
  }

  /** A request path under `/api/databases/<id>` names that database, whatever the URL says. */
  lemma ApiRouteNamesDatabase(id: string, rest: string, url: string)
    requires IsDatabaseId(id)
    requires rest == [] || !IdChar(rest[0])
    ensures ExtractDatabaseId("/api" + DatabasesSegment + id + rest, url) == Some(id)
  {
    var s := "/api" + DatabasesSegment + id + rest;
    assert s[..4] == "/api";
    forall k | 0 <= k < |"/api"|
      ensures !MatchesAt(s, k)
    {
      if k == 0 {
        assert s[1] == 'a';
        assert s[k..k + |DatabasesSegment|][1] == s[1];
      } else {
        assert s[k] != '/';
        assert s[k..k + |DatabasesSegment|][0] == s[k];
      }
    }
    ExecIdOfRoute("/api", id, rest);
  }

  // ---------------------------------------------------------------------------------------
  // The decision
  // ---------------------------------------------------------------------------------------

  /**
   * The columns of a database record the middleware selects. The allow-lists are raw column
   * values: a JSON array, the text of one, or anything else the column may hold.
   */
  datatype DatabaseRecord = DatabaseRecord(id: string, allowedGroups: Json, allowedRoles: Json)

  /** What `databaseRepository.findOne` does for an id: a record, null, or a thrown error. */
  datatype Lookup = Found(record: DatabaseRecord) | NotFound | LookupFailed

  /**
   * `Next` is the single `next()` call, `Forbidden` the thrown ForbiddenException, and
   * `Fault` an exception propagated from the directory or from `.some` on a non-array
   * `roles` claim. Only `Next` lets the request reach its handler.
   */
  datatype Verdict = Next | Forbidden | Fault

  /** A verdict together with the id the directory was queried for, if it was queried. */
  datatype RbacRun = RbacRun(verdict: Verdict, queried: Option<string>)

  /** `parseJsonArray(raw)`. */
  function ParseJsonArray(raw: Json, jsonParse: string -> Option<Json>): (list: seq<Json>)
  {
    match raw
    case JArr(items) => items
    case JStr(text) =>
      (match jsonParse(text)
       case Some(JArr(items)) => items
       case _ => [])
    case _ => []
  }

  /**
   * Tolerant parsing never invents an entry: a non-empty list is the raw array itself or the
   * array its text parses to. Every other column value, and text that fails to parse or is
   * not an array, gives the empty list.
   */
  lemma ParseJsonArrayTolerant(raw: Json, jsonParse: string -> Option<Json>)
    ensures raw.JArr? ==> ParseJsonArray(raw, jsonParse) == raw.items
    ensures raw.JStr? && jsonParse(raw.s).Some? && jsonParse(raw.s).value.JArr? ==>
      ParseJsonArray(raw, jsonParse) == jsonParse(raw.s).value.items
    ensures ParseJsonArray(raw, jsonParse) != [] ==>
      (raw.JArr? && ParseJsonArray(raw, jsonParse) == raw.items)
      || (raw.JStr? && jsonParse(raw.s) == Some(JArr(ParseJsonArray(raw, jsonParse))))
  {
  }

  /** A record with lists to check: at least one of them is non-empty. */
  predicate Restricted(allowedGroups: seq<Json>, allowedRoles: seq<Json>)
  {
    allowedGroups != [] || allowedRoles != []
  }

  /** The verdict for an authenticated caller once the two lists are known (lines 69-88). */
  function Decide(c: Identity, allowedGroups: seq<Json>, allowedRoles: seq<Json>): Verdict
  {
    if !Restricted(allowedGroups, allowedRoles) then Next
    else if AnyIncluded(c.groups, allowedGroups) then Next
    else if !c.roles.JArr? then Fault
    else if AnyIncluded(c.roles.items, allowedRoles) then Next
    else Forbidden
  }

  /** The caller shares a group, or (when its roles claim is an array) a role, with the lists. */
  predicate Overlaps(c: Identity, allowedGroups: seq<Json>, allowedRoles: seq<Json>)
  {
    Primitives(c.groups) * Primitives(allowedGroups) != {}
    || (c.roles.JArr? && Primitives(c.roles.items) * Primitives(allowedRoles) != {})
  }

  /**
   * The decision against its set-theoretic reading: access is granted exactly when the record
   * is unrestricted or the caller's groups or roles intersect the lists, and denial happens
   * exactly when the record is restricted and nothing overlaps. The one remaining case is a
   * roles claim that is not an array with no group overlap, which faults.
   */
  lemma DecideIff(c: Identity, allowedGroups: seq<Json>, allowedRoles: seq<Json>)
    ensures Decide(c, allowedGroups, allowedRoles) == Next <==>
      !Restricted(allowedGroups, allowedRoles) || Overlaps(c, allowedGroups, allowedRoles)
    ensures Decide(c, allowedGroups, allowedRoles) == Forbidden <==>
      Restricted(allowedGroups, allowedRoles) && c.roles.JArr? && !Overlaps(c, allowedGroups, allowedRoles)
    ensures Decide(c, allowedGroups, allowedRoles) == Fault <==>
      Restricted(allowedGroups, allowedRoles) && !c.roles.JArr?
      && Primitives(c.groups) * Primitives(allowedGroups) == {}
  {
    AnyIncludedIff(c.groups, allowedGroups);
    if c.roles.JArr? {
      AnyIncludedIff(c.roles.items, allowedRoles);
    }
  }

  /** `use(req, res, next)`. `claims` is what the authentication gate attached, if anything. */
  function Use(claims: Option<Identity>, path: string, url: string,
               findOne: string -> Lookup, jsonParse: string -> Option<Json>): RbacRun
  {
    if claims.None? then RbacRun(Next, None)
    else
      match ExtractDatabaseId(path, url)
      case None => RbacRun(Next, None)
      case Some(id) =>
        match findOne(id)
        case LookupFailed => RbacRun(Fault, Some(id))
        case NotFound => RbacRun(Next, Some(id))
        case Found(record) =>
          var allowedGroups := ParseJsonArray(record.allowedGroups, jsonParse);
          var allowedRoles := ParseJsonArray(record.allowedRoles, jsonParse);
          RbacRun(Decide(claims.value, allowedGroups, allowedRoles), Some(id))
  }

  /**
   * The directory is queried exactly when an authenticated request names a database, and then
   * for that database only; every other request passes.
   */
  lemma QueriedOnlyWhenScoped(claims: Option<Identity>, path: string, url: string,
                              findOne: string -> Lookup, jsonParse: string -> Option<Json>)
    ensures var r := Use(claims, path, url, findOne, jsonParse);
      && (r.queried.Some? <==> claims.Some? && ExtractDatabaseId(path, url).Some?)
      && (r.queried.Some? ==> r.queried == ExtractDatabaseId(path, url))
      && (r.queried.None? ==> r.verdict == Next)
  {
  }

  /**
   * A request is refused (Forbidden) exactly when it is authenticated, names a database whose
   * record exists and restricts access, and the caller shares no group and no role with it.
   */
  lemma ForbiddenIffRestrictedWithoutOverlap(claims: Option<Identity>, path: string, url: string,
                                             findOne: string -> Lookup, jsonParse: string -> Option<Json>)
    ensures Use(claims, path, url, findOne, jsonParse).verdict == Forbidden <==>
      (exists id, record ::
         && claims.Some? && ExtractDatabaseId(path, url) == Some(id) && findOne(id) == Found(record)
         && Restricted(ParseJsonArray(record.allowedGroups, jsonParse), ParseJsonArray(record.allowedRoles, jsonParse))
         && claims.value.roles.JArr?
         && !Overlaps(claims.value, ParseJsonArray(record.allowedGroups, jsonParse), ParseJsonArray(record.allowedRoles, jsonParse)))
  {
    if claims.Some? && ExtractDatabaseId(path, url).Some? {
      var id := ExtractDatabaseId(path, url).value;
      if findOne(id).Found? {
        var record := findOne(id).record;
        DecideIff(claims.value, ParseJsonArray(record.allowedGroups, jsonParse), ParseJsonArray(record.allowedRoles, jsonParse));
      }
    }
  }

  /**
   * The request reaches its handler exactly when it is unauthenticated, unscoped, names an
   * unknown database, names an unrestricted one, or the caller overlaps its lists. A failing
   * directory never lets the request through.
   */
  lemma NextIffPermitted(claims: Option<Identity>, path: string, url: string,
                         findOne: string -> Lookup, jsonParse: string -> Option<Json>)
    ensures var id := ExtractDatabaseId(path, url);
      Use(claims, path, url, findOne, jsonParse).verdict == Next <==>
        || claims.None?
        || id.None?
        || findOne(id.value).NotFound?
        || (findOne(id.value).Found?
            && var record := findOne(id.value).record;
            var groups := ParseJsonArray(record.allowedGroups, jsonParse);
            var roles := ParseJsonArray(record.allowedRoles, jsonParse);
            !Restricted(groups, roles) || Overlaps(claims.value, groups, roles))
    ensures claims.Some? && ExtractDatabaseId(path, url).Some? && findOne(ExtractDatabaseId(path, url).value).LookupFailed? ==>
      Use(claims, path, url, findOne, jsonParse).verdict == Fault
  {
    var id := ExtractDatabaseId(path, url);
    if claims.Some? && id.Some? && findOne(id.value).Found? {
      var record := findOne(id.value).record;
      DecideIff(claims.value, ParseJsonArray(record.allowedGroups, jsonParse), ParseJsonArray(record.allowedRoles, jsonParse));
    }
  }

  /**
   * The two documented outcomes for a database restricted to the `admin` role: a caller with
   * that role is let through, a `viewer` is refused.
   */
  lemma AdminAllowedViewerRefused(path: string, url: string, findOne: string -> Lookup, jsonParse: string -> Option<Json>)
    requires ExtractDatabaseId(path, url).Some?
    requires findOne(ExtractDatabaseId(path, url).value)
      == Found(DatabaseRecord(ExtractDatabaseId(path, url).value, JArr([]), JArr([JStr("admin")])))
    ensures Use(Some(Identity(None, None, None, JArr([JStr("admin")]), [])), path, url, findOne, jsonParse).verdict == Next
    ensures Use(Some(Identity(None, None, None, JArr([JStr("viewer")]), [])), path, url, findOne, jsonParse).verdict == Forbidden
  {
    var allowed := [JStr("admin")];
    assert ParseJsonArray(JArr(allowed), jsonParse) == allowed;
    assert Includes(allowed, JStr("admin"));
    assert AnyIncluded([JStr("admin")], allowed);
    assert !Includes(allowed, JStr("viewer"));
    assert !AnyIncluded([JStr("viewer")], allowed);
  }
}
