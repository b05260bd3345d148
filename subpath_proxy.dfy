/**
 * subpath-proxy.middleware.ts: on every request the middleware replaces `res.sendFile` with a
 * version that, for `.html` and `.js` files, sends the file's text with its placeholders
 * filled in: the proxy sub-path (so the UI works behind a reverse proxy) and, when Keycloak is
 * configured, the realm's URL, name and client id (so the UI can start the login flow). The
 * rewrite is a chain of global `String.prototype.replace` calls with string replacements,
 * whose `$` patterns are part of the model.
 */
module SubpathProxy {
  import opened Wrappers
  import opened Text
  import KeycloakConfig

  // ---------------------------------------------------------------------------------------
  // Global replace with a string replacement
  // ---------------------------------------------------------------------------------------

  /**
   * The regular expressions the middleware uses: a literal, optionally preceded by one
   * occurrence of a character (`/\/?__RIPROXYPATH__/g` has the prefix `/`).
   */
  datatype Pattern = Pattern(optionalPrefix: Option<char>, literal: string)

  /**
   * The length of the match of `p` at the front of `s`, if any. `/?` is greedy: the prefix
   * character is consumed when the literal follows it, and otherwise the literal alone is tried.
   */
  function MatchAt(s: string, p: Pattern): (n: Option<nat>)
    ensures n.Some? ==> |p.literal| <= n.value <= |s|
    ensures n.Some? && p.optionalPrefix.None? ==> n.value == |p.literal| && s[..n.value] == p.literal
  {
    if p.optionalPrefix.Some? && s != [] && s[0] == p.optionalPrefix.value && StartsWith(s[1..], p.literal) then
      Some(1 + |p.literal|)
    else if StartsWith(s, p.literal) then
      Some(|p.literal|)
    else
      None
  }

  /** No match of `p` starts at any of the first `count` positions of `s`. */
  predicate NoMatchBefore(s: string, count: nat, p: Pattern)
    requires count <= |s|
  {
    forall k :: 0 <= k < count ==> MatchAt(s[k..], p).None?
  }

  /** The `$` patterns a replacement can use when the expression has no capture groups. */
  predicate IsSubstitutionCode(c: char)
  {
    c == '$' || c == '&' || c == '`' || c == '\''
  }

  /**
   * The text a string replacement stands for at one match (GetSubstitution): `$$` is `$`,
   * `$&` the matched text, `` $` `` the text before the match and `$'` the text after it.
   * These expressions have no capture groups, so every other `$` is kept as it is.
   */
  function Expand(replacement: string, before: string, matched: string, after: string): string
    decreases |replacement|
  {
    if replacement == [] then []
    else if replacement[0] == '$' && |replacement| >= 2 && IsSubstitutionCode(replacement[1]) then
      (match replacement[1]
       case '$' => "$"
       case '&' => matched
       case '`' => before
       case _ => after)
      + Expand(replacement[2..], before, matched, after)
    else
      [replacement[0]] + Expand(replacement[1..], before, matched, after)
  }

  /** A replacement without `$` stands for itself, wherever the match is. */
  lemma {:induction false} ExpandLiteral(replacement: string)
    requires '$' !in replacement
    ensures forall before, matched, after :: Expand(replacement, before, matched, after) == replacement
    decreases |replacement|
  {
    if replacement != [] {
      assert '$' !in replacement[1..];
      ExpandLiteral(replacement[1..]);
      assert [replacement[0]] + replacement[1..] == replacement;
    }
  }

  /**
   * The global replace on the text `rest` still to scan, `before` being the text already
   * scanned (which `` $` `` refers to).
   */
  function ReplaceFrom(before: string, rest: string, p: Pattern, replacement: string): string
    requires p.literal != []
    decreases |rest|
  {
    if rest == [] then []
    else
      match MatchAt(rest, p)
      case Some(n) =>
        Expand(replacement, before, rest[..n], rest[n..]) + ReplaceFrom(before + rest[..n], rest[n..], p, replacement)
      case None =>
        [rest[0]] + ReplaceFrom(before + [rest[0]], rest[1..], p, replacement)
  }

  /** `s.replace(/p/g, replacement)`. */
  function ReplaceAll(s: string, p: Pattern, replacement: string): string
    requires p.literal != []
  {
    ReplaceFrom([], s, p, replacement)
  }

  /** Where nothing matches, the scan copies the text. */
  lemma {:induction false} ReplaceFromNoMatch(before: string, rest: string, p: Pattern, replacement: string)
    requires p.literal != [] && NoMatchBefore(rest, |rest|, p)
    ensures ReplaceFrom(before, rest, p, replacement) == rest
    decreases |rest|
  {
    if rest != [] {
      assert rest[0..] == rest;
      assert NoMatchBefore(rest[1..], |rest| - 1, p) by {
        forall k | 0 <= k < |rest| - 1 ensures MatchAt(rest[1..][k..], p).None? {
          assert rest[1..][k..] == rest[k + 1..];
        }
      }
      ReplaceFromNoMatch(before + [rest[0]], rest[1..], p, replacement);
      assert [rest[0]] + rest[1..] == rest;
    }
  }

  /** Text in which the pattern matches nowhere is returned unchanged. */
  lemma ReplaceAllNoMatch(s: string, p: Pattern, replacement: string)
    requires p.literal != [] && NoMatchBefore(s, |s|, p)
    ensures ReplaceAll(s, p, replacement) == s
  {
    ReplaceFromNoMatch([], s, p, replacement);
  }

  /** With a replacement free of `$`, the text already scanned has no say in the rest. */
  lemma {:induction false} ReplaceFromAnyBefore(b1: string, b2: string, rest: string, p: Pattern, replacement: string)
    requires p.literal != [] && '$' !in replacement
    ensures ReplaceFrom(b1, rest, p, replacement) == ReplaceFrom(b2, rest, p, replacement)
    decreases |rest|
  {
    if rest != [] {
      match MatchAt(rest, p)
      case Some(n) =>
        ExpandLiteral(replacement);
        ReplaceFromAnyBefore(b1 + rest[..n], b2 + rest[..n], rest[n..], p, replacement);
      case None =>
        ReplaceFromAnyBefore(b1 + [rest[0]], b2 + [rest[0]], rest[1..], p, replacement);
    }
  }

  /** No match starts inside `u` when `w` follows it. */
  predicate NoMatchInside(u: string, w: string, p: Pattern)
  {
    forall k :: 0 <= k < |u| ==> MatchAt(u[k..] + w, p).None?
  }

  /** Scanning copies a prefix in which no match starts. */
  lemma {:induction false} CopyUntil(before: string, u: string, w: string, p: Pattern, replacement: string)
    requires p.literal != [] && NoMatchInside(u, w, p)
    ensures ReplaceFrom(before, u + w, p, replacement) == u + ReplaceFrom(before + u, w, p, replacement)
    decreases |u|
  {
    if u == [] {
      assert u + w == w;
      assert before + u == before;
    } else {
      assert u[0..] == u;
      assert MatchAt(u + w, p).None?;
      assert (u + w)[1..] == u[1..] + w;
      assert NoMatchInside(u[1..], w, p) by {
        forall k | 0 <= k < |u| - 1 ensures MatchAt(u[1..][k..] + w, p).None? {
          assert u[1..][k..] == u[k + 1..];
        }
      }
      CopyUntil(before + [u[0]], u[1..], w, p, replacement);
      assert before + [u[0]] + u[1..] == before + u;
      assert [u[0]] + u[1..] == u;
    }
  }

  /** Global replace copies text in which no match starts and carries on behind it. */
  lemma ReplaceAllSplits(u: string, w: string, p: Pattern, replacement: string)
    requires p.literal != [] && '$' !in replacement
    requires NoMatchInside(u, w, p)
    ensures ReplaceAll(u + w, p, replacement) == u + ReplaceAll(w, p, replacement)
  {
    CopyUntil([], u, w, p, replacement);
    ReplaceFromAnyBefore([] + u, [], w, p, replacement);
  }

  /** A match at the front becomes the replacement, and replacing resumes behind it. */
  lemma ReplaceAllFrontMatch(w: string, p: Pattern, replacement: string)
    requires p.literal != [] && '$' !in replacement
    requires MatchAt(w, p).Some?
    ensures ReplaceAll(w, p, replacement) == replacement + ReplaceAll(w[MatchAt(w, p).value..], p, replacement)
  {
    var n := MatchAt(w, p).value;
    assert w != [];
    ExpandLiteral(replacement);
    assert [] + w[..n] == w[..n];
    ReplaceFromAnyBefore(w[..n], [], w[n..], p, replacement);
  }

  // ---------------------------------------------------------------------------------------
  // The rewrite
  // ---------------------------------------------------------------------------------------

  const ProxyPlaceholder: string := "__RIPROXYPATH__"

  /** `/\/?__RIPROXYPATH__/g`. */
  const ProxyPattern: Pattern := Pattern(Some('/'), ProxyPlaceholder)

  const KeycloakUrlPlaceholder: string := "__RI_KEYCLOAK_URL__"

  const KeycloakRealmPlaceholder: string := "__RI_KEYCLOAK_REALM__"

  const KeycloakClientIdPlaceholder: string := "__RI_KEYCLOAK_CLIENT_ID__"

  /** `trim(process.env.RI_PROXY_PATH, '/')`; lodash trims an unset value to `''`. */
  function ProxyPath(env: KeycloakConfig.Env): (path: string)
    ensures path == [] || (path[0] != '/' && path[|path| - 1] != '/')
    ensures "RI_PROXY_PATH" !in env ==> path == []
  {
    if "RI_PROXY_PATH" in env then Trim(env["RI_PROXY_PATH"], '/') else []
  }

  /**
   * The proxy path is the variable with the runs of slashes around it removed: a path
   * written with any number of slashes on either side gives the bare path.
   */
  lemma ProxyPathOfVariable(env: KeycloakConfig.Env, a: string, path: string, b: string)
    requires "RI_PROXY_PATH" in env && env["RI_PROXY_PATH"] == a + path + b
    requires AllOf(a, '/') && AllOf(b, '/')
    requires path == [] || (path[0] != '/' && path[|path| - 1] != '/')
    ensures ProxyPath(env) == path
  {
    TrimPadded(a, path, b, '/');
  }

  /** `proxyPath ? '/' + proxyPath : ''`. */
  function ProxyReplacement(proxyPath: string): string
  {
    if proxyPath == [] then [] else "/" + proxyPath
  }

  /**
   * The sub-path a template refers to is absolute and carries no trailing slash, whatever
   * slashes the variable was given with: either nothing, or one `/` and a non-slash end.
   */
  lemma ProxyReplacementShape(env: KeycloakConfig.Env)
    ensures var r := ProxyReplacement(ProxyPath(env));
      r == [] || (|r| >= 2 && r[0] == '/' && r[1] != '/' && r[|r| - 1] != '/')
  {
  }

  /**
   * `/?` is greedy: `__RIPROXYPATH__` and `/__RIPROXYPATH__` at the front are each one match
   * (the slash is consumed with the placeholder), while at `//` nothing matches yet.
   */
  lemma ProxyMatchAtFront(v: string)
    ensures MatchAt(ProxyPlaceholder + v, ProxyPattern) == Some(|ProxyPlaceholder|)
    ensures MatchAt("/" + (ProxyPlaceholder + v), ProxyPattern) == Some(1 + |ProxyPlaceholder|)
    ensures MatchAt("//" + (ProxyPlaceholder + v), ProxyPattern).None?
  {
    var w0 := ProxyPlaceholder + v;
    assert w0[..|ProxyPlaceholder|] == ProxyPlaceholder;
    var w1 := "/" + w0;
    assert w1[1..] == w0;
    var w2 := "//" + w0;
    assert w2[1..][..|ProxyPlaceholder|][0] == '/';
    assert w2[..|ProxyPlaceholder|][0] == '/';
  }

  /**
   * The placeholder absorbs at most one slash in front of it: `__RIPROXYPATH__` and
   * `/__RIPROXYPATH__` both become the replacement, and replacing goes on behind them ...
   */
  lemma PlaceholderReplaced(v: string, r: string)
    requires '$' !in r
    ensures ReplaceAll(ProxyPlaceholder + v, ProxyPattern, r) == r + ReplaceAll(v, ProxyPattern, r)
    ensures ReplaceAll("/" + (ProxyPlaceholder + v), ProxyPattern, r) == r + ReplaceAll(v, ProxyPattern, r)
  {
    ProxyMatchAtFront(v);
    var w0 := ProxyPlaceholder + v;
    assert w0[|ProxyPlaceholder|..] == v;
    ReplaceAllFrontMatch(w0, ProxyPattern, r);
    var w1 := "/" + w0;
    assert w1[1 + |ProxyPlaceholder|..] == v;
    ReplaceAllFrontMatch(w1, ProxyPattern, r);
  }

  /** ... and of `//__RIPROXYPATH__` the first slash stays. */
  lemma SecondSlashKept(v: string, r: string)
    requires '$' !in r
    ensures ReplaceAll("//" + (ProxyPlaceholder + v), ProxyPattern, r) == "/" + (r + ReplaceAll(v, ProxyPattern, r))
  {
    ProxyMatchAtFront(v);
    var w1 := "/" + (ProxyPlaceholder + v);
    var w2 := "/" + w1;
    assert w2 == "//" + (ProxyPlaceholder + v);
    assert "/"[0..] + w1 == w2;
    assert NoMatchInside("/", w1, ProxyPattern);
    ReplaceAllSplits("/", w1, ProxyPattern, r);
    PlaceholderReplaced(v, r);
  }

  /** The rewrite of one template's text (lines 20-31). */
  function Rewrite(content: string, proxyPath: string, keycloak: Option<KeycloakConfig.Config>): string
  {
    var proxied := ReplaceAll(content, ProxyPattern, ProxyReplacement(proxyPath));
    match keycloak
    case None => proxied
    case Some(cfg) =>
      var withUrl := ReplaceAll(proxied, Pattern(None, KeycloakUrlPlaceholder), cfg.url);
      var withRealm := ReplaceAll(withUrl, Pattern(None, KeycloakRealmPlaceholder), cfg.realm);
      ReplaceAll(withRealm, Pattern(None, KeycloakClientIdPlaceholder), cfg.clientId)
  }

  /** `literal` occurs somewhere in `s`. */
  predicate Occurs(literal: string, s: string)
  {
    exists k :: 0 <= k <= |s| && StartsWith(s[k..], literal)
  }

  /** A text lacking one of the literal's characters cannot start with the literal. */
  lemma LiteralNeedsItsCharacters(t: string, literal: string, c: char)
    requires c in literal && c !in t
    ensures !StartsWith(t, literal)
  {
    if |literal| <= |t| {
      assert c !in t[..|literal|];
    }
  }

  /** A pattern matches nowhere in a text that lacks one of its literal's characters. */
  lemma NoMatchWithoutCharacter(s: string, p: Pattern, c: char)
    requires c in p.literal && c !in s
    ensures NoMatchBefore(s, |s|, p)
  {
    forall k | 0 <= k < |s| ensures MatchAt(s[k..], p).None? {
      LiteralNeedsItsCharacters(s[k..], p.literal, c);
      LiteralNeedsItsCharacters(s[k..][1..], p.literal, c);
    }
  }

  /** Replacing a literal that does not occur leaves the text as it is. */
  lemma ReplaceAbsent(s: string, literal: string, replacement: string)
    requires literal != [] && !Occurs(literal, s)
    ensures ReplaceAll(s, Pattern(None, literal), replacement) == s
  {
    forall k | 0 <= k < |s| ensures MatchAt(s[k..], Pattern(None, literal)).None? {
    }
    ReplaceAllNoMatch(s, Pattern(None, literal), replacement);
  }

  /** A placeholder standing alone becomes a `$`-free replacement. */
  lemma ReplaceWhole(literal: string, replacement: string)
    requires literal != [] && '$' !in replacement
    ensures ReplaceAll(literal, Pattern(None, literal), replacement) == replacement
  {
    assert literal[..|literal|] == literal;
    ReplaceAllFrontMatch(literal, Pattern(None, literal), replacement);
    assert literal[|literal|..] == [];
  }

  /** None of the Keycloak placeholders contains the proxy placeholder (none has a `P`). */
  lemma KeycloakPlaceholdersWithoutProxyMatch()
    ensures NoMatchBefore(KeycloakUrlPlaceholder, |KeycloakUrlPlaceholder|, ProxyPattern)
    ensures NoMatchBefore(KeycloakRealmPlaceholder, |KeycloakRealmPlaceholder|, ProxyPattern)
    ensures NoMatchBefore(KeycloakClientIdPlaceholder, |KeycloakClientIdPlaceholder|, ProxyPattern)
  {
    assert ProxyPattern.literal[4] == 'P';
    NoMatchWithoutCharacter(KeycloakUrlPlaceholder, ProxyPattern, 'P');
    NoMatchWithoutCharacter(KeycloakRealmPlaceholder, ProxyPattern, 'P');
    NoMatchWithoutCharacter(KeycloakClientIdPlaceholder, ProxyPattern, 'P');
  }

  /** The URL placeholder has no `M`, so the realm placeholder does not occur in it. */
  lemma RealmNotInUrlPlaceholder()
    ensures NoMatchBefore(KeycloakUrlPlaceholder, |KeycloakUrlPlaceholder|, Pattern(None, KeycloakRealmPlaceholder))
  {
    assert KeycloakRealmPlaceholder[18] == 'M';
    NoMatchWithoutCharacter(KeycloakUrlPlaceholder, Pattern(None, KeycloakRealmPlaceholder), 'M');
  }

  /** The URL placeholder has no `N`, so the client-id placeholder does not occur in it. */
  lemma ClientIdNotInUrlPlaceholder()
    ensures NoMatchBefore(KeycloakUrlPlaceholder, |KeycloakUrlPlaceholder|, Pattern(None, KeycloakClientIdPlaceholder))
  {
    assert KeycloakClientIdPlaceholder[18] == 'N';
    NoMatchWithoutCharacter(KeycloakUrlPlaceholder, Pattern(None, KeycloakClientIdPlaceholder), 'N');
  }

  /** The realm placeholder has no `U`. */
  lemma UrlNotInRealmPlaceholder()
    ensures NoMatchBefore(KeycloakRealmPlaceholder, |KeycloakRealmPlaceholder|, Pattern(None, KeycloakUrlPlaceholder))
  {
    assert KeycloakUrlPlaceholder[14] == 'U';
    NoMatchWithoutCharacter(KeycloakRealmPlaceholder, Pattern(None, KeycloakUrlPlaceholder), 'U');
  }

  /** The realm placeholder has no `N`. */
  lemma ClientIdNotInRealmPlaceholder()
    ensures NoMatchBefore(KeycloakRealmPlaceholder, |KeycloakRealmPlaceholder|, Pattern(None, KeycloakClientIdPlaceholder))
  {
    assert KeycloakClientIdPlaceholder[18] == 'N';
    NoMatchWithoutCharacter(KeycloakRealmPlaceholder, Pattern(None, KeycloakClientIdPlaceholder), 'N');
  }

  /** The client-id placeholder has no `U`. */
  lemma UrlNotInClientIdPlaceholder()
    ensures NoMatchBefore(KeycloakClientIdPlaceholder, |KeycloakClientIdPlaceholder|, Pattern(None, KeycloakUrlPlaceholder))
  {
    assert KeycloakUrlPlaceholder[14] == 'U';
    NoMatchWithoutCharacter(KeycloakClientIdPlaceholder, Pattern(None, KeycloakUrlPlaceholder), 'U');
  }

  /** The client-id placeholder has no `M`. */
  lemma RealmNotInClientIdPlaceholder()
    ensures NoMatchBefore(KeycloakClientIdPlaceholder, |KeycloakClientIdPlaceholder|, Pattern(None, KeycloakRealmPlaceholder))
  {
    assert KeycloakRealmPlaceholder[18] == 'M';
    NoMatchWithoutCharacter(KeycloakClientIdPlaceholder, Pattern(None, KeycloakRealmPlaceholder), 'M');
  }

  /**
   * Without a Keycloak configuration only the proxy placeholder is touched, and text without
   * any placeholder goes out exactly as read. The Keycloak stage touches nothing but its
   * placeholders: where the proxied text holds none of them, a configuration changes nothing.
   */
  lemma RewriteWithoutKeycloak(content: string, proxyPath: string, cfg: KeycloakConfig.Config)
    ensures NoMatchBefore(content, |content|, ProxyPattern) ==>
      Rewrite(content, proxyPath, None) == content
    ensures var proxied := ReplaceAll(content, ProxyPattern, ProxyReplacement(proxyPath));
      !Occurs(KeycloakUrlPlaceholder, proxied) && !Occurs(KeycloakRealmPlaceholder, proxied)
        && !Occurs(KeycloakClientIdPlaceholder, proxied) ==>
      Rewrite(content, proxyPath, Some(cfg)) == Rewrite(content, proxyPath, None)
  {
    if NoMatchBefore(content, |content|, ProxyPattern) {
      ReplaceAllNoMatch(content, ProxyPattern, ProxyReplacement(proxyPath));
    }
    var proxied := ReplaceAll(content, ProxyPattern, ProxyReplacement(proxyPath));
    if !Occurs(KeycloakUrlPlaceholder, proxied) && !Occurs(KeycloakRealmPlaceholder, proxied)
       && !Occurs(KeycloakClientIdPlaceholder, proxied) {
      ReplaceAbsent(proxied, KeycloakUrlPlaceholder, cfg.url);
      ReplaceAbsent(proxied, KeycloakRealmPlaceholder, cfg.realm);
      ReplaceAbsent(proxied, KeycloakClientIdPlaceholder, cfg.clientId);
    }
  }

  /**
   * In a template the proxy placeholder, with at most one slash in front of it, becomes the
   * sub-path of `RI_PROXY_PATH` (`/path`, or nothing when it is unset), and rewriting goes on
   * behind it; of `//__RIPROXYPATH__` the first slash stays. A `$` in the variable is read as
   * a replacement pattern (see `DollarInProxyPathExpanded`), so the promise needs a path without one.
   */
  lemma ProxyPlaceholderRewritten(env: KeycloakConfig.Env, v: string)
    requires '$' !in ProxyPath(env)
    ensures var pp, r := ProxyPath(env), ProxyReplacement(ProxyPath(env));
      && Rewrite(ProxyPlaceholder + v, pp, None) == r + Rewrite(v, pp, None)
      && Rewrite("/" + (ProxyPlaceholder + v), pp, None) == r + Rewrite(v, pp, None)
      && Rewrite("//" + (ProxyPlaceholder + v), pp, None) == "/" + (r + Rewrite(v, pp, None))
  {
    var r := ProxyReplacement(ProxyPath(env));
    assert '$' !in r;
    PlaceholderReplaced(v, r);
    SecondSlashKept(v, r);
  }

  /**
   * The sub-path is a replacement string as well: with `RI_PROXY_PATH=$&` the replacement is
   * `/$&`, which stands for a slash and the matched text, so the placeholder comes back behind
   * a slash instead of becoming `/$&`.
   */
  lemma DollarInProxyPathExpanded(env: KeycloakConfig.Env)
    requires "RI_PROXY_PATH" in env && env["RI_PROXY_PATH"] == "$&"
    ensures ProxyReplacement(ProxyPath(env)) == "/$&"
    ensures Rewrite(ProxyPlaceholder, ProxyPath(env), None) == "/" + ProxyPlaceholder
    ensures Rewrite(ProxyPlaceholder, ProxyPath(env), None) != ProxyReplacement(ProxyPath(env))
  {
    assert [] + "$&" + [] == "$&";
    ProxyPathOfVariable(env, [], "$&", []);
    var w := ProxyPlaceholder;
    var n := |w|;
    ProxyMatchAtFront([]);
    assert w + [] == w;
    assert w[..n] == w && w[n..] == [];
    assert "/$&"[1..] == "$&" && "$&"[2..] == [];
    assert Expand("$&", [], w, []) == w + Expand([], [], w, []);
    assert Expand("/$&", [], w, []) == "/" + Expand("$&", [], w, []);
    assert ReplaceFrom([], w, ProxyPattern, "/$&")
        == Expand("/$&", [], w[..n], w[n..]) + ReplaceFrom([] + w[..n], w[n..], ProxyPattern, "/$&");
  }

  /** Without a configuration the three Keycloak placeholders are sent as they are. */
  lemma KeycloakPlaceholdersKeptWithoutConfig(proxyPath: string)
    ensures Rewrite(KeycloakUrlPlaceholder, proxyPath, None) == KeycloakUrlPlaceholder
    ensures Rewrite(KeycloakRealmPlaceholder, proxyPath, None) == KeycloakRealmPlaceholder
    ensures Rewrite(KeycloakClientIdPlaceholder, proxyPath, None) == KeycloakClientIdPlaceholder
  {
    KeycloakPlaceholdersWithoutProxyMatch();
    ReplaceAllNoMatch(KeycloakUrlPlaceholder, ProxyPattern, ProxyReplacement(proxyPath));
    ReplaceAllNoMatch(KeycloakRealmPlaceholder, ProxyPattern, ProxyReplacement(proxyPath));
    ReplaceAllNoMatch(KeycloakClientIdPlaceholder, ProxyPattern, ProxyReplacement(proxyPath));
  }

  /** With a configuration `__RI_KEYCLOAK_URL__` becomes the URL ... */
  lemma KeycloakUrlInjected(cfg: KeycloakConfig.Config, proxyPath: string)
    requires '$' !in cfg.url
    requires !Occurs(KeycloakRealmPlaceholder, cfg.url) && !Occurs(KeycloakClientIdPlaceholder, cfg.url)
    ensures Rewrite(KeycloakUrlPlaceholder, proxyPath, Some(cfg)) == cfg.url
  {
    KeycloakPlaceholdersWithoutProxyMatch();
    ReplaceAllNoMatch(KeycloakUrlPlaceholder, ProxyPattern, ProxyReplacement(proxyPath));
    ReplaceWhole(KeycloakUrlPlaceholder, cfg.url);
    ReplaceAbsent(cfg.url, KeycloakRealmPlaceholder, cfg.realm);
    ReplaceAbsent(cfg.url, KeycloakClientIdPlaceholder, cfg.clientId);
  }

  /** ... `__RI_KEYCLOAK_REALM__` the realm ... */
  lemma KeycloakRealmInjected(cfg: KeycloakConfig.Config, proxyPath: string)
    requires '$' !in cfg.realm
    requires !Occurs(KeycloakClientIdPlaceholder, cfg.realm)
    ensures Rewrite(KeycloakRealmPlaceholder, proxyPath, Some(cfg)) == cfg.realm
  {
    KeycloakPlaceholdersWithoutProxyMatch();
    UrlNotInRealmPlaceholder();
    ReplaceAllNoMatch(KeycloakRealmPlaceholder, ProxyPattern, ProxyReplacement(proxyPath));
    ReplaceAllNoMatch(KeycloakRealmPlaceholder, Pattern(None, KeycloakUrlPlaceholder), cfg.url);
    ReplaceWhole(KeycloakRealmPlaceholder, cfg.realm);
    ReplaceAbsent(cfg.realm, KeycloakClientIdPlaceholder, cfg.clientId);
  }

  /** ... and `__RI_KEYCLOAK_CLIENT_ID__` the client id. */
  lemma KeycloakClientIdInjected(cfg: KeycloakConfig.Config, proxyPath: string)
    requires '$' !in cfg.clientId
    ensures Rewrite(KeycloakClientIdPlaceholder, proxyPath, Some(cfg)) == cfg.clientId
  {
    KeycloakPlaceholdersWithoutProxyMatch();
    UrlNotInClientIdPlaceholder();
    RealmNotInClientIdPlaceholder();
    ReplaceAllNoMatch(KeycloakClientIdPlaceholder, ProxyPattern, ProxyReplacement(proxyPath));
    ReplaceAllNoMatch(KeycloakClientIdPlaceholder, Pattern(None, KeycloakUrlPlaceholder), cfg.url);
    ReplaceAllNoMatch(KeycloakClientIdPlaceholder, Pattern(None, KeycloakRealmPlaceholder), cfg.realm);
    ReplaceWhole(KeycloakClientIdPlaceholder, cfg.clientId);
  }

  /**
   * With a configuration whose values hold no `$` and no later placeholder, each Keycloak
   * placeholder becomes its setting.
   */
  lemma KeycloakSettingsInjected(cfg: KeycloakConfig.Config, proxyPath: string)
    requires '$' !in cfg.url && '$' !in cfg.realm && '$' !in cfg.clientId
    requires !Occurs(KeycloakRealmPlaceholder, cfg.url) && !Occurs(KeycloakClientIdPlaceholder, cfg.url)
    requires !Occurs(KeycloakClientIdPlaceholder, cfg.realm)
    ensures Rewrite(KeycloakUrlPlaceholder, proxyPath, Some(cfg)) == cfg.url
    ensures Rewrite(KeycloakRealmPlaceholder, proxyPath, Some(cfg)) == cfg.realm
    ensures Rewrite(KeycloakClientIdPlaceholder, proxyPath, Some(cfg)) == cfg.clientId
  {
    KeycloakUrlInjected(cfg, proxyPath);
    KeycloakRealmInjected(cfg, proxyPath);
    KeycloakClientIdInjected(cfg, proxyPath);
  }

  /** `$&` as the replacement puts every match back: a placeholder standing alone stays. */
  lemma MatchedTextReplacement(literal: string)
    requires literal != []
    ensures ReplaceAll(literal, Pattern(None, literal), "$&") == literal
  {
    var n := |literal|;
    assert literal[..n] == literal && literal[n..] == [];
    assert MatchAt(literal, Pattern(None, literal)) == Some(n);
    assert "$&"[2..] == [];
    assert Expand("$&", [], literal, []) == literal + Expand([], [], literal, []);
    assert ReplaceFrom([], literal, Pattern(None, literal), "$&")
        == Expand("$&", [], literal[..n], literal[n..])
           + ReplaceFrom([] + literal[..n], literal[n..], Pattern(None, literal), "$&");
  }

  /**
   * A setting is a replacement string, not a literal: a URL written `$&` stands for the matched
   * text, so the page receives the placeholder back instead of the URL.
   */
  lemma DollarPatternInSettingExpanded(cfg: KeycloakConfig.Config, proxyPath: string)
    requires cfg.url == "$&"
    ensures Rewrite(KeycloakUrlPlaceholder, proxyPath, Some(cfg)) == KeycloakUrlPlaceholder
    ensures Rewrite(KeycloakUrlPlaceholder, proxyPath, Some(cfg)) != cfg.url
  {
    KeycloakPlaceholdersWithoutProxyMatch();
    RealmNotInUrlPlaceholder();
    ClientIdNotInUrlPlaceholder();
    ReplaceAllNoMatch(KeycloakUrlPlaceholder, ProxyPattern, ProxyReplacement(proxyPath));
    MatchedTextReplacement(KeycloakUrlPlaceholder);
    ReplaceAllNoMatch(KeycloakUrlPlaceholder, Pattern(None, KeycloakRealmPlaceholder), cfg.realm);
    ReplaceAllNoMatch(KeycloakUrlPlaceholder, Pattern(None, KeycloakClientIdPlaceholder), cfg.clientId);
  }

  // ---------------------------------------------------------------------------------------
  // The middleware
  // ---------------------------------------------------------------------------------------

  /**
   * What `res.sendFile` is: the framework's own, or the middleware's replacement, which
   * captured the proxy path, the Keycloak configuration and the function it replaced.
   */
  datatype SendFile =
    | FrameworkSendFile
    | Patched(proxyPath: string, keycloak: Option<KeycloakConfig.Config>, original: SendFile)

  /**
   * What a `sendFile(path, options, callback)` call does: send rewritten text; throw because
   * the template could not be read; or hand the call, callback included, to the framework,
   * which streams the file.
   */
  datatype FileResponse = SentText(content: string) | ReadThrew(path: string) | Streamed(path: string)

  predicate IsTemplate(path: string)
  {
    EndsWith(path, ".html") || EndsWith(path, ".js")
  }

  /**
   * A call `res.sendFile(path, options, callback)`; `readFile` is `fs.readFileSync(path, 'utf8')`,
   * `None` where it throws (a missing or unreadable file).
   */
  function CallSendFile(f: SendFile, path: string, readFile: string -> Option<string>): FileResponse
  {
    match f
    case FrameworkSendFile => Streamed(path)
    case Patched(proxyPath, keycloak, original) =>
      if IsTemplate(path) then
        match readFile(path)
        case None => ReadThrew(path)
        case Some(content) => SentText(Rewrite(content, proxyPath, keycloak))
      else CallSendFile(original, path, readFile)
  }

  /**
   * Only `.html` and `.js` files are rewritten; a template that cannot be read makes the call
   * throw before anything is sent. Either way a template never reaches the framework, so its
   * callback is never called. Every other file goes to the function that was replaced, as if
   * the middleware had not run.
   */
  lemma OnlyTemplatesRewritten(proxyPath: string, keycloak: Option<KeycloakConfig.Config>, original: SendFile,
                               path: string, readFile: string -> Option<string>)
    ensures IsTemplate(path) && readFile(path).Some? ==>
      CallSendFile(Patched(proxyPath, keycloak, original), path, readFile)
        == SentText(Rewrite(readFile(path).value, proxyPath, keycloak))
    ensures IsTemplate(path) && readFile(path).None? ==>
      CallSendFile(Patched(proxyPath, keycloak, original), path, readFile) == ReadThrew(path)
    ensures !IsTemplate(path) ==>
      CallSendFile(Patched(proxyPath, keycloak, original), path, readFile) == CallSendFile(original, path, readFile)
  {
  }

  /** The response object, with the one field the middleware overwrites. */
  class Response {
    var sendFile: SendFile
    /** How many times this request's `next()` has been called. */
    var nextCalls: nat

    constructor ()
      ensures sendFile == FrameworkSendFile && nextCalls == 0
    {
      sendFile := FrameworkSendFile;
      nextCalls := 0;
    }
  }

  /**
   * `use(req, res, next)`: reads the proxy path and the Keycloak configuration once, installs
   * the rewriting `sendFile` in front of the current one, and calls `next()` once. No file is
   * sent by the middleware itself.
   */
  method Use(res: Response, env: KeycloakConfig.Env)
    modifies res
    ensures res.sendFile == Patched(ProxyPath(env), KeycloakConfig.GetKeycloakConfig(env), old(res.sendFile))
    ensures res.nextCalls == old(res.nextCalls) + 1
  {
    var originalSendFile := res.sendFile;
    var proxyPath := ProxyPath(env);
    var keycloakConfig := KeycloakConfig.GetKeycloakConfig(env);
    res.sendFile := Patched(proxyPath, keycloakConfig, originalSendFile);
    res.nextCalls := res.nextCalls + 1;
  }
}
