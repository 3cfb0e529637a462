/** The gateway's access rules: an ordered list of (method, path patterns)
    rules, each leading to "permit" or "authenticated"; the first rule that
    matches a request decides, and a request no rule matches must be
    authenticated.

    A request path is its sequence of segments ("/api/movie/5" is
    ["api", "movie", "5"]). Every pattern in the table has the form
    /a/b followed by a double-star wildcard, which matches the path /a/b itself and everything below it;
    it is represented by its fixed segments ["a", "b"]. */
module SecurityConfig {
  import opened Common
  import opened GatewayRoutes

  type Path = seq<string>

  datatype Decision = Permit | Authenticated

  /** requestMatchers([method,] patterns...) followed by permitAll() or authenticated(). */
  datatype Rule = Rule(verb: Option<HttpMethod>, patterns: seq<Path>, decision: Decision)

  /** The pattern p with a trailing double-star wildcard matches path: p is a prefix of path. */
  predicate Under(p: Path, path: Path) {
    |p| <= |path| && path[..|p|] == p
  }

  /** Some pattern of the list matches path. */
  predicate AnyUnder(patterns: seq<Path>, path: Path) {
    patterns != [] && (Under(patterns[0], path) || AnyUnder(patterns[1..], path))
  }

  predicate RuleMatches(r: Rule, m: HttpMethod, path: Path) {
    (r.verb.None? || r.verb.value == m) && AnyUnder(r.patterns, path)
  }

  const RULES: seq<Rule> := [
    Rule(Some(OPTIONS), [[]], Permit),
    Rule(None, [["fallback"]], Permit),
    Rule(None, [["keycloak"]], Permit),
    Rule(None, [["api", "movie"], ["api", "movies"]], Permit),
    Rule(None, [["api", "achievement"]], Permit),
    Rule(Some(GET), [["api", "ratings"]], Permit),
    Rule(None, [["api", "sign"], ["api", "ratings"]], Authenticated)
  ]

  /** rules[i] matches and no earlier rule does. */
  predicate IsFirstMatch(rules: seq<Rule>, i: int, m: HttpMethod, path: Path) {
    0 <= i < |rules| && RuleMatches(rules[i], m, path) && forall j :: 0 <= j < i ==> !RuleMatches(rules[j], m, path)
  }

  /** The decision of the first matching rule, or None when none matches. */
  function FirstMatch(rules: seq<Rule>, m: HttpMethod, path: Path): (d: Option<Decision>)
    ensures d.None? <==> forall r :: r in rules ==> !RuleMatches(r, m, path)
    ensures d.Some? ==> exists i :: IsFirstMatch(rules, i, m, path) && rules[i].decision == d.value
  {
    if rules == [] then None
    else if RuleMatches(rules[0], m, path) then Some(rules[0].decision)
    else
      var rest := FirstMatch(rules[1..], m, path);
      if rest.Some? then
        var i :| IsFirstMatch(rules[1..], i, m, path) && rules[1..][i].decision == rest.value;
        assert IsFirstMatch(rules, i + 1, m, path);
        rest
      else rest
  }

  /** The decision for a request; anyRequest().authenticated() closes the table. */
  function Decide(m: HttpMethod, path: Path): Decision {
    FirstMatch(RULES, m, path).GetOr(Authenticated)
  }

  /** The requests that may pass without a token, stated directly. */
  predicate Public(m: HttpMethod, path: Path) {
    || m == OPTIONS
    || Under(["fallback"], path)
    || Under(["keycloak"], path)
    || Under(["api", "movie"], path)
    || Under(["api", "movies"], path)
    || Under(["api", "achievement"], path)
    || (m == GET && Under(["api", "ratings"], path))
  }

  lemma AnyUnderOne(p: Path, path: Path)
    ensures AnyUnder([p], path) <==> Under(p, path)
  {
    assert [p][1..] == [];
  }

  lemma AnyUnderTwo(p: Path, q: Path, path: Path)
    ensures AnyUnder([p, q], path) <==> Under(p, path) || Under(q, path)
  {
    assert [p, q][1..] == [q];
    AnyUnderOne(q, path);
  }

  /** When each rule of the table matches. */
  lemma RuleConditions(m: HttpMethod, path: Path)
    ensures RuleMatches(RULES[0], m, path) <==> m == OPTIONS
    ensures RuleMatches(RULES[1], m, path) <==> Under(["fallback"], path)
    ensures RuleMatches(RULES[2], m, path) <==> Under(["keycloak"], path)
    ensures RuleMatches(RULES[3], m, path) <==> Under(["api", "movie"], path) || Under(["api", "movies"], path)
    ensures RuleMatches(RULES[4], m, path) <==> Under(["api", "achievement"], path)
    ensures RuleMatches(RULES[5], m, path) <==> m == GET && Under(["api", "ratings"], path)
    ensures RuleMatches(RULES[6], m, path) <==> Under(["api", "sign"], path) || Under(["api", "ratings"], path)
  {
    assert Under([], path);
    AnyUnderOne([], path);
    AnyUnderOne(["fallback"], path);
    AnyUnderOne(["keycloak"], path);
    AnyUnderTwo(["api", "movie"], ["api", "movies"], path);
    AnyUnderOne(["api", "achievement"], path);
    AnyUnderOne(["api", "ratings"], path);
    AnyUnderTwo(["api", "sign"], ["api", "ratings"], path);
  }

  /** A matching rule decides d when it and every rule before it lead to d. */
  lemma {:induction false} FirstMatchWithin(rules: seq<Rule>, m: HttpMethod, path: Path, j: nat, d: Decision)
    requires j < |rules| && RuleMatches(rules[j], m, path)
    requires forall i :: 0 <= i <= j ==> rules[i].decision == d
    ensures FirstMatch(rules, m, path) == Some(d)
    decreases j
  {
    if !RuleMatches(rules[0], m, path) {
      assert j > 0;
      FirstMatchWithin(rules[1..], m, path, j - 1, d);
    }
  }

  /** Rules that do not match are passed over. */
  lemma {:induction false} FirstMatchSkips(rules: seq<Rule>, m: HttpMethod, path: Path, k: nat)
    requires k <= |rules|
    requires forall i :: 0 <= i < k ==> !RuleMatches(rules[i], m, path)
    ensures FirstMatch(rules, m, path) == FirstMatch(rules[k..], m, path)
    decreases k
  {
    if k > 0 {
      FirstMatchSkips(rules[1..], m, path, k - 1);
      assert rules[1..][k - 1..] == rules[k..];
    }
  }

  /** A match among the six permit rules decides Permit, whatever follows. */
  lemma EarlyMatchPermits(m: HttpMethod, path: Path, j: nat)
    requires j <= 5 && RuleMatches(RULES[j], m, path)
    ensures Decide(m, path) == Permit
  {
    FirstMatchWithin(RULES, m, path, j, Permit);
  }

  lemma PublicIsPermitted(m: HttpMethod, path: Path)
    requires Public(m, path)
    ensures Decide(m, path) == Permit
  {
    RuleConditions(m, path);
    if m == OPTIONS {
      EarlyMatchPermits(m, path, 0);
    } else if Under(["fallback"], path) {
      EarlyMatchPermits(m, path, 1);
    } else if Under(["keycloak"], path) {
      EarlyMatchPermits(m, path, 2);
    } else if Under(["api", "movie"], path) || Under(["api", "movies"], path) {
      EarlyMatchPermits(m, path, 3);
    } else if Under(["api", "achievement"], path) {
      EarlyMatchPermits(m, path, 4);
    } else {
      EarlyMatchPermits(m, path, 5);
    }
  }

  lemma NonPublicNeedsAuthentication(m: HttpMethod, path: Path)
    requires !Public(m, path)
    ensures Decide(m, path) == Authenticated
  {
    RuleConditions(m, path);
    FirstMatchSkips(RULES, m, path, 6);
    assert RULES[6..] == [RULES[6]];
  }

  /** The rule table permits exactly the public requests. */
  lemma DecideIsPublic(m: HttpMethod, path: Path)
    ensures Decide(m, path) == Permit <==> Public(m, path)
  {
    if Public(m, path) {
      PublicIsPermitted(m, path);
    } else {
      NonPublicNeedsAuthentication(m, path);
    }
  }

  /** A CORS preflight is always let through. */
  lemma OptionsAlwaysPermitted(path: Path)
    ensures Decide(OPTIONS, path) == Permit
  {
    DecideIsPublic(OPTIONS, path);
  }

  /** The fallback, Keycloak, movie and achievement trees are open to every method. */
  lemma PublicTreesOpenToAllMethods(m: HttpMethod, rest: Path)
    ensures Decide(m, ["fallback"] + rest) == Permit
    ensures Decide(m, ["keycloak"] + rest) == Permit
    ensures Decide(m, ["api", "movie"] + rest) == Permit
    ensures Decide(m, ["api", "movies"] + rest) == Permit
    ensures Decide(m, ["api", "achievement"] + rest) == Permit
  {
    DecideIsPublic(m, ["fallback"] + rest);
    assert (["fallback"] + rest)[..1] == ["fallback"];
    DecideIsPublic(m, ["keycloak"] + rest);
    assert (["keycloak"] + rest)[..1] == ["keycloak"];
    DecideIsPublic(m, ["api", "movie"] + rest);
    assert (["api", "movie"] + rest)[..2] == ["api", "movie"];
    DecideIsPublic(m, ["api", "movies"] + rest);
    assert (["api", "movies"] + rest)[..2] == ["api", "movies"];
    DecideIsPublic(m, ["api", "achievement"] + rest);
    assert (["api", "achievement"] + rest)[..2] == ["api", "achievement"];
  }

  /** Reading ratings is public; changing them needs a token (OPTIONS aside):
      the GET rule comes before the authenticated rule. */
  lemma RatingsReadPublicWriteAuthenticated(m: HttpMethod, rest: Path)
    ensures Decide(GET, ["api", "ratings"] + rest) == Permit
    ensures m != GET && m != OPTIONS ==> Decide(m, ["api", "ratings"] + rest) == Authenticated
  {
    var path := ["api", "ratings"] + rest;
    assert path[..2] == ["api", "ratings"];
    assert path[..1] == ["api"];
    DecideIsPublic(GET, path);
    DecideIsPublic(m, path);
  }

  /** Check-ins always need a token, except for a CORS preflight. */
  lemma SignAlwaysAuthenticated(m: HttpMethod, rest: Path)
    requires m != OPTIONS
    ensures Decide(m, ["api", "sign"] + rest) == Authenticated
  {
    var path := ["api", "sign"] + rest;
    assert path[..2] == ["api", "sign"];
    assert path[..1] == ["api"];
    DecideIsPublic(m, path);
  }

  /** The plural /api/achievements tree matches no permit rule and falls to
      anyRequest().authenticated(). */
  lemma PluralAchievementsAuthenticated(m: HttpMethod, rest: Path)
    requires m != OPTIONS
    ensures Decide(m, ["api", "achievements"] + rest) == Authenticated
  {
    var path := ["api", "achievements"] + rest;
    assert path[..2] == ["api", "achievements"];
    assert path[..1] == ["api"];
    DecideIsPublic(m, path);
  }
}
