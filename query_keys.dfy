/** The query-cache keys of the front end.

    Each key is an array whose first element names its namespace; the
    parameterised keys add a kind and their arguments. A missing page
    argument (None) takes the default page 1. */
module QueryKeys {
  import opened Common
  import opened BrowserStorage

  type Key = seq<Json>

  const DEFAULT_PAGE: Json := JNumber(1)

  /** The key constructors; each one is a call of a queryKeys member. */
  datatype KeyCall =
    | AuthCurrentUser
    | MoviesAll
    | MoviesPopular(page: Option<Json>)
    | MoviesSearch(query: Json, page: Option<Json>)
    | MoviesDetail(id: Json)
    | RatingsAll
    | RatingsUser(userId: Json)
    | RatingsMovie(movieId: Json)
    | SignAll
    | SignUserHistory(userId: Json)
    | AchievementsAll
    | AchievementsUser(userId: Json)

  function KeyOf(c: KeyCall): Key {
    match c
    case AuthCurrentUser => [JString("auth"), JString("currentUser")]
    case MoviesAll => [JString("movies")]
    case MoviesPopular(page) => [JString("movies"), JString("popular"), page.GetOr(DEFAULT_PAGE)]
    case MoviesSearch(query, page) => [JString("movies"), JString("search"), query, page.GetOr(DEFAULT_PAGE)]
    case MoviesDetail(id) => [JString("movies"), JString("detail"), id]
    case RatingsAll => [JString("ratings")]
    case RatingsUser(userId) => [JString("ratings"), JString("user"), userId]
    case RatingsMovie(movieId) => [JString("ratings"), JString("movie"), movieId]
    case SignAll => [JString("sign")]
    case SignUserHistory(userId) => [JString("sign"), JString("user"), userId]
    case AchievementsAll => [JString("achievements")]
    case AchievementsUser(userId) => [JString("achievements"), JString("user"), userId]
  }

  /** The `all` key of the namespace a constructor belongs to; the auth
      namespace has none. */
  function Namespace(c: KeyCall): Option<KeyCall> {
    match c
    case AuthCurrentUser => None
    case MoviesAll | MoviesPopular(_) | MoviesSearch(_, _) | MoviesDetail(_) => Some(MoviesAll)
    case RatingsAll | RatingsUser(_) | RatingsMovie(_) => Some(RatingsAll)
    case SignAll | SignUserHistory(_) => Some(SignAll)
    case AchievementsAll | AchievementsUser(_) => Some(AchievementsAll)
  }

  /** The call with its default page filled in. */
  function WithDefaults(c: KeyCall): KeyCall {
    match c
    case MoviesPopular(page) => MoviesPopular(Some(page.GetOr(DEFAULT_PAGE)))
    case MoviesSearch(query, page) => MoviesSearch(query, Some(page.GetOr(DEFAULT_PAGE)))
    case _ => c
  }

  predicate IsPrefix(p: Key, k: Key) {
    |p| <= |k| && k[..|p|] == p
  }

  // ---------------------------------------------------------------------------
  // Properties
  // ---------------------------------------------------------------------------

  /** Invalidating any namespace leaves the current user alone: the
      ["auth", "currentUser"] key starts with none of the `all` keys. */
  lemma CurrentUserOutsideNamespaces(c: KeyCall)
    requires Namespace(c).Some?
    ensures KeyOf(AuthCurrentUser) == [JString("auth"), JString("currentUser")]
    ensures !IsPrefix(KeyOf(Namespace(c).value), KeyOf(AuthCurrentUser))
  {
    assert KeyOf(AuthCurrentUser)[..1] == [JString("auth")];
  }

  /** Every key starts with its namespace's `all` key, so invalidating that
      key reaches every key of the namespace. */
  lemma KeysStartWithNamespace(c: KeyCall)
    requires Namespace(c).Some?
    ensures IsPrefix(KeyOf(Namespace(c).value), KeyOf(c))
    ensures |KeyOf(Namespace(c).value)| == 1
  {
  }

  /** Two keys coincide exactly when they come from the same constructor with
      the same arguments, once default pages are filled in: no two
      constructors (or argument lists) share a cache entry. */
  lemma KeysDistinct(a: KeyCall, b: KeyCall)
    ensures KeyOf(a) == KeyOf(b) <==> WithDefaults(a) == WithDefaults(b)
  {
    if KeyOf(a) == KeyOf(b) {
      var k := KeyOf(a);
      assert k[0] == KeyOf(b)[0];
      assert |k| == |KeyOf(b)|;
      if |k| > 1 {
        assert k[1] == KeyOf(b)[1];
      }
      if |k| > 2 {
        assert k[2] == KeyOf(b)[2];
      }
      if |k| > 3 {
        assert k[3] == KeyOf(b)[3];
      }
    }
  }
}
