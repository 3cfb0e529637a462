/** Cache-aside access to the movie database API in the movie service.

    Each getter builds a Redis key, returns the cached value on a hit, and on
    a miss calls the API and stores the answer only when it is not null. The
    Redis store is a map from keys to cached values, the API calls made are a
    log, and what the API call does is the parameter `fetched`: a body (None
    standing for null) or a failure, on which the getter's fallback answers.
    Expiry times are not modelled. */
module TMDBService {
  import opened Common

  datatype Movie = Movie(
    id: Option<int>,
    title: Option<string>,
    posterPath: Option<string>,
    overview: Option<string>,
    releaseDate: Option<string>)

  /** One page of movie results. */
  datatype TMDBResponse = TMDBResponse(page: int, results: seq<Movie>, totalPages: int, totalResults: int)

  /** What Redis holds under a key: a page of results or one movie. */
  datatype CacheValue = ResponseValue(response: TMDBResponse) | MovieValue(movie: Movie)

  /** The request that reached the external API. */
  datatype ApiCall = PopularCall(page: int) | DetailsCall(movieId: int) | SearchCall(query: string, page: int)

  const POPULAR_PREFIX: string := "movies:popular:"
  const DETAILS_PREFIX: string := "movies:details:"
  const SEARCH_PREFIX: string := "movies:search:"

  const UNAVAILABLE_TITLE: string := "Movie information temporarily unavailable"
  const UNAVAILABLE_OVERVIEW: string := "Please try again later."

  // ---------------------------------------------------------------------------
  // Cache keys
  // ---------------------------------------------------------------------------

  function PopularKey(page: int): (k: string)
    ensures StartsWith(k, POPULAR_PREFIX) && k[|POPULAR_PREFIX|..] == IntToString(page)
  {
    POPULAR_PREFIX + IntToString(page)
  }

  function DetailsKey(movieId: int): (k: string)
    ensures StartsWith(k, DETAILS_PREFIX) && k[|DETAILS_PREFIX|..] == IntToString(movieId)
  {
    DETAILS_PREFIX + IntToString(movieId)
  }

  function SearchKey(query: string, page: int): (k: string)
    ensures StartsWith(k, SEARCH_PREFIX)
    ensures k[|SEARCH_PREFIX|..] == query + ":" + IntToString(page)
  {
    SEARCH_PREFIX + query + ":" + IntToString(page)
  }

  /** The part of s after its last colon (all of s when it has none). */
  function AfterLastColon(s: string): string
    decreases |s|
  {
    if s == [] then []
    else if s[|s| - 1] == ':' then []
    else AfterLastColon(s[..|s| - 1]) + [s[|s| - 1]]
  }

  lemma {:induction false} AfterLastColonOfSuffix(q: string, p: string)
    requires forall i :: 0 <= i < |p| ==> p[i] != ':'
    ensures AfterLastColon(q + ":" + p) == p
    decreases |p|
  {
    var s := q + ":" + p;
    if p == [] {
      assert s[|s| - 1] == ':';
    } else {
      var p' := p[..|p| - 1];
      assert s[..|s| - 1] == q + ":" + p';
      AfterLastColonOfSuffix(q, p');
      assert s[|s| - 1] == p[|p| - 1];
      assert p' + [p[|p| - 1]] == p;
    }
  }

  lemma IntToStringHasNoColon(n: int)
    ensures forall i :: 0 <= i < |IntToString(n)| ==> IntToString(n)[i] != ':'
  {
  }

  /** Distinct pages have distinct popular keys. */
  lemma PopularKeyInjective(a: int, b: int)
    requires PopularKey(a) == PopularKey(b)
    ensures a == b
  {
    assert PopularKey(a)[|POPULAR_PREFIX|..] == PopularKey(b)[|POPULAR_PREFIX|..];
    IntToStringInjective(a, b);
  }

  /** Distinct movie ids have distinct detail keys. */
  lemma DetailsKeyInjective(a: int, b: int)
    requires DetailsKey(a) == DetailsKey(b)
    ensures a == b
  {
    assert DetailsKey(a)[|DETAILS_PREFIX|..] == DetailsKey(b)[|DETAILS_PREFIX|..];
    IntToStringInjective(a, b);
  }

  /** Distinct (query, page) pairs have distinct search keys, even when the
      query itself contains colons: the page follows the last colon. */
  lemma SearchKeyInjective(q1: string, p1: int, q2: string, p2: int)
    requires SearchKey(q1, p1) == SearchKey(q2, p2)
    ensures q1 == q2 && p1 == p2
  {
    assert SearchKey(q1, p1)[|SEARCH_PREFIX|..] == SearchKey(q2, p2)[|SEARCH_PREFIX|..];
    IntToStringHasNoColon(p1);
    IntToStringHasNoColon(p2);
    SplitAtLastColon(q1, IntToString(p1), q2, IntToString(p2));
    IntToStringInjective(p1, p2);
  }

  /** A colon-free tail after the last colon splits a string uniquely. */
  lemma SplitAtLastColon(q1: string, d1: string, q2: string, d2: string)
    requires forall i :: 0 <= i < |d1| ==> d1[i] != ':'
    requires forall i :: 0 <= i < |d2| ==> d2[i] != ':'
    requires q1 + ":" + d1 == q2 + ":" + d2
    ensures q1 == q2 && d1 == d2
  {
    AfterLastColonOfSuffix(q1, d1);
    AfterLastColonOfSuffix(q2, d2);
    assert q1 == (q1 + ":" + d1)[..|q1|];
    assert q2 == (q2 + ":" + d2)[..|q2|];
  }

  /** The three key families never collide. */
  lemma KeyFamiliesDisjoint(page: int, movieId: int, query: string, searchPage: int)
    ensures PopularKey(page) != DetailsKey(movieId)
    ensures PopularKey(page) != SearchKey(query, searchPage)
    ensures DetailsKey(movieId) != SearchKey(query, searchPage)
  {
    assert PopularKey(page)[7] == 'p';
    assert DetailsKey(movieId)[7] == 'd';
    assert SearchKey(query, searchPage)[7] == 's';
  }

  // ---------------------------------------------------------------------------
  // Fallbacks
  // ---------------------------------------------------------------------------

  /** getPopularMoviesFallback: the requested page with no results. */
  function PopularFallback(page: int): TMDBResponse {
    TMDBResponse(page, [], 0, 0)
  }

  /** getMovieDetailsFallback: the requested id with a notice. */
  function DetailsFallback(movieId: int): Movie {
    Movie(Some(movieId), Some(UNAVAILABLE_TITLE), None, Some(UNAVAILABLE_OVERVIEW), None)
  }

  /** searchMoviesFallback: the requested page with no results. */
  function SearchFallback(query: string, page: int): TMDBResponse {
    TMDBResponse(page, [], 0, 0)
  }

  // ---------------------------------------------------------------------------
  // Cache-aside
  // ---------------------------------------------------------------------------

  /** What the API call did: answered with a body (None for null), or threw,
      so that the circuit breaker handed the call to its fallback. */
  datatype Answer<T> = Answered(body: Option<T>) | Failed

  /** The result, the new cache and the new call log of one getter call. */
  datatype Step = Step(result: Option<CacheValue>, cache: map<string, CacheValue>, calls: seq<ApiCall>)

  /** Return the cached value on a hit; on a miss make the call and store a
      non-null answer; when the call throws, return the fallback and store
      nothing. */
  function CacheAside(cache: map<string, CacheValue>, calls: seq<ApiCall>, key: string, call: ApiCall,
                      fetched: Answer<CacheValue>, fallback: CacheValue): Step {
    if key in cache then Step(Some(cache[key]), cache, calls)
    else match fetched
      case Failed => Step(Some(fallback), cache, calls + [call])
      case Answered(body) => Step(body, if body.Some? then cache[key := body.value] else cache, calls + [call])
  }

  /** A hit returns the cached value without calling the API or touching the cache. */
  lemma HitReturnsCached(cache: map<string, CacheValue>, calls: seq<ApiCall>, key: string, call: ApiCall,
                         fetched: Answer<CacheValue>, fallback: CacheValue)
    requires key in cache
    ensures CacheAside(cache, calls, key, call, fetched, fallback) == Step(Some(cache[key]), cache, calls)
  {
  }

  /** A miss makes exactly one call, returns its answer, and caches it exactly when it is not null. */
  lemma MissFetchesAndStoresNonNull(cache: map<string, CacheValue>, calls: seq<ApiCall>, key: string, call: ApiCall,
                                    body: Option<CacheValue>, fallback: CacheValue)
    requires key !in cache
    ensures var s := CacheAside(cache, calls, key, call, Answered(body), fallback);
      && s.result == body && s.calls == calls + [call]
      && (body.Some? ==> s.cache == cache[key := body.value])
      && (body.None? ==> s.cache == cache)
      && (forall k :: k != key ==> (k in s.cache <==> k in cache))
  {
  }

  /** After a miss with a non-null answer, the next call for the same key is a
      hit that returns the same value, whatever the API would do then. */
  lemma SecondCallHits(cache: map<string, CacheValue>, calls: seq<ApiCall>, key: string, call: ApiCall,
                       body: Option<CacheValue>, again: Answer<CacheValue>, fallback: CacheValue)
    requires key !in cache && body.Some?
    ensures var s1 := CacheAside(cache, calls, key, call, Answered(body), fallback);
      var s2 := CacheAside(s1.cache, s1.calls, key, call, again, fallback);
      s2.result == s1.result && s2.calls == s1.calls && s2.cache == s1.cache
  {
  }

  /** A failed call returns the fallback and is never cached: the cache is as
      before, so the next call for the key asks the API again. */
  lemma FallbackNeverCached(cache: map<string, CacheValue>, calls: seq<ApiCall>, key: string, call: ApiCall,
                            again: Answer<CacheValue>, fallback: CacheValue)
    requires key !in cache
    ensures var s1 := CacheAside(cache, calls, key, call, Failed, fallback);
      && s1 == Step(Some(fallback), cache, calls + [call])
      && CacheAside(s1.cache, s1.calls, key, call, again, fallback).calls == calls + [call, call]
  {
  }

  /** Detail keys hold movies and every other key holds a page of results, so
      the casts in the getters never fail. */
  ghost predicate WellTyped(cache: map<string, CacheValue>) {
    forall k :: k in cache ==> (StartsWith(k, DETAILS_PREFIX) <==> cache[k].MovieValue?)
  }

  function AsResponse(v: Option<CacheValue>): Option<TMDBResponse> {
    if v.Some? && v.value.ResponseValue? then Some(v.value.response) else None
  }

  function AsMovie(v: Option<CacheValue>): Option<Movie> {
    if v.Some? && v.value.MovieValue? then Some(v.value.movie) else None
  }

  function WrapResponse(r: Answer<TMDBResponse>): Answer<CacheValue> {
    match r
    case Failed => Failed
    case Answered(body) => Answered(if body.Some? then Some(ResponseValue(body.value)) else None)
  }

  function WrapMovie(m: Answer<Movie>): Answer<CacheValue> {
    match m
    case Failed => Failed
    case Answered(body) => Answered(if body.Some? then Some(MovieValue(body.value)) else None)
  }

  function PopularStep(cache: map<string, CacheValue>, calls: seq<ApiCall>, page: int, fetched: Answer<TMDBResponse>): Step {
    CacheAside(cache, calls, PopularKey(page), PopularCall(page), WrapResponse(fetched), ResponseValue(PopularFallback(page)))
  }

  function DetailsStep(cache: map<string, CacheValue>, calls: seq<ApiCall>, movieId: int, fetched: Answer<Movie>): Step {
    CacheAside(cache, calls, DetailsKey(movieId), DetailsCall(movieId), WrapMovie(fetched), MovieValue(DetailsFallback(movieId)))
  }

  function SearchStep(cache: map<string, CacheValue>, calls: seq<ApiCall>, query: string, page: int, fetched: Answer<TMDBResponse>): Step {
    CacheAside(cache, calls, SearchKey(query, page), SearchCall(query, page), WrapResponse(fetched), ResponseValue(SearchFallback(query, page)))
  }

  lemma PopularKeyNotDetails(page: int)
    ensures !StartsWith(PopularKey(page), DETAILS_PREFIX)
  {
    assert PopularKey(page)[7] == 'p';
  }

  lemma SearchKeyNotDetails(query: string, page: int)
    ensures !StartsWith(SearchKey(query, page), DETAILS_PREFIX)
  {
    assert SearchKey(query, page)[7] == 's';
  }

  /** The three getters keep the cache well typed, and in a well-typed cache
      a popular or search hit is a page and a details hit is a movie. */
  lemma GettersKeepWellTyped(cache: map<string, CacheValue>, calls: seq<ApiCall>, page: int, movieId: int, query: string,
                             response: Answer<TMDBResponse>, movie: Answer<Movie>)
    requires WellTyped(cache)
    ensures WellTyped(PopularStep(cache, calls, page, response).cache)
    ensures WellTyped(DetailsStep(cache, calls, movieId, movie).cache)
    ensures WellTyped(SearchStep(cache, calls, query, page, response).cache)
    ensures PopularKey(page) in cache ==> cache[PopularKey(page)].ResponseValue?
    ensures SearchKey(query, page) in cache ==> cache[SearchKey(query, page)].ResponseValue?
    ensures DetailsKey(movieId) in cache ==> cache[DetailsKey(movieId)].MovieValue?
  {
    PopularKeyNotDetails(page);
    SearchKeyNotDetails(query, page);
  }

  /** On a miss whose call fails, the popular and search getters answer the
      requested page with no results and zero pages, whatever the query, and
      the details getter answers the requested id with the "temporarily
      unavailable" notice and no poster or date. */
  lemma FallbackAnswers(cache: map<string, CacheValue>, calls: seq<ApiCall>, page: int, movieId: int, query: string)
    ensures PopularKey(page) !in cache ==>
      var r := AsResponse(PopularStep(cache, calls, page, Failed).result);
      r.Some? && r.value.page == page && r.value.results == [] && r.value.totalPages == 0 && r.value.totalResults == 0
    ensures SearchKey(query, page) !in cache ==>
      var r := AsResponse(SearchStep(cache, calls, query, page, Failed).result);
      r.Some? && r.value.page == page && r.value.results == [] && r.value.totalPages == 0 && r.value.totalResults == 0
    ensures DetailsKey(movieId) !in cache ==>
      var m := AsMovie(DetailsStep(cache, calls, movieId, Failed).result);
      && m.Some? && m.value.id == Some(movieId)
      && m.value.title == Some(UNAVAILABLE_TITLE) && m.value.overview == Some(UNAVAILABLE_OVERVIEW)
      && m.value.posterPath.None? && m.value.releaseDate.None?
  {
  }

  // ---------------------------------------------------------------------------
  // The service object
  // ---------------------------------------------------------------------------

  /** TMDBService with its Redis template and the log of API calls. */
  class Service {
    var cache: map<string, CacheValue>
    var calls: seq<ApiCall>

    ghost predicate Valid()
      reads this
    {
      WellTyped(cache)
    }

    constructor ()
      ensures Valid() && cache == map[] && calls == []
    {
      cache, calls := map[], [];
    }

    method GetPopularMovies(page: int, fetched: Answer<TMDBResponse>) returns (response: Option<TMDBResponse>)
      requires Valid()
      modifies this
      ensures Valid()
      ensures var s := PopularStep(old(cache), old(calls), page, fetched);
        response == AsResponse(s.result) && cache == s.cache && calls == s.calls
    {
      GettersKeepWellTyped(cache, calls, page, 0, "", fetched, Failed);
      var cacheKey := PopularKey(page);
      if cacheKey in cache {
        return AsResponse(Some(cache[cacheKey]));
      }
      calls := calls + [PopularCall(page)];
      if fetched.Failed? {
        return Some(PopularFallback(page));
      }
      response := fetched.body;
      if response.Some? {
        cache := cache[cacheKey := ResponseValue(response.value)];
      }
    }

    method GetMovieDetails(movieId: int, fetched: Answer<Movie>) returns (movie: Option<Movie>)
      requires Valid()
      modifies this
      ensures Valid()
      ensures var s := DetailsStep(old(cache), old(calls), movieId, fetched);
        movie == AsMovie(s.result) && cache == s.cache && calls == s.calls
    {
      GettersKeepWellTyped(cache, calls, 0, movieId, "", Failed, fetched);
      var cacheKey := DetailsKey(movieId);
      if cacheKey in cache {
        return AsMovie(Some(cache[cacheKey]));
      }
      calls := calls + [DetailsCall(movieId)];
      if fetched.Failed? {
        return Some(DetailsFallback(movieId));
      }
      movie := fetched.body;
      if movie.Some? {
        cache := cache[cacheKey := MovieValue(movie.value)];
      }
    }

    method SearchMovies(query: string, page: int, fetched: Answer<TMDBResponse>) returns (response: Option<TMDBResponse>)
      requires Valid()
      modifies this
      ensures Valid()
      ensures var s := SearchStep(old(cache), old(calls), query, page, fetched);
        response == AsResponse(s.result) && cache == s.cache && calls == s.calls
    {
      GettersKeepWellTyped(cache, calls, page, 0, query, fetched, Failed);
      var cacheKey := SearchKey(query, page);
      if cacheKey in cache {
        return AsResponse(Some(cache[cacheKey]));
      }
      calls := calls + [SearchCall(query, page)];
      if fetched.Failed? {
        return Some(SearchFallback(query, page));
      }
      response := fetched.body;
      if response.Some? {
        cache := cache[cacheKey := ResponseValue(response.value)];
      }
    }
  }
}
