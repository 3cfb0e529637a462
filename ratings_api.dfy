/** The front end's ratings API: the request each call sends, and what it
    makes of the reply. A request is described by its method, path, query
    parameters and body; the reply is the server's status and parsed body. */
module RatingsApi {
  import opened Common
  import opened BrowserStorage
  import opened GatewayRoutes
  import ApiClient
  import RatingController

  const RATINGS_BASE: string := "/api/ratings"
  const RATINGS_ALL: string := "/api/ratings/all"
  const RATINGS_MOVIE_PREFIX: string := "/api/ratings/movie/"
  const STATS_SUFFIX: string := "/stats"

  const DEFAULT_PAGE: int := 0
  const DEFAULT_SIZE: int := 20

  datatype Param = Param(name: string, value: Json)

  /** The body the rating service expects for a create or an update. */
  datatype RatingPayload = RatingPayload(movieId: Json, score: Option<Json>, comment: string)

  datatype ApiRequest = ApiRequest(verb: HttpMethod, path: string, params: seq<Param>, body: Option<RatingPayload>)

  /** The caller's ratingData: a rating under the name `rating`, and an
      optional comment. */
  datatype RatingData = RatingData(movieId: Json, rating: Option<Json>, comment: Option<string>)

  /** `comment || ""`: a missing or empty comment becomes "". */
  function CommentOrEmpty(comment: Option<string>): string {
    if comment.Some? && comment.value != "" then comment.value else ""
  }

  function PayloadOf(data: RatingData): RatingPayload {
    RatingPayload(data.movieId, data.rating, CommentOrEmpty(data.comment))
  }

  /** getUserRatings(userId, page = 0, size = 20). */
  function GetUserRatingsRequest(userId: Json, page: Option<int>, size: Option<int>): ApiRequest {
    ApiRequest(GET, RATINGS_ALL,
      [Param("userId", userId), Param("page", JNumber(page.GetOr(DEFAULT_PAGE))), Param("size", JNumber(size.GetOr(DEFAULT_SIZE)))],
      None)
  }

  function MoviePath(movieId: int): string {
    RATINGS_MOVIE_PREFIX + IntToString(movieId)
  }

  /** getMovieRatings(movieId, page = 0, size = 20). */
  function GetMovieRatingsRequest(movieId: int, page: Option<int>, size: Option<int>): ApiRequest {
    ApiRequest(GET, MoviePath(movieId),
      [Param("page", JNumber(page.GetOr(DEFAULT_PAGE))), Param("size", JNumber(size.GetOr(DEFAULT_SIZE)))],
      None)
  }

  function GetMovieRatingStatsRequest(movieId: int): ApiRequest {
    ApiRequest(GET, MoviePath(movieId) + STATS_SUFFIX, [], None)
  }

  function GetUserMovieRatingRequest(userId: Json, movieId: Json): ApiRequest {
    ApiRequest(GET, RATINGS_BASE, [Param("userId", userId), Param("movieId", movieId)], None)
  }

  function SubmitRatingRequest(data: RatingData): ApiRequest {
    ApiRequest(POST, RATINGS_BASE, [], Some(PayloadOf(data)))
  }

  function UpdateRatingRequest(data: RatingData): ApiRequest {
    ApiRequest(PUT, RATINGS_BASE, [], Some(PayloadOf(data)))
  }

  function DeleteRatingRequest(movieId: Json): ApiRequest {
    ApiRequest(DELETE, RATINGS_BASE, [Param("movieId", movieId)], None)
  }

  // ---------------------------------------------------------------------------
  // Replies
  // ---------------------------------------------------------------------------

  /** Property access on a parsed object: JSON.parse keeps the last of
      several fields with the same name. */
  function FieldValue(fields: seq<JsonField>, name: string): (v: Option<Json>)
    ensures v.Some? ==> exists f :: f in fields && f.name == name && f.value == v.value
    ensures v.None? <==> forall f :: f in fields ==> f.name != name
  {
    if fields == [] then None
    else if fields[|fields| - 1].name == name then Some(fields[|fields| - 1].value)
    else
      var v := FieldValue(fields[..|fields| - 1], name);
      assert forall f :: f in fields ==> f in fields[..|fields| - 1] || f == fields[|fields| - 1];
      v
  }

  /** `data.content || data`; reading a property of null throws a TypeError. */
  function ContentOrData(data: Json): (r: Result<Json, string>)
    ensures data.JNull? <==> r.Err?
    ensures !data.JNull? && !data.JObject? ==> r == Ok(data)
    ensures data.JObject? ==>
      var c := FieldValue(data.fields, "content");
      r == if c.Some? && JsonTruthy(c.value) then Ok(c.value) else Ok(data)
    ensures r.Ok? && r.value != data ==>
      data.JObject? && JsonTruthy(r.value)
      && exists f :: f in data.fields && f.name == "content" && f.value == r.value
  {
    match data
    case JNull => Err("TypeError")
    case JObject(fields) =>
      var content := FieldValue(fields, "content");
      if content.Some? && JsonTruthy(content.value) then Ok(content.value) else Ok(data)
    case _ => Ok(data)
  }

  /** getUserMovieRating's validateStatus: 200 and 404 resolve. */
  predicate ResolvesUserMovieRating(status: int) {
    status == 200 || status == 404
  }

  /** getUserMovieRating: a 200 or 404 reply resolves with its body; in the
      catch block a 404 maps to null and anything else is rethrown. */
  function GetUserMovieRating(reply: ApiClient.HttpReply): Result<Json, ApiClient.HttpReply> {
    if reply.status.Some? && ResolvesUserMovieRating(reply.status.value) then Ok(reply.body)
    else if reply.status == Some(404) then Ok(JNull)
    else Err(reply)
  }

  // ---------------------------------------------------------------------------
  // Properties
  // ---------------------------------------------------------------------------

  /** Create and update send the same body, to the same path, by POST and
      PUT. The body keeps everything the caller gave, the rating under the
      name score, and loses only the difference between a missing and an
      empty comment: two calls send the same body exactly when they agree on
      the movie, the rating and the comment, or differ only by one comment
      being missing and the other "". */
  lemma CreateAndUpdatePayload(data: RatingData, other: RatingData)
    ensures SubmitRatingRequest(data).verb == POST && UpdateRatingRequest(data).verb == PUT
    ensures SubmitRatingRequest(data).path == RATINGS_BASE == UpdateRatingRequest(data).path
    ensures SubmitRatingRequest(data).body == UpdateRatingRequest(data).body == Some(PayloadOf(data))
    ensures PayloadOf(data).score == data.rating && PayloadOf(data).movieId == data.movieId
    ensures PayloadOf(data) == PayloadOf(other) <==>
      && data.movieId == other.movieId && data.rating == other.rating
      && (data.comment == other.comment || (data.comment in {None, Some("")} && other.comment in {None, Some("")}))
  {
  }

  /** The client's paging defaults are the controller's: leaving page or size
      out asks the rating service for the same page as the service's own
      defaults (page 0, size 20), and given values reach it unchanged. */
  lemma PagingDefaultsAgreeWithController(userId: Json, movieId: int, page: Option<int>, size: Option<int>)
    ensures var ps := GetUserRatingsRequest(userId, page, size).params;
      && |ps| == 3 && ps[1].value.JNumber? && ps[2].value.JNumber?
      && RatingController.ListPageRequest(Some(ps[1].value.n), Some(ps[2].value.n)) == RatingController.ListPageRequest(page, size)
    ensures var ps := GetMovieRatingsRequest(movieId, page, size).params;
      && |ps| == 2 && ps[0].value.JNumber? && ps[1].value.JNumber?
      && RatingController.ListPageRequest(Some(ps[0].value.n), Some(ps[1].value.n)) == RatingController.ListPageRequest(page, size)
  {
  }

  /** A page object unwraps to its content array. */
  lemma PageUnwrapsToContent(items: seq<Json>, totalElements: int)
    ensures ContentOrData(JObject([JsonField("content", JArray(items)), JsonField("totalElements", JNumber(totalElements))]))
      == Ok(JArray(items))
  {
    var fields := [JsonField("content", JArray(items)), JsonField("totalElements", JNumber(totalElements))];
    assert fields[..1] == [JsonField("content", JArray(items))];
  }

  /** Anything but a page object with a truthy content comes back as it is:
      a bare array, an empty object, or a content that is null, "" or 0. */
  lemma ContentOrDataPassThrough(items: seq<Json>)
    ensures ContentOrData(JArray(items)) == Ok(JArray(items))
    ensures ContentOrData(JObject([])) == Ok(JObject([]))
    ensures forall c :: c in {JNull, JString(""), JNumber(0), JBool(false)} ==>
      ContentOrData(JObject([JsonField("content", c)])) == Ok(JObject([JsonField("content", c)]))
  {
    forall c | c in {JNull, JString(""), JNumber(0), JBool(false)}
      ensures ContentOrData(JObject([JsonField("content", c)])) == Ok(JObject([JsonField("content", c)]))
    {
      assert [JsonField("content", c)][..0] == [];
    }
  }

  /** 200 and 404 replies resolve with their body, so the catch block's
      404-to-null branch is never taken; every other reply is rethrown. */
  lemma UserMovieRatingOutcomes(reply: ApiClient.HttpReply)
    ensures reply.status == Some(200) || reply.status == Some(404) ==> GetUserMovieRating(reply) == Ok(reply.body)
    ensures reply.status != Some(200) && reply.status != Some(404) ==> GetUserMovieRating(reply) == Err(reply)
  {
  }

  /** A delete names the movie in a query parameter, never in the path, so
      the path is the same for every movie. */
  lemma DeleteByMovieIdParam(movieId: Json, other: Json)
    ensures DeleteRatingRequest(movieId).params == [Param("movieId", movieId)]
    ensures DeleteRatingRequest(movieId).path == DeleteRatingRequest(other).path == RATINGS_BASE
    ensures DeleteRatingRequest(movieId) == DeleteRatingRequest(other) <==> movieId == other
  {
  }

  lemma NoSlashInIntToString(n: int)
    ensures '/' !in IntToString(n)
  {
  }

  /** A movie's ratings list and its stats use different paths, and
      different movies use different paths. */
  lemma MoviePathsDistinct(a: int, b: int)
    ensures GetMovieRatingsRequest(a, None, None).path != GetMovieRatingStatsRequest(b).path
    ensures MoviePath(a) == MoviePath(b) <==> a == b
  {
    NoSlashInIntToString(a);
    var n := |RATINGS_MOVIE_PREFIX|;
    var p := MoviePath(a);
    var q := MoviePath(b) + STATS_SUFFIX;
    assert p[n..] == IntToString(a);
    assert q[n..] == IntToString(b) + STATS_SUFFIX;
    assert q[n..][|q[n..]| - 6] == '/';
    assert '/' in q[n..];
    if MoviePath(a) == MoviePath(b) {
      assert IntToString(a) == MoviePath(a)[|RATINGS_MOVIE_PREFIX|..];
      assert IntToString(b) == MoviePath(b)[|RATINGS_MOVIE_PREFIX|..];
      IntToStringInjective(a, b);
    }
  }
}
