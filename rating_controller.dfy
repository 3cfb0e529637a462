/** The REST layer of the rating service: each handler calls the service and
    turns its return value or exception into an HTTP status, and the list
    endpoints build their page request from the query parameters. */
module RatingController {
  import opened Common
  import opened RatingService

  const OK: int := 200
  const CREATED: int := 201
  const NO_CONTENT: int := 204
  const BAD_REQUEST: int := 400
  const NOT_FOUND: int := 404

  /** A handler either answers with a status and an optional body, or lets a
      service exception it does not catch escape. */
  datatype HandlerResult<T> = Responded(status: int, body: Option<T>) | Escaped(error: ServiceError)

  datatype Direction = Ascending | Descending
  datatype PageRequest = PageRequest(page: int, size: int, sortProperty: string, direction: Direction)

  /** POST: 201 with the body on success, 400 on either validation
      exception; any other exception is not caught. */
  function CreateResponse(r: Result<RatingResponse, ServiceError>): HandlerResult<RatingResponse> {
    match r
    case Ok(body) => Responded(CREATED, Some(body))
    case Err(IllegalArgument(_)) => Responded(BAD_REQUEST, None)
    case Err(IllegalState(_)) => Responded(BAD_REQUEST, None)
    case Err(e) => Escaped(e)
  }

  /** PUT: 200 with the body on success, 404 on IllegalArgumentException; any
      other exception is not caught. */
  function UpdateResponse(r: Result<RatingResponse, ServiceError>): HandlerResult<RatingResponse> {
    match r
    case Ok(body) => Responded(OK, Some(body))
    case Err(IllegalArgument(_)) => Responded(NOT_FOUND, None)
    case Err(e) => Escaped(e)
  }

  /** DELETE: 204 on success, 404 on IllegalArgumentException. */
  function DeleteResponse(r: Result<(), ServiceError>): HandlerResult<()> {
    match r
    case Ok(_) => Responded(NO_CONTENT, None)
    case Err(IllegalArgument(_)) => Responded(NOT_FOUND, None)
    case Err(e) => Escaped(e)
  }

  /** GET ?userId&movieId: 200 with the rating when present, 404 otherwise. */
  function LookupResponse(found: Option<RatingResponse>): HandlerResult<RatingResponse> {
    if found.Some? then Responded(OK, found) else Responded(NOT_FOUND, None)
  }

  /** The page request of /all and /movie/{movieId}: page defaults to 0 and
      size to 20, newest first by createdAt. */
  function ListPageRequest(page: Option<int>, size: Option<int>): (p: PageRequest)
    ensures page.None? ==> p.page == 0
    ensures size.None? ==> p.size == 20
    ensures page.Some? ==> p.page == page.value
    ensures size.Some? ==> p.size == size.value
    ensures p.sortProperty == "createdAt" && p.direction == Descending
  {
    PageRequest(page.GetOr(0), size.GetOr(20), "createdAt", Descending)
  }

  // ---------------------------------------------------------------------------
  // Handlers composed with the service
  // ---------------------------------------------------------------------------

  /** POST /api/ratings for the user of the X-User-Id header. A request
      without a score lets the NullPointerException escape the handler, which
      the framework answers with 500; one without a movie id is created with
      a null movie id. */
  function Post(db: RatingDb, userId: string, request: RatingRequest, now: int, delivered: bool): (resp: HandlerResult<RatingResponse>)
    ensures resp.Escaped? <==> request.score.None?
    ensures resp.Escaped? ==> resp.error == NullPointer
    ensures resp.Responded? && resp.status == CREATED <==>
      AcceptedScore(request) && forall x :: x in db.ratings ==> x.userId != userId || x.movieId != request.movieId
    ensures resp.Responded? && resp.status != CREATED ==> resp == Responded(BAD_REQUEST, None)
    ensures resp.Responded? && resp.status == CREATED ==>
      resp.body == Some(RatingResponse(db.nextId, userId, request.movieId, request.score.value, request.comment, now))
  {
    CreateResponse(CreateRating(db, userId, request, now, delivered).result)
  }

  /** PUT for a rating id: 200 exactly when the rating exists and any given
      score is in range, otherwise 404 (both failures are
      IllegalArgumentException); nothing escapes. */
  function Put(db: RatingDb, ratingId: RatingId, request: RatingUpdateRequest): (resp: HandlerResult<RatingResponse>)
    ensures resp.Responded?
    ensures resp.status == OK <==>
      (exists x :: x in db.ratings && x.id == ratingId) && (request.score.None? || ValidScore(request.score.value))
    ensures resp.status != OK ==> resp == Responded(NOT_FOUND, None)
  {
    UpdateResponse(UpdateRating(db, ratingId, request).result)
  }

  /** DELETE for a rating id: 204 exactly when the rating exists, else 404. */
  function Delete(db: RatingDb, ratingId: RatingId): (resp: HandlerResult<()>)
    ensures resp.Responded?
    ensures resp.status == NO_CONTENT <==> exists x :: x in db.ratings && x.id == ratingId
    ensures resp.status != NO_CONTENT ==> resp.status == NOT_FOUND
  {
    DeleteResponse(DeleteRating(db, ratingId).result)
  }

  /** GET ?userId&movieId; the movieId parameter is required, so it is never null here. */
  function Get(db: RatingDb, userId: string, movieId: int): (resp: HandlerResult<RatingResponse>)
    ensures resp.Responded?
    ensures resp.status == OK <==> exists x :: x in db.ratings && x.userId == userId && x.movieId == Some(movieId)
    ensures resp.status == OK ==>
      exists x :: x in db.ratings && x.userId == userId && x.movieId == Some(movieId) && resp.body == Some(MapToResponse(x))
    ensures resp.status != OK ==> resp == Responded(NOT_FOUND, None)
  {
    LookupResponse(GetUserRatingForMovie(db.ratings, userId, Some(movieId)))
  }

  /** GET /movie/{movieId}/stats always answers 200 with the statistics: the
      movie's rating count and the mean of their scores, 0 without ratings. */
  function Stats(db: RatingDb, movieId: int): (resp: HandlerResult<MovieRatingStats>)
    ensures resp.Responded? && resp.status == OK
    ensures resp.body.Some? && resp.body.value.movieId == Some(movieId)
    ensures var mine := FindByMovieId(db.ratings, Some(movieId));
      && resp.body.value.totalRatings == |mine|
      && (mine == [] ==> resp.body.value.averageScore == 0.0)
      && (mine != [] ==> resp.body.value.averageScore == (SumScores(mine) as real) / (|mine| as real))
  {
    Responded(OK, Some(GetMovieRatingStats(db.ratings, Some(movieId))))
  }
}
