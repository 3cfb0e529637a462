/** The rating store of the rating service: create with score validation and
    one rating per (user, movie), partial update, delete by id, single lookup
    and per-movie statistics.

    The MongoDB collection is a sequence of ratings plus a counter that hands
    out document ids; the gRPC notification to the achievement service is an
    outbox of sent notifications whose delivery outcome is a parameter; the
    clock is the parameter `now`. */
module RatingService {
  import opened Common

  type RatingId = nat

  /** A boxed Integer movie id: None is Java's null, which a request body may
      leave out and which is then stored and returned as given. */
  type MovieId = Option<int>

  datatype Rating = Rating(
    id: RatingId,
    userId: string,
    movieId: MovieId,
    score: int,
    comment: Option<string>,
    createdAt: int)

  /** The body of a create request; the user id arrives separately. The
      movie id and the score are boxed Integers that a request may leave out. */
  datatype RatingRequest = RatingRequest(movieId: MovieId, score: Option<int>, comment: Option<string>)

  /** The body of an update request: an absent field leaves the stored field alone. */
  datatype RatingUpdateRequest = RatingUpdateRequest(score: Option<int>, comment: Option<string>)

  datatype RatingResponse = RatingResponse(
    id: RatingId,
    userId: string,
    movieId: MovieId,
    score: int,
    comment: Option<string>,
    createdAt: int)

  /** The exceptions the service throws: its own two, and the
      NullPointerException of unboxing an absent score. */
  datatype ServiceError = IllegalArgument(message: string) | IllegalState(message: string) | NullPointer

  /** notifyRatingSubmitted(userId, movieId, totalRatings) as handed to the
      achievement service; the movie id is the int32 field of the gRPC request. */
  datatype RatingNotification = RatingNotification(userId: string, movieId: int, totalRatings: nat)

  datatype MovieRatingStats = MovieRatingStats(movieId: MovieId, averageScore: real, totalRatings: nat)

  /** The collection, the id counter and the notifications that were delivered. */
  datatype RatingDb = RatingDb(ratings: seq<Rating>, nextId: nat, notifications: seq<RatingNotification>)

  /** A new database state together with the call's return value or exception. */
  datatype Outcome<T> = Outcome(db: RatingDb, result: Result<T, ServiceError>)

  const SCORE_RANGE_MESSAGE: string := "Score must be between 1 and 10"
  const DUPLICATE_MESSAGE: string := "User has already rated this movie"
  const NOT_FOUND_MESSAGE: string := "Rating not found"

  predicate ValidScore(score: int) {
    1 <= score <= 10
  }

  /** The create request carries a score, and it is in 1..10. */
  predicate AcceptedScore(request: RatingRequest) {
    request.score.Some? && ValidScore(request.score.value)
  }

  function MapToResponse(r: Rating): RatingResponse {
    RatingResponse(r.id, r.userId, r.movieId, r.score, r.comment, r.createdAt)
  }

  // ---------------------------------------------------------------------------
  // Repository queries
  // ---------------------------------------------------------------------------

  /** ratingRepository.findByUserIdAndMovieId */
  function FindByUserIdAndMovieId(ratings: seq<Rating>, userId: string, movieId: MovieId): (r: Option<Rating>)
    ensures r.Some? <==> exists x :: x in ratings && x.userId == userId && x.movieId == movieId
    ensures r.Some? ==> r.value in ratings && r.value.userId == userId && r.value.movieId == movieId
  {
    if ratings == [] then None
    else if ratings[0].userId == userId && ratings[0].movieId == movieId then Some(ratings[0])
    else FindByUserIdAndMovieId(ratings[1..], userId, movieId)
  }

  /** The position of the rating with the given id (ratingRepository.findById). */
  function IndexOfId(ratings: seq<Rating>, id: RatingId): (r: Option<nat>)
    ensures r.Some? <==> exists x :: x in ratings && x.id == id
    ensures r.Some? ==> r.value < |ratings| && ratings[r.value].id == id
  {
    if ratings == [] then None
    else if ratings[0].id == id then Some(0)
    else
      var rest := IndexOfId(ratings[1..], id);
      if rest.Some? then Some(rest.value + 1) else None
  }

  /** ratingRepository.countByUserId */
  function CountByUserId(ratings: seq<Rating>, userId: string): (n: nat)
    ensures n <= |ratings|
  {
    if ratings == [] then 0
    else (if ratings[0].userId == userId then 1 else 0) + CountByUserId(ratings[1..], userId)
  }

  /** ratingRepository.findByMovieId, in storage order. */
  function FindByMovieId(ratings: seq<Rating>, movieId: MovieId): (r: seq<Rating>)
    ensures forall x :: x in r <==> x in ratings && x.movieId == movieId
  {
    if ratings == [] then []
    else (if ratings[0].movieId == movieId then [ratings[0]] else []) + FindByMovieId(ratings[1..], movieId)
  }

  /** ratingRepository.findByUserId, in storage order (the page slicing and sort are the repository's). */
  function FindByUserId(ratings: seq<Rating>, userId: string): (r: seq<Rating>)
    ensures forall x :: x in r <==> x in ratings && x.userId == userId
  {
    if ratings == [] then []
    else (if ratings[0].userId == userId then [ratings[0]] else []) + FindByUserId(ratings[1..], userId)
  }

  /** ratingRepository.deleteById */
  function RemoveId(ratings: seq<Rating>, id: RatingId): (r: seq<Rating>)
    ensures forall x :: x in r <==> x in ratings && x.id != id
  {
    if ratings == [] then []
    else (if ratings[0].id == id then [] else [ratings[0]]) + RemoveId(ratings[1..], id)
  }

  function SumScores(ratings: seq<Rating>): int {
    if ratings == [] then 0 else ratings[0].score + SumScores(ratings[1..])
  }

  // ---------------------------------------------------------------------------
  // The store invariant
  // ---------------------------------------------------------------------------

  /** Two stored ratings have different ids and are not by the same user for the same movie. */
  ghost predicate Apart(a: Rating, b: Rating) {
    a.id != b.id && (a.userId != b.userId || a.movieId != b.movieId)
  }

  ghost predicate PairwiseApart(ratings: seq<Rating>) {
    forall i, j :: 0 <= i < j < |ratings| ==> Apart(ratings[i], ratings[j])
  }

  /** Ids are distinct and below the counter, every score is in 1..10 and no
      (user, movie) pair is rated twice. */
  ghost predicate DbValid(db: RatingDb) {
    && (forall i :: 0 <= i < |db.ratings| ==> db.ratings[i].id < db.nextId)
    && (forall i :: 0 <= i < |db.ratings| ==> ValidScore(db.ratings[i].score))
    && PairwiseApart(db.ratings)
  }

  // ---------------------------------------------------------------------------
  // Operations
  // ---------------------------------------------------------------------------

  /** createRating(userId, request) at time `now`; `delivered` is whether the
      notification to the achievement service went through (a failure is
      logged and swallowed). The range test unboxes the score, so a request
      without one throws before anything is read or saved. A missing movie id
      is looked up, stored and returned as null; the gRPC request's int32
      setter throws on it, so no notification is ever sent for it. */
  function CreateRating(db: RatingDb, userId: string, request: RatingRequest, now: int, delivered: bool): Outcome<RatingResponse>
  {
    if request.score.None? then
      Outcome(db, Err(NullPointer))
    else if request.score.value < 1 || request.score.value > 10 then
      Outcome(db, Err(IllegalArgument(SCORE_RANGE_MESSAGE)))
    else if FindByUserIdAndMovieId(db.ratings, userId, request.movieId).Some? then
      Outcome(db, Err(IllegalState(DUPLICATE_MESSAGE)))
    else
      var saved := Rating(db.nextId, userId, request.movieId, request.score.value, request.comment, now);
      var ratings := db.ratings + [saved];
      var sent := if delivered && request.movieId.Some?
        then db.notifications + [RatingNotification(userId, request.movieId.value, CountByUserId(ratings, userId))]
        else db.notifications;
      Outcome(RatingDb(ratings, db.nextId + 1, sent), Ok(MapToResponse(saved)))
  }

  /** The stored rating after applying a partial update. */
  function ApplyUpdate(r: Rating, request: RatingUpdateRequest): Rating {
    var scored := if request.score.Some? then r.(score := request.score.value) else r;
    if request.comment.Some? then scored.(comment := request.comment) else scored
  }

  /** updateRating(ratingId, request) */
  function UpdateRating(db: RatingDb, ratingId: RatingId, request: RatingUpdateRequest): Outcome<RatingResponse>
  {
    var k := IndexOfId(db.ratings, ratingId);
    if k.None? then
      Outcome(db, Err(IllegalArgument(NOT_FOUND_MESSAGE)))
    else if request.score.Some? && (request.score.value < 1 || request.score.value > 10) then
      Outcome(db, Err(IllegalArgument(SCORE_RANGE_MESSAGE)))
    else
      var updated := ApplyUpdate(db.ratings[k.value], request);
      Outcome(db.(ratings := db.ratings[k.value := updated]), Ok(MapToResponse(updated)))
  }

  /** deleteRating(ratingId) */
  function DeleteRating(db: RatingDb, ratingId: RatingId): Outcome<()>
  {
    if IndexOfId(db.ratings, ratingId).None? then
      Outcome(db, Err(IllegalArgument(NOT_FOUND_MESSAGE)))
    else
      Outcome(db.(ratings := RemoveId(db.ratings, ratingId)), Ok(()))
  }

  /** getUserRatingForMovie(userId, movieId) */
  function GetUserRatingForMovie(ratings: seq<Rating>, userId: string, movieId: MovieId): (r: Option<RatingResponse>)
    ensures r.Some? <==> exists x :: x in ratings && x.userId == userId && x.movieId == movieId
    ensures r.Some? ==> exists x :: x in ratings && x.userId == userId && x.movieId == movieId && r.value == MapToResponse(x)
  {
    var found := FindByUserIdAndMovieId(ratings, userId, movieId);
    if found.Some? then Some(MapToResponse(found.value)) else None
  }

  /** getMovieRatingStats(movieId): the number of the movie's ratings and the mean of their scores. */
  function GetMovieRatingStats(ratings: seq<Rating>, movieId: MovieId): (r: MovieRatingStats)
    ensures r.movieId == movieId
    ensures r.totalRatings == |FindByMovieId(ratings, movieId)|
    ensures r.totalRatings == 0 ==> r.averageScore == 0.0
    ensures r.totalRatings > 0 ==>
      r.averageScore == (SumScores(FindByMovieId(ratings, movieId)) as real) / (r.totalRatings as real)
  {
    var mine := FindByMovieId(ratings, movieId);
    if mine == [] then MovieRatingStats(movieId, 0.0, 0)
    else MovieRatingStats(movieId, (SumScores(mine) as real) / (|mine| as real), |mine|)
  }

  // ---------------------------------------------------------------------------
  // Properties
  // ---------------------------------------------------------------------------

  /** A request without a score throws a NullPointerException, and a score
      outside 1..10 is rejected with IllegalArgumentException; either way
      nothing changes. */
  lemma CreateRejectsOutOfRangeScore(db: RatingDb, userId: string, request: RatingRequest, now: int, delivered: bool)
    requires !AcceptedScore(request)
    ensures CreateRating(db, userId, request, now, delivered)
      == Outcome(db, Err(if request.score.None? then NullPointer else IllegalArgument(SCORE_RANGE_MESSAGE)))
  {
  }

  /** A second rating of the same movie by the same user is rejected with
      IllegalStateException and nothing changes. */
  lemma CreateRejectsDuplicate(db: RatingDb, userId: string, request: RatingRequest, now: int, delivered: bool)
    requires AcceptedScore(request)
    requires exists x :: x in db.ratings && x.userId == userId && x.movieId == request.movieId
    ensures CreateRating(db, userId, request, now, delivered) == Outcome(db, Err(IllegalState(DUPLICATE_MESSAGE)))
  {
  }

  /** A successful create appends exactly one rating carrying the request's
      fields, returns it, and whether the notification was delivered changes
      neither the stored ratings nor the response. */
  lemma CreateSuccess(db: RatingDb, userId: string, request: RatingRequest, now: int, delivered: bool)
    requires AcceptedScore(request)
    requires forall x :: x in db.ratings ==> x.userId != userId || x.movieId != request.movieId
    ensures var o := CreateRating(db, userId, request, now, delivered);
      && o.result.Ok?
      && |o.db.ratings| == |db.ratings| + 1
      && o.db.ratings[..|db.ratings|] == db.ratings
      && var r := o.db.ratings[|db.ratings|];
         r.userId == userId && r.movieId == request.movieId && r.score == request.score.value
         && r.comment == request.comment && r.createdAt == now
         && o.result.value == MapToResponse(r)
    ensures CreateRating(db, userId, request, now, delivered).result == CreateRating(db, userId, request, now, !delivered).result
    ensures CreateRating(db, userId, request, now, delivered).db.ratings == CreateRating(db, userId, request, now, !delivered).db.ratings
  {
    var o := CreateRating(db, userId, request, now, delivered);
    assert o.db.ratings[..|db.ratings|] == db.ratings;
  }

  /** A delivered notification reports the user's rating count including the
      new one; a request without a movie id sends none. */
  lemma CreateNotifiesNewCount(db: RatingDb, userId: string, request: RatingRequest, now: int)
    requires AcceptedScore(request)
    requires FindByUserIdAndMovieId(db.ratings, userId, request.movieId).None?
    ensures var o := CreateRating(db, userId, request, now, true);
      o.db.notifications == db.notifications
        + (if request.movieId.Some?
           then [RatingNotification(userId, request.movieId.value, CountByUserId(db.ratings, userId) + 1)]
           else [])
  {
    CountByUserIdAppend(db.ratings, Rating(db.nextId, userId, request.movieId, request.score.value, request.comment, now), userId);
  }

  lemma {:induction false} CountByUserIdAppend(s: seq<Rating>, x: Rating, userId: string)
    ensures CountByUserId(s + [x], userId) == CountByUserId(s, userId) + (if x.userId == userId then 1 else 0)
    decreases |s|
  {
    if s == [] {
      assert CountByUserId([x], userId) == (if x.userId == userId then 1 else 0) + CountByUserId([], userId);
    } else {
      assert (s + [x])[1..] == s[1..] + [x];
      CountByUserIdAppend(s[1..], x, userId);
    }
  }

  /** Creating keeps the store valid: in particular at most one rating per (user, movie). */
  lemma CreateKeepsValid(db: RatingDb, userId: string, request: RatingRequest, now: int, delivered: bool)
    requires DbValid(db)
    ensures DbValid(CreateRating(db, userId, request, now, delivered).db)
  {
    var o := CreateRating(db, userId, request, now, delivered);
    if o.result.Ok? {
      var rs := o.db.ratings;
      forall i, j | 0 <= i < j < |rs| ensures Apart(rs[i], rs[j]) {
        if j == |db.ratings| {
          assert rs[i] == db.ratings[i] && db.ratings[i] in db.ratings;
        } else {
          assert rs[i] == db.ratings[i] && rs[j] == db.ratings[j];
        }
      }
    }
  }

  /** An unknown id fails with "Rating not found" and nothing is saved. */
  lemma UpdateUnknownIdFails(db: RatingDb, ratingId: RatingId, request: RatingUpdateRequest)
    requires forall x :: x in db.ratings ==> x.id != ratingId
    ensures UpdateRating(db, ratingId, request) == Outcome(db, Err(IllegalArgument(NOT_FOUND_MESSAGE)))
  {
  }

  /** A present but out-of-range score fails and nothing is saved. */
  lemma UpdateBadScoreFails(db: RatingDb, ratingId: RatingId, request: RatingUpdateRequest)
    requires exists x :: x in db.ratings && x.id == ratingId
    requires request.score.Some? && !ValidScore(request.score.value)
    ensures UpdateRating(db, ratingId, request) == Outcome(db, Err(IllegalArgument(SCORE_RANGE_MESSAGE)))
  {
  }

  /** A successful update changes only the addressed rating, and in it only the
      fields the request carries: id, user, movie and creation time are kept. */
  lemma UpdateIsPartial(db: RatingDb, ratingId: RatingId, request: RatingUpdateRequest)
    requires DbValid(db)
    requires exists x :: x in db.ratings && x.id == ratingId
    requires request.score.None? || ValidScore(request.score.value)
    ensures var o := UpdateRating(db, ratingId, request);
      && o.result.Ok?
      && o.db.nextId == db.nextId && o.db.notifications == db.notifications
      && |o.db.ratings| == |db.ratings|
      && forall i :: 0 <= i < |db.ratings| ==>
           var old_, new_ := db.ratings[i], o.db.ratings[i];
           && new_.id == old_.id && new_.userId == old_.userId
           && new_.movieId == old_.movieId && new_.createdAt == old_.createdAt
           && (old_.id != ratingId ==> new_ == old_)
           && (old_.id == ratingId ==>
                 && new_.score == (if request.score.Some? then request.score.value else old_.score)
                 && new_.comment == (if request.comment.Some? then request.comment else old_.comment)
                 && o.result.value == MapToResponse(new_))
  {
  }

  lemma UpdateKeepsValid(db: RatingDb, ratingId: RatingId, request: RatingUpdateRequest)
    requires DbValid(db)
    ensures DbValid(UpdateRating(db, ratingId, request).db)
  {
    var o := UpdateRating(db, ratingId, request);
    if o.result.Ok? {
      var k := IndexOfId(db.ratings, ratingId).value;
      var rs := o.db.ratings;
      assert forall i :: 0 <= i < |rs| ==> rs[i].userId == db.ratings[i].userId && rs[i].movieId == db.ratings[i].movieId && rs[i].id == db.ratings[i].id;
    }
  }

  /** Deleting an absent id fails with "Rating not found"; otherwise exactly the
      rating with that id is removed and nothing else changes. */
  lemma DeleteRemovesExactlyThatRating(db: RatingDb, ratingId: RatingId)
    ensures var o := DeleteRating(db, ratingId);
      if exists x :: x in db.ratings && x.id == ratingId then
        && o.result == Ok(())
        && o.db.nextId == db.nextId && o.db.notifications == db.notifications
        && (forall x :: x in o.db.ratings <==> x in db.ratings && x.id != ratingId)
      else o == Outcome(db, Err(IllegalArgument(NOT_FOUND_MESSAGE)))
  {
  }

  lemma TailApart(s: seq<Rating>)
    requires s != [] && PairwiseApart(s)
    ensures PairwiseApart(s[1..])
    ensures forall x :: x in s[1..] ==> Apart(s[0], x)
  {
    var t := s[1..];
    forall i, j | 0 <= i < j < |t| ensures Apart(t[i], t[j]) {
      assert t[i] == s[i + 1] && t[j] == s[j + 1];
    }
    forall x | x in t ensures Apart(s[0], x) {
      var k :| 0 <= k < |t| && t[k] == x;
      assert s[k + 1] == x;
    }
  }

  lemma ConsApart(x: Rating, rest: seq<Rating>)
    requires PairwiseApart(rest)
    requires forall y :: y in rest ==> Apart(x, y)
    ensures PairwiseApart([x] + rest)
  {
    var r := [x] + rest;
    forall i, j | 0 <= i < j < |r| ensures Apart(r[i], r[j]) {
      assert r[j] == rest[j - 1];
      if i > 0 {
        assert r[i] == rest[i - 1];
      }
    }
  }

  lemma {:induction false} RemoveIdKeepsApart(s: seq<Rating>, id: RatingId)
    requires PairwiseApart(s)
    ensures PairwiseApart(RemoveId(s, id))
    decreases |s|
  {
    if s != [] {
      TailApart(s);
      RemoveIdKeepsApart(s[1..], id);
      if s[0].id != id {
        ConsApart(s[0], RemoveId(s[1..], id));
      }
    }
  }

  lemma DeleteKeepsValid(db: RatingDb, ratingId: RatingId)
    requires DbValid(db)
    ensures DbValid(DeleteRating(db, ratingId).db)
  {
    var o := DeleteRating(db, ratingId);
    if o.result.Ok? {
      RemoveIdKeepsApart(db.ratings, ratingId);
      var rs := o.db.ratings;
      forall i | 0 <= i < |rs| ensures rs[i].id < db.nextId && ValidScore(rs[i].score) {
        assert rs[i] in db.ratings;
      }
    }
  }

  lemma {:induction false} SumScoresBounds(s: seq<Rating>)
    requires forall x :: x in s ==> ValidScore(x.score)
    ensures |s| <= SumScores(s) <= 10 * |s|
    decreases |s|
  {
    if s != [] {
      assert s[0] in s;
      SumScoresBounds(s[1..]);
    }
  }

  /** With every stored score in 1..10, a movie's average lies in 1..10 whenever it has ratings. */
  lemma AverageWithinScoreRange(db: RatingDb, movieId: MovieId)
    requires DbValid(db)
    ensures var st := GetMovieRatingStats(db.ratings, movieId);
      st.totalRatings > 0 ==> 1.0 <= st.averageScore <= 10.0
  {
    var mine := FindByMovieId(db.ratings, movieId);
    if mine != [] {
      forall x | x in mine ensures ValidScore(x.score) {
        var i :| 0 <= i < |db.ratings| && db.ratings[i] == x;
      }
      SumScoresBounds(mine);
      QuotientBounds(SumScores(mine) as real, |mine| as real);
    }
  }

  lemma DivMonotone(a: real, b: real, n: real)
    requires n > 0.0 && a <= b
    ensures a / n <= b / n
  {
    assert (b - a) / n >= 0.0;
  }

  lemma QuotientBounds(sum: real, n: real)
    requires n > 0.0 && n <= sum <= 10.0 * n
    ensures 1.0 <= sum / n <= 10.0
  {
    DivMonotone(n, sum, n);
    DivMonotone(sum, 10.0 * n, n);
    assert n / n == 1.0;
    assert (10.0 * n) / n == 10.0;
  }

  // ---------------------------------------------------------------------------
  // The service object
  // ---------------------------------------------------------------------------

  /** RatingService with its repository and notification client held in fields. */
  class Store {
    var ratings: seq<Rating>
    var nextId: nat
    var notifications: seq<RatingNotification>

    function Db(): RatingDb
      reads this
    {
      RatingDb(ratings, nextId, notifications)
    }

    ghost predicate Valid()
      reads this
    {
      DbValid(Db())
    }

    constructor ()
      ensures Valid() && ratings == [] && notifications == []
    {
      ratings, nextId, notifications := [], 0, [];
    }

    method Create(userId: string, request: RatingRequest, now: int, delivered: bool)
      returns (result: Result<RatingResponse, ServiceError>)
      requires Valid()
      modifies this
      ensures Valid()
      ensures Outcome(Db(), result) == CreateRating(old(Db()), userId, request, now, delivered)
    {
      CreateKeepsValid(Db(), userId, request, now, delivered);
      if request.score.None? {
        return Err(NullPointer);
      }
      var score := request.score.value;
      if score < 1 || score > 10 {
        return Err(IllegalArgument(SCORE_RANGE_MESSAGE));
      }
      var existing := FindByUserIdAndMovieId(ratings, userId, request.movieId);
      if existing.Some? {
        return Err(IllegalState(DUPLICATE_MESSAGE));
      }
      var rating := Rating(nextId, userId, request.movieId, score, request.comment, now);
      ratings := ratings + [rating];
      nextId := nextId + 1;
      if delivered && request.movieId.Some? {
        var totalRatings := CountByUserId(ratings, userId);
        notifications := notifications + [RatingNotification(userId, request.movieId.value, totalRatings)];
      }
      result := Ok(MapToResponse(rating));
    }

    method Update(ratingId: RatingId, request: RatingUpdateRequest)
      returns (result: Result<RatingResponse, ServiceError>)
      requires Valid()
      modifies this
      ensures Valid()
      ensures Outcome(Db(), result) == UpdateRating(old(Db()), ratingId, request)
    {
      UpdateKeepsValid(Db(), ratingId, request);
      var k := IndexOfId(ratings, ratingId);
      if k.None? {
        return Err(IllegalArgument(NOT_FOUND_MESSAGE));
      }
      var rating := ratings[k.value];
      if request.score.Some? {
        if request.score.value < 1 || request.score.value > 10 {
          return Err(IllegalArgument(SCORE_RANGE_MESSAGE));
        }
        rating := rating.(score := request.score.value);
      }
      if request.comment.Some? {
        rating := rating.(comment := request.comment);
      }
      ratings := ratings[k.value := rating];
      result := Ok(MapToResponse(rating));
    }

    method Delete(ratingId: RatingId) returns (result: Result<(), ServiceError>)
      requires Valid()
      modifies this
      ensures Valid()
      ensures Outcome(Db(), result) == DeleteRating(old(Db()), ratingId)
    {
      DeleteKeepsValid(Db(), ratingId);
      if IndexOfId(ratings, ratingId).None? {
        return Err(IllegalArgument(NOT_FOUND_MESSAGE));
      }
      ratings := RemoveId(ratings, ratingId);
      result := Ok(());
    }
  }
}
