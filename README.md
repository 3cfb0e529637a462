# CineQuest core in Dafny

CineQuest is a movie-rating site. It has Spring services and a React front end. This project models the parts of both that carry decisions, and proves what those parts promise:

- **Achievement engine** (`achievement_service.dfy`). It maps sign-in and rating counts to badges. It awards each badge at most once per user and logs one `achievement_unlocked` event per award.
- **Rating store** (`rating_service.dfy`). Create, update, delete, look-up and statistics over the ratings collection.
- **Rating controller** (`rating_controller.dfy`). It maps service outcomes to HTTP statuses and sets the paging defaults.
- **Sign service** (`sign_service.dfy`). The daily check-in, idempotent per user and day.
- **TMDB service** (`tmdb_service.dfy`). Cache-aside access to the movie API, plus its fallbacks.
- **Gateway routes** (`gateway_routes.dfy`). The GET retry filter and the filters of each route.
- **Security config** (`security_config.dfy`). The ordered access-rule table.
- **Front-end API layer:**
  - `browser.dfy`: the browser storage and location the client shares;
  - `client.js` interceptors (`client.dfy`): bearer token, one refresh-and-retry on 401, session clear;
  - `auth.js` session store (`auth.dfy`);
  - `ratings.js` request mapping (`ratings_api.dfy`).
- **Front-end logic:**
  - `use_achievement_unlock.dfy`: the achievement-unlock detector;
  - `pagination.dfy`: the pagination window;
  - `image_utils.dfy`: the image-URL check;
  - `error_message.dfy`: the error-message classifier;
  - `query_keys.dfy`: the query-cache keys;
  - `achievements_page.dfy`: the achievements page;
  - `movie_detail.dfy`: the rating editor of the movie page.

`common.dfy` holds Option and Result and the JavaScript string helpers the modules share: trim, startsWith and integer rendering.

How the model is built:

- **State.** Code that updates state in place is a class. Each method ensures that its new state equals a pure function of the old state and its inputs. The lemmas are proved about those functions.
- **Environment.** The clock, the answers of remote calls, the URL parser and the user's confirm dialog are all parameters:
  - a notification or refresh call is an outcome parameter;
  - a successful Kafka or gRPC send is an appended record;
  - a redirect is a recorded location.
- **Numbers.** Integers are unbounded. The stored ids that the database generates come from a counter.

## Model

| member | source | states |
|---|---|---|
| AchievementService.DetermineSignBadge | achievement-service/src/main/java/comp41720/cinequest/achievementservice/service/AchievementService.java:48-59 | A sign badge exists exactly for counts 1, 10, 50 and 100; its description is "Signed in N days". |
| AchievementService.DetermineRatingBadge | achievement-service/src/main/java/comp41720/cinequest/achievementservice/service/AchievementService.java:61-70 | A rating badge exists exactly for counts 1, 10 and 50; its description is "Posted N ratings". |
| AchievementService.EngineBadgesComplete | achievement-service/src/main/java/comp41720/cinequest/achievementservice/service/AchievementService.java:48-70 | The seven-entry badge table lists exactly what the two if-chains can return, with names and levels. |
| AchievementService.LadderIsStrict | achievement-service/src/main/java/comp41720/cinequest/achievementservice/service/AchievementService.java:48-70 | A higher threshold gives a strictly higher level; distinct thresholds give distinct names. |
| AchievementService.SignAndRatingNamesDisjoint | achievement-service/src/main/java/comp41720/cinequest/achievementservice/service/AchievementService.java:48-70 | No sign badge shares a name with a rating badge. |
| AchievementService.FindByUserIdAndBadgeName | achievement-service/src/main/java/comp41720/cinequest/achievementservice/service/AchievementService.java:75 | Finds a badge exactly when one with that user and name is stored. |
| AchievementService.GetUserBadges | achievement-service/src/main/java/comp41720/cinequest/achievementservice/service/AchievementService.java:43-46 | Returns exactly the stored badges of that user. |
| AchievementService.AwardBadgeEffect | achievement-service/src/main/java/comp41720/cinequest/achievementservice/service/AchievementService.java:72-97 | An award either changes nothing, when the badge is held, or appends one badge with the given type, level, description and time, and one event on topic "achievement_unlocked" that carries the user's e-mail and name and announces exactly that badge. |
| AchievementService.AwardBadgeIdempotent | achievement-service/src/main/java/comp41720/cinequest/achievementservice/service/AchievementService.java:75-80 | Awarding the same badge twice equals awarding it once. |
| AchievementService.AwardBadgeKeepsUnique | achievement-service/src/main/java/comp41720/cinequest/achievementservice/service/AchievementService.java:75-92 | The store never holds two badges with the same (user, name). |
| AchievementService.NonThresholdCountChangesNothing | achievement-service/src/main/java/comp41720/cinequest/achievementservice/service/AchievementService.java:27-30 | A count that is not a threshold leaves the store and the event log unchanged. |
| AchievementService.ProcessTagsBadgeType | achievement-service/src/main/java/comp41720/cinequest/achievementservice/service/AchievementService.java:23-41 | processSignCount adds only SIGN badges; processRatingCount adds only RATING badges. |
| AchievementService.ProcessKeepsLedgerValid | achievement-service/src/main/java/comp41720/cinequest/achievementservice/service/AchievementService.java:23-97 | Both processing operations keep the store unique and engine-issued, and the event log announces exactly the stored badges, one event per badge, in order. |
| AchievementService.EmptyLedgerValid | achievement-service/src/main/java/comp41720/cinequest/achievementservice/service/AchievementService.java:23-97 | The empty store and log satisfy that invariant, so every ledger the two operations reach from it is valid. |
| AchievementService.AwardBadgeKeepsValid | achievement-service/src/main/java/comp41720/cinequest/achievementservice/service/AchievementService.java:72-97 | Awarding an engine badge keeps the store unique, engine-issued and in step with the event log. |
| AchievementService.AwardBadgeOtherUsersUnchanged | achievement-service/src/main/java/comp41720/cinequest/achievementservice/service/AchievementService.java:72-97 | An award to one user leaves every other user's badges unchanged. |
| AchievementService.AtMostSevenBadges | achievement-service/src/main/java/comp41720/cinequest/achievementservice/service/AchievementService.java:43-97 | In a valid store a user holds at most seven badges. |
| AchievementService.Engine.Award | achievement-service/src/main/java/comp41720/cinequest/achievementservice/service/AchievementService.java:72-97 | The new store and log are AwardBadge of the old ones, and the invariant is kept. |
| AchievementService.Engine.ProcessSignCountAt | achievement-service/src/main/java/comp41720/cinequest/achievementservice/service/AchievementService.java:23-31 | The new store and log are ProcessSignCount of the old ones. |
| AchievementService.Engine.ProcessRatingCountAt | achievement-service/src/main/java/comp41720/cinequest/achievementservice/service/AchievementService.java:33-41 | The new store and log are ProcessRatingCount of the old ones. |
| AchievementService.Engine.UserBadges | achievement-service/src/main/java/comp41720/cinequest/achievementservice/service/AchievementService.java:43-46 | Returns exactly the held badges of that user. |
| RatingService.FindByUserIdAndMovieId | rating-service/src/main/java/comp41720/cinequest/ratingservice/service/RatingService.java:33-36 | Finds a rating exactly when one with that user and movie is stored. |
| RatingService.GetUserRatingForMovie | rating-service/src/main/java/comp41720/cinequest/ratingservice/service/RatingService.java:104-109 | Present exactly when the user rated the movie, and then it is that rating's response. |
| RatingService.GetMovieRatingStats | rating-service/src/main/java/comp41720/cinequest/ratingservice/service/RatingService.java:125-140 | (movieId, 0, 0) without ratings; otherwise the count of the movie's ratings and their score sum divided by that count. |
| RatingService.CreateRejectsOutOfRangeScore | rating-service/src/main/java/comp41720/cinequest/ratingservice/service/RatingService.java:27-30 | A missing score throws NullPointerException on unboxing; a score outside 1..10 fails with IllegalArgumentException. Either way nothing changes. |
| RatingService.CreateRejectsDuplicate | rating-service/src/main/java/comp41720/cinequest/ratingservice/service/RatingService.java:32-40 | A second rating for the same (user, movie) fails with IllegalStateException and changes nothing. |
| RatingService.CreateSuccess | rating-service/src/main/java/comp41720/cinequest/ratingservice/service/RatingService.java:42-65 | A successful create appends exactly one rating carrying the given user, movie, score, comment and time; a missing movie id is stored and returned as null. A failed notification does not change the result. |
| RatingService.CreateNotifiesNewCount | rating-service/src/main/java/comp41720/cinequest/ratingservice/service/RatingService.java:53-59 | A delivered notification carries the user's rating count including the new one; a request without a movie id sends none, since the gRPC request cannot hold a null movie id. |
| RatingService.CreateKeepsValid | rating-service/src/main/java/comp41720/cinequest/ratingservice/service/RatingService.java:24-66 | Create keeps ids distinct and scores in range, with at most one rating per (user, movie). |
| RatingService.UpdateUnknownIdFails | rating-service/src/main/java/comp41720/cinequest/ratingservice/service/RatingService.java:71-72 | An unknown id fails with "Rating not found" and nothing is saved. |
| RatingService.UpdateBadScoreFails | rating-service/src/main/java/comp41720/cinequest/ratingservice/service/RatingService.java:75-78 | A present score out of range fails and nothing is saved. |
| RatingService.UpdateIsPartial | rating-service/src/main/java/comp41720/cinequest/ratingservice/service/RatingService.java:68-90 | Only the addressed rating changes. An absent score or comment keeps that field. User, movie, id and creation time never change. |
| RatingService.UpdateKeepsValid | rating-service/src/main/java/comp41720/cinequest/ratingservice/service/RatingService.java:68-90 | Update keeps the store valid. |
| RatingService.DeleteRemovesExactlyThatRating | rating-service/src/main/java/comp41720/cinequest/ratingservice/service/RatingService.java:92-101 | An absent id fails with "Rating not found"; otherwise exactly the ratings with that id are removed. |
| RatingService.DeleteKeepsValid | rating-service/src/main/java/comp41720/cinequest/ratingservice/service/RatingService.java:92-101 | Delete keeps the store valid. |
| RatingService.AverageWithinScoreRange | rating-service/src/main/java/comp41720/cinequest/ratingservice/service/RatingService.java:128-139 | In a valid store a rated movie's average lies in 1..10. |
| RatingService.Store.Create | rating-service/src/main/java/comp41720/cinequest/ratingservice/service/RatingService.java:24-66 | The new state and the result are CreateRating of the old state, a null movie id included, and the store stays valid. |
| RatingService.Store.Update | rating-service/src/main/java/comp41720/cinequest/ratingservice/service/RatingService.java:68-90 | The new state and the result are UpdateRating of the old state. |
| RatingService.Store.Delete | rating-service/src/main/java/comp41720/cinequest/ratingservice/service/RatingService.java:92-101 | The new state and the result are DeleteRating of the old state. |
| RatingController.ListPageRequest | rating-service/src/main/java/comp41720/cinequest/ratingservice/controller/RatingController.java:83-107 | page defaults to 0 and size to 20, sorted by createdAt descending; given values are kept. |
| RatingController.Post | rating-service/src/main/java/comp41720/cinequest/ratingservice/controller/RatingController.java:25-39 | A missing score escapes the handler as a NullPointerException (a 500). Otherwise 201 exactly when the score is valid and the pair is new, with the created rating as body: the next id, the user, movie, score and comment of the request, and the current time. A missing movie id is created and answered as null. Otherwise 400 without a body. |
| RatingController.Put | rating-service/src/main/java/comp41720/cinequest/ratingservice/controller/RatingController.java:41-54 | 200 exactly when the rating exists and any given score is valid; otherwise 404. |
| RatingController.Delete | rating-service/src/main/java/comp41720/cinequest/ratingservice/controller/RatingController.java:56-70 | 204 exactly when the rating exists, otherwise 404. |
| RatingController.Get | rating-service/src/main/java/comp41720/cinequest/ratingservice/controller/RatingController.java:72-81 | 200 with the rating exactly when the user rated the movie, otherwise 404. |
| RatingController.Stats | rating-service/src/main/java/comp41720/cinequest/ratingservice/controller/RatingController.java:109-115 | Always 200, with the movie's id, its rating count and the mean score (0 without ratings). |
| SignService.FindByUserIdAndSignDate | sign-service/src/main/java/comp41720/cinequest/signservice/service/SignService.java:27 | Finds a record exactly when one for that user and day is stored. |
| SignService.FirstSignInOfDay | sign-service/src/main/java/comp41720/cinequest/signservice/service/SignService.java:27-42 | The first sign-in of a day stores exactly one record (user, today). The user's count grows by one, and the notification carries the new count. |
| SignService.RepeatedSignInSameDay | sign-service/src/main/java/comp41720/cinequest/signservice/service/SignService.java:43-45 | A repeated sign-in the same day stores nothing, sends nothing and keeps the count. |
| SignService.ResponseMatchesStore | sign-service/src/main/java/comp41720/cinequest/signservice/service/SignService.java:47-52 | The response carries the day's record and the number of the user's records. |
| SignService.NotifiesOnlyOnNewRecord | sign-service/src/main/java/comp41720/cinequest/signservice/service/SignService.java:36-42 | A notification is sent only on the new-record path, and its failure does not fail the sign-in. |
| SignService.SignInKeepsValid | sign-service/src/main/java/comp41720/cinequest/signservice/service/SignService.java:27-33 | At most one record ever exists per (user, day). |
| SignService.Service.SignIn | sign-service/src/main/java/comp41720/cinequest/signservice/service/SignService.java:22-54 | The new state and the response are SignInOutcome of the old state. |
| TMDBService.PopularKeyInjective | backend/movie-service/src/main/java/com/cinequest/movieservice/service/TMDBService.java:48 | Distinct pages have distinct "movies:popular:" keys. |
| TMDBService.DetailsKeyInjective | backend/movie-service/src/main/java/com/cinequest/movieservice/service/TMDBService.java:76 | Distinct ids have distinct "movies:details:" keys. |
| TMDBService.SearchKeyInjective | backend/movie-service/src/main/java/com/cinequest/movieservice/service/TMDBService.java:105 | Distinct (query, page) pairs have distinct search keys, whatever colons the query holds. |
| TMDBService.KeyFamiliesDisjoint | backend/movie-service/src/main/java/com/cinequest/movieservice/service/TMDBService.java:48-105 | Popular, details and search keys never collide. |
| TMDBService.HitReturnsCached | backend/movie-service/src/main/java/com/cinequest/movieservice/service/TMDBService.java:51-55 | A hit returns the cached value, makes no API call and leaves the cache unchanged. |
| TMDBService.MissFetchesAndStoresNonNull | backend/movie-service/src/main/java/com/cinequest/movieservice/service/TMDBService.java:57-70 | A miss whose call answers makes one call and returns the answer; the answer is cached exactly when it is not null, and no other key changes. |
| TMDBService.SecondCallHits | backend/movie-service/src/main/java/com/cinequest/movieservice/service/TMDBService.java:51-70 | After a cached miss, the next call for that key is a hit. |
| TMDBService.FallbackNeverCached | backend/movie-service/src/main/java/com/cinequest/movieservice/service/TMDBService.java:45-70 | A failed call returns the fallback and caches nothing, so the next call for that key calls the API again. |
| TMDBService.FallbackAnswers | backend/movie-service/src/main/java/com/cinequest/movieservice/service/TMDBService.java:131-164 | On a failed miss, popular and search answer the requested page with no results, 0 pages and 0 results, whatever the query; details answers the requested id with the "temporarily unavailable" title and overview. |
| TMDBService.GettersKeepWellTyped | backend/movie-service/src/main/java/com/cinequest/movieservice/service/TMDBService.java:47-128 | Detail keys hold movies and the other keys hold pages, so the casts on reading succeed. |
| TMDBService.Service.GetPopularMovies | backend/movie-service/src/main/java/com/cinequest/movieservice/service/TMDBService.java:45-71 | Answer, cache and call log are the popular cache-aside step of the old state, with the popular fallback on a failed call. |
| TMDBService.Service.GetMovieDetails | backend/movie-service/src/main/java/com/cinequest/movieservice/service/TMDBService.java:73-99 | Answer, cache and call log are the details cache-aside step of the old state, with the details fallback on a failed call. |
| TMDBService.Service.SearchMovies | backend/movie-service/src/main/java/com/cinequest/movieservice/service/TMDBService.java:102-128 | Answer, cache and call log are the search cache-aside step of the old state, with the search fallback on a failed call. |
| GatewayRoutes.RetryLoop | gateway/src/main/java/com/cinequest/gateway/config/Routes.java:84-108 | At most max(maxRetries, 0) calls. The first success is returned and ends the loop. Otherwise it throws "failed after maxRetries attempts", wrapping the last exception, or none when maxRetries ≤ 0. |
| GatewayRoutes.RetryFilter | gateway/src/main/java/com/cinequest/gateway/config/Routes.java:77-110 | The corrected filter. A non-GET request is handled exactly once and passes through; a GET request runs the attempt loop. |
| GatewayRoutes.RetryFilterOn | gateway/src/main/java/com/cinequest/gateway/config/Routes.java:77-110 | The filter's body, for the value its test hands to "GET".equals. Anything that is not the string "GET" is handled exactly once. Otherwise the attempt loop stops at the first success within maxRetries calls and else throws the exhaustion error with the last failure as cause. |
| GatewayRoutes.AsWrittenNeverRetries | gateway/src/main/java/com/cinequest/gateway/config/Routes.java:80 | As written, the test compares the string "GET" with an HttpMethod object, so every request, GET included, takes the pass-through branch. |
| GatewayRoutes.RetryFilterAsWritten | gateway/src/main/java/com/cinequest/gateway/config/Routes.java:77-110 | The filter as written hands the HttpMethod object itself to the test, so it handles every request exactly once and a failing GET is never retried. |
| GatewayRoutes.ServiceRoutesRetryTwice | gateway/src/main/java/com/cinequest/gateway/config/Routes.java:197-290 | All six service routes use retryFilter(2); all but the movie route add the user-id header. |
| SecurityConfig.FirstMatch | gateway/src/main/java/comp41720/cinequest/gateway/config/SecurityConfig.java:30-53 | None exactly when no rule matches; otherwise the decision of the first matching rule. |
| SecurityConfig.DecideIsPublic | gateway/src/main/java/comp41720/cinequest/gateway/config/SecurityConfig.java:30-53 | A request is permitted exactly when it is one of the public requests, stated directly. |
| SecurityConfig.OptionsAlwaysPermitted | gateway/src/main/java/comp41720/cinequest/gateway/config/SecurityConfig.java:32 | OPTIONS on any path is permitted. |
| SecurityConfig.PublicTreesOpenToAllMethods | gateway/src/main/java/comp41720/cinequest/gateway/config/SecurityConfig.java:34-41 | /fallback, /keycloak, /api/movie, /api/movies and /api/achievement and everything below them are open to every method. |
| SecurityConfig.RatingsReadPublicWriteAuthenticated | gateway/src/main/java/comp41720/cinequest/gateway/config/SecurityConfig.java:44-49 | GET under /api/ratings is permitted; other methods there, OPTIONS aside, need authentication. |
| SecurityConfig.SignAlwaysAuthenticated | gateway/src/main/java/comp41720/cinequest/gateway/config/SecurityConfig.java:49 | Everything under /api/sign but OPTIONS needs authentication. |
| SecurityConfig.PluralAchievementsAuthenticated | gateway/src/main/java/comp41720/cinequest/gateway/config/SecurityConfig.java:41-52 | /api/achievements (plural) matches no permit rule and needs authentication, OPTIONS aside. |
| BrowserStorage.ClearSession | frontend/src/api/client.js:86-88 | The three session keys are gone; every other key keeps its value. |
| ApiClient.AttachToken | frontend/src/api/client.js:21-24 | With a truthy stored access token, Authorization becomes "Bearer " + token; otherwise the headers are untouched. |
| ApiClient.AcceptedPassesThrough | frontend/src/api/client.js:47-57 | A 2xx reply resolves unchanged and changes nothing. |
| ApiClient.AtMostOneRefreshPerRequest | frontend/src/api/client.js:62-63 | A first 401 sets _retry. A 401 on an already-retried request is rejected with the original error, with no refresh. |
| ApiClient.MissingRefreshTokenFails | frontend/src/api/client.js:67-71 | Without a stored refresh token, the refresh fails and the session is cleared. |
| ApiClient.RefreshSuccessReissues | frontend/src/api/client.js:78-82 | A successful refresh stores the new token and reissues the request with "Bearer " + new token. |
| ApiClient.RefreshFailureClearsSession | frontend/src/api/client.js:65-93 | A failed refresh removes the three keys, keeps every other key and goes to /login. It rejects with the refresh error, or with the no-refresh-token error when none was stored. |
| ApiClient.OtherErrorsRejectUnchanged | frontend/src/api/client.js:96-128 | Any other error leaves storage and location alone and rejects with the original reply. |
| ApiClient.ReissueKeepsNewToken | frontend/src/api/client.js:78-82 | The reissued request's header survives the request interceptor, because the stored token is the new one. |
| ApiClient.RequestInterceptor | frontend/src/api/client.js:18-43 | The config's headers become AttachToken of the stored token. |
| ApiClient.ResponseInterceptor | frontend/src/api/client.js:46-130 | Storage, location, headers, retry flag and settlement follow OnReply of the old state. |
| AuthApi.GetStoredUser | frontend/src/api/auth.js:56-59 | Null when the stored value is falsy; the parsed user when it is a serialized document; an error exactly when it is text. |
| AuthApi.LoginAuthenticates | frontend/src/api/auth.js:16-18 | Login stores both tokens and the serialized user. A missing token is stored as "undefined", which still counts as signed in. |
| AuthApi.LoginThenStoredUser | frontend/src/api/auth.js:16-18 | After login the stored user reads back as the response's user; a missing user reads back as a SyntaxError. |
| AuthApi.LogoutSignsOut | frontend/src/api/auth.js:26-35 | Logout removes the three keys whether or not the server call fails; afterwards the user is signed out. |
| AuthApi.LoginThenLogout | frontend/src/api/auth.js:9-35 | After login and then logout, isAuthenticated is false and the stored user is null. |
| AuthApi.CurrentUserTouchesOnlyUser | frontend/src/api/auth.js:40-44 | getCurrentUser overwrites only the user key. The tokens and isAuthenticated stay as before, and the stored user reads back as the fetched one. |
| AuthApi.LoginKeepsOtherKeys | frontend/src/api/auth.js:16-18 | Login leaves every key other than the three session keys alone. |
| AuthApi.Login | frontend/src/api/auth.js:9-21 | Storage becomes LoginStorage of the response on success and is unchanged on failure. |
| AuthApi.Logout | frontend/src/api/auth.js:26-35 | Storage becomes ClearSession of the old storage. |
| AuthApi.GetCurrentUser | frontend/src/api/auth.js:40-44 | Only the user key changes, to the serialized user, on success. |
| RatingsApi.CreateAndUpdatePayload | frontend/src/api/ratings.js:63-85 | POST and PUT send the same body to the base path, with the rating as score. Two bodies are equal iff movie, rating and comment agree, a missing and an empty comment counting as the same. |
| RatingsApi.PagingDefaultsAgreeWithController | frontend/src/api/ratings.js:10-27 | Omitted page and size ask the rating service for the same page request as its own defaults; given values arrive unchanged. |
| RatingsApi.ContentOrData | frontend/src/api/ratings.js:15 | `data.content || data`: throws exactly on a null body. An object with a truthy content field gives that field's value, where the last field of the name wins. Every other body comes back unchanged, and a changed result is always a truthy content field of the body. |
| RatingsApi.ContentOrDataPassThrough | frontend/src/api/ratings.js:15-26 | A bare array, an empty object, and an object whose content is null, "", 0 or false all come back unchanged. |
| RatingsApi.PageUnwrapsToContent | frontend/src/api/ratings.js:15-26 | A Spring page answer unwraps to its content array. |
| RatingsApi.UserMovieRatingOutcomes | frontend/src/api/ratings.js:42-55 | 200 and 404 resolve with the body; every other status rethrows. |
| RatingsApi.DeleteByMovieIdParam | frontend/src/api/ratings.js:92-97 | DELETE goes to the base path with the one query parameter movieId. |
| RatingsApi.MoviePathsDistinct | frontend/src/api/ratings.js:22-36 | A movie's ratings path and any movie's stats path never coincide. |
| AchievementUnlock.ShownIds | frontend/src/hooks/useAchievementUnlock.js:16-25 | [] for a missing user or a missing or falsy stored value; the stored list when an array is stored. |
| AchievementUnlock.UnreadableStorageReadsEmpty | frontend/src/hooks/useAchievementUnlock.js:16-25 | Text that does not parse reads as []. |
| AchievementUnlock.MarkAppendsOnlyAbsent | frontend/src/hooks/useAchievementUnlock.js:33-37 | An absent id is appended to the stored list; a present id changes nothing. |
| AchievementUnlock.MarkKeepsNoDuplicates | frontend/src/hooks/useAchievementUnlock.js:30-41 | A duplicate-free shown list stays duplicate-free. |
| AchievementUnlock.MarkIdempotent | frontend/src/hooks/useAchievementUnlock.js:30-41 | Marking the same id twice equals marking it once; without a user or an id, marking changes nothing. |
| AchievementUnlock.MarkOtherUserUnchanged | frontend/src/hooks/useAchievementUnlock.js:30-41 | Marking for one user leaves another user's list alone. |
| AchievementUnlock.QueueGrowsOnlyInLaterRuns | frontend/src/hooks/useAchievementUnlock.js:57-94 | The queue only grows, and only in a later run. A disabled run, a run without a user and a run without data change nothing. The first enabled run records the baseline and queues nothing. |
| AchievementUnlock.NewlyUnlocked | frontend/src/hooks/useAchievementUnlock.js:67-86 | An item is kept exactly when its id (badgeName, else name) is in neither the previous list nor the shown list. |
| AchievementUnlock.NewlyUnlockedOne | frontend/src/hooks/useAchievementUnlock.js:76-86 | One current item is kept iff it is new. |
| AchievementUnlock.NewlyUnlockedAppend | frontend/src/hooks/useAchievementUnlock.js:76-86 | Filtering joined lists joins the filtered parts, so the current list's order is kept. |
| AchievementUnlock.NewlyUnlockedCounts | frontend/src/hooks/useAchievementUnlock.js:76-86 | A new item is kept as often as it occurs in the current list; any other item never. |
| AchievementUnlock.WithoutId | frontend/src/hooks/useAchievementUnlock.js:103-105 | Keeps exactly the queued items whose id differs. |
| AchievementUnlock.WithoutIdOne | frontend/src/hooks/useAchievementUnlock.js:103-105 | One queued item is kept iff its id differs. |
| AchievementUnlock.WithoutIdAppend | frontend/src/hooks/useAchievementUnlock.js:103-105 | Filtering a joined queue joins the filtered parts, so the order is kept. |
| AchievementUnlock.WithoutIdCounts | frontend/src/hooks/useAchievementUnlock.js:103-105 | An item with another id stays as often as it was queued; an item with that id is gone. |
| AchievementUnlock.LaterRunQueuesNewOnes | frontend/src/hooks/useAchievementUnlock.js:67-93 | A later run appends the newly unlocked items to the queue and makes the current list the baseline. |
| AchievementUnlock.SeenNeverRequeued | frontend/src/hooks/useAchievementUnlock.js:76-86 | Nothing already in the baseline or the shown list is queued. |
| AchievementUnlock.MarkAsShownDropsId | frontend/src/hooks/useAchievementUnlock.js:100-106 | What is left has no item with that id. Every queued item with another id stays, and a queue without the id is left as it is. |
| AchievementUnlock.UnlockDetector.Effect | frontend/src/hooks/useAchievementUnlock.js:57-94 | The detector's state becomes EffectStep of the old state. |
| AchievementUnlock.UnlockDetector.ClearNewAchievements | frontend/src/hooks/useAchievementUnlock.js:96-98 | The queue becomes empty and nothing else changes. |
| AchievementUnlock.UnlockDetector.MarkAsShown | frontend/src/hooks/useAchievementUnlock.js:100-106 | The shown list and the queue are updated as MarkShown and WithoutId say. |
| Pagination.Range | frontend/src/components/movies/Pagination.jsx:23-25 | The ascending run a..b-1. |
| Pagination.GetPageNumbers | frontend/src/components/movies/Pagination.jsx:7-28 | The loop fills exactly the window PageNumbers. |
| Pagination.WindowShape | frontend/src/components/movies/Pagination.jsx:11-25 | For 1 ≤ current ≤ total, the window is contiguous and ascending, lies inside 1..total, contains the current page and has length min(5, total). |
| Pagination.WindowCentredWhenRoom | frontend/src/components/movies/Pagination.jsx:11-12 | With room on both sides, the window is the current page ± 2. |
| Pagination.FirstButtonAndEllipsis | frontend/src/components/movies/Pagination.jsx:64-73 | The first-page button shows iff pages[0] > 1; the ellipsis shows iff pages[0] > 2. |
| Pagination.LastButtonAndEllipsis | frontend/src/components/movies/Pagination.jsx:86-97 | The last-page button shows iff the last page < total; the ellipsis shows iff the last page < total − 1. |
| Pagination.EndsAlwaysReachable | frontend/src/components/movies/Pagination.jsx:64-97 | Pages 1 and total are always reachable, in the window or by a button. |
| Pagination.NavigationTargetsExist | frontend/src/components/movies/Pagination.jsx:4-103 | The bar is hidden exactly when the window is the current page alone. When it shows, Previous and Next are enabled exactly when the page they lead to exists. |
| Common.TrimShape | frontend/src/utils/imageUtils.js:7-12 | trim() never lengthens; its result starts and ends with a non-white-space character, and it is empty exactly when the input is all white space. |
| ImageUtils.RejectsNonStringOrBlank | frontend/src/utils/imageUtils.js:7-9 | A non-string, empty or blank input is invalid. |
| ImageUtils.RejectsOtherSchemes | frontend/src/utils/imageUtils.js:12-15 | An input whose trimmed form starts with neither "http://" nor "https://" is invalid, whatever the parser says. |
| ImageUtils.ValidExactly | frontend/src/utils/imageUtils.js:7-20 | Valid iff the trimmed input starts with "http://" or "https://" and the parser reads http: or https: from the trimmed input. |
| ImageUtils.RejectsUnparseable | frontend/src/utils/imageUtils.js:18-24 | An input the parser throws on is invalid. |
| ImageUtils.ImageUrlIsInputOrPlaceholder | frontend/src/utils/imageUtils.js:33-41 | The answer is the valid input or the placeholder; a valid placeholder makes every answer valid. |
| ImageUtils.DefaultPlaceholderValid | frontend/src/utils/imageUtils.js:33 | The default placeholder passes the prefix check. |
| ErrorMessage.GetErrorMessage | frontend/src/components/common/ErrorMessage.jsx:2-12 | The message is never empty. |
| ErrorMessage.ResponseMessage | frontend/src/components/common/ErrorMessage.jsx:3-6 | With a response: its data.message, else the server-error text; nothing else matters. |
| ErrorMessage.MessageWithoutResponse | frontend/src/components/common/ErrorMessage.jsx:7-11 | Without a response, a sent request shows the network text whatever the error's message; an unsent one shows its own message when non-empty, else the unexpected-error text. |
| ErrorMessage.NetworkTextOnlyWithoutResponse | frontend/src/components/common/ErrorMessage.jsx:2-12 | The network text appears exactly for a sent request without a response, when no message equals that text. |
| ErrorMessage.MessageProvenance | frontend/src/components/common/ErrorMessage.jsx:2-12 | The message is one of the three fixed texts, the server's message when there is a response, or the error's own when the request was never sent. |
| QueryKeys.KeysStartWithNamespace | frontend/src/config/queryClient.js:26-50 | Every parameterised key starts with its namespace's one-element `all` key. |
| QueryKeys.KeysDistinct | frontend/src/config/queryClient.js:19-51 | Two keys are equal iff they come from the same constructor with the same arguments, default pages filled in. |
| QueryKeys.CurrentUserOutsideNamespaces | frontend/src/config/queryClient.js:19-51 | The current-user key is ["auth", "currentUser"], and no namespace's `all` key is a prefix of it, so invalidating a namespace never reaches it. |
| AchievementsPage.OfType | frontend/src/pages/Achievements.jsx:100-102 | Exactly the unlocked badges of the given type. |
| AchievementsPage.FindByName | frontend/src/pages/Achievements.jsx:241-250 | Finds an unlocked badge with the name exactly when one exists, and it is the first such badge in the list, as Array.find returns. |
| AchievementsPage.Cards | frontend/src/pages/Achievements.jsx:241-288 | One card per catalog entry, in order, each the entry's CardFor. |
| AchievementsPage.CatalogShape | frontend/src/pages/Achievements.jsx:33-80 | 4 SIGN entries at 1, 10, 50, 100 and 3 RATING entries at 1, 10, 50; 7 in all. |
| AchievementsPage.CatalogMatchesEngine | frontend/src/pages/Achievements.jsx:33-80 | Each entry is the engine's badge at its count, with the same name and level. |
| AchievementsPage.CatalogDescriptionsAgainstEngine | frontend/src/pages/Achievements.jsx:33-80 | Descriptions agree with the engine from count 10 on. At count 1 they differ: "1 day" against "1 days", "1 rating" against "1 ratings". |
| AchievementsPage.SectionsPartition | frontend/src/pages/Achievements.jsx:100-102 | The two sections together hold at most the unlocked badges. |
| AchievementsPage.CardUnlockedIffNamed | frontend/src/pages/Achievements.jsx:105-107 | A card shows unlocked iff an unlocked badge carries its name. |
| AchievementsPage.CardLevelSource | frontend/src/pages/Achievements.jsx:241-288 | A locked card shows the catalog level. An unlocked card shows only a non-empty level sent with a badge of that name, never the catalog's. That level is the first same-named badge's badgeLevel, or none when that is missing or empty. |
| AchievementsPage.FirstOfDuplicatesShown | frontend/src/pages/Achievements.jsx:275-285 | With two unlocked badges of one name, the card shows the first one's level. |
| AchievementsPage.UnlockedWithoutLevelShowsNone | frontend/src/pages/Achievements.jsx:241-288 | An unlocked badge without badgeLevel shows no level, not the catalog's "Bronze". |
| AchievementsPage.NothingWhenSignedOut | frontend/src/pages/Achievements.jsx:95-129 | Nothing renders exactly when signed out. Signed in, the header total is the number of badges the engine can award, and the sections show exactly when the query is neither loading nor failed. |
| AchievementsPage.CallToActionAndHint | frontend/src/pages/Achievements.jsx:294-327 | The call to action shows iff nothing is unlocked; the hint shows iff 0 < unlocked < 7; never both. |
| MovieDetail.ParseIntOfIntToString | frontend/src/pages/MovieDetail.jsx:94 | parseInt reads every integer back from its decimal rendering. |
| MovieDetail.ParseIntNaN | frontend/src/pages/MovieDetail.jsx:94 | Text that, after leading white space, starts with neither a sign nor a digit parses to NaN. |
| MovieDetail.ParseIntSkipsLeadingWhitespace | frontend/src/pages/MovieDetail.jsx:94 | Leading white space of every kind trim() removes does not change the result. |
| MovieDetail.ParseUnsignedHex | frontend/src/pages/MovieDetail.jsx:94 | After a 0x or 0X prefix, the unsigned part is the hex digits that follow, read in base 16. |
| MovieDetail.ParseIntOfSigned | frontend/src/pages/MovieDetail.jsx:94 | parseInt of an optional minus followed by an unsigned part that starts with a digit is that part's value, negated after the minus; with ParseUnsignedHex this covers hexadecimal input. |
| MovieDetail.ExistingRatingLoads | frontend/src/pages/MovieDetail.jsx:42-50 | Loading touches only the editor (no mutation, alert or navigation) and loading again changes nothing more. Afterwards a signed-in user sees the stored rating read-only, or the edit form when there is none. |
| MovieDetail.CancelRestores | frontend/src/pages/MovieDetail.jsx:56-62 | Cancel restores the stored values and leaves edit mode only when a rating exists; otherwise it does nothing. |
| MovieDetail.SubmitEffectsCounted | frontend/src/pages/MovieDetail.jsx:82-122 | A submit issues a mutation exactly when signed in with a score, navigates to /login exactly when signed out and alerts exactly when signed in. The logs only grow; a refused submit changes no editor field. |
| MovieDetail.SubmitIssuesOneMutation | frontend/src/pages/MovieDetail.jsx:93-121 | A signed-in submit with a score issues exactly one mutation: an update iff a rating exists, otherwise a create. It carries the movie id, the score and the trimmed comment; success leaves edit mode and the score and comment stay. |
| MovieDetail.SubmitPayload | frontend/src/pages/MovieDetail.jsx:93-97 | For an id that is an integer's rendering, the body sent is that integer, the selected score and the trimmed comment. |
| MovieDetail.DeleteResets | frontend/src/pages/MovieDetail.jsx:65-80 | One delete of the movie id exactly when confirmed. Unconfirmed changes nothing; a failure keeps the editor. A success clears score and comment, so an immediate resubmit only alerts and issues nothing. |
| MovieDetail.EnabledSubmitIssuesMutation | frontend/src/pages/MovieDetail.jsx:505-509 | An enabled submit button, for any state of the three pending flags, means a score is selected and nothing is pending; a signed-in press then issues a mutation. |
| MovieDetail.SubmitDisabledWhenPending | frontend/src/pages/MovieDetail.jsx:155 | Any pending create, update or delete disables the submit button; with none pending it is disabled exactly when no score is selected. |
| MovieDetail.SectionExclusive | frontend/src/pages/MovieDetail.jsx:352-441 | The read-only view and the edit form never show together. After loading, a signed-in user sees one of them. A signed-out user sees only the login prompt. |
| MovieDetail.RatingEditor.ExistingRatingChanged | frontend/src/pages/MovieDetail.jsx:42-50 | The editor's state becomes OnExistingRating of the old state. |
| MovieDetail.RatingEditor.SelectStar | frontend/src/pages/MovieDetail.jsx:449-454 | Only the selected score changes, to the star clicked. |
| MovieDetail.RatingEditor.CommentChanged | frontend/src/pages/MovieDetail.jsx:485 | Only the comment changes. |
| MovieDetail.RatingEditor.HandleEdit | frontend/src/pages/MovieDetail.jsx:52-54 | Only the edit flag changes, to true. |
| MovieDetail.RatingEditor.HandleCancel | frontend/src/pages/MovieDetail.jsx:56-62 | The state becomes OnCancel of the old state. |
| MovieDetail.RatingEditor.HandleDelete | frontend/src/pages/MovieDetail.jsx:65-80 | The state becomes OnDelete of the old state, with parseInt(id) as the movie id. |
| MovieDetail.RatingEditor.HandleRatingSubmit | frontend/src/pages/MovieDetail.jsx:82-122 | The state becomes OnSubmit of the old state, with parseInt(id) as the movie id. |

## Left out

- Logging, console output, the development-mode request dumps and `Thread.sleep` between retries are not modelled. The retry loop's interrupt path is not modelled either.
- Redis TTLs and the resilience4j circuit-breaker state are not modelled. A call that fails is modelled as one failed call that returns the fallback. The retries that @Retry makes before the fallback fires, and an open breaker that skips the call, are not modelled.
- The query client's defaultOptions (stale time, cache time, retry counts, refetch on focus) are configuration read by the query library and are not modelled.
- MovieDetail: a missing movie id (undefined route parameter) is not modelled; the route parameter is always a string. parseInt("-0") gives -0 in JavaScript, which the model does not tell apart from 0.
- ErrorMessage.Render: the Retry button is modelled only as a flag that equals whether a retry callback was given; no separate property is stated about it.
- Spring paging and sorting internals are not modelled. The list endpoints are modelled by the page request they build, and `findByUserId` and `findByMovieId` return the matches in storage order.
- The average in getMovieRatingStats is a real division of the integer sum by the count. Double rounding is not modelled.
- Keycloak, JWT validation, the refresh endpoint and the login endpoint are outcome parameters. The URL parser of imageUtils.js is a function parameter.
- JSON text is not parsed or escaped. A stored value is either a serialized document or raw text, and parsing raw text fails.
- AchievementUnlock.ShownIds: stored JSON that parses to something other than an array is read as []. The source would call `includes` on whatever value it got.
- Concurrent 401 refreshes, the cross-request interleaving of hooks and mutations, and React re-rendering are not modelled. Each interceptor run is independent. A mutation's onSuccess or onError callback is taken to run before the next handler.
- MovieDetail: hoverRating, the formatting helpers, the ratings list and the stats panel are view-only and are not modelled.
- RatingService.CreateRating and RatingService.UpdateRating take the user id and the rating id as explicit inputs. The controller calls service methods whose signatures differ from the service's, and RatingRequest has no userId field.
- RatingService.CreateRating: AchievementNotificationService is not part of this model. The notification is taken to go through AchievementGrpcClient, whose int32 movie-id setter throws on a null movie id; that exception is caught, so a create without a movie id succeeds and sends nothing.
- SignService.SignInOutcome records updateSignCount with the four arguments of its call site; the client declares two.
- The React Query hooks and their invalidation, and every view component, are library behaviour or markup and are not modelled.

## Findings

| source | as written | input that shows it | evidently intended | confidence | as-written member | corrected member |
|---|---|---|---|---|---|---|
| gateway/src/main/java/com/cinequest/gateway/config/Routes.java:80 | `HttpMethod.GET.name().equals(request.method())` compares a String with an HttpMethod object, so it is always false and every request passes straight through | a GET whose first handler call fails, with maxRetries 2: one call, and the failure escapes | GET requests are retried up to maxRetries times | high, not executed | GatewayRoutes.RetryFilterAsWritten | GatewayRoutes.RetryFilter |
