/** The daily check-in of the sign service: the first sign-in of a user on a
    UTC day stores a record and tells the achievement service the user's new
    total; later sign-ins that day only report the total.

    The JPA table is a sequence of records plus the identity counter; the
    UTC date is the parameter `today` (a day number); the gRPC call is an
    outbox of delivered notifications whose delivery outcome is a parameter. */
module SignService {
  import opened Common

  type SignId = nat

  /** A row of user_sign_ins. */
  datatype UserSignIn = UserSignIn(id: SignId, userId: string, signDate: int)

  datatype SignInResponse = SignInResponse(id: SignId, userId: string, signDate: int, totalSignCount: nat)

  /** updateSignCount(userId, totalSignCount, userEmail, userName) as called. */
  datatype SignCountNotification = SignCountNotification(userId: string, totalSignCount: nat, userEmail: string, userName: string)

  datatype SignDb = SignDb(records: seq<UserSignIn>, nextId: nat, sent: seq<SignCountNotification>)

  datatype SignOutcome = SignOutcome(db: SignDb, response: SignInResponse)

  /** userSignInRepository.findByUserIdAndSignDate */
  function FindByUserIdAndSignDate(records: seq<UserSignIn>, userId: string, signDate: int): (r: Option<UserSignIn>)
    ensures r.Some? <==> exists x :: x in records && x.userId == userId && x.signDate == signDate
    ensures r.Some? ==> r.value in records && r.value.userId == userId && r.value.signDate == signDate
  {
    if records == [] then None
    else if records[0].userId == userId && records[0].signDate == signDate then Some(records[0])
    else FindByUserIdAndSignDate(records[1..], userId, signDate)
  }

  /** userSignInRepository.countByUserId */
  function CountByUserId(records: seq<UserSignIn>, userId: string): (n: nat)
    ensures n <= |records|
  {
    if records == [] then 0
    else (if records[0].userId == userId then 1 else 0) + CountByUserId(records[1..], userId)
  }

  lemma {:induction false} CountByUserIdAppend(s: seq<UserSignIn>, x: UserSignIn, userId: string)
    ensures CountByUserId(s + [x], userId) == CountByUserId(s, userId) + (if x.userId == userId then 1 else 0)
    decreases |s|
  {
    if s == [] {
      assert CountByUserId([x], userId) == (if x.userId == userId then 1 else 0) + CountByUserId([], userId);
    } else {
      assert (s + [x])[1..] == s[1..] + [x];
      CountByUserIdAppend(s[1..], x, userId);
    }
  }

  /** Identity ids are distinct and below the counter, and there is at most one
      record per (user, day) — the table's unique constraint. */
  ghost predicate DbValid(db: SignDb) {
    && (forall i :: 0 <= i < |db.records| ==> db.records[i].id < db.nextId)
    && (forall i, j :: 0 <= i < j < |db.records| ==>
          && db.records[i].id != db.records[j].id
          && (db.records[i].userId != db.records[j].userId || db.records[i].signDate != db.records[j].signDate))
  }

  /** signIn(userId, userEmail, userName) on day `today`; `delivered` is
      whether the notification went through (a failure is logged and
      swallowed). */
  function SignInOutcome(db: SignDb, userId: string, userEmail: string, userName: string, today: int, delivered: bool): SignOutcome
  {
    var found := FindByUserIdAndSignDate(db.records, userId, today);
    if found.None? then
      var saved := UserSignIn(db.nextId, userId, today);
      var records := db.records + [saved];
      var total := CountByUserId(records, userId);
      var sent := if delivered then db.sent + [SignCountNotification(userId, total, userEmail, userName)] else db.sent;
      SignOutcome(SignDb(records, db.nextId + 1, sent), SignInResponse(saved.id, userId, today, total))
    else
      SignOutcome(db, SignInResponse(found.value.id, found.value.userId, found.value.signDate, CountByUserId(db.records, userId)))
  }

  /** The first sign-in of the day stores exactly one record (user, today),
      the user's count grows by one, and a delivered notification carries
      the new count; the response describes the new record. */
  lemma FirstSignInOfDay(db: SignDb, userId: string, userEmail: string, userName: string, today: int, delivered: bool)
    requires forall x :: x in db.records ==> x.userId != userId || x.signDate != today
    ensures var o := SignInOutcome(db, userId, userEmail, userName, today, delivered);
      var total := CountByUserId(db.records, userId) + 1;
      && o.db.records == db.records + [UserSignIn(db.nextId, userId, today)]
      && CountByUserId(o.db.records, userId) == total
      && o.db.sent == (if delivered then db.sent + [SignCountNotification(userId, total, userEmail, userName)] else db.sent)
      && o.response == SignInResponse(db.nextId, userId, today, total)
  {
    CountByUserIdAppend(db.records, UserSignIn(db.nextId, userId, today), userId);
  }

  /** A repeated sign-in the same day stores nothing, sends nothing, and
      reports the existing record with the unchanged count. */
  lemma RepeatedSignInSameDay(db: SignDb, userId: string, userEmail: string, userName: string, today: int, delivered: bool)
    requires exists x :: x in db.records && x.userId == userId && x.signDate == today
    ensures var o := SignInOutcome(db, userId, userEmail, userName, today, delivered);
      && o.db == db
      && o.response.userId == userId && o.response.signDate == today
      && (exists x :: x in db.records && x.id == o.response.id && x.userId == userId && x.signDate == today)
      && o.response.totalSignCount == CountByUserId(db.records, userId)
  {
  }

  /** Whatever the path, the reported total is the number of the user's
      records afterwards and the reported record is stored for today. */
  lemma ResponseMatchesStore(db: SignDb, userId: string, userEmail: string, userName: string, today: int, delivered: bool)
    ensures var o := SignInOutcome(db, userId, userEmail, userName, today, delivered);
      && o.response.totalSignCount == CountByUserId(o.db.records, userId)
      && UserSignIn(o.response.id, o.response.userId, o.response.signDate) in o.db.records
      && o.response.userId == userId && o.response.signDate == today
  {
  }

  /** Notifications are only ever sent on the new-record path. */
  lemma NotifiesOnlyOnNewRecord(db: SignDb, userId: string, userEmail: string, userName: string, today: int, delivered: bool)
    ensures var o := SignInOutcome(db, userId, userEmail, userName, today, delivered);
      o.db.sent != db.sent ==> |o.db.records| == |db.records| + 1 && delivered
  {
  }

  /** signIn keeps at most one record per (user, day). */
  lemma SignInKeepsValid(db: SignDb, userId: string, userEmail: string, userName: string, today: int, delivered: bool)
    requires DbValid(db)
    ensures DbValid(SignInOutcome(db, userId, userEmail, userName, today, delivered).db)
  {
    var o := SignInOutcome(db, userId, userEmail, userName, today, delivered);
    if |o.db.records| != |db.records| {
      var rs := o.db.records;
      forall i, j | 0 <= i < j < |rs|
        ensures rs[i].id != rs[j].id && (rs[i].userId != rs[j].userId || rs[i].signDate != rs[j].signDate)
      {
        assert rs[i] == db.records[i] && db.records[i] in db.records;
      }
    }
  }

  /** SignService holding the repository and the gRPC client. */
  class Service {
    var records: seq<UserSignIn>
    var nextId: nat
    var sent: seq<SignCountNotification>

    function Db(): SignDb
      reads this
    {
      SignDb(records, nextId, sent)
    }

    ghost predicate Valid()
      reads this
    {
      DbValid(Db())
    }

    constructor ()
      ensures Valid() && records == [] && sent == []
    {
      records, nextId, sent := [], 0, [];
    }

    method SignIn(userId: string, userEmail: string, userName: string, today: int, delivered: bool)
      returns (response: SignInResponse)
      requires Valid()
      modifies this
      ensures Valid()
      ensures SignOutcome(Db(), response) == SignInOutcome(old(Db()), userId, userEmail, userName, today, delivered)
    {
      SignInKeepsValid(Db(), userId, userEmail, userName, today, delivered);
      var totalSignCount := 0;
      var savedSignIn := FindByUserIdAndSignDate(records, userId, today);
      if savedSignIn.None? {
        var signIn := UserSignIn(nextId, userId, today);
        records := records + [signIn];
        nextId := nextId + 1;
        savedSignIn := Some(signIn);
        totalSignCount := CountByUserId(records, userId);
        if delivered {
          sent := sent + [SignCountNotification(userId, totalSignCount, userEmail, userName)];
        }
      } else {
        totalSignCount := CountByUserId(records, userId);
      }
      response := SignInResponse(savedSignIn.value.id, savedSignIn.value.userId, savedSignIn.value.signDate, totalSignCount);
    }
  }
}
