/** The badge engine of the achievement service: a sign-in count or a rating
    count selects at most one badge definition; a badge is stored once per
    (user, badge name) and every newly stored badge publishes one
    "achievement_unlocked" record on the message bus.

    The badge repository and the message bus are modelled as a ledger of two
    sequences; the clock is the parameter `now`. */
module AchievementService {
  import opened Common

  datatype BadgeType = SIGN | RATING
  datatype BadgeLevel = Bronze | Silver | Gold | Platinum

  /** BadgeLevel.name(), as carried by the unlock event. */
  function LevelName(l: BadgeLevel): string {
    match l
    case Bronze => "Bronze"
    case Silver => "Silver"
    case Gold => "Gold"
    case Platinum => "Platinum"
  }

  function LevelRank(l: BadgeLevel): nat {
    match l
    case Bronze => 0
    case Silver => 1
    case Gold => 2
    case Platinum => 3
  }

  datatype BadgeDefinition = BadgeDefinition(name: string, level: BadgeLevel, description: string)

  /** A stored row of the user_badges collection (the generated document id is not modelled). */
  datatype UserBadge = UserBadge(
    userId: string,
    badgeName: string,
    badgeType: BadgeType,
    badgeLevel: BadgeLevel,
    description: string,
    earnedAt: int)

  /** The payload of an achievement_unlocked message. */
  datatype AchievementUnlocked = AchievementUnlocked(
    userId: string,
    userEmail: string,
    userName: string,
    badgeName: string,
    badgeLevel: string,
    description: string,
    earnedAt: int)

  /** One message handed to the message bus: topic, key and value. */
  datatype KafkaRecord = KafkaRecord(topic: string, key: string, value: AchievementUnlocked)

  const UNLOCK_TOPIC: string := "achievement_unlocked"

  /** The badge repository and the sent messages. */
  datatype Ledger = Ledger(badges: seq<UserBadge>, events: seq<KafkaRecord>)

  // ---------------------------------------------------------------------------
  // Threshold tables
  // ---------------------------------------------------------------------------

  /** The sign-in badge reached at exactly `count` sign-in days, if any. */
  function DetermineSignBadge(count: int): (r: Option<BadgeDefinition>)
    ensures r.Some? <==> count in {1, 10, 50, 100}
    ensures r.Some? ==> r.value.description == "Signed in " + IntToString(count) + " days"
  {
    if count == 100 then Some(BadgeDefinition("Sign God", Platinum, "Signed in 100 days"))
    else if count == 50 then Some(BadgeDefinition("Sign Master", Gold, "Signed in 50 days"))
    else if count == 10 then Some(BadgeDefinition("Sign Regular", Silver, "Signed in 10 days"))
    else if count == 1 then Some(BadgeDefinition("Sign Novice", Bronze, "Signed in 1 days"))
    else None
  }

  /** The rating badge reached at exactly `count` ratings, if any. */
  function DetermineRatingBadge(count: int): (r: Option<BadgeDefinition>)
    ensures r.Some? <==> count in {1, 10, 50}
    ensures r.Some? ==> r.value.description == "Posted " + IntToString(count) + " ratings"
  {
    if count == 50 then Some(BadgeDefinition("Opinion Leader", Gold, "Posted 50 ratings"))
    else if count == 10 then Some(BadgeDefinition("Critic", Silver, "Posted 10 ratings"))
    else if count == 1 then Some(BadgeDefinition("Commentator", Bronze, "Posted 1 ratings"))
    else None
  }

  function DetermineBadge(t: BadgeType, count: int): Option<BadgeDefinition> {
    match t
    case SIGN => DetermineSignBadge(count)
    case RATING => DetermineRatingBadge(count)
  }

  /** Every (type, definition) pair the engine can produce. */
  const ENGINE_BADGES: set<(BadgeType, BadgeDefinition)> := {
    (SIGN, BadgeDefinition("Sign Novice", Bronze, "Signed in 1 days")),
    (SIGN, BadgeDefinition("Sign Regular", Silver, "Signed in 10 days")),
    (SIGN, BadgeDefinition("Sign Master", Gold, "Signed in 50 days")),
    (SIGN, BadgeDefinition("Sign God", Platinum, "Signed in 100 days")),
    (RATING, BadgeDefinition("Commentator", Bronze, "Posted 1 ratings")),
    (RATING, BadgeDefinition("Critic", Silver, "Posted 10 ratings")),
    (RATING, BadgeDefinition("Opinion Leader", Gold, "Posted 50 ratings"))
  }

  const ENGINE_BADGE_NAMES: set<string> := {
    "Sign Novice", "Sign Regular", "Sign Master", "Sign God",
    "Commentator", "Critic", "Opinion Leader"
  }

  /** ENGINE_BADGES lists exactly what DetermineBadge can return. */
  lemma EngineBadgesComplete(t: BadgeType, count: int)
    ensures DetermineBadge(t, count).Some? ==> (t, DetermineBadge(t, count).value) in ENGINE_BADGES
    ensures forall p :: p in ENGINE_BADGES && p.0 == t ==> exists c :: DetermineBadge(t, c) == Some(p.1)
  {
    if t == SIGN {
      assert DetermineBadge(SIGN, 1).Some? && DetermineBadge(SIGN, 10).Some?;
      assert DetermineBadge(SIGN, 50).Some? && DetermineBadge(SIGN, 100).Some?;
    } else {
      assert DetermineBadge(RATING, 1).Some? && DetermineBadge(RATING, 10).Some?;
      assert DetermineBadge(RATING, 50).Some?;
    }
  }

  /** Higher thresholds give strictly higher levels, and distinct thresholds distinct names. */
  lemma LadderIsStrict(t: BadgeType, c1: int, c2: int)
    requires DetermineBadge(t, c1).Some? && DetermineBadge(t, c2).Some?
    ensures c1 < c2 ==> LevelRank(DetermineBadge(t, c1).value.level) < LevelRank(DetermineBadge(t, c2).value.level)
    ensures c1 != c2 ==> DetermineBadge(t, c1).value.name != DetermineBadge(t, c2).value.name
  {
  }

  /** No sign badge shares its name with a rating badge, so the per-(user, name)
      uniqueness never makes one kind block the other. */
  lemma SignAndRatingNamesDisjoint(c1: int, c2: int)
    requires DetermineSignBadge(c1).Some? && DetermineRatingBadge(c2).Some?
    ensures DetermineSignBadge(c1).value.name != DetermineRatingBadge(c2).value.name
  {
  }

  // ---------------------------------------------------------------------------
  // Repository queries
  // ---------------------------------------------------------------------------

  /** userBadgeRepository.findByUserIdAndBadgeName */
  function FindByUserIdAndBadgeName(badges: seq<UserBadge>, userId: string, badgeName: string): (r: Option<UserBadge>)
    ensures r.Some? <==> exists b :: b in badges && b.userId == userId && b.badgeName == badgeName
    ensures r.Some? ==> r.value in badges && r.value.userId == userId && r.value.badgeName == badgeName
  {
    if badges == [] then None
    else if badges[0].userId == userId && badges[0].badgeName == badgeName then Some(badges[0])
    else FindByUserIdAndBadgeName(badges[1..], userId, badgeName)
  }

  /** getUserBadges: userBadgeRepository.findByUserId, in storage order. */
  function GetUserBadges(badges: seq<UserBadge>, userId: string): (r: seq<UserBadge>)
    ensures forall b :: b in r <==> b in badges && b.userId == userId
    ensures |r| <= |badges|
  {
    if badges == [] then []
    else (if badges[0].userId == userId then [badges[0]] else []) + GetUserBadges(badges[1..], userId)
  }

  /** The unique compound index on (userId, badgeName). */
  ghost predicate UniqueUserBadges(badges: seq<UserBadge>) {
    forall i, j :: 0 <= i < j < |badges| ==>
      badges[i].userId != badges[j].userId || badges[i].badgeName != badges[j].badgeName
  }

  /** Every stored badge is one the engine defines, under its own type. */
  ghost predicate EngineIssued(badges: seq<UserBadge>) {
    forall b :: b in badges ==>
      (b.badgeType, BadgeDefinition(b.badgeName, b.badgeLevel, b.description)) in ENGINE_BADGES
  }

  /** The unlock message published for a stored badge: keyed by its user,
      naming the badge, its level, description and time. */
  ghost predicate AnnouncesBadge(e: KafkaRecord, b: UserBadge) {
    && e.topic == UNLOCK_TOPIC && e.key == b.userId
    && e.value.userId == b.userId && e.value.badgeName == b.badgeName
    && e.value.badgeLevel == LevelName(b.badgeLevel) && e.value.description == b.description
    && e.value.earnedAt == b.earnedAt
  }

  /** The log holds one message per stored badge, in storage order. */
  ghost predicate EventsInStep(l: Ledger) {
    |l.events| == |l.badges| && forall i :: 0 <= i < |l.badges| ==> AnnouncesBadge(l.events[i], l.badges[i])
  }

  ghost predicate LedgerValid(l: Ledger) {
    UniqueUserBadges(l.badges) && EngineIssued(l.badges) && EventsInStep(l)
  }

  // ---------------------------------------------------------------------------
  // Awarding
  // ---------------------------------------------------------------------------

  function NewBadge(userId: string, def: BadgeDefinition, t: BadgeType, now: int): UserBadge {
    UserBadge(userId, def.name, t, def.level, def.description, now)
  }

  function UnlockRecord(userId: string, def: BadgeDefinition, now: int, userEmail: string, userName: string): KafkaRecord {
    KafkaRecord(UNLOCK_TOPIC, userId,
      AchievementUnlocked(userId, userEmail, userName, def.name, LevelName(def.level), def.description, now))
  }

  /** awardBadge: skip when (userId, badge name) is stored; otherwise save the badge and publish one event. */
  function AwardBadge(l: Ledger, userId: string, def: BadgeDefinition, t: BadgeType,
                      userEmail: string, userName: string, now: int): Ledger
  {
    if FindByUserIdAndBadgeName(l.badges, userId, def.name).Some? then l
    else Ledger(l.badges + [NewBadge(userId, def, t, now)],
                l.events + [UnlockRecord(userId, def, now, userEmail, userName)])
  }

  /** processSignCount */
  function ProcessSignCount(l: Ledger, userId: string, totalSignCount: int,
                            userEmail: string, userName: string, now: int): Ledger
  {
    var badge := DetermineSignBadge(totalSignCount);
    if badge.Some? then AwardBadge(l, userId, badge.value, SIGN, userEmail, userName, now) else l
  }

  /** processRatingCount */
  function ProcessRatingCount(l: Ledger, userId: string, totalRatings: int,
                              userEmail: string, userName: string, now: int): Ledger
  {
    var badge := DetermineRatingBadge(totalRatings);
    if badge.Some? then AwardBadge(l, userId, badge.value, RATING, userEmail, userName, now) else l
  }

  /** An award either changes nothing (the badge was already held) or appends
      exactly the new badge and exactly one unlock message keyed by the user,
      which carries the user's contact data and announces that badge. */
  lemma AwardBadgeEffect(l: Ledger, userId: string, def: BadgeDefinition, t: BadgeType,
                         userEmail: string, userName: string, now: int)
    ensures var r := AwardBadge(l, userId, def, t, userEmail, userName, now);
      if exists b :: b in l.badges && b.userId == userId && b.badgeName == def.name then r == l
      else
        && |r.badges| == |l.badges| + 1 && r.badges[..|l.badges|] == l.badges
        && r.badges[|l.badges|] == UserBadge(userId, def.name, t, def.level, def.description, now)
        && |r.events| == |l.events| + 1 && r.events[..|l.events|] == l.events
        && r.events[|l.events|].topic == "achievement_unlocked"
        && r.events[|l.events|].value.userEmail == userEmail
        && r.events[|l.events|].value.userName == userName
        && AnnouncesBadge(r.events[|l.events|], r.badges[|l.badges|])
  {
    var r := AwardBadge(l, userId, def, t, userEmail, userName, now);
    if FindByUserIdAndBadgeName(l.badges, userId, def.name).None? {
      assert r.badges[..|l.badges|] == l.badges;
      assert r.events[..|l.events|] == l.events;
    }
  }

  /** awardBadge is idempotent: a second award of the same badge to the same
      user (at any time, with any contact data) changes neither store nor log. */
  lemma AwardBadgeIdempotent(l: Ledger, userId: string, def: BadgeDefinition, t: BadgeType,
                             e1: string, n1: string, now1: int, t2: BadgeType, e2: string, n2: string, now2: int)
    ensures var once := AwardBadge(l, userId, def, t, e1, n1, now1);
      AwardBadge(once, userId, def, t2, e2, n2, now2) == once
  {
    var once := AwardBadge(l, userId, def, t, e1, n1, now1);
    if FindByUserIdAndBadgeName(l.badges, userId, def.name).None? {
      assert NewBadge(userId, def, t, now1) in once.badges;
    }
  }

  /** awardBadge keeps the (userId, badgeName) index unique. */
  lemma AwardBadgeKeepsUnique(l: Ledger, userId: string, def: BadgeDefinition, t: BadgeType,
                              userEmail: string, userName: string, now: int)
    requires UniqueUserBadges(l.badges)
    ensures UniqueUserBadges(AwardBadge(l, userId, def, t, userEmail, userName, now).badges)
  {
    var r := AwardBadge(l, userId, def, t, userEmail, userName, now);
    if FindByUserIdAndBadgeName(l.badges, userId, def.name).None? {
      forall i, j | 0 <= i < j < |r.badges|
        ensures r.badges[i].userId != r.badges[j].userId || r.badges[i].badgeName != r.badges[j].badgeName
      {
        if j == |l.badges| {
          assert r.badges[i] == l.badges[i];
          assert l.badges[i] in l.badges;
        } else {
          assert r.badges[i] == l.badges[i] && r.badges[j] == l.badges[j];
        }
      }
    }
  }

  /** Processing a count that is not a threshold leaves store and log unchanged. */
  lemma NonThresholdCountChangesNothing(l: Ledger, userId: string, count: int,
                                        userEmail: string, userName: string, now: int)
    requires count !in {1, 10, 50, 100}
    ensures ProcessSignCount(l, userId, count, userEmail, userName, now) == l
    ensures count !in {1, 10, 50} ==> ProcessRatingCount(l, userId, count, userEmail, userName, now) == l
  {
  }

  /** Badges added by processSignCount are SIGN badges, by processRatingCount RATING badges. */
  lemma ProcessTagsBadgeType(l: Ledger, userId: string, count: int,
                             userEmail: string, userName: string, now: int)
    ensures var r := ProcessSignCount(l, userId, count, userEmail, userName, now);
      forall i :: |l.badges| <= i < |r.badges| ==> r.badges[i].badgeType == SIGN
    ensures var r := ProcessRatingCount(l, userId, count, userEmail, userName, now);
      forall i :: |l.badges| <= i < |r.badges| ==> r.badges[i].badgeType == RATING
  {
  }

  /** Awarding an engine badge keeps the ledger valid. */
  lemma AwardBadgeKeepsValid(l: Ledger, userId: string, def: BadgeDefinition, t: BadgeType,
                             userEmail: string, userName: string, now: int)
    requires LedgerValid(l)
    requires (t, def) in ENGINE_BADGES
    ensures LedgerValid(AwardBadge(l, userId, def, t, userEmail, userName, now))
  {
    AwardBadgeKeepsUnique(l, userId, def, t, userEmail, userName, now);
    var r := AwardBadge(l, userId, def, t, userEmail, userName, now);
    if FindByUserIdAndBadgeName(l.badges, userId, def.name).None? {
      var nb := NewBadge(userId, def, t, now);
      assert EngineIssued(r.badges) by {
        forall b | b in r.badges
          ensures (b.badgeType, BadgeDefinition(b.badgeName, b.badgeLevel, b.description)) in ENGINE_BADGES
        {
          if b != nb {
            assert b in l.badges;
          }
        }
      }
      assert EventsInStep(r) by {
        forall i | 0 <= i < |r.badges| ensures AnnouncesBadge(r.events[i], r.badges[i]) {
          if i < |l.badges| {
            assert r.events[i] == l.events[i] && r.badges[i] == l.badges[i];
          }
        }
      }
    }
  }

  /** Both processing operations keep the ledger valid: unique per (user, name),
      only engine-defined badges under their own type, and one unlock message
      per stored badge, in the same order. With EmptyLedgerValid, every ledger
      reachable from the empty one is valid. */
  lemma ProcessKeepsLedgerValid(l: Ledger, userId: string, count: int,
                                userEmail: string, userName: string, now: int)
    requires LedgerValid(l)
    ensures LedgerValid(ProcessSignCount(l, userId, count, userEmail, userName, now))
    ensures LedgerValid(ProcessRatingCount(l, userId, count, userEmail, userName, now))
  {
    var s := DetermineSignBadge(count);
    if s.Some? {
      EngineBadgesComplete(SIGN, count);
      AwardBadgeKeepsValid(l, userId, s.value, SIGN, userEmail, userName, now);
    }
    var g := DetermineRatingBadge(count);
    if g.Some? {
      EngineBadgesComplete(RATING, count);
      AwardBadgeKeepsValid(l, userId, g.value, RATING, userEmail, userName, now);
    }
  }

  /** The empty badge store with an empty event log, as a fresh deployment
      starts, is valid: the base case for ProcessKeepsLedgerValid. */
  lemma EmptyLedgerValid()
    ensures LedgerValid(Ledger([], []))
  {
  }

  /** Awarding to one user does not change any other user's badges. */
  lemma AwardBadgeOtherUsersUnchanged(l: Ledger, userId: string, def: BadgeDefinition, t: BadgeType,
                                      userEmail: string, userName: string, now: int, other: string)
    requires other != userId
    ensures GetUserBadges(AwardBadge(l, userId, def, t, userEmail, userName, now).badges, other)
         == GetUserBadges(l.badges, other)
  {
    if FindByUserIdAndBadgeName(l.badges, userId, def.name).None? {
      UserBadgesAppendOther(l.badges, NewBadge(userId, def, t, now), other);
    }
  }

  lemma {:induction false} UserBadgesAppendOther(s: seq<UserBadge>, x: UserBadge, other: string)
    requires x.userId != other
    ensures GetUserBadges(s + [x], other) == GetUserBadges(s, other)
    decreases |s|
  {
    if s == [] {
      assert GetUserBadges([x], other) == [] + GetUserBadges([x][1..], other);
    } else {
      assert (s + [x])[1..] == s[1..] + [x];
      UserBadgesAppendOther(s[1..], x, other);
    }
  }

  // ---------------------------------------------------------------------------
  // A user holds at most the seven engine badges
  // ---------------------------------------------------------------------------

  ghost predicate DistinctNames(s: seq<UserBadge>) {
    forall i, j :: 0 <= i < j < |s| ==> s[i].badgeName != s[j].badgeName
  }

  function NameSet(s: seq<UserBadge>): set<string> {
    set b | b in s :: b.badgeName
  }

  lemma {:induction false} DistinctNamesCardinality(s: seq<UserBadge>)
    requires DistinctNames(s)
    ensures |NameSet(s)| == |s|
    decreases |s|
  {
    if s != [] {
      var t := s[1..];
      assert DistinctNames(t) by {
        forall i, j | 0 <= i < j < |t| ensures t[i].badgeName != t[j].badgeName {
          assert t[i] == s[i + 1] && t[j] == s[j + 1];
        }
      }
      DistinctNamesCardinality(t);
      assert NameSet(s) == NameSet(t) + {s[0].badgeName};
      forall b | b in t ensures b.badgeName != s[0].badgeName {
        var k :| 0 <= k < |t| && t[k] == b;
        assert s[k + 1] == b;
      }
      assert s[0].badgeName !in NameSet(t);
    }
  }

  lemma {:induction false} UserBadgesDistinctNames(s: seq<UserBadge>, userId: string)
    requires UniqueUserBadges(s)
    ensures DistinctNames(GetUserBadges(s, userId))
    decreases |s|
  {
    if s != [] {
      var t := s[1..];
      UniqueTail(s);
      UserBadgesDistinctNames(t, userId);
      var rest := GetUserBadges(t, userId);
      if s[0].userId == userId {
        forall b | b in rest ensures b.badgeName != s[0].badgeName {
          var k :| 0 <= k < |t| && t[k] == b;
          assert s[k + 1] == b;
        }
        DistinctNamesCons(s[0], rest);
        assert GetUserBadges(s, userId) == [s[0]] + rest;
      } else {
        assert GetUserBadges(s, userId) == rest;
      }
    }
  }

  lemma UniqueTail(s: seq<UserBadge>)
    requires s != [] && UniqueUserBadges(s)
    ensures UniqueUserBadges(s[1..])
  {
    var t := s[1..];
    forall i, j | 0 <= i < j < |t|
      ensures t[i].userId != t[j].userId || t[i].badgeName != t[j].badgeName
    {
      assert t[i] == s[i + 1] && t[j] == s[j + 1];
    }
  }

  lemma DistinctNamesCons(x: UserBadge, rest: seq<UserBadge>)
    requires DistinctNames(rest)
    requires forall b :: b in rest ==> b.badgeName != x.badgeName
    ensures DistinctNames([x] + rest)
  {
    var r := [x] + rest;
    forall i, j | 0 <= i < j < |r| ensures r[i].badgeName != r[j].badgeName {
      if i == 0 {
        assert r[j] == rest[j - 1] && r[j] in rest;
      } else {
        assert r[i] == rest[i - 1] && r[j] == rest[j - 1];
      }
    }
  }

  lemma EngineBadgeNamesCount()
    ensures |ENGINE_BADGE_NAMES| == 7
  {
  }

  /** Every engine badge name is one of the seven. */
  lemma EngineNameListed(b: UserBadge)
    requires (b.badgeType, BadgeDefinition(b.badgeName, b.badgeLevel, b.description)) in ENGINE_BADGES
    ensures b.badgeName in ENGINE_BADGE_NAMES
  {
  }

  /** In a valid ledger a user holds at most seven badges: the names are
      distinct and all come from the seven engine definitions. */
  lemma AtMostSevenBadges(l: Ledger, userId: string)
    requires LedgerValid(l)
    ensures |GetUserBadges(l.badges, userId)| <= 7
  {
    var mine := GetUserBadges(l.badges, userId);
    UserBadgesDistinctNames(l.badges, userId);
    DistinctNamesCardinality(mine);
    assert NameSet(mine) <= ENGINE_BADGE_NAMES by {
      forall n | n in NameSet(mine) ensures n in ENGINE_BADGE_NAMES {
        var b :| b in mine && b.badgeName == n;
        EngineNameListed(b);
      }
    }
    EngineBadgeNamesCount();
    SubsetCardinality(NameSet(mine), ENGINE_BADGE_NAMES);
  }

  lemma SubsetCardinality(a: set<string>, b: set<string>)
    requires a <= b
    ensures |a| <= |b|
  {
    assert b == a + (b - a);
  }

  // ---------------------------------------------------------------------------
  // The service object
  // ---------------------------------------------------------------------------

  /** AchievementService with its repository and message bus held in fields. */
  class Engine {
    var badges: seq<UserBadge>
    var events: seq<KafkaRecord>

    ghost predicate Valid()
      reads this
    {
      LedgerValid(Ledger(badges, events))
    }

    constructor ()
      ensures Valid() && badges == [] && events == []
    {
      badges, events := [], [];
    }

    method Award(userId: string, def: BadgeDefinition, t: BadgeType, userEmail: string, userName: string, now: int)
      requires Valid()
      requires (t, def) in ENGINE_BADGES
      modifies this
      ensures Valid()
      ensures Ledger(badges, events) == AwardBadge(old(Ledger(badges, events)), userId, def, t, userEmail, userName, now)
    {
      AwardBadgeKeepsValid(Ledger(badges, events), userId, def, t, userEmail, userName, now);
      var existing := FindByUserIdAndBadgeName(badges, userId, def.name);
      if existing.Some? {
        return;
      }
      badges := badges + [NewBadge(userId, def, t, now)];
      events := events + [UnlockRecord(userId, def, now, userEmail, userName)];
    }

    method ProcessSignCountAt(userId: string, totalSignCount: int, userEmail: string, userName: string, now: int)
      requires Valid()
      modifies this
      ensures Valid()
      ensures Ledger(badges, events) == ProcessSignCount(old(Ledger(badges, events)), userId, totalSignCount, userEmail, userName, now)
    {
      var badge := DetermineSignBadge(totalSignCount);
      if badge.Some? {
        EngineBadgesComplete(SIGN, totalSignCount);
        Award(userId, badge.value, SIGN, userEmail, userName, now);
      }
    }

    method ProcessRatingCountAt(userId: string, totalRatings: int, userEmail: string, userName: string, now: int)
      requires Valid()
      modifies this
      ensures Valid()
      ensures Ledger(badges, events) == ProcessRatingCount(old(Ledger(badges, events)), userId, totalRatings, userEmail, userName, now)
    {
      var badge := DetermineRatingBadge(totalRatings);
      if badge.Some? {
        EngineBadgesComplete(RATING, totalRatings);
        Award(userId, badge.value, RATING, userEmail, userName, now);
      }
    }

    function UserBadges(userId: string): (r: seq<UserBadge>)
      reads this
      ensures forall b :: b in r <==> b in badges && b.userId == userId
    {
      GetUserBadges(badges, userId)
    }
  }
}
