/** The achievements page: the catalog of every badge the engine can award,
    the user's unlocked badges split by type, each catalog entry shown as
    unlocked or locked, and the call-to-action and progress hint.

    Unlocked badges arrive as JSON objects; the page reads their badgeName,
    badgeType and badgeLevel fields, each of which may be missing. */
module AchievementsPage {
  import opened Common
  import AchievementService

  datatype CatalogEntry = CatalogEntry(name: string, level: string, count: int, description: string)

  const SIGN_CATALOG: seq<CatalogEntry> := [
    CatalogEntry("Sign Novice", "Bronze", 1, "Signed in 1 day"),
    CatalogEntry("Sign Regular", "Silver", 10, "Signed in 10 days"),
    CatalogEntry("Sign Master", "Gold", 50, "Signed in 50 days"),
    CatalogEntry("Sign God", "Platinum", 100, "Signed in 100 days")
  ]

  const RATING_CATALOG: seq<CatalogEntry> := [
    CatalogEntry("Commentator", "Bronze", 1, "Posted 1 rating"),
    CatalogEntry("Critic", "Silver", 10, "Posted 10 ratings"),
    CatalogEntry("Opinion Leader", "Gold", 50, "Posted 50 ratings")
  ]

  /** The threshold the progress hint compares with. */
  const ALL_BADGES: int := 7

  /** An unlocked badge as the page sees it. */
  datatype Badge = Badge(badgeName: Option<string>, badgeType: Option<string>, badgeLevel: Option<string>)

  /** The unlocked badges of the given type, in order. */
  function OfType(badges: seq<Badge>, t: string): (r: seq<Badge>)
    ensures forall b :: b in r <==> b in badges && b.badgeType == Some(t)
    ensures |r| <= |badges|
  {
    if badges == [] then []
    else
      var rest := OfType(badges[1..], t);
      assert forall b :: b in badges <==> b == badges[0] || b in badges[1..];
      if badges[0].badgeType == Some(t) then [badges[0]] + rest else rest
  }

  /** `unlockedBadges.find(b => b.badgeName === name)`. */
  function FindByName(badges: seq<Badge>, name: string): (r: Option<Badge>)
    ensures r.Some? ==> r.value in badges && r.value.badgeName == Some(name)
    ensures r.None? <==> forall b :: b in badges ==> b.badgeName != Some(name)
    ensures r.Some? ==> exists i :: 0 <= i < |badges| && badges[i] == r.value
                                    && forall j :: 0 <= j < i ==> badges[j].badgeName != Some(name)
  {
    if badges == [] then None
    else if badges[0].badgeName == Some(name) then Some(badges[0])
    else
      var r := FindByName(badges[1..], name);
      assert forall b :: b in badges <==> b == badges[0] || b in badges[1..];
      r
  }

  /** isUnlocked(badgeName). */
  predicate IsUnlocked(badges: seq<Badge>, name: string) {
    exists b :: b in badges && b.badgeName == Some(name)
  }

  /** A badge card: the catalog entry's name, whether it is unlocked, and the
      level shown. An unlocked card is drawn from the unlocked badge object
      itself, so its level is that object's badgeLevel or, failing that, its
      `level` field, which the server's badge objects do not have (shown as
      nothing, None); a locked card shows the catalog's level. */
  datatype Card = Card(name: string, unlocked: bool, level: Option<string>)

  function CardFor(badges: seq<Badge>, entry: CatalogEntry): Card {
    var found := FindByName(badges, entry.name);
    if found.Some? then
      Card(entry.name, true,
           if found.value.badgeLevel.Some? && found.value.badgeLevel.value != "" then found.value.badgeLevel else None)
    else Card(entry.name, false, Some(entry.level))
  }

  function Cards(badges: seq<Badge>, catalog: seq<CatalogEntry>): (r: seq<Card>)
    ensures |r| == |catalog|
    ensures forall i :: 0 <= i < |catalog| ==> r[i] == CardFor(badges, catalog[i])
  {
    if catalog == [] then [] else [CardFor(badges, catalog[0])] + Cards(badges, catalog[1..])
  }

  datatype Sections = Sections(signUnlocked: nat, signCards: seq<Card>, ratingUnlocked: nat, ratingCards: seq<Card>,
                               callToAction: bool, progressHint: bool)

  datatype PageView =
    | Nothing
    | Shown(unlockedCount: nat, total: nat, sections: Option<Sections>)

  /** The page for the query's data (None while it is undefined), its
      loading and error flags, and whether the user is signed in. */
  function Render(authenticated: bool, data: Option<seq<Badge>>, loading: bool, failed: bool): PageView {
    if !authenticated then Nothing
    else
      var unlocked := data.GetOr([]);
      var sections :=
        if loading || failed then None
        else Some(Sections(|OfType(unlocked, "SIGN")|, Cards(unlocked, SIGN_CATALOG),
                           |OfType(unlocked, "RATING")|, Cards(unlocked, RATING_CATALOG),
                           |unlocked| == 0, 0 < |unlocked| < ALL_BADGES));
      Shown(|unlocked|, |SIGN_CATALOG| + |RATING_CATALOG|, sections)
  }

  // ---------------------------------------------------------------------------
  // Properties
  // ---------------------------------------------------------------------------

  /** Four sign badges at 1, 10, 50 and 100 days, three rating badges at 1,
      10 and 50 ratings: seven in all. */
  lemma CatalogShape()
    ensures |SIGN_CATALOG| == 4 && |RATING_CATALOG| == 3
    ensures |SIGN_CATALOG| + |RATING_CATALOG| == ALL_BADGES
    ensures forall i :: 0 <= i < 4 ==> SIGN_CATALOG[i].count == [1, 10, 50, 100][i]
    ensures forall i :: 0 <= i < 3 ==> RATING_CATALOG[i].count == [1, 10, 50][i]
  {
  }

  /** Each catalog entry is the badge the engine awards at its count, with
      the same name and level. */
  lemma CatalogMatchesEngine()
    ensures forall e :: e in SIGN_CATALOG ==>
      && AchievementService.DetermineSignBadge(e.count).Some?
      && AchievementService.DetermineSignBadge(e.count).value.name == e.name
      && AchievementService.LevelName(AchievementService.DetermineSignBadge(e.count).value.level) == e.level
    ensures forall e :: e in RATING_CATALOG ==>
      && AchievementService.DetermineRatingBadge(e.count).Some?
      && AchievementService.DetermineRatingBadge(e.count).value.name == e.name
      && AchievementService.LevelName(AchievementService.DetermineRatingBadge(e.count).value.level) == e.level
  {
  }

  /** The descriptions agree with the engine's from ten on; for the first
      badge of each kind the page says "1 day" and "1 rating" where the
      engine says "1 days" and "1 ratings". */
  lemma CatalogDescriptionsAgainstEngine()
    ensures forall i :: 1 <= i < 4 ==>
      SIGN_CATALOG[i].description == AchievementService.DetermineSignBadge(SIGN_CATALOG[i].count).value.description
    ensures forall i :: 1 <= i < 3 ==>
      RATING_CATALOG[i].description == AchievementService.DetermineRatingBadge(RATING_CATALOG[i].count).value.description
    ensures SIGN_CATALOG[0].description != AchievementService.DetermineSignBadge(1).value.description
    ensures RATING_CATALOG[0].description != AchievementService.DetermineRatingBadge(1).value.description
  {
    assert |SIGN_CATALOG[0].description| != |AchievementService.DetermineSignBadge(1).value.description|;
    assert |RATING_CATALOG[0].description| != |AchievementService.DetermineRatingBadge(1).value.description|;
  }

  /** A badge with neither type is in neither section, so the two section
      counts add up to at most the number of unlocked badges. */
  lemma {:induction false} SectionsPartition(badges: seq<Badge>)
    ensures |OfType(badges, "SIGN")| + |OfType(badges, "RATING")| <= |badges|
  {
    if badges != [] {
      SectionsPartition(badges[1..]);
    }
  }

  /** A card shows as unlocked exactly when some unlocked badge carries the
      entry's name. */
  lemma CardUnlockedIffNamed(badges: seq<Badge>, entry: CatalogEntry)
    ensures CardFor(badges, entry).unlocked <==> IsUnlocked(badges, entry.name)
    ensures CardFor(badges, entry).name == entry.name
  {
  }

  /** The level on a card: a locked card shows the catalog's level; an
      unlocked card shows a non-empty level sent with an unlocked badge of
      that name, and never falls back to the catalog's. */
  lemma CardLevelSource(badges: seq<Badge>, entry: CatalogEntry)
    ensures var c := CardFor(badges, entry);
      && (!c.unlocked ==> c.level == Some(entry.level))
      && (c.unlocked && c.level.Some? ==>
            c.level.value != "" && exists b :: b in badges && b.badgeName == Some(entry.name) && b.badgeLevel == c.level)
      && (c.unlocked ==>
            exists i :: 0 <= i < |badges| && badges[i].badgeName == Some(entry.name)
              && (forall j :: 0 <= j < i ==> badges[j].badgeName != Some(entry.name))
              && c.level == (if badges[i].badgeLevel.Some? && badges[i].badgeLevel.value != "" then badges[i].badgeLevel else None))
  {
  }

  /** With two unlocked badges of one name, the card shows the first one's
      level, as Array.find picks the first match. */
  lemma FirstOfDuplicatesShown()
    ensures CardFor([Badge(Some("Critic"), Some("RATING"), Some("Gold")), Badge(Some("Critic"), Some("RATING"), Some("Bronze"))],
                    RATING_CATALOG[1])
         == Card("Critic", true, Some("Gold"))
  {
  }

  /** An unlocked badge that arrives without a badgeLevel shows no level,
      not the catalog's "Bronze". */
  lemma UnlockedWithoutLevelShowsNone()
    ensures CardFor([Badge(Some("Sign Novice"), Some("SIGN"), None)], SIGN_CATALOG[0])
         == Card("Sign Novice", true, None)
  {
  }

  /** A signed-out user is shown nothing, whatever the query holds; a
      signed-in user always sees the header, whose total is the number of
      distinct badges the engine can award, and the sections exactly when
      the query is neither loading nor failed. */
  lemma NothingWhenSignedOut(authenticated: bool, data: Option<seq<Badge>>, loading: bool, failed: bool)
    ensures Render(authenticated, data, loading, failed).Nothing? <==> !authenticated
    ensures authenticated ==> Render(authenticated, data, loading, failed).total == |AchievementService.ENGINE_BADGE_NAMES|
    ensures authenticated ==> (Render(authenticated, data, loading, failed).sections.Some? <==> !loading && !failed)
  {
    AchievementService.EngineBadgeNamesCount();
  }

  /** The call to action shows exactly when nothing is unlocked, the progress
      hint exactly for one to six unlocked badges; never both. */
  lemma CallToActionAndHint(data: Option<seq<Badge>>)
    ensures var v := Render(true, data, false, false);
      && v.sections.Some?
      && (v.sections.value.callToAction <==> v.unlockedCount == 0)
      && (v.sections.value.progressHint <==> 0 < v.unlockedCount < 7)
      && !(v.sections.value.callToAction && v.sections.value.progressHint)
  {
  }
}
