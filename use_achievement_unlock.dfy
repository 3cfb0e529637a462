/** The achievement-unlock detector: the per-user list of achievement ids
    already shown (kept in localStorage as a stringified array), and the
    hook state that turns a change in the user's achievement list into a
    queue of achievements to announce.

    The hook's refs and its queue are the fields of `UnlockDetector`; each
    run of the effect is a call of `Effect` with the render's inputs. */
module AchievementUnlock {
  import opened Common
  import opened BrowserStorage

  const STORAGE_KEY_PREFIX: string := "cinequest_shown_achievements_"

  /** The two fields of an achievement the detector looks at. */
  datatype Achievement = Achievement(badgeName: Option<string>, name: Option<string>)

  /** JavaScript truthiness of an optional string. */
  predicate Truthy(s: Option<string>) {
    s.Some? && s.value != ""
  }

  /** `a.badgeName || a.name`; None stands for undefined. */
  function AchievementId(a: Achievement): Option<string> {
    if Truthy(a.badgeName) then a.badgeName else a.name
  }

  function StorageKey(userId: string): string {
    STORAGE_KEY_PREFIX + userId
  }

  /** `ids.includes(id)` on the parsed array; a stored element equals a
      string id only when it is that JSON string. */
  predicate Includes(ids: seq<Json>, id: Option<string>) {
    id.Some? && JString(id.value) in ids
  }

  /** getShownAchievementIds. */
  function ShownIds(storage: map<string, StoredValue>, userId: Option<string>): (ids: seq<Json>)
    ensures !Truthy(userId) ==> ids == []
    ensures Truthy(userId) && !ItemTruthy(storage, StorageKey(userId.value)) ==> ids == []
    ensures Truthy(userId) && StorageKey(userId.value) in storage
      && storage[StorageKey(userId.value)].Serialized? && storage[StorageKey(userId.value)].doc.JArray?
      ==> ids == storage[StorageKey(userId.value)].doc.items
  {
    if !Truthy(userId) then []
    else
      var key := StorageKey(userId.value);
      if !ItemTruthy(storage, key) then []
      else match Parse(storage[key])
           case Ok(JArray(items)) => items
           case _ => []
  }

  /** The storage after markAchievementAsShown(userId, achievementId). */
  function MarkShown(storage: map<string, StoredValue>, userId: Option<string>, id: Option<string>): map<string, StoredValue> {
    if !Truthy(userId) || !Truthy(id) then storage
    else
      var shown := ShownIds(storage, userId);
      if Includes(shown, id) then storage
      else storage[StorageKey(userId.value) := Serialized(JArray(shown + [JString(id.value)]))]
  }

  method MarkAchievementAsShown(window: Browser, userId: Option<string>, id: Option<string>)
    modifies window
    ensures window.storage == MarkShown(old(window.storage), userId, id)
    ensures window.location == old(window.location)
  {
    if !Truthy(userId) || !Truthy(id) {
      return;
    }
    var shown := ShownIds(window.storage, userId);
    if !Includes(shown, id) {
      window.SetItem(StorageKey(userId.value), Serialized(JArray(shown + [JString(id.value)])));
    }
  }

  predicate NoDuplicates(ids: seq<Json>) {
    forall i, j :: 0 <= i < j < |ids| ==> ids[i] != ids[j]
  }

  /** The current achievements whose id was neither in the previous list nor
      already shown (each current achievement is trivially unlocked now). */
  predicate IsNew(a: Achievement, previousIds: seq<Option<string>>, shown: seq<Json>) {
    AchievementId(a) !in previousIds && !Includes(shown, AchievementId(a))
  }

  function Ids(achievements: seq<Achievement>): (ids: seq<Option<string>>)
    ensures |ids| == |achievements|
    ensures forall i :: 0 <= i < |ids| ==> ids[i] == AchievementId(achievements[i])
  {
    if achievements == [] then [] else [AchievementId(achievements[0])] + Ids(achievements[1..])
  }

  /** The newlyUnlocked filter, keeping the order of `current`. */
  function NewlyUnlocked(current: seq<Achievement>, previousIds: seq<Option<string>>, shown: seq<Json>): (r: seq<Achievement>)
    ensures forall a :: a in r <==> a in current && IsNew(a, previousIds, shown)
    ensures |r| <= |current|
  {
    if current == [] then []
    else
      var rest := NewlyUnlocked(current[1..], previousIds, shown);
      assert forall a :: a in current <==> a == current[0] || a in current[1..];
      if IsNew(current[0], previousIds, shown) then [current[0]] + rest else rest
  }

  /** The queue after markAsShown(id): every queued achievement with that id goes. */
  function WithoutId(queue: seq<Achievement>, id: Option<string>): (r: seq<Achievement>)
    ensures forall a :: a in r <==> a in queue && AchievementId(a) != id
    ensures |r| <= |queue|
  {
    if queue == [] then []
    else
      var rest := WithoutId(queue[1..], id);
      assert forall a :: a in queue <==> a == queue[0] || a in queue[1..];
      if AchievementId(queue[0]) != id then [queue[0]] + rest else rest
  }

  /** The hook's state: previousAchievementsRef, hasInitializedRef and newAchievements. */
  datatype DetectorState = DetectorState(previous: seq<Achievement>, initialized: bool, queue: seq<Achievement>)

  /** One run of the effect. `achievements` is None when the query data is
      null; the shown ids are read from storage during the run. While the
      query is still loading its data is undefined, and the hook's
      `data: achievements = []` default makes that Some([]): a first run
      during loading records an empty baseline, so when the data arrives
      every unlocked badge not yet shown is queued. */
  function EffectStep(st: DetectorState, enabled: bool, userId: Option<string>,
                      achievements: Option<seq<Achievement>>, shown: seq<Json>): DetectorState {
    if !enabled || !Truthy(userId) || achievements.None? then st
    else if !st.initialized then st.(previous := achievements.value, initialized := true)
    else
      var newly := NewlyUnlocked(achievements.value, Ids(st.previous), shown);
      DetectorState(achievements.value, true, st.queue + newly)
  }

  // ---------------------------------------------------------------------------
  // Properties of the shown-ids list
  // ---------------------------------------------------------------------------

  /** A value that is not a stringified array reads as no shown ids. */
  lemma UnreadableStorageReadsEmpty(storage: map<string, StoredValue>, userId: string, text: string)
    requires userId != ""
    requires StorageKey(userId) in storage && storage[StorageKey(userId)] == Text(text)
    ensures ShownIds(storage, Some(userId)) == []
  {
  }

  /** After marking, the id is in the list, and the list is the old one, or
      the old one with the id appended when it was absent. */
  lemma MarkAppendsOnlyAbsent(storage: map<string, StoredValue>, userId: string, id: string)
    requires userId != "" && id != ""
    ensures var before := ShownIds(storage, Some(userId));
      var after := ShownIds(MarkShown(storage, Some(userId), Some(id)), Some(userId));
      && Includes(after, Some(id))
      && (Includes(before, Some(id)) ==> after == before)
      && (!Includes(before, Some(id)) ==> after == before + [JString(id)])
  {
    var before := ShownIds(storage, Some(userId));
    if !Includes(before, Some(id)) {
      var s := MarkShown(storage, Some(userId), Some(id));
      assert s[StorageKey(userId)] == Serialized(JArray(before + [JString(id)]));
      assert JsonText(JArray(before + [JString(id)])) != "";
      assert (before + [JString(id)])[|before|] == JString(id);
    }
  }

  /** Marking keeps the list free of duplicates. */
  lemma MarkKeepsNoDuplicates(storage: map<string, StoredValue>, userId: string, id: string)
    requires userId != "" && id != ""
    requires NoDuplicates(ShownIds(storage, Some(userId)))
    ensures NoDuplicates(ShownIds(MarkShown(storage, Some(userId), Some(id)), Some(userId)))
  {
    MarkAppendsOnlyAbsent(storage, userId, id);
    var before := ShownIds(storage, Some(userId));
    var after := ShownIds(MarkShown(storage, Some(userId), Some(id)), Some(userId));
    if !Includes(before, Some(id)) {
      forall i, j | 0 <= i < j < |after|
        ensures after[i] != after[j]
      {
        if j == |before| {
          assert after[i] == before[i];
          assert before[i] in before;
        }
      }
    }
  }

  /** Marking twice is marking once, and without a user or an id marking
      changes nothing at all. */
  lemma MarkIdempotent(storage: map<string, StoredValue>, userId: Option<string>, id: Option<string>)
    ensures MarkShown(MarkShown(storage, userId, id), userId, id) == MarkShown(storage, userId, id)
    ensures !Truthy(userId) || !Truthy(id) ==> MarkShown(storage, userId, id) == storage
  {
    if Truthy(userId) && Truthy(id) {
      MarkAppendsOnlyAbsent(storage, userId.value, id.value);
    }
  }

  /** Marking for one user leaves every other user's list alone. */
  lemma MarkOtherUserUnchanged(storage: map<string, StoredValue>, userId: Option<string>, id: Option<string>, other: Option<string>)
    requires other != userId
    ensures ShownIds(MarkShown(storage, userId, id), other) == ShownIds(storage, other)
  {
    if Truthy(userId) && Truthy(other) {
      assert StorageKey(other.value)[|STORAGE_KEY_PREFIX|..] == other.value;
      assert StorageKey(userId.value)[|STORAGE_KEY_PREFIX|..] == userId.value;
    }
  }

  // ---------------------------------------------------------------------------
  // Properties of the effect
  // ---------------------------------------------------------------------------

  /** The queue only grows from run to run, and only a later run adds to
      it: a disabled run, a run without a user and a run without data change
      nothing, and the first enabled run records the baseline and queues
      nothing. */
  lemma QueueGrowsOnlyInLaterRuns(st: DetectorState, enabled: bool, userId: Option<string>,
                                  achievements: Option<seq<Achievement>>, shown: seq<Json>)
    ensures var next := EffectStep(st, enabled, userId, achievements, shown);
      && |st.queue| <= |next.queue| && next.queue[..|st.queue|] == st.queue
      && (next.queue != st.queue ==> st.initialized)
      && (!enabled || !Truthy(userId) || achievements.None? ==> next == st)
      && (enabled && Truthy(userId) && achievements.Some? && !st.initialized ==>
            next == DetectorState(achievements.value, true, st.queue))
  {
  }

  /** A later run appends exactly the new achievements to the queue and
      makes the current list the baseline: an achievement is queued iff it
      is current, its id was not in the previous list and was not shown. */
  lemma LaterRunQueuesNewOnes(st: DetectorState, userId: string, achievements: seq<Achievement>, shown: seq<Json>)
    requires st.initialized && userId != ""
    ensures var next := EffectStep(st, true, Some(userId), Some(achievements), shown);
      && next.previous == achievements && next.initialized
      && |st.queue| <= |next.queue| && next.queue[..|st.queue|] == st.queue
      && (forall a :: a in next.queue[|st.queue|..] <==>
            a in achievements
            && (forall p :: p in st.previous ==> AchievementId(p) != AchievementId(a))
            && !Includes(shown, AchievementId(a)))
  {
    var newly := NewlyUnlocked(achievements, Ids(st.previous), shown);
    var next := EffectStep(st, true, Some(userId), Some(achievements), shown);
    assert next.queue == st.queue + newly;
    assert next.queue[|st.queue|..] == newly;
    forall a
      ensures AchievementId(a) in Ids(st.previous) <==> exists p :: p in st.previous && AchievementId(p) == AchievementId(a)
    {
      var ids := Ids(st.previous);
      if AchievementId(a) in ids {
        var i :| 0 <= i < |ids| && ids[i] == AchievementId(a);
        assert st.previous[i] in st.previous;
      }
      if exists p :: p in st.previous && AchievementId(p) == AchievementId(a) {
        var p :| p in st.previous && AchievementId(p) == AchievementId(a);
        var i :| 0 <= i < |st.previous| && st.previous[i] == p;
        assert ids[i] == AchievementId(a);
      }
    }
  }

  /** Once an id has been seen in a run, a later run does not queue it again. */
  lemma SeenNeverRequeued(st: DetectorState, userId: string, achievements: seq<Achievement>, shown: seq<Json>, a: Achievement)
    requires st.initialized && userId != ""
    requires a in st.previous
    ensures var next := EffectStep(st, true, Some(userId), Some(achievements), shown);
      forall b :: b in next.queue[|st.queue|..] ==> AchievementId(b) != AchievementId(a)
  {
    LaterRunQueuesNewOnes(st, userId, achievements, shown);
  }

  /** markAsShown leaves only the queued achievements with another id. */
  lemma MarkAsShownDropsId(queue: seq<Achievement>, id: Option<string>)
    ensures forall a :: a in WithoutId(queue, id) ==> AchievementId(a) != id
    ensures forall a :: a in queue && AchievementId(a) != id ==> a in WithoutId(queue, id)
    ensures (forall a :: a in queue ==> AchievementId(a) != id) ==> WithoutId(queue, id) == queue
  {
    if forall a :: a in queue ==> AchievementId(a) != id {
      WithoutIdNoMatch(queue, id);
    }
  }

  lemma {:induction false} WithoutIdNoMatch(queue: seq<Achievement>, id: Option<string>)
    requires forall a :: a in queue ==> AchievementId(a) != id
    ensures WithoutId(queue, id) == queue
    decreases |queue|
  {
    if queue != [] {
      assert queue[0] in queue;
      assert forall a :: a in queue[1..] ==> a in queue;
      WithoutIdNoMatch(queue[1..], id);
      assert queue == [queue[0]] + queue[1..];
    }
  }

  /** markAsShown works element by element: a single queued achievement is
      kept or dropped by its id. */
  lemma WithoutIdOne(x: Achievement, id: Option<string>)
    ensures WithoutId([], id) == []
    ensures WithoutId([x], id) == if AchievementId(x) != id then [x] else []
  {
    assert [x][1..] == [];
  }

  /** ... and it keeps the queue's order: two queues one after the other
      give the two results one after the other. */
  lemma {:induction false} WithoutIdAppend(a: seq<Achievement>, b: seq<Achievement>, id: Option<string>)
    ensures WithoutId(a + b, id) == WithoutId(a, id) + WithoutId(b, id)
    decreases |a|
  {
    if a != [] {
      var head := if AchievementId(a[0]) != id then [a[0]] else [];
      assert (a + b)[0] == a[0] && (a + b)[1..] == a[1..] + b;
      assert WithoutId(a + b, id) == head + WithoutId(a[1..] + b, id);
      assert WithoutId(a, id) == head + WithoutId(a[1..], id);
      WithoutIdAppend(a[1..], b, id);
    } else {
      assert a + b == b;
    }
  }

  /** Each queued achievement with another id stays as often as it was queued. */
  lemma {:induction false} WithoutIdCounts(queue: seq<Achievement>, id: Option<string>, x: Achievement)
    ensures multiset(WithoutId(queue, id))[x] == if AchievementId(x) != id then multiset(queue)[x] else 0
    decreases |queue|
  {
    if queue != [] {
      WithoutIdCounts(queue[1..], id, x);
      assert queue == [queue[0]] + queue[1..];
    }
  }

  /** The newly unlocked filter works element by element ... */
  lemma NewlyUnlockedOne(x: Achievement, previousIds: seq<Option<string>>, shown: seq<Json>)
    ensures NewlyUnlocked([], previousIds, shown) == []
    ensures NewlyUnlocked([x], previousIds, shown) == if IsNew(x, previousIds, shown) then [x] else []
  {
    assert [x][1..] == [];
  }

  /** ... and keeps the order of the current list, part by part. */
  lemma {:induction false} NewlyUnlockedAppend(a: seq<Achievement>, b: seq<Achievement>, previousIds: seq<Option<string>>, shown: seq<Json>)
    ensures NewlyUnlocked(a + b, previousIds, shown) == NewlyUnlocked(a, previousIds, shown) + NewlyUnlocked(b, previousIds, shown)
    decreases |a|
  {
    if a != [] {
      var head := if IsNew(a[0], previousIds, shown) then [a[0]] else [];
      assert (a + b)[0] == a[0] && (a + b)[1..] == a[1..] + b;
      assert NewlyUnlocked(a + b, previousIds, shown) == head + NewlyUnlocked(a[1..] + b, previousIds, shown);
      assert NewlyUnlocked(a, previousIds, shown) == head + NewlyUnlocked(a[1..], previousIds, shown);
      NewlyUnlockedAppend(a[1..], b, previousIds, shown);
    } else {
      assert a + b == b;
    }
  }

  /** A current achievement that is new is queued as often as it occurs. */
  lemma {:induction false} NewlyUnlockedCounts(current: seq<Achievement>, previousIds: seq<Option<string>>, shown: seq<Json>, x: Achievement)
    ensures multiset(NewlyUnlocked(current, previousIds, shown))[x] ==
      if IsNew(x, previousIds, shown) then multiset(current)[x] else 0
    decreases |current|
  {
    if current != [] {
      NewlyUnlockedCounts(current[1..], previousIds, shown, x);
      assert current == [current[0]] + current[1..];
    }
  }

  // ---------------------------------------------------------------------------
  // The hook state
  // ---------------------------------------------------------------------------

  class UnlockDetector {
    var previous: seq<Achievement>
    var initialized: bool
    var queue: seq<Achievement>

    constructor ()
      ensures previous == [] && !initialized && queue == []
    {
      previous, initialized, queue := [], false, [];
    }

    function State(): DetectorState
      reads this
    {
      DetectorState(previous, initialized, queue)
    }

    method Effect(window: Browser, enabled: bool, userId: Option<string>, achievements: Option<seq<Achievement>>)
      modifies this
      ensures State() == EffectStep(old(State()), enabled, userId, achievements, ShownIds(window.storage, userId))
    {
      if !enabled || !Truthy(userId) || achievements.None? {
        return;
      }
      if !initialized {
        previous, initialized := achievements.value, true;
        return;
      }
      var shown := ShownIds(window.storage, userId);
      var newly := NewlyUnlocked(achievements.value, Ids(previous), shown);
      if |newly| > 0 {
        queue := queue + newly;
      }
      previous := achievements.value;
    }

    /** clearNewAchievements. */
    method ClearNewAchievements()
      modifies this
      ensures queue == [] && previous == old(previous) && initialized == old(initialized)
    {
      queue := [];
    }

    /** markAsShown(id): record the id for the user and drop it from the queue. */
    method MarkAsShown(window: Browser, userId: Option<string>, id: Option<string>)
      modifies this, window
      ensures window.storage == MarkShown(old(window.storage), userId, id)
      ensures window.location == old(window.location)
      ensures queue == WithoutId(old(queue), id)
      ensures previous == old(previous) && initialized == old(initialized)
    {
      MarkAchievementAsShown(window, userId, id);
      queue := WithoutId(queue, id);
    }
  }
}
