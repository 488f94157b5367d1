/**
  The list transformations the trip-builder store applies to a trip's days and their
  activities. Every action of the store copies the lists it changes (`map`, `filter`,
  spreading into a new array); these functions give the copy it builds.
*/
module StoreDays {
  import opened Wrappers
  import opened JsArray
  import opened JsString
  import opened TripModel

  // ----- Lookups by id -----

  /** `activities.findIndex(a => a.id === id)`: the first position holding `id`, or -1. */
  function IndexOfId(activities: seq<Activity>, id: string): (r: int)
    ensures -1 <= r < |activities|
    ensures r == -1 <==> forall a :: a in activities ==> a.id != id
    ensures r >= 0 ==> activities[r].id == id && forall j :: 0 <= j < r ==> activities[j].id != id
    decreases |activities|
  {
    if activities == [] then -1
    else if activities[0].id == id then 0
    else
      var k := IndexOfId(activities[1..], id);
      if k == -1 then -1 else k + 1
  }

  /** `activities.find(a => a.id === id)`: the first activity with that id, if any. */
  function FindById(activities: seq<Activity>, id: string): (r: Option<Activity>)
    ensures r.None? <==> forall a :: a in activities ==> a.id != id
    ensures r.Some? ==> r.value in activities && r.value.id == id
    ensures r.Some? ==>
      exists k :: 0 <= k < |activities| && activities[k] == r.value && forall j :: 0 <= j < k ==> activities[j].id != id
  {
    var k := IndexOfId(activities, id);
    if k < 0 then None else Some(activities[k])
  }

  function IdIs(id: string): Activity -> bool
  {
    (a: Activity) => a.id == id
  }

  function IdIsNot(id: string): Activity -> bool
  {
    (a: Activity) => a.id != id
  }

  /** `activities.filter(a => a.id !== id)`: every activity with that id removed. */
  function RemoveId(activities: seq<Activity>, id: string): (r: seq<Activity>)
    ensures forall a {:trigger a in r} :: a in r <==> a in activities && a.id != id
    ensures IsSubsequence(r, activities)
  {
    Filter(activities, IdIsNot(id))
  }

  /** The activities `RemoveId` takes out. */
  function WithId(activities: seq<Activity>, id: string): (r: seq<Activity>)
    ensures forall a {:trigger a in r} :: a in r <==> a in activities && a.id == id
  {
    Filter(activities, IdIs(id))
  }

  /** The day total splits over a predicate and its negation. */
  lemma {:induction false} DayTotalSplits(xs: seq<Activity>, p: Activity -> bool, q: Activity -> bool)
    requires forall x :: q(x) == !p(x)
    ensures CalculateDayTotal(Filter(xs, p)) + CalculateDayTotal(Filter(xs, q)) == CalculateDayTotal(xs)
    decreases |xs|
  {
    if xs != [] {
      var x, rest := xs[0], xs[1..];
      DayTotalSplits(rest, p, q);
      assert xs == [x] + rest;
      DayTotalAppend([x], rest);
      if p(x) {
        assert Filter(xs, p) == [x] + Filter(rest, p);
        assert Filter(xs, q) == Filter(rest, q);
        DayTotalAppend([x], Filter(rest, p));
      } else {
        assert Filter(xs, p) == Filter(rest, p);
        assert Filter(xs, q) == [x] + Filter(rest, q);
        DayTotalAppend([x], Filter(rest, q));
      }
    }
  }

  /** What `RemoveId` removes and what it keeps add up to the original list, in multiset and in cost. */
  lemma RemoveIdAccounting(activities: seq<Activity>, id: string)
    ensures multiset(RemoveId(activities, id)) + multiset(WithId(activities, id)) == multiset(activities)
    ensures CalculateDayTotal(RemoveId(activities, id)) + CalculateDayTotal(WithId(activities, id))
         == CalculateDayTotal(activities)
  {
    FilterSplits(activities, IdIsNot(id), IdIs(id));
    DayTotalSplits(activities, IdIsNot(id), IdIs(id));
  }

  // ----- Per-activity updates -----

  /** `activities.map(a => a.id === id ? f(a) : a)`. */
  function MapMatching(activities: seq<Activity>, id: string, f: Activity -> Activity): (r: seq<Activity>)
    ensures |r| == |activities|
    ensures forall k :: 0 <= k < |r| ==> r[k] == if activities[k].id == id then f(activities[k]) else activities[k]
  {
    seq(|activities|, k requires 0 <= k < |activities| => if activities[k].id == id then f(activities[k]) else activities[k])
  }

  /** Updates that keep every cost keep the day total. */
  lemma {:induction false} MapMatchingKeepsTotal(activities: seq<Activity>, id: string, f: Activity -> Activity)
    requires forall a :: f(a).cost == a.cost
    ensures CalculateDayTotal(MapMatching(activities, id, f)) == CalculateDayTotal(activities)
    decreases |activities|
  {
    if activities != [] {
      var n := |activities|;
      assert MapMatching(activities, id, f)[..n - 1] == MapMatching(activities[..n - 1], id, f);
      MapMatchingKeepsTotal(activities[..n - 1], id, f);
    }
  }

  /** The `addBackupActivity` update: the backup appended to the (possibly absent) backup list. */
  function WithBackup(a: Activity, backup: Activity): (r: Activity)
    ensures r.backupActivities.Some?
    ensures r.backupActivities.value == (if a.backupActivities.Some? then a.backupActivities.value else []) + [backup]
    ensures r == a.(backupActivities := r.backupActivities)
  {
    var backups := if a.backupActivities.Some? then a.backupActivities.value else [];
    a.(backupActivities := Some(backups + [backup]))
  }

  /** The `removeBackupActivity` update: every backup with that id removed, when there is a backup list. */
  function WithoutBackup(a: Activity, backupId: string): (r: Activity)
    ensures a.backupActivities.None? ==> r == a
    ensures a.backupActivities.Some? ==>
      r == a.(backupActivities := Some(RemoveId(a.backupActivities.value, backupId)))
  {
    if a.backupActivities.Some? then a.(backupActivities := Some(RemoveId(a.backupActivities.value, backupId)))
    else a
  }

  /**
    The `toggleFlexibleTiming` update: flexibility negated; a flexible result has no
    start time, a fixed one keeps whatever start time it had.
  */
  function ToggledFlexible(a: Activity): (r: Activity)
    ensures r.isFlexible == !a.isFlexible
    ensures r.isFlexible ==> r.startTime == None
    ensures !r.isFlexible ==> r.startTime == a.startTime
    ensures r == a.(isFlexible := r.isFlexible, startTime := r.startTime)
  {
    if !a.isFlexible then a.(isFlexible := true, startTime := None)
    else a.(isFlexible := false)
  }

  /** Toggling a fixed activity twice drops its start time: the first toggle forgot it. */
  lemma ToggleTwiceForgetsStartTime(a: Activity)
    requires !a.isFlexible
    ensures ToggledFlexible(ToggledFlexible(a)) == a.(startTime := None)
  {
  }

  // ----- Per-day updates -----

  /** `days.map(d => d.id === dayId ? { ...d, activities: f(d.activities) } : d)`. */
  function MapActivitiesOf(days: seq<TripDay>, dayId: string, f: seq<Activity> -> seq<Activity>): (r: seq<TripDay>)
    ensures |r| == |days|
    ensures forall i :: 0 <= i < |r| ==>
      r[i].id == days[i].id && r[i].dayNumber == days[i].dayNumber
      && r[i].activities == if days[i].id == dayId then f(days[i].activities) else days[i].activities
    ensures (forall d :: d in days ==> d.id != dayId) ==> r == days
  {
    seq(|days|, i requires 0 <= i < |days| =>
      if days[i].id == dayId then days[i].(activities := f(days[i].activities)) else days[i])
  }

  /** The day `MapActivitiesOf` makes of `day`. */
  function MapDay(day: TripDay, dayId: string, f: seq<Activity> -> seq<Activity>): TripDay
  {
    if day.id == dayId then day.(activities := f(day.activities)) else day
  }

  /** Mapping one more day extends the mapped list by that day, mapped. */
  lemma MapActivitiesOfSnoc(days: seq<TripDay>, dayId: string, f: seq<Activity> -> seq<Activity>, k: int)
    requires 0 <= k < |days|
    ensures MapActivitiesOf(days[..k + 1], dayId, f) == MapActivitiesOf(days[..k], dayId, f) + [MapDay(days[k], dayId, f)]
  {
    var longer := MapActivitiesOf(days[..k + 1], dayId, f);
    var shorter := MapActivitiesOf(days[..k], dayId, f) + [MapDay(days[k], dayId, f)];
    forall i | 0 <= i <= k ensures longer[i] == shorter[i] {
      assert days[..k + 1][i] == days[i];
    }
  }

  function Appending(a: Activity): seq<Activity> -> seq<Activity>
  {
    (acts: seq<Activity>) => acts + [a]
  }

  function RemovingId(id: string): seq<Activity> -> seq<Activity>
  {
    (acts: seq<Activity>) => RemoveId(acts, id)
  }

  function Replacing(activity: Activity): seq<Activity> -> seq<Activity>
  {
    (acts: seq<Activity>) => MapMatching(acts, activity.id, (a: Activity) => activity)
  }

  function InsertingAt(index: int, a: Activity): seq<Activity> -> seq<Activity>
  {
    (acts: seq<Activity>) => InsertAt(acts, index, a)
  }

  function AddingBackup(mainId: string, backup: Activity): seq<Activity> -> seq<Activity>
  {
    (acts: seq<Activity>) => MapMatching(acts, mainId, (a: Activity) => WithBackup(a, backup))
  }

  function RemovingBackup(mainId: string, backupId: string): seq<Activity> -> seq<Activity>
  {
    (acts: seq<Activity>) => MapMatching(acts, mainId, (a: Activity) => WithoutBackup(a, backupId))
  }

  function TogglingFlexible(id: string): seq<Activity> -> seq<Activity>
  {
    (acts: seq<Activity>) => MapMatching(acts, id, ToggledFlexible)
  }

  /** No two days share an id. */
  ghost predicate DistinctDayIds(days: seq<TripDay>)
  {
    forall i, j :: 0 <= i < j < |days| ==> days[i].id != days[j].id
  }

  /** With distinct day ids, mapping the day with id `dayId` changes that one day only. */
  lemma MapActivitiesOfOne(days: seq<TripDay>, dayId: string, f: seq<Activity> -> seq<Activity>, i: int)
    requires DistinctDayIds(days) && 0 <= i < |days| && days[i].id == dayId
    ensures MapActivitiesOf(days, dayId, f) == days[i := days[i].(activities := f(days[i].activities))]
  {
  }

  /** An update that keeps every day total keeps the trip total. */
  lemma {:induction false} MapActivitiesOfKeepsTotal(days: seq<TripDay>, dayId: string, f: seq<Activity> -> seq<Activity>)
    requires forall acts :: CalculateDayTotal(f(acts)) == CalculateDayTotal(acts)
    ensures CalculateTripTotal(MapActivitiesOf(days, dayId, f)) == CalculateTripTotal(days)
    decreases |days|
  {
    if days != [] {
      var n := |days|;
      MapActivitiesOfSnoc(days, dayId, f, n - 1);
      assert days[..n] == days;
      MapActivitiesOfKeepsTotal(days[..n - 1], dayId, f);
    }
  }

  /** Adding a backup changes no cost, so the trip total stays as it was. */
  lemma AddingBackupKeepsTotal(days: seq<TripDay>, dayId: string, id: string, backup: Activity)
    ensures CalculateTripTotal(MapActivitiesOf(days, dayId, AddingBackup(id, backup))) == CalculateTripTotal(days)
  {
    forall acts ensures CalculateDayTotal(AddingBackup(id, backup)(acts)) == CalculateDayTotal(acts) {
      MapMatchingKeepsTotal(acts, id, (a: Activity) => WithBackup(a, backup));
    }
    MapActivitiesOfKeepsTotal(days, dayId, AddingBackup(id, backup));
  }

  /** Removing a backup changes no cost, so the trip total stays as it was. */
  lemma RemovingBackupKeepsTotal(days: seq<TripDay>, dayId: string, id: string, backupId: string)
    ensures CalculateTripTotal(MapActivitiesOf(days, dayId, RemovingBackup(id, backupId))) == CalculateTripTotal(days)
  {
    forall acts ensures CalculateDayTotal(RemovingBackup(id, backupId)(acts)) == CalculateDayTotal(acts) {
      MapMatchingKeepsTotal(acts, id, (a: Activity) => WithoutBackup(a, backupId));
    }
    MapActivitiesOfKeepsTotal(days, dayId, RemovingBackup(id, backupId));
  }

  /** Toggling flexibility changes no cost, so the trip total stays as it was. */
  lemma TogglingKeepsTotal(days: seq<TripDay>, dayId: string, id: string)
    ensures CalculateTripTotal(MapActivitiesOf(days, dayId, TogglingFlexible(id))) == CalculateTripTotal(days)
  {
    forall acts ensures CalculateDayTotal(TogglingFlexible(id)(acts)) == CalculateDayTotal(acts) {
      MapMatchingKeepsTotal(acts, id, ToggledFlexible);
    }
    MapActivitiesOfKeepsTotal(days, dayId, TogglingFlexible(id));
  }

  /** Adding an activity to an existing day raises the trip total by its cost. */
  lemma AddActivityRaisesTotal(days: seq<TripDay>, dayId: string, a: Activity, i: int)
    requires DistinctDayIds(days) && 0 <= i < |days| && days[i].id == dayId
    ensures CalculateTripTotal(MapActivitiesOf(days, dayId, Appending(a))) == CalculateTripTotal(days) + a.cost
  {
    MapActivitiesOfOne(days, dayId, Appending(a), i);
    ReplaceDay(days, i, days[i].(activities := days[i].activities + [a]));
    DayTotalAppend(days[i].activities, [a]);
  }

  /** Adding two activities in turn raises the trip total by the sum of their costs. */
  lemma AddTwoActivitiesTotal(days: seq<TripDay>, dayId: string, a: Activity, b: Activity, i: int)
    requires DistinctDayIds(days) && 0 <= i < |days| && days[i].id == dayId
    ensures var after := MapActivitiesOf(MapActivitiesOf(days, dayId, Appending(a)), dayId, Appending(b));
      && CalculateTripTotal(after) == CalculateTripTotal(days) + a.cost + b.cost
      && CalculateDayTotal(after[i].activities) == CalculateDayTotal(days[i].activities) + a.cost + b.cost
  {
    var once := MapActivitiesOf(days, dayId, Appending(a));
    AddActivityRaisesTotal(days, dayId, a, i);
    AddActivityRaisesTotal(once, dayId, b, i);
    DayTotalAppend(days[i].activities, [a]);
    DayTotalAppend(days[i].activities + [a], [b]);
  }

  /** Removing an activity id from an existing day lowers the trip total by the cost of what was removed. */
  lemma RemoveActivityLowersTotal(days: seq<TripDay>, dayId: string, id: string, i: int)
    requires DistinctDayIds(days) && 0 <= i < |days| && days[i].id == dayId
    ensures CalculateTripTotal(MapActivitiesOf(days, dayId, RemovingId(id)))
         == CalculateTripTotal(days) - CalculateDayTotal(WithId(days[i].activities, id))
  {
    MapActivitiesOfOne(days, dayId, RemovingId(id), i);
    ReplaceDay(days, i, days[i].(activities := RemoveId(days[i].activities, id)));
    RemoveIdAccounting(days[i].activities, id);
  }

  // ----- Moving an activity -----

  /**
    The activity `moveActivity` takes out of the source day: the first activity with
    `activityId` in a day with id `fromDayId`; when several days carry that id, the
    last of them that holds one (each `map` callback overwrites the previous find).
  */
  function ActivityToMove(days: seq<TripDay>, fromDayId: string, activityId: string): (r: Option<Activity>)
    ensures r.Some? ==> r.value.id == activityId
    decreases |days|
  {
    if days == [] then None
    else
      var last := days[|days| - 1];
      var k := IndexOfId(last.activities, activityId);
      if last.id == fromDayId && k >= 0 then Some(last.activities[k])
      else ActivityToMove(days[..|days| - 1], fromDayId, activityId)
  }

  /** There is nothing to move exactly when no source day holds an activity with the id. */
  lemma {:induction false} NothingToMoveIff(days: seq<TripDay>, fromDayId: string, activityId: string)
    ensures ActivityToMove(days, fromDayId, activityId).None?
        <==> forall d :: d in days && d.id == fromDayId ==> IndexOfId(d.activities, activityId) < 0
    decreases |days|
  {
    if days != [] {
      var front, last := days[..|days| - 1], days[|days| - 1];
      NothingToMoveIff(front, fromDayId, activityId);
      assert days == front + [last];
      assert forall d :: d in days <==> d in front || d == last;
    }
  }

  /** A prefix of a day list with distinct ids has distinct ids. */
  lemma DistinctDayIdsPrefix(days: seq<TripDay>, n: int)
    requires DistinctDayIds(days) && 0 <= n <= |days|
    ensures DistinctDayIds(days[..n])
  {
    var front := days[..n];
    forall p, q | 0 <= p < q < |front| ensures front[p].id != front[q].id {
      assert front[p] == days[p] && front[q] == days[q];
    }
  }

  /** With distinct day ids, the day at `i` is the only one with its id. */
  lemma OnlyDayWithId(days: seq<TripDay>, i: int)
    requires DistinctDayIds(days) && 0 <= i < |days|
    ensures forall j :: 0 <= j < |days| && j != i ==> days[j].id != days[i].id
  {
  }

  /** Without a day of id `fromDayId` there is nothing to move. */
  lemma NothingToMoveWithoutSource(days: seq<TripDay>, fromDayId: string, activityId: string)
    requires forall j :: 0 <= j < |days| ==> days[j].id != fromDayId
    ensures ActivityToMove(days, fromDayId, activityId) == None
  {
    NothingToMoveIff(days, fromDayId, activityId);
    forall d | d in days ensures d.id != fromDayId {
      var j :| 0 <= j < |days| && days[j] == d;
    }
  }

  /** A last day that is not a source day adds nothing to move. */
  lemma ActivityToMoveSkipsLast(days: seq<TripDay>, fromDayId: string, activityId: string)
    requires days != [] && days[|days| - 1].id != fromDayId
    ensures ActivityToMove(days, fromDayId, activityId) == ActivityToMove(days[..|days| - 1], fromDayId, activityId)
  {
    ActivityToMoveSnoc(days, fromDayId, activityId, |days| - 1);
    assert days[..|days|] == days;
  }

  /** When the last day is the only source day, the activity to move is its first match. */
  lemma ActivityToMoveFromLast(days: seq<TripDay>, fromDayId: string, activityId: string)
    requires days != [] && days[|days| - 1].id == fromDayId
    requires forall j :: 0 <= j < |days| - 1 ==> days[j].id != fromDayId
    ensures ActivityToMove(days, fromDayId, activityId) == FindById(days[|days| - 1].activities, activityId)
  {
    ActivityToMoveSnoc(days, fromDayId, activityId, |days| - 1);
    assert days[..|days|] == days;
    NothingToMoveWithoutSource(days[..|days| - 1], fromDayId, activityId);
  }

  /** With distinct day ids, the activity to move is the first match in the one source day. */
  lemma {:induction false} ActivityToMoveAt(days: seq<TripDay>, fromDayId: string, activityId: string, i: int)
    requires DistinctDayIds(days) && 0 <= i < |days| && days[i].id == fromDayId
    ensures ActivityToMove(days, fromDayId, activityId) == FindById(days[i].activities, activityId)
    decreases |days|
  {
    var n := |days|;
    if i < n - 1 {
      var front := days[..n - 1];
      assert days[n - 1].id != days[i].id;
      ActivityToMoveSkipsLast(days, fromDayId, activityId);
      DistinctDayIdsPrefix(days, n - 1);
      assert front[i] == days[i];
      ActivityToMoveAt(front, fromDayId, activityId, i);
    } else {
      OnlyDayWithId(days, i);
      ActivityToMoveFromLast(days, fromDayId, activityId);
    }
  }

  /** Looking at one more day: a find there replaces whatever the earlier days gave. */
  lemma ActivityToMoveSnoc(days: seq<TripDay>, fromDayId: string, activityId: string, k: int)
    requires 0 <= k < |days|
    ensures var i := IndexOfId(days[k].activities, activityId);
      ActivityToMove(days[..k + 1], fromDayId, activityId)
      == if days[k].id == fromDayId && i >= 0 then Some(days[k].activities[i])
         else ActivityToMove(days[..k], fromDayId, activityId)
  {
    assert days[..k + 1][..k] == days[..k];
  }

  /**
    The first pass of `moveActivity`: one walk over the days that removes the
    activity's id from each day with id `fromDayId` and remembers the activity found
    there.
  */
  method TakeActivity(days: seq<TripDay>, fromDayId: string, activityId: string)
    returns (afterRemoval: seq<TripDay>, taken: Option<Activity>)
    ensures afterRemoval == MapActivitiesOf(days, fromDayId, RemovingId(activityId))
    ensures taken == ActivityToMove(days, fromDayId, activityId)
  {
    taken := None;
    afterRemoval := [];
    var k := 0;
    while k < |days|
      invariant 0 <= k <= |days|
      invariant afterRemoval == MapActivitiesOf(days[..k], fromDayId, RemovingId(activityId))
      invariant taken == ActivityToMove(days[..k], fromDayId, activityId)
    {
      var day := days[k];
      var next := day;
      if day.id == fromDayId {
        var activityIndex := IndexOfId(day.activities, activityId);
        if activityIndex > -1 {
          taken := Some(day.activities[activityIndex]);
          next := day.(activities := RemoveId(day.activities, activityId));
        } else {
          FilterKeepsAll(day.activities, IdIsNot(activityId));
        }
      }
      MapActivitiesOfSnoc(days, fromDayId, RemovingId(activityId), k);
      ActivityToMoveSnoc(days, fromDayId, activityId, k);
      afterRemoval := afterRemoval + [next];
      k := k + 1;
    }
    assert days[..k] == days;
  }

  /**
    The days after `moveActivity`, or `None` when there is nothing to move and the
    store is left as it was. The activity is removed from the source day (with every
    other activity of the same id) and inserted into each day with id `toDayId` at
    `newIndex`, read as `splice` reads it.
  */
  function MovedDays(days: seq<TripDay>, activityId: string, fromDayId: string, toDayId: string, newIndex: int)
    : (r: Option<seq<TripDay>>)
    ensures r.None? <==> forall d :: d in days && d.id == fromDayId ==> IndexOfId(d.activities, activityId) < 0
  {
    NothingToMoveIff(days, fromDayId, activityId);
    match ActivityToMove(days, fromDayId, activityId)
    case None => None
    case Some(a) =>
      var afterRemoval := MapActivitiesOf(days, fromDayId, RemovingId(activityId));
      Some(MapActivitiesOf(afterRemoval, toDayId, InsertingAt(newIndex, a)))
  }

  /** A move keeps the number of days and their numbering. */
  lemma MovedDaysKeepNumbering(days: seq<TripDay>, activityId: string, fromDayId: string, toDayId: string,
                               newIndex: int)
    ensures var r := MovedDays(days, activityId, fromDayId, toDayId, newIndex);
      r.Some? ==> |r.value| == |days| && (DaysNumbered(days) ==> DaysNumbered(r.value))
  {
    match ActivityToMove(days, fromDayId, activityId)
    case None =>
    case Some(a) =>
      var afterRemoval := MapActivitiesOf(days, fromDayId, RemovingId(activityId));
      var moved := MapActivitiesOf(afterRemoval, toDayId, InsertingAt(newIndex, a));
      assert MovedDays(days, activityId, fromDayId, toDayId, newIndex) == Some(moved);
      if DaysNumbered(days) {
        forall k | 0 <= k < |moved| ensures moved[k].dayNumber == k + 1 {
          assert moved[k].dayNumber == afterRemoval[k].dayNumber == days[k].dayNumber;
        }
      }
  }

  /**
    `moveActivity`'s computation of the new days: the removal pass, then, when an
    activity was found, its insertion into the destination day.
  */
  method MoveDays(days: seq<TripDay>, activityId: string, fromDayId: string, toDayId: string, newIndex: int)
    returns (r: Option<seq<TripDay>>)
    ensures r == MovedDays(days, activityId, fromDayId, toDayId, newIndex)
  {
    var daysAfterRemoval, activityToMove := TakeActivity(days, fromDayId, activityId);
    if activityToMove.None? {
      return None;
    }
    r := Some(MapActivitiesOf(daysAfterRemoval, toDayId, InsertingAt(newIndex, activityToMove.value)));
  }

  /**
    With distinct day ids, a source day at `i` holding the activity and a destination
    day at `j`: the move removes every activity with the id from day `i` and inserts the
    first of them into day `j` at the clamped `newIndex`. Compared with the old days, the
    activities gain the moved one and lose all with its id; so does the total.
  */
  lemma MoveAccounting(days: seq<TripDay>, activityId: string, fromDayId: string, toDayId: string,
                       newIndex: int, i: int, j: int)
    requires DistinctDayIds(days)
    requires 0 <= i < |days| && days[i].id == fromDayId && IndexOfId(days[i].activities, activityId) >= 0
    requires 0 <= j < |days| && days[j].id == toDayId
    ensures var a := days[i].activities[IndexOfId(days[i].activities, activityId)];
      var removed := WithId(days[i].activities, activityId);
      var dest := if i == j then RemoveId(days[i].activities, activityId) else days[j].activities;
      var r := MovedDays(days, activityId, fromDayId, toDayId, newIndex);
      && r.Some?
      && |r.value| == |days|
      && r.value[j].activities[RelativeIndex(newIndex, |dest|)] == a
      && multiset(AllActivities(r.value)) + multiset(removed) == multiset(AllActivities(days)) + multiset{a}
      && CalculateTripTotal(r.value) + CalculateDayTotal(removed) == CalculateTripTotal(days) + a.cost
  {
    var a := days[i].activities[IndexOfId(days[i].activities, activityId)];
    ActivityToMoveAt(days, fromDayId, activityId, i);
    assert ActivityToMove(days, fromDayId, activityId) == Some(a);
    var afterRemoval := MapActivitiesOf(days, fromDayId, RemovingId(activityId));
    RemovalStep(days, fromDayId, activityId, i);
    assert afterRemoval[j].activities == if i == j then RemoveId(days[i].activities, activityId) else days[j].activities;
    var moved := MapActivitiesOf(afterRemoval, toDayId, InsertingAt(newIndex, a));
    assert MovedDays(days, activityId, fromDayId, toDayId, newIndex) == Some(moved);
    InsertionStep(afterRemoval, toDayId, newIndex, a, j);
    var removed := WithId(days[i].activities, activityId);
    MultisetChain(multiset(AllActivities(days)), multiset(AllActivities(afterRemoval)),
      multiset(AllActivities(moved)), multiset(removed), multiset{a});
  }

  /** Splicing an activity into a list raises its total by the activity's cost. */
  lemma InsertAtTotal(xs: seq<Activity>, k: int, a: Activity)
    ensures CalculateDayTotal(InsertAt(xs, k, a)) == CalculateDayTotal(xs) + a.cost
  {
    var c := RelativeIndex(k, |xs|);
    assert InsertAt(xs, k, a) == xs[..c] + [a] + xs[c..];
    DayTotalAppend(xs[..c] + [a], xs[c..]);
    DayTotalAppend(xs[..c], [a]);
    DayTotalAppend(xs[..c], xs[c..]);
    assert xs == xs[..c] + xs[c..];
  }

  /** Removing an id from day `i` of any day list, accounted in multiset and in cost. */
  lemma RemoveFromDayAccounting(days: seq<TripDay>, activityId: string, i: int)
    requires 0 <= i < |days|
    ensures var r := days[i := days[i].(activities := RemoveId(days[i].activities, activityId))];
      var removed := WithId(days[i].activities, activityId);
      && multiset(AllActivities(r)) + multiset(removed) == multiset(AllActivities(days))
      && CalculateTripTotal(r) + CalculateDayTotal(removed) == CalculateTripTotal(days)
  {
    var d := days[i].(activities := RemoveId(days[i].activities, activityId));
    ReplaceDay(days, i, d);
    RemoveIdAccounting(days[i].activities, activityId);
    MultisetRemovalCancel(multiset(AllActivities(days[i := d])), multiset(AllActivities(days)),
      multiset(days[i].activities), multiset(d.activities), multiset(WithId(days[i].activities, activityId)));
  }

  /** The first half of a move: every activity with the id leaves the one source day. */
  lemma RemovalStep(days: seq<TripDay>, fromDayId: string, activityId: string, i: int)
    requires DistinctDayIds(days) && 0 <= i < |days| && days[i].id == fromDayId
    ensures var r := MapActivitiesOf(days, fromDayId, RemovingId(activityId));
      var removed := WithId(days[i].activities, activityId);
      && r == days[i := days[i].(activities := RemoveId(days[i].activities, activityId))]
      && DistinctDayIds(r)
      && multiset(AllActivities(r)) + multiset(removed) == multiset(AllActivities(days))
      && CalculateTripTotal(r) + CalculateDayTotal(removed) == CalculateTripTotal(days)
  {
    MapActivitiesOfOne(days, fromDayId, RemovingId(activityId), i);
    RemoveFromDayAccounting(days, activityId, i);
  }

  /** Splicing an activity into day `j` of any day list, accounted in multiset and in cost. */
  lemma InsertIntoDayAccounting(days: seq<TripDay>, newIndex: int, a: Activity, j: int)
    requires 0 <= j < |days|
    ensures var r := days[j := days[j].(activities := InsertAt(days[j].activities, newIndex, a))];
      && multiset(AllActivities(r)) == multiset(AllActivities(days)) + multiset{a}
      && CalculateTripTotal(r) == CalculateTripTotal(days) + a.cost
  {
    var d := days[j].(activities := InsertAt(days[j].activities, newIndex, a));
    ReplaceDay(days, j, d);
    InsertAtTotal(days[j].activities, newIndex, a);
    MultisetInsertionCancel(multiset(AllActivities(days[j := d])), multiset(AllActivities(days)),
      multiset(days[j].activities), multiset(d.activities), multiset{a});
  }

  /** The second half of a move: the activity enters the one destination day at the clamped index. */
  lemma InsertionStep(days: seq<TripDay>, toDayId: string, newIndex: int, a: Activity, j: int)
    requires DistinctDayIds(days) && 0 <= j < |days| && days[j].id == toDayId
    ensures var r := MapActivitiesOf(days, toDayId, InsertingAt(newIndex, a));
      && r == days[j := days[j].(activities := InsertAt(days[j].activities, newIndex, a))]
      && r[j].activities[RelativeIndex(newIndex, |days[j].activities|)] == a
      && multiset(AllActivities(r)) == multiset(AllActivities(days)) + multiset{a}
      && CalculateTripTotal(r) == CalculateTripTotal(days) + a.cost
  {
    MapActivitiesOfOne(days, toDayId, InsertingAt(newIndex, a), j);
    InsertIntoDayAccounting(days, newIndex, a, j);
  }

  /**
    When the source day holds exactly one activity with the id, the move keeps the
    multiset of all activities and the trip total.
  */
  lemma MovePreservesActivities(days: seq<TripDay>, activityId: string, fromDayId: string, toDayId: string,
                                newIndex: int, i: int, j: int)
    requires DistinctDayIds(days)
    requires 0 <= i < |days| && days[i].id == fromDayId && |WithId(days[i].activities, activityId)| == 1
    requires 0 <= j < |days| && days[j].id == toDayId
    ensures var r := MovedDays(days, activityId, fromDayId, toDayId, newIndex);
      && r.Some?
      && multiset(AllActivities(r.value)) == multiset(AllActivities(days))
      && CalculateTripTotal(r.value) == CalculateTripTotal(days)
  {
    var removed := WithId(days[i].activities, activityId);
    assert removed[0] in removed;
    var k := IndexOfId(days[i].activities, activityId);
    assert k >= 0;
    var a := days[i].activities[k];
    assert a in removed;
    assert removed == [a];
    MoveAccounting(days, activityId, fromDayId, toDayId, newIndex, i, j);
    var moved := MovedDays(days, activityId, fromDayId, toDayId, newIndex).value;
    MultisetCancel(multiset(AllActivities(moved)), multiset(AllActivities(days)), multiset{a});
  }

  /**
    When no day has id `toDayId`, the activity found in the source day is removed and
    not put back: the trip loses every activity with that id.
  */
  lemma MoveToMissingDayDrops(days: seq<TripDay>, activityId: string, fromDayId: string, toDayId: string,
                              newIndex: int, i: int)
    requires DistinctDayIds(days)
    requires 0 <= i < |days| && days[i].id == fromDayId && IndexOfId(days[i].activities, activityId) >= 0
    requires forall d :: d in days ==> d.id != toDayId
    ensures var removed := WithId(days[i].activities, activityId);
      var r := MovedDays(days, activityId, fromDayId, toDayId, newIndex);
      && r.Some?
      && multiset(AllActivities(r.value)) + multiset(removed) == multiset(AllActivities(days))
      && CalculateTripTotal(r.value) + CalculateDayTotal(removed) == CalculateTripTotal(days)
  {
    var a := days[i].activities[IndexOfId(days[i].activities, activityId)];
    ActivityToMoveAt(days, fromDayId, activityId, i);
    RemovalStep(days, fromDayId, activityId, i);
    var afterRemoval := MapActivitiesOf(days, fromDayId, RemovingId(activityId));
    MapKeepsMissingDay(days, fromDayId, RemovingId(activityId), toDayId);
    MovedDaysFound(days, activityId, fromDayId, toDayId, newIndex, a);
  }

  /** Mapping activities keeps every day id, so a missing day stays missing. */
  lemma MapKeepsMissingDay(days: seq<TripDay>, dayId: string, f: seq<Activity> -> seq<Activity>, missing: string)
    requires forall d :: d in days ==> d.id != missing
    ensures forall d :: d in MapActivitiesOf(days, dayId, f) ==> d.id != missing
  {
    var r := MapActivitiesOf(days, dayId, f);
    forall d | d in r ensures d.id != missing {
      var k :| 0 <= k < |r| && r[k] == d;
      assert days[k] in days;
    }
  }

  /** Once the activity to move is found, the move is the removal pass followed by the insertion pass. */
  lemma MovedDaysFound(days: seq<TripDay>, activityId: string, fromDayId: string, toDayId: string,
                       newIndex: int, a: Activity)
    requires ActivityToMove(days, fromDayId, activityId) == Some(a)
    ensures var afterRemoval := MapActivitiesOf(days, fromDayId, RemovingId(activityId));
      MovedDays(days, activityId, fromDayId, toDayId, newIndex)
        == Some(MapActivitiesOf(afterRemoval, toDayId, InsertingAt(newIndex, a)))
  {
  }

  // ----- Resizing and renumbering the day list -----

  /** Day `k` of the list carries the number `k + 1`. */
  predicate DaysNumbered(days: seq<TripDay>)
  {
    forall k :: 0 <= k < |days| ==> days[k].dayNumber == k + 1
  }

  /** The `count` empty days the `updateTripDates` loop pushes, numbered from `first`. */
  function NewDays(first: nat, count: nat, now: nat): (r: seq<TripDay>)
    ensures |r| == count
    ensures forall k :: 0 <= k < count ==>
      r[k].dayNumber == first + k && r[k].activities == [] && r[k].id == DayId(first + k, now)
    ensures CalculateTripTotal(r) == 0
  {
    var r := seq(count, k requires 0 <= k < count => CreateEmptyDay(first + k, now));
    assert forall k :: 0 <= k < count ==> r[k] == CreateEmptyDay(first + k, now);
    EmptyDaysTotal(r);
    r
  }

  /** One more pushed day extends the list by the day numbered after the last. */
  lemma NewDaysStep(first: nat, count: nat, now: nat)
    ensures NewDays(first, count + 1, now) == NewDays(first, count, now) + [CreateEmptyDay(first + count, now)]
  {
    var longer := NewDays(first, count + 1, now);
    var shorter := NewDays(first, count, now) + [CreateEmptyDay(first + count, now)];
    forall k | 0 <= k < count + 1 ensures longer[k] == shorter[k] {
      assert longer[k] == CreateEmptyDay(first + k, now);
    }
  }

  /** Days without activities cost nothing. */
  lemma {:induction false} EmptyDaysTotal(days: seq<TripDay>)
    requires forall k :: 0 <= k < |days| ==> days[k].activities == []
    ensures CalculateTripTotal(days) == 0
    decreases |days|
  {
    if days != [] {
      EmptyDaysTotal(days[..|days| - 1]);
    }
  }

  /**
    The days `updateTripDates` leaves for a span of `dayCount` days: empty days appended
    when the count grows, `days.slice(0, dayCount)` when it shrinks.
  */
  function ResizeDays(days: seq<TripDay>, dayCount: int, now: nat): (r: seq<TripDay>)
    ensures |days| <= dayCount ==> |r| == dayCount && r[..|days|] == days
    ensures |days| <= dayCount ==> forall k :: |days| <= k < dayCount ==>
      r[k].dayNumber == k + 1 && r[k].activities == [] && r[k].id == DayId(k + 1, now)
    ensures 0 <= dayCount <= |days| ==> r == days[..dayCount]
    ensures dayCount < 0 ==> r == days[..if |days| + dayCount < 0 then 0 else |days| + dayCount]
  {
    var diff := dayCount - |days|;
    if diff > 0 then
      var added := NewDays(|days| + 1, diff, now);
      assert forall k :: |days| <= k < dayCount ==> (days + added)[k] == added[k - |days|];
      days + added
    else if diff < 0 then SliceTo(days, dayCount)
    else days
  }

  /**
    The resizing loop of `updateTripDates`: push empty days numbered after the last
    until there are `dayCount`, or cut the list down to `dayCount` with `slice`.
  */
  method Resize(days: seq<TripDay>, dayCount: int, now: nat) returns (r: seq<TripDay>)
    ensures r == ResizeDays(days, dayCount, now)
    ensures DaysNumbered(days) ==> DaysNumbered(r)
    ensures dayCount >= 0 ==> |r| == dayCount
  {
    if DaysNumbered(days) {
      ResizeKeepsNumbering(days, dayCount, now);
    }
    var diff := dayCount - |days|;
    r := days;
    if diff > 0 {
      var i := 0;
      while i < diff
        invariant 0 <= i <= diff
        invariant r == days + NewDays(|days| + 1, i, now)
      {
        NewDaysStep(|days| + 1, i, now);
        r := r + [CreateEmptyDay(|days| + i + 1, now)];
        i := i + 1;
      }
    } else if diff < 0 {
      r := SliceTo(r, dayCount);
    }
  }

  /** Resizing keeps a numbered list numbered. */
  lemma ResizeKeepsNumbering(days: seq<TripDay>, dayCount: int, now: nat)
    requires DaysNumbered(days)
    ensures DaysNumbered(ResizeDays(days, dayCount, now))
  {
    var r := ResizeDays(days, dayCount, now);
    forall k | 0 <= k < |r| ensures r[k].dayNumber == k + 1 {
      if k < |days| {
        assert r[k] == days[k];
      }
    }
  }

  /** Appending days that cost nothing keeps the total. */
  lemma AppendCostsNothing(days: seq<TripDay>, added: seq<TripDay>)
    requires CalculateTripTotal(added) == 0
    ensures CalculateTripTotal(days + added) == CalculateTripTotal(days)
  {
    TripTotalAppend(days, added);
  }

  /** Growing the list adds only empty days, so the total stays as it was. */
  lemma GrowKeepsTotal(days: seq<TripDay>, dayCount: int, now: nat)
    requires |days| <= dayCount
    ensures CalculateTripTotal(ResizeDays(days, dayCount, now)) == CalculateTripTotal(days)
  {
    if |days| < dayCount {
      var added := NewDays(|days| + 1, dayCount - |days|, now);
      assert ResizeDays(days, dayCount, now) == days + added;
      AppendCostsNothing(days, added);
    }
  }

  /** Resizing to a non-negative count leaves exactly that many days. */
  lemma ResizeToCount(days: seq<TripDay>, dayCount: int, now: nat)
    requires dayCount >= 0
    ensures |ResizeDays(days, dayCount, now)| == dayCount
  {
  }

  /** `days.map((day, index) => ({ ...day, dayNumber: index + 1 }))`. */
  function RenumberDays(days: seq<TripDay>): (r: seq<TripDay>)
    ensures |r| == |days| && DaysNumbered(r)
    ensures forall k :: 0 <= k < |r| ==> r[k].id == days[k].id && r[k].activities == days[k].activities
  {
    seq(|days|, k requires 0 <= k < |days| => days[k].(dayNumber := k + 1))
  }

  /** Renumbering does not change what the days cost. */
  lemma {:induction false} RenumberKeepsTotal(days: seq<TripDay>)
    ensures CalculateTripTotal(RenumberDays(days)) == CalculateTripTotal(days)
    decreases |days|
  {
    if days != [] {
      var n := |days|;
      assert RenumberDays(days)[..n - 1] == RenumberDays(days[..n - 1]);
      RenumberKeepsTotal(days[..n - 1]);
    }
  }

  /** A day with its number blanked out: what renumbering cannot change. */
  function Unnumbered(days: seq<TripDay>): (r: seq<TripDay>)
    ensures |r| == |days|
    ensures forall k :: 0 <= k < |r| ==> r[k].id == days[k].id && r[k].activities == days[k].activities && r[k].dayNumber == 0
  {
    seq(|days|, k requires 0 <= k < |days| => days[k].(dayNumber := 0))
  }

  function DayIdIs(dayId: string): TripDay -> bool
  {
    (d: TripDay) => d.id == dayId
  }

  function DayIdIsNot(dayId: string): TripDay -> bool
  {
    (d: TripDay) => d.id != dayId
  }

  /** Filtering by day id commutes with blanking the day numbers. */
  lemma {:induction false} UnnumberedFilter(days: seq<TripDay>, dayId: string)
    ensures Unnumbered(Filter(days, DayIdIsNot(dayId))) == Filter(Unnumbered(days), DayIdIsNot(dayId))
    decreases |days|
  {
    if days != [] {
      var p := DayIdIsNot(dayId);
      var u := Unnumbered(days);
      UnnumberedFilter(days[1..], dayId);
      assert u[1..] == Unnumbered(days[1..]);
      assert u[0] == days[0].(dayNumber := 0);
      if days[0].id != dayId {
        assert Filter(days, p) == [days[0]] + Filter(days[1..], p);
        assert Filter(u, p) == [u[0]] + Filter(u[1..], p);
        assert Unnumbered([days[0]] + Filter(days[1..], p)) == [u[0]] + Unnumbered(Filter(days[1..], p));
      } else {
        assert Filter(days, p) == Filter(days[1..], p);
        assert Filter(u, p) == Filter(u[1..], p);
      }
    }
  }

  /** The trip total splits over the days that carry an id and the rest. */
  lemma {:induction false} TripTotalSplits(days: seq<TripDay>, dayId: string)
    ensures CalculateTripTotal(Filter(days, DayIdIsNot(dayId))) + CalculateTripTotal(Filter(days, DayIdIs(dayId)))
         == CalculateTripTotal(days)
    decreases |days|
  {
    if days != [] {
      var d, rest := days[0], days[1..];
      TripTotalSplits(rest, dayId);
      assert days == [d] + rest;
      TripTotalAppend([d], rest);
      if d.id == dayId {
        assert Filter(days, DayIdIsNot(dayId)) == Filter(rest, DayIdIsNot(dayId));
        assert Filter(days, DayIdIs(dayId)) == [d] + Filter(rest, DayIdIs(dayId));
        TripTotalAppend([d], Filter(rest, DayIdIs(dayId)));
      } else {
        assert Filter(days, DayIdIsNot(dayId)) == [d] + Filter(rest, DayIdIsNot(dayId));
        assert Filter(days, DayIdIs(dayId)) == Filter(rest, DayIdIs(dayId));
        TripTotalAppend([d], Filter(rest, DayIdIsNot(dayId)));
      }
    }
  }

  /** The days `removeDay` leaves: every day with `dayId` dropped, the rest renumbered from 1. */
  function DropDay(days: seq<TripDay>, dayId: string): (r: seq<TripDay>)
    ensures DaysNumbered(r)
    ensures forall k :: 0 <= k < |r| ==> r[k].id != dayId
  {
    var kept := Filter(days, DayIdIsNot(dayId));
    assert forall k :: 0 <= k < |kept| ==> kept[k] in kept;
    RenumberDays(kept)
  }

  /**
    Apart from their numbers, the days `removeDay` leaves are the other days in their
    old order, and the trip total drops by the cost of the removed days.
  */
  lemma DropDayKeepsOthers(days: seq<TripDay>, dayId: string)
    ensures Unnumbered(DropDay(days, dayId)) == Filter(Unnumbered(days), DayIdIsNot(dayId))
    ensures IsSubsequence(Unnumbered(DropDay(days, dayId)), Unnumbered(days))
    ensures CalculateTripTotal(DropDay(days, dayId)) + CalculateTripTotal(Filter(days, DayIdIs(dayId)))
         == CalculateTripTotal(days)
  {
    var kept := Filter(days, DayIdIsNot(dayId));
    assert Unnumbered(RenumberDays(kept)) == Unnumbered(kept);
    UnnumberedFilter(days, dayId);
    RenumberKeepsTotal(kept);
    TripTotalSplits(days, dayId);
  }

  /** With distinct day ids, removing a day that is present shortens the list by one. */
  lemma DropPresentDay(days: seq<TripDay>, dayId: string, i: int)
    requires DistinctDayIds(days) && 0 <= i < |days| && days[i].id == dayId
    ensures |DropDay(days, dayId)| == |days| - 1
  {
    FilterDropsOne(days, DayIdIsNot(dayId), i);
  }

  // ----- Trip locations -----

  /** No value occurs twice. */
  predicate NoDuplicates(xs: seq<string>)
  {
    forall i, j :: 0 <= i < j < |xs| ==> xs[i] != xs[j]
  }

  /** `address.split(',').pop()?.trim()`: the last comma-separated part of an address, trimmed. */
  function LocationOf(address: string): (r: string)
    ensures TrimmedFrom(LastField(address, ','), r)
    ensures ',' !in r
    ensures r != [] ==> !IsWhitespace(r[0]) && !IsWhitespace(r[|r| - 1])
  {
    Trim(LastField(address, ','))
  }

  /**
    The `locations` list after `addActivity` adds an activity at `address`: its
    location appended when it is non-empty and not yet listed.
  */
  function AddLocation(locations: seq<string>, address: string): (r: seq<string>)
    ensures locations <= r && |r| <= |locations| + 1
    ensures forall x {:trigger x in r} :: x in r <==> x in locations || (x == LocationOf(address) && x != "")
    ensures NoDuplicates(locations) ==> NoDuplicates(r)
  {
    var location := LocationOf(address);
    if location !in locations && location != "" then locations + [location] else locations
  }
}
