/**
  The trip data model: activities, trip days and trips, the two totals and the
  constructors of an empty day and an empty trip.

  Dates are JavaScript `Date` values read through `getTime()`: integer milliseconds.
  Moving a date by `k` calendar days (`setDate(getDate() + k)`) adds `k * DayMs`.
  `Date.now()` is the parameter `now`.
*/
module TripModel {
  import opened Wrappers
  import opened JsString

  datatype Coordinates = Coordinates(lat: real, lng: real)

  datatype Category = Adventure | Food | Culture

  /** The string the source stores in an activity's `category` field. */
  function CategoryName(c: Category): string
  {
    match c
    case Adventure => "Adventure"
    case Food => "Food"
    case Culture => "Culture"
  }

  /**
    A bookable attraction instance. `startTime` ("HH:MM") and `backupActivities`
    are optional fields: `None` is an absent field.
  */
  datatype Activity = Activity(
    id: string,
    name: string,
    location: Coordinates,
    address: string,
    cost: int,
    duration: int,
    category: Category,
    description: string,
    imageUrl: string,
    isFlexible: bool,
    startTime: Option<string>,
    backupActivities: Option<seq<Activity>>)

  datatype TripDay = TripDay(id: string, dayNumber: int, activities: seq<Activity>)

  datatype Trip = Trip(
    id: string,
    title: string,
    description: Option<string>,
    startDate: int,
    endDate: int,
    days: seq<TripDay>,
    totalPrice: int,
    locations: seq<string>,
    creatorId: string,
    isPublished: bool,
    createdAt: int,
    updatedAt: int)

  /** Milliseconds in one day: 1000 * 60 * 60 * 24. */
  const DayMs: int := 86400000

  /**
    `calculateDayTotal`: the sum of the activities' costs, accumulated left to
    right as `reduce` does.
  */
  function CalculateDayTotal(activities: seq<Activity>): (r: int)
    ensures activities == [] ==> r == 0
    ensures (forall a :: a in activities ==> a.cost >= 0) ==> r >= 0
    ensures |activities| == 1 ==> r == activities[0].cost
  {
    if activities == [] then 0
    else CalculateDayTotal(activities[..|activities| - 1]) + activities[|activities| - 1].cost
  }

  /** The day total is additive over concatenation. */
  lemma {:induction false} DayTotalAppend(a: seq<Activity>, b: seq<Activity>)
    ensures CalculateDayTotal(a + b) == CalculateDayTotal(a) + CalculateDayTotal(b)
    decreases |b|
  {
    if b == [] {
      assert a + b == a;
    } else {
      assert (a + b)[..|a + b| - 1] == a + b[..|b| - 1];
      DayTotalAppend(a, b[..|b| - 1]);
    }
  }

  /** `calculateTripTotal`: the sum of the day totals, accumulated left to right. */
  function CalculateTripTotal(days: seq<TripDay>): (r: int)
    ensures (forall d :: d in days ==> d.activities == []) ==> r == 0
  {
    if days == [] then 0
    else CalculateTripTotal(days[..|days| - 1]) + CalculateDayTotal(days[|days| - 1].activities)
  }

  /** The trip total is additive over concatenation of day lists. */
  lemma {:induction false} TripTotalAppend(a: seq<TripDay>, b: seq<TripDay>)
    ensures CalculateTripTotal(a + b) == CalculateTripTotal(a) + CalculateTripTotal(b)
    decreases |b|
  {
    if b == [] {
      assert a + b == a;
    } else {
      assert (a + b)[..|a + b| - 1] == a + b[..|b| - 1];
      TripTotalAppend(a, b[..|b| - 1]);
    }
  }

  /** Every activity of every day, day after day, each day in its schedule order. */
  function AllActivities(days: seq<TripDay>): seq<Activity>
  {
    if days == [] then []
    else AllActivities(days[..|days| - 1]) + days[|days| - 1].activities
  }

  lemma {:induction false} AllActivitiesAppend(a: seq<TripDay>, b: seq<TripDay>)
    ensures AllActivities(a + b) == AllActivities(a) + AllActivities(b)
    decreases |b|
  {
    if b == [] {
      assert a + b == a;
    } else {
      assert (a + b)[..|a + b| - 1] == a + b[..|b| - 1];
      AllActivitiesAppend(a, b[..|b| - 1]);
    }
  }

  /** The trip total is the sum of the costs of all activities of all days. */
  lemma {:induction false} TripTotalIsSumOfAllCosts(days: seq<TripDay>)
    ensures CalculateTripTotal(days) == CalculateDayTotal(AllActivities(days))
    decreases |days|
  {
    if days != [] {
      TripTotalIsSumOfAllCosts(days[..|days| - 1]);
      DayTotalAppend(AllActivities(days[..|days| - 1]), days[|days| - 1].activities);
    }
  }

  /**
    Replacing one day changes the trip total by the change in that day's total, and
    the multiset of all activities by the change in that day's activities.
  */
  lemma ReplaceDay(days: seq<TripDay>, i: int, d: TripDay)
    requires 0 <= i < |days|
    ensures CalculateTripTotal(days[i := d])
         == CalculateTripTotal(days) - CalculateDayTotal(days[i].activities) + CalculateDayTotal(d.activities)
    ensures multiset(AllActivities(days[i := d])) + multiset(days[i].activities)
         == multiset(AllActivities(days)) + multiset(d.activities)
  {
    var front, back := days[..i], days[i + 1..];
    assert days == front + [days[i]] + back;
    assert days[i := d] == front + [d] + back;
    TripTotalAppend(front + [days[i]], back);
    TripTotalAppend(front, [days[i]]);
    TripTotalAppend(front + [d], back);
    TripTotalAppend(front, [d]);
    AllActivitiesAppend(front + [days[i]], back);
    AllActivitiesAppend(front, [days[i]]);
    AllActivitiesAppend(front + [d], back);
    AllActivitiesAppend(front, [d]);
    assert AllActivities([d]) == d.activities by { assert [d][..0] == []; }
    assert AllActivities([days[i]]) == days[i].activities by { assert [days[i]][..0] == []; }
  }

  /** The identifier `createEmptyDay` mints: "day-<dayNumber>-<Date.now()>". */
  function DayId(dayNumber: nat, now: nat): string
  {
    "day-" + NatToString(dayNumber) + "-" + NatToString(now)
  }

  /** `createEmptyDay(dayNumber)`: a day with the given number and no activities. */
  function CreateEmptyDay(dayNumber: nat, now: nat): (d: TripDay)
    ensures d.dayNumber == dayNumber && d.activities == []
    ensures d.id == DayId(dayNumber, now)
  {
    TripDay(DayId(dayNumber, now), dayNumber, [])
  }

  /**
    The number of calendar days the span from `startDate` to `endDate` covers,
    both ends included: `Math.floor((end - start) / DayMs) + 1`. (Dafny's `/` by a
    positive divisor rounds down, as `Math.floor` does.)
  */
  function SpanDays(startDate: int, endDate: int): (r: int)
    ensures startDate <= endDate ==> r >= 1
    ensures endDate < startDate ==> r <= 0
  {
    (endDate - startDate) / DayMs + 1
  }

  /** A span of `k` whole days after the start covers `k + 1` days. */
  lemma SpanOfWholeDays(startDate: int, k: int)
    ensures SpanDays(startDate, startDate + k * DayMs) == k + 1
  {
    assert (k * DayMs) / DayMs == k;
  }

  /** One more day at the end of a span covers one more day. */
  lemma SpanOneDayLonger(startDate: int, endDate: int)
    ensures SpanDays(startDate, endDate + DayMs) == SpanDays(startDate, endDate) + 1
  {
    assert (endDate - startDate + DayMs) / DayMs == (endDate - startDate) / DayMs + 1;
  }

  /**
    `createEmptyTrip(daysCount = 3)`: `daysCount` empty days numbered from 1 (none
    when `daysCount` is not positive, as `Array.from({length: daysCount})` gives),
    ending `daysCount - 1` days after it starts, with total 0, no locations,
    unpublished, and the fixed title and creator.
  */
  function CreateEmptyTrip(now: nat, daysCount: int := 3): (t: Trip)
    ensures |t.days| == (if daysCount < 0 then 0 else daysCount)
    ensures forall i :: 0 <= i < |t.days| ==> t.days[i].dayNumber == i + 1 && t.days[i].activities == []
    ensures t.totalPrice == 0 == CalculateTripTotal(t.days)
    ensures t.endDate == t.startDate + (daysCount - 1) * DayMs
    ensures daysCount >= 0 ==> SpanDays(t.startDate, t.endDate) == |t.days|
    ensures t.locations == [] && !t.isPublished
    ensures t.title == "Your Trip Title" && t.creatorId == "user-123"
    ensures t.startDate == t.createdAt == t.updatedAt == now
  {
    var count := if daysCount < 0 then 0 else daysCount;
    var days := seq(count, i requires 0 <= i < count => CreateEmptyDay(i + 1, now));
    SpanOfWholeDays(now, daysCount - 1);
    Trip(
      id := "trip-" + NatToString(now),
      title := "Your Trip Title",
      description := None,
      startDate := now,
      endDate := now + (daysCount - 1) * DayMs,
      days := days,
      totalPrice := 0,
      locations := [],
      creatorId := "user-123",
      isPublished := false,
      createdAt := now,
      updatedAt := now)
  }
}
