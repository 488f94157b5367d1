/**
  The trip-builder store: the trip being edited, the attraction library view and the
  editor's selection and UI flags, changed by one action per method.

  Each action of the store replaces some of its fields; here each method `modifies`
  exactly those fields. `Date.now()` and `new Date()` are the parameter `now`
  (milliseconds), read once per action.
*/
module TripBuilderStore {
  import opened Wrappers
  import opened TripModel
  import opened Attractions
  import opened StoreLibrary
  import opened StoreDays

  /**
    What every action keeps of the trip: the stored total is the cost of the days,
    the days are numbered 1..N and no location is listed twice.
  */
  ghost predicate TripConsistent(t: Trip)
  {
    && t.totalPrice == CalculateTripTotal(t.days)
    && DaysNumbered(t.days)
    && NoDuplicates(t.locations)
  }

  /** An empty day numbered after the last keeps the trip consistent. */
  lemma AddDayKeepsConsistent(trip: Trip, now: nat)
    requires TripConsistent(trip)
    ensures TripConsistent(trip.(days := trip.days + [CreateEmptyDay(|trip.days| + 1, now)],
                                 endDate := trip.endDate + DayMs, updatedAt := now))
  {
    AppendCostsNothing(trip.days, [CreateEmptyDay(|trip.days| + 1, now)]);
  }

  /**
    The trip after `moveActivity`: unchanged when the source day does not hold the
    activity, otherwise with the moved days, their total and the new update time.
  */
  function MovedTrip(trip: Trip, activityId: string, fromDayId: string, toDayId: string, newIndex: int,
                     now: nat): (r: Trip)
    ensures TripConsistent(trip) ==> TripConsistent(r)
    ensures r.locations == trip.locations && |r.days| == |trip.days|
  {
    MovedDaysKeepNumbering(trip.days, activityId, fromDayId, toDayId, newIndex);
    match MovedDays(trip.days, activityId, fromDayId, toDayId, newIndex)
    case None => trip
    case Some(days) => trip.(days := days, totalPrice := CalculateTripTotal(days), updatedAt := now)
  }

  /** `moveActivity`'s pass over the trip, as a value. */
  method MoveInTrip(trip: Trip, activityId: string, fromDayId: string, toDayId: string, newIndex: int, now: nat)
    returns (r: Trip)
    ensures r == MovedTrip(trip, activityId, fromDayId, toDayId, newIndex, now)
  {
    var moved := MoveDays(trip.days, activityId, fromDayId, toDayId, newIndex);
    if moved.None? {
      return trip;
    }
    r := trip.(days := moved.value, totalPrice := CalculateTripTotal(moved.value), updatedAt := now);
  }

  class Store {
    var currentTrip: Trip
    const attractions: seq<Activity>
    var filteredAttractions: seq<Activity>
    var searchQuery: string
    var categoryFilter: Option<string>
    var locationFilter: Option<string>
    var selectedActivity: Option<Activity>
    var selectedDayId: Option<string>
    var isDatePickerVisible: bool
    var isSocialPreviewVisible: bool
    var isLoading: bool

    /**
      What every action keeps: the stored total is the cost of the days, the days
      are numbered 1..N, no location is listed twice, and the library shows the
      catalog narrowed by the current query and filters.
    */
    ghost predicate Valid()
      reads this
    {
      TripConsistent(currentTrip) && LibraryShown()
    }

    /** The library shows the catalog narrowed by the current query and filters. */
    ghost predicate LibraryShown()
      reads this`filteredAttractions, this`searchQuery, this`categoryFilter, this`locationFilter
    {
      && DistinctIds(attractions)
      && filteredAttractions == LibraryView(attractions, searchQuery, categoryFilter, locationFilter)
    }

    /** The store's initial state over a catalog: a fresh three-day trip and the whole catalog. */
    constructor (now: nat, catalog: seq<Activity>)
      requires DistinctIds(catalog)
      ensures Valid()
      ensures currentTrip == CreateEmptyTrip(now)
      ensures attractions == catalog
      ensures filteredAttractions == catalog && searchQuery == ""
      ensures categoryFilter == None && locationFilter == None
      ensures selectedActivity == None && selectedDayId == None
      ensures !isDatePickerVisible && !isSocialPreviewVisible && !isLoading
    {
      currentTrip := CreateEmptyTrip(now);
      attractions := catalog;
      filteredAttractions := catalog;
      searchQuery := "";
      categoryFilter := None;
      locationFilter := None;
      selectedActivity := None;
      selectedDayId := None;
      isDatePickerVisible := false;
      isSocialPreviewVisible := false;
      isLoading := false;
      new;
      UnfilteredViewIsCatalog(attractions, searchQuery, categoryFilter, locationFilter);
    }

    /** `initTrip(daysCount = 3)`: a fresh empty trip replaces the current one. */
    method InitTrip(now: nat, daysCount: int := 3)
      modifies this`currentTrip
      requires Valid()
      ensures Valid()
      ensures currentTrip == CreateEmptyTrip(now, daysCount)
    {
      currentTrip := CreateEmptyTrip(now, daysCount);
    }

    /** `updateTripTitle(title)`. */
    method UpdateTripTitle(title: string, now: nat)
      modifies this`currentTrip
      requires Valid()
      ensures Valid()
      ensures currentTrip == old(currentTrip).(title := title, updatedAt := now)
    {
      currentTrip := currentTrip.(title := title, updatedAt := now);
    }

    /**
      `updateTripDates(startDate, endDate)`: the day list is resized to the number of
      days the span covers, keeping the old days as a prefix, and the total recomputed.
    */
    method UpdateTripDates(startDate: int, endDate: int, now: nat)
      modifies this`currentTrip
      requires Valid()
      ensures Valid()
      ensures var days := ResizeDays(old(currentTrip.days), SpanDays(startDate, endDate), now);
        currentTrip == old(currentTrip).(startDate := startDate, endDate := endDate, days := days,
                                         totalPrice := CalculateTripTotal(days), updatedAt := now)
      ensures startDate <= endDate ==> |currentTrip.days| == SpanDays(startDate, endDate)
    {
      var dayCount := SpanDays(startDate, endDate);
      var newDays := Resize(currentTrip.days, dayCount, now);
      currentTrip := currentTrip.(startDate := startDate, endDate := endDate, days := newDays,
                                  totalPrice := CalculateTripTotal(newDays), updatedAt := now);
    }

    /**
      `addDay()`: one empty day numbered after the last, and the end date one day
      later. The total is not recomputed; the new day costs nothing.
    */
    method AddDay(now: nat)
      modifies this`currentTrip
      requires Valid()
      ensures Valid()
      ensures currentTrip == old(currentTrip).(
        days := old(currentTrip.days) + [CreateEmptyDay(|old(currentTrip.days)| + 1, now)],
        endDate := old(currentTrip.endDate) + DayMs, updatedAt := now)
      ensures SpanDays(currentTrip.startDate, currentTrip.endDate)
           == SpanDays(old(currentTrip.startDate), old(currentTrip.endDate)) + 1
    {
      var newDays := currentTrip.days + [CreateEmptyDay(|currentTrip.days| + 1, now)];
      AddDayKeepsConsistent(currentTrip, now);
      SpanOneDayLonger(currentTrip.startDate, currentTrip.endDate);
      currentTrip := currentTrip.(days := newDays, endDate := currentTrip.endDate + DayMs, updatedAt := now);
    }

    /**
      `removeDay(dayId)`: the days with that id dropped, the rest renumbered from 1, and
      the trip made to end `N - 1` days after it starts.
    */
    method RemoveDay(dayId: string, now: nat)
      modifies this`currentTrip
      requires Valid()
      ensures Valid()
      ensures var days := DropDay(old(currentTrip.days), dayId);
        currentTrip == old(currentTrip).(days := days, endDate := old(currentTrip.startDate) + (|days| - 1) * DayMs,
                                         totalPrice := CalculateTripTotal(days), updatedAt := now)
      ensures |currentTrip.days| > 0 ==> SpanDays(currentTrip.startDate, currentTrip.endDate) == |currentTrip.days|
    {
      var updatedDays := DropDay(currentTrip.days, dayId);
      var newEndDate := currentTrip.startDate + (|updatedDays| - 1) * DayMs;
      SpanOfWholeDays(currentTrip.startDate, |updatedDays| - 1);
      currentTrip := currentTrip.(days := updatedDays, endDate := newEndDate,
                                  totalPrice := CalculateTripTotal(updatedDays), updatedAt := now);
    }

    /**
      `addActivity(activity, dayId)`: the activity appended to the day with that id, the
      total recomputed, and the address's location listed if new.
    */
    method AddActivity(activity: Activity, dayId: string, now: nat)
      modifies this`currentTrip
      requires Valid()
      ensures Valid()
      ensures var days := MapActivitiesOf(old(currentTrip.days), dayId, Appending(activity));
        currentTrip == old(currentTrip).(days := days, totalPrice := CalculateTripTotal(days), updatedAt := now,
                                         locations := AddLocation(old(currentTrip.locations), activity.address))
    {
      var newDays := MapActivitiesOf(currentTrip.days, dayId, Appending(activity));
      var locations := AddLocation(currentTrip.locations, activity.address);
      currentTrip := currentTrip.(days := newDays, totalPrice := CalculateTripTotal(newDays), updatedAt := now,
                                  locations := locations);
    }

    /**
      `removeActivity(activityId, dayId)`: every activity with that id leaves the day,
      and the selection is cleared exactly when the selected activity has that id.
    */
    method RemoveActivity(activityId: string, dayId: string, now: nat)
      modifies this`currentTrip, this`selectedActivity, this`selectedDayId
      requires Valid()
      ensures Valid()
      ensures var days := MapActivitiesOf(old(currentTrip.days), dayId, RemovingId(activityId));
        currentTrip == old(currentTrip).(days := days, totalPrice := CalculateTripTotal(days), updatedAt := now)
      ensures old(selectedActivity).Some? && old(selectedActivity).value.id == activityId
        ==> selectedActivity == None && selectedDayId == None
      ensures !(old(selectedActivity).Some? && old(selectedActivity).value.id == activityId)
        ==> selectedActivity == old(selectedActivity) && selectedDayId == old(selectedDayId)
    {
      var newDays := MapActivitiesOf(currentTrip.days, dayId, RemovingId(activityId));
      currentTrip := currentTrip.(days := newDays, totalPrice := CalculateTripTotal(newDays), updatedAt := now);
      if selectedActivity.Some? && selectedActivity.value.id == activityId {
        selectedActivity := None;
        selectedDayId := None;
      }
    }

    /**
      `updateActivity(activity, dayId)`: the activities with its id in that day are
      replaced by it, and so is the selected activity when it has that id.
    */
    method UpdateActivity(activity: Activity, dayId: string, now: nat)
      modifies this`currentTrip, this`selectedActivity
      requires Valid()
      ensures Valid()
      ensures var days := MapActivitiesOf(old(currentTrip.days), dayId, Replacing(activity));
        currentTrip == old(currentTrip).(days := days, totalPrice := CalculateTripTotal(days), updatedAt := now)
      ensures selectedActivity == if old(selectedActivity).Some? && old(selectedActivity).value.id == activity.id
        then Some(activity) else old(selectedActivity)
    {
      var newDays := MapActivitiesOf(currentTrip.days, dayId, Replacing(activity));
      var updatedSelectedActivity := selectedActivity;
      if selectedActivity.Some? && selectedActivity.value.id == activity.id {
        updatedSelectedActivity := Some(activity);
      }
      currentTrip := currentTrip.(days := newDays, totalPrice := CalculateTripTotal(newDays), updatedAt := now);
      selectedActivity := updatedSelectedActivity;
    }

    /**
      `moveActivity(activityId, fromDayId, toDayId, newIndex)`: one pass over the days
      removes the activity's id from the source day and remembers the activity found
      there; when none was found the store is left as it was, otherwise the activity is
      spliced into the destination day at `newIndex`.
    */
    method MoveActivity(activityId: string, fromDayId: string, toDayId: string, newIndex: int, now: nat)
      modifies this`currentTrip
      requires Valid()
      ensures Valid()
      ensures currentTrip == MovedTrip(old(currentTrip), activityId, fromDayId, toDayId, newIndex, now)
    {
      currentTrip := MoveInTrip(currentTrip, activityId, fromDayId, toDayId, newIndex, now);
    }

    /** `setSelectedActivity(activity, dayId)`. */
    method SetSelectedActivity(activity: Option<Activity>, dayId: Option<string>)
      modifies this`selectedActivity, this`selectedDayId
      requires Valid()
      ensures Valid()
      ensures selectedActivity == activity && selectedDayId == dayId
    {
      selectedActivity := activity;
      selectedDayId := dayId;
    }

    /**
      `searchLibrary(query)`: the search results (the whole catalog for an empty query)
      narrowed by the active category and location filters.
    */
    method SearchLibrary(query: string)
      modifies this`searchQuery, this`filteredAttractions
      requires Valid()
      ensures Valid()
      ensures searchQuery == query
      ensures filteredAttractions == LibraryView(attractions, query, categoryFilter, locationFilter)
    {
      var finalResults := SearchLibraryView(attractions, query, categoryFilter, locationFilter);
      searchQuery := query;
      filteredAttractions := finalResults;
    }

    /**
      `filterByCategory(category)`: the catalog narrowed by the new category and the
      current location filter, then, under an active query, the search results kept
      when their id is among them.
    */
    method FilterByCategory(category: Option<string>)
      modifies this`categoryFilter, this`filteredAttractions
      requires Valid()
      ensures Valid()
      ensures categoryFilter == category
      ensures filteredAttractions == LibraryView(attractions, searchQuery, category, locationFilter)
    {
      var filtered := FilterByCategoryView(attractions, searchQuery, category, locationFilter);
      categoryFilter := category;
      filteredAttractions := filtered;
    }

    /**
      `filterByLocation(location)`: the catalog narrowed by the new location and the
      current category filter, then, under an active query, the search results kept
      when their id is among them.
    */
    method FilterByLocation(location: Option<string>)
      modifies this`locationFilter, this`filteredAttractions
      requires Valid()
      ensures Valid()
      ensures locationFilter == location
      ensures filteredAttractions == LibraryView(attractions, searchQuery, categoryFilter, location)
    {
      var filtered := FilterByLocationView(attractions, searchQuery, categoryFilter, location);
      locationFilter := location;
      filteredAttractions := filtered;
    }

    /** The first step of `publishTrip` and of `saveDraft`: the store is busy. */
    method StartLoading()
      modifies this`isLoading
      requires Valid()
      ensures Valid()
      ensures isLoading
    {
      isLoading := true;
    }

    /** `publishTrip` after its delay: the trip is published and the store idle again. */
    method CompletePublish(now: nat)
      modifies this`isLoading, this`currentTrip
      requires Valid()
      ensures Valid()
      ensures !isLoading
      ensures currentTrip == old(currentTrip).(isPublished := true, updatedAt := now)
    {
      currentTrip := currentTrip.(isPublished := true, updatedAt := now);
      isLoading := false;
    }

    /** `saveDraft` after its delay: only the update time moves, and the store is idle again. */
    method CompleteSaveDraft(now: nat)
      modifies this`isLoading, this`currentTrip
      requires Valid()
      ensures Valid()
      ensures !isLoading
      ensures currentTrip == old(currentTrip).(updatedAt := now)
    {
      currentTrip := currentTrip.(updatedAt := now);
      isLoading := false;
    }

    /** The `catch` branch of `publishTrip` and `saveDraft`: the store is idle again, nothing else changes. */
    method FailLoading()
      modifies this`isLoading
      requires Valid()
      ensures Valid()
      ensures !isLoading
    {
      isLoading := false;
    }

    /** `toggleDatePicker()`. */
    method ToggleDatePicker()
      modifies this`isDatePickerVisible
      requires Valid()
      ensures Valid()
      ensures isDatePickerVisible == !old(isDatePickerVisible)
    {
      isDatePickerVisible := !isDatePickerVisible;
    }

    /** `toggleSocialPreview()`. */
    method ToggleSocialPreview()
      modifies this`isSocialPreviewVisible
      requires Valid()
      ensures Valid()
      ensures isSocialPreviewVisible == !old(isSocialPreviewVisible)
    {
      isSocialPreviewVisible := !isSocialPreviewVisible;
    }

    /**
      `addBackupActivity(mainActivityId, backupActivityId, dayId)`: when the backup id
      names a catalog entry, that entry is appended to the backups of the matching
      activities of the day and of the matching selected activity; otherwise nothing
      changes. The total is not recomputed; backups cost nothing.
    */
    method AddBackupActivity(mainActivityId: string, backupActivityId: string, dayId: string, now: nat)
      modifies this`currentTrip, this`selectedActivity
      requires Valid()
      ensures Valid()
      ensures FindById(attractions, backupActivityId).None?
        ==> currentTrip == old(currentTrip) && selectedActivity == old(selectedActivity)
      ensures FindById(attractions, backupActivityId).Some? ==>
        var backup := FindById(attractions, backupActivityId).value;
        && currentTrip == old(currentTrip).(
             days := MapActivitiesOf(old(currentTrip.days), dayId, AddingBackup(mainActivityId, backup)), updatedAt := now)
        && selectedActivity == if old(selectedActivity).Some? && old(selectedActivity).value.id == mainActivityId
             then Some(WithBackup(old(selectedActivity).value, backup)) else old(selectedActivity)
    {
      var backupActivity := FindById(attractions, backupActivityId);
      if backupActivity.None? {
        return;
      }
      var backup := backupActivity.value;
      var newDays := MapActivitiesOf(currentTrip.days, dayId, AddingBackup(mainActivityId, backup));
      AddingBackupKeepsTotal(currentTrip.days, dayId, mainActivityId, backup);
      var updatedSelectedActivity := selectedActivity;
      if selectedActivity.Some? && selectedActivity.value.id == mainActivityId {
        updatedSelectedActivity := Some(WithBackup(selectedActivity.value, backup));
      }
      currentTrip := currentTrip.(days := newDays, updatedAt := now);
      selectedActivity := updatedSelectedActivity;
    }

    /**
      `removeBackupActivity(mainActivityId, backupActivityId, dayId)`: backups with that
      id leave the matching activities of the day and the matching selected activity,
      where they have a backup list.
    */
    method RemoveBackupActivity(mainActivityId: string, backupActivityId: string, dayId: string, now: nat)
      modifies this`currentTrip, this`selectedActivity
      requires Valid()
      ensures Valid()
      ensures currentTrip == old(currentTrip).(
        days := MapActivitiesOf(old(currentTrip.days), dayId, RemovingBackup(mainActivityId, backupActivityId)),
        updatedAt := now)
      ensures selectedActivity == if old(selectedActivity).Some? && old(selectedActivity).value.id == mainActivityId
        then Some(WithoutBackup(old(selectedActivity).value, backupActivityId)) else old(selectedActivity)
    {
      var newDays := MapActivitiesOf(currentTrip.days, dayId, RemovingBackup(mainActivityId, backupActivityId));
      RemovingBackupKeepsTotal(currentTrip.days, dayId, mainActivityId, backupActivityId);
      var updatedSelectedActivity := selectedActivity;
      if selectedActivity.Some? && selectedActivity.value.id == mainActivityId
         && selectedActivity.value.backupActivities.Some? {
        var s := selectedActivity.value;
        updatedSelectedActivity := Some(s.(backupActivities := Some(RemoveId(s.backupActivities.value, backupActivityId))));
      }
      currentTrip := currentTrip.(days := newDays, updatedAt := now);
      selectedActivity := updatedSelectedActivity;
    }

    /**
      `toggleFlexibleTiming(activityId, dayId)`: flexibility flips on the matching
      activities of the day and on the matching selected activity; an activity that
      becomes flexible loses its start time.
    */
    method ToggleFlexibleTiming(activityId: string, dayId: string, now: nat)
      modifies this`currentTrip, this`selectedActivity
      requires Valid()
      ensures Valid()
      ensures currentTrip == old(currentTrip).(
        days := MapActivitiesOf(old(currentTrip.days), dayId, TogglingFlexible(activityId)), updatedAt := now)
      ensures selectedActivity == if old(selectedActivity).Some? && old(selectedActivity).value.id == activityId
        then Some(ToggledFlexible(old(selectedActivity).value)) else old(selectedActivity)
    {
      var newDays := MapActivitiesOf(currentTrip.days, dayId, TogglingFlexible(activityId));
      TogglingKeepsTotal(currentTrip.days, dayId, activityId);
      var updatedSelectedActivity := selectedActivity;
      if selectedActivity.Some? && selectedActivity.value.id == activityId {
        updatedSelectedActivity := Some(ToggledFlexible(selectedActivity.value));
      }
      currentTrip := currentTrip.(days := newDays, updatedAt := now);
      selectedActivity := updatedSelectedActivity;
    }
  }

  /** `create(...)`: the store as the app builds it, over the mock catalog. */
  method NewStore(now: nat) returns (s: Store)
    ensures fresh(s) && s.Valid()
    ensures s.attractions == MockAttractions && s.filteredAttractions == MockAttractions
    ensures s.currentTrip == CreateEmptyTrip(now)
  {
    CatalogIdsUnique();
    s := new Store(now, MockAttractions);
  }
}
