/**
  The attraction library view of the trip-builder store: the catalog narrowed by the
  active search query, category filter and location filter.

  The store recomputes `filteredAttractions` in three actions, each composing the
  three filters in its own order; `LibraryView` is the one list all three produce.
*/
module StoreLibrary {
  import opened Wrappers
  import opened JsArray
  import opened JsString
  import opened TripModel
  import opened Attractions

  /** A `string | null` filter is active when JavaScript reads it as true: a non-empty string. */
  predicate IsActive(filter: Option<string>)
  {
    filter.Some? && filter.value != ""
  }

  /** The category filter: an exact match of the category string. */
  predicate MatchesCategory(a: Activity, category: Option<string>)
  {
    !IsActive(category) || CategoryName(a.category) == category.value
  }

  /** The location filter: the trimmed term occurs in the address, ignoring case. */
  predicate MatchesLocation(a: Activity, location: Option<string>)
  {
    !IsActive(location) || Includes(Lower(a.address), Lower(Trim(location.value)))
  }

  function CategoryIs(name: string): Activity -> bool
  {
    (a: Activity) => CategoryName(a.category) == name
  }

  function AddressIncludes(term: string): Activity -> bool
  {
    (a: Activity) => Includes(Lower(a.address), Lower(term))
  }

  function InView(query: string, category: Option<string>, location: Option<string>): Activity -> bool
  {
    (a: Activity) => MatchesQuery(a, query) && MatchesCategory(a, category) && MatchesLocation(a, location)
  }

  /**
    The entries of `catalog` that match the query, the category filter and the
    location filter, in catalog order.
  */
  function LibraryView(catalog: seq<Activity>, query: string, category: Option<string>, location: Option<string>)
    : (r: seq<Activity>)
    ensures forall a {:trigger a in r} :: a in r <==>
      a in catalog && MatchesQuery(a, query) && MatchesCategory(a, category) && MatchesLocation(a, location)
    ensures IsSubsequence(r, catalog)
  {
    Filter(catalog, InView(query, category, location))
  }

  /** With no query and no active filter the view is the whole catalog (the store's initial state). */
  lemma UnfilteredViewIsCatalog(catalog: seq<Activity>, query: string, category: Option<string>, location: Option<string>)
    requires query == "" && !IsActive(category) && !IsActive(location)
    ensures LibraryView(catalog, query, category, location) == catalog
  {
    assert Lower(query) == "";
    FilterKeepsAll(catalog, InView(query, category, location));
  }

  /** `list.some(f => f.id === id)`. */
  function HasId(list: seq<Activity>, id: string): (r: bool)
    ensures r <==> exists f :: f in list && f.id == id
  {
    if list == [] then false else list[0].id == id || HasId(list[1..], id)
  }

  function IdAmong(list: seq<Activity>): Activity -> bool
  {
    (a: Activity) => HasId(list, a.id)
  }

  /** In a catalog with distinct ids, two entries with the same id are the same entry. */
  lemma IdDetermines(catalog: seq<Activity>, a: Activity, b: Activity)
    requires DistinctIds(catalog)
    requires a in catalog && b in catalog && a.id == b.id
    ensures a == b
  {
    var i :| 0 <= i < |catalog| && catalog[i] == a;
    var j :| 0 <= j < |catalog| && catalog[j] == b;
    assert !(i < j) && !(j < i);
  }

  /**
    Intersecting the search results with a filtered catalog by id (the last step of
    `filterByCategory` and `filterByLocation`) filters the catalog by both tests,
    provided the catalog's ids are distinct.
  */
  lemma SearchWithinFiltered(catalog: seq<Activity>, query: string, filtered: seq<Activity>, p: Activity -> bool)
    requires DistinctIds(catalog)
    requires filtered == Filter(catalog, p)
    ensures Filter(Search(catalog, query), IdAmong(filtered))
         == Filter(catalog, (a: Activity) => MatchesQuery(a, query) && p(a))
  {
    forall a | a in catalog ensures IdAmong(filtered)(a) == p(a) {
      if HasId(filtered, a.id) {
        var f :| f in filtered && f.id == a.id;
        IdDetermines(catalog, f, a);
      }
    }
    var both := (a: Activity) => Matching(query)(a) && IdAmong(filtered)(a);
    FilterOfFilter(catalog, Matching(query), IdAmong(filtered), both);
    FilterCongruent(catalog, both, (a: Activity) => MatchesQuery(a, query) && p(a));
  }

  /** A filter as the view reads it: its value when active, `None` otherwise. */
  function Effective(filter: Option<string>): (r: Option<string>)
    ensures IsActive(r) == IsActive(filter)
    ensures r == None || r == filter
  {
    if IsActive(filter) then filter else None
  }

  /** Only the effective value of each filter decides the view. */
  lemma ViewOfEffective(catalog: seq<Activity>, query: string, category: Option<string>, location: Option<string>)
    ensures LibraryView(catalog, query, Effective(category), Effective(location))
         == LibraryView(catalog, query, category, location)
  {
    FilterCongruent(catalog, InView(query, Effective(category), Effective(location)), InView(query, category, location));
  }

  /** The search results are the view with neither a category nor a location filter. */
  lemma SearchIsView(catalog: seq<Activity>, query: string)
    ensures Search(catalog, query) == LibraryView(catalog, query, None, None)
  {
    FilterCongruent(catalog, Matching(query), InView(query, None, None));
  }

  /** Narrowing a view without a category filter by the test of category `name` sets that filter. */
  lemma NarrowByCategory(catalog: seq<Activity>, query: string, location: Option<string>, name: string)
    requires name != ""
    ensures Filter(LibraryView(catalog, query, None, location), CategoryIs(name))
         == LibraryView(catalog, query, Some(name), location)
  {
    var both := (a: Activity) => InView(query, None, location)(a) && CategoryIs(name)(a);
    FilterOfFilter(catalog, InView(query, None, location), CategoryIs(name), both);
    FilterCongruent(catalog, both, InView(query, Some(name), location));
  }

  /** Narrowing a view without a location filter by the trimmed `term` sets that filter. */
  lemma NarrowByLocation(catalog: seq<Activity>, query: string, category: Option<string>, term: string)
    requires term != ""
    ensures Filter(LibraryView(catalog, query, category, None), AddressIncludes(Trim(term)))
         == LibraryView(catalog, query, category, Some(term))
  {
    var both := (a: Activity) => InView(query, category, None)(a) && AddressIncludes(Trim(term))(a);
    FilterOfFilter(catalog, InView(query, category, None), AddressIncludes(Trim(term)), both);
    FilterCongruent(catalog, both, InView(query, category, Some(term)));
  }

  /**
    Keeping the search results whose id occurs in the unsearched view gives the
    searched view, provided the catalog's ids are distinct.
  */
  lemma SearchWithinView(catalog: seq<Activity>, query: string, category: Option<string>, location: Option<string>,
                         filtered: seq<Activity>)
    requires DistinctIds(catalog)
    requires filtered == LibraryView(catalog, "", category, location)
    ensures Filter(Search(catalog, query), IdAmong(filtered)) == LibraryView(catalog, query, category, location)
  {
    var p := (a: Activity) => MatchesCategory(a, category) && MatchesLocation(a, location);
    assert Lower("") == "";
    FilterCongruent(catalog, InView("", category, location), p);
    SearchWithinFiltered(catalog, query, filtered, p);
    FilterCongruent(catalog, (a: Activity) => MatchesQuery(a, query) && p(a), InView(query, category, location));
  }

  // ----- The three recomputations of the store -----

  /**
    `searchLibrary`'s list: the search results (the catalog for an empty query), then
    the category filter, then the location filter.
  */
  method SearchLibraryView(catalog: seq<Activity>, query: string, category: Option<string>,
                           location: Option<string>) returns (r: seq<Activity>)
    ensures r == LibraryView(catalog, query, category, location)
  {
    r := if query != "" then Search(catalog, query) else catalog;
    SearchIsView(catalog, query);
    if query == "" {
      SearchEmptyQuery(catalog, query);
    }
    // `r` is the view under the filters applied so far, `applied` and `at`
    ghost var applied: Option<string> := None;
    ghost var at: Option<string> := None;
    if IsActive(category) {
      NarrowByCategory(catalog, query, at, category.value);
      r := Filter(r, CategoryIs(category.value));
      applied := category;
    }
    if IsActive(location) {
      NarrowByLocation(catalog, query, applied, location.value);
      r := Filter(r, AddressIncludes(Trim(location.value)));
      at := location;
    }
    ViewOfEffective(catalog, query, category, location);
  }

  /**
    `filterByCategory`'s list: the catalog narrowed by the category, then by the
    location, then, under an active query, the search results whose id is among them.
  */
  method FilterByCategoryView(catalog: seq<Activity>, query: string, category: Option<string>,
                              location: Option<string>) returns (r: seq<Activity>)
    requires DistinctIds(catalog)
    ensures r == LibraryView(catalog, query, category, location)
  {
    r := catalog;
    UnfilteredViewIsCatalog(catalog, "", None, None);
    // `r` is the unsearched view under the filters applied so far, `applied` and `at`
    ghost var applied: Option<string> := None;
    ghost var at: Option<string> := None;
    if IsActive(category) {
      NarrowByCategory(catalog, "", at, category.value);
      r := Filter(r, CategoryIs(category.value));
      applied := category;
    }
    if IsActive(location) {
      NarrowByLocation(catalog, "", applied, location.value);
      r := Filter(r, AddressIncludes(Trim(location.value)));
      at := location;
    }
    if query != "" {
      SearchWithinView(catalog, query, applied, at, r);
      r := Filter(Search(catalog, query), IdAmong(r));
    }
    ViewOfEffective(catalog, query, category, location);
  }

  /**
    `filterByLocation`'s list: the catalog narrowed by the location, then by the
    category, then, under an active query, the search results whose id is among them.
  */
  method FilterByLocationView(catalog: seq<Activity>, query: string, category: Option<string>,
                              location: Option<string>) returns (r: seq<Activity>)
    requires DistinctIds(catalog)
    ensures r == LibraryView(catalog, query, category, location)
  {
    r := catalog;
    UnfilteredViewIsCatalog(catalog, "", None, None);
    // `r` is the unsearched view under the filters applied so far, `applied` and `at`
    ghost var applied: Option<string> := None;
    ghost var at: Option<string> := None;
    if IsActive(location) {
      NarrowByLocation(catalog, "", applied, location.value);
      r := Filter(r, AddressIncludes(Trim(location.value)));
      at := location;
    }
    if IsActive(category) {
      NarrowByCategory(catalog, "", at, category.value);
      r := Filter(r, CategoryIs(category.value));
      applied := category;
    }
    if query != "" {
      SearchWithinView(catalog, query, applied, at, r);
      r := Filter(Search(catalog, query), IdAmong(r));
    }
    ViewOfEffective(catalog, query, category, location);
  }
}
