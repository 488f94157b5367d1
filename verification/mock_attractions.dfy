/**
  The attraction catalog: a fixed list of twelve activities, grouped by category,
  looked up by region, and searched by text.
*/
module Attractions {
  import opened Wrappers
  import opened JsArray
  import opened JsString
  import opened TripModel

  const MockAttractions: seq<Activity> := [
    Activity("attr-1", "Borobudur Temple", Coordinates(-7.6079, 110.2038),
      "Jl. Badrawati, Kw. Candi Borobudur, Magelang, Central Java", 350000, 180, Culture,
      "The world's largest Buddhist temple and one of Indonesia's most significant cultural landmarks.",
      "https://images.unsplash.com/photo-1588668214407-6ea9a6d8c272", false, None, None),
    Activity("attr-2", "Gili Islands Snorkeling", Coordinates(-8.3486, 116.0361),
      "Gili Islands, Lombok, West Nusa Tenggara", 450000, 240, Adventure,
      "Explore vibrant coral reefs and swim with sea turtles in the crystal clear waters around the Gili Islands.",
      "https://images.unsplash.com/photo-1530541930197-ff16ac917f7f", true, None, None),
    Activity("attr-3", "Ubud Monkey Forest", Coordinates(-8.5188, 115.2588),
      "Jl. Monkey Forest, Ubud, Bali", 80000, 120, Adventure,
      "A natural sanctuary and temple complex with more than 700 monkeys and 186 species of plants.",
      "https://images.unsplash.com/photo-1555454762-22f6fc247a25", true, None, None),
    Activity("attr-4", "Pasar Baru Food Tour", Coordinates(-6.1687, 106.8316),
      "Pasar Baru, Central Jakarta", 250000, 180, Food,
      "Sample authentic Indonesian cuisine at one of Jakarta's oldest and most vibrant markets.",
      "https://images.unsplash.com/photo-1517248135467-4c7edcad34c4", true, None, None),
    Activity("attr-5", "Mount Bromo Sunrise Tour", Coordinates(-7.9425, 112.9530),
      "Bromo Tengger Semeru National Park, East Java", 800000, 300, Adventure,
      "Witness a breathtaking sunrise over the volcanic landscape of Mount Bromo.",
      "https://images.unsplash.com/photo-1518002054494-3a6f94352e9e", false, None, None),
    Activity("attr-6", "Prambanan Temple Complex", Coordinates(-7.7520, 110.4914),
      "Jl. Raya Solo - Yogyakarta No.16, Yogyakarta", 320000, 150, Culture,
      "A 9th-century Hindu temple compound dedicated to the Trimurti: Brahma, Vishnu, and Shiva.",
      "https://images.unsplash.com/photo-1584810359583-96fc3448beaa", false, None, None),
    Activity("attr-7", "Bali Cooking Class", Coordinates(-8.4234, 115.3119),
      "Ubud, Bali", 550000, 240, Food,
      "Learn to prepare authentic Balinese dishes with fresh ingredients from local markets.",
      "https://images.unsplash.com/photo-1507048331197-7d4ac70811cf", true, None, None),
    Activity("attr-8", "Komodo National Park Tour", Coordinates(-8.5500, 119.4883),
      "Komodo Island, East Nusa Tenggara", 1500000, 480, Adventure,
      "See the famous Komodo dragons in their natural habitat and snorkel in pristine waters.",
      "https://images.unsplash.com/photo-1582379825148-f6bc6f111dc1", false, None, None),
    Activity("attr-9", "Jakarta Historical Museum", Coordinates(-6.1347, 106.8135),
      "Jl. Taman Fatahillah No.1, West Jakarta", 100000, 120, Culture,
      "Housed in the old city hall of Batavia, displays artifacts from Jakarta's colonial history.",
      "https://images.unsplash.com/photo-1582555172866-f73bb12a2ab3", true, None, None),
    Activity("attr-10", "Tegallalang Rice Terraces", Coordinates(-8.4312, 115.2776),
      "Tegallalang, Gianyar, Bali", 50000, 120, Culture,
      "Dramatic terraced rice fields offering a timeless example of the Balinese cooperative irrigation system.",
      "https://images.unsplash.com/photo-1525596662741-e94ff9f26de1", true, None, None),
    Activity("attr-11", "Jimbaran Bay Seafood Dinner", Coordinates(-8.7902, 115.1621),
      "Jimbaran Beach, Bali", 350000, 120, Food,
      "Enjoy freshly caught seafood prepared on open grills right on the beach as the sun sets.",
      "https://images.unsplash.com/photo-1485963631004-f2f00b1d6606", true, None, None),
    Activity("attr-12", "Tanjung Puting National Park", Coordinates(-2.7639, 111.9500),
      "Central Kalimantan", 1200000, 480, Adventure,
      "Take a klotok boat tour to observe orangutans and other wildlife in their natural habitat.",
      "https://images.unsplash.com/photo-1580917081106-aa1eeda513c1", false, None, None)
  ]

  /** No two entries of `catalog` share an id. */
  predicate DistinctIds(catalog: seq<Activity>)
  {
    forall i, j :: 0 <= i < j < |catalog| ==> catalog[i].id != catalog[j].id
  }

  /** The ids of the mock catalog, in catalog order. */
  const MockIds: seq<string> := ["attr-1", "attr-2", "attr-3", "attr-4", "attr-5", "attr-6",
                                 "attr-7", "attr-8", "attr-9", "attr-10", "attr-11", "attr-12"]

  /** A catalog whose ids, read in order, are pairwise different has distinct ids. */
  lemma DistinctIdsFromTable(catalog: seq<Activity>, ids: seq<string>)
    requires |catalog| == |ids|
    requires forall k :: 0 <= k < |ids| ==> catalog[k].id == ids[k]
    requires forall i, j :: 0 <= i < j < |ids| ==> ids[i] != ids[j]
    ensures DistinctIds(catalog)
  {
  }

  /** The id table lists no id twice. */
  lemma MockIdsDistinct()
    ensures forall i, j :: 0 <= i < j < |MockIds| ==> MockIds[i] != MockIds[j]
  {
  }

  /** The id table is the catalog's ids, in order. */
  lemma MockIdsListed()
    ensures |MockAttractions| == |MockIds|
    ensures forall k :: 0 <= k < |MockIds| ==> MockAttractions[k].id == MockIds[k]
  {
  }

  /** No two entries of the mock catalog share an id. */
  lemma CatalogIdsUnique()
    ensures DistinctIds(MockAttractions)
  {
    MockIdsDistinct();
    MockIdsListed();
    DistinctIdsFromTable(MockAttractions, MockIds);
  }

  /** The category predicate each `attractionsByCategory` group is filtered with. */
  function InCategory(c: Category): Activity -> bool
  {
    (a: Activity) => a.category == c
  }

  /** The entries of `catalog` of category `c`, in catalog order. */
  function CategoryGroup(catalog: seq<Activity>, c: Category): (r: seq<Activity>)
    ensures forall a {:trigger a in r} :: a in r <==> a in catalog && a.category == c
    ensures IsSubsequence(r, catalog)
  {
    Filter(catalog, InCategory(c))
  }

  /** One group per category, each holding exactly the entries of that category. */
  function GroupByCategory(catalog: seq<Activity>): (g: map<Category, seq<Activity>>)
    ensures g.Keys == {Adventure, Food, Culture}
    ensures forall c :: c in g ==> forall a :: a in g[c] <==> a in catalog && a.category == c
  {
    map c | c in {Adventure, Food, Culture} :: CategoryGroup(catalog, c)
  }

  /** `attractionsByCategory`: the mock catalog grouped by category. */
  function AttractionsByCategory(): map<Category, seq<Activity>>
  {
    GroupByCategory(MockAttractions)
  }

  /** The three category groups of any list of activities together hold each of its entries exactly once. */
  lemma {:induction false} CategoriesPartition(xs: seq<Activity>)
    ensures multiset(Filter(xs, InCategory(Adventure))) + multiset(Filter(xs, InCategory(Food)))
          + multiset(Filter(xs, InCategory(Culture))) == multiset(xs)
    decreases |xs|
  {
    if xs != [] {
      CategoriesPartition(xs[1..]);
      assert xs == [xs[0]] + xs[1..];
      assert multiset(xs) == multiset{xs[0]} + multiset(xs[1..]);
    }
  }

  /** The groups partition the catalog: every entry lands in exactly one group, once. */
  lemma GroupsPartition(catalog: seq<Activity>)
    ensures var g := GroupByCategory(catalog);
      multiset(g[Adventure]) + multiset(g[Food]) + multiset(g[Culture]) == multiset(catalog)
  {
    CategoriesPartition(catalog);
  }

  /** The closed region table of `getAttractionsByLocation`. */
  const LocationMap: map<string, seq<string>> := map[
    "Bali" := ["attr-3", "attr-7", "attr-10", "attr-11"],
    "Jakarta" := ["attr-4", "attr-9"],
    "Yogyakarta" := ["attr-1", "attr-6"],
    "Lombok" := ["attr-2"],
    "East Java" := ["attr-5"],
    "Komodo" := ["attr-8"],
    "Kalimantan" := ["attr-12"]
  ]

  function IdListed(ids: seq<string>): Activity -> bool
  {
    (a: Activity) => a.id in ids
  }

  /**
    The catalog entries whose ids a region table lists for `location`, in catalog
    order; nothing for a region the table lacks.
  */
  function AttractionsAt(catalog: seq<Activity>, table: map<string, seq<string>>, location: string)
    : (r: seq<Activity>)
    ensures location !in table ==> r == []
    ensures forall a {:trigger a in r} :: a in r <==> a in catalog && location in table && a.id in table[location]
    ensures IsSubsequence(r, catalog)
  {
    var ids := if location in table then table[location] else [];
    var r := Filter(catalog, IdListed(ids));
    assert r != [] ==> r[0] in r;
    r
  }

  /** `getAttractionsByLocation(location)`: the mock catalog looked up in the region table. */
  function GetAttractionsByLocation(location: string): seq<Activity>
  {
    AttractionsAt(MockAttractions, LocationMap, location)
  }

  /**
    The text test of `searchAttractions`: the lower-cased query occurs in the
    lower-cased name, description, address or category.
  */
  predicate MatchesQuery(a: Activity, query: string)
  {
    var q := Lower(query);
    Includes(Lower(a.name), q) || Includes(Lower(a.description), q)
    || Includes(Lower(a.address), q) || Includes(Lower(CategoryName(a.category)), q)
  }

  function Matching(query: string): Activity -> bool
  {
    (a: Activity) => MatchesQuery(a, query)
  }

  /**
    The filter of `searchAttractions` over a catalog: the entries matching `query`,
    in catalog order.
  */
  function Search(catalog: seq<Activity>, query: string): (r: seq<Activity>)
    ensures forall a {:trigger a in r} :: a in r <==> a in catalog && MatchesQuery(a, query)
    ensures IsSubsequence(r, catalog)
  {
    Filter(catalog, Matching(query))
  }

  /** `searchAttractions(query)`: the mock catalog entries matching `query`, in catalog order. */
  function SearchAttractions(query: string): seq<Activity>
  {
    Search(MockAttractions, query)
  }

  /** The empty query matches the whole catalog. */
  lemma SearchEmptyQuery(catalog: seq<Activity>, query: string)
    requires query == ""
    ensures Search(catalog, query) == catalog
  {
    assert Lower(query) == "";
    FilterKeepsAll(catalog, Matching(query));
  }

  /** The search ignores the case of the query. */
  lemma SearchIgnoresCase(catalog: seq<Activity>, query: string)
    ensures Search(catalog, Lower(query)) == Search(catalog, query)
  {
    LowerIdempotent(query);
    FilterCongruent(catalog, Matching(Lower(query)), Matching(query));
  }
}
