/**
 * The vendor browser: a free-text search and four select filters (city,
 * category, price range, minimum rating) narrow the fixture vendors. Every
 * change re-runs the whole filter.
 */
module VendorList {
  import opened Wrappers
  import opened Seqs
  import opened Text
  import opened Types
  import MockData

  /** The `filters` state: each select stores '' for its "All ..." entry. */
  datatype Filters = Filters(city: string, category: string, priceRange: string, rating: string)

  const NoFilters: Filters := Filters("", "", "", "")

  /** The `filterType` argument of `handleFilterChange`. */
  datatype FilterField = CityFilter | CategoryFilter | PriceRangeFilter | RatingFilter

  /** `{ ...filters, [filterType]: value }`. */
  function WithFilter(f: Filters, field: FilterField, value: string): (r: Filters)
    ensures field == CityFilter ==> r == f.(city := value)
    ensures field == CategoryFilter ==> r == f.(category := value)
    ensures field == PriceRangeFilter ==> r == f.(priceRange := value)
    ensures field == RatingFilter ==> r == f.(rating := value)
  {
    match field
    case CityFilter => f.(city := value)
    case CategoryFilter => f.(category := value)
    case PriceRangeFilter => f.(priceRange := value)
    case RatingFilter => f.(rating := value)
  }

  /** A select value restricts the list unless it is '' or the "All ..." label. */
  predicate IsActive(value: string, allLabel: string) {
    value != "" && value != allLabel
  }

  /** The search: the query occurs, ignoring case, in the name, description, city or some service. */
  predicate MatchesSearch(v: Vendor, query: string) {
    || MatchesIgnoringCase(v.name, query)
    || MatchesIgnoringCase(v.description, query)
    || MatchesIgnoringCase(v.city, query)
    || exists k :: 0 <= k < |v.services| && MatchesIgnoringCase(v.services[k], query)
  }

  /**
   * `parseInt(rating.charAt(0))`: the leading digit as whole stars, or
   * `None` for NaN when the label does not start with a digit.
   */
  function RatingThreshold(ratingLabel: string): (r: Option<nat>)
    ensures r.Some? <==> |ratingLabel| > 0 && IsDigit(ratingLabel[0])
    ensures r.Some? ==> r.value < 10 && DigitChar(r.value) == ratingLabel[0]
  {
    if |ratingLabel| > 0 && IsDigit(ratingLabel[0]) then Some(ratingLabel[0] as int - '0' as int) else None
  }

  /** `vendor.rating >= minRating` in tenths; a comparison with NaN is false. */
  predicate MeetsRating(v: Vendor, ratingLabel: string) {
    match RatingThreshold(ratingLabel)
    case Some(stars) => v.rating10 >= 10 * stars
    case None => false
  }

  function SearchMatcher(query: string): Vendor -> bool {
    v => MatchesSearch(v, query)
  }

  function CityMatcher(city: string): Vendor -> bool {
    (v: Vendor) => v.city == city
  }

  function CategoryMatcher(category: string): Vendor -> bool {
    (v: Vendor) => v.category.Name() == category
  }

  function PriceRangeMatcher(priceRange: string): Vendor -> bool {
    (v: Vendor) => v.priceRange.Name() == priceRange
  }

  function RatingMatcher(ratingLabel: string): Vendor -> bool {
    v => MeetsRating(v, ratingLabel)
  }

  /** Which of the five passes (search, city, category, price range, rating) of `applyFilters` run. */
  function PassRuns(f: Filters, query: string): seq<bool> {
    [ query != "", IsActive(f.city, "All Cities"), IsActive(f.category, "All Categories"),
      IsActive(f.priceRange, "All Prices"), IsActive(f.rating, "All Ratings") ]
  }

  /** The predicates the five passes filter by. */
  function PassTests(f: Filters, query: string): seq<Vendor -> bool> {
    [ SearchMatcher(query), CityMatcher(f.city), CategoryMatcher(f.category),
      PriceRangeMatcher(f.priceRange), RatingMatcher(f.rating) ]
  }

  /** Conjunction of the active predicates of `applyFilters`. */
  predicate Matches(v: Vendor, f: Filters, query: string) {
    && (query != "" ==> MatchesSearch(v, query))
    && (IsActive(f.city, "All Cities") ==> v.city == f.city)
    && (IsActive(f.category, "All Categories") ==> v.category.Name() == f.category)
    && (IsActive(f.priceRange, "All Prices") ==> v.priceRange.Name() == f.priceRange)
    && (IsActive(f.rating, "All Ratings") ==> MeetsRating(v, f.rating))
  }

  function Matcher(f: Filters, query: string): Vendor -> bool {
    v => Matches(v, f, query)
  }

  /** The list `applyFilters` computes: the matching vendors, in fixture order. */
  function Filtered(vendors: seq<Vendor>, f: Filters, query: string): seq<Vendor> {
    Filter(vendors, Matcher(f, query))
  }

  /** Surviving all five passes is matching every active predicate. */
  lemma AllPassesAreMatches(vendors: seq<Vendor>, f: Filters, query: string)
    ensures Filter(vendors, Survivors(PassRuns(f, query), PassTests(f, query), 5)) == Filtered(vendors, f, query)
  {
    var runs, tests := PassRuns(f, query), PassTests(f, query);
    forall k | 0 <= k < |vendors|
      ensures SurvivesPasses(vendors[k], runs, tests, 5) <==> Matches(vendors[k], f, query)
    {
      var v := vendors[k];
      assert SurvivesPasses(v, runs, tests, 1) <==> (query != "" ==> MatchesSearch(v, query));
      assert SurvivesPasses(v, runs, tests, 2) <==>
        SurvivesPasses(v, runs, tests, 1) && (IsActive(f.city, "All Cities") ==> v.city == f.city);
      assert SurvivesPasses(v, runs, tests, 3) <==>
        SurvivesPasses(v, runs, tests, 2) && (IsActive(f.category, "All Categories") ==> v.category.Name() == f.category);
      assert SurvivesPasses(v, runs, tests, 4) <==>
        SurvivesPasses(v, runs, tests, 3) && (IsActive(f.priceRange, "All Prices") ==> v.priceRange.Name() == f.priceRange);
    }
    FilterCongruent(vendors, Survivors(runs, tests, 5), Matcher(f, query));
  }

  /**
   * `applyFilters`: start from the vendors and narrow the list by one pass
   * per active predicate, in the order `applyFilters` applies them: search,
   * city, category, price range, rating.
   */
  method ApplyFilters(vendors: seq<Vendor>, f: Filters, query: string) returns (filtered: seq<Vendor>)
    ensures filtered == Filtered(vendors, f, query)
  {
    var runs, tests := PassRuns(f, query), PassTests(f, query);
    NoPassesKeepAll(vendors, runs, tests);
    filtered := vendors;

    if runs[0] {  // a query was typed
      filtered := Filter(filtered, tests[0]);
    }
    assert filtered == Filter(vendors, Survivors(runs, tests, 1)) by {
      PassStep(vendors, runs, tests, 1);
    }

    if runs[1] {  // a city was chosen
      filtered := Filter(filtered, tests[1]);
    }
    assert filtered == Filter(vendors, Survivors(runs, tests, 2)) by {
      PassStep(vendors, runs, tests, 2);
    }

    if runs[2] {  // a category was chosen
      filtered := Filter(filtered, tests[2]);
    }
    assert filtered == Filter(vendors, Survivors(runs, tests, 3)) by {
      PassStep(vendors, runs, tests, 3);
    }

    if runs[3] {  // a price range was chosen
      filtered := Filter(filtered, tests[3]);
    }
    assert filtered == Filter(vendors, Survivors(runs, tests, 4)) by {
      PassStep(vendors, runs, tests, 4);
    }

    if runs[4] {  // a rating was chosen
      filtered := Filter(filtered, tests[4]);
    }
    assert filtered == Filter(vendors, Survivors(runs, tests, 5)) by {
      PassStep(vendors, runs, tests, 5);
    }
    AllPassesAreMatches(vendors, f, query);
  }

  /** The result is an order-preserving subsequence of the vendors. */
  lemma FilteredIsSubsequence(vendors: seq<Vendor>, f: Filters, query: string)
    ensures IsSubsequence(Filtered(vendors, f, query), vendors)
  {
    FilterIsSubsequence(vendors, Matcher(f, query));
  }

  /** The result holds exactly the vendors that satisfy every active predicate. */
  lemma FilteredMembership(vendors: seq<Vendor>, f: Filters, query: string, v: Vendor)
    ensures v in Filtered(vendors, f, query) <==> v in vendors && Matches(v, f, query)
  {
    FilterMembership(vendors, Matcher(f, query), v);
  }

  /** With an empty query and no filter chosen the whole list is shown. */
  lemma NoFiltersShowAll(vendors: seq<Vendor>)
    ensures Filtered(vendors, NoFilters, "") == vendors
  {
    FilterKeepsAll(vendors, Matcher(NoFilters, ""));
  }

  /**
   * A higher threshold keeps a subsequence of what a lower one keeps, the
   * other filters and the query being equal: "4+ Stars" within "3+ Stars"
   * within "2+ Stars".
   */
  lemma RatingFiltersNest(vendors: seq<Vendor>, f: Filters, query: string, higher: string, lower: string)
    requires IsActive(higher, "All Ratings") && IsActive(lower, "All Ratings")
    requires RatingThreshold(higher).Some? && RatingThreshold(lower).Some?
    requires RatingThreshold(higher).value >= RatingThreshold(lower).value
    ensures IsSubsequence(Filtered(vendors, f.(rating := higher), query), Filtered(vendors, f.(rating := lower), query))
  {
    FilterMonotone(vendors, Matcher(f.(rating := higher), query), Matcher(f.(rating := lower), query));
  }

  /** The three labels of the rating select nest: 4+ within 3+ within 2+. */
  lemma StarLabelsNest(vendors: seq<Vendor>, f: Filters, query: string)
    ensures IsSubsequence(Filtered(vendors, f.(rating := "4+ Stars"), query), Filtered(vendors, f.(rating := "3+ Stars"), query))
    ensures IsSubsequence(Filtered(vendors, f.(rating := "3+ Stars"), query), Filtered(vendors, f.(rating := "2+ Stars"), query))
  {
    RatingFiltersNest(vendors, f, query, "4+ Stars", "3+ Stars");
    RatingFiltersNest(vendors, f, query, "3+ Stars", "2+ Stars");
  }

  /** "4+ Stars" keeps all three fixture vendors. */
  lemma FourStarsFixture()
    ensures Filtered(MockData.MockVendors, NoFilters.(rating := "4+ Stars"), "") == MockData.MockVendors
  {
    var f := NoFilters.(rating := "4+ Stars");
    assert RatingThreshold(f.rating) == Some(4);
    FilterKeepsAll(MockData.MockVendors, Matcher(f, ""));
  }

  /** Category "venue" keeps only Majestic Venues (vendor "2"). */
  lemma VenueFixture()
    ensures Filtered(MockData.MockVendors, NoFilters.(category := "venue"), "") == [MockData.MajesticVenues]
  {
    var p := Matcher(NoFilters.(category := "venue"), "");
    assert !p(MockData.RoyalCaterers);
    assert p(MockData.MajesticVenues);
    assert !p(MockData.PixelPerfect);
    assert Filter(MockData.MockVendors[2..], p) == [];
    assert Filter(MockData.MockVendors[1..], p) == [MockData.MajesticVenues];
  }

  /**
   * The component's state: the fixed vendor list, the current filters and
   * query, and the list on screen, which is always the filter of the
   * vendors by the current filters and query.
   */
  class VendorListView {
    const vendors: seq<Vendor>
    var filteredVendors: seq<Vendor>
    var filters: Filters
    var searchQuery: string

    ghost predicate Valid()
      reads this
    {
      filteredVendors == Filtered(vendors, filters, searchQuery)
    }

    constructor ()
      ensures Valid()
      ensures vendors == MockData.MockVendors && filteredVendors == MockData.MockVendors
      ensures filters == NoFilters && searchQuery == ""
    {
      vendors := MockData.MockVendors;
      filteredVendors := MockData.MockVendors;
      filters := NoFilters;
      searchQuery := "";
      NoFiltersShowAll(MockData.MockVendors);
    }

    /** `handleFilterChange`: store the new filter value and re-filter. */
    method HandleFilterChange(field: FilterField, value: string)
      modifies this
      ensures filters == WithFilter(old(filters), field, value)
      ensures searchQuery == old(searchQuery)
      ensures Valid()
    {
      var newFilters := WithFilter(filters, field, value);
      filters := newFilters;
      filteredVendors := ApplyFilters(vendors, newFilters, searchQuery);
    }

    /** `handleSearch`: store the query and re-filter. */
    method HandleSearch(query: string)
      modifies this
      ensures searchQuery == query && filters == old(filters)
      ensures Valid()
    {
      searchQuery := query;
      filteredVendors := ApplyFilters(vendors, filters, query);
    }
  }
}
