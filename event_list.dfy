/**
 * The event browser: a free-text search and three select filters (city,
 * type, price bucket) narrow the fixture events; a date input is stored with
 * the filters but never consulted. Every change re-runs the whole filter.
 */
module EventList {
  import opened Wrappers
  import opened Seqs
  import opened Text
  import opened Types
  import MockData

  /** The `filters` state: each select stores '' for its "All ..." entry. */
  datatype Filters = Filters(city: string, eventType: string, date: string, priceRange: string)

  const NoFilters: Filters := Filters("", "", "", "")

  /** The `filterType` argument of `handleFilterChange`. */
  datatype FilterField = CityFilter | TypeFilter | DateFilter | PriceFilter

  /** `{ ...filters, [filterType]: value }`. */
  function WithFilter(f: Filters, field: FilterField, value: string): (r: Filters)
    ensures field == CityFilter ==> r == f.(city := value)
    ensures field == TypeFilter ==> r == f.(eventType := value)
    ensures field == DateFilter ==> r == f.(date := value)
    ensures field == PriceFilter ==> r == f.(priceRange := value)
  {
    match field
    case CityFilter => f.(city := value)
    case TypeFilter => f.(eventType := value)
    case DateFilter => f.(date := value)
    case PriceFilter => f.(priceRange := value)
  }

  /** A select value restricts the list unless it is '' or the "All ..." label. */
  predicate IsActive(value: string, allLabel: string) {
    value != "" && value != allLabel
  }

  /** The search: the query occurs, ignoring case, in the title, description, city or some tag. */
  predicate MatchesSearch(e: Event, query: string) {
    || MatchesIgnoringCase(e.title, query)
    || MatchesIgnoringCase(e.description, query)
    || MatchesIgnoringCase(e.city, query)
    || exists k :: 0 <= k < |e.tags| && MatchesIgnoringCase(e.tags[k], query)
  }

  /** JavaScript truthiness of `event.price`: present and non-zero. */
  predicate HasPrice(price: Option<int>) {
    price.Some? && price.value != 0
  }

  /** The four price buckets of the price select. */
  datatype PriceBucket = Free | Under1000 | From1000To5000 | Above5000 {
    function Label(): string {
      match this
      case Free => "Free"
      case Under1000 => "Under Rs. 1,000"
      case From1000To5000 => "Rs. 1,000 - 5,000"
      case Above5000 => "Above Rs. 5,000"
    }
  }

  /** The test the price filter applies for one bucket. */
  predicate InBucket(price: Option<int>, b: PriceBucket) {
    match b
    case Free => !HasPrice(price)
    case Under1000 => HasPrice(price) && price.value < 1000
    case From1000To5000 => HasPrice(price) && price.value >= 1000 && price.value <= 5000
    case Above5000 => HasPrice(price) && price.value > 5000
  }

  /** An independent classification of a price into its bucket. */
  function BucketOf(price: Option<int>): PriceBucket {
    if price.None? || price.value == 0 then Free
    else if price.value < 1000 then Under1000
    else if price.value <= 5000 then From1000To5000
    else Above5000
  }

  /** The buckets partition all prices: each price is in exactly the bucket `BucketOf` names. */
  lemma BucketsPartition(price: Option<int>, b: PriceBucket)
    ensures InBucket(price, b) <==> b == BucketOf(price)
  {
  }

  /** The price filter for a selected label; an unknown label keeps every event. */
  predicate MatchesPrice(e: Event, chosen: string) {
    if chosen == Free.Label() then InBucket(e.price, Free)
    else if chosen == Under1000.Label() then InBucket(e.price, Under1000)
    else if chosen == From1000To5000.Label() then InBucket(e.price, From1000To5000)
    else if chosen == Above5000.Label() then InBucket(e.price, Above5000)
    else true
  }

  function SearchMatcher(query: string): Event -> bool {
    e => MatchesSearch(e, query)
  }

  function CityMatcher(city: string): Event -> bool {
    (e: Event) => e.city == city
  }

  function TypeMatcher(eventType: string): Event -> bool {
    (e: Event) => e.eventType.Name() == eventType
  }

  function PriceMatcher(chosen: string): Event -> bool {
    e => MatchesPrice(e, chosen)
  }

  /** Which of the four passes (search, city, type, price) of `applyFilters` run. */
  function PassRuns(f: Filters, query: string): seq<bool> {
    [query != "", IsActive(f.city, "All Cities"), IsActive(f.eventType, "All Types"), IsActive(f.priceRange, "All Prices")]
  }

  /** The predicates the four passes filter by. */
  function PassTests(f: Filters, query: string): seq<Event -> bool> {
    [SearchMatcher(query), CityMatcher(f.city), TypeMatcher(f.eventType), PriceMatcher(f.priceRange)]
  }

  /** Conjunction of the active predicates of `applyFilters`. */
  predicate Matches(e: Event, f: Filters, query: string) {
    && (query != "" ==> MatchesSearch(e, query))
    && (IsActive(f.city, "All Cities") ==> e.city == f.city)
    && (IsActive(f.eventType, "All Types") ==> e.eventType.Name() == f.eventType)
    && (IsActive(f.priceRange, "All Prices") ==> MatchesPrice(e, f.priceRange))
  }

  function Matcher(f: Filters, query: string): Event -> bool {
    e => Matches(e, f, query)
  }

  /** The list `applyFilters` computes: the matching events, in fixture order. */
  function Filtered(events: seq<Event>, f: Filters, query: string): seq<Event> {
    Filter(events, Matcher(f, query))
  }

  /** Surviving all four passes is matching every active predicate. */
  lemma AllPassesAreMatches(events: seq<Event>, f: Filters, query: string)
    ensures Filter(events, Survivors(PassRuns(f, query), PassTests(f, query), 4)) == Filtered(events, f, query)
  {
    var runs, tests := PassRuns(f, query), PassTests(f, query);
    forall k | 0 <= k < |events|
      ensures SurvivesPasses(events[k], runs, tests, 4) <==> Matches(events[k], f, query)
    {
      var e := events[k];
      assert SurvivesPasses(e, runs, tests, 1) <==> (query != "" ==> MatchesSearch(e, query));
      assert SurvivesPasses(e, runs, tests, 2) <==>
        SurvivesPasses(e, runs, tests, 1) && (IsActive(f.city, "All Cities") ==> e.city == f.city);
      assert SurvivesPasses(e, runs, tests, 3) <==>
        SurvivesPasses(e, runs, tests, 2) && (IsActive(f.eventType, "All Types") ==> e.eventType.Name() == f.eventType);
    }
    FilterCongruent(events, Survivors(runs, tests, 4), Matcher(f, query));
  }

  /**
   * `applyFilters`: start from the events and narrow the list by one pass per
   * active predicate, in the order `applyFilters` applies them: search, city,
   * type, price bucket.
   */
  method ApplyFilters(events: seq<Event>, f: Filters, query: string) returns (filtered: seq<Event>)
    ensures filtered == Filtered(events, f, query)
  {
    var runs, tests := PassRuns(f, query), PassTests(f, query);
    NoPassesKeepAll(events, runs, tests);
    filtered := events;

    if runs[0] {  // a query was typed
      filtered := Filter(filtered, tests[0]);
    }
    assert filtered == Filter(events, Survivors(runs, tests, 1)) by {
      PassStep(events, runs, tests, 1);
    }

    if runs[1] {  // a city was chosen
      filtered := Filter(filtered, tests[1]);
    }
    assert filtered == Filter(events, Survivors(runs, tests, 2)) by {
      PassStep(events, runs, tests, 2);
    }

    if runs[2] {  // an event type was chosen
      filtered := Filter(filtered, tests[2]);
    }
    assert filtered == Filter(events, Survivors(runs, tests, 3)) by {
      PassStep(events, runs, tests, 3);
    }

    if runs[3] {  // a price bucket was chosen
      filtered := Filter(filtered, tests[3]);
    }
    assert filtered == Filter(events, Survivors(runs, tests, 4)) by {
      PassStep(events, runs, tests, 4);
    }
    AllPassesAreMatches(events, f, query);
  }

  /** The result is an order-preserving subsequence of the events. */
  lemma FilteredIsSubsequence(events: seq<Event>, f: Filters, query: string)
    ensures IsSubsequence(Filtered(events, f, query), events)
  {
    FilterIsSubsequence(events, Matcher(f, query));
  }

  /** The result holds exactly the events that satisfy every active predicate. */
  lemma FilteredMembership(events: seq<Event>, f: Filters, query: string, e: Event)
    ensures e in Filtered(events, f, query) <==> e in events && Matches(e, f, query)
  {
    FilterMembership(events, Matcher(f, query), e);
  }

  /** With an empty query and no filter chosen the whole list is shown. */
  lemma NoFiltersShowAll(events: seq<Event>)
    ensures Filtered(events, NoFilters, "") == events
  {
    FilterKeepsAll(events, Matcher(NoFilters, ""));
  }

  /** The stored date never changes the result. */
  lemma DateIsIgnored(events: seq<Event>, f: Filters, query: string, date: string)
    ensures Filtered(events, f.(date := date), query) == Filtered(events, f, query)
  {
    FilterCongruent(events, Matcher(f.(date := date), query), Matcher(f, query));
  }

  /** Lahore plus corporate leaves only the technology summit (event "2"). */
  lemma LahoreCorporateFixture()
    ensures Filtered(MockData.MockEvents, Filters("Lahore", "corporate", "", ""), "") == [MockData.SummitEvent]
  {
    var f := Filters("Lahore", "corporate", "", "");
    var p := Matcher(f, "");
    assert !p(MockData.WeddingEvent);
    assert p(MockData.SummitEvent);
    assert !p(MockData.MehndiEvent);
    assert Filter(MockData.MockEvents[2..], p) == [];
    assert Filter(MockData.MockEvents[1..], p) == [MockData.SummitEvent];
  }

  /** Lahore plus "Free" leaves only the mehndi night (event "3"). */
  lemma LahoreFreeFixture()
    ensures Filtered(MockData.MockEvents, Filters("Lahore", "", "", "Free"), "") == [MockData.MehndiEvent]
  {
    var f := Filters("Lahore", "", "", "Free");
    var p := Matcher(f, "");
    assert !p(MockData.WeddingEvent);
    assert !p(MockData.SummitEvent);
    assert p(MockData.MehndiEvent);
    assert Filter(MockData.MockEvents[2..], p) == [MockData.MehndiEvent];
    assert Filter(MockData.MockEvents[1..], p) == [MockData.MehndiEvent];
  }

  /**
   * The component's state: the fixed event list, the current filters and
   * query, and the list on screen, which is always the filter of the events
   * by the current filters and query.
   */
  class EventListView {
    const events: seq<Event>
    var filteredEvents: seq<Event>
    var filters: Filters
    var searchQuery: string

    ghost predicate Valid()
      reads this
    {
      filteredEvents == Filtered(events, filters, searchQuery)
    }

    constructor ()
      ensures Valid()
      ensures events == MockData.MockEvents && filteredEvents == MockData.MockEvents
      ensures filters == NoFilters && searchQuery == ""
    {
      events := MockData.MockEvents;
      filteredEvents := MockData.MockEvents;
      filters := NoFilters;
      searchQuery := "";
      NoFiltersShowAll(MockData.MockEvents);
    }

    /** `handleFilterChange`: store the new filter value and re-filter. */
    method HandleFilterChange(field: FilterField, value: string)
      modifies this
      ensures filters == WithFilter(old(filters), field, value)
      ensures searchQuery == old(searchQuery)
      ensures Valid()
    {
      var newFilters := WithFilter(filters, field, value);
      filters := newFilters;
      filteredEvents := ApplyFilters(events, newFilters, searchQuery);
    }

    /** `handleSearch`: store the query and re-filter. */
    method HandleSearch(query: string)
      modifies this
      ensures searchQuery == query && filters == old(filters)
      ensures Valid()
    {
      searchQuery := query;
      filteredEvents := ApplyFilters(events, filters, query);
    }
  }
}
