/**
 * The search panel (`SearchAndFilter`): a case-insensitive substring search
 * over a fixed list of clause results, narrowed by three multi-select filter
 * lists, and the editing of those lists.
 */
module Search {
  import opened Options
  import opened Lists

  datatype ResultRisk = Low | Medium | High

  /** The string a result's risk level compares as. */
  function RiskName(level: ResultRisk): string {
    match level
    case Low => "low"
    case Medium => "medium"
    case High => "high"
  }

  datatype SearchResult = SearchResult(
    id: string,
    contractName: string,
    clauseTitle: string,
    content: string,
    section: string,
    relevanceScore: int,
    contractType: string,
    riskLevel: ResultRisk)

  datatype DateRange = DateRange(start: string, end: string)

  datatype FilterOptions = FilterOptions(
    contractTypes: seq<string>,
    riskLevels: seq<string>,
    sections: seq<string>,
    dateRange: DateRange)

  /** The keys of `FilterOptions` that `toggleFilter` accepts. */
  datatype Category = ContractTypes | RiskLevels | Sections | DateRangeKey

  const NoFilters := FilterOptions([], [], [], DateRange("", ""))

  // ---------------------------------------------------------------------------
  // Text matching

  /** `toLowerCase` on the ASCII letters; every other character is kept. */
  function LowerChar(c: char): char {
    if 'A' <= c <= 'Z' then (c as int + 32) as char else c
  }

  function Lower(s: string): (r: string)
    ensures |r| == |s|
    ensures forall i :: 0 <= i < |s| ==> r[i] == LowerChar(s[i])
  {
    if s == [] then [] else [LowerChar(s[0])] + Lower(s[1..])
  }

  /** Lower-casing twice is lower-casing once. */
  lemma LowerIdempotent(s: string)
    ensures Lower(Lower(s)) == Lower(s)
  {
    var once := Lower(s);
    assert forall i :: 0 <= i < |s| ==> Lower(once)[i] == once[i];
  }

  /** `needle` occurs in `hay` starting at position `i`. */
  ghost predicate OccursAt(hay: string, needle: string, i: int) {
    0 <= i && i + |needle| <= |hay| && hay[i..i + |needle|] == needle
  }

  /** `hay.includes(needle)`: scan for a position where `needle` is a prefix of the rest. */
  function Includes(hay: string, needle: string): (b: bool)
    ensures b <==> exists i :: OccursAt(hay, needle, i)
    decreases |hay|
  {
    if needle <= hay then
      assert OccursAt(hay, needle, 0);
      true
    else if hay == [] then
      assert forall i :: !OccursAt(hay, needle, i);
      false
    else
      var found := Includes(hay[1..], needle);
      IncludesShift(hay, needle);
      found
  }

  /** An occurrence past the first position is an occurrence in the tail. */
  lemma IncludesShift(hay: string, needle: string)
    requires hay != [] && !(needle <= hay)
    ensures (exists i :: OccursAt(hay, needle, i)) <==> (exists i :: OccursAt(hay[1..], needle, i))
  {
    forall i | OccursAt(hay, needle, i) ensures OccursAt(hay[1..], needle, i - 1) {
      assert i != 0;
      assert hay[1..][i - 1..i - 1 + |needle|] == hay[i..i + |needle|];
    }
    forall i | OccursAt(hay[1..], needle, i) ensures OccursAt(hay, needle, i + 1) {
      assert hay[1..][i..i + |needle|] == hay[i + 1..i + 1 + |needle|];
    }
  }

  /** The empty query occurs in every text. */
  lemma EmptyQueryMatches(hay: string)
    ensures Includes(hay, "")
  {
  }

  /** The characters `String.prototype.trim` strips that can occur in a typed query. */
  predicate IsSpace(c: char) {
    || c == ' ' || c == '\t' || c == '\n' || c == '\r' || c == '\U{000B}' || c == '\U{000C}'
    || c == '\U{00A0}' || c == '\U{FEFF}' || c == '\U{2028}' || c == '\U{2029}'
  }

  /** `!query.trim()`: nothing is left once surrounding white space is stripped. */
  function IsBlank(query: string): (b: bool)
    ensures b <==> forall i :: 0 <= i < |query| ==> IsSpace(query[i])
  {
    if query == [] then true else IsSpace(query[0]) && IsBlank(query[1..])
  }

  /** The query occurs, ignoring ASCII case, in the content, the clause title or the contract name. */
  predicate Matches(result: SearchResult, query: string) {
    var q := Lower(query);
    Includes(Lower(result.content), q) || Includes(Lower(result.clauseTitle), q) || Includes(Lower(result.contractName), q)
  }

  function MatchesQuery(query: string): SearchResult -> bool {
    x => Matches(x, query)
  }

  // ---------------------------------------------------------------------------
  // Filters

  /** A filter list restricts only when it is non-empty. */
  predicate Admits(values: seq<string>, v: string) {
    |values| == 0 || v in values
  }

  /** The three list filters; the date range takes no part. */
  predicate PassesFilters(result: SearchResult, filters: FilterOptions) {
    && Admits(filters.contractTypes, result.contractType)
    && Admits(filters.riskLevels, RiskName(result.riskLevel))
    && Admits(filters.sections, result.section)
  }

  /** The results a search for `query` under `filters` shows, in fixture order. */
  function SearchSpec(fixture: seq<SearchResult>, query: string, filters: FilterOptions): (r: seq<SearchResult>)
    ensures IsSubsequence(r, fixture)
    ensures forall x :: x in r <==> x in fixture && Matches(x, query) && PassesFilters(x, filters)
  {
    Filter(fixture, ShownBy(query, filters))
  }

  function ShownBy(query: string, filters: FilterOptions): SearchResult -> bool {
    x => Matches(x, query) && PassesFilters(x, filters)
  }

  /** The date range never changes what a search shows. */
  lemma DateRangeIgnored(fixture: seq<SearchResult>, query: string, filters: FilterOptions, range: DateRange)
    ensures SearchSpec(fixture, query, filters.(dateRange := range)) == SearchSpec(fixture, query, filters)
  {
    FilterAgree(fixture, ShownBy(query, filters.(dateRange := range)), ShownBy(query, filters));
  }

  /** With no list filter set, a search shows every matching result. */
  lemma NoFiltersShowAllMatches(fixture: seq<SearchResult>, query: string, range: DateRange)
    ensures SearchSpec(fixture, query, NoFilters.(dateRange := range)) == Filter(fixture, MatchesQuery(query))
  {
    FilterAgree(fixture, ShownBy(query, NoFilters.(dateRange := range)), MatchesQuery(query));
  }

  /**
   * `toggleFilter(category, value)`: on a list category, drop every copy of
   * `value` when the list holds it and append it otherwise; `dateRange` is
   * returned unchanged.
   */
  function ToggleFilter(filters: FilterOptions, category: Category, value: string): (r: FilterOptions)
    ensures category == ContractTypes ==>
      r == filters.(contractTypes := ToggleValue(filters.contractTypes, value))
    ensures category == RiskLevels ==>
      r == filters.(riskLevels := ToggleValue(filters.riskLevels, value))
    ensures category == Sections ==>
      r == filters.(sections := ToggleValue(filters.sections, value))
    ensures category == DateRangeKey ==> r == filters
  {
    match category
    case ContractTypes => filters.(contractTypes := ToggleValue(filters.contractTypes, value))
    case RiskLevels => filters.(riskLevels := ToggleValue(filters.riskLevels, value))
    case Sections => filters.(sections := ToggleValue(filters.sections, value))
    case DateRangeKey => filters
  }

  /** The list edit of `toggleFilter`: afterwards `value` is selected exactly when it was not. */
  function ToggleValue(values: seq<string>, value: string): (r: seq<string>)
    ensures value in r <==> value !in values
    ensures forall v :: v != value ==> (v in r <==> v in values)
    ensures value !in values ==> r == values + [value]
    ensures value in values ==> r == RemoveAll(values, value)
    ensures value in values ==> |r| + Occurrences(values, value) == |values|
  {
    if value in values then RemoveAll(values, value) else values + [value]
  }

  /** Toggling a value that was not selected, twice, restores the list. */
  lemma ToggleAbsentTwice(values: seq<string>, value: string)
    requires value !in values
    ensures ToggleValue(ToggleValue(values, value), value) == values
  {
    RemoveAppended(values, value);
  }

  /**
   * `getActiveFilterCount`: the selected values of the three lists, plus one
   * when either end of the date range is set.
   */
  function ActiveFilterCount(filters: FilterOptions): (n: nat)
    ensures n == 0 <==> filters.contractTypes == [] && filters.riskLevels == [] && filters.sections == []
                        && filters.dateRange == DateRange("", "")
  {
    |filters.contractTypes| + |filters.riskLevels| + |filters.sections|
      + (if filters.dateRange.start != "" || filters.dateRange.end != "" then 1 else 0)
  }

  /** Selecting a new value raises the count by one; deselecting lowers it by the copies removed. */
  lemma ToggleChangesCount(filters: FilterOptions, category: Category, value: string)
    requires category != DateRangeKey
    ensures var values := match category
        case ContractTypes => filters.contractTypes
        case RiskLevels => filters.riskLevels
        case _ => filters.sections;
      var after := ActiveFilterCount(ToggleFilter(filters, category, value));
      && (value !in values ==> after == ActiveFilterCount(filters) + 1)
      && (value in values ==> after + Occurrences(values, value) == ActiveFilterCount(filters))
  {
  }

  // ---------------------------------------------------------------------------
  // The component's state

  /** What the search timer's callback captured when `handleSearch` ran. */
  datatype PendingSearch = PendingSearch(query: string, filters: FilterOptions)

  /**
   * The body of the search timer's callback: match the fixture against the
   * query, then narrow by each non-empty filter list in turn.
   */
  method RunSearch(fixture: seq<SearchResult>, query: string, filters: FilterOptions) returns (results: seq<SearchResult>)
    ensures results == SearchSpec(fixture, query, filters)
  {
    var matches := MatchesQuery(query);
    var byType := (x: SearchResult) => Admits(filters.contractTypes, x.contractType);
    var byRisk := (x: SearchResult) => Admits(filters.riskLevels, RiskName(x.riskLevel));
    var bySection := (x: SearchResult) => Admits(filters.sections, x.section);
    var upToType := (x: SearchResult) => matches(x) && byType(x);
    var upToRisk := (x: SearchResult) => upToType(x) && byRisk(x);
    var all := ShownBy(query, filters);

    results := Filter(fixture, matches);
    if |filters.contractTypes| > 0 {
      FilterFilter(fixture, matches, byType, upToType);
      results := Filter(results, byType);
    } else {
      FilterAgree(fixture, matches, upToType);
    }
    if |filters.riskLevels| > 0 {
      FilterFilter(fixture, upToType, byRisk, upToRisk);
      results := Filter(results, byRisk);
    } else {
      FilterAgree(fixture, upToType, upToRisk);
    }
    if |filters.sections| > 0 {
      FilterFilter(fixture, upToRisk, bySection, all);
      results := Filter(results, bySection);
    } else {
      FilterAgree(fixture, upToRisk, all);
    }
  }

  class SearchPanel {
    var searchQuery: string
    var searchResults: seq<SearchResult>
    var isSearching: bool
    var activeFilters: FilterOptions

    constructor()
      ensures searchQuery == "" && searchResults == [] && !isSearching && activeFilters == NoFilters
    {
      searchQuery := "";
      searchResults := [];
      isSearching := false;
      activeFilters := NoFilters;
    }

    /** The search box's `onChange`. */
    method SetQuery(query: string)
      modifies this
      ensures searchQuery == query
      ensures searchResults == old(searchResults) && isSearching == old(isSearching) && activeFilters == old(activeFilters)
    {
      searchQuery := query;
    }

    /**
     * `handleSearch`: a blank query does nothing; otherwise mark the panel as
     * searching and start the timer, whose callback sees the query and
     * filters of this moment.
     */
    method HandleSearch() returns (pending: Option<PendingSearch>)
      modifies this
      ensures IsBlank(old(searchQuery)) ==> pending == None && isSearching == old(isSearching)
      ensures !IsBlank(old(searchQuery)) ==>
        pending == Some(PendingSearch(old(searchQuery), old(activeFilters))) && isSearching
      ensures searchQuery == old(searchQuery) && searchResults == old(searchResults)
      ensures activeFilters == old(activeFilters)
    {
      if IsBlank(searchQuery) {
        return None;
      }
      isSearching := true;
      pending := Some(PendingSearch(searchQuery, activeFilters));
    }

    /** The timer callback: compute the results for what was captured, show them, stop searching. */
    method SearchTimerFired(fixture: seq<SearchResult>, pending: PendingSearch)
      modifies this
      ensures searchResults == SearchSpec(fixture, pending.query, pending.filters)
      ensures !isSearching
      ensures searchQuery == old(searchQuery) && activeFilters == old(activeFilters)
    {
      var results := RunSearch(fixture, pending.query, pending.filters);
      searchResults := results;
      isSearching := false;
    }

    /** `toggleFilter`. */
    method ToggleFilterOf(category: Category, value: string)
      modifies this
      ensures activeFilters == ToggleFilter(old(activeFilters), category, value)
      ensures searchQuery == old(searchQuery) && searchResults == old(searchResults) && isSearching == old(isSearching)
    {
      activeFilters := ToggleFilter(activeFilters, category, value);
    }

    /** `clearAllFilters`: every list empty and no date bound, so nothing counts as active. */
    method ClearAllFilters()
      modifies this
      ensures activeFilters == NoFilters
      ensures ActiveFilterCount(activeFilters) == 0
      ensures searchQuery == old(searchQuery) && searchResults == old(searchResults) && isSearching == old(isSearching)
    {
      activeFilters := NoFilters;
    }
  }
}
