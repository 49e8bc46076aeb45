/** The countries-search screen: a self-contained state machine over its own filter fields
    and pagination configuration. Every user intent resets or moves the page and starts a
    load; the load completes with a fixed five-row result whatever the filters say. */
module CountriesSearch {
  import opened Wrappers
  import P = PaginationComponent

  /** One result row. Its field values never influence the screen's logic. */
  datatype SearchRow = SearchRow(continentName: string, regionName: string, countryName: string,
                                 year: int, population: real, gdp: real)

  /** The request object a load builds: falsy filter fields are dropped. */
  datatype SearchRequest = SearchRequest(region: Option<string>, yearFrom: Option<int>,
                                         yearTo: Option<int>, page: int, size: int)

  datatype SearchState = SearchState(
    selectedRegion: string,
    yearFrom: Option<int>,
    yearTo: Option<int>,
    regions: seq<string>,
    data: seq<SearchRow>,
    loading: bool,
    error: Option<string>,
    config: P.PaginationConfig)

  const InitialConfig := P.PaginationConfig(0, 0, 0, 10, Some(true), Some(true), Some(5))

  const InitialSearchState := SearchState("", None, None, [], [], false, None, InitialConfig)

  /** The fixed region list offered by the dropdown. */
  const Regions: seq<string> := ["North America", "South America", "Europe", "Asia", "Africa", "Oceania"]

  /** The number of rows every load completes with. */
  const MockRowCount := 5

  /** `Math.ceil(a / b)` for a non-zero divisor, as a JavaScript number would round it. */
  function CeilDiv(a: int, b: int): (q: int)
    requires b != 0
    ensures b > 0 ==> (q - 1) * b < a <= q * b
    ensures b < 0 ==> q * b <= a < (q - 1) * b
  {
    if b > 0 then
      var f := (-a) / b;
      assert -a == f * b + (-a) % b;
      assert (-f - 1) * b == -(f * b) - b;
      -f
    else
      var f := a / (-b);
      assert a == f * (-b) + a % (-b);
      assert (-f - 1) * b == f * (-b) - b;
      -f
  }

  function LoadRegions(s: SearchState): (r: SearchState)
    ensures r.regions == Regions
    ensures r == s.(regions := Regions)
  {
    s.(regions := Regions)
  }

  /** A falsy string (only the empty one) is dropped. */
  function StringField(value: string): (r: Option<string>)
    ensures r.None? <==> value == ""
    ensures r.Some? ==> r.value == value
  {
    if value != "" then Some(value) else None
  }

  /** A falsy number field (null or zero) is dropped. */
  function NumberField(value: Option<int>): (r: Option<int>)
    ensures r.None? <==> value.None? || value.value == 0
    ensures r.Some? ==> r == value
  {
    if value.Some? && value.value != 0 then value else None
  }

  /** Starting a load: the screen shows a spinner and no error, and the request carries the
      non-empty filters and the configured page and size. */
  function LoadCountriesData(s: SearchState): (r: (SearchState, SearchRequest))
    ensures r.0 == s.(loading := true, error := None)
    ensures r.1.page == s.config.currentPage && r.1.size == s.config.pageSize
    ensures r.1.region.None? <==> s.selectedRegion == ""
    ensures r.1.yearFrom.None? <==> s.yearFrom.None? || s.yearFrom == Some(0)
    ensures r.1.yearTo.None? <==> s.yearTo.None? || s.yearTo == Some(0)
    ensures r.1.region.Some? ==> r.1.region.value == s.selectedRegion
    ensures r.1.yearFrom.Some? ==> r.1.yearFrom == s.yearFrom
    ensures r.1.yearTo.Some? ==> r.1.yearTo == s.yearTo
  {
    (s.(loading := true, error := None),
     SearchRequest(StringField(s.selectedRegion), NumberField(s.yearFrom), NumberField(s.yearTo),
                   s.config.currentPage, s.config.pageSize))
  }

  function OnInit(s: SearchState): (r: (SearchState, SearchRequest))
    ensures r.0.regions == Regions && r.0.loading
    ensures r.1 == LoadCountriesData(s).1
  {
    LoadCountriesData(LoadRegions(s))
  }

  /** The form bindings: what the user has typed or picked, not yet applied. */
  function EditFilters(s: SearchState, region: string, yearFrom: Option<int>, yearTo: Option<int>): (r: SearchState)
    ensures r.config == s.config && r.loading == s.loading && r.data == s.data
    ensures r.selectedRegion == region && r.yearFrom == yearFrom && r.yearTo == yearTo
  {
    s.(selectedRegion := region, yearFrom := yearFrom, yearTo := yearTo)
  }

  function ApplyFilters(s: SearchState): (r: (SearchState, SearchRequest))
    ensures r.0.config == s.config.(currentPage := 0)
    ensures r.0.selectedRegion == s.selectedRegion && r.0.yearFrom == s.yearFrom && r.0.yearTo == s.yearTo
    ensures r.0.loading && r.0.error == None
    ensures r.1.page == 0 && r.1.size == s.config.pageSize
  {
    LoadCountriesData(s.(config := s.config.(currentPage := 0)))
  }

  function ClearFilters(s: SearchState): (r: (SearchState, SearchRequest))
    ensures r.0.selectedRegion == "" && r.0.yearFrom == None && r.0.yearTo == None
    ensures r.0.config == s.config.(currentPage := 0)
    ensures r.0.loading && r.0.error == None
    ensures r.1 == SearchRequest(None, None, None, 0, s.config.pageSize)
  {
    LoadCountriesData(s.(selectedRegion := "", yearFrom := None, yearTo := None,
                         config := s.config.(currentPage := 0)))
  }

  /** The requested page is taken as given; the pagination control is what keeps it in range. */
  function OnPageChange(s: SearchState, page: int): (r: (SearchState, SearchRequest))
    ensures r.0.config == s.config.(currentPage := page)
    ensures r.0.selectedRegion == s.selectedRegion && r.0.yearFrom == s.yearFrom && r.0.yearTo == s.yearTo
    ensures r.0.loading && r.0.error == None
    ensures r.1.page == page && r.1.size == s.config.pageSize
  {
    LoadCountriesData(s.(config := s.config.(currentPage := page)))
  }

  function OnPageSizeChange(s: SearchState, pageSize: int): (r: (SearchState, SearchRequest))
    ensures r.0.config == s.config.(pageSize := pageSize, currentPage := 0)
    ensures r.0.selectedRegion == s.selectedRegion && r.0.yearFrom == s.yearFrom && r.0.yearTo == s.yearTo
    ensures r.0.loading && r.0.error == None
    ensures r.1.page == 0 && r.1.size == pageSize
  {
    LoadCountriesData(s.(config := s.config.(pageSize := pageSize, currentPage := 0)))
  }

  /** The load's completion, with the screen's mock rows: the rows replace the data, the totals
      are recomputed for the page size configured when it fires, and the spinner stops.
      A zero page size would make the page count infinite. */
  function Complete(s: SearchState, rows: seq<SearchRow>): (r: SearchState)
    requires s.config.pageSize != 0
    ensures r.data == rows && !r.loading && r.error == s.error
    ensures r.config.totalElements == |rows|
    ensures s.config.pageSize > 0 ==>
      (r.config.totalPages - 1) * s.config.pageSize < |rows| <= r.config.totalPages * s.config.pageSize
    ensures r.config == s.config.(totalPages := r.config.totalPages, totalElements := |rows|)
    ensures r.selectedRegion == s.selectedRegion && r.yearFrom == s.yearFrom && r.yearTo == s.yearTo
  {
    s.(data := rows,
       config := s.config.(totalPages := CeilDiv(|rows|, s.config.pageSize), totalElements := |rows|),
       loading := false)
  }

  /** The rows shown are all the loaded rows: no slicing by page. */
  function PaginatedData(s: SearchState): (rows: seq<SearchRow>)
    ensures rows == s.data
  {
    s.data
  }

  /** With the five mock rows, the page count is the one the configured size implies, one page
      at the default size of ten. */
  lemma MockTotals(s: SearchState, rows: seq<SearchRow>)
    requires |rows| == MockRowCount && s.config.pageSize > 0
    ensures Complete(s, rows).config.totalElements == 5
    ensures Complete(s, rows).config.totalPages == CeilDiv(5, s.config.pageSize)
    ensures s.config.pageSize >= 5 ==> Complete(s, rows).config.totalPages == 1
    ensures s.config.pageSize == 2 ==> Complete(s, rows).config.totalPages == 3
    ensures |PaginatedData(Complete(s, rows))| == 5
  {
  }

  /** The result ignores the request: two loads that differ only in their filters and page
      complete to the same rows and totals. */
  lemma CompletionIgnoresFilters(s: SearchState, t: SearchState, rows: seq<SearchRow>)
    requires s.config.pageSize == t.config.pageSize && s.config.pageSize != 0
    ensures Complete(s, rows).data == Complete(t, rows).data
    ensures Complete(s, rows).config.totalPages == Complete(t, rows).config.totalPages
    ensures Complete(s, rows).config.totalElements == Complete(t, rows).config.totalElements
  {
  }

  // ---------------------------------------------------------------- runs of the screen

  datatype SearchEvent =
    | Init
    | Edit(region: string, from: Option<int>, to: Option<int>)
    | Apply
    | Clear
    | PageChange(page: int)
    | PageSizeChange(pageSize: int)
    | Completed(rows: seq<SearchRow>)

  /** The page sizes the pagination control can emit are positive. */
  predicate ValidEvent(e: SearchEvent) {
    e.PageSizeChange? ==> e.pageSize > 0
  }

  /** Between loads the totals describe the rows for the current page size. */
  predicate Settled(s: SearchState) {
    && s.config.pageSize > 0
    && s.error == None
    && (!s.loading ==> (s.config.totalPages - 1) * s.config.pageSize < s.config.totalElements
                       <= s.config.totalPages * s.config.pageSize)
  }

  function Step(s: SearchState, e: SearchEvent): (r: SearchState)
    requires s.config.pageSize > 0 && ValidEvent(e)
    ensures r.config.pageSize > 0
  {
    match e
    case Init => OnInit(s).0
    case Edit(region, from, to) => EditFilters(s, region, from, to)
    case Apply => ApplyFilters(s).0
    case Clear => ClearFilters(s).0
    case PageChange(page) => OnPageChange(s, page).0
    case PageSizeChange(size) => OnPageSizeChange(s, size).0
    case Completed(rows) => Complete(s, rows)
  }

  function Run(s: SearchState, events: seq<SearchEvent>): (r: SearchState)
    requires s.config.pageSize > 0
    requires forall i :: 0 <= i < |events| ==> ValidEvent(events[i])
    ensures r.config.pageSize > 0
    decreases |events|
  {
    if events == [] then s else Run(Step(s, events[0]), events[1..])
  }

  lemma StepSettled(s: SearchState, e: SearchEvent)
    requires Settled(s) && ValidEvent(e)
    ensures Settled(Step(s, e))
  {
  }

  /** The screen never shows an error, and whenever no load is pending its totals agree with
      its page size, whatever sequence of intents and completions occurs. */
  lemma {:induction false} RunSettled(s: SearchState, events: seq<SearchEvent>)
    requires Settled(s)
    requires forall i :: 0 <= i < |events| ==> ValidEvent(events[i])
    ensures Settled(Run(s, events))
    decreases |events|
  {
    if events != [] {
      StepSettled(s, events[0]);
      RunSettled(Step(s, events[0]), events[1..]);
    }
  }

  lemma InitialSettled()
    ensures Settled(InitialSearchState)
    ensures InitialSearchState.config.maxVisiblePages == Some(5)
  {
  }
}
