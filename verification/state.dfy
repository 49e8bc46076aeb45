/** The composite store state: one slice per screen, each a loading flag, an error, the
    loaded rows and (for the paginated ones) pagination metadata and filters. */
module State {
  import opened Wrappers
  import opened CountryModels

  datatype PaginationState = PaginationState(
    currentPage: int,
    pageSize: int,
    totalElements: int,
    totalPages: int)

  datatype CountriesListState = CountriesListState(
    data: seq<CountryDto>,
    loading: bool,
    error: Option<string>,
    pagination: PaginationState,
    filters: ListFilters)

  datatype CountryLanguagesState = CountryLanguagesState(
    data: seq<LanguageDto>,
    loading: bool,
    error: Option<string>,
    selectedCountry: Option<CountryDto>)

  datatype CountryStatsState = CountryStatsState(
    data: seq<CountryStats>,
    loading: bool,
    error: Option<string>,
    pagination: PaginationState)

  datatype ManagementInfoState = ManagementInfoState(
    regions: seq<RegionDto>,
    yearRange: Option<YearRange>,
    loading: bool,
    error: Option<string>)

  datatype CountryStatsOverviewState = CountryStatsOverviewState(
    data: seq<CountryStatsOverviewDto>,
    loading: bool,
    error: Option<string>,
    pagination: PaginationState,
    filters: OverviewFilters)

  datatype CountriesState = CountriesState(
    countriesList: CountriesListState,
    countryLanguages: CountryLanguagesState,
    countryStats: CountryStatsState,
    managementInfo: ManagementInfoState,
    countryStatsOverview: CountryStatsOverviewState)

  /** The pagination every paginated slice starts from: first page, five rows, nothing loaded. */
  const InitialPagination := PaginationState(0, 5, 0, 0)

  const InitialCountriesState := CountriesState(
    CountriesListState([], false, None, InitialPagination, NoListFilters),
    CountryLanguagesState([], false, None, None),
    CountryStatsState([], false, None, InitialPagination),
    ManagementInfoState([], None, false, None),
    CountryStatsOverviewState([], false, None, InitialPagination, NoOverviewFilters))

  /** Pagination metadata that a pagination control can display: a non-negative page index,
      a positive page size and non-negative totals. */
  predicate ValidPagination(p: PaginationState) {
    p.currentPage >= 0 && p.pageSize > 0 && p.totalElements >= 0 && p.totalPages >= 0
  }

  /** The totals agree with the page size: exactly enough pages to hold every element. */
  predicate ConsistentTotals(p: PaginationState) {
    p.pageSize > 0 && (p.totalPages - 1) * p.pageSize < p.totalElements <= p.totalPages * p.pageSize
  }

  predicate WellFormed(s: CountriesState) {
    && ValidPagination(s.countriesList.pagination)
    && ValidPagination(s.countryStats.pagination)
    && ValidPagination(s.countryStatsOverview.pagination)
  }

  /** The phases every slice cycles through: nothing requested yet or nothing pending
      (Idle with no rows), a request in flight, rows loaded, or the last request failed. */
  datatype Phase = Idle | Loading | Loaded | Failed

  function PhaseOf<T>(loading: bool, error: Option<string>, data: seq<T>): (ph: Phase)
    ensures ph == Loading <==> loading
    ensures ph == Failed <==> !loading && error.Some?
    ensures ph == Loaded ==> |data| > 0
  {
    if loading then Loading
    else if error.Some? then Failed
    else if |data| > 0 then Loaded
    else Idle
  }

  /** Which slice an observation or a transition concerns. */
  datatype SliceName = List | Languages | Stats | Management | Overview

  function ListPhase(s: CountriesState): Phase {
    PhaseOf(s.countriesList.loading, s.countriesList.error, s.countriesList.data)
  }

  function LanguagesPhase(s: CountriesState): Phase {
    PhaseOf(s.countryLanguages.loading, s.countryLanguages.error, s.countryLanguages.data)
  }

  function StatsPhase(s: CountriesState): Phase {
    PhaseOf(s.countryStats.loading, s.countryStats.error, s.countryStats.data)
  }

  /** Two states agree on every slice except possibly `except`. */
  predicate AgreeOutside(s: CountriesState, t: CountriesState, except: SliceName) {
    && (except != List ==> s.countriesList == t.countriesList)
    && (except != Languages ==> s.countryLanguages == t.countryLanguages)
    && (except != Stats ==> s.countryStats == t.countryStats)
    && (except != Management ==> s.managementInfo == t.managementInfo)
    && (except != Overview ==> s.countryStatsOverview == t.countryStatsOverview)
  }

  /** Every slice of the initial state is idle and error-free, every paginated slice sits
      on its first page with a positive size, and the initial totals are consistent. */
  lemma InitialStateIdle()
    ensures WellFormed(InitialCountriesState)
    ensures ListPhase(InitialCountriesState) == Idle
    ensures LanguagesPhase(InitialCountriesState) == Idle
    ensures StatsPhase(InitialCountriesState) == Idle
    ensures ConsistentTotals(InitialCountriesState.countriesList.pagination)
    ensures ConsistentTotals(InitialCountriesState.countryStats.pagination)
    ensures ConsistentTotals(InitialCountriesState.countryStatsOverview.pagination)
    ensures InitialCountriesState.countryLanguages.selectedCountry == None
    ensures InitialCountriesState.countriesList.filters == NoListFilters
  {
  }
}
