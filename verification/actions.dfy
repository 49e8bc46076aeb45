/** The action vocabulary of the countries store. Each constructor is one action class; the
    factory functions of the store are exactly these constructors, and `TypeOf` gives the
    `type` string every action carries. */
module Actions {
  import opened Wrappers
  import opened CountryModels

  const LOAD_COUNTRIES := "[Countries] Load Countries"
  const LOAD_COUNTRIES_SUCCESS := "[Countries] Load Countries Success"
  const LOAD_COUNTRIES_FAILURE := "[Countries] Load Countries Failure"
  const SET_CURRENT_PAGE := "[Countries] Set Current Page"
  const SET_PAGE_SIZE := "[Countries] Set Page Size"
  const RESET_PAGINATION := "[Countries] Reset Pagination"
  const INITIALIZE_PAGINATION := "[Countries] Initialize Pagination"
  const SET_FILTERS := "[Countries] Set Filters"
  const CLEAR_FILTERS := "[Countries] Clear Filters"
  const CLEAR_COUNTRIES := "[Countries] Clear Countries"
  const RESET_ERROR := "[Countries] Reset Error"

  const LOAD_COUNTRY_LANGUAGES := "[Countries] Load Country Languages"
  const LOAD_COUNTRY_LANGUAGES_SUCCESS := "[Countries] Load Country Languages Success"
  const LOAD_COUNTRY_LANGUAGES_FAILURE := "[Countries] Load Country Languages Failure"
  const CLEAR_COUNTRY_LANGUAGES := "[Countries] Clear Country Languages"
  const SET_SELECTED_COUNTRY := "[Countries] Set Selected Country"

  const LOAD_COUNTRY_STATS := "[Countries] Load Country Stats"
  const LOAD_COUNTRY_STATS_SUCCESS := "[Countries] Load Country Stats Success"
  const LOAD_COUNTRY_STATS_FAILURE := "[Countries] Load Country Stats Failure"
  const SET_COUNTRY_STATS_PAGE := "[Countries] Set Country Stats Page"
  const SET_COUNTRY_STATS_PAGE_SIZE := "[Countries] Set Country Stats Page Size"
  const CLEAR_COUNTRY_STATS := "[Countries] Clear Country Stats"

  const LOAD_REGIONS := "[ManagementInfo] Load Regions"
  const LOAD_REGIONS_SUCCESS := "[ManagementInfo] Load Regions Success"
  const LOAD_REGIONS_FAILURE := "[ManagementInfo] Load Regions Failure"
  const LOAD_YEAR_RANGE := "[ManagementInfo] Load Year Range"
  const LOAD_YEAR_RANGE_SUCCESS := "[ManagementInfo] Load Year Range Success"
  const LOAD_YEAR_RANGE_FAILURE := "[ManagementInfo] Load Year Range Failure"

  const LOAD_COUNTRY_STATS_OVERVIEW := "[Countries] Load Country Stats Overview"
  const LOAD_COUNTRY_STATS_OVERVIEW_SUCCESS := "[Countries] Load Country Stats Overview Success"
  const LOAD_COUNTRY_STATS_OVERVIEW_FAILURE := "[Countries] Load Country Stats Overview Failure"
  const SET_COUNTRY_STATS_OVERVIEW_PAGE := "[Countries] Set Country Stats Overview Page"
  const SET_COUNTRY_STATS_OVERVIEW_PAGE_SIZE := "[Countries] Set Country Stats Overview Page Size"
  const SET_COUNTRY_STATS_OVERVIEW_FILTERS := "[Countries] Set Country Stats Overview Filters"
  const CLEAR_COUNTRY_STATS_OVERVIEW := "[Countries] Clear Country Stats Overview"

  datatype Action =
    // countries list
    | LoadCountries(page: int, size: int, filters: Option<ListFilters>)
    | LoadCountriesSuccess(countriesPage: Page<CountryDto>)
    | LoadCountriesFailure(error: string)
    | SetCurrentPage(page: int)
    | SetPageSize(size: int)
    | ResetPagination
    | InitializePagination(page: int, size: int)
    | SetFilters(patch: ListFilters)
    | ClearFilters
    | ClearCountries
    | ResetError
    // languages of one country
    | LoadCountryLanguages(countryId: int)
    | LoadCountryLanguagesSuccess(languages: seq<LanguageDto>)
    | LoadCountryLanguagesFailure(error: string)
    | ClearCountryLanguages
    | SetSelectedCountry(country: CountryDto)
    // maximum GDP per population statistics
    | LoadCountryStats(page: int, size: int)
    | LoadCountryStatsSuccess(statsPage: Page<CountryStats>)
    | LoadCountryStatsFailure(error: string)
    | SetCountryStatsPage(page: int)
    | SetCountryStatsPageSize(size: int)
    | ClearCountryStats
    // regions and year range
    | LoadRegions
    | LoadRegionsSuccess(regions: seq<RegionDto>)
    | LoadRegionsFailure(error: string)
    | LoadYearRange
    | LoadYearRangeSuccess(yearRange: YearRange)
    | LoadYearRangeFailure(error: string)
    // statistics overview
    | LoadCountryStatsOverview(page: int, size: int, overviewFilters: Option<OverviewFilters>)
    | LoadCountryStatsOverviewSuccess(overviewPage: Page<CountryStatsOverviewDto>)
    | LoadCountryStatsOverviewFailure(error: string)
    | SetCountryStatsOverviewPage(page: int)
    | SetCountryStatsOverviewPageSize(size: int)
    | SetCountryStatsOverviewFilters(overviewPatch: OverviewFilters)
    | ClearCountryStatsOverview

  /** The types of the actions the store itself dispatches when it starts and when feature
      reducers are added. */
  const STORE_INIT := "@ngrx/store/init"
  const STORE_UPDATE := "@ngrx/store/update-reducers"

  /** The `type` field of an action. No action of this store carries one of the store's own
      lifecycle types. */
  function TypeOf(a: Action): (t: string)
    ensures t != STORE_INIT && t != STORE_UPDATE
  {
    match a
    case LoadCountries(_, _, _) => LOAD_COUNTRIES
    case LoadCountriesSuccess(_) => LOAD_COUNTRIES_SUCCESS
    case LoadCountriesFailure(_) => LOAD_COUNTRIES_FAILURE
    case SetCurrentPage(_) => SET_CURRENT_PAGE
    case SetPageSize(_) => SET_PAGE_SIZE
    case ResetPagination => RESET_PAGINATION
    case InitializePagination(_, _) => INITIALIZE_PAGINATION
    case SetFilters(_) => SET_FILTERS
    case ClearFilters => CLEAR_FILTERS
    case ClearCountries => CLEAR_COUNTRIES
    case ResetError => RESET_ERROR
    case LoadCountryLanguages(_) => LOAD_COUNTRY_LANGUAGES
    case LoadCountryLanguagesSuccess(_) => LOAD_COUNTRY_LANGUAGES_SUCCESS
    case LoadCountryLanguagesFailure(_) => LOAD_COUNTRY_LANGUAGES_FAILURE
    case ClearCountryLanguages => CLEAR_COUNTRY_LANGUAGES
    case SetSelectedCountry(_) => SET_SELECTED_COUNTRY
    case LoadCountryStats(_, _) => LOAD_COUNTRY_STATS
    case LoadCountryStatsSuccess(_) => LOAD_COUNTRY_STATS_SUCCESS
    case LoadCountryStatsFailure(_) => LOAD_COUNTRY_STATS_FAILURE
    case SetCountryStatsPage(_) => SET_COUNTRY_STATS_PAGE
    case SetCountryStatsPageSize(_) => SET_COUNTRY_STATS_PAGE_SIZE
    case ClearCountryStats => CLEAR_COUNTRY_STATS
    case LoadRegions => LOAD_REGIONS
    case LoadRegionsSuccess(_) => LOAD_REGIONS_SUCCESS
    case LoadRegionsFailure(_) => LOAD_REGIONS_FAILURE
    case LoadYearRange => LOAD_YEAR_RANGE
    case LoadYearRangeSuccess(_) => LOAD_YEAR_RANGE_SUCCESS
    case LoadYearRangeFailure(_) => LOAD_YEAR_RANGE_FAILURE
    case LoadCountryStatsOverview(_, _, _) => LOAD_COUNTRY_STATS_OVERVIEW
    case LoadCountryStatsOverviewSuccess(_) => LOAD_COUNTRY_STATS_OVERVIEW_SUCCESS
    case LoadCountryStatsOverviewFailure(_) => LOAD_COUNTRY_STATS_OVERVIEW_FAILURE
    case SetCountryStatsOverviewPage(_) => SET_COUNTRY_STATS_OVERVIEW_PAGE
    case SetCountryStatsOverviewPageSize(_) => SET_COUNTRY_STATS_OVERVIEW_PAGE_SIZE
    case SetCountryStatsOverviewFilters(_) => SET_COUNTRY_STATS_OVERVIEW_FILTERS
    case ClearCountryStatsOverview => CLEAR_COUNTRY_STATS_OVERVIEW
  }

  /** The position of an action's class in the declaration order (0 to 34). It names the
      class independently of the type string; `TypeOfDecodes` ties the two together. */
  function Tag(a: Action): (n: nat)
    ensures n < 35
  {
    match a
    case LoadCountries(_, _, _) => 0
    case LoadCountriesSuccess(_) => 1
    case LoadCountriesFailure(_) => 2
    case SetCurrentPage(_) => 3
    case SetPageSize(_) => 4
    case ResetPagination => 5
    case InitializePagination(_, _) => 6
    case SetFilters(_) => 7
    case ClearFilters => 8
    case ClearCountries => 9
    case ResetError => 10
    case LoadCountryLanguages(_) => 11
    case LoadCountryLanguagesSuccess(_) => 12
    case LoadCountryLanguagesFailure(_) => 13
    case ClearCountryLanguages => 14
    case SetSelectedCountry(_) => 15
    case LoadCountryStats(_, _) => 16
    case LoadCountryStatsSuccess(_) => 17
    case LoadCountryStatsFailure(_) => 18
    case SetCountryStatsPage(_) => 19
    case SetCountryStatsPageSize(_) => 20
    case ClearCountryStats => 21
    case LoadRegions => 22
    case LoadRegionsSuccess(_) => 23
    case LoadRegionsFailure(_) => 24
    case LoadYearRange => 25
    case LoadYearRangeSuccess(_) => 26
    case LoadYearRangeFailure(_) => 27
    case LoadCountryStatsOverview(_, _, _) => 28
    case LoadCountryStatsOverviewSuccess(_) => 29
    case LoadCountryStatsOverviewFailure(_) => 30
    case SetCountryStatsOverviewPage(_) => 31
    case SetCountryStatsOverviewPageSize(_) => 32
    case SetCountryStatsOverviewFilters(_) => 33
    case ClearCountryStatsOverview => 34
  }

  /** The reverse of the reducer's lookup table: which action class a type string names, or
      none for a string of another feature. `TypeOfDecodes` shows it inverts `TypeOf`. */
  function TagOfType(t: string): (r: Option<nat>)
    ensures r.Some? ==> r.value < 35
  {
    if t == LOAD_COUNTRIES then Some(0)
    else if t == LOAD_COUNTRIES_SUCCESS then Some(1)
    else if t == LOAD_COUNTRIES_FAILURE then Some(2)
    else if t == SET_CURRENT_PAGE then Some(3)
    else if t == SET_PAGE_SIZE then Some(4)
    else if t == RESET_PAGINATION then Some(5)
    else if t == INITIALIZE_PAGINATION then Some(6)
    else if t == SET_FILTERS then Some(7)
    else if t == CLEAR_FILTERS then Some(8)
    else if t == CLEAR_COUNTRIES then Some(9)
    else if t == RESET_ERROR then Some(10)
    else if t == LOAD_COUNTRY_LANGUAGES then Some(11)
    else if t == LOAD_COUNTRY_LANGUAGES_SUCCESS then Some(12)
    else if t == LOAD_COUNTRY_LANGUAGES_FAILURE then Some(13)
    else if t == CLEAR_COUNTRY_LANGUAGES then Some(14)
    else if t == SET_SELECTED_COUNTRY then Some(15)
    else if t == LOAD_COUNTRY_STATS then Some(16)
    else if t == LOAD_COUNTRY_STATS_SUCCESS then Some(17)
    else if t == LOAD_COUNTRY_STATS_FAILURE then Some(18)
    else if t == SET_COUNTRY_STATS_PAGE then Some(19)
    else if t == SET_COUNTRY_STATS_PAGE_SIZE then Some(20)
    else if t == CLEAR_COUNTRY_STATS then Some(21)
    else if t == LOAD_REGIONS then Some(22)
    else if t == LOAD_REGIONS_SUCCESS then Some(23)
    else if t == LOAD_REGIONS_FAILURE then Some(24)
    else if t == LOAD_YEAR_RANGE then Some(25)
    else if t == LOAD_YEAR_RANGE_SUCCESS then Some(26)
    else if t == LOAD_YEAR_RANGE_FAILURE then Some(27)
    else if t == LOAD_COUNTRY_STATS_OVERVIEW then Some(28)
    else if t == LOAD_COUNTRY_STATS_OVERVIEW_SUCCESS then Some(29)
    else if t == LOAD_COUNTRY_STATS_OVERVIEW_FAILURE then Some(30)
    else if t == SET_COUNTRY_STATS_OVERVIEW_PAGE then Some(31)
    else if t == SET_COUNTRY_STATS_OVERVIEW_PAGE_SIZE then Some(32)
    else if t == SET_COUNTRY_STATS_OVERVIEW_FILTERS then Some(33)
    else if t == CLEAR_COUNTRY_STATS_OVERVIEW then Some(34)
    else None
  }

  lemma ListTypesDecode()
    ensures TagOfType(LOAD_COUNTRIES) == Some(0) && TagOfType(LOAD_COUNTRIES_SUCCESS) == Some(1)
    ensures TagOfType(LOAD_COUNTRIES_FAILURE) == Some(2) && TagOfType(SET_CURRENT_PAGE) == Some(3)
    ensures TagOfType(SET_PAGE_SIZE) == Some(4) && TagOfType(RESET_PAGINATION) == Some(5)
    ensures TagOfType(INITIALIZE_PAGINATION) == Some(6) && TagOfType(SET_FILTERS) == Some(7)
    ensures TagOfType(CLEAR_FILTERS) == Some(8) && TagOfType(CLEAR_COUNTRIES) == Some(9)
    ensures TagOfType(RESET_ERROR) == Some(10)
  {
  }

  lemma LanguagesTypesDecode()
    ensures TagOfType(LOAD_COUNTRY_LANGUAGES) == Some(11)
    ensures TagOfType(LOAD_COUNTRY_LANGUAGES_SUCCESS) == Some(12)
    ensures TagOfType(LOAD_COUNTRY_LANGUAGES_FAILURE) == Some(13)
    ensures TagOfType(CLEAR_COUNTRY_LANGUAGES) == Some(14)
    ensures TagOfType(SET_SELECTED_COUNTRY) == Some(15)
  {
  }

  lemma StatsTypesDecode()
    ensures TagOfType(LOAD_COUNTRY_STATS) == Some(16)
    ensures TagOfType(LOAD_COUNTRY_STATS_SUCCESS) == Some(17)
    ensures TagOfType(LOAD_COUNTRY_STATS_FAILURE) == Some(18)
    ensures TagOfType(SET_COUNTRY_STATS_PAGE) == Some(19)
    ensures TagOfType(SET_COUNTRY_STATS_PAGE_SIZE) == Some(20)
    ensures TagOfType(CLEAR_COUNTRY_STATS) == Some(21)
  {
  }

  lemma ManagementTypesDecode()
    ensures TagOfType(LOAD_REGIONS) == Some(22)
    ensures TagOfType(LOAD_REGIONS_SUCCESS) == Some(23)
    ensures TagOfType(LOAD_REGIONS_FAILURE) == Some(24)
    ensures TagOfType(LOAD_YEAR_RANGE) == Some(25)
    ensures TagOfType(LOAD_YEAR_RANGE_SUCCESS) == Some(26)
    ensures TagOfType(LOAD_YEAR_RANGE_FAILURE) == Some(27)
  {
  }

  lemma OverviewLoadTypesDecode()
    ensures TagOfType(LOAD_COUNTRY_STATS_OVERVIEW) == Some(28)
    ensures TagOfType(LOAD_COUNTRY_STATS_OVERVIEW_SUCCESS) == Some(29)
    ensures TagOfType(LOAD_COUNTRY_STATS_OVERVIEW_FAILURE) == Some(30)
  {
  }

  lemma OverviewSetTypesDecode()
    ensures TagOfType(SET_COUNTRY_STATS_OVERVIEW_PAGE) == Some(31)
    ensures TagOfType(SET_COUNTRY_STATS_OVERVIEW_PAGE_SIZE) == Some(32)
    ensures TagOfType(SET_COUNTRY_STATS_OVERVIEW_FILTERS) == Some(33)
    ensures TagOfType(CLEAR_COUNTRY_STATS_OVERVIEW) == Some(34)
  {
  }

  /** Decoding the type string of an action recovers its class. */
  lemma TypeOfDecodes(a: Action)
    ensures TagOfType(TypeOf(a)) == Some(Tag(a))
  {
    ListTypesDecode();
    LanguagesTypesDecode();
    StatsTypesDecode();
    ManagementTypesDecode();
    OverviewLoadTypesDecode();
    OverviewSetTypesDecode();
  }

  /** All 35 type strings are pairwise distinct, so the `type` of an action determines its
      class. */
  lemma TypeOfInjective(a: Action, b: Action)
    ensures TypeOf(a) == TypeOf(b) ==> Tag(a) == Tag(b)
  {
    TypeOfDecodes(a);
    TypeOfDecodes(b);
  }
}
