/** The countries reducer: a total function from a state and an action to the next state.
    The transition helpers are written against the slice each group of fields belongs to:
    the countries fields (`countries`, `loading`, `error`, `pagination`, `filters`) act on
    `countriesList`, the language fields (`languages`, `languagesLoading`, `languagesError`,
    `selectedCountry`) on `countryLanguages`, and the statistics fields (`countryStats`,
    `countryStatsLoading`, `countryStatsError`, `countryStatsPagination`) on `countryStats`. */
module Reducer {
  import opened Wrappers
  import opened CountryModels
  import opened State
  import A = Actions

  // ---------------------------------------------------------------- countries list

  function StartLoading(s: CountriesState): (r: CountriesState)
    ensures ListPhase(r) == Loading && r.countriesList.error == None
    ensures r.countriesList.data == s.countriesList.data
    ensures r.countriesList.pagination == s.countriesList.pagination
    ensures r.countriesList.filters == s.countriesList.filters
    ensures AgreeOutside(s, r, List)
  {
    s.(countriesList := s.countriesList.(loading := true, error := None))
  }

  /** Declared beside the other helpers but bound to no action type. */
  function EndLoading(s: CountriesState): (r: CountriesState)
    ensures !r.countriesList.loading
    ensures r.countriesList == s.countriesList.(loading := false)
    ensures AgreeOutside(s, r, List)
  {
    s.(countriesList := s.countriesList.(loading := false))
  }

  /** Pagination metadata copied from an envelope over the stored one. */
  function FromEnvelope<T>(p: Page<T>): PaginationState {
    PaginationState(p.pageable.pageNumber, p.pageable.pageSize, p.totalElements, p.totalPages)
  }

  function LoadCountriesSuccess(s: CountriesState, response: Page<CountryDto>): (r: CountriesState)
    ensures ListPhase(r) != Loading && r.countriesList.error == None
    ensures r.countriesList.data == response.content
    ensures r.countriesList.pagination.currentPage == response.pageable.pageNumber
    ensures r.countriesList.pagination.pageSize == response.pageable.pageSize
    ensures r.countriesList.pagination.totalElements == response.totalElements
    ensures r.countriesList.pagination.totalPages == response.totalPages
    ensures r.countriesList.filters == s.countriesList.filters
    ensures AgreeOutside(s, r, List)
  {
    s.(countriesList := s.countriesList.(
      loading := false,
      error := None,
      data := response.content,
      pagination := FromEnvelope(response)))
  }

  function LoadCountriesFailure(s: CountriesState, error: string): (r: CountriesState)
    ensures ListPhase(r) == Failed && r.countriesList.error == Some(error)
    ensures r.countriesList.data == []
    ensures r.countriesList.pagination == s.countriesList.pagination
    ensures r.countriesList.filters == s.countriesList.filters
    ensures AgreeOutside(s, r, List)
  {
    s.(countriesList := s.countriesList.(loading := false, error := Some(error), data := []))
  }

  function SetCurrentPage(s: CountriesState, page: int): (r: CountriesState)
    ensures r.countriesList.pagination.currentPage == page
    ensures r.countriesList == s.countriesList.(pagination := r.countriesList.pagination)
    ensures r.countriesList.pagination == s.countriesList.pagination.(currentPage := page)
    ensures AgreeOutside(s, r, List)
  {
    s.(countriesList := s.countriesList.(
      pagination := s.countriesList.pagination.(currentPage := page)))
  }

  function SetPageSize(s: CountriesState, size: int): (r: CountriesState)
    ensures r.countriesList.pagination.currentPage == 0
    ensures r.countriesList.pagination.pageSize == size
    ensures r.countriesList.pagination.totalElements == s.countriesList.pagination.totalElements
    ensures r.countriesList.pagination.totalPages == s.countriesList.pagination.totalPages
    ensures r.countriesList == s.countriesList.(pagination := r.countriesList.pagination)
    ensures AgreeOutside(s, r, List)
  {
    s.(countriesList := s.countriesList.(
      pagination := s.countriesList.pagination.(pageSize := size, currentPage := 0)))
  }

  /** `{...older, ...newer}` on the four filter keys. */
  function MergeFilters(older: ListFilters, newer: ListFilters): (f: ListFilters)
    ensures newer.region.Absent? ==> f.region == older.region
    ensures !newer.region.Absent? ==> f.region == newer.region
    ensures newer.searchQuery.Absent? ==> f.searchQuery == older.searchQuery
    ensures !newer.searchQuery.Absent? ==> f.searchQuery == newer.searchQuery
    ensures newer.yearFrom.Absent? ==> f.yearFrom == older.yearFrom
    ensures !newer.yearFrom.Absent? ==> f.yearFrom == newer.yearFrom
    ensures newer.yearTo.Absent? ==> f.yearTo == older.yearTo
    ensures !newer.yearTo.Absent? ==> f.yearTo == newer.yearTo
  {
    ListFilters(
      Spread(older.region, newer.region),
      Spread(older.searchQuery, newer.searchQuery),
      Spread(older.yearFrom, newer.yearFrom),
      Spread(older.yearTo, newer.yearTo))
  }

  function SetFilters(s: CountriesState, patch: ListFilters): (r: CountriesState)
    ensures r.countriesList.filters == MergeFilters(s.countriesList.filters, patch)
    ensures r.countriesList.pagination == s.countriesList.pagination.(currentPage := 0)
    ensures r.countriesList.data == s.countriesList.data
    ensures r.countriesList.loading == s.countriesList.loading
    ensures r.countriesList.error == s.countriesList.error
    ensures AgreeOutside(s, r, List)
  {
    s.(countriesList := s.countriesList.(
      filters := MergeFilters(s.countriesList.filters, patch),
      pagination := s.countriesList.pagination.(currentPage := 0)))
  }

  /** Every filter key present and `undefined`. */
  const ClearedListFilters := ListFilters(Undefined, Undefined, Undefined, Undefined)

  function ClearFilters(s: CountriesState): (r: CountriesState)
    ensures r.countriesList.filters.region.Read() == None
    ensures r.countriesList.filters.searchQuery.Read() == None
    ensures r.countriesList.filters.yearFrom.Read() == None
    ensures r.countriesList.filters.yearTo.Read() == None
    ensures r.countriesList.pagination == s.countriesList.pagination.(currentPage := 0)
    ensures r.countriesList.data == s.countriesList.data
    ensures r.countriesList.loading == s.countriesList.loading
    ensures r.countriesList.error == s.countriesList.error
    ensures AgreeOutside(s, r, List)
  {
    s.(countriesList := s.countriesList.(
      filters := ClearedListFilters,
      pagination := s.countriesList.pagination.(currentPage := 0)))
  }

  /** Restores the pagination the countries list starts with. The flat read of the initial
      state's `pagination` is taken as the list's initial pagination, as the flat writes are. */
  function ResetPagination(s: CountriesState): (r: CountriesState)
    ensures r.countriesList.pagination == InitialCountriesState.countriesList.pagination
    ensures r.countriesList == s.countriesList.(pagination := r.countriesList.pagination)
    ensures AgreeOutside(s, r, List)
  {
    s.(countriesList := s.countriesList.(pagination := InitialPagination))
  }

  function InitializePagination(s: CountriesState, page: int, size: int): (r: CountriesState)
    ensures r.countriesList.pagination.currentPage == page
    ensures r.countriesList.pagination.pageSize == size
    ensures r.countriesList.pagination.totalElements == s.countriesList.pagination.totalElements
    ensures r.countriesList.pagination.totalPages == s.countriesList.pagination.totalPages
    ensures r.countriesList == s.countriesList.(pagination := r.countriesList.pagination)
    ensures AgreeOutside(s, r, List)
  {
    s.(countriesList := s.countriesList.(
      pagination := s.countriesList.pagination.(currentPage := page, pageSize := size)))
  }

  function ClearCountries(s: CountriesState): (r: CountriesState)
    ensures r.countriesList.data == []
    ensures r.countriesList.pagination.totalElements == 0
    ensures r.countriesList.pagination.totalPages == 0
    ensures r.countriesList.pagination.currentPage == s.countriesList.pagination.currentPage
    ensures r.countriesList.pagination.pageSize == s.countriesList.pagination.pageSize
    ensures r.countriesList.error == s.countriesList.error
    ensures r.countriesList.loading == s.countriesList.loading
    ensures r.countriesList.filters == s.countriesList.filters
    ensures AgreeOutside(s, r, List)
  {
    s.(countriesList := s.countriesList.(
      data := [],
      pagination := s.countriesList.pagination.(totalElements := 0, totalPages := 0)))
  }

  function ResetError(s: CountriesState): (r: CountriesState)
    ensures r.countriesList.error == None
    ensures r.countriesList == s.countriesList.(error := None)
    ensures AgreeOutside(s, r, List)
  {
    s.(countriesList := s.countriesList.(error := None))
  }

  // ---------------------------------------------------------------- languages

  function StartLoadingLanguages(s: CountriesState): (r: CountriesState)
    ensures LanguagesPhase(r) == Loading && r.countryLanguages.error == None
    ensures r.countryLanguages.data == s.countryLanguages.data
    ensures r.countryLanguages.selectedCountry == s.countryLanguages.selectedCountry
    ensures AgreeOutside(s, r, Languages)
  {
    s.(countryLanguages := s.countryLanguages.(loading := true, error := None))
  }

  function LoadCountryLanguagesSuccess(s: CountriesState, languages: seq<LanguageDto>): (r: CountriesState)
    ensures LanguagesPhase(r) != Loading && r.countryLanguages.error == None
    ensures r.countryLanguages.data == languages
    ensures r.countryLanguages.selectedCountry == s.countryLanguages.selectedCountry
    ensures AgreeOutside(s, r, Languages)
  {
    s.(countryLanguages := s.countryLanguages.(loading := false, error := None, data := languages))
  }

  function LoadCountryLanguagesFailure(s: CountriesState, error: string): (r: CountriesState)
    ensures LanguagesPhase(r) == Failed && r.countryLanguages.error == Some(error)
    ensures r.countryLanguages.data == []
    ensures r.countryLanguages.selectedCountry == s.countryLanguages.selectedCountry
    ensures AgreeOutside(s, r, Languages)
  {
    s.(countryLanguages := s.countryLanguages.(loading := false, error := Some(error), data := []))
  }

  /** Empties the languages and clears their error; the loading flag is left as it was. */
  function ClearCountryLanguages(s: CountriesState): (r: CountriesState)
    ensures r.countryLanguages.data == [] && r.countryLanguages.error == None
    ensures r.countryLanguages.loading == s.countryLanguages.loading
    ensures r.countryLanguages.selectedCountry == s.countryLanguages.selectedCountry
    ensures AgreeOutside(s, r, Languages)
  {
    s.(countryLanguages := s.countryLanguages.(data := [], error := None))
  }

  function SetSelectedCountry(s: CountriesState, country: CountryDto): (r: CountriesState)
    ensures r.countryLanguages.selectedCountry == Some(country)
    ensures r.countryLanguages == s.countryLanguages.(selectedCountry := Some(country))
    ensures AgreeOutside(s, r, Languages)
  {
    s.(countryLanguages := s.countryLanguages.(selectedCountry := Some(country)))
  }

  // ---------------------------------------------------------------- statistics

  function StartLoadingCountryStats(s: CountriesState): (r: CountriesState)
    ensures StatsPhase(r) == Loading && r.countryStats.error == None
    ensures r.countryStats.data == s.countryStats.data
    ensures r.countryStats.pagination == s.countryStats.pagination
    ensures AgreeOutside(s, r, Stats)
  {
    s.(countryStats := s.countryStats.(loading := true, error := None))
  }

  function LoadCountryStatsSuccess(s: CountriesState, response: Page<CountryStats>): (r: CountriesState)
    ensures StatsPhase(r) != Loading && r.countryStats.error == None
    ensures r.countryStats.data == response.content
    ensures r.countryStats.pagination.currentPage == response.pageable.pageNumber
    ensures r.countryStats.pagination.pageSize == response.pageable.pageSize
    ensures r.countryStats.pagination.totalElements == response.totalElements
    ensures r.countryStats.pagination.totalPages == response.totalPages
    ensures AgreeOutside(s, r, Stats)
  {
    s.(countryStats := s.countryStats.(
      loading := false,
      error := None,
      data := response.content,
      pagination := FromEnvelope(response)))
  }

  function LoadCountryStatsFailure(s: CountriesState, error: string): (r: CountriesState)
    ensures StatsPhase(r) == Failed && r.countryStats.error == Some(error)
    ensures r.countryStats.data == []
    ensures r.countryStats.pagination == s.countryStats.pagination
    ensures AgreeOutside(s, r, Stats)
  {
    s.(countryStats := s.countryStats.(loading := false, error := Some(error), data := []))
  }

  function SetCountryStatsPage(s: CountriesState, page: int): (r: CountriesState)
    ensures r.countryStats.pagination == s.countryStats.pagination.(currentPage := page)
    ensures r.countryStats == s.countryStats.(pagination := r.countryStats.pagination)
    ensures AgreeOutside(s, r, Stats)
  {
    s.(countryStats := s.countryStats.(
      pagination := s.countryStats.pagination.(currentPage := page)))
  }

  function SetCountryStatsPageSize(s: CountriesState, size: int): (r: CountriesState)
    ensures r.countryStats.pagination.currentPage == 0
    ensures r.countryStats.pagination.pageSize == size
    ensures r.countryStats.pagination.totalElements == s.countryStats.pagination.totalElements
    ensures r.countryStats.pagination.totalPages == s.countryStats.pagination.totalPages
    ensures r.countryStats == s.countryStats.(pagination := r.countryStats.pagination)
    ensures AgreeOutside(s, r, Stats)
  {
    s.(countryStats := s.countryStats.(
      pagination := s.countryStats.pagination.(pageSize := size, currentPage := 0)))
  }

  /** Unlike `ClearCountries`, this also clears the error. */
  function ClearCountryStats(s: CountriesState): (r: CountriesState)
    ensures r.countryStats.data == [] && r.countryStats.error == None
    ensures r.countryStats.pagination.totalElements == 0
    ensures r.countryStats.pagination.totalPages == 0
    ensures r.countryStats.pagination.currentPage == s.countryStats.pagination.currentPage
    ensures r.countryStats.pagination.pageSize == s.countryStats.pagination.pageSize
    ensures r.countryStats.loading == s.countryStats.loading
    ensures AgreeOutside(s, r, Stats)
  {
    s.(countryStats := s.countryStats.(
      data := [],
      error := None,
      pagination := s.countryStats.pagination.(totalElements := 0, totalPages := 0)))
  }

  // ---------------------------------------------------------------- dispatch

  /** The keys of the reducer's lookup table: the 22 action types that have a handler. */
  const ReducerMapKeys: set<string> := {
    A.LOAD_COUNTRIES, A.LOAD_COUNTRIES_SUCCESS, A.LOAD_COUNTRIES_FAILURE,
    A.SET_CURRENT_PAGE, A.SET_PAGE_SIZE, A.RESET_PAGINATION, A.INITIALIZE_PAGINATION,
    A.SET_FILTERS, A.CLEAR_FILTERS, A.CLEAR_COUNTRIES, A.RESET_ERROR,
    A.LOAD_COUNTRY_LANGUAGES, A.LOAD_COUNTRY_LANGUAGES_SUCCESS,
    A.LOAD_COUNTRY_LANGUAGES_FAILURE, A.CLEAR_COUNTRY_LANGUAGES, A.SET_SELECTED_COUNTRY,
    A.LOAD_COUNTRY_STATS, A.LOAD_COUNTRY_STATS_SUCCESS, A.LOAD_COUNTRY_STATS_FAILURE,
    A.SET_COUNTRY_STATS_PAGE, A.SET_COUNTRY_STATS_PAGE_SIZE, A.CLEAR_COUNTRY_STATS
  }

  /** The handler the table binds to an action's type, applied to the action's payload; an
      action whose type has no entry in the table returns the state as it is. Type strings
      and action classes are in one-to-one correspondence (`Actions.TypeOfDecodes`), so
      matching on the class is the table lookup. */
  function Reduce(s: CountriesState, a: A.Action): (r: CountriesState)
    ensures r.managementInfo == s.managementInfo
    ensures r.countryStatsOverview == s.countryStatsOverview
  {
    match a
    case LoadCountries(_, _, _) => StartLoading(s)
    case LoadCountriesSuccess(response) => LoadCountriesSuccess(s, response)
    case LoadCountriesFailure(error) => LoadCountriesFailure(s, error)
    case SetCurrentPage(page) => SetCurrentPage(s, page)
    case SetPageSize(size) => SetPageSize(s, size)
    case ResetPagination => ResetPagination(s)
    case InitializePagination(page, size) => InitializePagination(s, page, size)
    case SetFilters(patch) => SetFilters(s, patch)
    case ClearFilters => ClearFilters(s)
    case ClearCountries => ClearCountries(s)
    case ResetError => ResetError(s)
    case LoadCountryLanguages(_) => StartLoadingLanguages(s)
    case LoadCountryLanguagesSuccess(languages) => LoadCountryLanguagesSuccess(s, languages)
    case LoadCountryLanguagesFailure(error) => LoadCountryLanguagesFailure(s, error)
    case ClearCountryLanguages => ClearCountryLanguages(s)
    case SetSelectedCountry(country) => SetSelectedCountry(s, country)
    case LoadCountryStats(_, _) => StartLoadingCountryStats(s)
    case LoadCountryStatsSuccess(response) => LoadCountryStatsSuccess(s, response)
    case LoadCountryStatsFailure(error) => LoadCountryStatsFailure(s, error)
    case SetCountryStatsPage(page) => SetCountryStatsPage(s, page)
    case SetCountryStatsPageSize(size) => SetCountryStatsPageSize(s, size)
    case ClearCountryStats => ClearCountryStats(s)
    case _ => s
  }

  // ---------------------------------------------------------------- the reducer function

  /** What reaches the reducer: an action of this store, or an action of another feature or
      of the store itself, known only by its type string. */
  datatype Dispatched = Own(action: A.Action) | Foreign(typeName: string)

  function TypeName(d: Dispatched): string {
    match d
    case Own(a) => A.TypeOf(a)
    case Foreign(t) => t
  }

  /** The store tells actions apart by type alone, so an action whose type is one of this
      store's 35 strings is that class; a foreign action carries any other string. */
  predicate OwnTypesReserved(d: Dispatched) {
    d.Foreign? ==> A.TagOfType(d.typeName).None?
  }

  /** The names every object inherits from `Object.prototype`. The table is an object literal,
      so looking one of them up finds the inherited member instead of nothing. */
  const ObjectPrototypeNames: set<string> := {
    "constructor", "hasOwnProperty", "isPrototypeOf", "propertyIsEnumerable",
    "toLocaleString", "toString", "valueOf", "__proto__",
    "__defineGetter__", "__defineSetter__", "__lookupGetter__", "__lookupSetter__"}

  /** A foreign type that the lookup misses: none of this store's strings and no inherited name. */
  predicate WellTyped(d: Dispatched) {
    OwnTypesReserved(d) && (d.Foreign? ==> d.typeName !in ObjectPrototypeNames)
  }

  /** The reducer function: a state that does not exist yet is the initial state, this
      store's actions go through the table, and a foreign action finds no entry. */
  function Dispatch(state: Option<CountriesState>, d: Dispatched): (r: CountriesState)
    requires WellTyped(d)
    ensures d.Foreign? ==> r == state.GetOr(InitialCountriesState)
    ensures r.managementInfo == state.GetOr(InitialCountriesState).managementInfo
    ensures r.countryStatsOverview == state.GetOr(InitialCountriesState).countryStatsOverview
  {
    var s := state.GetOr(InitialCountriesState);
    match d
    case Own(a) => Reduce(s, a)
    case Foreign(_) => s
  }

  /** What calling the member the lookup found gives back: a state, some other value, or a
      thrown `TypeError`. */
  datatype Reaction = Returns(state: CountriesState) | ReturnsText(text: string) | Throws

  /** An inherited member, called detached with the state and the action. `Object` hands an
      object argument back; `toString` without a receiver gives the tag of `undefined`; the
      others need an object receiver, and `__proto__` is not a function, so they throw. */
  function InheritedCall(s: CountriesState, name: string): (r: Reaction)
    requires name in ObjectPrototypeNames
    ensures r.Returns? <==> name == "constructor"
    ensures r.Returns? ==> r.state == s
    ensures r.ReturnsText? <==> name == "toString"
  {
    if name == "constructor" then Returns(s)
    else if name == "toString" then ReturnsText("[object Undefined]")
    else Throws
  }

  /** The reducer function for any type string, inherited names included. Only `constructor`
      among those gives a state back, and then the same one. */
  function Call(state: Option<CountriesState>, d: Dispatched): (r: Reaction)
    requires OwnTypesReserved(d)
    ensures WellTyped(d) ==> r == Returns(Dispatch(state, d))
    ensures r.Throws? <==> d.Foreign? && d.typeName in ObjectPrototypeNames - {"constructor", "toString"}
    ensures r.Returns? ==> r.state.managementInfo == state.GetOr(InitialCountriesState).managementInfo
    ensures r.Returns? ==> r.state.countryStatsOverview == state.GetOr(InitialCountriesState).countryStatsOverview
  {
    if WellTyped(d) then Returns(Dispatch(state, d))
    else InheritedCall(state.GetOr(InitialCountriesState), d.typeName)
  }
}
