/** The countries-list screen: the actions its lifecycle hooks and buttons dispatch, the
    route it opens for a country's languages, and the row numbers it prints. */
module CountriesList {
  import opened Wrappers
  import opened CountryModels
  import opened State
  import opened Actions
  import R = Reducer
  import E = Effects
  import PaginationHelper

  /** The size asked for when the store has no pagination to offer. */
  const FallbackPageSize := 20

  /** Mounting re-requests the page the store holds (page 0 and 20 rows if it holds none). */
  function OnInit(stored: Option<PaginationState>): (a: Action)
    ensures a.InitializePagination?
    ensures stored.Some? ==> a.page == stored.value.currentPage && a.size == stored.value.pageSize
    ensures stored.None? ==> a.page == 0 && a.size == FallbackPageSize
  {
    match stored
    case Some(p) => InitializePagination(p.currentPage, p.pageSize)
    case None => InitializePagination(0, FallbackPageSize)
  }

  /** Leaving the screen restores the initial pagination. */
  function OnDestroy(): (a: Action)
    ensures TypeOf(a) == RESET_PAGINATION
  {
    ResetPagination
  }

  function OnPageChange(page: int): (a: Action)
    ensures TypeOf(a) == SET_CURRENT_PAGE && a.page == page
  {
    SetCurrentPage(page)
  }

  function OnPageSizeChange(size: int): (a: Action)
    ensures TypeOf(a) == SET_PAGE_SIZE && a.size == size
  {
    SetPageSize(size)
  }

  /** Retrying goes back to the first page at the stored size. */
  function Retry(stored: Option<PaginationState>): (a: Action)
    ensures a.InitializePagination? && a.page == 0
    ensures stored.Some? ==> a.size == stored.value.pageSize
    ensures stored.None? ==> a.size == FallbackPageSize
  {
    InitializePagination(0, if stored.Some? then stored.value.pageSize else FallbackPageSize)
  }

  /** Opening a country's languages: the selection is stored, and the popup outlet is routed
      to the country's two-letter code with the country passed along as navigation state. */
  datatype Navigation = Navigation(dispatched: Action, outlet: string, path: seq<string>, carried: CountryDto)

  function NavigateToCountryLanguages(country: CountryDto): (n: Navigation)
    ensures n.dispatched == SetSelectedCountry(country) && n.carried == country
    ensures n.outlet == "popup" && |n.path| == 3 && n.path[1] == country.countryCode2
  {
    Navigation(SetSelectedCountry(country), "popup", ["countries", country.countryCode2, "languages"], country)
  }

  /** The number printed in front of the `idx`-th row of the page: the same numbering the
      pagination helper gives its rows, so one row number names one row of the result. */
  function GetGlobalIndex(idx: int, currentPage: int, pageSize: int): (n: int)
    ensures n == PaginationHelper.GlobalIndex(idx, currentPage, pageSize)
    ensures idx >= 0 && currentPage >= 0 && pageSize >= 0 ==> n >= 1
  {
    (currentPage * pageSize) + idx + 1
  }

  // ---------------------------------------------------------------- with the store

  /** Mounting over a store that already holds a page changes nothing in the state and
      reloads exactly that page with the stored filters. */
  lemma MountReloadsStoredPage(s: CountriesState)
    ensures R.Reduce(s, OnInit(Some(s.countriesList.pagination))) == s
    ensures E.FollowUp(OnInit(Some(s.countriesList.pagination)), s)
         == Some(LoadCountries(s.countriesList.pagination.currentPage, s.countriesList.pagination.pageSize,
                               Some(s.countriesList.filters)))
  {
  }

  /** Because leaving resets the pagination, coming back always starts over on the first
      page at five rows, whatever page and size were shown before. */
  lemma RemountStartsOver(s: CountriesState)
    ensures var left := R.Reduce(s, OnDestroy());
            var init := OnInit(Some(left.countriesList.pagination));
            && R.Reduce(left, init).countriesList.pagination == InitialPagination
            && E.FollowUp(init, R.Reduce(left, init)) == Some(LoadCountries(0, 5, Some(s.countriesList.filters)))
  {
  }

  /** Retrying returns the list to its first page at the same size, keeps the filters and
      asks for that page. */
  lemma RetryReloadsFirstPage(s: CountriesState)
    ensures var t := R.Reduce(s, Retry(Some(s.countriesList.pagination)));
            && t.countriesList.pagination == s.countriesList.pagination.(currentPage := 0)
            && E.FollowUp(Retry(Some(s.countriesList.pagination)), t)
               == Some(LoadCountries(0, s.countriesList.pagination.pageSize, Some(s.countriesList.filters)))
  {
  }

  /** Opening a country's languages selects it and touches nothing but the languages slice. */
  lemma NavigationSelectsCountry(s: CountriesState, country: CountryDto)
    ensures R.Reduce(s, NavigateToCountryLanguages(country).dispatched).countryLanguages.selectedCountry == Some(country)
    ensures AgreeOutside(s, R.Reduce(s, NavigateToCountryLanguages(country).dispatched), Languages)
    ensures E.FollowUp(NavigateToCountryLanguages(country).dispatched, s) == None
  {
  }
}
