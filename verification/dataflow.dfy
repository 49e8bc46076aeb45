/** The store's round trip: an intent is reduced, the effect reacting to it reads the new
    state and emits a load, the load is turned into a request, and its outcome is reduced
    again and projected by the selectors. */
module Dataflow {
  import opened Wrappers
  import opened CountryModels
  import opened State
  import opened Actions
  import R = Reducer
  import E = Effects
  import N = NationsService
  import Selectors
  import Decimal

  /** After a page, size or initialisation change, the load that follows asks for exactly the
      page, size and filters the new state holds. */
  lemma FollowUpMatchesState(s: CountriesState, a: Action)
    requires a.SetCurrentPage? || a.SetPageSize? || a.InitializePagination?
    ensures var t := R.Reduce(s, a);
            E.FollowUp(a, t) == Some(LoadCountries(t.countriesList.pagination.currentPage,
                                                   t.countriesList.pagination.pageSize,
                                                   Some(t.countriesList.filters)))
  {
  }

  lemma StatsFollowUpMatchesState(s: CountriesState, a: Action)
    requires a.SetCountryStatsPage? || a.SetCountryStatsPageSize?
    ensures var t := R.Reduce(s, a);
            E.FollowUp(a, t) == Some(LoadCountryStats(t.countryStats.pagination.currentPage,
                                                      t.countryStats.pagination.pageSize))
  {
  }

  /** Clearing stores every filter key as undefined while the effect sends no keys at all;
      both produce the same query: first page, stored size, no filter parameters. */
  lemma ClearFiltersRequestMatchesState(s: CountriesState, baseUrl: string)
    ensures var t := R.Reduce(s, ClearFilters);
            && E.FollowUp(ClearFilters, t) == Some(LoadCountries(0, t.countriesList.pagination.pageSize, Some(NoListFilters)))
            && N.GetCountries(baseUrl, Some(0), t.countriesList.pagination.pageSize, Some(NoListFilters))
               == N.GetCountries(baseUrl, Some(t.countriesList.pagination.currentPage),
                                 t.countriesList.pagination.pageSize, Some(t.countriesList.filters))
            && N.GetCountries(baseUrl, Some(0), t.countriesList.pagination.pageSize, Some(NoListFilters)).params
               == N.PageAndSize(0, t.countriesList.pagination.pageSize)
  {
    var t := R.Reduce(s, ClearFilters);
    var size := t.countriesList.pagination.pageSize;
    ClearFiltersCycle(s);
    N.FalsyListFiltersRequest(baseUrl, Some(0), size, NoListFilters);
    N.FalsyListFiltersRequest(baseUrl, Some(0), size, t.countriesList.filters);
  }

  /** Clearing returns the list to its first page at the stored size, stores every filter
      key as undefined, and triggers a load of that page with no filter keys. */
  lemma ClearFiltersCycle(s: CountriesState)
    ensures var t := R.Reduce(s, ClearFilters);
            && t.countriesList.pagination.currentPage == 0
            && t.countriesList.pagination.pageSize == s.countriesList.pagination.pageSize
            && t.countriesList.filters == R.ClearedListFilters
            && E.FollowUp(ClearFilters, t) == Some(LoadCountries(0, s.countriesList.pagination.pageSize, Some(NoListFilters)))
  {
  }

  /** A filter update returns the list to its first page at the stored size, stores the
      merge of old and new keys, and triggers a load of that page with the new keys only. */
  lemma SetFiltersCycle(s: CountriesState, patch: ListFilters)
    ensures var t := R.Reduce(s, SetFilters(patch));
            && t.countriesList.pagination.currentPage == 0
            && t.countriesList.pagination.pageSize == s.countriesList.pagination.pageSize
            && t.countriesList.filters == R.MergeFilters(s.countriesList.filters, patch)
            && E.FollowUp(SetFilters(patch), t) == Some(LoadCountries(0, s.countriesList.pagination.pageSize, Some(patch)))
  {
  }

  /** A filter update stores the merge of old and new keys but the load it triggers carries
      only the new keys: with a region already stored, a search update asks the server for
      an unfiltered region while the state still shows the region. */
  lemma SetFiltersRequestOmitsStoredKeys(s: CountriesState, baseUrl: string)
    requires s.countriesList.filters == NoListFilters.(region := Defined("Europe"))
    ensures var patch := NoListFilters.(searchQuery := Defined("ger"));
            var t := R.Reduce(s, SetFilters(patch));
            && t.countriesList.filters.region.Read() == Some("Europe")
            && E.FollowUp(SetFilters(patch), t) == Some(LoadCountries(0, t.countriesList.pagination.pageSize, Some(patch)))
            && N.Lookup(N.GetCountries(baseUrl, Some(0), t.countriesList.pagination.pageSize, Some(patch)).params,
                        N.RegionKey) == None
            && N.Lookup(N.GetCountries(baseUrl, Some(0), t.countriesList.pagination.pageSize, Some(patch)).params,
                        N.SearchKey) == Some("ger")
  {
    var patch := NoListFilters.(searchQuery := Defined("ger"));
    var size := s.countriesList.pagination.pageSize;
    SetFiltersCycle(s, patch);
    SearchOnlyQuery(size, patch);
  }

  /** The query for a search-only filter: the search key and no region key. */
  lemma SearchOnlyQuery(size: int, patch: ListFilters)
    requires patch == NoListFilters.(searchQuery := Defined("ger"))
    ensures N.Lookup(N.ListFilterParams(N.PageAndSize(0, size), patch), N.RegionKey) == None
    ensures N.Lookup(N.ListFilterParams(N.PageAndSize(0, size), patch), N.SearchKey) == Some("ger")
  {
    N.ListFilterParamsDecode(N.PageAndSize(0, size), patch);
  }

  /** From a state without stored filters, the filters sent and the filters stored agree. */
  lemma SetFiltersFromNothing(s: CountriesState, patch: ListFilters)
    requires s.countriesList.filters == NoListFilters
    ensures R.Reduce(s, SetFilters(patch)).countriesList.filters == patch
    ensures E.FollowUp(SetFilters(patch), R.Reduce(s, SetFilters(patch)))
         == Some(LoadCountries(0, s.countriesList.pagination.pageSize, Some(R.Reduce(s, SetFilters(patch)).countriesList.filters)))
  {
  }

  /** Every failed fetch, whatever its status, ends the load cycle: nothing loading, no rows,
      and one of the five translated messages as the error. */
  lemma FailureEndsCycle(s: CountriesState, status: Option<int>)
    ensures var t := R.Reduce(R.Reduce(s, LoadCountries(0, 5, None)), E.OnCountriesFetched(E.Err(status)));
            && ListPhase(t) == Failed
            && t.countriesList.data == []
            && t.countriesList.error.Some?
            && t.countriesList.error.value in {E.CONNECTION_ERROR, E.NOT_FOUND_ERROR, E.SERVER_ERROR,
                                               E.FORBIDDEN_ERROR, E.UNKNOWN_ERROR}
            && Selectors.SelectCountriesListViewModel(t).hasError
            && !Selectors.SelectCountriesListViewModel(t).isReady
  {
    var st := E.ErrorMessage(status);
  }

  /** Every successful fetch ends the load cycle with the envelope's rows shown and no error. */
  lemma SuccessEndsCycle(s: CountriesState, page: Page<CountryDto>)
    ensures var t := R.Reduce(R.Reduce(s, LoadCountries(0, 5, None)), E.OnCountriesFetched(E.Ok(page)));
            && t.countriesList.data == page.content
            && Selectors.SelectCountriesListViewModel(t).isReady
            && Selectors.SelectCountriesListViewModel(t).itemCount == |page.content|
            && Selectors.SelectCountriesListViewModel(t).paginationConfig.totalPages == page.totalPages
  {
  }

  // ---------------------------------------------------------------- scenarios

  /** A first load of five rows out of twenty-three: the spinner shows, then five rows on the
      first of five pages. */
  lemma ScenarioFirstLoad(items: seq<CountryDto>)
    requires |items| == 5
    ensures var loading := R.Reduce(InitialCountriesState, LoadCountries(0, 5, Some(NoListFilters)));
            var envelope := Page(items, Pageable(0, 5, 0), 5, 23);
            var done := R.Reduce(loading, E.OnCountriesFetched(E.Ok(envelope)));
            && loading.countriesList.loading
            && !done.countriesList.loading
            && |done.countriesList.data| == 5
            && done.countriesList.pagination.totalPages == 5
            && ConsistentTotals(done.countriesList.pagination)
  {
  }

  /** Picking a region while on page 3 reloads page 0 at the unchanged size with just that
      region as a filter. */
  lemma ScenarioRegionFromPageThree(s: CountriesState, baseUrl: string)
    requires s.countriesList.pagination.currentPage == 3
    ensures var patch := NoListFilters.(region := Defined("Europe"));
            var t := R.Reduce(s, SetFilters(patch));
            var size := s.countriesList.pagination.pageSize;
            var params := N.GetCountries(baseUrl, Some(0), size, Some(patch)).params;
            && t.countriesList.pagination.currentPage == 0
            && E.FollowUp(SetFilters(patch), t) == Some(LoadCountries(0, size, Some(patch)))
            && N.Keys(params) == [N.PageKey, N.SizeKey, N.RegionKey]
            && N.Lookup(params, N.PageKey) == Some("0")
            && N.Lookup(params, N.SizeKey) == Some(Decimal.IntToString(size))
            && N.Lookup(params, N.RegionKey) == Some("Europe")
  {
    var patch := NoListFilters.(region := Defined("Europe"));
    var size := s.countriesList.pagination.pageSize;
    SetFiltersCycle(s, patch);
    RegionOnlyQuery(size, patch);
  }

  lemma RegionOnlyQuery(size: int, patch: ListFilters)
    requires patch == NoListFilters.(region := Defined("Europe"))
    ensures var params := N.ListFilterParams(N.PageAndSize(0, size), patch);
            && N.Keys(params) == [N.PageKey, N.SizeKey, N.RegionKey]
            && N.Lookup(params, N.PageKey) == Some("0")
            && N.Lookup(params, N.SizeKey) == Some(Decimal.IntToString(size))
            && N.Lookup(params, N.RegionKey) == Some("Europe")
  {
    RegionOnlyIsOneSet(N.PageAndSize(0, size), patch);
    N.PageAndSizeThenSet(0, size, N.RegionKey, "Europe");
    ZeroText();
  }

  /** With only a region given, the filter part of the query is one `set` of the region. */
  lemma RegionOnlyIsOneSet(p: N.Params, patch: ListFilters)
    requires patch == NoListFilters.(region := Defined("Europe"))
    ensures N.ListFilterParams(p, patch) == N.SetParam(p, N.RegionKey, "Europe")
  {
    var es := N.ListFilterEntries(patch);
    assert es[0] == (N.RegionKey, Some("Europe"));
    N.SetAllFirstOnly(p, es);
  }

  lemma ZeroText()
    ensures Decimal.IntToString(0) == "0"
  {
  }

  /** An unreachable server (status 0) ends the load with the connection message and no rows. */
  lemma ScenarioConnectionLost(s: CountriesState)
    ensures var t := R.Reduce(R.Reduce(s, LoadCountries(0, 5, None)), E.OnCountriesFetched(E.Err(Some(0))));
            && t.countriesList.error == Some("NATIONS-error.connection")
            && t.countriesList.data == []
            && !t.countriesList.loading
  {
  }

  /** A country with no languages: after selecting it and receiving an empty list, the
      languages view is ready, error-free and empty, and still shows the country. */
  lemma ScenarioNoLanguages(s: CountriesState, country: CountryDto, countryId: int)
    ensures var selected := R.Reduce(s, SetSelectedCountry(country));
            var requested := R.Reduce(selected, LoadCountryLanguages(countryId));
            var done := R.Reduce(requested, E.OnLanguagesFetched(E.Ok([])));
            var vm := Selectors.SelectCountryLanguagesViewModel(done);
            && !vm.hasLanguages && vm.isReady && !vm.hasError
            && vm.selectedCountry == Some(country)
  {
  }
}
