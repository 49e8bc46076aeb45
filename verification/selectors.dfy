/** The memoised projections the screens read: each view model gathers a slice's rows,
    its loading flag and error, the derived booleans the templates test, and the
    configuration handed to the pagination control. */
module Selectors {
  import opened Wrappers
  import opened CountryModels
  import opened State
  import P = PaginationComponent

  datatype ListViewModel<T> = ListViewModel(
    items: seq<T>,
    loading: bool,
    error: Option<string>,
    hasItems: bool,
    itemCount: int,
    hasError: bool,
    isReady: bool,
    paginationConfig: P.PaginationConfig)

  datatype LanguagesViewModel = LanguagesViewModel(
    selectedCountry: Option<CountryDto>,
    languages: seq<LanguageDto>,
    loading: bool,
    error: Option<string>,
    hasLanguages: bool,
    languageCount: int,
    hasError: bool,
    isReady: bool)

  /** The overview's view model extends the list one with the sort settings. */
  datatype OverviewViewModel = OverviewViewModel(
    list: ListViewModel<CountryStatsOverviewDto>,
    sortBy: Option<string>,
    direction: Option<Direction>)

  /** A JavaScript truthiness test on `string | null`: the empty string is falsy. */
  predicate Truthy(error: Option<string>) {
    error.Some? && error.value != ""
  }

  /** The pagination control's input: the slice's four numbers with both button groups on
      and the given window size. */
  function ConfigOf(p: PaginationState, maxVisible: int): (c: P.PaginationConfig)
    ensures c.currentPage == p.currentPage && c.pageSize == p.pageSize
    ensures c.totalElements == p.totalElements && c.totalPages == p.totalPages
    ensures c.showFirstLast == Some(true) && c.showPrevNext == Some(true)
    ensures c.maxVisiblePages == Some(maxVisible)
  {
    P.PaginationConfig(p.currentPage, p.totalPages, p.totalElements, p.pageSize,
                       Some(true), Some(true), Some(maxVisible))
  }

  const ListWindow := 3
  const StatsWindow := 5
  const OverviewWindow := 3

  /** The countries list's control input: its four numbers, both button groups, three pages. */
  function SelectPaginationConfig(s: CountriesState): (c: P.PaginationConfig)
    ensures c.currentPage == s.countriesList.pagination.currentPage
    ensures c.pageSize == s.countriesList.pagination.pageSize
    ensures c.totalElements == s.countriesList.pagination.totalElements
    ensures c.totalPages == s.countriesList.pagination.totalPages
    ensures c.showFirstLast == Some(true) && c.showPrevNext == Some(true)
    ensures c.maxVisiblePages == Some(3)
  {
    ConfigOf(s.countriesList.pagination, ListWindow)
  }

  /** The statistics' control input: its four numbers, both button groups, five pages. */
  function SelectCountryStatsPaginationConfig(s: CountriesState): (c: P.PaginationConfig)
    ensures c.currentPage == s.countryStats.pagination.currentPage
    ensures c.pageSize == s.countryStats.pagination.pageSize
    ensures c.totalElements == s.countryStats.pagination.totalElements
    ensures c.totalPages == s.countryStats.pagination.totalPages
    ensures c.showFirstLast == Some(true) && c.showPrevNext == Some(true)
    ensures c.maxVisiblePages == Some(5)
  {
    ConfigOf(s.countryStats.pagination, StatsWindow)
  }

  /** The overview's control input: its four numbers, both button groups, three pages. */
  function SelectCountryStatsOverviewPaginationConfig(s: CountriesState): (c: P.PaginationConfig)
    ensures c.currentPage == s.countryStatsOverview.pagination.currentPage
    ensures c.pageSize == s.countryStatsOverview.pagination.pageSize
    ensures c.totalElements == s.countryStatsOverview.pagination.totalElements
    ensures c.totalPages == s.countryStatsOverview.pagination.totalPages
    ensures c.showFirstLast == Some(true) && c.showPrevNext == Some(true)
    ensures c.maxVisiblePages == Some(3)
  {
    ConfigOf(s.countryStatsOverview.pagination, OverviewWindow)
  }

  /** The shared shape of the countries and statistics view models, where an error is any
      non-null value. */
  function PaginatedView<T>(data: seq<T>, loading: bool, error: Option<string>,
                            config: P.PaginationConfig): (vm: ListViewModel<T>)
    ensures vm.items == data && vm.loading == loading && vm.error == error
    ensures vm.hasItems <==> |data| > 0
    ensures vm.itemCount == |data|
    ensures vm.hasError <==> error.Some?
    ensures vm.isReady <==> PhaseOf(loading, error, data) in {Idle, Loaded}
    ensures vm.paginationConfig == config
  {
    var hasError := error != None;
    ListViewModel(data, loading, error, |data| > 0, |data|, hasError, !loading && !hasError, config)
  }

  function SelectCountriesListViewModel(s: CountriesState): (vm: ListViewModel<CountryDto>)
    ensures vm.items == s.countriesList.data
    ensures vm.loading == s.countriesList.loading && vm.error == s.countriesList.error
    ensures vm.hasItems <==> |vm.items| > 0
    ensures vm.itemCount == |vm.items|
    ensures vm.isReady <==> ListPhase(s) in {Idle, Loaded}
    ensures vm.hasError <==> s.countriesList.error.Some?
    ensures vm.paginationConfig == SelectPaginationConfig(s)
    ensures vm.paginationConfig.maxVisiblePages == Some(3)
  {
    PaginatedView(s.countriesList.data, s.countriesList.loading, s.countriesList.error,
                  SelectPaginationConfig(s))
  }

  function SelectCountryStatsViewModel(s: CountriesState): (vm: ListViewModel<CountryStats>)
    ensures vm.items == s.countryStats.data
    ensures vm.loading == s.countryStats.loading && vm.error == s.countryStats.error
    ensures vm.hasItems <==> |vm.items| > 0
    ensures vm.itemCount == |vm.items|
    ensures vm.isReady <==> StatsPhase(s) in {Idle, Loaded}
    ensures vm.hasError <==> s.countryStats.error.Some?
    ensures vm.paginationConfig == SelectCountryStatsPaginationConfig(s)
    ensures vm.paginationConfig.maxVisiblePages == Some(5)
  {
    PaginatedView(s.countryStats.data, s.countryStats.loading, s.countryStats.error,
                  SelectCountryStatsPaginationConfig(s))
  }

  function SelectCountryLanguagesViewModel(s: CountriesState): (vm: LanguagesViewModel)
    ensures vm.selectedCountry == s.countryLanguages.selectedCountry
    ensures vm.languages == s.countryLanguages.data
    ensures vm.loading == s.countryLanguages.loading && vm.error == s.countryLanguages.error
    ensures vm.hasLanguages <==> |vm.languages| > 0
    ensures vm.languageCount == |vm.languages|
    ensures vm.hasError <==> s.countryLanguages.error.Some?
    ensures vm.isReady <==> LanguagesPhase(s) in {Idle, Loaded}
  {
    var l := s.countryLanguages;
    var hasError := l.error != None;
    LanguagesViewModel(l.selectedCountry, l.data, l.loading, l.error, |l.data| > 0, |l.data|,
                       hasError, !l.loading && !hasError)
  }

  /** The overview view model tests its error for truthiness rather than against null, and
      passes the stored sort settings through. */
  function SelectCountryStatsOverviewViewModel(s: CountriesState): (vm: OverviewViewModel)
    ensures vm.list.items == s.countryStatsOverview.data
    ensures vm.list.loading == s.countryStatsOverview.loading && vm.list.error == s.countryStatsOverview.error
    ensures vm.list.hasItems <==> |vm.list.items| > 0
    ensures vm.list.itemCount == |vm.list.items|
    ensures vm.list.hasError <==> Truthy(s.countryStatsOverview.error)
    ensures vm.list.isReady <==> !s.countryStatsOverview.loading && !Truthy(s.countryStatsOverview.error)
    ensures vm.list.paginationConfig == SelectCountryStatsOverviewPaginationConfig(s)
    ensures vm.sortBy == s.countryStatsOverview.filters.sortBy
    ensures vm.direction == s.countryStatsOverview.filters.direction
  {
    var o := s.countryStatsOverview;
    var hasError := Truthy(o.error);
    OverviewViewModel(
      ListViewModel(o.data, o.loading, o.error, |o.data| > 0, |o.data|, hasError,
                    !o.loading && !hasError, SelectCountryStatsOverviewPaginationConfig(s)),
      o.filters.sortBy,
      o.filters.direction)
  }

  /** An empty error message is an error to the countries list but not to the overview:
      the two view models disagree on the same stored value. */
  lemma EmptyErrorReadsDifferently(s: CountriesState)
    requires s.countriesList.error == Some("") && s.countryStatsOverview.error == Some("")
    requires !s.countriesList.loading && !s.countryStatsOverview.loading
    ensures SelectCountriesListViewModel(s).hasError && !SelectCountriesListViewModel(s).isReady
    ensures !SelectCountryStatsOverviewViewModel(s).list.hasError
    ensures SelectCountryStatsOverviewViewModel(s).list.isReady
  {
  }

  /** For every non-empty message the overview's truthiness test and the other view models'
      null test agree. */
  lemma NonEmptyErrorsAgree(error: Option<string>)
    requires error != Some("")
    ensures Truthy(error) <==> error.Some?
  {
  }

  /** A view model is never ready while its slice shows an error or a request in flight, and
      an idle view model is ready with nothing to show. */
  lemma ReadyExcludesErrorAndLoading(s: CountriesState)
    ensures SelectCountriesListViewModel(s).isReady ==>
      !SelectCountriesListViewModel(s).hasError && !SelectCountriesListViewModel(s).loading
    ensures ListPhase(s) == Idle ==>
      SelectCountriesListViewModel(s).isReady && !SelectCountriesListViewModel(s).hasItems
  {
  }
}
