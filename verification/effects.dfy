/** The effects of the countries store, with the stream plumbing removed: each effect is a
    pure function from the triggering action and the state the reducer produced for it to
    the action the effect dispatches next. Fetch results are inputs. */
module Effects {
  import opened Wrappers
  import opened CountryModels
  import opened State
  import opened Actions

  /** The outcome of one backend call: a value, or an error carrying an HTTP status (absent
      when the error is not an HTTP error). */
  datatype Fetch<T> = Ok(value: T) | Err(status: Option<int>)

  const CONNECTION_ERROR := "NATIONS-error.connection"
  const NOT_FOUND_ERROR := "NATIONS-error.notFound"
  const SERVER_ERROR := "NATIONS-error.server"
  const FORBIDDEN_ERROR := "NATIONS-error.forbidden"
  const UNKNOWN_ERROR := "NATIONS-error.unknown"

  /** The translation key shown for a failed call, decided by the status checks in source order. */
  function ErrorMessage(status: Option<int>): (m: string)
    ensures m in {CONNECTION_ERROR, NOT_FOUND_ERROR, SERVER_ERROR, FORBIDDEN_ERROR, UNKNOWN_ERROR}
  {
    if status == Some(0) then CONNECTION_ERROR
    else if status == Some(404) then NOT_FOUND_ERROR
    else if status.Some? && status.value >= 500 then SERVER_ERROR
    else if status == Some(403) then FORBIDDEN_ERROR
    else UNKNOWN_ERROR
  }

  /** The error taxonomy, defined by status class rather than by test order. */
  datatype ErrorCode = Connection | NotFound | Server | Forbidden | Unknown

  function Classify(status: Option<int>): ErrorCode {
    match status
    case None => Unknown
    case Some(st) =>
      if st == 0 then Connection
      else if st == 403 then Forbidden
      else if st == 404 then NotFound
      else if 500 <= st then Server
      else Unknown
  }

  function MessageOf(c: ErrorCode): string {
    match c
    case Connection => CONNECTION_ERROR
    case NotFound => NOT_FOUND_ERROR
    case Server => SERVER_ERROR
    case Forbidden => FORBIDDEN_ERROR
    case Unknown => UNKNOWN_ERROR
  }

  /** The message the effect stores is the message of the status's class, and distinct
      classes get distinct messages, so every failure maps to exactly one class. */
  lemma ErrorMessageClassifies(status: Option<int>)
    ensures ErrorMessage(status) == MessageOf(Classify(status))
  {
  }

  lemma MessagesDistinct(c: ErrorCode, d: ErrorCode)
    ensures MessageOf(c) == MessageOf(d) ==> c == d
  {
  }

  /** The follow-up load dispatched by `setCurrentPage$`, `setPageSize$`,
      `initializePagination$`, `setFilters$`, `clearFilters$`, `setCountryStatsPage$` and
      `setCountryStatsPageSize$`, given the state after the triggering action. Other actions
      trigger none of these effects. */
  function FollowUp(a: Action, s: CountriesState): (r: Option<Action>)
    ensures r.Some? <==> (|| a.SetCurrentPage? || a.SetPageSize? || a.InitializePagination?
                          || a.SetFilters? || a.ClearFilters?
                          || a.SetCountryStatsPage? || a.SetCountryStatsPageSize?)
    ensures r.Some? && (a.SetCountryStatsPage? || a.SetCountryStatsPageSize?)
            ==> r.value.LoadCountryStats?
    ensures r.Some? && !(a.SetCountryStatsPage? || a.SetCountryStatsPageSize?)
            ==> r.value.LoadCountries?
  {
    var list := s.countriesList;
    match a
    case SetCurrentPage(page) => Some(LoadCountries(page, list.pagination.pageSize, Some(list.filters)))
    case SetPageSize(size) => Some(LoadCountries(0, size, Some(list.filters)))
    case InitializePagination(page, size) => Some(LoadCountries(page, size, Some(list.filters)))
    case SetFilters(patch) => Some(LoadCountries(0, list.pagination.pageSize, Some(patch)))
    case ClearFilters => Some(LoadCountries(0, list.pagination.pageSize, Some(NoListFilters)))
    case SetCountryStatsPage(page) => Some(LoadCountryStats(page, s.countryStats.pagination.pageSize))
    case SetCountryStatsPageSize(size) => Some(LoadCountryStats(0, size))
    case _ => None
  }

  /** `loadCountries$` once its call completes. */
  function OnCountriesFetched(outcome: Fetch<Page<CountryDto>>): (r: Action)
    ensures r.LoadCountriesSuccess? <==> outcome.Ok?
    ensures r.LoadCountriesSuccess? ==> r.countriesPage == outcome.value
    ensures r.LoadCountriesFailure? <==> outcome.Err?
    ensures r.LoadCountriesFailure? ==> r.error == MessageOf(Classify(outcome.status))
  {
    ErrorMessageClassifies(if outcome.Err? then outcome.status else None);
    match outcome
    case Ok(response) => LoadCountriesSuccess(response)
    case Err(status) => LoadCountriesFailure(ErrorMessage(status))
  }

  /** `loadCountryLanguages$` once its call completes. */
  function OnLanguagesFetched(outcome: Fetch<seq<LanguageDto>>): (r: Action)
    ensures r.LoadCountryLanguagesSuccess? <==> outcome.Ok?
    ensures r.LoadCountryLanguagesSuccess? ==> r.languages == outcome.value
    ensures r.LoadCountryLanguagesFailure? <==> outcome.Err?
    ensures r.LoadCountryLanguagesFailure? ==> r.error == MessageOf(Classify(outcome.status))
  {
    ErrorMessageClassifies(if outcome.Err? then outcome.status else None);
    match outcome
    case Ok(languages) => LoadCountryLanguagesSuccess(languages)
    case Err(status) => LoadCountryLanguagesFailure(ErrorMessage(status))
  }

  /** `loadCountryStats$` once its call completes. */
  function OnStatsFetched(outcome: Fetch<Page<CountryStats>>): (r: Action)
    ensures r.LoadCountryStatsSuccess? <==> outcome.Ok?
    ensures r.LoadCountryStatsSuccess? ==> r.statsPage == outcome.value
    ensures r.LoadCountryStatsFailure? <==> outcome.Err?
    ensures r.LoadCountryStatsFailure? ==> r.error == MessageOf(Classify(outcome.status))
  {
    ErrorMessageClassifies(if outcome.Err? then outcome.status else None);
    match outcome
    case Ok(response) => LoadCountryStatsSuccess(response)
    case Err(status) => LoadCountryStatsFailure(ErrorMessage(status))
  }
}
