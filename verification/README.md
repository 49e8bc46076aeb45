# Countries store of the nations front end, in Dafny

A model of the pure core of an Angular front end that browses countries, their languages and
per-country statistics through a REST backend. State lives in an NgRx store. The model covers
the following parts:

- **State.** The store state (`CountriesState`) has one slice per screen: the countries list,
  the languages of a selected country, the GDP-per-population statistics, the region and
  year-range management data, and the statistics overview. It starts from the documented
  initial state.
- **Actions.** All 35 action classes, with their `type` strings.
- **Reducer.** The reducer function receives the current state, or none before the store
  starts, and whatever action is dispatched. That action is either one of this store's or an
  action of another feature or of the store itself, which the model knows only by its `type`
  string. A lookup table maps `type` strings to transitions. The model covers every
  transition, and the identity for every type without an entry, foreign types included.
  The table is an object literal, so a lookup also finds the names every object inherits
  from `Object.prototype`. The model gives each of those names what the inherited member
  does: `constructor` hands the state back, `toString` returns text, and the rest throw.
- **Effects.** The effects become functions:
  - the load that follows a page, size, filter or initialisation change, computed from the
    state after the change;
  - the success and failure actions a completed backend call produces;
  - the status-to-message translation of failed calls.
- **Selectors.** The view models the screens read.
- **Requests.** `NationsService` builds HTTP requests, including the query string. The model
  treats `HttpParams` as a map from key to value plus the order in which keys were first set.
  It also models how a backend reads the query back.
- **Pagination control.** The visible page buttons, the ellipses, the "items X to Y" caption,
  and the page each button asks for.
- **Pagination helper service.** Its projections of a view model.
- **Countries-list screen.** Its intents and its row numbering.
- **Countries-search screen.** A self-contained state machine with its own filters and mocked
  results.

The `Dataflow` module ties the parts together. An intent is reduced, the effect reads the new
state and emits a load, the load becomes a request, and the outcome is reduced and selected
again.

Modules, one per file:
- `Wrappers` (`wrappers.dfy`): `Option`, and `Slot` for a property as the spread operator sees it.
- `Decimal` (`decimal.dfy`): `toString` of integers and its inverse.
- `CountryModels` (`models.dfy`): the DTOs, the `Page` envelope and the filter objects.
- `State` (`state.dfy`), `Actions` (`actions.dfy`), `Reducer` (`reducer.dfy`), `Effects`
  (`effects.dfy`), `Selectors` (`selectors.dfy`).
- `NationsService` (`nations_service.dfy`).
- `PaginationComponent` (`pagination.dfy`), `PaginationHelper` (`pagination_helper.dfy`).
- `CountriesList` (`countries_list.dfy`), `CountriesSearch` (`countries_search.dfy`).
- `ReducerLaws` (`reducer_laws.dfy`): laws over all states and actions.
- `Dataflow` (`dataflow.dfy`): the end-to-end cycle and worked scenarios.

Two readings of the code are worth stating up front:

- **Reducer fields.** The reducer's transition helpers are written against flat field names
  (`countries`, `loading`, `pagination`, `languagesLoading`, `countryStatsPagination`, …), but
  `state.ts` declares a state nested by slice. The model applies each group of flat fields to
  the slice it names:
  - the countries fields act on `countriesList`;
  - the language fields and `selectedCountry` act on `countryLanguages`;
  - the statistics fields act on `countryStats`.

  Read literally, the helpers would write keys that no selector reads. The nested shape is the
  one the selectors, the effects and the screens all use.
- **Reset source.** `resetPagination` (`countries.reducer.ts:96-101`) also *reads* a flat
  field: it spreads `initialCountriesState.pagination`. The nested initial state has no such
  field. Read literally, the spread copies nothing and the list would be left with an empty
  pagination object. The model restores the list's own initial pagination instead
  (`state.ts:61-66`: page 0, five rows, zero totals). That is the only pagination the list
  starts with, and it applies the same slice mapping to the read as to the writes.
- **Reducer dispatch.** The lookup table is keyed by `type` string. The model matches on the
  action class instead. `Actions.TypeOfDecodes` proves the `type` strings and the classes are
  in one-to-one correspondence. `ReducerLaws.HandledExactly` proves that the keys of the table
  are exactly the types of the list, language and statistics actions, and that every other
  action leaves the state unchanged.

## Model

| member | source | states |
|---|---|---|
| State.InitialStateIdle | src/app/shared/store/state.ts:56-104 | The initial state is well formed. Every slice is idle and error-free. Every paginated slice is on page 0 with five rows and consistent zero totals. No country is selected and no list filter is present. |
| State.PhaseOf | src/app/shared/store/state.ts:22-25 | A slice's loading flag and error determine its phase: loading exactly when the flag is set, failed exactly when it is not loading and an error is stored, loaded only with rows. |
| Wrappers.Spread | src/app/shared/store/countries.reducer.ts:72-75 | `{...older, ...newer}` on one key: a key the newer object carries wins, even when it is `undefined`; otherwise the older value stays. |
| Actions.TypeOf | src/app/shared/store/countries.actions.ts:12-62 | Every action carries its class's `type` string. None of them is the store's own start-up or reducer-update type. |
| Actions.Tag | src/app/shared/store/countries.actions.ts:64-255 | Every action class has a position below 35 in the declaration order. `Actions.TypeOfDecodes` ties that position to the `type` string. |
| Actions.TagOfType | src/app/shared/store/countries.actions.ts:12-62 | A decoded `type` string names one of the 35 classes. |
| Actions.ListTypesDecode | src/app/shared/store/countries.actions.ts:12-22 | Each of the eleven list `type` strings decodes to its own class. |
| Actions.LanguagesTypesDecode | src/app/shared/store/countries.actions.ts:24-30 | Each of the five language `type` strings decodes to its own class. |
| Actions.StatsTypesDecode | src/app/shared/store/countries.actions.ts:32-40 | Each of the six statistics `type` strings decodes to its own class. |
| Actions.ManagementTypesDecode | src/app/shared/store/countries.actions.ts:41-48 | Each of the six region and year-range `type` strings decodes to its own class. |
| Actions.OverviewLoadTypesDecode | src/app/shared/store/countries.actions.ts:49-54 | Each of the three overview load `type` strings decodes to its own class. |
| Actions.OverviewSetTypesDecode | src/app/shared/store/countries.actions.ts:55-62 | Each of the four remaining overview `type` strings decodes to its own class. |
| Actions.TypeOfDecodes | src/app/shared/store/countries.actions.ts:12-62 | Decoding the `type` string of any action recovers its class. |
| Actions.TypeOfInjective | src/app/shared/store/countries.actions.ts:12-62 | Two actions with the same `type` string are of the same class: the 35 strings are pairwise distinct. |
| Reducer.StartLoading | src/app/shared/store/countries.reducer.ts:6-10 | A countries load enters the loading phase with the error cleared. Rows, pagination, filters and every other slice are kept. |
| Reducer.EndLoading | src/app/shared/store/countries.reducer.ts:12-15 | Only the list's loading flag is cleared. |
| Reducer.LoadCountriesSuccess | src/app/shared/store/countries.reducer.ts:17-32 | A successful load stops loading and clears the error. The rows become the envelope's content. Page, size and totals are copied from the envelope. Filters and the other slices are kept. |
| Reducer.LoadCountriesFailure | src/app/shared/store/countries.reducer.ts:34-42 | A failed load stops loading, stores the message and empties the rows. Pagination and filters are kept. |
| Reducer.SetCurrentPage | src/app/shared/store/countries.reducer.ts:44-53 | Only the list's current page changes, to the requested one. |
| Reducer.SetPageSize | src/app/shared/store/countries.reducer.ts:55-65 | The list gets the new size and returns to page 0. Totals and everything else are kept. |
| Reducer.MergeFilters | src/app/shared/store/countries.reducer.ts:72-75 | For each of the four keys: the patch's entry wins when present, even when `undefined`, else the stored one stays. |
| Reducer.SetFilters | src/app/shared/store/countries.reducer.ts:67-80 | The stored filters become the merge of the stored ones and the patch. The list returns to page 0. Rows, flags and other slices are kept. |
| Reducer.ClearFilters | src/app/shared/store/countries.reducer.ts:82-94 | All four filter keys read as unset and the list returns to page 0. Nothing else changes. |
| Reducer.ResetPagination | src/app/shared/store/countries.reducer.ts:96-101 | The list's pagination is restored to the initial one. Nothing else changes. |
| Reducer.InitializePagination | src/app/shared/store/countries.reducer.ts:103-113 | Page and size are set together. Totals and everything else are kept. |
| Reducer.ClearCountries | src/app/shared/store/countries.reducer.ts:115-123 | Rows are emptied and totals zeroed. Page, size, error, loading flag and filters are kept. |
| Reducer.ResetError | src/app/shared/store/countries.reducer.ts:125-128 | Only the list's error is cleared. |
| Reducer.StartLoadingLanguages | src/app/shared/store/countries.reducer.ts:131-135 | The languages slice enters the loading phase with no error. Its rows and selection are kept. |
| Reducer.LoadCountryLanguagesSuccess | src/app/shared/store/countries.reducer.ts:137-145 | The languages arrive: not loading, no error. The selection is kept. |
| Reducer.LoadCountryLanguagesFailure | src/app/shared/store/countries.reducer.ts:147-155 | The languages slice fails with the message and no rows. The selection is kept. |
| Reducer.ClearCountryLanguages | src/app/shared/store/countries.reducer.ts:157-161 | Languages are emptied and the error cleared. The loading flag and the selection are left as they were. |
| Reducer.SetSelectedCountry | src/app/shared/store/countries.reducer.ts:163-169 | Only the selected country changes. |
| Reducer.StartLoadingCountryStats | src/app/shared/store/countries.reducer.ts:172-176 | The statistics slice enters the loading phase with no error. Rows and pagination are kept. |
| Reducer.LoadCountryStatsSuccess | src/app/shared/store/countries.reducer.ts:178-193 | The statistics rows and pagination come from the envelope, with no error and not loading. |
| Reducer.LoadCountryStatsFailure | src/app/shared/store/countries.reducer.ts:195-203 | The statistics slice fails with the message and no rows. Pagination is kept. |
| Reducer.SetCountryStatsPage | src/app/shared/store/countries.reducer.ts:205-214 | Only the statistics page changes. |
| Reducer.SetCountryStatsPageSize | src/app/shared/store/countries.reducer.ts:216-226 | The statistics get the new size and return to page 0. Totals are kept. |
| Reducer.ClearCountryStats | src/app/shared/store/countries.reducer.ts:228-237 | Rows are emptied, the error cleared and totals zeroed. Page, size and loading flag are kept. |
| Reducer.Reduce | src/app/shared/store/countries.reducer.ts:240-269 | The table applied to one of this store's actions: no entry touches the region, year-range or overview slices. `ReducerLaws.HandledExactly` states which types have an entry, and `ReducerLaws.SliceIsolation` which slice each one touches. |
| Reducer.Dispatch | src/app/shared/store/countries.reducer.ts:272-282 | The reducer function for a type the lookup misses altogether: a missing state is the initial state, and a foreign action leaves the state as it is. The region, year-range and overview slices never change. |
| Reducer.InheritedCall | src/app/shared/store/countries.reducer.ts:275-277 | Calling an inherited member with the state: only `constructor` returns a state, the same one; `toString` returns text; the others throw. |
| Reducer.Call | src/app/shared/store/countries.reducer.ts:272-282 | The reducer function for every type string: it agrees with `Reducer.Dispatch` wherever the lookup misses, throws exactly for the inherited names other than `constructor` and `toString`, and never changes the region, year-range or overview slices when it returns a state. |
| ReducerLaws.InheritedNamesForeign | src/app/shared/store/countries.actions.ts:12-62 | No inherited name is one of this store's `type` strings. |
| ReducerLaws.InheritedNamesFound | src/app/shared/store/countries.reducer.ts:272-282 | An inherited name is not one of the table's own keys, yet the reducer leaves the state as it is for it only when it is `constructor`; otherwise it returns no state at all. |
| ReducerLaws.ForeignTypesMiss | src/app/shared/store/countries.reducer.ts:240-269 | A `type` string that names none of this store's classes is not a key of the table. |
| ReducerLaws.UnlistedTypesIgnored | src/app/shared/store/countries.reducer.ts:272-282 | Any dispatched action whose type the lookup misses (no entry and no inherited name) leaves the state as it is, or yields the initial state when none exists yet. Exactly this store's list, language and statistics actions find an entry. |
| ReducerLaws.StoreLifecycleActions | src/app/shared/store/countries.reducer.ts:272-282 | The store's start-up action creates the initial state. The start-up and reducer-update actions leave an existing state as it is. |
| ReducerLaws.HandledExactly | src/app/shared/store/countries.reducer.ts:240-282 | The table has an entry exactly for the list, language and statistics types. Region, year-range and overview actions leave the state unchanged. |
| ReducerLaws.SliceIsolation | src/app/shared/store/countries.reducer.ts:240-282 | Every action changes at most the slice its group belongs to. |
| ReducerLaws.OwnSliceNoLoadingWithError | src/app/shared/store/countries.reducer.ts:6-237 | An action never leaves its own slice loading and failed at once. |
| ReducerLaws.PreservesNoLoadingWithError | src/app/shared/store/countries.reducer.ts:6-237 | No transition produces a slice that is loading and shows an error. A start clears the error and every failure clears the flag. |
| ReducerLaws.ReachableNoLoadingWithError | src/app/shared/store/countries.reducer.ts:272-282 | The invariant holds after any sequence of dispatches. |
| ReducerLaws.InitialNoLoadingWithError | src/app/shared/store/state.ts:56-104 | The initial state satisfies the invariant. |
| ReducerLaws.Idempotent | src/app/shared/store/countries.reducer.ts:240-282 | Dispatching any action twice in a row has the effect of dispatching it once. |
| ReducerLaws.MergeIdempotent | src/app/shared/store/countries.reducer.ts:72-75 | Merging the same patch again changes nothing. |
| ReducerLaws.MergeAssociative | src/app/shared/store/countries.reducer.ts:72-75 | Merging is associative. |
| ReducerLaws.MergeWithNothing | src/app/shared/store/countries.reducer.ts:72-75 | The empty filter object is a unit of the merge on both sides. |
| ReducerLaws.SetFiltersCompose | src/app/shared/store/countries.reducer.ts:67-80 | Two filter updates equal one update with the merged patch, the later keys winning. |
| ReducerLaws.PreservesWellFormed | src/app/shared/store/countries.reducer.ts:17-237 | With non-negative pages, positive sizes and in-range envelopes, every slice keeps a non-negative page, a positive size and non-negative totals. |
| ReducerLaws.SuccessKeepsTotalsConsistent | src/app/shared/store/countries.reducer.ts:17-32 | A self-consistent envelope leaves totals consistent with the page size, because the envelope's size is copied rather than the requested one. |
| ReducerLaws.PageResets | src/app/shared/store/countries.reducer.ts:55-226 | A size change, a filter update and clearing the filters all return the list to page 0, and a statistics size change returns the statistics to page 0. Each new size is stored. |
| ReducerLaws.Locality | src/app/shared/store/countries.reducer.ts:240-282 | The owned slice after a transition depends only on that slice before it. |
| ReducerLaws.Commute | src/app/shared/store/countries.reducer.ts:240-282 | Actions about different slices can be applied in either order with the same result. |
| ReducerLaws.LastArrivalWins | src/app/shared/store/countries.effects.ts:20-46 | Responses are reduced in arrival order: an older response that arrives last overwrites the newer rows and pagination. |
| Effects.ErrorMessage | src/app/shared/store/countries.effects.ts:260-271 | A failed call yields one of the five translation keys. |
| Effects.ErrorMessageClassifies | src/app/shared/store/countries.effects.ts:260-271 | The tests in code order give the same key as classifying the status: 0 is connection, 404 is not-found, 500 and above is server, 403 is forbidden, and anything else, including a missing status, is unknown. |
| Effects.MessagesDistinct | src/app/shared/store/countries.effects.ts:260-271 | Different classes get different keys. |
| Effects.FollowUp | src/app/shared/store/countries.effects.ts:48-240 | Exactly the page, size, initialisation and filter actions of the list and the page and size actions of the statistics trigger a load. Statistics actions trigger a statistics load and list actions a countries load. |
| Effects.OnCountriesFetched | src/app/shared/store/countries.effects.ts:20-46 | A completed countries call becomes success with the envelope or failure with the message of its status class. |
| Effects.OnLanguagesFetched | src/app/shared/store/countries.effects.ts:150-170 | A completed languages call becomes success with the list or failure with the class's message. |
| Effects.OnStatsFetched | src/app/shared/store/countries.effects.ts:173-200 | A completed statistics call becomes success with the envelope or failure with the class's message. |
| Selectors.ConfigOf | src/app/shared/store/countries.selectors.ts:113-124 | The control's input carries the slice's four numbers, both button groups on, and the given window size. |
| Selectors.SelectPaginationConfig | src/app/shared/store/countries.selectors.ts:113-124 | The list control gets the list's page, size and totals, both button groups, and a window of 3 pages. |
| Selectors.SelectCountryStatsPaginationConfig | src/app/shared/store/countries.selectors.ts:294-305 | The statistics control gets the statistics' page, size and totals, both button groups, and a window of 5 pages. |
| Selectors.SelectCountryStatsOverviewPaginationConfig | src/app/shared/store/countries.selectors.ts:420-431 | The overview control gets the overview's page, size and totals, both button groups, and a window of 3 pages. |
| Selectors.PaginatedView | src/app/shared/store/countries.selectors.ts:92-111 | A view model has items exactly when there are rows, counts them, and has an error exactly when one is stored (`!== null`). It is ready exactly when idle or loaded. |
| Selectors.SelectCountriesListViewModel | src/app/shared/store/countries.selectors.ts:126-154 | The list view model shows the list's rows, loading flag and error, whether there are rows, and how many. It is ready exactly when the list is idle or loaded. It has an error exactly when one is stored. It shows a window of 3 pages. |
| Selectors.SelectCountryStatsViewModel | src/app/shared/store/countries.selectors.ts:337-365 | The statistics view model shows the statistics rows, loading flag, error, row presence, count and readiness, with a window of 5 pages. |
| Selectors.SelectCountryLanguagesViewModel | src/app/shared/store/countries.selectors.ts:307-335 | The languages view model shows the selection, the languages, their loading flag and error, their count and the readiness. |
| Selectors.SelectCountryStatsOverviewViewModel | src/app/shared/store/countries.selectors.ts:387-419 | The overview view model tests its error for truthiness, and it carries the sort settings from the filters. |
| Selectors.EmptyErrorReadsDifferently | src/app/shared/store/countries.selectors.ts:403-406 | An empty error message is an error to the list view model but not to the overview, which reports ready. |
| Selectors.NonEmptyErrorsAgree | src/app/shared/store/countries.selectors.ts:405-406 | For every other message the truthiness test and the `!== null` test agree. |
| Selectors.ReadyExcludesErrorAndLoading | src/app/shared/store/countries.selectors.ts:107-111 | A ready view model has nothing in flight and no error. An idle list is ready with nothing to show. |
| NationsService.NameDecodes | src/app/shared/services/nations.service.ts:28-117 | Each query key's wire name (`page`, `size`, `region`, `search`, …) decodes back to the key. |
| NationsService.NamesDistinct | src/app/shared/services/nations.service.ts:28-117 | Different keys have different wire names. |
| NationsService.SetParam | src/app/shared/services/nations.service.ts:28-30 | `HttpParams.set`: the key now reads the value, no other key changes, and no key is dropped from the order. |
| NationsService.SetParamValid | src/app/shared/services/nations.service.ts:28-45 | `set` keeps the query well formed. A key already present keeps its place; a new key goes last. |
| NationsService.PageAndSize | src/app/shared/services/nations.service.ts:28-30 | Every paged query starts with `page` then `size`, carrying their decimal text, and nothing else. |
| NationsService.PageAndSizeValid | src/app/shared/services/nations.service.ts:28-30 | That prefix is well formed. |
| NationsService.PageAndSizeThenSet | src/app/shared/services/nations.service.ts:28-34 | A further key set after the prefix goes third. |
| NationsService.KeepString | src/app/shared/services/nations.service.ts:33-38 | A string filter passes its guard exactly when present and non-empty, and is then sent as is. |
| NationsService.KeepNumber | src/app/shared/services/nations.service.ts:39-44 | A number filter passes its guard exactly when present and non-zero. |
| NationsService.NumberText | src/app/shared/services/nations.service.ts:39-44 | A passed number filter is sent as text that reads back as the number. |
| NationsService.SetAll | src/app/shared/services/nations.service.ts:32-45 | The guarded `params = params.set(...)` chain: the query never ends up with fewer keys, and each guarded `set` adds at most one. What each key reads afterwards is `NationsService.SetAllLookup`. |
| NationsService.SetAllLookup | src/app/shared/services/nations.service.ts:32-45 | After a run of guarded `set`s a key reads what was last sent for it, or what it held before. |
| NationsService.SetAllKeys | src/app/shared/services/nations.service.ts:32-45 | Guarded `set`s only append keys. |
| NationsService.SetAllValid | src/app/shared/services/nations.service.ts:32-45 | Guarded `set`s keep the query well formed. |
| NationsService.SetAllUnsent | src/app/shared/services/nations.service.ts:32-45 | If every guard fails, the query is unchanged. |
| NationsService.SetAllFirstOnly | src/app/shared/services/nations.service.ts:32-45 | If only the first guard passes, the result is that one `set`. |
| NationsService.SentAt | src/app/shared/services/nations.service.ts:32-45 | With pairwise different keys, the key at a position reads what that position's guard sent. |
| NationsService.SentNone | src/app/shared/services/nations.service.ts:32-45 | A key that no guard names is never sent. |
| NationsService.ListFilterEntries | src/app/shared/services/nations.service.ts:32-45 | The list filters are four guarded `set`s, each on a list-filter key. |
| NationsService.GetCountries | src/app/shared/services/nations.service.ts:23-50 | Without a filter object the query is just page (default 0) and size. |
| NationsService.GetCountryLanguages | src/app/shared/services/nations.service.ts:52-56 | The languages request has no query parameters. |
| NationsService.GetMaxGdpPerPopulationStats | src/app/shared/services/nations.service.ts:58-70 | The statistics query is page (default 0) and size (default 20). |
| NationsService.OverviewFilterEntries | src/app/shared/services/nations.service.ts:91-119 | The overview filters are nine guarded `set`s, each on an overview key. |
| NationsService.GetCountryStatsOverview | src/app/shared/services/nations.service.ts:72-125 | Without filters the overview query is page (default 0) and size (default 10). |
| NationsService.GetRegions | src/app/shared/services/nations.service.ts:127-131 | The regions request has no query parameters. |
| NationsService.GetYearRange | src/app/shared/services/nations.service.ts:133-137 | The year-range request has no query parameters. |
| NationsService.OverviewPathsDistinct | src/app/shared/services/nations.service.ts:72-137 | The overview, regions and year-range requests go to the configured server, each at its own path. |
| NationsService.ReadNumberText | src/app/shared/services/nations.service.ts:39-44 | A number sent through its guard is read back as the kept number. |
| NationsService.EntryLands | src/app/shared/services/nations.service.ts:32-45 | Over a prefix without filter keys, each list filter entry lands on its key as sent. |
| NationsService.ListFilterParamsDecode | src/app/shared/services/nations.service.ts:32-45 | Decoding the filter part recovers exactly the truthy filters. |
| NationsService.FalsyListFiltersSendNothing | src/app/shared/services/nations.service.ts:32-45 | A filter object with every key falsy adds no parameter. |
| NationsService.FalsyListFiltersRequest | src/app/shared/services/nations.service.ts:23-50 | With such a filter object `getCountries` sends the same request as without one. |
| NationsService.ListFiltersKeepOthers | src/app/shared/services/nations.service.ts:32-45 | List filters never touch a key outside their own four. |
| NationsService.CountriesQueryRoundTrip | src/app/shared/services/nations.service.ts:23-50 | A server reads back the page (default 0), the size and exactly the truthy filters: `""` and `0` are dropped and `searchQuery` travels as `search`. |
| NationsService.CountriesQueryShape | src/app/shared/services/nations.service.ts:23-50 | The countries query is well formed and starts with `page`, `size`. Without filters it holds nothing else. |
| NationsService.DirectionRoundTrip | src/app/shared/services/nations.service.ts:116-118 | The sort direction reads back as sent. |
| NationsService.OverviewEntriesDistinct | src/app/shared/services/nations.service.ts:91-119 | The nine overview entries name nine different keys. |
| NationsService.OverviewEntryLands | src/app/shared/services/nations.service.ts:91-119 | Each overview entry lands on its key as sent. |
| NationsService.OverviewFilterParamsDecode | src/app/shared/services/nations.service.ts:91-119 | Decoding the overview filter part recovers exactly the truthy overview filters. |
| NationsService.OverviewFiltersKeepOthers | src/app/shared/services/nations.service.ts:91-119 | Overview filters never touch a key outside their own nine. |
| NationsService.OverviewQueryRoundTrip | src/app/shared/services/nations.service.ts:72-125 | A server reads back the overview page (default 0), size (default 10) and exactly the truthy filters. |
| NationsService.OverviewQueryShape | src/app/shared/services/nations.service.ts:72-125 | The overview query is well formed and starts with `page`, `size`. |
| NationsService.StatsQuery | src/app/shared/services/nations.service.ts:58-70 | The statistics query is exactly `page`, `size`, reading back as the page (default 0) and size (default 20). |
| NationsService.LanguagesPathCarriesId | src/app/shared/services/nations.service.ts:52-56 | The languages path is the fixed prefix followed by text that reads back as the country id. |
| Decimal.NatToString | src/app/shared/services/nations.service.ts:29-30 | The text written for a non-negative number is a non-empty run of decimal digits with no leading zero. |
| Decimal.IntToString | src/app/shared/services/nations.service.ts:29-30 | `toString` of an integral number: non-empty text that starts with a minus sign exactly when the number is negative. `Decimal.IntRoundTrip` reads it back. |
| Decimal.NatRoundTrip | src/app/shared/services/nations.service.ts:28-30 | The digits written for a non-negative number read back as that number. |
| Decimal.IntRoundTrip | src/app/shared/services/nations.service.ts:28-30 | The decimal text `toString` writes reads back as the same number. |
| Decimal.IntToStringInjective | src/app/shared/services/nations.service.ts:28-30 | Different numbers are written differently. |
| PaginationComponent.Range | src/app/shared/components/pagination/pagination.component.ts:53-55 | A counting loop pushes exactly `lo`, `lo + 1`, … below `hi`. |
| PaginationComponent.WindowFits | src/app/shared/components/pagination/pagination.component.ts:57-67 | With more pages than fit, the window holds exactly `maxVisiblePages` existing pages, including the current one when it exists. |
| PaginationComponent.VisiblePages | src/app/shared/components/pagination/pagination.component.ts:44-75 | The shown pages are consecutive existing pages. There are none without pages, all of them when they fit, and otherwise exactly `maxVisiblePages` (default 3) around the current page. |
| PaginationComponent.WindowExamples | src/app/shared/components/pagination/pagination.component.ts:44-75 | Worked windows: centred in the middle, pulled back at the end, everything for short lists, nothing for no pages. |
| PaginationComponent.ComputeVisiblePages | src/app/shared/components/pagination/pagination.component.ts:44-75 | The component's two loops produce exactly those pages. |
| PaginationComponent.ShowStartEllipsis | src/app/shared/components/pagination/pagination.component.ts:77-80 | The start ellipsis appears exactly when buttons are shown but pages 0 and 1 are not among them. |
| PaginationComponent.ShowEndEllipsis | src/app/shared/components/pagination/pagination.component.ts:82-89 | The end ellipsis appears exactly when buttons are shown but neither of the last two pages is among them. |
| PaginationComponent.IsFirstPage | src/app/shared/components/pagination/pagination.component.ts:91 | On page 0 exactly, where the caption starts at row 1. |
| PaginationComponent.IsLastPage | src/app/shared/components/pagination/pagination.component.ts:93-95 | As written: the current page is `totalPages - 1`. With no pages that is page -1, so page 0 of an empty list is not the last page. |
| PaginationComponent.StartItem | src/app/shared/components/pagination/pagination.component.ts:97-99 | The caption's first row number is one past the rows of all earlier pages. |
| PaginationComponent.EndItem | src/app/shared/components/pagination/pagination.component.ts:100-105 | The caption's last row number is the smaller of the end of a full page and the total. |
| PaginationComponent.VisiblePageClicks | src/app/shared/components/pagination/pagination.component.ts:107-115 | Clicking any shown button other than the current page asks for that page. |
| PaginationComponent.ItemRangeCoversPage | src/app/shared/components/pagination/pagination.component.ts:97-105 | On a page that holds rows, the caption's range is non-empty, within the total, and no longer than a page. It is a full page unless it ends at the total. |
| PaginationComponent.OnPageClick | src/app/shared/components/pagination/pagination.component.ts:107-115 | A page click asks for that page exactly when it is another page that exists. |
| PaginationComponent.OnPreviousClick | src/app/shared/components/pagination/pagination.component.ts:117-121 | The previous-page button asks for the page before, exactly when not on page 0. |
| PaginationComponent.OnFirstClick | src/app/shared/components/pagination/pagination.component.ts:129-133 | The first-page button asks for page 0, exactly when not on page 0. |
| PaginationComponent.OnNextClick | src/app/shared/components/pagination/pagination.component.ts:123-127 | As written, the next-page button asks for the next page unless the current page equals `totalPages - 1`. |
| PaginationComponent.OnLastClick | src/app/shared/components/pagination/pagination.component.ts:135-139 | As written, the last-page button asks for `totalPages - 1` unless already there. |
| PaginationComponent.EmptyListNavigatesOutOfRange | src/app/shared/components/pagination/pagination.component.ts:93-95 | With no pages, as in the default configuration, page 0 is not the last page. Next then asks for page 1 and Last for page -1. |
| PaginationComponent.IsAtLastPage | src/app/shared/components/pagination/pagination.component.ts:93-95 | The intended last-page test holds on the last page and whenever there are no pages. |
| PaginationComponent.OnNextClickGuarded | src/app/shared/components/pagination/pagination.component.ts:123-127 | The intended next-page button only asks for an existing page, and always does so before the last page. |
| PaginationComponent.OnLastClickGuarded | src/app/shared/components/pagination/pagination.component.ts:135-139 | The intended last-page button only asks for an existing page, and always does so before the last page. |
| PaginationComponent.GuardedAgreesInRange | src/app/shared/components/pagination/pagination.component.ts:93-139 | On every existing page the intended buttons behave as the written ones. |
| PaginationHelper.PaginationConfigOf | src/app/shared/services/pagination.service.ts:22-24 | The helper's configuration is the view model's, or nothing when either is missing. |
| PaginationHelper.ItemsWithIndex | src/app/shared/services/pagination.service.ts:26-39 | Without rows or configuration there is nothing. Otherwise each row is kept in order, tagged with its 1-based position in the whole result. |
| PaginationHelper.TotalCount | src/app/shared/services/pagination.service.ts:41-47 | The total is the configuration's element count, or 0 without one. |
| PaginationHelper.CurrentPageStartIndex | src/app/shared/services/pagination.service.ts:49-54 | The start index is the number of rows before the current page, or 0 without a configuration. |
| PaginationHelper.AsHelperView | src/app/shared/store/countries.selectors.ts:18-27 | The typed view models carry a configuration but no `countries` field. |
| PaginationHelper.TypedViewModelsYieldNoRows | src/app/shared/services/pagination.service.ts:26-39 | Pointed at a typed view model, the helper numbers no rows while still reporting its total and configuration. |
| PaginationHelper.GlobalIndexPositive | src/app/components/countries-list/countries-list.component.ts:93-95 | Row numbers start at 1 on the first row of the first page. |
| PaginationHelper.GlobalIndexContiguous | src/app/components/countries-list/countries-list.component.ts:93-95 | Numbers rise by one per row, and a page continues where the previous one ended. |
| PaginationHelper.Locate | src/app/components/countries-list/countries-list.component.ts:93-95 | Every positive row number has a page and an in-page position. |
| PaginationHelper.GlobalIndexBijection | src/app/components/countries-list/countries-list.component.ts:93-95 | Numbering is a bijection between (page, in-page row) positions and the positive integers. |
| PaginationHelper.GlobalIndexMatchesCaption | src/app/shared/components/pagination/pagination.component.ts:97-105 | A page's row numbers run exactly from the control's first item to its last item. |
| CountriesList.OnInit | src/app/components/countries-list/countries-list.component.ts:35-47 | Mounting re-requests the stored page and size, or page 0 and 20 rows when nothing is stored. |
| CountriesList.OnDestroy | src/app/components/countries-list/countries-list.component.ts:49-53 | Leaving dispatches the reset of the pagination. |
| CountriesList.OnPageChange | src/app/components/countries-list/countries-list.component.ts:55-57 | A page change dispatches that page. |
| CountriesList.OnPageSizeChange | src/app/components/countries-list/countries-list.component.ts:59-61 | A size change dispatches that size. |
| CountriesList.Retry | src/app/components/countries-list/countries-list.component.ts:63-75 | Retry asks for page 0 at the stored size, or 20 when nothing is stored. |
| CountriesList.NavigateToCountryLanguages | src/app/components/countries-list/countries-list.component.ts:77-91 | Opening a country selects it and routes the popup outlet to a path holding its two-letter code, carrying the country along. |
| CountriesList.GetGlobalIndex | src/app/components/countries-list/countries-list.component.ts:93-95 | The list numbers rows as the helper service does, from 1 upward. |
| CountriesList.MountReloadsStoredPage | src/app/components/countries-list/countries-list.component.ts:35-47 | Mounting over a stored page leaves the state as it is and reloads exactly that page, size and filters. |
| CountriesList.RemountStartsOver | src/app/components/countries-list/countries-list.component.ts:49-53 | Since leaving resets the pagination, coming back starts on page 0 with five rows. |
| CountriesList.RetryReloadsFirstPage | src/app/components/countries-list/countries-list.component.ts:63-75 | Retrying reloads page 0 at the same size with the stored filters. |
| CountriesList.NavigationSelectsCountry | src/app/components/countries-list/countries-list.component.ts:77-91 | Opening a country selects it, touches only the languages slice, and triggers no load. |
| CountriesSearch.CeilDiv | src/app/components/countries-search/countries-search.component.ts:124 | `Math.ceil(a / b)`: the least page count holding `a` rows at `b` per page. |
| CountriesSearch.LoadRegions | src/app/components/countries-search/countries-search.component.ts:51-61 | The dropdown gets the six fixed regions and nothing else changes. |
| CountriesSearch.StringField | src/app/components/countries-search/countries-search.component.ts:68 | `value \|\| undefined` drops exactly the empty string. |
| CountriesSearch.NumberField | src/app/components/countries-search/countries-search.component.ts:69-70 | `value \|\| undefined` drops exactly `null` and `0`. |
| CountriesSearch.LoadCountriesData | src/app/components/countries-search/countries-search.component.ts:63-73 | Starting a load shows the spinner and no error. The request carries the configured page and size and exactly the truthy filter fields. |
| CountriesSearch.OnInit | src/app/components/countries-search/countries-search.component.ts:46-49 | Mounting fills the regions and starts a load. |
| CountriesSearch.EditFilters | src/app/components/countries-search/countries-search.component.ts:21-23 | Editing the form changes only the three filter fields. |
| CountriesSearch.ApplyFilters | src/app/components/countries-search/countries-search.component.ts:131-134 | Applying returns to page 0, keeps the fields, and loads page 0 at the configured size. |
| CountriesSearch.ClearFilters | src/app/components/countries-search/countries-search.component.ts:136-142 | Clearing empties the three fields, returns to page 0, and loads it without filters. |
| CountriesSearch.OnPageChange | src/app/components/countries-search/countries-search.component.ts:144-147 | A page change stores and loads the given page as is. |
| CountriesSearch.OnPageSizeChange | src/app/components/countries-search/countries-search.component.ts:149-156 | A size change stores the size, returns to page 0 and loads it. |
| CountriesSearch.Complete | src/app/components/countries-search/countries-search.component.ts:121-127 | Completion replaces the rows, stops loading, sets the total to the row count and sets the page count to the least that holds them. Everything else is kept. |
| CountriesSearch.PaginatedData | src/app/components/countries-search/countries-search.component.ts:158-160 | The rows shown are all loaded rows, unsliced. |
| CountriesSearch.MockTotals | src/app/components/countries-search/countries-search.component.ts:78-126 | With the five mock rows the total is 5 and the page count is the ceiling for the size: 1 from size 5 upward, 3 at size 2. All five rows are shown. |
| CountriesSearch.CompletionIgnoresFilters | src/app/components/countries-search/countries-search.component.ts:63-127 | The result does not depend on the filters or the page asked for. |
| CountriesSearch.Step | src/app/components/countries-search/countries-search.component.ts:131-156 | No intent or completion makes the page size non-positive. |
| CountriesSearch.Run | src/app/components/countries-search/countries-search.component.ts:131-156 | The same holds along any run of events. |
| CountriesSearch.StepSettled | src/app/components/countries-search/countries-search.component.ts:121-156 | One event keeps the screen error-free, with totals agreeing with the page size whenever no load is pending. |
| CountriesSearch.RunSettled | src/app/components/countries-search/countries-search.component.ts:46-160 | That holds along every sequence of intents and completions. |
| CountriesSearch.InitialSettled | src/app/components/countries-search/countries-search.component.ts:34-42 | The screen starts settled, with a five-page window. |
| Dataflow.FollowUpMatchesState | src/app/shared/store/countries.effects.ts:48-109 | After a page, size or initialisation change, the next load asks for exactly the page, size and filters the new state holds. |
| Dataflow.StatsFollowUpMatchesState | src/app/shared/store/countries.effects.ts:203-240 | After a statistics page or size change, the next load asks for exactly the stored statistics page and size. |
| Dataflow.ClearFiltersCycle | src/app/shared/store/countries.effects.ts:131-147 | Clearing stores page 0, the same size and undefined filters, and loads page 0 with an empty filter object. |
| Dataflow.ClearFiltersRequestMatchesState | src/app/shared/store/countries.effects.ts:131-147 | The request sent after clearing equals the request the new state describes: first page, stored size, no filter parameters. |
| Dataflow.SetFiltersCycle | src/app/shared/store/countries.effects.ts:112-128 | A filter update stores page 0 and the merged filters, and loads page 0 at the stored size with only the new keys. |
| Dataflow.SetFiltersRequestOmitsStoredKeys | src/app/shared/store/countries.effects.ts:112-128 | With a region stored, a search update keeps showing the region but asks the server without it. |
| Dataflow.SearchOnlyQuery | src/app/shared/services/nations.service.ts:32-45 | A search-only filter sends `search` and no `region`. |
| Dataflow.SetFiltersFromNothing | src/app/shared/store/countries.reducer.ts:67-80 | Without stored filters, the filters sent and the filters stored agree. |
| Dataflow.FailureEndsCycle | src/app/shared/store/countries.effects.ts:20-46 | Every failed fetch, whatever the status, ends the load with no rows, a translated error, and a not-ready view model. |
| Dataflow.SuccessEndsCycle | src/app/shared/store/countries.effects.ts:20-46 | Every successful fetch ends the load with the envelope's rows, count and page count in a ready view model. |
| Dataflow.ScenarioFirstLoad | src/app/shared/store/countries.reducer.ts:6-32 | A first load of five rows out of 23 shows the spinner, then five rows on the first of five pages, with consistent totals. |
| Dataflow.ScenarioRegionFromPageThree | src/app/shared/store/countries.effects.ts:112-128 | Picking a region on page 3 reloads page 0 at the unchanged size. The query is `page=0`, `size`, `region=Europe`, in that order. |
| Dataflow.RegionOnlyQuery | src/app/shared/services/nations.service.ts:28-45 | The query for a region-only filter is `page=0`, `size`, `region`. |
| Dataflow.RegionOnlyIsOneSet | src/app/shared/services/nations.service.ts:32-45 | A region-only filter amounts to one `set` of the region. |
| Dataflow.ScenarioConnectionLost | src/app/shared/store/countries.effects.ts:260-262 | Status 0 ends the load with the connection message and no rows. |
| Dataflow.ScenarioNoLanguages | src/app/shared/store/countries.reducer.ts:137-169 | A country without languages ends ready, error-free and empty, and still shows the country. |

## Left out

- HTTP, the rxjs pipelines (`mergeMap`, `withLatestFrom`, `take(1)`, `takeUntil`), console logging, the logger meta-reducer, translation, routing internals and templates are left out. The model is pure functions of state and events. A completed call becomes an explicit `Effects.Fetch` outcome.
- Concurrency and scheduling are left out. `mergeMap` does not cancel earlier requests, so responses are reduced in arrival order and there is no last-request-wins guarantee (`ReducerLaws.LastArrivalWins`). The countries-search `setTimeout` becomes an explicit completion event.
- `NationsService`: the URL's base (`API_BASE_URL`) is a parameter. `HttpParams` is a map plus first-insertion order, because the code only calls `set`. Query keys are an enumeration with their wire names.
- JavaScript numbers are modelled as mathematical integers. Fractions, `NaN`, `Infinity`, negative zero and overflow are not modelled. `toString` is modelled only for integers.
- Action factory functions are the datatype's constructors. The `any`-typed payloads are narrowed to the declared filter shapes, so extra keys in a filter object are not modelled.
- The reducer has no entries for the region, year-range and statistics-overview actions, so the model has no transitions for them (`ReducerLaws.HandledExactly`). The reducer has no overview page-size transition, so whether changing the overview page size resets its page does not arise.
- The single-field selectors (`selectCurrentPage`, `selectRegions`, …) are plain field reads and are used inline. The management-info selectors are not modelled.
- The pagination control's `onPageSizeChange` is left out: it parses the selected option with `parseInt`, and the offered sizes are positive constants (`PaginationComponent.PageSizes`).
- Effects.FollowUp: each of the seven effects that start a load first logs `CountriesActions.ACTION_LOG_MESSAGES.<KEY>` (`countries.effects.ts:53`, 76, 96, 116, 135, 208 and 228). The actions file defines no `ACTION_LOG_MESSAGES`, so as written that read fails to type-check and, at run time, throws before the load action is emitted. The model assumes the log reads succeed and emits the load.
- Reducer.Dispatch: requires a foreign action to carry none of the 35 `type` strings and none of the inherited `Object.prototype` names; `Reducer.Call` covers the inherited names. The store tells actions apart by type alone, so an action of another feature that reused one of them would be that class. The other 13 classes that find no entry are covered as this store's actions.
- CountriesSearch.Complete: requires a non-zero page size. With size 0, `Math.ceil` yields `Infinity`, which integers cannot represent. The event model requires positive sizes for the same reason.
- CountriesSearch.Step: requires a positive page size, for the same reason.
- The mock rows' field values are not modelled. Only their number (5) matters to the screen's logic.
- Actions.TypeOfInjective: states only that equal `type` strings mean the same class. The converse is immediate from `TypeOf` being a function.
- NationsService.GetCountries: its own contract covers only the case without filters. The filtered case is stated by `NationsService.CountriesQueryRoundTrip` and `NationsService.CountriesQueryShape`.
- NationsService.GetCountryStatsOverview: the same holds, with `NationsService.OverviewQueryRoundTrip` and `NationsService.OverviewQueryShape`.
- The `countries-stats` and `country-languages` screens, the translation service and the app configuration are not part of this model.

## Findings

| source | as written | input that shows it | evidently intended | confidence | as-written member | corrected member |
|---|---|---|---|---|---|---|
| src/app/shared/components/pagination/pagination.component.ts:93-95 | `isLastPage` is `currentPage === totalPages - 1`, and Next and Last are guarded only by it | `totalPages = 0`, `currentPage = 0`, as in the control's default configuration: Next emits page 1 and Last emits page -1 | no page after the current one (`currentPage >= totalPages - 1`), so neither button emits a page that does not exist | not executed | PaginationComponent.EmptyListNavigatesOutOfRange | PaginationComponent.OnNextClickGuarded |
